/** Finding a pattern in a sequence, as the source's indexOf does on strings and on buffers. */
module Search {
  import opened Wrappers

  predicate OccursAt<T(==)>(text: seq<T>, pattern: seq<T>, i: nat) {
    i + |pattern| <= |text| && text[i..i + |pattern|] == pattern
  }

  /** The first place where the pattern occurs. */
  function IndexOf<T(==)>(text: seq<T>, pattern: seq<T>): (r: Option<nat>)
    ensures r.Some? ==> OccursAt(text, pattern, r.value) && forall i: nat | i < r.value :: !OccursAt(text, pattern, i)
    ensures r.None? ==> forall i: nat :: !OccursAt(text, pattern, i)
  {
    FirstFrom(text, pattern, 0)
  }

  function FirstFrom<T(==)>(text: seq<T>, pattern: seq<T>, start: nat): (r: Option<nat>)
    ensures r.Some? ==> start <= r.value && OccursAt(text, pattern, r.value)
    ensures r.Some? ==> forall i: nat | start <= i < r.value :: !OccursAt(text, pattern, i)
    ensures r.None? ==> forall i: nat | start <= i :: !OccursAt(text, pattern, i)
    decreases |text| - start
  {
    if start + |pattern| > |text| then None
    else if OccursAt(text, pattern, start) then Some(start)
    else FirstFrom(text, pattern, start + 1)
  }

  /** The result of a search is the one place with nothing before it. */
  lemma FirstIs<T>(text: seq<T>, pattern: seq<T>, i: nat)
    requires OccursAt(text, pattern, i) && forall j: nat | j < i :: !OccursAt(text, pattern, j)
    ensures IndexOf(text, pattern) == Some(i)
  {
  }

  /** Text added at the end moves no occurrence and uncovers none before an old one. */
  lemma IndexOfStable<T>(text: seq<T>, pattern: seq<T>, more: seq<T>)
    requires IndexOf(text, pattern).Some?
    ensures IndexOf(text + more, pattern) == IndexOf(text, pattern)
  {
    var k := IndexOf(text, pattern).value;
    assert (text + more)[k..k + |pattern|] == text[k..k + |pattern|];
    forall j: nat | j < k
      ensures !OccursAt(text + more, pattern, j)
    {
      assert !OccursAt(text, pattern, j);
      assert (text + more)[j..j + |pattern|] == text[j..j + |pattern|];
    }
    FirstIs(text + more, pattern, k);
  }

  predicate HasNo<T(==)>(s: seq<T>, c: T) {
    forall i | 0 <= i < |s| :: s[i] != c
  }

  lemma NoneIn<T>(s: seq<T>, c: T)
    requires HasNo(s, c)
    ensures IndexOf(s, [c]) == None
  {
    forall j: nat
      ensures !OccursAt(s, [c], j)
    {
      if j < |s| {
        assert s[j..j + 1] == [s[j]];
      }
    }
  }

  lemma FirstAt<T>(s: seq<T>, c: T, k: nat)
    requires k < |s| && s[k] == c && HasNo(s[..k], c)
    ensures IndexOf(s, [c]) == Some(k)
  {
    forall j: nat | j < k
      ensures !OccursAt(s, [c], j)
    {
      assert s[..k][j] == s[j] && s[j..j + 1] == [s[j]];
    }
    FirstIs(s, [c], k);
  }
}
