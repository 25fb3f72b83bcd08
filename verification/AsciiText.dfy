/** Characters and trimming; text is ASCII throughout. */
module AsciiText {
  predicate IsSpace(c: char) {
    c == ' ' || '\t' <= c <= '\r'
  }

  predicate IsDigit(c: char) {
    '0' <= c <= '9'
  }

  predicate IsHexDigit(c: char) {
    IsDigit(c) || 'a' <= c <= 'f' || 'A' <= c <= 'F'
  }

  function Lower(c: char): char {
    if 'A' <= c <= 'Z' then 'a' + (c - 'A') else c
  }

  function Lowered(s: string): string {
    seq(|s|, i requires 0 <= i < |s| => Lower(s[i]))
  }

  function TrimStart(s: string): string {
    if s != [] && IsSpace(s[0]) then TrimStart(s[1..]) else s
  }

  function TrimEnd(s: string): string {
    if s != [] && IsSpace(s[|s| - 1]) then TrimEnd(s[..|s| - 1]) else s
  }

  function Trim(s: string): string {
    TrimEnd(TrimStart(s))
  }

  // ---- The characters meant --------------------------------------------------------------------------

  const DIGITS := "0123456789"
  const UPPER := "ABCDEFGHIJKLM" + "NOPQRSTUVWXYZ"
  const LOWER := "abcdefghijklm" + "nopqrstuvwxyz"

  lemma SpacesAre(c: char)
    ensures IsSpace(c) <==> c in " \t\n\U{0B}\U{0C}\r"
  {
    assert c in " \t\n\U{0B}\U{0C}\r" <==>
           c == ' ' || c == '\t' || c == '\n' || c == '\U{0B}' || c == '\U{0C}' || c == '\r';
    if '\t' <= c <= '\r' {
      assert 9 <= c as int <= 13;
    }
  }

  /** Digit d is the d-th of them. */
  lemma DigitAt(d: nat)
    requires d < 10
    ensures IsDigit(DIGITS[d]) && DIGITS[d] as int == '0' as int + d
  {
  }

  lemma DigitsAre(c: char)
    ensures IsDigit(c) <==> c in DIGITS
  {
    if IsDigit(c) {
      DigitAt(c as int - '0' as int);
    }
  }

  lemma UpperHalves(i: nat)
    requires i < 13
    ensures "ABCDEFGHIJKLM"[i] as int == 'A' as int + i && "NOPQRSTUVWXYZ"[i] as int == 'N' as int + i
  {
  }

  lemma LowerHalves(i: nat)
    requires i < 13
    ensures "abcdefghijklm"[i] as int == 'a' as int + i && "nopqrstuvwxyz"[i] as int == 'n' as int + i
  {
  }

  lemma LowerAt(i: nat)
    requires i < 26
    ensures 'A' <= UPPER[i] <= 'Z' && UPPER[i] as int == 'A' as int + i && LOWER[i] as int == 'a' as int + i
  {
    UpperHalves(i % 13);
    LowerHalves(i % 13);
  }

  /** Only letters have a lower case: the one at the same place. */
  lemma LowerIs(c: char)
    ensures c !in UPPER ==> Lower(c) == c
    ensures forall i | 0 <= i < 26 && c == UPPER[i] :: Lower(c) == LOWER[i]
  {
    if 'A' <= c <= 'Z' {
      LowerAt(c as int - 'A' as int);
    }
    forall i | 0 <= i < 26 && c == UPPER[i]
      ensures Lower(c) == LOWER[i]
    {
      LowerAt(i);
    }
  }

  lemma HexDigitsAre(c: char)
    ensures IsHexDigit(c) <==> c in DIGITS || c in LOWER[..6] || c in UPPER[..6]
  {
    DigitsAre(c);
    if 'a' <= c <= 'f' {
      LowerAt(c as int - 'a' as int);
      assert LOWER[..6][c as int - 'a' as int] == c;
    }
    if 'A' <= c <= 'F' {
      LowerAt(c as int - 'A' as int);
      assert UPPER[..6][c as int - 'A' as int] == c;
    }
    if c in LOWER[..6] {
      var i :| 0 <= i < 6 && LOWER[..6][i] == c;
      LowerAt(i);
    }
    if c in UPPER[..6] {
      var i :| 0 <= i < 6 && UPPER[..6][i] == c;
      LowerAt(i);
    }
  }

  predicate AllSpaces(s: string) {
    forall i | 0 <= i < |s| :: IsSpace(s[i])
  }

  predicate Trimmed(s: string) {
    s == "" || (!IsSpace(s[0]) && !IsSpace(s[|s| - 1]))
  }

  lemma {:induction false} TrimStartIs(before: string, s: string)
    requires AllSpaces(before) && (s == "" || !IsSpace(s[0]))
    ensures TrimStart(before + s) == s
  {
    if before == "" {
      assert before + s == s;
    } else {
      assert (before + s)[1..] == before[1..] + s;
      TrimStartIs(before[1..], s);
    }
  }

  lemma {:induction false} TrimEndIs(s: string, after: string)
    requires AllSpaces(after) && (s == "" || !IsSpace(s[|s| - 1]))
    ensures TrimEnd(s + after) == s
  {
    if after == "" {
      assert s + after == s;
    } else {
      var last := |after| - 1;
      assert (s + after)[..|s| + last] == s + after[..last];
      TrimEndIs(s, after[..last]);
    }
  }

  /** Trimming takes off exactly the spaces at both ends. */
  lemma TrimIs(before: string, s: string, after: string)
    requires AllSpaces(before) && AllSpaces(after) && Trimmed(s)
    ensures Trim(before + s + after) == s
  {
    if s == "" {
      assert before + s + after == (before + after) + "";
      TrimStartIs(before + after, "");
    } else {
      assert before + s + after == before + (s + after);
      TrimStartIs(before, s + after);
      TrimEndIs(s, after);
    }
  }
}
