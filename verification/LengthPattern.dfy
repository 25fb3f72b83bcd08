/**
  The pattern for the announced length, line by line. It is sought in the whole header text, where line
  breaks count as spaces: so a match starts within one line, but its number may stand on a later one.
 */
module LengthPattern {
  import opened Wrappers
  import opened AsciiText
  import opened HttpReader
  import opened HttpRoundTrip

  const NAME := "content-length:"

  predicate NameAt(s: string, q: nat) {
    q + |NAME| <= |s| && Lowered(s[q..q + |NAME|]) == NAME
  }

  /** The line contains the pattern's name in any case. */
  predicate Mentions(line: string) {
    exists q :: 0 <= q < |line| && NameAt(line, q)
  }

  /** The number a text begins with. */
  function Leading(s: string): Option<nat> {
    var end := DigitsEnd(s, 0);
    if end == 0 then None else Some(Number(s[..end]))
  }

  /** The number after a name: the first thing that is no space, on this line or, if that ends first, on the next. */
  function ValueAfter(tail: string, more: seq<string>): Option<nat>
    decreases |more|, |tail|
  {
    if tail == "" then if more == [] then None else ValueAfter(more[0], more[1..])
    else if IsSpace(tail[0]) then ValueAfter(tail[1..], more)
    else Leading(tail)
  }

  /** What a line carries from its position q on: the number after the first name that has one. */
  function LineValue(line: string, q: nat, more: seq<string>): Option<nat>
    decreases |line| - q
  {
    if q >= |line| then None
    else
      var v := if NameAt(line, q) then ValueAfter(line[q + |NAME|..], more) else None;
      if v.Some? then v else LineValue(line, q + 1, more)
  }

  /** What the first line that carries anything carries. */
  function FirstValue(lines: seq<string>): Option<nat> {
    if lines == [] then None
    else if LineValue(lines[0], 0, lines[1..]).Some? then LineValue(lines[0], 0, lines[1..])
    else FirstValue(lines[1..])
  }

  // ---- Numbers -------------------------------------------------------------------------------------

  function ValueAt(text: string, i: nat): Option<nat>
    requires i <= |text|
  {
    var start := SpacesEnd(text, i);
    var end := DigitsEnd(text, start);
    if start == end then None else Some(Number(text[start..end]))
  }

  lemma SliceShift(text: string, p: nat, i: nat, j: nat)
    requires i <= j && p + j <= |text|
    ensures text[p..][i..j] == text[p + i..p + j]
  {
  }

  lemma ValueShift(text: string, p: nat, i: nat)
    requires p + i <= |text|
    ensures ValueAt(text[p..], i) == ValueAt(text, p + i)
  {
    var t := text[p..];
    var start := SpacesEnd(t, i);
    var end := DigitsEnd(t, start);
    SpacesShift(text, p, i);
    assert SpacesEnd(text, p + i) == p + start;
    DigitsShift(text, p, start);
    assert DigitsEnd(text, p + start) == p + end;
    SliceShift(text, p, start, end);
  }

  lemma {:induction false} DigitsStop(s: string, after: string, i: nat)
    requires i <= |s| && (after == "" || !IsDigit(after[0]))
    ensures DigitsEnd(s + after, i) == DigitsEnd(s, i)
    decreases |s| - i
  {
    if i < |s| && IsDigit(s[i]) {
      DigitsStop(s, after, i + 1);
    }
  }

  /** Digits do not run over the end of a line. */
  lemma LeadingOfLine(s: string, after: string)
    requires s != "" && !IsSpace(s[0]) && (after == "" || after[0] == '\r')
    ensures ValueAt(s + after, 0) == Leading(s)
  {
    DigitsStop(s, after, 0);
    var end := DigitsEnd(s, 0);
    assert (s + after)[0] == s[0];
    assert (s + after)[0..end] == s[..end];
  }

  lemma AfterLine(lines: seq<string>) returns (after: string)
    requires lines != []
    ensures Broken(lines) == lines[0] + after && (after == "" || after[0] == '\r')
  {
    after := if |lines| == 1 then "" else CRLF + Broken(lines[1..]);
    if |lines| > 1 {
      assert lines[0] + CRLF + Broken(lines[1..]) == lines[0] + after;
    } else {
      assert lines[0] + "" == lines[0];
    }
  }

  lemma OverTheBreak(line: string, rest: string)
    ensures var text := line + CRLF + rest;
            ValueAt(text, |line|) == ValueAt(rest, 0)
  {
    var text := line + CRLF + rest;
    assert text[|line|] == '\r' && text[|line| + 1] == '\n';
    assert SpacesEnd(text, |line|) == SpacesEnd(text, |line| + 1) == SpacesEnd(text, |line| + 2);
    assert text[|line| + 2..] == rest;
    ValueShift(text, |line| + 2, 0);
  }

  /** Reading the number in the header text is reading it line by line. */
  lemma {:induction false} ValueInLines(lines: seq<string>, i: nat)
    requires LinesOk(lines) && i <= |lines[0]|
    ensures i <= |Broken(lines)| && ValueAt(Broken(lines), i) == ValueAfter(lines[0][i..], lines[1..])
    decreases |lines|, |lines[0]| - i
  {
    var after := AfterLine(lines);
    var text := Broken(lines);
    if i < |lines[0]| {
      if IsSpace(lines[0][i]) {
        ValueInLines(lines, i + 1);
        assert SpacesEnd(text, i) == SpacesEnd(text, i + 1);
        assert lines[0][i..][1..] == lines[0][i + 1..];
      } else {
        assert text[i..] == lines[0][i..] + after;
        ValueShift(text, i, 0);
        LeadingOfLine(lines[0][i..], after);
      }
    } else if |lines| > 1 {
      OverTheBreak(lines[0], Broken(lines[1..]));
      ValueInLines(lines[1..], 0);
      assert lines[1][0..] == lines[1];
    }
  }

  // ---- Matches -------------------------------------------------------------------------------------

  lemma NameHasNoBreak(s: string, q: nat, i: nat)
    requires NameAt(s, q) && q <= i < q + |NAME|
    ensures s[i] != '\r' && s[i] != '\n'
  {
    assert Lowered(s[q..q + |NAME|])[i - q] == Lower(s[i]);
  }

  lemma NameInLine(line: string, after: string, q: nat)
    requires q < |line| && (after == "" || after[0] == '\r')
    ensures NameAt(line + after, q) <==> NameAt(line, q)
  {
    var text := line + after;
    if NameAt(text, q) && q + |NAME| > |line| {
      NameHasNoBreak(text, q, |line|);
      assert false;
    }
    if q + |NAME| <= |line| {
      assert text[q..q + |NAME|] == line[q..q + |NAME|];
    }
  }

  lemma MatchAt(lines: seq<string>, q: nat)
    requires LinesOk(lines) && q < |lines[0]|
    ensures LengthAt(Broken(lines), q)
         == if NameAt(lines[0], q) then ValueAfter(lines[0][q + |NAME|..], lines[1..]) else None
  {
    var after := AfterLine(lines);
    NameInLine(lines[0], after, q);
    if NameAt(lines[0], q) {
      ValueInLines(lines, q + |NAME|);
    }
  }

  lemma NoMatchAtBreak(line: string, rest: string, q: nat)
    requires |line| <= q < |line| + 2
    ensures LengthAt(line + CRLF + rest, q).None?
  {
    var text := line + CRLF + rest;
    if NameAt(text, q) {
      NameHasNoBreak(text, q, q);
    }
  }

  lemma LengthShifts(header: string, p: nat, q: nat)
    requires p + q <= |header|
    ensures LengthAt(header[p..], q) == LengthAt(header, p + q)
  {
    if p + q + |NAME| <= |header| {
      assert header[p..][q..q + |NAME|] == header[p + q..p + q + |NAME|];
      ValueShift(header, p, q + |NAME|);
    }
  }

  lemma {:induction false} LengthFromShifts(header: string, p: nat, q: nat)
    requires p + q <= |header|
    ensures LengthFrom(header[p..], q) == LengthFrom(header, p + q)
    decreases |header| - q
  {
    if p + q < |header| {
      LengthShifts(header, p, q);
      LengthFromShifts(header, p, q + 1);
    }
  }

  /** The search, from a position of the first line on. */
  lemma {:induction false} ScanLine(lines: seq<string>, q: nat)
    requires LinesOk(lines) && q <= |lines[0]|
    ensures LengthFrom(Broken(lines), q)
         == if LineValue(lines[0], q, lines[1..]).Some? then LineValue(lines[0], q, lines[1..])
            else if |lines| == 1 then None else LengthFrom(Broken(lines[1..]), 0)
    decreases |lines[0]| - q
  {
    var after := AfterLine(lines);
    if q < |lines[0]| {
      MatchAt(lines, q);
      ScanLine(lines, q + 1);
    } else if |lines| > 1 {
      var rest := Broken(lines[1..]);
      NoMatchAtBreak(lines[0], rest, q);
      NoMatchAtBreak(lines[0], rest, q + 1);
      assert Broken(lines)[q + 2..] == rest;
      LengthFromShifts(Broken(lines), q + 2, 0);
    }
  }

  /** The announced length is what the first line that carries anything carries. */
  lemma {:induction false} AnnouncedIsFirst(lines: seq<string>)
    requires LinesOk(lines)
    ensures ContentLength(Broken(lines)) == FirstValue(lines)
    decreases |lines|
  {
    ScanLine(lines, 0);
    if |lines| > 1 {
      AnnouncedIsFirst(lines[1..]);
    }
  }

  // ---- The first line that carries anything ----------------------------------------------------------

  function Carries(lines: seq<string>, i: nat): Option<nat>
    requires i < |lines|
  {
    LineValue(lines[i], 0, lines[i + 1..])
  }

  /** Line i carries n, and no line before it carries anything. */
  predicate FirstCarries(lines: seq<string>, i: nat, n: nat) {
    i < |lines| && Carries(lines, i) == Some(n) && forall j | 0 <= j < i :: Carries(lines, j).None?
  }

  lemma {:induction false} FirstValueFrom(lines: seq<string>, i: nat)
    requires i <= |lines|
    ensures var v := FirstValue(lines[i..]);
            && (v.None? <==> forall j | i <= j < |lines| :: Carries(lines, j).None?)
            && (v.Some? ==> exists k :: i <= k < |lines| && Carries(lines, k) == v
                                        && forall j | i <= j < k :: Carries(lines, j).None?)
    decreases |lines| - i
  {
    if i < |lines| {
      FirstValueFrom(lines, i + 1);
      assert lines[i..][0] == lines[i] && lines[i..][1..] == lines[i + 1..];
      if Carries(lines, i).None? && FirstValue(lines[i + 1..]).Some? {
        var v := FirstValue(lines[i + 1..]);
        var k :| i + 1 <= k < |lines| && Carries(lines, k) == v
                 && forall j | i + 1 <= j < k :: Carries(lines, j).None?;
        assert forall j | i <= j < k :: Carries(lines, j).None?;
      }
    }
  }

  lemma FirstValueCarries(lines: seq<string>)
    ensures FirstValue(lines).None? <==> forall i | 0 <= i < |lines| :: Carries(lines, i).None?
    ensures FirstValue(lines).Some? ==> exists i: nat :: FirstCarries(lines, i, FirstValue(lines).value)
  {
    FirstValueFrom(lines, 0);
    assert lines[0..] == lines;
    var v := FirstValue(lines);
    if v.Some? {
      var k :| 0 <= k < |lines| && Carries(lines, k) == v && forall j | 0 <= j < k :: Carries(lines, j).None?;
      assert FirstCarries(lines, k, v.value);
    }
  }

  /** Header lines announce n if and only if the first of them that carries anything carries n. */
  lemma AnnouncesIff(lines: seq<string>, n: nat)
    requires LinesOk(lines)
    ensures ContentLength(Broken(lines)) == Some(n) <==> exists i: nat :: FirstCarries(lines, i, n)
    ensures ContentLength(Broken(lines)).None? <==> forall i | 0 <= i < |lines| :: Carries(lines, i).None?
  {
    AnnouncedIsFirst(lines);
    FirstValueCarries(lines);
    if i: nat :| FirstCarries(lines, i, n) {
      assert Carries(lines, i).Some?;
      var k: nat :| FirstCarries(lines, k, FirstValue(lines).value);
      SameFirst(lines, i, n, k, FirstValue(lines).value);
    }
  }

  lemma SameFirst(lines: seq<string>, i: nat, n: nat, k: nat, m: nat)
    requires FirstCarries(lines, i, n) && FirstCarries(lines, k, m)
    ensures i == k && n == m
  {
  }
}
