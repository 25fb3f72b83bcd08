/**
  Responses as they are written (sections 4 and 5 of RFC 9112), read back: what the parser makes of the
  status line and the header lines, and when the announced length is the one of the Content-Length line.
 */
module HttpRoundTrip {
  import opened Wrappers
  import opened AsciiText
  import opened HttpReader
  import opened Search

  // ---- Writing -------------------------------------------------------------------------------------

  datatype Head = Head(major: char, minor: char, code: string, reason: string, fields: seq<(string, string)>)

  function StatusLine(h: Head): string {
    "HTTP/" + [h.major, '.', h.minor, ' '] + h.code + " " + h.reason
  }

  function FieldLine(field: (string, string)): string {
    field.0 + ": " + field.1
  }

  function HeadLines(h: Head): seq<string> {
    [StatusLine(h)] + FieldLines(h.fields)
  }

  function FieldLines(fields: seq<(string, string)>): seq<string> {
    seq(|fields|, i requires 0 <= i < |fields| => FieldLine(fields[i]))
  }

  /** Lines with a line break between each two. */
  function Broken(lines: seq<string>): string {
    if lines == [] then ""
    else if |lines| == 1 then lines[0]
    else lines[0] + CRLF + Broken(lines[1..])
  }

  predicate AllDigits(s: string) {
    forall i | 0 <= i < |s| :: IsDigit(s[i])
  }

  predicate FieldOk(field: (string, string)) {
    && field.0 != "" && Trimmed(field.0) && HasNo(field.0, ':') && HasNo(field.0, '\r')
    && Trimmed(field.1) && HasNo(field.1, '\r')
  }

  predicate HeadOk(h: Head) {
    && IsDigit(h.major) && IsDigit(h.minor) && h.code != "" && AllDigits(h.code)
    && Trimmed(h.reason) && HasNo(h.reason, '\r') && HasNo(h.reason, '\n')
    && forall i | 0 <= i < |h.fields| :: FieldOk(h.fields[i])
  }

  // ---- Runs of characters ----------------------------------------------------------------------------

  lemma {:induction false} SpacesRun(s: string, i: nat, j: nat)
    requires i <= j <= |s| && (forall k | i <= k < j :: IsSpace(s[k])) && (j < |s| ==> !IsSpace(s[j]))
    ensures SpacesEnd(s, i) == j
    decreases j - i
  {
    if i < j {
      SpacesRun(s, i + 1, j);
    }
  }

  lemma {:induction false} DigitsRun(s: string, i: nat, j: nat)
    requires i <= j <= |s| && (forall k | i <= k < j :: IsDigit(s[k])) && (j < |s| ==> !IsDigit(s[j]))
    ensures DigitsEnd(s, i) == j
    decreases j - i
  {
    if i < j {
      DigitsRun(s, i + 1, j);
    }
  }

  lemma {:induction false} SpacesShift(s: string, p: nat, i: nat)
    requires p + i <= |s|
    ensures SpacesEnd(s[p..], i) + p == SpacesEnd(s, p + i)
    decreases |s| - i
  {
    if p + i < |s| && IsSpace(s[p + i]) {
      SpacesShift(s, p, i + 1);
    }
  }

  lemma {:induction false} DigitsShift(s: string, p: nat, i: nat)
    requires p + i <= |s|
    ensures DigitsEnd(s[p..], i) + p == DigitsEnd(s, p + i)
    decreases |s| - i
  {
    if p + i < |s| && IsDigit(s[p + i]) {
      DigitsShift(s, p, i + 1);
    }
  }

  lemma {:induction false} DottedWhole(s: string)
    requires HasNo(s, '\r') && HasNo(s, '\n')
    ensures Dotted(s) == s
  {
    if s != "" {
      DottedWhole(s[1..]);
    }
  }

  // ---- Decimal numbers -------------------------------------------------------------------------------

  /** A number as it is written. */
  function Decimal(n: nat): string {
    if n < 10 then [DIGITS[n]] else Decimal(n / 10) + [DIGITS[n % 10]]
  }

  /** It reads back. */
  lemma {:induction false} DecimalReadsBack(n: nat)
    ensures Decimal(n) != "" && AllDigits(Decimal(n)) && Number(Decimal(n)) == n
  {
    DigitAt(n % 10);
    if n >= 10 {
      DecimalReadsBack(n / 10);
      var all, init := Decimal(n), Decimal(n / 10);
      assert all[..|all| - 1] == init && all[|all| - 1] == DIGITS[n % 10];
    } else {
      assert Decimal(n)[..0] == "";
    }
  }

  // ---- The status line -------------------------------------------------------------------------------

  lemma StatusParts(h: Head)
    requires HeadOk(h)
    ensures var line, n := StatusLine(h), |h.code|;
            && |line| == 10 + n + |h.reason|
            && line[..5] == "HTTP/" && line[5] == h.major && line[6] == '.' && line[7] == h.minor && line[8] == ' '
            && line[9..9 + n] == h.code && line[9 + n] == ' ' && line[10 + n..] == h.reason
  {
  }

  /** The status line reads back as its code and its reason. */
  lemma StatusReadsBack(h: Head)
    requires HeadOk(h)
    ensures StatusAt(StatusLine(h), 0) == Some((Number(h.code), h.reason)) == StatusFrom(StatusLine(h), 0)
  {
    var line, n := StatusLine(h), |h.code|;
    StatusParts(h);
    assert line[9] == h.code[0];
    SpacesRun(line, 8, 9);
    forall k | 9 <= k < 9 + n
      ensures IsDigit(line[k])
    {
      assert line[k] == h.code[k - 9];
    }
    DigitsRun(line, 9, 9 + n);
    assert h.reason != "" ==> line[10 + n] == h.reason[0];
    SpacesRun(line, 9 + n, 10 + n);
    DottedWhole(h.reason);
  }

  /** The reason ends with the line, also at a lone line feed or carriage return. */
  lemma {:induction false} DottedUpTo(s: string, stop: char, after: string)
    requires HasNo(s, '\r') && HasNo(s, '\n') && (stop == '\r' || stop == '\n')
    ensures Dotted(s + [stop] + after) == s
  {
    if s != "" {
      assert (s + [stop] + after)[1..] == s[1..] + [stop] + after;
      DottedUpTo(s[1..], stop, after);
    }
  }

  lemma ReasonShift(line: string, p: nat, j: nat)
    requires p + j <= |line|
    ensures line[p..][SpacesEnd(line[p..], j)..] == line[SpacesEnd(line, p + j)..]
  {
    SpacesShift(line, p, j);
  }

  lemma CodeShift(line: string, p: nat, i: nat, j: nat)
    requires i <= j && p + j <= |line|
    ensures line[p..][i..j] == line[p + i..p + j]
  {
  }

  lemma VersionShift(line: string, p: nat, i: nat)
    requires p + i + 8 <= |line|
    ensures line[p..][i..i + 5] == line[p + i..p + i + 5]
    ensures line[p..][i + 5] == line[p + i + 5] && line[p..][i + 6] == line[p + i + 6]
    ensures line[p..][i + 7] == line[p + i + 7]
  {
  }

  predicate VersionAt(line: string, i: nat) {
    i + 8 <= |line| && line[i..i + 5] == "HTTP/" && IsDigit(line[i + 5]) && line[i + 6] == '.' && IsDigit(line[i + 7])
  }

  function CodeAndReason(line: string, j: nat): Option<(nat, string)>
    requires j <= |line|
  {
    var start := SpacesEnd(line, j);
    var end := DigitsEnd(line, start);
    if start == j || start == end then None
    else Some((Number(line[start..end]), Dotted(line[SpacesEnd(line, end)..])))
  }

  lemma StatusInTwo(line: string, i: nat)
    ensures StatusAt(line, i) == if VersionAt(line, i) then CodeAndReason(line, i + 8) else None
  {
  }

  lemma CodeAndReasonShift(line: string, p: nat, j: nat)
    requires p + j <= |line|
    ensures CodeAndReason(line[p..], j) == CodeAndReason(line, p + j)
  {
    var t := line[p..];
    var start := SpacesEnd(t, j);
    var end := DigitsEnd(t, start);
    SpacesShift(line, p, j);
    assert SpacesEnd(line, p + j) == p + start;
    DigitsShift(line, p, start);
    assert DigitsEnd(line, p + start) == p + end;
    CodeShift(line, p, start, end);
    ReasonShift(line, p, end);
  }

  lemma StatusAtShift(line: string, p: nat, i: nat)
    requires p + i <= |line|
    ensures StatusAt(line[p..], i) == StatusAt(line, p + i)
  {
    StatusInTwo(line[p..], i);
    StatusInTwo(line, p + i);
    if p + i + 8 <= |line| {
      VersionShift(line, p, i);
      CodeAndReasonShift(line, p, i + 8);
    }
  }

  /** The pattern is sought anywhere in the line: what stands before the version does not matter. */
  lemma {:induction false} StatusAfter(before: string, h: Head)
    requires HeadOk(h) && HasNo(before, 'H')
    ensures StatusFrom(before + StatusLine(h), 0) == Some((Number(h.code), h.reason))
  {
    StatusReadsBack(h);
    StatusSkips(before, StatusLine(h), 0);
  }

  lemma {:induction false} StatusSkips(before: string, line: string, i: nat)
    requires HasNo(before, 'H') && i <= |before| && StatusAt(line, 0).Some?
    ensures StatusFrom(before + line, i) == StatusAt(line, 0)
    decreases |before| - i
  {
    var all := before + line;
    if i < |before| {
      assert i + 5 <= |all| ==> all[i..i + 5][0] == before[i];
      StatusSkips(before, line, i + 1);
    } else {
      assert all[i..] == line;
      StatusAtShift(all, i, 0);
    }
  }

  // ---- The header lines ------------------------------------------------------------------------------

  /** A line reads back whatever spaces stand around the name and around the value. */
  lemma SpacedFieldReadsBack(headers: map<string, string>, field: (string, string), s: seq<string>)
    requires FieldOk(field) && |s| == 4 && forall i | 0 <= i < 4 :: AllSpaces(s[i])
    ensures WithHeader(headers, s[0] + field.0 + s[1] + ":" + (s[2] + field.1 + s[3]))
         == headers[Lowered(field.0) := field.1]
  {
    var left, right := s[0] + field.0 + s[1], s[2] + field.1 + s[3];
    var line := left + ":" + right;
    assert HasNo(left, ':');
    assert line[..|left|] == left && line[|left|] == ':' && line[|left| + 1..] == right;
    FirstAt(line, ':', |left|);
    TrimIs(s[0], field.0, s[1]);
    TrimIs(s[2], field.1, s[3]);
  }

  lemma FieldReadsBack(headers: map<string, string>, field: (string, string))
    requires FieldOk(field)
    ensures WithHeader(headers, FieldLine(field)) == headers[Lowered(field.0) := field.1]
  {
    SpacedFieldReadsBack(headers, field, ["", "", " ", ""]);
    assert "" + field.0 + "" + ":" + (" " + field.1 + "") == FieldLine(field);
  }

  /** A line without a colon is passed over. */
  lemma NoColonNoField(headers: map<string, string>, line: string)
    requires HasNo(line, ':')
    ensures WithHeader(headers, line) == headers
  {
    NoneIn(line, ':');
  }

  /** The fields as a map from lower-case names; of two of one name the later one counts. */
  function FieldMap(fields: seq<(string, string)>): map<string, string> {
    if fields == [] then map[]
    else
      var last := fields[|fields| - 1];
      FieldMap(fields[..|fields| - 1])[Lowered(last.0) := last.1]
  }

  lemma {:induction false} FieldsReadBack(fields: seq<(string, string)>)
    requires forall i | 0 <= i < |fields| :: FieldOk(fields[i])
    ensures Headers(FieldLines(fields)) == FieldMap(fields)
  {
    if fields != [] {
      var rest := fields[..|fields| - 1];
      assert FieldLines(fields)[..|fields| - 1] == FieldLines(rest);
      FieldsReadBack(rest);
      FieldReadsBack(FieldMap(rest), fields[|fields| - 1]);
    }
  }

  /** A field that no later one of its name overrides has its value in the map, and nothing else is there. */
  lemma {:induction false} FieldMapMeans(fields: seq<(string, string)>, name: string)
    ensures name in FieldMap(fields) <==> exists i :: 0 <= i < |fields| && Lowered(fields[i].0) == name
    ensures forall i | 0 <= i < |fields| && Lowered(fields[i].0) == name
                       && (forall j | i < j < |fields| :: Lowered(fields[j].0) != name) ::
                          FieldMap(fields)[name] == fields[i].1
  {
    if fields != [] {
      var rest := fields[..|fields| - 1];
      FieldMapMeans(rest, name);
      forall i | 0 <= i < |rest|
        ensures rest[i] == fields[i]
      {
      }
      if Lowered(fields[|fields| - 1].0) == name {
        assert name in FieldMap(fields);
      }
    }
  }

  // ---- Lines ---------------------------------------------------------------------------------------

  predicate LinesOk(lines: seq<string>) {
    lines != [] && forall i | 0 <= i < |lines| :: lines[i] != "" && HasNo(lines[i], '\r')
  }

  lemma HeadLinesOk(h: Head)
    requires HeadOk(h)
    ensures LinesOk(HeadLines(h))
  {
    StatusParts(h);
    var lines := HeadLines(h);
    assert HasNo(lines[0], '\r') by {
      forall i | 0 <= i < |lines[0]|
        ensures lines[0][i] != '\r'
      {
        if 9 <= i < 9 + |h.code| {
          assert lines[0][i] == h.code[i - 9];
        } else if i >= 10 + |h.code| {
          assert lines[0][i] == h.reason[i - 10 - |h.code|];
        }
      }
    }
    forall i | 0 < i < |lines|
      ensures lines[i] != "" && HasNo(lines[i], '\r')
    {
      assert FieldOk(h.fields[i - 1]) && lines[i] == FieldLine(h.fields[i - 1]);
    }
  }

  lemma NoBreakIn(line: string)
    requires HasNo(line, '\r')
    ensures IndexOf(line, CRLF) == None
  {
    forall j: nat
      ensures !OccursAt(line, CRLF, j)
    {
      if j + 2 <= |line| {
        assert line[j..j + 2][0] == line[j];
      }
    }
  }

  lemma FirstBreak(line: string, rest: string)
    requires HasNo(line, '\r')
    ensures IndexOf(line + CRLF + rest, CRLF) == Some(|line|)
  {
    var text := line + CRLF + rest;
    forall j: nat | j < |line|
      ensures !OccursAt(text, CRLF, j)
    {
      if j + 2 <= |text| {
        assert text[j..j + 2][0] == line[j];
      }
    }
    assert text[|line|..|line| + 2] == CRLF;
    FirstIs(text, CRLF, |line|);
  }

  /** Splitting at line breaks undoes joining with them. */
  lemma {:induction false} LinesOfBroken(lines: seq<string>)
    requires LinesOk(lines)
    ensures Lines(Broken(lines)) == lines
  {
    if |lines| == 1 {
      NoBreakIn(lines[0]);
    } else {
      var rest := Broken(lines[1..]);
      var text := lines[0] + CRLF + rest;
      FirstBreak(lines[0], rest);
      LinesOfBroken(lines[1..]);
      assert text[..|lines[0]|] == lines[0] && text[|lines[0]| + 2..] == rest;
    }
  }

  /** After each carriage return comes a line feed and then a line, which is not empty. */
  lemma {:induction false} NoEmptyLine(lines: seq<string>, j: nat)
    requires LinesOk(lines) && j < |Broken(lines)| && Broken(lines)[j] == '\r'
    ensures j + 2 < |Broken(lines)| && Broken(lines)[j + 2] != '\r'
    ensures Broken(lines) != "" && Broken(lines)[0] != '\r'
    decreases |lines|
  {
    if |lines| > 1 {
      var rest := Broken(lines[1..]);
      StartsWithLine(lines[1..]);
      assert Broken(lines) == lines[0] + CRLF + rest;
      if j >= |lines[0]| + 2 {
        NoEmptyLine(lines[1..], j - |lines[0]| - 2);
      }
    }
  }

  lemma StartsWithLine(lines: seq<string>)
    requires LinesOk(lines)
    ensures Broken(lines) != "" && Broken(lines)[0] == lines[0][0] != '\r'
  {
  }

  /** The header ends at the empty line after its last line, and nowhere before. */
  lemma HeaderEnds(lines: seq<string>)
    requires LinesOk(lines)
    ensures IndexOf(Broken(lines) + HEADER_END, HEADER_END) == Some(|Broken(lines)|)
  {
    var header := Broken(lines);
    var text := header + HEADER_END;
    forall j: nat | j < |header|
      ensures !OccursAt(text, HEADER_END, j)
    {
      if OccursAt(text, HEADER_END, j) {
        assert text[j..j + 4][0] == text[j] && text[j..j + 4][2] == text[j + 2];
        NoEmptyLine(lines, j);
      }
    }
    assert text[|header|..|header| + 4] == HEADER_END;
    FirstIs(text, HEADER_END, |header|);
  }

  /** A well-formed response reads back: code, reason, fields and body. */
  lemma ResponseReadsBack(h: Head, body: string, exact: Option<nat>)
    requires HeadOk(h)
    ensures Parsed(Broken(HeadLines(h)) + HEADER_END + body, exact)
         == Ok(HttpResponse(Number(h.code), h.reason, FieldMap(h.fields), Cut(body, exact)))
  {
    var lines := HeadLines(h);
    HeadLinesOk(h);
    HeaderEnds(lines);
    HeaderFound(Broken(lines), body);
    LinesOfBroken(lines);
    StatusReadsBack(h);
    assert lines[1..] == FieldLines(h.fields);
    FieldsReadBack(h.fields);
  }
}
