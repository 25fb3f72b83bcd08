/**
  Which length a response announces: what the status line and the fields carry, in their order. It is the
  value of the Content-Length field exactly when nothing before that field carries another number.
 */
module ContentLengthHeader {
  import opened Wrappers
  import opened AsciiText
  import opened HttpReader
  import opened HttpRoundTrip
  import opened LengthPattern

  // ---- What a line of a header carries ---------------------------------------------------------------

  /** The field's name ends like Content-Length, in any case. */
  predicate NamesLength(name: string) {
    |name| >= 14 && Lowered(name[|name| - 14..]) == "content-length"
  }

  /** A field carries the number of its value if its name ends that way, and else whatever its value mentions. */
  function FieldValue(field: (string, string), more: seq<string>): Option<nat> {
    if NamesLength(field.0) && ValueAfter(field.1, more).Some? then ValueAfter(field.1, more)
    else LineValue(field.1, 0, more)
  }

  lemma {:induction false} SkipNameless(line: string, q: nat, r: nat, more: seq<string>)
    requires q <= r <= |line| && forall j: nat | q <= j < r :: !NameAt(line, j)
    ensures LineValue(line, q, more) == LineValue(line, r, more)
    decreases r - q
  {
    if q < r {
      SkipNameless(line, q + 1, r, more);
    }
  }

  lemma {:induction false} LineValueShift(line: string, p: nat, q: nat, more: seq<string>)
    requires p + q <= |line|
    ensures LineValue(line[p..], q, more) == LineValue(line, p + q, more)
    decreases |line| - q
  {
    if p + q < |line| {
      if p + q + |NAME| <= |line| {
        assert line[p..][q..q + |NAME|] == line[p + q..p + q + |NAME|];
        assert line[p..][q + |NAME|..] == line[p + q + |NAME|..];
      }
      LineValueShift(line, p, q + 1, more);
    }
  }

  /** The name has its only colon at the end, and begins with a c. */
  lemma NameLetters(s: string, q: nat, i: nat)
    requires NameAt(s, q) && q <= i < q + |NAME|
    ensures s[i] == ':' <==> i == q + 14
    ensures i == q ==> Lower(s[i]) == 'c'
  {
    assert Lowered(s[q..q + |NAME|])[i - q] == Lower(s[i]) == NAME[i - q];
  }

  /** In a field's line, the name can only stand at the end of the field's own name or within its value. */
  lemma NamePlaces(field: (string, string), q: nat)
    requires FieldOk(field) && NameAt(FieldLine(field), q)
    ensures q + 14 == |field.0| || q >= |field.0| + 2
  {
    var line, n := FieldLine(field), |field.0|;
    assert line[n] == ':' && line[n + 1] == ' ';
    if q + 14 < n {
      assert line[q + 14] == field.0[q + 14] != ':';
      NameLetters(line, q, q + 14);
    } else if q <= n && q + 14 != n {
      NameLetters(line, q, n);
    } else if q == n + 1 {
      NameLetters(line, q, q);
    }
  }

  lemma NameAtEnd(field: (string, string))
    requires |field.0| >= 14
    ensures NameAt(FieldLine(field), |field.0| - 14) <==> NamesLength(field.0)
  {
    var line, n := FieldLine(field), |field.0|;
    assert line[n - 14..n + 1] == field.0[n - 14..] + ":";
    assert Lowered(field.0[n - 14..] + ":") == Lowered(field.0[n - 14..]) + ":";
    assert NAME == "content-length" + ":";
    assert NAME[..14] == "content-length";
    if Lowered(line[n - 14..n + 1]) == NAME {
      assert Lowered(field.0[n - 14..]) == NAME[..14];
    }
  }

  /** A field's line carries what the field carries. */
  lemma FieldLineValue(field: (string, string), more: seq<string>)
    requires FieldOk(field)
    ensures LineValue(FieldLine(field), 0, more) == FieldValue(field, more)
  {
    var line, n := FieldLine(field), |field.0|;
    forall q: nat | q < n + 2 && q + 14 != n
      ensures !NameAt(line, q)
    {
      if NameAt(line, q) {
        NamePlaces(field, q);
      }
    }
    assert line[n + 2..] == field.1;
    LineValueShift(line, n + 2, 0, more);
    if n < 14 {
      SkipNameless(line, 0, n + 2, more);
    } else {
      SkipNameless(line, 0, n - 14, more);
      SkipNameless(line, n - 13, n + 2, more);
      NameAtEnd(field);
      assert line[n + 1..][1..] == field.1;
    }
  }

  /** A status line carries what its reason mentions. */
  lemma StatusLineValue(h: Head, more: seq<string>)
    requires HeadOk(h)
    ensures LineValue(StatusLine(h), 0, more) == LineValue(h.reason, 0, more)
  {
    var line, n := StatusLine(h), 10 + |h.code|;
    StatusParts(h);
    forall q: nat | q < n
      ensures !NameAt(line, q)
    {
      if NameAt(line, q) {
        NameLetters(line, q, q);
        NoCBeforeReason(h, q);
      }
    }
    SkipNameless(line, 0, n, more);
    LineValueShift(line, n, 0, more);
  }

  lemma NoCBeforeReason(h: Head, q: nat)
    requires HeadOk(h) && q < 10 + |h.code|
    ensures q < |StatusLine(h)| && Lower(StatusLine(h)[q]) != 'c'
  {
    StatusParts(h);
    var line := StatusLine(h);
    if q < 5 {
      assert line[..5][q] == line[q];
    } else if 9 <= q < 9 + |h.code| {
      assert line[9..9 + |h.code|][q - 9] == line[q] && IsDigit(h.code[q - 9]);
    }
  }

  // ---- Whole headers ---------------------------------------------------------------------------------

  /** What line i of the header carries: 0 is the status line, i the i-th field. */
  function Carried(h: Head, i: nat): Option<nat>
    requires i <= |h.fields|
  {
    var more := HeadLines(h)[i + 1..];
    if i == 0 then LineValue(h.reason, 0, more) else FieldValue(h.fields[i - 1], more)
  }

  lemma CarriedByLine(h: Head, i: nat)
    requires HeadOk(h) && i <= |h.fields|
    ensures Carries(HeadLines(h), i) == Carried(h, i)
  {
    if i == 0 {
      StatusLineValue(h, HeadLines(h)[1..]);
    } else {
      FieldLineValue(h.fields[i - 1], HeadLines(h)[i + 1..]);
    }
  }

  /** Line i of the header carries n, and no line before it carries anything. */
  predicate HeadCarries(h: Head, i: nat, n: nat) {
    i <= |h.fields| && Carried(h, i) == Some(n) && forall j | 0 <= j < i :: Carried(h, j).None?
  }

  lemma HeadCarriesIff(h: Head, i: nat, n: nat)
    requires HeadOk(h)
    ensures HeadCarries(h, i, n) <==> FirstCarries(HeadLines(h), i, n)
  {
    forall j | 0 <= j <= |h.fields|
      ensures Carries(HeadLines(h), j) == Carried(h, j)
    {
      CarriedByLine(h, j);
    }
  }

  /** A response announces n if and only if the first line of its header that carries anything carries n. */
  lemma HeadAnnouncesIff(h: Head, n: nat)
    requires HeadOk(h)
    ensures ContentLength(Broken(HeadLines(h))) == Some(n) <==> exists i: nat :: HeadCarries(h, i, n)
    ensures ContentLength(Broken(HeadLines(h))).None? <==> forall i | 0 <= i <= |h.fields| :: Carried(h, i).None?
  {
    var lines := HeadLines(h);
    HeadLinesOk(h);
    AnnouncesIff(lines, n);
    forall i | 0 <= i < |lines|
      ensures Carries(lines, i) == Carried(h, i)
    {
      CarriedByLine(h, i);
    }
    if i: nat :| FirstCarries(lines, i, n) {
      HeadCarriesIff(h, i, n);
    }
    if i: nat :| HeadCarries(h, i, n) {
      HeadCarriesIff(h, i, n);
    }
  }

  /** A Content-Length field with its value: a number, and no other character. */
  predicate IsLengthField(field: (string, string)) {
    Lowered(field.0) == "content-length" && field.1 != "" && AllDigits(field.1)
  }

  lemma LengthFieldCarries(field: (string, string), more: seq<string>)
    requires NamesLength(field.0) && field.1 != "" && AllDigits(field.1)
    ensures FieldValue(field, more) == Some(Number(field.1))
  {
    DigitsRun(field.1, 0, |field.1|);
    assert field.1[..|field.1|] == field.1 && IsDigit(field.1[0]);
  }

  lemma LengthFieldNames(field: (string, string))
    requires IsLengthField(field)
    ensures |field.0| == 14 && NamesLength(field.0)
  {
    assert |field.0| == |Lowered(field.0)| == 14;
    assert field.0[0..] == field.0;
  }

  lemma ValueAfterSpace(digits: string, more: seq<string>)
    requires digits != "" && AllDigits(digits)
    ensures ValueAfter(" " + digits, more) == Some(Number(digits))
  {
    DigitsRun(digits, 0, |digits|);
    assert digits[..|digits|] == digits && IsDigit(digits[0]);
    assert (" " + digits)[1..] == digits;
  }

  lemma LengthLineParts(field: (string, string))
    requires IsLengthField(field)
    ensures NameAt(FieldLine(field), 0) && FieldLine(field)[|NAME|..] == " " + field.1
  {
    LengthFieldNames(field);
    NameAtEnd(field);
    AfterColon(field);
  }

  lemma AfterColon(field: (string, string))
    ensures FieldLine(field)[|field.0| + 1..] == " " + field.1
  {
    assert FieldLine(field)[|field.0|..] == ": " + field.1;
  }

  lemma LengthLineCarries(field: (string, string), more: seq<string>)
    requires IsLengthField(field)
    ensures LineValue(FieldLine(field), 0, more) == Some(Number(field.1))
  {
    LengthLineParts(field);
    ValueAfterSpace(field.1, more);
  }

  /**
    With a Content-Length line of value n, header lines announce n if and only if the first line, up to
    that one, that carries anything carries n.
   */
  lemma AnnouncedIff(lines: seq<string>, k: nat, field: (string, string))
    requires LinesOk(lines) && k < |lines| && IsLengthField(field) && lines[k] == FieldLine(field)
    ensures ContentLength(Broken(lines)) == Some(Number(field.1))
            <==> exists i: nat :: i <= k && FirstCarries(lines, i, Number(field.1))
  {
    var n := Number(field.1);
    LengthLineCarries(field, lines[k + 1..]);
    assert Carries(lines, k) == Some(n);
    AnnouncesIff(lines, n);
    if i: nat :| FirstCarries(lines, i, n) {
      assert i <= k;
    }
  }

  /** The same by the fields: reason and fields up to that one. */
  lemma HeadAnnouncedIff(h: Head, k: nat)
    requires HeadOk(h) && k < |h.fields| && IsLengthField(h.fields[k])
    ensures ContentLength(Broken(HeadLines(h))) == Some(Number(h.fields[k].1))
            <==> exists i: nat :: i <= k + 1 && HeadCarries(h, i, Number(h.fields[k].1))
  {
    var lines, n := HeadLines(h), Number(h.fields[k].1);
    HeadLinesOk(h);
    AnnouncedIff(lines, k + 1, h.fields[k]);
    if i: nat :| i <= k + 1 && FirstCarries(lines, i, n) {
      HeadCarriesIff(h, i, n);
    }
    if i: nat :| i <= k + 1 && HeadCarries(h, i, n) {
      HeadCarriesIff(h, i, n);
    }
  }

  lemma MentionsNothing(line: string, more: seq<string>)
    requires !Mentions(line)
    ensures LineValue(line, 0, more).None?
  {
    SkipNameless(line, 0, |line|, more);
  }

  /** In particular when no earlier line has the name in it: a response with one Content-Length announces it. */
  lemma OneContentLength(lines: seq<string>, k: nat, field: (string, string))
    requires LinesOk(lines) && k < |lines| && IsLengthField(field) && lines[k] == FieldLine(field)
    requires forall i | 0 <= i < k :: !Mentions(lines[i])
    ensures FirstCarries(lines, k, Number(field.1))
    ensures ContentLength(Broken(lines)) == Some(Number(field.1))
  {
    forall i | 0 <= i < k
      ensures Carries(lines, i).None?
    {
      MentionsNothing(lines[i], lines[i + 1..]);
    }
    LengthLineCarries(field, lines[k + 1..]);
    assert FirstCarries(lines, k, Number(field.1));
    AnnouncesIff(lines, Number(field.1));
  }

  lemma NoContentLength(lines: seq<string>)
    requires LinesOk(lines) && forall i | 0 <= i < |lines| :: !Mentions(lines[i])
    ensures ContentLength(Broken(lines)) == None
  {
    forall i | 0 <= i < |lines|
      ensures Carries(lines, i).None?
    {
      MentionsNothing(lines[i], lines[i + 1..]);
    }
    AnnouncesIff(lines, 0);
  }

  // ---- Whole responses -----------------------------------------------------------------------------

  /**
    A well-formed response whose first carrying line carries n, over any chunking: the request waits until
    n body bytes are there, and then resolves with code, reason, fields and exactly that body.
   */
  lemma ResponseArrives(h: Head, i: nat, n: nat, rest: string, chunks: seq<string>)
    requires HeadOk(h) && HeadCarries(h, i, n)
    requires Joined(chunks) == Broken(HeadLines(h)) + HEADER_END + rest
    ensures FeedAll(Waiting(""), chunks)
            == if |rest| < n then Waiting(Joined(chunks))
               else Resolved(HttpResponse(Number(h.code), h.reason, FieldMap(h.fields), rest[..n]))
  {
    HeadAnnouncesIff(h, n);
    Announced(h, n, rest, chunks);
  }

  /** When no line carries anything it waits for the end of the stream, and resolves with the whole body. */
  lemma ResponseCloses(h: Head, rest: string, chunks: seq<string>)
    requires HeadOk(h) && forall i | 0 <= i <= |h.fields| :: Carried(h, i).None?
    requires Joined(chunks) == Broken(HeadLines(h)) + HEADER_END + rest
    ensures End(FeedAll(Waiting(""), chunks))
            == Resolved(HttpResponse(Number(h.code), h.reason, FieldMap(h.fields), rest))
  {
    HeadLinesOk(h);
    HeaderEnds(HeadLines(h));
    HeadAnnouncesIff(h, 0);
    FromTheStart(chunks);
    HeaderFound(Broken(HeadLines(h)), rest);
    ResponseReadsBack(h, rest, None);
  }

  /** What follows from the announced length alone. */
  lemma Announced(h: Head, n: nat, rest: string, chunks: seq<string>)
    requires HeadOk(h) && ContentLength(Broken(HeadLines(h))) == Some(n)
    requires Joined(chunks) == Broken(HeadLines(h)) + HEADER_END + rest
    ensures FeedAll(Waiting(""), chunks)
            == if |rest| < n then Waiting(Joined(chunks))
               else Resolved(HttpResponse(Number(h.code), h.reason, FieldMap(h.fields), rest[..n]))
  {
    HeadLinesOk(h);
    HeaderEnds(HeadLines(h));
    FromTheStart(chunks);
    HeaderFound(Broken(HeadLines(h)), rest);
    ResponseReadsBack(h, rest, Some(n));
  }

  /** A Content-Length field with the length in decimal. */
  predicate AnnouncesDecimal(field: (string, string), n: nat) {
    Lowered(field.0) == "content-length" && field.1 == Decimal(n)
  }

  /**
    A response as a server writes it, its status and the length of its body in decimal: the request resolves
    with that status and exactly that body, whatever follows and however it is cut.
   */
  lemma WrittenResponse(h: Head, status: nat, k: nat, body: string, more: string, chunks: seq<string>)
    requires HeadOk(h) && h.code == Decimal(status)
    requires k < |h.fields| && AnnouncesDecimal(h.fields[k], |body|)
    requires forall i | 0 <= i <= k :: !Mentions(HeadLines(h)[i])
    requires Joined(chunks) == Broken(HeadLines(h)) + HEADER_END + (body + more)
    ensures FeedAll(Waiting(""), chunks) == Resolved(HttpResponse(status, h.reason, FieldMap(h.fields), body))
  {
    DecimalReadsBack(status);
    DecimalReadsBack(|body|);
    HeadLinesOk(h);
    OneContentLength(HeadLines(h), k + 1, h.fields[k]);
    Announced(h, |body|, body + more, chunks);
    assert (body + more)[..|body|] == body;
  }

  /** The stream that ends before the body is there resolves with what has come; one without an empty line rejects. */
  lemma EarlyEnd(h: Head, rest: string, chunks: seq<string>)
    requires HeadOk(h) && Joined(chunks) == Broken(HeadLines(h)) + HEADER_END + rest
    requires FeedAll(Waiting(""), chunks).Waiting?
    ensures End(FeedAll(Waiting(""), chunks))
            == Resolved(HttpResponse(Number(h.code), h.reason, FieldMap(h.fields), rest))
  {
    HeadLinesOk(h);
    HeaderEnds(HeadLines(h));
    FromTheStart(chunks);
    HeaderFound(Broken(HeadLines(h)), rest);
    ResponseReadsBack(h, rest, None);
  }

  // ---- Wrong lengths -------------------------------------------------------------------------------

  /** A first field whose name only ends like Content-Length sets the length, whatever comes later. */
  lemma PrefixedLength(h: Head)
    requires HeadOk(h) && h.fields != [] && Carried(h, 0).None?
    requires NamesLength(h.fields[0].0) && h.fields[0].1 != "" && AllDigits(h.fields[0].1)
    ensures HeadCarries(h, 1, Number(h.fields[0].1))
    ensures ContentLength(Broken(HeadLines(h))) == Some(Number(h.fields[0].1))
  {
    LengthFieldCarries(h.fields[0], HeadLines(h)[2..]);
    assert HeadCarries(h, 1, Number(h.fields[0].1));
    HeadAnnouncesIff(h, Number(h.fields[0].1));
  }

  /** A field so named with no value carries the number the next field's name begins with. */
  lemma NextLineLength(field: (string, string), next: (string, string), more: seq<string>)
    requires NamesLength(field.0) && field.1 == "" && FieldOk(next)
    ensures FieldValue(field, [FieldLine(next)] + more) == Leading(next.0)
  {
    var lines := [FieldLine(next)] + more;
    assert lines[0] == FieldLine(next) && lines[1..] == more;
    assert FieldLine(next) == next.0 + (": " + next.1);
    assert FieldLine(next)[0] == next.0[0] && !IsSpace(next.0[0]);
    assert ValueAfter("", lines) == ValueAfter(FieldLine(next), more) == Leading(FieldLine(next));
    DigitsStop(next.0, ": " + next.1, 0);
    var end := DigitsEnd(next.0, 0);
    assert FieldLine(next)[..end] == next.0[..end];
  }

  const MISLEADING := Head('1', '1', "200", "OK", [("X-Content-Length", "1"), ("Content-Length", "5")])

  const EMPTY_VALUE := Head('1', '1', "200", "OK", [("Content-Length", ""), ("7", "x"), ("Content-Length", "5")])

  lemma ShortReason(h: Head)
    requires |h.reason| < |NAME|
    ensures Carried(h, 0).None?
  {
    MentionsNothing(h.reason, HeadLines(h)[1..]);
  }

  lemma MisleadingOk()
    ensures HeadOk(MISLEADING)
  {
  }

  lemma MisleadingName()
    ensures NamesLength("X-Content-Length")
  {
    assert "X-Content-Length"[2..] == "Content-Length";
  }

  lemma MisleadingLength()
    ensures HeadOk(MISLEADING) && HeadCarries(MISLEADING, 1, 1)
  {
    ShortReason(MISLEADING);
    MisleadingOk();
    MisleadingName();
    assert Number("1") == 1;
    PrefixedLength(MISLEADING);
  }

  lemma TwoHundred()
    ensures Number("200") == 200
  {
    assert "200"[..2] == "20" && "20"[..1] == "2";
  }

  /** Another header whose name ends the same way is taken for it: four of the five bytes are cut off. */
  lemma WrongLength(chunks: seq<string>)
    requires Joined(chunks) == Broken(HeadLines(MISLEADING)) + HEADER_END + "abcde"
    ensures FeedAll(Waiting(""), chunks) == Resolved(HttpResponse(200, "OK", FieldMap(MISLEADING.fields), "a"))
  {
    MisleadingLength();
    TwoHundred();
    ResponseArrives(MISLEADING, 1, 1, "abcde", chunks);
  }

  /** An empty value in the first field. */
  lemma EmptyLength(h: Head)
    requires HeadOk(h) && |h.fields| >= 2 && Carried(h, 0).None?
    requires NamesLength(h.fields[0].0) && h.fields[0].1 == "" && Leading(h.fields[1].0).Some?
    ensures HeadCarries(h, 1, Leading(h.fields[1].0).value)
    ensures ContentLength(Broken(HeadLines(h))) == Leading(h.fields[1].0)
  {
    var lines := HeadLines(h);
    assert lines[2..] == [FieldLine(h.fields[1])] + lines[3..];
    NextLineLength(h.fields[0], h.fields[1], lines[3..]);
    assert HeadCarries(h, 1, Leading(h.fields[1].0).value);
    HeadAnnouncesIff(h, Leading(h.fields[1].0).value);
  }

  lemma EmptyValueOk()
    ensures HeadOk(EMPTY_VALUE)
  {
  }

  lemma SevenLeads()
    ensures Leading("7") == Some(7)
  {
    DigitsRun("7", 0, 1);
    assert "7"[..1] == "7" && Number("7") == 7;
  }

  /** So the announced length may be a number that stands in the next field's name. */
  lemma LengthOverTheBreak()
    ensures HeadOk(EMPTY_VALUE) && ContentLength(Broken(HeadLines(EMPTY_VALUE))) == Some(7)
  {
    EmptyValueOk();
    SevenLeads();
    ShortReason(EMPTY_VALUE);
    LengthFieldNames(("Content-Length", "5"));
    EmptyLength(EMPTY_VALUE);
  }

  // ---- No status line --------------------------------------------------------------------------------

  /** Header lines that announce a length under a first line that is no status line: with the body, it throws. */
  lemma BadStatusThrows(lines: seq<string>, i: nat, n: nat, rest: string, chunks: seq<string>)
    requires LinesOk(lines) && FirstCarries(lines, i, n) && StatusFrom(lines[0], 0).None? && |rest| >= n
    requires Joined(chunks) == Broken(lines) + HEADER_END + rest
    ensures FeedAll(Waiting(""), chunks) == Thrown(InvalidStatusLine)
  {
    AnnouncesIff(lines, n);
    HeaderEnds(lines);
    LinesOfBroken(lines);
    EndsWhenComplete(Broken(lines), n, rest, chunks);
    FromTheStart(chunks);
    HeaderFound(Broken(lines), rest);
  }

  lemma {:induction false} NoStatusIn(line: string, i: nat)
    requires forall j: nat | i <= j && j + 5 <= |line| :: line[j] != 'H'
    ensures StatusFrom(line, i).None?
    decreases |line| - i
  {
    if i < |line| {
      assert i + 5 <= |line| ==> line[i..i + 5][0] == line[i];
      NoStatusIn(line, i + 1);
    }
  }

  const ZERO := ("Content-Length", "0")

  const GARBAGE := ["garbage", FieldLine(ZERO)]

  lemma GarbageText()
    ensures LinesOk(GARBAGE) && Broken(GARBAGE) == "garbage\r\nContent-Length: 0"
  {
    assert Broken(GARBAGE[1..]) == FieldLine(ZERO);
    assert Broken(GARBAGE) == "garbage" + CRLF + FieldLine(ZERO);
  }

  lemma ZeroLength()
    ensures IsLengthField(ZERO) && Number(ZERO.1) == 0
  {
  }

  lemma GarbageMentionsNothing()
    ensures !Mentions("garbage")
  {
  }

  lemma GarbageIsNoStatus()
    ensures StatusFrom("garbage", 0).None?
  {
    NoStatusIn("garbage", 0);
  }

  /** For one, however it is cut. */
  lemma GarbageThrows(chunks: seq<string>)
    requires Joined(chunks) == "garbage\r\nContent-Length: 0\r\n\r\n"
    ensures FeedAll(Waiting(""), chunks) == Thrown(InvalidStatusLine)
  {
    GarbageText();
    ZeroLength();
    GarbageMentionsNothing();
    GarbageIsNoStatus();
    OneContentLength(GARBAGE, 1, ZERO);
    BadStatusThrows(GARBAGE, 1, 0, "", chunks);
  }
}
