/** The streaming reader for HTTP responses (section 6.2 of RFC 9112), on ASCII text. */
module HttpReader {
  import opened Wrappers
  import opened AsciiText
  import Search

  const CRLF := "\r\n"
  const HEADER_END := "\r\n\r\n"

  // ---- Patterns ------------------------------------------------------------------------------------

  /** The end of the run of spaces, or of digits, that starts at i. */
  function SpacesEnd(s: string, i: nat): (j: nat)
    requires i <= |s|
    ensures i <= j <= |s|
    decreases |s| - i
  {
    if i < |s| && IsSpace(s[i]) then SpacesEnd(s, i + 1) else i
  }

  function DigitsEnd(s: string, i: nat): (j: nat)
    requires i <= |s|
    ensures i <= j <= |s|
    ensures forall k | i <= k < j :: IsDigit(s[k])
    decreases |s| - i
  {
    if i < |s| && IsDigit(s[i]) then DigitsEnd(s, i + 1) else i
  }

  function DigitValue(c: char): nat
    requires IsDigit(c)
  {
    c as int - '0' as int
  }

  function Number(digits: string): nat
    requires forall k | 0 <= k < |digits| :: IsDigit(digits[k])
  {
    if digits == [] then 0 else Number(digits[..|digits| - 1]) * 10 + DigitValue(digits[|digits| - 1])
  }

  /** content-length:\s*(\d+), in any case, at position i. */
  function LengthAt(header: string, i: nat): Option<nat> {
    var name := "content-length:";
    if i + |name| > |header| || Lowered(header[i..i + |name|]) != name then None
    else
      var start := SpacesEnd(header, i + |name|);
      var end := DigitsEnd(header, start);
      if start == end then None else Some(Number(header[start..end]))
  }

  /** The leftmost match from position i on. The pattern is not tied to the start of a line. */
  function LengthFrom(header: string, i: nat): Option<nat>
    decreases |header| - i
  {
    if i >= |header| then None
    else if LengthAt(header, i).Some? then LengthAt(header, i)
    else LengthFrom(header, i + 1)
  }

  function ContentLength(header: string): Option<nat> {
    LengthFrom(header, 0)
  }

  /** Up to the first line terminator. */
  function Dotted(s: string): string {
    if s == [] || s[0] == '\r' || s[0] == '\n' then [] else [s[0]] + Dotted(s[1..])
  }

  /** HTTP/\d\.\d\s+(\d+)\s*(.*) at position i. */
  function StatusAt(line: string, i: nat): Option<(nat, string)> {
    if i + 8 > |line| || line[i..i + 5] != "HTTP/" || !IsDigit(line[i + 5]) || line[i + 6] != '.'
      || !IsDigit(line[i + 7]) then None
    else
      var start := SpacesEnd(line, i + 8);
      var end := DigitsEnd(line, start);
      if start == i + 8 || start == end then None
      else Some((Number(line[start..end]), Dotted(line[SpacesEnd(line, end)..])))
  }

  function StatusFrom(line: string, i: nat): Option<(nat, string)>
    decreases |line| - i
  {
    if i >= |line| then None
    else if StatusAt(line, i).Some? then StatusAt(line, i)
    else StatusFrom(line, i + 1)
  }

  // ---- Parsing -------------------------------------------------------------------------------------

  datatype HttpResponse = HttpResponse(status: nat, statusText: string, headers: map<string, string>, body: string)

  datatype HttpError = MalformedResponse | InvalidStatusLine

  function Lines(text: string): (lines: seq<string>)
    ensures lines != []
    decreases |text|
  {
    match Search.IndexOf(text, CRLF)
    case None => [text]
    case Some(i) => [text[..i]] + Lines(text[i + 2..])
  }

  function WithHeader(headers: map<string, string>, line: string): map<string, string> {
    match Search.IndexOf(line, ":")
    case None => headers
    case Some(colon) => headers[Lowered(Trim(line[..colon])) := Trim(line[colon + 1..])]
  }

  /** A later line of the same name wins. */
  function Headers(lines: seq<string>): map<string, string> {
    if lines == [] then map[] else WithHeader(Headers(lines[..|lines| - 1]), lines[|lines| - 1])
  }

  function ParsedHeader(header: string, body: string): Result<HttpResponse, HttpError> {
    var lines := Lines(header);
    match StatusFrom(lines[0], 0)
    case None => Err(InvalidStatusLine)
    case Some(status) => Ok(HttpResponse(status.0, status.1, Headers(lines[1..]), body))
  }

  function Cut(body: string, exact: Option<nat>): string {
    if exact.Some? && exact.value <= |body| then body[..exact.value] else body
  }

  function Parsed(raw: string, exact: Option<nat>): Result<HttpResponse, HttpError> {
    match Search.IndexOf(raw, HEADER_END)
    case None => Err(MalformedResponse)
    case Some(end) => ParsedHeader(raw[..end], Cut(raw[end + 4..], exact))
  }

  // ---- Reading -------------------------------------------------------------------------------------

  /** The number of body bytes announced, once the header is complete and all of them are there. */
  function Complete(raw: string): Option<nat> {
    match Search.IndexOf(raw, HEADER_END)
    case None => None
    case Some(end) =>
      match ContentLength(raw[..end])
      case None => None
      case Some(length) => if |raw| - (end + 4) >= length then Some(length) else None
  }

  /**
    A request and its listeners. The promise is resolved or rejected; or an error was thrown inside the
    data listener, after the timer was cleared and the socket destroyed, so that it never settles; or
    the stream ended with nothing read and the timer cleared, so that it never settles either.
   */
  datatype Reader =
    | Waiting(raw: string)
    | Resolved(response: HttpResponse)
    | Rejected(error: HttpError)
    | Thrown(error: HttpError)
    | Silent

  function Check(raw: string): Reader {
    match Complete(raw)
    case None => Waiting(raw)
    case Some(length) =>
      match Parsed(raw, Some(length))
      case Ok(response) => Resolved(response)
      case Err(error) => Thrown(error)
  }

  function Feed(r: Reader, chunk: string): Reader {
    if r.Waiting? then Check(r.raw + chunk) else r
  }

  /** At the end of the stream whatever is there is parsed, and a parse error rejects. */
  function End(r: Reader): Reader {
    if !r.Waiting? then r
    else if r.raw == "" then Silent
    else
      match Parsed(r.raw, None)
      case Ok(response) => Resolved(response)
      case Err(error) => Rejected(error)
  }

  function FeedAll(r: Reader, chunks: seq<string>): Reader
    decreases |chunks|
  {
    if chunks == [] then r else FeedAll(Feed(r, chunks[0]), chunks[1..])
  }

  function Joined(chunks: seq<string>): string {
    if chunks == [] then "" else chunks[0] + Joined(chunks[1..])
  }

  lemma CompleteStays(raw: string, more: string)
    requires Complete(raw).Some?
    ensures Complete(raw + more) == Complete(raw)
    ensures Parsed(raw + more, Complete(raw)) == Parsed(raw, Complete(raw))
  {
    Search.IndexOfStable(raw, HEADER_END, more);
    var end := Search.IndexOf(raw, HEADER_END).value;
    assert (raw + more)[..end] == raw[..end];
    assert (raw + more)[end + 4..] == raw[end + 4..] + more;
    var length := Complete(raw).value;
    assert (raw[end + 4..] + more)[..length] == raw[end + 4..][..length];
  }

  lemma FeedSplit(r: Reader, chunk: string, more: string)
    ensures Feed(Feed(r, chunk), more) == Feed(r, chunk + more)
  {
    if r.Waiting? {
      assert (r.raw + chunk) + more == r.raw + (chunk + more);
      if Complete(r.raw + chunk).Some? {
        CompleteStays(r.raw + chunk, more);
      }
    }
  }

  /** However the stream is cut, the request comes to the same end or goes on waiting with the same text. */
  lemma {:induction false} ChunkIndependence(r: Reader, chunks: seq<string>)
    requires r.Waiting? ==> Complete(r.raw).None?
    ensures FeedAll(r, chunks) == Feed(r, Joined(chunks))
    decreases |chunks|
  {
    if chunks == [] {
      if r.Waiting? {
        assert r.raw + "" == r.raw;
      }
    } else {
      ChunkIndependence(Feed(r, chunks[0]), chunks[1..]);
      FeedSplit(r, chunks[0], Joined(chunks[1..]));
    }
  }

  lemma FromTheStart(chunks: seq<string>)
    ensures FeedAll(Waiting(""), chunks) == Check(Joined(chunks))
  {
    assert Search.IndexOf("", HEADER_END).None?;
    ChunkIndependence(Waiting(""), chunks);
    assert "" + Joined(chunks) == Joined(chunks);
  }

  lemma HeaderFound(header: string, rest: string)
    requires Search.IndexOf(header + HEADER_END, HEADER_END) == Some(|header|)
    ensures var raw := header + HEADER_END + rest;
            Search.IndexOf(raw, HEADER_END) == Some(|header|) && raw[..|header|] == header
              && raw[|header| + 4..] == rest
  {
    Search.IndexOfStable(header + HEADER_END, HEADER_END, rest);
  }

  /**
    Under every chunking, a response whose header announces a length is waited for until that much of
    its body is there. Then it resolves, with exactly the announced part of the body, if the first line
    is a status line; and if it is not, the error is thrown and the request never settles.
   */
  lemma EndsWhenComplete(header: string, length: nat, rest: string, chunks: seq<string>)
    requires Search.IndexOf(header + HEADER_END, HEADER_END) == Some(|header|)
    requires ContentLength(header) == Some(length)
    requires Joined(chunks) == header + HEADER_END + rest
    ensures var r, status := FeedAll(Waiting(""), chunks), StatusFrom(Lines(header)[0], 0);
            && (r.Waiting? <==> |rest| < length)
            && (r.Resolved? <==> |rest| >= length && status.Some?)
            && (r.Thrown? <==> |rest| >= length && status.None?)
            && (r.Resolved? ==>
                  r.response == HttpResponse(status.value.0, status.value.1, Headers(Lines(header)[1..]),
                                             rest[..length]))
  {
    FromTheStart(chunks);
    HeaderFound(header, rest);
  }

  /** A stream that ends before that: nothing read leaves the request silent for ever, and anything read settles it. */
  lemma EndOfStream(chunks: seq<string>)
    ensures var r := FeedAll(Waiting(""), chunks);
            && (r.Waiting? ==> (End(r).Silent? <==> Joined(chunks) == ""))
            && (r.Waiting? && Joined(chunks) != "" ==>
                  if Parsed(Joined(chunks), None).Ok? then End(r) == Resolved(Parsed(Joined(chunks), None).value)
                  else End(r) == Rejected(Parsed(Joined(chunks), None).error))
            && (!r.Waiting? ==> End(r) == r)
  {
    FromTheStart(chunks);
  }

  /** A stream without an empty line is waited for to its end, and then rejected as malformed unless nothing came. */
  lemma WithoutEmptyLine(chunks: seq<string>)
    requires Search.IndexOf(Joined(chunks), HEADER_END).None?
    ensures FeedAll(Waiting(""), chunks) == Waiting(Joined(chunks))
    ensures End(FeedAll(Waiting(""), chunks)) == if Joined(chunks) == "" then Silent else Rejected(MalformedResponse)
  {
    FromTheStart(chunks);
  }

  /** One that is waited for to its end, and whose first line is no status line, is rejected for that. */
  lemma BadFirstLine(header: string, rest: string, chunks: seq<string>)
    requires Search.IndexOf(header + HEADER_END, HEADER_END) == Some(|header|)
    requires Joined(chunks) == header + HEADER_END + rest
    requires FeedAll(Waiting(""), chunks).Waiting?
    ensures End(FeedAll(Waiting(""), chunks)) == Rejected(InvalidStatusLine) <==> StatusFrom(Lines(header)[0], 0).None?
  {
    FromTheStart(chunks);
    HeaderFound(header, rest);
  }

  /** One request, as the listeners' own variables; outcome is Waiting until something happens. */
  class HttpRequest {
    var rawData: string
    var outcome: Reader

    function View(): Reader
      reads this
    {
      if outcome.Waiting? then Waiting(rawData) else outcome
    }

    constructor ()
      ensures View() == Waiting("")
    {
      rawData, outcome := "", Waiting("");
    }

    method OnData(chunk: string)
      modifies this
      ensures View() == Feed(old(View()), chunk)
    {
      if !outcome.Waiting? {
        return;
      }
      rawData := rawData + chunk;
      var headerEnd := Search.IndexOf(rawData, HEADER_END);
      if headerEnd.Some? {
        var headerPart, bodyPart := rawData[..headerEnd.value], rawData[headerEnd.value + 4..];
        var expected := ContentLength(headerPart);
        if expected.Some? && |bodyPart| >= expected.value {
          var response := ParseHttpResponse(rawData, expected);
          outcome := if response.Ok? then Resolved(response.value) else Thrown(response.error);
        }
      }
    }

    method OnEnd()
      modifies this`outcome
      ensures View() == End(old(View()))
    {
      if !outcome.Waiting? {
        return;
      }
      if |rawData| > 0 {
        var response := ParseHttpResponse(rawData, None);
        outcome := if response.Ok? then Resolved(response.value) else Rejected(response.error);
      } else {
        outcome := Silent;
      }
    }

    static method ParseHttpResponse(raw: string, exact: Option<nat>) returns (r: Result<HttpResponse, HttpError>)
      ensures r == Parsed(raw, exact)
    {
      var splitIndex := Search.IndexOf(raw, HEADER_END);
      if splitIndex.None? {
        return Err(MalformedResponse);
      }
      var body := raw[splitIndex.value + 4..];
      if exact.Some? && exact.value <= |body| {
        body := body[..exact.value];
      }
      var lines := Lines(raw[..splitIndex.value]);
      var status := StatusFrom(lines[0], 0);
      if status.None? {
        return Err(InvalidStatusLine);
      }
      var headers := HeaderMap(lines);
      return Ok(HttpResponse(status.value.0, status.value.1, headers, body));
    }

    /** Every line after the first that has a colon. */
    static method HeaderMap(lines: seq<string>) returns (headers: map<string, string>)
      requires lines != []
      ensures headers == Headers(lines[1..])
    {
      headers := map[];
      for i := 1 to |lines|
        invariant headers == Headers(lines[1..i])
      {
        var colon := Search.IndexOf(lines[i], ":");
        ghost var done := lines[1..i + 1];
        assert done[..|done| - 1] == lines[1..i] && done[|done| - 1] == lines[i];
        if colon.Some? {
          var key, value := Lowered(Trim(lines[i][..colon.value])), Trim(lines[i][colon.value + 1..]);
          headers := headers[key := value];
        }
      }
      assert lines[1..|lines|] == lines[1..];
    }
  }
}
