/** The contact and device-link URIs: export, parsing, and what a parsed contact is checked for. */
module ContactUri {
  import opened Wrappers
  import opened Base64
  import opened AsciiText
  import Search

  const CONTACT_URI_SCHEME := "tore2ee://contact"
  const DEVICE_LINK_URI_SCHEME := "tore2ee://link"

  // ---- Reading a query -----------------------------------------------------------------------------

  function HexValue(c: char): (v: int)
    requires IsHexDigit(c)
    ensures 0 <= v < 16
  {
    if '0' <= c <= '9' then c as int - '0' as int
    else if 'a' <= c <= 'f' then c as int - 'a' as int + 10
    else c as int - 'A' as int + 10
  }

  /** Form decoding: a plus is a space, %XY is the character XY. */
  function FormDecoded(s: string): string {
    if s == [] then []
    else if s[0] == '+' then [' '] + FormDecoded(s[1..])
    else if |s| >= 3 && s[0] == '%' && IsHexDigit(s[1]) && IsHexDigit(s[2]) then
      [(HexValue(s[1]) * 16 + HexValue(s[2])) as char] + FormDecoded(s[3..])
    else [s[0]] + FormDecoded(s[1..])
  }

  /** One name=value pair; without an equals sign the value is empty. */
  function Pair(s: string): (string, string) {
    match Search.IndexOf(s, "=")
    case None => (FormDecoded(s), "")
    case Some(i) => (FormDecoded(s[..i]), FormDecoded(s[i + 1..]))
  }

  /** The value of the first pair of that name. */
  function Lookup(query: string, name: string): Option<string> {
    match Search.IndexOf(query, "&")
    case None => if query != "" && Pair(query).0 == name then Some(Pair(query).1) else None
    case Some(i) =>
      if i > 0 && Pair(query[..i]).0 == name then Some(Pair(query[..i]).1) else Lookup(query[i + 1..], name)
  }

  /** new URLSearchParams(query).get(name): a leading question mark is dropped. */
  function SearchParam(query: string, name: string): Option<string> {
    Lookup(if query != "" && query[0] == '?' then query[1..] else query, name)
  }

  // ---- The URI -------------------------------------------------------------------------------------

  datatype UriError = MissingPayloadParameter | InvalidJson | MissingKeys | BadSignature

  function ExportUri(scheme: string, bytes: seq<Byte>): string {
    scheme + "?v=1&d=" + ToUrl(bytes)
  }

  /** The base64 text that a URI carries, or the text itself when it is not a URI with a query. */
  function Code(scheme: string, uri: string): Result<string, UriError> {
    var text := Trim(uri);
    if !(scheme <= text) then Ok(text)
    else
      match Search.IndexOf(text, "?")
      case None => Ok(text)
      case Some(i) =>
        var d := SearchParam(text[i + 1..], "d");
        if d.None? || d.value == "" then Err(MissingPayloadParameter) else Ok(d.value)
  }

  function Decoded(scheme: string, uri: string): Result<seq<Byte>, UriError> {
    match Code(scheme, uri)
    case Ok(code) => Ok(Decode(Padded(Standard(code))))
    case Err(error) => Err(error)
  }

  /** The parser's steps on its own locals. */
  method DecodeUri(scheme: string, uri: string) returns (r: Result<seq<Byte>, UriError>)
    ensures r == Decoded(scheme, uri)
  {
    var base64Data := Trim(uri);
    if scheme <= base64Data {
      var queryIndex := Search.IndexOf(base64Data, "?");
      if queryIndex.Some? {
        var d := SearchParam(base64Data[queryIndex.value + 1..], "d");
        if d.None? || d.value == "" {
          return Err(MissingPayloadParameter);
        }
        base64Data := d.value;
      }
    }
    var standardBase64 := Standard(base64Data);
    standardBase64 := Repad(standardBase64);
    return Ok(Decode(standardBase64));
  }

  predicate IsScheme(scheme: string) {
    && 0 < |scheme| && !IsSpace(scheme[0])
    && (exists i :: 0 <= i < |scheme| && scheme[i] == ':')
    && Search.HasNo(scheme, '?')
  }

  lemma Schemes()
    ensures IsScheme(CONTACT_URI_SCHEME) && IsScheme(DEVICE_LINK_URI_SCHEME)
  {
    assert CONTACT_URI_SCHEME[7] == ':';
    assert DEVICE_LINK_URI_SCHEME[7] == ':';
  }

  predicate UrlSafeText(s: string) {
    forall i | 0 <= i < |s| :: IsUrlSafe(s[i])
  }

  lemma TrimIsIdentity(s: string)
    requires Trimmed(s)
    ensures Trim(s) == s
  {
    TrimIs("", s, "");
    assert "" + s + "" == s;
  }

  /** A URL-safe text passes through form decoding unchanged; a standard one would lose its pluses. */
  lemma {:induction false} SafeTextDecodes(s: string)
    requires UrlSafeText(s)
    ensures FormDecoded(s) == s
  {
    if s != [] {
      assert IsUrlSafe(s[0]);
      SafeTextDecodes(s[1..]);
    }
  }

  /** The pair splits at its first equals sign. */
  lemma PairAt(name: string, value: string)
    requires UrlSafeText(name)
    ensures Pair(name + "=" + value) == (name, FormDecoded(value))
  {
    var s := name + "=" + value;
    Search.FirstAt(s, '=', |name|);
    assert s[..|name|] == name && s[|name| + 1..] == value;
    SafeTextDecodes(name);
  }

  lemma LookupNext(first: string, rest: string, name: string)
    requires first != "" && Pair(first).0 != name && Search.HasNo(first, '&')
    ensures Lookup(first + "&" + rest, name) == Lookup(rest, name)
  {
    var query := first + "&" + rest;
    Search.FirstAt(query, '&', |first|);
    assert query[..|first|] == first && query[|first| + 1..] == rest;
  }

  lemma LookupOnly(pair: string, name: string)
    requires pair != "" && Pair(pair).0 == name && Search.HasNo(pair, '&')
    ensures Lookup(pair, name) == Some(Pair(pair).1)
  {
    Search.NoneIn(pair, '&');
  }

  lemma QueryShape(value: string)
    ensures "v=1&d=" + value == ("v" + "=" + "1") + "&" + ("d" + "=" + value)
  {
  }

  lemma SecondPair(p: string, q: string, name: string)
    requires p != "" && q != "" && Search.HasNo(p, '&') && Search.HasNo(q, '&') && Pair(p).0 != name
             && Pair(q).0 == name
    ensures Lookup(p + "&" + q, name) == Some(Pair(q).1)
  {
    LookupNext(p, q, name);
    LookupOnly(q, name);
  }

  lemma NoAmpersand(name: string, value: string)
    requires UrlSafeText(name) && Search.HasNo(value, '&')
    ensures Search.HasNo(name + "=" + value, '&')
  {
    var s := name + "=" + value;
    forall i | 0 <= i < |s|
      ensures s[i] != '&'
    {
      if i < |name| {
        assert IsUrlSafe(name[i]);
      }
    }
  }

  lemma PlainQuery(query: string, name: string)
    requires query != "" && query[0] != '?'
    ensures SearchParam(query, name) == Lookup(query, name)
  {
  }

  /** In the query of an export, d is the form-decoded rest. */
  lemma DParameter(value: string)
    requires Search.HasNo(value, '&')
    ensures SearchParam("v=1&d=" + value, "d") == Some(FormDecoded(value))
  {
    QueryShape(value);
    PairAt("v", "1");
    PairAt("d", value);
    NoAmpersand("v", "1");
    NoAmpersand("d", value);
    SecondPair("v" + "=" + "1", "d" + "=" + value, "d");
    PlainQuery("v=1&d=" + value, "d");
  }

  /** In a URI with a query, the code is its parameter d. */
  lemma CodeOfQuery(scheme: string, query: string)
    requires IsScheme(scheme) && query != "" && !IsSpace(query[|query| - 1])
    ensures Code(scheme, scheme + "?" + query)
         == match SearchParam(query, "d")
            case None => Err(MissingPayloadParameter)
            case Some(d) => if d == "" then Err(MissingPayloadParameter) else Ok(d)
  {
    var uri := scheme + "?" + query;
    TrimIsIdentity(uri);
    Search.FirstAt(uri, '?', |scheme|);
    assert uri[|scheme| + 1..] == query;
    assert uri[..|scheme|] == scheme;
  }

  lemma ExportShape(scheme: string, code: string)
    ensures scheme + "?v=1&d=" + code == scheme + "?" + ("v=1&d=" + code)
    ensures var query := "v=1&d=" + code;
            query[|query| - 1] == if code == [] then '=' else code[|code| - 1]
  {
  }

  /** Parsing an exported URI gives back exactly the code, unless it is empty. */
  lemma CodeOfExport(scheme: string, bytes: seq<Byte>)
    requires IsScheme(scheme)
    ensures Code(scheme, ExportUri(scheme, bytes)) == if bytes == [] then Err(MissingPayloadParameter)
            else Ok(ToUrl(bytes))
  {
    UrlForm(bytes);
    var code := ToUrl(bytes);
    ExportShape(scheme, code);
    DParameter(code);
    SafeTextDecodes(code);
    CodeOfQuery(scheme, "v=1&d=" + code);
  }

  /** A code on its own is not mistaken for a URI. */
  lemma CodeOfBareCode(scheme: string, bytes: seq<Byte>)
    requires IsScheme(scheme)
    ensures Code(scheme, ToUrl(bytes)) == Ok(ToUrl(bytes))
  {
    UrlForm(bytes);
    var code := ToUrl(bytes);
    TrimIsIdentity(code);
    var i :| 0 <= i < |scheme| && scheme[i] == ':';
    if i < |code| {
      assert IsUrlSafe(code[i]);
    }
  }

  /** The URI gives back the bytes exactly when there are any; the bare code always does. */
  lemma UriRoundTrip(scheme: string, bytes: seq<Byte>)
    requires IsScheme(scheme)
    ensures Decoded(scheme, ExportUri(scheme, bytes)) == Ok(bytes) <==> bytes != []
    ensures Decoded(scheme, ToUrl(bytes)) == Ok(bytes)
  {
    CodeOfExport(scheme, bytes);
    CodeOfBareCode(scheme, bytes);
    CodeRoundTrip(bytes);
  }

  /** Had the plus sign been left in, the query would have turned it into a space, and the byte would be lost. */
  lemma PlusWouldBeLost()
    ensures Encode([248]) == "+A=="
    ensures SearchParam("v=1&d=" + Encode([248])[..2], "d") == Some(" A")
    ensures Decode(" A") == []
  {
    assert Sextets([248]) == [62, 0];
    assert Text([62, 0]) == "+A";
    DParameter("+A");
    PlusBecomesSpace();
    SpaceIsPassedOver();
  }

  lemma PlusBecomesSpace()
    ensures FormDecoded("+A") == " A"
  {
    SafeTextDecodes("A");
    assert "+A"[1..] == "A";
  }

  lemma SpaceIsPassedOver()
    ensures Values(" A") == [0]
  {
    assert " A"[1..] == "A" && "A"[1..] == "";
    assert Values("A") == [0];
  }

  // ---- Texts as they are typed or scanned ------------------------------------------------------------

  /** Spaces around a text, whatever it is, make no difference. */
  lemma SpacesDoNotMatter(scheme: string, before: string, text: string, after: string)
    requires AllSpaces(before) && AllSpaces(after) && Trimmed(text)
    ensures Code(scheme, before + text + after) == Code(scheme, text)
    ensures Decoded(scheme, before + text + after) == Decoded(scheme, text)
  {
    TrimIs(before, text, after);
    TrimIsIdentity(text);
  }

  lemma ExportIsTrimmed(scheme: string, bytes: seq<Byte>)
    requires IsScheme(scheme)
    ensures Trimmed(ExportUri(scheme, bytes)) && Trimmed(ToUrl(bytes))
  {
    UrlForm(bytes);
    ExportShape(scheme, ToUrl(bytes));
  }

  /** So an export with spaces around it is read as without them. */
  lemma SpacedExport(scheme: string, bytes: seq<Byte>, before: string, after: string)
    requires IsScheme(scheme) && AllSpaces(before) && AllSpaces(after)
    ensures Decoded(scheme, before + ExportUri(scheme, bytes) + after) == Ok(bytes) <==> bytes != []
    ensures Decoded(scheme, before + ToUrl(bytes) + after) == Ok(bytes)
  {
    ExportIsTrimmed(scheme, bytes);
    SpacesDoNotMatter(scheme, before, ExportUri(scheme, bytes), after);
    SpacesDoNotMatter(scheme, before, ToUrl(bytes), after);
    UriRoundTrip(scheme, bytes);
  }

  /** A URI without a query is taken for a code, scheme and all. */
  lemma NoQueryIsACode(scheme: string, rest: string)
    requires Trimmed(scheme + rest) && Search.HasNo(scheme + rest, '?')
    ensures Code(scheme, scheme + rest) == Ok(scheme + rest)
  {
    TrimIsIdentity(scheme + rest);
    Search.NoneIn(scheme + rest, '?');
  }

  /** Name and value of a parameter are both decoded; without an equals sign the value is empty. */
  lemma PairDecodes(name: string, value: string)
    requires Search.HasNo(name, '=')
    ensures Pair(name + "=" + value) == (FormDecoded(name), FormDecoded(value))
    ensures Pair(name) == (FormDecoded(name), "")
  {
    var s := name + "=" + value;
    Search.FirstAt(s, '=', |name|);
    Search.NoneIn(name, '=');
    assert s[..|name|] == name && s[|name| + 1..] == value;
  }

  /** Of two parameters of one name the first counts. */
  lemma FirstOfName(first: string, rest: string, name: string)
    requires first != "" && Search.HasNo(first, '&') && Pair(first).0 == name
    ensures Lookup(first + "&" + rest, name) == Some(Pair(first).1)
  {
    var query := first + "&" + rest;
    Search.FirstAt(query, '&', |first|);
    assert query[..|first|] == first;
  }

  /** One question mark too many is dropped. */
  lemma QuestionMarkDropped(query: string, name: string)
    ensures SearchParam("?" + query, name) == Lookup(query, name)
  {
    assert ("?" + query)[1..] == query;
  }

  const HEX := "0123456789ABCDEF"
  const LOWER_HEX := "0123456789abcdef"

  lemma HexAt(v: nat)
    requires v < 16
    ensures IsHexDigit(HEX[v]) && HexValue(HEX[v]) == v
    ensures IsHexDigit(LOWER_HEX[v]) && HexValue(LOWER_HEX[v]) == v
  {
  }

  /** Every character as a percent sign and two hex digits. */
  function Percent(s: string): string
    requires forall i | 0 <= i < |s| :: s[i] < 256 as char
  {
    if s == "" then ""
    else ['%', HEX[s[0] as int / 16], HEX[s[0] as int % 16]] + Percent(s[1..])
  }

  lemma EscapeDecodes(high: char, low: char, rest: string)
    requires IsHexDigit(high) && IsHexDigit(low)
    ensures FormDecoded(['%', high, low] + rest)
         == [(HexValue(high) * 16 + HexValue(low)) as char] + FormDecoded(rest)
  {
    assert (['%', high, low] + rest)[3..] == rest;
  }

  /** Form decoding undoes it. */
  lemma {:induction false} PercentDecodes(s: string)
    requires forall i | 0 <= i < |s| :: s[i] < 256 as char
    ensures FormDecoded(Percent(s)) == s
  {
    if s != "" {
      var c := s[0] as int;
      HexAt(c / 16);
      HexAt(c % 16);
      PercentDecodes(s[1..]);
      EscapeDecodes(HEX[c / 16], HEX[c % 16], Percent(s[1..]));
      assert c / 16 * 16 + c % 16 == c;
    }
  }

  /** A percent sign without two hex digits stands for itself. */
  lemma LonePercent(rest: string)
    requires |rest| < 2 || !IsHexDigit(rest[0]) || !IsHexDigit(rest[1])
    ensures FormDecoded("%" + rest) == "%" + FormDecoded(rest)
  {
    assert ("%" + rest)[1..] == rest;
  }

  // ---- Contacts ------------------------------------------------------------------------------------

  datatype SignedPreKeyPart = SignedPreKeyPart(keyId: int, publicKeyHex: string, signatureHex: string)

  datatype OneTimePreKeyPart = OneTimePreKeyPart(keyId: int, publicKeyHex: string)

  datatype ContactPayload = ContactPayload(
    signingKeyHex: string,
    identityKeyHex: string,
    signedPreKey: Option<SignedPreKeyPart>,
    oneTimePreKey: Option<OneTimePreKeyPart>,
    alias: Option<string>)

  /** What lies outside: JSON as text bytes, the Ed25519 check and the mailbox hash. */
  datatype Outside = Outside(
    stringify: ContactPayload -> seq<Byte>,
    parse: seq<Byte> -> Option<ContactPayload>,
    verify: (string, string, string) -> bool,
    mailbox: string -> string)

  ghost predicate JsonIsFaithful(outside: Outside) {
    forall p :: outside.stringify(p) != [] && outside.parse(outside.stringify(p)) == Some(p)
  }

  predicate HasKeys(p: ContactPayload) {
    && p.signingKeyHex != "" && p.identityKeyHex != "" && p.signedPreKey.Some?
    && p.signedPreKey.value.publicKeyHex != "" && p.signedPreKey.value.signatureHex != ""
  }

  /** The payload, with the mailbox that belongs to its signing key. */
  function ParseContactUri(uri: string, outside: Outside): Result<(ContactPayload, string), UriError> {
    match Decoded(CONTACT_URI_SCHEME, uri)
    case Err(error) => Err(error)
    case Ok(bytes) =>
      match outside.parse(bytes)
      case None => Err(InvalidJson)
      case Some(p) =>
        if !HasKeys(p) then Err(MissingKeys)
        else if !outside.verify(p.signedPreKey.value.publicKeyHex, p.signedPreKey.value.signatureHex, p.signingKeyHex)
          then Err(BadSignature)
        else Ok((p, outside.mailbox(p.signingKeyHex)))
  }

  /** An exported contact is imported unchanged if and only if it is complete and its signed prekey verifies. */
  lemma ContactRoundTrip(payload: ContactPayload, outside: Outside)
    requires JsonIsFaithful(outside)
    ensures var r := ParseContactUri(ExportUri(CONTACT_URI_SCHEME, outside.stringify(payload)), outside);
            var complete :=
              && payload.signingKeyHex != "" && payload.identityKeyHex != "" && payload.signedPreKey.Some?
              && payload.signedPreKey.value.publicKeyHex != "" && payload.signedPreKey.value.signatureHex != "";
            var genuine :=
              && complete
              && outside.verify(payload.signedPreKey.value.publicKeyHex, payload.signedPreKey.value.signatureHex,
                                payload.signingKeyHex);
            && (r.Ok? <==> genuine)
            && (r.Ok? ==> r.value == (payload, outside.mailbox(payload.signingKeyHex)))
            && (r.Err? ==> r.error == if complete then BadSignature else MissingKeys)
  {
    Schemes();
    UriRoundTrip(CONTACT_URI_SCHEME, outside.stringify(payload));
  }

  /** Bytes that are no JSON, and a URI without any, are refused as such. */
  lemma NotAContact(bytes: seq<Byte>, outside: Outside)
    requires bytes == [] || outside.parse(bytes).None?
    ensures ParseContactUri(ExportUri(CONTACT_URI_SCHEME, bytes), outside)
         == Err(if bytes == [] then MissingPayloadParameter else InvalidJson)
  {
    Schemes();
    CodeOfExport(CONTACT_URI_SCHEME, bytes);
    UriRoundTrip(CONTACT_URI_SCHEME, bytes);
  }
}
