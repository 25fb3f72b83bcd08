/** Base64 (sections 4 and 5 of RFC 4648), as the client's buffers write and read it. */
module Base64 {
  import opened Sequences
  import AsciiText

  type Byte = b: int | 0 <= b < 256
  type Sextet = k: int | 0 <= k < 64

  // ---- Bytes and sextets -------------------------------------------------------------------------

  /** Six bits at a time, the last group filled up with zero bits. */
  function Sextets(bytes: seq<Byte>): (s: seq<Sextet>)
    ensures |s| == (4 * |bytes| + 2) / 3
  {
    if |bytes| == 0 then []
    else if |bytes| == 1 then [bytes[0] / 4, bytes[0] % 4 * 16]
    else if |bytes| == 2 then [bytes[0] / 4, bytes[0] % 4 * 16 + bytes[1] / 16, bytes[1] % 16 * 4]
    else
      [bytes[0] / 4, bytes[0] % 4 * 16 + bytes[1] / 16, bytes[1] % 16 * 4 + bytes[2] / 64, bytes[2] % 64]
      + Sextets(bytes[3..])
  }

  function First(a: int, b: int): Byte
    requires 0 <= a < 64 && 0 <= b < 64
  {
    a * 4 + b / 16
  }

  function Second(b: int, c: int): Byte
    requires 0 <= b < 64 && 0 <= c < 64
  {
    b % 16 * 16 + c / 4
  }

  function Third(c: int, d: int): Byte
    requires 0 <= c < 64 && 0 <= d < 64
  {
    c % 4 * 64 + d
  }

  /** Bits that do not fill a byte are dropped. */
  function Bytes(s: seq<Sextet>): seq<Byte> {
    if |s| < 2 then []
    else if |s| == 2 then [First(s[0], s[1])]
    else if |s| == 3 then [First(s[0], s[1]), Second(s[1], s[2])]
    else [First(s[0], s[1]), Second(s[1], s[2]), Third(s[2], s[3])] + Bytes(s[4..])
  }

  lemma TripleRoundTrip(a: Byte, b: Byte, c: Byte)
    ensures First(a / 4, a % 4 * 16 + b / 16) == a
    ensures Second(a % 4 * 16 + b / 16, b % 16 * 4 + c / 64) == b
    ensures Third(b % 16 * 4 + c / 64, c % 64) == c
  {
  }

  lemma {:induction false} BytesOfSextets(bytes: seq<Byte>)
    ensures Bytes(Sextets(bytes)) == bytes
  {
    if |bytes| == 1 {
      TripleRoundTrip(bytes[0], 0, 0);
    } else if |bytes| == 2 {
      TripleRoundTrip(bytes[0], bytes[1], 0);
    } else if |bytes| > 2 {
      TripleRoundTrip(bytes[0], bytes[1], bytes[2]);
      BytesOfSextets(bytes[3..]);
      assert Sextets(bytes)[4..] == Sextets(bytes[3..]);
    }
  }

  // ---- Alphabets ---------------------------------------------------------------------------------

  function Char(k: Sextet): char {
    if k < 26 then 'A' + k as char
    else if k < 52 then 'a' + (k - 26) as char
    else if k < 62 then '0' + (k - 52) as char
    else if k == 62 then '+'
    else '/'
  }

  predicate IsUrlSafe(c: char) {
    'A' <= c <= 'Z' || 'a' <= c <= 'z' || '0' <= c <= '9' || c == '-' || c == '_'
  }

  predicate InAlphabet(c: char) {
    IsUrlSafe(c) || c == '+' || c == '/'
  }

  /** The decoder knows both alphabets. */
  function Value(c: char): Sextet
    requires InAlphabet(c)
  {
    if 'A' <= c <= 'Z' then c as int - 'A' as int
    else if 'a' <= c <= 'z' then c as int - 'a' as int + 26
    else if '0' <= c <= '9' then c as int - '0' as int + 52
    else if c == '+' || c == '-' then 62
    else 63
  }

  lemma CharRoundTrip(k: Sextet)
    ensures InAlphabet(Char(k)) && Value(Char(k)) == k
    ensures Char(k) != '-' && Char(k) != '_' && Char(k) != '='
  {
  }

  function Text(s: seq<Sextet>): string {
    seq(|s|, i requires 0 <= i < |s| => Char(s[i]))
  }

  predicate IsPadding(pad: string) {
    forall i | 0 <= i < |pad| :: pad[i] == '='
  }

  function Padding(bytes: seq<Byte>): string {
    if |bytes| % 3 == 1 then "==" else if |bytes| % 3 == 2 then "=" else ""
  }

  /** toString('base64'). */
  function Encode(bytes: seq<Byte>): string {
    Text(Sextets(bytes)) + Padding(bytes)
  }

  function ValueIfAny(c: char): seq<Sextet> {
    if InAlphabet(c) then [Value(c)] else []
  }

  /** What the decoder reads: it passes over padding and everything else outside the alphabets. */
  function Values(text: string): seq<Sextet> {
    if text == [] then [] else ValueIfAny(text[0]) + Values(text[1..])
  }

  /** Buffer.from(text, 'base64'). */
  function Decode(text: string): seq<Byte> {
    Bytes(Values(text))
  }

  lemma {:induction false} ValuesSplit(a: string, b: string)
    ensures Values(a + b) == Values(a) + Values(b)
  {
    if a == [] {
      assert a + b == b;
    } else {
      assert (a + b)[1..] == a[1..] + b;
      ValuesSplit(a[1..], b);
      Associate(ValueIfAny(a[0]), Values(a[1..]), Values(b));
    }
  }

  lemma {:induction false} ValuesOfText(s: seq<Sextet>)
    ensures Values(Text(s)) == s
  {
    if s != [] {
      CharRoundTrip(s[0]);
      assert Text(s)[1..] == Text(s[1..]);
      ValuesOfText(s[1..]);
    }
  }

  lemma {:induction false} NothingInPadding(pad: string)
    requires IsPadding(pad)
    ensures Values(pad) == []
  {
    if pad != [] {
      NothingInPadding(pad[1..]);
    }
  }

  // ---- The unpadded URL-safe form ----------------------------------------------------------------

  function Replaced(text: string, before: char, after: char): string {
    seq(|text|, i requires 0 <= i < |text| => if text[i] == before then after else text[i])
  }

  /** replace(/=+$/, ''). */
  function Stripped(text: string): string {
    if text != [] && text[|text| - 1] == '=' then Stripped(text[..|text| - 1]) else text
  }

  function ToUrl(bytes: seq<Byte>): string {
    Stripped(Replaced(Replaced(Encode(bytes), '+', '-'), '/', '_'))
  }

  function Standard(code: string): string {
    Replaced(Replaced(code, '-', '+'), '_', '/')
  }

  /** Padded to a multiple of four. */
  function Padded(text: string): (p: string)
    ensures |p| % 4 == 0 && text <= p && |p| < |text| + 4
    ensures IsPadding(p[|text|..])
  {
    var pad := match |text| % 4 case 0 => "" case 1 => "===" case 2 => "==" case _ => "=";
    assert (text + pad)[|text|..] == pad;
    text + pad
  }

  method Repad(text: string) returns (padded: string)
    ensures padded == Padded(text)
  {
    padded := text;
    ghost var missing := Padded(text)[|text|..];
    while |padded| % 4 != 0
      invariant text <= padded <= Padded(text)
      decreases |Padded(text)| - |padded|
    {
      assert Padded(text)[|padded|] == missing[|padded| - |text|];
      padded := padded + "=";
    }
    SameLength(padded, Padded(text));
  }

  lemma SameLength(a: string, b: string)
    requires a <= b && |b| < |a| + 4 && |a| % 4 == 0 && |b| % 4 == 0
    ensures a == b
  {
    assert |a| == |b|;
  }

  lemma {:induction false} StripPads(text: string, pad: string)
    requires text == [] || text[|text| - 1] != '='
    requires IsPadding(pad)
    ensures Stripped(text + pad) == text
  {
    if pad == [] {
      assert text + pad == text;
    } else {
      assert (text + pad)[..|text + pad| - 1] == text + pad[..|pad| - 1];
      StripPads(text, pad[..|pad| - 1]);
    }
  }

  function UrlChar(k: Sextet): char {
    if k == 62 then '-' else if k == 63 then '_' else Char(k)
  }

  lemma UrlCharIsSafe(k: Sextet)
    ensures IsUrlSafe(UrlChar(k))
    ensures UrlChar(k) == (if Char(k) == '+' then '-' else if Char(k) == '/' then '_' else Char(k))
  {
  }

  /** The code is the plain text of the sextets in the URL-safe alphabet, without padding. */
  lemma UrlForm(bytes: seq<Byte>)
    ensures |ToUrl(bytes)| == |Sextets(bytes)|
    ensures forall i | 0 <= i < |Sextets(bytes)| ::
            ToUrl(bytes)[i] == UrlChar(Sextets(bytes)[i]) && IsUrlSafe(ToUrl(bytes)[i])
  {
    var s := Sextets(bytes);
    var text := seq(|s|, i requires 0 <= i < |s| => UrlChar(s[i]));
    forall i | 0 <= i < |s|
      ensures IsUrlSafe(text[i]) && Replaced(Replaced(Encode(bytes), '+', '-'), '/', '_')[i] == text[i]
    {
      UrlCharIsSafe(s[i]);
    }
    assert Replaced(Replaced(Encode(bytes), '+', '-'), '/', '_') == text + Padding(bytes);
    StripPads(text, Padding(bytes));
  }

  /** Mapping back undoes the mapping of the alphabet. */
  lemma StandardForm(bytes: seq<Byte>)
    ensures Standard(ToUrl(bytes)) == Text(Sextets(bytes))
  {
    UrlForm(bytes);
    var s := Sextets(bytes);
    forall i | 0 <= i < |s|
      ensures Standard(ToUrl(bytes))[i] == Text(s)[i]
    {
      CharRoundTrip(s[i]);
      UrlCharIsSafe(s[i]);
    }
  }

  /** Mapped back, padded again and decoded, every byte string is itself; and the padding is what the encoder wrote. */
  lemma CodeRoundTrip(bytes: seq<Byte>)
    ensures Decode(Padded(Standard(ToUrl(bytes)))) == bytes
    ensures Padded(Standard(ToUrl(bytes))) == Encode(bytes)
  {
    StandardForm(bytes);
    var text := Text(Sextets(bytes));
    var p := Padded(text);
    assert p == text + p[|text|..];
    ValuesSplit(text, p[|text|..]);
    NothingInPadding(p[|text|..]);
    ValuesOfText(Sextets(bytes));
    assert Sextets(bytes) + [] == Sextets(bytes);
    BytesOfSextets(bytes);
    PadLength(|bytes|, |text|);
  }

  lemma PadLength(n: nat, length: nat)
    requires length == (4 * n + 2) / 3
    ensures length % 4 == (if n % 3 == 0 then 0 else n % 3 + 1)
  {
    assert n == 3 * (n / 3) + n % 3;
  }

  // ---- The standard's own words ----------------------------------------------------------------------

  lemma CharOfPart(k: Sextet)
    ensures k < 26 ==> Char(k) as int == 'A' as int + k
    ensures 26 <= k < 52 ==> Char(k) as int == 'a' as int + (k - 26)
    ensures 52 <= k < 62 ==> Char(k) as int == '0' as int + (k - 52)
  {
  }

  /** Table 1 of RFC 4648: letters, digits and two signs; and its table 2 for the last two. */
  lemma AlphabetIs(k: Sextet)
    ensures k < 26 ==> Char(k) == AsciiText.UPPER[k] && Char(k + 26) == AsciiText.LOWER[k]
    ensures k < 10 ==> Char(k + 52) == AsciiText.DIGITS[k]
    ensures Char(62) == '+' && Char(63) == '/' && UrlChar(62) == '-' && UrlChar(63) == '_'
    ensures k < 62 ==> UrlChar(k) == Char(k)
  {
    if k < 26 {
      AsciiText.LowerAt(k);
      CharOfPart(k);
      CharOfPart(k + 26);
    }
    if k < 10 {
      AsciiText.DigitAt(k);
      CharOfPart(k + 52);
    }
  }

  /** From section 10 of RFC 4648: "f", "fo" and "foo". */
  lemma TestVectors()
    ensures Encode([102]) == "Zg==" && Encode([102, 111]) == "Zm8=" && Encode([102, 111, 111]) == "Zm9v"
  {
    assert Sextets([102]) == [25, 32] && Text([25, 32]) == "Zg";
    assert Sextets([102, 111]) == [25, 38, 60] && Text([25, 38, 60]) == "Zm8";
    assert [102, 111, 111][3..] == [] && Sextets([102, 111, 111]) == [25, 38, 61, 47];
    assert Text([25, 38, 61, 47]) == "Zm9v";
  }
}
