/** `urllib.parse.quote(s, safe="")` and `unquote(s)`: percent-encoding (RFC 3986, sections 2.1 and 2.3) over
    UTF-8, malformed input included. */
module PercentCodec {

  type Byte = b: int | 0 <= b < 0x100

  /* ----------------------------------------------------------------- UTF-8 */

  function Utf8Char(ch: char): (b: seq<Byte>)
    ensures 1 <= |b| <= 4
  {
    var n := ch as int;
    if n < 0x80 then [n]
    else
      var q, r := n / 0x40, 0x80 + n % 0x40;
      if n < 0x800 then [0xC0 + q, r]
      else
        var q2, r2 := q / 0x40, 0x80 + q % 0x40;
        if n < 0x10000 then [0xE0 + q2, r2, r]
        else [0xF0 + q2 / 0x40, 0x80 + q2 % 0x40, r2, r]
  }

  function Utf8(s: string): seq<Byte> {
    if s == "" then [] else Utf8Char(s[0]) + Utf8(s[1..])
  }

  const REPLACEMENT: char := '\U{FFFD}'

  predicate Continues(b: Byte) {
    0x80 <= b < 0xC0
  }

  // The continuation bytes allowed right after a lead byte: no overlong form, no surrogate, nothing too large.
  predicate Second(lead: Byte, b: Byte) {
    && Continues(b)
    && (lead == 0xE0 ==> b >= 0xA0) && (lead == 0xED ==> b < 0xA0)
    && (lead == 0xF0 ==> b >= 0x90) && (lead == 0xF4 ==> b < 0x90)
  }

  function Low(b: int, base: int): int { b - base }

  /** The first character of `b` and the bytes it takes; a malformed piece counts as one replacement
      character, as Python's "replace" error handler has it. */
  function DecodeChar(b: seq<Byte>): (r: (char, nat))
    requires b != []
    ensures 1 <= r.1 <= |b|
  {
    var x := b[0];
    if x < 0x80 then (x as char, 1)
    else if 0xC2 <= x < 0xE0 then
      if |b| > 1 && Continues(b[1]) then ((Low(x, 0xC0) * 0x40 + Low(b[1], 0x80)) as char, 2) else (REPLACEMENT, 1)
    else if 0xE0 <= x < 0xF0 then
      if |b| < 2 || !Second(x, b[1]) then (REPLACEMENT, 1)
      else if |b| < 3 || !Continues(b[2]) then (REPLACEMENT, 2)
      else ((Low(x, 0xE0) * 0x1000 + Low(b[1], 0x80) * 0x40 + Low(b[2], 0x80)) as char, 3)
    else if 0xF0 <= x < 0xF5 then
      if |b| < 2 || !Second(x, b[1]) then (REPLACEMENT, 1)
      else if |b| < 3 || !Continues(b[2]) then (REPLACEMENT, 2)
      else if |b| < 4 || !Continues(b[3]) then (REPLACEMENT, 3)
      else ((Low(x, 0xF0) * 0x40000 + Low(b[1], 0x80) * 0x1000 + Low(b[2], 0x80) * 0x40 + Low(b[3], 0x80)) as char, 4)
    else (REPLACEMENT, 1)
  }

  function Utf8Decode(b: seq<Byte>): string {
    if b == [] then "" else var (ch, n) := DecodeChar(b); [ch] + Utf8Decode(b[n..])
  }

  lemma DecodeCharOfUtf8(ch: char, rest: seq<Byte>)
    ensures DecodeChar(Utf8Char(ch) + rest) == (ch, |Utf8Char(ch)|)
  {}

  /** The encodings of four characters, one of each length. */
  lemma Utf8Examples()
    ensures Utf8Char('A') == [0x41] && Utf8Char('\U{E9}') == [0xC3, 0xA9]
    ensures Utf8Char('\U{20AC}') == [0xE2, 0x82, 0xAC] && Utf8Char('\U{1F600}') == [0xF0, 0x9F, 0x98, 0x80]
  {}

  /** What is decoded, unless it is a replacement, is the encoding of that character and of no other form. */
  lemma DecodedIsEncoded(b: seq<Byte>)
    requires b != [] && DecodeChar(b).0 != REPLACEMENT
    ensures b[..DecodeChar(b).1] == Utf8Char(DecodeChar(b).0)
  {
    var n := DecodeChar(b).1;
    if n == 2 { Encoded2(b[0], b[1]); }
    else if n == 3 { Encoded3(b[0], b[1], b[2]); }
    else if n == 4 { Encoded4(b[0], b[1], b[2], b[3]); }
  }

  lemma Encoded2(x: Byte, y: Byte)
    requires 0xC2 <= x < 0xE0 && Continues(y)
    ensures Utf8Char((Low(x, 0xC0) * 0x40 + Low(y, 0x80)) as char) == [x, y]
  {}

  lemma Encoded3(x: Byte, y: Byte, z: Byte)
    requires 0xE0 <= x < 0xF0 && Second(x, y) && Continues(z)
    ensures Utf8Char((Low(x, 0xE0) * 0x1000 + Low(y, 0x80) * 0x40 + Low(z, 0x80)) as char) == [x, y, z]
  {
    var n := Low(x, 0xE0) * 0x1000 + Low(y, 0x80) * 0x40 + Low(z, 0x80);
    assert n / 0x40 == Low(x, 0xE0) * 0x40 + Low(y, 0x80) && n % 0x40 == Low(z, 0x80);
  }

  lemma Encoded4(x: Byte, y: Byte, z: Byte, u: Byte)
    requires 0xF0 <= x < 0xF5 && Second(x, y) && Continues(z) && Continues(u)
    ensures Utf8Char((Low(x, 0xF0) * 0x40000 + Low(y, 0x80) * 0x1000 + Low(z, 0x80) * 0x40 + Low(u, 0x80)) as char) == [x, y, z, u]
  {
    var n := Low(x, 0xF0) * 0x40000 + Low(y, 0x80) * 0x1000 + Low(z, 0x80) * 0x40 + Low(u, 0x80);
    var q := Low(x, 0xF0) * 0x1000 + Low(y, 0x80) * 0x40 + Low(z, 0x80);
    assert n / 0x40 == q && n % 0x40 == Low(u, 0x80);
    assert q / 0x40 == Low(x, 0xF0) * 0x40 + Low(y, 0x80) && q % 0x40 == Low(z, 0x80);
  }

  /** How much of a malformed piece one replacement stands for: all that began a character, and else one byte. */
  lemma MalformedExamples()
    ensures DecodeChar([0x80]) == DecodeChar([0xFF]) == DecodeChar([0xC0, 0xAF]) == (REPLACEMENT, 1)
    ensures DecodeChar([0xE2, 0x28]) == DecodeChar([0xED, 0xA0, 0x80]) == DecodeChar([0xF5, 0x80]) == (REPLACEMENT, 1)
    ensures DecodeChar([0xE2, 0x82]) == DecodeChar([0xE2, 0x82, 0x41]) == DecodeChar([0xF0, 0x9F, 0x41]) == (REPLACEMENT, 2)
    ensures DecodeChar([0xF0, 0x9F, 0x98]) == DecodeChar([0xF0, 0x9F, 0x98, 0x41]) == (REPLACEMENT, 3)
  {}

  lemma {:induction false} Utf8RoundTrip(s: string)
    ensures Utf8Decode(Utf8(s)) == s
  {
    if s != "" {
      DecodeCharOfUtf8(s[0], Utf8(s[1..]));
      assert Utf8(s)[|Utf8Char(s[0])|..] == Utf8(s[1..]);
      Utf8RoundTrip(s[1..]);
    }
  }

  /* ------------------------------------------------------ percent-encoding */

  // The unreserved characters of RFC 3986, section 2.3.
  predicate Unreserved(b: Byte) {
    0x41 <= b <= 0x5A || 0x61 <= b <= 0x7A || 0x30 <= b <= 0x39 || b == 0x5F || b == 0x2E || b == 0x2D || b == 0x7E
  }

  function Hex(d: int): char
    requires 0 <= d < 16
  {
    if d < 10 then (0x30 + d) as char else (0x37 + d) as char
  }

  // Both cases are read.
  function Unhex(ch: char): int {
    var n := ch as int;
    if 0x30 <= n <= 0x39 then n - 0x30
    else if 0x41 <= n <= 0x46 then n - 0x37
    else if 0x61 <= n <= 0x66 then n - 0x57
    else -1
  }

  lemma UnhexOfHex(d: int)
    requires 0 <= d < 16
    ensures Unhex(Hex(d)) == d
  {}

  function QuoteByte(b: Byte): (s: string)
    ensures s != "" && forall i :: 0 <= i < |s| ==> s[i] as int < 0x80
  {
    if Unreserved(b) then [b as char] else ['%', Hex(b / 16), Hex(b % 16)]
  }

  // Letters, digits and four marks.
  predicate Plain(ch: char) {
    'A' <= ch <= 'Z' || 'a' <= ch <= 'z' || '0' <= ch <= '9' || ch == '_' || ch == '.' || ch == '-' || ch == '~'
  }

  /** The unreserved characters stand for themselves, and every other byte is a percent sign and two upper-case hex digits. */
  lemma QuotedForm(b: Byte)
    ensures Plain(b as char) ==> QuoteByte(b) == [b as char]
    ensures !Plain(b as char) ==> QuoteByte(b) == ['%', "0123456789ABCDEF"[b / 16], "0123456789ABCDEF"[b % 16]]
  {
    HexIsListed(b / 16);
    HexIsListed(b % 16);
  }

  lemma HexIsListed(d: int)
    requires 0 <= d < 16
    ensures Hex(d) == "0123456789ABCDEF"[d]
  {}

  /** Both cases of a hex digit are read, and nothing else. */
  lemma UnhexReads(ch: char)
    ensures Unhex(ch) >= 0 <==> ch in "0123456789ABCDEFabcdef"
    ensures 0x41 <= ch as int <= 0x46 ==> Unhex(ch) == Unhex((ch as int + 0x20) as char) == ch as int - 0x37
  {}

  function QuoteBytes(b: seq<Byte>): string {
    if b == [] then "" else QuoteByte(b[0]) + QuoteBytes(b[1..])
  }

  // `quote(s, safe="")`
  function Quote(s: string): string {
    QuoteBytes(Utf8(s))
  }

  predicate Ascii(s: string) {
    forall i :: 0 <= i < |s| ==> s[i] as int < 0x80
  }

  /** `unquote_to_bytes` on ASCII text: a percent sign that two hex digits do not follow stands for itself. */
  function UnquoteBytes(s: string): seq<Byte>
    requires Ascii(s)
  {
    if s == "" then []
    else if |s| >= 3 && s[0] == '%' && Unhex(s[1]) >= 0 && Unhex(s[2]) >= 0 then
      [Unhex(s[1]) * 16 + Unhex(s[2])] + UnquoteBytes(s[3..])
    else [s[0] as int] + UnquoteBytes(s[1..])
  }

  function AsciiRun(s: string): (n: nat)
    ensures n <= |s| && Ascii(s[..n]) && (n < |s| ==> s[n] as int >= 0x80)
  {
    if s == "" || s[0] as int >= 0x80 then 0
    else
      var n := AsciiRun(s[1..]);
      assert s[..n + 1] == [s[0]] + s[1..][..n];
      n + 1
  }

  /** `unquote(s)`: runs of ASCII are unquoted and decoded, other characters stay. */
  function Unquote(s: string): string {
    var n := AsciiRun(s);
    var run := Utf8Decode(UnquoteBytes(s[..n]));
    if n == |s| then run else run + [s[n]] + Unquote(s[n + 1..])
  }

  lemma {:induction false} QuotedIsAscii(b: seq<Byte>)
    ensures Ascii(QuoteBytes(b))
  {
    if b != [] { QuotedIsAscii(b[1..]); }
  }

  lemma {:induction false} BytesRoundTrip(b: seq<Byte>)
    ensures Ascii(QuoteBytes(b)) && UnquoteBytes(QuoteBytes(b)) == b
  {
    QuotedIsAscii(b);
    if b != [] {
      var s, tail := QuoteBytes(b), QuoteBytes(b[1..]);
      BytesRoundTrip(b[1..]);
      if Unreserved(b[0]) {
        assert s[1..] == tail;
      } else {
        UnhexOfHex(b[0] / 16);
        UnhexOfHex(b[0] % 16);
        assert s[3..] == tail;
      }
    }
  }

  lemma {:induction false} WholeRun(s: string)
    requires Ascii(s)
    ensures AsciiRun(s) == |s|
  {}

  /** Unquoting inverts quoting, on every string. */
  lemma QuoteRoundTrip(s: string)
    ensures Unquote(Quote(s)) == s
  {
    BytesRoundTrip(Utf8(s));
    WholeRun(Quote(s));
    assert Quote(s)[..|Quote(s)|] == Quote(s);
    Utf8RoundTrip(s);
  }

  /** Text without reserved characters is its own quotation. */
  lemma {:induction false} PlainQuotesItself(s: string)
    requires forall i :: 0 <= i < |s| ==> Plain(s[i])
    ensures Quote(s) == s
  {
    if s != "" {
      assert Plain(s[0]);
      QuotedForm(s[0] as int);
      PlainQuotesItself(s[1..]);
      assert Utf8(s) == [s[0] as int] + Utf8(s[1..]) && Utf8(s)[1..] == Utf8(s[1..]);
    }
  }

  /** A percent sign that two hex digits do not follow stands for itself. */
  lemma PercentStays(rest: string)
    requires Ascii(rest)
    requires |rest| < 2 || rest[0] !in "0123456789ABCDEFabcdef" || rest[1] !in "0123456789ABCDEFabcdef"
    ensures UnquoteBytes("%" + rest) == [0x25] + UnquoteBytes(rest)
  {
    var s := "%" + rest;
    assert s[1..] == rest;
    if |rest| >= 2 {
      UnhexReads(rest[0]);
      UnhexReads(rest[1]);
    }
  }

  lemma {:induction false} QuotedIsSafe(b: seq<Byte>)
    ensures ':' !in QuoteBytes(b) && '#' !in QuoteBytes(b)
  {
    if b != [] { QuotedIsSafe(b[1..]); }
  }

  /** Quoting keeps strings apart and leaves no delimiter in them. */
  lemma QuoteIsInjective(s: string, t: string)
    requires Quote(s) == Quote(t)
    ensures s == t
  {
    QuoteRoundTrip(s);
    QuoteRoundTrip(t);
  }
}
