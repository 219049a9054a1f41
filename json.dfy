/**
 * `json_encode` with PHP's default flags, for the flat string-to-string arrays the
 * tools return. Strings are escaped the way PHP does it by default: `"`, `\` and `/`
 * get a backslash, the short control escapes are used where JSON has them, other
 * control characters and every non-ASCII character become `\uXXXX` (lower-case hex,
 * a surrogate pair above U+FFFF). The empty array encodes as `[]`, any other array
 * with string keys as an object.
 *
 * The partner of the escaping is a JSON string-body decoder; the round trip is proved.
 */
module Json {
  import opened Exceptions

  const HexDigits: string := "0123456789abcdef"

  /** Four lower-case hex digits of a 16-bit number. */
  function Hex4(n: nat): (h: string)
    requires n < 0x1_0000
    ensures |h| == 4
  {
    var a := n / 0x1000;
    var r := n % 0x1000;
    var b := r / 0x100;
    var r2 := r % 0x100;
    [HexDigits[a], HexDigits[b], HexDigits[r2 / 0x10], HexDigits[r2 % 0x10]]
  }

  /** `\uXXXX` for one UTF-16 code unit. */
  function UnicodeEscape(unit: nat): string
    requires unit < 0x1_0000
  {
    "\\u" + Hex4(unit)
  }

  /** The leading (high) UTF-16 surrogate of a supplementary code point. */
  function High(n: int): (u: nat)
    requires 0x1_0000 <= n < 0x11_0000
    ensures 0xD800 <= u < 0xDC00
  {
    0xD800 + (n - 0x1_0000) / 0x400
  }

  /** The trailing (low) UTF-16 surrogate of a supplementary code point. */
  function Low(n: int): (u: nat)
    requires 0x1_0000 <= n < 0x11_0000
    ensures 0xDC00 <= u < 0xE000
  {
    0xDC00 + (n - 0x1_0000) % 0x400
  }

  /** How json_encode writes one character inside a string. */
  function EscapeChar(c: char): string {
    var n := c as int;
    if c == '"' then "\\\""
    else if c == '\\' then "\\\\"
    else if c == '/' then "\\/"
    else if n == 0x08 then "\\b"
    else if n == 0x0C then "\\f"
    else if c == '\n' then "\\n"
    else if c == '\r' then "\\r"
    else if c == '\t' then "\\t"
    else if n < 0x20 then UnicodeEscape(n)
    else if n < 0x80 then [c]
    else if n < 0x1_0000 then UnicodeEscape(n)
    else UnicodeEscape(High(n)) + UnicodeEscape(Low(n))
  }

  /** The body of a JSON string literal for s. */
  function Escape(s: string): string
    decreases |s|
  {
    if s == [] then "" else EscapeChar(s[0]) + Escape(s[1..])
  }

  /** A JSON string literal. */
  function Quote(s: string): string {
    "\"" + Escape(s) + "\""
  }

  /** `"key":"value"`, then each further member after a comma. */
  function Members(entries: seq<(string, string)>): string
    requires entries != []
    decreases |entries|
  {
    var m := Quote(entries[0].0) + ":" + Quote(entries[0].1);
    if |entries| == 1 then m else m + "," + Members(entries[1..])
  }

  /**
   * `json_encode($result)` for an array whose keys are non-numeric strings and whose
   * values are strings: `[]` when empty (PHP cannot tell an empty map from an empty
   * list), an object otherwise.
   */
  function EncodeStringMap(entries: seq<(string, string)>): string {
    if entries == [] then "[]" else "{" + Members(entries) + "}"
  }

  // ---------------------------------------------------------------------------
  // Decoding, the partner of Escape.

  /** The value of one hex digit, either case. */
  function HexValue(c: char): (r: int)
    ensures -1 <= r < 16
  {
    if '0' <= c <= '9' then c as int - '0' as int
    else if 'a' <= c <= 'f' then c as int - 'a' as int + 10
    else if 'A' <= c <= 'F' then c as int - 'A' as int + 10
    else -1
  }

  /** Four hex digits read as a number, or -1. */
  function ParseHex4(h: string): (r: int)
    requires |h| == 4
    ensures -1 <= r < 0x1_0000
  {
    var a, b, c, d := HexValue(h[0]), HexValue(h[1]), HexValue(h[2]), HexValue(h[3]);
    if a < 0 || b < 0 || c < 0 || d < 0 then -1 else a * 0x1000 + b * 0x100 + c * 0x10 + d
  }

  function Prepend(c: char, r: Option<string>): Option<string> {
    match r
    case Some(s) => Some([c] + s)
    case None => None
  }

  /** The character a two-character escape `\x` stands for. */
  function ShortEscape(x: char): Option<char> {
    if x == '"' then Some('"')
    else if x == '\\' then Some('\\')
    else if x == '/' then Some('/')
    else if x == 'b' then Some(0x08 as char)
    else if x == 'f' then Some(0x0C as char)
    else if x == 'n' then Some('\n')
    else if x == 'r' then Some('\r')
    else if x == 't' then Some('\t')
    else None
  }

  /** The code point a surrogate pair stands for. */
  function Combine(hi: int, lo: int): int {
    0x1_0000 + (hi - 0xD800) * 0x400 + (lo - 0xDC00)
  }

  /** Decoding of a JSON string body (RFC 8259, section 7); None for a malformed one. */
  function Unescape(t: string): Option<string>
    decreases |t|, 1
  {
    if t == [] then Some("")
    else if t[0] == '"' || (t[0] as int) < 0x20 then None
    else if t[0] != '\\' then Prepend(t[0], Unescape(t[1..]))
    else if |t| < 2 then None
    else if t[1] != 'u' then
      (match ShortEscape(t[1])
       case Some(c) => Prepend(c, Unescape(t[2..]))
       case None => None)
    else UnescapeUnit(t)
  }

  /** Decoding from a `\u` escape on: one code unit, or a surrogate pair. */
  function UnescapeUnit(t: string): Option<string>
    requires |t| >= 2 && t[..2] == "\\u"
    decreases |t|, 0
  {
    if |t| < 6 then None
    else
      var u := ParseHex4(t[2..6]);
      if u < 0 || 0xDC00 <= u < 0xE000 then None
      else if u < 0xD800 || 0xE000 <= u then Prepend(u as char, Unescape(t[6..]))
      else if |t| < 12 || t[6..8] != "\\u" then None
      else
        var l := ParseHex4(t[8..12]);
        if l < 0xDC00 || l >= 0xE000 then None
        else
          assert 0x1_0000 <= Combine(u, l) < 0x11_0000;
          Prepend(Combine(u, l) as char, Unescape(t[12..]))
  }

  lemma HexDigitValue(d: nat)
    requires d < 16
    ensures HexValue(HexDigits[d]) == d
  {
  }

  lemma Hex4RoundTrip(n: nat)
    requires n < 0x1_0000
    ensures ParseHex4(Hex4(n)) == n
  {
    var a := n / 0x1000;
    var r := n % 0x1000;
    var b := r / 0x100;
    var r2 := r % 0x100;
    HexDigitValue(a);
    HexDigitValue(b);
    HexDigitValue(r2 / 0x10);
    HexDigitValue(r2 % 0x10);
  }

  /** A `\uXXXX` escape of a non-surrogate code point decodes to that character. */
  lemma UnescapeBmp(c: char, rest: string)
    requires (c as int) < 0x1_0000
    ensures Unescape(UnicodeEscape(c as int) + rest) == Prepend(c, Unescape(rest))
  {
    var n := c as int;
    var t := UnicodeEscape(n) + rest;
    Hex4RoundTrip(n);
    assert t[2..6] == Hex4(n);
    assert t[6..] == rest;
  }

  /** The two code units of a supplementary character combine back into it. */
  lemma Surrogates(n: int)
    requires 0x1_0000 <= n < 0x11_0000
    ensures Combine(High(n), Low(n)) == n
  {
  }

  /** Decoding a well-formed surrogate-pair escape. */
  lemma UnescapeUnitPair(t: string, hi: int, lo: int)
    requires 0xD800 <= hi < 0xDC00 <= lo < 0xE000
    requires |t| >= 12 && t[..2] == "\\u" && t[6..8] == "\\u"
    requires ParseHex4(t[2..6]) == hi && ParseHex4(t[8..12]) == lo
    ensures 0x1_0000 <= Combine(hi, lo) < 0x11_0000
    ensures UnescapeUnit(t) == Prepend(Combine(hi, lo) as char, Unescape(t[12..]))
  {
  }

  /** The pieces of two six-character escapes followed by the rest. */
  lemma PairSlices(a: string, b: string, rest: string)
    requires |a| == 6 && |b| == 6
    ensures var t := a + b + rest;
      t[..2] == a[..2] && t[2..6] == a[2..] && t[6..8] == b[..2] && t[8..12] == b[2..] && t[12..] == rest
  {
  }

  /** A surrogate pair decodes to the supplementary character it encodes. */
  lemma UnescapePair(c: char, rest: string)
    requires (c as int) >= 0x1_0000
    ensures Unescape(EscapeChar(c) + rest) == Prepend(c, Unescape(rest))
  {
    var n := c as int;
    var hi, lo := High(n), Low(n);
    Surrogates(n);
    var a, b := UnicodeEscape(hi), UnicodeEscape(lo);
    assert EscapeChar(c) == a + b;
    var t := a + b + rest;
    Hex4RoundTrip(hi);
    Hex4RoundTrip(lo);
    PairSlices(a, b, rest);
    assert a[2..] == Hex4(hi) && b[2..] == Hex4(lo);
    UnescapeUnitPair(t, hi, lo);
    assert t[0] == '\\' && t[1] == 'u';
  }

  /** One escaped character, then anything: the decoder gives the character back first. */
  lemma UnescapeChar(c: char, rest: string)
    ensures Unescape(EscapeChar(c) + rest) == Prepend(c, Unescape(rest))
  {
    var n := c as int;
    if c == '"' || c == '\\' || c == '/' || n == 0x08 || n == 0x0C || c == '\n' || c == '\r' || c == '\t' {
      var t := EscapeChar(c) + rest;
      assert |EscapeChar(c)| == 2;
      assert t[2..] == rest;
    } else if n < 0x20 || 0x80 <= n < 0x1_0000 {
      assert EscapeChar(c) == UnicodeEscape(n);
      UnescapeBmp(c, rest);
    } else if n < 0x80 {
      var t := EscapeChar(c) + rest;
      assert EscapeChar(c) == [c];
      assert t[1..] == rest;
    } else {
      UnescapePair(c, rest);
    }
  }

  /** Only ASCII characters. */
  predicate Plain(t: string) {
    forall i :: 0 <= i < |t| ==> (t[i] as int) < 0x80
  }

  lemma UnicodeEscapeIsPlain(unit: nat)
    requires unit < 0x1_0000
    ensures Plain(UnicodeEscape(unit))
  {
    assert forall d :: 0 <= d < 16 ==> (HexDigits[d] as int) < 0x80;
  }

  /** The characters json_encode writes for one character are ASCII. */
  lemma EscapeCharIsPlain(c: char)
    ensures Plain(EscapeChar(c))
  {
    var n := c as int;
    if c == '"' || c == '\\' || c == '/' || n == 0x08 || n == 0x0C || c == '\n' || c == '\r' || c == '\t' {
    } else if n < 0x20 || 0x80 <= n < 0x1_0000 {
      UnicodeEscapeIsPlain(n);
    } else if n < 0x80 {
    } else {
      UnicodeEscapeIsPlain(High(n));
      UnicodeEscapeIsPlain(Low(n));
    }
  }

  /** Decoding undoes json_encode's escaping, for every string. */
  lemma {:induction false} EscapeRoundTrip(s: string)
    ensures Unescape(Escape(s)) == Some(s)
    decreases |s|
  {
    if s != [] {
      EscapeRoundTrip(s[1..]);
      UnescapeChar(s[0], Escape(s[1..]));
      assert [s[0]] + s[1..] == s;
    }
  }

  /** json_encode's output is plain ASCII, whatever the input. */
  lemma {:induction false} EscapeIsAscii(s: string)
    ensures forall i :: 0 <= i < |Escape(s)| ==> (Escape(s)[i] as int) < 0x80
    decreases |s|
  {
    if s != [] {
      EscapeIsAscii(s[1..]);
      EscapeCharIsPlain(s[0]);
      assert Escape(s) == EscapeChar(s[0]) + Escape(s[1..]);
    }
  }
}
