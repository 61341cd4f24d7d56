/** `encodeURIComponent` and `decodeURIComponent` of ECMA-262 section 19.2.6
    (URI Handling Functions), over Dafny strings, whose characters are Unicode
    scalar values. A character outside the unescaped set is written as the
    UTF-8 bytes of its code point (RFC 3629), each as a `%XX` triple with
    upper-case hexadecimal digits: the percent-encoding of section 2.1 of
    RFC 3986. */
module Uri {
  import opened Wrappers

  type Byte = b: int | 0 <= b < 256

  /** The characters `encodeURIComponent` copies unchanged (uriUnreserved of
      ECMA-262: letters, digits and `-_.!~*'()`). */
  predicate Unescaped(c: char) {
    ('A' <= c <= 'Z') || ('a' <= c <= 'z') || ('0' <= c <= '9') ||
    c == '-' || c == '_' || c == '.' || c == '!' || c == '~' || c == '*' ||
    c == '\'' || c == '(' || c == ')'
  }

  predicate IsUpperHex(c: char) {
    ('0' <= c <= '9') || ('A' <= c <= 'F')
  }

  /** The upper-case hexadecimal digit for `n`. */
  function HexDigit(n: int): (c: char)
    requires 0 <= n < 16
    ensures IsUpperHex(c)
  {
    if n < 10 then (0x30 + n) as char else (0x37 + n) as char
  }

  /** The value of a hexadecimal digit of either case, as the decoder reads it. */
  function HexValue(c: char): (r: Option<int>)
    ensures r.Some? ==> 0 <= r.value < 16
  {
    if '0' <= c <= '9' then Some(c as int - 0x30)
    else if 'A' <= c <= 'F' then Some(c as int - 0x37)
    else if 'a' <= c <= 'f' then Some(c as int - 0x57)
    else None
  }

  /** The UTF-8 encoding of one code point: one to four bytes. */
  function Utf8(c: char): (bs: seq<Byte>)
    ensures 1 <= |bs| <= 4
  {
    var n := c as int;
    if n < 0x80 then [n]
    else if n < 0x800 then [0xC0 + n / 0x40, 0x80 + n % 0x40]
    else if n < 0x10000 then [0xE0 + n / 0x1000, 0x80 + n / 0x40 % 0x40, 0x80 + n % 0x40]
    else [0xF0 + n / 0x40000, 0x80 + n / 0x1000 % 0x40, 0x80 + n / 0x40 % 0x40, 0x80 + n % 0x40]
  }

  /** How many bytes a sequence starting with `b` has, read from its leading one
      bits; 0 when `b` cannot start a sequence (a continuation byte, or five or
      more leading ones). */
  function SequenceLength(b: Byte): nat {
    if b < 0x80 then 1
    else if b < 0xC0 then 0
    else if b < 0xE0 then 2
    else if b < 0xF0 then 3
    else if b < 0xF8 then 4
    else 0
  }

  predicate IsContinuation(b: Byte) {
    0x80 <= b < 0xC0
  }

  /** The code point that `bs` is the UTF-8 encoding of, or None when `bs` is
      not exactly one well-formed sequence (overlong forms, surrogates and
      values above U+10FFFF are refused). */
  function Utf8Decode(bs: seq<Byte>): Option<char> {
    if |bs| == 1 && bs[0] < 0x80 then
      Some(bs[0] as char)
    else if |bs| == 2 && 0xC0 <= bs[0] < 0xE0 && IsContinuation(bs[1]) then
      var n := (bs[0] as int - 0xC0) * 0x40 + (bs[1] as int - 0x80);
      if n < 0x80 then None else Some(n as char)
    else if |bs| == 3 && 0xE0 <= bs[0] < 0xF0 && IsContinuation(bs[1]) && IsContinuation(bs[2]) then
      var n := (bs[0] as int - 0xE0) * 0x1000 + (bs[1] as int - 0x80) * 0x40 + (bs[2] as int - 0x80);
      if n < 0x800 || 0xD800 <= n < 0xE000 then None else Some(n as char)
    else if |bs| == 4 && 0xF0 <= bs[0] < 0xF8 && IsContinuation(bs[1]) && IsContinuation(bs[2]) && IsContinuation(bs[3]) then
      var n := (bs[0] as int - 0xF0) * 0x40000 + (bs[1] as int - 0x80) * 0x1000
        + (bs[2] as int - 0x80) * 0x40 + (bs[3] as int - 0x80);
      if n < 0x10000 || 0x110000 <= n then None else Some(n as char)
    else
      None
  }

  /** Each byte as a `%XX` triple. */
  function PercentEncode(bs: seq<Byte>): (s: string)
    ensures |s| == 3 * |bs|
  {
    if bs == [] then [] else ['%', HexDigit(bs[0] / 16), HexDigit(bs[0] % 16)] + PercentEncode(bs[1..])
  }

  /** One character as `encodeURIComponent` writes it: itself when unescaped,
      otherwise one to four `%XX` triples. */
  function EncodeChar(c: char): (r: string)
    ensures Unescaped(c) <==> r == [c]
    ensures !Unescaped(c) ==> 3 <= |r| <= 12 && |r| % 3 == 0 && r[0] == '%'
  {
    if Unescaped(c) then [c] else PercentEncode(Utf8(c))
  }

  /** `encodeURIComponent(s)`: a string of the encoded shape, from which
      `decodeURIComponent` recovers `s` exactly and without error. */
  function Encode(s: string): (r: string)
    ensures IsEncoded(r)
    ensures Decode(r) == Some(s)
  {
    if s == [] then []
    else
      var rest := Encode(s[1..]);
      EncodeCharIsEncoded(s[0], rest);
      DecodeEncodeChar(s[0], rest);
      assert [s[0]] + s[1..] == s;
      EncodeChar(s[0]) + rest
  }

  /** The byte written by the `%XX` triple at the start of `s`, if there is one. */
  function ReadEscape(s: string): (r: Option<Byte>)
    ensures r.Some? ==> |s| >= 3 && s[0] == '%'
  {
    if |s| >= 3 && s[0] == '%' then
      match (HexValue(s[1]), HexValue(s[2]))
      case (Some(h), Some(l)) => Some(h * 16 + l)
      case _ => None
    else None
  }

  /** The bytes of `n` consecutive `%XX` triples at the start of `s`. */
  function ReadEscapes(s: string, n: nat): (r: Option<seq<Byte>>)
    ensures r.Some? ==> |r.value| == n && 3 * n <= |s|
  {
    if n == 0 then Some([])
    else match ReadEscape(s)
      case None => None
      case Some(b) =>
        match ReadEscapes(s[3..], n - 1)
        case None => None
        case Some(rest) => Some([b] + rest)
  }

  /** `decodeURIComponent(s)`; None where the built-in throws a URIError (a `%`
      not followed by two hexadecimal digits, or escapes that do not form one
      well-formed UTF-8 sequence). Characters other than `%` are copied. */
  function Decode(s: string): (r: Option<string>)
    ensures '%' !in s ==> r == Some(s)
    ensures r.Some? ==> |r.value| <= |s|
    decreases |s|
  {
    if s == [] then Some([])
    else if s[0] != '%' then
      assert s == [s[0]] + s[1..];
      match Decode(s[1..])
      case None => None
      case Some(t) => Some([s[0]] + t)
    else
      match ReadEscape(s)
      case None => None
      case Some(b) =>
        var n := SequenceLength(b);
        if n == 0 then None
        else
          match ReadEscapes(s, n)
          case None => None
          case Some(bs) =>
            match Utf8Decode(bs)
            case None => None
            case Some(c) =>
              match Decode(s[3 * n..])
              case None => None
              case Some(t) => Some([c] + t)
  }

  /** Reading a hexadecimal digit back gives the number it was written for. */
  lemma HexRoundTrip(b: Byte)
    ensures HexValue(HexDigit(b / 16)) == Some(b / 16)
    ensures HexValue(HexDigit(b % 16)) == Some(b % 16)
  {
  }

  lemma Utf8RoundTrip2(c: char)
    requires 0x80 <= c as int < 0x800
    ensures Utf8Decode(Utf8(c)) == Some(c)
  {
    var n := c as int;
    var q, r := n / 0x40, n % 0x40;
    assert n == q * 0x40 + r;
    assert Utf8(c) == [0xC0 + q, 0x80 + r];
  }

  lemma Utf8RoundTrip3(c: char)
    requires 0x800 <= c as int < 0x10000
    ensures Utf8Decode(Utf8(c)) == Some(c)
  {
    var n := c as int;
    var a, b, r := n / 0x1000, n / 0x40 % 0x40, n % 0x40;
    assert n / 0x40 == a * 0x40 + b;
    assert n == (n / 0x40) * 0x40 + r;
    assert Utf8(c) == [0xE0 + a, 0x80 + b, 0x80 + r];
  }

  lemma Utf8RoundTrip4(c: char)
    requires 0x10000 <= c as int
    ensures Utf8Decode(Utf8(c)) == Some(c)
  {
    var n := c as int;
    var a, b, d, r := n / 0x40000, n / 0x1000 % 0x40, n / 0x40 % 0x40, n % 0x40;
    assert n / 0x1000 == a * 0x40 + b;
    assert n / 0x40 == (n / 0x1000) * 0x40 + d;
    assert n == (n / 0x40) * 0x40 + r;
    assert Utf8(c) == [0xF0 + a, 0x80 + b, 0x80 + d, 0x80 + r];
  }

  /** UTF-8 decoding undoes UTF-8 encoding, and the first byte announces the
      length of the sequence. */
  lemma Utf8RoundTrip(c: char)
    ensures SequenceLength(Utf8(c)[0]) == |Utf8(c)|
    ensures Utf8Decode(Utf8(c)) == Some(c)
  {
    var n := c as int;
    if n < 0x80 {
    } else if n < 0x800 {
      Utf8RoundTrip2(c);
    } else if n < 0x10000 {
      Utf8RoundTrip3(c);
    } else {
      Utf8RoundTrip4(c);
    }
  }

  /** The `%XX` triples of `bs` read back as `bs`, whatever follows them. */
  lemma {:induction false} ReadEscapesRoundTrip(bs: seq<Byte>, rest: string)
    ensures ReadEscapes(PercentEncode(bs) + rest, |bs|) == Some(bs)
  {
    if bs != [] {
      var s := PercentEncode(bs) + rest;
      HexRoundTrip(bs[0]);
      assert s[0] == '%' && s[1] == HexDigit(bs[0] / 16) && s[2] == HexDigit(bs[0] % 16);
      assert ReadEscape(s) == Some(bs[0]);
      assert s[3..] == PercentEncode(bs[1..]) + rest;
      ReadEscapesRoundTrip(bs[1..], rest);
      assert [bs[0]] + bs[1..] == bs;
    }
  }

  /** Decoding one encoded character followed by anything decodes that character
      and then the rest. */
  lemma DecodeEncodeChar(c: char, rest: string)
    ensures Decode(EncodeChar(c) + rest) ==
      match Decode(rest)
      case None => None
      case Some(t) => Some([c] + t)
  {
    var s := EncodeChar(c) + rest;
    if Unescaped(c) {
      assert s[0] == c && s[1..] == rest;
    } else {
      var bs := Utf8(c);
      Utf8RoundTrip(c);
      ReadEscapesRoundTrip(bs, rest);
      HexRoundTrip(bs[0]);
      assert s[0] == '%' && s[1] == HexDigit(bs[0] / 16) && s[2] == HexDigit(bs[0] % 16);
      assert ReadEscape(s) == Some(bs[0]);
      assert s[3 * |bs|..] == rest;
    }
  }

  /** A line break is written as `%0A`, a space as `%20`. */
  lemma EncodeLineBreakAndSpace()
    ensures Encode("\n") == "%0A" && Encode(" ") == "%20"
  {
  }

  /** Different strings never encode alike. */
  lemma EncodeInjective(s: string, t: string)
    requires Encode(s) == Encode(t)
    ensures s == t
  {
    assert Decode(Encode(s)) == Some(s) && Decode(Encode(t)) == Some(t);
  }

  /** The shape of every encoded string: unescaped characters and `%XX` triples
      with upper-case hexadecimal digits, nothing else. */
  predicate IsEncoded(t: string)
    decreases |t|
  {
    t == [] ||
    (Unescaped(t[0]) && IsEncoded(t[1..])) ||
    (|t| >= 3 && t[0] == '%' && IsUpperHex(t[1]) && IsUpperHex(t[2]) && IsEncoded(t[3..]))
  }

  lemma {:induction false} PercentEncodeIsEncoded(bs: seq<Byte>, rest: string)
    requires IsEncoded(rest)
    ensures IsEncoded(PercentEncode(bs) + rest)
  {
    if bs != [] {
      var s := PercentEncode(bs) + rest;
      assert s[0] == '%' && IsUpperHex(s[1]) && IsUpperHex(s[2]);
      assert s[3..] == PercentEncode(bs[1..]) + rest;
      PercentEncodeIsEncoded(bs[1..], rest);
    } else {
      assert PercentEncode(bs) + rest == rest;
    }
  }

  /** An encoded character in front of an encoded string keeps the shape. */
  lemma EncodeCharIsEncoded(c: char, rest: string)
    requires IsEncoded(rest)
    ensures IsEncoded(EncodeChar(c) + rest)
  {
    if Unescaped(c) {
      assert (EncodeChar(c) + rest)[1..] == rest;
    } else {
      PercentEncodeIsEncoded(Utf8(c), rest);
    }
  }

  /** Every character of an encoded string is unescaped, `%` or an upper-case
      hexadecimal digit. */
  lemma {:induction false} EncodedCharacters(t: string)
    requires IsEncoded(t)
    ensures forall i | 0 <= i < |t| :: Unescaped(t[i]) || t[i] == '%' || IsUpperHex(t[i])
  {
    if t != [] {
      if Unescaped(t[0]) && IsEncoded(t[1..]) {
        EncodedCharacters(t[1..]);
        assert forall i | 1 <= i < |t| :: t[i] == t[1..][i - 1];
      } else {
        EncodedCharacters(t[3..]);
        assert forall i | 3 <= i < |t| :: t[i] == t[3..][i - 3];
      }
    }
  }

  lemma Excluded(t: string, d: char)
    requires forall i | 0 <= i < |t| :: Unescaped(t[i]) || t[i] == '%' || IsUpperHex(t[i])
    requires !Unescaped(d) && d != '%' && !IsUpperHex(d)
    ensures d !in t
  {
  }

  /** An encoded component never holds a raw URI or query delimiter, a space or
      a line break, so it can be dropped between `?`, `&` and `=` safely. */
  lemma EncodeHasNoDelimiters(s: string)
    ensures '&' !in Encode(s) && '=' !in Encode(s) && '?' !in Encode(s)
    ensures '#' !in Encode(s) && ' ' !in Encode(s) && '\n' !in Encode(s)
  {
    var t := Encode(s);
    EncodedCharacters(t);
    Excluded(t, '&');
    Excluded(t, '=');
    Excluded(t, '?');
    Excluded(t, '#');
    Excluded(t, ' ');
    Excluded(t, '\n');
  }
}
