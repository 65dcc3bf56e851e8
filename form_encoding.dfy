/** The `application/x-www-form-urlencoded` serializer that `URLSearchParams`
    uses to build the mock checkout URL (UTF-8 encode, then percent-encode
    every byte outside ASCII alphanumerics and `*-._`, with a space written as
    `+`), together with the matching parser, so that what the URL carries can
    be read back. */
module FormEncoding {
  import opened Options
  import opened TextUtil

  type Byte = b: int | 0 <= b < 256

  /** UTF-8 encoding of one Unicode scalar value. */
  function Utf8Char(c: char): (r: seq<Byte>)
    ensures 1 <= |r| <= 4
  {
    var n := c as int;
    if n < 0x80 then [n]
    else if n < 0x800 then [0xC0 + n / 64, 0x80 + n % 64]
    else if n < 0x10000 then [0xE0 + n / 4096, 0x80 + (n / 64) % 64, 0x80 + n % 64]
    else [0xF0 + n / 262144, 0x80 + (n / 4096) % 64, 0x80 + (n / 64) % 64, 0x80 + n % 64]
  }

  function Utf8Encode(s: string): seq<Byte> {
    if |s| == 0 then [] else Utf8Char(s[0]) + Utf8Encode(s[1..])
  }

  predicate IsContinuation(b: Byte) {
    0x80 <= b < 0xC0
  }

  predicate IsScalar(n: int) {
    (0 <= n < 0xD800) || (0xE000 <= n < 0x110000)
  }

  /** Decodes the character at the head of `bs` and says how many bytes it
      took; rejects truncated, overlong and surrogate sequences. */
  function DecodeChar(bs: seq<Byte>): (r: Option<(char, nat)>)
    requires |bs| >= 1
    ensures r.Some? ==> 1 <= r.value.1 <= |bs|
  {
    var b0: int := bs[0];
    if b0 < 0x80 then Some((b0 as char, 1))
    else if 0xC0 <= b0 < 0xE0 && |bs| >= 2 && IsContinuation(bs[1]) then
      var n := (b0 - 0xC0) * 64 + (bs[1] as int - 0x80);
      if 0x80 <= n then Some((n as char, 2)) else None
    else if 0xE0 <= b0 < 0xF0 && |bs| >= 3 && IsContinuation(bs[1]) && IsContinuation(bs[2]) then
      var n := (b0 - 0xE0) * 4096 + (bs[1] as int - 0x80) * 64 + (bs[2] as int - 0x80);
      if 0x800 <= n && IsScalar(n) then Some((n as char, 3)) else None
    else if 0xF0 <= b0 < 0xF8 && |bs| >= 4 && IsContinuation(bs[1]) && IsContinuation(bs[2]) && IsContinuation(bs[3]) then
      var n := (b0 - 0xF0) * 262144 + (bs[1] as int - 0x80) * 4096 + (bs[2] as int - 0x80) * 64 + (bs[3] as int - 0x80);
      if 0x10000 <= n < 0x110000 then Some((n as char, 4)) else None
    else None
  }

  function Utf8Decode(bs: seq<Byte>): Option<string>
    decreases |bs|
  {
    if |bs| == 0 then Some("")
    else match DecodeChar(bs)
      case None => None
      case Some((c, k)) =>
        match Utf8Decode(bs[k..])
        case None => None
        case Some(rest) => Some([c] + rest)
  }

  lemma FourByteSplit(n: int)
    requires 0x10000 <= n < 0x110000
    ensures (n / 262144) * 262144 + ((n / 4096) % 64) * 4096 + ((n / 64) % 64) * 64 + n % 64 == n
  {
    assert n / 4096 == (n / 262144) * 64 + (n / 4096) % 64;
    assert n / 64 == (n / 4096) * 64 + (n / 64) % 64;
    assert n == (n / 64) * 64 + n % 64;
  }

  lemma ThreeByteSplit(n: int)
    requires 0x800 <= n < 0x10000
    ensures (n / 4096) * 4096 + ((n / 64) % 64) * 64 + n % 64 == n
  {
    assert n / 64 == (n / 4096) * 64 + (n / 64) % 64;
    assert n == (n / 64) * 64 + n % 64;
  }

  /** Decoding the encoding of one character gives that character back and
      consumes exactly its bytes, whatever follows. */
  lemma DecodeCharOfEncoding(c: char, rest: seq<Byte>)
    ensures DecodeChar(Utf8Char(c) + rest) == Some((c, |Utf8Char(c)|))
  {
    var n := c as int;
    var bs := Utf8Char(c) + rest;
    if n < 0x80 {
    } else if n < 0x800 {
      assert bs[0] == 0xC0 + n / 64 && bs[1] == 0x80 + n % 64;
    } else if n < 0x10000 {
      assert bs[0] == 0xE0 + n / 4096 && bs[1] == 0x80 + (n / 64) % 64 && bs[2] == 0x80 + n % 64;
      ThreeByteSplit(n);
    } else {
      assert bs[0] == 0xF0 + n / 262144 && bs[1] == 0x80 + (n / 4096) % 64;
      assert bs[2] == 0x80 + (n / 64) % 64 && bs[3] == 0x80 + n % 64;
      FourByteSplit(n);
    }
  }

  /** UTF-8 decoding undoes UTF-8 encoding. */
  lemma {:induction false} Utf8RoundTrip(s: string)
    ensures Utf8Decode(Utf8Encode(s)) == Some(s)
  {
    if |s| > 0 {
      var head := Utf8Char(s[0]);
      DecodeCharOfEncoding(s[0], Utf8Encode(s[1..]));
      assert (head + Utf8Encode(s[1..]))[|head|..] == Utf8Encode(s[1..]);
      Utf8RoundTrip(s[1..]);
      assert [s[0]] + s[1..] == s;
    }
  }

  /** Bytes written as themselves: ASCII letters, digits and `*-._`. */
  predicate Unreserved(b: Byte) {
    (0x30 <= b <= 0x39) || (0x41 <= b <= 0x5A) || (0x61 <= b <= 0x7A)
    || b == 0x2A || b == 0x2D || b == 0x2E || b == 0x5F
  }

  function HexDigit(d: nat): (c: char)
    requires d < 16
  {
    if d < 10 then ('0' as int + d) as char else ('A' as int + d - 10) as char
  }

  predicate IsHex(c: char) {
    ('0' <= c <= '9') || ('A' <= c <= 'F') || ('a' <= c <= 'f')
  }

  function HexValue(c: char): (d: nat)
    requires IsHex(c)
    ensures d < 16
  {
    if '0' <= c <= '9' then c as int - '0' as int
    else if 'A' <= c <= 'F' then c as int - 'A' as int + 10
    else c as int - 'a' as int + 10
  }

  function PercentEncodeByte(b: Byte): string {
    if Unreserved(b) then [b as char]
    else if b == 0x20 then "+"
    else ['%', HexDigit(b / 16), HexDigit(b % 16)]
  }

  function PercentEncode(bs: seq<Byte>): string {
    if |bs| == 0 then "" else PercentEncodeByte(bs[0]) + PercentEncode(bs[1..])
  }

  /** The form-urlencoded serialization of one name or value. */
  function FormEncode(s: string): string {
    PercentEncode(Utf8Encode(s))
  }

  /** The parser's byte recovery: `+` is a space, `%` with two hex digits is
      that byte, any other character stands for its own UTF-8 bytes. */
  function PercentDecode(t: string): seq<Byte>
    decreases |t|
  {
    if |t| == 0 then []
    else if t[0] == '+' then [0x20] + PercentDecode(t[1..])
    else if t[0] == '%' && |t| >= 3 && IsHex(t[1]) && IsHex(t[2]) then
      [HexValue(t[1]) * 16 + HexValue(t[2])] + PercentDecode(t[3..])
    else Utf8Char(t[0]) + PercentDecode(t[1..])
  }

  /** Decodes one name or value; `None` when the bytes are not UTF-8. */
  function FormDecode(t: string): Option<string> {
    Utf8Decode(PercentDecode(t))
  }

  lemma PercentDecodeOfEncodedByte(b: Byte, t: string)
    ensures PercentDecode(PercentEncodeByte(b) + t) == [b] + PercentDecode(t)
  {
    var e := PercentEncodeByte(b) + t;
    if Unreserved(b) {
      assert e[0] == b as char && e[1..] == t;
    } else if b == 0x20 {
      assert e[0] == '+' && e[1..] == t;
    } else {
      assert e[0] == '%' && e[1] == HexDigit(b / 16) && e[2] == HexDigit(b % 16) && e[3..] == t;
    }
  }

  lemma {:induction false} PercentRoundTrip(bs: seq<Byte>)
    ensures PercentDecode(PercentEncode(bs)) == bs
  {
    if |bs| > 0 {
      PercentDecodeOfEncodedByte(bs[0], PercentEncode(bs[1..]));
      PercentRoundTrip(bs[1..]);
      assert [bs[0]] + bs[1..] == bs;
    }
  }

  /** Decoding a serialized name or value gives it back. */
  lemma FormRoundTrip(s: string)
    ensures FormDecode(FormEncode(s)) == Some(s)
  {
    PercentRoundTrip(Utf8Encode(s));
    Utf8RoundTrip(s);
  }

  /** Characters the serializer can emit. */
  predicate FormSafe(c: char) {
    ('0' <= c <= '9') || ('A' <= c <= 'Z') || ('a' <= c <= 'z')
    || c == '*' || c == '-' || c == '.' || c == '_' || c == '+' || c == '%'
  }

  lemma {:induction false} PercentEncodeIsSafe(bs: seq<Byte>)
    ensures forall i :: 0 <= i < |PercentEncode(bs)| ==> FormSafe(PercentEncode(bs)[i])
  {
    if |bs| > 0 {
      PercentEncodeIsSafe(bs[1..]);
    }
  }

  /** A serialized name or value never contains the pair separator `&` or
      the name/value separator `=`. */
  lemma FormEncodeHasNoSeparators(s: string)
    ensures '&' !in FormEncode(s) && '=' !in FormEncode(s)
  {
    PercentEncodeIsSafe(Utf8Encode(s));
  }

  /** `name=value` pieces of a query string, in order. */
  function EncodedPairs(pairs: seq<(string, string)>): (r: seq<string>)
    ensures |r| == |pairs|
  {
    if |pairs| == 0 then []
    else [FormEncode(pairs[0].0) + "=" + FormEncode(pairs[0].1)] + EncodedPairs(pairs[1..])
  }

  /** `new URLSearchParams(pairs).toString()`. */
  function SerializeQuery(pairs: seq<(string, string)>): string {
    Join(EncodedPairs(pairs), '&')
  }

  /** One `name=value` piece, split at its first `=`; a piece without `=` is a
      name with an empty value. */
  function DecodePair(piece: string): Option<(string, string)> {
    var i := IndexOf(piece, '=');
    var name := FormDecode(piece[..i]);
    var value := if i < |piece| then FormDecode(piece[i + 1..]) else Some("");
    if name.Some? && value.Some? then Some((name.value, value.value)) else None
  }

  function DecodePieces(pieces: seq<string>): Option<seq<(string, string)>> {
    if |pieces| == 0 then Some([])
    else if pieces[0] == "" then DecodePieces(pieces[1..])
    else match (DecodePair(pieces[0]), DecodePieces(pieces[1..]))
      case (Some(p), Some(rest)) => Some([p] + rest)
      case _ => None
  }

  /** Reads a query string back into its name/value pairs, skipping empty
      pieces, as `URLSearchParams` does when it parses. */
  function ParseQuery(q: string): Option<seq<(string, string)>> {
    DecodePieces(Split(q, '&'))
  }

  lemma DecodePairOfEncoded(name: string, value: string)
    ensures DecodePair(FormEncode(name) + "=" + FormEncode(value)) == Some((name, value))
  {
    var n, v := FormEncode(name), FormEncode(value);
    var piece := n + "=" + v;
    FormEncodeHasNoSeparators(name);
    assert piece[|n|] == '=';
    assert forall j :: 0 <= j < |n| ==> piece[j] == n[j] && piece[j] != '=';
    assert IndexOf(piece, '=') == |n|;
    assert piece[..|n|] == n && piece[|n| + 1..] == v;
    FormRoundTrip(name);
    FormRoundTrip(value);
  }

  lemma {:induction false} EncodedPairsHaveNoAmpersand(pairs: seq<(string, string)>)
    ensures forall i :: 0 <= i < |pairs| ==> '&' !in EncodedPairs(pairs)[i]
  {
    if |pairs| > 0 {
      EncodedPairsHaveNoAmpersand(pairs[1..]);
      FormEncodeHasNoSeparators(pairs[0].0);
      FormEncodeHasNoSeparators(pairs[0].1);
      var p := FormEncode(pairs[0].0) + "=" + FormEncode(pairs[0].1);
      assert '&' !in p;
      assert EncodedPairs(pairs)[0] == p;
      assert forall i :: 1 <= i < |pairs| ==> EncodedPairs(pairs)[i] == EncodedPairs(pairs[1..])[i - 1];
    }
  }

  lemma {:induction false} DecodeEncodedPairs(pairs: seq<(string, string)>)
    ensures DecodePieces(EncodedPairs(pairs)) == Some(pairs)
  {
    if |pairs| > 0 {
      var e := EncodedPairs(pairs);
      assert e[0] == FormEncode(pairs[0].0) + "=" + FormEncode(pairs[0].1);
      assert e[0] != "" by { assert e[0][|FormEncode(pairs[0].0)|] == '='; }
      DecodePairOfEncoded(pairs[0].0, pairs[0].1);
      assert e[1..] == EncodedPairs(pairs[1..]);
      DecodeEncodedPairs(pairs[1..]);
      assert [pairs[0]] + pairs[1..] == pairs;
    }
  }

  /** Parsing a serialized query gives back every pair, in order. */
  lemma QueryRoundTrip(pairs: seq<(string, string)>)
    ensures ParseQuery(SerializeQuery(pairs)) == Some(pairs)
  {
    if |pairs| == 0 {
      assert SerializeQuery(pairs) == "";
    } else {
      EncodedPairsHaveNoAmpersand(pairs);
      SplitJoin(EncodedPairs(pairs), '&');
      DecodeEncodedPairs(pairs);
    }
  }
}
