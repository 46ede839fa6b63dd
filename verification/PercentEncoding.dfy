/** `encodeURIComponent` and `decodeURIComponent` in full, on strings of Unicode scalar values (the strings
    the first does not throw on). */
module PercentEncoding {
  import opened Wrappers

  /** What `encodeURIComponent` leaves alone. */
  predicate Kept(c: char) {
    || 'A' <= c <= 'Z' || 'a' <= c <= 'z' || '0' <= c <= '9'
    || c == '-' || c == '_' || c == '.' || c == '!' || c == '~' || c == '*' || c == '\'' || c == '(' || c == ')'
  }

  newtype Byte = b: int | 0 <= b < 256

  function HexDigit(n: int): char
    requires 0 <= n < 16
  {
    if n < 10 then '0' + n as char else 'A' + (n - 10) as char
  }

  function Escaped(b: Byte): string {
    ['%', HexDigit(b as int / 16), HexDigit(b as int % 16)]
  }

  function EscapedAll(bytes: seq<Byte>): string {
    if bytes == [] then "" else Escaped(bytes[0]) + EscapedAll(bytes[1..])
  }

  /** RFC 3629. */
  function Utf8(c: char): seq<Byte> {
    var p := c as int;
    if p < 0x80 then [p as Byte]
    else if p < 0x800 then [(0xC0 + p / 64) as Byte, (0x80 + p % 64) as Byte]
    else if p < 0x1_0000 then
      [(0xE0 + p / 4096) as Byte, (0x80 + p / 64 % 64) as Byte, (0x80 + p % 64) as Byte]
    else
      [(0xF0 + p / 262144) as Byte, (0x80 + p / 4096 % 64) as Byte, (0x80 + p / 64 % 64) as Byte, (0x80 + p % 64) as Byte]
  }

  function EncodeChar(c: char): string {
    if Kept(c) then [c] else EscapedAll(Utf8(c))
  }

  function Encode(s: string): string {
    if s == "" then "" else EncodeChar(s[0]) + Encode(s[1..])
  }

  // ---------------------------------------------------------------- decoding

  function HexValue(c: char): Option<int> {
    if '0' <= c <= '9' then Some(c as int - '0' as int)
    else if 'A' <= c <= 'F' then Some(c as int - 'A' as int + 10)
    else if 'a' <= c <= 'f' then Some(c as int - 'a' as int + 10)
    else None
  }

  /** The byte escaped at the front of the string. */
  function EscapedByte(s: string): Option<Byte> {
    if |s| < 3 || s[0] != '%' || HexValue(s[1]).None? || HexValue(s[2]).None? then None
    else
      var value := HexValue(s[1]).value * 16 + HexValue(s[2]).value;
      if 0 <= value < 256 then Some(value as Byte) else None
  }

  function EscapedBytes(s: string, n: nat): Option<seq<Byte>> {
    if n == 0 then Some([])
    else
      var first := EscapedByte(s);
      if first.None? then None
      else
        var rest := EscapedBytes(s[3..], n - 1);
        if rest.None? then None else Some([first.value] + rest.value)
  }

  /** How many bytes a sequence starting with this one has; 0 when none can start so. */
  function SequenceLength(b: Byte): nat {
    if b < 0x80 then 1 else if b < 0xC0 then 0 else if b < 0xE0 then 2 else if b < 0xF0 then 3 else if b < 0xF8 then 4 else 0
  }

  predicate Continuation(b: Byte) { 0x80 <= b < 0xC0 }

  /** The code point of a byte sequence, rejecting overlong forms, surrogates and what lies past U+10FFFF. */
  function FromUtf8(bytes: seq<Byte>): Option<char> {
    if |bytes| == 1 then (if bytes[0] < 0x80 then Some(bytes[0] as int as char) else None)
    else if |bytes| == 2 && Continuation(bytes[1]) then
      Scalar((bytes[0] as int - 0xC0) * 64 + (bytes[1] as int - 0x80), 0x80)
    else if |bytes| == 3 && Continuation(bytes[1]) && Continuation(bytes[2]) then
      Scalar((bytes[0] as int - 0xE0) * 4096 + (bytes[1] as int - 0x80) * 64 + (bytes[2] as int - 0x80), 0x800)
    else if |bytes| == 4 && Continuation(bytes[1]) && Continuation(bytes[2]) && Continuation(bytes[3]) then
      Scalar((bytes[0] as int - 0xF0) * 262144 + (bytes[1] as int - 0x80) * 4096
             + (bytes[2] as int - 0x80) * 64 + (bytes[3] as int - 0x80), 0x1_0000)
    else None
  }

  function Scalar(p: int, least: int): Option<char> {
    if least <= p && (0 <= p < 0xD800 || 0xE000 <= p < 0x11_0000) then Some(p as char) else None
  }

  /** None stands for the URIError thrown. */
  function Decode(s: string): Option<string>
    decreases |s|
  {
    if s == "" then Some("")
    else if s[0] != '%' then Prepend(s[0], Decode(s[1..]))
    else
      var lead := EscapedByte(s);
      if lead.None? then None
      else
        var n := SequenceLength(lead.value);
        if n == 0 || 3 * n > |s| then None
        else
          var bytes := EscapedBytes(s, n);
          if bytes.None? then None
          else
            var c := FromUtf8(bytes.value);
            if c.None? then None else Prepend(c.value, Decode(s[3 * n..]))
  }

  function Prepend(c: char, rest: Option<string>): Option<string> {
    if rest.None? then None else Some([c] + rest.value)
  }

  // ---------------------------------------------------------------- the round trip

  lemma HexRound(n: int)
    requires 0 <= n < 16
    ensures HexValue(HexDigit(n)) == Some(n) && HexDigit(n) != '%'
  {
  }

  lemma EscapedRound(b: Byte, rest: string)
    ensures EscapedByte(Escaped(b) + rest) == Some(b) && (Escaped(b) + rest)[3..] == rest
  {
    HexRound(b as int / 16);
    HexRound(b as int % 16);
    hide HexValue, HexDigit;
  }

  lemma {:induction false} EscapedAllRound(bytes: seq<Byte>, rest: string)
    ensures |EscapedAll(bytes)| == 3 * |bytes|
    ensures EscapedBytes(EscapedAll(bytes) + rest, |bytes|) == Some(bytes)
    ensures (EscapedAll(bytes) + rest)[3 * |bytes|..] == rest
    decreases |bytes|
  {
    hide EscapedByte;
    if bytes != [] {
      var tail := EscapedAll(bytes[1..]) + rest;
      EscapedAllRound(bytes[1..], rest);
      EscapedRound(bytes[0], tail);
      assert EscapedAll(bytes) + rest == Escaped(bytes[0]) + tail;
      assert [bytes[0]] + bytes[1..] == bytes;
      assert |Escaped(bytes[0])| == 3;
    }
  }

  /** Base-64 digits of a code point put it together again. */
  lemma Digits(p: int)
    requires 0 <= p
    ensures p == p / 64 * 64 + p % 64
    ensures p / 64 == p / 4096 * 64 + p / 64 % 64
    ensures p / 4096 == p / 262144 * 64 + p / 4096 % 64
  {
    assert p / 4096 == p / 64 / 64;
    assert p / 262144 == p / 4096 / 64;
  }

  lemma OneByteRound(c: char)
    requires (c as int) < 0x80
    ensures SequenceLength(Utf8(c)[0]) == 1 == |Utf8(c)| && FromUtf8(Utf8(c)) == Some(c)
  {
  }

  lemma TwoBytesRound(c: char)
    requires 0x80 <= c as int < 0x800
    ensures |Utf8(c)| == 2 && SequenceLength(Utf8(c)[0]) == 2 && FromUtf8(Utf8(c)) == Some(c)
  {
    var p := c as int;
    Digits(p);
    assert 2 <= p / 64 < 32;
  }

  lemma ThreeBytesRound(c: char)
    requires 0x800 <= c as int < 0x1_0000
    ensures |Utf8(c)| == 3 && SequenceLength(Utf8(c)[0]) == 3 && FromUtf8(Utf8(c)) == Some(c)
  {
    var p := c as int;
    Digits(p);
    assert 0 <= p / 4096 < 16;
    var bytes := Utf8(c);
    assert Continuation(bytes[1]) && Continuation(bytes[2]);
  }

  lemma FourBytesRound(c: char)
    requires 0x1_0000 <= c as int
    ensures |Utf8(c)| == 4 && SequenceLength(Utf8(c)[0]) == 4 && FromUtf8(Utf8(c)) == Some(c)
  {
    var p := c as int;
    Digits(p);
    assert 0 <= p / 262144 < 5;
    var bytes := Utf8(c);
    assert Continuation(bytes[1]) && Continuation(bytes[2]) && Continuation(bytes[3]);
  }

  lemma Utf8Round(c: char)
    ensures var bytes := Utf8(c);
            |bytes| >= 1 && SequenceLength(bytes[0]) == |bytes| && FromUtf8(bytes) == Some(c)
  {
    hide Utf8, SequenceLength, FromUtf8;
    var p := c as int;
    if p < 0x80 { OneByteRound(c); }
    else if p < 0x800 { TwoBytesRound(c); }
    else if p < 0x1_0000 { ThreeBytesRound(c); }
    else { FourBytesRound(c); }
  }

  lemma DecodeEscaped(c: char, rest: string)
    ensures Decode(EscapedAll(Utf8(c)) + rest) == Prepend(c, Decode(rest))
  {
    var bytes := Utf8(c);
    Utf8Round(c);
    hide Utf8, FromUtf8, SequenceLength, EscapedByte, Escaped;
    EscapedAllRound(bytes, rest);
    var s := EscapedAll(bytes) + rest;
    EscapedRound(bytes[0], EscapedAll(bytes[1..]) + rest);
    assert s == Escaped(bytes[0]) + (EscapedAll(bytes[1..]) + rest);
    StartsWithPercent(bytes[0]);
  }

  lemma StartsWithPercent(b: Byte)
    ensures |Escaped(b)| == 3 && Escaped(b)[0] == '%'
  {
  }

  /** Decoding undoes encoding on every string. */
  lemma {:induction false} DecodeEncode(s: string)
    ensures Decode(Encode(s)) == Some(s)
    decreases |s|
  {
    hide Utf8, FromUtf8, EscapedByte, EscapedAll, EscapedBytes, Kept;
    if s != "" {
      DecodeEncode(s[1..]);
      if Kept(s[0]) {
        KeptIsNoPercent(s[0]);
        assert ([s[0]] + Encode(s[1..]))[1..] == Encode(s[1..]);
      } else {
        DecodeEscaped(s[0], Encode(s[1..]));
      }
      assert [s[0]] + s[1..] == s;
    }
  }

  lemma KeptIsNoPercent(c: char)
    requires Kept(c)
    ensures c != '%'
  {
  }

  /** The alphabet of encoded text. */
  predicate Safe(c: char) { Kept(c) || c == '%' }

  ghost predicate AllSafe(s: string) { forall i :: 0 <= i < |s| ==> Safe(s[i]) }

  lemma EscapedSafe(b: Byte)
    ensures AllSafe(Escaped(b))
  {
  }

  lemma {:induction false} EscapedAllSafe(bytes: seq<Byte>)
    ensures AllSafe(EscapedAll(bytes))
    decreases |bytes|
  {
    hide Safe, Escaped;
    if bytes != [] {
      EscapedSafe(bytes[0]);
      EscapedAllSafe(bytes[1..]);
    }
  }

  /** Encoded text has no separator, quote or space in it. */
  lemma {:induction false} EncodedSafe(s: string)
    ensures AllSafe(Encode(s))
    decreases |s|
  {
    hide Safe, Utf8, EscapedAll;
    if s != "" {
      EscapedAllSafe(Utf8(s[0]));
      EncodedSafe(s[1..]);
      if Kept(s[0]) { KeptSafe(s[0]); }
    }
  }

  lemma KeptSafe(c: char)
    requires Kept(c)
    ensures Safe(c)
  {
  }
}
