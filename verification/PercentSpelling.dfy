/** Which texts decode, and to what: percent-decoding accepts exactly the spellings of a text, and encoding
    picks one of them. */
module PercentSpelling {
  import opened PercentEncoding
  import opened Wrappers

  // ---------------------------------------------------------------- spellings

  /** `c` is the hexadecimal digit of value `n`, in either case. */
  predicate IsHex(c: char, n: int) {
    0 <= n < 16 && (c == "0123456789ABCDEF"[n] || c == "0123456789abcdef"[n])
  }

  predicate EscapeOf(s: string, b: Byte) {
    |s| == 3 && s[0] == '%' && IsHex(s[1], b as int / 16) && IsHex(s[2], b as int % 16)
  }

  predicate EscapesOf(s: string, bytes: seq<Byte>) {
    |s| == 3 * |bytes| && forall i :: 0 <= i < |bytes| ==> EscapeOf(s[3 * i..3 * i + 3], bytes[i])
  }

  /** A character is spelled as itself, unless it is the percent sign, or as the escapes of its UTF-8 bytes. */
  predicate Spells(piece: string, c: char) {
    (piece == [c] && c != '%') || EscapesOf(piece, Utf8(c))
  }

  /** `s` spells the characters of `t` one after the other. */
  ghost predicate SpelledAs(s: string, t: string)
    decreases |t|
  {
    if t == "" then s == ""
    else exists n :: 0 <= n <= |s| && Spells(s[..n], t[0]) && SpelledAs(s[n..], t[1..])
  }

  // ---------------------------------------------------------------- bytes

  lemma HexIs(c: char, n: int)
    ensures HexValue(c) == Some(n) <==> IsHex(c, n)
  {
    if 0 <= n < 10 { LowHex(c, n); } else if 10 <= n < 16 { HighHex(c, n); }
  }

  lemma LowHex(c: char, n: int)
    requires 0 <= n < 10
    ensures HexValue(c) == Some(n) <==> IsHex(c, n)
  {
    assert "0123456789ABCDEF"[n] as int == '0' as int + n && "0123456789abcdef"[n] as int == '0' as int + n;
  }

  lemma HighHex(c: char, n: int)
    requires 10 <= n < 16
    ensures HexValue(c) == Some(n) <==> IsHex(c, n)
  {
    assert "0123456789ABCDEF"[n] as int == 'A' as int + n - 10 && "0123456789abcdef"[n] as int == 'a' as int + n - 10;
  }

  lemma EscapedByteIs(s: string, b: Byte)
    ensures EscapedByte(s) == Some(b) <==> |s| >= 3 && EscapeOf(s[..3], b)
  {
    hide HexValue, IsHex;
    if |s| >= 3 {
      var hi, lo := b as int / 16, b as int % 16;
      HexIs(s[1], hi);
      HexIs(s[2], lo);
      HexRange(s[1]);
      HexRange(s[2]);
      if EscapedByte(s) == Some(b) {
        SixteenDigits(HexValue(s[1]).value, HexValue(s[2]).value);
      }
    }
  }

  lemma HexRange(c: char)
    ensures HexValue(c).Some? ==> 0 <= HexValue(c).value < 16
  {
  }

  lemma SixteenDigits(hi: int, lo: int)
    requires 0 <= hi < 16 && 0 <= lo < 16
    ensures (hi * 16 + lo) / 16 == hi && (hi * 16 + lo) % 16 == lo
  {
  }

  lemma {:induction false} EscapedBytesAre(s: string, bytes: seq<Byte>)
    ensures EscapedBytes(s, |bytes|) == Some(bytes) <==> |s| >= 3 * |bytes| && EscapesOf(s[..3 * |bytes|], bytes)
    decreases |bytes|
  {
    hide EscapedByte, EscapeOf;
    if bytes != [] {
      EscapedByteIs(s, bytes[0]);
      if |s| >= 3 {
        EscapedBytesAre(s[3..], bytes[1..]);
        if |s| >= 3 * |bytes| { EscapesFrom(s, bytes); }
        assert bytes == [bytes[0]] + bytes[1..];
      }
    }
  }

  lemma SliceShift(s: string, n: nat, at: nat)
    requires at + 6 <= n <= |s|
    ensures s[3..][..n - 3][at..at + 3] == s[..n][at + 3..at + 6]
  {
    var x, y := s[3..][..n - 3][at..at + 3], s[..n][at + 3..at + 6];
    forall k | 0 <= k < 3 ensures x[k] == y[k] { assert x[k] == s[at + 3 + k] && y[k] == s[at + 3 + k]; }
  }

  lemma EscapesFrom(s: string, bytes: seq<Byte>)
    requires bytes != [] && |s| >= 3 * |bytes|
    ensures EscapesOf(s[..3 * |bytes|], bytes) <==>
            EscapeOf(s[..3], bytes[0]) && EscapesOf(s[3..][..3 * |bytes[1..]|], bytes[1..])
  {
    hide EscapeOf;
    var whole, rest := s[..3 * |bytes|], s[3..][..3 * |bytes[1..]|];
    assert whole[0..3] == s[..3];
    forall i | 0 <= i < |bytes| - 1 ensures rest[3 * i..3 * i + 3] == whole[3 * (i + 1)..3 * (i + 1) + 3] {
      SliceShift(s, 3 * |bytes|, 3 * i);
    }
    if EscapesOf(whole, bytes) {
      assert EscapeOf(whole[3 * 0..3 * 0 + 3], bytes[0]);
      forall i | 0 <= i < |bytes| - 1 ensures EscapeOf(rest[3 * i..3 * i + 3], bytes[1..][i]) {
        assert EscapeOf(whole[3 * (i + 1)..3 * (i + 1) + 3], bytes[i + 1]);
      }
    }
    if EscapeOf(s[..3], bytes[0]) && EscapesOf(rest, bytes[1..]) {
      forall i | 0 <= i < |bytes| ensures EscapeOf(whole[3 * i..3 * i + 3], bytes[i]) {
        if i > 0 { assert EscapeOf(rest[3 * (i - 1)..3 * (i - 1) + 3], bytes[1..][i - 1]); }
      }
    }
  }

  // ---------------------------------------------------------------- characters

  lemma TwoBytesExact(bytes: seq<Byte>, c: char)
    requires |bytes| == 2 && SequenceLength(bytes[0]) == 2 && FromUtf8(bytes) == Some(c)
    ensures bytes == Utf8(c)
  {
    var p := c as int;
    assert p / 64 == bytes[0] as int - 0xC0 && p % 64 == bytes[1] as int - 0x80;
  }

  lemma ThreeBytesExact(bytes: seq<Byte>, c: char)
    requires |bytes| == 3 && SequenceLength(bytes[0]) == 3 && FromUtf8(bytes) == Some(c)
    ensures bytes == Utf8(c)
  {
    var p := c as int;
    Digits(p);
    assert p % 64 == bytes[2] as int - 0x80;
    assert p / 64 == (bytes[0] as int - 0xE0) * 64 + (bytes[1] as int - 0x80);
    assert p / 64 % 64 == bytes[1] as int - 0x80;
    assert p / 4096 == bytes[0] as int - 0xE0;
  }

  lemma FourBytesExact(bytes: seq<Byte>, c: char)
    requires |bytes| == 4 && SequenceLength(bytes[0]) == 4 && FromUtf8(bytes) == Some(c)
    ensures bytes == Utf8(c)
  {
    var p := c as int;
    Digits(p);
    assert p % 64 == bytes[3] as int - 0x80;
    assert p / 64 == (bytes[0] as int - 0xF0) * 4096 + (bytes[1] as int - 0x80) * 64 + (bytes[2] as int - 0x80);
    assert p / 64 % 64 == bytes[2] as int - 0x80;
    assert p / 4096 == (bytes[0] as int - 0xF0) * 64 + (bytes[1] as int - 0x80);
    assert p / 4096 % 64 == bytes[1] as int - 0x80;
    assert p / 262144 == bytes[0] as int - 0xF0;
  }

  /** The decoder takes no byte sequence for a character but its UTF-8 form. */
  lemma FromUtf8Exact(bytes: seq<Byte>, c: char)
    requires bytes != [] && |bytes| == SequenceLength(bytes[0]) && FromUtf8(bytes) == Some(c)
    ensures bytes == Utf8(c)
  {
    if |bytes| == 2 { TwoBytesExact(bytes, c); }
    if |bytes| == 3 { ThreeBytesExact(bytes, c); }
    if |bytes| == 4 { FourBytesExact(bytes, c); }
  }

  /** The forms of RFC 3629, section 3, one of each length. */
  lemma Utf8Examples()
    ensures Utf8('\U{24}') == [0x24] && Utf8('\U{A2}') == [0xC2, 0xA2]
    ensures Utf8('\U{20AC}') == [0xE2, 0x82, 0xAC] && Utf8('\U{10348}') == [0xF0, 0x90, 0x8D, 0x88]
  {
  }

  // ---------------------------------------------------------------- decoding

  lemma SpelledFront(s: string, c: char, n: nat)
    requires n <= |s| && Spells(s[..n], c)
    ensures 1 <= n && Decode(s) == Prepend(c, Decode(s[n..]))
  {
    hide EscapedByte, EscapedBytes, EscapeOf, Utf8, FromUtf8, SequenceLength;
    Utf8Round(c);
    if s[..n] == [c] && c != '%' {
      assert s[0] == s[..n][0];
    } else {
      var bytes := Utf8(c);
      EscapedBytesAre(s, bytes);
      FirstEscape(s, bytes);
    }
  }

  lemma FirstEscape(s: string, bytes: seq<Byte>)
    requires bytes != [] && |s| >= 3 * |bytes| && EscapesOf(s[..3 * |bytes|], bytes)
    ensures s != "" && s[0] == '%' && EscapedByte(s) == Some(bytes[0])
  {
    hide EscapedByte, IsHex;
    assert EscapeOf(s[..3 * |bytes|][3 * 0..3 * 0 + 3], bytes[0]);
    assert s[..3 * |bytes|][0..3] == s[..3];
    EscapedByteIs(s, bytes[0]);
  }

  /** What stands in front of a text that decodes is a spelling of the first character it decodes to. */
  lemma DecodedFront(s: string, t: string) returns (n: nat)
    requires s != "" && Decode(s) == Some(t)
    ensures t != "" && 1 <= n <= |s| && Spells(s[..n], t[0]) && Decode(s[n..]) == Some(t[1..])
  {
    hide EscapedByte, EscapeOf, EscapedBytes, EscapesOf, Utf8, FromUtf8, SequenceLength;
    if s[0] != '%' {
      n := 1;
      assert s[..1] == [s[0]];
      PrependIs(s[0], Decode(s[1..]), t);
    } else {
      var lead := EscapedByte(s).value;
      var m := SequenceLength(lead);
      var bytes := EscapedBytes(s, m).value;
      var c := FromUtf8(bytes).value;
      n := 3 * m;
      BytesRead(s, m);
      FromUtf8Exact(bytes, c);
      EscapedBytesAre(s, bytes);
      PrependIs(c, Decode(s[n..]), t);
    }
  }

  lemma PrependIs(c: char, rest: Option<string>, t: string)
    requires Prepend(c, rest) == Some(t)
    ensures t != "" && t[0] == c && rest == Some(t[1..])
  {
  }

  lemma BytesRead(s: string, m: nat)
    requires m > 0 && EscapedBytes(s, m).Some?
    ensures |EscapedBytes(s, m).value| == m && EscapedByte(s) == Some(EscapedBytes(s, m).value[0])
  {
    if m > 1 { BytesRead(s[3..], m - 1); }
  }

  /** A text decodes exactly when it spells something, and then to what it spells. */
  lemma {:induction false} DecodeIffSpelled(s: string, t: string)
    ensures Decode(s) == Some(t) <==> SpelledAs(s, t)
    decreases |t|
  {
    hide Spells;
    if Decode(s) == Some(t) && s != "" {
      hide Decode;
      var n := DecodedFront(s, t);
      DecodeIffSpelled(s[n..], t[1..]);
    }
    if t != "" && SpelledAs(s, t) {
      hide Decode;
      var n :| 0 <= n <= |s| && Spells(s[..n], t[0]) && SpelledAs(s[n..], t[1..]);
      SpelledFront(s, t[0], n);
      DecodeIffSpelled(s[n..], t[1..]);
      assert t == [t[0]] + t[1..];
    }
  }

  // ---------------------------------------------------------------- encoding

  /** The characters `encodeURIComponent` does not escape. */
  predicate Unescaped(c: char) {
    'A' <= c <= 'Z' || 'a' <= c <= 'z' || '0' <= c <= '9' || c in "-_.!~*'()"
  }

  /** Upper-case escapes. */
  predicate EscapedUpper(s: string, bytes: seq<Byte>) {
    EscapesOf(s, bytes) && forall i :: 0 <= i < |s| ==> !('a' <= s[i] <= 'z')
  }

  lemma UpperDigits(b: Byte)
    ensures EscapeOf(Escaped(b), b) && forall i :: 0 <= i < 3 ==> !('a' <= Escaped(b)[i] <= 'z')
  {
    hide IsHex;
    HexRound(b as int / 16);
    HexRound(b as int % 16);
    HexIs(HexDigit(b as int / 16), b as int / 16);
    HexIs(HexDigit(b as int % 16), b as int % 16);
  }

  lemma {:induction false} EscapedAllUpper(bytes: seq<Byte>)
    ensures EscapedUpper(EscapedAll(bytes), bytes)
    decreases |bytes|
  {
    hide EscapeOf, Escaped;
    if bytes != [] {
      var rest := EscapedAll(bytes[1..]);
      EscapedAllUpper(bytes[1..]);
      UpperDigits(bytes[0]);
      var s := EscapedAll(bytes);
      ThreeLong(bytes[0]);
      assert s[..3] == Escaped(bytes[0]) && s[3..] == rest;
      assert s[..3 * |bytes|] == s && s[3..][..3 * |bytes[1..]|] == rest;
      EscapesFrom(s, bytes);
    }
  }

  lemma ThreeLong(b: Byte)
    ensures |Escaped(b)| == 3
  {
  }

  /** Encoding works character by character: the unescaped ones stay, every other becomes the upper-case escapes
      of its UTF-8 bytes. */
  lemma EncodeIs(c: char, rest: string)
    ensures exists piece ::
              && Encode([c] + rest) == piece + Encode(rest)
              && if Unescaped(c) then piece == [c] else EscapedUpper(piece, Utf8(c))
  {
    hide EscapedUpper, EscapedAll, Utf8;
    EscapedAllUpper(Utf8(c));
    assert ([c] + rest)[1..] == rest;
    assert Encode([c] + rest) == EncodeChar(c) + Encode(rest);
  }
}
