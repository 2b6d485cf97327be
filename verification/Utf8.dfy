/** UTF-8 as section 3 of RFC 3629 defines it, and cutting a text to a number of bytes. */
module Utf8 {
  import opened Prelude

  type Byte = b: int | 0 <= b < 256

  function EncodeChar(c: char): (bs: seq<Byte>)
    ensures 1 <= |bs| <= 4
  {
    var n := c as int;
    if n < 0x80 then [n]
    else if n < 0x800 then [0xC0 + n / 64, 0x80 + n % 64]
    else if n < 0x1_0000 then [0xE0 + n / 4096, 0x80 + n / 64 % 64, 0x80 + n % 64]
    else [0xF0 + n / 0x4_0000, 0x80 + n / 4096 % 64, 0x80 + n / 64 % 64, 0x80 + n % 64]
  }

  function Encode(s: string): seq<Byte> {
    if s == "" then [] else EncodeChar(s[0]) + Encode(s[1..])
  }

  function ByteLength(s: string): nat { |Encode(s)| }

  predicate IsTail(b: Byte) { 0x80 <= b < 0xC0 }

  predicate Tails(bs: seq<Byte>, count: nat) {
    count < |bs| && forall i :: 1 <= i <= count ==> IsTail(bs[i])
  }

  predicate IsScalar(n: int) { 0 <= n < 0xD800 || 0xE000 <= n < 0x11_0000 }

  /** The character a well-formed sequence at the front stands for, and its length. */
  function DecodeOne(bs: seq<Byte>): (r: Option<(char, nat)>)
    requires bs != []
    ensures r.Some? ==> 1 <= r.value.1 <= |bs|
  {
    var b := bs[0];
    if b < 0x80 then Some((b as char, 1))
    else if 0xC0 <= b < 0xE0 && Tails(bs, 1) then
      Scalar(Join(b - 0xC0, bs[1]), 0x80, 2)
    else if 0xE0 <= b < 0xF0 && Tails(bs, 2) then
      Scalar(Join(Join(b - 0xE0, bs[1]), bs[2]), 0x800, 3)
    else if 0xF0 <= b < 0xF8 && Tails(bs, 3) then
      Scalar(Join(Join(Join(b - 0xF0, bs[1]), bs[2]), bs[3]), 0x1_0000, 4)
    else None
  }

  /** Six more bits from a tail byte. */
  function Join(high: int, tail: int): int { high * 64 + (tail - 0x80) }

  /** Overlong forms, surrogates and values beyond the range are not characters. */
  function Scalar(n: int, least: int, length: nat): (r: Option<(char, nat)>)
    ensures r.Some? ==> r.value.1 == length
  {
    if n >= least && IsScalar(n) then Some((n as char, length)) else None
  }

  /** Decoding that drops whatever is not well-formed. */
  function DecodeIgnoring(bs: seq<Byte>): string
    decreases |bs|
  {
    if bs == [] then ""
    else
      var one := DecodeOne(bs);
      if one.Some? then [one.value.0] + DecodeIgnoring(bs[one.value.1..])
      else DecodeIgnoring(bs[1..])
  }

  lemma SplitTwo(n: int)
    requires 0x80 <= n < 0x800
    ensures Join(n / 64, 0x80 + n % 64) == n && 0xC0 <= 0xC0 + n / 64 < 0xE0
  {
  }

  lemma SplitThree(n: int)
    requires 0x800 <= n < 0x1_0000
    ensures Join(Join(n / 4096, 0x80 + n / 64 % 64), 0x80 + n % 64) == n && 0 <= n / 4096 < 16
  {
    assert n / 64 / 64 == n / 4096;
  }

  lemma SplitFour(n: int)
    requires 0x1_0000 <= n < 0x11_0000
    ensures Join(Join(Join(n / 0x4_0000, 0x80 + n / 4096 % 64), 0x80 + n / 64 % 64), 0x80 + n % 64) == n
    ensures 0 <= n / 0x4_0000 < 8
  {
    assert n / 64 / 64 == n / 4096;
    assert n / 4096 / 64 == n / 0x4_0000;
  }

  lemma DecodeEncodedChar(c: char, rest: seq<Byte>)
    ensures DecodeOne(EncodeChar(c) + rest) == Some((c, |EncodeChar(c)|))
  {
    var n := c as int;
    var first := EncodeChar(c);
    var bs := first + rest;
    assert bs[..|first|] == first;
    assert IsScalar(n);
    if n < 0x80 {
    } else if n < 0x800 {
      SplitTwo(n);
      assert bs[0] == first[0] && bs[1] == first[1] && Tails(bs, 1);
    } else if n < 0x1_0000 {
      SplitThree(n);
      assert bs[0] == first[0] && bs[1] == first[1] && bs[2] == first[2] && Tails(bs, 2);
    } else {
      SplitFour(n);
      assert bs[0] == first[0] && bs[1] == first[1] && bs[2] == first[2] && bs[3] == first[3] && Tails(bs, 3);
    }
  }

  lemma {:induction false} TailsDecodeToNothing(bs: seq<Byte>)
    requires forall i :: 0 <= i < |bs| ==> IsTail(bs[i])
    ensures DecodeIgnoring(bs) == ""
  {
    if bs != [] { TailsDecodeToNothing(bs[1..]); }
  }

  /** A cut-off character decodes to nothing. */
  lemma CutCharDecodesToNothing(c: char, k: nat)
    requires k < |EncodeChar(c)|
    ensures DecodeIgnoring(EncodeChar(c)[..k]) == ""
  {
    var bs := EncodeChar(c)[..k];
    if k > 0 {
      TailsDecodeToNothing(bs[1..]);
    }
  }

  /** Cutting the bytes and decoding the rest keeps a prefix of the characters: the longest that fits. */
  lemma {:induction false} CutDecodesToPrefix(text: string, max: nat) returns (k: nat)
    requires max <= ByteLength(text)
    ensures k <= |text| && DecodeIgnoring(Encode(text)[..max]) == text[..k]
    ensures ByteLength(text[..k]) <= max
    ensures k < |text| ==> max < ByteLength(text[..k + 1])
  {
    if text == "" {
      k := 0;
    } else {
      var first, rest := EncodeChar(text[0]), Encode(text[1..]);
      assert text[..1] == [text[0]] && text[..1][1..] == "";
      if max < |first| {
        k := 0;
        CutCharDecodesToNothing(text[0], max);
        assert Encode(text)[..max] == first[..max];
        assert Encode(text[..1]) == first;
      } else {
        var j := CutDecodesToPrefix(text[1..], max - |first|);
        k := j + 1;
        assert Encode(text)[..max] == first + rest[..max - |first|];
        DecodeEncodedChar(text[0], rest[..max - |first|]);
        assert (first + rest[..max - |first|])[|first|..] == rest[..max - |first|];
        EncodePrefix(text, j);
        if k < |text| { EncodePrefix(text, j + 1); }
        assert text[..k] == [text[0]] + text[1..][..j];
      }
    }
  }

  lemma EncodePrefix(text: string, j: nat)
    requires j + 1 <= |text|
    ensures ByteLength(text[..j + 1]) == |EncodeChar(text[0])| + ByteLength(text[1..][..j])
  {
    assert text[..j + 1][1..] == text[1..][..j];
  }

  function TruncateTextBytes(text: string, maxBytes: int): string {
    if maxBytes <= 0 then ""
    else if ByteLength(text) <= maxBytes then text
    else DecodeIgnoring(Encode(text)[..maxBytes])
  }

  lemma {:induction false} LongerHasMoreBytes(text: string, j: nat)
    requires j <= |text|
    ensures ByteLength(text[..j]) <= ByteLength(text)
    ensures j < |text| ==> ByteLength(text[..j]) < ByteLength(text)
  {
    if j > 0 {
      LongerHasMoreBytes(text[1..], j - 1);
      EncodePrefix(text, j - 1);
    } else {
      assert text[..0] == "";
    }
  }

  /** The truncated text is the longest prefix of whole characters within the byte budget. */
  lemma TruncateKeepsLongestPrefix(text: string, maxBytes: int)
    ensures var r := TruncateTextBytes(text, maxBytes);
            r <= text && ByteLength(r) <= Max(0, maxBytes) &&
            (|r| < |text| ==> ByteLength(text[..|r| + 1]) > maxBytes)
  {
    if maxBytes > 0 && ByteLength(text) > maxBytes {
      var k := CutDecodesToPrefix(text, maxBytes);
    } else if maxBytes <= 0 && text != "" {
      assert text[..1][1..] == "";
    }
  }
}
