/** UTF-8 as defined in section 3 of RFC 3629, and the byte-bounded prefix of a text. */
module Utf8 {
  import opened Options

  type Byte = b: int | 0 <= b < 256

  predicate IsScalar(v: int) {
    0 <= v < 0xD800 || 0xE000 <= v < 0x11_0000
  }

  function Encode(c: char): (bs: seq<Byte>)
    ensures 1 <= |bs| <= 4
  {
    var v := c as int;
    if v < 0x80 then [v]
    else if v < 0x800 then [0xC0 + v / 0x40, 0x80 + v % 0x40]
    else if v < 0x1_0000 then [0xE0 + v / 0x1000, 0x80 + v / 0x40 % 0x40, 0x80 + v % 0x40]
    else [0xF0 + v / 0x4_0000, 0x80 + v / 0x1000 % 0x40, 0x80 + v / 0x40 % 0x40, 0x80 + v % 0x40]
  }

  function EncodeAll(text: string): seq<Byte> {
    if text == [] then [] else Encode(text[0]) + EncodeAll(text[1..])
  }

  function Size(text: string): nat {
    |EncodeAll(text)|
  }

  predicate Continues(b: int) { 0x80 <= b < 0xC0 }

  function Value2(b0: int, b1: int): int { (b0 - 0xC0) * 0x40 + (b1 - 0x80) }

  function Value3(b0: int, b1: int, b2: int): int { (b0 - 0xE0) * 0x1000 + (b1 - 0x80) * 0x40 + (b2 - 0x80) }

  function Value4(b0: int, b1: int, b2: int, b3: int): int {
    (b0 - 0xF0) * 0x4_0000 + (b1 - 0x80) * 0x1000 + (b2 - 0x80) * 0x40 + (b3 - 0x80)
  }

  /** The code point encoded at the start of `bs`, with the number of bytes it takes; overlong forms,
      surrogates, stray continuation bytes and cut-off sequences are none. */
  function ScalarHead(bs: seq<Byte>): (r: Option<(int, nat)>)
    ensures r.Some? ==> IsScalar(r.value.0) && 1 <= r.value.1 <= |bs|
  {
    if bs == [] then None
    else if bs[0] < 0x80 then Some((bs[0], 1))
    else if 0xC0 <= bs[0] < 0xE0 && |bs| >= 2 && Continues(bs[1]) then
      var v := Value2(bs[0], bs[1]);
      if v >= 0x80 then Some((v, 2)) else None
    else if 0xE0 <= bs[0] < 0xF0 && |bs| >= 3 && Continues(bs[1]) && Continues(bs[2]) then
      var v := Value3(bs[0], bs[1], bs[2]);
      if v >= 0x800 && IsScalar(v) then Some((v, 3)) else None
    else if 0xF0 <= bs[0] < 0xF8 && |bs| >= 4 && Continues(bs[1]) && Continues(bs[2]) && Continues(bs[3]) then
      var v := Value4(bs[0], bs[1], bs[2], bs[3]);
      if v >= 0x1_0000 && IsScalar(v) then Some((v, 4)) else None
    else None
  }

  function DecodeHead(bs: seq<Byte>): (r: Option<(char, nat)>)
    ensures r.Some? ==> 1 <= r.value.1 <= |bs|
  {
    match ScalarHead(bs)
    case Some((v, n)) => Some((v as char, n))
    case None => None
  }

  /** Decoding that skips what is not well formed. */
  function DecodeIgnoring(bs: seq<Byte>): string {
    if bs == [] then []
    else
      match DecodeHead(bs)
      case Some((c, n)) => [c] + DecodeIgnoring(bs[n..])
      case None => DecodeIgnoring(bs[1..])
  }

  /** The first code points of `text` that fit in `max` bytes, by cutting the encoding. */
  function BytePrefix(text: string, max: nat): string {
    var encoded := EncodeAll(text);
    if |encoded| <= max then text else DecodeIgnoring(encoded[..max])
  }

  // ---------------------------------------------------------------------------------------------
  // Self-synchronization
  // ---------------------------------------------------------------------------------------------

  lemma Split2(v: int)
    requires 0x80 <= v < 0x800
    ensures Value2(0xC0 + v / 0x40, 0x80 + v % 0x40) == v
    ensures 0xC0 <= 0xC0 + v / 0x40 < 0xE0 && Continues(0x80 + v % 0x40)
  {
  }

  lemma Split3(v: int)
    requires 0x800 <= v < 0x1_0000
    ensures Value3(0xE0 + v / 0x1000, 0x80 + v / 0x40 % 0x40, 0x80 + v % 0x40) == v
    ensures 0xE0 <= 0xE0 + v / 0x1000 < 0xF0 && Continues(0x80 + v / 0x40 % 0x40) && Continues(0x80 + v % 0x40)
  {
    assert v / 0x40 / 0x40 == v / 0x1000;
  }

  lemma Split4(v: int)
    requires 0x1_0000 <= v < 0x11_0000
    ensures Value4(0xF0 + v / 0x4_0000, 0x80 + v / 0x1000 % 0x40, 0x80 + v / 0x40 % 0x40, 0x80 + v % 0x40) == v
    ensures 0xF0 <= 0xF0 + v / 0x4_0000 < 0xF8 && Continues(0x80 + v / 0x1000 % 0x40)
    ensures Continues(0x80 + v / 0x40 % 0x40) && Continues(0x80 + v % 0x40)
  {
    assert v / 0x40 / 0x40 == v / 0x1000;
    assert v / 0x1000 / 0x40 == v / 0x4_0000;
  }

  lemma EncodedDecodes(c: char, rest: seq<Byte>)
    ensures DecodeHead(Encode(c) + rest) == Some((c, |Encode(c)|))
  {
    hide Value2, Value3, Value4;
    var v := c as int;
    var bs := Encode(c) + rest;
    assert IsScalar(v);
    assert forall i: nat :: i < |Encode(c)| ==> bs[i] == Encode(c)[i];
    if v < 0x80 {
    } else if v < 0x800 {
      Split2(v);
    } else if v < 0x1_0000 {
      Split3(v);
    } else {
      Split4(v);
    }
    assert ScalarHead(bs) == Some((v, |Encode(c)|));
  }

  /** A cut-off encoding holds no character, from whatever byte one starts to read. */
  lemma {:induction false} CutOffDecodesToNothing(c: char, i: nat, k: nat)
    requires i <= k < |Encode(c)|
    ensures DecodeIgnoring(Encode(c)[i..k]) == []
    decreases k - i
  {
    if i < k {
      var bs := Encode(c)[i..k];
      assert bs[0] == Encode(c)[i];
      assert DecodeHead(bs) == None;
      assert bs[1..] == Encode(c)[i + 1..k];
      CutOffDecodesToNothing(c, i + 1, k);
    }
  }

  /** The longest prefix that fits, one code point at a time. */
  function FittingPrefix(text: string, max: nat): string {
    if text == [] || |Encode(text[0])| > max then []
    else [text[0]] + FittingPrefix(text[1..], max - |Encode(text[0])|)
  }

  /** Cutting the bytes anywhere loses only the code point the cut goes through. */
  lemma {:induction false} CutDecodesToFitting(text: string, max: nat)
    requires max <= Size(text)
    ensures DecodeIgnoring(EncodeAll(text)[..max]) == FittingPrefix(text, max)
  {
    if text == [] {
    } else {
      var head, tail := Encode(text[0]), EncodeAll(text[1..]);
      if |head| > max {
        assert (head + tail)[..max] == head[0..max];
        CutOffDecodesToNothing(text[0], 0, max);
      } else {
        var rest := tail[..max - |head|];
        assert (head + tail)[..max] == head + rest;
        EncodedDecodes(text[0], rest);
        assert (head + rest)[|head|..] == rest;
        CutDecodesToFitting(text[1..], max - |head|);
      }
    }
  }

  /** `r` is the longest prefix of `text` whose encoding fits in `max` bytes. */
  predicate IsLongestFit(text: string, max: nat, r: string) {
    r <= text && Size(r) <= max && (|r| < |text| ==> Size(text[..|r| + 1]) > max)
  }

  lemma {:induction false} SizeOfConcat(a: string, b: string)
    ensures Size(a + b) == Size(a) + Size(b)
  {
    if a == [] {
      assert a + b == b;
    } else {
      SizeOfConcat(a[1..], b);
      assert (a + b)[1..] == a[1..] + b;
    }
  }

  lemma {:induction false} FittingIsLongest(text: string, max: nat)
    ensures IsLongestFit(text, max, FittingPrefix(text, max))
  {
    if text != [] {
      var n := |Encode(text[0])|;
      if n > max {
        assert text[..1] == [text[0]];
        assert EncodeAll([text[0]]) == Encode(text[0]) + [];
      } else {
        FittingIsLongest(text[1..], max - n);
        var r := FittingPrefix(text[1..], max - n);
        assert text == [text[0]] + text[1..];
        SizeOfConcat([text[0]], r);
        assert EncodeAll([text[0]]) == Encode(text[0]) + [];
        if |r| < |text[1..]| {
          assert text[..|r| + 2] == [text[0]] + text[1..][..|r| + 1];
          SizeOfConcat([text[0]], text[1..][..|r| + 1]);
        }
      }
    }
  }

  lemma {:induction false} FittingIsAll(text: string, max: nat)
    requires Size(text) <= max
    ensures FittingPrefix(text, max) == text
  {
    if text != [] {
      FittingIsAll(text[1..], max - |Encode(text[0])|);
    }
  }

  /** `_byte_prefix` is the longest code-point prefix that fits, for every text and every byte budget. */
  lemma BytePrefixIsLongest(text: string, max: nat)
    ensures BytePrefix(text, max) == FittingPrefix(text, max)
    ensures IsLongestFit(text, max, BytePrefix(text, max))
  {
    FittingIsLongest(text, max);
    if Size(text) <= max {
      FittingIsAll(text, max);
    } else {
      CutDecodesToFitting(text, max);
    }
  }

  /** Encoding loses nothing. */
  lemma DecodeInvertsEncode(text: string)
    ensures DecodeIgnoring(EncodeAll(text)) == text
  {
    assert EncodeAll(text)[..Size(text)] == EncodeAll(text);
    CutDecodesToFitting(text, Size(text));
    FittingIsAll(text, Size(text));
  }
}
