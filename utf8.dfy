/**
 * `String::from_utf8`: a byte sequence is accepted when it is well-formed
 * UTF-8 (the well-formed byte sequences of the Unicode Standard, Table 3-7,
 * which exclude overlong forms, surrogates and code points above U+10FFFF),
 * and decodes to the scalar values it encodes.
 */
module Utf8 {
  import opened Base

  /** The number of bytes UTF-8 spends on one scalar value. */
  function Width(c: char): nat {
    if c as int < 0x80 then 1
    else if c as int < 0x800 then 2
    else if c as int < 0x10000 then 3
    else 4
  }

  /** The length in bytes of the UTF-8 encoding of a string. */
  function EncodedLength(s: string): nat {
    if s == [] then 0 else Width(s[0]) + EncodedLength(s[1..])
  }

  predicate IsContinuation(b: byte) {
    0x80 <= b <= 0xBF
  }

  /**
   * Decodes the scalar value at the front of `b`, returning it with the
   * number of bytes it took, or None when `b` does not start with a
   * well-formed sequence.
   */
  function DecodeFirst(b: seq<byte>): (r: Option<(char, nat)>)
    requires |b| > 0
    ensures r.Some? ==> 1 <= r.value.1 <= |b| && r.value.1 == Width(r.value.0)
    ensures r.Some? && b[0] == 0 ==> r.value == (0 as char, 1)
  {
    var b0: int := b[0];
    if b0 < 0x80 then
      Some((b0 as char, 1))
    else if 0xC2 <= b0 <= 0xDF then
      if |b| >= 2 && IsContinuation(b[1]) then
        var b1: int := b[1];
        Some((((b0 - 0xC0) * 64 + (b1 - 0x80)) as char, 2))
      else None
    else if 0xE0 <= b0 <= 0xEF then
      if |b| >= 3 && IsContinuation(b[1]) && IsContinuation(b[2])
         && (b0 != 0xE0 || b[1] >= 0xA0) && (b0 != 0xED || b[1] <= 0x9F) then
        var b1: int, b2: int := b[1], b[2];
        Some((((b0 - 0xE0) * 4096 + (b1 - 0x80) * 64 + (b2 - 0x80)) as char, 3))
      else None
    else if 0xF0 <= b0 <= 0xF4 then
      if |b| >= 4 && IsContinuation(b[1]) && IsContinuation(b[2]) && IsContinuation(b[3])
         && (b0 != 0xF0 || b[1] >= 0x90) && (b0 != 0xF4 || b[1] <= 0x8F) then
        var b1: int, b2: int, b3: int := b[1], b[2], b[3];
        Some((((b0 - 0xF0) * 262144 + (b1 - 0x80) * 4096 + (b2 - 0x80) * 64 + (b3 - 0x80)) as char, 4))
      else None
    else None
  }

  /** `String::from_utf8`: Some(text) for well-formed input, None (a `FromUtf8Error`) otherwise. */
  function Decode(b: seq<byte>): (r: Option<string>)
    ensures r.Some? ==> EncodedLength(r.value) == |b|
    decreases |b|
  {
    if b == [] then Some([])
    else match DecodeFirst(b)
      case None => None
      case Some((c, n)) =>
        match Decode(b[n..])
        case None => None
        case Some(rest) =>
          assert ([c] + rest)[1..] == rest;
          Some([c] + rest)
  }

  /**
   * The UTF-8 encoding of one scalar value, written out independently of the
   * decoder: six payload bits per continuation byte, the lead byte's marker
   * bits telling how many bytes follow.
   */
  function Encode(c: char): (b: seq<byte>)
    ensures |b| == Width(c)
  {
    var x := c as int;
    if x < 0x80 then [x]
    else if x < 0x800 then [0xC0 + x / 64, 0x80 + x % 64]
    else if x < 0x10000 then [0xE0 + x / 64 / 64, 0x80 + x / 64 % 64, 0x80 + x % 64]
    else [0xF0 + x / 64 / 64 / 64, 0x80 + x / 64 / 64 % 64, 0x80 + x / 64 % 64, 0x80 + x % 64]
  }

  /** The UTF-8 encoding of a string: its scalar values' encodings, one after another. */
  function EncodeString(s: string): (b: seq<byte>)
    ensures |b| == EncodedLength(s)
  {
    if s == [] then [] else Encode(s[0]) + EncodeString(s[1..])
  }

  /** An encoded scalar value decodes back to itself, whatever bytes follow it. */
  lemma DecodeFirstOfEncode(c: char, rest: seq<byte>)
    ensures DecodeFirst(Encode(c) + rest) == Some((c, Width(c)))
  {
    var e := Encode(c);
    var b := e + rest;
    var x := c as int;
    assert b[..|e|] == e;
    assert b[0] == e[0];
    if |e| >= 2 { assert b[1] == e[1]; }
    if |e| >= 3 { assert b[2] == e[2]; }
    if |e| >= 4 { assert b[3] == e[3]; }
    if 0x800 <= x < 0x10000 {
      assert x / 64 / 64 == 0 ==> x / 64 % 64 >= 32;
      assert x / 64 / 64 == 13 ==> x < 0xD800 && x / 64 % 64 <= 0x1F;
    } else if 0x10000 <= x {
      assert x / 64 / 64 / 64 == 0 ==> x / 64 / 64 % 64 >= 16;
      assert x / 64 / 64 / 64 == 4 ==> x / 64 / 64 % 64 <= 0x0F;
    }
  }

  /** The bytes a well-formed first scalar value takes are that value's encoding. */
  lemma EncodeOfDecodeFirst(b: seq<byte>)
    requires |b| > 0 && DecodeFirst(b).Some?
    ensures b[..DecodeFirst(b).value.1] == Encode(DecodeFirst(b).value.0)
  {
    var n := DecodeFirst(b).value.1;
    if n == 2 {
      assert b[..2] == [b[0], b[1]];
      EncodeOfTwo(b[0], b[1]);
    } else if n == 3 {
      assert b[..3] == [b[0], b[1], b[2]];
      EncodeOfThree(b[0], b[1], b[2]);
    } else if n == 4 {
      assert b[..4] == [b[0], b[1], b[2], b[3]];
      EncodeOfFour(b[0], b[1], b[2], b[3]);
    }
  }

  /** A well-formed two-byte sequence is the encoding of its scalar value. */
  lemma EncodeOfTwo(b0: byte, b1: byte)
    requires 0xC2 <= b0 <= 0xDF && IsContinuation(b1)
    ensures Encode(((b0 - 0xC0) * 64 + (b1 - 0x80)) as char) == [b0, b1]
  {
    SixBits(b0 - 0xC0, b1 - 0x80);
  }

  /** A well-formed three-byte sequence is the encoding of its scalar value. */
  lemma EncodeOfThree(b0: byte, b1: byte, b2: byte)
    requires 0xE0 <= b0 <= 0xEF && IsContinuation(b1) && IsContinuation(b2)
    requires (b0 != 0xE0 || b1 >= 0xA0) && (b0 != 0xED || b1 <= 0x9F)
    ensures Encode(((b0 - 0xE0) * 4096 + (b1 - 0x80) * 64 + (b2 - 0x80)) as char) == [b0, b1, b2]
  {
    SixBits(b0 - 0xE0, b1 - 0x80);
    SixBits((b0 - 0xE0) * 64 + (b1 - 0x80), b2 - 0x80);
  }

  /** A well-formed four-byte sequence is the encoding of its scalar value. */
  lemma EncodeOfFour(b0: byte, b1: byte, b2: byte, b3: byte)
    requires 0xF0 <= b0 <= 0xF4 && IsContinuation(b1) && IsContinuation(b2) && IsContinuation(b3)
    requires (b0 != 0xF0 || b1 >= 0x90) && (b0 != 0xF4 || b1 <= 0x8F)
    ensures Encode(((b0 - 0xF0) * 262144 + (b1 - 0x80) * 4096 + (b2 - 0x80) * 64 + (b3 - 0x80)) as char)
            == [b0, b1, b2, b3]
  {
    SixBits(b0 - 0xF0, b1 - 0x80);
    SixBits((b0 - 0xF0) * 64 + (b1 - 0x80), b2 - 0x80);
    SixBits(((b0 - 0xF0) * 64 + (b1 - 0x80)) * 64 + (b2 - 0x80), b3 - 0x80);
  }

  /** Appending six low bits and taking them off again. */
  lemma SixBits(q: int, r: int)
    requires 0 <= r < 64
    ensures (q * 64 + r) / 64 == q && (q * 64 + r) % 64 == r
  {
  }

  /** Every string's encoding is accepted and decodes back to the string. */
  lemma {:induction false} DecodeOfEncode(s: string)
    ensures Decode(EncodeString(s)) == Some(s)
  {
    if s != [] {
      var b := EncodeString(s);
      var rest := EncodeString(s[1..]);
      DecodeFirstOfEncode(s[0], rest);
      DecodeStep(b, s[0], Width(s[0]));
      assert b[Width(s[0])..] == rest;
      DecodeOfEncode(s[1..]);
      assert [s[0]] + s[1..] == s;
    }
  }

  /** Whatever is accepted is the encoding of the text it decodes to. */
  lemma {:induction false} EncodeOfDecode(b: seq<byte>)
    requires Decode(b).Some?
    ensures EncodeString(Decode(b).value) == b
    decreases |b|
  {
    if b != [] {
      var c, n := DecodeFirst(b).value.0, DecodeFirst(b).value.1;
      DecodeStep(b, c, n);
      var rest := Decode(b[n..]).value;
      var t := [c] + rest;
      assert t[0] == c && t[1..] == rest;
      EncodeOfDecode(b[n..]);
      EncodeOfDecodeFirst(b);
      assert b == b[..n] + b[n..];
    }
  }

  /**
   * `String::from_utf8` accepts exactly the encodings of strings, and
   * decodes each to the string it encodes.
   */
  lemma DecodeIffEncode(b: seq<byte>, s: string)
    ensures Decode(b) == Some(s) <==> EncodeString(s) == b
  {
    if Decode(b) == Some(s) {
      EncodeOfDecode(b);
    }
    if EncodeString(s) == b {
      DecodeOfEncode(s);
    }
  }

  /** The encoded length of a concatenation is the sum of the encoded lengths. */
  lemma {:induction false} EncodedLengthConcat(a: string, b: string)
    ensures EncodedLength(a + b) == EncodedLength(a) + EncodedLength(b)
  {
    if a == [] {
      assert a + b == b;
    } else {
      assert (a + b)[0] == a[0];
      assert (a + b)[1..] == a[1..] + b;
      EncodedLengthConcat(a[1..], b);
    }
  }

  /** A substring never takes more bytes than the string it is cut from. */
  lemma EncodedLengthSlice(s: string, i: nat, j: nat)
    requires i <= j <= |s|
    ensures EncodedLength(s[i..j]) <= EncodedLength(s)
  {
    assert s == s[..i] + s[i..j] + s[j..];
    EncodedLengthConcat(s[..i] + s[i..j], s[j..]);
    EncodedLengthConcat(s[..i], s[i..j]);
  }

  /** Unfolds `Decode` once at a well-formed first scalar value `c` of `n` bytes. */
  lemma DecodeStep(b: seq<byte>, c: char, n: nat)
    requires |b| > 0 && DecodeFirst(b) == Some((c, n))
    ensures n <= |b|
    ensures Decode(b) == if Decode(b[n..]).None? then None else Some([c] + Decode(b[n..]).value)
  {
  }

  /** Decoding two well-formed halves decodes their concatenation. */
  lemma {:induction false} DecodeConcat(a: seq<byte>, b: seq<byte>)
    requires Decode(a).Some? && Decode(b).Some?
    ensures Decode(a + b) == Some(Decode(a).value + Decode(b).value)
    decreases |a|
  {
    if a == [] {
      assert a + b == b;
      assert Decode(a).value + Decode(b).value == Decode(b).value;
    } else {
      var first := DecodeFirst(a);
      var c, n := first.value.0, first.value.1;
      DecodeStep(a, c, n);
      var ta, tb := Decode(a[n..]).value, Decode(b).value;
      DecodeConcat(a[n..], b);
      DecodeFollowedBy(a, b, c, n, ta + tb);
      Associates([c], ta, tb);
    }
  }

  /** Bytes appended after a well-formed first scalar value leave it in front of the decoded rest. */
  lemma DecodeFollowedBy(a: seq<byte>, b: seq<byte>, c: char, n: nat, rest: string)
    requires |a| > 0 && DecodeFirst(a) == Some((c, n))
    requires Decode(a[n..] + b) == Some(rest)
    ensures Decode(a + b) == Some([c] + rest)
  {
    DecodeFirstPrefix(a, a + b);
    assert (a + b)[n..] == a[n..] + b;
    DecodeStep(a + b, c, n);
  }

  /** The first scalar value decodes the same once more bytes follow. */
  lemma DecodeFirstPrefix(a: seq<byte>, ab: seq<byte>)
    requires |a| > 0 && DecodeFirst(a).Some?
    requires |ab| >= |a| && ab[..|a|] == a
    ensures DecodeFirst(ab) == DecodeFirst(a)
  {
    assert ab[0] == a[0];
    if |a| >= 2 { assert ab[1] == a[1]; }
    if |a| >= 3 { assert ab[2] == a[2]; }
    if |a| >= 4 { assert ab[3] == a[3]; }
  }
}
