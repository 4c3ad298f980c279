/**
 UTF-8: the recogniser that the ids are checked with, and the encoding of section 3 of
 RFC 3629 that it recognises.
 */
module Utf8 {
  import opened Bytes

  predicate IsTail(b: byte) {
    0x80 <= b <= 0xBF
  }

  /** Well-formed UTF-8, following the grammar in section 4 of RFC 3629. */
  predicate ValidUtf8(s: seq<byte>) {
    if s == [] then true
    else if s[0] < 0x80 then ValidUtf8(s[1..])
    else if 0xC2 <= s[0] <= 0xDF then |s| >= 2 && IsTail(s[1]) && ValidUtf8(s[2..])
    else if 0xE0 <= s[0] <= 0xEF then
      && |s| >= 3 && IsTail(s[1]) && IsTail(s[2])
      && (s[0] == 0xE0 ==> s[1] >= 0xA0)
      && (s[0] == 0xED ==> s[1] <= 0x9F)
      && ValidUtf8(s[3..])
    else if 0xF0 <= s[0] <= 0xF4 then
      && |s| >= 4 && IsTail(s[1]) && IsTail(s[2]) && IsTail(s[3])
      && (s[0] == 0xF0 ==> s[1] >= 0x90)
      && (s[0] == 0xF4 ==> s[1] <= 0x8F)
      && ValidUtf8(s[4..])
    else false
  }

  /** Unicode scalar values. */
  type Scalar = c: nat | c <= 0x10FFFF && !(0xD800 <= c <= 0xDFFF)

  function EncodeScalar(c: Scalar): (r: seq<byte>)
    ensures 1 <= |r| <= 4
  {
    if c < 0x80 then [c]
    else if c < 0x800 then [0xC0 + c / 64, 0x80 + c % 64]
    else if c < 0x10000 then [0xE0 + c / 64 / 64, 0x80 + c / 64 % 64, 0x80 + c % 64]
    else [0xF0 + c / 64 / 64 / 64, 0x80 + c / 64 / 64 % 64, 0x80 + c / 64 % 64, 0x80 + c % 64]
  }

  function EncodeString(cs: seq<Scalar>): seq<byte> {
    if cs == [] then [] else EncodeScalar(cs[0]) + EncodeString(cs[1..])
  }

  /** The recogniser takes an encoded scalar off the front. */
  lemma ScalarIsValid(c: Scalar, rest: seq<byte>)
    ensures ValidUtf8(EncodeScalar(c) + rest) <==> ValidUtf8(rest)
  {
    var s := EncodeScalar(c) + rest;
    assert s[|EncodeScalar(c)|..] == rest;
  }

  lemma {:induction false} EncodedIsValid(cs: seq<Scalar>)
    ensures ValidUtf8(EncodeString(cs))
  {
    if cs == [] {
    } else {
      EncodedIsValid(cs[1..]);
      ScalarIsValid(cs[0], EncodeString(cs[1..]));
    }
  }

  lemma Digits(a: nat, b: nat)
    requires b < 64
    ensures (a * 64 + b) / 64 == a && (a * 64 + b) % 64 == b
  {
  }

  lemma TwoBytes(first: byte, x: byte) returns (c: Scalar)
    requires 0xC2 <= first <= 0xDF && IsTail(x)
    ensures EncodeScalar(c) == [first, x]
  {
    var a, b := first as int - 0xC0, x as int - 0x80;
    Digits(a, b);
    c := a * 64 + b;
  }

  lemma ThreeBytes(first: byte, x: byte, y: byte) returns (c: Scalar)
    requires 0xE0 <= first <= 0xEF && IsTail(x) && IsTail(y)
    requires (first == 0xE0 ==> x >= 0xA0) && (first == 0xED ==> x <= 0x9F)
    ensures EncodeScalar(c) == [first, x, y]
  {
    var a, b, d := first as int - 0xE0, x as int - 0x80, y as int - 0x80;
    Digits(a, b);
    Digits(a * 64 + b, d);
    c := (a * 64 + b) * 64 + d;
  }

  lemma FourBytes(first: byte, x: byte, y: byte, z: byte) returns (c: Scalar)
    requires 0xF0 <= first <= 0xF4 && IsTail(x) && IsTail(y) && IsTail(z)
    requires (first == 0xF0 ==> x >= 0x90) && (first == 0xF4 ==> x <= 0x8F)
    ensures EncodeScalar(c) == [first, x, y, z]
  {
    var a, b, d, e := first as int - 0xF0, x as int - 0x80, y as int - 0x80, z as int - 0x80;
    Digits(a, b);
    Digits(a * 64 + b, d);
    Digits((a * 64 + b) * 64 + d, e);
    c := ((a * 64 + b) * 64 + d) * 64 + e;
  }

  /** What the recogniser accepts starts with an encoded scalar. */
  lemma FirstScalar(s: seq<byte>) returns (c: Scalar)
    requires s != [] && ValidUtf8(s)
    ensures var n := |EncodeScalar(c)|; n <= |s| && s[..n] == EncodeScalar(c) && ValidUtf8(s[n..])
  {
    hide EncodeScalar;
    if s[0] < 0x80 {
      c := s[0];
      OneByte(c);
    } else if s[0] <= 0xDF {
      c := TwoBytes(s[0], s[1]);
    } else if s[0] <= 0xEF {
      c := ThreeBytes(s[0], s[1], s[2]);
    } else {
      c := FourBytes(s[0], s[1], s[2], s[3]);
    }
  }

  lemma OneByte(c: Scalar)
    requires c < 0x80
    ensures EncodeScalar(c) == [c]
  {
  }

  lemma {:induction false} ValidIsEncoded(s: seq<byte>) returns (cs: seq<Scalar>)
    requires ValidUtf8(s)
    ensures EncodeString(cs) == s
    decreases |s|
  {
    hide ValidUtf8, EncodeScalar;
    if s == [] {
      cs := [];
    } else {
      var c := FirstScalar(s);
      var n := |EncodeScalar(c)|;
      var rest := ValidIsEncoded(s[n..]);
      cs := [c] + rest;
      assert cs[1..] == rest && s == s[..n] + s[n..];
    }
  }

  /** The recogniser accepts exactly the encodings of sequences of scalar values. */
  lemma Utf8Iff(s: seq<byte>)
    ensures ValidUtf8(s) <==> exists cs :: EncodeString(cs) == s
  {
    if ValidUtf8(s) {
      var cs := ValidIsEncoded(s);
    }
    if cs :| EncodeString(cs) == s {
      EncodedIsValid(cs);
    }
  }
}
