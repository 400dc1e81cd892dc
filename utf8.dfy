/** UTF-8 (RFC 3629), the octets Go's `[]byte(s)` conversion yields for a
    string. A Dafny `char` is a Unicode scalar value, so every string here is
    well-formed text; `Decode` is the strict decoder proved to be the inverse
    of `Encode` in both directions. */
module Utf8 {
  import opened Wrappers
  import opened Octets

  /** Highest scalar value of each encoded length. */
  const Max1: int := 0x7F
  const Max2: int := 0x7FF
  const Max3: int := 0xFFFF

  /** The octets of one scalar value (section 3 of RFC 3629). */
  function EncodeChar(c: char): (b: seq<Byte>)
    ensures 1 <= |b| <= 4
    ensures |b| == 1 <==> c as int <= Max1
    ensures |b| == 1 ==> b[0] == c as int
    ensures forall i :: 0 <= i < |b| && 1 < |b| ==> 0x80 <= b[i]
  {
    var n := c as int;
    if n <= Max1 then [n]
    else if n <= Max2 then [0xC0 + n / 64, 0x80 + n % 64]
    else if n <= Max3 then [0xE0 + n / 64 / 64, 0x80 + n / 64 % 64, 0x80 + n % 64]
    else [0xF0 + n / 64 / 64 / 64, 0x80 + n / 64 / 64 % 64, 0x80 + n / 64 % 64, 0x80 + n % 64]
  }

  function Encode(s: string): (b: seq<Byte>)
  {
    if s == [] then [] else EncodeChar(s[0]) + Encode(s[1..])
  }

  predicate IsContinuation(x: Byte) {
    0x80 <= x < 0xC0
  }

  predicate IsScalar(n: int) {
    (0 <= n < 0xD800) || (0xE000 <= n < 0x11_0000)
  }

  /** The first scalar value of `b` and how many octets it took, rejecting
      overlong forms, surrogates and values past U+10FFFF. */
  function DecodeFirst(b: seq<Byte>): (r: Option<(char, nat)>)
    requires |b| > 0
    ensures r.Some? ==> 1 <= r.value.1 <= |b|
  {
    var b0 := b[0];
    if b0 <= Max1 then Some((b0 as char, 1))
    else if 0xC2 <= b0 < 0xE0 then
      if |b| >= 2 && IsContinuation(b[1]) then
        Some((((b0 - 0xC0) * 64 + (b[1] - 0x80)) as char, 2))
      else None
    else if 0xE0 <= b0 < 0xF0 then
      if |b| >= 3 && IsContinuation(b[1]) && IsContinuation(b[2]) then
        var n := ((b0 - 0xE0) * 64 + (b[1] - 0x80)) * 64 + (b[2] - 0x80);
        if n <= Max2 || !IsScalar(n) then None else Some((n as char, 3))
      else None
    else if 0xF0 <= b0 < 0xF5 then
      if |b| >= 4 && IsContinuation(b[1]) && IsContinuation(b[2]) && IsContinuation(b[3]) then
        var n := (((b0 - 0xF0) * 64 + (b[1] - 0x80)) * 64 + (b[2] - 0x80)) * 64 + (b[3] - 0x80);
        if n <= Max3 || !IsScalar(n) then None else Some((n as char, 4))
      else None
    else None
  }

  function Decode(b: seq<Byte>): Option<string>
    decreases |b|
  {
    if b == [] then Some([])
    else match DecodeFirst(b)
      case None => None
      case Some((c, k)) =>
        match Decode(b[k..])
        case None => None
        case Some(s) => Some([c] + s)
  }

  // ---- one scalar value

  lemma DecodeEncodeChar(c: char, rest: seq<Byte>)
    ensures DecodeFirst(EncodeChar(c) + rest) == Some((c, |EncodeChar(c)|))
  {
    var n := c as int;
    var b := EncodeChar(c) + rest;
    if n <= Max1 {
    } else if n <= Max2 {
      QuotRem64(n / 64, n % 64);
    } else if n <= Max3 {
      assert n / 64 == n / 64 / 64 * 64 + n / 64 % 64;
    } else {
      assert n / 64 / 64 == n / 64 / 64 / 64 * 64 + n / 64 / 64 % 64;
      assert n / 64 == n / 64 / 64 * 64 + n / 64 % 64;
    }
  }

  lemma EncodeDecodeFirst(b: seq<Byte>)
    requires |b| > 0 && DecodeFirst(b).Some?
    ensures EncodeChar(DecodeFirst(b).value.0) == b[..DecodeFirst(b).value.1]
  {
    var b0 := b[0];
    if b0 <= Max1 {
      assert b[..1] == [b0];
    } else if b0 < 0xE0 {
      EncodeTwo(b0, b[1]);
      assert b[..2] == [b0, b[1]];
    } else if b0 < 0xF0 {
      EncodeThree(b0, b[1], b[2]);
      assert b[..3] == [b0, b[1], b[2]];
    } else {
      EncodeFour(b0, b[1], b[2], b[3]);
      assert b[..4] == [b0, b[1], b[2], b[3]];
    }
  }

  lemma EncodeTwo(b0: Byte, b1: Byte)
    requires 0xC2 <= b0 < 0xE0 && IsContinuation(b1)
    ensures var n := (b0 - 0xC0) * 64 + (b1 - 0x80);
      Max1 < n <= Max2 && EncodeChar(n as char) == [b0, b1]
  {
    QuotRem64(b0 - 0xC0, b1 - 0x80);
  }

  lemma EncodeThree(b0: Byte, b1: Byte, b2: Byte)
    requires 0xE0 <= b0 < 0xF0 && IsContinuation(b1) && IsContinuation(b2)
    requires var n := ((b0 - 0xE0) * 64 + (b1 - 0x80)) * 64 + (b2 - 0x80); Max2 < n && IsScalar(n)
    ensures EncodeChar((((b0 - 0xE0) * 64 + (b1 - 0x80)) * 64 + (b2 - 0x80)) as char) == [b0, b1, b2]
  {
    var q := (b0 - 0xE0) * 64 + (b1 - 0x80);
    QuotRem64(q, b2 - 0x80);
    QuotRem64(b0 - 0xE0, b1 - 0x80);
  }

  lemma EncodeFour(b0: Byte, b1: Byte, b2: Byte, b3: Byte)
    requires 0xF0 <= b0 < 0xF5 && IsContinuation(b1) && IsContinuation(b2) && IsContinuation(b3)
    requires var n := (((b0 - 0xF0) * 64 + (b1 - 0x80)) * 64 + (b2 - 0x80)) * 64 + (b3 - 0x80);
      Max3 < n && IsScalar(n)
    ensures EncodeChar(((((b0 - 0xF0) * 64 + (b1 - 0x80)) * 64 + (b2 - 0x80)) * 64 + (b3 - 0x80)) as char)
      == [b0, b1, b2, b3]
  {
    var q1 := (b0 - 0xF0) * 64 + (b1 - 0x80);
    var q2 := q1 * 64 + (b2 - 0x80);
    QuotRem64(q2, b3 - 0x80);
    QuotRem64(q1, b2 - 0x80);
    QuotRem64(b0 - 0xF0, b1 - 0x80);
  }

  // ---- whole strings

  /** Decoding undoes encoding. */
  lemma {:induction false} DecodeEncode(s: string)
    ensures Decode(Encode(s)) == Some(s)
  {
    if s != [] {
      var e := EncodeChar(s[0]);
      DecodeEncodeChar(s[0], Encode(s[1..]));
      assert (e + Encode(s[1..]))[|e|..] == Encode(s[1..]);
      DecodeEncode(s[1..]);
      assert [s[0]] + s[1..] == s;
    }
  }

  /** Every octet string the strict decoder accepts is the encoding of the
      text it decodes to. */
  lemma {:induction false} EncodeDecode(b: seq<Byte>)
    requires Decode(b).Some?
    ensures Encode(Decode(b).value) == b
    decreases |b|
  {
    if b != [] {
      var c := DecodeFirst(b).value.0;
      var k := DecodeFirst(b).value.1;
      EncodeDecodeFirst(b);
      EncodeDecode(b[k..]);
      assert Decode(b).value == [c] + Decode(b[k..]).value;
      assert b == b[..k] + b[k..];
    }
  }
}
