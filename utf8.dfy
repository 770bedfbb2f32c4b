/**
 * UTF-8 as Node's `Buffer` converts text: `Buffer.from(str)` encodes a
 * string, `buf.toString('utf-8')` decodes bytes, replacing every ill-formed
 * sequence by U+FFFD one maximal subpart at a time (the WHATWG Encoding
 * Standard's decoder, which Node follows).
 */
module Utf8 {

  type Byte = b: int | 0 <= b < 256

  const Replacement: char := '�'

  /** A continuation byte, 10xxxxxx. */
  predicate IsCont(b: Byte)
  {
    0x80 <= b <= 0xBF
  }

  /** The encoding of one Unicode scalar value: one to four bytes. */
  function EncodeChar(c: char): (bs: seq<Byte>)
    ensures 1 <= |bs| <= 4
    ensures (|bs| == 1) == (c as int < 0x80)
  {
    var n := c as int;
    if n < 0x80 then [n]
    else if n < 0x800 then [0xC0 + n / 64, 0x80 + n % 64]
    else if n < 0x10000 then [0xE0 + n / 4096, 0x80 + (n / 64) % 64, 0x80 + n % 64]
    else [0xF0 + n / 0x40000, 0x80 + (n / 4096) % 64, 0x80 + (n / 64) % 64, 0x80 + n % 64]
  }

  /** The UTF-8 bytes of a string. */
  function Encode(s: string): (bs: seq<Byte>)
    ensures |bs| >= |s|
  {
    if s == [] then [] else EncodeChar(s[0]) + Encode(s[1..])
  }

  /**
   * Decodes the character at the front of `bs`: the scalar value and the
   * number of bytes consumed. An ill-formed sequence becomes U+FFFD and
   * consumes its maximal subpart — the lead byte and the continuation bytes
   * that could still have belonged to a well-formed sequence.
   */
  function Step(bs: seq<Byte>): (r: (char, nat))
    requires |bs| > 0
    ensures 1 <= r.1 <= |bs| && r.1 <= 4
  {
    var b0: int := bs[0];
    if b0 < 0x80 then (b0 as char, 1)
    else if 0xC2 <= b0 <= 0xDF then
      if |bs| >= 2 && IsCont(bs[1]) then (Scalar2(b0, bs[1]) as char, 2)
      else (Replacement, 1)
    else if 0xE0 <= b0 <= 0xEF then
      var lo := if b0 == 0xE0 then 0xA0 else 0x80;
      var hi := if b0 == 0xED then 0x9F else 0xBF;
      if |bs| < 2 || !(lo <= bs[1] <= hi) then (Replacement, 1)
      else if |bs| < 3 || !IsCont(bs[2]) then (Replacement, 2)
      else (Scalar3(b0, bs[1], bs[2]) as char, 3)
    else if 0xF0 <= b0 <= 0xF4 then
      var lo := if b0 == 0xF0 then 0x90 else 0x80;
      var hi := if b0 == 0xF4 then 0x8F else 0xBF;
      if |bs| < 2 || !(lo <= bs[1] <= hi) then (Replacement, 1)
      else if |bs| < 3 || !IsCont(bs[2]) then (Replacement, 2)
      else if |bs| < 4 || !IsCont(bs[3]) then (Replacement, 3)
      else (Scalar4(b0, bs[1], bs[2], bs[3]) as char, 4)
    else (Replacement, 1)
  }

  /** The scalar value a two-byte sequence carries: 5 + 6 payload bits. */
  function Scalar2(b0: int, b1: int): (n: int)
    requires 0xC2 <= b0 <= 0xDF && 0x80 <= b1 <= 0xBF
    ensures 0x80 <= n < 0x800
  {
    (b0 - 0xC0) * 64 + (b1 - 0x80)
  }

  /** The scalar value a three-byte sequence carries: 4 + 6 + 6 payload bits. */
  function Scalar3(b0: int, b1: int, b2: int): (n: int)
    requires 0xE0 <= b0 <= 0xEF && 0x80 <= b1 <= 0xBF && 0x80 <= b2 <= 0xBF
    requires b0 == 0xE0 ==> b1 >= 0xA0
    requires b0 == 0xED ==> b1 <= 0x9F
    ensures 0x800 <= n < 0x10000 && !(0xD800 <= n < 0xE000)
  {
    (b0 - 0xE0) * 4096 + (b1 - 0x80) * 64 + (b2 - 0x80)
  }

  /** The scalar value a four-byte sequence carries: 3 + 6 + 6 + 6 payload bits. */
  function Scalar4(b0: int, b1: int, b2: int, b3: int): (n: int)
    requires 0xF0 <= b0 <= 0xF4 && 0x80 <= b1 <= 0xBF && 0x80 <= b2 <= 0xBF && 0x80 <= b3 <= 0xBF
    requires b0 == 0xF0 ==> b1 >= 0x90
    requires b0 == 0xF4 ==> b1 <= 0x8F
    ensures 0x10000 <= n < 0x110000
  {
    (b0 - 0xF0) * 0x40000 + (b1 - 0x80) * 4096 + (b2 - 0x80) * 64 + (b3 - 0x80)
  }

  /** `Buffer.from(bs).toString('utf-8')`. */
  function Decode(bs: seq<Byte>): (s: string)
    ensures |s| <= |bs|
    decreases |bs|
  {
    if |bs| == 0 then ""
    else
      var (c, n) := Step(bs);
      [c] + Decode(bs[n..])
  }

  /** The decoder reads back exactly the character its encoding starts with. */
  lemma StepEncodeChar(c: char, rest: seq<Byte>)
    ensures Step(EncodeChar(c) + rest) == (c, |EncodeChar(c)|)
  {
    var n := c as int;
    if n < 0x80 {
    } else if n < 0x800 {
      StepTwo(c, rest);
    } else if n < 0x10000 {
      StepThree(c, rest);
    } else {
      StepFour(c, rest);
    }
  }

  lemma StepTwo(c: char, rest: seq<Byte>)
    requires 0x80 <= c as int < 0x800
    ensures Step(EncodeChar(c) + rest) == (c, 2)
  {
    var n := c as int;
    var bs := EncodeChar(c) + rest;
    assert bs[0] == 0xC0 + n / 64 && bs[1] == 0x80 + n % 64;
    assert Scalar2(bs[0], bs[1]) == n;
  }

  lemma StepThree(c: char, rest: seq<Byte>)
    requires 0x800 <= c as int < 0x10000
    ensures Step(EncodeChar(c) + rest) == (c, 3)
  {
    var n := c as int;
    var bs := EncodeChar(c) + rest;
    var q := n / 64;
    assert bs[0] == 0xE0 + q / 64 by { assert n / 4096 == q / 64; }
    assert bs[1] == 0x80 + q % 64;
    assert bs[2] == 0x80 + n % 64;
    assert q / 64 * 64 + q % 64 == q;
    assert q * 64 + n % 64 == n;
    assert Scalar3(bs[0], bs[1], bs[2]) == n;
  }

  lemma StepFour(c: char, rest: seq<Byte>)
    requires 0x10000 <= c as int
    ensures Step(EncodeChar(c) + rest) == (c, 4)
  {
    var n := c as int;
    var bs := EncodeChar(c) + rest;
    var q := n / 64;
    var p := q / 64;
    assert n / 4096 == p;
    assert n / 0x40000 == p / 64;
    assert bs[0] == 0xF0 + p / 64;
    assert bs[1] == 0x80 + p % 64;
    assert bs[2] == 0x80 + q % 64;
    assert bs[3] == 0x80 + n % 64;
    assert p / 64 * 64 + p % 64 == p;
    assert p * 64 + q % 64 == q;
    assert q * 64 + n % 64 == n;
    assert Scalar4(bs[0], bs[1], bs[2], bs[3]) == n;
  }

  /** Round trip: decoding the UTF-8 encoding of a string gives the string back. */
  lemma {:induction false} DecodeEncode(s: string)
    ensures Decode(Encode(s)) == s
  {
    if s != [] {
      var head := EncodeChar(s[0]);
      var tail := Encode(s[1..]);
      StepEncodeChar(s[0], tail);
      assert (head + tail)[|head|..] == tail;
      DecodeEncode(s[1..]);
      assert [s[0]] + s[1..] == s;
    }
  }

  /** Encoding distributes over concatenation. */
  lemma {:induction false} EncodeAppend(a: string, b: string)
    ensures Encode(a + b) == Encode(a) + Encode(b)
    decreases |a|
  {
    if a == [] {
      assert a + b == b;
    } else {
      var ab := a + b;
      assert ab[0] == a[0] && ab[1..] == a[1..] + b;
      var head := EncodeChar(a[0]);
      EncodeAppend(a[1..], b);
      calc {
        Encode(ab);
        head + Encode(a[1..] + b);
        head + (Encode(a[1..]) + Encode(b));
        (head + Encode(a[1..])) + Encode(b);
      }
    }
  }
}
