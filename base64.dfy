/**
 * Base64 as defined in section 4 of RFC 4648, in the two directions Node's
 * `Buffer` provides: `buf.toString('base64')` (the canonical padded
 * encoding) and `Buffer.from(str, 'base64')`, whose decoder is lenient: it
 * reads only up to the first '=', skips characters outside the alphabet,
 * also accepts the URL-safe alphabet of section 5 ('-' and '_'), and drops a
 * trailing group that holds fewer than eight bits.
 */
module Base64 {
  import opened Wrappers
  import opened Utf8

  /** The character of a 6-bit value, table 1 of RFC 4648. */
  function CharOf(v: int): (c: char)
    requires 0 <= v < 64
    ensures c != '=' && c != ' ' && c != ':'
  {
    if v < 26 then ('A' as int + v) as char
    else if v < 52 then ('a' as int + (v - 26)) as char
    else if v < 62 then ('0' as int + (v - 52)) as char
    else if v == 62 then '+'
    else '/'
  }

  /** The 6-bit value of a character the decoder accepts, if any. */
  function ValueOf(c: char): (r: Option<int>)
    ensures r.Some? ==> 0 <= r.value < 64
  {
    if 'A' <= c <= 'Z' then Some(c as int - 'A' as int)
    else if 'a' <= c <= 'z' then Some(c as int - 'a' as int + 26)
    else if '0' <= c <= '9' then Some(c as int - '0' as int + 52)
    else if c == '+' || c == '-' then Some(62)
    else if c == '/' || c == '_' then Some(63)
    else None
  }

  lemma ValueOfCharOf(v: int)
    requires 0 <= v < 64
    ensures ValueOf(CharOf(v)) == Some(v)
  {
  }

  predicate IsSextets(vs: seq<int>)
  {
    forall i :: 0 <= i < |vs| ==> 0 <= vs[i] < 64
  }

  /** The 6-bit groups of a byte string, the last one zero-filled. */
  function Sextets(bs: seq<Byte>): (vs: seq<int>)
    ensures IsSextets(vs)
    ensures |vs| == (8 * |bs| + 5) / 6
    decreases |bs|
  {
    if |bs| == 0 then []
    else if |bs| == 1 then [bs[0] / 4, (bs[0] % 4) * 16]
    else if |bs| == 2 then [bs[0] / 4, (bs[0] % 4) * 16 + bs[1] / 16, (bs[1] % 16) * 4]
    else [bs[0] / 4, (bs[0] % 4) * 16 + bs[1] / 16, (bs[1] % 16) * 4 + bs[2] / 64, bs[2] % 64]
         + Sextets(bs[3..])
  }

  function Chars(vs: seq<int>): (s: string)
    requires IsSextets(vs)
    ensures |s| == |vs|
    ensures forall i :: 0 <= i < |s| ==> s[i] == CharOf(vs[i])
  {
    if vs == [] then "" else [CharOf(vs[0])] + Chars(vs[1..])
  }

  /** The '=' characters that complete the last group of four. */
  function Padding(n: nat): string
  {
    if n % 3 == 1 then "==" else if n % 3 == 2 then "=" else ""
  }

  /** `buf.toString('base64')`: the padded encoding, four characters per three bytes. */
  function Encode(bs: seq<Byte>): (s: string)
    ensures |s| == 4 * ((|bs| + 2) / 3)
    ensures ' ' !in s && ':' !in s
  {
    Chars(Sextets(bs)) + Padding(|bs|)
  }

  /** The characters before the first '='. */
  function BeforePad(s: string): (r: string)
    ensures '=' !in r
    ensures |r| <= |s| && r == s[..|r|]
  {
    if s == [] || s[0] == '=' then "" else [s[0]] + BeforePad(s[1..])
  }

  /** The 6-bit values of the accepted characters, in order. */
  function Values(s: string): (vs: seq<int>)
    ensures IsSextets(vs)
    ensures |vs| <= |s|
  {
    if s == [] then []
    else
      match ValueOf(s[0])
      case Some(v) => [v] + Values(s[1..])
      case None => Values(s[1..])
  }

  /** Reassembles bytes from 6-bit values, four values to three bytes. */
  function Bytes(vs: seq<int>): (bs: seq<Byte>)
    requires IsSextets(vs)
    ensures |bs| == 3 * |vs| / 4
    decreases |vs|
  {
    if |vs| < 2 then []
    else if |vs| == 2 then [vs[0] * 4 + vs[1] / 16]
    else if |vs| == 3 then [vs[0] * 4 + vs[1] / 16, (vs[1] % 16) * 16 + vs[2] / 4]
    else [vs[0] * 4 + vs[1] / 16, (vs[1] % 16) * 16 + vs[2] / 4, (vs[2] % 4) * 64 + vs[3]]
         + Bytes(vs[4..])
  }

  /** `Buffer.from(s, 'base64')`. */
  function Decode(s: string): (bs: seq<Byte>)
    ensures |bs| <= 3 * |s| / 4
  {
    var vs := Values(BeforePad(s));
    assert 3 * |vs| <= 3 * |s|;
    Bytes(vs)
  }

  // ---------------------------------------------------------------------
  // Round trip

  lemma {:induction false} BeforePadStops(body: string, pad: string)
    requires '=' !in body
    requires pad == [] || pad[0] == '='
    ensures BeforePad(body + pad) == body
    decreases |body|
  {
    if body == [] {
      assert body + pad == pad;
    } else {
      assert (body + pad)[0] == body[0] && (body + pad)[1..] == body[1..] + pad;
      BeforePadStops(body[1..], pad);
      assert [body[0]] + body[1..] == body;
    }
  }

  lemma {:induction false} ValuesChars(vs: seq<int>)
    requires IsSextets(vs)
    ensures Values(Chars(vs)) == vs
    decreases |vs|
  {
    if vs != [] {
      var s := Chars(vs);
      ValueOfCharOf(vs[0]);
      assert s[1..] == Chars(vs[1..]);
      ValuesChars(vs[1..]);
      assert [vs[0]] + vs[1..] == vs;
    }
  }

  /** One group: the four values of three bytes reassemble to those bytes. */
  lemma GroupRoundTrip(b0: Byte, b1: Byte, b2: Byte)
    ensures (b0 / 4) * 4 + ((b0 % 4) * 16 + b1 / 16) / 16 == b0
    ensures (((b0 % 4) * 16 + b1 / 16) % 16) * 16 + ((b1 % 16) * 4 + b2 / 64) / 4 == b1
    ensures (((b1 % 16) * 4 + b2 / 64) % 4) * 64 + b2 % 64 == b2
  {
    var v1 := (b0 % 4) * 16 + b1 / 16;
    assert v1 / 16 == b0 % 4 && v1 % 16 == b1 / 16;
    var v2 := (b1 % 16) * 4 + b2 / 64;
    assert v2 / 4 == b1 % 16 && v2 % 4 == b2 / 64;
  }

  lemma {:induction false} BytesSextets(bs: seq<Byte>)
    ensures Bytes(Sextets(bs)) == bs
    decreases |bs|
  {
    if |bs| == 1 {
      GroupRoundTrip(bs[0], 0, 0);
    } else if |bs| == 2 {
      GroupRoundTrip(bs[0], bs[1], 0);
    } else if |bs| >= 3 {
      GroupRoundTrip(bs[0], bs[1], bs[2]);
      var vs := Sextets(bs);
      assert vs[4..] == Sextets(bs[3..]);
      BytesSextets(bs[3..]);
      assert bs == bs[..3] + bs[3..];
    }
  }

  /** Round trip: Node's decoder reads back every canonical encoding. */
  lemma DecodeEncode(bs: seq<Byte>)
    ensures Decode(Encode(bs)) == bs
  {
    var vs := Sextets(bs);
    BeforePadStops(Chars(vs), Padding(|bs|));
    ValuesChars(vs);
    BytesSextets(bs);
  }
}
