// Hash primitives. SHA-256, MD5 and HMAC-SHA-256 are not computed: a digest
// is the symbolic term naming the function and its input, so two digests
// are equal exactly when their inputs are (an idealised, collision-free
// hash). Where a service slices or compares the hexadecimal text of a
// digest, the rendering to hex is a parameter of that operation.

module Hashing {

  newtype byte = x: int | 0 <= x < 256

  datatype Digest =
    | Sha256(data: seq<byte>)
    | Md5(data: seq<byte>)
    | HmacSha256(key: seq<byte>, message: seq<byte>)

  /** `c.encode("utf-8")` for one Unicode scalar value. */
  function EncodeChar(c: char): (bs: seq<byte>)
    ensures 1 <= |bs| <= 4
    ensures (c as int < 128) <==> |bs| == 1
    ensures c as int < 128 ==> bs[0] as int == c as int
  {
    var n := c as int;
    if n < 0x80 then [n as byte]
    else if n < 0x800 then [(0xC0 + n / 0x40) as byte, (0x80 + n % 0x40) as byte]
    else if n < 0x10000 then
      [(0xE0 + n / 0x1000) as byte, (0x80 + (n / 0x40) % 0x40) as byte, (0x80 + n % 0x40) as byte]
    else
      [(0xF0 + n / 0x40000) as byte, (0x80 + (n / 0x1000) % 0x40) as byte,
       (0x80 + (n / 0x40) % 0x40) as byte, (0x80 + n % 0x40) as byte]
  }

  /** `s.encode("utf-8")` */
  function Utf8(s: string): (bs: seq<byte>)
    ensures |bs| >= |s|
  {
    if s == [] then [] else EncodeChar(s[0]) + Utf8(s[1..])
  }

  predicate IsAscii(s: string) {
    forall i :: 0 <= i < |s| ==> s[i] as int < 128
  }

  /** ASCII text encodes to one byte per character, each byte the code point. */
  lemma {:induction false} Utf8Ascii(s: string)
    requires IsAscii(s)
    ensures |Utf8(s)| == |s|
    ensures forall i :: 0 <= i < |s| ==> Utf8(s)[i] as int == s[i] as int
  {
    if s != [] {
      Utf8Ascii(s[1..]);
      assert Utf8(s) == EncodeChar(s[0]) + Utf8(s[1..]);
    }
  }

  /** The encoding of a concatenation is the concatenation of the encodings. */
  lemma {:induction false} Utf8Append(a: string, b: string)
    ensures Utf8(a + b) == Utf8(a) + Utf8(b)
  {
    if a != [] {
      assert (a + b)[1..] == a[1..] + b;
      Utf8Append(a[1..], b);
    } else {
      assert a + b == b;
    }
  }

  /** The code point whose encoding starts `bs`, read back from its bytes. */
  function DecodeFirst(bs: seq<byte>): int
    requires |bs| > 0
  {
    var b0 := bs[0] as int;
    if b0 < 0x80 then b0
    else if b0 < 0xE0 && |bs| >= 2 then (b0 - 0xC0) * 0x40 + (bs[1] as int - 0x80)
    else if b0 < 0xF0 && |bs| >= 3 then
      ((b0 - 0xE0) * 0x40 + (bs[1] as int - 0x80)) * 0x40 + (bs[2] as int - 0x80)
    else if |bs| >= 4 then
      (((b0 - 0xF0) * 0x40 + (bs[1] as int - 0x80)) * 0x40 + (bs[2] as int - 0x80)) * 0x40 + (bs[3] as int - 0x80)
    else 0
  }

  /** The length of the encoding that starts with byte `b0`. */
  function LengthOf(b0: byte): nat {
    if b0 < 0x80 then 1 else if b0 < 0xE0 then 2 else if b0 < 0xF0 then 3 else 4
  }

  /** Each character's encoding announces its own length and decodes back to it. */
  lemma EncodeCharDecodes(c: char, rest: seq<byte>)
    ensures LengthOf(EncodeChar(c)[0]) == |EncodeChar(c)|
    ensures DecodeFirst(EncodeChar(c) + rest) == c as int
  {
    var n := c as int;
    var bs := EncodeChar(c) + rest;
    if n < 0x80 {
    } else if n < 0x800 {
      assert bs[0] as int == 0xC0 + n / 0x40 && bs[1] as int == 0x80 + n % 0x40;
    } else if n < 0x10000 {
      assert bs[0] as int == 0xE0 + n / 0x1000;
      assert bs[1] as int == 0x80 + (n / 0x40) % 0x40 && bs[2] as int == 0x80 + n % 0x40;
      assert n / 0x1000 == (n / 0x40) / 0x40;
    } else {
      assert bs[0] as int == 0xF0 + n / 0x40000;
      assert n / 0x40000 == ((n / 0x40) / 0x40) / 0x40;
      assert n / 0x1000 == (n / 0x40) / 0x40;
    }
  }

  /** Different texts have different encodings. */
  lemma {:induction false} Utf8Injective(a: string, b: string)
    requires Utf8(a) == Utf8(b)
    ensures a == b
  {
    if a != [] && b != [] {
      var ea, eb := EncodeChar(a[0]), EncodeChar(b[0]);
      EncodeCharDecodes(a[0], Utf8(a[1..]));
      EncodeCharDecodes(b[0], Utf8(b[1..]));
      assert ea[0] == Utf8(a)[0] == Utf8(b)[0] == eb[0];
      assert |ea| == |eb|;
      assert a[0] as int == b[0] as int;
      assert Utf8(a)[|ea|..] == Utf8(a[1..]);
      assert Utf8(b)[|eb|..] == Utf8(b[1..]);
      Utf8Injective(a[1..], b[1..]);
    }
  }

  /** `hashlib.sha256(text.encode("utf-8"))` */
  function Sha256Text(text: string): (d: Digest)
    ensures d.Sha256?
  {
    Sha256(Utf8(text))
  }
}
