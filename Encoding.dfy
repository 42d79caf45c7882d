/**
  Bytes, hexadecimal digests and the UTF-8 encoding that Rust's `String::into_bytes`
  and `str::as_bytes` expose.
 */
module Encoding {

  newtype byte = x: int | 0 <= x < 0x100

  /** The digits `hex::encode` writes: lower-case hexadecimal. */
  predicate IsLowerHex(c: char) {
    '0' <= c <= '9' || 'a' <= c <= 'f'
  }

  /** A byte holding the code of a lower-case hexadecimal digit. */
  predicate IsLowerHexByte(b: byte) {
    '0' as int <= b as int <= '9' as int || 'a' as int <= b as int <= 'f' as int
  }

  const DIGEST_LENGTH := 64

  /** What `hex::encode` of a 32-byte SHA-256 digest always yields. */
  type HexDigest = s: string | |s| == DIGEST_LENGTH && forall i :: 0 <= i < |s| ==> IsLowerHex(s[i])
    witness seq(DIGEST_LENGTH, _ => '0')

  /** The UTF-8 encoding of one Unicode scalar value. */
  function EncodeChar(c: char): (bytes: seq<byte>)
    ensures 1 <= |bytes| <= 4
    ensures c as int < 0x80 ==> bytes == [c as int as byte]
    ensures c as int >= 0x80 ==> forall k :: 0 <= k < |bytes| ==> bytes[k] >= 0x80
  {
    var n := c as int;
    if n < 0x80 then
      [n as byte]
    else if n < 0x800 then
      [(0xC0 + n / 0x40) as byte, (0x80 + n % 0x40) as byte]
    else if n < 0x1_0000 then
      [(0xE0 + n / 0x1000) as byte, (0x80 + n / 0x40 % 0x40) as byte, (0x80 + n % 0x40) as byte]
    else
      [(0xF0 + n / 0x4_0000) as byte, (0x80 + n / 0x1000 % 0x40) as byte,
       (0x80 + n / 0x40 % 0x40) as byte, (0x80 + n % 0x40) as byte]
  }

  /** The UTF-8 bytes of a string, as `into_bytes` returns them. */
  function Encode(s: string): (bytes: seq<byte>)
    ensures |s| <= |bytes| <= 4 * |s|
  {
    if s == [] then [] else EncodeChar(s[0]) + Encode(s[1..])
  }

  /** Encoding distributes over concatenation, so `format!` pieces can be encoded one by one. */
  lemma {:induction false} EncodeAppend(a: string, b: string)
    ensures Encode(a + b) == Encode(a) + Encode(b)
  {
    if a == [] {
      assert a + b == b;
    } else {
      assert (a + b)[0] == a[0];
      assert (a + b)[1..] == a[1..] + b;
      EncodeAppend(a[1..], b);
      assert Encode(a + b) == EncodeChar(a[0]) + Encode(a[1..] + b);
    }
  }

  /** A string of hexadecimal digits encodes to one byte per digit, each the digit's code. */
  lemma {:induction false} EncodeHexDigits(s: string)
    requires forall i :: 0 <= i < |s| ==> IsLowerHex(s[i])
    ensures |Encode(s)| == |s|
    ensures forall k :: 0 <= k < |s| ==> Encode(s)[k] as int == s[k] as int
  {
    if s != [] {
      assert forall i :: 0 <= i < |s[1..]| ==> s[1..][i] == s[i + 1];
      EncodeHexDigits(s[1..]);
      assert IsLowerHex(s[0]);
      assert Encode(s) == EncodeChar(s[0]) + Encode(s[1..]);
    }
  }

  /** When a string opens with two ASCII characters, the second byte is the second character. */
  lemma {:induction false} EncodeSecondByte(s: string)
    requires |s| >= 2 && s[0] as int < 0x80 && s[1] as int < 0x80
    ensures |Encode(s)| >= 2 && Encode(s)[1] as int == s[1] as int
  {
    assert Encode(s) == EncodeChar(s[0]) + Encode(s[1..]);
    assert Encode(s[1..]) == EncodeChar(s[1..][0]) + Encode(s[2..]);
  }
}
