/** Hexadecimal text and bytes as Node's `Buffer` converts them:
    `Buffer.from(s, 'hex')` decodes character pairs from the start and stops
    at the first pair that is not two hex digits (a trailing odd character is
    dropped); `buf.toString('hex')` writes two lower-case digits per byte. */
module Hex {
  import opened Js

  predicate IsHexDigit(c: char) {
    ('0' <= c <= '9') || ('a' <= c <= 'f') || ('A' <= c <= 'F')
  }

  function HexValue(c: char): (d: nat)
    requires IsHexDigit(c)
    ensures d < 16
  {
    if '0' <= c <= '9' then (c as int) - ('0' as int)
    else if 'a' <= c <= 'f' then (c as int) - ('a' as int) + 10
    else (c as int) - ('A' as int) + 10
  }

  function HexChar(d: nat): (c: char)
    requires d < 16
    ensures IsHexDigit(c) && HexValue(c) == d
  {
    if d < 10 then (('0' as int) + d) as char else (('a' as int) + d - 10) as char
  }

  /** `Buffer.from(s, 'hex')` */
  function Decode(s: string): (b: seq<Byte>)
  {
    if |s| < 2 || !IsHexDigit(s[0]) || !IsHexDigit(s[1]) then []
    else [(HexValue(s[0]) * 16 + HexValue(s[1])) as Byte] + Decode(s[2..])
  }

  /** `buf.toString('hex')` */
  function Encode(b: seq<Byte>): (s: string)
  {
    if b == [] then ""
    else [HexChar(b[0] as int / 16), HexChar(b[0] as int % 16)] + Encode(b[1..])
  }

  /** The first `2 * n` characters of `s` are all hex digits. */
  ghost predicate HexPrefix(s: string, n: nat) {
    2 * n <= |s| && forall i :: 0 <= i < 2 * n ==> IsHexDigit(s[i])
  }

  /** Decoding yields at most one byte per two characters. */
  lemma {:induction false} DecodeLength(s: string)
    ensures 2 * |Decode(s)| <= |s|
  {
    if |s| >= 2 && IsHexDigit(s[0]) && IsHexDigit(s[1]) {
      DecodeLength(s[2..]);
    }
  }

  /** Decoding yields at least `n` bytes exactly when the first `2 * n`
      characters are hex digits: decoding stops at the first bad pair. */
  lemma {:induction false} DecodeLengthAtLeast(s: string, n: nat)
    ensures |Decode(s)| >= n <==> HexPrefix(s, n)
  {
    if n > 0 {
      if |s| >= 2 && IsHexDigit(s[0]) && IsHexDigit(s[1]) {
        DecodeLengthAtLeast(s[2..], n - 1);
        if HexPrefix(s[2..], n - 1) {
          assert forall i :: 0 <= i < 2 * n ==> IsHexDigit(s[i]) by {
            forall i | 0 <= i < 2 * n ensures IsHexDigit(s[i]) {
              if i >= 2 { assert s[i] == s[2..][i - 2]; }
            }
          }
        }
        if HexPrefix(s, n) {
          assert forall i :: 0 <= i < 2 * (n - 1) ==> IsHexDigit(s[2..][i]) by {
            forall i | 0 <= i < 2 * (n - 1) ensures IsHexDigit(s[2..][i]) {
              assert s[2..][i] == s[i + 2];
            }
          }
        }
      }
    }
  }

  /** Encoding writes two hex digits per byte. */
  lemma {:induction false} EncodeShape(b: seq<Byte>)
    ensures |Encode(b)| == 2 * |b|
    ensures forall i :: 0 <= i < |Encode(b)| ==> IsHexDigit(Encode(b)[i])
  {
    if b != [] {
      EncodeShape(b[1..]);
      var e := Encode(b);
      assert e == [HexChar(b[0] as int / 16), HexChar(b[0] as int % 16)] + Encode(b[1..]);
      forall i | 0 <= i < |e| ensures IsHexDigit(e[i]) {
        if i >= 2 { assert e[i] == Encode(b[1..])[i - 2]; }
      }
    }
  }

  /** Decoding reads back what encoding wrote, and a suffix after the
      encoded bytes is decoded on its own. */
  lemma {:induction false} DecodeEncode(b: seq<Byte>, t: string)
    ensures Decode(Encode(b) + t) == b + Decode(t)
  {
    if b != [] {
      var hi, lo := HexChar(b[0] as int / 16), HexChar(b[0] as int % 16);
      var s := Encode(b) + t;
      assert s == [hi, lo] + (Encode(b[1..]) + t);
      assert s[0] == hi && s[1] == lo && s[2..] == Encode(b[1..]) + t;
      DecodeEncode(b[1..], t);
      assert (HexValue(hi) * 16 + HexValue(lo)) as Byte == b[0];
      assert Decode(s) == [b[0]] + Decode(s[2..]);
      assert b == [b[0]] + b[1..];
    } else {
      assert Encode(b) + t == t;
    }
  }

  lemma DecodeEncodeExact(b: seq<Byte>)
    ensures Decode(Encode(b)) == b
  {
    DecodeEncode(b, "");
    assert Encode(b) + "" == Encode(b);
  }
}
