/**
 * UTF-8, as used by `Encoding.UTF8.GetBytes` and `Encoding.UTF8.GetString` to turn
 * a header value into bytes and back.  Characters are Unicode scalar values.
 */
module Utf8 {

  type byte = x: int | 0 <= x < 256

  const Replacement: char := 0xFFFD as char

  predicate IsAscii(s: string) {
    forall i :: 0 <= i < |s| ==> s[i] as int < 0x80
  }

  predicate IsContinuation(b: byte) {
    0x80 <= b < 0xC0
  }

  /** The one to four bytes that encode a scalar value. */
  function EncodeChar(c: char): (r: seq<byte>)
    ensures 1 <= |r| <= 4
    ensures |r| == 1 <==> c as int < 0x80
  {
    var n := c as int;
    if n < 0x80 then [n]
    else if n < 0x800 then [0xC0 + n / 64, 0x80 + n % 64]
    else if n < 0x10000 then [0xE0 + n / 4096, 0x80 + (n / 64) % 64, 0x80 + n % 64]
    else [0xF0 + n / 262144, 0x80 + (n / 4096) % 64, 0x80 + (n / 64) % 64, 0x80 + n % 64]
  }

  function Encode(s: string): (r: seq<byte>)
    ensures |r| >= |s|
  {
    if s == [] then [] else EncodeChar(s[0]) + Encode(s[1..])
  }

  /**
   * Decodes the first character of a non-empty byte string and says how many bytes
   * it took.  A byte that does not start a well-formed sequence decodes to U+FFFD
   * and takes one byte.
   */
  function DecodeFirst(b: seq<byte>): (r: (char, nat))
    requires |b| > 0
    ensures 1 <= r.1 <= |b| && r.1 <= 4
  {
    var b0: int := b[0];
    var b1: int := if |b| > 1 then b[1] else 0;
    var b2: int := if |b| > 2 then b[2] else 0;
    var b3: int := if |b| > 3 then b[3] else 0;
    if b0 < 0x80 then
      (b0 as char, 1)
    else if 0xC2 <= b0 < 0xE0 && |b| >= 2 && IsContinuation(b1) then
      (((b0 - 0xC0) * 64 + (b1 - 0x80)) as char, 2)
    else if 0xE0 <= b0 < 0xF0 && |b| >= 3 && IsContinuation(b1) && IsContinuation(b2)
         && (b0 != 0xE0 || b1 >= 0xA0) && (b0 != 0xED || b1 < 0xA0) then
      (((b0 - 0xE0) * 4096 + (b1 - 0x80) * 64 + (b2 - 0x80)) as char, 3)
    else if 0xF0 <= b0 < 0xF5 && |b| >= 4 && IsContinuation(b1) && IsContinuation(b2)
         && IsContinuation(b3) && (b0 != 0xF0 || b1 >= 0x90) && (b0 != 0xF4 || b1 < 0x90) then
      (((b0 - 0xF0) * 262144 + (b1 - 0x80) * 4096 + (b2 - 0x80) * 64 + (b3 - 0x80)) as char, 4)
    else
      (Replacement, 1)
  }

  function Decode(b: seq<byte>): (r: string)
    ensures |r| <= |b|
    decreases |b|
  {
    if b == [] then [] else
      var (c, n) := DecodeFirst(b);
      [c] + Decode(b[n..])
  }

  /** Decoding the encoding of one character gives it back, whatever follows it. */
  lemma DecodeFirstEncodeChar(c: char, rest: seq<byte>)
    ensures DecodeFirst(EncodeChar(c) + rest) == (c, |EncodeChar(c)|)
  {
    var n := c as int;
    if n < 0x80 {
    } else if n < 0x800 {
      DecodeTwo(c, rest);
    } else if n < 0x10000 {
      DecodeThree(c, rest);
    } else {
      DecodeFour(c, rest);
    }
  }

  lemma DecodeTwo(c: char, rest: seq<byte>)
    requires 0x80 <= c as int < 0x800
    ensures DecodeFirst(EncodeChar(c) + rest) == (c, 2)
  {
    var n := c as int;
    var q, r := n / 64, n % 64;
    assert n == q * 64 + r;
    var b := EncodeChar(c) + rest;
    assert b[0] as int == 0xC0 + q && b[1] as int == 0x80 + r;
  }

  lemma DecodeThree(c: char, rest: seq<byte>)
    requires 0x800 <= c as int < 0x10000
    ensures DecodeFirst(EncodeChar(c) + rest) == (c, 3)
  {
    var n := c as int;
    var q, r := n / 64, n % 64;
    var q2, r2 := q / 64, q % 64;
    assert n == q * 64 + r;
    assert q == q2 * 64 + r2;
    assert n / 4096 == q2;
    var b := EncodeChar(c) + rest;
    assert b[0] as int == 0xE0 + q2 && b[1] as int == 0x80 + r2 && b[2] as int == 0x80 + r;
  }

  lemma DecodeFour(c: char, rest: seq<byte>)
    requires 0x10000 <= c as int
    ensures DecodeFirst(EncodeChar(c) + rest) == (c, 4)
  {
    var n := c as int;
    var q, r := n / 64, n % 64;
    var q2, r2 := q / 64, q % 64;
    var q3, r3 := q2 / 64, q2 % 64;
    assert n == q * 64 + r;
    assert q == q2 * 64 + r2;
    assert q2 == q3 * 64 + r3;
    assert n / 4096 == q2;
    assert n / 262144 == q3;
    var b := EncodeChar(c) + rest;
    assert b[0] as int == 0xF0 + q3 && b[1] as int == 0x80 + r3;
    assert b[2] as int == 0x80 + r2 && b[3] as int == 0x80 + r;
  }

  /** `GetString(GetBytes(s)) == s` for every string. */
  lemma {:induction false} DecodeEncode(s: string)
    ensures Decode(Encode(s)) == s
  {
    if s != [] {
      var e := EncodeChar(s[0]);
      var rest := Encode(s[1..]);
      DecodeFirstEncodeChar(s[0], rest);
      assert (e + rest)[|e|..] == rest;
      DecodeEncode(s[1..]);
    }
  }

  /** An ASCII string is encoded byte for byte. */
  lemma {:induction false} EncodeAscii(s: string)
    requires IsAscii(s)
    ensures |Encode(s)| == |s|
    ensures forall i :: 0 <= i < |s| ==> Encode(s)[i] == s[i] as int
  {
    if s != [] {
      assert IsAscii(s[1..]) by {
        forall i | 0 <= i < |s[1..]| ensures s[1..][i] as int < 0x80 { assert s[1..][i] == s[i + 1]; }
      }
      EncodeAscii(s[1..]);
    }
  }
}
