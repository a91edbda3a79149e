/*
 * Bit-level vocabulary for the planar-to-interleaved packers
 * (src/bin/common/convert.h): the byte a uint32_t value is truncated to,
 * the uint32_t view of a signed sample, and the reference MSB-first bit
 * stream that a sequence of N-bit samples denotes.
 */
module Bits {

  import opened Arith

  /** (uint8_t)x: the low eight bits. */
  function Lo8(x: bv32): bv8
  {
    (x & 0xFF) as bv8
  }

  /** (uint32_t)x for a 32-bit signed value: its two's-complement bit pattern. */
  function ToU32(x: I32): bv32
  {
    (if x >= 0 then x else x + U32) as bv32
  }

  /** Every sample is an N-bit value: nothing is set above bit N - 1. */
  predicate Fits(s: seq<bv32>, n: bv32)
    requires n <= 32
  {
    forall i :: 0 <= i < |s| ==> s[i] >> n == 0
  }

  /**
   * Bit q of the stream made by writing each sample of src as an n-bit
   * field, most significant bit first; positions past the last sample
   * read as 0.
   */
  function StreamBit(src: seq<bv32>, n: bv32, q: bv32): bv32
    requires 1 <= n <= 16
  {
    FieldBit(src, (q / n) as int, n - 1 - q % n)
  }

  /** Bit j of sample a of src, or 0 past the last sample. */
  function FieldBit(src: seq<bv32>, a: int, j: bv32): bv32
  {
    if 0 <= a < |src| && j < 16 then (src[a] >> j) & 1 else 0
  }

  /** Byte k of that stream: stream bits 8k .. 8k+7, the first of them in the top bit. */
  function StreamByte(src: seq<bv32>, n: bv32, k: bv32): bv8
    requires 1 <= n <= 16
  {
    var q := 8 * k;
    Lo8((StreamBit(src, n, q) << 7) | (StreamBit(src, n, q + 1) << 6)
      | (StreamBit(src, n, q + 2) << 5) | (StreamBit(src, n, q + 3) << 4)
      | (StreamBit(src, n, q + 4) << 3) | (StreamBit(src, n, q + 5) << 2)
      | (StreamBit(src, n, q + 6) << 1) | StreamBit(src, n, q + 7))
  }

  /** The first m bytes of that stream. */
  function StreamBytes(src: seq<bv32>, n: bv32, m: nat): (r: seq<bv8>)
    requires 1 <= n <= 16 && m <= 0x1000_0000
    ensures |r| == m
  {
    if m == 0 then [] else StreamBytes(src, n, m - 1) + [StreamByte(src, n, (m - 1) as bv32)]
  }

  lemma IndexAsBv(i: int, k: bv32)
    requires 0 <= i < 0x1000_0000 && k as int == i
    ensures i as bv32 == k
  {
  }

  lemma {:induction false} StreamBytesAt(s: seq<bv32>, n: bv32, m: nat, k: bv32)
    requires 1 <= n <= 16 && m <= 0x1000_0000 && (k as int) < m
    ensures StreamBytes(s, n, m)[k as int] == StreamByte(s, n, k)
  {
    if (k as int) < m - 1 {
      StreamBytesAt(s, n, m - 1, k);
    } else {
      IndexAsBv(m - 1, k);
    }
  }

  /**
   * bytes is the first m bytes of the stream: the bytes a packer writes for
   * the samples s are exactly those samples laid end to end as n-bit fields.
   */
  ghost predicate IsStream(bytes: seq<bv8>, s: seq<bv32>, n: bv32, m: nat)
    requires 1 <= n <= 16
  {
    |bytes| == m && forall k: bv32 | (k as int) < m :: bytes[k as int] == StreamByte(s, n, k)
  }

  lemma StreamBytesIsStream(s: seq<bv32>, n: bv32, m: nat)
    requires 1 <= n <= 16 && m <= 0x1000_0000
    ensures IsStream(StreamBytes(s, n, m), s, n, m)
  {
    forall k: bv32 | (k as int) < m ensures StreamBytes(s, n, m)[k as int] == StreamByte(s, n, k) {
      StreamBytesAt(s, n, m, k);
    }
  }

  /** The number of bytes that hold `bits` bits, the last one zero-padded. */
  function CeilBytes(bits: nat): nat
  {
    (bits + 7) / 8
  }

}
