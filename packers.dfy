/*
 * The planar-to-interleaved packers of src/bin/common/convert.h:63-541.
 * PackN turns SrcChk(N) samples of N bits (the smallest count that fills
 * whole bytes) into ChunkBytes(N) bytes, and its packFinal turns the
 * 1 .. SrcChk(N) - 1 samples left at the end of a row into the bytes that
 * hold them, the last one padded with zeros. Pack16 stores one uint16_t
 * natively (modelled little-endian) and Pack16BE stores it big-endian.
 */
module Packers {

  import opened Bits
  import opened BitWriter
  import opened WriterProofs
  import opened PackerKinds

  /** Pack1::pack (convert.h:66-78). */
  function Pack1Bytes(s: seq<bv32>): (r: seq<bv8>)
    requires |s| == 8
    ensures |r| == 1
  {
    var s0, s1, s2, s3, s4, s5, s6, s7 := s[0], s[1], s[2], s[3], s[4], s[5], s[6], s[7];
    [Lo8((s0 << 7) | (s1 << 6) | (s2 << 5) | (s3 << 4) | (s4 << 3) | (s5 << 2) | (s6 << 1) | s7)]
  }

  /** Pack2::pack (convert.h:117-124). */
  function Pack2Bytes(s: seq<bv32>): (r: seq<bv8>)
    requires |s| == 4
    ensures |r| == 1
  {
    var s0, s1, s2, s3 := s[0], s[1], s[2], s[3];
    [Lo8((s0 << 6) | (s1 << 4) | (s2 << 2) | s3)]
  }

  /** Pack3::pack (convert.h:142-155). */
  function Pack3Bytes(s: seq<bv32>): (r: seq<bv8>)
    requires |s| == 8
    ensures |r| == 3
  {
    var s0, s1, s2, s3, s4, s5, s6, s7 := s[0], s[1], s[2], s[3], s[4], s[5], s[6], s[7];
    [Lo8((s0 << 5) | (s1 << 2) | (s2 >> 1)), Lo8((s2 << 7) | (s3 << 4) | (s4 << 1) | (s5 >> 2)), Lo8((s5 << 6) | (s6 << 3) | s7)]
  }

  /** Pack4::pack (convert.h:168-176). */
  function Pack4Bytes(s: seq<bv32>): (r: seq<bv8>)
    requires |s| == 2
    ensures |r| == 1
  {
    var s0, s1 := s[0], s[1];
    [Lo8((s0 << 4) | (s1 & 0xF))]
  }

  /** Pack5::pack (convert.h:185-200). */
  function Pack5Bytes(s: seq<bv32>): (r: seq<bv8>)
    requires |s| == 8
    ensures |r| == 5
  {
    var s0, s1, s2, s3, s4, s5, s6, s7 := s[0], s[1], s[2], s[3], s[4], s[5], s[6], s[7];
    [Lo8((s0 << 3) | (s1 >> 2)), Lo8((s1 << 6) | (s2 << 1) | (s3 >> 4)), Lo8((s3 << 4) | (s4 >> 1)), Lo8((s4 << 7) | (s5 << 2) | (s6 >> 3)), Lo8((s6 << 5) | s7)]
  }

  /** Pack6::pack (convert.h:212-221). */
  function Pack6Bytes(s: seq<bv32>): (r: seq<bv8>)
    requires |s| == 4
    ensures |r| == 3
  {
    var s0, s1, s2, s3 := s[0], s[1], s[2], s[3];
    [Lo8((s0 << 2) | (s1 >> 4)), Lo8(((s1 & 0xF) << 4) | (s2 >> 2)), Lo8(((s2 & 0x3) << 6) | s3)]
  }

  /** Pack7::pack (convert.h:245-262). */
  function Pack7Bytes(s: seq<bv32>): (r: seq<bv8>)
    requires |s| == 8
    ensures |r| == 7
  {
    var s0, s1, s2, s3, s4, s5, s6, s7 := s[0], s[1], s[2], s[3], s[4], s[5], s[6], s[7];
    [Lo8((s0 << 1) | (s1 >> 6)), Lo8((s1 << 2) | (s2 >> 5)), Lo8((s2 << 3) | (s3 >> 4)), Lo8((s3 << 4) | (s4 >> 3)), Lo8((s4 << 5) | (s5 >> 2)), Lo8((s5 << 6) | (s6 >> 1)), Lo8((s6 << 7) | s7)]
  }

  /** Pack8::pack (convert.h:274-276). */
  function Pack8Bytes(s: seq<bv32>): (r: seq<bv8>)
    requires |s| == 1
    ensures |r| == 1
  {
    [Lo8(s[0])]
  }

  /** Pack9::pack (convert.h:286-305). */
  function Pack9Bytes(s: seq<bv32>): (r: seq<bv8>)
    requires |s| == 8
    ensures |r| == 9
  {
    var s0, s1, s2, s3, s4, s5, s6, s7 := s[0], s[1], s[2], s[3], s[4], s[5], s[6], s[7];
    [Lo8(s0 >> 1), Lo8((s0 << 7) | (s1 >> 2)), Lo8((s1 << 6) | (s2 >> 3)), Lo8((s2 << 5) | (s3 >> 4)), Lo8((s3 << 4) | (s4 >> 5)), Lo8((s4 << 3) | (s5 >> 6)), Lo8((s5 << 2) | (s6 >> 7)), Lo8((s6 << 1) | (s7 >> 8)), Lo8(s7)]
  }

  /** Pack10::pack (convert.h:317-328). */
  function Pack10Bytes(s: seq<bv32>): (r: seq<bv8>)
    requires |s| == 4
    ensures |r| == 5
  {
    var s0, s1, s2, s3 := s[0], s[1], s[2], s[3];
    [Lo8(s0 >> 2), Lo8(((s0 & 0x3) << 6) | (s1 >> 4)), Lo8(((s1 & 0xF) << 4) | (s2 >> 6)), Lo8(((s2 & 0x3F) << 2) | (s3 >> 8)), Lo8(s3)]
  }

  /** Pack11::pack (convert.h:353-374). */
  function Pack11Bytes(s: seq<bv32>): (r: seq<bv8>)
    requires |s| == 8
    ensures |r| == 11
  {
    var s0, s1, s2, s3, s4, s5, s6, s7 := s[0], s[1], s[2], s[3], s[4], s[5], s[6], s[7];
    [Lo8(s0 >> 3), Lo8((s0 << 5) | (s1 >> 6)), Lo8((s1 << 2) | (s2 >> 9)), Lo8(s2 >> 1), Lo8((s2 << 7) | (s3 >> 4)), Lo8((s3 << 4) | (s4 >> 7)), Lo8((s4 << 1) | (s5 >> 10)), Lo8(s5 >> 2), Lo8((s5 << 6) | (s6 >> 5)), Lo8((s6 << 3) | (s7 >> 8)), Lo8(s7)]
  }

  /** Pack12::pack (convert.h:386-393). */
  function Pack12Bytes(s: seq<bv32>): (r: seq<bv8>)
    requires |s| == 2
    ensures |r| == 3
  {
    var s0, s1 := s[0], s[1];
    [Lo8(s0 >> 4), Lo8(((s0 & 0xF) << 4) | (s1 >> 8)), Lo8(s1)]
  }

  /** Pack13::pack (convert.h:404-427). */
  function Pack13Bytes(s: seq<bv32>): (r: seq<bv8>)
    requires |s| == 8
    ensures |r| == 13
  {
    var s0, s1, s2, s3, s4, s5, s6, s7 := s[0], s[1], s[2], s[3], s[4], s[5], s[6], s[7];
    [Lo8(s0 >> 5), Lo8((s0 << 3) | (s1 >> 10)), Lo8(s1 >> 2), Lo8((s1 << 6) | (s2 >> 7)), Lo8((s2 << 1) | (s3 >> 12)), Lo8(s3 >> 4), Lo8((s3 << 4) | (s4 >> 9)), Lo8(s4 >> 1), Lo8((s4 << 7) | (s5 >> 6)), Lo8((s5 << 2) | (s6 >> 11)), Lo8(s6 >> 3), Lo8((s6 << 5) | (s7 >> 8)), Lo8(s7)]
  }

  /** Pack14::pack (convert.h:439-452). */
  function Pack14Bytes(s: seq<bv32>): (r: seq<bv8>)
    requires |s| == 4
    ensures |r| == 7
  {
    var s0, s1, s2, s3 := s[0], s[1], s[2], s[3];
    [Lo8(s0 >> 6), Lo8(((s0 & 0x3F) << 2) | (s1 >> 12)), Lo8(s1 >> 4), Lo8(((s1 & 0xF) << 4) | (s2 >> 10)), Lo8(s2 >> 2), Lo8(((s2 & 0x3) << 6) | (s3 >> 8)), Lo8(s3)]
  }

  /** Pack15::pack (convert.h:481-506). */
  function Pack15Bytes(s: seq<bv32>): (r: seq<bv8>)
    requires |s| == 8
    ensures |r| == 15
  {
    var s0, s1, s2, s3, s4, s5, s6, s7 := s[0], s[1], s[2], s[3], s[4], s[5], s[6], s[7];
    [Lo8(s0 >> 7), Lo8((s0 << 1) | (s1 >> 14)), Lo8(s1 >> 6), Lo8((s1 << 2) | (s2 >> 13)), Lo8(s2 >> 5), Lo8((s2 << 3) | (s3 >> 12)), Lo8(s3 >> 4), Lo8((s3 << 4) | (s4 >> 11)), Lo8(s4 >> 3), Lo8((s4 << 5) | (s5 >> 10)), Lo8(s5 >> 2), Lo8((s5 << 6) | (s6 >> 9)), Lo8(s6 >> 1), Lo8((s6 << 7) | (s7 >> 8)), Lo8(s7)]
  }

  /** Pack16::pack (convert.h:518-521). */
  function Pack16Bytes(s: seq<bv32>): (r: seq<bv8>)
    requires |s| == 1
    ensures |r| == 2
  {
    var s0 := s[0];
    [Lo8(s0), Lo8(s0 >> 8)]
  }

  /** Pack16BE::pack (convert.h:532-536). */
  function Pack16BEBytes(s: seq<bv32>): (r: seq<bv8>)
    requires |s| == 1
    ensures |r| == 2
  {
    var s0 := s[0];
    [Lo8(s0 >> 8), Lo8(s0)]
  }

  /** Pack1::packFinal (convert.h:79-112): samples past w read as 0. */
  function Pack1Final(s: seq<bv32>): seq<bv8>
    requires 1 <= |s| <= 7
  {
    var s0, s1, s2, s3, s4, s5, s6 := s[0], if |s| > 1 then s[1] else 0, if |s| > 2 then s[2] else 0, if |s| > 3 then s[3] else 0, if |s| > 4 then s[4] else 0, if |s| > 5 then s[5] else 0, if |s| > 6 then s[6] else 0;
    [Lo8((s0 << 7) | (s1 << 6) | (s2 << 5) | (s3 << 4) | (s4 << 3) | (s5 << 2) | (s6 << 1))]
  }

  /** Pack2::packFinal (convert.h:125-137): samples past w read as 0. */
  function Pack2Final(s: seq<bv32>): seq<bv8>
    requires 1 <= |s| <= 3
  {
    var s0, s1, s2 := s[0], if |s| > 1 then s[1] else 0, if |s| > 2 then s[2] else 0;
    [Lo8((s0 << 6) | (s1 << 4) | (s2 << 2))]
  }

  /** Pack4::packFinal (convert.h:177-180): samples past w read as 0. */
  function Pack4Final(s: seq<bv32>): seq<bv8>
    requires 1 <= |s| <= 1
  {
    var s0 := s[0];
    [Lo8(s0 << 4)]
  }

  /** Pack6::packFinal (convert.h:222-240): samples past w read as 0. */
  function Pack6Final(s: seq<bv32>): seq<bv8>
    requires 1 <= |s| <= 3
  {
    var s0, s1, s2 := s[0], if |s| > 1 then s[1] else 0, if |s| > 2 then s[2] else 0;
    [Lo8((s0 << 2) | (s1 >> 4))] + (if |s| > 1 then [Lo8(((s1 & 0xF) << 4) | (s2 >> 2))] + (if |s| > 2 then [Lo8((s2 & 0x3) << 6)] else []) else [])
  }

  /** Pack10::packFinal (convert.h:329-348): samples past w read as 0. */
  function Pack10Final(s: seq<bv32>): seq<bv8>
    requires 1 <= |s| <= 3
  {
    var s0, s1, s2 := s[0], if |s| > 1 then s[1] else 0, if |s| > 2 then s[2] else 0;
    [Lo8(s0 >> 2), Lo8(((s0 & 0x3) << 6) | (s1 >> 4))] + (if |s| > 1 then [Lo8(((s1 & 0xF) << 4) | (s2 >> 6))] + (if |s| > 2 then [Lo8((s2 & 0x3F) << 2)] else []) else [])
  }

  /** Pack12::packFinal (convert.h:394-399): samples past w read as 0. */
  function Pack12Final(s: seq<bv32>): seq<bv8>
    requires 1 <= |s| <= 1
  {
    var s0 := s[0];
    [Lo8(s0 >> 4), Lo8((s0 & 0xF) << 4)]
  }

  /** Pack14::packFinal (convert.h:453-476): samples past w read as 0. */
  function Pack14Final(s: seq<bv32>): seq<bv8>
    requires 1 <= |s| <= 3
  {
    var s0, s1, s2 := s[0], if |s| > 1 then s[1] else 0, if |s| > 2 then s[2] else 0;
    [Lo8(s0 >> 6), Lo8(((s0 & 0x3F) << 2) | (s1 >> 12))] + (if |s| > 1 then [Lo8(s1 >> 4), Lo8(((s1 & 0xF) << 4) | (s2 >> 10))] + (if |s| > 2 then [Lo8(s2 >> 2), Lo8((s2 & 0x3) << 6)] else []) else [])
  }

  /** packer.pack(src, &dest): the bytes written for one chunk of SrcChk(p) samples. */
  function PackBytes(p: Packer, s: seq<bv32>): (r: seq<bv8>)
    requires |s| == SrcChk(p)
    ensures |r| == ChunkBytes(p)
  {
    match p
    case Pack1 => Pack1Bytes(s)
    case Pack2 => Pack2Bytes(s)
    case Pack3 => Pack3Bytes(s)
    case Pack4 => Pack4Bytes(s)
    case Pack5 => Pack5Bytes(s)
    case Pack6 => Pack6Bytes(s)
    case Pack7 => Pack7Bytes(s)
    case Pack8 => Pack8Bytes(s)
    case Pack9 => Pack9Bytes(s)
    case Pack10 => Pack10Bytes(s)
    case Pack11 => Pack11Bytes(s)
    case Pack12 => Pack12Bytes(s)
    case Pack13 => Pack13Bytes(s)
    case Pack14 => Pack14Bytes(s)
    case Pack15 => Pack15Bytes(s)
    case Pack16 => Pack16Bytes(s)
    case Pack16BE => Pack16BEBytes(s)
  }

  /**
   * packer.packFinal(src, &dest, w) with w == |s|: the bytes written for the
   * samples left over at the end of a row. The 8- and 16-bit packers never
   * have any (SrcChk is 1) and their packFinal writes nothing.
   */
  function PackFinalBytes(p: Packer, s: seq<bv32>): (r: seq<bv8>)
    requires 1 <= |s| < SrcChk(p)
    ensures |r| == CeilBytes(Precision(p) as nat * |s|)
  {
    match p
    case Pack1 => Pack1Final(s)
    case Pack2 => Pack2Final(s)
    case Pack3 => Writer3Length(s); Flush(RunPut(s, 3, |s|))
    case Pack4 => Pack4Final(s)
    case Pack5 => Writer5Length(s); Flush(RunPut(s, 5, |s|))
    case Pack6 => Pack6Final(s)
    case Pack7 => Writer7Length(s); Flush(RunPut(s, 7, |s|))
    case Pack8 => []
    case Pack9 => Writer9Length(s); Flush(RunPut2(s, 9, |s|))
    case Pack10 => Pack10Final(s)
    case Pack11 => Writer11Length(s); Flush(RunPut2(s, 11, |s|))
    case Pack12 => Pack12Final(s)
    case Pack13 => Writer13Length(s); Flush(RunPut2(s, 13, |s|))
    case Pack14 => Pack14Final(s)
    case Pack15 => Writer15Length(s); Flush(RunPut2(s, 15, |s|))
    case Pack16 => []
    case Pack16BE => []
  }
}
