/*
 * Proofs that each packer of src/bin/common/convert.h writes the MSB-first
 * bit stream of its samples: one lemma per output byte (PackNByteK,
 * PackNFinalWByteK), collected per packer and then over all packers.
 */
module PackerProofs {

  import opened Bits
  import opened BitWriter
  import opened WriterProofs
  import opened Packers
  import opened PackerKinds

  lemma Pack1Byte0(s: seq<bv32>)
    requires |s| == 8 && Fits(s, 1)
    ensures Pack1Bytes(s)[0] == StreamByte(s, 1, 0)
  {}

  /** Pack1::pack writes its 8 samples as one 1-bit-per-sample stream of 1 bytes. */
  lemma Pack1Stream(s: seq<bv32>)
    requires |s| == 8 && Fits(s, 1)
    ensures IsStream(Pack1Bytes(s), s, 1, 1)
  {
    forall k: bv32 | (k as int) < 1 ensures Pack1Bytes(s)[k as int] == StreamByte(s, 1, k) {
      Pack1Byte0(s);
    }
  }

  lemma Pack2Byte0(s: seq<bv32>)
    requires |s| == 4 && Fits(s, 2)
    ensures Pack2Bytes(s)[0] == StreamByte(s, 2, 0)
  {}

  /** Pack2::pack writes its 4 samples as one 2-bit-per-sample stream of 1 bytes. */
  lemma Pack2Stream(s: seq<bv32>)
    requires |s| == 4 && Fits(s, 2)
    ensures IsStream(Pack2Bytes(s), s, 2, 1)
  {
    forall k: bv32 | (k as int) < 1 ensures Pack2Bytes(s)[k as int] == StreamByte(s, 2, k) {
      Pack2Byte0(s);
    }
  }

  lemma Pack3Byte0(s: seq<bv32>)
    requires |s| == 8 && Fits(s, 3)
    ensures Pack3Bytes(s)[0] == StreamByte(s, 3, 0)
  {}

  lemma Pack3Byte1(s: seq<bv32>)
    requires |s| == 8 && Fits(s, 3)
    ensures Pack3Bytes(s)[1] == StreamByte(s, 3, 1)
  {}

  lemma Pack3Byte2(s: seq<bv32>)
    requires |s| == 8 && Fits(s, 3)
    ensures Pack3Bytes(s)[2] == StreamByte(s, 3, 2)
  {}

  /** Pack3::pack writes its 8 samples as one 3-bit-per-sample stream of 3 bytes. */
  lemma Pack3Stream(s: seq<bv32>)
    requires |s| == 8 && Fits(s, 3)
    ensures IsStream(Pack3Bytes(s), s, 3, 3)
  {
    forall k: bv32 | (k as int) < 3 ensures Pack3Bytes(s)[k as int] == StreamByte(s, 3, k) {
      if k == 0 { Pack3Byte0(s); }
      else if k == 1 { Pack3Byte1(s); }
      else { Pack3Byte2(s); }
    }
  }

  lemma Pack4Byte0(s: seq<bv32>)
    requires |s| == 2
    ensures Pack4Bytes(s)[0] == StreamByte(s, 4, 0)
  {}

  /** Pack4::pack writes its 2 samples as one 4-bit-per-sample stream of 1 bytes. */
  lemma Pack4Stream(s: seq<bv32>)
    requires |s| == 2
    ensures IsStream(Pack4Bytes(s), s, 4, 1)
  {
    forall k: bv32 | (k as int) < 1 ensures Pack4Bytes(s)[k as int] == StreamByte(s, 4, k) {
      Pack4Byte0(s);
    }
  }

  lemma Pack5Byte0(s: seq<bv32>)
    requires |s| == 8 && Fits(s, 5)
    ensures Pack5Bytes(s)[0] == StreamByte(s, 5, 0)
  {}

  lemma Pack5Byte1(s: seq<bv32>)
    requires |s| == 8 && Fits(s, 5)
    ensures Pack5Bytes(s)[1] == StreamByte(s, 5, 1)
  {}

  lemma Pack5Byte2(s: seq<bv32>)
    requires |s| == 8 && Fits(s, 5)
    ensures Pack5Bytes(s)[2] == StreamByte(s, 5, 2)
  {}

  lemma Pack5Byte3(s: seq<bv32>)
    requires |s| == 8 && Fits(s, 5)
    ensures Pack5Bytes(s)[3] == StreamByte(s, 5, 3)
  {}

  lemma Pack5Byte4(s: seq<bv32>)
    requires |s| == 8 && Fits(s, 5)
    ensures Pack5Bytes(s)[4] == StreamByte(s, 5, 4)
  {}

  /** Pack5::pack writes its 8 samples as one 5-bit-per-sample stream of 5 bytes. */
  lemma Pack5Stream(s: seq<bv32>)
    requires |s| == 8 && Fits(s, 5)
    ensures IsStream(Pack5Bytes(s), s, 5, 5)
  {
    forall k: bv32 | (k as int) < 5 ensures Pack5Bytes(s)[k as int] == StreamByte(s, 5, k) {
      if k == 0 { Pack5Byte0(s); }
      else if k == 1 { Pack5Byte1(s); }
      else if k == 2 { Pack5Byte2(s); }
      else if k == 3 { Pack5Byte3(s); }
      else { Pack5Byte4(s); }
    }
  }

  lemma Pack6Byte0(s: seq<bv32>)
    requires |s| == 4 && Fits(s, 6)
    ensures Pack6Bytes(s)[0] == StreamByte(s, 6, 0)
  {}

  lemma Pack6Byte1(s: seq<bv32>)
    requires |s| == 4 && Fits(s, 6)
    ensures Pack6Bytes(s)[1] == StreamByte(s, 6, 1)
  {}

  lemma Pack6Byte2(s: seq<bv32>)
    requires |s| == 4 && Fits(s, 6)
    ensures Pack6Bytes(s)[2] == StreamByte(s, 6, 2)
  {}

  /** Pack6::pack writes its 4 samples as one 6-bit-per-sample stream of 3 bytes. */
  lemma Pack6Stream(s: seq<bv32>)
    requires |s| == 4 && Fits(s, 6)
    ensures IsStream(Pack6Bytes(s), s, 6, 3)
  {
    forall k: bv32 | (k as int) < 3 ensures Pack6Bytes(s)[k as int] == StreamByte(s, 6, k) {
      if k == 0 { Pack6Byte0(s); }
      else if k == 1 { Pack6Byte1(s); }
      else { Pack6Byte2(s); }
    }
  }

  lemma Pack7Byte0(s: seq<bv32>)
    requires |s| == 8 && Fits(s, 7)
    ensures Pack7Bytes(s)[0] == StreamByte(s, 7, 0)
  {}

  lemma Pack7Byte1(s: seq<bv32>)
    requires |s| == 8 && Fits(s, 7)
    ensures Pack7Bytes(s)[1] == StreamByte(s, 7, 1)
  {}

  lemma Pack7Byte2(s: seq<bv32>)
    requires |s| == 8 && Fits(s, 7)
    ensures Pack7Bytes(s)[2] == StreamByte(s, 7, 2)
  {}

  lemma Pack7Byte3(s: seq<bv32>)
    requires |s| == 8 && Fits(s, 7)
    ensures Pack7Bytes(s)[3] == StreamByte(s, 7, 3)
  {}

  lemma Pack7Byte4(s: seq<bv32>)
    requires |s| == 8 && Fits(s, 7)
    ensures Pack7Bytes(s)[4] == StreamByte(s, 7, 4)
  {}

  lemma Pack7Byte5(s: seq<bv32>)
    requires |s| == 8 && Fits(s, 7)
    ensures Pack7Bytes(s)[5] == StreamByte(s, 7, 5)
  {}

  lemma Pack7Byte6(s: seq<bv32>)
    requires |s| == 8 && Fits(s, 7)
    ensures Pack7Bytes(s)[6] == StreamByte(s, 7, 6)
  {}

  /** Pack7::pack writes its 8 samples as one 7-bit-per-sample stream of 7 bytes. */
  lemma Pack7Stream(s: seq<bv32>)
    requires |s| == 8 && Fits(s, 7)
    ensures IsStream(Pack7Bytes(s), s, 7, 7)
  {
    forall k: bv32 | (k as int) < 7 ensures Pack7Bytes(s)[k as int] == StreamByte(s, 7, k) {
      if k == 0 { Pack7Byte0(s); }
      else if k == 1 { Pack7Byte1(s); }
      else if k == 2 { Pack7Byte2(s); }
      else if k == 3 { Pack7Byte3(s); }
      else if k == 4 { Pack7Byte4(s); }
      else if k == 5 { Pack7Byte5(s); }
      else { Pack7Byte6(s); }
    }
  }

  lemma Pack8Byte0(s: seq<bv32>)
    requires |s| == 1
    ensures Pack8Bytes(s)[0] == StreamByte(s, 8, 0)
  {}

  /** Pack8::pack writes its 1 samples as one 8-bit-per-sample stream of 1 bytes. */
  lemma Pack8Stream(s: seq<bv32>)
    requires |s| == 1
    ensures IsStream(Pack8Bytes(s), s, 8, 1)
  {
    forall k: bv32 | (k as int) < 1 ensures Pack8Bytes(s)[k as int] == StreamByte(s, 8, k) {
      Pack8Byte0(s);
    }
  }

  lemma Pack9Byte0(s: seq<bv32>)
    requires |s| == 8 && Fits(s, 9)
    ensures Pack9Bytes(s)[0] == StreamByte(s, 9, 0)
  {}

  lemma Pack9Byte1(s: seq<bv32>)
    requires |s| == 8 && Fits(s, 9)
    ensures Pack9Bytes(s)[1] == StreamByte(s, 9, 1)
  {}

  lemma Pack9Byte2(s: seq<bv32>)
    requires |s| == 8 && Fits(s, 9)
    ensures Pack9Bytes(s)[2] == StreamByte(s, 9, 2)
  {}

  lemma Pack9Byte3(s: seq<bv32>)
    requires |s| == 8 && Fits(s, 9)
    ensures Pack9Bytes(s)[3] == StreamByte(s, 9, 3)
  {}

  lemma Pack9Byte4(s: seq<bv32>)
    requires |s| == 8 && Fits(s, 9)
    ensures Pack9Bytes(s)[4] == StreamByte(s, 9, 4)
  {}

  lemma Pack9Byte5(s: seq<bv32>)
    requires |s| == 8 && Fits(s, 9)
    ensures Pack9Bytes(s)[5] == StreamByte(s, 9, 5)
  {}

  lemma Pack9Byte6(s: seq<bv32>)
    requires |s| == 8 && Fits(s, 9)
    ensures Pack9Bytes(s)[6] == StreamByte(s, 9, 6)
  {}

  lemma Pack9Byte7(s: seq<bv32>)
    requires |s| == 8 && Fits(s, 9)
    ensures Pack9Bytes(s)[7] == StreamByte(s, 9, 7)
  {}

  lemma Pack9Byte8(s: seq<bv32>)
    requires |s| == 8 && Fits(s, 9)
    ensures Pack9Bytes(s)[8] == StreamByte(s, 9, 8)
  {}

  /** Pack9::pack writes its 8 samples as one 9-bit-per-sample stream of 9 bytes. */
  lemma Pack9Stream(s: seq<bv32>)
    requires |s| == 8 && Fits(s, 9)
    ensures IsStream(Pack9Bytes(s), s, 9, 9)
  {
    forall k: bv32 | (k as int) < 9 ensures Pack9Bytes(s)[k as int] == StreamByte(s, 9, k) {
      if k == 0 { Pack9Byte0(s); }
      else if k == 1 { Pack9Byte1(s); }
      else if k == 2 { Pack9Byte2(s); }
      else if k == 3 { Pack9Byte3(s); }
      else if k == 4 { Pack9Byte4(s); }
      else if k == 5 { Pack9Byte5(s); }
      else if k == 6 { Pack9Byte6(s); }
      else if k == 7 { Pack9Byte7(s); }
      else { Pack9Byte8(s); }
    }
  }

  lemma Pack10Byte0(s: seq<bv32>)
    requires |s| == 4 && Fits(s, 10)
    ensures Pack10Bytes(s)[0] == StreamByte(s, 10, 0)
  {}

  lemma Pack10Byte1(s: seq<bv32>)
    requires |s| == 4 && Fits(s, 10)
    ensures Pack10Bytes(s)[1] == StreamByte(s, 10, 1)
  {}

  lemma Pack10Byte2(s: seq<bv32>)
    requires |s| == 4 && Fits(s, 10)
    ensures Pack10Bytes(s)[2] == StreamByte(s, 10, 2)
  {}

  lemma Pack10Byte3(s: seq<bv32>)
    requires |s| == 4 && Fits(s, 10)
    ensures Pack10Bytes(s)[3] == StreamByte(s, 10, 3)
  {}

  lemma Pack10Byte4(s: seq<bv32>)
    requires |s| == 4 && Fits(s, 10)
    ensures Pack10Bytes(s)[4] == StreamByte(s, 10, 4)
  {}

  /** Pack10::pack writes its 4 samples as one 10-bit-per-sample stream of 5 bytes. */
  lemma Pack10Stream(s: seq<bv32>)
    requires |s| == 4 && Fits(s, 10)
    ensures IsStream(Pack10Bytes(s), s, 10, 5)
  {
    forall k: bv32 | (k as int) < 5 ensures Pack10Bytes(s)[k as int] == StreamByte(s, 10, k) {
      if k == 0 { Pack10Byte0(s); }
      else if k == 1 { Pack10Byte1(s); }
      else if k == 2 { Pack10Byte2(s); }
      else if k == 3 { Pack10Byte3(s); }
      else { Pack10Byte4(s); }
    }
  }

  lemma Pack11Byte0(s: seq<bv32>)
    requires |s| == 8 && Fits(s, 11)
    ensures Pack11Bytes(s)[0] == StreamByte(s, 11, 0)
  {}

  lemma Pack11Byte1(s: seq<bv32>)
    requires |s| == 8 && Fits(s, 11)
    ensures Pack11Bytes(s)[1] == StreamByte(s, 11, 1)
  {}

  lemma Pack11Byte2(s: seq<bv32>)
    requires |s| == 8 && Fits(s, 11)
    ensures Pack11Bytes(s)[2] == StreamByte(s, 11, 2)
  {}

  lemma Pack11Byte3(s: seq<bv32>)
    requires |s| == 8 && Fits(s, 11)
    ensures Pack11Bytes(s)[3] == StreamByte(s, 11, 3)
  {}

  lemma Pack11Byte4(s: seq<bv32>)
    requires |s| == 8 && Fits(s, 11)
    ensures Pack11Bytes(s)[4] == StreamByte(s, 11, 4)
  {}

  lemma Pack11Byte5(s: seq<bv32>)
    requires |s| == 8 && Fits(s, 11)
    ensures Pack11Bytes(s)[5] == StreamByte(s, 11, 5)
  {}

  lemma Pack11Byte6(s: seq<bv32>)
    requires |s| == 8 && Fits(s, 11)
    ensures Pack11Bytes(s)[6] == StreamByte(s, 11, 6)
  {}

  lemma Pack11Byte7(s: seq<bv32>)
    requires |s| == 8 && Fits(s, 11)
    ensures Pack11Bytes(s)[7] == StreamByte(s, 11, 7)
  {}

  lemma Pack11Byte8(s: seq<bv32>)
    requires |s| == 8 && Fits(s, 11)
    ensures Pack11Bytes(s)[8] == StreamByte(s, 11, 8)
  {}

  lemma Pack11Byte9(s: seq<bv32>)
    requires |s| == 8 && Fits(s, 11)
    ensures Pack11Bytes(s)[9] == StreamByte(s, 11, 9)
  {}

  lemma Pack11Byte10(s: seq<bv32>)
    requires |s| == 8 && Fits(s, 11)
    ensures Pack11Bytes(s)[10] == StreamByte(s, 11, 10)
  {}

  /** Pack11::pack writes its 8 samples as one 11-bit-per-sample stream of 11 bytes. */
  lemma Pack11Stream(s: seq<bv32>)
    requires |s| == 8 && Fits(s, 11)
    ensures IsStream(Pack11Bytes(s), s, 11, 11)
  {
    forall k: bv32 | (k as int) < 11 ensures Pack11Bytes(s)[k as int] == StreamByte(s, 11, k) {
      if k == 0 { Pack11Byte0(s); }
      else if k == 1 { Pack11Byte1(s); }
      else if k == 2 { Pack11Byte2(s); }
      else if k == 3 { Pack11Byte3(s); }
      else if k == 4 { Pack11Byte4(s); }
      else if k == 5 { Pack11Byte5(s); }
      else if k == 6 { Pack11Byte6(s); }
      else if k == 7 { Pack11Byte7(s); }
      else if k == 8 { Pack11Byte8(s); }
      else if k == 9 { Pack11Byte9(s); }
      else { Pack11Byte10(s); }
    }
  }

  lemma Pack12Byte0(s: seq<bv32>)
    requires |s| == 2 && Fits(s, 12)
    ensures Pack12Bytes(s)[0] == StreamByte(s, 12, 0)
  {}

  lemma Pack12Byte1(s: seq<bv32>)
    requires |s| == 2 && Fits(s, 12)
    ensures Pack12Bytes(s)[1] == StreamByte(s, 12, 1)
  {}

  lemma Pack12Byte2(s: seq<bv32>)
    requires |s| == 2 && Fits(s, 12)
    ensures Pack12Bytes(s)[2] == StreamByte(s, 12, 2)
  {}

  /** Pack12::pack writes its 2 samples as one 12-bit-per-sample stream of 3 bytes. */
  lemma Pack12Stream(s: seq<bv32>)
    requires |s| == 2 && Fits(s, 12)
    ensures IsStream(Pack12Bytes(s), s, 12, 3)
  {
    forall k: bv32 | (k as int) < 3 ensures Pack12Bytes(s)[k as int] == StreamByte(s, 12, k) {
      if k == 0 { Pack12Byte0(s); }
      else if k == 1 { Pack12Byte1(s); }
      else { Pack12Byte2(s); }
    }
  }

  lemma Pack13Byte0(s: seq<bv32>)
    requires |s| == 8 && Fits(s, 13)
    ensures Pack13Bytes(s)[0] == StreamByte(s, 13, 0)
  {}

  lemma Pack13Byte1(s: seq<bv32>)
    requires |s| == 8 && Fits(s, 13)
    ensures Pack13Bytes(s)[1] == StreamByte(s, 13, 1)
  {}

  lemma Pack13Byte2(s: seq<bv32>)
    requires |s| == 8 && Fits(s, 13)
    ensures Pack13Bytes(s)[2] == StreamByte(s, 13, 2)
  {}

  lemma Pack13Byte3(s: seq<bv32>)
    requires |s| == 8 && Fits(s, 13)
    ensures Pack13Bytes(s)[3] == StreamByte(s, 13, 3)
  {}

  lemma Pack13Byte4(s: seq<bv32>)
    requires |s| == 8 && Fits(s, 13)
    ensures Pack13Bytes(s)[4] == StreamByte(s, 13, 4)
  {}

  lemma Pack13Byte5(s: seq<bv32>)
    requires |s| == 8 && Fits(s, 13)
    ensures Pack13Bytes(s)[5] == StreamByte(s, 13, 5)
  {}

  lemma Pack13Byte6(s: seq<bv32>)
    requires |s| == 8 && Fits(s, 13)
    ensures Pack13Bytes(s)[6] == StreamByte(s, 13, 6)
  {}

  lemma Pack13Byte7(s: seq<bv32>)
    requires |s| == 8 && Fits(s, 13)
    ensures Pack13Bytes(s)[7] == StreamByte(s, 13, 7)
  {}

  lemma Pack13Byte8(s: seq<bv32>)
    requires |s| == 8 && Fits(s, 13)
    ensures Pack13Bytes(s)[8] == StreamByte(s, 13, 8)
  {}

  lemma Pack13Byte9(s: seq<bv32>)
    requires |s| == 8 && Fits(s, 13)
    ensures Pack13Bytes(s)[9] == StreamByte(s, 13, 9)
  {}

  lemma Pack13Byte10(s: seq<bv32>)
    requires |s| == 8 && Fits(s, 13)
    ensures Pack13Bytes(s)[10] == StreamByte(s, 13, 10)
  {}

  lemma Pack13Byte11(s: seq<bv32>)
    requires |s| == 8 && Fits(s, 13)
    ensures Pack13Bytes(s)[11] == StreamByte(s, 13, 11)
  {}

  lemma Pack13Byte12(s: seq<bv32>)
    requires |s| == 8 && Fits(s, 13)
    ensures Pack13Bytes(s)[12] == StreamByte(s, 13, 12)
  {}

  /** Pack13::pack writes its 8 samples as one 13-bit-per-sample stream of 13 bytes. */
  lemma Pack13Stream(s: seq<bv32>)
    requires |s| == 8 && Fits(s, 13)
    ensures IsStream(Pack13Bytes(s), s, 13, 13)
  {
    forall k: bv32 | (k as int) < 13 ensures Pack13Bytes(s)[k as int] == StreamByte(s, 13, k) {
      if k == 0 { Pack13Byte0(s); }
      else if k == 1 { Pack13Byte1(s); }
      else if k == 2 { Pack13Byte2(s); }
      else if k == 3 { Pack13Byte3(s); }
      else if k == 4 { Pack13Byte4(s); }
      else if k == 5 { Pack13Byte5(s); }
      else if k == 6 { Pack13Byte6(s); }
      else if k == 7 { Pack13Byte7(s); }
      else if k == 8 { Pack13Byte8(s); }
      else if k == 9 { Pack13Byte9(s); }
      else if k == 10 { Pack13Byte10(s); }
      else if k == 11 { Pack13Byte11(s); }
      else { Pack13Byte12(s); }
    }
  }

  lemma Pack14Byte0(s: seq<bv32>)
    requires |s| == 4 && Fits(s, 14)
    ensures Pack14Bytes(s)[0] == StreamByte(s, 14, 0)
  {}

  lemma Pack14Byte1(s: seq<bv32>)
    requires |s| == 4 && Fits(s, 14)
    ensures Pack14Bytes(s)[1] == StreamByte(s, 14, 1)
  {}

  lemma Pack14Byte2(s: seq<bv32>)
    requires |s| == 4 && Fits(s, 14)
    ensures Pack14Bytes(s)[2] == StreamByte(s, 14, 2)
  {}

  lemma Pack14Byte3(s: seq<bv32>)
    requires |s| == 4 && Fits(s, 14)
    ensures Pack14Bytes(s)[3] == StreamByte(s, 14, 3)
  {}

  lemma Pack14Byte4(s: seq<bv32>)
    requires |s| == 4 && Fits(s, 14)
    ensures Pack14Bytes(s)[4] == StreamByte(s, 14, 4)
  {}

  lemma Pack14Byte5(s: seq<bv32>)
    requires |s| == 4 && Fits(s, 14)
    ensures Pack14Bytes(s)[5] == StreamByte(s, 14, 5)
  {}

  lemma Pack14Byte6(s: seq<bv32>)
    requires |s| == 4 && Fits(s, 14)
    ensures Pack14Bytes(s)[6] == StreamByte(s, 14, 6)
  {}

  /** Pack14::pack writes its 4 samples as one 14-bit-per-sample stream of 7 bytes. */
  lemma Pack14Stream(s: seq<bv32>)
    requires |s| == 4 && Fits(s, 14)
    ensures IsStream(Pack14Bytes(s), s, 14, 7)
  {
    forall k: bv32 | (k as int) < 7 ensures Pack14Bytes(s)[k as int] == StreamByte(s, 14, k) {
      if k == 0 { Pack14Byte0(s); }
      else if k == 1 { Pack14Byte1(s); }
      else if k == 2 { Pack14Byte2(s); }
      else if k == 3 { Pack14Byte3(s); }
      else if k == 4 { Pack14Byte4(s); }
      else if k == 5 { Pack14Byte5(s); }
      else { Pack14Byte6(s); }
    }
  }

  lemma Pack15Byte0(s: seq<bv32>)
    requires |s| == 8 && Fits(s, 15)
    ensures Pack15Bytes(s)[0] == StreamByte(s, 15, 0)
  {}

  lemma Pack15Byte1(s: seq<bv32>)
    requires |s| == 8 && Fits(s, 15)
    ensures Pack15Bytes(s)[1] == StreamByte(s, 15, 1)
  {}

  lemma Pack15Byte2(s: seq<bv32>)
    requires |s| == 8 && Fits(s, 15)
    ensures Pack15Bytes(s)[2] == StreamByte(s, 15, 2)
  {}

  lemma Pack15Byte3(s: seq<bv32>)
    requires |s| == 8 && Fits(s, 15)
    ensures Pack15Bytes(s)[3] == StreamByte(s, 15, 3)
  {}

  lemma Pack15Byte4(s: seq<bv32>)
    requires |s| == 8 && Fits(s, 15)
    ensures Pack15Bytes(s)[4] == StreamByte(s, 15, 4)
  {}

  lemma Pack15Byte5(s: seq<bv32>)
    requires |s| == 8 && Fits(s, 15)
    ensures Pack15Bytes(s)[5] == StreamByte(s, 15, 5)
  {}

  lemma Pack15Byte6(s: seq<bv32>)
    requires |s| == 8 && Fits(s, 15)
    ensures Pack15Bytes(s)[6] == StreamByte(s, 15, 6)
  {}

  lemma Pack15Byte7(s: seq<bv32>)
    requires |s| == 8 && Fits(s, 15)
    ensures Pack15Bytes(s)[7] == StreamByte(s, 15, 7)
  {}

  lemma Pack15Byte8(s: seq<bv32>)
    requires |s| == 8 && Fits(s, 15)
    ensures Pack15Bytes(s)[8] == StreamByte(s, 15, 8)
  {}

  lemma Pack15Byte9(s: seq<bv32>)
    requires |s| == 8 && Fits(s, 15)
    ensures Pack15Bytes(s)[9] == StreamByte(s, 15, 9)
  {}

  lemma Pack15Byte10(s: seq<bv32>)
    requires |s| == 8 && Fits(s, 15)
    ensures Pack15Bytes(s)[10] == StreamByte(s, 15, 10)
  {}

  lemma Pack15Byte11(s: seq<bv32>)
    requires |s| == 8 && Fits(s, 15)
    ensures Pack15Bytes(s)[11] == StreamByte(s, 15, 11)
  {}

  lemma Pack15Byte12(s: seq<bv32>)
    requires |s| == 8 && Fits(s, 15)
    ensures Pack15Bytes(s)[12] == StreamByte(s, 15, 12)
  {}

  lemma Pack15Byte13(s: seq<bv32>)
    requires |s| == 8 && Fits(s, 15)
    ensures Pack15Bytes(s)[13] == StreamByte(s, 15, 13)
  {}

  lemma Pack15Byte14(s: seq<bv32>)
    requires |s| == 8 && Fits(s, 15)
    ensures Pack15Bytes(s)[14] == StreamByte(s, 15, 14)
  {}

  /** Pack15::pack writes its 8 samples as one 15-bit-per-sample stream of 15 bytes. */
  lemma Pack15Stream(s: seq<bv32>)
    requires |s| == 8 && Fits(s, 15)
    ensures IsStream(Pack15Bytes(s), s, 15, 15)
  {
    forall k: bv32 | (k as int) < 15 ensures Pack15Bytes(s)[k as int] == StreamByte(s, 15, k) {
      if k == 0 { Pack15Byte0(s); }
      else if k == 1 { Pack15Byte1(s); }
      else if k == 2 { Pack15Byte2(s); }
      else if k == 3 { Pack15Byte3(s); }
      else if k == 4 { Pack15Byte4(s); }
      else if k == 5 { Pack15Byte5(s); }
      else if k == 6 { Pack15Byte6(s); }
      else if k == 7 { Pack15Byte7(s); }
      else if k == 8 { Pack15Byte8(s); }
      else if k == 9 { Pack15Byte9(s); }
      else if k == 10 { Pack15Byte10(s); }
      else if k == 11 { Pack15Byte11(s); }
      else if k == 12 { Pack15Byte12(s); }
      else if k == 13 { Pack15Byte13(s); }
      else { Pack15Byte14(s); }
    }
  }

  lemma Pack16BEByte0(s: seq<bv32>)
    requires |s| == 1
    ensures Pack16BEBytes(s)[0] == StreamByte(s, 16, 0)
  {}

  lemma Pack16BEByte1(s: seq<bv32>)
    requires |s| == 1
    ensures Pack16BEBytes(s)[1] == StreamByte(s, 16, 1)
  {}

  /** Pack16BE::pack writes its 1 samples as one 16-bit-per-sample stream of 2 bytes. */
  lemma Pack16BEStream(s: seq<bv32>)
    requires |s| == 1
    ensures IsStream(Pack16BEBytes(s), s, 16, 2)
  {
    forall k: bv32 | (k as int) < 2 ensures Pack16BEBytes(s)[k as int] == StreamByte(s, 16, k) {
      if k == 0 { Pack16BEByte0(s); }
      else { Pack16BEByte1(s); }
    }
  }

  lemma Pack1Final1Byte0(s: seq<bv32>)
    requires |s| == 1 && Fits(s, 1)
    ensures |Pack1Final(s)| == 1 && Pack1Final(s)[0] == StreamByte(s, 1, 0)
  {}

  lemma Pack1Final1(s: seq<bv32>)
    requires |s| == 1 && Fits(s, 1)
    ensures IsStream(Pack1Final(s), s, 1, CeilBytes(1 * |s|))
  {
    assert CeilBytes(1 * |s|) == 1;
    Pack1Final1Byte0(s);
    forall k: bv32 | (k as int) < 1 ensures Pack1Final(s)[k as int] == StreamByte(s, 1, k) {
      Pack1Final1Byte0(s);
    }
  }

  lemma Pack1Final2Byte0(s: seq<bv32>)
    requires |s| == 2 && Fits(s, 1)
    ensures |Pack1Final(s)| == 1 && Pack1Final(s)[0] == StreamByte(s, 1, 0)
  {}

  lemma Pack1Final2(s: seq<bv32>)
    requires |s| == 2 && Fits(s, 1)
    ensures IsStream(Pack1Final(s), s, 1, CeilBytes(1 * |s|))
  {
    assert CeilBytes(1 * |s|) == 1;
    Pack1Final2Byte0(s);
    forall k: bv32 | (k as int) < 1 ensures Pack1Final(s)[k as int] == StreamByte(s, 1, k) {
      Pack1Final2Byte0(s);
    }
  }

  lemma Pack1Final3Byte0(s: seq<bv32>)
    requires |s| == 3 && Fits(s, 1)
    ensures |Pack1Final(s)| == 1 && Pack1Final(s)[0] == StreamByte(s, 1, 0)
  {}

  lemma Pack1Final3(s: seq<bv32>)
    requires |s| == 3 && Fits(s, 1)
    ensures IsStream(Pack1Final(s), s, 1, CeilBytes(1 * |s|))
  {
    assert CeilBytes(1 * |s|) == 1;
    Pack1Final3Byte0(s);
    forall k: bv32 | (k as int) < 1 ensures Pack1Final(s)[k as int] == StreamByte(s, 1, k) {
      Pack1Final3Byte0(s);
    }
  }

  lemma Pack1Final4Byte0(s: seq<bv32>)
    requires |s| == 4 && Fits(s, 1)
    ensures |Pack1Final(s)| == 1 && Pack1Final(s)[0] == StreamByte(s, 1, 0)
  {}

  lemma Pack1Final4(s: seq<bv32>)
    requires |s| == 4 && Fits(s, 1)
    ensures IsStream(Pack1Final(s), s, 1, CeilBytes(1 * |s|))
  {
    assert CeilBytes(1 * |s|) == 1;
    Pack1Final4Byte0(s);
    forall k: bv32 | (k as int) < 1 ensures Pack1Final(s)[k as int] == StreamByte(s, 1, k) {
      Pack1Final4Byte0(s);
    }
  }

  lemma Pack1Final5Byte0(s: seq<bv32>)
    requires |s| == 5 && Fits(s, 1)
    ensures |Pack1Final(s)| == 1 && Pack1Final(s)[0] == StreamByte(s, 1, 0)
  {}

  lemma Pack1Final5(s: seq<bv32>)
    requires |s| == 5 && Fits(s, 1)
    ensures IsStream(Pack1Final(s), s, 1, CeilBytes(1 * |s|))
  {
    assert CeilBytes(1 * |s|) == 1;
    Pack1Final5Byte0(s);
    forall k: bv32 | (k as int) < 1 ensures Pack1Final(s)[k as int] == StreamByte(s, 1, k) {
      Pack1Final5Byte0(s);
    }
  }

  lemma Pack1Final6Byte0(s: seq<bv32>)
    requires |s| == 6 && Fits(s, 1)
    ensures |Pack1Final(s)| == 1 && Pack1Final(s)[0] == StreamByte(s, 1, 0)
  {}

  lemma Pack1Final6(s: seq<bv32>)
    requires |s| == 6 && Fits(s, 1)
    ensures IsStream(Pack1Final(s), s, 1, CeilBytes(1 * |s|))
  {
    assert CeilBytes(1 * |s|) == 1;
    Pack1Final6Byte0(s);
    forall k: bv32 | (k as int) < 1 ensures Pack1Final(s)[k as int] == StreamByte(s, 1, k) {
      Pack1Final6Byte0(s);
    }
  }

  lemma Pack1Final7Byte0(s: seq<bv32>)
    requires |s| == 7 && Fits(s, 1)
    ensures |Pack1Final(s)| == 1 && Pack1Final(s)[0] == StreamByte(s, 1, 0)
  {}

  lemma Pack1Final7(s: seq<bv32>)
    requires |s| == 7 && Fits(s, 1)
    ensures IsStream(Pack1Final(s), s, 1, CeilBytes(1 * |s|))
  {
    assert CeilBytes(1 * |s|) == 1;
    Pack1Final7Byte0(s);
    forall k: bv32 | (k as int) < 1 ensures Pack1Final(s)[k as int] == StreamByte(s, 1, k) {
      Pack1Final7Byte0(s);
    }
  }

  /** Pack1::packFinal writes its w samples as a 1-bit stream, padded to whole bytes. */
  lemma Pack1FinalStream(s: seq<bv32>)
    requires 1 <= |s| <= 7 && Fits(s, 1)
    ensures IsStream(Pack1Final(s), s, 1, CeilBytes(1 * |s|))
  {
    if |s| == 1 { Pack1Final1(s); }
    else if |s| == 2 { Pack1Final2(s); }
    else if |s| == 3 { Pack1Final3(s); }
    else if |s| == 4 { Pack1Final4(s); }
    else if |s| == 5 { Pack1Final5(s); }
    else if |s| == 6 { Pack1Final6(s); }
    else { Pack1Final7(s); }
  }

  lemma Pack2Final1Byte0(s: seq<bv32>)
    requires |s| == 1 && Fits(s, 2)
    ensures |Pack2Final(s)| == 1 && Pack2Final(s)[0] == StreamByte(s, 2, 0)
  {}

  lemma Pack2Final1(s: seq<bv32>)
    requires |s| == 1 && Fits(s, 2)
    ensures IsStream(Pack2Final(s), s, 2, CeilBytes(2 * |s|))
  {
    assert CeilBytes(2 * |s|) == 1;
    Pack2Final1Byte0(s);
    forall k: bv32 | (k as int) < 1 ensures Pack2Final(s)[k as int] == StreamByte(s, 2, k) {
      Pack2Final1Byte0(s);
    }
  }

  lemma Pack2Final2Byte0(s: seq<bv32>)
    requires |s| == 2 && Fits(s, 2)
    ensures |Pack2Final(s)| == 1 && Pack2Final(s)[0] == StreamByte(s, 2, 0)
  {}

  lemma Pack2Final2(s: seq<bv32>)
    requires |s| == 2 && Fits(s, 2)
    ensures IsStream(Pack2Final(s), s, 2, CeilBytes(2 * |s|))
  {
    assert CeilBytes(2 * |s|) == 1;
    Pack2Final2Byte0(s);
    forall k: bv32 | (k as int) < 1 ensures Pack2Final(s)[k as int] == StreamByte(s, 2, k) {
      Pack2Final2Byte0(s);
    }
  }

  lemma Pack2Final3Byte0(s: seq<bv32>)
    requires |s| == 3 && Fits(s, 2)
    ensures |Pack2Final(s)| == 1 && Pack2Final(s)[0] == StreamByte(s, 2, 0)
  {}

  lemma Pack2Final3(s: seq<bv32>)
    requires |s| == 3 && Fits(s, 2)
    ensures IsStream(Pack2Final(s), s, 2, CeilBytes(2 * |s|))
  {
    assert CeilBytes(2 * |s|) == 1;
    Pack2Final3Byte0(s);
    forall k: bv32 | (k as int) < 1 ensures Pack2Final(s)[k as int] == StreamByte(s, 2, k) {
      Pack2Final3Byte0(s);
    }
  }

  /** Pack2::packFinal writes its w samples as a 2-bit stream, padded to whole bytes. */
  lemma Pack2FinalStream(s: seq<bv32>)
    requires 1 <= |s| <= 3 && Fits(s, 2)
    ensures IsStream(Pack2Final(s), s, 2, CeilBytes(2 * |s|))
  {
    if |s| == 1 { Pack2Final1(s); }
    else if |s| == 2 { Pack2Final2(s); }
    else { Pack2Final3(s); }
  }

  lemma Pack4Final1Byte0(s: seq<bv32>)
    requires |s| == 1
    ensures |Pack4Final(s)| == 1 && Pack4Final(s)[0] == StreamByte(s, 4, 0)
  {}

  lemma Pack4Final1(s: seq<bv32>)
    requires |s| == 1
    ensures IsStream(Pack4Final(s), s, 4, CeilBytes(4 * |s|))
  {
    assert CeilBytes(4 * |s|) == 1;
    Pack4Final1Byte0(s);
    forall k: bv32 | (k as int) < 1 ensures Pack4Final(s)[k as int] == StreamByte(s, 4, k) {
      Pack4Final1Byte0(s);
    }
  }

  /**
   * Pack4::packFinal writes its w samples as a 4-bit stream, padded to whole
   * bytes; the shift into the top nibble drops any higher bits, as pack() masks them.
   */
  lemma Pack4FinalStream(s: seq<bv32>)
    requires 1 <= |s| <= 1
    ensures IsStream(Pack4Final(s), s, 4, CeilBytes(4 * |s|))
  {
    Pack4Final1(s);
  }

  lemma Pack6Final1Byte0(s: seq<bv32>)
    requires |s| == 1 && Fits(s, 6)
    ensures |Pack6Final(s)| == 1 && Pack6Final(s)[0] == StreamByte(s, 6, 0)
  {}

  lemma Pack6Final1(s: seq<bv32>)
    requires |s| == 1 && Fits(s, 6)
    ensures IsStream(Pack6Final(s), s, 6, CeilBytes(6 * |s|))
  {
    assert CeilBytes(6 * |s|) == 1;
    Pack6Final1Byte0(s);
    forall k: bv32 | (k as int) < 1 ensures Pack6Final(s)[k as int] == StreamByte(s, 6, k) {
      Pack6Final1Byte0(s);
    }
  }

  lemma Pack6Final2Byte0(s: seq<bv32>)
    requires |s| == 2 && Fits(s, 6)
    ensures |Pack6Final(s)| == 2 && Pack6Final(s)[0] == StreamByte(s, 6, 0)
  {}

  lemma Pack6Final2Byte1(s: seq<bv32>)
    requires |s| == 2 && Fits(s, 6)
    ensures |Pack6Final(s)| == 2 && Pack6Final(s)[1] == StreamByte(s, 6, 1)
  {}

  lemma Pack6Final2(s: seq<bv32>)
    requires |s| == 2 && Fits(s, 6)
    ensures IsStream(Pack6Final(s), s, 6, CeilBytes(6 * |s|))
  {
    assert CeilBytes(6 * |s|) == 2;
    Pack6Final2Byte0(s);
    forall k: bv32 | (k as int) < 2 ensures Pack6Final(s)[k as int] == StreamByte(s, 6, k) {
      if k == 0 { Pack6Final2Byte0(s); }
      else { Pack6Final2Byte1(s); }
    }
  }

  lemma Pack6Final3Byte0(s: seq<bv32>)
    requires |s| == 3 && Fits(s, 6)
    ensures |Pack6Final(s)| == 3 && Pack6Final(s)[0] == StreamByte(s, 6, 0)
  {}

  lemma Pack6Final3Byte1(s: seq<bv32>)
    requires |s| == 3 && Fits(s, 6)
    ensures |Pack6Final(s)| == 3 && Pack6Final(s)[1] == StreamByte(s, 6, 1)
  {}

  lemma Pack6Final3Byte2(s: seq<bv32>)
    requires |s| == 3 && Fits(s, 6)
    ensures |Pack6Final(s)| == 3 && Pack6Final(s)[2] == StreamByte(s, 6, 2)
  {}

  lemma Pack6Final3(s: seq<bv32>)
    requires |s| == 3 && Fits(s, 6)
    ensures IsStream(Pack6Final(s), s, 6, CeilBytes(6 * |s|))
  {
    assert CeilBytes(6 * |s|) == 3;
    Pack6Final3Byte0(s);
    forall k: bv32 | (k as int) < 3 ensures Pack6Final(s)[k as int] == StreamByte(s, 6, k) {
      if k == 0 { Pack6Final3Byte0(s); }
      else if k == 1 { Pack6Final3Byte1(s); }
      else { Pack6Final3Byte2(s); }
    }
  }

  /** Pack6::packFinal writes its w samples as a 6-bit stream, padded to whole bytes. */
  lemma Pack6FinalStream(s: seq<bv32>)
    requires 1 <= |s| <= 3 && Fits(s, 6)
    ensures IsStream(Pack6Final(s), s, 6, CeilBytes(6 * |s|))
  {
    if |s| == 1 { Pack6Final1(s); }
    else if |s| == 2 { Pack6Final2(s); }
    else { Pack6Final3(s); }
  }

  lemma Pack10Final1Byte0(s: seq<bv32>)
    requires |s| == 1 && Fits(s, 10)
    ensures |Pack10Final(s)| == 2 && Pack10Final(s)[0] == StreamByte(s, 10, 0)
  {}

  lemma Pack10Final1Byte1(s: seq<bv32>)
    requires |s| == 1 && Fits(s, 10)
    ensures |Pack10Final(s)| == 2 && Pack10Final(s)[1] == StreamByte(s, 10, 1)
  {}

  lemma Pack10Final1(s: seq<bv32>)
    requires |s| == 1 && Fits(s, 10)
    ensures IsStream(Pack10Final(s), s, 10, CeilBytes(10 * |s|))
  {
    assert CeilBytes(10 * |s|) == 2;
    Pack10Final1Byte0(s);
    forall k: bv32 | (k as int) < 2 ensures Pack10Final(s)[k as int] == StreamByte(s, 10, k) {
      if k == 0 { Pack10Final1Byte0(s); }
      else { Pack10Final1Byte1(s); }
    }
  }

  lemma Pack10Final2Byte0(s: seq<bv32>)
    requires |s| == 2 && Fits(s, 10)
    ensures |Pack10Final(s)| == 3 && Pack10Final(s)[0] == StreamByte(s, 10, 0)
  {}

  lemma Pack10Final2Byte1(s: seq<bv32>)
    requires |s| == 2 && Fits(s, 10)
    ensures |Pack10Final(s)| == 3 && Pack10Final(s)[1] == StreamByte(s, 10, 1)
  {}

  lemma Pack10Final2Byte2(s: seq<bv32>)
    requires |s| == 2 && Fits(s, 10)
    ensures |Pack10Final(s)| == 3 && Pack10Final(s)[2] == StreamByte(s, 10, 2)
  {}

  lemma Pack10Final2(s: seq<bv32>)
    requires |s| == 2 && Fits(s, 10)
    ensures IsStream(Pack10Final(s), s, 10, CeilBytes(10 * |s|))
  {
    assert CeilBytes(10 * |s|) == 3;
    Pack10Final2Byte0(s);
    forall k: bv32 | (k as int) < 3 ensures Pack10Final(s)[k as int] == StreamByte(s, 10, k) {
      if k == 0 { Pack10Final2Byte0(s); }
      else if k == 1 { Pack10Final2Byte1(s); }
      else { Pack10Final2Byte2(s); }
    }
  }

  lemma Pack10Final3Byte0(s: seq<bv32>)
    requires |s| == 3 && Fits(s, 10)
    ensures |Pack10Final(s)| == 4 && Pack10Final(s)[0] == StreamByte(s, 10, 0)
  {}

  lemma Pack10Final3Byte1(s: seq<bv32>)
    requires |s| == 3 && Fits(s, 10)
    ensures |Pack10Final(s)| == 4 && Pack10Final(s)[1] == StreamByte(s, 10, 1)
  {}

  lemma Pack10Final3Byte2(s: seq<bv32>)
    requires |s| == 3 && Fits(s, 10)
    ensures |Pack10Final(s)| == 4 && Pack10Final(s)[2] == StreamByte(s, 10, 2)
  {}

  lemma Pack10Final3Byte3(s: seq<bv32>)
    requires |s| == 3 && Fits(s, 10)
    ensures |Pack10Final(s)| == 4 && Pack10Final(s)[3] == StreamByte(s, 10, 3)
  {}

  lemma Pack10Final3(s: seq<bv32>)
    requires |s| == 3 && Fits(s, 10)
    ensures IsStream(Pack10Final(s), s, 10, CeilBytes(10 * |s|))
  {
    assert CeilBytes(10 * |s|) == 4;
    Pack10Final3Byte0(s);
    forall k: bv32 | (k as int) < 4 ensures Pack10Final(s)[k as int] == StreamByte(s, 10, k) {
      if k == 0 { Pack10Final3Byte0(s); }
      else if k == 1 { Pack10Final3Byte1(s); }
      else if k == 2 { Pack10Final3Byte2(s); }
      else { Pack10Final3Byte3(s); }
    }
  }

  /** Pack10::packFinal writes its w samples as a 10-bit stream, padded to whole bytes. */
  lemma Pack10FinalStream(s: seq<bv32>)
    requires 1 <= |s| <= 3 && Fits(s, 10)
    ensures IsStream(Pack10Final(s), s, 10, CeilBytes(10 * |s|))
  {
    if |s| == 1 { Pack10Final1(s); }
    else if |s| == 2 { Pack10Final2(s); }
    else { Pack10Final3(s); }
  }

  lemma Pack12Final1Byte0(s: seq<bv32>)
    requires |s| == 1 && Fits(s, 12)
    ensures |Pack12Final(s)| == 2 && Pack12Final(s)[0] == StreamByte(s, 12, 0)
  {}

  lemma Pack12Final1Byte1(s: seq<bv32>)
    requires |s| == 1 && Fits(s, 12)
    ensures |Pack12Final(s)| == 2 && Pack12Final(s)[1] == StreamByte(s, 12, 1)
  {}

  lemma Pack12Final1(s: seq<bv32>)
    requires |s| == 1 && Fits(s, 12)
    ensures IsStream(Pack12Final(s), s, 12, CeilBytes(12 * |s|))
  {
    assert CeilBytes(12 * |s|) == 2;
    Pack12Final1Byte0(s);
    forall k: bv32 | (k as int) < 2 ensures Pack12Final(s)[k as int] == StreamByte(s, 12, k) {
      if k == 0 { Pack12Final1Byte0(s); }
      else { Pack12Final1Byte1(s); }
    }
  }

  /** Pack12::packFinal writes its w samples as a 12-bit stream, padded to whole bytes. */
  lemma Pack12FinalStream(s: seq<bv32>)
    requires 1 <= |s| <= 1 && Fits(s, 12)
    ensures IsStream(Pack12Final(s), s, 12, CeilBytes(12 * |s|))
  {
    Pack12Final1(s);
  }

  lemma Pack14Final1Byte0(s: seq<bv32>)
    requires |s| == 1 && Fits(s, 14)
    ensures |Pack14Final(s)| == 2 && Pack14Final(s)[0] == StreamByte(s, 14, 0)
  {}

  lemma Pack14Final1Byte1(s: seq<bv32>)
    requires |s| == 1 && Fits(s, 14)
    ensures |Pack14Final(s)| == 2 && Pack14Final(s)[1] == StreamByte(s, 14, 1)
  {}

  lemma Pack14Final1(s: seq<bv32>)
    requires |s| == 1 && Fits(s, 14)
    ensures IsStream(Pack14Final(s), s, 14, CeilBytes(14 * |s|))
  {
    assert CeilBytes(14 * |s|) == 2;
    Pack14Final1Byte0(s);
    forall k: bv32 | (k as int) < 2 ensures Pack14Final(s)[k as int] == StreamByte(s, 14, k) {
      if k == 0 { Pack14Final1Byte0(s); }
      else { Pack14Final1Byte1(s); }
    }
  }

  lemma Pack14Final2Byte0(s: seq<bv32>)
    requires |s| == 2 && Fits(s, 14)
    ensures |Pack14Final(s)| == 4 && Pack14Final(s)[0] == StreamByte(s, 14, 0)
  {}

  lemma Pack14Final2Byte1(s: seq<bv32>)
    requires |s| == 2 && Fits(s, 14)
    ensures |Pack14Final(s)| == 4 && Pack14Final(s)[1] == StreamByte(s, 14, 1)
  {}

  lemma Pack14Final2Byte2(s: seq<bv32>)
    requires |s| == 2 && Fits(s, 14)
    ensures |Pack14Final(s)| == 4 && Pack14Final(s)[2] == StreamByte(s, 14, 2)
  {}

  lemma Pack14Final2Byte3(s: seq<bv32>)
    requires |s| == 2 && Fits(s, 14)
    ensures |Pack14Final(s)| == 4 && Pack14Final(s)[3] == StreamByte(s, 14, 3)
  {}

  lemma Pack14Final2(s: seq<bv32>)
    requires |s| == 2 && Fits(s, 14)
    ensures IsStream(Pack14Final(s), s, 14, CeilBytes(14 * |s|))
  {
    assert CeilBytes(14 * |s|) == 4;
    Pack14Final2Byte0(s);
    forall k: bv32 | (k as int) < 4 ensures Pack14Final(s)[k as int] == StreamByte(s, 14, k) {
      if k == 0 { Pack14Final2Byte0(s); }
      else if k == 1 { Pack14Final2Byte1(s); }
      else if k == 2 { Pack14Final2Byte2(s); }
      else { Pack14Final2Byte3(s); }
    }
  }

  lemma Pack14Final3Byte0(s: seq<bv32>)
    requires |s| == 3 && Fits(s, 14)
    ensures |Pack14Final(s)| == 6 && Pack14Final(s)[0] == StreamByte(s, 14, 0)
  {}

  lemma Pack14Final3Byte1(s: seq<bv32>)
    requires |s| == 3 && Fits(s, 14)
    ensures |Pack14Final(s)| == 6 && Pack14Final(s)[1] == StreamByte(s, 14, 1)
  {}

  lemma Pack14Final3Byte2(s: seq<bv32>)
    requires |s| == 3 && Fits(s, 14)
    ensures |Pack14Final(s)| == 6 && Pack14Final(s)[2] == StreamByte(s, 14, 2)
  {}

  lemma Pack14Final3Byte3(s: seq<bv32>)
    requires |s| == 3 && Fits(s, 14)
    ensures |Pack14Final(s)| == 6 && Pack14Final(s)[3] == StreamByte(s, 14, 3)
  {}

  lemma Pack14Final3Byte4(s: seq<bv32>)
    requires |s| == 3 && Fits(s, 14)
    ensures |Pack14Final(s)| == 6 && Pack14Final(s)[4] == StreamByte(s, 14, 4)
  {}

  lemma Pack14Final3Byte5(s: seq<bv32>)
    requires |s| == 3 && Fits(s, 14)
    ensures |Pack14Final(s)| == 6 && Pack14Final(s)[5] == StreamByte(s, 14, 5)
  {}

  lemma Pack14Final3(s: seq<bv32>)
    requires |s| == 3 && Fits(s, 14)
    ensures IsStream(Pack14Final(s), s, 14, CeilBytes(14 * |s|))
  {
    assert CeilBytes(14 * |s|) == 6;
    Pack14Final3Byte0(s);
    forall k: bv32 | (k as int) < 6 ensures Pack14Final(s)[k as int] == StreamByte(s, 14, k) {
      if k == 0 { Pack14Final3Byte0(s); }
      else if k == 1 { Pack14Final3Byte1(s); }
      else if k == 2 { Pack14Final3Byte2(s); }
      else if k == 3 { Pack14Final3Byte3(s); }
      else if k == 4 { Pack14Final3Byte4(s); }
      else { Pack14Final3Byte5(s); }
    }
  }

  /** Pack14::packFinal writes its w samples as a 14-bit stream, padded to whole bytes. */
  lemma Pack14FinalStream(s: seq<bv32>)
    requires 1 <= |s| <= 3 && Fits(s, 14)
    ensures IsStream(Pack14Final(s), s, 14, CeilBytes(14 * |s|))
  {
    if |s| == 1 { Pack14Final1(s); }
    else if |s| == 2 { Pack14Final2(s); }
    else { Pack14Final3(s); }
  }

  /** The PUTBITS loop of Pack3::packFinal writes its w samples as a 3-bit stream, padded to whole bytes. */
  lemma Writer3FinalStream(s: seq<bv32>)
    requires 1 <= |s| < 8 && Fits(s, 3)
    ensures IsStream(Flush(RunPut(s, 3, |s|)), s, 3, CeilBytes(3 * |s|))
  {
    Writer3Stream(s);
    StreamBytesIsStream(s, 3, CeilBytes(3 * |s|));
  }

  /** The PUTBITS loop of Pack5::packFinal writes its w samples as a 5-bit stream, padded to whole bytes. */
  lemma Writer5FinalStream(s: seq<bv32>)
    requires 1 <= |s| < 8 && Fits(s, 5)
    ensures IsStream(Flush(RunPut(s, 5, |s|)), s, 5, CeilBytes(5 * |s|))
  {
    Writer5Stream(s);
    StreamBytesIsStream(s, 5, CeilBytes(5 * |s|));
  }

  /** The PUTBITS loop of Pack7::packFinal writes its w samples as a 7-bit stream, padded to whole bytes. */
  lemma Writer7FinalStream(s: seq<bv32>)
    requires 1 <= |s| < 8 && Fits(s, 7)
    ensures IsStream(Flush(RunPut(s, 7, |s|)), s, 7, CeilBytes(7 * |s|))
  {
    Writer7Stream(s);
    StreamBytesIsStream(s, 7, CeilBytes(7 * |s|));
  }

  /** The PUTBITS loop of Pack9::packFinal writes its w samples as a 9-bit stream, padded to whole bytes. */
  lemma Writer9FinalStream(s: seq<bv32>)
    requires 1 <= |s| < 8 && Fits(s, 9)
    ensures IsStream(Flush(RunPut2(s, 9, |s|)), s, 9, CeilBytes(9 * |s|))
  {
    Writer9Stream(s);
    StreamBytesIsStream(s, 9, CeilBytes(9 * |s|));
  }

  /** The PUTBITS loop of Pack11::packFinal writes its w samples as a 11-bit stream, padded to whole bytes. */
  lemma Writer11FinalStream(s: seq<bv32>)
    requires 1 <= |s| < 8 && Fits(s, 11)
    ensures IsStream(Flush(RunPut2(s, 11, |s|)), s, 11, CeilBytes(11 * |s|))
  {
    Writer11Stream(s);
    StreamBytesIsStream(s, 11, CeilBytes(11 * |s|));
  }

  /** The PUTBITS loop of Pack13::packFinal writes its w samples as a 13-bit stream, padded to whole bytes. */
  lemma Writer13FinalStream(s: seq<bv32>)
    requires 1 <= |s| < 8 && Fits(s, 13)
    ensures IsStream(Flush(RunPut2(s, 13, |s|)), s, 13, CeilBytes(13 * |s|))
  {
    Writer13Stream(s);
    StreamBytesIsStream(s, 13, CeilBytes(13 * |s|));
  }

  /** The PUTBITS loop of Pack15::packFinal writes its w samples as a 15-bit stream, padded to whole bytes. */
  lemma Writer15FinalStream(s: seq<bv32>)
    requires 1 <= |s| < 8 && Fits(s, 15)
    ensures IsStream(Flush(RunPut2(s, 15, |s|)), s, 15, CeilBytes(15 * |s|))
  {
    Writer15Stream(s);
    StreamBytesIsStream(s, 15, CeilBytes(15 * |s|));
  }

  /**
   * Every packer except the native-endian Pack16 writes a chunk as the
   * MSB-first stream of its samples. Only the masking packers accept
   * samples with stray high bits.
   */
  lemma PackStream(p: Packer, s: seq<bv32>)
    requires |s| == SrcChk(p) && p != Pack16
    requires !Masked(p) ==> Fits(s, Precision(p))
    ensures IsStream(PackBytes(p, s), s, Precision(p), ChunkBytes(p))
  {
    match p
    case Pack1 => Pack1Stream(s);
    case Pack2 => Pack2Stream(s);
    case Pack3 => Pack3Stream(s);
    case Pack4 => Pack4Stream(s);
    case Pack5 => Pack5Stream(s);
    case Pack6 => Pack6Stream(s);
    case Pack7 => Pack7Stream(s);
    case Pack8 => Pack8Stream(s);
    case Pack9 => Pack9Stream(s);
    case Pack10 => Pack10Stream(s);
    case Pack11 => Pack11Stream(s);
    case Pack12 => Pack12Stream(s);
    case Pack13 => Pack13Stream(s);
    case Pack14 => Pack14Stream(s);
    case Pack15 => Pack15Stream(s);
    case Pack16 => assert false;
    case Pack16BE => Pack16BEStream(s);
  }

  /** Every packFinal writes the samples left over as their MSB-first stream, zero-padded to a byte. */
  lemma PackFinalStream(p: Packer, s: seq<bv32>)
    requires 1 <= |s| < SrcChk(p)
    requires !Masked(p) ==> Fits(s, Precision(p))
    ensures IsStream(PackFinalBytes(p, s), s, Precision(p), CeilBytes(Precision(p) as nat * |s|))
  {
    match p
    case Pack1 => Pack1FinalStream(s);
    case Pack2 => Pack2FinalStream(s);
    case Pack3 => Writer3FinalStream(s);
    case Pack4 => Pack4FinalStream(s);
    case Pack5 => Writer5FinalStream(s);
    case Pack6 => Pack6FinalStream(s);
    case Pack7 => Writer7FinalStream(s);
    case Pack8 => assert false;
    case Pack9 => Writer9FinalStream(s);
    case Pack10 => Pack10FinalStream(s);
    case Pack11 => Writer11FinalStream(s);
    case Pack12 => Pack12FinalStream(s);
    case Pack13 => Writer13FinalStream(s);
    case Pack14 => Pack14FinalStream(s);
    case Pack15 => Writer15FinalStream(s);
    case Pack16 => assert false;
    case Pack16BE => assert false;
  }

  /** Pack16 stores the sample's uint16_t little-endian: the two bytes of its 16-bit field, swapped. */
  lemma Pack16Native(s: seq<bv32>)
    requires |s| == 1
    ensures PackBytes(Pack16, s) == [StreamByte(s, 16, 1), StreamByte(s, 16, 0)]
  {
  }
}
