/*
 * Every packer of src/bin/common/convert.h writes the samples of a chunk,
 * or the samples left over at the end of a row, as the first bytes of
 * Bits.Stream: the MSB-first stream with its positions counted in
 * unbounded integers, which StreamAppend joins chunk after chunk. The
 * per-packer proofs in PackerProofs count positions in 32 bits; the
 * lemmas here move each byte they cover from one numbering to the other.
 */
module PackStreams {

  import opened Bits
  import opened Streams
  import opened Packers
  import opened PackerKinds
  import opened PackerProofs

  /** The first byte of the 1-bit stream is the same in both numberings. */
  lemma BytesAgree1(s: seq<bv32>)
    ensures forall k: bv32 | (k as int) < 1 :: StreamByte(s, 1, k) == ByteOfStream(s, 1, k as int)
  {
    forall k: bv32 | (k as int) < 1 ensures StreamByte(s, 1, k) == ByteOfStream(s, 1, k as int) {
      assert k == 0;
      ByteOfStreamCases(s, 1, 0, 0, 0);
    }
  }

  /** The first byte of the 2-bit stream is the same in both numberings. */
  lemma BytesAgree2(s: seq<bv32>)
    ensures forall k: bv32 | (k as int) < 1 :: StreamByte(s, 2, k) == ByteOfStream(s, 2, k as int)
  {
    forall k: bv32 | (k as int) < 1 ensures StreamByte(s, 2, k) == ByteOfStream(s, 2, k as int) {
      assert k == 0;
      ByteOfStreamCases(s, 2, 0, 0, 0);
    }
  }

  /** The first 3 bytes of the 3-bit stream are the same in both numberings. */
  lemma BytesAgree3(s: seq<bv32>)
    ensures forall k: bv32 | (k as int) < 3 :: StreamByte(s, 3, k) == ByteOfStream(s, 3, k as int)
  {
    forall k: bv32 | (k as int) < 3 ensures StreamByte(s, 3, k) == ByteOfStream(s, 3, k as int) {
      if k == 0 {
        ByteOfStreamCases(s, 3, 0, 0, 0);
      } else if k == 1 {
        ByteOfStreamCases(s, 3, 1, 2, 2);
      } else {
        assert k == 2;
        ByteOfStreamCases(s, 3, 2, 5, 1);
      }
    }
  }

  /** The first byte of the 4-bit stream is the same in both numberings. */
  lemma BytesAgree4(s: seq<bv32>)
    ensures forall k: bv32 | (k as int) < 1 :: StreamByte(s, 4, k) == ByteOfStream(s, 4, k as int)
  {
    forall k: bv32 | (k as int) < 1 ensures StreamByte(s, 4, k) == ByteOfStream(s, 4, k as int) {
      assert k == 0;
      ByteOfStreamCases(s, 4, 0, 0, 0);
    }
  }

  /** Bytes 0 .. 3 of the 5-bit stream are the same in both numberings. */
  lemma BytesAgree5From0(s: seq<bv32>)
    ensures forall k: bv32 | (k as int) < 4 :: StreamByte(s, 5, k) == ByteOfStream(s, 5, k as int)
  {
    forall k: bv32 | (k as int) < 4 ensures StreamByte(s, 5, k) == ByteOfStream(s, 5, k as int) {
      if k == 0 {
        ByteOfStreamCases(s, 5, 0, 0, 0);
      } else if k == 1 {
        ByteOfStreamCases(s, 5, 1, 1, 3);
      } else if k == 2 {
        ByteOfStreamCases(s, 5, 2, 3, 1);
      } else {
        assert k == 3;
        ByteOfStreamCases(s, 5, 3, 4, 4);
      }
    }
  }

  /** Bytes 4 .. 4 of the 5-bit stream are the same in both numberings. */
  lemma BytesAgree5From4(s: seq<bv32>)
    ensures forall k: bv32 | 4 <= k && (k as int) < 5 :: StreamByte(s, 5, k) == ByteOfStream(s, 5, k as int)
  {
    forall k: bv32 | 4 <= k && (k as int) < 5 ensures StreamByte(s, 5, k) == ByteOfStream(s, 5, k as int) {
      assert k == 4;
      ByteOfStreamCases(s, 5, 4, 6, 2);
    }
  }

  /** The first 5 bytes of the 5-bit stream are the same in both numberings. */
  lemma BytesAgree5(s: seq<bv32>)
    ensures forall k: bv32 | (k as int) < 5 :: StreamByte(s, 5, k) == ByteOfStream(s, 5, k as int)
  {
    BytesAgree5From0(s);
    BytesAgree5From4(s);
  }

  /** The first 3 bytes of the 6-bit stream are the same in both numberings. */
  lemma BytesAgree6(s: seq<bv32>)
    ensures forall k: bv32 | (k as int) < 3 :: StreamByte(s, 6, k) == ByteOfStream(s, 6, k as int)
  {
    forall k: bv32 | (k as int) < 3 ensures StreamByte(s, 6, k) == ByteOfStream(s, 6, k as int) {
      if k == 0 {
        ByteOfStreamCases(s, 6, 0, 0, 0);
      } else if k == 1 {
        ByteOfStreamCases(s, 6, 1, 1, 2);
      } else {
        assert k == 2;
        ByteOfStreamCases(s, 6, 2, 2, 4);
      }
    }
  }

  /** Bytes 0 .. 3 of the 7-bit stream are the same in both numberings. */
  lemma BytesAgree7From0(s: seq<bv32>)
    ensures forall k: bv32 | (k as int) < 4 :: StreamByte(s, 7, k) == ByteOfStream(s, 7, k as int)
  {
    forall k: bv32 | (k as int) < 4 ensures StreamByte(s, 7, k) == ByteOfStream(s, 7, k as int) {
      if k == 0 {
        ByteOfStreamCases(s, 7, 0, 0, 0);
      } else if k == 1 {
        ByteOfStreamCases(s, 7, 1, 1, 1);
      } else if k == 2 {
        ByteOfStreamCases(s, 7, 2, 2, 2);
      } else {
        assert k == 3;
        ByteOfStreamCases(s, 7, 3, 3, 3);
      }
    }
  }

  /** Bytes 4 .. 6 of the 7-bit stream are the same in both numberings. */
  lemma BytesAgree7From4(s: seq<bv32>)
    ensures forall k: bv32 | 4 <= k && (k as int) < 7 :: StreamByte(s, 7, k) == ByteOfStream(s, 7, k as int)
  {
    forall k: bv32 | 4 <= k && (k as int) < 7 ensures StreamByte(s, 7, k) == ByteOfStream(s, 7, k as int) {
      if k == 4 {
        ByteOfStreamCases(s, 7, 4, 4, 4);
      } else if k == 5 {
        ByteOfStreamCases(s, 7, 5, 5, 5);
      } else {
        assert k == 6;
        ByteOfStreamCases(s, 7, 6, 6, 6);
      }
    }
  }

  /** The first 7 bytes of the 7-bit stream are the same in both numberings. */
  lemma BytesAgree7(s: seq<bv32>)
    ensures forall k: bv32 | (k as int) < 7 :: StreamByte(s, 7, k) == ByteOfStream(s, 7, k as int)
  {
    BytesAgree7From0(s);
    BytesAgree7From4(s);
  }

  /** The first byte of the 8-bit stream is the same in both numberings. */
  lemma BytesAgree8(s: seq<bv32>)
    ensures forall k: bv32 | (k as int) < 1 :: StreamByte(s, 8, k) == ByteOfStream(s, 8, k as int)
  {
    forall k: bv32 | (k as int) < 1 ensures StreamByte(s, 8, k) == ByteOfStream(s, 8, k as int) {
      assert k == 0;
      ByteOfStreamCases(s, 8, 0, 0, 0);
    }
  }

  /** Bytes 0 .. 3 of the 9-bit stream are the same in both numberings. */
  lemma BytesAgree9From0(s: seq<bv32>)
    ensures forall k: bv32 | (k as int) < 4 :: StreamByte(s, 9, k) == ByteOfStream(s, 9, k as int)
  {
    forall k: bv32 | (k as int) < 4 ensures StreamByte(s, 9, k) == ByteOfStream(s, 9, k as int) {
      if k == 0 {
        ByteOfStreamCases(s, 9, 0, 0, 0);
      } else if k == 1 {
        ByteOfStreamCases(s, 9, 1, 0, 8);
      } else if k == 2 {
        ByteOfStreamCases(s, 9, 2, 1, 7);
      } else {
        assert k == 3;
        ByteOfStreamCases(s, 9, 3, 2, 6);
      }
    }
  }

  /** Bytes 4 .. 7 of the 9-bit stream are the same in both numberings. */
  lemma BytesAgree9From4(s: seq<bv32>)
    ensures forall k: bv32 | 4 <= k && (k as int) < 8 :: StreamByte(s, 9, k) == ByteOfStream(s, 9, k as int)
  {
    forall k: bv32 | 4 <= k && (k as int) < 8 ensures StreamByte(s, 9, k) == ByteOfStream(s, 9, k as int) {
      if k == 4 {
        ByteOfStreamCases(s, 9, 4, 3, 5);
      } else if k == 5 {
        ByteOfStreamCases(s, 9, 5, 4, 4);
      } else if k == 6 {
        ByteOfStreamCases(s, 9, 6, 5, 3);
      } else {
        assert k == 7;
        ByteOfStreamCases(s, 9, 7, 6, 2);
      }
    }
  }

  /** Bytes 8 .. 8 of the 9-bit stream are the same in both numberings. */
  lemma BytesAgree9From8(s: seq<bv32>)
    ensures forall k: bv32 | 8 <= k && (k as int) < 9 :: StreamByte(s, 9, k) == ByteOfStream(s, 9, k as int)
  {
    forall k: bv32 | 8 <= k && (k as int) < 9 ensures StreamByte(s, 9, k) == ByteOfStream(s, 9, k as int) {
      assert k == 8;
      ByteOfStreamCases(s, 9, 8, 7, 1);
    }
  }

  /** The first 9 bytes of the 9-bit stream are the same in both numberings. */
  lemma BytesAgree9(s: seq<bv32>)
    ensures forall k: bv32 | (k as int) < 9 :: StreamByte(s, 9, k) == ByteOfStream(s, 9, k as int)
  {
    BytesAgree9From0(s);
    BytesAgree9From4(s);
    BytesAgree9From8(s);
  }

  /** Bytes 0 .. 3 of the 10-bit stream are the same in both numberings. */
  lemma BytesAgree10From0(s: seq<bv32>)
    ensures forall k: bv32 | (k as int) < 4 :: StreamByte(s, 10, k) == ByteOfStream(s, 10, k as int)
  {
    forall k: bv32 | (k as int) < 4 ensures StreamByte(s, 10, k) == ByteOfStream(s, 10, k as int) {
      if k == 0 {
        ByteOfStreamCases(s, 10, 0, 0, 0);
      } else if k == 1 {
        ByteOfStreamCases(s, 10, 1, 0, 8);
      } else if k == 2 {
        ByteOfStreamCases(s, 10, 2, 1, 6);
      } else {
        assert k == 3;
        ByteOfStreamCases(s, 10, 3, 2, 4);
      }
    }
  }

  /** Bytes 4 .. 4 of the 10-bit stream are the same in both numberings. */
  lemma BytesAgree10From4(s: seq<bv32>)
    ensures forall k: bv32 | 4 <= k && (k as int) < 5 :: StreamByte(s, 10, k) == ByteOfStream(s, 10, k as int)
  {
    forall k: bv32 | 4 <= k && (k as int) < 5 ensures StreamByte(s, 10, k) == ByteOfStream(s, 10, k as int) {
      assert k == 4;
      ByteOfStreamCases(s, 10, 4, 3, 2);
    }
  }

  /** The first 5 bytes of the 10-bit stream are the same in both numberings. */
  lemma BytesAgree10(s: seq<bv32>)
    ensures forall k: bv32 | (k as int) < 5 :: StreamByte(s, 10, k) == ByteOfStream(s, 10, k as int)
  {
    BytesAgree10From0(s);
    BytesAgree10From4(s);
  }

  /** Bytes 0 .. 3 of the 11-bit stream are the same in both numberings. */
  lemma BytesAgree11From0(s: seq<bv32>)
    ensures forall k: bv32 | (k as int) < 4 :: StreamByte(s, 11, k) == ByteOfStream(s, 11, k as int)
  {
    forall k: bv32 | (k as int) < 4 ensures StreamByte(s, 11, k) == ByteOfStream(s, 11, k as int) {
      if k == 0 {
        ByteOfStreamCases(s, 11, 0, 0, 0);
      } else if k == 1 {
        ByteOfStreamCases(s, 11, 1, 0, 8);
      } else if k == 2 {
        ByteOfStreamCases(s, 11, 2, 1, 5);
      } else {
        assert k == 3;
        ByteOfStreamCases(s, 11, 3, 2, 2);
      }
    }
  }

  /** Bytes 4 .. 7 of the 11-bit stream are the same in both numberings. */
  lemma BytesAgree11From4(s: seq<bv32>)
    ensures forall k: bv32 | 4 <= k && (k as int) < 8 :: StreamByte(s, 11, k) == ByteOfStream(s, 11, k as int)
  {
    forall k: bv32 | 4 <= k && (k as int) < 8 ensures StreamByte(s, 11, k) == ByteOfStream(s, 11, k as int) {
      if k == 4 {
        ByteOfStreamCases(s, 11, 4, 2, 10);
      } else if k == 5 {
        ByteOfStreamCases(s, 11, 5, 3, 7);
      } else if k == 6 {
        ByteOfStreamCases(s, 11, 6, 4, 4);
      } else {
        assert k == 7;
        ByteOfStreamCases(s, 11, 7, 5, 1);
      }
    }
  }

  /** Bytes 8 .. 10 of the 11-bit stream are the same in both numberings. */
  lemma BytesAgree11From8(s: seq<bv32>)
    ensures forall k: bv32 | 8 <= k && (k as int) < 11 :: StreamByte(s, 11, k) == ByteOfStream(s, 11, k as int)
  {
    forall k: bv32 | 8 <= k && (k as int) < 11 ensures StreamByte(s, 11, k) == ByteOfStream(s, 11, k as int) {
      if k == 8 {
        ByteOfStreamCases(s, 11, 8, 5, 9);
      } else if k == 9 {
        ByteOfStreamCases(s, 11, 9, 6, 6);
      } else {
        assert k == 10;
        ByteOfStreamCases(s, 11, 10, 7, 3);
      }
    }
  }

  /** The first 11 bytes of the 11-bit stream are the same in both numberings. */
  lemma BytesAgree11(s: seq<bv32>)
    ensures forall k: bv32 | (k as int) < 11 :: StreamByte(s, 11, k) == ByteOfStream(s, 11, k as int)
  {
    BytesAgree11From0(s);
    BytesAgree11From4(s);
    BytesAgree11From8(s);
  }

  /** The first 3 bytes of the 12-bit stream are the same in both numberings. */
  lemma BytesAgree12(s: seq<bv32>)
    ensures forall k: bv32 | (k as int) < 3 :: StreamByte(s, 12, k) == ByteOfStream(s, 12, k as int)
  {
    forall k: bv32 | (k as int) < 3 ensures StreamByte(s, 12, k) == ByteOfStream(s, 12, k as int) {
      if k == 0 {
        ByteOfStreamCases(s, 12, 0, 0, 0);
      } else if k == 1 {
        ByteOfStreamCases(s, 12, 1, 0, 8);
      } else {
        assert k == 2;
        ByteOfStreamCases(s, 12, 2, 1, 4);
      }
    }
  }

  /** Bytes 0 .. 3 of the 13-bit stream are the same in both numberings. */
  lemma BytesAgree13From0(s: seq<bv32>)
    ensures forall k: bv32 | (k as int) < 4 :: StreamByte(s, 13, k) == ByteOfStream(s, 13, k as int)
  {
    forall k: bv32 | (k as int) < 4 ensures StreamByte(s, 13, k) == ByteOfStream(s, 13, k as int) {
      if k == 0 {
        ByteOfStreamCases(s, 13, 0, 0, 0);
      } else if k == 1 {
        ByteOfStreamCases(s, 13, 1, 0, 8);
      } else if k == 2 {
        ByteOfStreamCases(s, 13, 2, 1, 3);
      } else {
        assert k == 3;
        ByteOfStreamCases(s, 13, 3, 1, 11);
      }
    }
  }

  /** Bytes 4 .. 7 of the 13-bit stream are the same in both numberings. */
  lemma BytesAgree13From4(s: seq<bv32>)
    ensures forall k: bv32 | 4 <= k && (k as int) < 8 :: StreamByte(s, 13, k) == ByteOfStream(s, 13, k as int)
  {
    forall k: bv32 | 4 <= k && (k as int) < 8 ensures StreamByte(s, 13, k) == ByteOfStream(s, 13, k as int) {
      if k == 4 {
        ByteOfStreamCases(s, 13, 4, 2, 6);
      } else if k == 5 {
        ByteOfStreamCases(s, 13, 5, 3, 1);
      } else if k == 6 {
        ByteOfStreamCases(s, 13, 6, 3, 9);
      } else {
        assert k == 7;
        ByteOfStreamCases(s, 13, 7, 4, 4);
      }
    }
  }

  /** Bytes 8 .. 11 of the 13-bit stream are the same in both numberings. */
  lemma BytesAgree13From8(s: seq<bv32>)
    ensures forall k: bv32 | 8 <= k && (k as int) < 12 :: StreamByte(s, 13, k) == ByteOfStream(s, 13, k as int)
  {
    forall k: bv32 | 8 <= k && (k as int) < 12 ensures StreamByte(s, 13, k) == ByteOfStream(s, 13, k as int) {
      if k == 8 {
        ByteOfStreamCases(s, 13, 8, 4, 12);
      } else if k == 9 {
        ByteOfStreamCases(s, 13, 9, 5, 7);
      } else if k == 10 {
        ByteOfStreamCases(s, 13, 10, 6, 2);
      } else {
        assert k == 11;
        ByteOfStreamCases(s, 13, 11, 6, 10);
      }
    }
  }

  /** Bytes 12 .. 12 of the 13-bit stream are the same in both numberings. */
  lemma BytesAgree13From12(s: seq<bv32>)
    ensures forall k: bv32 | 12 <= k && (k as int) < 13 :: StreamByte(s, 13, k) == ByteOfStream(s, 13, k as int)
  {
    forall k: bv32 | 12 <= k && (k as int) < 13 ensures StreamByte(s, 13, k) == ByteOfStream(s, 13, k as int) {
      assert k == 12;
      ByteOfStreamCases(s, 13, 12, 7, 5);
    }
  }

  /** The first 13 bytes of the 13-bit stream are the same in both numberings. */
  lemma BytesAgree13(s: seq<bv32>)
    ensures forall k: bv32 | (k as int) < 13 :: StreamByte(s, 13, k) == ByteOfStream(s, 13, k as int)
  {
    BytesAgree13From0(s);
    BytesAgree13From4(s);
    BytesAgree13From8(s);
    BytesAgree13From12(s);
  }

  /** Bytes 0 .. 3 of the 14-bit stream are the same in both numberings. */
  lemma BytesAgree14From0(s: seq<bv32>)
    ensures forall k: bv32 | (k as int) < 4 :: StreamByte(s, 14, k) == ByteOfStream(s, 14, k as int)
  {
    forall k: bv32 | (k as int) < 4 ensures StreamByte(s, 14, k) == ByteOfStream(s, 14, k as int) {
      if k == 0 {
        ByteOfStreamCases(s, 14, 0, 0, 0);
      } else if k == 1 {
        ByteOfStreamCases(s, 14, 1, 0, 8);
      } else if k == 2 {
        ByteOfStreamCases(s, 14, 2, 1, 2);
      } else {
        assert k == 3;
        ByteOfStreamCases(s, 14, 3, 1, 10);
      }
    }
  }

  /** Bytes 4 .. 6 of the 14-bit stream are the same in both numberings. */
  lemma BytesAgree14From4(s: seq<bv32>)
    ensures forall k: bv32 | 4 <= k && (k as int) < 7 :: StreamByte(s, 14, k) == ByteOfStream(s, 14, k as int)
  {
    forall k: bv32 | 4 <= k && (k as int) < 7 ensures StreamByte(s, 14, k) == ByteOfStream(s, 14, k as int) {
      if k == 4 {
        ByteOfStreamCases(s, 14, 4, 2, 4);
      } else if k == 5 {
        ByteOfStreamCases(s, 14, 5, 2, 12);
      } else {
        assert k == 6;
        ByteOfStreamCases(s, 14, 6, 3, 6);
      }
    }
  }

  /** The first 7 bytes of the 14-bit stream are the same in both numberings. */
  lemma BytesAgree14(s: seq<bv32>)
    ensures forall k: bv32 | (k as int) < 7 :: StreamByte(s, 14, k) == ByteOfStream(s, 14, k as int)
  {
    BytesAgree14From0(s);
    BytesAgree14From4(s);
  }

  /** Bytes 0 .. 3 of the 15-bit stream are the same in both numberings. */
  lemma BytesAgree15From0(s: seq<bv32>)
    ensures forall k: bv32 | (k as int) < 4 :: StreamByte(s, 15, k) == ByteOfStream(s, 15, k as int)
  {
    forall k: bv32 | (k as int) < 4 ensures StreamByte(s, 15, k) == ByteOfStream(s, 15, k as int) {
      if k == 0 {
        ByteOfStreamCases(s, 15, 0, 0, 0);
      } else if k == 1 {
        ByteOfStreamCases(s, 15, 1, 0, 8);
      } else if k == 2 {
        ByteOfStreamCases(s, 15, 2, 1, 1);
      } else {
        assert k == 3;
        ByteOfStreamCases(s, 15, 3, 1, 9);
      }
    }
  }

  /** Bytes 4 .. 7 of the 15-bit stream are the same in both numberings. */
  lemma BytesAgree15From4(s: seq<bv32>)
    ensures forall k: bv32 | 4 <= k && (k as int) < 8 :: StreamByte(s, 15, k) == ByteOfStream(s, 15, k as int)
  {
    forall k: bv32 | 4 <= k && (k as int) < 8 ensures StreamByte(s, 15, k) == ByteOfStream(s, 15, k as int) {
      if k == 4 {
        ByteOfStreamCases(s, 15, 4, 2, 2);
      } else if k == 5 {
        ByteOfStreamCases(s, 15, 5, 2, 10);
      } else if k == 6 {
        ByteOfStreamCases(s, 15, 6, 3, 3);
      } else {
        assert k == 7;
        ByteOfStreamCases(s, 15, 7, 3, 11);
      }
    }
  }

  /** Bytes 8 .. 11 of the 15-bit stream are the same in both numberings. */
  lemma BytesAgree15From8(s: seq<bv32>)
    ensures forall k: bv32 | 8 <= k && (k as int) < 12 :: StreamByte(s, 15, k) == ByteOfStream(s, 15, k as int)
  {
    forall k: bv32 | 8 <= k && (k as int) < 12 ensures StreamByte(s, 15, k) == ByteOfStream(s, 15, k as int) {
      if k == 8 {
        ByteOfStreamCases(s, 15, 8, 4, 4);
      } else if k == 9 {
        ByteOfStreamCases(s, 15, 9, 4, 12);
      } else if k == 10 {
        ByteOfStreamCases(s, 15, 10, 5, 5);
      } else {
        assert k == 11;
        ByteOfStreamCases(s, 15, 11, 5, 13);
      }
    }
  }

  /** Bytes 12 .. 14 of the 15-bit stream are the same in both numberings. */
  lemma BytesAgree15From12(s: seq<bv32>)
    ensures forall k: bv32 | 12 <= k && (k as int) < 15 :: StreamByte(s, 15, k) == ByteOfStream(s, 15, k as int)
  {
    forall k: bv32 | 12 <= k && (k as int) < 15 ensures StreamByte(s, 15, k) == ByteOfStream(s, 15, k as int) {
      if k == 12 {
        ByteOfStreamCases(s, 15, 12, 6, 6);
      } else if k == 13 {
        ByteOfStreamCases(s, 15, 13, 6, 14);
      } else {
        assert k == 14;
        ByteOfStreamCases(s, 15, 14, 7, 7);
      }
    }
  }

  /** The first 15 bytes of the 15-bit stream are the same in both numberings. */
  lemma BytesAgree15(s: seq<bv32>)
    ensures forall k: bv32 | (k as int) < 15 :: StreamByte(s, 15, k) == ByteOfStream(s, 15, k as int)
  {
    BytesAgree15From0(s);
    BytesAgree15From4(s);
    BytesAgree15From8(s);
    BytesAgree15From12(s);
  }

  /** The first 2 bytes of the 16-bit stream are the same in both numberings. */
  lemma BytesAgree16(s: seq<bv32>)
    ensures forall k: bv32 | (k as int) < 2 :: StreamByte(s, 16, k) == ByteOfStream(s, 16, k as int)
  {
    forall k: bv32 | (k as int) < 2 ensures StreamByte(s, 16, k) == ByteOfStream(s, 16, k as int) {
      if k == 0 {
        ByteOfStreamCases(s, 16, 0, 0, 0);
      } else {
        assert k == 1;
        ByteOfStreamCases(s, 16, 1, 0, 8);
      }
    }
  }

  /**
   * The first m <= 15 bytes of the stream, as IsStream states them in 32-bit
   * positions, are Stream(s, n, m) once the two numberings agree on them.
   */
  lemma AsStream(bytes: seq<bv8>, s: seq<bv32>, nb: bv32, n: nat, m: nat)
    requires 1 <= nb <= 16 && 1 <= n <= 16 && m <= 15 && IsStream(bytes, s, nb, m)
    requires forall k: bv32 | (k as int) < m :: StreamByte(s, nb, k) == ByteOfStream(s, n, k as int)
    ensures bytes == Stream(s, n, m)
  {
    AsStreamFrom0(bytes, s, nb, n, m);
    AsStreamFrom5(bytes, s, nb, n, m);
    AsStreamFrom10(bytes, s, nb, n, m);
  }

  /** Bytes 0 .. 4 of AsStream. */
  lemma AsStreamFrom0(bytes: seq<bv8>, s: seq<bv32>, nb: bv32, n: nat, m: nat)
    requires 1 <= nb <= 16 && 1 <= n <= 16 && m <= 15 && IsStream(bytes, s, nb, m)
    requires forall k: bv32 | (k as int) < m :: StreamByte(s, nb, k) == ByteOfStream(s, n, k as int)
    ensures forall j | 0 <= j < 5 && j < m :: bytes[j] == ByteOfStream(s, n, j)
  {
    forall j | 0 <= j < 5 && j < m ensures bytes[j] == ByteOfStream(s, n, j) {
      if j == 0 {
        assert StreamByte(s, nb, 0) == ByteOfStream(s, n, 0);
      } else if j == 1 {
        assert StreamByte(s, nb, 1) == ByteOfStream(s, n, 1);
      } else if j == 2 {
        assert StreamByte(s, nb, 2) == ByteOfStream(s, n, 2);
      } else if j == 3 {
        assert StreamByte(s, nb, 3) == ByteOfStream(s, n, 3);
      } else {
        assert j == 4;
        assert StreamByte(s, nb, 4) == ByteOfStream(s, n, 4);
      }
    }
  }

  /** Bytes 5 .. 9 of AsStream. */
  lemma AsStreamFrom5(bytes: seq<bv8>, s: seq<bv32>, nb: bv32, n: nat, m: nat)
    requires 1 <= nb <= 16 && 1 <= n <= 16 && m <= 15 && IsStream(bytes, s, nb, m)
    requires forall k: bv32 | (k as int) < m :: StreamByte(s, nb, k) == ByteOfStream(s, n, k as int)
    ensures forall j | 5 <= j < 10 && j < m :: bytes[j] == ByteOfStream(s, n, j)
  {
    forall j | 5 <= j < 10 && j < m ensures bytes[j] == ByteOfStream(s, n, j) {
      if j == 5 {
        assert StreamByte(s, nb, 5) == ByteOfStream(s, n, 5);
      } else if j == 6 {
        assert StreamByte(s, nb, 6) == ByteOfStream(s, n, 6);
      } else if j == 7 {
        assert StreamByte(s, nb, 7) == ByteOfStream(s, n, 7);
      } else if j == 8 {
        assert StreamByte(s, nb, 8) == ByteOfStream(s, n, 8);
      } else {
        assert j == 9;
        assert StreamByte(s, nb, 9) == ByteOfStream(s, n, 9);
      }
    }
  }

  /** Bytes 10 .. 14 of AsStream. */
  lemma AsStreamFrom10(bytes: seq<bv8>, s: seq<bv32>, nb: bv32, n: nat, m: nat)
    requires 1 <= nb <= 16 && 1 <= n <= 16 && m <= 15 && IsStream(bytes, s, nb, m)
    requires forall k: bv32 | (k as int) < m :: StreamByte(s, nb, k) == ByteOfStream(s, n, k as int)
    ensures forall j | 10 <= j < 15 && j < m :: bytes[j] == ByteOfStream(s, n, j)
  {
    forall j | 10 <= j < 15 && j < m ensures bytes[j] == ByteOfStream(s, n, j) {
      if j == 10 {
        assert StreamByte(s, nb, 10) == ByteOfStream(s, n, 10);
      } else if j == 11 {
        assert StreamByte(s, nb, 11) == ByteOfStream(s, n, 11);
      } else if j == 12 {
        assert StreamByte(s, nb, 12) == ByteOfStream(s, n, 12);
      } else if j == 13 {
        assert StreamByte(s, nb, 13) == ByteOfStream(s, n, 13);
      } else {
        assert j == 14;
        assert StreamByte(s, nb, 14) == ByteOfStream(s, n, 14);
      }
    }
  }

  /** pack() writes its chunk of samples as the first ChunkBytes(p) bytes of their MSB-first stream. */
  lemma PackAsStream(p: Packer, s: seq<bv32>)
    requires |s| == SrcChk(p) && p != Pack16
    requires !Masked(p) ==> Fits(s, Precision(p))
    ensures PackBytes(p, s) == Stream(s, Precision(p) as nat, ChunkBytes(p))
  {
    if Precision(p) <= 8 {
      PackAsStreamNarrow(p, s);
    } else {
      PackAsStreamWide(p, s);
    }
  }

  lemma PackAsStreamNarrow(p: Packer, s: seq<bv32>)
    requires |s| == SrcChk(p) && p != Pack16
    requires !Masked(p) ==> Fits(s, Precision(p))
    requires Precision(p) <= 8
    ensures PackBytes(p, s) == Stream(s, Precision(p) as nat, ChunkBytes(p))
  {
    match p
    case Pack1 =>
      PackStream(p, s);
      BytesAgree1(s);
      AsStream(PackBytes(p, s), s, 1, 1, 1);
    case Pack2 =>
      PackStream(p, s);
      BytesAgree2(s);
      AsStream(PackBytes(p, s), s, 2, 2, 1);
    case Pack3 =>
      PackStream(p, s);
      BytesAgree3(s);
      AsStream(PackBytes(p, s), s, 3, 3, 3);
    case Pack4 =>
      PackStream(p, s);
      BytesAgree4(s);
      AsStream(PackBytes(p, s), s, 4, 4, 1);
    case Pack5 =>
      PackStream(p, s);
      BytesAgree5(s);
      AsStream(PackBytes(p, s), s, 5, 5, 5);
    case Pack6 =>
      PackStream(p, s);
      BytesAgree6(s);
      AsStream(PackBytes(p, s), s, 6, 6, 3);
    case Pack7 =>
      PackStream(p, s);
      BytesAgree7(s);
      AsStream(PackBytes(p, s), s, 7, 7, 7);
    case Pack8 =>
      PackStream(p, s);
      BytesAgree8(s);
      AsStream(PackBytes(p, s), s, 8, 8, 1);
    case Pack9 => assert false;
    case Pack10 => assert false;
    case Pack11 => assert false;
    case Pack12 => assert false;
    case Pack13 => assert false;
    case Pack14 => assert false;
    case Pack15 => assert false;
    case Pack16BE => assert false;
    case Pack16 => assert false;
  }

  lemma PackAsStreamWide(p: Packer, s: seq<bv32>)
    requires |s| == SrcChk(p) && p != Pack16
    requires !Masked(p) ==> Fits(s, Precision(p))
    requires 8 < Precision(p)
    ensures PackBytes(p, s) == Stream(s, Precision(p) as nat, ChunkBytes(p))
  {
    match p
    case Pack1 => assert false;
    case Pack2 => assert false;
    case Pack3 => assert false;
    case Pack4 => assert false;
    case Pack5 => assert false;
    case Pack6 => assert false;
    case Pack7 => assert false;
    case Pack8 => assert false;
    case Pack9 =>
      PackStream(p, s);
      BytesAgree9(s);
      AsStream(PackBytes(p, s), s, 9, 9, 9);
    case Pack10 =>
      PackStream(p, s);
      BytesAgree10(s);
      AsStream(PackBytes(p, s), s, 10, 10, 5);
    case Pack11 =>
      PackStream(p, s);
      BytesAgree11(s);
      AsStream(PackBytes(p, s), s, 11, 11, 11);
    case Pack12 =>
      PackStream(p, s);
      BytesAgree12(s);
      AsStream(PackBytes(p, s), s, 12, 12, 3);
    case Pack13 =>
      PackStream(p, s);
      BytesAgree13(s);
      AsStream(PackBytes(p, s), s, 13, 13, 13);
    case Pack14 =>
      PackStream(p, s);
      BytesAgree14(s);
      AsStream(PackBytes(p, s), s, 14, 14, 7);
    case Pack15 =>
      PackStream(p, s);
      BytesAgree15(s);
      AsStream(PackBytes(p, s), s, 15, 15, 15);
    case Pack16BE =>
      PackStream(p, s);
      BytesAgree16(s);
      AsStream(PackBytes(p, s), s, 16, 16, 2);
    case Pack16 => assert false;
  }

  /**
   * packFinal() writes the samples left over as the first bytes of their
   * MSB-first stream, the last byte zero-padded.
   */
  lemma PackFinalAsStream(p: Packer, s: seq<bv32>)
    requires 1 <= |s| < SrcChk(p)
    requires !Masked(p) ==> Fits(s, Precision(p))
    ensures PackFinalBytes(p, s) == Stream(s, Precision(p) as nat, CeilBytes(Precision(p) as nat * |s|))
  {
    if Precision(p) <= 8 {
      PackFinalAsStreamNarrow(p, s);
    } else {
      PackFinalAsStreamWide(p, s);
    }
  }

  lemma PackFinalAsStreamNarrow(p: Packer, s: seq<bv32>)
    requires 1 <= |s| < SrcChk(p)
    requires !Masked(p) ==> Fits(s, Precision(p))
    requires Precision(p) <= 8
    ensures PackFinalBytes(p, s) == Stream(s, Precision(p) as nat, CeilBytes(Precision(p) as nat * |s|))
  {
    match p
    case Pack1 =>
      PackFinalStream(p, s);
      BytesAgree1(s);
      AsStream(PackFinalBytes(p, s), s, 1, 1, CeilBytes(1 * |s|));
    case Pack2 =>
      PackFinalStream(p, s);
      BytesAgree2(s);
      AsStream(PackFinalBytes(p, s), s, 2, 2, CeilBytes(2 * |s|));
    case Pack3 =>
      PackFinalStream(p, s);
      BytesAgree3(s);
      AsStream(PackFinalBytes(p, s), s, 3, 3, CeilBytes(3 * |s|));
    case Pack4 =>
      PackFinalStream(p, s);
      BytesAgree4(s);
      AsStream(PackFinalBytes(p, s), s, 4, 4, CeilBytes(4 * |s|));
    case Pack5 =>
      PackFinalStream(p, s);
      BytesAgree5(s);
      AsStream(PackFinalBytes(p, s), s, 5, 5, CeilBytes(5 * |s|));
    case Pack6 =>
      PackFinalStream(p, s);
      BytesAgree6(s);
      AsStream(PackFinalBytes(p, s), s, 6, 6, CeilBytes(6 * |s|));
    case Pack7 =>
      PackFinalStream(p, s);
      BytesAgree7(s);
      AsStream(PackFinalBytes(p, s), s, 7, 7, CeilBytes(7 * |s|));
    case Pack8 => assert false;
    case Pack9 => assert false;
    case Pack10 => assert false;
    case Pack11 => assert false;
    case Pack12 => assert false;
    case Pack13 => assert false;
    case Pack14 => assert false;
    case Pack15 => assert false;
    case Pack16BE => assert false;
    case Pack16 => assert false;
  }

  lemma PackFinalAsStreamWide(p: Packer, s: seq<bv32>)
    requires 1 <= |s| < SrcChk(p)
    requires !Masked(p) ==> Fits(s, Precision(p))
    requires 8 < Precision(p)
    ensures PackFinalBytes(p, s) == Stream(s, Precision(p) as nat, CeilBytes(Precision(p) as nat * |s|))
  {
    match p
    case Pack1 => assert false;
    case Pack2 => assert false;
    case Pack3 => assert false;
    case Pack4 => assert false;
    case Pack5 => assert false;
    case Pack6 => assert false;
    case Pack7 => assert false;
    case Pack8 => assert false;
    case Pack9 => PackFinalAsStream9(s);
    case Pack10 => PackFinalAsStream10(s);
    case Pack11 => PackFinalAsStream11(s);
    case Pack12 => PackFinalAsStream12(s);
    case Pack13 => PackFinalAsStream13(s);
    case Pack14 => PackFinalAsStream14(s);
    case Pack15 => PackFinalAsStream15(s);
    case Pack16BE => assert false;
    case Pack16 => assert false;
  }
  /** Pack9::packFinal stores the zero-padded stream of its leftover samples. */
  lemma PackFinalAsStream9(s: seq<bv32>)
    requires 1 <= |s| < SrcChk(Pack9) && Fits(s, 9)
    ensures PackFinalBytes(Pack9, s) == Stream(s, 9, CeilBytes(9 * |s|))
  {
    PackFinalStream(Pack9, s);
    BytesAgree9(s);
    AsStream(PackFinalBytes(Pack9, s), s, 9, 9, CeilBytes(9 * |s|));
  }

  /** Pack10::packFinal stores the zero-padded stream of its leftover samples. */
  lemma PackFinalAsStream10(s: seq<bv32>)
    requires 1 <= |s| < SrcChk(Pack10) && Fits(s, 10)
    ensures PackFinalBytes(Pack10, s) == Stream(s, 10, CeilBytes(10 * |s|))
  {
    PackFinalStream(Pack10, s);
    BytesAgree10(s);
    AsStream(PackFinalBytes(Pack10, s), s, 10, 10, CeilBytes(10 * |s|));
  }

  /** Pack11::packFinal stores the zero-padded stream of its leftover samples. */
  lemma PackFinalAsStream11(s: seq<bv32>)
    requires 1 <= |s| < SrcChk(Pack11) && Fits(s, 11)
    ensures PackFinalBytes(Pack11, s) == Stream(s, 11, CeilBytes(11 * |s|))
  {
    PackFinalStream(Pack11, s);
    BytesAgree11(s);
    AsStream(PackFinalBytes(Pack11, s), s, 11, 11, CeilBytes(11 * |s|));
  }

  /** Pack12::packFinal stores the zero-padded stream of its leftover samples. */
  lemma PackFinalAsStream12(s: seq<bv32>)
    requires 1 <= |s| < SrcChk(Pack12) && Fits(s, 12)
    ensures PackFinalBytes(Pack12, s) == Stream(s, 12, CeilBytes(12 * |s|))
  {
    PackFinalStream(Pack12, s);
    BytesAgree12(s);
    AsStream(PackFinalBytes(Pack12, s), s, 12, 12, CeilBytes(12 * |s|));
  }

  /** Pack13::packFinal stores the zero-padded stream of its leftover samples. */
  lemma PackFinalAsStream13(s: seq<bv32>)
    requires 1 <= |s| < SrcChk(Pack13) && Fits(s, 13)
    ensures PackFinalBytes(Pack13, s) == Stream(s, 13, CeilBytes(13 * |s|))
  {
    PackFinalStream(Pack13, s);
    BytesAgree13(s);
    AsStream(PackFinalBytes(Pack13, s), s, 13, 13, CeilBytes(13 * |s|));
  }

  /** Pack14::packFinal stores the zero-padded stream of its leftover samples. */
  lemma PackFinalAsStream14(s: seq<bv32>)
    requires 1 <= |s| < SrcChk(Pack14) && Fits(s, 14)
    ensures PackFinalBytes(Pack14, s) == Stream(s, 14, CeilBytes(14 * |s|))
  {
    PackFinalStream(Pack14, s);
    BytesAgree14(s);
    AsStream(PackFinalBytes(Pack14, s), s, 14, 14, CeilBytes(14 * |s|));
  }

  /** Pack15::packFinal stores the zero-padded stream of its leftover samples. */
  lemma PackFinalAsStream15(s: seq<bv32>)
    requires 1 <= |s| < SrcChk(Pack15) && Fits(s, 15)
    ensures PackFinalBytes(Pack15, s) == Stream(s, 15, CeilBytes(15 * |s|))
  {
    PackFinalStream(Pack15, s);
    BytesAgree15(s);
    AsStream(PackFinalBytes(Pack15, s), s, 15, 15, CeilBytes(15 * |s|));
  }


}
