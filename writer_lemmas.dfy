/*
 * Proof that the packFinal bit writer (src/bin/common/convert.h:30-62 and the
 * packFinal loops of the odd-width packers) emits exactly the MSB-first bit
 * stream of the samples it is given, zero-padded to a whole byte. For every
 * odd width nb and every count w of samples a packFinal can see (1 .. 7),
 * StepN_j follows one PUTBITS call, PrefixN_j the writer after j samples,
 * FinalN_w the flushed output, and WriterNStream collects the cases.
 */
module WriterProofs {

  import opened Bits
  import opened BitWriter

  lemma Step3_0(s: seq<bv32>, wr: Writer)
    requires |s| > 0 && Fits(s, 3)
    requires wr.remaining == 8 && wr.trailing == (StreamByte(s, 3, 0) as bv32) >> 8
    ensures Put(wr, s[0], 3) == Writer((StreamByte(s, 3, 0) as bv32) >> 5, 5, wr.out)
  {}

  lemma Step3_1(s: seq<bv32>, wr: Writer)
    requires |s| > 1 && Fits(s, 3)
    requires wr.remaining == 5 && wr.trailing == (StreamByte(s, 3, 0) as bv32) >> 5
    ensures Put(wr, s[1], 3) == Writer((StreamByte(s, 3, 0) as bv32) >> 2, 2, wr.out)
  {}

  lemma Step3_2(s: seq<bv32>, wr: Writer)
    requires |s| > 2 && Fits(s, 3)
    requires wr.remaining == 2 && wr.trailing == (StreamByte(s, 3, 0) as bv32) >> 2
    ensures Put(wr, s[2], 3) == Writer((StreamByte(s, 3, 1) as bv32) >> 7, 7, wr.out + [StreamByte(s, 3, 0)])
  {}

  lemma Step3_3(s: seq<bv32>, wr: Writer)
    requires |s| > 3 && Fits(s, 3)
    requires wr.remaining == 7 && wr.trailing == (StreamByte(s, 3, 1) as bv32) >> 7
    ensures Put(wr, s[3], 3) == Writer((StreamByte(s, 3, 1) as bv32) >> 4, 4, wr.out)
  {}

  lemma Step3_4(s: seq<bv32>, wr: Writer)
    requires |s| > 4 && Fits(s, 3)
    requires wr.remaining == 4 && wr.trailing == (StreamByte(s, 3, 1) as bv32) >> 4
    ensures Put(wr, s[4], 3) == Writer((StreamByte(s, 3, 1) as bv32) >> 1, 1, wr.out)
  {}

  lemma Step3_5(s: seq<bv32>, wr: Writer)
    requires |s| > 5 && Fits(s, 3)
    requires wr.remaining == 1 && wr.trailing == (StreamByte(s, 3, 1) as bv32) >> 1
    ensures Put(wr, s[5], 3) == Writer((StreamByte(s, 3, 2) as bv32) >> 6, 6, wr.out + [StreamByte(s, 3, 1)])
  {}

  lemma Step3_6(s: seq<bv32>, wr: Writer)
    requires |s| > 6 && Fits(s, 3)
    requires wr.remaining == 6 && wr.trailing == (StreamByte(s, 3, 2) as bv32) >> 6
    ensures Put(wr, s[6], 3) == Writer((StreamByte(s, 3, 2) as bv32) >> 3, 3, wr.out)
  {}

  lemma Prefix3_0(s: seq<bv32>)
    requires |s| >= 0 && Fits(s, 3)
    ensures RunPut(s, 3, 0).remaining == 8 && RunPut(s, 3, 0).trailing == (StreamByte(s, 3, 0) as bv32) >> 8
    ensures RunPut(s, 3, 0).out == StreamBytes(s, 3, 0)
  {}

  lemma Prefix3_1(s: seq<bv32>)
    requires |s| >= 1 && Fits(s, 3)
    ensures RunPut(s, 3, 1).remaining == 5 && RunPut(s, 3, 1).trailing == (StreamByte(s, 3, 0) as bv32) >> 5
    ensures RunPut(s, 3, 1).out == StreamBytes(s, 3, 0)
  {
    Prefix3_0(s);
    Step3_0(s, RunPut(s, 3, 0));
  }

  lemma Prefix3_2(s: seq<bv32>)
    requires |s| >= 2 && Fits(s, 3)
    ensures RunPut(s, 3, 2).remaining == 2 && RunPut(s, 3, 2).trailing == (StreamByte(s, 3, 0) as bv32) >> 2
    ensures RunPut(s, 3, 2).out == StreamBytes(s, 3, 0)
  {
    Prefix3_1(s);
    Step3_1(s, RunPut(s, 3, 1));
  }

  lemma Prefix3_3(s: seq<bv32>)
    requires |s| >= 3 && Fits(s, 3)
    ensures RunPut(s, 3, 3).remaining == 7 && RunPut(s, 3, 3).trailing == (StreamByte(s, 3, 1) as bv32) >> 7
    ensures RunPut(s, 3, 3).out == StreamBytes(s, 3, 1)
  {
    Prefix3_2(s);
    Step3_2(s, RunPut(s, 3, 2));
  }

  lemma Prefix3_4(s: seq<bv32>)
    requires |s| >= 4 && Fits(s, 3)
    ensures RunPut(s, 3, 4).remaining == 4 && RunPut(s, 3, 4).trailing == (StreamByte(s, 3, 1) as bv32) >> 4
    ensures RunPut(s, 3, 4).out == StreamBytes(s, 3, 1)
  {
    Prefix3_3(s);
    Step3_3(s, RunPut(s, 3, 3));
  }

  lemma Prefix3_5(s: seq<bv32>)
    requires |s| >= 5 && Fits(s, 3)
    ensures RunPut(s, 3, 5).remaining == 1 && RunPut(s, 3, 5).trailing == (StreamByte(s, 3, 1) as bv32) >> 1
    ensures RunPut(s, 3, 5).out == StreamBytes(s, 3, 1)
  {
    Prefix3_4(s);
    Step3_4(s, RunPut(s, 3, 4));
  }

  lemma Prefix3_6(s: seq<bv32>)
    requires |s| >= 6 && Fits(s, 3)
    ensures RunPut(s, 3, 6).remaining == 6 && RunPut(s, 3, 6).trailing == (StreamByte(s, 3, 2) as bv32) >> 6
    ensures RunPut(s, 3, 6).out == StreamBytes(s, 3, 2)
  {
    Prefix3_5(s);
    Step3_5(s, RunPut(s, 3, 5));
  }

  lemma Prefix3_7(s: seq<bv32>)
    requires |s| >= 7 && Fits(s, 3)
    ensures RunPut(s, 3, 7).remaining == 3 && RunPut(s, 3, 7).trailing == (StreamByte(s, 3, 2) as bv32) >> 3
    ensures RunPut(s, 3, 7).out == StreamBytes(s, 3, 2)
  {
    Prefix3_6(s);
    Step3_6(s, RunPut(s, 3, 6));
  }

  lemma Flush3_1(s: seq<bv32>, wr: Writer)
    requires |s| == 1 && Fits(s, 3)
    requires wr.remaining == 5 && wr.trailing == (StreamByte(s, 3, 0) as bv32) >> 5
    ensures Flush(wr) == wr.out + [StreamByte(s, 3, 0)]
  {}

  lemma Final3_1(s: seq<bv32>)
    requires |s| == 1 && Fits(s, 3)
    ensures Flush(RunPut(s, 3, |s|)) == StreamBytes(s, 3, CeilBytes(3 * |s|))
  {
    Prefix3_1(s);
    Flush3_1(s, RunPut(s, 3, 1));
    assert CeilBytes(3 * |s|) == 1;
  }

  lemma Flush3_2(s: seq<bv32>, wr: Writer)
    requires |s| == 2 && Fits(s, 3)
    requires wr.remaining == 2 && wr.trailing == (StreamByte(s, 3, 0) as bv32) >> 2
    ensures Flush(wr) == wr.out + [StreamByte(s, 3, 0)]
  {}

  lemma Final3_2(s: seq<bv32>)
    requires |s| == 2 && Fits(s, 3)
    ensures Flush(RunPut(s, 3, |s|)) == StreamBytes(s, 3, CeilBytes(3 * |s|))
  {
    Prefix3_2(s);
    Flush3_2(s, RunPut(s, 3, 2));
    assert CeilBytes(3 * |s|) == 1;
  }

  lemma Flush3_3(s: seq<bv32>, wr: Writer)
    requires |s| == 3 && Fits(s, 3)
    requires wr.remaining == 7 && wr.trailing == (StreamByte(s, 3, 1) as bv32) >> 7
    ensures Flush(wr) == wr.out + [StreamByte(s, 3, 1)]
  {}

  lemma Final3_3(s: seq<bv32>)
    requires |s| == 3 && Fits(s, 3)
    ensures Flush(RunPut(s, 3, |s|)) == StreamBytes(s, 3, CeilBytes(3 * |s|))
  {
    Prefix3_3(s);
    Flush3_3(s, RunPut(s, 3, 3));
    assert CeilBytes(3 * |s|) == 2;
  }

  lemma Flush3_4(s: seq<bv32>, wr: Writer)
    requires |s| == 4 && Fits(s, 3)
    requires wr.remaining == 4 && wr.trailing == (StreamByte(s, 3, 1) as bv32) >> 4
    ensures Flush(wr) == wr.out + [StreamByte(s, 3, 1)]
  {}

  lemma Final3_4(s: seq<bv32>)
    requires |s| == 4 && Fits(s, 3)
    ensures Flush(RunPut(s, 3, |s|)) == StreamBytes(s, 3, CeilBytes(3 * |s|))
  {
    Prefix3_4(s);
    Flush3_4(s, RunPut(s, 3, 4));
    assert CeilBytes(3 * |s|) == 2;
  }

  lemma Flush3_5(s: seq<bv32>, wr: Writer)
    requires |s| == 5 && Fits(s, 3)
    requires wr.remaining == 1 && wr.trailing == (StreamByte(s, 3, 1) as bv32) >> 1
    ensures Flush(wr) == wr.out + [StreamByte(s, 3, 1)]
  {}

  lemma Final3_5(s: seq<bv32>)
    requires |s| == 5 && Fits(s, 3)
    ensures Flush(RunPut(s, 3, |s|)) == StreamBytes(s, 3, CeilBytes(3 * |s|))
  {
    Prefix3_5(s);
    Flush3_5(s, RunPut(s, 3, 5));
    assert CeilBytes(3 * |s|) == 2;
  }

  lemma Flush3_6(s: seq<bv32>, wr: Writer)
    requires |s| == 6 && Fits(s, 3)
    requires wr.remaining == 6 && wr.trailing == (StreamByte(s, 3, 2) as bv32) >> 6
    ensures Flush(wr) == wr.out + [StreamByte(s, 3, 2)]
  {}

  lemma Final3_6(s: seq<bv32>)
    requires |s| == 6 && Fits(s, 3)
    ensures Flush(RunPut(s, 3, |s|)) == StreamBytes(s, 3, CeilBytes(3 * |s|))
  {
    Prefix3_6(s);
    Flush3_6(s, RunPut(s, 3, 6));
    assert CeilBytes(3 * |s|) == 3;
  }

  lemma Flush3_7(s: seq<bv32>, wr: Writer)
    requires |s| == 7 && Fits(s, 3)
    requires wr.remaining == 3 && wr.trailing == (StreamByte(s, 3, 2) as bv32) >> 3
    ensures Flush(wr) == wr.out + [StreamByte(s, 3, 2)]
  {}

  lemma Final3_7(s: seq<bv32>)
    requires |s| == 7 && Fits(s, 3)
    ensures Flush(RunPut(s, 3, |s|)) == StreamBytes(s, 3, CeilBytes(3 * |s|))
  {
    Prefix3_7(s);
    Flush3_7(s, RunPut(s, 3, 7));
    assert CeilBytes(3 * |s|) == 3;
  }

  lemma Writer3Stream(s: seq<bv32>)
    requires 1 <= |s| < 8 && Fits(s, 3)
    ensures Flush(RunPut(s, 3, |s|)) == StreamBytes(s, 3, CeilBytes(3 * |s|))
  {
    if |s| == 1 { Final3_1(s); } else if |s| == 2 { Final3_2(s); } else if |s| == 3 { Final3_3(s); } else if |s| == 4 { Final3_4(s); } else if |s| == 5 { Final3_5(s); } else if |s| == 6 { Final3_6(s); } else { Final3_7(s); }
  }

  lemma LenStep3_0(wr: Writer, x: bv32)
    requires wr.remaining == 8
    ensures Put(wr, x, 3).remaining == 5 && |Put(wr, x, 3).out| == |wr.out| + 0
  {}

  lemma LenStep3_1(wr: Writer, x: bv32)
    requires wr.remaining == 5
    ensures Put(wr, x, 3).remaining == 2 && |Put(wr, x, 3).out| == |wr.out| + 0
  {}

  lemma LenStep3_2(wr: Writer, x: bv32)
    requires wr.remaining == 2
    ensures Put(wr, x, 3).remaining == 7 && |Put(wr, x, 3).out| == |wr.out| + 1
  {}

  lemma LenStep3_3(wr: Writer, x: bv32)
    requires wr.remaining == 7
    ensures Put(wr, x, 3).remaining == 4 && |Put(wr, x, 3).out| == |wr.out| + 0
  {}

  lemma LenStep3_4(wr: Writer, x: bv32)
    requires wr.remaining == 4
    ensures Put(wr, x, 3).remaining == 1 && |Put(wr, x, 3).out| == |wr.out| + 0
  {}

  lemma LenStep3_5(wr: Writer, x: bv32)
    requires wr.remaining == 1
    ensures Put(wr, x, 3).remaining == 6 && |Put(wr, x, 3).out| == |wr.out| + 1
  {}

  lemma LenStep3_6(wr: Writer, x: bv32)
    requires wr.remaining == 6
    ensures Put(wr, x, 3).remaining == 3 && |Put(wr, x, 3).out| == |wr.out| + 0
  {}

  lemma LenPrefix3_0(s: seq<bv32>)
    requires |s| >= 0
    ensures RunPut(s, 3, 0).remaining == 8 && |RunPut(s, 3, 0).out| == 0
  {}

  lemma LenPrefix3_1(s: seq<bv32>)
    requires |s| >= 1
    ensures RunPut(s, 3, 1).remaining == 5 && |RunPut(s, 3, 1).out| == 0
  {
    LenPrefix3_0(s);
    LenStep3_0(RunPut(s, 3, 0), s[0]);
  }

  lemma LenPrefix3_2(s: seq<bv32>)
    requires |s| >= 2
    ensures RunPut(s, 3, 2).remaining == 2 && |RunPut(s, 3, 2).out| == 0
  {
    LenPrefix3_1(s);
    LenStep3_1(RunPut(s, 3, 1), s[1]);
  }

  lemma LenPrefix3_3(s: seq<bv32>)
    requires |s| >= 3
    ensures RunPut(s, 3, 3).remaining == 7 && |RunPut(s, 3, 3).out| == 1
  {
    LenPrefix3_2(s);
    LenStep3_2(RunPut(s, 3, 2), s[2]);
  }

  lemma LenPrefix3_4(s: seq<bv32>)
    requires |s| >= 4
    ensures RunPut(s, 3, 4).remaining == 4 && |RunPut(s, 3, 4).out| == 1
  {
    LenPrefix3_3(s);
    LenStep3_3(RunPut(s, 3, 3), s[3]);
  }

  lemma LenPrefix3_5(s: seq<bv32>)
    requires |s| >= 5
    ensures RunPut(s, 3, 5).remaining == 1 && |RunPut(s, 3, 5).out| == 1
  {
    LenPrefix3_4(s);
    LenStep3_4(RunPut(s, 3, 4), s[4]);
  }

  lemma LenPrefix3_6(s: seq<bv32>)
    requires |s| >= 6
    ensures RunPut(s, 3, 6).remaining == 6 && |RunPut(s, 3, 6).out| == 2
  {
    LenPrefix3_5(s);
    LenStep3_5(RunPut(s, 3, 5), s[5]);
  }

  lemma LenPrefix3_7(s: seq<bv32>)
    requires |s| >= 7
    ensures RunPut(s, 3, 7).remaining == 3 && |RunPut(s, 3, 7).out| == 2
  {
    LenPrefix3_6(s);
    LenStep3_6(RunPut(s, 3, 6), s[6]);
  }

  lemma LenFinal3_1(s: seq<bv32>)
    requires |s| == 1
    ensures |Flush(RunPut(s, 3, |s|))| == CeilBytes(3 * |s|)
  {
    LenPrefix3_1(s);
    assert CeilBytes(3 * |s|) == 1;
  }

  lemma LenFinal3_2(s: seq<bv32>)
    requires |s| == 2
    ensures |Flush(RunPut(s, 3, |s|))| == CeilBytes(3 * |s|)
  {
    LenPrefix3_2(s);
    assert CeilBytes(3 * |s|) == 1;
  }

  lemma LenFinal3_3(s: seq<bv32>)
    requires |s| == 3
    ensures |Flush(RunPut(s, 3, |s|))| == CeilBytes(3 * |s|)
  {
    LenPrefix3_3(s);
    assert CeilBytes(3 * |s|) == 2;
  }

  lemma LenFinal3_4(s: seq<bv32>)
    requires |s| == 4
    ensures |Flush(RunPut(s, 3, |s|))| == CeilBytes(3 * |s|)
  {
    LenPrefix3_4(s);
    assert CeilBytes(3 * |s|) == 2;
  }

  lemma LenFinal3_5(s: seq<bv32>)
    requires |s| == 5
    ensures |Flush(RunPut(s, 3, |s|))| == CeilBytes(3 * |s|)
  {
    LenPrefix3_5(s);
    assert CeilBytes(3 * |s|) == 2;
  }

  lemma LenFinal3_6(s: seq<bv32>)
    requires |s| == 6
    ensures |Flush(RunPut(s, 3, |s|))| == CeilBytes(3 * |s|)
  {
    LenPrefix3_6(s);
    assert CeilBytes(3 * |s|) == 3;
  }

  lemma LenFinal3_7(s: seq<bv32>)
    requires |s| == 7
    ensures |Flush(RunPut(s, 3, |s|))| == CeilBytes(3 * |s|)
  {
    LenPrefix3_7(s);
    assert CeilBytes(3 * |s|) == 3;
  }

  /** Whatever the sample values, the packFinal writer emits CeilBytes(nb * w) bytes. */
  lemma Writer3Length(s: seq<bv32>)
    requires 1 <= |s| < 8
    ensures |Flush(RunPut(s, 3, |s|))| == CeilBytes(3 * |s|)
  {
    if |s| == 1 { LenFinal3_1(s); } else if |s| == 2 { LenFinal3_2(s); } else if |s| == 3 { LenFinal3_3(s); } else if |s| == 4 { LenFinal3_4(s); } else if |s| == 5 { LenFinal3_5(s); } else if |s| == 6 { LenFinal3_6(s); } else { LenFinal3_7(s); }
  }

  lemma Step5_0(s: seq<bv32>, wr: Writer)
    requires |s| > 0 && Fits(s, 5)
    requires wr.remaining == 8 && wr.trailing == (StreamByte(s, 5, 0) as bv32) >> 8
    ensures Put(wr, s[0], 5) == Writer((StreamByte(s, 5, 0) as bv32) >> 3, 3, wr.out)
  {}

  lemma Step5_1(s: seq<bv32>, wr: Writer)
    requires |s| > 1 && Fits(s, 5)
    requires wr.remaining == 3 && wr.trailing == (StreamByte(s, 5, 0) as bv32) >> 3
    ensures Put(wr, s[1], 5) == Writer((StreamByte(s, 5, 1) as bv32) >> 6, 6, wr.out + [StreamByte(s, 5, 0)])
  {}

  lemma Step5_2(s: seq<bv32>, wr: Writer)
    requires |s| > 2 && Fits(s, 5)
    requires wr.remaining == 6 && wr.trailing == (StreamByte(s, 5, 1) as bv32) >> 6
    ensures Put(wr, s[2], 5) == Writer((StreamByte(s, 5, 1) as bv32) >> 1, 1, wr.out)
  {}

  lemma Step5_3(s: seq<bv32>, wr: Writer)
    requires |s| > 3 && Fits(s, 5)
    requires wr.remaining == 1 && wr.trailing == (StreamByte(s, 5, 1) as bv32) >> 1
    ensures Put(wr, s[3], 5) == Writer((StreamByte(s, 5, 2) as bv32) >> 4, 4, wr.out + [StreamByte(s, 5, 1)])
  {}

  lemma Step5_4(s: seq<bv32>, wr: Writer)
    requires |s| > 4 && Fits(s, 5)
    requires wr.remaining == 4 && wr.trailing == (StreamByte(s, 5, 2) as bv32) >> 4
    ensures Put(wr, s[4], 5) == Writer((StreamByte(s, 5, 3) as bv32) >> 7, 7, wr.out + [StreamByte(s, 5, 2)])
  {}

  lemma Step5_5(s: seq<bv32>, wr: Writer)
    requires |s| > 5 && Fits(s, 5)
    requires wr.remaining == 7 && wr.trailing == (StreamByte(s, 5, 3) as bv32) >> 7
    ensures Put(wr, s[5], 5) == Writer((StreamByte(s, 5, 3) as bv32) >> 2, 2, wr.out)
  {}

  lemma Step5_6(s: seq<bv32>, wr: Writer)
    requires |s| > 6 && Fits(s, 5)
    requires wr.remaining == 2 && wr.trailing == (StreamByte(s, 5, 3) as bv32) >> 2
    ensures Put(wr, s[6], 5) == Writer((StreamByte(s, 5, 4) as bv32) >> 5, 5, wr.out + [StreamByte(s, 5, 3)])
  {}

  lemma Prefix5_0(s: seq<bv32>)
    requires |s| >= 0 && Fits(s, 5)
    ensures RunPut(s, 5, 0).remaining == 8 && RunPut(s, 5, 0).trailing == (StreamByte(s, 5, 0) as bv32) >> 8
    ensures RunPut(s, 5, 0).out == StreamBytes(s, 5, 0)
  {}

  lemma Prefix5_1(s: seq<bv32>)
    requires |s| >= 1 && Fits(s, 5)
    ensures RunPut(s, 5, 1).remaining == 3 && RunPut(s, 5, 1).trailing == (StreamByte(s, 5, 0) as bv32) >> 3
    ensures RunPut(s, 5, 1).out == StreamBytes(s, 5, 0)
  {
    Prefix5_0(s);
    Step5_0(s, RunPut(s, 5, 0));
  }

  lemma Prefix5_2(s: seq<bv32>)
    requires |s| >= 2 && Fits(s, 5)
    ensures RunPut(s, 5, 2).remaining == 6 && RunPut(s, 5, 2).trailing == (StreamByte(s, 5, 1) as bv32) >> 6
    ensures RunPut(s, 5, 2).out == StreamBytes(s, 5, 1)
  {
    Prefix5_1(s);
    Step5_1(s, RunPut(s, 5, 1));
  }

  lemma Prefix5_3(s: seq<bv32>)
    requires |s| >= 3 && Fits(s, 5)
    ensures RunPut(s, 5, 3).remaining == 1 && RunPut(s, 5, 3).trailing == (StreamByte(s, 5, 1) as bv32) >> 1
    ensures RunPut(s, 5, 3).out == StreamBytes(s, 5, 1)
  {
    Prefix5_2(s);
    Step5_2(s, RunPut(s, 5, 2));
  }

  lemma Prefix5_4(s: seq<bv32>)
    requires |s| >= 4 && Fits(s, 5)
    ensures RunPut(s, 5, 4).remaining == 4 && RunPut(s, 5, 4).trailing == (StreamByte(s, 5, 2) as bv32) >> 4
    ensures RunPut(s, 5, 4).out == StreamBytes(s, 5, 2)
  {
    Prefix5_3(s);
    Step5_3(s, RunPut(s, 5, 3));
  }

  lemma Prefix5_5(s: seq<bv32>)
    requires |s| >= 5 && Fits(s, 5)
    ensures RunPut(s, 5, 5).remaining == 7 && RunPut(s, 5, 5).trailing == (StreamByte(s, 5, 3) as bv32) >> 7
    ensures RunPut(s, 5, 5).out == StreamBytes(s, 5, 3)
  {
    Prefix5_4(s);
    Step5_4(s, RunPut(s, 5, 4));
  }

  lemma Prefix5_6(s: seq<bv32>)
    requires |s| >= 6 && Fits(s, 5)
    ensures RunPut(s, 5, 6).remaining == 2 && RunPut(s, 5, 6).trailing == (StreamByte(s, 5, 3) as bv32) >> 2
    ensures RunPut(s, 5, 6).out == StreamBytes(s, 5, 3)
  {
    Prefix5_5(s);
    Step5_5(s, RunPut(s, 5, 5));
  }

  lemma Prefix5_7(s: seq<bv32>)
    requires |s| >= 7 && Fits(s, 5)
    ensures RunPut(s, 5, 7).remaining == 5 && RunPut(s, 5, 7).trailing == (StreamByte(s, 5, 4) as bv32) >> 5
    ensures RunPut(s, 5, 7).out == StreamBytes(s, 5, 4)
  {
    Prefix5_6(s);
    Step5_6(s, RunPut(s, 5, 6));
  }

  lemma Flush5_1(s: seq<bv32>, wr: Writer)
    requires |s| == 1 && Fits(s, 5)
    requires wr.remaining == 3 && wr.trailing == (StreamByte(s, 5, 0) as bv32) >> 3
    ensures Flush(wr) == wr.out + [StreamByte(s, 5, 0)]
  {}

  lemma Final5_1(s: seq<bv32>)
    requires |s| == 1 && Fits(s, 5)
    ensures Flush(RunPut(s, 5, |s|)) == StreamBytes(s, 5, CeilBytes(5 * |s|))
  {
    Prefix5_1(s);
    Flush5_1(s, RunPut(s, 5, 1));
    assert CeilBytes(5 * |s|) == 1;
  }

  lemma Flush5_2(s: seq<bv32>, wr: Writer)
    requires |s| == 2 && Fits(s, 5)
    requires wr.remaining == 6 && wr.trailing == (StreamByte(s, 5, 1) as bv32) >> 6
    ensures Flush(wr) == wr.out + [StreamByte(s, 5, 1)]
  {}

  lemma Final5_2(s: seq<bv32>)
    requires |s| == 2 && Fits(s, 5)
    ensures Flush(RunPut(s, 5, |s|)) == StreamBytes(s, 5, CeilBytes(5 * |s|))
  {
    Prefix5_2(s);
    Flush5_2(s, RunPut(s, 5, 2));
    assert CeilBytes(5 * |s|) == 2;
  }

  lemma Flush5_3(s: seq<bv32>, wr: Writer)
    requires |s| == 3 && Fits(s, 5)
    requires wr.remaining == 1 && wr.trailing == (StreamByte(s, 5, 1) as bv32) >> 1
    ensures Flush(wr) == wr.out + [StreamByte(s, 5, 1)]
  {}

  lemma Final5_3(s: seq<bv32>)
    requires |s| == 3 && Fits(s, 5)
    ensures Flush(RunPut(s, 5, |s|)) == StreamBytes(s, 5, CeilBytes(5 * |s|))
  {
    Prefix5_3(s);
    Flush5_3(s, RunPut(s, 5, 3));
    assert CeilBytes(5 * |s|) == 2;
  }

  lemma Flush5_4(s: seq<bv32>, wr: Writer)
    requires |s| == 4 && Fits(s, 5)
    requires wr.remaining == 4 && wr.trailing == (StreamByte(s, 5, 2) as bv32) >> 4
    ensures Flush(wr) == wr.out + [StreamByte(s, 5, 2)]
  {}

  lemma Final5_4(s: seq<bv32>)
    requires |s| == 4 && Fits(s, 5)
    ensures Flush(RunPut(s, 5, |s|)) == StreamBytes(s, 5, CeilBytes(5 * |s|))
  {
    Prefix5_4(s);
    Flush5_4(s, RunPut(s, 5, 4));
    assert CeilBytes(5 * |s|) == 3;
  }

  lemma Flush5_5(s: seq<bv32>, wr: Writer)
    requires |s| == 5 && Fits(s, 5)
    requires wr.remaining == 7 && wr.trailing == (StreamByte(s, 5, 3) as bv32) >> 7
    ensures Flush(wr) == wr.out + [StreamByte(s, 5, 3)]
  {}

  lemma Final5_5(s: seq<bv32>)
    requires |s| == 5 && Fits(s, 5)
    ensures Flush(RunPut(s, 5, |s|)) == StreamBytes(s, 5, CeilBytes(5 * |s|))
  {
    Prefix5_5(s);
    Flush5_5(s, RunPut(s, 5, 5));
    assert CeilBytes(5 * |s|) == 4;
  }

  lemma Flush5_6(s: seq<bv32>, wr: Writer)
    requires |s| == 6 && Fits(s, 5)
    requires wr.remaining == 2 && wr.trailing == (StreamByte(s, 5, 3) as bv32) >> 2
    ensures Flush(wr) == wr.out + [StreamByte(s, 5, 3)]
  {}

  lemma Final5_6(s: seq<bv32>)
    requires |s| == 6 && Fits(s, 5)
    ensures Flush(RunPut(s, 5, |s|)) == StreamBytes(s, 5, CeilBytes(5 * |s|))
  {
    Prefix5_6(s);
    Flush5_6(s, RunPut(s, 5, 6));
    assert CeilBytes(5 * |s|) == 4;
  }

  lemma Flush5_7(s: seq<bv32>, wr: Writer)
    requires |s| == 7 && Fits(s, 5)
    requires wr.remaining == 5 && wr.trailing == (StreamByte(s, 5, 4) as bv32) >> 5
    ensures Flush(wr) == wr.out + [StreamByte(s, 5, 4)]
  {}

  lemma Final5_7(s: seq<bv32>)
    requires |s| == 7 && Fits(s, 5)
    ensures Flush(RunPut(s, 5, |s|)) == StreamBytes(s, 5, CeilBytes(5 * |s|))
  {
    Prefix5_7(s);
    Flush5_7(s, RunPut(s, 5, 7));
    assert CeilBytes(5 * |s|) == 5;
  }

  lemma Writer5Stream(s: seq<bv32>)
    requires 1 <= |s| < 8 && Fits(s, 5)
    ensures Flush(RunPut(s, 5, |s|)) == StreamBytes(s, 5, CeilBytes(5 * |s|))
  {
    if |s| == 1 { Final5_1(s); } else if |s| == 2 { Final5_2(s); } else if |s| == 3 { Final5_3(s); } else if |s| == 4 { Final5_4(s); } else if |s| == 5 { Final5_5(s); } else if |s| == 6 { Final5_6(s); } else { Final5_7(s); }
  }

  lemma LenStep5_0(wr: Writer, x: bv32)
    requires wr.remaining == 8
    ensures Put(wr, x, 5).remaining == 3 && |Put(wr, x, 5).out| == |wr.out| + 0
  {}

  lemma LenStep5_1(wr: Writer, x: bv32)
    requires wr.remaining == 3
    ensures Put(wr, x, 5).remaining == 6 && |Put(wr, x, 5).out| == |wr.out| + 1
  {}

  lemma LenStep5_2(wr: Writer, x: bv32)
    requires wr.remaining == 6
    ensures Put(wr, x, 5).remaining == 1 && |Put(wr, x, 5).out| == |wr.out| + 0
  {}

  lemma LenStep5_3(wr: Writer, x: bv32)
    requires wr.remaining == 1
    ensures Put(wr, x, 5).remaining == 4 && |Put(wr, x, 5).out| == |wr.out| + 1
  {}

  lemma LenStep5_4(wr: Writer, x: bv32)
    requires wr.remaining == 4
    ensures Put(wr, x, 5).remaining == 7 && |Put(wr, x, 5).out| == |wr.out| + 1
  {}

  lemma LenStep5_5(wr: Writer, x: bv32)
    requires wr.remaining == 7
    ensures Put(wr, x, 5).remaining == 2 && |Put(wr, x, 5).out| == |wr.out| + 0
  {}

  lemma LenStep5_6(wr: Writer, x: bv32)
    requires wr.remaining == 2
    ensures Put(wr, x, 5).remaining == 5 && |Put(wr, x, 5).out| == |wr.out| + 1
  {}

  lemma LenPrefix5_0(s: seq<bv32>)
    requires |s| >= 0
    ensures RunPut(s, 5, 0).remaining == 8 && |RunPut(s, 5, 0).out| == 0
  {}

  lemma LenPrefix5_1(s: seq<bv32>)
    requires |s| >= 1
    ensures RunPut(s, 5, 1).remaining == 3 && |RunPut(s, 5, 1).out| == 0
  {
    LenPrefix5_0(s);
    LenStep5_0(RunPut(s, 5, 0), s[0]);
  }

  lemma LenPrefix5_2(s: seq<bv32>)
    requires |s| >= 2
    ensures RunPut(s, 5, 2).remaining == 6 && |RunPut(s, 5, 2).out| == 1
  {
    LenPrefix5_1(s);
    LenStep5_1(RunPut(s, 5, 1), s[1]);
  }

  lemma LenPrefix5_3(s: seq<bv32>)
    requires |s| >= 3
    ensures RunPut(s, 5, 3).remaining == 1 && |RunPut(s, 5, 3).out| == 1
  {
    LenPrefix5_2(s);
    LenStep5_2(RunPut(s, 5, 2), s[2]);
  }

  lemma LenPrefix5_4(s: seq<bv32>)
    requires |s| >= 4
    ensures RunPut(s, 5, 4).remaining == 4 && |RunPut(s, 5, 4).out| == 2
  {
    LenPrefix5_3(s);
    LenStep5_3(RunPut(s, 5, 3), s[3]);
  }

  lemma LenPrefix5_5(s: seq<bv32>)
    requires |s| >= 5
    ensures RunPut(s, 5, 5).remaining == 7 && |RunPut(s, 5, 5).out| == 3
  {
    LenPrefix5_4(s);
    LenStep5_4(RunPut(s, 5, 4), s[4]);
  }

  lemma LenPrefix5_6(s: seq<bv32>)
    requires |s| >= 6
    ensures RunPut(s, 5, 6).remaining == 2 && |RunPut(s, 5, 6).out| == 3
  {
    LenPrefix5_5(s);
    LenStep5_5(RunPut(s, 5, 5), s[5]);
  }

  lemma LenPrefix5_7(s: seq<bv32>)
    requires |s| >= 7
    ensures RunPut(s, 5, 7).remaining == 5 && |RunPut(s, 5, 7).out| == 4
  {
    LenPrefix5_6(s);
    LenStep5_6(RunPut(s, 5, 6), s[6]);
  }

  lemma LenFinal5_1(s: seq<bv32>)
    requires |s| == 1
    ensures |Flush(RunPut(s, 5, |s|))| == CeilBytes(5 * |s|)
  {
    LenPrefix5_1(s);
    assert CeilBytes(5 * |s|) == 1;
  }

  lemma LenFinal5_2(s: seq<bv32>)
    requires |s| == 2
    ensures |Flush(RunPut(s, 5, |s|))| == CeilBytes(5 * |s|)
  {
    LenPrefix5_2(s);
    assert CeilBytes(5 * |s|) == 2;
  }

  lemma LenFinal5_3(s: seq<bv32>)
    requires |s| == 3
    ensures |Flush(RunPut(s, 5, |s|))| == CeilBytes(5 * |s|)
  {
    LenPrefix5_3(s);
    assert CeilBytes(5 * |s|) == 2;
  }

  lemma LenFinal5_4(s: seq<bv32>)
    requires |s| == 4
    ensures |Flush(RunPut(s, 5, |s|))| == CeilBytes(5 * |s|)
  {
    LenPrefix5_4(s);
    assert CeilBytes(5 * |s|) == 3;
  }

  lemma LenFinal5_5(s: seq<bv32>)
    requires |s| == 5
    ensures |Flush(RunPut(s, 5, |s|))| == CeilBytes(5 * |s|)
  {
    LenPrefix5_5(s);
    assert CeilBytes(5 * |s|) == 4;
  }

  lemma LenFinal5_6(s: seq<bv32>)
    requires |s| == 6
    ensures |Flush(RunPut(s, 5, |s|))| == CeilBytes(5 * |s|)
  {
    LenPrefix5_6(s);
    assert CeilBytes(5 * |s|) == 4;
  }

  lemma LenFinal5_7(s: seq<bv32>)
    requires |s| == 7
    ensures |Flush(RunPut(s, 5, |s|))| == CeilBytes(5 * |s|)
  {
    LenPrefix5_7(s);
    assert CeilBytes(5 * |s|) == 5;
  }

  /** Whatever the sample values, the packFinal writer emits CeilBytes(nb * w) bytes. */
  lemma Writer5Length(s: seq<bv32>)
    requires 1 <= |s| < 8
    ensures |Flush(RunPut(s, 5, |s|))| == CeilBytes(5 * |s|)
  {
    if |s| == 1 { LenFinal5_1(s); } else if |s| == 2 { LenFinal5_2(s); } else if |s| == 3 { LenFinal5_3(s); } else if |s| == 4 { LenFinal5_4(s); } else if |s| == 5 { LenFinal5_5(s); } else if |s| == 6 { LenFinal5_6(s); } else { LenFinal5_7(s); }
  }

  lemma Step7_0(s: seq<bv32>, wr: Writer)
    requires |s| > 0 && Fits(s, 7)
    requires wr.remaining == 8 && wr.trailing == (StreamByte(s, 7, 0) as bv32) >> 8
    ensures Put(wr, s[0], 7) == Writer((StreamByte(s, 7, 0) as bv32) >> 1, 1, wr.out)
  {}

  lemma Step7_1(s: seq<bv32>, wr: Writer)
    requires |s| > 1 && Fits(s, 7)
    requires wr.remaining == 1 && wr.trailing == (StreamByte(s, 7, 0) as bv32) >> 1
    ensures Put(wr, s[1], 7) == Writer((StreamByte(s, 7, 1) as bv32) >> 2, 2, wr.out + [StreamByte(s, 7, 0)])
  {}

  lemma Step7_2(s: seq<bv32>, wr: Writer)
    requires |s| > 2 && Fits(s, 7)
    requires wr.remaining == 2 && wr.trailing == (StreamByte(s, 7, 1) as bv32) >> 2
    ensures Put(wr, s[2], 7) == Writer((StreamByte(s, 7, 2) as bv32) >> 3, 3, wr.out + [StreamByte(s, 7, 1)])
  {}

  lemma Step7_3(s: seq<bv32>, wr: Writer)
    requires |s| > 3 && Fits(s, 7)
    requires wr.remaining == 3 && wr.trailing == (StreamByte(s, 7, 2) as bv32) >> 3
    ensures Put(wr, s[3], 7) == Writer((StreamByte(s, 7, 3) as bv32) >> 4, 4, wr.out + [StreamByte(s, 7, 2)])
  {}

  lemma Step7_4(s: seq<bv32>, wr: Writer)
    requires |s| > 4 && Fits(s, 7)
    requires wr.remaining == 4 && wr.trailing == (StreamByte(s, 7, 3) as bv32) >> 4
    ensures Put(wr, s[4], 7) == Writer((StreamByte(s, 7, 4) as bv32) >> 5, 5, wr.out + [StreamByte(s, 7, 3)])
  {}

  lemma Step7_5(s: seq<bv32>, wr: Writer)
    requires |s| > 5 && Fits(s, 7)
    requires wr.remaining == 5 && wr.trailing == (StreamByte(s, 7, 4) as bv32) >> 5
    ensures Put(wr, s[5], 7) == Writer((StreamByte(s, 7, 5) as bv32) >> 6, 6, wr.out + [StreamByte(s, 7, 4)])
  {}

  lemma Step7_6(s: seq<bv32>, wr: Writer)
    requires |s| > 6 && Fits(s, 7)
    requires wr.remaining == 6 && wr.trailing == (StreamByte(s, 7, 5) as bv32) >> 6
    ensures Put(wr, s[6], 7) == Writer((StreamByte(s, 7, 6) as bv32) >> 7, 7, wr.out + [StreamByte(s, 7, 5)])
  {}

  lemma Prefix7_0(s: seq<bv32>)
    requires |s| >= 0 && Fits(s, 7)
    ensures RunPut(s, 7, 0).remaining == 8 && RunPut(s, 7, 0).trailing == (StreamByte(s, 7, 0) as bv32) >> 8
    ensures RunPut(s, 7, 0).out == StreamBytes(s, 7, 0)
  {}

  lemma Prefix7_1(s: seq<bv32>)
    requires |s| >= 1 && Fits(s, 7)
    ensures RunPut(s, 7, 1).remaining == 1 && RunPut(s, 7, 1).trailing == (StreamByte(s, 7, 0) as bv32) >> 1
    ensures RunPut(s, 7, 1).out == StreamBytes(s, 7, 0)
  {
    Prefix7_0(s);
    Step7_0(s, RunPut(s, 7, 0));
  }

  lemma Prefix7_2(s: seq<bv32>)
    requires |s| >= 2 && Fits(s, 7)
    ensures RunPut(s, 7, 2).remaining == 2 && RunPut(s, 7, 2).trailing == (StreamByte(s, 7, 1) as bv32) >> 2
    ensures RunPut(s, 7, 2).out == StreamBytes(s, 7, 1)
  {
    Prefix7_1(s);
    Step7_1(s, RunPut(s, 7, 1));
  }

  lemma Prefix7_3(s: seq<bv32>)
    requires |s| >= 3 && Fits(s, 7)
    ensures RunPut(s, 7, 3).remaining == 3 && RunPut(s, 7, 3).trailing == (StreamByte(s, 7, 2) as bv32) >> 3
    ensures RunPut(s, 7, 3).out == StreamBytes(s, 7, 2)
  {
    Prefix7_2(s);
    Step7_2(s, RunPut(s, 7, 2));
  }

  lemma Prefix7_4(s: seq<bv32>)
    requires |s| >= 4 && Fits(s, 7)
    ensures RunPut(s, 7, 4).remaining == 4 && RunPut(s, 7, 4).trailing == (StreamByte(s, 7, 3) as bv32) >> 4
    ensures RunPut(s, 7, 4).out == StreamBytes(s, 7, 3)
  {
    Prefix7_3(s);
    Step7_3(s, RunPut(s, 7, 3));
  }

  lemma Prefix7_5(s: seq<bv32>)
    requires |s| >= 5 && Fits(s, 7)
    ensures RunPut(s, 7, 5).remaining == 5 && RunPut(s, 7, 5).trailing == (StreamByte(s, 7, 4) as bv32) >> 5
    ensures RunPut(s, 7, 5).out == StreamBytes(s, 7, 4)
  {
    Prefix7_4(s);
    Step7_4(s, RunPut(s, 7, 4));
  }

  lemma Prefix7_6(s: seq<bv32>)
    requires |s| >= 6 && Fits(s, 7)
    ensures RunPut(s, 7, 6).remaining == 6 && RunPut(s, 7, 6).trailing == (StreamByte(s, 7, 5) as bv32) >> 6
    ensures RunPut(s, 7, 6).out == StreamBytes(s, 7, 5)
  {
    Prefix7_5(s);
    Step7_5(s, RunPut(s, 7, 5));
  }

  lemma Prefix7_7(s: seq<bv32>)
    requires |s| >= 7 && Fits(s, 7)
    ensures RunPut(s, 7, 7).remaining == 7 && RunPut(s, 7, 7).trailing == (StreamByte(s, 7, 6) as bv32) >> 7
    ensures RunPut(s, 7, 7).out == StreamBytes(s, 7, 6)
  {
    Prefix7_6(s);
    Step7_6(s, RunPut(s, 7, 6));
  }

  lemma Flush7_1(s: seq<bv32>, wr: Writer)
    requires |s| == 1 && Fits(s, 7)
    requires wr.remaining == 1 && wr.trailing == (StreamByte(s, 7, 0) as bv32) >> 1
    ensures Flush(wr) == wr.out + [StreamByte(s, 7, 0)]
  {}

  lemma Final7_1(s: seq<bv32>)
    requires |s| == 1 && Fits(s, 7)
    ensures Flush(RunPut(s, 7, |s|)) == StreamBytes(s, 7, CeilBytes(7 * |s|))
  {
    Prefix7_1(s);
    Flush7_1(s, RunPut(s, 7, 1));
    assert CeilBytes(7 * |s|) == 1;
  }

  lemma Flush7_2(s: seq<bv32>, wr: Writer)
    requires |s| == 2 && Fits(s, 7)
    requires wr.remaining == 2 && wr.trailing == (StreamByte(s, 7, 1) as bv32) >> 2
    ensures Flush(wr) == wr.out + [StreamByte(s, 7, 1)]
  {}

  lemma Final7_2(s: seq<bv32>)
    requires |s| == 2 && Fits(s, 7)
    ensures Flush(RunPut(s, 7, |s|)) == StreamBytes(s, 7, CeilBytes(7 * |s|))
  {
    Prefix7_2(s);
    Flush7_2(s, RunPut(s, 7, 2));
    assert CeilBytes(7 * |s|) == 2;
  }

  lemma Flush7_3(s: seq<bv32>, wr: Writer)
    requires |s| == 3 && Fits(s, 7)
    requires wr.remaining == 3 && wr.trailing == (StreamByte(s, 7, 2) as bv32) >> 3
    ensures Flush(wr) == wr.out + [StreamByte(s, 7, 2)]
  {}

  lemma Final7_3(s: seq<bv32>)
    requires |s| == 3 && Fits(s, 7)
    ensures Flush(RunPut(s, 7, |s|)) == StreamBytes(s, 7, CeilBytes(7 * |s|))
  {
    Prefix7_3(s);
    Flush7_3(s, RunPut(s, 7, 3));
    assert CeilBytes(7 * |s|) == 3;
  }

  lemma Flush7_4(s: seq<bv32>, wr: Writer)
    requires |s| == 4 && Fits(s, 7)
    requires wr.remaining == 4 && wr.trailing == (StreamByte(s, 7, 3) as bv32) >> 4
    ensures Flush(wr) == wr.out + [StreamByte(s, 7, 3)]
  {}

  lemma Final7_4(s: seq<bv32>)
    requires |s| == 4 && Fits(s, 7)
    ensures Flush(RunPut(s, 7, |s|)) == StreamBytes(s, 7, CeilBytes(7 * |s|))
  {
    Prefix7_4(s);
    Flush7_4(s, RunPut(s, 7, 4));
    assert CeilBytes(7 * |s|) == 4;
  }

  lemma Flush7_5(s: seq<bv32>, wr: Writer)
    requires |s| == 5 && Fits(s, 7)
    requires wr.remaining == 5 && wr.trailing == (StreamByte(s, 7, 4) as bv32) >> 5
    ensures Flush(wr) == wr.out + [StreamByte(s, 7, 4)]
  {}

  lemma Final7_5(s: seq<bv32>)
    requires |s| == 5 && Fits(s, 7)
    ensures Flush(RunPut(s, 7, |s|)) == StreamBytes(s, 7, CeilBytes(7 * |s|))
  {
    Prefix7_5(s);
    Flush7_5(s, RunPut(s, 7, 5));
    assert CeilBytes(7 * |s|) == 5;
  }

  lemma Flush7_6(s: seq<bv32>, wr: Writer)
    requires |s| == 6 && Fits(s, 7)
    requires wr.remaining == 6 && wr.trailing == (StreamByte(s, 7, 5) as bv32) >> 6
    ensures Flush(wr) == wr.out + [StreamByte(s, 7, 5)]
  {}

  lemma Final7_6(s: seq<bv32>)
    requires |s| == 6 && Fits(s, 7)
    ensures Flush(RunPut(s, 7, |s|)) == StreamBytes(s, 7, CeilBytes(7 * |s|))
  {
    Prefix7_6(s);
    Flush7_6(s, RunPut(s, 7, 6));
    assert CeilBytes(7 * |s|) == 6;
  }

  lemma Flush7_7(s: seq<bv32>, wr: Writer)
    requires |s| == 7 && Fits(s, 7)
    requires wr.remaining == 7 && wr.trailing == (StreamByte(s, 7, 6) as bv32) >> 7
    ensures Flush(wr) == wr.out + [StreamByte(s, 7, 6)]
  {}

  lemma Final7_7(s: seq<bv32>)
    requires |s| == 7 && Fits(s, 7)
    ensures Flush(RunPut(s, 7, |s|)) == StreamBytes(s, 7, CeilBytes(7 * |s|))
  {
    Prefix7_7(s);
    Flush7_7(s, RunPut(s, 7, 7));
    assert CeilBytes(7 * |s|) == 7;
  }

  lemma Writer7Stream(s: seq<bv32>)
    requires 1 <= |s| < 8 && Fits(s, 7)
    ensures Flush(RunPut(s, 7, |s|)) == StreamBytes(s, 7, CeilBytes(7 * |s|))
  {
    if |s| == 1 { Final7_1(s); } else if |s| == 2 { Final7_2(s); } else if |s| == 3 { Final7_3(s); } else if |s| == 4 { Final7_4(s); } else if |s| == 5 { Final7_5(s); } else if |s| == 6 { Final7_6(s); } else { Final7_7(s); }
  }

  lemma LenStep7_0(wr: Writer, x: bv32)
    requires wr.remaining == 8
    ensures Put(wr, x, 7).remaining == 1 && |Put(wr, x, 7).out| == |wr.out| + 0
  {}

  lemma LenStep7_1(wr: Writer, x: bv32)
    requires wr.remaining == 1
    ensures Put(wr, x, 7).remaining == 2 && |Put(wr, x, 7).out| == |wr.out| + 1
  {}

  lemma LenStep7_2(wr: Writer, x: bv32)
    requires wr.remaining == 2
    ensures Put(wr, x, 7).remaining == 3 && |Put(wr, x, 7).out| == |wr.out| + 1
  {}

  lemma LenStep7_3(wr: Writer, x: bv32)
    requires wr.remaining == 3
    ensures Put(wr, x, 7).remaining == 4 && |Put(wr, x, 7).out| == |wr.out| + 1
  {}

  lemma LenStep7_4(wr: Writer, x: bv32)
    requires wr.remaining == 4
    ensures Put(wr, x, 7).remaining == 5 && |Put(wr, x, 7).out| == |wr.out| + 1
  {}

  lemma LenStep7_5(wr: Writer, x: bv32)
    requires wr.remaining == 5
    ensures Put(wr, x, 7).remaining == 6 && |Put(wr, x, 7).out| == |wr.out| + 1
  {}

  lemma LenStep7_6(wr: Writer, x: bv32)
    requires wr.remaining == 6
    ensures Put(wr, x, 7).remaining == 7 && |Put(wr, x, 7).out| == |wr.out| + 1
  {}

  lemma LenPrefix7_0(s: seq<bv32>)
    requires |s| >= 0
    ensures RunPut(s, 7, 0).remaining == 8 && |RunPut(s, 7, 0).out| == 0
  {}

  lemma LenPrefix7_1(s: seq<bv32>)
    requires |s| >= 1
    ensures RunPut(s, 7, 1).remaining == 1 && |RunPut(s, 7, 1).out| == 0
  {
    LenPrefix7_0(s);
    LenStep7_0(RunPut(s, 7, 0), s[0]);
  }

  lemma LenPrefix7_2(s: seq<bv32>)
    requires |s| >= 2
    ensures RunPut(s, 7, 2).remaining == 2 && |RunPut(s, 7, 2).out| == 1
  {
    LenPrefix7_1(s);
    LenStep7_1(RunPut(s, 7, 1), s[1]);
  }

  lemma LenPrefix7_3(s: seq<bv32>)
    requires |s| >= 3
    ensures RunPut(s, 7, 3).remaining == 3 && |RunPut(s, 7, 3).out| == 2
  {
    LenPrefix7_2(s);
    LenStep7_2(RunPut(s, 7, 2), s[2]);
  }

  lemma LenPrefix7_4(s: seq<bv32>)
    requires |s| >= 4
    ensures RunPut(s, 7, 4).remaining == 4 && |RunPut(s, 7, 4).out| == 3
  {
    LenPrefix7_3(s);
    LenStep7_3(RunPut(s, 7, 3), s[3]);
  }

  lemma LenPrefix7_5(s: seq<bv32>)
    requires |s| >= 5
    ensures RunPut(s, 7, 5).remaining == 5 && |RunPut(s, 7, 5).out| == 4
  {
    LenPrefix7_4(s);
    LenStep7_4(RunPut(s, 7, 4), s[4]);
  }

  lemma LenPrefix7_6(s: seq<bv32>)
    requires |s| >= 6
    ensures RunPut(s, 7, 6).remaining == 6 && |RunPut(s, 7, 6).out| == 5
  {
    LenPrefix7_5(s);
    LenStep7_5(RunPut(s, 7, 5), s[5]);
  }

  lemma LenPrefix7_7(s: seq<bv32>)
    requires |s| >= 7
    ensures RunPut(s, 7, 7).remaining == 7 && |RunPut(s, 7, 7).out| == 6
  {
    LenPrefix7_6(s);
    LenStep7_6(RunPut(s, 7, 6), s[6]);
  }

  lemma LenFinal7_1(s: seq<bv32>)
    requires |s| == 1
    ensures |Flush(RunPut(s, 7, |s|))| == CeilBytes(7 * |s|)
  {
    LenPrefix7_1(s);
    assert CeilBytes(7 * |s|) == 1;
  }

  lemma LenFinal7_2(s: seq<bv32>)
    requires |s| == 2
    ensures |Flush(RunPut(s, 7, |s|))| == CeilBytes(7 * |s|)
  {
    LenPrefix7_2(s);
    assert CeilBytes(7 * |s|) == 2;
  }

  lemma LenFinal7_3(s: seq<bv32>)
    requires |s| == 3
    ensures |Flush(RunPut(s, 7, |s|))| == CeilBytes(7 * |s|)
  {
    LenPrefix7_3(s);
    assert CeilBytes(7 * |s|) == 3;
  }

  lemma LenFinal7_4(s: seq<bv32>)
    requires |s| == 4
    ensures |Flush(RunPut(s, 7, |s|))| == CeilBytes(7 * |s|)
  {
    LenPrefix7_4(s);
    assert CeilBytes(7 * |s|) == 4;
  }

  lemma LenFinal7_5(s: seq<bv32>)
    requires |s| == 5
    ensures |Flush(RunPut(s, 7, |s|))| == CeilBytes(7 * |s|)
  {
    LenPrefix7_5(s);
    assert CeilBytes(7 * |s|) == 5;
  }

  lemma LenFinal7_6(s: seq<bv32>)
    requires |s| == 6
    ensures |Flush(RunPut(s, 7, |s|))| == CeilBytes(7 * |s|)
  {
    LenPrefix7_6(s);
    assert CeilBytes(7 * |s|) == 6;
  }

  lemma LenFinal7_7(s: seq<bv32>)
    requires |s| == 7
    ensures |Flush(RunPut(s, 7, |s|))| == CeilBytes(7 * |s|)
  {
    LenPrefix7_7(s);
    assert CeilBytes(7 * |s|) == 7;
  }

  /** Whatever the sample values, the packFinal writer emits CeilBytes(nb * w) bytes. */
  lemma Writer7Length(s: seq<bv32>)
    requires 1 <= |s| < 8
    ensures |Flush(RunPut(s, 7, |s|))| == CeilBytes(7 * |s|)
  {
    if |s| == 1 { LenFinal7_1(s); } else if |s| == 2 { LenFinal7_2(s); } else if |s| == 3 { LenFinal7_3(s); } else if |s| == 4 { LenFinal7_4(s); } else if |s| == 5 { LenFinal7_5(s); } else if |s| == 6 { LenFinal7_6(s); } else { LenFinal7_7(s); }
  }

  lemma Step9_0(s: seq<bv32>, wr: Writer)
    requires |s| > 0 && Fits(s, 9)
    requires wr.remaining == 8 && wr.trailing == (StreamByte(s, 9, 0) as bv32) >> 8
    ensures Put2(wr, s[0], 9) == Writer((StreamByte(s, 9, 1) as bv32) >> 7, 7, wr.out + [StreamByte(s, 9, 0)])
  {}

  lemma Step9_1(s: seq<bv32>, wr: Writer)
    requires |s| > 1 && Fits(s, 9)
    requires wr.remaining == 7 && wr.trailing == (StreamByte(s, 9, 1) as bv32) >> 7
    ensures Put2(wr, s[1], 9) == Writer((StreamByte(s, 9, 2) as bv32) >> 6, 6, wr.out + [StreamByte(s, 9, 1)])
  {}

  lemma Step9_2(s: seq<bv32>, wr: Writer)
    requires |s| > 2 && Fits(s, 9)
    requires wr.remaining == 6 && wr.trailing == (StreamByte(s, 9, 2) as bv32) >> 6
    ensures Put2(wr, s[2], 9) == Writer((StreamByte(s, 9, 3) as bv32) >> 5, 5, wr.out + [StreamByte(s, 9, 2)])
  {}

  lemma Step9_3(s: seq<bv32>, wr: Writer)
    requires |s| > 3 && Fits(s, 9)
    requires wr.remaining == 5 && wr.trailing == (StreamByte(s, 9, 3) as bv32) >> 5
    ensures Put2(wr, s[3], 9) == Writer((StreamByte(s, 9, 4) as bv32) >> 4, 4, wr.out + [StreamByte(s, 9, 3)])
  {}

  lemma Step9_4(s: seq<bv32>, wr: Writer)
    requires |s| > 4 && Fits(s, 9)
    requires wr.remaining == 4 && wr.trailing == (StreamByte(s, 9, 4) as bv32) >> 4
    ensures Put2(wr, s[4], 9) == Writer((StreamByte(s, 9, 5) as bv32) >> 3, 3, wr.out + [StreamByte(s, 9, 4)])
  {}

  lemma Step9_5(s: seq<bv32>, wr: Writer)
    requires |s| > 5 && Fits(s, 9)
    requires wr.remaining == 3 && wr.trailing == (StreamByte(s, 9, 5) as bv32) >> 3
    ensures Put2(wr, s[5], 9) == Writer((StreamByte(s, 9, 6) as bv32) >> 2, 2, wr.out + [StreamByte(s, 9, 5)])
  {}

  lemma Step9_6(s: seq<bv32>, wr: Writer)
    requires |s| > 6 && Fits(s, 9)
    requires wr.remaining == 2 && wr.trailing == (StreamByte(s, 9, 6) as bv32) >> 2
    ensures Put2(wr, s[6], 9) == Writer((StreamByte(s, 9, 7) as bv32) >> 1, 1, wr.out + [StreamByte(s, 9, 6)])
  {}

  lemma Prefix9_0(s: seq<bv32>)
    requires |s| >= 0 && Fits(s, 9)
    ensures RunPut2(s, 9, 0).remaining == 8 && RunPut2(s, 9, 0).trailing == (StreamByte(s, 9, 0) as bv32) >> 8
    ensures RunPut2(s, 9, 0).out == StreamBytes(s, 9, 0)
  {}

  lemma Prefix9_1(s: seq<bv32>)
    requires |s| >= 1 && Fits(s, 9)
    ensures RunPut2(s, 9, 1).remaining == 7 && RunPut2(s, 9, 1).trailing == (StreamByte(s, 9, 1) as bv32) >> 7
    ensures RunPut2(s, 9, 1).out == StreamBytes(s, 9, 1)
  {
    Prefix9_0(s);
    Step9_0(s, RunPut2(s, 9, 0));
  }

  lemma Prefix9_2(s: seq<bv32>)
    requires |s| >= 2 && Fits(s, 9)
    ensures RunPut2(s, 9, 2).remaining == 6 && RunPut2(s, 9, 2).trailing == (StreamByte(s, 9, 2) as bv32) >> 6
    ensures RunPut2(s, 9, 2).out == StreamBytes(s, 9, 2)
  {
    Prefix9_1(s);
    Step9_1(s, RunPut2(s, 9, 1));
  }

  lemma Prefix9_3(s: seq<bv32>)
    requires |s| >= 3 && Fits(s, 9)
    ensures RunPut2(s, 9, 3).remaining == 5 && RunPut2(s, 9, 3).trailing == (StreamByte(s, 9, 3) as bv32) >> 5
    ensures RunPut2(s, 9, 3).out == StreamBytes(s, 9, 3)
  {
    Prefix9_2(s);
    Step9_2(s, RunPut2(s, 9, 2));
  }

  lemma Prefix9_4(s: seq<bv32>)
    requires |s| >= 4 && Fits(s, 9)
    ensures RunPut2(s, 9, 4).remaining == 4 && RunPut2(s, 9, 4).trailing == (StreamByte(s, 9, 4) as bv32) >> 4
    ensures RunPut2(s, 9, 4).out == StreamBytes(s, 9, 4)
  {
    Prefix9_3(s);
    Step9_3(s, RunPut2(s, 9, 3));
  }

  lemma Prefix9_5(s: seq<bv32>)
    requires |s| >= 5 && Fits(s, 9)
    ensures RunPut2(s, 9, 5).remaining == 3 && RunPut2(s, 9, 5).trailing == (StreamByte(s, 9, 5) as bv32) >> 3
    ensures RunPut2(s, 9, 5).out == StreamBytes(s, 9, 5)
  {
    Prefix9_4(s);
    Step9_4(s, RunPut2(s, 9, 4));
  }

  lemma Prefix9_6(s: seq<bv32>)
    requires |s| >= 6 && Fits(s, 9)
    ensures RunPut2(s, 9, 6).remaining == 2 && RunPut2(s, 9, 6).trailing == (StreamByte(s, 9, 6) as bv32) >> 2
    ensures RunPut2(s, 9, 6).out == StreamBytes(s, 9, 6)
  {
    Prefix9_5(s);
    Step9_5(s, RunPut2(s, 9, 5));
  }

  lemma Prefix9_7(s: seq<bv32>)
    requires |s| >= 7 && Fits(s, 9)
    ensures RunPut2(s, 9, 7).remaining == 1 && RunPut2(s, 9, 7).trailing == (StreamByte(s, 9, 7) as bv32) >> 1
    ensures RunPut2(s, 9, 7).out == StreamBytes(s, 9, 7)
  {
    Prefix9_6(s);
    Step9_6(s, RunPut2(s, 9, 6));
  }

  lemma Flush9_1(s: seq<bv32>, wr: Writer)
    requires |s| == 1 && Fits(s, 9)
    requires wr.remaining == 7 && wr.trailing == (StreamByte(s, 9, 1) as bv32) >> 7
    ensures Flush(wr) == wr.out + [StreamByte(s, 9, 1)]
  {}

  lemma Final9_1(s: seq<bv32>)
    requires |s| == 1 && Fits(s, 9)
    ensures Flush(RunPut2(s, 9, |s|)) == StreamBytes(s, 9, CeilBytes(9 * |s|))
  {
    Prefix9_1(s);
    Flush9_1(s, RunPut2(s, 9, 1));
    assert CeilBytes(9 * |s|) == 2;
  }

  lemma Flush9_2(s: seq<bv32>, wr: Writer)
    requires |s| == 2 && Fits(s, 9)
    requires wr.remaining == 6 && wr.trailing == (StreamByte(s, 9, 2) as bv32) >> 6
    ensures Flush(wr) == wr.out + [StreamByte(s, 9, 2)]
  {}

  lemma Final9_2(s: seq<bv32>)
    requires |s| == 2 && Fits(s, 9)
    ensures Flush(RunPut2(s, 9, |s|)) == StreamBytes(s, 9, CeilBytes(9 * |s|))
  {
    Prefix9_2(s);
    Flush9_2(s, RunPut2(s, 9, 2));
    assert CeilBytes(9 * |s|) == 3;
  }

  lemma Flush9_3(s: seq<bv32>, wr: Writer)
    requires |s| == 3 && Fits(s, 9)
    requires wr.remaining == 5 && wr.trailing == (StreamByte(s, 9, 3) as bv32) >> 5
    ensures Flush(wr) == wr.out + [StreamByte(s, 9, 3)]
  {}

  lemma Final9_3(s: seq<bv32>)
    requires |s| == 3 && Fits(s, 9)
    ensures Flush(RunPut2(s, 9, |s|)) == StreamBytes(s, 9, CeilBytes(9 * |s|))
  {
    Prefix9_3(s);
    Flush9_3(s, RunPut2(s, 9, 3));
    assert CeilBytes(9 * |s|) == 4;
  }

  lemma Flush9_4(s: seq<bv32>, wr: Writer)
    requires |s| == 4 && Fits(s, 9)
    requires wr.remaining == 4 && wr.trailing == (StreamByte(s, 9, 4) as bv32) >> 4
    ensures Flush(wr) == wr.out + [StreamByte(s, 9, 4)]
  {}

  lemma Final9_4(s: seq<bv32>)
    requires |s| == 4 && Fits(s, 9)
    ensures Flush(RunPut2(s, 9, |s|)) == StreamBytes(s, 9, CeilBytes(9 * |s|))
  {
    Prefix9_4(s);
    Flush9_4(s, RunPut2(s, 9, 4));
    assert CeilBytes(9 * |s|) == 5;
  }

  lemma Flush9_5(s: seq<bv32>, wr: Writer)
    requires |s| == 5 && Fits(s, 9)
    requires wr.remaining == 3 && wr.trailing == (StreamByte(s, 9, 5) as bv32) >> 3
    ensures Flush(wr) == wr.out + [StreamByte(s, 9, 5)]
  {}

  lemma Final9_5(s: seq<bv32>)
    requires |s| == 5 && Fits(s, 9)
    ensures Flush(RunPut2(s, 9, |s|)) == StreamBytes(s, 9, CeilBytes(9 * |s|))
  {
    Prefix9_5(s);
    Flush9_5(s, RunPut2(s, 9, 5));
    assert CeilBytes(9 * |s|) == 6;
  }

  lemma Flush9_6(s: seq<bv32>, wr: Writer)
    requires |s| == 6 && Fits(s, 9)
    requires wr.remaining == 2 && wr.trailing == (StreamByte(s, 9, 6) as bv32) >> 2
    ensures Flush(wr) == wr.out + [StreamByte(s, 9, 6)]
  {}

  lemma Final9_6(s: seq<bv32>)
    requires |s| == 6 && Fits(s, 9)
    ensures Flush(RunPut2(s, 9, |s|)) == StreamBytes(s, 9, CeilBytes(9 * |s|))
  {
    Prefix9_6(s);
    Flush9_6(s, RunPut2(s, 9, 6));
    assert CeilBytes(9 * |s|) == 7;
  }

  lemma Flush9_7(s: seq<bv32>, wr: Writer)
    requires |s| == 7 && Fits(s, 9)
    requires wr.remaining == 1 && wr.trailing == (StreamByte(s, 9, 7) as bv32) >> 1
    ensures Flush(wr) == wr.out + [StreamByte(s, 9, 7)]
  {}

  lemma Final9_7(s: seq<bv32>)
    requires |s| == 7 && Fits(s, 9)
    ensures Flush(RunPut2(s, 9, |s|)) == StreamBytes(s, 9, CeilBytes(9 * |s|))
  {
    Prefix9_7(s);
    Flush9_7(s, RunPut2(s, 9, 7));
    assert CeilBytes(9 * |s|) == 8;
  }

  lemma Writer9Stream(s: seq<bv32>)
    requires 1 <= |s| < 8 && Fits(s, 9)
    ensures Flush(RunPut2(s, 9, |s|)) == StreamBytes(s, 9, CeilBytes(9 * |s|))
  {
    if |s| == 1 { Final9_1(s); } else if |s| == 2 { Final9_2(s); } else if |s| == 3 { Final9_3(s); } else if |s| == 4 { Final9_4(s); } else if |s| == 5 { Final9_5(s); } else if |s| == 6 { Final9_6(s); } else { Final9_7(s); }
  }

  lemma LenStep9_0(wr: Writer, x: bv32)
    requires wr.remaining == 8
    ensures Put2(wr, x, 9).remaining == 7 && |Put2(wr, x, 9).out| == |wr.out| + 1
  {}

  lemma LenStep9_1(wr: Writer, x: bv32)
    requires wr.remaining == 7
    ensures Put2(wr, x, 9).remaining == 6 && |Put2(wr, x, 9).out| == |wr.out| + 1
  {}

  lemma LenStep9_2(wr: Writer, x: bv32)
    requires wr.remaining == 6
    ensures Put2(wr, x, 9).remaining == 5 && |Put2(wr, x, 9).out| == |wr.out| + 1
  {}

  lemma LenStep9_3(wr: Writer, x: bv32)
    requires wr.remaining == 5
    ensures Put2(wr, x, 9).remaining == 4 && |Put2(wr, x, 9).out| == |wr.out| + 1
  {}

  lemma LenStep9_4(wr: Writer, x: bv32)
    requires wr.remaining == 4
    ensures Put2(wr, x, 9).remaining == 3 && |Put2(wr, x, 9).out| == |wr.out| + 1
  {}

  lemma LenStep9_5(wr: Writer, x: bv32)
    requires wr.remaining == 3
    ensures Put2(wr, x, 9).remaining == 2 && |Put2(wr, x, 9).out| == |wr.out| + 1
  {}

  lemma LenStep9_6(wr: Writer, x: bv32)
    requires wr.remaining == 2
    ensures Put2(wr, x, 9).remaining == 1 && |Put2(wr, x, 9).out| == |wr.out| + 1
  {}

  lemma LenPrefix9_0(s: seq<bv32>)
    requires |s| >= 0
    ensures RunPut2(s, 9, 0).remaining == 8 && |RunPut2(s, 9, 0).out| == 0
  {}

  lemma LenPrefix9_1(s: seq<bv32>)
    requires |s| >= 1
    ensures RunPut2(s, 9, 1).remaining == 7 && |RunPut2(s, 9, 1).out| == 1
  {
    LenPrefix9_0(s);
    LenStep9_0(RunPut2(s, 9, 0), s[0]);
  }

  lemma LenPrefix9_2(s: seq<bv32>)
    requires |s| >= 2
    ensures RunPut2(s, 9, 2).remaining == 6 && |RunPut2(s, 9, 2).out| == 2
  {
    LenPrefix9_1(s);
    LenStep9_1(RunPut2(s, 9, 1), s[1]);
  }

  lemma LenPrefix9_3(s: seq<bv32>)
    requires |s| >= 3
    ensures RunPut2(s, 9, 3).remaining == 5 && |RunPut2(s, 9, 3).out| == 3
  {
    LenPrefix9_2(s);
    LenStep9_2(RunPut2(s, 9, 2), s[2]);
  }

  lemma LenPrefix9_4(s: seq<bv32>)
    requires |s| >= 4
    ensures RunPut2(s, 9, 4).remaining == 4 && |RunPut2(s, 9, 4).out| == 4
  {
    LenPrefix9_3(s);
    LenStep9_3(RunPut2(s, 9, 3), s[3]);
  }

  lemma LenPrefix9_5(s: seq<bv32>)
    requires |s| >= 5
    ensures RunPut2(s, 9, 5).remaining == 3 && |RunPut2(s, 9, 5).out| == 5
  {
    LenPrefix9_4(s);
    LenStep9_4(RunPut2(s, 9, 4), s[4]);
  }

  lemma LenPrefix9_6(s: seq<bv32>)
    requires |s| >= 6
    ensures RunPut2(s, 9, 6).remaining == 2 && |RunPut2(s, 9, 6).out| == 6
  {
    LenPrefix9_5(s);
    LenStep9_5(RunPut2(s, 9, 5), s[5]);
  }

  lemma LenPrefix9_7(s: seq<bv32>)
    requires |s| >= 7
    ensures RunPut2(s, 9, 7).remaining == 1 && |RunPut2(s, 9, 7).out| == 7
  {
    LenPrefix9_6(s);
    LenStep9_6(RunPut2(s, 9, 6), s[6]);
  }

  lemma LenFinal9_1(s: seq<bv32>)
    requires |s| == 1
    ensures |Flush(RunPut2(s, 9, |s|))| == CeilBytes(9 * |s|)
  {
    LenPrefix9_1(s);
    assert CeilBytes(9 * |s|) == 2;
  }

  lemma LenFinal9_2(s: seq<bv32>)
    requires |s| == 2
    ensures |Flush(RunPut2(s, 9, |s|))| == CeilBytes(9 * |s|)
  {
    LenPrefix9_2(s);
    assert CeilBytes(9 * |s|) == 3;
  }

  lemma LenFinal9_3(s: seq<bv32>)
    requires |s| == 3
    ensures |Flush(RunPut2(s, 9, |s|))| == CeilBytes(9 * |s|)
  {
    LenPrefix9_3(s);
    assert CeilBytes(9 * |s|) == 4;
  }

  lemma LenFinal9_4(s: seq<bv32>)
    requires |s| == 4
    ensures |Flush(RunPut2(s, 9, |s|))| == CeilBytes(9 * |s|)
  {
    LenPrefix9_4(s);
    assert CeilBytes(9 * |s|) == 5;
  }

  lemma LenFinal9_5(s: seq<bv32>)
    requires |s| == 5
    ensures |Flush(RunPut2(s, 9, |s|))| == CeilBytes(9 * |s|)
  {
    LenPrefix9_5(s);
    assert CeilBytes(9 * |s|) == 6;
  }

  lemma LenFinal9_6(s: seq<bv32>)
    requires |s| == 6
    ensures |Flush(RunPut2(s, 9, |s|))| == CeilBytes(9 * |s|)
  {
    LenPrefix9_6(s);
    assert CeilBytes(9 * |s|) == 7;
  }

  lemma LenFinal9_7(s: seq<bv32>)
    requires |s| == 7
    ensures |Flush(RunPut2(s, 9, |s|))| == CeilBytes(9 * |s|)
  {
    LenPrefix9_7(s);
    assert CeilBytes(9 * |s|) == 8;
  }

  /** Whatever the sample values, the packFinal writer emits CeilBytes(nb * w) bytes. */
  lemma Writer9Length(s: seq<bv32>)
    requires 1 <= |s| < 8
    ensures |Flush(RunPut2(s, 9, |s|))| == CeilBytes(9 * |s|)
  {
    if |s| == 1 { LenFinal9_1(s); } else if |s| == 2 { LenFinal9_2(s); } else if |s| == 3 { LenFinal9_3(s); } else if |s| == 4 { LenFinal9_4(s); } else if |s| == 5 { LenFinal9_5(s); } else if |s| == 6 { LenFinal9_6(s); } else { LenFinal9_7(s); }
  }

  lemma Step11_0(s: seq<bv32>, wr: Writer)
    requires |s| > 0 && Fits(s, 11)
    requires wr.remaining == 8 && wr.trailing == (StreamByte(s, 11, 0) as bv32) >> 8
    ensures Put2(wr, s[0], 11) == Writer((StreamByte(s, 11, 1) as bv32) >> 5, 5, wr.out + [StreamByte(s, 11, 0)])
  {}

  lemma Step11_1(s: seq<bv32>, wr: Writer)
    requires |s| > 1 && Fits(s, 11)
    requires wr.remaining == 5 && wr.trailing == (StreamByte(s, 11, 1) as bv32) >> 5
    ensures Put2(wr, s[1], 11) == Writer((StreamByte(s, 11, 2) as bv32) >> 2, 2, wr.out + [StreamByte(s, 11, 1)])
  {}

  lemma Step11_2(s: seq<bv32>, wr: Writer)
    requires |s| > 2 && Fits(s, 11)
    requires wr.remaining == 2 && wr.trailing == (StreamByte(s, 11, 2) as bv32) >> 2
    ensures Put2(wr, s[2], 11) == Writer((StreamByte(s, 11, 4) as bv32) >> 7, 7, wr.out + [StreamByte(s, 11, 2)] + [StreamByte(s, 11, 3)])
  {}

  lemma Step11_3(s: seq<bv32>, wr: Writer)
    requires |s| > 3 && Fits(s, 11)
    requires wr.remaining == 7 && wr.trailing == (StreamByte(s, 11, 4) as bv32) >> 7
    ensures Put2(wr, s[3], 11) == Writer((StreamByte(s, 11, 5) as bv32) >> 4, 4, wr.out + [StreamByte(s, 11, 4)])
  {}

  lemma Step11_4(s: seq<bv32>, wr: Writer)
    requires |s| > 4 && Fits(s, 11)
    requires wr.remaining == 4 && wr.trailing == (StreamByte(s, 11, 5) as bv32) >> 4
    ensures Put2(wr, s[4], 11) == Writer((StreamByte(s, 11, 6) as bv32) >> 1, 1, wr.out + [StreamByte(s, 11, 5)])
  {}

  lemma Step11_5(s: seq<bv32>, wr: Writer)
    requires |s| > 5 && Fits(s, 11)
    requires wr.remaining == 1 && wr.trailing == (StreamByte(s, 11, 6) as bv32) >> 1
    ensures Put2(wr, s[5], 11) == Writer((StreamByte(s, 11, 8) as bv32) >> 6, 6, wr.out + [StreamByte(s, 11, 6)] + [StreamByte(s, 11, 7)])
  {}

  lemma Step11_6(s: seq<bv32>, wr: Writer)
    requires |s| > 6 && Fits(s, 11)
    requires wr.remaining == 6 && wr.trailing == (StreamByte(s, 11, 8) as bv32) >> 6
    ensures Put2(wr, s[6], 11) == Writer((StreamByte(s, 11, 9) as bv32) >> 3, 3, wr.out + [StreamByte(s, 11, 8)])
  {}

  lemma Prefix11_0(s: seq<bv32>)
    requires |s| >= 0 && Fits(s, 11)
    ensures RunPut2(s, 11, 0).remaining == 8 && RunPut2(s, 11, 0).trailing == (StreamByte(s, 11, 0) as bv32) >> 8
    ensures RunPut2(s, 11, 0).out == StreamBytes(s, 11, 0)
  {}

  lemma Prefix11_1(s: seq<bv32>)
    requires |s| >= 1 && Fits(s, 11)
    ensures RunPut2(s, 11, 1).remaining == 5 && RunPut2(s, 11, 1).trailing == (StreamByte(s, 11, 1) as bv32) >> 5
    ensures RunPut2(s, 11, 1).out == StreamBytes(s, 11, 1)
  {
    Prefix11_0(s);
    Step11_0(s, RunPut2(s, 11, 0));
  }

  lemma Prefix11_2(s: seq<bv32>)
    requires |s| >= 2 && Fits(s, 11)
    ensures RunPut2(s, 11, 2).remaining == 2 && RunPut2(s, 11, 2).trailing == (StreamByte(s, 11, 2) as bv32) >> 2
    ensures RunPut2(s, 11, 2).out == StreamBytes(s, 11, 2)
  {
    Prefix11_1(s);
    Step11_1(s, RunPut2(s, 11, 1));
  }

  lemma Prefix11_3(s: seq<bv32>)
    requires |s| >= 3 && Fits(s, 11)
    ensures RunPut2(s, 11, 3).remaining == 7 && RunPut2(s, 11, 3).trailing == (StreamByte(s, 11, 4) as bv32) >> 7
    ensures RunPut2(s, 11, 3).out == StreamBytes(s, 11, 4)
  {
    Prefix11_2(s);
    Step11_2(s, RunPut2(s, 11, 2));
  }

  lemma Prefix11_4(s: seq<bv32>)
    requires |s| >= 4 && Fits(s, 11)
    ensures RunPut2(s, 11, 4).remaining == 4 && RunPut2(s, 11, 4).trailing == (StreamByte(s, 11, 5) as bv32) >> 4
    ensures RunPut2(s, 11, 4).out == StreamBytes(s, 11, 5)
  {
    Prefix11_3(s);
    Step11_3(s, RunPut2(s, 11, 3));
  }

  lemma Prefix11_5(s: seq<bv32>)
    requires |s| >= 5 && Fits(s, 11)
    ensures RunPut2(s, 11, 5).remaining == 1 && RunPut2(s, 11, 5).trailing == (StreamByte(s, 11, 6) as bv32) >> 1
    ensures RunPut2(s, 11, 5).out == StreamBytes(s, 11, 6)
  {
    Prefix11_4(s);
    Step11_4(s, RunPut2(s, 11, 4));
  }

  lemma Prefix11_6(s: seq<bv32>)
    requires |s| >= 6 && Fits(s, 11)
    ensures RunPut2(s, 11, 6).remaining == 6 && RunPut2(s, 11, 6).trailing == (StreamByte(s, 11, 8) as bv32) >> 6
    ensures RunPut2(s, 11, 6).out == StreamBytes(s, 11, 8)
  {
    Prefix11_5(s);
    Step11_5(s, RunPut2(s, 11, 5));
  }

  lemma Prefix11_7(s: seq<bv32>)
    requires |s| >= 7 && Fits(s, 11)
    ensures RunPut2(s, 11, 7).remaining == 3 && RunPut2(s, 11, 7).trailing == (StreamByte(s, 11, 9) as bv32) >> 3
    ensures RunPut2(s, 11, 7).out == StreamBytes(s, 11, 9)
  {
    Prefix11_6(s);
    Step11_6(s, RunPut2(s, 11, 6));
  }

  lemma Flush11_1(s: seq<bv32>, wr: Writer)
    requires |s| == 1 && Fits(s, 11)
    requires wr.remaining == 5 && wr.trailing == (StreamByte(s, 11, 1) as bv32) >> 5
    ensures Flush(wr) == wr.out + [StreamByte(s, 11, 1)]
  {}

  lemma Final11_1(s: seq<bv32>)
    requires |s| == 1 && Fits(s, 11)
    ensures Flush(RunPut2(s, 11, |s|)) == StreamBytes(s, 11, CeilBytes(11 * |s|))
  {
    Prefix11_1(s);
    Flush11_1(s, RunPut2(s, 11, 1));
    assert CeilBytes(11 * |s|) == 2;
  }

  lemma Flush11_2(s: seq<bv32>, wr: Writer)
    requires |s| == 2 && Fits(s, 11)
    requires wr.remaining == 2 && wr.trailing == (StreamByte(s, 11, 2) as bv32) >> 2
    ensures Flush(wr) == wr.out + [StreamByte(s, 11, 2)]
  {}

  lemma Final11_2(s: seq<bv32>)
    requires |s| == 2 && Fits(s, 11)
    ensures Flush(RunPut2(s, 11, |s|)) == StreamBytes(s, 11, CeilBytes(11 * |s|))
  {
    Prefix11_2(s);
    Flush11_2(s, RunPut2(s, 11, 2));
    assert CeilBytes(11 * |s|) == 3;
  }

  lemma Flush11_3(s: seq<bv32>, wr: Writer)
    requires |s| == 3 && Fits(s, 11)
    requires wr.remaining == 7 && wr.trailing == (StreamByte(s, 11, 4) as bv32) >> 7
    ensures Flush(wr) == wr.out + [StreamByte(s, 11, 4)]
  {}

  lemma Final11_3(s: seq<bv32>)
    requires |s| == 3 && Fits(s, 11)
    ensures Flush(RunPut2(s, 11, |s|)) == StreamBytes(s, 11, CeilBytes(11 * |s|))
  {
    Prefix11_3(s);
    Flush11_3(s, RunPut2(s, 11, 3));
    assert CeilBytes(11 * |s|) == 5;
  }

  lemma Flush11_4(s: seq<bv32>, wr: Writer)
    requires |s| == 4 && Fits(s, 11)
    requires wr.remaining == 4 && wr.trailing == (StreamByte(s, 11, 5) as bv32) >> 4
    ensures Flush(wr) == wr.out + [StreamByte(s, 11, 5)]
  {}

  lemma Final11_4(s: seq<bv32>)
    requires |s| == 4 && Fits(s, 11)
    ensures Flush(RunPut2(s, 11, |s|)) == StreamBytes(s, 11, CeilBytes(11 * |s|))
  {
    Prefix11_4(s);
    Flush11_4(s, RunPut2(s, 11, 4));
    assert CeilBytes(11 * |s|) == 6;
  }

  lemma Flush11_5(s: seq<bv32>, wr: Writer)
    requires |s| == 5 && Fits(s, 11)
    requires wr.remaining == 1 && wr.trailing == (StreamByte(s, 11, 6) as bv32) >> 1
    ensures Flush(wr) == wr.out + [StreamByte(s, 11, 6)]
  {}

  lemma Final11_5(s: seq<bv32>)
    requires |s| == 5 && Fits(s, 11)
    ensures Flush(RunPut2(s, 11, |s|)) == StreamBytes(s, 11, CeilBytes(11 * |s|))
  {
    Prefix11_5(s);
    Flush11_5(s, RunPut2(s, 11, 5));
    assert CeilBytes(11 * |s|) == 7;
  }

  lemma Flush11_6(s: seq<bv32>, wr: Writer)
    requires |s| == 6 && Fits(s, 11)
    requires wr.remaining == 6 && wr.trailing == (StreamByte(s, 11, 8) as bv32) >> 6
    ensures Flush(wr) == wr.out + [StreamByte(s, 11, 8)]
  {}

  lemma Final11_6(s: seq<bv32>)
    requires |s| == 6 && Fits(s, 11)
    ensures Flush(RunPut2(s, 11, |s|)) == StreamBytes(s, 11, CeilBytes(11 * |s|))
  {
    Prefix11_6(s);
    Flush11_6(s, RunPut2(s, 11, 6));
    assert CeilBytes(11 * |s|) == 9;
  }

  lemma Flush11_7(s: seq<bv32>, wr: Writer)
    requires |s| == 7 && Fits(s, 11)
    requires wr.remaining == 3 && wr.trailing == (StreamByte(s, 11, 9) as bv32) >> 3
    ensures Flush(wr) == wr.out + [StreamByte(s, 11, 9)]
  {}

  lemma Final11_7(s: seq<bv32>)
    requires |s| == 7 && Fits(s, 11)
    ensures Flush(RunPut2(s, 11, |s|)) == StreamBytes(s, 11, CeilBytes(11 * |s|))
  {
    Prefix11_7(s);
    Flush11_7(s, RunPut2(s, 11, 7));
    assert CeilBytes(11 * |s|) == 10;
  }

  lemma Writer11Stream(s: seq<bv32>)
    requires 1 <= |s| < 8 && Fits(s, 11)
    ensures Flush(RunPut2(s, 11, |s|)) == StreamBytes(s, 11, CeilBytes(11 * |s|))
  {
    if |s| == 1 { Final11_1(s); } else if |s| == 2 { Final11_2(s); } else if |s| == 3 { Final11_3(s); } else if |s| == 4 { Final11_4(s); } else if |s| == 5 { Final11_5(s); } else if |s| == 6 { Final11_6(s); } else { Final11_7(s); }
  }

  lemma LenStep11_0(wr: Writer, x: bv32)
    requires wr.remaining == 8
    ensures Put2(wr, x, 11).remaining == 5 && |Put2(wr, x, 11).out| == |wr.out| + 1
  {}

  lemma LenStep11_1(wr: Writer, x: bv32)
    requires wr.remaining == 5
    ensures Put2(wr, x, 11).remaining == 2 && |Put2(wr, x, 11).out| == |wr.out| + 1
  {}

  lemma LenStep11_2(wr: Writer, x: bv32)
    requires wr.remaining == 2
    ensures Put2(wr, x, 11).remaining == 7 && |Put2(wr, x, 11).out| == |wr.out| + 2
  {}

  lemma LenStep11_3(wr: Writer, x: bv32)
    requires wr.remaining == 7
    ensures Put2(wr, x, 11).remaining == 4 && |Put2(wr, x, 11).out| == |wr.out| + 1
  {}

  lemma LenStep11_4(wr: Writer, x: bv32)
    requires wr.remaining == 4
    ensures Put2(wr, x, 11).remaining == 1 && |Put2(wr, x, 11).out| == |wr.out| + 1
  {}

  lemma LenStep11_5(wr: Writer, x: bv32)
    requires wr.remaining == 1
    ensures Put2(wr, x, 11).remaining == 6 && |Put2(wr, x, 11).out| == |wr.out| + 2
  {}

  lemma LenStep11_6(wr: Writer, x: bv32)
    requires wr.remaining == 6
    ensures Put2(wr, x, 11).remaining == 3 && |Put2(wr, x, 11).out| == |wr.out| + 1
  {}

  lemma LenPrefix11_0(s: seq<bv32>)
    requires |s| >= 0
    ensures RunPut2(s, 11, 0).remaining == 8 && |RunPut2(s, 11, 0).out| == 0
  {}

  lemma LenPrefix11_1(s: seq<bv32>)
    requires |s| >= 1
    ensures RunPut2(s, 11, 1).remaining == 5 && |RunPut2(s, 11, 1).out| == 1
  {
    LenPrefix11_0(s);
    LenStep11_0(RunPut2(s, 11, 0), s[0]);
  }

  lemma LenPrefix11_2(s: seq<bv32>)
    requires |s| >= 2
    ensures RunPut2(s, 11, 2).remaining == 2 && |RunPut2(s, 11, 2).out| == 2
  {
    LenPrefix11_1(s);
    LenStep11_1(RunPut2(s, 11, 1), s[1]);
  }

  lemma LenPrefix11_3(s: seq<bv32>)
    requires |s| >= 3
    ensures RunPut2(s, 11, 3).remaining == 7 && |RunPut2(s, 11, 3).out| == 4
  {
    LenPrefix11_2(s);
    LenStep11_2(RunPut2(s, 11, 2), s[2]);
  }

  lemma LenPrefix11_4(s: seq<bv32>)
    requires |s| >= 4
    ensures RunPut2(s, 11, 4).remaining == 4 && |RunPut2(s, 11, 4).out| == 5
  {
    LenPrefix11_3(s);
    LenStep11_3(RunPut2(s, 11, 3), s[3]);
  }

  lemma LenPrefix11_5(s: seq<bv32>)
    requires |s| >= 5
    ensures RunPut2(s, 11, 5).remaining == 1 && |RunPut2(s, 11, 5).out| == 6
  {
    LenPrefix11_4(s);
    LenStep11_4(RunPut2(s, 11, 4), s[4]);
  }

  lemma LenPrefix11_6(s: seq<bv32>)
    requires |s| >= 6
    ensures RunPut2(s, 11, 6).remaining == 6 && |RunPut2(s, 11, 6).out| == 8
  {
    LenPrefix11_5(s);
    LenStep11_5(RunPut2(s, 11, 5), s[5]);
  }

  lemma LenPrefix11_7(s: seq<bv32>)
    requires |s| >= 7
    ensures RunPut2(s, 11, 7).remaining == 3 && |RunPut2(s, 11, 7).out| == 9
  {
    LenPrefix11_6(s);
    LenStep11_6(RunPut2(s, 11, 6), s[6]);
  }

  lemma LenFinal11_1(s: seq<bv32>)
    requires |s| == 1
    ensures |Flush(RunPut2(s, 11, |s|))| == CeilBytes(11 * |s|)
  {
    LenPrefix11_1(s);
    assert CeilBytes(11 * |s|) == 2;
  }

  lemma LenFinal11_2(s: seq<bv32>)
    requires |s| == 2
    ensures |Flush(RunPut2(s, 11, |s|))| == CeilBytes(11 * |s|)
  {
    LenPrefix11_2(s);
    assert CeilBytes(11 * |s|) == 3;
  }

  lemma LenFinal11_3(s: seq<bv32>)
    requires |s| == 3
    ensures |Flush(RunPut2(s, 11, |s|))| == CeilBytes(11 * |s|)
  {
    LenPrefix11_3(s);
    assert CeilBytes(11 * |s|) == 5;
  }

  lemma LenFinal11_4(s: seq<bv32>)
    requires |s| == 4
    ensures |Flush(RunPut2(s, 11, |s|))| == CeilBytes(11 * |s|)
  {
    LenPrefix11_4(s);
    assert CeilBytes(11 * |s|) == 6;
  }

  lemma LenFinal11_5(s: seq<bv32>)
    requires |s| == 5
    ensures |Flush(RunPut2(s, 11, |s|))| == CeilBytes(11 * |s|)
  {
    LenPrefix11_5(s);
    assert CeilBytes(11 * |s|) == 7;
  }

  lemma LenFinal11_6(s: seq<bv32>)
    requires |s| == 6
    ensures |Flush(RunPut2(s, 11, |s|))| == CeilBytes(11 * |s|)
  {
    LenPrefix11_6(s);
    assert CeilBytes(11 * |s|) == 9;
  }

  lemma LenFinal11_7(s: seq<bv32>)
    requires |s| == 7
    ensures |Flush(RunPut2(s, 11, |s|))| == CeilBytes(11 * |s|)
  {
    LenPrefix11_7(s);
    assert CeilBytes(11 * |s|) == 10;
  }

  /** Whatever the sample values, the packFinal writer emits CeilBytes(nb * w) bytes. */
  lemma Writer11Length(s: seq<bv32>)
    requires 1 <= |s| < 8
    ensures |Flush(RunPut2(s, 11, |s|))| == CeilBytes(11 * |s|)
  {
    if |s| == 1 { LenFinal11_1(s); } else if |s| == 2 { LenFinal11_2(s); } else if |s| == 3 { LenFinal11_3(s); } else if |s| == 4 { LenFinal11_4(s); } else if |s| == 5 { LenFinal11_5(s); } else if |s| == 6 { LenFinal11_6(s); } else { LenFinal11_7(s); }
  }

  lemma Step13_0(s: seq<bv32>, wr: Writer)
    requires |s| > 0 && Fits(s, 13)
    requires wr.remaining == 8 && wr.trailing == (StreamByte(s, 13, 0) as bv32) >> 8
    ensures Put2(wr, s[0], 13) == Writer((StreamByte(s, 13, 1) as bv32) >> 3, 3, wr.out + [StreamByte(s, 13, 0)])
  {}

  lemma Step13_1(s: seq<bv32>, wr: Writer)
    requires |s| > 1 && Fits(s, 13)
    requires wr.remaining == 3 && wr.trailing == (StreamByte(s, 13, 1) as bv32) >> 3
    ensures Put2(wr, s[1], 13) == Writer((StreamByte(s, 13, 3) as bv32) >> 6, 6, wr.out + [StreamByte(s, 13, 1)] + [StreamByte(s, 13, 2)])
  {}

  lemma Step13_2(s: seq<bv32>, wr: Writer)
    requires |s| > 2 && Fits(s, 13)
    requires wr.remaining == 6 && wr.trailing == (StreamByte(s, 13, 3) as bv32) >> 6
    ensures Put2(wr, s[2], 13) == Writer((StreamByte(s, 13, 4) as bv32) >> 1, 1, wr.out + [StreamByte(s, 13, 3)])
  {}

  lemma Step13_3(s: seq<bv32>, wr: Writer)
    requires |s| > 3 && Fits(s, 13)
    requires wr.remaining == 1 && wr.trailing == (StreamByte(s, 13, 4) as bv32) >> 1
    ensures Put2(wr, s[3], 13) == Writer((StreamByte(s, 13, 6) as bv32) >> 4, 4, wr.out + [StreamByte(s, 13, 4)] + [StreamByte(s, 13, 5)])
  {}

  lemma Step13_4(s: seq<bv32>, wr: Writer)
    requires |s| > 4 && Fits(s, 13)
    requires wr.remaining == 4 && wr.trailing == (StreamByte(s, 13, 6) as bv32) >> 4
    ensures Put2(wr, s[4], 13) == Writer((StreamByte(s, 13, 8) as bv32) >> 7, 7, wr.out + [StreamByte(s, 13, 6)] + [StreamByte(s, 13, 7)])
  {}

  lemma Step13_5(s: seq<bv32>, wr: Writer)
    requires |s| > 5 && Fits(s, 13)
    requires wr.remaining == 7 && wr.trailing == (StreamByte(s, 13, 8) as bv32) >> 7
    ensures Put2(wr, s[5], 13) == Writer((StreamByte(s, 13, 9) as bv32) >> 2, 2, wr.out + [StreamByte(s, 13, 8)])
  {}

  lemma Step13_6(s: seq<bv32>, wr: Writer)
    requires |s| > 6 && Fits(s, 13)
    requires wr.remaining == 2 && wr.trailing == (StreamByte(s, 13, 9) as bv32) >> 2
    ensures Put2(wr, s[6], 13) == Writer((StreamByte(s, 13, 11) as bv32) >> 5, 5, wr.out + [StreamByte(s, 13, 9)] + [StreamByte(s, 13, 10)])
  {}

  lemma Prefix13_0(s: seq<bv32>)
    requires |s| >= 0 && Fits(s, 13)
    ensures RunPut2(s, 13, 0).remaining == 8 && RunPut2(s, 13, 0).trailing == (StreamByte(s, 13, 0) as bv32) >> 8
    ensures RunPut2(s, 13, 0).out == StreamBytes(s, 13, 0)
  {}

  lemma Prefix13_1(s: seq<bv32>)
    requires |s| >= 1 && Fits(s, 13)
    ensures RunPut2(s, 13, 1).remaining == 3 && RunPut2(s, 13, 1).trailing == (StreamByte(s, 13, 1) as bv32) >> 3
    ensures RunPut2(s, 13, 1).out == StreamBytes(s, 13, 1)
  {
    Prefix13_0(s);
    Step13_0(s, RunPut2(s, 13, 0));
  }

  lemma Prefix13_2(s: seq<bv32>)
    requires |s| >= 2 && Fits(s, 13)
    ensures RunPut2(s, 13, 2).remaining == 6 && RunPut2(s, 13, 2).trailing == (StreamByte(s, 13, 3) as bv32) >> 6
    ensures RunPut2(s, 13, 2).out == StreamBytes(s, 13, 3)
  {
    Prefix13_1(s);
    Step13_1(s, RunPut2(s, 13, 1));
  }

  lemma Prefix13_3(s: seq<bv32>)
    requires |s| >= 3 && Fits(s, 13)
    ensures RunPut2(s, 13, 3).remaining == 1 && RunPut2(s, 13, 3).trailing == (StreamByte(s, 13, 4) as bv32) >> 1
    ensures RunPut2(s, 13, 3).out == StreamBytes(s, 13, 4)
  {
    Prefix13_2(s);
    Step13_2(s, RunPut2(s, 13, 2));
  }

  lemma Prefix13_4(s: seq<bv32>)
    requires |s| >= 4 && Fits(s, 13)
    ensures RunPut2(s, 13, 4).remaining == 4 && RunPut2(s, 13, 4).trailing == (StreamByte(s, 13, 6) as bv32) >> 4
    ensures RunPut2(s, 13, 4).out == StreamBytes(s, 13, 6)
  {
    Prefix13_3(s);
    Step13_3(s, RunPut2(s, 13, 3));
  }

  lemma Prefix13_5(s: seq<bv32>)
    requires |s| >= 5 && Fits(s, 13)
    ensures RunPut2(s, 13, 5).remaining == 7 && RunPut2(s, 13, 5).trailing == (StreamByte(s, 13, 8) as bv32) >> 7
    ensures RunPut2(s, 13, 5).out == StreamBytes(s, 13, 8)
  {
    Prefix13_4(s);
    Step13_4(s, RunPut2(s, 13, 4));
  }

  lemma Prefix13_6(s: seq<bv32>)
    requires |s| >= 6 && Fits(s, 13)
    ensures RunPut2(s, 13, 6).remaining == 2 && RunPut2(s, 13, 6).trailing == (StreamByte(s, 13, 9) as bv32) >> 2
    ensures RunPut2(s, 13, 6).out == StreamBytes(s, 13, 9)
  {
    Prefix13_5(s);
    Step13_5(s, RunPut2(s, 13, 5));
  }

  lemma Prefix13_7(s: seq<bv32>)
    requires |s| >= 7 && Fits(s, 13)
    ensures RunPut2(s, 13, 7).remaining == 5 && RunPut2(s, 13, 7).trailing == (StreamByte(s, 13, 11) as bv32) >> 5
    ensures RunPut2(s, 13, 7).out == StreamBytes(s, 13, 11)
  {
    Prefix13_6(s);
    Step13_6(s, RunPut2(s, 13, 6));
  }

  lemma Flush13_1(s: seq<bv32>, wr: Writer)
    requires |s| == 1 && Fits(s, 13)
    requires wr.remaining == 3 && wr.trailing == (StreamByte(s, 13, 1) as bv32) >> 3
    ensures Flush(wr) == wr.out + [StreamByte(s, 13, 1)]
  {}

  lemma Final13_1(s: seq<bv32>)
    requires |s| == 1 && Fits(s, 13)
    ensures Flush(RunPut2(s, 13, |s|)) == StreamBytes(s, 13, CeilBytes(13 * |s|))
  {
    Prefix13_1(s);
    Flush13_1(s, RunPut2(s, 13, 1));
    assert CeilBytes(13 * |s|) == 2;
  }

  lemma Flush13_2(s: seq<bv32>, wr: Writer)
    requires |s| == 2 && Fits(s, 13)
    requires wr.remaining == 6 && wr.trailing == (StreamByte(s, 13, 3) as bv32) >> 6
    ensures Flush(wr) == wr.out + [StreamByte(s, 13, 3)]
  {}

  lemma Final13_2(s: seq<bv32>)
    requires |s| == 2 && Fits(s, 13)
    ensures Flush(RunPut2(s, 13, |s|)) == StreamBytes(s, 13, CeilBytes(13 * |s|))
  {
    Prefix13_2(s);
    Flush13_2(s, RunPut2(s, 13, 2));
    assert CeilBytes(13 * |s|) == 4;
  }

  lemma Flush13_3(s: seq<bv32>, wr: Writer)
    requires |s| == 3 && Fits(s, 13)
    requires wr.remaining == 1 && wr.trailing == (StreamByte(s, 13, 4) as bv32) >> 1
    ensures Flush(wr) == wr.out + [StreamByte(s, 13, 4)]
  {}

  lemma Final13_3(s: seq<bv32>)
    requires |s| == 3 && Fits(s, 13)
    ensures Flush(RunPut2(s, 13, |s|)) == StreamBytes(s, 13, CeilBytes(13 * |s|))
  {
    Prefix13_3(s);
    Flush13_3(s, RunPut2(s, 13, 3));
    assert CeilBytes(13 * |s|) == 5;
  }

  lemma Flush13_4(s: seq<bv32>, wr: Writer)
    requires |s| == 4 && Fits(s, 13)
    requires wr.remaining == 4 && wr.trailing == (StreamByte(s, 13, 6) as bv32) >> 4
    ensures Flush(wr) == wr.out + [StreamByte(s, 13, 6)]
  {}

  lemma Final13_4(s: seq<bv32>)
    requires |s| == 4 && Fits(s, 13)
    ensures Flush(RunPut2(s, 13, |s|)) == StreamBytes(s, 13, CeilBytes(13 * |s|))
  {
    Prefix13_4(s);
    Flush13_4(s, RunPut2(s, 13, 4));
    assert CeilBytes(13 * |s|) == 7;
  }

  lemma Flush13_5(s: seq<bv32>, wr: Writer)
    requires |s| == 5 && Fits(s, 13)
    requires wr.remaining == 7 && wr.trailing == (StreamByte(s, 13, 8) as bv32) >> 7
    ensures Flush(wr) == wr.out + [StreamByte(s, 13, 8)]
  {}

  lemma Final13_5(s: seq<bv32>)
    requires |s| == 5 && Fits(s, 13)
    ensures Flush(RunPut2(s, 13, |s|)) == StreamBytes(s, 13, CeilBytes(13 * |s|))
  {
    Prefix13_5(s);
    Flush13_5(s, RunPut2(s, 13, 5));
    assert CeilBytes(13 * |s|) == 9;
  }

  lemma Flush13_6(s: seq<bv32>, wr: Writer)
    requires |s| == 6 && Fits(s, 13)
    requires wr.remaining == 2 && wr.trailing == (StreamByte(s, 13, 9) as bv32) >> 2
    ensures Flush(wr) == wr.out + [StreamByte(s, 13, 9)]
  {}

  lemma Final13_6(s: seq<bv32>)
    requires |s| == 6 && Fits(s, 13)
    ensures Flush(RunPut2(s, 13, |s|)) == StreamBytes(s, 13, CeilBytes(13 * |s|))
  {
    Prefix13_6(s);
    Flush13_6(s, RunPut2(s, 13, 6));
    assert CeilBytes(13 * |s|) == 10;
  }

  lemma Flush13_7(s: seq<bv32>, wr: Writer)
    requires |s| == 7 && Fits(s, 13)
    requires wr.remaining == 5 && wr.trailing == (StreamByte(s, 13, 11) as bv32) >> 5
    ensures Flush(wr) == wr.out + [StreamByte(s, 13, 11)]
  {}

  lemma Final13_7(s: seq<bv32>)
    requires |s| == 7 && Fits(s, 13)
    ensures Flush(RunPut2(s, 13, |s|)) == StreamBytes(s, 13, CeilBytes(13 * |s|))
  {
    Prefix13_7(s);
    Flush13_7(s, RunPut2(s, 13, 7));
    assert CeilBytes(13 * |s|) == 12;
  }

  lemma Writer13Stream(s: seq<bv32>)
    requires 1 <= |s| < 8 && Fits(s, 13)
    ensures Flush(RunPut2(s, 13, |s|)) == StreamBytes(s, 13, CeilBytes(13 * |s|))
  {
    if |s| == 1 { Final13_1(s); } else if |s| == 2 { Final13_2(s); } else if |s| == 3 { Final13_3(s); } else if |s| == 4 { Final13_4(s); } else if |s| == 5 { Final13_5(s); } else if |s| == 6 { Final13_6(s); } else { Final13_7(s); }
  }

  lemma LenStep13_0(wr: Writer, x: bv32)
    requires wr.remaining == 8
    ensures Put2(wr, x, 13).remaining == 3 && |Put2(wr, x, 13).out| == |wr.out| + 1
  {}

  lemma LenStep13_1(wr: Writer, x: bv32)
    requires wr.remaining == 3
    ensures Put2(wr, x, 13).remaining == 6 && |Put2(wr, x, 13).out| == |wr.out| + 2
  {}

  lemma LenStep13_2(wr: Writer, x: bv32)
    requires wr.remaining == 6
    ensures Put2(wr, x, 13).remaining == 1 && |Put2(wr, x, 13).out| == |wr.out| + 1
  {}

  lemma LenStep13_3(wr: Writer, x: bv32)
    requires wr.remaining == 1
    ensures Put2(wr, x, 13).remaining == 4 && |Put2(wr, x, 13).out| == |wr.out| + 2
  {}

  lemma LenStep13_4(wr: Writer, x: bv32)
    requires wr.remaining == 4
    ensures Put2(wr, x, 13).remaining == 7 && |Put2(wr, x, 13).out| == |wr.out| + 2
  {}

  lemma LenStep13_5(wr: Writer, x: bv32)
    requires wr.remaining == 7
    ensures Put2(wr, x, 13).remaining == 2 && |Put2(wr, x, 13).out| == |wr.out| + 1
  {}

  lemma LenStep13_6(wr: Writer, x: bv32)
    requires wr.remaining == 2
    ensures Put2(wr, x, 13).remaining == 5 && |Put2(wr, x, 13).out| == |wr.out| + 2
  {}

  lemma LenPrefix13_0(s: seq<bv32>)
    requires |s| >= 0
    ensures RunPut2(s, 13, 0).remaining == 8 && |RunPut2(s, 13, 0).out| == 0
  {}

  lemma LenPrefix13_1(s: seq<bv32>)
    requires |s| >= 1
    ensures RunPut2(s, 13, 1).remaining == 3 && |RunPut2(s, 13, 1).out| == 1
  {
    LenPrefix13_0(s);
    LenStep13_0(RunPut2(s, 13, 0), s[0]);
  }

  lemma LenPrefix13_2(s: seq<bv32>)
    requires |s| >= 2
    ensures RunPut2(s, 13, 2).remaining == 6 && |RunPut2(s, 13, 2).out| == 3
  {
    LenPrefix13_1(s);
    LenStep13_1(RunPut2(s, 13, 1), s[1]);
  }

  lemma LenPrefix13_3(s: seq<bv32>)
    requires |s| >= 3
    ensures RunPut2(s, 13, 3).remaining == 1 && |RunPut2(s, 13, 3).out| == 4
  {
    LenPrefix13_2(s);
    LenStep13_2(RunPut2(s, 13, 2), s[2]);
  }

  lemma LenPrefix13_4(s: seq<bv32>)
    requires |s| >= 4
    ensures RunPut2(s, 13, 4).remaining == 4 && |RunPut2(s, 13, 4).out| == 6
  {
    LenPrefix13_3(s);
    LenStep13_3(RunPut2(s, 13, 3), s[3]);
  }

  lemma LenPrefix13_5(s: seq<bv32>)
    requires |s| >= 5
    ensures RunPut2(s, 13, 5).remaining == 7 && |RunPut2(s, 13, 5).out| == 8
  {
    LenPrefix13_4(s);
    LenStep13_4(RunPut2(s, 13, 4), s[4]);
  }

  lemma LenPrefix13_6(s: seq<bv32>)
    requires |s| >= 6
    ensures RunPut2(s, 13, 6).remaining == 2 && |RunPut2(s, 13, 6).out| == 9
  {
    LenPrefix13_5(s);
    LenStep13_5(RunPut2(s, 13, 5), s[5]);
  }

  lemma LenPrefix13_7(s: seq<bv32>)
    requires |s| >= 7
    ensures RunPut2(s, 13, 7).remaining == 5 && |RunPut2(s, 13, 7).out| == 11
  {
    LenPrefix13_6(s);
    LenStep13_6(RunPut2(s, 13, 6), s[6]);
  }

  lemma LenFinal13_1(s: seq<bv32>)
    requires |s| == 1
    ensures |Flush(RunPut2(s, 13, |s|))| == CeilBytes(13 * |s|)
  {
    LenPrefix13_1(s);
    assert CeilBytes(13 * |s|) == 2;
  }

  lemma LenFinal13_2(s: seq<bv32>)
    requires |s| == 2
    ensures |Flush(RunPut2(s, 13, |s|))| == CeilBytes(13 * |s|)
  {
    LenPrefix13_2(s);
    assert CeilBytes(13 * |s|) == 4;
  }

  lemma LenFinal13_3(s: seq<bv32>)
    requires |s| == 3
    ensures |Flush(RunPut2(s, 13, |s|))| == CeilBytes(13 * |s|)
  {
    LenPrefix13_3(s);
    assert CeilBytes(13 * |s|) == 5;
  }

  lemma LenFinal13_4(s: seq<bv32>)
    requires |s| == 4
    ensures |Flush(RunPut2(s, 13, |s|))| == CeilBytes(13 * |s|)
  {
    LenPrefix13_4(s);
    assert CeilBytes(13 * |s|) == 7;
  }

  lemma LenFinal13_5(s: seq<bv32>)
    requires |s| == 5
    ensures |Flush(RunPut2(s, 13, |s|))| == CeilBytes(13 * |s|)
  {
    LenPrefix13_5(s);
    assert CeilBytes(13 * |s|) == 9;
  }

  lemma LenFinal13_6(s: seq<bv32>)
    requires |s| == 6
    ensures |Flush(RunPut2(s, 13, |s|))| == CeilBytes(13 * |s|)
  {
    LenPrefix13_6(s);
    assert CeilBytes(13 * |s|) == 10;
  }

  lemma LenFinal13_7(s: seq<bv32>)
    requires |s| == 7
    ensures |Flush(RunPut2(s, 13, |s|))| == CeilBytes(13 * |s|)
  {
    LenPrefix13_7(s);
    assert CeilBytes(13 * |s|) == 12;
  }

  /** Whatever the sample values, the packFinal writer emits CeilBytes(nb * w) bytes. */
  lemma Writer13Length(s: seq<bv32>)
    requires 1 <= |s| < 8
    ensures |Flush(RunPut2(s, 13, |s|))| == CeilBytes(13 * |s|)
  {
    if |s| == 1 { LenFinal13_1(s); } else if |s| == 2 { LenFinal13_2(s); } else if |s| == 3 { LenFinal13_3(s); } else if |s| == 4 { LenFinal13_4(s); } else if |s| == 5 { LenFinal13_5(s); } else if |s| == 6 { LenFinal13_6(s); } else { LenFinal13_7(s); }
  }

  lemma Step15_0(s: seq<bv32>, wr: Writer)
    requires |s| > 0 && Fits(s, 15)
    requires wr.remaining == 8 && wr.trailing == (StreamByte(s, 15, 0) as bv32) >> 8
    ensures Put2(wr, s[0], 15) == Writer((StreamByte(s, 15, 1) as bv32) >> 1, 1, wr.out + [StreamByte(s, 15, 0)])
  {}

  lemma Step15_1(s: seq<bv32>, wr: Writer)
    requires |s| > 1 && Fits(s, 15)
    requires wr.remaining == 1 && wr.trailing == (StreamByte(s, 15, 1) as bv32) >> 1
    ensures Put2(wr, s[1], 15) == Writer((StreamByte(s, 15, 3) as bv32) >> 2, 2, wr.out + [StreamByte(s, 15, 1)] + [StreamByte(s, 15, 2)])
  {}

  lemma Step15_2(s: seq<bv32>, wr: Writer)
    requires |s| > 2 && Fits(s, 15)
    requires wr.remaining == 2 && wr.trailing == (StreamByte(s, 15, 3) as bv32) >> 2
    ensures Put2(wr, s[2], 15) == Writer((StreamByte(s, 15, 5) as bv32) >> 3, 3, wr.out + [StreamByte(s, 15, 3)] + [StreamByte(s, 15, 4)])
  {}

  lemma Step15_3(s: seq<bv32>, wr: Writer)
    requires |s| > 3 && Fits(s, 15)
    requires wr.remaining == 3 && wr.trailing == (StreamByte(s, 15, 5) as bv32) >> 3
    ensures Put2(wr, s[3], 15) == Writer((StreamByte(s, 15, 7) as bv32) >> 4, 4, wr.out + [StreamByte(s, 15, 5)] + [StreamByte(s, 15, 6)])
  {}

  lemma Step15_4(s: seq<bv32>, wr: Writer)
    requires |s| > 4 && Fits(s, 15)
    requires wr.remaining == 4 && wr.trailing == (StreamByte(s, 15, 7) as bv32) >> 4
    ensures Put2(wr, s[4], 15) == Writer((StreamByte(s, 15, 9) as bv32) >> 5, 5, wr.out + [StreamByte(s, 15, 7)] + [StreamByte(s, 15, 8)])
  {}

  lemma Step15_5(s: seq<bv32>, wr: Writer)
    requires |s| > 5 && Fits(s, 15)
    requires wr.remaining == 5 && wr.trailing == (StreamByte(s, 15, 9) as bv32) >> 5
    ensures Put2(wr, s[5], 15) == Writer((StreamByte(s, 15, 11) as bv32) >> 6, 6, wr.out + [StreamByte(s, 15, 9)] + [StreamByte(s, 15, 10)])
  {}

  lemma Step15_6(s: seq<bv32>, wr: Writer)
    requires |s| > 6 && Fits(s, 15)
    requires wr.remaining == 6 && wr.trailing == (StreamByte(s, 15, 11) as bv32) >> 6
    ensures Put2(wr, s[6], 15) == Writer((StreamByte(s, 15, 13) as bv32) >> 7, 7, wr.out + [StreamByte(s, 15, 11)] + [StreamByte(s, 15, 12)])
  {}

  lemma Prefix15_0(s: seq<bv32>)
    requires |s| >= 0 && Fits(s, 15)
    ensures RunPut2(s, 15, 0).remaining == 8 && RunPut2(s, 15, 0).trailing == (StreamByte(s, 15, 0) as bv32) >> 8
    ensures RunPut2(s, 15, 0).out == StreamBytes(s, 15, 0)
  {}

  lemma Prefix15_1(s: seq<bv32>)
    requires |s| >= 1 && Fits(s, 15)
    ensures RunPut2(s, 15, 1).remaining == 1 && RunPut2(s, 15, 1).trailing == (StreamByte(s, 15, 1) as bv32) >> 1
    ensures RunPut2(s, 15, 1).out == StreamBytes(s, 15, 1)
  {
    Prefix15_0(s);
    Step15_0(s, RunPut2(s, 15, 0));
  }

  lemma Prefix15_2(s: seq<bv32>)
    requires |s| >= 2 && Fits(s, 15)
    ensures RunPut2(s, 15, 2).remaining == 2 && RunPut2(s, 15, 2).trailing == (StreamByte(s, 15, 3) as bv32) >> 2
    ensures RunPut2(s, 15, 2).out == StreamBytes(s, 15, 3)
  {
    Prefix15_1(s);
    Step15_1(s, RunPut2(s, 15, 1));
  }

  lemma Prefix15_3(s: seq<bv32>)
    requires |s| >= 3 && Fits(s, 15)
    ensures RunPut2(s, 15, 3).remaining == 3 && RunPut2(s, 15, 3).trailing == (StreamByte(s, 15, 5) as bv32) >> 3
    ensures RunPut2(s, 15, 3).out == StreamBytes(s, 15, 5)
  {
    Prefix15_2(s);
    Step15_2(s, RunPut2(s, 15, 2));
  }

  lemma Prefix15_4(s: seq<bv32>)
    requires |s| >= 4 && Fits(s, 15)
    ensures RunPut2(s, 15, 4).remaining == 4 && RunPut2(s, 15, 4).trailing == (StreamByte(s, 15, 7) as bv32) >> 4
    ensures RunPut2(s, 15, 4).out == StreamBytes(s, 15, 7)
  {
    Prefix15_3(s);
    Step15_3(s, RunPut2(s, 15, 3));
  }

  lemma Prefix15_5(s: seq<bv32>)
    requires |s| >= 5 && Fits(s, 15)
    ensures RunPut2(s, 15, 5).remaining == 5 && RunPut2(s, 15, 5).trailing == (StreamByte(s, 15, 9) as bv32) >> 5
    ensures RunPut2(s, 15, 5).out == StreamBytes(s, 15, 9)
  {
    Prefix15_4(s);
    Step15_4(s, RunPut2(s, 15, 4));
  }

  lemma Prefix15_6(s: seq<bv32>)
    requires |s| >= 6 && Fits(s, 15)
    ensures RunPut2(s, 15, 6).remaining == 6 && RunPut2(s, 15, 6).trailing == (StreamByte(s, 15, 11) as bv32) >> 6
    ensures RunPut2(s, 15, 6).out == StreamBytes(s, 15, 11)
  {
    Prefix15_5(s);
    Step15_5(s, RunPut2(s, 15, 5));
  }

  lemma Prefix15_7(s: seq<bv32>)
    requires |s| >= 7 && Fits(s, 15)
    ensures RunPut2(s, 15, 7).remaining == 7 && RunPut2(s, 15, 7).trailing == (StreamByte(s, 15, 13) as bv32) >> 7
    ensures RunPut2(s, 15, 7).out == StreamBytes(s, 15, 13)
  {
    Prefix15_6(s);
    Step15_6(s, RunPut2(s, 15, 6));
  }

  lemma Flush15_1(s: seq<bv32>, wr: Writer)
    requires |s| == 1 && Fits(s, 15)
    requires wr.remaining == 1 && wr.trailing == (StreamByte(s, 15, 1) as bv32) >> 1
    ensures Flush(wr) == wr.out + [StreamByte(s, 15, 1)]
  {}

  lemma Final15_1(s: seq<bv32>)
    requires |s| == 1 && Fits(s, 15)
    ensures Flush(RunPut2(s, 15, |s|)) == StreamBytes(s, 15, CeilBytes(15 * |s|))
  {
    Prefix15_1(s);
    Flush15_1(s, RunPut2(s, 15, 1));
    assert CeilBytes(15 * |s|) == 2;
  }

  lemma Flush15_2(s: seq<bv32>, wr: Writer)
    requires |s| == 2 && Fits(s, 15)
    requires wr.remaining == 2 && wr.trailing == (StreamByte(s, 15, 3) as bv32) >> 2
    ensures Flush(wr) == wr.out + [StreamByte(s, 15, 3)]
  {}

  lemma Final15_2(s: seq<bv32>)
    requires |s| == 2 && Fits(s, 15)
    ensures Flush(RunPut2(s, 15, |s|)) == StreamBytes(s, 15, CeilBytes(15 * |s|))
  {
    Prefix15_2(s);
    Flush15_2(s, RunPut2(s, 15, 2));
    assert CeilBytes(15 * |s|) == 4;
  }

  lemma Flush15_3(s: seq<bv32>, wr: Writer)
    requires |s| == 3 && Fits(s, 15)
    requires wr.remaining == 3 && wr.trailing == (StreamByte(s, 15, 5) as bv32) >> 3
    ensures Flush(wr) == wr.out + [StreamByte(s, 15, 5)]
  {}

  lemma Final15_3(s: seq<bv32>)
    requires |s| == 3 && Fits(s, 15)
    ensures Flush(RunPut2(s, 15, |s|)) == StreamBytes(s, 15, CeilBytes(15 * |s|))
  {
    Prefix15_3(s);
    Flush15_3(s, RunPut2(s, 15, 3));
    assert CeilBytes(15 * |s|) == 6;
  }

  lemma Flush15_4(s: seq<bv32>, wr: Writer)
    requires |s| == 4 && Fits(s, 15)
    requires wr.remaining == 4 && wr.trailing == (StreamByte(s, 15, 7) as bv32) >> 4
    ensures Flush(wr) == wr.out + [StreamByte(s, 15, 7)]
  {}

  lemma Final15_4(s: seq<bv32>)
    requires |s| == 4 && Fits(s, 15)
    ensures Flush(RunPut2(s, 15, |s|)) == StreamBytes(s, 15, CeilBytes(15 * |s|))
  {
    Prefix15_4(s);
    Flush15_4(s, RunPut2(s, 15, 4));
    assert CeilBytes(15 * |s|) == 8;
  }

  lemma Flush15_5(s: seq<bv32>, wr: Writer)
    requires |s| == 5 && Fits(s, 15)
    requires wr.remaining == 5 && wr.trailing == (StreamByte(s, 15, 9) as bv32) >> 5
    ensures Flush(wr) == wr.out + [StreamByte(s, 15, 9)]
  {}

  lemma Final15_5(s: seq<bv32>)
    requires |s| == 5 && Fits(s, 15)
    ensures Flush(RunPut2(s, 15, |s|)) == StreamBytes(s, 15, CeilBytes(15 * |s|))
  {
    Prefix15_5(s);
    Flush15_5(s, RunPut2(s, 15, 5));
    assert CeilBytes(15 * |s|) == 10;
  }

  lemma Flush15_6(s: seq<bv32>, wr: Writer)
    requires |s| == 6 && Fits(s, 15)
    requires wr.remaining == 6 && wr.trailing == (StreamByte(s, 15, 11) as bv32) >> 6
    ensures Flush(wr) == wr.out + [StreamByte(s, 15, 11)]
  {}

  lemma Final15_6(s: seq<bv32>)
    requires |s| == 6 && Fits(s, 15)
    ensures Flush(RunPut2(s, 15, |s|)) == StreamBytes(s, 15, CeilBytes(15 * |s|))
  {
    Prefix15_6(s);
    Flush15_6(s, RunPut2(s, 15, 6));
    assert CeilBytes(15 * |s|) == 12;
  }

  lemma Flush15_7(s: seq<bv32>, wr: Writer)
    requires |s| == 7 && Fits(s, 15)
    requires wr.remaining == 7 && wr.trailing == (StreamByte(s, 15, 13) as bv32) >> 7
    ensures Flush(wr) == wr.out + [StreamByte(s, 15, 13)]
  {}

  lemma Final15_7(s: seq<bv32>)
    requires |s| == 7 && Fits(s, 15)
    ensures Flush(RunPut2(s, 15, |s|)) == StreamBytes(s, 15, CeilBytes(15 * |s|))
  {
    Prefix15_7(s);
    Flush15_7(s, RunPut2(s, 15, 7));
    assert CeilBytes(15 * |s|) == 14;
  }

  lemma Writer15Stream(s: seq<bv32>)
    requires 1 <= |s| < 8 && Fits(s, 15)
    ensures Flush(RunPut2(s, 15, |s|)) == StreamBytes(s, 15, CeilBytes(15 * |s|))
  {
    if |s| == 1 { Final15_1(s); } else if |s| == 2 { Final15_2(s); } else if |s| == 3 { Final15_3(s); } else if |s| == 4 { Final15_4(s); } else if |s| == 5 { Final15_5(s); } else if |s| == 6 { Final15_6(s); } else { Final15_7(s); }
  }

  lemma LenStep15_0(wr: Writer, x: bv32)
    requires wr.remaining == 8
    ensures Put2(wr, x, 15).remaining == 1 && |Put2(wr, x, 15).out| == |wr.out| + 1
  {}

  lemma LenStep15_1(wr: Writer, x: bv32)
    requires wr.remaining == 1
    ensures Put2(wr, x, 15).remaining == 2 && |Put2(wr, x, 15).out| == |wr.out| + 2
  {}

  lemma LenStep15_2(wr: Writer, x: bv32)
    requires wr.remaining == 2
    ensures Put2(wr, x, 15).remaining == 3 && |Put2(wr, x, 15).out| == |wr.out| + 2
  {}

  lemma LenStep15_3(wr: Writer, x: bv32)
    requires wr.remaining == 3
    ensures Put2(wr, x, 15).remaining == 4 && |Put2(wr, x, 15).out| == |wr.out| + 2
  {}

  lemma LenStep15_4(wr: Writer, x: bv32)
    requires wr.remaining == 4
    ensures Put2(wr, x, 15).remaining == 5 && |Put2(wr, x, 15).out| == |wr.out| + 2
  {}

  lemma LenStep15_5(wr: Writer, x: bv32)
    requires wr.remaining == 5
    ensures Put2(wr, x, 15).remaining == 6 && |Put2(wr, x, 15).out| == |wr.out| + 2
  {}

  lemma LenStep15_6(wr: Writer, x: bv32)
    requires wr.remaining == 6
    ensures Put2(wr, x, 15).remaining == 7 && |Put2(wr, x, 15).out| == |wr.out| + 2
  {}

  lemma LenPrefix15_0(s: seq<bv32>)
    requires |s| >= 0
    ensures RunPut2(s, 15, 0).remaining == 8 && |RunPut2(s, 15, 0).out| == 0
  {}

  lemma LenPrefix15_1(s: seq<bv32>)
    requires |s| >= 1
    ensures RunPut2(s, 15, 1).remaining == 1 && |RunPut2(s, 15, 1).out| == 1
  {
    LenPrefix15_0(s);
    LenStep15_0(RunPut2(s, 15, 0), s[0]);
  }

  lemma LenPrefix15_2(s: seq<bv32>)
    requires |s| >= 2
    ensures RunPut2(s, 15, 2).remaining == 2 && |RunPut2(s, 15, 2).out| == 3
  {
    LenPrefix15_1(s);
    LenStep15_1(RunPut2(s, 15, 1), s[1]);
  }

  lemma LenPrefix15_3(s: seq<bv32>)
    requires |s| >= 3
    ensures RunPut2(s, 15, 3).remaining == 3 && |RunPut2(s, 15, 3).out| == 5
  {
    LenPrefix15_2(s);
    LenStep15_2(RunPut2(s, 15, 2), s[2]);
  }

  lemma LenPrefix15_4(s: seq<bv32>)
    requires |s| >= 4
    ensures RunPut2(s, 15, 4).remaining == 4 && |RunPut2(s, 15, 4).out| == 7
  {
    LenPrefix15_3(s);
    LenStep15_3(RunPut2(s, 15, 3), s[3]);
  }

  lemma LenPrefix15_5(s: seq<bv32>)
    requires |s| >= 5
    ensures RunPut2(s, 15, 5).remaining == 5 && |RunPut2(s, 15, 5).out| == 9
  {
    LenPrefix15_4(s);
    LenStep15_4(RunPut2(s, 15, 4), s[4]);
  }

  lemma LenPrefix15_6(s: seq<bv32>)
    requires |s| >= 6
    ensures RunPut2(s, 15, 6).remaining == 6 && |RunPut2(s, 15, 6).out| == 11
  {
    LenPrefix15_5(s);
    LenStep15_5(RunPut2(s, 15, 5), s[5]);
  }

  lemma LenPrefix15_7(s: seq<bv32>)
    requires |s| >= 7
    ensures RunPut2(s, 15, 7).remaining == 7 && |RunPut2(s, 15, 7).out| == 13
  {
    LenPrefix15_6(s);
    LenStep15_6(RunPut2(s, 15, 6), s[6]);
  }

  lemma LenFinal15_1(s: seq<bv32>)
    requires |s| == 1
    ensures |Flush(RunPut2(s, 15, |s|))| == CeilBytes(15 * |s|)
  {
    LenPrefix15_1(s);
    assert CeilBytes(15 * |s|) == 2;
  }

  lemma LenFinal15_2(s: seq<bv32>)
    requires |s| == 2
    ensures |Flush(RunPut2(s, 15, |s|))| == CeilBytes(15 * |s|)
  {
    LenPrefix15_2(s);
    assert CeilBytes(15 * |s|) == 4;
  }

  lemma LenFinal15_3(s: seq<bv32>)
    requires |s| == 3
    ensures |Flush(RunPut2(s, 15, |s|))| == CeilBytes(15 * |s|)
  {
    LenPrefix15_3(s);
    assert CeilBytes(15 * |s|) == 6;
  }

  lemma LenFinal15_4(s: seq<bv32>)
    requires |s| == 4
    ensures |Flush(RunPut2(s, 15, |s|))| == CeilBytes(15 * |s|)
  {
    LenPrefix15_4(s);
    assert CeilBytes(15 * |s|) == 8;
  }

  lemma LenFinal15_5(s: seq<bv32>)
    requires |s| == 5
    ensures |Flush(RunPut2(s, 15, |s|))| == CeilBytes(15 * |s|)
  {
    LenPrefix15_5(s);
    assert CeilBytes(15 * |s|) == 10;
  }

  lemma LenFinal15_6(s: seq<bv32>)
    requires |s| == 6
    ensures |Flush(RunPut2(s, 15, |s|))| == CeilBytes(15 * |s|)
  {
    LenPrefix15_6(s);
    assert CeilBytes(15 * |s|) == 12;
  }

  lemma LenFinal15_7(s: seq<bv32>)
    requires |s| == 7
    ensures |Flush(RunPut2(s, 15, |s|))| == CeilBytes(15 * |s|)
  {
    LenPrefix15_7(s);
    assert CeilBytes(15 * |s|) == 14;
  }

  /** Whatever the sample values, the packFinal writer emits CeilBytes(nb * w) bytes. */
  lemma Writer15Length(s: seq<bv32>)
    requires 1 <= |s| < 8
    ensures |Flush(RunPut2(s, 15, |s|))| == CeilBytes(15 * |s|)
  {
    if |s| == 1 { LenFinal15_1(s); } else if |s| == 2 { LenFinal15_2(s); } else if |s| == 3 { LenFinal15_3(s); } else if |s| == 4 { LenFinal15_4(s); } else if |s| == 5 { LenFinal15_5(s); } else if |s| == 6 { LenFinal15_6(s); } else { LenFinal15_7(s); }
  }
}
