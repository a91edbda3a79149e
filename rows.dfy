/*
 * The row and image loops of PlanarToInterleaved::interleave and of its
 * Pack8 and Pack16 specialisations (src/bin/common/convert.h:557-650),
 * for a packer p whose pack() is the function f on chunks of SrcChk(p)
 * samples and whose packFinal() is the function g on the samples left at
 * the end of a row. Output row i starts i * destStride bytes into the
 * destination; after each row every plane pointer moves on by srcStride.
 */
module Rows {

  import opened Arith
  import opened Bits
  import opened Buffers
  import opened Chunks
  import opened Samples
  import opened Staging
  import opened PackerKinds

  /** The size of the staging buffer is 2 * maxNumComponents samples. */
  const MaxNumComponents: nat := 10

  /**
   * The packers whose interleave() goes through the staging buffer: all
   * but Pack8 and Pack16, which have specialisations that store every
   * sample straight into the destination.
   */
  predicate Staged(p: Packer)
  {
    p != Pack8 && p != Pack16
  }

  /** (uint8_t)x: the byte the Pack8 specialisation stores for a sample. */
  function Store8(x: bv32): seq<bv8>
  {
    [Lo8(x)]
  }

  /** (uint16_t)x stored as a uint16_t: the two bytes the Pack16 specialisation stores, low byte first. */
  function Store16(x: bv32): seq<bv8>
  {
    [Lo8(x), Lo8(x >> 8)]
  }

  /** The output rows for the first h rows of the planes. */
  function OutRows(c: nat, f: seq<bv32> -> seq<bv8>, g: seq<bv32> -> seq<bv8>, vals: seq<seq<I32>>, at: seq<nat>,
                   w: nat, srcStride: nat, h: nat, adjust: I32): (r: seq<seq<bv8>>)
    requires c >= 1 && PlanesFit(vals, at, w, srcStride, h)
    ensures |r| == h
  {
    if h == 0 then []
    else
      RowHolds(vals, at, w, srcStride, h, h - 1);
      OutRows(c, f, g, vals, at, w, srcStride, h - 1, adjust)
        + [Row(c, f, g, RowSamples(vals, RowOffsets(at, srcStride, h - 1), w, adjust))]
  }

  /** Output row i holds the samples of row i of the planes. */
  lemma {:induction false} OutRowsAt(c: nat, f: seq<bv32> -> seq<bv8>, g: seq<bv32> -> seq<bv8>, vals: seq<seq<I32>>,
                                     at: seq<nat>, w: nat, srcStride: nat, h: nat, adjust: I32, i: nat)
    requires c >= 1 && PlanesFit(vals, at, w, srcStride, h) && i < h
    ensures PlanesHold(vals, RowOffsets(at, srcStride, i), w)
    ensures OutRows(c, f, g, vals, at, w, srcStride, h, adjust)[i]
         == Row(c, f, g, RowSamples(vals, RowOffsets(at, srcStride, i), w, adjust))
  {
    RowHolds(vals, at, w, srcStride, h, i);
    if i < h - 1 {
      assert PlanesFit(vals, at, w, srcStride, h - 1);
      OutRowsAt(c, f, g, vals, at, w, srcStride, h - 1, adjust, i);
    }
  }

  /** A row whose samples leave rest over is its chunks followed by g(rest). */
  lemma RowThen(c: nat, f: seq<bv32> -> seq<bv8>, g: seq<bv32> -> seq<bv8>, s: seq<bv32>, rest: seq<bv32>)
    requires c >= 1 && rest == Leftover(c, s)
    ensures Row(c, f, g, s) == Chunked(c, f, s) + (if |rest| == 0 then [] else g(rest))
  {
  }

  /**
   * One row of the generic interleave(): the samples are staged and packed
   * chunk by chunk with f, then packFinal() stores g of the samples still
   * staged, if any.
   */
  method InterleaveRow(p: Packer, f: seq<bv32> -> seq<bv8>, g: seq<bv32> -> seq<bv8>, planes: seq<seq<I32>>,
                       at: seq<nat>, w: nat, adjust: I32, srcBuf: array<bv32>, dest: array<bv8>, ptr: nat)
    requires |planes| <= MaxNumComponents && srcBuf.Length == 2 * MaxNumComponents
    requires PlanesHold(planes, at, w)
    requires ptr + |Row(SrcChk(p), f, g, RowSamples(planes, at, w, adjust))| <= dest.Length
    modifies srcBuf, dest
    ensures Written(dest[..], old(dest[..]), ptr, Row(SrcChk(p), f, g, RowSamples(planes, at, w, adjust)))
  {
    ghost var d0 := dest[..];
    ghost var s := RowSamples(planes, at, w, adjust);
    var c := SrcChk(p);
    var srcOff, ptr';
    srcOff, ptr' := StageRow(c, f, planes, at, w, adjust, srcBuf, dest, ptr);
    ghost var rest := srcBuf[..srcOff];
    ghost var chunks := Chunked(c, f, s);
    RowThen(c, f, g, s, rest);
    if srcOff > 0 {
      ghost var d1 := dest[..];
      var bytes := g(srcBuf[..srcOff]);
      ptr' := Store(dest, ptr', bytes);
      WrittenThen(d0, ptr, chunks, bytes, d1, dest[..]);
    } else {
      assert chunks + [] == chunks;
    }
  }

  /** With one sample per chunk nothing is ever left for packFinal(). */
  lemma RowUnit(f: seq<bv32> -> seq<bv8>, g: seq<bv32> -> seq<bv8>, s: seq<bv32>)
    ensures Row(1, f, g, s) == Chunked(1, f, s)
  {
    if |s| > 0 {
      ChunkedUnit(f, s[..|s| - 1], s[|s| - 1]);
      assert s[..|s| - 1] + [s[|s| - 1]] == s;
    }
    assert Row(1, f, g, s) == Chunked(1, f, s) + [];
  }

  /**
   * Where byte t of sample k of pixel j lands within a row whose pixels
   * hold n samples of b bytes each.
   */
  function SamplePos(n: nat, j: nat, k: nat, b: nat, t: nat): nat
  {
    PixelPos(n, j, k) * b + t
  }

  /**
   * When every sample is its own chunk of b bytes, byte t of sample k of
   * pixel j in output row i is byte t of what f stores for that sample.
   */
  lemma OutRowsUnitAt(f: seq<bv32> -> seq<bv8>, g: seq<bv32> -> seq<bv8>, b: nat, vals: seq<seq<I32>>,
                      at: seq<nat>, w: nat, srcStride: nat, h: nat, adjust: I32, i: nat, j: nat, k: nat, t: nat)
    requires forall x :: |f([x])| == b
    requires PlanesFit(vals, at, w, srcStride, h)
    requires i < h && j < w && k < |vals| && t < b
    ensures |f([Adjusted(PlaneSample(vals, at, w, srcStride, h, i, j, k), adjust)])| == b
    ensures SamplePos(|vals|, j, k, b, t) < |OutRows(1, f, g, vals, at, w, srcStride, h, adjust)[i]|
    ensures OutRows(1, f, g, vals, at, w, srcStride, h, adjust)[i][SamplePos(|vals|, j, k, b, t)]
         == f([Adjusted(PlaneSample(vals, at, w, srcStride, h, i, j, k), adjust)])[t]
  {
    OutRowsUnit(f, g, vals, at, w, srcStride, h, adjust, i);
    RowSampleOf(vals, at, w, srcStride, h, adjust, i, j, k);
    var r := RowSamples(vals, RowOffsets(at, srcStride, i), w, adjust);
    var m := PixelPos(|vals|, j, k);
    ChunkedUnitAt(f, b, r, m, t);
    assert SamplePos(|vals|, j, k, b, t) == m * b + t;
  }

  /**
   * The same byte, once the output rows are painted into the destination
   * rows destStride bytes apart.
   */
  lemma PaintedUnitAt(f: seq<bv32> -> seq<bv8>, g: seq<bv32> -> seq<bv8>, b: nat, vals: seq<seq<I32>>,
                      at: seq<nat>, w: nat, srcStride: nat, h: nat, adjust: I32, d0: seq<bv8>, d: seq<bv8>,
                      destStride: nat, i: nat, j: nat, k: nat, t: nat)
    requires forall x :: |f([x])| == b
    requires PlanesFit(vals, at, w, srcStride, h)
    requires Painted(d, d0, 0, destStride, OutRows(1, f, g, vals, at, w, srcStride, h, adjust))
    requires forall r :: 0 <= r < h ==> |OutRows(1, f, g, vals, at, w, srcStride, h, adjust)[r]| <= destStride
    requires i < h && j < w && k < |vals| && t < b
    ensures var pos := RowStart(0, destStride, i) + SamplePos(|vals|, j, k, b, t);
            pos < |d| && d[pos] == f([Adjusted(PlaneSample(vals, at, w, srcStride, h, i, j, k), adjust)])[t]
  {
    OutRowsUnitAt(f, g, b, vals, at, w, srcStride, h, adjust, i, j, k, t);
    PaintInside(d0, 0, destStride, OutRows(1, f, g, vals, at, w, srcStride, h, adjust), i, SamplePos(|vals|, j, k, b, t));
  }

  /** With one sample per chunk, output row i is its samples packed one by one. */
  lemma OutRowsUnit(f: seq<bv32> -> seq<bv8>, g: seq<bv32> -> seq<bv8>, vals: seq<seq<I32>>,
                    at: seq<nat>, w: nat, srcStride: nat, h: nat, adjust: I32, i: nat)
    requires PlanesFit(vals, at, w, srcStride, h) && i < h
    ensures PlanesHold(vals, RowOffsets(at, srcStride, i), w)
    ensures OutRows(1, f, g, vals, at, w, srcStride, h, adjust)[i]
         == Chunked(1, f, RowSamples(vals, RowOffsets(at, srcStride, i), w, adjust))
  {
    OutRowsAt(1, f, g, vals, at, w, srcStride, h, adjust, i);
    RowUnit(f, g, RowSamples(vals, RowOffsets(at, srcStride, i), w, adjust));
  }


  /**
   * One output row, as the interleaver chosen for p writes it: the Pack8
   * specialisation stores (uint8_t) of every sample, the Pack16 one stores
   * every sample as a uint16_t (low byte first), and every other packer
   * goes through the staging buffer.
   */
  method WriteRow(p: Packer, f: seq<bv32> -> seq<bv8>, g: seq<bv32> -> seq<bv8>, planes: seq<seq<I32>>,
                  at: seq<nat>, w: nat, adjust: I32, srcBuf: array<bv32>, dest: array<bv8>, ptr: nat)
    requires p == Pack8 ==> forall x :: f([x]) == Store8(x)
    requires p == Pack16 ==> forall x :: f([x]) == Store16(x)
    requires Staged(p) ==> |planes| <= MaxNumComponents
    requires srcBuf.Length == 2 * MaxNumComponents
    requires PlanesHold(planes, at, w)
    requires ptr + |Row(SrcChk(p), f, g, RowSamples(planes, at, w, adjust))| <= dest.Length
    modifies srcBuf, dest
    ensures Written(dest[..], old(dest[..]), ptr, Row(SrcChk(p), f, g, RowSamples(planes, at, w, adjust)))
  {
    if p == Pack8 {
      RowUnit(f, g, RowSamples(planes, at, w, adjust));
      var _ := UnitRow(f, Store8, planes, at, w, adjust, dest, ptr);
    } else if p == Pack16 {
      RowUnit(f, g, RowSamples(planes, at, w, adjust));
      var _ := UnitRow(f, Store16, planes, at, w, adjust, dest, ptr);
    } else {
      InterleaveRow(p, f, g, planes, at, w, adjust, srcBuf, dest, ptr);
    }
  }

  /** for (k = 0; k < numPlanes; ++k) src[k] += srcStride: every plane pointer moves on one row. */
  method Advance(offs: array<nat>, srcStride: nat)
    modifies offs
    ensures offs[..] == RowOffsets(old(offs[..]), srcStride, 1)
  {
    var at := offs[..];
    var k := 0;
    while k < offs.Length
      invariant 0 <= k <= offs.Length
      invariant forall m :: 0 <= m < k ==> offs[m] == at[m] + srcStride
      invariant forall m :: k <= m < offs.Length ==> offs[m] == at[m]
    {
      offs[k] := offs[k] + srcStride;
      k := k + 1;
    }
  }

  /** Moving on one row from row i reaches row i + 1. */
  lemma OffsetsNext(at: seq<nat>, srcStride: nat, i: nat)
    ensures RowOffsets(RowOffsets(at, srcStride, i), srcStride, 1) == RowOffsets(at, srcStride, i + 1)
  {
    forall k | 0 <= k < |at|
      ensures RowOffsets(RowOffsets(at, srcStride, i), srcStride, 1)[k] == RowOffsets(at, srcStride, i + 1)[k]
    {
      MulSucc(i, srcStride);
    }
  }

  /** The first i of h rows are the output rows for i rows. */
  lemma PlanesFitPrefix(vals: seq<seq<I32>>, at: seq<nat>, w: nat, srcStride: nat, h: nat, i: nat)
    requires PlanesFit(vals, at, w, srcStride, h) && i <= h
    ensures PlanesFit(vals, at, w, srcStride, i)
  {
  }

  /** One more row appends its output row to OutRows. */
  lemma OutRowsNext(c: nat, f: seq<bv32> -> seq<bv8>, g: seq<bv32> -> seq<bv8>, vals: seq<seq<I32>>, at: seq<nat>,
                    w: nat, srcStride: nat, i: nat, adjust: I32)
    requires c >= 1 && PlanesFit(vals, at, w, srcStride, i + 1)
    ensures PlanesFit(vals, at, w, srcStride, i) && PlanesHold(vals, RowOffsets(at, srcStride, i), w)
    ensures OutRows(c, f, g, vals, at, w, srcStride, i + 1, adjust)
         == OutRows(c, f, g, vals, at, w, srcStride, i, adjust)
            + [Row(c, f, g, RowSamples(vals, RowOffsets(at, srcStride, i), w, adjust))]
  {
    RowHolds(vals, at, w, srcStride, i + 1, i);
  }

  /** What the image loop needs to move from row i to row i + 1. */
  lemma RowsStep(c: nat, f: seq<bv32> -> seq<bv8>, g: seq<bv32> -> seq<bv8>, vals: seq<seq<I32>>, at: seq<nat>,
                 w: nat, srcStride: nat, h: nat, adjust: I32, i: nat, len: nat, destStride: nat)
    requires c >= 1 && PlanesFit(vals, at, w, srcStride, h) && i < h
    requires RowsFit(len, 0, destStride, OutRows(c, f, g, vals, at, w, srcStride, h, adjust))
    ensures PlanesFit(vals, at, w, srcStride, i + 1) && PlanesHold(vals, RowOffsets(at, srcStride, i), w)
    ensures OutRows(c, f, g, vals, at, w, srcStride, i + 1, adjust)
         == OutRows(c, f, g, vals, at, w, srcStride, i, adjust)
            + [Row(c, f, g, RowSamples(vals, RowOffsets(at, srcStride, i), w, adjust))]
    ensures RowStart(0, destStride, i) + |Row(c, f, g, RowSamples(vals, RowOffsets(at, srcStride, i), w, adjust))| <= len
    ensures RowOffsets(RowOffsets(at, srcStride, i), srcStride, 1) == RowOffsets(at, srcStride, i + 1)
    ensures RowStart(0, destStride, i + 1) == RowStart(0, destStride, i) + destStride
  {
    OutRowsAt(c, f, g, vals, at, w, srcStride, h, adjust, i);
    PlanesFitPrefix(vals, at, w, srcStride, h, i + 1);
    OutRowsNext(c, f, g, vals, at, w, srcStride, i, adjust);
    OffsetsNext(at, srcStride, i);
    MulSucc(i, destStride);
  }

  /**
   * One row of the image loop: row i is written from the row pointer,
   * after the rows before it.
   */
  method NextRow(p: Packer, f: seq<bv32> -> seq<bv8>, g: seq<bv32> -> seq<bv8>, planes: seq<seq<I32>>,
                 at: seq<nat>, dest: array<bv8>, w: nat, destStride: nat, adjust: I32, srcBuf: array<bv32>,
                 rowStart: nat, ghost d0: seq<bv8>, ghost rows: seq<seq<bv8>>)
    requires p == Pack8 ==> forall x :: f([x]) == Store8(x)
    requires p == Pack16 ==> forall x :: f([x]) == Store16(x)
    requires Staged(p) ==> |planes| <= MaxNumComponents
    requires srcBuf.Length == 2 * MaxNumComponents && PlanesHold(planes, at, w)
    requires rowStart == RowStart(0, destStride, |rows|) && Painted(dest[..], d0, 0, destStride, rows)
    requires rowStart + |Row(SrcChk(p), f, g, RowSamples(planes, at, w, adjust))| <= dest.Length
    modifies dest, srcBuf
    ensures Painted(dest[..], d0, 0, destStride, rows + [Row(SrcChk(p), f, g, RowSamples(planes, at, w, adjust))])
  {
    ghost var d1 := dest[..];
    WriteRow(p, f, g, planes, at, w, adjust, srcBuf, dest, rowStart);
    PaintedNext(d0, 0, destStride, rows, Row(SrcChk(p), f, g, RowSamples(planes, at, w, adjust)), d1, dest[..]);
  }

  /**
   * interleave() for packer p: row i of the output, stored from
   * i * destStride, is Row of the samples of row i of the planes; the plane
   * pointers end up h rows on.
   */
  method InterleaveRows(p: Packer, f: seq<bv32> -> seq<bv8>, g: seq<bv32> -> seq<bv8>, planes: seq<seq<I32>>,
                        offs: array<nat>, dest: array<bv8>, w: nat, srcStride: nat, destStride: nat, h: nat,
                        adjust: I32)
    requires p == Pack8 ==> forall x :: f([x]) == Store8(x)
    requires p == Pack16 ==> forall x :: f([x]) == Store16(x)
    requires Staged(p) ==> |planes| <= MaxNumComponents
    requires offs.Length == |planes| && PlanesFit(planes, offs[..], w, srcStride, h)
    requires offs as object != dest as object
    requires RowsFit(dest.Length, 0, destStride, OutRows(SrcChk(p), f, g, planes, offs[..], w, srcStride, h, adjust))
    modifies offs, dest
    ensures offs[..] == RowOffsets(old(offs[..]), srcStride, h)
    ensures Painted(dest[..], old(dest[..]), 0, destStride,
                    OutRows(SrcChk(p), f, g, planes, old(offs[..]), w, srcStride, h, adjust))
  {
    ghost var at0 := offs[..];
    ghost var d0 := dest[..];
    ghost var c := SrcChk(p);
    var srcBuf := new bv32[2 * MaxNumComponents];
    var rowStart := 0;
    var i := 0;
    while i < h
      invariant i <= h && PlanesFit(planes, at0, w, srcStride, i)
      invariant offs[..] == RowOffsets(at0, srcStride, i)
      invariant rowStart == RowStart(0, destStride, i)
      invariant Painted(dest[..], d0, 0, destStride, OutRows(c, f, g, planes, at0, w, srcStride, i, adjust))
    {
      RowsStep(c, f, g, planes, at0, w, srcStride, h, adjust, i, dest.Length, destStride);
      ghost var rows := OutRows(c, f, g, planes, at0, w, srcStride, i, adjust);
      var at := offs[..];
      NextRow(p, f, g, planes, at, dest, w, destStride, adjust, srcBuf, rowStart, d0, rows);
      assert offs[..] == at;
      Advance(offs, srcStride);
      rowStart := rowStart + destStride;
      i := i + 1;
    }
  }
}
