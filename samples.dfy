/*
 * The samples interleave() (src/bin/common/convert.h:562-598) reads from
 * the planes: one row at a time, pixel by pixel and, within a pixel, plane
 * by plane, each offset by `adjust`. A plane is the sequence of its
 * samples and a plane pointer is an offset into it.
 */
module Samples {

  import opened Arith
  import opened Bits
  import opened Buffers

  /** The staged sample: (int32_t)(x + adjust), seen as the uint32_t every packer casts it to. */
  function Adjusted(x: I32, adjust: I32): bv32
  {
    ToU32(Wrap(x + adjust))
  }

  /*
   * The samples of one row, read from the planes: pixel by pixel and,
   * within a pixel, plane by plane.
   */

  /** Every plane holds w samples from its offset on. */
  predicate PlanesHold(vals: seq<seq<I32>>, at: seq<nat>, w: nat)
  {
    |at| == |vals| && forall k :: 0 <= k < |vals| ==> at[k] + w <= |vals[k]|
  }

  /** The staged samples of pixel j: srcBuf[k] = src[k][j] + adjust. */
  function PixelSamples(vals: seq<seq<I32>>, at: seq<nat>, j: nat, adjust: I32): seq<bv32>
    requires PlanesHold(vals, at, j + 1)
  {
    seq(|vals|, k requires 0 <= k < |vals| => Adjusted(vals[k][at[k] + j], adjust))
  }

  /** The samples of the first w pixels of a row. */
  function RowSamples(vals: seq<seq<I32>>, at: seq<nat>, w: nat, adjust: I32): (r: seq<bv32>)
    requires PlanesHold(vals, at, w)
    ensures |r| == w * |vals|
  {
    if w == 0 then [] else RowSamples(vals, at, w - 1, adjust) + PixelSamples(vals, at, w - 1, adjust)
  }

  /**
   * Pixel-major, plane-minor order: sample k of pixel j is sample j * n + k
   * of the row, for n planes.
   */
  lemma {:induction false} RowSampleAt(vals: seq<seq<I32>>, at: seq<nat>, w: nat, adjust: I32, j: nat, k: nat)
    requires PlanesHold(vals, at, w) && j < w && k < |vals|
    ensures PixelPos(|vals|, j, k) < |RowSamples(vals, at, w, adjust)|
    ensures RowSamples(vals, at, w, adjust)[PixelPos(|vals|, j, k)] == Adjusted(vals[k][at[k] + j], adjust)
  {
    var n := |vals|;
    var front := RowSamples(vals, at, w - 1, adjust);
    assert RowSamples(vals, at, w, adjust) == front + PixelSamples(vals, at, w - 1, adjust);
    MulSucc(w - 1, n);
    if j < w - 1 {
      RowSampleAt(vals, at, w - 1, adjust, j, k);
    } else {
      assert PixelPos(n, j, k) == |front| + k;
    }
  }

  /** The samples of the first j pixels begin the samples of the first w. */
  lemma {:induction false} RowSamplesPrefix(vals: seq<seq<I32>>, at: seq<nat>, j: nat, w: nat, adjust: I32)
    requires PlanesHold(vals, at, w) && j <= w
    ensures RowSamples(vals, at, w, adjust)[..|RowSamples(vals, at, j, adjust)|] == RowSamples(vals, at, j, adjust)
    decreases w
  {
    if j < w {
      RowSamplesPrefix(vals, at, j, w - 1, adjust);
      MulMono(j, w - 1, |vals|);
      var a := RowSamples(vals, at, w - 1, adjust);
      assert RowSamples(vals, at, w, adjust)[..|a|] == a;
    }
  }

  /** The plane pointers after i rows: src[k] has moved on by i * srcStride. */
  function RowOffsets(at: seq<nat>, srcStride: nat, i: nat): (r: seq<nat>)
    ensures |r| == |at| && forall k :: 0 <= k < |at| ==> r[k] == RowStart(at[k], srcStride, i)
  {
    seq(|at|, k requires 0 <= k < |at| => RowStart(at[k], srcStride, i))
  }

  /** Every plane holds the h rows of w samples, srcStride apart. */
  predicate PlanesFit(vals: seq<seq<I32>>, at: seq<nat>, w: nat, srcStride: nat, h: nat)
  {
    |at| == |vals| &&
    forall k, i :: 0 <= k < |vals| && 0 <= i < h ==> RowStart(at[k], srcStride, i) + w <= |vals[k]|
  }

  /** Sample j of row i of plane k. */
  function PlaneSample(vals: seq<seq<I32>>, at: seq<nat>, w: nat, srcStride: nat, h: nat, i: nat, j: nat, k: nat): I32
    requires PlanesFit(vals, at, w, srcStride, h)
    requires i < h && j < w && k < |vals|
  {
    vals[k][RowStart(at[k], srcStride, i) + j]
  }

  /** Where sample k of pixel j sits among the samples of a row of n planes. */
  function PixelPos(n: nat, j: nat, k: nat): nat
  {
    j * n + k
  }

  /** Sample k of pixel j of row i, among the samples of row i. */
  lemma RowSampleOf(vals: seq<seq<I32>>, at: seq<nat>, w: nat, srcStride: nat, h: nat, adjust: I32,
                    i: nat, j: nat, k: nat)
    requires PlanesFit(vals, at, w, srcStride, h)
    requires i < h && j < w && k < |vals|
    ensures PlanesHold(vals, RowOffsets(at, srcStride, i), w)
    ensures PixelPos(|vals|, j, k) < |RowSamples(vals, RowOffsets(at, srcStride, i), w, adjust)|
    ensures RowSamples(vals, RowOffsets(at, srcStride, i), w, adjust)[PixelPos(|vals|, j, k)]
         == Adjusted(PlaneSample(vals, at, w, srcStride, h, i, j, k), adjust)
  {
    RowHolds(vals, at, w, srcStride, h, i);
    RowSampleAt(vals, RowOffsets(at, srcStride, i), w, adjust, j, k);
  }

  /** Row i of the planes, once every plane pointer has moved on i times. */
  lemma RowHolds(vals: seq<seq<I32>>, at: seq<nat>, w: nat, srcStride: nat, h: nat, i: nat)
    requires PlanesFit(vals, at, w, srcStride, h) && i < h
    ensures PlanesHold(vals, RowOffsets(at, srcStride, i), w)
  {
  }

  /*
   * One row through the staging buffer srcBuf.
   */

  /**
   * for k < numPlanes: srcBuf[srcOff + k] = src[k][j] + adjust, where src[k]
   * points at sample at[k] of plane k.
   */
  method StagePixel(planes: seq<seq<I32>>, at: seq<nat>, j: nat, adjust: I32, srcBuf: array<bv32>, srcOff: nat)
    returns (srcOff': nat)
    requires PlanesHold(planes, at, j + 1)
    requires srcOff + |planes| <= srcBuf.Length
    modifies srcBuf
    ensures srcOff' == srcOff + |planes|
    ensures srcBuf[..srcOff'] == old(srcBuf[..srcOff]) + PixelSamples(planes, at, j, adjust)
  {
    ghost var px := PixelSamples(planes, at, j, adjust);
    ghost var b0 := srcBuf[..srcOff];
    var k := 0;
    while k < |planes|
      invariant 0 <= k <= |planes|
      invariant srcBuf[..srcOff + k] == b0 + px[..k]
    {
      srcBuf[srcOff + k] := Adjusted(planes[k][at[k] + j], adjust);
      assert srcBuf[..srcOff + k + 1] == srcBuf[..srcOff + k] + [px[k]];
      assert px[..k + 1] == px[..k] + [px[k]];
      k := k + 1;
    }
    assert px[..k] == px;
    srcOff' := srcOff + |planes|;
  }

}
