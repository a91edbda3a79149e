/*
 * PlanarToInterleaved::interleave and InterleaverFactory::makeInterleaver
 * (src/bin/common/convert.h:557-713) for a given packer: the row loops of
 * Rows run with pack() and packFinal() of that packer. Each row of the
 * output is the row's samples taken pixel by pixel, plane by plane,
 * offset by `adjust` and then packed: whole chunks of SrcChk samples by
 * pack(), the samples left at the end of the row by packFinal().
 */
module Interleave {

  import opened Arith
  import opened Bits
  import opened Streams
  import opened Buffers
  import opened Chunks
  import opened PackerKinds
  import opened Packers
  import opened Samples
  import opened Rows
  import opened PackStreams

  /** pack() as a function on chunks: PackBytes on a chunk of SrcChk(p) samples. */
  function PackFn(p: Packer): seq<bv32> -> seq<bv8>
  {
    (s: seq<bv32>) => if |s| == SrcChk(p) then PackBytes(p, s) else []
  }

  /** packFinal() as a function on the samples left at the end of a row. */
  function FinalFn(p: Packer): seq<bv32> -> seq<bv8>
  {
    (s: seq<bv32>) => if 1 <= |s| < SrcChk(p) then PackFinalBytes(p, s) else []
  }

  /** The bytes of one output row holding the samples s. */
  function RowOut(p: Packer, s: seq<bv32>): seq<bv8>
  {
    Row(SrcChk(p), PackFn(p), FinalFn(p), s)
  }

  /** The output rows interleave() writes for the first h rows of the planes. */
  function Output(p: Packer, vals: seq<seq<I32>>, at: seq<nat>, w: nat, srcStride: nat, h: nat, adjust: I32)
    : (r: seq<seq<bv8>>)
    requires PlanesFit(vals, at, w, srcStride, h)
    ensures |r| == h
  {
    OutRows(SrcChk(p), PackFn(p), FinalFn(p), vals, at, w, srcStride, h, adjust)
  }

  /** Every chunk fills whole bytes: SrcChk(p) samples of N bits are ChunkBytes(p) bytes. */
  lemma ChunkBits(p: Packer)
    ensures SrcChk(p) * Precision(p) as nat == 8 * ChunkBytes(p)
  {
  }

  /** pack() on one chunk is PackBytes. */
  lemma PackFnApply(p: Packer, s: seq<bv32>)
    requires |s| == SrcChk(p)
    ensures PackFn(p)(s) == PackBytes(p, s)
  {
  }

  /** pack() writes ChunkBytes(p) bytes per chunk. */
  lemma PackFnLength(p: Packer)
    ensures forall t :: |t| == SrcChk(p) ==> |PackFn(p)(t)| == ChunkBytes(p)
  {
  }

  /** packFinal() writes ceil(w * N / 8) bytes for w leftover samples. */
  lemma FinalFnLength(p: Packer)
    ensures forall t :: 1 <= |t| < SrcChk(p) ==> |FinalFn(p)(t)| == CeilBytes(Precision(p) as nat * |t|)
  {
  }

  /** packFinal() on the leftover samples is PackFinalBytes. */
  lemma FinalFnApply(p: Packer, s: seq<bv32>)
    requires 1 <= |s| < SrcChk(p)
    ensures FinalFn(p)(s) == PackFinalBytes(p, s)
  {
  }

  /** A row of m samples takes ceil(m * N / 8) bytes. */
  lemma RowOutLength(p: Packer, s: seq<bv32>)
    ensures |RowOut(p, s)| == CeilBytes(Precision(p) as nat * |s|)
  {
    PackFnLength(p);
    FinalFnLength(p);
    ChunkBits(p);
    RowLength(SrcChk(p), PackFn(p), FinalFn(p), ChunkBytes(p), Precision(p) as nat, s);
  }

  /** The Pack8 specialisation stores what Pack8::pack would: (uint8_t) of the sample. */
  lemma Pack8Unit()
    ensures forall x :: PackFn(Pack8)([x]) == Store8(x)
  {
  }

  /** The Pack16 specialisation stores what Pack16::pack would: the sample's uint16_t. */
  lemma Pack16Unit()
    ensures forall x :: PackFn(Pack16)([x]) == Store16(x)
  {
  }

  /** The bytes of a row of w pixels of n samples each. */
  function RowBytes(p: Packer, w: nat, n: nat): nat
  {
    CeilBytes(Precision(p) as nat * (w * n))
  }

  /** Every output row is RowBytes long. */
  lemma OutputLength(p: Packer, vals: seq<seq<I32>>, at: seq<nat>, w: nat, srcStride: nat, h: nat, adjust: I32)
    requires PlanesFit(vals, at, w, srcStride, h)
    ensures forall i :: 0 <= i < h ==> |Output(p, vals, at, w, srcStride, h, adjust)[i]| == RowBytes(p, w, |vals|)
  {
    forall i | 0 <= i < h ensures |Output(p, vals, at, w, srcStride, h, adjust)[i]| == RowBytes(p, w, |vals|) {
      OutRowsAt(SrcChk(p), PackFn(p), FinalFn(p), vals, at, w, srcStride, h, adjust, i);
      RowOutLength(p, RowSamples(vals, RowOffsets(at, srcStride, i), w, adjust));
    }
  }

  /** Every one of the h output rows fits in the destination. */
  predicate DestFits(len: nat, destStride: nat, h: nat, rowBytes: nat)
  {
    forall i :: 0 <= i < h ==> RowStart(0, destStride, i) + rowBytes <= len
  }

  /** The h output rows fit in a destination of length len when each of them does. */
  lemma OutputFits(p: Packer, vals: seq<seq<I32>>, at: seq<nat>, w: nat, srcStride: nat, h: nat, adjust: I32,
                   len: nat, destStride: nat)
    requires PlanesFit(vals, at, w, srcStride, h)
    requires DestFits(len, destStride, h, RowBytes(p, w, |vals|))
    ensures RowsFit(len, 0, destStride, Output(p, vals, at, w, srcStride, h, adjust))
  {
    OutputLength(p, vals, at, w, srcStride, h, adjust);
  }

  /**
   * interleave(src, numPlanes, dest, w, srcStride, destStride, h, adjust)
   * of the interleaver makeInterleaver returns for packer p: output row i,
   * stored from i * destStride, is RowOut of the samples of row i, and
   * every plane pointer in src has moved on h rows. The generic interleave
   * stages samples in a buffer of 2 * maxNumComponents, so it needs at most
   * that many planes.
   */
  method Interleave(p: Packer, planes: seq<seq<I32>>, offs: array<nat>, dest: array<bv8>, w: nat, srcStride: nat,
                    destStride: nat, h: nat, adjust: I32)
    requires Staged(p) ==> |planes| <= MaxNumComponents
    requires offs.Length == |planes| && PlanesFit(planes, offs[..], w, srcStride, h)
    requires offs as object != dest as object
    requires DestFits(dest.Length, destStride, h, RowBytes(p, w, |planes|))
    modifies offs, dest
    ensures offs[..] == RowOffsets(old(offs[..]), srcStride, h)
    ensures Painted(dest[..], old(dest[..]), 0, destStride, Output(p, planes, old(offs[..]), w, srcStride, h, adjust))
  {
    OutputFits(p, planes, offs[..], w, srcStride, h, adjust, dest.Length, destStride);
    Pack8Unit();
    Pack16Unit();
    InterleaveRows(p, PackFn(p), FinalFn(p), planes, offs, dest, w, srcStride, destStride, h, adjust);
  }

  /*
   * What a row holds: every packer but the native-endian Pack16 writes the
   * samples of a row as one MSB-first stream of Precision(p)-bit fields, the
   * last byte zero-padded, whatever the chunk boundaries.
   */

  /** The bytes of a row of samples s are the first ceil(N * |s| / 8) bytes of their N-bit stream. */
  lemma RowOutStream(p: Packer, s: seq<bv32>)
    requires p != Pack16
    requires !Masked(p) ==> Fits(s, Precision(p))
    ensures RowOut(p, s) == Stream(s, Precision(p) as nat, CeilBytes(Precision(p) as nat * |s|))
  {
    var c, n, nb := SrcChk(p), Precision(p) as nat, Precision(p);
    forall t | |t| == c && (Masked(p) || Fits(t, nb)) ensures PackFn(p)(t) == Stream(t, n, ChunkBytes(p)) {
      PackFnApply(p, t);
      PackAsStream(p, t);
    }
    forall t | 1 <= |t| < c && (Masked(p) || Fits(t, nb)) ensures FinalFn(p)(t) == Stream(t, n, PaddedBytes(n, |t|)) {
      FinalFnApply(p, t);
      PackFinalAsStream(p, t);
    }
    ChunkBits(p);
    RowIsStream(c, PackFn(p), FinalFn(p), s, n, nb, ChunkBytes(p), Masked(p));
  }

  /**
   * Output row i holds the samples of row i, pixel by pixel and plane by
   * plane, as one stream of Precision(p)-bit fields.
   */
  lemma OutputStream(p: Packer, vals: seq<seq<I32>>, at: seq<nat>, w: nat, srcStride: nat, h: nat, adjust: I32, i: nat)
    requires PlanesFit(vals, at, w, srcStride, h) && i < h && p != Pack16
    requires !Masked(p) ==> Fits(RowSamples(vals, RowOffsets(at, srcStride, i), w, adjust), Precision(p))
    ensures Output(p, vals, at, w, srcStride, h, adjust)[i]
         == Stream(RowSamples(vals, RowOffsets(at, srcStride, i), w, adjust), Precision(p) as nat, RowBytes(p, w, |vals|))
  {
    OutRowsAt(SrcChk(p), PackFn(p), FinalFn(p), vals, at, w, srcStride, h, adjust, i);
    RowOutStream(p, RowSamples(vals, RowOffsets(at, srcStride, i), w, adjust));
  }

  /*
   * The byte layout of the Pack8 and Pack16 specialisations.
   */

  /** ceil(8 * x / 8) is x, and ceil(16 * x / 8) is 2 * x. */
  lemma WholeBytes(x: nat)
    ensures CeilBytes(8 * x) == x && CeilBytes(16 * x) == 2 * x
  {
  }

  /** The specialisations store b bytes per sample. */
  lemma UnitLength(p: Packer, b: nat)
    requires (p == Pack8 && b == 1) || (p == Pack16 && b == 2)
    ensures forall x :: |PackFn(p)([x])| == b
  {
    if p == Pack8 {
      Pack8Unit();
    } else {
      Pack16Unit();
    }
  }

  /**
   * The Pack8 specialisation: byte j * numPlanes + k of output row i is
   * (uint8_t)(src[k][j] + adjust) of row i of the planes.
   */
  lemma Pack8Layout(planes: seq<seq<I32>>, at: seq<nat>, w: nat, srcStride: nat, h: nat, adjust: I32,
                    d0: seq<bv8>, d: seq<bv8>, destStride: nat, i: nat, j: nat, k: nat)
    requires PlanesFit(planes, at, w, srcStride, h)
    requires Painted(d, d0, 0, destStride, Output(Pack8, planes, at, w, srcStride, h, adjust))
    requires w * |planes| <= destStride
    requires i < h && j < w && k < |planes|
    ensures var pos := RowStart(0, destStride, i) + SamplePos(|planes|, j, k, 1, 0);
            pos < |d| && d[pos] == Lo8(Adjusted(PlaneSample(planes, at, w, srcStride, h, i, j, k), adjust))
  {
    UnitLength(Pack8, 1);
    Pack8Unit();
    OutputLength(Pack8, planes, at, w, srcStride, h, adjust);
    WholeBytes(w * |planes|);
    PaintedUnitAt(PackFn(Pack8), FinalFn(Pack8), 1, planes, at, w, srcStride, h, adjust, d0, d, destStride, i, j, k, 0);
  }

  /**
   * The Pack16 specialisation: output row i holds at 2 * (j * numPlanes + k)
   * the uint16_t of src[k][j] + adjust, low byte first.
   */
  lemma Pack16Layout(planes: seq<seq<I32>>, at: seq<nat>, w: nat, srcStride: nat, h: nat, adjust: I32,
                     d0: seq<bv8>, d: seq<bv8>, destStride: nat, i: nat, j: nat, k: nat)
    requires PlanesFit(planes, at, w, srcStride, h)
    requires Painted(d, d0, 0, destStride, Output(Pack16, planes, at, w, srcStride, h, adjust))
    requires 2 * (w * |planes|) <= destStride
    requires i < h && j < w && k < |planes|
    ensures var pos := RowStart(0, destStride, i) + SamplePos(|planes|, j, k, 2, 0);
            var x := Adjusted(PlaneSample(planes, at, w, srcStride, h, i, j, k), adjust);
            pos + 1 < |d| && d[pos] == Lo8(x) && d[pos + 1] == Lo8(x >> 8)
  {
    UnitLength(Pack16, 2);
    Pack16Unit();
    OutputLength(Pack16, planes, at, w, srcStride, h, adjust);
    WholeBytes(w * |planes|);
    PaintedUnitAt(PackFn(Pack16), FinalFn(Pack16), 2, planes, at, w, srcStride, h, adjust, d0, d, destStride, i, j, k, 0);
    PaintedUnitAt(PackFn(Pack16), FinalFn(Pack16), 2, planes, at, w, srcStride, h, adjust, d0, d, destStride, i, j, k, 1);
    assert SamplePos(|planes|, j, k, 2, 1) == SamplePos(|planes|, j, k, 2, 0) + 1;
  }

  /*
   * InterleaverFactory::makeInterleaver.
   */

  datatype Option<T> = None | Some(value: T)

  /**
   * makeInterleaver(prec): the packer for 1 .. 16 bits per sample, Pack16BE
   * for 0xFF, and nullptr (None) for any other precision.
   */
  function MakeInterleaver(prec: bv8): (r: Option<Packer>)
    ensures r.Some? <==> (1 <= prec <= 16 || prec == 0xFF)
    ensures r.Some? && prec != 0xFF ==> r.value != Pack16BE && Precision(r.value) == prec as bv32
    ensures prec == 0xFF ==> r == Some(Pack16BE)
  {
    match prec
    case 1 => Some(Pack1)
    case 2 => Some(Pack2)
    case 3 => Some(Pack3)
    case 4 => Some(Pack4)
    case 5 => Some(Pack5)
    case 6 => Some(Pack6)
    case 7 => Some(Pack7)
    case 8 => Some(Pack8)
    case 9 => Some(Pack9)
    case 10 => Some(Pack10)
    case 11 => Some(Pack11)
    case 12 => Some(Pack12)
    case 13 => Some(Pack13)
    case 14 => Some(Pack14)
    case 15 => Some(Pack15)
    case 16 => Some(Pack16)
    case 0xFF => Some(Pack16BE)
    case _ => None
  }

  /** The precision code that selects packer p. */
  function PrecisionCode(p: Packer): bv8
  {
    if p == Pack16BE then 0xFF else Precision(p) as bv8
  }

  /** Every packer is chosen by its own precision code ... */
  lemma MakeInterleaverCode(p: Packer)
    ensures MakeInterleaver(PrecisionCode(p)) == Some(p)
  {
  }

  /** ... and by no other. */
  lemma InterleaverCodeUnique(prec: bv8, p: Packer)
    requires MakeInterleaver(prec) == Some(p)
    ensures prec == PrecisionCode(p)
  {
    if prec != 0xFF {
      assert Precision(p) as bv8 == prec as bv32 as bv8;
    }
  }

}
