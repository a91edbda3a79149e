/*
 * Reversible multi-component transform (RCT) and DC level shift of the
 * JPEG 2000 point-transform stage, with the line-range scheduling that
 * splits a component plane into chunks (src/lib/jp2/point_transform/mct.cpp).
 *
 * Samples are 32-bit signed lanes; every addition and subtraction of the
 * kernels wraps around like the vector int32 arithmetic it models, and the
 * right shift by two is arithmetic (floor division by 4).
 */
module Mct {

  import opened Arith

  /** ShiftRight<2> on a signed lane: an arithmetic shift, rounding toward minus infinity. */
  function Asr2(x: I32): (r: I32)
    ensures 4 * r <= x < 4 * r + 4
  {
    x / 4
  }

  /** Clamp(v, lo, hi) = Min(Max(v, lo), hi). */
  function Clamp(x: I32, lo: I32, hi: I32): (r: I32)
    ensures lo <= hi ==> lo <= r <= hi
    ensures lo <= x <= hi ==> r == x
    ensures x < lo <= hi ==> r == lo
    ensures lo <= hi < x ==> r == hi
  {
    var m := if x < lo then lo else x;
    if m < hi then m else hi
  }

  datatype Triple = Triple(c0: I32, c1: I32, c2: I32)

  /** The clamp bounds and level shift of one component. */
  datatype ShiftInfo = ShiftInfo(min: I32, max: I32, shift: I32)

  // ---------------------------------------------------------------------
  // The per-sample kernels
  // ---------------------------------------------------------------------

  /** Forward RCT on one (r, g, b) sample: y = (2g + b + r) >> 2, u = b - g, v = r - g. */
  function ForwardRct(t: Triple): Triple
  {
    var r, g, b := t.c0, t.c1, t.c2;
    Triple(Asr2(Wrap(Wrap(Wrap(g + g) + b) + r)), Wrap(b - g), Wrap(r - g))
  }

  /** Inverse RCT on one (y, u, v) sample: g = y - ((u + v) >> 2), r = v + g, b = u + g. */
  function InverseRct(t: Triple): Triple
  {
    var y, u, v := t.c0, t.c1, t.c2;
    var g := Wrap(y - Asr2(Wrap(u + v)));
    Triple(Wrap(v + g), g, Wrap(u + g))
  }

  /** One sample of CompressRev: add each channel's shift, then the forward RCT; no clamping. */
  function CompressRevSample(t: Triple, sh: seq<ShiftInfo>): Triple
    requires |sh| >= 3
  {
    ForwardRct(Triple(Wrap(t.c0 + sh[0].shift), Wrap(t.c1 + sh[1].shift), Wrap(t.c2 + sh[2].shift)))
  }

  /** One sample of DecompressRev: the inverse RCT, then shift and clamp each channel. */
  function DecompressRevSample(t: Triple, sh: seq<ShiftInfo>): (r: Triple)
    requires |sh| >= 3
    ensures sh[0].min <= sh[0].max ==> sh[0].min <= r.c0 <= sh[0].max
    ensures sh[1].min <= sh[1].max ==> sh[1].min <= r.c1 <= sh[1].max
    ensures sh[2].min <= sh[2].max ==> sh[2].min <= r.c2 <= sh[2].max
  {
    var rgb := InverseRct(t);
    Triple(Clamp(Wrap(rgb.c0 + sh[0].shift), sh[0].min, sh[0].max),
           Clamp(Wrap(rgb.c1 + sh[1].shift), sh[1].min, sh[1].max),
           Clamp(Wrap(rgb.c2 + sh[2].shift), sh[2].min, sh[2].max))
  }

  /** One sample of DecompressDcShiftRev: clamp(x + shift, min, max). */
  function DcShiftSample(x: I32, s: ShiftInfo): (r: I32)
    ensures s.min <= s.max ==> s.min <= r <= s.max
    ensures -0x8000_0000 <= x + s.shift < 0x8000_0000 && s.min <= x + s.shift <= s.max ==> r == x + s.shift
  {
    Clamp(Wrap(x + s.shift), s.min, s.max)
  }

  // ---------------------------------------------------------------------
  // Properties of the RCT
  // ---------------------------------------------------------------------

  /** Samples small enough that no step of either RCT direction wraps around. */
  predicate Small(t: Triple)
  {
    -0x0800_0000 <= t.c0 < 0x0800_0000 && -0x0800_0000 <= t.c1 < 0x0800_0000 && -0x0800_0000 <= t.c2 < 0x0800_0000
  }

  /** The inverse RCT undoes the forward RCT exactly. */
  lemma InverseAfterForward(t: Triple)
    requires Small(t)
    ensures InverseRct(ForwardRct(t)) == t
  {
    var r, g, b := t.c0, t.c1, t.c2;
    ForwardExact(t);
    var y: int, u: int, v: int := (2 * g + b + r) / 4, b - g, r - g;
    DivShift(g, u + v);
    assert y == g + (u + v) / 4;
    InverseExact(Triple(y, u, v));
  }

  /** (4q + x) / 4 == q + x / 4 */
  lemma DivShift(q: int, x: int)
    ensures (4 * q + x) / 4 == q + x / 4
  {
  }

  /** On small samples no step of the forward RCT wraps around. */
  lemma ForwardExact(t: Triple)
    requires -0x2000_0000 <= t.c0 < 0x2000_0000 && -0x2000_0000 <= t.c1 < 0x2000_0000 && -0x2000_0000 <= t.c2 < 0x2000_0000
    ensures ForwardRct(t) == Triple((2 * t.c1 + t.c2 + t.c0) / 4, t.c2 - t.c1, t.c0 - t.c1)
  {
  }

  /** On samples whose chroma sum is bounded no step of the inverse RCT wraps around. */
  lemma InverseExact(t: Triple)
    requires -0x2000_0000 <= t.c0 < 0x2000_0000 && -0x2000_0000 <= t.c1 < 0x2000_0000 && -0x2000_0000 <= t.c2 < 0x2000_0000
    ensures InverseRct(t) == Triple(t.c2 + (t.c0 - (t.c1 + t.c2) / 4), t.c0 - (t.c1 + t.c2) / 4, t.c1 + (t.c0 - (t.c1 + t.c2) / 4))
  {
  }

  /** The forward RCT undoes the inverse RCT exactly: the RCT is a bijection on small samples. */
  lemma ForwardAfterInverse(t: Triple)
    requires Small(t)
    ensures ForwardRct(InverseRct(t)) == t
  {
    var y, u, v := t.c0, t.c1, t.c2;
    InverseExact(t);
    var g: int := y - (u + v) / 4;
    var r: int, b: int := v + g, u + g;
    DivShift(g, u + v);
    assert (2 * g + b + r) / 4 == y;
    ForwardExact(Triple(r, g, b));
  }

  /** The worked example: (10, 20, 30) -> (20, 10, -10) -> (10, 20, 30). */
  lemma RctExample()
    ensures ForwardRct(Triple(10, 20, 30)) == Triple(20, 10, -10)
    ensures InverseRct(Triple(20, 10, -10)) == Triple(10, 20, 30)
  {
  }

  /** Samples within the clamp range of their component. */
  predicate InRange(t: Triple, sh: seq<ShiftInfo>)
    requires |sh| >= 3
  {
    sh[0].min <= t.c0 <= sh[0].max && sh[1].min <= t.c1 <= sh[1].max && sh[2].min <= t.c2 <= sh[2].max
  }

  /**
   * Decoding what was encoded restores the samples: compress with the
   * negated level shifts, decompress with the level shifts and the
   * component's clamp range.
   */
  lemma CompressDecompressRoundTrip(t: Triple, enc: seq<ShiftInfo>, dec: seq<ShiftInfo>)
    requires |enc| >= 3 && |dec| >= 3
    requires enc[0].shift + dec[0].shift == 0 && enc[1].shift + dec[1].shift == 0 && enc[2].shift + dec[2].shift == 0
    requires -0x0400_0000 <= dec[0].shift < 0x0400_0000 && -0x0400_0000 <= dec[1].shift < 0x0400_0000
    requires -0x0400_0000 <= dec[2].shift < 0x0400_0000
    requires -0x0400_0000 <= t.c0 < 0x0400_0000 && -0x0400_0000 <= t.c1 < 0x0400_0000 && -0x0400_0000 <= t.c2 < 0x0400_0000
    requires InRange(t, dec)
    ensures DecompressRevSample(CompressRevSample(t, enc), dec) == t
  {
    var shifted := Triple(t.c0 + enc[0].shift, t.c1 + enc[1].shift, t.c2 + enc[2].shift);
    assert CompressRevSample(t, enc) == ForwardRct(shifted);
    InverseAfterForward(shifted);
    var rgb := InverseRct(ForwardRct(shifted));
    assert Wrap(rgb.c0 + dec[0].shift) == t.c0;
    assert Wrap(rgb.c1 + dec[1].shift) == t.c1;
    assert Wrap(rgb.c2 + dec[2].shift) == t.c2;
  }

  /** The DC shift of decoding undoes the DC shift of encoding on in-range samples. */
  lemma DcShiftRoundTrip(x: I32, enc: ShiftInfo, dec: ShiftInfo)
    requires enc.shift + dec.shift == 0 && dec.min <= x <= dec.max
    requires -0x8000_0000 <= x + enc.shift < 0x8000_0000
    ensures DcShiftSample(Wrap(x + enc.shift), dec) == x
  {
  }

  // ---------------------------------------------------------------------
  // genShift
  // ---------------------------------------------------------------------

  /** What genShift reads of an image component. */
  datatype ImageComp = ImageComp(prec: nat, sgnd: bool)

  /**
   * The definedness conditions of genShift's C arithmetic: the shifts
   * 1 << (prec - 1) and 1 << prec stay within int32, and sign * dcLevelShift
   * does not overflow.
   */
  predicate ShiftDefined(c: ImageComp, dcLevelShift: I32, sign: int)
  {
    (sign == 1 || sign == -1)
    && (if c.sgnd then 1 <= c.prec <= 31 else c.prec <= 30)
    && (sign == 1 || dcLevelShift != -0x8000_0000)
  }

  /** The {min, max, shift} triple of one component. */
  function ShiftFor(c: ImageComp, dcLevelShift: I32, sign: int): (s: ShiftInfo)
    requires ShiftDefined(c, dcLevelShift, sign)
    ensures s.shift == sign * dcLevelShift
    ensures s.min <= s.max && s.max - s.min + 1 == Pow2(c.prec)
    ensures c.sgnd ==> s.min == -(s.max + 1)
    ensures !c.sgnd ==> s.min == 0
  {
    Pow2Monotone(if c.sgnd then c.prec - 1 else c.prec, 30);
    Pow2Of30();
    if c.sgnd then
      var half: int := Pow2(c.prec - 1);
      ShiftInfo(-half, half - 1, sign * dcLevelShift)
    else
      ShiftInfo(0, Pow2(c.prec) - 1, sign * dcLevelShift)
  }

  /** Encoding and decoding shift triples of a component differ only in the sign of the shift. */
  lemma ShiftForSigns(c: ImageComp, dcLevelShift: I32)
    requires ShiftDefined(c, dcLevelShift, 1) && ShiftDefined(c, dcLevelShift, -1)
    ensures ShiftFor(c, dcLevelShift, -1).shift == -ShiftFor(c, dcLevelShift, 1).shift
    ensures ShiftFor(c, dcLevelShift, -1).min == ShiftFor(c, dcLevelShift, 1).min
    ensures ShiftFor(c, dcLevelShift, -1).max == ShiftFor(c, dcLevelShift, 1).max
  {
  }

  /** The shift list that ScheduleInfo carries into the kernels. */
  class ScheduleInfo {
    var shiftInfo: seq<ShiftInfo>

    constructor ()
      ensures shiftInfo == []
    {
      shiftInfo := [];
    }

    /** genShift(compno, ...): push_back the triple of component compno. */
    method GenShift(compno: nat, comps: seq<ImageComp>, dcShifts: seq<I32>, sign: int)
      requires compno < |comps| && compno < |dcShifts|
      requires ShiftDefined(comps[compno], dcShifts[compno], sign)
      modifies this
      ensures shiftInfo == old(shiftInfo) + [ShiftFor(comps[compno], dcShifts[compno], sign)]
    {
      shiftInfo := shiftInfo + [ShiftFor(comps[compno], dcShifts[compno], sign)];
    }

    /** genShift(image, ...): the triples of components 0, 1 and 2, in that order. */
    method GenShift3(comps: seq<ImageComp>, dcShifts: seq<I32>, sign: int)
      requires |comps| >= 3 && |dcShifts| >= 3
      requires forall i :: 0 <= i < 3 ==> ShiftDefined(comps[i], dcShifts[i], sign)
      modifies this
      ensures shiftInfo == old(shiftInfo) + [ShiftFor(comps[0], dcShifts[0], sign),
                                             ShiftFor(comps[1], dcShifts[1], sign),
                                             ShiftFor(comps[2], dcShifts[2], sign)]
    {
      ghost var before := shiftInfo;
      for i := 0 to 3
        invariant shiftInfo == before + seq(i, k requires 0 <= k < i => ShiftFor(comps[k], dcShifts[k], sign))
      {
        GenShift(i, comps, dcShifts, sign);
      }
    }
  }

  // ---------------------------------------------------------------------
  // The kernels over a chunk [index, index + chunkSize) of the planes
  // ---------------------------------------------------------------------

  /** DecompressDcShiftRev::transform: chan0[j] = clamp(chan0[j] + shift, min, max). */
  method DcShiftRevTransform(chan0: array<I32>, s: ShiftInfo, index: nat, chunkSize: nat)
    requires index + chunkSize <= chan0.Length
    modifies chan0
    ensures forall p :: index <= p < index + chunkSize ==> chan0[p] == DcShiftSample(old(chan0[p]), s)
    ensures forall p :: 0 <= p < chan0.Length && !(index <= p < index + chunkSize) ==> chan0[p] == old(chan0[p])
  {
    for j := index to index + chunkSize
      invariant forall p :: index <= p < j ==> chan0[p] == DcShiftSample(old(chan0[p]), s)
      invariant forall p :: 0 <= p < chan0.Length && !(index <= p < j) ==> chan0[p] == old(chan0[p])
    {
      chan0[j] := DcShiftSample(chan0[j], s);
    }
  }

  /** The sample at position p of three channel planes. */
  ghost function At(chan0: array<I32>, chan1: array<I32>, chan2: array<I32>, p: nat): Triple
    requires p < chan0.Length && p < chan1.Length && p < chan2.Length
    reads chan0, chan1, chan2
  {
    Triple(chan0[p], chan1[p], chan2[p])
  }

  /** Three distinct channel planes of equal length. */
  predicate Planes(chan0: array<I32>, chan1: array<I32>, chan2: array<I32>)
  {
    chan0 != chan1 && chan1 != chan2 && chan0 != chan2
    && chan0.Length == chan1.Length == chan2.Length
  }

  /** DecompressRev::transform: inverse RCT, shift and clamp, stored back into the three channels. */
  method DecompressRevTransform(chan0: array<I32>, chan1: array<I32>, chan2: array<I32>,
                                sh: seq<ShiftInfo>, index: nat, chunkSize: nat)
    requires Planes(chan0, chan1, chan2) && |sh| >= 3
    requires index + chunkSize <= chan0.Length
    modifies chan0, chan1, chan2
    ensures forall p :: index <= p < index + chunkSize ==>
              At(chan0, chan1, chan2, p) == DecompressRevSample(old(At(chan0, chan1, chan2, p)), sh)
    ensures forall p :: 0 <= p < chan0.Length && !(index <= p < index + chunkSize) ==>
              At(chan0, chan1, chan2, p) == old(At(chan0, chan1, chan2, p))
  {
    for j := index to index + chunkSize
      invariant forall p :: index <= p < j ==>
                  At(chan0, chan1, chan2, p) == DecompressRevSample(old(At(chan0, chan1, chan2, p)), sh)
      invariant forall p :: 0 <= p < chan0.Length && !(index <= p < j) ==>
                  At(chan0, chan1, chan2, p) == old(At(chan0, chan1, chan2, p))
    {
      var out := DecompressRevSample(Triple(chan0[j], chan1[j], chan2[j]), sh);
      chan0[j] := out.c0;
      chan1[j] := out.c1;
      chan2[j] := out.c2;
    }
  }

  /** CompressRev::transform: shift, then forward RCT, stored back into the three channels. */
  method CompressRevTransform(chan0: array<I32>, chan1: array<I32>, chan2: array<I32>,
                              sh: seq<ShiftInfo>, index: nat, chunkSize: nat)
    requires Planes(chan0, chan1, chan2) && |sh| >= 3
    requires index + chunkSize <= chan0.Length
    modifies chan0, chan1, chan2
    ensures forall p :: index <= p < index + chunkSize ==>
              At(chan0, chan1, chan2, p) == CompressRevSample(old(At(chan0, chan1, chan2, p)), sh)
    ensures forall p :: 0 <= p < chan0.Length && !(index <= p < index + chunkSize) ==>
              At(chan0, chan1, chan2, p) == old(At(chan0, chan1, chan2, p))
  {
    for j := index to index + chunkSize
      invariant forall p :: index <= p < j ==>
                  At(chan0, chan1, chan2, p) == CompressRevSample(old(At(chan0, chan1, chan2, p)), sh)
      invariant forall p :: 0 <= p < chan0.Length && !(index <= p < j) ==>
                  At(chan0, chan1, chan2, p) == old(At(chan0, chan1, chan2, p))
    {
      var out := CompressRevSample(Triple(chan0[j], chan1[j], chan2[j]), sh);
      chan0[j] := out.c0;
      chan1[j] := out.c1;
      chan2[j] := out.c2;
    }
  }

  // ---------------------------------------------------------------------
  // vscheduler: splitting a stride * height plane into line ranges
  // ---------------------------------------------------------------------

  /** A kernel call's (index, chunkSize). */
  datatype Chunk = Chunk(index: nat, size: nat)

  /** numTasks = (height + linesPerTask - 1) / linesPerTask, evaluated in 32-bit unsigned arithmetic. */
  function NumTasks(height: nat, lpt: nat): nat
    requires height < U32 && 0 < lpt < U32
  {
    ((height + lpt - 1) % U32) / lpt
  }

  /** Without wrap-around numTasks is the ceiling of height / linesPerTask. */
  lemma NumTasksCeiling(height: nat, lpt: nat)
    requires 0 < lpt < U32 && height + lpt - 1 < U32
    ensures NumTasks(height, lpt) * lpt >= height
    ensures height > 0 ==> (NumTasks(height, lpt) - 1) * lpt < height
    ensures height == 0 ==> NumTasks(height, lpt) == 0
  {
    var n := NumTasks(height, lpt);
    assert n == (height + lpt - 1) / lpt;
    assert n * lpt <= height + lpt - 1 < n * lpt + lpt;
  }

  /** numTasks never exceeds the ceiling, wrap-around or not, so the last task has at least one line. */
  lemma NumTasksAtMostCeiling(height: nat, lpt: nat)
    requires height < U32 && 0 < lpt < U32
    ensures NumTasks(height, lpt) > 0 ==> (NumTasks(height, lpt) - 1) * lpt < height
  {
    var n := NumTasks(height, lpt);
    var m := (height + lpt - 1) % U32;
    assert m <= height + lpt - 1;
    assert n * lpt <= m;
  }

  /**
   * Chunk t: it starts at t * linesPerTask * stride; all but the last hold
   * linesPerTask lines, a size computed in 32-bit unsigned arithmetic; the
   * last one holds the remaining lines, computed in 64 bits.
   */
  function ChunkAt(t: nat, height: nat, lpt: nat, stride: nat): (c: Chunk)
    requires height < U32 && 0 < lpt < U32 && t < NumTasks(height, lpt)
    ensures c.index == t * (lpt * stride)
    ensures t != NumTasks(height, lpt) - 1 ==> c.size == (lpt * stride) % U32 <= lpt * stride
    ensures t == NumTasks(height, lpt) - 1 ==> c.size == (height - t * lpt) * stride
  {
    NumTasksAtMostCeiling(height, lpt);
    MulMono(t, NumTasks(height, lpt) - 1, lpt);
    if t != NumTasks(height, lpt) - 1 then Chunk(t * (lpt * stride), (lpt * stride) % U32)
    else Chunk(t * (lpt * stride), (height - t * lpt) * stride)
  }

  predicate InChunk(p: nat, c: Chunk)
  {
    c.index <= p < c.index + c.size
  }

  /** The single worker's sample count stride * height, a 32-bit unsigned product. */
  function NumSamples(height: nat, stride: nat): (r: nat)
    ensures r <= stride * height
    ensures stride * height < U32 ==> r == stride * height
  {
    (stride * height) % U32
  }

  /**
   * The product is taken in 32 bits before it is widened to size_t: a
   * 65536 x 65536 plane gives the single worker no samples at all.
   */
  lemma NumSamplesWraps()
    ensures 0x1_0000 * 0x1_0000 == U32 && NumSamples(0x1_0000, 0x1_0000) == 0
  {
  }

  /** The positions a vscheduler run hands to the kernel. */
  ghost predicate Scheduled(p: nat, height: nat, lpt: nat, stride: nat, numWorkers: nat)
    requires height < U32 && 0 < lpt < U32
  {
    if numWorkers > 1 then exists t :: 0 <= t < NumTasks(height, lpt) && InChunk(p, ChunkAt(t, height, lpt, stride))
    else p < NumSamples(height, stride)
  }

  /** Distinct chunks are disjoint (with or without wrap-around). */
  lemma ChunksDisjoint(t1: nat, t2: nat, p: nat, height: nat, lpt: nat, stride: nat)
    requires height < U32 && 0 < lpt < U32
    requires t1 < t2 < NumTasks(height, lpt)
    ensures !(InChunk(p, ChunkAt(t1, height, lpt, stride)) && InChunk(p, ChunkAt(t2, height, lpt, stride)))
  {
    var big := lpt * stride;
    MulMono(t1 + 1, t2, big);
    MulSucc(t1, big);
  }

  /** A chunk of `lines` lines starting at line t * lpt ends by line height. */
  lemma ChunkEnd(t: nat, lines: nat, height: nat, lpt: nat, stride: nat)
    requires t * lpt + lines <= height
    ensures t * (lpt * stride) + lines * stride <= stride * height
  {
    MulAssoc(t, lpt, stride);
    MulAdd(t * lpt, lines, stride);
    MulMono(t * lpt + lines, height, stride);
  }

  /** Every chunk ends inside the plane [0, stride * height). */
  lemma ChunkInsidePlane(t: nat, height: nat, lpt: nat, stride: nat)
    requires height < U32 && 0 < lpt < U32 && t < NumTasks(height, lpt)
    ensures ChunkAt(t, height, lpt, stride).index + ChunkAt(t, height, lpt, stride).size <= stride * height
  {
    var n := NumTasks(height, lpt);
    NumTasksAtMostCeiling(height, lpt);
    if t != n - 1 {
      MulMono(t + 1, n - 1, lpt);
      MulSucc(t, lpt);
      ChunkEnd(t, lpt, height, lpt, stride);
    } else {
      MulMono(t, n - 1, lpt);
      ChunkEnd(t, height - t * lpt, height, lpt, stride);
    }
  }

  /** Without wrap-around every position of the plane lies in some chunk. */
  lemma PlaneInsideChunks(p: nat, height: nat, lpt: nat, stride: nat) returns (t: nat)
    requires 0 < lpt < U32 && height + lpt - 1 < U32 && stride * height < U32 && p < stride * height
    ensures t < NumTasks(height, lpt) && InChunk(p, ChunkAt(t, height, lpt, stride))
  {
    NumTasksCeiling(height, lpt);
    var n := NumTasks(height, lpt);
    assert stride > 0;
    var row := Quotient(p, stride);
    QuotientBelow(p, stride, row, height);
    t := Quotient(row, lpt);
    QuotientBelow(row, lpt, t, n);
    ChunkCovers(p, row, t, height, lpt, stride);
  }

  /** Position p on line row, with row in the line range of task t, lies in chunk t. */
  lemma ChunkCovers(p: nat, row: nat, t: nat, height: nat, lpt: nat, stride: nat)
    requires height < U32 && 0 < lpt < U32 && t < NumTasks(height, lpt)
    requires row * stride <= p < row * stride + stride
    requires t * lpt <= row < t * lpt + lpt && row < height && stride * height < U32
    ensures InChunk(p, ChunkAt(t, height, lpt, stride))
  {
    var n := NumTasks(height, lpt);
    var c := ChunkAt(t, height, lpt, stride);
    MulAssoc(t, lpt, stride);
    MulMono(t * lpt, row, stride);
    MulSucc(row, stride);
    if t != n - 1 {
      NumTasksAtMostCeiling(height, lpt);
      MulMono(t + 1, n - 1, lpt);
      MulSucc(t, lpt);
      MulMono(lpt, height, stride);
      assert c.size == lpt * stride;
      MulMono(row + 1, t * lpt + lpt, stride);
      assert c.index + c.size == (t * lpt + lpt) * stride;
    } else {
      NumTasksAtMostCeiling(height, lpt);
      var rest: nat := height - t * lpt;
      assert c.index + c.size == (t * lpt + rest) * stride;
      MulMono(row + 1, height, stride);
    }
  }

  /**
   * The chunks of the multi-worker path tile the plane exactly, so both
   * paths of vscheduler hand every sample of the plane to the kernel once
   * and nothing outside it.
   */
  lemma ScheduledIsPlane(p: nat, height: nat, lpt: nat, stride: nat, numWorkers: nat)
    requires 0 < lpt < U32 && height + lpt - 1 < U32 && stride * height < U32
    ensures Scheduled(p, height, lpt, stride, numWorkers) <==> p < stride * height
  {
    if numWorkers > 1 {
      if p < stride * height {
        var t := PlaneInsideChunks(p, height, lpt, stride);
      }
      if t :| 0 <= t < NumTasks(height, lpt) && InChunk(p, ChunkAt(t, height, lpt, stride)) {
        ChunkInsidePlane(t, height, lpt, stride);
      }
    }
  }

  /** The positions among the first t chunks. */
  ghost predicate Covered(p: nat, t: nat, height: nat, lpt: nat, stride: nat)
    requires height < U32 && 0 < lpt < U32 && t <= NumTasks(height, lpt)
  {
    exists t' :: 0 <= t' < t && InChunk(p, ChunkAt(t', height, lpt, stride))
  }

  /** vscheduler<DecompressDcShiftRev>: the kernel over every chunk (one worker: over the whole plane). */
  method VSchedulerDcShift(chan0: array<I32>, s: ShiftInfo, height: nat, lpt: nat, stride: nat, numWorkers: nat)
    requires height < U32 && 0 < lpt < U32 && stride * height <= chan0.Length
    modifies chan0
    ensures forall p :: 0 <= p < chan0.Length ==>
              chan0[p] == if Scheduled(p, height, lpt, stride, numWorkers) then DcShiftSample(old(chan0[p]), s) else old(chan0[p])
  {
    if numWorkers > 1 {
      var n := NumTasks(height, lpt);
      for t := 0 to n
        invariant forall p :: 0 <= p < chan0.Length ==>
                    chan0[p] == if Covered(p, t, height, lpt, stride) then DcShiftSample(old(chan0[p]), s) else old(chan0[p])
      {
        var c := ChunkAt(t, height, lpt, stride);
        ChunkInsidePlane(t, height, lpt, stride);
        ghost var before := chan0[..];
        DcShiftRevTransform(chan0, s, c.index, c.size);
        forall p | 0 <= p < chan0.Length
          ensures chan0[p] == if Covered(p, t + 1, height, lpt, stride) then DcShiftSample(old(chan0[p]), s) else old(chan0[p])
        {
          if InChunk(p, c) {
            forall t' | 0 <= t' < t ensures !InChunk(p, ChunkAt(t', height, lpt, stride)) {
              ChunksDisjoint(t', t, p, height, lpt, stride);
            }
          }
        }
      }
    } else {
      DcShiftRevTransform(chan0, s, 0, NumSamples(height, stride));
    }
  }

  /** The three-channel kernels. */
  datatype RctKernel = DecompressRevKernel | CompressRevKernel

  function RctSample(k: RctKernel, t: Triple, sh: seq<ShiftInfo>): Triple
    requires |sh| >= 3
  {
    match k
    case DecompressRevKernel => DecompressRevSample(t, sh)
    case CompressRevKernel => CompressRevSample(t, sh)
  }

  /** T transform; transform.transform(info, index, chunkSize) for a three-channel kernel T. */
  method RctTransform(k: RctKernel, chan0: array<I32>, chan1: array<I32>, chan2: array<I32>,
                      sh: seq<ShiftInfo>, index: nat, chunkSize: nat)
    requires Planes(chan0, chan1, chan2) && |sh| >= 3
    requires index + chunkSize <= chan0.Length
    modifies chan0, chan1, chan2
    ensures forall p :: 0 <= p < chan0.Length ==>
              At(chan0, chan1, chan2, p) == if index <= p < index + chunkSize
                                            then RctSample(k, old(At(chan0, chan1, chan2, p)), sh)
                                            else old(At(chan0, chan1, chan2, p))
  {
    match k
    case DecompressRevKernel => DecompressRevTransform(chan0, chan1, chan2, sh, index, chunkSize);
    case CompressRevKernel => CompressRevTransform(chan0, chan1, chan2, sh, index, chunkSize);
  }

  /** vscheduler<DecompressRev> and vscheduler<CompressRev>. */
  method VSchedulerRct(k: RctKernel, chan0: array<I32>, chan1: array<I32>, chan2: array<I32>,
                       sh: seq<ShiftInfo>, height: nat, lpt: nat, stride: nat, numWorkers: nat)
    requires Planes(chan0, chan1, chan2) && |sh| >= 3
    requires height < U32 && 0 < lpt < U32 && stride * height <= chan0.Length
    modifies chan0, chan1, chan2
    ensures forall p :: 0 <= p < chan0.Length ==>
              At(chan0, chan1, chan2, p) == if Scheduled(p, height, lpt, stride, numWorkers)
                                            then RctSample(k, old(At(chan0, chan1, chan2, p)), sh)
                                            else old(At(chan0, chan1, chan2, p))
  {
    if numWorkers > 1 {
      var n := NumTasks(height, lpt);
      for t := 0 to n
        invariant forall p :: 0 <= p < chan0.Length ==>
                    At(chan0, chan1, chan2, p) == if Covered(p, t, height, lpt, stride)
                                                  then RctSample(k, old(At(chan0, chan1, chan2, p)), sh)
                                                  else old(At(chan0, chan1, chan2, p))
      {
        var c := ChunkAt(t, height, lpt, stride);
        ChunkInsidePlane(t, height, lpt, stride);
        RctTransform(k, chan0, chan1, chan2, sh, c.index, c.size);
        forall p | 0 <= p < chan0.Length
          ensures At(chan0, chan1, chan2, p) == if Covered(p, t + 1, height, lpt, stride)
                                                then RctSample(k, old(At(chan0, chan1, chan2, p)), sh)
                                                else old(At(chan0, chan1, chan2, p))
        {
          if InChunk(p, c) {
            forall t' | 0 <= t' < t ensures !InChunk(p, ChunkAt(t', height, lpt, stride)) {
              ChunksDisjoint(t', t, p, height, lpt, stride);
            }
          }
        }
      }
    } else {
      RctTransform(k, chan0, chan1, chan2, sh, 0, NumSamples(height, stride));
    }
  }

  // ---------------------------------------------------------------------
  // The mct entry points
  // ---------------------------------------------------------------------

  /** The clamp and shift triples genShift(image, ..., sign) produces. */
  function Shifts3(comps: seq<ImageComp>, dcShifts: seq<I32>, sign: int): seq<ShiftInfo>
    requires |comps| >= 3 && |dcShifts| >= 3
    requires forall i :: 0 <= i < 3 ==> ShiftDefined(comps[i], dcShifts[i], sign)
  {
    [ShiftFor(comps[0], dcShifts[0], sign), ShiftFor(comps[1], dcShifts[1], sign), ShiftFor(comps[2], dcShifts[2], sign)]
  }

  /** mct::decompress_dc_shift_rev: level shift and clamp of component compno's plane. */
  method DecompressDcShiftRev(compno: nat, comps: seq<ImageComp>, dcShifts: seq<I32>, chan0: array<I32>,
                              height: nat, lpt: nat, stride: nat, numWorkers: nat)
    requires compno < |comps| && compno < |dcShifts| && ShiftDefined(comps[compno], dcShifts[compno], 1)
    requires height < U32 && 0 < lpt < U32 && stride * height <= chan0.Length
    modifies chan0
    ensures forall p :: 0 <= p < chan0.Length ==>
              chan0[p] == if Scheduled(p, height, lpt, stride, numWorkers)
                          then DcShiftSample(old(chan0[p]), ShiftFor(comps[compno], dcShifts[compno], 1))
                          else old(chan0[p])
  {
    var info := new ScheduleInfo();
    info.GenShift(compno, comps, dcShifts, 1);
    VSchedulerDcShift(chan0, info.shiftInfo[0], height, lpt, stride, numWorkers);
  }

  /** mct::decompress_rev: inverse RCT with level shift and clamp, shifts of sign +1. */
  method DecompressRev(comps: seq<ImageComp>, dcShifts: seq<I32>, chan0: array<I32>, chan1: array<I32>, chan2: array<I32>,
                       height: nat, lpt: nat, stride: nat, numWorkers: nat)
    requires |comps| >= 3 && |dcShifts| >= 3
    requires forall i :: 0 <= i < 3 ==> ShiftDefined(comps[i], dcShifts[i], 1)
    requires Planes(chan0, chan1, chan2)
    requires height < U32 && 0 < lpt < U32 && stride * height <= chan0.Length
    modifies chan0, chan1, chan2
    ensures forall p :: 0 <= p < chan0.Length ==>
              At(chan0, chan1, chan2, p) == if Scheduled(p, height, lpt, stride, numWorkers)
                                            then DecompressRevSample(old(At(chan0, chan1, chan2, p)), Shifts3(comps, dcShifts, 1))
                                            else old(At(chan0, chan1, chan2, p))
  {
    var info := new ScheduleInfo();
    info.GenShift3(comps, dcShifts, 1);
    var sh := info.shiftInfo;
    assert sh == Shifts3(comps, dcShifts, 1);
    VSchedulerRct(DecompressRevKernel, chan0, chan1, chan2, sh, height, lpt, stride, numWorkers);
  }

  /** mct::compress_rev: level shift by the negated dc shifts, then forward RCT. */
  method CompressRev(comps: seq<ImageComp>, dcShifts: seq<I32>, chan0: array<I32>, chan1: array<I32>, chan2: array<I32>,
                     height: nat, lpt: nat, stride: nat, numWorkers: nat)
    requires |comps| >= 3 && |dcShifts| >= 3
    requires forall i :: 0 <= i < 3 ==> ShiftDefined(comps[i], dcShifts[i], -1)
    requires Planes(chan0, chan1, chan2)
    requires height < U32 && 0 < lpt < U32 && stride * height <= chan0.Length
    modifies chan0, chan1, chan2
    ensures forall p :: 0 <= p < chan0.Length ==>
              At(chan0, chan1, chan2, p) == if Scheduled(p, height, lpt, stride, numWorkers)
                                            then CompressRevSample(old(At(chan0, chan1, chan2, p)), Shifts3(comps, dcShifts, -1))
                                            else old(At(chan0, chan1, chan2, p))
  {
    var info := new ScheduleInfo();
    info.GenShift3(comps, dcShifts, -1);
    var sh := info.shiftInfo;
    assert sh == Shifts3(comps, dcShifts, -1);
    VSchedulerRct(CompressRevKernel, chan0, chan1, chan2, sh, height, lpt, stride, numWorkers);
  }

  /**
   * What compress_rev writes at a sample, decompress_rev turns back into
   * the original sample, when the components' level shifts are small and
   * the samples lie in the components' ranges.
   */
  lemma CompressRevDecompressRev(t: Triple, comps: seq<ImageComp>, dcShifts: seq<I32>)
    requires |comps| >= 3 && |dcShifts| >= 3
    requires forall i :: 0 <= i < 3 ==> ShiftDefined(comps[i], dcShifts[i], 1) && ShiftDefined(comps[i], dcShifts[i], -1)
    requires forall i :: 0 <= i < 3 ==> -0x0400_0000 <= dcShifts[i] < 0x0400_0000
    requires -0x0400_0000 <= t.c0 < 0x0400_0000 && -0x0400_0000 <= t.c1 < 0x0400_0000 && -0x0400_0000 <= t.c2 < 0x0400_0000
    requires InRange(t, Shifts3(comps, dcShifts, 1))
    ensures DecompressRevSample(CompressRevSample(t, Shifts3(comps, dcShifts, -1)), Shifts3(comps, dcShifts, 1)) == t
  {
    var enc := Shifts3(comps, dcShifts, -1);
    var dec := Shifts3(comps, dcShifts, 1);
    assert dec[0].shift == dcShifts[0] && dec[1].shift == dcShifts[1] && dec[2].shift == dcShifts[2];
    assert enc[0].shift == -dcShifts[0] && enc[1].shift == -dcShifts[1] && enc[2].shift == -dcShifts[2];
    CompressDecompressRoundTrip(t, enc, dec);
  }
}
