/*
 * The code-block side of tile decompression
 * (src/lib/jp2/scheduling/DecompressScheduler.cpp): the enumeration that
 * selects code-blocks by window intersection and groups them per
 * resolution, and the single-worker loop that decodes them in order,
 * disposing of every block once the first decode fails. The entropy
 * decoder is a parameter: the outcome of opening each block.
 */
module DecompressScheduler {

  import opened Arith
  import opened Geometry

  /** A uint8_t value. */
  type Byte = x: int | 0 <= x < 256

  /** A code-block of a precinct: its bounds (getCodeBlockBounds), origin and bit-plane count. */
  datatype CodeBlock = CodeBlock(bounds: Rect, x0: Uint32, y0: Uint32, numbps: Byte)

  datatype Precinct = Precinct(rect: Rect, cblks: seq<CodeBlock>)

  /** A tile band: orientation (0 = LL .. 3 = HH), bit-planes, step size, padded band window and precincts. */
  datatype TileBand = TileBand(orientation: nat, numbps: Byte, stepsize: real, paddedWindow: Rect, precincts: seq<Precinct>)

  datatype TileResolution = TileResolution(bands: seq<TileBand>)

  /** The tile-component coding parameters a block descriptor copies. */
  datatype CodingParams = CodingParams(cblkSty: nat, qmfbid: nat, roishift: nat, cblkw: nat, cblkh: nat)

  /** DecompressBlockExec: the descriptor of one code-block to decode. */
  datatype BlockExec = BlockExec(x: Uint32, y: Uint32, bandIndex: nat, bandNumbps: Byte, bandOrientation: nat,
                                 cblk: CodeBlock, cblkSty: nat, qmfbid: nat, resno: nat, roishift: nat,
                                 stepsize: real, kMsbs: Byte, rB: nat)

  /** What block->open(impl) does: return a result, or throw a runtime_error. */
  datatype OpenResult = Returned(ok: bool) | Threw

  /** A T1 decoder instance, as made with the nominal code-block dimensions. */
  datatype T1Impl = T1Impl(codeblockWidth: nat, codeblockHeight: nat)

  /** gain_b = {0, 1, 1, 2}: log2 of the subband gain, one per high-pass filtering of the band. */
  function GainB(orientation: nat): (r: nat)
    requires orientation < 4
    ensures r == orientation % 2 + orientation / 2
  {
    [0, 1, 1, 2][orientation]
  }

  /** k_msbs = (uint8_t)(band numbps - cblk numbps): the missing most significant bit-planes. */
  function KMsbs(bandNumbps: Byte, cblkNumbps: Byte): (r: Byte)
    ensures cblkNumbps <= bandNumbps ==> r == bandNumbps - cblkNumbps
    ensures (r + cblkNumbps) % 256 == bandNumbps
  {
    (bandNumbps - cblkNumbps) % 256
  }

  /** The nominal code-block size (uint16_t)(e ? 1 << e : 0) for exponent e. */
  function NominalDim(e: nat): nat
    requires e < 32
  {
    if e == 0 then 0 else Pow2(e) % 0x1_0000
  }

  /** An exponent of 0 gives 0, one below 16 gives 2^e, and a larger one is truncated away by the 16-bit cast. */
  lemma NominalDimValues(e: nat)
    requires e < 32
    ensures e == 0 ==> NominalDim(e) == 0
    ensures 0 < e < 16 ==> NominalDim(e) == Pow2(e)
    ensures e >= 16 ==> NominalDim(e) == 0
  {
    Pow2Of16();
    if 0 < e < 16 {
      Pow2Monotone(e, 15);
      Pow2Add(15, 1);
    } else if e >= 16 {
      Pow2Add(16, e - 16);
      var k := Pow2(e - 16);
      assert Pow2(e) == 0x1_0000 * k;
      assert Pow2(e) % 0x1_0000 == 0;
    }
  }

  lemma Pow2Of16()
    ensures Pow2(16) == 0x1_0000
  {
    Pow2Add(8, 8);
    assert Pow2(8) == 256;
  }

  // ---------------------------------------------------------------------
  // Selection: which code-blocks get a descriptor, in which order
  // ---------------------------------------------------------------------

  /** A precinct is visited under whole-tile decoding, or when it meets the padded band window. */
  predicate PrecinctSelected(whole: bool, band: TileBand, p: Precinct)
  {
    whole || NonEmptyIntersection(band.paddedWindow, p.rect)
  }

  /** A code-block of a visited precinct is taken under whole-tile decoding, or when it meets the padded band window. */
  predicate BlockSelected(whole: bool, band: TileBand, c: CodeBlock)
  {
    whole || NonEmptyIntersection(band.paddedWindow, c.bounds)
  }

  /** The descriptor a selected code-block receives. */
  function MakeBlock(resno: nat, bandIndex: nat, band: TileBand, c: CodeBlock, tccp: CodingParams, prec: Byte): BlockExec
    requires band.orientation < 4
  {
    BlockExec(c.x0, c.y0, bandIndex, band.numbps, band.orientation, c, tccp.cblkSty, tccp.qmfbid, resno,
              tccp.roishift, band.stepsize, KMsbs(band.numbps, c.numbps), prec + GainB(band.orientation))
  }

  /** The descriptors of the selected blocks among the first n code-blocks of precinct p. */
  function CblkBlocks(whole: bool, resno: nat, bandIndex: nat, band: TileBand, p: Precinct, n: nat,
                      tccp: CodingParams, prec: Byte): seq<BlockExec>
    requires band.orientation < 4 && n <= |p.cblks|
  {
    if n == 0 then []
    else CblkBlocks(whole, resno, bandIndex, band, p, n - 1, tccp, prec)
         + (if BlockSelected(whole, band, p.cblks[n - 1]) then [MakeBlock(resno, bandIndex, band, p.cblks[n - 1], tccp, prec)] else [])
  }

  /** The descriptors of the first m precincts of a band. */
  function PrecinctBlocks(whole: bool, resno: nat, bandIndex: nat, band: TileBand, m: nat,
                          tccp: CodingParams, prec: Byte): seq<BlockExec>
    requires band.orientation < 4 && m <= |band.precincts|
  {
    if m == 0 then []
    else PrecinctBlocks(whole, resno, bandIndex, band, m - 1, tccp, prec)
         + (if PrecinctSelected(whole, band, band.precincts[m - 1])
            then CblkBlocks(whole, resno, bandIndex, band, band.precincts[m - 1], |band.precincts[m - 1].cblks|, tccp, prec)
            else [])
  }

  predicate Orientations(res: TileResolution)
  {
    forall b :: 0 <= b < |res.bands| ==> res.bands[b].orientation < 4
  }

  /** The descriptors of the first nb bands of a resolution. */
  function BandBlocks(whole: bool, resno: nat, res: TileResolution, nb: nat, tccp: CodingParams, prec: Byte): seq<BlockExec>
    requires Orientations(res) && nb <= |res.bands|
  {
    if nb == 0 then []
    else BandBlocks(whole, resno, res, nb - 1, tccp, prec)
         + PrecinctBlocks(whole, resno, nb - 1, res.bands[nb - 1], |res.bands[nb - 1].precincts|, tccp, prec)
  }

  /** The descriptors of resolution resno, band by band, precinct by precinct, code-block by code-block. */
  function ResolutionBlocks(whole: bool, resno: nat, res: TileResolution, tccp: CodingParams, prec: Byte): seq<BlockExec>
    requires Orientations(res)
  {
    BandBlocks(whole, resno, res, |res.bands|, tccp, prec)
  }

  /** A descriptor is among a precinct's iff it belongs to one of its selected code-blocks. */
  lemma {:induction false} CblkBlocksMembers(whole: bool, resno: nat, bandIndex: nat, band: TileBand, p: Precinct, n: nat,
                                             tccp: CodingParams, prec: Byte, blk: BlockExec)
    requires band.orientation < 4 && n <= |p.cblks|
    ensures blk in CblkBlocks(whole, resno, bandIndex, band, p, n, tccp, prec)
            <==> exists k :: 0 <= k < n && BlockSelected(whole, band, p.cblks[k])
                             && blk == MakeBlock(resno, bandIndex, band, p.cblks[k], tccp, prec)
  {
    if n > 0 {
      CblkBlocksMembers(whole, resno, bandIndex, band, p, n - 1, tccp, prec, blk);
    }
  }

  /**
   * A descriptor is among a band's iff a selected code-block of a selected
   * precinct of the band gave rise to it: under whole-tile decoding every
   * code-block, otherwise those whose precinct and own bounds both meet
   * the padded band window.
   */
  lemma {:induction false} PrecinctBlocksMembers(whole: bool, resno: nat, bandIndex: nat, band: TileBand, m: nat,
                                                 tccp: CodingParams, prec: Byte, blk: BlockExec)
    requires band.orientation < 4 && m <= |band.precincts|
    ensures blk in PrecinctBlocks(whole, resno, bandIndex, band, m, tccp, prec)
            <==> exists i, k :: 0 <= i < m && 0 <= k < |band.precincts[i].cblks|
                                && PrecinctSelected(whole, band, band.precincts[i])
                                && BlockSelected(whole, band, band.precincts[i].cblks[k])
                                && blk == MakeBlock(resno, bandIndex, band, band.precincts[i].cblks[k], tccp, prec)
  {
    if m > 0 {
      PrecinctBlocksMembers(whole, resno, bandIndex, band, m - 1, tccp, prec, blk);
      var p := band.precincts[m - 1];
      CblkBlocksMembers(whole, resno, bandIndex, band, p, |p.cblks|, tccp, prec, blk);
    }
  }

  // ---------------------------------------------------------------------
  // Grouping per resolution
  // ---------------------------------------------------------------------

  /** The groups emitted so far and the pending resBlocks. */
  datatype GroupState = GroupState(groups: seq<seq<BlockExec>>, carry: seq<BlockExec>)

  /**
   * The grouping of the first n resolutions' lists: each resolution's
   * blocks join the pending list, which is emitted as a group when it is
   * non-empty and the resolution is not resolution 0.
   */
  function Grouping(ls: seq<seq<BlockExec>>, n: nat): GroupState
    requires n <= |ls|
  {
    if n == 0 then GroupState([], [])
    else
      var g := Grouping(ls, n - 1);
      var c := g.carry + ls[n - 1];
      if c != [] && n - 1 > 0 then GroupState(g.groups + [c], []) else GroupState(g.groups, c)
  }

  /** The groups schedule emits: those of the loop, then the remainder when non-empty. */
  function Groups(ls: seq<seq<BlockExec>>): seq<seq<BlockExec>>
  {
    var g := Grouping(ls, |ls|);
    if g.carry != [] then g.groups + [g.carry] else g.groups
  }

  /** The lists of a sequence of lists, concatenated in order. */
  function Flatten(ls: seq<seq<BlockExec>>): seq<BlockExec>
  {
    if ls == [] then [] else Flatten(ls[..|ls| - 1]) + ls[|ls| - 1]
  }

  /** The non-empty lists of ls, in order. */
  function NonEmpty(ls: seq<seq<BlockExec>>): seq<seq<BlockExec>>
  {
    if ls == [] then [] else NonEmpty(ls[..|ls| - 1]) + (if ls[|ls| - 1] != [] then [ls[|ls| - 1]] else [])
  }

  /** Resolution 0's list merged into resolution 1's. */
  function Merged(ls: seq<seq<BlockExec>>): seq<seq<BlockExec>>
  {
    if |ls| < 2 then ls else [ls[0] + ls[1]] + ls[2..]
  }

  lemma {:induction false} NonEmptyAppend(ls: seq<seq<BlockExec>>, l: seq<BlockExec>)
    ensures NonEmpty(ls + [l]) == NonEmpty(ls) + (if l != [] then [l] else [])
  {
    assert (ls + [l])[..|ls + [l]| - 1] == ls;
  }

  lemma MergedAppend(ls: seq<seq<BlockExec>>, n: nat)
    requires 2 <= n < |ls|
    ensures Merged(ls[..n + 1]) == Merged(ls[..n]) + [ls[n]]
  {
    assert ls[..n + 1][2..] == ls[..n][2..] + [ls[n]];
  }

  /** Resolutions 0 and 1 form the first group, when it is not empty. */
  lemma GroupingTwo(ls: seq<seq<BlockExec>>)
    requires 2 <= |ls|
    ensures Grouping(ls, 2) == GroupState(NonEmpty(Merged(ls[..2])), [])
  {
    assert Grouping(ls, 1) == GroupState([], ls[0]);
    assert Merged(ls[..2]) == [ls[0] + ls[1]];
    NonEmptyAppend([], ls[0] + ls[1]);
  }

  /** After two or more resolutions nothing is pending and the groups are the non-empty merged lists. */
  lemma {:induction false} GroupingState(ls: seq<seq<BlockExec>>, n: nat)
    requires 2 <= n <= |ls|
    ensures Grouping(ls, n) == GroupState(NonEmpty(Merged(ls[..n])), [])
  {
    if n == 2 {
      GroupingTwo(ls);
    } else {
      GroupingState(ls, n - 1);
      MergedAppend(ls, n - 1);
      NonEmptyAppend(Merged(ls[..n - 1]), ls[n - 1]);
      var g := Grouping(ls, n - 1);
      assert g.carry + ls[n - 1] == ls[n - 1];
    }
  }

  /**
   * The groups are the non-empty lists among: resolutions 0 and 1 together,
   * then every later resolution on its own.
   */
  lemma GroupsAreMerged(ls: seq<seq<BlockExec>>)
    ensures Groups(ls) == NonEmpty(Merged(ls))
  {
    if |ls| >= 2 {
      GroupingState(ls, |ls|);
      assert ls[..|ls|] == ls;
    } else if |ls| == 1 {
      assert Grouping(ls, 1) == GroupState([], ls[0]);
      NonEmptyAppend([], ls[0]);
    }
  }

  lemma {:induction false} NonEmptyHasNoEmpty(ls: seq<seq<BlockExec>>)
    ensures forall i :: 0 <= i < |NonEmpty(ls)| ==> NonEmpty(ls)[i] != []
  {
    if ls != [] { NonEmptyHasNoEmpty(ls[..|ls| - 1]); }
  }

  lemma {:induction false} FlattenAppend(a: seq<seq<BlockExec>>, b: seq<seq<BlockExec>>)
    ensures Flatten(a + b) == Flatten(a) + Flatten(b)
    decreases |b|
  {
    if b == [] {
      assert a + b == a;
    } else {
      var front := b[..|b| - 1];
      assert (a + b)[..|a + b| - 1] == a + front;
      assert (a + b)[|a + b| - 1] == b[|b| - 1];
      FlattenAppend(a, front);
      assert Flatten(b) == Flatten(front) + b[|b| - 1];
    }
  }

  lemma {:induction false} NonEmptyFlatten(ls: seq<seq<BlockExec>>)
    ensures Flatten(NonEmpty(ls)) == Flatten(ls)
  {
    if ls != [] {
      var l := ls[|ls| - 1];
      NonEmptyFlatten(ls[..|ls| - 1]);
      FlattenAppend(NonEmpty(ls[..|ls| - 1]), if l != [] then [l] else []);
      assert Flatten([l]) == l by { assert [l][..0] == []; }
    }
  }

  lemma MergedFlatten(ls: seq<seq<BlockExec>>)
    ensures Flatten(Merged(ls)) == Flatten(ls)
  {
    if |ls| >= 2 {
      FlattenAppend([ls[0] + ls[1]], ls[2..]);
      FlattenAppend([ls[0], ls[1]], ls[2..]);
      assert ls == [ls[0], ls[1]] + ls[2..];
      assert [ls[0] + ls[1]][..0] == [];
      assert [ls[0], ls[1]][..1] == [ls[0]];
      assert [ls[0]][..0] == [];
    }
  }

  /** No emitted group is empty. */
  lemma GroupsNonEmpty(ls: seq<seq<BlockExec>>)
    ensures forall i :: 0 <= i < |Groups(ls)| ==> Groups(ls)[i] != []
  {
    GroupsAreMerged(ls);
    NonEmptyHasNoEmpty(Merged(ls));
  }

  /** The groups hold every block exactly once, in enumeration order. */
  lemma GroupsPreserveOrder(ls: seq<seq<BlockExec>>)
    ensures Flatten(Groups(ls)) == Flatten(ls)
  {
    GroupsAreMerged(ls);
    NonEmptyFlatten(Merged(ls));
    MergedFlatten(ls);
  }

  /** Resolution 0's blocks are not emitted alone: they open resolution 1's group. */
  lemma GroupsCarryResolutionZero(ls: seq<seq<BlockExec>>)
    requires |ls| >= 2 && ls[0] + ls[1] != []
    ensures Groups(ls) != [] && Groups(ls)[0] == ls[0] + ls[1]
  {
    GroupsAreMerged(ls);
    FirstNonEmpty(Merged(ls));
  }

  lemma {:induction false} FirstNonEmpty(ls: seq<seq<BlockExec>>)
    requires ls != [] && ls[0] != []
    ensures NonEmpty(ls) != [] && NonEmpty(ls)[0] == ls[0]
  {
    if |ls| > 1 {
      FirstNonEmpty(ls[..|ls| - 1]);
    } else {
      assert ls[..0] == [];
    }
  }

  // ---------------------------------------------------------------------
  // The single-worker run
  // ---------------------------------------------------------------------

  /** decompressBlock's verdict on an open outcome: a thrown runtime_error counts as failure. */
  predicate Decoded(r: OpenResult)
  {
    r == Returned(true)
  }

  /** The run over a block list: the blocks attempted and whether all of them decoded. */
  datatype RunState = RunState(attempted: seq<BlockExec>, ok: bool)

  /** Blocks in order: each is attempted while all before decoded; after a failure the rest are only deleted. */
  function Run(bs: seq<BlockExec>, open: BlockExec -> OpenResult): RunState
  {
    if bs == [] then RunState([], true)
    else
      var s := Run(bs[..|bs| - 1], open);
      var b := bs[|bs| - 1];
      if s.ok then RunState(s.attempted + [b], Decoded(open(b))) else s
  }

  /** The run succeeds iff every block decodes. */
  lemma {:induction false} RunOk(bs: seq<BlockExec>, open: BlockExec -> OpenResult)
    ensures Run(bs, open).ok <==> forall i :: 0 <= i < |bs| ==> Decoded(open(bs[i]))
  {
    if bs != [] {
      var front := bs[..|bs| - 1];
      RunOk(front, open);
      assert forall i :: 0 <= i < |front| ==> front[i] == bs[i];
    }
  }

  /** The blocks opened are a prefix of the list, all of it when every block decodes. */
  lemma {:induction false} RunOpensPrefix(bs: seq<BlockExec>, open: BlockExec -> OpenResult)
    ensures |Run(bs, open).attempted| <= |bs| && Run(bs, open).attempted == bs[..|Run(bs, open).attempted|]
    ensures Run(bs, open).ok ==> Run(bs, open).attempted == bs
  {
    if bs != [] {
      var front := bs[..|bs| - 1];
      RunOpensPrefix(front, open);
      var s := Run(front, open);
      var n := |s.attempted|;
      assert bs[..n] == front[..n];
      if s.ok {
        assert s.attempted + [bs[|bs| - 1]] == bs;
      }
    }
  }

  /** Every opened block but the last decoded; when the run fails, the last opened block is the one that failed. */
  lemma RunStopsAtFailure(bs: seq<BlockExec>, open: BlockExec -> OpenResult)
    ensures forall i :: 0 <= i < |Run(bs, open).attempted| - 1 ==> Decoded(open(Run(bs, open).attempted[i]))
    ensures !Run(bs, open).ok ==> Run(bs, open).attempted != []
                                  && !Decoded(open(Run(bs, open).attempted[|Run(bs, open).attempted| - 1]))
  {
    RunDecodedBeforeLast(bs, open);
    RunFailsAtLast(bs, open);
  }

  lemma {:induction false} RunDecodedBeforeLast(bs: seq<BlockExec>, open: BlockExec -> OpenResult)
    ensures forall i :: 0 <= i < |Run(bs, open).attempted| - 1 ==> Decoded(open(Run(bs, open).attempted[i]))
  {
    if bs != [] {
      var front := bs[..|bs| - 1];
      var s := Run(front, open);
      if s.ok {
        RunOk(front, open);
        RunOpensPrefix(front, open);
        var a := s.attempted + [bs[|bs| - 1]];
        assert Run(bs, open).attempted == a;
        assert forall i :: 0 <= i < |a| - 1 ==> a[i] == front[i];
      } else {
        RunDecodedBeforeLast(front, open);
        assert Run(bs, open) == s;
      }
    }
  }

  lemma {:induction false} RunFailsAtLast(bs: seq<BlockExec>, open: BlockExec -> OpenResult)
    ensures !Run(bs, open).ok ==> Run(bs, open).attempted != []
                                  && !Decoded(open(Run(bs, open).attempted[|Run(bs, open).attempted| - 1]))
  {
    if bs != [] {
      var front := bs[..|bs| - 1];
      var s := Run(front, open);
      if s.ok {
        assert Run(bs, open).attempted == s.attempted + [bs[|bs| - 1]];
      } else {
        RunFailsAtLast(front, open);
        assert Run(bs, open) == s;
      }
    }
  }

  /** The per-resolution descriptor lists of resolutions 0..numRes-1. */
  function AllResBlocks(whole: bool, resolutions: seq<TileResolution>, numRes: nat, tccp: CodingParams, prec: Byte): seq<seq<BlockExec>>
    requires numRes <= |resolutions| && forall r :: 0 <= r < |resolutions| ==> Orientations(resolutions[r])
  {
    seq(numRes, r requires 0 <= r < numRes => ResolutionBlocks(whole, r, resolutions[r], tccp, prec))
  }

  class Scheduler {
    var blocks: seq<seq<BlockExec>>
    var t1Implementations: seq<T1Impl>
    var success: bool
    /** The blocks handed to the decoder, in order. */
    var attempted: seq<BlockExec>
    /** The blocks deleted, in order. */
    var deleted: seq<BlockExec>

    constructor ()
      ensures blocks == [] && t1Implementations == [] && attempted == [] && deleted == []
    {
      blocks, t1Implementations, success, attempted, deleted := [], [], false, [], [];
    }

    /** decompressBlock: open the block, delete it on every path, and turn a runtime_error into false. */
    method DecompressBlock(impl: T1Impl, block: BlockExec, open: BlockExec -> OpenResult) returns (rc: bool)
      modifies this
      ensures rc == Decoded(open(block))
      ensures attempted == old(attempted) + [block] && deleted == old(deleted) + [block]
      ensures blocks == old(blocks) && t1Implementations == old(t1Implementations) && success == old(success)
    {
      attempted := attempted + [block];
      var r := open(block);
      match r
      case Returned(ok) =>
        deleted := deleted + [block];
        return ok;
      case Threw =>
        deleted := deleted + [block];
        return false;
    }

    /** The single-worker loop over every group: decode while all decoded so far, otherwise delete. */
    method RunSingleWorker(open: BlockExec -> OpenResult) returns (r: bool)
      requires |t1Implementations| > 0
      modifies this
      ensures r == success == Run(Flatten(blocks), open).ok
      ensures attempted == old(attempted) + Run(Flatten(blocks), open).attempted
      ensures deleted == old(deleted) + Flatten(blocks)
      ensures blocks == old(blocks) && t1Implementations == old(t1Implementations)
    {
      success := true;
      ghost var done: seq<BlockExec> := [];
      for g := 0 to |blocks|
        invariant blocks == old(blocks) && t1Implementations == old(t1Implementations)
        invariant done == Flatten(blocks[..g])
        invariant success == Run(done, open).ok
        invariant attempted == old(attempted) + Run(done, open).attempted
        invariant deleted == old(deleted) + done
      {
        RunGroup(blocks[g], open, done, old(attempted), old(deleted));
        assert blocks[..g + 1][..g] == blocks[..g];
        done := done + blocks[g];
      }
      assert blocks[..|blocks|] == blocks;
      r := success;
    }

    /** The inner loop over one group's blocks, continuing a run over the blocks done before it. */
    method RunGroup(resBlocks: seq<BlockExec>, open: BlockExec -> OpenResult, ghost done: seq<BlockExec>,
                    ghost attempted0: seq<BlockExec>, ghost deleted0: seq<BlockExec>)
      requires |t1Implementations| > 0
      requires success == Run(done, open).ok
      requires attempted == attempted0 + Run(done, open).attempted && deleted == deleted0 + done
      modifies this
      ensures success == Run(done + resBlocks, open).ok
      ensures attempted == attempted0 + Run(done + resBlocks, open).attempted
      ensures deleted == deleted0 + done + resBlocks
      ensures blocks == old(blocks) && t1Implementations == old(t1Implementations)
    {
      assert done + resBlocks[..0] == done;
      for k := 0 to |resBlocks|
        invariant blocks == old(blocks) && t1Implementations == old(t1Implementations)
        invariant success == Run(done + resBlocks[..k], open).ok
        invariant attempted == attempted0 + Run(done + resBlocks[..k], open).attempted
        invariant deleted == deleted0 + done + resBlocks[..k]
      {
        var block := resBlocks[k];
        assert (done + resBlocks[..k + 1])[..|done + resBlocks[..k + 1]| - 1] == done + resBlocks[..k];
        assert resBlocks[..k + 1] == resBlocks[..k] + [block];
        if !success {
          deleted := deleted + [block];
        } else {
          var impl := t1Implementations[0];
          var ok := DecompressBlock(impl, block, open);
          if !ok {
            success := false;
          }
        }
      }
      assert resBlocks[..|resBlocks|] == resBlocks;
    }

    /**
     * schedule: enumerate the selected code-blocks of resolutions
     * 0..highestRes into per-resolution groups, make one T1 decoder per
     * worker, and with a single worker decode every block in order.
     */
    method Schedule(whole: bool, resolutions: seq<TileResolution>, highestRes: nat, tccp: CodingParams, prec: Byte,
                    numWorkers: nat, open: BlockExec -> OpenResult) returns (r: bool)
      requires highestRes < |resolutions| && forall k :: 0 <= k < |resolutions| ==> Orientations(resolutions[k])
      requires tccp.cblkw < 32 && tccp.cblkh < 32
      modifies this
      ensures blocks == old(blocks) + Groups(AllResBlocks(whole, resolutions, highestRes + 1, tccp, prec))
      ensures t1Implementations == old(t1Implementations)
                                   + seq(numWorkers, i => T1Impl(NominalDim(tccp.cblkw), NominalDim(tccp.cblkh)))
      ensures blocks != [] && numWorkers == 1 ==>
                r == Run(Flatten(blocks), open).ok
                && attempted == old(attempted) + Run(Flatten(blocks), open).attempted
                && deleted == old(deleted) + Flatten(blocks)
      ensures blocks == [] || numWorkers != 1 ==> r && attempted == old(attempted) && deleted == old(deleted)
    {
      EnumerateBlocks(whole, resolutions, highestRes, tccp, prec);
      var codeblockWidth := NominalDim(tccp.cblkw);
      var codeblockHeight := NominalDim(tccp.cblkh);
      MakeT1Implementations(numWorkers, codeblockWidth, codeblockHeight);
      if |blocks| == 0 {
        return true;
      }
      if numWorkers == 1 {
        r := RunSingleWorker(open);
        return;
      }
      // The multi-worker path builds the task graph and reports true; its tasks run later.
      return true;
    }

    /** The resolution loop of schedule: append each resolution's blocks and emit the groups. */
    method EnumerateBlocks(whole: bool, resolutions: seq<TileResolution>, highestRes: nat, tccp: CodingParams, prec: Byte)
      requires highestRes < |resolutions| && forall k :: 0 <= k < |resolutions| ==> Orientations(resolutions[k])
      modifies this
      ensures blocks == old(blocks) + Groups(AllResBlocks(whole, resolutions, highestRes + 1, tccp, prec))
      ensures t1Implementations == old(t1Implementations) && attempted == old(attempted) && deleted == old(deleted)
    {
      ghost var ls := AllResBlocks(whole, resolutions, highestRes + 1, tccp, prec);
      var resBlocks: seq<BlockExec> := [];
      for resno := 0 to highestRes + 1
        invariant blocks == old(blocks) + Grouping(ls, resno).groups
        invariant resBlocks == Grouping(ls, resno).carry
        invariant t1Implementations == old(t1Implementations) && attempted == old(attempted) && deleted == old(deleted)
      {
        resBlocks := AppendResolution(whole, resno, resolutions[resno], tccp, prec, resBlocks);
        if resBlocks != [] && resno > 0 {
          blocks := blocks + [resBlocks];
          resBlocks := [];
        }
      }
      if resBlocks != [] {
        blocks := blocks + [resBlocks];
        resBlocks := [];
      }
    }

    /** One T1 implementation per worker, each with the nominal code-block dimensions. */
    method MakeT1Implementations(numWorkers: nat, codeblockWidth: nat, codeblockHeight: nat)
      modifies this
      ensures t1Implementations == old(t1Implementations) + seq(numWorkers, i => T1Impl(codeblockWidth, codeblockHeight))
      ensures blocks == old(blocks) && attempted == old(attempted) && deleted == old(deleted)
    {
      for i := 0 to numWorkers
        invariant t1Implementations == old(t1Implementations) + seq(i, k => T1Impl(codeblockWidth, codeblockHeight))
        invariant blocks == old(blocks) && attempted == old(attempted) && deleted == old(deleted)
      {
        t1Implementations := t1Implementations + [T1Impl(codeblockWidth, codeblockHeight)];
      }
    }
  }

  /** The band loop of one resolution: its blocks appended to resBlocks. */
  method AppendResolution(whole: bool, resno: nat, res: TileResolution, tccp: CodingParams, prec: Byte,
                          resBlocks: seq<BlockExec>) returns (out: seq<BlockExec>)
    requires Orientations(res)
    ensures out == resBlocks + ResolutionBlocks(whole, resno, res, tccp, prec)
  {
    out := resBlocks;
    for bandIndex := 0 to |res.bands|
      invariant out == resBlocks + BandBlocks(whole, resno, res, bandIndex, tccp, prec)
    {
      var band := res.bands[bandIndex];
      ghost var before := out;
      out := AppendBand(whole, resno, bandIndex, band, tccp, prec, out);
      assert BandBlocks(whole, resno, res, bandIndex + 1, tccp, prec)
             == BandBlocks(whole, resno, res, bandIndex, tccp, prec)
                + PrecinctBlocks(whole, resno, bandIndex, band, |band.precincts|, tccp, prec);
    }
  }

  /** The precinct loop of one band; a precinct away from the padded band window is skipped unless decoding the whole tile. */
  method AppendBand(whole: bool, resno: nat, bandIndex: nat, band: TileBand, tccp: CodingParams, prec: Byte,
                    resBlocks: seq<BlockExec>) returns (out: seq<BlockExec>)
    requires band.orientation < 4
    ensures out == resBlocks + PrecinctBlocks(whole, resno, bandIndex, band, |band.precincts|, tccp, prec)
  {
    out := resBlocks;
    for pi := 0 to |band.precincts|
      invariant out == resBlocks + PrecinctBlocks(whole, resno, bandIndex, band, pi, tccp, prec)
    {
      var precinct := band.precincts[pi];
      if !whole && !NonEmptyIntersection(band.paddedWindow, precinct.rect) {
        continue;
      }
      out := AppendPrecinct(whole, resno, bandIndex, band, precinct, tccp, prec, out);
    }
  }

  /** The code-block loop of one precinct: a descriptor for each block that meets the padded band window. */
  method AppendPrecinct(whole: bool, resno: nat, bandIndex: nat, band: TileBand, precinct: Precinct,
                        tccp: CodingParams, prec: Byte, resBlocks: seq<BlockExec>) returns (out: seq<BlockExec>)
    requires band.orientation < 4
    ensures out == resBlocks + CblkBlocks(whole, resno, bandIndex, band, precinct, |precinct.cblks|, tccp, prec)
  {
    out := resBlocks;
    for cblkno := 0 to |precinct.cblks|
      invariant out == resBlocks + CblkBlocks(whole, resno, bandIndex, band, precinct, cblkno, tccp, prec)
    {
      var cblkBounds := precinct.cblks[cblkno].bounds;
      if whole || NonEmptyIntersection(band.paddedWindow, cblkBounds) {
        var cblk := precinct.cblks[cblkno];
        var block := BlockExec(cblk.x0, cblk.y0, bandIndex, band.numbps, band.orientation, cblk,
                               tccp.cblkSty, tccp.qmfbid, resno, tccp.roishift, band.stepsize,
                               KMsbs(band.numbps, cblk.numbps), prec + GainB(band.orientation));
        out := out + [block];
      }
    }
  }
}
