/*
 * TileComponentWindowBuffer in unified mode
 * (src/lib/jp2/tile/TileComponentWindowBuffer.h): one tile buffer sized to
 * the window bounds, with every sub-band of every resolution addressed
 * inside it by offsets from the previous resolution's width and height.
 */
module WindowBuffer {

  import opened Arith
  import opened Geometry

  /** A band window: its orientation (0 = LL, 1 = HL, 2 = LH, 3 = HH) and its rectangle in band coordinates. */
  datatype Band = Band(orientation: nat, rect: Rect)

  /** A resolution: its rectangle and its three band windows. */
  datatype Resolution = Resolution(rect: Rect, bandWindow: seq<Band>)

  /**
   * The decomposition's shape: resolution 0 holds the LL band at index 0;
   * every higher resolution holds HL, LH and HH at indices 0, 1 and 2.
   */
  predicate WellFormed(resolutions: seq<Resolution>)
  {
    forall r :: 0 <= r < |resolutions| ==>
      |resolutions[r].bandWindow| == 3
      && (r == 0 ==> resolutions[r].bandWindow[0].orientation == 0)
      && (r > 0 ==> resolutions[r].bandWindow[0].orientation == 1
                    && resolutions[r].bandWindow[1].orientation == 2
                    && resolutions[r].bandWindow[2].orientation == 3)
  }

  /** A data pointer: null, or the start of a memory block. */
  datatype Ptr = Null | Block(id: nat)

  /** A pointer into a block: base plus an offset counted in samples. */
  datatype Address = Address(base: Ptr, offset: nat)

  /**
   * A 2-D sample buffer (grk_buffer_2d): rectangle, data pointer, stride and
   * ownership flag. zeroFilled records whether its last allocation cleared
   * the samples.
   */
  class Buffer2d {
    const bounds: Rect
    var data: Ptr
    var stride: Uint32
    var ownsData: bool
    var zeroFilled: bool

    constructor (r: Rect)
      ensures bounds == r && data == Null && stride == 0 && !ownsData && !zeroFilled
    {
      bounds := r;
      data := Null;
      stride := 0;
      ownsData := false;
      zeroFilled := false;
    }

    /**
     * alloc(clear): the allocator's answer is the parameter block (Null when
     * it fails); on success the buffer owns the block, with the stride the
     * allocator chose, zero-filled exactly when clear is set.
     */
    method Alloc(clear: bool, block: Ptr, allocStride: Uint32) returns (ok: bool)
      modifies this
      ensures ok <==> block != Null
      ensures ok ==> data == block && stride == allocStride && ownsData && zeroFilled == clear
      ensures !ok ==> data == old(data) && stride == old(stride) && ownsData == old(ownsData) && zeroFilled == old(zeroFilled)
    {
      if block == Null {
        return false;
      }
      data, stride, ownsData, zeroFilled := block, allocStride, true, clear;
      return true;
    }

    /** attach: point at a caller's buffer without owning it. */
    method Attach(buffer: Ptr, s: Uint32)
      modifies this
      ensures data == buffer && stride == s && !ownsData && zeroFilled == old(zeroFilled)
    {
      data, stride, ownsData := buffer, s, false;
    }

    /** acquire: point at a caller's buffer and own it. */
    method Acquire(buffer: Ptr, s: Uint32)
      modifies this
      ensures data == buffer && stride == s && ownsData && zeroFilled == old(zeroFilled)
    {
      data, stride, ownsData := buffer, s, true;
    }

    /** transfer: hand the data, its ownership and the stride out; the buffer keeps neither data nor ownership. */
    method Transfer() returns (buffer: Ptr, owns: bool, s: Uint32)
      modifies this
      ensures buffer == old(data) && owns == old(ownsData) && s == old(stride)
      ensures data == Null && !ownsData && stride == old(stride) && zeroFilled == old(zeroFilled)
    {
      buffer, owns, s := data, ownsData, stride;
      data, ownsData := Null, false;
    }
  }

  /** Bitwise orientation & 1: the band lies right of the previous resolution (HL, HH). */
  predicate RightHalf(orientation: nat) { orientation % 2 == 1 }

  /** Bitwise orientation & 2: the band lies below the previous resolution (LH, HH). */
  predicate LowerHalf(orientation: nat) { (orientation / 2) % 2 == 1 }

  /** A window's decode bounds: ceildivpow2(window, numres - reduced) intersected with the reduced tile. */
  function DecodeBounds(unreducedWindow: Rect, reducedTile: Rect, levels: nat): (r: Rect)
    requires levels < 64
    ensures forall x, y :: Contains(r, x, y) <==> Contains(RectCeilDivPow2(unreducedWindow, levels), x, y) && Contains(reducedTile, x, y)
  {
    Intersection(RectCeilDivPow2(unreducedWindow, levels), reducedTile)
  }

  /** strided_area() as written: a uint32_t product stride * height, widened to 64 bits after it wrapped. */
  function StridedAreaAsWritten(stride: Uint32, height: Uint32): Uint32
  {
    (stride * height) % U32
  }

  /** strided_area() as intended: the 64-bit product stride * height. */
  function StridedAreaOf(stride: Uint32, height: Uint32): nat
  {
    stride * height
  }

  /** The two agree exactly when the product fits in 32 bits. */
  lemma StridedAreaAgreement(stride: Uint32, height: Uint32)
    ensures StridedAreaAsWritten(stride, height) == StridedAreaOf(stride, height) <==> stride * height < U32
  {
  }

  /** A 65536 x 65536 window: the product wraps to zero. */
  lemma StridedAreaWraps()
    ensures StridedAreaAsWritten(0x1_0000, 0x1_0000) == 0
    ensures StridedAreaOf(0x1_0000, 0x1_0000) == 0x1_0000_0000
  {
  }

  /**
   * The strided area covers every sample of a height-row buffer whose rows
   * are at most stride samples wide: x + y * stride < strided_area.
   */
  lemma StridedAreaCovers(stride: Uint32, height: Uint32, x: nat, y: nat)
    requires x < stride && y < height
    ensures x + y * stride < StridedAreaOf(stride, height)
  {
    MulMono(y + 1, height, stride);
    MulSucc(y, stride);
  }

  class TileComponentWindowBuffer {
    var unreducedBounds: Rect
    var bounds: Rect
    var resolutions: seq<Resolution>
    var resBuffers: seq<Buffer2d>
    const numResolutions: nat
    const encode: bool
    const wholeTileDecoding: bool

    /** Unified mode: exactly one resolution buffer, which is the tile buffer. */
    predicate Valid()
      reads this
    {
      |resBuffers| == 1
    }

    /** tile_buf(): the last resolution buffer. */
    function TileBuf(): Buffer2d
      reads this
      requires Valid()
    {
      resBuffers[|resBuffers| - 1]
    }

    /**
     * The constructor: decode bounds from the window (encode keeps the tile
     * dimensions), the first reducedNumResolutions resolutions in order, and
     * one resolution buffer sized to the bounds.
     */
    constructor (isCompressor: bool, wholeTile: bool, unreducedTileDim: Rect, reducedTileDim: Rect,
                 unreducedWindowDim: Rect, tileCompResolutions: seq<Resolution>,
                 numresolutions: nat, reducedNumResolutions: nat)
      requires 0 < reducedNumResolutions <= |tileCompResolutions|
      requires reducedNumResolutions <= numresolutions < reducedNumResolutions + 64
      ensures Valid()
      ensures bounds == if isCompressor then reducedTileDim
                        else DecodeBounds(unreducedWindowDim, reducedTileDim, numresolutions - reducedNumResolutions)
      ensures unreducedBounds == if isCompressor then unreducedTileDim
                                 else Intersection(unreducedWindowDim, unreducedTileDim)
      ensures resolutions == tileCompResolutions[..reducedNumResolutions]
      ensures fresh(TileBuf()) && TileBuf().bounds == bounds && TileBuf().data == Null && !TileBuf().ownsData
      ensures numResolutions == numresolutions && encode == isCompressor && wholeTileDecoding == wholeTile
    {
      numResolutions := numresolutions;
      encode := isCompressor;
      wholeTileDecoding := wholeTile;
      var b := reducedTileDim;
      var ub := unreducedTileDim;
      if !isCompressor {
        b := RectCeilDivPow2(unreducedWindowDim, numresolutions - reducedNumResolutions);
        b := Intersection(b, reducedTileDim);
        ub := Intersection(unreducedWindowDim, unreducedTileDim);
      }
      var res: seq<Resolution> := [];
      for resno := 0 to reducedNumResolutions
        invariant res == tileCompResolutions[..resno]
      {
        res := res + [tileCompResolutions[resno]];
      }
      var tile := new Buffer2d(b);
      bounds, unreducedBounds, resolutions, resBuffers := b, ub, res, [tile];
    }

    /**
     * transform: a code-block offset in band coordinates of band bandIndex of
     * resolution resno, moved into the tile buffer: relative to the band's
     * origin, plus the previous resolution's width for HL and HH and its
     * height for LH and HH, all in uint32_t arithmetic.
     */
    function Transform(resno: nat, bandIndex: nat, offsetx: Uint32, offsety: Uint32): (r: (Uint32, Uint32))
      reads this
      requires WellFormed(resolutions) && bandIndex < 3 && resno < |resolutions| && (resno == 0 ==> bandIndex == 0)
      ensures var band := resolutions[resno].bandWindow[bandIndex];
              var dx := if RightHalf(band.orientation) then Width(resolutions[resno - 1].rect) else 0;
              var dy := if LowerHalf(band.orientation) then Height(resolutions[resno - 1].rect) else 0;
              (band.rect.x0 <= offsetx && offsetx - band.rect.x0 + dx < U32 ==> r.0 == offsetx - band.rect.x0 + dx)
              && (band.rect.y0 <= offsety && offsety - band.rect.y0 + dy < U32 ==> r.1 == offsety - band.rect.y0 + dy)
    {
      var band := resolutions[resno].bandWindow[bandIndex];
      var x := SubU32(offsetx, band.rect.x0);
      var y := SubU32(offsety, band.rect.y0);
      var x' := if RightHalf(band.orientation) then AddU32(x, Width(resolutions[resno - 1].rect)) else x;
      var y' := if LowerHalf(band.orientation) then AddU32(y, Height(resolutions[resno - 1].rect)) else y;
      (x', y')
    }

    /** ptr(): the tile buffer's data. */
    function PtrTile(): Ptr
      reads this, resBuffers
      requires Valid()
    {
      TileBuf().data
    }

    /** ptr(resno): in unified mode every resolution starts at the tile buffer's data. */
    function PtrRes(resno: nat): (p: Ptr)
      reads this, resBuffers
      requires Valid()
      ensures p == PtrTile()
    {
      TileBuf().data
    }

    /** stride(): the tile buffer's stride. */
    function Stride(): Uint32
      reads this, resBuffers
      requires Valid()
    {
      TileBuf().stride
    }

    /** stride(resno, bandIndex): every band shares the tile buffer's stride. */
    function StrideBand(resno: nat, bandIndex: nat): (s: Uint32)
      reads this, resBuffers
      requires Valid() && bandIndex < 3 && resno < |resolutions|
      ensures s == Stride()
    {
      TileBuf().stride
    }

    /** stride(resno): every resolution shares the tile buffer's stride. */
    function StrideRes(resno: nat): (s: Uint32)
      reads this, resBuffers
      requires Valid()
      ensures s == Stride()
    {
      TileBuf().stride
    }

    /**
     * ptr(resno, bandIndex): the tile data plus the previous resolution's
     * width (HL), its height times the stride (LH), or both (HH); the row
     * offset is a uint32_t product.
     */
    function PtrBand(resno: nat, bandIndex: nat): (a: Address)
      reads this, resBuffers
      requires Valid() && bandIndex < 3 && 0 < resno < |resolutions|
      ensures a.base == PtrTile()
    {
      var lower := resolutions[resno - 1].rect;
      var rows := (Height(lower) * StrideBand(resno, bandIndex)) % U32;
      match bandIndex
      case 0 => Address(TileBuf().data, Width(lower))
      case 1 => Address(TileBuf().data, rows)
      case 2 => Address(TileBuf().data, Width(lower) + rows)
    }

    /** strided_area(), as intended: stride * bounds.height(). */
    function StridedArea(): nat
      reads this, resBuffers
      requires Valid()
    {
      StridedAreaOf(Stride(), Height(bounds))
    }

    /**
     * The band pointer and transform agree: the linear offset of the band's
     * own origin, once transformed, is the offset ptr(resno, bandIndex) adds
     * to the tile data, while the previous resolution's rows fit in 32 bits.
     */
    lemma PtrAgreesWithTransform(resno: nat, bandIndex: nat)
      requires Valid() && WellFormed(resolutions) && bandIndex < 3 && 0 < resno < |resolutions|
      requires Height(resolutions[resno - 1].rect) * Stride() < U32
      ensures var band := resolutions[resno].bandWindow[bandIndex];
              var t := Transform(resno, bandIndex, band.rect.x0, band.rect.y0);
              PtrBand(resno, bandIndex).offset == t.0 + t.1 * Stride()
    {
      var band := resolutions[resno].bandWindow[bandIndex];
      var w := Width(resolutions[resno - 1].rect);
      var h := Height(resolutions[resno - 1].rect);
      assert band.orientation == bandIndex + 1;
      var t := Transform(resno, bandIndex, band.rect.x0, band.rect.y0);
      assert t.0 == if bandIndex != 1 then w else 0;
      assert t.1 == if bandIndex != 0 then h else 0;
      assert t.1 * Stride() == if bandIndex != 0 then h * Stride() else 0;
    }

    /**
     * transform keeps a band apart from the previous resolution: a point of
     * an HL or HH band lands at or right of the previous resolution's width,
     * of LH or HH at or below its height, and the others start from zero.
     */
    lemma TransformQuadrant(resno: nat, bandIndex: nat, x: Uint32, y: Uint32)
      requires WellFormed(resolutions) && bandIndex < 3 && resno < |resolutions| && (resno == 0 ==> bandIndex == 0)
      requires Contains(resolutions[resno].bandWindow[bandIndex].rect, x, y)
      requires resno > 0 ==> Width(resolutions[resno - 1].rect) + Width(resolutions[resno].bandWindow[bandIndex].rect) < U32
      requires resno > 0 ==> Height(resolutions[resno - 1].rect) + Height(resolutions[resno].bandWindow[bandIndex].rect) < U32
      ensures var band := resolutions[resno].bandWindow[bandIndex];
              var t := Transform(resno, bandIndex, x, y);
              var w := if RightHalf(band.orientation) then Width(resolutions[resno - 1].rect) else 0;
              var h := if LowerHalf(band.orientation) then Height(resolutions[resno - 1].rect) else 0;
              w <= t.0 < w + Width(band.rect) && h <= t.1 < h + Height(band.rect)
    {
    }

    /** alloc: allocate each resolution buffer in turn, zero-filled when decoding; stop at the first failure. */
    method Alloc(blocks: seq<Ptr>, strides: seq<Uint32>) returns (ok: bool)
      requires Valid() && |blocks| == |resBuffers| && |strides| == |resBuffers|
      modifies TileBuf()
      ensures ok <==> forall i :: 0 <= i < |blocks| ==> blocks[i] != Null
      ensures ok ==> TileBuf().data == blocks[0] && TileBuf().stride == strides[0]
                     && TileBuf().ownsData && TileBuf().zeroFilled == !encode
      ensures !ok ==> TileBuf().data == old(TileBuf().data) && TileBuf().ownsData == old(TileBuf().ownsData)
    {
      var b := resBuffers[0];
      for i := 0 to |resBuffers|
        invariant forall k :: 0 <= k < i ==> blocks[k] != Null
        invariant i == 0 ==> b.data == old(b.data) && b.ownsData == old(b.ownsData)
        invariant i > 0 ==> b.data == blocks[0] && b.stride == strides[0] && b.ownsData && b.zeroFilled == !encode
      {
        var r := resBuffers[i].Alloc(!encode, blocks[i], strides[i]);
        if !r {
          return false;
        }
      }
      return true;
    }

    /** attach: the tile buffer borrows the caller's buffer; nothing else changes. */
    method Attach(buffer: Ptr, s: Uint32)
      requires Valid()
      modifies TileBuf()
      ensures TileBuf().data == buffer && TileBuf().stride == s && !TileBuf().ownsData
    {
      TileBuf().Attach(buffer, s);
    }

    /** acquire: the tile buffer takes ownership of the caller's buffer; nothing else changes. */
    method Acquire(buffer: Ptr, s: Uint32)
      requires Valid()
      modifies TileBuf()
      ensures TileBuf().data == buffer && TileBuf().stride == s && TileBuf().ownsData
    {
      TileBuf().Acquire(buffer, s);
    }

    /** transfer: the tile buffer hands out its data, ownership flag and stride and ceases to own the data. */
    method Transfer() returns (buffer: Ptr, owns: bool, s: Uint32)
      requires Valid()
      modifies TileBuf()
      ensures buffer == old(TileBuf().data) && owns == old(TileBuf().ownsData) && s == old(TileBuf().stride)
      ensures TileBuf().data == Null && !TileBuf().ownsData
    {
      buffer, owns, s := TileBuf().Transfer();
    }
  }
}
