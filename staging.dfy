/*
 * The loops of PlanarToInterleaved::interleave (src/bin/common/convert.h:
 * 562-590) that move samples through the staging buffer and bytes into
 * the destination, for any packer: a packer that turns each chunk of c
 * samples into the bytes f(chunk) is the pair (c, f), as the packer is a
 * template parameter there.
 */
module Staging {

  import opened Arith
  import opened Buffers
  import opened Chunks
  import opened Samples

  /** `*(*dest)++ = b` for each byte b in turn. */
  method Store<U>(dest: array<U>, ptr: nat, bytes: seq<U>) returns (ptr': nat)
    requires ptr + |bytes| <= dest.Length
    modifies dest
    ensures ptr' == ptr + |bytes|
    ensures dest[..] == Splice(old(dest[..]), ptr, bytes)
  {
    ghost var d0 := dest[..];
    ptr' := ptr;
    var i := 0;
    while i < |bytes|
      invariant 0 <= i <= |bytes| && ptr' == ptr + i
      invariant dest[..] == Splice(d0, ptr, bytes[..i])
    {
      SpliceExtend(d0, ptr, bytes[..i], bytes[i]);
      assert bytes[..i + 1] == bytes[..i] + [bytes[i]];
      dest[ptr'] := bytes[i];
      ptr' := ptr' + 1;
      i := i + 1;
    }
    assert bytes[..i] == bytes;
  }

  /**
   * One turn of the draining loop on values: when the chunks before i have
   * been written at start, writing the chunk at i right after them leaves
   * the chunks from i + c on to write.
   */
  lemma DrainStep<T, U>(c: nat, f: seq<T> -> seq<U>, t: seq<T>, i: nat, emitted: seq<U>, d0: seq<U>, start: nat)
    requires c >= 1 && i + c <= |t|
    requires Chunked(c, f, t) == emitted + Chunked(c, f, t[i..])
    requires start + |Chunked(c, f, t)| <= |d0|
    ensures Chunked(c, f, t) == (emitted + f(t[i..i + c])) + Chunked(c, f, t[i + c..])
    ensures Leftover(c, t[i..]) == Leftover(c, t[i + c..])
    ensures start + |emitted| + |f(t[i..i + c])| <= |d0|
    ensures Splice(Splice(d0, start, emitted), start + |emitted|, f(t[i..i + c]))
         == Splice(d0, start, emitted + f(t[i..i + c]))
  {
    ChunkAdvance(c, f, t, i, emitted);
    SpliceSplice(d0, start, emitted, f(t[i..i + c]));
  }

  /**
   * while (srcOff >= srcChk) { pack(srcBuf + packOff, &destPtr); srcOff -=
   * srcChk; packOff += srcChk; }, for a packer that turns every chunk of c
   * samples into the bytes f(chunk), with staged the srcOff samples staged
   * in srcBuf: the whole chunks are packed and the leftover samples start
   * at packOff.
   */
  method Drain<T, U>(c: nat, f: seq<T> -> seq<U>, staged: seq<T>, dest: array<U>, ptr: nat)
    returns (packOff: nat, ptr': nat)
    requires c >= 1
    requires ptr + |Chunked(c, f, staged)| <= dest.Length
    modifies dest
    ensures packOff <= |staged| && staged[packOff..] == Leftover(c, staged)
    ensures ptr' == ptr + |Chunked(c, f, staged)|
    ensures dest[..] == Splice(old(dest[..]), ptr, Chunked(c, f, staged))
  {
    ghost var d0 := dest[..];
    ghost var emitted: seq<U> := [];
    packOff, ptr' := 0, ptr;
    while |staged| - packOff >= c
      invariant packOff <= |staged|
      invariant Chunked(c, f, staged) == emitted + Chunked(c, f, staged[packOff..])
      invariant Leftover(c, staged) == Leftover(c, staged[packOff..])
      invariant ptr' == ptr + |emitted| && dest[..] == Splice(d0, ptr, emitted)
      decreases |staged| - packOff
    {
      var bytes := f(staged[packOff..packOff + c]);
      DrainStep(c, f, staged, packOff, emitted, d0, ptr);
      emitted := emitted + bytes;
      ptr' := Store(dest, ptr', bytes);
      packOff := packOff + c;
    }
    ChunkShort(c, f, staged[packOff..]);
  }

  /** for k < srcOff: srcBuf[k] = srcBuf[packOff + k]: the leftover samples move to the front. */
  method ShiftDown<T>(srcBuf: array<T>, packOff: nat, srcOff: nat)
    requires packOff + srcOff <= srcBuf.Length
    modifies srcBuf
    ensures srcBuf[..srcOff] == old(srcBuf[packOff..packOff + srcOff])
  {
    ghost var b0 := srcBuf[..];
    var k := 0;
    while k < srcOff
      invariant 0 <= k <= srcOff
      invariant forall x :: 0 <= x < k ==> srcBuf[x] == b0[packOff + x]
      invariant forall x :: k <= x < srcBuf.Length ==> srcBuf[x] == b0[x]
    {
      srcBuf[k] := srcBuf[packOff + k];
      k := k + 1;
    }
  }

  /**
   * Staging the samples b after the samples a: the chunks of a + b are
   * those of a, then those of what a left over followed by b, and writing
   * the two runs one after the other writes the chunks of a + b.
   */
  lemma RowStep<T, U>(c: nat, f: seq<T> -> seq<U>, a: seq<T>, b: seq<T>, d0: seq<U>, start: nat)
    requires c >= 1 && start + |Chunked(c, f, a + b)| <= |d0|
    ensures Chunked(c, f, a + b) == Chunked(c, f, a) + Chunked(c, f, Leftover(c, a) + b)
    ensures Leftover(c, a + b) == Leftover(c, Leftover(c, a) + b)
    ensures Splice(Splice(d0, start, Chunked(c, f, a)), start + |Chunked(c, f, a)|, Chunked(c, f, Leftover(c, a) + b))
         == Splice(d0, start, Chunked(c, f, a + b))
  {
    ChunkedAppend(c, f, a, b);
    SpliceSplice(d0, start, Chunked(c, f, a), Chunked(c, f, Leftover(c, a) + b));
  }

  /** The chunks of the first j pixels of a row are no more than those of all w. */
  lemma RowChunksBound<U>(c: nat, f: seq<bv32> -> seq<U>, planes: seq<seq<I32>>, at: seq<nat>, j: nat, w: nat, adjust: I32)
    requires c >= 1 && PlanesHold(planes, at, w) && j <= w
    ensures |Chunked(c, f, RowSamples(planes, at, j, adjust))| <= |Chunked(c, f, RowSamples(planes, at, w, adjust))|
  {
    RowSamplesPrefix(planes, at, j, w, adjust);
    MulMono(j, w, |planes|);
    ChunkedPrefix(c, f, RowSamples(planes, at, w, adjust), |RowSamples(planes, at, j, adjust)|);
  }

  /** Pixel j of w extends the samples of the first j pixels, within the bound of the whole row. */
  lemma PixelNext<U>(c: nat, f: seq<bv32> -> seq<U>, planes: seq<seq<I32>>, at: seq<nat>, j: nat, w: nat, adjust: I32)
    requires c >= 1 && PlanesHold(planes, at, w) && j < w
    ensures PlanesHold(planes, at, j) && PlanesHold(planes, at, j + 1)
    ensures RowSamples(planes, at, j + 1, adjust) == RowSamples(planes, at, j, adjust) + PixelSamples(planes, at, j, adjust)
    ensures |Chunked(c, f, RowSamples(planes, at, j + 1, adjust))| <= |Chunked(c, f, RowSamples(planes, at, w, adjust))|
  {
    RowChunksBound(c, f, planes, at, j + 1, w, adjust);
  }

  /**
   * The body of the pixel loop of interleave(): the samples of pixel j are
   * staged after the srcOff samples already staged, the whole chunks are
   * packed at ptr and the samples left over move to the front of srcBuf.
   */
  method StageAndDrain(c: nat, f: seq<bv32> -> seq<bv8>, planes: seq<seq<I32>>, at: seq<nat>, j: nat, adjust: I32,
                       srcBuf: array<bv32>, srcOff: nat, dest: array<bv8>, ptr: nat) returns (srcOff': nat, ptr': nat)
    requires 1 <= c && srcOff + |planes| <= srcBuf.Length
    requires PlanesHold(planes, at, j + 1)
    requires ptr + |Chunked(c, f, srcBuf[..srcOff] + PixelSamples(planes, at, j, adjust))| <= dest.Length
    modifies srcBuf, dest
    ensures srcOff' < c && srcOff' <= srcOff + |planes|
    ensures srcBuf[..srcOff'] == Leftover(c, old(srcBuf[..srcOff]) + PixelSamples(planes, at, j, adjust))
    ensures ptr' == ptr + |Chunked(c, f, old(srcBuf[..srcOff]) + PixelSamples(planes, at, j, adjust))|
    ensures dest[..] == Splice(old(dest[..]), ptr, Chunked(c, f, old(srcBuf[..srcOff]) + PixelSamples(planes, at, j, adjust)))
  {
    var end := StagePixel(planes, at, j, adjust, srcBuf, srcOff);
    ghost var staged := srcBuf[..end];
    var packOff;
    packOff, ptr' := Drain(c, f, srcBuf[..end], dest, ptr);
    assert srcBuf[packOff..end] == staged[packOff..];
    ShiftDown(srcBuf, packOff, end - packOff);
    srcOff' := end - packOff;
  }

  /**
   * The pixel loop after the samples a: their whole chunks are written
   * from start and end at ptr, and what they left over is staged.
   */
  ghost predicate RowState(c: nat, f: seq<bv32> -> seq<bv8>, a: seq<bv32>, staged: seq<bv32>, start: nat, ptr: nat,
                           d0: seq<bv8>, d: seq<bv8>)
  {
    c >= 1 && staged == Leftover(c, a) && ptr == start + |Chunked(c, f, a)| && Written(d, d0, start, Chunked(c, f, a))
  }

  /**
   * One turn of the pixel loop: with the samples a of the pixels before j
   * cut into chunks written at start and their leftover staged, pixel j
   * moves both on to the samples a + PixelSamples(j).
   */
  method PixelStep(c: nat, f: seq<bv32> -> seq<bv8>, planes: seq<seq<I32>>, at: seq<nat>, j: nat, adjust: I32,
                   srcBuf: array<bv32>, srcOff: nat, dest: array<bv8>, ptr: nat,
                   ghost a: seq<bv32>, ghost d0: seq<bv8>, ghost start: nat)
    returns (srcOff': nat, ptr': nat)
    requires 1 <= c && c - 1 + |planes| <= srcBuf.Length && srcOff < c
    requires PlanesHold(planes, at, j + 1)
    requires start + |Chunked(c, f, a + PixelSamples(planes, at, j, adjust))| <= |d0|
    requires RowState(c, f, a, srcBuf[..srcOff], start, ptr, d0, dest[..])
    modifies srcBuf, dest
    ensures srcOff' < c
    ensures RowState(c, f, a + PixelSamples(planes, at, j, adjust), srcBuf[..srcOff'], start, ptr', d0, dest[..])
  {
    ghost var b := PixelSamples(planes, at, j, adjust);
    ghost var head, tail := Chunked(c, f, a), Chunked(c, f, Leftover(c, a) + b);
    RowStep(c, f, a, b, d0, start);
    srcOff', ptr' := StageAndDrain(c, f, planes, at, j, adjust, srcBuf, srcOff, dest, ptr);
    assert |Chunked(c, f, a + b)| == |head| + |tail|;
    assert dest[..] == Splice(Splice(d0, start, head), start + |head|, tail);
  }

  /**
   * One row of interleave() up to packFinal(): pixel by pixel, the samples
   * are staged and the whole chunks packed. What is still staged at the end
   * of the row is left for packFinal().
   */
  method StageRow(c: nat, f: seq<bv32> -> seq<bv8>, planes: seq<seq<I32>>, at: seq<nat>, w: nat, adjust: I32,
                  srcBuf: array<bv32>, dest: array<bv8>, ptr: nat) returns (srcOff: nat, ptr': nat)
    requires 1 <= c && c - 1 + |planes| <= srcBuf.Length
    requires PlanesHold(planes, at, w)
    requires ptr + |Chunked(c, f, RowSamples(planes, at, w, adjust))| <= dest.Length
    modifies srcBuf, dest
    ensures srcOff < c
    ensures srcBuf[..srcOff] == Leftover(c, RowSamples(planes, at, w, adjust))
    ensures ptr' == ptr + |Chunked(c, f, RowSamples(planes, at, w, adjust))|
    ensures dest[..] == Splice(old(dest[..]), ptr, Chunked(c, f, RowSamples(planes, at, w, adjust)))
  {
    ghost var d0 := dest[..];
    srcOff, ptr' := 0, ptr;
    var j := 0;
    ghost var done: seq<bv32> := [];
    while j < w
      invariant j <= w && srcOff < c && done == RowSamples(planes, at, j, adjust)
      invariant RowState(c, f, done, srcBuf[..srcOff], ptr, ptr', d0, dest[..])
    {
      ghost var next := done + PixelSamples(planes, at, j, adjust);
      PixelNext(c, f, planes, at, j, w, adjust);
      srcOff, ptr' := PixelStep(c, f, planes, at, j, adjust, srcBuf, srcOff, dest, ptr', done, d0, ptr);
      done := next;
      j := j + 1;
    }
  }

  /** One more sample of the pixel samples px, packed one sample per chunk. */
  lemma UnitPrefix<T, U>(f: seq<T> -> seq<U>, a: seq<T>, px: seq<T>, k: nat)
    requires k < |px|
    ensures Chunked(1, f, a + px[..k + 1]) == Chunked(1, f, a + px[..k]) + f([px[k]])
    ensures |Chunked(1, f, a + px[..k + 1])| <= |Chunked(1, f, a + px)|
  {
    assert a + px[..k + 1] == (a + px[..k]) + [px[k]];
    ChunkedUnit(f, a + px[..k], px[k]);
    assert (a + px)[..|a| + k + 1] == a + px[..k + 1];
    ChunkedPrefix(1, f, a + px, |a| + k + 1);
  }

  /**
   * The pixel loop body of the 8- and 16-bit specialisations of
   * interleave(): sample k of pixel j is stored at once as the bytes g(x).
   * With f([x]) == g(x), that is the packer f on one-sample chunks.
   */
  method UnitPixel(f: seq<bv32> -> seq<bv8>, g: bv32 -> seq<bv8>, planes: seq<seq<I32>>, at: seq<nat>, j: nat,
                   adjust: I32, dest: array<bv8>, ptr: nat, ghost a: seq<bv32>, ghost d0: seq<bv8>, ghost start: nat)
    returns (ptr': nat)
    requires forall x :: f([x]) == g(x)
    requires PlanesHold(planes, at, j + 1)
    requires start + |Chunked(1, f, a + PixelSamples(planes, at, j, adjust))| <= |d0|
    requires ptr == start + |Chunked(1, f, a)| && Written(dest[..], d0, start, Chunked(1, f, a))
    modifies dest
    ensures ptr' == start + |Chunked(1, f, a + PixelSamples(planes, at, j, adjust))|
    ensures Written(dest[..], d0, start, Chunked(1, f, a + PixelSamples(planes, at, j, adjust)))
  {
    ghost var px := PixelSamples(planes, at, j, adjust);
    ptr' := ptr;
    var k := 0;
    assert a + px[..0] == a;
    while k < |planes|
      invariant k <= |planes|
      invariant ptr' == start + |Chunked(1, f, a + px[..k])|
      invariant Written(dest[..], d0, start, Chunked(1, f, a + px[..k]))
    {
      ptr' := UnitSample(f, g, planes, at, j, k, adjust, dest, ptr', a, d0, start);
      k := k + 1;
    }
    assert px[..k] == px;
  }

  /** Sample k of pixel j stored as g(x) after the samples a and the first k of the pixel. */
  method UnitSample(f: seq<bv32> -> seq<bv8>, g: bv32 -> seq<bv8>, planes: seq<seq<I32>>, at: seq<nat>, j: nat,
                    k: nat, adjust: I32, dest: array<bv8>, ptr: nat, ghost a: seq<bv32>, ghost d0: seq<bv8>,
                    ghost start: nat)
    returns (ptr': nat)
    requires forall x :: f([x]) == g(x)
    requires PlanesHold(planes, at, j + 1) && k < |planes|
    requires start + |Chunked(1, f, a + PixelSamples(planes, at, j, adjust))| <= |d0|
    requires ptr == start + |Chunked(1, f, a + PixelSamples(planes, at, j, adjust)[..k])|
    requires Written(dest[..], d0, start, Chunked(1, f, a + PixelSamples(planes, at, j, adjust)[..k]))
    modifies dest
    ensures ptr' == start + |Chunked(1, f, a + PixelSamples(planes, at, j, adjust)[..k + 1])|
    ensures Written(dest[..], d0, start, Chunked(1, f, a + PixelSamples(planes, at, j, adjust)[..k + 1]))
  {
    ghost var px := PixelSamples(planes, at, j, adjust);
    var x := Adjusted(planes[k][at[k] + j], adjust);
    assert x == px[k];
    UnitPrefix(f, a, px, k);
    ghost var d1 := dest[..];
    var bytes := g(x);
    ptr' := Store(dest, ptr, bytes);
    WrittenThen(d0, start, Chunked(1, f, a + px[..k]), bytes, d1, dest[..]);
  }

  /**
   * One row of the 8- and 16-bit specialisations of interleave(): no
   * staging, every sample goes straight to the destination as g(x).
   */
  method UnitRow(f: seq<bv32> -> seq<bv8>, g: bv32 -> seq<bv8>, planes: seq<seq<I32>>, at: seq<nat>, w: nat,
                 adjust: I32, dest: array<bv8>, ptr: nat) returns (ptr': nat)
    requires forall x :: f([x]) == g(x)
    requires PlanesHold(planes, at, w)
    requires ptr + |Chunked(1, f, RowSamples(planes, at, w, adjust))| <= dest.Length
    modifies dest
    ensures ptr' == ptr + |Chunked(1, f, RowSamples(planes, at, w, adjust))|
    ensures Written(dest[..], old(dest[..]), ptr, Chunked(1, f, RowSamples(planes, at, w, adjust)))
  {
    ghost var d0 := dest[..];
    ptr' := ptr;
    var j := 0;
    ghost var done: seq<bv32> := [];
    while j < w
      invariant j <= w
      invariant done == RowSamples(planes, at, j, adjust)
      invariant ptr' == ptr + |Chunked(1, f, done)|
      invariant Written(dest[..], d0, ptr, Chunked(1, f, done))
    {
      ghost var next := done + PixelSamples(planes, at, j, adjust);
      PixelNext(1, f, planes, at, j, w, adjust);
      ptr' := UnitPixel(f, g, planes, at, j, adjust, dest, ptr', done, d0, ptr);
      done := next;
      j := j + 1;
    }
  }
}
