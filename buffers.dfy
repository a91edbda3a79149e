/*
 * Byte buffers written through a moving pointer (src/bin/common/convert.h
 * writes `*(*dest)++ = byte` and steps each row by destStride): Splice is the
 * buffer after a run of bytes is stored at one offset, Paint the buffer after
 * a sequence of rows is stored at a fixed stride.
 */
module Buffers {

  import opened Arith

  /** d with bytes stored from offset at. */
  function Splice<T>(d: seq<T>, at: nat, bytes: seq<T>): (r: seq<T>)
    requires at + |bytes| <= |d|
    ensures |r| == |d|
  {
    d[..at] + bytes + d[at + |bytes|..]
  }

  /** d is d0 with bytes stored from offset at. */
  ghost predicate Written<T>(d: seq<T>, d0: seq<T>, at: nat, bytes: seq<T>)
  {
    at + |bytes| <= |d0| && d == Splice(d0, at, bytes)
  }

  /** Two runs stored one right after the other are their concatenation stored at once. */
  lemma WrittenThen<T>(d0: seq<T>, at: nat, a: seq<T>, b: seq<T>, d1: seq<T>, d2: seq<T>)
    requires Written(d1, d0, at, a) && Written(d2, d1, at + |a|, b)
    ensures Written(d2, d0, at, a + b)
  {
    SpliceSplice(d0, at, a, b);
  }

  /** Storing one more byte just past a spliced run extends the run. */
  lemma SpliceExtend<T>(d: seq<T>, at: nat, bytes: seq<T>, b: T)
    requires at + |bytes| < |d|
    ensures Splice(d, at, bytes)[at + |bytes| := b] == Splice(d, at, bytes + [b])
  {
    var l := Splice(d, at, bytes)[at + |bytes| := b];
    var r := Splice(d, at, bytes + [b]);
    assert |l| == |r|;
    forall x | 0 <= x < |l| ensures l[x] == r[x] {
      if x < at {
      } else if x < at + |bytes| {
        assert l[x] == bytes[x - at];
      } else if x > at + |bytes| {
      }
    }
  }

  /** Two runs stored back to back are one run. */
  lemma SpliceSplice<T>(d: seq<T>, at: nat, a: seq<T>, b: seq<T>)
    requires at + |a| + |b| <= |d|
    ensures Splice(Splice(d, at, a), at + |a|, b) == Splice(d, at, a + b)
  {
    var l := Splice(Splice(d, at, a), at + |a|, b);
    var r := Splice(d, at, a + b);
    forall x | 0 <= x < |l| ensures l[x] == r[x] {
      if x < at {
      } else if x < at + |a| {
        assert l[x] == Splice(d, at, a)[x] == a[x - at];
      } else if x < at + |a| + |b| {
        assert l[x] == b[x - at - |a|];
      }
    }
  }

  /** Where row r of a buffer laid out at off with the given stride starts. */
  function RowStart(off: nat, stride: nat, r: nat): nat
  {
    off + r * stride
  }

  /** Every row fits in a buffer of length len. */
  predicate RowsFit<T>(len: nat, off: nat, stride: nat, rows: seq<seq<T>>)
  {
    forall r :: 0 <= r < |rows| ==> RowStart(off, stride, r) + |rows[r]| <= len
  }

  lemma RowsFitPrefix<T>(len: nat, off: nat, stride: nat, rows: seq<seq<T>>, n: nat)
    requires RowsFit(len, off, stride, rows) && n <= |rows|
    ensures RowsFit(len, off, stride, rows[..n])
  {
    forall r | 0 <= r < n ensures RowStart(off, stride, r) + |rows[..n][r]| <= len {
      assert rows[..n][r] == rows[r];
    }
  }

  /** d after rows[0], rows[1], ... are stored at off, off + stride, ... in that order. */
  function Paint<T>(d: seq<T>, off: nat, stride: nat, rows: seq<seq<T>>): (r: seq<T>)
    requires RowsFit(|d|, off, stride, rows)
    ensures |r| == |d|
  {
    if |rows| == 0 then d
    else
      var n := |rows| - 1;
      RowsFitPrefix(|d|, off, stride, rows, n);
      Splice(Paint(d, off, stride, rows[..n]), RowStart(off, stride, n), rows[n])
  }

  /** Positions outside every row keep their old contents. */
  lemma {:induction false} PaintOutside<T>(d: seq<T>, off: nat, stride: nat, rows: seq<seq<T>>, x: nat)
    requires RowsFit(|d|, off, stride, rows) && x < |d|
    requires forall r :: 0 <= r < |rows| ==>
      !(RowStart(off, stride, r) <= x < RowStart(off, stride, r) + |rows[r]|)
    ensures Paint(d, off, stride, rows)[x] == d[x]
  {
    if |rows| > 0 {
      var n := |rows| - 1;
      RowsFitPrefix(|d|, off, stride, rows, n);
      forall r | 0 <= r < n
        ensures !(RowStart(off, stride, r) <= x < RowStart(off, stride, r) + |rows[..n][r]|)
      {
        assert rows[..n][r] == rows[r];
      }
      PaintOutside(d, off, stride, rows[..n], x);
    }
  }

  /**
   * With rows no longer than the stride, byte c of row r lands at
   * RowStart(off, stride, r) + c: later rows do not overwrite it.
   */
  lemma {:induction false} PaintInside<T>(d: seq<T>, off: nat, stride: nat, rows: seq<seq<T>>, r: nat, c: nat)
    requires RowsFit(|d|, off, stride, rows)
    requires forall i :: 0 <= i < |rows| ==> |rows[i]| <= stride
    requires r < |rows| && c < |rows[r]|
    ensures Paint(d, off, stride, rows)[RowStart(off, stride, r) + c] == rows[r][c]
  {
    var n := |rows| - 1;
    RowsFitPrefix(|d|, off, stride, rows, n);
    if r < n {
      assert rows[..n][r] == rows[r];
      forall i | 0 <= i < n ensures |rows[..n][i]| <= stride {
        assert rows[..n][i] == rows[i];
      }
      PaintInside(d, off, stride, rows[..n], r, c);
      assert (r + 1) * stride <= n * stride by {
        assert r + 1 <= n;
        MulMono(r + 1, n, stride);
      }
      assert RowStart(off, stride, r) + c < RowStart(off, stride, n) by {
        assert (r + 1) * stride == r * stride + stride;
      }
    }
  }

  /** d is d0 with the rows stored at off, off + stride, ... in order. */
  ghost predicate Painted<T>(d: seq<T>, d0: seq<T>, off: nat, stride: nat, rows: seq<seq<T>>)
  {
    RowsFit(|d0|, off, stride, rows) && d == Paint(d0, off, stride, rows)
  }

  /** Storing one more row at the next row start extends the painted rows by that row. */
  lemma PaintedNext<T>(d0: seq<T>, off: nat, stride: nat, rows: seq<seq<T>>, row: seq<T>, d1: seq<T>, d2: seq<T>)
    requires Painted(d1, d0, off, stride, rows)
    requires Written(d2, d1, RowStart(off, stride, |rows|), row)
    ensures Painted(d2, d0, off, stride, rows + [row])
  {
    var all := rows + [row];
    assert all[..|rows|] == rows;
    forall r | 0 <= r < |all| ensures RowStart(off, stride, r) + |all[r]| <= |d0| {
      if r < |rows| { assert all[r] == rows[r]; }
    }
  }
}
