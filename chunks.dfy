/*
 * How interleave() (src/bin/common/convert.h:572-590) cuts the samples of
 * one row into packer calls: as soon as c samples are staged, they are
 * packed, so the row is packed c samples at a time from the front and
 * fewer than c samples are left for packFinal. The packer is a parameter
 * f here, so that these facts hold for every packer at once.
 */
module Chunks {

  import opened Arith
  import opened Bits

  /** The samples of s after its whole chunks of c. */
  function Leftover<T>(c: nat, s: seq<T>): (r: seq<T>)
    requires c >= 1
    ensures |r| < c && |r| <= |s|
    decreases |s|
  {
    if |s| < c then s else Leftover(c, s[c..])
  }

  /** The output of f applied to each whole chunk of c samples of s, in order. */
  function Chunked<T, U>(c: nat, f: seq<T> -> seq<U>, s: seq<T>): seq<U>
    requires c >= 1
    decreases |s|
  {
    if |s| < c then [] else f(s[..c]) + Chunked(c, f, s[c..])
  }

  /** The leftover samples are the last ones of s. */
  lemma {:induction false} LeftoverIsTail<T>(c: nat, s: seq<T>)
    requires c >= 1
    ensures Leftover(c, s) == s[|s| - |Leftover(c, s)|..]
    decreases |s|
  {
    if |s| >= c {
      var t := s[c..];
      LeftoverIsTail(c, t);
      var r := Leftover(c, t);
      assert Leftover(c, s) == r;
      var k := |t| - |r|;
      assert t[k..] == s[c + k..];
    } else {
      assert s[0..] == s;
    }
  }

  /**
   * Cutting a + b: the chunks of a, then the chunks of what a leaves over
   * followed by b. The staging buffer carries exactly those leftover
   * samples from one pixel to the next.
   */
  lemma {:induction false} ChunkedAppend<T, U>(c: nat, f: seq<T> -> seq<U>, a: seq<T>, b: seq<T>)
    requires c >= 1
    ensures Chunked(c, f, a + b) == Chunked(c, f, a) + Chunked(c, f, Leftover(c, a) + b)
    ensures Leftover(c, a + b) == Leftover(c, Leftover(c, a) + b)
    decreases |a|
  {
    if |a| >= c {
      assert (a + b)[..c] == a[..c];
      assert (a + b)[c..] == a[c..] + b;
      ChunkedAppend(c, f, a[c..], b);
    }
  }

  /** With chunks of one sample, one more sample appends its own output. */
  lemma ChunkedUnit<T, U>(f: seq<T> -> seq<U>, s: seq<T>, x: T)
    ensures Leftover(1, s) == []
    ensures Chunked(1, f, s + [x]) == Chunked(1, f, s) + f([x])
  {
    ChunkedAppend(1, f, s, [x]);
    assert Leftover(1, s) + [x] == [x];
    assert [x][..1] == [x] && [x][1..] == [];
  }

  /**
   * When f turns every chunk into b outputs, s is q whole chunks and its
   * leftover, and the chunks give q * b outputs.
   */
  lemma {:induction false} ChunkedLength<T, U>(c: nat, f: seq<T> -> seq<U>, b: nat, s: seq<T>) returns (q: nat)
    requires c >= 1
    requires forall t :: |t| == c ==> |f(t)| == b
    ensures |s| == q * c + |Leftover(c, s)|
    ensures |Chunked(c, f, s)| == q * b
    decreases |s|
  {
    if |s| < c {
      q := 0;
    } else {
      var q' := ChunkedLength(c, f, b, s[c..]);
      q := q' + 1;
    }
  }

  /**
   * One row: f on each whole chunk of c samples, then g on what is left,
   * if anything is.
   */
  function Row<T, U>(c: nat, f: seq<T> -> seq<U>, g: seq<T> -> seq<U>, s: seq<T>): seq<U>
    requires c >= 1
  {
    var rest := Leftover(c, s);
    Chunked(c, f, s) + (if |rest| == 0 then [] else g(rest))
  }

  /** A row of at least one chunk is f of the first chunk, then the row of the rest. */
  lemma RowFirst<T, U>(c: nat, f: seq<T> -> seq<U>, g: seq<T> -> seq<U>, s: seq<T>)
    requires 1 <= c <= |s|
    ensures Row(c, f, g, s) == f(s[..c]) + Row(c, f, g, s[c..])
  {
    var rest := Leftover(c, s);
    ConcatAssoc(f(s[..c]), Chunked(c, f, s[c..]), if |rest| == 0 then [] else g(rest));
  }

  /** A row shorter than a chunk is g of its samples, or nothing when it is empty. */
  lemma RowLast<T, U>(c: nat, f: seq<T> -> seq<U>, g: seq<T> -> seq<U>, s: seq<T>)
    requires 1 <= |s| < c
    ensures Row(c, f, g, s) == g(s)
  {
  }

  lemma BitsSplit(n: nat, c: nat, b: nat, q: nat, r: nat, m: nat)
    requires m == q * c + r && c * n == 8 * b
    ensures CeilBytes(n * m) == q * b + CeilBytes(n * r)
  {
    calc {
      n * m;
      n * (q * c) + n * r;
      { MulAssoc(q, c, n); }
      q * (c * n) + n * r;
      { MulAssoc(q, 8, b); }
      8 * (q * b) + n * r;
    }
  }

  /**
   * When f writes b outputs for c samples of n bits (c * n == 8 * b) and g
   * writes ceil(w * n / 8) outputs for w < c samples, a row of m samples
   * takes ceil(m * n / 8) outputs.
   */
  lemma RowLength<T, U>(c: nat, f: seq<T> -> seq<U>, g: seq<T> -> seq<U>, b: nat, n: nat, s: seq<T>)
    requires c >= 1 && c * n == 8 * b
    requires forall t :: |t| == c ==> |f(t)| == b
    requires forall t :: 1 <= |t| < c ==> |g(t)| == CeilBytes(n * |t|)
    ensures |Row(c, f, g, s)| == CeilBytes(n * |s|)
  {
    var rest := Leftover(c, s);
    var q := ChunkedLength(c, f, b, s);
    BitsSplit(n, c, b, q, |rest|, |s|);
  }

  /** The chunks of a prefix of s are no longer than the chunks of s. */
  lemma ChunkedPrefix<T, U>(c: nat, f: seq<T> -> seq<U>, s: seq<T>, m: nat)
    requires c >= 1 && m <= |s|
    ensures |Chunked(c, f, s[..m])| <= |Chunked(c, f, s)|
  {
    ChunkedAppend(c, f, s[..m], s[m..]);
    assert s[..m] + s[m..] == s;
  }

  /** The chunks from offset i on: one chunk at i, then the chunks from i + c on. */
  lemma ChunkStep<T, U>(c: nat, f: seq<T> -> seq<U>, s: seq<T>, i: nat)
    requires c >= 1 && i + c <= |s|
    ensures Chunked(c, f, s[i..]) == f(s[i..i + c]) + Chunked(c, f, s[i + c..])
    ensures Leftover(c, s[i..]) == Leftover(c, s[i + c..])
  {
    assert s[i..][..c] == s[i..i + c];
    assert s[i..][c..] == s[i + c..];
  }

  /**
   * One step of draining: when the chunks before offset i have been
   * emitted, emitting the chunk at i leaves the chunks from i + c on.
   */
  lemma ChunkAdvance<T, U>(c: nat, f: seq<T> -> seq<U>, s: seq<T>, i: nat, emitted: seq<U>)
    requires c >= 1 && i + c <= |s|
    requires Chunked(c, f, s) == emitted + Chunked(c, f, s[i..])
    ensures Chunked(c, f, s) == (emitted + f(s[i..i + c])) + Chunked(c, f, s[i + c..])
    ensures Leftover(c, s[i..]) == Leftover(c, s[i + c..])
  {
    ChunkStep(c, f, s, i);
    ConcatAssoc(emitted, f(s[i..i + c]), Chunked(c, f, s[i + c..]));
  }

  /** Fewer than c samples make no chunk and are all left over. */
  lemma ChunkShort<T, U>(c: nat, f: seq<T> -> seq<U>, s: seq<T>)
    requires 1 <= c && |s| < c
    ensures Chunked(c, f, s) == [] && Leftover(c, s) == s
  {
  }

  lemma ConcatAssoc<T>(a: seq<T>, b: seq<T>, c: seq<T>)
    ensures a + (b + c) == (a + b) + c
  {
  }

  /** A slice of a prefix is the same slice of the whole. */
  lemma SliceOfPrefix<T>(a: seq<T>, n: nat, i: nat, j: nat)
    requires i <= j <= n <= |a|
    ensures a[..n][i..j] == a[i..j]
  {
  }

  /**
   * With one sample per chunk and b bytes per sample, byte t of sample m
   * is byte m * b + t of the packed row.
   */
  lemma {:induction false} ChunkedUnitAt(f: seq<bv32> -> seq<bv8>, b: nat, s: seq<bv32>, m: nat, t: nat)
    requires forall x :: |f([x])| == b
    requires m < |s| && t < b
    ensures |Chunked(1, f, s)| == |s| * b
    ensures m * b + t < |s| * b && |f([s[m]])| == b
    ensures Chunked(1, f, s)[m * b + t] == f([s[m]])[t]
  {
    var n := |s| - 1;
    assert s == s[..n] + [s[n]];
    ChunkedUnit(f, s[..n], s[n]);
    MulSucc(n, b);
    if m < n {
      ChunkedUnitAt(f, b, s[..n], m, t);
    } else if n > 0 {
      ChunkedUnitAt(f, b, s[..n], 0, t);
    } else {
      assert Chunked(1, f, s[..n]) == [];
    }
  }
}
