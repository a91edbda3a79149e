/*
 * The MSB-first stream of a row of samples, with its positions counted in
 * unbounded integers, so that a row of any length can be cut into pieces
 * and joined again: the form in which the packers of
 * src/bin/common/convert.h lay out a whole row.
 */
module Streams {

  import opened Arith
  import opened Bits
  import opened Chunks

  /*
   * Bits.StreamBit and Bits.StreamByte count positions in 32 bits, which
   * keeps the proofs about single chunks small; ByteOfStreamFrom and
   * ByteFromCases let a proof move a given byte from one to the other.
   */

  /** j < 16 as a shift amount. */
  function Shift(j: nat): bv32
    requires j < 16
  {
    if j == 0 then 0 else if j == 1 then 1 else if j == 2 then 2 else if j == 3 then 3
    else if j == 4 then 4 else if j == 5 then 5 else if j == 6 then 6 else if j == 7 then 7
    else if j == 8 then 8 else if j == 9 then 9 else if j == 10 then 10 else if j == 11 then 11
    else if j == 12 then 12 else if j == 13 then 13 else if j == 14 then 14 else 15
  }

  /**
   * Byte k of the stream: the eight stream bits from bit 8k on, the first
   * of them in the top bit. Bit 8k is bit (8k mod n) of sample 8k div n,
   * counted from the sample's top bit.
   */
  function ByteOfStream(src: seq<bv32>, n: nat, k: nat): bv8
    requires 1 <= n <= 16
  {
    ByteFrom(src, n, 8 * k / n, 8 * k % n)
  }

  /** The first m bytes of the stream. */
  function Stream(src: seq<bv32>, n: nat, m: nat): (r: seq<bv8>)
    requires 1 <= n <= 16
    ensures |r| == m
  {
    seq(m, k requires 0 <= k < m => ByteOfStream(src, n, k))
  }

  /** The stream bit i places after bit r (from the top) of sample a. */
  function BitAfter(src: seq<bv32>, n: nat, a: nat, r: nat, i: nat): bv32
    requires 1 <= n <= 16 && r < n && i < 8
  {
    FieldBit(src, a + Carry(n, r + i), Shift(Place(n, r + i)))
  }

  /** How many whole samples of n bits lie before bit t (t div n, for t < 8n). */
  function Carry(n: nat, t: nat): (c: nat)
    requires 1 <= n
    ensures c <= 7
  {
    if t < n then 0 else if t < 2 * n then 1 else if t < 3 * n then 2 else if t < 4 * n then 3
    else if t < 5 * n then 4 else if t < 6 * n then 5 else if t < 7 * n then 6 else 7
  }

  /** Which bit of its sample bit t is, counted from bit 0 (n - 1 - t mod n, for t < 8n). */
  function Place(n: nat, t: nat): (j: nat)
    requires 1 <= n && t < 8 * n
    ensures j < n
  {
    if t < n then n - 1 - t else if t < 2 * n then 2 * n - 1 - t else if t < 3 * n then 3 * n - 1 - t
    else if t < 4 * n then 4 * n - 1 - t else if t < 5 * n then 5 * n - 1 - t
    else if t < 6 * n then 6 * n - 1 - t else if t < 7 * n then 7 * n - 1 - t else 8 * n - 1 - t
  }

  /** The eight stream bits from bit r of sample a on, as a byte. */
  function ByteFrom(src: seq<bv32>, n: nat, a: nat, r: nat): bv8
    requires 1 <= n <= 16 && r < n
  {
    Lo8((BitAfter(src, n, a, r, 0) << 7) | (BitAfter(src, n, a, r, 1) << 6)
      | (BitAfter(src, n, a, r, 2) << 5) | (BitAfter(src, n, a, r, 3) << 4)
      | (BitAfter(src, n, a, r, 4) << 3) | (BitAfter(src, n, a, r, 5) << 2)
      | (BitAfter(src, n, a, r, 6) << 1) | BitAfter(src, n, a, r, 7))
  }

  /** BitAfter written out case by case, which evaluates quickly for given n, r and i. */
  function BitAfterCases(src: seq<bv32>, n: nat, a: nat, r: nat, i: nat): bv32
    requires 1 <= n <= 16 && r < n && i < 8
  {
    var t := r + i;
    if t < n then FieldBit(src, a, Shift(n - 1 - t))
    else if t < 2 * n then FieldBit(src, a + 1, Shift(2 * n - 1 - t))
    else if t < 3 * n then FieldBit(src, a + 2, Shift(3 * n - 1 - t))
    else if t < 4 * n then FieldBit(src, a + 3, Shift(4 * n - 1 - t))
    else if t < 5 * n then FieldBit(src, a + 4, Shift(5 * n - 1 - t))
    else if t < 6 * n then FieldBit(src, a + 5, Shift(6 * n - 1 - t))
    else if t < 7 * n then FieldBit(src, a + 6, Shift(7 * n - 1 - t))
    else FieldBit(src, a + 7, Shift(8 * n - 1 - t))
  }

  /** ByteFrom with its bits written out case by case. */
  function ByteFromCases(src: seq<bv32>, n: nat, a: nat, r: nat): bv8
    requires 1 <= n <= 16 && r < n
  {
    Lo8((BitAfterCases(src, n, a, r, 0) << 7) | (BitAfterCases(src, n, a, r, 1) << 6)
      | (BitAfterCases(src, n, a, r, 2) << 5) | (BitAfterCases(src, n, a, r, 3) << 4)
      | (BitAfterCases(src, n, a, r, 4) << 3) | (BitAfterCases(src, n, a, r, 5) << 2)
      | (BitAfterCases(src, n, a, r, 6) << 1) | BitAfterCases(src, n, a, r, 7))
  }

  lemma BitAfterByCases(src: seq<bv32>, n: nat, a: nat, r: nat, i: nat)
    requires 1 <= n <= 16 && r < n && i < 8
    ensures BitAfter(src, n, a, r, i) == BitAfterCases(src, n, a, r, i)
  {
  }

  lemma ByteFromByCases(src: seq<bv32>, n: nat, a: nat, r: nat)
    requires 1 <= n <= 16 && r < n
    ensures ByteFrom(src, n, a, r) == ByteFromCases(src, n, a, r)
  {
    BitAfterByCases(src, n, a, r, 0);
    BitAfterByCases(src, n, a, r, 1);
    BitAfterByCases(src, n, a, r, 2);
    BitAfterByCases(src, n, a, r, 3);
    BitAfterByCases(src, n, a, r, 4);
    BitAfterByCases(src, n, a, r, 5);
    BitAfterByCases(src, n, a, r, 6);
    BitAfterByCases(src, n, a, r, 7);
  }

  /** Byte k of the stream, where 8k = a * n + r, starts at bit r of sample a. */
  lemma ByteOfStreamFrom(src: seq<bv32>, n: nat, k: nat, a: nat, r: nat)
    requires 1 <= n <= 16 && r < n && 8 * k == a * n + r
    ensures ByteOfStream(src, n, k) == ByteFrom(src, n, a, r)
  {
    DivMod(8 * k, n, a, r);
  }

  /** The same byte, written out case by case. */
  lemma ByteOfStreamCases(src: seq<bv32>, n: nat, k: nat, a: nat, r: nat)
    requires 1 <= n <= 16 && r < n && 8 * k == a * n + r
    ensures ByteOfStream(src, n, k) == ByteFromCases(src, n, a, r)
  {
    ByteOfStreamFrom(src, n, k, a, r);
    ByteFromByCases(src, n, a, r);
  }

  /** Past the samples of a, the stream of a + b reads the samples of b. */
  lemma ByteFromAfter(a: seq<bv32>, b: seq<bv32>, n: nat, x: nat, r: nat)
    requires 1 <= n <= 16 && r < n
    ensures ByteFrom(a + b, n, |a| + x, r) == ByteFrom(b, n, x, r)
  {
    BitAfterAfter(a, b, n, x, r, 0);
    BitAfterAfter(a, b, n, x, r, 1);
    BitAfterAfter(a, b, n, x, r, 2);
    BitAfterAfter(a, b, n, x, r, 3);
    BitAfterAfter(a, b, n, x, r, 4);
    BitAfterAfter(a, b, n, x, r, 5);
    BitAfterAfter(a, b, n, x, r, 6);
    BitAfterAfter(a, b, n, x, r, 7);
  }

  lemma BitAfterAfter(a: seq<bv32>, b: seq<bv32>, n: nat, x: nat, r: nat, i: nat)
    requires 1 <= n <= 16 && r < n && i < 8
    ensures BitAfter(a + b, n, |a| + x, r, i) == BitAfter(b, n, x, r, i)
  {
    FieldBitAfter(a, b, x + Carry(n, r + i), Shift(Place(n, r + i)));
  }

  lemma FieldBitAfter(a: seq<bv32>, b: seq<bv32>, y: nat, j: bv32)
    ensures FieldBit(a + b, |a| + y, j) == FieldBit(b, y, j)
  {
  }

  /** Eight bits that end within the d samples of a from sample x on read only a. */
  lemma ByteFromWithin(a: seq<bv32>, b: seq<bv32>, n: nat, x: nat, d: nat, r: nat)
    requires 1 <= n <= 16 && r < n && x + d == |a| && r + 8 <= d * n
    ensures ByteFrom(a + b, n, x, r) == ByteFrom(a, n, x, r)
  {
    BitAfterWithin(a, b, n, x, d, r, 0);
    BitAfterWithin(a, b, n, x, d, r, 1);
    BitAfterWithin(a, b, n, x, d, r, 2);
    BitAfterWithin(a, b, n, x, d, r, 3);
    BitAfterWithin(a, b, n, x, d, r, 4);
    BitAfterWithin(a, b, n, x, d, r, 5);
    BitAfterWithin(a, b, n, x, d, r, 6);
    BitAfterWithin(a, b, n, x, d, r, 7);
  }

  lemma BitAfterWithin(a: seq<bv32>, b: seq<bv32>, n: nat, x: nat, d: nat, r: nat, i: nat)
    requires 1 <= n <= 16 && r < n && i < 8 && x + d == |a| && r + i < d * n
    ensures BitAfter(a + b, n, x, r, i) == BitAfter(a, n, x, r, i)
  {
    CarryBelow(n, r + i, d);
  }

  /** A bit before bit d * n lies in one of the first d samples. */
  lemma CarryBelow(n: nat, t: nat, d: nat)
    requires 1 <= n && t < d * n
    ensures Carry(n, t) < d
  {
    if d < 8 {
      assert d == 1 || d == 2 || d == 3 || d == 4 || d == 5 || d == 6 || d == 7;
    }
  }

  /** When a fills exactly k bytes, byte j < k of the stream of a + b comes from a. */
  lemma ByteOfStreamInFront(a: seq<bv32>, b: seq<bv32>, n: nat, k: nat, j: nat)
    requires 1 <= n <= 16 && |a| * n == 8 * k && j < k
    ensures ByteOfStream(a + b, n, j) == ByteOfStream(a, n, j)
  {
    var x, r := 8 * j / n, 8 * j % n;
    var d := RoomAfter(8 * j, n, x, r, |a|);
    ByteOfStreamFrom(a + b, n, j, x, r);
    ByteOfStreamFrom(a, n, j, x, r);
    ByteFromWithin(a, b, n, x, d, r);
  }

  /** When bits q .. q + 7 end before bit m * n, the byte from bit q lies within samples x .. x + d - 1 < m. */
  lemma RoomAfter(q: nat, n: nat, x: nat, r: nat, m: nat) returns (d: nat)
    requires 1 <= n && x == q / n && r == q % n && q + 8 <= m * n
    ensures x + d == m && r + 8 <= d * n
  {
    DivMod(q, n, x, r);
    QuotientBelow(q, n, x, m);
    d := m - x;
    MulAdd(d, x, n);
  }

  /** When a fills exactly k bytes, byte j >= k of the stream of a + b is byte j - k of b's. */
  lemma ByteOfStreamBehind(a: seq<bv32>, b: seq<bv32>, n: nat, k: nat, j: nat)
    requires 1 <= n <= 16 && |a| * n == 8 * k && j >= k
    ensures ByteOfStream(a + b, n, j) == ByteOfStream(b, n, j - k)
  {
    var x, r := 8 * (j - k) / n, 8 * (j - k) % n;
    DivMod(8 * (j - k), n, x, r);
    MulAdd(x, |a|, n);
    ByteOfStreamFrom(a + b, n, j, |a| + x, r);
    ByteOfStreamFrom(b, n, j - k, x, r);
    ByteFromAfter(a, b, n, x, r);
  }

  /** When a fills exactly k bytes, byte j of the stream of a + b comes from a or from b. */
  lemma ByteOfStreamAppend(a: seq<bv32>, b: seq<bv32>, n: nat, k: nat, j: nat)
    requires 1 <= n <= 16 && |a| * n == 8 * k
    ensures j < k ==> ByteOfStream(a + b, n, j) == ByteOfStream(a, n, j)
    ensures j >= k ==> ByteOfStream(a + b, n, j) == ByteOfStream(b, n, j - k)
  {
    if j < k {
      ByteOfStreamInFront(a, b, n, k, j);
    } else {
      ByteOfStreamBehind(a, b, n, k, j);
    }
  }

  /**
   * The stream of a + b, where a fills exactly k bytes, is the k bytes of
   * a followed by the stream of b.
   */
  lemma StreamAppend(a: seq<bv32>, b: seq<bv32>, n: nat, k: nat, m: nat)
    requires 1 <= n <= 16 && |a| * n == 8 * k
    ensures Stream(a + b, n, k + m) == Stream(a, n, k) + Stream(b, n, m)
  {
    forall j | 0 <= j < k + m
      ensures Stream(a + b, n, k + m)[j] == (Stream(a, n, k) + Stream(b, n, m))[j]
    {
      ByteOfStreamAppend(a, b, n, k, j);
      StreamAppendAt(a, b, n, k, m, j);
    }
  }

  /** Byte j of a + b's stream, once it is known to be byte j of a's or byte j - k of b's. */
  lemma StreamAppendAt(a: seq<bv32>, b: seq<bv32>, n: nat, k: nat, m: nat, j: nat)
    requires 1 <= n <= 16 && j < k + m
    requires j < k ==> ByteOfStream(a + b, n, j) == ByteOfStream(a, n, j)
    requires j >= k ==> ByteOfStream(a + b, n, j) == ByteOfStream(b, n, j - k)
    ensures Stream(a + b, n, k + m)[j] == (Stream(a, n, k) + Stream(b, n, m))[j]
  {
  }

  /** Both parts of samples that fit n bits fit n bits. */
  lemma FitsSplit(s: seq<bv32>, c: nat, n: bv32)
    requires c <= |s| && n <= 32 && Fits(s, n)
    ensures Fits(s[..c], n) && Fits(s[c..], n)
  {
    assert forall i :: 0 <= i < |s| - c ==> s[c..][i] == s[c + i];
  }

  /**
   * Cut after c samples that fill exactly k bytes, the stream of a row is the
   * k bytes of its first c samples followed by the stream of the rest.
   */
  lemma StreamSplit(s: seq<bv32>, c: nat, n: nat, k: nat)
    requires 1 <= n <= 16 && c <= |s| && c * n == 8 * k
    ensures Stream(s, n, PaddedBytes(n, |s|)) == Stream(s[..c], n, k) + Stream(s[c..], n, PaddedBytes(n, |s[c..]|))
  {
    var b := s[c..];
    MulAdd(c, |b|, n);
    assert PaddedBytes(n, |s|) == k + PaddedBytes(n, |b|);
    assert s[..c] + b == s;
    StreamAppend(s[..c], b, n, k, PaddedBytes(n, |b|));
  }

  /** The bytes that hold m samples of n bits, the last one zero-padded. */
  function PaddedBytes(n: nat, m: nat): nat
  {
    CeilBytes(n * m)
  }

  /**
   * When f writes every chunk of c samples as the k bytes of its n-bit
   * stream, and g every shorter tail as its stream padded to a byte, a row
   * is the stream of all its samples: the chunks fill whole bytes, so their
   * streams join without a gap. The samples need to fit n bits unless the
   * packer masks them.
   */
  lemma {:induction false} RowIsStream(c: nat, f: seq<bv32> -> seq<bv8>, g: seq<bv32> -> seq<bv8>, s: seq<bv32>,
                                       n: nat, nb: bv32, k: nat, masked: bool)
    requires 1 <= c && 1 <= n <= 16 && nb <= 32 && c * n == 8 * k
    requires masked || Fits(s, nb)
    requires forall t :: |t| == c && (masked || Fits(t, nb)) ==> f(t) == Stream(t, n, k)
    requires forall t :: 1 <= |t| < c && (masked || Fits(t, nb)) ==> g(t) == Stream(t, n, PaddedBytes(n, |t|))
    ensures Row(c, f, g, s) == Stream(s, n, PaddedBytes(n, |s|))
    decreases |s|
  {
    if |s| >= c {
      if !masked {
        FitsSplit(s, c, nb);
      }
      RowIsStream(c, f, g, s[c..], n, nb, k, masked);
      RowStreamStep(c, f, g, s, n, k);
    } else if |s| >= 1 {
      RowLast(c, f, g, s);
    }
  }

  /** One chunk that is its k stream bytes, then a row that is its stream, make a row that is its stream. */
  lemma RowStreamStep(c: nat, f: seq<bv32> -> seq<bv8>, g: seq<bv32> -> seq<bv8>, s: seq<bv32>, n: nat, k: nat)
    requires 1 <= c <= |s| && 1 <= n <= 16 && c * n == 8 * k
    requires f(s[..c]) == Stream(s[..c], n, k)
    requires Row(c, f, g, s[c..]) == Stream(s[c..], n, PaddedBytes(n, |s[c..]|))
    ensures Row(c, f, g, s) == Stream(s, n, PaddedBytes(n, |s|))
  {
    RowFirst(c, f, g, s);
    StreamSplit(s, c, n, k);
  }
}
