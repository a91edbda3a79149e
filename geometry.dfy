/*
 * The integer rectangles (grk_rect_u32) the window buffer and the
 * scheduler compute with: corners (x0, y0) inclusive and (x1, y1)
 * exclusive, all uint32_t.
 */
module Geometry {

  import opened Arith

  datatype Rect = Rect(x0: Uint32, y0: Uint32, x1: Uint32, y1: Uint32)

  /** is_valid(): the corners are ordered. */
  predicate Valid(r: Rect)
  {
    r.x0 <= r.x1 && r.y0 <= r.y1
  }

  /** The points of a rectangle. */
  predicate Contains(r: Rect, x: int, y: int)
  {
    r.x0 <= x < r.x1 && r.y0 <= y < r.y1
  }

  /** width() = x1 - x0 in uint32_t arithmetic. */
  function Width(r: Rect): (w: Uint32)
    ensures r.x0 <= r.x1 ==> w == r.x1 - r.x0
  {
    SubU32(r.x1, r.x0)
  }

  /** height() = y1 - y0 in uint32_t arithmetic. */
  function Height(r: Rect): (h: Uint32)
    ensures r.y0 <= r.y1 ==> h == r.y1 - r.y0
  {
    SubU32(r.y1, r.y0)
  }

  function Max(a: Uint32, b: Uint32): Uint32 { if a < b then b else a }

  function Min(a: Uint32, b: Uint32): Uint32 { if a < b then a else b }

  /** intersection(): the largest rectangle inside both; it may come out inverted when they are disjoint. */
  function Intersection(a: Rect, b: Rect): (r: Rect)
    ensures forall x, y :: Contains(r, x, y) <==> Contains(a, x, y) && Contains(b, x, y)
    ensures Valid(r) ==> Valid(a) && Valid(b)
  {
    Rect(Max(a.x0, b.x0), Max(a.y0, b.y0), Min(a.x1, b.x1), Min(a.y1, b.y1))
  }

  /** nonEmptyIntersection(): the two rectangles share at least one point, tested on the corners. */
  function NonEmptyIntersection(a: Rect, b: Rect): (r: bool)
    ensures r ==> Contains(a, Max(a.x0, b.x0), Max(a.y0, b.y0)) && Contains(b, Max(a.x0, b.x0), Max(a.y0, b.y0))
    ensures !r ==> forall x, y :: !(Contains(a, x, y) && Contains(b, x, y))
  {
    Max(a.x0, b.x0) < Min(a.x1, b.x1) && Max(a.y0, b.y0) < Min(a.y1, b.y1)
  }

  /** (a + d - 1) / d is the ceiling of a / d, and at most a. */
  lemma CeilQuotient(a: nat, d: nat)
    requires d > 0
    ensures (a + d - 1) / d <= a
    ensures a <= (a + d - 1) / d * d
    ensures a == 0 || ((a + d - 1) / d - 1) * d < a
  {
    var q := Quotient(a + d - 1, d);
    QuotientUnique(a + d - 1, d, q);
    CeilQuotientBound(a, d, q);
    if q > 0 { MulSucc(q - 1, d); }
  }

  /** A quotient of a + d - 1 by d is at most a. */
  lemma CeilQuotientBound(a: nat, d: nat, q: nat)
    requires d > 0 && q * d <= a + d - 1
    ensures q <= a
  {
    if q > a {
      MulMono(a + 1, q, d);
      MulSucc(a, d);
      MulMono(1, d, a);
    }
  }

  /** ceildivpow2(a, b) = (a + 2^b - 1) >> b, evaluated in 64 bits: the ceiling of a / 2^b. */
  function CeilDivPow2(a: Uint32, b: nat): (r: Uint32)
    requires b < 64
    ensures a <= r * Pow2(b) && (r == 0 || (r - 1) * Pow2(b) < a)
  {
    CeilQuotient(a, Pow2(b));
    (a + Pow2(b) - 1) / Pow2(b)
  }

  /** ceildivpow2 is monotone, so a rectangle with ordered corners stays ordered. */
  lemma CeilDivPow2Monotone(a: Uint32, c: Uint32, b: nat)
    requires b < 64
    ensures a <= c ==> CeilDivPow2(a, b) <= CeilDivPow2(c, b)
  {
    var ra := CeilDivPow2(a, b);
    var rc := CeilDivPow2(c, b);
    if a <= c && ra > rc {
      MulMono(rc, ra - 1, Pow2(b));
    }
  }

  /** rectceildivpow2(b): every corner divided by 2^b, rounding up. */
  function RectCeilDivPow2(r: Rect, b: nat): (s: Rect)
    requires b < 64
    ensures Valid(r) ==> Valid(s)
  {
    CeilDivPow2Monotone(r.x0, r.x1, b);
    CeilDivPow2Monotone(r.y0, r.y1, b);
    Rect(CeilDivPow2(r.x0, b), CeilDivPow2(r.y0, b), CeilDivPow2(r.x1, b), CeilDivPow2(r.y1, b))
  }
}
