/*
 * Integer helpers shared by the models: powers of two, the 32-bit
 * unsigned modulus, and small facts about products and quotients that
 * keep nonlinear arithmetic out of the larger proofs.
 */
module Arith {

  /** 2^32: unsigned 32-bit arithmetic is arithmetic modulo U32. */
  const U32: int := 0x1_0000_0000

  /** A uint32_t value. */
  type Uint32 = x: int | 0 <= x < 0x1_0000_0000

  /** a + b in uint32_t arithmetic. */
  function AddU32(a: Uint32, b: Uint32): (r: Uint32)
    ensures r == (a + b) % U32
  {
    if a + b < U32 then a + b else a + b - U32
  }

  /** a - b in uint32_t arithmetic. */
  function SubU32(a: Uint32, b: Uint32): (r: Uint32)
    ensures r == (a - b) % U32
  {
    if b <= a then a - b else a - b + U32
  }

  /** A 32-bit signed sample. */
  type I32 = x: int | -0x8000_0000 <= x < 0x8000_0000

  /** Two's-complement wrap-around of a 32-bit lane: the I32 congruent to x modulo 2^32. */
  function Wrap(x: int): I32
  {
    if -0x8000_0000 <= x < 0x8000_0000 then x else (x + 0x8000_0000) % U32 - 0x8000_0000
  }

  /** Wrap keeps the value modulo 2^32 and is the identity on I32. */
  lemma WrapCongruent(x: int)
    ensures (x - Wrap(x)) % U32 == 0
    ensures -0x8000_0000 <= x < 0x8000_0000 ==> Wrap(x) == x
  {
    if !(-0x8000_0000 <= x < 0x8000_0000) {
      var q := (x + 0x8000_0000) / U32;
      assert x - Wrap(x) == q * U32;
    }
  }

  function Pow2(k: nat): (r: nat)
    ensures r >= 1
  {
    if k == 0 then 1 else 2 * Pow2(k - 1)
  }

  lemma {:induction false} Pow2Add(j: nat, k: nat)
    ensures Pow2(j + k) == Pow2(j) * Pow2(k)
  {
    if j > 0 { Pow2Add(j - 1, k); }
  }

  lemma Pow2Of30()
    ensures Pow2(30) == 0x4000_0000
  {
    assert Pow2(2) == 4;
    Pow2Add(2, 2);
    Pow2Add(4, 4);
    Pow2Add(8, 8);
    Pow2Add(16, 8);
    Pow2Add(24, 4);
    Pow2Add(28, 2);
  }

  lemma Pow2Monotone(j: nat, k: nat)
    requires j <= k
    ensures Pow2(j) <= Pow2(k)
  {
    if j < k { Pow2Monotone(j, k - 1); }
  }

  lemma MulMono(a: nat, b: nat, c: nat)
    requires a <= b
    ensures a * c <= b * c
  {
  }

  lemma MulAssoc(a: nat, b: nat, c: nat)
    ensures a * (b * c) == (a * b) * c
  {
  }

  lemma MulSucc(a: nat, b: nat)
    ensures (a + 1) * b == a * b + b
  {
  }

  lemma MulAdd(a: nat, b: nat, c: nat)
    ensures (a + b) * c == a * c + b * c
  {
  }

  /** The quotient of x by d, characterised by the bracket q * d <= x < q * d + d. */
  lemma Quotient(x: nat, d: nat) returns (q: nat)
    requires d > 0
    ensures q * d <= x < q * d + d
  {
    q := x / d;
  }

  /** A quotient bracket below m * d is below m. */
  lemma QuotientBelow(x: nat, d: nat, q: nat, m: nat)
    requires q * d <= x < m * d
    ensures q < m
  {
    if q >= m { MulMono(m, q, d); }
  }

  /** The bracket q * d <= x < q * d + d determines the quotient. */
  lemma QuotientUnique(x: nat, d: nat, q: nat)
    requires d > 0 && q * d <= x < q * d + d
    ensures x / d == q
  {
    var r := x / d;
    MulBelow(r, q, d);
    MulBelow(q, r, d);
  }

  /** a < b gives a whole d more below b * d than a * d. */
  lemma MulBelow(a: nat, b: nat, d: nat)
    ensures a < b ==> a * d + d <= b * d
  {
    if a < b { MulMono(a + 1, b, d); MulSucc(a, d); }
  }

  /** x = q * d + r with 0 <= r < d: q and r are the quotient and the remainder. */
  lemma DivMod(x: nat, d: nat, q: nat, r: nat)
    requires r < d && x == q * d + r
    ensures x / d == q && x % d == r
  {
    QuotientUnique(x, d, q);
  }
}
