/** Powers of two and the bit operations that the page allocator applies to its
    order mask, on unbounded naturals. */
module Bits {

  function Pow2(k: nat): (p: nat)
    ensures p >= 1
  {
    if k == 0 then 1 else 2 * Pow2(k - 1)
  }

  /** Bitwise `a & b`. */
  function And(a: nat, b: nat): nat {
    if a == 0 || b == 0 then 0
    else (if a % 2 == 1 && b % 2 == 1 then 1 else 0) + 2 * And(a / 2, b / 2)
  }

  /** Bitwise `a & ~b`. */
  function AndNot(a: nat, b: nat): nat {
    if a == 0 then 0
    else (if a % 2 == 1 && b % 2 == 0 then 1 else 0) + 2 * AndNot(a / 2, b / 2)
  }

  /** Index of the highest set bit (`__fls`). */
  function Fls(x: nat): nat
    requires x > 0
  {
    if x == 1 then 0 else 1 + Fls(x / 2)
  }

  /** Number of set bits. */
  function PopCount(x: nat): nat {
    if x == 0 then 0 else x % 2 + PopCount(x / 2)
  }

  function Min(a: nat, b: nat): nat { if a <= b then a else b }

  lemma {:induction false} FlsBounds(x: nat)
    requires x > 0
    ensures Pow2(Fls(x)) <= x < 2 * Pow2(Fls(x))
  {
    if x > 1 { FlsBounds(x / 2); }
  }

  lemma MaskHalves(w: nat)
    requires w > 0
    ensures Pow2(w) - 1 > 0 && (Pow2(w) - 1) / 2 == Pow2(w - 1) - 1 && (Pow2(w) - 1) % 2 == 1
  {
  }

  /** The highest bit of the mask with the `w` lowest bits set. */
  lemma {:induction false} FlsOfMask(w: nat)
    requires w > 0
    ensures Pow2(w) - 1 > 0 && Fls(Pow2(w) - 1) == w - 1
  {
    if w > 1 {
      FlsOfMask(w - 1);
      MaskHalves(w);
    }
  }

  /** Intersecting two low masks gives the shorter one. */
  lemma {:induction false} AndOfMasks(v: nat, w: nat)
    ensures And(Pow2(v) - 1, Pow2(w) - 1) == Pow2(Min(v, w)) - 1
  {
    if v > 0 && w > 0 {
      AndOfMasks(v - 1, w - 1);
      MaskHalves(v);
      MaskHalves(w);
    }
  }

  lemma {:induction false} AndNotZero(a: nat)
    ensures AndNot(a, 0) == a
  {
    if a > 0 { AndNotZero(a / 2); }
  }

  /** Clearing the highest bit of a low mask gives the next shorter mask. */
  lemma {:induction false} ClearTopOfMask(w: nat)
    requires w > 0
    ensures AndNot(Pow2(w) - 1, Pow2(w - 1)) == Pow2(w - 1) - 1
  {
    if w > 1 {
      ClearTopOfMask(w - 1);
      MaskHalves(w);
      assert Pow2(w - 1) / 2 == Pow2(w - 2) && Pow2(w - 1) % 2 == 0;
    }
  }

  lemma {:induction false} Pow2Monotone(a: nat, b: nat)
    requires a <= b
    ensures Pow2(a) <= Pow2(b)
  {
    if a < b { Pow2Monotone(a, b - 1); }
  }

  lemma MulAtLeast(x: int, d: int)
    requires x >= 1 && d > 0
    ensures x * d >= d
  { }

  lemma QuotientUnique(d: nat, q1: int, r1: int, q2: int, r2: int)
    requires d > 0 && 0 <= r1 < d && 0 <= r2 < d
    requires d * q1 + r1 == d * q2 + r2
    ensures q1 == q2 && r1 == r2
  {
    assert (q2 - q1) * d == r1 - r2 && (q1 - q2) * d == r2 - r1;
    if q1 < q2 {
      MulAtLeast(q2 - q1, d);
    } else if q1 > q2 {
      MulAtLeast(q1 - q2, d);
    }
  }

  lemma DivModUnique(c: nat, d: nat, q: nat, r: nat)
    requires r < d && c == d * q + r
    ensures c / d == q && c % d == r
  {
    assert c == d * (c / d) + c % d;
    QuotientUnique(d, c / d, c % d, q, r);
  }

  /** Dividing by `2p` is halving and then dividing by `p`. */
  lemma Halved(c: nat, p: nat)
    requires p > 0
    ensures c / (2 * p) == (c / 2) / p
    ensures c % (2 * p) == 2 * ((c / 2) % p) + c % 2
  {
    var h := c / 2;
    var q, r := h / p, h % p;
    assert h == p * q + r;
    assert c == 2 * (p * q) + (2 * r + c % 2);
    assert 2 * (p * q) == (2 * p) * q;
    DivModUnique(c, 2 * p, q, 2 * r + c % 2);
  }
}
