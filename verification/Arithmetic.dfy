/** The few facts about products and quotients that the bounds in this project need. */
module Arithmetic {

  lemma MulMonotone(a: int, b: int, d: nat)
    ensures a <= b ==> a * d <= b * d
  {
    assert b * d == a * d + (b - a) * d;
    assert a <= b ==> 0 <= (b - a) * d;
  }

  lemma Commutes(a: int, b: int)
    ensures a * b == b * a
  {
  }

  lemma ProductIsNat(a: int, b: int)
    requires 0 <= a && 0 <= b
    ensures 0 <= a * b
  {
    MulMonotone(0, b, a);
  }

  lemma MulSplit(r: int, a: int, b: int)
    ensures r * (a + b) == r * a + r * b
  {
  }

  /** A further window is worth one more limit. */
  lemma MoreWindows(limit: nat, a: nat, b: nat)
    requires a <= b
    ensures limit <= limit * (1 + a) <= limit * (1 + b)
    ensures a < b ==> limit * (1 + a) + limit <= limit * (1 + b)
  {
    MulMonotone(1, 1 + a, limit);
    MulMonotone(1 + a, 1 + b, limit);
    MulMonotone(2 + a, 1 + b, limit);
    assert (2 + a) * limit == limit * (1 + a) + limit;
  }

  lemma DivAtLeast(x: nat, d: nat, k: nat)
    requires d >= 1 && k * d <= x
    ensures k <= x / d
  {
    var q := x / d;
    assert x == q * d + x % d;
    MulMonotone(q + 1, k, d);
    assert (q + 1) * d == q * d + d;
  }

  /** How many whole steps of length `d` fit in `x`: x / d, by repeated subtraction. */
  function Whole(x: int, d: nat): nat
    requires d >= 1
    decreases x
  {
    if x < d then 0 else 1 + Whole(x - d, d)
  }

  lemma {:induction false} WholeMonotone(x: int, y: int, d: nat)
    requires d >= 1 && x <= y
    ensures Whole(x, d) <= Whole(y, d)
    decreases x
  {
    if x >= d {
      WholeMonotone(x - d, y - d, d);
    }
  }

  lemma {:induction false} WholeTimes(x: nat, d: nat)
    requires d >= 1
    ensures Whole(x, d) * d <= x < (Whole(x, d) + 1) * d
    decreases x
  {
    if x >= d {
      WholeTimes(x - d, d);
      assert Whole(x, d) * d == Whole(x - d, d) * d + d;
      assert (Whole(x, d) + 1) * d == Whole(x, d) * d + d;
    }
  }

  lemma WholeIsDiv(x: nat, d: nat)
    requires d >= 1
    ensures Whole(x, d) == x / d
  {
    WholeTimes(x, d);
    DivAtLeast(x, d, Whole(x, d));
    DivIsAtMost(x, d, Whole(x, d));
  }

  lemma DivIsAtMost(x: nat, d: nat, k: nat)
    requires d >= 1 && x < (k + 1) * d
    ensures x / d <= k
  {
    var q := x / d;
    assert q * d <= x;
    MulMonotone(k + 1, q, d);
  }

  /** Dividing by more gives no more. */
  lemma DivLarger(x: nat, d: nat, e: nat)
    requires 1 <= d <= e
    ensures x / e <= x / d
  {
    var q := x / e;
    assert q * e <= x;
    MulMonotone(d, e, q);
    assert q * d == d * q && q * e == e * q;
    DivAtLeast(x, d, q);
  }
}
