/** Facts about products and remainders that the solver is given piece by piece. */
module Arith {

  lemma Distribute(a: int, b: int, m: int)
    ensures (a + b) * m == a * m + b * m
  {
  }

  lemma {:induction false} AtLeast(d: nat, m: nat)
    requires d > 0
    ensures d * m >= m
  {
    if d > 1 {
      AtLeast(d - 1, m);
      Distribute(d - 1, 1, m);
    }
  }

  lemma Apart(a: nat, b: nat, m: nat)
    requires a < b
    ensures b * m >= a * m + m
  {
    Distribute(a, b - a, m);
    AtLeast(b - a, m);
  }

  lemma Split(x: nat, m: nat)
    requires m > 0
    ensures x == x / m * m + x % m && x % m < m
  {
  }

  /** A number is one multiple and one remainder only. */
  lemma SplitUnique(x: nat, m: nat, q: nat, r: nat)
    requires m > 0 && x == q * m + r && r < m
    ensures x / m == q && x % m == r
  {
    Split(x, m);
    if q < x / m {
      Apart(q, x / m, m);
    } else if x / m < q {
      Apart(x / m, q, m);
    }
  }
}
