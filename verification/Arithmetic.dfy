/** Products, remainders and powers of two, in the small steps the solver takes reliably. */
module Arithmetic {

  const U32: nat := 0x1_0000_0000

  function Min(a: nat, b: nat): (m: nat)
    ensures m <= a && m <= b && (m == a || m == b)
  {
    if a <= b then a else b
  }

  lemma Regroup(a: int, b: int, c: int)
    ensures a * b * c == a * (b * c)
  {
  }

  lemma Distribute(a: int, b: int, m: int)
    ensures (a + b) * m == a * m + b * m
  {
  }

  lemma DistributeMinus(a: int, b: int, m: int)
    ensures (a - b) * m == a * m - b * m
  {
  }

  lemma Doubled(m: int, x: int)
    ensures m * (2 * x) == 2 * (m * x)
  {
  }

  lemma ProductOrder(a: int, b: int, g: nat)
    requires a <= b
    ensures a * g <= b * g
  {
    DistributeMinus(b, a, g);
    NotNegative(b - a, g);
  }

  lemma NotNegative(x: nat, y: nat)
    ensures x * y >= 0
  {
  }

  lemma WholeStep(a: nat, b: nat, L: nat)
    requires a < b
    ensures a * L + L <= b * L
  {
    Distribute(a, 1, L);
    Distribute(a + 1, b - a - 1, L);
    assert 0 <= (b - a - 1) * L;
  }

  lemma RemainderIs(x: nat, q: nat, r: nat, a: nat)
    requires r < a && x == q * a + r
    ensures x % a == r
  {
    var p := x / a;
    assert x == p * a + x % a;
    if p < q {
      WholeStep(p, q, a);
    } else if q < p {
      WholeStep(q, p, a);
    }
  }

  lemma ExactDivision(n: nat, L: nat)
    requires L > 0
    ensures n * L % L == 0 && n * L / L == n
  {
    var q := n * L / L;
    assert q * L + n * L % L == n * L;
    if n < q {
      WholeStep(n, q, L);
    } else if q < n {
      WholeStep(q, n, L);
    }
  }

  function Pow2(n: nat): (p: nat)
    ensures p >= 1
  {
    if n == 0 then 1 else 2 * Pow2(n - 1)
  }

  lemma Pow2Step(n: nat)
    ensures Pow2(0) == 1 && Pow2(n + 1) == 2 * Pow2(n)
  {
  }

  lemma {:induction false} PowersAdd(a: nat, b: nat)
    ensures Pow2(a + b) == Pow2(a) * Pow2(b)
  {
    if a > 0 {
      PowersAdd(a - 1, b);
      Regroup(2, Pow2(a - 1), Pow2(b));
    }
  }

  lemma {:induction false} PowerBound(a: nat, b: nat)
    requires Pow2(a) <= Pow2(b)
    ensures a <= b
  {
    if a > 0 && b > 0 {
      PowerBound(a - 1, b - 1);
    }
  }
}
