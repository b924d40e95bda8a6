/** Facts about natural-number multiplication and division with a symbolic
    divisor, which the unit conversions, duty scaling and speed mapping rely
    on. They are proved from the definition of `/` and `%`. */
module Arith {

  /** A product with a factor of at least one is at least the other factor. */
  lemma MulAtLeast(a: int, n: nat)
    requires a >= 1
    ensures a * n >= n
  {
    assert a * n == (a - 1) * n + n;
  }

  /** Division is unique: a quotient and remainder in range are the ones `/` gives. */
  lemma DivUnique(x: nat, n: nat, q: nat, rem: nat)
    requires n > 0 && rem < n && x == q * n + rem
    ensures x / n == q
  {
    var q', r' := x / n, x % n;
    assert x == q' * n + r' && r' < n;
    assert (q - q') * n == r' - rem;
    if q' < q {
      MulAtLeast(q - q', n);
    } else if q' > q {
      MulAtLeast(q' - q, n);
    }
  }

  /** Multiplying both sides by the same natural number keeps their order. */
  lemma MulMonotone(u: nat, v: nat, n: nat)
    requires u <= v
    ensures u * n <= v * n
  {
    assert v * n == u * n + (v - u) * n;
  }

  /** Multiplication distributes over a sum on the left. */
  lemma MulAddLeft(u: nat, v: nat, n: nat)
    ensures (u + v) * n == u * n + v * n
  {
  }

  /** Regrouping a product of three factors. */
  lemma MulRegroup(p: nat, a: nat, b: nat)
    ensures (p * b) * a == p * (a * b)
  {
  }

  /** A digit below `b` in base `a` followed by one below `a` stays below `a * b`. */
  lemma MixedRadixBound(r2: nat, r1: nat, a: nat, b: nat)
    requires r2 < b && r1 < a
    ensures r2 * a + r1 < a * b
  {
    MulMonotone(r2, b - 1, a);
    MulAddLeft(b - 1, 1, a);
  }

  /** Two nested quotient-remainder decompositions, by `a` and then by `b`,
      combine into one by `a * b`. */
  lemma DivDivSplit(x: nat, a: nat, b: nat, q: nat, r1: nat, p: nat, r2: nat)
    requires x == q * a + r1 && r1 < a
    requires q == p * b + r2 && r2 < b
    ensures x == p * (a * b) + (r2 * a + r1)
    ensures r2 * a + r1 < a * b
  {
    MulAddLeft(p * b, r2, a);
    MulRegroup(p, a, b);
    MixedRadixBound(r2, r1, a, b);
  }

  /** Dividing twice truncates exactly like dividing once by the product. */
  lemma DivDiv(x: nat, a: nat, b: nat)
    requires a > 0 && b > 0
    ensures x / a / b == x / (a * b)
  {
    var q := x / a;
    DivDivSplit(x, a, b, q, x % a, q / b, q % b);
    DivUnique(x, a * b, q / b, (q % b) * a + x % a);
  }

  /** Multiplying by a nonzero factor and dividing by it cancel. */
  lemma MulDivCancel(x: nat, k: nat)
    ensures k > 0 ==> (x * k) / k == x
  {
    if k > 0 {
      DivUnique(x * k, k, x, 0);
    }
  }

  /** The product of a quotient and its divisor never exceeds the dividend,
      and falls short of it by less than the divisor. */
  lemma DivBounds(x: nat, n: nat)
    requires n > 0
    ensures (x / n) * n <= x < (x / n) * n + n
  {
    assert x == (x / n) * n + x % n;
  }

  /** Division by a positive number keeps order. */
  lemma DivMonotone(u: nat, v: nat, n: nat)
    requires n > 0 && u <= v
    ensures u / n <= v / n
  {
    DivBounds(u, n);
    DivBounds(v, n);
    if u / n > v / n {
      MulMonotone(v / n + 1, u / n, n);
    }
  }
}
