// Products of variables: the few non-linear facts the numeral proofs rest on.
module Arith {

  lemma Distribute(a: int, b: int, p: int)
    ensures (a - b) * p == a * p - b * p
    ensures (a + b) * p == a * p + b * p
  {
  }

  lemma Associate(a: int, b: int, c: int)
    ensures (a * b) * c == a * (b * c)
    ensures (a * b) * c == (a * c) * b
  {
  }

  lemma ProductAtLeast(n: int, p: int)
    requires n >= 1 && p >= 0
    ensures n * p >= p
  {
  }

  lemma ProductZero(a: int, p: int)
    requires p > 0 && a * p == 0
    ensures a == 0
  {
  }

  lemma CancelFactor(a: int, b: int, p: int)
    requires p > 0 && a * p == b * p
    ensures a == b
  {
    Distribute(a, b, p);
    ProductZero(a - b, p);
  }

  /** Quotient and remainder are unique. */
  lemma DigitsUnique(i: int, f: int, j: int, k: int, p: int)
    requires 0 <= f < p && 0 <= k < p && i * p + f == j * p + k
    ensures i == j && f == k
  {
    Distribute(i, j, p);
    Distribute(j, i, p);
    if i > j {
      ProductAtLeast(i - j, p);
    } else if i < j {
      ProductAtLeast(j - i, p);
    }
  }

  lemma SmallerTimes(f: int, p: int, g: int)
    requires 0 <= f < p && g > 0
    ensures 0 <= f * g < p * g
  {
    Distribute(p, f, g);
    ProductAtLeast(p - f, g);
  }
}
