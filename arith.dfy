/** Facts about integer multiplication and Euclidean division the solver does not find alone. */
module Arith {

  lemma MulStep(d: int, m: int)
    ensures (d + 1) * m == d * m + m
  {
  }

  lemma MulSub(a: int, b: int, m: int)
    ensures a * m - b * m == (a - b) * m
  {
  }

  lemma {:induction false} MulAtLeast(d: int, m: int)
    requires d >= 1 && m >= 0
    ensures d * m >= m
    decreases d
  {
    if d > 1 {
      MulAtLeast(d - 1, m);
      MulStep(d - 1, m);
    }
  }

  /** Euclidean division is determined by a quotient and an in-range remainder. */
  lemma DivModUnique(k: int, m: int, q: int, r: int)
    requires m > 0 && 0 <= r < m
    requires k == q * m + r
    ensures k / m == q && k % m == r
  {
    var q', r' := k / m, k % m;
    assert k == q' * m + r';
    MulSub(q', q, m);
    MulSub(q, q', m);
    if q' > q {
      MulAtLeast(q' - q, m);
    } else if q' < q {
      MulAtLeast(q - q', m);
    }
  }

  lemma MulNonNegative(d: int, m: int)
    requires d >= 0 && m >= 0
    ensures d * m >= 0
  {
    if d >= 1 {
      MulAtLeast(d, m);
    }
  }

  lemma DivModBasics(k: int, m: int)
    requires m > 0
    ensures k == (k / m) * m + k % m && 0 <= k % m < m
  {
  }

  lemma DivBound(k: int, m: int, b: int)
    requires m > 0 && 0 <= k < b * m
    ensures 0 <= k / m < b
  {
    DivModBasics(k, m);
  }

  /** Two residues of `a + n1` and `a + n2` differ when `n1` and `n2` are closer than `m`. */
  lemma ModDistinct(a: int, n1: int, n2: int, m: int)
    requires m > 0 && 0 <= n1 < n2 < n1 + m
    ensures (a + n1) % m != (a + n2) % m
  {
    var q1, q2 := (a + n1) / m, (a + n2) / m;
    DivModBasics(a + n1, m);
    DivModBasics(a + n2, m);
    if (a + n1) % m == (a + n2) % m {
      assert n2 - n1 == q2 * m - q1 * m;
      MulSub(q2, q1, m);
      if q2 - q1 >= 1 {
        MulAtLeast(q2 - q1, m);
      } else {
        MulNonNegative(q1 - q2, m);
        MulSub(q1, q2, m);
      }
    }
  }
}
