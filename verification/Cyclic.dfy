/** Stepping round a cycle of n positions. */
module Cyclic {

  lemma ProductAtLeast(x: int, n: int)
    requires x >= 1 && n >= 0
    ensures x * n >= n
  {
  }

  lemma QuotientUnique(n: int, q: int, r: int, q': int, r': int)
    requires 0 <= r < n && 0 <= r' < n
    requires q * n + r == q' * n + r'
    ensures r == r'
  {
    assert (q - q') * n == r' - r && (q' - q) * n == r - r';
    if q > q' {
      ProductAtLeast(q - q', n);
    } else if q < q' {
      ProductAtLeast(q' - q, n);
    }
  }

  /** The position k steps on from a. */
  function Step(a: nat, n: nat, k: nat): (p: nat)
    requires n > 0
    ensures p < n
  {
    (a + k) % n
  }

  lemma StepIs(a: nat, n: nat, k: nat, q: int, r: int)
    requires 0 <= r < n && a + k == q * n + r
    ensures Step(a, n, k) == r
  {
    var b := a + k;
    assert b == (b / n) * n + b % n;
    QuotientUnique(n, q, r, b / n, b % n);
  }

  lemma StepQuotient(a: nat, n: nat, k: nat) returns (q: int)
    requires n > 0
    ensures a + k == q * n + Step(a, n, k)
  {
    q := (a + k) / n;
  }

  /** Stepping on from a reduced position is stepping on from the original. */
  lemma StepFromStep(a: nat, n: nat, k: nat)
    requires n > 0
    ensures Step(Step(a, n, k), n, 1) == Step(a, n, k + 1)
  {
    var q := StepQuotient(a, n, k);
    var r := Step(a, n, k);
    if r + 1 < n {
      StepIs(a, n, k + 1, q, r + 1);
      StepIs(r, n, 1, 0, r + 1);
    } else {
      assert a + (k + 1) == (q + 1) * n + 0;
      StepIs(a, n, k + 1, q + 1, 0);
      StepIs(r, n, 1, 1, 0);
    }
  }

  /** One step from a reduced position and k more are k + 1 from the original. */
  lemma StepShifts(a: nat, n: nat, k: nat)
    requires n > 0
    ensures Step(Step(a, n, 0) + 1, n, k) == Step(a, n, k + 1)
  {
    var r := Step(a, n, 0);
    var q := StepQuotient(a, n, 0);
    var q2 := StepQuotient(r + 1, n, k);
    assert a + (k + 1) == (q + q2) * n + Step(r + 1, n, k);
    StepIs(a, n, k + 1, q + q2, Step(r + 1, n, k));
  }

  /** Every position has a turn within n steps. */
  lemma StepReaches(a: nat, n: nat, j: nat) returns (k: nat)
    requires j < n
    ensures k < n && Step(a, n, k) == j
  {
    var q := StepQuotient(a, n, 0);
    var r := Step(a, n, 0);
    if j >= r {
      k := j - r;
      StepIs(a, n, k, q, j);
    } else {
      k := j + n - r;
      assert a + k == (q + 1) * n + j;
      StepIs(a, n, k, q + 1, j);
    }
  }

  lemma StepDistinct(a: nat, n: nat, k1: nat, k2: nat)
    requires k1 < k2 < n
    ensures Step(a, n, k1) != Step(a, n, k2)
  {
    var q1 := StepQuotient(a, n, k1);
    var q2 := StepQuotient(a, n, k2);
    if Step(a, n, k1) == Step(a, n, k2) {
      assert (q2 - q1) * n == k2 - k1 && (q1 - q2) * n == k1 - k2;
      if q2 > q1 {
        ProductAtLeast(q2 - q1, n);
      } else if q2 < q1 {
        ProductAtLeast(q1 - q2, n);
      }
    }
  }

  /** Among n consecutive steps every position has exactly one turn. */
  lemma ExactlyOnce(a: nat, n: nat, j: nat) returns (k: nat)
    requires j < n
    ensures k < n && Step(a, n, k) == j
    ensures forall k': nat :: k' < n && Step(a, n, k') == j ==> k' == k
  {
    k := StepReaches(a, n, j);
    forall k': nat | k' < n && Step(a, n, k') == j ensures k' == k {
      if k' < k {
        StepDistinct(a, n, k', k);
      } else if k < k' {
        StepDistinct(a, n, k, k');
      }
    }
  }
}
