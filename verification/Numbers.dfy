/** Arithmetic facts that the solver does not find by itself. */
module Numbers {

  lemma MulMono(a: int, b: int, n: nat)
    requires a <= b
    ensures a * n <= b * n
  {
  }

  lemma DivSlack(m: nat, n: nat)
    requires n > 0
    ensures m < (m / n + 1) * n
  {
    assert m == (m / n) * n + m % n;
  }

  lemma DivModOf(q: nat, n: nat, r: nat)
    requires r < n
    ensures (q * n + r) / n == q && (q * n + r) % n == r
  {
    var m := q * n + r;
    var q' := m / n;
    assert m == q' * n + m % n;
    if q' > q {
      MulMono(q + 1, q', n);
    } else if q' < q {
      MulMono(q' + 1, q, n);
    }
  }

  lemma QuotientPositive(m: nat, n: nat)
    requires 0 < n <= m
    ensures m / n >= 1
  {
    DivSlack(m, n);
  }

  lemma NextDivMod(m: nat, n: nat)
    requires n > 0
    ensures if m % n == n - 1 then (m + 1) / n == m / n + 1 && (m + 1) % n == 0
            else (m + 1) / n == m / n && (m + 1) % n == m % n + 1
  {
    var q, r := m / n, m % n;
    assert m == q * n + r;
    if r == n - 1 {
      assert m + 1 == (q + 1) * n;
      DivModOf(q + 1, n, 0);
    } else {
      DivModOf(q, n, r + 1);
    }
  }

  lemma OneLess(n: nat, x: real)
    requires n > 0
    ensures n as real * x == (n - 1) as real * x + x
  {
    var k := (n - 1) as real;
    assert n as real == k + 1.0;
  }

  lemma MulOrder(a: real, x: real, y: real)
    requires a >= 0.0 && x <= y
    ensures a * x <= a * y
  {
  }

  /** A product and a quotient as terms of their own, so that equal arguments
      give equal results without any arithmetic. */
  function Times(x: real, y: real): real { x * y }

  function Over(x: real, c: real): real
    requires c != 0.0
  {
    x / c
  }
}
