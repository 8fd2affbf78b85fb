/** Facts about multiples and quotients. */
module Multiples {

  lemma NextQuotient(n: nat, every: nat)
    requires every > 0
    ensures (n + 1) / every == n / every + if (n + 1) % every == 0 then 1 else 0
  {
    var q, r := n / every, n % every;
    assert n == q * every + r;
    if r + 1 == every {
      assert n + 1 == (q + 1) * every;
      DivisionIs(n + 1, every, q + 1, 0);
    } else {
      DivisionIs(n + 1, every, q, r + 1);
    }
  }

  lemma DivisionIs(n: nat, d: nat, q: nat, r: nat)
    requires d > 0 && r < d && n == q * d + r
    ensures n / d == q && n % d == r
  {
    SameQuotient(d, n / d, n % d, q, r);
  }

  lemma SameQuotient(d: nat, q1: nat, r1: nat, q2: nat, r2: nat)
    requires q1 * d + r1 == q2 * d + r2 && r1 < d && r2 < d
    ensures q1 == q2 && r1 == r2
  {
    if q1 < q2 { MultiplesApart(q1, q2, d); } else if q2 < q1 { MultiplesApart(q2, q1, d); }
  }

  lemma {:induction false} MultiplesApart(a: nat, b: nat, d: nat)
    requires a < b
    ensures a * d + d <= b * d
  {
    assert b * d == (b - 1) * d + d;
    if a + 1 < b { MultiplesApart(a, b - 1, d); }
  }

  /** Row-major positions stay inside the table. */
  lemma RowMajorFits(rows: nat, columns: nat, r: nat, c: nat)
    requires r < rows && c < columns
    ensures r * columns + c < rows * columns
  {
    MultiplesApart(r, rows, columns);
  }
}
