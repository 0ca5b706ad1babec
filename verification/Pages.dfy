/** How many full pages a population fills. */
module Pages {
  import opened OrderedIds

  /** How many full pages of n a population of m holds. */
  function FullPages(m: nat, n: Limit): nat {
    if m < n then 0 else 1 + FullPages(m - n, n)
  }

  lemma {:induction false} FullPagesGrow(a: nat, b: nat, n: Limit)
    requires a <= b
    ensures FullPages(a, n) <= FullPages(b, n)
  {
    if n <= a { FullPagesGrow(a - n, b - n, n); }
  }

  lemma {:induction false} FullPagesIsQuotient(m: nat, n: Limit)
    ensures FullPages(m, n) == m / n
  {
    if n <= m {
      FullPagesIsQuotient(m - n, n);
      QuotientUnique(m, n, (m - n) / n + 1, (m - n) % n);
    }
  }

  lemma QuotientUnique(m: nat, n: Limit, q: nat, r: nat)
    requires m == n * q + r && r < n
    ensures q == m / n
  {
    var d: int, k: int := q - m / n, n;
    assert n * d == m % n - r by { assert m == n * (m / n) + m % n; }
    assert (1 <= d ==> k <= k * d) && (d <= -1 ==> k * d <= -k);
  }
}
