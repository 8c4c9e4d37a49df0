/** McNemar's exact test as the report comparison computes it, and what the number means. */
module McNemar {
  import opened Tables

  /** `math.comb` */
  function Comb(n: nat, k: nat): nat {
    if k == 0 then 1 else if n == 0 then 0 else Comb(n - 1, k - 1) + Comb(n - 1, k)
  }

  /** The sum of `comb(n, i)` over `i < k`. */
  function Tail(n: nat, k: nat): nat {
    if k == 0 then 0 else Tail(n, k - 1) + Comb(n, k - 1)
  }

  function Min(x: nat, y: nat): nat {
    if x <= y then x else y
  }

  /** `mcnemar_exact`, in exact arithmetic. */
  function Exact(gained: nat, lost: nat): real {
    var n := gained + lost;
    if n == 0 then 1.0
    else
      var p := (2 * Tail(n, Min(gained, lost) + 1)) as real / Power2(n) as real;
      if p < 1.0 then p else 1.0
  }

  // ---------------------------------------------------------------- binomials

  lemma {:induction false} CombZero(n: nat, k: nat)
    requires k > n
    ensures Comb(n, k) == 0
  {
    if n > 0 {
      CombZero(n - 1, k - 1);
      CombZero(n - 1, k);
    }
  }

  lemma {:induction false} CombPositive(n: nat, k: nat)
    requires k <= n
    ensures Comb(n, k) > 0
  {
    if k > 0 {
      CombPositive(n - 1, k - 1);
    }
  }

  lemma {:induction false} CombSymmetric(n: nat, k: nat)
    requires k <= n
    ensures Comb(n, k) == Comb(n, n - k)
  {
    if k > 0 && k < n {
      CombSymmetric(n - 1, k - 1);
      CombSymmetric(n - 1, k);
    } else if n > 0 {
      CombEnds(n);
    }
  }

  lemma {:induction false} CombEnds(n: nat)
    ensures Comb(n, n) == 1
  {
    if n > 0 {
      CombEnds(n - 1);
      CombZero(n - 1, n);
    }
  }

  lemma {:induction false} TailPascal(n: nat, k: nat)
    requires n > 0 && k > 0
    ensures Tail(n, k) == Tail(n - 1, k) + Tail(n - 1, k - 1)
  {
    if k > 1 {
      TailPascal(n, k - 1);
    } else {
      assert Tail(n, 1) == Tail(n, 0) + 1 && Tail(n - 1, 1) == Tail(n - 1, 0) + 1;
    }
  }

  lemma {:induction false} TailWhole(n: nat)
    ensures Tail(n, n + 1) == Power2(n)
  {
    if n > 0 {
      TailPascal(n, n + 1);
      TailWhole(n - 1);
      CombZero(n - 1, n);
    } else {
      assert Tail(0, 1) == Tail(0, 0) + 1;
    }
  }

  /** The two tails of the distribution make up all outcomes. */
  lemma {:induction false} TailsMeet(n: nat, k: nat)
    requires k <= n + 1
    ensures Tail(n, k) + Tail(n, n + 1 - k) == Power2(n)
  {
    if k == 0 {
      TailWhole(n);
    } else {
      TailsMeet(n, k - 1);
      CombSymmetric(n, k - 1);
    }
  }

  lemma {:induction false} TailRises(n: nat, j: nat, k: nat)
    requires j <= k <= n + 1
    ensures Tail(n, j) <= Tail(n, k) && (j < k ==> Tail(n, j) < Tail(n, k))
  {
    if j < k {
      TailRises(n, j, k - 1);
      CombPositive(n, k - 1);
    }
  }

  /** Twice the tail passes the number of outcomes exactly when as many were gained as lost; it meets it exactly
      when one more was. */
  lemma DoubledTail(gained: nat, lost: nat)
    ensures var n, m := gained + lost, Min(gained, lost);
            && (2 * Tail(n, m + 1) > Power2(n) <==> gained == lost)
            && (2 * Tail(n, m + 1) == Power2(n) <==> gained == lost + 1 || lost == gained + 1)
  {
    var n, m := gained + lost, Min(gained, lost);
    TailsMeet(n, m + 1);
    if gained == lost {
      TailRises(n, m, m + 1);
    } else {
      TailRises(n, m + 1, n - m);
    }
  }

  lemma Quotient(x: nat, y: nat)
    requires y > 0
    ensures x as real / y as real < 1.0 <==> x < y
    ensures x > 0 ==> x as real / y as real > 0.0
    ensures x == y ==> x as real / y as real == 1.0
  {
    var q := x as real / y as real;
    assert q * y as real == x as real;
    assert (1.0 - q) * y as real == (y - x) as real;
    SignOfProduct(1.0 - q, y as real);
  }

  lemma SignOfProduct(a: real, b: real)
    requires b > 0.0
    ensures a * b > 0.0 <==> a > 0.0
  {
  }

  /** The p-value is symmetric, lies in (0, 1], is 1 exactly when the directions differ by at most one, and is cut
      off at 1 exactly when they do not differ at all. */
  lemma ExactProperties(gained: nat, lost: nat)
    ensures Exact(gained, lost) == Exact(lost, gained)
    ensures 0.0 < Exact(gained, lost) <= 1.0
    ensures Exact(gained, lost) == 1.0 <==> -1 <= gained - lost <= 1
    ensures var n := gained + lost;
            (2 * Tail(n, Min(gained, lost) + 1) > Power2(n)) <==> gained == lost
  {
    var n, m := gained + lost, Min(gained, lost);
    DoubledTail(gained, lost);
    Quotient(2 * Tail(n, m + 1), Power2(n));
    TailRises(n, 0, m + 1);
  }

  // ---------------------------------------------------------------- what it counts

  /** Of the outcomes of `n` more coin flips after `heads` and `tails`, how many end with the rarer side at most
      `m` times. */
  function AsExtreme(n: nat, heads: nat, tails: nat, m: nat): nat {
    if n == 0 then (if Min(heads, tails) <= m then 1 else 0)
    else AsExtreme(n - 1, heads + 1, tails, m) + AsExtreme(n - 1, heads, tails + 1, m)
  }

  function Counts(n: nat, heads: nat, tails: nat, m: nat, i: nat): nat
    requires i <= n
  {
    if Min(heads + i, tails + (n - i)) <= m then 1 else 0
  }

  /** The same count by how many of the flips are heads: `i < k` of them. */
  function ByHeads(n: nat, heads: nat, tails: nat, m: nat, k: nat): nat
    requires k <= n + 1
  {
    if k == 0 then 0 else ByHeads(n, heads, tails, m, k - 1) + Comb(n, k - 1) * Counts(n, heads, tails, m, k - 1)
  }

  lemma {:induction false} ByHeadsPascal(n: nat, heads: nat, tails: nat, m: nat, k: nat)
    requires 0 < k <= n
    ensures ByHeads(n, heads, tails, m, k)
            == ByHeads(n - 1, heads, tails + 1, m, k) + ByHeads(n - 1, heads + 1, tails, m, k - 1)
  {
    if k > 1 {
      ByHeadsPascal(n, heads, tails, m, k - 1);
      assert Comb(n, k - 1) == Comb(n - 1, k - 2) + Comb(n - 1, k - 1);
    } else {
      assert ByHeads(n, heads, tails, m, 0) == 0 == ByHeads(n - 1, heads, tails + 1, m, 0);
      assert ByHeads(n - 1, heads + 1, tails, m, 0) == 0;
    }
  }

  lemma {:induction false} CountedByHeads(n: nat, heads: nat, tails: nat, m: nat)
    ensures AsExtreme(n, heads, tails, m) == ByHeads(n, heads, tails, m, n + 1)
  {
    if n == 0 {
      assert ByHeads(0, heads, tails, m, 0) == 0;
    } else {
      CountedByHeads(n - 1, heads + 1, tails, m);
      CountedByHeads(n - 1, heads, tails + 1, m);
      ByHeadsPascal(n, heads, tails, m, n);
      CombEnds(n);
      CombEnds(n - 1);
    }
  }

  /** With `m` below half, the outcomes counted are the two tails. */
  lemma {:induction false} ByHeadsTails(n: nat, m: nat, k: nat)
    requires k <= n + 1 && 2 * m < n
    ensures ByHeads(n, 0, 0, m, k)
            == if k <= m + 1 then Tail(n, k)
               else if k <= n - m then Tail(n, m + 1)
               else Tail(n, m + 1) + Tail(n, k) - Tail(n, n - m)
  {
    if k > 0 {
      ByHeadsTails(n, m, k - 1);
    }
  }

  lemma {:induction false} ByHeadsAll(n: nat, m: nat, k: nat)
    requires k <= n + 1 && n == 2 * m
    ensures ByHeads(n, 0, 0, m, k) == Tail(n, k)
  {
    if k > 0 {
      ByHeadsAll(n, m, k - 1);
    }
  }

  /** What `mcnemar_exact` means: of all the ways the changed questions could have gone, the share that is at
      least as one-sided as what happened. */
  lemma ExactIsShareOfOutcomes(gained: nat, lost: nat)
    ensures Exact(gained, lost)
            == AsExtreme(gained + lost, 0, 0, Min(gained, lost)) as real / Power2(gained + lost) as real
  {
    var n, m := gained + lost, Min(gained, lost);
    CountedByHeads(n, 0, 0, m);
    DoubledTail(gained, lost);
    Quotient(2 * Tail(n, m + 1), Power2(n));
    TailWhole(n);
    Quotient(Power2(n), Power2(n));
    if gained == lost {
      ByHeadsAll(n, m, n + 1);
    } else {
      ByHeadsTails(n, m, n + 1);
      TailsMeet(n, n - m);
    }
  }
}
