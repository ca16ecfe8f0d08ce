/** Integer percentages (math.rs) and the fee pair built on them (gas.rs). */
module Percent {

  /** The product of two amounts, as repeated addition. Proofs that only pass fees along see no
      product; `TimesIsProduct` is for those that calculate. */
  function Times(n: nat, k: nat): (r: nat) {
    if k == 0 then 0 else n + Times(n, k - 1)
  }

  lemma {:induction false} TimesIsProduct(n: nat, k: nat)
    ensures Times(n, k) == n * k
    decreases k
  {
    if k > 0 {
      TimesIsProduct(n, k - 1);
      assert n * k == n * (k - 1) + n;
    }
  }

  lemma {:induction false} TimesMonotone(n: nat, m: nat, k: nat)
    requires n <= m
    ensures Times(n, k) <= Times(m, k)
    decreases k
  {
    if k > 0 { TimesMonotone(n, m, k - 1); }
  }

  /** Rounds down. */
  function IncreaseByPercent(n: nat, percent: nat): (r: nat)
    ensures n <= r
  {
    CeilBounds(n, percent);
    n * (100 + percent) / 100
  }

  /** Rounds up. */
  function IncreaseByPercentCeil(n: nat, percent: nat): (r: nat)
    ensures n <= r
  {
    CeilBounds(n, percent);
    (Times(n, 100 + percent) + 99) / 100
  }

  lemma CeilBounds(n: nat, percent: nat)
    ensures n * 100 <= n * (100 + percent)
    ensures Times(n, 100 + percent) == n * (100 + percent)
    ensures 100 * ((n * (100 + percent) + 99) / 100) >= n * (100 + percent)
    ensures 100 * (n * (100 + percent) / 100) <= n * (100 + percent)
  {
    TimesIsProduct(n, 100 + percent);
    assert n * (100 + percent) == n * 100 + n * percent;
  }

  lemma CeilMonotone(n: nat, m: nat, percent: nat)
    requires n <= m
    ensures IncreaseByPercentCeil(n, percent) <= IncreaseByPercentCeil(m, percent)
  {
    TimesMonotone(n, m, 100 + percent);
    DivMonotone(Times(n, 100 + percent) + 99, Times(m, 100 + percent) + 99);
  }

  lemma DivMonotone(x: nat, y: nat)
    requires x <= y
    ensures x / 100 <= y / 100
  {
  }

  datatype GasFees = GasFees(maxFee: nat, maxPriorityFee: nat) {
    /** The fees a replacement transaction has to carry. */
    function Increase(percent: nat): (r: GasFees)
      ensures AtMost(r)
    {
      GasFees(IncreaseByPercentCeil(maxFee, percent), IncreaseByPercentCeil(maxPriorityFee, percent))
    }

    predicate AtMost(other: GasFees) {
      maxFee <= other.maxFee && maxPriorityFee <= other.maxPriorityFee
    }

    /** The test that decides whether an underpriced attempt is remembered. */
    predicate StrictlyBelow(other: GasFees) {
      maxFee < other.maxFee && maxPriorityFee < other.maxPriorityFee
    }
  }

  lemma IncreaseMonotone(f: GasFees, g: GasFees, percent: nat)
    requires f.AtMost(g)
    ensures f.Increase(percent).AtMost(g.Increase(percent))
  {
    CeilMonotone(f.maxFee, g.maxFee, percent);
    CeilMonotone(f.maxPriorityFee, g.maxPriorityFee, percent);
  }

  function Pow(base: nat, k: nat): (r: nat) {
    if k == 0 then 1 else base * Pow(base, k - 1)
  }

  /** A ladder of amounts where each is at least the rounded-up increase of the one
      before grows geometrically: rounding never eats the compounding. */
  lemma {:induction false} LadderCompounds(f: seq<nat>, percent: nat, k: nat)
    requires k < |f|
    requires forall i, j | 0 <= i < j < |f| && j == i + 1 :: f[j] >= IncreaseByPercentCeil(f[i], percent)
    ensures Pow(100, k) * f[k] >= Pow(100 + percent, k) * f[0]
  {
    if k > 0 {
      LadderCompounds(f, percent, k - 1);
      var q := 100 + percent;
      CeilBounds(f[k - 1], percent);
      assert f[k] >= IncreaseByPercentCeil(f[k - 1], percent);
      assert 100 * f[k] >= f[k - 1] * q;
      calc {
        Pow(100, k) * f[k];
      == { MulAssoc(100, Pow(100, k - 1), f[k]); }
        Pow(100, k - 1) * (100 * f[k]);
      >= { MulMonotone(Pow(100, k - 1), f[k - 1] * q, 100 * f[k]); }
        Pow(100, k - 1) * (f[k - 1] * q);
      == { MulAssoc(q, Pow(100, k - 1), f[k - 1]); }
        q * (Pow(100, k - 1) * f[k - 1]);
      >= { MulMonotone(q, Pow(q, k - 1) * f[0], Pow(100, k - 1) * f[k - 1]); }
        q * (Pow(q, k - 1) * f[0]);
      == { MulAssoc(q, Pow(q, k - 1), f[0]); }
        Pow(q, k) * f[0];
      }
    }
  }

  lemma MulMonotone(a: nat, x: nat, y: nat)
    requires x <= y
    ensures a * x <= a * y
  {
    assert a * y == a * x + a * (y - x);
  }

  lemma MulAssoc(a: nat, b: nat, c: nat)
    ensures a * b * c == b * (a * c) == b * (c * a) == a * (b * c)
  {
  }
}
