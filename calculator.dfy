/**
 * The prize-pool estimator (`calculate_prize_pools` in calculator.py).
 * Amounts are exact rationals (`real`), not IEEE doubles.
 */
module Calculator {
  import opened Wrappers
  import opened Records

  const OrdinaryEntryPrice: real := 1.00
  const ContributionRate: real := 0.54

  /**
   * Share of the prize pool by tier, tier `g` at index `g - 1`. Tier 3 is
   * 0.05, though the comment beside it in calculator.py says 5.5%.
   */
  const Allocation: seq<real> := [0.38, 0.08, 0.05, 0.03, 0.04, 0.205, 0.205]

  /** The pool assumed when no tier gives an estimate: two million entries. */
  const FallbackPool: real := 2000000.0 * OrdinaryEntryPrice * ContributionRate

  /**
   * The pool a tier implies: the money it paid out (`prize * winners`)
   * over its share. Only a tier with winners gives one; a missing prize
   * gives none.
   */
  function Estimate(winners: Option<int>, prize: Option<real>, share: real): (e: Option<real>)
    requires share > 0.0
    ensures e.Some? <==> winners.Some? && winners.value > 0 && prize.Some?
    ensures e.Some? ==> e.value * share == prize.value * winners.value as real
  {
    if winners.Some? && winners.value > 0 && prize.Some? then
      Some(prize.value * winners.value as real / share)
    else None
  }

  /** The estimate of tier `g` (2..7). */
  function TierEstimate(r: Row, g: nat): (e: Option<real>)
    requires WellShaped(r) && 2 <= g <= 7
  {
    Estimate(r.winners[g - 1], r.prizes[g - 1], Allocation[g - 1])
  }

  /** The estimates of tiers 2..g that exist, in tier order. */
  function EstimatesUpTo(r: Row, g: nat): (es: seq<real>)
    requires WellShaped(r) && 1 <= g <= 7
    ensures |es| <= g - 1
  {
    if g == 1 then []
    else
      var e := TierEstimate(r, g);
      EstimatesUpTo(r, g - 1) + (if e.Some? then [e.value] else [])
  }

  function AvailableEstimates(r: Row): seq<real>
    requires WellShaped(r)
  {
    EstimatesUpTo(r, 7)
  }

  function Sum(xs: seq<real>): real {
    if xs == [] then 0.0 else Sum(xs[..|xs| - 1]) + xs[|xs| - 1]
  }

  function Mean(xs: seq<real>): real
    requires xs != []
  {
    Sum(xs) / |xs| as real
  }

  /** The estimated prize pool: the mean of the available estimates, else the fallback. */
  function EstimatedPool(r: Row): real
    requires WellShaped(r)
  {
    var es := AvailableEstimates(r);
    if es != [] then Mean(es) else FallbackPool
  }

  /** `total_winners`: the sum of the seven winner counts, missing if any count is missing. */
  function TotalWinners(r: Row): (t: Option<int>)
    requires WellShaped(r)
    ensures t.Some? <==> forall k :: 0 <= k < 7 ==> r.winners[k].Some?
  {
    var w := r.winners;
    if forall k :: 0 <= k < 7 ==> w[k].Some? then
      Some(w[0].value + w[1].value + w[2].value + w[3].value + w[4].value + w[5].value + w[6].value)
    else None
  }

  /** The columns a row gains (lines 33-41 and 100-115). */
  function Derive(r: Row): (c: PoolColumns)
    requires WellShaped(r)
    ensures c.estimatedPrizePool == EstimatedPool(r)
    ensures c.expectedGroup1Prize == c.estimatedPrizePool * Allocation[0]
    ensures c.estimatedSales * ContributionRate == c.estimatedPrizePool
    ensures r.winners[0] == Some(0) ==> c.rolloverAmount == c.expectedGroup1Prize
    ensures r.winners[0] != Some(0) ==> c.rolloverAmount == 0.0
    ensures c.totalWinners == TotalWinners(r)
  {
    var pool := EstimatedPool(r);
    var expected := pool * Allocation[0];
    PoolColumns(TotalWinners(r), pool, expected, pool / ContributionRate,
                if r.winners[0] == Some(0) then expected else 0.0)
  }

  /**
   * `calculate_prize_pools`: a copy of the frame with the pool columns
   * written into every row; the frame passed in is a value and stays as it was.
   */
  method CalculatePrizePools(df: seq<Row>) returns (result: seq<Row>)
    requires AllWellShaped(df)
    ensures |result| == |df|
    ensures forall i :: 0 <= i < |df| ==> result[i] == df[i].(pools := Some(Derive(df[i])))
    ensures result == WithPools(df)
  {
    result := df;
    var idx := 0;
    while idx < |result|
      invariant 0 <= idx <= |result| && |result| == |df|
      invariant forall i :: 0 <= i < idx ==> result[i] == df[i].(pools := Some(Derive(df[i])))
      invariant forall i :: idx <= i < |df| ==> result[i] == df[i]
    {
      var row := result[idx];
      var pool := EstimatedPool(row);
      var expected := pool * Allocation[0];
      var sales := pool / ContributionRate;
      var rollover := if row.winners[0] == Some(0) then expected else 0.0;
      result := result[idx := row.(pools := Some(PoolColumns(TotalWinners(row), pool, expected, sales, rollover)))];
      idx := idx + 1;
    }
  }

  /** The frame `calculate_prize_pools` returns, as a value. */
  function WithPools(df: seq<Row>): (r: seq<Row>)
    requires AllWellShaped(df)
  {
    seq(|df|, i requires 0 <= i < |df| => df[i].(pools := Some(Derive(df[i]))))
  }

  // ---------------------------------------------------------------------
  // Properties
  // ---------------------------------------------------------------------

  /** The estimates are exactly those of the tiers 2..g that have one. */
  lemma {:induction false} EstimatesExact(r: Row, g: nat, x: real)
    requires WellShaped(r) && 1 <= g <= 7
    ensures x in EstimatesUpTo(r, g) <==> exists t :: 2 <= t <= g && TierEstimate(r, t) == Some(x)
  {
    if g > 1 {
      EstimatesExact(r, g - 1, x);
    }
  }

  /** Tier 1 plays no part in the pool: rows that agree on tiers 2..7 get the same pool. */
  lemma {:induction false} PoolIgnoresTier1(r: Row, s: Row)
    requires WellShaped(r) && WellShaped(s)
    requires r.winners[1..] == s.winners[1..] && r.prizes[1..] == s.prizes[1..]
    ensures EstimatedPool(r) == EstimatedPool(s)
  {
    assert forall k :: 1 <= k < 7 ==> r.winners[k] == s.winners[k] && r.prizes[k] == s.prizes[k] by {
      forall k | 1 <= k < 7 ensures r.winners[k] == s.winners[k] && r.prizes[k] == s.prizes[k] {
        assert r.winners[1..][k - 1] == r.winners[k];
        assert s.winners[1..][k - 1] == s.winners[k];
        assert r.prizes[1..][k - 1] == r.prizes[k];
        assert s.prizes[1..][k - 1] == s.prizes[k];
      }
    }
    SameTiersSameEstimates(r, s, 7);
  }

  lemma {:induction false} SameTiersSameEstimates(r: Row, s: Row, g: nat)
    requires WellShaped(r) && WellShaped(s) && 1 <= g <= 7
    requires forall k :: 1 <= k < 7 ==> r.winners[k] == s.winners[k] && r.prizes[k] == s.prizes[k]
    ensures EstimatesUpTo(r, g) == EstimatesUpTo(s, g)
  {
    if g > 1 {
      assert r.winners[g - 1] == s.winners[g - 1] && r.prizes[g - 1] == s.prizes[g - 1];
      SameTiersSameEstimates(r, s, g - 1);
    }
  }

  /** A mean lies between any lower and upper bound of its values. */
  lemma {:induction false} SumBounds(xs: seq<real>, lo: real, hi: real)
    requires forall k :: 0 <= k < |xs| ==> lo <= xs[k] <= hi
    ensures lo * |xs| as real <= Sum(xs) <= hi * |xs| as real
  {
    if xs != [] {
      SumBounds(xs[..|xs| - 1], lo, hi);
    }
  }

  lemma {:induction false} MeanBounds(xs: seq<real>, lo: real, hi: real)
    requires xs != []
    requires forall k :: 0 <= k < |xs| ==> lo <= xs[k] <= hi
    ensures lo <= Mean(xs) <= hi
  {
    SumBounds(xs, lo, hi);
    var n := |xs| as real;
    assert lo * n <= Sum(xs) <= hi * n;
    assert Sum(xs) / n * n == Sum(xs);
  }

  /** The pool lies between the smallest and the largest tier estimate. */
  lemma {:induction false} PoolBetweenEstimates(r: Row, lo: real, hi: real)
    requires WellShaped(r)
    requires exists t :: 2 <= t <= 7 && TierEstimate(r, t).Some?
    requires forall t :: 2 <= t <= 7 && TierEstimate(r, t).Some? ==> lo <= TierEstimate(r, t).value <= hi
    ensures lo <= EstimatedPool(r) <= hi
  {
    var es := AvailableEstimates(r);
    var t :| 2 <= t <= 7 && TierEstimate(r, t).Some?;
    EstimatesExact(r, 7, TierEstimate(r, t).value);
    forall k | 0 <= k < |es| ensures lo <= es[k] <= hi {
      EstimatesExact(r, 7, es[k]);
    }
    MeanBounds(es, lo, hi);
  }

  /** With a single contributing tier the pool is that tier's estimate. */
  lemma {:induction false} SingleTierPool(r: Row, g: nat)
    requires WellShaped(r) && 2 <= g <= 7 && TierEstimate(r, g).Some?
    requires forall t :: 2 <= t <= 7 && t != g ==> TierEstimate(r, t).None?
    ensures EstimatedPool(r) == TierEstimate(r, g).value
  {
    PoolBetweenEstimates(r, TierEstimate(r, g).value, TierEstimate(r, g).value);
  }

  /** Five tier-2 winners of 100,000 each imply a pool of 6,250,000. */
  lemma {:induction false} Tier2Example(r: Row)
    requires WellShaped(r)
    requires r.winners[1] == Some(5) && r.prizes[1] == Some(100000.0)
    requires forall k :: 2 <= k < 7 ==> r.winners[k] == Some(0)
    ensures EstimatedPool(r) == 6250000.0
  {
    SingleTierPool(r, 2);
  }

  /** No tier 2..7 with winners: the pool is 1,080,000. */
  lemma {:induction false} NoWinnersFallback(r: Row)
    requires WellShaped(r)
    requires forall k :: 1 <= k < 7 ==> r.winners[k].None? || r.winners[k].value <= 0
    ensures EstimatedPool(r) == 1080000.0
  {
    if AvailableEstimates(r) != [] {
      EstimatesExact(r, 7, AvailableEstimates(r)[0]);
    }
  }
}
