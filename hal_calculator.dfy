/**
 The Hal(x) calculator: a streaming population-variance estimator that keeps
 only a count, a running mean and a running sum of squared deviations, and
 updates them with Welford's recurrence on every new value. Values are exact
 reals; the ghost field `history` records every value added, so that the
 object invariant can say what the three real fields mean.
 */
module Hal {
  import opened Statistics

  class HalCalculator {
    /** Count of values added so far. */
    var n: nat
    /** Current mean of all values added. */
    var mean: real
    /** Sum of squared deviations of all values added from `mean`. */
    var m2: real
    /** Every value added, oldest first. */
    ghost var history: seq<real>

    ghost predicate Valid()
      reads this
    {
      n == |history| &&
      mean == RunningMean(history) &&
      m2 == SumSqDev(history, mean)
    }

    constructor ()
      ensures Valid()
      ensures history == []
      ensures n == 0 && mean == 0.0 && m2 == 0.0
    {
      n := 0;
      mean := 0.0;
      m2 := 0.0;
      history := [];
    }

    /** Adds x with one Welford step and returns Hal(x) right after it. */
    method Add(x: real) returns (r: real)
      requires Valid()
      modifies this
      ensures Valid()
      ensures history == old(history) + [x]
      ensures n == old(n) + 1
      ensures mean == RunningMean(history)
      ensures m2 == SumSqDev(history, mean)
      ensures r == Item()
      ensures r == PopulationVariance(history)
    {
      ghost var before := history;
      n := n + 1;
      var delta := x - mean;
      mean := mean + delta / (n as real);
      var delta2 := x - mean;
      m2 := m2 + delta * delta2;
      history := before + [x];
      WelfordUpdate(before, x, n as real, mean);
      r := Item();
    }

    /** Hal(x) of everything added: 0.0 for fewer than two values, otherwise
        m2 / n. A read of the fields that changes nothing. */
    function Item(): (r: real)
      reads this
      requires Valid()
      ensures r == PopulationVariance(history)
      ensures r >= 0.0
    {
      if n < 2 then 0.0 else m2 / (n as real)
    }
  }

  /** The object invariant makes m2 a sum of squares, hence never negative. */
  lemma M2NonNegative(c: HalCalculator)
    requires c.Valid()
    ensures c.m2 >= 0.0
  {
    SumSqDevNonNegative(c.history, c.mean);
  }

  /** A calculator fed only the constant k has mean k, m2 equal to 0 and
      Hal(x) equal to 0. */
  lemma ConstantHistoryHasZeroM2(c: HalCalculator, k: real)
    requires c.Valid()
    requires forall i :: 0 <= i < |c.history| ==> c.history[i] == k
    ensures c.n > 0 ==> c.mean == k
    ensures c.m2 == 0.0
    ensures c.Item() == 0.0
  {
    ConstantStream(c.history, k);
  }

  /** Two calculators fed the same values in different orders agree on the
      mean and on Hal(x). */
  lemma SameValuesSameHal(c: HalCalculator, d: HalCalculator)
    requires c.Valid() && d.Valid()
    requires multiset(c.history) == multiset(d.history)
    ensures c.n == d.n && c.mean == d.mean
    ensures PopulationVariance(c.history) == PopulationVariance(d.history)
  {
    assert c.n == |multiset(c.history)| == |multiset(d.history)| == d.n;
    VarianceOrderIndependent(c.history, d.history);
  }

  /** Fresh and after one add, Hal(x) is 0.0. */
  method FirstTwoReadings(x: real) returns (empty: real, afterOne: real)
    ensures empty == 0.0 && afterOne == 0.0
  {
    var c := new HalCalculator();
    empty := c.Item();
    afterOne := c.Add(x);
  }

  /** Adding the constant k `times` times: every reading `add` returns is 0.0. */
  method FeedConstant(k: real, times: nat) returns (readings: seq<real>)
    ensures |readings| == times
    ensures forall i :: 0 <= i < times ==> readings[i] == 0.0
  {
    var c := new HalCalculator();
    readings := [];
    while |readings| < times
      invariant fresh(c) && c.Valid()
      invariant |readings| <= times && c.n == |readings|
      invariant forall i :: 0 <= i < |c.history| ==> c.history[i] == k
      invariant forall i :: 0 <= i < |readings| ==> readings[i] == 0.0
    {
      var r := c.Add(k);
      ConstantHistoryHasZeroM2(c, k);
      readings := readings + [r];
    }
  }

  /** Feeding 2, 4, 4, 4, 5, 5, 7, 9 one at a time ends with mean 5 and
      Hal(x) = 4, the population variance of that batch. */
  method FeedKnownBatch() returns (r: real)
    ensures r == 4.0
    ensures r == PopulationVariance([2.0, 4.0, 4.0, 4.0, 5.0, 5.0, 7.0, 9.0])
  {
    var c := new HalCalculator();
    r := c.Add(2.0);
    r := c.Add(4.0);
    r := c.Add(4.0);
    r := c.Add(4.0);
    r := c.Add(5.0);
    r := c.Add(5.0);
    r := c.Add(7.0);
    r := c.Add(9.0);
    assert c.history == [2.0, 4.0, 4.0, 4.0, 5.0, 5.0, 7.0, 9.0];
    KnownBatch();
  }
}
