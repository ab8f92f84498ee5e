/**
 The mathematical meaning of the running statistics kept by `HalCalculator`:
 the sum, the mean, the sum of squared deviations and the population variance
 of a finite sequence of observations, over exact reals.
 */
module Statistics {

  /** Sum of `f(x)` over the observations `s`, peeled from the back so that it
      follows the order in which a stream appends its values. */
  function SumOf(f: real -> real, s: seq<real>): real
    decreases |s|
  {
    if |s| == 0 then 0.0 else SumOf(f, s[..|s| - 1]) + f(s[|s| - 1])
  }

  function Identity(x: real): real { x }

  /** The squared deviation of an observation from the centre `c`. */
  function SquaredDeviationFrom(c: real): real -> real
  {
    x => (x - c) * (x - c)
  }

  /** The number of observations N, as a real. */
  function Count(s: seq<real>): real
  {
    |s| as real
  }

  function Sum(s: seq<real>): real
  {
    SumOf(Identity, s)
  }

  /** Σ (x_i − c)² over the observations. */
  function SumSqDev(s: seq<real>, c: real): real
  {
    SumOf(SquaredDeviationFrom(c), s)
  }

  /** The arithmetic mean Σ x_i / N; 0.0 before any observation, which is the
      value a fresh calculator starts from. */
  function RunningMean(s: seq<real>): real
  {
    if |s| == 0 then 0.0 else Sum(s) / Count(s)
  }

  /** Hal(x) = (1/N) Σ (x_i − mean)², reported as 0.0 for fewer than two
      observations. The divisor is N, not N − 1. */
  function PopulationVariance(s: seq<real>): (r: real)
    ensures r >= 0.0
  {
    if |s| < 2 then 0.0
    else
      SumSqDevNonNegative(s, RunningMean(s));
      SumSqDev(s, RunningMean(s)) / Count(s)
  }

  lemma {:induction false} SumOfAppend(f: real -> real, s: seq<real>, x: real)
    ensures SumOf(f, s + [x]) == SumOf(f, s) + f(x)
  {
    assert (s + [x])[..|s|] == s;
  }

  lemma {:induction false} SumOfConcat(f: real -> real, a: seq<real>, b: seq<real>)
    ensures SumOf(f, a + b) == SumOf(f, a) + SumOf(f, b)
    decreases |b|
  {
    if |b| == 0 {
      assert a + b == a;
    } else {
      var b', y := b[..|b| - 1], b[|b| - 1];
      assert b == b' + [y];
      assert a + b == (a + b') + [y];
      SumOfConcat(f, a, b');
      SumOfAppend(f, a + b', y);
      SumOfAppend(f, b', y);
    }
  }

  /** A sum does not depend on the order of its terms. */
  lemma {:induction false} SumOfPermutation(f: real -> real, s: seq<real>, t: seq<real>)
    requires multiset(s) == multiset(t)
    ensures SumOf(f, s) == SumOf(f, t)
    decreases |t|
  {
    if |t| == 0 {
      assert |s| == |multiset(s)| == 0;
    } else {
      var t', y := t[..|t| - 1], t[|t| - 1];
      assert t == t' + [y];
      assert y in multiset(s);
      var i :| 0 <= i < |s| && s[i] == y;
      RemoveAtMultiset(s, i);
      assert multiset(s[..i] + s[i + 1..]) == multiset(t');
      SumOfPermutation(f, s[..i] + s[i + 1..], t');
      SumOfRemoveAt(f, s, i);
      SumOfAppend(f, t', y);
    }
  }

  /** Taking out the element at i takes one copy of it out of the multiset. */
  lemma RemoveAtMultiset(s: seq<real>, i: nat)
    requires i < |s|
    ensures multiset(s[..i] + s[i + 1..]) == multiset(s) - multiset{s[i]}
  {
    assert s == s[..i] + [s[i]] + s[i + 1..];
  }

  /** The sum splits into the element at i and the sum of the others. */
  lemma SumOfRemoveAt(f: real -> real, s: seq<real>, i: nat)
    requires i < |s|
    ensures SumOf(f, s) == SumOf(f, s[..i] + s[i + 1..]) + f(s[i])
  {
    var front, y, back := s[..i], s[i], s[i + 1..];
    assert s[..i + 1] == front + [y];
    assert s == s[..i + 1] + back;
    SumOfConcat(f, s[..i + 1], back);
    SumOfAppend(f, front, y);
    SumOfConcat(f, front, back);
  }

  /** A sum of squares is never negative; in particular the m2 statistic is not. */
  lemma {:induction false} SumSqDevNonNegative(s: seq<real>, c: real)
    ensures SumSqDev(s, c) >= 0.0
    decreases |s|
  {
    if |s| > 0 {
      var s', x := s[..|s| - 1], s[|s| - 1];
      SumSqDevNonNegative(s', c);
      SquareNonNegative(x - c);
      assert SquaredDeviationFrom(c)(x) == (x - c) * (x - c);
    }
  }

  lemma SquareNonNegative(d: real)
    ensures d * d >= 0.0
  {
    if d < 0.0 {
      assert d * d == (-d) * (-d);
    }
  }

  /** Before any observation the sum is zero; afterwards N times the mean is
      the sum. */
  lemma SumIsCountTimesMean(s: seq<real>)
    ensures Count(s) * RunningMean(s) == Sum(s)
  {
  }

  /** Appending x adds its squared deviation from the centre c. */
  lemma SumSqDevAppend(s: seq<real>, x: real, c: real)
    ensures SumSqDev(s + [x], c) == SumSqDev(s, c) + (x - c) * (x - c)
  {
    SumOfAppend(SquaredDeviationFrom(c), s, x);
  }

  /** Moving the centre from d to c: Σ (x_i − c)² = Σ (x_i − d)² +
      2 (d − c) Σ (x_i − d) + N (d − c)². */
  lemma {:induction false} SumSqDevRecentre(s: seq<real>, c: real, d: real)
    ensures SumSqDev(s, c)
         == SumSqDev(s, d) + 2.0 * (d - c) * (Sum(s) - Count(s) * d) + Count(s) * (d - c) * (d - c)
    decreases |s|
  {
    if |s| > 0 {
      SumSqDevRecentre(s[..|s| - 1], c, d);
      RecentreStep(s, c, d);
    }
  }

  /** The inductive step of SumSqDevRecentre. */
  lemma RecentreStep(s: seq<real>, c: real, d: real)
    requires |s| > 0
    requires var s' := s[..|s| - 1];
             SumSqDev(s', c)
             == SumSqDev(s', d) + 2.0 * (d - c) * (Sum(s') - Count(s') * d) + Count(s') * (d - c) * (d - c)
    ensures SumSqDev(s, c)
         == SumSqDev(s, d) + 2.0 * (d - c) * (Sum(s) - Count(s) * d) + Count(s) * (d - c) * (d - c)
  {
    var s', x := s[..|s| - 1], s[|s| - 1];
    assert s == s' + [x];
    SumSqDevAppend(s', x, c);
    SumSqDevAppend(s', x, d);
    SumOfAppend(Identity, s', x);
    RecentreAlgebra(SumSqDev(s', c), SumSqDev(s', d), Sum(s'), Count(s'), x, c, d,
                    SumSqDev(s, c), SumSqDev(s, d), Sum(s), Count(s));
  }

  /** The algebra of RecentreStep, over plain reals: before (devC, devD, sum, n)
      and after (devC', devD', sum', n') appending x. */
  lemma RecentreAlgebra(devC: real, devD: real, sum: real, n: real, x: real, c: real, d: real,
                        devC': real, devD': real, sum': real, n': real)
    requires devC == devD + 2.0 * (d - c) * (sum - n * d) + n * (d - c) * (d - c)
    requires devC' == devC + (x - c) * (x - c)
    requires devD' == devD + (x - d) * (x - d)
    requires sum' == sum + x && n' == n + 1.0
    ensures devC' == devD' + 2.0 * (d - c) * (sum' - n' * d) + n' * (d - c) * (d - c)
  {
    assert (x - c) * (x - c) == (x - d) * (x - d) + 2.0 * (d - c) * (x - d) + (d - c) * (d - c);
  }

  /** About the mean m (N · m = Σ x_i), moving the centre to c adds
      N (m − c)²: Σ (x_i − c)² = Σ (x_i − m)² + N (m − c)². */
  lemma SumSqDevShift(s: seq<real>, c: real, m: real)
    requires Count(s) * m == Sum(s)
    ensures SumSqDev(s, c) == SumSqDev(s, m) + Count(s) * (m - c) * (m - c)
  {
    CrossTermVanishes(Sum(s), Count(s), m, c);
    SumSqDevRecentre(s, c, m);
  }

  /** The algebra of SumSqDevShift: about the mean, the cross term is zero. */
  lemma CrossTermVanishes(sum: real, n: real, m: real, c: real)
    requires n * m == sum
    ensures 2.0 * (m - c) * (sum - n * m) == 0.0
  {
  }

  /** The textbook two-pass identity: the sum of squares Σ x_i² (deviations
      from 0) is Σ (x_i − mean)² plus N · mean². */
  lemma SumOfSquaresSplit(s: seq<real>)
    ensures SumSqDev(s, 0.0) == SumSqDev(s, RunningMean(s)) + Count(s) * RunningMean(s) * RunningMean(s)
  {
    SumIsCountTimesMean(s);
    SumSqDevShift(s, 0.0, RunningMean(s));
  }

  /**
   One step of Welford's recurrence (Knuth, The Art of Computer Programming,
   vol. 2, section 4.2.2). With m the mean of s and `count` = N + 1, the
   update m' = m + (x − m) / count is the mean of s + [x], and the sum of
   squared deviations of s + [x] from m' is that of s from m plus
   (x − m)(x − m').
   */
  lemma WelfordUpdate(s: seq<real>, x: real, count: real, m': real)
    requires count == Count(s) + 1.0
    requires m' == RunningMean(s) + (x - RunningMean(s)) / count
    ensures RunningMean(s + [x]) == m'
    ensures SumSqDev(s + [x], m') == SumSqDev(s, RunningMean(s)) + (x - RunningMean(s)) * (x - m')
  {
    WelfordMeanUpdate(s, x, count, m');
    SumIsCountTimesMean(s);
    WelfordDeviationUpdate(s, x, count, RunningMean(s), m');
  }

  /** The deviation half of WelfordUpdate, for m with N · m = Σ x_i and m'
      with count · m' = Σ x_i + x. */
  lemma WelfordDeviationUpdate(s: seq<real>, x: real, count: real, m: real, m': real)
    requires count == Count(s) + 1.0
    requires Count(s) * m == Sum(s)
    requires count * m' == Sum(s) + x
    ensures SumSqDev(s + [x], m') == SumSqDev(s, m) + (x - m) * (x - m')
  {
    WelfordDeviation(Count(s), m, x, count, m', Sum(s));
    SumSqDevAppend(s, x, m');
    SumSqDevShift(s, m', m);
  }

  /** The mean half of WelfordUpdate; also count · m' is the new sum. */
  lemma WelfordMeanUpdate(s: seq<real>, x: real, count: real, m': real)
    requires count == Count(s) + 1.0
    requires m' == RunningMean(s) + (x - RunningMean(s)) / count
    ensures RunningMean(s + [x]) == m'
    ensures count * m' == Sum(s) + x
  {
    SumIsCountTimesMean(s);
    SumOfAppend(Identity, s, x);
    WelfordMean(Count(s), RunningMean(s), x, count, m', Sum(s));
    assert Count(s + [x]) == count;
  }

  /** The algebra of the mean update: count · m' is the old sum plus x. */
  lemma WelfordMean(k: real, m: real, x: real, count: real, m': real, sum: real)
    requires k >= 0.0 && count == k + 1.0
    requires sum == k * m
    requires m' == m + (x - m) / count
    ensures count * m' == sum + x
    ensures m' == (sum + x) / count
  {
    var d := (x - m) / count;
    assert count * d == x - m;
    assert count * m' == count * m + count * d;
  }

  /** The algebra of the deviation update, over plain reals: moving the centre
      of the k old values from m to m' adds k (m − m')², the new value adds
      (x − m')², and together they are (x − m)(x − m'). */
  lemma WelfordDeviation(k: real, m: real, x: real, count: real, m': real, sum: real)
    requires count == k + 1.0 && k * m == sum && count * m' == sum + x
    ensures k * (m - m') * (m - m') + (x - m') * (x - m') == (x - m) * (x - m')
  {
    var d := m' - m;
    assert x - m == count * d;
    assert x - m' == k * d;
    assert k * (m - m') * (m - m') == k * d * d;
    assert (x - m') * (x - m') == k * k * d * d;
    assert (x - m) * (x - m') == count * k * d * d;
  }

  /** Feeding the same constant k repeatedly leaves nothing to deviate:
      the mean is k and the variance is zero. */
  lemma {:induction false} ConstantStream(s: seq<real>, k: real)
    requires forall i :: 0 <= i < |s| ==> s[i] == k
    ensures |s| > 0 ==> RunningMean(s) == k
    ensures SumSqDev(s, RunningMean(s)) == 0.0
    ensures PopulationVariance(s) == 0.0
    decreases |s|
  {
    if |s| > 0 {
      var s' := s[..|s| - 1];
      ConstantStream(s', k);
      SumIsCountTimesMean(s');
      assert Sum(s) == Sum(s') + k;
      assert Sum(s) == Count(s) * k;
      assert RunningMean(s) == k;
      assert SumSqDev(s, k) == SumSqDev(s', k) + SquaredDeviationFrom(k)(k);
      assert |s'| > 0 ==> SumSqDev(s', k) == 0.0;
    }
  }

  /** The mean and the variance depend only on which values were observed,
      not on the order in which they arrived. */
  lemma VarianceOrderIndependent(s: seq<real>, t: seq<real>)
    requires multiset(s) == multiset(t)
    ensures RunningMean(s) == RunningMean(t)
    ensures PopulationVariance(s) == PopulationVariance(t)
  {
    assert |s| == |multiset(s)| == |multiset(t)| == |t|;
    SumOfPermutation(Identity, s, t);
    SumOfPermutation(SquaredDeviationFrom(RunningMean(s)), s, t);
  }

  /** The batch 2, 4, 4, 4, 5, 5, 7, 9 has mean 5 and population variance 4. */
  lemma KnownBatch()
    ensures RunningMean([2.0, 4.0, 4.0, 4.0, 5.0, 5.0, 7.0, 9.0]) == 5.0
    ensures PopulationVariance([2.0, 4.0, 4.0, 4.0, 5.0, 5.0, 7.0, 9.0]) == 4.0
  {
    KnownBatchSum();
    KnownBatchSumSqDev();
  }

  lemma KnownBatchSum()
    ensures Sum([2.0, 4.0, 4.0, 4.0, 5.0, 5.0, 7.0, 9.0]) == 40.0
  {
    SumOfAppend(Identity, [], 2.0);
    assert [] + [2.0] == [2.0];
    assert Sum([2.0]) == 2.0;
    SumOfAppend(Identity, [2.0], 4.0);
    assert [2.0] + [4.0] == [2.0, 4.0];
    assert Sum([2.0, 4.0]) == 6.0;
    SumOfAppend(Identity, [2.0, 4.0], 4.0);
    assert [2.0, 4.0] + [4.0] == [2.0, 4.0, 4.0];
    assert Sum([2.0, 4.0, 4.0]) == 10.0;
    SumOfAppend(Identity, [2.0, 4.0, 4.0], 4.0);
    assert [2.0, 4.0, 4.0] + [4.0] == [2.0, 4.0, 4.0, 4.0];
    assert Sum([2.0, 4.0, 4.0, 4.0]) == 14.0;
    SumOfAppend(Identity, [2.0, 4.0, 4.0, 4.0], 5.0);
    assert [2.0, 4.0, 4.0, 4.0] + [5.0] == [2.0, 4.0, 4.0, 4.0, 5.0];
    assert Sum([2.0, 4.0, 4.0, 4.0, 5.0]) == 19.0;
    SumOfAppend(Identity, [2.0, 4.0, 4.0, 4.0, 5.0], 5.0);
    assert [2.0, 4.0, 4.0, 4.0, 5.0] + [5.0] == [2.0, 4.0, 4.0, 4.0, 5.0, 5.0];
    assert Sum([2.0, 4.0, 4.0, 4.0, 5.0, 5.0]) == 24.0;
    SumOfAppend(Identity, [2.0, 4.0, 4.0, 4.0, 5.0, 5.0], 7.0);
    assert [2.0, 4.0, 4.0, 4.0, 5.0, 5.0] + [7.0] == [2.0, 4.0, 4.0, 4.0, 5.0, 5.0, 7.0];
    assert Sum([2.0, 4.0, 4.0, 4.0, 5.0, 5.0, 7.0]) == 31.0;
    SumOfAppend(Identity, [2.0, 4.0, 4.0, 4.0, 5.0, 5.0, 7.0], 9.0);
    assert [2.0, 4.0, 4.0, 4.0, 5.0, 5.0, 7.0] + [9.0] == [2.0, 4.0, 4.0, 4.0, 5.0, 5.0, 7.0, 9.0];
    assert Sum([2.0, 4.0, 4.0, 4.0, 5.0, 5.0, 7.0, 9.0]) == 40.0;
  }

  lemma KnownBatchSumSqDev()
    ensures SumSqDev([2.0, 4.0, 4.0, 4.0, 5.0, 5.0, 7.0, 9.0], 5.0) == 32.0
  {
    SumOfAppend(SquaredDeviationFrom(5.0), [], 2.0);
    assert [] + [2.0] == [2.0];
    assert SumSqDev([2.0], 5.0) == 9.0;
    SumOfAppend(SquaredDeviationFrom(5.0), [2.0], 4.0);
    assert [2.0] + [4.0] == [2.0, 4.0];
    assert SumSqDev([2.0, 4.0], 5.0) == 10.0;
    SumOfAppend(SquaredDeviationFrom(5.0), [2.0, 4.0], 4.0);
    assert [2.0, 4.0] + [4.0] == [2.0, 4.0, 4.0];
    assert SumSqDev([2.0, 4.0, 4.0], 5.0) == 11.0;
    SumOfAppend(SquaredDeviationFrom(5.0), [2.0, 4.0, 4.0], 4.0);
    assert [2.0, 4.0, 4.0] + [4.0] == [2.0, 4.0, 4.0, 4.0];
    assert SumSqDev([2.0, 4.0, 4.0, 4.0], 5.0) == 12.0;
    SumOfAppend(SquaredDeviationFrom(5.0), [2.0, 4.0, 4.0, 4.0], 5.0);
    assert [2.0, 4.0, 4.0, 4.0] + [5.0] == [2.0, 4.0, 4.0, 4.0, 5.0];
    assert SumSqDev([2.0, 4.0, 4.0, 4.0, 5.0], 5.0) == 12.0;
    SumOfAppend(SquaredDeviationFrom(5.0), [2.0, 4.0, 4.0, 4.0, 5.0], 5.0);
    assert [2.0, 4.0, 4.0, 4.0, 5.0] + [5.0] == [2.0, 4.0, 4.0, 4.0, 5.0, 5.0];
    assert SumSqDev([2.0, 4.0, 4.0, 4.0, 5.0, 5.0], 5.0) == 12.0;
    SumOfAppend(SquaredDeviationFrom(5.0), [2.0, 4.0, 4.0, 4.0, 5.0, 5.0], 7.0);
    assert [2.0, 4.0, 4.0, 4.0, 5.0, 5.0] + [7.0] == [2.0, 4.0, 4.0, 4.0, 5.0, 5.0, 7.0];
    assert SumSqDev([2.0, 4.0, 4.0, 4.0, 5.0, 5.0, 7.0], 5.0) == 16.0;
    SumOfAppend(SquaredDeviationFrom(5.0), [2.0, 4.0, 4.0, 4.0, 5.0, 5.0, 7.0], 9.0);
    assert [2.0, 4.0, 4.0, 4.0, 5.0, 5.0, 7.0] + [9.0] == [2.0, 4.0, 4.0, 4.0, 5.0, 5.0, 7.0, 9.0];
    assert SumSqDev([2.0, 4.0, 4.0, 4.0, 5.0, 5.0, 7.0, 9.0], 5.0) == 32.0;
  }
}
