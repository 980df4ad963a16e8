/**
 * The pitch search of libsonic: the average magnitude difference function, first on down-sampled
 * input, then again around the coarse answer on the input itself.
 */
module PitchSearch {
  import opened CArith
  import opened Frames

  const MIN_PITCH := 65
  const MAX_PITCH := 400
  const AMDF_FREQ := 4000

  /** The sum of the first n differences between the samples and the samples one period later. */
  ghost function PartialDiff(s: seq<Short>, period: nat, n: nat): nat
    requires n + period <= |s|
  {
    if n == 0 then 0 else PartialDiff(s, period, n - 1) + Distance(s[n - 1], s[n - 1 + period])
  }

  ghost function Diff(s: seq<Short>, period: nat): nat
    requires 2 * period <= |s|
  {
    PartialDiff(s, period, period)
  }

  lemma {:induction false} PartialDiffBound(s: seq<Short>, period: nat, n: nat)
    requires n + period <= |s|
    ensures PartialDiff(s, period, n) <= 65535 * n
  {
    if n > 0 {
      PartialDiffBound(s, period, n - 1);
    }
  }

  /** Period q is tried when it lies in the range. Period 0 has no samples to compare. */
  predicate Tried(lo: int, hi: int, q: int) {
    1 <= q && lo <= q <= hi
  }

  /** p has a smaller mean difference than q, or the same one and is not longer; no division is needed to say so. */
  ghost predicate Beats(s: seq<Short>, p: nat, q: nat)
    requires 2 * p <= |s| && 2 * q <= |s|
  {
    && Diff(s, p) * q <= Diff(s, q) * p
    && (q < p ==> Diff(s, p) * q < Diff(s, q) * p)
  }

  function MeanDiff(diff: nat, period: nat): nat
    requires period > 0
  {
    diff / period
  }

  /** The smallest period that minimises the mean difference. */
  ghost predicate IsBest(s: seq<Short>, lo: int, hi: int, best: nat)
    requires 2 * hi <= |s|
  {
    Tried(lo, hi, best) && forall q: nat :: Tried(lo, hi, q) ==> Beats(s, best, q)
  }

  /** diff / period is the greatest mean difference, or nothing but zero has been seen. */
  ghost predicate IsWorst(s: seq<Short>, lo: int, hi: int, worst: nat, diff: nat)
    requires 2 * hi <= |s|
  {
    && worst > 0
    && (diff > 0 ==> Tried(lo, hi, worst) && diff == Diff(s, worst))
    && forall q: nat :: Tried(lo, hi, q) ==> Diff(s, q) * worst <= diff * q
  }

  /** The greatest mean difference over a range, rounded down. */
  ghost predicate IsMaxDiff(s: seq<Short>, lo: int, hi: int, maxDiff: nat)
    requires 2 * hi <= |s|
  {
    && (forall q: nat :: Tried(lo, hi, q) ==> MeanDiff(Diff(s, q), q) <= maxDiff)
    && (exists q: nat :: Tried(lo, hi, q) && MeanDiff(Diff(s, q), q) == maxDiff)
  }

  /** The answer of a search: the best period, and the least and the greatest mean difference. */
  ghost predicate Found(s: seq<Short>, lo: int, hi: int, best: nat, minDiff: nat, maxDiff: nat)
    requires 2 * hi <= |s|
  {
    IsBest(s, lo, hi, best) && minDiff == MeanDiff(Diff(s, best), best) && IsMaxDiff(s, lo, hi, maxDiff)
  }

  lemma CancelFactor(x: int, y: int, q: nat)
    requires q > 0
    ensures x * q <= y * q ==> x <= y
    ensures x * q < y * q ==> x < y
  {
    if x > y {
      MulMono(y + 1, x, q);
    }
  }

  lemma Swap(a: int, b: int, c: int)
    ensures a * b * c == a * c * b
  {
  }

  /** Comparing fractions by cross-multiplication is transitive. */
  lemma CrossTransitive(a: nat, p: nat, b: nat, q: nat, c: nat, r: nat)
    requires p > 0 && q > 0 && r > 0
    requires a * q <= b * p && b * r <= c * q
    ensures a * r <= c * p
  {
    MulMono(a * q, b * p, r);
    MulMono(b * r, c * q, p);
    Swap(a, q, r);
    Swap(b, p, r);
    Swap(c, q, p);
    CancelFactor(a * r, c * p, q);
  }

  /** ... and a strict step on the left makes the whole comparison strict. */
  lemma CrossStrict(a: nat, p: nat, b: nat, q: nat, c: nat, r: nat)
    requires p > 0 && q > 0 && r > 0
    requires a * q < b * p && b * r <= c * q
    ensures a * r < c * p
  {
    MulMono(a * q + 1, b * p, r);
    MulMono(b * r, c * q, p);
    Swap(a, q, r);
    Swap(b, p, r);
    Swap(c, q, p);
    CancelFactor(a * r, c * p, q);
  }

  lemma FloorMono(a: nat, p: nat, b: nat, q: nat)
    requires p > 0 && q > 0 && a * q <= b * p
    ensures MeanDiff(a, p) <= MeanDiff(b, q)
  {
    var f := a / p;
    MulMono(f * p, a, q);
    Swap(f, p, q);
    CancelFactor(f * q, b, p);
    if f > b / q {
      MulMono(b / q + 1, f, q);
    }
  }

  /** What the loop knows after trying the periods up to hi; best is 0 while there was none to try. */
  ghost predicate BestSoFar(s: seq<Short>, lo: int, hi: int, best: nat, minDiff: nat)
    requires 2 * hi <= |s|
  {
    && (best == 0 ==> hi < lo || hi < 1)
    && (best > 0 ==> IsBest(s, lo, hi, best) && minDiff == Diff(s, best))
  }

  /** A period takes over as the best one exactly if it is strictly better. */
  lemma BestStep(s: seq<Short>, lo: nat, period: nat, best: nat, minDiff: nat)
    requires 2 * period <= |s| && lo <= period && BestSoFar(s, lo, period - 1, best, minDiff)
    ensures var better := best == 0 || Diff(s, period) * best < minDiff * period;
      BestSoFar(s, lo, period, if better then period else best, if better then Diff(s, period) else minDiff)
  {
    if best > 0 && Diff(s, period) * best < minDiff * period {
      forall q: nat | Tried(lo, period, q)
        ensures Beats(s, period, q)
      {
        if q < period {
          assert Beats(s, best, q);
          CrossStrict(Diff(s, period), period, minDiff, best, Diff(s, q), q);
        }
      }
    }
  }

  /** A period takes over as the worst one exactly if its mean difference is greater. */
  lemma WorstStep(s: seq<Short>, lo: nat, period: nat, worst: nat, diff: nat)
    requires 2 * period <= |s| && lo <= period && IsWorst(s, lo, period - 1, worst, diff)
    ensures var worse := Diff(s, period) * worst > diff * period;
      IsWorst(s, lo, period, if worse then period else worst, if worse then Diff(s, period) else diff)
  {
    if Diff(s, period) * worst > diff * period {
      assert period > 0;
      forall q: nat | Tried(lo, period, q)
        ensures Diff(s, q) * period <= Diff(s, period) * q
      {
        if q < period {
          CrossTransitive(Diff(s, q), q, diff, worst, Diff(s, period), period);
        }
      }
    }
  }

  lemma WorstGivesMaxDiff(s: seq<Short>, lo: int, hi: int, worst: nat, diff: nat, some: nat)
    requires 2 * hi <= |s| && IsWorst(s, lo, hi, worst, diff) && Tried(lo, hi, some)
    ensures IsMaxDiff(s, lo, hi, MeanDiff(diff, worst))
  {
    forall q: nat | Tried(lo, hi, q)
      ensures MeanDiff(Diff(s, q), q) <= MeanDiff(diff, worst)
    {
      FloorMono(Diff(s, q), q, diff, worst);
    }
    if diff == 0 {
      assert MeanDiff(Diff(s, some), some) <= 0;
    }
  }

  /** The answer of the search is unique, so the contract below leaves no choice. */
  lemma FoundIsUnique(s: seq<Short>, lo: int, hi: int, p: nat, minP: nat, maxP: nat, q: nat, minQ: nat, maxQ: nat)
    requires 2 * hi <= |s| && Found(s, lo, hi, p, minP, maxP) && Found(s, lo, hi, q, minQ, maxQ)
    ensures p == q && minP == minQ && maxP == maxQ
  {
  }

  /** The least mean difference never exceeds the greatest one. */
  lemma MinBelowMax(s: seq<Short>, lo: int, hi: int, best: nat, minDiff: nat, maxDiff: nat)
    requires 2 * hi <= |s| && Found(s, lo, hi, best, minDiff, maxDiff)
    ensures minDiff <= maxDiff
    ensures forall q: nat :: Tried(lo, hi, q) ==> minDiff <= MeanDiff(Diff(s, q), q)
  {
    forall q: nat | Tried(lo, hi, q)
      ensures minDiff <= MeanDiff(Diff(s, q), q)
    {
      assert Beats(s, best, q);
      FloorMono(Diff(s, best), best, Diff(s, q), q);
    }
  }

  method SumDifferences(s: seq<Short>, period: nat) returns (diff: nat)
    requires 2 * period <= |s|
    ensures diff == Diff(s, period)
  {
    diff := 0;
    for i := 0 to period
      invariant diff == PartialDiff(s, period, i)
    {
      diff := diff + Distance(s[i], s[i + period]);
    }
  }

  /** Exhaustive search by cross-multiplication. */
  method FindPitchPeriodInRange(s: seq<Short>, minPeriod: nat, maxPeriod: nat)
    returns (bestPeriod: nat, retMinDiff: nat, retMaxDiff: nat)
    requires 1 <= maxPeriod && minPeriod <= maxPeriod && 2 * maxPeriod <= |s|
    ensures Found(s, minPeriod, maxPeriod, bestPeriod, retMinDiff, retMaxDiff)
  {
    bestPeriod := 0;
    var worstPeriod: nat, minDiff: nat, maxDiff: nat := 255, 1, 0;
    for period := minPeriod to maxPeriod + 1
      invariant BestSoFar(s, minPeriod, period - 1, bestPeriod, minDiff)
      invariant IsWorst(s, minPeriod, period - 1, worstPeriod, maxDiff)
    {
      var diff := SumDifferences(s, period);
      BestStep(s, minPeriod, period, bestPeriod, minDiff);
      WorstStep(s, minPeriod, period, worstPeriod, maxDiff);
      if bestPeriod == 0 || diff * bestPeriod < minDiff * period {
        minDiff := diff;
        bestPeriod := period;
      }
      if diff * worstPeriod > maxDiff * period {
        maxDiff := diff;
        worstPeriod := period;
      }
    }
    WorstGivesMaxDiff(s, minPeriod, maxPeriod, worstPeriod, maxDiff, bestPeriod);
    retMinDiff := MeanDiff(minDiff, bestPeriod);
    retMaxDiff := MeanDiff(maxDiff, worstPeriod);
  }

  // ---- what the search finds ----

  /** The samples after a period are the samples before it. */
  predicate Repeats(s: seq<Short>, period: nat)
    requires 2 * period <= |s|
  {
    forall i :: 0 <= i < period ==> s[i] == s[i + period]
  }

  /** Differences of no less than a and no more than b each. */
  predicate Differ(s: seq<Short>, period: nat, a: nat, b: nat)
    requires 2 * period <= |s|
  {
    forall i :: 0 <= i < period ==> a <= Distance(s[i], s[i + period]) <= b
  }

  lemma {:induction false} PartialDiffBetween(s: seq<Short>, period: nat, a: nat, b: nat, n: nat)
    requires 2 * period <= |s| && n <= period && Differ(s, period, a, b)
    ensures a * n <= PartialDiff(s, period, n) <= b * n
  {
    if n > 0 {
      PartialDiffBetween(s, period, a, b, n - 1);
      assert a * n == a * (n - 1) + a && b * n == b * (n - 1) + b;
    }
  }

  /** A mean difference lies between the least and the greatest difference. */
  lemma MeanIsBetween(s: seq<Short>, period: nat, a: nat, b: nat)
    requires 0 < period && 2 * period <= |s| && Differ(s, period, a, b)
    ensures a <= MeanDiff(Diff(s, period), period) <= b
  {
    PartialDiffBetween(s, period, a, b, period);
    QuotientBetween(Diff(s, period), period, a, b);
  }

  lemma QuotientBetween(d: nat, period: nat, a: nat, b: nat)
    requires 0 < period && a * period <= d <= b * period
    ensures a <= d / period <= b
  {
    assert (b + 1) * period == b * period + period;
    IntDivAtMost(d, period, b);
    if d / period < a {
      MulMono(d / period + 1, a, period);
    }
  }

  lemma {:induction false} PartialDiffIsZeroIff(s: seq<Short>, period: nat, n: nat)
    requires n + period <= |s|
    ensures PartialDiff(s, period, n) == 0 <==> forall i :: 0 <= i < n ==> s[i] == s[i + period]
  {
    if n > 0 {
      PartialDiffIsZeroIff(s, period, n - 1);
    }
  }

  /** There is no difference exactly for a period with which the samples repeat. */
  lemma DiffIsZeroIff(s: seq<Short>, period: nat)
    requires 2 * period <= |s|
    ensures Diff(s, period) == 0 <==> Repeats(s, period)
  {
    PartialDiffIsZeroIff(s, period, period);
  }

  /** Samples that repeat give the smallest period with which they do, whatever other periods there are to try. */
  lemma SmallestRepeatIsFound(s: seq<Short>, lo: int, hi: int, period: nat, best: nat, minDiff: nat, maxDiff: nat)
    requires 2 * hi <= |s| && Found(s, lo, hi, best, minDiff, maxDiff)
    requires Tried(lo, hi, period) && Repeats(s, period)
    requires forall q: nat :: Tried(lo, hi, q) && q < period ==> !Repeats(s, q)
    ensures best == period && minDiff == 0
  {
    DiffIsZeroIff(s, period);
    DiffIsZeroIff(s, best);
    assert Beats(s, best, period);
    if Diff(s, best) > 0 {
      MulMono(1, Diff(s, best), period);
    }
  }

  /** Where nothing repeats, whatever is found differs. */
  lemma NoRepeatDiffers(s: seq<Short>, lo: int, hi: int, best: nat, minDiff: nat, maxDiff: nat)
    requires 2 * hi <= |s| && Found(s, lo, hi, best, minDiff, maxDiff)
    requires forall q: nat :: Tried(lo, hi, q) ==> !Repeats(s, q)
    ensures Diff(s, best) > 0
  {
    DiffIsZeroIff(s, best);
  }

  /** The mean differences that are answered: no tried period differs by less at every sample, and none by more. */
  lemma FoundIsBetween(s: seq<Short>, lo: int, hi: int, best: nat, minDiff: nat, maxDiff: nat, period: nat, a: nat, b: nat)
    requires 2 * hi <= |s| && Found(s, lo, hi, best, minDiff, maxDiff) && Tried(lo, hi, period) && Differ(s, period, a, b)
    ensures minDiff <= b && a <= maxDiff
  {
    MeanIsBetween(s, period, a, b);
    MinBelowMax(s, lo, hi, best, minDiff, maxDiff);
  }
}
