/** The filter with libsonic's own table: a steady sound keeps its level, and on a sample the filter is that sample. */
module SincGain {
  import opened CArith
  import opened Frames
  import opened SincTable
  import opened SincFilter

  /** The first n values at a point of the table. */
  function LobeSum(table: Table, j: nat, n: nat): int
    requires n <= SINC_FILTER_POINTS && j <= LOBE_POINTS
  {
    if n == 0 then 0 else LobeSum(table, j, n - 1) + table[(n - 1) * LOBE_POINTS + j]
  }

  lemma EntryAt(points: seq<Point>, i: nat, j: nat)
    requires |points| == LOBE_POINTS && i < SINC_FILTER_POINTS && j < LOBE_POINTS
    ensures TableOf(points)[i * LOBE_POINTS + j] == points[j].At(i)
  {
  }

  lemma EntryAtTheEnd(points: seq<Point>, i: nat)
    requires |points| == LOBE_POINTS && i < SINC_FILTER_POINTS
    ensures TableOf(points)[i * LOBE_POINTS + LOBE_POINTS] == if i < 11 then points[0].At(i + 1) else 0
  {
    if i < 11 {
      EntryAt(points, i + 1, 0);
    }
  }

  function ColumnSum(c: Column, n: nat): int
    requires n <= SINC_FILTER_POINTS
  {
    if n == 0 then 0 else ColumnSum(c, n - 1) + c.At(n - 1)
  }

  lemma WholeColumn(c: Column)
    ensures ColumnSum(c, 12) == c.Sum()
  {
    assert ColumnSum(c, 0) == 0 && ColumnSum(c, 1) == c.t0 && ColumnSum(c, 2) == ColumnSum(c, 1) + c.t1;
    assert ColumnSum(c, 3) == ColumnSum(c, 2) + c.t2 && ColumnSum(c, 4) == ColumnSum(c, 3) + c.t3;
    assert ColumnSum(c, 5) == ColumnSum(c, 4) + c.t4 && ColumnSum(c, 6) == ColumnSum(c, 5) + c.t5;
    assert ColumnSum(c, 7) == ColumnSum(c, 6) + c.t6 && ColumnSum(c, 8) == ColumnSum(c, 7) + c.t7;
    assert ColumnSum(c, 9) == ColumnSum(c, 8) + c.t8 && ColumnSum(c, 10) == ColumnSum(c, 9) + c.t9;
    assert ColumnSum(c, 11) == ColumnSum(c, 10) + c.t10 && ColumnSum(c, 12) == ColumnSum(c, 11) + c.t11;
  }

  /** The values at one point of every lobe. */
  predicate IsColumn(table: Table, c: Column, j: nat)
    requires j < LOBE_POINTS
  {
    forall i :: 0 <= i < SINC_FILTER_POINTS ==> table[i * LOBE_POINTS + j] == c.At(i)
  }

  lemma {:induction false} LobesAreColumns(table: Table, c: Column, j: nat, n: nat)
    requires n <= SINC_FILTER_POINTS && j < LOBE_POINTS && IsColumn(table, c, j)
    ensures LobeSum(table, j, n) == ColumnSum(c, n)
  {
    if n > 0 {
      LobesAreColumns(table, c, j, n - 1);
    }
  }

  /** The values at the end of every lobe are those at the start of the next one. */
  predicate IsNextColumn(table: Table, c: Column) {
    forall i :: 0 <= i < SINC_FILTER_POINTS ==> table[i * LOBE_POINTS + LOBE_POINTS] == if i < 11 then c.At(i + 1) else 0
  }

  /** From one point to the next over the end of a lobe. */
  lemma {:induction false} LobesGoOn(table: Table, c: Column, n: nat)
    requires n < SINC_FILTER_POINTS && IsNextColumn(table, c)
    ensures LobeSum(table, LOBE_POINTS, n) == ColumnSum(c, n + 1) - c.At(0)
  {
    if n > 0 {
      LobesGoOn(table, c, n - 1);
      assert ColumnSum(c, n + 1) == ColumnSum(c, n) + c.At(n);
    } else {
      assert ColumnSum(c, 0) == 0;
    }
  }

  /** At every point of the table the twelve values add up to one. */
  lemma LobesAddUp(points: seq<Point>, j: nat)
    requires |points| == LOBE_POINTS && j <= LOBE_POINTS && points[0].At(0) == 0
    ensures IsOne(LobeSum(TableOf(points), j, SINC_FILTER_POINTS))
  {
    var table := TableOf(points);
    if j < LOBE_POINTS {
      forall i | 0 <= i < SINC_FILTER_POINTS
        ensures table[i * LOBE_POINTS + j] == points[j].At(i)
      {
        EntryAt(points, i, j);
      }
      LobesAreColumns(table, points[j], j, SINC_FILTER_POINTS);
      WholeColumn(points[j]);
    } else {
      forall i | 0 <= i < SINC_FILTER_POINTS
        ensures table[i * LOBE_POINTS + LOBE_POINTS] == if i < 11 then points[0].At(i + 1) else 0
      {
        EntryAtTheEnd(points, i);
      }
      LobesGoOn(table, points[0], 11);
      WholeColumn(points[0]);
    }
  }

  // ---- the weights of the filter ----

  function WeightSum(table: Table, n: nat, ratio: nat, width: nat): int
    requires n <= SINC_FILTER_POINTS && ratio < width
  {
    if n == 0 then 0 else WeightSum(table, n - 1, ratio, width) + FindSincCoefficient(table, n - 1, ratio, width)
  }

  /** The wanted point lies between these two points of every lobe, and as far from the first. */
  function PointBefore(ratio: nat, width: nat): (q: nat)
    requires ratio < width
    ensures q < LOBE_POINTS
  {
    LeftIndex(0, ratio, width)
  }

  lemma SameInEveryLobe(i: nat, ratio: nat, width: nat)
    requires i < SINC_FILTER_POINTS && ratio < width
    ensures LeftIndex(i, ratio, width) == i * LOBE_POINTS + PointBefore(ratio, width)
    ensures OffsetInStep(i, ratio, width) == OffsetInStep(0, ratio, width)
  {
    var q := PointBefore(ratio, width);
    assert (i * LOBE_POINTS + q) * width == i * LOBE_POINTS * width + q * width;
  }

  /** Twice what the sums at both points come to between them. */
  function MixedSum(a: int, b: int, position: nat, width: nat): int
    requires position <= width
  {
    (a * (width - position) + b * position) * 2
  }

  lemma MixedSumAdds(a: int, l: int, b: int, r: int, position: nat, width: nat)
    requires position <= width
    ensures MixedSum(a + l, b + r, position, width) == MixedSum(a, b, position, width) + MixedSum(l, r, position, width)
  {
    var k := width - position;
    assert (a + l) * k == a * k + l * k && (b + r) * position == b * position + r * position;
  }

  lemma WeightIsMixed(table: Table, i: nat, ratio: nat, width: nat)
    requires i < SINC_FILTER_POINTS && ratio < width
    ensures var q, position := PointBefore(ratio, width), OffsetInStep(0, ratio, width);
      Distance(FindSincCoefficient(table, i, ratio, width) * width,
               MixedSum(table[i * LOBE_POINTS + q], table[i * LOBE_POINTS + (q + 1)], position, width)) < width
  {
    SameInEveryLobe(i, ratio, width);
    var left, position := LeftIndex(i, ratio, width), OffsetInStep(0, ratio, width);
    TruncDivIsNearest(MixedSum(table[left], table[left + 1], position, width), width);
  }

  lemma OneMoreWeight(before: int, weight: int, width: nat, n: nat, x: int, y: int)
    requires n > 0 && Distance(before * width, x) <= (n - 1) * width && Distance(weight * width, y) < width
    ensures Distance((before + weight) * width, x + y) <= n * width
  {
    assert (before + weight) * width == before * width + weight * width && n * width == (n - 1) * width + width;
  }

  lemma {:induction false} WeightsAreMixed(table: Table, n: nat, ratio: nat, width: nat)
    requires n <= SINC_FILTER_POINTS && ratio < width
    ensures var q, position := PointBefore(ratio, width), OffsetInStep(0, ratio, width);
      Distance(WeightSum(table, n, ratio, width) * width,
               MixedSum(LobeSum(table, q, n), LobeSum(table, q + 1, n), position, width)) <= n * width
  {
    if n > 0 {
      var q, position := PointBefore(ratio, width), OffsetInStep(0, ratio, width);
      var l, r := table[(n - 1) * LOBE_POINTS + q], table[(n - 1) * LOBE_POINTS + (q + 1)];
      var before, weight := WeightSum(table, n - 1, ratio, width), FindSincCoefficient(table, n - 1, ratio, width);
      WeightsAreMixed(table, n - 1, ratio, width);
      WeightIsMixed(table, n - 1, ratio, width);
      MixedSumAdds(LobeSum(table, q, n - 1), l, LobeSum(table, q + 1, n - 1), r, position, width);
      OneMoreWeight(before, weight, width, n, MixedSum(LobeSum(table, q, n - 1), LobeSum(table, q + 1, n - 1), position, width),
                    MixedSum(l, r, position, width));
    }
  }

  /** Whatever the ratio, the weights of libsonic's filter add up to 65536, up to 72. */
  lemma WeightsAddUp(ratio: nat, width: nat)
    requires ratio < width
    ensures Distance(WeightSum(LibsonicTable(), SINC_FILTER_POINTS, ratio, width), 65536) <= 72
  {
    var table, q, position := LibsonicTable(), PointBefore(ratio, width), OffsetInStep(0, ratio, width);
    assert POINTS[0] == ON_A_SAMPLE;
    LobesAddUp(POINTS, q);
    LobesAddUp(POINTS, q + 1);
    var a, b, w := LobeSum(table, q, 12), LobeSum(table, q + 1, 12), WeightSum(table, 12, ratio, width);
    WeightsAreMixed(table, 12, ratio, width);
    WeightedMean(a, b, position, width, 32766, 32798);
    SumInRange(w, width, MixedSum(a, b, position, width));
  }

  lemma SumInRange(w: int, width: nat, mixed: int)
    requires width > 0 && Distance(w * width, mixed) <= 12 * width && 65532 * width <= mixed <= 65596 * width
    ensures Distance(w, 65536) <= 72
  {
    if w > 65608 {
      MulMono(65609, w, width);
    } else if w < 65520 {
      MulMono(w, 65519, width);
    }
  }

  lemma {:induction false} SteadySum(table: Table, samples: seq<Short>, c: Short, n: nat, ratio: nat, width: nat)
    requires n <= SINC_FILTER_POINTS == |samples| && ratio < width && forall i :: 0 <= i < |samples| ==> samples[i] == c
    ensures FilterSum(table, samples, n, ratio, width) == c * WeightSum(table, n, ratio, width)
  {
    if n > 0 {
      SteadySum(table, samples, c, n - 1, ratio, width);
      OneMoreTerm(c, WeightSum(table, n - 1, ratio, width), FindSincCoefficient(table, n - 1, ratio, width));
      assert Term(table, samples, n - 1, ratio, width) == c * FindSincCoefficient(table, n - 1, ratio, width);
    }
  }

  lemma OneMoreTerm(c: int, before: int, w: int)
    ensures c * (before + w) == c * before + c * w
  {
  }

  lemma ScaledBack(c: Short, w: int)
    requires Distance(w, 65536) <= 72
    ensures Distance(Clip(c * w / 65536), c) <= 37
  {
    if c >= 0 {
      MulMono(65464, w, c);
      MulMono(w, 65608, c);
    } else {
      var k: nat := -(c as int);
      MulMono(65464, w, k);
      MulMono(w, 65608, k);
      assert w * k == -(c * w);
    }
  }

  /** A steady sound keeps its level through the filter, up to a thousandth of the range of 16 bits. */
  lemma SteadySoundStays(samples: seq<Short>, c: Short, ratio: nat, width: nat)
    requires |samples| == SINC_FILTER_POINTS && ratio < width && forall i :: 0 <= i < |samples| ==> samples[i] == c
    ensures Distance(Filtered(LibsonicTable(), samples, ratio, width), c) <= 37
  {
    WeightsAddUp(ratio, width);
    SteadySum(LibsonicTable(), samples, c, SINC_FILTER_POINTS, ratio, width);
    ScaledBack(c, WeightSum(LibsonicTable(), SINC_FILTER_POINTS, ratio, width));
  }

  lemma AtRatioZero(i: nat, width: nat)
    requires i < SINC_FILTER_POINTS && width > 0
    ensures LeftIndex(i, 0, width) == i * LOBE_POINTS && OffsetInStep(i, 0, width) == 0
  {
    assert 0 / width == 0;
  }

  lemma WeightOnASample(points: seq<Point>, i: nat, width: nat)
    requires |points| == LOBE_POINTS && points[0] == ON_A_SAMPLE && i < SINC_FILTER_POINTS && width > 0
    ensures FindSincCoefficient(TableOf(points), i, 0, width) == if i == 6 then 65534 else 0
  {
    EntryAt(points, i, 0);
    AtRatioZero(i, width);
    CoefficientFollows(TableOf(points), i, 0, width);
  }

  ghost predicate OnlyMiddle(table: Table, width: nat)
    requires width > 0
  {
    forall i :: 0 <= i < SINC_FILTER_POINTS ==> FindSincCoefficient(table, i, 0, width) == if i == 6 then 65534 else 0
  }

  lemma {:induction false} SumOnASample(table: Table, samples: seq<Short>, n: nat, width: nat)
    requires n <= SINC_FILTER_POINTS == |samples| && width > 0 && OnlyMiddle(table, width)
    ensures FilterSum(table, samples, n, 0, width) == if n > 6 then samples[6] as int * 65534 else 0
  {
    if n > 0 {
      SumOnASample(table, samples, n - 1, width);
      var w := FindSincCoefficient(table, n - 1, 0, width);
      assert Term(table, samples, n - 1, 0, width) == samples[n - 1] * w;
      assert w == if n - 1 == 6 then 65534 else 0;
    }
  }

  lemma SampleScaledBack(s: Short)
    ensures Distance(Clip(s as int * 65534 / 65536), s) <= 1
  {
  }

  /** Right on a sample the filter is that sample, up to one. */
  lemma SampleStays(samples: seq<Short>, width: nat)
    requires |samples| == SINC_FILTER_POINTS && width > 0
    ensures Distance(Filtered(LibsonicTable(), samples, 0, width), samples[6]) <= 1
  {
    assert POINTS[0] == ON_A_SAMPLE;
    forall i | 0 <= i < SINC_FILTER_POINTS
      ensures FindSincCoefficient(LibsonicTable(), i, 0, width) == if i == 6 then 65534 else 0
    {
      WeightOnASample(POINTS, i, width);
    }
    SumOnASample(LibsonicTable(), samples, SINC_FILTER_POINTS, width);
    SampleScaledBack(samples[6]);
  }
}
