/** The interpolation filter of the resampler: wrapping 32-bit sums, with overflows counted by their sign flips. */
module SincFilter {
  import opened CArith
  import opened Frames
  import opened SincTable

  const TWO32 := 0x1_0000_0000

  /** Signed 32-bit addition as the filter relies on it. */
  function Wrap32(x: int): (y: int)
    ensures IsInt32(y)
  {
    (x - INT_MIN) % TWO32 + INT_MIN
  }

  function GetSign(value: int): int { if value >= 0 then 1 else -1 }

  /** The index of the table entry to the left of the wanted point. */
  function LeftIndex(i: nat, ratio: nat, width: nat): (left: nat)
    requires i < SINC_FILTER_POINTS && ratio < width
    ensures i * LOBE_POINTS <= left < i * LOBE_POINTS + LOBE_POINTS
    ensures left + 1 < SINC_TABLE_SIZE
  {
    IntDivAtMost(ratio * LOBE_POINTS, width, LOBE_POINTS - 1);
    i * LOBE_POINTS + ratio * LOBE_POINTS / width
  }

  /** How far the wanted point lies beyond the left entry, in steps of 1 / width. */
  function OffsetInStep(i: nat, ratio: nat, width: nat): (position: int)
    requires i < SINC_FILTER_POINTS && ratio < width
    ensures 0 <= position < width
  {
    var q := ratio * LOBE_POINTS / width;
    assert LeftIndex(i, ratio, width) * width == i * LOBE_POINTS * width + q * width;
    i * LOBE_POINTS * width + ratio * LOBE_POINTS - LeftIndex(i, ratio, width) * width
  }

  lemma WeightedMean(l: int, r: int, position: nat, width: nat, lo: int, hi: int)
    requires position < width && lo <= l <= hi && lo <= r <= hi
    ensures lo * width <= l * (width - position) + r * position <= hi * width
  {
    MulMono(lo, l, width - position);
    MulMono(l, hi, width - position);
    MulMono(lo, r, position);
    MulMono(r, hi, position);
    assert lo * (width - position) + lo * position == lo * width;
    assert hi * (width - position) + hi * position == hi * width;
  }

  /** Twice the table value, interpolated linearly. Every intermediate value fits in 32 bits. */
  function FindSincCoefficient(table: Table, i: nat, ratio: nat, width: nat): (weight: int)
    requires i < SINC_FILTER_POINTS && ratio < width
    ensures -65534 <= weight <= 65534
  {
    var left := LeftIndex(i, ratio, width);
    var position := OffsetInStep(i, ratio, width);
    WeightedMean(table[left], table[left + 1], position, width, -32767, 32767);
    var twice := (table[left] * (width - position) + table[left + 1] * position) * 2;
    TruncDivBounds(twice, width, -65534, 65534);
    TruncDiv(twice, width)
  }

  /** The weight lies between the two table values around the wanted point. */
  lemma CoefficientBetweenNeighbours(table: Table, i: nat, ratio: nat, width: nat, lo: int, hi: int)
    requires i < SINC_FILTER_POINTS && ratio < width && lo <= 0 <= hi
    requires lo <= table[LeftIndex(i, ratio, width)] <= hi
    requires lo <= table[LeftIndex(i, ratio, width) + 1] <= hi
    ensures 2 * lo <= FindSincCoefficient(table, i, ratio, width) <= 2 * hi
  {
    var left, position := LeftIndex(i, ratio, width), OffsetInStep(i, ratio, width);
    WeightedMean(table[left], table[left + 1], position, width, lo, hi);
    var twice := (table[left] * (width - position) + table[left + 1] * position) * 2;
    TruncDivBounds(twice, width, 2 * lo, 2 * hi);
  }

  /** Products of the coefficient computation fit in 32 signed bits for rates up to 2^14. */
  lemma CoefficientProductsFit(table: Table, i: nat, ratio: nat, width: nat)
    requires i < SINC_FILTER_POINTS && ratio < width <= 0x4000
    ensures IsInt32(i * LOBE_POINTS * width + ratio * LOBE_POINTS) && IsInt32(LeftIndex(i, ratio, width) * width)
    ensures var left, position := LeftIndex(i, ratio, width), OffsetInStep(i, ratio, width);
      IsInt32((table[left] * (width - position) + table[left + 1] * position) * 2)
  {
    var left, position := LeftIndex(i, ratio, width), OffsetInStep(i, ratio, width);
    MulMono(left, 600, width);
    MulMono(i * LOBE_POINTS, 550, width);
    WeightedMean(table[left], table[left + 1], position, width, -32767, 32767);
  }

  function Term(table: Table, samples: seq<Short>, i: nat, ratio: nat, width: nat): (value: int)
    requires i < SINC_FILTER_POINTS == |samples| && ratio < width
    ensures IsInt32(value) && value != INT_MIN
  {
    TermFits(samples[i], FindSincCoefficient(table, i, ratio, width));
    samples[i] * FindSincCoefficient(table, i, ratio, width)
  }

  lemma TermFits(s: Short, weight: int)
    requires -65534 <= weight <= 65534
    ensures INT_MIN < s * weight <= INT_MAX
  {
    if weight >= 0 {
      MulMono(SHRT_MIN, s, weight);
      MulMono(s, SHRT_MAX, weight);
    } else {
      MulMono(SHRT_MIN, s, -weight);
      MulMono(s, SHRT_MAX, -weight);
      assert s * -weight == -(s * weight);
    }
  }

  /** The true sum of the first n terms, which may leave 32 bits. */
  function FilterSum(table: Table, samples: seq<Short>, n: nat, ratio: nat, width: nat): int
    requires n <= SINC_FILTER_POINTS == |samples| && ratio < width
  {
    if n == 0 then 0 else FilterSum(table, samples, n - 1, ratio, width) + Term(table, samples, n - 1, ratio, width)
  }

  function Clip(v: int): Short {
    if v > SHRT_MAX then SHRT_MAX else if v < SHRT_MIN then SHRT_MIN else v
  }

  /** What the filter is for: the exact sum scaled back to 16 bits, clipped rather than wrapped. */
  function Filtered(table: Table, samples: seq<Short>, ratio: nat, width: nat): Short
    requires |samples| == SINC_FILTER_POINTS && ratio < width
  {
    Clip(FilterSum(table, samples, SINC_FILTER_POINTS, ratio, width) / 65536)
  }

  /** A sign flip against two equal signs is exactly an overflow, by exactly 2^32 in the direction of the old sign. */
  lemma OverflowIsASignFlip(total: int, value: int)
    requires IsInt32(total) && IsInt32(value)
    ensures var sum := Wrap32(total + value);
      var flipped := GetSign(total) != GetSign(sum) && GetSign(value) == GetSign(total);
      total + value == sum + (if flipped then GetSign(total) else 0) * TWO32
  {
    var exact := total + value;
    if exact > INT_MAX {
      assert (exact - INT_MIN) % TWO32 == exact - INT_MIN - TWO32;
    } else if exact < INT_MIN {
      assert (exact - INT_MIN) % TWO32 == exact - INT_MIN + TWO32;
    }
  }

  method Interpolate(table: Table, samples: seq<Short>, ratio: nat, width: nat) returns (r: Short)
    requires |samples| == SINC_FILTER_POINTS && ratio < width
    ensures r == Filtered(table, samples, ratio, width)
  {
    var total: int, overflowCount: int := 0, 0;
    for i := 0 to SINC_FILTER_POINTS
      invariant IsInt32(total)
      invariant FilterSum(table, samples, i, ratio, width) == total + overflowCount * TWO32
    {
      var weight := FindSincCoefficient(table, i, ratio, width);
      var value := samples[i] * weight;
      assert value == Term(table, samples, i, ratio, width);
      OverflowIsASignFlip(total, value);
      var oldSign := GetSign(total);
      total := Wrap32(total + value);
      if oldSign != GetSign(total) && GetSign(value) == oldSign {
        overflowCount := overflowCount + oldSign;
      }
    }
    if overflowCount > 0 {
      return SHRT_MAX;
    } else if overflowCount < 0 {
      return SHRT_MIN;
    }
    return total / 65536;
  }

  // ---- what the filter does ----

  /** The left entry is the last one that is not beyond the wanted point, and the offset says how far it is to go on. */
  lemma LeftIndexIsLast(i: nat, ratio: nat, width: nat)
    requires i < SINC_FILTER_POINTS && ratio < width
    ensures var left, point := LeftIndex(i, ratio, width) * width, i * LOBE_POINTS * width + ratio * LOBE_POINTS;
      left <= point < left + width && point == left + OffsetInStep(i, ratio, width)
  {
  }

  function Twice(table: Table, k: nat): int
    requires k < SINC_TABLE_SIZE
  {
    table[k] as int + table[k] as int
  }

  lemma DoubleMix(l: int, r: int, position: nat, width: nat)
    requires position <= width
    ensures (l * (width - position) + r * position) * 2 == (l + l) * (width - position) + (r + r) * position
  {
  }

  /** From one table entry to the next the weight moves as the offset does, and at an entry it is twice that. */
  lemma CoefficientFollows(table: Table, i: nat, ratio: nat, width: nat)
    requires i < SINC_FILTER_POINTS && ratio < width
    ensures var left, position, w := LeftIndex(i, ratio, width), OffsetInStep(i, ratio, width), FindSincCoefficient(table, i, ratio, width);
      && (position == 0 ==> w == Twice(table, left)) && Between(w, Twice(table, left), Twice(table, left + 1))
      && Near(w, Twice(table, left), Twice(table, left + 1), position, width)
      && Near(w, Twice(table, left + 1), Twice(table, left), width - position, width)
  {
    var left, position := LeftIndex(i, ratio, width), OffsetInStep(i, ratio, width);
    DoubleMix(table[left], table[left + 1], position, width);
    MixFollows(width, position, Twice(table, left), Twice(table, left + 1), FindSincCoefficient(table, i, ratio, width));
  }

  /** Every sample counts in the sum, as often as its weight says. */
  lemma {:induction false} FilterSumFollows(table: Table, samples: seq<Short>, more: seq<Short>, n: nat, ratio: nat, width: nat, i: nat)
    requires i < n <= SINC_FILTER_POINTS == |samples| == |more| && ratio < width
    requires forall k :: 0 <= k < SINC_FILTER_POINTS && k != i ==> more[k] == samples[k]
    ensures FilterSum(table, more, n, ratio, width)
         == FilterSum(table, samples, n, ratio, width) + (more[i] - samples[i]) * FindSincCoefficient(table, i, ratio, width)
  {
    if i < n - 1 {
      FilterSumFollows(table, samples, more, n - 1, ratio, width, i);
      assert Term(table, more, n - 1, ratio, width) == Term(table, samples, n - 1, ratio, width);
    } else {
      FilterSumReads(table, samples, more, n - 1, ratio, width);
      TermFollows(more[i], samples[i], FindSincCoefficient(table, i, ratio, width));
    }
  }

  lemma TermFollows(a: int, b: int, w: int)
    ensures a * w == b * w + (a - b) * w
  {
  }

  lemma {:induction false} FilterSumReads(table: Table, samples: seq<Short>, more: seq<Short>, n: nat, ratio: nat, width: nat)
    requires n <= SINC_FILTER_POINTS == |samples| == |more| && ratio < width
    requires forall k :: 0 <= k < n ==> more[k] == samples[k]
    ensures FilterSum(table, more, n, ratio, width) == FilterSum(table, samples, n, ratio, width)
  {
    if n > 0 {
      FilterSumReads(table, samples, more, n - 1, ratio, width);
    }
  }

  /** Clipping takes the nearest value of 16 bits. */
  lemma ClipIsNearest(v: int, s: Short)
    ensures Distance(Clip(v), v) <= Distance(s, v)
  {
  }
}
