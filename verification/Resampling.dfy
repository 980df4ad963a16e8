/** The resampler of libsonic: two integer positions that count input and output within one phase. */
module Resampling {
  import opened CArith
  import opened RealArith
  import opened Frames
  import opened SincTable
  import opened SincFilter
  import opened SincGain

  const MAX_RATE := 0x4000

  /** Output and input rate, as the integer arithmetic of the resampler uses them. */
  datatype Rates = Rates(output: nat, input: nat)

  /** Both rates are halved until they fit in 14 bits. */
  function Halved(r: Rates): (h: Rates)
    ensures h.output <= MAX_RATE && h.input <= MAX_RATE
    ensures r.output <= MAX_RATE && r.input <= MAX_RATE ==> h == r
    decreases r.output + r.input
  {
    if r.output > MAX_RATE || r.input > MAX_RATE then Halved(Rates(r.output / 2, r.input / 2)) else r
  }

  function ScaledRates(sampleRate: nat, rate: real): (r: Rates)
    requires rate > 0.0
  {
    DivAtLeast(sampleRate as real, rate, 0.0);
    Halved(Rates(Trunc(sampleRate as real / rate), sampleRate))
  }

  /** How often a number can be halved before it is 1: the floor of its binary logarithm. */
  function Log2(n: nat): nat {
    if n < 2 then 0 else 1 + Log2(n / 2)
  }

  function HalvedTimes(n: nat, k: nat): nat
    decreases k
  {
    if k == 0 then n else HalvedTimes(n / 2, k - 1)
  }

  lemma {:induction false} HalvingShrinks(n: nat, k: nat)
    ensures HalvedTimes(n, k) <= n
    decreases k
  {
    if k > 0 {
      HalvingShrinks(n / 2, k - 1);
    }
  }

  lemma {:induction false} ZeroStaysZero(r: Rates)
    requires r.input == 0
    ensures Halved(r).input == 0
    decreases r.output
  {
    if r.output > MAX_RATE {
      ZeroStaysZero(Rates(r.output / 2, 0));
    }
  }

  /** Halving keeps the input rate exactly if the output rate, halved as often as the input rate allows, fits in 14 bits. */
  lemma {:induction false} HalvingKeepsInputRateIff(r: Rates)
    requires r.input >= 1
    ensures Halved(r).input >= 1 <==> HalvedTimes(r.output, Log2(r.input)) <= MAX_RATE
    decreases r.output + r.input
  {
    if r.output > MAX_RATE || r.input > MAX_RATE {
      if r.input == 1 {
        ZeroStaysZero(Rates(r.output / 2, 0));
      } else {
        HalvingKeepsInputRateIff(Rates(r.output / 2, r.input / 2));
      }
    } else {
      HalvingShrinks(r.output, Log2(r.input));
    }
  }

  /** How many output frames k input frames make. */
  function OutputCount(r: Rates, k: nat): nat
    requires r.input > 0
  {
    CeilDiv(k * r.output, r.input)
  }

  lemma NothingMakesNothing(r: Rates)
    requires r.input > 0
    ensures OutputCount(r, 0) == 0 && InPhase(r, 0, 0, 0, 0, 0)
  {
  }

  /** Output frame m is made while input frame j is the current one. */
  ghost predicate MadeAt(r: Rates, m: nat, j: nat) {
    j * r.output <= m * r.input < (j + 1) * r.output
  }

  /** There is only one such j, so the output does not depend on how the input was split into calls. */
  lemma MadeAtIsUnique(r: Rates, m: nat, i: nat, j: nat)
    requires MadeAt(r, m, i) && MadeAt(r, m, j)
    ensures i == j
  {
    if i < j {
      MulMono(i + 1, j, r.output);
    } else if j < i {
      MulMono(j + 1, i, r.output);
    }
  }

  function Taps(heard: seq<Frame>, channels: nat, at: nat, c: nat): (samples: seq<Short>)
    requires at + SINC_FILTER_POINTS <= |heard| && c < channels && Framed(heard, channels)
    ensures |samples| == SINC_FILTER_POINTS
  {
    seq(SINC_FILTER_POINTS, i requires 0 <= i < SINC_FILTER_POINTS => heard[at + i][c])
  }

  function FilteredFrame(table: Table, heard: seq<Frame>, channels: nat, at: nat, ratio: nat, width: nat): (f: Frame)
    requires at + SINC_FILTER_POINTS <= |heard| && Framed(heard, channels) && ratio < width
    ensures |f| == channels
  {
    seq(channels, c requires 0 <= c < channels => Filtered(table, Taps(heard, channels, at, c), ratio, width))
  }

  /** The distance of output frame m from the next input frame, in steps of one output rate. */
  function Ratio(r: Rates, m: nat, j: nat): int {
    (j + 1) * r.output - m * r.input - 1
  }

  ghost predicate IsOutputAt(table: Table, heard: seq<Frame>, channels: nat, start: nat, r: Rates, m: nat, f: Frame, j: nat)
    requires Framed(heard, channels)
  {
    && MadeAt(r, m, j) && start <= j && j - start + SINC_FILTER_POINTS <= |heard|
    && f == FilteredFrame(table, heard, channels, j - start, Ratio(r, m, j), r.output)
  }

  /** Output frame m of a stream whose input since position `start` is `heard`. */
  ghost predicate IsOutput(table: Table, heard: seq<Frame>, channels: nat, start: nat, r: Rates, m: nat, f: Frame)
    requires Framed(heard, channels)
  {
    exists j: nat :: IsOutputAt(table, heard, channels, start, r, m, f, j)
  }

  lemma OutputIsUnique(table: Table, heard: seq<Frame>, channels: nat, start: nat, r: Rates, m: nat, f: Frame, g: Frame)
    requires Framed(heard, channels)
    requires IsOutput(table, heard, channels, start, r, m, f) && IsOutput(table, heard, channels, start, r, m, g)
    ensures f == g
  {
    var i: nat :| IsOutputAt(table, heard, channels, start, r, m, f, i);
    var j: nat :| IsOutputAt(table, heard, channels, start, r, m, g, j);
    MadeAtIsUnique(r, m, i, j);
  }

  lemma SameTaps(heard: seq<Frame>, more: seq<Frame>, channels: nat, at: nat, c: nat)
    requires at + SINC_FILTER_POINTS <= |heard| && c < channels
    requires Framed(heard, channels) && Framed(heard + more, channels)
    ensures Taps(heard + more, channels, at, c) == Taps(heard, channels, at, c)
  {
  }

  /** More input does not change output that has been made already. */
  lemma OutputIsStable(table: Table, heard: seq<Frame>, more: seq<Frame>, channels: nat, start: nat, r: Rates, m: nat, f: Frame)
    requires Framed(heard, channels) && Framed(heard + more, channels)
    requires IsOutput(table, heard, channels, start, r, m, f)
    ensures IsOutput(table, heard + more, channels, start, r, m, f)
  {
    var j: nat :| IsOutputAt(table, heard, channels, start, r, m, f, j);
    var at: nat := j - start;
    forall c: nat | c < channels
      ensures Taps(heard + more, channels, at, c) == Taps(heard, channels, at, c)
    {
      SameTaps(heard, more, channels, at, c);
    }
    assert FilteredFrame(table, heard + more, channels, at, Ratio(r, m, j), r.output) == f;
    assert IsOutputAt(table, heard + more, channels, start, r, m, f, j);
  }

  /** The two positions count input frame k and output frame m from the last phase reset. */
  ghost predicate InPhase(r: Rates, epoch: nat, oldPosition: nat, newPosition: nat, k: nat, m: nat) {
    oldPosition <= r.input && k == epoch * r.input + oldPosition && m == epoch * r.output + newPosition
  }

  /** Distances measured within the phase are the distances measured from the very beginning. */
  lemma PhaseDistance(r: Rates, epoch: nat, oldPosition: nat, newPosition: nat, k: nat, m: nat)
    requires InPhase(r, epoch, oldPosition, newPosition, k, m)
    ensures oldPosition * r.output - newPosition * r.input == k * r.output - m * r.input
    ensures (oldPosition + 1) * r.output - newPosition * r.input == (k + 1) * r.output - m * r.input
  {
    assert k * r.output == epoch * r.input * r.output + oldPosition * r.output;
    assert m * r.input == epoch * r.output * r.input + newPosition * r.input;
    assert epoch * r.input * r.output == epoch * r.output * r.input;
    assert (oldPosition + 1) * r.output == oldPosition * r.output + r.output;
    assert (k + 1) * r.output == k * r.output + r.output;
  }

  /** When the input position has gone through a whole phase, so has the output position. */
  lemma PhaseReset(r: Rates, epoch: nat, newPosition: nat, k: nat, m: nat)
    requires r.input > 0 && InPhase(r, epoch, r.input, newPosition, k, m) && m == OutputCount(r, k)
    ensures newPosition == r.output && InPhase(r, epoch + 1, 0, 0, k, m)
  {
    assert k == (epoch + 1) * r.input;
    var whole := (epoch + 1) * r.output;
    assert k * r.output == whole * r.input;
    CeilDivUnique(k * r.output, r.input, whole);
  }

  /** Frame m is due at input frame k exactly while fewer than OutputCount(k + 1) frames have been made. */
  lemma DueWhenShort(r: Rates, k: nat, m: nat)
    requires r.input > 0 && OutputCount(r, k) <= m <= OutputCount(r, k + 1)
    ensures k * r.output <= m * r.input
    ensures m * r.input < (k + 1) * r.output <==> m < OutputCount(r, k + 1)
  {
    CeilDivBounds(k * r.output, r.input);
    CeilDivBounds((k + 1) * r.output, r.input);
    MulMono(OutputCount(r, k), m, r.input);
    if m < OutputCount(r, k + 1) {
      MulMono(m, OutputCount(r, k + 1) - 1, r.input);
    } else {
      MulMono(OutputCount(r, k + 1), m, r.input);
    }
  }

  lemma CountGrows(r: Rates, k: nat)
    requires r.input > 0
    ensures OutputCount(r, k) <= OutputCount(r, k + 1)
  {
    var c, d := OutputCount(r, k), OutputCount(r, k + 1);
    CeilDivBounds(k * r.output, r.input);
    CeilDivBounds((k + 1) * r.output, r.input);
    MulMono(k, k + 1, r.output);
    if d < c {
      MulMono(d, c - 1, r.input);
    }
  }

  /** The guard of the inner loop, and what it says about the next frame. */
  lemma GuardMeansDue(r: Rates, epoch: nat, oldPosition: nat, newPosition: nat, k: nat, m: nat)
    requires r.input > 0 && InPhase(r, epoch, oldPosition, newPosition, k, m)
    requires OutputCount(r, k) <= m <= OutputCount(r, k + 1)
    ensures (oldPosition + 1) * r.output > newPosition * r.input <==> m < OutputCount(r, k + 1)
    ensures (oldPosition + 1) * r.output - newPosition * r.input - 1 == Ratio(r, m, k)
    ensures m < OutputCount(r, k + 1) ==> MadeAt(r, m, k) && 0 <= Ratio(r, m, k) < r.output
  {
    PhaseDistance(r, epoch, oldPosition, newPosition, k, m);
    DueWhenShort(r, k, m);
    assert (k + 1) * r.output == k * r.output + r.output;
  }

  /** The inner loop comes to an end exactly if the input rate is not zero, or there is no output rate either. */
  lemma InnerLoopEndsIff(r: Rates, oldPosition: nat, newPosition: nat)
    ensures (exists m: nat :: m >= newPosition && !Due(r, oldPosition, m)) <==> r.input > 0 || r.output == 0
  {
    if r.input > 0 {
      var m := newPosition + (oldPosition + 1) * r.output;
      MulMono(1, r.input, m);
      assert !Due(r, oldPosition, m);
    } else if r.output == 0 {
      assert !Due(r, oldPosition, newPosition);
    } else {
      MulMono(1, oldPosition + 1, r.output);
    }
  }

  /** The guard of the inner loop. */
  predicate Due(r: Rates, oldPosition: nat, newPosition: nat) {
    (oldPosition + 1) * r.output > newPosition * r.input
  }

  /** A rate so small that halving loses the input rate: the loop would not end. */
  lemma TinyRateNeverEnds(newPosition: nat)
    ensures ScaledRates(65, 0.00005) == Rates(10156, 0)
    ensures Due(ScaledRates(65, 0.00005), 0, newPosition)
  {
    assert Trunc(65.0 / 0.00005) == 1300000;
    assert Halved(Rates(20312, 1)) == Rates(10156, 0);
    assert Halved(Rates(81250, 4)) == Halved(Rates(40625, 2)) == Halved(Rates(20312, 1));
    assert Halved(Rates(325000, 16)) == Halved(Rates(162500, 8)) == Halved(Rates(81250, 4));
    assert Halved(Rates(1300000, 65)) == Halved(Rates(650000, 32)) == Halved(Rates(325000, 16));
  }

  // ---- changing the pitch in the middle of a phase ----

  /** The positions count at some rates: within the phase, and with as many frames made as the input so far calls for. */
  ghost predicate Counts(r: Rates, epoch: nat, oldPosition: nat, newPosition: nat) {
    && r.input > 0 && oldPosition < r.input
    && epoch * r.output + newPosition == OutputCount(r, epoch * r.input + oldPosition)
  }

  /** It makes no difference how many phases have gone by. */
  lemma CountsInAnyEpoch(r: Rates, epoch: nat, oldPosition: nat, newPosition: nat)
    requires r.input > 0
    ensures Counts(r, epoch, oldPosition, newPosition) <==> oldPosition < r.input && newPosition == OutputCount(r, oldPosition)
  {
    var k, c := epoch * r.input + oldPosition, OutputCount(r, oldPosition);
    CeilDivBounds(oldPosition * r.output, r.input);
    assert k * r.output == epoch * r.output * r.input + oldPosition * r.output;
    assert (epoch * r.output + c) * r.input == epoch * r.output * r.input + c * r.input;
    assert (epoch * r.output + c - 1) * r.input == epoch * r.output * r.input + (c - 1) * r.input;
    CeilDivUnique(k * r.output, r.input, epoch * r.output + c);
  }

  /**
   * Positions that count before a change of rates count after it exactly if the input position lies in the
   * new phase and both rates call for the same number of frames up to there.
   */
  lemma CountingSurvivesIff(before: Rates, after: Rates, epoch: nat, newEpoch: nat, oldPosition: nat, newPosition: nat)
    requires Counts(before, epoch, oldPosition, newPosition)
    ensures Counts(after, newEpoch, oldPosition, newPosition) <==>
      oldPosition < after.input && OutputCount(before, oldPosition) == OutputCount(after, oldPosition)
  {
    CountsInAnyEpoch(before, epoch, oldPosition, newPosition);
    if after.input > 0 {
      CountsInAnyEpoch(after, newEpoch, oldPosition, newPosition);
    }
  }

  /** The ratio that the filter gets for frame m, at an input position, both counted within the phase. */
  predicate RatioFits(r: Rates, oldPosition: nat, m: nat) {
    0 <= Ratio(r, m, oldPosition) < r.output
  }

  ghost predicate AllRatiosFit(r: Rates, oldPosition: nat, newPosition: nat) {
    forall m: nat :: m >= newPosition && Due(r, oldPosition, m) ==> RatioFits(r, oldPosition, m)
  }

  /** Wherever the positions stand, all frames that are due have ratios inside the filter exactly if none was due before. */
  lemma RatiosFitIff(r: Rates, oldPosition: nat, newPosition: nat)
    ensures AllRatiosFit(r, oldPosition, newPosition) <==> newPosition * r.input >= oldPosition * r.output
  {
    assert (oldPosition + 1) * r.output == oldPosition * r.output + r.output;
    if newPosition * r.input >= oldPosition * r.output {
      forall m: nat | m >= newPosition && Due(r, oldPosition, m)
        ensures RatioFits(r, oldPosition, m)
      {
        MulMono(newPosition, m, r.input);
      }
    } else {
      assert Due(r, oldPosition, newPosition) && !RatioFits(r, oldPosition, newPosition);
    }
  }

  /** After one input frame nothing is due any more, so only the frames of the first one after a change can leave the filter. */
  lemma LaterRatiosFit(r: Rates, oldPosition: nat, newPosition: nat)
    requires !Due(r, oldPosition, newPosition)
    ensures AllRatiosFit(r, oldPosition + 1, newPosition)
  {
    RatiosFitIff(r, oldPosition + 1, newPosition);
  }

  /** Lowering the pitch in the middle of a phase leaves positions that do not count, and a ratio beyond the filter. */
  lemma PitchChangeBreaksPhase(epoch: nat)
    ensures var before, after := ScaledRates(8000, 2.0), ScaledRates(8000, 0.5);
      && Counts(before, epoch, 7999, 4000) && !Counts(after, epoch, 7999, 4000)
      && Due(after, 7999, 4000) && !RatioFits(after, 7999, 4000)
  {
    assert ScaledRates(8000, 2.0) == Rates(4000, 8000) && ScaledRates(8000, 0.5) == Rates(16000, 8000) by {
      assert 8000.0 / 2.0 == 4000.0 && 8000.0 / 0.5 == 16000.0;
    }
    CountsInAnyEpoch(Rates(4000, 8000), epoch, 7999, 4000);
    CountsInAnyEpoch(Rates(16000, 8000), epoch, 7999, 4000);
  }

  /** Rates that call for the same number of frames, but have a phase that ends before the input position. */
  lemma PositionBeyondThePhase(epoch: nat)
    ensures var before, after := Rates(16384, 16000), Rates(8192, 8000);
      && Counts(before, epoch, 9000, 9216) && OutputCount(after, 9000) == 9216 && !Counts(after, epoch, 9000, 9216)
  {
    CountsInAnyEpoch(Rates(16384, 16000), epoch, 9000, 9216);
    CountsInAnyEpoch(Rates(8192, 8000), epoch, 9000, 9216);
  }

  /** The resampler always keeps the last twelve frames of its input waiting. */
  function Ripe(n: nat): nat {
    if n > SINC_FILTER_POINTS then n - SINC_FILTER_POINTS else 0
  }

  /** A filter over what is waiting is the same filter over everything that was heard. */
  lemma SuffixFiltered(table: Table, heard: seq<Frame>, channels: nat, base: nat, at: nat, ratio: nat, width: nat)
    requires base <= |heard| && Framed(heard, channels) && Framed(heard[base..], channels)
    requires base + at + SINC_FILTER_POINTS <= |heard| && ratio < width
    ensures FilteredFrame(table, heard[base..], channels, at, ratio, width)
         == FilteredFrame(table, heard, channels, base + at, ratio, width)
  {
    var here := base + at;
    forall c: nat | c < channels
      ensures Taps(heard[base..], channels, at, c) == Taps(heard, channels, here, c)
    {
    }
  }

  /** Both products that the loop guard compares fit in 32 signed bits. */
  lemma PositionsFit(r: Rates, epoch: nat, oldPosition: nat, newPosition: nat, k: nat, m: nat)
    requires 0 < r.input <= MAX_RATE && r.output <= MAX_RATE
    requires oldPosition < r.input && InPhase(r, epoch, oldPosition, newPosition, k, m)
    requires OutputCount(r, k) <= m <= OutputCount(r, k + 1)
    ensures IsInt32((oldPosition + 1) * r.output) && IsInt32(newPosition * r.input)
  {
    PhaseDistance(r, epoch, oldPosition, newPosition, k, m);
    var reach := (oldPosition + 1) * r.output;
    MulMono(oldPosition + 1, r.input, r.output);
    MulMono(r.input, MAX_RATE, r.output);
    assert reach <= 0x1000_0000;
    LastDue(r, k, m);
    assert newPosition * r.input - reach == m * r.input - (k + 1) * r.output < r.input;
  }

  lemma LastDue(r: Rates, k: nat, m: nat)
    requires r.input > 0 && m <= OutputCount(r, k + 1)
    ensures m * r.input - (k + 1) * r.output < r.input
  {
    var d := OutputCount(r, k + 1);
    CeilDivBounds((k + 1) * r.output, r.input);
    MulMono(m, d, r.input);
    assert (d - 1) * r.input == d * r.input - r.input;
  }

  /** Frame m, made while frame k stands at a place in the buffer. */
  ghost predicate MadeFrame(table: Table, buffer: seq<Frame>, channels: nat, at: nat, r: Rates, k: nat, m: nat, f: Frame)
    requires at + SINC_FILTER_POINTS <= |buffer| && Framed(buffer, channels)
  {
    && MadeAt(r, m, k) && 0 <= Ratio(r, m, k) < r.output
    && f == FilteredFrame(table, buffer, channels, at, Ratio(r, m, k), r.output)
  }

  /** All frames from number m on that are made while frame k stands at a place in the buffer. */
  ghost predicate MadeFrames(table: Table, buffer: seq<Frame>, channels: nat, at: nat, r: Rates, k: nat, m: nat, out: seq<Frame>)
    requires at + SINC_FILTER_POINTS <= |buffer| && Framed(buffer, channels)
  {
    forall i :: 0 <= i < |out| ==> MadeFrame(table, buffer, channels, at, r, k, m + i, out[i])
  }

  lemma OneMoreMade(table: Table, buffer: seq<Frame>, channels: nat, at: nat, r: Rates, k: nat, m: nat, out: seq<Frame>, f: Frame)
    requires at + SINC_FILTER_POINTS <= |buffer| && Framed(buffer, channels)
    requires MadeFrames(table, buffer, channels, at, r, k, m, out)
    requires MadeFrame(table, buffer, channels, at, r, k, m + |out|, f)
    ensures MadeFrames(table, buffer, channels, at, r, k, m, out + [f])
  {
  }

  /** `out` are the output frames from number m on. */
  ghost predicate AreOutputs(table: Table, heard: seq<Frame>, channels: nat, start: nat, r: Rates, m: nat, out: seq<Frame>)
    requires Framed(heard, channels)
  {
    forall i :: 0 <= i < |out| ==> IsOutput(table, heard, channels, start, r, m + i, out[i])
  }

  lemma OutputsAreStable(table: Table, heard: seq<Frame>, more: seq<Frame>, channels: nat, start: nat, r: Rates, m: nat, out: seq<Frame>)
    requires Framed(heard, channels) && Framed(heard + more, channels)
    requires AreOutputs(table, heard, channels, start, r, m, out)
    ensures AreOutputs(table, heard + more, channels, start, r, m, out)
  {
    forall i | 0 <= i < |out|
      ensures IsOutput(table, heard + more, channels, start, r, m + i, out[i])
    {
      OutputIsStable(table, heard, more, channels, start, r, m + i, out[i]);
    }
  }

  lemma OutputsJoin(table: Table, heard: seq<Frame>, channels: nat, start: nat, r: Rates, m: nat, a: seq<Frame>, b: seq<Frame>)
    requires Framed(heard, channels)
    requires AreOutputs(table, heard, channels, start, r, m, a) && AreOutputs(table, heard, channels, start, r, m + |a|, b)
    ensures AreOutputs(table, heard, channels, start, r, m, a + b)
  {
  }

  /** What is made from the waiting frames is the output for everything that was heard. */
  lemma MadeFramesAreOutputs(table: Table, heard: seq<Frame>, channels: nat, start: nat, base: nat, at: nat, r: Rates, m: nat, out: seq<Frame>)
    requires base + at + SINC_FILTER_POINTS <= |heard| && Framed(heard, channels) && Framed(heard[base..], channels)
    requires MadeFrames(table, heard[base..], channels, at, r, start + base + at, m, out)
    ensures AreOutputs(table, heard, channels, start, r, m, out)
  {
    var k := start + base + at;
    forall i | 0 <= i < |out|
      ensures IsOutput(table, heard, channels, start, r, m + i, out[i])
    {
      assert MadeFrame(table, heard[base..], channels, at, r, k, m + i, out[i]);
      SuffixFiltered(table, heard, channels, base, at, Ratio(r, m + i, k), r.output);
      assert IsOutputAt(table, heard, channels, start, r, m + i, out[i], k);
    }
  }

  /** The whole output is determined by the whole input, so it does not matter how the input was split into calls. */
  lemma OutputIsDetermined(table: Table, heard: seq<Frame>, channels: nat, start: nat, r: Rates, m: nat, a: seq<Frame>, b: seq<Frame>)
    requires Framed(heard, channels) && |a| == |b|
    requires AreOutputs(table, heard, channels, start, r, m, a) && AreOutputs(table, heard, channels, start, r, m, b)
    ensures a == b
  {
    forall i | 0 <= i < |a|
      ensures a[i] == b[i]
    {
      OutputIsUnique(table, heard, channels, start, r, m + i, a[i], b[i]);
    }
  }

  lemma OutputsAreFramed(table: Table, heard: seq<Frame>, channels: nat, start: nat, r: Rates, m: nat, out: seq<Frame>)
    requires Framed(heard, channels) && AreOutputs(table, heard, channels, start, r, m, out)
    ensures Framed(out, channels)
  {
  }

  lemma RipeAfterMore(n: nat, more: nat)
    ensures Ripe(n + more) == Ripe(n) + Ripe(n - Ripe(n) + more)
  {
  }

  /** The part of the stream that belongs to the resampler. */
  class RateConverter {
    const sampleRate: nat
    const channels: nat
    const table: Table
    var oldRatePosition: nat
    var newRatePosition: nat
    var pitchBuffer: seq<Frame>

    // What has happened since the positions were last set to zero: the rates in force, the number of
    // whole phases, the input and output positions, and where the recorded input and output begin.
    ghost var rates: Rates
    ghost var epoch: nat
    ghost var consumed: nat
    ghost var inputStart: nat
    ghost var outputStart: nat
    ghost var heard: seq<Frame>
    ghost var emitted: seq<Frame>

    /** The last frames of the input are waiting. */
    ghost predicate Waiting()
      reads this
    {
      && Framed(heard, channels) && Framed(pitchBuffer, channels)
      && consumed == inputStart + Ripe(|heard|)
      && pitchBuffer == heard[Ripe(|heard|)..]
    }

    /** The positions count, and the output so far has the right length. */
    ghost predicate Counting()
      reads this
    {
      && rates.input > 0 && oldRatePosition < rates.input
      && InPhase(rates, epoch, oldRatePosition, newRatePosition, consumed, outputStart + |emitted|)
      && outputStart + |emitted| == OutputCount(rates, consumed)
    }

    ghost predicate Valid()
      reads this
    {
      && sampleRate > 0 && Waiting()
      && if consumed == 0 then
           oldRatePosition == newRatePosition == epoch == outputStart == 0 && emitted == []
         else
           Counting() && Correct(rates)
    }

    /** Every frame that was emitted is the right one. */
    ghost predicate Correct(r: Rates)
      reads this
    {
      Framed(heard, channels) && AreOutputs(table, heard, channels, inputStart, r, outputStart, emitted)
    }

    /** The stage may run at a rate if its positions count at that rate, or do not count anything yet. */
    ghost predicate Ready(rate: real)
      reads this
    {
      && rate > 0.0
      && ScaledRates(sampleRate, rate).input > 0
      && (consumed > 0 ==> rates == ScaledRates(sampleRate, rate))
    }

    constructor (sampleRate: nat, channels: nat, table: Table)
      requires sampleRate > 0
      ensures Valid() && consumed == 0 && pitchBuffer == []
      ensures this.sampleRate == sampleRate && this.channels == channels && this.table == table
    {
      this.sampleRate, this.channels, this.table := sampleRate, channels, table;
      oldRatePosition, newRatePosition, pitchBuffer := 0, 0, [];
      rates, epoch, consumed, inputStart, outputStart, heard, emitted := Rates(0, 0), 0, 0, 0, 0, [], [];
    }

    /** Setting the rate of the stream starts a new phase, but keeps the input that is waiting. */
    method ResetPhase()
      requires Valid()
      modifies this
      ensures Valid() && consumed == 0 && pitchBuffer == old(pitchBuffer)
    {
      assert |pitchBuffer| <= SINC_FILTER_POINTS && pitchBuffer[0..] == pitchBuffer;
      oldRatePosition, newRatePosition := 0, 0;
      epoch, consumed, inputStart, outputStart, heard, emitted := 0, 0, 0, 0, pitchBuffer, [];
    }

    /** Flushing the stream drops the input that is waiting, but keeps the phase. */
    method Clear()
      requires Valid()
      modifies this
      ensures Valid() && pitchBuffer == []
      ensures consumed == old(consumed) && rates == old(rates)
    {
      pitchBuffer := [];
      inputStart, outputStart, heard, emitted := consumed, outputStart + |emitted|, [], [];
    }
  
    method MakeFrame(position: nat, ratio: nat, width: nat) returns (f: Frame)
      requires position + SINC_FILTER_POINTS <= |pitchBuffer| && Framed(pitchBuffer, channels) && ratio < width
      ensures f == FilteredFrame(table, pitchBuffer, channels, position, ratio, width)
    {
      f := [];
      for c := 0 to channels
        invariant |f| == c
        invariant forall d :: 0 <= d < c ==> f[d] == Filtered(table, Taps(pitchBuffer, channels, position, d), ratio, width)
      {
        var v := Interpolate(table, Taps(pitchBuffer, channels, position, c), ratio, width);
        f := f + [v];
      }
    }

    /** The inner loop: all output frames that are due while the input stands at one position. */
    method EmitWhileDue(r: Rates, position: nat, ghost e: nat, ghost k: nat, ghost m: nat) returns (out: seq<Frame>)
      requires 0 < r.input <= MAX_RATE && r.output <= MAX_RATE
      requires position + SINC_FILTER_POINTS <= |pitchBuffer| && Framed(pitchBuffer, channels)
      requires oldRatePosition < r.input && InPhase(r, e, oldRatePosition, newRatePosition, k, m)
      requires m == OutputCount(r, k)
      modifies this`newRatePosition
      ensures InPhase(r, e, oldRatePosition, newRatePosition, k, m + |out|)
      ensures m + |out| == OutputCount(r, k + 1)
      ensures MadeFrames(table, pitchBuffer, channels, position, r, k, m, out)
    {
      out := [];
      CountGrows(r, k);
      PositionsFit(r, e, oldRatePosition, newRatePosition, k, m);
      GuardMeansDue(r, e, oldRatePosition, newRatePosition, k, m);
      while Due(r, oldRatePosition, newRatePosition)
        invariant InPhase(r, e, oldRatePosition, newRatePosition, k, m + |out|)
        invariant OutputCount(r, k) <= m + |out| <= OutputCount(r, k + 1)
        invariant IsInt32((oldRatePosition + 1) * r.output) && IsInt32(newRatePosition * r.input)
        invariant MadeFrames(table, pitchBuffer, channels, position, r, k, m, out)
        decreases OutputCount(r, k + 1) - (m + |out|)
      {
        GuardMeansDue(r, e, oldRatePosition, newRatePosition, k, m + |out|);
        var f := MakeFrame(position, (oldRatePosition + 1) * r.output - newRatePosition * r.input - 1, r.output);
        OneMoreMade(table, pitchBuffer, channels, position, r, k, m, out, f);
        out := out + [f];
        newRatePosition := newRatePosition + 1;
        PositionsFit(r, e, oldRatePosition, newRatePosition, k, m + |out|);
      }
      GuardMeansDue(r, e, oldRatePosition, newRatePosition, k, m + |out|);
    }
  
    /** One turn of the outer loop: emit what is due, then step to the next input frame. */
    method AdvancePast(r: Rates, position: nat, ghost k: nat, ghost m: nat) returns (out: seq<Frame>)
      requires 0 < r.input <= MAX_RATE && r.output <= MAX_RATE
      requires position + SINC_FILTER_POINTS <= |pitchBuffer| && Framed(pitchBuffer, channels)
      requires oldRatePosition < r.input && InPhase(r, epoch, oldRatePosition, newRatePosition, k, m)
      requires m == OutputCount(r, k)
      modifies this`oldRatePosition, this`newRatePosition, this`epoch
      ensures oldRatePosition < r.input && InPhase(r, epoch, oldRatePosition, newRatePosition, k + 1, m + |out|)
      ensures m + |out| == OutputCount(r, k + 1)
      ensures MadeFrames(table, pitchBuffer, channels, position, r, k, m, out)
    {
      out := EmitWhileDue(r, position, epoch, k, m);
      oldRatePosition := oldRatePosition + 1;
      assert InPhase(r, epoch, oldRatePosition, newRatePosition, k + 1, m + |out|);
      if oldRatePosition == r.input {
        PhaseReset(r, epoch, newRatePosition, k + 1, m + |out|);
        oldRatePosition, newRatePosition, epoch := 0, 0, epoch + 1;
      }
    }

    /** The outer loop: every frame but the last twelve is passed. */
    method EmitAll(r: Rates, ghost base: nat, ghost k: nat, ghost m: nat) returns (out: seq<Frame>, position: nat)
      requires 0 < r.input <= MAX_RATE && r.output <= MAX_RATE
      requires Framed(heard, channels) && base <= |heard| && pitchBuffer == heard[base..] && k == inputStart + base
      requires oldRatePosition < r.input && InPhase(r, epoch, oldRatePosition, newRatePosition, k, m)
      requires m == OutputCount(r, k)
      modifies this`oldRatePosition, this`newRatePosition, this`epoch
      ensures position == Ripe(|pitchBuffer|)
      ensures oldRatePosition < r.input && InPhase(r, epoch, oldRatePosition, newRatePosition, k + position, m + |out|)
      ensures m + |out| == OutputCount(r, k + position)
      ensures AreOutputs(table, heard, channels, inputStart, r, m, out)
      ensures position == 0 ==> out == [] && unchanged(this)
    {
      out, position := [], 0;
      assert Framed(pitchBuffer, channels);
      while position < |pitchBuffer| - SINC_FILTER_POINTS
        invariant position <= Ripe(|pitchBuffer|)
        invariant oldRatePosition < r.input && InPhase(r, epoch, oldRatePosition, newRatePosition, k + position, m + |out|)
        invariant m + |out| == OutputCount(r, k + position)
        invariant AreOutputs(table, heard, channels, inputStart, r, m, out)
        invariant position == 0 ==> out == [] && unchanged(this)
      {
        var piece := AdvancePast(r, position, k + position, m + |out|);
        MadeFramesAreOutputs(table, heard, channels, inputStart, base, position, r, m + |out|, piece);
        OutputsJoin(table, heard, channels, inputStart, r, m, out, piece);
        out := out + piece;
        position := position + 1;
      }
    }

    /** New frames join the ones that are waiting; what was emitted before stays right. */
    method Absorb(r: Rates, arrived: seq<Frame>)
      requires Valid() && Framed(arrived, channels) && r.input > 0 && (consumed > 0 ==> rates == r)
      modifies this`pitchBuffer, this`heard, this`rates
      ensures rates == r && heard == old(heard) + arrived && Framed(heard, channels)
      ensures consumed == inputStart + old(Ripe(|heard|)) && pitchBuffer == heard[old(Ripe(|heard|))..]
      ensures Counting() && Correct(r)
    {
      ghost var base := Ripe(|heard|);
      OutputsAreStable(table, heard, arrived, channels, inputStart, rates, outputStart, emitted);
      NothingMakesNothing(r);
      pitchBuffer := pitchBuffer + arrived;
      heard := heard + arrived;
      rates := r;
      assert pitchBuffer == heard[base..];
    }

    /** New frames go through the resampler. How many come out, and which, depends only on all the frames that went in. */
    method AdjustRate(rate: real, arrived: seq<Frame>) returns (out: seq<Frame>)
      requires Valid() && Ready(rate) && Framed(arrived, channels)
      modifies this
      ensures Valid() && Ready(rate)
      ensures heard == old(heard) + arrived && inputStart == old(inputStart) && outputStart == old(outputStart)
      ensures emitted == old(emitted) + out && Framed(out, channels)
    {
      out := [];
      if arrived == [] {
        assert heard + arrived == heard;
        return;
      }
      var r := ScaledRates(sampleRate, rate);
      RipeAfterMore(|heard|, |arrived|);
      ghost var base := Ripe(|heard|);
      Absorb(r, arrived);
      var position;
      out, position := EmitAll(r, base, consumed, outputStart + |emitted|);
      OutputsAreFramed(table, heard, channels, inputStart, r, outputStart + |emitted|, out);
      Settle(r, base, out, position);
    }

    /** The frames that were passed leave the buffer, and the record catches up. */
    method Settle(r: Rates, ghost base: nat, out: seq<Frame>, position: nat)
      requires sampleRate > 0 && rates == r && r.input > 0
      requires Framed(heard, channels) && base <= |heard| && pitchBuffer == heard[base..] && consumed == inputStart + base
      requires position == Ripe(|pitchBuffer|) && base + position == Ripe(|heard|)
      requires oldRatePosition < r.input
      requires InPhase(r, epoch, oldRatePosition, newRatePosition, consumed + position, outputStart + |emitted + out|)
      requires outputStart + |emitted + out| == OutputCount(r, consumed + position)
      requires Correct(r) && AreOutputs(table, heard, channels, inputStart, r, outputStart + |emitted|, out)
      requires consumed + position == 0 ==>
        oldRatePosition == newRatePosition == epoch == outputStart == 0 && emitted + out == []
      modifies this`emitted, this`consumed, this`pitchBuffer
      ensures Valid() && consumed == old(consumed) + position && emitted == old(emitted) + out
    {
      OutputsJoin(table, heard, channels, inputStart, r, outputStart, emitted, out);
      emitted := emitted + out;
      consumed := consumed + position;
      pitchBuffer := pitchBuffer[position..];
      assert pitchBuffer == heard[base + position..];
    }
  }

  /** Two converters that heard the same since their positions were set to zero have made the same, and keep the same waiting. */
  lemma SplitsAgree(a: RateConverter, b: RateConverter)
    requires a.Valid() && b.Valid() && a.table == b.table && a.channels == b.channels
    requires a.inputStart == b.inputStart && a.outputStart == b.outputStart && a.heard == b.heard
    requires a.consumed > 0 ==> a.rates == b.rates
    ensures a.emitted == b.emitted && a.pitchBuffer == b.pitchBuffer
  {
    if a.consumed > 0 {
      OutputIsDetermined(a.table, a.heard, a.channels, a.inputStart, a.rates, a.outputStart, a.emitted, b.emitted);
    }
  }

  /** The ratio is how far an output frame still lies before the next input frame, one less, in steps of 1 / output rate. */
  lemma RatioMeasuresTime(r: Rates, m: nat, j: nat)
    ensures Ratio(r, m + 1, j) == Ratio(r, m, j) - r.input && Ratio(r, m, j + 1) == Ratio(r, m, j) + r.output
    ensures Ratio(r, m, j) == 0 <==> m * r.input + 1 == (j + 1) * r.output
  {
    assert (m + 1) * r.input == m * r.input + r.input && (j + 1 + 1) * r.output == (j + 1) * r.output + r.output;
  }

  /** A steady sound keeps its level through the resampler, in every channel and at every rate. */
  lemma SteadySoundIsKept(heard: seq<Frame>, level: Frame, channels: nat, start: nat, r: Rates, m: nat, f: Frame)
    requires Framed(heard, channels) && IsOutput(LibsonicTable(), heard, channels, start, r, m, f)
    requires |level| == channels && forall i :: 0 <= i < |heard| ==> heard[i] == level
    ensures |f| == channels && forall c :: 0 <= c < channels ==> Distance(f[c], level[c]) <= 37
  {
    var j: nat :| IsOutputAt(LibsonicTable(), heard, channels, start, r, m, f, j);
    forall c | 0 <= c < channels
      ensures Distance(f[c], level[c]) <= 37
    {
      SteadySoundStays(Taps(heard, channels, j - start, c), level[c], Ratio(r, m, j), r.output);
    }
  }

  /** Both rates are halved equally often, and no more often than one of them needs. */
  lemma {:induction false} HalvedTogether(r: Rates) returns (k: nat)
    ensures Halved(r) == Rates(HalvedTimes(r.output, k), HalvedTimes(r.input, k))
    ensures k > 0 ==> HalvedTimes(r.output, k - 1) > MAX_RATE || HalvedTimes(r.input, k - 1) > MAX_RATE
    decreases r.output + r.input
  {
    k := 0;
    if r.output > MAX_RATE || r.input > MAX_RATE {
      k := HalvedTogether(Rates(r.output / 2, r.input / 2));
      k := k + 1;
    }
  }

  /** Halving k times is dividing by two to the power of k, rounded down. */
  lemma {:induction false} HalvedTimesIs(n: nat, k: nat, power: nat)
    requires power == Power(k)
    ensures HalvedTimes(n, k) * power <= n < HalvedTimes(n, k) * power + power
    decreases k
  {
    if k > 0 {
      HalvedTimesIs(n / 2, k - 1, power / 2);
      assert HalvedTimes(n, k) * power == 2 * (HalvedTimes(n / 2, k - 1) * (power / 2));
    }
  }

  function Power(k: nat): (p: nat)
    ensures p >= 1
  {
    if k == 0 then 1 else 2 * Power(k - 1)
  }

  /** Without halving the output rate is the sample rate over the rate, rounded down: a higher rate makes fewer frames. */
  lemma RatesOf(sampleRate: nat, rate: real)
    requires rate > 0.0 && sampleRate <= MAX_RATE && sampleRate as real < (MAX_RATE + 1) as real * rate
    ensures var r := ScaledRates(sampleRate, rate);
      r.input == sampleRate && r.output as real <= sampleRate as real / rate < r.output as real + 1.0
  {
    var q := sampleRate as real / rate;
    DivMul(sampleRate as real, rate);
    DivAtLeast(sampleRate as real, rate, 0.0);
    FactorBelow(q, (MAX_RATE + 1) as real, rate);
  }

  /** An output frame that falls on an input frame is that frame, in every channel, up to one. */
  lemma FrameOnFrameIsKept(heard: seq<Frame>, channels: nat, start: nat, r: Rates, m: nat, f: Frame, j: nat)
    requires Framed(heard, channels) && IsOutputAt(LibsonicTable(), heard, channels, start, r, m, f, j)
    requires m * r.input + 1 == (j + 1) * r.output
    ensures |f| == channels && forall c :: 0 <= c < channels ==> Distance(f[c], heard[j - start + 6][c]) <= 1
  {
    RatioMeasuresTime(r, m, j);
    forall c | 0 <= c < channels
      ensures Distance(f[c], heard[j - start + 6][c]) <= 1
    {
      SampleStays(Taps(heard, channels, j - start, c), r.output);
    }
  }
}
