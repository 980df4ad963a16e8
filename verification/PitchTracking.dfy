/** The two-pass pitch search on a window of input, with the memory of the previous answer. */
module PitchTracking {
  import opened CArith
  import opened Frames
  import opened PitchSearch

  function Max(a: int, b: int): int { if a < b then b else a }
  function Min(a: int, b: int): int { if a < b then a else b }

  /** The sum of the first n channels of a frame. */
  function FrameSum(f: Frame, n: nat): (v: int)
    requires n <= |f|
    ensures SHRT_MIN * n <= v <= SHRT_MAX * n
  {
    if n == 0 then 0 else FrameSum(f, n - 1) + f[n - 1]
  }

  /** The sum of all values in the first n frames. */
  function BlockSum(block: seq<Frame>, channels: nat, n: nat): (v: int)
    requires n <= |block| && Framed(block, channels)
    ensures SHRT_MIN * (n * channels) <= v <= SHRT_MAX * (n * channels)
  {
    if n == 0 then 0 else
      assert n * channels == (n - 1) * channels + channels;
      BlockSum(block, channels, n - 1) + FrameSum(block[n - 1], channels)
  }

  function Average(block: seq<Frame>, channels: nat): Short
    requires |block| > 0 && channels > 0 && Framed(block, channels)
  {
    var n := |block| * channels;
    TruncDivBounds(BlockSum(block, channels, |block|), n, SHRT_MIN, SHRT_MAX);
    TruncDiv(BlockSum(block, channels, |block|), n)
  }

  /** The i-th group of `skip` frames. */
  function Block(window: seq<Frame>, skip: nat, i: nat): (block: seq<Frame>)
    requires skip > 0 && i < |window| / skip
    ensures |block| == skip
  {
    MulMono(i + 1, |window| / skip, skip);
    window[i * skip..i * skip + skip]
  }

  lemma BlockFramed(window: seq<Frame>, channels: nat, skip: nat, i: nat)
    requires skip > 0 && i < |window| / skip && Framed(window, channels)
    ensures Framed(Block(window, skip, i), channels)
  {
    MulMono(i + 1, |window| / skip, skip);
    forall j | 0 <= j < skip
      ensures |Block(window, skip, i)[j]| == channels
    {
      assert Block(window, skip, i)[j] == window[i * skip + j];
    }
  }

  /** Every value stands for `skip` frames with all their channels mixed together. */
  ghost predicate DownSampled(window: seq<Frame>, channels: nat, skip: nat, down: seq<Short>)
    requires skip > 0 && channels > 0
  {
    && |down| == |window| / skip
    && forall i :: 0 <= i < |down| ==>
         Framed(Block(window, skip, i), channels) && down[i] == Average(Block(window, skip, i), channels)
  }

  method AverageBlock(block: seq<Frame>, channels: nat) returns (average: Short)
    requires |block| > 0 && channels > 0 && Framed(block, channels)
    ensures average == Average(block, channels)
  {
    var value: int := 0;
    for j := 0 to |block|
      invariant value == BlockSum(block, channels, j)
    {
      for c := 0 to channels
        invariant value == BlockSum(block, channels, j) + FrameSum(block[j], c)
      {
        value := value + block[j][c];
      }
    }
    TruncDivBounds(value, |block| * channels, SHRT_MIN, SHRT_MAX);
    average := TruncDiv(value, |block| * channels);
  }

  method DownSampleInput(window: seq<Frame>, channels: nat, skip: nat) returns (down: seq<Short>)
    requires skip > 0 && channels > 0 && Framed(window, channels)
    ensures DownSampled(window, channels, skip, down)
  {
    down := [];
    for i := 0 to |window| / skip
      invariant |down| == i
      invariant forall k :: 0 <= k < i ==>
        Framed(Block(window, skip, k), channels) && down[k] == Average(Block(window, skip, k), channels)
    {
      BlockFramed(window, channels, skip, i);
      var average := AverageBlock(Block(window, skip, i), channels);
      down := down + [average];
    }
  }

  function FirstChannel(window: seq<Frame>, channels: nat): (s: seq<Short>)
    requires channels > 0 && Framed(window, channels)
    ensures |s| == |window|
  {
    seq(|window|, i requires 0 <= i < |window| => window[i][0])
  }

  /** The samples a full-resolution search looks at: the only channel, or the mix of all. */
  ghost predicate FullResolution(window: seq<Frame>, channels: nat, s: seq<Short>)
    requires channels > 0 && Framed(window, channels)
  {
    if channels == 1 then s == FirstChannel(window, channels) else DownSampled(window, channels, 1, s)
  }

  /** The refined range: four skips to either side of the coarse answer. */
  function RefinedLow(minPeriod: nat, skip: nat, coarse: nat): int { Max(coarse * skip - 4 * skip, minPeriod) }
  function RefinedHigh(maxPeriod: nat, skip: nat, coarse: nat): int { Min(coarse * skip + 4 * skip, maxPeriod) }

  lemma RefinedRange(minPeriod: nat, maxPeriod: nat, skip: nat, coarse: nat)
    requires skip > 0 && 1 <= minPeriod <= maxPeriod && minPeriod / skip <= coarse <= maxPeriod / skip
    ensures minPeriod <= RefinedLow(minPeriod, skip, coarse) <= RefinedHigh(maxPeriod, skip, coarse) <= maxPeriod
  {
    MulMono(coarse, maxPeriod / skip, skip);
    MulMono(minPeriod / skip, coarse, skip);
  }

  lemma CoarseFits(maxPeriod: nat, skip: nat)
    requires skip > 0
    ensures 2 * (maxPeriod / skip) <= 2 * maxPeriod / skip
  {
    var q := maxPeriod / skip;
    MulMono(q * skip, maxPeriod, 2);
    if 2 * maxPeriod / skip < 2 * q {
      MulMono(2 * maxPeriod / skip + 1, 2 * q, skip);
      assert false;
    }
  }

  /** How far to skip when down-sampling to about 4 kHz. */
  function Skip(sampleRate: nat, quality: int): (skip: nat)
    ensures skip >= 1
  {
    if sampleRate > AMDF_FREQ && quality == 0 then sampleRate / AMDF_FREQ else 1
  }

  /** Down-sampling is only done where it leaves a range of at least ten periods from the top and one from the bottom. */
  lemma CoarseRange(sampleRate: nat, skip: nat)
    requires sampleRate >= MIN_PITCH && skip > 1 && skip == sampleRate / AMDF_FREQ
    ensures 10 <= sampleRate / MAX_PITCH / skip <= sampleRate / MIN_PITCH / skip
  {
    var lo, hi := sampleRate / MAX_PITCH, sampleRate / MIN_PITCH;
    var a, b := lo / skip, hi / skip;
    assert lo >= 10 * skip && hi >= lo;
    assert a * skip <= lo < (a + 1) * skip && b * skip <= hi < (b + 1) * skip;
    if a < 10 {
      MulMono(a + 1, 10, skip);
    } else if b < a {
      MulMono(b + 1, a, skip);
    }
  }

  /** At quality 0 the coarse search tries no period longer than 123, whatever the sample rate. */
  lemma CoarsePeriodsAreShort(sampleRate: nat)
    ensures sampleRate / MIN_PITCH / Skip(sampleRate, 0) <= 123
  {
    var skip, maxPeriod := Skip(sampleRate, 0), sampleRate / MIN_PITCH;
    assert maxPeriod < 124 * skip;
    IntDivAtMost(maxPeriod, skip, 123);
  }

  /** So every product of the coarse search fits in 32 unsigned bits. */
  lemma CoarseProductsFit(s: seq<Short>, sampleRate: nat, p: nat, q: nat)
    requires p <= sampleRate / MIN_PITCH / Skip(sampleRate, 0) && q <= 255 && 2 * p <= |s|
    ensures Diff(s, p) * q < 0x1_0000_0000
  {
    CoarsePeriodsAreShort(sampleRate);
    PartialDiffBound(s, p, p);
    MulMono(Diff(s, p), 65535 * 123, q);
    assert 65535 * 123 * 255 < 0x1_0000_0000;
    MulMono(q, 255, 65535 * 123);
  }

  /** The outcome of a full-resolution pass over the periods lo to hi. */
  ghost predicate FoundIn(window: seq<Frame>, channels: nat, lo: int, hi: int, period: nat, minDiff: nat, maxDiff: nat)
    requires channels > 0 && Framed(window, channels)
  {
    exists s :: FullResolution(window, channels, s) && |s| == |window| && 2 * hi <= |s|
      && Found(s, lo, hi, period, minDiff, maxDiff)
  }

  /** The outcome of both passes over a window. */
  ghost predicate Searched(window: seq<Frame>, channels: nat, skip: nat, minPeriod: nat, maxPeriod: nat,
                           period: nat, minDiff: nat, maxDiff: nat)
    requires skip > 0 && channels > 0 && Framed(window, channels)
  {
    if skip == 1 then
      FoundIn(window, channels, minPeriod, maxPeriod, period, minDiff, maxDiff)
    else
      exists coarse, low, high :: CoarseAnswer(window, channels, skip, minPeriod, maxPeriod, coarse, low, high)
        && FoundIn(window, channels, RefinedLow(minPeriod, skip, coarse), RefinedHigh(maxPeriod, skip, coarse), period, minDiff, maxDiff)
  }

  ghost predicate CoarseAnswer(window: seq<Frame>, channels: nat, skip: nat, minPeriod: nat, maxPeriod: nat,
                               coarse: nat, low: nat, high: nat)
    requires skip > 0 && channels > 0 && Framed(window, channels)
  {
    exists s :: DownSampled(window, channels, skip, s) && 2 * (maxPeriod / skip) <= |s|
      && Found(s, minPeriod / skip, maxPeriod / skip, coarse, low, high)
  }

  /** At abrupt ends of voiced words the previous period is the better estimate. */
  predicate PrevPeriodBetter(prevPeriod: nat, prevMinDiff: nat, minDiff: nat, maxDiff: nat, preferNewPeriod: bool) {
    && minDiff != 0 && prevPeriod != 0
    && if preferNewPeriod then
         !(maxDiff > minDiff * 3) && !(minDiff * 2 <= prevMinDiff * 3)
       else
         !(minDiff <= prevMinDiff)
  }

  // ---- the answer as a function of the window and the memory ----

  /** What the search remembers: the period it found last, and its mean difference. */
  datatype Memory = Memory(period: nat, minDiff: nat)

  /** What the search works with. */
  datatype Voice = Voice(sampleRate: nat, channels: nat, quality: int)

  ghost predicate AnsweredWith(voice: Voice, window: seq<Frame>, preferNewPeriod: bool, before: Memory, after: Memory,
                               answer: nat, maxDiff: nat)
    requires voice.channels >= 1 && Framed(window, voice.channels)
  {
    && Searched(window, voice.channels, Skip(voice.sampleRate, voice.quality), voice.sampleRate / MAX_PITCH,
                voice.sampleRate / MIN_PITCH, after.period, after.minDiff, maxDiff)
    && answer == if PrevPeriodBetter(before.period, before.minDiff, after.minDiff, maxDiff, preferNewPeriod)
                 then before.period else after.period
  }

  predicate AskedWhy(answer: nat) { true }

  /**
   * The search remembers what it found, and answers with it or with what it had found before. It is kept behind
   * a trigger, so that the passes only show up where they are asked about.
   */
  ghost predicate Answered(voice: Voice, window: seq<Frame>, before: Memory, after: Memory, answer: nat)
    requires voice.channels >= 1 && Framed(window, voice.channels)
  {
    forall a: nat {:trigger AskedWhy(a)} :: AskedWhy(a) && a == answer ==>
      exists maxDiff: nat :: AnsweredWith(voice, window, true, before, after, a, maxDiff)
  }

  lemma AnswerStands(voice: Voice, window: seq<Frame>, before: Memory, after: Memory, answer: nat, maxDiff: nat)
    requires voice.channels >= 1 && Framed(window, voice.channels)
    requires AnsweredWith(voice, window, true, before, after, answer, maxDiff)
    ensures Answered(voice, window, before, after, answer)
  {
  }

  lemma DownSampledIsUnique(window: seq<Frame>, channels: nat, skip: nat, s: seq<Short>, t: seq<Short>)
    requires skip > 0 && channels > 0
    requires DownSampled(window, channels, skip, s) && DownSampled(window, channels, skip, t)
    ensures s == t
  {
  }

  lemma FoundInIsUnique(window: seq<Frame>, channels: nat, lo: int, hi: int, p: nat, minP: nat, maxP: nat, q: nat, minQ: nat, maxQ: nat)
    requires channels > 0 && Framed(window, channels)
    requires FoundIn(window, channels, lo, hi, p, minP, maxP) && FoundIn(window, channels, lo, hi, q, minQ, maxQ)
    ensures p == q && minP == minQ && maxP == maxQ
  {
    var s :| FullResolution(window, channels, s) && |s| == |window| && 2 * hi <= |s| && Found(s, lo, hi, p, minP, maxP);
    var t :| FullResolution(window, channels, t) && |t| == |window| && 2 * hi <= |t| && Found(t, lo, hi, q, minQ, maxQ);
    if channels != 1 {
      DownSampledIsUnique(window, channels, 1, s, t);
    }
    FoundIsUnique(s, lo, hi, p, minP, maxP, q, minQ, maxQ);
  }

  lemma CoarseIsUnique(window: seq<Frame>, channels: nat, skip: nat, minPeriod: nat, maxPeriod: nat,
                       p: nat, minP: nat, maxP: nat, q: nat, minQ: nat, maxQ: nat)
    requires skip > 0 && channels > 0 && Framed(window, channels)
    requires CoarseAnswer(window, channels, skip, minPeriod, maxPeriod, p, minP, maxP)
    requires CoarseAnswer(window, channels, skip, minPeriod, maxPeriod, q, minQ, maxQ)
    ensures p == q
  {
    var s :| DownSampled(window, channels, skip, s) && 2 * (maxPeriod / skip) <= |s|
      && Found(s, minPeriod / skip, maxPeriod / skip, p, minP, maxP);
    var t :| DownSampled(window, channels, skip, t) && 2 * (maxPeriod / skip) <= |t|
      && Found(t, minPeriod / skip, maxPeriod / skip, q, minQ, maxQ);
    DownSampledIsUnique(window, channels, skip, s, t);
    FoundIsUnique(s, minPeriod / skip, maxPeriod / skip, p, minP, maxP, q, minQ, maxQ);
  }

  lemma SearchedIsUnique(window: seq<Frame>, channels: nat, skip: nat, minPeriod: nat, maxPeriod: nat,
                         p: nat, minP: nat, maxP: nat, q: nat, minQ: nat, maxQ: nat)
    requires skip > 0 && channels > 0 && Framed(window, channels)
    requires Searched(window, channels, skip, minPeriod, maxPeriod, p, minP, maxP)
    requires Searched(window, channels, skip, minPeriod, maxPeriod, q, minQ, maxQ)
    ensures p == q && minP == minQ && maxP == maxQ
  {
    if skip == 1 {
      FoundInIsUnique(window, channels, minPeriod, maxPeriod, p, minP, maxP, q, minQ, maxQ);
    } else {
      var a, lowA, highA :| CoarseAnswer(window, channels, skip, minPeriod, maxPeriod, a, lowA, highA)
        && FoundIn(window, channels, RefinedLow(minPeriod, skip, a), RefinedHigh(maxPeriod, skip, a), p, minP, maxP);
      var b, lowB, highB :| CoarseAnswer(window, channels, skip, minPeriod, maxPeriod, b, lowB, highB)
        && FoundIn(window, channels, RefinedLow(minPeriod, skip, b), RefinedHigh(maxPeriod, skip, b), q, minQ, maxQ);
      CoarseIsUnique(window, channels, skip, minPeriod, maxPeriod, a, lowA, highA, b, lowB, highB);
      FoundInIsUnique(window, channels, RefinedLow(minPeriod, skip, a), RefinedHigh(maxPeriod, skip, a), p, minP, maxP, q, minQ, maxQ);
    }
  }

  /** The window and the memory determine the answer and the new memory. */
  lemma AnswerIsUnique(voice: Voice, window: seq<Frame>, before: Memory, a: Memory, x: nat, b: Memory, y: nat)
    requires voice.channels >= 1 && Framed(window, voice.channels)
    requires Answered(voice, window, before, a, x) && Answered(voice, window, before, b, y)
    ensures a == b && x == y
  {
    assert AskedWhy(x) && AskedWhy(y);
    var maxA: nat :| AnsweredWith(voice, window, true, before, a, x, maxA);
    var maxB: nat :| AnsweredWith(voice, window, true, before, b, y, maxB);
    SearchedIsUnique(window, voice.channels, Skip(voice.sampleRate, voice.quality), voice.sampleRate / MAX_PITCH,
                     voice.sampleRate / MIN_PITCH, a.period, a.minDiff, maxA, b.period, b.minDiff, maxB);
  }

  // ---- what the parts of the search mean ----

  lemma {:induction false} FrameSumFollows(f: Frame, n: nat, c: nat, v: Short)
    requires c < n <= |f|
    ensures FrameSum(f[c := v], n) == FrameSum(f, n) - f[c] + v
  {
    if c < n - 1 {
      FrameSumFollows(f, n - 1, c, v);
    } else {
      FrameSumReads(f[c := v], f, n - 1);
    }
  }

  lemma {:induction false} FrameSumReads(f: Frame, g: Frame, n: nat)
    requires n <= |f| && n <= |g| && forall c :: 0 <= c < n ==> f[c] == g[c]
    ensures FrameSum(f, n) == FrameSum(g, n)
  {
    if n > 0 {
      FrameSumReads(f, g, n - 1);
    }
  }

  lemma {:induction false} BlockSumReads(a: seq<Frame>, b: seq<Frame>, channels: nat, n: nat)
    requires n <= |a| && n <= |b| && Framed(a, channels) && Framed(b, channels) && forall i :: 0 <= i < n ==> a[i] == b[i]
    ensures BlockSum(a, channels, n) == BlockSum(b, channels, n)
  {
    if n > 0 {
      BlockSumReads(a, b, channels, n - 1);
    }
  }

  lemma {:induction false} SumOfSilence(channels: nat, n: nat, size: nat)
    requires n <= size
    ensures BlockSum(seq(size, _ => Silence(channels)), channels, n) == 0
  {
    if n > 0 {
      SumOfSilence(channels, n - 1, size);
      SilentFrame(channels, channels);
    }
  }

  lemma {:induction false} SilentFrame(channels: nat, n: nat)
    requires n <= channels
    ensures FrameSum(Silence(channels), n) == 0
  {
    if n > 0 {
      SilentFrame(channels, n - 1);
    }
  }

  /** Every value of every channel counts in the sum of a block, as much as it is; see also SumOfSilence. */
  lemma {:induction false} BlockSumFollows(block: seq<Frame>, channels: nat, n: nat, i: nat, f: Frame, c: nat, v: Short)
    requires i < n <= |block| && c < channels && Framed(block, channels) && f == block[i][c := v]
    ensures Framed(block[i := f], channels)
    ensures BlockSum(block[i := f], channels, n) == BlockSum(block, channels, n) - block[i][c] + v
  {
    var changed := block[i := f];
    if i < n - 1 {
      BlockSumFollows(block, channels, n - 1, i, f, c, v);
    } else {
      BlockSumReads(changed, block, channels, n - 1);
      FrameSumFollows(block[i], channels, c, v);
    }
  }

  /** The average comes as near to the sum, divided by the number of values, as it can without going beyond it. */
  lemma AverageIsNearest(block: seq<Frame>, channels: nat)
    requires |block| > 0 && channels > 0 && Framed(block, channels)
    ensures var sum, n, v := BlockSum(block, channels, |block|), |block| * channels, Average(block, channels);
      if sum >= 0 then v * n <= sum < v * n + n else v * n - n < sum <= v * n
  {
    TruncDivIsNearest(BlockSum(block, channels, |block|), |block| * channels);
  }

  /** Blocks follow each other without a gap. */
  lemma BlockIsAPart(window: seq<Frame>, skip: nat, i: nat, j: nat)
    requires skip > 0 && i < |window| / skip && j < skip
    ensures i * skip + j < |window| && Block(window, skip, i)[j] == window[i * skip + j]
  {
    MulMono(i + 1, |window| / skip, skip);
  }

  /** Down-sampling keeps at least 4 kHz, and less than 4 kHz more than that if the rate was higher. */
  lemma SkipKeepsRate(sampleRate: nat, quality: int)
    ensures var skip := Skip(sampleRate, quality);
      && (quality != 0 || sampleRate < 2 * AMDF_FREQ ==> skip == 1)
      && (quality == 0 && sampleRate >= AMDF_FREQ ==> skip * AMDF_FREQ <= sampleRate < skip * AMDF_FREQ + AMDF_FREQ)
  {
  }

  /** The refined search tries exactly the periods of the range that are at most four skips away from the coarse answer. */
  lemma RefinedIff(minPeriod: nat, maxPeriod: nat, skip: nat, coarse: nat, q: int)
    ensures RefinedLow(minPeriod, skip, coarse) <= q <= RefinedHigh(maxPeriod, skip, coarse) <==>
      minPeriod <= q <= maxPeriod && Distance(q, coarse * skip) <= 4 * skip
  {
  }

  /** The search always remembers what it found. It answers so too, wherever it is sure or has nothing better to say. */
  lemma SureAnswer(voice: Voice, window: seq<Frame>, before: Memory, after: Memory, answer: nat, maxDiff: nat)
    requires voice.channels >= 1 && Framed(window, voice.channels)
    requires AnsweredWith(voice, window, true, before, after, answer, maxDiff)
    requires after.minDiff == 0 || before.period == 0 || maxDiff > 3 * after.minDiff || 2 * after.minDiff <= 3 * before.minDiff
    ensures answer == after.period
  {
  }

  /** Where the best match is neither exact nor clear, and more than half again as bad as the one before, that one is answered. */
  lemma DoubtfulAnswer(voice: Voice, window: seq<Frame>, before: Memory, after: Memory, answer: nat, maxDiff: nat)
    requires voice.channels >= 1 && Framed(window, voice.channels)
    requires AnsweredWith(voice, window, true, before, after, answer, maxDiff)
    requires after.minDiff > 0 && before.period > 0 && maxDiff <= 3 * after.minDiff && 2 * after.minDiff > 3 * before.minDiff
    ensures answer == before.period
  {
  }

  /** Without the preference for new periods, that happens wherever the match is worse than the one before. */
  lemma OldAnswer(voice: Voice, window: seq<Frame>, before: Memory, after: Memory, answer: nat, maxDiff: nat)
    requires voice.channels >= 1 && Framed(window, voice.channels)
    requires AnsweredWith(voice, window, false, before, after, answer, maxDiff)
    ensures answer == if before.period > 0 && after.minDiff > before.minDiff then before.period else after.period
  {
  }

  lemma RepeatsAsMono(window: seq<Frame>, s: seq<Short>, period: nat)
    requires Framed(window, 1) && 2 * period <= |window| && s == FirstChannel(window, 1)
    ensures Repeats(s, period) <==> RepeatsMono(window, period)
  {
    assert forall i :: 0 <= i < |s| ==> s[i] == window[i][0];
    if Repeats(s, period) {
      forall i | 0 <= i < period
        ensures window[i][0] == window[i + period][0]
      {
        assert s[i] == s[i + period];
      }
    }
    if RepeatsMono(window, period) {
      forall i | 0 <= i < period
        ensures s[i] == s[i + period]
      {
        assert window[i][0] == window[i + period][0];
      }
    }
  }

  lemma PeriodicSoundInRange(window: seq<Frame>, lo: nat, hi: nat, period: nat, found: nat, minDiff: nat, maxDiff: nat)
    requires Framed(window, 1) && |window| == 2 * hi && FoundIn(window, 1, lo, hi, found, minDiff, maxDiff)
    requires Tried(lo, hi, period) && RepeatsMono(window, period)
    requires forall q: nat :: Tried(lo, hi, q) && q < period ==> !RepeatsMono(window, q)
    ensures found == period && minDiff == 0
  {
    var s :| FullResolution(window, 1, s) && |s| == |window| && 2 * hi <= |s| && Found(s, lo, hi, found, minDiff, maxDiff);
    RepeatsAsMono(window, s, period);
    forall q: nat | Tried(lo, hi, q) && q < period
      ensures !Repeats(s, q)
    {
      RepeatsAsMono(window, s, q);
    }
    SmallestRepeatIsFound(s, lo, hi, period, found, minDiff, maxDiff);
  }

  /** Samples of one channel that repeat. */
  ghost predicate RepeatsMono(window: seq<Frame>, period: nat)
    requires Framed(window, 1) && 2 * period <= |window|
  {
    forall i :: 0 <= i < period ==> window[i][0] == window[i + period][0]
  }

  /**
   * At full resolution and with one channel, a sound that repeats is answered with its smallest period that can
   * be a pitch, whatever was found before.
   */
  lemma PeriodicSoundIsFound(voice: Voice, window: seq<Frame>, before: Memory, after: Memory, answer: nat, period: nat)
    requires voice.channels == 1 && Skip(voice.sampleRate, voice.quality) == 1 && Framed(window, 1)
    requires |window| == 2 * (voice.sampleRate / MIN_PITCH) && Answered(voice, window, before, after, answer)
    requires Tried(voice.sampleRate / MAX_PITCH, voice.sampleRate / MIN_PITCH, period) && RepeatsMono(window, period)
    requires forall q: nat :: Tried(voice.sampleRate / MAX_PITCH, voice.sampleRate / MIN_PITCH, q) && q < period ==>
      !RepeatsMono(window, q)
    ensures answer == after.period == period && after.minDiff == 0
  {
    assert AskedWhy(answer);
    var maxDiff: nat :| AnsweredWith(voice, window, true, before, after, answer, maxDiff);
    PeriodicSoundInRange(window, voice.sampleRate / MAX_PITCH, voice.sampleRate / MIN_PITCH, period, after.period, after.minDiff, maxDiff);
    SureAnswer(voice, window, before, after, answer, maxDiff);
  }

  /** The part of the stream that belongs to the pitch search. */
  class PitchTracker {
    const sampleRate: nat
    const channels: nat
    const minPeriod: nat := sampleRate / MAX_PITCH
    const maxPeriod: nat := sampleRate / MIN_PITCH
    var quality: int
    var prevPeriod: nat
    var prevMinDiff: nat

    /** Sample rates below 65 leave no period to try, and the search would divide by zero. */
    ghost predicate Valid()
      reads this
    {
      sampleRate >= MIN_PITCH && channels >= 1 && (prevPeriod == 0 || InRange(prevPeriod))
    }

    predicate InRange(period: nat) {
      Tried(minPeriod, maxPeriod, period)
    }

    constructor (sampleRate: nat, channels: nat)
      requires sampleRate >= MIN_PITCH && channels >= 1
      ensures Valid() && this.sampleRate == sampleRate && this.channels == channels
      ensures quality == 0 && prevPeriod == 0 && prevMinDiff == 0
    {
      this.sampleRate := sampleRate;
      this.channels := channels;
      quality, prevPeriod, prevMinDiff := 0, 0, 0;
    }

    method SetQuality(newQuality: int)
      requires Valid()
      modifies this
      ensures Valid() && quality == newQuality && prevPeriod == old(prevPeriod) && prevMinDiff == old(prevMinDiff)
    {
      quality := newQuality;
    }

    function Remembered(): Memory
      reads this
    {
      Memory(prevPeriod, prevMinDiff)
    }

    function Settings(): Voice
      reads this
    {
      Voice(sampleRate, channels, quality)
    }

    /** The answer always lies in the range of voice pitches, and only the window is looked at. */
    method FindPitchPeriod(window: seq<Frame>, preferNewPeriod: bool) returns (retPeriod: nat, ghost maxDiff: nat)
      requires Valid() && |window| == 2 * maxPeriod && Framed(window, channels)
      modifies this
      ensures Valid() && quality == old(quality)
      ensures InRange(retPeriod)
      ensures AnsweredWith(Settings(), window, preferNewPeriod, old(Remembered()), Remembered(), retPeriod, maxDiff)
    {
      var period, minDiff, diffMax := Search(window, Skip(sampleRate, quality));
      maxDiff := diffMax;
      if PrevPeriodBetter(prevPeriod, prevMinDiff, minDiff, diffMax, preferNewPeriod) {
        retPeriod := prevPeriod;
      } else {
        retPeriod := period;
      }
      prevMinDiff := minDiff;
      prevPeriod := period;
    }

    /** One pass at full resolution, or a coarse pass and then a refined one around its answer. */
    method Search(window: seq<Frame>, skip: nat) returns (period: nat, minDiff: nat, maxDiff: nat)
      requires Valid() && skip == Skip(sampleRate, quality)
      requires |window| == 2 * maxPeriod && Framed(window, channels)
      ensures InRange(period)
      ensures Searched(window, channels, skip, minPeriod, maxPeriod, period, minDiff, maxDiff)
    {
      if skip == 1 {
        period, minDiff, maxDiff := SearchWindow(window, minPeriod, maxPeriod);
      } else {
        var coarse, low, high := CoarseSearch(window, skip);
        RefinedRange(minPeriod, maxPeriod, skip, coarse);
        period, minDiff, maxDiff :=
          SearchWindow(window, RefinedLow(minPeriod, skip, coarse), RefinedHigh(maxPeriod, skip, coarse));
      }
    }

    method CoarseSearch(window: seq<Frame>, skip: nat) returns (coarse: nat, low: nat, high: nat)
      requires Valid() && skip == Skip(sampleRate, quality) && skip > 1
      requires |window| == 2 * maxPeriod && Framed(window, channels)
      ensures minPeriod / skip <= coarse <= maxPeriod / skip
      ensures CoarseAnswer(window, channels, skip, minPeriod, maxPeriod, coarse, low, high)
    {
      var down := DownSampleInput(window, channels, skip);
      CoarseFits(maxPeriod, skip);
      CoarseRange(sampleRate, skip);
      coarse, low, high := FindPitchPeriodInRange(down, minPeriod / skip, maxPeriod / skip);
    }

    method SearchWindow(window: seq<Frame>, lo: nat, hi: nat) returns (period: nat, minDiff: nat, maxDiff: nat)
      requires channels >= 1 && Framed(window, channels)
      requires 1 <= hi && lo <= hi && 2 * hi <= |window|
      ensures Tried(lo, hi, period)
      ensures FoundIn(window, channels, lo, hi, period, minDiff, maxDiff)
    {
      var s;
      if channels == 1 {
        s := FirstChannel(window, channels);
      } else {
        s := DownSampleInput(window, channels, 1);
      }
      period, minDiff, maxDiff := FindPitchPeriodInRange(s, lo, hi);
    }
  }
}
