/** The closed formulas of the code, with their divisions and truncations, count the frames of the tempo model. */
module TempoCode {
  import opened CArith
  import opened RealArith
  import opened Frames
  import opened Tempo

  lemma {:induction false} DurationIsProduct(frames: nat, each: real)
    ensures Duration(frames, each) == frames as real * each
  {
    if frames > 0 {
      DurationIsProduct(frames - 1, each);
      var k := (frames - 1) as real;
      assert frames as real == k + 1.0;
      assert (k + 1.0) * each == k * each + each;
    }
  }

  predicate AskedFor(time: real) { true }

  /** speed * inputTime == outputTime, kept behind a trigger so that the product only shows up where it is asked for. */
  ghost predicate Exact(pace: Pace) {
    && pace.Valid()
    && forall i {:trigger AskedFor(i)} :: AskedFor(i) && i == pace.inputTime ==> pace.speed * i == pace.outputTime
  }

  lemma ExactProduct(pace: Pace)
    requires Exact(pace)
    ensures pace.speed * pace.inputTime == pace.outputTime
  {
    assert AskedFor(pace.inputTime);
  }

  /** Comparing speeds is comparing their products with a positive time. */
  lemma CompareBy(time: real, a: real, at: real, b: real, bt: real)
    requires time > 0.0 && at == a * time && bt == b * time
    ensures a < b <==> at < bt
    ensures b < a <==> bt < at
  {
    if a < b {
      ScaleStrict(a, b, time);
    } else if b < a {
      ScaleStrict(b, a, time);
    }
  }

  lemma MultiplesOf(time: real) returns (one: real, two: real, half: real)
    ensures one == 1.0 && two == 2.0 && half == 0.5
    ensures one * time == time && two * time == time + time && half * time + half * time == time
  {
    one, two, half := 1.0, 2.0, 0.5;
  }

  /** A pace with the right product has the right order of times at every speed. */
  lemma ProductIsExact(pace: Pace)
    requires pace.speed > 0.0 && pace.inputTime > 0.0 && pace.speed * pace.inputTime == pace.outputTime
    ensures Exact(pace)
  {
    var s, i, o := pace.speed, pace.inputTime, pace.outputTime;
    MulPositive(s, i);
    var one, two, half := MultiplesOf(i);
    CompareBy(i, s, o, one, i);
    CompareBy(i, s, o, two, i + i);
    CompareBy(i, s, o, half, half * i);
  }

  // ---- copying ----

  function CopyShare(speed: real, samplePeriod: real, timeError: real): real
    requires samplePeriod * (speed - 1.0) != 0.0
  {
    timeError * speed / (samplePeriod * (speed - 1.0))
  }

  function InputToCopy(speed: real, samplePeriod: real, timeError: real): real
    requires samplePeriod * (speed - 1.0) != 0.0
  {
    1.0 - CopyShare(speed, samplePeriod, timeError)
  }

  /** How far the code copies: `newSamples` of copyUnmodifiedSamples. */
  function CopyFormula(speed: real, samplePeriod: real, timeError: real, available: nat): int
    requires samplePeriod * (speed - 1.0) != 0.0
  {
    Capped(InputToCopy(speed, samplePeriod, timeError), available)
  }

  /** UntilPast is the first count at which the error is past zero. */
  lemma {:induction false} UntilPastIsFirst(gain: real, error: real, available: nat, n: nat)
    requires n <= available
    requires forall k: nat :: k < n ==> !Past(gain, error + Duration(k, gain))
    requires n == available || Past(gain, error + Duration(n, gain))
    ensures UntilPast(gain, error, available) == n
    decreases available
  {
    if n > 0 {
      assert Duration(0, gain) == 0.0 && !Past(gain, error + Duration(0, gain));
      forall k: nat | k < n - 1
        ensures !Past(gain, error + gain + Duration(k, gain))
      {
        DurationAdds(k, 1, gain);
        assert !Past(gain, error + Duration(k + 1, gain));
      }
      DurationAdds(n - 1, 1, gain);
      UntilPastIsFirst(gain, error + gain, available - 1, n - 1);
    } else {
      assert Duration(0, gain) == 0.0;
    }
  }

  lemma SignOfProduct(x: real, g: real)
    requires g != 0.0
    ensures Past(g, x * g) <==> x > 0.0
  {
    if x > 0.0 {
      if g > 0.0 { MulPositive(x, g); } else { MulPositive(x, -g); assert x * -g == -(x * g); }
    } else {
      if g > 0.0 { MulNonNegative(-x, g); assert -x * g == -(x * g); } else { MulNonNegative(-x, -g); assert -x * -g == x * g; }
    }
  }

  /** The error is past zero after k frames exactly if k exceeds the distance. */
  lemma PastAfter(gain: real, distance: real, error: real, k: nat)
    requires gain != 0.0 && error == -(distance * gain)
    ensures Past(gain, error + Duration(k, gain)) <==> k as real > distance
  {
    DurationIsProduct(k, gain);
    var x := k as real - distance;
    assert x * gain == k as real * gain - distance * gain;
    SignOfProduct(x, gain);
  }

  lemma OppositeSigns(q: real, g: real, e: real)
    requires q * g == e && ((g > 0.0 && e < 0.0) || (g < 0.0 && e > 0.0))
    ensures q < 0.0
  {
    SignOfProduct(q, g);
    SignOfProduct(-q, g);
    assert -q * g == -e;
  }

  lemma FactorOut(q: real, g: real, s: real, m: real, e: real)
    requires s != 0.0 && g * s == m && q * m == e * s
    ensures q * g == e
  {
    assert q * g * s == q * (g * s);
    CancelReal(q * g, e, s);
  }

  lemma CopyShareProduct(s: real, o: real, e: real)
    requires o * (s - 1.0) != 0.0
    ensures CopyShare(s, o, e) * (o * (s - 1.0)) == e * s
  {
    DivMul(e * s, o * (s - 1.0));
  }

  lemma CopyQuotient(q: real, e: real, s: real, i: real, o: real)
    requires q * (o * (s - 1.0)) == e * s && s * i == o
    ensures q * ((o - i) * s) == e * s
  {
    assert (o - i) * s == o * (s - 1.0);
  }

  /** The distance to copy, in frames: error and gain have opposite signs. */
  lemma CopyDistance(pace: Pace, timeError: real) returns (distance: real)
    requires Exact(pace) && Copying(pace.speed, timeError)
    ensures pace.outputTime * (pace.speed - 1.0) != 0.0 && pace.Gain() != 0.0
    ensures distance > 0.0 && timeError == -(distance * pace.Gain())
    ensures InputToCopy(pace.speed, pace.outputTime, timeError) == 1.0 + distance
  {
    ExactProduct(pace);
    var s, o := pace.speed, pace.outputTime;
    NonZeroProduct(o, s - 1.0);
    var q := CopyShare(s, o, timeError);
    CopyShareProduct(s, o, timeError);
    CopyQuotient(q, timeError, s, pace.inputTime, o);
    distance := DistanceFrom(q, timeError, pace.speed, pace.Gain());
  }

  lemma DistanceFrom(q: real, e: real, s: real, g: real) returns (distance: real)
    requires s != 0.0 && q * (g * s) == e * s && ((g > 0.0 && e < 0.0) || (g < 0.0 && e > 0.0))
    ensures distance == -q && distance > 0.0 && e == -(distance * g)
  {
    FactorOut(q, g, s, g * s, e);
    OppositeSigns(q, g, e);
    distance := -q;
    assert distance * g == -(q * g);
  }

  lemma CancelReal(x: real, y: real, s: real)
    requires s != 0.0 && x * s == y * s
    ensures x == y
  {
    assert (x - y) * s == 0.0;
    NonZeroIf(x - y, s);
  }

  function Capped(wanted: real, available: nat): int {
    if wanted > available as real then available else Trunc(wanted)
  }

  lemma FirstPast(gain: real, error: real, distance: real, available: nat)
    requires gain != 0.0 && distance > 0.0 && error == -(distance * gain)
    ensures Capped(1.0 + distance, available) == UntilPast(gain, error, available)
  {
    var n: nat := Capped(1.0 + distance, available);
    forall k: nat | k < n
      ensures !Past(gain, error + Duration(k, gain))
    {
      PastAfter(gain, distance, error, k);
    }
    PastAfter(gain, distance, error, n);
    UntilPastIsFirst(gain, error, available, n);
  }

  /** The formula of the code copies exactly until the error is past zero, or all there is. */
  lemma CopyFormulaIsUntilPast(pace: Pace, timeError: real, available: nat)
    requires Exact(pace) && Copying(pace.speed, timeError)
    ensures pace.outputTime * (pace.speed - 1.0) != 0.0
    ensures CopyFormula(pace.speed, pace.outputTime, timeError, available) == UntilPast(pace.Gain(), timeError, available)
  {
    var distance := CopyDistance(pace, timeError);
    assert CopyFormula(pace.speed, pace.outputTime, timeError, available) == Capped(1.0 + distance, available);
    FirstPast(pace.Gain(), timeError, distance, available);
  }

  /** The error after copying n frames, as the code computes it. */
  lemma CopyTimeFormula(pace: Pace, n: nat)
    requires Exact(pace)
    ensures n as real * pace.outputTime * (pace.speed - 1.0) / pace.speed == NetTime(pace, n, n)
  {
    ExactProduct(pace);
    CopyNetTime(pace, n);
    DurationIsProduct(n, pace.Gain());
    var k, s, o, g := n as real, pace.speed, pace.outputTime, pace.Gain();
    assert g * s == o * (s - 1.0);
    assert k * g * s == k * (g * s);
    DivUnique(k * o * (s - 1.0), s, k * g);
  }

  // ---- dropping and repeating periods ----

  function SkipFormula(speed: real, period: nat): int
    requires speed > 1.0
  {
    if speed >= 2.0 then Trunc(period as real / (speed - 1.0)) else period
  }

  function InsertFormula(speed: real, period: nat): int
    requires 0.0 < speed < 1.0
  {
    if speed <= 0.5 then Trunc(period as real * speed / (1.0 - speed)) else period
  }

  /** Truncating a quotient counts how often the divisor fits. */
  lemma TruncIsWholeTimes(room: real, length: real, limit: nat)
    requires 0.0 <= room && length > 0.0 && room < Duration(limit + 1, length)
    ensures Trunc(room / length) == WholeTimes(room, length, limit)
  {
    var q, n := room / length, WholeTimes(room, length, limit);
    WholeTimesFit(room, length, limit);
    DurationIsProduct(n, length);
    DurationIsProduct(n + 1, length);
    DivAtLeast(room, length, n as real);
    DivBelow(room, length, (n + 1) as real);
  }

  lemma SkipFormulaIsSkipCount(speed: real, period: nat)
    requires speed > 1.0
    ensures SkipFormula(speed, period) == SkipCount(speed, period)
  {
    if speed >= 2.0 {
      DurationOfOnes(period + 1);
      DurationCompares(period + 1, 1.0, speed - 1.0);
      TruncIsWholeTimes(period as real, speed - 1.0, period);
    }
  }

  lemma InsertFormulaIsInsertCount(speed: real, period: nat)
    requires 0.0 < speed < 1.0
    ensures InsertFormula(speed, period) == InsertCount(speed, period)
  {
    if speed <= 0.5 {
      DurationIsProduct(period, speed);
      DurationNonNegative(period, speed);
      DurationCompares(period, speed, 1.0 - speed);
      TruncIsWholeTimes(Duration(period, speed), 1.0 - speed, period);
    }
  }

  lemma ShareOfTime(m: real, i: real, n: real, t: real)
    requires n > 0.0 && i * n == t
    ensures t * m / n == m * i
  {
    assert m * i * n == t * m;
    DivUnique(t * m, n, m * i);
  }

  /** The change of the error at a dropped or repeated period, as the code computes it. */
  lemma PeriodTimeFormula(pace: Pace, numInput: nat, playTime: real, produced: nat, consumed: nat)
    requires numInput > 0 && Duration(numInput, pace.inputTime) == playTime
    ensures produced as real * pace.outputTime - consumed as real * playTime / numInput as real
         == NetTime(pace, produced, consumed)
  {
    DurationIsProduct(numInput, pace.inputTime);
    DurationIsProduct(produced, pace.outputTime);
    DurationIsProduct(consumed, pace.inputTime);
    ShareOfTime(consumed as real, pace.inputTime, numInput as real, playTime);
    assert consumed as real * playTime == playTime * consumed as real;
  }

  // ---- when a step conserves play time ----

  /** The part of a period that is used above double and below half speed fits without rest. */
  ghost predicate ExactPeriod(speed: real, period: nat) {
    if speed > 2.0 then SkipCount(speed, period) as real * (speed - 1.0) == period as real
    else speed < 0.5 ==> InsertCount(speed, period) as real * (1.0 - speed) == period as real * speed
  }

  /** Output time minus input time minus the change of the error: what is lost or won from c to d. */
  ghost function Defect(pace: Pace, c: Cursor, d: Cursor): real
    requires |d.out| >= |c.out| && d.position >= c.position
  {
    NetTime(pace, |d.out| - |c.out|, d.position - c.position) - (d.timeError - c.timeError)
  }

  /** n output frames for n input frames and as many as fit: time balances when the part fits without rest, and else falls short. */
  lemma SkipBalance(s: real, i: real, o: real, n: real, p: real)
    requires i > 0.0 && s * i == o
    ensures n * (s - 1.0) <= p ==> n * o - (p + n) * i <= 0.0
    ensures n * (s - 1.0) == p <==> n * o - (p + n) * i == 0.0
  {
    assert n * o == n * s * i;
    assert n * o - (p + n) * i == (n * (s - 1.0) - p) * i;
    TimesPositive(n * (s - 1.0) - p, i);
  }

  lemma InsertBalance(s: real, i: real, o: real, n: real, p: real)
    requires i > 0.0 && s * i == o
    ensures n * (1.0 - s) <= p * s ==> (p + n) * o - n * i >= 0.0
    ensures n * (1.0 - s) == p * s <==> (p + n) * o - n * i == 0.0
  {
    assert (p + n) * o == (p + n) * s * i;
    assert (p + n) * o - n * i == (p * s - n * (1.0 - s)) * i;
    TimesPositive(p * s - n * (1.0 - s), i);
  }

  lemma TimesPositive(x: real, i: real)
    requires i > 0.0
    ensures x <= 0.0 ==> x * i <= 0.0
    ensures x >= 0.0 ==> x * i >= 0.0
    ensures x == 0.0 <==> x * i == 0.0
  {
    NonZeroIf(x, i);
  }

  lemma NetTimeIsProduct(pace: Pace, produced: nat, consumed: nat)
    ensures NetTime(pace, produced, consumed) == produced as real * pace.outputTime - consumed as real * pace.inputTime
  {
    DurationIsProduct(produced, pace.outputTime);
    DurationIsProduct(consumed, pace.inputTime);
  }

  lemma SkipFits(speed: real, period: nat)
    requires speed > 2.0
    ensures SkipCount(speed, period) as real * (speed - 1.0) <= period as real
  {
    DurationOfOnes(period + 1);
    DurationCompares(period + 1, 1.0, speed - 1.0);
    WholeTimesFit(period as real, speed - 1.0, period);
    DurationIsProduct(SkipCount(speed, period), speed - 1.0);
  }

  lemma InsertFits(speed: real, period: nat)
    requires 0.0 < speed < 0.5
    ensures InsertCount(speed, period) as real * (1.0 - speed) <= period as real * speed
  {
    DurationNonNegative(period, speed);
    DurationCompares(period, speed, 1.0 - speed);
    WholeTimesFit(Duration(period, speed), 1.0 - speed, period);
    DurationIsProduct(period, speed);
    DurationIsProduct(InsertCount(speed, period), 1.0 - speed);
  }

  lemma SkipDefect(pace: Pace, period: nat)
    requires Exact(pace) && pace.speed > 2.0
    ensures var n := SkipCount(pace.speed, period);
      && NetTime(pace, n, period + n) <= 0.0 && (NetTime(pace, n, period + n) == 0.0 <==> ExactPeriod(pace.speed, period))
  {
    var n := SkipCount(pace.speed, period);
    ExactProduct(pace);
    NetTimeIsProduct(pace, n, period + n);
    SkipFits(pace.speed, period);
    SkipBalance(pace.speed, pace.inputTime, pace.outputTime, n as real, period as real);
  }

  lemma InsertDefect(pace: Pace, period: nat)
    requires Exact(pace) && pace.speed < 0.5
    ensures var n := InsertCount(pace.speed, period);
      && NetTime(pace, period + n, n) >= 0.0 && (NetTime(pace, period + n, n) == 0.0 <==> ExactPeriod(pace.speed, period))
  {
    var n := InsertCount(pace.speed, period);
    ExactProduct(pace);
    NetTimeIsProduct(pace, period + n, n);
    InsertFits(pace.speed, period);
    InsertBalance(pace.speed, pace.inputTime, pace.outputTime, n as real, period as real);
  }

  predicate ModerateSpeed(speed: real) { 0.5 <= speed <= 2.0 }

  /** A defect of the sign that the speed allows, and none exactly if the speed is moderate or there was no rest. */
  predicate DefectFits(speed: real, x: real, exact: bool) {
    && (speed > 2.0 ==> x <= 0.0) && (speed < 0.5 ==> x >= 0.0)
    && (x == 0.0 <==> ModerateSpeed(speed) || exact)
  }

  /** One step: nothing is lost or won from half to double speed; beyond, exactly where the part of the period leaves no rest. */
  lemma StepDefect(job: Job, c: Cursor, period: nat)
    requires MayStep(job, c, period) && Exact(job.pace)
    ensures DefectFits(job.pace.speed, Defect(job.pace, c, Step(job, c, period)), ExactPeriod(job.pace.speed, period))
  {
    var s, d := job.pace.speed, Step(job, c, period);
    assert |d.out| - |c.out| == |Produced(job, c, period)| && d.position - c.position == Consumed(job, c, period);
    if ModerateSpeed(s) {
      StepConserves(job, c, period);
    } else if s > 2.0 {
      SkipDefect(job.pace, period);
    } else {
      InsertDefect(job.pace, period);
    }
  }

  /** A step conserves play time exactly at speeds from half to double, or where the part of its period leaves no rest. */
  lemma StepConservesIff(job: Job, c: Cursor, period: nat)
    requires MayStep(job, c, period) && Exact(job.pace)
    ensures Conserves(job.pace, c, Step(job, c, period)) <==> ModerateSpeed(job.pace.speed) || ExactPeriod(job.pace.speed, period)
  {
    StepDefect(job, c, period);
  }

  lemma DefectAdds(pace: Pace, c: Cursor, m: Cursor, d: Cursor)
    requires |c.out| <= |m.out| <= |d.out| && c.position <= m.position <= d.position
    ensures Defect(pace, c, d) == Defect(pace, c, m) + Defect(pace, m, d)
  {
    NetTimeAdds(pace, |m.out| - |c.out|, m.position - c.position, |d.out| - |m.out|, d.position - m.position);
  }

  lemma DefectChain(speed: real, x: real, exactX: bool, y: real, exactY: bool)
    requires DefectFits(speed, x, exactX) && DefectFits(speed, y, exactY)
    ensures DefectFits(speed, x + y, exactX && exactY)
  {
  }

  ghost predicate AllExact(speed: real, periods: seq<nat>) {
    forall k :: 0 <= k < |periods| ==> ExactPeriod(speed, periods[k])
  }

  lemma AllExactMore(speed: real, periods: seq<nat>)
    requires periods != []
    ensures var k := |periods| - 1; AllExact(speed, periods) <==> AllExact(speed, periods[..k]) && ExactPeriod(speed, periods[k])
  {
    assert forall j :: 0 <= j < |periods| - 1 ==> periods[..|periods| - 1][j] == periods[j];
  }

  lemma {:induction false} RunDefect(job: Job, c: Cursor, periods: seq<nat>)
    requires MayRun(job, c, periods) && Exact(job.pace)
    ensures var d := Run(job, c, periods);
      && |d.out| >= |c.out| && d.position >= c.position
      && DefectFits(job.pace.speed, Defect(job.pace, c, d), AllExact(job.pace.speed, periods))
  {
    if periods != [] {
      var k := |periods| - 1;
      var m := Run(job, c, periods[..k]);
      var d := Step(job, m, periods[k]);
      RunDefect(job, c, periods[..k]);
      StepDefect(job, m, periods[k]);
      DefectAdds(job.pace, c, m, d);
      AllExactMore(job.pace.speed, periods);
      DefectChain(job.pace.speed, Defect(job.pace, c, m), AllExact(job.pace.speed, periods[..k]),
                  Defect(job.pace, m, d), ExactPeriod(job.pace.speed, periods[k]));
      assert Run(job, c, periods) == d;
    }
  }

  /** A whole call conserves play time exactly at speeds from half to double, or if every period it uses leaves no rest. */
  lemma RunConservesIff(job: Job, c: Cursor, periods: seq<nat>)
    requires MayRun(job, c, periods) && Exact(job.pace)
    ensures Conserves(job.pace, c, Run(job, c, periods)) <==> ModerateSpeed(job.pace.speed) || AllExact(job.pace.speed, periods)
  {
    RunDefect(job, c, periods);
  }

  /** At triple speed a period of 5 frames is not conserved. */
  lemma TripleSpeedLosesTime(job: Job, c: Cursor)
    requires MayStep(job, c, 5) && Exact(job.pace) && job.pace.speed == 3.0
    ensures SkipCount(3.0, 5) == 2 && !Conserves(job.pace, c, Step(job, c, 5))
  {
    assert WholeTimes(1.0, 2.0, 3) == 0 && WholeTimes(3.0, 2.0, 4) == 1;
    StepConservesIff(job, c, 5);
  }
}
