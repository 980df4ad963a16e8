/**
 * The tempo loop of libsonic as a function of its choices. One call of the loop works on a fixed
 * input buffer at a fixed pace; every step either copies input unmodified, drops a pitch period
 * or repeats one. The pitch periods come from the pitch search, so the results here hold for
 * every period that the search may answer.
 *
 * All definitions count frame by frame. That the closed formulas of the code, with their divisions
 * and truncations, give the same numbers is proved in TempoCode.
 */
module Tempo {
  import opened Frames

  /** The time that a number of frames takes, frame by frame. */
  ghost function Duration(frames: nat, each: real): real {
    if frames == 0 then 0.0 else Duration(frames - 1, each) + each
  }

  lemma {:induction false} DurationAdds(a: nat, b: nat, each: real)
    ensures Duration(a + b, each) == Duration(a, each) + Duration(b, each)
  {
    if b > 0 {
      DurationAdds(a, b - 1, each);
    }
  }

  lemma {:induction false} DurationGrows(a: nat, b: nat, each: real)
    requires a <= b && each >= 0.0
    ensures Duration(a, each) <= Duration(b, each)
    decreases b
  {
    if a < b {
      DurationGrows(a, b - 1, each);
    }
  }

  /** How many whole times a length fits in a room, if it fits at most `limit` times. */
  ghost function WholeTimes(room: real, length: real, limit: nat): (n: nat)
    ensures n <= limit
    decreases limit
  {
    if limit == 0 || room < length then 0 else 1 + WholeTimes(room - length, length, limit - 1)
  }

  lemma {:induction false} WholeTimesFit(room: real, length: real, limit: nat)
    requires 0.0 <= room && length > 0.0 && room < Duration(limit + 1, length)
    ensures var n := WholeTimes(room, length, limit);
      Duration(n, length) <= room < Duration(n + 1, length)
    decreases limit
  {
    if limit > 0 && room >= length {
      WholeTimesFit(room - length, length, limit - 1);
    }
  }

  /** The error is past zero in the direction of the gain. */
  predicate Past(gain: real, error: real) {
    if gain > 0.0 then error > 0.0 else error < 0.0
  }

  /** How many frames are copied, one at a time, until the error is past zero or nothing is left to copy. */
  ghost function UntilPast(gain: real, error: real, available: nat): (n: nat)
    ensures n <= available
    decreases available
  {
    if available == 0 || Past(gain, error) then 0 else 1 + UntilPast(gain, error + gain, available - 1)
  }

  /** Copying overshoots zero by at most the gain of one frame. */
  lemma {:induction false} UntilPastOvershoots(gain: real, error: real, available: nat)
    requires gain != 0.0 && !Past(gain, error)
    ensures var after := error + Duration(UntilPast(gain, error, available), gain);
      if gain > 0.0 then error <= after <= gain else gain <= after <= error
    decreases available
  {
    if available > 0 {
      var n := UntilPast(gain, error + gain, available - 1);
      DurationAdds(1, n, gain);
      if !Past(gain, error + gain) {
        UntilPastOvershoots(gain, error + gain, available - 1);
      }
    }
  }

  /** The pace of one call: input frames per output frame, and the time each kind of frame takes. */
  datatype Pace = Pace(speed: real, inputTime: real, outputTime: real) {
    /** How speed and times hang together, at the speeds where the loop changes its ways. */
    ghost predicate Valid() {
      && speed > 0.0 && inputTime > 0.0 && outputTime > 0.0
      && (speed > 1.0 <==> inputTime < outputTime) && (speed < 1.0 <==> outputTime < inputTime)
      && (speed < 2.0 <==> outputTime < inputTime + inputTime) && (speed > 2.0 <==> outputTime > inputTime + inputTime)
      && (speed > 0.5 <==> inputTime < outputTime + outputTime) && (speed < 0.5 <==> inputTime > outputTime + outputTime)
    }

    /** The time won by copying one frame, negative when slowing down. */
    ghost function Gain(): real {
      outputTime - inputTime
    }
  }

  /** What stays fixed during one call of the loop. */
  datatype Job = Job(input: seq<Frame>, channels: nat, pace: Pace, maxPeriod: nat) {
    ghost predicate Valid() {
      Framed(input, channels) && pace.Valid() && pace.speed != 1.0 && maxPeriod >= 1
    }

    /** The longest time by which output may lead or lag: one maximal pitch period. */
    ghost function Tolerance(): real {
      Duration(maxPeriod, pace.outputTime)
    }
  }

  /** What the loop updates: the input position, the new output and the play time error. */
  datatype Cursor = Cursor(position: nat, out: seq<Frame>, timeError: real)

  /** The two cases in which input is still being copied unmodified. */
  predicate Copying(speed: real, timeError: real) {
    || (1.0 < speed < 2.0 && timeError < 0.0)
    || (0.5 < speed < 1.0 && timeError > 0.0)
  }

  /** Output frames when a pitch period, or a part of one, is dropped. */
  ghost function SkipCount(speed: real, period: nat): (n: nat)
    ensures n <= period
  {
    if speed >= 2.0 then WholeTimes(period as real, speed - 1.0, period) else period
  }

  /** Input frames consumed when a pitch period is repeated. */
  ghost function InsertCount(speed: real, period: nat): (n: nat)
    ensures n <= period
  {
    if speed <= 0.5 then WholeTimes(Duration(period, speed), 1.0 - speed, period) else period
  }

  /** At double and at half speed the part is the whole period. */
  lemma {:induction false} WholePeriodAtTheEnds(period: nat)
    ensures SkipCount(2.0, period) == period && InsertCount(0.5, period) == period
  {
    if period > 0 {
      WholePeriodAtTheEnds(period - 1);
    }
  }

  /** A step starts while a whole analysis window is left, and gets a period unless it copies. */
  ghost predicate MayStep(job: Job, c: Cursor, period: nat) {
    && job.Valid()
    && c.position + 2 * job.maxPeriod <= |job.input|
    && (!Copying(job.pace.speed, c.timeError) ==> 1 <= period <= job.maxPeriod)
  }

  /** Input frames that a step moves past. */
  ghost function Consumed(job: Job, c: Cursor, period: nat): (n: nat)
    requires MayStep(job, c, period)
    ensures c.position + n <= |job.input|
  {
    var s := job.pace.speed;
    if Copying(s, c.timeError) then UntilPast(job.pace.Gain(), c.timeError, |job.input| - c.position)
    else if s > 1.0 then period + SkipCount(s, period)
    else InsertCount(s, period)
  }

  /** What a step appends to the output. */
  ghost function Produced(job: Job, c: Cursor, period: nat): (out: seq<Frame>)
    requires MayStep(job, c, period)
    ensures Framed(out, job.channels)
  {
    var s := job.pace.speed;
    var window := job.input[c.position..];
    if Copying(s, c.timeError) then
      window[..UntilPast(job.pace.Gain(), c.timeError, |job.input| - c.position)]
    else if s > 1.0 then
      CrossFade(SkipCount(s, period), job.channels, window, window[period..])
    else
      window[..period] + CrossFade(InsertCount(s, period), job.channels, window[period..], window)
  }

  /** Output time added minus input time consumed. */
  ghost function NetTime(pace: Pace, produced: nat, consumed: nat): real {
    Duration(produced, pace.outputTime) - Duration(consumed, pace.inputTime)
  }

  /** From double and half speed on a fitting part of a period is used, and the error is left alone. */
  ghost function Shift(pace: Pace, produced: nat, consumed: nat): real {
    if 0.5 < pace.speed < 2.0 then NetTime(pace, produced, consumed) else 0.0
  }

  ghost function Step(job: Job, c: Cursor, period: nat): (d: Cursor)
    requires MayStep(job, c, period)
  {
    var consumed, produced := Consumed(job, c, period), Produced(job, c, period);
    Cursor(c.position + consumed, c.out + produced, c.timeError + Shift(job.pace, |produced|, consumed))
  }

  /** A step that moves past no input. The loop gives up there. */
  ghost predicate Stalled(job: Job, c: Cursor, period: nat)
    requires MayStep(job, c, period)
  {
    var s := job.pace.speed;
    && !Copying(s, c.timeError)
    && (if s > 1.0 then SkipCount(s, period) else InsertCount(s, period)) == 0
  }

  lemma StepAdvances(job: Job, c: Cursor, period: nat)
    requires MayStep(job, c, period)
    ensures 0.5 <= job.pace.speed <= 2.0 ==> !Stalled(job, c, period)
    ensures !Stalled(job, c, period) ==> c.position < Step(job, c, period).position
  {
    WholePeriodAtTheEnds(period);
    if Copying(job.pace.speed, c.timeError) {
      assert !Past(job.pace.Gain(), c.timeError);
    }
  }

  lemma NetTimeAdds(pace: Pace, p: nat, c: nat, q: nat, d: nat)
    ensures NetTime(pace, p, c) + NetTime(pace, q, d) == NetTime(pace, p + q, c + d)
  {
    DurationAdds(p, q, pace.outputTime);
    DurationAdds(c, d, pace.inputTime);
  }

  /** Dropping or repeating a whole period moves the error by at most that period, and at the ends not at all. */
  lemma {:induction false} PeriodShift(pace: Pace, p: nat)
    requires pace.Valid()
    ensures 1.0 < pace.speed <= 2.0 ==> -Duration(p, pace.outputTime) <= NetTime(pace, p, p + p) <= 0.0
    ensures 0.5 <= pace.speed < 1.0 ==> 0.0 <= NetTime(pace, p + p, p) <= Duration(p, pace.outputTime)
    ensures pace.speed == 2.0 ==> NetTime(pace, p, p + p) == 0.0
    ensures pace.speed == 0.5 ==> NetTime(pace, p + p, p) == 0.0
  {
    if p > 0 {
      PeriodShift(pace, p - 1);
      assert Duration(p + p, pace.inputTime) == Duration(p + p - 2, pace.inputTime) + pace.inputTime + pace.inputTime;
      assert Duration(p + p, pace.outputTime) == Duration(p + p - 2, pace.outputTime) + pace.outputTime + pace.outputTime;
    }
  }

  /** From c to d, the error gained is the output time added minus the input time consumed. */
  ghost predicate Conserves(pace: Pace, c: Cursor, d: Cursor) {
    && |d.out| >= |c.out| && d.position >= c.position
    && d.timeError - c.timeError == NetTime(pace, |d.out| - |c.out|, d.position - c.position)
  }

  /** At speeds from half to double, the error changes by exactly the output time added minus the input time consumed. */
  lemma StepConserves(job: Job, c: Cursor, period: nat)
    requires MayStep(job, c, period) && 0.5 <= job.pace.speed <= 2.0
    ensures Conserves(job.pace, c, Step(job, c, period))
  {
    if job.pace.speed == 0.5 || job.pace.speed == 2.0 {
      WholePeriodAtTheEnds(period);
      PeriodShift(job.pace, period);
    }
    var d := Step(job, c, period);
    assert |d.out| - |c.out| == |Produced(job, c, period)| && d.position - c.position == Consumed(job, c, period);
  }

  ghost predicate OnTime(job: Job, timeError: real) {
    -job.Tolerance() <= timeError <= job.Tolerance()
  }

  lemma {:induction false} CopyNetTime(pace: Pace, n: nat)
    ensures NetTime(pace, n, n) == Duration(n, pace.Gain())
  {
    if n > 0 {
      CopyNetTime(pace, n - 1);
    }
  }

  /** The error never grows beyond one maximal pitch period, whatever speed from half to double the call runs at. */
  lemma StepOnTime(job: Job, c: Cursor, period: nat)
    requires MayStep(job, c, period) && 0.5 <= job.pace.speed <= 2.0
    requires OnTime(job, c.timeError)
    ensures OnTime(job, Step(job, c, period).timeError)
  {
    DurationGrows(1, job.maxPeriod, job.pace.outputTime);
    if Copying(job.pace.speed, c.timeError) {
      UntilPastOvershoots(job.pace.Gain(), c.timeError, |job.input| - c.position);
      CopyNetTime(job.pace, Consumed(job, c, period));
    } else {
      WholePeriodAtTheEnds(period);
      PeriodShift(job.pace, period);
      DurationGrows(period, job.maxPeriod, job.pace.outputTime);
    }
  }

  /** A whole call: one period per step, each step starting where the last one stopped, up to one that stalls. */
  ghost predicate MayRun(job: Job, c: Cursor, periods: seq<nat>)
    decreases |periods|, 0
  {
    |periods| > 0 ==>
      var k := |periods| - 1;
      && MayRun(job, c, periods[..k])
      && GoesOn(job, c, periods[..k])
      && MayStep(job, Run(job, c, periods[..k]), periods[k])
  }

  /** The last step has not stalled. */
  ghost predicate GoesOn(job: Job, c: Cursor, periods: seq<nat>)
    requires MayRun(job, c, periods)
    decreases |periods|, 2
  {
    |periods| > 0 ==>
      var k := |periods| - 1;
      !Stalled(job, Run(job, c, periods[..k]), periods[k])
  }

  ghost function Run(job: Job, c: Cursor, periods: seq<nat>): (d: Cursor)
    requires MayRun(job, c, periods)
    decreases |periods|, 1
  {
    if periods == [] then c
    else
      var k := |periods| - 1;
      Step(job, Run(job, c, periods[..k]), periods[k])
  }

  lemma RunExtends(job: Job, c: Cursor, periods: seq<nat>, period: nat)
    requires MayRun(job, c, periods) && GoesOn(job, c, periods) && MayStep(job, Run(job, c, periods), period)
    ensures MayRun(job, c, periods + [period])
    ensures Run(job, c, periods + [period]) == Step(job, Run(job, c, periods), period)
    ensures GoesOn(job, c, periods + [period]) <==> !Stalled(job, Run(job, c, periods), period)
  {
    assert (periods + [period])[..|periods|] == periods;
  }

  /** Every run keeps to the input and moves forward at each step but one that stalls, so it ends. */
  lemma {:induction false} RunAdvances(job: Job, c: Cursor, periods: seq<nat>)
    requires MayRun(job, c, periods) && c.position <= |job.input|
    ensures c.position <= Run(job, c, periods).position <= |job.input|
    ensures GoesOn(job, c, periods) ==> c.position + |periods| <= Run(job, c, periods).position
    ensures c.out <= Run(job, c, periods).out
  {
    if periods != [] {
      var k := |periods| - 1;
      RunAdvances(job, c, periods[..k]);
      StepAdvances(job, Run(job, c, periods[..k]), periods[k]);
    }
  }

  lemma ConservesChain(pace: Pace, c: Cursor, m: Cursor, d: Cursor)
    requires Conserves(pace, c, m) && Conserves(pace, m, d)
    ensures Conserves(pace, c, d)
  {
    NetTimeAdds(pace, |m.out| - |c.out|, m.position - c.position, |d.out| - |m.out|, d.position - m.position);
  }

  /** Conservation over any run of the loop. */
  lemma {:induction false} RunConserves(job: Job, c: Cursor, periods: seq<nat>)
    requires MayRun(job, c, periods) && 0.5 <= job.pace.speed <= 2.0
    ensures Conserves(job.pace, c, Run(job, c, periods))
  {
    if periods != [] {
      var k := |periods| - 1;
      var m := Run(job, c, periods[..k]);
      var d := Step(job, m, periods[k]);
      RunConserves(job, c, periods[..k]);
      StepConserves(job, m, periods[k]);
      ConservesChain(job.pace, c, m, d);
      assert Run(job, c, periods) == d;
    }
  }

  /** No run leaves the tolerance of one maximal pitch period. */
  lemma {:induction false} RunOnTime(job: Job, c: Cursor, periods: seq<nat>)
    requires MayRun(job, c, periods) && 0.5 <= job.pace.speed <= 2.0
    requires OnTime(job, c.timeError)
    ensures OnTime(job, Run(job, c, periods).timeError)
  {
    if periods != [] {
      var k := |periods| - 1;
      RunOnTime(job, c, periods[..k]);
      StepOnTime(job, Run(job, c, periods[..k]), periods[k]);
    }
  }

  lemma {:induction false} DurationSplits(n: nat, a: real, b: real)
    ensures Duration(n, a + b) == Duration(n, a) + Duration(n, b)
  {
    if n > 0 {
      DurationSplits(n - 1, a, b);
    }
  }

  lemma {:induction false} DurationOfOnes(n: nat)
    ensures Duration(n, 1.0) == n as real
  {
    if n > 0 {
      DurationOfOnes(n - 1);
    }
  }

  /**
   * From double speed on, output is never longer than the input calls for, and falls short by less
   * than one frame per step. Times `speed`, so no division is needed to say so.
   */
  lemma FastStepRoundsDown(job: Job, c: Cursor, period: nat)
    requires MayStep(job, c, period) && job.pace.speed >= 2.0
    ensures var s, produced := job.pace.speed, |Produced(job, c, period)|;
      Duration(produced, s) <= Consumed(job, c, period) as real < Duration(produced + 1, s)
  {
    var s, n := job.pace.speed, SkipCount(job.pace.speed, period);
    DurationOfOnes(period + 1);
    DurationOfOnes(n);
    DurationCompares(period + 1, 1.0, s - 1.0);
    WholeTimesFit(period as real, s - 1.0, period);
    DurationSplits(n, s - 1.0, 1.0);
  }

  lemma {:induction false} DurationCompares(n: nat, a: real, b: real)
    requires a <= b
    ensures Duration(n, a) <= Duration(n, b)
  {
    if n > 0 {
      DurationCompares(n - 1, a, b);
    }
  }

  /** Up to half speed output is never shorter than the input calls for, by less than one frame of input per step. */
  lemma SlowStepRoundsUp(job: Job, c: Cursor, period: nat)
    requires MayStep(job, c, period) && job.pace.speed <= 0.5
    ensures var s, consumed := job.pace.speed, Consumed(job, c, period) as real;
      consumed <= Duration(|Produced(job, c, period)|, s) < consumed + 1.0
  {
    var s, n := job.pace.speed, InsertCount(job.pace.speed, period);
    DurationNonNegative(period, s);
    DurationCompares(period, s, 1.0 - s);
    WholeTimesFit(Duration(period, s), 1.0 - s, period);
    DurationOfOnes(n);
    DurationSplits(n, 1.0 - s, s);
    DurationAdds(period, n, s);
  }

  lemma {:induction false} DurationNonNegative(n: nat, each: real)
    requires each >= 0.0
    ensures Duration(n, each) >= 0.0
  {
    if n > 0 {
      DurationNonNegative(n - 1, each);
    }
  }

  /** At a speed, this output is at most what the input calls for, and less than that by at most one frame per step. */
  ghost predicate RoundsDown(speed: real, produced: nat, consumed: nat, steps: nat) {
    Duration(produced, speed) <= consumed as real <= Duration(produced + steps, speed)
  }

  /** This output is at least what the input calls for, and more than that by at most one frame of input per step. */
  ghost predicate RoundsUp(speed: real, produced: nat, consumed: nat, steps: nat) {
    consumed as real <= Duration(produced, speed) <= (consumed + steps) as real
  }

  lemma RoundsDownChain(speed: real, p: nat, c: nat, k: nat, q: nat, d: nat)
    requires RoundsDown(speed, p, c, k) && RoundsDown(speed, q, d, 1)
    ensures RoundsDown(speed, p + q, c + d, k + 1)
  {
    DurationAdds(p, q, speed);
    DurationAdds(p + k, q + 1, speed);
    assert p + k + (q + 1) == p + q + (k + 1);
  }

  lemma RoundsUpChain(speed: real, p: nat, c: nat, k: nat, q: nat, d: nat)
    requires RoundsUp(speed, p, c, k) && RoundsUp(speed, q, d, 1)
    ensures RoundsUp(speed, p + q, c + d, k + 1)
  {
    DurationAdds(p, q, speed);
  }

  /** What a run produces and consumes. */
  ghost function RunProduced(job: Job, c: Cursor, periods: seq<nat>): (n: nat)
    requires MayRun(job, c, periods)
    ensures |Run(job, c, periods).out| == |c.out| + n
  {
    if periods == [] then 0
    else
      var k := |periods| - 1;
      RunProduced(job, c, periods[..k]) + |Produced(job, Run(job, c, periods[..k]), periods[k])|
  }

  ghost function RunConsumed(job: Job, c: Cursor, periods: seq<nat>): (n: nat)
    requires MayRun(job, c, periods)
    ensures Run(job, c, periods).position == c.position + n
  {
    if periods == [] then 0
    else
      var k := |periods| - 1;
      RunConsumed(job, c, periods[..k]) + Consumed(job, Run(job, c, periods[..k]), periods[k])
  }

  predicate AskedAt(speed: real) { true }

  /** How steps round, where the whole period is not used. It is kept behind a trigger, so that it only unfolds where it is asked about. */
  ghost predicate Rounds(speed: real, produced: nat, consumed: nat, steps: nat) {
    forall s {:trigger AskedAt(s)} :: AskedAt(s) && s == speed ==>
      if s >= 2.0 then RoundsDown(s, produced, consumed, steps) else RoundsUp(s, produced, consumed, steps)
  }

  lemma RoundsMeans(speed: real, produced: nat, consumed: nat, steps: nat)
    ensures Rounds(speed, produced, consumed, steps) <==>
      if speed >= 2.0 then RoundsDown(speed, produced, consumed, steps) else RoundsUp(speed, produced, consumed, steps)
  {
    assert AskedAt(speed);
  }

  lemma OneStepRounds(job: Job, c: Cursor, period: nat)
    requires MayStep(job, c, period) && (job.pace.speed >= 2.0 || job.pace.speed <= 0.5)
    ensures Rounds(job.pace.speed, |Produced(job, c, period)|, Consumed(job, c, period), 1)
  {
    RoundsMeans(job.pace.speed, |Produced(job, c, period)|, Consumed(job, c, period), 1);
    if job.pace.speed >= 2.0 {
      FastStepRoundsDown(job, c, period);
    } else {
      SlowStepRoundsUp(job, c, period);
    }
  }

  lemma RoundsChain(speed: real, p: nat, c: nat, k: nat, q: nat, d: nat, produced: nat, consumed: nat, steps: nat)
    requires Rounds(speed, p, c, k) && Rounds(speed, q, d, 1)
    requires produced == p + q && consumed == c + d && steps == k + 1
    ensures Rounds(speed, produced, consumed, steps)
  {
    RoundsMeans(speed, p, c, k);
    RoundsMeans(speed, q, d, 1);
    RoundsMeans(speed, produced, consumed, steps);
    if speed >= 2.0 {
      RoundsDownChain(speed, p, c, k, q, d);
    } else {
      RoundsUpChain(speed, p, c, k, q, d);
    }
  }

  lemma RunFigures(job: Job, c: Cursor, periods: seq<nat>)
    requires periods != [] && MayRun(job, c, periods)
    ensures var k := |periods| - 1;
      && RunProduced(job, c, periods) == RunProduced(job, c, periods[..k]) + |Produced(job, Run(job, c, periods[..k]), periods[k])|
      && RunConsumed(job, c, periods) == RunConsumed(job, c, periods[..k]) + Consumed(job, Run(job, c, periods[..k]), periods[k])
  {
  }

  /** One more step of a run rounds once more. */
  lemma OneMoreRounds(job: Job, c: Cursor, periods: seq<nat>)
    requires periods != [] && MayRun(job, c, periods) && (job.pace.speed >= 2.0 || job.pace.speed <= 0.5)
    requires var front := periods[..|periods| - 1];
      Rounds(job.pace.speed, RunProduced(job, c, front), RunConsumed(job, c, front), |front|)
    ensures Rounds(job.pace.speed, RunProduced(job, c, periods), RunConsumed(job, c, periods), |periods|)
  {
    var k := |periods| - 1;
    var front := periods[..k];
    var m := Run(job, c, front);
    var p, q := RunProduced(job, c, front), |Produced(job, m, periods[k])|;
    var x, y := RunConsumed(job, c, front), Consumed(job, m, periods[k]);
    OneStepRounds(job, m, periods[k]);
    RunFigures(job, c, periods);
    RoundsChain(job.pace.speed, p, x, k, q, y, RunProduced(job, c, periods), RunConsumed(job, c, periods), |periods|);
  }

  /**
   * A whole call: from double speed on its output falls short of its input by at most one frame per step, and
   * up to half speed it exceeds it by at most one frame of input per step.
   */
  lemma {:induction false} RunRounds(job: Job, c: Cursor, periods: seq<nat>)
    requires MayRun(job, c, periods) && (job.pace.speed >= 2.0 || job.pace.speed <= 0.5)
    ensures Rounds(job.pace.speed, RunProduced(job, c, periods), RunConsumed(job, c, periods), |periods|)
  {
    if periods != [] {
      RunRounds(job, c, periods[..|periods| - 1]);
      OneMoreRounds(job, c, periods);
    }
  }

  // ---- seams ----

  /** The output of a step starts as the input does at its position, through the whole period where one is repeated. */
  lemma StepStartsInPlace(job: Job, c: Cursor, period: nat)
    requires MayStep(job, c, period)
    ensures var out, s := Produced(job, c, period), job.pace.speed;
      && (out != [] ==> out[0] == job.input[c.position])
      && (!Copying(s, c.timeError) && s < 1.0 ==> out[..period] == job.input[c.position..c.position + period])
      && (!Copying(s, c.timeError) && s < 1.0 && InsertCount(s, period) > 0 ==> out[period] == job.input[c.position + period])
  {
    var s, window := job.pace.speed, job.input[c.position..];
    if !Copying(s, c.timeError) {
      if s > 1.0 && SkipCount(s, period) > 0 {
        FadeFollows(SkipCount(s, period), job.channels, window, window[period..], 0);
      } else if s < 1.0 && InsertCount(s, period) > 0 {
        FadeFollows(InsertCount(s, period), job.channels, window[period..], window, 0);
      }
    }
  }

  /** Copying ends with the frame before the next position. */
  lemma CopyEndsInPlace(job: Job, c: Cursor, period: nat)
    requires MayStep(job, c, period) && Copying(job.pace.speed, c.timeError)
    ensures var out, next := Produced(job, c, period), Step(job, c, period).position;
      out != [] && 0 < next <= |job.input| && out[|out| - 1] == job.input[next - 1]
  {
    StepAdvances(job, c, period);
  }

  /** Dropping a period ends with a fade that is one step away from that frame. */
  lemma SkipEndsInPlace(job: Job, c: Cursor, period: nat, n: nat)
    requires MayStep(job, c, period) && job.pace.speed > 1.0 && !Copying(job.pace.speed, c.timeError)
    requires n == SkipCount(job.pace.speed, period) && n > 0
    ensures var out := Produced(job, c, period);
      && |out| == n && Step(job, c, period).position == c.position + period + n
      && EndsNear(out[n - 1], job.input[c.position + period + n - 1], job.input[c.position + n - 1], job.channels, n)
  {
    var window := job.input[c.position..];
    FadeEnds(n, job.channels, window, window[period..]);
  }

  /** And so does repeating one. */
  lemma InsertEndsInPlace(job: Job, c: Cursor, period: nat, n: nat)
    requires MayStep(job, c, period) && job.pace.speed < 1.0 && !Copying(job.pace.speed, c.timeError)
    requires n == InsertCount(job.pace.speed, period) && n > 0
    ensures var out := Produced(job, c, period);
      && |out| == period + n && Step(job, c, period).position == c.position + n
      && EndsNear(out[period + n - 1], job.input[c.position + n - 1], job.input[c.position + period + n - 1], job.channels, n)
  {
    var window := job.input[c.position..];
    FadeEnds(n, job.channels, window[period..], window);
  }
}
