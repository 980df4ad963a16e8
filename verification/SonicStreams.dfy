/** The libsonic stream: input and output buffers, play time accounting, and the calls that move audio through it. */
module SonicStreams {
  import opened Sequences
  import opened CArith
  import opened RealArith
  import opened Frames
  import opened Tempo
  import opened TempoCode
  import opened PlayLedger
  import opened PitchTracking
  import opened TempoSearch
  import opened TempoStage
  import PitchSearch
  import opened Resampling
  import opened SincTable

  /** The number of frames to copy, as the code computes it. */
  method FramesToCopy(localSpeed: real, samplePeriod: real, timeError: real, available: nat, ghost pace: Pace) returns (n: nat)
    requires Exact(pace) && pace.speed == localSpeed && pace.outputTime == samplePeriod
    requires Copying(localSpeed, timeError)
    ensures n == UntilPast(pace.Gain(), timeError, available)
  {
    CopyFormulaIsUntilPast(pace, timeError, available);
    n := CopyFormula(localSpeed, samplePeriod, timeError, available);
  }

  /** The error after copying n frames, as the code computes it. */
  method ErrorAfterCopy(localSpeed: real, samplePeriod: real, timeError: real, n: nat, ghost pace: Pace) returns (e: real)
    requires Exact(pace) && pace.speed == localSpeed && pace.outputTime == samplePeriod
    ensures e == timeError + NetTime(pace, n, n)
  {
    CopyTimeFormula(pace, n);
    e := timeError + n as real * samplePeriod * (localSpeed - 1.0) / localSpeed;
  }

  /** The error after a period was dropped or repeated, as the code computes it. */
  method ErrorAfterPeriod(samplePeriod: real, playTime: real, numInput: nat, timeError: real, produced: nat, consumed: nat,
                          ghost pace: Pace) returns (e: real)
    requires pace.outputTime == samplePeriod && numInput > 0 && Duration(numInput, pace.inputTime) == playTime
    ensures e == timeError + NetTime(pace, produced, consumed)
  {
    PeriodTimeFormula(pace, numInput, playTime, produced, consumed);
    e := timeError + (produced as real * samplePeriod - consumed as real * playTime / numInput as real);
  }

  /** Raising the pitch is slowing down and then resampling: the speed and the rate of the two stages. */
  function TempoSpeed(speed: real, pitch: real): (s: real)
    requires speed > 0.0 && pitch > 0.0
    ensures s > 0.0
  {
    DivAbove(speed, pitch, 0.0);
    speed / pitch
  }

  function ResampleRate(rate: real, pitch: real): (r: real)
    requires rate > 0.0 && pitch > 0.0
    ensures r > 0.0
  {
    MulPositive(rate, pitch);
    rate * pitch
  }

  method NewConverter(sampleRate: nat, numChannels: nat) returns (c: RateConverter)
    requires sampleRate > 0
    ensures fresh(c) && c.Valid() && c.consumed == 0 && c.pitchBuffer == [] && c.sampleRate == sampleRate && c.channels == numChannels
  {
    c := new RateConverter(sampleRate, numChannels, LibsonicTable());
  }

  /** What the tempo stage of a new stream works on, and what it works with. */
  const FIRST_STATE := TempoState([], 0.0, 0.0, Memory(0, 0))

  /** Silence after the input takes no play time of its own. */
  ghost function WithSilence(before: TempoState, channels: nat, n: nat): TempoState {
    Joined(before, seq(n, _ => Silence(channels)), 0.0)
  }

  function FixedAt(sampleRate: nat, numChannels: nat): Setup
    requires sampleRate > 0
  {
    Setup(Voice(sampleRate, numChannels, 0), 1.0 / sampleRate as real, sampleRate / PitchSearch.MIN_PITCH)
  }

  class SonicStream {
    const sampleRate: nat
    const numChannels: nat
    const samplePeriod: real
    const maxPeriod: nat
    const maxRequired: nat
    const tracker: PitchTracker
    const converter: RateConverter

    var speed: real
    var pitch: real
    var rate: real
    var inputPlayTime: real
    var timeError: real
    var inputBuffer: seq<Frame>
    var outputBuffer: seq<Frame>
    var inputBufferSize: nat
    var outputBufferSize: nat

    /** The account since the stream was created or last flushed. */
    ghost var ledger: Ledger

    /** Everything written and everything read so far, and whether all of it was simply passed on. */
    ghost var received: seq<Frame>
    ghost var delivered: seq<Frame>
    ghost var plain: bool

    /** The frames there were at the last flush, and whether the resampler has been left out since. */
    ghost var base: nat
    ghost var direct: bool

    /** The shape of the buffers and of the tempo stage. */
    ghost predicate Shaped()
      reads this`speed, this`pitch, this`rate, tracker
      reads this`inputBuffer, this`inputBufferSize, this`outputBuffer, this`outputBufferSize
    {
      && tracker.Valid() && tracker.sampleRate == sampleRate && tracker.channels == numChannels
      && numChannels >= 1 && maxPeriod == tracker.maxPeriod && maxPeriod >= 1 && maxRequired == 2 * maxPeriod
      && samplePeriod > 0.0 && speed > 0.0 && pitch > 0.0 && rate > 0.0
      && Framed(inputBuffer, numChannels) && |inputBuffer| <= inputBufferSize
      && Framed(outputBuffer, numChannels) && |outputBuffer| <= outputBufferSize
    }

    /** The shape of the whole stream, which holds even in the middle of a flush. */
    ghost predicate Sound()
      reads this`speed, this`pitch, this`rate, tracker, converter
      reads this`inputBuffer, this`inputBufferSize, this`outputBuffer, this`outputBufferSize
    {
      Shaped() && converter.Valid() && converter.sampleRate == sampleRate && converter.channels == numChannels
    }

    /** The job is what the stream holds, at a pace that spreads the play time evenly over the input. */
    ghost predicate Holds(job: Job)
      reads this
    {
      && job.Valid() && Exact(job.pace) && job.input == inputBuffer && job.channels == numChannels && job.maxPeriod == maxPeriod
      && |inputBuffer| > 0 && job.pace.outputTime == samplePeriod
      && Duration(|inputBuffer|, job.pace.inputTime) == inputPlayTime
    }

    constructor (sampleRate: nat, numChannels: nat)
      requires sampleRate >= PitchSearch.MIN_PITCH && numChannels >= 1
      ensures Valid() && fresh(tracker) && fresh(converter)
      ensures this.sampleRate == sampleRate && this.numChannels == numChannels
      ensures speed == pitch == rate == 1.0 && inputBuffer == outputBuffer == []
      ensures inputPlayTime == timeError == 0.0 && ledger == EMPTY && converter.consumed == 0 && converter.pitchBuffer == []
      ensures received == delivered == [] && plain && direct && base == 0
      ensures State() == FIRST_STATE && Fixed() == FixedAt(sampleRate, numChannels)
    {
      this.sampleRate, this.numChannels := sampleRate, numChannels;
      var max := sampleRate / PitchSearch.MIN_PITCH;
      this.maxPeriod, this.maxRequired := max, 2 * max;
      this.samplePeriod := 1.0 / sampleRate as real;
      inputBufferSize := 2 * max + 2 * max / 4;
      outputBufferSize := 2 * max + 2 * max / 4;
      tracker := new PitchTracker(sampleRate, numChannels);
      var c := NewConverter(sampleRate, numChannels);
      converter := c;
      speed, pitch, rate, inputPlayTime, timeError := 1.0, 1.0, 1.0, 0.0, 0.0;
      inputBuffer, outputBuffer, ledger := [], [], EMPTY;
      received, delivered, plain, base, direct := [], [], true, 0, true;
      new;
      DivAbove(1.0, sampleRate as real, 0.0);
      DurationNonNegative(maxPeriod, samplePeriod);
    }

    /** What the tempo stage works on, and what it works with. */
    ghost function State(): TempoState
      reads this`inputBuffer, this`inputPlayTime, this`timeError, tracker
    {
      TempoState(inputBuffer, inputPlayTime, timeError, tracker.Remembered())
    }

    ghost function Fixed(): Setup
      reads tracker
    {
      Setup(tracker.Settings(), samplePeriod, maxPeriod)
    }

    /** What the tempo stage of this stream makes of some input, and what it leaves behind. */
    ghost predicate Stretches(before: TempoState, out: seq<Frame>, after: TempoState)
      reads tracker
    {
      IsStretched(Fixed(), before, out, after)
    }

    /** Between calls: accounts in balance, little input left, and the records of what went through. */
    ghost predicate Valid()
      reads this, tracker, converter
    {
      && Sound() && Timed() && InBalance()
      && (ledger.moderate ==> |inputBuffer| < maxRequired)
      && Recorded(inputBuffer, outputBuffer, ledger.played)
    }

    /** The records of what went through: a stream that only passed everything on, and one that left the resampler out. */
    ghost predicate Recorded(input: seq<Frame>, output: seq<Frame>, played: nat)
      reads this`plain, this`direct, this`base, this`received, this`delivered
    {
      && (plain ==> input == [] && delivered + output == received)
      && (direct ==> |delivered| + |output| == base + played)
    }

    /** The resampling stage can run, or is not needed. */
    ghost predicate RateReady()
      reads this`rate, this`pitch, converter
    {
      rate > 0.0 && pitch > 0.0 &&
      (ResampleRate(rate, pitch) == 1.0 || converter.Ready(ResampleRate(rate, pitch)))
    }

    // ---- buffers ----

    /** Growing by half plus what is needed makes room for it. */
    method EnlargeOutputBufferIfNeeded(numSamples: nat)
      requires |outputBuffer| <= outputBufferSize
      modifies this`outputBufferSize
      ensures |outputBuffer| + numSamples <= outputBufferSize
      ensures outputBufferSize >= old(outputBufferSize)
    {
      if |outputBuffer| + numSamples > outputBufferSize {
        outputBufferSize := outputBufferSize + outputBufferSize / 2 + numSamples;
      }
    }

    method EnlargeInputBufferIfNeeded(numSamples: nat)
      requires |inputBuffer| <= inputBufferSize
      modifies this`inputBufferSize
      ensures |inputBuffer| + numSamples <= inputBufferSize
      ensures inputBufferSize >= old(inputBufferSize)
    {
      if |inputBuffer| + numSamples > inputBufferSize {
        inputBufferSize := inputBufferSize + inputBufferSize / 2 + numSamples;
      }
    }

    method CopyToOutput(samples: seq<Frame>)
      requires |outputBuffer| <= outputBufferSize
      modifies this`outputBuffer, this`outputBufferSize
      ensures outputBuffer == old(outputBuffer) + samples && |outputBuffer| <= outputBufferSize
    {
      EnlargeOutputBufferIfNeeded(|samples|);
      outputBuffer := outputBuffer + samples;
    }

    /** The resampler makes room for one frame at a time. */
    method CopyToOutputOneByOne(samples: seq<Frame>)
      requires |outputBuffer| <= outputBufferSize
      modifies this`outputBuffer, this`outputBufferSize
      ensures outputBuffer == old(outputBuffer) + samples && |outputBuffer| <= outputBufferSize
    {
      for i := 0 to |samples|
        invariant outputBuffer == old(outputBuffer) + samples[..i] && |outputBuffer| <= outputBufferSize
      {
        CopyToOutput([samples[i]]);
        assert samples[..i] + [samples[i]] == samples[..i + 1];
      }
      assert samples[..|samples|] == samples;
    }

    method RemoveInputSamples(position: nat)
      requires 0 < |inputBuffer| && position <= |inputBuffer|
      modifies this`inputBuffer, this`inputPlayTime
      ensures inputBuffer == old(inputBuffer)[position..]
      ensures inputPlayTime == RemainingTime(old(inputPlayTime), old(|inputBuffer|), |inputBuffer|)
    {
      var remainingSamples := |inputBuffer| - position;
      inputPlayTime := inputPlayTime * remainingSamples as real / |inputBuffer| as real;
      inputBuffer := inputBuffer[position..];
    }

    // ---- one step of the tempo loop ----

    /** Whether the stream stands where the cursor says, with new output after what was there before. */
    ghost predicate StandsAt(c: Cursor, before: seq<Frame>)
      reads this
    {
      outputBuffer == before + c.out && timeError == c.timeError
    }

    method CopyUnmodifiedSamples(localSpeed: real, position: nat, ghost job: Job, ghost c: Cursor, ghost before: seq<Frame>)
      returns (newSamples: nat)
      requires |outputBuffer| <= outputBufferSize && Framed(outputBuffer, numChannels)
      requires Holds(job) && localSpeed == job.pace.speed
      requires c.position == position && StandsAt(c, before)
      requires MayStep(job, c, 0) && Copying(localSpeed, timeError)
      modifies this`outputBuffer, this`outputBufferSize, this`timeError
      ensures |outputBuffer| <= outputBufferSize && Framed(outputBuffer, numChannels)
      ensures StandsAt(Step(job, c, 0), before) && position + newSamples == Step(job, c, 0).position
      ensures newSamples > 0
    {
      FramedTogether(outputBuffer, Produced(job, c, 0), numChannels);
      var available := |inputBuffer| - position;
      newSamples := FramesToCopy(localSpeed, samplePeriod, timeError, available, job.pace);
      CopyToOutput(inputBuffer[position..][..newSamples]);
      timeError := ErrorAfterCopy(localSpeed, samplePeriod, timeError, newSamples, job.pace);
      Associates(before, c.out, Produced(job, c, 0));
    }

    method SkipPitchPeriod(localSpeed: real, position: nat, period: nat) returns (newSamples: nat)
      requires |outputBuffer| <= outputBufferSize && Framed(inputBuffer, numChannels)
      requires localSpeed > 1.0 && position + 2 * period <= |inputBuffer|
      modifies this`outputBuffer, this`outputBufferSize
      ensures newSamples == SkipCount(localSpeed, period)
      ensures outputBuffer == old(outputBuffer)
        + CrossFade(newSamples, numChannels, inputBuffer[position..], inputBuffer[position..][period..])
      ensures |outputBuffer| <= outputBufferSize
      ensures newSamples > 0 ==> outputBuffer[|old(outputBuffer)|] == inputBuffer[position]
    {
      SkipFormulaIsSkipCount(localSpeed, period);
      newSamples := SkipFormula(localSpeed, period);
      EnlargeOutputBufferIfNeeded(newSamples);
      var window := inputBuffer[position..];
      var faded := OverlapAdd(newSamples, numChannels, window, window[period..]);
      if newSamples > 0 {
        FadeFollows(newSamples, numChannels, window, window[period..], 0);
      }
      outputBuffer := outputBuffer + faded;
    }

    method InsertPitchPeriod(localSpeed: real, position: nat, period: nat) returns (newSamples: nat)
      requires |outputBuffer| <= outputBufferSize && Framed(inputBuffer, numChannels)
      requires 0.0 < localSpeed < 1.0 && position + 2 * period <= |inputBuffer|
      modifies this`outputBuffer, this`outputBufferSize
      ensures newSamples == InsertCount(localSpeed, period)
      ensures outputBuffer == old(outputBuffer) + (inputBuffer[position..][..period]
        + CrossFade(newSamples, numChannels, inputBuffer[position..][period..], inputBuffer[position..]))
      ensures |outputBuffer| <= outputBufferSize
      ensures newSamples > 0 ==> outputBuffer[|old(outputBuffer)| + period] == inputBuffer[position + period]
    {
      InsertFormulaIsInsertCount(localSpeed, period);
      newSamples := InsertFormula(localSpeed, period);
      EnlargeOutputBufferIfNeeded(period + newSamples);
      var window := inputBuffer[position..];
      var faded := OverlapAdd(newSamples, numChannels, window[period..], window);
      if newSamples > 0 {
        FadeFollows(newSamples, numChannels, window[period..], window, 0);
      }
      outputBuffer := outputBuffer + (window[..period] + faded);
    }

    /** Dropping a pitch period, or repeating one. */
    method ChangePeriod(localSpeed: real, position: nat, period: nat, ghost job: Job, ghost c: Cursor, ghost before: seq<Frame>)
      returns (newPosition: nat, newSamples: nat)
      requires |outputBuffer| <= outputBufferSize && Framed(inputBuffer, numChannels) && Framed(outputBuffer, numChannels)
      requires Holds(job) && localSpeed == job.pace.speed
      requires c.position == position && StandsAt(c, before)
      requires MayStep(job, c, period) && !Copying(localSpeed, timeError)
      modifies this`outputBuffer, this`outputBufferSize, this`timeError
      ensures |outputBuffer| <= outputBufferSize && Framed(outputBuffer, numChannels)
      ensures StandsAt(Step(job, c, period), before) && newPosition == Step(job, c, period).position
      ensures newSamples == 0 <==> Stalled(job, c, period)
    {
      Associates(before, c.out, Produced(job, c, period));
      FramedTogether(outputBuffer, Produced(job, c, period), numChannels);
      if localSpeed > 1.0 {
        newSamples := SkipPitchPeriod(localSpeed, position, period);
        assert outputBuffer == before + c.out + Produced(job, c, period);
        newPosition := position + period + newSamples;
        if localSpeed < 2.0 {
          timeError := ErrorAfterPeriod(samplePeriod, inputPlayTime, |inputBuffer|, timeError,
                                        newSamples, period + newSamples, job.pace);
        }
      } else {
        newSamples := InsertPitchPeriod(localSpeed, position, period);
        assert outputBuffer == before + c.out + Produced(job, c, period);
        newPosition := position + newSamples;
        if localSpeed > 0.5 {
          timeError := ErrorAfterPeriod(samplePeriod, inputPlayTime, |inputBuffer|, timeError,
                                        period + newSamples, newSamples, job.pace);
        }
      }
    }

    /** The answer of the search for one analysis window. */
    method FindPeriod(position: nat) returns (found: nat)
      requires Shaped() && position + maxRequired <= |inputBuffer|
      modifies tracker
      ensures Shaped() && tracker.Settings() == old(tracker.Settings()) && 1 <= found <= maxPeriod
      ensures Answered(tracker.Settings(), inputBuffer[position..position + maxRequired],
                       old(tracker.Remembered()), tracker.Remembered(), found)
    {
      var window := inputBuffer[position..position + maxRequired];
      ghost var maxDiff;
      found, maxDiff := tracker.FindPitchPeriod(window, true);
      AnswerStands(tracker.Settings(), window, old(tracker.Remembered()), tracker.Remembered(), found, maxDiff);
    }

    /** The body of the loop is one step of the tempo model, with the period that the search answers. */
    method TempoStep(localSpeed: real, position: nat, ghost job: Job, ghost c: Cursor, ghost before: seq<Frame>)
      returns (newPosition: nat, newSamples: nat, ghost period: nat)
      requires Shaped() && Holds(job) && localSpeed == job.pace.speed
      requires position + maxRequired <= |inputBuffer| && c.position == position && StandsAt(c, before)
      modifies this`outputBuffer, this`outputBufferSize, this`timeError, tracker
      ensures Shaped() && tracker.quality == old(tracker.quality)
      ensures StepAnswered(tracker.Settings(), job, c, period, old(tracker.Remembered()), tracker.Remembered())
      ensures newPosition == Step(job, c, period).position && StandsAt(Step(job, c, period), before)
      ensures newSamples == 0 <==> Stalled(job, c, period)
    {
      if (1.0 < localSpeed < 2.0 && timeError < 0.0) || (0.5 < localSpeed < 1.0 && timeError > 0.0) {
        period := 0;
        CopyingAsksNothing(tracker.Settings(), job, c, tracker.Remembered());
        newSamples := CopyUnmodifiedSamples(localSpeed, position, job, c, before);
        newPosition := position + newSamples;
      } else {
        ghost var memory := tracker.Remembered();
        var found := FindPeriod(position);
        period := found;
        AnswerIsStep(tracker.Settings(), job, c, found, memory, tracker.Remembered(), inputBuffer[position..position + maxRequired]);
        newPosition, newSamples := ChangePeriod(localSpeed, position, found, job, c, before);
      }
    }

    // ---- the tempo stage ----

    /** The stage of the loop that a cursor and the memory of the search stand for. */
    ghost function StageAt(c: Cursor, stalled: bool): Stage
      reads tracker
    {
      Stage(c, tracker.Remembered(), stalled)
    }

    /** The loop itself: it runs until less than one analysis window is left, or a step consumes nothing. */
    method TempoLoop(localSpeed: real, ghost job: Job)
      returns (ok: bool, position: nat, ghost d: Cursor)
      requires Shaped() && Holds(job) && localSpeed == job.pace.speed && maxRequired <= |inputBuffer|
      modifies this`outputBuffer, this`outputBufferSize, this`timeError, tracker
      ensures Shaped() && tracker.quality == old(tracker.quality) && old(outputBuffer) <= outputBuffer
      ensures Reaches(tracker.Settings(), job, StartOf(old(State())), StageAt(d, !ok)) && StandsAt(d, old(outputBuffer))
      ensures ok ==> position == d.position
      ensures ok ==> position <= |inputBuffer| < position + maxRequired
      ensures ModerateSpeed(localSpeed) ==> ok
    {
      ghost var before, start, voice := outputBuffer, StartOf(State()), tracker.Settings();
      ghost var turns: nat := 0;
      d := start.cursor;
      ok, position := true, 0;
      while position + maxRequired <= |inputBuffer|
        invariant Shaped() && Holds(job) && tracker.quality == old(tracker.quality) && tracker.Settings() == voice
        invariant Leads(voice, job, start, StageAt(d, false), turns) && StandsAt(d, before)
        invariant d.position == position <= |inputBuffer|
        decreases |inputBuffer| - position
      {
        ghost var here := StageAt(d, false);
        var newPosition, newSamples;
        ghost var period;
        newPosition, newSamples, period := TempoStep(localSpeed, position, job, d, before);
        StepAdvances(job, d, period);
        ghost var next := OneMoreTurn(voice, job, start, here, turns, period, tracker.Remembered());
        turns, d, position := turns + 1, Step(job, d, period), newPosition;
        if newSamples == 0 {
          ok := false;
          break;
        }
      }
      EndIsReached(voice, job, start, StageAt(d, !ok), turns);
    }

    /** Resample as many pitch periods as the input holds. Where the loop gives up the input stays. */
    method ChangeSpeed(localSpeed: real, ghost job: Job) returns (ok: bool, ghost d: Cursor)
      requires Shaped() && Holds(job) && localSpeed == job.pace.speed
      modifies this`inputBuffer, this`inputPlayTime, this`outputBuffer, this`outputBufferSize, this`timeError, tracker
      ensures Shaped() && tracker.quality == old(tracker.quality) && old(outputBuffer) <= outputBuffer
      ensures Reaches(tracker.Settings(), job, StartOf(old(State())), StageAt(d, !ok)) && StandsAt(d, old(outputBuffer))
      ensures ok ==> d.position <= |job.input| && inputBuffer == job.input[d.position..]
      ensures ok ==> |inputBuffer| < maxRequired
      ensures ok ==> inputPlayTime == Duration(|inputBuffer|, job.pace.inputTime)
      ensures !ok ==> inputBuffer == old(inputBuffer) && inputPlayTime == old(inputPlayTime)
      ensures ModerateSpeed(localSpeed) ==> ok
      ensures old(|inputBuffer|) < maxRequired ==> ok && d == Cursor(0, [], old(timeError))
    {
      if |inputBuffer| < maxRequired {
        ok, d := true, Cursor(0, [], timeError);
        EndIsReached(tracker.Settings(), job, StartOf(State()), StageAt(d, false), 0);
        return;
      }
      var position;
      ok, position, d := TempoLoop(localSpeed, job);
      if ok {
        RemainingIsDuration(|inputBuffer|, inputPlayTime, |inputBuffer| - position, job.pace.inputTime);
        RemoveInputSamples(position);
      }
    }

    /** The effect of a call on the time error, in figures. */
    method ChangeSpeedOnTime(localSpeed: real, ghost job: Job) returns (ok: bool)
      requires Shaped() && Holds(job) && localSpeed == job.pace.speed && inputPlayTime > 0.0
      requires localSpeed == LocalSpeed(samplePeriod, |inputBuffer|, inputPlayTime) && !Neutral(localSpeed)
      modifies this`inputBuffer, this`inputPlayTime, this`outputBuffer, this`outputBufferSize, this`timeError, tracker
      ensures Shaped() && tracker.quality == old(tracker.quality) && old(outputBuffer) <= outputBuffer
      ensures Stretches(old(State()), outputBuffer[|old(outputBuffer)|..], State())
      ensures |inputBuffer| <= old(|inputBuffer|)
      ensures ok ==> inputPlayTime == Duration(|inputBuffer|, job.pace.inputTime) && |inputBuffer| < maxRequired
      ensures !ok ==> inputBuffer == old(inputBuffer) && inputPlayTime == old(inputPlayTime)
      ensures ModerateSpeed(localSpeed) || old(|inputBuffer|) < maxRequired ==>
        && ok && timeError - old(timeError) == NetTime(job.pace, |outputBuffer| - |old(outputBuffer)|, |old(inputBuffer)| - |inputBuffer|)
        && (OnTime(job, old(timeError)) ==> OnTime(job, timeError))
    {
      ghost var start := StartOf(State());
      ghost var d;
      ok, d := ChangeSpeed(localSpeed, job);
      CallKeepsTime(tracker.Settings(), job, start, StageAt(d, !ok));
      assert outputBuffer[|old(outputBuffer)|..] == d.out;
      LoopOutput(Fixed(), old(State()), State(), job, StageAt(d, !ok));
    }

    /** The accounts of the stream. */
    ghost predicate InBalance()
      reads this`ledger, this`inputBuffer, this`inputPlayTime, this`timeError
    {
      Balanced(ledger, samplePeriod, maxPeriod, inputPlayTime, timeError)
    }

    /** Only an empty buffer has no play time. */
    ghost predicate Timed()
      reads this`inputBuffer, this`inputPlayTime
    {
      inputPlayTime >= 0.0 && (inputPlayTime == 0.0 <==> inputBuffer == [])
    }

    /** All waiting input was written at one speed. */
    ghost predicate WaitsAt(v: real)
      reads this`inputBuffer, this`inputPlayTime
    {
      PlaysAt(samplePeriod, |inputBuffer|, inputPlayTime, v)
    }

    /** The account after a pass. */
    ghost function Passed(before: Ledger, waiting: nat, playTime: real, produced: nat): Ledger {
      AfterPass(before, samplePeriod, maxRequired, waiting, playTime, produced)
    }

    /** The tempo loop with its account. */
    method StretchAtPace(localSpeed: real) returns (ghost stretched: seq<Frame>)
      requires Shaped() && |inputBuffer| > 0 && inputPlayTime > 0.0
      requires localSpeed == LocalSpeed(samplePeriod, |inputBuffer|, inputPlayTime) && !Neutral(localSpeed)
      modifies this`inputBuffer, this`inputPlayTime, this`outputBuffer, this`outputBufferSize, this`timeError, this`ledger, tracker
      ensures Shaped() && Timed() && tracker.quality == old(tracker.quality) && outputBuffer == old(outputBuffer) + stretched
      ensures Stretches(old(State()), stretched, State())
      ensures ledger == Passed(old(ledger), old(|inputBuffer|), old(inputPlayTime), |stretched|)
      ensures old(InBalance()) ==> InBalance()
      ensures ledger.moderate ==> |inputBuffer| < maxRequired
      ensures forall v :: old(WaitsAt(v)) ==> WaitsAt(v)
    {
      ghost var pace := FindPace(samplePeriod, |inputBuffer|, inputPlayTime);
      ghost var job := Job(inputBuffer, numChannels, pace, maxPeriod);
      ghost var before := ledger;
      var ok := ChangeSpeedOnTime(localSpeed, job);
      stretched := outputBuffer[|old(outputBuffer)|..];
      if ok {
        RestOfInput(pace, |job.input|, |inputBuffer|);
      }
      ledger := Passed(ledger, |job.input|, old(inputPlayTime), |stretched|);
      if ledger.moderate && old(InBalance()) {
        TempoKeepsBalance(before, ledger, pace, maxPeriod, |job.input|, old(timeError), |stretched|, |inputBuffer|, timeError);
      }
    }

    method CopyInputToOutput()
      requires Shaped() && |inputBuffer| > 0
      modifies this`inputBuffer, this`inputPlayTime, this`outputBuffer, this`outputBufferSize
      ensures Shaped() && outputBuffer == old(outputBuffer) + old(inputBuffer)
      ensures inputBuffer == [] && inputPlayTime == 0.0
    {
      FramedTogether(outputBuffer, inputBuffer, numChannels);
      CopyToOutput(inputBuffer);
      RemoveInputSamples(|inputBuffer|);
      NothingRemains(old(inputPlayTime), old(|inputBuffer|));
    }

    /** The tempo stage: copy at normal speed, stretch or squeeze otherwise. */
    method StretchInput() returns (ghost stretched: seq<Frame>)
      requires Shaped() && |inputBuffer| > 0 && inputPlayTime >= 0.0
      modifies this`inputBuffer, this`inputPlayTime, this`outputBuffer, this`outputBufferSize, this`timeError, this`ledger, tracker
      ensures Shaped() && tracker.quality == old(tracker.quality) && outputBuffer == old(outputBuffer) + stretched
      ensures Stretches(old(State()), stretched, State())
      ensures ledger == Passed(old(ledger), old(|inputBuffer|), old(inputPlayTime), |stretched|)
      ensures old(inputPlayTime) > 0.0 ==> Timed() && (old(InBalance()) ==> InBalance())
      ensures old(inputPlayTime) > 0.0 && ledger.moderate ==> |inputBuffer| < maxRequired
      ensures old(inputPlayTime) > 0.0 ==> forall v :: old(WaitsAt(v)) ==> WaitsAt(v)
      ensures old(inputPlayTime) > 0.0 && Neutral(LocalSpeed(samplePeriod, old(|inputBuffer|), old(inputPlayTime))) ==>
        stretched == old(inputBuffer) && inputBuffer == []
    {
      if inputPlayTime == 0.0 {
        stretched := [];
        SearchOnly();
        return;
      }
      var localSpeed := LocalSpeed(samplePeriod, |inputBuffer|, inputPlayTime);
      if !Neutral(localSpeed) {
        stretched := StretchAtPace(localSpeed);
      } else {
        stretched := CopyInput();
      }
    }

    /** Copying with its account. */
    method CopyInput() returns (ghost stretched: seq<Frame>)
      requires Shaped() && |inputBuffer| > 0 && inputPlayTime > 0.0
      requires Neutral(LocalSpeed(samplePeriod, |inputBuffer|, inputPlayTime))
      modifies this`inputBuffer, this`inputPlayTime, this`outputBuffer, this`outputBufferSize, this`ledger
      ensures Shaped() && inputBuffer == [] && inputPlayTime == 0.0
      ensures stretched == old(inputBuffer) && outputBuffer == old(outputBuffer) + stretched
      ensures Stretches(old(State()), stretched, State())
      ensures ledger == Passed(old(ledger), old(|inputBuffer|), old(inputPlayTime), |stretched|)
      ensures old(InBalance()) ==> InBalance()
      ensures forall v :: old(WaitsAt(v)) ==> WaitsAt(v)
    {
      if InBalance() {
        CopyKeepsBalance(ledger, samplePeriod, maxPeriod, maxRequired, |inputBuffer|, inputPlayTime, timeError);
      }
      stretched := inputBuffer;
      ledger := Passed(ledger, |inputBuffer|, inputPlayTime, |inputBuffer|);
      CopyInputToOutput();
      StretchedMeans(Fixed(), old(State()), stretched, State());
    }

    /** Input without any play time is infinitely fast: a period is looked for, none of it is played, and the loop gives up. */
    method SearchOnly()
      requires Shaped() && inputPlayTime <= 0.0
      modifies tracker
      ensures Shaped() && tracker.quality == old(tracker.quality)
      ensures Stretches(old(State()), [], State())
    {
      if |inputBuffer| >= maxRequired {
        var found := FindPeriod(0);
      }
      StretchedMeans(Fixed(), old(State()), [], State());
    }

    // ---- processing ----

    /** New output of the tempo stage goes through the resampler, if the rate is not 1. */
    method ResampleOutput(original: nat)
      requires Sound() && original <= |outputBuffer| && converter.Ready(ResampleRate(rate, pitch))
      modifies this`outputBuffer, this`outputBufferSize, converter
      ensures Sound() && converter.Ready(ResampleRate(rate, pitch))
      ensures converter.heard == old(converter.heard) + old(outputBuffer[original..])
      ensures converter.inputStart == old(converter.inputStart) && converter.outputStart == old(converter.outputStart)
      ensures old(outputBuffer[..original]) <= outputBuffer
      ensures converter.emitted == old(converter.emitted) + outputBuffer[original..]
    {
      var arrived := outputBuffer[original..];
      outputBuffer := outputBuffer[..original];
      var out := converter.AdjustRate(ResampleRate(rate, pitch), arrived);
      FramedTogether(outputBuffer, out, numChannels);
      CopyToOutputOneByOne(out);
    }

    /** The resampler has heard more, and the output has got what it made of it. */
    ghost predicate Resampled(heard: seq<Frame>, emitted: seq<Frame>, original: nat, stretched: seq<Frame>)
      reads this`outputBuffer, converter
    {
      && converter.heard == heard + stretched && original <= |outputBuffer|
      && converter.emitted == emitted + outputBuffer[original..]
    }

    /** Whatever the tempo stage produces reaches the output, directly or through the resampler. */
    method ProcessStreamInput() returns (ghost stretched: seq<Frame>)
      requires Sound() && inputPlayTime >= 0.0 && RateReady()
      modifies this`inputBuffer, this`inputPlayTime, this`outputBuffer, this`outputBufferSize, this`timeError, this`ledger
      modifies tracker, converter
      ensures Sound() && tracker.quality == old(tracker.quality) && RateReady() && old(outputBuffer) <= outputBuffer
      ensures Stretches(old(State()), stretched, State())
      ensures old(inputBuffer) == [] ==> stretched == [] && unchanged(this) && unchanged(converter)
      ensures ledger == Passed(old(ledger), old(|inputBuffer|), old(inputPlayTime), |stretched|)
      ensures old(Timed()) ==> Timed() && (old(InBalance()) ==> InBalance())
      ensures old(Timed()) && ledger.moderate ==> |inputBuffer| < maxRequired
      ensures old(Timed()) ==> forall v :: old(WaitsAt(v)) ==> WaitsAt(v)
      ensures old(inputPlayTime) > 0.0 && old(inputBuffer) != [] && Neutral(LocalSpeed(samplePeriod, old(|inputBuffer|), old(inputPlayTime))) ==>
        stretched == old(inputBuffer) && inputBuffer == []
      ensures ResampleRate(rate, pitch) == 1.0 ==> outputBuffer == old(outputBuffer) + stretched && unchanged(converter)
      ensures ResampleRate(rate, pitch) != 1.0 ==> Resampled(old(converter.heard), old(converter.emitted), |old(outputBuffer)|, stretched)
    {
      if |inputBuffer| == 0 {
        stretched := [];
        StretchedMeans(Fixed(), State(), [], State());
        return;
      }
      var original := |outputBuffer|;
      stretched := StretchInput();
      assert outputBuffer[original..] == stretched && outputBuffer[..original] == old(outputBuffer);
      if ResampleRate(rate, pitch) != 1.0 {
        ResampleOutput(original);
      }
    }

    // ---- the interface ----

    method SetSpeed(newSpeed: real)
      requires Valid() && newSpeed > 0.0
      modifies this`speed
      ensures Valid() && speed == newSpeed
    {
      speed := newSpeed;
    }

    /** Setting the pitch leaves the positions of the resampler alone. */
    method SetPitch(newPitch: real)
      requires Valid() && newPitch > 0.0
      modifies this`pitch
      ensures Valid() && pitch == newPitch
    {
      pitch := newPitch;
    }

    /** Setting the rate sets them to zero, and readies the resampler unless halving the rates loses the input rate. */
    method SetRate(newRate: real)
      requires Valid() && newRate > 0.0
      modifies this`rate, converter
      ensures Valid() && rate == newRate && converter.consumed == 0
      ensures RateReady() <==>
        ResampleRate(rate, pitch) == 1.0 || ScaledRates(sampleRate, ResampleRate(rate, pitch)).input > 0
    {
      rate := newRate;
      converter.ResetPhase();
    }

    method SetQuality(newQuality: int)
      requires Valid()
      modifies tracker
      ensures Valid() && State() == old(State()) && Fixed() == old(Fixed()).(voice := old(Fixed()).voice.(quality := newQuality))
    {
      tracker.SetQuality(newQuality);
    }

    /** New samples bring the play time with them that they should take at the speed of the moment. */
    method AddSamplesToInputBuffer(samples: seq<Frame>)
      requires Sound() && Timed() && Framed(samples, numChannels)
      modifies this`inputBuffer, this`inputBufferSize, this`inputPlayTime, this`ledger
      ensures Sound() && Timed() && inputBuffer == old(inputBuffer) + samples
      ensures var v := TempoSpeed(speed, pitch);
        && inputPlayTime == old(inputPlayTime) + WriteTime(samplePeriod, |samples|, v)
        && ledger == Written(old(ledger), WriteTime(samplePeriod, |samples|, v))
        && (old(InBalance()) ==> InBalance())
    {
      var v := TempoSpeed(speed, pitch);
      WriteTimeSign(samplePeriod, |samples|, v);
      if samples == [] {
        assert inputBuffer + samples == inputBuffer;
        return;
      }
      if InBalance() {
        WriteKeepsBalance(ledger, samplePeriod, maxPeriod, inputPlayTime, timeError, WriteTime(samplePeriod, |samples|, v));
      }
      FramedTogether(inputBuffer, samples, numChannels);
      EnlargeInputBufferIfNeeded(|samples|);
      inputBuffer := inputBuffer + samples;
      inputPlayTime := inputPlayTime + WriteTime(samplePeriod, |samples|, v);
      ledger := Written(ledger, WriteTime(samplePeriod, |samples|, v));
    }

    /** The account after n frames were written and processed; `waiting` counts them with what was there before. */
    ghost predicate AccountedFor(before: Ledger, oldTime: real, waiting: nat, n: nat, v: real, played: nat)
      requires v > 0.0
      reads this`ledger
    {
      var time := WriteTime(samplePeriod, n, v);
      && ledger == Passed(Written(before, time), waiting, oldTime + time, played)
      && (waiting > 0 ==> oldTime + time > 0.0)
    }

    /** What is left of the input still plays at the speed at which all of it was processed. */
    ghost predicate KeepsPace(oldTime: real, waiting: nat, n: nat, v: real)
      requires v > 0.0
      reads this`inputBuffer, this`inputPlayTime
    {
      var time := oldTime + WriteTime(samplePeriod, n, v);
      && (waiting == 0 ==> inputBuffer == [])
      && (waiting > 0 && time > 0.0 ==> WaitsAt(LocalSpeed(samplePeriod, waiting, time)))
    }

    /** Adding samples and processing what is there. */
    method WriteThrough(samples: seq<Frame>) returns (ghost stretched: seq<Frame>)
      requires Sound() && Timed() && InBalance() && RateReady() && Framed(samples, numChannels)
      modifies this`inputBuffer, this`inputBufferSize, this`inputPlayTime, this`outputBuffer, this`outputBufferSize
      modifies this`timeError, this`ledger, tracker, converter
      ensures Sound() && tracker.quality == old(tracker.quality) && Timed() && InBalance() && RateReady()
      ensures old(outputBuffer) <= outputBuffer
      ensures ledger.moderate ==> |inputBuffer| < maxRequired
      ensures AccountedFor(old(ledger), old(inputPlayTime), old(|inputBuffer|) + |samples|, |samples|, TempoSpeed(speed, pitch), |stretched|)
      ensures KeepsPace(old(inputPlayTime), old(|inputBuffer|) + |samples|, |samples|, TempoSpeed(speed, pitch))
      ensures Stretches(Joined(old(State()), samples, WriteTime(samplePeriod, |samples|, TempoSpeed(speed, pitch))), stretched, State())
      ensures ResampleRate(rate, pitch) == 1.0 ==> outputBuffer == old(outputBuffer) + stretched && unchanged(converter)
      ensures ResampleRate(rate, pitch) != 1.0 ==> Resampled(old(converter.heard), old(converter.emitted), |old(outputBuffer)|, stretched)
      ensures old(inputBuffer) == [] && (samples == [] || TempoSpeed(speed, pitch) == 1.0) ==>
        stretched == samples && inputBuffer == []
      ensures old(inputBuffer) == [] && samples == [] ==> outputBuffer == old(outputBuffer)
    {
      ghost var empty := inputBuffer == [];
      AddSamplesToInputBuffer(samples);
      if empty && samples != [] && TempoSpeed(speed, pitch) == 1.0 {
        PlainIsNeutral(samplePeriod, |samples|, inputPlayTime);
        assert inputBuffer == samples;
      }
      if inputBuffer != [] {
        PlaysAtOwnSpeed(samplePeriod, |inputBuffer|, inputPlayTime);
      }
      stretched := ProcessStreamInput();
    }

    /**
     * Writing keeps the accounts in balance at every speed, and says how they change: the time promised, the
     * frames played, and the slack if the input was copied at a speed not quite 1.
     */
    method Write(samples: seq<Frame>) returns (ghost stretched: seq<Frame>)
      requires Valid() && RateReady() && Framed(samples, numChannels)
      modifies this, tracker, converter
      ensures Valid() && RateReady() && speed == old(speed) && pitch == old(pitch) && rate == old(rate)
      ensures tracker.quality == old(tracker.quality)
      ensures received == old(received) + samples && delivered == old(delivered) && base == old(base)
      ensures old(outputBuffer) <= outputBuffer
      ensures AccountedFor(old(ledger), old(inputPlayTime), old(|inputBuffer|) + |samples|, |samples|, TempoSpeed(speed, pitch), |stretched|)
      ensures KeepsPace(old(inputPlayTime), old(|inputBuffer|) + |samples|, |samples|, TempoSpeed(speed, pitch))
      ensures Stretches(Joined(old(State()), samples, WriteTime(samplePeriod, |samples|, TempoSpeed(speed, pitch))), stretched, State())
      ensures direct == (old(direct) && ResampleRate(rate, pitch) == 1.0)
      ensures plain == (old(plain) && (samples == [] || (TempoSpeed(speed, pitch) == 1.0 && ResampleRate(rate, pitch) == 1.0)))
      ensures ResampleRate(rate, pitch) == 1.0 ==> outputBuffer == old(outputBuffer) + stretched && unchanged(converter)
      ensures ResampleRate(rate, pitch) != 1.0 ==> Resampled(old(converter.heard), old(converter.emitted), |old(outputBuffer)|, stretched)
    {
      ghost var before, playedBefore := outputBuffer, ledger.played;
      ghost var normalSpeed, normalRate := TempoSpeed(speed, pitch) == 1.0, ResampleRate(rate, pitch) == 1.0;
      ghost var wasEmpty := inputBuffer == [];
      stretched := WriteThrough(samples);
      assert Recorded(if wasEmpty then [] else old(inputBuffer), before, playedBefore);
      RecordWrite(samples, normalSpeed, normalRate, before, playedBefore, stretched, wasEmpty);
    }

    ghost method RecordWrite(samples: seq<Frame>, normalSpeed: bool, normalRate: bool,
                             before: seq<Frame>, playedBefore: nat, stretched: seq<Frame>, wasEmpty: bool)
      requires plain ==> wasEmpty && delivered + before == received
      requires direct ==> |delivered| + |before| == base + playedBefore
      requires ledger.played == playedBefore + |stretched|
      requires normalRate ==> outputBuffer == before + stretched
      requires wasEmpty && (samples == [] || normalSpeed) ==> stretched == samples && inputBuffer == []
      requires wasEmpty && samples == [] ==> outputBuffer == before
      modifies this`received, this`plain, this`direct
      ensures received == old(received) + samples
      ensures plain == (old(plain) && (samples == [] || (normalSpeed && normalRate)))
      ensures direct == (old(direct) && normalRate)
      ensures Recorded(inputBuffer, outputBuffer, ledger.played)
    {
      Associates(delivered, before, samples);
      received := received + samples;
      plain := plain && (samples == [] || (normalSpeed && normalRate));
      direct := direct && normalRate;
    }

    /** Reading takes frames from the front of the output. */
    method Read(maxSamples: nat) returns (samples: seq<Frame>)
      requires Valid()
      modifies this`outputBuffer, this`delivered
      ensures Valid()
      ensures samples + outputBuffer == old(outputBuffer) && delivered == old(delivered) + samples
      ensures Framed(samples, numChannels)
      ensures |samples| == if old(|outputBuffer|) <= maxSamples then old(|outputBuffer|) else maxSamples
    {
      var numSamples := |outputBuffer|;
      if numSamples > maxSamples {
        numSamples := maxSamples;
      }
      samples := outputBuffer[..numSamples];
      Associates(delivered, samples, outputBuffer[numSamples..]);
      assert samples + outputBuffer[numSamples..] == outputBuffer;
      outputBuffer := outputBuffer[numSamples..];
      delivered := delivered + samples;
    }

    /** The number of output frames that a flush allows for the frames that are waiting. */
    function AllowedByFlush(): nat
      requires speed > 0.0 && pitch > 0.0 && rate > 0.0
      reads this, converter
    {
      FlushAllowance(|inputBuffer|, |converter.pitchBuffer|, TempoSpeed(speed, pitch), ResampleRate(rate, pitch))
    }

    /** What comes out when silence follows the waiting input: that much of it is kept which the flush allows. */
    ghost predicate Flushes(before: TempoState, stretched: seq<Frame>, after: TempoState)
      reads tracker
    {
      Stretches(WithSilence(before, numChannels, 2 * maxRequired), stretched, after)
    }

    /** Two analysis windows of silence. */
    method AddSilence()
      requires Shaped()
      modifies this`inputBuffer, this`inputBufferSize
      ensures Shaped() && State() == WithSilence(old(State()), numChannels, 2 * maxRequired)
    {
      var silence := seq(2 * maxRequired, _ => Silence(numChannels));
      FramedTogether(inputBuffer, silence, numChannels);
      EnlargeInputBufferIfNeeded(|inputBuffer| + 2 * maxRequired);
      inputBuffer := inputBuffer + silence;
    }

    /** Silence is processed after the input, and output beyond what is expected is cut. */
    method FlushThrough() returns (ghost stretched: seq<Frame>, ghost made: seq<Frame>)
      requires Sound() && Timed() && RateReady()
      modifies this`inputBuffer, this`inputBufferSize, this`inputPlayTime, this`outputBuffer, this`outputBufferSize
      modifies this`timeError, this`ledger, tracker, converter
      ensures Sound() && RateReady()
      ensures tracker.quality == old(tracker.quality) && Flushes(old(State()), stretched, State())
      ensures ResampleRate(rate, pitch) == 1.0 ==> made == stretched
      ensures ResampleRate(rate, pitch) != 1.0 ==>
        converter.heard == old(converter.heard) + stretched && converter.emitted == old(converter.emitted) + made
      ensures outputBuffer == old(outputBuffer) + Front(made, old(AllowedByFlush()))
    {
      var expectedOutputSamples := |outputBuffer| + AllowedByFlush();
      stretched, made := ProcessWithSilence();
      ghost var original := |old(outputBuffer)|;
      assert outputBuffer[..original] == old(outputBuffer) && outputBuffer[original..] == made;
      CutOutput(original, expectedOutputSamples);
    }

    method ProcessWithSilence() returns (ghost stretched: seq<Frame>, ghost made: seq<Frame>)
      requires Sound() && Timed() && RateReady()
      modifies this`inputBuffer, this`inputBufferSize, this`inputPlayTime, this`outputBuffer, this`outputBufferSize
      modifies this`timeError, this`ledger, tracker, converter
      ensures Sound() && RateReady()
      ensures tracker.quality == old(tracker.quality) && Flushes(old(State()), stretched, State())
      ensures ResampleRate(rate, pitch) == 1.0 ==> made == stretched
      ensures ResampleRate(rate, pitch) != 1.0 ==>
        converter.heard == old(converter.heard) + stretched && converter.emitted == old(converter.emitted) + made
      ensures outputBuffer == old(outputBuffer) + made
    {
      AddSilence();
      stretched := ProcessStreamInput();
      made := outputBuffer[|old(outputBuffer)|..];
    }

    /** Throw away what is beyond the expected output. */
    method CutOutput(ghost original: nat, expectedOutputSamples: nat)
      requires original <= expectedOutputSamples && original <= |outputBuffer| <= outputBufferSize
      requires Framed(outputBuffer, numChannels)
      modifies this`outputBuffer
      ensures |outputBuffer| <= outputBufferSize && Framed(outputBuffer, numChannels)
      ensures outputBuffer == old(outputBuffer)[..original] + Front(old(outputBuffer)[original..], expectedOutputSamples - original)
    {
      if |outputBuffer| > expectedOutputSamples {
        outputBuffer := outputBuffer[..expectedOutputSamples];
      }
    }

    /** Push silence after the input until everything is out, and cut what is too much. */
    method Flush() returns (ghost stretched: seq<Frame>, ghost made: seq<Frame>, ghost last: TempoState)
      requires Valid() && RateReady()
      modifies this, tracker, converter
      ensures Valid() && speed == old(speed) && pitch == old(pitch) && rate == old(rate)
      ensures inputBuffer == [] && converter.pitchBuffer == [] && ledger == EMPTY && timeError == 0.0
      ensures tracker.quality == old(tracker.quality)
      ensures Flushes(old(State()), stretched, last) && last.memory == tracker.Remembered()
      ensures ResampleRate(rate, pitch) == 1.0 ==> made == stretched
      ensures outputBuffer == old(outputBuffer) + Front(made, old(AllowedByFlush()))
      ensures received == old(received) && delivered == old(delivered) && base == |delivered| + |outputBuffer| && direct
    {
      stretched, made := FlushThrough();
      last := State();
      StartAfresh();
    }

    /** Input and pitch buffer are emptied, and new accounts are opened. */
    method StartAfresh()
      requires Sound()
      modifies this`inputBuffer, this`inputPlayTime, this`timeError, this`ledger, this`plain, this`direct, this`base, converter
      ensures Valid()
      ensures inputBuffer == [] && converter.pitchBuffer == [] && ledger == EMPTY && timeError == 0.0
      ensures base == |delivered| + |outputBuffer| && direct && !plain
    {
      converter.Clear();
      inputBuffer, inputPlayTime, timeError := [], 0.0, 0.0;
      ledger, plain, direct, base := EMPTY, false, true, |delivered| + |outputBuffer|;
      DurationNonNegative(maxPeriod, samplePeriod);
    }
  }

  /** Up to n frames from the front. */
  ghost function Front(frames: seq<Frame>, n: nat): (front: seq<Frame>)
    ensures |front| <= n && front <= frames
  {
    if |frames| <= n then frames else frames[..n]
  }

  function FlushAllowance(numInput: nat, numPitch: nat, tempoSpeed: real, resampleRate: real): nat
    requires tempoSpeed > 0.0 && resampleRate > 0.0
  {
    DivAtLeast(numInput as real, tempoSpeed, 0.0);
    DivAtLeast(numInput as real / tempoSpeed + numPitch as real, resampleRate, 0.0);
    Trunc((numInput as real / tempoSpeed + numPitch as real) / resampleRate + 0.5)
  }

  lemma WriteTimeSign(samplePeriod: real, n: nat, speed: real)
    requires samplePeriod > 0.0 && speed > 0.0
    ensures WriteTime(samplePeriod, n, speed) >= 0.0
    ensures WriteTime(samplePeriod, n, speed) == 0.0 <==> n == 0
  {
    WriteTimeIsDuration(samplePeriod, n, speed);
    DivAbove(samplePeriod, speed, 0.0);
    if n > 0 {
      DurationPositive(n, samplePeriod / speed);
    }
  }

  /** Frames written at speed 1 into an empty buffer have a local speed of 1. */
  lemma PlainIsNeutral(samplePeriod: real, n: nat, time: real)
    requires samplePeriod > 0.0 && n > 0 && time == WriteTime(samplePeriod, n, 1.0)
    ensures time > 0.0 && LocalSpeed(samplePeriod, n, time) == 1.0
  {
    MulPositive(n as real, samplePeriod);
    DivUnique(n as real * samplePeriod, 1.0, n as real * samplePeriod);
    DivUnique(n as real * samplePeriod, time, 1.0);
  }

  lemma NothingRemains(playTime: real, numInput: nat)
    requires numInput > 0
    ensures RemainingTime(playTime, numInput, 0) == 0.0
  {
    DivUnique(playTime * 0.0, numInput as real, 0.0);
  }

  /** A flush allows for the output that is due, rounded to the nearest frame. */
  lemma AllowanceIsNearest(numInput: nat, numPitch: nat, tempoSpeed: real, resampleRate: real, due: real)
    requires tempoSpeed > 0.0 && resampleRate > 0.0
    requires due == (numInput as real / tempoSpeed + numPitch as real) / resampleRate
    ensures FlushAllowance(numInput, numPitch, tempoSpeed, resampleRate) as real - 0.5 <= due
         < FlushAllowance(numInput, numPitch, tempoSpeed, resampleRate) as real + 0.5
  {
    DivAtLeast(numInput as real, tempoSpeed, 0.0);
    DivAtLeast(numInput as real / tempoSpeed + numPitch as real, resampleRate, 0.0);
  }

  /** Changing the pitch leaves the length alone. */
  lemma PitchKeepsLength(speed: real, pitch: real, rate: real)
    requires speed > 0.0 && pitch > 0.0 && rate > 0.0
    ensures TempoSpeed(speed, pitch) * ResampleRate(rate, pitch) == speed * rate
  {
    var s := TempoSpeed(speed, pitch);
    DivMul(speed, pitch);
    assert s * pitch == speed;
    MoveFactor(s, pitch, rate);
  }

  /** A higher pitch slows the tempo stage down and makes the resampler go faster, and a lower one does the opposite. */
  lemma PitchSharesSpeed(speed: real, pitch: real, rate: real)
    requires speed > 0.0 && pitch > 0.0 && rate > 0.0
    ensures pitch > 1.0 ==> TempoSpeed(speed, pitch) < speed && rate < ResampleRate(rate, pitch)
    ensures pitch < 1.0 ==> speed < TempoSpeed(speed, pitch) && ResampleRate(rate, pitch) < rate
  {
    var s := TempoSpeed(speed, pitch);
    DivMul(speed, pitch);
    SharedFactor(s, speed, pitch, rate, ResampleRate(rate, pitch));
  }
}
