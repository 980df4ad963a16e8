/**
 * The tempo stage as a function: what a pass over the waiting input puts out, and what it leaves behind.
 * A pass copies the input, or runs the tempo loop, whose periods are the answers of the pitch search.
 */
module TempoStage {
  import opened Frames
  import opened Tempo
  import opened TempoCode
  import opened PlayLedger
  import opened PitchTracking
  import opened TempoSearch

  /** What a pass works on and changes. */
  datatype TempoState = TempoState(input: seq<Frame>, playTime: real, timeError: real, memory: Memory)

  /** What stays fixed. */
  datatype Setup = Setup(voice: Voice, samplePeriod: real, maxPeriod: nat)

  /** More input, and the play time it brings. */
  ghost function Joined(before: TempoState, samples: seq<Frame>, time: real): TempoState {
    before.(input := before.input + samples, playTime := before.playTime + time)
  }

  lemma {:induction false} DurationPositive(n: nat, each: real)
    requires n > 0 && each > 0.0
    ensures Duration(n, each) > 0.0
  {
    if n > 1 {
      DurationPositive(n - 1, each);
    }
  }

  /** What a call of the loop does to the time error, and where it can end. */
  lemma CallKeepsTime(voice: Voice, job: Job, x: Stage, y: Stage)
    requires job.Valid() && x.cursor.position == 0 && !x.stalled && Reaches(voice, job, x, y)
    ensures ModerateSpeed(job.pace.speed) ==> Conserves(job.pace, x.cursor, y.cursor)
    ensures ModerateSpeed(job.pace.speed) && OnTime(job, x.cursor.timeError) ==> OnTime(job, y.cursor.timeError)
    ensures y.cursor.position <= |job.input| && x.cursor.out <= y.cursor.out
  {
    var periods := ReachedByRun(voice, job, x, y);
    RunAdvances(job, x.cursor, periods);
    if ModerateSpeed(job.pace.speed) {
      RunConserves(job, x.cursor, periods);
      if OnTime(job, x.cursor.timeError) {
        RunOnTime(job, x.cursor, periods);
      }
    }
  }

  /** The play time of what is left after a call of the tempo loop. */
  lemma RestOfInput(pace: Pace, n: nat, left: nat)
    requires pace.Valid() && n > 0
    ensures var time, rest := Duration(n, pace.inputTime), Duration(left, pace.inputTime);
      && rest >= 0.0 && (rest == 0.0 <==> left == 0)
      && (forall v :: PlaysAt(pace.outputTime, n, time, v) ==> PlaysAt(pace.outputTime, left, rest, v))
  {
    if left > 0 {
      DurationPositive(left, pace.inputTime);
    }
    forall v | PlaysAt(pace.outputTime, n, Duration(n, pace.inputTime), v)
      ensures PlaysAt(pace.outputTime, left, Duration(left, pace.inputTime), v)
    {
      RestPlaysAt(pace.outputTime, n, pace.inputTime, v, left);
    }
  }

  /** The job of a pass: all of the input, at the local speed. */
  ghost predicate JobOf(setup: Setup, before: TempoState, job: Job) {
    && job.Valid() && job.channels == setup.voice.channels && job.maxPeriod == setup.maxPeriod
    && job.input == before.input && job.input != [] && before.playTime > 0.0
    && job.pace.outputTime == setup.samplePeriod
    && job.pace.speed == LocalSpeed(setup.samplePeriod, |before.input|, before.playTime)
    && Duration(|before.input|, job.pace.inputTime) == before.playTime
  }

  lemma JobIsUnique(setup: Setup, before: TempoState, a: Job, b: Job)
    requires JobOf(setup, before, a) && JobOf(setup, before, b)
    ensures a == b
  {
    DurationInjective(|before.input|, a.pace.inputTime, b.pace.inputTime);
  }

  /** Where a call of the loop starts. */
  function StartOf(before: TempoState): Stage {
    Stage(Cursor(0, [], before.timeError), before.memory, false)
  }

  /** What is left behind. A call that gave up leaves the input and its play time as they were. */
  ghost function LeftBehind(job: Job, before: TempoState, y: Stage): TempoState
    requires y.cursor.position <= |job.input|
  {
    if y.stalled then TempoState(before.input, before.playTime, y.cursor.timeError, y.memory)
    else
      var rest := job.input[y.cursor.position..];
      TempoState(rest, Duration(|rest|, job.pace.inputTime), y.cursor.timeError, y.memory)
  }

  ghost predicate LoopMakes(setup: Setup, before: TempoState, out: seq<Frame>, after: TempoState, job: Job, y: Stage) {
    && JobOf(setup, before, job) && Reaches(setup.voice, job, StartOf(before), y)
    && y.cursor.position <= |job.input| && out == y.cursor.out && after == LeftBehind(job, before, y)
  }

  /** Input without play time is infinitely fast: a period is looked for, and none of the input is played. */
  ghost predicate OnlyLookedAt(setup: Setup, before: TempoState, after: TempoState) {
    && after == before.(memory := after.memory)
    && if |before.input| < 2 * setup.maxPeriod then after == before
       else Looked(setup, before, after)
  }

  ghost predicate Looked(setup: Setup, before: TempoState, after: TempoState)
    requires |before.input| >= 2 * setup.maxPeriod
  {
    && setup.voice.channels >= 1 && Framed(before.input[..2 * setup.maxPeriod], setup.voice.channels)
    && exists answer: nat :: Answered(setup.voice, before.input[..2 * setup.maxPeriod], before.memory, after.memory, answer)
  }

  /** In the neutral band the input is copied; at any other local speed the tempo loop makes the output. */
  ghost predicate PassMakes(setup: Setup, before: TempoState, out: seq<Frame>, after: TempoState) {
    if before.input == [] then out == [] && after == before
    else if before.playTime <= 0.0 then out == [] && OnlyLookedAt(setup, before, after)
    else if Neutral(LocalSpeed(setup.samplePeriod, |before.input|, before.playTime)) then
      out == before.input && after == TempoState([], 0.0, before.timeError, before.memory)
    else exists job, y :: LoopMakes(setup, before, out, after, job, y)
  }

  predicate AskedAboutOutput(out: seq<Frame>) { true }

  /** The same, kept behind a trigger so that calls of the loop only show up where they are asked about. */
  ghost predicate IsStretched(setup: Setup, before: TempoState, out: seq<Frame>, after: TempoState) {
    forall o {:trigger AskedAboutOutput(o)} :: AskedAboutOutput(o) && o == out ==> PassMakes(setup, before, o, after)
  }

  lemma StretchedMeans(setup: Setup, before: TempoState, out: seq<Frame>, after: TempoState)
    ensures IsStretched(setup, before, out, after) <==> PassMakes(setup, before, out, after)
  {
    assert AskedAboutOutput(out);
  }

  lemma LoopOutput(setup: Setup, before: TempoState, after: TempoState, job: Job, y: Stage)
    requires LoopMakes(setup, before, y.cursor.out, after, job, y)
    requires !Neutral(LocalSpeed(setup.samplePeriod, |before.input|, before.playTime))
    ensures IsStretched(setup, before, y.cursor.out, after)
  {
  }

  lemma LoopMakesOne(setup: Setup, before: TempoState, out: seq<Frame>, after: TempoState, job: Job, y: Stage,
                     other: seq<Frame>, left: TempoState, task: Job, z: Stage)
    requires LoopMakes(setup, before, out, after, job, y) && LoopMakes(setup, before, other, left, task, z)
    ensures out == other && after == left
  {
    JobIsUnique(setup, before, job, task);
    ReachesOne(setup.voice, job, StartOf(before), y, z);
  }

  lemma LookedAtOnce(setup: Setup, before: TempoState, a: TempoState, b: TempoState)
    requires OnlyLookedAt(setup, before, a) && OnlyLookedAt(setup, before, b)
    ensures a == b
  {
    if |before.input| >= 2 * setup.maxPeriod {
      var window := before.input[..2 * setup.maxPeriod];
      var x: nat :| Answered(setup.voice, window, before.memory, a.memory, x);
      var y: nat :| Answered(setup.voice, window, before.memory, b.memory, y);
      AnswerIsUnique(setup.voice, window, before.memory, a.memory, x, b.memory, y);
    }
  }

  /**
   * The tempo stage has no choice: the waiting input, its play time, the time error and the memory of the search
   * determine the output and everything that is left behind.
   */
  lemma OutputIsUnique(setup: Setup, before: TempoState, a: seq<Frame>, x: TempoState, b: seq<Frame>, y: TempoState)
    requires IsStretched(setup, before, a, x) && IsStretched(setup, before, b, y)
    ensures a == b && x == y
  {
    StretchedMeans(setup, before, a, x);
    StretchedMeans(setup, before, b, y);
    if before.input == [] || before.playTime <= 0.0 {
      if before.input != [] {
        LookedAtOnce(setup, before, x, y);
      }
    } else if !Neutral(LocalSpeed(setup.samplePeriod, |before.input|, before.playTime)) {
      var job, p :| LoopMakes(setup, before, a, x, job, p);
      var task, q :| LoopMakes(setup, before, b, y, task, q);
      LoopMakesOne(setup, before, a, x, job, p, b, y, task, q);
    }
  }
}
