/** Passes of the tempo stage that put nothing out: there is less than one analysis window, or the first step drops all of it. */
module SilentPasses {
  import opened Frames
  import opened Tempo
  import opened PlayLedger
  import opened PitchTracking
  import opened TempoSearch
  import opened TempoStage

  /** Nothing comes out, and nothing but the memory of the search changes. */
  ghost predicate StaysSilent(setup: Setup, before: TempoState, after: TempoState) {
    && before.input != [] && before.playTime > 0.0 && after == before.(memory := after.memory)
    && !Neutral(LocalSpeed(setup.samplePeriod, |before.input|, before.playTime))
    && (|before.input| < 2 * setup.maxPeriod ==> after == before)
    && (|before.input| >= 2 * setup.maxPeriod ==>
          exists period: nat :: Drops(setup, before, after, LocalSpeed(setup.samplePeriod, |before.input|, before.playTime), period))
  }

  /** The period that is found is shorter than what the speed takes for one frame of output. */
  ghost predicate Drops(setup: Setup, before: TempoState, after: TempoState, speed: real, period: nat)
    requires |before.input| >= 2 * setup.maxPeriod
  {
    && 1 <= period && period as real < speed - 1.0
    && setup.voice.channels >= 1 && Framed(before.input[..2 * setup.maxPeriod], setup.voice.channels)
    && Answered(setup.voice, before.input[..2 * setup.maxPeriod], before.memory, after.memory, period)
  }

  /** What one turn makes of the period it found, where nothing is being copied. */
  lemma TurnOutput(job: Job, c: Cursor, period: nat)
    requires MayStep(job, c, period) && c.out == [] && c.timeError == 0.0
    ensures Step(job, c, period).out == [] <==> period as real < job.pace.speed - 1.0
    ensures Step(job, c, period).out == [] ==> Stalled(job, c, period) && Step(job, c, period).timeError == 0.0
  {
  }

  lemma OutGrows(voice: Voice, job: Job, x: Stage, y: Stage)
    requires Link(voice, job, x, y)
    ensures x.cursor.out <= y.cursor.out
  {
    var period := PeriodOfLink(voice, job, x, y);
  }

  lemma {:induction false} FirstTurn(voice: Voice, job: Job, x: Stage, y: Stage, turns: nat) returns (next: Stage)
    requires turns > 0 && Leads(voice, job, x, y, turns)
    ensures Leads(voice, job, x, next, 1) && Link(voice, job, x, next) && next.cursor.out <= y.cursor.out
    decreases turns
  {
    var m :| Leads(voice, job, x, m, turns - 1) && Link(voice, job, m, y);
    if turns == 1 {
      next := y;
    } else {
      next := FirstTurn(voice, job, x, m, turns - 1);
      OutGrows(voice, job, m, y);
    }
  }

  /** The first turn of a call that starts with a whole analysis window and no time error. */
  lemma FirstPeriod(setup: Setup, before: TempoState, job: Job, next: Stage) returns (period: nat)
    requires JobOf(setup, before, job) && before.timeError == 0.0 && Link(setup.voice, job, StartOf(before), next)
    ensures |before.input| >= 2 * setup.maxPeriod && 1 <= period
    ensures setup.voice.channels >= 1 && Framed(before.input[..2 * setup.maxPeriod], setup.voice.channels)
    ensures Answered(setup.voice, before.input[..2 * setup.maxPeriod], before.memory, next.memory, period)
    ensures next.cursor.out == [] <==> period as real < job.pace.speed - 1.0
    ensures next.cursor.out == [] ==> next.stalled && next.cursor.timeError == 0.0
  {
    period := PeriodOfLink(setup.voice, job, StartOf(before), next);
    TurnAnswered(setup.voice, job, StartOf(before).cursor, period, before.memory, next.memory);
    TurnOutput(job, StartOf(before).cursor, period);
  }

  /** A turn from the very start asks for the period of the first window. */
  lemma TurnAnswered(voice: Voice, job: Job, c: Cursor, period: nat, before: Memory, after: Memory)
    requires StepAnswered(voice, job, c, period, before, after) && c.position == 0 && c.timeError == 0.0
    ensures |job.input| >= 2 * job.maxPeriod && voice.channels >= 1 && Framed(job.input[..2 * job.maxPeriod], voice.channels)
    ensures MayStep(job, c, period) && 1 <= period && Answered(voice, job.input[..2 * job.maxPeriod], before, after, period)
  {
    assert job.input[0..2 * job.maxPeriod] == job.input[..2 * job.maxPeriod];
  }

  /** Without a whole window a call makes no turn. */
  lemma NoTurn(setup: Setup, before: TempoState, job: Job, y: Stage)
    requires JobOf(setup, before, job) && |before.input| < 2 * setup.maxPeriod
    requires Reaches(setup.voice, job, StartOf(before), y)
    ensures y == StartOf(before)
  {
    var start := StartOf(before);
    EndIsReached(setup.voice, job, start, start, 0);
    ReachesOne(setup.voice, job, start, y, start);
  }

  /** With one, it makes a first turn, and no other if that stalls. */
  lemma CallStarts(setup: Setup, before: TempoState, job: Job, y: Stage) returns (next: Stage)
    requires JobOf(setup, before, job) && |before.input| >= 2 * setup.maxPeriod
    requires Reaches(setup.voice, job, StartOf(before), y)
    ensures Link(setup.voice, job, StartOf(before), next) && next.cursor.out <= y.cursor.out && (next.stalled ==> y == next)
  {
    var start := StartOf(before);
    var turns: nat :| Finishes(setup.voice, job, start, y, turns);
    next := FirstTurn(setup.voice, job, start, y, turns);
    if next.stalled {
      EndsAtOnce(setup.voice, job, start, next, 1, y, turns);
      LeadsToOne(setup.voice, job, start, next, y, 1);
    }
  }

  lemma CallIsSilent(setup: Setup, before: TempoState, out: seq<Frame>, after: TempoState, job: Job, y: Stage)
    requires LoopMakes(setup, before, out, after, job, y) && before.timeError == 0.0 && out == []
    requires !Neutral(LocalSpeed(setup.samplePeriod, |before.input|, before.playTime))
    ensures StaysSilent(setup, before, after)
  {
    if |before.input| < 2 * setup.maxPeriod {
      NoTurn(setup, before, job, y);
      assert job.input[0..] == before.input;
    } else {
      var next := CallStarts(setup, before, job, y);
      var period := FirstPeriod(setup, before, job, next);
      assert Drops(setup, before, after, job.pace.speed, period);
    }
  }

  lemma CallIsSilentOnly(setup: Setup, before: TempoState, out: seq<Frame>, after: TempoState, job: Job, y: Stage, silent: TempoState)
    requires LoopMakes(setup, before, out, after, job, y) && before.timeError == 0.0 && StaysSilent(setup, before, silent)
    ensures out == [] && after == silent
  {
    if |before.input| < 2 * setup.maxPeriod {
      NoTurn(setup, before, job, y);
      assert job.input[0..] == before.input;
    } else {
      var next := CallStarts(setup, before, job, y);
      var period := FirstPeriod(setup, before, job, next);
      var p: nat :| Drops(setup, before, silent, job.pace.speed, p);
      AnswerIsUnique(setup.voice, before.input[..2 * setup.maxPeriod], before.memory, next.memory, period, silent.memory, p);
    }
  }

  /** A pass over input without a time error puts nothing out exactly if it stays silent. */
  lemma PassIsSilentIff(setup: Setup, before: TempoState, out: seq<Frame>, after: TempoState)
    requires IsStretched(setup, before, out, after) && before.input != [] && before.playTime > 0.0 && before.timeError == 0.0
    ensures out == [] <==> StaysSilent(setup, before, after)
    ensures forall silent :: StaysSilent(setup, before, silent) ==> out == [] && after == silent
  {
    StretchedMeans(setup, before, out, after);
    if !Neutral(LocalSpeed(setup.samplePeriod, |before.input|, before.playTime)) {
      var job, y :| LoopMakes(setup, before, out, after, job, y);
      if out == [] {
        CallIsSilent(setup, before, out, after, job, y);
      }
      forall silent | StaysSilent(setup, before, silent)
        ensures out == [] && after == silent
      {
        CallIsSilentOnly(setup, before, out, after, job, y, silent);
      }
    }
  }
}
