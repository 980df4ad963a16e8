/** Runs of the tempo loop whose periods are the answers of the pitch search. They leave the loop no choice. */
module TempoSearch {
  import opened Frames
  import opened Tempo
  import opened PitchTracking

  /** The search works on the channels of the job. */
  ghost predicate Suits(voice: Voice, job: Job) {
    voice.channels >= 1 && job.channels == voice.channels && Framed(job.input, voice.channels)
  }

  /** Where the loop stands, what the search remembers, and whether the last step has stalled. */
  datatype Stage = Stage(cursor: Cursor, memory: Memory, stalled: bool)

  /** The period of a step that drops or repeats one is the answer for the next analysis window; copying asks for none. */
  ghost predicate StepAnswered(voice: Voice, job: Job, c: Cursor, period: nat, before: Memory, after: Memory) {
    && Suits(voice, job) && MayStep(job, c, period)
    && if Copying(job.pace.speed, c.timeError) then period == 0 && after == before
       else Answered(voice, job.input[c.position..c.position + 2 * job.maxPeriod], before, after, period)
  }

  lemma CopyingAsksNothing(voice: Voice, job: Job, c: Cursor, memory: Memory)
    requires Suits(voice, job) && MayStep(job, c, 0) && Copying(job.pace.speed, c.timeError)
    ensures StepAnswered(voice, job, c, 0, memory, memory)
  {
  }

  lemma AnswerIsStep(voice: Voice, job: Job, c: Cursor, period: nat, before: Memory, after: Memory, window: seq<Frame>)
    requires Suits(voice, job) && MayStep(job, c, period) && !Copying(job.pace.speed, c.timeError)
    requires window == job.input[c.position..c.position + 2 * job.maxPeriod]
    requires Answered(voice, window, before, after, period)
    ensures StepAnswered(voice, job, c, period, before, after)
  {
  }

  lemma StepAsks(voice: Voice, job: Job, c: Cursor, period: nat, before: Memory, after: Memory, window: seq<Frame>)
    requires StepAnswered(voice, job, c, period, before, after) && !Copying(job.pace.speed, c.timeError)
    requires window == job.input[c.position..c.position + 2 * job.maxPeriod]
    ensures Suits(voice, job) && MayStep(job, c, period) && Framed(window, voice.channels)
    ensures Answered(voice, window, before, after, period)
  {
  }

  ghost predicate LinkBy(voice: Voice, job: Job, x: Stage, y: Stage, period: nat) {
    && !x.stalled && StepAnswered(voice, job, x.cursor, period, x.memory, y.memory)
    && y.cursor == Step(job, x.cursor, period) && y.stalled == Stalled(job, x.cursor, period)
  }

  predicate AskedAbout(x: Stage) { true }

  /** One turn of the loop. It is kept behind a trigger, so that it only unfolds where it is asked about. */
  ghost predicate Link(voice: Voice, job: Job, x: Stage, y: Stage) {
    forall z {:trigger AskedAbout(z)} :: AskedAbout(z) && z == y ==> exists period: nat :: LinkBy(voice, job, x, z, period)
  }

  lemma MakeLink(voice: Voice, job: Job, x: Stage, y: Stage, period: nat)
    requires LinkBy(voice, job, x, y, period)
    ensures Link(voice, job, x, y)
  {
  }

  lemma PeriodOfLink(voice: Voice, job: Job, x: Stage, y: Stage) returns (period: nat)
    requires Link(voice, job, x, y)
    ensures LinkBy(voice, job, x, y, period)
  {
    assert AskedAbout(y);
    period :| LinkBy(voice, job, x, y, period);
  }

  /** A number of turns leads from x to y. */
  ghost predicate Leads(voice: Voice, job: Job, x: Stage, y: Stage, turns: nat)
    decreases turns
  {
    if turns == 0 then x == y else exists m :: Leads(voice, job, x, m, turns - 1) && Link(voice, job, m, y)
  }

  /** Less than one analysis window of input is left, or the last step has stalled. */
  predicate Ended(job: Job, x: Stage) {
    x.stalled || x.cursor.position + 2 * job.maxPeriod > |job.input|
  }

  lemma NoLinkFromEnd(voice: Voice, job: Job, x: Stage, y: Stage)
    requires Ended(job, x)
    ensures !Link(voice, job, x, y)
  {
    if Link(voice, job, x, y) {
      var period := PeriodOfLink(voice, job, x, y);
    }
  }

  lemma SameAnswer(voice: Voice, job: Job, c: Cursor, before: Memory, p: nat, m: Memory, q: nat, n: Memory)
    requires StepAnswered(voice, job, c, p, before, m) && StepAnswered(voice, job, c, q, before, n)
    ensures p == q && m == n
  {
    if !Copying(job.pace.speed, c.timeError) {
      AnswerIsUnique(voice, job.input[c.position..c.position + 2 * job.maxPeriod], before, m, p, n, q);
    }
  }

  lemma LinkIsUnique(voice: Voice, job: Job, x: Stage, y: Stage, z: Stage)
    requires Link(voice, job, x, y) && Link(voice, job, x, z)
    ensures y == z
  {
    var p := PeriodOfLink(voice, job, x, y);
    var q := PeriodOfLink(voice, job, x, z);
    SameAnswer(voice, job, x.cursor, x.memory, p, y.memory, q, z.memory);
  }

  /** As many turns from the same start lead to the same stage. */
  lemma {:induction false} LeadsToOne(voice: Voice, job: Job, x: Stage, y: Stage, z: Stage, turns: nat)
    requires Leads(voice, job, x, y, turns) && Leads(voice, job, x, z, turns)
    ensures y == z
    decreases turns
  {
    if turns > 0 {
      var m :| Leads(voice, job, x, m, turns - 1) && Link(voice, job, m, y);
      var n :| Leads(voice, job, x, n, turns - 1) && Link(voice, job, n, z);
      LeadsToOne(voice, job, x, m, n, turns - 1);
      LinkIsUnique(voice, job, m, y, z);
    }
  }

  /** The stage that more turns have come through after fewer. */
  lemma {:induction false} ComesThrough(voice: Voice, job: Job, x: Stage, z: Stage, turns: nat, fewer: nat)
    returns (m: Stage, next: Stage)
    requires fewer < turns && Leads(voice, job, x, z, turns)
    ensures Leads(voice, job, x, m, fewer) && Link(voice, job, m, next)
    decreases turns
  {
    m :| Leads(voice, job, x, m, turns - 1) && Link(voice, job, m, z);
    next := z;
    if fewer < turns - 1 {
      m, next := ComesThrough(voice, job, x, m, turns - 1, fewer);
    }
  }

  /** No turn leads on from an end. */
  lemma EndsAtOnce(voice: Voice, job: Job, x: Stage, y: Stage, turns: nat, z: Stage, more: nat)
    requires Leads(voice, job, x, y, turns) && Ended(job, y) && Leads(voice, job, x, z, more)
    ensures more <= turns
  {
    if more > turns {
      var m, next := ComesThrough(voice, job, x, z, more, turns);
      LeadsToOne(voice, job, x, y, m, turns);
      NoLinkFromEnd(voice, job, y, next);
    }
  }

  lemma RunExtendsByLink(voice: Voice, job: Job, c: Cursor, periods: seq<nat>, m: Stage, y: Stage) returns (longer: seq<nat>)
    requires MayRun(job, c, periods) && Run(job, c, periods) == m.cursor && (GoesOn(job, c, periods) <==> !m.stalled)
    requires Link(voice, job, m, y)
    ensures MayRun(job, c, longer) && Run(job, c, longer) == y.cursor && (GoesOn(job, c, longer) <==> !y.stalled)
  {
    var period := PeriodOfLink(voice, job, m, y);
    RunExtends(job, c, periods, period);
    longer := periods + [period];
  }

  /** Turns of the loop are a run with some periods, so whatever holds of all runs holds of them. */
  lemma {:induction false} LeadsByRun(voice: Voice, job: Job, x: Stage, y: Stage, turns: nat) returns (periods: seq<nat>)
    requires Leads(voice, job, x, y, turns) && !x.stalled
    ensures MayRun(job, x.cursor, periods) && Run(job, x.cursor, periods) == y.cursor
    ensures GoesOn(job, x.cursor, periods) <==> !y.stalled
    decreases turns
  {
    periods := [];
    if turns > 0 {
      var m :| Leads(voice, job, x, m, turns - 1) && Link(voice, job, m, y);
      periods := LeadsByRun(voice, job, x, m, turns - 1);
      periods := RunExtendsByLink(voice, job, x.cursor, periods, m, y);
    }
  }

  ghost predicate Finishes(voice: Voice, job: Job, x: Stage, y: Stage, turns: nat) {
    Leads(voice, job, x, y, turns) && Ended(job, y)
  }

  /** A whole call of the loop. */
  ghost predicate Reaches(voice: Voice, job: Job, x: Stage, y: Stage) {
    exists turns: nat :: Finishes(voice, job, x, y, turns)
  }

  /** The loop is a function of its input, its pace, the time error and the memory of the search. */
  lemma ReachesOne(voice: Voice, job: Job, x: Stage, y: Stage, z: Stage)
    requires Reaches(voice, job, x, y) && Reaches(voice, job, x, z)
    ensures y == z
  {
    var m: nat :| Finishes(voice, job, x, y, m);
    var n: nat :| Finishes(voice, job, x, z, n);
    EndsAtOnce(voice, job, x, y, m, z, n);
    EndsAtOnce(voice, job, x, z, n, y, m);
    LeadsToOne(voice, job, x, y, z, m);
  }

  lemma ReachedByRun(voice: Voice, job: Job, x: Stage, y: Stage) returns (periods: seq<nat>)
    requires Reaches(voice, job, x, y) && !x.stalled
    ensures MayRun(job, x.cursor, periods) && Run(job, x.cursor, periods) == y.cursor
    ensures GoesOn(job, x.cursor, periods) <==> !y.stalled
  {
    var turns: nat :| Finishes(voice, job, x, y, turns);
    periods := LeadsByRun(voice, job, x, y, turns);
  }

  /** Where the loop has come to an end. */
  lemma EndIsReached(voice: Voice, job: Job, x: Stage, y: Stage, turns: nat)
    requires Leads(voice, job, x, y, turns) && Ended(job, y)
    ensures Reaches(voice, job, x, y)
  {
    assert Finishes(voice, job, x, y, turns);
  }

  /** One more turn of the loop. */
  lemma OneMoreTurn(voice: Voice, job: Job, x: Stage, m: Stage, turns: nat, period: nat, memory: Memory) returns (y: Stage)
    requires Leads(voice, job, x, m, turns) && !m.stalled
    requires StepAnswered(voice, job, m.cursor, period, m.memory, memory)
    ensures y == Stage(Step(job, m.cursor, period), memory, Stalled(job, m.cursor, period))
    ensures Leads(voice, job, x, y, turns + 1)
  {
    y := Stage(Step(job, m.cursor, period), memory, Stalled(job, m.cursor, period));
    MakeLink(voice, job, m, y, period);
  }
}
