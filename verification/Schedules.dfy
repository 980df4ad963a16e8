/**
 * Schedules of speeds and writes as the tempo stage plays them: which passes they lead to, and what those do to
 * the play time. A schedule leaves no choice, so these are facts about every stream that is given it.
 */
module Schedules {
  import opened RealArith
  import opened Frames
  import opened Tempo
  import opened TempoCode
  import opened PlayLedger
  import opened TempoStage
  import opened TempoSearch

  /** One entry of a schedule: set the speed, then write some frames. */
  datatype Entry = Entry(speed: real, samples: seq<Frame>)

  ghost predicate Forward(schedule: seq<Entry>) {
    forall i :: 0 <= i < |schedule| ==> schedule[i].speed > 0.0
  }

  /** Entries that write nothing may carry any speed. */
  ghost predicate Moderate(schedule: seq<Entry>) {
    forall i :: 0 <= i < |schedule| ==> schedule[i].samples == [] || ModerateSpeed(schedule[i].speed)
  }

  /** All that is written is written above the neutral band, or all below it. */
  ghost predicate OneSided(schedule: seq<Entry>, fast: bool) {
    forall i :: 0 <= i < |schedule| ==> schedule[i].samples == [] || OnSide(fast, schedule[i].speed)
  }

  /** The play time that the schedule asks for. */
  ghost function PlannedTime(schedule: seq<Entry>, samplePeriod: real): real
    requires Forward(schedule)
  {
    if schedule == [] then 0.0
    else
      var last := schedule[|schedule| - 1];
      PlannedTime(schedule[..|schedule| - 1], samplePeriod) + WriteTime(samplePeriod, |last.samples|, last.speed)
  }

  ghost function AllSamples(schedule: seq<Entry>): seq<Frame> {
    if schedule == [] then [] else AllSamples(schedule[..|schedule| - 1]) + schedule[|schedule| - 1].samples
  }

  /** What the tempo stage is left with, its account, and everything it has put out. */
  datatype Progress = Progress(state: TempoState, ledger: Ledger, out: seq<Frame>)

  /** What is waiting once an entry is written. */
  ghost function Waiting(setup: Setup, x: Progress, entry: Entry): TempoState
    requires entry.speed > 0.0
  {
    Joined(x.state, entry.samples, WriteTime(setup.samplePeriod, |entry.samples|, entry.speed))
  }

  /** The account of one more entry. */
  ghost function Accounted(setup: Setup, x: Progress, entry: Entry, produced: nat): Ledger
    requires entry.speed > 0.0
  {
    var due := Waiting(setup, x, entry);
    AfterPass(Written(x.ledger, WriteTime(setup.samplePeriod, |entry.samples|, entry.speed)),
              setup.samplePeriod, 2 * setup.maxPeriod, |due.input|, due.playTime, produced)
  }

  /** An entry is written and the tempo stage makes a pass. */
  ghost predicate PlaysEntry(setup: Setup, x: Progress, entry: Entry, y: Progress) {
    && entry.speed > 0.0 && x.out <= y.out
    && IsStretched(setup, Waiting(setup, x, entry), y.out[|x.out|..], y.state)
    && y.ledger == Accounted(setup, x, entry, |y.out| - |x.out|)
    && (Waiting(setup, x, entry).input == [] || Waiting(setup, x, entry).playTime > 0.0)
  }

  ghost predicate Plays(setup: Setup, x: Progress, schedule: seq<Entry>, y: Progress)
    decreases |schedule|
  {
    if schedule == [] then x == y
    else
      var front, last := schedule[..|schedule| - 1], schedule[|schedule| - 1];
      exists m :: Plays(setup, x, front, m) && PlaysEntry(setup, m, last, y)
  }

  predicate AskedHow(y: Progress) { true }

  /** The same, kept behind a trigger so that entries only show up where they are asked about. */
  ghost predicate IsPlayed(setup: Setup, x: Progress, schedule: seq<Entry>, y: Progress) {
    forall z {:trigger AskedHow(z)} :: AskedHow(z) && z == y ==> Plays(setup, x, schedule, z)
  }

  lemma PlayedMeans(setup: Setup, x: Progress, schedule: seq<Entry>, y: Progress)
    ensures IsPlayed(setup, x, schedule, y) <==> Plays(setup, x, schedule, y)
  {
    assert AskedHow(y);
  }

  lemma PlaysNothing(setup: Setup, x: Progress, schedule: seq<Entry>)
    ensures IsPlayed(setup, x, schedule[..0], x)
  {
    assert schedule[..0] == [];
  }

  lemma PlaysMore(setup: Setup, x: Progress, schedule: seq<Entry>, i: nat, m: Progress, y: Progress)
    requires i < |schedule| && IsPlayed(setup, x, schedule[..i], m) && PlaysEntry(setup, m, schedule[i], y)
    ensures IsPlayed(setup, x, schedule[..i + 1], y)
  {
    assert schedule[..i + 1][..i] == schedule[..i];
    PlayedMeans(setup, x, schedule[..i], m);
  }

  lemma EntryPlaysOne(setup: Setup, x: Progress, entry: Entry, y: Progress, z: Progress)
    requires PlaysEntry(setup, x, entry, y) && PlaysEntry(setup, x, entry, z)
    ensures y == z
  {
    var a, b := y.out[|x.out|..], z.out[|x.out|..];
    OutputIsUnique(setup, Waiting(setup, x, entry), a, y.state, b, z.state);
    assert y.out == x.out + a && z.out == x.out + b;
  }

  /** The schedule determines the output, the account and what is left waiting. */
  lemma {:induction false} SchedulePlaysOne(setup: Setup, x: Progress, schedule: seq<Entry>, y: Progress, z: Progress)
    requires Plays(setup, x, schedule, y) && Plays(setup, x, schedule, z)
    ensures y == z
    decreases |schedule|
  {
    if schedule != [] {
      var k := |schedule| - 1;
      var m :| Plays(setup, x, schedule[..k], m) && PlaysEntry(setup, m, schedule[k], y);
      var n :| Plays(setup, x, schedule[..k], n) && PlaysEntry(setup, n, schedule[k], z);
      SchedulePlaysOne(setup, x, schedule[..k], m, n);
      EntryPlaysOne(setup, m, schedule[k], y, z);
    }
  }

  // ---- the passes ----

  ghost predicate AllFit(passes: seq<Pass>, maxRequired: nat) {
    forall i :: 0 <= i < |passes| ==> PassFits(passes[i], maxRequired)
  }

  ghost predicate AllConserve(passes: seq<Pass>, maxRequired: nat) {
    forall i :: 0 <= i < |passes| ==> PassConserves(passes[i], maxRequired)
  }

  ghost function SlackOf(samplePeriod: real, passes: seq<Pass>): real {
    if passes == [] then 0.0
    else SlackOf(samplePeriod, passes[..|passes| - 1]) + PassSlack(samplePeriod, passes[|passes| - 1])
  }

  lemma OneMorePass(samplePeriod: real, maxRequired: nat, passes: seq<Pass>, pass: Pass)
    ensures AllFit(passes + [pass], maxRequired) <==> AllFit(passes, maxRequired) && PassFits(pass, maxRequired)
    ensures AllConserve(passes + [pass], maxRequired) <==> AllConserve(passes, maxRequired) && PassConserves(pass, maxRequired)
    ensures SlackOf(samplePeriod, passes + [pass]) == SlackOf(samplePeriod, passes) + PassSlack(samplePeriod, pass)
  {
    var more := passes + [pass];
    assert more[..|passes|] == passes && more[|passes|] == pass;
    assert forall i :: 0 <= i < |passes| ==> more[i] == passes[i];
  }

  /** What the account says of its passes. */
  ghost predicate AccountFits(l: Ledger, samplePeriod: real, maxRequired: nat) {
    && (l.moderate <==> AllFit(l.passes, maxRequired))
    && l.slack == SlackOf(samplePeriod, l.passes)
    && (AllConserve(l.passes, maxRequired) ==> l.slack == 0.0)
  }

  lemma PassIsAccounted(l: Ledger, samplePeriod: real, maxRequired: nat, waiting: nat, playTime: real, produced: nat)
    requires AccountFits(l, samplePeriod, maxRequired) && (waiting == 0 || playTime > 0.0)
    ensures AccountFits(AfterPass(l, samplePeriod, maxRequired, waiting, playTime, produced), samplePeriod, maxRequired)
  {
    if waiting > 0 {
      var pass := PassOver(samplePeriod, waiting, playTime);
      OneMorePass(samplePeriod, maxRequired, l.passes, pass);
      SlackIsZeroIff(samplePeriod, waiting, playTime);
    }
  }

  lemma EntryIsAccounted(setup: Setup, x: Progress, entry: Entry, y: Progress)
    requires PlaysEntry(setup, x, entry, y) && AccountFits(x.ledger, setup.samplePeriod, 2 * setup.maxPeriod)
    ensures AccountFits(y.ledger, setup.samplePeriod, 2 * setup.maxPeriod)
    ensures y.ledger.promised == x.ledger.promised + WriteTime(setup.samplePeriod, |entry.samples|, entry.speed)
  {
    var l := Written(x.ledger, WriteTime(setup.samplePeriod, |entry.samples|, entry.speed));
    var due := Waiting(setup, x, entry);
    PassIsAccounted(l, setup.samplePeriod, 2 * setup.maxPeriod, |due.input|, due.playTime, |y.out| - |x.out|);
  }

  /** The time promised is the time planned, and the account fits the passes. */
  lemma {:induction false} ScheduleIsAccounted(setup: Setup, x: Progress, schedule: seq<Entry>, y: Progress)
    requires Forward(schedule) && Plays(setup, x, schedule, y) && x.ledger == EMPTY
    ensures y.ledger.promised == PlannedTime(schedule, setup.samplePeriod)
    ensures AccountFits(y.ledger, setup.samplePeriod, 2 * setup.maxPeriod)
    decreases |schedule|
  {
    if schedule != [] {
      var k := |schedule| - 1;
      var m :| Plays(setup, x, schedule[..k], m) && PlaysEntry(setup, m, schedule[k], y);
      ScheduleIsAccounted(setup, x, schedule[..k], m);
      EntryIsAccounted(setup, m, schedule[k], y);
    }
  }

  // ---- the speed at which what is waiting plays ----

  ghost predicate StatePlaysAt(setup: Setup, state: TempoState, v: real) {
    PlaysAt(setup.samplePeriod, |state.input|, state.playTime, v)
  }

  lemma RestOfLoop(setup: Setup, before: TempoState, out: seq<Frame>, after: TempoState, job: Job, y: Stage, v: real)
    requires LoopMakes(setup, before, out, after, job, y) && StatePlaysAt(setup, before, v)
    ensures StatePlaysAt(setup, after, v)
  {
    if !y.stalled {
      RestPlaysAt(setup.samplePeriod, |before.input|, job.pace.inputTime, v, |after.input|);
    }
  }

  /** A pass leaves input that plays at the speed of the whole, or none. */
  lemma PassKeepsSpeed(setup: Setup, before: TempoState, out: seq<Frame>, after: TempoState, v: real)
    requires IsStretched(setup, before, out, after) && StatePlaysAt(setup, before, v)
    ensures StatePlaysAt(setup, after, v)
    ensures before.input == [] ==> after.input == []
  {
    StretchedMeans(setup, before, out, after);
    if before.input != [] && before.playTime > 0.0 && !Neutral(LocalSpeed(setup.samplePeriod, |before.input|, before.playTime)) {
      var job, y :| LoopMakes(setup, before, out, after, job, y);
      RestOfLoop(setup, before, out, after, job, y, v);
    }
  }

  /** What is waiting plays at a speed from half to double, and on one side of the band if everything so far does. */
  ghost predicate WaitsWell(setup: Setup, state: TempoState, v: real, fast: bool, sided: bool) {
    && StatePlaysAt(setup, state, v)
    && (state.input != [] ==> ModerateSpeed(v) && (sided ==> OnSide(fast, v)))
  }

  lemma MixWaitsWell(setup: Setup, x: Progress, entry: Entry, v: real, fast: bool, sided: bool) returns (u: real)
    requires setup.samplePeriod > 0.0 && WaitsWell(setup, x.state, v, fast, sided) && entry.speed > 0.0
    requires entry.samples != [] ==> ModerateSpeed(entry.speed) && (sided ==> OnSide(fast, entry.speed))
    requires var due := Waiting(setup, x, entry); due.input != [] && due.playTime > 0.0
    ensures WaitsWell(setup, Waiting(setup, x, entry), u, fast, sided)
    ensures var due := Waiting(setup, x, entry); u == LocalSpeed(setup.samplePeriod, |due.input|, due.playTime)
  {
    var due := Waiting(setup, x, entry);
    var m, n := |x.state.input|, |entry.samples|;
    u := LocalSpeed(setup.samplePeriod, |due.input|, due.playTime);
    WriteTimeIsDuration(setup.samplePeriod, n, entry.speed);
    PlaysAtOwnSpeed(setup.samplePeriod, m + n, due.playTime);
    MixIsModerate(setup.samplePeriod, m, v, n, entry.speed);
    if sided {
      MixOnSide(setup.samplePeriod, m, v, n, entry.speed, fast);
    }
  }

  lemma WellPassed(l: Ledger, samplePeriod: real, maxRequired: nat, waiting: nat, playTime: real, produced: nat, sided: bool, fast: bool)
    requires waiting > 0 && playTime > 0.0 && AllFit(l.passes, maxRequired) && (sided ==> AllConserve(l.passes, maxRequired))
    requires var u := LocalSpeed(samplePeriod, waiting, playTime); ModerateSpeed(u) && (sided ==> OnSide(fast, u))
    ensures var passes := AfterPass(l, samplePeriod, maxRequired, waiting, playTime, produced).passes;
      AllFit(passes, maxRequired) && (sided ==> AllConserve(passes, maxRequired))
  {
    OneMorePass(samplePeriod, maxRequired, l.passes, PassOver(samplePeriod, waiting, playTime));
  }

  lemma EntryPassesWell(setup: Setup, x: Progress, entry: Entry, y: Progress, v: real, fast: bool, sided: bool) returns (u: real)
    requires setup.samplePeriod > 0.0 && PlaysEntry(setup, x, entry, y) && WaitsWell(setup, x.state, v, fast, sided)
    requires entry.samples != [] ==> ModerateSpeed(entry.speed) && (sided ==> OnSide(fast, entry.speed))
    requires AllFit(x.ledger.passes, 2 * setup.maxPeriod) && (sided ==> AllConserve(x.ledger.passes, 2 * setup.maxPeriod))
    ensures WaitsWell(setup, y.state, u, fast, sided)
    ensures AllFit(y.ledger.passes, 2 * setup.maxPeriod) && (sided ==> AllConserve(y.ledger.passes, 2 * setup.maxPeriod))
  {
    var due := Waiting(setup, x, entry);
    u := v;
    if due.input != [] {
      u := MixWaitsWell(setup, x, entry, v, fast, sided);
      var l := Written(x.ledger, WriteTime(setup.samplePeriod, |entry.samples|, entry.speed));
      WellPassed(l, setup.samplePeriod, 2 * setup.maxPeriod, |due.input|, due.playTime, |y.out| - |x.out|, sided, fast);
    }
    PassKeepsSpeed(setup, due, y.out[|x.out|..], y.state, u);
  }

  /** Schedules of moderate speeds lead to passes that fit, and to passes that conserve where all speeds are on one side. */
  lemma {:induction false} ModerateSchedulePassesWell(setup: Setup, x: Progress, schedule: seq<Entry>, y: Progress, fast: bool)
    returns (v: real)
    requires setup.samplePeriod > 0.0 && Plays(setup, x, schedule, y) && Moderate(schedule)
    requires x.state.input == [] && x.state.playTime == 0.0 && x.ledger == EMPTY
    ensures WaitsWell(setup, y.state, v, fast, OneSided(schedule, fast))
    ensures AllFit(y.ledger.passes, 2 * setup.maxPeriod)
    ensures OneSided(schedule, fast) ==> AllConserve(y.ledger.passes, 2 * setup.maxPeriod)
    decreases |schedule|
  {
    v := 1.0;
    if schedule != [] {
      var k := |schedule| - 1;
      var front := schedule[..k];
      assert forall i :: 0 <= i < k ==> front[i] == schedule[i];
      var m :| Plays(setup, x, front, m) && PlaysEntry(setup, m, schedule[k], y);
      v := ModerateSchedulePassesWell(setup, x, front, m, fast);
      v := EntryPassesWell(setup, m, schedule[k], y, v, fast, OneSided(schedule, fast));
    }
  }

  /** All that a schedule says of the account at its end. */
  lemma ScheduleOutcome(setup: Setup, x: Progress, schedule: seq<Entry>, y: Progress)
    requires setup.samplePeriod > 0.0 && Forward(schedule) && IsPlayed(setup, x, schedule, y)
    requires x.state.input == [] && x.state.playTime == 0.0 && x.ledger == EMPTY
    ensures y.ledger.promised == PlannedTime(schedule, setup.samplePeriod)
    ensures AccountFits(y.ledger, setup.samplePeriod, 2 * setup.maxPeriod)
    ensures Moderate(schedule) ==> AllFit(y.ledger.passes, 2 * setup.maxPeriod)
    ensures Moderate(schedule) && (OneSided(schedule, true) || OneSided(schedule, false)) ==>
      AllConserve(y.ledger.passes, 2 * setup.maxPeriod)
  {
    PlayedMeans(setup, x, schedule, y);
    ScheduleIsAccounted(setup, x, schedule, y);
    if Moderate(schedule) {
      var v := ModerateSchedulePassesWell(setup, x, schedule, y, true);
      v := ModerateSchedulePassesWell(setup, x, schedule, y, false);
    }
  }
}
