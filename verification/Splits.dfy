/**
 * One stretch of audio at one speed, written in different pieces. The tempo loop is followed frame by frame over
 * the whole audio; a pass over one piece goes a part of that way. Between passes the loop forgets one thing only:
 * that it was copying.
 */
module Splits {
  import opened Sequences
  import opened Frames
  import opened Tempo
  import opened TempoCode
  import opened PlayLedger
  import opened PitchTracking
  import opened TempoSearch
  import opened TempoStage
  import opened Schedules

  /** All of the audio, and the pace at which it is played. */
  datatype Course = Course(voice: Voice, pace: Pace, maxPeriod: nat, all: seq<Frame>)

  /** Where the loop stands in it, and whether it has just copied a frame. */
  datatype Spot = Spot(position: nat, out: seq<Frame>, timeError: real, memory: Memory, copying: bool)

  /** Copying goes on until the error is past zero, but does not begin at zero. */
  predicate Copies(course: Course, x: Spot) {
    Copying(course.pace.speed, x.timeError) || (x.copying && x.timeError == 0.0)
  }

  ghost function Window(course: Course, position: nat): Job
    requires position + 2 * course.maxPeriod <= |course.all|
  {
    Job(course.all[position..position + 2 * course.maxPeriod], course.voice.channels, course.pace, course.maxPeriod)
  }

  /** A period is dropped or repeated. */
  ghost predicate Changes(course: Course, x: Spot, y: Spot, period: nat) {
    && !Copies(course, x) && x.position + 2 * course.maxPeriod <= |course.all|
    && var job, c := Window(course, x.position), Cursor(0, [], x.timeError);
    && StepAnswered(course.voice, job, c, period, x.memory, y.memory)
    && var d := Step(job, c, period);
    && y == Spot(x.position + d.position, x.out + d.out, d.timeError, y.memory, false)
  }

  ghost predicate CopiesOne(course: Course, x: Spot, y: Spot) {
    && Copies(course, x) && x.position < |course.all|
    && y == Spot(x.position + 1, x.out + [course.all[x.position]], x.timeError + course.pace.Gain(), x.memory, true)
  }

  predicate AskedWhere(y: Spot) { true }

  /** One frame is copied, or one period dropped or repeated. It is kept behind a trigger, as links are. */
  ghost predicate Moves(course: Course, x: Spot, y: Spot) {
    forall z {:trigger AskedWhere(z)} :: AskedWhere(z) && z == y ==>
      CopiesOne(course, x, z) || exists period: nat :: Changes(course, x, z, period)
  }

  lemma CopyMoves(course: Course, x: Spot, y: Spot)
    requires CopiesOne(course, x, y)
    ensures Moves(course, x, y)
  {
  }

  lemma ChangeMoves(course: Course, x: Spot, y: Spot, period: nat)
    requires Changes(course, x, y, period)
    ensures Moves(course, x, y)
  {
  }

  lemma ChangeIsUnique(course: Course, x: Spot, y: Spot, p: nat, z: Spot, q: nat)
    requires Changes(course, x, y, p) && Changes(course, x, z, q)
    ensures y == z
  {
    SameAnswer(course.voice, Window(course, x.position), Cursor(0, [], x.timeError), x.memory, p, y.memory, q, z.memory);
  }

  lemma MoveIsUnique(course: Course, x: Spot, y: Spot, z: Spot)
    requires Moves(course, x, y) && Moves(course, x, z)
    ensures y == z
  {
    assert AskedWhere(y) && AskedWhere(z);
    if !Copies(course, x) {
      var p: nat :| Changes(course, x, y, p);
      var q: nat :| Changes(course, x, z, q);
      ChangeIsUnique(course, x, y, p, z, q);
    }
  }

  lemma MoveGrows(course: Course, x: Spot, y: Spot)
    requires Moves(course, x, y)
    ensures x.out <= y.out
  {
    assert AskedWhere(y);
  }

  /** A number of moves leads from x to y. */
  ghost predicate Goes(course: Course, x: Spot, y: Spot, moves: nat)
    decreases moves
  {
    if moves == 0 then x == y else exists m :: Goes(course, x, m, moves - 1) && Moves(course, m, y)
  }

  lemma {:induction false} GoesToOne(course: Course, x: Spot, y: Spot, z: Spot, moves: nat)
    requires Goes(course, x, y, moves) && Goes(course, x, z, moves)
    ensures y == z
    decreases moves
  {
    if moves > 0 {
      var m :| Goes(course, x, m, moves - 1) && Moves(course, m, y);
      var n :| Goes(course, x, n, moves - 1) && Moves(course, n, z);
      GoesToOne(course, x, m, n, moves - 1);
      MoveIsUnique(course, m, y, z);
    }
  }

  /** Fewer moves put a front of it out. */
  lemma {:induction false} GoesThrough(course: Course, x: Spot, z: Spot, moves: nat, fewer: nat) returns (m: Spot)
    requires fewer <= moves && Goes(course, x, z, moves)
    ensures Goes(course, x, m, fewer) && m.out <= z.out
    decreases moves
  {
    m := z;
    if fewer < moves {
      m :| Goes(course, x, m, moves - 1) && Moves(course, m, z);
      MoveGrows(course, m, z);
      m := GoesThrough(course, x, m, moves - 1, fewer);
    }
  }

  /** Of two ways from the same spot one is a part of the other. */
  lemma OnOneWay(course: Course, x: Spot, y: Spot, m: nat, z: Spot, n: nat)
    requires Goes(course, x, y, m) && Goes(course, x, z, n) && m <= n
    ensures y.out <= z.out
  {
    var w := GoesThrough(course, x, z, n, m);
    GoesToOne(course, x, y, w, m);
  }

  // ---- a turn of the loop is some moves ----

  lemma CrossFadeReads(n: nat, channels: nat, down: seq<Frame>, up: seq<Frame>, down2: seq<Frame>, up2: seq<Frame>)
    requires n <= |down| && n <= |up| && n <= |down2| && n <= |up2|
    requires Framed(down, channels) && Framed(up, channels) && Framed(down2, channels) && Framed(up2, channels)
    requires forall i :: 0 <= i < n ==> down[i] == down2[i] && up[i] == up2[i]
    ensures CrossFade(n, channels, down, up) == CrossFade(n, channels, down2, up2)
  {
  }

  /** A period that is dropped or repeated depends on one analysis window only. */
  lemma ChangeReads(job: Job, near: Job, c: Cursor, period: nat)
    requires MayStep(job, c, period) && !Copying(job.pace.speed, c.timeError)
    requires near == Job(job.input[c.position..c.position + 2 * job.maxPeriod], job.channels, job.pace, job.maxPeriod)
    ensures MayStep(near, Cursor(0, [], c.timeError), period)
    ensures Produced(job, c, period) == Produced(near, Cursor(0, [], c.timeError), period)
    ensures Consumed(job, c, period) == Consumed(near, Cursor(0, [], c.timeError), period)
  {
    var far, window, s := job.input[c.position..], near.input[0..], job.pace.speed;
    assert window == near.input;
    var n := if s > 1.0 then SkipCount(s, period) else InsertCount(s, period);
    FarAndNear(far, window, job.channels, n, period);
  }

  lemma FarAndNear(far: seq<Frame>, window: seq<Frame>, channels: nat, n: nat, period: nat)
    requires n <= period && 2 * period <= |window| <= |far| && Framed(far, channels) && Framed(window, channels)
    requires window == far[..|window|]
    ensures far[..period] == window[..period]
    ensures CrossFade(n, channels, far, far[period..]) == CrossFade(n, channels, window, window[period..])
    ensures CrossFade(n, channels, far[period..], far) == CrossFade(n, channels, window[period..], window)
  {
    assert forall i :: 0 <= i < |window| ==> far[i] == window[i];
    CrossFadeReads(n, channels, far, far[period..], window, window[period..]);
    CrossFadeReads(n, channels, far[period..], far, window[period..], window);
  }

  /** A job on a part of the audio. */
  ghost predicate PartOf(course: Course, job: Job, base: nat) {
    && base + |job.input| <= |course.all| && job.input == course.all[base..base + |job.input|]
    && job.channels == course.voice.channels && job.pace == course.pace && job.maxPeriod == course.maxPeriod
  }

  /** The spot in the audio that a stage of the loop stands for. */
  ghost function SpotOf(base: nat, before: seq<Frame>, x: Stage, copying: bool): Spot {
    Spot(base + x.cursor.position, before + x.cursor.out, x.cursor.timeError, x.memory, copying)
  }

  lemma WindowOfPart(course: Course, job: Job, base: nat, position: nat)
    requires PartOf(course, job, base) && position + 2 * job.maxPeriod <= |job.input|
    ensures Window(course, base + position)
         == Job(job.input[position..position + 2 * job.maxPeriod], job.channels, job.pace, job.maxPeriod)
  {
    SliceOfSlice(course.all, base, |job.input|, position, 2 * job.maxPeriod);
  }

  lemma ChangeIs(course: Course, x: Spot, y: Spot, near: Job, c: Cursor, period: nat, produced: seq<Frame>, consumed: nat)
    requires !Copies(course, x) && x.position + 2 * course.maxPeriod <= |course.all|
    requires near == Window(course, x.position) && c == Cursor(0, [], x.timeError)
    requires StepAnswered(course.voice, near, c, period, x.memory, y.memory)
    requires produced == Produced(near, c, period) && consumed == Consumed(near, c, period)
    requires y.position == x.position + consumed && y.out == x.out + produced && !y.copying
    requires y.timeError == x.timeError + Shift(course.pace, |produced|, consumed)
    ensures Moves(course, x, y)
  {
    assert [] + produced == produced;
    ChangeMoves(course, x, y, period);
  }

  lemma SameWindow(voice: Voice, job: Job, near: Job, c: Cursor, period: nat, before: Memory, after: Memory)
    requires StepAnswered(voice, job, c, period, before, after) && !Copying(job.pace.speed, c.timeError)
    requires MayStep(near, Cursor(0, [], c.timeError), period)
    requires near == Job(job.input[c.position..c.position + 2 * job.maxPeriod], job.channels, job.pace, job.maxPeriod)
    ensures StepAnswered(voice, near, Cursor(0, [], c.timeError), period, before, after)
  {
    StepAsks(voice, job, c, period, before, after, near.input);
    assert near.input[0..2 * near.maxPeriod] == near.input;
    AnswerIsStep(voice, near, Cursor(0, [], c.timeError), period, before, after, near.input);
  }

  /** A turn that does not copy is one on its own window. */
  lemma LocalTurn(course: Course, job: Job, near: Job, base: nat, c: Cursor, period: nat, before: Memory, after: Memory)
    requires PartOf(course, job, base) && StepAnswered(course.voice, job, c, period, before, after)
    requires !Copying(job.pace.speed, c.timeError) && near == Window(course, base + c.position)
    ensures StepAnswered(course.voice, near, Cursor(0, [], c.timeError), period, before, after)
    ensures Produced(near, Cursor(0, [], c.timeError), period) == Produced(job, c, period)
    ensures Consumed(near, Cursor(0, [], c.timeError), period) == Consumed(job, c, period)
  {
    WindowOfPart(course, job, base, c.position);
    ChangeReads(job, near, c, period);
    SameWindow(course.voice, job, near, c, period, before, after);
  }

  lemma LinkFigures(voice: Voice, job: Job, x: Stage, y: Stage, period: nat)
    requires LinkBy(voice, job, x, y, period)
    ensures MayStep(job, x.cursor, period) && StepAnswered(voice, job, x.cursor, period, x.memory, y.memory)
    ensures var produced, consumed := Produced(job, x.cursor, period), Consumed(job, x.cursor, period);
      y.cursor == Cursor(x.cursor.position + consumed, x.cursor.out + produced,
                         x.cursor.timeError + Shift(job.pace, |produced|, consumed))
  {
  }

  /** So it is a move. */
  lemma ChangeTurn(course: Course, job: Job, base: nat, before: seq<Frame>, x: Stage, y: Stage, copying: bool, period: nat)
    requires PartOf(course, job, base) && LinkBy(course.voice, job, x, y, period) && !Copying(job.pace.speed, x.cursor.timeError)
    requires copying ==> x.cursor.timeError != 0.0
    ensures Moves(course, SpotOf(base, before, x, copying), SpotOf(base, before, y, false))
  {
    var c := x.cursor;
    LinkFigures(course.voice, job, x, y, period);
    var near := Window(course, base + c.position);
    LocalTurn(course, job, near, base, c, period, x.memory, y.memory);
    Associates(before, c.out, Produced(job, c, period));
    ChangeIs(course, SpotOf(base, before, x, copying), SpotOf(base, before, y, false), near, Cursor(0, [], c.timeError),
             period, Produced(job, c, period), Consumed(job, c, period));
  }

  /** Copying a number of frames, as it counts them. */
  ghost function Copied(course: Course, x: Spot, n: nat): Spot
    requires x.position + n <= |course.all|
  {
    Spot(x.position + n, x.out + course.all[x.position..x.position + n], x.timeError + Duration(n, course.pace.Gain()),
         x.memory, n > 0 || x.copying)
  }

  lemma CopiedFirst(course: Course, x: Spot, y: Spot, n: nat)
    requires n > 0 && x.position + n <= |course.all| && CopiesOne(course, x, y)
    ensures Copied(course, y, n - 1) == Copied(course, x, n)
  {
    DurationAdds(1, n - 1, course.pace.Gain());
    assert Duration(1, course.pace.Gain()) == Duration(0, course.pace.Gain()) + course.pace.Gain();
    var all, p := course.all, x.position;
    assert all[p..p + n] == [all[p]] + all[p + 1..p + n];
    Associates(x.out, [all[p]], all[p + 1..p + n]);
  }

  /** Copying until the error is past zero is a move for every frame. */
  lemma {:induction false} CopyingGoes(course: Course, start: Spot, x: Spot, moves: nat, available: nat) returns (more: nat)
    requires Goes(course, start, x, moves) && x.position + available <= |course.all|
    requires course.pace.Valid() && 0.5 < course.pace.speed < 2.0 && course.pace.speed != 1.0
    requires Copying(course.pace.speed, x.timeError) || x.copying
    ensures Goes(course, start, Copied(course, x, UntilPast(course.pace.Gain(), x.timeError, available)), more)
    decreases available
  {
    var gain := course.pace.Gain();
    more := moves;
    if available == 0 || Past(gain, x.timeError) {
      assert x.out + course.all[x.position..x.position] == x.out;
    } else {
      var y := Spot(x.position + 1, x.out + [course.all[x.position]], x.timeError + gain, x.memory, true);
      CopyMoves(course, x, y);
      more := CopyingGoes(course, start, y, moves + 1, available - 1);
      CopiedFirst(course, x, y, UntilPast(gain, x.timeError, available));
    }
  }

  lemma {:induction false} PastOrUsedUp(gain: real, error: real, available: nat)
    ensures var n := UntilPast(gain, error, available);
      n == available || Past(gain, error + Duration(n, gain))
    decreases available
  {
    if available > 0 && !Past(gain, error) {
      PastOrUsedUp(gain, error + gain, available - 1);
      DurationAdds(1, UntilPast(gain, error + gain, available - 1), gain);
      assert Duration(1, gain) == Duration(0, gain) + gain;
    }
  }

  /** What a copying turn does. It leaves the error at zero only where the input is used up. */
  lemma CopyFigures(job: Job, x: Cursor, n: nat)
    requires MayStep(job, x, 0) && Copying(job.pace.speed, x.timeError)
    requires n == UntilPast(job.pace.Gain(), x.timeError, |job.input| - x.position)
    ensures n > 0 && x.position + n <= |job.input|
    ensures Step(job, x, 0) == Cursor(x.position + n, x.out + job.input[x.position..x.position + n],
                                      x.timeError + Duration(n, job.pace.Gain()))
    ensures Step(job, x, 0).timeError == 0.0 ==> Step(job, x, 0).position == |job.input|
  {
    CopyNetTime(job.pace, n);
    PastOrUsedUp(job.pace.Gain(), x.timeError, |job.input| - x.position);
    assert job.input[x.position..][..n] == job.input[x.position..x.position + n];
  }

  lemma CopyingLink(voice: Voice, job: Job, x: Stage, y: Stage)
    requires Link(voice, job, x, y) && Copying(job.pace.speed, x.cursor.timeError)
    ensures MayStep(job, x.cursor, 0) && y == Stage(Step(job, x.cursor, 0), x.memory, false)
  {
    var period := PeriodOfLink(voice, job, x, y);
  }

  lemma CopiedSpot(course: Course, job: Job, base: nat, before: seq<Frame>, x: Stage, y: Stage, copying: bool, n: nat)
    requires PartOf(course, job, base) && n > 0 && x.cursor.position + n <= |job.input|
    requires y.cursor.position == x.cursor.position + n && y.memory == x.memory
    requires y.cursor.out == x.cursor.out + job.input[x.cursor.position..x.cursor.position + n]
    requires y.cursor.timeError == x.cursor.timeError + Duration(n, job.pace.Gain())
    ensures Copied(course, SpotOf(base, before, x, copying), n) == SpotOf(base, before, y, true)
  {
    SliceOfSlice(course.all, base, |job.input|, x.cursor.position, n);
    Associates(before, x.cursor.out, job.input[x.cursor.position..x.cursor.position + n]);
  }

  /** A turn that copies is a move for every frame. */
  lemma CopyTurn(course: Course, job: Job, base: nat, before: seq<Frame>, start: Spot, x: Stage, y: Stage, copying: bool, moves: nat)
    returns (more: nat)
    requires PartOf(course, job, base) && Link(course.voice, job, x, y) && Copying(job.pace.speed, x.cursor.timeError)
    requires Goes(course, start, SpotOf(base, before, x, copying), moves)
    ensures Goes(course, start, SpotOf(base, before, y, true), more)
    ensures y.cursor.timeError == 0.0 ==> y.cursor.position == |job.input|
  {
    CopyingLink(course.voice, job, x, y);
    var available: nat := |job.input| - x.cursor.position;
    var n := UntilPast(job.pace.Gain(), x.cursor.timeError, available);
    CopyFigures(job, x.cursor, n);
    more := CopyingGoes(course, start, SpotOf(base, before, x, copying), moves, available);
    CopiedSpot(course, job, base, before, x, y, copying, n);
  }

  /** A turn of the loop. */
  lemma TurnGoes(course: Course, job: Job, base: nat, before: seq<Frame>, start: Spot, x: Stage, y: Stage, copying: bool, moves: nat)
    returns (more: nat)
    requires PartOf(course, job, base) && Link(course.voice, job, x, y)
    requires Goes(course, start, SpotOf(base, before, x, copying), moves) && (copying ==> x.cursor.timeError != 0.0)
    ensures Goes(course, start, SpotOf(base, before, y, Copying(job.pace.speed, x.cursor.timeError)), more)
    ensures Copying(job.pace.speed, x.cursor.timeError) && y.cursor.timeError == 0.0 ==> y.cursor.position == |job.input|
  {
    if Copying(job.pace.speed, x.cursor.timeError) {
      more := CopyTurn(course, job, base, before, start, x, y, copying, moves);
    } else {
      var period := PeriodOfLink(course.voice, job, x, y);
      ChangeTurn(course, job, base, before, x, y, copying, period);
      more := moves + 1;
    }
  }

  /** The last turn from x to y has copied, up to an error of exactly zero. */
  ghost predicate CutBy(voice: Voice, job: Job, x: Stage, m: Stage, y: Stage, turns: nat) {
    && Leads(voice, job, x, m, turns) && Link(voice, job, m, y)
    && Copying(job.pace.speed, m.cursor.timeError) && y.cursor.timeError == 0.0
  }

  /** Any number of turns. What they forget matters only where a copy was cut off at an error of zero. */
  lemma {:induction false} CallGoes(course: Course, job: Job, base: nat, before: seq<Frame>, start: Spot, x: Stage, y: Stage,
                                    copying: bool, moves: nat, turns: nat) returns (more: nat, flag: bool)
    requires PartOf(course, job, base) && job.maxPeriod >= 1 && Leads(course.voice, job, x, y, turns)
    requires Goes(course, start, SpotOf(base, before, x, copying), moves) && (copying ==> x.cursor.timeError != 0.0)
    ensures Goes(course, start, SpotOf(base, before, y, flag), more)
    ensures flag && y.cursor.timeError == 0.0 ==>
      y.cursor.position == |job.input| && exists m, k: nat :: CutBy(course.voice, job, x, m, y, k)
    decreases turns
  {
    more, flag := moves, copying;
    if turns > 0 {
      var m :| Leads(course.voice, job, x, m, turns - 1) && Link(course.voice, job, m, y);
      more, flag := CallGoes(course, job, base, before, start, x, m, copying, moves, turns - 1);
      if flag && m.cursor.timeError == 0.0 {
        NoLinkFromEnd(course.voice, job, m, y);
        assert false;
      }
      more := TurnGoes(course, job, base, before, start, m, y, flag, more);
      flag := Copying(job.pace.speed, m.cursor.timeError);
      assert flag && y.cursor.timeError == 0.0 ==> CutBy(course.voice, job, x, m, y, turns - 1);
    }
  }

  // ---- passes ----

  /** The course of a setup at a speed. */
  ghost predicate CourseOf(setup: Setup, speed: real, course: Course) {
    && ModerateSpeed(speed) && !Neutral(speed) && setup.samplePeriod > 0.0 && setup.maxPeriod >= 1
    && course.voice == setup.voice && course.maxPeriod == setup.maxPeriod
    && course.pace == Pace(speed, setup.samplePeriod / speed, setup.samplePeriod)
  }

  ghost function CourseOver(setup: Setup, speed: real, audio: seq<Frame>): (course: Course)
    requires ModerateSpeed(speed) && !Neutral(speed) && setup.samplePeriod > 0.0 && setup.maxPeriod >= 1
    ensures CourseOf(setup, speed, course) && course.all == audio
  {
    Course(setup.voice, Pace(speed, setup.samplePeriod / speed, setup.samplePeriod), setup.maxPeriod, audio)
  }

  /** This call ends with a copy that is cut off at an error of exactly zero. */
  ghost predicate CutAtZero(setup: Setup, before: TempoState) {
    exists job, m, y, k: nat :: JobOf(setup, before, job) && Ended(job, y) && CutBy(setup.voice, job, StartOf(before), m, y, k)
  }

  /** It leaves neither input nor error behind, so that it can be told from what is left after a write. */
  lemma CutLeavesNothing(setup: Setup, before: TempoState, out: seq<Frame>, after: TempoState)
    requires CutAtZero(setup, before) && IsStretched(setup, before, out, after)
    requires before.playTime > 0.0 ==> !Neutral(LocalSpeed(setup.samplePeriod, |before.input|, before.playTime))
    ensures after.input == [] && after.timeError == 0.0
  {
    var job, m, y, k: nat :| JobOf(setup, before, job) && Ended(job, y) && CutBy(setup.voice, job, StartOf(before), m, y, k);
    StretchedMeans(setup, before, out, after);
    var task, z :| LoopMakes(setup, before, out, after, task, z);
    JobIsUnique(setup, before, job, task);
    assert Leads(setup.voice, job, StartOf(before), y, k + 1);
    EndIsReached(setup.voice, job, StartOf(before), y, k + 1);
    ReachesOne(setup.voice, job, StartOf(before), y, z);
    CopyingLink(setup.voice, job, m, y);
    CopyFigures(job, m.cursor, UntilPast(job.pace.Gain(), m.cursor.timeError, |job.input| - m.cursor.position));
  }

  /** Input that waits at the speed of the course is a job on it. */
  lemma JobIsPart(setup: Setup, speed: real, course: Course, before: TempoState, job: Job, base: nat)
    requires CourseOf(setup, speed, course) && JobOf(setup, before, job) && StatePlaysAt(setup, before, speed)
    requires base + |before.input| <= |course.all| && before.input == course.all[base..base + |before.input|]
    ensures PartOf(course, job, base)
  {
    PlaysAtLocalSpeed(setup.samplePeriod, |before.input|, before.playTime, speed);
    DurationInjective(|before.input|, job.pace.inputTime, setup.samplePeriod / speed);
  }

  lemma {:induction false} NeverStalls(voice: Voice, job: Job, x: Stage, y: Stage, turns: nat)
    requires Leads(voice, job, x, y, turns) && !x.stalled && ModerateSpeed(job.pace.speed)
    ensures !y.stalled
  {
    if turns > 0 {
      var m :| Leads(voice, job, x, m, turns - 1) && Link(voice, job, m, y);
      var period := PeriodOfLink(voice, job, m, y);
      StepAdvances(job, m.cursor, period);
    }
  }

  /** The spot at which a state stands once some audio is gone and some output is made. */
  ghost function At(position: nat, out: seq<Frame>, state: TempoState, copying: bool): Spot {
    Spot(position, out, state.timeError, state.memory, copying)
  }

  lemma LoopGoes(setup: Setup, speed: real, course: Course, before: TempoState, out: seq<Frame>, after: TempoState,
                 job: Job, y: Stage, start: Spot, base: nat, done: seq<Frame>, copying: bool, moves: nat)
    returns (more: nat, flag: bool)
    requires CourseOf(setup, speed, course) && LoopMakes(setup, before, out, after, job, y) && StatePlaysAt(setup, before, speed)
    requires base + |before.input| <= |course.all| && before.input == course.all[base..base + |before.input|]
    requires Goes(course, start, At(base, done, before, copying), moves) && (copying ==> before.timeError != 0.0)
    ensures |after.input| <= |before.input| && after.input == before.input[|before.input| - |after.input|..]
    ensures Goes(course, start, At(base + |before.input| - |after.input|, done + out, after, flag), more)
    ensures flag && after.timeError == 0.0 ==> CutAtZero(setup, before)
  {
    JobIsPart(setup, speed, course, before, job, base);
    var turns: nat :| Finishes(setup.voice, job, StartOf(before), y, turns);
    NeverStalls(setup.voice, job, StartOf(before), y, turns);
    assert done + [] == done;
    more, flag := CallGoes(course, job, base, done, start, StartOf(before), y, copying, moves, turns);
  }

  /** A pass of the tempo stage goes a part of the way. */
  lemma PassGoes(setup: Setup, speed: real, course: Course, before: TempoState, out: seq<Frame>, after: TempoState,
                 start: Spot, base: nat, done: seq<Frame>, copying: bool, moves: nat) returns (more: nat, flag: bool)
    requires CourseOf(setup, speed, course) && IsStretched(setup, before, out, after) && StatePlaysAt(setup, before, speed)
    requires before.input == [] || before.playTime > 0.0
    requires base + |before.input| <= |course.all| && before.input == course.all[base..base + |before.input|]
    requires Goes(course, start, At(base, done, before, copying), moves) && (copying ==> before.timeError != 0.0)
    requires !CutAtZero(setup, before)
    ensures |after.input| <= |before.input| && after.input == before.input[|before.input| - |after.input|..]
    ensures Goes(course, start, At(base + |before.input| - |after.input|, done + out, after, flag), more)
    ensures flag ==> after.timeError != 0.0
  {
    StretchedMeans(setup, before, out, after);
    if before.input == [] {
      more, flag := moves, copying;
      assert done + [] == done;
    } else {
      PlaysAtLocalSpeed(setup.samplePeriod, |before.input|, before.playTime, speed);
      var job, y :| LoopMakes(setup, before, out, after, job, y);
      more, flag := LoopGoes(setup, speed, course, before, out, after, job, y, start, base, done, copying, moves);
    }
  }

  /** What is written at one speed. */
  ghost predicate AllAt(schedule: seq<Entry>, speed: real) {
    forall i :: 0 <= i < |schedule| ==> schedule[i].speed == speed
  }

  /** No pass of the run ends with a copy cut off at an error of exactly zero. */
  ghost predicate NeverCutAtZero(setup: Setup, x: Progress, schedule: seq<Entry>) {
    forall k, m :: 0 <= k < |schedule| && schedule[k].speed > 0.0 && Plays(setup, x, schedule[..k], m) ==>
      !CutAtZero(setup, Waiting(setup, m, schedule[k]))
  }

  lemma FrontNeverCut(setup: Setup, x: Progress, schedule: seq<Entry>)
    requires schedule != [] && NeverCutAtZero(setup, x, schedule)
    ensures NeverCutAtZero(setup, x, schedule[..|schedule| - 1])
  {
    var front := schedule[..|schedule| - 1];
    forall k, m | 0 <= k < |front| && front[k].speed > 0.0 && Plays(setup, x, front[..k], m)
      ensures !CutAtZero(setup, Waiting(setup, m, front[k]))
    {
      assert front[..k] == schedule[..k] && front[k] == schedule[k];
    }
  }

  /** How far a run over some audio is: what waits is the end of the audio, at the speed of the course. */
  ghost predicate Reached(setup: Setup, speed: real, course: Course, start: Spot, audio: seq<Frame>, y: Progress, copying: bool, moves: nat) {
    && |y.state.input| <= |audio| && y.state.input == audio[|audio| - |y.state.input|..]
    && StatePlaysAt(setup, y.state, speed) && (copying ==> y.state.timeError != 0.0)
    && Goes(course, start, At(|audio| - |y.state.input|, y.out, y.state, copying), moves)
  }

  lemma EndOfAppended<T>(audio: seq<T>, end: seq<T>, more: seq<T>, all: seq<T>)
    requires |end| <= |audio| && end == audio[|audio| - |end|..] && audio + more <= all
    ensures end + more == all[|audio| - |end|..|audio| + |more|]
  {
  }

  lemma EndOfEnd<T>(all: seq<T>, audio: seq<T>, from: nat, middle: seq<T>, end: seq<T>)
    requires audio <= all && from <= |audio| && middle == all[from..|audio|]
    requires |end| <= |middle| && end == middle[|middle| - |end|..]
    ensures end == audio[|audio| - |end|..]
  {
  }

  /** One more piece. */
  lemma EntryGoes(setup: Setup, speed: real, course: Course, start: Spot, audio: seq<Frame>, m: Progress, entry: Entry, y: Progress,
                  copying: bool, moves: nat) returns (more: nat, flag: bool)
    requires CourseOf(setup, speed, course) && PlaysEntry(setup, m, entry, y) && entry.speed == speed
    requires Reached(setup, speed, course, start, audio, m, copying, moves) && audio + entry.samples <= course.all
    requires !CutAtZero(setup, Waiting(setup, m, entry))
    ensures Reached(setup, speed, course, start, audio + entry.samples, y, flag, more)
  {
    var due, base := Waiting(setup, m, entry), |audio| - |m.state.input|;
    var out := y.out[|m.out|..];
    WaitsOnCourse(setup, speed, m, entry, audio, course.all);
    more, flag := PieceGoes(setup, speed, course, start, audio + entry.samples, due, out, y.state, base, m.out, copying, moves);
    assert m.out + out == y.out;
  }

  lemma PieceGoes(setup: Setup, speed: real, course: Course, start: Spot, audio: seq<Frame>, before: TempoState, out: seq<Frame>,
                  after: TempoState, base: nat, done: seq<Frame>, copying: bool, moves: nat) returns (more: nat, flag: bool)
    requires CourseOf(setup, speed, course) && IsStretched(setup, before, out, after) && StatePlaysAt(setup, before, speed)
    requires before.input == [] || before.playTime > 0.0
    requires audio <= course.all && base + |before.input| == |audio| && before.input == course.all[base..|audio|]
    requires Goes(course, start, At(base, done, before, copying), moves) && (copying ==> before.timeError != 0.0)
    requires !CutAtZero(setup, before)
    ensures |after.input| <= |audio| && after.input == audio[|audio| - |after.input|..]
    ensures StatePlaysAt(setup, after, speed) && (flag ==> after.timeError != 0.0)
    ensures Goes(course, start, At(|audio| - |after.input|, done + out, after, flag), more)
  {
    more, flag := PassGoes(setup, speed, course, before, out, after, start, base, done, copying, moves);
    PassKeepsSpeed(setup, before, out, after, speed);
    EndOfEnd(course.all, audio, base, before.input, after.input);
  }

  /** What waits once a piece is written lies on the course. */
  lemma WaitsOnCourse(setup: Setup, speed: real, m: Progress, entry: Entry, audio: seq<Frame>, all: seq<Frame>)
    requires speed > 0.0 && entry.speed == speed && StatePlaysAt(setup, m.state, speed)
    requires |m.state.input| <= |audio| && m.state.input == audio[|audio| - |m.state.input|..] && audio + entry.samples <= all
    ensures var due, base := Waiting(setup, m, entry), |audio| - |m.state.input|;
      && StatePlaysAt(setup, due, speed) && base + |due.input| == |audio + entry.samples| <= |all|
      && due.input == all[base..base + |due.input|]
      && due.timeError == m.state.timeError && due.memory == m.state.memory
  {
    WritePlaysAt(setup.samplePeriod, |m.state.input|, m.state.playTime, |entry.samples|, speed);
    EndOfAppended(audio, m.state.input, entry.samples, all);
  }

  /** A run over some pieces of the audio. */
  lemma {:induction false} RunGoes(setup: Setup, speed: real, course: Course, x: Progress, schedule: seq<Entry>, y: Progress)
    returns (flag: bool, moves: nat)
    requires CourseOf(setup, speed, course) && AllAt(schedule, speed) && Plays(setup, x, schedule, y)
    requires x.state.input == [] && x.state.playTime == 0.0 && AllSamples(schedule) <= course.all
    requires NeverCutAtZero(setup, x, schedule)
    ensures Reached(setup, speed, course, At(0, x.out, x.state, false), AllSamples(schedule), y, flag, moves)
    decreases |schedule|
  {
    flag, moves := false, 0;
    if schedule != [] {
      var k := |schedule| - 1;
      var front := schedule[..k];
      var m :| Plays(setup, x, front, m) && PlaysEntry(setup, m, schedule[k], y);
      FrontNeverCut(setup, x, schedule);
      flag, moves := RunGoes(setup, speed, course, x, front, m);
      moves, flag := EntryGoes(setup, speed, course, At(0, x.out, x.state, false), AllSamples(front), m, schedule[k], y, flag, moves);
    }
  }

  lemma PlayedGoes(setup: Setup, speed: real, course: Course, x: Progress, schedule: seq<Entry>, y: Progress)
    returns (flag: bool, moves: nat)
    requires CourseOf(setup, speed, course) && AllAt(schedule, speed) && IsPlayed(setup, x, schedule, y)
    requires x.state.input == [] && x.state.playTime == 0.0 && AllSamples(schedule) <= course.all
    requires NeverCutAtZero(setup, x, schedule)
    ensures Reached(setup, speed, course, At(0, x.out, x.state, false), AllSamples(schedule), y, flag, moves)
  {
    PlayedMeans(setup, x, schedule, y);
    flag, moves := RunGoes(setup, speed, course, x, schedule, y);
  }

  lemma NeutralEntry(setup: Setup, speed: real, m: Progress, entry: Entry, y: Progress)
    requires Neutral(speed) && entry.speed == speed && PlaysEntry(setup, m, entry, y)
    requires m.state.input == [] && m.state.playTime == 0.0
    ensures y.state.input == [] && y.state.playTime == 0.0 && y.out == m.out + entry.samples
  {
    var due := Waiting(setup, m, entry);
    assert due.input == entry.samples && m.out + y.out[|m.out|..] == y.out;
    WritePlaysAt(setup.samplePeriod, 0, 0.0, |entry.samples|, speed);
    NeutralPass(setup, speed, due, y.out[|m.out|..], y.state);
  }

  lemma NeutralPass(setup: Setup, speed: real, before: TempoState, out: seq<Frame>, after: TempoState)
    requires Neutral(speed) && IsStretched(setup, before, out, after) && StatePlaysAt(setup, before, speed)
    requires before.input == [] || before.playTime > 0.0
    ensures out == before.input && after.input == [] && after.playTime == 0.0
  {
    StretchedMeans(setup, before, out, after);
    if before.input != [] {
      PlaysAtLocalSpeed(setup.samplePeriod, |before.input|, before.playTime, speed);
    }
  }

  lemma {:induction false} NeutralRun(setup: Setup, speed: real, x: Progress, schedule: seq<Entry>, y: Progress)
    requires Neutral(speed) && AllAt(schedule, speed) && Plays(setup, x, schedule, y)
    requires x.state.input == [] && x.state.playTime == 0.0
    ensures y.state.input == [] && y.state.playTime == 0.0 && y.out == x.out + AllSamples(schedule)
    decreases |schedule|
  {
    if schedule != [] {
      var k := |schedule| - 1;
      var front := schedule[..k];
      var m :| Plays(setup, x, front, m) && PlaysEntry(setup, m, schedule[k], y);
      NeutralRun(setup, speed, x, front, m);
      NeutralEntry(setup, speed, m, schedule[k], y);
      Associates(x.out, AllSamples(front), schedule[k].samples);
    }
  }

  /** In the neutral band everything is copied at once. */
  lemma NeutralPlayed(setup: Setup, speed: real, x: Progress, schedule: seq<Entry>, y: Progress)
    requires Neutral(speed) && AllAt(schedule, speed) && IsPlayed(setup, x, schedule, y)
    requires x.state.input == [] && x.state.playTime == 0.0
    ensures y.out == x.out + AllSamples(schedule)
  {
    PlayedMeans(setup, x, schedule, y);
    NeutralRun(setup, speed, x, schedule, y);
  }

  /** Two runs on one course. */
  lemma OneIsAFront(setup: Setup, speed: real, course: Course, start: Spot, a: seq<Frame>, y: Progress, f: bool, m: nat,
                    b: seq<Frame>, z: Progress, g: bool, n: nat)
    requires Reached(setup, speed, course, start, a, y, f, m) && Reached(setup, speed, course, start, b, z, g, n)
    ensures y.out <= z.out || z.out <= y.out
  {
    var here, there := At(|a| - |y.state.input|, y.out, y.state, f), At(|b| - |z.state.input|, z.out, z.state, g);
    if m <= n {
      OnOneWay(course, start, here, m, there, n);
    } else {
      OnOneWay(course, start, there, n, here, m);
    }
  }

  /**
   * The pieces in which audio is written do not change what comes out, only how much of it has come out yet: at
   * one speed, of the outputs for two ways to write some audio, or more of it, one is a front of the other. This
   * holds unless a pass ends with a copy that is cut off at an error of exactly zero.
   */
  lemma PiecesDoNotMatter(setup: Setup, speed: real, x: Progress, p: seq<Entry>, y: Progress, q: seq<Entry>, z: Progress)
    requires ModerateSpeed(speed) && setup.samplePeriod > 0.0 && setup.maxPeriod >= 1
    requires x.state.input == [] && x.state.playTime == 0.0
    requires AllAt(p, speed) && IsPlayed(setup, x, p, y) && NeverCutAtZero(setup, x, p)
    requires AllAt(q, speed) && IsPlayed(setup, x, q, z) && NeverCutAtZero(setup, x, q)
    requires AllSamples(p) <= AllSamples(q)
    ensures y.out <= z.out || z.out <= y.out
  {
    if Neutral(speed) {
      NeutralPlayed(setup, speed, x, p, y);
      NeutralPlayed(setup, speed, x, q, z);
      return;
    }
    var course := CourseOver(setup, speed, AllSamples(q));
    var f, m := PlayedGoes(setup, speed, course, x, p, y);
    var g, n := PlayedGoes(setup, speed, course, x, q, z);
    OneIsAFront(setup, speed, course, At(0, x.out, x.state, false), AllSamples(p), y, f, m, AllSamples(q), z, g, n);
  }

  /**
   * Such a cut does matter: the copy had taken exactly one more frame if there had been more input, but where it is
   * cut off the next turn drops or repeats a period.
   */
  lemma CutAtZeroMatters(job: Job, c: Cursor, more: seq<Frame>)
    requires MayStep(job, c, 0) && Copying(job.pace.speed, c.timeError) && Step(job, c, 0).timeError == 0.0
    requires more != [] && Framed(more, job.channels)
    ensures !Copying(job.pace.speed, Step(job, c, 0).timeError) && Step(job, c, 0).position == |job.input|
    ensures var longer := job.(input := job.input + more);
      MayStep(longer, c, 0) && Step(longer, c, 0).position == |job.input| + 1
  {
    var gain, available := job.pace.Gain(), |job.input| - c.position;
    CopyFigures(job, c, UntilPast(gain, c.timeError, available));
    OneMoreFrame(gain, c.timeError, available, available + |more|);
  }

  lemma {:induction false} OneMoreFrame(gain: real, error: real, available: nat, more: nat)
    requires gain != 0.0 && UntilPast(gain, error, available) == available < more && error + Duration(available, gain) == 0.0
    ensures UntilPast(gain, error, more) == available + 1
    decreases available
  {
    if available == 0 {
      assert UntilPast(gain, error + gain, more - 1) == 0;
    } else {
      DurationAdds(1, available - 1, gain);
      assert Duration(1, gain) == Duration(0, gain) + gain;
      OneMoreFrame(gain, error + gain, available - 1, more - 1);
    }
  }
}
