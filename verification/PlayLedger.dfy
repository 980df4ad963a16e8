/**
 * The play time accounts of a stream since it was created or last flushed. Every write promises an
 * amount of play time; the tempo stage delivers it as output frames. Times are in seconds, frame
 * counts are turned into times by `Duration`.
 */
module PlayLedger {
  import opened RealArith
  import opened Frames
  import opened Tempo
  import opened TempoCode

  /** Local speeds in this band count as normal speed, and the input is copied as it is. */
  predicate Neutral(localSpeed: real) {
    0.99999 <= localSpeed <= 1.00001
  }

  function LocalSpeed(samplePeriod: real, numInput: nat, playTime: real): real
    requires playTime != 0.0
  {
    numInput as real * samplePeriod / playTime
  }

  /** The play time of n frames written at some speed. */
  function WriteTime(samplePeriod: real, n: nat, speed: real): real
    requires speed != 0.0
  {
    n as real * samplePeriod / speed
  }

  /** The play time that is left when frames are removed. */
  function RemainingTime(playTime: real, numInput: nat, remaining: nat): real
    requires numInput > 0
  {
    playTime * remaining as real / numInput as real
  }

  /** A pass of the tempo stage: the local speed, and the input frames that were waiting with their play time. */
  datatype Pass = Pass(speed: real, waiting: nat, playTime: real)

  function PassOver(samplePeriod: real, waiting: nat, playTime: real): Pass
    requires playTime != 0.0
  {
    Pass(LocalSpeed(samplePeriod, waiting, playTime), waiting, playTime)
  }

  /** Speeds from half to double; with less than one analysis window of input the tempo loop makes no step at any speed. */
  predicate PassFits(pass: Pass, maxRequired: nat) {
    ModerateSpeed(pass.speed) || pass.waiting < maxRequired
  }

  /** The passes that conserve play time: at exactly normal speed, or outside the neutral band. */
  predicate PassConserves(pass: Pass, maxRequired: nat) {
    pass.speed == 1.0 || (!Neutral(pass.speed) && PassFits(pass, maxRequired))
  }

  /**
   * promised: the play time of everything written; played: the frames that the tempo stage produced;
   * slack: the play time that copying at a speed not quite 1 has added; moderate: every pass so far
   * was at a local speed from half to double, or had too little input for a step.
   */
  datatype Ledger = Ledger(promised: real, played: nat, slack: real, moderate: bool, passes: seq<Pass>)

  const EMPTY := Ledger(0.0, 0, 0.0, true, [])

  /** What has been produced plus what is waiting is what was promised, up to the known error and slack. */
  ghost predicate Conserved(l: Ledger, samplePeriod: real, playTime: real, timeError: real) {
    Duration(l.played, samplePeriod) + playTime - timeError == l.promised + l.slack
  }

  /** The slack is at most a hundred-thousandth of the play time that has left the input buffer. */
  ghost predicate SlackBounded(l: Ledger, playTime: real) {
    && playTime <= l.promised
    && -0.00001 * (l.promised - playTime) <= l.slack <= 0.00001 * (l.promised - playTime)
  }

  ghost predicate Balanced(l: Ledger, samplePeriod: real, maxPeriod: nat, playTime: real, timeError: real) {
    l.moderate ==>
      && -Duration(maxPeriod, samplePeriod) <= timeError <= Duration(maxPeriod, samplePeriod)
      && Conserved(l, samplePeriod, playTime, timeError)
      && SlackBounded(l, playTime)
  }

  /** The drift theorem: output produced and play time consumed differ by one pitch period and the slack at most. */
  lemma DriftIsBounded(l: Ledger, samplePeriod: real, maxPeriod: nat, playTime: real, timeError: real)
    requires l.moderate && Balanced(l, samplePeriod, maxPeriod, playTime, timeError)
    ensures var output, consumed := l.played as real * samplePeriod, l.promised - playTime;
      var bound := maxPeriod as real * samplePeriod + 0.00001 * consumed;
      -bound <= output - consumed <= bound
  {
    DurationIsProduct(l.played, samplePeriod);
    DurationIsProduct(maxPeriod, samplePeriod);
  }

  // ---- writing and passing ----

  ghost function Written(l: Ledger, playTime: real): Ledger {
    l.(promised := l.promised + playTime)
  }

  /** The account after a pass over waiting input that produced some frames. */
  ghost function AfterPass(l: Ledger, samplePeriod: real, maxRequired: nat, waiting: nat, playTime: real, produced: nat): Ledger {
    if waiting == 0 || playTime == 0.0 then l.(played := l.played + produced)
    else
      var pass := PassOver(samplePeriod, waiting, playTime);
      l.(played := l.played + produced,
         slack := l.slack + PassSlack(samplePeriod, pass),
         moderate := l.moderate && PassFits(pass, maxRequired),
         passes := l.passes + [pass])
  }

  lemma WriteTimeIsDuration(samplePeriod: real, n: nat, speed: real)
    requires speed != 0.0
    ensures WriteTime(samplePeriod, n, speed) == Duration(n, samplePeriod / speed)
  {
    var k, each := n as real, samplePeriod / speed;
    DurationIsProduct(n, each);
    DivMul(samplePeriod, speed);
    assert k * each * speed == k * (each * speed);
    DivUnique(k * samplePeriod, speed, k * each);
  }

  /** Writing keeps the accounts balanced, at every speed. */
  lemma WriteKeepsBalance(l: Ledger, samplePeriod: real, maxPeriod: nat, playTime: real, timeError: real, time: real)
    requires Balanced(l, samplePeriod, maxPeriod, playTime, timeError)
    ensures Balanced(Written(l, time), samplePeriod, maxPeriod, playTime + time, timeError)
  {
  }

  // ---- the tempo loop ----

  /** The pace that belongs to a buffer of input and its play time. */
  lemma FindPace(samplePeriod: real, numInput: nat, playTime: real) returns (pace: Pace)
    requires samplePeriod > 0.0 && numInput > 0 && playTime > 0.0
    ensures Exact(pace) && pace.outputTime == samplePeriod
    ensures pace.speed == LocalSpeed(samplePeriod, numInput, playTime)
    ensures playTime == Duration(numInput, pace.inputTime)
  {
    var n := numInput as real;
    var s, i := LocalSpeed(samplePeriod, numInput, playTime), playTime / n;
    MulPositive(n, samplePeriod);
    DivAbove(n * samplePeriod, playTime, 0.0);
    DivAbove(playTime, n, 0.0);
    DivMul(n * samplePeriod, playTime);
    DivMul(playTime, n);
    DurationIsProduct(numInput, i);
    PaceProduct(s, i, n, playTime, samplePeriod);
    pace := Pace(s, i, samplePeriod);
    ProductIsExact(pace);
  }

  lemma PaceProduct(s: real, i: real, n: real, t: real, sp: real)
    requires n > 0.0 && s * t == n * sp && i * n == t
    ensures s * i == sp
  {
    assert s * i * n == s * (i * n);
    CancelReal(s * i, sp, n);
  }

  lemma {:induction false} DurationStrict(n: nat, a: real, b: real)
    requires n > 0 && a < b
    ensures Duration(n, a) < Duration(n, b)
  {
    if n > 1 {
      DurationStrict(n - 1, a, b);
    }
  }

  /** Removing input takes its share of the play time away. */
  lemma RemainingIsDuration(numInput: nat, playTime: real, remaining: nat, inputTime: real)
    requires numInput > 0 && playTime == Duration(numInput, inputTime)
    ensures RemainingTime(playTime, numInput, remaining) == Duration(remaining, inputTime)
  {
    DurationIsProduct(numInput, inputTime);
    DurationIsProduct(remaining, inputTime);
    ShareOfTime(remaining as real, inputTime, numInput as real, playTime);
  }

  /** A whole call of the tempo loop that conserves play time and stays on time keeps the accounts balanced. */
  lemma TempoKeepsBalance(l: Ledger, m: Ledger, pace: Pace, maxPeriod: nat, numInput: nat, timeError: real,
                          produced: nat, left: nat, newError: real)
    requires pace.Valid() && left <= numInput && l.moderate
    requires m.promised == l.promised && m.played == l.played + produced && m.slack == l.slack
    requires Balanced(l, pace.outputTime, maxPeriod, Duration(numInput, pace.inputTime), timeError)
    requires newError - timeError == NetTime(pace, produced, numInput - left)
    requires -Duration(maxPeriod, pace.outputTime) <= newError <= Duration(maxPeriod, pace.outputTime)
    ensures Balanced(m, pace.outputTime, maxPeriod, Duration(left, pace.inputTime), newError)
  {
    SettleAccounts(l, pace, numInput, timeError, produced, left, newError);
  }

  /** Moving play time from the input to the output, up to the change of the error. */
  lemma SettleAccounts(l: Ledger, pace: Pace, numInput: nat, timeError: real, produced: nat, left: nat, newError: real)
    requires pace.inputTime > 0.0 && left <= numInput
    requires Conserved(l, pace.outputTime, Duration(numInput, pace.inputTime), timeError)
    requires SlackBounded(l, Duration(numInput, pace.inputTime))
    requires newError - timeError == NetTime(pace, produced, numInput - left)
    ensures Conserved(l.(played := l.played + produced), pace.outputTime, Duration(left, pace.inputTime), newError)
    ensures SlackBounded(l.(played := l.played + produced), Duration(left, pace.inputTime))
  {
    var gone: nat := numInput - left;
    DurationAdds(left, gone, pace.inputTime);
    DurationNonNegative(gone, pace.inputTime);
    SlackStaysBounded(l, Duration(numInput, pace.inputTime), Duration(left, pace.inputTime));
    PlayedMore(l, pace.outputTime, Duration(numInput, pace.inputTime), timeError, produced,
               Duration(left, pace.inputTime), newError);
  }

  lemma PlayedMore(l: Ledger, samplePeriod: real, before: real, timeError: real, produced: nat, after: real, newError: real)
    requires Conserved(l, samplePeriod, before, timeError)
    requires newError - timeError == Duration(produced, samplePeriod) - (before - after)
    ensures Conserved(l.(played := l.played + produced), samplePeriod, after, newError)
  {
    DurationAdds(l.played, produced, samplePeriod);
  }

  lemma SlackStaysBounded(l: Ledger, before: real, after: real)
    requires SlackBounded(l, before) && after <= before
    ensures SlackBounded(l, after)
  {
  }

  // ---- copying everything ----

  /** The play time that a pass adds by copying the whole input; nothing unless the local speed is in the neutral band. */
  ghost function PassSlack(samplePeriod: real, pass: Pass): real {
    if Neutral(pass.speed) then Duration(pass.waiting, samplePeriod) - pass.playTime else 0.0
  }

  /** Copying conserves play time exactly if, and only if, the local speed is 1. */
  lemma CopyConservesIff(samplePeriod: real, numInput: nat, playTime: real)
    requires playTime > 0.0
    ensures Duration(numInput, samplePeriod) == playTime <==> LocalSpeed(samplePeriod, numInput, playTime) == 1.0
  {
    var x := numInput as real * samplePeriod;
    DurationIsProduct(numInput, samplePeriod);
    DivMul(x, playTime);
    if x == playTime {
      DivUnique(x, playTime, 1.0);
    }
  }

  /** So the slack of a pass is the play time that it does not conserve, if it copies, and none if it does not. */
  lemma SlackIsZeroIff(samplePeriod: real, numInput: nat, playTime: real)
    requires playTime > 0.0
    ensures var s := LocalSpeed(samplePeriod, numInput, playTime);
      PassSlack(samplePeriod, PassOver(samplePeriod, numInput, playTime)) == 0.0 <==> !Neutral(s) || s == 1.0
  {
    CopyConservesIff(samplePeriod, numInput, playTime);
  }

  lemma SlackOfOneCopy(samplePeriod: real, numInput: nat, playTime: real)
    requires playTime > 0.0
    ensures -0.00001 * playTime <= PassSlack(samplePeriod, PassOver(samplePeriod, numInput, playTime)) <= 0.00001 * playTime
  {
    var x := numInput as real * samplePeriod;
    var s := LocalSpeed(samplePeriod, numInput, playTime);
    DurationIsProduct(numInput, samplePeriod);
    DivMul(x, playTime);
    if Neutral(s) {
      MulNonNegative(s - 0.99999, playTime);
      MulNonNegative(1.00001 - s, playTime);
      assert (s - 0.99999) * playTime == x - playTime + 0.00001 * playTime;
      assert (1.00001 - s) * playTime == playTime - x + 0.00001 * playTime;
    }
  }

  /** Copying all input in the neutral band keeps the accounts balanced, with what it costs. */
  lemma CopyKeepsBalance(l: Ledger, samplePeriod: real, maxPeriod: nat, maxRequired: nat, numInput: nat, playTime: real, timeError: real)
    requires playTime > 0.0 && numInput > 0 && Neutral(LocalSpeed(samplePeriod, numInput, playTime))
    requires Balanced(l, samplePeriod, maxPeriod, playTime, timeError)
    ensures Balanced(AfterPass(l, samplePeriod, maxRequired, numInput, playTime, numInput), samplePeriod, maxPeriod, 0.0, timeError)
  {
    SlackOfOneCopy(samplePeriod, numInput, playTime);
    DurationAdds(l.played, numInput, samplePeriod);
  }

  // ---- one speed throughout ----

  /** The waiting input was all written at one speed, as far as its play time shows. */
  ghost predicate PlaysAt(samplePeriod: real, numInput: nat, playTime: real, speed: real) {
    speed > 0.0 && playTime == Duration(numInput, samplePeriod / speed)
  }

  lemma DurationInjective(n: nat, a: real, b: real)
    requires n > 0 && Duration(n, a) == Duration(n, b)
    ensures a == b
  {
    if a < b {
      DurationStrict(n, a, b);
    } else if b < a {
      DurationStrict(n, b, a);
    }
  }

  /** Removing input does not change the speed at which the rest plays. */
  lemma RestPlaysAt(samplePeriod: real, numInput: nat, inputTime: real, speed: real, remaining: nat)
    requires numInput > 0 && PlaysAt(samplePeriod, numInput, Duration(numInput, inputTime), speed)
    ensures PlaysAt(samplePeriod, remaining, Duration(remaining, inputTime), speed)
  {
    DurationInjective(numInput, inputTime, samplePeriod / speed);
  }

  /** Where all input plays at one speed, that is the local speed. */
  lemma PlaysAtLocalSpeed(samplePeriod: real, numInput: nat, playTime: real, speed: real)
    requires playTime > 0.0 && PlaysAt(samplePeriod, numInput, playTime, speed)
    ensures LocalSpeed(samplePeriod, numInput, playTime) == speed
  {
    var n, each := numInput as real, samplePeriod / speed;
    DurationIsProduct(numInput, each);
    DivMul(samplePeriod, speed);
    assert speed * (n * each) == n * (each * speed);
    DivUnique(n * samplePeriod, playTime, speed);
  }

  /** Any input plays at its local speed. */
  lemma PlaysAtOwnSpeed(samplePeriod: real, numInput: nat, playTime: real)
    requires samplePeriod > 0.0 && numInput > 0 && playTime > 0.0
    ensures PlaysAt(samplePeriod, numInput, playTime, LocalSpeed(samplePeriod, numInput, playTime))
  {
    var n, s := numInput as real, LocalSpeed(samplePeriod, numInput, playTime);
    MulPositive(n, samplePeriod);
    DivAbove(n * samplePeriod, playTime, 0.0);
    DivMul(n * samplePeriod, playTime);
    DivMul(samplePeriod, s);
    DurationIsProduct(numInput, samplePeriod / s);
    assert n * (samplePeriod / s) * s == n * (samplePeriod / s * s);
    CancelReal(n * (samplePeriod / s), playTime, s);
  }

  // ---- speeds on one side of the band ----

  /** Above the neutral band, or below it. */
  predicate OnSide(fast: bool, speed: real) {
    speed > 0.0 && if fast then speed > 1.00001 else speed < 0.99999
  }

  function Edge(fast: bool): (edge: real)
    ensures edge > 0.0
  {
    if fast then 1.00001 else 0.99999
  }

  /** Frames at a higher speed take less time. */
  lemma FasterIsShorter(samplePeriod: real, slower: real, faster: real, n: nat)
    requires samplePeriod > 0.0 && 0.0 < slower < faster
    ensures Duration(n, samplePeriod / faster) <= Duration(n, samplePeriod / slower)
    ensures n > 0 ==> Duration(n, samplePeriod / faster) < Duration(n, samplePeriod / slower)
  {
    var frame := samplePeriod / faster;
    DivMul(samplePeriod, faster);
    DivAbove(samplePeriod, faster, 0.0);
    ScaleStrict(slower, faster, frame);
    DivAbove(samplePeriod, slower, frame);
    if n > 0 {
      DurationStrict(n, frame, samplePeriod / slower);
    }
  }

  /** Time below or above that of as many frames at some speed means a local speed above or below it. */
  lemma TimeTellsSpeed(samplePeriod: real, n: nat, time: real, edge: real)
    requires samplePeriod > 0.0 && n > 0 && time > 0.0 && edge > 0.0
    ensures time < Duration(n, samplePeriod / edge) ==> LocalSpeed(samplePeriod, n, time) > edge
    ensures time > Duration(n, samplePeriod / edge) ==> LocalSpeed(samplePeriod, n, time) < edge
    ensures time == Duration(n, samplePeriod / edge) ==> LocalSpeed(samplePeriod, n, time) == edge
    ensures LocalSpeed(samplePeriod, n, time) > 0.0
  {
    var k, each := n as real, samplePeriod / edge;
    DurationIsProduct(n, each);
    DivMul(samplePeriod, edge);
    MulPositive(k, samplePeriod);
    assert k * each * edge == k * (each * edge);
    QuotientCompares(k * samplePeriod, time, k * each, edge);
    DivAbove(k * samplePeriod, time, 0.0);
  }

  lemma QuotientCompares(x: real, time: real, y: real, edge: real)
    requires time > 0.0 && edge > 0.0 && y * edge == x
    ensures time < y ==> x / time > edge
    ensures time > y ==> x / time < edge
    ensures time == y ==> x / time == edge
  {
    assert edge * time == time * edge;
    if time < y {
      ScaleStrict(time, y, edge);
      DivAbove(x, time, edge);
    } else if time > y {
      ScaleStrict(y, time, edge);
      DivBelow(x, time, edge);
    } else {
      DivUnique(x, time, edge);
    }
  }

  /** Frames at a speed that is at least as high take no more time. */
  lemma FasterIsNotLonger(samplePeriod: real, slower: real, faster: real, n: nat)
    requires samplePeriod > 0.0 && 0.0 < slower <= faster
    ensures Duration(n, samplePeriod / faster) <= Duration(n, samplePeriod / slower)
  {
    if slower < faster {
      FasterIsShorter(samplePeriod, slower, faster, n);
    }
  }

  /** Input written at moderate speeds has a moderate local speed. */
  lemma MixIsModerate(samplePeriod: real, m: nat, v: real, n: nat, w: real)
    requires samplePeriod > 0.0 && m + n > 0 && v > 0.0 && w > 0.0
    requires (m > 0 ==> ModerateSpeed(v)) && (n > 0 ==> ModerateSpeed(w))
    requires Duration(m, samplePeriod / v) + Duration(n, samplePeriod / w) > 0.0
    ensures ModerateSpeed(LocalSpeed(samplePeriod, m + n, Duration(m, samplePeriod / v) + Duration(n, samplePeriod / w)))
  {
    var time := Duration(m, samplePeriod / v) + Duration(n, samplePeriod / w);
    var half, double := 0.5, 2.0;
    TimeTellsSpeed(samplePeriod, m + n, time, half);
    TimeTellsSpeed(samplePeriod, m + n, time, double);
    DurationAdds(m, n, samplePeriod / half);
    DurationAdds(m, n, samplePeriod / double);
    if m > 0 {
      FasterIsNotLonger(samplePeriod, half, v, m);
      FasterIsNotLonger(samplePeriod, v, double, m);
    }
    if n > 0 {
      FasterIsNotLonger(samplePeriod, half, w, n);
      FasterIsNotLonger(samplePeriod, w, double, n);
    }
  }

  /** Input written at speeds on one side of the band has a local speed on that side. */
  lemma MixOnSide(samplePeriod: real, m: nat, v: real, n: nat, w: real, fast: bool)
    requires samplePeriod > 0.0 && m + n > 0 && v > 0.0 && w > 0.0
    requires (m > 0 ==> OnSide(fast, v)) && (n > 0 ==> OnSide(fast, w))
    requires Duration(m, samplePeriod / v) + Duration(n, samplePeriod / w) > 0.0
    ensures OnSide(fast, LocalSpeed(samplePeriod, m + n, Duration(m, samplePeriod / v) + Duration(n, samplePeriod / w)))
  {
    var edge := Edge(fast);
    TimeTellsSpeed(samplePeriod, m + n, Duration(m, samplePeriod / v) + Duration(n, samplePeriod / w), edge);
    DurationAdds(m, n, samplePeriod / edge);
    if m > 0 {
      if fast { FasterIsShorter(samplePeriod, edge, v, m); } else { FasterIsShorter(samplePeriod, v, edge, m); }
    }
    if n > 0 {
      if fast { FasterIsShorter(samplePeriod, edge, w, n); } else { FasterIsShorter(samplePeriod, w, edge, n); }
    }
  }

  /** Writing at the speed at which the waiting input plays. */
  lemma WritePlaysAt(samplePeriod: real, numInput: nat, playTime: real, n: nat, speed: real)
    requires PlaysAt(samplePeriod, numInput, playTime, speed)
    ensures PlaysAt(samplePeriod, numInput + n, playTime + WriteTime(samplePeriod, n, speed), speed)
  {
    WriteTimeIsDuration(samplePeriod, n, speed);
    DurationAdds(numInput, n, samplePeriod / speed);
  }

  /** Every positive speed lies in the neutral band, ends included, or on one of its sides. */
  lemma BandOrSide(speed: real)
    requires speed > 0.0
    ensures Neutral(speed) <==> !OnSide(true, speed) && !OnSide(false, speed)
    ensures !(OnSide(true, speed) && OnSide(false, speed))
  {
  }
}
