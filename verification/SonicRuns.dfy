/** What holds over whole runs of a stream: any schedule of speeds and writes, and a flush at the end. */
module SonicRuns {
  import opened Sequences
  import opened CArith
  import opened RealArith
  import opened Frames
  import opened Tempo
  import opened TempoCode
  import opened PlayLedger
  import opened TempoStage
  import opened Schedules
  import opened SonicStreams

  ghost predicate Playable(schedule: seq<Entry>, channels: nat) {
    Forward(schedule) && forall i :: 0 <= i < |schedule| ==> Framed(schedule[i].samples, channels)
  }

  lemma TempoSpeedAtPitchOne(speed: real)
    requires speed > 0.0
    ensures TempoSpeed(speed, 1.0) == speed && ResampleRate(1.0, 1.0) == 1.0
  {
    DivUnique(speed, 1.0, speed);
  }

  /** A stream with no accounts yet that plays at its own pitch and rate. */
  ghost predicate Newborn(stream: SonicStream)
    reads stream
  {
    && stream.ledger == EMPTY && stream.inputBuffer == [] && stream.direct
    && stream.pitch == 1.0 && stream.rate == 1.0
  }

  /** At pitch and rate 1: everything the tempo stage produced is in the output or was read. */
  ghost predicate AtPitchOne(stream: SonicStream)
    reads stream, stream.tracker, stream.converter
  {
    stream.Valid() && stream.pitch == 1.0 && stream.rate == 1.0 && stream.direct
  }

  /** Output and consumed play time differ by one pitch period and a hundred-thousandth at most. */
  ghost predicate OnSchedule(samplePeriod: real, maxPeriod: nat, frames: int, consumed: real) {
    var output, bound := frames as real * samplePeriod, maxPeriod as real * samplePeriod + 0.00001 * consumed;
    -bound <= output - consumed <= bound
  }

  /** The account says how long the output is and how far it is off. */
  lemma OutputOnTime(stream: SonicStream)
    requires AtPitchOne(stream) && stream.ledger.moderate
    ensures OnSchedule(stream.samplePeriod, stream.maxPeriod, |stream.delivered| + |stream.outputBuffer| - stream.base,
                       stream.ledger.promised - stream.inputPlayTime)
  {
    DriftIsBounded(stream.ledger, stream.samplePeriod, stream.maxPeriod, stream.inputPlayTime, stream.timeError);
  }

  /** Output time, waiting play time and time error make up the planned time. */
  ghost predicate Exactly(samplePeriod: real, frames: int, waitingTime: real, timeError: real, planned: real) {
    frames as real * samplePeriod + waitingTime - timeError == planned
  }

  /** Play time is conserved exactly if, and only if, the slack of all copying adds up to nothing. */
  lemma ExactIff(stream: SonicStream)
    requires AtPitchOne(stream) && stream.ledger.moderate
    ensures Exactly(stream.samplePeriod, |stream.delivered| + |stream.outputBuffer| - stream.base,
                    stream.inputPlayTime, stream.timeError, stream.ledger.promised)
       <==> stream.ledger.slack == 0.0
  {
    DurationIsProduct(stream.ledger.played, stream.samplePeriod);
  }

  /** How far the stream is with a schedule: what waits, its account, and the output since the schedule began. */
  ghost function ProgressOf(stream: SonicStream, original: nat): Progress
    requires original <= |stream.outputBuffer|
    reads stream, stream.tracker
  {
    Progress(stream.State(), stream.ledger, stream.outputBuffer[original..])
  }

  /** An entry on the stream is an entry of the model. */
  method PlayEntry(stream: SonicStream, entry: Entry, ghost original: nat)
    requires AtPitchOne(stream) && entry.speed > 0.0 && Framed(entry.samples, stream.numChannels)
    requires original <= |stream.outputBuffer|
    modifies stream, stream.tracker, stream.converter
    ensures AtPitchOne(stream) && stream.speed == entry.speed && stream.Fixed() == old(stream.Fixed())
    ensures stream.received == old(stream.received) + entry.samples
    ensures stream.delivered == old(stream.delivered) && stream.base == old(stream.base)
    ensures unchanged(stream.converter) && old(stream.outputBuffer) <= stream.outputBuffer
    ensures PlaysEntry(stream.Fixed(), old(ProgressOf(stream, original)), entry, ProgressOf(stream, original))
  {
    TempoSpeedAtPitchOne(entry.speed);
    stream.SetSpeed(entry.speed);
    ghost var before := stream.outputBuffer;
    ghost var stretched := stream.Write(entry.samples);
    TailGrows(before, stretched, original);
  }

  lemma TailGrows<T>(a: seq<T>, b: seq<T>, n: nat)
    requires n <= |a|
    ensures (a + b)[n..] == a[n..] + b
    ensures (a + b)[n..][|a[n..]|..] == b
  {
  }

  lemma AllSamplesOfMore(schedule: seq<Entry>, i: nat)
    requires i < |schedule|
    ensures AllSamples(schedule[..i + 1]) == AllSamples(schedule[..i]) + schedule[i].samples
  {
    assert schedule[..i + 1][..i] == schedule[..i];
  }

  /** The entries one after the other are the run of the model. */
  method PlayEntries(stream: SonicStream, schedule: seq<Entry>)
    requires AtPitchOne(stream) && Playable(schedule, stream.numChannels)
    modifies stream, stream.tracker, stream.converter
    ensures AtPitchOne(stream) && stream.received == old(stream.received) + AllSamples(schedule)
    ensures stream.delivered == old(stream.delivered) && stream.base == old(stream.base)
    ensures old(stream.outputBuffer) <= stream.outputBuffer && stream.Fixed() == old(stream.Fixed())
    ensures var original := |old(stream.outputBuffer)|;
      IsPlayed(stream.Fixed(), Progress(old(stream.State()), old(stream.ledger), []), schedule, ProgressOf(stream, original))
  {
    ghost var original, setup := |stream.outputBuffer|, stream.Fixed();
    ghost var start := Progress(stream.State(), stream.ledger, []);
    assert stream.outputBuffer[original..] == [];
    PlaysNothing(setup, start, schedule);
    for i := 0 to |schedule|
      invariant AtPitchOne(stream) && stream.Fixed() == setup
      invariant stream.received == old(stream.received) + AllSamples(schedule[..i])
      invariant old(stream.outputBuffer) <= stream.outputBuffer
      invariant stream.delivered == old(stream.delivered) && stream.base == old(stream.base)
      invariant IsPlayed(setup, start, schedule[..i], ProgressOf(stream, original))
    {
      AllSamplesOfMore(schedule, i);
      Associates(old(stream.received), AllSamples(schedule[..i]), schedule[i].samples);
      ghost var here := ProgressOf(stream, original);
      PlayEntry(stream, schedule[i], original);
      PlaysMore(setup, start, schedule, i, here, ProgressOf(stream, original));
    }
    assert schedule[..|schedule|] == schedule;
  }

  /**
   * No drift, at any speeds and however they change, as long as every pass fits: the time of the output and the
   * time planned for the input that left the buffer differ by one pitch period and a hundred-thousandth at most.
   * Play time is conserved exactly if, and only if, the slack of the passes adds up to nothing, so whenever every
   * pass conserves it. The passes are those of the model, which the schedule determines.
   */
  method PlaySchedule(stream: SonicStream, schedule: seq<Entry>) returns (ghost passes: seq<Pass>)
    requires AtPitchOne(stream) && Newborn(stream) && Playable(schedule, stream.numChannels)
    modifies stream, stream.tracker, stream.converter
    ensures AtPitchOne(stream) && stream.received == old(stream.received) + AllSamples(schedule)
    ensures old(stream.outputBuffer) <= stream.outputBuffer && passes == stream.ledger.passes
    ensures IsPlayed(old(stream.Fixed()), Progress(old(stream.State()), EMPTY, []), schedule,
                     ProgressOf(stream, |old(stream.outputBuffer)|))
    ensures AllFit(passes, stream.maxRequired) ==> |stream.inputBuffer| < stream.maxRequired
    ensures var frames := |stream.outputBuffer| - |old(stream.outputBuffer)|;
      var planned := PlannedTime(schedule, stream.samplePeriod);
      && (AllFit(passes, stream.maxRequired) ==>
            && OnSchedule(stream.samplePeriod, stream.maxPeriod, frames, planned - stream.inputPlayTime)
            && (Exactly(stream.samplePeriod, frames, stream.inputPlayTime, stream.timeError, planned)
                <==> SlackOf(stream.samplePeriod, passes) == 0.0))
      && (AllConserve(passes, stream.maxRequired) ==>
            AllFit(passes, stream.maxRequired) && SlackOf(stream.samplePeriod, passes) == 0.0)
    ensures Moderate(schedule) ==> AllFit(passes, stream.maxRequired)
    ensures Moderate(schedule) && (OneSided(schedule, true) || OneSided(schedule, false)) ==> AllConserve(passes, stream.maxRequired)
  {
    ghost var start := Progress(stream.State(), EMPTY, []);
    PlayEntries(stream, schedule);
    passes := stream.ledger.passes;
    ghost var end := ProgressOf(stream, |old(stream.outputBuffer)|);
    ScheduleOutcome(stream.Fixed(), start, schedule, end);
    ConservingFits(passes, stream.maxRequired);
    ghost var total := |stream.delivered| + |stream.outputBuffer| - stream.base;
    assert total == |stream.outputBuffer| - |old(stream.outputBuffer)|;
    if stream.ledger.moderate {
      OutputOnTime(stream);
      ExactIff(stream);
    }
  }

  lemma ConservingFits(passes: seq<Pass>, maxRequired: nat)
    ensures AllConserve(passes, maxRequired) ==> AllFit(passes, maxRequired)
  {
  }

  // ---- one speed throughout ----

  /** A speed at which nothing is copied, or only at exactly normal speed. */
  predicate SteadySpeed(speed: real) {
    0.5 <= speed <= 2.0 && (!Neutral(speed) || speed == 1.0)
  }

  /** The accounts of a stream to which `total` frames have been written at one speed. */
  ghost predicate Uniform(stream: SonicStream, speed: real, total: nat)
    reads stream
  {
    && SteadySpeed(speed) && stream.ledger.moderate && stream.ledger.slack == 0.0 && stream.WaitsAt(speed)
    && stream.ledger.promised == Duration(total, stream.samplePeriod / speed)
  }

  /** The next write at the same speed costs no slack, and that speed is the local speed. */
  lemma NoSlack(samplePeriod: real, numInput: nat, playTime: real, n: nat, speed: real)
    requires SteadySpeed(speed) && PlaysAt(samplePeriod, numInput, playTime, speed)
    requires playTime + WriteTime(samplePeriod, n, speed) > 0.0
    ensures LocalSpeed(samplePeriod, numInput + n, playTime + WriteTime(samplePeriod, n, speed)) == speed
    ensures PassSlack(samplePeriod, PassOver(samplePeriod, numInput + n, playTime + WriteTime(samplePeriod, n, speed))) == 0.0
  {
    WritePlaysAt(samplePeriod, numInput, playTime, n, speed);
    PlaysAtLocalSpeed(samplePeriod, numInput + n, playTime + WriteTime(samplePeriod, n, speed), speed);
    SlackIsZeroIff(samplePeriod, numInput + n, playTime + WriteTime(samplePeriod, n, speed));
  }

  /** From times to frames: what is missing or too much is at most one pitch period of frames. */
  lemma FramesAtOneSpeed(samplePeriod: real, speed: real, played: nat, total: nat, left: nat, timeError: real, maxPeriod: nat)
    requires samplePeriod > 0.0 && speed > 0.0 && left <= total
    requires Duration(played, samplePeriod) + Duration(left, samplePeriod / speed) - timeError == Duration(total, samplePeriod / speed)
    requires -Duration(maxPeriod, samplePeriod) <= timeError <= Duration(maxPeriod, samplePeriod)
    ensures var due := (total - left) as real / speed;
      due - maxPeriod as real <= played as real <= due + maxPeriod as real
  {
    var gone: nat := total - left;
    DurationAdds(gone, left, samplePeriod / speed);
    TimeOfInput(samplePeriod, gone, speed);
    TimesToFrames(played, gone as real / speed, maxPeriod, samplePeriod, Duration(gone, samplePeriod / speed));
  }

  /** The play time of input frames is the time of the output frames that they are due to make. */
  lemma TimeOfInput(samplePeriod: real, n: nat, speed: real)
    requires speed > 0.0
    ensures Duration(n, samplePeriod / speed) == n as real / speed * samplePeriod
  {
    WriteTimeIsDuration(samplePeriod, n, speed);
    WriteTimeIsFrames(samplePeriod, n, speed);
  }

  lemma TimesToFrames(played: nat, due: real, maxPeriod: nat, samplePeriod: real, dueTime: real)
    requires samplePeriod > 0.0 && dueTime == due * samplePeriod
    requires -Duration(maxPeriod, samplePeriod) <= Duration(played, samplePeriod) - dueTime <= Duration(maxPeriod, samplePeriod)
    ensures due - maxPeriod as real <= played as real <= due + maxPeriod as real
  {
    DurationIsProduct(played, samplePeriod);
    DurationIsProduct(maxPeriod, samplePeriod);
    FramesFromTimes(played as real, due, maxPeriod as real, samplePeriod,
                    Duration(played, samplePeriod), dueTime, Duration(maxPeriod, samplePeriod));
  }

  lemma WriteTimeIsFrames(samplePeriod: real, n: nat, speed: real)
    requires speed > 0.0
    ensures WriteTime(samplePeriod, n, speed) == n as real / speed * samplePeriod
  {
    var k, q := n as real, n as real / speed;
    DivMul(k, speed);
    assert q * samplePeriod * speed == k * samplePeriod;
    DivUnique(k * samplePeriod, speed, q * samplePeriod);
  }

  /** Comparing products with a positive time is comparing their factors. */
  lemma FramesFromTimes(a: real, b: real, c: real, t: real, at: real, bt: real, ct: real)
    requires t > 0.0 && at == a * t && bt == b * t && ct == c * t && -ct <= at - bt <= ct
    ensures b - c <= a <= b + c
  {
    assert (b + c) * t == bt + ct && (b - c) * t == bt - ct;
    if a > b + c {
      ScaleStrict(b + c, a, t);
    } else if a < b - c {
      ScaleStrict(a, b - c, t);
    }
  }

  /** One more write at the speed of all the others. */
  method WriteChunk(stream: SonicStream, chunk: seq<Frame>, ghost total: nat) returns (ghost stretched: seq<Frame>)
    requires AtPitchOne(stream) && Framed(chunk, stream.numChannels)
    modifies stream, stream.tracker, stream.converter
    ensures AtPitchOne(stream) && stream.speed == old(stream.speed)
    ensures old(Uniform(stream, stream.speed, total)) ==> Uniform(stream, stream.speed, total + |chunk|)
    ensures stream.received == old(stream.received) + chunk
    ensures stream.delivered == old(stream.delivered) && stream.base == old(stream.base)
    ensures stream.plain == (old(stream.plain) && (chunk == [] || stream.speed == 1.0))
    ensures stream.outputBuffer == old(stream.outputBuffer) + stretched && unchanged(stream.converter)
    ensures stream.Fixed() == old(stream.Fixed())
    ensures stream.Stretches(Joined(old(stream.State()), chunk, WriteTime(stream.samplePeriod, |chunk|, stream.speed)), stretched, stream.State())
  {
    ghost var waiting, time, speed, uniform :=
      |stream.inputBuffer|, stream.inputPlayTime, stream.speed, Uniform(stream, stream.speed, total);
    TempoSpeedAtPitchOne(speed);
    stretched := stream.Write(chunk);
    if uniform {
      WriteTimeIsDuration(stream.samplePeriod, |chunk|, speed);
      DurationAdds(total, |chunk|, stream.samplePeriod / speed);
      if waiting + |chunk| > 0 {
        NoSlack(stream.samplePeriod, waiting, time, |chunk|, speed);
      }
    }
  }

  /** The same at a speed that is set once more. */
  method PlayChunk(stream: SonicStream, speed: real, chunk: seq<Frame>, ghost total: nat) returns (ghost stretched: seq<Frame>)
    requires AtPitchOne(stream) && Uniform(stream, speed, total) && Framed(chunk, stream.numChannels)
    modifies stream, stream.tracker, stream.converter
    ensures AtPitchOne(stream) && stream.speed == speed && Uniform(stream, speed, total + |chunk|)
    ensures stream.received == old(stream.received) + chunk
    ensures stream.delivered == old(stream.delivered) && stream.base == old(stream.base)
    ensures stream.outputBuffer == old(stream.outputBuffer) + stretched && unchanged(stream.converter)
  {
    stream.SetSpeed(speed);
    stretched := WriteChunk(stream, chunk, total);
  }

  /** No more is waiting than was written. */
  lemma WaitingIsWritten(left: nat, total: nat, each: real)
    requires each > 0.0 && Duration(left, each) <= Duration(total, each)
    ensures left <= total
  {
    if left > total {
      var extra: nat := left - total;
      DurationPositive(extra, each);
      DurationAdds(total, extra, each);
    }
  }

  /** The input that left the buffer makes as many output frames as the speed asks for, up to one pitch period. */
  lemma UniformLength(stream: SonicStream, speed: real, total: nat)
    requires AtPitchOne(stream) && Uniform(stream, speed, total)
    ensures |stream.inputBuffer| <= total
    ensures var produced := (|stream.delivered| + |stream.outputBuffer| - stream.base) as real;
      var due := (total - |stream.inputBuffer|) as real / speed;
      due - stream.maxPeriod as real <= produced <= due + stream.maxPeriod as real
  {
    DivAbove(stream.samplePeriod, speed, 0.0);
    WaitingIsWritten(|stream.inputBuffer|, total, stream.samplePeriod / speed);
    FramesAtOneSpeed(stream.samplePeriod, speed, stream.ledger.played, total, |stream.inputBuffer|,
                     stream.timeError, stream.maxPeriod);
  }

  /** Any number of writes at one speed, of any sizes: no drift beyond one pitch period. */
  method PlayChunks(stream: SonicStream, speed: real, chunks: seq<seq<Frame>>)
    requires AtPitchOne(stream) && Newborn(stream) && SteadySpeed(speed)
    requires forall i :: 0 <= i < |chunks| ==> Framed(chunks[i], stream.numChannels)
    modifies stream, stream.tracker, stream.converter
    ensures AtPitchOne(stream) && unchanged(stream.converter)
    ensures chunks != [] ==> stream.speed == speed
    ensures stream.received == old(stream.received) + Concat(chunks) && stream.delivered == old(stream.delivered)
    ensures old(stream.outputBuffer) <= stream.outputBuffer
    ensures |stream.inputBuffer| <= |Concat(chunks)| && |stream.inputBuffer| < stream.maxRequired
    ensures var produced := (|stream.outputBuffer| - |old(stream.outputBuffer)|) as real;
      var due := (|Concat(chunks)| - |stream.inputBuffer|) as real / speed;
      due - stream.maxPeriod as real <= produced <= due + stream.maxPeriod as real
  {
    assert chunks[..0] == [];
    for i := 0 to |chunks|
      invariant AtPitchOne(stream) && unchanged(stream.converter)
      invariant Uniform(stream, speed, |Concat(chunks[..i])|)
      invariant stream.received == old(stream.received) + Concat(chunks[..i])
      invariant stream.delivered == old(stream.delivered) && stream.base == old(stream.base)
      invariant old(stream.outputBuffer) <= stream.outputBuffer
      invariant i > 0 ==> stream.speed == speed
    {
      ConcatMore(chunks, i);
      Associates(old(stream.received), Concat(chunks[..i]), chunks[i]);
      ghost var stretched := PlayChunk(stream, speed, chunks[i], |Concat(chunks[..i])|);
    }
    assert chunks[..|chunks|] == chunks;
    UniformLength(stream, speed, |Concat(chunks)|);
  }

  lemma FlushAllowanceBound(n: nat, speed: real)
    requires speed > 0.0
    ensures FlushAllowance(n, 0, speed, 1.0) as real <= n as real / speed + 0.5
  {
    DivAtLeast(n as real, speed, 0.0);
    DivUnique(n as real / speed + 0.0, 1.0, n as real / speed);
  }

  /** Figures of a flush: what was due before it and what it may add make up what is due in all. */
  lemma FlushedLength(total: nat, left: nat, speed: real, maxPeriod: nat, maxRequired: nat, before: real, after: real)
    requires speed > 0.0 && left <= total && left <= maxRequired
    requires (total - left) as real / speed - maxPeriod as real <= before <= (total - left) as real / speed + maxPeriod as real
    requires before <= after <= before + FlushAllowance(left, 0, speed, 1.0) as real
    ensures after <= total as real / speed + maxPeriod as real + 0.5
    ensures after >= total as real / speed - maxRequired as real / speed - maxPeriod as real
  {
    FlushAllowanceBound(left, speed);
    var a, b, c := (total - left) as real / speed, left as real / speed, maxRequired as real / speed;
    DivMul((total - left) as real, speed);
    DivMul(left as real, speed);
    DivMul(maxRequired as real, speed);
    assert (a + b) * speed == total as real;
    DivUnique(total as real, speed, a + b);
    DivAtMost(left as real, speed, c);
  }

  /**
   * End to end: after writes of any sizes at one speed and a flush, the output has the length that the speed
   * asks for, up to one pitch period and, at the lower end, the input that was still waiting.
   */
  method PlayAndFlush(stream: SonicStream, speed: real, chunks: seq<seq<Frame>>)
    requires AtPitchOne(stream) && Newborn(stream) && SteadySpeed(speed) && stream.converter.pitchBuffer == []
    requires chunks != [] && forall i :: 0 <= i < |chunks| ==> Framed(chunks[i], stream.numChannels)
    modifies stream, stream.tracker, stream.converter
    ensures AtPitchOne(stream) && Newborn(stream) && stream.converter.pitchBuffer == []
    ensures old(stream.outputBuffer) <= stream.outputBuffer
    ensures var total, produced := |Concat(chunks)| as real, (|stream.outputBuffer| - |old(stream.outputBuffer)|) as real;
      && produced <= total / speed + stream.maxPeriod as real + 0.5
      && produced >= total / speed - stream.maxRequired as real / speed - stream.maxPeriod as real
  {
    PlayChunks(stream, speed, chunks);
    ghost var left, before := |stream.inputBuffer|, |stream.outputBuffer| - |old(stream.outputBuffer)|;
    TempoSpeedAtPitchOne(speed);
    ghost var stretched, made, last := stream.Flush();
    FlushedLength(|Concat(chunks)|, left, speed, stream.maxPeriod, stream.maxRequired, before as real,
                  (|stream.outputBuffer| - |old(stream.outputBuffer)|) as real);
  }

  // ---- nothing to change ----

  /** What a user does with a stream that is left at speed, pitch and rate 1. */
  datatype Use = Writing(frames: seq<Frame>) | Reading(maxSamples: nat)

  ghost function WrittenBy(uses: seq<Use>): seq<Frame> {
    if uses == [] then []
    else
      var last := uses[|uses| - 1];
      WrittenBy(uses[..|uses| - 1]) + (if last.Writing? then last.frames else [])
  }

  lemma WrittenByMore(uses: seq<Use>, i: nat)
    requires i < |uses|
    ensures WrittenBy(uses[..i + 1]) == WrittenBy(uses[..i]) + (if uses[i].Writing? then uses[i].frames else [])
  {
    assert uses[..i + 1][..i] == uses[..i];
  }

  /** A stream that only passes on. */
  ghost predicate PassingOn(stream: SonicStream)
    reads stream, stream.tracker, stream.converter
  {
    AtPitchOne(stream) && stream.speed == 1.0 && stream.plain
  }

  /** At speed, pitch and rate 1 the stream is a queue, whatever the sizes of writes and reads and however they interleave. */
  method PassOn(stream: SonicStream, uses: seq<Use>) returns (read: seq<Frame>)
    requires PassingOn(stream) && stream.received == []
    requires forall i :: 0 <= i < |uses| && uses[i].Writing? ==> Framed(uses[i].frames, stream.numChannels)
    modifies stream, stream.tracker, stream.converter
    ensures PassingOn(stream) && stream.inputBuffer == []
    ensures read + stream.outputBuffer == WrittenBy(uses)
  {
    read := [];
    assert uses[..0] == [];
    assert stream.delivered == [];
    for i := 0 to |uses|
      invariant PassingOn(stream)
      invariant stream.delivered == read && stream.received == WrittenBy(uses[..i])
    {
      WrittenByMore(uses, i);
      match uses[i] {
        case Writing(frames) =>
          ghost var stretched := WriteChunk(stream, frames, 0);
        case Reading(maxSamples) =>
          assert stream.received + [] == stream.received;
          var samples := stream.Read(maxSamples);
          read := read + samples;
      }
    }
    assert uses[..|uses|] == uses;
  }
}
