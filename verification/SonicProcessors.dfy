/** The wrapper that the player uses: one channel, one speed, written and drained in pieces. */
module SonicProcessors {
  import opened Sequences
  import opened RealArith
  import opened Results
  import opened Frames
  import opened Tempo
  import opened TempoCode
  import opened PlayLedger
  import opened TempoStage
  import opened SilentPasses
  import PitchSearch
  import opened SonicStreams
  import opened SonicRuns
  import opened PitchTracking

  /** Samples of one channel as frames. */
  function ToFrames(pcm: seq<Short>): (frames: seq<Frame>)
    ensures |frames| == |pcm| && Framed(frames, 1)
    ensures forall i :: 0 <= i < |pcm| ==> frames[i] == [pcm[i]]
  {
    seq(|pcm|, i requires 0 <= i < |pcm| => [pcm[i]])
  }

  function ToSamples(frames: seq<Frame>): (pcm: seq<Short>)
    requires Framed(frames, 1)
    ensures |pcm| == |frames| && ToFrames(pcm) == frames
  {
    var pcm := seq(|frames|, i requires 0 <= i < |frames| => frames[i][0]);
    assert ToFrames(pcm) == frames by {
      forall i | 0 <= i < |frames| ensures ToFrames(pcm)[i] == frames[i] {
        assert |frames[i]| == 1 && frames[i] == [frames[i][0]];
      }
    }
    pcm
  }

  /** Samples and frames of one channel say the same. */
  lemma SameSamples(a: seq<Short>, b: seq<Short>)
    requires ToFrames(a) == ToFrames(b)
    ensures a == b
  {
  }

  lemma FramesJoin(a: seq<Short>, b: seq<Short>)
    ensures ToFrames(a + b) == ToFrames(a) + ToFrames(b)
  {
  }

  const INVALID_FORMAT := "invalid audio format"
  const NO_OUTPUT := "sonic produced no output"
  const NO_INPUT := "decoded audio is empty"
  const DRAIN_CHUNK := 16384

  /** A stream at some speed, at its own pitch, and at the quality that searches faster. */
  method NewStream(sampleRate: nat, speed: real) returns (stream: SonicStream)
    requires sampleRate >= PitchSearch.MIN_PITCH && speed > 0.0
    ensures fresh(stream) && fresh(stream.tracker) && fresh(stream.converter)
    ensures AtPitchOne(stream) && stream.numChannels == 1 && stream.speed == speed && stream.sampleRate == sampleRate
    ensures stream.converter.pitchBuffer == [] && stream.plain && Newborn(stream)
    ensures stream.received == stream.delivered == stream.outputBuffer == [] && stream.base == 0
    ensures stream.State() == FIRST_STATE && stream.Fixed() == FixedAt(sampleRate, 1)
    ensures SteadySpeed(speed) ==> Uniform(stream, speed, 0)
  {
    stream := new SonicStream(sampleRate, 1);
    stream.SetSpeed(speed);
    stream.SetPitch(1.0);
    stream.SetQuality(0);
  }

  /** Nothing waiting, nothing to allow for. */
  lemma NoAllowance(speed: real)
    requires speed > 0.0
    ensures FlushAllowance(0, 0, speed, 1.0) == 0
  {
    FlushAllowanceBound(0, speed);
    DivUnique(0.0, speed, 0.0);
  }

  /** What waits once samples are written at a speed. */
  ghost function Added(before: TempoState, pcm: seq<Short>, samplePeriod: real, speed: real): TempoState
    requires speed > 0.0
  {
    Joined(before, ToFrames(pcm), WriteTime(samplePeriod, |pcm|, speed))
  }

  class SonicProcessor {
    const stream: SonicStream
    ghost const speed: real

    /** The number of samples written since the last flush. */
    ghost var written: nat

    /** At a steady speed the account of the stream says what was written. */
    ghost predicate Valid()
      reads this, stream, stream.tracker, stream.converter
    {
      && AtPitchOne(stream) && stream.numChannels == 1 && stream.speed == speed && stream.converter.pitchBuffer == []
      && (SteadySpeed(speed) ==> Uniform(stream, speed, written))
    }

    /** Nothing has been written to it yet. */
    ghost predicate Unused()
      requires stream.sampleRate > 0
      reads this, stream, stream.tracker
    {
      && written == 0 && stream.plain && stream.received == stream.delivered == stream.outputBuffer == [] && stream.base == 0
      && stream.State() == FIRST_STATE && stream.Fixed() == FixedAt(stream.sampleRate, 1)
    }

    constructor (sampleRate: nat, speed: real)
      requires sampleRate >= PitchSearch.MIN_PITCH && speed > 0.0
      ensures Valid() && fresh(stream) && fresh(stream.tracker) && fresh(stream.converter)
      ensures this.speed == speed && stream.sampleRate == sampleRate && Unused()
    {
      var s := NewStream(sampleRate, speed);
      this.stream, this.speed, this.written := s, speed, 0;
    }

    /** Audio without channels or without a sample rate is refused. */
    static method Create(sampleRate: nat, channels: nat, speed: real) returns (r: Result<SonicProcessor>)
      requires sampleRate == 0 || sampleRate >= PitchSearch.MIN_PITCH
      requires channels <= 1 && speed > 0.0
      ensures channels == 0 || sampleRate == 0 ==> r == Err(INVALID_FORMAT)
      ensures channels != 0 && sampleRate != 0 ==> r.Ok?
      ensures r.Ok? ==>
        && var p := r.value;
        && fresh(p) && fresh(p.stream) && fresh(p.stream.tracker) && fresh(p.stream.converter)
        && p.Valid() && p.speed == speed && p.stream.sampleRate == sampleRate && p.Unused()
    {
      if channels == 0 || sampleRate == 0 {
        return Err(INVALID_FORMAT);
      }
      var p := new SonicProcessor(sampleRate, speed);
      return Ok(p);
    }

    /** Writing nothing does nothing. Whatever is written counts, and at speed 1 comes out as it is. */
    method Write(pcm: seq<Short>) returns (ghost stretched: seq<Frame>)
      requires Valid()
      modifies this, stream, stream.tracker, stream.converter
      ensures Valid() && written == old(written) + |pcm|
      ensures stream.received == old(stream.received) + ToFrames(pcm) && stream.delivered == old(stream.delivered)
      ensures stream.base == old(stream.base) && old(stream.outputBuffer) <= stream.outputBuffer
      ensures pcm == [] ==> unchanged(stream) && unchanged(stream.tracker) && unchanged(stream.converter)
      ensures stream.plain == (old(stream.plain) && (pcm == [] || speed == 1.0))
      ensures stream.outputBuffer == old(stream.outputBuffer) + stretched && stream.Fixed() == old(stream.Fixed())
      ensures pcm != [] ==> stream.Stretches(Added(old(stream.State()), pcm, stream.samplePeriod, speed), stretched, stream.State())
    {
      stretched := [];
      if pcm == [] {
        assert stream.received + ToFrames(pcm) == stream.received;
        return;
      }
      stretched := WriteChunk(stream, ToFrames(pcm), written);
      written := written + |pcm|;
    }

    /** All input is played, followed by as much of the silence as is left of the length that is due. */
    method Flush() returns (ghost stretched: seq<Frame>, ghost last: TempoState)
      requires Valid()
      modifies this, stream, stream.tracker, stream.converter
      ensures Valid() && written == 0 && stream.inputBuffer == []
      ensures stream.received == old(stream.received) && stream.delivered == old(stream.delivered)
      ensures stream.base == |stream.delivered| + |stream.outputBuffer|
      ensures stream.Flushes(old(stream.State()), stretched, last) && stream.Fixed() == old(stream.Fixed())
      ensures stream.outputBuffer == old(stream.outputBuffer) + Front(stretched, FlushAllowance(|old(stream.inputBuffer)|, 0, speed, 1.0))
      ensures old(stream.inputBuffer) == [] ==> stream.outputBuffer == old(stream.outputBuffer)
    {
      TempoSpeedAtPitchOne(speed);
      NoAllowance(speed);
      ghost var made;
      stretched, made, last := stream.Flush();
      written := 0;
    }

    /** Up to a number of samples, but at least one, from the front of what is there. */
    method DrainUpTo(maxSamples: int) returns (out: seq<Short>)
      requires Valid()
      modifies stream
      ensures Valid() && ToFrames(out) + stream.outputBuffer == old(stream.outputBuffer)
      ensures |out| == Min(|old(stream.outputBuffer)|, Max(maxSamples, 1))
      ensures stream.delivered == old(stream.delivered) + ToFrames(out)
      ensures stream.received == old(stream.received) && stream.base == old(stream.base) && stream.plain == old(stream.plain)
      ensures stream.inputBuffer == old(stream.inputBuffer)
    {
      var available := |stream.outputBuffer|;
      if available == 0 {
        assert stream.delivered + ToFrames([]) == stream.delivered;
        assert ToFrames([]) + stream.outputBuffer == stream.outputBuffer;
        return [];
      }
      var read := stream.Read(Min(available, Max(maxSamples, 1)));
      return ToSamples(read);
    }

    /** Everything that is there, or a failure where there is nothing. */
    method DrainAll() returns (r: Result<seq<Short>>)
      requires Valid()
      modifies stream
      ensures Valid() && stream.outputBuffer == [] && stream.inputBuffer == old(stream.inputBuffer)
      ensures old(stream.outputBuffer) == [] ==> r == Err(NO_OUTPUT)
      ensures old(stream.outputBuffer) != [] ==> r.Ok? && ToFrames(r.value) == old(stream.outputBuffer)
    {
      var out: seq<Short> := [];
      while true
        invariant Valid() && stream.inputBuffer == old(stream.inputBuffer)
        invariant ToFrames(out) + stream.outputBuffer == old(stream.outputBuffer)
        decreases |stream.outputBuffer|
      {
        var chunk := DrainUpTo(DRAIN_CHUNK);
        FramesJoin(out, chunk);
        Associates(ToFrames(out), ToFrames(chunk), stream.outputBuffer);
        if |chunk| == 0 {
          break;
        }
        out := out + chunk;
      }
      if |out| == 0 {
        return Err(NO_OUTPUT);
      }
      return Ok(out);
    }

    /** Draining in pieces of any sizes gives the front of what draining at once gives, and in the end all of it. */
    method DrainInPieces(sizes: seq<int>) returns (out: seq<Short>)
      requires Valid()
      modifies stream
      ensures Valid() && ToFrames(out) + stream.outputBuffer == old(stream.outputBuffer)
      ensures |sizes| >= |old(stream.outputBuffer)| ==> ToFrames(out) == old(stream.outputBuffer)
    {
      out := [];
      for i := 0 to |sizes|
        invariant Valid() && ToFrames(out) + stream.outputBuffer == old(stream.outputBuffer)
        invariant stream.outputBuffer == [] || i <= |out|
      {
        var piece := DrainUpTo(sizes[i]);
        FramesJoin(out, piece);
        Associates(ToFrames(out), ToFrames(piece), stream.outputBuffer);
        out := out + piece;
      }
      if stream.outputBuffer == [] {
        assert ToFrames(out) + [] == ToFrames(out);
      }
    }
  }

  /** A length within one pitch period above, and one and a half analysis windows below, what the speed asks for. */
  ghost predicate LengthFits(sampleRate: nat, speed: real, total: nat, produced: nat)
    requires speed > 0.0
  {
    var maxPeriod := sampleRate / PitchSearch.MIN_PITCH;
    var due := total as real / speed;
    due - (2 * maxPeriod) as real / speed - maxPeriod as real <= produced as real <= due + maxPeriod as real + 0.5
  }

  /** A stream that only passed everything on, and from which nothing was read. */
  lemma PassedOn(stream: SonicStream, frames: seq<Frame>)
    requires stream.Valid() && stream.delivered == [] && stream.received == [] + frames
    ensures stream.plain ==> stream.inputBuffer == [] && stream.outputBuffer == frames
  {
    assert [] + frames == frames && [] + stream.outputBuffer == stream.outputBuffer;
  }

  /** The pass when it is written puts nothing of it out, and the flush allows for nothing or its pass puts nothing out. */
  ghost predicate IsLost(setup: Setup, start: TempoState, speed: real)
    requires speed > 0.0
  {
    exists mid :: StaysSilent(setup, start, mid)
      && (FlushAllowance(|mid.input|, 0, speed, 1.0) == 0
          || exists end :: StaysSilent(setup, WithSilence(mid, setup.voice.channels, 4 * setup.maxPeriod), end))
  }

  /** What two passes put out, written and flushed. */
  lemma NothingComesOutIff(setup: Setup, start: TempoState, speed: real, out: seq<Frame>, mid: TempoState,
                           stretched: seq<Frame>, last: TempoState)
    requires speed > 0.0 && start.input != [] && start.playTime > 0.0 && start.timeError == 0.0
    requires IsStretched(setup, start, out, mid)
    requires IsStretched(setup, WithSilence(mid, setup.voice.channels, 4 * setup.maxPeriod), stretched, last)
    ensures out + Front(stretched, FlushAllowance(|mid.input|, 0, speed, 1.0)) == [] <==> IsLost(setup, start, speed)
  {
    PassIsSilentIff(setup, start, out, mid);
    if out == [] {
      PassIsSilentIff(setup, WithSilence(mid, setup.voice.channels, 4 * setup.maxPeriod), stretched, last);
    }
  }

  /** A clip that gives no sound at all. */
  ghost predicate ClipIsLost(sampleRate: nat, speed: real, pcm: seq<Short>)
    requires sampleRate > 0 && speed > 0.0
  {
    IsLost(FixedAt(sampleRate, 1), Added(FIRST_STATE, pcm, 1.0 / sampleRate as real, speed), speed)
  }

  /** At speeds from half to double only clips without a whole analysis window are lost, and none that is copied. */
  lemma LostClipsAreShort(sampleRate: nat, speed: real, pcm: seq<Short>)
    requires sampleRate > 0 && ModerateSpeed(speed) && pcm != [] && ClipIsLost(sampleRate, speed, pcm)
    ensures |pcm| < 2 * (sampleRate / PitchSearch.MIN_PITCH) && !Neutral(speed)
  {
    var each := 1.0 / sampleRate as real;
    DivAbove(1.0, sampleRate as real, 0.0);
    WriteTimeSign(each, |pcm|, speed);
    WriteTimeIsDuration(each, |pcm|, speed);
    PlaysAtLocalSpeed(each, |pcm|, WriteTime(each, |pcm|, speed), speed);
  }

  /** A clip is written and flushed. */
  method PlayClip(sonic: SonicProcessor, pcm: seq<Short>)
    requires sonic.Valid() && sonic.Unused()
    modifies sonic, sonic.stream, sonic.stream.tracker, sonic.stream.converter
    ensures sonic.Valid()
    ensures SteadySpeed(sonic.speed) ==> LengthFits(sonic.stream.sampleRate, sonic.speed, |pcm|, |sonic.stream.outputBuffer|)
    ensures sonic.speed == 1.0 ==> sonic.stream.outputBuffer == ToFrames(pcm)
    ensures pcm != [] ==> (sonic.stream.outputBuffer == [] <==> ClipIsLost(sonic.stream.sampleRate, sonic.speed, pcm))
  {
    ghost var stream := sonic.stream;
    ghost var out, stretched, last;
    out := sonic.Write(pcm);
    ghost var mid := stream.State();
    PassedOn(stream, ToFrames(pcm));
    ghost var left, before := |stream.inputBuffer|, |stream.outputBuffer|;
    if SteadySpeed(sonic.speed) {
      UniformLength(stream, sonic.speed, |pcm|);
    }
    stretched, last := sonic.Flush();
    if pcm != [] {
      WriteTimeSign(stream.samplePeriod, |pcm|, sonic.speed);
      NothingComesOutIff(stream.Fixed(), Added(FIRST_STATE, pcm, stream.samplePeriod, sonic.speed), sonic.speed,
                         out, mid, stretched, last);
    }
    if SteadySpeed(sonic.speed) {
      FlushedLength(|pcm|, left, sonic.speed, stream.maxPeriod, stream.maxRequired, before as real, |stream.outputBuffer| as real);
    }
  }

  /** A whole clip at once. */
  method ChangeSpeechSpeed(pcm: seq<Short>, sampleRate: nat, channels: nat, speed: real) returns (r: Result<seq<Short>>)
    requires sampleRate == 0 || sampleRate >= PitchSearch.MIN_PITCH
    requires channels <= 1 && speed > 0.0
    ensures pcm == [] ==> r == Err(NO_INPUT)
    ensures pcm != [] && (channels == 0 || sampleRate == 0) ==> r == Err(INVALID_FORMAT)
    ensures pcm != [] && channels != 0 && sampleRate != 0 ==>
      && (r.Err? ==> r.message == NO_OUTPUT)
      && (r.Err? <==> ClipIsLost(sampleRate, speed, pcm))
      && (ModerateSpeed(speed) && |pcm| >= 2 * (sampleRate / PitchSearch.MIN_PITCH) ==> r.Ok?)
      && (r.Ok? ==> r.value != [])
      && (SteadySpeed(speed) ==> LengthFits(sampleRate, speed, |pcm|, if r.Ok? then |r.value| else 0))
      && (speed == 1.0 ==> r == Ok(pcm))
  {
    if |pcm| == 0 {
      return Err(NO_INPUT);
    }
    var sonic :- SonicProcessor.Create(sampleRate, channels, speed);
    PlayClip(sonic, pcm);
    r := sonic.DrainAll();
    if speed == 1.0 {
      SameSamples(r.value, pcm);
    }
    if ModerateSpeed(speed) && ClipIsLost(sampleRate, speed, pcm) {
      LostClipsAreShort(sampleRate, speed, pcm);
    }
  }
}
