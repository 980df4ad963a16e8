/**
 * The playback worker of one channel. Commands are taken from its queue in four places: by the main
 * loop, while draining after a stop, while a clip plays, and before a clip is stretched.
 *
 * What the worker cannot know comes as three lists: what each look at the queue finds, whether the
 * sink has run empty each time it is asked, and how each call to a device or decoder ends.
 */
module Playback {
  import opened RealArith
  import opened Results
  import opened PlayLedger
  import opened SonicRuns
  import SonicProcessors

  datatype AudioError =
    | InvalidProcessId
    | DeviceNotFound(what: string)
    | Windows(message: string)
    | RoutingFailed(why: string)
    | PlaybackFailed(why: string)
  {
    function Display(): string {
      match this
      case InvalidProcessId => "invalid process id"
      case DeviceNotFound(what) => "device not found: " + what
      case Windows(message) => "windows audio API error: " + message
      case RoutingFailed(why) => "audio routing failed: " + why
      case PlaybackFailed(why) => "playback failed: " + why
    }
  }

  const STOPPED := "playback stopped"
  const EMPTY_BUFFER := "empty audio buffer"

  /** The display of an error has a prefix, so the comparison with the bare text never finds a stop. */
  lemma StopIsNeverRecognised(e: AudioError)
    ensures e.Display() != STOPPED
  {
    assert STOPPED[0] == 'p' && STOPPED[9] == 's';
    match e
    case PlaybackFailed(why) =>
      assert e.Display()[9] == 'f';
    case _ =>
      assert e.Display()[0] != 'p';
  }

  datatype Command =
    | Play(itemId: string, bytes: seq<int>, volume: real, rate: real)
    | SetDeviceLabel(text: string)
    | StopPending

  /** A look at the queue: a command, nothing yet, or nobody left to send one. */
  datatype Signal = Got(command: Command) | Nothing | Closed

  datatype Finished = Finished(itemId: string, ok: bool, error: Option<string>)

  datatype Outcome = Completed | Stopped | Failed(error: AudioError)

  /** Plays among the commands that were taken. */
  function Plays(taken: seq<Command>): nat {
    if taken == [] then 0 else Plays(taken[..|taken| - 1]) + (if taken[|taken| - 1].Play? then 1 else 0)
  }

  lemma PlaysOfMore(taken: seq<Command>, command: Command)
    ensures Plays(taken + [command]) == Plays(taken) + (if command.Play? then 1 else 0)
  {
  }

  /** The commands that looks at the queue will find. */
  function Sent(signals: seq<Signal>): seq<Command> {
    if signals == [] then [] else (if signals[0].Got? then [signals[0].command] else []) + Sent(signals[1..])
  }

  /** What is left when every command is taken up to the first look that finds none. */
  function AfterDrain(signals: seq<Signal>): seq<Signal> {
    if signals == [] then []
    else if signals[0].Got? then AfterDrain(signals[1..])
    else signals[1..]
  }

  /** The device label that was set last; empty, for the default device, before any. */
  function LastLabel(taken: seq<Command>): string {
    if taken == [] then ""
    else if taken[|taken| - 1].SetDeviceLabel? then taken[|taken| - 1].text
    else LastLabel(taken[..|taken| - 1])
  }

  lemma LastLabelOfMore(taken: seq<Command>, command: Command)
    ensures LastLabel(taken + [command]) == if command.SetDeviceLabel? then command.text else LastLabel(taken)
  {
  }

  const RATE_NEUTRAL_EPS := 0.02

  function Clamp(x: real, low: real, high: real): real {
    if x < low then low else if x > high then high else x
  }

  /** The rate at which a clip is stretched, or None where it is played as it is. */
  function StretchRate(rate: real): (r: Option<real>)
  {
    var clamped := Clamp(rate, 0.5, 2.0);
    if -RATE_NEUTRAL_EPS <= clamped - 1.0 <= RATE_NEUTRAL_EPS then None else Some(clamped)
  }

  /** Every rate that reaches the stretcher is one at which nothing is copied, so the length results apply. */
  lemma StretchRateIsSteady(rate: real)
    requires StretchRate(rate).Some?
    ensures SteadySpeed(StretchRate(rate).value) && StretchRate(rate).value != 1.0
  {
  }

  /** Rates from half to double are taken as they are, others at the nearest of these; close to normal speed nothing is stretched. */
  lemma StretchRateIs(rate: real)
    ensures StretchRate(rate).None? <==> 0.98 <= rate <= 1.02
    ensures StretchRate(rate).Some? ==> StretchRate(rate) == Some(if rate <= 0.5 then 0.5 else if rate >= 2.0 then 2.0 else rate)
  {
  }

  /** An error of playback says why. */
  lemma DisplayTellsWhy(why: string)
    ensures var text := PlaybackFailed(why).Display(); |why| <= |text| && text[|text| - |why|..] == why
  {
  }

  // ---- what decides how a clip ends ----

  /** What the world answers from the moment a clip starts, and whether a stream has to be opened for it. */
  datatype Clip = Clip(command: Command, opening: bool, signals: seq<Signal>, emptied: seq<bool>, faults: seq<Option<AudioError>>)

  function Rest<T>(xs: seq<T>, n: nat): seq<T> {
    if n <= |xs| then xs[n..] else []
  }

  lemma RestOfRest<T>(xs: seq<T>, m: nat, n: nat)
    ensures Rest(Rest(xs, m), n) == Rest(xs, m + n)
  {
  }

  /** The first n looks at the queue find neither a stop nor a closed queue. */
  predicate Quiet(signals: seq<Signal>, n: nat) {
    n <= |signals| && forall i :: 0 <= i < n ==> signals[i] == Nothing || (signals[i].Got? && !signals[i].command.StopPending?)
  }

  /** The sink is empty for the first time when it is asked after n looks at the queue. */
  predicate FirstEmpty(emptied: seq<bool>, n: nat) {
    n < |emptied| && emptied[n] && forall i :: 0 <= i < n ==> !emptied[i]
  }

  /** The sink runs empty before a stop is taken or the queue is closed. */
  ghost predicate PlaysOut(signals: seq<Signal>, emptied: seq<bool>) {
    exists n: nat :: FirstEmpty(emptied, n) && Quiet(signals, n)
  }

  /** The first n calls to devices and decoders go well. */
  predicate Faultless(faults: seq<Option<AudioError>>, n: nat) {
    forall i :: 0 <= i < n && i < |faults| ==> faults[i].None?
  }

  /** The first fault among the first n calls. */
  function FirstFault(faults: seq<Option<AudioError>>, n: nat): Option<AudioError> {
    if n == 0 || faults == [] then None
    else if faults[0].Some? then faults[0]
    else FirstFault(faults[1..], n - 1)
  }

  lemma {:induction false} FaultlessIff(faults: seq<Option<AudioError>>, n: nat)
    ensures FirstFault(faults, n).None? <==> Faultless(faults, n)
  {
    if n > 0 && faults != [] && faults[0].None? {
      FaultlessIff(faults[1..], n - 1);
      assert forall i :: 0 <= i < |faults| - 1 ==> faults[1..][i] == faults[i + 1];
      if Faultless(faults[1..], n - 1) {
        forall i | 0 <= i < n && i < |faults|
          ensures faults[i].None?
        {
          assert i > 0 ==> faults[1..][i - 1] == faults[i];
        }
      }
    }
  }

  lemma {:induction false} FirstFaultSplits(faults: seq<Option<AudioError>>, m: nat, n: nat)
    ensures FirstFault(faults, m + n)
         == if FirstFault(faults, m).Some? then FirstFault(faults, m) else FirstFault(Rest(faults, m), n)
  {
    if m > 0 && faults != [] && faults[0].None? {
      FirstFaultSplits(faults[1..], m - 1, n);
    }
  }

  /** The calls before a clip is stretched: device and stream where one has to be opened, sink and decoder. */
  function CallsBefore(clip: Clip): nat {
    if clip.opening then 4 else 2
  }

  predicate IsStretched(clip: Clip)
    requires clip.command.Play?
  {
    StretchRate(clip.command.rate).Some?
  }

  /** How playing out ends. */
  ghost function PlayedOut(signals: seq<Signal>, emptied: seq<bool>): Option<AudioError> {
    if PlaysOut(signals, emptied) then None else Some(PlaybackFailed(STOPPED))
  }

  /** How stretching ends: with one look at the queue, one call, and a sink that must have got something. */
  function StretchFault(signals: seq<Signal>, emptied: seq<bool>, fault: Option<AudioError>): Option<AudioError> {
    if !Quiet(signals, 1) then Some(PlaybackFailed(STOPPED))
    else if fault.Some? then fault
    else if emptied != [] && emptied[0] then Some(PlaybackFailed(SonicProcessors.NO_OUTPUT))
    else None
  }

  /** What a clip fails with, if it does: the first of everything that can go wrong. */
  ghost function ClipFault(clip: Clip): Option<AudioError>
    requires clip.command.Play?
  {
    var calls := CallsBefore(clip);
    if clip.command.bytes == [] then Some(PlaybackFailed(EMPTY_BUFFER))
    else if FirstFault(clip.faults, calls).Some? then FirstFault(clip.faults, calls)
    else if !IsStretched(clip) then PlayedOut(clip.signals, clip.emptied)
    else
      var fault := StretchFault(clip.signals, clip.emptied, FirstFault(Rest(clip.faults, calls), 1));
      if fault.Some? then fault else PlayedOut(clip.signals[1..], Rest(clip.emptied, 1))
  }

  /** The completion of a clip. */
  ghost function FinishedOf(clip: Clip): Finished
    requires clip.command.Play?
  {
    var fault := ClipFault(clip);
    Finished(clip.command.itemId, fault.None?, if fault.None? then None else Some(fault.value.Display()))
  }

  /**
   * A clip completes exactly if it has something to play, all calls go well, no stop is taken and the queue is not
   * closed before the sink runs empty, and, where it is stretched, something has reached the sink.
   */
  lemma CompletesIff(clip: Clip)
    requires clip.command.Play?
    ensures FinishedOf(clip).ok <==>
      && clip.command.bytes != [] && Faultless(clip.faults, CallsBefore(clip) + if IsStretched(clip) then 1 else 0)
      && (if IsStretched(clip) then
            Quiet(clip.signals, 1) && (clip.emptied != [] ==> !clip.emptied[0]) && PlaysOut(clip.signals[1..], Rest(clip.emptied, 1))
          else PlaysOut(clip.signals, clip.emptied))
  {
    var calls := CallsBefore(clip);
    FaultlessIff(clip.faults, calls);
    FaultlessIff(clip.faults, calls + 1);
    FirstFaultSplits(clip.faults, calls, 1);
  }

  /** A clip that plays without a fault, a stop or a closed queue, at normal speed and on an open stream, completes. */
  lemma PlainClipCompletes(clip: Clip, n: nat)
    requires clip.command.Play? && clip.command.bytes != [] && 0.98 <= clip.command.rate <= 1.02
    requires Faultless(clip.faults, 4) && Quiet(clip.signals, n) && FirstEmpty(clip.emptied, n)
    ensures FinishedOf(clip) == Finished(clip.command.itemId, true, None)
  {
    StretchRateIs(clip.command.rate);
    FaultlessIff(clip.faults, CallsBefore(clip));
  }

  predicate AskedAfter(looks: nat) { true }

  /** So many looks have found the queue quiet and the sink not empty. It is kept behind a trigger. */
  ghost predicate Looked(queue: seq<Signal>, sink: seq<bool>, looks: nat, signals: seq<Signal>, emptied: seq<bool>) {
    forall n: nat {:trigger AskedAfter(n)} :: AskedAfter(n) && n == looks ==>
      && Quiet(queue, n) && signals == queue[n..] && emptied == Rest(sink, n)
      && forall i :: 0 <= i < n && i < |sink| ==> !sink[i]
  }

  lemma NoLookYet(queue: seq<Signal>, sink: seq<bool>)
    ensures Looked(queue, sink, 0, queue, sink)
  {
  }

  /** One look more. */
  lemma LookOn(queue: seq<Signal>, sink: seq<bool>, looks: nat, signals: seq<Signal>, emptied: seq<bool>)
    requires Looked(queue, sink, looks, signals, emptied) && (emptied != [] ==> !emptied[0]) && Quiet(signals, 1)
    ensures Looked(queue, sink, looks + 1, signals[1..], Rest(emptied, 1))
  {
    assert AskedAfter(looks);
    RestOfRest(sink, looks, 1);
    assert signals[1..] == queue[looks + 1..];
  }

  lemma LookedToTheEnd(queue: seq<Signal>, sink: seq<bool>, looks: nat, signals: seq<Signal>, emptied: seq<bool>)
    requires Looked(queue, sink, looks, signals, emptied) && emptied != [] && emptied[0]
    ensures PlaysOut(queue, sink)
  {
    assert AskedAfter(looks);
    assert FirstEmpty(sink, looks);
  }

  /** A stop or a closed queue comes before the sink runs empty. */
  lemma LookedInVain(queue: seq<Signal>, sink: seq<bool>, looks: nat, signals: seq<Signal>, emptied: seq<bool>)
    requires Looked(queue, sink, looks, signals, emptied) && (emptied != [] ==> !emptied[0]) && !Quiet(signals, 1)
    ensures !PlaysOut(queue, sink)
  {
    assert AskedAfter(looks);
    forall n: nat | FirstEmpty(sink, n)
      ensures !Quiet(queue, n)
    {
      assert n > looks;
      assert looks < |queue| ==> queue[looks] == signals[0];
    }
  }

  /** After a stop everything goes up to the first look that finds nothing. */
  lemma {:induction false} DrainedUpTo(signals: seq<Signal>, n: nat)
    requires n <= |signals| && (forall i :: 0 <= i < n ==> signals[i].Got?) && (n < |signals| ==> !signals[n].Got?)
    ensures AfterDrain(signals) == Rest(signals, n + 1)
  {
    if n > 0 {
      DrainedUpTo(signals[1..], n - 1);
    }
  }

  class Worker {
    // what the world answers
    var signals: seq<Signal>
    var emptied: seq<bool>
    var faults: seq<Option<AudioError>>

    var deviceLabel: string
    /** The label of the device whose output stream is kept open. */
    var outputCache: Option<string>
    var completions: seq<Finished>

    /** All commands taken from the queue, in order; where the completed Plays stand among them; how many were dropped. */
    ghost var taken: seq<Command>
    ghost var started: seq<nat>
    ghost var dropped: nat

    /** What the world answered to the clips that were completed. */
    ghost var clips: seq<Clip>

    /** Everything that is ever sent to this worker. */
    ghost const sent: seq<Command>

    /** At every moment: the label is the last one taken, and an open stream belongs to it. */
    ghost predicate Tuned()
      reads this`deviceLabel, this`outputCache, this`taken
    {
      && deviceLabel == LastLabel(taken)
      && (outputCache.Some? ==> outputCache.value == deviceLabel)
    }

    /** Commands are taken in the order in which they were sent, and none is lost. */
    ghost predicate AsSent()
      reads this`signals, this`taken
    {
      taken + Sent(signals) == sent
    }

    /** Plays taken are completed, dropped, or being played. */
    ghost predicate Counted(playing: nat)
      reads this`taken, this`completions, this`dropped
    {
      Plays(taken) == |completions| + dropped + playing
    }

    /** Completions belong to Plays, in the order in which these were queued. */
    ghost predicate InOrder()
      reads this`taken, this`completions, this`started
    {
      && |started| == |completions|
      && (forall k :: 0 <= k < |started| ==>
            started[k] < |taken| && taken[started[k]].Play? && taken[started[k]].itemId == completions[k].itemId)
      && (forall j, k :: 0 <= j < k < |started| ==> started[j] < started[k])
    }

    /** Every completion is the one that the world's answers call for. */
    ghost predicate Told()
      reads this`taken, this`completions, this`started, this`clips
    {
      && |clips| == |completions| == |started|
      && forall k :: 0 <= k < |clips| ==>
           && clips[k].command.Play? && completions[k] == FinishedOf(clips[k])
           && started[k] < |taken| && clips[k].command == taken[started[k]]
    }

    /** No new label was taken since. */
    ghost predicate Unlabelled(since: nat)
      reads this`taken
    {
      forall i :: since <= i < |taken| ==> !taken[i].SetDeviceLabel?
    }

    /** No stop was taken since. */
    ghost predicate Unstopped(since: nat)
      reads this`taken
    {
      forall i :: since <= i < |taken| ==> !taken[i].StopPending?
    }

    /** Between commands an open stream is there only after a clip that went well. */
    ghost predicate CacheIsProven()
      reads this`outputCache, this`completions
    {
      outputCache.Some? ==> completions != [] && completions[|completions| - 1].ok
    }

    /** At each command boundary of the main loop. */
    ghost predicate Valid()
      reads this
    {
      Tuned() && AsSent() && Counted(0) && InOrder() && CacheIsProven() && Told()
    }

    constructor (signals: seq<Signal>, emptied: seq<bool>, faults: seq<Option<AudioError>>)
      ensures Valid() && taken == [] && completions == [] && sent == Sent(signals)
      ensures this.signals == signals && this.emptied == emptied && this.faults == faults
    {
      this.signals, this.emptied, this.faults := signals, emptied, faults;
      deviceLabel, outputCache, completions := "", None, [];
      taken, started, dropped, clips, sent := [], [], 0, [], Sent(signals);
    }

    // ---- the queue ----

    /** A command from the front of the queue is recorded; a Play is started or dropped. */
    ghost method Record(command: Command, drop: bool)
      requires InOrder() && taken + ([command] + Sent(signals)) == sent
      modifies this`taken, this`dropped
      ensures taken == old(taken) + [command] && InOrder() && AsSent()
      ensures LastLabel(taken) == if command.SetDeviceLabel? then command.text else old(LastLabel(taken))
      ensures Plays(taken) - dropped == old(Plays(taken) - dropped) + if command.Play? && !drop then 1 else 0
    {
      PlaysOfMore(taken, command);
      LastLabelOfMore(taken, command);
      assert taken + [command] + Sent(signals) == taken + ([command] + Sent(signals));
      taken := taken + [command];
      if command.Play? && drop {
        dropped := dropped + 1;
      }
    }

    /** Waiting for a command; when nobody can send one any more there is none. */
    method Receive() returns (command: Option<Command>)
      requires AsSent() && Tuned() && Counted(0) && InOrder() && Told()
      modifies this`signals, this`taken, this`dropped
      ensures AsSent() && InOrder() && Told() && forall k :: 0 <= k < |started| ==> started[k] < |old(taken)|
      ensures command.Some? ==> |signals| < |old(signals)| && taken == old(taken) + [command.value]
      ensures command.Some? ==> Counted(if command.value.Play? then 1 else 0)
      ensures command.Some? && command.value.SetDeviceLabel? ==> LastLabel(taken) == command.value.text
      ensures command.Some? && !command.value.SetDeviceLabel? ==> LastLabel(taken) == old(LastLabel(taken))
      ensures command.None? ==> taken == old(taken) && Counted(0) && (signals == [] || signals[0].Closed?)
    {
      while signals != [] && signals[0].Nothing?
        invariant |signals| <= |old(signals)| && AsSent() && unchanged(`taken) && unchanged(`dropped)
        decreases |signals|
      {
        signals := signals[1..];
      }
      if signals != [] && signals[0].Got? {
        command := Some(signals[0].command);
        signals := signals[1..];
        Record(command.value, false);
      } else {
        command := None;
      }
    }

    /** Looking at the queue without waiting, or not for long, while a clip plays or after a stop: a Play is dropped. */
    method TryReceive(ghost playing: nat) returns (signal: Signal)
      requires AsSent() && Tuned() && Counted(playing) && InOrder()
      modifies this`signals, this`taken, this`dropped
      ensures AsSent() && Counted(playing) && InOrder()
      ensures taken == if signal.Got? then old(taken) + [signal.command] else old(taken)
      ensures old(signals) == [] ==> signals == [] && signal == Closed
      ensures old(signals) != [] ==> signal == old(signals)[0] && signals == old(signals)[1..]
      ensures match signal
        case Got(SetDeviceLabel(text)) => LastLabel(taken) == text
        case _ => Tuned()
    {
      if signals == [] {
        return Closed;
      }
      signal := signals[0];
      signals := signals[1..];
      if signal.Got? {
        Record(signal.command, true);
      }
    }

    /** A new label closes the stream of another one. */
    method TakeLabel(label_: string)
      requires LastLabel(taken) == label_ && (outputCache.Some? ==> outputCache.value == deviceLabel)
      modifies this`deviceLabel, this`outputCache
      ensures Tuned() && outputCache == if label_ == old(deviceLabel) then old(outputCache) else None
    {
      if deviceLabel != label_ {
        outputCache := None;
      }
      deviceLabel := label_;
    }

    /** What holds whenever a consumer outside the main loop is done: the label, the queue, the accounts and the order. */
    ghost predicate Steady(playing: nat)
      reads this
    {
      Tuned() && AsSent() && Counted(playing) && InOrder()
    }

    /** After a stop: everything that is queued is taken; labels count, Plays are dropped. */
    method DrainPendingPlayCommands(ghost playing: nat)
      requires Steady(playing)
      modifies this`signals, this`deviceLabel, this`outputCache, this`taken, this`dropped
      ensures Steady(playing) && old(taken) <= taken && signals == AfterDrain(old(signals)) && |signals| <= |old(signals)|
      ensures outputCache.Some? ==> outputCache == old(outputCache)
    {
      while true
        invariant Steady(playing) && old(taken) <= taken && |signals| <= |old(signals)|
        invariant AfterDrain(signals) == AfterDrain(old(signals))
        invariant outputCache.Some? ==> outputCache == old(outputCache)
        decreases |signals|
      {
        var signal := TryReceive(playing);
        if !signal.Got? {
          return;
        }
        match signal.command {
          case StopPending =>
          case SetDeviceLabel(text) => TakeLabel(text);
          case Play(_, _, _, _) =>
        }
      }
    }

    // ---- playing a clip ----

    /** How a call to a device or decoder ends. */
    method Attempt() returns (fault: Option<AudioError>)
      modifies this`faults
      ensures fault == FirstFault(old(faults), 1) && faults == Rest(old(faults), 1)
    {
      fault := None;
      if faults != [] {
        fault := faults[0];
        faults := faults[1..];
      }
    }

    /** Where a stream is open, it is the right one already; otherwise one is opened. */
    method EnsureOutputCache() returns (fault: Option<AudioError>)
      requires Tuned()
      modifies this`outputCache, this`faults
      ensures Tuned()
      ensures fault.None? ==> outputCache == Some(deviceLabel)
      ensures old(outputCache).Some? ==> fault.None? && faults == old(faults)
      ensures old(outputCache).None? ==> fault == FirstFault(old(faults), 2) && (fault.None? ==> faults == Rest(old(faults), 2))
    {
      FirstFaultSplits(faults, 1, 1);
      RestOfRest(faults, 1, 1);
      var needsOpen := outputCache.None? || outputCache.value != deviceLabel;
      if needsOpen {
        fault := Attempt();
        if fault.Some? {
          return;
        }
        fault := Attempt();
        if fault.Some? {
          return;
        }
        outputCache := Some(deviceLabel);
      }
      return None;
    }

    /** Whether the sink has played everything; when the world has no more to say, it has not. */
    method SinkEmpty() returns (empty: bool)
      modifies this`emptied
      ensures old(emptied) == [] ==> !empty && emptied == []
      ensures old(emptied) != [] ==> empty == old(emptied)[0] && emptied == old(emptied)[1..]
    {
      empty := false;
      if emptied != [] {
        empty := emptied[0];
        emptied := emptied[1..];
      }
    }

    /**
     * One look at the queue for a clip: before it is stretched, and again and again while it plays. A stop
     * drains the queue and ends the clip, as does a closed queue; labels count; a Play is dropped.
     */
    method PollWorkerControl() returns (fault: Option<AudioError>, ghost closed: bool)
      requires Steady(1)
      modifies this`signals, this`deviceLabel, this`outputCache, this`taken, this`dropped
      ensures Steady(1) && old(taken) <= taken && |signals| <= |old(signals)|
      ensures fault.None? <==> !closed && Unstopped(|old(taken)|)
      ensures fault.Some? ==> fault.value == PlaybackFailed(STOPPED)
      ensures fault.None? <==> Quiet(old(signals), 1)
      ensures fault.None? ==> signals == old(signals)[1..]
      ensures fault.None? && Unlabelled(|old(taken)|) ==> outputCache == old(outputCache) && deviceLabel == old(deviceLabel)
    {
      closed := false;
      var signal := TryReceive(1);
      match signal {
        case Got(StopPending) =>
          ghost var stop := |taken| - 1;
          DrainPendingPlayCommands(1);
          assert taken[stop].StopPending?;
          fault := Some(PlaybackFailed(STOPPED));
        case Got(SetDeviceLabel(text)) =>
          TakeLabel(text);
          fault := None;
        case Got(Play(_, _, _, _)) =>
          fault := None;
        case Nothing =>
          fault := None;
        case Closed =>
          fault, closed := Some(PlaybackFailed(STOPPED)), true;
      }
    }

    /** Stretching: one look at the queue, the stretcher, and a sink that must have got something. */
    method PlayPcmSonicStreaming(rate: real) returns (fault: Option<AudioError>)
      requires SteadySpeed(rate)
      requires Steady(1)
      modifies this`signals, this`emptied, this`faults, this`deviceLabel, this`outputCache, this`taken, this`dropped
      ensures Steady(1) && old(taken) <= taken && |signals| <= |old(signals)|
      ensures fault.None? ==> Unstopped(|old(taken)|)
      ensures fault == StretchFault(old(signals), old(emptied), FirstFault(old(faults), 1))
      ensures fault.None? ==> signals == old(signals)[1..] && emptied == Rest(old(emptied), 1)
      ensures fault.None? && Unlabelled(|old(taken)|) ==> outputCache == old(outputCache) && deviceLabel == old(deviceLabel)
    {
      ghost var closed;
      fault, closed := PollWorkerControl();
      if fault.Some? {
        return;
      }
      fault := Attempt();
      if fault.Some? {
        return;
      }
      var empty := SinkEmpty();
      return if empty then Some(PlaybackFailed(SonicProcessors.NO_OUTPUT)) else None;
    }

    /** The clip plays until the sink is empty, a stop is taken, or nobody can send one any more. */
    method PollUntilDone() returns (fault: Option<AudioError>, ghost closed: bool)
      requires Steady(1)
      modifies this`signals, this`emptied, this`deviceLabel, this`outputCache, this`taken, this`dropped
      ensures Steady(1) && old(taken) <= taken && |signals| <= |old(signals)|
      ensures fault.None? <==> !closed && Unstopped(|old(taken)|)
      ensures fault.Some? ==> fault.value == PlaybackFailed(STOPPED)
      ensures fault == PlayedOut(old(signals), old(emptied))
      ensures fault.None? && Unlabelled(|old(taken)|) ==> outputCache == old(outputCache) && deviceLabel == old(deviceLabel)
    {
      closed := false;
      ghost var queue, sink, looks: nat := signals, emptied, 0;
      NoLookYet(queue, sink);
      while true
        invariant !closed && Unstopped(|old(taken)|) && Looked(queue, sink, looks, signals, emptied)
        invariant Steady(1) && old(taken) <= taken && |signals| <= |old(signals)|
        invariant Unlabelled(|old(taken)|) ==> outputCache == old(outputCache) && deviceLabel == old(deviceLabel)
        decreases |signals|
      {
        ghost var ahead, answers := signals, emptied;
        var empty := SinkEmpty();
        if empty {
          LookedToTheEnd(queue, sink, looks, ahead, answers);
          return None, closed;
        }
        fault, closed := PollWorkerControl();
        if fault.Some? {
          LookedInVain(queue, sink, looks, ahead, answers);
          return;
        }
        LookOn(queue, sink, looks, ahead, answers);
        looks := looks + 1;
      }
    }

    /** A stream, a sink on it and a decoder. */
    method OpenSinkAndDecoder() returns (fault: Option<AudioError>)
      requires Tuned()
      modifies this`outputCache, this`faults
      ensures Tuned() && (fault.None? ==> outputCache == Some(deviceLabel))
      ensures var calls := if old(outputCache).None? then 4 else 2;
        fault == FirstFault(old(faults), calls) && (fault.None? ==> faults == Rest(old(faults), calls))
    {
      ghost var opening := if outputCache.None? then 2 else 0;
      FirstFaultSplits(faults, opening, 2);
      FirstFaultSplits(Rest(faults, opening), 1, 1);
      RestOfRest(faults, opening, 1);
      RestOfRest(faults, opening + 1, 1);
      fault := EnsureOutputCache();
      if fault.Some? {
        return;
      }
      fault := Attempt();
      if fault.Some? {
        return;
      }
      fault := Attempt();
    }

    method PlayMp3Blocking(bytes: seq<int>, rate: real, ghost clip: Clip) returns (fault: Option<AudioError>)
      requires Steady(1) && clip.command.Play? && clip.command.bytes == bytes && clip.command.rate == rate
      requires clip == Clip(clip.command, outputCache.None?, signals, emptied, faults)
      modifies this`signals, this`emptied, this`faults, this`deviceLabel, this`outputCache, this`taken, this`dropped
      ensures Steady(1) && old(taken) <= taken && |signals| <= |old(signals)|
      ensures fault.None? ==> Unstopped(|old(taken)|)
      ensures bytes == [] ==> fault == Some(PlaybackFailed(EMPTY_BUFFER)) && taken == old(taken)
      ensures fault == ClipFault(clip)
      ensures fault.None? && Unlabelled(|old(taken)|) ==> outputCache == Some(deviceLabel)
    {
      if bytes == [] {
        return Some(PlaybackFailed(EMPTY_BUFFER));
      }
      fault := OpenSinkAndDecoder();
      if fault.Some? {
        return;
      }
      fault := StretchIfNeeded(rate);
      if fault.Some? {
        return;
      }
      ghost var closed;
      fault, closed := PollUntilDone();
    }

    /** The stretcher is left out at normal speed. */
    method StretchIfNeeded(rate: real) returns (fault: Option<AudioError>)
      requires Steady(1)
      modifies this`signals, this`emptied, this`faults, this`deviceLabel, this`outputCache, this`taken, this`dropped
      ensures Steady(1) && old(taken) <= taken && |signals| <= |old(signals)|
      ensures fault.None? ==> Unstopped(|old(taken)|)
      ensures StretchRate(rate).None? ==> fault.None? && signals == old(signals) && emptied == old(emptied) && taken == old(taken)
      ensures StretchRate(rate).Some? ==> fault == StretchFault(old(signals), old(emptied), FirstFault(old(faults), 1))
      ensures StretchRate(rate).Some? && fault.None? ==> signals == old(signals)[1..] && emptied == Rest(old(emptied), 1)
      ensures fault.None? && Unlabelled(|old(taken)|) ==> outputCache == old(outputCache) && deviceLabel == old(deviceLabel)
    {
      fault := None;
      var stretch := StretchRate(rate);
      if stretch.Some? {
        StretchRateIsSteady(rate);
        fault := PlayPcmSonicStreaming(stretch.value);
      }
    }

    /** A failure whose display reads as a stop would count as one; none does. */
    method PlayMp3Interruptible(bytes: seq<int>, rate: real, ghost clip: Clip) returns (outcome: Outcome)
      requires Steady(1) && clip.command.Play? && clip.command.bytes == bytes && clip.command.rate == rate
      requires clip == Clip(clip.command, outputCache.None?, signals, emptied, faults)
      modifies this`signals, this`emptied, this`faults, this`deviceLabel, this`outputCache, this`taken, this`dropped
      ensures Steady(1) && old(taken) <= taken && |signals| <= |old(signals)| && !outcome.Stopped?
      ensures outcome.Completed? ==> Unstopped(|old(taken)|)
      ensures bytes == [] ==> outcome == Failed(PlaybackFailed(EMPTY_BUFFER)) && taken == old(taken)
      ensures outcome == if ClipFault(clip).None? then Completed else Failed(ClipFault(clip).value)
      ensures outcome.Completed? && Unlabelled(|old(taken)|) ==> outputCache == Some(deviceLabel)
    {
      var fault := PlayMp3Blocking(bytes, rate, clip);
      if fault.None? {
        return Completed;
      }
      StopIsNeverRecognised(fault.value);
      return if fault.value.Display() == STOPPED then Stopped else Failed(fault.value);
    }

    // ---- the main loop ----

    /** A Play of the main loop always ends in exactly one completion; after a failure no stream is kept. */
    method PlayOne(command: Command, ghost at: nat)
      requires Steady(1) && Told() && command.Play? && |taken| == at + 1 && taken[at] == command
      requires forall k :: 0 <= k < |started| ==> started[k] < at
      modifies this
      ensures Valid() && old(taken) <= taken && |signals| <= |old(signals)|
      ensures |completions| == |old(completions)| + 1 && old(completions) <= completions && started == old(started) + [at]
      ensures var last := completions[|completions| - 1];
        && last.itemId == command.itemId && (last.ok <==> last.error.None?)
        && (command.bytes == [] ==> !last.ok) && (last.ok ==> Unstopped(at + 1))
        && (last.error.Some? ==> last.error != Some(STOPPED) && outputCache.None?)
        && last == FinishedOf(Clip(command, old(outputCache).None?, old(signals), old(emptied), old(faults)))
        && (last.ok && Unlabelled(at + 1) ==> outputCache == Some(deviceLabel))
    {
      ghost var clip := Clip(command, outputCache.None?, signals, emptied, faults);
      var outcome := PlayMp3Interruptible(command.bytes, command.rate, clip);
      var ok, error := true, None;
      match outcome {
        case Completed =>
        case Stopped =>
          ok, error := false, Some(STOPPED);
        case Failed(fault) =>
          StopIsNeverRecognised(fault);
          outputCache := None;
          ok, error := false, Some(fault.Display());
      }
      Complete(Finished(command.itemId, ok, error), at, clip);
    }

    method Complete(finished: Finished, ghost at: nat, ghost clip: Clip)
      requires Told() && clip.command.Play? && finished == FinishedOf(clip)
      requires Steady(1) && at < |taken| && taken[at] == clip.command && at < |taken| && taken[at].Play? && taken[at].itemId == finished.itemId
      requires forall k :: 0 <= k < |started| ==> started[k] < at
      requires outputCache.Some? ==> finished.ok
      modifies this`started, this`completions, this`clips
      ensures Valid() && completions == old(completions) + [finished] && started == old(started) + [at]
    {
      started, clips := started + [at], clips + [clip];
      completions := completions + [finished];
    }

    /** One command of the main loop. */
    method HandleCommand(command: Command)
      requires AsSent() && InOrder() && CacheIsProven() && Told() && Counted(if command.Play? then 1 else 0)
      requires taken != [] && taken[|taken| - 1] == command
      requires forall k :: 0 <= k < |started| ==> started[k] < |taken| - 1
      requires outputCache.Some? ==> outputCache.value == deviceLabel
      requires LastLabel(taken) == if command.SetDeviceLabel? then command.text else deviceLabel
      modifies this
      ensures Valid() && old(taken) <= taken && |signals| <= |old(signals)| && old(completions) <= completions
      ensures |completions| == |old(completions)| + if command.Play? then 1 else 0
      ensures command.StopPending? ==> signals == AfterDrain(old(signals))
    {
      match command {
        case SetDeviceLabel(text) =>
          TakeLabel(text);
        case StopPending =>
          DrainPendingPlayCommands(0);
        case Play(_, _, _, _) =>
          PlayOne(command, |taken| - 1);
      }
    }

    /** The worker's life: it ends when nobody can send a command any more. */
    method ChannelWorkerLoop()
      requires Valid()
      modifies this
      ensures Valid() && old(taken) <= taken <= sent && old(completions) <= completions
      ensures signals == [] || signals[0].Closed?
    {
      while true
        invariant Valid() && old(taken) <= taken && old(completions) <= completions
        decreases |signals|
      {
        var command := Receive();
        if command.None? {
          break;
        }
        HandleCommand(command.value);
      }
    }
  }
}
