/** The overlay page: messages are checked when they arrive, kept until the next animation frame, and checked again there. */
module Overlays {
  import opened Results
  import opened StaleGuards
  import opened EventFields

  /** A message of the event stream; a missing or empty payload is None. */
  datatype Message = Message(eventType: Option<string>, payload: Option<Payload>)

  /** What has happened on the page, as far as overlay payloads go. */
  datatype Seen = Accepted(payload: Payload) | FrameRan

  /** The payloads accepted since the last frame. */
  ghost function SinceFrame(log: seq<Seen>): seq<Payload> {
    if log == [] || log[|log| - 1].FrameRan? then []
    else SinceFrame(log[..|log| - 1]) + [log[|log| - 1].payload]
  }

  /** What is to be shown: at each frame the last payload accepted since the frame before, if there was one. */
  ghost function Shown(log: seq<Seen>): seq<Payload> {
    if log == [] then []
    else
      var before, waiting := log[..|log| - 1], SinceFrame(log[..|log| - 1]);
      if log[|log| - 1].FrameRan? && waiting != [] then Shown(before) + [waiting[|waiting| - 1]] else Shown(before)
  }

  class Overlay {
    const guard: StaleGuard
    var connectionId: nat
    var pending: Option<Payload>
    var frameScheduled: bool
    var applied: seq<Payload>
    var transcripts: seq<Payload>
    ghost var log: seq<Seen>

    /** A frame is scheduled for exactly the last payload accepted. */
    ghost predicate Tracking()
      reads this
    {
      && applied == Shown(log)
      && (frameScheduled <==> pending.Some?)
      && (frameScheduled <==> SinceFrame(log) != [])
      && (pending.Some? ==> pending.value == SinceFrame(log)[|SinceFrame(log)| - 1])
    }

    /** And the guard will let it pass again. */
    ghost predicate Valid()
      reads this, guard
    {
      Tracking() && (pending.Some? ==> Settled(pending.value))
    }

    /** The guard accepts the payload and stays as it is. */
    ghost predicate Settled(p: Payload)
      reads guard
    {
      var mark := guard.MarkFor(OVERLAY_UPDATE);
      !Refuses(mark, p) && Judged(mark, p) == mark
    }

    ghost function View(): Page
      reads this, guard
    {
      Page(connectionId, guard.MarkFor(OVERLAY_UPDATE), log)
    }

    constructor ()
      ensures Valid() && fresh(guard) && applied == [] && connectionId == 0
    {
      guard := new StaleGuard();
      connectionId, pending, frameScheduled, applied, transcripts, log := 0, None, false, [], [], [];
    }

    /** A new connection; what is pending stays pending. */
    method Connect() returns (id: nat)
      requires Valid()
      modifies this`connectionId
      ensures Valid() && id == connectionId && View() == NextPage(old(View()), Connecting)
    {
      connectionId := connectionId + 1;
      id := connectionId;
    }

    method ScheduleOverlayPayload(payload: Payload)
      requires Tracking() && Settled(payload)
      modifies this`pending, this`frameScheduled, this`log
      ensures Valid() && log == old(log) + [Accepted(payload)]
    {
      assert (log + [Accepted(payload)])[..|log|] == log;
      log := log + [Accepted(payload)];
      pending := Some(payload);
      if frameScheduled {
        return;
      }
      frameScheduled := true;
    }

    ghost predicate TakesTranscript(connection: nat, message: Message)
      reads this, guard
    {
      TakesAs(TRANSCRIPT_UPDATE, connectionId, guard.MarkFor(TRANSCRIPT_UPDATE), connection, message)
    }

    /** Messages of earlier connections are ignored; transcripts have a guard of their own. */
    method OnMessage(connection: nat, message: Message)
      requires Valid()
      modifies this, guard
      ensures Valid() && applied == old(applied)
      ensures View() == NextPage(old(View()), Arriving(connection, message))
      ensures transcripts == old(transcripts) + if old(TakesTranscript(connection, message)) then [message.payload.value] else []
      ensures guard.MarkFor(TRANSCRIPT_UPDATE) == if old(TakesTranscript(connection, message))
        then Judged(old(guard.MarkFor(TRANSCRIPT_UPDATE)), message.payload.value) else old(guard.MarkFor(TRANSCRIPT_UPDATE))
    {
      if connection != connectionId {
        return;
      }
      var eventType := NormalizeWsEventType(message.eventType);
      if eventType == TRANSCRIPT_UPDATE && message.payload.Some? {
        var stale := guard.IsWsEventStale(eventType, message.payload.value);
        if stale {
          return;
        }
        transcripts := transcripts + [message.payload.value];
        return;
      }
      if eventType == OVERLAY_UPDATE && message.payload.Some? {
        ghost var mark := guard.MarkFor(OVERLAY_UPDATE);
        var stale := guard.IsWsEventStale(eventType, message.payload.value);
        if stale {
          RefusedLeavesNoTrace(mark, message.payload.value);
          return;
        }
        PassesAgain(mark, message.payload.value);
        ScheduleOverlayPayload(message.payload.value);
      }
    }

    /** Each frame shows exactly the last payload accepted since the frame before: the second check drops nothing. */
    method OnFrame()
      requires Valid() && frameScheduled
      modifies this, guard
      ensures Valid() && !frameScheduled && View() == NextPage(old(View()), Frame)
      ensures applied == old(applied) + [old(SinceFrame(log)[|SinceFrame(log)| - 1])]
    {
      assert (log + [FrameRan])[..|log|] == log;
      log := log + [FrameRan];
      frameScheduled := false;
      var next := pending;
      pending := None;
      if next.Some? {
        ApplyOverlayPayload(next.value);
      }
    }

    method ApplyOverlayPayload(payload: Payload)
      modifies this`applied, guard
      ensures var mark := old(guard.MarkFor(OVERLAY_UPDATE));
        && applied == (if Refuses(mark, payload) then old(applied) else old(applied) + [payload])
        && guard.MarkFor(OVERLAY_UPDATE) == Judged(mark, payload)
      ensures forall t :: t != OVERLAY_UPDATE ==> guard.MarkFor(t) == old(guard.MarkFor(t))
    {
      var stale := guard.IsWsEventStale(OVERLAY_UPDATE, payload);
      if stale {
        return;
      }
      applied := applied + [payload];
    }
  }

  // ---- whole sessions ----

  datatype Event = Connecting | Arriving(connection: nat, message: Message) | Frame

  /** The page as its messages see it: the current connection, the guard of overlay payloads, and what happened. */
  datatype Page = Page(connectionId: nat, mark: Mark, log: seq<Seen>)

  /** A message of the current connection, of some type, with a payload that the guard of that type does not refuse. */
  ghost predicate TakesAs(eventType: string, current: nat, mark: Mark, connection: nat, message: Message) {
    && connection == current && NormalizeWsEventType(message.eventType) == eventType
    && message.payload.Some? && !Refuses(mark, message.payload.value)
  }

  ghost predicate Takes(page: Page, connection: nat, message: Message) {
    TakesAs(OVERLAY_UPDATE, page.connectionId, page.mark, connection, message)
  }

  ghost function NextPage(page: Page, event: Event): Page {
    match event
    case Connecting => page.(connectionId := page.connectionId + 1)
    case Arriving(connection, message) =>
      if !Takes(page, connection, message) then page
      else page.(mark := Judged(page.mark, message.payload.value), log := page.log + [Accepted(message.payload.value)])
    case Frame => if SinceFrame(page.log) == [] then page else page.(log := page.log + [FrameRan])
  }

  ghost function PageAfter(page: Page, events: seq<Event>): Page {
    if events == [] then page else NextPage(PageAfter(page, events[..|events| - 1]), events[|events| - 1])
  }

  /** Over any interleaving of connections, messages and frames, the page shows the last accepted payload of each frame. */
  method Replay(overlay: Overlay, events: seq<Event>)
    requires overlay.Valid()
    modifies overlay, overlay.guard
    ensures overlay.Valid() && overlay.View() == PageAfter(old(overlay.View()), events)
    ensures overlay.applied == Shown(PageAfter(old(overlay.View()), events).log)
  {
    assert events[..0] == [];
    for i := 0 to |events|
      invariant overlay.Valid() && overlay.View() == PageAfter(old(overlay.View()), events[..i])
    {
      assert events[..i + 1][..i] == events[..i];
      match events[i] {
        case Connecting =>
          var id := overlay.Connect();
        case Arriving(connection, message) =>
          overlay.OnMessage(connection, message);
        case Frame =>
          if overlay.frameScheduled {
            overlay.OnFrame();
          }
      }
    }
    assert events[..|events|] == events;
  }

  /** Without a frame between them, payloads i to k were accepted. */
  ghost predicate Burst(log: seq<Seen>, i: nat, k: nat) {
    i <= k < |log| && forall j :: i <= j <= k ==> log[j].Accepted?
  }

  /** Nothing accepted is lost: it, or one accepted after it in the same frame, is shown or is the next to be shown. */
  lemma {:induction false} NothingIsLost(log: seq<Seen>, i: nat) returns (k: nat)
    requires i < |log| && log[i].Accepted?
    ensures Burst(log, i, k) && (log[k].payload in Shown(log) || k == |log| - 1)
    decreases |log|
  {
    var n := |log| - 1;
    if i == n {
      k := i;
    } else {
      k := NothingIsLost(log[..n], i);
      assert forall j :: i <= j <= k ==> log[j] == log[..n][j];
      if k == n - 1 && log[n].Accepted? {
        k := n;
      }
    }
  }

  /** Once a new connection is made, the messages of the one before are ignored. */
  lemma OldConnectionIsIgnored(page: Page, message: Message)
    ensures NextPage(NextPage(page, Connecting), Arriving(page.connectionId, message)) == NextPage(page, Connecting)
  {
  }

  lemma OtherConnectionIsIgnored(page: Page, connection: nat, message: Message)
    requires connection != page.connectionId
    ensures NextPage(page, Arriving(connection, message)) == page
  {
  }

  /** An overlay payload of the current connection that is not refused is the next to be shown, by its old name as well. */
  lemma CurrentPayloadIsTaken(page: Page, type_: string, payload: Payload)
    requires Names(type_, "overlay_update") || Names(type_, "subtitle_payload_update")
    requires !Refuses(page.mark, payload)
    ensures NextPage(page, Arriving(page.connectionId, Message(Some(type_), Some(payload)))).log == page.log + [Accepted(payload)]
  {
    OldNamesMeanNewOnes(type_, if Names(type_, "overlay_update") then "overlay_update" else "subtitle_payload_update");
  }

  /** Messages of other types are not for the overlay. */
  lemma OtherTypesAreIgnored(page: Page, connection: nat, type_: string, name: string, payload: Option<Payload>)
    requires Names(type_, name) && name != "overlay_update" && name != "subtitle_payload_update"
    ensures NextPage(page, Arriving(connection, Message(Some(type_), payload))) == page
  {
    OldNamesMeanNewOnes(type_, name);
  }
}
