/** The browser worker service: one object behind a lock, each method one or two lock regions. */
module BrowserServices {
  import opened Results
  import opened BrowserProtocol

  /** A recognised piece of speech, as it is handed on. */
  datatype Update = Update(
    partial: string, finalText: string, isFinal: bool, generation: nat, session: Option<string>,
    forcedFinal: bool, transport: nat, sequence: Option<nat>)

  function StrField(p: Payload, key: string): string {
    StrOr(p.Get(key), "")
  }

  function Sequence(p: Payload): Option<nat> {
    match p.Get("worker_message_sequence")
    case Integer(value) => if 0 <= value < U64_LIMIT then Some(value) else None
    case _ => None
  }

  function UpdateFrom(transport: nat, p: Payload): Update {
    Update(StrField(p, "partial"), StrField(p, "final"), Bool(p, "is_final"), Generation(p), Session(p),
           Bool(p, "forced_final"), transport, Sequence(p))
  }

  /** The status that is forwarded tells which transport it came from. */
  function Stamped(transport: nat, p: Payload): Payload {
    if p.Object? then Object(p.fields["basr_transport_id" := Integer(transport)]) else p
  }

  class BrowserService {
    var nextTransport: nat
    var activeTransport: nat
    var activeSession: Option<string>
    var activeGeneration: nat
    var outbound: Option<Channel>
    var snapshot: Snapshot
    var phase: Phase

    function View(): State
      reads this
    {
      State(nextTransport, activeTransport, activeSession, activeGeneration, outbound, snapshot, phase)
    }

    constructor ()
      ensures View() == INITIAL
    {
      nextTransport, activeTransport, activeSession, activeGeneration := 0, 0, None, 0;
      outbound, snapshot, phase := None, DISCONNECTED, Idle;
    }

    method RegisterConnection(channel: Channel) returns (transport: nat)
      modifies this
      ensures View() == Next(old(View()), Register(channel))
      ensures transport == activeTransport == old(nextTransport) + 1
    {
      nextTransport := nextTransport + 1;
      transport := nextTransport;
      activeTransport := transport;
      outbound := Some(channel);
      activeSession := None;
      activeGeneration := 0;
      snapshot := DISCONNECTED.(workerConnected := true, recognitionState := "idle", supervisorState := "idle");
    }

    method WorkerConnected()
      modifies this`phase
      ensures View() == Next(old(View()), NoteConnected)
    {
      phase := WorkerSocketIdle;
    }

    method DisconnectTransport(transport: nat) returns (notify: bool)
      modifies this
      ensures View() == Next(old(View()), Disconnect(transport))
      ensures notify == old(Disconnects(View(), transport))
    {
      if transport != activeTransport {
        return false;
      }
      if outbound.None? {
        return false;
      }
      outbound := None;
      snapshot := snapshot.(
        workerConnected := false, recognitionState := "disconnected", supervisorState := "idle",
        desiredRunning := false, activeRecognition := false, activeMediaStream := false);
      phase := Idle;
      return true;
    }

    method IgnoreStale()
      modifies this`snapshot
      ensures View() == Refused(old(View()))
    {
      snapshot := snapshot.(staleIgnored := snapshot.staleIgnored + 1);
    }

    method AcceptPayload(transport: nat, payload: Payload) returns (accepted: bool)
      modifies this
      ensures View() == Next(old(View()), Accept(transport, payload))
      ensures accepted == Accepts(old(View()), transport, payload)
    {
      if transport != activeTransport {
        IgnoreStale();
        return false;
      }
      var session, generation := Session(payload), Generation(payload);
      if session.Some? && activeSession.Some? {
        if session.value != activeSession.value {
          if generation > 0 && generation <= activeGeneration {
            IgnoreStale();
            return false;
          }
          activeSession := session;
          activeGeneration := generation;
          return true;
        }
      }
      if session.Some? && activeSession.None? {
        activeSession := session;
      }
      if generation > 0 && generation < activeGeneration {
        IgnoreStale();
        return false;
      }
      if generation > 0 {
        activeGeneration := generation;
      }
      return true;
    }

    method ApplyStatusSnapshot(transport: nat, payload: Payload)
      modifies this`snapshot, this`phase
      ensures View() == Next(old(View()), ApplyStatus(transport, payload))
    {
      snapshot := snapshot.(
        workerConnected := true,
        recognitionState := StrOr(payload.Get("recognition_state"), snapshot.recognitionState),
        supervisorState := StrOr(SupervisorField(payload), snapshot.supervisorState),
        desiredRunning := Bool(payload, "desired_running"),
        degradedReason := OptStr(payload, "degraded_reason"),
        generation := Generation(payload),
        session := Session(payload),
        activeRecognition := Bool(payload, "active_recognition"),
        activeMediaStream := Bool(payload, "active_media_stream"));
      NoteStatusAggregate(true, snapshot.degradedReason);
    }

    method NoteStatusAggregate(workerConnected: bool, degradedReason: Option<string>)
      modifies this`phase
      ensures phase == if !workerConnected then old(phase) else if degradedReason.Some? then DegradedHint else WorkerLive
    {
      if !workerConnected {
        return;
      }
      var target := if degradedReason.Some? then DegradedHint else WorkerLive;
      if target == phase {
        return;
      }
      phase := target;
    }

    method NoteIngestRegion(isFinal: bool)
      modifies this`phase
      ensures View() == Next(old(View()), NoteIngest(isFinal))
    {
      phase := if isFinal then IngestFinal else IngestPartial;
    }

    /** A status goes through two lock regions; here without another step between them. */
    method HandleStatus(transport: nat, payload: Payload) returns (forwarded: Option<Payload>)
      modifies this
      ensures forwarded.Some? <==> Accepts(old(View()), transport, payload)
      ensures View() == Run(old(View()), [Accept(transport, payload)] + (if forwarded.Some? then [ApplyStatus(transport, payload)] else []))
      ensures forwarded.Some? ==> forwarded.value == Stamped(transport, payload)
    {
      var accepted := AcceptPayload(transport, payload);
      RunOfTwo(old(View()), Accept(transport, payload), ApplyStatus(transport, payload));
      if !accepted {
        assert [Accept(transport, payload)] + [] == [Accept(transport, payload)];
        return None;
      }
      ApplyStatusSnapshot(transport, payload);
      return Some(Stamped(transport, payload));
    }

    method HandleExternalUpdate(transport: nat, payload: Payload) returns (update: Option<Update>)
      modifies this
      ensures update.Some? <==> Accepts(old(View()), transport, payload)
      ensures var ingest := NoteIngest(Bool(payload, "is_final"));
        View() == Run(old(View()), [Accept(transport, payload)] + (if update.Some? then [ingest] else []))
      ensures update.Some? ==> update.value == UpdateFrom(transport, payload)
    {
      var accepted := AcceptPayload(transport, payload);
      RunOfTwo(old(View()), Accept(transport, payload), NoteIngest(Bool(payload, "is_final")));
      if !accepted {
        assert [Accept(transport, payload)] + [] == [Accept(transport, payload)];
        return None;
      }
      NoteIngestRegion(Bool(payload, "is_final"));
      return Some(UpdateFrom(transport, payload));
    }
  }

  lemma RunOfTwo(s: State, a: Step, b: Step)
    ensures Run(s, [a]) == Next(s, a) && Run(s, [a] + [b]) == Next(Next(s, a), b)
  {
    assert [a][..0] == [] && ([a] + [b])[..1] == [a];
  }
}
