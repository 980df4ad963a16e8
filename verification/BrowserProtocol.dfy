/**
 * The lock regions of the browser worker service as atomic steps on one state. Calls from several
 * connections interleave at these steps, so a run is any sequence of them.
 */
module BrowserProtocol {
  import opened Results
  import opened Text

  // ---- what a worker sends ----

  datatype Json = Null | Flag(on: bool) | Integer(value: int) | Str(text: string) | Other

  /** A message; messages that are not objects have no fields. */
  datatype Payload = Object(fields: map<string, Json>) | NotAnObject {
    function Get(key: string): Json {
      if Object? && key in fields then fields[key] else Null
    }
  }

  /** Text without the white space around it, or nothing if nothing is left. */
  function OptStr(p: Payload, key: string): (r: Option<string>)
    ensures r.Some? ==> r.value != "" && Trimmed(r.value, RustSpace)
  {
    match p.Get(key)
    case Str(text) =>
      var t := Trim(text, RustSpace);
      if t == "" then None else Some(t)
    case _ => None
  }

  const U64_LIMIT := 0x1_0000_0000_0000_0000

  /** Negative, oversized, fractional and missing numbers all read as zero. */
  function Unsigned(p: Payload, key: string): (n: nat)
    ensures n < U64_LIMIT
    ensures p.Get(key) == Integer(n) || (n == 0 && forall value: nat :: value < U64_LIMIT ==> p.Get(key) != Integer(value))
  {
    match p.Get(key)
    case Integer(value) => if 0 <= value < U64_LIMIT then value else 0
    case _ => 0
  }

  function Bool(p: Payload, key: string): bool {
    match p.Get(key)
    case Flag(on) => on
    case _ => false
  }

  function Session(p: Payload): Option<string> { OptStr(p, "session_id") }
  function Generation(p: Payload): nat { Unsigned(p, "generation_id") }

  // ---- the state behind the lock ----

  datatype Phase = Idle | WorkerSocketIdle | WorkerLive | IngestPartial | IngestFinal | DegradedHint

  /** The part of the diagnostics that the protocol looks after. */
  datatype Snapshot = Snapshot(
    workerConnected: bool, recognitionState: string, supervisorState: string, desiredRunning: bool,
    activeRecognition: bool, activeMediaStream: bool, degradedReason: Option<string>,
    session: Option<string>, generation: nat, staleIgnored: nat)

  const DISCONNECTED := Snapshot(false, "disconnected", "idle", false, false, false, None, None, 0, 0)

  /** The sender of the connection to a worker. */
  type Channel = nat

  datatype State = State(
    nextTransport: nat, activeTransport: nat, session: Option<string>, generation: nat,
    outbound: Option<Channel>, snapshot: Snapshot, phase: Phase)

  const INITIAL := State(0, 0, None, 0, None, DISCONNECTED, Idle)

  datatype Step =
    | Register(channel: Channel)
    | NoteConnected
    | Disconnect(transport: nat)
    | Accept(transport: nat, payload: Payload)
    | ApplyStatus(transport: nat, payload: Payload)
    | NoteIngest(isFinal: bool)

  function AfterRegister(s: State, channel: Channel): State {
    var id := s.nextTransport + 1;
    s.(nextTransport := id, activeTransport := id, outbound := Some(channel), session := None, generation := 0,
       snapshot := DISCONNECTED.(workerConnected := true, recognitionState := "idle"))
  }

  /** A disconnect counts once, and only for the transport that is connected. */
  predicate Disconnects(s: State, transport: nat) {
    transport == s.activeTransport && s.outbound.Some?
  }

  function AfterDisconnect(s: State, transport: nat): State {
    if !Disconnects(s, transport) then s
    else s.(outbound := None, phase := Idle, snapshot := s.snapshot.(
      workerConnected := false, recognitionState := "disconnected", supervisorState := "idle",
      desiredRunning := false, activeRecognition := false, activeMediaStream := false))
  }

  /** Another session than the active one, where there are both. */
  predicate SwitchesSession(s: State, p: Payload) {
    Session(p).Some? && s.session.Some? && Session(p) != s.session
  }

  /** What the service takes as an outdated message of the active transport. */
  predicate Outdated(s: State, p: Payload) {
    Generation(p) > 0 && (if SwitchesSession(s, p) then Generation(p) <= s.generation else Generation(p) < s.generation)
  }

  predicate Accepts(s: State, transport: nat, p: Payload) {
    transport == s.activeTransport && !Outdated(s, p)
  }

  function Refused(s: State): State {
    s.(snapshot := s.snapshot.(staleIgnored := s.snapshot.staleIgnored + 1))
  }

  /** The session is taken over even by a message that is then refused, if there was none. */
  function AfterAccept(s: State, transport: nat, p: Payload): State {
    if transport != s.activeTransport then Refused(s)
    else if SwitchesSession(s, p) then
      if Outdated(s, p) then Refused(s) else s.(session := Session(p), generation := Generation(p))
    else
      var t := if s.session.None? then s.(session := Session(p)) else s;
      if Outdated(s, p) then Refused(t)
      else if Generation(p) > 0 then t.(generation := Generation(p))
      else t
  }

  function StrOr(field: Json, otherwise: string): string {
    match field
    case Str(text) => text
    case _ => otherwise
  }

  /** The newer name of the supervisor field wins, even where its value is not text. */
  function SupervisorField(p: Payload): Json {
    if p.Object? && "browser_supervisor_state" in p.fields then p.fields["browser_supervisor_state"]
    else p.Get("supervisor_state")
  }

  function AfterStatus(s: State, p: Payload): State {
    s.(phase := if OptStr(p, "degraded_reason").Some? then DegradedHint else WorkerLive,
       snapshot := Snapshot(
         true, StrOr(p.Get("recognition_state"), s.snapshot.recognitionState),
         StrOr(SupervisorField(p), s.snapshot.supervisorState), Bool(p, "desired_running"),
         Bool(p, "active_recognition"), Bool(p, "active_media_stream"), OptStr(p, "degraded_reason"),
         Session(p), Generation(p), s.snapshot.staleIgnored))
  }

  function Next(s: State, step: Step): State {
    match step
    case Register(channel) => AfterRegister(s, channel)
    case NoteConnected => s.(phase := WorkerSocketIdle)
    case Disconnect(transport) => AfterDisconnect(s, transport)
    case Accept(transport, payload) => AfterAccept(s, transport, payload)
    case ApplyStatus(_, payload) => AfterStatus(s, payload)
    case NoteIngest(isFinal) => s.(phase := if isFinal then IngestFinal else IngestPartial)
  }

  // ---- runs ----

  function Run(s: State, steps: seq<Step>): State {
    if steps == [] then s else Next(Run(s, steps[..|steps| - 1]), steps[|steps| - 1])
  }

  lemma RunOneMore(s: State, steps: seq<Step>, i: nat)
    requires i < |steps|
    ensures Run(s, steps[..i + 1]) == Next(Run(s, steps[..i]), steps[i])
  {
    assert steps[..i + 1][..i] == steps[..i];
  }

  /** Step i of the run is a message that is accepted. */
  predicate AcceptedAt(s: State, steps: seq<Step>, i: nat) {
    i < |steps| && steps[i].Accept? && Accepts(Run(s, steps[..i]), steps[i].transport, steps[i].payload)
  }

  /** Step i of the run is a disconnect that notifies. */
  predicate NotifiesAt(s: State, steps: seq<Step>, i: nat) {
    i < |steps| && steps[i].Disconnect? && Disconnects(Run(s, steps[..i]), steps[i].transport)
  }

  function Registrations(steps: seq<Step>): nat {
    if steps == [] then 0
    else Registrations(steps[..|steps| - 1]) + (if steps[|steps| - 1].Register? then 1 else 0)
  }

  /** The active transport is the last one registered: ids count registrations. */
  lemma {:induction false} ActiveIsLastRegistered(steps: seq<Step>)
    ensures Run(INITIAL, steps).activeTransport == Run(INITIAL, steps).nextTransport == Registrations(steps)
  {
    if steps != [] {
      ActiveIsLastRegistered(steps[..|steps| - 1]);
    }
  }

  /** Under every interleaving, messages are accepted from the last registered transport only. */
  lemma AcceptedOnlyFromLastRegistered(steps: seq<Step>, i: nat)
    requires AcceptedAt(INITIAL, steps, i)
    ensures steps[i].transport == Registrations(steps[..i])
  {
    ActiveIsLastRegistered(steps[..i]);
  }

  /** Before any registration, number 0 counts as the active transport. */
  lemma NumberZeroNeedsNoRegistration(p: Payload)
    ensures AcceptedAt(INITIAL, [Accept(0, p)], 0)
  {
  }

  /** A transport is through when its connection is gone and ids have not gone back to it. */
  predicate Gone(s: State, transport: nat) {
    s.nextTransport >= s.activeTransport && (transport < s.activeTransport || (transport == s.activeTransport && s.outbound.None?))
  }

  lemma StaysGone(s: State, step: Step, transport: nat)
    requires Gone(s, transport)
    ensures Gone(Next(s, step), transport)
  {
  }

  lemma {:induction false} GoneForGood(s: State, steps: seq<Step>, i: nat, j: nat, transport: nat)
    requires i <= j <= |steps| && Gone(Run(s, steps[..i]), transport)
    ensures Gone(Run(s, steps[..j]), transport)
    decreases j
  {
    if i < j {
      GoneForGood(s, steps, i, j - 1, transport);
      RunOneMore(s, steps, j - 1);
      StaysGone(Run(s, steps[..j - 1]), steps[j - 1], transport);
    }
  }

  /** No transport causes two disconnect notifications. */
  lemma NotifiedAtMostOnce(steps: seq<Step>, i: nat, j: nat)
    requires i < j && NotifiesAt(INITIAL, steps, i) && NotifiesAt(INITIAL, steps, j)
    ensures steps[i].transport != steps[j].transport
  {
    ActiveIsLastRegistered(steps[..i]);
    RunOneMore(INITIAL, steps, i);
    GoneForGood(INITIAL, steps, i + 1, j, steps[i].transport);
  }

  /** Holding a connection means showing a connected worker. */
  predicate ShowsConnection(s: State) {
    s.outbound.Some? ==> s.snapshot.workerConnected
  }

  lemma {:induction false} ConnectionIsShown(steps: seq<Step>)
    ensures ShowsConnection(Run(INITIAL, steps))
  {
    if steps != [] {
      ConnectionIsShown(steps[..|steps| - 1]);
    }
  }

  /** The other way round it goes wrong exactly where a status is applied while there is no connection. */
  lemma ShownWithoutConnectionIff(s: State, step: Step)
    requires s.snapshot.workerConnected <==> s.outbound.Some?
    ensures var t := Next(s, step);
      !(t.snapshot.workerConnected <==> t.outbound.Some?) <==> step.ApplyStatus? && s.outbound.None?
  {
  }

  lemma RunOfFive(steps: seq<Step>)
    requires |steps| == 5
    ensures Run(INITIAL, steps) == Next(Next(Next(Next(Next(INITIAL, steps[0]), steps[1]), steps[2]), steps[3]), steps[4])
    ensures Run(INITIAL, steps[..1]) == Next(INITIAL, steps[0])
    ensures Run(INITIAL, steps[..3]) == Next(Next(Next(INITIAL, steps[0]), steps[1]), steps[2])
  {
    assert steps[..5] == steps;
    RunOfThree(steps);
    RunOneMore(INITIAL, steps, 3);
    RunOneMore(INITIAL, steps, 4);
  }

  /** A status that is accepted from one connection, and applied when the next one has come and gone. */
  lemma GhostWorker(p: Payload, channel: Channel, other: Channel)
    ensures var steps := [Register(channel), Accept(1, p), Register(other), Disconnect(2), ApplyStatus(1, p)];
      && AcceptedAt(INITIAL, steps, 1) && NotifiesAt(INITIAL, steps, 3)
      && Run(INITIAL, steps).snapshot.workerConnected && Run(INITIAL, steps).outbound.None?
  {
    RunOfFive([Register(channel), Accept(1, p), Register(other), Disconnect(2), ApplyStatus(1, p)]);
  }

  lemma {:induction false} RegistrationsGrow(steps: seq<Step>, i: nat, j: nat)
    requires i <= j <= |steps|
    ensures Registrations(steps[..i]) <= Registrations(steps[..j])
    ensures Registrations(steps[..i]) == Registrations(steps[..j]) <==> forall k :: i <= k < j ==> !steps[k].Register?
    decreases j
  {
    if i < j {
      RegistrationsGrow(steps, i, j - 1);
      assert steps[..j][..j - 1] == steps[..j - 1];
    }
  }

  /**
   * A status that was accepted at step i and is applied at step j goes to the snapshot of its own connection
   * exactly if no other connection was registered in between.
   */
  lemma AppliedToOwnConnectionIff(steps: seq<Step>, i: nat, j: nat)
    requires i < j < |steps| && AcceptedAt(INITIAL, steps, i)
    requires steps[j] == ApplyStatus(steps[i].transport, steps[i].payload)
    ensures steps[j].transport == Run(INITIAL, steps[..j]).activeTransport <==> forall k :: i < k < j ==> !steps[k].Register?
    ensures var shown := Run(INITIAL, steps[..j + 1]).snapshot;
      shown.session == Session(steps[i].payload) && shown.generation == Generation(steps[i].payload) && shown.workerConnected
  {
    ActiveIsLastRegistered(steps[..i]);
    ActiveIsLastRegistered(steps[..j]);
    RegistrationsGrow(steps, i, j);
    RunOneMore(INITIAL, steps, j);
  }

  // ---- phases ----

  /** A live phase belongs to a connected worker without a reason to call it degraded, a degraded one to a connected worker. */
  predicate PhaseFits(s: State) {
    && (s.phase == WorkerLive ==> s.snapshot.workerConnected && s.snapshot.degradedReason.None?)
    && (s.phase == DegradedHint ==> s.snapshot.workerConnected)
  }

  lemma {:induction false} PhaseFitsSnapshot(steps: seq<Step>)
    ensures PhaseFits(Run(INITIAL, steps))
  {
    if steps != [] {
      PhaseFitsSnapshot(steps[..|steps| - 1]);
    }
  }

  /** A degraded phase comes with its reason. */
  predicate Explained(s: State) {
    s.phase == DegradedHint ==> s.snapshot.degradedReason.Some?
  }

  /** It loses the reason exactly where a new connection is registered in that phase, which resets the snapshot alone. */
  lemma ReasonIsLostIff(s: State, step: Step)
    requires Explained(s)
    ensures !Explained(Next(s, step)) <==> step.Register? && s.phase == DegradedHint
  {
  }

  /** The messages refused since the last registration. */
  function RefusedSinceRegistration(s: State, steps: seq<Step>): nat {
    if steps == [] then 0
    else
      var before := steps[..|steps| - 1];
      var last := steps[|steps| - 1];
      var refused := last.Accept? && !Accepts(Run(s, before), last.transport, last.payload);
      if last.Register? then 0
      else RefusedSinceRegistration(s, before) + (if refused then 1 else 0)
  }

  /** The counter of ignored events counts exactly these. */
  lemma {:induction false} CounterCountsRefused(steps: seq<Step>)
    ensures Run(INITIAL, steps).snapshot.staleIgnored == RefusedSinceRegistration(INITIAL, steps)
  {
    if steps != [] {
      CounterCountsRefused(steps[..|steps| - 1]);
    }
  }

  // ---- between two registrations ----

  /** Messages that name a session also number their generation, from 1 up. */
  predicate Numbered(steps: seq<Step>) {
    forall i :: 0 <= i < |steps| && steps[i].Accept? && Session(steps[i].payload).Some? ==> Generation(steps[i].payload) > 0
  }

  predicate NoRegistration(steps: seq<Step>) {
    forall i :: 0 <= i < |steps| ==> !steps[i].Register?
  }

  /** The generation in force goes down exactly at an accepted change of session without a generation number. */
  lemma GenerationDropsIff(s: State, step: Step)
    requires !step.Register?
    ensures Next(s, step).generation < s.generation <==>
      && step.Accept? && step.transport == s.activeTransport
      && SwitchesSession(s, step.payload) && Generation(step.payload) == 0 && s.generation > 0
  {
  }

  /** And then earlier generations are accepted again. */
  lemma UnnumberedSwitchGoesBack(channel: Channel, a: Payload, b: Payload, c: Payload)
    requires Session(a).Some? && Session(b).Some? && Session(a) != Session(b) && Session(c) == Session(a)
    requires Generation(b) == 0 && 0 < Generation(c) < Generation(a)
    ensures var steps := [Register(channel), Accept(1, a), Accept(1, b), Accept(1, c)];
      AcceptedAt(INITIAL, steps, 1) && AcceptedAt(INITIAL, steps, 3)
  {
    RunOfThree([Register(channel), Accept(1, a), Accept(1, b), Accept(1, c)]);
  }

  lemma RunOfThree(steps: seq<Step>)
    requires |steps| >= 3
    ensures Run(INITIAL, steps[..1]) == Next(INITIAL, steps[0])
    ensures Run(INITIAL, steps[..3]) == Next(Next(Next(INITIAL, steps[0]), steps[1]), steps[2])
  {
    assert steps[..0] == [];
    RunOneMore(INITIAL, steps, 0);
    RunOneMore(INITIAL, steps, 1);
    RunOneMore(INITIAL, steps, 2);
  }

  /** A refused message changes nothing but the counter, except that it may give a session to a connection that has none. */
  lemma RefusalKeepsSessionIff(s: State, transport: nat, p: Payload)
    requires !Accepts(s, transport, p)
    ensures Next(s, Accept(transport, p)) == Refused(s)
       <==> !(transport == s.activeTransport && s.session.None? && Session(p).Some?)
    ensures Next(s, Accept(transport, p)).generation == s.generation
  {
  }

  /** What a run without registrations keeps once it holds: at least a generation, and at that generation one session. */
  predicate Past(s: State, generation: nat, session: Option<string>) {
    s.generation > generation || (s.generation == generation && (session.Some? ==> s.session == session))
  }

  lemma StaysPast(s: State, step: Step, generation: nat, session: Option<string>)
    requires Past(s, generation, session) && !step.Register?
    requires step.Accept? && Session(step.payload).Some? ==> Generation(step.payload) > 0
    ensures Past(Next(s, step), generation, session)
  {
  }

  lemma {:induction false} PastForGood(s: State, steps: seq<Step>, i: nat, j: nat, generation: nat, session: Option<string>)
    requires i <= j <= |steps| && NoRegistration(steps) && Numbered(steps)
    requires Past(Run(s, steps[..i]), generation, session)
    ensures Past(Run(s, steps[..j]), generation, session)
    decreases j
  {
    if i < j {
      PastForGood(s, steps, i, j - 1, generation, session);
      RunOneMore(s, steps, j - 1);
      StaysPast(Run(s, steps[..j - 1]), steps[j - 1], generation, session);
    }
  }

  /** Accepted generations never go down. */
  lemma AcceptedGenerationsGrow(s: State, steps: seq<Step>, i: nat, j: nat)
    requires NoRegistration(steps) && Numbered(steps) && i < j
    requires AcceptedAt(s, steps, i) && AcceptedAt(s, steps, j) && Generation(steps[j].payload) > 0
    ensures Generation(steps[i].payload) <= Generation(steps[j].payload)
  {
    RunOneMore(s, steps, i);
    PastForGood(s, steps, i + 1, j, Generation(steps[i].payload), None);
  }

  /** One session per generation. */
  lemma OneSessionPerGeneration(s: State, steps: seq<Step>, i: nat, j: nat)
    requires NoRegistration(steps) && Numbered(steps) && i < j
    requires AcceptedAt(s, steps, i) && AcceptedAt(s, steps, j)
    requires Generation(steps[i].payload) == Generation(steps[j].payload)
    requires Session(steps[i].payload).Some? && Session(steps[j].payload).Some?
    ensures Session(steps[i].payload) == Session(steps[j].payload)
  {
    RunOneMore(s, steps, i);
    PastForGood(s, steps, i + 1, j, Generation(steps[i].payload), Session(steps[i].payload));
  }

  /** A session that was replaced is only active again at a later generation. */
  predicate Replaced(s: State, generation: nat, session: Option<string>) {
    && s.session.Some? && s.generation >= generation
    && (s.session == session ==> s.generation > generation)
  }

  lemma StaysReplaced(s: State, step: Step, generation: nat, session: Option<string>)
    requires Replaced(s, generation, session) && !step.Register?
    requires step.Accept? && Session(step.payload).Some? ==> Generation(step.payload) > 0
    ensures Replaced(Next(s, step), generation, session)
  {
  }

  lemma {:induction false} ReplacedForGood(s: State, steps: seq<Step>, i: nat, j: nat, generation: nat, session: Option<string>)
    requires i <= j <= |steps| && NoRegistration(steps) && Numbered(steps)
    requires Replaced(Run(s, steps[..i]), generation, session)
    ensures Replaced(Run(s, steps[..j]), generation, session)
    decreases j
  {
    if i < j {
      ReplacedForGood(s, steps, i, j - 1, generation, session);
      RunOneMore(s, steps, j - 1);
      StaysReplaced(Run(s, steps[..j - 1]), steps[j - 1], generation, session);
    }
  }

  /** Step i replaces the active session by another one. */
  predicate ReplacesAt(s: State, steps: seq<Step>, i: nat) {
    AcceptedAt(s, steps, i) && SwitchesSession(Run(s, steps[..i]), steps[i].payload)
  }

  /** A session that was replaced at a generation is never accepted again at that generation or an earlier one. */
  lemma ReplacedSessionStaysOut(s: State, steps: seq<Step>, i: nat, j: nat)
    requires NoRegistration(steps) && Numbered(steps) && i < j
    requires ReplacesAt(s, steps, i) && AcceptedAt(s, steps, j)
    requires Session(steps[j].payload) == Run(s, steps[..i]).session
    ensures Generation(steps[j].payload) > Generation(steps[i].payload)
  {
    RunOneMore(s, steps, i);
    ReplacedForGood(s, steps, i + 1, j, Generation(steps[i].payload), Run(s, steps[..i]).session);
  }
}
