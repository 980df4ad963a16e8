/** What the fields of a worker's messages do: each is read under its own name, and what is missing reads as nothing. */
module BrowserMessages {
  import opened Results
  import opened Text
  import opened BrowserProtocol
  import opened BrowserServices

  /** A field of a message that is an object. */
  predicate Has(p: Payload, key: string, value: Json) {
    p.Object? && key in p.fields && p.fields[key] == value
  }

  predicate Lacks(p: Payload, key: string) {
    p.NotAnObject? || key !in p.fields
  }

  /** Text that stays as it is when white space around it is taken away. */
  predicate Plain(text: string) {
    text != "" && Trimmed(text, RustSpace)
  }

  lemma SessionAndGenerationAreRead(p: Payload, session: string, generation: nat)
    ensures Has(p, "session_id", Str(session)) && Plain(session) ==> Session(p) == Some(session)
    ensures Lacks(p, "session_id") ==> Session(p).None?
    ensures Has(p, "generation_id", Integer(generation)) && generation < U64_LIMIT ==> Generation(p) == generation
    ensures Lacks(p, "generation_id") ==> Generation(p) == 0
  {
  }

  /** No other field has a say in what is accepted. */
  lemma OnlySessionAndGenerationCount(s: State, transport: nat, p: Payload, q: Payload)
    requires p.Get("session_id") == q.Get("session_id") && p.Get("generation_id") == q.Get("generation_id")
    ensures Accepts(s, transport, p) == Accepts(s, transport, q)
    ensures Next(s, Accept(transport, p)) == Next(s, Accept(transport, q))
  {
  }

  /** The flags of a status, as the snapshot shows them. */
  lemma FlagsAreShown(s: State, transport: nat, p: Payload)
    ensures var shown := Next(s, ApplyStatus(transport, p)).snapshot;
      && (shown.desiredRunning <==> Has(p, "desired_running", Flag(true)))
      && (shown.activeRecognition <==> Has(p, "active_recognition", Flag(true)))
      && (shown.activeMediaStream <==> Has(p, "active_media_stream", Flag(true)))
  {
  }

  /** Its states: text replaces what was shown, and anything else leaves it. The newer name of the supervisor's state wins. */
  lemma StatesAreShown(s: State, transport: nat, p: Payload, text: string, other: Json)
    ensures var shown := Next(s, ApplyStatus(transport, p)).snapshot;
      && (Has(p, "recognition_state", Str(text)) ==> shown.recognitionState == text)
      && (Lacks(p, "recognition_state") ==> shown.recognitionState == s.snapshot.recognitionState)
      && (Has(p, "browser_supervisor_state", Str(text)) ==> shown.supervisorState == text)
      && (Has(p, "browser_supervisor_state", other) && !other.Str? ==> shown.supervisorState == s.snapshot.supervisorState)
      && (Lacks(p, "browser_supervisor_state") && Has(p, "supervisor_state", Str(text)) ==> shown.supervisorState == text)
  {
  }

  /** A reason to degrade is shown, and gives the phase. */
  lemma DegradationIsShown(s: State, transport: nat, p: Payload, reason: string)
    ensures var next := Next(s, ApplyStatus(transport, p));
      && (Has(p, "degraded_reason", Str(reason)) && Plain(reason) ==>
            next.phase == DegradedHint && next.snapshot.degradedReason == Some(reason))
      && (Lacks(p, "degraded_reason") ==> next.phase == WorkerLive && next.snapshot.degradedReason.None?)
  {
  }

  /** A new connection is shown as connected and idle, whatever was shown before. */
  lemma RegistrationIsIdle(s: State, channel: Channel)
    ensures var shown := Next(s, Register(channel)).snapshot;
      && shown.workerConnected && shown.recognitionState == "idle" && shown.supervisorState == "idle"
      && !shown.desiredRunning && !shown.activeRecognition && !shown.activeMediaStream
      && shown.degradedReason.None? && shown.session.None? && shown.generation == 0
  {
  }

  /** A disconnect of the connected transport stops everything that was shown as running. */
  lemma DisconnectIsShown(s: State)
    requires s.outbound.Some?
    ensures var next := Next(s, Disconnect(s.activeTransport));
      && next.outbound.None? && next.phase == Idle && !next.snapshot.workerConnected
      && next.snapshot.recognitionState == "disconnected" && next.snapshot.supervisorState == "idle"
      && !next.snapshot.desiredRunning && !next.snapshot.activeRecognition && !next.snapshot.activeMediaStream
      && next.session == s.session && next.generation == s.generation
  {
  }

  /** What is handed on of a piece of speech. */
  lemma UpdateIsRead(transport: nat, p: Payload, text: string, number: nat)
    ensures var update := UpdateFrom(transport, p);
      && update.transport == transport
      && (Has(p, "partial", Str(text)) ==> update.partial == text) && (Lacks(p, "partial") ==> update.partial == "")
      && (Has(p, "final", Str(text)) ==> update.finalText == text) && (Lacks(p, "final") ==> update.finalText == "")
      && (update.isFinal <==> Has(p, "is_final", Flag(true))) && (update.forcedFinal <==> Has(p, "forced_final", Flag(true)))
      && (Has(p, "worker_message_sequence", Integer(number)) && number < U64_LIMIT ==> update.sequence == Some(number))
      && (Has(p, "worker_message_sequence", Integer(number)) && number >= U64_LIMIT ==> update.sequence.None?)
      && (Lacks(p, "worker_message_sequence") ==> update.sequence.None?)
  {
  }

  /** A forwarded status tells its transport, and is otherwise as it came. */
  lemma StampIsAdded(transport: nat, p: Payload, key: string)
    ensures p.Object? ==> Has(Stamped(transport, p), "basr_transport_id", Integer(transport))
    ensures key != "basr_transport_id" ==> Stamped(transport, p).Get(key) == p.Get(key)
  {
  }

  /** Speech and connections show in the phase, whatever it was. */
  lemma PhaseIsShown(s: State)
    ensures Next(s, NoteConnected).phase == WorkerSocketIdle
    ensures Next(s, NoteIngest(true)).phase == IngestFinal && Next(s, NoteIngest(false)).phase == IngestPartial
  {
  }
}
