/**
 * Which messages of a worker are accepted, told from the messages themselves and the verdicts on earlier ones:
 * neither the session nor the generation that the service keeps is looked at.
 */
module BrowserHistory {
  import opened Results
  import opened BrowserProtocol

  /** Step k is a message of the connection that is the last one registered before step i. */
  predicate Of(steps: seq<Step>, k: nat, i: nat) {
    && k < i <= |steps| && steps[k].Accept? && steps[k].transport == Registrations(steps[..i])
    && forall j :: k <= j < i ==> !steps[j].Register?
  }

  /** Such a message names the session: it was accepted, or it was the first one with a session at all. */
  predicate Gives(steps: seq<Step>, k: nat, i: nat) {
    && Of(steps, k, i) && Session(steps[k].payload).Some?
    && (AcceptedAt(INITIAL, steps, k) || forall j: nat :: j < k && Of(steps, j, i) ==> Session(steps[j].payload).None?)
  }

  predicate GivesLast(steps: seq<Step>, k: nat, i: nat) {
    Gives(steps, k, i) && forall j: nat :: k < j < i ==> !Gives(steps, j, i)
  }

  /** The message has another session than the one that was named last. */
  ghost predicate Conflicts(steps: seq<Step>, i: nat, p: Payload) {
    Session(p).Some? && exists m: nat :: GivesLast(steps, m, i) && Session(steps[m].payload) != Session(p)
  }

  /** A change of session without a generation: earlier generations are forgotten. */
  ghost predicate Forgets(steps: seq<Step>, j: nat) {
    AcceptedAt(INITIAL, steps, j) && Generation(steps[j].payload) == 0 && Conflicts(steps, j, steps[j].payload)
  }

  /** An accepted message of the connection that has not been forgotten. */
  ghost predicate Counts(steps: seq<Step>, k: nat, i: nat) {
    Of(steps, k, i) && AcceptedAt(INITIAL, steps, k) && forall j: nat :: k < j < i ==> !Forgets(steps, j)
  }

  // ---- what the state says of them ----

  ghost predicate SessionTold(steps: seq<Step>, i: nat)
    requires i <= |steps|
  {
    var s := Run(INITIAL, steps[..i]).session;
    && (s.None? <==> forall j: nat :: Of(steps, j, i) ==> Session(steps[j].payload).None?)
    && (s.Some? ==> exists m: nat :: GivesLast(steps, m, i) && Session(steps[m].payload) == s)
  }

  ghost predicate GenerationTold(steps: seq<Step>, i: nat)
    requires i <= |steps|
  {
    var g := Run(INITIAL, steps[..i]).generation;
    && (forall k: nat :: Counts(steps, k, i) ==> Generation(steps[k].payload) <= g)
    && (g > 0 ==> exists k: nat :: Counts(steps, k, i) && Generation(steps[k].payload) == g)
  }

  lemma ConflictIsSwitch(steps: seq<Step>, i: nat, p: Payload)
    requires i <= |steps| && SessionTold(steps, i)
    ensures Conflicts(steps, i, p) <==> SwitchesSession(Run(INITIAL, steps[..i]), p)
  {
    var s := Run(INITIAL, steps[..i]).session;
    if s.Some? {
      var m: nat :| GivesLast(steps, m, i) && Session(steps[m].payload) == s;
      forall n: nat | GivesLast(steps, n, i)
        ensures n == m
      {
      }
    }
  }

  lemma OneMoreStep(steps: seq<Step>, i: nat)
    requires i < |steps|
    ensures Run(INITIAL, steps[..i + 1]) == Next(Run(INITIAL, steps[..i]), steps[i])
    ensures Registrations(steps[..i + 1]) == Registrations(steps[..i]) + (if steps[i].Register? then 1 else 0)
    ensures Run(INITIAL, steps[..i]).activeTransport == Registrations(steps[..i])
  {
    RunOneMore(INITIAL, steps, i);
    assert steps[..i + 1][..i] == steps[..i];
    ActiveIsLastRegistered(steps[..i]);
  }

  lemma OfMore(steps: seq<Step>, k: nat, i: nat)
    requires i < |steps|
    ensures steps[i].Register? ==> !Of(steps, k, i + 1)
    ensures !steps[i].Register? && k < i ==> (Of(steps, k, i + 1) <==> Of(steps, k, i))
    ensures k == i ==> (Of(steps, k, i + 1) <==> steps[i].Accept? && steps[i].transport == Registrations(steps[..i]))
  {
    OneMoreStep(steps, i);
  }

  lemma GivesMore(steps: seq<Step>, k: nat, i: nat)
    requires i < |steps| && !steps[i].Register? && k < i
    ensures Gives(steps, k, i + 1) <==> Gives(steps, k, i)
  {
    forall j: nat
      ensures j < i ==> (Of(steps, j, i + 1) <==> Of(steps, j, i))
    {
      OfMore(steps, j, i);
    }
  }

  /** A step that names no session leaves the one that was named last. */
  lemma GivesLastStays(steps: seq<Step>, m: nat, i: nat)
    requires i < |steps| && !steps[i].Register? && GivesLast(steps, m, i) && !Gives(steps, i, i + 1)
    ensures GivesLast(steps, m, i + 1)
  {
    var next := i + 1;
    GivesMore(steps, m, i);
    forall j: nat | m < j < next
      ensures !Gives(steps, j, next)
    {
      if j < i {
        GivesMore(steps, j, i);
      }
    }
  }

  /** A step of the active connection. */
  predicate Arrives(steps: seq<Step>, i: nat)
    requires i < |steps|
  {
    steps[i].Accept? && steps[i].transport == Registrations(steps[..i])
  }

  /** No message of the connection before step i has a session. */
  ghost predicate Unnamed(steps: seq<Step>, i: nat) {
    forall j: nat :: Of(steps, j, i) ==> Session(steps[j].payload).None?
  }

  lemma UnnamedMore(steps: seq<Step>, i: nat)
    requires i < |steps| && !steps[i].Register?
    ensures Unnamed(steps, i + 1) <==> Unnamed(steps, i) && (Arrives(steps, i) ==> Session(steps[i].payload).None?)
  {
    forall j: nat
      ensures j < i ==> (Of(steps, j, i + 1) <==> Of(steps, j, i))
      ensures j == i ==> (Of(steps, j, i + 1) <==> Arrives(steps, i))
    {
      OfMore(steps, j, i);
    }
    if Unnamed(steps, i + 1) {
      forall j: nat | Of(steps, j, i)
        ensures Session(steps[j].payload).None?
      {
        assert Of(steps, j, i + 1);
      }
      if Arrives(steps, i) {
        assert Of(steps, i, i + 1);
      }
    }
  }

  lemma GivesNow(steps: seq<Step>, i: nat)
    requires i < |steps| && !steps[i].Register?
    ensures Gives(steps, i, i + 1) <==>
      Arrives(steps, i) && Session(steps[i].payload).Some? && (AcceptedAt(INITIAL, steps, i) || Unnamed(steps, i))
  {
    forall j: nat
      ensures j < i ==> (Of(steps, j, i + 1) <==> Of(steps, j, i))
    {
      OfMore(steps, j, i);
    }
    OfMore(steps, i, i);
  }

  lemma SessionAfterRegistration(steps: seq<Step>, i: nat)
    requires i < |steps| && steps[i].Register?
    ensures SessionTold(steps, i + 1)
  {
    OneMoreStep(steps, i);
    var next := i + 1;
    forall j: nat
      ensures !Of(steps, j, next)
    {
      OfMore(steps, j, i);
    }
  }

  /** What one step does to the session: it stays, or it becomes that of the message. */
  lemma SessionOfNext(steps: seq<Step>, i: nat)
    requires i < |steps| && !steps[i].Register? && SessionTold(steps, i)
    ensures var s, t := Run(INITIAL, steps[..i]).session, Run(INITIAL, steps[..i + 1]).session;
      if Gives(steps, i, i + 1) then t == Session(steps[i].payload)
      else t == s && (Arrives(steps, i) && s.None? ==> Session(steps[i].payload).None?)
  {
    OneMoreStep(steps, i);
    SessionOfStep(Run(INITIAL, steps[..i]), steps[i]);
    GivesNow(steps, i);
  }

  lemma SessionOfStep(s: State, step: Step)
    requires !step.Register?
    ensures var t := Next(s, step).session;
      if !step.Accept? || step.transport != s.activeTransport || Session(step.payload).None? then t == s.session
      else if s.session.None? || Accepts(s, step.transport, step.payload) then t == Session(step.payload)
      else t == s.session
  {
  }

  lemma SessionGoesOn(steps: seq<Step>, i: nat)
    requires i < |steps| && SessionTold(steps, i)
    ensures SessionTold(steps, i + 1)
  {
    if steps[i].Register? {
      SessionAfterRegistration(steps, i);
    } else {
      var s := Run(INITIAL, steps[..i]).session;
      SessionOfNext(steps, i);
      UnnamedMore(steps, i);
      if Gives(steps, i, i + 1) {
        assert GivesLast(steps, i, i + 1);
      } else if s.Some? {
        var m: nat :| GivesLast(steps, m, i) && Session(steps[m].payload) == s;
        GivesLastStays(steps, m, i);
      }
    }
  }

  // ---- generations ----

  lemma CountsMore(steps: seq<Step>, k: nat, i: nat)
    requires i < |steps| && !steps[i].Register?
    ensures k < i ==> (Counts(steps, k, i + 1) <==> Counts(steps, k, i) && !Forgets(steps, i))
    ensures k == i ==> (Counts(steps, k, i + 1) <==> Arrives(steps, i) && AcceptedAt(INITIAL, steps, i))
    ensures k > i ==> !Counts(steps, k, i + 1)
  {
    OfMore(steps, k, i);
  }

  lemma GenerationAfterRegistration(steps: seq<Step>, i: nat)
    requires i < |steps| && steps[i].Register?
    ensures GenerationTold(steps, i + 1)
  {
    OneMoreStep(steps, i);
    var next := i + 1;
    forall j: nat
      ensures !Of(steps, j, next)
    {
      OfMore(steps, j, i);
    }
  }

  /** What one step does to the generation: it stays, becomes that of an accepted message, or is forgotten. */
  lemma GenerationOfNext(steps: seq<Step>, i: nat)
    requires i < |steps| && !steps[i].Register? && SessionTold(steps, i)
    ensures var g, h := Run(INITIAL, steps[..i]).generation, Run(INITIAL, steps[..i + 1]).generation;
      && (AcceptedAt(INITIAL, steps, i) ==> Arrives(steps, i))
      && (if Forgets(steps, i) then h == 0
          else if AcceptedAt(INITIAL, steps, i) && Generation(steps[i].payload) > 0 then
            h == Generation(steps[i].payload) && g <= h
          else h == g)
  {
    OneMoreStep(steps, i);
    if steps[i].Accept? {
      ConflictIsSwitch(steps, i, steps[i].payload);
    }
  }

  lemma GenerationGoesOn(steps: seq<Step>, i: nat)
    requires i < |steps| && SessionTold(steps, i) && GenerationTold(steps, i)
    ensures GenerationTold(steps, i + 1)
  {
    if steps[i].Register? {
      GenerationAfterRegistration(steps, i);
    } else {
      var next, h := i + 1, Run(INITIAL, steps[..i + 1]).generation;
      forall k: nat | Counts(steps, k, next)
        ensures Generation(steps[k].payload) <= h
      {
        CountedIsBelow(steps, k, i);
      }
      if h > 0 {
        var k := GenerationCounts(steps, i);
      }
    }
  }

  lemma CountedIsBelow(steps: seq<Step>, k: nat, i: nat)
    requires i < |steps| && !steps[i].Register? && SessionTold(steps, i) && GenerationTold(steps, i)
    requires Counts(steps, k, i + 1)
    ensures Generation(steps[k].payload) <= Run(INITIAL, steps[..i + 1]).generation
  {
    GenerationOfNext(steps, i);
    CountsMore(steps, k, i);
  }

  lemma GenerationCounts(steps: seq<Step>, i: nat) returns (k: nat)
    requires i < |steps| && !steps[i].Register? && SessionTold(steps, i) && GenerationTold(steps, i)
    requires Run(INITIAL, steps[..i + 1]).generation > 0
    ensures Counts(steps, k, i + 1) && Generation(steps[k].payload) == Run(INITIAL, steps[..i + 1]).generation
  {
    GenerationOfNext(steps, i);
    if AcceptedAt(INITIAL, steps, i) && Generation(steps[i].payload) > 0 {
      k := i;
    } else {
      k :| Counts(steps, k, i) && Generation(steps[k].payload) == Run(INITIAL, steps[..i]).generation;
    }
    CountsMore(steps, k, i);
  }

  lemma {:induction false} HistoryTold(steps: seq<Step>, i: nat)
    requires i <= |steps|
    ensures SessionTold(steps, i) && GenerationTold(steps, i)
  {
    if i > 0 {
      HistoryTold(steps, i - 1);
      SessionGoesOn(steps, i - 1);
      GenerationGoesOn(steps, i - 1);
    } else {
      assert steps[..0] == [];
    }
  }

  /** An earlier accepted message that puts this one out of date. */
  ghost predicate Outdates(steps: seq<Step>, k: nat, i: nat, p: Payload) {
    && Counts(steps, k, i)
    && (Generation(steps[k].payload) > Generation(p)
        || (Generation(steps[k].payload) == Generation(p) && Conflicts(steps, i, p)))
  }

  /**
   * A message of the last registered connection is refused exactly if it has a generation, and an accepted message
   * since that registration, not forgotten since, had a later one, or the same one and the session is another by now.
   */
  lemma RefusedIff(steps: seq<Step>, i: nat)
    requires i < |steps| && Arrives(steps, i)
    ensures !AcceptedAt(INITIAL, steps, i) <==>
      Generation(steps[i].payload) > 0 && exists k: nat :: Outdates(steps, k, i, steps[i].payload)
  {
    var s, p := Run(INITIAL, steps[..i]), steps[i].payload;
    HistoryTold(steps, i);
    ConflictIsSwitch(steps, i, p);
    ActiveIsLastRegistered(steps[..i]);
    if !AcceptedAt(INITIAL, steps, i) {
      var k: nat :| Counts(steps, k, i) && Generation(steps[k].payload) == s.generation;
      assert Outdates(steps, k, i, p);
    }
  }

  /** Messages without a generation are always accepted. */
  lemma UnnumberedIsAccepted(steps: seq<Step>, i: nat)
    requires i < |steps| && Arrives(steps, i) && Generation(steps[i].payload) == 0
    ensures AcceptedAt(INITIAL, steps, i)
  {
    RefusedIff(steps, i);
  }

  /** So is a generation that no accepted message of the connection exceeds, as long as the session does not change. */
  lemma NotBelowIsAccepted(steps: seq<Step>, i: nat)
    requires i < |steps| && Arrives(steps, i)
    requires forall k: nat :: Of(steps, k, i) && AcceptedAt(INITIAL, steps, k) ==>
      Generation(steps[k].payload) <= Generation(steps[i].payload)
    requires forall k: nat :: Of(steps, k, i) && Session(steps[k].payload).Some? ==>
      Session(steps[k].payload) == Session(steps[i].payload)
    ensures AcceptedAt(INITIAL, steps, i)
  {
    RefusedIff(steps, i);
  }

  /** And so is a generation later than all of them, in whatever session. */
  lemma LaterIsAccepted(steps: seq<Step>, i: nat)
    requires i < |steps| && Arrives(steps, i)
    requires forall k: nat :: Of(steps, k, i) && AcceptedAt(INITIAL, steps, k) ==>
      Generation(steps[k].payload) < Generation(steps[i].payload)
    ensures AcceptedAt(INITIAL, steps, i)
  {
    RefusedIff(steps, i);
  }
}
