/** Which fields of an event count for the guard, told from the fields themselves. */
module EventFields {
  import opened Results
  import opened Text
  import opened StaleGuards

  /** The event is numbered x: event_sequence counts unless it is missing, and then sequence does. */
  predicate Numbered(p: Payload, x: real) {
    p.Object? && ((!p.eventSequence.nullish && p.eventSequence.number == Finite(x))
               || (p.eventSequence.nullish && p.sequence.number == Finite(x)))
  }

  /** The field that counts does not read as a finite number. */
  predicate Unnumbered(p: Payload) {
    p.Object? && ((!p.eventSequence.nullish && !p.eventSequence.number.Finite?)
               || (p.eventSequence.nullish && !p.sequence.number.Finite?))
  }

  /** Neither zero nor NaN. */
  predicate Counts(created: Num) {
    created != NaN && created != Finite(0.0)
  }

  /** The event is of time x: created_at_ms counts unless it is zero or no number, then updated_at unless it is empty, then timestamp. */
  predicate Timed(p: Payload, x: real) {
    && p.Object?
    && if Counts(p.createdAtMs.number) then p.createdAtMs.number == Finite(x)
       else if p.updatedAt.truthy then p.updatedAt.date == Finite(x)
       else p.timestamp.truthy && p.timestamp.date == Finite(x)
  }

  predicate Untimed(p: Payload) {
    && p.Object?
    && if Counts(p.createdAtMs.number) then p.createdAtMs.number == Infinite
       else if p.updatedAt.truthy then !p.updatedAt.date.Finite?
       else p.timestamp.truthy ==> !p.timestamp.date.Finite?
  }

  /** Every event that is an object has a number or none, and a time or none. */
  lemma FieldsAreRead(p: Payload) returns (number: real, time: real)
    requires p.Object?
    ensures Numbered(p, number) != Unnumbered(p) && Timed(p, time) != Untimed(p)
  {
    number := if p.eventSequence.nullish then (if p.sequence.number.Finite? then p.sequence.number.value else 0.0)
              else if p.eventSequence.number.Finite? then p.eventSequence.number.value else 0.0;
    time := if Counts(p.createdAtMs.number) then (if p.createdAtMs.number.Finite? then p.createdAtMs.number.value else 0.0)
            else if p.updatedAt.truthy then (if p.updatedAt.date.Finite? then p.updatedAt.date.value else 0.0)
            else if p.timestamp.date.Finite? then p.timestamp.date.value else 0.0;
  }

  /** Of two events without times, the one with the lower number is refused after the other, and not before it. */
  lemma NumbersDecide(last: Mark, p: Payload, q: Payload, x: real, y: real)
    requires Untimed(p) && Untimed(q) && Numbered(p, x) && Numbered(q, y) && x < y
    ensures !Refuses(last, q) ==> Refuses(Judged(last, q), p)
    ensures !Refuses(last, p) && !q.stale ==> !Refuses(Judged(last, p), q)
  {
  }

  /** Events of the same number pass one after the other. */
  lemma SameNumberPasses(last: Mark, p: Payload, q: Payload, x: real)
    requires Untimed(p) && Untimed(q) && Numbered(p, x) && Numbered(q, x) && !Refuses(last, p) && !q.stale
    ensures !Refuses(Judged(last, p), q)
  {
  }

  /** Of two events with times, the earlier one is refused after the later one, and not before it, whatever their numbers. */
  lemma TimesDecide(last: Mark, p: Payload, q: Payload, x: real, y: real)
    requires Timed(p, x) && Timed(q, y) && x < y
    ensures !Refuses(last, q) ==> Refuses(Judged(last, q), p)
    ensures !Refuses(last, p) && !q.stale ==> !Refuses(Judged(last, p), q)
  {
  }

  /** At the same time the numbers decide. */
  lemma NumbersDecideAtOnce(last: Mark, p: Payload, q: Payload, time: real, x: real, y: real)
    requires Timed(p, time) && Timed(q, time) && Numbered(p, x) && Numbered(q, y) && x < y
    ensures !Refuses(last, q) ==> Refuses(Judged(last, q), p)
    ensures !Refuses(last, p) && !q.stale ==> !Refuses(Judged(last, p), q)
  {
  }

  /** An event with neither passes always, and leaves no trace. */
  lemma NothingToGoBy(last: Mark, p: Payload)
    requires Untimed(p) && Unnumbered(p) && !p.stale
    ensures !Refuses(last, p) && Judged(last, p) == last
  {
  }

  /** What an event leaves to be remembered: its number and its time, where it has them. */
  lemma WhatIsRemembered(last: Mark, p: Payload, x: real, time: real)
    requires !Refuses(last, p)
    ensures Numbered(p, x) ==> Judged(last, p).sequence == Some(x)
    ensures Unnumbered(p) ==> Judged(last, p).sequence == last.sequence
    ensures Timed(p, time) ==> Judged(last, p).time == Some(time)
    ensures Untimed(p) ==> Judged(last, p).time == last.time
  {
  }

  /** Fields that do not count may hold anything. */
  lemma OtherFieldsDoNotCount(last: Mark, p: Payload, f: Field)
    requires p.Object?
    ensures !p.eventSequence.nullish ==>
      Refuses(last, p.(sequence := f)) == Refuses(last, p) && Judged(last, p.(sequence := f)) == Judged(last, p)
    ensures Counts(p.createdAtMs.number) ==>
      Refuses(last, p.(updatedAt := f)) == Refuses(last, p) && Judged(last, p.(updatedAt := f)) == Judged(last, p)
    ensures Counts(p.createdAtMs.number) || p.updatedAt.truthy ==>
      Refuses(last, p.(timestamp := f)) == Refuses(last, p) && Judged(last, p.(timestamp := f)) == Judged(last, p)
  {
  }

  /** Events that call themselves stale are refused, and what is no object always passes. */
  lemma StaleAndOther(last: Mark, p: Payload)
    ensures p.Object? && p.stale ==> Refuses(last, p)
    ensures p.NotAnObject? ==> !Refuses(last, p) && Judged(last, p) == last
  {
  }

  // ---- event types ----

  /** The same letters, capital or not, with any white space around them. */
  predicate Names(type_: string, name: string) {
    Lower(Trim(type_, JsSpace)) == name
  }

  /** Old names of event types mean the current ones, and every other type is itself. */
  lemma OldNamesMeanNewOnes(type_: string, name: string)
    requires Names(type_, name)
    ensures name == "runtime_update" ==> NormalizeWsEventType(Some(type_)) == "runtime_status"
    ensures name == "subtitle_payload_update" ==> NormalizeWsEventType(Some(type_)) == "overlay_update"
    ensures name != "runtime_update" && name != "subtitle_payload_update" ==> NormalizeWsEventType(Some(type_)) == name
    ensures NormalizeWsEventType(None) == ""
  {
  }
}
