/** The last-writer-wins guard of the event stream: per event type, the last sequence number and time that were accepted. */
module StaleGuards {
  import opened Results
  import opened Text

  // ---- payloads ----

  /** What JavaScript makes of a value that is read as a number. */
  datatype Num = Finite(value: real) | Infinite | NaN {
    predicate Truthy() {
      Infinite? || (Finite? && value != 0.0)
    }

    function Get(): Option<real> {
      if Finite? then Some(value) else None
    }
  }

  /** A field of a payload as the guard sees it: as a condition, as a number, and as a date. */
  datatype Field = Field(nullish: bool, truthy: bool, number: Num, date: Num)

  datatype Payload =
    | NotAnObject
    | Object(stale: bool, eventSequence: Field, sequence: Field, createdAtMs: Field, updatedAt: Field, timestamp: Field)

  function SequenceOf(p: Payload): Option<real>
    requires p.Object?
  {
    (if p.eventSequence.nullish then p.sequence else p.eventSequence).number.Get()
  }

  function TimeOf(p: Payload): Option<real>
    requires p.Object?
  {
    if p.createdAtMs.number.Truthy() then p.createdAtMs.number.Get()
    else if p.updatedAt.truthy then p.updatedAt.date.Get()
    else if p.timestamp.truthy then p.timestamp.date.Get()
    else None
  }

  // ---- the guard for one event type ----

  /** A time and a sequence number, each of which may be missing: what a payload carries, and what the guard remembers. */
  datatype Mark = Mark(time: Option<real>, sequence: Option<real>)

  const BLANK := Mark(None, None)

  /** Strictly before, where both are known. */
  predicate Before(a: Option<real>, b: Option<real>) {
    a.Some? && b.Some? && a.value < b.value
  }

  predicate Stale(last: Mark, p: Mark) {
    Before(p.time, last.time) || (!Before(last.time, p.time) && Before(p.sequence, last.sequence))
  }

  function OrElse(a: Option<real>, b: Option<real>): Option<real> {
    if a.Some? then a else b
  }

  /** What is accepted replaces what it carries. */
  function Remembered(last: Mark, p: Mark): Mark {
    if Stale(last, p) then last else Mark(OrElse(p.time, last.time), OrElse(p.sequence, last.sequence))
  }

  // ---- runs ----

  function After(last: Mark, ps: seq<Mark>): Mark {
    if ps == [] then last else Remembered(After(last, ps[..|ps| - 1]), ps[|ps| - 1])
  }

  predicate AcceptedAt(last: Mark, ps: seq<Mark>, i: nat) {
    i < |ps| && !Stale(After(last, ps[..i]), ps[i])
  }

  lemma AfterOneMore(last: Mark, ps: seq<Mark>, i: nat)
    requires i < |ps|
    ensures After(last, ps[..i + 1]) == Remembered(After(last, ps[..i]), ps[i])
  {
    assert ps[..i + 1][..i] == ps[..i];
  }

  predicate NotAfter(a: Option<real>, b: Option<real>) {
    a.None? || (b.Some? && a.value <= b.value)
  }

  /** Whatever arrives in whatever order, the remembered time never goes back. */
  lemma {:induction false} TimeNeverGoesBack(last: Mark, ps: seq<Mark>, i: nat, j: nat)
    requires i <= j <= |ps|
    ensures NotAfter(After(last, ps[..i]).time, After(last, ps[..j]).time)
    decreases j
  {
    if i < j {
      TimeNeverGoesBack(last, ps, i, j - 1);
      AfterOneMore(last, ps, j - 1);
    }
  }

  /** The remembered sequence number goes back exactly where a later time comes with an earlier number. */
  lemma SequenceGoesBackIff(last: Mark, p: Mark)
    ensures Before(Remembered(last, p).sequence, last.sequence)
       <==> Before(last.time, p.time) && Before(p.sequence, last.sequence)
  {
  }

  // ---- payloads that carry the same fields ----

  predicate SameShape(a: Mark, b: Mark) {
    (a.time.Some? <==> b.time.Some?) && (a.sequence.Some? <==> b.sequence.Some?)
  }

  predicate Uniform(shape: Mark, ps: seq<Mark>) {
    forall i :: 0 <= i < |ps| ==> SameShape(shape, ps[i])
  }

  /** Lexicographic order on marks of one shape: time first, then sequence number. */
  predicate LexBelow(a: Mark, b: Mark) {
    Before(a.time, b.time) || (a.time == b.time && Before(a.sequence, b.sequence))
  }

  predicate LexAtMost(a: Mark, b: Mark) {
    a == b || LexBelow(a, b)
  }

  /** The greatest of a list. */
  predicate Greatest(ps: seq<Mark>, m: Mark) {
    m in ps && forall p :: p in ps ==> LexAtMost(p, m)
  }

  lemma StaleIsBelow(last: Mark, p: Mark)
    requires SameShape(last, p)
    ensures Stale(last, p) <==> LexBelow(p, last)
    ensures !Stale(last, p) ==> Remembered(last, p) == p && LexAtMost(last, p)
  {
  }

  /** After payloads of one shape the guard remembers the greatest of them. */
  lemma {:induction false} RemembersGreatest(ps: seq<Mark>)
    requires ps != [] && Uniform(ps[0], ps)
    ensures Greatest(ps, After(BLANK, ps)) && SameShape(ps[0], After(BLANK, ps))
  {
    var n := |ps| - 1;
    if n == 0 {
      assert ps[..0] == [];
      assert After(BLANK, ps) == ps[0] == ps[n];
    } else {
      var before, m := ps[..n], After(BLANK, ps[..n]);
      assert before[0] == ps[0];
      RemembersGreatest(before);
      StaleIsBelow(m, ps[n]);
      forall p | p in ps
        ensures LexAtMost(p, After(BLANK, ps))
      {
        if p != ps[n] {
          assert p in before;
          assert LexAtMost(p, m);
        }
      }
    }
  }

  /** A payload is accepted exactly if nothing greater came before it. */
  lemma AcceptedIffGreatestSoFar(ps: seq<Mark>, i: nat)
    requires i < |ps| && Uniform(ps[0], ps)
    ensures AcceptedAt(BLANK, ps, i) <==> forall k :: 0 <= k < i ==> LexAtMost(ps[k], ps[i])
  {
    var before := ps[..i];
    if i > 0 {
      assert before[0] == ps[0];
      RemembersGreatest(before);
      var m := After(BLANK, before);
      StaleIsBelow(m, ps[i]);
      var at :| 0 <= at < |before| && before[at] == m;
      if AcceptedAt(BLANK, ps, i) {
        forall k | 0 <= k < i
          ensures LexAtMost(ps[k], ps[i])
        {
          assert before[k] in before;
        }
      } else {
        assert ps[at] == m;
      }
    }
  }

  /** Accepted payloads that differ strictly increase. */
  lemma AcceptedIncrease(ps: seq<Mark>, i: nat, j: nat)
    requires i < j < |ps| && Uniform(ps[0], ps) && AcceptedAt(BLANK, ps, i) && AcceptedAt(BLANK, ps, j) && ps[i] != ps[j]
    ensures LexBelow(ps[i], ps[j])
  {
    AcceptedIffGreatestSoFar(ps, j);
  }

  /** The greatest payload is accepted when it comes, and nothing different after it. */
  lemma GreatestIsLastAccepted(ps: seq<Mark>, i: nat)
    requires i < |ps| && Uniform(ps[0], ps) && Greatest(ps, ps[i])
    ensures AcceptedAt(BLANK, ps, i)
    ensures forall j :: i < j < |ps| && AcceptedAt(BLANK, ps, j) ==> ps[j] == ps[i]
  {
    AcceptedIffGreatestSoFar(ps, i);
    forall j | i < j < |ps| && AcceptedAt(BLANK, ps, j)
      ensures ps[j] == ps[i]
    {
      AcceptedIffGreatestSoFar(ps, j);
      assert LexAtMost(ps[i], ps[j]) && LexAtMost(ps[j], ps[i]);
    }
  }

  // ---- payloads that carry different fields ----

  predicate Newer(last: Mark, p: Mark) {
    p.time.Some? && (last.time.None? || last.time.value < p.time.value)
  }

  /**
   * From a guard, a before b and b before a leave different guards behind: a number that is new there before
   * a later time without one; a new time before a number that is later but comes without a time; a time that
   * lets a payload pass whose number alone is stale; or one new time with a stale number and without a number.
   */
  predicate ClashAt(last: Mark, a: Mark, b: Mark) {
    || (!Stale(last, a) && Before(a.time, b.time) && a.sequence.Some? && b.sequence.None? && a.sequence != last.sequence)
    || (!Stale(last, a) && Newer(last, a) && b.time.None? && Before(a.sequence, b.sequence))
    || (!Stale(last, a) && last.time.None? && Stale(last, b) && Before(a.time, b.time))
    || (Before(last.time, a.time) && a.time == b.time && b.sequence.None? && Before(a.sequence, last.sequence))
  }

  /** Two payloads with whatever fields, at whatever guard, commute exactly if they do not clash there. */
  lemma CommuteIff(last: Mark, a: Mark, b: Mark)
    ensures Remembered(Remembered(last, a), b) == Remembered(Remembered(last, b), a)
       <==> !ClashAt(last, a, b) && !ClashAt(last, b, a)
  {
  }

  /** No two members of a list clash. */
  ghost predicate NoClash(last: Mark, ps: seq<Mark>) {
    forall a, b :: a in ps && b in ps ==> !ClashAt(last, a, b)
  }

  /** Payloads that do not clash pairwise do not begin to clash when one of them is judged. */
  lemma NoClashStays(last: Mark, a: Mark, b: Mark, c: Mark)
    requires !ClashAt(last, a, b) && !ClashAt(last, b, a) && !ClashAt(last, a, c) && !ClashAt(last, c, a)
    requires !ClashAt(last, b, c) && !ClashAt(last, c, b)
    ensures !ClashAt(Remembered(last, c), a, b)
  {
  }

  lemma {:induction false} NoClashAfter(last: Mark, ps: seq<Mark>, qs: seq<Mark>)
    requires NoClash(last, ps) && forall q :: q in qs ==> q in ps
    ensures NoClash(After(last, qs), ps)
  {
    if qs != [] {
      var n := |qs| - 1;
      NoClashAfter(last, ps, qs[..n]);
      forall a, b | a in ps && b in ps
        ensures !ClashAt(After(last, qs), a, b)
      {
        NoClashStays(After(last, qs[..n]), a, b, qs[n]);
      }
    }
  }

  lemma AfterAppended(last: Mark, ps: seq<Mark>, p: Mark)
    ensures After(last, ps + [p]) == Remembered(After(last, ps), p)
  {
    assert (ps + [p])[..|ps|] == ps;
  }

  /** Without clashes a payload might as well have come last. */
  lemma {:induction false} MightComeLast(last: Mark, front: seq<Mark>, p: Mark, back: seq<Mark>)
    requires NoClash(last, front + [p] + back)
    ensures After(last, front + [p] + back) == Remembered(After(last, front + back), p)
    decreases |back|
  {
    if back == [] {
      assert front + [p] + [] == front + [p] && front + [] == front;
      AfterAppended(last, front, p);
    } else {
      var n := |back| - 1;
      var rest, q := back[..n], back[n];
      var all := front + [p] + back;
      assert all == front + [p] + rest + [q] && front + back == front + rest + [q];
      forall x | x in front + [p] + rest ensures x in all {}
      MightComeLast(last, front, p, rest);
      AfterAppended(last, front + [p] + rest, q);
      AfterAppended(last, front + rest, q);
      forall x | x in front + rest ensures x in all {}
      NoClashAfter(last, all, front + rest);
      assert p in all && q in all;
      CommuteIff(After(last, front + rest), p, q);
    }
  }

  lemma WithoutOne(front: seq<Mark>, p: Mark, back: seq<Mark>)
    ensures multiset(front + [p] + back) == multiset(front + back) + multiset{p}
  {
  }

  lemma CancelOne(a: multiset<Mark>, b: multiset<Mark>, p: Mark)
    requires a + multiset{p} == b + multiset{p}
    ensures a == b
  {
    forall x
      ensures a[x] == b[x]
    {
      assert (a + multiset{p})[x] == (b + multiset{p})[x];
    }
  }

  /** The last element of a list stands somewhere in each of its permutations. */
  lemma TakeOutLast(ps: seq<Mark>, qs: seq<Mark>) returns (front: seq<Mark>, back: seq<Mark>)
    requires ps != [] && multiset(ps) == multiset(qs)
    ensures qs == front + [ps[|ps| - 1]] + back && multiset(ps[..|ps| - 1]) == multiset(front + back)
  {
    var n := |ps| - 1;
    var p := ps[n];
    assert p in multiset(qs);
    var k :| 0 <= k < |qs| && qs[k] == p;
    front, back := qs[..k], qs[k + 1..];
    assert qs == front + [p] + back;
    assert ps == ps[..n] + [p];
    WithoutOne(front, p, back);
    CancelOne(multiset(ps[..n]), multiset(front + back), p);
  }

  /** Without clashes every order of arrival leaves the same guard. */
  lemma {:induction false} NoClashNoOrder(last: Mark, ps: seq<Mark>, qs: seq<Mark>)
    requires multiset(ps) == multiset(qs) && NoClash(last, ps)
    ensures After(last, ps) == After(last, qs)
  {
    if ps == [] {
      assert |multiset(qs)| == 0;
    } else {
      var n := |ps| - 1;
      var front, back := TakeOutLast(ps, qs);
      forall x | x in qs ensures x in ps { assert x in multiset(qs); }
      MightComeLast(last, front, ps[n], back);
      NoClashNoOrder(last, ps[..n], front + back);
    }
  }

  /** Whatever part of the payloads arrives leaves the same guard in every order. */
  ghost predicate OrderFree(last: Mark, ps: seq<Mark>) {
    forall xs, ys :: multiset(xs) <= multiset(ps) && multiset(xs) == multiset(ys) ==> After(last, xs) == After(last, ys)
  }

  lemma AfterTwo(last: Mark, a: Mark, b: Mark)
    ensures After(last, [a, b]) == Remembered(Remembered(last, a), b)
  {
    var ps := [a, b];
    assert ps[..0] == [] && ps[..2] == ps;
    AfterOneMore(last, ps, 0);
    AfterOneMore(last, ps, 1);
  }

  lemma ClashShowsInOrder(last: Mark, ps: seq<Mark>, a: Mark, b: Mark)
    requires OrderFree(last, ps) && a in ps && b in ps
    ensures !ClashAt(last, a, b)
  {
    if a != b {
      var xs, ys := [a, b], [b, a];
      assert multiset(xs) == multiset{a, b} == multiset(ys);
      assert a in multiset(ps) && b in multiset(ps);
      AfterTwo(last, a, b);
      AfterTwo(last, b, a);
      CommuteIff(last, a, b);
    }
  }

  /**
   * The order of arrival does not matter, for payloads with whatever fields and whatever part of them arrives,
   * exactly if no two of them clash. Where all of them are sure to arrive a clash may be covered: see LatestWins.
   */
  lemma OrderFreeIff(last: Mark, ps: seq<Mark>)
    ensures OrderFree(last, ps) <==> NoClash(last, ps)
  {
    if NoClash(last, ps) {
      forall xs, ys | multiset(xs) <= multiset(ps) && multiset(xs) == multiset(ys)
        ensures After(last, xs) == After(last, ys)
      {
        forall x | x in xs ensures x in ps { assert x in multiset(xs); }
        NoClashNoOrder(last, xs, ys);
      }
    }
    if OrderFree(last, ps) {
      forall a, b | a in ps && b in ps
        ensures !ClashAt(last, a, b)
      {
        ClashShowsInOrder(last, ps, a, b);
      }
    }
  }

  /** At a new guard: a number before a later time without one, or a time with a number before a later number without a time. */
  predicate Clash(a: Mark, b: Mark) {
    || (Before(a.time, b.time) && a.sequence.Some? && b.sequence.None?)
    || (a.time.Some? && b.time.None? && Before(a.sequence, b.sequence))
  }

  lemma ClashAtBlank(a: Mark, b: Mark)
    ensures ClashAt(BLANK, a, b) <==> Clash(a, b)
  {
  }

  /** Earlier in time and in number, as far as there are any. */
  predicate Below(p: Mark, top: Mark) {
    && top.time.Some? && top.sequence.Some?
    && (p.time.Some? ==> Before(p.time, top.time)) && (p.sequence.Some? ==> Before(p.sequence, top.sequence))
  }

  lemma JudgedBelow(last: Mark, p: Mark, top: Mark)
    requires top.time.Some? && top.sequence.Some? && (Below(last, top) || last == top) && (Below(p, top) || p == top)
    ensures var next := Remembered(last, p);
      if last == top || p == top then next == top else Below(next, top)
  {
  }

  /** A payload that is later than all others in time and in number is remembered in every order, whether others clash or not. */
  lemma {:induction false} LatestWins(ps: seq<Mark>, top: Mark)
    requires top.time.Some? && top.sequence.Some? && forall p :: p in ps ==> p == top || Below(p, top)
    ensures if top in ps then After(BLANK, ps) == top else Below(After(BLANK, ps), top)
  {
    if ps != [] {
      var n := |ps| - 1;
      assert ps == ps[..n] + [ps[n]];
      LatestWins(ps[..n], top);
      JudgedBelow(After(BLANK, ps[..n]), ps[n], top);
    }
  }

  /** Such a list, with a clash in it. */
  lemma ClashIsCovered(ps: seq<Mark>)
    requires multiset(ps) == multiset{Mark(Some(1.0), Some(1.0)), Mark(Some(2.0), None), Mark(Some(9.0), Some(9.0))}
    ensures !NoClash(BLANK, ps) && After(BLANK, ps) == Mark(Some(9.0), Some(9.0))
  {
    var a, b, top := Mark(Some(1.0), Some(1.0)), Mark(Some(2.0), None), Mark(Some(9.0), Some(9.0));
    assert a in multiset(ps) && b in multiset(ps) && top in multiset(ps);
    assert ClashAt(BLANK, a, b);
    forall p | p in ps ensures p == top || Below(p, top) {
      assert p in multiset(ps);
    }
    LatestWins(ps, top);
  }

  /** Payloads of one shape never clash at a new guard, so permuted they leave the same guard behind. */
  lemma OrderDoesNotMatter(ps: seq<Mark>, qs: seq<Mark>)
    requires multiset(ps) == multiset(qs) && ps != [] && Uniform(ps[0], ps)
    ensures After(BLANK, ps) == After(BLANK, qs)
  {
    NoClashNoOrder(BLANK, ps, qs);
  }

  /** Where some payloads lack a time, the order of arrival does matter. */
  lemma MixedFieldsDependOnOrder()
    ensures var numbered, early, late := Mark(None, Some(7.0)), Mark(Some(10.0), Some(1.0)), Mark(Some(20.0), Some(3.0));
      && multiset([numbered, early, late]) == multiset([early, numbered, late])
      && After(BLANK, [numbered, early, late]) == numbered
      && After(BLANK, [early, numbered, late]) == late
  {
    var numbered, early, late := Mark(None, Some(7.0)), Mark(Some(10.0), Some(1.0)), Mark(Some(20.0), Some(3.0));
    AfterThree(BLANK, numbered, early, late);
    AfterThree(BLANK, early, numbered, late);
  }

  lemma AfterThree(last: Mark, a: Mark, b: Mark, c: Mark)
    ensures After(last, [a, b, c]) == Remembered(Remembered(Remembered(last, a), b), c)
  {
    AfterTwo(last, a, b);
    AfterAppended(last, [a, b], c);
    assert [a, b] + [c] == [a, b, c];
  }

  // ---- event types ----

  const RUNTIME_UPDATE := "runtime_update"
  const RUNTIME_STATUS := "runtime_status"
  const SUBTITLE_PAYLOAD_UPDATE := "subtitle_payload_update"
  const OVERLAY_UPDATE := "overlay_update"
  const TRANSCRIPT_UPDATE := "transcript_update"

  /** Old names of event types are mapped to the current ones. */
  function NormalizeWsEventType(type_: Option<string>): string {
    var current := Lower(Trim(if type_.Some? then type_.value else "", JsSpace));
    if current == RUNTIME_UPDATE then RUNTIME_STATUS
    else if current == SUBTITLE_PAYLOAD_UPDATE then OVERLAY_UPDATE
    else current
  }

  lemma CurrentNamesAreFixed()
    ensures Lower(RUNTIME_STATUS) == RUNTIME_STATUS && Lower(OVERLAY_UPDATE) == OVERLAY_UPDATE
    ensures Trimmed(RUNTIME_STATUS, JsSpace) && Trimmed(OVERLAY_UPDATE, JsSpace)
  {
  }

  /** Normalised types are fixed: trimmed, without capitals, and none of the old names. */
  lemma NormalizedTypesAreFixed(type_: Option<string>)
    ensures var n := NormalizeWsEventType(type_);
      NormalizeWsEventType(Some(n)) == n && n != RUNTIME_UPDATE && n != SUBTITLE_PAYLOAD_UPDATE
  {
    var trimmed := Trim(if type_.Some? then type_.value else "", JsSpace);
    forall c
      ensures JsSpace(LowerChar(c)) <==> JsSpace(c)
    {
      LowerKeepsSpace(c);
    }
    LowerKeepsTrimmed(trimmed, JsSpace);
    LowerIsIdempotent(trimmed);
    CurrentNamesAreFixed();
  }

  // ---- the guard ----

  function Lookup(m: map<string, real>, key: string): Option<real> {
    if key in m then Some(m[key]) else None
  }

  /** What a payload carries for the guard. */
  function MarkOf(p: Payload): Mark
    requires p.Object?
  {
    Mark(TimeOf(p), SequenceOf(p))
  }

  /** Values that are no objects always pass, and payloads that call themselves stale never do. */
  predicate Refuses(last: Mark, p: Payload) {
    p.Object? && (p.stale || Stale(last, MarkOf(p)))
  }

  function Judged(last: Mark, p: Payload): Mark {
    if p.Object? && !p.stale then Remembered(last, MarkOf(p)) else last
  }

  /** A payload that was just accepted passes again and leaves no trace. */
  lemma PassesAgain(last: Mark, p: Payload)
    requires !Refuses(last, p)
    ensures !Refuses(Judged(last, p), p) && Judged(Judged(last, p), p) == Judged(last, p)
  {
  }

  /** What is refused leaves no trace at all. */
  lemma RefusedLeavesNoTrace(last: Mark, p: Payload)
    requires Refuses(last, p)
    ensures Judged(last, p) == last
  {
  }

  class StaleGuard {
    var sequenceByType: map<string, real>
    var timestampByType: map<string, real>

    function MarkFor(eventType: string): Mark
      reads this
    {
      Mark(Lookup(timestampByType, eventType), Lookup(sequenceByType, eventType))
    }

    constructor ()
      ensures forall t :: MarkFor(t) == BLANK
    {
      sequenceByType, timestampByType := map[], map[];
    }

    method IsWsEventStale(eventType: string, payload: Payload) returns (stale: bool)
      modifies this
      ensures stale == Refuses(old(MarkFor(eventType)), payload)
      ensures MarkFor(eventType) == Judged(old(MarkFor(eventType)), payload)
      ensures forall t :: t != eventType ==> MarkFor(t) == old(MarkFor(t))
    {
      if payload.NotAnObject? {
        return false;
      }
      if payload.stale {
        return true;
      }
      var currentSequence := SequenceOf(payload);
      var lastSequence := Lookup(sequenceByType, eventType);
      var updatedAt := TimeOf(payload);
      var lastTimestamp := Lookup(timestampByType, eventType);
      if updatedAt.Some? && lastTimestamp.Some? {
        if updatedAt.value < lastTimestamp.value {
          return true;
        }
        if updatedAt.value > lastTimestamp.value {
          if currentSequence.Some? {
            sequenceByType := sequenceByType[eventType := currentSequence.value];
          }
          timestampByType := timestampByType[eventType := updatedAt.value];
          return false;
        }
      }
      if currentSequence.Some? && lastSequence.Some? && currentSequence.value < lastSequence.value {
        return true;
      }
      if currentSequence.Some? {
        sequenceByType := sequenceByType[eventType := currentSequence.value];
      }
      if updatedAt.Some? {
        timestampByType := timestampByType[eventType := updatedAt.value];
      }
      return false;
    }
  }
}
