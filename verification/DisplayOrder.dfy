/** The order in which subtitle lines are shown: requested items first, then whatever was left out. */
module DisplayOrder {
  import opened Sequences
  import opened Results
  import opened Text

  const SOURCE := "source"
  const CANONICAL_SLOT_IDS: seq<string> :=
    ["translation_1", "translation_2", "translation_3", "translation_4", "translation_5"]

  /** A line of the translation settings; fields of the wrong type count as missing. */
  datatype Line = NotAnObject | Line(enabled: Option<bool>, slotId: Option<string>, targetLang: Option<string>)

  function Normal(s: Option<string>): string {
    Lower(Trim(if s.Some? then s.value else "", RustSpace))
  }

  predicate Enabled(line: Line) {
    line.Line? && (line.enabled.None? || line.enabled.value)
  }

  /** The slot of a line, if it is enabled and has one. */
  function SlotOf(line: Line): seq<string> {
    if Enabled(line) && Normal(line.slotId) != "" then [Normal(line.slotId)] else []
  }

  function EnabledSlotIds(lines: seq<Line>): seq<string> {
    if lines == [] then [] else EnabledSlotIds(lines[..|lines| - 1]) + SlotOf(lines[|lines| - 1])
  }

  /** The language and the slot of an enabled line that has both. */
  datatype Pair = Pair(lang: string, slot: string)

  function PairOf(line: Line): Option<Pair> {
    if !Enabled(line) then None
    else
      var lang, slot := Normal(line.targetLang), Normal(line.slotId);
      if lang != "" && slot != "" then Some(Pair(lang, slot)) else None
  }

  function Pairs(lines: seq<Line>): (pairs: seq<Option<Pair>>)
    ensures |pairs| == |lines|
  {
    seq(|lines|, i requires 0 <= i < |lines| => PairOf(lines[i]))
  }

  /** Where two lines have the same language, the first one counts. */
  function FirstSlots(pairs: seq<Option<Pair>>): map<string, string> {
    if pairs == [] then map[]
    else
      var before, last := FirstSlots(pairs[..|pairs| - 1]), pairs[|pairs| - 1];
      if last.Some? && last.value.lang !in before then before[last.value.lang := last.value.slot] else before
  }

  function LanguageToSlot(lines: seq<Line>): map<string, string> {
    FirstSlots(Pairs(lines))
  }

  predicate Carries(pair: Option<Pair>, lang: string) {
    pair.Some? && pair.value.lang == lang
  }

  /** Line i is the first one that carries the language. */
  predicate FirstWith(pairs: seq<Option<Pair>>, lang: string, i: nat) {
    i < |pairs| && Carries(pairs[i], lang) && forall j :: 0 <= j < i ==> !Carries(pairs[j], lang)
  }

  /** The slot of the first line that carries the language. */
  ghost predicate IsFirstSlot(pairs: seq<Option<Pair>>, lang: string, slot: string) {
    exists i: nat :: FirstWith(pairs, lang, i) && pairs[i].value.slot == slot
  }

  predicate Maps(mapping: map<string, string>, lang: string, slot: string) {
    lang in mapping && mapping[lang] == slot
  }

  lemma {:induction false} NoLineCarries(pairs: seq<Option<Pair>>, lang: string)
    ensures lang !in FirstSlots(pairs) <==> forall j :: 0 <= j < |pairs| ==> !Carries(pairs[j], lang)
  {
    if pairs != [] {
      var n := |pairs| - 1;
      NoLineCarries(pairs[..n], lang);
      assert forall j :: 0 <= j < n ==> pairs[..n][j] == pairs[j];
    }
  }

  /** The first enabled line with a language and a slot gives the slot of that language. */
  lemma {:induction false} FirstLineWins(pairs: seq<Option<Pair>>, lang: string, slot: string)
    ensures Maps(FirstSlots(pairs), lang, slot) <==> IsFirstSlot(pairs, lang, slot)
  {
    if pairs != [] {
      var n := |pairs| - 1;
      var before := pairs[..n];
      FirstLineWins(before, lang, slot);
      NoLineCarries(before, lang);
      assert forall j :: 0 <= j < n ==> before[j] == pairs[j];
      if i: nat :| FirstWith(before, lang, i) && before[i].value.slot == slot {
        assert FirstWith(pairs, lang, i);
      }
      if i: nat :| FirstWith(pairs, lang, i) && pairs[i].value.slot == slot && i < n {
        assert FirstWith(before, lang, i);
      }
      if FirstWith(pairs, lang, n) && pairs[n].value.slot == slot {
        assert IsFirstSlot(pairs, lang, slot);
      }
    }
  }

  method LegacyLanguageToSlot(lines: seq<Line>) returns (mapping: map<string, string>)
    ensures mapping == LanguageToSlot(lines)
    ensures forall lang, slot :: Maps(mapping, lang, slot) <==> IsFirstSlot(Pairs(lines), lang, slot)
  {
    ghost var pairs := Pairs(lines);
    forall lang, slot
      ensures Maps(FirstSlots(pairs), lang, slot) <==> IsFirstSlot(pairs, lang, slot)
    {
      FirstLineWins(pairs, lang, slot);
    }
    mapping := map[];
    assert pairs[..0] == [];
    for i := 0 to |lines|
      invariant mapping == FirstSlots(pairs[..i])
    {
      assert pairs[..i + 1][..i] == pairs[..i] && pairs[i] == PairOf(lines[i]);
      if !Enabled(lines[i]) {
        continue;
      }
      var lang, slot := Normal(lines[i].targetLang), Normal(lines[i].slotId);
      if lang != "" && slot != "" {
        if lang !in mapping {
          mapping := mapping[lang := slot];
        }
      }
    }
    assert pairs[..|lines|] == pairs;
  }

  // ---- what an item stands for ----

  /** The line that a requested item stands for, if any. */
  function Target(lines: seq<Line>, value: string): Option<string> {
    if value == "" then None
    else if value == SOURCE then Some(SOURCE)
    else if value in CANONICAL_SLOT_IDS && value in EnabledSlotIds(lines) then Some(value)
    else if value in LanguageToSlot(lines) then Some(LanguageToSlot(lines)[value])
    else None
  }

  /** The lines that a list of requested items stands for. */
  function Mentions(lines: seq<Line>, values: seq<string>): seq<string> {
    if values == [] then []
    else
      var before, target := Mentions(lines, values[..|values| - 1]), Target(lines, values[|values| - 1]);
      if target.Some? then before + [target.value] else before
  }

  function Values(order: seq<Option<string>>): (values: seq<string>)
    ensures |values| == |order|
  {
    seq(|order|, i requires 0 <= i < |order| => Normal(order[i]))
  }

  // ---- adding without repeating ----

  function AddOnce(acc: seq<string>, x: string): seq<string> {
    if x in acc then acc else acc + [x]
  }

  function AddAll(acc: seq<string>, xs: seq<string>): seq<string> {
    if xs == [] then acc else AddOnce(AddAll(acc, xs[..|xs| - 1]), xs[|xs| - 1])
  }

  /** Requested lines in the order of their first mention, then the source, then the enabled slots that are missing. */
  function Arranged(lines: seq<Line>, values: seq<string>): seq<string> {
    AddAll([], Mentions(lines, values) + [SOURCE] + EnabledSlotIds(lines))
  }

  function Normalized(lines: seq<Line>, order: seq<Option<string>>): seq<string> {
    Arranged(lines, Values(order))
  }

  lemma {:induction false} AddAllJoins(acc: seq<string>, a: seq<string>, b: seq<string>)
    ensures AddAll(acc, a + b) == AddAll(AddAll(acc, a), b)
  {
    if b == [] {
      assert a + b == a;
    } else {
      AddAllJoins(acc, a, b[..|b| - 1]);
      assert (a + b)[..|a + b| - 1] == a + b[..|b| - 1];
    }
  }

  lemma OneMoreMention(lines: seq<Line>, values: seq<string>, i: nat)
    requires i < |values|
    ensures var before, target := AddAll([], Mentions(lines, values[..i])), Target(lines, values[i]);
      AddAll([], Mentions(lines, values[..i + 1])) == if target.Some? then AddOnce(before, target.value) else before
  {
    var before, target := Mentions(lines, values[..i]), Target(lines, values[i]);
    assert values[..i + 1][..i] == values[..i];
    if target.Some? {
      assert (before + [target.value])[..|before|] == before;
    }
  }

  method AddRequested(order: seq<Option<string>>, lines: seq<Line>, enabledSlots: seq<string>,
                      languageToSlot: map<string, string>) returns (normalized: seq<string>)
    requires enabledSlots == EnabledSlotIds(lines) && languageToSlot == LanguageToSlot(lines)
    ensures normalized == AddAll([], Mentions(lines, Values(order)))
  {
    normalized := [];
    ghost var values := Values(order);
    assert values[..0] == [];
    for i := 0 to |order|
      invariant normalized == AddAll([], Mentions(lines, values[..i]))
    {
      OneMoreMention(lines, values, i);
      var value := Normal(order[i]);
      if value == "" {
        continue;
      }
      if value == SOURCE {
        if value !in normalized {
          normalized := normalized + [value];
        }
        continue;
      }
      if value in CANONICAL_SLOT_IDS && value in enabledSlots {
        if value !in normalized {
          normalized := normalized + [value];
        }
        continue;
      }
      if value in languageToSlot {
        if languageToSlot[value] !in normalized {
          normalized := normalized + [languageToSlot[value]];
        }
      }
    }
    assert values[..|order|] == values;
  }

  method AddMissing(acc: seq<string>, slots: seq<string>) returns (normalized: seq<string>)
    ensures normalized == AddAll(acc, slots)
  {
    normalized := acc;
    assert slots[..0] == [];
    for i := 0 to |slots|
      invariant normalized == AddAll(acc, slots[..i])
    {
      assert slots[..i + 1][..i] == slots[..i];
      if slots[i] !in normalized {
        normalized := normalized + [slots[i]];
      }
    }
    assert slots[..|slots|] == slots;
  }

  method NormalizeDisplayOrder(order: seq<Option<string>>, lines: seq<Line>) returns (normalized: seq<string>)
    ensures normalized == Normalized(lines, order)
  {
    var enabledSlots := EnabledSlotIds(lines);
    var languageToSlot := LegacyLanguageToSlot(lines);
    normalized := AddRequested(order, lines, enabledSlots, languageToSlot);
    ghost var mentions := Mentions(lines, Values(order));
    InThreeParts(mentions, enabledSlots);
    if SOURCE !in normalized {
      normalized := normalized + [SOURCE];
    }
    normalized := AddMissing(normalized, enabledSlots);
  }

  lemma InThreeParts(mentions: seq<string>, slots: seq<string>)
    ensures AddAll([], mentions + [SOURCE] + slots) == AddAll(AddOnce(AddAll([], mentions), SOURCE), slots)
  {
    AddAllJoins([], mentions + [SOURCE], slots);
    AddAllJoins([], mentions, [SOURCE]);
    AddOne(AddAll([], mentions), SOURCE);
  }

  lemma AddOne(acc: seq<string>, x: string)
    ensures AddAll(acc, [x]) == AddOnce(acc, x)
  {
  }

  // ---- no repetitions, nothing missing, order of first mention ----

  predicate NoDuplicates(xs: seq<string>) {
    forall i, j :: 0 <= i < j < |xs| ==> xs[i] != xs[j]
  }

  lemma {:induction false} AddAllContents(acc: seq<string>, xs: seq<string>, x: string)
    ensures x in AddAll(acc, xs) <==> x in acc || x in xs
    ensures acc <= AddAll(acc, xs)
  {
    if xs != [] {
      AddAllContents(acc, xs[..|xs| - 1], x);
    }
  }

  lemma {:induction false} AddAllHasNoDuplicates(acc: seq<string>, xs: seq<string>)
    requires NoDuplicates(acc)
    ensures NoDuplicates(AddAll(acc, xs))
  {
    if xs != [] {
      AddAllHasNoDuplicates(acc, xs[..|xs| - 1]);
    }
  }

  lemma SlotIsEnabled(lines: seq<Line>, i: nat)
    requires i < |lines| && PairOf(lines[i]).Some?
    ensures PairOf(lines[i]).value.slot in EnabledSlotIds(lines)
  {
    PairHasSlot(lines[i]);
    SlotIsIn(lines, i, lines[i], PairOf(lines[i]).value.slot);
  }

  lemma PairHasSlot(line: Line)
    requires PairOf(line).Some?
    ensures SlotOf(line) == [PairOf(line).value.slot]
  {
  }

  lemma SlotIsIn(lines: seq<Line>, i: nat, line: Line, slot: string)
    requires i < |lines| && line == lines[i] && SlotOf(line) == [slot]
    ensures slot in EnabledSlotIds(lines)
  {
    LastSlot(lines[..i + 1], line, slot);
    SlotStays(lines, i + 1, slot);
  }

  lemma SlotStays(lines: seq<Line>, n: nat, slot: string)
    requires n <= |lines| && slot in EnabledSlotIds(lines[..n])
    ensures slot in EnabledSlotIds(lines)
  {
    SlotsOfFront(lines, n);
  }

  lemma {:induction false} SlotsOfFront(lines: seq<Line>, n: nat)
    requires n <= |lines|
    ensures EnabledSlotIds(lines[..n]) <= EnabledSlotIds(lines)
  {
    if n < |lines| {
      var front := lines[..|lines| - 1];
      SlotsOfFront(front, n);
      assert front[..n] == lines[..n];
    } else {
      assert lines[..n] == lines;
    }
  }

  lemma LastSlot(lines: seq<Line>, last: Line, slot: string)
    requires lines != [] && last == lines[|lines| - 1] && SlotOf(last) == [slot]
    ensures slot in EnabledSlotIds(lines)
  {
    var before := EnabledSlotIds(lines[..|lines| - 1]);
    InTheMiddle(before, slot, []);
    assert before + [slot] + [] == before + [slot];
  }

  lemma MappedSlotsAreEnabled(lines: seq<Line>, lang: string)
    requires lang in LanguageToSlot(lines)
    ensures LanguageToSlot(lines)[lang] in EnabledSlotIds(lines) && lang != "" && IsNormal(lang)
  {
    var slot := LanguageToSlot(lines)[lang];
    FirstLineWins(Pairs(lines), lang, slot);
    var i: nat :| FirstWith(Pairs(lines), lang, i) && Pairs(lines)[i].value.slot == slot;
    SlotIsEnabled(lines, i);
    NormalIsNormal(lines[i].targetLang);
  }

  /** An item can only stand for the source or for an enabled slot. */
  lemma TargetIsShown(lines: seq<Line>, value: string)
    ensures var t := Target(lines, value); t.Some? ==> t.value == SOURCE || t.value in EnabledSlotIds(lines)
  {
    if value in LanguageToSlot(lines) {
      MappedSlotsAreEnabled(lines, value);
    }
  }

  lemma {:induction false} MentionsAreShown(lines: seq<Line>, values: seq<string>, x: string)
    requires x in Mentions(lines, values)
    ensures x == SOURCE || x in EnabledSlotIds(lines)
  {
    var n := |values| - 1;
    TargetIsShown(lines, values[n]);
    if x in Mentions(lines, values[..n]) {
      MentionsAreShown(lines, values[..n], x);
    }
  }

  /** What is shown is the source and the enabled slots, each once. */
  lemma ShowsEverythingOnce(lines: seq<Line>, values: seq<string>, x: string)
    ensures x in Arranged(lines, values) <==> x == SOURCE || x in EnabledSlotIds(lines)
    ensures NoDuplicates(Arranged(lines, values))
  {
    var all := Mentions(lines, values) + [SOURCE] + EnabledSlotIds(lines);
    AddAllContents([], all, x);
    AddAllHasNoDuplicates([], all);
    if x in Mentions(lines, values) {
      MentionsAreShown(lines, values, x);
    }
  }

  predicate FirstAt(xs: seq<string>, x: string, at: nat) {
    at < |xs| && xs[at] == x && forall k :: 0 <= k < at ==> xs[k] != x
  }

  /** The result follows the order of first mention. */
  lemma {:induction false} FirstMentionOrder(xs: seq<string>, i: nat, j: nat) returns (p: nat, q: nat)
    requires i < j < |AddAll([], xs)|
    ensures FirstAt(xs, AddAll([], xs)[i], p) && FirstAt(xs, AddAll([], xs)[j], q) && p < q
  {
    var n := |xs| - 1;
    var before := AddAll([], xs[..n]);
    if j < |before| {
      p, q := FirstMentionOrder(xs[..n], i, j);
    } else {
      p := FirstMention(xs[..n], i);
      AddAllContents([], xs[..n], xs[n]);
      q := n;
    }
  }

  lemma {:induction false} FirstMention(xs: seq<string>, i: nat) returns (p: nat)
    requires i < |AddAll([], xs)|
    ensures FirstAt(xs, AddAll([], xs)[i], p)
  {
    var n := |xs| - 1;
    if i < |AddAll([], xs[..n])| {
      p := FirstMention(xs[..n], i);
    } else {
      AddAllContents([], xs[..n], xs[n]);
      p := n;
    }
  }

  /** Requested lines come first, in the order in which they were first mentioned. */
  lemma RequestedComeFirst(lines: seq<Line>, values: seq<string>)
    ensures AddAll([], Mentions(lines, values)) <= Arranged(lines, values)
  {
    var mentions := Mentions(lines, values);
    AddAllJoins([], mentions, [SOURCE]);
    AddAllJoins([], mentions + [SOURCE], EnabledSlotIds(lines));
    AddAllContents(AddAll([], mentions), [SOURCE], SOURCE);
    AddAllContents(AddAll([], mentions + [SOURCE]), EnabledSlotIds(lines), SOURCE);
  }

  // ---- normalising again ----

  /** A shown line that stands for itself when it is requested. */
  predicate Stable(lines: seq<Line>, x: string) {
    Target(lines, x) == Some(x)
  }

  /** No item stands for an unstable slot, and in the settings stable slots come before unstable ones. */
  ghost predicate Settled(lines: seq<Line>) {
    && (forall value, x :: x in EnabledSlotIds(lines) && Target(lines, value) == Some(x) ==> Stable(lines, x))
    && StableFirst(lines, [SOURCE], EnabledSlotIds(lines))
  }

  ghost predicate StableFirst(lines: seq<Line>, acc: seq<string>, slots: seq<string>) {
    forall p, q :: 0 <= p < q < |slots| && !Stable(lines, slots[p]) && Stable(lines, slots[q]) ==>
      slots[q] in acc || slots[q] in slots[..p]
  }

  function Pick(lines: seq<Line>, slots: seq<string>, stable: bool): seq<string> {
    if slots == [] then []
    else
      var before, last := Pick(lines, slots[..|slots| - 1], stable), slots[|slots| - 1];
      if Stable(lines, last) == stable then before + [last] else before
  }

  lemma {:induction false} PickContents(lines: seq<Line>, slots: seq<string>, stable: bool, x: string)
    ensures x in Pick(lines, slots, stable) <==> x in slots && Stable(lines, x) == stable
  {
    if slots != [] {
      PickContents(lines, slots[..|slots| - 1], stable, x);
    }
  }

  ghost predicate AllStable(lines: seq<Line>, xs: seq<string>) {
    forall x :: x in xs ==> Stable(lines, x)
  }

  /** Before a stable slot that is new there are no unstable ones. */
  lemma NoneUnstable(lines: seq<Line>, acc: seq<string>, slots: seq<string>)
    requires slots != [] && StableFirst(lines, acc, slots)
    requires var e := slots[|slots| - 1]; Stable(lines, e) && e !in acc && e !in slots[..|slots| - 1]
    ensures Pick(lines, slots[..|slots| - 1], false) == []
  {
    var n := |slots| - 1;
    var unstable := Pick(lines, slots[..n], false);
    forall p | 0 <= p < n
      ensures Stable(lines, slots[p])
    {
      assert slots[..p] <= slots[..n] && slots[n] !in slots[..p];
    }
    if unstable != [] {
      PickContents(lines, slots[..n], false, unstable[0]);
    }
  }

  lemma StableFirstInFront(lines: seq<Line>, acc: seq<string>, slots: seq<string>, n: nat)
    requires n <= |slots| && StableFirst(lines, acc, slots)
    ensures StableFirst(lines, acc, slots[..n])
  {
    var front := slots[..n];
    forall p, q | 0 <= p < q < n && !Stable(lines, front[p]) && Stable(lines, front[q])
      ensures front[q] in acc || front[q] in front[..p]
    {
      assert front[p] == slots[p] && front[q] == slots[q] && front[..p] == slots[..p];
    }
  }

  lemma AppendOne(a: seq<string>, b: seq<string>, x: string)
    ensures x !in b ==> AddOnce(a + b, x) == if x in a then a + b else a + (b + [x])
    ensures b == [] ==> AddOnce(a + b, x) == AddOnce(a, x) + b
    ensures x in a || x in b ==> AddOnce(a + b, x) == a + b
  {
  }

  lemma PickOneMore(lines: seq<Line>, slots: seq<string>, acc: seq<string>, stable: bool)
    requires slots != []
    ensures var before, e := slots[..|slots| - 1], slots[|slots| - 1];
      AddAll(acc, Pick(lines, slots, stable)) ==
        if Stable(lines, e) == stable then AddOnce(AddAll(acc, Pick(lines, before, stable)), e)
        else AddAll(acc, Pick(lines, before, stable))
  {
  }

  lemma PickedContents(lines: seq<Line>, slots: seq<string>, acc: seq<string>, stable: bool, x: string)
    ensures x in AddAll(acc, Pick(lines, slots, stable)) <==> x in acc || (x in slots && Stable(lines, x) == stable)
  {
  }

  /** Where stable slots come first, they are added first. */
  lemma {:induction false} StableAreAddedFirst(lines: seq<Line>, acc: seq<string>, slots: seq<string>)
    requires AllStable(lines, acc) && StableFirst(lines, acc, slots)
    ensures AddAll(acc, slots) == AddAll(acc, Pick(lines, slots, true)) + AddAll([], Pick(lines, slots, false))
  {
    if slots != [] {
      var n := |slots| - 1;
      var before, e := slots[..n], slots[n];
      var stable, unstable := AddAll(acc, Pick(lines, before, true)), AddAll([], Pick(lines, before, false));
      StableFirstInFront(lines, acc, slots, n);
      StableAreAddedFirst(lines, acc, before);
      PickOneMore(lines, slots, acc, true);
      PickOneMore(lines, slots, [], false);
      PickedContents(lines, before, acc, true, e);
      PickedContents(lines, before, [], false, e);
      AppendOne(stable, unstable, e);
      if Stable(lines, e) && e !in stable {
        NoneUnstable(lines, acc, slots);
      }
    }
  }

  lemma {:induction false} AddKnown(acc: seq<string>, xs: seq<string>)
    requires forall x :: x in xs ==> x in acc
    ensures AddAll(acc, xs) == acc
  {
    if xs != [] {
      AddKnown(acc, xs[..|xs| - 1]);
    }
  }

  lemma {:induction false} AddDistinct(xs: seq<string>)
    requires NoDuplicates(xs)
    ensures AddAll([], xs) == xs
  {
    if xs != [] {
      var n := |xs| - 1;
      AddDistinct(xs[..n]);
    }
  }

  lemma {:induction false} MentionsJoin(lines: seq<Line>, a: seq<string>, b: seq<string>)
    ensures Mentions(lines, a + b) == Mentions(lines, a) + Mentions(lines, b)
  {
    if b == [] {
      assert a + b == a;
    } else {
      var n := |b| - 1;
      MentionsJoin(lines, a, b[..n]);
      assert (a + b)[..|a + b| - 1] == a + b[..n];
    }
  }

  /** Stable lines that are requested stand for themselves. */
  lemma {:induction false} MentionsOfStable(lines: seq<Line>, xs: seq<string>)
    requires AllStable(lines, xs)
    ensures Mentions(lines, xs) == xs
  {
    if xs != [] {
      var n := |xs| - 1;
      MentionsOfStable(lines, xs[..n]);
      assert xs[n] in xs;
    }
  }

  lemma {:induction false} MentionsComeFrom(lines: seq<Line>, xs: seq<string>, y: string) returns (x: string)
    requires y in Mentions(lines, xs)
    ensures x in xs && Target(lines, x) == Some(y)
  {
    var n := |xs| - 1;
    if y in Mentions(lines, xs[..n]) {
      x := MentionsComeFrom(lines, xs[..n], y);
    } else {
      x := xs[n];
    }
  }

  lemma MentionsAreStable(lines: seq<Line>, values: seq<string>)
    requires Settled(lines)
    ensures AllStable(lines, AddAll([], Mentions(lines, values) + [SOURCE]))
  {
    forall x | x in AddAll([], Mentions(lines, values) + [SOURCE])
      ensures Stable(lines, x)
    {
      AddAllContents([], Mentions(lines, values) + [SOURCE], x);
      if x in Mentions(lines, values) {
        var value := MentionsComeFrom(lines, values, x);
        TargetIsShown(lines, value);
      }
    }
  }

  /** In settled settings the result is a stretch of stable lines, and then the unstable slots. */
  lemma StableThenUnstable(lines: seq<Line>, values: seq<string>) returns (stable: seq<string>)
    requires Settled(lines)
    ensures Arranged(lines, values) == stable + AddAll([], Pick(lines, EnabledSlotIds(lines), false))
    ensures AllStable(lines, stable) && SOURCE in stable
    ensures forall x :: x in EnabledSlotIds(lines) && Stable(lines, x) ==> x in stable
  {
    var slots, first := EnabledSlotIds(lines), Mentions(lines, values) + [SOURCE];
    var acc := AddAll([], first);
    AddAllJoins([], first, slots);
    MentionsAreStable(lines, values);
    AddAllContents([], first, SOURCE);
    assert SOURCE in first;
    assert StableFirst(lines, acc, slots);
    StableAreAddedFirst(lines, acc, slots);
    stable := AddAll(acc, Pick(lines, slots, true));
    forall x
      ensures x in stable <==> x in acc || (x in slots && Stable(lines, x))
    {
      AddAllContents(acc, Pick(lines, slots, true), x);
      PickContents(lines, slots, true, x);
    }
  }

  /** Requested again, stable lines stand for themselves, and the others for stable ones or nothing. */
  lemma MentionsAgain(lines: seq<Line>, stable: seq<string>, unstable: seq<string>) returns (again: seq<string>)
    requires Settled(lines) && AllStable(lines, stable) && SOURCE in stable
    requires forall x :: x in EnabledSlotIds(lines) && Stable(lines, x) ==> x in stable
    ensures Mentions(lines, stable + unstable) == stable + again
    ensures forall y :: y in again ==> y in stable
  {
    MentionsOfStable(lines, stable);
    MentionsJoin(lines, stable, unstable);
    again := Mentions(lines, unstable);
    forall y | y in again
      ensures y in stable
    {
      var x := MentionsComeFrom(lines, unstable, y);
      TargetIsShown(lines, x);
    }
  }

  /** Settled settings: arranging again changes nothing, whatever was requested. */
  lemma SettledIsFixed(lines: seq<Line>, values: seq<string>)
    requires Settled(lines)
    ensures Arranged(lines, Arranged(lines, values)) == Arranged(lines, values)
  {
    var slots := EnabledSlotIds(lines);
    var stable := StableThenUnstable(lines, values);
    var unstable := AddAll([], Pick(lines, slots, false));
    ShowsEverythingOnce(lines, values, SOURCE);
    assert NoDuplicates(stable) by {
      assert forall i :: 0 <= i < |stable| ==> stable[i] == (stable + unstable)[i];
    }
    var again := MentionsAgain(lines, stable, unstable);
    AddAgain(stable, again, slots);
    StableOnlyAddsUnstable(lines, stable, slots);
  }

  lemma AddAgain(stable: seq<string>, again: seq<string>, slots: seq<string>)
    requires NoDuplicates(stable) && SOURCE in stable && forall y :: y in again ==> y in stable
    ensures AddAll([], stable + again + [SOURCE] + slots) == AddAll(stable, slots)
  {
    AddDistinct(stable);
    AddKnown(stable, again);
    AddKnown(stable, [SOURCE]);
    AddAllJoins([], stable, again);
    AddAllJoins([], stable + again, [SOURCE]);
    AddAllJoins([], stable + again + [SOURCE], slots);
  }

  lemma StableOnlyAddsUnstable(lines: seq<Line>, stable: seq<string>, slots: seq<string>)
    requires AllStable(lines, stable) && forall x :: x in slots && Stable(lines, x) ==> x in stable
    ensures AddAll(stable, slots) == stable + AddAll([], Pick(lines, slots, false))
  {
    StableAreAddedFirst(lines, stable, slots);
    forall x | x in Pick(lines, slots, true)
      ensures x in stable
    {
      PickContents(lines, slots, true, x);
    }
    AddKnown(stable, Pick(lines, slots, true));
  }

  // ---- from items to lines ----

  function Wrap(xs: seq<string>): seq<Option<string>> {
    seq(|xs|, i requires 0 <= i < |xs| => Some(xs[i]))
  }

  predicate IsNormal(x: string) {
    Normal(Some(x)) == x
  }

  lemma NormalIsNormal(s: Option<string>)
    ensures IsNormal(Normal(s))
  {
    var trimmed := Trim(if s.Some? then s.value else "", RustSpace);
    forall c
      ensures RustSpace(LowerChar(c)) <==> RustSpace(c)
    {
      LowerKeepsSpace(c);
    }
    LowerKeepsTrimmed(trimmed, RustSpace);
    LowerIsIdempotent(trimmed);
  }

  lemma {:induction false} SlotsAreNormal(lines: seq<Line>, x: string)
    requires x in EnabledSlotIds(lines)
    ensures IsNormal(x)
  {
    var n := |lines| - 1;
    if x in EnabledSlotIds(lines[..n]) {
      SlotsAreNormal(lines[..n], x);
    } else {
      NormalIsNormal(lines[n].slotId);
    }
  }

  lemma LowerCaseName(name: string)
    requires name != "" && forall i :: 0 <= i < |name| ==> 'a' <= name[i] <= 'z'
    ensures Normal(Some(name)) == name
  {
    assert Trimmed(name, RustSpace);
    assert Lower(name) == name;
  }

  lemma SourceIsNormal()
    ensures IsNormal(SOURCE)
  {
    LowerCaseName(SOURCE);
  }

  /** What is shown is normal, so it is read as it is when it is requested again. */
  lemma ShownIsReadAsItIs(lines: seq<Line>, values: seq<string>)
    ensures Values(Wrap(Arranged(lines, values))) == Arranged(lines, values)
  {
    var r := Arranged(lines, values);
    forall i | 0 <= i < |r|
      ensures IsNormal(r[i])
    {
      ShowsEverythingOnce(lines, values, r[i]);
      SourceIsNormal();
      if r[i] != SOURCE {
        SlotsAreNormal(lines, r[i]);
      }
    }
  }

  // ---- where normalising again does change the order ----

  lemma AddAllFirst(xs: seq<string>)
    requires xs != []
    ensures AddAll([], xs) != [] && AddAll([], xs)[0] == xs[0]
  {
  }

  lemma OneMention(lines: seq<Line>, value: string)
    ensures Mentions(lines, [value]) == var t := Target(lines, value); if t.Some? then [t.value] else []
  {
  }

  lemma RequestedIsFirst(lines: seq<Line>, value: string, x: string) returns (rest: seq<string>)
    requires Target(lines, value) == Some(x) && x != SOURCE
    ensures Arranged(lines, [value]) == [x, SOURCE] + rest
  {
    var slots, front := EnabledSlotIds(lines), [x, SOURCE];
    OneMention(lines, value);
    InThreeParts([x], slots);
    AddOne([], x);
    assert AddOnce([x], SOURCE) == front;
    rest := RestAfter(front, slots);
  }

  lemma RestAfter(acc: seq<string>, xs: seq<string>) returns (rest: seq<string>)
    ensures AddAll(acc, xs) == acc + rest
  {
    AddAllContents(acc, xs, "");
    rest := AddAll(acc, xs)[|acc|..];
  }

  /** The first mention after an unstable slot and the source is something else than that slot. */
  lemma FirstMentionDiffers(lines: seq<Line>, x: string, rest: seq<string>) returns (first: string, more: seq<string>)
    requires !Stable(lines, x) && x != SOURCE
    ensures Mentions(lines, [x, SOURCE] + rest) == [first] + more && first != x
  {
    var front, tail := Mentions(lines, [x]), [SOURCE] + Mentions(lines, rest);
    assert [x, SOURCE] + rest == [x] + ([SOURCE] + rest);
    MentionsJoin(lines, [x], [SOURCE] + rest);
    MentionsJoin(lines, [SOURCE], rest);
    OneMention(lines, x);
    OneMention(lines, SOURCE);
    if front == [] {
      first, more := SOURCE, Mentions(lines, rest);
    } else {
      first, more := front[0], tail;
    }
  }

  lemma UnstableIsNotFirst(lines: seq<Line>, x: string, rest: seq<string>)
    requires !Stable(lines, x) && x != SOURCE
    ensures var again := Arranged(lines, [x, SOURCE] + rest); again != [] && again[0] != x
  {
    var first, more := FirstMentionDiffers(lines, x, rest);
    AddAllFirst([first] + more + [SOURCE] + EnabledSlotIds(lines));
  }

  /** A slot that is requested by another name, and not by its own, does not stay in front. */
  lemma RequestedUnstableMoves(lines: seq<Line>, value: string, x: string)
    requires Target(lines, value) == Some(x) && !Stable(lines, x)
    ensures Arranged(lines, Arranged(lines, [value])) != Arranged(lines, [value]) && IsNormal(value)
  {
    MappedSlotsAreEnabled(lines, value);
    var rest := RequestedIsFirst(lines, value, x);
    UnstableIsNotFirst(lines, x, rest);
  }

  lemma StableIsMentioned(lines: seq<Line>, xs: seq<string>, x: string)
    requires x in xs && Stable(lines, x)
    ensures x in Mentions(lines, xs)
  {
    var i := SplitsAt(xs, x);
    StableInTheMiddle(lines, xs[..i], x, xs[i + 1..]);
  }

  lemma StableInTheMiddle(lines: seq<Line>, a: seq<string>, x: string, b: seq<string>)
    requires Stable(lines, x)
    ensures x in Mentions(lines, a + [x] + b)
  {
    MentionsJoin(lines, a + [x], b);
    MentionsJoin(lines, a, [x]);
    OneMention(lines, x);
    InTheMiddle(Mentions(lines, a), x, Mentions(lines, b));
  }

  lemma PrefixesDiffer(r1: seq<string>, r2: seq<string>, p: seq<string>, q: seq<string>, s: string, c: string)
    requires p <= r1 && q <= r2 && c in p && s !in p && s in q && c !in q
    ensures r1 != r2
  {
  }

  /** Without a request, the front of the result is made of the source and the first slots. */
  lemma FrontOfUnrequested(lines: seq<Line>, n: nat) returns (front: seq<string>)
    requires n <= |EnabledSlotIds(lines)|
    ensures front <= Arranged(lines, [])
    ensures forall x :: x in front <==> x == SOURCE || x in EnabledSlotIds(lines)[..n]
  {
    var slots := EnabledSlotIds(lines);
    var early := [SOURCE] + slots[..n];
    assert [] + [SOURCE] + slots == early + slots[n..];
    AddAllJoins([], early, slots[n..]);
    front := AddAll([], early);
    AddAllContents(front, slots[n..], SOURCE);
    forall x
      ensures x in front <==> x == SOURCE || x in slots[..n]
    {
      AddAllContents([], early, x);
    }
  }

  /** When a result is requested again, its stable lines are mentioned; a slot that nothing stands for is not. */
  lemma MentionedAgain(lines: seq<Line>, r: seq<string>, s: string, c: string)
    requires c in r && Stable(lines, c) && forall value :: Target(lines, value) != Some(s)
    ensures var front := AddAll([], Mentions(lines, r)); front <= Arranged(lines, r) && c in front && s !in front
  {
    var mentions := Mentions(lines, r);
    StableIsMentioned(lines, r, c);
    if s in mentions {
      var value := MentionsComeFrom(lines, r, s);
    }
    RequestedComeFirst(lines, r);
    AddAllContents([], mentions, c);
    AddAllContents([], mentions, s);
  }

  /** An unstable slot before a stable one does not stay there. */
  lemma EarlyUnstableMoves(lines: seq<Line>, p: nat, q: nat)
    requires p < q < |EnabledSlotIds(lines)|
    requires var slots := EnabledSlotIds(lines);
      && !Stable(lines, slots[p]) && Stable(lines, slots[q]) && slots[q] != SOURCE && slots[q] !in slots[..p]
    requires forall value :: Target(lines, value) != Some(EnabledSlotIds(lines)[p])
    ensures Arranged(lines, Arranged(lines, [])) != Arranged(lines, [])
  {
    var s, c := EnabledSlotIds(lines)[p], EnabledSlotIds(lines)[q];
    var r := Arranged(lines, []);
    var front := FrontUpTo(lines, p, s, c);
    ShowsEverythingOnce(lines, [], c);
    MentionedAgain(lines, r, s, c);
    PrefixesDiffer(Arranged(lines, r), r, AddAll([], Mentions(lines, r)), front, s, c);
  }

  lemma FrontUpTo(lines: seq<Line>, p: nat, s: string, c: string) returns (front: seq<string>)
    requires p < |EnabledSlotIds(lines)| && s == EnabledSlotIds(lines)[p]
    requires c != s && c != SOURCE && c !in EnabledSlotIds(lines)[..p]
    ensures front <= Arranged(lines, []) && s in front && c !in front
  {
    var slots := EnabledSlotIds(lines);
    front := FrontOfUnrequested(lines, p + 1);
    assert slots[..p + 1] == slots[..p] + [s];
  }

  lemma UnsettledMoves(lines: seq<Line>) returns (values: seq<string>)
    requires !Settled(lines)
    ensures Arranged(lines, Arranged(lines, values)) != Arranged(lines, values)
    ensures forall i :: 0 <= i < |values| ==> IsNormal(values[i])
  {
    var slots := EnabledSlotIds(lines);
    if value, x :| x in slots && Target(lines, value) == Some(x) && !Stable(lines, x) {
      RequestedUnstableMoves(lines, value, x);
      values := [value];
    } else {
      var p, q :| 0 <= p < q < |slots| && !Stable(lines, slots[p]) && Stable(lines, slots[q])
        && slots[q] !in [SOURCE] && slots[q] !in slots[..p];
      EarlyUnstableMoves(lines, p, q);
      values := [];
    }
  }

  lemma ValuesOfWrap(xs: seq<string>)
    requires forall i :: 0 <= i < |xs| ==> IsNormal(xs[i])
    ensures Values(Wrap(xs)) == xs
  {
  }

  /** The normalised order is a fixed point for every request exactly if the settings are settled. */
  lemma FixedForAllIff(lines: seq<Line>)
    ensures (forall order :: Normalized(lines, Wrap(Normalized(lines, order))) == Normalized(lines, order)) <==> Settled(lines)
  {
    forall order
      ensures Normalized(lines, Wrap(Normalized(lines, order))) == Arranged(lines, Arranged(lines, Values(order)))
    {
      ShownIsReadAsItIs(lines, Values(order));
    }
    if Settled(lines) {
      forall order
        ensures Normalized(lines, Wrap(Normalized(lines, order))) == Normalized(lines, order)
      {
        SettledIsFixed(lines, Values(order));
      }
    } else {
      var values := UnsettledMoves(lines);
      ValuesOfWrap(values);
      assert Normalized(lines, Wrap(Normalized(lines, Wrap(values)))) != Normalized(lines, Wrap(values));
    }
  }

  /** Settings whose enabled slots all have canonical names are settled. */
  lemma CanonicalIsSettled(lines: seq<Line>)
    requires forall x :: x in EnabledSlotIds(lines) ==> x in CANONICAL_SLOT_IDS
    ensures Settled(lines)
  {
    forall x | x in EnabledSlotIds(lines)
      ensures Stable(lines, x)
    {
      assert "" !in CANONICAL_SLOT_IDS && SOURCE !in CANONICAL_SLOT_IDS;
    }
  }

  lemma CustomNames()
    ensures Normal(Some("custom")) == "custom" && Normal(Some("ja")) == "ja"
    ensures "custom" !in CANONICAL_SLOT_IDS && "ja" !in CANONICAL_SLOT_IDS
  {
    LowerCaseName("custom");
    LowerCaseName("ja");
  }

  lemma CustomTargets(lines: seq<Line>)
    requires lines == [Line(None, Some("custom"), Some("ja"))]
    ensures EnabledSlotIds(lines) == ["custom"]
    ensures Target(lines, "ja") == Some("custom") && Target(lines, "custom") == None && Target(lines, SOURCE) == Some(SOURCE)
  {
    CustomNames();
    assert lines[..0] == [];
    var pairs := Pairs(lines);
    assert pairs[0] == Some(Pair("ja", "custom")) && pairs[..0] == [];
    assert FirstSlots(pairs[..0]) == map[];
    assert LanguageToSlot(lines) == map["ja" := "custom"];
  }

  lemma CustomArrangement(lines: seq<Line>)
    requires lines == [Line(None, Some("custom"), Some("ja"))]
    ensures Arranged(lines, ["ja"]) == ["custom", SOURCE] && Arranged(lines, ["custom", SOURCE]) == [SOURCE, "custom"]
  {
    CustomTargets(lines);
    OneMention(lines, "ja");
    OneMention(lines, "custom");
    OneMention(lines, SOURCE);
    MentionsJoin(lines, ["custom"], [SOURCE]);
    assert ["custom"] + [SOURCE] == ["custom", SOURCE];
    InThreeParts(["custom"], ["custom"]);
    InThreeParts([SOURCE], ["custom"]);
    AddOne([], "custom");
    AddOne([], SOURCE);
    AddOne(["custom", SOURCE], "custom");
    AddOne([SOURCE], "custom");
  }

  lemma CustomIsUnsettled(lines: seq<Line>)
    requires lines == [Line(None, Some("custom"), Some("ja"))]
    ensures !Settled(lines)
  {
    CustomTargets(lines);
    assert "custom" in EnabledSlotIds(lines) && Target(lines, "ja") == Some("custom") && !Stable(lines, "custom");
  }

  lemma CustomRequest()
    ensures Values([Some("ja")]) == ["ja"]
  {
    CustomNames();
  }

  /** A slot with a name of its own, shown first when its language is requested, and last when that is normalised again. */
  lemma CustomSlotMoves()
    ensures var lines := [Line(None, Some("custom"), Some("ja"))];
      && !Settled(lines)
      && Normalized(lines, [Some("ja")]) == ["custom", SOURCE]
      && Normalized(lines, Wrap(["custom", SOURCE])) == [SOURCE, "custom"]
  {
    var lines := [Line(None, Some("custom"), Some("ja"))];
    CustomIsUnsettled(lines);
    CustomArrangement(lines);
    CustomRequest();
    ShownIsReadAsItIs(lines, ["ja"]);
  }

  // ---- which lines count ----

  /** A line that says that it is not enabled, or is no object, might as well not be there. */
  predicate Off(line: Line) {
    line.NotAnObject? || line.enabled == Some(false)
  }

  lemma {:induction false} SlotsJoin(front: seq<Line>, back: seq<Line>)
    ensures EnabledSlotIds(front + back) == EnabledSlotIds(front) + EnabledSlotIds(back)
    decreases |back|
  {
    if back == [] {
      assert front + [] == front;
    } else {
      var most, last := back[..|back| - 1], back[|back| - 1];
      assert back == most + [last];
      Associates(front, most, [last]);
      SlotsJoin(front, most);
      SlotsOfMore(front + most, last);
      SlotsOfMore(most, last);
      Associates(EnabledSlotIds(front), EnabledSlotIds(most), SlotOf(last));
    }
  }

  lemma SlotsWithout(front: seq<Line>, line: Line, back: seq<Line>)
    requires Off(line)
    ensures EnabledSlotIds(front + [line] + back) == EnabledSlotIds(front + back)
  {
    SlotsOfMore(front, line);
    SlotsJoin(front + [line], back);
    SlotsJoin(front, back);
  }

  lemma SlotsOfMore(lines: seq<Line>, last: Line)
    ensures EnabledSlotIds(lines + [last]) == EnabledSlotIds(lines) + SlotOf(last)
  {
    assert (lines + [last])[..|lines|] == lines;
  }

  lemma PairsOfMore(lines: seq<Line>, last: Line)
    ensures Pairs(lines + [last]) == Pairs(lines) + [PairOf(last)]
  {
  }

  lemma LanguagesOfMore(lines: seq<Line>, last: Line)
    ensures LanguageToSlot(lines + [last])
         == FirstSlots(Pairs(lines) + [PairOf(last)])
  {
    PairsOfMore(lines, last);
  }

  lemma FirstSlotsOfMore(pairs: seq<Option<Pair>>, last: Option<Pair>)
    ensures FirstSlots(pairs + [last])
         == if last.Some? && last.value.lang !in FirstSlots(pairs) then FirstSlots(pairs)[last.value.lang := last.value.slot]
            else FirstSlots(pairs)
  {
    assert (pairs + [last])[..|pairs|] == pairs;
  }

  lemma {:induction false} LanguagesWithout(front: seq<Line>, line: Line, back: seq<Line>)
    requires Off(line)
    ensures LanguageToSlot(front + [line] + back) == LanguageToSlot(front + back)
    decreases |back|
  {
    if back == [] {
      assert front + [line] + [] == front + [line] && front + [] == front;
      LanguagesOfMore(front, line);
      FirstSlotsOfMore(Pairs(front), PairOf(line));
    } else {
      var n := |back| - 1;
      var more, less := front + [line] + back[..n], front + back[..n];
      LanguagesWithout(front, line, back[..n]);
      assert front + [line] + back == more + [back[n]] && front + back == less + [back[n]];
      LanguagesOfMore(more, back[n]);
      LanguagesOfMore(less, back[n]);
      FirstSlotsOfMore(Pairs(more), PairOf(back[n]));
      FirstSlotsOfMore(Pairs(less), PairOf(back[n]));
    }
  }

  lemma SameTarget(lines: seq<Line>, others: seq<Line>, value: string)
    requires EnabledSlotIds(lines) == EnabledSlotIds(others) && LanguageToSlot(lines) == LanguageToSlot(others)
    ensures Target(lines, value) == Target(others, value)
  {
  }

  lemma {:induction false} SameMentions(lines: seq<Line>, others: seq<Line>, values: seq<string>)
    requires EnabledSlotIds(lines) == EnabledSlotIds(others) && LanguageToSlot(lines) == LanguageToSlot(others)
    ensures Mentions(lines, values) == Mentions(others, values)
  {
    if values != [] {
      SameMentions(lines, others, values[..|values| - 1]);
      SameTarget(lines, others, values[|values| - 1]);
    }
  }

  lemma SameOrder(lines: seq<Line>, others: seq<Line>, order: seq<Option<string>>)
    requires EnabledSlotIds(lines) == EnabledSlotIds(others) && LanguageToSlot(lines) == LanguageToSlot(others)
    ensures Normalized(lines, order) == Normalized(others, order)
  {
    SameMentions(lines, others, Values(order));
  }

  /** So it does not change the display order, whatever is requested. */
  lemma OffIsLeftOut(front: seq<Line>, line: Line, back: seq<Line>, order: seq<Option<string>>)
    requires Off(line)
    ensures Normalized(front + [line] + back, order) == Normalized(front + back, order)
  {
    SlotsWithout(front, line, back);
    LanguagesWithout(front, line, back);
    SameOrder(front + [line] + back, front + back, order);
  }

  /** A line that says nothing of it is enabled: its slot is shown. */
  lemma OthersAreShown(front: seq<Line>, line: Line, back: seq<Line>)
    requires line.Line? && line.enabled != Some(false) && Normal(line.slotId) != ""
    ensures Normal(line.slotId) in EnabledSlotIds(front + [line] + back)
  {
    var lines := front + [line] + back;
    assert lines[..|front| + 1] == front + [line];
    LastIsShown(front, line);
    SlotStays(lines, |front| + 1, Normal(line.slotId));
  }

  lemma LastIsShown(front: seq<Line>, line: Line)
    requires line.Line? && line.enabled != Some(false) && Normal(line.slotId) != ""
    ensures Normal(line.slotId) in EnabledSlotIds(front + [line])
  {
    assert line.enabled.Some? ==> line.enabled.value;
    SlotsOfMore(front, line);
    assert SlotOf(line)[0] == Normal(line.slotId);
    assert (EnabledSlotIds(front) + SlotOf(line))[|EnabledSlotIds(front)|] == Normal(line.slotId);
  }
}
