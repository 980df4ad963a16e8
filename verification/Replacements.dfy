/** The replacement list of the chat reader: one mapping per line, printed and parsed. */
module Replacements {
  import opened Results
  import opened Text

  // ---- splitting and joining ----

  predicate Occurs(s: string, sep: string, i: nat) {
    i + |sep| <= |s| && s[i..i + |sep|] == sep
  }

  /** The first place, from i on, where the separator occurs. */
  function IndexFrom(s: string, sep: string, i: nat): (r: Option<nat>)
    requires i <= |s|
    ensures r.Some? ==> i <= r.value && Occurs(s, sep, r.value) && forall j: nat :: i <= j < r.value ==> !Occurs(s, sep, j)
    ensures r.None? ==> forall j: nat :: i <= j ==> !Occurs(s, sep, j)
    decreases |s| - i
  {
    if Occurs(s, sep, i) then Some(i)
    else if i == |s| then None
    else IndexFrom(s, sep, i + 1)
  }

  function IndexOf(s: string, sep: string): Option<nat> {
    IndexFrom(s, sep, 0)
  }

  predicate Contains(s: string, sep: string) {
    IndexOf(s, sep).Some?
  }

  /** All the pieces between separators. */
  function Split(s: string, sep: string): (parts: seq<string>)
    requires sep != ""
    ensures parts != []
    ensures !Contains(s, sep) ==> parts == [s]
    decreases |s|
  {
    match IndexOf(s, sep)
    case None => [s]
    case Some(i) => [s[..i]] + Split(s[i + |sep|..], sep)
  }

  function Join(parts: seq<string>, sep: string): string {
    if parts == [] then ""
    else if |parts| == 1 then parts[0]
    else parts[0] + sep + Join(parts[1..], sep)
  }

  // ---- entries ----

  datatype Replacement = Replacement(from: string, to: string)

  const ARROW := "=>"

  function StripCarriageReturn(line: string): string {
    if line != "" && line[|line| - 1] == '\r' then line[..|line| - 1] else line
  }

  /** Lines end with a newline, with or without a carriage return before it. */
  function Lines(text: string): seq<string>
    decreases |text|
  {
    match IndexOf(text, "\n")
    case None => [text]
    case Some(i) => [StripCarriageReturn(text[..i])] + Lines(text[i + 1..])
  }

  /** What a line means: nothing for comments and for lines without two sides. */
  function ParseLine(rawLine: string): Option<Replacement> {
    var line := Trim(rawLine, JsSpace);
    if line == "" || line[0] == '#' then None
    else
      var split := if Contains(line, ARROW) then Split(line, ARROW) else Split(line, "=");
      if |split| < 2 then None
      else
        var from, to := Trim(split[0], JsSpace), Trim(Join(split[1..], "="), JsSpace);
        if from != "" && to != "" then Some(Replacement(from, to)) else None
  }

  /** The values that are there. */
  function Somes<T>(xs: seq<Option<T>>): seq<T> {
    if xs == [] then []
    else
      var before, last := Somes(xs[..|xs| - 1]), xs[|xs| - 1];
      if last.Some? then before + [last.value] else before
  }

  function Readings(lines: seq<string>): (rs: seq<Option<Replacement>>)
    ensures |rs| == |lines|
  {
    seq(|lines|, i requires 0 <= i < |lines| => ParseLine(lines[i]))
  }

  function Parse(text: string): seq<Replacement> {
    Somes(Readings(Lines(text)))
  }

  method ParseReplacementLines(text: string) returns (out: seq<Replacement>)
    ensures out == Parse(text)
  {
    out := [];
    var lines := Lines(text);
    ghost var readings := Readings(lines);
    assert readings[..0] == [];
    for i := 0 to |lines|
      invariant out == Somes(readings[..i])
    {
      assert readings[..i + 1][..i] == readings[..i] && readings[i] == ParseLine(lines[i]);
      var line := Trim(lines[i], JsSpace);
      if line == "" || line[0] == '#' {
        continue;
      }
      var split;
      if Contains(line, ARROW) {
        split := Split(line, ARROW);
      } else {
        split := Split(line, "=");
      }
      if |split| < 2 {
        continue;
      }
      var from, to := Trim(split[0], JsSpace), Trim(Join(split[1..], "="), JsSpace);
      if from != "" && to != "" {
        out := out + [Replacement(from, to)];
      }
    }
    assert readings[..|lines|] == readings;
  }

  function FormatLine(e: Replacement): string {
    e.from + " => " + e.to
  }

  function FormatLines(entries: seq<Replacement>): (lines: seq<string>)
    ensures |lines| == |entries|
  {
    seq(|entries|, i requires 0 <= i < |entries| => FormatLine(entries[i]))
  }

  function Format(entries: seq<Replacement>): string {
    Join(FormatLines(entries), "\n")
  }

  // ---- which entries come back ----

  predicate Side(s: string) {
    s != "" && Trimmed(s, JsSpace) && '\n' !in s && !Contains(s, ARROW)
  }

  /** Both sides have something on them, in one line and without an arrow, and the line is no comment. */
  predicate WellFormed(e: Replacement) {
    Side(e.from) && Side(e.to) && e.from[0] != '#'
  }

  lemma ArrowAt(s: string, i: nat)
    ensures Occurs(s, ARROW, i) <==> i + 1 < |s| && s[i] == '=' && s[i + 1] == '>'
  {
  }

  lemma ThreeParts(a: string, b: string, c: string)
    ensures (a + b + c)[..|a|] == a && (a + b + c)[|a| + |b|..] == c
  {
  }

  /** The first arrow of a printed line is the one that was printed. */
  lemma PrintedArrowIsFirst(e: Replacement)
    requires !Contains(e.from, ARROW)
    ensures var line := FormatLine(e);
      IndexOf(line, ARROW) == Some(|e.from| + 1)
      && line[..|e.from| + 1] == e.from + " " && line[|e.from| + 3..] == " " + e.to
  {
    var line, n := FormatLine(e), |e.from|;
    assert line == (e.from + " ") + ARROW + (" " + e.to);
    ThreeParts(e.from + " ", ARROW, " " + e.to);
    ArrowAt(line, n + 1);
    forall j: nat | j < n + 1
      ensures !Occurs(line, ARROW, j)
    {
      ArrowAt(line, j);
      ArrowAt(e.from, j);
    }
    assert Contains(line, ARROW);
  }

  /** What is left after an arrow has become an equals sign is shorter. */
  lemma {:induction false} JoinShortens(s: string)
    ensures |Join(Split(s, ARROW), "=")| <= |s|
    ensures Contains(s, ARROW) ==> |Join(Split(s, ARROW), "=")| < |s|
    ensures !Contains(s, ARROW) ==> Join(Split(s, ARROW), "=") == s
    decreases |s|
  {
    match IndexOf(s, ARROW)
    case None =>
    case Some(i) =>
      var rest := Split(s[i + 2..], ARROW);
      JoinShortens(s[i + 2..]);
      assert Split(s, ARROW)[1..] == rest;
  }

  lemma TrimAfterSpace(s: string)
    requires s != "" && s[0] == ' '
    ensures |Trim(s, JsSpace)| < |s|
  {
    TrimStartShortens(s[1..], JsSpace);
  }

  lemma TrimPadded(s: string)
    requires s != "" && Trimmed(s, JsSpace)
    ensures Trim(s + " ", JsSpace) == s && Trim(" " + s, JsSpace) == s
  {
    var after, before := s + " ", " " + s;
    assert after[0] == s[0] && after[..|after| - 1] == s;
    assert TrimEnd(after, JsSpace) == TrimEnd(s, JsSpace) == s;
    assert before[1..] == s && TrimStart(before, JsSpace) == TrimStart(s, JsSpace) == s;
  }

  /** A printed line is trimmed as it is, and no comment. */
  lemma PrintedLineIsTrimmed(e: Replacement)
    requires e.from != "" && Trimmed(e.from, JsSpace) && e.to != "" && Trimmed(e.to, JsSpace)
    ensures var line := FormatLine(e);
      line != "" && line[0] == e.from[0] && line[|line| - 1] == e.to[|e.to| - 1] && Trim(line, JsSpace) == line
  {
  }

  /** How a printed line is read where only the right side may have arrows. */
  lemma ReadPrinted(e: Replacement)
    requires e.from != "" && Trimmed(e.from, JsSpace) && e.to != "" && Trimmed(e.to, JsSpace)
    requires e.from[0] != '#' && !Contains(e.from, ARROW)
    ensures var to := Trim(Join(Split(" " + e.to, ARROW), "="), JsSpace);
      ParseLine(FormatLine(e)) == if to == "" then None else Some(Replacement(e.from, to))
  {
    var line := FormatLine(e);
    PrintedLineIsTrimmed(e);
    PrintedArrowIsFirst(e);
    TrimPadded(e.from);
    var split := Split(line, ARROW);
    assert split[0] == e.from + " " && split[1..] == Split(" " + e.to, ARROW);
  }

  /** An arrow after a space is an arrow of the rest. */
  lemma ArrowAfterSpace(s: string)
    ensures Contains(" " + s, ARROW) <==> Contains(s, ARROW)
  {
    var t := " " + s;
    forall j: nat
      ensures Occurs(s, ARROW, j) <==> Occurs(t, ARROW, j + 1)
    {
      ArrowAt(s, j);
      ArrowAt(t, j + 1);
    }
    ArrowAt(t, 0);
    if Contains(t, ARROW) {
      var i := IndexOf(t, ARROW).value;
      assert Occurs(s, ARROW, i - 1);
    }
  }

  /** A printed line comes back exactly if its right side has no arrow. */
  lemma LineRoundTrip(e: Replacement)
    requires e.from != "" && Trimmed(e.from, JsSpace) && e.to != "" && Trimmed(e.to, JsSpace)
    requires e.from[0] != '#' && !Contains(e.from, ARROW)
    ensures ParseLine(FormatLine(e)) == Some(e) <==> !Contains(e.to, ARROW)
  {
    var right := " " + e.to;
    var joined := Join(Split(right, ARROW), "=");
    ReadPrinted(e);
    JoinShortens(right);
    ArrowAfterSpace(e.to);
    if Contains(e.to, ARROW) {
      SplitStart(right);
      TrimAfterSpace(joined);
    } else {
      TrimPadded(e.to);
    }
  }

  /** The first piece starts as the whole does. */
  lemma SplitStart(s: string)
    requires s != "" && s[0] == ' '
    ensures var joined := Join(Split(s, ARROW), "="); joined != "" && joined[0] == ' '
  {
  }

  // ---- what parsing can give ----

  /** Every entry that parsing gives is like this. */
  predicate Readable(e: Replacement) {
    && e.from != "" && Trimmed(e.from, JsSpace) && '\n' !in e.from && !Contains(e.from, ARROW) && e.from[0] != '#'
    && e.to != "" && Trimmed(e.to, JsSpace) && '\n' !in e.to
  }

  /** Trimming gives a stretch of the text. */
  lemma {:induction false} TrimStartIsSuffix(s: string) returns (k: nat)
    ensures k <= |s| && TrimStart(s, JsSpace) == s[k..]
  {
    k := 0;
    if s != "" && JsSpace(s[0]) {
      k := TrimStartIsSuffix(s[1..]);
      k := k + 1;
    }
  }

  /** A stretch of a text has no characters and no arrows that the text does not have. */
  lemma TrimTakesFrom(s: string)
    ensures '\n' !in s ==> '\n' !in Trim(s, JsSpace)
    ensures !Contains(s, ARROW) ==> !Contains(Trim(s, JsSpace), ARROW)
  {
    var k := TrimStartIsSuffix(s);
    var t := Trim(s, JsSpace);
    assert t <= s[k..];
    assert forall j :: 0 <= j < |t| ==> t[j] == s[k + j];
    forall j: nat | Occurs(t, ARROW, j)
      ensures Occurs(s, ARROW, k + j)
    {
      ArrowAt(t, j);
      ArrowAt(s, k + j);
    }
  }

  predicate InOneLine(parts: seq<string>) {
    forall k :: 0 <= k < |parts| ==> '\n' !in parts[k]
  }

  lemma TakesFrom(s: string, i: nat, j: nat)
    requires i <= |s| && j <= |s| && '\n' !in s
    ensures '\n' !in s[..i] && '\n' !in s[j..]
  {
  }

  lemma OneMorePiece(first: string, rest: seq<string>)
    requires '\n' !in first && InOneLine(rest)
    ensures InOneLine([first] + rest)
  {
  }

  lemma SplitAt(s: string, sep: string, i: nat)
    requires sep != "" && i + |sep| <= |s| && IndexOf(s, sep) == Some(i)
    ensures Split(s, sep) == [s[..i]] + Split(s[i + |sep|..], sep)
  {
  }

  lemma {:induction false} PiecesTakeFrom(s: string, sep: string)
    requires sep != "" && '\n' !in s
    ensures InOneLine(Split(s, sep))
    decreases |s|
  {
    match IndexOf(s, sep)
    case None =>
      assert Split(s, sep) == [s];
    case Some(i) =>
      TakesFrom(s, i, i + |sep|);
      SplitAt(s, sep, i);
      PiecesTakeFrom(s[i + |sep|..], sep);
      OneMorePiece(s[..i], Split(s[i + |sep|..], sep));
  }

  lemma {:induction false} JoinTakesFrom(parts: seq<string>, sep: string)
    requires '\n' !in sep && InOneLine(parts)
    ensures '\n' !in Join(parts, sep)
  {
    if |parts| > 1 {
      JoinTakesFrom(parts[1..], sep);
    }
  }

  /** The first piece has no arrow, and starts as the line does. */
  lemma FirstPiece(line: string, sep: string)
    requires (sep == ARROW && Contains(line, sep)) || (sep == "=" && !Contains(line, ARROW))
    ensures Split(line, sep)[0] <= line && !Contains(Split(line, sep)[0], ARROW)
  {
    var piece := Split(line, sep)[0];
    forall j: nat
      ensures !Occurs(piece, ARROW, j)
    {
      ArrowAt(piece, j);
      ArrowAt(line, j);
    }
  }

  lemma TrimKeepsStart(s: string)
    requires s != "" && !JsSpace(s[0])
    ensures Trim(s, JsSpace) != "" ==> Trim(s, JsSpace)[0] == s[0]
  {
  }

  lemma LineGivesReadable(rawLine: string)
    requires '\n' !in rawLine
    ensures ParseLine(rawLine).Some? ==> Readable(ParseLine(rawLine).value)
  {
    var line := Trim(rawLine, JsSpace);
    TrimTakesFrom(rawLine);
    if line != "" && line[0] != '#' {
      var sep := if Contains(line, ARROW) then ARROW else "=";
      var split := Split(line, sep);
      FirstPiece(line, sep);
      PiecesTakeFrom(line, sep);
      TrimTakesFrom(split[0]);
      if |split| >= 2 {
        JoinTakesFrom(split[1..], "=");
        TrimTakesFrom(Join(split[1..], "="));
        if split[0] != "" {
          TrimKeepsStart(split[0]);
        }
      }
    }
  }

  lemma NewlineAt(s: string, i: nat)
    ensures Occurs(s, "\n", i) <==> i < |s| && s[i] == '\n'
  {
  }

  lemma {:induction false} LinesHaveNoNewline(text: string)
    ensures forall k :: 0 <= k < |Lines(text)| ==> '\n' !in Lines(text)[k]
    decreases |text|
  {
    forall i: nat
      ensures Occurs(text, "\n", i) <==> i < |text| && text[i] == '\n'
    {
      NewlineAt(text, i);
    }
    match IndexOf(text, "\n")
    case None =>
    case Some(i) =>
      LinesHaveNoNewline(text[i + 1..]);
      assert forall k :: 0 <= k < i ==> !Occurs(text, "\n", k);
  }

  /** Every value there is comes from somewhere. */
  lemma {:induction false} SomesComeFrom<T>(xs: seq<Option<T>>, k: nat) returns (i: nat)
    requires k < |Somes(xs)|
    ensures i < |xs| && xs[i] == Some(Somes(xs)[k])
  {
    var n := |xs| - 1;
    if k < |Somes(xs[..n])| {
      i := SomesComeFrom(xs[..n], k);
    } else {
      i := n;
    }
  }

  lemma AllReadable(text: string)
    ensures forall k :: 0 <= k < |Parse(text)| ==> Readable(Parse(text)[k])
  {
    var lines := Lines(text);
    LinesHaveNoNewline(text);
    forall k | 0 <= k < |Parse(text)|
      ensures Readable(Parse(text)[k])
    {
      var i := SomesComeFrom(Readings(lines), k);
      LineGivesReadable(lines[i]);
    }
  }

  // ---- lists ----

  lemma FirstNewline(a: string, b: string)
    requires '\n' !in a
    ensures IndexOf(a + "\n" + b, "\n") == Some(|a|)
    ensures (a + "\n" + b)[..|a|] == a && (a + "\n" + b)[|a| + 1..] == b
  {
    var text := a + "\n" + b;
    ThreeParts(a, "\n", b);
    NewlineAt(text, |a|);
    forall j: nat | j < |a|
      ensures !Occurs(text, "\n", j)
    {
      NewlineAt(text, j);
      assert text[j] == a[j];
    }
    assert Contains(text, "\n");
  }

  lemma NoNewline(a: string)
    requires '\n' !in a
    ensures IndexOf(a, "\n") == None
  {
    forall j: nat
      ensures !Occurs(a, "\n", j)
    {
      NewlineAt(a, j);
    }
  }

  predicate PlainLine(line: string) {
    '\n' !in line && (line != "" ==> line[|line| - 1] != '\r')
  }

  /** Lines that are joined come apart again. */
  lemma {:induction false} LinesJoined(lines: seq<string>)
    requires lines != [] && forall k :: 0 <= k < |lines| ==> PlainLine(lines[k])
    ensures Lines(Join(lines, "\n")) == lines
  {
    if |lines| == 1 {
      NoNewline(lines[0]);
    } else {
      FirstNewline(lines[0], Join(lines[1..], "\n"));
      assert PlainLine(lines[0]) && StripCarriageReturn(lines[0]) == lines[0];
      LinesJoined(lines[1..]);
    }
  }

  /** Nothing is missing, and these are the values. */
  ghost predicate Aligned<T>(xs: seq<Option<T>>, ys: seq<T>) {
    |xs| == |ys| && forall k :: 0 <= k < |xs| ==> xs[k] == Some(ys[k])
  }

  lemma {:induction false} SomesOfAll<T>(xs: seq<Option<T>>, ys: seq<T>)
    requires Aligned(xs, ys)
    ensures Somes(xs) == ys
  {
    if xs != [] {
      var n := |xs| - 1;
      SomesOfAll(xs[..n], ys[..n]);
      assert ys == ys[..n] + [ys[n]];
    }
  }

  lemma {:induction false} SomesAreNoMore<T>(xs: seq<Option<T>>)
    ensures |Somes(xs)| <= |xs|
  {
    if xs != [] {
      SomesAreNoMore(xs[..|xs| - 1]);
    }
  }

  /** As many values as places: then every place has one. */
  lemma {:induction false} SomesFull<T>(xs: seq<Option<T>>)
    requires |Somes(xs)| == |xs|
    ensures Aligned(xs, Somes(xs))
  {
    if xs != [] {
      var n := |xs| - 1;
      SomesAreNoMore(xs[..n]);
      SomesFull(xs[..n]);
    }
  }

  lemma PrintedLinesComeApart(entries: seq<Replacement>)
    requires entries != [] && forall k :: 0 <= k < |entries| ==> Readable(entries[k])
    ensures Lines(Format(entries)) == FormatLines(entries)
  {
    var lines := FormatLines(entries);
    forall k | 0 <= k < |lines|
      ensures '\n' !in lines[k] && lines[k] != "" && lines[k][|lines[k]| - 1] != '\n'
    {
      PrintedLineIsTrimmed(entries[k]);
    }
    LinesJoined(lines);
  }

  lemma EmptyRoundTrip()
    ensures Parse(Format([])) == []
  {
  }

  ghost predicate Arrowless(entries: seq<Replacement>) {
    forall k :: 0 <= k < |entries| ==> !Contains(entries[k].to, ARROW)
  }

  lemma LinesRoundTrip(entries: seq<Replacement>)
    requires forall k :: 0 <= k < |entries| ==> Readable(entries[k])
    ensures Aligned(Readings(FormatLines(entries)), entries) <==> Arrowless(entries)
  {
    var readings := Readings(FormatLines(entries));
    forall k | 0 <= k < |entries|
      ensures readings[k] == Some(entries[k]) <==> !Contains(entries[k].to, ARROW)
    {
      LineRoundTrip(entries[k]);
    }
  }

  /** Readable entries come back exactly if none has an arrow on its right side. */
  lemma PrintedBack(entries: seq<Replacement>)
    requires forall k :: 0 <= k < |entries| ==> Readable(entries[k])
    ensures Parse(Format(entries)) == entries <==> Arrowless(entries)
  {
    if entries == [] {
      EmptyRoundTrip();
    } else {
      var readings := Readings(FormatLines(entries));
      PrintedLinesComeApart(entries);
      LinesRoundTrip(entries);
      if Somes(readings) == entries {
        SomesFull(readings);
      } else if Arrowless(entries) {
        SomesOfAll(readings, entries);
      }
    }
  }

  /** Parsing a printed list gives it back exactly if all its entries are well formed. */
  lemma RoundTripIff(entries: seq<Replacement>)
    ensures Parse(Format(entries)) == entries <==> forall k :: 0 <= k < |entries| ==> WellFormed(entries[k])
  {
    if Parse(Format(entries)) == entries {
      AllReadable(Format(entries));
      assert forall k :: 0 <= k < |entries| ==> Readable(entries[k]);
      PrintedBack(entries);
    } else if forall k :: 0 <= k < |entries| ==> WellFormed(entries[k]) {
      assert forall k :: 0 <= k < |entries| ==> WellFormed(entries[k]) && Readable(entries[k]);
      PrintedBack(entries);
    }
  }

  // ---- which texts survive printing ----

  predicate ArrowHere(s: string, i: nat) {
    i + 1 < |s| && s[i] == '=' && s[i + 1] == '>'
  }

  /** An arrow with a second tip. */
  predicate DoubleHere(s: string, i: nat) {
    ArrowHere(s, i) && i + 2 < |s| && s[i + 2] == '>'
  }

  ghost predicate HasArrow(s: string) { exists i: nat :: ArrowHere(s, i) }
  ghost predicate HasDouble(s: string) { exists i: nat :: DoubleHere(s, i) }

  /** A line with an arrow with a second tip after its first arrow. */
  ghost predicate DoubleAfterArrow(line: string) {
    exists i: nat, j: nat :: i < j && ArrowHere(line, i) && DoubleHere(line, j)
  }

  lemma ContainsArrow(s: string)
    ensures Contains(s, ARROW) <==> HasArrow(s)
  {
    forall j: nat
      ensures Occurs(s, ARROW, j) <==> ArrowHere(s, j)
    {
      ArrowAt(s, j);
    }
  }

  lemma FirstArrow(s: string, i: nat)
    requires IndexOf(s, ARROW) == Some(i)
    ensures ArrowHere(s, i) && forall k: nat :: k < i ==> !ArrowHere(s, k)
  {
    forall j: nat
      ensures Occurs(s, ARROW, j) <==> ArrowHere(s, j)
    {
      ArrowAt(s, j);
    }
  }

  lemma {:induction false} TrimStartKeepsArrow(s: string)
    ensures HasArrow(TrimStart(s, JsSpace)) <==> HasArrow(s)
  {
    if s != "" && JsSpace(s[0]) {
      TrimStartKeepsArrow(s[1..]);
      forall i: nat
        ensures ArrowHere(s[1..], i) <==> ArrowHere(s, i + 1)
      {
      }
      assert !ArrowHere(s, 0);
      if HasArrow(s) {
        var i: nat :| ArrowHere(s, i);
        assert ArrowHere(s[1..], i - 1);
      }
    }
  }

  lemma {:induction false} TrimEndKeepsArrow(s: string)
    ensures HasArrow(TrimEnd(s, JsSpace)) <==> HasArrow(s)
  {
    if s != "" && JsSpace(s[|s| - 1]) {
      var t := s[..|s| - 1];
      TrimEndKeepsArrow(t);
      forall i: nat
        ensures ArrowHere(t, i) <==> ArrowHere(s, i)
      {
      }
    }
  }

  lemma TrimKeepsArrow(s: string)
    ensures HasArrow(Trim(s, JsSpace)) <==> HasArrow(s)
  {
    TrimStartKeepsArrow(s);
    TrimEndKeepsArrow(TrimStart(s, JsSpace));
  }

  /** Where the first arrow becomes an equals sign, one can only appear at that sign or after it. */
  lemma ArrowAfterSign(front: string, back: string)
    requires forall k: nat :: !ArrowHere(front, k)
    ensures HasArrow(front + "=" + back) <==> (back != "" && back[0] == '>') || HasArrow(back)
  {
    var s, n := front + "=" + back, |front|;
    forall k: nat
      ensures ArrowHere(s, n + 1 + k) <==> ArrowHere(back, k)
      ensures k < n ==> !ArrowHere(s, k)
    {
      assert k + 1 < n ==> (ArrowHere(s, k) <==> ArrowHere(front, k));
    }
    assert ArrowHere(s, n) <==> back != "" && back[0] == '>';
    if HasArrow(s) {
      var k: nat :| ArrowHere(s, k);
      if k > n {
        assert ArrowHere(back, k - n - 1);
      }
    }
    if HasArrow(back) {
      var k: nat :| ArrowHere(back, k);
      assert ArrowHere(s, n + 1 + k);
    }
  }

  lemma DoubleFromArrow(s: string, i: nat)
    requires ArrowHere(s, i) && forall k: nat :: k < i ==> !ArrowHere(s, k)
    ensures HasDouble(s) <==> (i + 2 < |s| && s[i + 2] == '>') || HasDouble(s[i + 2..])
    ensures DoubleAfterArrow(s) <==> HasDouble(s[i + 2..])
  {
    var rest := s[i + 2..];
    forall k: nat
      ensures DoubleHere(rest, k) <==> DoubleHere(s, i + 2 + k)
    {
    }
    assert DoubleHere(s, i) <==> i + 2 < |s| && s[i + 2] == '>';
    if HasDouble(s) {
      var k: nat :| DoubleHere(s, k);
      assert k >= i;
      if k > i {
        assert DoubleHere(rest, k - i - 2);
      }
    }
    if DoubleAfterArrow(s) {
      var a: nat, b: nat :| a < b && ArrowHere(s, a) && DoubleHere(s, b);
      assert DoubleHere(rest, b - i - 2);
    }
    if HasDouble(rest) {
      var k: nat :| DoubleHere(rest, k);
      assert ArrowHere(s, i) && DoubleHere(s, i + 2 + k);
    }
  }

  /** The arrows of a text as equals signs. */
  function Unarrowed(s: string): string {
    Join(Split(s, ARROW), "=")
  }

  lemma UnarrowedAt(s: string, i: nat)
    requires i + 2 <= |s| && IndexOf(s, ARROW) == Some(i)
    ensures Unarrowed(s) == s[..i] + "=" + Unarrowed(s[i + 2..])
  {
    SplitAt(s, ARROW, i);
    JoinFirst(s[..i], Split(s[i + 2..], ARROW), "=");
  }

  lemma JoinFirst(first: string, rest: seq<string>, sep: string)
    requires rest != []
    ensures Join([first] + rest, sep) == first + sep + Join(rest, sep)
  {
    assert ([first] + rest)[1..] == rest;
  }

  /** It has arrows exactly if the text had one with a second tip. It starts with a tip where the text does. */
  lemma {:induction false} UnarrowedHasArrow(s: string)
    ensures HasArrow(Unarrowed(s)) <==> HasDouble(s)
    ensures Unarrowed(s) != "" && Unarrowed(s)[0] == '>' <==> s != "" && s[0] == '>'
    decreases |s|
  {
    ContainsArrow(s);
    match IndexOf(s, ARROW)
    case None =>
      JoinShortens(s);
      assert Unarrowed(s) == s;
      assert forall k: nat :: !ArrowHere(s, k);
    case Some(i) =>
      FirstArrow(s, i);
      UnarrowedAt(s, i);
      UnarrowedHasArrow(s[i + 2..]);
      assert forall k: nat :: ArrowHere(s[..i], k) ==> ArrowHere(s, k);
      ArrowAfterSign(s[..i], Unarrowed(s[i + 2..]));
      DoubleFromArrow(s, i);
      assert Unarrowed(s)[0] == s[0];
  }

  lemma CutAtEquals(s: string, i: nat)
    requires IndexOf(s, "=") == Some(i)
    ensures i < |s| && s == s[..i] + "=" + s[i + 1..]
  {
    assert Occurs(s, "=", i);
  }

  /** Splitting and joining with the same sign gives the text back. */
  lemma {:induction false} SplitJoined(s: string)
    ensures Join(Split(s, "="), "=") == s
    decreases |s|
  {
    match IndexOf(s, "=")
    case None =>
    case Some(i) =>
      CutAtEquals(s, i);
      SplitAt(s, "=", i);
      SplitJoined(s[i + 1..]);
      JoinFirst(s[..i], Split(s[i + 1..], "="), "=");
  }

  /** A line without an arrow gives a right side without one. */
  lemma PlainSide(line: string)
    requires !HasArrow(line) && |Split(line, "=")| >= 2
    ensures !HasArrow(Join(Split(line, "=")[1..], "="))
  {
    var i := IndexOf(line, "=").value;
    CutAtEquals(line, i);
    SplitAt(line, "=", i);
    var right := line[i + 1..];
    SplitJoined(right);
    assert Split(line, "=")[1..] == Split(right, "=");
    assert forall k: nat :: ArrowHere(right, k) ==> ArrowHere(line, i + 1 + k);
  }

  lemma ArrowSide(line: string)
    requires HasArrow(line)
    ensures HasArrow(Join(Split(line, ARROW)[1..], "=")) <==> DoubleAfterArrow(line)
  {
    ContainsArrow(line);
    var i := IndexOf(line, ARROW).value;
    FirstArrow(line, i);
    SplitAt(line, ARROW, i);
    assert Split(line, ARROW)[1..] == Split(line[i + 2..], ARROW);
    UnarrowedHasArrow(line[i + 2..]);
    DoubleFromArrow(line, i);
  }

  /** The right side of an entry has an arrow exactly if its line has one with a second tip after its first. */
  lemma ArrowOfLine(rawLine: string)
    requires ParseLine(rawLine).Some?
    ensures Contains(ParseLine(rawLine).value.to, ARROW) <==> DoubleAfterArrow(Trim(rawLine, JsSpace))
  {
    var line := Trim(rawLine, JsSpace);
    ContainsArrow(line);
    ContainsArrow(ParseLine(rawLine).value.to);
    if Contains(line, ARROW) {
      TrimKeepsArrow(Join(Split(line, ARROW)[1..], "="));
      ArrowSide(line);
    } else {
      TrimKeepsArrow(Join(Split(line, "=")[1..], "="));
      PlainSide(line);
    }
  }

  /** No line that gives an entry has an arrow with a second tip after its first arrow. */
  ghost predicate Survives(text: string) {
    forall i :: 0 <= i < |Lines(text)| && ParseLine(Lines(text)[i]).Some? ==> !DoubleAfterArrow(Trim(Lines(text)[i], JsSpace))
  }

  lemma {:induction false} ValuesAmongSomes<T>(xs: seq<Option<T>>, i: nat) returns (k: nat)
    requires i < |xs| && xs[i].Some?
    ensures k < |Somes(xs)| && Somes(xs)[k] == xs[i].value
  {
    var n := |xs| - 1;
    if i < n {
      k := ValuesAmongSomes(xs[..n], i);
    } else {
      k := |Somes(xs)| - 1;
    }
  }

  lemma ArrowlessIff(text: string)
    ensures Arrowless(Parse(text)) <==> Survives(text)
  {
    var lines := Lines(text);
    var readings := Readings(lines);
    if Survives(text) {
      forall k | 0 <= k < |Parse(text)|
        ensures !Contains(Parse(text)[k].to, ARROW)
      {
        var i := SomesComeFrom(readings, k);
        ArrowOfLine(lines[i]);
      }
    }
    if Arrowless(Parse(text)) {
      forall i | 0 <= i < |lines| && ParseLine(lines[i]).Some?
        ensures !DoubleAfterArrow(Trim(lines[i], JsSpace))
      {
        var k := ValuesAmongSomes(readings, i);
        ArrowOfLine(lines[i]);
      }
    }
  }

  /**
   * What was parsed survives printing and parsing exactly if no right side has an arrow in it, which is so exactly
   * if no line that gives an entry has an arrow with a second tip after its first arrow.
   */
  lemma ReparseIff(text: string)
    ensures Parse(Format(Parse(text))) == Parse(text) <==> Survives(text)
    ensures Survives(text) <==> Arrowless(Parse(text))
  {
    AllReadable(text);
    PrintedBack(Parse(text));
    ArrowlessIff(text);
  }

  /** One arrow with a second tip between two plain sides. */
  lemma ArrowInTheMiddle(x: string, y: string)
    requires Side(x) && Side(y)
    ensures Split(" " + x + " =>> " + y, ARROW) == [" " + x + " ", "> " + y]
  {
    var text, i, rest := " " + x + " =>> " + y, |x| + 2, "> " + y;
    assert text == " " + x + " " + ARROW + rest;
    ThreeParts(" " + x + " ", ARROW, rest);
    ArrowAt(text, i);
    forall j: nat
      ensures j < i ==> !Occurs(text, ARROW, j)
      ensures !Occurs(rest, ARROW, j)
    {
      ArrowAt(text, j);
      ArrowAt(rest, j);
      if 1 <= j {
        ArrowAt(x, j - 1);
      }
      if 2 <= j {
        ArrowAt(y, j - 2);
      }
    }
    assert Split(rest, ARROW) == [rest];
  }

  lemma SomesOfOne<T>(x: Option<T>)
    ensures Somes([x]) == if x.Some? then [x.value] else []
  {
    assert [x][..0] == [];
  }

  lemma ParseOneLine(text: string)
    requires '\n' !in text
    ensures Parse(text) == if ParseLine(text).Some? then [ParseLine(text).value] else []
  {
    NoNewline(text);
    assert Lines(text) == [text];
    assert Readings([text]) == [ParseLine(text)];
    SomesOfOne(ParseLine(text));
  }

  /** One arrow on the right side becomes an equals sign. */
  lemma ReadOneArrow(e: Replacement, left: string, right: string, to: string)
    requires e.from != "" && Trimmed(e.from, JsSpace) && e.to != "" && Trimmed(e.to, JsSpace)
    requires e.from[0] != '#' && !Contains(e.from, ARROW)
    requires Split(" " + e.to, ARROW) == [left, right] && left + "=" + right == " " + to
    requires to != "" && Trimmed(to, JsSpace)
    ensures ParseLine(FormatLine(e)) == Some(Replacement(e.from, to))
  {
    ReadPrinted(e);
    assert Join([left, right], "=") == left + "=" + right;
    TrimPadded(to);
  }

  lemma SideBySide(x: string, link: string, y: string)
    requires Side(x) && Side(y)
    ensures x + link + y != "" && Trimmed(x + link + y, JsSpace)
  {
  }

  lemma AfterSpace(x: string, middle: string, y: string)
    ensures " " + (x + middle + y) == " " + x + middle + y
  {
  }

  lemma ArrowParts(x: string, y: string)
    ensures " " + x + " " + "=" + ("> " + y) == " " + (x + " => " + y)
  {
  }

  lemma ReadMiddle(from: string, x: string, y: string)
    requires Side(from) && from[0] != '#' && Side(x) && Side(y)
    ensures ParseLine(FormatLine(Replacement(from, x + " =>> " + y))) == Some(Replacement(from, x + " => " + y))
  {
    var e, to := Replacement(from, x + " =>> " + y), x + " => " + y;
    SideBySide(x, " =>> ", y);
    SideBySide(x, " => ", y);
    ArrowInTheMiddle(x, y);
    AfterSpace(x, " =>> ", y);
    ArrowParts(x, y);
    ReadOneArrow(e, " " + x + " ", "> " + y, to);
  }

  lemma ArrowNotReturned(e: Replacement)
    requires Readable(e) && Contains(e.to, ARROW)
    ensures Parse(Format([e])) != [e]
  {
    assert Contains([e][0].to, ARROW);
    PrintedBack([e]);
  }

  lemma MiddleHasArrow(x: string, y: string)
    ensures Contains(x + " => " + y, ARROW)
  {
    ArrowAt(x + " => " + y, |x| + 1);
  }

  /** A line whose right side gets an arrow by being read, and loses it by being printed and read again. */
  lemma ArrowIsLost(from: string, x: string, y: string)
    requires Side(from) && from[0] != '#' && Side(x) && Side(y)
    ensures var entry := Replacement(from, x + " => " + y);
      && Parse(FormatLine(Replacement(from, x + " =>> " + y))) == [entry]
      && Parse(Format([entry])) != [entry]
  {
    var line := FormatLine(Replacement(from, x + " =>> " + y));
    ReadMiddle(from, x, y);
    LineGivesReadable(line);
    ParseOneLine(line);
    MiddleHasArrow(x, y);
    ArrowNotReturned(Replacement(from, x + " => " + y));
  }

  lemma Letter(s: string)
    requires |s| == 1 && 'a' <= s[0] <= 'z'
    ensures Side(s) && s[0] != '#'
  {
    forall j: nat
      ensures !Occurs(s, ARROW, j)
    {
      ArrowAt(s, j);
    }
  }

  lemma LostArrowParts(text: string, entry: Replacement) returns (a: string, b: string, c: string)
    requires text == "a => b =>> c" && entry == Replacement("a", "b => c")
    ensures |a| == |b| == |c| == 1 && 'a' <= a[0] <= 'z' && 'a' <= b[0] <= 'z' && 'a' <= c[0] <= 'z'
    ensures text == a + " => " + (b + " =>> " + c) && entry.from == a && entry.to == b + " => " + c
  {
    a, b, c := text[..1], text[5..6], text[11..];
  }

  /** Such a line. */
  lemma LostArrow(text: string, entry: Replacement)
    requires text == "a => b =>> c" && entry == Replacement("a", "b => c")
    ensures Parse(text) == [entry] && Parse(Format([entry])) != [entry]
  {
    var a, b, c := LostArrowParts(text, entry);
    Letter(a);
    Letter(b);
    Letter(c);
    ArrowIsLost(a, b, c);
  }

  // ---- what lines mean ----

  lemma FirstEquals(from: string, to: string)
    requires '=' !in from
    ensures IndexOf(from + " = " + to, "=") == Some(|from| + 1)
    ensures (from + " = " + to)[..|from| + 1] == from + " " && (from + " = " + to)[|from| + 2..] == " " + to
  {
    var line, n := from + " = " + to, |from| + 1;
    assert line == (from + " ") + "=" + (" " + to);
    EqualsAt(line, n);
    forall j: nat | j < n
      ensures !Occurs(line, "=", j)
    {
      EqualsAt(line, j);
      assert line[j] == (from + " ")[j];
    }
    assert Contains(line, "=");
  }

  lemma EqualsAt(s: string, i: nat)
    ensures Occurs(s, "=", i) <==> i < |s| && s[i] == '='
  {
    if i < |s| {
      assert s[i..i + 1] == [s[i]];
    }
  }

  lemma NoArrowAround(from: string, to: string)
    requires '=' !in from && !HasArrow(to)
    ensures !HasArrow(from + " = " + to)
  {
    var line, n := from + " = " + to, |from| + 3;
    assert forall i: nat :: i < |from| ==> line[i] == from[i];
    forall k: nat
      ensures !ArrowHere(line, k)
    {
      assert k >= n ==> (ArrowHere(line, k) <==> ArrowHere(to, k - n));
    }
  }

  /** A line with an equals sign, and no arrow, goes from what is before the first one to everything after it. */
  lemma EqualsLine(from: string, to: string)
    requires from != "" && Trimmed(from, JsSpace) && '=' !in from && from[0] != '#'
    requires to != "" && Trimmed(to, JsSpace) && !HasArrow(to)
    ensures ParseLine(from + " = " + to) == Some(Replacement(from, to))
  {
    var line := from + " = " + to;
    NoArrowAround(from, to);
    ContainsArrow(line);
    FirstEquals(from, to);
    SplitAt(line, "=", |from| + 1);
    SplitJoined(" " + to);
    TrimPadded(from);
    TrimPadded(to);
    var parts := Split(" " + to, "=");
    EqualsLineRead(line, from, to, parts);
  }

  lemma EqualsLineRead(line: string, from: string, to: string, parts: seq<string>)
    requires line != "" && Trimmed(line, JsSpace) && line[0] != '#' && !Contains(line, ARROW)
    requires parts != [] && Split(line, "=") == [from + " "] + parts
    requires Trim(from + " ", JsSpace) == from != "" && Trim(Join(parts, "="), JsSpace) == to != ""
    ensures ParseLine(line) == Some(Replacement(from, to))
  {
    assert Split(line, "=")[1..] == parts;
  }

  /** Comments give nothing, and neither do empty lines. */
  lemma CommentGivesNothing(rawLine: string)
    requires var line := Trim(rawLine, JsSpace); line == "" || line[0] == '#'
    ensures ParseLine(rawLine).None?
  {
  }

  /** White space around a line makes no difference. */
  lemma SpaceAroundLine(rawLine: string)
    ensures ParseLine(Trim(rawLine, JsSpace)) == ParseLine(rawLine)
  {
  }

  /** Lines may end with a carriage return as well. */
  lemma LinesComeApart(line: string, rest: string)
    requires PlainLine(line)
    ensures Lines(line + "\n" + rest) == [line] + Lines(rest)
    ensures Lines(line + "\r" + "\n" + rest) == [line] + Lines(rest)
  {
    FirstNewline(line, rest);
    FirstNewline(line + "\r", rest);
    assert StripCarriageReturn(line + "\r") == line;
  }
}
