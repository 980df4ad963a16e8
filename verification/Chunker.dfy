/** Splitting text into pieces that the speech service accepts, between words where possible. */
module Chunker {
  import opened Sequences
  import opened Text

  /** The first place after `start` at which a break between words is worth it: two fifths of the length. */
  function MinBreak(start: nat, maxChars: nat): nat {
    start + maxChars * 2 / 5
  }

  /** From one cut to the next. */
  datatype Stretch = Stretch(start: nat, end: nat)

  predicate SpaceFree(chars: string, from: nat, to: nat) {
    to <= |chars| && forall k :: from <= k < to ==> chars[k] != ' '
  }

  /** A cut ends the text, or falls on the last space in the last three fifths of a full piece, or ends a full piece without one. */
  predicate GoodCut(chars: string, start: nat, end: nat, maxChars: nat) {
    && start < end <= |chars|
    && if start + maxChars >= |chars| then end == |chars|
       else if end == start + maxChars then SpaceFree(chars, MinBreak(start, maxChars), end)
       else end < start + maxChars && MinBreak(start, maxChars) <= end && chars[end] == ' '
            && SpaceFree(chars, end + 1, start + maxChars)
  }

  /** So there is only one place to cut. */
  lemma GoodCutIsUnique(chars: string, start: nat, end: nat, other: nat, maxChars: nat)
    requires GoodCut(chars, start, end, maxChars) && GoodCut(chars, start, other, maxChars)
    ensures end == other
  {
  }

  /** The last space from `low` up to `end`, or -1. */
  method LastSpace(chars: string, low: nat, end: nat) returns (spaceAt: int)
    requires end <= |chars|
    ensures spaceAt == -1 || (low <= spaceAt < end && chars[spaceAt] == ' ')
    ensures forall k :: low <= k < end && k > spaceAt ==> chars[k] != ' '
  {
    var index: int := end - 1;
    while index >= low
      invariant low - 1 <= index < end || (index == end - 1 < low)
      invariant forall k :: low <= k < end && k > index ==> chars[k] != ' '
    {
      if chars[index] == ' ' {
        return index;
      }
      index := index - 1;
    }
    return -1;
  }

  lemma {:induction false} SpacesAreInvisible(s: string)
    requires forall i :: 0 <= i < |s| ==> s[i] == ' '
    ensures Visible(s, JsSpace) == ""
  {
    if s != "" {
      SpacesAreInvisible(s[1..]);
    }
  }

  /** The piece that is cut off, and the spaces that are skipped after it, show what that stretch of the text shows. */
  lemma PieceShowsItsStretch(chars: string, start: nat, end: nat, next: nat)
    requires start <= end <= next <= |chars| && forall i :: end <= i < next ==> chars[i] == ' '
    ensures Visible(chars[..next], JsSpace) == Visible(chars[..start], JsSpace) + Visible(Trim(chars[start..end], JsSpace), JsSpace)
  {
    TrimKeepsVisible(chars[start..end], JsSpace);
    SpacesAreInvisible(chars[end..next]);
    VisibleJoins(chars[..start], chars[start..end], JsSpace);
    VisibleJoins(chars[..end], chars[end..next], JsSpace);
    assert chars[..end] == chars[..start] + chars[start..end] && chars[..next] == chars[..end] + chars[end..next];
  }

  lemma OneMoreChunk(chunks: seq<string>, piece: string)
    ensures Visible(Concat(chunks + [piece]), JsSpace) == Visible(Concat(chunks), JsSpace) + Visible(piece, JsSpace)
  {
    assert (chunks + [piece])[..|chunks|] == chunks;
    VisibleJoins(Concat(chunks), piece, JsSpace);
  }

  lemma SingleChunk(piece: string)
    ensures Concat([piece]) == piece
  {
  }

  predicate Fits(chunk: string, maxChars: nat) {
    1 <= |chunk| <= maxChars && Trimmed(chunk, JsSpace)
  }

  predicate AllFit(chunks: seq<string>, maxChars: nat) {
    forall i :: 0 <= i < |chunks| ==> Fits(chunks[i], maxChars)
  }

  /** Nothing but spaces lies between two places. */
  predicate OnlySpaces(chars: string, from: nat, to: nat) {
    from <= to <= |chars| && forall i :: from <= i < to ==> chars[i] == ' '
  }

  /** The stretches go through the text up to some place, with only spaces between them, and end at good cuts. */
  predicate GoThrough(cuts: seq<Stretch>, chars: string, upTo: nat, maxChars: nat) {
    if cuts == [] then upTo == 0
    else
      var last := cuts[|cuts| - 1];
      && GoodCut(chars, last.start, last.end, maxChars) && OnlySpaces(chars, last.end, upTo)
      && GoThrough(cuts[..|cuts| - 1], chars, last.start, maxChars)
  }

  /** What is left of the stretches after trimming, in order. */
  function Pieces(chars: string, cuts: seq<Stretch>): seq<string>
    requires forall i :: 0 <= i < |cuts| ==> cuts[i].start <= cuts[i].end <= |chars|
  {
    if cuts == [] then []
    else
      var before, last := Pieces(chars, cuts[..|cuts| - 1]), cuts[|cuts| - 1];
      var piece := Trim(chars[last.start..last.end], JsSpace);
      if piece == "" then before else before + [piece]
  }

  /** The chunks are the pieces of stretches that go through the text. */
  ghost predicate CutInto(chars: string, upTo: nat, maxChars: nat, cuts: seq<Stretch>, chunks: seq<string>) {
    && GoThrough(cuts, chars, upTo, maxChars)
    && (forall i :: 0 <= i < |cuts| ==> cuts[i].start <= cuts[i].end <= |chars|)
    && chunks == Pieces(chars, cuts)
  }

  lemma OneMoreCut(chars: string, start: nat, end: nat, next: nat, maxChars: nat,
                   cuts: seq<Stretch>, chunks: seq<string>, more: seq<string>)
    requires CutInto(chars, start, maxChars, cuts, chunks) && GoodCut(chars, start, end, maxChars) && OnlySpaces(chars, end, next)
    requires var piece := Trim(chars[start..end], JsSpace); more == if piece == "" then chunks else chunks + [piece]
    ensures CutInto(chars, next, maxChars, cuts + [Stretch(start, end)], more)
  {
    var longer := cuts + [Stretch(start, end)];
    assert longer[..|longer| - 1] == cuts;
  }

  /** Where the piece that begins at `start` ends. */
  method FindCut(chars: string, start: nat, maxChars: nat) returns (end: nat)
    requires maxChars >= 1 && start < |chars| && chars[start] != ' '
    ensures GoodCut(chars, start, end, maxChars)
  {
    end := if start + maxChars < |chars| then start + maxChars else |chars|;
    if end < |chars| {
      var spaceAt := LastSpace(chars, MinBreak(start, maxChars), end);
      if spaceAt > start {
        end := spaceAt;
      }
    }
  }

  /** What is left of a piece after trimming becomes a chunk, if anything is. */
  method AddPiece(chunks: seq<string>, stretch: string, maxChars: nat) returns (more: seq<string>)
    requires AllFit(chunks, maxChars) && |stretch| <= maxChars
    ensures AllFit(more, maxChars) && more == if Trim(stretch, JsSpace) == "" then chunks else chunks + [Trim(stretch, JsSpace)]
    ensures Visible(Concat(more), JsSpace) == Visible(Concat(chunks), JsSpace) + Visible(Trim(stretch, JsSpace), JsSpace)
  {
    var piece := Trim(stretch, JsSpace);
    TrimStartShortens(stretch, JsSpace);
    if piece == "" {
      return chunks;
    }
    OneMoreChunk(chunks, piece);
    return chunks + [piece];
  }

  method SkipSpaces(chars: string, from: nat) returns (next: nat)
    requires from <= |chars|
    ensures from <= next <= |chars| && (next < |chars| ==> chars[next] != ' ')
    ensures forall i :: from <= i < next ==> chars[i] == ' '
  {
    next := from;
    while next < |chars| && chars[next] == ' '
      invariant from <= next <= |chars|
      invariant forall i :: from <= i < next ==> chars[i] == ' '
    {
      next := next + 1;
    }
  }

  /** Piece after piece, with the spaces between them skipped. */
  method ChunkLongText(chars: string, maxChars: nat) returns (chunks: seq<string>, ghost cuts: seq<Stretch>)
    requires maxChars >= 1 && chars != "" && chars[0] != ' '
    requires chars[|chars| - 1] != ' '
    ensures AllFit(chunks, maxChars) && CutInto(chars, |chars|, maxChars, cuts, chunks)
    ensures cuts != [] && cuts[|cuts| - 1].end == |chars|
    ensures Visible(Concat(chunks), JsSpace) == Visible(chars, JsSpace)
  {
    chunks, cuts := [], [];
    var start: nat := 0;
    while start < |chars|
      invariant start <= |chars| && (start < |chars| ==> chars[start] != ' ')
      invariant AllFit(chunks, maxChars)
      invariant Visible(Concat(chunks), JsSpace) == Visible(chars[..start], JsSpace)
      invariant CutInto(chars, start, maxChars, cuts, chunks)
      decreases |chars| - start
    {
      var end := FindCut(chars, start, maxChars);
      ghost var before := chunks;
      chunks := AddPiece(chunks, chars[start..end], maxChars);
      var next := SkipSpaces(chars, end);
      PieceShowsItsStretch(chars, start, end, next);
      OneMoreCut(chars, start, end, next, maxChars, cuts, before, chunks);
      cuts, start := cuts + [Stretch(start, end)], next;
    }
    assert chars[..start] == chars;
  }

  /**
   * Every chunk fits and is trimmed; nothing but white space is lost, and nothing is reordered. The chunks are
   * what the stretches of the text hold, and words are split only where there is no space to break at.
   */
  method ChunkTextForGoogleTts(text: string, maxChars: nat) returns (chunks: seq<string>, ghost cuts: seq<Stretch>)
    requires maxChars >= 1
    ensures AllFit(chunks, maxChars)
    ensures Visible(Concat(chunks), JsSpace) == Visible(text, JsSpace)
    ensures var chars := Trim(text, JsSpace);
      && CutInto(chars, |chars|, maxChars, cuts, chunks)
      && (chars != "" ==> cuts != [] && cuts[|cuts| - 1].end == |chars|)
    ensures |Trim(text, JsSpace)| <= maxChars ==> chunks == if Trim(text, JsSpace) == "" then [] else [Trim(text, JsSpace)]
  {
    var chars := Trim(text, JsSpace);
    TrimKeepsVisible(text, JsSpace);
    chunks, cuts := [], [];
    if chars == "" {
      return;
    }
    if |chars| <= maxChars {
      SingleChunk(chars);
      chunks, cuts := [chars], [Stretch(0, |chars|)];
      assert cuts[..0] == [] && chars[0..|chars|] == chars;
      return;
    }
    chunks, cuts := ChunkLongText(chars, maxChars);
  }

  /**
   * What a cut before the end of the text means: it falls on a space, at two fifths of the length or later, rounded
   * down, and after it there is no other in reach; or the piece is full, and there was no such space.
   */
  lemma CutMeans(chars: string, start: nat, end: nat, maxChars: nat, k: nat)
    requires GoodCut(chars, start, end, maxChars) && start + maxChars < |chars|
    ensures end < start + maxChars ==> chars[end] == ' ' && 5 * (end - start) + 5 > 2 * maxChars
    ensures end <= start + maxChars
    ensures start <= k < start + maxChars && chars[k] == ' ' && 5 * (k - start) + 5 > 2 * maxChars ==> k <= end < start + maxChars
  {
  }
}
