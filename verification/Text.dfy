/** Trimming and ASCII case, as the Rust and the JavaScript parts of the program do them. */
module Text {
  import opened Sequences

  /** White space of Rust's `trim`. */
  predicate RustSpace(c: char) {
    CommonSpace(c) || c == '\U{0085}'
  }

  /** White space of JavaScript's `trim` and of `\s` in its regular expressions. */
  predicate JsSpace(c: char) {
    CommonSpace(c) || c == '\U{FEFF}'
  }

  predicate CommonSpace(c: char) {
    || '\U{0009}' <= c <= '\U{000D}' || c == ' ' || c == '\U{00A0}' || c == '\U{1680}'
    || '\U{2000}' <= c <= '\U{200A}' || c == '\U{2028}' || c == '\U{2029}' || c == '\U{202F}'
    || c == '\U{205F}' || c == '\U{3000}'
  }

  predicate Trimmed(s: string, space: char -> bool) {
    s == "" || (!space(s[0]) && !space(s[|s| - 1]))
  }

  function TrimStart(s: string, space: char -> bool): (t: string)
    ensures t == "" || !space(t[0])
  {
    if s != "" && space(s[0]) then TrimStart(s[1..], space) else s
  }

  function TrimEnd(s: string, space: char -> bool): (t: string)
    ensures t <= s && (t == "" || !space(t[|t| - 1]))
  {
    if s != "" && space(s[|s| - 1]) then TrimEnd(s[..|s| - 1], space) else s
  }

  function Trim(s: string, space: char -> bool): (t: string)
    ensures Trimmed(t, space)
    ensures Trimmed(s, space) ==> t == s
  {
    TrimEnd(TrimStart(s, space), space)
  }

  /** Trimming does not make a text longer. */
  lemma {:induction false} TrimStartShortens(s: string, space: char -> bool)
    ensures |TrimStart(s, space)| <= |s|
  {
    if s != "" && space(s[0]) {
      TrimStartShortens(s[1..], space);
    }
  }

  /** The characters that are not white space, in order. */
  function Visible(s: string, space: char -> bool): string {
    if s == "" then "" else (if space(s[0]) then [] else [s[0]]) + Visible(s[1..], space)
  }

  lemma {:induction false} VisibleJoins(a: string, b: string, space: char -> bool)
    ensures Visible(a + b, space) == Visible(a, space) + Visible(b, space)
  {
    if a == "" {
      assert a + b == b;
    } else {
      var first := if space(a[0]) then "" else [a[0]];
      VisibleJoins(a[1..], b, space);
      assert (a + b)[1..] == a[1..] + b;
      Associates(first, Visible(a[1..], space), Visible(b, space));
    }
  }

  lemma {:induction false} TrimStartKeepsVisible(s: string, space: char -> bool)
    ensures Visible(TrimStart(s, space), space) == Visible(s, space)
  {
    if s != "" && space(s[0]) {
      TrimStartKeepsVisible(s[1..], space);
    }
  }

  lemma NothingVisible(s: string, space: char -> bool)
    requires |s| == 1 && space(s[0])
    ensures Visible(s, space) == ""
  {
    assert s[1..] == "";
  }

  lemma {:induction false} TrimEndKeepsVisible(s: string, space: char -> bool)
    ensures Visible(TrimEnd(s, space), space) == Visible(s, space)
  {
    if s != "" && space(s[|s| - 1]) {
      var rest, last := s[..|s| - 1], s[|s| - 1..];
      TrimEndKeepsVisible(rest, space);
      VisibleJoins(rest, last, space);
      NothingVisible(last, space);
      assert s == rest + last;
    }
  }

  /** Trimming takes away white space and nothing else. */
  lemma TrimKeepsVisible(s: string, space: char -> bool)
    ensures Visible(Trim(s, space), space) == Visible(s, space)
  {
    TrimStartKeepsVisible(s, space);
    TrimEndKeepsVisible(TrimStart(s, space), space);
  }

  function LowerChar(c: char): char {
    if 'A' <= c <= 'Z' then c + ('a' - 'A') else c
  }

  function Lower(s: string): (t: string)
    ensures |t| == |s| && forall i :: 0 <= i < |s| ==> t[i] == LowerChar(s[i])
  {
    seq(|s|, i requires 0 <= i < |s| => LowerChar(s[i]))
  }

  lemma LowerIsIdempotent(s: string)
    ensures Lower(Lower(s)) == Lower(s)
  {
  }

  /** Lower-casing neither makes nor removes white space. */
  lemma LowerKeepsSpace(c: char)
    ensures RustSpace(LowerChar(c)) <==> RustSpace(c)
    ensures JsSpace(LowerChar(c)) <==> JsSpace(c)
  {
  }

  /** Changing case leaves white space where it is. */
  lemma LowerKeepsTrimmed(s: string, space: char -> bool)
    requires forall c :: space(LowerChar(c)) <==> space(c)
    requires Trimmed(s, space)
    ensures Trimmed(Lower(s), space)
  {
  }

  /** A character that is no white space shows, and white space does not. With VisibleJoins this says what shows of any text. */
  lemma CharacterShows(c: char, space: char -> bool)
    ensures Visible([c], space) == if space(c) then "" else [c]
  {
    assert [c][1..] == "";
  }

  /** Capitals become the small letter at the same place of the alphabet, and nothing else changes. */
  lemma LetterIsLowered(c: char)
    ensures 'A' <= c <= 'Z' ==> 'a' <= LowerChar(c) <= 'z' && LowerChar(c) as int - 'a' as int == c as int - 'A' as int
    ensures !('A' <= c <= 'Z') ==> LowerChar(c) == c
  {
  }

  predicate AllSpace(s: string, space: char -> bool) {
    forall i :: 0 <= i < |s| ==> space(s[i])
  }

  lemma {:induction false} TrimStartCuts(s: string, space: char -> bool) returns (a: string)
    ensures AllSpace(a, space) && s == a + TrimStart(s, space)
  {
    a := "";
    if s != "" && space(s[0]) {
      a := TrimStartCuts(s[1..], space);
      a := [s[0]] + a;
      assert s == [s[0]] + s[1..];
    }
  }

  lemma {:induction false} TrimEndCuts(s: string, space: char -> bool) returns (b: string)
    ensures AllSpace(b, space) && s == TrimEnd(s, space) + b
  {
    b := "";
    if s != "" && space(s[|s| - 1]) {
      b := TrimEndCuts(s[..|s| - 1], space);
      b := b + [s[|s| - 1]];
      assert s == s[..|s| - 1] + [s[|s| - 1]];
    }
  }

  /** Trimming cuts off all white space at both ends, and nothing between. */
  lemma TrimCuts(s: string, space: char -> bool) returns (a: string, b: string)
    ensures AllSpace(a, space) && AllSpace(b, space) && s == a + Trim(s, space) + b && Trimmed(Trim(s, space), space)
  {
    a := TrimStartCuts(s, space);
    b := TrimEndCuts(TrimStart(s, space), space);
    Associates(a, Trim(s, space), b);
  }

  /** The two kinds of white space differ in two characters. */
  lemma SpacesDiffer(c: char)
    ensures RustSpace(c) && !JsSpace(c) <==> c == '\U{0085}'
    ensures JsSpace(c) && !RustSpace(c) <==> c == '\U{FEFF}'
    ensures c == ' ' || c == '\t' || c == '\n' || c == '\r' ==> RustSpace(c) && JsSpace(c)
    ensures '!' <= c <= '~' ==> !RustSpace(c) && !JsSpace(c)
  {
  }
}
