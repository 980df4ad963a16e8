/** Joining sequences. */
module Sequences {
  lemma Associates<T>(a: seq<T>, b: seq<T>, c: seq<T>)
    ensures a + b + c == a + (b + c)
  {
  }

  lemma SplitsAt<T>(s: seq<T>, x: T) returns (i: nat)
    requires x in s
    ensures i < |s| && s == s[..i] + [x] + s[i + 1..]
  {
    i :| 0 <= i < |s| && s[i] == x;
  }

  lemma InTheMiddle<T>(a: seq<T>, x: T, b: seq<T>)
    ensures x in a + [x] + b
  {
    assert (a + [x] + b)[|a|] == x;
  }

  lemma SliceOfSlice<T>(s: seq<T>, from: nat, n: nat, at: nat, k: nat)
    requires from + n <= |s| && at + k <= n
    ensures s[from..from + n][at..at + k] == s[from + at..from + at + k]
  {
    var x, y := s[from..from + n][at..at + k], s[from + at..from + at + k];
    assert forall i :: 0 <= i < k ==> x[i] == y[i];
  }

  /** All parts one after the other. */
  function Concat<T>(parts: seq<seq<T>>): seq<T> {
    if parts == [] then [] else Concat(parts[..|parts| - 1]) + parts[|parts| - 1]
  }

  lemma ConcatMore<T>(parts: seq<seq<T>>, i: nat)
    requires i < |parts|
    ensures Concat(parts[..i + 1]) == Concat(parts[..i]) + parts[i]
  {
    assert parts[..i + 1][..i] == parts[..i];
  }
}
