// Code fences, as both Markdown pre-passes recognise them. The text is a
// sequence of units (bytes or characters); only its ASCII units matter here.

module Fences {
  import opened Wrappers

  datatype Alphabet<T> = Alphabet(space: T, tab: T, newline: T, backtick: T, tilde: T)

  datatype Fence<T> = Fence(mark: T, length: nat)

  /** The end of the run of `unit` that starts at `i`. */
  function RunEnd<T(==)>(s: seq<T>, i: nat, unit: T): (end: nat)
    requires i <= |s|
    ensures i <= end <= |s|
    decreases |s| - i
  {
    if i < |s| && s[i] == unit then RunEnd(s, i + 1, unit) else i
  }

  /** Past up to three spaces. */
  function Indented<T(==)>(s: seq<T>, i: nat, a: Alphabet<T>): (j: nat)
    requires i <= |s|
    ensures i <= j <= |s|
  {
    var end := RunEnd(s, i, a.space);
    if end <= i + 3 then end else i + 3
  }

  /** Past the rest of the line and its newline. */
  function LineEnd<T(==)>(s: seq<T>, i: nat, a: Alphabet<T>): (end: nat)
    requires i <= |s|
    ensures i <= end <= |s|
    decreases |s| - i
  {
    if i == |s| then i else if s[i] == a.newline then i + 1 else LineEnd(s, i + 1, a)
  }

  function BlankEnd<T(==)>(s: seq<T>, i: nat, a: Alphabet<T>): (end: nat)
    requires i <= |s|
    ensures i <= end <= |s|
    decreases |s| - i
  {
    if i < |s| && (s[i] == a.space || s[i] == a.tab) then BlankEnd(s, i + 1, a) else i
  }

  /** An opening fence at `i`: its mark, its length and where its line ends. */
  function Opening<T(==)>(s: seq<T>, i: nat, a: Alphabet<T>): (r: Option<(Fence<T>, nat)>)
    requires i <= |s|
    ensures r.Some? ==> i < r.value.1 <= |s|
  {
    var j := Indented(s, i, a);
    if j == |s| || (s[j] != a.backtick && s[j] != a.tilde) then None
    else
      var end := RunEnd(s, j, s[j]);
      if end - j < 3 then None else Some((Fence(s[j], end - j), LineEnd(s, end, a)))
  }

  /** Where a line closing the fence ends, if the line at `i` closes it. */
  function Closing<T(==)>(s: seq<T>, i: nat, fence: Fence<T>, a: Alphabet<T>): (r: Option<nat>)
    requires i <= |s|
    ensures r.Some? ==> i <= r.value <= |s|
  {
    var j := Indented(s, i, a);
    var end := RunEnd(s, j, fence.mark);
    if end - j < fence.length then None
    else
      var rest := BlankEnd(s, end, a);
      if rest < |s| && s[rest] != a.newline then None
      else Some(if rest < |s| then rest + 1 else rest)
  }

  // ---------------------------------------------------------------------
  // Which lines open and close a fence
  // ---------------------------------------------------------------------

  ghost predicate AllAre<T>(s: seq<T>, lo: nat, hi: nat, unit: T) {
    lo <= hi <= |s| && forall k :: lo <= k < hi ==> s[k] == unit
  }

  /** Exactly `n` units stand at `i`. */
  ghost predicate IsRun<T>(s: seq<T>, i: nat, unit: T, n: nat) {
    AllAre(s, i, i + n, unit) && (i + n == |s| || s[i + n] != unit)
  }

  /** From `i` up to `j` there are spaces, at most three, and no more of them
      unless there are three. */
  ghost predicate IsIndent<T>(s: seq<T>, i: nat, j: nat, a: Alphabet<T>) {
    j <= i + 3 && AllAre(s, i, j, a.space) && (j == i + 3 || j == |s| || s[j] != a.space)
  }

  /** The line that `i` is in ends, with its newline, at `end`. */
  ghost predicate IsLineEnd<T>(s: seq<T>, i: nat, end: nat, a: Alphabet<T>) {
    && i <= end <= |s|
    && (forall k :: i <= k < end - 1 ==> s[k] != a.newline)
    && (end == |s| || (i < end && s[end - 1] == a.newline))
    && (end == |s| || i < end)
  }

  /** The line at `i` opens this fence and ends at `end`: a run of at least three
      backticks or tildes, indented by up to three spaces, whatever follows it. */
  ghost predicate OpensFence<T>(s: seq<T>, i: nat, fence: Fence<T>, end: nat, a: Alphabet<T>) {
    exists j: nat :: IsIndent(s, i, j, a) && OpensFrom(s, j, fence, end, a)
  }

  ghost predicate OpensFrom<T>(s: seq<T>, j: nat, fence: Fence<T>, end: nat, a: Alphabet<T>) {
    && (fence.mark == a.backtick || fence.mark == a.tilde) && fence.length >= 3
    && IsRun(s, j, fence.mark, fence.length) && IsLineEnd(s, j + fence.length, end, a)
  }

  /** The line at `i` closes the fence and ends at `end`: a run of the same mark, at
      least as long and indented by up to three spaces, and white space. */
  ghost predicate ClosesFence<T>(s: seq<T>, i: nat, fence: Fence<T>, end: nat, a: Alphabet<T>) {
    exists j: nat, n: nat, m: nat :: IsIndent(s, i, j, a) && ClosesFrom(s, j, n, m, fence, end, a)
  }

  ghost predicate ClosesFrom<T>(s: seq<T>, j: nat, n: nat, m: nat, fence: Fence<T>, end: nat, a: Alphabet<T>) {
    && IsRun(s, j, fence.mark, n) && n >= fence.length && j + n <= m <= |s|
    && (forall k :: j + n <= k < m ==> s[k] == a.space || s[k] == a.tab)
    && (if m == |s| then end == m else s[m] == a.newline && end == m + 1)
  }

  lemma {:induction false} RunEndIs<T>(s: seq<T>, i: nat, unit: T)
    requires i <= |s|
    ensures IsRun(s, i, unit, RunEnd(s, i, unit) - i)
    decreases |s| - i
  {
    if i < |s| && s[i] == unit {
      RunEndIs(s, i + 1, unit);
    }
  }

  lemma OneRun<T>(s: seq<T>, i: nat, unit: T, n: nat, m: nat)
    requires IsRun(s, i, unit, n) && IsRun(s, i, unit, m)
    ensures n == m
  {
  }

  lemma IndentedIs<T>(s: seq<T>, i: nat, a: Alphabet<T>)
    requires i <= |s|
    ensures IsIndent(s, i, Indented(s, i, a), a)
  {
    RunEndIs(s, i, a.space);
  }

  lemma OneIndent<T>(s: seq<T>, i: nat, j: nat, k: nat, a: Alphabet<T>)
    requires IsIndent(s, i, j, a) && IsIndent(s, i, k, a)
    ensures j == k
  {
  }

  lemma {:induction false} LineEndIsEnd<T>(s: seq<T>, i: nat, a: Alphabet<T>)
    requires i <= |s|
    ensures IsLineEnd(s, i, LineEnd(s, i, a), a)
    decreases |s| - i
  {
    if i < |s| && s[i] != a.newline {
      LineEndIsEnd(s, i + 1, a);
    }
  }

  lemma OneLineEnd<T>(s: seq<T>, i: nat, end: nat, end': nat, a: Alphabet<T>)
    requires IsLineEnd(s, i, end, a) && IsLineEnd(s, i, end', a)
    ensures end == end'
  {
  }

  lemma {:induction false} BlankEndIs<T>(s: seq<T>, i: nat, a: Alphabet<T>)
    requires i <= |s|
    ensures forall k :: i <= k < BlankEnd(s, i, a) ==> s[k] == a.space || s[k] == a.tab
    ensures BlankEnd(s, i, a) < |s| ==> s[BlankEnd(s, i, a)] != a.space && s[BlankEnd(s, i, a)] != a.tab
    decreases |s| - i
  {
    if i < |s| && (s[i] == a.space || s[i] == a.tab) {
      BlankEndIs(s, i + 1, a);
    }
  }

  /** Which lines open a fence, and which fence. */
  lemma OpeningIff<T>(s: seq<T>, i: nat, fence: Fence<T>, end: nat, a: Alphabet<T>)
    requires i <= |s|
    ensures Opening(s, i, a) == Some((fence, end)) <==> OpensFence(s, i, fence, end, a)
  {
    var j := Indented(s, i, a);
    IndentedIs(s, i, a);
    if OpensFence(s, i, fence, end, a) {
      var k: nat :| IsIndent(s, i, k, a) && OpensFrom(s, k, fence, end, a);
      OneIndent(s, i, j, k, a);
      RunEndIs(s, j, fence.mark);
      OneRun(s, j, fence.mark, fence.length, RunEnd(s, j, fence.mark) - j);
      LineEndIsEnd(s, j + fence.length, a);
      OneLineEnd(s, j + fence.length, end, LineEnd(s, j + fence.length, a), a);
      assert s[j] == fence.mark;
    }
    if Opening(s, i, a) == Some((fence, end)) {
      RunEndIs(s, j, s[j]);
      LineEndIsEnd(s, RunEnd(s, j, s[j]), a);
      assert OpensFrom(s, j, fence, end, a);
    }
  }

  /** Units that are not taken for one another. */
  ghost predicate Distinct<T>(a: Alphabet<T>) {
    a.newline != a.space && a.newline != a.tab
  }

  /** Which lines close it. */
  lemma ClosingIff<T>(s: seq<T>, i: nat, fence: Fence<T>, end: nat, a: Alphabet<T>)
    requires i <= |s| && Distinct(a)
    ensures Closing(s, i, fence, a) == Some(end) <==> ClosesFence(s, i, fence, end, a)
  {
    var j := Indented(s, i, a);
    var run := RunEnd(s, j, fence.mark);
    var rest := BlankEnd(s, run, a);
    IndentedIs(s, i, a);
    RunEndIs(s, j, fence.mark);
    BlankEndIs(s, run, a);
    if Closing(s, i, fence, a) == Some(end) {
      assert ClosesFrom(s, j, run - j, rest, fence, end, a);
    }
    if ClosesFence(s, i, fence, end, a) {
      var k: nat, n: nat, m: nat :| IsIndent(s, i, k, a) && ClosesFrom(s, k, n, m, fence, end, a);
      OneIndent(s, i, j, k, a);
      OneRun(s, j, fence.mark, n, run - j);
    }
  }
}
