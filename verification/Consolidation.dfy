// Moving old messages out of the prompt: the token-driven and the idle
// compaction advance the same boundary, and every save moves what lies below
// it to the long-term archive.

module Consolidation {
  import opened Wrappers
  import opened Json
  import opened LegalSuffix

  // ---------------------------------------------------------------------
  // The boundary of one token round
  // ---------------------------------------------------------------------

  /** Estimated tokens of the messages from `start` up to `end`. */
  function TokensIn(ms: seq<Value>, start: nat, end: nat, weight: Value -> nat): nat
    requires start <= end <= |ms|
    decreases end - start
  {
    if start == end then 0 else TokensIn(ms, start, end - 1, weight) + weight(ms[end - 1])
  }

  /** The estimates of the messages add up. */
  lemma {:induction false} TokensAdd(ms: seq<Value>, start: nat, mid: nat, end: nat, weight: Value -> nat)
    requires start <= mid <= end <= |ms|
    ensures TokensIn(ms, start, end, weight) == TokensIn(ms, start, mid, weight) + TokensIn(ms, mid, end, weight)
    ensures TokensIn(ms, mid, mid, weight) == 0
    ensures mid < |ms| ==> TokensIn(ms, mid, mid + 1, weight) == weight(ms[mid])
    decreases end - mid
  {
    assert TokensIn(ms, mid, mid, weight) == 0;
    if mid < end {
      TokensAdd(ms, start, mid, end - 1, weight);
    }
  }

  /** Some later user turn, and it ends the search if enough tokens precede it. */
  predicate Reaches(ms: seq<Value>, start: nat, tokens: nat, weight: Value -> nat, i: nat)
    requires start <= i < |ms|
  {
    HasRole(ms[i], User) && TokensIn(ms, start, i, weight) >= tokens
  }

  /** The boundary is the first later user turn with enough tokens before it,
      else the last later user turn. */
  ghost predicate IsBoundary(ms: seq<Value>, start: nat, tokens: nat, weight: Value -> nat, idx: nat) {
    && start < idx < |ms| && HasRole(ms[idx], User)
    && (forall i :: start < i < idx ==> !Reaches(ms, start, tokens, weight, i))
    && (Reaches(ms, start, tokens, weight, idx) || forall i :: idx < i < |ms| ==> !HasRole(ms[i], User))
  }

  /** The scan from `i` on, having last seen the user turn `last`. */
  function Scan(ms: seq<Value>, start: nat, tokens: nat, weight: Value -> nat, i: nat, last: Option<nat>): Option<nat>
    requires start <= i <= |ms|
    decreases |ms| - i
  {
    if i == |ms| then last
    else if i > start && HasRole(ms[i], User) then
      if TokensIn(ms, start, i, weight) >= tokens then Some(i) else Scan(ms, start, tokens, weight, i + 1, Some(i))
    else Scan(ms, start, tokens, weight, i + 1, last)
  }

  function Boundary(ms: seq<Value>, start: nat, tokens: nat, weight: Value -> nat): Option<nat> {
    if start >= |ms| || tokens == 0 then None else Scan(ms, start, tokens, weight, start, None)
  }

  /** The single pass that sums tokens as it goes. */
  method PickBoundary(ms: seq<Value>, start: nat, tokens: nat, weight: Value -> nat) returns (found: Option<(nat, nat)>)
    ensures found.Some? <==> Boundary(ms, start, tokens, weight).Some?
    ensures found.Some? ==>
      && Boundary(ms, start, tokens, weight) == Some(found.value.0)
      && start <= found.value.0 <= |ms| && found.value.1 == TokensIn(ms, start, found.value.0, weight)
  {
    if start >= |ms| || tokens == 0 {
      return None;
    }
    var removed := 0;
    found := None;
    for i := start to |ms|
      invariant removed == TokensIn(ms, start, i, weight)
      invariant found.Some? ==> start <= found.value.0 < i && found.value.1 == TokensIn(ms, start, found.value.0, weight)
      invariant Boundary(ms, start, tokens, weight)
             == Scan(ms, start, tokens, weight, i, if found.Some? then Some(found.value.0) else None)
    {
      if i > start && HasRole(ms[i], User) {
        found := Some((i, removed));
        if removed >= tokens {
          return;
        }
      }
      removed := removed + weight(ms[i]);
    }
  }

  lemma {:induction false} ScanIs(ms: seq<Value>, start: nat, tokens: nat, weight: Value -> nat, i: nat, last: Option<nat>)
    requires start <= i <= |ms|
    requires match last
             case Some(u) => start < u < i && HasRole(ms[u], User) && forall j :: u < j < i ==> !HasRole(ms[j], User)
             case None => forall j :: start < j < i ==> !HasRole(ms[j], User)
    requires forall j :: start < j < i ==> !Reaches(ms, start, tokens, weight, j)
    ensures
      match Scan(ms, start, tokens, weight, i, last)
      case Some(idx) => IsBoundary(ms, start, tokens, weight, idx)
      case None => forall j :: start < j < |ms| ==> !HasRole(ms[j], User)
    decreases |ms| - i
  {
    if i < |ms| {
      if i > start && HasRole(ms[i], User) {
        if TokensIn(ms, start, i, weight) < tokens {
          ScanIs(ms, start, tokens, weight, i + 1, Some(i));
        }
      } else {
        ScanIs(ms, start, tokens, weight, i + 1, last);
      }
    }
  }

  /** What a round archives: up to the first later user turn that frees enough
      tokens, else the last later user turn, and nothing if there is none. */
  lemma BoundaryIs(ms: seq<Value>, start: nat, tokens: nat, weight: Value -> nat)
    ensures
      match Boundary(ms, start, tokens, weight)
      case Some(idx) => tokens > 0 && IsBoundary(ms, start, tokens, weight, idx)
      case None => tokens == 0 || forall j :: start < j < |ms| ==> !HasRole(ms[j], User)
  {
    if start < |ms| && tokens > 0 {
      ScanIs(ms, start, tokens, weight, start, None);
    }
  }

  // ---------------------------------------------------------------------
  // The conversation
  // ---------------------------------------------------------------------

  /** What became of an archiver call: whether the model summarized, else the
      messages are dumped raw, and whether the history log took the entry. Nothing
      looks at the second. */
  datatype Answer = Answer(summarized: bool, stored: bool)

  /** A stretch of the conversation given to the archiver. `advanced` says that
      the boundary moved to its end; one that did not stays in the prompt. */
  datatype Chunk = Chunk(lo: nat, hi: nat, summarized: bool, stored: bool, advanced: bool)

  /** The archive file, the live messages, how many of those are consolidated
      already, and every chunk ever archived. */
  datatype Ledger = Ledger(archive: seq<Value>, messages: seq<Value>, consolidated: nat, chunks: seq<Chunk>) {
    function Whole(): seq<Value> { archive + messages }
    function ConsolidatedLen(): nat { if consolidated <= |messages| then consolidated else |messages| }
    /** Where replay starts, counted over the whole conversation. */
    function ReplayStart(): nat { |archive| + ConsolidatedLen() }
  }

  /** What the compactors ask the outside world. */
  datatype World = World(
    weight: Value -> nat,
    estimate: (seq<Value>, nat) -> nat,
    answers: nat -> Answer,
    arrivals: nat -> seq<Value>)

  const MAX_ROUNDS := 5
  const SAFETY_BUFFER := 1024

  function Minus(a: nat, b: nat): nat { if a >= b then a - b else 0 }

  /** Saving moves the consolidated prefix to the archive. */
  function Saved(l: Ledger): Ledger {
    Ledger(l.archive + l.messages[..l.ConsolidatedLen()], l.messages[l.ConsolidatedLen()..], 0, l.chunks)
  }

  function Appended(l: Ledger, ms: seq<Value>): Ledger { l.(messages := l.messages + ms) }

  /** One archiver call on the live messages up to `end`, while `arrivals` come in. */
  function Round(l: Ledger, end: nat, answer: Answer, arrivals: seq<Value>): Ledger {
    var chunk := Chunk(l.ReplayStart(), |l.archive| + end, answer.summarized, answer.stored, answer.summarized);
    var after := Appended(l, arrivals).(chunks := l.chunks + [chunk]);
    if answer.summarized then after.(consolidated := end) else after
  }

  function Rounds(l: Ledger, round: nat, estimated: nat, target: nat, world: World): Ledger
    decreases Minus(MAX_ROUNDS, round)
  {
    if round >= MAX_ROUNDS || estimated <= target then l
    else
      match Boundary(l.messages, l.consolidated, target, world.weight)
      case None => l
      case Some(end) =>
        var answer := world.answers(round);
        var after := Round(l, end, answer, world.arrivals(round));
        if !answer.summarized then after
        else
          var estimated' := world.estimate(after.messages, after.consolidated);
          if estimated' == 0 then Saved(after) else Rounds(Saved(after), round + 1, estimated', target, world)
  }

  function ByTokens(l: Ledger, window: nat, completion: nat, world: World): Ledger {
    var budget := Minus(Minus(window, completion), SAFETY_BUFFER);
    var estimated := world.estimate(l.messages, l.consolidated);
    if window == 0 || l.messages == [] || estimated == 0 || estimated < budget then l
    else Rounds(l, 0, estimated, budget / 2, world)
  }

  function Tail(l: Ledger): seq<Value> { l.messages[l.ConsolidatedLen()..] }

  /** How much of the replayed tail an idle compaction drops. */
  ghost function Dropped(l: Ledger, suffix: nat): nat {
    |Tail(l)| - |Retained(Tail(l), suffix)|
  }

  /** The boundary moved over the next `n` messages, summarized or not. */
  function Moved(l: Ledger, n: nat, answer: Answer): Ledger {
    Ledger(l.archive, l.messages, l.ConsolidatedLen() + n,
           l.chunks + [Chunk(l.ReplayStart(), l.ReplayStart() + n, answer.summarized, answer.stored, true)])
  }

  function IdleBy(l: Ledger, n: nat, answer: Answer): Ledger {
    if Tail(l) == [] || n == 0 then Saved(l) else Saved(Moved(l, n, answer))
  }

  /** An idle compaction. It saves the copy it took before it waited for the
      summary, so what arrived meanwhile is not in it. */
  ghost function Idle(l: Ledger, suffix: nat, answer: Answer, arrivals: seq<Value>): Ledger {
    if Dropped(l, suffix) == 0 then Appended(Saved(l), arrivals) else IdleBy(l, Dropped(l, suffix), answer)
  }

  // ---------------------------------------------------------------------
  // What every operation keeps
  // ---------------------------------------------------------------------

  /** The chunks that moved the boundary. */
  function Tiles(chunks: seq<Chunk>): seq<Chunk> {
    if chunks == [] then []
    else
      var rest := Tiles(chunks[..|chunks| - 1]);
      if chunks[|chunks| - 1].advanced then rest + [chunks[|chunks| - 1]] else rest
  }

  /** Nonempty chunks laid end to end from the start of the conversation up to
      `end`: contiguous, disjoint, in order. */
  predicate Tiled(tiles: seq<Chunk>, end: nat) {
    if tiles == [] then end == 0
    else
      var last := tiles[|tiles| - 1];
      last.lo < last.hi == end && Tiled(tiles[..|tiles| - 1], last.lo)
  }

  predicate Sound(l: Ledger) {
    && l.consolidated <= |l.messages|
    && Tiled(Tiles(l.chunks), l.ReplayStart())
    && forall c :: c in l.chunks && !c.advanced ==> !c.summarized
  }

  lemma TilesSnoc(chunks: seq<Chunk>, c: Chunk)
    ensures Tiles(chunks + [c]) == Tiles(chunks) + (if c.advanced then [c] else [])
  {
    assert (chunks + [c])[..|chunks|] == chunks;
  }

  lemma TiledSnoc(tiles: seq<Chunk>, c: Chunk, end: nat)
    requires Tiled(tiles, end) && c.lo == end < c.hi
    ensures Tiled(tiles + [c], c.hi)
  {
    assert (tiles + [c])[..|tiles|] == tiles;
  }

  lemma SavedWhole(l: Ledger)
    ensures Saved(l).Whole() == l.Whole() && Saved(l).ReplayStart() == l.ReplayStart()
  {
    var n := l.ConsolidatedLen();
    assert l.messages == l.messages[..n] + l.messages[n..];
  }

  lemma SavedKeeps(l: Ledger)
    ensures Saved(l).Whole() == l.Whole() && Saved(l).ReplayStart() == l.ReplayStart()
    ensures Tail(Saved(l)) == Tail(l)
    ensures Sound(l) ==> Sound(Saved(l))
  {
    var n := l.ConsolidatedLen();
    assert l.messages == l.messages[..n] + l.messages[n..];
  }

  lemma RoundKeeps(l: Ledger, end: nat, answer: Answer, arrivals: seq<Value>)
    requires Sound(l) && l.consolidated < end <= |l.messages|
    ensures
      var after := Round(l, end, answer, arrivals);
      && Sound(after) && after.Whole() == l.Whole() + arrivals
      && after.ReplayStart() == (if answer.summarized then |l.archive| + end else l.ReplayStart())
  {
    var chunk := Chunk(l.ReplayStart(), |l.archive| + end, answer.summarized, answer.stored, answer.summarized);
    TilesSnoc(l.chunks, chunk);
    if answer.summarized {
      TiledSnoc(Tiles(l.chunks), chunk, l.ReplayStart());
    }
    assert l.archive + (l.messages + arrivals) == l.archive + l.messages + arrivals;
  }

  /** Messages are only added and replay starts no earlier than before. */
  predicate Grows(l: Ledger, after: Ledger) {
    l.Whole() <= after.Whole() && l.ReplayStart() <= after.ReplayStart()
  }

  lemma GrowsOn(a: Ledger, b: Ledger, c: Ledger)
    requires Grows(a, b) && Grows(b, c)
    ensures Grows(a, c)
  {
  }

  lemma SavedGrows(l: Ledger, after: Ledger)
    requires Sound(after) && Grows(l, after)
    ensures Sound(Saved(after)) && Grows(l, Saved(after))
  {
    SavedKeeps(after);
  }

  lemma {:induction false} RoundsKeep(l: Ledger, round: nat, estimated: nat, target: nat, world: World)
    requires Sound(l)
    ensures Sound(Rounds(l, round, estimated, target, world)) && Grows(l, Rounds(l, round, estimated, target, world))
    decreases Minus(MAX_ROUNDS, round)
  {
    var boundary := Boundary(l.messages, l.consolidated, target, world.weight);
    if round < MAX_ROUNDS && estimated > target && boundary.Some? {
      BoundaryIs(l.messages, l.consolidated, target, world.weight);
      RoundKeeps(l, boundary.value, world.answers(round), world.arrivals(round));
      SavedGrows(l, Round(l, boundary.value, world.answers(round), world.arrivals(round)));
      if world.answers(round).summarized {
        var after := Round(l, boundary.value, world.answers(round), world.arrivals(round));
        var estimated' := world.estimate(after.messages, after.consolidated);
        if estimated' != 0 {
          RoundsKeep(Saved(after), round + 1, estimated', target, world);
          GrowsOn(l, Saved(after), Rounds(Saved(after), round + 1, estimated', target, world));
        }
      }
    }
  }

  lemma ByTokensKeeps(l: Ledger, window: nat, completion: nat, world: World)
    requires Sound(l)
    ensures Sound(ByTokens(l, window, completion, world)) && Grows(l, ByTokens(l, window, completion, world))
  {
    var budget := Minus(Minus(window, completion), SAFETY_BUFFER);
    RoundsKeep(l, 0, world.estimate(l.messages, l.consolidated), budget / 2, world);
  }

  lemma MovedKeeps(l: Ledger, n: nat, answer: Answer)
    requires Sound(l) && 0 < n <= |Tail(l)|
    ensures Sound(Moved(l, n, answer)) && Moved(l, n, answer).Whole() == l.Whole()
    ensures Moved(l, n, answer).ReplayStart() == l.ReplayStart() + n
  {
    var chunk := Chunk(l.ReplayStart(), l.ReplayStart() + n, answer.summarized, answer.stored, true);
    TilesSnoc(l.chunks, chunk);
    TiledSnoc(Tiles(l.chunks), chunk, l.ReplayStart());
  }

  lemma IdleByKeeps(l: Ledger, n: nat, answer: Answer)
    requires Sound(l) && n <= |Tail(l)|
    ensures Sound(IdleBy(l, n, answer)) && IdleBy(l, n, answer).Whole() == l.Whole()
    ensures IdleBy(l, n, answer).ReplayStart() == l.ReplayStart() + n
  {
    if Tail(l) != [] && n > 0 {
      MovedKeeps(l, n, answer);
      SavedKeeps(Moved(l, n, answer));
    } else {
      SavedKeeps(l);
    }
  }

  lemma AppendedKeeps(l: Ledger, ms: seq<Value>)
    requires Sound(l)
    ensures Sound(Appended(l, ms)) && Appended(l, ms).Whole() == l.Whole() + ms
    ensures Appended(l, ms).ReplayStart() == l.ReplayStart()
  {
  }

  // ---------------------------------------------------------------------
  // What a token pass does
  // ---------------------------------------------------------------------

  predicate LaterUser(l: Ledger) { exists i :: l.consolidated < i < |l.messages| && HasRole(l.messages[i], User) }

  /** Round `k` hands the messages up to a boundary to the archiver and, if they are
      summarized, moves the replay start there and saves. */
  ghost predicate RoundDone(l: Ledger, after: Ledger, end: nat, k: nat, target: nat, world: World) {
    var answer := world.answers(k);
    && IsBoundary(l.messages, l.consolidated, target, world.weight, end)
    && after.chunks == l.chunks + [Chunk(l.ReplayStart(), |l.archive| + end, answer.summarized, answer.stored, answer.summarized)]
    && after.Whole() == l.Whole() + world.arrivals(k)
    && (if answer.summarized then after.consolidated == 0 && |after.archive| == |l.archive| + end
        else after.consolidated == l.consolidated && after.archive == l.archive)
  }

  /** A pass, state by state, from round `first` on: each round starts with an
      estimate over the target, and each but the last is summarized and leaves an
      estimate that is not zero. */
  datatype Trace = Trace(states: seq<Ledger>, estimates: seq<nat>, ends: seq<nat>)

  ghost predicate RoundFits(t: Trace, i: nat, first: nat, target: nat, world: World)
    requires i < |t.ends| < |t.states| && |t.states| == |t.estimates|
  {
    var k := first + i;
    && t.estimates[i] > target && target > 0
    && RoundDone(t.states[i], t.states[i + 1], t.ends[i], k, target, world)
    && (world.answers(k).summarized ==>
        t.estimates[i + 1] == world.estimate(t.states[i].messages + world.arrivals(k), t.ends[i]))
    && (i + 1 < |t.ends| ==> world.answers(k).summarized && t.estimates[i + 1] != 0)
  }

  /** Why it stops: five rounds are done, the last one was not summarized or left a
      zero estimate, the estimate is within the target, or no user turn is left to
      cut at. */
  predicate Stops(t: Trace, first: nat, target: nat, world: World)
    requires |t.states| == |t.estimates| == |t.ends| + 1
  {
    var n := |t.ends|;
    || first + n == MAX_ROUNDS || t.estimates[n] <= target || target == 0 || !LaterUser(t.states[n])
    || (n > 0 && (!world.answers(first + n - 1).summarized || t.estimates[n] == 0))
  }

  ghost predicate IsPass(t: Trace, first: nat, target: nat, world: World) {
    && |t.states| == |t.estimates| == |t.ends| + 1 && first + |t.ends| <= MAX_ROUNDS
    && (forall i: nat {:trigger t.ends[i]} :: i < |t.ends| ==> RoundFits(t, i, first, target, world))
    && Stops(t, first, target, world)
  }

  ghost predicate PassLeads(l: Ledger, after: Ledger, first: nat, estimated: nat, target: nat, world: World) {
    exists t :: IsPass(t, first, target, world) && t.states[0] == l && t.states[|t.ends|] == after && t.estimates[0] == estimated
  }

  lemma NoRound(l: Ledger, first: nat, estimated: nat, target: nat, world: World)
    requires first <= MAX_ROUNDS && (first == MAX_ROUNDS || estimated <= target || target == 0 || !LaterUser(l))
    ensures PassLeads(l, l, first, estimated, target, world)
  {
    assert IsPass(Trace([l], [estimated], []), first, target, world);
  }

  lemma OneRound(l: Ledger, after: Ledger, end: nat, first: nat, estimated: nat, next: nat, target: nat, world: World)
    requires first < MAX_ROUNDS && estimated > target > 0 && RoundDone(l, after, end, first, target, world)
    requires world.answers(first).summarized ==> next == 0 == world.estimate(l.messages + world.arrivals(first), end)
    ensures PassLeads(l, after, first, estimated, target, world)
  {
    var t := Trace([l, after], [estimated, next], [end]);
    assert RoundFits(t, 0, first, target, world);
    assert IsPass(t, first, target, world);
  }

  /** A trace with one more round in front stops where the other does. */
  lemma StopsAlike(t: Trace, u: Trace, first: nat, target: nat, world: World)
    requires |t.states| == |t.estimates| == |t.ends| + 1 && |u.states| == |u.estimates| == |u.ends| + 1
    requires |u.ends| == |t.ends| + 1 && u.states[|u.ends|] == t.states[|t.ends|]
    requires u.estimates[|u.ends|] == t.estimates[|t.ends|]
    requires Stops(t, first + 1, target, world)
    ensures Stops(u, first, target, world)
  {
    var n := |t.ends|;
    if n > 0 {
      var last, last' := first + 1 + n - 1, first + |u.ends| - 1;
      assert last == last';
      assert world.answers(last) == world.answers(last');
    }
  }

  lemma RoundBefore(l: Ledger, middle: Ledger, after: Ledger, end: nat, first: nat, estimated: nat, next: nat,
                    target: nat, world: World)
    requires first < MAX_ROUNDS && estimated > target > 0 && RoundDone(l, middle, end, first, target, world)
    requires world.answers(first).summarized && next == world.estimate(l.messages + world.arrivals(first), end) != 0
    requires PassLeads(middle, after, first + 1, next, target, world)
    ensures PassLeads(l, after, first, estimated, target, world)
  {
    var t :| IsPass(t, first + 1, target, world) && t.states[0] == middle && t.states[|t.ends|] == after && t.estimates[0] == next;
    var u := Trace([l] + t.states, [estimated] + t.estimates, [end] + t.ends);
    forall i: nat | i < |u.ends| ensures RoundFits(u, i, first, target, world) {
      if i > 0 {
        assert u.ends[i] == t.ends[i - 1];
        assert RoundFits(t, i - 1, first + 1, target, world);
      }
    }
    var n := |t.ends|;
    assert u.states[n + 1] == t.states[n] && u.estimates[n + 1] == t.estimates[n] && |u.ends| == n + 1;
    StopsAlike(t, u, first, target, world);
    assert IsPass(u, first, target, world);
  }

  lemma RoundIsDone(l: Ledger, end: nat, k: nat, target: nat, world: World)
    requires Sound(l) && IsBoundary(l.messages, l.consolidated, target, world.weight, end)
    ensures
      var after := Round(l, end, world.answers(k), world.arrivals(k));
      RoundDone(l, if world.answers(k).summarized then Saved(after) else after, end, k, target, world)
  {
    var after := Round(l, end, world.answers(k), world.arrivals(k));
    RoundKeeps(l, end, world.answers(k), world.arrivals(k));
    SavedWhole(after);
  }

  /** The rounds are such a pass. */
  lemma {:induction false} RoundsLead(l: Ledger, round: nat, estimated: nat, target: nat, world: World)
    requires Sound(l) && round <= MAX_ROUNDS
    ensures PassLeads(l, Rounds(l, round, estimated, target, world), round, estimated, target, world)
    decreases Minus(MAX_ROUNDS, round)
  {
    var boundary := Boundary(l.messages, l.consolidated, target, world.weight);
    BoundaryIs(l.messages, l.consolidated, target, world.weight);
    if round == MAX_ROUNDS || estimated <= target || boundary.None? {
      NoRound(l, round, estimated, target, world);
    } else {
      var end, answer := boundary.value, world.answers(round);
      var after := Round(l, end, answer, world.arrivals(round));
      RoundIsDone(l, end, round, target, world);
      if !answer.summarized {
        OneRound(l, after, end, round, estimated, 0, target, world);
      } else {
        var next := world.estimate(after.messages, after.consolidated);
        if next == 0 {
          OneRound(l, Saved(after), end, round, estimated, 0, target, world);
        } else {
          RoundKeeps(l, end, answer, world.arrivals(round));
          SavedKeeps(after);
          RoundsLead(Saved(after), round + 1, next, target, world);
          RoundBefore(l, Saved(after), Rounds(Saved(after), round + 1, next, target, world), end, round, estimated, next, target, world);
        }
      }
    }
  }

  /** What the prompt may hold: the window less the completion and a reserve. */
  function BudgetOf(window: nat, completion: nat): nat {
    if window >= completion + 1024 then window - completion - 1024 else 0
  }

  /** A token pass leaves the conversation alone below the budget, and otherwise
      archives round by round until the prompt is down to half of it. */
  ghost predicate TokenPassTells(l: Ledger, after: Ledger, window: nat, completion: nat, world: World) {
    var budget, estimated := BudgetOf(window, completion), world.estimate(l.messages, l.consolidated);
    if window == 0 || l.messages == [] || estimated == 0 || estimated < budget then after == l
    else PassLeads(l, after, 0, estimated, budget / 2, world)
  }

  lemma ByTokensTells(l: Ledger, window: nat, completion: nat, world: World)
    requires Sound(l)
    ensures TokenPassTells(l, ByTokens(l, window, completion, world), window, completion, world)
  {
    RoundsLead(l, 0, world.estimate(l.messages, l.consolidated), BudgetOf(window, completion) / 2, world);
  }

  /** A conversation at or above the budget, with a later user turn to cut at, is
      cut: a chunk from the replay start up to a boundary goes to the archiver, and
      if it is summarized replay starts no earlier than its end. */
  lemma TokenPassCuts(l: Ledger, window: nat, completion: nat, world: World)
    requires Sound(l) && window != 0 && LaterUser(l) && BudgetOf(window, completion) >= 2
    requires world.estimate(l.messages, l.consolidated) >= BudgetOf(window, completion)
    ensures
      var after, answer := ByTokens(l, window, completion, world), world.answers(0);
      exists end :: IsBoundary(l.messages, l.consolidated, BudgetOf(window, completion) / 2, world.weight, end)
        && |after.chunks| > |l.chunks|
        && after.chunks[|l.chunks|] == Chunk(l.ReplayStart(), |l.archive| + end, answer.summarized, answer.stored, answer.summarized)
        && (answer.summarized ==> after.ReplayStart() >= |l.archive| + end > l.ReplayStart())
  {
    var target, estimated := BudgetOf(window, completion) / 2, world.estimate(l.messages, l.consolidated);
    BoundaryIs(l.messages, l.consolidated, target, world.weight);
    var end := Boundary(l.messages, l.consolidated, target, world.weight).value;
    var round := Round(l, end, world.answers(0), world.arrivals(0));
    RoundKeeps(l, end, world.answers(0), world.arrivals(0));
    if world.answers(0).summarized {
      var next := world.estimate(round.messages, round.consolidated);
      SavedKeeps(round);
      if next != 0 {
        RoundsKeep(Saved(round), 1, next, target, world);
        FewRounds(Saved(round), 1, next, target, world);
      }
    }
  }

  // ---------------------------------------------------------------------
  // Any sequence of operations
  // ---------------------------------------------------------------------

  datatype Operation =
    | Append(messages: seq<Value>)
    | TokenPass(window: nat, completion: nat, world: World)
    | IdlePass(suffix: nat, answer: Answer, arrivals: seq<Value>)

  ghost function After(l: Ledger, op: Operation): Ledger {
    match op
    case Append(ms) => Appended(l, ms)
    case TokenPass(window, completion, world) => ByTokens(l, window, completion, world)
    case IdlePass(suffix, answer, arrivals) => Idle(l, suffix, answer, arrivals)
  }

  /** An idle compaction that drops something while messages arrive. */
  ghost predicate Overlaps(l: Ledger, op: Operation) {
    op.IdlePass? && Dropped(l, op.suffix) > 0 && op.arrivals != []
  }

  /** An idle compaction that drops something hands just that over, and the boundary
      passes it whether it was summarized or not. */
  lemma IdleArchives(l: Ledger, suffix: nat, answer: Answer, arrivals: seq<Value>)
    requires Sound(l)
    ensures
      var n := Dropped(l, suffix);
      Idle(l, suffix, answer, arrivals).chunks
      == l.chunks + if n == 0 then [] else [Chunk(l.ReplayStart(), l.ReplayStart() + n, answer.summarized, answer.stored, true)]
    ensures Idle(l, suffix, answer, arrivals).consolidated == 0
  {
    assert l.chunks + [] == l.chunks;
    DroppedIs(l, suffix);
    assert Tail(l) == [] ==> Dropped(l, suffix) == 0;
  }

  lemma IdleKeeps(l: Ledger, suffix: nat, answer: Answer, arrivals: seq<Value>)
    requires Sound(l)
    ensures Sound(Idle(l, suffix, answer, arrivals))
    ensures Idle(l, suffix, answer, arrivals).ReplayStart() == l.ReplayStart() + Dropped(l, suffix)
    ensures Idle(l, suffix, answer, arrivals).Whole()
         == if Dropped(l, suffix) == 0 then l.Whole() + arrivals else l.Whole()
  {
    if Dropped(l, suffix) == 0 {
      SavedKeeps(l);
      AppendedKeeps(Saved(l), arrivals);
    } else {
      IdleByKeeps(l, Dropped(l, suffix), answer);
    }
  }

  /** An idle compaction keeps what arrives while it waits if and only if
      nothing arrives or there is nothing to drop. */
  lemma IdleKeepsArrivalsIff(l: Ledger, suffix: nat, answer: Answer, arrivals: seq<Value>)
    requires Sound(l)
    ensures Idle(l, suffix, answer, arrivals).Whole() == l.Whole() + arrivals <==> !Overlaps(l, IdlePass(suffix, answer, arrivals))
  {
    IdleKeeps(l, suffix, answer, arrivals);
    assert arrivals == [] ==> l.Whole() + arrivals == l.Whole();
    assert |l.Whole() + arrivals| == |l.Whole()| + |arrivals|;
  }

  lemma StepKeeps(l: Ledger, op: Operation)
    requires Sound(l)
    ensures Sound(After(l, op)) && l.ReplayStart() <= After(l, op).ReplayStart()
    ensures l.Whole() <= After(l, op).Whole()
  {
    match op
    case Append(ms) => AppendedKeeps(l, ms);
    case TokenPass(window, completion, world) => ByTokensKeeps(l, window, completion, world);
    case IdlePass(suffix, answer, arrivals) => IdleKeeps(l, suffix, answer, arrivals);
  }

  const EMPTY := Ledger([], [], 0, [])

  ghost function RunAll(ops: seq<Operation>): Ledger {
    if ops == [] then EMPTY else After(RunAll(ops[..|ops| - 1]), ops[|ops| - 1])
  }

  lemma {:induction false} RunSound(ops: seq<Operation>)
    ensures Sound(RunAll(ops))
  {
    if ops != [] {
      RunSound(ops[..|ops| - 1]);
      StepKeeps(RunAll(ops[..|ops| - 1]), ops[|ops| - 1]);
    }
  }

  /** Over any sequence of appends, token passes and idle compactions: what the
      conversation held earlier it holds later, unchanged and in place, whether
      archived or live, and replay never moves back. */
  lemma {:induction false} RunGrows(ops: seq<Operation>, n: nat)
    requires n <= |ops|
    ensures RunAll(ops[..n]).Whole() <= RunAll(ops).Whole()
    ensures RunAll(ops[..n]).ReplayStart() <= RunAll(ops).ReplayStart() <= |RunAll(ops).Whole()|
    decreases |ops|
  {
    RunSound(ops);
    if n == |ops| {
      assert ops[..n] == ops;
    } else {
      var front := ops[..|ops| - 1];
      assert front[..n] == ops[..n];
      RunGrows(front, n);
      RunSound(front);
      StepKeeps(RunAll(front), ops[|ops| - 1]);
    }
  }

  const ASKED := Object(map[Role := RoleName(User), Content := Str("question")])
  const LATE := Object(map[Role := RoleName(User), Content := Str("one more")])

  /** `n` user messages; keeping the last but one of them drops one. */
  function Questions(n: nat): seq<Value> { seq(n, i => ASKED) }

  lemma QuestionsKept(suffix: nat)
    requires suffix > 0
    ensures |Retained(Questions(suffix + 1), suffix)| == suffix
  {
    var ms := Questions(suffix + 1);
    RetainedIs(ms, suffix);
    AnchorIs(ms, suffix);
    LastUserIs(ms, 2);
    assert HasRole(ms[1], User);
    assert Answers(ASKED).None?;
    assert LegalFrom(ms, 1);
  }

  lemma LateIsNew(n: nat)
    ensures LATE !in Questions(n)
  {
    assert "question" != "one more";
    assert ASKED.fields[Content] != LATE.fields[Content];
  }

  lemma RunOfTwo(first: Operation, second: Operation)
    ensures RunAll([first, second]) == After(After(EMPTY, first), second)
  {
    var ops := [first, second];
    assert ops[..1] == [first] && [first][..0] == [];
    assert RunAll([first]) == After(EMPTY, first);
  }

  lemma FreshIdle(l: Ledger, ms: seq<Value>, suffix: nat, answer: Answer, arrivals: seq<Value>)
    requires l == Ledger([], ms, 0, []) && |Retained(ms, suffix)| < |ms|
    ensures Idle(l, suffix, answer, arrivals).Whole() == ms
  {
    FreshLedger(l, ms);
    IdleKeeps(l, suffix, answer, arrivals);
  }

  lemma FirstAppend(ms: seq<Value>)
    ensures After(EMPTY, Append(ms)) == Ledger([], ms, 0, [])
  {
    assert [] + ms == ms;
  }

  lemma ArrivalIsLost(ms: seq<Value>, suffix: nat, answer: Answer, late: Value)
    requires |Retained(ms, suffix)| < |ms|
    ensures RunAll([Append(ms), IdlePass(suffix, answer, [late])]).Whole() == ms
  {
    RunOfTwo(Append(ms), IdlePass(suffix, answer, [late]));
    FirstAppend(ms);
    FreshIdle(Ledger([], ms, 0, []), ms, suffix, answer, [late]);
  }

  /** A conversation of one message more than the suffix, compacted while a
      message arrives: the message is in no file and not live. */
  lemma ArrivalIsLostExample(suffix: nat, answer: Answer)
    requires suffix > 0
    ensures
      var whole := RunAll([Append(Questions(suffix + 1)), IdlePass(suffix, answer, [LATE])]).Whole();
      whole == Questions(suffix + 1) && LATE !in whole
  {
    QuestionsKept(suffix);
    ArrivalIsLost(Questions(suffix + 1), suffix, answer, LATE);
    LateIsNew(suffix + 1);
  }

  lemma FreshLedger(l: Ledger, ms: seq<Value>)
    requires l == Ledger([], ms, 0, [])
    ensures Sound(l) && Tail(l) == ms && l.Whole() == ms
  {
    assert [] + ms == ms && ms[0..] == ms;
    assert Tiles(l.chunks) == [];
  }

  lemma {:induction false} TilesAreChunks(chunks: seq<Chunk>)
    ensures forall c :: c in Tiles(chunks) ==> c in chunks && c.advanced
  {
    if chunks != [] {
      TilesAreChunks(chunks[..|chunks| - 1]);
    }
  }

  /** Tiles cover their range, and each position exactly once. */
  lemma {:induction false} TiledCovers(tiles: seq<Chunk>, end: nat, at: nat)
    requires Tiled(tiles, end) && at < end
    ensures exists i :: 0 <= i < |tiles| && tiles[i].lo <= at < tiles[i].hi
  {
    var last := tiles[|tiles| - 1];
    if at < last.lo {
      var front := tiles[..|tiles| - 1];
      TiledCovers(front, last.lo, at);
      var i :| 0 <= i < |front| && front[i].lo <= at < front[i].hi;
      assert tiles[i] == front[i];
    } else {
      assert tiles[|tiles| - 1].lo <= at < tiles[|tiles| - 1].hi;
    }
  }

  lemma {:induction false} TiledInOrder(tiles: seq<Chunk>, end: nat, i: nat, j: nat)
    requires Tiled(tiles, end) && i < j < |tiles|
    ensures tiles[i].lo < tiles[i].hi <= tiles[j].lo < tiles[j].hi <= end
    ensures j == i + 1 ==> tiles[i].hi == tiles[j].lo
  {
    var front, last := tiles[..|tiles| - 1], tiles[|tiles| - 1];
    if j < |front| {
      TiledInOrder(front, last.lo, i, j);
    } else if i < |front| - 1 {
      TiledInOrder(front, last.lo, i, |front| - 1);
      assert front[|front| - 1].hi == last.lo;
    }
  }

  /** Every message below the replay boundary was handed to the archiver in a
      chunk that moved the boundary over it, to be summarized or dumped raw.
      Those chunks are contiguous,
      disjoint and in order. */
  lemma EverythingHiddenIsArchived(ops: seq<Operation>, at: nat)
    requires at < RunAll(ops).ReplayStart()
    ensures exists c :: c in RunAll(ops).chunks && c.advanced && c.lo <= at < c.hi
    ensures
      var tiles := Tiles(RunAll(ops).chunks);
      forall i, j :: 0 <= i < j < |tiles| ==> tiles[i].hi <= tiles[j].lo && (j == i + 1 ==> tiles[i].hi == tiles[j].lo)
  {
    RunSound(ops);
    var l := RunAll(ops);
    var tiles := Tiles(l.chunks);
    TiledCovers(tiles, l.ReplayStart(), at);
    var k :| 0 <= k < |tiles| && tiles[k].lo <= at < tiles[k].hi;
    TilesAreChunks(l.chunks);
    assert tiles[k] in tiles;
    forall i, j | 0 <= i < j < |tiles|
      ensures tiles[i].hi <= tiles[j].lo && (j == i + 1 ==> tiles[i].hi == tiles[j].lo)
    {
      TiledInOrder(tiles, l.ReplayStart(), i, j);
    }
  }

  /** The chunk that moved the boundary over this message is in the log. */
  ghost predicate StoredAt(chunks: seq<Chunk>, at: nat) {
    exists c :: c in chunks && c.advanced && c.stored && c.lo <= at < c.hi
  }

  lemma {:induction false} AdvancedAreTiles(chunks: seq<Chunk>)
    ensures forall c :: c in chunks && c.advanced ==> c in Tiles(chunks)
  {
    if chunks != [] {
      assert chunks == chunks[..|chunks| - 1] + [chunks[|chunks| - 1]];
      AdvancedAreTiles(chunks[..|chunks| - 1]);
    }
  }

  lemma {:induction false} TileFits(tiles: seq<Chunk>, end: nat, i: nat)
    requires Tiled(tiles, end) && i < |tiles|
    ensures tiles[i].lo < tiles[i].hi <= end
  {
    if i < |tiles| - 1 {
      TileFits(tiles[..|tiles| - 1], tiles[|tiles| - 1].lo, i);
    }
  }

  /** Tiles that share a position are the same. */
  lemma OneTileAt(tiles: seq<Chunk>, end: nat, c: Chunk, d: Chunk, at: nat)
    requires Tiled(tiles, end) && c in tiles && d in tiles && c.lo <= at < c.hi && d.lo <= at < d.hi
    ensures c == d
  {
    var i :| 0 <= i < |tiles| && tiles[i] == c;
    var j :| 0 <= j < |tiles| && tiles[j] == d;
    if i < j {
      TiledInOrder(tiles, end, i, j);
    } else if j < i {
      TiledInOrder(tiles, end, j, i);
    }
  }

  /** Since a refused entry stops nothing: every message below the replay boundary
      is in the log, in a summary or raw, by the chunk that moved the boundary over
      it if and only if the log took the entry of every such chunk. */
  lemma HiddenIsStoredIff(ops: seq<Operation>)
    ensures (forall at: nat :: at < RunAll(ops).ReplayStart() ==> StoredAt(RunAll(ops).chunks, at))
       <==> forall c :: c in RunAll(ops).chunks && c.advanced ==> c.stored
  {
    var chunks, end := RunAll(ops).chunks, RunAll(ops).ReplayStart();
    var tiles := Tiles(chunks);
    RunSound(ops);
    AdvancedAreTiles(chunks);
    TilesAreChunks(chunks);
    if forall at: nat :: at < end ==> StoredAt(chunks, at) {
      forall c | c in chunks && c.advanced ensures c.stored {
        var i :| 0 <= i < |tiles| && tiles[i] == c;
        TileFits(tiles, end, i);
        assert StoredAt(chunks, c.lo);
        var d :| d in chunks && d.advanced && d.stored && d.lo <= c.lo < d.hi;
        OneTileAt(tiles, end, c, d, c.lo);
      }
    }
    if forall c :: c in chunks && c.advanced ==> c.stored {
      forall at: nat | at < end ensures StoredAt(chunks, at) {
        TiledCovers(tiles, end, at);
        var i :| 0 <= i < |tiles| && tiles[i].lo <= at < tiles[i].hi;
        assert tiles[i] in tiles;
      }
    }
  }

  /** A token pass hands at most five chunks over, and stops at the first one
      whose summary failed. */
  lemma {:induction false} FewRounds(l: Ledger, round: nat, estimated: nat, target: nat, world: World)
    requires round <= MAX_ROUNDS
    ensures
      var after := Rounds(l, round, estimated, target, world).chunks;
      && l.chunks <= after && |after| <= |l.chunks| + MAX_ROUNDS - round
      && forall i :: |l.chunks| <= i < |after| - 1 ==> after[i].summarized
    decreases Minus(MAX_ROUNDS, round)
  {
    var boundary := Boundary(l.messages, l.consolidated, target, world.weight);
    if round < MAX_ROUNDS && estimated > target && boundary.Some? && world.answers(round).summarized {
      var after := Round(l, boundary.value, world.answers(round), world.arrivals(round));
      var estimated' := world.estimate(after.messages, after.consolidated);
      FewRounds(Saved(after), round + 1, estimated', target, world);
    }
  }

  // ---------------------------------------------------------------------
  // Idle compaction twice
  // ---------------------------------------------------------------------

  lemma SliceTwice<T>(s: seq<T>, i: nat, n: nat)
    requires i + n <= |s|
    ensures s[i..][n..] == s[i + n..]
  {
  }

  lemma MovedTail(l: Ledger, n: nat, answer: Answer)
    requires l.consolidated <= |l.messages| && n <= |Tail(l)|
    ensures Tail(Moved(l, n, answer)) == Tail(l)[n..]
  {
    SliceTwice(l.messages, l.consolidated, n);
  }

  lemma IdleByTail(l: Ledger, n: nat, answer: Answer)
    requires Sound(l) && n <= |Tail(l)|
    ensures Tail(IdleBy(l, n, answer)) == Tail(l)[n..]
  {
    if Tail(l) == [] || n == 0 {
      SavedKeeps(l);
    } else {
      MovedTail(l, n, answer);
      SavedKeeps(Moved(l, n, answer));
    }
  }

  lemma DroppedIs(l: Ledger, suffix: nat)
    ensures Dropped(l, suffix) <= |Tail(l)| && Retained(Tail(l), suffix) == Tail(l)[Dropped(l, suffix)..]
  {
    RetainedIs(Tail(l), suffix);
  }

  lemma NothingAppended(l: Ledger)
    ensures Appended(l, []) == l
  {
    assert l.messages + [] == l.messages;
  }

  /** After a compaction the prompt starts at the suffix it kept. */
  lemma IdleTail(l: Ledger, suffix: nat, answer: Answer)
    requires Sound(l)
    ensures Tail(Idle(l, suffix, answer, [])) == Retained(Tail(l), suffix)
  {
    DroppedIs(l, suffix);
    var n := Dropped(l, suffix);
    IdleByTail(l, n, answer);
    NothingAppended(Saved(l));
    assert Idle(l, suffix, answer, []) == IdleBy(l, n, answer);
  }

  /** With nothing new in between, a second compaction drops something exactly
      when the first cut fell into a torn turn; a third never does. */
  lemma IdleTwice(l: Ledger, suffix: nat, answer: Answer, answer': Answer)
    requires Sound(l)
    ensures Dropped(Idle(l, suffix, answer, []), suffix) > 0 <==> TornTurn(Tail(l), suffix)
    ensures Dropped(Idle(Idle(l, suffix, answer, []), suffix, answer', []), suffix) == 0
  {
    var once := Retained(Tail(l), suffix);
    IdleTail(l, suffix, answer);
    IdleKeeps(l, suffix, answer, []);
    IdleTail(Idle(l, suffix, answer, []), suffix, answer');
    RetainTwice(Tail(l), suffix);
    RetainThrice(Tail(l), suffix);
    RetainedIs(once, suffix);
    assert |Retained(once, suffix)| == |once| ==> Retained(once, suffix) == once;
  }

  // ---------------------------------------------------------------------
  // The session object
  // ---------------------------------------------------------------------

  class Conversation {
    var archive: seq<Value>
    var messages: seq<Value>
    var consolidated: nat
    ghost var chunks: seq<Chunk>

    ghost function State(): Ledger reads this { Ledger(archive, messages, consolidated, chunks) }

    ghost predicate Valid() reads this { Sound(State()) }

    constructor ()
      ensures Valid() && State() == EMPTY
    {
      archive, messages, consolidated, chunks := [], [], 0, [];
    }

    method Append(ms: seq<Value>)
      requires Valid()
      modifies this
      ensures Valid() && State() == Appended(old(State()), ms)
    {
      AppendedKeeps(State(), ms);
      Arrive(ms);
    }

    /** Archives the consolidated prefix and keeps the live tail. */
    method Save()
      modifies this
      ensures State() == Saved(old(State()))
      ensures State().Whole() == old(State()).Whole() && State().ReplayStart() == old(State()).ReplayStart()
      ensures consolidated == 0
    {
      SavedWhole(State());
      var n := if consolidated <= |messages| then consolidated else |messages|;
      archive := archive + messages[..n];
      messages := messages[n..];
      consolidated := 0;
    }

    /** Hands the live messages up to `end` to the archiver. */
    method ArchiveUpTo(end: nat, answer: Answer, arrivals: seq<Value>)
      modifies this
      ensures State() == Round(old(State()), end, answer, arrivals)
    {
      chunks := chunks + [Chunk(State().ReplayStart(), |archive| + end, answer.summarized, answer.stored, answer.summarized)];
      messages := messages + arrivals;
      if answer.summarized {
        consolidated := end;
      }
    }

    method ArchiveRounds(first: nat, target: nat, world: World)
      modifies this
      ensures State() == Rounds(old(State()), 0, first, target, world)
    {
      var estimated: nat, round: nat := first, 0;
      while round < MAX_ROUNDS
        invariant 0 <= round <= MAX_ROUNDS
        invariant Rounds(State(), round, estimated, target, world) == Rounds(old(State()), 0, first, target, world)
      {
        if estimated <= target {
          return;
        }
        var found := PickBoundary(messages, consolidated, target, world.weight);
        if found.None? {
          return;
        }
        ArchiveUpTo(found.value.0, world.answers(round), world.arrivals(round));
        if !world.answers(round).summarized {
          return;
        }
        estimated := world.estimate(messages, consolidated);
        Save();
        if estimated == 0 {
          return;
        }
        round := round + 1;
      }
    }

    /** Archives old messages round by round until the prompt fits. */
    method ConsolidateByTokens(window: nat, completion: nat, world: World)
      requires Valid()
      modifies this
      ensures Valid() && State() == ByTokens(old(State()), window, completion, world)
      ensures TokenPassTells(old(State()), State(), window, completion, world)
    {
      ByTokensTells(State(), window, completion, world);
      ByTokensKeeps(State(), window, completion, world);
      if window != 0 && messages != [] {
        var budget := Minus(Minus(window, completion), SAFETY_BUFFER);
        var estimated := world.estimate(messages, consolidated);
        if estimated != 0 && estimated >= budget {
          ArchiveRounds(estimated, budget / 2, world);
        }
      }
    }

    /** Archives the first `n` replayed messages of the copy taken beforehand
        and stores that copy in place of the live session. */
    method StoreCopy(copy: seq<Value>, n: nat, answer: Answer, arrivals: seq<Value>)
      requires copy == messages && consolidated <= |copy| && 0 < n <= |copy| - consolidated
      modifies this
      ensures State() == IdleBy(old(State()), n, answer)
    {
      var hidden := consolidated + n;
      chunks := chunks + [Chunk(State().ReplayStart(), State().ReplayStart() + n, answer.summarized, answer.stored, true)];
      messages := messages + arrivals;
      messages, consolidated := copy, hidden;
      Save();
    }

    /** How much of the replayed tail a retention of `suffix` messages drops. */
    method CountDropped(suffix: nat) returns (dropped: nat)
      requires Valid()
      ensures dropped == Dropped(State(), suffix) <= |messages| - consolidated
    {
      DroppedIs(State(), suffix);
      var visible := RetainRecentLegalSuffix(messages[consolidated..], suffix);
      dropped := |messages| - consolidated - |visible|;
    }

    /** Archives the idle tail but for a legal recent suffix. `summary` is what
        the archiver answers, `stored` whether the log took it, `arrivals` what comes in while it is asked. */
    method CompactIdle(suffix: nat, summary: Option<string>, stored: bool, arrivals: seq<Value>) returns (result: Option<string>)
      requires Valid()
      modifies this
      ensures Valid() && State() == Idle(old(State()), suffix, Answer(summary.Some?, stored), arrivals)
      ensures result == if Dropped(old(State()), suffix) == 0 then Some("") else summary
    {
      IdleKeeps(State(), suffix, Answer(summary.Some?, stored), arrivals);
      var dropped := CountDropped(suffix);
      if dropped == 0 {
        Save();
        Arrive(arrivals);
        result := Some("");
      } else {
        StoreCopy(messages, dropped, Answer(summary.Some?, stored), arrivals);
        result := summary;
      }
    }

    method Arrive(ms: seq<Value>)
      modifies this
      ensures State() == Appended(old(State()), ms)
    {
      messages := messages + ms;
    }
  }
}
