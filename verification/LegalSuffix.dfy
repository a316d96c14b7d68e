// Keeping a legal recent suffix of a conversation: no tool result without the
// assistant message that called the tool, and preferably a user turn first.

module LegalSuffix {
  import opened Wrappers
  import opened Json

  // ---------------------------------------------------------------------
  // Legal message starts
  // ---------------------------------------------------------------------

  function IdsOf(calls: seq<Value>): set<string> {
    if calls == [] then {}
    else
      var id := AsStr(Get(calls[|calls| - 1], Id));
      IdsOf(calls[..|calls| - 1]) + (if id.Some? then {id.value} else {})
  }

  /** Call ids an assistant message declares. */
  function Declares(m: Value): set<string> {
    var calls := AsArray(Get(m, ToolCallList));
    if HasRole(m, Assistant) && calls.Some? then IdsOf(calls.value) else {}
  }

  /** The call id a tool message answers, if it names one. */
  function Answers(m: Value): Option<string> {
    if HasRole(m, Tool) then AsStr(Get(m, ToolCallId)) else None
  }

  /** Message `i` answers a call that no message from `start` on declared. */
  predicate Orphan(ms: seq<Value>, start: nat, i: nat)
    requires i < |ms|
  {
    Answers(ms[i]).Some? && forall j :: start <= j < i ==> Answers(ms[i]).value !in Declares(ms[j])
  }

  /** From `start` up to `end` every tool result has its call. */
  ghost predicate LegalWithin(ms: seq<Value>, start: nat, end: nat)
    requires end <= |ms|
  {
    forall i: nat :: start <= i < end ==> !Orphan(ms, start, i)
  }

  ghost predicate LegalFrom(ms: seq<Value>, start: nat) { LegalWithin(ms, start, |ms|) }

  /** The first index from which the messages are legal. */
  ghost function LegalStart(ms: seq<Value>, from: nat): (start: nat)
    requires from <= |ms|
    decreases |ms| - from
  {
    if LegalFrom(ms, from) then from else LegalStart(ms, from + 1)
  }

  lemma {:induction false} LegalStartIs(ms: seq<Value>, from: nat)
    requires from <= |ms|
    ensures from <= LegalStart(ms, from) <= |ms|
    ensures LegalFrom(ms, LegalStart(ms, from))
    ensures forall k :: from <= k < LegalStart(ms, from) ==> !LegalFrom(ms, k)
    decreases |ms| - from
  {
    if !LegalFrom(ms, from) {
      LegalStartIs(ms, from + 1);
    }
  }

  function DeclaredWithin(ms: seq<Value>, start: nat, end: nat): set<string>
    requires start <= end <= |ms|
    decreases end - start
  {
    if start == end then {} else DeclaredWithin(ms, start, end - 1) + Declares(ms[end - 1])
  }

  lemma {:induction false} DeclaredIs(ms: seq<Value>, start: nat, end: nat, id: string)
    requires start <= end <= |ms|
    ensures id in DeclaredWithin(ms, start, end) <==> exists j :: start <= j < end && id in Declares(ms[j])
    decreases end - start
  {
    if start < end {
      DeclaredIs(ms, start, end - 1, id);
    }
  }

  /** An orphan stays one however late the suffix starts. */
  lemma OrphanFromLater(ms: seq<Value>, start: nat, i: nat)
    requires i < |ms| && Orphan(ms, start, i)
    ensures forall k: nat :: start <= k <= i ==> Orphan(ms, k, i) && !LegalFrom(ms, k)
  {
    forall k: nat | start <= k <= i ensures Orphan(ms, k, i) && !LegalFrom(ms, k) {
      assert Orphan(ms, k, i);
    }
  }

  /** The single forward scan with a set of declared ids finds the least legal
      start: the longest suffix in which every tool result has its call. */
  method FindLegalMessageStart(ms: seq<Value>, from: nat) returns (start: nat)
    requires from <= |ms|
    ensures start == LegalStart(ms, from)
    ensures from <= start <= |ms| && LegalFrom(ms, start)
    ensures forall k: nat :: from <= k < start ==> !LegalFrom(ms, k)
  {
    var declared: set<string> := {};
    start := from;
    for i := from to |ms|
      invariant from <= start <= i
      invariant declared == DeclaredWithin(ms, start, i)
      invariant LegalWithin(ms, start, i)
      invariant forall k: nat :: from <= k < start ==> !LegalFrom(ms, k)
    {
      var id := Answers(ms[i]);
      if HasRole(ms[i], Assistant) {
        declared := declared + Declares(ms[i]);
      } else if id.Some? {
        DeclaredIs(ms, start, i, id.value);
        if id.value !in declared {
          OrphanFromLater(ms, start, i);
          start := i + 1;
          declared := {};
        }
      }
    }
    LegalStartIs(ms, from);
    assert LegalFrom(ms, start);
    assert start == LegalStart(ms, from);
  }

  // ---------------------------------------------------------------------
  // Retention
  // ---------------------------------------------------------------------

  /** The last user turn before index `n`. */
  function LastUser(ms: seq<Value>, n: nat): Option<nat>
    requires n <= |ms|
  {
    if n == 0 then None
    else if HasRole(ms[n - 1], User) then Some(n - 1)
    else LastUser(ms, n - 1)
  }

  /** The first user turn from index `n` on. */
  function FirstUser(ms: seq<Value>, n: nat): Option<nat>
    requires n <= |ms|
    decreases |ms| - n
  {
    if n == |ms| then None
    else if HasRole(ms[n], User) then Some(n)
    else FirstUser(ms, n + 1)
  }

  /** Where the suffix would start before it is made legal: at the nearest user
      turn at or before the cut, else the first one after it, else the cut. */
  function Anchor(ms: seq<Value>, max: nat): nat
    requires 0 < max < |ms|
  {
    var cut := |ms| - max;
    var start := if LastUser(ms, cut + 1).Some? then LastUser(ms, cut + 1).value else cut;
    if start <= |ms| && FirstUser(ms, start).Some? then FirstUser(ms, start).value else start
  }

  ghost function RetainStart(ms: seq<Value>, max: nat): nat {
    if max == 0 then |ms|
    else if |ms| <= max then 0
    else if Anchor(ms, max) <= |ms| then LegalStart(ms, Anchor(ms, max))
    else 0
  }

  /** What a retention extended to a user turn keeps. */
  ghost function Retained(ms: seq<Value>, max: nat): seq<Value> {
    if RetainStart(ms, max) <= |ms| then ms[RetainStart(ms, max)..] else []
  }

  lemma {:induction false} LastUserIs(ms: seq<Value>, n: nat)
    requires n <= |ms|
    ensures
      match LastUser(ms, n)
      case Some(u) => u < n && HasRole(ms[u], User) && forall j :: u < j < n ==> !HasRole(ms[j], User)
      case None => forall j :: 0 <= j < n ==> !HasRole(ms[j], User)
  {
    if n > 0 && !HasRole(ms[n - 1], User) {
      LastUserIs(ms, n - 1);
    }
  }

  lemma {:induction false} FirstUserIs(ms: seq<Value>, n: nat)
    requires n <= |ms|
    ensures
      match FirstUser(ms, n)
      case Some(u) => n <= u < |ms| && HasRole(ms[u], User) && forall j :: n <= j < u ==> !HasRole(ms[j], User)
      case None => forall j :: n <= j < |ms| ==> !HasRole(ms[j], User)
    decreases |ms| - n
  {
    if n < |ms| && !HasRole(ms[n], User) {
      FirstUserIs(ms, n + 1);
    }
  }

  lemma AnchorIs(ms: seq<Value>, max: nat)
    requires 0 < max < |ms|
    ensures
      var cut := |ms| - max;
      match LastUser(ms, cut + 1)
      case Some(u) => Anchor(ms, max) == u <= cut
      case None => cut <= Anchor(ms, max) <= |ms|
  {
    var cut := |ms| - max;
    LastUserIs(ms, cut + 1);
    FirstUserIs(ms, cut);
    match LastUser(ms, cut + 1) {
      case Some(u) =>
        FirstUserIs(ms, u);
      case None =>
    }
  }

  /** The retained messages are the longest legal suffix from the anchor on;
      the suffix is only longer than the limit when it starts inside the user
      turn that the cut fell into. */
  lemma RetainedIs(ms: seq<Value>, max: nat)
    ensures RetainStart(ms, max) <= |ms|
    ensures Retained(ms, max) == ms[RetainStart(ms, max)..]
    ensures |ms| <= max || max == 0 ==> Retained(ms, max) == if max == 0 then [] else ms
    ensures 0 < max < |ms| ==>
      && Anchor(ms, max) <= RetainStart(ms, max)
      && LegalFrom(ms, RetainStart(ms, max))
      && forall k: nat :: Anchor(ms, max) <= k < RetainStart(ms, max) ==> !LegalFrom(ms, k)
  {
    if 0 < max < |ms| {
      AnchorIs(ms, max);
      LegalStartIs(ms, Anchor(ms, max));
    }
  }

  method RetainRecentLegalSuffix(ms: seq<Value>, max: nat) returns (kept: seq<Value>)
    ensures kept == Retained(ms, max)
  {
    if max == 0 {
      return [];
    }
    if |ms| <= max {
      return ms;
    }
    var start := |ms| - max;
    ghost var cut := start;
    var i := start + 1;
    while i > 0 && !HasRole(ms[i - 1], User)
      invariant 0 <= i <= cut + 1
      invariant LastUser(ms, i) == LastUser(ms, cut + 1)
    {
      i := i - 1;
    }
    if i > 0 {
      start := i - 1;
    }
    var k := start;
    while k < |ms| && !HasRole(ms[k], User)
      invariant start <= k <= |ms|
      invariant FirstUser(ms, k) == FirstUser(ms, start)
    {
      k := k + 1;
    }
    if k < |ms| {
      start := k;
    }
    assert start == Anchor(ms, max);
    start := FindLegalMessageStart(ms, start);
    kept := ms[start..];
  }

  lemma {:induction false} IdsOfAre(calls: seq<Value>, id: string)
    ensures id in IdsOf(calls) <==> exists call :: call in calls && Get(call, Id) == Some(Str(id))
  {
    if calls != [] {
      var front, last := calls[..|calls| - 1], calls[|calls| - 1];
      IdsOfAre(front, id);
      assert calls == front + [last];
    }
  }

  /** Only an assistant message declares a call, and declares each of its calls
      with a string id; only a tool message answers one. */
  lemma DeclaresIff(m: Value, id: string)
    ensures id in Declares(m) <==>
      HasRole(m, Assistant) && exists calls, call :: Get(m, ToolCallList) == Some(Array(calls)) && call in calls && Get(call, Id) == Some(Str(id))
    ensures Answers(m) == Some(id) <==> HasRole(m, Tool) && Get(m, ToolCallId) == Some(Str(id))
  {
    var calls := AsArray(Get(m, ToolCallList));
    if calls.Some? {
      IdsOfAre(calls.value, id);
    }
  }

  /** From where the messages are kept if they are legal: the nearest user turn at
      or before the cut, without one the first behind it, else the cut. */
  ghost predicate IsAnchor(ms: seq<Value>, cut: nat, at: nat) {
    || (at <= cut < |ms| && HasRole(ms[at], User) && forall j :: at < j <= cut ==> !HasRole(ms[j], User))
    || (cut < at < |ms| && HasRole(ms[at], User) && forall j :: 0 <= j < at ==> !HasRole(ms[j], User))
    || (at == cut && forall j :: 0 <= j < |ms| ==> !HasRole(ms[j], User))
  }

  lemma AnchorTells(ms: seq<Value>, max: nat)
    requires 0 < max < |ms|
    ensures IsAnchor(ms, |ms| - max, Anchor(ms, max))
  {
    var cut := |ms| - max;
    LastUserIs(ms, cut + 1);
    FirstUserIs(ms, cut);
    if LastUser(ms, cut + 1).Some? {
      FirstUserIs(ms, LastUser(ms, cut + 1).value);
    }
  }

  /** The longest legal suffix from the anchor on. */
  ghost predicate IsLongestLegal(ms: seq<Value>, anchor: nat, kept: seq<Value>) {
    && |kept| <= |ms| && anchor <= |ms| - |kept| && kept == ms[|ms| - |kept|..] && LegalFrom(ms, |ms| - |kept|)
    && forall k: nat :: anchor <= k < |ms| - |kept| ==> !LegalFrom(ms, k)
  }

  /** What a retention keeps, by places in the list. */
  lemma RetainTells(ms: seq<Value>, max: nat)
    ensures max == 0 ==> Retained(ms, max) == []
    ensures 0 < max && |ms| <= max ==> Retained(ms, max) == ms
    ensures 0 < max < |ms| ==> exists anchor :: IsAnchor(ms, |ms| - max, anchor) && IsLongestLegal(ms, anchor, Retained(ms, max))
  {
    RetainedIs(ms, max);
    if 0 < max < |ms| {
      AnchorTells(ms, max);
      assert |ms| - |Retained(ms, max)| == RetainStart(ms, max);
      assert IsLongestLegal(ms, Anchor(ms, max), Retained(ms, max));
    }
  }

  // ---------------------------------------------------------------------
  // Retaining twice
  // ---------------------------------------------------------------------

  lemma LegalFromShift(ms: seq<Value>, s: nat, k: nat)
    requires s <= |ms| && k <= |ms| - s
    ensures LegalFrom(ms[s..], k) <==> LegalFrom(ms, s + k)
  {
    var tail := ms[s..];
    forall i: nat | k <= i < |tail| ensures Orphan(tail, k, i) <==> Orphan(ms, s + k, s + i) {
      assert tail[i] == ms[s + i];
      if Orphan(tail, k, i) {
        forall j | s + k <= j < s + i ensures Answers(ms[s + i]).value !in Declares(ms[j]) {
          assert tail[j - s] == ms[j];
        }
      }
    }
    if LegalFrom(tail, k) {
      var from := s + k;
      forall i: nat | from <= i < |ms| ensures !Orphan(ms, from, i) {
        assert !Orphan(tail, k, i - s);
      }
    }
  }

  /** The user turn that the cut falls into starts at `user`. */
  ghost predicate CutTurn(ms: seq<Value>, cut: nat, user: nat) {
    && user <= cut < |ms| && HasRole(ms[user], User)
    && forall j :: user < j <= cut ==> !HasRole(ms[j], User)
  }

  /** The user turn the cut falls into holds a tool result without its call, and
      the messages are legal from a later place of it that is before the cut. */
  ghost predicate TornTurn(ms: seq<Value>, max: nat) {
    0 < max < |ms| &&
    var cut := |ms| - max;
    exists user: nat :: CutTurn(ms, cut, user) && TornAt(ms, cut, user)
  }

  ghost predicate TornAt(ms: seq<Value>, cut: nat, user: nat) {
    !LegalFrom(ms, user) && exists k: nat :: user < k < cut && LegalFrom(ms, k)
  }

  /** The scan then starts the suffix in the middle of that turn. */
  ghost predicate StartsInside(ms: seq<Value>, max: nat) {
    0 < max < |ms| &&
    var cut := |ms| - max;
    var user := LastUser(ms, cut + 1);
    user.Some? && user.value <= |ms| && user.value < LegalStart(ms, user.value) < cut
  }

  lemma StartsInsideIff(ms: seq<Value>, cut: nat, user: nat)
    requires user <= cut < |ms|
    ensures TornAt(ms, cut, user) <==> user < LegalStart(ms, user) < cut
  {
    LegalStartIs(ms, user);
    if TornAt(ms, cut, user) {
      var k: nat :| user < k < cut && LegalFrom(ms, k);
    }
  }

  /** A suffix starts in the middle of the turn at the cut exactly if that turn
      is torn. */
  lemma TornTurnIff(ms: seq<Value>, max: nat)
    ensures TornTurn(ms, max) <==> StartsInside(ms, max)
  {
    if 0 < max < |ms| {
      var cut := |ms| - max;
      LastUserIs(ms, cut + 1);
      match LastUser(ms, cut + 1)
      case Some(user) =>
        StartsInsideIff(ms, cut, user);
        assert forall u: nat :: CutTurn(ms, cut, u) ==> u == user;
        assert CutTurn(ms, cut, user);
      case None =>
        assert forall u: nat :: !CutTurn(ms, cut, u);
    }
  }

  /** A suffix within the limit is kept whole by a second retention. */
  lemma ShortIsKept(ms: seq<Value>, max: nat)
    requires |Retained(ms, max)| <= max
    ensures Retained(Retained(ms, max), max) == Retained(ms, max)
  {
  }

  lemma UserTurnIsKept(ms: seq<Value>, max: nat)
    requires 0 < max < |ms| && RetainStart(ms, max) < |ms| - max && !StartsInside(ms, max)
    ensures Retained(Retained(ms, max), max) == Retained(ms, max)
  {
    RetainedIs(ms, max);
    AnchorIs(ms, max);
    var s, cut := RetainStart(ms, max), |ms| - max;
    var kept := ms[s..];
    LastUserIs(ms, cut + 1);
    assert Anchor(ms, max) == s;
    LastUserIs(kept, cut - s + 1);
    assert kept[0] == ms[s];
    forall j | 0 < j < cut - s + 1 ensures !HasRole(kept[j], User) {
      assert kept[j] == ms[s + j];
    }
    assert LastUser(kept, cut - s + 1) == Some(0);
    AnchorIs(kept, max);
    LegalFromShift(ms, s, 0);
  }

  lemma NoUserInTorn(ms: seq<Value>, max: nat)
    requires StartsInside(ms, max)
    ensures Retained(ms, max) == ms[LegalStart(ms, LastUser(ms, |ms| - max + 1).value)..]
    ensures max < |Retained(ms, max)| && LastUser(Retained(ms, max), |Retained(ms, max)| - max + 1).None?
  {
    RetainedIs(ms, max);
    AnchorIs(ms, max);
    var s, cut := RetainStart(ms, max), |ms| - max;
    var kept := ms[s..];
    LastUserIs(ms, cut + 1);
    forall j | 0 <= j < cut - s + 1 ensures !HasRole(kept[j], User) {
      assert kept[j] == ms[s + j];
    }
    LastUserIs(kept, cut - s + 1);
  }

  /** Without a user turn at or before the cut, at most the limit is kept. */
  lemma CutShort(ms: seq<Value>, max: nat)
    requires 0 < max < |ms| && LastUser(ms, |ms| - max + 1).None?
    ensures |Retained(ms, max)| <= max
  {
    RetainedIs(ms, max);
    AnchorIs(ms, max);
  }

  lemma TornTurnIsCutAgain(ms: seq<Value>, max: nat)
    requires StartsInside(ms, max)
    ensures |Retained(Retained(ms, max), max)| <= max < |Retained(ms, max)|
  {
    NoUserInTorn(ms, max);
    CutShort(Retained(ms, max), max);
  }

  /** Retaining is idempotent exactly when the turn at the cut is not torn. */
  lemma RetainTwice(ms: seq<Value>, max: nat)
    ensures Retained(Retained(ms, max), max) == Retained(ms, max) <==> !TornTurn(ms, max)
  {
    RetainedIs(ms, max);
    TornTurnIff(ms, max);
    if StartsInside(ms, max) {
      TornTurnIsCutAgain(ms, max);
    } else if 0 < max < |ms| && RetainStart(ms, max) < |ms| - max {
      UserTurnIsKept(ms, max);
    }
  }

  /** A second pass always reaches a fixed point. */
  lemma RetainThrice(ms: seq<Value>, max: nat)
    ensures
      var twice := Retained(Retained(ms, max), max);
      Retained(twice, max) == twice
  {
    RetainTwice(ms, max);
    TornTurnIff(ms, max);
    if StartsInside(ms, max) {
      TornTurnIsCutAgain(ms, max);
      ShortIsKept(Retained(ms, max), max);
    }
  }

  /** A torn turn is an ordinary conversation: a user turn whose stray tool
      result is followed by enough messages. */
  lemma TornTurnExample()
    ensures
      var user, tool, reply := Object(map[Role := RoleName(User)]),
                               Object(map[Role := RoleName(Tool), ToolCallId := Str("lost")]),
                               Object(map[Role := RoleName(Assistant)]);
      TornTurn([user, tool, reply, reply], 1)
  {
    var user, tool, reply := Object(map[Role := RoleName(User)]),
                             Object(map[Role := RoleName(Tool), ToolCallId := Str("lost")]),
                             Object(map[Role := RoleName(Assistant)]);
    var ms := [user, tool, reply, reply];
    assert CutTurn(ms, 3, 0);
    assert Orphan(ms, 0, 1);
    assert LegalFrom(ms, 2);
  }
}
