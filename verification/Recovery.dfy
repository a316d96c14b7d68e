// Crash-recovery decisions over what the run journal shows: which tool calls
// may run again, which turns are unfinished, and which turns' messages are
// still missing from the transcript.

module Recovery {
  import opened Wrappers
  import opened Sequences
  import opened Json
  import opened Journal
  import Checkpoint

  const BLOCKED_PREFIX := "Error: tool call blocked by hook: "

  // ---------------------------------------------------------------------
  // Tool calls
  // ---------------------------------------------------------------------

  datatype CallKey = CallKey(turnId: string, callId: string)

  datatype ToolCallState = ToolCallState(
    turnId: string, callId: string, toolName: string, args: Value, replaySafe: bool,
    status: ToolCallStatus, result: Option<string>, intentCount: nat)
  {
    predicate WasReplayed() { intentCount > 1 }

    function Key(): CallKey { CallKey(turnId, callId) }
  }

  predicate IsCallOf(r: Record, key: CallKey) {
    r.ToolIntent? && r.turnId == key.turnId && r.callId == key.callId
  }

  /** The journaled records of one call, oldest first. */
  function CallRecords(entries: seq<Entry>, key: CallKey): (rs: seq<CallRecord>)
    ensures forall r :: r in rs ==> IsCallOf(r, key)
  {
    if entries == [] then []
    else
      var rest := CallRecords(entries[..|entries| - 1], key);
      var r := entries[|entries| - 1].record;
      if IsCallOf(r, key) then rest + [r] else rest
  }

  /** The keys that have a record, in order of first appearance. */
  function CallKeys(entries: seq<Entry>): seq<CallKey>
  {
    if entries == [] then []
    else
      var rest := CallKeys(entries[..|entries| - 1]);
      var r := entries[|entries| - 1].record;
      if r.ToolIntent? && CallKey(r.turnId, r.callId) !in rest
      then rest + [CallKey(r.turnId, r.callId)]
      else rest
  }

  lemma {:induction false} CallKeysAre(entries: seq<Entry>)
    ensures forall k :: k in CallKeys(entries) <==> CallRecords(entries, k) != []
    ensures NoDuplicates(CallKeys(entries))
  {
    if entries != [] {
      CallKeysAre(entries[..|entries| - 1]);
    }
  }

  predicate IsFirstTerminal(rs: seq<CallRecord>, i: nat, r: CallRecord)
    requires i < |rs|
  {
    rs[i] == r && r.status.IsTerminal() && forall j :: 0 <= j < i ==> !rs[j].status.IsTerminal()
  }

  /** The first terminal record of a call, if it has one. */
  function FirstTerminal(rs: seq<CallRecord>): (t: Option<CallRecord>)
    ensures t.None? <==> forall i :: 0 <= i < |rs| ==> !rs[i].status.IsTerminal()
    ensures t.Some? ==> exists i :: 0 <= i < |rs| && IsFirstTerminal(rs, i, t.value)
  {
    if rs == [] then None
    else
      var front, last := rs[..|rs| - 1], rs[|rs| - 1];
      var t := FirstTerminal(front);
      if t.Some? then
        assert exists i :: 0 <= i < |rs| && IsFirstTerminal(rs, i, t.value) by {
          var i :| 0 <= i < |front| && IsFirstTerminal(front, i, t.value);
          assert IsFirstTerminal(rs, i, t.value);
        }
        t
      else if last.status.IsTerminal() then
        assert IsFirstTerminal(rs, |rs| - 1, last);
        Some(last)
      else
        None
  }

  function IntentCount(rs: seq<CallRecord>): nat {
    if rs == [] then 0
    else IntentCount(rs[..|rs| - 1]) + (if rs[|rs| - 1].status.Intent? then 1 else 0)
  }

  /** What one call's records say about it: who it is from the first record,
      its outcome from the first terminal record (the last record while there
      is none), and how often it was announced. */
  function StateOf(rs: seq<CallRecord>): ToolCallState
    requires rs != []
  {
    var outcome := FirstTerminal(rs);
    ToolCallState(rs[0].turnId, rs[0].callId, rs[0].toolName, rs[0].args, rs[0].replaySafe,
                  if outcome.Some? then outcome.value.status else Intent,
                  if outcome.Some? then outcome.value.result else rs[|rs| - 1].result,
                  IntentCount(rs))
  }

  /** One state per call, in order of first appearance. */
  function CallStates(entries: seq<Entry>): (states: seq<ToolCallState>)
    ensures |states| == |CallKeys(entries)|
    ensures forall i :: 0 <= i < |states| ==>
      CallRecords(entries, CallKeys(entries)[i]) != []
      && states[i] == StateOf(CallRecords(entries, CallKeys(entries)[i]))
      && states[i].Key() == CallKeys(entries)[i]
  {
    CallKeysAre(entries);
    StatesFor(entries, CallKeys(entries))
  }

  function StatesFor(entries: seq<Entry>, keys: seq<CallKey>): (states: seq<ToolCallState>)
    requires forall k :: k in keys ==> CallRecords(entries, k) != []
    ensures |states| == |keys|
    ensures forall i :: 0 <= i < |states| ==>
      states[i] == StateOf(CallRecords(entries, keys[i])) && states[i].Key() == keys[i]
  {
    if keys == [] then []
    else
      assert CallRecords(entries, keys[|keys| - 1])[0] in CallRecords(entries, keys[|keys| - 1]);
      StatesFor(entries, keys[..|keys| - 1]) + [StateOf(CallRecords(entries, keys[|keys| - 1]))]
  }

  /** What one more record of a call does to its state. */
  lemma StateOfSnoc(rs: seq<CallRecord>, r: CallRecord)
    ensures rs == [] ==>
      StateOf(rs + [r]) == ToolCallState(r.turnId, r.callId, r.toolName, r.args, r.replaySafe,
                                         r.status, r.result, if r.status.Intent? then 1 else 0)
    ensures rs != [] ==>
      var before, after := StateOf(rs), StateOf(rs + [r]);
      && after.intentCount == before.intentCount + (if r.status.Intent? then 1 else 0)
      && after == before.(intentCount := after.intentCount,
                          status := if before.status.IsTerminal() then before.status else r.status,
                          result := if before.status.IsTerminal() then before.result else r.result)
  {
    assert (rs + [r])[..|rs|] == rs;
    assert FirstTerminal(rs + [r]) ==
           if FirstTerminal(rs).Some? then FirstTerminal(rs) else if r.status.IsTerminal() then Some(r) else None;
    assert IntentCount(rs + [r]) == IntentCount(rs) + (if r.status.Intent? then 1 else 0);
    if rs == [] {
      assert FirstTerminal(rs).None? && IntentCount(rs) == 0;
      assert (rs + [r])[0] == r;
    }
  }

  lemma CallRecordsSnoc(entries: seq<Entry>, e: Entry, key: CallKey)
    ensures CallRecords(entries + [e], key) ==
            CallRecords(entries, key) + (if IsCallOf(e.record, key) then [e.record] else [])
  {
    assert (entries + [e])[..|entries|] == entries;
  }

  lemma CallKeysSnoc(entries: seq<Entry>, e: Entry)
    ensures CallKeys(entries + [e]) ==
            if e.record.ToolIntent? && CallKey(e.record.turnId, e.record.callId) !in CallKeys(entries)
            then CallKeys(entries) + [CallKey(e.record.turnId, e.record.callId)]
            else CallKeys(entries)
  {
    assert (entries + [e])[..|entries|] == entries;
  }

  /** `order` and `states` are the fold of the entries seen so far. */
  ghost predicate Tracks(seen: seq<Entry>, order: seq<CallKey>, states: map<CallKey, ToolCallState>) {
    && order == CallKeys(seen)
    && (forall k :: k in states <==> k in order)
    && forall k :: k in order ==> CallRecords(seen, k) != [] && states[k] == StateOf(CallRecords(seen, k))
  }

  /** The state kept for a call after one more of its records. */
  function Updated(state: ToolCallState, r: CallRecord): ToolCallState {
    var counted := if r.status.Intent? then state.(intentCount := state.intentCount + 1) else state;
    if counted.status.IsTerminal() then counted else counted.(status := r.status, result := r.result)
  }

  function Opened(r: CallRecord): ToolCallState {
    ToolCallState(r.turnId, r.callId, r.toolName, r.args, r.replaySafe,
                  r.status, r.result, if r.status.Intent? then 1 else 0)
  }

  lemma TracksOther(seen: seq<Entry>, e: Entry, order: seq<CallKey>, states: map<CallKey, ToolCallState>)
    requires Tracks(seen, order, states) && !e.record.ToolIntent?
    ensures Tracks(seen + [e], order, states)
  {
    CallKeysSnoc(seen, e);
    forall k | k in order ensures CallRecords(seen + [e], k) != [] && states[k] == StateOf(CallRecords(seen + [e], k)) {
      CallRecordsSnoc(seen, e, k);
    }
  }

  lemma KeyAdded(order: seq<CallKey>, states: map<CallKey, ToolCallState>, key: CallKey, state: ToolCallState,
                 order': seq<CallKey>, states': map<CallKey, ToolCallState>)
    requires forall k :: k in states <==> k in order
    requires order' == (if key in order then order else order + [key]) && states' == states[key := state]
    ensures forall k :: k in states' <==> k in order'
  {
  }

  /** What the fold has for one call. */
  predicate TracksKey(seen: seq<Entry>, states: map<CallKey, ToolCallState>, k: CallKey) {
    k in states && CallRecords(seen, k) != [] && states[k] == StateOf(CallRecords(seen, k))
  }

  lemma TracksByKey(seen: seq<Entry>, order: seq<CallKey>, states: map<CallKey, ToolCallState>)
    requires order == CallKeys(seen) && forall k :: k in states <==> k in order
    requires forall k :: k in order ==> TracksKey(seen, states, k)
    ensures Tracks(seen, order, states)
  {
  }

  lemma TracksCall(seen: seq<Entry>, e: Entry, order: seq<CallKey>, states: map<CallKey, ToolCallState>,
                   r: CallRecord, key: CallKey, state: ToolCallState)
    requires Tracks(seen, order, states) && e.record == r && key == CallKey(r.turnId, r.callId)
    requires state == StateOf(CallRecords(seen, key) + [r])
    ensures Tracks(seen + [e], if key in order then order else order + [key], states[key := state])
  {
    var order', states' := if key in order then order else order + [key], states[key := state];
    KeyAdded(order, states, key, state, order', states');
    forall k | k in order' ensures TracksKey(seen + [e], states', k) {
      assert k == key || k in order;
      KeyTracked(seen, e, states'[k], r, key, k);
    }
    CallKeysSnoc(seen, e);
    TracksByKey(seen + [e], order', states');
  }

  /** A call's record extends its own records and no other's. */
  lemma KeyTracked(seen: seq<Entry>, e: Entry, state: ToolCallState, r: CallRecord, key: CallKey, k: CallKey)
    requires e.record == r && key == CallKey(r.turnId, r.callId)
    requires k == key || CallRecords(seen, k) != []
    requires state == if k == key then StateOf(CallRecords(seen, key) + [r]) else StateOf(CallRecords(seen, k))
    ensures CallRecords(seen + [e], k) != [] && state == StateOf(CallRecords(seen + [e], k))
  {
    CallRecordsSnoc(seen, e, k);
  }

  lemma NewStateIs(seen: seq<Entry>, order: seq<CallKey>, states: map<CallKey, ToolCallState>, r: CallRecord, key: CallKey)
    requires Tracks(seen, order, states) && key == CallKey(r.turnId, r.callId)
    ensures key in states <==> key in order
    ensures StateOf(CallRecords(seen, key) + [r]) == if key in states then Updated(states[key], r) else Opened(r)
  {
    CallKeysAre(seen);
    StateOfSnoc(CallRecords(seen, key), r);
  }

  /** One round of the fold. */
  method Absorb(ghost seen: seq<Entry>, e: Entry, order: seq<CallKey>, states: map<CallKey, ToolCallState>)
    returns (order': seq<CallKey>, states': map<CallKey, ToolCallState>)
    requires Tracks(seen, order, states)
    ensures Tracks(seen + [e], order', states')
  {
    order', states' := order, states;
    if !e.record.ToolIntent? {
      TracksOther(seen, e, order, states);
    } else {
      var r: CallRecord := e.record;
      var key := CallKey(r.turnId, r.callId);
      NewStateIs(seen, order, states, r, key);
      TracksCall(seen, e, order, states, r, key, if key in states then Updated(states[key], r) else Opened(r));
      if key in states {
        states' := states[key := Updated(states[key], r)];
      } else {
        order' := order + [key];
        states' := states[key := Opened(r)];
      }
    }
  }

  /** The fold with a map from key to state and the order in which the keys
      appeared. */
  method ToolCallStates(entries: seq<Entry>) returns (result: seq<ToolCallState>)
    ensures result == CallStates(entries)
  {
    var order: seq<CallKey> := [];
    var states: map<CallKey, ToolCallState> := map[];
    for n := 0 to |entries|
      invariant Tracks(entries[..n], order, states)
    {
      assert entries[..n + 1] == entries[..n] + [entries[n]];
      order, states := Absorb(entries[..n], entries[n], order, states);
    }
    assert entries[..|entries|] == entries;
    CallKeysAre(entries);
    result := TakeInOrder(order, states);
  }

  /** Moves the states out of the map in the order their keys appeared. */
  method TakeInOrder(order: seq<CallKey>, all: map<CallKey, ToolCallState>) returns (result: seq<ToolCallState>)
    requires NoDuplicates(order)
    requires forall k :: k in order ==> k in all
    ensures |result| == |order|
    ensures forall i :: 0 <= i < |order| ==> result[i] == all[order[i]]
  {
    var states := all;
    result := [];
    for n := 0 to |order|
      invariant |result| == n
      invariant forall i :: 0 <= i < n ==> result[i] == all[order[i]]
      invariant forall i :: n <= i < |order| ==> order[i] in states && states[order[i]] == all[order[i]]
    {
      if order[n] in states {
        result := result + [states[order[n]]];
        states := states - {order[n]};
      }
    }
  }

  // ---------------------------------------------------------------------
  // What to do with a call, and with a turn
  // ---------------------------------------------------------------------

  datatype ToolRecovery = Skip | Replay(args: Value) | Synthesize

  function DecideToolRecovery(state: ToolCallState, alreadyReplayed: bool): ToolRecovery {
    if state.status.IsTerminal() then Skip
    else if state.replaySafe && !alreadyReplayed then Replay(state.args)
    else Synthesize
  }

  datatype TurnRecovery = Resume(attempt: nat) | Abandon

  function DecideTurnRecovery(attemptsSoFar: nat, maxAttempts: nat): TurnRecovery {
    if attemptsSoFar >= maxAttempts then TurnRecovery.Abandon
    else TurnRecovery.Resume(attemptsSoFar + 1)
  }

  /** The result text that stands in for an interrupted call. */
  function PendingCallContent(states: seq<ToolCallState>, key: CallKey): string {
    match FindState(states, key)
    case None => Checkpoint.INTERRUPTED_RESULT
    case Some(state) =>
      if (state.status.Done? || state.status.Error?) && state.result.Some? then state.result.value
      else if state.status.Blocked? && state.result.Some? then BLOCKED_PREFIX + state.result.value
      else Checkpoint.INTERRUPTED_RESULT
  }

  function FindState(states: seq<ToolCallState>, key: CallKey): Option<ToolCallState> {
    if states == [] then None
    else if states[0].Key() == key then Some(states[0])
    else FindState(states[1..], key)
  }

  lemma {:induction false} FindStateAt(states: seq<ToolCallState>, i: nat)
    requires i < |states|
    requires forall j :: 0 <= j < i ==> states[j].Key() != states[i].Key()
    ensures FindState(states, states[i].Key()) == Some(states[i])
  {
    if i > 0 {
      assert states[1..][i - 1] == states[i];
      assert forall j :: 0 <= j < i - 1 ==> states[1..][j] == states[j + 1];
      FindStateAt(states[1..], i - 1);
    }
  }

  lemma {:induction false} FindNoState(states: seq<ToolCallState>, key: CallKey)
    requires forall j :: 0 <= j < |states| ==> states[j].Key() != key
    ensures FindState(states, key).None?
  {
    if states != [] {
      FindNoState(states[1..], key);
    }
  }

  /** Looking a call up in the folded states is looking at its own records. */
  lemma FoundStateIsOwn(entries: seq<Entry>, key: CallKey)
    ensures FindState(CallStates(entries), key)
         == var rs := CallRecords(entries, key); if rs == [] then None else Some(StateOf(rs))
  {
    var states, keys := CallStates(entries), CallKeys(entries);
    CallKeysAre(entries);
    if i :| 0 <= i < |keys| && keys[i] == key {
      assert forall j :: 0 <= j < i ==> states[j].Key() == keys[j];
      FindStateAt(states, i);
    } else {
      assert forall j :: 0 <= j < |states| ==> states[j].Key() == keys[j];
      FindNoState(states, key);
      assert key !in keys;
    }
  }

  // ---------------------------------------------------------------------
  // Turns
  // ---------------------------------------------------------------------

  datatype UnfinishedTurn = UnfinishedTurn(
    turnId: string, sessionKey: string, attempts: nat,
    channel: Option<string>, chatId: Option<string>, requestId: Option<string>, startedAt: string)

  predicate Starts(r: Record, turn: string) { r.TurnStart? && r.turnId == turn }

  /** Any terminal record, whatever the outcome. */
  predicate Ends(r: Record, turn: string) { (r.TurnEnd? || r.TurnRestored?) && r.turnId == turn }

  /** A record after which the turn's messages are accounted for. */
  predicate Settles(r: Record, turn: string) {
    || (r.TurnRestored? && r.turnId == turn)
    || (r.TurnEnd? && r.turnId == turn && (r.outcome.Completed? || r.outcome.Failed?))
  }

  predicate Started(entries: seq<Entry>, turn: string) { exists e :: e in entries && Starts(e.record, turn) }

  predicate Ended(entries: seq<Entry>, turn: string) { exists e :: e in entries && Ends(e.record, turn) }

  predicate Settled(entries: seq<Entry>, turn: string) { exists e :: e in entries && Settles(e.record, turn) }

  /** Turn ids with a start record, in order of first appearance. */
  function StartedIds(entries: seq<Entry>): seq<string> {
    if entries == [] then []
    else
      var rest, r := StartedIds(entries[..|entries| - 1]), entries[|entries| - 1].record;
      if r.TurnStart? && r.turnId !in rest then rest + [r.turnId] else rest
  }

  function EndedIds(entries: seq<Entry>): seq<string> {
    if entries == [] then []
    else
      var rest, r := EndedIds(entries[..|entries| - 1]), entries[|entries| - 1].record;
      if r.TurnEnd? || r.TurnRestored? then rest + [r.turnId] else rest
  }

  function SettledIds(entries: seq<Entry>): seq<string> {
    if entries == [] then []
    else
      var rest, r := SettledIds(entries[..|entries| - 1]), entries[|entries| - 1].record;
      if r.TurnRestored? || (r.TurnEnd? && (r.outcome.Completed? || r.outcome.Failed?))
      then rest + [r.turnId] else rest
  }

  function Without(ids: seq<string>, out: seq<string>): seq<string> {
    if ids == [] then []
    else Without(ids[..|ids| - 1], out) + (if ids[|ids| - 1] in out then [] else [ids[|ids| - 1]])
  }

  type StartEntry = e: Entry | e.record.TurnStart?
    witness Entry(0, "", TurnStart("", "", None, None, 0, None, None))

  /** The start records of one turn, oldest first. */
  function StartsOf(entries: seq<Entry>, turn: string): seq<StartEntry> {
    if entries == [] then []
    else
      var rest, e := StartsOf(entries[..|entries| - 1], turn), entries[|entries| - 1];
      if Starts(e.record, turn) then rest + [e] else rest
  }

  function MaxAttempt(starts: seq<StartEntry>): nat {
    if starts == [] then 0
    else
      var rest, attempt := MaxAttempt(starts[..|starts| - 1]), starts[|starts| - 1].record.attempt;
      if rest > attempt then rest else attempt
  }

  /** A turn as its start records describe it: everything from the first, the
      attempt number the highest of all. */
  function Summary(turn: string, starts: seq<StartEntry>): UnfinishedTurn
    requires starts != []
  {
    var r := starts[0].record;
    UnfinishedTurn(turn, r.sessionKey, MaxAttempt(starts), r.channel, r.chatId, r.requestId, starts[0].ts)
  }

  lemma {:induction false} StartsAre(entries: seq<Entry>, turn: string)
    ensures StartsOf(entries, turn) != [] <==> Started(entries, turn)
  {
    if entries != [] {
      StartsAre(entries[..|entries| - 1], turn);
      assert entries == entries[..|entries| - 1] + [entries[|entries| - 1]];
    }
  }

  lemma {:induction false} StartedIdsAre(entries: seq<Entry>)
    ensures forall t :: t in StartedIds(entries) <==> StartsOf(entries, t) != []
    ensures NoDuplicates(StartedIds(entries))
  {
    if entries != [] {
      StartedIdsAre(entries[..|entries| - 1]);
    }
  }

  lemma {:induction false} EndedIdsAre(entries: seq<Entry>)
    ensures forall t :: t in EndedIds(entries) <==> Ended(entries, t)
  {
    if entries != [] {
      EndedIdsAre(entries[..|entries| - 1]);
      assert entries == entries[..|entries| - 1] + [entries[|entries| - 1]];
    }
  }

  lemma {:induction false} SettledIdsAre(entries: seq<Entry>)
    ensures forall t :: t in SettledIds(entries) <==> Settled(entries, t)
  {
    if entries != [] {
      SettledIdsAre(entries[..|entries| - 1]);
      assert entries == entries[..|entries| - 1] + [entries[|entries| - 1]];
    }
  }

  lemma {:induction false} WithoutAre(ids: seq<string>, out: seq<string>)
    ensures forall t :: t in Without(ids, out) <==> t in ids && t !in out
    ensures NoDuplicates(ids) ==> NoDuplicates(Without(ids, out))
  {
    if ids != [] {
      WithoutAre(ids[..|ids| - 1], out);
      assert ids == ids[..|ids| - 1] + [ids[|ids| - 1]];
    }
  }

  function UnfinishedIds(entries: seq<Entry>): seq<string> {
    Without(StartedIds(entries), EndedIds(entries))
  }

  /** The turns started and not settled, in the order they started. */
  function TurnsToRestore(entries: seq<Entry>): seq<string> {
    Without(StartedIds(entries), SettledIds(entries))
  }

  lemma UnfinishedIdsAre(entries: seq<Entry>)
    ensures forall t :: t in UnfinishedIds(entries) <==> Started(entries, t) && !Ended(entries, t)
    ensures NoDuplicates(UnfinishedIds(entries))
  {
    StartedIdsAre(entries);
    forall t ensures StartsOf(entries, t) != [] <==> Started(entries, t) { StartsAre(entries, t); }
    EndedIdsAre(entries);
    WithoutAre(StartedIds(entries), EndedIds(entries));
  }

  lemma TurnsToRestoreAre(entries: seq<Entry>)
    ensures forall t :: t in TurnsToRestore(entries) <==> Started(entries, t) && !Settled(entries, t)
    ensures NoDuplicates(TurnsToRestore(entries))
  {
    StartedIdsAre(entries);
    forall t ensures StartsOf(entries, t) != [] <==> Started(entries, t) { StartsAre(entries, t); }
    SettledIdsAre(entries);
    WithoutAre(StartedIds(entries), SettledIds(entries));
  }

  /** The turns with these ids. */
  function TurnsWith(entries: seq<Entry>, ids: seq<string>): seq<UnfinishedTurn>
    requires forall t :: t in ids ==> StartsOf(entries, t) != []
  {
    if ids == [] then []
    else
      var last := ids[|ids| - 1];
      TurnsWith(entries, ids[..|ids| - 1]) + [Summary(last, StartsOf(entries, last))]
  }

  /** Turns with a start but no terminal record, oldest first. */
  function UnfinishedTurns(entries: seq<Entry>): seq<UnfinishedTurn> {
    StartedIdsAre(entries);
    WithoutAre(StartedIds(entries), EndedIds(entries));
    TurnsWith(entries, UnfinishedIds(entries))
  }

  // ---------------------------------------------------------------------
  // The scans over the journal compute these functions
  // ---------------------------------------------------------------------

  /** Which turns must be merged by recovery: one pass collecting candidates
      and settled turns, then the difference. */
  method ScanTurnsToRestore(entries: seq<Entry>) returns (result: seq<string>)
    ensures result == TurnsToRestore(entries)
  {
    var candidates: seq<string>, settled: seq<string> := [], [];
    for n := 0 to |entries|
      invariant candidates == StartedIds(entries[..n])
      invariant settled == SettledIds(entries[..n])
    {
      assert entries[..n + 1][..n] == entries[..n];
      match entries[n].record {
        case TurnStart(turn, _, _, _, _, _, _) =>
          if turn !in candidates {
            candidates := candidates + [turn];
          }
        case TurnEnd(turn, outcome) =>
          if outcome.Completed? || outcome.Failed? {
            settled := settled + [turn];
          }
        case TurnRestored(turn) =>
          settled := settled + [turn];
        case _ =>
      }
    }
    assert entries[..|entries|] == entries;
    result := [];
    for n := 0 to |candidates|
      invariant result == Without(candidates[..n], settled)
    {
      assert candidates[..n + 1][..n] == candidates[..n];
      if candidates[n] !in settled {
        result := result + [candidates[n]];
      }
    }
    assert candidates[..|candidates|] == candidates;
  }

  lemma StartedSnoc(entries: seq<Entry>, e: Entry, turn: string)
    ensures Started(entries + [e], turn) <==> Started(entries, turn) || Starts(e.record, turn)
    ensures Ended(entries + [e], turn) <==> Ended(entries, turn) || Ends(e.record, turn)
    ensures Settled(entries + [e], turn) <==> Settled(entries, turn) || Settles(e.record, turn)
    ensures StartsOf(entries + [e], turn) == StartsOf(entries, turn) + (if Starts(e.record, turn) then [e] else [])
  {
    assert (entries + [e])[..|entries|] == entries;
    if Started(entries, turn) {
      var x :| x in entries && Starts(x.record, turn);
      assert x in entries + [e];
    }
    if Ended(entries, turn) {
      var x :| x in entries && Ends(x.record, turn);
      assert x in entries + [e];
    }
    if Settled(entries, turn) {
      var x :| x in entries && Settles(x.record, turn);
      assert x in entries + [e];
    }
    assert e in entries + [e];
  }

  lemma StartsOfSnoc(entries: seq<Entry>, e: Entry, turn: string)
    ensures StartsOf(entries + [e], turn) == StartsOf(entries, turn) + (if Starts(e.record, turn) then [e] else [])
  {
    assert (entries + [e])[..|entries|] == entries;
  }

  lemma SummarySnoc(turn: string, starts: seq<StartEntry>, e: StartEntry)
    requires starts != []
    ensures Summary(turn, starts + [e]) == var s := Summary(turn, starts);
      s.(attempts := if s.attempts > e.record.attempt then s.attempts else e.record.attempt)
  {
    assert (starts + [e])[..|starts|] == starts;
  }

  lemma {:induction false} TurnsWithAt(entries: seq<Entry>, ids: seq<string>)
    requires forall t :: t in ids ==> StartsOf(entries, t) != []
    ensures |TurnsWith(entries, ids)| == |ids|
    ensures forall i :: 0 <= i < |ids| ==> TurnsWith(entries, ids)[i] == Summary(ids[i], StartsOf(entries, ids[i]))
  {
    if ids != [] {
      TurnsWithAt(entries, ids[..|ids| - 1]);
    }
  }

  /** The collected turn is what its start records say. */
  predicate CollectedAt(seen: seq<Entry>, id: string, turn: UnfinishedTurn) {
    StartsOf(seen, id) != [] && turn == Summary(id, StartsOf(seen, id))
  }

  /** The turns collected so far are the started ones, each as its records say. */
  ghost predicate Collected(seen: seq<Entry>, ids: seq<string>, turns: seq<UnfinishedTurn>) {
    && ids == StartedIds(seen)
    && |turns| == |ids|
    && forall i :: 0 <= i < |turns| ==> CollectedAt(seen, ids[i], turns[i])
  }

  method FindTurn(turns: seq<UnfinishedTurn>, turn: string) returns (at: Option<nat>)
    ensures at.Some? ==> at.value < |turns| && turns[at.value].turnId == turn
    ensures at.None? ==> forall i :: 0 <= i < |turns| ==> turns[i].turnId != turn
  {
    for n := 0 to |turns|
      invariant forall i :: 0 <= i < n ==> turns[i].turnId != turn
    {
      if turns[n].turnId == turn {
        return Some(n);
      }
    }
    return None;
  }

  lemma CollectedKeeps(seen: seq<Entry>, e: Entry, ids: seq<string>, turns: seq<UnfinishedTurn>)
    requires Collected(seen, ids, turns)
    ensures forall i :: 0 <= i < |ids| && !Starts(e.record, ids[i]) ==> CollectedAt(seen + [e], ids[i], turns[i])
    ensures StartedIds(seen + [e]) ==
      if e.record.TurnStart? && e.record.turnId !in ids then ids + [e.record.turnId] else ids
    ensures NoDuplicates(ids)
  {
    assert (seen + [e])[..|seen|] == seen;
    StartedIdsAre(seen);
    forall i | 0 <= i < |ids| && !Starts(e.record, ids[i]) ensures CollectedAt(seen + [e], ids[i], turns[i]) {
      assert CollectedAt(seen, ids[i], turns[i]);
      StartsOfSnoc(seen, e, ids[i]);
    }
  }

  lemma CollectedIsOwn(seen: seq<Entry>, ids: seq<string>, turns: seq<UnfinishedTurn>, i: nat)
    requires Collected(seen, ids, turns) && i < |turns|
    ensures turns[i].turnId == ids[i]
  {
    assert CollectedAt(seen, ids[i], turns[i]);
  }

  /** A further start of a turn collected before raises its attempt number. */
  lemma CollectedAgain(seen: seq<Entry>, e: StartEntry, ids: seq<string>, turns: seq<UnfinishedTurn>, at: nat)
    requires Collected(seen, ids, turns) && at < |turns| && turns[at].turnId == e.record.turnId
    ensures
      var attempts := if turns[at].attempts > e.record.attempt then turns[at].attempts else e.record.attempt;
      Collected(seen + [e], StartedIds(seen + [e]), turns[at := turns[at].(attempts := attempts)])
  {
    CollectedKeeps(seen, e, ids, turns);
    CollectedIsOwn(seen, ids, turns, at);
    assert CollectedAt(seen, ids[at], turns[at]);
    RaisedAttempt(seen, e, ids[at], turns[at]);
    forall i | 0 <= i < |ids| && i != at ensures !Starts(e.record, ids[i]) {
    }
  }

  lemma RaisedAttempt(seen: seq<Entry>, e: StartEntry, id: string, turn: UnfinishedTurn)
    requires CollectedAt(seen, id, turn) && e.record.turnId == id
    ensures
      var attempts := if turn.attempts > e.record.attempt then turn.attempts else e.record.attempt;
      CollectedAt(seen + [e], id, turn.(attempts := attempts))
  {
    StartsOfSnoc(seen, e, id);
    SummarySnoc(id, StartsOf(seen, id), e);
  }

  /** A first start adds its turn. */
  lemma CollectedFirst(seen: seq<Entry>, e: StartEntry, ids: seq<string>, turns: seq<UnfinishedTurn>)
    requires Collected(seen, ids, turns) && e.record.turnId !in ids
    ensures Collected(seen + [e], StartedIds(seen + [e]), turns + [Summary(e.record.turnId, [e])])
  {
    var id := e.record.turnId;
    CollectedKeeps(seen, e, ids, turns);
    StartedIdsAre(seen);
    StartsOfSnoc(seen, e, id);
    assert StartsOf(seen + [e], id) == [e];
    assert CollectedAt(seen + [e], id, Summary(id, [e]));
    forall i | 0 <= i < |ids| ensures !Starts(e.record, ids[i]) {
    }
  }

  lemma SummaryOfOne(turn: string, e: StartEntry)
    ensures
      var r := e.record;
      Summary(turn, [e]) == UnfinishedTurn(turn, r.sessionKey, r.attempt, r.channel, r.chatId, r.requestId, e.ts)
  {
    var starts: seq<StartEntry> := [e];
    assert starts[..0] == [] && MaxAttempt(starts[..0]) == 0;
    assert MaxAttempt(starts) == e.record.attempt;
  }

  method Collect(ghost seen: seq<Entry>, e: Entry, ghost ids: seq<string>, turns: seq<UnfinishedTurn>)
    returns (turns': seq<UnfinishedTurn>)
    requires Collected(seen, ids, turns)
    ensures Collected(seen + [e], StartedIds(seen + [e]), turns')
  {
    turns' := turns;
    if e.record.TurnStart? {
      var r := e.record;
      var at := FindTurn(turns, r.turnId);
      if at.Some? {
        var turn := turns[at.value];
        CollectedAgain(seen, e, ids, turns, at.value);
        turns' := turns[at.value := turn.(attempts := if turn.attempts > r.attempt then turn.attempts else r.attempt)];
      } else {
        forall i | 0 <= i < |ids| ensures ids[i] != r.turnId { CollectedIsOwn(seen, ids, turns, i); }
        CollectedFirst(seen, e, ids, turns);
        SummaryOfOne(r.turnId, e);
        turns' := turns + [UnfinishedTurn(r.turnId, r.sessionKey, r.attempt, r.channel, r.chatId, r.requestId, e.ts)];
      }
    } else {
      CollectedKeeps(seen, e, ids, turns);
    }
  }

  /** Unfinished turns: one pass collecting turns and ended ids, then dropping
      the ended ones. */
  method ScanUnfinishedTurns(entries: seq<Entry>) returns (result: seq<UnfinishedTurn>)
    ensures result == UnfinishedTurns(entries)
  {
    var turns: seq<UnfinishedTurn>, ended: seq<string> := [], [];
    for n := 0 to |entries|
      invariant Collected(entries[..n], StartedIds(entries[..n]), turns)
      invariant ended == EndedIds(entries[..n])
    {
      assert entries[..n + 1] == entries[..n] + [entries[n]];
      assert entries[..n + 1][..n] == entries[..n];
      turns := Collect(entries[..n], entries[n], StartedIds(entries[..n]), turns);
      if entries[n].record.TurnEnd? || entries[n].record.TurnRestored? {
        ended := ended + [entries[n].record.turnId];
      }
    }
    assert entries[..|entries|] == entries;
    result := RetainOpen(turns, ended);
    RetainOpenIs(entries, StartedIds(entries), turns, ended);
  }

  function RetainOpen(turns: seq<UnfinishedTurn>, ended: seq<string>): seq<UnfinishedTurn> {
    if turns == [] then []
    else
      var last := turns[|turns| - 1];
      RetainOpen(turns[..|turns| - 1], ended) + (if last.turnId in ended then [] else [last])
  }

  lemma {:induction false} RetainOpenIs(entries: seq<Entry>, ids: seq<string>, turns: seq<UnfinishedTurn>, ended: seq<string>)
    requires |turns| == |ids|
    requires forall i :: 0 <= i < |ids| ==>
      StartsOf(entries, ids[i]) != [] && turns[i] == Summary(ids[i], StartsOf(entries, ids[i]))
    ensures forall t :: t in Without(ids, ended) ==> StartsOf(entries, t) != []
    ensures RetainOpen(turns, ended) == TurnsWith(entries, Without(ids, ended))
  {
    if ids != [] {
      var front, last := ids[..|ids| - 1], ids[|ids| - 1];
      RetainOpenIs(entries, front, turns[..|ids| - 1], ended);
      var kept := Without(front, ended);
      if last !in ended {
        assert Without(ids, ended) == kept + [last];
        assert (kept + [last])[..|kept|] == kept;
      } else {
        assert Without(ids, ended) == kept;
      }
    }
  }
}
