// What the recovery functions say, in terms of places in the journal: which
// record decides, and in which order the results come.

module JournalFacts {
  import opened Wrappers
  import opened Sequences
  import opened Json
  import opened Journal
  import opened Recovery
  import opened Pruning
  import Checkpoint

  // ---------------------------------------------------------------------
  // Starts
  // ---------------------------------------------------------------------

  /** The turn's first start record is entry `i`. */
  ghost predicate FirstStartAt(entries: seq<Entry>, turn: string, i: nat) {
    i < |entries| && Starts(entries[i].record, turn) && forall j :: 0 <= j < i ==> !Starts(entries[j].record, turn)
  }

  lemma FirstStartSnoc(entries: seq<Entry>, e: Entry, turn: string, i: nat)
    ensures FirstStartAt(entries + [e], turn, i) <==>
      FirstStartAt(entries, turn, i) || (i == |entries| && Starts(e.record, turn) && !Started(entries, turn))
  {
    var all := entries + [e];
    assert forall j :: 0 <= j < |entries| ==> all[j] == entries[j];
    if FirstStartAt(all, turn, i) && i == |entries| {
      forall x | x in entries ensures !Starts(x.record, turn) {
        var j :| 0 <= j < |entries| && entries[j] == x;
        assert all[j] == x;
      }
    }
    if i == |entries| && Starts(e.record, turn) && !Started(entries, turn) {
      forall j | 0 <= j < i ensures !Starts(all[j].record, turn) {
        assert all[j] == entries[j] && entries[j] in entries;
      }
    }
  }

  /** Turns in the order in which they first started. */
  ghost predicate InStartOrder(entries: seq<Entry>, ids: seq<string>) {
    forall i, j :: 0 <= i < j < |ids| ==> StartsBefore(entries, ids[i], ids[j])
  }

  ghost predicate StartsBefore(entries: seq<Entry>, a: string, b: string) {
    forall p: nat, q: nat :: FirstStartAt(entries, a, p) && FirstStartAt(entries, b, q) ==> p < q
  }

  lemma OrderSnoc(entries: seq<Entry>, ids: seq<string>, last: string)
    requires InStartOrder(entries, ids) && forall t :: t in ids ==> StartsBefore(entries, t, last)
    ensures InStartOrder(entries, ids + [last])
  {
    var all := ids + [last];
    forall i, j | 0 <= i < j < |all| ensures StartsBefore(entries, all[i], all[j]) {
      if j == |ids| {
        assert all[i] in ids;
      }
    }
  }

  lemma OrderGrows(entries: seq<Entry>, e: Entry, ids: seq<string>)
    requires InStartOrder(entries, ids) && forall t :: t in ids ==> Started(entries, t)
    ensures InStartOrder(entries + [e], ids)
  {
    forall i, j | 0 <= i < j < |ids| ensures StartsBefore(entries + [e], ids[i], ids[j]) {
      assert ids[i] in ids && ids[j] in ids;
      forall p: nat, q: nat | FirstStartAt(entries + [e], ids[i], p) && FirstStartAt(entries + [e], ids[j], q) ensures p < q {
        FirstStartSnoc(entries, e, ids[i], p);
        FirstStartSnoc(entries, e, ids[j], q);
        assert StartsBefore(entries, ids[i], ids[j]);
      }
    }
  }

  lemma NewComesLast(entries: seq<Entry>, e: Entry, ids: seq<string>, turn: string)
    requires Starts(e.record, turn) && !Started(entries, turn) && forall t :: t in ids ==> Started(entries, t)
    ensures forall t :: t in ids ==> StartsBefore(entries + [e], t, turn)
  {
    forall t | t in ids ensures StartsBefore(entries + [e], t, turn) {
      forall p: nat, q: nat | FirstStartAt(entries + [e], t, p) && FirstStartAt(entries + [e], turn, q) ensures p < q {
        FirstStartSnoc(entries, e, t, p);
        FirstStartSnoc(entries, e, turn, q);
      }
    }
  }

  lemma StartedIdsStarted(entries: seq<Entry>)
    ensures forall t :: t in StartedIds(entries) <==> Started(entries, t)
  {
    StartedIdsAre(entries);
    forall t ensures t in StartedIds(entries) <==> Started(entries, t) {
      StartsAre(entries, t);
    }
  }

  lemma {:induction false} StartedInOrder(entries: seq<Entry>)
    ensures InStartOrder(entries, StartedIds(entries))
  {
    if entries != [] {
      var front, e := entries[..|entries| - 1], entries[|entries| - 1];
      var ids := StartedIds(front);
      FrontLast(entries);
      StartedInOrder(front);
      StartedIdsStarted(front);
      OrderGrows(front, e, ids);
      if e.record.TurnStart? && e.record.turnId !in ids {
        NewComesLast(front, e, ids, e.record.turnId);
        OrderSnoc(entries, ids, e.record.turnId);
      }
    }
  }

  lemma {:induction false} WithoutInOrder(entries: seq<Entry>, ids: seq<string>, out: seq<string>)
    requires InStartOrder(entries, ids)
    ensures InStartOrder(entries, Without(ids, out))
  {
    if ids != [] {
      var front, last := ids[..|ids| - 1], ids[|ids| - 1];
      WithoutInOrder(entries, front, out);
      WithoutAre(front, out);
      forall t | t in Without(front, out) ensures StartsBefore(entries, t, last) {
        var i :| 0 <= i < |front| && front[i] == t;
        assert ids[i] == t;
      }
      OrderSnoc(entries, Without(front, out), last);
    }
  }

  /** A restore pass goes through the turns in the order in which they first
      started. */
  lemma RestoredOldestFirst(entries: seq<Entry>)
    ensures InStartOrder(entries, TurnsToRestore(entries))
  {
    StartedInOrder(entries);
    WithoutInOrder(entries, StartedIds(entries), SettledIds(entries));
  }

  function IdsOf(turns: seq<UnfinishedTurn>): seq<string> {
    seq(|turns|, i requires 0 <= i < |turns| => turns[i].turnId)
  }

  lemma UnfinishedOldestFirst(entries: seq<Entry>)
    ensures InStartOrder(entries, IdsOf(UnfinishedTurns(entries)))
  {
    StartedInOrder(entries);
    WithoutInOrder(entries, StartedIds(entries), EndedIds(entries));
    UnfinishedTurnIds(entries);
    assert IdsOf(UnfinishedTurns(entries)) == UnfinishedIds(entries);
  }

  // ---------------------------------------------------------------------
  // What a turn's start records say
  // ---------------------------------------------------------------------

  /** Its first start names session, route, request and time. */
  predicate StartTells(e: Entry, turn: UnfinishedTurn) {
    && e.record.TurnStart? && e.record.turnId == turn.turnId && e.record.sessionKey == turn.sessionKey
    && e.record.channel == turn.channel && e.record.chatId == turn.chatId
    && e.record.requestId == turn.requestId && e.ts == turn.startedAt
  }

  /** Its attempt number is the highest of its starts. */
  ghost predicate IsHighestAttempt(entries: seq<Entry>, turn: string, attempts: nat) {
    && (forall e :: e in entries && Starts(e.record, turn) ==> e.record.attempt <= attempts)
    && (exists e :: e in entries && Starts(e.record, turn) && e.record.attempt == attempts)
  }

  lemma {:induction false} StartsOfFirst(entries: seq<Entry>, turn: string)
    requires StartsOf(entries, turn) != []
    ensures exists i: nat :: FirstStartAt(entries, turn, i) && entries[i] == StartsOf(entries, turn)[0]
  {
    FrontLast(entries);
    var front, e := entries[..|entries| - 1], entries[|entries| - 1];
    if StartsOf(front, turn) != [] {
      StartsOfFirst(front, turn);
      var i: nat :| FirstStartAt(front, turn, i) && front[i] == StartsOf(front, turn)[0];
      FirstStartSnoc(front, e, turn, i);
      assert entries[i] == front[i];
    } else {
      StartsAre(front, turn);
      FirstStartSnoc(front, e, turn, |front|);
      assert entries[|front|] == StartsOf(entries, turn)[0];
    }
  }

  lemma {:induction false} StartsOfMembers(entries: seq<Entry>, turn: string)
    ensures forall e :: e in StartsOf(entries, turn) <==> e in entries && Starts(e.record, turn)
  {
    if entries != [] {
      FrontLast(entries);
      StartsOfMembers(entries[..|entries| - 1], turn);
    }
  }

  lemma {:induction false} MaxAttemptIs(starts: seq<StartEntry>)
    ensures forall e :: e in starts ==> e.record.attempt <= MaxAttempt(starts)
    ensures starts != [] ==> exists e :: e in starts && e.record.attempt == MaxAttempt(starts)
  {
    if starts != [] {
      var front, last := starts[..|starts| - 1], starts[|starts| - 1];
      FrontLast(starts);
      MaxAttemptIs(front);
      if front != [] && MaxAttempt(front) > last.record.attempt {
        var e :| e in front && e.record.attempt == MaxAttempt(front);
        assert e in starts;
      } else {
        assert last in starts;
      }
    }
  }

  /** An unfinished turn is what its first start record says, with the highest
      attempt number of all its starts. */
  lemma UnfinishedTurnTells(entries: seq<Entry>, turn: UnfinishedTurn)
    requires turn in UnfinishedTurns(entries)
    ensures exists i: nat :: FirstStartAt(entries, turn.turnId, i) && StartTells(entries[i], turn)
    ensures IsHighestAttempt(entries, turn.turnId, turn.attempts)
  {
    var ids, turns := UnfinishedIds(entries), UnfinishedTurns(entries);
    StartedIdsAre(entries);
    WithoutAre(StartedIds(entries), EndedIds(entries));
    TurnsWithAt(entries, ids);
    var k :| 0 <= k < |turns| && turns[k] == turn;
    assert ids[k] in ids;
    var starts := StartsOf(entries, ids[k]);
    StartsOfFirst(entries, ids[k]);
    var i: nat :| FirstStartAt(entries, ids[k], i) && entries[i] == starts[0];
    assert StartTells(entries[i], turn);
    StartsOfMembers(entries, ids[k]);
    MaxAttemptIs(starts);
    var e :| e in starts && e.record.attempt == MaxAttempt(starts);
    assert e in entries;
  }

  // ---------------------------------------------------------------------
  // What a call's records say
  // ---------------------------------------------------------------------

  /** The call's first terminal record is entry `i`. */
  ghost predicate OutcomeAt(entries: seq<Entry>, key: CallKey, i: nat) {
    && i < |entries| && IsCallOf(entries[i].record, key) && !entries[i].record.status.Intent?
    && forall j :: 0 <= j < i && IsCallOf(entries[j].record, key) ==> entries[j].record.status.Intent?
  }

  ghost predicate NoOutcome(entries: seq<Entry>, key: CallKey) {
    forall i :: 0 <= i < |entries| && IsCallOf(entries[i].record, key) ==> entries[i].record.status.Intent?
  }

  lemma FirstTerminalSnoc(rs: seq<CallRecord>, r: CallRecord)
    ensures FirstTerminal(rs + [r])
         == if FirstTerminal(rs).Some? then FirstTerminal(rs) else if r.status.Intent? then None else Some(r)
  {
    assert (rs + [r])[..|rs|] == rs;
  }

  /** The first terminal record of the call is this one, or there is none. */
  ghost predicate IsOutcome(entries: seq<Entry>, key: CallKey, t: Option<CallRecord>) {
    match t
    case Some(r) => exists i: nat :: OutcomeAt(entries, key, i) && entries[i].record == r
    case None => NoOutcome(entries, key)
  }

  lemma OutcomeStays(front: seq<Entry>, e: Entry, key: CallKey, t: Option<CallRecord>)
    requires IsOutcome(front, key, t)
    ensures t.Some? || !IsCallOf(e.record, key) || e.record.status.Intent? ==> IsOutcome(front + [e], key, t)
    ensures t.None? && IsCallOf(e.record, key) && !e.record.status.Intent? ==> IsOutcome(front + [e], key, Some(e.record))
  {
    var all := front + [e];
    assert forall j :: 0 <= j < |front| ==> all[j] == front[j];
    if t.Some? {
      var i: nat :| OutcomeAt(front, key, i) && front[i].record == t.value;
      assert OutcomeAt(all, key, i);
    } else if IsCallOf(e.record, key) && !e.record.status.Intent? {
      assert OutcomeAt(all, key, |front|);
    }
  }

  /** The first terminal record of the call's own records is the first in the
      journal. */
  lemma {:induction false} FirstTerminalIs(entries: seq<Entry>, key: CallKey)
    ensures IsOutcome(entries, key, FirstTerminal(CallRecords(entries, key)))
  {
    if entries != [] {
      var front, e := entries[..|entries| - 1], entries[|entries| - 1];
      FrontLast(entries);
      FirstTerminalIs(front, key);
      CallRecordsSnoc(front, e, key);
      OutcomeStays(front, e, key, FirstTerminal(CallRecords(front, key)));
      if IsCallOf(e.record, key) {
        FirstTerminalSnoc(CallRecords(front, key), e.record);
      }
    }
  }

  lemma OneOutcome(entries: seq<Entry>, key: CallKey, i: nat, j: nat)
    requires OutcomeAt(entries, key, i) && OutcomeAt(entries, key, j)
    ensures i == j
  {
  }

  /** The places where the call was announced. */
  ghost function Announcements(entries: seq<Entry>, key: CallKey): set<nat> {
    set i: nat | i < |entries| && IsCallOf(entries[i].record, key) && entries[i].record.status.Intent?
  }

  lemma {:induction false} AnnouncementsCount(entries: seq<Entry>, key: CallKey)
    ensures |Announcements(entries, key)| == IntentCount(CallRecords(entries, key))
  {
    if entries == [] {
      assert Announcements(entries, key) == {};
    } else {
      var front, e := entries[..|entries| - 1], entries[|entries| - 1];
      FrontLast(entries);
      AnnouncementsCount(front, key);
      CallRecordsSnoc(front, e, key);
      var rs := CallRecords(front, key);
      assert forall r: CallRecord :: (rs + [r])[..|rs|] == rs;
      if IsCallOf(e.record, key) && e.record.status.Intent? {
        assert Announcements(entries, key) == Announcements(front, key) + {|front|};
      } else {
        assert Announcements(entries, key) == Announcements(front, key);
      }
    }
  }

  ghost predicate FirstRecordAt(entries: seq<Entry>, key: CallKey, i: nat) {
    i < |entries| && IsCallOf(entries[i].record, key) && forall j :: 0 <= j < i ==> !IsCallOf(entries[j].record, key)
  }

  lemma {:induction false} FirstRecordIs(entries: seq<Entry>, key: CallKey)
    requires CallRecords(entries, key) != []
    ensures exists i: nat :: FirstRecordAt(entries, key, i) && entries[i].record == CallRecords(entries, key)[0]
  {
    var front, e := entries[..|entries| - 1], entries[|entries| - 1];
    FrontLast(entries);
    CallRecordsSnoc(front, e, key);
    if CallRecords(front, key) != [] {
      FirstRecordIs(front, key);
      var i: nat :| FirstRecordAt(front, key, i) && front[i].record == CallRecords(front, key)[0];
      assert FirstRecordAt(entries, key, i) && entries[i] == front[i];
    } else {
      NoRecords(front, key);
      assert FirstRecordAt(entries, key, |front|);
    }
  }

  lemma {:induction false} NoRecords(entries: seq<Entry>, key: CallKey)
    requires CallRecords(entries, key) == []
    ensures forall j :: 0 <= j < |entries| ==> !IsCallOf(entries[j].record, key)
  {
    if entries != [] {
      FrontLast(entries);
      CallRecordsSnoc(entries[..|entries| - 1], entries[|entries| - 1], key);
      NoRecords(entries[..|entries| - 1], key);
    }
  }

  predicate FirstTells(r: CallRecord, state: ToolCallState) {
    state.toolName == r.toolName && state.args == r.args && state.replaySafe == r.replaySafe
  }

  /** A folded call state, by places in the journal: what the call is from its
      first record, its outcome from the first terminal one, and one count per
      announcement. */
  lemma CallStateTells(entries: seq<Entry>, state: ToolCallState)
    requires state in CallStates(entries)
    ensures exists i: nat :: FirstRecordAt(entries, state.Key(), i) && FirstTells(entries[i].record, state)
    ensures state.status.Intent? <==> NoOutcome(entries, state.Key())
    ensures forall i: nat :: OutcomeAt(entries, state.Key(), i) ==>
      state.status == entries[i].record.status && state.result == entries[i].record.result
    ensures state.intentCount == |Announcements(entries, state.Key())|
  {
    var states := CallStates(entries);
    var k :| 0 <= k < |states| && states[k] == state;
    var key := CallKeys(entries)[k];
    FirstRecordIs(entries, key);
    FirstTerminalIs(entries, key);
    AnnouncementsCount(entries, key);
    OutcomeDecides(entries, key);
  }

  lemma OutcomeDecides(entries: seq<Entry>, key: CallKey)
    ensures forall i: nat :: OutcomeAt(entries, key, i) ==> FirstTerminal(CallRecords(entries, key)) == Some(entries[i].record)
  {
    FirstTerminalIs(entries, key);
    forall i: nat | OutcomeAt(entries, key, i) ensures FirstTerminal(CallRecords(entries, key)) == Some(entries[i].record) {
      var j: nat :| OutcomeAt(entries, key, j) && FirstTerminal(CallRecords(entries, key)) == Some(entries[j].record);
      OneOutcome(entries, key, i, j);
    }
  }

  /** Recovery replays a call, with the arguments it was announced with, if and
      only if it is announced once at most, has no outcome, and was safe to replay
      when it was first announced. */
  lemma ReplayedIff(entries: seq<Entry>, state: ToolCallState, i: nat)
    requires state in CallStates(entries) && FirstRecordAt(entries, state.Key(), i)
    ensures
      var decision := DecideToolRecovery(state, state.WasReplayed());
      && (decision.Replay? <==>
          NoOutcome(entries, state.Key()) && |Announcements(entries, state.Key())| <= 1 && entries[i].record.replaySafe)
      && (decision.Replay? ==> decision.args == entries[i].record.args)
      && (decision.Skip? <==> !NoOutcome(entries, state.Key()))
  {
    CallStateTells(entries, state);
    var j: nat :| FirstRecordAt(entries, state.Key(), j) && FirstTells(entries[j].record, state);
    assert i == j;
  }

  lemma FirstRecordSnoc(entries: seq<Entry>, e: Entry, key: CallKey, i: nat)
    ensures FirstRecordAt(entries + [e], key, i) <==>
      FirstRecordAt(entries, key, i) || (i == |entries| && IsCallOf(e.record, key) && CallRecords(entries, key) == [])
  {
    var all := entries + [e];
    assert forall j :: 0 <= j < |entries| ==> all[j] == entries[j];
    if CallRecords(entries, key) == [] {
      NoRecords(entries, key);
    } else {
      FirstRecordIs(entries, key);
    }
  }

  ghost predicate CallBefore(entries: seq<Entry>, a: CallKey, b: CallKey) {
    forall p: nat, q: nat :: FirstRecordAt(entries, a, p) && FirstRecordAt(entries, b, q) ==> p < q
  }

  lemma CallBeforeGrows(entries: seq<Entry>, e: Entry, a: CallKey, b: CallKey)
    requires CallRecords(entries, a) != []
    requires if CallRecords(entries, b) == [] then true else CallBefore(entries, a, b)
    ensures CallBefore(entries + [e], a, b)
  {
    if CallRecords(entries, b) == [] {
      NoRecords(entries, b);
    }
    forall p: nat, q: nat | FirstRecordAt(entries + [e], a, p) && FirstRecordAt(entries + [e], b, q) ensures p < q {
      FirstRecordSnoc(entries, e, a, p);
      FirstRecordSnoc(entries, e, b, q);
    }
  }

  lemma {:induction false} KeysInOrder(entries: seq<Entry>, i: nat, j: nat)
    requires i < j < |CallKeys(entries)|
    ensures CallBefore(entries, CallKeys(entries)[i], CallKeys(entries)[j])
  {
    var front, e := entries[..|entries| - 1], entries[|entries| - 1];
    var keys := CallKeys(front);
    FrontLast(entries);
    CallKeysSnoc(front, e);
    CallKeysAre(front);
    assert keys[i] in keys;
    if j < |keys| {
      assert keys[j] in keys;
      KeysInOrder(front, i, j);
    }
    CallBeforeGrows(front, e, keys[i], CallKeys(entries)[j]);
  }

  ghost predicate HasState(entries: seq<Entry>, key: CallKey) {
    exists state :: state in CallStates(entries) && state.Key() == key
  }

  ghost predicate HasRecord(entries: seq<Entry>, key: CallKey) { exists e :: e in entries && IsCallOf(e.record, key) }

  /** There is one state for each call the journal has a record of, and they come
      in the order of the calls' first records. */
  lemma CallStatesAre(entries: seq<Entry>)
    ensures forall k :: HasState(entries, k) <==> HasRecord(entries, k)
    ensures forall i, j :: 0 <= i < j < |CallStates(entries)| ==>
      CallStates(entries)[i].Key() != CallStates(entries)[j].Key()
      && CallBefore(entries, CallStates(entries)[i].Key(), CallStates(entries)[j].Key())
  {
    var states := CallStates(entries);
    CallKeysAre(entries);
    forall k ensures HasState(entries, k) <==> HasRecord(entries, k) {
      CallHasState(entries, k);
    }
    forall i, j | 0 <= i < j < |states| ensures CallBefore(entries, states[i].Key(), states[j].Key()) {
      KeysInOrder(entries, i, j);
    }
  }

  lemma CallHasState(entries: seq<Entry>, k: CallKey)
    ensures HasState(entries, k) <==> HasRecord(entries, k)
  {
    var states, keys := CallStates(entries), CallKeys(entries);
    CallKeysAre(entries);
    if CallRecords(entries, k) == [] {
      NoRecords(entries, k);
    } else {
      FirstRecordIs(entries, k);
      var i :| 0 <= i < |keys| && keys[i] == k;
      assert states[i] in states;
    }
    if state :| state in states && state.Key() == k {
      var i :| 0 <= i < |states| && states[i] == state;
      assert keys[i] in keys;
    }
  }

  // ---------------------------------------------------------------------
  // What a restored turn shows
  // ---------------------------------------------------------------------

  const INTERRUPTED := "Error: Task interrupted before this tool finished."

  /** The text for a call without a result: what it returned if it finished, why
      it was blocked if it was, else that it was interrupted. */
  ghost predicate Tells(entries: seq<Entry>, key: CallKey, text: string) {
    && (NoOutcome(entries, key) ==> text == INTERRUPTED)
    && forall i: nat :: OutcomeAt(entries, key, i) ==>
      var r := entries[i].record;
      match r.status
      case Done => text == if r.result.Some? then r.result.value else INTERRUPTED
      case Error => text == if r.result.Some? then r.result.value else INTERRUPTED
      case Blocked => text == if r.result.Some? then "Error: tool call blocked by hook: " + r.result.value else INTERRUPTED
      case _ => text == INTERRUPTED
  }

  lemma ContentTells(entries: seq<Entry>, key: CallKey)
    ensures Tells(entries, key, PendingCallContent(CallStates(entries), key))
  {
    FoundStateIsOwn(entries, key);
    FirstTerminalIs(entries, key);
    OutcomeDecides(entries, key);
    if CallRecords(entries, key) == [] {
      NoRecords(entries, key);
    }
  }

  /** Entry `i` is the turn's last checkpoint. */
  ghost predicate LastCheckpointAt(entries: seq<Entry>, turn: string, i: nat) {
    && i < |entries| && entries[i].record.StepCheckpoint? && entries[i].record.turnId == turn
    && forall j :: i < j < |entries| ==> !(entries[j].record.StepCheckpoint? && entries[j].record.turnId == turn)
  }

  lemma {:induction false} LatestCheckpointIs(entries: seq<Entry>, turn: string)
    ensures forall i: nat :: LastCheckpointAt(entries, turn, i) ==>
      LatestCheckpoint(entries, turn) == Some(entries[i].record.payload)
    ensures LatestCheckpoint(entries, turn).None? <==>
      forall e :: e in entries && e.record.StepCheckpoint? ==> e.record.turnId != turn
  {
    if entries != [] {
      var front, e := entries[..|entries| - 1], entries[|entries| - 1];
      FrontLast(entries);
      LatestCheckpointIs(front, turn);
      forall i: nat | LastCheckpointAt(entries, turn, i)
        ensures LatestCheckpoint(entries, turn) == Some(entries[i].record.payload)
      {
        if i < |front| {
          assert !(entries[|front|].record.StepCheckpoint? && entries[|front|].record.turnId == turn);
          assert LastCheckpointAt(front, turn, i);
        }
      }
    }
  }

  /** Some of these messages answers the call `id` with this text. */
  ghost predicate AnsweredWith(messages: seq<Value>, id: string, entries: seq<Entry>, key: CallKey) {
    exists m, text :: m in messages && HasRole(m, Tool) && Get(m, ToolCallId) == Some(Str(id))
      && Get(m, Content) == Some(Str(text)) && Tells(entries, key, text)
  }

  /** The last tool request of `messages` is `at`, and it holds a call that no
      later message answers. */
  ghost predicate PendingAtLast(messages: seq<Value>, at: nat, call: Value) {
    && at < |messages| && Checkpoint.RequestsTools(messages[at]) && call in Checkpoint.ToolCalls(messages[at])
    && (forall j :: at < j < |messages| ==> !Checkpoint.RequestsTools(messages[j]))
    && (forall j :: at < j < |messages| ==> !Checkpoint.Answers(messages[j], call))
  }

  lemma PendingIsPending(messages: seq<Value>, at: nat, call: Value)
    requires PendingAtLast(messages, at, call)
    ensures call in Checkpoint.PendingCalls(messages)
  {
    Checkpoint.LastRequestIs(messages, at);
    var later := messages[at + 1..];
    assert Checkpoint.LastRequest(messages) == Some(at);
    assert !Checkpoint.Answered(later, call);
    Checkpoint.UnansweredAre(Checkpoint.ToolCalls(messages[at]), later);
  }

  /** A turn restored from its last checkpoint: the messages it holds come first,
      unchanged, and each call of the last request that has no result among them
      is answered behind them, with what the journal tells of the call. */
  lemma RestoredTurnTells(entries: seq<Entry>, turn: string, now: string, i: nat, kind: string, messages: seq<Value>)
    requires LastCheckpointAt(entries, turn, i) && entries[i].record.payload == Checkpoint.Payload(kind, messages)
    ensures messages <= TurnMessagesForRestore(entries, turn, now)
    ensures forall at: nat, call, id :: PendingAtLast(messages, at, call) && Get(call, Id) == Some(Str(id)) ==>
      AnsweredWith(TurnMessagesForRestore(entries, turn, now)[|messages|..], id, entries, CallKey(turn, id))
  {
    var resolve := Resolver(CallStates(entries), turn);
    var results := Checkpoint.ResultsFor(Checkpoint.PendingCalls(messages), resolve, now);
    LatestCheckpointIs(entries, turn);
    Checkpoint.RoundTrip(kind, messages, resolve, now);
    var restored := TurnMessagesForRestore(entries, turn, now);
    assert restored == messages + results && restored[|messages|..] == results;
    forall at: nat, call, id | PendingAtLast(messages, at, call) && Get(call, Id) == Some(Str(id))
      ensures AnsweredWith(results, id, entries, CallKey(turn, id))
    {
      PendingIsPending(messages, at, call);
      var m := Checkpoint.ToolResultMessage(call, resolve(call), now);
      Checkpoint.ResultsAre(Checkpoint.PendingCalls(messages), resolve, now);
      assert Checkpoint.ResultOfSome(m, Checkpoint.PendingCalls(messages), resolve, now);
      ContentTells(entries, CallKey(turn, id));
    }
  }

  /** Entry `i` is the turn's first start that holds a user message. */
  ghost predicate FirstAskedAt(entries: seq<Entry>, turn: string, i: nat) {
    && i < |entries| && Starts(entries[i].record, turn) && entries[i].record.userMessage.Some?
    && forall j :: 0 <= j < i && Starts(entries[j].record, turn) ==> entries[j].record.userMessage.None?
  }

  lemma {:induction false} FirstUserMessageIs(entries: seq<Entry>, turn: string)
    ensures forall i: nat :: FirstAskedAt(entries, turn, i) ==> FirstUserMessage(entries, turn) == entries[i].record.userMessage
    ensures FirstUserMessage(entries, turn).None? <==>
      forall e :: e in entries && Starts(e.record, turn) ==> e.record.userMessage.None?
  {
    if entries != [] {
      var front := entries[..|entries| - 1];
      FrontLast(entries);
      FirstUserMessageIs(front, turn);
      forall i: nat | FirstAskedAt(entries, turn, i)
        ensures FirstUserMessage(entries, turn) == entries[i].record.userMessage
      {
        if i < |front| {
          assert FirstAskedAt(front, turn, i) && front[i] in front;
        } else {
          assert forall j :: 0 <= j < |front| ==> front[j] == entries[j];
        }
      }
    }
  }

  /** A turn without a checkpoint shows the user message of its first start that
      has one, and otherwise nothing. */
  lemma TurnWithoutCheckpointTells(entries: seq<Entry>, turn: string, now: string)
    requires forall e :: e in entries && e.record.StepCheckpoint? ==> e.record.turnId != turn
    ensures forall i: nat :: FirstAskedAt(entries, turn, i) ==>
      TurnMessagesForRestore(entries, turn, now) == [entries[i].record.userMessage.value]
    ensures (forall e :: e in entries && Starts(e.record, turn) ==> e.record.userMessage.None?) ==>
      TurnMessagesForRestore(entries, turn, now) == []
  {
    LatestCheckpointIs(entries, turn);
    FirstUserMessageIs(entries, turn);
  }

  // ---------------------------------------------------------------------
  // What pruning drops
  // ---------------------------------------------------------------------

  /** What pruning may not drop: the inbox ledger, records of no turn, and those
      of a turn that started and is not settled. */
  ghost predicate Kept(entries: seq<Entry>, e: Entry) {
    || e.record.Inbox? || e.record.Turn().None?
    || (Started(entries, e.record.Turn().value) && !Settled(entries, e.record.Turn().value))
  }

  /** Exactly the entries that recovery or the ledger can need are kept, in
      order. */
  lemma PruneKeepsExactly(entries: seq<Entry>)
    ensures Prune(entries) == Filter(entries, Keeper(OpenTurnIds(entries)))
    ensures forall e :: Keeper(OpenTurnIds(entries))(e) <==> Kept(entries, e)
  {
    OpenTurnIdsAre(entries);
  }
}
