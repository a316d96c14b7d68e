// What recovery merges into the transcript for one turn, and the compaction
// that drops the records of turns recovery no longer needs.

module Pruning {
  import opened Wrappers
  import opened Sequences
  import opened Json
  import opened Journal
  import opened Recovery
  import Checkpoint

  function LatestCheckpoint(entries: seq<Entry>, turn: string): Option<Value> {
    if entries == [] then None
    else
      var r := entries[|entries| - 1].record;
      if r.StepCheckpoint? && r.turnId == turn then Some(r.payload)
      else LatestCheckpoint(entries[..|entries| - 1], turn)
  }

  function FirstUserMessage(entries: seq<Entry>, turn: string): Option<Value> {
    if entries == [] then None
    else
      var earlier, r := FirstUserMessage(entries[..|entries| - 1], turn), entries[|entries| - 1].record;
      if earlier.Some? then earlier
      else if Starts(r, turn) then r.userMessage
      else None
  }

  function CallIdText(call: Value): string {
    var id := AsStr(Get(call, Id));
    if id.Some? then id.value else ""
  }

  /** What the restored transcript shows for a pending call of `turn`. */
  function Resolver(states: seq<ToolCallState>, turn: string): Value -> string {
    (call: Value) => PendingCallContent(states, CallKey(turn, CallIdText(call)))
  }

  /** The messages of `turn` to merge: its latest checkpoint with the pending
      calls resolved from the journal, else just its user message. */
  function TurnMessagesForRestore(entries: seq<Entry>, turn: string, now: string): seq<Value> {
    var checkpoint := LatestCheckpoint(entries, turn);
    if checkpoint.Some? && checkpoint.value.Object? then
      Checkpoint.Restored(checkpoint.value.fields, Resolver(CallStates(entries), turn), now)
    else
      var message := FirstUserMessage(entries, turn);
      if message.Some? then [message.value] else []
  }

  /** The turns whose records pruning must not touch. */
  function OpenTurnIds(entries: seq<Entry>): set<string> {
    (set t | t in TurnsToRestore(entries)) + (set t | t in UnfinishedTurns(entries) :: t.turnId)
  }

  predicate IsPrunable(open: set<string>, e: Entry) {
    if e.record.Inbox? then false
    else e.record.Turn().Some? && e.record.Turn().value !in open
  }

  function Keeper(open: set<string>): Entry -> bool {
    (e: Entry) => !IsPrunable(open, e)
  }

  function Prune(entries: seq<Entry>): seq<Entry> {
    Filter(entries, Keeper(OpenTurnIds(entries)))
  }

  /** Drops every record of every other turn. */
  method PruneJournal(journal: RunJournal) returns (dropped: nat)
    requires journal.Valid()
    modifies journal
    ensures journal.Valid()
    ensures journal.entries == Prune(old(journal.entries))
    ensures dropped == |old(journal.entries)| - |journal.entries|
  {
    dropped := journal.Compact(Keeper(OpenTurnIds(journal.entries)));
  }

  // ---------------------------------------------------------------------
  // The two sets of turns
  // ---------------------------------------------------------------------

  lemma UnfinishedTurnIds(entries: seq<Entry>)
    ensures |UnfinishedTurns(entries)| == |UnfinishedIds(entries)|
    ensures forall i :: 0 <= i < |UnfinishedIds(entries)| ==> UnfinishedTurns(entries)[i].turnId == UnfinishedIds(entries)[i]
  {
    StartedIdsAre(entries);
    WithoutAre(StartedIds(entries), EndedIds(entries));
    TurnsWithAt(entries, UnfinishedIds(entries));
  }

  lemma SettlesEnds(entries: seq<Entry>, turn: string)
    ensures Settled(entries, turn) ==> Ended(entries, turn)
  {
    if Settled(entries, turn) {
      var e :| e in entries && Settles(e.record, turn);
      assert Ends(e.record, turn);
    }
  }

  /** A turn is open exactly while it has started and is not settled; being
      unfinished is a special case of having messages to restore. */
  lemma OpenTurnIdsAre(entries: seq<Entry>)
    ensures forall t :: t in OpenTurnIds(entries) <==> Started(entries, t) && !Settled(entries, t)
    ensures forall t :: t in UnfinishedTurns(entries) ==> t.turnId in TurnsToRestore(entries)
  {
    TurnsToRestoreAre(entries);
    UnfinishedIdsAre(entries);
    UnfinishedTurnIds(entries);
    forall t | t in UnfinishedTurns(entries) ensures t.turnId in TurnsToRestore(entries) {
      var i :| 0 <= i < |UnfinishedTurns(entries)| && UnfinishedTurns(entries)[i] == t;
      assert UnfinishedIds(entries)[i] in UnfinishedIds(entries);
      SettlesEnds(entries, t.turnId);
    }
  }

  /** As the journal grows, a settled turn stays settled and an ended one stays
      ended: neither set ever takes a turn back. */
  lemma NeverReopens(entries: seq<Entry>, more: seq<Entry>, turn: string)
    requires Started(entries, turn)
    ensures turn !in TurnsToRestore(entries) ==> turn !in TurnsToRestore(entries + more)
    ensures turn !in UnfinishedIds(entries) ==> turn !in UnfinishedIds(entries + more)
  {
    TurnsToRestoreAre(entries);
    TurnsToRestoreAre(entries + more);
    UnfinishedIdsAre(entries);
    UnfinishedIdsAre(entries + more);
    if turn !in TurnsToRestore(entries) {
      var e :| e in entries && Settles(e.record, turn);
      assert e in entries + more;
    }
    if turn !in UnfinishedIds(entries) {
      var e :| e in entries && Ends(e.record, turn);
      assert e in entries + more;
    }
  }

  // ---------------------------------------------------------------------
  // Pruning is invisible to recovery
  // ---------------------------------------------------------------------

  lemma FilterTakes(entries: seq<Entry>, open: set<string>)
    requires entries != []
    ensures
      var kept, last := Filter(entries[..|entries| - 1], Keeper(open)), entries[|entries| - 1];
      && Filter(entries, Keeper(open)) == (if IsPrunable(open, last) then kept else kept + [last])
      && (kept + [last])[..|kept|] == kept
  {
  }

  lemma {:induction false} StartsKept(entries: seq<Entry>, open: set<string>, turn: string)
    requires turn in open
    ensures StartsOf(Filter(entries, Keeper(open)), turn) == StartsOf(entries, turn)
  {
    if entries != [] {
      StartsKept(entries[..|entries| - 1], open, turn);
      FilterTakes(entries, open);
    }
  }

  lemma {:induction false} CheckpointKept(entries: seq<Entry>, open: set<string>, turn: string)
    requires turn in open
    ensures LatestCheckpoint(Filter(entries, Keeper(open)), turn) == LatestCheckpoint(entries, turn)
  {
    if entries != [] {
      CheckpointKept(entries[..|entries| - 1], open, turn);
      FilterTakes(entries, open);
    }
  }

  lemma {:induction false} UserMessageKept(entries: seq<Entry>, open: set<string>, turn: string)
    requires turn in open
    ensures FirstUserMessage(Filter(entries, Keeper(open)), turn) == FirstUserMessage(entries, turn)
  {
    if entries != [] {
      UserMessageKept(entries[..|entries| - 1], open, turn);
      FilterTakes(entries, open);
    }
  }

  /** The per-turn views do not change when entries of other turns are dropped. */
  lemma ViewsKept(entries: seq<Entry>, open: set<string>, turn: string)
    requires turn in open
    ensures StartsOf(Filter(entries, Keeper(open)), turn) == StartsOf(entries, turn)
    ensures LatestCheckpoint(Filter(entries, Keeper(open)), turn) == LatestCheckpoint(entries, turn)
    ensures FirstUserMessage(Filter(entries, Keeper(open)), turn) == FirstUserMessage(entries, turn)
  {
    StartsKept(entries, open, turn);
    CheckpointKept(entries, open, turn);
    UserMessageKept(entries, open, turn);
  }

  lemma {:induction false} CallRecordsKept(entries: seq<Entry>, open: set<string>, key: CallKey)
    ensures CallRecords(Filter(entries, Keeper(open)), key) == if key.turnId in open then CallRecords(entries, key) else []
  {
    if entries != [] {
      var front, last := entries[..|entries| - 1], entries[|entries| - 1];
      CallRecordsKept(front, open, key);
      FrontLast(entries);
      FilterTakes(entries, open);
      CallRecordsStep(front, last, Filter(front, Keeper(open)), open, key);
    }
  }

  lemma CallRecordsStep(front: seq<Entry>, last: Entry, kept: seq<Entry>, open: set<string>, key: CallKey)
    requires CallRecords(kept, key) == if key.turnId in open then CallRecords(front, key) else []
    ensures CallRecords(if IsPrunable(open, last) then kept else kept + [last], key)
         == if key.turnId in open then CallRecords(front + [last], key) else []
  {
    CallRecordsSnoc(front, last, key);
    CallRecordsSnoc(kept, last, key);
  }

  function KeysOf(keys: seq<CallKey>, open: set<string>): seq<CallKey> {
    if keys == [] then []
    else KeysOf(keys[..|keys| - 1], open) + (if keys[|keys| - 1].turnId in open then [keys[|keys| - 1]] else [])
  }

  function StatesOfTurns(states: seq<ToolCallState>, open: set<string>): seq<ToolCallState> {
    if states == [] then []
    else
      StatesOfTurns(states[..|states| - 1], open)
        + (if states[|states| - 1].turnId in open then [states[|states| - 1]] else [])
  }

  function IdsIn(ids: seq<string>, open: set<string>): seq<string> {
    if ids == [] then []
    else IdsIn(ids[..|ids| - 1], open) + (if ids[|ids| - 1] in open then [ids[|ids| - 1]] else [])
  }

  lemma {:induction false} KeysOfIn(keys: seq<CallKey>, open: set<string>)
    ensures forall k :: k in KeysOf(keys, open) <==> k in keys && k.turnId in open
  {
    if keys != [] {
      KeysOfIn(keys[..|keys| - 1], open);
      assert keys == keys[..|keys| - 1] + [keys[|keys| - 1]];
    }
  }

  lemma {:induction false} IdsInAre(ids: seq<string>, open: set<string>)
    ensures forall t :: t in IdsIn(ids, open) <==> t in ids && t in open
  {
    if ids != [] {
      IdsInAre(ids[..|ids| - 1], open);
      assert ids == ids[..|ids| - 1] + [ids[|ids| - 1]];
    }
  }

  function WithKey(keys: seq<CallKey>, key: CallKey): seq<CallKey> {
    if key in keys then keys else keys + [key]
  }

  /** Adding a key commutes with dropping those of other turns. */
  lemma KeysOfWith(keys: seq<CallKey>, key: CallKey, open: set<string>)
    ensures KeysOf(WithKey(keys, key), open)
         == if key.turnId in open then WithKey(KeysOf(keys, open), key) else KeysOf(keys, open)
  {
    KeysOfIn(keys, open);
    assert (keys + [key])[..|keys|] == keys;
  }

  lemma CallKeysWith(entries: seq<Entry>, e: Entry)
    ensures CallKeys(entries + [e])
         == if e.record.ToolIntent? then WithKey(CallKeys(entries), CallKey(e.record.turnId, e.record.callId))
            else CallKeys(entries)
  {
    CallKeysSnoc(entries, e);
  }

  lemma {:induction false} CallKeysKept(entries: seq<Entry>, open: set<string>)
    ensures CallKeys(Filter(entries, Keeper(open))) == KeysOf(CallKeys(entries), open)
  {
    if entries != [] {
      var front, last := entries[..|entries| - 1], entries[|entries| - 1];
      CallKeysKept(front, open);
      FrontLast(entries);
      FilterTakes(entries, open);
      CallKeysStep(front, last, Filter(front, Keeper(open)), open);
    }
  }

  lemma CallKeysStep(front: seq<Entry>, last: Entry, kept: seq<Entry>, open: set<string>)
    requires CallKeys(kept) == KeysOf(CallKeys(front), open)
    ensures CallKeys(if IsPrunable(open, last) then kept else kept + [last]) == KeysOf(CallKeys(front + [last]), open)
  {
    CallKeysWith(front, last);
    CallKeysWith(kept, last);
    if last.record.ToolIntent? {
      KeysOfWith(CallKeys(front), CallKey(last.record.turnId, last.record.callId), open);
    }
  }

  function WithId(ids: seq<string>, id: string): seq<string> {
    if id in ids then ids else ids + [id]
  }

  lemma IdsInWith(ids: seq<string>, id: string, open: set<string>)
    ensures IdsIn(WithId(ids, id), open) == if id in open then WithId(IdsIn(ids, open), id) else IdsIn(ids, open)
  {
    IdsInAre(ids, open);
    assert (ids + [id])[..|ids|] == ids;
  }

  lemma StartedIdsWith(entries: seq<Entry>, e: Entry)
    ensures StartedIds(entries + [e])
         == if e.record.TurnStart? then WithId(StartedIds(entries), e.record.turnId) else StartedIds(entries)
  {
    assert (entries + [e])[..|entries|] == entries;
  }

  lemma {:induction false} StartedIdsKept(entries: seq<Entry>, open: set<string>)
    ensures StartedIds(Filter(entries, Keeper(open))) == IdsIn(StartedIds(entries), open)
  {
    if entries != [] {
      var front, last := entries[..|entries| - 1], entries[|entries| - 1];
      StartedIdsKept(front, open);
      FrontLast(entries);
      FilterTakes(entries, open);
      StartedIdsStep(front, last, Filter(front, Keeper(open)), open);
    }
  }

  lemma StartedIdsStep(front: seq<Entry>, last: Entry, kept: seq<Entry>, open: set<string>)
    requires StartedIds(kept) == IdsIn(StartedIds(front), open)
    ensures StartedIds(if IsPrunable(open, last) then kept else kept + [last]) == IdsIn(StartedIds(front + [last]), open)
  {
    StartedIdsWith(front, last);
    StartedIdsWith(kept, last);
    if last.record.TurnStart? {
      IdsInWith(StartedIds(front), last.record.turnId, open);
    }
  }

  lemma EndingsKept(entries: seq<Entry>, open: set<string>, turn: string)
    requires turn in open
    ensures Ended(Filter(entries, Keeper(open)), turn) == Ended(entries, turn)
    ensures Settled(Filter(entries, Keeper(open)), turn) == Settled(entries, turn)
  {
    if Ended(entries, turn) {
      var e :| e in entries && Ends(e.record, turn);
      assert e in Filter(entries, Keeper(open));
    }
    if Settled(entries, turn) {
      var e :| e in entries && Settles(e.record, turn);
      assert e in Filter(entries, Keeper(open));
    }
  }

  /** Dropping ids outside `open` first does not change a difference whose
      result lies inside `open`. */
  lemma {:induction false} DifferenceKept(ids: seq<string>, open: set<string>, out: seq<string>, out': seq<string>)
    requires forall t :: t in ids && t in open ==> (t in out <==> t in out')
    requires forall t :: t in ids && t !in open ==> t in out
    ensures Without(IdsIn(ids, open), out') == Without(ids, out)
  {
    if ids != [] {
      var front, last := ids[..|ids| - 1], ids[|ids| - 1];
      assert ids == front + [last];
      DifferenceKept(front, open, out, out');
      var kept := IdsIn(front, open);
      if last in open {
        assert IdsIn(ids, open) == kept + [last];
        assert (kept + [last])[..|kept|] == kept;
        assert last in ids;
      } else {
        assert IdsIn(ids, open) == kept;
        assert last in ids;
      }
    }
  }

  lemma {:induction false} TurnsWithKept(entries: seq<Entry>, open: set<string>, ids: seq<string>)
    requires forall t :: t in ids ==> t in open && StartsOf(entries, t) != []
    requires forall t :: t in ids ==> StartsOf(Filter(entries, Keeper(open)), t) != []
    ensures TurnsWith(Filter(entries, Keeper(open)), ids) == TurnsWith(entries, ids)
  {
    if ids != [] {
      TurnsWithKept(entries, open, ids[..|ids| - 1]);
      ViewsKept(entries, open, ids[|ids| - 1]);
    }
  }

  /** Both sets of turns, with order and contents, survive pruning. */
  lemma PruneKeepsTurns(entries: seq<Entry>)
    ensures TurnsToRestore(Prune(entries)) == TurnsToRestore(entries)
    ensures UnfinishedTurns(Prune(entries)) == UnfinishedTurns(entries)
  {
    var open, pruned := OpenTurnIds(entries), Prune(entries);
    OpenTurnIdsAre(entries);
    StartedIdsKept(entries, open);
    StartedIdsAre(entries);
    forall t | t in StartedIds(entries) ensures Started(entries, t) { StartsAre(entries, t); }
    SettledIdsAre(entries);
    SettledIdsAre(pruned);
    EndedIdsAre(entries);
    EndedIdsAre(pruned);
    forall t | t in open ensures Ended(pruned, t) == Ended(entries, t) && Settled(pruned, t) == Settled(entries, t) {
      EndingsKept(entries, open, t);
    }
    forall t ensures Settled(entries, t) ==> Ended(entries, t) { SettlesEnds(entries, t); }
    DifferenceKept(StartedIds(entries), open, SettledIds(entries), SettledIds(pruned));
    DifferenceKept(StartedIds(entries), open, EndedIds(entries), EndedIds(pruned));
    assert UnfinishedIds(pruned) == UnfinishedIds(entries);
    UnfinishedIdsAre(entries);
    StartedIdsAre(pruned);
    WithoutAre(StartedIds(entries), EndedIds(entries));
    WithoutAre(StartedIds(pruned), EndedIds(pruned));
    TurnsWithKept(entries, open, UnfinishedIds(entries));
  }

  lemma PruneKeepsOpenIds(entries: seq<Entry>)
    ensures OpenTurnIds(Prune(entries)) == OpenTurnIds(entries)
  {
    PruneKeepsTurns(entries);
  }

  /** Pruning an already pruned journal drops nothing more. */
  lemma PruneIdempotent(entries: seq<Entry>)
    ensures Prune(Prune(entries)) == Prune(entries)
  {
    PruneKeepsOpenIds(entries);
    FilterAll(Prune(entries), Keeper(OpenTurnIds(entries)));
  }

  /** No inbox ledger record is ever dropped: the pruned journal holds the same
      ledger in the same order. */
  lemma {:induction false} PruneKeepsInbox(entries: seq<Entry>, open: set<string>)
    ensures InboxOf(Filter(entries, Keeper(open))) == InboxOf(entries)
  {
    if entries != [] {
      var front, last := entries[..|entries| - 1], entries[|entries| - 1];
      PruneKeepsInbox(front, open);
      var kept := Filter(front, Keeper(open));
      assert (kept + [last])[..|kept|] == kept;
    }
  }

  function InboxOf(entries: seq<Entry>): seq<Entry> {
    if entries == [] then []
    else InboxOf(entries[..|entries| - 1])
         + (if entries[|entries| - 1].record.Inbox? then [entries[|entries| - 1]] else [])
  }

  lemma StatesOfTurnsSnoc(states: seq<ToolCallState>, state: ToolCallState, open: set<string>)
    ensures StatesOfTurns(states + [state], open)
         == StatesOfTurns(states, open) + (if state.turnId in open then [state] else [])
  {
    assert (states + [state])[..|states|] == states;
  }

  lemma StatesForSnoc(entries: seq<Entry>, keys: seq<CallKey>, key: CallKey)
    requires forall k :: k in keys ==> CallRecords(entries, k) != []
    requires CallRecords(entries, key) != []
    ensures StatesFor(entries, keys + [key]) == StatesFor(entries, keys) + [StateOf(CallRecords(entries, key))]
  {
    assert (keys + [key])[..|keys|] == keys;
  }

  lemma {:induction false} StatesForKept(entries: seq<Entry>, open: set<string>, keys: seq<CallKey>)
    requires forall k :: k in keys ==> CallRecords(entries, k) != []
    requires forall k :: k in KeysOf(keys, open) ==> CallRecords(Filter(entries, Keeper(open)), k) != []
    ensures StatesFor(Filter(entries, Keeper(open)), KeysOf(keys, open))
         == StatesOfTurns(StatesFor(entries, keys), open)
  {
    if keys != [] {
      var front, last := keys[..|keys| - 1], keys[|keys| - 1];
      assert keys == front + [last];
      StatesForKept(entries, open, front);
      var state := StateOf(CallRecords(entries, last));
      StatesForSnoc(entries, front, last);
      StatesOfTurnsSnoc(StatesFor(entries, front), state, open);
      if last.turnId in open {
        CallRecordsKept(entries, open, last);
        StatesForSnoc(Filter(entries, Keeper(open)), KeysOf(front, open), last);
      }
    }
  }

  /** The folded call states after pruning are those of the open turns. */
  lemma PruneKeepsCallStates(entries: seq<Entry>)
    ensures CallStates(Prune(entries)) == StatesOfTurns(CallStates(entries), OpenTurnIds(entries))
  {
    CallKeysAre(entries);
    CallKeysAre(Prune(entries));
    CallKeysKept(entries, OpenTurnIds(entries));
    StatesForKept(entries, OpenTurnIds(entries), CallKeys(entries));
  }

  lemma {:induction false} ResultsForCongruent(calls: seq<Value>, r: Value -> string, r': Value -> string, now: string)
    requires forall c :: r(c) == r'(c)
    ensures Checkpoint.ResultsFor(calls, r, now) == Checkpoint.ResultsFor(calls, r', now)
  {
    if calls != [] {
      ResultsForCongruent(calls[..|calls| - 1], r, r', now);
    }
  }

  /** What a later restore of an open turn would merge is not changed by pruning. */
  lemma PruneKeepsMessages(entries: seq<Entry>, turn: string, now: string)
    requires turn in OpenTurnIds(entries)
    ensures TurnMessagesForRestore(Prune(entries), turn, now) == TurnMessagesForRestore(entries, turn, now)
  {
    ViewsKept(entries, OpenTurnIds(entries), turn);
    forall call: Value
      ensures Resolver(CallStates(entries), turn)(call) == Resolver(CallStates(Prune(entries)), turn)(call)
    {
      ResolverKept(entries, turn, call);
    }
    var checkpoint := LatestCheckpoint(entries, turn);
    if checkpoint.Some? && checkpoint.value.Object? {
      ResultsForCongruent(Checkpoint.PendingOf(checkpoint.value.fields),
                          Resolver(CallStates(entries), turn), Resolver(CallStates(Prune(entries)), turn), now);
    }
  }

  lemma FoundKept(entries: seq<Entry>, key: CallKey)
    requires key.turnId in OpenTurnIds(entries)
    ensures FindState(CallStates(Prune(entries)), key) == FindState(CallStates(entries), key)
  {
    CallRecordsKept(entries, OpenTurnIds(entries), key);
    FoundStateIsOwn(entries, key);
    FoundStateIsOwn(Prune(entries), key);
  }

  lemma ResolverKept(entries: seq<Entry>, turn: string, call: Value)
    requires turn in OpenTurnIds(entries)
    ensures Resolver(CallStates(entries), turn)(call) == Resolver(CallStates(Prune(entries)), turn)(call)
  {
    FoundKept(entries, CallKey(turn, CallIdText(call)));
    SameContent(CallStates(entries), CallStates(Prune(entries)), turn, call);
  }

  lemma SameContent(states: seq<ToolCallState>, states': seq<ToolCallState>, turn: string, call: Value)
    requires FindState(states, CallKey(turn, CallIdText(call))) == FindState(states', CallKey(turn, CallIdText(call)))
    ensures Resolver(states, turn)(call) == Resolver(states', turn)(call)
  {
  }
}
