// How often a tool call can execute over a run with crashes anywhere.

module CrashExecutions {
  import opened Wrappers
  import opened Sequences
  import opened Journal
  import opened Recovery
  import opened Pruning
  import opened ResumePlan
  import opened CrashProtocol

  type Tallies = map<CallKey, Tally>

  function Lookup(tally: Tallies, key: CallKey): Tally {
    if key in tally then tally[key] else ZERO
  }

  /** Calls of the running turn with this id that are in flight. */
  function FlyingIn(flights: seq<Flight>, call: string): nat {
    if flights == [] then 0
    else FlyingIn(flights[..|flights| - 1], call) + (if flights[|flights| - 1].call == call then 1 else 0)
  }

  /** Those of them that have not executed yet. */
  function WaitingIn(flights: seq<Flight>, call: string): nat {
    if flights == [] then 0
    else WaitingIn(flights[..|flights| - 1], call)
         + (if flights[|flights| - 1].call == call && !flights[|flights| - 1].executed then 1 else 0)
  }

  function Flying(phase: Phase, key: CallKey): nat {
    if phase.Running? && phase.turn == key.turnId then FlyingIn(phase.flights, key.callId) else 0
  }

  function Waiting(phase: Phase, key: CallKey): nat {
    if phase.Running? && phase.turn == key.turnId then WaitingIn(phase.flights, key.callId)
    else if phase.ReplayInFlight? && phase.call.Key() == key && !phase.executed then 1
    else 0
  }

  /** Every execution is covered by an announced intent, recovery announces a
      call at most once and only a replay-safe one the model had issued, and an
      execution after a terminal record takes a second use of the call id. */
  predicate TallyFits(t: Tally, waiting: nat, flying: nat) {
    && t.begins <= t.uses
    && t.executions + waiting <= t.begins + t.replays
    && t.replays <= 1
    && (t.replays == 1 ==> t.safe == Some(true) && t.begins >= 1)
    && flying + (if t.terminated then 1 else 0) <= t.uses
    && (t.late > 0 ==> t.uses >= 2)
  }

  /** The journal of a turn that was not pruned shows exactly the tallied
      intents, first flag and termination; a pruned turn has no call records. */
  predicate JournalFits(journal: seq<Entry>, pruned: set<string>, t: Tally, key: CallKey) {
    var rs := CallRecords(journal, key);
    if key.turnId in pruned then rs == []
    else
      && IntentCount(rs) == t.begins + t.replays
      && FirstTerminal(rs).Some? == t.terminated
      && (if rs == [] then t.safe.None? else t.safe == Some(rs[0].replaySafe))
  }

  ghost predicate AllFit(journal: seq<Entry>, pruned: set<string>, tally: Tallies) {
    forall key: CallKey :: JournalFits(journal, pruned, Lookup(tally, key), key)
  }

  ghost predicate AllTallied(tally: Tallies, phase: Phase) {
    forall key: CallKey :: TallyFits(Lookup(tally, key), Waiting(phase, key), Flying(phase, key))
  }

  /** The states a replay still has to look at are what the journal says now. */
  ghost predicate TodoFits(journal: seq<Entry>, turn: string, todo: seq<ToolCallState>) {
    && (forall i :: 0 <= i < |todo| ==> CallFits(journal, turn, todo[i]))
    && DistinctCalls(todo)
  }

  ghost predicate DistinctCalls(todo: seq<ToolCallState>) {
    forall i, j :: 0 <= i < j < |todo| ==> todo[i].Key() != todo[j].Key()
  }

  predicate CallFits(journal: seq<Entry>, turn: string, call: ToolCallState) {
    && call.turnId == turn
    && CallRecords(journal, call.Key()) != []
    && StateOf(CallRecords(journal, call.Key())) == call
  }

  ghost predicate ReplayFits(journal: seq<Entry>, pruned: set<string>, tally: Tallies, phase: Phase) {
    && (phase.Replaying? || phase.ReplayInFlight? ==> TodoFits(journal, phase.turn, phase.todo))
    && (phase.ReplayInFlight? ==>
          && phase.call.turnId == phase.turn && phase.call.turnId !in pruned
          && Lookup(tally, phase.call.Key()).replays == 1
          && !Lookup(tally, phase.call.Key()).terminated
          && forall i :: 0 <= i < |phase.todo| ==> phase.todo[i].Key() != phase.call.Key())
  }

  ghost predicate Invariant(s: State) {
    && AllFit(s.journal, s.pruned, s.tally)
    && AllTallied(s.tally, s.phase)
    && ReplayFits(s.journal, s.pruned, s.tally, s.phase)
    && (forall key :: key in s.tally ==> key.turnId in s.used)
    && s.pruned <= s.used.Keys
    && (s.phase.Running? ==> s.phase.turn in s.used && s.phase.turn !in s.pruned)
  }

  // ---------------------------------------------------------------------
  // Lists of flights
  // ---------------------------------------------------------------------

  lemma {:induction false} FlightsConcat(a: seq<Flight>, b: seq<Flight>, call: string)
    ensures FlyingIn(a + b, call) == FlyingIn(a, call) + FlyingIn(b, call)
    ensures WaitingIn(a + b, call) == WaitingIn(a, call) + WaitingIn(b, call)
  {
    if b == [] {
      assert a + b == a;
    } else {
      assert (a + b)[..|a + b| - 1] == a + b[..|b| - 1];
      FlightsConcat(a, b[..|b| - 1], call);
    }
  }

  lemma FlightsSplit(flights: seq<Flight>, i: nat, call: string)
    requires i < |flights|
    ensures FlyingIn(flights, call)
         == FlyingIn(flights[..i], call) + FlyingIn(flights[i + 1..], call) + (if flights[i].call == call then 1 else 0)
    ensures WaitingIn(flights, call)
         == WaitingIn(flights[..i], call) + WaitingIn(flights[i + 1..], call)
            + (if flights[i].call == call && !flights[i].executed then 1 else 0)
  {
    assert flights == flights[..i] + ([flights[i]] + flights[i + 1..]);
    FlightsConcat(flights[..i], [flights[i]] + flights[i + 1..], call);
    FlightsConcat([flights[i]], flights[i + 1..], call);
    assert [flights[i]][..0] == [];
  }

  lemma FlightDropped(flights: seq<Flight>, i: nat, call: string)
    requires i < |flights|
    ensures FlyingIn(flights, call) == FlyingIn(RemoveAt(flights, i), call) + (if flights[i].call == call then 1 else 0)
    ensures WaitingIn(flights, call)
         == WaitingIn(RemoveAt(flights, i), call) + (if flights[i].call == call && !flights[i].executed then 1 else 0)
  {
    FlightsSplit(flights, i, call);
    FlightsConcat(flights[..i], flights[i + 1..], call);
  }

  lemma FlightExecuted(flights: seq<Flight>, i: nat, call: string)
    requires i < |flights| && !flights[i].executed
    ensures FlyingIn(flights[i := flights[i].(executed := true)], call) == FlyingIn(flights, call)
    ensures WaitingIn(flights, call)
         == WaitingIn(flights[i := flights[i].(executed := true)], call) + (if flights[i].call == call then 1 else 0)
  {
    var flown := flights[i := flights[i].(executed := true)];
    FlightsSplit(flights, i, call);
    FlightsSplit(flown, i, call);
    assert flown[..i] == flights[..i] && flown[i + 1..] == flights[i + 1..];
  }

  // ---------------------------------------------------------------------
  // Journal records
  // ---------------------------------------------------------------------

  /** A call record and its tally keep the journal and the tallies in step. */
  lemma CallNoted(journal: seq<Entry>, pruned: set<string>, tally: Tallies, e: Entry, t: Tally)
    requires e.record.ToolIntent? && e.record.turnId !in pruned
    requires AllFit(journal, pruned, tally)
    requires
      var before := Lookup(tally, CallKey(e.record.turnId, e.record.callId));
      && t.safe == before.safe && t.terminated == before.terminated
      && t.begins + t.replays == before.begins + before.replays + (if e.record.status.Intent? then 1 else 0)
    ensures AllFit(journal + [e], pruned, tally[CallKey(e.record.turnId, e.record.callId) := Noted(t, e.record)])
  {
    var key := CallKey(e.record.turnId, e.record.callId);
    var tally' := tally[key := Noted(t, e.record)];
    forall k: CallKey ensures JournalFits(journal + [e], pruned, Lookup(tally', k), k) {
      CallRecordsSnoc(journal, e, k);
      assert JournalFits(journal, pruned, Lookup(tally, k), k);
      if k == key {
        OwnRecordNoted(CallRecords(journal, k), e.record);
      }
    }
  }

  lemma OwnRecordNoted(rs: seq<CallRecord>, r: CallRecord)
    ensures IntentCount(rs + [r]) == IntentCount(rs) + (if r.status.Intent? then 1 else 0)
    ensures FirstTerminal(rs + [r]).Some? == (FirstTerminal(rs).Some? || r.status.IsTerminal())
    ensures (rs + [r])[0] == if rs == [] then r else rs[0]
  {
    assert (rs + [r])[..|rs|] == rs;
  }

  lemma OtherRecord(journal: seq<Entry>, pruned: set<string>, tally: Tallies, e: Entry)
    requires !e.record.ToolIntent?
    requires AllFit(journal, pruned, tally)
    ensures AllFit(journal + [e], pruned, tally)
    ensures forall k :: CallRecords(journal + [e], k) == CallRecords(journal, k)
  {
    forall k: CallKey ensures CallRecords(journal + [e], k) == CallRecords(journal, k) {
      CallRecordsSnoc(journal, e, k);
    }
    forall k: CallKey ensures JournalFits(journal + [e], pruned, Lookup(tally, k), k) {
      assert JournalFits(journal, pruned, Lookup(tally, k), k);
    }
  }

  /** A record of one call leaves the states of the others as they were. */
  lemma TodoKept(journal: seq<Entry>, e: Entry, turn: string, todo: seq<ToolCallState>)
    requires TodoFits(journal, turn, todo)
    requires forall i :: 0 <= i < |todo| ==> !IsCallOf(e.record, todo[i].Key())
    ensures TodoFits(journal + [e], turn, todo)
  {
    forall i | 0 <= i < |todo| ensures CallFits(journal + [e], turn, todo[i]) {
      assert CallFits(journal, turn, todo[i]);
      CallRecordsSnoc(journal, e, todo[i].Key());
    }
  }

  lemma DistinctSnoc(states: seq<ToolCallState>, last: ToolCallState)
    requires DistinctCalls(states) && forall st :: st in states ==> st.Key() != last.Key()
    ensures DistinctCalls(states + [last])
  {
  }

  lemma {:induction false} StatesOfTurnsAre(states: seq<ToolCallState>, turn: string)
    ensures forall st :: st in StatesOfTurns(states, {turn}) <==> st in states && st.turnId == turn
  {
    if states != [] {
      StatesOfTurnsAre(states[..|states| - 1], turn);
      FrontLast(states);
    }
  }

  lemma {:induction false} StatesOfTurnsDiffer(states: seq<ToolCallState>, turn: string)
    requires DistinctCalls(states)
    ensures DistinctCalls(StatesOfTurns(states, {turn}))
  {
    if states != [] {
      var front, last := states[..|states| - 1], states[|states| - 1];
      StatesOfTurnsDiffer(front, turn);
      StatesOfTurnsAre(front, turn);
      forall st | st in StatesOfTurns(front, {turn}) ensures st.Key() != last.Key() {
        var j :| 0 <= j < |front| && front[j] == st;
        assert states[j].Key() != states[|states| - 1].Key();
      }
      DistinctSnoc(StatesOfTurns(front, {turn}), last);
    }
  }

  /** The states recovery scans fit the journal it scanned. */
  lemma ScannedStatesFit(journal: seq<Entry>, turn: string)
    ensures TodoFits(journal, turn, StatesOf(journal, turn))
  {
    var states, todo, keys := CallStates(journal), StatesOf(journal, turn), CallKeys(journal);
    CallKeysAre(journal);
    forall i, j | 0 <= i < j < |states| ensures states[i].Key() != states[j].Key() {
      assert keys[i] != keys[j];
      assert states[i].Key() == keys[i] && states[j].Key() == keys[j];
    }
    StatesOfTurnsAre(states, turn);
    StatesOfTurnsDiffer(states, turn);
    forall i | 0 <= i < |todo| ensures CallFits(journal, turn, todo[i]) {
      assert todo[i] in todo;
      var j :| 0 <= j < |states| && states[j] == todo[i];
    }
  }

  /** Recovery replays a call only if the journal shows a single intent of it,
      flagged replay safe, and no terminal record. */
  lemma ReplayedCallWasAnnouncedOnce(journal: seq<Entry>, pruned: set<string>, t: Tally, call: ToolCallState)
    requires CallFits(journal, call.turnId, call) && MayReplay(call)
    requires JournalFits(journal, pruned, t, call.Key()) && TallyFits(t, 0, 0)
    ensures call.turnId !in pruned
    ensures t.replays == 0 && t.begins == 1 && t.safe == Some(true) && !t.terminated
  {
    var rs := CallRecords(journal, call.Key());
    assert FirstTerminal(rs).None?;
    FirstIsIntent(rs);
  }

  lemma {:induction false} FirstIsIntent(rs: seq<CallRecord>)
    requires rs != [] && rs[0].status.Intent?
    ensures IntentCount(rs) >= 1
  {
    if |rs| > 1 {
      FirstIsIntent(rs[..|rs| - 1]);
    }
  }

  // ---------------------------------------------------------------------
  // Every step keeps the invariant
  // ---------------------------------------------------------------------

  lemma Grounded(tally: Tallies, phase: Phase, phase': Phase)
    requires AllTallied(tally, phase)
    requires forall key :: Waiting(phase', key) == 0 && Flying(phase', key) == 0
    ensures AllTallied(tally, phase')
  {
    forall key: CallKey ensures TallyFits(Lookup(tally, key), 0, 0) {
      assert TallyFits(Lookup(tally, key), Waiting(phase, key), Flying(phase, key));
    }
  }

  predicate IsQuiet(step: Step) {
    || step.Plan? || step.BeginResume? || step.SkipReplay? || step.EndReplay? || step.BeginTurn? || step.SaveRestored?
    || step.LeaveRestored? || step.Persist? || step.Panic? || step.SaveSession? || step.Crash?
  }

  lemma QuietStep(s: State, step: Step, policy: Policy)
    requires Invariant(s) && Enabled(s, step) && IsQuiet(step)
    ensures Invariant(Apply(s, step, policy))
  {
    var s' := Apply(s, step, policy);
    if s'.phase != s.phase {
      Grounded(s.tally, s.phase, s'.phase);
    }
    if step.BeginResume? {
      ScannedStatesFit(s.journal, s'.phase.turn);
    }
  }

  /** What the turn says moves no call. */
  lemma SayStep(s: State, step: Step, policy: Policy)
    requires Invariant(s) && Enabled(s, step) && step.Say?
    ensures Invariant(Apply(s, step, policy))
  {
    var s' := Apply(s, step, policy);
    forall key: CallKey ensures TallyFits(Lookup(s'.tally, key), Waiting(s'.phase, key), Flying(s'.phase, key)) {
      assert TallyFits(Lookup(s.tally, key), Waiting(s.phase, key), Flying(s.phase, key));
    }
  }

  predicate IsTurnRecord(step: Step) {
    step.CarryOutAbandon? || step.RestoreOne? || step.StartTurn? || step.TakeCheckpoint? || step.EndTurn? || step.CancelTurn?
  }

  lemma TurnRecordStep(s: State, step: Step, policy: Policy)
    requires Invariant(s) && Enabled(s, step) && IsTurnRecord(step)
    ensures Invariant(Apply(s, step, policy))
  {
    var s' := Apply(s, step, policy);
    var e := s'.journal[|s.journal|];
    assert s'.journal == s.journal + [e];
    OtherRecord(s.journal, s.pruned, s.tally, e);
    if s'.phase != s.phase {
      Grounded(s.tally, s.phase, s'.phase);
    } else if s.phase.Replaying? || s.phase.ReplayInFlight? {
      TodoKept(s.journal, e, s.phase.turn, s.phase.todo);
    }
  }

  /** After the head of the list was recorded, the rest still fits. */
  lemma RestKept(journal: seq<Entry>, e: Entry, turn: string, todo: seq<ToolCallState>)
    requires todo != [] && TodoFits(journal, turn, todo)
    requires forall key :: IsCallOf(e.record, key) ==> key == todo[0].Key()
    ensures TodoFits(journal + [e], turn, todo[1..])
    ensures forall i :: 0 <= i < |todo[1..]| ==> todo[1..][i].Key() != todo[0].Key()
  {
    var rest := todo[1..];
    forall i | 0 <= i < |rest| ensures CallFits(journal, turn, rest[i]) && rest[i].Key() != todo[0].Key() {
      assert rest[i] == todo[i + 1];
      assert CallFits(journal, turn, todo[i + 1]);
    }
    forall i, j | 0 <= i < j < |rest| ensures rest[i].Key() != rest[j].Key() {
      assert rest[i] == todo[i + 1] && rest[j] == todo[j + 1];
    }
    TodoKept(journal, e, turn, rest);
  }

  lemma ReplayHead(s: State)
    requires Invariant(s) && s.phase.Replaying? && s.phase.todo != [] && MayReplay(s.phase.todo[0])
    ensures
      var c := s.phase.todo[0];
      var t := TallyOf(s, c.Key());
      && c.turnId == s.phase.turn && c.turnId !in s.pruned && c.Key() in s.tally
      && t.replays == 0 && t.begins == 1 && t.safe == Some(true) && !t.terminated && TallyFits(t, 0, 0)
  {
    var c := s.phase.todo[0];
    assert CallFits(s.journal, s.phase.turn, c);
    var t := Lookup(s.tally, c.Key());
    assert JournalFits(s.journal, s.pruned, t, c.Key());
    assert TallyFits(t, Waiting(s.phase, c.Key()), Flying(s.phase, c.Key()));
    ReplayedCallWasAnnouncedOnce(s.journal, s.pruned, t, c);
  }

  /** Replacing one call's tally needs only that call's tally to fit. */
  lemma OneTally(tally: Tallies, phase: Phase, phase': Phase, key: CallKey, t: Tally)
    requires AllTallied(tally, phase)
    requires forall k :: k != key ==> Waiting(phase', k) == Waiting(phase, k) && Flying(phase', k) == Flying(phase, k)
    requires TallyFits(t, Waiting(phase', key), Flying(phase', key))
    ensures AllTallied(tally[key := t], phase')
  {
    var tally' := tally[key := t];
    forall k: CallKey ensures TallyFits(Lookup(tally', k), Waiting(phase', k), Flying(phase', k)) {
      assert TallyFits(Lookup(tally, k), Waiting(phase, k), Flying(phase, k));
    }
  }

  lemma RefuseReplayStep(s: State, step: Step, policy: Policy)
    requires Invariant(s) && Enabled(s, step) && step.RefuseReplay?
    ensures Invariant(Apply(s, step, policy))
  {
    var s' := Apply(s, step, policy);
    var c := s.phase.todo[0];
    var t, e := TallyOf(s, c.Key()), s'.journal[|s.journal|];
    ReplayHead(s);
    assert s'.journal == s.journal + [e];
    CallNoted(s.journal, s.pruned, s.tally, e, t);
    OneTally(s.tally, s.phase, s'.phase, c.Key(), Noted(t, e.record));
    RestKept(s.journal, e, s.phase.turn, s.phase.todo);
  }

  lemma BeginReplayStep(s: State, step: Step, policy: Policy)
    requires Invariant(s) && Enabled(s, step) && step.BeginReplay?
    ensures Invariant(Apply(s, step, policy))
  {
    var s' := Apply(s, step, policy);
    var c := s.phase.todo[0];
    var t, e := TallyOf(s, c.Key()), s'.journal[|s.journal|];
    var t' := t.(replays := t.replays + 1);
    ReplayHead(s);
    assert s'.journal == s.journal + [e];
    CallNoted(s.journal, s.pruned, s.tally, e, t');
    OneTally(s.tally, s.phase, s'.phase, c.Key(), Noted(t', e.record));
    RestKept(s.journal, e, s.phase.turn, s.phase.todo);
  }

  lemma ExecuteReplayStep(s: State, step: Step, policy: Policy)
    requires Invariant(s) && Enabled(s, step) && step.ExecuteReplay?
    ensures Invariant(Apply(s, step, policy))
  {
    var s' := Apply(s, step, policy);
    var key := s.phase.call.Key();
    var t := TallyOf(s, key);
    assert TallyFits(Lookup(s.tally, key), Waiting(s.phase, key), Flying(s.phase, key));
    OneTally(s.tally, s.phase, s'.phase, key, Executed(t));
    forall k: CallKey ensures JournalFits(s.journal, s.pruned, Lookup(s'.tally, k), k) {
      assert JournalFits(s.journal, s.pruned, Lookup(s.tally, k), k);
    }
    assert s.tally[key := Executed(t)] == s'.tally;
    assert key in s.tally;
  }

  lemma FinishReplayStep(s: State, step: Step, policy: Policy)
    requires Invariant(s) && Enabled(s, step) && step.FinishReplay?
    ensures Invariant(Apply(s, step, policy))
  {
    var s' := Apply(s, step, policy);
    var c := s.phase.call;
    var t, e := TallyOf(s, c.Key()), s'.journal[|s.journal|];
    assert s'.journal == s.journal + [e];
    assert TallyFits(Lookup(s.tally, c.Key()), Waiting(s.phase, c.Key()), Flying(s.phase, c.Key()));
    CallNoted(s.journal, s.pruned, s.tally, e, t);
    OneTally(s.tally, s.phase, s'.phase, c.Key(), Noted(t, e.record));
    TodoKept(s.journal, e, s.phase.turn, s.phase.todo);
    assert c.Key() in s.tally;
  }

  /** A record about one call of the running turn needs only that call's
      tally to fit. */
  lemma LiveRecord(s: State, s': State, e: Entry, key: CallKey, t: Tally)
    requires Invariant(s) && s.phase.Running? && s'.phase.Running? && s'.phase.turn == s.phase.turn == key.turnId
    requires e.record.ToolIntent? && CallKey(e.record.turnId, e.record.callId) == key
    requires s'.journal == s.journal + [e] && s'.used == s.used && s'.pruned == s.pruned
    requires s'.tally == s.tally[key := Noted(t, e.record)]
    requires
      var before := Lookup(s.tally, key);
      && t.safe == before.safe && t.terminated == before.terminated
      && t.begins + t.replays == before.begins + before.replays + (if e.record.status.Intent? then 1 else 0)
    requires forall k :: k != key ==> Waiting(s'.phase, k) == Waiting(s.phase, k) && Flying(s'.phase, k) == Flying(s.phase, k)
    requires TallyFits(Noted(t, e.record), Waiting(s'.phase, key), Flying(s'.phase, key))
    ensures Invariant(s')
  {
    CallNoted(s.journal, s.pruned, s.tally, e, t);
    OneTally(s.tally, s.phase, s'.phase, key, Noted(t, e.record));
  }

  /** What is known of a call of the running turn. */
  lemma OwnTally(s: State, call: string)
    requires Invariant(s) && s.phase.Running?
    ensures TallyFits(TallyOf(s, CallKey(s.phase.turn, call)), WaitingIn(s.phase.flights, call), FlyingIn(s.phase.flights, call))
  {
    var key := CallKey(s.phase.turn, call);
    assert TallyFits(Lookup(s.tally, key), Waiting(s.phase, key), Flying(s.phase, key));
  }

  lemma AnnounceStep(s: State, step: Step, policy: Policy)
    requires Invariant(s) && Enabled(s, step) && step.Announce?
    ensures Invariant(Apply(s, step, policy))
  {
    var s' := Apply(s, step, policy);
    var f, key := step.flight, CallKey(s.phase.turn, step.flight.call);
    var t := TallyOf(s, key);
    OwnTally(s, f.call);
    FlightAnnounced(s.phase, s'.phase, f);
    LiveRecord(s, s', s'.journal[|s.journal|], key, t.(uses := t.uses + 1, begins := t.begins + 1));
  }

  lemma FlightAnnounced(phase: Phase, phase': Phase, f: Flight)
    requires phase.Running? && phase'.Running? && phase'.turn == phase.turn
    requires phase'.flights == phase.flights + [f] && !f.executed
    ensures forall k: CallKey :: k != CallKey(phase.turn, f.call) ==>
      Waiting(phase', k) == Waiting(phase, k) && Flying(phase', k) == Flying(phase, k)
    ensures
      var key := CallKey(phase.turn, f.call);
      Waiting(phase', key) == Waiting(phase, key) + 1 && Flying(phase', key) == Flying(phase, key) + 1
  {
    assert phase'.flights[..|phase.flights|] == phase.flights;
  }

  lemma BlockCallStep(s: State, step: Step, policy: Policy)
    requires Invariant(s) && Enabled(s, step) && step.BlockCall?
    ensures Invariant(Apply(s, step, policy))
  {
    var s', key := Apply(s, step, policy), CallKey(s.phase.turn, step.call);
    var t := TallyOf(s, key);
    OwnTally(s, step.call);
    LiveRecord(s, s', s'.journal[|s.journal|], key, t.(uses := t.uses + 1));
  }

  lemma ExecuteCallStep(s: State, step: Step, policy: Policy)
    requires Invariant(s) && Enabled(s, step) && step.ExecuteCall?
    ensures Invariant(Apply(s, step, policy))
  {
    var s' := Apply(s, step, policy);
    var f := s.phase.flights[step.i];
    var key := CallKey(s.phase.turn, f.call);
    var t := TallyOf(s, key);
    assert TallyFits(Lookup(s.tally, key), Waiting(s.phase, key), Flying(s.phase, key));
    forall k: CallKey ensures k != key ==> Waiting(s'.phase, k) == Waiting(s.phase, k) && Flying(s'.phase, k) == Flying(s.phase, k)
    {
      FlightExecuted(s.phase.flights, step.i, k.callId);
    }
    FlightExecuted(s.phase.flights, step.i, f.call);
    FlightDropped(s.phase.flights, step.i, f.call);
    OneTally(s.tally, s.phase, s'.phase, key, Executed(t));
    forall k: CallKey ensures JournalFits(s.journal, s.pruned, Lookup(s'.tally, k), k) {
      assert JournalFits(s.journal, s.pruned, Lookup(s.tally, k), k);
    }
  }

  lemma FinishCallStep(s: State, step: Step, policy: Policy)
    requires Invariant(s) && Enabled(s, step) && step.FinishCall?
    ensures Invariant(Apply(s, step, policy))
  {
    var s', f := Apply(s, step, policy), s.phase.flights[step.i];
    var key := CallKey(s.phase.turn, f.call);
    OwnTally(s, f.call);
    FlightFinished(s.phase, s'.phase, step.i);
    LiveRecord(s, s', s'.journal[|s.journal|], key, TallyOf(s, key));
  }

  lemma FlightFinished(phase: Phase, phase': Phase, i: nat)
    requires phase.Running? && phase'.Running? && phase'.turn == phase.turn && i < |phase.flights|
    requires phase'.flights == RemoveAt(phase.flights, i)
    ensures forall k: CallKey :: k != CallKey(phase.turn, phase.flights[i].call) ==>
      Waiting(phase', k) == Waiting(phase, k) && Flying(phase', k) == Flying(phase, k)
    ensures
      var f := phase.flights[i];
      var key := CallKey(phase.turn, f.call);
      && Waiting(phase, key) == Waiting(phase', key) + (if f.executed then 0 else 1)
      && Flying(phase, key) == Flying(phase', key) + 1
  {
    forall k: CallKey ensures k != CallKey(phase.turn, phase.flights[i].call) ==>
      Waiting(phase', k) == Waiting(phase, k) && Flying(phase', k) == Flying(phase, k)
    {
      FlightDropped(phase.flights, i, k.callId);
    }
    FlightDropped(phase.flights, i, phase.flights[i].call);
  }

  /** Turns outside the open ones lose their call records, the open ones keep
      all of theirs. */
  lemma PruneStep(s: State, step: Step, policy: Policy)
    requires Invariant(s) && Enabled(s, step) && step.PruneRecords?
    ensures Invariant(Apply(s, step, policy))
  {
    var s' := Apply(s, step, policy);
    forall k: CallKey ensures JournalFits(s'.journal, s'.pruned, Lookup(s'.tally, k), k) {
      assert JournalFits(s.journal, s.pruned, Lookup(s.tally, k), k);
      CallRecordsKept(s.journal, OpenTurnIds(s.journal), k);
    }
  }

  lemma StepKeeps(s: State, step: Step, policy: Policy)
    requires Invariant(s) && Enabled(s, step)
    ensures Invariant(Apply(s, step, policy))
  {
    if IsQuiet(step) { QuietStep(s, step, policy); }
    else if IsTurnRecord(step) { TurnRecordStep(s, step, policy); }
    else {
      match step
      case Say(_) => SayStep(s, step, policy);
      case RefuseReplay(_) => RefuseReplayStep(s, step, policy);
      case BeginReplay(_) => BeginReplayStep(s, step, policy);
      case ExecuteReplay => ExecuteReplayStep(s, step, policy);
      case FinishReplay(_, _, _) => FinishReplayStep(s, step, policy);
      case Announce(_, _) => AnnounceStep(s, step, policy);
      case BlockCall(_, _, _, _, _, _) => BlockCallStep(s, step, policy);
      case ExecuteCall(_) => ExecuteCallStep(s, step, policy);
      case FinishCall(_, _, _, _) => FinishCallStep(s, step, policy);
      case PruneRecords => PruneStep(s, step, policy);
    }
  }

  lemma {:induction false} HoldsThroughout(run: seq<State>, steps: seq<Step>, policy: Policy, n: nat)
    requires IsRun(run, steps, policy) && n < |run|
    ensures Invariant(run[n])
  {
    if n > 0 {
      HoldsThroughout(run, steps, policy, n - 1);
      RunStep(run, steps, policy, n - 1);
      StepKeeps(run[n - 1], steps[n - 1], policy);
    }
  }

  /** Over every run, with crashes anywhere: a call executes at most once per
      time the model issued it, plus once by recovery if its first record says
      it is replay safe. A call id the model used once executes at most once
      when unsafe and at most twice when safe, and never after a terminal
      record was journaled for it. */
  lemma ExecutionBound(run: seq<State>, steps: seq<Step>, policy: Policy, n: nat, key: CallKey)
    requires IsRun(run, steps, policy) && n < |run|
    ensures
      var t := TallyOf(run[n], key);
      && t.executions <= t.uses + (if t.safe == Some(true) then 1 else 0)
      && (t.uses <= 1 ==> t.executions <= (if t.safe == Some(true) then 2 else 1) && t.late == 0)
  {
    HoldsThroughout(run, steps, policy, n);
    var s := run[n];
    assert TallyFits(Lookup(s.tally, key), Waiting(s.phase, key), Flying(s.phase, key));
  }

  /** Executions never exceed the intents the journal shows, and it shows at
      most two for a call id the model used once (one if unsafe). */
  lemma ExecutionsAreJournaled(run: seq<State>, steps: seq<Step>, policy: Policy, n: nat, key: CallKey)
    requires IsRun(run, steps, policy) && n < |run| && key.turnId !in run[n].pruned
    ensures
      var t, intents := TallyOf(run[n], key), IntentCount(CallRecords(run[n].journal, key));
      && t.executions <= intents
      && (t.uses <= 1 ==> intents <= if t.safe == Some(true) then 2 else 1)
  {
    HoldsThroughout(run, steps, policy, n);
    var s := run[n];
    assert TallyFits(Lookup(s.tally, key), Waiting(s.phase, key), Flying(s.phase, key));
    assert JournalFits(s.journal, s.pruned, Lookup(s.tally, key), key);
  }
}
