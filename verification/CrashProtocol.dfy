// The durability protocol of one session as a state machine: what the process
// writes to the journal and to the session file, in which order, and what a
// new process does after the old one died at any point.
//
// `journal` and `disk` survive a crash; `cache`, `phase`, `plan` and `local`
// belong to the process. The fields after them are history variables, like the
// `parts` of a line: what the protocol does depends on none of them, but that
// turn ids are fresh.

module CrashProtocol {
  import opened Wrappers
  import opened Sequences
  import opened Json
  import opened Journal
  import opened Recovery
  import opened Pruning
  import opened ResumePlan
  import Checkpoint
  import LegalSuffix

  /** What a message is: the one a turn was started with, the system prompt, the
      `n`-th one the turn produced, or the `n`-th result made up for one of its
      interrupted calls. */
  datatype Origin = Incoming(turn: string) | Prompt(turn: string) | Produced(turn: string, n: nat) | Synthesized(turn: string, n: nat)

  /** A message with what it is; one that was joined with others is all of
      them. */
  datatype Line = Line(value: Value, parts: seq<Origin>)

  /** One addition to the transcript: what a finished turn saves, or what a
      restore pass merges of a turn. */
  datatype Commit = Commit(turn: string, lines: seq<Line>, restored: bool)

  /** What the journal says about a turn's messages: the user message of its
      start record and the lines of its latest checkpoint. */
  datatype Told = Told(user: Option<Line>, steps: Option<seq<Line>>)

  /** A tool call of the running turn whose intent is journaled. */
  datatype Flight = Flight(call: string, toolName: string, args: Value, safe: bool, executed: bool)

  /** What a restore pass is followed by. */
  datatype Next = NewTurn | Successor(turn: string, attempt: nat)

  datatype Phase =
    | Idle
    | Replaying(turn: string, attempt: nat, todo: seq<ToolCallState>)
    | ReplayInFlight(turn: string, attempt: nat, todo: seq<ToolCallState>, call: ToolCallState, executed: bool)
    | Restoring(next: Next, pending: seq<string>)
    | Restored(next: Next, snapshot: seq<Commit>)
    | Running(turn: string, snapshot: seq<Commit>, inherited: seq<Line>, own: seq<Line>, flights: seq<Flight>)
    | Finished(turn: string, snapshot: seq<Commit>, own: seq<Line>)

  /** What happened to one call over the whole run: how often the model issued
      it, how often its intent was journaled live and by recovery, how often it
      executed, how often it did so after a terminal record, and the replay
      flag of its first record. */
  datatype Tally = Tally(uses: nat, begins: nat, replays: nat, executions: nat, late: nat,
                         terminated: bool, safe: Option<bool>)

  const REFUSED := "intent could not be journaled (strict durability mode)"

  const ZERO := Tally(0, 0, 0, 0, 0, false, None)

  datatype State = State(
    journal: seq<Entry>, nextNumber: nat, disk: seq<Commit>,
    cache: seq<Commit>, phase: Phase, plan: Option<seq<ResumeAction>>, local: set<string>,
    used: map<string, nat>, pruned: set<string>, blank: set<string>,
    successor: map<string, string>, tally: map<CallKey, Tally>,
    told: map<string, Told>, heirs: set<string>)

  const INITIAL := State([], 1, [], [], Idle, None, {}, map[], {}, {}, map[], map[], map[], {})

  datatype Step =
    | Plan(now: int)
    | CarryOutAbandon(i: nat, ts: string)
    | BeginResume(i: nat)
    | SkipReplay
    | RefuseReplay(ts: string)
    | BeginReplay(ts: string)
    | ExecuteReplay
    | FinishReplay(failed: bool, text: string, ts: string)
    | EndReplay
    | BeginTurn
    | RestoreOne(ts: string)
    | SaveRestored
    | StartTurn(id: string, sessionKey: string, requestId: Option<string>, message: Value, joined: Value, prompt: Value,
                channel: Option<string>, chatId: Option<string>, ts: string)
    | LeaveRestored
    | Say(message: Value)
    | Announce(flight: Flight, ts: string)
    | BlockCall(call: string, toolName: string, args: Value, safe: bool, reason: string, ts: string)
    | ExecuteCall(i: nat)
    | FinishCall(i: nat, status: ToolCallStatus, result: Option<string>, ts: string)
    | TakeCheckpoint(kind: StepKind, name: string, ts: string)
    | EndTurn(outcome: TurnOutcome, ts: string)
    | PruneRecords
    | Persist
    | CancelTurn(ts: string)
    | Panic
    | SaveSession
    | Crash

  // ---------------------------------------------------------------------
  // Steps
  // ---------------------------------------------------------------------

  function TallyOf(s: State, key: CallKey): Tally {
    if key in s.tally then s.tally[key] else ZERO
  }

  /** Journals a record of a turn that is not a tool-call record. */
  function Put(s: State, r: Record, ts: string): State {
    s.(journal := s.journal + [Entry(s.nextNumber, ts, r)], nextNumber := s.nextNumber + 1)
  }

  /** The tally of a call after one more of its records. */
  function Noted(t: Tally, r: CallRecord): Tally {
    t.(terminated := t.terminated || r.status.IsTerminal(),
       safe := if t.safe.None? then Some(r.replaySafe) else t.safe)
  }

  /** Journals a tool-call record and replaces the call's tally. */
  function PutCall(s: State, r: CallRecord, t: Tally, ts: string): State {
    Put(s, r, ts).(tally := s.tally[CallKey(r.turnId, r.callId) := Noted(t, r)])
  }

  function Executed(t: Tally): Tally {
    t.(executions := t.executions + 1, late := t.late + (if t.terminated then 1 else 0))
  }

  /** Unfinished turns that this process did not start itself. */
  function NotLocal(turns: seq<UnfinishedTurn>, local: set<string>): seq<UnfinishedTurn> {
    if turns == [] then []
    else NotLocal(turns[..|turns| - 1], local)
         + (if turns[|turns| - 1].turnId in local then [] else [turns[|turns| - 1]])
  }

  function StatesOf(entries: seq<Entry>, turn: string): seq<ToolCallState> {
    StatesOfTurns(CallStates(entries), {turn})
  }

  predicate MayReplay(call: ToolCallState) {
    DecideToolRecovery(call, call.WasReplayed()).Replay?
  }

  // ---------------------------------------------------------------------
  // Messages
  // ---------------------------------------------------------------------

  function Values(lines: seq<Line>): seq<Value> {
    seq(|lines|, i requires 0 <= i < |lines| => lines[i].value)
  }

  /** The transcript, message by message. */
  function Lines(commits: seq<Commit>): seq<Line> {
    if commits == [] then [] else Lines(commits[..|commits| - 1]) + commits[|commits| - 1].lines
  }

  /** A new user message is joined with a user message the history ends with. */
  predicate Merges(history: seq<Line>, next: Next) {
    next.NewTurn? && history != [] && HasRole(history[|history| - 1].value, User)
  }

  /** The user message with its content replaced by the joined one. */
  function Joined(last: Value, content: Value): Value {
    if last.Object? then Object(last.fields[Content := content]) else content
  }

  /** The part of a turn's opening messages that is not its own: none when it
      appends its user message, the joined one when it does not, and for a
      resumed turn the history from its last user message on. A history without
      one is taken whole, with the system prompt before it. */
  function Inherited(turn: string, history: seq<Line>, next: Next, joined: Value, prompt: Value): seq<Line> {
    if Merges(history, next) then
      var last := history[|history| - 1];
      [Line(Joined(last.value, joined), last.parts + [Incoming(turn)])]
    else if next.NewTurn? then []
    else
      var user := LegalSuffix.LastUser(Values(history), |history|);
      if user.Some? && user.value <= |history| then history[user.value..]
      else [Line(prompt, [Prompt(turn)])] + history
  }

  /** The opening message that a finished turn saves with what it produced. */
  function OwnOpening(turn: string, history: seq<Line>, next: Next, message: Value): seq<Line> {
    if next.NewTurn? && !Merges(history, next) then [Line(message, [Incoming(turn)])] else []
  }

  /** The user message that the start record journals: the last of the opening
      messages, which is where checkpoints start. */
  function UserLine(opening: seq<Line>): Option<Line> {
    if opening != [] && HasRole(opening[0].value, User) then Some(opening[0]) else None
  }

  function ToldOf(s: State, turn: string): Told {
    if turn in s.told then s.told[turn] else Told(None, None)
  }

  /** The lines a restore of the turn starts with. */
  function Shown(told: Told): seq<Line> {
    if told.steps.Some? then told.steps.value else if told.user.Some? then [told.user.value] else []
  }

  /** Restored messages with what they are: the journaled lines, then results
      made up for interrupted calls. */
  function Labelled(messages: seq<Value>, shown: seq<Line>, turn: string): seq<Line> {
    seq(|messages|, i requires 0 <= i < |messages| =>
      Line(messages[i], if i < |shown| then shown[i].parts else [Synthesized(turn, i - |shown|)]))
  }

  /** What a restore pass merges of a turn. */
  function RestoredLines(s: State, turn: string, ts: string): seq<Line> {
    Labelled(TurnMessagesForRestore(s.journal, turn, ts), Shown(ToldOf(s, turn)), turn)
  }

  predicate Enabled(s: State, step: Step) {
    match step
    case Plan(_) => s.plan.None?
    case CarryOutAbandon(i, _) => s.plan.Some? && i < |s.plan.value| && !s.plan.value[i].Stale?
    case BeginResume(i) => s.phase.Idle? && s.plan.Some? && i < |s.plan.value| && s.plan.value[i].Resume?
    case SkipReplay => s.phase.Replaying? && s.phase.todo != []
    case RefuseReplay(_) => s.phase.Replaying? && s.phase.todo != [] && MayReplay(s.phase.todo[0])
    case BeginReplay(_) => s.phase.Replaying? && s.phase.todo != [] && MayReplay(s.phase.todo[0])
    case ExecuteReplay => s.phase.ReplayInFlight? && !s.phase.executed
    case FinishReplay(_, _, _) => s.phase.ReplayInFlight? && s.phase.executed
    case EndReplay => s.phase.Replaying? && s.phase.todo == []
    case BeginTurn => s.phase.Idle?
    case RestoreOne(_) => s.phase.Restoring? && s.phase.pending != []
    case SaveRestored => s.phase.Restoring? && s.phase.pending == []
    case StartTurn(id, _, _, message, _, prompt, _, _, _) =>
      s.phase.Restored? && id !in s.used && HasRole(message, User) && HasRole(prompt, System)
    case LeaveRestored => s.phase.Restored?
    case Say(_) => s.phase.Running?
    case Announce(flight, _) => s.phase.Running? && !flight.executed
    case BlockCall(_, _, _, _, _, _) => s.phase.Running?
    case ExecuteCall(i) => s.phase.Running? && i < |s.phase.flights| && !s.phase.flights[i].executed
    case FinishCall(i, status, _, _) =>
      s.phase.Running? && i < |s.phase.flights| && (status.Cancelled? || ((status.Done? || status.Error?) && s.phase.flights[i].executed))
    case TakeCheckpoint(_, _, _) => s.phase.Running?
    case EndTurn(outcome, _) => s.phase.Running? && s.phase.flights == [] && (outcome.Completed? || outcome.Failed?)
    case PruneRecords => s.phase.Finished?
    case Persist => s.phase.Finished?
    case CancelTurn(_) => s.phase.Running? && s.phase.flights == []
    case Panic => s.phase.Replaying? || s.phase.ReplayInFlight? || s.phase.Restored? || s.phase.Running?
    case SaveSession => !s.phase.Restoring?
    case Crash => true
  }

  function Apply(s: State, step: Step, policy: Policy): State
    requires Enabled(s, step)
  {
    match step
    case Plan(now) =>
      s.(plan := Some(PlanSession(NotLocal(UnfinishedTurns(s.journal), s.local), now, policy)))
    case CarryOutAbandon(i, ts) =>
      Put(s, TurnEnd(s.plan.value[i].turn.turnId, Abandoned), ts).(plan := Some(RemoveAt(s.plan.value, i)))
    case BeginResume(i) =>
      var a := s.plan.value[i];
      s.(plan := Some(RemoveAt(s.plan.value, i)),
         phase := Replaying(a.turn.turnId, a.attempt, StatesOf(s.journal, a.turn.turnId)))
    case SkipReplay => s.(phase := Replaying(s.phase.turn, s.phase.attempt, s.phase.todo[1..]))
    case RefuseReplay(ts) =>
      var c := s.phase.todo[0];
      PutCall(s, ToolIntent(c.turnId, c.callId, c.toolName, c.args, true, Blocked, Some(REFUSED)), TallyOf(s, c.Key()), ts)
        .(phase := Replaying(s.phase.turn, s.phase.attempt, s.phase.todo[1..]))
    case BeginReplay(ts) =>
      var c := s.phase.todo[0];
      var t := TallyOf(s, c.Key());
      PutCall(s, ToolIntent(c.turnId, c.callId, c.toolName, c.args, true, Intent, None), t.(replays := t.replays + 1), ts)
        .(phase := ReplayInFlight(s.phase.turn, s.phase.attempt, s.phase.todo[1..], c, false))
    case ExecuteReplay =>
      s.(phase := s.phase.(executed := true),
         tally := s.tally[s.phase.call.Key() := Executed(TallyOf(s, s.phase.call.Key()))])
    case FinishReplay(failed, text, ts) =>
      var c := s.phase.call;
      PutCall(s, ToolIntent(c.turnId, c.callId, c.toolName, c.args, true, if failed then Error else Done, Some(text)),
              TallyOf(s, c.Key()), ts)
        .(phase := Replaying(s.phase.turn, s.phase.attempt, s.phase.todo))
    case EndReplay =>
      s.(phase := Restoring(Successor(s.phase.turn, s.phase.attempt), TurnsToRestore(s.journal)))
    case BeginTurn => s.(phase := Restoring(NewTurn, TurnsToRestore(s.journal)))
    case RestoreOne(ts) =>
      var turn := s.phase.pending[0];
      var lines := RestoredLines(s, turn, ts);
      Put(s, TurnRestored(turn), ts)
        .(phase := s.phase.(pending := s.phase.pending[1..]),
          cache := if lines == [] then s.cache else s.cache + [Commit(turn, lines, true)],
          blank := if lines == [] then s.blank + {turn} else s.blank)
    case SaveRestored => s.(disk := s.cache, phase := Restored(s.phase.next, s.cache))
    case StartTurn(id, sessionKey, requestId, message, joined, prompt, channel, chatId, ts) =>
      var next, history := s.phase.next, Lines(s.phase.snapshot);
      var attempt := if next.NewTurn? then 0 else next.attempt;
      var inherited, own := Inherited(id, history, next, joined, prompt), OwnOpening(id, history, next, message);
      var user := UserLine(inherited + own);
      Put(s, TurnStart(id, sessionKey, requestId, if user.Some? then Some(user.value.value) else None,
                       attempt, channel, chatId), ts)
        .(phase := Running(id, s.phase.snapshot, inherited, own, []), local := s.local + {id}, used := s.used[id := attempt],
          successor := if next.NewTurn? then s.successor else s.successor[next.turn := id],
          told := s.told[id := Told(user, None)],
          heirs := if history != [] && own == [] then s.heirs + {id} else s.heirs)
    case LeaveRestored => s.(phase := Idle)
    case Say(message) =>
      s.(phase := Running(s.phase.turn, s.phase.snapshot, s.phase.inherited,
                          s.phase.own + [Line(message, [Produced(s.phase.turn, |s.phase.own|)])], s.phase.flights))
    case Announce(f, ts) =>
      var t := TallyOf(s, CallKey(s.phase.turn, f.call));
      PutCall(s, ToolIntent(s.phase.turn, f.call, f.toolName, f.args, f.safe, Intent, None),
              t.(uses := t.uses + 1, begins := t.begins + 1), ts)
        .(phase := s.phase.(flights := s.phase.flights + [f]))
    case BlockCall(call, toolName, args, safe, reason, ts) =>
      var t := TallyOf(s, CallKey(s.phase.turn, call));
      PutCall(s, ToolIntent(s.phase.turn, call, toolName, args, safe, Blocked, Some(reason)), t.(uses := t.uses + 1), ts)
    case ExecuteCall(i) =>
      var f := s.phase.flights[i];
      var key := CallKey(s.phase.turn, f.call);
      s.(phase := s.phase.(flights := s.phase.flights[i := f.(executed := true)]),
         tally := s.tally[key := Executed(TallyOf(s, key))])
    case FinishCall(i, status, result, ts) =>
      var f := s.phase.flights[i];
      PutCall(s, ToolIntent(s.phase.turn, f.call, f.toolName, f.args, f.safe, status, result),
              TallyOf(s, CallKey(s.phase.turn, f.call)), ts)
        .(phase := s.phase.(flights := RemoveAt(s.phase.flights, i)))
    case TakeCheckpoint(kind, name, ts) =>
      var lines := s.phase.inherited + s.phase.own;
      Put(s, StepCheckpoint(s.phase.turn, kind, Checkpoint.Payload(name, Values(lines))), ts)
        .(told := s.told[s.phase.turn := Told(ToldOf(s, s.phase.turn).user, Some(lines))])
    case EndTurn(outcome, ts) =>
      Put(s, TurnEnd(s.phase.turn, outcome), ts).(phase := Finished(s.phase.turn, s.phase.snapshot, s.phase.own))
    case PruneRecords =>
      s.(journal := Prune(s.journal), pruned := s.pruned + (s.used.Keys - OpenTurnIds(s.journal)))
    case Persist =>
      var saved := s.phase.snapshot + [Commit(s.phase.turn, s.phase.own, false)];
      s.(cache := saved, disk := saved, phase := Idle)
    case CancelTurn(ts) => Put(s, TurnEnd(s.phase.turn, TurnOutcome.Cancelled), ts).(phase := Idle)
    case Panic => s.(phase := Idle)
    case SaveSession => s.(disk := s.cache)
    case Crash => s.(cache := s.disk, phase := Idle, plan := None, local := {})
  }

  /** The state after a step, if the step can be taken. */
  function After(s: State, step: Step, policy: Policy): Option<State> {
    if Enabled(s, step) then Some(Apply(s, step, policy)) else None
  }

  /** `run` is a run of the protocol from the initial state. */
  ghost predicate IsRun(run: seq<State>, steps: seq<Step>, policy: Policy) {
    && |run| == |steps| + 1
    && run[0] == INITIAL
    && forall i :: 0 <= i < |steps| ==> After(run[i], steps[i], policy) == Some(run[i + 1])
  }

  lemma RunStep(run: seq<State>, steps: seq<Step>, policy: Policy, n: nat)
    requires IsRun(run, steps, policy) && n < |steps|
    ensures Enabled(run[n], steps[n]) && run[n + 1] == Apply(run[n], steps[n], policy)
  {
    assert After(run[n], steps[n], policy) == Some(run[n + 1]);
  }

  /** Some run of the protocol leads to the state. */
  ghost predicate Reachable(s: State, policy: Policy) {
    exists run, steps :: IsRun(run, steps, policy) && run[|steps|] == s
  }

  lemma InitiallyReachable(policy: Policy)
    ensures Reachable(INITIAL, policy)
  {
    var steps: seq<Step> := [];
    assert IsRun([INITIAL], steps, policy) && [INITIAL][|steps|] == INITIAL;
  }

  lemma ReachableNext(s: State, step: Step, s': State, policy: Policy)
    requires Reachable(s, policy) && After(s, step, policy) == Some(s')
    ensures Reachable(s', policy)
  {
    var run, steps :| IsRun(run, steps, policy) && run[|steps|] == s;
    var run', steps' := run + [s'], steps + [step];
    assert run'[|steps'|] == s';
    assert IsRun(run', steps', policy);
  }
}
