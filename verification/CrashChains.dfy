// Chains of resumed turns over a run with crashes anywhere: a turn that keeps
// killing the process is retried only so many times.

module CrashChains {
  import opened Wrappers
  import opened Sequences
  import opened Journal
  import opened Recovery
  import opened Pruning
  import opened ResumePlan
  import opened CrashProtocol
  import Commits = CrashCommits

  /** The turn a running recovery is about to succeed, with the new attempt. */
  function Target(phase: Phase): Option<Next> {
    match phase
    case Replaying(turn, attempt, _) => Some(Successor(turn, attempt))
    case ReplayInFlight(turn, attempt, _, _, _) => Some(Successor(turn, attempt))
    case Restoring(next, _) => if next.Successor? then Some(next) else None
    case Restored(next, _) => if next.Successor? then Some(next) else None
    case _ => None
  }

  function ActionsOf(s: State): seq<ResumeAction> {
    if s.plan.Some? then s.plan.value else []
  }

  /** A turn may still be succeeded, by this attempt. */
  predicate MayStart(s: State, turn: string, attempt: nat, policy: Policy) {
    && turn in s.used && turn !in s.successor
    && attempt == s.used[turn] + 1 <= policy.maxAttempts
  }

  ghost predicate AttemptsFit(s: State) {
    forall t :: t in s.used && t !in s.pruned ==> MaxAttempt(StartsOf(s.journal, t)) == s.used[t]
  }

  ghost predicate PlanFits(s: State, policy: Policy) {
    var plan := ActionsOf(s);
    && (forall i :: 0 <= i < |plan| && plan[i].Resume? ==> MayStart(s, plan[i].turn.turnId, plan[i].attempt, policy))
    && (forall i, j :: 0 <= i < j < |plan| ==> plan[i].turn.turnId != plan[j].turn.turnId)
  }

  ghost predicate TargetFits(s: State, policy: Policy) {
    var target := Target(s.phase);
    target.Some? ==>
      && s.plan.Some?
      && MayStart(s, target.value.turn, target.value.attempt, policy)
      && forall i :: 0 <= i < |ActionsOf(s)| ==> ActionsOf(s)[i].turn.turnId != target.value.turn
  }

  /** Every succeeded turn is over, and its successor is the next attempt. */
  ghost predicate LinksFit(s: State, policy: Policy) {
    && (forall t :: t in s.successor ==>
        && t in s.used && s.successor[t] in s.used
        && s.used[s.successor[t]] == s.used[t] + 1 <= policy.maxAttempts
        && (t in s.pruned || Ended(s.journal, t)))
    && (forall t, u :: t in s.successor && u in s.successor && t != u ==> s.successor[t] != s.successor[u])
  }

  ghost predicate Invariant(s: State, policy: Policy) {
    && Commits.Invariant(s)
    && AttemptsFit(s) && PlanFits(s, policy) && TargetFits(s, policy) && LinksFit(s, policy)
  }

  // ---------------------------------------------------------------------
  // Planning
  // ---------------------------------------------------------------------

  ghost predicate Differ(turns: seq<UnfinishedTurn>) {
    forall i, j :: 0 <= i < j < |turns| ==> turns[i].turnId != turns[j].turnId
  }

  lemma DifferSnoc(turns: seq<UnfinishedTurn>, last: UnfinishedTurn)
    requires Differ(turns) && forall t :: t in turns ==> t.turnId != last.turnId
    ensures Differ(turns + [last])
  {
  }

  lemma {:induction false} NotLocalAre(turns: seq<UnfinishedTurn>, local: set<string>)
    requires Differ(turns)
    ensures Differ(NotLocal(turns, local))
    ensures forall t :: t in NotLocal(turns, local) ==> t in turns
  {
    if turns != [] {
      var front, last := turns[..|turns| - 1], turns[|turns| - 1];
      NotLocalAre(front, local);
      forall t | t in front ensures t in turns && t.turnId != last.turnId {
        var i :| 0 <= i < |front| && front[i] == t;
        assert turns[i] == t;
      }
      DifferSnoc(NotLocal(front, local), last);
    }
  }

  /** An unfinished turn carries the attempt it was started with and has no
      successor yet. */
  lemma UnfinishedMayStart(s: State, policy: Policy, turn: UnfinishedTurn)
    requires Invariant(s, policy) && turn in UnfinishedTurns(s.journal)
    ensures turn.turnId in s.used && turn.turnId !in s.successor && turn.attempts == s.used[turn.turnId]
  {
    UnfinishedTurnIds(s.journal);
    UnfinishedIdsAre(s.journal);
    StartedIdsAre(s.journal);
    WithoutAre(StartedIds(s.journal), EndedIds(s.journal));
    TurnsWithAt(s.journal, UnfinishedIds(s.journal));
    var i :| 0 <= i < |UnfinishedTurns(s.journal)| && UnfinishedTurns(s.journal)[i] == turn;
    assert UnfinishedIds(s.journal)[i] in UnfinishedIds(s.journal);
  }

  lemma PlanStep(s: State, step: Step, policy: Policy)
    requires Invariant(s, policy) && Enabled(s, step) && step.Plan?
    ensures Invariant(Apply(s, step, policy), policy)
  {
    var s' := Apply(s, step, policy);
    Commits.StepKeeps(s, step, policy);
    var turns := UnfinishedTurns(s.journal);
    var mine, plan := NotLocal(turns, s.local), s'.plan.value;
    UnfinishedDiffer(s.journal);
    NotLocalAre(turns, s.local);
    if policy.autoResume {
      forall i | 0 <= i < |plan|
        ensures plan[i].turn == mine[i]
        ensures plan[i].Resume? ==> MayStart(s', plan[i].turn.turnId, plan[i].attempt, policy)
      {
        PlanSessionActions(mine, step.now, policy, i);
        assert mine[i] in mine;
        UnfinishedMayStart(s, policy, mine[i]);
      }
    }
  }

  // ---------------------------------------------------------------------
  // Steps
  // ---------------------------------------------------------------------

  /** Dropping one action keeps the others' order and differences. */
  lemma OneActionLess(plan: seq<ResumeAction>, i: nat)
    requires i < |plan|
    ensures forall k :: 0 <= k < |RemoveAt(plan, i)| ==> RemoveAt(plan, i)[k] == plan[if k < i then k else k + 1]
  {
  }

  predicate LeavesLinks(step: Step) {
    !step.Plan? && !step.StartTurn? && !step.PruneRecords?
  }

  /** Records other than a turn start keep every attempt number and every end. */
  lemma OneRecord(s: State, s': State, e: Entry, policy: Policy)
    requires s'.journal == s.journal + [e] && !e.record.TurnStart?
    requires s'.used == s.used && s'.pruned == s.pruned && s'.successor == s.successor
    requires AttemptsFit(s) && LinksFit(s, policy)
    ensures AttemptsFit(s') && LinksFit(s', policy)
  {
    forall t
      ensures StartsOf(s'.journal, t) == StartsOf(s.journal, t)
      ensures Ended(s.journal, t) ==> Ended(s'.journal, t)
    {
      StartedSnoc(s.journal, e, t);
    }
  }

  /** Such a step hands out no turn. */
  lemma LinksLeft(s: State, step: Step, policy: Policy)
    requires Enabled(s, step) && LeavesLinks(step)
    ensures
      var s' := Apply(s, step, policy);
      s'.used == s.used && s'.pruned == s.pruned && s'.successor == s.successor
  {
  }

  /** And it journals at most one record, which starts no turn. */
  lemma JournalLeft(s: State, step: Step, policy: Policy)
    requires Enabled(s, step) && LeavesLinks(step)
    ensures
      var journal := Apply(s, step, policy).journal;
      || journal == s.journal
      || (|journal| > |s.journal| && journal == s.journal + [journal[|s.journal|]] && !journal[|s.journal|].record.TurnStart?)
  {
  }

  lemma RecordsStep(s: State, step: Step, policy: Policy)
    requires AttemptsFit(s) && LinksFit(s, policy) && Enabled(s, step) && LeavesLinks(step)
    ensures AttemptsFit(Apply(s, step, policy)) && LinksFit(Apply(s, step, policy), policy)
  {
    LinksLeft(s, step, policy);
    JournalLeft(s, step, policy);
    RecordsKept(s, Apply(s, step, policy), policy);
  }

  lemma RecordsKept(s: State, s': State, policy: Policy)
    requires AttemptsFit(s) && LinksFit(s, policy)
    requires s'.used == s.used && s'.pruned == s.pruned && s'.successor == s.successor
    requires || s'.journal == s.journal
             || (|s'.journal| > |s.journal| && s'.journal == s.journal + [s'.journal[|s.journal|]]
                 && !s'.journal[|s.journal|].record.TurnStart?)
    ensures AttemptsFit(s') && LinksFit(s', policy)
  {
    if s'.journal != s.journal {
      OneRecord(s, s', s'.journal[|s.journal|], policy);
    }
  }

  lemma SameActions(s: State, s': State, policy: Policy)
    requires PlanFits(s, policy) && TargetFits(s, policy)
    requires s'.used == s.used && s'.successor == s.successor && s'.plan == s.plan
    requires Target(s'.phase).None? || Target(s'.phase) == Target(s.phase)
    ensures PlanFits(s', policy) && TargetFits(s', policy)
  {
    var plan := ActionsOf(s);
    assert ActionsOf(s') == plan;
    forall i | 0 <= i < |plan| && plan[i].Resume?
      ensures MayStart(s', plan[i].turn.turnId, plan[i].attempt, policy)
    {
      assert MayStart(s, plan[i].turn.turnId, plan[i].attempt, policy);
    }
    if Target(s'.phase).Some? {
      forall i | 0 <= i < |plan| ensures plan[i].turn.turnId != Target(s'.phase).value.turn {
      }
    }
  }

  /** One action is taken from the plan; if it resumes a turn, that turn is
      the target from then on and no other action is about it. */
  lemma ActionTaken(s: State, s': State, i: nat, policy: Policy)
    requires PlanFits(s, policy) && TargetFits(s, policy)
    requires s'.used == s.used && s'.successor == s.successor
    requires s.plan.Some? && i < |s.plan.value| && s'.plan == Some(RemoveAt(s.plan.value, i))
    requires || s'.phase == s.phase
             || (s.plan.value[i].Resume?
                 && Target(s'.phase) == Some(Successor(s.plan.value[i].turn.turnId, s.plan.value[i].attempt)))
    ensures PlanFits(s', policy) && TargetFits(s', policy)
  {
    OneActionLess(ActionsOf(s), i);
    RestFits(s, s', i, policy);
    TargetKept(s, s', i, policy);
  }

  lemma RestFits(s: State, s': State, i: nat, policy: Policy)
    requires PlanFits(s, policy) && s'.used == s.used && s'.successor == s.successor
    requires s.plan.Some? && i < |s.plan.value| && s'.plan == Some(RemoveAt(s.plan.value, i))
    ensures PlanFits(s', policy)
    ensures forall k :: 0 <= k < |ActionsOf(s')| ==> ActionsOf(s')[k].turn.turnId != s.plan.value[i].turn.turnId
  {
    var plan, rest := ActionsOf(s), ActionsOf(s');
    OneActionLess(plan, i);
    forall k | 0 <= k < |rest|
      ensures rest[k].Resume? ==> MayStart(s', rest[k].turn.turnId, rest[k].attempt, policy)
      ensures rest[k].turn.turnId != plan[i].turn.turnId
    {
      assert rest[k] == plan[if k < i then k else k + 1];
    }
    forall j, k | 0 <= j < k < |rest| ensures rest[j].turn.turnId != rest[k].turn.turnId {
      assert rest[j] == plan[if j < i then j else j + 1] && rest[k] == plan[if k < i then k else k + 1];
    }
  }

  lemma TargetKept(s: State, s': State, i: nat, policy: Policy)
    requires PlanFits(s, policy) && TargetFits(s, policy) && PlanFits(s', policy)
    requires s'.used == s.used && s'.successor == s.successor
    requires s.plan.Some? && i < |s.plan.value| && s'.plan == Some(RemoveAt(s.plan.value, i))
    requires forall k :: 0 <= k < |ActionsOf(s')| ==> ActionsOf(s')[k].turn.turnId != s.plan.value[i].turn.turnId
    requires || s'.phase == s.phase
             || (s.plan.value[i].Resume?
                 && Target(s'.phase) == Some(Successor(s.plan.value[i].turn.turnId, s.plan.value[i].attempt)))
    ensures TargetFits(s', policy)
  {
    if s'.phase == s.phase {
      if Target(s.phase).Some? {
        OneActionLess(ActionsOf(s), i);
        forall k | 0 <= k < |ActionsOf(s')| ensures ActionsOf(s')[k].turn.turnId != Target(s.phase).value.turn {
          assert ActionsOf(s')[k] == ActionsOf(s)[if k < i then k else k + 1];
        }
      }
    } else {
      assert ActionsOf(s)[i].Resume?;
    }
  }

  /** Steps that take an action from the plan, and all others. */
  lemma ActionsLeft(s: State, step: Step, policy: Policy)
    requires Enabled(s, step) && LeavesLinks(step) && !step.CarryOutAbandon? && !step.BeginResume?
    ensures
      var s' := Apply(s, step, policy);
      && s'.used == s.used && s'.successor == s.successor
      && (step.Crash? || s'.plan == s.plan)
      && (step.Crash? ==> s'.plan.None?)
      && (Target(s'.phase).None? || Target(s'.phase) == Target(s.phase))
      && (step.Crash? ==> Target(s'.phase).None?)
  {
  }

  lemma ActionsStep(s: State, step: Step, policy: Policy)
    requires PlanFits(s, policy) && TargetFits(s, policy) && Enabled(s, step) && LeavesLinks(step)
    ensures PlanFits(Apply(s, step, policy), policy) && TargetFits(Apply(s, step, policy), policy)
  {
    var s' := Apply(s, step, policy);
    if step.CarryOutAbandon? || step.BeginResume? {
      ActionTaken(s, s', step.i, policy);
    } else {
      ActionsLeft(s, step, policy);
      if !step.Crash? {
        SameActions(s, s', policy);
      }
    }
  }

  /** The turn a restore pass leaves behind is over: a successor starts only
      after its predecessor can never be planned again. */
  lemma PredecessorIsOver(s: State, turn: string)
    requires Commits.Invariant(s) && s.phase.Restored? && turn in s.used
    ensures turn in s.pruned || Ended(s.journal, turn)
  {
    if turn !in s.pruned {
      assert Started(s.journal, turn) && !Commits.Open(s.journal, turn);
      SettlesEnds(s.journal, turn);
    }
  }

  lemma StartTurnStep(s: State, step: Step, policy: Policy)
    requires Invariant(s, policy) && Enabled(s, step) && step.StartTurn?
    ensures Invariant(Apply(s, step, policy), policy)
  {
    var s' := Apply(s, step, policy);
    var e := s'.journal[|s.journal|];
    assert s'.journal == s.journal + [e];
    Commits.StepKeeps(s, step, policy);
    StartedAttempt(s, s', e, step.id);
    StartedLink(s, s', e, s.phase.next, step.id, policy);
    StartedActions(s, s', s.phase.next, step.id, policy);
  }

  lemma StartedLink(s: State, s': State, e: Entry, next: Next, id: string, policy: Policy)
    requires Invariant(s, policy) && s.phase.Restored? && s.phase.next == next && id !in s.used
    requires s'.journal == s.journal + [e] && s'.pruned == s.pruned
    requires s'.used == s.used[id := if next.NewTurn? then 0 else next.attempt]
    requires s'.successor == if next.NewTurn? then s.successor else s.successor[next.turn := id]
    ensures LinksFit(s', policy)
  {
    if next.Successor? {
      assert Target(s.phase) == Some(next);
      PredecessorIsOver(s, next.turn);
    }
    forall t ensures Ended(s.journal, t) ==> Ended(s'.journal, t) {
      StartedSnoc(s.journal, e, t);
    }
  }

  lemma StartedActions(s: State, s': State, next: Next, id: string, policy: Policy)
    requires PlanFits(s, policy) && TargetFits(s, policy) && s.phase.Restored? && s.phase.next == next && id !in s.used
    requires s'.plan == s.plan && s'.phase.Running?
    requires s'.used == s.used[id := if next.NewTurn? then 0 else next.attempt]
    requires s'.successor == if next.NewTurn? then s.successor else s.successor[next.turn := id]
    ensures PlanFits(s', policy) && TargetFits(s', policy)
  {
    if next.Successor? {
      assert Target(s.phase) == Some(next);
    }
    var plan := ActionsOf(s);
    forall i | 0 <= i < |plan| && plan[i].Resume?
      ensures MayStart(s', plan[i].turn.turnId, plan[i].attempt, policy)
    {
      assert MayStart(s, plan[i].turn.turnId, plan[i].attempt, policy);
    }
  }

  lemma StartedAttempt(s: State, s': State, e: Entry, id: string)
    requires s'.journal == s.journal + [e] && Starts(e.record, id)
    requires s'.used == s.used[id := e.record.attempt] && s'.pruned == s.pruned
    requires Commits.Invariant(s) && id !in s.used && AttemptsFit(s)
    ensures AttemptsFit(s')
  {
    forall t | t in s'.used && t !in s'.pruned ensures MaxAttempt(StartsOf(s'.journal, t)) == s'.used[t] {
      StartedSnoc(s.journal, e, t);
      if t == id {
        FirstAttempt(s, e, id);
      }
    }
  }

  lemma FirstAttempt(s: State, e: StartEntry, id: string)
    requires Commits.TurnsKnown(s) && id !in s.used
    ensures StartsOf(s.journal, id) == [] && MaxAttempt([e]) == e.record.attempt
  {
    StartsAre(s.journal, id);
    var starts: seq<StartEntry> := [e];
    assert starts[..0] == [] && MaxAttempt(starts[..0]) == 0;
    assert MaxAttempt(starts) == e.record.attempt;
  }

  lemma PruneStep(s: State, step: Step, policy: Policy)
    requires Invariant(s, policy) && Enabled(s, step) && step.PruneRecords?
    ensures Invariant(Apply(s, step, policy), policy)
  {
    Commits.StepKeeps(s, step, policy);
    PrunedLinks(s, Apply(s, step, policy), OpenTurnIds(s.journal), policy);
  }

  /** Pruned turns need no starts and no ends any more, open ones keep theirs. */
  lemma PrunedLinks(s: State, s': State, open: set<string>, policy: Policy)
    requires AttemptsFit(s) && PlanFits(s, policy) && TargetFits(s, policy) && LinksFit(s, policy)
    requires s'.journal == Filter(s.journal, Keeper(open)) && s'.pruned == s.pruned + (s.used.Keys - open)
    requires s'.used == s.used && s'.successor == s.successor && s'.plan == s.plan && s'.phase == s.phase
    ensures AttemptsFit(s') && PlanFits(s', policy) && TargetFits(s', policy) && LinksFit(s', policy)
  {
    forall t | t in open
      ensures StartsOf(s'.journal, t) == StartsOf(s.journal, t)
      ensures Ended(s'.journal, t) == Ended(s.journal, t)
    {
      ViewsKept(s.journal, open, t);
      EndingsKept(s.journal, open, t);
    }
  }

  lemma StepKeeps(s: State, step: Step, policy: Policy)
    requires Invariant(s, policy) && Enabled(s, step)
    ensures Invariant(Apply(s, step, policy), policy)
  {
    if step.Plan? { PlanStep(s, step, policy); }
    else if step.StartTurn? { StartTurnStep(s, step, policy); }
    else if step.PruneRecords? { PruneStep(s, step, policy); }
    else {
      Commits.StepKeeps(s, step, policy);
      RecordsStep(s, step, policy);
      ActionsStep(s, step, policy);
    }
  }

  lemma {:induction false} HoldsThroughout(run: seq<State>, steps: seq<Step>, policy: Policy, n: nat)
    requires IsRun(run, steps, policy) && n < |run|
    ensures Invariant(run[n], policy)
  {
    if n > 0 {
      HoldsThroughout(run, steps, policy, n - 1);
      RunStep(run, steps, policy, n - 1);
      StepKeeps(run[n - 1], steps[n - 1], policy);
    }
  }

  // ---------------------------------------------------------------------
  // Theorems
  // ---------------------------------------------------------------------

  /** Once a turn has a successor it keeps that one: over the whole run no
      turn is ever succeeded twice. */
  lemma {:induction false} OneSuccessor(run: seq<State>, steps: seq<Step>, policy: Policy, m: nat, n: nat, turn: string)
    requires IsRun(run, steps, policy) && m <= n < |run| && turn in run[m].successor
    ensures turn in run[n].successor && run[n].successor[turn] == run[m].successor[turn]
    decreases n
  {
    if m < n {
      OneSuccessor(run, steps, policy, m, n - 1, turn);
      HoldsThroughout(run, steps, policy, n - 1);
      RunStep(run, steps, policy, n - 1);
      SuccessorKept(run[n - 1], steps[n - 1], policy, turn);
    }
  }

  lemma SuccessorKept(s: State, step: Step, policy: Policy, turn: string)
    requires Invariant(s, policy) && Enabled(s, step) && turn in s.successor
    ensures turn in Apply(s, step, policy).successor && Apply(s, step, policy).successor[turn] == s.successor[turn]
  {
  }

  /** Every link of the run: the successor is a turn of its own, its attempt is
      its predecessor's plus one and within the limit, and no other turn has it
      as successor. */
  lemma LinksAreAttempts(run: seq<State>, steps: seq<Step>, policy: Policy, n: nat, turn: string)
    requires IsRun(run, steps, policy) && n < |run| && turn in run[n].successor
    ensures turn in run[n].used && run[n].successor[turn] in run[n].used
    ensures run[n].used[run[n].successor[turn]] == run[n].used[turn] + 1 <= policy.maxAttempts
    ensures forall u :: u in run[n].successor && u != turn ==> run[n].successor[u] != run[n].successor[turn]
  {
    HoldsThroughout(run, steps, policy, n);
  }

  /** Turns each of which was succeeded by the next. */
  ghost predicate IsChain(s: State, chain: seq<string>) {
    && chain != []
    && forall i :: 0 <= i < |chain| - 1 ==> chain[i] in s.successor && s.successor[chain[i]] == chain[i + 1]
  }

  /** The attempts left to a turn: what each link of a chain uses up. */
  function AttemptsLeft(s: State, turn: string, policy: Policy): int {
    policy.maxAttempts - (if turn in s.used then s.used[turn] else 0)
  }

  /** A chain of resumed turns is at most as long as the attempts its first
      turn had left, plus that first turn: the measure falls by one per link. */
  lemma {:induction false} ChainsEnd(s: State, policy: Policy, chain: seq<string>)
    requires Invariant(s, policy) && IsChain(s, chain)
    ensures |chain| > 1 ==> |chain| - 1 <= AttemptsLeft(s, chain[0], policy)
    ensures chain[0] in s.used ==> AttemptsLeft(s, chain[|chain| - 1], policy) == AttemptsLeft(s, chain[0], policy) - (|chain| - 1)
    decreases |chain|
  {
    if |chain| > 1 {
      var rest := chain[1..];
      assert chain[0] in s.successor && rest[0] == chain[1];
      forall i | 0 <= i < |rest| - 1 ensures rest[i] in s.successor && s.successor[rest[i]] == rest[i + 1] {
        assert rest[i] == chain[i + 1] && rest[i + 1] == chain[i + 2];
      }
      ChainsEnd(s, policy, rest);
    }
  }

  /** Over every run, whatever crashes: a user's turn has at most `maxAttempts`
      successors in its chain, so retrying a turn that always crashes ends. */
  lemma AtMostMaxAttempts(run: seq<State>, steps: seq<Step>, policy: Policy, n: nat, chain: seq<string>)
    requires IsRun(run, steps, policy) && n < |run| && IsChain(run[n], chain)
    ensures |chain| - 1 <= policy.maxAttempts
  {
    HoldsThroughout(run, steps, policy, n);
    ChainsEnd(run[n], policy, chain);
  }
}
