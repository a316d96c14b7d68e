// How often a turn is added to the saved transcript over a run with crashes
// anywhere, and exactly when a crash loses it. What the additions hold, message
// by message, is in CrashMessages.

module CrashCommits {
  import opened Wrappers
  import opened Sequences
  import opened Json
  import opened Journal
  import opened Recovery
  import opened Pruning
  import opened ResumePlan
  import opened CrashProtocol

  predicate Holds(commits: seq<Commit>, turn: string) {
    exists c :: c in commits && c.turn == turn
  }

  ghost predicate OncePerTurn(commits: seq<Commit>) {
    forall i, j :: 0 <= i < j < |commits| ==> commits[i].turn != commits[j].turn
  }

  /** The journal, or the fact that it was compacted, says the turn is done. */
  predicate Closed(s: State, turn: string) {
    turn in s.pruned || Settled(s.journal, turn)
  }

  predicate Open(journal: seq<Entry>, turn: string) {
    Started(journal, turn) && !Settled(journal, turn)
  }

  /** Which turns the journal knows. */
  ghost predicate TurnsKnown(s: State) {
    && s.pruned <= s.used.Keys
    && (forall t :: Started(s.journal, t) <==> t in s.used && t !in s.pruned)
    && (forall t :: Settled(s.journal, t) ==> t in s.used)
  }

  /** A committed turn is closed, committed once, and not also counted blank. */
  ghost predicate CommitsFit(s: State, commits: seq<Commit>) {
    && OncePerTurn(commits)
    && forall c :: c in commits ==> c.turn in s.used && Closed(s, c.turn) && c.turn !in s.blank
  }

  ghost predicate BlanksFit(s: State) {
    forall t :: t in s.blank ==> t in s.used && Closed(s, t)
  }

  ghost predicate NoneOpen(journal: seq<Entry>) {
    forall t :: !Open(journal, t)
  }

  ghost predicate PhaseFits(s: State) {
    match s.phase
    case Restoring(_, pending) =>
      && NoDuplicates(pending)
      && s.disk <= s.cache
      && forall t :: t in pending <==> Open(s.journal, t)
    case Restored(_, snapshot) =>
      snapshot == s.cache && NoneOpen(s.journal)
    case Running(turn, snapshot, _, _, _) =>
      && snapshot == s.cache
      && Open(s.journal, turn)
      && forall t :: Open(s.journal, t) ==> t == turn
    case Finished(turn, snapshot, _) =>
      && snapshot == s.cache && NoneOpen(s.journal)
      && turn in s.used && Closed(s, turn) && !Holds(s.cache, turn) && turn !in s.blank
    case _ => true
  }

  ghost predicate Invariant(s: State) {
    && TurnsKnown(s)
    && CommitsFit(s, s.cache) && CommitsFit(s, s.disk)
    && BlanksFit(s)
    && PhaseFits(s)
    && (!s.phase.Restoring? ==> s.disk == s.cache)
  }

  // ---------------------------------------------------------------------
  // One record, one commit
  // ---------------------------------------------------------------------

  lemma RecordAdded(s: State, s': State, e: Entry)
    requires s'.journal == s.journal + [e]
    ensures forall t :: Started(s'.journal, t) <==> Started(s.journal, t) || Starts(e.record, t)
    ensures forall t :: Settled(s'.journal, t) <==> Settled(s.journal, t) || Settles(e.record, t)
    ensures forall t :: !Starts(e.record, t) ==> (Open(s'.journal, t) <==> Open(s.journal, t) && !Settles(e.record, t))
  {
    forall t
      ensures Started(s'.journal, t) <==> Started(s.journal, t) || Starts(e.record, t)
      ensures Settled(s'.journal, t) <==> Settled(s.journal, t) || Settles(e.record, t)
    {
      StartedSnoc(s.journal, e, t);
    }
  }

  lemma CommitAdded(commits: seq<Commit>, c: Commit)
    requires OncePerTurn(commits) && !Holds(commits, c.turn)
    ensures OncePerTurn(commits + [c])
    ensures forall t :: Holds(commits + [c], t) <==> Holds(commits, t) || t == c.turn
  {
    var all := commits + [c];
    forall i, j | 0 <= i < j < |all| ensures all[i].turn != all[j].turn {
      if j == |commits| {
        assert all[i] in commits;
      }
    }
    forall t ensures Holds(all, t) <==> Holds(commits, t) || t == c.turn {
      assert c in all;
      if Holds(commits, t) {
        var d :| d in commits && d.turn == t;
        assert d in all;
      }
    }
  }

  predicate IsSilent(step: Step) {
    || step.Plan? || step.BeginResume? || step.SkipReplay? || step.ExecuteReplay? || step.LeaveRestored?
    || step.ExecuteCall? || step.Say? || step.Panic? || step.SaveSession? || step.Crash?
  }

  /** Nothing the commit argument looks at differs between the two phases. */
  predicate SamePosition(p: Phase, q: Phase) {
    || p == q
    || q.Idle? || q.Replaying? || q.ReplayInFlight?
    || (p.Running? && q.Running? && p.turn == q.turn && p.snapshot == q.snapshot)
  }

  lemma PositionKept(s: State, s': State)
    requires Invariant(s) && SamePosition(s.phase, s'.phase) && (s.phase.Restoring? ==> s'.phase.Restoring?)
    requires s'.journal == s.journal && s'.disk == s.disk && s'.cache == s.cache
    requires s'.used == s.used && s'.pruned == s.pruned && s'.blank == s.blank
    ensures Invariant(s')
  {
  }

  lemma SaveOrCrashStep(s: State, step: Step, policy: Policy)
    requires Invariant(s) && Enabled(s, step) && (step.SaveSession? || step.Crash?)
    ensures Invariant(Apply(s, step, policy))
  {
  }

  /** Steps that leave the journal alone and start no restore pass. */
  lemma SilentStep(s: State, step: Step, policy: Policy)
    requires Invariant(s) && Enabled(s, step) && IsSilent(step)
    ensures Invariant(Apply(s, step, policy))
  {
    if step.SaveSession? || step.Crash? {
      SaveOrCrashStep(s, step, policy);
    } else {
      PositionKept(s, Apply(s, step, policy));
    }
  }

  predicate IsNeutralRecord(step: Step) {
    || step.CarryOutAbandon? || step.RefuseReplay? || step.BeginReplay? || step.FinishReplay? || step.Announce?
    || step.BlockCall? || step.FinishCall? || step.TakeCheckpoint? || step.CancelTurn?
  }

  /** A record that neither starts nor settles a turn leaves every turn as it is. */
  lemma NeutralRecord(s: State, s': State, e: Entry)
    requires Invariant(s) && s'.journal == s.journal + [e]
    requires IsNeutral(e.record)
    requires s'.disk == s.disk && s'.cache == s.cache && s'.used == s.used
    requires s'.pruned == s.pruned && s'.blank == s.blank
    requires SamePosition(s.phase, s'.phase) && (s.phase.Restoring? ==> s'.phase.Restoring?)
    ensures Invariant(s')
  {
    RecordAdded(s, s', e);
    assert forall t :: Open(s'.journal, t) <==> Open(s.journal, t);
  }

  lemma NeutralJournals(s: State, step: Step, policy: Policy)
    requires Enabled(s, step) && IsNeutralRecord(step)
    ensures
      var journal := Apply(s, step, policy).journal;
      && |journal| == |s.journal| + 1 && journal == s.journal + [journal[|s.journal|]]
      && IsNeutral(journal[|s.journal|].record)
  {
  }

  /** A record that neither starts nor settles a turn. */
  predicate IsNeutral(r: Record) {
    || r.ToolIntent? || r.StepCheckpoint?
    || (r.TurnEnd? && !r.outcome.Completed? && !r.outcome.Failed?)
  }

  lemma NeutralSaves(s: State, step: Step, policy: Policy)
    requires Enabled(s, step) && IsNeutralRecord(step)
    ensures Apply(s, step, policy).disk == s.disk && Apply(s, step, policy).cache == s.cache
  {
  }

  lemma NeutralCounts(s: State, step: Step, policy: Policy)
    requires Enabled(s, step) && IsNeutralRecord(step)
    ensures
      var s' := Apply(s, step, policy);
      s'.used == s.used && s'.pruned == s.pruned && s'.blank == s.blank
  {
  }

  lemma NeutralPhase(s: State, step: Step, policy: Policy)
    requires Enabled(s, step) && IsNeutralRecord(step)
    ensures SamePosition(s.phase, Apply(s, step, policy).phase)
    ensures s.phase.Restoring? ==> Apply(s, step, policy).phase.Restoring?
  {
  }

  /** Steps that journal such a record. */
  lemma NeutralRecordStep(s: State, step: Step, policy: Policy)
    requires Invariant(s) && Enabled(s, step) && IsNeutralRecord(step)
    ensures Invariant(Apply(s, step, policy))
  {
    var s' := Apply(s, step, policy);
    NeutralJournals(s, step, policy);
    NeutralSaves(s, step, policy);
    NeutralCounts(s, step, policy);
    NeutralPhase(s, step, policy);
    NeutralRecord(s, s', s'.journal[|s.journal|]);
  }

  lemma RestorePassStep(s: State, step: Step, policy: Policy)
    requires Invariant(s) && Enabled(s, step) && (step.EndReplay? || step.BeginTurn?)
    ensures Invariant(Apply(s, step, policy))
  {
    TurnsToRestoreAre(s.journal);
  }

  lemma CacheRestored(s: State, s': State, turn: string, lines: seq<Line>)
    requires TurnsKnown(s) && CommitsFit(s, s.cache) && BlanksFit(s) && Open(s.journal, turn)
    requires s'.used == s.used && s'.pruned == s.pruned
    requires forall t :: Settled(s'.journal, t) <==> Settled(s.journal, t) || t == turn
    requires s'.cache == if lines == [] then s.cache else s.cache + [Commit(turn, lines, true)]
    requires s'.blank == if lines == [] then s.blank + {turn} else s.blank
    ensures CommitsFit(s', s'.cache) && BlanksFit(s')
  {
    assert !Closed(s, turn) && !Holds(s.cache, turn) && turn !in s.blank;
    CommitAdded(s.cache, Commit(turn, lines, true));
  }

  /** The first pending turn is settled, and committed or counted blank. */
  lemma OneRestored(s: State, s': State, e: Entry, turn: string, lines: seq<Line>)
    requires Invariant(s) && s.phase.Restoring? && s.phase.pending != [] && turn == s.phase.pending[0]
    requires s'.journal == s.journal + [e] && e.record == TurnRestored(turn)
    requires s'.disk == s.disk && s'.used == s.used && s'.pruned == s.pruned
    requires s'.cache == if lines == [] then s.cache else s.cache + [Commit(turn, lines, true)]
    requires s'.blank == if lines == [] then s.blank + {turn} else s.blank
    requires s'.phase.Restoring? && s'.phase.pending == s.phase.pending[1..]
    ensures Invariant(s')
  {
    RecordAdded(s, s', e);
    assert turn in s.phase.pending && Open(s.journal, turn);
    CacheRestored(s, s', turn, lines);
    RestPending(s.phase.pending, turn);
  }

  lemma RestPending(pending: seq<string>, turn: string)
    requires NoDuplicates(pending) && pending != [] && pending[0] == turn
    ensures NoDuplicates(pending[1..])
    ensures forall t :: t in pending[1..] <==> t in pending && t != turn
  {
    forall t ensures t in pending[1..] <==> t in pending && t != turn {
      assert pending == [turn] + pending[1..];
    }
  }

  lemma RestoreOneStep(s: State, step: Step, policy: Policy)
    requires Invariant(s) && Enabled(s, step) && step.RestoreOne?
    ensures Invariant(Apply(s, step, policy))
  {
    var s' := Apply(s, step, policy);
    var turn := s.phase.pending[0];
    OneRestored(s, s', s'.journal[|s.journal|], turn, RestoredLines(s, turn, step.ts));
  }

  lemma SaveRestoredStep(s: State, step: Step, policy: Policy)
    requires Invariant(s) && Enabled(s, step) && step.SaveRestored?
    ensures Invariant(Apply(s, step, policy))
  {
  }

  lemma StartTurnStep(s: State, step: Step, policy: Policy)
    requires Invariant(s) && Enabled(s, step) && step.StartTurn?
    ensures Invariant(Apply(s, step, policy))
  {
    var s' := Apply(s, step, policy);
    var e := s'.journal[|s.journal|];
    assert s'.journal == s.journal + [e];
    RecordAdded(s, s', e);
    assert Started(s'.journal, step.id) && !Settled(s'.journal, step.id);
    forall t | Open(s'.journal, t) ensures t == step.id {
      assert t != step.id ==> Open(s.journal, t);
    }
  }

  lemma EndTurnStep(s: State, step: Step, policy: Policy)
    requires Invariant(s) && Enabled(s, step) && step.EndTurn?
    ensures Invariant(Apply(s, step, policy))
  {
    var s' := Apply(s, step, policy);
    var e := s'.journal[|s.journal|];
    assert s'.journal == s.journal + [e];
    RecordAdded(s, s', e);
  }

  lemma PersistStep(s: State, step: Step, policy: Policy)
    requires Invariant(s) && Enabled(s, step) && step.Persist?
    ensures Invariant(Apply(s, step, policy))
  {
    CommitAdded(s.cache, Commit(s.phase.turn, s.phase.own, false));
  }

  lemma PrunedJournal(s: State)
    requires TurnsKnown(s)
    ensures forall t :: Started(Prune(s.journal), t) <==> Open(s.journal, t)
    ensures forall t :: Settled(Prune(s.journal), t) ==> Settled(s.journal, t)
    ensures forall t :: t in OpenTurnIds(s.journal) <==> Open(s.journal, t)
  {
    var open, pruned := OpenTurnIds(s.journal), Prune(s.journal);
    OpenTurnIdsAre(s.journal);
    StartedIdsKept(s.journal, open);
    IdsInAre(StartedIds(s.journal), open);
    StartedIdsAre(s.journal);
    StartedIdsAre(pruned);
    forall t
      ensures Started(pruned, t) <==> Open(s.journal, t)
      ensures Settled(pruned, t) ==> Settled(s.journal, t)
    {
      StartsAre(s.journal, t);
      StartsAre(pruned, t);
      if t in open {
        EndingsKept(s.journal, open, t);
      }
    }
  }

  lemma PruneStep(s: State, step: Step, policy: Policy)
    requires Invariant(s) && Enabled(s, step) && step.PruneRecords?
    ensures Invariant(Apply(s, step, policy))
  {
    PrunedJournal(s);
  }

  lemma StepKeeps(s: State, step: Step, policy: Policy)
    requires Invariant(s) && Enabled(s, step)
    ensures Invariant(Apply(s, step, policy))
  {
    if IsSilent(step) { SilentStep(s, step, policy); }
    else if IsNeutralRecord(step) { NeutralRecordStep(s, step, policy); }
    else {
      match step
      case EndReplay => RestorePassStep(s, step, policy);
      case BeginTurn => RestorePassStep(s, step, policy);
      case RestoreOne(_) => RestoreOneStep(s, step, policy);
      case SaveRestored => SaveRestoredStep(s, step, policy);
      case StartTurn(_, _, _, _, _, _, _, _, _) => StartTurnStep(s, step, policy);
      case EndTurn(_, _) => EndTurnStep(s, step, policy);
      case PruneRecords => PruneStep(s, step, policy);
      case Persist => PersistStep(s, step, policy);
    }
  }

  lemma {:induction false} HoldsThroughout(run: seq<State>, steps: seq<Step>, policy: Policy, n: nat)
    requires IsRun(run, steps, policy) && n < |run|
    ensures Invariant(run[n])
  {
    if n > 0 {
      HoldsThroughout(run, steps, policy, n - 1);
      RunStep(run, steps, policy, n - 1);
      StepKeeps(run[n - 1], steps[n - 1], policy);
    }
  }

  /** Over every run, with crashes anywhere: at most one addition to the saved
      transcript is a turn's, and only of turns that the journal says are settled
      or that were pruned. This counts additions, not messages: the addition of
      a resumed turn may hold messages of its predecessor again, which
      `CrashMessages.EachMessageOnceIff` is about. */
  lemma AtMostOnce(run: seq<State>, steps: seq<Step>, policy: Policy, n: nat)
    requires IsRun(run, steps, policy) && n < |run|
    ensures OncePerTurn(run[n].disk)
    ensures forall c :: c in run[n].disk ==> Closed(run[n], c.turn)
  {
    HoldsThroughout(run, steps, policy, n);
  }

  // ---------------------------------------------------------------------
  // Exactly once, but for two windows
  // ---------------------------------------------------------------------

  /** The turn counts as done, yet its messages are neither in the transcript
      nor about to be saved, and a restore did find messages for it. */
  predicate Lost(s: State, turn: string) {
    && turn in s.used && Closed(s, turn)
    && !Holds(s.cache, turn) && turn !in s.blank
    && !(s.phase.Finished? && s.phase.turn == turn)
  }

  /** The two windows between a mark in the journal and the save: the turn
      ended and is not saved, or a restore pass merged it and is not saved. */
  predicate InWindow(s: State, turn: string) {
    || (s.phase.Finished? && s.phase.turn == turn)
    || (Holds(s.cache, turn) && !Holds(s.disk, turn))
  }

  /** One record changes which turns are closed only as `Settles` says. */
  lemma ClosedSnoc(s: State, s': State, e: Entry)
    requires s'.journal == s.journal + [e] && s'.pruned == s.pruned
    ensures forall t :: Closed(s', t) <==> Closed(s, t) || Settles(e.record, t)
  {
    RecordAdded(s, s', e);
  }

  lemma NeutralLoss(s: State, step: Step, policy: Policy, turn: string)
    requires Invariant(s) && Enabled(s, step) && IsNeutralRecord(step)
    ensures Lost(Apply(s, step, policy), turn) <==> Lost(s, turn)
  {
    var s' := Apply(s, step, policy);
    var e := s'.journal[|s.journal|];
    assert s'.journal == s.journal + [e];
    ClosedSnoc(s, s', e);
    assert !Settles(e.record, turn);
  }

  lemma RestoreOneLoss(s: State, step: Step, policy: Policy, turn: string)
    requires Invariant(s) && Enabled(s, step) && step.RestoreOne?
    ensures Lost(Apply(s, step, policy), turn) <==> Lost(s, turn)
  {
    var s' := Apply(s, step, policy);
    var e := s'.journal[|s.journal|];
    assert s'.journal == s.journal + [e];
    ClosedSnoc(s, s', e);
    var restored := s.phase.pending[0];
    assert restored in s.phase.pending && Open(s.journal, restored) && !Closed(s, restored);
    assert !Holds(s.cache, restored);
    CommitAdded(s.cache, Commit(restored, RestoredLines(s, restored, step.ts), true));
  }

  lemma StartTurnLoss(s: State, step: Step, policy: Policy, turn: string)
    requires Invariant(s) && Enabled(s, step) && step.StartTurn?
    ensures Lost(Apply(s, step, policy), turn) <==> Lost(s, turn)
  {
    var s' := Apply(s, step, policy);
    var e := s'.journal[|s.journal|];
    assert s'.journal == s.journal + [e];
    ClosedSnoc(s, s', e);
    assert !Settles(e.record, turn);
  }

  lemma EndTurnLoss(s: State, step: Step, policy: Policy, turn: string)
    requires Invariant(s) && Enabled(s, step) && step.EndTurn?
    ensures Lost(Apply(s, step, policy), turn) <==> Lost(s, turn)
  {
    var s' := Apply(s, step, policy);
    var e := s'.journal[|s.journal|];
    assert s'.journal == s.journal + [e];
    ClosedSnoc(s, s', e);
    assert Open(s.journal, s.phase.turn);
  }

  lemma PruneLoss(s: State, step: Step, policy: Policy, turn: string)
    requires Invariant(s) && Enabled(s, step) && step.PruneRecords?
    ensures Lost(Apply(s, step, policy), turn) <==> Lost(s, turn)
  {
    PrunedJournal(s);
  }

  lemma PersistLoss(s: State, step: Step, policy: Policy, turn: string)
    requires Invariant(s) && Enabled(s, step) && step.Persist?
    ensures Lost(Apply(s, step, policy), turn) <==> Lost(s, turn)
  {
    CommitAdded(s.cache, Commit(s.phase.turn, s.phase.own, false));
  }

  /** A crash loses exactly the turns in the two windows. */
  lemma CrashLoss(s: State, turn: string)
    requires Invariant(s)
    ensures
      var s' := s.(cache := s.disk, phase := Idle, plan := None, local := {});
      Lost(s', turn) <==> Lost(s, turn) || InWindow(s, turn)
  {
    if Holds(s.disk, turn) {
      var c :| c in s.disk && c.turn == turn;
      assert s.disk <= s.cache;
      assert c in s.cache;
    }
  }

  predicate IsQuiet(step: Step) {
    !step.Crash? && (IsSilent(step) || step.EndReplay? || step.BeginTurn? || step.SaveRestored?)
  }

  lemma QuietIs(s: State, step: Step, policy: Policy)
    requires Enabled(s, step) && IsQuiet(step)
    ensures
      var s' := Apply(s, step, policy);
      s'.journal == s.journal && s'.pruned == s.pruned && s'.used == s.used && s'.cache == s.cache && s'.blank == s.blank
  {
  }

  lemma QuietFinish(s: State, step: Step, policy: Policy)
    requires Enabled(s, step) && IsQuiet(step)
    ensures
      var phase := Apply(s, step, policy).phase;
      (s.phase.Finished? <==> phase.Finished?) && (phase.Finished? ==> phase == s.phase)
  {
  }

  /** Steps that journal nothing and commit nothing lose nothing. */
  lemma QuietLoss(s: State, step: Step, policy: Policy, turn: string)
    requires Enabled(s, step) && IsQuiet(step)
    ensures Lost(Apply(s, step, policy), turn) <==> Lost(s, turn)
  {
    QuietIs(s, step, policy);
    QuietFinish(s, step, policy);
  }

  lemma LossStep(s: State, step: Step, policy: Policy, turn: string)
    requires Invariant(s) && Enabled(s, step)
    ensures Lost(Apply(s, step, policy), turn) <==> Lost(s, turn) || (step.Crash? && InWindow(s, turn))
  {
    if step.Crash? {
      CrashLoss(s, turn);
    } else if IsNeutralRecord(step) {
      NeutralLoss(s, step, policy, turn);
    } else if step.RestoreOne? {
      RestoreOneLoss(s, step, policy, turn);
    } else if step.StartTurn? {
      StartTurnLoss(s, step, policy, turn);
    } else if step.EndTurn? {
      EndTurnLoss(s, step, policy, turn);
    } else if step.PruneRecords? {
      PruneLoss(s, step, policy, turn);
    } else if step.Persist? {
      PersistLoss(s, step, policy, turn);
    } else {
      QuietLoss(s, step, policy, turn);
    }
  }

  /** A crash at step `i` of the run hit the turn inside a window. */
  predicate LostAt(run: seq<State>, steps: seq<Step>, i: nat, turn: string)
    requires i < |steps| < |run|
  {
    steps[i].Crash? && InWindow(run[i], turn)
  }

  ghost predicate LostBefore(run: seq<State>, steps: seq<Step>, n: nat, turn: string)
    requires n <= |steps| < |run|
  {
    exists i: nat :: i < n && LostAt(run, steps, i, turn)
  }

  lemma LostBeforeNext(run: seq<State>, steps: seq<Step>, n: nat, turn: string)
    requires n < |steps| < |run|
    ensures LostBefore(run, steps, n + 1, turn) <==> LostBefore(run, steps, n, turn) || LostAt(run, steps, n, turn)
  {
  }

  lemma LossTransition(run: seq<State>, steps: seq<Step>, policy: Policy, n: nat, turn: string)
    requires IsRun(run, steps, policy) && n < |steps|
    ensures Lost(run[n + 1], turn) <==> Lost(run[n], turn) || LostAt(run, steps, n, turn)
  {
    HoldsThroughout(run, steps, policy, n);
    RunStep(run, steps, policy, n);
    LossStep(run[n], steps[n], policy, turn);
  }

  /** Over every run: a turn's messages are lost if and only if some crash fell
      between its mark in the journal and the save. */
  lemma {:induction false} LostIffCrashedInWindow(run: seq<State>, steps: seq<Step>, policy: Policy, n: nat, turn: string)
    requires IsRun(run, steps, policy) && n < |run|
    ensures Lost(run[n], turn) <==> LostBefore(run, steps, n, turn)
  {
    if n == 0 {
      assert turn !in run[0].used;
    } else {
      LostIffCrashedInWindow(run, steps, policy, n - 1, turn);
      LossTransition(run, steps, policy, n - 1, turn);
      LostBeforeNext(run, steps, n - 1, turn);
    }
  }

  /** So if each mark and its save are not separated by a crash, then whenever
      no save is outstanding exactly one addition to the saved transcript is the
      closed turn's, unless a restore found no messages for it at all. */
  lemma ExactlyOnce(run: seq<State>, steps: seq<Step>, policy: Policy, n: nat, turn: string)
    requires IsRun(run, steps, policy) && n < |run|
    requires !LostBefore(run, steps, n, turn)
    requires !run[n].phase.Restoring? && !run[n].phase.Finished?
    requires turn in run[n].used && Closed(run[n], turn)
    ensures OncePerTurn(run[n].disk)
    ensures Holds(run[n].disk, turn) <==> turn !in run[n].blank
  {
    HoldsThroughout(run, steps, policy, n);
    LostIffCrashedInWindow(run, steps, policy, n, turn);
  }
}
