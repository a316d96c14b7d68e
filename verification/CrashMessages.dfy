// Message by message: what the saved transcript holds over a run with crashes
// anywhere, how often, and what a crash takes from it.

module CrashMessages {
  import opened Wrappers
  import opened Sequences
  import opened Json
  import opened Journal
  import opened Recovery
  import opened Pruning
  import opened ResumePlan
  import opened CrashProtocol
  import Commits = CrashCommits
  import opened CrashTranscript

  /** The messages in the transcript, each as often as it is there. */
  function Messages(commits: seq<Commit>): seq<Origin> {
    Parts(Lines(commits))
  }

  lemma MessagesSnoc(commits: seq<Commit>, c: Commit)
    ensures Messages(commits + [c]) == Messages(commits) + Parts(c.lines)
  {
    LinesSnoc(commits, c);
    PartsConcat(Lines(commits), c.lines);
  }

  lemma MessagesPrefix(a: seq<Commit>, b: seq<Commit>)
    requires a <= b
    ensures Messages(a) <= Messages(b)
  {
    LinesPrefix(a, b);
    var rest := Lines(b)[|Lines(a)|..];
    assert Lines(b) == Lines(a) + rest;
    PartsConcat(Lines(a), rest);
  }

  lemma CommitHeld(commits: seq<Commit>, j: nat, o: Origin)
    requires j < |commits| && o in Parts(commits[j].lines)
    ensures o in Messages(commits)
  {
    TakeSnoc(commits, j);
    MessagesSnoc(commits[..j], commits[j]);
    MessagesPrefix(commits[..j + 1], commits);
    var until := Messages(commits[..j + 1]);
    assert o in until && until <= Messages(commits);
  }

  // ---------------------------------------------------------------------
  // Each message once, exactly without copies
  // ---------------------------------------------------------------------

  ghost predicate NoCopies(commits: seq<Commit>, heirs: set<string>) {
    forall c :: c in commits ==> !Copies(c, heirs)
  }

  lemma {:induction false} WithoutCopies(commits: seq<Commit>, heirs: set<string>)
    requires CommitsFit(commits, heirs) && Commits.OncePerTurn(commits) && NoCopies(commits, heirs)
    ensures NoDuplicates(Messages(commits))
    ensures forall o :: o in Messages(commits) ==> Commits.Holds(commits, o.turn)
  {
    if commits != [] {
      FrontLast(commits);
      var front, c := commits[..|commits| - 1], commits[|commits| - 1];
      CommitsPrefix(commits, front, heirs);
      WithoutCopies(front, heirs);
      MessagesSnoc(front, c);
      assert c in commits && CommitFits(commits, heirs, |front|);
      assert OwnOnly(c.turn, c.lines);
      assert !Commits.Holds(front, c.turn);
      forall o | o in Messages(commits) ensures Commits.Holds(commits, o.turn) {
        if o in Messages(front) {
          var d :| d in front && d.turn == o.turn;
          assert d in commits;
        }
      }
      OnceMore(Messages(front), Parts(c.lines), c.turn);
    }
  }

  lemma OnceMore(a: seq<Origin>, b: seq<Origin>, turn: string)
    requires NoDuplicates(a) && NoDuplicates(b)
    requires forall o :: o in b ==> o.turn == turn
    requires forall o :: o in a ==> o.turn != turn
    ensures NoDuplicates(a + b)
  {
    forall i, j | 0 <= i < j < |a + b| ensures (a + b)[i] != (a + b)[j] {
      if i < |a| <= j {
        assert a[i] in a && b[j - |a|] in b;
      }
    }
  }

  lemma Twice(a: seq<Origin>, b: seq<Origin>, all: seq<Origin>, o: Origin)
    requires o in a && o in b && a + b <= all
    ensures !NoDuplicates(all)
  {
    var i :| 0 <= i < |a| && a[i] == o;
    var k :| 0 <= k < |b| && b[k] == o;
    assert (a + b)[i] == (a + b)[|a| + k];
    assert all[i] == all[|a| + k];
  }

  /** A repeated line brings its messages again. */
  lemma RepeatedMessage(earlier: seq<Line>, lines: seq<Line>) returns (o: Origin)
    requires RepeatsSome(earlier, lines)
    ensures o in Parts(earlier) && o in Parts(lines)
  {
    var a, b :| a in earlier && b in lines && Repeats(a, b);
    o := a.parts[0];
    assert b.parts[0] == o;
    PartsHold(earlier, a, o);
    PartsHold(lines, b, o);
  }

  lemma WithCopy(commits: seq<Commit>, heirs: set<string>, j: nat)
    requires j < |commits| && CommitFits(commits, heirs, j) && Copies(commits[j], heirs)
    ensures !NoDuplicates(Messages(commits))
  {
    var front, c := commits[..j], commits[j];
    var o := RepeatedMessage(Lines(front), c.lines);
    TakeSnoc(commits, j);
    MessagesSnoc(front, c);
    MessagesPrefix(commits[..j + 1], commits);
    Twice(Messages(front), Parts(c.lines), Messages(commits), o);
  }

  /** With this step the turn starts on a transcript that is not empty, without
      appending a user message: it is resumed, or the transcript ends with a user
      message that the new one is joined with. */
  predicate TakesOver(s: State, step: Step, turn: string) {
    && step.StartTurn? && step.id == turn && s.phase.Restored?
    && var history := Lines(s.disk);
       history != [] && (s.phase.next.Successor? || HasRole(history[|history| - 1].value, User))
  }

  ghost predicate TookOver(run: seq<State>, steps: seq<Step>, n: nat, turn: string)
    requires n <= |steps| < |run|
  {
    exists i: nat :: i < n && TakesOver(run[i], steps[i], turn)
  }

  lemma HeirStep(s: State, step: Step, policy: Policy, turn: string)
    requires Commits.Invariant(s) && Enabled(s, step)
    ensures turn in Apply(s, step, policy).heirs <==> turn in s.heirs || TakesOver(s, step, turn)
  {
  }

  lemma HeirTransition(run: seq<State>, steps: seq<Step>, policy: Policy, n: nat, turn: string)
    requires IsRun(run, steps, policy) && n < |steps|
    ensures turn in run[n + 1].heirs <==> turn in run[n].heirs || TakesOver(run[n], steps[n], turn)
  {
    Commits.HoldsThroughout(run, steps, policy, n);
    RunStep(run, steps, policy, n);
    HeirStep(run[n], steps[n], policy, turn);
  }

  lemma TookOverNext(run: seq<State>, steps: seq<Step>, n: nat, turn: string)
    requires n < |steps| < |run|
    ensures TookOver(run, steps, n + 1, turn) <==> TookOver(run, steps, n, turn) || TakesOver(run[n], steps[n], turn)
  {
  }

  lemma {:induction false} HeirsAre(run: seq<State>, steps: seq<Step>, policy: Policy, n: nat, turn: string)
    requires IsRun(run, steps, policy) && n < |run|
    ensures turn in run[n].heirs <==> TookOver(run, steps, n, turn)
  {
    if n > 0 {
      HeirsAre(run, steps, policy, n - 1, turn);
      HeirTransition(run, steps, policy, n - 1, turn);
      TookOverNext(run, steps, n - 1, turn);
    }
  }

  /** A commit that holds messages a second time: a turn that took over is
      itself restored. */
  ghost predicate IsCopy(run: seq<State>, steps: seq<Step>, n: nat, c: Commit)
    requires n <= |steps| < |run|
  {
    c.restored && TookOver(run, steps, n, c.turn)
  }

  /** Over every run, with crashes anywhere: the saved transcript holds each
      message at most once if and only if no turn that started on it without a
      message of its own was itself restored. */
  lemma EachMessageOnceIff(run: seq<State>, steps: seq<Step>, policy: Policy, n: nat)
    requires IsRun(run, steps, policy) && n < |run|
    ensures NoDuplicates(Messages(run[n].disk)) <==> forall c :: c in run[n].disk ==> !IsCopy(run, steps, n, c)
  {
    var s := run[n];
    HoldsThroughout(run, steps, policy, n);
    CommitsPrefix(s.cache, s.disk, s.heirs);
    forall c | c in s.disk ensures IsCopy(run, steps, n, c) <==> Copies(c, s.heirs) {
      HeirsAre(run, steps, policy, n, c.turn);
    }
    if NoCopies(s.disk, s.heirs) {
      WithoutCopies(s.disk, s.heirs);
    } else {
      var c :| c in s.disk && Copies(c, s.heirs);
      var j: nat :| j < |s.disk| && s.disk[j] == c;
      assert CommitFits(s.disk, s.heirs, j);
      WithCopy(s.disk, s.heirs, j);
    }
  }

  /** What each commit holds: a copy says some earlier line again, word for
      word or joined with more, and nothing that is new but its own; any other
      commit holds its own turn's messages, each once. */
  lemma CommitsSay(run: seq<State>, steps: seq<Step>, policy: Policy, n: nat, j: nat)
    requires IsRun(run, steps, policy) && n < |run| && j < |run[n].disk|
    ensures
      var commits := run[n].disk;
      var c := commits[j];
      if IsCopy(run, steps, n, c) then Copied(c.turn, c.lines, Lines(commits[..j])) else OwnOnly(c.turn, c.lines)
  {
    var s := run[n];
    HoldsThroughout(run, steps, policy, n);
    CommitsPrefix(s.cache, s.disk, s.heirs);
    HeirsAre(run, steps, policy, n, s.disk[j].turn);
    assert CommitFits(s.disk, s.heirs, j);
  }

  lemma {:induction false} OnlyCommitted(commits: seq<Commit>, heirs: set<string>, o: Origin)
    requires CommitsFit(commits, heirs) && o in Messages(commits)
    ensures exists c :: c in commits && c.turn == o.turn && o in Parts(c.lines)
  {
    FrontLast(commits);
    var front, last := commits[..|commits| - 1], commits[|commits| - 1];
    MessagesSnoc(front, last);
    assert CommitFits(commits, heirs, |front|);
    if o in Messages(front) {
      CommitsPrefix(commits, front, heirs);
      OnlyCommitted(front, heirs, o);
      var c :| c in front && c.turn == o.turn && o in Parts(c.lines);
      assert c in commits;
    } else {
      assert last in commits;
    }
  }

  /** What is in the transcript was put there by its own turn: messages of a
      turn that is not committed are not in it, whoever inherited them. */
  lemma OnlyOfCommittedTurns(run: seq<State>, steps: seq<Step>, policy: Policy, n: nat, o: Origin)
    requires IsRun(run, steps, policy) && n < |run| && o in Messages(run[n].disk)
    ensures exists c :: c in run[n].disk && c.turn == o.turn && o in Parts(c.lines)
  {
    var s := run[n];
    HoldsThroughout(run, steps, policy, n);
    CommitsPrefix(s.cache, s.disk, s.heirs);
    OnlyCommitted(s.disk, s.heirs, o);
  }

  // ---------------------------------------------------------------------
  // What was journaled is saved
  // ---------------------------------------------------------------------

  predicate InHand(phase: Phase, turn: string) {
    (phase.Running? || phase.Finished?) && phase.turn == turn
  }

  ghost predicate InCommits(commits: seq<Commit>, turn: string, o: Origin) {
    forall c :: c in commits && c.turn == turn ==> o in Parts(c.lines)
  }

  ghost predicate InJournal(s: State, turn: string, o: Origin) {
    Commits.Open(s.journal, turn) ==>
      ToldOf(s, turn).steps.Some? && o in Parts(ToldOf(s, turn).steps.value)
  }

  /** Wherever the run goes, once the transcript holds the turn it holds this
      message of it. */
  ghost predicate Secured(s: State, turn: string, o: Origin) {
    && turn in s.used && turn !in s.blank
    && (InHand(s.phase, turn) ==> o in Parts(s.phase.own))
    && InCommits(s.cache, turn, o)
    && InJournal(s, turn, o)
  }

  /** The steps that neither commit nor tell anything. */
  predicate IsIdle(step: Step) {
    IsQuiet(step) || IsOtherRecord(step)
  }

  lemma OwnKept(s: State, step: Step, policy: Policy, turn: string, o: Origin)
    requires Commits.Invariant(s) && Enabled(s, step) && IsIdle(step)
    requires InHand(s.phase, turn) ==> o in Parts(s.phase.own)
    ensures
      var phase := Apply(s, step, policy).phase;
      InHand(phase, turn) ==> o in Parts(phase.own)
  {
    if step.Say? {
      PartsSnoc(s.phase.own, Line(step.message, [Produced(s.phase.turn, |s.phase.own|)]));
    }
  }

  lemma OpenShrinks(s: State, s': State, e: Entry, turn: string)
    requires s'.journal == s.journal + [e] && !Starts(e.record, turn) && Commits.Open(s'.journal, turn)
    ensures Commits.Open(s.journal, turn)
  {
    Commits.RecordAdded(s, s', e);
  }

  lemma QuietSecured(s: State, s': State, turn: string, o: Origin)
    requires Secured(s, turn, o)
    requires s'.journal == s.journal && s'.told == s.told && s'.used == s.used && s'.blank == s.blank
    requires s'.cache <= s.cache
    requires InHand(s'.phase, turn) ==> o in Parts(s'.phase.own)
    ensures Secured(s', turn, o)
  {
  }

  lemma RecordSecured(s: State, s': State, e: Entry, turn: string, o: Origin)
    requires Secured(s, turn, o)
    requires s'.journal == s.journal + [e] && !e.record.TurnStart?
    requires s'.told == s.told && s'.used == s.used && turn !in s'.blank
    requires InCommits(s'.cache, turn, o)
    requires InHand(s'.phase, turn) ==> o in Parts(s'.phase.own)
    ensures Secured(s', turn, o)
  {
    if Commits.Open(s'.journal, turn) {
      OpenShrinks(s, s', e, turn);
    }
  }

  lemma QuietBlanks(s: State, step: Step, policy: Policy)
    requires Enabled(s, step) && IsQuiet(step)
    ensures Apply(s, step, policy).blank == s.blank
  {
  }

  lemma RecordBlanks(s: State, step: Step, policy: Policy)
    requires Enabled(s, step) && IsOtherRecord(step)
    ensures Apply(s, step, policy).blank == s.blank
  {
  }

  lemma IdleSecured(s: State, step: Step, policy: Policy, turn: string, o: Origin)
    requires Invariant(s) && Enabled(s, step) && IsIdle(step) && Secured(s, turn, o)
    ensures Secured(Apply(s, step, policy), turn, o)
  {
    var s' := Apply(s, step, policy);
    OwnKept(s, step, policy, turn, o);
    if IsQuiet(step) {
      QuietBlanks(s, step, policy);
      QuietJournals(s, step, policy);
      QuietStarts(s, step, policy);
      QuietTells(s, step, policy);
      QuietHeirs(s, step, policy);
      QuietSaves(s, step, policy);
      QuietSecured(s, s', turn, o);
    } else {
      RecordBlanks(s, step, policy);
      OtherRecordIs(s, step, policy);
      OtherRecordTells(s, step, policy);
      OtherRecordSaves(s, step, policy);
      RecordSecured(s, s', s'.journal[|s.journal|], turn, o);
    }
  }

  /** Labelled messages bring every message that was shown. */
  lemma LabelledBrings(messages: seq<Value>, shown: seq<Line>, turn: string, o: Origin)
    requires Values(shown) <= messages && o in Parts(shown)
    ensures o in Parts(Labelled(messages, shown, turn)) && Labelled(messages, shown, turn) != []
  {
    var lines := Labelled(messages, shown, turn);
    LabelledIs(messages, shown, turn);
    assert lines == shown + lines[|shown|..];
    PartsConcat(shown, lines[|shown|..]);
  }

  /** A merged turn brings every message its checkpoint told. */
  lemma MergeBrings(s: State, turn: string, ts: string, o: Origin)
    requires TurnsFit(s) && Commits.Open(s.journal, turn) && o in Parts(Shown(ToldOf(s, turn)))
    ensures o in Parts(RestoredLines(s, turn, ts)) && RestoredLines(s, turn, ts) != []
  {
    RestoredIs(s.journal, turn, ToldOf(s, turn), ts);
    LabelledBrings(TurnMessagesForRestore(s.journal, turn, ts), Shown(ToldOf(s, turn)), turn, o);
  }

  lemma OneSecured(s: State, s': State, e: Entry, restored: string, lines: seq<Line>, turn: string, o: Origin)
    requires Secured(s, turn, o) && (restored == turn ==> o in Parts(lines) && lines != [])
    requires s'.journal == s.journal + [e] && e.record == TurnRestored(restored)
    requires s'.told == s.told && s'.used == s.used && s'.phase.Restoring?
    requires s'.cache == if lines == [] then s.cache else s.cache + [Commit(restored, lines, true)]
    requires s'.blank == if lines == [] then s.blank + {restored} else s.blank
    ensures Secured(s', turn, o)
  {
    RecordSecured(s, s', e, turn, o);
  }

  lemma RestoredSecured(s: State, step: Step, policy: Policy, turn: string, o: Origin)
    requires Invariant(s) && Enabled(s, step) && step.RestoreOne? && Secured(s, turn, o)
    ensures Secured(Apply(s, step, policy), turn, o)
  {
    var s' := Apply(s, step, policy);
    var restored := s.phase.pending[0];
    assert restored in s.phase.pending && Commits.Open(s.journal, restored);
    if restored == turn {
      MergeBrings(s, turn, step.ts, o);
    }
    OneSecured(s, s', s'.journal[|s.journal|], restored, RestoredLines(s, restored, step.ts), turn, o);
  }

  lemma StartedSecured(s: State, step: Step, policy: Policy, turn: string, o: Origin)
    requires Invariant(s) && Enabled(s, step) && step.StartTurn? && Secured(s, turn, o)
    ensures Secured(Apply(s, step, policy), turn, o)
  {
    var s' := Apply(s, step, policy);
    if Commits.Open(s'.journal, turn) {
      OpenShrinks(s, s', s'.journal[|s.journal|], turn);
    }
  }

  lemma CheckpointSecured(s: State, step: Step, policy: Policy, turn: string, o: Origin)
    requires Invariant(s) && Enabled(s, step) && step.TakeCheckpoint? && Secured(s, turn, o)
    ensures Secured(Apply(s, step, policy), turn, o)
  {
    var s' := Apply(s, step, policy);
    PartsConcat(s.phase.inherited, s.phase.own);
    if Commits.Open(s'.journal, turn) {
      OpenShrinks(s, s', s'.journal[|s.journal|], turn);
    }
  }

  lemma PersistSecured(s: State, step: Step, policy: Policy, turn: string, o: Origin)
    requires Invariant(s) && Enabled(s, step) && step.Persist? && Secured(s, turn, o)
    ensures Secured(Apply(s, step, policy), turn, o)
  {
  }

  lemma PruneSecured(s: State, step: Step, policy: Policy, turn: string, o: Origin)
    requires Invariant(s) && Enabled(s, step) && step.PruneRecords? && Secured(s, turn, o)
    ensures Secured(Apply(s, step, policy), turn, o)
  {
    Commits.PrunedJournal(s);
  }

  lemma SecuredStep(s: State, step: Step, policy: Policy, turn: string, o: Origin)
    requires Invariant(s) && Enabled(s, step) && Secured(s, turn, o)
    ensures Secured(Apply(s, step, policy), turn, o)
  {
    if IsIdle(step) { IdleSecured(s, step, policy, turn, o); }
    else if step.RestoreOne? { RestoredSecured(s, step, policy, turn, o); }
    else if step.StartTurn? { StartedSecured(s, step, policy, turn, o); }
    else if step.TakeCheckpoint? { CheckpointSecured(s, step, policy, turn, o); }
    else if step.Persist? { PersistSecured(s, step, policy, turn, o); }
    else { PruneSecured(s, step, policy, turn, o); }
  }

  lemma {:induction false} StaysSecured(run: seq<State>, steps: seq<Step>, policy: Policy, i: nat, n: nat, turn: string, o: Origin)
    requires IsRun(run, steps, policy) && i <= n < |run| && Secured(run[i], turn, o)
    ensures Secured(run[n], turn, o)
    decreases n
  {
    if i < n {
      StaysSecured(run, steps, policy, i, n - 1, turn, o);
      HoldsThroughout(run, steps, policy, n - 1);
      RunStep(run, steps, policy, n - 1);
      SecuredStep(run[n - 1], steps[n - 1], policy, turn, o);
    }
  }

  /** A running turn secures what it said by a checkpoint or by its end. */
  lemma JournalingSecures(s: State, step: Step, policy: Policy, o: Origin)
    requires Invariant(s) && s.phase.Running? && o in Parts(s.phase.own)
    requires Enabled(s, step) && (step.TakeCheckpoint? || step.EndTurn?)
    ensures Secured(Apply(s, step, policy), s.phase.turn, o)
  {
    var s', turn := Apply(s, step, policy), s.phase.turn;
    Commits.StepKeeps(s, step, policy);
    assert !Commits.Closed(s, turn);
    PartsConcat(s.phase.inherited, s.phase.own);
    if step.EndTurn? {
      Commits.RecordAdded(s, s', s'.journal[|s.journal|]);
    }
  }

  /** Over every run: a message that its turn said before a checkpoint or before
      its end is in the saved transcript whenever the turn counts as done and no
      save is outstanding, unless a crash fell into one of the turn's windows. */
  lemma JournaledIsSaved(run: seq<State>, steps: seq<Step>, policy: Policy, i: nat, n: nat, turn: string, o: Origin)
    requires IsRun(run, steps, policy) && i < n < |run|
    requires run[i].phase.Running? && run[i].phase.turn == turn && o in Parts(run[i].phase.own)
    requires steps[i].TakeCheckpoint? || steps[i].EndTurn?
    requires !run[n].phase.Restoring? && !run[n].phase.Finished? && Commits.Closed(run[n], turn)
    requires !Commits.LostBefore(run, steps, n, turn)
    ensures o in Messages(run[n].disk)
  {
    HoldsThroughout(run, steps, policy, i);
    RunStep(run, steps, policy, i);
    JournalingSecures(run[i], steps[i], policy, o);
    StaysSecured(run, steps, policy, i + 1, n, turn, o);
    Commits.ExactlyOnce(run, steps, policy, n, turn);
    Commits.HoldsThroughout(run, steps, policy, n);
    SecuredIsSaved(run[n], turn, o);
  }

  lemma SecuredIsSaved(s: State, turn: string, o: Origin)
    requires Secured(s, turn, o) && s.disk == s.cache && Commits.Holds(s.disk, turn)
    ensures o in Messages(s.disk)
  {
    var c :| c in s.disk && c.turn == turn;
    var j: nat :| j < |s.disk| && s.disk[j] == c;
    CommitHeld(s.disk, j, o);
  }

  lemma {:induction false} OnceInAll(all: seq<Origin>, o: Origin)
    requires NoDuplicates(all) && o in all
    ensures multiset(all)[o] == 1
  {
    FrontLast(all);
    var front, last := all[..|all| - 1], all[|all| - 1];
    if o in front {
      OnceInAll(front, o);
      assert last != o;
    }
    assert multiset(all) == multiset(front) + multiset{last};
  }

  /** Exactly once, message by message: if moreover no turn that took over was
      itself restored, the message is in the saved transcript exactly once. */
  lemma MessageExactlyOnce(run: seq<State>, steps: seq<Step>, policy: Policy, i: nat, n: nat, turn: string, o: Origin)
    requires IsRun(run, steps, policy) && i < n < |run|
    requires run[i].phase.Running? && run[i].phase.turn == turn && o in Parts(run[i].phase.own)
    requires steps[i].TakeCheckpoint? || steps[i].EndTurn?
    requires !run[n].phase.Restoring? && !run[n].phase.Finished? && Commits.Closed(run[n], turn)
    requires !Commits.LostBefore(run, steps, n, turn)
    requires forall c :: c in run[n].disk ==> !IsCopy(run, steps, n, c)
    ensures multiset(Messages(run[n].disk))[o] == 1
  {
    JournaledIsSaved(run, steps, policy, i, n, turn, o);
    EachMessageOnceIff(run, steps, policy, n);
    OnceInAll(Messages(run[n].disk), o);
  }

  /** Conversely a lost turn leaves no message of its own in the transcript. */
  lemma LostIsGone(run: seq<State>, steps: seq<Step>, policy: Policy, n: nat, turn: string, o: Origin)
    requires IsRun(run, steps, policy) && n < |run| && o.turn == turn
    requires Commits.LostBefore(run, steps, n, turn)
    ensures o !in Messages(run[n].disk)
  {
    Commits.LostIffCrashedInWindow(run, steps, policy, n, turn);
    HoldsThroughout(run, steps, policy, n);
    assert run[n].disk <= run[n].cache;
    assert !Commits.Holds(run[n].disk, turn);
    if o in Messages(run[n].disk) {
      OnlyOfCommittedTurns(run, steps, policy, n, o);
    }
  }

  // ---------------------------------------------------------------------
  // The user's message
  // ---------------------------------------------------------------------

  /** Whether the turn's own lines, in hand or saved at its end, hold its user
      message. */
  ghost predicate UserIs(s: State, turn: string, has: bool) {
    && turn in s.used
    && (InHand(s.phase, turn) ==> (Incoming(turn) in Parts(s.phase.own) <==> has))
    && forall c :: c in s.cache && c.turn == turn && !c.restored ==> (Incoming(turn) in Parts(c.lines) <==> has)
  }

  lemma UserInHand(s: State, step: Step, policy: Policy, turn: string, has: bool)
    requires Enabled(s, step) && turn in s.used
    requires InHand(s.phase, turn) ==> (Incoming(turn) in Parts(s.phase.own) <==> has)
    ensures
      var phase := Apply(s, step, policy).phase;
      InHand(phase, turn) ==> (Incoming(turn) in Parts(phase.own) <==> has)
  {
    if step.Say? {
      PartsSnoc(s.phase.own, Line(step.message, [Produced(s.phase.turn, |s.phase.own|)]));
    }
  }

  lemma UserKept(s: State, s': State, turn: string, has: bool)
    requires UserIs(s, turn, has) && turn in s'.used
    requires InHand(s'.phase, turn) ==> (Incoming(turn) in Parts(s'.phase.own) <==> has)
    requires forall c :: c in s'.cache && !c.restored ==>
      c in s.cache || (s.phase.Finished? && c.turn == s.phase.turn && c.lines == s.phase.own)
    ensures UserIs(s', turn, has)
  {
  }

  /** Commits of turns that ended come from `Persist`. */
  lemma NewCommits(s: State, step: Step, policy: Policy)
    requires Commits.Invariant(s) && Enabled(s, step)
    ensures forall c :: c in Apply(s, step, policy).cache && !c.restored ==>
      c in s.cache || (s.phase.Finished? && c.turn == s.phase.turn && c.lines == s.phase.own)
    ensures forall t :: t in s.used ==> t in Apply(s, step, policy).used
  {
  }

  lemma UserOfStep(s: State, step: Step, policy: Policy, turn: string, has: bool)
    requires Commits.Invariant(s) && Enabled(s, step) && UserIs(s, turn, has)
    ensures UserIs(Apply(s, step, policy), turn, has)
  {
    UserInHand(s, step, policy, turn, has);
    NewCommits(s, step, policy);
    UserKept(s, Apply(s, step, policy), turn, has);
  }

  lemma UserStaysOnce(run: seq<State>, steps: seq<Step>, policy: Policy, n: nat, turn: string, has: bool)
    requires IsRun(run, steps, policy) && n < |steps| && UserIs(run[n], turn, has)
    ensures UserIs(run[n + 1], turn, has)
  {
    Commits.HoldsThroughout(run, steps, policy, n);
    RunStep(run, steps, policy, n);
    UserOfStep(run[n], steps[n], policy, turn, has);
  }

  lemma {:induction false} UserStays(run: seq<State>, steps: seq<Step>, policy: Policy, i: nat, n: nat, turn: string, has: bool)
    requires IsRun(run, steps, policy) && i <= n < |run| && UserIs(run[i], turn, has)
    ensures UserIs(run[n], turn, has)
    decreases n
  {
    if i < n {
      UserStays(run, steps, policy, i, n - 1, turn, has);
      UserStaysOnce(run, steps, policy, n - 1, turn, has);
    }
  }

  lemma OpeningSaysUser(turn: string, history: seq<Line>, next: Next, message: Value)
    ensures Incoming(turn) in Parts(OwnOpening(turn, history, next, message))
       <==> next.NewTurn? && (history == [] || !HasRole(history[|history| - 1].value, User))
  {
    var own := OwnOpening(turn, history, next, message);
    if next.NewTurn? && !Merges(history, next) {
      var l := Line(message, [Incoming(turn)]);
      PartsOne(l);
      assert own == [l];
    } else {
      assert own == [] && Parts(own) == [];
    }
  }

  lemma StartsWithUser(s: State, step: Step, policy: Policy)
    requires Commits.Invariant(s) && Enabled(s, step) && step.StartTurn?
    ensures UserIs(Apply(s, step, policy), step.id, s.phase.next.NewTurn? && !TakesOver(s, step, step.id))
  {
    assert s.phase.snapshot == s.disk == s.cache;
    OpeningSaysUser(step.id, Lines(s.disk), s.phase.next, step.message);
  }

  /** Over every run: once a turn that ended is saved, the user message it was
      started with is in the transcript if and only if the transcript it started
      on did not end with a user message. */
  lemma UserMessageSavedIff(run: seq<State>, steps: seq<Step>, policy: Policy, i: nat, n: nat, c: Commit)
    requires IsRun(run, steps, policy) && i < n < |run|
    requires steps[i].StartTurn? && steps[i].id == c.turn && run[i].phase.Restored? && run[i].phase.next.NewTurn?
    requires c in run[n].disk && !c.restored
    ensures Incoming(c.turn) in Messages(run[n].disk) <==> !TakesOver(run[i], steps[i], c.turn)
  {
    Commits.HoldsThroughout(run, steps, policy, i);
    RunStep(run, steps, policy, i);
    StartsWithUser(run[i], steps[i], policy);
    UserStays(run, steps, policy, i + 1, n, c.turn, !TakesOver(run[i], steps[i], c.turn));
    HoldsThroughout(run, steps, policy, n);
    UserMessageIn(run[n], c);
  }

  /** A user message is in the transcript if its turn's commit holds it. */
  lemma UserMessageIn(s: State, c: Commit)
    requires Invariant(s) && c in s.disk
    ensures c in s.cache
    ensures Incoming(c.turn) in Messages(s.disk) <==> Incoming(c.turn) in Parts(c.lines)
  {
    assert s.disk <= s.cache && c in s.cache;
    CommitsPrefix(s.cache, s.disk, s.heirs);
    if Incoming(c.turn) in Messages(s.disk) {
      OnlyCommitted(s.disk, s.heirs, Incoming(c.turn));
      var d :| d in s.disk && d.turn == c.turn && Incoming(c.turn) in Parts(d.lines);
      assert d == c;
    } else if Incoming(c.turn) in Parts(c.lines) {
      var j: nat :| j < |s.disk| && s.disk[j] == c;
      CommitHeld(s.disk, j, Incoming(c.turn));
    }
  }
}
