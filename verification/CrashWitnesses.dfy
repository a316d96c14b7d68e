// Runs that show where the protocol does less than one would expect: the two
// crash windows, a message merged twice, and a user message never saved.

module CrashWitnesses {
  import opened Wrappers
  import opened Sequences
  import opened Json
  import opened Journal
  import opened Recovery
  import opened Pruning
  import opened ResumePlan
  import opened CrashProtocol
  import Commits = CrashCommits
  import opened CrashTranscript
  import opened CrashMessages

  const FIRST := "first"
  const SECOND := "second turn"
  const NOW := "now"
  const ASKED := Object(map[Role := RoleName(User), Content := Str("question")])
  const PROMPT := Object(map[Role := RoleName(System)])
  const LINE := Line(ASKED, [Incoming(FIRST)])

  // ---------------------------------------------------------------------
  // Steps of any turn
  // ---------------------------------------------------------------------

  lemma Begins(s: State, turns: seq<string>, policy: Policy)
    requires s.phase.Idle? && TurnsToRestore(s.journal) == turns
    ensures After(s, BeginTurn, policy) == Some(s.(phase := Restoring(NewTurn, turns)))
  {
  }

  lemma EndsReplay(s: State, turns: seq<string>, policy: Policy)
    requires s.phase.Replaying? && s.phase.todo == [] && TurnsToRestore(s.journal) == turns
    ensures After(s, EndReplay, policy) == Some(s.(phase := Restoring(Successor(s.phase.turn, s.phase.attempt), turns)))
  {
  }

  lemma StartsOn(s: State, id: string, message: Value, joined: Value, prompt: Value,
                 inherited: seq<Line>, own: seq<Line>, policy: Policy)
    requires s.phase.Restored? && id !in s.used && HasRole(message, User) && HasRole(prompt, System)
    requires inherited == Inherited(id, Lines(s.phase.snapshot), s.phase.next, joined, prompt)
    requires own == OwnOpening(id, Lines(s.phase.snapshot), s.phase.next, message)
    ensures
      var next, user := s.phase.next, UserLine(inherited + own);
      var attempt := if next.NewTurn? then 0 else next.attempt;
      After(s, StartTurn(id, "", None, message, joined, prompt, None, None, NOW), policy)
      == Some(Put(s, TurnStart(id, "", None, if user.Some? then Some(user.value.value) else None, attempt, None, None), NOW)
           .(phase := Running(id, s.phase.snapshot, inherited, own, []), local := s.local + {id}, used := s.used[id := attempt],
             successor := if next.NewTurn? then s.successor else s.successor[next.turn := id],
             told := s.told[id := Told(user, None)],
             heirs := if Lines(s.phase.snapshot) != [] && own == [] then s.heirs + {id} else s.heirs))
  {
  }

  lemma Saves(s: State, policy: Policy)
    requires s.phase.Restoring? && s.phase.pending == []
    ensures After(s, SaveRestored, policy) == Some(s.(disk := s.cache, phase := Restored(s.phase.next, s.cache)))
  {
  }

  lemma Dies(s: State, policy: Policy)
    ensures After(s, Crash, policy) == Some(s.(cache := s.disk, phase := Idle, plan := None, local := {}))
  {
  }

  lemma Ends(s: State, outcome: TurnOutcome, policy: Policy)
    requires s.phase.Running? && s.phase.flights == [] && outcome.Completed?
    ensures After(s, EndTurn(outcome, NOW), policy)
         == Some(Put(s, TurnEnd(s.phase.turn, outcome), NOW).(phase := Finished(s.phase.turn, s.phase.snapshot, s.phase.own)))
  {
  }

  // ---------------------------------------------------------------------
  // Journals of the first turn
  // ---------------------------------------------------------------------

  const STARTED: seq<Entry> := [Entry(1, NOW, TurnStart(FIRST, "", None, Some(ASKED), 0, None, None))]

  /** Only this turn is started and not settled, and its first user message is
      all the journal tells of it. */
  ghost predicate Pending(journal: seq<Entry>, turn: string) {
    && (forall t :: Commits.Open(journal, t) <==> t == turn)
    && FirstUserMessage(journal, turn) == Some(ASKED) && LatestCheckpoint(journal, turn).None?
  }

  lemma StartedIsPending()
    ensures Pending(STARTED, FIRST)
    ensures forall t :: Started(STARTED, t) <==> t == FIRST
    ensures forall t :: !Ended(STARTED, t)
  {
    var none: seq<Entry> := [];
    assert STARTED == none + STARTED;
    forall t
      ensures Started(STARTED, t) <==> t == FIRST
      ensures !Ended(STARTED, t) && !Settled(STARTED, t)
    {
      StartedSnoc(none, STARTED[0], t);
    }
    ViewsSnoc(none, STARTED[0], FIRST);
  }

  lemma FirstTwoDiffer(ids: seq<string>)
    requires NoDuplicates(ids)
    ensures |ids| > 1 ==> ids[0] != ids[1]
  {
  }

  lemma OnlyElement(ids: seq<string>, turn: string)
    requires NoDuplicates(ids) && forall t :: t in ids <==> t == turn
    ensures ids == [turn]
  {
    assert turn in ids;
    FirstTwoDiffer(ids);
    forall i | 0 <= i < |ids| ensures ids[i] == turn {
      assert ids[i] in ids;
    }
  }

  lemma OneToRestore(journal: seq<Entry>, turn: string)
    requires Pending(journal, turn)
    ensures TurnsToRestore(journal) == [turn]
  {
    TurnsToRestoreAre(journal);
    forall t ensures t in TurnsToRestore(journal) <==> t == turn {
      assert Commits.Open(journal, t) <==> t == turn;
    }
    OnlyElement(TurnsToRestore(journal), turn);
  }

  lemma OneMessageToMerge(journal: seq<Entry>, turn: string, ts: string)
    requires Pending(journal, turn)
    ensures TurnMessagesForRestore(journal, turn, ts) == [ASKED]
  {
  }

  // ---------------------------------------------------------------------
  // A first turn that asks and is cut off
  // ---------------------------------------------------------------------

  function Asked(): State {
    INITIAL.(journal := STARTED, nextNumber := 2, phase := Running(FIRST, [], [], [LINE], []),
             local := INITIAL.local + {FIRST}, used := INITIAL.used[FIRST := 0],
             told := INITIAL.told[FIRST := Told(Some(LINE), None)])
  }

  lemma AskedReachable(policy: Policy)
    ensures Reachable(Asked(), policy)
  {
    var restoring := INITIAL.(phase := Restoring(NewTurn, []));
    var restored := INITIAL.(phase := Restored(NewTurn, []));
    InitiallyReachable(policy);
    assert TurnsToRestore([]) == [];
    Begins(INITIAL, [], policy);
    ReachableNext(INITIAL, BeginTurn, restoring, policy);
    Saves(restoring, policy);
    ReachableNext(restoring, SaveRestored, restored, policy);
    AskStep(restored, policy);
    ReachableNext(restored, Ask(), Asked(), policy);
  }

  function Ask(): Step {
    StartTurn(FIRST, "", None, ASKED, Null, PROMPT, None, None, NOW)
  }

  lemma AskStep(restored: State, policy: Policy)
    requires restored == INITIAL.(phase := Restored(NewTurn, []))
    ensures After(restored, Ask(), policy) == Some(Asked())
  {
    assert OwnOpening(FIRST, [], NewTurn, ASKED) == [LINE];
    assert Inherited(FIRST, [], NewTurn, Null, PROMPT) == [];
    assert [] + [LINE] == [LINE];
    assert INITIAL.journal + [STARTED[0]] == STARTED && Lines([]) == [];
    StartsOn(restored, FIRST, ASKED, Null, PROMPT, [], [LINE], policy);
  }

  /** A process that dies right after its first turn ended leaves a journal that
      calls the turn done and a transcript without it. */
  lemma CrashAfterEndLoses(policy: Policy)
    ensures exists s :: Reachable(s, policy) && Commits.Lost(s, FIRST)
  {
    var s := Asked();
    var e := Entry(2, NOW, TurnEnd(FIRST, Completed));
    var ended := s.(journal := STARTED + [e], nextNumber := 3, phase := Finished(FIRST, [], [LINE]));
    var lost := ended.(phase := Idle, local := {});
    AskedReachable(policy);
    Ends(s, Completed, policy);
    ReachableNext(s, EndTurn(Completed, NOW), ended, policy);
    Dies(ended, policy);
    ReachableNext(ended, Crash, lost, policy);
    StartedSnoc(STARTED, e, FIRST);
    assert Commits.Lost(lost, FIRST);
  }

  /** The process died during the first turn; the next one may have planned. */
  function Dead(plan: Option<seq<ResumeAction>>): State {
    Asked().(phase := Idle, local := {}, plan := plan)
  }

  function Merging(plan: Option<seq<ResumeAction>>, next: Next): State {
    Dead(plan).(phase := Restoring(next, [FIRST]))
  }

  const MARKED := STARTED + [Entry(2, NOW, TurnRestored(FIRST))]

  /** The first turn is merged and marked, and the transcript is not saved. */
  function Marked(plan: Option<seq<ResumeAction>>, next: Next): State {
    Merging(plan, next).(journal := MARKED, nextNumber := 3, phase := Restoring(next, []),
                         cache := [Commit(FIRST, [LINE], true)])
  }

  function Saved(plan: Option<seq<ResumeAction>>, next: Next): State {
    Marked(plan, next).(disk := [Commit(FIRST, [LINE], true)], phase := Restored(next, [Commit(FIRST, [LINE], true)]))
  }

  lemma DeadReachable(policy: Policy)
    ensures Reachable(Dead(None), policy)
  {
    AskedReachable(policy);
    Dies(Asked(), policy);
    ReachableNext(Asked(), Crash, Dead(None), policy);
  }

  lemma MergingReachable(policy: Policy)
    ensures Reachable(Merging(None, NewTurn), policy)
  {
    DeadReachable(policy);
    StartedIsPending();
    OneToRestore(STARTED, FIRST);
    Begins(Dead(None), [FIRST], policy);
    ReachableNext(Dead(None), BeginTurn, Merging(None, NewTurn), policy);
  }

  lemma MergeStep(plan: Option<seq<ResumeAction>>, next: Next, policy: Policy)
    ensures After(Merging(plan, next), RestoreOne(NOW), policy) == Some(Marked(plan, next))
  {
    var s := Merging(plan, next);
    StartedIsPending();
    OneMessageToMerge(STARTED, FIRST, NOW);
    assert Shown(ToldOf(s, FIRST)) == [LINE];
    assert RestoredLines(s, FIRST, NOW) == [LINE];
    assert [FIRST][1..] == [];
    assert [] + [Commit(FIRST, [LINE], true)] == [Commit(FIRST, [LINE], true)];
  }

  lemma SavedReachable(plan: Option<seq<ResumeAction>>, next: Next, policy: Policy)
    requires Reachable(Merging(plan, next), policy)
    ensures Reachable(Marked(plan, next), policy) && Reachable(Saved(plan, next), policy)
  {
    MergeStep(plan, next, policy);
    ReachableNext(Merging(plan, next), RestoreOne(NOW), Marked(plan, next), policy);
    Saves(Marked(plan, next), policy);
    ReachableNext(Marked(plan, next), SaveRestored, Saved(plan, next), policy);
  }

  /** The other window: a turn is marked restored, and the process dies before
      the merged transcript is saved. */
  lemma CrashAfterMarkLoses(policy: Policy)
    ensures exists s :: Reachable(s, policy) && Commits.Lost(s, FIRST)
  {
    var marked := Marked(None, NewTurn);
    var lost := marked.(cache := [], phase := Idle, local := {});
    MergingReachable(policy);
    SavedReachable(None, NewTurn, policy);
    Dies(marked, policy);
    ReachableNext(marked, Crash, lost, policy);
    StartedSnoc(STARTED, MARKED[1], FIRST);
    assert Commits.Lost(lost, FIRST);
  }

  // ---------------------------------------------------------------------
  // A resumed turn that is itself cut off
  // ---------------------------------------------------------------------

  const SUCCESSOR := Successor(FIRST, 1)

  function ResumeFirst(): ResumeAction {
    ResumeAction.Resume(UnfinishedTurn(FIRST, "", 0, None, None, None, NOW), 1)
  }

  /** Resuming is on, one attempt is allowed, and the start time is readable. */
  predicate MayResume(policy: Policy) {
    policy.autoResume && policy.maxAttempts >= 1 && policy.parse(NOW).Some?
  }

  lemma OneUnfinished()
    ensures UnfinishedTurns(STARTED) == [ResumeFirst().turn]
  {
    StartedIsPending();
    UnfinishedIdsAre(STARTED);
    OnlyElement(UnfinishedIds(STARTED), FIRST);
    StartedIdsAre(STARTED);
    WithoutAre(StartedIds(STARTED), EndedIds(STARTED));
    TurnsWithAt(STARTED, UnfinishedIds(STARTED));
    StartsOfSnoc([], STARTED[0], FIRST);
    assert [] + STARTED == STARTED;
    SummaryOfOne(FIRST, STARTED[0]);
  }

  lemma PlanIs(policy: Policy)
    requires MayResume(policy)
    ensures PlanSession(NotLocal(UnfinishedTurns(STARTED), {}), policy.parse(NOW).value, policy) == [ResumeFirst()]
  {
    OneUnfinished();
    var turns := [ResumeFirst().turn];
    assert turns[..0] == [] && NotLocal(turns, {}) == turns;
    assert AbandonAll(turns[..0]) == [];
  }

  lemma PlannedReachable(policy: Policy)
    requires MayResume(policy)
    ensures Reachable(Dead(Some([ResumeFirst()])), policy)
  {
    DeadReachable(policy);
    PlanIs(policy);
    ReachableNext(Dead(None), Plan(policy.parse(NOW).value), Dead(Some([ResumeFirst()])), policy);
  }

  lemma NoCalls()
    ensures StatesOf(STARTED, FIRST) == []
  {
    assert STARTED[..0] == [];
    assert CallKeys(STARTED) == [];
  }

  lemma ResumingReachable(policy: Policy)
    requires MayResume(policy)
    ensures Reachable(Merging(Some([]), SUCCESSOR), policy)
  {
    var planned := Dead(Some([ResumeFirst()]));
    var replaying := Dead(Some([])).(phase := Replaying(FIRST, 1, []));
    PlannedReachable(policy);
    NoCalls();
    assert RemoveAt([ResumeFirst()], 0) == [];
    ReachableNext(planned, BeginResume(0), replaying, policy);
    StartedIsPending();
    OneToRestore(STARTED, FIRST);
    EndsReplay(replaying, [FIRST], policy);
    ReachableNext(replaying, EndReplay, Merging(Some([]), SUCCESSOR), policy);
  }

  const AGAIN := MARKED + [Entry(3, NOW, TurnStart(SECOND, "", None, Some(ASKED), 1, None, None))]

  /** The successor runs on the merged transcript and journals its user message
      as its own. */
  function Resumed(): State {
    var s := Saved(Some([]), SUCCESSOR);
    s.(journal := AGAIN, nextNumber := 4, phase := Running(SECOND, [Commit(FIRST, [LINE], true)], [LINE], [], []),
       local := s.local + {SECOND}, used := s.used[SECOND := 1], successor := s.successor[FIRST := SECOND],
       told := s.told[SECOND := Told(Some(LINE), None)], heirs := s.heirs + {SECOND})
  }

  function ResumeStep(): Step {
    StartTurn(SECOND, "", None, ASKED, Null, PROMPT, None, None, NOW)
  }

  lemma FirstLines()
    ensures Lines([Commit(FIRST, [LINE], true)]) == [LINE]
  {
    LinesSnoc([], Commit(FIRST, [LINE], true));
    assert [] + [Commit(FIRST, [LINE], true)] == [Commit(FIRST, [LINE], true)];
  }

  lemma ResumeOpening()
    ensures Inherited(SECOND, [LINE], SUCCESSOR, Null, PROMPT) == [LINE]
    ensures OwnOpening(SECOND, [LINE], SUCCESSOR, ASKED) == []
    ensures UserLine([LINE] + []) == Some(LINE)
  {
    assert Values([LINE]) == [ASKED];
  }

  lemma ResumeStepIs(policy: Policy)
    ensures After(Saved(Some([]), SUCCESSOR), ResumeStep(), policy) == Some(Resumed())
  {
    FirstLines();
    ResumeOpening();
    assert |FIRST| != |SECOND|;
    assert MARKED + [AGAIN[2]] == AGAIN;
    StartsOn(Saved(Some([]), SUCCESSOR), SECOND, ASKED, Null, PROMPT, [LINE], [], policy);
  }

  /** The second process died as well. */
  function DeadAgain(phase: Phase): State {
    Resumed().(phase := phase, plan := None, local := {})
  }

  lemma AgainIsPending()
    ensures Pending(AGAIN, SECOND)
  {
    StartedIsPending();
    assert |FIRST| != |SECOND|;
    forall t ensures Commits.Open(AGAIN, t) <==> t == SECOND {
      StartedSnoc(STARTED, MARKED[1], t);
      StartedSnoc(MARKED, AGAIN[2], t);
    }
    StartedSnoc(STARTED, MARKED[1], SECOND);
    ViewsSnoc(STARTED, MARKED[1], SECOND);
    ViewsSnoc(MARKED, AGAIN[2], SECOND);
    NothingBeforeStart(STARTED, SECOND);
    assert STARTED[..0] == [];
    assert LatestCheckpoint(STARTED, SECOND).None?;
  }

  lemma MergingAgainReachable(policy: Policy)
    requires MayResume(policy)
    ensures Reachable(DeadAgain(Restoring(NewTurn, [SECOND])), policy)
  {
    ResumingReachable(policy);
    SavedReachable(Some([]), SUCCESSOR, policy);
    ResumeStepIs(policy);
    ReachableNext(Saved(Some([]), SUCCESSOR), ResumeStep(), Resumed(), policy);
    Dies(Resumed(), policy);
    ReachableNext(Resumed(), Crash, DeadAgain(Idle), policy);
    AgainIsPending();
    OneToRestore(AGAIN, SECOND);
    Begins(DeadAgain(Idle), [SECOND], policy);
    ReachableNext(DeadAgain(Idle), BeginTurn, DeadAgain(Restoring(NewTurn, [SECOND])), policy);
  }

  const TWICE := [Commit(FIRST, [LINE], true), Commit(SECOND, [LINE], true)]

  function MarkedAgain(): State {
    DeadAgain(Restoring(NewTurn, [])).(journal := AGAIN + [Entry(4, NOW, TurnRestored(SECOND))], nextNumber := 5, cache := TWICE)
  }

  lemma MergeAgainStep(policy: Policy)
    ensures
      var s := DeadAgain(Restoring(NewTurn, [SECOND]));
      After(s, RestoreOne(NOW), policy) == Some(MarkedAgain())
  {
    var s := DeadAgain(Restoring(NewTurn, [SECOND]));
    AgainIsPending();
    OneMessageToMerge(AGAIN, SECOND, NOW);
    assert Shown(ToldOf(s, SECOND)) == [LINE];
    assert RestoredLines(s, SECOND, NOW) == [LINE];
    assert [SECOND][1..] == [];
    assert [Commit(FIRST, [LINE], true)] + [Commit(SECOND, [LINE], true)] == TWICE;
  }

  /** A turn asks and is cut off; it is restored and resumed; its successor is
      cut off too and is restored. The question is now in the transcript twice,
      though it was asked once. */
  lemma RestoredSuccessorRepeats(policy: Policy)
    requires MayResume(policy)
    ensures exists s :: Reachable(s, policy) && Values(Lines(s.disk)) == [ASKED, ASKED]
                     && Messages(s.disk) == [Incoming(FIRST), Incoming(FIRST)]
  {
    var merging := DeadAgain(Restoring(NewTurn, [SECOND]));
    var twice := MarkedAgain().(disk := TWICE, phase := Restored(NewTurn, TWICE));
    MergingAgainReachable(policy);
    MergeAgainStep(policy);
    ReachableNext(merging, RestoreOne(NOW), MarkedAgain(), policy);
    Saves(MarkedAgain(), policy);
    ReachableNext(MarkedAgain(), SaveRestored, twice, policy);
    TwoLines();
    assert Lines(twice.disk) == [LINE, LINE];
  }

  lemma TwoParts()
    ensures [LINE] + [LINE] == [LINE, LINE] && Parts([LINE, LINE]) == [Incoming(FIRST), Incoming(FIRST)]
  {
    assert [LINE] + [LINE] == [LINE, LINE];
    PartsOne(LINE);
    PartsSnoc([LINE], LINE);
  }

  lemma TwoLines()
    ensures Lines(TWICE) == [LINE, LINE] && Values([LINE, LINE]) == [ASKED, ASKED]
    ensures Messages(TWICE) == [Incoming(FIRST), Incoming(FIRST)]
  {
    var first, second := Commit(FIRST, [LINE], true), Commit(SECOND, [LINE], true);
    FirstLines();
    assert [first] + [second] == TWICE;
    LinesSnoc([first], second);
    TwoParts();
  }

  // ---------------------------------------------------------------------
  // A user message that is joined and not saved
  // ---------------------------------------------------------------------

  const FOLLOWUP := Object(map[Role := RoleName(User), Content := Str("more")])
  const BOTH := Str("question and more")

  function JoinStep(): Step {
    StartTurn(SECOND, "", None, FOLLOWUP, BOTH, PROMPT, None, None, NOW)
  }

  const JOINED := Line(Object(ASKED.fields[Content := BOTH]), [Incoming(FIRST), Incoming(SECOND)])
  const ENDED := Entry(4, NOW, TurnEnd(SECOND, Completed))

  function Joining(): State {
    var s := Saved(None, NewTurn);
    s.(journal := MARKED + [Entry(3, NOW, TurnStart(SECOND, "", None, Some(JOINED.value), 0, None, None))], nextNumber := 4,
       phase := Running(SECOND, [Commit(FIRST, [LINE], true)], [JOINED], [], []),
       local := s.local + {SECOND}, used := s.used[SECOND := 0],
       told := s.told[SECOND := Told(Some(JOINED), None)], heirs := s.heirs + {SECOND})
  }

  lemma JoinOpening()
    ensures Inherited(SECOND, [LINE], NewTurn, BOTH, PROMPT) == [JOINED]
    ensures OwnOpening(SECOND, [LINE], NewTurn, FOLLOWUP) == []
    ensures UserLine([JOINED] + []) == Some(JOINED)
  {
    assert [Incoming(FIRST)] + [Incoming(SECOND)] == [Incoming(FIRST), Incoming(SECOND)];
  }

  lemma JoinStepIs(policy: Policy)
    ensures After(Saved(None, NewTurn), JoinStep(), policy) == Some(Joining())
  {
    FirstLines();
    JoinOpening();
    assert |FIRST| != |SECOND|;
    StartsOn(Saved(None, NewTurn), SECOND, FOLLOWUP, BOTH, PROMPT, [JOINED], [], policy);
  }

  lemma JoiningReachable(policy: Policy)
    ensures Reachable(Joining(), policy)
  {
    MergingReachable(policy);
    SavedReachable(None, NewTurn, policy);
    JoinStepIs(policy);
    ReachableNext(Saved(None, NewTurn), JoinStep(), Joining(), policy);
  }

  const UNSAID := [Commit(FIRST, [LINE], true), Commit(SECOND, [], false)]

  function JoinFinished(): State {
    Joining().(journal := Joining().journal + [ENDED], nextNumber := 5,
               phase := Finished(SECOND, [Commit(FIRST, [LINE], true)], []))
  }

  function JoinSaved(): State {
    JoinFinished().(cache := UNSAID, disk := UNSAID, phase := Idle)
  }

  lemma JoinSavedReachable(policy: Policy)
    ensures Reachable(JoinSaved(), policy)
  {
    JoiningReachable(policy);
    Ends(Joining(), Completed, policy);
    ReachableNext(Joining(), EndTurn(Completed, NOW), JoinFinished(), policy);
    assert [Commit(FIRST, [LINE], true)] + [Commit(SECOND, [], false)] == UNSAID;
    ReachableNext(JoinFinished(), Persist, JoinSaved(), policy);
  }

  lemma UnsaidLines()
    ensures Values(Lines(UNSAID)) == [ASKED] && Messages(UNSAID) == [Incoming(FIRST)]
  {
    FirstLines();
    assert [Commit(FIRST, [LINE], true)] + [Commit(SECOND, [], false)] == UNSAID;
    LinesSnoc([Commit(FIRST, [LINE], true)], Commit(SECOND, [], false));
    assert Lines(UNSAID) == [LINE] && Values([LINE]) == [ASKED];
    PartsOne(LINE);
  }

  /** A turn asks and is cut off and restored, so the transcript ends with its
      question; the next user message is joined with it. The new turn runs to
      its end without a crash and is saved, and its user message is nowhere in
      the transcript. */
  lemma JoinedMessageIsNotSaved(policy: Policy)
    ensures exists s :: Reachable(s, policy) && Commit(SECOND, [], false) in s.disk
                     && Values(Lines(s.disk)) == [ASKED] && Incoming(SECOND) !in Messages(s.disk)
  {
    JoinSavedReachable(policy);
    UnsaidLines();
    assert UNSAID[1] in JoinSaved().disk;
    assert Incoming(SECOND) != Incoming(FIRST) by { assert |FIRST| != |SECOND|; }
  }
}
