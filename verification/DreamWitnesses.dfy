// Runs from the empty store in which Dream reads an entry twice, or never.

module DreamWitnesses {
  import opened Wrappers
  import opened Sequences
  import opened History
  import opened DreamRuns
  import opened DreamBatches

  /** Some run from the empty store leads to the state. */
  ghost predicate Reached(s: State, limits: Limits) {
    exists steps :: RunAll(steps, limits) == s
  }

  lemma ReachedInitially(limits: Limits)
    ensures Reached(INITIAL, limits)
  {
    assert RunAll([], limits) == INITIAL;
  }

  lemma ReachedNext(s: State, step: Step, s': State, limits: Limits)
    requires Reached(s, limits) && Apply(s, step, limits) == s'
    ensures Reached(s', limits)
  {
    var steps :| RunAll(steps, limits) == s;
    RunSnoc(INITIAL, steps, step, limits);
    assert RunAll(steps + [step], limits) == s';
  }

  /** An append with nothing in between. */
  function Wrote(s: State, content: string): State {
    var e := Entry(NextCursor(s.store), content, |s.ever|);
    s.(store := s.store.(log := s.store.log + [e], cursorFile := Some(e.cursor)), ever := s.ever + [e], rewritten := false)
  }

  lemma ReachedWrote(s: State, content: string, limits: Limits)
    requires Reached(s, limits) && 0 !in s.writers
    ensures Reached(Wrote(s, content), limits)
  {
    var steps :| RunAll(steps, limits) == s;
    var append := [TakeNumber(0, content), LogEntry(0), RecordCursor(0)];
    WholeAppend(s, 0, content, limits);
    RunConcat(INITIAL, steps, append, limits);
    assert RunAll(steps + append, limits) == Wrote(s, content);
  }

  /** An append that stops before the cursor file. */
  function CutOff(s: State, content: string): State {
    var e := Entry(NextCursor(s.store), content, |s.ever|);
    s.(store := s.store.(log := s.store.log + [e]), ever := s.ever + [e], rewritten := false)
  }

  lemma ReachedCutOff(s: State, content: string, limits: Limits)
    requires Reached(s, limits) && 0 !in s.writers
    ensures Reached(CutOff(s, content), limits)
  {
    var s1 := Apply(s, TakeNumber(0, content), limits);
    var s2 := Apply(s1, LogEntry(0), limits);
    var s3 := Apply(s2, GiveUp(0), limits);
    ReachedNext(s, TakeNumber(0, content), s1, limits);
    ReachedNext(s1, LogEntry(0), s2, limits);
    ReachedNext(s2, GiveUp(0), s3, limits);
    assert s3.writers == s.writers;
    assert s3 == CutOff(s, content);
  }

  lemma Reads(s: State, r: nat, batch: seq<Entry>, limits: Limits)
    requires Reached(s, limits) && r !in s.runs && batch == Batch(s.store, limits) != []
    ensures Reached(s.(runs := s.runs[r := Run(s.store.dream, batch, s.commits)], rewritten := false), limits)
  {
    ReachedNext(s, ReadBatch(r), s.(runs := s.runs[r := Run(s.store.dream, batch, s.commits)], rewritten := false), limits);
  }

  function AfterCommit(s: State, r: nat, batch: seq<Entry>, limits: Limits): State
    requires batch != []
  {
    s.(store := Committed(s.store, batch, limits), runs := s.runs - {r}, rewritten := Excess(s.store.log, limits) > 0,
       taken := s.taken + batch, commits := s.commits + 1)
  }

  lemma CommitIs(s: State, r: nat, batch: seq<Entry>, limits: Limits)
    requires r in s.runs && batch == s.runs[r].batch != []
    ensures Apply(s, Commit(r), limits) == AfterCommit(s, r, batch, limits)
  {
  }

  lemma Commits(s: State, r: nat, batch: seq<Entry>, limits: Limits)
    requires Reached(s, limits) && r in s.runs && batch == s.runs[r].batch != []
    ensures Reached(AfterCommit(s, r, batch, limits), limits)
  {
    CommitIs(s, r, batch, limits);
    ReachedNext(s, Commit(r), AfterCommit(s, r, batch, limits), limits);
  }

  lemma UnreadOfOne(a: Entry, since: nat)
    ensures Unread([a], since) == if a.cursor > since then [a] else []
  {
    UnreadSnoc([], a, since);
    assert [] + [a] == [a];
  }

  lemma UnreadOfTwo(a: Entry, b: Entry, since: nat)
    ensures Unread([a, b], since) == (if a.cursor > since then [a] else []) + (if b.cursor > since then [b] else [])
  {
    UnreadOfOne(a, since);
    UnreadSnoc([a], b, since);
    assert [a] + [b] == [a, b];
  }

  lemma UnreadOfThree(a: Entry, b: Entry, c: Entry, since: nat)
    ensures Unread([a, b, c], since)
         == (if a.cursor > since then [a] else []) + (if b.cursor > since then [b] else [])
            + (if c.cursor > since then [c] else [])
  {
    UnreadOfTwo(a, b, since);
    UnreadSnoc([a, b], c, since);
    assert [a, b] + [c] == [a, b, c];
  }

  // ---------------------------------------------------------------------
  // Two runs at the same time
  // ---------------------------------------------------------------------

  const A := Entry(1, "a", 0)
  const B := Entry(2, "b", 1)

  function Start(log: seq<Entry>, cursorFile: nat, ever: seq<Entry>): State {
    INITIAL.(store := Store(log, Some(cursorFile), 0), ever := ever)
  }

  lemma OneEntry(limits: Limits)
    ensures Reached(Start([A], 1, [A]), limits)
  {
    ReachedInitially(limits);
    ReachedWrote(INITIAL, "a", limits);
    assert [] + [A] == [A];
  }

  lemma TwoEntries(limits: Limits)
    ensures Reached(Start([A, B], 2, [A, B]), limits)
  {
    OneEntry(limits);
    ReachedWrote(Start([A], 1, [A]), "b", limits);
    assert [A] + [B] == [A, B];
  }

  const ONE_EACH := Limits(0, 1)

  lemma FirstOfTwo()
    ensures Batch(Store([A, B], Some(2), 0), ONE_EACH) == [A]
    ensures Batch(Store([A, B], Some(2), 1), ONE_EACH) == [B]
  {
    UnreadOfTwo(A, B, 0);
    UnreadOfTwo(A, B, 1);
  }

  /** Two runs hold the first entry. */
  function BothRead(): State {
    Start([A, B], 2, [A, B]).(runs := map[0 := Run(0, [A], 0), 1 := Run(0, [A], 0)])
  }

  lemma BothReadReached()
    ensures Reached(BothRead(), ONE_EACH)
  {
    var s := Start([A, B], 2, [A, B]);
    TwoEntries(ONE_EACH);
    FirstOfTwo();
    Reads(s, 0, [A], ONE_EACH);
    Reads(s.(runs := s.runs[0 := Run(0, [A], 0)]), 1, [A], ONE_EACH);
    assert s.runs[0 := Run(0, [A], 0)][1 := Run(0, [A], 0)] == map[0 := Run(0, [A], 0), 1 := Run(0, [A], 0)];
  }

  lemma NothingDropped(store: Store, batch: seq<Entry>)
    requires batch != []
    ensures Committed(store, batch, ONE_EACH) == store.(dream := batch[|batch| - 1].cursor)
  {
    assert store.log[0..] == store.log;
  }

  /** One of them committed, and a third run read the second entry and committed
      as well; the slow one still waits. */
  function Overtaken(): State {
    BothRead().(store := Store([A, B], Some(2), 2), runs := map[0 := Run(0, [A], 0)], taken := [A, B], commits := 2)
  }

  lemma OvertakenReached()
    ensures Reached(Overtaken(), ONE_EACH)
  {
    var s := BothRead();
    var one := s.(store := Store([A, B], Some(2), 1), runs := map[0 := Run(0, [A], 0)], taken := [A], commits := 1);
    BothReadReached();
    Commits(s, 1, [A], ONE_EACH);
    NothingDropped(s.store, [A]);
    assert s.runs - {1} == map[0 := Run(0, [A], 0)];
    assert [] + [A] == [A];
    assert AfterCommit(s, 1, [A], ONE_EACH) == one;
    FirstOfTwo();
    Reads(one, 1, [B], ONE_EACH);
    var two := one.(runs := one.runs[1 := Run(1, [B], 1)]);
    Commits(two, 1, [B], ONE_EACH);
    NothingDropped(two.store, [B]);
    assert two.runs - {1} == map[0 := Run(0, [A], 0)];
    assert [A] + [B] == [A, B];
    assert AfterCommit(two, 1, [B], ONE_EACH) == Overtaken();
  }

  /** Committing run 0 moves Dream's cursor back to the first of two entries, takes
      that one again, and leaves the second to be read again. */
  predicate GoesBack(s: State) {
    var s' := Apply(s, Commit(0), ONE_EACH);
    && s.store.dream == 2 && s.taken == [A, B]
    && s'.store.dream == 1 && s'.taken == [A, B, A] && Batch(s'.store, ONE_EACH) == [B]
  }

  lemma SlowCommit(s: State)
    requires 0 in s.runs && s.runs[0].batch == [A] && s.taken == [A, B] && s.store == Store([A, B], Some(2), 2)
    ensures GoesBack(s)
  {
    CommitIs(s, 0, [A], ONE_EACH);
    NothingDropped(s.store, [A]);
    FirstOfTwo();
    assert [A, B] + [A] == [A, B, A];
  }

  /** The slow run then commits: Dream's cursor goes back from the second entry to
      the first, the first is taken twice, and the next run reads the second
      again. */
  lemma OverlapReadsTwice()
    ensures exists s :: Reached(s, ONE_EACH) && GoesBack(s)
  {
    OvertakenReached();
    SlowCommit(Overtaken());
  }

  // ---------------------------------------------------------------------
  // Arrivals while Dream waits
  // ---------------------------------------------------------------------

  const C := Entry(3, "c", 2)
  const KEEP_ONE := Limits(1, 1)

  /** The run holds the only entry; two more are written while it waits. */
  function TwoArrived(): State {
    Start([A, B, C], 3, [A, B, C]).(runs := map[0 := Run(0, [A], 0)])
  }

  lemma TwoArrivedReached()
    ensures Reached(TwoArrived(), KEEP_ONE)
  {
    var reading := Start([A], 1, [A]).(runs := map[0 := Run(0, [A], 0)]);
    OneEntry(KEEP_ONE);
    UnreadOfOne(A, 0);
    Reads(Start([A], 1, [A]), 0, [A], KEEP_ONE);
    assert map[][0 := Run(0, [A], 0)] == map[0 := Run(0, [A], 0)];
    TwoArrive(reading);
  }

  lemma TwoArrive(s: State)
    requires Reached(s, KEEP_ONE) && s == Start([A], 1, [A]).(runs := map[0 := Run(0, [A], 0)])
    ensures Reached(TwoArrived(), KEEP_ONE)
  {
    assert [A] + [B] == [A, B] && [A, B] + [C] == [A, B, C];
    ReachedWrote(s, "b", KEEP_ONE);
    var one := Start([A, B], 2, [A, B]).(runs := map[0 := Run(0, [A], 0)]);
    assert Wrote(s, "b") == one;
    ReachedWrote(one, "c", KEEP_ONE);
  }

  /** With a log limit of one: the commit drops the first arrival unread, though
      when the run read its batch nothing else was there. */
  lemma ArrivalIsDroppedExample()
    ensures exists s :: Reached(s, KEEP_ONE) && Missed(s, B) && s.taken == [A] && s.store.log == [C]
  {
    var s := TwoArrived();
    TwoArrivedReached();
    Commits(s, 0, [A], KEEP_ONE);
    assert Excess(s.store.log, KEEP_ONE) == 2 && s.store.log[2..] == [C];
    var s' := AfterCommit(s, 0, [A], KEEP_ONE);
    assert [] + [A] == [A] && s'.ever[1] == B;
    assert Missed(s', B);
  }

  /** The same when all three are there from the start. */
  lemma BacklogIsDroppedExample()
    ensures exists s :: Reached(s, KEEP_ONE) && Missed(s, B) && s.taken == [A] && s.store.log == [C]
  {
    var s := Start([A, B, C], 3, [A, B, C]);
    TwoEntries(KEEP_ONE);
    ReachedWrote(Start([A, B], 2, [A, B]), "c", KEEP_ONE);
    assert [A, B] + [C] == [A, B, C];
    UnreadOfThree(A, B, C, 0);
    Reads(s, 0, [A], KEEP_ONE);
    var reading := s.(runs := s.runs[0 := Run(0, [A], 0)]);
    Commits(reading, 0, [A], KEEP_ONE);
    assert Excess(s.store.log, KEEP_ONE) == 2 && s.store.log[2..] == [C];
    var s' := AfterCommit(reading, 0, [A], KEEP_ONE);
    assert [] + [A] == [A] && s'.ever[1] == B;
    assert Missed(s', B);
  }

  // ---------------------------------------------------------------------
  // An append that is cut off
  // ---------------------------------------------------------------------

  const SAME := Entry(2, "c", 2)
  const TWO_EACH := Limits(0, 2)

  /** The second append stopped before the cursor file. */
  lemma SecondCutOff(limits: Limits)
    ensures Reached(Start([A, B], 1, [A, B]), limits)
  {
    OneEntry(limits);
    ReachedCutOff(Start([A], 1, [A]), "b", limits);
    assert [A] + [B] == [A, B];
  }

  lemma BothTaken(s: State)
    requires Reached(s, TWO_EACH) && 0 in s.runs && s.runs[0].batch == [A, B] && s.taken == []
    requires s.store.log == [A, B, SAME] && s.ever == [A, B, SAME]
    ensures exists s' :: Reached(s', TWO_EACH) && Missed(s', SAME) && SAME in s'.store.log && s'.taken == [A, B]
  {
    Commits(s, 0, [A, B], TWO_EACH);
    var s' := AfterCommit(s, 0, [A, B], TWO_EACH);
    assert s.store.log[0..] == s.store.log && [] + [A, B] == [A, B];
    assert s'.ever[2] == SAME && s'.store.log[2] == SAME;
    assert SAME !in s'.taken;
    assert Missed(s', SAME);
  }

  /** An append is cut off after the log, the next gets the same number, and then
      Dream reads two: the third is passed by. */
  lemma DuplicateIsSkippedExample()
    ensures exists s :: Reached(s, TWO_EACH) && Missed(s, SAME) && SAME in s.store.log && s.taken == [A, B]
  {
    var s := Start([A, B, SAME], 2, [A, B, SAME]);
    SecondCutOff(TWO_EACH);
    ReachedWrote(Start([A, B], 1, [A, B]), "c", TWO_EACH);
    assert [A, B] + [SAME] == [A, B, SAME];
    UnreadOfThree(A, B, SAME, 0);
    Reads(s, 0, [A, B], TWO_EACH);
    BothTaken(s.(runs := s.runs[0 := Run(0, [A, B], 0)]));
  }

  /** The same if the third is written only while Dream waits: it was not there
      when the batch was read. */
  lemma LateDuplicateExample()
    ensures exists s :: Reached(s, TWO_EACH) && Missed(s, SAME) && SAME in s.store.log && s.taken == [A, B]
  {
    var s := Start([A, B], 1, [A, B]);
    SecondCutOff(TWO_EACH);
    UnreadOfTwo(A, B, 0);
    Reads(s, 0, [A, B], TWO_EACH);
    var reading := s.(runs := s.runs[0 := Run(0, [A, B], 0)]);
    ReachedWrote(reading, "c", TWO_EACH);
    assert [A, B] + [SAME] == [A, B, SAME];
    BothTaken(Wrote(reading, "c"));
  }

  /** And if it is written after the commit: it is numbered where Dream is. */
  lemma WrittenBehindExample()
    ensures exists s :: Reached(s, TWO_EACH) && Missed(s, SAME) && SAME in s.store.log && s.taken == [A, B]
  {
    var s := Start([A, B], 1, [A, B]);
    SecondCutOff(TWO_EACH);
    UnreadOfTwo(A, B, 0);
    Reads(s, 0, [A, B], TWO_EACH);
    var reading := s.(runs := s.runs[0 := Run(0, [A, B], 0)]);
    Commits(reading, 0, [A, B], TWO_EACH);
    var done := AfterCommit(reading, 0, [A, B], TWO_EACH);
    assert s.store.log[0..] == s.store.log && [] + [A, B] == [A, B];
    ReachedWrote(done, "c", TWO_EACH);
    BehindIsMissed(done);
  }

  lemma BehindIsMissed(s: State)
    requires s.store == Store([A, B], Some(1), 2) && s.ever == [A, B] && s.taken == [A, B]
    ensures
      var s' := Wrote(s, "c");
      Missed(s', SAME) && SAME in s'.store.log && s'.taken == [A, B]
  {
    var s' := Wrote(s, "c");
    assert s'.store.log[2] == SAME && s'.ever[2] == SAME;
  }

  // ---------------------------------------------------------------------
  // Two appends at the same time
  // ---------------------------------------------------------------------

  const FIRST := Entry(1, "b", 0)
  const SECOND := Entry(2, "c", 1)
  const LATE := Entry(1, "a", 2)
  const THREE_EACH := Limits(0, 3)

  /** A slow append holds number one while two others write theirs. */
  function SlowWriter(): State {
    Start([FIRST, SECOND], 2, [FIRST, SECOND]).(writers := map[1 := Numbered(1, "a", 0, false)])
  }

  lemma SlowWriterReached()
    ensures Reached(SlowWriter(), THREE_EACH)
  {
    var s := INITIAL.(writers := map[1 := Numbered(1, "a", 0, false)]);
    ReachedInitially(THREE_EACH);
    ReachedNext(INITIAL, TakeNumber(1, "a"), s, THREE_EACH);
    ReachedWrote(s, "b", THREE_EACH);
    assert [] + [FIRST] == [FIRST] && [FIRST] + [SECOND] == [FIRST, SECOND];
    ReachedWrote(Wrote(s, "b"), "c", THREE_EACH);
    assert Wrote(Wrote(s, "b"), "c") == SlowWriter();
  }

  /** It then writes its entry, so that the numbers fall. */
  function Fallen(): State {
    Start([FIRST, SECOND, LATE], 2, [FIRST, SECOND, LATE]).(writers := map[1 := Logged(1)])
  }

  lemma FallenReached()
    ensures Reached(Fallen(), THREE_EACH)
  {
    var s := SlowWriter();
    SlowWriterReached();
    assert [FIRST, SECOND] + [LATE] == [FIRST, SECOND, LATE];
    assert s.writers[1 := Logged(1)] == map[1 := Logged(1)];
    ReachedNext(s, LogEntry(1), Fallen(), THREE_EACH);
  }

  /** All three are read and committed, and the second is to be read again. */
  predicate ReadsAgain(s: State) {
    && s.ever == [FIRST, SECOND, LATE] && s.taken == s.ever && s.runs == map[]
    && Batch(s.store, THREE_EACH) == [SECOND]
  }

  /** Without any crash, and with one Dream run at a time: a run that reads all
      three leaves Dream's cursor at the first number, and the next one reads the
      second entry again. */
  lemma FallenNumberReadsTwice()
    ensures exists s :: Reached(s, THREE_EACH) && ReadsAgain(s)
  {
    var all := [FIRST, SECOND, LATE];
    FallenReached();
    UnreadOfThree(FIRST, SECOND, LATE, 0);
    Reads(Fallen(), 0, all, THREE_EACH);
    var reading := Fallen().(runs := Fallen().runs[0 := Run(0, all, 0)]);
    Commits(reading, 0, all, THREE_EACH);
    AllThreeTaken(reading, all);
  }

  lemma AllThreeTaken(s: State, all: seq<Entry>)
    requires all == [FIRST, SECOND, LATE] && s.runs == map[0 := Run(0, all, 0)] && s.taken == []
    requires s.store == Store(all, Some(2), 0) && s.ever == all
    ensures ReadsAgain(AfterCommit(s, 0, all, THREE_EACH))
  {
    UnreadOfThree(FIRST, SECOND, LATE, 1);
    assert all[0..] == all && [] + all == all;
    assert s.runs - {0} == map[];
  }

  // ---------------------------------------------------------------------
  // An append during a rewrite
  // ---------------------------------------------------------------------

  /** Two are logged and one is to be kept; a third append writes while the commit
      rewrites the log, and its entry is in no file. */
  lemma LostToRewriteExample()
    ensures exists s :: Reached(s, KEEP_ONE) && C in s.lost && Missed(s, C) && C !in s.store.log
  {
    var s := Start([A, B], 2, [A, B]);
    TwoEntries(KEEP_ONE);
    UnreadOfTwo(A, B, 0);
    Reads(s, 0, [A], KEEP_ONE);
    var reading := s.(runs := s.runs[0 := Run(0, [A], 0)]);
    var numbered := reading.(writers := map[0 := Numbered(3, "c", 2, false)]);
    ReachedNext(reading, TakeNumber(0, "c"), numbered, KEEP_ONE);
    Commits(numbered, 0, [A], KEEP_ONE);
    var rewriting := AfterCommit(numbered, 0, [A], KEEP_ONE);
    assert Excess(s.store.log, KEEP_ONE) == 1 && s.store.log[1..] == [B];
    var s' := Apply(rewriting, LoseEntry(0), KEEP_ONE);
    ReachedNext(rewriting, LoseEntry(0), s', KEEP_ONE);
    assert s'.ever[2] == C && s'.taken == [A];
    assert Missed(s', C);
  }
}
