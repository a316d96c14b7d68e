// Which entries Dream takes, takes twice, or never takes, over every run of
// appends and Dream runs at the same time.

module DreamBatches {
  import opened Wrappers
  import opened Sequences
  import opened History
  import opened DreamRuns

  // ---------------------------------------------------------------------
  // Overtaken runs
  // ---------------------------------------------------------------------

  /** The step commits a run that another run's commit has overtaken: it was made
      after this run read its batch. */
  predicate Stale(s: State, step: Step, limits: Limits) {
    step.Commit? && Enabled(s, step, limits) && !Fresh(s.runs[step.run], s)
  }

  predicate StaleAt(steps: seq<Step>, limits: Limits, k: nat)
    requires k < |steps|
  {
    Stale(RunAll(steps[..k], limits), steps[k], limits)
  }

  ghost predicate NoneStale(steps: seq<Step>, limits: Limits) {
    forall k: nat :: k < |steps| ==> !StaleAt(steps, limits, k)
  }

  lemma NoneStaleFront(steps: seq<Step>, limits: Limits)
    requires steps != []
    ensures
      var n := |steps| - 1;
      NoneStale(steps, limits) <==> NoneStale(steps[..n], limits) && !StaleAt(steps, limits, n)
  {
    var n := |steps| - 1;
    forall k: nat | k < n ensures StaleAt(steps[..n], limits, k) <==> StaleAt(steps, limits, k) {
      assert steps[..n][..k] == steps[..k] && steps[..n][k] == steps[k];
    }
  }

  predicate CommitsAt(steps: seq<Step>, limits: Limits, k: nat)
    requires k < |steps|
  {
    steps[k].Commit? && Enabled(RunAll(steps[..k], limits), steps[k], limits)
  }

  predicate ReadsAt(steps: seq<Step>, limits: Limits, r: nat, k: nat)
    requires k < |steps|
  {
    steps[k] == ReadBatch(r) && Enabled(RunAll(steps[..k], limits), steps[k], limits)
  }

  ghost predicate CommitBetween(steps: seq<Step>, limits: Limits, i: nat, k: nat)
    requires k <= |steps|
  {
    exists j: nat :: i < j < k && CommitsAt(steps, limits, j)
  }

  lemma CommitBetweenNext(steps: seq<Step>, limits: Limits, i: nat, k: nat)
    requires i < k < |steps|
    ensures CommitBetween(steps, limits, i, k + 1) <==> CommitBetween(steps, limits, i, k) || CommitsAt(steps, limits, k)
  {
  }

  /** A step that is not this run's read leaves what the run holds, or ends it. */
  lemma RunKept(s: State, step: Step, limits: Limits, r: nat)
    requires !(step == ReadBatch(r) && Enabled(s, step, limits))
    ensures
      var s' := Apply(s, step, limits);
      && (r in s'.runs ==> r in s.runs && s'.runs[r] == s.runs[r])
      && s'.commits == s.commits + (if step.Commit? && Enabled(s, step, limits) then 1 else 0)
  {
  }

  /** What the run holds at `k` it read at `i`, and commits count from there. */
  ghost predicate Counts(steps: seq<Step>, limits: Limits, r: nat, i: nat, k: nat)
    requires i < k <= |steps|
  {
    var s, read := RunAll(steps[..k], limits), RunAll(steps[..i], limits);
    && (r in s.runs ==> s.runs[r].seen == read.commits)
    && read.commits <= s.commits && (read.commits < s.commits <==> CommitBetween(steps, limits, i, k))
  }

  lemma CountsFirst(steps: seq<Step>, limits: Limits, r: nat, i: nat)
    requires i < |steps| && ReadsAt(steps, limits, r, i)
    ensures Counts(steps, limits, r, i, i + 1)
  {
    TakeSnoc(steps, i);
    RunSnoc(INITIAL, steps[..i], steps[i], limits);
  }

  lemma CountsNext(steps: seq<Step>, limits: Limits, r: nat, i: nat, k: nat)
    requires i < k < |steps| && Counts(steps, limits, r, i, k) && !ReadsAt(steps, limits, r, k)
    ensures Counts(steps, limits, r, i, k + 1)
  {
    TakeSnoc(steps, k);
    RunSnoc(INITIAL, steps[..k], steps[k], limits);
    RunKept(RunAll(steps[..k], limits), steps[k], limits, r);
    CommitBetweenNext(steps, limits, i, k);
  }

  lemma {:induction false} CountsCommits(steps: seq<Step>, limits: Limits, r: nat, i: nat, k: nat)
    requires i < k <= |steps| && ReadsAt(steps, limits, r, i)
    requires forall j: nat :: i < j < k ==> !ReadsAt(steps, limits, r, j)
    ensures Counts(steps, limits, r, i, k)
    decreases k
  {
    if i == k - 1 {
      CountsFirst(steps, limits, r, i);
    } else {
      CountsCommits(steps, limits, r, i, k - 1);
      CountsNext(steps, limits, r, i, k - 1);
    }
  }

  /** So a commit is stale exactly if, since the run's own read, some other run
      committed. */
  lemma StaleIff(steps: seq<Step>, limits: Limits, r: nat, i: nat, k: nat)
    requires i < k < |steps| && ReadsAt(steps, limits, r, i) && steps[k] == Commit(r) && CommitsAt(steps, limits, k)
    requires forall j: nat :: i < j < k ==> !ReadsAt(steps, limits, r, j)
    ensures StaleAt(steps, limits, k) <==> CommitBetween(steps, limits, i, k)
  {
    CountsCommits(steps, limits, r, i, k);
  }

  /** Only a commit moves Dream's cursor and takes entries. */
  lemma OnlyCommits(s: State, step: Step, limits: Limits)
    requires !(step.Commit? && Enabled(s, step, limits))
    ensures
      var s' := Apply(s, step, limits);
      s'.store.dream == s.store.dream && s'.taken == s.taken && s'.commits == s.commits
  {
  }

  // ---------------------------------------------------------------------
  // An overtaken run takes entries twice
  // ---------------------------------------------------------------------

  /** What an overtaken run read first is taken already. */
  ghost predicate Marked(s: State) {
    forall r :: r in s.runs && !Fresh(s.runs[r], s) ==> s.runs[r].batch != [] && s.runs[r].batch[0] in s.taken
  }

  /** Two runs that no commit has overtaken read the same entry first. */
  lemma SameFirst(s: State, q: nat, r: nat)
    requires RunsFit(s) && q in s.runs && r in s.runs && Fresh(s.runs[q], s) && Fresh(s.runs[r], s)
    ensures s.runs[q].batch != [] && s.runs[r].batch != [] && s.runs[q].batch[0] == s.runs[r].batch[0]
  {
    assert RunFits(s, s.runs[q]) && RunFits(s, s.runs[r]);
  }

  lemma MarkedStep(s: State, step: Step, limits: Limits)
    requires Sound(s) && Marked(s) && !Stale(s, step, limits)
    ensures Marked(Apply(s, step, limits))
  {
    var s' := Apply(s, step, limits);
    if step.Commit? && Enabled(s, step, limits) {
      var batch := s.runs[step.run].batch;
      forall q | q in s'.runs && !Fresh(s'.runs[q], s') ensures s'.runs[q].batch != [] && s'.runs[q].batch[0] in s'.taken {
        if Fresh(s.runs[q], s) {
          SameFirst(s, q, step.run);
          assert batch[0] in batch;
        }
      }
    } else {
      OnlyCommits(s, step, limits);
    }
  }

  lemma {:induction false} RunMarked(steps: seq<Step>, limits: Limits)
    requires NoneStale(steps, limits)
    ensures Marked(RunAll(steps, limits))
  {
    if steps != [] {
      var n := |steps| - 1;
      NoneStaleFront(steps, limits);
      RunMarked(steps[..n], limits);
      RunSound(steps[..n], limits);
      MarkedStep(RunAll(steps[..n], limits), steps[n], limits);
    }
  }

  lemma TwiceTaken(taken: seq<Entry>, batch: seq<Entry>)
    requires batch != [] && batch[0] in taken
    ensures !NoDuplicates(taken + batch)
  {
    var i :| 0 <= i < |taken| && taken[i] == batch[0];
    assert (taken + batch)[i] == (taken + batch)[|taken|];
  }

  lemma TakenGrows(s: State, step: Step, limits: Limits)
    ensures s.taken <= Apply(s, step, limits).taken
  {
  }

  lemma FewerDuplicates(taken: seq<Entry>, taken': seq<Entry>)
    requires taken <= taken' && NoDuplicates(taken')
    ensures NoDuplicates(taken)
  {
    forall i, j | 0 <= i < j < |taken| ensures taken[i] != taken[j] {
      assert taken'[i] == taken[i] && taken'[j] == taken[j];
    }
  }

  /** Over every run: if an overtaken run commits, some entry is taken twice. */
  lemma {:induction false} StaleTakesTwice(steps: seq<Step>, limits: Limits)
    requires NoDuplicates(RunAll(steps, limits).taken)
    ensures NoneStale(steps, limits)
  {
    if steps != [] {
      var n := |steps| - 1;
      var s := RunAll(steps[..n], limits);
      TakenGrows(s, steps[n], limits);
      FewerDuplicates(s.taken, RunAll(steps, limits).taken);
      StaleTakesTwice(steps[..n], limits);
      if Stale(s, steps[n], limits) {
        RunMarked(steps[..n], limits);
        TwiceTaken(s.taken, s.runs[steps[n].run].batch);
      }
      NoneStaleFront(steps, limits);
    }
  }

  // ---------------------------------------------------------------------
  // Otherwise none is
  // ---------------------------------------------------------------------

  ghost predicate UpTo(taken: seq<Entry>, cursor: nat) {
    forall e :: e in taken ==> e.cursor <= cursor
  }

  /** Dream's cursor is at least what it took, which is in writing order. */
  ghost predicate Orderly(s: State) {
    Rising(s.taken) && UpTo(s.taken, s.store.dream)
  }

  lemma EarlierIsSmaller(ever: seq<Entry>, a: Entry, b: Entry)
    requires NonDecreasing(ever) && Known(ever, a) && Known(ever, b) && a.cursor < b.cursor
    ensures a.serial < b.serial
  {
  }

  /** The last of a batch has its largest number. */
  lemma LastIsLargest(ever: seq<Entry>, batch: seq<Entry>)
    requires NonDecreasing(ever) && AllKnown(ever, batch) && Rising(batch) && batch != []
    ensures UpTo(batch, batch[|batch| - 1].cursor)
  {
    var last := batch[|batch| - 1];
    assert last in batch;
    forall e | e in batch ensures e.cursor <= last.cursor {
      var i :| 0 <= i < |batch| && batch[i] == e;
      if i < |batch| - 1 {
        assert ever[e.serial].cursor <= ever[last.serial].cursor;
      }
    }
  }

  lemma RisingConcat(ever: seq<Entry>, taken: seq<Entry>, batch: seq<Entry>, cursor: nat)
    requires NonDecreasing(ever) && AllKnown(ever, taken) && AllKnown(ever, batch)
    requires Rising(taken) && Rising(batch) && UpTo(taken, cursor)
    requires forall e :: e in batch ==> e.cursor > cursor
    ensures Rising(taken + batch)
  {
    forall i, j | 0 <= i < j < |taken + batch| ensures (taken + batch)[i].serial < (taken + batch)[j].serial {
      if i < |taken| <= j {
        assert taken[i] in taken && batch[j - |taken|] in batch;
        EarlierIsSmaller(ever, taken[i], batch[j - |taken|]);
      }
    }
  }

  lemma OrderlyStep(s: State, step: Step, limits: Limits)
    requires Sound(s) && Orderly(s) && NonDecreasing(s.ever) && !Stale(s, step, limits)
    ensures Orderly(Apply(s, step, limits))
  {
    if step.Commit? && Enabled(s, step, limits) {
      var run := s.runs[step.run];
      assert RunFits(s, run);
      RisingConcat(s.ever, s.taken, run.batch, s.store.dream);
      LastIsLargest(s.ever, run.batch);
      assert run.batch[|run.batch| - 1] in run.batch;
    } else {
      OnlyCommits(s, step, limits);
    }
  }

  lemma NonDecreasingFront(ever: seq<Entry>, ever': seq<Entry>)
    requires ever <= ever' && NonDecreasing(ever')
    ensures NonDecreasing(ever)
  {
    forall i, j | 0 <= i < j < |ever| ensures ever[i].cursor <= ever[j].cursor {
      assert ever'[i] == ever[i] && ever'[j] == ever[j];
    }
  }

  lemma {:induction false} RunOrderly(steps: seq<Step>, limits: Limits)
    requires NoneStale(steps, limits) && NonDecreasing(RunAll(steps, limits).ever)
    ensures Orderly(RunAll(steps, limits))
  {
    if steps != [] {
      var n := |steps| - 1;
      var s := RunAll(steps[..n], limits);
      RunSound(steps[..n], limits);
      NumberStep(s, steps[n], limits);
      NonDecreasingFront(s.ever, RunAll(steps, limits).ever);
      NoneStaleFront(steps, limits);
      RunOrderly(steps[..n], limits);
      OrderlyStep(s, steps[n], limits);
    }
  }

  lemma RisingIsDistinct(taken: seq<Entry>)
    requires Rising(taken)
    ensures NoDuplicates(taken)
  {
    forall i, j | 0 <= i < j < |taken| ensures taken[i] != taken[j] {
      assert taken[i].serial < taken[j].serial;
    }
  }

  /** Whatever the numbers: a commit that was not overtaken moves Dream's cursor
      forward, and nothing else moves it. So a cursor that goes back, or stays
      where it is at a commit, is the work of an overtaken run. */
  lemma CursorRises(steps: seq<Step>, limits: Limits, k: nat)
    requires k < |steps| && !StaleAt(steps, limits, k)
    ensures
      var s, s' := RunAll(steps[..k], limits), RunAll(steps[..k + 1], limits);
      if steps[k].Commit? && Enabled(s, steps[k], limits) then s'.store.dream > s.store.dream
      else s'.store.dream == s.store.dream
  {
    var s := RunAll(steps[..k], limits);
    TakeSnoc(steps, k);
    RunSnoc(INITIAL, steps[..k], steps[k], limits);
    RunSound(steps[..k], limits);
    if steps[k].Commit? && Enabled(s, steps[k], limits) {
      var run := s.runs[steps[k].run];
      assert RunFits(s, run) && run.batch[|run.batch| - 1] in run.batch;
    } else {
      OnlyCommits(s, steps[k], limits);
    }
  }

  /** Dream's cursor never goes back. */
  ghost predicate NeverBack(steps: seq<Step>, limits: Limits) {
    forall k: nat :: k < |steps| ==> NotBackAt(steps, limits, k)
  }

  predicate NotBackAt(steps: seq<Step>, limits: Limits, k: nat)
    requires k < |steps|
  {
    RunAll(steps[..k + 1], limits).store.dream >= RunAll(steps[..k], limits).store.dream
  }

  /** Over every run of appends and Dream runs at the same time, in which the
      numbers never fall: no entry is taken twice if and only if no run commits
      that was overtaken by another's commit. Then the cursor never goes back
      either, and the batches, one after the other, are in the order in which the
      entries were written. */
  lemma NoneTakenTwiceIff(steps: seq<Step>, limits: Limits)
    requires NonDecreasing(RunAll(steps, limits).ever)
    ensures NoDuplicates(RunAll(steps, limits).taken) <==> NoneStale(steps, limits)
    ensures NoneStale(steps, limits) ==> NeverBack(steps, limits) && Rising(RunAll(steps, limits).taken)
  {
    if NoneStale(steps, limits) {
      RunOrderly(steps, limits);
      RisingIsDistinct(RunAll(steps, limits).taken);
      forall k: nat | k < |steps| ensures NotBackAt(steps, limits, k) {
        assert !StaleAt(steps, limits, k);
        CursorRises(steps, limits, k);
      }
    } else if NoDuplicates(RunAll(steps, limits).taken) {
      StaleTakesTwice(steps, limits);
    }
  }

  // ---------------------------------------------------------------------
  // Entries that are never read
  // ---------------------------------------------------------------------

  /** The entry is still to be read. */
  predicate ToRead(s: State, e: Entry) { e in s.store.log && e.cursor > s.store.dream }

  /** It was written, is in no committed batch, and is not to be read. */
  predicate Missed(s: State, e: Entry) { e in s.ever && e !in s.taken && !ToRead(s, e) }

  predicate IsNew(s: State, step: Step, limits: Limits, e: Entry) {
    Writes(s, step, limits) && e == NewEntry(s, step.writer)
  }

  /** An entry to be read when the run commits is passed by: it is not in the
      batch, and the commit drops it or its number is no higher than the batch's
      last. */
  predicate PassedBy(s: State, r: nat, limits: Limits, e: Entry)
    requires r in s.runs && s.runs[r].batch != []
  {
    var batch := s.runs[r].batch;
    && ToRead(s, e) && e !in s.taken && e !in batch
    && (e !in s.store.log[Excess(s.store.log, limits)..] || e.cursor <= batch[|batch| - 1].cursor)
  }

  /** This step misses the entry: it is written under a number Dream is past, or
      lost to a rewrite, or passed by. */
  predicate Misses(s: State, step: Step, limits: Limits, e: Entry) {
    match step
    case LogEntry(_) => IsNew(s, step, limits, e) && e.cursor <= s.store.dream
    case LoseEntry(_) => IsNew(s, step, limits, e)
    case Commit(r) => Enabled(s, step, limits) && PassedBy(s, r, limits, e)
    case _ => false
  }

  /** This commit brings a missed entry back: it is in the batch, or the cursor
      goes back to before it. */
  predicate Rescues(s: State, step: Step, limits: Limits, e: Entry) {
    && step.Commit? && Enabled(s, step, limits) && Missed(s, e)
    && var batch := s.runs[step.run].batch;
       e in batch || (e in s.store.log[Excess(s.store.log, limits)..] && e.cursor > batch[|batch| - 1].cursor)
  }

  lemma NewIsNew(s: State, step: Step, limits: Limits)
    requires Sound(s) && Writes(s, step, limits)
    ensures
      var e := NewEntry(s, step.writer);
      e !in s.ever && e !in s.store.log && e !in s.taken
  {
  }

  lemma WriteMisses(s: State, step: Step, limits: Limits, e: Entry)
    requires Sound(s) && Writes(s, step, limits)
    ensures Missed(Apply(s, step, limits), e) <==> Misses(s, step, limits, e) || Missed(s, e)
  {
    NewIsNew(s, step, limits);
  }

  lemma DroppedIsLogged(log: seq<Entry>, n: nat, e: Entry)
    requires n <= |log| && e in log[n..]
    ensures e in log
  {
  }

  lemma CommitMisses(s: State, r: nat, limits: Limits, e: Entry)
    requires Sound(s) && Enabled(s, Commit(r), limits)
    ensures Missed(Apply(s, Commit(r), limits), e)
       <==> Misses(s, Commit(r), limits, e) || (Missed(s, e) && !Rescues(s, Commit(r), limits, e))
  {
    var log := s.store.log;
    assert RunFits(s, s.runs[r]);
    if e in log[Excess(log, limits)..] {
      DroppedIsLogged(log, Excess(log, limits), e);
    }
    if e in log {
      assert Known(s.ever, e) && e in s.ever;
    }
  }

  /** What a step does to one entry. */
  lemma MissStep(s: State, step: Step, limits: Limits, e: Entry)
    requires Sound(s)
    ensures Missed(Apply(s, step, limits), e)
       <==> Misses(s, step, limits, e) || (Missed(s, e) && !Rescues(s, step, limits, e))
  {
    if Writes(s, step, limits) {
      WriteMisses(s, step, limits, e);
    } else if step.Commit? && Enabled(s, step, limits) {
      CommitMisses(s, step.run, limits, e);
    } else {
      OthersMissNone(s, step, limits);
    }
  }

  lemma OthersMissNone(s: State, step: Step, limits: Limits)
    requires !Writes(s, step, limits) && !(step.Commit? && Enabled(s, step, limits))
    ensures
      var s' := Apply(s, step, limits);
      && s'.ever == s.ever && s'.taken == s.taken
      && s'.store.log == s.store.log && s'.store.dream == s.store.dream
  {
  }

  predicate MissesAt(steps: seq<Step>, limits: Limits, e: Entry, k: nat)
    requires k < |steps|
  {
    Misses(RunAll(steps[..k], limits), steps[k], limits, e)
  }

  predicate RescuesAt(steps: seq<Step>, limits: Limits, e: Entry, k: nat)
    requires k < |steps|
  {
    Rescues(RunAll(steps[..k], limits), steps[k], limits, e)
  }

  /** Some step before `n` misses the entry and none between brings it back. */
  ghost predicate MissedBefore(steps: seq<Step>, limits: Limits, e: Entry, n: nat)
    requires n <= |steps|
  {
    exists k: nat :: k < n && MissesAt(steps, limits, e, k)
      && forall j: nat :: k < j < n ==> !RescuesAt(steps, limits, e, j)
  }

  lemma MissedBeforeNext(steps: seq<Step>, limits: Limits, e: Entry, n: nat)
    requires n < |steps|
    ensures MissedBefore(steps, limits, e, n + 1)
       <==> MissesAt(steps, limits, e, n) || (MissedBefore(steps, limits, e, n) && !RescuesAt(steps, limits, e, n))
  {
    if MissedBefore(steps, limits, e, n) && !RescuesAt(steps, limits, e, n) {
      var k: nat :| k < n && MissesAt(steps, limits, e, k)
        && forall j: nat :: k < j < n ==> !RescuesAt(steps, limits, e, j);
      assert forall j: nat :: k < j < n + 1 ==> !RescuesAt(steps, limits, e, j);
    }
  }

  lemma MissTransition(steps: seq<Step>, limits: Limits, e: Entry, n: nat)
    requires n < |steps|
    ensures Missed(RunAll(steps[..n + 1], limits), e)
       <==> MissesAt(steps, limits, e, n) || (Missed(RunAll(steps[..n], limits), e) && !RescuesAt(steps, limits, e, n))
  {
    TakeSnoc(steps, n);
    RunSnoc(INITIAL, steps[..n], steps[n], limits);
    RunSound(steps[..n], limits);
    MissStep(RunAll(steps[..n], limits), steps[n], limits, e);
  }

  lemma {:induction false} MissedAfter(steps: seq<Step>, limits: Limits, e: Entry, n: nat)
    requires n <= |steps|
    ensures Missed(RunAll(steps[..n], limits), e) <==> MissedBefore(steps, limits, e, n)
    decreases n
  {
    if n > 0 {
      MissedAfter(steps, limits, e, n - 1);
      MissTransition(steps, limits, e, n - 1);
      MissedBeforeNext(steps, limits, e, n - 1);
    }
  }

  /** Over every run: an entry written is in no batch and not to be read if and
      only if some step missed it, by one of the three ways, and no later commit
      brought it back. */
  lemma MissedIff(steps: seq<Step>, limits: Limits, e: Entry)
    ensures Missed(RunAll(steps, limits), e) <==> MissedBefore(steps, limits, e, |steps|)
  {
    TakeAll(steps);
    MissedAfter(steps, limits, e, |steps|);
  }

  /** Only a commit that was overtaken brings a missed entry back. */
  lemma FreshRescuesNone(s: State, step: Step, limits: Limits, e: Entry)
    requires Sound(s) && Rescues(s, step, limits, e)
    ensures Stale(s, step, limits)
  {
    var run, log := s.runs[step.run], s.store.log;
    assert RunFits(s, run);
    if Fresh(run, s) {
      UnreadAre(log, s.store.dream);
      assert run.batch[|run.batch| - 1] in run.batch;
      if e !in run.batch {
        DroppedIsLogged(log, Excess(log, limits), e);
      }
    }
  }

  /** After these steps `more` ones commit no overtaken run. */
  ghost predicate NoneStaleAfter(steps: seq<Step>, more: seq<Step>, limits: Limits) {
    forall k: nat :: |steps| <= k < |steps + more| ==> !StaleAt(steps + more, limits, k)
  }

  /** What is missed stays missed, whatever follows, as long as no overtaken run
      commits. */
  lemma {:induction false} MissedForGood(steps: seq<Step>, more: seq<Step>, limits: Limits, e: Entry)
    requires Missed(RunAll(steps, limits), e) && NoneStaleAfter(steps, more, limits)
    ensures Missed(RunAll(steps + more, limits), e)
  {
    if more == [] {
      assert steps + more == steps;
    } else {
      var all, n, front := steps + more, |steps + more| - 1, more[..|more| - 1];
      assert all[..n] == steps + front;
      forall k: nat | |steps| <= k < n ensures !StaleAt(steps + front, limits, k) {
        assert !StaleAt(all, limits, k);
        assert all[..k] == (steps + front)[..k] && all[k] == (steps + front)[k];
      }
      MissedForGood(steps, front, limits, e);
      assert !StaleAt(all, limits, n);
      TakeAll(all);
      MissTransition(all, limits, e, n);
      RunSound(all[..n], limits);
      if RescuesAt(all, limits, e, n) {
        FreshRescuesNone(RunAll(all[..n], limits), all[n], limits, e);
      }
    }
  }

  /** An entry outside the batch and numbered no higher than its last, such as a
      second one with that number, wherever it was written since the read: it is
      in no batch of any later run, as long as no overtaken run commits. */
  lemma DuplicateIsSkipped(steps: seq<Step>, r: nat, more: seq<Step>, limits: Limits, e: Entry)
    requires
      var s := RunAll(steps, limits);
      && Enabled(s, Commit(r), limits) && e in s.store.log && e !in s.taken && e !in s.runs[r].batch
      && e.cursor <= s.runs[r].batch[|s.runs[r].batch| - 1].cursor
    requires NoneStaleAfter(steps + [Commit(r)], more, limits)
    ensures e !in RunAll(steps + [Commit(r)] + more, limits).taken
  {
    var s := RunAll(steps, limits);
    RunSound(steps, limits);
    RunSnoc(INITIAL, steps, Commit(r), limits);
    assert Known(s.ever, e) && e in s.ever;
    assert Missed(RunAll(steps + [Commit(r)], limits), e);
    MissedForGood(steps + [Commit(r)], more, limits, e);
  }

  // ---------------------------------------------------------------------
  // What a commit drops unread
  // ---------------------------------------------------------------------

  lemma LogNonDecreasing(ever: seq<Entry>, log: seq<Entry>)
    requires NonDecreasing(ever) && Rising(log) && AllKnown(ever, log)
    ensures NonDecreasing(log)
  {
    forall i, j | 0 <= i < j < |log| ensures log[i].cursor <= log[j].cursor {
      assert log[i] in log && log[j] in log;
      assert ever[log[i].serial].cursor <= ever[log[j].serial].cursor;
    }
  }

  lemma {:induction false} NoneUnread(log: seq<Entry>, since: nat)
    requires forall e :: e in log ==> e.cursor <= since
    ensures Unread(log, since) == []
  {
    if log != [] {
      assert log[|log| - 1] in log;
      NoneUnread(log[..|log| - 1], since);
    }
  }

  lemma LastOfLog(log: seq<Entry>)
    requires NonDecreasing(log) && log != []
    ensures forall e :: e in log ==> e.cursor <= log[|log| - 1].cursor
  {
    forall e | e in log ensures e.cursor <= log[|log| - 1].cursor {
      var i :| 0 <= i < |log| && log[i] == e;
    }
  }

  lemma TailSnoc(log: seq<Entry>, k: nat)
    requires k < |log|
    ensures log[..|log| - 1][k..] + [log[|log| - 1]] == log[k..]
  {
  }

  /** The unread entries are the end of the log. */
  lemma {:induction false} UnreadIsTail(log: seq<Entry>, since: nat)
    requires NonDecreasing(log)
    ensures Unread(log, since) == log[|log| - |Unread(log, since)|..]
  {
    if log != [] {
      if log[|log| - 1].cursor <= since {
        LastOfLog(log);
        NoneUnread(log, since);
        assert log[|log|..] == [];
      } else {
        var front := log[..|log| - 1];
        UnreadIsTail(front, since);
        TailSnoc(log, |front| - |Unread(front, since)|);
      }
    }
  }

  /** How many unread entries come before the first that is not in the batch. */
  function Leading(unread: seq<Entry>, batch: seq<Entry>): (n: nat)
    ensures n <= |unread|
  {
    if unread == [] || unread[0] !in batch then 0 else 1 + Leading(unread[1..], batch)
  }

  lemma {:induction false} LeadingIs(unread: seq<Entry>, batch: seq<Entry>)
    ensures forall i :: 0 <= i < Leading(unread, batch) ==> unread[i] in batch
    ensures Leading(unread, batch) < |unread| ==> unread[Leading(unread, batch)] !in batch
  {
    if unread != [] && unread[0] in batch {
      LeadingIs(unread[1..], batch);
      forall i | 0 <= i < Leading(unread, batch) ensures unread[i] in batch {
        assert i > 0 ==> unread[i] == unread[1..][i - 1];
      }
    }
  }

  /** The commit drops this entry, though it was to be read and is in no batch. */
  predicate DropsUnread(s: State, r: nat, limits: Limits, e: Entry)
    requires r in s.runs && s.runs[r].batch != []
  {
    ToRead(s, e) && e !in s.runs[r].batch && e !in s.store.log[Excess(s.store.log, limits)..]
  }

  lemma InTail(log: seq<Entry>, n: nat, k: nat)
    requires Rising(log) && n <= |log| && k < |log|
    ensures log[k] in log[n..] <==> k >= n
  {
    if k >= n {
      assert log[n..][k - n] == log[k];
    }
  }

  /** Where, in the log, the first unread entry outside the batch is. */
  function FirstLeft(s: State, batch: seq<Entry>): nat {
    |s.store.log| - |Unread(s.store.log, s.store.dream)| + Leading(Unread(s.store.log, s.store.dream), batch)
  }

  lemma DropsFirstLeft(s: State, r: nat, limits: Limits)
    requires Sound(s) && NonDecreasing(s.ever) && Enabled(s, Commit(r), limits)
    requires FirstLeft(s, s.runs[r].batch) < Excess(s.store.log, limits)
    ensures exists e :: DropsUnread(s, r, limits, e)
  {
    var log, batch := s.store.log, s.runs[r].batch;
    var unread, first := Unread(log, s.store.dream), FirstLeft(s, batch);
    LogNonDecreasing(s.ever, log);
    UnreadIsTail(log, s.store.dream);
    UnreadAre(log, s.store.dream);
    LeadingIs(unread, batch);
    assert unread[Leading(unread, batch)] == log[first];
    assert log[first] in unread;
    InTail(log, Excess(log, limits), first);
    assert DropsUnread(s, r, limits, log[first]);
  }

  lemma DroppedIsLeft(s: State, r: nat, limits: Limits, e: Entry)
    requires Sound(s) && NonDecreasing(s.ever) && Enabled(s, Commit(r), limits) && DropsUnread(s, r, limits, e)
    ensures FirstLeft(s, s.runs[r].batch) < Excess(s.store.log, limits)
  {
    var log := s.store.log;
    var unread := Unread(log, s.store.dream);
    LogNonDecreasing(s.ever, log);
    UnreadIsTail(log, s.store.dream);
    UnreadAre(log, s.store.dream);
    LeadingIs(unread, s.runs[r].batch);
    assert e in unread;
    var i :| 0 <= i < |unread| && unread[i] == e;
    InTail(log, Excess(log, limits), |log| - |unread| + i);
  }

  /** A commit drops entries that are to be read and outside its batch exactly
      when, of what is to be read when it commits, more lies behind the batch than
      the log may keep: entries that arrived since the read count. */
  lemma DreamLosesIff(s: State, r: nat, limits: Limits)
    requires Sound(s) && NonDecreasing(s.ever) && Enabled(s, Commit(r), limits)
    ensures
      var unread := Unread(s.store.log, s.store.dream);
      (exists e :: DropsUnread(s, r, limits, e)) <==>
      limits.maxEntries > 0 && |unread| > Leading(unread, s.runs[r].batch) + limits.maxEntries
  {
    if FirstLeft(s, s.runs[r].batch) < Excess(s.store.log, limits) {
      DropsFirstLeft(s, r, limits);
    } else if e :| DropsUnread(s, r, limits, e) {
      DroppedIsLeft(s, r, limits, e);
    }
  }

  /** For a run that was not overtaken the whole batch leads. */
  lemma {:induction false} LeadingOfPrefix(unread: seq<Entry>, batch: seq<Entry>, all: seq<Entry>)
    requires batch <= unread && NoDuplicates(unread)
    requires forall e :: e in batch ==> e in all
    requires forall e :: e in unread[|batch|..] ==> e !in all
    ensures Leading(unread, all) == |batch|
  {
    if batch == [] {
      assert unread[0..] == unread;
      assert unread != [] ==> unread[0] in unread;
    } else {
      assert batch[0] == unread[0] && batch[0] in batch;
      assert unread[1..][|batch[1..]|..] == unread[|batch|..];
      LeadingOfPrefix(unread[1..], batch[1..], all);
    }
  }

  lemma FreshLeading(s: State, r: nat, limits: Limits)
    requires Sound(s) && Enabled(s, Commit(r), limits) && Fresh(s.runs[r], s)
    ensures Leading(Unread(s.store.log, s.store.dream), s.runs[r].batch) == |s.runs[r].batch|
  {
    var unread, batch := Unread(s.store.log, s.store.dream), s.runs[r].batch;
    assert RunFits(s, s.runs[r]);
    UnreadRising(s.store.log, s.store.dream);
    RisingIsDistinct(unread);
    forall e | e in unread[|batch|..] ensures e !in batch {
      var j :| 0 <= j < |unread[|batch|..]| && unread[|batch|..][j] == e;
      assert unread[|batch| + j] == e;
    }
    LeadingOfPrefix(unread, batch, batch);
  }

  /** So a run that no other overtakes drops unread entries exactly if more are
      left behind its batch than the log may keep. */
  lemma FreshDreamLosesIff(s: State, r: nat, limits: Limits)
    requires Sound(s) && NonDecreasing(s.ever) && Enabled(s, Commit(r), limits) && Fresh(s.runs[r], s)
    ensures (exists e :: DropsUnread(s, r, limits, e)) <==>
            limits.maxEntries > 0 && |Unread(s.store.log, s.store.dream)| > |s.runs[r].batch| + limits.maxEntries
  {
    DreamLosesIff(s, r, limits);
    FreshLeading(s, r, limits);
  }

  // ---------------------------------------------------------------------
  // Where every entry is
  // ---------------------------------------------------------------------

  /** The entry was taken, is to be read, was lost to a rewrite, or was dropped
      with at least `maxEntries` written after it. */
  predicate Accounted(s: State, limits: Limits, e: Entry) {
    || e in s.taken || ToRead(s, e) || e in s.lost
    || 0 < limits.maxEntries <= |s.ever| - 1 - e.serial
  }

  ghost predicate AllAccounted(s: State, limits: Limits) {
    forall e :: e in s.ever ==> Accounted(s, limits, e)
  }

  /** Dream's cursor is an entry's number. */
  ghost predicate DreamGiven(s: State) {
    s.store.dream == 0 || Given(s.ever, s.store.dream)
  }

  lemma {:induction false} SerialsSpread(log: seq<Entry>, k: nat)
    requires Rising(log) && k < |log|
    ensures log[|log| - 1].serial >= log[k].serial + (|log| - 1 - k)
  {
    if k < |log| - 1 {
      var front := log[..|log| - 1];
      SerialsSpread(front, k);
      assert front[|front| - 1] == log[|log| - 2];
    }
  }

  /** What a rewrite drops has the limit of entries after it. */
  lemma DroppedIsOld(s: State, limits: Limits, e: Entry)
    requires Sound(s) && e in s.store.log && e !in s.store.log[Excess(s.store.log, limits)..]
    ensures 0 < limits.maxEntries <= |s.ever| - 1 - e.serial
  {
    var log, n := s.store.log, Excess(s.store.log, limits);
    var k :| 0 <= k < |log| && log[k] == e;
    InTail(log, n, k);
    SerialsSpread(log, k);
    assert log[|log| - 1] in log && Known(s.ever, log[|log| - 1]);
  }

  /** With strictly increasing numbers nothing behind a fresh batch is numbered
      within it. */
  lemma BehindIsLater(s: State, r: nat, e: Entry)
    requires Sound(s) && Increasing(s.ever) && r in s.runs && Fresh(s.runs[r], s)
    requires ToRead(s, e) && e !in s.runs[r].batch
    ensures s.runs[r].batch != [] && e.cursor > s.runs[r].batch[|s.runs[r].batch| - 1].cursor
  {
    var unread, batch := Unread(s.store.log, s.store.dream), s.runs[r].batch;
    assert RunFits(s, s.runs[r]);
    UnreadAre(s.store.log, s.store.dream);
    UnreadRising(s.store.log, s.store.dream);
    var i :| 0 <= i < |unread| && unread[i] == e;
    var last := batch[|batch| - 1];
    assert unread[|batch| - 1] == last && last in batch;
    assert Known(s.ever, e) && Known(s.ever, last);
    assert s.ever[last.serial].cursor < s.ever[e.serial].cursor;
  }

  lemma CommitAccounts(s: State, r: nat, limits: Limits)
    requires Sound(s) && Increasing(s.ever) && AllAccounted(s, limits)
    requires Enabled(s, Commit(r), limits) && Fresh(s.runs[r], s)
    ensures AllAccounted(Apply(s, Commit(r), limits), limits)
  {
    var s' := Apply(s, Commit(r), limits);
    forall e | e in s'.ever ensures Accounted(s', limits, e) {
      assert Accounted(s, limits, e);
      if ToRead(s, e) && e !in s.runs[r].batch {
        BehindIsLater(s, r, e);
        if e !in s'.store.log {
          DroppedIsOld(s, limits, e);
        }
      }
    }
  }

  lemma WriteAccounts(s: State, step: Step, limits: Limits)
    requires Sound(s) && DreamGiven(s) && AllAccounted(s, limits) && Writes(s, step, limits)
    requires Increasing(Apply(s, step, limits).ever)
    ensures AllAccounted(Apply(s, step, limits), limits)
  {
    var s', n := Apply(s, step, limits), NewEntry(s, step.writer);
    assert WriterFits(s.ever, s.writers[step.writer]);
    NewIsLater(s, n);
    forall e | e in s'.ever ensures Accounted(s', limits, e) {
      if e != n {
        assert e in s.ever && Accounted(s, limits, e);
      }
    }
  }

  lemma NewIsLater(s: State, e: Entry)
    requires Increasing(s.ever + [e]) && DreamGiven(s) && e.cursor > 0
    ensures e.cursor > s.store.dream
  {
    if s.store.dream != 0 {
      var i :| 0 <= i < |s.ever| && s.ever[i].cursor == s.store.dream;
      assert (s.ever + [e])[i].cursor < (s.ever + [e])[|s.ever|].cursor;
    }
  }

  lemma DreamGivenStep(s: State, step: Step, limits: Limits)
    requires Sound(s) && DreamGiven(s)
    ensures DreamGiven(Apply(s, step, limits))
  {
    if Writes(s, step, limits) {
      if s.store.dream != 0 {
        GivenGrows(s.ever, NewEntry(s, step.writer), s.store.dream);
      }
    } else if step.Commit? && Enabled(s, step, limits) {
      var batch := s.runs[step.run].batch;
      assert RunFits(s, s.runs[step.run]);
      var last := batch[|batch| - 1];
      assert last in batch && Known(s.ever, last);
    } else {
      OthersMissNone(s, step, limits);
    }
  }

  lemma {:induction false} RunDreamGiven(steps: seq<Step>, limits: Limits)
    ensures DreamGiven(RunAll(steps, limits))
  {
    if steps != [] {
      var n := |steps| - 1;
      RunDreamGiven(steps[..n], limits);
      RunSound(steps[..n], limits);
      DreamGivenStep(RunAll(steps[..n], limits), steps[n], limits);
    }
  }

  lemma OthersAccount(s: State, step: Step, limits: Limits)
    requires AllAccounted(s, limits) && !Writes(s, step, limits) && !(step.Commit? && Enabled(s, step, limits))
    ensures AllAccounted(Apply(s, step, limits), limits)
  {
    var s' := Apply(s, step, limits);
    OthersMissNone(s, step, limits);
    assert s'.lost == s.lost;
    forall e | e in s'.ever ensures Accounted(s', limits, e) {
      assert Accounted(s, limits, e);
    }
  }

  lemma {:induction false} RunAccounts(steps: seq<Step>, limits: Limits)
    requires NoneStale(steps, limits) && Increasing(RunAll(steps, limits).ever)
    ensures AllAccounted(RunAll(steps, limits), limits)
  {
    if steps != [] {
      var n := |steps| - 1;
      var s, step := RunAll(steps[..n], limits), steps[n];
      RunSound(steps[..n], limits);
      NumberStep(s, step, limits);
      NoneStaleFront(steps, limits);
      RunAccounts(steps[..n], limits);
      if Writes(s, step, limits) {
        RunDreamGiven(steps[..n], limits);
        WriteAccounts(s, step, limits);
      } else if step.Commit? && Enabled(s, step, limits) {
        CommitAccounts(s, step.run, limits);
      } else {
        OthersAccount(s, step, limits);
      }
    }
  }

  /** Over every run without an overtaken commit and with strictly increasing
      numbers: the batches, one after the other, hold entries with strictly
      increasing numbers, and each entry ever written is in a batch, or still
      logged and to be read, or was lost to a rewrite, or dropped with at least
      `maxEntries` newer ones behind it. */
  lemma BatchesOverRun(steps: seq<Step>, limits: Limits, e: Entry)
    requires NoneStale(steps, limits) && Increasing(RunAll(steps, limits).ever)
    requires e in RunAll(steps, limits).ever
    ensures Increasing(RunAll(steps, limits).taken)
    ensures Accounted(RunAll(steps, limits), limits, e)
  {
    var s := RunAll(steps, limits);
    RunAccounts(steps, limits);
    RunOrderly(steps, limits);
    RunSound(steps, limits);
    forall i, j | 0 <= i < j < |s.taken| ensures s.taken[i].cursor < s.taken[j].cursor {
      assert s.taken[i] in s.taken && s.taken[j] in s.taken;
      assert s.ever[s.taken[i].serial].cursor < s.ever[s.taken[j].serial].cursor;
    }
  }
}
