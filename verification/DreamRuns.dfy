// Appends and Dream runs over the same files, all at the same time: nothing
// locks the store, so an append may stop or be overtaken between any two of its
// file accesses, and a Dream run waits for its model between reading its batch
// and committing it.

module DreamRuns {
  import opened Wrappers
  import opened Sequences
  import opened History

  /** An append under way: it has taken its number, or also written its entry.
      `seen` and `lagged` are history: how many entries were written when it took
      the number, and whether that did not follow the last of them. */
  datatype Writer = Numbered(cursor: nat, content: string, seen: nat, lagged: bool) | Logged(cursor: nat)

  /** A Dream run waiting for its model, with the cursor and the batch it read and
      how many commits had been made by then. */
  datatype Run = Run(since: nat, batch: seq<Entry>, seen: nat)

  /** `rewritten` says that the last thing to happen was a rewrite of the log by a
      commit. The fields after it are history: every entry written, the batches
      committed one after the other, the entries that a rewrite under way when
      they were written dropped, and the number of commits. */
  datatype State = State(store: Store, writers: map<nat, Writer>, runs: map<nat, Run>, rewritten: bool,
                         ever: seq<Entry>, taken: seq<Entry>, lost: set<Entry>, commits: nat)

  const INITIAL := State(EMPTY, map[], map[], false, [], [], {}, 0)

  /** `LoseEntry` is a log write that falls between a commit's reading of the log
      and its rewrite: it is written, and gone. `GiveUp` and `Fail` are a failed
      access or a crash. */
  datatype Step =
    | TakeNumber(writer: nat, content: string)
    | LogEntry(writer: nat)
    | LoseEntry(writer: nat)
    | RecordCursor(writer: nat)
    | GiveUp(writer: nat)
    | ReadBatch(run: nat)
    | Commit(run: nat)
    | Fail(run: nat)

  predicate Enabled(s: State, step: Step, limits: Limits) {
    match step
    case TakeNumber(w, _) => w !in s.writers
    case LogEntry(w) => w in s.writers && s.writers[w].Numbered?
    case LoseEntry(w) => w in s.writers && s.writers[w].Numbered? && s.rewritten
    case RecordCursor(w) => w in s.writers && s.writers[w].Logged?
    case GiveUp(w) => w in s.writers
    case ReadBatch(r) => r !in s.runs && Batch(s.store, limits) != []
    case Commit(r) => r in s.runs && s.runs[r].batch != []
    case Fail(r) => r in s.runs
  }

  /** The number of the last entry written. */
  function Last(ever: seq<Entry>): nat { if ever == [] then 0 else ever[|ever| - 1].cursor }

  function NewEntry(s: State, w: nat): Entry
    requires w in s.writers && s.writers[w].Numbered?
  {
    Entry(s.writers[w].cursor, s.writers[w].content, |s.ever|)
  }

  /** A step that cannot be taken changes nothing. */
  function Apply(s: State, step: Step, limits: Limits): State {
    if !Enabled(s, step, limits) then s
    else
      match step
      case TakeNumber(w, content) =>
        var number := Numbered(NextCursor(s.store), content, |s.ever|, Base(s.store) != Last(s.ever));
        s.(writers := s.writers[w := number], rewritten := false)
      case LogEntry(w) =>
        var e := NewEntry(s, w);
        s.(store := s.store.(log := s.store.log + [e]), ever := s.ever + [e],
           writers := s.writers[w := Logged(e.cursor)], rewritten := false)
      case LoseEntry(w) =>
        var e := NewEntry(s, w);
        s.(ever := s.ever + [e], lost := s.lost + {e}, writers := s.writers[w := Logged(e.cursor)])
      case RecordCursor(w) =>
        s.(store := s.store.(cursorFile := Some(s.writers[w].cursor)), writers := s.writers - {w}, rewritten := false)
      case GiveUp(w) => s.(writers := s.writers - {w}, rewritten := false)
      case ReadBatch(r) =>
        s.(runs := s.runs[r := Run(s.store.dream, Batch(s.store, limits), s.commits)], rewritten := false)
      case Commit(r) =>
        s.(store := Committed(s.store, s.runs[r].batch, limits), runs := s.runs - {r},
           rewritten := Excess(s.store.log, limits) > 0, taken := s.taken + s.runs[r].batch, commits := s.commits + 1)
      case Fail(r) => s.(runs := s.runs - {r}, rewritten := false)
  }

  function RunFrom(s: State, steps: seq<Step>, limits: Limits): State {
    if steps == [] then s else Apply(RunFrom(s, steps[..|steps| - 1], limits), steps[|steps| - 1], limits)
  }

  function RunAll(steps: seq<Step>, limits: Limits): State { RunFrom(INITIAL, steps, limits) }

  lemma RunSnoc(s: State, steps: seq<Step>, step: Step, limits: Limits)
    ensures RunFrom(s, steps + [step], limits) == Apply(RunFrom(s, steps, limits), step, limits)
  {
    assert (steps + [step])[..|steps|] == steps;
  }

  lemma {:induction false} RunConcat(s: State, a: seq<Step>, b: seq<Step>, limits: Limits)
    ensures RunFrom(s, a + b, limits) == RunFrom(RunFrom(s, a, limits), b, limits)
  {
    if b == [] {
      assert a + b == a;
    } else {
      FrontLast(b);
      RunConcat(s, a, b[..|b| - 1], limits);
      assert a + b == (a + b[..|b| - 1]) + [b[|b| - 1]];
      RunSnoc(s, a + b[..|b| - 1], b[|b| - 1], limits);
    }
  }

  /** An append with nothing in between is the sequential one. */
  lemma WholeAppend(s: State, w: nat, content: string, limits: Limits)
    requires w !in s.writers
    ensures
      var e := Entry(NextCursor(s.store), content, |s.ever|);
      RunFrom(s, [TakeNumber(w, content), LogEntry(w), RecordCursor(w)], limits)
      == s.(store := s.store.(log := s.store.log + [e], cursorFile := Some(e.cursor)), ever := s.ever + [e], rewritten := false)
  {
    var a, b, c := TakeNumber(w, content), LogEntry(w), RecordCursor(w);
    RunSnoc(s, [], a, limits);
    RunSnoc(s, [a], b, limits);
    RunSnoc(s, [a, b], c, limits);
    assert [] + [a] == [a] && [a] + [b] == [a, b] && [a, b] + [c] == [a, b, c];
    var end := RunFrom(s, [a, b, c], limits);
    assert end.writers == s.writers;
  }

  // ---------------------------------------------------------------------
  // What every step keeps
  // ---------------------------------------------------------------------

  ghost predicate Increasing(s: seq<Entry>) {
    forall i, j :: 0 <= i < j < |s| ==> s[i].cursor < s[j].cursor
  }

  ghost predicate NonDecreasing(s: seq<Entry>) {
    forall i, j :: 0 <= i < j < |s| ==> s[i].cursor <= s[j].cursor
  }

  /** In the order in which they were written. */
  ghost predicate Rising(s: seq<Entry>) {
    forall i, j :: 0 <= i < j < |s| ==> s[i].serial < s[j].serial
  }

  predicate Known(ever: seq<Entry>, e: Entry) {
    e.serial < |ever| && ever[e.serial] == e
  }

  ghost predicate AllKnown(ever: seq<Entry>, es: seq<Entry>) {
    forall e :: e in es ==> Known(ever, e)
  }

  ghost predicate EverFits(ever: seq<Entry>) {
    forall i :: 0 <= i < |ever| ==> ever[i].serial == i && ever[i].cursor > 0
  }

  /** Some entry has this number. */
  ghost predicate Given(ever: seq<Entry>, n: nat) {
    exists i :: 0 <= i < |ever| && ever[i].cursor == n
  }

  ghost predicate WriterFits(ever: seq<Entry>, writer: Writer) {
    match writer
    case Numbered(cursor, _, seen, lagged) =>
      && cursor > 0 && seen <= |ever|
      && (!lagged ==> cursor == Last(ever[..seen]) + 1)
      && (lagged && Increasing(ever[..seen]) ==> cursor <= Last(ever[..seen]))
    case Logged(cursor) => Given(ever, cursor)
  }

  ghost predicate WritersFit(ever: seq<Entry>, writers: map<nat, Writer>) {
    forall w :: w in writers ==> WriterFits(ever, writers[w])
  }

  /** A run that no commit has overtaken holds the beginning of what is still to
      be read. */
  predicate Fresh(run: Run, s: State) { run.seen == s.commits }

  ghost predicate RunFits(s: State, run: Run) {
    && run.batch != [] && Rising(run.batch) && AllKnown(s.ever, run.batch)
    && (forall e :: e in run.batch ==> e.cursor > run.since)
    && run.seen <= s.commits
    && (Fresh(run, s) ==> run.since == s.store.dream && run.batch <= Unread(s.store.log, s.store.dream))
  }

  ghost predicate RunsFit(s: State) {
    forall r :: r in s.runs ==> RunFits(s, s.runs[r])
  }

  ghost predicate Sound(s: State) {
    && EverFits(s.ever)
    && Rising(s.store.log) && AllKnown(s.ever, s.store.log) && AllKnown(s.ever, s.taken)
    && (s.store.cursorFile.Some? ==> Given(s.ever, s.store.cursorFile.value))
    && WritersFit(s.ever, s.writers)
    && RunsFit(s)
  }

  lemma KnownGrows(ever: seq<Entry>, e: Entry, es: seq<Entry>)
    requires AllKnown(ever, es)
    ensures AllKnown(ever + [e], es)
  {
  }

  lemma GivenGrows(ever: seq<Entry>, e: Entry, n: nat)
    requires Given(ever, n)
    ensures Given(ever + [e], n)
  {
    var i :| 0 <= i < |ever| && ever[i].cursor == n;
    assert (ever + [e])[i].cursor == n;
  }

  lemma WriterStays(ever: seq<Entry>, e: Entry, writer: Writer)
    requires WriterFits(ever, writer)
    ensures WriterFits(ever + [e], writer)
  {
    match writer
    case Numbered(_, _, seen, _) => assert (ever + [e])[..seen] == ever[..seen];
    case Logged(cursor) => GivenGrows(ever, e, cursor);
  }

  lemma {:induction false} UnreadRising(log: seq<Entry>, since: nat)
    requires Rising(log)
    ensures Rising(Unread(log, since))
  {
    if log != [] {
      var front, last := log[..|log| - 1], log[|log| - 1];
      var rest := Unread(front, since);
      UnreadRising(front, since);
      UnreadAre(front, since);
      forall i | 0 <= i < |rest| ensures rest[i].serial < last.serial {
        assert rest[i] in front;
      }
    }
  }

  lemma BatchIs(store: Store, limits: Limits)
    requires Rising(store.log)
    ensures Batch(store, limits) <= Unread(store.log, store.dream) && Rising(Batch(store, limits))
    ensures forall e :: e in Batch(store, limits) ==> e in store.log && e.cursor > store.dream
  {
    UnreadRising(store.log, store.dream);
    UnreadAre(store.log, store.dream);
    forall e | e in Batch(store, limits) ensures e in Unread(store.log, store.dream) {
    }
  }

  /** A number taken follows the last one, or else is not new. */
  lemma TakenNumber(s: State)
    requires Sound(s)
    ensures WriterFits(s.ever, Numbered(NextCursor(s.store), "", |s.ever|, Base(s.store) != Last(s.ever)))
  {
    assert s.ever[..|s.ever|] == s.ever;
    if Increasing(s.ever) && Base(s.store) != 0 {
      BaseIsGiven(s);
      var i :| 0 <= i < |s.ever| && s.ever[i].cursor == Base(s.store);
      assert i < |s.ever| - 1 ==> s.ever[i].cursor < s.ever[|s.ever| - 1].cursor;
    }
  }

  lemma BaseIsGiven(s: State)
    requires Sound(s) && Base(s.store) != 0
    ensures Given(s.ever, Base(s.store))
  {
    if s.store.cursorFile.None? {
      var last := s.store.log[|s.store.log| - 1];
      assert last in s.store.log && Known(s.ever, last);
    }
  }

  /** The runs under way do not mind one more entry. */
  lemma RunsWithEntry(s: State, s': State, e: Entry)
    requires RunsFit(s) && s'.ever == s.ever + [e] && s'.runs == s.runs && s'.commits == s.commits
    requires s'.store.dream == s.store.dream && (s'.store.log == s.store.log || s'.store.log == s.store.log + [e])
    ensures RunsFit(s')
  {
    UnreadSnoc(s.store.log, e, s.store.dream);
    forall r | r in s'.runs ensures RunFits(s', s'.runs[r]) {
      assert RunFits(s, s.runs[r]);
      KnownGrows(s.ever, e, s.runs[r].batch);
    }
  }

  lemma LogRises(ever: seq<Entry>, log: seq<Entry>, e: Entry)
    requires Rising(log) && AllKnown(ever, log) && e.serial == |ever|
    ensures Rising(log + [e]) && AllKnown(ever + [e], log + [e])
  {
    forall i | 0 <= i < |log| ensures log[i].serial < |ever| {
      assert log[i] in log;
    }
  }

  /** The entry is written, whether it stays in the log or not. */
  lemma OneWritten(s: State, s': State, w: nat)
    requires Sound(s) && w in s.writers && s.writers[w].Numbered?
    requires
      var e := NewEntry(s, w);
      && s'.ever == s.ever + [e] && s'.writers == s.writers[w := Logged(e.cursor)]
      && (s'.store.log == s.store.log || s'.store.log == s.store.log + [e])
    requires s'.store.dream == s.store.dream && s'.store.cursorFile == s.store.cursorFile
    requires s'.runs == s.runs && s'.commits == s.commits && s'.taken == s.taken
    ensures Sound(s')
  {
    var e := NewEntry(s, w);
    assert WriterFits(s.ever, s.writers[w]);
    LogRises(s.ever, s.store.log, e);
    KnownGrows(s.ever, e, s.store.log);
    KnownGrows(s.ever, e, s.taken);
    RunsWithEntry(s, s', e);
    if s.store.cursorFile.Some? {
      GivenGrows(s.ever, e, s.store.cursorFile.value);
    }
    forall v | v in s'.writers ensures WriterFits(s'.ever, s'.writers[v]) {
      if v == w {
        assert s'.ever[|s.ever|].cursor == e.cursor;
      } else {
        WriterStays(s.ever, e, s.writers[v]);
      }
    }
  }

  lemma DroppedRises(ever: seq<Entry>, log: seq<Entry>, n: nat)
    requires Rising(log) && AllKnown(ever, log) && n <= |log|
    ensures Rising(log[n..]) && AllKnown(ever, log[n..])
  {
    forall e | e in log[n..] ensures e in log {
    }
  }

  lemma OneCommitted(s: State, s': State, r: nat, limits: Limits)
    requires Sound(s) && r in s.runs && s.runs[r].batch != []
    requires s' == Apply(s, Commit(r), limits)
    ensures Sound(s')
  {
    assert RunFits(s, s.runs[r]);
    DroppedRises(s.ever, s.store.log, Excess(s.store.log, limits));
    forall q | q in s'.runs ensures RunFits(s', s'.runs[q]) {
      assert RunFits(s, s.runs[q]);
    }
  }

  lemma OneRead(s: State, r: nat, limits: Limits)
    requires Sound(s) && Enabled(s, ReadBatch(r), limits)
    ensures Sound(Apply(s, ReadBatch(r), limits))
  {
    var s' := Apply(s, ReadBatch(r), limits);
    BatchIs(s.store, limits);
    forall q | q in s'.runs ensures RunFits(s', s'.runs[q]) {
      if q != r {
        assert RunFits(s, s.runs[q]);
      }
    }
  }

  lemma OneRecorded(s: State, w: nat, limits: Limits)
    requires Sound(s) && Enabled(s, RecordCursor(w), limits)
    ensures Sound(Apply(s, RecordCursor(w), limits))
  {
    var s' := Apply(s, RecordCursor(w), limits);
    assert WriterFits(s.ever, s.writers[w]);
    SameFiles(s, s');
  }

  /** Nothing is written to the log and no cursor moves. */
  lemma SameFiles(s: State, s': State)
    requires Sound(s) && s'.ever == s.ever && s'.taken == s.taken && s'.commits == s.commits
    requires s'.store.log == s.store.log && s'.store.dream == s.store.dream
    requires s'.store.cursorFile.Some? ==> Given(s.ever, s'.store.cursorFile.value)
    requires WritersFit(s.ever, s'.writers)
    requires forall r :: r in s'.runs ==> r in s.runs && s'.runs[r] == s.runs[r]
    ensures Sound(s')
  {
    forall r | r in s'.runs ensures RunFits(s', s'.runs[r]) {
      assert RunFits(s, s.runs[r]);
    }
  }

  lemma StepKeeps(s: State, step: Step, limits: Limits)
    requires Sound(s)
    ensures Sound(Apply(s, step, limits))
  {
    if Enabled(s, step, limits) {
      var s' := Apply(s, step, limits);
      match step
      case TakeNumber(w, content) =>
        TakenNumber(s);
        SameFiles(s, s');
      case LogEntry(w) => OneWritten(s, s', w);
      case LoseEntry(w) => OneWritten(s, s', w);
      case RecordCursor(w) => OneRecorded(s, w, limits);
      case GiveUp(w) => SameFiles(s, s');
      case ReadBatch(r) => OneRead(s, r, limits);
      case Commit(r) => OneCommitted(s, s', r, limits);
      case Fail(r) => SameFiles(s, s');
    }
  }

  lemma {:induction false} RunSound(steps: seq<Step>, limits: Limits)
    ensures Sound(RunAll(steps, limits))
  {
    if steps != [] {
      RunSound(steps[..|steps| - 1], limits);
      StepKeeps(RunAll(steps[..|steps| - 1], limits), steps[|steps| - 1], limits);
    }
  }

  // ---------------------------------------------------------------------
  // Numbers
  // ---------------------------------------------------------------------

  predicate Writes(s: State, step: Step, limits: Limits) {
    (step.LogEntry? || step.LoseEntry?) && Enabled(s, step, limits)
  }

  /** The entry is written under a number that followed the last entry's, and
      nobody else wrote one since. */
  predicate Undisturbed(s: State, w: nat)
    requires w in s.writers && s.writers[w].Numbered?
  {
    s.writers[w].seen == |s.ever| && !s.writers[w].lagged
  }

  /** Step `k` of the run, if it writes an entry, does so undisturbed. */
  predicate CleanAt(steps: seq<Step>, limits: Limits, k: nat)
    requires k < |steps|
  {
    var s := RunAll(steps[..k], limits);
    Writes(s, steps[k], limits) ==> Undisturbed(s, steps[k].writer)
  }

  ghost predicate AllClean(steps: seq<Step>, limits: Limits, n: nat)
    requires n <= |steps|
  {
    forall k: nat :: k < n ==> CleanAt(steps, limits, k)
  }

  lemma IncreasingSnoc(ever: seq<Entry>, e: Entry)
    requires Increasing(ever) && e.cursor > 0
    ensures Increasing(ever + [e]) <==> e.cursor > Last(ever)
  {
    var all := ever + [e];
    if Increasing(all) && ever != [] {
      assert all[|ever| - 1].cursor < all[|ever|].cursor;
    }
  }

  lemma IncreasingFront(ever: seq<Entry>, ever': seq<Entry>)
    requires ever <= ever' && Increasing(ever')
    ensures Increasing(ever)
  {
    forall i, j | 0 <= i < j < |ever| ensures ever[i].cursor < ever[j].cursor {
      assert ever'[i] == ever[i] && ever'[j] == ever[j];
    }
  }

  /** The number is new exactly if the write is undisturbed. */
  lemma NewIff(s: State, w: nat)
    requires Sound(s) && w in s.writers && s.writers[w].Numbered? && Increasing(s.ever)
    ensures s.writers[w].cursor > Last(s.ever) <==> Undisturbed(s, w)
  {
    var seen := s.writers[w].seen;
    assert WriterFits(s.ever, s.writers[w]);
    assert s.ever[..|s.ever|] == s.ever;
    IncreasingFront(s.ever[..seen], s.ever);
    if 0 < seen < |s.ever| {
      assert s.ever[..seen][seen - 1] == s.ever[seen - 1];
    }
  }

  lemma NumberStep(s: State, step: Step, limits: Limits)
    requires Sound(s)
    ensures s.ever <= Apply(s, step, limits).ever
    ensures Increasing(Apply(s, step, limits).ever)
       <==> Increasing(s.ever) && (Writes(s, step, limits) ==> Undisturbed(s, step.writer))
  {
    var s' := Apply(s, step, limits);
    if Writes(s, step, limits) {
      assert WriterFits(s.ever, s.writers[step.writer]);
      if Increasing(s.ever) {
        NewIff(s, step.writer);
        IncreasingSnoc(s.ever, NewEntry(s, step.writer));
      } else if Increasing(s'.ever) {
        IncreasingFront(s.ever, s'.ever);
      }
    }
  }

  /** Over every run, with appends at the same time, failures and crashes: the
      numbers strictly increase if and only if every entry is written under a
      number taken when the cursor file held the last one's, with no other entry
      written since. */
  lemma {:induction false} NumbersIncreaseIff(steps: seq<Step>, limits: Limits)
    ensures Increasing(RunAll(steps, limits).ever) <==> AllClean(steps, limits, |steps|)
  {
    if steps != [] {
      var front, n := steps[..|steps| - 1], |steps| - 1;
      NumbersIncreaseIff(front, limits);
      RunSound(front, limits);
      NumberStep(RunAll(front, limits), steps[n], limits);
      CleanFront(steps, limits);
    }
  }

  lemma CleanFront(steps: seq<Step>, limits: Limits)
    requires steps != []
    ensures
      var n := |steps| - 1;
      AllClean(steps, limits, |steps|) <==> AllClean(steps[..n], limits, n) && CleanAt(steps, limits, n)
  {
    var n := |steps| - 1;
    forall k: nat | k < n ensures CleanAt(steps[..n], limits, k) <==> CleanAt(steps, limits, k) {
      assert steps[..n][..k] == steps[..k] && steps[..n][k] == steps[k];
    }
  }

  /** Appends come one at a time: none takes a number while another is under
      way. */
  ghost predicate OneAtATime(steps: seq<Step>, limits: Limits) {
    forall k: nat :: k < |steps| && steps[k].TakeNumber? ==> Alone(steps, limits, k)
  }

  predicate Alone(steps: seq<Step>, limits: Limits, k: nat)
    requires k < |steps|
  {
    RunAll(steps[..k], limits).writers == map[]
  }

  /** The file is at most one number behind, and the only append follows it. */
  ghost predicate Serial(s: State) {
    && NonDecreasing(s.ever)
    && Base(s.store) <= Last(s.ever) <= Base(s.store) + 1
    && (forall v, w :: v in s.writers && w in s.writers ==> v == w)
    && (forall w :: w in s.writers ==>
        s.writers[w].cursor == if s.writers[w].Numbered? then NextCursor(s.store) else Last(s.ever))
  }

  lemma NonDecreasingSnoc(ever: seq<Entry>, e: Entry)
    requires NonDecreasing(ever) && e.cursor >= Last(ever)
    ensures NonDecreasing(ever + [e])
  {
    if ever != [] {
      assert forall i :: 0 <= i < |ever| ==> ever[i].cursor <= ever[|ever| - 1].cursor;
    }
  }

  lemma CommitKeepsBase(store: Store, batch: seq<Entry>, limits: Limits)
    requires batch != []
    ensures Base(Committed(store, batch, limits)) == Base(store)
  {
  }

  lemma SerialStep(s: State, step: Step, limits: Limits)
    requires Serial(s) && (step.TakeNumber? ==> s.writers == map[])
    ensures Serial(Apply(s, step, limits))
  {
    if Enabled(s, step, limits) {
      match step
      case LogEntry(w) => NonDecreasingSnoc(s.ever, NewEntry(s, w));
      case LoseEntry(w) => NonDecreasingSnoc(s.ever, NewEntry(s, w));
      case Commit(r) => CommitKeepsBase(s.store, s.runs[r].batch, limits);
      case _ =>
    }
  }

  /** One append at a time, wherever it stops: numbers never fall. */
  lemma {:induction false} SerialNumbersNeverFall(steps: seq<Step>, limits: Limits)
    requires OneAtATime(steps, limits)
    ensures NonDecreasing(RunAll(steps, limits).ever) && Serial(RunAll(steps, limits))
  {
    if steps != [] {
      var n := |steps| - 1;
      assert Alone(steps, limits, n) || !steps[n].TakeNumber?;
      forall k: nat | k < n && steps[..n][k].TakeNumber? ensures Alone(steps[..n], limits, k) {
        assert steps[..n][..k] == steps[..k] && steps[..n][k] == steps[k];
        assert Alone(steps, limits, k);
      }
      SerialNumbersNeverFall(steps[..n], limits);
      SerialStep(RunAll(steps[..n], limits), steps[n], limits);
    }
  }
}
