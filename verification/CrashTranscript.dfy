// Which messages the saved transcript holds twice, over a run with crashes
// anywhere.
//
// A turn that does not append a user message of its own starts on messages the
// transcript already holds, and every checkpoint of it repeats them. Restoring
// such a turn merges them a second time; nothing else does.

module CrashTranscript {
  import opened Wrappers
  import opened Sequences
  import opened Json
  import opened Journal
  import opened Recovery
  import opened Pruning
  import opened ResumePlan
  import opened CrashProtocol
  import Checkpoint
  import LegalSuffix
  import Commits = CrashCommits

  function Parts(lines: seq<Line>): seq<Origin> {
    if lines == [] then [] else Parts(lines[..|lines| - 1]) + lines[|lines| - 1].parts
  }

  /** The lines say what the turn itself said, each message once. */
  ghost predicate OwnOnly(turn: string, lines: seq<Line>) {
    NoDuplicates(Parts(lines)) && forall o :: o in Parts(lines) ==> o.turn == turn
  }

  /** The later line is the earlier one again, or that one joined with more. */
  predicate Repeats(a: Line, b: Line) {
    a.parts != [] && a.parts <= b.parts && (a.parts == b.parts ==> a == b)
  }

  ghost predicate RepeatsSome(earlier: seq<Line>, lines: seq<Line>) {
    exists a, b :: a in earlier && b in lines && Repeats(a, b)
  }

  /** The lines say nothing but what the turn said and what was said before. */
  ghost predicate From(turn: string, lines: seq<Line>, earlier: seq<Line>) {
    forall o :: o in Parts(lines) ==> o.turn == turn || o in Parts(earlier)
  }

  /** Messages of the earlier lines again, perhaps with the turn's own. */
  ghost predicate Copied(turn: string, lines: seq<Line>, earlier: seq<Line>) {
    RepeatsSome(earlier, lines) && From(turn, lines, earlier)
  }

  /** A restored turn that did not append a user message of its own. */
  predicate Copies(c: Commit, heirs: set<string>) {
    c.restored && c.turn in heirs
  }

  ghost predicate CommitFits(commits: seq<Commit>, heirs: set<string>, j: nat)
    requires j < |commits|
  {
    var c := commits[j];
    if Copies(c, heirs) then Copied(c.turn, c.lines, Lines(commits[..j])) else OwnOnly(c.turn, c.lines)
  }

  ghost predicate CommitsFit(commits: seq<Commit>, heirs: set<string>) {
    forall j: nat :: j < |commits| ==> CommitFits(commits, heirs, j)
  }

  predicate Synthetic(o: Origin) { o.Synthesized? }

  ghost predicate Genuine(lines: seq<Line>) {
    forall o :: o in Parts(lines) ==> !Synthetic(o)
  }

  /** The journal's checkpoint and user message of a turn are those lines. */
  ghost predicate IsPayloadOf(payload: Value, lines: seq<Line>) {
    exists name :: payload == Checkpoint.Payload(name, Values(lines))
  }

  ghost predicate JournalTells(journal: seq<Entry>, turn: string, told: Told) {
    && FirstUserMessage(journal, turn) == (if told.user.Some? then Some(told.user.value.value) else None)
    && LatestCheckpoint(journal, turn).Some? == told.steps.Some?
    && (told.steps.Some? ==> IsPayloadOf(LatestCheckpoint(journal, turn).value, told.steps.value))
  }

  /** What a restore would start with: own messages, or old ones again. */
  ghost predicate ShownFits(turn: string, shown: seq<Line>, heirs: set<string>, disk: seq<Commit>) {
    && PartsFit(shown)
    && if turn in heirs then shown != [] ==> Copied(turn, shown, Lines(disk))
       else OwnOnly(turn, shown) && Genuine(shown)
  }

  ghost predicate TurnsFit(s: State) {
    forall t :: Commits.Open(s.journal, t) ==>
      JournalTells(s.journal, t, ToldOf(s, t)) && ShownFits(t, Shown(ToldOf(s, t)), s.heirs, s.disk)
  }

  /** The messages a turn saves when it finishes: its user message if it
      appended one, then what it produced. */
  predicate OwnShape(turn: string, own: seq<Line>) {
    forall i :: 0 <= i < |own| ==>
      own[i].parts == [Produced(turn, i)] || (i == 0 && own[i].parts == [Incoming(turn)])
  }

  ghost predicate InheritedFits(turn: string, inherited: seq<Line>, heirs: set<string>, disk: seq<Commit>) {
    && PartsFit(inherited)
    && if turn in heirs then Copied(turn, inherited, Lines(disk))
       else inherited == [] || (|inherited| == 1 && inherited[0].parts == [Prompt(turn)])
  }

  ghost predicate PhaseFits(s: State) {
    match s.phase
    case Running(turn, _, inherited, own, _) =>
      InheritedFits(turn, inherited, s.heirs, s.disk) && OwnShape(turn, own)
    case Finished(turn, _, own) => OwnShape(turn, own)
    case _ => true
  }

  ghost predicate PartsFit(lines: seq<Line>) {
    forall l :: l in lines ==> l.parts != []
  }

  ghost predicate Invariant(s: State) {
    && Commits.Invariant(s)
    && CommitsFit(s.cache, s.heirs)
    && PartsFit(Lines(s.cache))
    && TurnsFit(s)
    && PhaseFits(s)
    && (forall t :: t in s.heirs ==> t in s.used)
    && (forall t :: t !in s.used ==> LatestCheckpoint(s.journal, t).None?)
  }

  // ---------------------------------------------------------------------
  // Lines
  // ---------------------------------------------------------------------

  lemma PartsSnoc(lines: seq<Line>, l: Line)
    ensures Parts(lines + [l]) == Parts(lines) + l.parts
  {
    assert (lines + [l])[..|lines|] == lines;
  }

  lemma PartsOne(l: Line)
    ensures Parts([l]) == l.parts
  {
    assert [l] == [] + [l];
    PartsSnoc([], l);
  }

  lemma LinesSnoc(commits: seq<Commit>, c: Commit)
    ensures Lines(commits + [c]) == Lines(commits) + c.lines
  {
    assert (commits + [c])[..|commits|] == commits;
  }

  lemma {:induction false} LinesPrefix(a: seq<Commit>, b: seq<Commit>)
    requires a <= b
    ensures Lines(a) <= Lines(b)
    decreases |b|
  {
    if a == b {
    } else {
      assert a <= b[..|b| - 1];
      LinesPrefix(a, b[..|b| - 1]);
    }
  }

  lemma {:induction false} PartsHold(lines: seq<Line>, l: Line, o: Origin)
    requires l in lines && o in l.parts
    ensures o in Parts(lines)
  {
    var last := lines[|lines| - 1];
    if l != last {
      FrontLast(lines);
      PartsHold(lines[..|lines| - 1], l, o);
    }
  }

  lemma RepeatsMore(earlier: seq<Line>, earlier': seq<Line>, lines: seq<Line>, lines': seq<Line>)
    requires RepeatsSome(earlier, lines) && earlier <= earlier' && lines <= lines'
    ensures RepeatsSome(earlier', lines')
  {
    var a, b :| a in earlier && b in lines && Repeats(a, b);
    assert a in earlier' && b in lines';
  }

  predicate LineFrom(turn: string, l: Line, earlier: seq<Line>) {
    forall o :: o in l.parts ==> o.turn == turn || o in Parts(earlier)
  }

  lemma {:induction false} LinesFrom(turn: string, lines: seq<Line>, earlier: seq<Line>)
    requires forall l :: l in lines ==> LineFrom(turn, l, earlier)
    ensures From(turn, lines, earlier)
  {
    if lines != [] {
      FrontLast(lines);
      var front, last := lines[..|lines| - 1], lines[|lines| - 1];
      forall l | l in front ensures LineFrom(turn, l, earlier) {
        assert l in lines;
      }
      LinesFrom(turn, front, earlier);
      assert LineFrom(turn, last, earlier);
    }
  }

  lemma OldLine(turn: string, l: Line, earlier: seq<Line>)
    requires l in earlier
    ensures LineFrom(turn, l, earlier)
  {
    forall o | o in l.parts ensures o in Parts(earlier) {
      PartsHold(earlier, l, o);
    }
  }

  /** Copied lines with own ones behind them, and more to have copied from. */
  lemma CopiedMore(turn: string, lines: seq<Line>, own: seq<Line>, earlier: seq<Line>, earlier': seq<Line>)
    requires Copied(turn, lines, earlier) && earlier <= earlier'
    requires forall o :: o in Parts(own) ==> o.turn == turn
    ensures Copied(turn, lines + own, earlier')
  {
    RepeatsMore(earlier, earlier', lines, lines + own);
    PartsConcat(lines, own);
    assert earlier' == earlier + earlier'[|earlier|..];
    PartsConcat(earlier, earlier'[|earlier|..]);
  }

  lemma {:induction false} ShapeParts(turn: string, own: seq<Line>)
    requires OwnShape(turn, own)
    ensures |Parts(own)| == |own| && forall i :: 0 <= i < |own| ==> own[i].parts == [Parts(own)[i]]
  {
    if own != [] {
      ShapeParts(turn, own[..|own| - 1]);
    }
  }

  lemma ShapeIsOwn(turn: string, own: seq<Line>)
    requires OwnShape(turn, own)
    ensures OwnOnly(turn, own) && Genuine(own)
    ensures Prompt(turn) !in Parts(own)
  {
    ShapeParts(turn, own);
    var parts := Parts(own);
    forall i | 0 <= i < |parts|
      ensures parts[i] == Produced(turn, i) || (i == 0 && parts[i] == Incoming(turn))
    {
      assert own[i].parts == [parts[i]];
    }
  }

  lemma {:induction false} PartsConcat(a: seq<Line>, b: seq<Line>)
    ensures Parts(a + b) == Parts(a) + Parts(b)
  {
    if b == [] {
      assert a + b == a;
    } else {
      FrontLast(b);
      var front, last := b[..|b| - 1], b[|b| - 1];
      PartsConcat(a, front);
      assert a + b == (a + front) + [last];
      PartsSnoc(a + front, last);
    }
  }

  /** Opening messages and own ones together, for a turn that is no heir. */
  lemma OpeningIsOwn(turn: string, inherited: seq<Line>, own: seq<Line>)
    requires OwnShape(turn, own)
    requires inherited == [] || (|inherited| == 1 && inherited[0].parts == [Prompt(turn)])
    ensures OwnOnly(turn, inherited + own) && Genuine(inherited + own)
  {
    ShapeIsOwn(turn, own);
    PartsConcat(inherited, own);
    if inherited != [] {
      PartsOne(inherited[0]);
      assert inherited == [inherited[0]];
    }
  }

  /** What a checkpoint of the running turn shows. */
  lemma CheckpointShows(turn: string, inherited: seq<Line>, own: seq<Line>, heirs: set<string>, disk: seq<Commit>)
    requires InheritedFits(turn, inherited, heirs, disk) && OwnShape(turn, own)
    ensures ShownFits(turn, inherited + own, heirs, disk)
  {
    forall l | l in own ensures l.parts != [] {
      var i :| 0 <= i < |own| && own[i] == l;
    }
    if turn in heirs {
      ShapeIsOwn(turn, own);
      CopiedMore(turn, inherited, own, Lines(disk), Lines(disk));
    } else {
      OpeningIsOwn(turn, inherited, own);
    }
  }

  // ---------------------------------------------------------------------
  // What a restore merges
  // ---------------------------------------------------------------------

  /** The restored messages start with the journaled lines, and are nothing if
      there are none. */
  lemma RestoredIs(journal: seq<Entry>, turn: string, told: Told, ts: string)
    requires JournalTells(journal, turn, told)
    ensures Values(Shown(told)) <= TurnMessagesForRestore(journal, turn, ts)
    ensures Shown(told) == [] ==> TurnMessagesForRestore(journal, turn, ts) == []
  {
    if told.steps.Some? {
      var lines := told.steps.value;
      var name :| LatestCheckpoint(journal, turn).value == Checkpoint.Payload(name, Values(lines));
      Checkpoint.RoundTrip(name, Values(lines), Resolver(CallStates(journal), turn), ts);
      if lines == [] {
        assert Checkpoint.LastRequest(Values(lines)).None?;
        assert Checkpoint.PendingCalls(Values(lines)) == [];
      }
    }
  }

  predicate Answers(turn: string, extra: seq<Line>) {
    forall i :: 0 <= i < |extra| ==> extra[i].parts == [Synthesized(turn, i)]
  }

  lemma LabelledIs(messages: seq<Value>, shown: seq<Line>, turn: string)
    requires Values(shown) <= messages
    ensures
      var lines := Labelled(messages, shown, turn);
      shown <= lines && Answers(turn, lines[|shown|..])
  {
    var lines := Labelled(messages, shown, turn);
    assert |Values(shown)| == |shown| <= |messages|;
    forall i | 0 <= i < |shown| ensures lines[i] == shown[i] {
      assert Values(shown)[i] == messages[i];
    }
  }

  lemma {:induction false} AnswerParts(turn: string, extra: seq<Line>)
    requires Answers(turn, extra)
    ensures |Parts(extra)| == |extra| && forall i :: 0 <= i < |extra| ==> Parts(extra)[i] == Synthesized(turn, i)
  {
    if extra != [] {
      AnswerParts(turn, extra[..|extra| - 1]);
    }
  }

  lemma AnsweredIsOwn(turn: string, shown: seq<Line>, extra: seq<Line>)
    requires OwnOnly(turn, shown) && Genuine(shown) && Answers(turn, extra)
    ensures OwnOnly(turn, shown + extra)
  {
    PartsConcat(shown, extra);
    AnswerParts(turn, extra);
    var a, b := Parts(shown), Parts(extra);
    forall i, j | 0 <= i < j < |a + b| ensures (a + b)[i] != (a + b)[j] {
      if i < |a| <= j {
        assert a[i] in a && !Synthetic(a[i]);
      }
    }
  }

  /** A merged turn says its own messages, or, as an heir, old ones again. */
  ghost predicate MergeFits(turn: string, lines: seq<Line>, heirs: set<string>, cache: seq<Commit>) {
    && PartsFit(lines)
    && (turn !in heirs ==> OwnOnly(turn, lines))
    && (turn in heirs && lines != [] ==> Copied(turn, lines, Lines(cache)))
  }

  lemma MergedFits(turn: string, shown: seq<Line>, messages: seq<Value>, heirs: set<string>,
                   disk: seq<Commit>, cache: seq<Commit>)
    requires Values(shown) <= messages && (shown == [] ==> messages == [])
    requires ShownFits(turn, shown, heirs, disk) && disk <= cache
    ensures MergeFits(turn, Labelled(messages, shown, turn), heirs, cache)
  {
    var lines := Labelled(messages, shown, turn);
    LabelledIs(messages, shown, turn);
    var extra := lines[|shown|..];
    assert lines == shown + extra;
    forall l | l in extra ensures l.parts != [] {
      var i :| 0 <= i < |extra| && extra[i] == l;
    }
    if turn !in heirs {
      AnsweredIsOwn(turn, shown, extra);
    } else if lines != [] {
      LinesPrefix(disk, cache);
      AnswerParts(turn, extra);
      CopiedMore(turn, shown, extra, Lines(disk), Lines(cache));
    }
  }

  /** What a restore pass merges of its first pending turn. */
  lemma PendingFits(s: State, turn: string, ts: string)
    requires TurnsFit(s) && Commits.Open(s.journal, turn) && s.disk <= s.cache
    ensures MergeFits(turn, RestoredLines(s, turn, ts), s.heirs, s.cache)
  {
    var told := ToldOf(s, turn);
    RestoredIs(s.journal, turn, told, ts);
    MergedFits(turn, Shown(told), TurnMessagesForRestore(s.journal, turn, ts), s.heirs, s.disk, s.cache);
  }

  // ---------------------------------------------------------------------
  // Every step keeps the invariant
  // ---------------------------------------------------------------------

  lemma CommitsGrow(commits: seq<Commit>, c: Commit, heirs: set<string>)
    requires CommitsFit(commits, heirs)
    requires if Copies(c, heirs) then Copied(c.turn, c.lines, Lines(commits)) else OwnOnly(c.turn, c.lines)
    ensures CommitsFit(commits + [c], heirs)
  {
    var all := commits + [c];
    forall j: nat | j < |all| ensures CommitFits(all, heirs, j) {
      if j < |commits| {
        assert CommitFits(commits, heirs, j) && all[..j] == commits[..j];
      } else {
        assert all[..j] == commits;
      }
    }
  }

  lemma CommitsPrefix(commits: seq<Commit>, front: seq<Commit>, heirs: set<string>)
    requires CommitsFit(commits, heirs) && front <= commits
    ensures CommitsFit(front, heirs)
  {
    forall j: nat | j < |front| ensures CommitFits(front, heirs, j) {
      assert CommitFits(commits, heirs, j) && front[..j] == commits[..j];
    }
  }

  lemma ViewsSnoc(journal: seq<Entry>, e: Entry, turn: string)
    ensures LatestCheckpoint(journal + [e], turn)
         == if e.record.StepCheckpoint? && e.record.turnId == turn then Some(e.record.payload)
            else LatestCheckpoint(journal, turn)
    ensures !Starts(e.record, turn) ==> FirstUserMessage(journal + [e], turn) == FirstUserMessage(journal, turn)
    ensures !Started(journal, turn) && Starts(e.record, turn) ==>
      FirstUserMessage(journal + [e], turn) == e.record.userMessage
  {
    assert (journal + [e])[..|journal|] == journal;
    if !Started(journal, turn) {
      NothingBeforeStart(journal, turn);
    }
  }

  lemma {:induction false} NothingBeforeStart(journal: seq<Entry>, turn: string)
    requires !Started(journal, turn)
    ensures FirstUserMessage(journal, turn).None?
  {
    if journal != [] {
      FrontLast(journal);
      assert journal[|journal| - 1] in journal;
      assert forall e :: e in journal[..|journal| - 1] ==> e in journal;
      NothingBeforeStart(journal[..|journal| - 1], turn);
    }
  }

  lemma ShownGrows(turn: string, shown: seq<Line>, heirs: set<string>, disk: seq<Commit>, disk': seq<Commit>)
    requires ShownFits(turn, shown, heirs, disk) && disk <= disk'
    ensures ShownFits(turn, shown, heirs, disk')
  {
    LinesPrefix(disk, disk');
    if turn in heirs && shown != [] {
      assert shown + [] == shown;
      CopiedMore(turn, shown, [], Lines(disk), Lines(disk'));
    }
  }

  /** A record that is no checkpoint and no start tells nothing new. */
  lemma TurnsKept(s: State, s': State, e: Entry)
    requires TurnsFit(s) && s'.journal == s.journal + [e] && !e.record.StepCheckpoint? && !e.record.TurnStart?
    requires s'.told == s.told && s'.heirs == s.heirs && s.disk <= s'.disk
    ensures TurnsFit(s')
  {
    Commits.RecordAdded(s, s', e);
    forall t | Commits.Open(s'.journal, t)
      ensures JournalTells(s'.journal, t, ToldOf(s', t)) && ShownFits(t, Shown(ToldOf(s', t)), s'.heirs, s'.disk)
    {
      assert Commits.Open(s.journal, t);
      ViewsSnoc(s.journal, e, t);
      ShownGrows(t, Shown(ToldOf(s, t)), s.heirs, s.disk, s'.disk);
    }
  }

  lemma TurnsStill(s: State, s': State)
    requires TurnsFit(s) && s'.journal == s.journal
    requires s'.told == s.told && s'.heirs == s.heirs && s.disk <= s'.disk
    ensures TurnsFit(s')
  {
    forall t | Commits.Open(s'.journal, t)
      ensures JournalTells(s'.journal, t, ToldOf(s', t)) && ShownFits(t, Shown(ToldOf(s', t)), s'.heirs, s'.disk)
    {
      ShownGrows(t, Shown(ToldOf(s, t)), s.heirs, s.disk, s'.disk);
    }
  }

  lemma CacheWithMerged(cache: seq<Commit>, turn: string, lines: seq<Line>, heirs: set<string>)
    requires CommitsFit(cache, heirs) && PartsFit(Lines(cache))
    requires lines != [] && MergeFits(turn, lines, heirs, cache)
    ensures CommitsFit(cache + [Commit(turn, lines, true)], heirs)
    ensures PartsFit(Lines(cache + [Commit(turn, lines, true)]))
  {
    CommitsGrow(cache, Commit(turn, lines, true), heirs);
    LinesSnoc(cache, Commit(turn, lines, true));
  }

  lemma OneRestored(s: State, s': State, e: Entry, turn: string, lines: seq<Line>)
    requires Invariant(s) && MergeFits(turn, lines, s.heirs, s.cache)
    requires Commits.Invariant(s') && s'.phase.Restoring?
    requires s'.journal == s.journal + [e] && e.record == TurnRestored(turn)
    requires s'.disk == s.disk && s'.used == s.used && s'.told == s.told && s'.heirs == s.heirs
    requires s'.cache == if lines == [] then s.cache else s.cache + [Commit(turn, lines, true)]
    ensures Invariant(s')
  {
    TurnsKept(s, s', e);
    UnusedTold(s, s', e);
    if lines != [] {
      CacheWithMerged(s.cache, turn, lines, s.heirs);
    }
  }

  lemma UnusedTold(s: State, s': State, e: Entry)
    requires Invariant(s) && s'.journal == s.journal + [e] && s.used.Keys <= s'.used.Keys
    requires e.record.StepCheckpoint? ==> e.record.turnId in s'.used
    ensures forall t :: t !in s'.used ==> LatestCheckpoint(s'.journal, t).None?
  {
    forall t | t !in s'.used ensures LatestCheckpoint(s'.journal, t).None? {
      ViewsSnoc(s.journal, e, t);
    }
  }

  /** Opening messages come from the history and the turn itself. */
  lemma OpeningFrom(turn: string, history: seq<Line>, next: Next, joined: Value, prompt: Value)
    ensures forall l :: l in Inherited(turn, history, next, joined, prompt) ==> LineFrom(turn, l, history)
  {
    forall l | l in Inherited(turn, history, next, joined, prompt) ensures LineFrom(turn, l, history) {
      if Merges(history, next) {
        OldLine(turn, history[|history| - 1], history);
      } else if l in history {
        OldLine(turn, l, history);
      } else {
        assert l == Line(prompt, [Prompt(turn)]);
      }
    }
  }

  /** A turn's opening: its own message, or messages of the transcript. */
  lemma OpeningFits(turn: string, history: seq<Line>, next: Next, message: Value, joined: Value, prompt: Value,
                    heirs: set<string>, disk: seq<Commit>)
    requires history == Lines(disk) && PartsFit(history) && HasRole(message, User) && HasRole(prompt, System)
    requires turn in heirs <==> history != [] && OwnOpening(turn, history, next, message) == []
    ensures
      var inherited, own := Inherited(turn, history, next, joined, prompt), OwnOpening(turn, history, next, message);
      InheritedFits(turn, inherited, heirs, disk) && OwnShape(turn, own)
  {
    var inherited, own := Inherited(turn, history, next, joined, prompt), OwnOpening(turn, history, next, message);
    OpeningFrom(turn, history, next, joined, prompt);
    LinesFrom(turn, inherited, history);
    if Merges(history, next) {
      var a, b := history[|history| - 1], inherited[0];
      assert a in history && b in inherited && Repeats(a, b);
    } else if next.Successor? && history != [] {
      LegalSuffix.LastUserIs(Values(history), |history|);
      var user := LegalSuffix.LastUser(Values(history), |history|);
      var a := if user.Some? then history[user.value] else history[0];
      assert a in history && Repeats(a, a);
      assert if user.Some? then inherited[0] == a else inherited[1] == a;
      forall l | l in inherited ensures l.parts != [] {
        assert user.Some? ==> l in history;
      }
    } else if next.Successor? {
      assert Values(history) == [];
    }
  }

  /** The user message of an heir is one the transcript holds. */
  lemma HeirUserLine(turn: string, history: seq<Line>, next: Next, message: Value, joined: Value, prompt: Value, disk: seq<Commit>)
    requires history == Lines(disk) && PartsFit(history) && history != [] && HasRole(prompt, System)
    requires OwnOpening(turn, history, next, message) == []
    requires UserLine(Inherited(turn, history, next, joined, prompt)).Some?
    ensures Copied(turn, [Inherited(turn, history, next, joined, prompt)[0]], Lines(disk))
  {
    var inherited := Inherited(turn, history, next, joined, prompt);
    var b := [inherited[0]];
    OpeningFrom(turn, history, next, joined, prompt);
    LinesFrom(turn, b, history);
    if Merges(history, next) {
      var a := history[|history| - 1];
      assert a in history && inherited[0] in b && Repeats(a, inherited[0]);
    } else {
      LegalSuffix.LastUserIs(Values(history), |history|);
      assert inherited[0] in history && inherited[0] in b && Repeats(inherited[0], inherited[0]);
    }
  }

  lemma SingleIsOwn(turn: string, l: Line, o: Origin)
    requires l.parts == [o] && o.turn == turn && !Synthetic(o)
    ensures OwnOnly(turn, [l]) && Genuine([l]) && PartsFit([l])
  {
    PartsOne(l);
  }

  /** The user message that the start record journals. */
  lemma UserLineFits(turn: string, history: seq<Line>, next: Next, message: Value, joined: Value, prompt: Value,
                     heirs: set<string>, disk: seq<Commit>)
    requires history == Lines(disk) && PartsFit(history) && HasRole(message, User) && HasRole(prompt, System)
    requires turn in heirs <==> history != [] && OwnOpening(turn, history, next, message) == []
    ensures
      var opening := Inherited(turn, history, next, joined, prompt) + OwnOpening(turn, history, next, message);
      ShownFits(turn, Shown(Told(UserLine(opening), None)), heirs, disk)
  {
    var inherited, own := Inherited(turn, history, next, joined, prompt), OwnOpening(turn, history, next, message);
    var user := UserLine(inherited + own);
    OpeningFits(turn, history, next, message, joined, prompt, heirs, disk);
    if user.Some? {
      if turn in heirs {
        assert inherited + own == inherited;
        HeirUserLine(turn, history, next, message, joined, prompt, disk);
      } else if inherited == [] {
        assert inherited + own == own;
        SingleIsOwn(turn, user.value, Incoming(turn));
      }
    }
  }

  /** Commits of turns that started earlier do not mind a new heir. */
  lemma HeirsGrow(commits: seq<Commit>, heirs: set<string>, heirs': set<string>, turn: string)
    requires CommitsFit(commits, heirs) && heirs <= heirs' <= heirs + {turn}
    requires forall c :: c in commits ==> c.turn != turn
    ensures CommitsFit(commits, heirs')
  {
    forall j: nat | j < |commits| ensures CommitFits(commits, heirs', j) {
      assert CommitFits(commits, heirs, j) && commits[j] in commits;
    }
  }

  /** A new turn tells its user message, the others what they told. */
  lemma TurnsWithNew(s: State, s': State, e: Entry, id: string, user: Option<Line>)
    requires Invariant(s) && id !in s.used && s'.journal == s.journal + [e] && Starts(e.record, id)
    requires e.record.userMessage == (if user.Some? then Some(user.value.value) else None)
    requires s'.told == s.told[id := Told(user, None)] && s'.disk == s.disk
    requires s.heirs <= s'.heirs <= s.heirs + {id}
    requires ShownFits(id, Shown(Told(user, None)), s'.heirs, s'.disk)
    ensures TurnsFit(s')
  {
    Commits.RecordAdded(s, s', e);
    forall t | Commits.Open(s'.journal, t)
      ensures JournalTells(s'.journal, t, ToldOf(s', t)) && ShownFits(t, Shown(ToldOf(s', t)), s'.heirs, s'.disk)
    {
      ViewsSnoc(s.journal, e, t);
      if t != id {
        assert Commits.Open(s.journal, t);
      } else {
        assert !Started(s.journal, id);
      }
    }
  }

  lemma OneStarted(s: State, s': State, e: Entry, id: string, message: Value, joined: Value, prompt: Value)
    requires Invariant(s) && s.phase.Restored? && id !in s.used && HasRole(message, User) && HasRole(prompt, System)
    requires Commits.Invariant(s') && s'.journal == s.journal + [e] && Starts(e.record, id)
    requires s'.disk == s.disk && s'.cache == s.cache && s'.used.Keys == s.used.Keys + {id}
    requires
      var next, history := s.phase.next, Lines(s.phase.snapshot);
      var inherited, own := Inherited(id, history, next, joined, prompt), OwnOpening(id, history, next, message);
      var user := UserLine(inherited + own);
      && e.record.userMessage == (if user.Some? then Some(user.value.value) else None)
      && s'.phase == Running(id, s.phase.snapshot, inherited, own, [])
      && s'.told == s.told[id := Told(user, None)]
      && s'.heirs == if history != [] && own == [] then s.heirs + {id} else s.heirs
    ensures Invariant(s')
  {
    var next, history := s.phase.next, Lines(s.phase.snapshot);
    var inherited, own := Inherited(id, history, next, joined, prompt), OwnOpening(id, history, next, message);
    assert s.phase.snapshot == s.disk;
    assert id !in s.heirs;
    OpeningFits(id, history, next, message, joined, prompt, s'.heirs, s.disk);
    UserLineFits(id, history, next, message, joined, prompt, s'.heirs, s.disk);
    TurnsWithNew(s, s', e, id, UserLine(inherited + own));
    HeirsGrow(s.cache, s.heirs, s'.heirs, id);
    UnusedTold(s, s', e);
  }

  /** A checkpoint tells the opening messages and the own ones so far. */
  lemma OneCheckpoint(s: State, s': State, e: Entry, name: string)
    requires Invariant(s) && s.phase.Running? && Commits.Invariant(s')
    requires s'.journal == s.journal + [e] && s'.phase == s.phase
    requires s'.disk == s.disk && s'.cache == s.cache && s'.used == s.used && s'.heirs == s.heirs
    requires
      var turn, lines := s.phase.turn, s.phase.inherited + s.phase.own;
      && e.record.StepCheckpoint? && e.record.turnId == turn
      && e.record.payload == Checkpoint.Payload(name, Values(lines))
      && s'.told == s.told[turn := Told(ToldOf(s, turn).user, Some(lines))]
    ensures Invariant(s')
  {
    var turn, lines := s.phase.turn, s.phase.inherited + s.phase.own;
    Commits.RecordAdded(s, s', e);
    CheckpointShows(turn, s.phase.inherited, s.phase.own, s.heirs, s.disk);
    forall t | Commits.Open(s'.journal, t)
      ensures JournalTells(s'.journal, t, ToldOf(s', t)) && ShownFits(t, Shown(ToldOf(s', t)), s'.heirs, s'.disk)
    {
      assert Commits.Open(s.journal, t);
      ViewsSnoc(s.journal, e, t);
      assert IsPayloadOf(e.record.payload, lines);
    }
    assert turn in s.used;
    UnusedTold(s, s', e);
  }

  /** A turn that finished saves what it said. */
  lemma OnePersisted(s: State, s': State)
    requires Invariant(s) && s.phase.Finished? && Commits.Invariant(s')
    requires s'.journal == s.journal && s'.told == s.told && s'.heirs == s.heirs && s'.used == s.used
    requires s'.cache == s'.disk == s.cache + [Commit(s.phase.turn, s.phase.own, false)] && s'.phase.Idle?
    ensures Invariant(s')
  {
    var c := Commit(s.phase.turn, s.phase.own, false);
    ShapeIsOwn(c.turn, c.lines);
    CommitsGrow(s.cache, c, s.heirs);
    LinesSnoc(s.cache, c);
    forall l | l in c.lines ensures l.parts != [] {
      var i :| 0 <= i < |c.lines| && c.lines[i] == l;
    }
    TurnsStill(s, s');
  }

  lemma {:induction false} NoCheckpointKept(journal: seq<Entry>, open: set<string>, turn: string)
    requires LatestCheckpoint(journal, turn).None?
    ensures LatestCheckpoint(Filter(journal, Keeper(open)), turn).None?
  {
    if journal != [] {
      NoCheckpointKept(journal[..|journal| - 1], open, turn);
      FilterTakes(journal, open);
    }
  }

  /** When a finished turn prunes the journal, no turn is open. */
  lemma OnePruned(s: State, s': State)
    requires Invariant(s) && s.phase.Finished? && Commits.Invariant(s')
    requires s'.journal == Prune(s.journal) && s'.phase == s.phase && s'.used == s.used
    requires s'.told == s.told && s'.heirs == s.heirs && s'.cache == s.cache && s'.disk == s.disk
    ensures Invariant(s')
  {
    forall t | t !in s'.used ensures LatestCheckpoint(s'.journal, t).None? {
      NoCheckpointKept(s.journal, OpenTurnIds(s.journal), t);
    }
  }

  /** Nothing is journaled and nothing is told; the saved transcript may catch
      up with the cached one, or the cached one fall back to it. */
  lemma NothingTold(s: State, s': State)
    requires Invariant(s) && Commits.Invariant(s')
    requires s'.journal == s.journal && s'.told == s.told && s'.heirs == s.heirs && s'.used == s.used
    requires s.disk <= s'.disk && s'.cache <= s.cache
    requires PhaseFits(s')
    ensures Invariant(s')
  {
    TurnsStill(s, s');
    CommitsPrefix(s.cache, s'.cache, s.heirs);
    LinesPrefix(s'.cache, s.cache);
  }

  /** A record about a call or an end leaves what is told as it is. */
  lemma OtherRecord(s: State, s': State, e: Entry)
    requires Invariant(s) && Commits.Invariant(s')
    requires s'.journal == s.journal + [e] && !e.record.StepCheckpoint? && !e.record.TurnStart?
    requires s'.told == s.told && s'.heirs == s.heirs && s'.used == s.used
    requires s'.disk == s.disk && s'.cache == s.cache
    requires PhaseFits(s')
    ensures Invariant(s')
  {
    TurnsKept(s, s', e);
    UnusedTold(s, s', e);
  }

  // ---------------------------------------------------------------------
  // Steps
  // ---------------------------------------------------------------------

  predicate IsQuiet(step: Step) {
    Commits.IsSilent(step) || step.EndReplay? || step.BeginTurn? || step.SaveRestored?
  }

  /** Such a step journals nothing and tells nothing. */
  lemma QuietJournals(s: State, step: Step, policy: Policy)
    requires Enabled(s, step) && IsQuiet(step)
    ensures Apply(s, step, policy).journal == s.journal
  {
  }

  lemma QuietStarts(s: State, step: Step, policy: Policy)
    requires Enabled(s, step) && IsQuiet(step)
    ensures Apply(s, step, policy).used == s.used
  {
  }

  lemma QuietTells(s: State, step: Step, policy: Policy)
    requires Enabled(s, step) && IsQuiet(step)
    ensures Apply(s, step, policy).told == s.told
  {
  }

  lemma QuietHeirs(s: State, step: Step, policy: Policy)
    requires Enabled(s, step) && IsQuiet(step)
    ensures Apply(s, step, policy).heirs == s.heirs
  {
  }

  predicate IsSync(step: Step) {
    step.SaveRestored? || step.SaveSession? || step.Crash?
  }

  lemma SyncIs(s: State, step: Step, policy: Policy)
    requires Commits.Invariant(s) && Enabled(s, step) && IsSync(step)
    ensures s.disk <= Apply(s, step, policy).disk && Apply(s, step, policy).cache <= s.cache
  {
  }

  lemma UnsyncIs(s: State, step: Step, policy: Policy)
    requires Enabled(s, step) && IsQuiet(step) && !IsSync(step)
    ensures Apply(s, step, policy).disk == s.disk && Apply(s, step, policy).cache == s.cache
  {
  }

  /** The two transcripts only catch up or fall back. */
  lemma QuietSaves(s: State, step: Step, policy: Policy)
    requires Commits.Invariant(s) && Enabled(s, step) && IsQuiet(step)
    ensures s.disk <= Apply(s, step, policy).disk && Apply(s, step, policy).cache <= s.cache
  {
    if IsSync(step) {
      SyncIs(s, step, policy);
    } else {
      UnsyncIs(s, step, policy);
    }
  }

  lemma SaidFits(turn: string, own: seq<Line>, l: Line)
    requires OwnShape(turn, own) && l.parts == [Produced(turn, |own|)]
    ensures OwnShape(turn, own + [l])
  {
  }

  lemma QuietPhase(s: State, step: Step, policy: Policy)
    requires Invariant(s) && Enabled(s, step) && IsQuiet(step)
    ensures PhaseFits(Apply(s, step, policy))
  {
    if step.Say? {
      SaidFits(s.phase.turn, s.phase.own, Line(step.message, [Produced(s.phase.turn, |s.phase.own|)]));
    }
  }

  lemma QuietStep(s: State, step: Step, policy: Policy)
    requires Invariant(s) && Enabled(s, step) && IsQuiet(step)
    ensures Invariant(Apply(s, step, policy))
  {
    Commits.StepKeeps(s, step, policy);
    QuietJournals(s, step, policy);
    QuietStarts(s, step, policy);
    QuietTells(s, step, policy);
    QuietHeirs(s, step, policy);
    QuietSaves(s, step, policy);
    QuietPhase(s, step, policy);
    NothingTold(s, Apply(s, step, policy));
  }

  predicate IsOtherRecord(step: Step) {
    step.EndTurn? || (Commits.IsNeutralRecord(step) && !step.TakeCheckpoint?)
  }

  /** Such a step journals one record about a call or an end. */
  lemma OtherRecordIs(s: State, step: Step, policy: Policy)
    requires Enabled(s, step) && IsOtherRecord(step)
    ensures
      var journal := Apply(s, step, policy).journal;
      && |journal| == |s.journal| + 1 && journal == s.journal + [journal[|s.journal|]]
      && !journal[|s.journal|].record.StepCheckpoint? && !journal[|s.journal|].record.TurnStart?
  {
  }

  lemma OtherRecordTells(s: State, step: Step, policy: Policy)
    requires Enabled(s, step) && IsOtherRecord(step)
    ensures
      var s' := Apply(s, step, policy);
      s'.told == s.told && s'.heirs == s.heirs && s'.used == s.used
  {
  }

  lemma OtherRecordSaves(s: State, step: Step, policy: Policy)
    requires Enabled(s, step) && IsOtherRecord(step)
    ensures Apply(s, step, policy).disk == s.disk && Apply(s, step, policy).cache == s.cache
  {
  }

  /** An end keeps the turn's own messages; nothing else moves on. */
  lemma OtherRecordPhase(s: State, step: Step, policy: Policy)
    requires PhaseFits(s) && Enabled(s, step) && IsOtherRecord(step)
    ensures PhaseFits(Apply(s, step, policy))
  {
  }

  lemma OtherRecordStep(s: State, step: Step, policy: Policy)
    requires Invariant(s) && Enabled(s, step) && IsOtherRecord(step)
    ensures Invariant(Apply(s, step, policy))
  {
    var s' := Apply(s, step, policy);
    Commits.StepKeeps(s, step, policy);
    OtherRecordIs(s, step, policy);
    OtherRecordTells(s, step, policy);
    OtherRecordSaves(s, step, policy);
    OtherRecordPhase(s, step, policy);
    OtherRecord(s, s', s'.journal[|s.journal|]);
  }

  lemma RestoreOneStep(s: State, step: Step, policy: Policy)
    requires Invariant(s) && Enabled(s, step) && step.RestoreOne?
    ensures Invariant(Apply(s, step, policy))
  {
    var s' := Apply(s, step, policy);
    Commits.StepKeeps(s, step, policy);
    var turn := s.phase.pending[0];
    assert turn in s.phase.pending && Commits.Open(s.journal, turn);
    PendingFits(s, turn, step.ts);
    OneRestored(s, s', s'.journal[|s.journal|], turn, RestoredLines(s, turn, step.ts));
  }

  lemma StartTurnStep(s: State, step: Step, policy: Policy)
    requires Invariant(s) && Enabled(s, step) && step.StartTurn?
    ensures Invariant(Apply(s, step, policy))
  {
    var s' := Apply(s, step, policy);
    Commits.StepKeeps(s, step, policy);
    OneStarted(s, s', s'.journal[|s.journal|], step.id, step.message, step.joined, step.prompt);
  }

  lemma CheckpointStep(s: State, step: Step, policy: Policy)
    requires Invariant(s) && Enabled(s, step) && step.TakeCheckpoint?
    ensures Invariant(Apply(s, step, policy))
  {
    var s' := Apply(s, step, policy);
    Commits.StepKeeps(s, step, policy);
    OneCheckpoint(s, s', s'.journal[|s.journal|], step.name);
  }

  lemma PersistStep(s: State, step: Step, policy: Policy)
    requires Invariant(s) && Enabled(s, step) && step.Persist?
    ensures Invariant(Apply(s, step, policy))
  {
    Commits.StepKeeps(s, step, policy);
    OnePersisted(s, Apply(s, step, policy));
  }

  lemma PruneStep(s: State, step: Step, policy: Policy)
    requires Invariant(s) && Enabled(s, step) && step.PruneRecords?
    ensures Invariant(Apply(s, step, policy))
  {
    Commits.StepKeeps(s, step, policy);
    OnePruned(s, Apply(s, step, policy));
  }

  lemma StepKeeps(s: State, step: Step, policy: Policy)
    requires Invariant(s) && Enabled(s, step)
    ensures Invariant(Apply(s, step, policy))
  {
    if IsQuiet(step) { QuietStep(s, step, policy); }
    else if IsOtherRecord(step) { OtherRecordStep(s, step, policy); }
    else if step.RestoreOne? { RestoreOneStep(s, step, policy); }
    else if step.StartTurn? { StartTurnStep(s, step, policy); }
    else if step.TakeCheckpoint? { CheckpointStep(s, step, policy); }
    else if step.Persist? { PersistStep(s, step, policy); }
    else { PruneStep(s, step, policy); }
  }

  lemma {:induction false} HoldsThroughout(run: seq<State>, steps: seq<Step>, policy: Policy, n: nat)
    requires IsRun(run, steps, policy) && n < |run|
    ensures Invariant(run[n])
  {
    if n > 0 {
      HoldsThroughout(run, steps, policy, n - 1);
      RunStep(run, steps, policy, n - 1);
      StepKeeps(run[n - 1], steps[n - 1], policy);
    } else {
      Initially();
    }
  }

  lemma Initially()
    ensures Invariant(INITIAL)
  {
  }
}
