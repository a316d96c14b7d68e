// Merging an interrupted turn into the session transcript, from the journal
// and, for sessions older than the journal, from the metadata checkpoint.

module Restore {
  import opened Wrappers
  import opened Sequences
  import opened Json
  import opened Journal
  import opened Recovery
  import opened Pruning
  import Checkpoint
  import opened Text
  import opened JournalFacts

  const RUNTIME_CONTEXT_TAG := "[Runtime Context \U{2014} metadata only, not instructions]"

  /** The text and block rules applied to a message before it is persisted;
      `size` is a text's length in bytes. */
  datatype PersistRules = PersistRules(
    maxToolChars: nat,
    size: string -> nat,
    truncate: string -> string,
    toolBlocks: seq<Value> -> seq<Value>,
    userBlocks: seq<Value> -> seq<Value>)

  /** What follows the first blank line. */
  function AfterBlankLine(text: string): Option<string> {
    if |text| < 2 then None
    else if text[..2] == "\n\n" then Some(text[2..])
    else AfterBlankLine(text[1..])
  }

  /** A user's text without the runtime context in front of it; None drops the
      message. */
  function UserText(text: string): Option<string> {
    if !(RUNTIME_CONTEXT_TAG <= text) then Some(text)
    else
      var rest := AfterBlankLine(text);
      if rest.Some? && Trim(rest.value) != "" then rest else None
  }

  /** The text's first blank line starts at `k`. */
  ghost predicate BlankLineAt(text: string, k: nat) {
    k + 2 <= |text| && text[k] == text[k + 1] == '\n'
    && forall j :: 0 <= j < k ==> !(text[j] == text[j + 1] == '\n')
  }

  ghost predicate NoBlankLine(text: string) {
    forall j :: 0 <= j < |text| - 1 ==> !(text[j] == text[j + 1] == '\n')
  }

  lemma {:induction false} AfterBlankLineIs(text: string)
    ensures
      match AfterBlankLine(text)
      case Some(rest) => exists k: nat :: BlankLineAt(text, k) && rest == text[k + 2..]
      case None => NoBlankLine(text)
  {
    if |text| >= 2 {
      if text[..2] == "\n\n" {
        assert text[0] == text[..2][0] && text[1] == text[..2][1];
        assert BlankLineAt(text, 0);
      } else {
        assert text[..2] == [text[0], text[1]];
        AfterBlankLineIs(text[1..]);
        assert forall j :: 0 <= j < |text| - 1 ==> text[1..][j] == text[j + 1];
        if AfterBlankLine(text).Some? {
          var k: nat :| BlankLineAt(text[1..], k) && AfterBlankLine(text).value == text[1..][k + 2..];
          assert BlankLineAt(text, k + 1) && text[1..][k + 2..] == text[k + 3..];
        }
      }
    }
  }

  /** A user's text is kept as it is unless it starts with the tag; then what
      follows its first blank line is kept, if that is more than white space. */
  lemma UserTextIs(text: string)
    ensures !(RUNTIME_CONTEXT_TAG <= text) ==> UserText(text) == Some(text)
    ensures RUNTIME_CONTEXT_TAG <= text && NoBlankLine(text) ==> UserText(text).None?
    ensures RUNTIME_CONTEXT_TAG <= text ==> forall k: nat :: BlankLineAt(text, k) ==>
      UserText(text) == if AllBlank(text[k + 2..]) then None else Some(text[k + 2..])
  {
    if RUNTIME_CONTEXT_TAG <= text {
      AfterBlankLineIs(text);
      forall k: nat | BlankLineAt(text, k)
        ensures UserText(text) == if AllBlank(text[k + 2..]) then None else Some(text[k + 2..])
      {
        var l: nat :| BlankLineAt(text, l) && AfterBlankLine(text) == Some(text[l + 2..]);
        assert k == l;
        TrimmedToNothing(text[k + 2..]);
      }
    }
  }

  predicate IsEmptyContent(content: Option<Value>) {
    match content
    case None => true
    case Some(Null) => true
    case Some(Str(s)) => s == ""
    case Some(Array(items)) => items == []
    case _ => false
  }

  /** The content to store, or None when the message is to be skipped. */
  function PersistContent(rules: PersistRules, m: Value): Option<Option<Value>> {
    var content := Get(m, Content);
    if HasRole(m, Assistant) && IsEmptyContent(content) && Checkpoint.ToolCalls(m) == [] then None
    else if HasRole(m, Tool) then
      match content
      case Some(Str(text)) => Some(Some(Str(if rules.size(text) > rules.maxToolChars then rules.truncate(text) else text)))
      case Some(Array(blocks)) =>
        var kept := rules.toolBlocks(blocks);
        if kept == [] then None else Some(Some(Array(kept)))
      case _ => Some(content)
    else if HasRole(m, User) then
      match content
      case Some(Str(text)) =>
        var kept := UserText(text);
        if kept.None? then None else Some(Some(Str(kept.value)))
      case Some(Array(blocks)) =>
        var kept := rules.userBlocks(blocks);
        if kept == [] then None else Some(Some(Array(kept)))
      case _ => Some(content)
    else Some(content)
  }

  /** The stored form of one message: nothing, or the object with its content
      rewritten and a timestamp. */
  function PersistEntry(rules: PersistRules, m: Value, now: string): seq<Value> {
    if !m.Object? then []
    else
      var content := PersistContent(rules, m);
      if content.None? then []
      else
        var fields := if content.value.Some? then m.fields[Content := content.value.value] else m.fields;
        [Checkpoint.WithTimestamp(fields, now)]
  }

  function Persisted(rules: PersistRules, messages: seq<Value>, now: string): seq<Value> {
    if messages == [] then []
    else Persisted(rules, messages[..|messages| - 1], now) + PersistEntry(rules, messages[|messages| - 1], now)
  }

  // ---------------------------------------------------------------------
  // Which messages are stored, and how
  // ---------------------------------------------------------------------

  /** Null, an empty text or an empty list, or none at all. */
  predicate SaysNothing(content: Option<Value>) {
    content in {None, Some(Null), Some(Str("")), Some(Array([]))}
  }

  /** The message reaches the transcript: it is an object; an assistant's says
      something or calls a tool; of a user's text or block list, and of a tool's
      block list, something is left. */
  predicate Keeps(rules: PersistRules, m: Value) {
    && m.Object?
    && (HasRole(m, Assistant) ==> !SaysNothing(Get(m, Content)) || AsArray(Get(m, ToolCallList)) !in {None, Some([])})
    && (HasRole(m, User) ==>
        match Get(m, Content)
        case Some(Str(text)) => UserText(text).Some?
        case Some(Array(blocks)) => rules.userBlocks(blocks) != []
        case _ => true)
    && (HasRole(m, Tool) ==>
        match Get(m, Content)
        case Some(Array(blocks)) => rules.toolBlocks(blocks) != []
        case _ => true)
  }

  /** The content under which it does. */
  predicate ContentStored(rules: PersistRules, m: Value, stored: Option<Value>) {
    match Get(m, Content)
    case Some(Str(text)) =>
      if HasRole(m, User) then IsUserText(text, stored)
      else if HasRole(m, Tool) && rules.size(text) > rules.maxToolChars then stored == Some(Str(rules.truncate(text)))
      else stored == Some(Str(text))
    case Some(Array(blocks)) =>
      if HasRole(m, User) then stored == Some(Array(rules.userBlocks(blocks)))
      else if HasRole(m, Tool) then stored == Some(Array(rules.toolBlocks(blocks)))
      else stored == Some(Array(blocks))
    case content => stored == content
  }

  predicate IsUserText(text: string, stored: Option<Value>) {
    UserText(text).Some? && stored == Some(Str(UserText(text).value))
  }

  /** A message and its stored form: nothing but content and a missing timestamp
      is touched. */
  ghost predicate StoredAs(rules: PersistRules, m: Value, stored: Value, now: string) {
    && m.Object? && stored.Object?
    && (forall key :: key != Content && key != Timestamp ==> Get(stored, key) == Get(m, key))
    && Get(stored, Timestamp) == (if Get(m, Timestamp).Some? then Get(m, Timestamp) else Some(Str(now)))
    && ContentStored(rules, m, Get(stored, Content))
  }

  lemma EntryIs(rules: PersistRules, m: Value, now: string)
    ensures |PersistEntry(rules, m, now)| == if Keeps(rules, m) then 1 else 0
    ensures Keeps(rules, m) ==> StoredAs(rules, m, PersistEntry(rules, m, now)[0], now)
  {
  }

  /** `at` lists, in order, the places of the messages that are kept. */
  ghost predicate Places(rules: PersistRules, messages: seq<Value>, at: seq<nat>) {
    && (forall i, j :: 0 <= i < j < |at| ==> at[i] < at[j])
    && (forall k: nat :: k in at <==> k < |messages| && Keeps(rules, messages[k]))
  }

  ghost predicate StoredAt(rules: PersistRules, messages: seq<Value>, stored: seq<Value>, at: seq<nat>, now: string) {
    && |at| == |stored|
    && forall i :: 0 <= i < |at| ==> at[i] < |messages| && StoredAs(rules, messages[at[i]], stored[i], now)
  }

  /** Exactly the messages that are kept are stored, each once and in order. */
  ghost predicate Stores(rules: PersistRules, messages: seq<Value>, stored: seq<Value>, now: string) {
    exists at :: Places(rules, messages, at) && StoredAt(rules, messages, stored, at, now)
  }

  lemma PlacesSnoc(rules: PersistRules, messages: seq<Value>, m: Value, at: seq<nat>)
    requires Places(rules, messages, at)
    ensures Places(rules, messages + [m], if Keeps(rules, m) then at + [|messages|] else at)
  {
    var all, at' := messages + [m], if Keeps(rules, m) then at + [|messages|] else at;
    forall i, j | 0 <= i < j < |at'| ensures at'[i] < at'[j] {
      if j == |at| {
        assert at[i] in at;
      }
    }
    forall k: nat ensures k in at' <==> k < |all| && Keeps(rules, all[k]) {
      if k < |messages| {
        assert all[k] == messages[k];
      }
    }
  }

  lemma StoredSnoc(rules: PersistRules, messages: seq<Value>, m: Value, stored: seq<Value>, at: seq<nat>, now: string)
    requires StoredAt(rules, messages, stored, at, now)
    ensures StoredAt(rules, messages + [m], stored + PersistEntry(rules, m, now),
                     if Keeps(rules, m) then at + [|messages|] else at, now)
  {
    EntryIs(rules, m, now);
    if !Keeps(rules, m) {
      assert stored + PersistEntry(rules, m, now) == stored;
    }
    assert forall k :: 0 <= k < |messages| ==> (messages + [m])[k] == messages[k];
  }

  /** What is appended to a transcript of a list of messages. */
  lemma {:induction false} PersistedIs(rules: PersistRules, messages: seq<Value>, now: string)
    ensures Stores(rules, messages, Persisted(rules, messages, now), now)
  {
    if messages == [] {
      assert Places(rules, messages, []) && StoredAt(rules, messages, [], [], now);
    } else {
      var front, m := messages[..|messages| - 1], messages[|messages| - 1];
      FrontLast(messages);
      PersistedIs(rules, front, now);
      var stored := Persisted(rules, front, now);
      var at :| Places(rules, front, at) && StoredAt(rules, front, stored, at, now);
      PlacesSnoc(rules, front, m, at);
      StoredSnoc(rules, front, m, stored, at, now);
    }
  }

  /** A synthesized tool result always reaches the transcript, still naming
      the call it answers. */
  lemma SynthesizedResultPersists(rules: PersistRules, call: Value, content: string, then': string, now: string)
    ensures
      var stored := PersistEntry(rules, Checkpoint.ToolResultMessage(call, content, then'), now);
      && |stored| == 1
      && HasRole(stored[0], Tool)
      && Get(stored[0], ToolCallId) == Get(Checkpoint.ToolResultMessage(call, content, then'), ToolCallId)
      && Get(stored[0], Content) == Some(Str(if rules.size(content) > rules.maxToolChars then rules.truncate(content) else content))
  {
    var m := Checkpoint.ToolResultMessage(call, content, then');
    assert PersistContent(rules, m)
        == Some(Some(Str(if rules.size(content) > rules.maxToolChars then rules.truncate(content) else content)));
  }

  // ---------------------------------------------------------------------
  // From the journal
  // ---------------------------------------------------------------------

  function Records(entries: seq<Entry>): seq<Record> {
    seq(|entries|, i requires 0 <= i < |entries| => entries[i].record)
  }

  lemma RecordsSnoc(entries: seq<Entry>, e: Entry)
    ensures Records(entries + [e]) == Records(entries) + [e.record]
  {
  }

  function Marks(turns: seq<string>): seq<Record> {
    seq(|turns|, i requires 0 <= i < |turns| => TurnRestored(turns[i]))
  }

  /** Everything one restore pass adds to the transcript, turn by turn. */
  function Merged(rules: PersistRules, entries: seq<Entry>, turns: seq<string>, now: string): seq<Value> {
    if turns == [] then []
    else Merged(rules, entries, turns[..|turns| - 1], now)
         + Persisted(rules, TurnMessagesForRestore(entries, turns[|turns| - 1], now), now)
  }

  function Concat(pieces: seq<seq<Value>>): seq<Value> {
    if pieces == [] then [] else Concat(pieces[..|pieces| - 1]) + pieces[|pieces| - 1]
  }

  /** What the turn adds. */
  ghost predicate TurnAdds(rules: PersistRules, entries: seq<Entry>, now: string, turn: string, piece: seq<Value>) {
    Stores(rules, TurnMessagesForRestore(entries, turn, now), piece, now)
  }

  ghost function Adding(rules: PersistRules, entries: seq<Entry>, now: string): (string, seq<Value>) -> bool {
    (turn: string, piece: seq<Value>) => TurnAdds(rules, entries, now, turn, piece)
  }

  ghost predicate Piecewise(adds: (string, seq<Value>) -> bool, turns: seq<string>, pieces: seq<seq<Value>>) {
    |pieces| == |turns| && forall i :: 0 <= i < |turns| ==> adds(turns[i], pieces[i])
  }

  /** The additions of the turns follow one another in the order of the turns,
      each holding the kept messages of its turn. */
  ghost predicate MergesInOrder(rules: PersistRules, entries: seq<Entry>, turns: seq<string>, now: string, added: seq<Value>) {
    exists pieces :: Piecewise(Adding(rules, entries, now), turns, pieces) && added == Concat(pieces)
  }

  lemma PiecesSnoc(adds: (string, seq<Value>) -> bool, turns: seq<string>, pieces: seq<seq<Value>>,
                   turn: string, piece: seq<Value>)
    requires Piecewise(adds, turns, pieces) && adds(turn, piece)
    ensures Piecewise(adds, turns + [turn], pieces + [piece]) && Concat(pieces + [piece]) == Concat(pieces) + piece
  {
    assert (pieces + [piece])[..|pieces|] == pieces;
  }

  lemma {:induction false} MergedIs(rules: PersistRules, entries: seq<Entry>, turns: seq<string>, now: string)
    ensures MergesInOrder(rules, entries, turns, now, Merged(rules, entries, turns, now))
  {
    var adds := Adding(rules, entries, now);
    if turns == [] {
      assert Piecewise(adds, [], []) && Concat([]) == [];
    } else {
      var front, turn := turns[..|turns| - 1], turns[|turns| - 1];
      var piece := Persisted(rules, TurnMessagesForRestore(entries, turn, now), now);
      FrontLast(turns);
      MergedIs(rules, entries, front, now);
      var pieces :| Piecewise(adds, front, pieces) && Merged(rules, entries, front, now) == Concat(pieces);
      PersistedIs(rules, TurnMessagesForRestore(entries, turn, now), now);
      PiecesSnoc(adds, front, pieces, turn, piece);
    }
  }

  lemma {:induction false} NothingMerged(rules: PersistRules, entries: seq<Entry>, turns: seq<string>, now: string)
    requires !AnyMessages(entries, turns, now)
    ensures Merged(rules, entries, turns, now) == []
  {
    if turns != [] {
      FrontLast(turns);
      assert turns[|turns| - 1] in turns;
      assert forall t :: t in turns[..|turns| - 1] ==> t in turns;
      NothingMerged(rules, entries, turns[..|turns| - 1], now);
    }
  }

  predicate AnyMessages(entries: seq<Entry>, turns: seq<string>, now: string) {
    exists t :: t in turns && TurnMessagesForRestore(entries, t, now) != []
  }

  /** Where a restore pass stands after the turns in `done`. */
  ghost predicate Progress(rules: PersistRules, entries: seq<Entry>, done: seq<string>, now: string,
                           history: seq<Value>, messages: seq<Value>, records: seq<Record>, any: bool) {
    && records == Records(entries) + Marks(done)
    && messages == history + Merged(rules, entries, done, now)
    && (any <==> AnyMessages(entries, done, now))
  }

  lemma ProgressStep(rules: PersistRules, entries: seq<Entry>, done: seq<string>, turn: string, now: string,
                     history: seq<Value>, messages: seq<Value>, records: seq<Record>, any: bool)
    requires Progress(rules, entries, done, now, history, messages, records, any)
    ensures
      var added := TurnMessagesForRestore(entries, turn, now);
      Progress(rules, entries, done + [turn], now, history, messages + Persisted(rules, added, now),
               records + [TurnRestored(turn)], any || added != [])
  {
    var added := Persisted(rules, TurnMessagesForRestore(entries, turn, now), now);
    MergedSnoc(rules, entries, done, turn, now);
    Associative(history, Merged(rules, entries, done, now), added);
    AnySnoc(entries, done, turn, now);
    MarksSnoc(done, turn);
    Associative(Records(entries), Marks(done), [TurnRestored(turn)]);
  }

  lemma MergedSnoc(rules: PersistRules, entries: seq<Entry>, done: seq<string>, turn: string, now: string)
    ensures Merged(rules, entries, done + [turn], now)
         == Merged(rules, entries, done, now) + Persisted(rules, TurnMessagesForRestore(entries, turn, now), now)
  {
    assert (done + [turn])[..|done|] == done;
  }

  lemma AnySnoc(entries: seq<Entry>, done: seq<string>, turn: string, now: string)
    ensures AnyMessages(entries, done + [turn], now)
       <==> AnyMessages(entries, done, now) || TurnMessagesForRestore(entries, turn, now) != []
  {
    assert forall t :: t in done + [turn] <==> t in done || t == turn;
  }

  lemma MarksSnoc(done: seq<string>, turn: string)
    ensures Marks(done + [turn]) == Marks(done) + [TurnRestored(turn)]
  {
  }

  /** Once every turn to restore is marked, nothing is left to restore or to resume. */
  lemma MarkingSettlesAll(entries: seq<Entry>, marked: seq<Entry>)
    requires Records(marked) == Records(entries) + Marks(TurnsToRestore(entries))
    ensures TurnsToRestore(marked) == []
    ensures UnfinishedTurns(marked) == []
  {
    var turns := TurnsToRestore(entries);
    TurnsToRestoreAre(entries);
    TurnsToRestoreAre(marked);
    assert forall i :: 0 <= i < |entries| ==> Records(marked)[i] == entries[i].record;
    forall t | Started(marked, t) ensures Settled(marked, t) {
      var e :| e in marked && Starts(e.record, t);
      var i :| 0 <= i < |marked| && marked[i] == e;
      assert Records(marked)[i] == e.record;
      assert i < |entries|;
      assert Starts(entries[i].record, t);
      if t in turns {
        var j :| 0 <= j < |turns| && turns[j] == t;
        assert Records(marked)[|entries| + j] == TurnRestored(t);
        assert Settles(marked[|entries| + j].record, t);
      } else {
        var d :| d in entries && Settles(d.record, t);
        var k :| 0 <= k < |entries| && entries[k] == d;
        assert Records(marked)[k] == d.record;
        assert Settles(marked[k].record, t);
      }
    }
    OpenTurnIdsAre(marked);
    EmptyOrMember(TurnsToRestore(marked));
    EmptyOrMember(UnfinishedTurns(marked));
  }

  lemma EmptyOrMember<T>(s: seq<T>)
    ensures s == [] || exists x :: x in s
  {
    if s != [] {
      assert s[0] in s;
    }
  }

  // ---------------------------------------------------------------------
  // From the metadata checkpoint
  // ---------------------------------------------------------------------

  /** What identifies a message when looking for an overlap; not the timestamp. */
  datatype MessageKey = MessageKey(role: Option<Value>, content: Option<Value>, toolCallId: Option<Value>,
                                   name: Option<Value>, toolCalls: Option<Value>,
                                   reasoning: Option<Value>, thinking: Option<Value>)

  function CheckpointMessageKey(m: Value): MessageKey {
    MessageKey(Get(m, Role), Get(m, Content), Get(m, ToolCallId), Get(m, Name), Get(m, ToolCallList),
               Get(m, ReasoningContent), Get(m, ThinkingBlocks))
  }

  predicate SameMessages(a: seq<Value>, b: seq<Value>) {
    |a| == |b| && forall i :: 0 <= i < |a| ==> CheckpointMessageKey(a[i]) == CheckpointMessageKey(b[i])
  }

  predicate EndsWith(list: seq<Value>, tail: seq<Value>) {
    |tail| <= |list| && SameMessages(list[|list| - |tail|..], tail)
  }

  /** The last `size` messages of the history are the first of the restored ones. */
  predicate Overlaps(history: seq<Value>, restored: seq<Value>, size: nat) {
    && size <= |history| && size <= |restored|
    && SameMessages(history[|history| - size..], restored[..size])
  }

  function Smaller(a: nat, b: nat): nat { if a < b then a else b }

  /** Looks for the longest overlap, longest first. */
  method LongestOverlap(history: seq<Value>, restored: seq<Value>) returns (overlap: nat)
    ensures Overlaps(history, restored, overlap)
    ensures forall size :: overlap < size ==> !Overlaps(history, restored, size)
  {
    var size := Smaller(|history|, |restored|);
    while size > 0
      invariant 0 <= size <= Smaller(|history|, |restored|)
      invariant forall s :: size < s ==> !Overlaps(history, restored, s)
    {
      var same := true;
      var i := 0;
      while i < size && same
        invariant 0 <= i <= size
        invariant same ==> SameMessages(history[|history| - size..][..i], restored[..i])
        invariant !same ==> !Overlaps(history, restored, size)
      {
        if CheckpointMessageKey(history[|history| - size + i]) != CheckpointMessageKey(restored[i]) {
          assert history[|history| - size..][i] == history[|history| - size + i];
          assert restored[..size][i] == restored[i];
          same := false;
        }
        i := i + 1;
      }
      if same {
        assert history[|history| - size..][..size] == history[|history| - size..];
        return size;
      }
      size := size - 1;
    }
    return 0;
  }

  /** No list that starts with the old history and ends with the restored
      messages is shorter than the merge over the longest overlap. */
  lemma MergeIsShortest(history: seq<Value>, restored: seq<Value>, overlap: nat, list: seq<Value>)
    requires Overlaps(history, restored, overlap)
    requires forall size :: overlap < size ==> !Overlaps(history, restored, size)
    requires history <= list && EndsWith(list, restored)
    ensures |history| + |restored| - overlap <= |list|
  {
    var added := |list| - |history|;
    if added < |restored| - overlap {
      var size := |restored| - added;
      var tail := list[|list| - |restored|..];
      assert size <= |history|;
      forall i | 0 <= i < size
        ensures CheckpointMessageKey(history[|history| - size..][i]) == CheckpointMessageKey(restored[..size][i])
      {
        assert tail[i] == list[|list| - |restored| + i] == history[|history| - size + i];
      }
      assert Overlaps(history, restored, size);
    }
  }

  /** The merge ends with the restored messages, up to their keys. */
  lemma MergeEndsWithRestored(history: seq<Value>, restored: seq<Value>, overlap: nat)
    requires Overlaps(history, restored, overlap)
    ensures EndsWith(history + restored[overlap..], restored)
  {
    var merged := history + restored[overlap..];
    var tail := merged[|merged| - |restored|..];
    forall i | 0 <= i < |restored| ensures CheckpointMessageKey(tail[i]) == CheckpointMessageKey(restored[i]) {
      if i < overlap {
        assert tail[i] == history[|history| - overlap..][i];
        assert restored[..overlap][i] == restored[i];
      } else {
        assert tail[i] == restored[overlap..][i - overlap] == restored[i];
      }
    }
  }

  /** Reading the same checkpoint at another time gives the same messages up to
      their keys: only timestamps depend on the clock. */
  lemma {:induction false} StampsDoNotMatter(results: seq<Value>, now: string, later: string)
    ensures SameMessages(Checkpoint.StampObjects(results, now), Checkpoint.StampObjects(results, later))
  {
    if results != [] {
      StampsDoNotMatter(results[..|results| - 1], now, later);
    }
  }

  lemma {:induction false} ClockDoesNotMatter(calls: seq<Value>, resolve: Value -> string, now: string, later: string)
    ensures SameMessages(Checkpoint.ResultsFor(calls, resolve, now), Checkpoint.ResultsFor(calls, resolve, later))
  {
    if calls != [] {
      ClockDoesNotMatter(calls[..|calls| - 1], resolve, now, later);
    }
  }

  lemma RestoredAtAnotherTime(checkpoint: map<Key, Value>, resolve: Value -> string, now: string, later: string)
    ensures SameMessages(Checkpoint.Restored(checkpoint, resolve, now), Checkpoint.Restored(checkpoint, resolve, later))
  {
    BaseAtAnotherTime(checkpoint, now, later);
    ClockDoesNotMatter(Checkpoint.PendingOf(checkpoint), resolve, now, later);
    SameConcat(Checkpoint.BaseMessages(checkpoint, now), Checkpoint.BaseMessages(checkpoint, later),
               Checkpoint.ResultsFor(Checkpoint.PendingOf(checkpoint), resolve, now),
               Checkpoint.ResultsFor(Checkpoint.PendingOf(checkpoint), resolve, later));
  }

  lemma SameConcat(a: seq<Value>, a': seq<Value>, b: seq<Value>, b': seq<Value>)
    requires SameMessages(a, a') && SameMessages(b, b')
    ensures SameMessages(a + b, a' + b')
  {
  }

  lemma BaseAtAnotherTime(checkpoint: map<Key, Value>, now: string, later: string)
    ensures SameMessages(Checkpoint.BaseMessages(checkpoint, now), Checkpoint.BaseMessages(checkpoint, later))
  {
    var assistant := Get(Object(checkpoint), AssistantMessage);
    var results := AsArray(Get(Object(checkpoint), CompletedToolResults));
    var heads := (at: string) =>
      if assistant.Some? && assistant.value.Object? then [Checkpoint.WithTimestamp(assistant.value.fields, at)] else [];
    var tails := (at: string) => if results.Some? then Checkpoint.StampObjects(results.value, at) else [];
    if AsArray(Get(Object(checkpoint), TurnMessages)).None? {
      if results.Some? {
        StampsDoNotMatter(results.value, now, later);
      }
      SameConcat(heads(now), heads(later), tails(now), tails(later));
    }
  }

  /** Merging messages the list already ends with appends nothing. */
  lemma MergeAgainAppendsNothing(merged: seq<Value>, restored: seq<Value>, overlap: nat)
    requires EndsWith(merged, restored)
    requires Overlaps(merged, restored, overlap)
    requires forall size :: overlap < size ==> !Overlaps(merged, restored, size)
    ensures restored[overlap..] == []
  {
    assert restored[..|restored|] == restored;
    assert Overlaps(merged, restored, |restored|);
  }

  function Interrupted(): Value -> string {
    (call: Value) => Checkpoint.INTERRUPTED_RESULT
  }

  /** `merged` is the shortest list that starts with the history and ends with the
      restored messages, and adds none but them. */
  ghost predicate MergesShortest(history: seq<Value>, restored: seq<Value>, merged: seq<Value>) {
    && history <= merged
    && EndsWith(merged, restored)
    && (forall list :: history <= list && EndsWith(list, restored) ==> |merged| <= |list|)
    && (EndsWith(history, restored) ==> merged == history)
    && (exists overlap: nat :: overlap <= |restored| && merged == history + restored[overlap..])
  }

  /** Two messages count as the same exactly if they agree on all that is shown of
      them and on the call they answer. */
  lemma SameKeyIff(a: Value, b: Value)
    ensures CheckpointMessageKey(a) == CheckpointMessageKey(b) <==>
      forall key :: key in {Role, Content, ToolCallId, Name, ToolCallList, ReasoningContent, ThinkingBlocks} ==>
        Get(a, key) == Get(b, key)
  {
    if forall key :: key in {Role, Content, ToolCallId, Name, ToolCallList, ReasoningContent, ThinkingBlocks} ==>
        Get(a, key) == Get(b, key) {
      assert Get(a, Role) == Get(b, Role) && Get(a, Content) == Get(b, Content) && Get(a, Name) == Get(b, Name);
      assert Get(a, ToolCallId) == Get(b, ToolCallId) && Get(a, ToolCallList) == Get(b, ToolCallList);
      assert Get(a, ReasoningContent) == Get(b, ReasoningContent) && Get(a, ThinkingBlocks) == Get(b, ThinkingBlocks);
    }
  }

  // ---------------------------------------------------------------------
  // The session and its operations
  // ---------------------------------------------------------------------

  /** A session: its transcript and the runtime checkpoint in its metadata. */
  class Session {
    var messages: seq<Value>
    var checkpoint: Option<Value>

    constructor (messages: seq<Value>, checkpoint: Option<Value>)
      ensures this.messages == messages && this.checkpoint == checkpoint
    {
      this.messages := messages;
      this.checkpoint := checkpoint;
    }

    /** Appends the new messages of a turn, each in its stored form. */
    method SaveTurn(rules: PersistRules, turn: seq<Value>, skip: nat, now: string)
      requires skip <= |turn|
      modifies this`messages
      ensures messages == old(messages) + Persisted(rules, turn[skip..], now)
      ensures old(messages) <= messages && Stores(rules, turn[skip..], messages[|old(messages)|..], now)
    {
      PersistedIs(rules, turn[skip..], now);
      var fresh' := turn[skip..];
      for n := 0 to |fresh'|
        invariant messages == old(messages) + Persisted(rules, fresh'[..n], now)
      {
        assert fresh'[..n + 1][..n] == fresh'[..n];
        var stored := PersistEntry(rules, fresh'[n], now);
        messages := messages + stored;
      }
      assert fresh'[..|fresh'|] == fresh';
      assert messages[|old(messages)|..] == Persisted(rules, fresh', now);
    }

    /** Merges one turn into the transcript and marks it restored. */
    method RestoreTurn(journal: RunJournal, entries: seq<Entry>, turn: string, rules: PersistRules, now: string)
      returns (any: bool)
      requires journal.Valid()
      modifies this`messages, journal
      ensures journal.Valid()
      ensures Records(journal.entries) == Records(old(journal.entries)) + [TurnRestored(turn)]
      ensures messages == old(messages) + Persisted(rules, TurnMessagesForRestore(entries, turn, now), now)
      ensures any <==> TurnMessagesForRestore(entries, turn, now) != []
    {
      var turnMessages := TurnMessagesForRestore(entries, turn, now);
      if turnMessages != [] {
        SaveFramed(rules, turnMessages, now);
      }
      ghost var before := journal.entries;
      var number := journal.Append(TurnRestored(turn), now);
      RecordsSnoc(before, Entry(number, now, TurnRestored(turn)));
      any := turnMessages != [];
    }

    /** `SaveTurn` skips the leading history; a restored turn has none. */
    method SaveFramed(rules: PersistRules, turnMessages: seq<Value>, now: string)
      modifies this`messages
      ensures messages == old(messages) + Persisted(rules, turnMessages, now)
    {
      var framed := [Null] + turnMessages;
      assert framed[1..] == turnMessages;
      SaveTurn(rules, framed, 1, now);
    }

    /** Merges every turn the journal still has to restore, oldest first,
        marking each one restored. */
    method RestoreFromJournal(journal: RunJournal, rules: PersistRules, now: string) returns (restoredAny: bool)
      requires journal.Valid()
      modifies this`messages, journal
      ensures journal.Valid()
      ensures Records(journal.entries) == Records(old(journal.entries)) + Marks(TurnsToRestore(old(journal.entries)))
      ensures messages == old(messages) + Merged(rules, old(journal.entries), TurnsToRestore(old(journal.entries)), now)
      ensures old(messages) <= messages && MergesInOrder(rules, old(journal.entries), TurnsToRestore(old(journal.entries)), now, messages[|old(messages)|..])
      ensures InStartOrder(old(journal.entries), TurnsToRestore(old(journal.entries)))
      ensures restoredAny <==> AnyMessages(old(journal.entries), TurnsToRestore(old(journal.entries)), now)
      ensures TurnsToRestore(journal.entries) == [] && UnfinishedTurns(journal.entries) == []
      ensures TurnsToRestore(old(journal.entries)) == [] ==>
        !restoredAny && messages == old(messages) && Records(journal.entries) == Records(old(journal.entries))
    {
      var entries := journal.entries;
      var turns := ScanTurnsToRestore(entries);
      RestoredOldestFirst(entries);
      MergedIs(rules, entries, turns, now);
      restoredAny := RestoreAll(journal, entries, turns, rules, now);
      assert messages[|old(messages)|..] == Merged(rules, entries, turns, now);
      MarkingSettlesAll(entries, journal.entries);
    }

    method RestoreAll(journal: RunJournal, entries: seq<Entry>, turns: seq<string>, rules: PersistRules, now: string)
      returns (restoredAny: bool)
      requires journal.Valid() && journal.entries == entries
      modifies this`messages, journal
      ensures journal.Valid()
      ensures Progress(rules, entries, turns, now, old(messages), messages, Records(journal.entries), restoredAny)
    {
      restoredAny := false;
      TakeAll(turns);
      for n := 0 to |turns|
        invariant journal.Valid()
        invariant Progress(rules, entries, turns[..n], now, old(messages), messages, Records(journal.entries), restoredAny)
      {
        TakeSnoc(turns, n);
        restoredAny := RestoreNext(journal, entries, turns[..n], turns[n], rules, now, old(messages), restoredAny);
      }
    }

    /** One more turn of the pass. */
    method RestoreNext(journal: RunJournal, entries: seq<Entry>, ghost done: seq<string>, turn: string,
                       rules: PersistRules, now: string, ghost history: seq<Value>, before: bool)
      returns (restoredAny: bool)
      requires journal.Valid()
      requires Progress(rules, entries, done, now, history, messages, Records(journal.entries), before)
      modifies this`messages, journal
      ensures journal.Valid()
      ensures Progress(rules, entries, done + [turn], now, history, messages, Records(journal.entries), restoredAny)
    {
      ProgressStep(rules, entries, done, turn, now, history, messages, Records(journal.entries), before);
      var any := RestoreTurn(journal, entries, turn, rules, now);
      restoredAny := before || any;
    }

    /** Merges the metadata checkpoint of a session that predates the journal. */
    method RestoreFromMetadataCheckpoint(now: string) returns (changed: bool)
      modifies this
      ensures changed <==> old(checkpoint).Some? && old(checkpoint).value.Object?
      ensures !changed ==> messages == old(messages) && checkpoint == old(checkpoint)
      ensures changed ==> checkpoint.None?
      ensures changed ==>
        MergesShortest(old(messages), Checkpoint.Restored(old(checkpoint).value.fields, Interrupted(), now), messages)
    {
      if checkpoint.None? || !checkpoint.value.Object? {
        return false;
      }
      var restored := Checkpoint.Materialize(checkpoint.value.fields, Interrupted(), now);
      var overlap := LongestOverlap(messages, restored);
      MergeEndsWithRestored(messages, restored, overlap);
      forall list | messages <= list && EndsWith(list, restored)
        ensures |messages| + |restored| - overlap <= |list|
      {
        MergeIsShortest(messages, restored, overlap, list);
      }
      if EndsWith(messages, restored) {
        MergeAgainAppendsNothing(messages, restored, overlap);
      }
      messages := messages + restored[overlap..];
      checkpoint := None;
      return true;
    }

    /** The journal first; the metadata checkpoint only when it restored nothing. */
    method RestoreRuntimeCheckpoint(journal: RunJournal, rules: PersistRules, now: string) returns (changed: bool)
      requires journal.Valid()
      modifies this, journal
      ensures journal.Valid()
      ensures TurnsToRestore(journal.entries) == [] && UnfinishedTurns(journal.entries) == []
      ensures old(messages) <= messages && (changed ==> checkpoint.None?)
      ensures AnyMessages(old(journal.entries), TurnsToRestore(old(journal.entries)), now) ==>
        && changed && checkpoint.None?
        && messages == old(messages) + Merged(rules, old(journal.entries), TurnsToRestore(old(journal.entries)), now)
      ensures !AnyMessages(old(journal.entries), TurnsToRestore(old(journal.entries)), now) ==>
        && (changed <==> old(checkpoint).Some? && old(checkpoint).value.Object?)
        && (!changed ==> messages == old(messages) && checkpoint == old(checkpoint))
        && (changed ==>
            MergesShortest(old(messages), Checkpoint.Restored(old(checkpoint).value.fields, Interrupted(), now), messages))
    {
      var fromJournal := RestoreFromJournal(journal, rules, now);
      if fromJournal {
        checkpoint := None;
        return true;
      }
      NothingMerged(rules, old(journal.entries), TurnsToRestore(old(journal.entries)), now);
      assert messages == old(messages);
      changed := RestoreFromMetadataCheckpoint(now);
    }
  }

  /** Merges the same metadata checkpoint twice, the second time at any later
      moment: the second merge appends nothing. */
  method MergeMetadataTwice(session: Session, payload: Value, now: string, later: string) returns (appendedAgain: nat)
    requires payload.Object?
    modifies session
    ensures appendedAgain == 0
    ensures old(session.messages) <= session.messages && session.checkpoint.None?
    ensures EndsWith(session.messages, Checkpoint.Restored(payload.fields, Interrupted(), now))
  {
    session.checkpoint := Some(payload);
    var _ := session.RestoreFromMetadataCheckpoint(now);
    var middle := session.messages;
    session.checkpoint := Some(payload);
    RestoredAtAnotherTime(payload.fields, Interrupted(), now, later);
    SameTail(middle, Checkpoint.Restored(payload.fields, Interrupted(), now),
             Checkpoint.Restored(payload.fields, Interrupted(), later));
    var _ := session.RestoreFromMetadataCheckpoint(later);
    appendedAgain := |session.messages| - |middle|;
  }

  lemma SameTail(list: seq<Value>, a: seq<Value>, b: seq<Value>)
    requires EndsWith(list, a) && SameMessages(a, b)
    ensures EndsWith(list, b)
  {
  }
}
