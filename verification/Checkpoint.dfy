// Checkpoint payloads: what the runner writes, and what crash recovery makes of
// it.

module Checkpoint {
  import opened Wrappers
  import opened Sequences
  import opened Json

  const INTERRUPTED_RESULT := "Error: Task interrupted before this tool finished."

  function ToolCallName(call: Value): string {
    var function' := Get(call, Function);
    var name := if function'.Some? then AsStr(Get(function'.value, Name)) else None;
    if name.Some? then name.value else "tool"
  }

  /** The tool-result message for `call`; `now` stands for the clock. */
  function ToolResultMessage(call: Value, content: string, now: string): (m: Value)
    ensures HasRole(m, Tool) && m.Object?
    ensures Get(m, ToolCallId) == Some(if Get(call, Id).Some? then Get(call, Id).value else Null)
    ensures Get(m, Content) == Some(Str(content))
  {
    Object(map[
      Role := RoleName(Tool),
      ToolCallId := if Get(call, Id).Some? then Get(call, Id).value else Null,
      Name := Str(ToolCallName(call)),
      Content := Str(content),
      Timestamp := Str(now)])
  }

  function ToolCalls(m: Value): seq<Value> {
    var calls := AsArray(Get(m, ToolCallList));
    if calls.Some? then calls.value else []
  }

  predicate RequestsTools(m: Value) {
    HasRole(m, Assistant) && ToolCalls(m) != []
  }

  /** Position of the last assistant message that requested tools. */
  function LastRequest(turn: seq<Value>): (at: Option<nat>)
    ensures at.Some? ==> at.value < |turn| && RequestsTools(turn[at.value])
  {
    if turn == [] then None
    else if RequestsTools(turn[|turn| - 1]) then Some(|turn| - 1)
    else LastRequest(turn[..|turn| - 1])
  }

  lemma {:induction false} LastRequestIs(turn: seq<Value>, i: int)
    requires 0 <= i < |turn| && RequestsTools(turn[i])
    ensures LastRequest(turn).Some? && i <= LastRequest(turn).value
  {
    if i < |turn| - 1 {
      LastRequestIs(turn[..|turn| - 1], i);
    }
  }

  predicate Answers(result: Value, call: Value) {
    HasRole(result, Tool) && Get(result, ToolCallId) == Get(call, Id)
  }

  predicate Answered(results: seq<Value>, call: Value) {
    exists i :: 0 <= i < |results| && Answers(results[i], call)
  }

  function ToolMessages(messages: seq<Value>): seq<Value> {
    Filter(messages, (m: Value) => HasRole(m, Tool))
  }

  function Unanswered(calls: seq<Value>, results: seq<Value>): seq<Value> {
    if calls == [] then []
    else
      Unanswered(calls[..|calls| - 1], results)
        + (if Answered(results, calls[|calls| - 1]) then [] else [calls[|calls| - 1]])
  }

  lemma {:induction false} UnansweredAre(calls: seq<Value>, results: seq<Value>)
    ensures forall c :: c in Unanswered(calls, results) <==> c in calls && !Answered(results, c)
  {
    if calls != [] {
      UnansweredAre(calls[..|calls| - 1], results);
      assert calls == calls[..|calls| - 1] + [calls[|calls| - 1]];
    }
  }

  function LacksResult(results: seq<Value>): Value -> bool { (call: Value) => !Answered(results, call) }

  lemma {:induction false} UnansweredInOrder(calls: seq<Value>, results: seq<Value>)
    ensures Unanswered(calls, results) == Filter(calls, LacksResult(results))
  {
    if calls != [] {
      UnansweredInOrder(calls[..|calls| - 1], results);
    }
  }

  datatype ToolRequest = ToolRequest(assistant: Value, completed: seq<Value>, pending: seq<Value>)

  /** The last request, its results so far, and its calls without a result. */
  function LastToolRequest(turn: seq<Value>): Option<ToolRequest> {
    var at := LastRequest(turn);
    if at.None? then None
    else
      var completed := ToolMessages(turn[at.value + 1..]);
      Some(ToolRequest(turn[at.value], completed, Unanswered(ToolCalls(turn[at.value]), completed)))
  }

  /** The payload for `kind`, key by key. */
  method Build(kind: string, turn: seq<Value>) returns (payload: Value)
    ensures payload == Payload(kind, turn)
    ensures forall resolve: Value -> string, now: string {:trigger Restored(payload.fields, resolve, now)} ::
      Restored(payload.fields, resolve, now) == turn + ResultsFor(PendingCalls(turn), resolve, now)
  {
    var fields := map[Type := Str(kind), TurnMessages := Array(turn)];
    var request := LastToolRequest(turn);
    if request.Some? {
      fields := fields[AssistantMessage := request.value.assistant];
      fields := fields[CompletedToolResults := Array(request.value.completed)];
      fields := fields[PendingToolCalls := Array(request.value.pending)];
    }
    payload := Object(fields);
    forall resolve: Value -> string, now: string
      ensures Restored(payload.fields, resolve, now) == turn + ResultsFor(PendingCalls(turn), resolve, now)
    {
      RoundTrip(kind, turn, resolve, now);
    }
  }

  function Payload(kind: string, turn: seq<Value>): Value {
    var fields := map[Type := Str(kind), TurnMessages := Array(turn)];
    match LastToolRequest(turn)
    case None => Object(fields)
    case Some(ToolRequest(assistant, completed, pending)) =>
      Object(fields[AssistantMessage := assistant]
                   [CompletedToolResults := Array(completed)]
                   [PendingToolCalls := Array(pending)])
  }

  function WithTimestamp(m: map<Key, Value>, now: string): Value {
    Object(if Timestamp in m then m else m[Timestamp := Str(now)])
  }

  function StampObjects(results: seq<Value>, now: string): seq<Value> {
    if results == [] then []
    else
      var last := results[|results| - 1];
      StampObjects(results[..|results| - 1], now)
        + (if last.Object? then [WithTimestamp(last.fields, now)] else [])
  }

  /** The messages a checkpoint holds before its pending calls are resolved. */
  function BaseMessages(checkpoint: map<Key, Value>, now: string): seq<Value> {
    var c := Object(checkpoint);
    var turn := AsArray(Get(c, TurnMessages));
    if turn.Some? then turn.value
    else
      var assistant := Get(c, AssistantMessage);
      var results := AsArray(Get(c, CompletedToolResults));
      (if assistant.Some? && assistant.value.Object? then [WithTimestamp(assistant.value.fields, now)] else [])
        + (if results.Some? then StampObjects(results.value, now) else [])
  }

  /** One result message per call that is an object, in call order. */
  function ResultsFor(calls: seq<Value>, resolve: Value -> string, now: string): seq<Value> {
    if calls == [] then []
    else
      var last := calls[|calls| - 1];
      ResultsFor(calls[..|calls| - 1], resolve, now)
        + (if last.Object? then [ToolResultMessage(last, resolve(last), now)] else [])
  }

  function PendingOf(checkpoint: map<Key, Value>): seq<Value> {
    var pending := AsArray(Get(Object(checkpoint), PendingToolCalls));
    if pending.Some? then pending.value else []
  }

  function Restored(checkpoint: map<Key, Value>, resolve: Value -> string, now: string): seq<Value> {
    BaseMessages(checkpoint, now) + ResultsFor(PendingOf(checkpoint), resolve, now)
  }

  /** Messages a checkpoint stands for; `resolve` supplies the content of the
      calls that are still pending. */
  method Materialize(checkpoint: map<Key, Value>, resolve: Value -> string, now: string)
    returns (restored: seq<Value>)
    ensures restored == Restored(checkpoint, resolve, now)
  {
    restored := Base(checkpoint, now);
    ghost var base := restored;
    var calls := PendingOf(checkpoint);
    for n := 0 to |calls|
      invariant restored == base + ResultsFor(calls[..n], resolve, now)
    {
      assert calls[..n + 1][..n] == calls[..n];
      if calls[n].Object? {
        restored := restored + [ToolResultMessage(calls[n], resolve(calls[n]), now)];
      }
    }
    assert calls[..|calls|] == calls;
  }

  method Base(checkpoint: map<Key, Value>, now: string) returns (restored: seq<Value>)
    ensures restored == BaseMessages(checkpoint, now)
  {
    restored := [];
    var turn := AsArray(Get(Object(checkpoint), TurnMessages));
    if turn.Some? {
      restored := turn.value;
    } else {
      var assistant := Get(Object(checkpoint), AssistantMessage);
      if assistant.Some? && assistant.value.Object? {
        restored := restored + [WithTimestamp(assistant.value.fields, now)];
      }
      var results := AsArray(Get(Object(checkpoint), CompletedToolResults));
      if results.Some? {
        restored := restored + StampObjects(results.value, now);
      }
    }
  }

  // ---------------------------------------------------------------------
  // The writer and the reader agree
  // ---------------------------------------------------------------------

  /** The calls of the last request that no later tool message answers. */
  function PendingCalls(turn: seq<Value>): seq<Value> {
    match LastRequest(turn)
    case None => []
    case Some(at) => PendingAt(turn, at)
  }

  function PendingAt(turn: seq<Value>, at: nat): seq<Value>
    requires at < |turn|
  {
    Unanswered(ToolCalls(turn[at]), turn[at + 1..])
  }

  lemma AnsweredByToolMessages(messages: seq<Value>, call: Value)
    ensures Answered(ToolMessages(messages), call) == Answered(messages, call)
  {
    var tools := ToolMessages(messages);
    if Answered(tools, call) {
      var i :| 0 <= i < |tools| && Answers(tools[i], call);
      assert tools[i] in messages;
      var j :| 0 <= j < |messages| && messages[j] == tools[i];
    }
    if Answered(messages, call) {
      var j :| 0 <= j < |messages| && Answers(messages[j], call);
      assert messages[j] in tools;
      var i :| 0 <= i < |tools| && tools[i] == messages[j];
    }
  }

  lemma {:induction false} UnansweredCongruent(calls: seq<Value>, a: seq<Value>, b: seq<Value>)
    requires forall c :: c in calls ==> Answered(a, c) == Answered(b, c)
    ensures Unanswered(calls, a) == Unanswered(calls, b)
  {
    if calls != [] {
      assert calls[|calls| - 1] in calls;
      UnansweredCongruent(calls[..|calls| - 1], a, b);
    }
  }

  /** Reading back a built payload gives the turn as it was, followed by one
      result for each unanswered call of its last request, in call order. */
  lemma RoundTrip(kind: string, turn: seq<Value>, resolve: Value -> string, now: string)
    ensures Restored(Payload(kind, turn).fields, resolve, now)
         == turn + ResultsFor(PendingCalls(turn), resolve, now)
  {
    PayloadFields(kind, turn, now);
    PendingOfPayload(kind, turn);
  }

  lemma PayloadFields(kind: string, turn: seq<Value>, now: string)
    ensures BaseMessages(Payload(kind, turn).fields, now) == turn
  {
    assert Get(Payload(kind, turn), TurnMessages) == Some(Array(turn));
  }

  lemma PendingOfPayload(kind: string, turn: seq<Value>)
    ensures PendingOf(Payload(kind, turn).fields) == PendingCalls(turn)
  {
    var at := LastRequest(turn);
    if at.Some? {
      var calls, after := ToolCalls(turn[at.value]), turn[at.value + 1..];
      assert Get(Payload(kind, turn), PendingToolCalls) == Some(Array(Unanswered(calls, ToolMessages(after))));
      forall c | c in calls ensures Answered(ToolMessages(after), c) == Answered(after, c) {
        AnsweredByToolMessages(after, c);
      }
      UnansweredCongruent(calls, ToolMessages(after), after);
    } else {
      assert PendingToolCalls !in Payload(kind, turn).fields;
    }
  }

  // ---------------------------------------------------------------------
  // What is read, message by message
  // ---------------------------------------------------------------------

  predicate IsObject(v: Value) { v.Object? }

  /** The objects among the values, in order. */
  function Objects(values: seq<Value>): seq<Value> { Filter(values, (v: Value) => IsObject(v)) }

  lemma ObjectsSnoc(values: seq<Value>)
    requires values != []
    ensures
      var front, last := Objects(values[..|values| - 1]), values[|values| - 1];
      Objects(values) == if last.Object? then front + [last] else front
  {
  }

  /** The message with a timestamp, its own if it has one. */
  ghost predicate Stamped(m: Value, original: Value, now: string) {
    && m.Object? && (forall key :: key != Timestamp ==> Get(m, key) == Get(original, key))
    && Get(m, Timestamp) == if Get(original, Timestamp).Some? then Get(original, Timestamp) else Some(Str(now))
  }

  /** The name under which a call's result is shown. */
  predicate NameOf(call: Value, name: string) {
    match Get(call, Function)
    case Some(f) =>
      (match Get(f, Name)
       case Some(Str(given)) => name == given
       case _ => name == "tool")
    case None => name == "tool"
  }

  /** A result made for the call with this text. */
  ghost predicate ResultFor(m: Value, call: Value, text: string, now: string) {
    && HasRole(m, Tool) && Get(m, Content) == Some(Str(text)) && Get(m, Timestamp) == Some(Str(now))
    && Get(m, ToolCallId) == (if Get(call, Id).Some? then Get(call, Id) else Some(Null))
    && exists name :: Get(m, Name) == Some(Str(name)) && NameOf(call, name)
  }

  lemma ResultIsFor(call: Value, text: string, now: string)
    ensures ResultFor(ToolResultMessage(call, text, now), call, text, now)
  {
    assert NameOf(call, ToolCallName(call));
    assert Get(ToolResultMessage(call, text, now), Name) == Some(Str(ToolCallName(call)));
  }

  /** One result per call that is an object, in call order. */
  lemma {:induction false} ResultsAreFor(calls: seq<Value>, resolve: Value -> string, now: string)
    ensures |ResultsFor(calls, resolve, now)| == |Objects(calls)|
    ensures forall i :: 0 <= i < |Objects(calls)| ==>
      ResultFor(ResultsFor(calls, resolve, now)[i], Objects(calls)[i], resolve(Objects(calls)[i]), now)
  {
    if calls != [] {
      ResultsAreFor(calls[..|calls| - 1], resolve, now);
      ObjectsSnoc(calls);
      ResultIsFor(calls[|calls| - 1], resolve(calls[|calls| - 1]), now);
    }
  }

  lemma StampIs(fields: map<Key, Value>, now: string)
    ensures Stamped(WithTimestamp(fields, now), Object(fields), now)
  {
  }

  lemma {:induction false} StampsAre(results: seq<Value>, now: string)
    ensures |StampObjects(results, now)| == |Objects(results)|
    ensures forall i :: 0 <= i < |Objects(results)| ==> Stamped(StampObjects(results, now)[i], Objects(results)[i], now)
  {
    if results != [] {
      StampsAre(results[..|results| - 1], now);
      ObjectsSnoc(results);
      if results[|results| - 1].Object? {
        StampIs(results[|results| - 1].fields, now);
      }
    }
  }

  function ListAt(checkpoint: Value, key: Key): seq<Value> {
    match Get(checkpoint, key)
    case Some(Array(items)) => items
    case _ => []
  }

  ghost predicate AllStamped(messages: seq<Value>, originals: seq<Value>, now: string) {
    |messages| == |originals| && forall i :: 0 <= i < |messages| ==> Stamped(messages[i], originals[i], now)
  }

  ghost predicate AllResultsFor(messages: seq<Value>, calls: seq<Value>, resolve: Value -> string, now: string) {
    |messages| == |calls| && forall i :: 0 <= i < |messages| ==> ResultFor(messages[i], calls[i], resolve(calls[i]), now)
  }

  /** First the assistant message, then the results it had, then one for each
      pending call, all in order. */
  ghost predicate IsLegacyReading(restored: seq<Value>, first: seq<Value>, done: seq<Value>, calls: seq<Value>,
                                  resolve: Value -> string, now: string) {
    exists a, b, c :: restored == a + b + c
      && AllStamped(a, first, now) && AllStamped(b, done, now) && AllResultsFor(c, calls, resolve, now)
  }

  function HeadOf(checkpoint: Value): seq<Value> {
    match Get(checkpoint, AssistantMessage)
    case Some(m) => if m.Object? then [m] else []
    case None => []
  }

  /** Reading a checkpoint of the older layout; what is not an object is left
      out. */
  lemma LegacyTells(checkpoint: map<Key, Value>, resolve: Value -> string, now: string)
    requires AsArray(Get(Object(checkpoint), TurnMessages)).None?
    ensures
      var c := Object(checkpoint);
      IsLegacyReading(Restored(checkpoint, resolve, now), HeadOf(c), Objects(ListAt(c, CompletedToolResults)),
                      Objects(ListAt(c, PendingToolCalls)), resolve, now)
  {
    var c := Object(checkpoint);
    var a, b := HeadStamped(c, now), StampObjects(ListAt(c, CompletedToolResults), now);
    var results := ResultsFor(ListAt(c, PendingToolCalls), resolve, now);
    ResultsAreFor(ListAt(c, PendingToolCalls), resolve, now);
    StampsAre(ListAt(c, CompletedToolResults), now);
    HeadIsStamped(c, now);
    LegacyBase(checkpoint, now);
    assert AllStamped(b, Objects(ListAt(c, CompletedToolResults)), now);
    assert AllResultsFor(results, Objects(ListAt(c, PendingToolCalls)), resolve, now);
    assert Restored(checkpoint, resolve, now) == a + b + results;
  }

  function HeadStamped(checkpoint: Value, now: string): seq<Value> {
    match Get(checkpoint, AssistantMessage)
    case Some(m) => if m.Object? then [WithTimestamp(m.fields, now)] else []
    case None => []
  }

  lemma HeadIsStamped(checkpoint: Value, now: string)
    ensures AllStamped(HeadStamped(checkpoint, now), HeadOf(checkpoint), now)
  {
    if HeadOf(checkpoint) != [] {
      StampIs(HeadOf(checkpoint)[0].fields, now);
    }
  }

  lemma LegacyBase(checkpoint: map<Key, Value>, now: string)
    requires AsArray(Get(Object(checkpoint), TurnMessages)).None?
    ensures BaseMessages(checkpoint, now)
         == HeadStamped(Object(checkpoint), now) + StampObjects(ListAt(Object(checkpoint), CompletedToolResults), now)
  {
  }

  /** Reading one of the newer layout: its messages as they are, then one result
      per pending call. */
  lemma CheckpointTells(checkpoint: map<Key, Value>, turn: seq<Value>, resolve: Value -> string, now: string)
    requires Get(Object(checkpoint), TurnMessages) == Some(Array(turn))
    ensures
      var restored, calls := Restored(checkpoint, resolve, now), Objects(ListAt(Object(checkpoint), PendingToolCalls));
      && turn <= restored && |restored| == |turn| + |calls|
      && forall i :: 0 <= i < |calls| ==> ResultFor(restored[|turn| + i], calls[i], resolve(calls[i]), now)
  {
    ResultsAreFor(ListAt(Object(checkpoint), PendingToolCalls), resolve, now);
  }

  lemma PayloadParts(kind: string, turn: seq<Value>, at: nat)
    requires LastRequest(turn) == Some(at)
    ensures
      var payload, done := Payload(kind, turn), ToolMessages(turn[at + 1..]);
      && Get(payload, Type) == Some(Str(kind)) && Get(payload, TurnMessages) == Some(Array(turn))
      && Get(payload, AssistantMessage) == Some(turn[at])
      && Get(payload, CompletedToolResults) == Some(Array(done))
      && Get(payload, PendingToolCalls) == Some(Array(Unanswered(ToolCalls(turn[at]), done)))
  {
  }

  /** No message behind `at` answers the call. */
  predicate OpenAfter(turn: seq<Value>, at: nat, call: Value) {
    forall j :: at < j < |turn| ==> !Answers(turn[j], call)
  }

  lemma OpenIsUnanswered(turn: seq<Value>, at: nat, call: Value)
    requires at < |turn|
    ensures Answered(ToolMessages(turn[at + 1..]), call) <==> !OpenAfter(turn, at, call)
  {
    var later := turn[at + 1..];
    AnsweredByToolMessages(later, call);
    if j :| at < j < |turn| && Answers(turn[j], call) {
      assert later[j - at - 1] == turn[j];
    }
  }

  /** What a built payload holds: the turn; and of its last tool request, the
      message, the tool messages behind it, and its calls that none of them
      answers, in order. */
  lemma PayloadTells(kind: string, turn: seq<Value>, at: nat)
    requires at < |turn| && RequestsTools(turn[at]) && forall j :: at < j < |turn| ==> !RequestsTools(turn[j])
    ensures
      var payload := Payload(kind, turn);
      && Get(payload, Type) == Some(Str(kind)) && Get(payload, TurnMessages) == Some(Array(turn))
      && Get(payload, AssistantMessage) == Some(turn[at])
      && ListAt(payload, CompletedToolResults) == Filter(turn[at + 1..], (m: Value) => HasRole(m, Tool))
      && ListAt(payload, PendingToolCalls) == Filter(ToolCalls(turn[at]), (c: Value) => OpenAfter(turn, at, c))
  {
    var later := turn[at + 1..];
    LastRequestIs(turn, at);
    PayloadParts(kind, turn, at);
    UnansweredInOrder(ToolCalls(turn[at]), ToolMessages(later));
    forall c ensures LacksResult(ToolMessages(later))(c) <==> OpenAfter(turn, at, c) {
      OpenIsUnanswered(turn, at, c);
    }
    FilterAlike(ToolCalls(turn[at]), LacksResult(ToolMessages(later)), (c: Value) => OpenAfter(turn, at, c));
  }

  /** Without a tool request it holds the turn alone. */
  lemma PayloadWithoutRequest(kind: string, turn: seq<Value>)
    requires forall j :: 0 <= j < |turn| ==> !RequestsTools(turn[j])
    ensures Payload(kind, turn) == Object(map[Type := Str(kind), TurnMessages := Array(turn)])
  {
  }

  ghost predicate ResultOfSome(m: Value, calls: seq<Value>, resolve: Value -> string, now: string) {
    exists c :: c in calls && c.Object? && m == ToolResultMessage(c, resolve(c), now)
  }

  lemma {:induction false} ResultsAre(calls: seq<Value>, resolve: Value -> string, now: string)
    ensures forall m :: m in ResultsFor(calls, resolve, now) <==> ResultOfSome(m, calls, resolve, now)
  {
    if calls != [] {
      var front, last := calls[..|calls| - 1], calls[|calls| - 1];
      assert calls == front + [last];
      ResultsAre(front, resolve, now);
      forall m ensures ResultOfSome(m, calls, resolve, now) <==>
        ResultOfSome(m, front, resolve, now) || (last.Object? && m == ToolResultMessage(last, resolve(last), now)) {
      }
    }
  }

  lemma {:induction false} RequestUnmoved(turn: seq<Value>, more: seq<Value>)
    requires forall i :: 0 <= i < |more| ==> HasRole(more[i], Tool)
    ensures LastRequest(turn + more) == LastRequest(turn)
  {
    if more == [] {
      assert turn + more == turn;
    } else {
      assert (turn + more)[..|turn + more| - 1] == turn + more[..|more| - 1];
      RequestUnmoved(turn, more[..|more| - 1]);
    }
  }

  /** A synthesized result answers the call it was made for exactly when the
      call has an id: a missing id is written as null, which is not missing. */
  lemma SynthesizedAnswers(call: Value, other: Value, content: string, now: string)
    ensures Answers(ToolResultMessage(call, content, now), other)
       <==> Get(other, Id) == Some(if Get(call, Id).Some? then Get(call, Id).value else Null)
  {
  }

  /** Building and reading once more adds nothing if and only if every pending
      call that is an object carries an id. */
  lemma RebuildAddsNothingIff(kind: string, again: string, turn: seq<Value>,
                              resolve: Value -> string, resolve': Value -> string, now: string, later: string)
    ensures
      var once := Restored(Payload(kind, turn).fields, resolve, now);
      Restored(Payload(again, once).fields, resolve', later) == once
      <==> forall c :: c in PendingCalls(turn) && c.Object? ==> Get(c, Id).Some?
  {
    RoundTrip(kind, turn, resolve, now);
    var open := PendingCalls(turn);
    var results := ResultsFor(open, resolve, now);
    var once := turn + results;
    RoundTrip(again, once, resolve', later);
    ResultsAre(open, resolve, now);
    forall i | 0 <= i < |results| ensures HasRole(results[i], Tool) {
      assert results[i] in results && ResultOfSome(results[i], open, resolve, now);
    }
    RequestUnmoved(turn, results);
    var stillOpen := PendingCalls(once);
    forall c: Value | c.Object? ensures c in stillOpen <==> c in open && Get(c, Id).None? {
      if LastRequest(turn).Some? {
        StillPending(turn, LastRequest(turn).value, resolve, now, c);
      }
    }
    ResultsEmpty(stillOpen, resolve', later);
    assert once + ResultsFor(stillOpen, resolve', later) == once <==> ResultsFor(stillOpen, resolve', later) == [];
  }

  const NAMELESS := Object(map[Name := Str("ls")])
  const ASKING := Object(map[Role := RoleName(Assistant), ToolCallList := Array([NAMELESS])])

  lemma NamelessIsPending()
    ensures PendingCalls([ASKING]) == [NAMELESS]
  {
    var none: seq<Value> := [];
    assert ToolCalls(ASKING) == [NAMELESS] && RequestsTools([ASKING][0]);
    assert LastRequest([ASKING]) == Some(0);
    assert [ASKING][1..] == none && [NAMELESS][..0] == none;
    assert !Answered(none, NAMELESS);
    assert Unanswered([NAMELESS], none) == Unanswered(none, none) + [NAMELESS];
  }

  lemma ResultForOne(call: Value, resolve: Value -> string, now: string)
    requires call.Object?
    ensures ResultsFor([call], resolve, now) == [ToolResultMessage(call, resolve(call), now)]
  {
    assert [call][..0] == [];
  }

  /** A pending call without an id gets one more result. */
  lemma RebuildAddsMore(kind: string, again: string, turn: seq<Value>, call: Value,
                        resolve: Value -> string, resolve': Value -> string, now: string, later: string)
    requires call in PendingCalls(turn) && call.Object? && Get(call, Id).None?
    ensures
      var once := Restored(Payload(kind, turn).fields, resolve, now);
      once < Restored(Payload(again, once).fields, resolve', later)
  {
    var once := Restored(Payload(kind, turn).fields, resolve, now);
    RebuildAddsNothingIff(kind, again, turn, resolve, resolve', now, later);
    RoundTrip(again, once, resolve', later);
  }

  /** A call without an id is answered again each time its checkpoint is built
      and read. */
  lemma CallWithoutIdExample(resolve: Value -> string, resolve': Value -> string, now: string, later: string)
    ensures
      var once := Restored(Payload("tool", [ASKING]).fields, resolve, now);
      && once == [ASKING] + [ToolResultMessage(NAMELESS, resolve(NAMELESS), now)]
      && once < Restored(Payload("tool", once).fields, resolve', later)
  {
    NamelessIsPending();
    ResultForOne(NAMELESS, resolve, now);
    RoundTrip("tool", [ASKING], resolve, now);
    assert Get(NAMELESS, Id).None?;
    RebuildAddsMore("tool", "tool", [ASKING], NAMELESS, resolve, resolve', now, later);
  }

  lemma ResultsEmpty(calls: seq<Value>, resolve: Value -> string, now: string)
    ensures ResultsFor(calls, resolve, now) == [] <==> forall c :: c in calls ==> !c.Object?
  {
    ResultsAre(calls, resolve, now);
    var results := ResultsFor(calls, resolve, now);
    if results != [] {
      assert results[0] in results && ResultOfSome(results[0], calls, resolve, now);
    }
    forall c | c in calls && c.Object? ensures results != [] {
      assert ResultOfSome(ToolResultMessage(c, resolve(c), now), calls, resolve, now);
    }
  }

  /** What is pending after the synthesized results are in: the objects among
      the pending calls that have no id, and nothing else that is an object. */
  lemma StillPending(turn: seq<Value>, at: nat, resolve: Value -> string, now: string, c: Value)
    requires at < |turn| && c.Object?
    ensures c in PendingAt(turn + ResultsFor(PendingAt(turn, at), resolve, now), at)
       <==> c in PendingAt(turn, at) && Get(c, Id).None?
  {
    var open, after := PendingAt(turn, at), turn[at + 1..];
    var results := ResultsFor(open, resolve, now);
    assert (turn + results)[at + 1..] == after + results;
    UnansweredAre(ToolCalls(turn[at]), after);
    UnansweredAre(ToolCalls(turn[at]), after + results);
    AnsweredAppend(after, results, c);
    if c in open {
      AnsweredBySynthesized(open, resolve, now, c);
    }
  }

  lemma AnsweredBySynthesized(open: seq<Value>, resolve: Value -> string, now: string, c: Value)
    requires c in open && c.Object?
    ensures Answered(ResultsFor(open, resolve, now), c) <==> Get(c, Id).Some?
  {
    var results := ResultsFor(open, resolve, now);
    ResultsAre(open, resolve, now);
    if Get(c, Id).Some? {
      var m := ToolResultMessage(c, resolve(c), now);
      assert ResultOfSome(m, open, resolve, now);
      var i :| 0 <= i < |results| && results[i] == m;
      assert Answers(results[i], c);
    }
    forall i | 0 <= i < |results| ensures Get(results[i], ToolCallId).Some? {
      assert results[i] in results && ResultOfSome(results[i], open, resolve, now);
    }
  }

  lemma AnsweredAppend(a: seq<Value>, b: seq<Value>, c: Value)
    ensures Answered(a + b, c) == (Answered(a, c) || Answered(b, c))
  {
    if Answered(a, c) {
      var i :| 0 <= i < |a| && Answers(a[i], c);
      assert Answers((a + b)[i], c);
    }
    if Answered(b, c) {
      var i :| 0 <= i < |b| && Answers(b[i], c);
      assert Answers((a + b)[|a| + i], c);
    }
    if Answered(a + b, c) {
      var i :| 0 <= i < |a + b| && Answers((a + b)[i], c);
      assert if i < |a| then Answers(a[i], c) else Answers(b[i - |a|], c);
    }
  }

  // ---------------------------------------------------------------------
  // Every call ends with exactly one result
  // ---------------------------------------------------------------------

  /** How many tool messages answer calls with this id. */
  function ResultCount(messages: seq<Value>, id: Value): nat {
    if messages == [] then 0
    else
      var last := messages[|messages| - 1];
      ResultCount(messages[..|messages| - 1], id)
        + (if HasRole(last, Tool) && Get(last, ToolCallId) == Some(id) then 1 else 0)
  }

  /** Call `n` of the request at position `i`. */
  ghost predicate IsCall(turn: seq<Value>, i: int, n: int) {
    0 <= i < |turn| && RequestsTools(turn[i]) && 0 <= n < |ToolCalls(turn[i])|
  }

  function CallId(turn: seq<Value>, i: int, n: int): Option<Value>
    requires 0 <= i < |turn| && 0 <= n < |ToolCalls(turn[i])|
  {
    Get(ToolCalls(turn[i])[n], Id)
  }

  /** A turn as a runner produces it when the provider gives every call of the
      turn its own id: earlier requests have exactly one result per call, the
      last one has at most one each, all of them after the request. */
  ghost predicate RunnerShaped(turn: seq<Value>) {
    && UniqueIds(turn)
    && forall i, n :: IsCall(turn, i, n) ==> ResultsInPlace(turn, i, n)
  }

  ghost predicate UniqueIds(turn: seq<Value>) {
    && (forall i, n {:trigger IsCall(turn, i, n)} :: IsCall(turn, i, n) ==> ToolCalls(turn[i])[n].Object? && CallId(turn, i, n).Some?)
    && (forall i, n, j, m {:trigger IsCall(turn, i, n), IsCall(turn, j, m)} :: IsCall(turn, i, n) && IsCall(turn, j, m) && CallId(turn, i, n) == CallId(turn, j, m)
          ==> i == j && n == m)
  }

  ghost predicate ResultsInPlace(turn: seq<Value>, i: int, n: int)
    requires UniqueIds(turn) && IsCall(turn, i, n)
  {
    var id := CallId(turn, i, n).value;
    match LastRequest(turn)
    case None => false
    case Some(last) =>
      if i < last then ResultCount(turn, id) == 1
      else ResultCount(turn[..last + 1], id) == 0 && ResultCount(turn[last + 1..], id) <= 1
  }

  lemma {:induction false} ResultCountConcat(a: seq<Value>, b: seq<Value>, id: Value)
    ensures ResultCount(a + b, id) == ResultCount(a, id) + ResultCount(b, id)
  {
    if b == [] {
      assert a + b == a;
    } else {
      assert (a + b)[..|a + b| - 1] == a + b[..|b| - 1];
      ResultCountConcat(a, b[..|b| - 1], id);
    }
  }

  lemma {:induction false} CountedIffAnswered(messages: seq<Value>, call: Value)
    requires Get(call, Id).Some?
    ensures ResultCount(messages, Get(call, Id).value) > 0 <==> Answered(messages, call)
  {
    if messages != [] {
      var front, last := messages[..|messages| - 1], messages[|messages| - 1];
      CountedIffAnswered(front, call);
      assert messages == front + [last];
      AnsweredAppend(front, [last], call);
      assert Answered([last], call) <==> Answers([last][0], call);
    }
  }

  /** Some call with this id has no result among `messages`. */
  ghost predicate OpenId(calls: seq<Value>, messages: seq<Value>, id: Value) {
    exists n :: 0 <= n < |calls| && Get(calls[n], Id) == Some(id) && !Answered(messages, calls[n])
  }

  ghost predicate OwnIds(calls: seq<Value>) {
    && (forall n :: 0 <= n < |calls| ==> calls[n].Object? && Get(calls[n], Id).Some?)
    && (forall n, m :: 0 <= n < m < |calls| ==> DifferentIds(calls, n, m))
  }

  ghost predicate DifferentIds(calls: seq<Value>, n: int, m: int)
    requires 0 <= n < m < |calls|
  {
    Get(calls[n], Id) != Get(calls[m], Id)
  }

  lemma ResultCountSnoc(messages: seq<Value>, m: Value, id: Value)
    ensures ResultCount(messages + [m], id) == ResultCount(messages, id)
            + (if HasRole(m, Tool) && Get(m, ToolCallId) == Some(id) then 1 else 0)
  {
    assert (messages + [m])[..|messages|] == messages;
  }

  lemma ResultsForSnoc(calls: seq<Value>, call: Value, resolve: Value -> string, now: string)
    ensures ResultsFor(calls + [call], resolve, now) == ResultsFor(calls, resolve, now)
            + (if call.Object? then [ToolResultMessage(call, resolve(call), now)] else [])
  {
    assert (calls + [call])[..|calls|] == calls;
  }

  lemma OpenIdSnoc(calls: seq<Value>, call: Value, messages: seq<Value>, id: Value)
    ensures OpenId(calls + [call], messages, id) <==>
            OpenId(calls, messages, id) || (Get(call, Id) == Some(id) && !Answered(messages, call))
  {
    var all := calls + [call];
    assert all[|calls|] == call;
    assert forall n :: 0 <= n < |calls| ==> all[n] == calls[n];
  }

  /** Distinct ids make the synthesized results distinct too. */
  lemma {:induction false} SynthesizedCount(calls: seq<Value>, messages: seq<Value>,
                                            resolve: Value -> string, now: string, id: Value)
    requires OwnIds(calls)
    ensures ResultCount(ResultsFor(Unanswered(calls, messages), resolve, now), id)
         == if OpenId(calls, messages, id) then 1 else 0
  {
    if calls != [] {
      var front, last := calls[..|calls| - 1], calls[|calls| - 1];
      assert calls == front + [last];
      forall n, m | 0 <= n < m < |front| ensures DifferentIds(front, n, m) {
        assert DifferentIds(calls, n, m);
      }
      SynthesizedCount(front, messages, resolve, now, id);
      OpenIdSnoc(front, last, messages, id);
      var open := Unanswered(front, messages);
      if Answered(messages, last) {
        assert Unanswered(calls, messages) == open;
      } else {
        assert Unanswered(calls, messages) == open + [last];
        assert Get(calls[|calls| - 1], Id).Some?;
        if OpenId(front, messages, id) {
          var n :| 0 <= n < |front| && Get(front[n], Id) == Some(id);
          assert DifferentIds(calls, n, |calls| - 1);
        }
        ResultsForSnoc(open, last, resolve, now);
        ResultCountSnoc(ResultsFor(open, resolve, now), ToolResultMessage(last, resolve(last), now), id);
      }
    }
  }

  lemma RequestOwnsIds(turn: seq<Value>, at: nat)
    requires UniqueIds(turn) && at < |turn| && RequestsTools(turn[at])
    ensures OwnIds(ToolCalls(turn[at]))
  {
    var calls := ToolCalls(turn[at]);
    forall m | 0 <= m < |calls| ensures calls[m].Object? && Get(calls[m], Id).Some? {
      assert IsCall(turn, at, m);
    }
    forall m, k | 0 <= m < k < |calls| ensures DifferentIds(calls, m, k) {
      assert IsCall(turn, at, m) && IsCall(turn, at, k);
    }
  }

  lemma OpenIdIsOwn(turn: seq<Value>, i: int, n: int, at: nat, after: seq<Value>)
    requires UniqueIds(turn) && IsCall(turn, i, n)
    requires at < |turn| && RequestsTools(turn[at])
    ensures OpenId(ToolCalls(turn[at]), after, CallId(turn, i, n).value)
       <==> i == at && !Answered(after, ToolCalls(turn[i])[n])
  {
    var calls, id := ToolCalls(turn[at]), CallId(turn, i, n).value;
    if OpenId(calls, after, id) {
      var m :| 0 <= m < |calls| && Get(calls[m], Id) == Some(id) && !Answered(after, calls[m]);
      assert IsCall(turn, at, m) && CallId(turn, at, m) == CallId(turn, i, n);
    }
    if i == at && !Answered(after, calls[n]) {
      assert Get(calls[n], Id) == Some(id);
    }
  }

  /** Only calls of the last request without a result get one synthesized. */
  lemma SynthesizedFor(turn: seq<Value>, at: nat, i: int, n: int, resolve: Value -> string, now: string)
    requires UniqueIds(turn) && IsCall(turn, i, n)
    requires at < |turn| && RequestsTools(turn[at])
    ensures ResultCount(ResultsFor(PendingAt(turn, at), resolve, now), CallId(turn, i, n).value)
         == if i == at && !Answered(turn[at + 1..], ToolCalls(turn[i])[n]) then 1 else 0
  {
    RequestOwnsIds(turn, at);
    OpenIdIsOwn(turn, i, n, at, turn[at + 1..]);
    SynthesizedCount(ToolCalls(turn[at]), turn[at + 1..], resolve, now, CallId(turn, i, n).value);
  }

  lemma OneResult(turn: seq<Value>, at: nat, i: int, n: int, resolve: Value -> string, now: string)
    requires UniqueIds(turn) && IsCall(turn, i, n) && ResultsInPlace(turn, i, n)
    requires LastRequest(turn) == Some(at)
    ensures ResultCount(turn + ResultsFor(PendingAt(turn, at), resolve, now), CallId(turn, i, n).value) == 1
    ensures ResultCount(turn, CallId(turn, i, n).value) == 0 ==> ToolCalls(turn[i])[n] in PendingAt(turn, at)
  {
    var id, call, after := CallId(turn, i, n).value, ToolCalls(turn[i])[n], turn[at + 1..];
    LastRequestIs(turn, i);
    SynthesizedFor(turn, at, i, n, resolve, now);
    ResultCountConcat(turn, ResultsFor(PendingAt(turn, at), resolve, now), id);
    assert turn == turn[..at + 1] + after;
    ResultCountConcat(turn[..at + 1], after, id);
    CountedIffAnswered(after, call);
    UnansweredAre(ToolCalls(turn[at]), after);
  }

  /** In a restored turn of the runner's shape every call the model made has
      exactly one result; a call that had none carries what `resolve` gave. */
  lemma EveryCallEndsWithOneResult(kind: string, turn: seq<Value>, resolve: Value -> string, now: string, i: int, n: int)
    requires RunnerShaped(turn) && IsCall(turn, i, n)
    ensures
      var call := ToolCalls(turn[i])[n];
      var restored := Restored(Payload(kind, turn).fields, resolve, now);
      && ResultCount(restored, CallId(turn, i, n).value) == 1
      && (ResultCount(turn, CallId(turn, i, n).value) == 0 ==> ToolResultMessage(call, resolve(call), now) in restored)
  {
    RoundTrip(kind, turn, resolve, now);
    LastRequestIs(turn, i);
    var at := LastRequest(turn).value;
    OneResult(turn, at, i, n, resolve, now);
    var call, open := ToolCalls(turn[i])[n], PendingAt(turn, at);
    if ResultCount(turn, CallId(turn, i, n).value) == 0 {
      ResultsAre(open, resolve, now);
      assert ResultOfSome(ToolResultMessage(call, resolve(call), now), open, resolve, now);
    }
  }
}
