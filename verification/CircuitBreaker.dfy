// The breaker that stops a run of identical messages, against the trace of
// the tool calls it observed.

module CircuitBreaker {
  import opened Wrappers
  import opened Text

  const MESSAGE_TOOL := "message"

  /** A tool call: its tool and the text of its `content` argument, if any. */
  datatype Call = Call(tool: string, content: Option<string>)

  datatype CircuitDecision = Allow | Tripped(streak: nat)

  /** What the breaker compares: the trimmed text of a message call that has
      one. */
  function Sends(call: Call): Option<string> {
    if call.tool != MESSAGE_TOOL || call.content.None? || Trim(call.content.value) == "" then None
    else Some(Trim(call.content.value))
  }

  /** Only calls of the message tool with some text send one: that text without
      the white space around it. */
  lemma SendsIff(call: Call, text: string)
    ensures Sends(call) == Some(text) <==>
      call.tool == "message" && call.content.Some? && IsTrimOf(call.content.value, text) && text != ""
  {
    if call.content.Some? {
      TrimTells(call.content.value);
      if IsTrimOf(call.content.value, text) {
        OneTrim(call.content.value, text);
      }
    }
  }

  /** The last `n` calls up to `end` are message calls with the same text. */
  predicate Identical(calls: seq<Call>, end: nat, n: nat)
    requires 0 < n <= end <= |calls|
  {
    Sends(calls[end - 1]).Some? && forall i :: end - n <= i < end ==> Sends(calls[i]) == Sends(calls[end - 1])
  }

  /** Somewhere in the trace `n` consecutive calls sent the same text. */
  predicate EverIdentical(calls: seq<Call>, n: nat)
    requires n > 0
  {
    exists end: nat :: n <= end <= |calls| && Identical(calls, end, n)
  }

  /** The length of the run of identical messages the trace ends with. */
  function RunLength(calls: seq<Call>): nat {
    if calls == [] || Sends(calls[|calls| - 1]).None? then 0
    else if |calls| > 1 && Sends(calls[|calls| - 2]) == Sends(calls[|calls| - 1]) then RunLength(calls[..|calls| - 1]) + 1
    else 1
  }

  /** The last call sends a text, and the same as the one before it. */
  predicate Repeats(calls: seq<Call>) {
    |calls| > 1 && Sends(calls[|calls| - 1]).Some? && Sends(calls[|calls| - 2]) == Sends(calls[|calls| - 1])
  }

  lemma RunGrows(calls: seq<Call>, n: nat)
    requires n > 1 && Repeats(calls)
    ensures n <= |calls| && Identical(calls, |calls|, n) <==>
            n - 1 <= |calls| - 1 && Identical(calls[..|calls| - 1], |calls| - 1, n - 1)
  {
    var front := calls[..|calls| - 1];
    assert forall i :: 0 <= i < |front| ==> front[i] == calls[i];
    if n <= |calls| && Identical(front, |front|, n - 1) {
      forall i | |calls| - n <= i < |calls| ensures Sends(calls[i]) == Sends(calls[|calls| - 1]) {
        assert i < |front| ==> Sends(front[i]) == Sends(front[|front| - 1]);
      }
    }
  }

  lemma {:induction false} RunLengthIs(calls: seq<Call>, n: nat)
    requires n > 0
    ensures RunLength(calls) <= |calls|
    ensures RunLength(calls) >= n <==> n <= |calls| && Identical(calls, |calls|, n)
  {
    if Repeats(calls) {
      if n > 1 {
        RunLengthIs(calls[..|calls| - 1], n - 1);
        RunGrows(calls, n);
      } else {
        RunLengthIs(calls[..|calls| - 1], 1);
      }
    }
  }

  lemma EverIdenticalSnoc(calls: seq<Call>, call: Call, n: nat)
    requires n > 0
    ensures EverIdentical(calls + [call], n) <==> EverIdentical(calls, n) || RunLength(calls + [call]) >= n
  {
    var all := calls + [call];
    RunLengthIs(all, n);
    forall end: nat | n <= end <= |calls| ensures Identical(all, end, n) <==> Identical(calls, end, n) {
      assert forall i :: 0 <= i < |calls| ==> all[i] == calls[i];
    }
  }

  class MessageCircuitBreaker {
    const threshold: nat
    var lastContent: Option<string>
    var streak: nat
    var tripped: bool
    /** Every call observed so far. */
    ghost var calls: seq<Call>

    /** The breaker is open exactly if the trace held a run of `threshold`
        identical messages. */
    ghost predicate Valid() reads this {
      && threshold > 0
      && (tripped <==> EverIdentical(calls, threshold))
      && (tripped ==> streak == threshold)
      && (!tripped ==>
          && streak == RunLength(calls)
          && lastContent == if calls == [] then None else Sends(calls[|calls| - 1]))
    }

    constructor (threshold: nat)
      ensures Valid() && calls == [] && this.threshold == if threshold == 0 then 1 else threshold
    {
      this.threshold := if threshold == 0 then 1 else threshold;
      lastContent, streak, tripped, calls := None, 0, false, [];
    }

    /** Records a call. The answer depends on the trace alone: open, with the
        threshold as streak, once it held a run of that many identical
        messages, and for every later call. */
    method Observe(call: Call) returns (decision: CircuitDecision)
      requires Valid()
      modifies this
      ensures Valid() && calls == old(calls) + [call]
      ensures decision == if EverIdentical(calls, threshold) then Tripped(threshold) else Allow
    {
      EverIdenticalSnoc(calls, call, threshold);
      RunLengthIs(calls, threshold);
      assert (calls + [call])[..|calls|] == calls;
      calls := calls + [call];
      if tripped {
        return Tripped(streak);
      }
      var content := Sends(call);
      if content.None? {
        Reset();
        return Allow;
      }
      if lastContent == content {
        streak := streak + 1;
      } else {
        lastContent, streak := content, 1;
      }
      if streak >= threshold {
        tripped := true;
        return Tripped(streak);
      }
      decision := Allow;
    }

    method Reset()
      modifies this`lastContent, this`streak
      ensures lastContent == None && streak == 0
    {
      lastContent, streak := None, 0;
    }
  }
}
