// The per-session run journal: an append-only write-ahead log of what a turn
// did. Storage is modelled as the ordered list of intact entries that a scan
// returns.

module Journal {
  import opened Wrappers
  import opened Sequences
  import opened Json

  datatype TurnOutcome = Completed | Cancelled | Failed | Abandoned

  datatype ToolCallStatus = Intent | Done | Error | Blocked | Cancelled {
    predicate IsTerminal() { !Intent? }
  }

  datatype StepKind = PreModel | PreTool | PreCompaction | Final

  datatype InboxState = Queued | Processing | Answered

  /** One journal record. Of an inbox ledger record only its identity is kept. */
  datatype Record =
    | TurnStart(turnId: string, sessionKey: string, requestId: Option<string>,
                userMessage: Option<Value>, attempt: nat,
                channel: Option<string>, chatId: Option<string>)
    | TurnEnd(turnId: string, outcome: TurnOutcome)
    | TurnRestored(turnId: string)
    | ToolIntent(turnId: string, callId: string, toolName: string, args: Value,
                 replaySafe: bool, status: ToolCallStatus, result: Option<string>)
    | StepCheckpoint(turnId: string, step: StepKind, payload: Value)
    | Inbox(messageId: string, state: InboxState, owner: Option<string>, message: Option<Value>)
    | Degraded(owner: Option<string>, reason: string)
  {
    /** Whose record it is; ledger and degradation records may be nobody's. */
    function Turn(): Option<string> {
      match this
      case Inbox(_, _, owner, _) => owner
      case Degraded(owner, _) => owner
      case _ => Some(turnId)
    }
  }

  type CallRecord = r: Record | r.ToolIntent?
    witness ToolIntent("", "", "", Null, false, Intent, None)

  datatype Entry = Entry(number: nat, ts: string, record: Record)

  /** Journal entries are numbered in strictly increasing order below `next`. */
  ghost predicate Numbered(entries: seq<Entry>, next: nat) {
    && (forall i :: 0 <= i < |entries| ==> entries[i].number < next)
    && (forall i, j :: 0 <= i < j < |entries| ==> entries[i].number < entries[j].number)
  }

  /** Keeping a subsequence keeps the numbering strictly increasing. */
  lemma {:induction false} FilterNumbered(entries: seq<Entry>, next: nat, keep: Entry -> bool)
    requires Numbered(entries, next)
    ensures Numbered(Filter(entries, keep), next)
    ensures forall e :: e in Filter(entries, keep) ==> e in entries
  {
    if entries != [] {
      var front, last := entries[..|entries| - 1], entries[|entries| - 1];
      assert entries == front + [last];
      assert Numbered(front, last.number);
      FilterNumbered(front, last.number, keep);
    }
  }

  class RunJournal {
    var entries: seq<Entry>
    var nextNumber: nat

    ghost predicate Valid()
      reads this
    {
      nextNumber > 0 && Numbered(entries, nextNumber)
    }

    constructor ()
      ensures Valid() && entries == []
    {
      entries := [];
      nextNumber := 1;
    }

    /** Appends `record` and returns the sequence number it got. */
    method Append(record: Record, ts: string) returns (number: nat)
      requires Valid()
      modifies this
      ensures Valid()
      ensures entries == old(entries) + [Entry(number, ts, record)]
      ensures old(nextNumber) <= number < nextNumber
    {
      number := nextNumber;
      entries := entries + [Entry(number, ts, record)];
      nextNumber := number + 1;
    }

    /** Keeps the entries that `keep` selects, under their numbers; this store
        hands no dropped number out again. A store opened later on the file goes
        on from the last entry left in it, so numbers of a dropped tail return. */
    method Compact(keep: Entry -> bool) returns (dropped: nat)
      requires Valid()
      modifies this
      ensures Valid()
      ensures entries == Filter(old(entries), keep)
      ensures nextNumber == old(nextNumber)
      ensures dropped == |old(entries)| - |entries|
    {
      FilterNumbered(entries, nextNumber, keep);
      var kept: seq<Entry> := [];
      for i := 0 to |entries|
        invariant kept == Filter(entries[..i], keep)
        invariant entries == old(entries) && nextNumber == old(nextNumber)
      {
        assert entries[..i + 1][..i] == entries[..i];
        if keep(entries[i]) {
          kept := kept + [entries[i]];
        }
      }
      assert entries[..|entries|] == entries;
      dropped := |entries| - |kept|;
      entries := kept;
    }
  }
}
