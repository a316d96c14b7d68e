// The history log: entries numbered by a cursor kept in its own file, read in
// batches by Dream, which remembers the cursor it got to and then drops the
// oldest entries.

module History {
  import opened Wrappers
  import opened Sequences

  /** `serial` counts the entries ever written and tells equal ones apart;
      nothing reads it. */
  datatype Entry = Entry(cursor: nat, content: string, serial: nat)

  /** The three files. */
  datatype Store = Store(log: seq<Entry>, cursorFile: Option<nat>, dream: nat)

  /** `maxEntries == 0` keeps everything. */
  datatype Limits = Limits(maxEntries: nat, maxBatch: nat)

  const EMPTY := Store([], None, 0)

  /** The number the next one follows: the cursor file's, without one that of the
      log's last entry. */
  function Base(s: Store): nat {
    if s.cursorFile.Some? then s.cursorFile.value
    else if s.log != [] then s.log[|s.log| - 1].cursor
    else 0
  }

  function NextCursor(s: Store): nat { Base(s) + 1 }

  /** Entries with a later cursor, in log order. */
  function Unread(log: seq<Entry>, since: nat): (unread: seq<Entry>)
    ensures |unread| <= |log|
  {
    if log == [] then []
    else
      Unread(log[..|log| - 1], since) + (if log[|log| - 1].cursor > since then [log[|log| - 1]] else [])
  }

  function Excess(log: seq<Entry>, limits: Limits): nat {
    if limits.maxEntries == 0 || |log| <= limits.maxEntries then 0 else |log| - limits.maxEntries
  }

  /** What a Dream run reads. */
  function Batch(s: Store, limits: Limits): seq<Entry> {
    var unread := Unread(s.log, s.dream);
    if |unread| <= limits.maxBatch then unread else unread[..limits.maxBatch]
  }

  /** What a run that read this batch leaves once its model is done, whatever the
      files hold by then. */
  function Committed(s: Store, batch: seq<Entry>, limits: Limits): Store
    requires batch != []
  {
    s.(dream := batch[|batch| - 1].cursor, log := s.log[Excess(s.log, limits)..])
  }

  lemma UnreadSnoc(log: seq<Entry>, e: Entry, since: nat)
    ensures Unread(log + [e], since) == Unread(log, since) + (if e.cursor > since then [e] else [])
  {
    assert (log + [e])[..|log|] == log;
  }

  lemma {:induction false} UnreadAre(log: seq<Entry>, since: nat)
    ensures forall e :: e in Unread(log, since) <==> e in log && e.cursor > since
  {
    if log != [] {
      FrontLast(log);
      UnreadAre(log[..|log| - 1], since);
    }
  }

  function Later(since: nat): Entry -> bool { (e: Entry) => e.cursor > since }

  /** Exactly the entries with a later cursor are unread, each as often and in the
      order that the log has them. */
  lemma {:induction false} UnreadInOrder(log: seq<Entry>, since: nat)
    ensures Unread(log, since) == Filter(log, Later(since))
  {
    if log != [] {
      UnreadInOrder(log[..|log| - 1], since);
    }
  }

  lemma AnyUnread(log: seq<Entry>, since: nat)
    ensures Unread(log, since) != [] <==> exists e :: e in log && e.cursor > since
  {
    UnreadAre(log, since);
    if Unread(log, since) != [] {
      assert Unread(log, since)[0] in Unread(log, since);
    }
  }

  // ---------------------------------------------------------------------
  // The store
  // ---------------------------------------------------------------------

  /** How far an append got: the log write failed, the cursor write did not
      happen (a failure or a crash in between), or both happened. */
  datatype Reached = NotLogged | LoggedOnly | Recorded

  class MemoryStore {
    var log: seq<Entry>
    var cursorFile: Option<nat>
    var dreamCursor: nat
    var written: nat

    ghost function State(): Store reads this { Store(log, cursorFile, dreamCursor) }

    constructor ()
      ensures State() == EMPTY && written == 0
    {
      log, cursorFile, dreamCursor, written := [], None, 0, 0;
    }

    /** Returns the entry's number, zero when a write failed. */
    method AppendHistory(content: string, reached: Reached) returns (cursor: nat)
      modifies this
      ensures NextCursor(old(State())) == (if old(cursorFile).Some? then old(cursorFile).value
                                           else if old(log) != [] then old(log)[|old(log)| - 1].cursor
                                           else 0) + 1
      ensures cursor == if reached.Recorded? then NextCursor(old(State())) else 0
      ensures log == old(log) + if reached.NotLogged? then [] else [Entry(NextCursor(old(State())), content, old(written))]
      ensures cursorFile == if reached.Recorded? then Some(NextCursor(old(State()))) else old(cursorFile)
      ensures dreamCursor == old(dreamCursor)
      ensures written == old(written) + if reached.NotLogged? then 0 else 1
    {
      var next := if cursorFile.Some? then cursorFile.value + 1
                  else if log != [] then log[|log| - 1].cursor + 1
                  else 1;
      if reached.NotLogged? {
        return 0;
      }
      log := log + [Entry(next, content, written)];
      written := written + 1;
      if reached.LoggedOnly? {
        return 0;
      }
      cursorFile := Some(next);
      cursor := next;
    }

    method CompactHistory(limits: Limits)
      modifies this
      ensures State() == old(State()).(log := old(log)[Excess(old(log), limits)..])
      ensures limits.maxEntries > 0 ==> |log| <= limits.maxEntries
      ensures |log| < |old(log)| ==> |log| == limits.maxEntries > 0
      ensures written == old(written)
    {
      if limits.maxEntries == 0 || |log| <= limits.maxEntries {
        assert log[0..] == log;
        return;
      }
      log := log[|log| - limits.maxEntries..];
    }

    method ReadUnprocessed(since: nat) returns (unread: seq<Entry>)
      ensures unread == Unread(log, since)
      ensures unread == Filter(log, Later(since))
    {
      UnreadInOrder(log, since);
      unread := [];
      for n := 0 to |log|
        invariant unread == Unread(log[..n], since)
      {
        TakeSnoc(log, n);
        if log[n].cursor > since {
          unread := unread + [log[n]];
        }
      }
      TakeAll(log);
    }

    /** Moves the cursor behind the batch and drops the oldest entries. */
    method Commit(batch: seq<Entry>, limits: Limits)
      requires batch != []
      modifies this
      ensures State() == Committed(old(State()), batch, limits)
    {
      dreamCursor := batch[|batch| - 1].cursor;
      CompactHistory(limits);
    }

    method TakeFiles(files: Store)
      modifies this
      ensures State() == files
    {
      log, cursorFile, dreamCursor := files.log, files.cursorFile, files.dream;
    }

    /** One Dream run. While it waits for its model the others leave the files as
        `meanwhile` says; `analyzed` says whether its first phase succeeded and
        `completed` whether the second did, which only the result tells. */
    method RunDream(limits: Limits, analyzed: bool, completed: bool, meanwhile: Store -> Store) returns (worked: bool)
      requires limits.maxBatch > 0
      modifies this
      ensures
        var batch := Batch(old(State()), limits);
        State() == if batch == [] then old(State())
                   else if !analyzed then meanwhile(old(State()))
                   else Committed(meanwhile(old(State())), batch, limits)
      ensures worked <==> analyzed && completed && exists e :: e in old(log) && e.cursor > old(dreamCursor)
    {
      AnyUnread(log, dreamCursor);
      var unread := ReadUnprocessed(dreamCursor);
      if unread == [] {
        return false;
      }
      var batch := if |unread| <= limits.maxBatch then unread else unread[..limits.maxBatch];
      TakeFiles(meanwhile(Store(log, cursorFile, dreamCursor)));
      if !analyzed {
        return false;
      }
      Commit(batch, limits);
      worked := completed;
    }
  }
}
