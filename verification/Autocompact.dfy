// Scheduling idle compactions: which sessions are due, and the flags that keep
// one session from being compacted twice at a time.

module Autocompact {
  import opened Wrappers
  import opened Sequences
  import opened Json
  import opened LegalSuffix
  import opened Consolidation

  const RECENT_SUFFIX := 8
  const INTERNAL_PREFIX := "dream:"

  predicate IsInternal(key: string) { INTERNAL_PREFIX <= key }

  /** A listed session: its key (empty when the listing has none) and the text
      of its last update. */
  datatype Listed = Listed(key: string, updatedAt: string)

  datatype Stamp = At(seconds: int) | Text(text: string)

  /** `parse` reads a timestamp as seconds; None when it is unreadable. */
  datatype Clock = Clock(ttlMinutes: int, now: int, parse: string -> Option<int>)

  predicate OldEnough(at: int, clock: Clock) { (clock.now - at) / 60 >= clock.ttlMinutes }

  predicate IsExpired(stamp: Option<Stamp>, clock: Clock) {
    if clock.ttlMinutes <= 0 then false
    else
      match stamp
      case None => false
      case Some(At(t)) => OldEnough(t, clock)
      case Some(Text(s)) =>
        if s == "" then false
        else match clock.parse(s)
             case None => true
             case Some(t) => OldEnough(t, clock)
  }

  /** A listed time counts as expired if compaction is on, there is one, and it
      cannot be read or at least the configured minutes have passed since. */
  lemma ExpiredIff(text: string, clock: Clock)
    ensures IsExpired(Some(Text(text)), clock) <==>
      && clock.ttlMinutes > 0 && text != ""
      && (clock.parse(text).Some? ==> clock.now - clock.parse(text).value >= 60 * clock.ttlMinutes)
  {
  }

  /** An idle compaction would drop something. */
  ghost predicate Compactable(sessions: map<string, Ledger>, key: string) {
    key in sessions && Dropped(sessions[key], RECENT_SUFFIX) > 0
  }

  /** Everything a listed session must satisfy but for the in-flight flag. */
  ghost predicate Due(entry: Listed, sessions: map<string, Ledger>, active: set<string>, clock: Clock) {
    && entry.key != "" && !IsInternal(entry.key) && entry.key !in active
    && IsExpired(Some(Text(entry.updatedAt)), clock)
    && Compactable(sessions, entry.key)
  }

  /** The keys one check schedules, in listing order, each at most once. */
  ghost function Scheduled(listed: seq<Listed>, sessions: map<string, Ledger>, active: set<string>, clock: Clock,
                           archiving: set<string>): seq<string> {
    if listed == [] then []
    else
      var rest, last := Scheduled(listed[..|listed| - 1], sessions, active, clock, archiving), listed[|listed| - 1];
      if Due(last, sessions, active, clock) && last.key !in archiving && last.key !in rest then rest + [last.key] else rest
  }

  function Keys(keys: seq<string>): set<string> { set k | k in keys }

  lemma {:induction false} ScheduledAre(listed: seq<Listed>, sessions: map<string, Ledger>, active: set<string>,
                                        clock: Clock, archiving: set<string>)
    ensures forall k :: k in Scheduled(listed, sessions, active, clock, archiving) <==>
      k !in archiving && exists e :: e in listed && e.key == k && Due(e, sessions, active, clock)
    ensures NoDuplicates(Scheduled(listed, sessions, active, clock, archiving))
  {
    if listed != [] {
      ScheduledAre(listed[..|listed| - 1], sessions, active, clock, archiving);
      assert listed == listed[..|listed| - 1] + [listed[|listed| - 1]];
    }
  }

  /** A key's first due listing. */
  ghost predicate FirstDueAt(listed: seq<Listed>, sessions: map<string, Ledger>, active: set<string>, clock: Clock,
                             key: string, i: nat) {
    && i < |listed| && listed[i].key == key && Due(listed[i], sessions, active, clock)
    && forall j :: 0 <= j < i && listed[j].key == key ==> !Due(listed[j], sessions, active, clock)
  }

  ghost predicate DueBefore(listed: seq<Listed>, sessions: map<string, Ledger>, active: set<string>, clock: Clock,
                            a: string, b: string) {
    forall p: nat, q: nat ::
      FirstDueAt(listed, sessions, active, clock, a, p) && FirstDueAt(listed, sessions, active, clock, b, q) ==> p < q
  }

  lemma FirstDueSnoc(listed: seq<Listed>, last: Listed, sessions: map<string, Ledger>, active: set<string>, clock: Clock,
                     key: string, i: nat)
    requires FirstDueAt(listed + [last], sessions, active, clock, key, i)
    ensures if i < |listed| then FirstDueAt(listed, sessions, active, clock, key, i)
            else forall e :: e in listed && e.key == key ==> !Due(e, sessions, active, clock)
  {
    assert forall j :: 0 <= j < |listed| ==> (listed + [last])[j] == listed[j];
  }

  /** They come in the order in which the listing has them. */
  lemma {:induction false} ScheduledInOrder(listed: seq<Listed>, sessions: map<string, Ledger>, active: set<string>,
                                            clock: Clock, archiving: set<string>, i: nat, j: nat)
    requires i < j < |Scheduled(listed, sessions, active, clock, archiving)|
    ensures
      var keys := Scheduled(listed, sessions, active, clock, archiving);
      DueBefore(listed, sessions, active, clock, keys[i], keys[j])
  {
    var front, last := listed[..|listed| - 1], listed[|listed| - 1];
    var keys, rest := Scheduled(listed, sessions, active, clock, archiving), Scheduled(front, sessions, active, clock, archiving);
    FrontLast(listed);
    ScheduledAre(front, sessions, active, clock, archiving);
    assert rest[i] in rest;
    if j < |rest| {
      assert rest[j] in rest;
      ScheduledInOrder(front, sessions, active, clock, archiving, i, j);
    }
    forall p: nat, q: nat | FirstDueAt(listed, sessions, active, clock, keys[i], p) && FirstDueAt(listed, sessions, active, clock, keys[j], q)
      ensures p < q
    {
      FirstDueSnoc(front, last, sessions, active, clock, keys[i], p);
      FirstDueSnoc(front, last, sessions, active, clock, keys[j], q);
    }
  }

  class Scheduler {
    /** Sessions with an idle compaction in flight. */
    var archiving: set<string>

    constructor ()
      ensures archiving == {}
    {
      archiving := {};
    }

    method HasCompactableIdleTail(sessions: map<string, Ledger>, key: string) returns (compactable: bool)
      ensures compactable == Compactable(sessions, key)
    {
      if key !in sessions {
        return false;
      }
      var tail := Tail(sessions[key]);
      var kept := RetainRecentLegalSuffix(tail, RECENT_SUFFIX);
      RetainedIs(tail, RECENT_SUFFIX);
      compactable := |kept| != |tail|;
    }

    /** One pass over the listed sessions. */
    method CheckExpired(listed: seq<Listed>, sessions: map<string, Ledger>, active: set<string>, clock: Clock)
      returns (scheduled: seq<string>)
      modifies this
      ensures scheduled == Scheduled(listed, sessions, active, clock, old(archiving))
      ensures archiving == old(archiving) + Keys(scheduled)
    {
      scheduled := [];
      for n := 0 to |listed|
        invariant scheduled == Scheduled(listed[..n], sessions, active, clock, old(archiving))
        invariant archiving == old(archiving) + Keys(scheduled)
      {
        TakeSnoc(listed, n);
        var entry := listed[n];
        if entry.key != "" && !IsInternal(entry.key) && entry.key !in archiving && entry.key !in active {
          var expired := IsExpired(Some(Text(entry.updatedAt)), clock);
          var compactable := HasCompactableIdleTail(sessions, entry.key);
          if expired && compactable {
            archiving := archiving + {entry.key};
            scheduled := scheduled + [entry.key];
          }
        }
      }
      TakeAll(listed);
    }

    /** The guard's drop, when the compaction ends in whatever way. */
    method Unmark(key: string)
      modifies this
      ensures archiving == old(archiving) - {key}
    {
      archiving := archiving - {key};
    }
  }

  // ---------------------------------------------------------------------
  // The whole schedule
  // ---------------------------------------------------------------------

  /** `jobs` are the compactions spawned and not finished yet. */
  datatype State = State(sessions: map<string, Ledger>, archiving: set<string>, jobs: seq<string>)

  datatype Step =
    | Check(listed: seq<Listed>, active: set<string>, clock: Clock)
    | Compact(i: nat, answer: Answer, arrivals: seq<Value>)
    | DropJob(i: nat)
    | PrepareInternal(key: string)
    | AppendTo(key: string, messages: seq<Value>)

  predicate Enabled(s: State, step: Step) {
    match step
    case Check(_, _, _) => true
    case Compact(i, _, _) => i < |s.jobs| && s.jobs[i] in s.sessions
    case DropJob(i) => i < |s.jobs|
    case PrepareInternal(key) => IsInternal(key)
    case AppendTo(key, _) => true
  }

  ghost function Apply(s: State, step: Step): State
    requires Enabled(s, step)
  {
    match step
    case Check(listed, active, clock) =>
      var scheduled := Scheduled(listed, s.sessions, active, clock, s.archiving);
      State(s.sessions, s.archiving + Keys(scheduled), s.jobs + scheduled)
    case Compact(i, answer, arrivals) =>
      var key := s.jobs[i];
      State(s.sessions[key := Idle(s.sessions[key], RECENT_SUFFIX, answer, arrivals)], s.archiving - {key}, RemoveAt(s.jobs, i))
    case DropJob(i) => State(s.sessions, s.archiving - {s.jobs[i]}, RemoveAt(s.jobs, i))
    case PrepareInternal(key) => State(s.sessions, s.archiving - {key}, s.jobs)
    case AppendTo(key, messages) =>
      State(s.sessions[key := Appended(if key in s.sessions then s.sessions[key] else EMPTY, messages)], s.archiving, s.jobs)
  }

  /** The flags are exactly the jobs in flight, one each, all of them of
      conversations and none internal. */
  ghost predicate Invariant(s: State) {
    && NoDuplicates(s.jobs)
    && (forall k :: k in s.archiving <==> k in s.jobs)
    && (forall k :: k in s.jobs ==> !IsInternal(k) && k in s.sessions)
    && (forall k :: k in s.sessions ==> Sound(s.sessions[k]))
  }

  lemma LessJobIs(jobs: seq<string>, i: nat)
    requires i < |jobs| && NoDuplicates(jobs)
    ensures NoDuplicates(RemoveAt(jobs, i))
    ensures forall k :: k in RemoveAt(jobs, i) <==> k in jobs && k != jobs[i]
  {
    var rest := RemoveAt(jobs, i);
    forall k ensures k in rest <==> k in jobs && k != jobs[i] {
      if k in jobs && k != jobs[i] {
        var j :| 0 <= j < |jobs| && jobs[j] == k;
        assert rest[if j < i then j else j - 1] == k;
      }
    }
  }

  lemma CheckStep(s: State, step: Step)
    requires Invariant(s) && step.Check?
    ensures Invariant(Apply(s, step))
  {
    var scheduled := Scheduled(step.listed, s.sessions, step.active, step.clock, s.archiving);
    ScheduledAre(step.listed, s.sessions, step.active, step.clock, s.archiving);
    forall i, j | 0 <= i < j < |s.jobs + scheduled| ensures (s.jobs + scheduled)[i] != (s.jobs + scheduled)[j] {
      if i < |s.jobs| <= j {
        assert s.jobs[i] in s.archiving && scheduled[j - |s.jobs|] in scheduled;
      }
    }
  }

  lemma StepKeeps(s: State, step: Step)
    requires Invariant(s) && Enabled(s, step)
    ensures Invariant(Apply(s, step))
  {
    match step
    case Check(_, _, _) => CheckStep(s, step);
    case Compact(i, answer, arrivals) =>
      LessJobIs(s.jobs, i);
      IdleKeeps(s.sessions[s.jobs[i]], RECENT_SUFFIX, answer, arrivals);
    case DropJob(i) => LessJobIs(s.jobs, i);
    case PrepareInternal(key) =>
    case AppendTo(key, messages) =>
      AppendedKeeps(if key in s.sessions then s.sessions[key] else EMPTY, messages);
  }

  ghost predicate IsRun(run: seq<State>, steps: seq<Step>) {
    && |run| == |steps| + 1
    && run[0] == State(map[], {}, [])
    && forall i :: 0 <= i < |steps| ==> Enabled(run[i], steps[i]) && run[i + 1] == Apply(run[i], steps[i])
  }

  lemma {:induction false} HoldsThroughout(run: seq<State>, steps: seq<Step>, n: nat)
    requires IsRun(run, steps) && n < |run|
    ensures Invariant(run[n])
  {
    if n > 0 {
      HoldsThroughout(run, steps, n - 1);
      StepKeeps(run[n - 1], steps[n - 1]);
    }
  }

  /** Over every run no session is ever being compacted twice at a time, and
      the flag is set exactly while a job is in flight: a job that ends in any
      way, even by being dropped, leaves the session free to be scheduled. */
  lemma NeverTwiceAtATime(run: seq<State>, steps: seq<Step>, n: nat, i: nat, j: nat)
    requires IsRun(run, steps) && n < |run|
    ensures i < j < |run[n].jobs| ==> run[n].jobs[i] != run[n].jobs[j]
    ensures forall k :: k in run[n].archiving <==> k in run[n].jobs
  {
    HoldsThroughout(run, steps, n);
  }

  /** A session is scheduled only when a compaction would drop something, and
      no session that is active or being compacted is. */
  lemma ScheduledOnlyToDrop(s: State, step: Step, key: string)
    requires step.Check? && key in Scheduled(step.listed, s.sessions, step.active, step.clock, s.archiving)
    ensures key !in step.active && key !in s.archiving && key != "" && !("dream:" <= key)
    ensures key in s.sessions && |Retained(Tail(s.sessions[key]), RECENT_SUFFIX)| < |Tail(s.sessions[key])|
    ensures exists e :: e in step.listed && e.key == key && IsExpired(Some(Text(e.updatedAt)), step.clock)
  {
    ScheduledAre(step.listed, s.sessions, step.active, step.clock, s.archiving);
  }

  /** Right after a compaction during which nothing arrived, the session is
      still listed as expired, yet it is scheduled again exactly when the
      compaction cut into a torn turn. */
  lemma QuietAfterCompaction(s: State, i: nat, answer: Answer, check: Step)
    requires Invariant(s) && i < |s.jobs| && check.Check? && s.jobs[i] !in check.active
    requires exists e :: e in check.listed && e.key == s.jobs[i] != "" && IsExpired(Some(Text(e.updatedAt)), check.clock)
    ensures
      var s' := Apply(s, Compact(i, answer, []));
      s.jobs[i] in Scheduled(check.listed, s'.sessions, check.active, check.clock, s'.archiving)
      <==> TornTurn(Tail(s.sessions[s.jobs[i]]), RECENT_SUFFIX)
  {
    var key := s.jobs[i];
    var s' := Apply(s, Compact(i, answer, []));
    assert key in s.jobs;
    IdleTwice(s.sessions[key], RECENT_SUFFIX, answer, answer);
    ScheduledAre(check.listed, s'.sessions, check.active, check.clock, s'.archiving);
    var e :| e in check.listed && e.key == key && IsExpired(Some(Text(e.updatedAt)), check.clock);
    assert Due(e, s'.sessions, check.active, check.clock) <==> Compactable(s'.sessions, key);
  }

  /** After two compactions with nothing new it is never scheduled again,
      whatever the clock says, until messages are added. */
  lemma SilentAfterTwo(s: State, key: string, answer: Answer, answer': Answer, check: Step)
    requires Invariant(s) && key in s.sessions && check.Check?
    ensures
      var twice := Idle(Idle(s.sessions[key], RECENT_SUFFIX, answer, []), RECENT_SUFFIX, answer', []);
      key !in Scheduled(check.listed, s.sessions[key := twice], check.active, check.clock, s.archiving)
  {
    var twice := Idle(Idle(s.sessions[key], RECENT_SUFFIX, answer, []), RECENT_SUFFIX, answer', []);
    IdleTwice(s.sessions[key], RECENT_SUFFIX, answer, answer');
    ScheduledAre(check.listed, s.sessions[key := twice], check.active, check.clock, s.archiving);
  }
}
