// Startup planning: which unfinished turns are resumed, abandoned or left.

module ResumePlan {
  import opened Wrappers
  import opened Sequences
  import opened Journal
  import opened Recovery
  import Pruning
  import opened JournalFacts

  /** `parse` reads a timestamp; None when it is unreadable. */
  datatype Policy = Policy(autoResume: bool, maxAge: nat, maxAttempts: nat, parse: string -> Option<int>)

  datatype ResumeAction =
    | Resume(turn: UnfinishedTurn, attempt: nat)
    | Abandon(turn: UnfinishedTurn)
    | Stale(turn: UnfinishedTurn)

  /** Older than the age limit; an unreadable start counts as too old, a start
      in the future does not. */
  predicate IsStale(turn: UnfinishedTurn, now: int, policy: Policy) {
    var started := policy.parse(turn.startedAt);
    started.None? || now - started.value > policy.maxAge
  }

  predicate StartedBeforeCutoff(at: string, cutoff: int, policy: Policy) {
    var started := policy.parse(at);
    started.None? || started.value < cutoff
  }

  function NewestAction(turn: UnfinishedTurn, now: int, policy: Policy): ResumeAction {
    if IsStale(turn, now, policy) then Stale(turn)
    else
      match DecideTurnRecovery(turn.attempts, policy.maxAttempts)
      case Resume(attempt) => ResumeAction.Resume(turn, attempt)
      case Abandon => ResumeAction.Abandon(turn)
  }

  function AbandonAll(turns: seq<UnfinishedTurn>): seq<ResumeAction> {
    seq(|turns|, i requires 0 <= i < |turns| => ResumeAction.Abandon(turns[i]))
  }

  /** Plans one session's unfinished turns, oldest first. */
  function PlanSession(unfinished: seq<UnfinishedTurn>, now: int, policy: Policy): seq<ResumeAction> {
    if !policy.autoResume || unfinished == [] then []
    else
      AbandonAll(unfinished[..|unfinished| - 1]) + [NewestAction(unfinished[|unfinished| - 1], now, policy)]
  }

  /** The unfinished turns of a journal that began before this process did. */
  function Interrupted(turns: seq<UnfinishedTurn>, cutoff: int, policy: Policy): seq<UnfinishedTurn> {
    if turns == [] then []
    else
      var last := turns[|turns| - 1];
      Interrupted(turns[..|turns| - 1], cutoff, policy)
        + (if StartedBeforeCutoff(last.startedAt, cutoff, policy) then [last] else [])
  }

  function PlanOf(entries: seq<Entry>, now: int, cutoff: int, policy: Policy): seq<ResumeAction> {
    PlanSession(Interrupted(UnfinishedTurns(entries), cutoff, policy), now, policy)
  }

  /** Plans every journal in the store; one journal per session. */
  function PlanResumes(journals: seq<seq<Entry>>, now: int, cutoff: int, policy: Policy): seq<ResumeAction> {
    if journals == [] then []
    else
      PlanResumes(journals[..|journals| - 1], now, cutoff, policy)
        + PlanOf(journals[|journals| - 1], now, cutoff, policy)
  }

  // ---------------------------------------------------------------------

  lemma {:induction false} InterruptedAre(turns: seq<UnfinishedTurn>, cutoff: int, policy: Policy)
    ensures forall t :: t in Interrupted(turns, cutoff, policy)
                   <==> t in turns && StartedBeforeCutoff(t.startedAt, cutoff, policy)
    ensures (forall i, j :: 0 <= i < j < |turns| ==> turns[i].turnId != turns[j].turnId) ==>
            forall i, j :: 0 <= i < j < |Interrupted(turns, cutoff, policy)| ==>
              Interrupted(turns, cutoff, policy)[i].turnId != Interrupted(turns, cutoff, policy)[j].turnId
  {
    if turns != [] {
      InterruptedAre(turns[..|turns| - 1], cutoff, policy);
      assert turns == turns[..|turns| - 1] + [turns[|turns| - 1]];
    }
  }

  /** One session's plan, action by action: with auto-resume on there is
      exactly one action per unfinished turn, in scan order. Every turn but the
      newest is abandoned; the newest is resumed only while it is fresh and has
      attempts left, as the attempt after the ones already made. */
  lemma PlanSessionActions(unfinished: seq<UnfinishedTurn>, now: int, policy: Policy, i: nat)
    requires policy.autoResume && i < |unfinished|
    ensures |PlanSession(unfinished, now, policy)| == |unfinished|
    ensures PlanSession(unfinished, now, policy)[i].turn == unfinished[i]
    ensures i < |unfinished| - 1 ==> PlanSession(unfinished, now, policy)[i].Abandon?
    ensures
      var action := PlanSession(unfinished, now, policy)[i];
      action.Resume? <==>
        i == |unfinished| - 1 && !IsStale(unfinished[i], now, policy) && unfinished[i].attempts < policy.maxAttempts
    ensures
      var action := PlanSession(unfinished, now, policy)[i];
      action.Resume? ==> 1 <= action.attempt == unfinished[i].attempts + 1 <= policy.maxAttempts
  {
  }

  lemma UnfinishedDiffer(entries: seq<Entry>)
    ensures forall i, j :: 0 <= i < j < |UnfinishedTurns(entries)| ==>
      UnfinishedTurns(entries)[i].turnId != UnfinishedTurns(entries)[j].turnId
  {
    UnfinishedIdsAre(entries);
    Pruning.UnfinishedTurnIds(entries);
  }

  /** Every interrupted turn of a journal gets exactly one action, in scan
      order, no other turn gets any, and only the last can be a resume. */
  lemma OneActionPerTurn(entries: seq<Entry>, now: int, cutoff: int, policy: Policy)
    requires policy.autoResume
    ensures
      var plan, turns := PlanOf(entries, now, cutoff, policy), Interrupted(UnfinishedTurns(entries), cutoff, policy);
      && |plan| == |turns|
      && (forall i :: 0 <= i < |plan| ==> plan[i].turn == turns[i])
      && (forall i, j :: 0 <= i < j < |plan| ==> plan[i].turn.turnId != plan[j].turn.turnId)
      && (forall i :: 0 <= i < |plan| - 1 ==> plan[i].Abandon?)
  {
    UnfinishedDiffer(entries);
    InterruptedAre(UnfinishedTurns(entries), cutoff, policy);
  }

  function ResumeCount(plan: seq<ResumeAction>): nat {
    if plan == [] then 0
    else ResumeCount(plan[..|plan| - 1]) + (if plan[|plan| - 1].Resume? then 1 else 0)
  }

  lemma {:induction false} ResumeCountConcat(a: seq<ResumeAction>, b: seq<ResumeAction>)
    ensures ResumeCount(a + b) == ResumeCount(a) + ResumeCount(b)
  {
    if b == [] {
      assert a + b == a;
    } else {
      assert (a + b)[..|a + b| - 1] == a + b[..|b| - 1];
      ResumeCountConcat(a, b[..|b| - 1]);
    }
  }

  lemma {:induction false} NoResumeAmongAbandoned(turns: seq<UnfinishedTurn>)
    ensures ResumeCount(AbandonAll(turns)) == 0
  {
    if turns != [] {
      NoResumeAmongAbandoned(turns[..|turns| - 1]);
      assert AbandonAll(turns)[..|turns| - 1] == AbandonAll(turns[..|turns| - 1]);
    }
  }

  lemma OneResumePerSession(unfinished: seq<UnfinishedTurn>, now: int, policy: Policy)
    ensures ResumeCount(PlanSession(unfinished, now, policy)) <= 1
  {
    if policy.autoResume && unfinished != [] {
      var front, newest := unfinished[..|unfinished| - 1], NewestAction(unfinished[|unfinished| - 1], now, policy);
      NoResumeAmongAbandoned(front);
      ResumeCountConcat(AbandonAll(front), [newest]);
      assert [newest][..0] == [];
    }
  }

  /** Over the whole store there are no more resumes than sessions. */
  lemma {:induction false} NoMoreResumesThanSessions(journals: seq<seq<Entry>>, now: int, cutoff: int, policy: Policy)
    ensures ResumeCount(PlanResumes(journals, now, cutoff, policy)) <= |journals|
  {
    if journals != [] {
      var front, last := journals[..|journals| - 1], journals[|journals| - 1];
      NoMoreResumesThanSessions(front, now, cutoff, policy);
      ResumeCountConcat(PlanResumes(front, now, cutoff, policy), PlanOf(last, now, cutoff, policy));
      OneResumePerSession(Interrupted(UnfinishedTurns(last), cutoff, policy), now, policy);
    }
  }

  /** Every interrupted turn of every session is acted on. */
  lemma {:induction false} EveryTurnActedOn(journals: seq<seq<Entry>>, now: int, cutoff: int, policy: Policy,
                                            k: nat, turn: UnfinishedTurn)
    requires policy.autoResume && k < |journals|
    requires turn in Interrupted(UnfinishedTurns(journals[k]), cutoff, policy)
    ensures exists a :: a in PlanResumes(journals, now, cutoff, policy) && a.turn == turn
  {
    var front, last := journals[..|journals| - 1], journals[|journals| - 1];
    var before, plan := PlanResumes(front, now, cutoff, policy), PlanOf(last, now, cutoff, policy);
    if k < |front| {
      EveryTurnActedOn(front, now, cutoff, policy, k, turn);
      var a :| a in before && a.turn == turn;
      assert a in before + plan;
    } else {
      var turns := Interrupted(UnfinishedTurns(last), cutoff, policy);
      var i :| 0 <= i < |turns| && turns[i] == turn;
      PlanSessionActions(turns, now, policy, i);
      assert plan[i] in before + plan;
    }
  }

  // ---------------------------------------------------------------------
  // The plan, by places in the journal
  // ---------------------------------------------------------------------

  /** The turn first starts at entry `p`, never ends, and started before the
      cutoff or at a time that cannot be read. */
  ghost predicate Candidate(entries: seq<Entry>, cutoff: int, policy: Policy, turn: string, p: nat) {
    && FirstStartAt(entries, turn, p) && !Ended(entries, turn)
    && (policy.parse(entries[p].ts).None? || policy.parse(entries[p].ts).value < cutoff)
  }

  lemma FirstStartOnce(entries: seq<Entry>, turn: string, p: nat, q: nat)
    requires FirstStartAt(entries, turn, p) && FirstStartAt(entries, turn, q)
    ensures p == q
  {
  }

  /** The turns planned for are exactly the candidates. */
  lemma InterruptedIsCandidate(entries: seq<Entry>, cutoff: int, policy: Policy, turn: UnfinishedTurn)
    requires turn in Interrupted(UnfinishedTurns(entries), cutoff, policy)
    ensures exists p: nat :: Candidate(entries, cutoff, policy, turn.turnId, p) && StartTells(entries[p], turn)
  {
    InterruptedAre(UnfinishedTurns(entries), cutoff, policy);
    UnfinishedTurnTells(entries, turn);
    var p: nat :| FirstStartAt(entries, turn.turnId, p) && StartTells(entries[p], turn);
    UnfinishedIdsAre(entries);
    Pruning.UnfinishedTurnIds(entries);
    var k :| 0 <= k < |UnfinishedTurns(entries)| && UnfinishedTurns(entries)[k] == turn;
    assert UnfinishedIds(entries)[k] in UnfinishedIds(entries);
    assert Candidate(entries, cutoff, policy, turn.turnId, p);
  }

  lemma CandidateIsInterrupted(entries: seq<Entry>, cutoff: int, policy: Policy, turn: string, p: nat)
    requires Candidate(entries, cutoff, policy, turn, p)
    ensures exists t :: t in Interrupted(UnfinishedTurns(entries), cutoff, policy) && t.turnId == turn
  {
    assert entries[p] in entries && Started(entries, turn);
    UnfinishedIdsAre(entries);
    Pruning.UnfinishedTurnIds(entries);
    var k :| 0 <= k < |UnfinishedIds(entries)| && UnfinishedIds(entries)[k] == turn;
    var t := UnfinishedTurns(entries)[k];
    UnfinishedTurnTells(entries, t);
    var q: nat :| FirstStartAt(entries, turn, q) && StartTells(entries[q], t);
    FirstStartOnce(entries, turn, p, q);
    InterruptedAre(UnfinishedTurns(entries), cutoff, policy);
    assert t in Interrupted(UnfinishedTurns(entries), cutoff, policy);
  }

  lemma IdsSnoc(turns: seq<UnfinishedTurn>, last: UnfinishedTurn)
    ensures IdsOf(turns + [last]) == IdsOf(turns) + [last.turnId]
  {
  }

  lemma {:induction false} InterruptedInOrder(entries: seq<Entry>, turns: seq<UnfinishedTurn>, cutoff: int, policy: Policy)
    requires InStartOrder(entries, IdsOf(turns))
    ensures InStartOrder(entries, IdsOf(Interrupted(turns, cutoff, policy)))
  {
    if turns != [] {
      var front, last := turns[..|turns| - 1], turns[|turns| - 1];
      var before := Interrupted(front, cutoff, policy);
      assert IdsOf(front) == IdsOf(turns)[..|front|];
      InterruptedInOrder(entries, front, cutoff, policy);
      InterruptedAre(front, cutoff, policy);
      if StartedBeforeCutoff(last.startedAt, cutoff, policy) {
        forall id | id in IdsOf(before) ensures StartsBefore(entries, id, last.turnId) {
          var i :| 0 <= i < |before| && before[i].turnId == id;
          assert before[i] in front;
          var j :| 0 <= j < |front| && front[j] == before[i];
          assert IdsOf(turns)[j] == id && IdsOf(turns)[|front|] == last.turnId;
        }
        IdsSnoc(before, last);
        OrderSnoc(entries, IdsOf(before), last.turnId);
      } else {
        assert before + [] == before;
      }
    }
  }

  lemma CandidatesInOrder(entries: seq<Entry>, cutoff: int, policy: Policy)
    ensures InStartOrder(entries, IdsOf(Interrupted(UnfinishedTurns(entries), cutoff, policy)))
  {
    UnfinishedOldestFirst(entries);
    InterruptedInOrder(entries, UnfinishedTurns(entries), cutoff, policy);
  }

  /** The actions of a plan come in the order in which their turns started. */
  lemma PlanInStartOrder(entries: seq<Entry>, now: int, cutoff: int, policy: Policy, i: nat, j: nat)
    requires i < j < |PlanOf(entries, now, cutoff, policy)|
    ensures
      var plan := PlanOf(entries, now, cutoff, policy);
      StartsBefore(entries, plan[i].turn.turnId, plan[j].turn.turnId)
  {
    var turns := Interrupted(UnfinishedTurns(entries), cutoff, policy);
    CandidatesInOrder(entries, cutoff, policy);
    PlanSessionActions(turns, now, policy, i);
    PlanSessionActions(turns, now, policy, j);
    assert IdsOf(turns)[i] == turns[i].turnId && IdsOf(turns)[j] == turns[j].turnId;
  }

  /** No candidate starts after entry `p`. */
  ghost predicate Newest(entries: seq<Entry>, cutoff: int, policy: Policy, p: nat) {
    forall u, q: nat :: Candidate(entries, cutoff, policy, u, q) ==> q <= p
  }

  /** What is done about the turn that started at entry `p`: it is abandoned if a
      candidate started later; otherwise left alone if it is too old or its time
      cannot be read, resumed as the attempt after the highest one made if that is
      within the limit, and else abandoned. */
  ghost predicate PlannedAs(entries: seq<Entry>, now: int, cutoff: int, policy: Policy, a: ResumeAction, p: nat)
    requires p < |entries|
  {
    var started := policy.parse(entries[p].ts);
    if !Newest(entries, cutoff, policy, p) then a.Abandon?
    else if started.None? || now - started.value > policy.maxAge then a.Stale?
    else exists n: nat :: IsHighestAttempt(entries, a.turn.turnId, n) && AsAttempt(a, n, policy)
  }

  predicate AsAttempt(a: ResumeAction, made: nat, policy: Policy) {
    if made < policy.maxAttempts then a.Resume? && a.attempt == made + 1 else a.Abandon?
  }

  lemma LastIsNewest(entries: seq<Entry>, cutoff: int, policy: Policy, i: nat, p: nat)
    requires
      var turns := Interrupted(UnfinishedTurns(entries), cutoff, policy);
      i < |turns| && Candidate(entries, cutoff, policy, turns[i].turnId, p)
    ensures Newest(entries, cutoff, policy, p) <==> i == |Interrupted(UnfinishedTurns(entries), cutoff, policy)| - 1
  {
    var turns := Interrupted(UnfinishedTurns(entries), cutoff, policy);
    var ids := IdsOf(turns);
    CandidatesInOrder(entries, cutoff, policy);
    if i < |turns| - 1 {
      InterruptedIsCandidate(entries, cutoff, policy, turns[i + 1]);
      var q: nat :| Candidate(entries, cutoff, policy, turns[i + 1].turnId, q);
      assert StartsBefore(entries, ids[i], ids[i + 1]);
    } else {
      forall u, q: nat | Candidate(entries, cutoff, policy, u, q) ensures q <= p {
        CandidateIsInterrupted(entries, cutoff, policy, u, q);
        var t :| t in turns && t.turnId == u;
        var k :| 0 <= k < |turns| && turns[k] == t;
        if k < i {
          assert StartsBefore(entries, ids[k], ids[i]);
        } else {
          FirstStartOnce(entries, u, p, q);
        }
      }
    }
  }

  /** A journal's plan, by places in the journal: every action is for a candidate,
      as `PlannedAs` says, and every candidate has one. */
  lemma PlanTells(entries: seq<Entry>, now: int, cutoff: int, policy: Policy)
    requires policy.autoResume
    ensures forall a :: a in PlanOf(entries, now, cutoff, policy) ==> exists p: nat ::
      Candidate(entries, cutoff, policy, a.turn.turnId, p) && StartTells(entries[p], a.turn)
      && PlannedAs(entries, now, cutoff, policy, a, p)
    ensures forall u, p: nat :: Candidate(entries, cutoff, policy, u, p) ==>
      exists a :: a in PlanOf(entries, now, cutoff, policy) && a.turn.turnId == u
  {
    var plan, turns := PlanOf(entries, now, cutoff, policy), Interrupted(UnfinishedTurns(entries), cutoff, policy);
    forall a | a in plan
      ensures exists p: nat :: Candidate(entries, cutoff, policy, a.turn.turnId, p) && StartTells(entries[p], a.turn)
                            && PlannedAs(entries, now, cutoff, policy, a, p)
    {
      var i :| 0 <= i < |plan| && plan[i] == a;
      ActionTells(entries, now, cutoff, policy, i);
    }
    forall u, p: nat | Candidate(entries, cutoff, policy, u, p) ensures exists a :: a in plan && a.turn.turnId == u {
      CandidateIsInterrupted(entries, cutoff, policy, u, p);
      var t :| t in turns && t.turnId == u;
      var i :| 0 <= i < |turns| && turns[i] == t;
      PlanSessionActions(turns, now, policy, i);
      assert plan[i] in plan;
    }
  }

  lemma ActionTells(entries: seq<Entry>, now: int, cutoff: int, policy: Policy, i: nat)
    requires policy.autoResume && i < |PlanOf(entries, now, cutoff, policy)|
    ensures
      var a := PlanOf(entries, now, cutoff, policy)[i];
      exists p: nat :: Candidate(entries, cutoff, policy, a.turn.turnId, p) && StartTells(entries[p], a.turn)
                    && PlannedAs(entries, now, cutoff, policy, a, p)
  {
    var turns := Interrupted(UnfinishedTurns(entries), cutoff, policy);
    var a := PlanOf(entries, now, cutoff, policy)[i];
    assert |turns| > 0;
    PlanSessionActions(turns, now, policy, i);
    InterruptedIsCandidate(entries, cutoff, policy, turns[i]);
    var p: nat :| Candidate(entries, cutoff, policy, turns[i].turnId, p) && StartTells(entries[p], turns[i]);
    LastIsNewest(entries, cutoff, policy, i, p);
    InterruptedAre(UnfinishedTurns(entries), cutoff, policy);
    UnfinishedTurnTells(entries, turns[i]);
    NewestTells(entries, now, cutoff, policy, a, turns[i], p);
  }

  lemma NewestTells(entries: seq<Entry>, now: int, cutoff: int, policy: Policy, a: ResumeAction, turn: UnfinishedTurn, p: nat)
    requires p < |entries| && StartTells(entries[p], turn) && IsHighestAttempt(entries, turn.turnId, turn.attempts)
    requires a.turn == turn
    requires if Newest(entries, cutoff, policy, p) then a == NewestAction(turn, now, policy) else a.Abandon?
    ensures PlannedAs(entries, now, cutoff, policy, a, p)
  {
    assert AsAttempt(a, turn.attempts, policy) || a.Stale? || !Newest(entries, cutoff, policy, p);
  }

  lemma NoPlanWhenOff(entries: seq<Entry>, now: int, cutoff: int, policy: Policy)
    requires !policy.autoResume
    ensures PlanOf(entries, now, cutoff, policy) == []
  {
  }

  /** The turn started in this journal, after every other candidate. */
  ghost predicate IsNewest(entries: seq<Entry>, turn: UnfinishedTurn, cutoff: int, policy: Policy) {
    exists p: nat :: Candidate(entries, cutoff, policy, turn.turnId, p) && StartTells(entries[p], turn)
                  && Newest(entries, cutoff, policy, p)
  }

  lemma ResumedIsNewest(entries: seq<Entry>, now: int, cutoff: int, policy: Policy, a: ResumeAction)
    requires a in PlanOf(entries, now, cutoff, policy) && a.Resume?
    ensures IsNewest(entries, a.turn, cutoff, policy) && 1 <= a.attempt <= policy.maxAttempts
  {
    if policy.autoResume {
      PlanTells(entries, now, cutoff, policy);
      var p: nat :| Candidate(entries, cutoff, policy, a.turn.turnId, p) && StartTells(entries[p], a.turn)
                    && PlannedAs(entries, now, cutoff, policy, a, p);
    } else {
      NoPlanWhenOff(entries, now, cutoff, policy);
    }
  }

  /** Each resume is for a turn that started after every other interrupted turn of
      its session, with an attempt number between one and the limit. */
  lemma {:induction false} ResumesAreNewest(journals: seq<seq<Entry>>, now: int, cutoff: int, policy: Policy, a: ResumeAction)
    requires a in PlanResumes(journals, now, cutoff, policy) && a.Resume?
    ensures 1 <= a.attempt <= policy.maxAttempts
    ensures exists k :: 0 <= k < |journals| && IsNewest(journals[k], a.turn, cutoff, policy)
  {
    var front, last := journals[..|journals| - 1], journals[|journals| - 1];
    if a in PlanOf(last, now, cutoff, policy) {
      ResumedIsNewest(last, now, cutoff, policy, a);
      assert IsNewest(journals[|journals| - 1], a.turn, cutoff, policy);
    } else {
      ResumesAreNewest(front, now, cutoff, policy, a);
      var k :| 0 <= k < |front| && IsNewest(front[k], a.turn, cutoff, policy);
      assert IsNewest(journals[k], a.turn, cutoff, policy);
    }
  }
}
