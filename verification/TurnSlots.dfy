// Turn slots: how dispatched, system and resumed turns wait for each other.
//
// A dispatched (or system) turn takes its session's lock and then a permit of
// the global gate; a resumed turn takes a permit of the resume gate and then
// its session's lock. The registry of running tasks is guarded by a lock that
// the receiving loop holds across spawning a task and recording its handle.

module TurnSlots {
  import opened Wrappers

  datatype Kind = Dispatched | Resumed

  /** How far a task has come; `lock` is the mutex it got for its session. */
  datatype Stage =
    | Spawned
    | Admitted
    | Queued(lock: nat)
    | Holding(lock: nat)
    | Running(lock: nat)
    | Done
    | Gone

  datatype Task = Task(kind: Kind, session: string, stage: Stage, aborted: bool) {
    predicate HoldsSession() { stage.Holding? || stage.Running? }
    predicate HasLock() { stage.Queued? || HoldsSession() }
    predicate HoldsPermit() { kind.Dispatched? && stage.Running? }
    predicate HoldsResumePermit() { kind.Resumed? && (stage.Admitted? || stage.Queued? || stage.Running?) }
    /** Whether its handle belongs in the registry. */
    predicate Tracked() { kind.Dispatched? && !stage.Gone? && !aborted }
  }

  /** `permits == 0` means no global gate. */
  datatype Limits = Limits(permits: nat, resumes: nat) {
    function ResumePermits(): nat { if resumes == 0 then 1 else resumes }
  }

  datatype State = State(
    tasks: seq<Task>,
    locks: map<string, nat>, nextLock: nat, held: map<nat, nat>,
    free: Option<nat>, resumeFree: nat,
    registry: map<string, set<nat>>, inserting: Option<nat>)

  function Initial(limits: Limits): State {
    State([], map[], 0, map[], if limits.permits == 0 then None else Some(limits.permits),
          limits.ResumePermits(), map[], None)
  }

  datatype Step =
    | Arrive(session: string)
    | Insert
    | SpawnResume(session: string)
    | Admit(id: nat)
    | Decline(id: nat)
    | LookUp(id: nat)
    | TakeSession(id: nat)
    | TakePermit(id: nat)
    | Finish(id: nat)
    | Cleanup(id: nat)
    | Abort(session: string)
    | Drop(id: nat)

  predicate Enabled(s: State, step: Step) {
    match step
    case Arrive(_) => s.inserting.None?
    case Insert => s.inserting.Some? && s.inserting.value < |s.tasks|
    case SpawnResume(_) => true
    case Admit(id) => id < |s.tasks| && s.tasks[id].kind.Resumed? && s.tasks[id].stage.Spawned? && s.resumeFree > 0
    case Decline(id) => id < |s.tasks| && s.tasks[id].kind.Resumed? && s.tasks[id].stage.Admitted?
    case LookUp(id) =>
      id < |s.tasks| && if s.tasks[id].kind.Resumed? then s.tasks[id].stage.Admitted? else s.tasks[id].stage.Spawned?
    case TakeSession(id) => id < |s.tasks| && s.tasks[id].stage.Queued? && s.tasks[id].stage.lock !in s.held
    case TakePermit(id) => id < |s.tasks| && s.tasks[id].stage.Holding? && s.free != Some(0)
    case Finish(id) => id < |s.tasks| && s.tasks[id].stage.Running? && s.tasks[id].stage.lock in s.held
    case Cleanup(id) => id < |s.tasks| && s.tasks[id].stage.Done? && s.inserting.None?
    case Abort(_) => s.inserting.None?
    case Drop(id) => id < |s.tasks| && s.tasks[id].aborted && !s.tasks[id].stage.Gone?
  }

  /** A task stops and its guards are dropped. */
  function Release(s: State, id: nat, stage: Stage): State
    requires id < |s.tasks|
  {
    var t := s.tasks[id];
    s.(tasks := s.tasks[id := t.(stage := stage)],
       held := if t.HoldsSession() then s.held - {t.stage.lock} else s.held,
       free := if t.HoldsPermit() && s.free.Some? then Some(s.free.value + 1) else s.free,
       resumeFree := if t.HoldsResumePermit() then s.resumeFree + 1 else s.resumeFree)
  }

  /** Drops one handle, and the session's slot when it was the last. */
  function Unregister(registry: map<string, set<nat>>, session: string, id: nat): map<string, set<nat>> {
    if session !in registry then registry
    else if registry[session] - {id} == {} then registry - {session}
    else registry[session := registry[session] - {id}]
  }

  /** The handle is in the registry. */
  predicate Has(registry: map<string, set<nat>>, session: string, id: nat) {
    session in registry && id in registry[session]
  }

  function Register(registry: map<string, set<nat>>, session: string, id: nat): map<string, set<nat>> {
    registry[session := (if session in registry then registry[session] else {}) + {id}]
  }

  /** Marks every task registered for the session as aborted. */
  function AbortAll(tasks: seq<Task>, registry: map<string, set<nat>>, session: string): seq<Task> {
    seq(|tasks|, i requires 0 <= i < |tasks| =>
      if Has(registry, session, i) then tasks[i].(aborted := true) else tasks[i])
  }

  function Apply(s: State, step: Step): State
    requires Enabled(s, step)
  {
    match step
    case Arrive(session) =>
      s.(tasks := s.tasks + [Task(Dispatched, session, Spawned, false)], inserting := Some(|s.tasks|))
    case Insert =>
      var id := s.inserting.value;
      s.(registry := Register(s.registry, s.tasks[id].session, id), inserting := None)
    case SpawnResume(session) => s.(tasks := s.tasks + [Task(Resumed, session, Spawned, false)])
    case Admit(id) => s.(tasks := s.tasks[id := s.tasks[id].(stage := Admitted)], resumeFree := s.resumeFree - 1)
    case Decline(id) => Release(s, id, Gone)
    case LookUp(id) =>
      var session := s.tasks[id].session;
      if session in s.locks then s.(tasks := s.tasks[id := s.tasks[id].(stage := Queued(s.locks[session]))])
      else s.(tasks := s.tasks[id := s.tasks[id].(stage := Queued(s.nextLock))],
              locks := s.locks[session := s.nextLock], nextLock := s.nextLock + 1)
    case TakeSession(id) =>
      var t := s.tasks[id];
      var lock := t.stage.lock;
      s.(tasks := s.tasks[id := t.(stage := if t.kind.Resumed? then Running(lock) else Holding(lock))],
         held := s.held[lock := id])
    case TakePermit(id) =>
      s.(tasks := s.tasks[id := s.tasks[id].(stage := Running(s.tasks[id].stage.lock))],
         free := if s.free.Some? then Some(s.free.value - 1) else None)
    case Finish(id) => Release(s, id, if s.tasks[id].kind.Resumed? then Gone else Done)
    case Cleanup(id) =>
      s.(tasks := s.tasks[id := s.tasks[id].(stage := Gone)],
         registry := Unregister(s.registry, s.tasks[id].session, id))
    case Abort(session) =>
      s.(tasks := AbortAll(s.tasks, s.registry, session),
         registry := s.registry - {session})
    case Drop(id) => Release(s, id, Gone)
  }

  ghost predicate IsRun(run: seq<State>, steps: seq<Step>, limits: Limits) {
    && |run| == |steps| + 1
    && run[0] == Initial(limits)
    && forall i :: 0 <= i < |steps| ==> Enabled(run[i], steps[i]) && run[i + 1] == Apply(run[i], steps[i])
  }

  // ---------------------------------------------------------------------
  // Invariant
  // ---------------------------------------------------------------------

  function Sum(tasks: seq<Task>, weight: Task -> nat): nat {
    if tasks == [] then 0 else Sum(tasks[..|tasks| - 1], weight) + weight(tasks[|tasks| - 1])
  }

  function PermitWeight(t: Task): nat { if t.HoldsPermit() then 1 else 0 }
  function ResumeWeight(t: Task): nat { if t.HoldsResumePermit() then 1 else 0 }

  ghost predicate StagesFit(s: State) {
    forall i :: 0 <= i < |s.tasks| ==>
      var t := s.tasks[i];
      && (t.stage.Admitted? ==> t.kind.Resumed?)
      && (t.stage.Holding? || t.stage.Done? || t.aborted ==> t.kind.Dispatched?)
  }

  /** One mutex per session, never shared between sessions. */
  ghost predicate LocksFit(s: State) {
    && (forall k :: k in s.locks ==> s.locks[k] < s.nextLock)
    && (forall k, l :: k in s.locks && l in s.locks && k != l ==> s.locks[k] != s.locks[l])
    && (forall i :: 0 <= i < |s.tasks| && s.tasks[i].HasLock() ==>
        s.tasks[i].session in s.locks && s.locks[s.tasks[i].session] == s.tasks[i].stage.lock)
  }

  /** The mutexes know their holders. */
  ghost predicate HoldersFit(s: State) {
    && (forall l :: l in s.held ==> s.held[l] < |s.tasks| && s.tasks[s.held[l]].HoldsSession() && s.tasks[s.held[l]].stage.lock == l)
    && (forall i :: 0 <= i < |s.tasks| && s.tasks[i].HoldsSession() ==>
        s.tasks[i].stage.lock in s.held && s.held[s.tasks[i].stage.lock] == i)
  }

  ghost predicate PermitsFit(s: State, limits: Limits) {
    && (s.free.None? <==> limits.permits == 0)
    && (s.free.Some? ==> s.free.value + Sum(s.tasks, PermitWeight) == limits.permits)
    && s.resumeFree + Sum(s.tasks, ResumeWeight) == limits.ResumePermits()
  }

  /** The registry holds exactly the live, unaborted dispatched tasks, but for
      the one being inserted, and no empty slot. */
  ghost predicate RegistryFits(s: State) {
    && (forall k :: k in s.registry ==> s.registry[k] != {})
    && (forall k, id: nat :: Has(s.registry, k, id) ==>
        id < |s.tasks| && s.tasks[id].session == k && s.tasks[id].Tracked() && s.inserting != Some(id))
    && (forall id :: 0 <= id < |s.tasks| && s.tasks[id].Tracked() && s.inserting != Some(id) ==>
        Has(s.registry, s.tasks[id].session, id))
    && (s.inserting.Some? ==> s.inserting.value < |s.tasks| && s.tasks[s.inserting.value].Tracked())
  }

  ghost predicate Invariant(s: State, limits: Limits) {
    StagesFit(s) && LocksFit(s) && HoldersFit(s) && PermitsFit(s, limits) && RegistryFits(s)
  }

  lemma {:induction false} SumUpdate(tasks: seq<Task>, i: nat, t: Task, weight: Task -> nat)
    requires i < |tasks|
    ensures Sum(tasks[i := t], weight) == Sum(tasks, weight) - weight(tasks[i]) + weight(t)
  {
    var last := |tasks| - 1;
    if i < last {
      SumUpdate(tasks[..last], i, t, weight);
      assert tasks[i := t][..last] == tasks[..last][i := t];
    } else {
      assert tasks[i := t][..last] == tasks[..last];
    }
  }

  lemma SumSnoc(tasks: seq<Task>, t: Task, weight: Task -> nat)
    ensures Sum(tasks + [t], weight) == Sum(tasks, weight) + weight(t)
  {
    assert (tasks + [t])[..|tasks|] == tasks;
  }

  lemma {:induction false} SumSame(tasks: seq<Task>, tasks': seq<Task>, weight: Task -> nat)
    requires |tasks| == |tasks'|
    requires forall i :: 0 <= i < |tasks| ==> weight(tasks[i]) == weight(tasks'[i])
    ensures Sum(tasks, weight) == Sum(tasks', weight)
  {
    if tasks != [] {
      SumSame(tasks[..|tasks| - 1], tasks'[..|tasks| - 1], weight);
    }
  }

  // ---------------------------------------------------------------------
  // Every step keeps the invariant
  // ---------------------------------------------------------------------

  /** Tasks are only appended, moved, or marked; each predicate below is kept by
      every step for its own reason. */
  lemma StagesStep(s: State, step: Step)
    requires StagesFit(s) && RegistryFits(s) && Enabled(s, step)
    ensures StagesFit(Apply(s, step))
  {
  }

  /** Steps that move existing tasks on: no arrival and no abort is needed. */
  predicate IsProgress(step: Step) {
    !step.Arrive? && !step.SpawnResume? && !step.Abort? && !step.Drop?
  }

  /** How a step changes one task that was there before it. */
  lemma TaskStep(s: State, step: Step, i: nat)
    requires Enabled(s, step) && i < |s.tasks|
    ensures |s.tasks| <= |Apply(s, step).tasks|
    ensures
      var t, t' := s.tasks[i], Apply(s, step).tasks[i];
      && t'.kind == t.kind && t'.session == t.session
      && (t.HasLock() && t'.HasLock() ==> t'.stage.lock == t.stage.lock)
      && (t'.HasLock() && !t.HasLock() ==> step.LookUp? && step.id == i)
  {
  }

  lemma LocksStep(s: State, step: Step)
    requires LocksFit(s) && Enabled(s, step)
    ensures LocksFit(Apply(s, step))
  {
    var s' := Apply(s, step);
    if step.LookUp? {
      LookUpLocks(s, step);
    } else {
      forall i: nat | i < |s'.tasks| && s'.tasks[i].HasLock()
        ensures i < |s.tasks| && s.tasks[i].HasLock()
        ensures s'.tasks[i].session == s.tasks[i].session && s'.tasks[i].stage.lock == s.tasks[i].stage.lock
      {
        if i < |s.tasks| {
          TaskStep(s, step, i);
        }
      }
    }
  }

  lemma LookUpLocks(s: State, step: Step)
    requires LocksFit(s) && Enabled(s, step) && step.LookUp?
    ensures LocksFit(Apply(s, step))
  {
  }

  predicate MovesHolder(step: Step) {
    step.TakeSession? || step.TakePermit? || step.Finish? || step.Decline? || step.Drop? || step.Abort?
  }

  lemma HoldersStep(s: State, step: Step)
    requires StagesFit(s) && HoldersFit(s) && Enabled(s, step)
    ensures HoldersFit(Apply(s, step))
  {
    if MovesHolder(step) {
      HoldersMove(s, step);
    } else {
      HoldersStay(s, Apply(s, step));
    }
  }

  /** Nobody's hold on a session changes. */
  lemma HoldersStay(s: State, s': State)
    requires HoldersFit(s) && s'.held == s.held && |s.tasks| <= |s'.tasks|
    requires forall i :: 0 <= i < |s.tasks| && s.tasks[i].HoldsSession() ==> s'.tasks[i] == s.tasks[i]
    requires forall i :: 0 <= i < |s'.tasks| && s'.tasks[i].HoldsSession() ==> i < |s.tasks| && s.tasks[i].HoldsSession()
    ensures HoldersFit(s')
  {
  }

  lemma HoldersMove(s: State, step: Step)
    requires StagesFit(s) && HoldersFit(s) && Enabled(s, step) && MovesHolder(step)
    ensures HoldersFit(Apply(s, step))
  {
    match step
    case TakeSession(_) =>
    case TakePermit(_) =>
    case Abort(_) =>
    case Finish(id) => ReleaseHolders(s, id, if s.tasks[id].kind.Resumed? then Gone else Done);
    case Decline(id) => ReleaseHolders(s, id, Gone);
    case Drop(id) => ReleaseHolders(s, id, Gone);
  }

  lemma ReleaseHolders(s: State, id: nat, stage: Stage)
    requires HoldersFit(s) && id < |s.tasks| && (stage.Gone? || stage.Done?)
    ensures HoldersFit(Release(s, id, stage))
  {
  }

  lemma PermitsStep(s: State, step: Step, limits: Limits)
    requires StagesFit(s) && PermitsFit(s, limits) && Enabled(s, step)
    ensures PermitsFit(Apply(s, step), limits)
  {
    var s' := Apply(s, step);
    if step.Arrive? || step.SpawnResume? {
      PermitsSpawned(s, s', s'.tasks[|s.tasks|], limits);
    } else if step.Abort? || step.Insert? {
      PermitsSame(s, s', limits);
    } else {
      PermitsMove(s, step, limits);
    }
  }

  lemma PermitsSpawned(s: State, s': State, t: Task, limits: Limits)
    requires PermitsFit(s, limits) && s'.tasks == s.tasks + [t] && t.stage.Spawned?
    requires s'.free == s.free && s'.resumeFree == s.resumeFree
    ensures PermitsFit(s', limits)
  {
    SumSnoc(s.tasks, t, PermitWeight);
    SumSnoc(s.tasks, t, ResumeWeight);
  }

  lemma PermitsSame(s: State, s': State, limits: Limits)
    requires PermitsFit(s, limits) && s'.free == s.free && s'.resumeFree == s.resumeFree
    requires |s'.tasks| == |s.tasks|
    requires forall i :: 0 <= i < |s.tasks| ==> s'.tasks[i].kind == s.tasks[i].kind && s'.tasks[i].stage == s.tasks[i].stage
    ensures PermitsFit(s', limits)
  {
    SumSame(s.tasks, s'.tasks, PermitWeight);
    SumSame(s.tasks, s'.tasks, ResumeWeight);
  }

  /** The permits given back or taken are those of the task that moved. */
  lemma PermitsMove(s: State, step: Step, limits: Limits)
    requires StagesFit(s) && PermitsFit(s, limits) && Enabled(s, step)
    requires (IsProgress(step) && !step.Insert?) || step.Drop?
    ensures PermitsFit(Apply(s, step), limits)
  {
    if step.Finish? {
      ReleasePermits(s, step.id, if s.tasks[step.id].kind.Resumed? then Gone else Done, limits);
    } else if step.Decline? || step.Drop? {
      ReleasePermits(s, step.id, Gone, limits);
    } else {
      PermitsTaken(s, Apply(s, step), step.id, limits);
    }
  }

  /** One task moves on and takes the permits it then holds. */
  lemma PermitsTaken(s: State, s': State, id: nat, limits: Limits)
    requires PermitsFit(s, limits) && id < |s.tasks| && |s'.tasks| == |s.tasks|
    requires s'.tasks == s.tasks[id := s'.tasks[id]]
    requires s'.free.Some? == s.free.Some?
    requires s.free.Some? ==>
      s.free.value + PermitWeight(s.tasks[id]) == s'.free.value + PermitWeight(s'.tasks[id])
    requires s.resumeFree + ResumeWeight(s.tasks[id]) == s'.resumeFree + ResumeWeight(s'.tasks[id])
    ensures PermitsFit(s', limits)
  {
    SumUpdate(s.tasks, id, s'.tasks[id], PermitWeight);
    SumUpdate(s.tasks, id, s'.tasks[id], ResumeWeight);
  }

  lemma ReleasePermits(s: State, id: nat, stage: Stage, limits: Limits)
    requires StagesFit(s) && PermitsFit(s, limits) && id < |s.tasks| && (stage.Gone? || stage.Done?)
    ensures PermitsFit(Release(s, id, stage), limits)
  {
    PermitsTaken(s, Release(s, id, stage), id, limits);
  }

  lemma RegistrySame(s: State, s': State)
    requires RegistryFits(s) && s'.registry == s.registry && s'.inserting == s.inserting
    requires |s.tasks| == |s'.tasks|
    requires forall i :: 0 <= i < |s.tasks| ==>
      s'.tasks[i].session == s.tasks[i].session && s'.tasks[i].Tracked() == s.tasks[i].Tracked()
    ensures RegistryFits(s')
  {
  }

  lemma CleanupRegistry(s: State, step: Step)
    requires RegistryFits(s) && Enabled(s, step) && step.Cleanup?
    ensures RegistryFits(Apply(s, step))
  {
    var s' := Apply(s, step);
    var session := s.tasks[step.id].session;
    forall k, id: nat ensures Has(s'.registry, k, id) <==> Has(s.registry, k, id) && !(k == session && id == step.id) {
      assert k == session && k in s.registry ==> (id in s.registry[k] - {step.id} <==> id in s.registry[k] && id != step.id);
    }
  }

  lemma AbortRegistry(s: State, step: Step)
    requires RegistryFits(s) && Enabled(s, step) && step.Abort?
    ensures RegistryFits(Apply(s, step))
  {
    var s' := Apply(s, step);
    forall k, id: nat ensures Has(s'.registry, k, id) <==> Has(s.registry, k, id) && k != step.session {
    }
    forall id: nat | id < |s.tasks| && s.tasks[id].Tracked()
      ensures s'.tasks[id].Tracked() <==> s.tasks[id].session != step.session
    {
      assert Has(s.registry, s.tasks[id].session, id);
    }
  }

  lemma InsertRegistry(s: State, step: Step)
    requires RegistryFits(s) && Enabled(s, step) && step.Insert?
    ensures RegistryFits(Apply(s, step))
  {
    var s' := Apply(s, step);
    var added, session := s.inserting.value, s.tasks[s.inserting.value].session;
    forall k, id: nat ensures Has(s'.registry, k, id) <==> Has(s.registry, k, id) || (k == session && id == added) {
    }
  }

  lemma SpawnRegistry(s: State, step: Step)
    requires RegistryFits(s) && Enabled(s, step) && (step.Arrive? || step.SpawnResume?)
    ensures RegistryFits(Apply(s, step))
  {
    var s' := Apply(s, step);
    assert forall i :: 0 <= i < |s.tasks| ==> s'.tasks[i] == s.tasks[i];
  }

  lemma RegistryStep(s: State, step: Step)
    requires StagesFit(s) && RegistryFits(s) && Enabled(s, step)
    ensures RegistryFits(Apply(s, step))
  {
    if step.Cleanup? { CleanupRegistry(s, step); }
    else if step.Abort? { AbortRegistry(s, step); }
    else if step.Arrive? || step.SpawnResume? { SpawnRegistry(s, step); }
    else if step.Insert? { InsertRegistry(s, step); }
    else { RegistrySame(s, Apply(s, step)); }
  }

  lemma StepKeeps(s: State, step: Step, limits: Limits)
    requires Invariant(s, limits) && Enabled(s, step)
    ensures Invariant(Apply(s, step), limits)
  {
    StagesStep(s, step);
    LocksStep(s, step);
    HoldersStep(s, step);
    PermitsStep(s, step, limits);
    RegistryStep(s, step);
  }

  lemma {:induction false} HoldsThroughout(run: seq<State>, steps: seq<Step>, limits: Limits, n: nat)
    requires IsRun(run, steps, limits) && n < |run|
    ensures Invariant(run[n], limits)
  {
    if n > 0 {
      HoldsThroughout(run, steps, limits, n - 1);
      StepKeeps(run[n - 1], steps[n - 1], limits);
    }
  }

  // ---------------------------------------------------------------------
  // Theorems
  // ---------------------------------------------------------------------

  /** In every interleaving of dispatched, system and resumed turns, no two
      tasks hold the same session. */
  lemma MutualExclusion(run: seq<State>, steps: seq<Step>, limits: Limits, n: nat, i: nat, j: nat)
    requires IsRun(run, steps, limits) && n < |run|
    requires i < |run[n].tasks| && j < |run[n].tasks|
    requires run[n].tasks[i].HoldsSession() && run[n].tasks[j].HoldsSession()
    requires run[n].tasks[i].session == run[n].tasks[j].session
    ensures i == j
  {
    HoldsThroughout(run, steps, limits, n);
  }

  /** At most the gate's permits of dispatched turns run at once, and at most
      the resume gate's permits of resumed turns are past that gate. */
  lemma WithinLimits(run: seq<State>, steps: seq<Step>, limits: Limits, n: nat)
    requires IsRun(run, steps, limits) && n < |run|
    ensures limits.permits > 0 ==> Sum(run[n].tasks, PermitWeight) <= limits.permits
    ensures Sum(run[n].tasks, ResumeWeight) <= limits.ResumePermits()
  {
    HoldsThroughout(run, steps, limits, n);
  }

  /** The registry is exact whenever its lock is free: a handle is in it if and
      only if its task is a dispatched one that neither finished nor was
      aborted. A finished task never stays, whatever the schedule. */
  lemma RegistryIsExact(run: seq<State>, steps: seq<Step>, limits: Limits, n: nat, session: string, id: nat)
    requires IsRun(run, steps, limits) && n < |run| && run[n].inserting.None?
    ensures
      var s := run[n];
      Has(s.registry, session, id) <==>
      (id < |s.tasks| && s.tasks[id].session == session && s.tasks[id].Tracked())
  {
    HoldsThroughout(run, steps, limits, n);
  }

  ghost predicate CanProgress(s: State) {
    exists step :: IsProgress(step) && Enabled(s, step)
  }

  lemma {:induction false} WeightlessSum(tasks: seq<Task>, weight: Task -> nat)
    requires forall i :: 0 <= i < |tasks| ==> weight(tasks[i]) == 0
    ensures Sum(tasks, weight) == 0
  {
    if tasks != [] {
      WeightlessSum(tasks[..|tasks| - 1], weight);
    }
  }

  /** Someone past its last wait can always go on. */
  lemma RunnerProgresses(s: State, i: nat, limits: Limits)
    requires Invariant(s, limits) && i < |s.tasks| && (s.tasks[i].stage.Running? || (s.tasks[i].stage.Done? && s.inserting.None?))
    ensures CanProgress(s)
  {
    var step := if s.tasks[i].stage.Running? then Finish(i) else Cleanup(i);
    assert IsProgress(step) && Enabled(s, step);
  }

  /** A session's holder waits only for the global gate, whose permits are all
      with running turns. */
  lemma HolderProgresses(s: State, i: nat, limits: Limits)
    requires Invariant(s, limits) && i < |s.tasks| && s.tasks[i].HoldsSession()
    ensures CanProgress(s)
  {
    if s.tasks[i].stage.Running? {
      RunnerProgresses(s, i, limits);
    } else if s.free != Some(0) {
      assert IsProgress(TakePermit(i)) && Enabled(s, TakePermit(i));
    } else if j :| 0 <= j < |s.tasks| && s.tasks[j].stage.Running? {
      RunnerProgresses(s, j, limits);
    } else {
      WeightlessSum(s.tasks, PermitWeight);
    }
  }

  /** A task queued for a session waits only for that session's holder. */
  lemma QueuedProgresses(s: State, i: nat, limits: Limits)
    requires Invariant(s, limits) && i < |s.tasks| && s.tasks[i].stage.Queued?
    ensures CanProgress(s)
  {
    var lock := s.tasks[i].stage.lock;
    if lock in s.held {
      HolderProgresses(s, s.held[lock], limits);
    } else {
      assert IsProgress(TakeSession(i)) && Enabled(s, TakeSession(i));
    }
  }

  /** A resume waits only for resumes past the resume gate, and none of those
      waits for the resume gate again. */
  lemma ResumeProgresses(s: State, i: nat, limits: Limits)
    requires Invariant(s, limits) && i < |s.tasks| && s.tasks[i].kind.Resumed?
    requires s.tasks[i].stage.Spawned? || s.tasks[i].stage.Admitted?
    ensures CanProgress(s)
  {
    if s.tasks[i].stage.Admitted? {
      assert IsProgress(LookUp(i)) && Enabled(s, LookUp(i));
    } else if s.resumeFree > 0 {
      assert IsProgress(Admit(i)) && Enabled(s, Admit(i));
    } else if j :| 0 <= j < |s.tasks| && s.tasks[j].HoldsResumePermit() {
      if s.tasks[j].stage.Admitted? {
        assert IsProgress(LookUp(j)) && Enabled(s, LookUp(j));
      } else if s.tasks[j].stage.Queued? {
        QueuedProgresses(s, j, limits);
      } else {
        RunnerProgresses(s, j, limits);
      }
    } else {
      WeightlessSum(s.tasks, ResumeWeight);
    }
  }

  /** No schedule deadlocks: as long as a task is not gone, some task can take
      a step. Resume gate, session lock and global gate are always taken in
      this order. */
  lemma NeverStuck(run: seq<State>, steps: seq<Step>, limits: Limits, n: nat, i: nat)
    requires IsRun(run, steps, limits) && n < |run| && i < |run[n].tasks| && !run[n].tasks[i].stage.Gone?
    ensures CanProgress(run[n])
  {
    HoldsThroughout(run, steps, limits, n);
    var s := run[n];
    if s.inserting.Some? {
      assert IsProgress(Insert) && Enabled(s, Insert);
    } else {
      match s.tasks[i].stage
      case Spawned =>
        if s.tasks[i].kind.Resumed? {
          ResumeProgresses(s, i, limits);
        } else {
          assert IsProgress(LookUp(i)) && Enabled(s, LookUp(i));
        }
      case Admitted => ResumeProgresses(s, i, limits);
      case Queued(_) => QueuedProgresses(s, i, limits);
      case Holding(_) => HolderProgresses(s, i, limits);
      case Running(_) => RunnerProgresses(s, i, limits);
      case Done => RunnerProgresses(s, i, limits);
    }
  }

  /** Steps a task still has to take. */
  function TaskWork(t: Task): nat {
    match t.stage
    case Spawned => 6
    case Admitted => 5
    case Queued(_) => 4
    case Holding(_) => 3
    case Running(_) => 2
    case Done => 1
    case Gone => 0
  }

  function Work(s: State): nat {
    2 * Sum(s.tasks, TaskWork) + (if s.inserting.Some? then 1 else 0)
  }

  /** Every step other than an arrival or an abort uses up work: once messages
      stop arriving, every schedule ends. */
  lemma WorkFalls(s: State, step: Step)
    requires Enabled(s, step) && (IsProgress(step) || step.Drop?)
    ensures Work(Apply(s, step)) < Work(s)
  {
    var s' := Apply(s, step);
    if !step.Insert? {
      SumUpdate(s.tasks, step.id, s'.tasks[step.id], TaskWork);
    }
  }

  /** And where it ends nothing is left behind: every task is gone, no session
      is held, all permits are back, and the registry is empty. */
  lemma NothingLeftBehind(run: seq<State>, steps: seq<Step>, limits: Limits, n: nat)
    requires IsRun(run, steps, limits) && n < |run| && !CanProgress(run[n])
    ensures
      var s := run[n];
      && (forall i :: 0 <= i < |s.tasks| ==> s.tasks[i].stage.Gone?)
      && s.held.Keys == {} && s.registry.Keys == {}
      && s.free == Initial(limits).free && s.resumeFree == limits.ResumePermits()
  {
    HoldsThroughout(run, steps, limits, n);
    var s := run[n];
    forall i | 0 <= i < |s.tasks| ensures s.tasks[i].stage.Gone? {
      if !s.tasks[i].stage.Gone? {
        NeverStuck(run, steps, limits, n, i);
        assert false;
      }
    }
    WeightlessSum(s.tasks, PermitWeight);
    WeightlessSum(s.tasks, ResumeWeight);
    forall k ensures k !in s.registry {
      if k in s.registry {
        var id: nat :| id in s.registry[k];
        assert Has(s.registry, k, id);
      }
    }
  }
}
