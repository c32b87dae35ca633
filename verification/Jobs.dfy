/** NAS jobs: `process_nas_job`, `queue_nas_job` in services/aaa-service/app/workers.py and
    `cancel_nas_job` in services/aaa-service/app/main.py. */
module Jobs {
  import opened Common

  datatype Status = Pending | Queued | Running | Verifying | Succeeded | Failed | Cancelled

  datatype Job = Job(nas: string, key: string, status: Status)

  /** Moves of the job state machine among the states used here. */
  function Targets(status: Status): set<Status> {
    match status
    case Pending => {Queued, Cancelled, Failed}
    case Queued => {Running, Cancelled, Failed}
    case Running => {Verifying, Failed}
    case Verifying => {Succeeded, Failed}
    case _ => {}
  }

  /** `job_transition`: the target, or the ValueError. */
  function Transition(current: Status, target: Status): Option<Status> {
    if target in Targets(current) then Some(target) else None
  }

  /** `_job_finished`: the guarded move, or the plain assignment when the guard refuses. */
  function JobFinished(current: Status, status: Status): Status {
    match Transition(current, status)
    case Some(moved) => moved
    case None => status
  }

  /** The moves among these states, one by one. */
  lemma MovesAre(current: Status, target: Status)
    ensures var moved := Transition(current, target);
      moved == if (current, target) in {
          (Pending, Queued), (Pending, Cancelled), (Pending, Failed), (Queued, Running), (Queued, Cancelled),
          (Queued, Failed), (Running, Verifying), (Running, Failed), (Verifying, Succeeded), (Verifying, Failed)}
        then Some(target) else None
  {}

  predicate Waiting(status: Status) {
    status == Queued || status == Pending
  }

  /** What one worker is doing. */
  datatype Phase =
    | Idle
    | Ready(job: nat)
    | Locked(job: nat)
    | Working(job: nat)
    | Dispatched(job: nat)
    | Unlocking(job: nat)

  /** `log` lists the jobs dispatched, in order. */
  datatype State = State(jobs: seq<Job>, locks: map<string, string>, log: seq<nat>, phases: map<string, Phase>)

  const INITIAL := State([], map[], [], map[])

  datatype Step =
    | Queue(nas: string, key: string)
    | Cancel(job: nat, was: Status)
    | Start(w: string, job: nat, nasEnabled: bool, was: Status)
    | Acquire(w: string)
    | BuildFails(w: string)
    | MarkRunning(w: string)
    | Dispatch(w: string)
    | Finish(w: string, ok: bool)
    | Raise(w: string)
    | Unlock(w: string)
    | Crash(w: string)
    | ExpireLock(nas: string)

  function PhaseOf(s: State, w: string): Phase {
    if w in s.phases then s.phases[w] else Idle
  }

  predicate Exists(jobs: seq<Job>, nas: string, key: string) {
    exists i | 0 <= i < |jobs| :: jobs[i].nas == nas && jobs[i].key == key
  }

  function SetStatus(s: State, j: nat, status: Status): State {
    if j < |s.jobs| then s.(jobs := s.jobs[j := s.jobs[j].(status := status)]) else s
  }

  function SetPhase(s: State, w: string, phase: Phase): State {
    s.(phases := s.phases[w := phase])
  }

  function NasOf(s: State, j: nat): string {
    if j < |s.jobs| then s.jobs[j].nas else ""
  }

  function StatusOf(s: State, j: nat): Status {
    if j < |s.jobs| then s.jobs[j].status else Failed
  }

  function AfterQueue(s: State, nas: string, key: string): State {
    if Exists(s.jobs, nas, key) then s else s.(jobs := s.jobs + [Job(nas, key, Queued)])
  }

  /** A cancellation decided on the status `was`, read at any time before. */
  function AfterCancel(s: State, j: nat, was: Status): State {
    if j < |s.jobs| && Waiting(was) then SetStatus(s, j, Cancelled) else s
  }

  /** A worker goes by the status `was` it has read; a disabled NAS makes it write without taking the lock. */
  function AfterStart(s: State, w: string, j: nat, enabled: bool, was: Status): State {
    if PhaseOf(s, w) != Idle || j >= |s.jobs| || !Waiting(was) then s
    else if !enabled then SetStatus(s, j, JobFinished(was, Failed))
    else SetPhase(s, w, Ready(j))
  }

  function AfterAcquire(s: State, w: string): State {
    var p := PhaseOf(s, w);
    if !p.Ready? then s
    else if NasOf(s, p.job) in s.locks then SetPhase(s, w, Idle)
    else SetPhase(s.(locks := s.locks[NasOf(s, p.job) := w]), w, Locked(p.job))
  }

  /** The worker gives its job a status and moves to the next phase. */
  function Moved(s: State, w: string, j: nat, status: Status, phase: Phase): State {
    SetPhase(SetStatus(s, j, status), w, phase)
  }

  /** A failure to build the adapter leaves the lock to its time to live. */
  function AfterBuildError(s: State, w: string): State {
    var p := PhaseOf(s, w);
    if p.Locked? then Moved(s, w, p.job, JobFinished(StatusOf(s, p.job), Failed), Idle) else s
  }

  function AfterRunning(s: State, w: string): State {
    var p := PhaseOf(s, w);
    if p.Locked? then Moved(s, w, p.job, Running, Working(p.job)) else s
  }

  function AfterDispatch(s: State, w: string): State {
    var p := PhaseOf(s, w);
    if p.Working? then SetPhase(s.(log := s.log + [p.job]), w, Dispatched(p.job)) else s
  }

  function AfterFinish(s: State, w: string, ok: bool): State {
    var p := PhaseOf(s, w);
    if !p.Dispatched? then s
    else Moved(s, w, p.job, JobFinished(StatusOf(s, p.job), if ok then Succeeded else Failed), Unlocking(p.job))
  }

  function AfterRaise(s: State, w: string): State {
    var p := PhaseOf(s, w);
    if !p.Working? && !p.Dispatched? then s
    else Moved(s, w, p.job, JobFinished(StatusOf(s, p.job), Failed), Unlocking(p.job))
  }

  function AfterUnlock(s: State, w: string): State {
    var p := PhaseOf(s, w);
    if !p.Unlocking? then s
    else
      var nas := NasOf(s, p.job);
      SetPhase(if nas in s.locks && s.locks[nas] == w then s.(locks := s.locks - {nas}) else s, w, Idle)
  }

  /** One step; a step that is not possible changes nothing. The lock of a crashed worker stays until it expires. */
  function Next(s: State, step: Step): State {
    match step
    case Queue(nas, key) => AfterQueue(s, nas, key)
    case Cancel(j, was) => AfterCancel(s, j, was)
    case Start(w, j, enabled, was) => AfterStart(s, w, j, enabled, was)
    case Acquire(w) => AfterAcquire(s, w)
    case BuildFails(w) => AfterBuildError(s, w)
    case MarkRunning(w) => AfterRunning(s, w)
    case Dispatch(w) => AfterDispatch(s, w)
    case Finish(w, ok) => AfterFinish(s, w, ok)
    case Raise(w) => AfterRaise(s, w)
    case Unlock(w) => AfterUnlock(s, w)
    case Crash(w) => SetPhase(s, w, Idle)
    case ExpireLock(nas) => s.(locks := s.locks - {nas})
  }

  function RunFrom(s: State, steps: seq<Step>): State {
    if steps == [] then s else Next(RunFrom(s, steps[..|steps| - 1]), steps[|steps| - 1])
  }

  /** The phases between the lock and its release. */
  predicate Inside(p: Phase) {
    p.Locked? || p.Working? || p.Dispatched?
  }

  predicate Active(p: Phase) {
    p.Working? || p.Dispatched?
  }

  /** A write of a status outside the lock: a cancellation, or a worker that finds the NAS disabled. */
  predicate Overwrites(s: State, step: Step) {
    match step
    case Cancel(j, was) => j < |s.jobs| && Waiting(was)
    case Start(w, j, enabled, was) => j < |s.jobs| && Waiting(was) && !enabled && PhaseOf(s, w) == Idle
    case _ => false
  }

  /** The guard the code lacks: the write of a status, by a worker that has the lock or from outside, finds the job
      still waiting. */
  predicate Guarded(s: State, step: Step) {
    && ((step.BuildFails? || step.MarkRunning?) && PhaseOf(s, step.w).Locked? ==>
          Waiting(StatusOf(s, PhaseOf(s, step.w).job)))
    && (Overwrites(s, step) ==> Waiting(StatusOf(s, step.job)))
  }

  predicate GuardedRun(s: State, steps: seq<Step>) {
    if steps == [] then true
    else
      var n := |steps| - 1;
      GuardedRun(s, steps[..n]) && Guarded(RunFrom(s, steps[..n]), steps[n])
  }

  /** A lease outlives the work it covers. */
  predicate LeaseOutlives(s: State, step: Step) {
    step.ExpireLock? && step.nas in s.locks ==>
      var p := PhaseOf(s, s.locks[step.nas]); !Inside(p) || NasOf(s, p.job) != step.nas
  }

  predicate LeasesOutlive(s: State, steps: seq<Step>) {
    if steps == [] then true
    else
      var n := |steps| - 1;
      LeasesOutlive(s, steps[..n]) && LeaseOutlives(RunFrom(s, steps[..n]), steps[n])
  }

  /* ---- invariant ---- */

  ghost predicate UniqueJobs(jobs: seq<Job>) {
    forall i, j | 0 <= i < j < |jobs| :: jobs[i].nas != jobs[j].nas || jobs[i].key != jobs[j].key
  }

  /** How a worker's phase agrees with its job and the log. */
  ghost predicate PhaseFits(s: State, p: Phase) {
    !p.Idle? ==>
      && p.job < |s.jobs|
      && (Active(p) ==> s.jobs[p.job].status == Running)
      && (p.Working? ==> multiset(s.log)[p.job] == 0)
  }

  /** No two workers are working on, or have dispatched, one job. */
  ghost predicate OneActive(s: State) {
    forall v, w | Active(PhaseOf(s, v)) && Active(PhaseOf(s, w)) && PhaseOf(s, v).job == PhaseOf(s, w).job :: v == w
  }

  /** How often a job may have been dispatched. */
  function Allowance(jobs: seq<Job>, j: nat): nat {
    if j < |jobs| && !Waiting(jobs[j].status) && jobs[j].status != Cancelled then 1 else 0
  }

  ghost predicate LogFits(jobs: seq<Job>, log: seq<nat>) {
    forall j: nat :: multiset(log)[j] <= Allowance(jobs, j)
  }

  ghost predicate Inv(s: State) {
    && UniqueJobs(s.jobs)
    && (forall j | 0 <= j < |s.jobs| :: s.jobs[j].status != Verifying)
    && (forall w :: PhaseFits(s, PhaseOf(s, w)))
    && OneActive(s)
    && LogFits(s.jobs, s.log)
  }

  lemma PhasesAfter(s: State, w: string, phase: Phase)
    ensures forall v :: PhaseOf(SetPhase(s, w, phase), v) == if v == w then phase else PhaseOf(s, v)
  {}

  lemma MoreAllowed(s: State, t: State)
    requires LogFits(s.jobs, s.log) && t.log == s.log
    requires forall k: nat :: Allowance(s.jobs, k) <= Allowance(t.jobs, k)
    ensures LogFits(t.jobs, t.log)
  {
    assert forall k: nat :: multiset(s.log)[k] <= Allowance(s.jobs, k) <= Allowance(t.jobs, k);
  }

  /** A waiting job takes another status; no worker is active on it. */
  lemma FreeJobMove(s: State, j: nat, status: Status)
    requires Inv(s) && j < |s.jobs| && Waiting(s.jobs[j].status) && status != Verifying
    ensures Inv(SetStatus(s, j, status))
  {
    var s' := SetStatus(s, j, status);
    forall v
      ensures PhaseOf(s', v) == PhaseOf(s, v) && PhaseFits(s', PhaseOf(s', v))
    {
      assert PhaseFits(s, PhaseOf(s, v));
    }
    MoreAllowed(s, s');
  }

  /** A worker changes to a phase in which it is not active. */
  lemma PhaseMove(s: State, w: string, phase: Phase)
    requires Inv(s) && !Active(phase) && PhaseFits(s, phase)
    ensures Inv(SetPhase(s, w, phase))
  {
    PhasesAfter(s, w, phase);
    var s' := SetPhase(s, w, phase);
    forall v
      ensures PhaseFits(s', PhaseOf(s', v))
    {
      assert PhaseFits(s, PhaseOf(s, v));
    }
  }

  ghost predicate NoOtherActive(s: State, w: string, j: nat) {
    forall v | v != w && Active(PhaseOf(s, v)) :: PhaseOf(s, v).job != j
  }

  /** A worker changes its phase and the status of its job, on which no other worker is active. */
  lemma WorkerMove(s: State, w: string, j: nat, status: Status, phase: Phase)
    requires Inv(s) && j < |s.jobs| && NoOtherActive(s, w, j)
    requires !Waiting(status) && status != Cancelled && status != Verifying
    requires (phase.Idle? || phase.job == j) && PhaseFits(SetStatus(s, j, status), phase)
    ensures Inv(Moved(s, w, j, status, phase))
  {
    var t := SetStatus(s, j, status);
    PhasesAfter(t, w, phase);
    var s' := SetPhase(t, w, phase);
    forall v
      ensures PhaseFits(s', PhaseOf(s', v)) && PhaseOf(t, v) == PhaseOf(s, v)
    {
      assert PhaseOf(t, v) == PhaseOf(s, v) && PhaseFits(s, PhaseOf(s, v));
    }
    MoreAllowed(s, s');
  }

  lemma WaitingHasNoActive(s: State, w: string, j: nat)
    requires Inv(s) && j < |s.jobs| && Waiting(s.jobs[j].status)
    ensures NoOtherActive(s, w, j) && multiset(s.log)[j] == 0
  {
    forall v | Active(PhaseOf(s, v))
      ensures PhaseOf(s, v).job != j
    {
      assert PhaseFits(s, PhaseOf(s, v));
    }
    assert multiset(s.log)[j] <= Allowance(s.jobs, j);
  }

  lemma QueueKeepsInv(s: State, nas: string, key: string)
    requires Inv(s)
    ensures Inv(AfterQueue(s, nas, key))
  {
    var s' := AfterQueue(s, nas, key);
    forall v
      ensures PhaseOf(s', v) == PhaseOf(s, v) && PhaseFits(s', PhaseOf(s', v))
    {
      assert PhaseFits(s, PhaseOf(s, v));
    }
    MoreAllowed(s, s');
  }

  /** The invariant does not look at the locks. */
  lemma LocksAside(s: State, locks: map<string, string>)
    requires Inv(s)
    ensures Inv(s.(locks := locks))
  {
    var s' := s.(locks := locks);
    forall v
      ensures PhaseOf(s', v) == PhaseOf(s, v) && PhaseFits(s', PhaseOf(s', v))
    {
      assert PhaseFits(s, PhaseOf(s, v));
    }
  }

  lemma LockStepKeepsInv(s: State, w: string)
    requires Inv(s)
    ensures Inv(AfterAcquire(s, w)) && Inv(AfterUnlock(s, w))
  {
    var p := PhaseOf(s, w);
    assert PhaseFits(s, p);
    PhaseMove(s, w, Idle);
    if p.Ready? && NasOf(s, p.job) !in s.locks {
      var locks := s.locks[NasOf(s, p.job) := w];
      LocksAside(s, locks);
      PhaseMove(s.(locks := locks), w, Locked(p.job));
    } else if p.Unlocking? {
      LocksAside(s, s.locks - {NasOf(s, p.job)});
      PhaseMove(s.(locks := s.locks - {NasOf(s, p.job)}), w, Idle);
    }
  }

  lemma CountOne(log: seq<nat>, j: nat)
    ensures forall k: nat :: multiset(log + [j])[k] == multiset(log)[k] + if k == j then 1 else 0
  {
    assert multiset(log + [j]) == multiset(log) + multiset{j};
  }

  lemma DispatchKeepsInv(s: State, w: string)
    requires Inv(s)
    ensures Inv(AfterDispatch(s, w))
  {
    var p := PhaseOf(s, w);
    if p.Working? {
      assert PhaseFits(s, p);
      CountOne(s.log, p.job);
      var t := s.(log := s.log + [p.job]);
      PhasesAfter(t, w, Dispatched(p.job));
      var s' := SetPhase(t, w, Dispatched(p.job));
      forall v
        ensures PhaseFits(s', PhaseOf(s', v)) && PhaseOf(t, v) == PhaseOf(s, v)
      {
        assert PhaseOf(t, v) == PhaseOf(s, v) && PhaseFits(s, PhaseOf(s, v));
      }
    }
  }

  lemma LockedMoveKeepsInv(s: State, step: Step)
    requires Inv(s) && Guarded(s, step) && (step.MarkRunning? || step.BuildFails?)
    ensures Inv(Next(s, step))
  {
    var p := PhaseOf(s, step.w);
    assert PhaseFits(s, p);
    if p.Locked? {
      WaitingHasNoActive(s, step.w, p.job);
      if step.MarkRunning? {
        WorkerMove(s, step.w, p.job, Running, Working(p.job));
      } else {
        WorkerMove(s, step.w, p.job, Failed, Idle);
      }
    }
  }

  lemma EndKeepsInv(s: State, step: Step)
    requires Inv(s) && (step.Finish? || step.Raise?)
    ensures Inv(Next(s, step))
  {
    var p := PhaseOf(s, step.w);
    assert PhaseFits(s, p);
    if step.Finish? && p.Dispatched? {
      WorkerMove(s, step.w, p.job, if step.ok then Succeeded else Failed, Unlocking(p.job));
    } else if step.Raise? && Active(p) {
      WorkerMove(s, step.w, p.job, Failed, Unlocking(p.job));
    }
  }

  lemma OutsideKeepsInv(s: State, step: Step)
    requires Inv(s) && Guarded(s, step) && (step.Cancel? || step.Start?)
    ensures Inv(Next(s, step))
  {
    if Overwrites(s, step) {
      FreeJobMove(s, step.job, if step.Cancel? then Cancelled else Failed);
    } else if step.Start? && PhaseOf(s, step.w) == Idle && step.job < |s.jobs| && Waiting(step.was) {
      PhaseMove(s, step.w, Ready(step.job));
    }
  }

  lemma StepKeepsInv(s: State, step: Step)
    requires Inv(s) && Guarded(s, step)
    ensures Inv(Next(s, step))
  {
    match step
    case Queue(nas, key) => QueueKeepsInv(s, nas, key);
    case Acquire(w) => LockStepKeepsInv(s, w);
    case Unlock(w) => LockStepKeepsInv(s, w);
    case Dispatch(w) => DispatchKeepsInv(s, w);
    case Crash(w) => PhaseMove(s, w, Idle);
    case ExpireLock(nas) => LocksAside(s, s.locks - {nas});
    case Finish(_, _) => EndKeepsInv(s, step);
    case Raise(_) => EndKeepsInv(s, step);
    case Cancel(_, _) => OutsideKeepsInv(s, step);
    case Start(_, _, _, _) => OutsideKeepsInv(s, step);
    case _ => LockedMoveKeepsInv(s, step);
  }

  lemma {:induction false} RunKeepsInv(steps: seq<Step>)
    requires GuardedRun(INITIAL, steps)
    ensures Inv(RunFrom(INITIAL, steps))
  {
    if steps != [] {
      var n := |steps| - 1;
      RunKeepsInv(steps[..n]);
      StepKeepsInv(RunFrom(INITIAL, steps[..n]), steps[n]);
    }
  }

  /* ---- locks ---- */

  /** A worker between its lock and its release owns the lock of its job's NAS. */
  predicate OwnsLock(s: State, w: string) {
    var p := PhaseOf(s, w);
    && (!p.Idle? ==> p.job < |s.jobs|)
    && (Inside(p) ==> NasOf(s, p.job) in s.locks && s.locks[NasOf(s, p.job)] == w)
  }

  ghost predicate LockInv(s: State) {
    forall w :: OwnsLock(s, w)
  }

  /** Steps that touch neither the locks nor a phase that would need one. */
  lemma JobsMoveKeepsLocks(s: State, jobs: seq<Job>, w: string, phase: Phase, log: seq<nat>)
    requires LockInv(s) && |s.jobs| <= |jobs| && forall j | 0 <= j < |s.jobs| :: jobs[j].nas == s.jobs[j].nas
    requires !phase.Idle? ==> phase.job < |jobs|
    requires Inside(phase) ==> Inside(PhaseOf(s, w)) && phase.job == PhaseOf(s, w).job
    ensures LockInv(SetPhase(s.(jobs := jobs, log := log), w, phase))
  {
    var t := s.(jobs := jobs, log := log);
    PhasesAfter(t, w, phase);
    forall v
      ensures OwnsLock(SetPhase(t, w, phase), v)
    {
      assert OwnsLock(s, v) && OwnsLock(s, w) && PhaseOf(t, v) == PhaseOf(s, v);
    }
  }

  /** The lock of a NAS goes away that no worker inside a job of the NAS owns. */
  lemma DropKeepsLocks(s: State, nas: string)
    requires LockInv(s) && LeaseOutlives(s, ExpireLock(nas))
    ensures LockInv(s.(locks := s.locks - {nas}))
  {
    var t := s.(locks := s.locks - {nas});
    forall v
      ensures OwnsLock(t, v)
    {
      assert OwnsLock(s, v) && PhaseOf(t, v) == PhaseOf(s, v);
    }
  }

  lemma AcquireKeepsLocks(s: State, w: string)
    requires LockInv(s)
    ensures LockInv(AfterAcquire(s, w))
  {
    var t := AfterAcquire(s, w);
    forall v
      ensures OwnsLock(t, v)
    {
      assert OwnsLock(s, v) && OwnsLock(s, w);
    }
  }

  lemma UnlockKeepsLocks(s: State, w: string)
    requires LockInv(s)
    ensures LockInv(AfterUnlock(s, w))
  {
    var p := PhaseOf(s, w);
    if p.Unlocking? {
      var nas := NasOf(s, p.job);
      var t := if nas in s.locks && s.locks[nas] == w then s.(locks := s.locks - {nas}) else s;
      if t != s {
        DropKeepsLocks(s, nas);
      }
      JobsMoveKeepsLocks(t, t.jobs, w, Idle, t.log);
    }
  }

  lemma StepKeepsLocks(s: State, step: Step)
    requires LockInv(s) && LeaseOutlives(s, step)
    ensures LockInv(Next(s, step))
  {
    match step
    case Acquire(w) => AcquireKeepsLocks(s, w);
    case Unlock(w) => UnlockKeepsLocks(s, w);
    case ExpireLock(nas) => DropKeepsLocks(s, nas);
    case Queue(_, _) => OutsideKeepsLocks(s, step);
    case Cancel(_, _) => OutsideKeepsLocks(s, step);
    case _ => WorkerKeepsLocks(s, step);
  }

  lemma OutsideKeepsLocks(s: State, step: Step)
    requires LockInv(s) && (step.Queue? || step.Cancel?)
    ensures LockInv(Next(s, step))
  {
    var t := Next(s, step);
    forall v
      ensures OwnsLock(t, v)
    {
      assert OwnsLock(s, v) && PhaseOf(t, v) == PhaseOf(s, v);
    }
  }

  lemma WorkerKeepsLocks(s: State, step: Step)
    requires LockInv(s) && !step.Acquire? && !step.Unlock? && !step.ExpireLock? && !step.Queue? && !step.Cancel?
    ensures LockInv(Next(s, step))
  {
    var t := Next(s, step);
    assert OwnsLock(s, step.w);
    JobsMoveKeepsLocks(s, t.jobs, step.w, PhaseOf(t, step.w), t.log);
    forall v
      ensures OwnsLock(t, v)
    {
      assert OwnsLock(SetPhase(s.(jobs := t.jobs, log := t.log), step.w, PhaseOf(t, step.w)), v);
    }
  }

  lemma {:induction false} RunKeepsLocks(steps: seq<Step>)
    requires LeasesOutlive(INITIAL, steps)
    ensures LockInv(RunFrom(INITIAL, steps))
  {
    if steps != [] {
      var n := |steps| - 1;
      RunKeepsLocks(steps[..n]);
      StepKeepsLocks(RunFrom(INITIAL, steps[..n]), steps[n]);
    }
  }

  /** In every guarded run, with any number of workers reading the same job and whatever leases expire: one job per
      NAS and idempotency key, each dispatched at most once, a waiting or cancelled one never. */
  lemma DispatchedAtMostOnce(steps: seq<Step>, j: nat)
    requires GuardedRun(INITIAL, steps)
    ensures var s := RunFrom(INITIAL, steps);
      && UniqueJobs(s.jobs)
      && multiset(s.log)[j] <= 1
      && (j < |s.jobs| && (Waiting(s.jobs[j].status) || s.jobs[j].status == Cancelled) ==> j !in s.log)
  {
    RunKeepsInv(steps);
    assert multiset(RunFrom(INITIAL, steps).log)[j] <= Allowance(RunFrom(INITIAL, steps).jobs, j);
  }

  /** A dispatch is of a running job not dispatched before when the run is guarded, and happens under the lock of the
      job's NAS when leases outlive the work. */
  lemma {:induction false} DispatchUnderLock(steps: seq<Step>, step: Step)
    requires Next(RunFrom(INITIAL, steps), step).log != RunFrom(INITIAL, steps).log
    ensures var s := RunFrom(INITIAL, steps); var p := PhaseOf(s, step.w);
      && step.Dispatch? && p.Working? && Next(s, step).log == s.log + [p.job]
      && (GuardedRun(INITIAL, steps) ==> p.job !in s.log && StatusOf(s, p.job) == Running)
      && (LeasesOutlive(INITIAL, steps) ==> NasOf(s, p.job) in s.locks && s.locks[NasOf(s, p.job)] == step.w)
  {
    var s := RunFrom(INITIAL, steps);
    LogGrowsByDispatch(s, step);
    if GuardedRun(INITIAL, steps) {
      RunKeepsInv(steps);
      assert PhaseFits(s, PhaseOf(s, step.w));
    }
    if LeasesOutlive(INITIAL, steps) {
      RunKeepsLocks(steps);
      assert OwnsLock(s, step.w);
    }
  }

  lemma LogGrowsByDispatch(s: State, step: Step)
    requires Next(s, step).log != s.log
    ensures step.Dispatch? && PhaseOf(s, step.w).Working? && Next(s, step).log == s.log + [PhaseOf(s, step.w).job]
  {}

  predicate Ended(s: State, j: nat) {
    j < |s.jobs| && s.jobs[j].status in {Succeeded, Failed, Cancelled}
  }

  lemma WorkerKeepsEnded(s: State, step: Step, j: nat)
    requires Ended(s, j) && Guarded(s, step)
    requires step.BuildFails? || step.MarkRunning? || step.Dispatch? || step.Finish? || step.Raise?
    requires PhaseFits(s, PhaseOf(s, step.w))
    ensures var s' := Next(s, step);
      && j < |s'.jobs| && s'.jobs[j] == s.jobs[j]
      && (s'.log == s.log || exists k: nat :: k != j && s'.log == s.log + [k])
  {
    var p := PhaseOf(s, step.w);
    assert p.Working? || p.Dispatched? ==> p.job != j;
  }

  lemma StepKeepsEnded(s: State, step: Step, j: nat)
    requires Ended(s, j) && Guarded(s, step)
    requires forall w :: PhaseFits(s, PhaseOf(s, w))
    ensures var s' := Next(s, step);
      && j < |s'.jobs| && s'.jobs[j] == s.jobs[j]
      && (s'.log == s.log || exists k: nat :: k != j && s'.log == s.log + [k])
  {
    if step.BuildFails? || step.MarkRunning? || step.Dispatch? || step.Finish? || step.Raise? {
      WorkerKeepsEnded(s, step, j);
    }
  }

  /** A finished or cancelled job keeps its status and is not dispatched by any later guarded step. */
  lemma {:induction false} EndedStaysEnded(steps: seq<Step>, step: Step, j: nat)
    requires GuardedRun(INITIAL, steps) && Guarded(RunFrom(INITIAL, steps), step)
    requires Ended(RunFrom(INITIAL, steps), j)
    ensures var s := RunFrom(INITIAL, steps); var s' := Next(s, step);
      && j < |s'.jobs| && s'.jobs[j] == s.jobs[j]
      && multiset(s'.log)[j] == multiset(s.log)[j]
  {
    RunKeepsInv(steps);
    var s := RunFrom(INITIAL, steps);
    StepKeepsEnded(s, step, j);
    if k: nat :| k != j && Next(s, step).log == s.log + [k] {
      CountOne(s.log, k);
    }
  }

  /** A dispatch that should not be: of a job that has ended, or once more. */
  predicate Undue(s: State, j: nat) {
    Ended(s, j) || j in s.log
  }

  /** The guard of a worker is exact, in every state of a guarded run. Whatever the status, a worker that has the lock
      of its job goes on to dispatch it; that dispatch is undue exactly when the job is no longer waiting, unless a
      worker crashed on it before dispatching. */
  lemma UndueIffNotWaiting(s: State, w: string)
    requires Inv(s) && PhaseOf(s, w).Locked?
    ensures var j := PhaseOf(s, w).job; var t := Next(Next(s, MarkRunning(w)), Dispatch(w));
      && t.log == s.log + [j]
      && (Undue(s, j) <==> !Waiting(StatusOf(s, j)) && !(StatusOf(s, j) == Running && j !in s.log))
  {
    DispatchFollows(s, w);
    UndueStatus(s, PhaseOf(s, w).job);
  }

  lemma DispatchFollows(s: State, w: string)
    requires Inv(s) && PhaseOf(s, w).Locked?
    ensures AfterDispatch(AfterRunning(s, w), w).log == s.log + [PhaseOf(s, w).job]
    ensures PhaseOf(s, w).job < |s.jobs|
  {
    var j := PhaseOf(s, w).job;
    assert PhaseFits(s, PhaseOf(s, w));
    assert PhaseOf(AfterRunning(s, w), w) == Working(j);
  }

  lemma UndueStatus(s: State, j: nat)
    requires Inv(s) && j < |s.jobs|
    ensures Undue(s, j) <==> !Waiting(StatusOf(s, j)) && !(StatusOf(s, j) == Running && j !in s.log)
  {
    assert multiset(s.log)[j] <= Allowance(s.jobs, j);
  }

  /** Without the guard a build error, too, overwrites the status of a job that has ended. */
  lemma BuildErrorOverwritesEnded(s: State, w: string)
    requires Inv(s) && PhaseOf(s, w).Locked? && Ended(s, PhaseOf(s, w).job)
    ensures var j := PhaseOf(s, w).job; StatusOf(Next(s, BuildFails(w)), j) == Failed
  {
    assert PhaseFits(s, PhaseOf(s, w));
  }

  /* ---- writes from outside the lock ---- */

  predicate KeepsEnded(s: State, t: State) {
    forall k | 0 <= k < |s.jobs| && Ended(s, k) :: k < |t.jobs| && t.jobs[k] == s.jobs[k]
  }

  ghost predicate ActiveOn(s: State, j: nat) {
    exists w :: Active(PhaseOf(s, w)) && PhaseOf(s, w).job == j
  }

  /** A write that changes nothing, or hits a job a worker crashed on before it did any harm. */
  ghost predicate HarmlessLate(s: State, step: Step)
    requires step.Cancel? || step.Start?
  {
    var status := StatusOf(s, step.job);
    || status == (if step.Cancel? then Cancelled else Failed)
    || (status == Running && !ActiveOn(s, step.job) && (step.Cancel? ==> step.job !in s.log))
  }

  /** The guard of a cancellation, and of the failure on a disabled NAS, is exact, in every state of a guarded run: the
      write keeps the invariant and every job that has ended exactly when it finds the job waiting, or is harmless. */
  lemma OverwriteSafeIff(s: State, step: Step)
    requires Inv(s) && Overwrites(s, step)
    ensures Inv(Next(s, step)) && KeepsEnded(s, Next(s, step))
      <==> Waiting(StatusOf(s, step.job)) || HarmlessLate(s, step)
  {
    var j, t := step.job, Next(s, step);
    var target := if step.Cancel? then Cancelled else Failed;
    assert t == SetStatus(s, j, target);
    if Waiting(s.jobs[j].status) {
      FreeJobMove(s, j, target);
    } else if s.jobs[j].status == Running {
      RunningOverwritten(s, j, target);
    } else if s.jobs[j].status == target {
      assert t == s;
    } else {
      assert Ended(s, j) && t.jobs[j] != s.jobs[j];
    }
  }

  lemma RunningOverwritten(s: State, j: nat, target: Status)
    requires Inv(s) && j < |s.jobs| && s.jobs[j].status == Running && target in {Cancelled, Failed}
    ensures var t := SetStatus(s, j, target);
      && KeepsEnded(s, t)
      && (Inv(t) <==> !ActiveOn(s, j) && (target == Cancelled ==> j !in s.log))
  {
    var t := SetStatus(s, j, target);
    assert forall v :: PhaseOf(t, v) == PhaseOf(s, v);
    if w :| Active(PhaseOf(s, w)) && PhaseOf(s, w).job == j {
      assert !PhaseFits(t, PhaseOf(t, w));
    } else if target == Cancelled && j in s.log {
      assert multiset(t.log)[j] > Allowance(t.jobs, j);
    } else {
      IdleJobMove(s, j, target);
    }
  }

  lemma IdleJobMove(s: State, j: nat, target: Status)
    requires Inv(s) && j < |s.jobs| && !ActiveOn(s, j)
    requires target == Failed || (target == Cancelled && j !in s.log)
    ensures Inv(SetStatus(s, j, target))
  {
    var t := SetStatus(s, j, target);
    forall v
      ensures PhaseOf(t, v) == PhaseOf(s, v) && PhaseFits(t, PhaseOf(t, v))
    {
      assert PhaseFits(s, PhaseOf(s, v));
    }
    forall k: nat
      ensures multiset(t.log)[k] <= Allowance(t.jobs, k)
    {
      assert multiset(s.log)[k] <= Allowance(s.jobs, k);
    }
  }

  /** A cancellation that read the job as waiting and commits while a worker is on it leaves a cancelled job that has
      been dispatched, whether it comes before the dispatch or after. */
  lemma LateCancelDispatched(s: State, w: string, j: nat)
    requires PhaseOf(s, w) == Working(j) && j < |s.jobs|
    ensures var before := Next(Next(s, Cancel(j, Queued)), Dispatch(w));
      var after := Next(Next(s, Dispatch(w)), Cancel(j, Queued));
      && StatusOf(before, j) == StatusOf(after, j) == Cancelled
      && before.log == after.log == s.log + [j]
  {
    assert PhaseOf(Next(s, Cancel(j, Queued)), w) == Working(j);
  }

  /* ---- runs that break the guard ---- */

  lemma Then(s: State, steps: seq<Step>, step: Step)
    ensures RunFrom(s, steps + [step]) == Next(RunFrom(s, steps), step)
  {
    assert (steps + [step])[..|steps|] == steps;
  }

  /** From the lock to the dispatch, undisturbed. */
  lemma DispatchAfter(steps: seq<Step>, w: string, j: nat)
    requires var s := RunFrom(INITIAL, steps); PhaseOf(s, w) == Ready(j) && NasOf(s, j) !in s.locks
    ensures var s := RunFrom(INITIAL, steps);
      RunFrom(INITIAL, steps + [Acquire(w)] + [MarkRunning(w)] + [Dispatch(w)])
      == var locked := SetPhase(s.(locks := s.locks[NasOf(s, j) := w]), w, Locked(j));
         SetPhase(SetPhase(SetStatus(locked, j, Running), w, Working(j)).(log := s.log + [j]), w, Dispatched(j))
  {
    Then(INITIAL, steps, Acquire(w));
    Then(INITIAL, steps + [Acquire(w)], MarkRunning(w));
    Then(INITIAL, steps + [Acquire(w)] + [MarkRunning(w)], Dispatch(w));
  }

  /** From the dispatch to the end of the call, undisturbed. */
  lemma EndAfter(steps: seq<Step>, w: string, j: nat)
    requires var s := RunFrom(INITIAL, steps);
      PhaseOf(s, w) == Dispatched(j) && j < |s.jobs| && s.jobs[j].nas in s.locks && s.locks[s.jobs[j].nas] == w
    ensures var s, t := RunFrom(INITIAL, steps), RunFrom(INITIAL, steps + [Finish(w, true)] + [Unlock(w)]);
      && t.log == s.log && |t.jobs| == |s.jobs| && t.jobs[j].nas == s.jobs[j].nas
      && t.locks == s.locks - {s.jobs[j].nas}
      && forall v | v != w :: PhaseOf(t, v) == PhaseOf(s, v)
  {
    var s := RunFrom(INITIAL, steps);
    Then(INITIAL, steps, Finish(w, true));
    Then(INITIAL, steps + [Finish(w, true)], Unlock(w));
    var s1 := AfterFinish(s, w, true);
    assert PhaseOf(s1, w) == Unlocking(j) && s1.locks == s.locks && s1.jobs[j].nas == s.jobs[j].nas;
  }

  /** Worker "a" is done with the job while worker "b" still believes it is queued. */
  lemma SecondReaderReady() returns (steps: seq<Step>)
    ensures var s := RunFrom(INITIAL, steps);
      PhaseOf(s, "b") == Ready(0) && NasOf(s, 0) !in s.locks && s.log == [0]
  {
    var a := BothReady();
    DispatchAfter(a, "a", 0);
    var b := a + [Acquire("a")] + [MarkRunning("a")] + [Dispatch("a")];
    var t := RunFrom(INITIAL, b);
    assert PhaseOf(t, "b") == Ready(0) && PhaseOf(t, "a") == Dispatched(0) && t.log == [0];
    assert t.jobs == [Job("n", "k", Running)] && t.locks == map["n" := "a"];
    EndAfter(b, "a", 0);
    steps := b + [Finish("a", true)] + [Unlock("a")];
  }

  lemma BothReady() returns (steps: seq<Step>)
    ensures var s := RunFrom(INITIAL, steps);
      PhaseOf(s, "a") == Ready(0) && PhaseOf(s, "b") == Ready(0) && s.jobs == [Job("n", "k", Queued)]
        && s.locks == map[] && s.log == []
  {
    steps := [Queue("n", "k")] + [Start("a", 0, true, Queued)] + [Start("b", 0, true, Queued)];
    Then(INITIAL, [], Queue("n", "k"));
    Then(INITIAL, [Queue("n", "k")], Start("a", 0, true, Queued));
    Then(INITIAL, [Queue("n", "k")] + [Start("a", 0, true, Queued)], Start("b", 0, true, Queued));
  }

  /** The status is read before the lock is taken: a worker that read QUEUED dispatches a finished job again. */
  lemma OverlappingWorkersDispatchTwice()
    ensures exists steps :: RunFrom(INITIAL, steps).log == [0, 0]
  {
    var c := SecondReaderReady();
    DispatchAfter(c, "b", 0);
    assert RunFrom(INITIAL, c + [Acquire("b")] + [MarkRunning("b")] + [Dispatch("b")]).log == [0, 0];
  }

  /** A job cancelled after a worker read its status is dispatched all the same. */
  lemma CancelledJobDispatched()
    ensures exists steps, more ::
      && RunFrom(INITIAL, steps).jobs == [Job("n", "k", Cancelled)]
      && RunFrom(INITIAL, steps + more).log == [0]
  {
    var a := [Queue("n", "k")] + [Start("a", 0, true, Queued)] + [Cancel(0, Queued)];
    Then(INITIAL, [], Queue("n", "k"));
    Then(INITIAL, [Queue("n", "k")], Start("a", 0, true, Queued));
    Then(INITIAL, [Queue("n", "k")] + [Start("a", 0, true, Queued)], Cancel(0, Queued));
    DispatchAfter(a, "a", 0);
    var more := [Acquire("a"), MarkRunning("a"), Dispatch("a")];
    assert a + more == a + [Acquire("a")] + [MarkRunning("a")] + [Dispatch("a")];
    assert RunFrom(INITIAL, a + more).log == [0];
  }

  /* ---- one worker at a time ---- */

  /** What happens inside a job: no adapter, an exception before or inside the dispatch, or a result. */
  datatype Outcome = BuildError | EarlyError | DispatchError | Result(ok: bool)

  /** `Raised`: `adapter` is unbound in the `finally` block, so the call itself raises. */
  datatype Answer = Missing | LockedOut | Is(status: Status) | Raised

  /** From the lock to its release. */
  function Held(s: State, w: string, outcome: Outcome): State {
    match outcome
    case BuildError => AfterBuildError(s, w)
    case EarlyError => AfterUnlock(AfterRaise(AfterRunning(s, w), w), w)
    case DispatchError => AfterUnlock(AfterRaise(AfterDispatch(AfterRunning(s, w), w), w), w)
    case Result(ok) => AfterUnlock(AfterFinish(AfterDispatch(AfterRunning(s, w), w), w, ok), w)
  }

  /** A whole call of `process_nas_job`: the steps of one worker with nothing in between. */
  function Process(s: State, w: string, j: nat, enabled: bool, outcome: Outcome): State {
    Held(AfterAcquire(AfterStart(s, w, j, enabled, StatusOf(s, j)), w), w, outcome)
  }

  predicate Quiet(s: State) {
    forall w | w in s.phases :: s.phases[w] == Idle
  }

  /** The worker's call gets as far as the dispatch. */
  predicate Runs(s: State, j: nat, enabled: bool) {
    j < |s.jobs| && Waiting(s.jobs[j].status) && enabled && s.jobs[j].nas !in s.locks
  }

  lemma Begins(s: State, w: string, j: nat, enabled: bool)
    requires Quiet(s)
    ensures var t := AfterAcquire(AfterStart(s, w, j, enabled, StatusOf(s, j)), w);
      && t.log == s.log
      && PhaseOf(t, w) == (if Runs(s, j, enabled) then Locked(j) else Idle)
      && (forall v | v != w :: PhaseOf(t, v) == Idle)
      && t.locks == (if Runs(s, j, enabled) then s.locks[s.jobs[j].nas := w] else s.locks)
      && t.jobs ==
         if j < |s.jobs| && Waiting(s.jobs[j].status) && !enabled then SetStatus(s, j, Failed).jobs else s.jobs
  {
    assert forall v :: PhaseOf(s, v) == Idle;
    var s1 := AfterStart(s, w, j, enabled, StatusOf(s, j));
    if j < |s.jobs| && Waiting(s.jobs[j].status) && enabled {
      PhasesAfter(s, w, Ready(j));
      PhasesAfter(s1.(locks := s1.locks[NasOf(s1, j) := w]), w, Locked(j));
      PhasesAfter(s1, w, Idle);
    }
  }

  lemma Ends(s: State, w: string, j: nat, outcome: Outcome)
    requires PhaseOf(s, w) == Locked(j) && !outcome.BuildError? && j < |s.jobs|
    requires s.jobs[j].nas in s.locks && s.locks[s.jobs[j].nas] == w
    ensures var t := Held(s, w, outcome);
      && (forall v :: PhaseOf(t, v) == if v == w then Idle else PhaseOf(s, v))
      && t.locks == s.locks - {s.jobs[j].nas}
      && t.log == (if outcome.EarlyError? then s.log else s.log + [j])
      && t.jobs == s.jobs[j := s.jobs[j].(status := if outcome == Result(true) then Succeeded else Failed)]
  {
    var s1 := AfterRunning(s, w);
    assert s1.jobs == s.jobs[j := s.jobs[j].(status := Running)] && PhaseOf(s1, w) == Working(j);
    assert s1.locks == s.locks && s1.log == s.log;
    var s2 := if outcome.EarlyError? then s1 else AfterDispatch(s1, w);
    assert PhaseOf(s2, w) == (if outcome.EarlyError? then Working(j) else Dispatched(j)) && s2.jobs == s1.jobs;
    var s3 := if outcome.Result? then AfterFinish(s2, w, outcome.ok) else AfterRaise(s2, w);
    assert PhaseOf(s3, w) == Unlocking(j) && s3.locks == s.locks && s3.log == s2.log;
  }

  /** The jobs after a whole call. */
  function JobsAfter(s: State, j: nat, enabled: bool, outcome: Outcome): seq<Job> {
    if j < |s.jobs| && Waiting(s.jobs[j].status) && (Runs(s, j, enabled) || !enabled)
    then s.jobs[j := s.jobs[j].(status := if enabled && outcome == Result(true) then Succeeded else Failed)]
    else s.jobs
  }

  function LogAfter(s: State, j: nat, enabled: bool, outcome: Outcome): seq<nat> {
    if Runs(s, j, enabled) && (outcome.DispatchError? || outcome.Result?) then s.log + [j] else s.log
  }

  function LocksAfter(s: State, w: string, j: nat, enabled: bool, outcome: Outcome): map<string, string> {
    if Runs(s, j, enabled) && outcome.BuildError? then s.locks[s.jobs[j].nas := w] else s.locks
  }

  /** A call that gets the lock. */
  lemma ProcessRuns(s: State, w: string, j: nat, outcome: Outcome)
    requires Quiet(s) && Runs(s, j, true)
    ensures var t := Process(s, w, j, true, outcome);
      && (forall v :: PhaseOf(t, v) == Idle)
      && t.jobs == JobsAfter(s, j, true, outcome)
      && t.locks == LocksAfter(s, w, j, true, outcome)
      && t.log == LogAfter(s, j, true, outcome)
  {
    var held := AfterAcquire(AfterStart(s, w, j, true, StatusOf(s, j)), w);
    Begins(s, w, j, true);
    if outcome.BuildError? {
      PhasesAfter(SetStatus(held, j, Failed), w, Idle);
    } else {
      Ends(held, w, j, outcome);
      assert s.locks[s.jobs[j].nas := w] - {s.jobs[j].nas} == s.locks;
    }
  }

  /** What a whole call does: one dispatch and one final status, or nothing; only a build error keeps the lock. */
  lemma ProcessIs(s: State, w: string, j: nat, enabled: bool, outcome: Outcome)
    requires Quiet(s)
    ensures Process(s, w, j, enabled, outcome).(phases := map[])
         == State(JobsAfter(s, j, enabled, outcome), LocksAfter(s, w, j, enabled, outcome),
                  LogAfter(s, j, enabled, outcome), map[])
    ensures Quiet(Process(s, w, j, enabled, outcome))
  {
    var t := Process(s, w, j, enabled, outcome);
    if Runs(s, j, enabled) {
      ProcessRuns(s, w, j, outcome);
    } else {
      Begins(s, w, j, enabled);
      assert t == AfterAcquire(AfterStart(s, w, j, enabled, StatusOf(s, j)), w);
    }
    assert forall v | v in t.phases :: PhaseOf(t, v) == t.phases[v];
  }

  lemma QuietInv(s: State)
    requires UniqueJobs(s.jobs) && LogFits(s.jobs, s.log) && Quiet(s)
    requires forall j | 0 <= j < |s.jobs| :: s.jobs[j].status != Verifying
    ensures Inv(s)
  {
    assert forall v :: PhaseOf(s, v) == Idle;
  }

  /** A call with nobody else at work keeps the invariant. */
  lemma ProcessKeepsInv(s: State, w: string, j: nat, enabled: bool, outcome: Outcome)
    requires Inv(s) && Quiet(s)
    ensures Inv(State(JobsAfter(s, j, enabled, outcome), LocksAfter(s, w, j, enabled, outcome),
                      LogAfter(s, j, enabled, outcome), map[]))
  {
    var jobs := JobsAfter(s, j, enabled, outcome);
    var log: seq<nat> := LogAfter(s, j, enabled, outcome);
    CountOne(s.log, j);
    assert |jobs| == |s.jobs| && forall i | 0 <= i < |jobs| ::
      jobs[i].nas == s.jobs[i].nas && jobs[i].key == s.jobs[i].key;
    forall k: nat
      ensures multiset(log)[k] <= Allowance(jobs, k)
    {
      assert multiset(s.log)[k] <= Allowance(s.jobs, k);
    }
    QuietInv(State(jobs, LocksAfter(s, w, j, enabled, outcome), log, map[]));
  }

  class JobRunner {
    var jobs: seq<Job>
    var locks: map<string, string>
    var log: seq<nat>

    /** No worker is inside a call. */
    function View(): State
      reads this
    {
      State(jobs, locks, log, map[])
    }

    ghost predicate Valid()
      reads this
    {
      Inv(View())
    }

    constructor ()
      ensures View() == INITIAL && Valid()
    {
      jobs, locks, log := [], map[], [];
      new;
      RunKeepsInv([]);
    }

    method QueueNasJob(nas: string, key: string) returns (created: bool)
      requires Valid()
      modifies this
      ensures View() == Next(old(View()), Queue(nas, key)) && Valid()
      ensures created <==> forall i | 0 <= i < |old(jobs)| :: old(jobs)[i].nas != nas || old(jobs)[i].key != key
      ensures jobs == if created then old(jobs) + [Job(nas, key, Queued)] else old(jobs)
    {
      QueueKeepsInv(View(), nas, key);
      created := !Exists(jobs, nas, key);
      if created {
        jobs := jobs + [Job(nas, key, Queued)];
      }
    }

    method CancelNasJob(j: nat) returns (status: Option<int>)
      requires Valid()
      modifies this
      ensures View() == Next(old(View()), Cancel(j, StatusOf(old(View()), j))) && Valid()
      ensures status ==
        if j >= |old(jobs)| then Some(404) else if old(jobs)[j].status in {Pending, Queued} then None else Some(409)
      ensures jobs == if status.None? then old(jobs)[j := old(jobs)[j].(status := Cancelled)] else old(jobs)
      ensures locks == old(locks) && log == old(log)
    {
      if j >= |jobs| {
        return Some(404);
      }
      if jobs[j].status != Pending && jobs[j].status != Queued {
        return Some(409);
      }
      FreeJobMove(View(), j, Cancelled);
      jobs := jobs[j := jobs[j].(status := Cancelled)];
      return None;
    }

    /** A whole call: its effect is that of one worker's steps with nothing in between. */
    method ProcessNasJob(j: nat, owner: string, enabled: bool, outcome: Outcome) returns (answer: Answer)
      requires Valid()
      modifies this
      ensures View() == Process(old(View()), owner, j, enabled, outcome).(phases := map[]) && Valid()
      ensures j >= |old(jobs)| <==> answer == Missing
      ensures answer == LockedOut
        <==> j < |old(jobs)| && Waiting(old(jobs)[j].status) && enabled && old(jobs)[j].nas in old(locks)
      ensures answer.Is? ==> j < |jobs| && answer.status == jobs[j].status
      ensures answer == Raised <==> Runs(old(View()), j, enabled) && outcome.BuildError?
      ensures j >= |old(jobs)| || old(jobs)[j].status !in {Pending, Queued} ==>
        jobs == old(jobs) && locks == old(locks) && log == old(log)
      ensures j < |old(jobs)| && old(jobs)[j].status in {Pending, Queued} && !enabled ==>
        jobs == old(jobs)[j := old(jobs)[j].(status := Failed)] && locks == old(locks) && log == old(log)
      ensures j < |old(jobs)| && old(jobs)[j].status in {Pending, Queued} && enabled ==>
        var nas := old(jobs)[j].nas;
        if nas in old(locks) then jobs == old(jobs) && locks == old(locks) && log == old(log)
        else
          && jobs == old(jobs)[j := old(jobs)[j].(status := if outcome == Result(true) then Succeeded else Failed)]
          && locks == (if outcome == BuildError then old(locks)[nas := owner] else old(locks))
          && log == if outcome in {BuildError, EarlyError} then old(log) else old(log) + [j]
    {
      ghost var s := View();
      ProcessKeepsInv(s, owner, j, enabled, outcome);
      ProcessIs(s, owner, j, enabled, outcome);
      answer := Processed(j, owner, enabled, outcome);
    }

    method Processed(j: nat, owner: string, enabled: bool, outcome: Outcome) returns (answer: Answer)
      modifies this
      ensures jobs == JobsAfter(old(View()), j, enabled, outcome)
      ensures locks == LocksAfter(old(View()), owner, j, enabled, outcome)
      ensures log == LogAfter(old(View()), j, enabled, outcome)
      ensures j >= |old(jobs)| <==> answer == Missing
      ensures answer == LockedOut
        <==> j < |old(jobs)| && Waiting(old(jobs)[j].status) && enabled && old(jobs)[j].nas in old(locks)
      ensures answer.Is? ==> j < |jobs| && answer.status == jobs[j].status
      ensures answer == Raised <==> Runs(old(View()), j, enabled) && outcome.BuildError?
    {
      if j >= |jobs| {
        return Missing;
      }
      if jobs[j].status != Queued && jobs[j].status != Pending {
        return Is(jobs[j].status);
      }
      if !enabled {
        Finished(j, Failed);
        return Is(Failed);
      }
      var nas := jobs[j].nas;
      if nas in locks {
        return LockedOut;
      }
      locks := locks[nas := owner];
      if outcome.BuildError? {
        Finished(j, Failed);
        return Raised;
      }
      jobs := jobs[j := jobs[j].(status := Running)];
      if !outcome.EarlyError? {
        log := log + [j];
      }
      Finished(j, if outcome == Result(true) then Succeeded else Failed);
      locks := locks - {nas};
      return Is(jobs[j].status);
    }

    /** The guarded move; a refused move is assigned all the same. */
    method Finished(j: nat, status: Status)
      requires j < |jobs|
      modifies this`jobs
      ensures jobs == old(jobs)[j := old(jobs)[j].(status := status)]
    {
      var moved := Transition(jobs[j].status, status);
      if moved.Some? {
        jobs := jobs[j := jobs[j].(status := moved.value)];
      } else {
        jobs := jobs[j := jobs[j].(status := status)];
      }
    }
  }
}
