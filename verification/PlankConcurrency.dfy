/** The concurrency limits. `pendingJobs` is an upper bound for the jobs that are pending, because every
    pending job is either counted, still to be looked at, or about to finish, and every job that becomes
    pending was counted when it was admitted. Five kinds of loss break this, and no other. */
module PlankConcurrency {
  import opened Text
  import opened ProwJobs
  import opened Plank
  import opened PlankSnapshot
  import opened PlankPods

  // Counts.

  ghost function OfJob(pjs: map<Name, ProwJob>, names: set<Name>, job: string): set<Name> {
    set n | n in names && n in pjs && pjs[n].spec.job == job
  }

  /** The counters are exactly the sizes of the counted jobs, by name and in total. */
  ghost predicate CountsOk(pendingJobs: map<string, int>, counted: set<Name>, pjs: map<Name, ProwJob>) {
    && counted <= pjs.Keys
    && Sum(pendingJobs) == |counted|
    && forall job :: Num(pendingJobs, job) == |OfJob(pjs, counted, job)|
  }

  lemma CountOne(pendingJobs: map<string, int>, counted: set<Name>, pjs: map<Name, ProwJob>, n: Name)
    requires CountsOk(pendingJobs, counted, pjs) && n in pjs && n !in counted
    ensures CountsOk(Increment(pendingJobs, pjs[n].spec.job), counted + {n}, pjs)
  {
    SumIncrement(pendingJobs, pjs[n].spec.job);
    forall job
      ensures |OfJob(pjs, counted + {n}, job)| == |OfJob(pjs, counted, job)| + if job == pjs[n].spec.job then 1 else 0
    {
      OfJobAdd(pjs, counted, n, job);
    }
    hide OfJob, Sum;
  }

  lemma OfJobAdd(pjs: map<Name, ProwJob>, counted: set<Name>, n: Name, job: string)
    requires n in pjs && n !in counted
    ensures |OfJob(pjs, counted + {n}, job)| == |OfJob(pjs, counted, job)| + if job == pjs[n].spec.job then 1 else 0
  {
    if job == pjs[n].spec.job {
      assert OfJob(pjs, counted + {n}, job) == OfJob(pjs, counted, job) + {n};
    } else {
      assert OfJob(pjs, counted + {n}, job) == OfJob(pjs, counted, job);
    }
  }

  // Limits.

  /** The limit of each job name; a limit that is not positive is no limit. */
  type Limits = string -> int

  ghost predicate LimitsOk(lim: Limits, jobs: map<Name, ProwJob>) {
    forall n :: n in jobs ==> jobs[n].spec.maxConcurrency == lim(jobs[n].spec.job)
  }

  /** A set of jobs that could be pending together. */
  ghost predicate Within(lim: Limits, max: int, pjs: map<Name, ProwJob>, names: set<Name>) {
    && (max > 0 ==> |names| <= max)
    && forall job :: lim(job) > 0 ==> |OfJob(pjs, names, job)| <= lim(job)
  }

  lemma SubsetSize<T>(a: set<T>, b: set<T>)
    requires a <= b
    ensures |a| <= |b|
  {
    assert b == a + (b - a);
  }

  lemma WithinSubset(lim: Limits, max: int, pjs: map<Name, ProwJob>, jobs: map<Name, ProwJob>,
                     a: set<Name>, b: set<Name>)
    requires Within(lim, max, pjs, b) && a <= b && SameSpecs(pjs, jobs, b)
    ensures Within(lim, max, jobs, a)
  {
    SubsetSize(a, b);
    forall job | lim(job) > 0
      ensures |OfJob(jobs, a, job)| <= lim(job)
    {
      SubsetSize(OfJob(jobs, a, job), OfJob(pjs, b, job));
    }
  }

  ghost predicate SameSpecs(pjs: map<Name, ProwJob>, jobs: map<Name, ProwJob>, names: set<Name>) {
    forall n :: n in names && n in jobs ==> n in pjs && pjs[n].spec == jobs[n].spec
  }

  /** An admitted job still fits. */
  lemma AdmissionFits(lim: Limits, max: int, pendingJobs: map<string, int>, pjs: map<Name, ProwJob>,
                      counted: set<Name>, n: Name)
    requires CountsOk(pendingJobs, counted, pjs) && Within(lim, max, pjs, counted) && LimitsOk(lim, pjs)
    requires n in pjs && n !in counted && Admits(max, pendingJobs, pjs, pjs[n])
    ensures Within(lim, max, pjs, counted + {n})
  {
    forall job | lim(job) > 0
      ensures |OfJob(pjs, counted + {n}, job)| <= lim(job)
    {
      OfJobAdd(pjs, counted, n, job);
    }
  }

  // The invariant.

  /** What the stage of a worker says about counting its job, in the round of pending jobs. */
  ghost predicate PendingStageOk(stage: Stage, counted: bool, pending: bool) {
    match stage
    case Queued => !counted
    case Creating => counted
    case Deleting(None) => counted
    case Deleting(Some(next)) => next.status.state != Pending && next.status.state != Triggered
    case Patching(next) => (counted || next.status.state != Pending) && next.status.state != Triggered
    case Done => counted || !pending
  }

  ghost predicate TriggeredStageOk(stage: Stage, counted: bool) {
    match stage
    case Queued => !counted
    case Creating => counted
    case Deleting(_) => false
    case Patching(next) => counted && !next.status.state.Triggered?
    case Done => true
  }

  ghost predicate PendingInv(lim: Limits, max: int, s: State) {
    && InState(s.jobs, Pending) <= s.work.Keys
    && s.counted <= s.work.Keys
    && Within(lim, max, s.pjs, s.work.Keys)
    && CountsOk(s.pendingJobs, s.counted, s.pjs)
    && forall n :: n in s.work ==> PendingStageOk(s.work[n], n in s.counted, n in InState(s.jobs, Pending))
  }

  ghost predicate TriggeredInv(lim: Limits, max: int, s: State) {
    && InState(s.jobs, Pending) <= s.counted
    && Within(lim, max, s.pjs, s.counted)
    && CountsOk(s.pendingJobs, s.counted, s.pjs)
    && forall n :: n in s.work ==> TriggeredStageOk(s.work[n], n in s.counted)
  }

  /** A waiting job has a pod only between the creation of the pod and the patch that follows; one that
      is waiting in the snapshot has none until its worker creates it. */
  ghost predicate NoStrayPods(s: State) {
    && (forall n :: n in s.jobs && n in s.pods && s.jobs[n].status.state.Triggered? ==>
          s.round.TriggeredRound? && n in s.work && s.work[n].Patching?)
    && (!s.round.Idle? ==> forall n :: n in s.pjs && n in s.pods && s.pjs[n].status.state.Triggered? ==>
          s.round.TriggeredRound? && n in s.work && (s.work[n].Patching? || s.work[n].Done?))
    && (s.round.Deduping? || Working(s.round) ==>
          forall n :: n in s.pjs && n in s.pm ==> !s.pjs[n].status.state.Triggered?)
  }

  ghost predicate SpecsInv(lim: Limits, s: State) {
    LimitsOk(lim, s.jobs)
    && (!s.round.Idle? ==> LimitsOk(lim, s.pjs) && SameSpecs(s.pjs, s.jobs, s.pjs.Keys))
  }

  ghost predicate CountInv(lim: Limits, max: int, s: State) {
    match s.round
    case PendingRound => PendingInv(lim, max, s)
    case TriggeredRound => TriggeredInv(lim, max, s)
    case Idle => Within(lim, max, s.jobs, InState(s.jobs, Pending))
    case _ => Within(lim, max, s.pjs, InState(s.pjs, Pending)) && InState(s.jobs, Pending) <= InState(s.pjs, Pending)
  }

  ghost predicate SafeInv(lim: Limits, max: int, s: State) {
    Shape(s) && SpecsInv(lim, s) && NoStrayPods(s) && CountInv(lim, max, s)
  }

  // Losses.

  /** What can break the limits:
      the controller crashes while a waiting job has its pod;
      the reply to the creation of a waiting job's pod is lost;
      the patch that should follow that creation is rejected;
      the deletion of a pod that timed out fails, so that its job, not counted, stays pending;
      the patch that should finish a job that is not counted is rejected. */
  datatype Loss = CrashedBetween | LostCreation | LostAdmission | FailedDeletion | LostVerdict

  ghost predicate IsIn(jobs: map<Name, ProwJob>, n: Name, state: JobState) {
    n in jobs && jobs[n].status.state == state
  }

  ghost predicate HasStray(s: State) { exists n :: n in s.pods && IsIn(s.jobs, n, Triggered) }

  ghost function LossOf(s: State, e: Event): Option<Loss> {
    match e
    case Crash => if HasStray(s) then Some(CrashedBetween) else None
    case CreatePod(n, result, _) =>
      if result.CreatedUnnoticed? && s.round.TriggeredRound? && IsIn(s.jobs, n, Triggered) then Some(LostCreation)
      else None
    case DeletePod(n, ok, _) =>
      if !ok && n in s.work && s.work[n].Deleting? && s.work[n].andThen.Some? && IsIn(s.jobs, n, Pending)
      then Some(FailedDeletion) else None
    case PatchJob(n, reply) =>
      if !reply.Rejected? then None
      else if s.round.TriggeredRound? then
        if n in s.pods && IsIn(s.jobs, n, Triggered) then Some(LostAdmission) else None
      else if n !in s.counted && IsIn(s.jobs, n, Pending) then Some(LostVerdict) else None
    case _ => None
  }

  /** No loss; and a new job carries the limit of its name. */
  ghost predicate Harmless(lim: Limits, s: State, e: Event) {
    LossOf(s, e).None? && (e.NewJob? ==> e.job.spec.maxConcurrency == lim(e.job.spec.job))
  }

  /** The invariant gives the limits. */
  lemma InvMeansWithin(lim: Limits, max: int, s: State)
    requires Shape(s) && SpecsInv(lim, s) && CountInv(lim, max, s)
    ensures Within(lim, max, s.jobs, InState(s.jobs, Pending))
  {
    var pending := InState(s.jobs, Pending);
    hide SnapshotOk, LimitsOk, Within, PendingStageOk, TriggeredStageOk;
    if s.round.PendingRound? {
      WithinSubset(lim, max, s.pjs, s.jobs, pending, s.work.Keys);
    } else if s.round.TriggeredRound? {
      WithinSubset(lim, max, s.pjs, s.jobs, pending, s.counted);
    } else if !s.round.Idle? {
      WithinSubset(lim, max, s.pjs, s.jobs, pending, InState(s.pjs, Pending));
    }
  }

  // Counting by the workers.

  lemma PendingWorker(lim: Limits, max: int, s: State, s': State, n: Name)
    requires PendingInv(lim, max, s) && n in s.work && n in s.pjs
    requires s'.pjs == s.pjs && n in s'.work && s'.work == s.work[n := s'.work[n]]
    requires InState(s.jobs, Pending) - {n} <= InState(s'.jobs, Pending) <= InState(s.jobs, Pending)
    requires || (s'.counted == s.counted && s'.pendingJobs == s.pendingJobs)
             || (s.work[n].Queued? && s'.counted == s.counted + {n}
                 && s'.pendingJobs == Increment(s.pendingJobs, s.pjs[n].spec.job))
    requires PendingStageOk(s'.work[n], n in s'.counted, n in InState(s'.jobs, Pending))
    ensures PendingInv(lim, max, s')
  {
    assert s'.work.Keys == s.work.Keys;
    if s'.counted != s.counted {
      CountOne(s.pendingJobs, s.counted, s.pjs, n);
    }
  }

  lemma TriggeredWorker(lim: Limits, max: int, s: State, s': State, n: Name)
    requires TriggeredInv(lim, max, s) && n in s.work && n in s.pjs && LimitsOk(lim, s.pjs)
    requires s'.pjs == s.pjs && n in s'.work && s'.work == s.work[n := s'.work[n]]
    requires InState(s'.jobs, Pending) <= InState(s.jobs, Pending) + {n}
    requires n in InState(s'.jobs, Pending) ==> n in s'.counted
    requires || (s'.counted == s.counted && s'.pendingJobs == s.pendingJobs)
             || (s.work[n].Queued? && s'.counted == s.counted + {n}
                 && s'.pendingJobs == Increment(s.pendingJobs, s.pjs[n].spec.job)
                 && Admits(max, s.pendingJobs, s.pjs, s.pjs[n]))
    requires TriggeredStageOk(s'.work[n], n in s'.counted)
    ensures TriggeredInv(lim, max, s')
  {
    if s'.counted != s.counted {
      CountOne(s.pendingJobs, s.counted, s.pjs, n);
      AdmissionFits(lim, max, s.pendingJobs, s.pjs, s.counted, n);
    }
  }

  lemma DecisionCounts(cfg: Config, pj: ProwJob, pod: Option<Pod>, now: int)
    ensures var d := PendingDecision(cfg, pj, pod, now); PendingStageOk(d.stage, d.counts, true)
  {}

  lemma PendingStageWeaker(stage: Stage, counted: bool, pending: bool)
    requires PendingStageOk(stage, counted, true)
    ensures PendingStageOk(stage, counted, pending)
  {}

  lemma TakePendingCounts(lim: Limits, cfg: Config, max: int, s: State, n: Name, now: int)
    requires PendingInv(lim, max, s) && At(s, n) && s.work[n].Queued?
    ensures PendingInv(lim, max, DoTakePending(cfg, s, n, now))
  {
    var s', d := DoTakePending(cfg, s, n, now), PendingDecision(cfg, s.pjs[n], Lookup(s.pm, n), now);
    DecisionCounts(cfg, s.pjs[n], Lookup(s.pm, n), now);
    assert n !in s.counted;
    PendingStageWeaker(d.stage, d.counts, n in InState(s'.jobs, Pending));
    hide PendingInv, PendingDecision, Lookup, Increment, InState, PendingStageOk;
    PendingWorker(lim, max, s, s', n);
  }

  lemma TakeTriggeredCounts(lim: Limits, cfg: Config, s: State, n: Name, now: int)
    requires TriggeredInv(lim, cfg.maxConcurrency, s) && LimitsOk(lim, s.pjs)
    requires At(s, n) && s.work[n].Queued? && n !in s.pm
    ensures TriggeredInv(lim, cfg.maxConcurrency, DoTakeTriggered(cfg, s, n, now))
  {
    var s' := DoTakeTriggered(cfg, s, n, now);
    assert InState(s'.jobs, Pending) <= s.counted && n !in s.counted;
    hide TriggeredInv, Admits, InState, LimitsOk, Increment;
    TriggeredWorker(lim, cfg.maxConcurrency, s, s', n);
  }

  lemma CreatePodCounts(lim: Limits, max: int, s: State, n: Name, result: Creation, now: int)
    requires Shape(s) && CountInv(lim, max, s) && LimitsOk(lim, s.pjs) && At(s, n) && s.work[n].Creating?
    ensures CountInv(lim, max, DoCreatePod(s, n, result, now))
  {
    WorkersJob(s, n);
    var s' := DoCreatePod(s, n, result, now);
    if s.round.PendingRound? {
      assert n in s.counted;
      hide Shape, PendingInv, InState;
      PendingWorker(lim, max, s, s', n);
    } else {
      assert n in s.counted;
      hide Shape, TriggeredInv, InState, LimitsOk;
      TriggeredWorker(lim, max, s, s', n);
    }
  }

  lemma NothingToDelete(lim: Limits, max: int, s: State, n: Name)
    requires CountInv(lim, max, s) && s.round.TriggeredRound? && n in s.work
    ensures !s.work[n].Deleting?
  {
    assert TriggeredStageOk(s.work[n], n in s.counted);
  }

  lemma DeletePodCounts(lim: Limits, max: int, s: State, n: Name, ok: bool, gone: bool)
    requires CountInv(lim, max, s) && At(s, n) && s.work[n].Deleting? && LossOf(s, DeletePod(n, ok, gone)).None?
    ensures CountInv(lim, max, DoDeletePod(s, n, ok, gone))
  {
    if s.round.PendingRound? {
      assert PendingStageOk(s.work[n], n in s.counted, n in InState(s.jobs, Pending));
      hide PendingInv, Remove;
      PendingWorker(lim, max, s, DoDeletePod(s, n, ok, gone), n);
    } else {
      NothingToDelete(lim, max, s, n);
    }
  }

  /** The state a patch leaves: the one recorded, or the server's where nothing new is recorded. */
  lemma PatchedState(s: State, n: Name, reply: Reply)
    requires At(s, n) && s.work[n].Patching?
    ensures var jobs, pj, next := DoPatchJob(s, n, reply).jobs, s.pjs[n].status.state, s.work[n].next.status.state;
      && n in jobs && jobs == s.jobs[n := jobs[n]]
      && jobs[n].status.state == if reply.Rejected? || next == pj then s.jobs[n].status.state else next
  {
    hide MergeMap;
  }

  lemma InStateAfter(jobs: map<Name, ProwJob>, jobs': map<Name, ProwJob>, n: Name, state: JobState)
    requires n in jobs && n in jobs' && jobs' == jobs[n := jobs'[n]]
    ensures InState(jobs', state) == InState(jobs, state) - {n} + if jobs'[n].status.state == state then {n} else {}
  {}

  lemma PatchPendingCounts(lim: Limits, max: int, s: State, n: Name, reply: Reply)
    requires PendingInv(lim, max, s) && At(s, n) && s.work[n].Patching? && s.pjs[n].status.state == Pending
    requires s.round.PendingRound? && LossOf(s, PatchJob(n, reply)).None?
    ensures PendingInv(lim, max, DoPatchJob(s, n, reply))
  {
    var s' := DoPatchJob(s, n, reply);
    PatchedState(s, n, reply);
    InStateAfter(s.jobs, s'.jobs, n, Pending);
    assert PendingStageOk(s.work[n], n in s.counted, n in InState(s.jobs, Pending));
    assert s'.pjs == s.pjs && s'.counted == s.counted && s'.pendingJobs == s.pendingJobs;
    assert s'.work == s.work[n := Done];
    hide PendingInv, DoPatchJob;
    PendingWorker(lim, max, s, s', n);
  }

  lemma PatchTriggeredCounts(lim: Limits, max: int, s: State, n: Name, reply: Reply)
    requires TriggeredInv(lim, max, s) && At(s, n) && s.work[n].Patching? && LimitsOk(lim, s.pjs)
    ensures TriggeredInv(lim, max, DoPatchJob(s, n, reply))
  {
    var s' := DoPatchJob(s, n, reply);
    PatchedState(s, n, reply);
    InStateAfter(s.jobs, s'.jobs, n, Pending);
    assert TriggeredStageOk(s.work[n], n in s.counted);
    assert s'.pjs == s.pjs && s'.counted == s.counted && s'.pendingJobs == s.pendingJobs;
    assert s'.work == s.work[n := Done];
    hide TriggeredInv, DoPatchJob, LimitsOk;
    TriggeredWorker(lim, max, s, s', n);
  }

  lemma PatchCounts(lim: Limits, max: int, s: State, n: Name, reply: Reply)
    requires Shape(s) && LimitsOk(lim, s.pjs) && CountInv(lim, max, s) && At(s, n) && s.work[n].Patching?
    requires LossOf(s, PatchJob(n, reply)).None?
    ensures CountInv(lim, max, DoPatchJob(s, n, reply))
  {
    WorkersJob(s, n);
    hide Shape, PendingInv, TriggeredInv, LimitsOk, LossOf, Patched;
    if s.round.PendingRound? {
      PatchPendingCounts(lim, max, s, n, reply);
    } else {
      PatchTriggeredCounts(lim, max, s, n, reply);
    }
  }

  lemma WorkerKeepsCounts(lim: Limits, cfg: Config, s: State, e: Event)
    requires Shape(s) && LimitsOk(lim, s.pjs) && CountInv(lim, cfg.maxConcurrency, s) && NoStrayPods(s)
    requires Enabled(cfg, s, e) && Harmless(lim, s, e) && ByWorker(e)
    ensures CountInv(lim, cfg.maxConcurrency, Apply(cfg, s, e))
  {
    WorkerStepsAlone(cfg, s, e);
    hide Shape, LimitsOk, NoStrayPods, PendingInv, TriggeredInv, LossOf, MovesOnly, DoTakePending, DoTakeTriggered,
      DoCreatePod,
      DoDeletePod, DoPatchJob, DoCancel, Channel;
    match e
    case TakePending(n, now) => TakePendingKeepsCounts(lim, cfg, s, n, now);
    case TakeTriggered(n, now) => TakeTriggeredKeepsCounts(lim, cfg, s, n, now);
    case CreatePod(n, result, now) => CreatePodCounts(lim, cfg.maxConcurrency, s, n, result, now);
    case DeletePod(n, ok, gone) => DeletePodCounts(lim, cfg.maxConcurrency, s, n, ok, gone);
    case PatchJob(n, reply) => PatchCounts(lim, cfg.maxConcurrency, s, n, reply);
    case _ =>
  }

  lemma TakePendingKeepsCounts(lim: Limits, cfg: Config, s: State, n: Name, now: int)
    requires CountInv(lim, cfg.maxConcurrency, s) && s.round.PendingRound? && At(s, n) && s.work[n].Queued?
    ensures CountInv(lim, cfg.maxConcurrency, DoTakePending(cfg, s, n, now))
  {
    hide PendingInv, PendingDecision;
    TakePendingCounts(lim, cfg, cfg.maxConcurrency, s, n, now);
  }

  lemma TakeTriggeredKeepsCounts(lim: Limits, cfg: Config, s: State, n: Name, now: int)
    requires Shape(s) && NoStrayPods(s) && CountInv(lim, cfg.maxConcurrency, s) && LimitsOk(lim, s.pjs)
    requires s.round.TriggeredRound? && At(s, n) && s.work[n].Queued?
    ensures CountInv(lim, cfg.maxConcurrency, DoTakeTriggered(cfg, s, n, now))
  {
    TriggeredHasNoPod(s, n);
    hide Shape, NoStrayPods, TriggeredInv, Admits, LimitsOk;
    TakeTriggeredCounts(lim, cfg, s, n, now);
  }

  /** A waiting job whose worker has not created its pod has none. */
  lemma TriggeredHasNoPod(s: State, n: Name)
    requires Shape(s) && NoStrayPods(s) && At(s, n) && s.round.TriggeredRound?
    requires (s.work[n].Queued? || s.work[n].Creating?)
    ensures n !in s.pods && n !in s.pm
  {
    WorkersJob(s, n);
  }

  // Counting by the environment and by Sync itself.

  lemma NewJobCounts(lim: Limits, max: int, s: State, job: ProwJob)
    requires CountInv(lim, max, s) && job.name !in s.jobs && job.status.state.Triggered?
    ensures CountInv(lim, max, s.(jobs := s.jobs[job.name := job]))
  {
    var jobs := s.jobs[job.name := job];
    assert InState(jobs, Pending) == InState(s.jobs, Pending);
    if s.round.Idle? {
      WithinSubset(lim, max, s.jobs, jobs, InState(jobs, Pending), InState(jobs, Pending));
    }
  }

  lemma CancelCounts(lim: Limits, max: int, s: State, n: Name, podGone: bool, reply: Reply, now: int)
    requires Shape(s) && CountInv(lim, max, s) && s.round == Deduping(false) && n in s.pjs && n in s.jobs
    ensures CountInv(lim, max, DoCancel(s, n, podGone, reply, now))
  {
    CancelAborts(s, n, now);
    AbortedCounts(lim, max, s.jobs, s.pjs, n, Abort(s.jobs[n], now));
    hide Shape, Patched, Within, InState, Remove, Abort;
  }

  lemma AbortedCounts(lim: Limits, max: int, jobs: map<Name, ProwJob>, pjs: map<Name, ProwJob>, n: Name,
                      aborted: ProwJob)
    requires Within(lim, max, pjs, InState(pjs, Pending)) && InState(jobs, Pending) <= InState(pjs, Pending)
    requires n in jobs && n in pjs && aborted.status.state == Aborted && aborted.spec == pjs[n].spec
    ensures Within(lim, max, pjs[n := aborted], InState(pjs[n := aborted], Pending))
    ensures InState(jobs[n := aborted], Pending) <= InState(pjs[n := aborted], Pending)
    ensures InState(jobs[n := aborted], Pending) <= InState(pjs, Pending)
  {
    InStateAfter(jobs, jobs[n := aborted], n, Pending);
    InStateAfter(pjs, pjs[n := aborted], n, Pending);
    WithinSubset(lim, max, pjs, pjs[n := aborted], InState(pjs[n := aborted], Pending), InState(pjs, Pending));
    hide Within, InState;
  }

  lemma EmptyCounts(pjs: map<Name, ProwJob>)
    ensures CountsOk(map[], {}, pjs)
  {
    assert forall job :: OfJob(pjs, {}, job) == {};
  }

  lemma StartPendingCounts(lim: Limits, max: int, s: State)
    requires CountInv(lim, max, s) && s.round.Deduping?
    ensures PendingInv(lim, max, s.(round := PendingRound, pendingJobs := map[], counted := {},
                                    work := Channel(s.pjs, Pending)))
  {
    assert Channel(s.pjs, Pending).Keys == InState(s.pjs, Pending);
    EmptyCounts(s.pjs);
  }

  lemma StartTriggeredCounts(lim: Limits, max: int, s: State)
    requires PendingInv(lim, max, s) && s.round.PendingRound? && AllDone(s.work) && QueuesOk(s.pjs, s.round, s.work)
    ensures TriggeredInv(lim, max, s.(round := TriggeredRound, work := Channel(s.pjs, Triggered)))
  {
    assert Channel(s.pjs, Triggered).Keys == InState(s.pjs, Triggered);
    WithinSubset(lim, max, s.pjs, s.pjs, s.counted, s.work.Keys);
    forall n | n in InState(s.pjs, Triggered)
      ensures n !in s.counted
    {
      assert n !in InState(s.pjs, Pending);
    }
  }

  lemma PodsDoNotCount(lim: Limits, max: int, s: State, pods: map<Name, Pod>)
    requires CountInv(lim, max, s)
    ensures CountInv(lim, max, s.(pods := pods))
  {}

  lemma ControlKeepsCounts(lim: Limits, cfg: Config, s: State, e: Event)
    requires Shape(s) && SpecsInv(lim, s) && CountInv(lim, cfg.maxConcurrency, s) && Enabled(cfg, s, e) && !ByWorker(e)
    ensures CountInv(lim, cfg.maxConcurrency, Apply(cfg, s, e))
  {
    InvMeansWithin(lim, cfg.maxConcurrency, s);
    hide SnapshotOk, QueuesOk, SpecsInv, PendingInv, TriggeredInv, Within, DoCancel;
    match e
    case NewJob(job) => NewJobCounts(lim, cfg.maxConcurrency, s, job);
    case Cancel(n, _, podGone, reply, now) => CancelCounts(lim, cfg.maxConcurrency, s, n, podGone, reply, now);
    case StartPending => StartPendingCounts(lim, cfg.maxConcurrency, s);
    case StartTriggered => StartTriggeredCounts(lim, cfg.maxConcurrency, s);
    case PodChanges(n, pod) => PodsDoNotCount(lim, cfg.maxConcurrency, s, s.pods[n := pod]);
    case PodDeleted(n) => PodsDoNotCount(lim, cfg.maxConcurrency, s, Remove(s.pods, n));
    case _ =>
  }

  // Specifications do not change.

  lemma WorkerKeepsSpecs(lim: Limits, s: State, s': State, n: Name)
    requires SpecsInv(lim, s) && At(s, n) && MovesOnly(s, s', n)
    ensures SpecsInv(lim, s')
  {}

  lemma CancelKeepsSpecs(lim: Limits, s: State, n: Name, podGone: bool, reply: Reply, now: int)
    requires Shape(s) && SpecsInv(lim, s) && s.round == Deduping(false) && n in s.pjs && n in s.jobs
    ensures SpecsInv(lim, DoCancel(s, n, podGone, reply, now))
  {
    CancelAborts(s, n, now);
    hide Shape, Patched, Remove;
  }

  lemma ControlKeepsSpecs(lim: Limits, cfg: Config, s: State, e: Event)
    requires Shape(s) && SpecsInv(lim, s) && Enabled(cfg, s, e) && Harmless(lim, s, e) && !ByWorker(e)
    ensures SpecsInv(lim, Apply(cfg, s, e))
  {
    hide QueuesOk, LossOf, DoCancel, DoTakePending, DoTakeTriggered, DoCreatePod, DoDeletePod, DoPatchJob, Channel;
    if e.Cancel? {
      hide SnapshotOk, SpecsInv;
      CancelKeepsSpecs(lim, s, e.name, e.podGone, e.reply, e.now);
    }
  }

  // Pods stay where they belong.

  /** One worker's step: what it must not leave behind. */
  lemma WorkerKeepsPods(s: State, s': State, n: Name)
    requires Shape(s) && NoStrayPods(s) && At(s, n) && !s.work[n].Done? && MovesOnly(s, s', n)
    requires s'.pods.Keys <= s.pods.Keys + {n}
    requires n in s'.pods && s'.jobs[n].status.state.Triggered? ==> s.round.TriggeredRound? && s'.work[n].Patching?
    requires n in s'.pods && s.pjs[n].status.state.Triggered? ==> s'.work[n].Patching? || s'.work[n].Done?
    ensures NoStrayPods(s')
  {
    WorkersJob(s, n);
    hide Shape;
  }

  /** The server does not have a job waiting that the snapshot has pending. */
  lemma ServerState(s: State, n: Name)
    requires Shape(s) && At(s, n) && !s.work[n].Done?
    ensures s.jobs[n].status.state == s.pjs[n].status.state || s.jobs[n].status.state == Aborted
    ensures s.pjs[n].status.state.Triggered? <==> s.round.TriggeredRound?
  {
    WorkersJob(s, n);
  }

  lemma TakeKeepsPods(s: State, s': State, n: Name)
    requires Shape(s) && NoStrayPods(s) && At(s, n) && s.work[n].Queued? && MovesOnly(s, s', n)
    requires s'.pods == s.pods && s'.jobs == s.jobs
    ensures NoStrayPods(s')
  {
    ServerState(s, n);
    if s.round.TriggeredRound? {
      TriggeredHasNoPod(s, n);
    }
    hide Shape, NoStrayPods;
    WorkerKeepsPods(s, s', n);
  }

  lemma CreatePodKeepsPods(s: State, n: Name, result: Creation, now: int)
    requires Shape(s) && NoStrayPods(s) && At(s, n) && s.work[n].Creating? && LossOf(s, CreatePod(n, result, now)).None?
    ensures NoStrayPods(DoCreatePod(s, n, result, now))
  {
    var s' := DoCreatePod(s, n, result, now);
    CallsAlone(s, n, result, now, true, true);
    ServerState(s, n);
    if s.round.TriggeredRound? {
      TriggeredHasNoPod(s, n);
    }
    assert s'.jobs == s.jobs && s'.pods.Keys <= s.pods.Keys + {n};
    hide Shape, NoStrayPods, MovesOnly, MadePending, Restarted, Finished;
    WorkerKeepsPods(s, s', n);
  }

  lemma DeletePodKeepsPods(lim: Limits, max: int, s: State, n: Name, ok: bool, gone: bool)
    requires Shape(s) && NoStrayPods(s) && CountInv(lim, max, s) && At(s, n) && s.work[n].Deleting?
    ensures NoStrayPods(DoDeletePod(s, n, ok, gone))
  {
    if s.round.TriggeredRound? {
      NothingToDelete(lim, max, s, n);
    }
    var s' := DoDeletePod(s, n, ok, gone);
    CallsAlone(s, n, Failed, 0, ok, gone);
    ServerState(s, n);
    assert s'.jobs == s.jobs && s'.pods.Keys <= s.pods.Keys + {n};
    hide Shape, NoStrayPods, CountInv, MovesOnly, DoDeletePod;
    WorkerKeepsPods(s, s', n);
  }

  lemma PatchKeepsPods(lim: Limits, max: int, s: State, n: Name, reply: Reply)
    requires Shape(s) && NoStrayPods(s) && CountInv(lim, max, s) && At(s, n) && s.work[n].Patching?
    requires LossOf(s, PatchJob(n, reply)).None?
    ensures NoStrayPods(DoPatchJob(s, n, reply))
  {
    var s' := DoPatchJob(s, n, reply);
    PatchesAlone(s, n, reply);
    PatchedState(s, n, reply);
    ServerState(s, n);
    NextIsNotTriggered(lim, max, s, n);
    assert s'.pods == s.pods && s'.work[n].Done?;
    hide Shape, NoStrayPods, CountInv, MovesOnly, DoPatchJob;
    WorkerKeepsPods(s, s', n);
  }

  lemma NextIsNotTriggered(lim: Limits, max: int, s: State, n: Name)
    requires CountInv(lim, max, s) && At(s, n) && s.work[n].Patching?
    ensures !s.work[n].next.status.state.Triggered?
  {
    if s.round.TriggeredRound? {
      assert TriggeredStageOk(s.work[n], n in s.counted);
    } else {
      assert PendingStageOk(s.work[n], n in s.counted, n in InState(s.jobs, Pending));
    }
  }

  lemma WorkerKeepsNoStray(lim: Limits, cfg: Config, s: State, e: Event)
    requires SafeInv(lim, cfg.maxConcurrency, s) && Enabled(cfg, s, e) && Harmless(lim, s, e) && ByWorker(e)
    ensures NoStrayPods(Apply(cfg, s, e))
  {
    WorkerStepsAlone(cfg, s, e);
    hide Shape, NoStrayPods, SpecsInv, CountInv, MovesOnly, LossOf, DoTakePending, DoTakeTriggered, DoCreatePod,
      DoDeletePod,
      DoPatchJob, DoCancel, Channel;
    match e
    case TakePending(n, now) =>
      TakePendingPods(cfg, s, n, now);
      TakeKeepsPods(s, Apply(cfg, s, e), n);
    case TakeTriggered(n, now) =>
      TakeTriggeredPods(cfg, s, n, now);
      TakeKeepsPods(s, Apply(cfg, s, e), n);
    case CreatePod(n, result, now) => CreatePodKeepsPods(s, n, result, now);
    case DeletePod(n, ok, gone) => DeletePodKeepsPods(lim, cfg.maxConcurrency, s, n, ok, gone);
    case PatchJob(n, reply) => PatchKeepsPods(lim, cfg.maxConcurrency, s, n, reply);
    case _ =>
  }

  lemma CancelKeepsPods(s: State, n: Name, podGone: bool, reply: Reply, now: int)
    requires Shape(s) && NoStrayPods(s) && s.round == Deduping(false) && n in s.pjs && n in s.jobs
    ensures NoStrayPods(DoCancel(s, n, podGone, reply, now))
  {
    CancelAborts(s, n, now);
    hide Shape, Patched;
  }

  lemma ControlKeepsPods(lim: Limits, cfg: Config, s: State, e: Event)
    requires Shape(s) && NoStrayPods(s) && Enabled(cfg, s, e) && Harmless(lim, s, e) && !ByWorker(e)
    ensures NoStrayPods(Apply(cfg, s, e))
  {
    hide DoCancel, DoTakePending, DoTakeTriggered, DoCreatePod, DoDeletePod, DoPatchJob, Channel;
    if e.Cancel? {
      hide SnapshotOk, QueuesOk, NoStrayPods;
      CancelKeepsPods(s, e.name, e.podGone, e.reply, e.now);
    } else {
      hide QueuesOk;
    }
  }

  /** Every event that loses nothing that matters keeps the invariant. */
  lemma StepKeepsSafe(lim: Limits, cfg: Config, s: State, e: Event)
    requires SafeInv(lim, cfg.maxConcurrency, s) && Enabled(cfg, s, e) && Harmless(lim, s, e)
    ensures SafeInv(lim, cfg.maxConcurrency, Apply(cfg, s, e))
  {
    StepKeepsShape(cfg, s, e);
    if ByWorker(e) {
      WorkerStepsAlone(cfg, s, e);
      SpecsInRound(lim, s);
      hide Shape, SpecsInv, NoStrayPods, CountInv, Enabled, Apply, Harmless, MovesOnly, LimitsOk;
      WorkerKeepsSpecs(lim, s, Apply(cfg, s, e), e.name);
      WorkerKeepsNoStray(lim, cfg, s, e);
      WorkerKeepsCounts(lim, cfg, s, e);
    } else {
      hide Shape, SpecsInv, NoStrayPods, CountInv, Enabled, Apply, Harmless;
      ControlKeepsSpecs(lim, cfg, s, e);
      ControlKeepsPods(lim, cfg, s, e);
      ControlKeepsCounts(lim, cfg, s, e);
    }
  }

  lemma SpecsInRound(lim: Limits, s: State)
    requires SpecsInv(lim, s)
    ensures Working(s.round) ==> LimitsOk(lim, s.pjs)
  {}

  /** A start within the limits, with no pod for a waiting job. */
  ghost predicate SafeInit(lim: Limits, max: int, s: State) {
    Init(s) && LimitsOk(lim, s.jobs) && Within(lim, max, s.jobs, InState(s.jobs, Pending)) && !HasStray(s)
  }

  lemma SafeInitIsSafe(lim: Limits, max: int, s: State)
    requires SafeInit(lim, max, s)
    ensures SafeInv(lim, max, s)
  {}

  lemma {:induction false} RunKeepsSafe(lim: Limits, cfg: Config, states: seq<State>, events: seq<Event>, k: nat)
    requires Run(cfg, states, events) && SafeInit(lim, cfg.maxConcurrency, states[0]) && k < |states|
    requires forall i :: 0 <= i < |events| ==> Harmless(lim, states[i], events[i])
    ensures SafeInv(lim, cfg.maxConcurrency, states[k])
    decreases k
  {
    hide SafeInv, SafeInit, Enabled, Apply, Harmless;
    if k > 0 {
      RunKeepsSafe(lim, cfg, states, events, k - 1);
      StepKeepsSafe(lim, cfg, states[k - 1], events[k - 1]);
    } else {
      SafeInitIsSafe(lim, cfg.maxConcurrency, states[0]);
    }
  }

  /** In every run without one of the five losses, whatever else fails or gets lost and however workers
      and environment interleave, the pending jobs are within the global limit and within the limit of
      every job name. */
  lemma ConcurrencyLimits(lim: Limits, cfg: Config, states: seq<State>, events: seq<Event>, k: nat)
    requires Run(cfg, states, events) && SafeInit(lim, cfg.maxConcurrency, states[0]) && k < |states|
    requires forall i :: 0 <= i < |events| ==> Harmless(lim, states[i], events[i])
    ensures Within(lim, cfg.maxConcurrency, states[k].jobs, InState(states[k].jobs, Pending))
  {
    hide Run, SafeInit, Harmless;
    RunKeepsSafe(lim, cfg, states, events, k);
    InvMeansWithin(lim, cfg.maxConcurrency, states[k]);
  }
}
