/** plank/controller.go as a transition system.

    The state holds what the API server knows (ProwJobs and pods), what the controller remembers
    between the steps of one Sync (the job snapshot `pjs`, the pod snapshot `pm`, the `pendingJobs`
    counters) and where each worker is. An event is one atomic step: a step of the environment, one
    API call of the controller, or one critical section under the controller's lock. Workers are
    goroutines, so their steps interleave with each other's and with the environment's in any order. */
module Plank {
  import opened Text
  import opened ProwJobs
  import Aborter

  datatype Phase = PodPending | PodRunning | PodSucceeded | PodFailed | PodUnknown | PodOther

  datatype Pod = Pod(phase: Phase, evicted: bool, start: Option<int>, buildId: string)

  datatype Config = Config(
    maxConcurrency: int, podPendingTimeout: int, podRunningTimeout: int, allowCancellations: bool)

  /** Where Sync is: between two Syncs, after listing the jobs, after listing the pods (superseded
      jobs are aborted here, until a patch returns an error), and in one of the two rounds of workers. */
  datatype Round = Idle | Listed | Deduping(ended: bool) | PendingRound | TriggeredRound

  /** What a worker does next for one job. */
  datatype Stage =
    | Queued                            // still in the channel
    | Creating                          // about to create the pod
    | Deleting(andThen: Option<ProwJob>) // about to delete the pod, then to patch the job if told so
    | Patching(next: ProwJob)           // about to patch the job
    | Done

  datatype State = State(
    jobs: map<Name, ProwJob>, pods: map<Name, Pod>,
    round: Round, pjs: map<Name, ProwJob>, pm: map<Name, Pod>,
    pendingJobs: map<string, int>, work: map<Name, Stage>,
    // history of this Sync: the jobs counted in pendingJobs, and those whose cancellation took effect
    // without the controller noticing
    counted: set<Name>, stale: set<Name>)

  /** Result of a pod creation: `CreatedUnnoticed` is a created pod whose reply was lost. */
  datatype Creation = Created(buildId: string) | CreatedUnnoticed(pod: string) | Invalid | Failed

  /** Result of a patch: `Unnoticed` is a patch that took effect and whose reply was lost. */
  datatype Reply = Applied | Unnoticed | Rejected

  datatype Event =
    // environment
    | NewJob(job: ProwJob)
    | PodChanges(name: Name, pod: Pod)
    | PodDeleted(name: Name)
    // Sync
    | ListJobs
    | ListPods(missing: set<Name>)  // pods in clusters whose listing failed
    | Cancel(name: Name, rival: Name, podGone: bool, reply: Reply, now: int)
    | StartPending
    | StartTriggered
    | FinishSync
    | Crash
    // workers
    | TakePending(name: Name, now: int)
    | TakeTriggered(name: Name, now: int)
    | CreatePod(name: Name, result: Creation, now: int)
    | DeletePod(name: Name, ok: bool, gone: bool)
    | PatchJob(name: Name, reply: Reply)

  // The admission check, under the controller's lock.

  function Num(pendingJobs: map<string, int>, job: string): int {
    if job in pendingJobs then pendingJobs[job] else 0
  }

  function Increment(pendingJobs: map<string, int>, job: string): map<string, int> {
    pendingJobs[job := Num(pendingJobs, job) + 1]
  }

  ghost function Sum(m: map<string, int>): int {
    if m == map[] then 0 else var k :| k in m; m[k] + Sum(m - {k})
  }

  lemma {:induction false} SumRemove(m: map<string, int>, k: string)
    requires k in m
    ensures Sum(m) == m[k] + Sum(m - {k})
  {
    var p :| p in m && Sum(m) == m[p] + Sum(m - {p});
    if p != k {
      SumRemove(m - {p}, k);
      SumRemove(m - {k}, p);
      assert m - {p} - {k} == m - {k} - {p};
    }
  }

  lemma SumIncrement(m: map<string, int>, job: string)
    ensures Sum(Increment(m, job)) == Sum(m) + 1
  {
    var m' := Increment(m, job);
    SumRemove(m', job);
    if job in m {
      SumRemove(m, job);
      assert m' - {job} == m - {job};
    } else {
      assert m' - {job} == m;
    }
  }

  /** The waiting jobs of the same name that were created before `pj`, in the snapshot. */
  ghost function Older(pjs: map<Name, ProwJob>, pj: ProwJob): set<Name> {
    set n | n in pjs && pjs[n].status.state.Triggered? && pjs[n].spec.job == pj.spec.job
            && pjs[n].creation < pj.creation
  }

  ghost predicate Admits(max: int, pendingJobs: map<string, int>, pjs: map<Name, ProwJob>, pj: ProwJob) {
    && (max > 0 ==> Sum(pendingJobs) < max)
    && (pj.spec.maxConcurrency != 0 ==>
          Num(pendingJobs, pj.spec.job) + |Older(pjs, pj)| < pj.spec.maxConcurrency)
  }

  // Worker decisions.

  datatype Decision = Decision(counts: bool, stage: Stage)

  predicate TimedOut(pod: Pod, timeout: int, now: int) {
    pod.start.Some? && now - pod.start.value >= timeout
  }

  /** First half of syncPendingJob: what to do about the pod found (or not) in the pod snapshot. */
  function PendingDecision(cfg: Config, pj: ProwJob, pod: Option<Pod>, now: int): Decision {
    match pod
    case None => Decision(true, Creating)
    case Some(p) =>
      match p.phase
      case PodUnknown => Decision(true, Deleting(None))
      case PodSucceeded => Decision(false, Patching(Finished(pj, Success, now)))
      case PodFailed =>
        if !p.evicted then Decision(false, Patching(Finished(pj, Failure, now)))
        else if pj.spec.errorOnEviction then Decision(false, Patching(Finished(pj, Error, now)))
        else Decision(true, Deleting(None))
      case PodPending =>
        if !TimedOut(p, cfg.podPendingTimeout, now) then Decision(true, Done)
        else Decision(false, Deleting(Some(Finished(pj, Error, now))))
      case PodRunning =>
        if !TimedOut(p, cfg.podRunningTimeout, now) then Decision(true, Done)
        else Decision(false, Deleting(Some(Finished(pj, Aborted, now))))
      case PodOther => Decision(true, Done)
  }

  /** Last half of syncTriggeredJob: the job becomes pending. */
  function MadePending(pj: ProwJob, buildId: string, now: int): ProwJob {
    pj.(status := pj.status.(state := Pending, pendingTime := Some(now), buildId := buildId, podName := Some(pj.name)))
  }

  function Restarted(pj: ProwJob, buildId: string): ProwJob {
    pj.(status := pj.status.(buildId := buildId, podName := Some(pj.name)))
  }

  /** What follows the reply to a pod creation. */
  function AfterCreation(pj: ProwJob, result: Creation, now: int): Stage {
    match result
    case Created(id) =>
      Patching(if pj.status.state.Triggered? then MadePending(pj, id, now) else Restarted(pj, id))
    case Invalid => Patching(Finished(pj, Error, now))
    case CreatedUnnoticed(_) => Done
    case Failed => Done
  }

  function Lookup<K, V>(m: map<K, V>, k: K): Option<V> { if k in m then Some(m[k]) else None }

  function Remove<K, V>(m: map<K, V>, k: K): map<K, V> { m - {k} }

  ghost function InState(pjs: map<Name, ProwJob>, state: JobState): set<Name> {
    set n | n in pjs && pjs[n].status.state == state
  }

  /** PartitionActive puts the jobs in one state into a channel. */
  ghost function Channel(pjs: map<Name, ProwJob>, state: JobState): map<Name, Stage> {
    map n | n in InState(pjs, state) :: Queued
  }

  predicate Working(round: Round) { round.PendingRound? || round.TriggeredRound? }

  predicate AllDone(work: map<Name, Stage>) { forall n :: n in work ==> work[n].Done? }

  /** A worker has job `n`. (Every job with work is in the snapshot and on the server.) */
  predicate At(s: State, n: Name) {
    Working(s.round) && n in s.work && n in s.pjs && n in s.jobs
  }

  // Transitions.

  ghost predicate Enabled(cfg: Config, s: State, e: Event) {
    match e
    case NewJob(job) => job.name !in s.jobs && job.name !in s.pods
                        && job.status.state == Triggered && job.status.completion.None?
    case PodChanges(n, _) => n in s.pods
    case PodDeleted(n) => n in s.pods
    case ListJobs => s.round.Idle?
    case ListPods(_) => s.round.Listed?
    case Cancel(n, rival, podGone, _, _) =>
      s.round == Deduping(false) && n in s.pjs && n in s.jobs && rival in s.pjs && rival != n
      && Aborter.Rivals(Aborter.CandidateOf(s.pjs[n]), Aborter.CandidateOf(s.pjs[rival]))
      && s.pjs[n].status.start <= s.pjs[rival].status.start
      && (podGone ==> cfg.allowCancellations && n in s.pm)
    case StartPending => s.round.Deduping?
    case StartTriggered => s.round.PendingRound? && AllDone(s.work)
    case FinishSync => s.round.TriggeredRound? && AllDone(s.work)
    case Crash => true
    case TakePending(n, _) => s.round.PendingRound? && At(s, n) && s.work[n].Queued?
    case TakeTriggered(n, _) => s.round.TriggeredRound? && At(s, n) && s.work[n].Queued?
    case CreatePod(n, _, _) => At(s, n) && s.work[n].Creating?
    case DeletePod(n, _, _) => At(s, n) && s.work[n].Deleting?
    case PatchJob(n, _) => At(s, n) && s.work[n].Patching?
  }

  ghost function Count(s: State, n: Name): State
    requires n in s.pjs
  {
    s.(pendingJobs := Increment(s.pendingJobs, s.pjs[n].spec.job), counted := s.counted + {n})
  }

  /** The API server's copy of `n` after a patch from the snapshot's copy to `next`. */
  function Patched(s: State, n: Name, next: ProwJob): map<Name, ProwJob>
    requires n in s.jobs && n in s.pjs
  {
    s.jobs[n := PatchProwJob(s.pjs[n], next, s.jobs[n])]
  }

  /** A patch that returns an error ends the pass, and the snapshot keeps the old copy. */
  ghost function DoCancel(s: State, n: Name, podGone: bool, reply: Reply, now: int): State
    requires n in s.pjs && n in s.jobs
  {
    var s1 := if podGone then s.(pods := Remove(s.pods, n)) else s;
    var jobs := Patched(s, n, Abort(s.pjs[n], now));
    match reply
    case Applied => s1.(jobs := jobs, pjs := s.pjs[n := jobs[n]])
    case Unnoticed => s1.(jobs := jobs, stale := s.stale + {n}, round := Deduping(true))
    case Rejected => s1.(round := Deduping(true))
  }

  ghost function DoTakePending(cfg: Config, s: State, n: Name, now: int): State
    requires n in s.pjs
  {
    var d := PendingDecision(cfg, s.pjs[n], Lookup(s.pm, n), now);
    var s1 := if d.counts then Count(s, n) else s;
    s1.(work := s.work[n := d.stage])
  }

  /** First half of syncTriggeredJob: a pod left by an earlier Sync whose patch was lost is adopted;
      otherwise the job must be admitted. */
  ghost function DoTakeTriggered(cfg: Config, s: State, n: Name, now: int): State
    requires n in s.pjs
  {
    var pj := s.pjs[n];
    if n in s.pm then s.(work := s.work[n := Patching(MadePending(pj, s.pm[n].buildId, now))])
    else if Admits(cfg.maxConcurrency, s.pendingJobs, s.pjs, pj) then
      Count(s, n).(work := s.work[n := Creating])
    else s.(work := s.work[n := Done])
  }

  function DoCreatePod(s: State, n: Name, result: Creation, now: int): State
    requires n in s.pjs
  {
    var pods := match result
      case Created(id) => s.pods[n := Pod(PodPending, false, None, id)]
      case CreatedUnnoticed(id) => s.pods[n := Pod(PodPending, false, None, id)]
      case _ => s.pods;
    s.(pods := pods, work := s.work[n := AfterCreation(s.pjs[n], result, now)])
  }

  function DoDeletePod(s: State, n: Name, ok: bool, gone: bool): State
    requires n in s.work && s.work[n].Deleting?
  {
    var next := if ok && s.work[n].andThen.Some? then Patching(s.work[n].andThen.value) else Done;
    s.(pods := if gone then Remove(s.pods, n) else s.pods, work := s.work[n := next])
  }

  function DoPatchJob(s: State, n: Name, reply: Reply): State
    requires n in s.work && s.work[n].Patching? && n in s.jobs && n in s.pjs
  {
    s.(jobs := if reply.Rejected? then s.jobs else Patched(s, n, s.work[n].next), work := s.work[n := Done])
  }

  ghost function Apply(cfg: Config, s: State, e: Event): State
    requires Enabled(cfg, s, e)
  {
    match e
    case NewJob(job) => s.(jobs := s.jobs[job.name := job])
    case PodChanges(n, pod) => s.(pods := s.pods[n := pod])
    case PodDeleted(n) => s.(pods := Remove(s.pods, n))
    case ListJobs => s.(round := Listed, pjs := s.jobs, work := map[], stale := {})
    case ListPods(missing) => s.(round := Deduping(false), pm := s.pods - missing)
    case Cancel(n, _, podGone, reply, now) => DoCancel(s, n, podGone, reply, now)
    case StartPending =>
      s.(round := PendingRound, pendingJobs := map[], counted := {}, work := Channel(s.pjs, Pending))
    case StartTriggered => s.(round := TriggeredRound, work := Channel(s.pjs, Triggered))
    case FinishSync => s.(round := Idle)
    case Crash => s.(round := Idle)
    case TakePending(n, now) => DoTakePending(cfg, s, n, now)
    case TakeTriggered(n, now) => DoTakeTriggered(cfg, s, n, now)
    case CreatePod(n, result, now) => DoCreatePod(s, n, result, now)
    case DeletePod(n, ok, gone) => DoDeletePod(s, n, ok, gone)
    case PatchJob(n, reply) => DoPatchJob(s, n, reply)
  }

  /** A run: `states[i + 1]` follows from `states[i]` by `events[i]`. */
  ghost predicate Run(cfg: Config, states: seq<State>, events: seq<Event>) {
    && |states| == |events| + 1
    && forall i :: 0 <= i < |events| ==>
         Enabled(cfg, states[i], events[i]) && states[i + 1] == Apply(cfg, states[i], events[i])
  }
}
