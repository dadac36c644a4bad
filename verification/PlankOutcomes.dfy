/** Why a job changes: in every run each change is the one that the pod listed in the same Sync calls
    for, or the cancellation of a superseded job, or the one patched over the other. */
module PlankOutcomes {
  import opened Text
  import opened ProwJobs
  import opened Plank
  import opened PlankSnapshot

  ghost predicate Since(pod: Pod, timeout: int, next: ProwJob) {
    next.status.completion.Some? && TimedOut(pod, timeout, next.status.completion.value)
  }

  /** The pod found for `pj` in the pod snapshot, or its absence, calls for `next`. */
  ghost predicate Justified(cfg: Config, pj: ProwJob, pod: Option<Pod>, next: ProwJob) {
    && SameIdentity(pj, next)
    && match next.status.state
       case Triggered => false
       case Pending =>
         // started anew, or adopted with the build that is already there
         && next.status.podName == Some(pj.name)
         && (pod.Some? ==> pj.status.state.Triggered? && next.status.buildId == pod.value.buildId)
       case Success => pod.Some? && pod.value.phase.PodSucceeded?
       case Failure => pod.Some? && pod.value.phase.PodFailed? && !pod.value.evicted
       case Aborted => pod.Some? && pod.value.phase.PodRunning? && Since(pod.value, cfg.podRunningTimeout, next)
       case Error =>
         // refused as invalid, evicted, or stuck
         || pod.None?
         || (pod.value.phase.PodFailed? && pod.value.evicted && pj.spec.errorOnEviction)
         || (pod.value.phase.PodPending? && Since(pod.value, cfg.podPendingTimeout, next))
  }

  ghost predicate StageJustified(cfg: Config, pj: ProwJob, pod: Option<Pod>, stage: Stage) {
    match stage
    case Patching(next) => Justified(cfg, pj, pod, next)
    case Deleting(Some(next)) => Justified(cfg, pj, pod, next)
    case Creating => pod.None?
    case _ => true
  }

  ghost predicate WorkJustified(cfg: Config, pjs: map<Name, ProwJob>, pm: map<Name, Pod>, work: map<Name, Stage>) {
    forall n :: n in work && n in pjs ==> StageJustified(cfg, pjs[n], Lookup(pm, n), work[n])
  }

  ghost predicate VerdictInv(cfg: Config, s: State) {
    Working(s.round) ==> WorkJustified(cfg, s.pjs, s.pm, s.work)
  }

  lemma StageOf(cfg: Config, s: State, n: Name)
    requires VerdictInv(cfg, s) && At(s, n)
    ensures StageJustified(cfg, s.pjs[n], Lookup(s.pm, n), s.work[n])
  {}

  lemma TakePendingJustified(cfg: Config, s: State, n: Name, now: int)
    requires At(s, n)
    ensures var work := DoTakePending(cfg, s, n, now).work;
      n in work && StageJustified(cfg, s.pjs[n], Lookup(s.pm, n), work[n])
  {}

  lemma TakeTriggeredJustified(cfg: Config, s: State, n: Name, now: int)
    requires Shape(s) && At(s, n) && s.round.TriggeredRound? && s.work[n].Queued?
    ensures var work := DoTakeTriggered(cfg, s, n, now).work;
      n in work && StageJustified(cfg, s.pjs[n], Lookup(s.pm, n), work[n])
  {
    WorkersJob(s, n);
    hide Shape, Admits;
  }

  lemma CreatePodJustified(cfg: Config, s: State, n: Name, result: Creation, now: int)
    requires Shape(s) && VerdictInv(cfg, s) && At(s, n) && s.work[n].Creating?
    ensures var work := DoCreatePod(s, n, result, now).work;
      n in work && StageJustified(cfg, s.pjs[n], Lookup(s.pm, n), work[n])
  {
    WorkersJob(s, n);
    StageOf(cfg, s, n);
    hide Shape, VerdictInv;
  }

  lemma DeletePodJustified(cfg: Config, s: State, n: Name, ok: bool, gone: bool)
    requires VerdictInv(cfg, s) && At(s, n) && s.work[n].Deleting?
    ensures var work := DoDeletePod(s, n, ok, gone).work;
      n in work && StageJustified(cfg, s.pjs[n], Lookup(s.pm, n), work[n])
  {
    StageOf(cfg, s, n);
    hide VerdictInv, Justified;
  }

  lemma DoneIsJustified(cfg: Config, pj: ProwJob, pod: Option<Pod>)
    ensures StageJustified(cfg, pj, pod, Done)
  {}

  lemma WorkerJustified(cfg: Config, s: State, e: Event)
    requires Shape(s) && VerdictInv(cfg, s) && Enabled(cfg, s, e) && ByWorker(e)
    ensures var work := Apply(cfg, s, e).work;
      e.name in work && StageJustified(cfg, s.pjs[e.name], Lookup(s.pm, e.name), work[e.name])
  {
    hide Shape, VerdictInv, StageJustified, Lookup, Patched, DoTakePending, DoTakeTriggered, DoCreatePod, DoDeletePod,
      DoCancel, Channel;
    match e
    case TakePending(n, now) => TakePendingJustified(cfg, s, n, now);
    case TakeTriggered(n, now) => TakeTriggeredJustified(cfg, s, n, now);
    case CreatePod(n, result, now) => CreatePodJustified(cfg, s, n, result, now);
    case DeletePod(n, ok, gone) => DeletePodJustified(cfg, s, n, ok, gone);
    case PatchJob(n, _) => DoneIsJustified(cfg, s.pjs[n], Lookup(s.pm, n));
    case _ =>
  }

  lemma QueuedIsJustified(cfg: Config, pjs: map<Name, ProwJob>, pm: map<Name, Pod>)
    ensures WorkJustified(cfg, pjs, pm, Channel(pjs, Pending)) && WorkJustified(cfg, pjs, pm, Channel(pjs, Triggered))
  {}

  lemma ControlKeepsVerdicts(cfg: Config, s: State, e: Event)
    requires VerdictInv(cfg, s) && Enabled(cfg, s, e) && !ByWorker(e)
    ensures VerdictInv(cfg, Apply(cfg, s, e))
  {
    hide WorkJustified, Patched, Channel, DoTakePending, DoTakeTriggered, DoCreatePod, DoDeletePod, DoPatchJob;
    QueuedIsJustified(cfg, s.pjs, s.pm);
  }

  lemma WorkerKeepsVerdicts(cfg: Config, s: State, s': State, n: Name)
    requires VerdictInv(cfg, s) && At(s, n) && MovesOnly(s, s', n)
    requires StageJustified(cfg, s.pjs[n], Lookup(s.pm, n), s'.work[n])
    ensures VerdictInv(cfg, s')
  {
    hide StageJustified, Lookup;
  }

  lemma StepKeepsVerdicts(cfg: Config, s: State, e: Event)
    requires Shape(s) && VerdictInv(cfg, s) && Enabled(cfg, s, e)
    ensures VerdictInv(cfg, Apply(cfg, s, e))
  {
    hide Shape, VerdictInv, StageJustified, MovesOnly, Enabled, Apply, Lookup;
    if ByWorker(e) {
      WorkerStepsAlone(cfg, s, e);
      WorkerJustified(cfg, s, e);
      WorkerKeepsVerdicts(cfg, s, Apply(cfg, s, e), e.name);
    } else {
      ControlKeepsVerdicts(cfg, s, e);
    }
  }

  lemma {:induction false} RunKeepsVerdicts(cfg: Config, states: seq<State>, events: seq<Event>, k: nat)
    requires Run(cfg, states, events) && Init(states[0]) && k < |states|
    ensures VerdictInv(cfg, states[k])
    decreases k
  {
    if k > 0 {
      hide VerdictInv, Shape, Apply, Enabled;
      RunKeepsVerdicts(cfg, states, events, k - 1);
      RunKeepsShape(cfg, states, events, k - 1);
      StepKeepsVerdicts(cfg, states[k - 1], events[k - 1]);
    }
  }

  // Changes.

  /** The one job that a patch or a cancellation writes. */
  ghost predicate Writes(e: Event, n: Name) { (e.PatchJob? || e.Cancel?) && !e.reply.Rejected? && e.name == n }

  lemma CancelLeavesOthers(s: State, m: Name, podGone: bool, reply: Reply, now: int, n: Name)
    requires m in s.pjs && m in s.jobs && n in s.jobs && (m != n || reply.Rejected?)
    ensures var jobs := DoCancel(s, m, podGone, reply, now).jobs; n in jobs && jobs[n] == s.jobs[n]
  {
    hide PatchProwJob;
  }

  lemma OtherEventsMoveNothing(cfg: Config, s: State, e: Event, n: Name)
    requires Enabled(cfg, s, e) && n in s.jobs && !Writes(e, n)
    ensures n in Apply(cfg, s, e).jobs && Apply(cfg, s, e).jobs[n] == s.jobs[n]
  {
    if ByWorker(e) {
      OnlyPatchesMove(cfg, s, e);
      hide Apply;
    } else {
      hide DoTakePending, DoTakeTriggered, DoCreatePod, DoDeletePod, DoPatchJob, DoCancel;
      if e.Cancel? {
        CancelLeavesOthers(s, e.name, e.podGone, e.reply, e.now, n);
      }
    }
  }

  /** A verdict recorded from an up-to-date copy, or over an unnoticed cancellation. */
  ghost predicate Recorded(cfg: Config, s: State, n: Name, next: ProwJob)
    requires At(s, n) && s.work[n].Patching?
  {
    var verdict := s.work[n].next;
    && Justified(cfg, s.pjs[n], Lookup(s.pm, n), verdict)
    && next == (if n in s.stale then PatchProwJob(s.pjs[n], verdict, s.jobs[n]) else verdict)
    && (n in s.stale ==> s.jobs[n].Complete() && s.jobs[n] == Abort(s.pjs[n], s.jobs[n].status.completion.value))
  }

  lemma PatchRecordsVerdict(cfg: Config, s: State, n: Name, reply: Reply)
    requires Shape(s) && VerdictInv(cfg, s) && At(s, n) && s.work[n].Patching? && !reply.Rejected?
    ensures var jobs := DoPatchJob(s, n, reply).jobs; n in jobs && Recorded(cfg, s, n, jobs[n])
  {
    WorkersJob(s, n);
    StageOf(cfg, s, n);
    if n !in s.stale {
      PatchFromSnapshot(s, n, s.work[n].next);
    }
    hide Shape, VerdictInv, PatchProwJob;
  }

  /** A rival in the snapshot that was not started before `n`. */
  ghost predicate SupersededBy(s: State, n: Name, rival: Name) {
    && n in s.pjs && rival in s.pjs && rival != n
    && Aborter.Rivals(Aborter.CandidateOf(s.pjs[n]), Aborter.CandidateOf(s.pjs[rival]))
    && s.pjs[n].status.start <= s.pjs[rival].status.start
  }

  ghost predicate Cancelled(s: State, e: Event, n: Name, next: ProwJob) {
    && e.Cancel? && e.name == n && n in s.jobs && SupersededBy(s, n, e.rival) && next == Abort(s.jobs[n], e.now)
  }

  lemma CancelIsCancelled(cfg: Config, s: State, e: Event, n: Name)
    requires Shape(s) && Enabled(cfg, s, e) && e.Cancel? && e.name == n && !e.reply.Rejected?
    ensures n in Apply(cfg, s, e).jobs && Cancelled(s, e, n, Apply(cfg, s, e).jobs[n])
  {
    CancelAborts(s, n, e.now);
    hide Shape, Patched, Abort;
  }

  /** In every run, whatever fails or gets lost, whenever a job changes: either it is aborted because a
      rival superseded it, or its worker records what the pod in this Sync's listing calls for. */
  lemma EveryChangeIsJustified(cfg: Config, states: seq<State>, events: seq<Event>, k: nat, n: Name)
    requires Run(cfg, states, events) && Init(states[0]) && k < |events|
    requires n in states[k].jobs && n in states[k + 1].jobs && states[k + 1].jobs[n] != states[k].jobs[n]
    ensures var s, e, next := states[k], events[k], states[k + 1].jobs[n];
      || Cancelled(s, e, n, next)
      || (e.PatchJob? && e.name == n && At(s, n) && s.work[n].Patching? && Recorded(cfg, s, n, next))
  {
    var s, e := states[k], events[k];
    RunKeepsShape(cfg, states, events, k);
    RunKeepsVerdicts(cfg, states, events, k);
    hide Shape, VerdictInv, Recorded, Cancelled, DoPatchJob;
    if !Writes(e, n) {
      OtherEventsMoveNothing(cfg, s, e, n);
    } else if e.PatchJob? {
      PatchRecordsVerdict(cfg, s, n, e.reply);
    } else {
      hide Apply;
      CancelIsCancelled(cfg, s, e, n);
    }
  }

  // Timeouts.

  /** A worker is about to record the timeout of a pod that was listed as pending or running. */
  ghost predicate TimingOut(s: State, n: Name) {
    && s.round.PendingRound? && At(s, n) && s.work[n].Patching?
    && n in s.pm && (s.pm[n].phase.PodPending? || s.pm[n].phase.PodRunning?)
  }

  lemma TakeDoesNotTimeOut(cfg: Config, s: State, n: Name, now: int)
    requires At(s, n) && s.round.PendingRound?
    ensures !TimingOut(DoTakePending(cfg, s, n, now), n)
  {}

  lemma CreationDoesNotTimeOut(cfg: Config, s: State, n: Name, result: Creation, now: int)
    requires VerdictInv(cfg, s) && At(s, n) && s.work[n].Creating?
    ensures !TimingOut(DoCreatePod(s, n, result, now), n)
  {
    StageOf(cfg, s, n);
    hide VerdictInv, AfterCreation;
  }

  lemma DeletionTimesOut(s: State, n: Name, ok: bool, gone: bool)
    requires At(s, n) && s.work[n].Deleting? && TimingOut(DoDeletePod(s, n, ok, gone), n)
    ensures ok
  {}

  /** The worker itself gets there only by deleting the pod. */
  lemma WorkerTimesOut(cfg: Config, s: State, e: Event)
    requires VerdictInv(cfg, s) && Enabled(cfg, s, e) && ByWorker(e) && TimingOut(Apply(cfg, s, e), e.name)
    ensures e.DeletePod? && e.ok
  {
    WorkerStepsAlone(cfg, s, e);
    hide VerdictInv, DoTakePending, DoTakeTriggered, DoCreatePod, DoDeletePod, DoCancel, Channel, Patched;
    match e
    case TakePending(n, now) => TakeDoesNotTimeOut(cfg, s, n, now);
    case CreatePod(n, result, now) => CreationDoesNotTimeOut(cfg, s, n, result, now);
    case DeletePod(n, ok, gone) => DeletionTimesOut(s, n, ok, gone);
    case _ =>
  }

  lemma ControlDoesNotTimeOut(cfg: Config, s: State, e: Event, n: Name)
    requires Shape(s) && Enabled(cfg, s, e) && !ByWorker(e) && TimingOut(Apply(cfg, s, e), n)
    ensures TimingOut(s, n)
  {
    hide QueuesOk, Patched, DoTakePending, DoTakeTriggered, DoCreatePod, DoDeletePod, DoPatchJob;
  }

  lemma TimingOutByDeletion(cfg: Config, s: State, e: Event, n: Name)
    requires Shape(s) && VerdictInv(cfg, s) && Enabled(cfg, s, e) && TimingOut(Apply(cfg, s, e), n)
    ensures TimingOut(s, n) || (e.DeletePod? && e.name == n && e.ok)
  {
    hide Shape, VerdictInv, Enabled, Apply;
    if ByWorker(e) {
      WorkerStepsAlone(cfg, s, e);
      if e.name == n {
        WorkerTimesOut(cfg, s, e);
      }
    } else {
      ControlDoesNotTimeOut(cfg, s, e, n);
    }
  }

  lemma RunTimesOut(cfg: Config, states: seq<State>, events: seq<Event>, k: nat, n: Name)
    requires Run(cfg, states, events) && Init(states[0]) && k < |states| && TimingOut(states[k], n)
    ensures 0 < k <= |events|
    ensures (TimingOut(states[k - 1], n) || (events[k - 1].DeletePod? && events[k - 1].name == n && events[k - 1].ok))
  {
    RunKeepsShape(cfg, states, events, k - 1);
    RunKeepsVerdicts(cfg, states, events, k - 1);
    hide Shape, VerdictInv, Enabled, Apply, TimingOut;
    TimingOutByDeletion(cfg, states[k - 1], events[k - 1], n);
  }

  /** A timeout is recorded only after the pod was successfully deleted, by the same worker: from the
      deletion on the worker has nothing else to do. */
  lemma {:induction false} TimeoutFollowsDeletion(cfg: Config, states: seq<State>, events: seq<Event>, k: nat, n: Name)
    returns (j: nat)
    requires Run(cfg, states, events) && Init(states[0]) && k < |states| && TimingOut(states[k], n)
    ensures j < k && events[j].DeletePod? && events[j].name == n && events[j].ok
    ensures forall i :: j < i <= k ==> TimingOut(states[i], n)
    decreases k
  {
    hide Run, Init, TimingOut;
    RunTimesOut(cfg, states, events, k, n);
    if TimingOut(states[k - 1], n) {
      j := TimeoutFollowsDeletion(cfg, states, events, k - 1, n);
    } else {
      j := k - 1;
    }
  }
}
