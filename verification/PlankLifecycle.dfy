/** The life cycle of a ProwJob. Over all runs, one thing breaks it: a worker records a verdict over a
    cancellation that took effect in the same Sync without the controller noticing. */
module PlankLifecycle {
  import opened Text
  import opened ProwJobs
  import opened Plank
  import opened PlankSnapshot

  predicate Move(a: JobState, b: JobState) {
    || a == b
    || (a == Triggered && (b == Pending || b == Error || b == Aborted))
    || (a == Pending && (b == Success || b == Failure || b == Error || b == Aborted))
  }

  ghost predicate Consistent(pj: ProwJob) { Terminal(pj.status.state) <==> pj.Complete() }

  /** One legal step in the life of a job. */
  ghost predicate Legal(a: ProwJob, b: ProwJob) {
    && SameIdentity(a, b) && Consistent(b) && Move(a.status.state, b.status.state)
    && (a.status.state == b.status.state ==> a.status.completion == b.status.completion)
  }

  ghost predicate StageOk(pj: ProwJob, stage: Stage) {
    match stage
    case Patching(next) => Legal(pj, next)
    case Deleting(Some(next)) => Legal(pj, next)
    case _ => true
  }

  /** What is known of one job: it and the snapshot's copy are consistent, and its worker is heading for
      a legal move from that copy. */
  ghost predicate JobInv(s: State, n: Name) {
    && (n in s.jobs ==> Consistent(s.jobs[n]))
    && (!s.round.Idle? && n in s.pjs ==> Consistent(s.pjs[n]))
    && (Working(s.round) && n in s.work && n in s.pjs ==> StageOk(s.pjs[n], s.work[n]))
  }

  /** A patch takes effect that records a new state over an unnoticed cancellation. (Recording Aborted
      with the very completion time of the cancellation would record nothing new.) */
  ghost predicate Overwrites(s: State, e: Event, n: Name) {
    && e.PatchJob? && e.name == n && !e.reply.Rejected? && n in s.stale && At(s, n) && s.work[n].Patching?
    && var next := s.work[n].next.status;
       && next.state != s.pjs[n].status.state
       && !(next.state == Aborted && next.completion == s.jobs[n].status.completion)
  }

  /** The job stays as it is or makes one legal step. */
  ghost predicate Evolves(s: State, s': State, n: Name) {
    n in s.jobs ==> n in s'.jobs && Legal(s.jobs[n], s'.jobs[n])
  }

  lemma Stays(s: State, s': State, n: Name)
    requires JobInv(s, n) && (n in s.jobs ==> n in s'.jobs && s'.jobs[n] == s.jobs[n])
    ensures Evolves(s, s', n)
  {}

  // What workers decide.

  lemma PendingDecisionOk(cfg: Config, pj: ProwJob, pod: Option<Pod>, now: int)
    requires Consistent(pj) && pj.status.state == Pending
    ensures StageOk(pj, PendingDecision(cfg, pj, pod, now).stage)
  {}

  lemma MadePendingOk(pj: ProwJob, buildId: string, now: int)
    requires Consistent(pj) && pj.status.state == Triggered
    ensures Legal(pj, MadePending(pj, buildId, now))
  {}

  lemma AfterCreationOk(pj: ProwJob, result: Creation, now: int)
    requires Consistent(pj) && (pj.status.state == Triggered || pj.status.state == Pending)
    ensures StageOk(pj, AfterCreation(pj, result, now))
  {}

  lemma TakeStageOk(cfg: Config, s: State, n: Name, now: int)
    requires Shape(s) && JobInv(s, n) && At(s, n) && s.work[n].Queued?
    ensures s.round.PendingRound? ==>
      var work := DoTakePending(cfg, s, n, now).work; n in work && StageOk(s.pjs[n], work[n])
    ensures s.round.TriggeredRound? ==>
      var work := DoTakeTriggered(cfg, s, n, now).work; n in work && StageOk(s.pjs[n], work[n])
  {
    WorkersJob(s, n);
    if s.round.PendingRound? {
      PendingDecisionOk(cfg, s.pjs[n], Lookup(s.pm, n), now);
    } else if n in s.pm {
      MadePendingOk(s.pjs[n], s.pm[n].buildId, now);
    }
    hide Shape, PendingDecision, MadePending, Admits, Legal, Consistent, Lookup;
  }

  lemma CreatedStageOk(s: State, n: Name, result: Creation, now: int)
    requires Shape(s) && JobInv(s, n) && At(s, n) && s.work[n].Creating?
    ensures var work := DoCreatePod(s, n, result, now).work; n in work && StageOk(s.pjs[n], work[n])
  {
    WorkersJob(s, n);
    AfterCreationOk(s.pjs[n], result, now);
    hide Shape, AfterCreation, StageOk;
  }

  lemma DeletedStageOk(s: State, n: Name, ok: bool, gone: bool)
    requires JobInv(s, n) && At(s, n) && s.work[n].Deleting?
    ensures var work := DoDeletePod(s, n, ok, gone).work; n in work && StageOk(s.pjs[n], work[n])
  {
    hide Legal, Consistent;
  }

  /** Every step of a worker heads for a legal move from the snapshot. */
  lemma WorkerStageOk(cfg: Config, s: State, e: Event)
    requires Shape(s) && Enabled(cfg, s, e) && ByWorker(e) && JobInv(s, e.name)
    ensures e.name in Apply(cfg, s, e).work && StageOk(s.pjs[e.name], Apply(cfg, s, e).work[e.name])
  {
    hide Shape, JobInv, StageOk, MovesOnly, DoTakePending, DoTakeTriggered, DoCreatePod, DoDeletePod, DoCancel,
      Channel, Patched;
    match e
    case TakePending(n, now) => TakeStageOk(cfg, s, n, now);
    case TakeTriggered(n, now) => TakeStageOk(cfg, s, n, now);
    case CreatePod(n, result, now) => CreatedStageOk(s, n, result, now);
    case DeletePod(n, ok, gone) => DeletedStageOk(s, n, ok, gone);
    case PatchJob(n, _) => DoneIsOk(s.pjs[n]);
    case _ =>
  }

  lemma DoneIsOk(pj: ProwJob)
    ensures StageOk(pj, Done)
  {}

  // Patches.

  /** A patch over an unnoticed cancellation is legal exactly when it records no new state, or records
      the same abortion again. */
  lemma StalePatchExactly(job: ProwJob, pj: ProwJob, next: ProwJob)
    requires Agrees(job, pj, true) && Consistent(pj) && Legal(pj, next)
    ensures Legal(job, PatchProwJob(pj, next, job)) <==>
      (next.status.state == pj.status.state
       || (next.status.state == Aborted && next.status.completion == job.status.completion))
  {
    hide MergeMap;
  }

  /** A worker's patch moves its job legally if and only if it does not overwrite a cancellation. */
  lemma PatchLegalExactly(s: State, n: Name, reply: Reply)
    requires Shape(s) && JobInv(s, n) && At(s, n) && s.work[n].Patching?
    ensures Evolves(s, DoPatchJob(s, n, reply), n) <==> !Overwrites(s, PatchJob(n, reply), n)
  {
    var next := s.work[n].next;
    WorkersJob(s, n);
    if reply.Rejected? {
      Stays(s, DoPatchJob(s, n, reply), n);
    } else if n in s.stale {
      StalePatchExactly(s.jobs[n], s.pjs[n], next);
    } else {
      PatchFromSnapshot(s, n, next);
    }
    hide Shape, PatchProwJob, Agrees;
  }

  lemma CancelIsLegal(s: State, n: Name, podGone: bool, reply: Reply, now: int)
    requires Shape(s) && JobInv(s, n) && s.round == Deduping(false) && n in s.pjs && n in s.jobs && !s.pjs[n].Complete()
    ensures var s' := DoCancel(s, n, podGone, reply, now); JobInv(s', n) && Evolves(s, s', n)
  {
    CancelAborts(s, n, now);
    hide Shape, Patched, Remove;
  }

  // One step.

  lemma WorkerEvolves(cfg: Config, s: State, e: Event, n: Name)
    requires Shape(s) && JobInv(s, n) && Enabled(cfg, s, e) && ByWorker(e)
    ensures Evolves(s, Apply(cfg, s, e), n) <==> !Overwrites(s, e, n)
  {
    WorkerStepsAlone(cfg, s, e);
    OnlyPatchesMove(cfg, s, e);
    hide Shape, JobInv, Evolves, DoPatchJob;
    if e.PatchJob? && e.name == n {
      PatchLegalExactly(s, n, e.reply);
    } else {
      Stays(s, Apply(cfg, s, e), n);
    }
  }

  lemma WorkerKeepsJobInv(s: State, s': State, m: Name, n: Name)
    requires Shape(s) && JobInv(s, n) && At(s, m) && MovesOnly(s, s', m) && Evolves(s, s', n)
    requires m == n ==> StageOk(s.pjs[n], s'.work[n])
    ensures JobInv(s', n)
  {
    hide Legal, Shape, Evolves;
    LegalIsConsistent(s, s', n);
  }

  lemma LegalIsConsistent(s: State, s': State, n: Name)
    requires Evolves(s, s', n)
    ensures n in s.jobs ==> n in s'.jobs && Consistent(s'.jobs[n])
  {}

  lemma ControlEvolves(cfg: Config, s: State, e: Event, n: Name)
    requires Shape(s) && JobInv(s, n) && Enabled(cfg, s, e) && !ByWorker(e)
    ensures Evolves(s, Apply(cfg, s, e), n) && JobInv(Apply(cfg, s, e), n)
  {
    hide DoCancel, DoTakePending, DoTakeTriggered, DoCreatePod, DoDeletePod, DoPatchJob;
    if e.Cancel? {
      if e.name == n {
        CancelIsLegal(s, n, e.podGone, e.reply, e.now);
      } else {
        CancelLeavesOthers(s, e.name, e.podGone, e.reply, e.now, n);
        Stays(s, Apply(cfg, s, e), n);
      }
    } else {
      hide QueuesOk;
      Stays(s, Apply(cfg, s, e), n);
    }
  }

  lemma CancelLeavesOthers(s: State, m: Name, podGone: bool, reply: Reply, now: int, n: Name)
    requires JobInv(s, n) && s.round == Deduping(false) && m in s.pjs && m in s.jobs && m != n
    ensures var s' := DoCancel(s, m, podGone, reply, now);
      JobInv(s', n) && (n in s.jobs ==> n in s'.jobs && s'.jobs[n] == s.jobs[n])
  {
    hide PatchProwJob, Consistent;
  }

  /** Every event moves every job legally or not at all, unless it overwrites a cancellation of that job;
      and if it does, the move is illegal. */
  lemma StepLegalExactly(cfg: Config, s: State, e: Event, n: Name)
    requires Shape(s) && JobInv(s, n) && Enabled(cfg, s, e)
    ensures Evolves(s, Apply(cfg, s, e), n) <==> !Overwrites(s, e, n)
    ensures !Overwrites(s, e, n) ==> JobInv(Apply(cfg, s, e), n)
  {
    if ByWorker(e) {
      WorkerEvolves(cfg, s, e, n);
      WorkerStepsAlone(cfg, s, e);
      hide Shape, JobInv, Evolves, Overwrites, Enabled, Apply, MovesOnly, StageOk;
      if !Overwrites(s, e, n) {
        if e.name == n {
          WorkerStageOk(cfg, s, e);
        }
        WorkerKeepsJobInv(s, Apply(cfg, s, e), e.name, n);
      }
    } else {
      hide Shape, JobInv, Evolves, Enabled, Apply;
      ControlEvolves(cfg, s, e, n);
    }
  }

  // Runs.

  ghost predicate StartsConsistent(s: State, n: Name) { Init(s) && (n in s.jobs ==> Consistent(s.jobs[n])) }

  /** Up to step `k` no event overwrites a cancellation of `n`. */
  ghost predicate NeverOverwritten(states: seq<State>, events: seq<Event>, k: nat, n: Name)
    requires k <= |events| <= |states|
  {
    forall i :: 0 <= i < k ==> !Overwrites(states[i], events[i], n)
  }

  lemma {:induction false} RunKeepsJobInv(cfg: Config, states: seq<State>, events: seq<Event>, k: nat, n: Name)
    requires Run(cfg, states, events) && StartsConsistent(states[0], n) && k < |states|
    requires NeverOverwritten(states, events, k, n)
    ensures JobInv(states[k], n)
    decreases k
  {
    if k > 0 {
      hide Shape, JobInv, Evolves, Enabled, Apply, Overwrites;
      RunKeepsJobInv(cfg, states, events, k - 1, n);
      RunKeepsShape(cfg, states, events, k - 1);
      StepLegalExactly(cfg, states[k - 1], events[k - 1], n);
    }
  }

  /** A whole run moves a job legally, step by step, if and only if it never overwrites an unnoticed
      cancellation of that job. */
  lemma {:induction false} LifecycleExactly(cfg: Config, states: seq<State>, events: seq<Event>, k: nat, n: Name)
    requires Run(cfg, states, events) && StartsConsistent(states[0], n) && k < |states|
    ensures (forall i :: 0 <= i < k ==> Evolves(states[i], states[i + 1], n)) <==>
      NeverOverwritten(states, events, k, n)
    decreases k
  {
    if k > 0 {
      hide Shape, JobInv, Evolves, Enabled, Apply, Overwrites;
      LifecycleExactly(cfg, states, events, k - 1, n);
      if NeverOverwritten(states, events, k - 1, n) {
        RunKeepsJobInv(cfg, states, events, k - 1, n);
        RunKeepsShape(cfg, states, events, k - 1);
        StepLegalExactly(cfg, states[k - 1], events[k - 1], n);
        assert Evolves(states[k - 1], states[k - 1 + 1], n) <==> !Overwrites(states[k - 1], events[k - 1], n);
      }
    }
  }

  /** What one stretch of a run may do to a job. */
  ghost predicate Lived(a: ProwJob, b: ProwJob) {
    && SameIdentity(a, b) && Consistent(b)
    && (Terminal(a.status.state) ==> b.status.state == a.status.state && b.status.completion == a.status.completion)
    && (a.status.state != Triggered ==> b.status.state != Triggered)
  }

  lemma LivesOn(a: ProwJob, b: ProwJob, c: ProwJob)
    requires Legal(a, b) && Lived(b, c)
    ensures Lived(a, c)
  {}

  /** With failed patches, failed pod calls, lost replies and crashes: a job keeps its specification, is
      terminal exactly when its completion time is set, and once terminal keeps its state and completion
      time; a job that left Triggered does not return to it. */
  lemma {:induction false} Lifecycle(cfg: Config, states: seq<State>, events: seq<Event>, i: nat, k: nat, n: Name)
    requires Run(cfg, states, events) && StartsConsistent(states[0], n) && i <= k < |states| && n in states[i].jobs
    requires NeverOverwritten(states, events, k, n)
    ensures n in states[k].jobs && Lived(states[i].jobs[n], states[k].jobs[n])
    ensures i + 1 == k ==> Move(states[i].jobs[n].status.state, states[k].jobs[n].status.state)
    decreases k - i
  {
    if i < k {
      LifecycleExactly(cfg, states, events, k, n);
      assert Evolves(states[i], states[i + 1], n);
      hide Lived, Run, NeverOverwritten;
      Lifecycle(cfg, states, events, i + 1, k, n);
      LivesOn(states[i].jobs[n], states[i + 1].jobs[n], states[k].jobs[n]);
    } else {
      RunKeepsJobInv(cfg, states, events, i, n);
    }
  }
}
