/** What the controller's snapshots and workers have to do with the API server in every run, whatever
    fails and whatever reply is lost. */
module PlankSnapshot {
  import opened ProwJobs
  import opened Plank

  /** The controller has not patched `n` since it took its snapshot, as far as it knows. */
  ghost predicate Untouched(round: Round, work: map<Name, Stage>, n: Name) {
    match round
    case Idle => false
    case Listed => true
    case Deduping(_) => true
    case PendingRound => n in work ==> !work[n].Done?
    case TriggeredRound => n in work && !work[n].Done?
  }

  /** The server's copy of a job and the snapshot's: the same, or the server's is the aborted one. */
  ghost predicate Agrees(job: ProwJob, pj: ProwJob, stale: bool) {
    if stale then !pj.Complete() && job.Complete() && job == Abort(pj, job.status.completion.value) else job == pj
  }

  ghost predicate SnapshotOk(jobs: map<Name, ProwJob>, pjs: map<Name, ProwJob>, round: Round, work: map<Name, Stage>,
                             stale: set<Name>)
  {
    && (!round.Idle? ==> pjs.Keys <= jobs.Keys)
    && (round.Listed? || round == Deduping(false) ==> stale == {})
    && (forall n :: n in pjs && Untouched(round, work, n) ==> n in jobs && Agrees(jobs[n], pjs[n], n in stale))
  }

  /** Each round works on the jobs that the snapshot has in one state. */
  ghost predicate QueuesOk(pjs: map<Name, ProwJob>, round: Round, work: map<Name, Stage>) {
    && (round.PendingRound? ==> work.Keys == InState(pjs, Pending))
    && (round.TriggeredRound? ==> work.Keys == InState(pjs, Triggered))
  }

  ghost predicate Shape(s: State) {
    SnapshotOk(s.jobs, s.pjs, s.round, s.work, s.stale) && QueuesOk(s.pjs, s.round, s.work)
  }

  // Workers.

  predicate ByWorker(e: Event) {
    e.TakePending? || e.TakeTriggered? || e.CreatePod? || e.DeletePod? || e.PatchJob?
  }

  /** The job of a worker that is not done. */
  lemma WorkersJob(s: State, n: Name)
    requires Shape(s) && At(s, n) && !s.work[n].Done?
    ensures Untouched(s.round, s.work, n) && Agrees(s.jobs[n], s.pjs[n], n in s.stale)
    ensures s.pjs[n].status.state == if s.round.PendingRound? then Pending else Triggered
  {
    assert n in InState(s.pjs, Pending) || n in InState(s.pjs, Triggered);
  }

  /** From `s` to `s'` only the worker of `n` moves, and job `n` changes only as that worker finishes. */
  ghost predicate MovesOnly(s: State, s': State, n: Name)
    requires At(s, n)
  {
    && s'.pjs == s.pjs && s'.pm == s.pm && s'.round == s.round && s'.stale == s.stale
    && n in s'.work && s'.work == s.work[n := s'.work[n]] && !s'.work[n].Queued?
    && n in s'.jobs && s'.jobs == s.jobs[n := s'.jobs[n]] && SameIdentity(s.jobs[n], s'.jobs[n])
    && (s'.jobs[n] == s.jobs[n] || s'.work[n].Done?)
  }

  lemma TakesPendingAlone(cfg: Config, s: State, n: Name, now: int)
    requires At(s, n)
    ensures MovesOnly(s, DoTakePending(cfg, s, n, now), n)
  {
    hide Increment, Lookup, TimedOut, Finished;
  }

  lemma TakesTriggeredAlone(cfg: Config, s: State, n: Name, now: int)
    requires At(s, n)
    ensures MovesOnly(s, DoTakeTriggered(cfg, s, n, now), n)
  {
    hide Admits, Increment, MadePending;
  }

  lemma CallsAlone(s: State, n: Name, result: Creation, now: int, ok: bool, gone: bool)
    requires At(s, n)
    ensures MovesOnly(s, DoCreatePod(s, n, result, now), n)
    ensures s.work[n].Deleting? ==> MovesOnly(s, DoDeletePod(s, n, ok, gone), n)
  {
    hide Remove, MadePending, Restarted, Finished;
  }

  lemma PatchesAlone(s: State, n: Name, reply: Reply)
    requires At(s, n) && s.work[n].Patching?
    ensures MovesOnly(s, DoPatchJob(s, n, reply), n)
  {
    hide MergeField, MergeMap;
  }

  lemma WorkerStepsAlone(cfg: Config, s: State, e: Event)
    requires Enabled(cfg, s, e) && ByWorker(e)
    ensures At(s, e.name) && !s.work[e.name].Done? && MovesOnly(s, Apply(cfg, s, e), e.name)
  {
    hide MovesOnly, DoTakePending, DoTakeTriggered, DoCreatePod, DoDeletePod, DoPatchJob, DoCancel, Channel;
    match e
    case TakePending(n, now) => TakesPendingAlone(cfg, s, n, now);
    case TakeTriggered(n, now) => TakesTriggeredAlone(cfg, s, n, now);
    case CreatePod(n, result, now) => CallsAlone(s, n, result, now, true, true);
    case DeletePod(n, ok, gone) => CallsAlone(s, n, Failed, 0, ok, gone);
    case PatchJob(n, reply) => PatchesAlone(s, n, reply);
    case _ =>
  }

  /** Of a worker's steps only the patch changes a job. */
  lemma OnlyPatchesMove(cfg: Config, s: State, e: Event)
    requires Enabled(cfg, s, e) && ByWorker(e)
    ensures if e.PatchJob? then Apply(cfg, s, e) == DoPatchJob(s, e.name, e.reply) else Apply(cfg, s, e).jobs == s.jobs
  {
    hide PendingDecision, Admits, AfterCreation, DoPatchJob, DoCancel, Channel, Increment, Remove, AllDone;
  }

  /** To the server and the other workers a patch whose reply is lost is a patch. */
  lemma UnnoticedPatchIsPatch(cfg: Config, s: State, n: Name)
    requires Enabled(cfg, s, PatchJob(n, Unnoticed))
    ensures Enabled(cfg, s, PatchJob(n, Applied))
    ensures Apply(cfg, s, PatchJob(n, Unnoticed)) == Apply(cfg, s, PatchJob(n, Applied))
  {
    hide Patched;
  }

  lemma WorkerKeepsShape(s: State, s': State, n: Name)
    requires Shape(s) && At(s, n) && !s.work[n].Done? && MovesOnly(s, s', n)
    ensures Shape(s')
  {
    assert s'.work.Keys == s.work.Keys;
    forall m | m in s'.pjs && Untouched(s'.round, s'.work, m)
      ensures m in s'.jobs && Agrees(s'.jobs[m], s'.pjs[m], m in s'.stale)
    {
      assert Untouched(s.round, s.work, m);
    }
  }

  // Patches.

  /** A patch from an up-to-date copy installs what was meant, and touches no other job. */
  lemma PatchFromSnapshot(s: State, n: Name, next: ProwJob)
    requires n in s.pjs && n in s.jobs && s.jobs[n] == s.pjs[n] && SameIdentity(s.pjs[n], next)
    ensures Patched(s, n, next) == s.jobs[n := next]
  {
    PatchUpToDate(s.pjs[n], next);
  }

  /** A cancellation that takes effect leaves the aborted job on the server. */
  lemma CancelAborts(s: State, n: Name, now: int)
    requires Shape(s) && s.round == Deduping(false) && n in s.pjs && n in s.jobs
    ensures s.jobs[n] == s.pjs[n] && Patched(s, n, Abort(s.pjs[n], now)) == s.jobs[n := Abort(s.jobs[n], now)]
  {
    assert Untouched(s.round, s.work, n);
    PatchFromSnapshot(s, n, Abort(s.pjs[n], now));
  }

  lemma CancelKeepsShape(s: State, n: Name, podGone: bool, reply: Reply, now: int)
    requires Shape(s) && s.round == Deduping(false) && n in s.pjs && n in s.jobs && !s.pjs[n].Complete()
    ensures Shape(DoCancel(s, n, podGone, reply, now))
  {
    CancelAborts(s, n, now);
    hide Patched, Remove, QueuesOk;
  }

  // Steps of the environment and of Sync.

  lemma StartPendingKeepsShape(s: State)
    requires Shape(s) && s.round.Deduping?
    ensures var work := Channel(s.pjs, Pending);
      SnapshotOk(s.jobs, s.pjs, PendingRound, work, s.stale) && QueuesOk(s.pjs, PendingRound, work)
  {
    assert Channel(s.pjs, Pending).Keys == InState(s.pjs, Pending);
    forall n | n in s.pjs
      ensures n in s.jobs && Agrees(s.jobs[n], s.pjs[n], n in s.stale)
    {
      assert Untouched(s.round, s.work, n);
    }
  }

  lemma StartTriggeredKeepsShape(s: State)
    requires Shape(s) && s.round.PendingRound?
    ensures var work := Channel(s.pjs, Triggered);
      SnapshotOk(s.jobs, s.pjs, TriggeredRound, work, s.stale) && QueuesOk(s.pjs, TriggeredRound, work)
  {
    var work := Channel(s.pjs, Triggered);
    assert work.Keys == InState(s.pjs, Triggered);
    forall n | n in s.pjs && Untouched(TriggeredRound, work, n)
      ensures n in s.jobs && Agrees(s.jobs[n], s.pjs[n], n in s.stale)
    {
      assert n !in s.work && Untouched(PendingRound, s.work, n);
    }
  }

  lemma NewJobKeepsShape(s: State, job: ProwJob)
    requires Shape(s) && job.name !in s.jobs
    ensures Shape(s.(jobs := s.jobs[job.name := job]))
  {
    forall n | n in s.pjs && Untouched(s.round, s.work, n)
      ensures n in s.jobs && n != job.name && Agrees(s.jobs[n], s.pjs[n], n in s.stale)
    {}
  }

  lemma ControlKeepsShape(cfg: Config, s: State, e: Event)
    requires Shape(s) && Enabled(cfg, s, e) && !ByWorker(e)
    ensures Shape(Apply(cfg, s, e))
  {
    hide DoCancel, DoTakePending, DoTakeTriggered, DoCreatePod, DoDeletePod, DoPatchJob;
    match e
    case NewJob(job) =>
      hide SnapshotOk, QueuesOk;
      NewJobKeepsShape(s, job);
    case Cancel(n, _, podGone, reply, now) =>
      hide SnapshotOk, QueuesOk;
      CancelKeepsShape(s, n, podGone, reply, now);
    case StartPending =>
      hide SnapshotOk, QueuesOk, Channel;
      StartPendingKeepsShape(s);
    case StartTriggered =>
      hide SnapshotOk, QueuesOk, Channel;
      StartTriggeredKeepsShape(s);
    case _ =>
      hide Channel;
  }

  lemma StepKeepsShape(cfg: Config, s: State, e: Event)
    requires Shape(s) && Enabled(cfg, s, e)
    ensures Shape(Apply(cfg, s, e))
  {
    hide Shape, Enabled, Apply, MovesOnly;
    if ByWorker(e) {
      WorkerStepsAlone(cfg, s, e);
      WorkerKeepsShape(s, Apply(cfg, s, e), e.name);
    } else {
      ControlKeepsShape(cfg, s, e);
    }
  }

  /** A controller that has just started, on any jobs and pods. */
  ghost predicate Init(s: State) { s.round.Idle? }

  /** In every run, the snapshot agrees with the server on every job the controller has not patched
      since, up to cancellations it did not notice. */
  lemma {:induction false} RunKeepsShape(cfg: Config, states: seq<State>, events: seq<Event>, k: nat)
    requires Run(cfg, states, events) && Init(states[0]) && k < |states|
    ensures Shape(states[k])
    decreases k
  {
    if k > 0 {
      hide Shape, Enabled, Apply;
      RunKeepsShape(cfg, states, events, k - 1);
      StepKeepsShape(cfg, states[k - 1], events[k - 1]);
    }
  }
}
