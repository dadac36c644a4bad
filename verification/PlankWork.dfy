/** What workers decide, case by case, and what a round of pending jobs comes to. */
module PlankWork {
  import opened Text
  import opened ProwJobs
  import opened Plank
  import opened PlankSnapshot
  import opened PlankConcurrency

  // How a Sync begins.

  /** The snapshots are what is listed: all jobs, and the pods of the clusters that answer. */
  lemma ListsExactly(cfg: Config, s: State, missing: set<Name>)
    ensures Enabled(cfg, s, ListJobs) ==>
      var s' := Apply(cfg, s, ListJobs); s'.pjs == s.jobs == s'.jobs && s'.pods == s.pods
    ensures Enabled(cfg, s, ListPods(missing)) ==>
      var s' := Apply(cfg, s, ListPods(missing));
      && s'.pods == s.pods && s'.pjs == s.pjs && s'.jobs == s.jobs
      && (forall n :: n in s'.pm <==> n in s.pods && n !in missing) && forall n :: n in s'.pm ==> s'.pm[n] == s.pods[n]
  {
    hide DoTakePending, DoTakeTriggered, DoCreatePod, DoDeletePod, DoPatchJob, DoCancel, Channel;
  }

  // How the rounds begin.

  /** A round begins with all jobs that the snapshot has in its state waiting to be taken; the first one with
      nothing counted. */
  lemma RoundsBegin(cfg: Config, s: State)
    ensures Enabled(cfg, s, StartPending) ==>
      var s' := Apply(cfg, s, StartPending);
      && (forall n :: n in s'.work <==> n in s.pjs && s.pjs[n].status.state == Pending)
      && (forall n :: n in s'.work ==> s'.work[n] == Queued)
      && s'.counted == {} && forall job :: Num(s'.pendingJobs, job) == 0
    ensures Enabled(cfg, s, StartTriggered) ==>
      var s' := Apply(cfg, s, StartTriggered);
      && (forall n :: n in s'.work <==> n in s.pjs && s.pjs[n].status.state == Triggered)
      && (forall n :: n in s'.work ==> s'.work[n] == Queued)
      && s'.counted == s.counted && s'.pendingJobs == s.pendingJobs
  {
    hide DoTakePending, DoTakeTriggered, DoCreatePod, DoDeletePod, DoPatchJob, DoCancel;
  }

  // Pending jobs.

  /** A pod that has waited or run for too long. */
  ghost predicate Overdue(cfg: Config, pod: Pod, now: int) {
    && pod.start.Some?
    && ((pod.phase.PodPending? && now - pod.start.value >= cfg.podPendingTimeout)
        || (pod.phase.PodRunning? && now - pod.start.value >= cfg.podRunningTimeout))
  }

  /** The pod is at its end, and that is the job's end too, in `state`. */
  ghost predicate Ended(pj: ProwJob, pod: Pod, state: JobState) {
    match state
    case Success => pod.phase.PodSucceeded?
    case Failure => pod.phase.PodFailed? && !pod.evicted
    case Error => pod.phase.PodFailed? && pod.evicted && pj.spec.errorOnEviction
    case _ => false
  }

  /** The pod is to be replaced. */
  ghost predicate Lost(pj: ProwJob, pod: Pod) {
    pod.phase.PodUnknown? || (pod.phase.PodFailed? && pod.evicted && !pj.spec.errorOnEviction)
  }

  /** The job, ended now, and nothing else changed. */
  ghost predicate EndsAs(pj: ProwJob, next: ProwJob, state: JobState, now: int) {
    && next.name == pj.name && next.creation == pj.creation && next.spec == pj.spec
    && next.status == pj.status.(state := state, completion := Some(now))
  }

  /** The stage of `n` after it was taken, by what is listed for it. */
  ghost predicate PendingStage(cfg: Config, pj: ProwJob, pm: map<Name, Pod>, n: Name, now: int, stage: Stage) {
    && (forall next :: stage == Patching(next) <==>
          n in pm && exists state :: Ended(pj, pm[n], state) && EndsAs(pj, next, state, now))
    && (forall next :: stage == Deleting(Some(next)) <==>
          && n in pm && Overdue(cfg, pm[n], now)
          && EndsAs(pj, next, if pm[n].phase.PodPending? then Error else Aborted, now))
    && (stage == Deleting(None) <==> n in pm && Lost(pj, pm[n]))
    && (stage == Creating <==> n !in pm)
    && (stage == Done <==>
          n in pm && (pm[n].phase.PodOther?
                      || ((pm[n].phase.PodPending? || pm[n].phase.PodRunning?) && !Overdue(cfg, pm[n], now))))
  }

  /** One more or none in the counter of `job`, and no other counter changes. */
  ghost predicate Counts(s: State, s': State, n: Name, one: bool)
    requires n in s.pjs
  {
    && s'.counted == (if one then s.counted + {n} else s.counted)
    && forall job :: Num(s'.pendingJobs, job) ==
         Num(s.pendingJobs, job) + if one && job == s.pjs[n].spec.job then 1 else 0
  }

  lemma StageIsRight(cfg: Config, pj: ProwJob, pm: map<Name, Pod>, n: Name, now: int)
    ensures PendingStage(cfg, pj, pm, n, now, PendingDecision(cfg, pj, Lookup(pm, n), now).stage)
    ensures PendingDecision(cfg, pj, Lookup(pm, n), now).counts <==>
      n in pm ==> !Overdue(cfg, pm[n], now) && forall state :: !Ended(pj, pm[n], state)
  {
    if n in pm {
      assert Ended(pj, pm[n], Success) <==> pm[n].phase.PodSucceeded?;
      assert Ended(pj, pm[n], Failure) <==> pm[n].phase.PodFailed? && !pm[n].evicted;
      assert Ended(pj, pm[n], Error) <==> pm[n].phase.PodFailed? && pm[n].evicted && pj.spec.errorOnEviction;
      FinishedEnds(pj, Success, now);
      FinishedEnds(pj, Failure, now);
      FinishedEnds(pj, Error, now);
      FinishedEnds(pj, Aborted, now);
    }
    hide Finished, EndsAs;
  }

  lemma FinishedEnds(pj: ProwJob, state: JobState, now: int)
    ensures forall next :: EndsAs(pj, next, state, now) <==> next == Finished(pj, state, now)
  {}

  /** A worker that takes a pending job: it ends the job exactly if the listed pod is at an end that is the
      job's; deletes the pod first exactly if it is overdue; replaces it exactly if it is lost; creates it
      exactly if none is listed; and otherwise leaves all as it is. It counts the job exactly if the job is not
      about to end. */
  lemma TakePendingExactly(cfg: Config, s: State, n: Name, now: int)
    requires Enabled(cfg, s, TakePending(n, now))
    ensures var s' := Apply(cfg, s, TakePending(n, now));
      && n in s'.work && PendingStage(cfg, s.pjs[n], s.pm, n, now, s'.work[n])
      && Counts(s, s', n, n in s.pm ==> !Overdue(cfg, s.pm[n], now) && forall state :: !Ended(s.pjs[n], s.pm[n], state))
      && s'.jobs == s.jobs && s'.pods == s.pods
  {
    StageIsRight(cfg, s.pjs[n], s.pm, n, now);
    hide PendingDecision, PendingStage, Overdue, Ended, Lookup;
  }

  // Waiting jobs.

  /** The job, started now as the pod with that build. */
  ghost predicate StartsAs(pj: ProwJob, next: ProwJob, buildId: string, now: int) {
    && next.name == pj.name && next.creation == pj.creation && next.spec == pj.spec
    && next.status ==
         pj.status.(state := Pending, pendingTime := Some(now), buildId := buildId, podName := Some(pj.name))
  }

  /** There is a place for `n`, under the global limit and under that of its name, where the jobs of that name
      that wait and are older go first. */
  ghost predicate HasPlace(max: int, s: State, n: Name)
    requires n in s.pjs
  {
    var spec := s.pjs[n].spec;
    var older := set w | w in s.pjs && s.pjs[w].status.state == Triggered && s.pjs[w].spec.job == spec.job
                         && s.pjs[w].creation < s.pjs[n].creation;
    && (max > 0 ==> |s.counted| < max)
    && (spec.maxConcurrency != 0 ==> |OfJob(s.pjs, s.counted, spec.job)| + |older| < spec.maxConcurrency)
  }

  lemma PlaceIsAdmission(max: int, s: State, n: Name)
    requires n in s.pjs && CountsOk(s.pendingJobs, s.counted, s.pjs)
    ensures HasPlace(max, s, n) <==> Admits(max, s.pendingJobs, s.pjs, s.pjs[n])
  {
    var older := set w | w in s.pjs && s.pjs[w].status.state == Triggered && s.pjs[w].spec.job == s.pjs[n].spec.job
                         && s.pjs[w].creation < s.pjs[n].creation;
    assert older == Older(s.pjs, s.pjs[n]);
  }

  /** What taking a waiting job does. */
  ghost predicate StartsOrWaits(cfg: Config, s: State, s': State, n: Name, now: int)
    requires n in s.pjs
  {
    && n in s'.work && s'.jobs == s.jobs && s'.pods == s.pods
    && (if n in s.pm then s'.work[n].Patching? && StartsAs(s.pjs[n], s'.work[n].next, s.pm[n].buildId, now)
        else if HasPlace(cfg.maxConcurrency, s, n) then s'.work[n] == Creating
        else s'.work[n] == Done)
    && Counts(s, s', n, n !in s.pm && HasPlace(cfg.maxConcurrency, s, n))
  }

  lemma AdoptsOrAdmits(cfg: Config, s: State, n: Name, now: int)
    requires At(s, n)
    ensures var s' := DoTakeTriggered(cfg, s, n, now);
      var admits := Admits(cfg.maxConcurrency, s.pendingJobs, s.pjs, s.pjs[n]);
      && n in s'.work && s'.jobs == s.jobs && s'.pods == s.pods
      && (if n in s.pm then s'.work[n].Patching? && StartsAs(s.pjs[n], s'.work[n].next, s.pm[n].buildId, now)
          else if admits then s'.work[n] == Creating
          else s'.work[n] == Done)
      && Counts(s, s', n, n !in s.pm && admits)
  {
    hide Admits;
  }

  /** A worker that takes a waiting job: it adopts a listed pod, without counting the job; otherwise it creates
      the pod, and counts the job, exactly if there is a place for it, and else leaves it waiting. */
  lemma TakeTriggeredExactly(cfg: Config, s: State, n: Name, now: int)
    requires Enabled(cfg, s, TakeTriggered(n, now)) && CountsOk(s.pendingJobs, s.counted, s.pjs)
    ensures n in s.pjs && StartsOrWaits(cfg, s, Apply(cfg, s, TakeTriggered(n, now)), n, now)
  {
    PlaceIsAdmission(cfg.maxConcurrency, s, n);
    AdoptsOrAdmits(cfg, s, n, now);
    hide HasPlace, Admits, CountsOk, StartsAs, Counts, DoTakeTriggered;
  }

  // Calls.

  /** The reply to a creation: a created pod's build is recorded, a waiting job thereby becoming pending; an
      invalid pod ends the job in error; a failure, or a reply that is lost, leaves the job as it is. */
  lemma CreatePodExactly(cfg: Config, s: State, n: Name, result: Creation, now: int)
    requires Shape(s) && Enabled(cfg, s, CreatePod(n, result, now))
    ensures var s', pj := Apply(cfg, s, CreatePod(n, result, now)), s.pjs[n];
      && n in s'.work && s'.jobs == s.jobs && s'.counted == s.counted && s'.pendingJobs == s.pendingJobs
      && (match result
          case Created(id) =>
            && s'.pods == s.pods[n := Pod(PodPending, false, None, id)] && s'.work[n].Patching?
            && (if s.round.TriggeredRound? then StartsAs(pj, s'.work[n].next, id, now)
                else s'.work[n].next == pj.(status := pj.status.(buildId := id, podName := Some(pj.name))))
          case CreatedUnnoticed(id) =>
            s'.pods == s.pods[n := Pod(PodPending, false, None, id)] && s'.work[n] == Done
          case Invalid => s'.pods == s.pods && s'.work[n].Patching? && EndsAs(pj, s'.work[n].next, Error, now)
          case Failed => s'.pods == s.pods && s'.work[n] == Done)
  {
    WorkersJob(s, n);
    hide Shape;
  }

  /** A pod is deleted before its timeout is recorded, and only then is it. */
  lemma DeletePodExactly(cfg: Config, s: State, n: Name, ok: bool, gone: bool)
    requires Enabled(cfg, s, DeletePod(n, ok, gone))
    ensures var s' := Apply(cfg, s, DeletePod(n, ok, gone));
      && n in s'.work && s'.jobs == s.jobs && s'.pods == (if gone then s.pods - {n} else s.pods)
      && (forall next :: s'.work[n] == Patching(next) <==> ok && s.work[n] == Deleting(Some(next)))
      && (s'.work[n] == Done <==> !ok || s.work[n] == Deleting(None))
  {}

  lemma WorkerDeletesOnly(cfg: Config, s: State, e: Event, n: Name)
    requires Enabled(cfg, s, e) && ByWorker(e) && n in s.pods && n !in Apply(cfg, s, e).pods
    ensures e.DeletePod? && e.name == n
  {
    hide PendingDecision, Admits, Patched, Channel, AfterCreation, DoCancel, Increment, MadePending;
  }

  /** A pod disappears by itself, by its worker deleting it, or by a cancellation where these are allowed to
      delete the pods that are listed. */
  lemma PodsVanishOnly(cfg: Config, s: State, e: Event, n: Name)
    requires Enabled(cfg, s, e) && n in s.pods && n !in Apply(cfg, s, e).pods
    ensures || e == PodDeleted(n) || (e.DeletePod? && e.name == n)
            || (e.Cancel? && e.name == n && e.podGone && cfg.allowCancellations && n in s.pm)
  {
    if ByWorker(e) {
      WorkerDeletesOnly(cfg, s, e, n);
    } else {
      hide DoTakePending, DoTakeTriggered, DoCreatePod, DoDeletePod, DoPatchJob, DoCancel, Channel;
      if e.Cancel? {
        CancelPods(s, e.name, e.podGone, e.reply, e.now);
      }
    }
  }

  lemma CancelPods(s: State, n: Name, podGone: bool, reply: Reply, now: int)
    requires n in s.pjs && n in s.jobs
    ensures DoCancel(s, n, podGone, reply, now).pods == if podGone then s.pods - {n} else s.pods
  {
    hide Patched;
  }

  // Counters in all runs.

  /** The counters are the sizes of the sets of counted jobs, and a job is counted only once it was taken. */
  ghost predicate Tallied(s: State) {
    && (Working(s.round) ==>
          CountsOk(s.pendingJobs, s.counted, s.pjs) && forall n :: n in s.work && s.work[n].Queued? ==> n !in s.counted)
    && (s.round.PendingRound? ==> s.counted <= s.work.Keys)
  }

  lemma CountsKept(s: State, s': State, n: Name, one: bool)
    requires n in s.pjs && CountsOk(s.pendingJobs, s.counted, s.pjs) && s'.pjs == s.pjs
    requires s'.counted == (if one then s.counted + {n} else s.counted) && (one ==> n !in s.counted)
    requires s'.pendingJobs == if one then Increment(s.pendingJobs, s.pjs[n].spec.job) else s.pendingJobs
    ensures CountsOk(s'.pendingJobs, s'.counted, s'.pjs)
  {
    if one {
      CountOne(s.pendingJobs, s.counted, s.pjs, n);
    }
    hide CountsOk, Increment;
  }

  /** Whether a worker's step counts its job. */
  ghost predicate CountsStep(s: State, s': State, n: Name, one: bool)
    requires n in s.pjs
  {
    && s'.counted == (if one then s.counted + {n} else s.counted)
    && s'.pendingJobs == (if one then Increment(s.pendingJobs, s.pjs[n].spec.job) else s.pendingJobs)
  }

  lemma TakePendingSteps(cfg: Config, s: State, n: Name, now: int)
    requires At(s, n)
    ensures var s' := DoTakePending(cfg, s, n, now); CountsStep(s, s', n, true) || CountsStep(s, s', n, false)
  {
    hide PendingDecision, Increment;
  }

  lemma TakeTriggeredSteps(cfg: Config, s: State, n: Name, now: int)
    requires At(s, n)
    ensures var s' := DoTakeTriggered(cfg, s, n, now); CountsStep(s, s', n, true) || CountsStep(s, s', n, false)
  {
    hide Admits, Increment;
  }

  lemma WorkerCounts(cfg: Config, s: State, e: Event)
    requires Enabled(cfg, s, e) && ByWorker(e)
    ensures var s' := Apply(cfg, s, e);
      && e.name in s.pjs
      && (CountsStep(s, s', e.name, true) || CountsStep(s, s', e.name, false))
      && (CountsStep(s, s', e.name, true) && !CountsStep(s, s', e.name, false) ==> s.work[e.name].Queued?)
  {
    hide CountsStep, DoTakePending, DoTakeTriggered, DoCancel, Channel, Patched;
    match e
    case TakePending(n, now) => TakePendingSteps(cfg, s, n, now);
    case TakeTriggered(n, now) => TakeTriggeredSteps(cfg, s, n, now);
    case _ => CallsDoNotCount(cfg, s, e);
  }

  lemma CallsDoNotCount(cfg: Config, s: State, e: Event)
    requires Enabled(cfg, s, e) && (e.CreatePod? || e.DeletePod? || e.PatchJob?)
    ensures CountsStep(s, Apply(cfg, s, e), e.name, false)
  {
    hide Patched, AfterCreation, Increment;
  }

  lemma WorkerKeepsTally(s: State, s': State, n: Name)
    requires Tallied(s) && At(s, n) && MovesOnly(s, s', n)
    requires CountsStep(s, s', n, true) || CountsStep(s, s', n, false)
    requires CountsStep(s, s', n, true) && !CountsStep(s, s', n, false) ==> s.work[n].Queued?
    ensures Tallied(s')
  {
    if CountsStep(s, s', n, false) {
      CountsKept(s, s', n, false);
    } else {
      CountsKept(s, s', n, true);
    }
    hide CountsOk, Increment;
  }

  lemma ControlKeepsTally(cfg: Config, s: State, e: Event)
    requires Shape(s) && Tallied(s) && Enabled(cfg, s, e) && !ByWorker(e)
    ensures Tallied(Apply(cfg, s, e))
  {
    EmptyCounts(s.pjs);
    hide SnapshotOk, CountsOk, Patched, DoTakePending, DoTakeTriggered, DoCreatePod, DoDeletePod, DoPatchJob;
    if e.StartTriggered? {
      forall n | n in InState(s.pjs, Triggered)
        ensures n !in s.counted
      {
        assert n !in InState(s.pjs, Pending);
      }
    }
  }

  lemma StepKeepsTally(cfg: Config, s: State, e: Event)
    requires Shape(s) && Tallied(s) && Enabled(cfg, s, e)
    ensures Tallied(Apply(cfg, s, e))
  {
    hide Shape, Tallied, Enabled, Apply, MovesOnly, CountsStep;
    if ByWorker(e) {
      WorkerStepsAlone(cfg, s, e);
      WorkerCounts(cfg, s, e);
      WorkerKeepsTally(s, Apply(cfg, s, e), e.name);
    } else {
      ControlKeepsTally(cfg, s, e);
    }
  }

  lemma {:induction false} RunKeepsTally(cfg: Config, states: seq<State>, events: seq<Event>, k: nat)
    requires Run(cfg, states, events) && Init(states[0]) && k < |states|
    ensures Tallied(states[k])
    decreases k
  {
    if k > 0 {
      hide Shape, Tallied, Enabled, Apply;
      RunKeepsTally(cfg, states, events, k - 1);
      RunKeepsShape(cfg, states, events, k - 1);
      StepKeepsTally(cfg, states[k - 1], events[k - 1]);
    }
  }

  /** In every run, whatever fails or gets lost: a waiting job without a listed pod is started when it is taken
      exactly if there is a place for it. */
  lemma StartedExactlyIfPlace(cfg: Config, states: seq<State>, events: seq<Event>, k: nat, n: Name, now: int)
    requires Run(cfg, states, events) && Init(states[0]) && k < |events| && events[k] == TakeTriggered(n, now)
    requires n !in states[k].pm
    ensures n in states[k].pjs && n in states[k + 1].work
    ensures states[k + 1].work[n] == (if HasPlace(cfg.maxConcurrency, states[k], n) then Creating else Done)
    ensures n in states[k + 1].counted <==> HasPlace(cfg.maxConcurrency, states[k], n)
  {
    var s := states[k];
    RunKeepsTally(cfg, states, events, k);
    assert Enabled(cfg, s, events[k]) && states[k + 1] == Apply(cfg, s, events[k]);
    TakenIsNotCounted(cfg, s, n, now);
    TakeTriggeredExactly(cfg, s, n, now);
    hide Run, Enabled, Apply, HasPlace, Tallied, CountsOk, StartsAs;
  }

  lemma TakenIsNotCounted(cfg: Config, s: State, n: Name, now: int)
    requires Tallied(s) && Enabled(cfg, s, TakeTriggered(n, now))
    ensures n in s.pjs && n !in s.counted && CountsOk(s.pendingJobs, s.counted, s.pjs)
  {}

  // A whole round of pending jobs.

  /** The listed pod calls for the job's end, at once or after its deletion. */
  ghost predicate CallsForEnd(cfg: Config, pj: ProwJob, pod: Pod, now: int) {
    Overdue(cfg, pod, now) || exists state :: Ended(pj, pod, state)
  }

  /** The job is on its way to its end, or there. */
  ghost predicate Ending(s: State, n: Name) {
    && s.round.PendingRound? && At(s, n) && s.pjs[n].status.state == Pending
    && match s.work[n]
       case Patching(next) => Terminal(next.status.state)
       case Deleting(Some(next)) => Terminal(next.status.state)
       case Done => Terminal(s.jobs[n].status.state)
       case _ => false
  }

  /** The worker's own call fails. */
  ghost predicate CallFails(e: Event, n: Name) {
    (e.DeletePod? && e.name == n && !e.ok) || (e.PatchJob? && e.name == n && e.reply.Rejected?)
  }

  lemma TakenIsEnding(cfg: Config, s: State, n: Name, now: int)
    requires Shape(s) && Enabled(cfg, s, TakePending(n, now)) && n in s.pm && CallsForEnd(cfg, s.pjs[n], s.pm[n], now)
    ensures Ending(Apply(cfg, s, TakePending(n, now)), n)
  {
    WorkersJob(s, n);
    EndStage(cfg, s.pjs[n], s.pm[n], now);
    hide Shape, PendingDecision, CallsForEnd;
  }

  lemma EndStage(cfg: Config, pj: ProwJob, pod: Pod, now: int)
    requires CallsForEnd(cfg, pj, pod, now)
    ensures match PendingDecision(cfg, pj, Some(pod), now).stage
            case Patching(next) => Terminal(next.status.state)
            case Deleting(Some(next)) => Terminal(next.status.state)
            case _ => false
  {}

  lemma PatchKeepsEnding(s: State, n: Name, reply: Reply)
    requires Ending(s, n) && s.work[n].Patching? && !reply.Rejected?
    ensures Ending(DoPatchJob(s, n, reply), n)
  {
    PatchedState(s, n, reply);
    hide Patched;
  }

  lemma DeleteKeepsEnding(s: State, n: Name, gone: bool)
    requires Ending(s, n) && s.work[n].Deleting?
    ensures Ending(DoDeletePod(s, n, true, gone), n)
  {}

  lemma WorkerKeepsEnding(cfg: Config, s: State, e: Event)
    requires Enabled(cfg, s, e) && ByWorker(e) && Ending(s, e.name) && !CallFails(e, e.name)
    ensures Ending(Apply(cfg, s, e), e.name)
  {
    hide DoTakePending, DoTakeTriggered, DoCreatePod, DoDeletePod, DoPatchJob, DoCancel, Channel;
    match e
    case DeletePod(n, _, gone) => DeleteKeepsEnding(s, n, gone);
    case PatchJob(n, reply) => PatchKeepsEnding(s, n, reply);
    case _ =>
  }

  lemma OthersKeepEnding(s: State, s': State, m: Name, n: Name)
    requires Ending(s, n) && At(s, m) && MovesOnly(s, s', m) && m != n
    ensures Ending(s', n)
  {}

  lemma ControlKeepsEnding(cfg: Config, s: State, e: Event, n: Name)
    requires Ending(s, n) && Enabled(cfg, s, e) && !ByWorker(e) && Apply(cfg, s, e).round.PendingRound?
    ensures Ending(Apply(cfg, s, e), n)
  {
    hide DoCancel, DoTakePending, DoTakeTriggered, DoCreatePod, DoDeletePod, DoPatchJob, Channel;
  }

  lemma StepKeepsEnding(cfg: Config, s: State, e: Event, n: Name)
    requires Ending(s, n) && Enabled(cfg, s, e) && !CallFails(e, n) && Apply(cfg, s, e).round.PendingRound?
    ensures Ending(Apply(cfg, s, e), n)
  {
    hide Ending, Enabled, Apply, CallFails, MovesOnly;
    if ByWorker(e) {
      if e.name == n {
        WorkerKeepsEnding(cfg, s, e);
      } else {
        WorkerStepsAlone(cfg, s, e);
        OthersKeepEnding(s, Apply(cfg, s, e), e.name, n);
      }
    } else {
      ControlKeepsEnding(cfg, s, e, n);
    }
  }

  /** A stretch of a run inside one round of pending jobs, in which no call of the worker of `n` fails. */
  ghost predicate SmoothRound(states: seq<State>, events: seq<Event>, i: nat, k: nat, n: Name)
    requires |states| == |events| + 1
  {
    && i <= k < |states| && (forall j :: i <= j <= k ==> states[j].round.PendingRound?)
    && forall j :: i <= j < k ==> !CallFails(events[j], n)
  }

  lemma SmoothStep(cfg: Config, states: seq<State>, events: seq<Event>, i: nat, k: nat, n: Name)
    requires Run(cfg, states, events) && SmoothRound(states, events, i, k, n) && i < k
    ensures 0 < k <= |events| < |states| && SmoothRound(states, events, i, k - 1, n)
    ensures var s, e := states[k - 1], events[k - 1];
      && Enabled(cfg, s, e) && states[k] == Apply(cfg, s, e) && !CallFails(e, n)
      && s.round.PendingRound? && states[k].round.PendingRound?
  {
    hide Enabled, Apply, CallFails;
    assert states[k - 1 + 1] == Apply(cfg, states[k - 1], events[k - 1]);
  }

  lemma {:induction false} StaysEnding(cfg: Config, states: seq<State>, events: seq<Event>, i: nat, k: nat, n: Name)
    requires Run(cfg, states, events) && |states| == |events| + 1 && i <= k < |states|
    requires SmoothRound(states, events, i, k, n) && Ending(states[i], n)
    ensures Ending(states[k], n)
    decreases k
  {
    hide Run, SmoothRound, Ending, Enabled, Apply, CallFails;
    if i < k {
      SmoothStep(cfg, states, events, i, k, n);
      StaysEnding(cfg, states, events, i, k - 1, n);
      StepKeepsEnding(cfg, states[k - 1], events[k - 1], n);
    }
  }

  /** In a round that goes from `i` to `k`, a worker that is not waiting any more was taken. */
  lemma {:induction false} WasTaken(cfg: Config, states: seq<State>, events: seq<Event>, i: nat, k: nat, n: Name)
    returns (j: nat)
    requires Run(cfg, states, events) && |states| == |events| + 1 && i <= k < |states|
    requires SmoothRound(states, events, i, k, n)
    requires n in states[i].work && states[i].work[n].Queued? && n in states[k].work && !states[k].work[n].Queued?
    ensures i <= j < k && events[j].TakePending? && events[j].name == n
    decreases k
  {
    hide Run, SmoothRound, Enabled, Apply, CallFails;
    assert i < k;
    SmoothStep(cfg, states, events, i, k, n);
    TakenBy(cfg, states[k - 1], events[k - 1], n);
    if events[k - 1].TakePending? && events[k - 1].name == n {
      j := k - 1;
    } else {
      j := WasTaken(cfg, states, events, i, k - 1, n);
    }
  }

  lemma TakenBy(cfg: Config, s: State, e: Event, n: Name)
    requires Enabled(cfg, s, e) && s.round.PendingRound? && Apply(cfg, s, e).round.PendingRound?
    requires n in Apply(cfg, s, e).work && !Apply(cfg, s, e).work[n].Queued?
    ensures (e.TakePending? && e.name == n) || (n in s.work && !s.work[n].Queued?)
  {
    if ByWorker(e) {
      WorkerStepsAlone(cfg, s, e);
      hide Apply;
    } else {
      hide DoCancel, DoTakePending, DoTakeTriggered, DoCreatePod, DoDeletePod, DoPatchJob, Channel;
    }
  }

  /** The pod listed for `n` called for its job's end whenever the job was taken between `i` and `k`. */
  ghost predicate EndDue(cfg: Config, states: seq<State>, events: seq<Event>, i: nat, k: nat, n: Name)
    requires |states| == |events| + 1 && i <= k < |states|
  {
    forall j :: i <= j < k && events[j].TakePending? && events[j].name == n ==>
      && n in states[j].pjs && n in states[j].pm
      && CallsForEnd(cfg, states[j].pjs[n], states[j].pm[n], events[j].now)
  }

  /** In every run: a round of pending jobs that goes from `i`, where the job is in the queue, to `k`, where all
      workers are done, and in which no call for the job fails, leaves the job at its end on the server if the
      pod listed for it has ended or is overdue. */
  lemma RoundEndsJob(cfg: Config, states: seq<State>, events: seq<Event>, i: nat, k: nat, n: Name)
    requires Run(cfg, states, events) && Init(states[0]) && SmoothRound(states, events, i, k, n)
    requires n in states[i].work && states[i].work[n].Queued? && AllDone(states[k].work) && n in states[k].work
    requires EndDue(cfg, states, events, i, k, n)
    ensures n in states[k].jobs && Terminal(states[k].jobs[n].status.state)
  {
    var j := WasTaken(cfg, states, events, i, k, n);
    RunKeepsShape(cfg, states, events, j);
    var s, e := states[j], events[j];
    assert Enabled(cfg, s, e) && states[j + 1] == Apply(cfg, s, e) && e == TakePending(n, e.now);
    TakenIsEnding(cfg, s, n, e.now);
    assert SmoothRound(states, events, j + 1, k, n);
    StaysEnding(cfg, states, events, j + 1, k, n);
    hide Run, Enabled, Apply, Shape;
  }
}
