/** A pod is only created for a ProwJob that has none, in every run in which pods are listed completely. */
module PlankPods {
  import opened ProwJobs
  import opened Plank
  import opened PlankSnapshot

  /** The controller may still find out, from its snapshot, that job `n` has a pod. */
  ghost predicate Undecided(round: Round, work: map<Name, Stage>, n: Name) {
    match round
    case Idle => false
    case Listed => false
    case Deduping(_) => true
    case PendingRound => n in work ==> work[n].Queued? || work[n].Creating?
    case TriggeredRound => n in work && (work[n].Queued? || work[n].Creating?)
  }

  /** The pod snapshot misses no pod of an undecided job, and no worker creates a pod it has seen. */
  ghost predicate PodInv(s: State) {
    && (forall n :: n in s.pjs && n in s.pods && Undecided(s.round, s.work, n) ==> n in s.pm)
    && (Working(s.round) ==> forall n :: n in s.work && s.work[n].Creating? ==> n !in s.pm)
  }

  predicate PodsListed(e: Event) { e.ListPods? ==> e.missing == {} }

  lemma WorkerKeepsPodInv(s: State, s': State, n: Name)
    requires PodInv(s) && At(s, n) && MovesOnly(s, s', n)
    requires s'.work[n].Creating? ==> n !in s.pm && s.work[n].Queued? && s'.pods == s.pods
    requires s'.pods.Keys <= s.pods.Keys + {n}
    ensures PodInv(s')
  {
    forall m | m in s'.pjs && m in s'.pods && Undecided(s'.round, s'.work, m)
      ensures m in s'.pm
    {
      assert m in s.pods && Undecided(s.round, s.work, m);
    }
  }

  lemma TakePendingPods(cfg: Config, s: State, n: Name, now: int)
    requires At(s, n)
    ensures var s' := DoTakePending(cfg, s, n, now);
      s'.pods == s.pods && s'.jobs == s.jobs && n in s'.work && (s'.work[n].Creating? ==> n !in s.pm)
  {}

  lemma TakeTriggeredPods(cfg: Config, s: State, n: Name, now: int)
    requires At(s, n)
    ensures var s' := DoTakeTriggered(cfg, s, n, now);
      s'.pods == s.pods && s'.jobs == s.jobs && n in s'.work && (s'.work[n].Creating? ==> n !in s.pm)
  {
    hide Admits, Increment;
  }

  lemma CallPods(s: State, n: Name, result: Creation, now: int, ok: bool, gone: bool)
    requires At(s, n)
    ensures var s' := DoCreatePod(s, n, result, now);
      s'.pods.Keys <= s.pods.Keys + {n} && n in s'.work && !s'.work[n].Creating?
    ensures s.work[n].Deleting? ==>
      var s' := DoDeletePod(s, n, ok, gone); s'.pods.Keys <= s.pods.Keys + {n} && n in s'.work && !s'.work[n].Creating?
  {}

  /** What a worker's step does to the pods: only the one of its own job, and none as it turns to creating. */
  lemma WorkerPods(cfg: Config, s: State, e: Event)
    requires Enabled(cfg, s, e) && ByWorker(e)
    ensures var s' := Apply(cfg, s, e);
      && s'.pods.Keys <= s.pods.Keys + {e.name} && e.name in s'.work
      && (s'.work[e.name].Creating? ==> e.name !in s.pm && s.work[e.name].Queued? && s'.pods == s.pods)
  {
    hide DoTakePending, DoTakeTriggered, DoCreatePod, DoDeletePod, DoCancel, Channel, Patched;
    match e
    case TakePending(n, now) => TakePendingPods(cfg, s, n, now);
    case TakeTriggered(n, now) => TakeTriggeredPods(cfg, s, n, now);
    case CreatePod(n, result, now) => CallPods(s, n, result, now, true, true);
    case DeletePod(n, ok, gone) => CallPods(s, n, Failed, 0, ok, gone);
    case _ =>
  }

  lemma StartTriggeredKeepsPodInv(s: State)
    requires QueuesOk(s.pjs, s.round, s.work) && PodInv(s) && s.round.PendingRound?
    ensures PodInv(s.(round := TriggeredRound, work := Channel(s.pjs, Triggered)))
  {
    forall n | n in s.pjs && n in s.pods && Undecided(TriggeredRound, Channel(s.pjs, Triggered), n)
      ensures n in s.pm
    {
      assert n in InState(s.pjs, Triggered) && n !in s.work && Undecided(PendingRound, s.work, n);
    }
  }

  lemma CancelKeepsPodInv(s: State, n: Name, podGone: bool, reply: Reply, now: int)
    requires PodInv(s) && s.round == Deduping(false) && n in s.pjs && n in s.jobs
    ensures PodInv(DoCancel(s, n, podGone, reply, now))
  {
    hide Patched;
  }

  lemma ControlKeepsPodInv(cfg: Config, s: State, e: Event)
    requires Shape(s) && PodInv(s) && Enabled(cfg, s, e) && PodsListed(e) && !ByWorker(e)
    ensures PodInv(Apply(cfg, s, e))
  {
    hide SnapshotOk, DoCancel, DoTakePending, DoTakeTriggered, DoCreatePod, DoDeletePod, DoPatchJob;
    if e.StartTriggered? {
      hide PodInv, QueuesOk;
      StartTriggeredKeepsPodInv(s);
    } else if e.Cancel? {
      hide PodInv, QueuesOk;
      CancelKeepsPodInv(s, e.name, e.podGone, e.reply, e.now);
    } else {
      hide QueuesOk;
    }
  }

  lemma StepKeepsPodInv(cfg: Config, s: State, e: Event)
    requires Shape(s) && PodInv(s) && Enabled(cfg, s, e) && PodsListed(e)
    ensures PodInv(Apply(cfg, s, e))
  {
    hide PodInv, Shape, Enabled, Apply, MovesOnly;
    if ByWorker(e) {
      WorkerStepsAlone(cfg, s, e);
      WorkerPods(cfg, s, e);
      WorkerKeepsPodInv(s, Apply(cfg, s, e), e.name);
    } else {
      ControlKeepsPodInv(cfg, s, e);
    }
  }

  lemma CreatesOnlyWithoutPod(cfg: Config, s: State, e: Event)
    requires PodInv(s) && Enabled(cfg, s, e) && e.CreatePod?
    ensures e.name !in s.pods
  {}

  lemma {:induction false} RunKeepsPodInv(cfg: Config, states: seq<State>, events: seq<Event>, k: nat)
    requires Run(cfg, states, events) && Init(states[0]) && k < |states|
    requires forall i :: 0 <= i < |events| ==> PodsListed(events[i])
    ensures PodInv(states[k])
    decreases k
  {
    if k > 0 {
      hide PodInv, Shape, Enabled, Apply;
      RunKeepsPodInv(cfg, states, events, k - 1);
      RunKeepsShape(cfg, states, events, k - 1);
      StepKeepsPodInv(cfg, states[k - 1], events[k - 1]);
    }
  }

  /** No step of any run asks for a pod for a job whose pod exists, even when the pod was created in an
      earlier Sync that lost its reply or the patch that should have followed. */
  lemma NeverASecondPod(cfg: Config, states: seq<State>, events: seq<Event>, k: nat)
    requires Run(cfg, states, events) && Init(states[0]) && k < |events| && events[k].CreatePod?
    requires forall i :: 0 <= i < |events| ==> PodsListed(events[i])
    ensures events[k].name !in states[k].pods
  {
    RunKeepsPodInv(cfg, states, events, k);
    hide PodInv, Enabled, Apply;
    CreatesOnlyWithoutPod(cfg, states[k], events[k]);
  }
}
