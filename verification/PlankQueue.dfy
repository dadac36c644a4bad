/** How the machine uses the aborter and the admission queue: every cancellation of a pass over the list
    is a step of the machine, and every round of waiting jobs serves a queue. */
module PlankQueue {
  import opened ProwJobs
  import opened Plank
  import opened PlankSnapshot
  import opened PlankAdmission
  import Aborter

  // Cancellations.

  lemma {:induction false} ByNameUpdate(pjs: seq<ProwJob>, i: nat, pj: ProwJob)
    requires DistinctNames(pjs) && i < |pjs| && pj.name == pjs[i].name
    ensures ByName(pjs[i := pj]) == ByName(pjs)[pj.name := pj]
  {
    var front, last := pjs[..|pjs| - 1], pjs[|pjs| - 1];
    if i < |front| {
      ByNameUpdate(front, i, pj);
      assert pjs[i := pj][..|pjs| - 1] == front[i := pj] && pjs[i := pj][|pjs| - 1] == last;
    } else {
      assert pjs[i := pj][..|pjs| - 1] == front;
    }
  }

  lemma AbortKeepsName(pj: ProwJob, now: int)
    ensures Abort(pj, now).name == pj.name
  {}

  lemma StillDistinct(before: seq<ProwJob>, now: seq<ProwJob>, clock: nat -> int)
    requires DistinctNames(before) && Aborter.OnlyAborts(before, now, clock)
    ensures DistinctNames(now)
  {
    forall i | 0 <= i < |now|
      ensures now[i].name == before[i].name
    {
      AbortKeepsName(before[i], clock(i));
    }
  }

  /** The list in the middle of a pass, and a rival that the pass keeps for superseded job `i`. */
  lemma RivalInList(before: seq<ProwJob>, now: seq<ProwJob>, clock: nat -> int, i: nat) returns (w: nat)
    requires DistinctNames(before) && Aborter.OnlyAborts(before, now, clock)
    requires i < |before| && now[i] == before[i] && Aborter.Superseded(Aborter.Candidates(before), i)
    ensures w < |before| && now[w] == before[w] && before[i].name != before[w].name
    ensures Aborter.Rivals(Aborter.CandidateOf(before[i]), Aborter.CandidateOf(before[w]))
    ensures before[i].status.start <= before[w].status.start
  {
    w := Aborter.SupersededHasRival(Aborter.Candidates(before), i);
    hide Abort, Aborter.Identity;
  }

  lemma CancelEnabled(cfg: Config, s: State, i: ProwJob, w: ProwJob, reply: Reply, now: int)
    requires Shape(s) && s.round == Deduping(false) && i.name != w.name
    requires i.name in s.pjs && w.name in s.pjs && s.pjs[i.name] == i && s.pjs[w.name] == w
    requires Aborter.Rivals(Aborter.CandidateOf(i), Aborter.CandidateOf(w)) && i.status.start <= w.status.start
    ensures Enabled(cfg, s, Cancel(i.name, w.name, false, reply, now))
  {
    hide QueuesOk, Aborter.CandidateOf;
  }

  /** In the middle of a pass over `before`, whose list is now `now`: the next superseded job `i` can be
      cancelled, its rival being one that the pass keeps; and if the patch is acknowledged, the snapshot
      stays what the list holds. */
  lemma CancelsAreSteps(cfg: Config, s: State, before: seq<ProwJob>, now: seq<ProwJob>, clock: nat -> int, i: nat,
                        reply: Reply)
    returns (e: Event)
    requires Shape(s) && s.round == Deduping(false) && DistinctNames(before) && Aborter.OnlyAborts(before, now, clock)
    requires s.pjs == ByName(now) && i < |before| && now[i] == before[i]
    requires Aborter.Superseded(Aborter.Candidates(before), i)
    ensures e.Cancel? && e.name == before[i].name && e.reply == reply && Enabled(cfg, s, e)
    ensures reply.Applied? ==> Apply(cfg, s, e).pjs == ByName(now[i := Abort(before[i], clock(i))])
  {
    StillDistinct(before, now, clock);
    var w := RivalInList(before, now, clock, i);
    hide Shape, Abort, DistinctNames, ByName, Enabled, Aborter.Superseded, Aborter.OnlyAborts, Aborter.CandidateOf,
      DoCancel;
    ByNameLookup(now, i);
    ByNameLookup(now, w);
    CancelEnabled(cfg, s, before[i], before[w], reply, clock(i));
    e := Cancel(before[i].name, before[w].name, false, reply, clock(i));
    AbortKeepsName(before[i], clock(i));
    ByNameUpdate(now, i, Abort(before[i], clock(i)));
    CancelIsDone(cfg, s, e);
    CancelSnapshot(s, before[i].name, reply, clock(i));
  }

  lemma CancelIsDone(cfg: Config, s: State, e: Event)
    requires Enabled(cfg, s, e) && e.Cancel?
    ensures e.name in s.pjs && e.name in s.jobs && Apply(cfg, s, e) == DoCancel(s, e.name, e.podGone, e.reply, e.now)
  {}

  lemma CancelSnapshot(s: State, n: Name, reply: Reply, now: int)
    requires Shape(s) && s.round == Deduping(false) && n in s.pjs && n in s.jobs
    ensures reply.Applied? ==> DoCancel(s, n, false, reply, now).pjs == s.pjs[n := Abort(s.pjs[n], now)]
  {
    CancelAborts(s, n, now);
    hide Shape, Abort, PatchProwJob;
  }

  // Rounds.

  /** A worker takes a waiting job that has no pod in the listing; one that has is adopted. */
  predicate Takes(e: Event, pm: map<Name, Pod>) { e.TakeTriggered? && e.name !in pm }

  /** The waiting jobs so taken by a list of events, in order. */
  ghost function Taken(events: seq<Event>, pm: map<Name, Pod>): seq<Name> {
    if events == [] then []
    else
      var last := events[|events| - 1];
      Taken(events[..|events| - 1], pm) + if Takes(last, pm) then [last.name] else []
  }

  /** `s` is `order` after the round of waiting jobs began in `start`. */
  ghost predicate Serving(start: State, order: seq<Name>, s: State) {
    && s.round.TriggeredRound? && s.pjs == start.pjs && s.pm == start.pm && Queue(s.pjs, order)
    && (forall i :: 0 <= i < |order| ==> order[i] in s.work && !s.work[order[i]].Queued?)
    && var served := Serve(start.pendingJobs, s.pjs, order, |order|);
       s.pendingJobs == served.pendingJobs && s.counted == start.counted + served.admitted
  }

  lemma {:induction false} ServePrefix(pendingJobs: map<string, int>, pjs: map<Name, ProwJob>, order: seq<Name>,
                                       n: Name, k: nat)
    requires Queue(pjs, order) && Queue(pjs, order + [n]) && k <= |order|
    ensures Serve(pendingJobs, pjs, order + [n], k) == Serve(pendingJobs, pjs, order, k)
    decreases k
  {
    if k > 0 {
      ServePrefix(pendingJobs, pjs, order, n, k - 1);
      assert (order + [n])[k - 1] == order[k - 1];
    }
  }

  lemma QueueGrows(pjs: map<Name, ProwJob>, order: seq<Name>, n: Name)
    requires Queue(pjs, order) && n in pjs && pjs[n].status.state.Triggered? && n !in order
    ensures Queue(pjs, order + [n])
  {}

  lemma AdmitsWithoutGlobal(max: int, pendingJobs: map<string, int>, pjs: map<Name, ProwJob>, pj: ProwJob)
    requires max <= 0
    ensures Admits(max, pendingJobs, pjs, pj) == Admits(0, pendingJobs, pjs, pj)
  {}

  lemma ServeOneMore(pendingJobs: map<string, int>, pjs: map<Name, ProwJob>, order: seq<Name>, n: Name)
    requires Queue(pjs, order) && Queue(pjs, order + [n])
    ensures var before := Serve(pendingJobs, pjs, order, |order|);
      var after := Serve(pendingJobs, pjs, order + [n], |order| + 1);
      after == if Admits(0, before.pendingJobs, pjs, pjs[n])
               then Served(Increment(before.pendingJobs, pjs[n].spec.job), before.admitted + {n}) else before
  {
    ServePrefix(pendingJobs, pjs, order, n, |order|);
    hide Admits, Increment;
    assert (order + [n])[|order|] == n;
  }

  lemma TakeServes(cfg: Config, start: State, order: seq<Name>, s: State, n: Name, now: int)
    requires Shape(s) && Serving(start, order, s) && cfg.maxConcurrency <= 0
    requires At(s, n) && s.work[n].Queued? && n !in s.pm
    ensures Serving(start, order + [n], DoTakeTriggered(cfg, s, n, now))
  {
    var s' := DoTakeTriggered(cfg, s, n, now);
    WorkersJob(s, n);
    assert n !in order;
    QueueGrows(s.pjs, order, n);
    ServeOneMore(start.pendingJobs, s.pjs, order, n);
    AdmitsWithoutGlobal(cfg.maxConcurrency, s.pendingJobs, s.pjs, s.pjs[n]);
    hide Shape, Admits, Increment, Serve, Queue;
    forall i | 0 <= i < |order + [n]|
      ensures (order + [n])[i] in s'.work && !s'.work[(order + [n])[i]].Queued?
    {
      assert i < |order| ==> (order + [n])[i] == order[i];
    }
  }

  /** Every other step of a round, an adoption included, leaves the counters alone. */
  lemma OthersDoNotServe(cfg: Config, s: State, e: Event)
    requires Enabled(cfg, s, e) && s.round.TriggeredRound? && Apply(cfg, s, e).round.TriggeredRound? && !Takes(e, s.pm)
    ensures var s' := Apply(cfg, s, e);
      s'.pendingJobs == s.pendingJobs && s'.counted == s.counted && s'.pjs == s.pjs && s'.pm == s.pm
  {
    hide Admits, MadePending, Increment, PendingDecision, AfterCreation, Patched, Channel;
  }

  lemma OthersKeepTaken(cfg: Config, s: State, e: Event, m: Name)
    requires Enabled(cfg, s, e) && s.round.TriggeredRound? && Apply(cfg, s, e).round.TriggeredRound?
    requires m in s.work && !s.work[m].Queued?
    ensures m in Apply(cfg, s, e).work && !Apply(cfg, s, e).work[m].Queued?
  {
    if ByWorker(e) {
      WorkerStepsAlone(cfg, s, e);
      hide Apply, Enabled;
    } else {
      hide DoTakePending, DoTakeTriggered, DoCreatePod, DoDeletePod, DoPatchJob, DoCancel;
    }
  }

  lemma OtherStepServes(cfg: Config, start: State, order: seq<Name>, s: State, e: Event)
    requires Serving(start, order, s) && Enabled(cfg, s, e) && Apply(cfg, s, e).round.TriggeredRound? && !Takes(e, s.pm)
    ensures Serving(start, order, Apply(cfg, s, e))
  {
    OthersDoNotServe(cfg, s, e);
    hide Serve, Queue, Apply, Enabled;
    forall i | 0 <= i < |order|
      ensures order[i] in Apply(cfg, s, e).work && !Apply(cfg, s, e).work[order[i]].Queued?
    {
      OthersKeepTaken(cfg, s, e, order[i]);
    }
  }

  lemma StepServes(cfg: Config, start: State, order: seq<Name>, s: State, e: Event)
    requires Shape(s) && Serving(start, order, s) && cfg.maxConcurrency <= 0
    requires Enabled(cfg, s, e) && Apply(cfg, s, e).round.TriggeredRound?
    ensures Serving(start, order + if Takes(e, s.pm) then [e.name] else [], Apply(cfg, s, e))
  {
    hide Shape, Serving, DoTakeTriggered;
    if Takes(e, s.pm) {
      TakeServes(cfg, start, order, s, e.name, e.now);
    } else {
      hide Apply;
      OtherStepServes(cfg, start, order, s, e);
      assert order + [] == order;
    }
  }

  lemma {:induction false} TakenOneMore(events: seq<Event>, pm: map<Name, Pod>, i: nat, k: nat)
    requires i <= k < |events|
    ensures Taken(events[i..k + 1], pm) ==
      Taken(events[i..k], pm) + if Takes(events[k], pm) then [events[k].name] else []
  {
    assert events[i..k + 1][..k - i] == events[i..k] && events[i..k + 1][k - i] == events[k];
  }

  /** A stretch of a run inside one round of waiting jobs. */
  ghost predicate OneRound(states: seq<State>, events: seq<Event>, i: nat, k: nat)
    requires |states| == |events| + 1
  {
    i <= k < |states| && (forall j :: i <= j <= k ==> states[j].round.TriggeredRound?)
  }

  lemma RoundBegins(states: seq<State>, events: seq<Event>, i: nat, k: nat)
    requires |states| == |events| + 1 && OneRound(states, events, i, k) && i == k
    ensures Serving(states[i], Taken(events[i..k], states[i].pm), states[k])
  {
    assert events[i..k] == [] && Taken([], states[i].pm) == [];
  }

  lemma RoundStep(cfg: Config, states: seq<State>, events: seq<Event>, i: nat, k: nat)
    requires Run(cfg, states, events) && OneRound(states, events, i, k) && i < k
    ensures k <= |events| < |states|
    ensures var s, e := states[k - 1], events[k - 1];
      && Enabled(cfg, s, e) && states[k] == Apply(cfg, s, e) && states[k].round.TriggeredRound?
      && OneRound(states, events, i, k - 1)
  {
    hide Enabled, Apply;
    assert states[k - 1 + 1] == Apply(cfg, states[k - 1], events[k - 1]);
  }

  lemma ServingPods(start: State, order: seq<Name>, s: State)
    requires Serving(start, order, s)
    ensures s.pm == start.pm
  {}

  /** In every run without a global limit, whatever else happens, a stretch of a round serves the jobs it
      takes, other than those it adopts, in the order it takes them: the counters and the jobs counted are
      those of that queue. */
  lemma {:induction false} RoundServesQueue(cfg: Config, states: seq<State>, events: seq<Event>, i: nat, k: nat)
    requires Run(cfg, states, events) && |states| == |events| + 1 && Init(states[0])
    requires cfg.maxConcurrency <= 0 && i <= k < |states| && OneRound(states, events, i, k)
    ensures Serving(states[i], Taken(events[i..k], states[i].pm), states[k])
    decreases k
  {
    hide Run, OneRound, Serving, Shape, Enabled, Apply, Taken, Init;
    if k == i {
      RoundBegins(states, events, i, k);
    } else {
      RoundStep(cfg, states, events, i, k);
      RunKeepsShape(cfg, states, events, k - 1);
      RoundServesQueue(cfg, states, events, i, k - 1);
      ServingPods(states[i], Taken(events[i..k - 1], states[i].pm), states[k - 1]);
      StepServes(cfg, states[i], Taken(events[i..k - 1], states[i].pm), states[k - 1], events[k - 1]);
      TakenOneMore(events, states[i].pm, i, k - 1);
    }
  }

  /** So in every such run the oldest waiting job of a name that has a free place is counted once it is
      taken, whichever jobs were taken before it. */
  lemma OldestIsCounted(cfg: Config, states: seq<State>, events: seq<Event>, i: nat, k: nat, x: nat, limit: int)
    requires Run(cfg, states, events) && Init(states[0]) && cfg.maxConcurrency <= 0 && OneRound(states, events, i, k)
    requires var s, order := states[k], Taken(events[i..k], states[i].pm);
      && x < |order| && Queue(s.pjs, order) && Older(s.pjs, s.pjs[order[x]]) == {}
      && (forall y :: 0 <= y < |order| && y != x && s.pjs[order[y]].spec.job == s.pjs[order[x]].spec.job ==>
            s.pjs[order[y]].creation != s.pjs[order[x]].creation)
      && var job := s.pjs[order[x]].spec.job;
         SharedLimit(s.pjs, order, job, limit) && limit != 0 && Num(states[i].pendingJobs, job) < limit
    ensures Taken(events[i..k], states[i].pm)[x] in states[k].counted
  {
    RoundServesQueue(cfg, states, events, i, k);
    hide Run, Taken, Init;
    OldestIsAdmitted(states[i].pendingJobs, states[k].pjs, Taken(events[i..k], states[i].pm), x, limit);
  }
}
