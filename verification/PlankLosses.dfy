/** Each of the five losses exceeds the concurrency limit in some run. */
module PlankLosses {
  import opened Text
  import opened ProwJobs
  import opened Plank
  import opened PlankConcurrency

  /** One job at a time, of any name. */
  const Global1: Config := Config(1, 0, 0, false)

  function Unlimited(job: string): int { 0 }

  function Example(n: Name, state: JobState): ProwJob {
    var pj := NewProwJob(n, Spec(Presubmit, "job", None, [], 0, false), n);
    pj.(status := pj.status.(state := state))
  }

  const Fresh: Pod := Pod(PodPending, false, None, "")

  function Started(n: Name): ProwJob { MadePending(Example(n, Triggered), "", 5) }

  // Runs are put together from their ends.

  ghost predicate SafeStep(s: State, e: Event, s': State) {
    Enabled(Global1, s, e) && s' == Apply(Global1, s, e) && Harmless(Unlimited, s, e)
  }

  /** A run from `first` to `final` without any loss. */
  ghost predicate SafeRun(states: seq<State>, events: seq<Event>, first: State, final: State) {
    && Run(Global1, states, events) && states[0] == first && states[|events|] == final
    && forall i :: 0 <= i < |events| ==> Harmless(Unlimited, states[i], events[i])
  }

  /** A run from `first` to `final` whose only loss is that of event `k`. */
  ghost predicate LossyRun(states: seq<State>, events: seq<Event>, k: nat, loss: Loss, first: State, final: State) {
    && Run(Global1, states, events) && states[0] == first && states[|events|] == final
    && k < |events| && LossOf(states[k], events[k]) == Some(loss)
    && forall i :: 0 <= i < |events| && i != k ==> Harmless(Unlimited, states[i], events[i])
  }

  lemma RunCons(s: State, e: Event, states: seq<State>, events: seq<Event>)
    requires Run(Global1, states, events) && Enabled(Global1, s, e) && states[0] == Apply(Global1, s, e)
    ensures Run(Global1, [s] + states, [e] + events)
    ensures ([s] + states)[0] == s && ([s] + states)[|[e] + events|] == states[|events|]
  {
    hide Enabled, Apply;
    forall i | 0 <= i < |[e] + events|
      ensures Enabled(Global1, ([s] + states)[i], ([e] + events)[i])
      ensures ([s] + states)[i + 1] == Apply(Global1, ([s] + states)[i], ([e] + events)[i])
    {
      assert i > 0 ==> ([s] + states)[i] == states[i - 1] && ([e] + events)[i] == events[i - 1];
      assert ([s] + states)[i + 1] == states[i];
    }
  }

  lemma Stop(s: State)
    ensures SafeRun([s], [], s, s)
  {}

  lemma Cons(s: State, e: Event, states: seq<State>, events: seq<Event>, next: State, final: State)
    requires SafeStep(s, e, next) && SafeRun(states, events, next, final)
    ensures SafeRun([s] + states, [e] + events, s, final)
  {
    hide Enabled, Apply, Harmless;
    RunCons(s, e, states, events);
    forall i | 0 <= i < |[e] + events|
      ensures Harmless(Unlimited, ([s] + states)[i], ([e] + events)[i])
    {
      assert i > 0 ==> ([s] + states)[i] == states[i - 1] && ([e] + events)[i] == events[i - 1];
    }
  }

  lemma Lose(s: State, e: Event, loss: Loss, states: seq<State>, events: seq<Event>, next: State, final: State)
    requires Enabled(Global1, s, e) && next == Apply(Global1, s, e) && LossOf(s, e) == Some(loss)
    requires SafeRun(states, events, next, final)
    ensures LossyRun([s] + states, [e] + events, 0, loss, s, final)
  {
    hide Enabled, Apply, Harmless, LossOf;
    RunCons(s, e, states, events);
    forall i | 0 <= i < |[e] + events| && i != 0
      ensures Harmless(Unlimited, ([s] + states)[i], ([e] + events)[i])
    {
      assert ([s] + states)[i] == states[i - 1] && ([e] + events)[i] == events[i - 1];
    }
  }

  lemma ConsLossy(s: State, e: Event, states: seq<State>, events: seq<Event>, k: nat, loss: Loss, next: State,
                  final: State)
    requires SafeStep(s, e, next) && LossyRun(states, events, k, loss, next, final)
    ensures LossyRun([s] + states, [e] + events, k + 1, loss, s, final)
  {
    hide Enabled, Apply, Harmless, LossOf;
    RunCons(s, e, states, events);
    forall i | 0 <= i < |[e] + events| && i != k + 1
      ensures Harmless(Unlimited, ([s] + states)[i], ([e] + events)[i])
    {
      assert i > 0 ==> ([s] + states)[i] == states[i - 1] && ([e] + events)[i] == events[i - 1];
    }
  }

  // A pending job whose end is not recorded. Job 0 is pending with pod `p`, job 1 waits.

  function A0(p: Pod): State {
    var jobs := map[0 := Example(0, Pending), 1 := Example(1, Triggered)];
    State(jobs, map[0 := p], Idle, map[], map[], map[], map[], {}, {})
  }
  function A1(p: Pod): State { A0(p).(round := Listed, pjs := A0(p).jobs) }
  function A2(p: Pod): State { A1(p).(round := Deduping(false), pm := A0(p).pods) }
  function A3(p: Pod): State { A2(p).(round := PendingRound, work := map[0 := Queued]) }
  function A4(p: Pod, stage: Stage): State { A3(p).(work := map[0 := stage]) }
  function A5(p: Pod): State { A4(p, Done) }
  function A6(p: Pod): State { A5(p).(round := TriggeredRound, work := map[1 := Queued]) }
  function A7(p: Pod): State { A6(p).(work := map[1 := Creating], pendingJobs := map["job" := 1], counted := {1}) }
  function A8(p: Pod): State { A7(p).(work := map[1 := Patching(Started(1))], pods := A0(p).pods[1 := Fresh]) }
  function A9(p: Pod): State { A8(p).(work := map[1 := Done], jobs := A0(p).jobs[1 := Started(1)]) }

  lemma AList(p: Pod)
    ensures SafeStep(A0(p), ListJobs, A1(p)) && SafeStep(A1(p), ListPods({}), A2(p))
  {
    hide DoCancel, DoTakePending, DoTakeTriggered, DoCreatePod, DoDeletePod, DoPatchJob, Example, Started;
    assert A0(p).pods - {} == A0(p).pods;
  }

  lemma AStartPending(p: Pod)
    ensures SafeStep(A2(p), StartPending, A3(p))
  {
    hide DoCancel, DoTakePending, DoTakeTriggered, DoCreatePod, DoDeletePod, DoPatchJob, Started;
    assert Channel(A0(p).jobs, Pending) == map[0 := Queued];
  }

  lemma AStartTriggered(p: Pod)
    ensures SafeStep(A5(p), StartTriggered, A6(p))
  {
    hide DoCancel, DoTakePending, DoTakeTriggered, DoCreatePod, DoDeletePod, DoPatchJob, Started;
    assert Channel(A0(p).jobs, Triggered) == map[1 := Queued];
  }

  lemma AAdmit(p: Pod)
    ensures SafeStep(A6(p), TakeTriggered(1, 5), A7(p))
  {
    hide DoCancel, DoTakePending, DoCreatePod, DoDeletePod, DoPatchJob, Channel, Started, MadePending;
    assert Increment(map[], "job") == map["job" := 1];
    assert A6(p).work[1 := Creating] == A7(p).work;
  }

  lemma ACreate(p: Pod)
    ensures SafeStep(A7(p), CreatePod(1, Created(""), 5), A8(p))
  {
    hide DoCancel, DoTakePending, DoTakeTriggered, DoDeletePod, DoPatchJob, Channel, MadePending;
    assert A7(p).work[1 := A8(p).work[1]] == A8(p).work;
  }

  lemma APatch(p: Pod)
    ensures SafeStep(A8(p), PatchJob(1, Applied), A9(p)) && InState(A9(p).jobs, Pending) == {0, 1}
  {
    hide DoCancel, DoTakePending, DoTakeTriggered, DoCreatePod, DoDeletePod, Channel, PatchProwJob;
    PatchUpToDate(Example(1, Triggered), Started(1));
    assert A8(p).work[1 := Done] == A9(p).work;
  }

  lemma ASafe(p: Pod)
    ensures SafeInit(Unlimited, 1, A0(p))
  {
    assert InState(A0(p).jobs, Pending) == {0};
  }

  /** From a pending job that is done with, uncounted, to two pending jobs. */
  lemma ATail(p: Pod) returns (states: seq<State>, events: seq<Event>)
    ensures SafeRun(states, events, A5(p), A9(p))
  {
    AStartTriggered(p);
    AAdmit(p);
    ACreate(p);
    APatch(p);
    Stop(A9(p));
    hide *;
    Cons(A8(p), PatchJob(1, Applied), [A9(p)], [], A9(p), A9(p));
    states, events := [A8(p)] + [A9(p)], [PatchJob(1, Applied)] + [];
    Cons(A7(p), CreatePod(1, Created(""), 5), states, events, A8(p), A9(p));
    states, events := [A7(p)] + states, [CreatePod(1, Created(""), 5)] + events;
    Cons(A6(p), TakeTriggered(1, 5), states, events, A7(p), A9(p));
    states, events := [A6(p)] + states, [TakeTriggered(1, 5)] + events;
    Cons(A5(p), StartTriggered, states, events, A6(p), A9(p));
    states, events := [A5(p)] + states, [StartTriggered] + events;
  }

  /** The run in which `e`, with the worker of job 0 at `stage`, is the loss. */
  lemma ARun(p: Pod, stage: Stage, e: Event, loss: Loss) returns (states: seq<State>, events: seq<Event>)
    requires SafeStep(A3(p), TakePending(0, 5), A4(p, stage))
    requires Enabled(Global1, A4(p, stage), e) && Apply(Global1, A4(p, stage), e) == A5(p)
    requires LossOf(A4(p, stage), e) == Some(loss)
    ensures LossyRun(states, events, 4, loss, A0(p), A9(p))
  {
    AList(p);
    AStartPending(p);
    hide *;
    states, events := ATail(p);
    Lose(A4(p, stage), e, loss, states, events, A5(p), A9(p));
    states, events := [A4(p, stage)] + states, [e] + events;
    ConsLossy(A3(p), TakePending(0, 5), states, events, 0, loss, A4(p, stage), A9(p));
    states, events := [A3(p)] + states, [TakePending(0, 5)] + events;
    ConsLossy(A2(p), StartPending, states, events, 1, loss, A3(p), A9(p));
    states, events := [A2(p)] + states, [StartPending] + events;
    ConsLossy(A1(p), ListPods({}), states, events, 2, loss, A2(p), A9(p));
    states, events := [A1(p)] + states, [ListPods({})] + events;
    ConsLossy(A0(p), ListJobs, states, events, 3, loss, A1(p), A9(p));
    states, events := [A0(p)] + states, [ListJobs] + events;
  }

  const Succeeded: Pod := Pod(PodSucceeded, false, None, "")
  const Overdue: Pod := Pod(PodRunning, false, Some(0), "")

  function Verdict(state: JobState): ProwJob { Finished(Example(0, Pending), state, 5) }

  lemma VerdictLost()
    ensures var s := A4(Succeeded, Patching(Verdict(Success)));
      && SafeStep(A3(Succeeded), TakePending(0, 5), s)
      && Enabled(Global1, s, PatchJob(0, Rejected)) && Apply(Global1, s, PatchJob(0, Rejected)) == A5(Succeeded)
      && LossOf(s, PatchJob(0, Rejected)) == Some(LostVerdict)
  {
    hide DoCancel, DoTakeTriggered, DoCreatePod, DoDeletePod, Channel, Patched;
    var s := A4(Succeeded, Patching(Verdict(Success)));
    assert A3(Succeeded).work[0 := s.work[0]] == s.work && s.work[0 := Done] == A5(Succeeded).work;
  }

  lemma DeletionFailed()
    ensures var s := A4(Overdue, Deleting(Some(Verdict(Aborted))));
      && SafeStep(A3(Overdue), TakePending(0, 5), s)
      && Enabled(Global1, s, DeletePod(0, false, false)) && Apply(Global1, s, DeletePod(0, false, false)) == A5(Overdue)
      && LossOf(s, DeletePod(0, false, false)) == Some(FailedDeletion)
  {
    hide DoCancel, DoTakeTriggered, DoCreatePod, DoPatchJob, Channel;
    var s := A4(Overdue, Deleting(Some(Verdict(Aborted))));
    assert A3(Overdue).work[0 := s.work[0]] == s.work && s.work[0 := Done] == A5(Overdue).work;
  }

  // A waiting job whose pod the next Sync adopts without counting it.

  function B0(): State { State(map[0 := Example(0, Triggered)], map[], Idle, map[], map[], map[], map[], {}, {}) }
  function B1(): State { B0().(round := Listed, pjs := B0().jobs) }
  function B2(): State { B1().(round := Deduping(false)) }
  function B3(): State { B2().(round := PendingRound) }
  function B4(): State { B3().(round := TriggeredRound, work := map[0 := Queued]) }
  function B5(): State { B4().(work := map[0 := Creating], pendingJobs := map["job" := 1], counted := {0}) }
  /** The pod exists; its worker is at `stage`. */
  function B6(stage: Stage): State { B5().(pods := map[0 := Fresh], work := map[0 := stage]) }
  /** Sync has ended, and job 1 has come. */
  function B7(stage: Stage): State { B6(stage).(round := Idle) }
  function B8(stage: Stage): State { B7(stage).(jobs := B0().jobs[1 := Example(1, Triggered)]) }

  // The second Sync lists both jobs and the pod of job 0.

  function Two(): map<Name, ProwJob> { map[0 := Example(0, Triggered), 1 := Example(1, Triggered)] }

  function C(jobs: map<Name, ProwJob>, pods: map<Name, Pod>, round: Round, pm: map<Name, Pod>,
             pendingJobs: map<string, int>,
             work: map<Name, Stage>, counted: set<Name>): State
  {
    State(jobs, pods, round, Two(), pm, pendingJobs, work, counted, {})
  }

  const One: map<Name, Pod> := map[0 := Fresh]
  const Counted1: map<string, int> := map["job" := 1]

  function C1(): State { C(Two(), One, Listed, map[], Counted1, map[], {0}) }
  function C2(): State { C(Two(), One, Deduping(false), One, Counted1, map[], {0}) }
  function C3(): State { C(Two(), One, PendingRound, One, map[], map[], {}) }
  function C4(): State { C(Two(), One, TriggeredRound, One, map[], map[0 := Queued, 1 := Queued], {}) }
  function C5(): State { C(Two(), One, TriggeredRound, One, map[], map[0 := Patching(Started(0)), 1 := Queued], {}) }
  function C6(): State { C(Two(), One, TriggeredRound, One, Counted1, map[0 := Patching(Started(0)), 1 := Creating],
              {1}) }
  function C7(): State {
    C(Two()[0 := Started(0)], One, TriggeredRound, One, Counted1, map[0 := Done, 1 := Creating], {1})
  }
  function C8(): State {
    C(Two()[0 := Started(0)], One[1 := Fresh], TriggeredRound, One, Counted1,
      map[0 := Done, 1 := Patching(Started(1))], {1})
  }
  function C9(): State {
    C(Two()[0 := Started(0)][1 := Started(1)], One[1 := Fresh], TriggeredRound, One, Counted1,
      map[0 := Done, 1 := Done], {1})
  }

  lemma BStart()
    ensures SafeStep(B0(), ListJobs, B1()) && SafeStep(B1(), ListPods({}), B2())
    ensures SafeStep(B2(), StartPending, B3()) && SafeStep(B3(), StartTriggered, B4())
  {
    hide DoCancel, DoTakePending, DoTakeTriggered, DoCreatePod, DoDeletePod, DoPatchJob;
    assert Channel(B0().jobs, Pending) == map[];
    assert Channel(B0().jobs, Triggered) == map[0 := Queued];
  }

  lemma BAdmit()
    ensures SafeStep(B4(), TakeTriggered(0, 5), B5())
  {
    hide DoCancel, DoTakePending, DoCreatePod, DoDeletePod, DoPatchJob, Channel, MadePending;
    assert Increment(map[], "job") == map["job" := 1];
    assert B4().work[0 := Creating] == B5().work;
  }

  lemma BCreate()
    ensures SafeStep(B5(), CreatePod(0, Created(""), 5), B6(Patching(Started(0))))
    ensures var e := CreatePod(0, CreatedUnnoticed(""), 5);
      Enabled(Global1, B5(), e) && Apply(Global1, B5(), e) == B6(Done) && LossOf(B5(), e) == Some(LostCreation)
  {
    hide DoCancel, DoTakePending, DoTakeTriggered, DoDeletePod, DoPatchJob, Channel, MadePending;
    assert map[][0 := Fresh] == map[0 := Fresh];
    assert B5().work[0 := Patching(Started(0))] == B6(Patching(Started(0))).work;
    assert B5().work[0 := Done] == B6(Done).work;
  }

  lemma BCrash()
    ensures var s := B6(Patching(Started(0)));
      && Enabled(Global1, s, Crash) && Apply(Global1, s, Crash) == B7(Patching(Started(0)))
      && LossOf(s, Crash) == Some(CrashedBetween)
  {
    hide DoCancel, DoTakePending, DoTakeTriggered, DoCreatePod, DoDeletePod, DoPatchJob, Channel, MadePending;
    var s := B6(Patching(Started(0)));
    assert 0 in s.pods && IsIn(s.jobs, 0, Triggered);
  }

  lemma BReject()
    ensures var s, e := B6(Patching(Started(0))), PatchJob(0, Rejected);
      && Enabled(Global1, s, e) && Apply(Global1, s, e) == B6(Done) && LossOf(s, e) == Some(LostAdmission)
  {
    hide DoCancel, DoTakePending, DoTakeTriggered, DoCreatePod, DoDeletePod, Channel, Patched, MadePending;
    var s := B6(Patching(Started(0)));
    assert 0 in s.pods && IsIn(s.jobs, 0, Triggered);
    assert s.work[0 := Done] == B6(Done).work;
  }

  lemma BFinish(stage: Stage)
    ensures SafeStep(B6(Done), FinishSync, B7(Done))
    ensures SafeStep(B7(stage), NewJob(Example(1, Triggered)), B8(stage)) && SafeStep(B8(stage), ListJobs, C1())
  {
    hide DoCancel, DoTakePending, DoTakeTriggered, DoCreatePod, DoDeletePod, DoPatchJob, Channel;
  }

  lemma CList()
    ensures SafeStep(C1(), ListPods({}), C2())
  {
    hide DoCancel, DoTakePending, DoTakeTriggered, DoCreatePod, DoDeletePod, DoPatchJob, Example, Channel;
    assert One - {} == One;
  }

  lemma CStart()
    ensures SafeStep(C2(), StartPending, C3()) && SafeStep(C3(), StartTriggered, C4())
  {
    hide DoCancel, DoTakePending, DoTakeTriggered, DoCreatePod, DoDeletePod, DoPatchJob;
    assert Channel(Two(), Pending) == map[];
    assert Channel(Two(), Triggered) == map[0 := Queued, 1 := Queued];
  }

  lemma CAdopt()
    ensures SafeStep(C4(), TakeTriggered(0, 5), C5())
  {
    hide DoCancel, DoTakePending, DoCreatePod, DoDeletePod, DoPatchJob, Channel, MadePending, Admits;
    assert C4().work[0 := Patching(Started(0))] == C5().work;
  }

  lemma CAdmit()
    ensures SafeStep(C5(), TakeTriggered(1, 5), C6())
  {
    hide DoCancel, DoTakePending, DoCreatePod, DoDeletePod, DoPatchJob, Channel, MadePending;
    assert Increment(map[], "job") == map["job" := 1];
    assert C5().work[1 := Creating] == C6().work;
  }

  lemma CPatchAdopted()
    ensures SafeStep(C6(), PatchJob(0, Applied), C7())
  {
    hide DoCancel, DoTakePending, DoTakeTriggered, DoCreatePod, DoDeletePod, Channel, PatchProwJob;
    PatchUpToDate(Example(0, Triggered), Started(0));
    assert C6().work[0 := Done] == C7().work;
  }

  lemma CCreate()
    ensures SafeStep(C7(), CreatePod(1, Created(""), 5), C8())
  {
    hide DoCancel, DoTakePending, DoTakeTriggered, DoDeletePod, DoPatchJob, Channel, MadePending;
    assert C7().work[1 := Patching(Started(1))] == C8().work;
  }

  lemma CPatchAdmitted()
    ensures SafeStep(C8(), PatchJob(1, Applied), C9()) && InState(C9().jobs, Pending) == {0, 1}
  {
    hide DoCancel, DoTakePending, DoTakeTriggered, DoCreatePod, DoDeletePod, Channel, PatchProwJob;
    PatchUpToDate(Example(1, Triggered), Started(1));
    assert C8().work[1 := Done] == C9().work;
  }

  lemma BSafe()
    ensures SafeInit(Unlimited, 1, B0())
  {
    assert InState(B0().jobs, Pending) == {};
  }

  /** A Sync that finds a waiting job with a pod adopts it and admits another one. */
  lemma CTail() returns (states: seq<State>, events: seq<Event>)
    ensures SafeRun(states, events, C1(), C9())
  {
    CList();
    CStart();
    CAdopt();
    CAdmit();
    CPatchAdopted();
    CCreate();
    CPatchAdmitted();
    Stop(C9());
    hide *;
    Cons(C8(), PatchJob(1, Applied), [C9()], [], C9(), C9());
    states, events := [C8()] + [C9()], [PatchJob(1, Applied)] + [];
    Cons(C7(), CreatePod(1, Created(""), 5), states, events, C8(), C9());
    states, events := [C7()] + states, [CreatePod(1, Created(""), 5)] + events;
    Cons(C6(), PatchJob(0, Applied), states, events, C7(), C9());
    states, events := [C6()] + states, [PatchJob(0, Applied)] + events;
    Cons(C5(), TakeTriggered(1, 5), states, events, C6(), C9());
    states, events := [C5()] + states, [TakeTriggered(1, 5)] + events;
    Cons(C4(), TakeTriggered(0, 5), states, events, C5(), C9());
    states, events := [C4()] + states, [TakeTriggered(0, 5)] + events;
    Cons(C3(), StartTriggered, states, events, C4(), C9());
    states, events := [C3()] + states, [StartTriggered] + events;
    Cons(C2(), StartPending, states, events, C3(), C9());
    states, events := [C2()] + states, [StartPending] + events;
    Cons(C1(), ListPods({}), states, events, C2(), C9());
    states, events := [C1()] + states, [ListPods({})] + events;
  }

  /** From the end of the first Sync on. */
  lemma BTail(stage: Stage) returns (states: seq<State>, events: seq<Event>)
    ensures SafeRun(states, events, B7(stage), C9())
  {
    BFinish(stage);
    hide *;
    states, events := CTail();
    Cons(B8(stage), ListJobs, states, events, C1(), C9());
    states, events := [B8(stage)] + states, [ListJobs] + events;
    Cons(B7(stage), NewJob(Example(1, Triggered)), states, events, B8(stage), C9());
    states, events := [B7(stage)] + states, [NewJob(Example(1, Triggered))] + events;
  }

  lemma BTailDone() returns (states: seq<State>, events: seq<Event>)
    ensures SafeRun(states, events, B6(Done), C9())
  {
    BFinish(Done);
    hide *;
    states, events := BTail(Done);
    Cons(B6(Done), FinishSync, states, events, B7(Done), C9());
    states, events := [B6(Done)] + states, [FinishSync] + events;
  }

  /** What happens first. */
  lemma BHead(loss: Loss, rest: seq<State>, restEvents: seq<Event>, at: nat) returns (states: seq<State>,
              events: seq<Event>)
    requires LossyRun(rest, restEvents, at, loss, B5(), C9())
    ensures LossyRun(states, events, at + 5, loss, B0(), C9())
  {
    BStart();
    BAdmit();
    hide *;
    states, events := rest, restEvents;
    ConsLossy(B4(), TakeTriggered(0, 5), states, events, at, loss, B5(), C9());
    states, events := [B4()] + states, [TakeTriggered(0, 5)] + events;
    ConsLossy(B3(), StartTriggered, states, events, at + 1, loss, B4(), C9());
    states, events := [B3()] + states, [StartTriggered] + events;
    ConsLossy(B2(), StartPending, states, events, at + 2, loss, B3(), C9());
    states, events := [B2()] + states, [StartPending] + events;
    ConsLossy(B1(), ListPods({}), states, events, at + 3, loss, B2(), C9());
    states, events := [B1()] + states, [ListPods({})] + events;
    ConsLossy(B0(), ListJobs, states, events, at + 4, loss, B1(), C9());
    states, events := [B0()] + states, [ListJobs] + events;
  }

  lemma BRun(loss: Loss) returns (states: seq<State>, events: seq<Event>, k: nat)
    requires loss.CrashedBetween? || loss.LostCreation? || loss.LostAdmission?
    ensures LossyRun(states, events, k, loss, B0(), C9())
  {
    BCreate();
    BCrash();
    BReject();
    hide *;
    var made := B6(Patching(Started(0)));
    match loss
    case LostCreation =>
      states, events := BTailDone();
      Lose(B5(), CreatePod(0, CreatedUnnoticed(""), 5), loss, states, events, B6(Done), C9());
      states, events := BHead(loss, [B5()] + states, [CreatePod(0, CreatedUnnoticed(""), 5)] + events, 0);
      k := 5;
    case LostAdmission =>
      states, events := BTailDone();
      Lose(made, PatchJob(0, Rejected), loss, states, events, B6(Done), C9());
      states, events := [made] + states, [PatchJob(0, Rejected)] + events;
      ConsLossy(B5(), CreatePod(0, Created(""), 5), states, events, 0, loss, made, C9());
      states, events := BHead(loss, [B5()] + states, [CreatePod(0, Created(""), 5)] + events, 1);
      k := 6;
    case CrashedBetween =>
      states, events := BTail(Patching(Started(0)));
      Lose(made, Crash, loss, states, events, B7(Patching(Started(0))), C9());
      states, events := [made] + states, [Crash] + events;
      ConsLossy(B5(), CreatePod(0, Created(""), 5), states, events, 0, loss, made, C9());
      states, events := BHead(loss, [B5()] + states, [CreatePod(0, Created(""), 5)] + events, 1);
      k := 6;
    case _ =>
  }

  /** A run under global limit 1, within the limit at its start, whose only loss is that of event `k`,
      and in which two jobs end up pending. */
  ghost predicate ExceedsLimit(states: seq<State>, events: seq<Event>, k: nat, loss: Loss) {
    && Run(Global1, states, events) && Global1.maxConcurrency == 1 && SafeInit(Unlimited, 1, states[0])
    && k < |events| && LossOf(states[k], events[k]) == Some(loss)
    && (forall i :: 0 <= i < |events| && i != k ==> Harmless(Unlimited, states[i], events[i]))
    && |InState(states[|events|].jobs, Pending)| == 2
  }

  lemma Conclude(states: seq<State>, events: seq<Event>, k: nat, loss: Loss, first: State, final: State)
    requires LossyRun(states, events, k, loss, first, final)
    requires SafeInit(Unlimited, 1, first) && InState(final.jobs, Pending) == {0, 1}
    ensures ExceedsLimit(states, events, k, loss)
  {
    hide Run, SafeInit, Harmless, LossOf, InState;
  }

  /** Each kind of loss alone exceeds the limit in some run. */
  lemma EachLossExceedsLimit(loss: Loss) returns (states: seq<State>, events: seq<Event>, k: nat)
    ensures ExceedsLimit(states, events, k, loss)
  {
    VerdictLost();
    DeletionFailed();
    hide *;
    match loss
    case LostVerdict =>
      states, events := ARun(Succeeded, Patching(Verdict(Success)), PatchJob(0, Rejected), loss);
      k := 4;
      ASafe(Succeeded);
      APatch(Succeeded);
      Conclude(states, events, k, loss, A0(Succeeded), A9(Succeeded));
    case FailedDeletion =>
      states, events := ARun(Overdue, Deleting(Some(Verdict(Aborted))), DeletePod(0, false, false), loss);
      k := 4;
      ASafe(Overdue);
      APatch(Overdue);
      Conclude(states, events, k, loss, A0(Overdue), A9(Overdue));
    case _ =>
      states, events, k := BRun(loss);
      BSafe();
      CPatchAdmitted();
      Conclude(states, events, k, loss, B0(), C9());
  }
}
