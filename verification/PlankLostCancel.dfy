/** A cancellation takes effect and its reply is lost: the pass ends, Sync goes on with the copy it has,
    and the worker's patch is merged into the aborted job. */
module PlankLostCancel {
  import opened Text
  import opened ProwJobs
  import opened Plank
  import opened PlankLifecycle
  import opened PlankConcurrency
  import opened PlankLosses

  /** Job 1, started later, supersedes job 0, which is in `state`. */
  function Jobs(state: JobState): map<Name, ProwJob> { map[0 := Example(0, state), 1 := Example(1, Triggered)] }

  function Aborted0(state: JobState): ProwJob { Abort(Example(0, state), 5) }

  function D(state: JobState, job0: ProwJob, pods: map<Name, Pod>, round: Round, pm: map<Name, Pod>,
             stale: set<Name>): State {
    State(Jobs(state)[0 := job0], pods, round, Jobs(state), pm, map[], map[], {}, stale)
  }

  function D0(state: JobState, pods: map<Name, Pod>): State {
    State(Jobs(state), pods, Idle, map[], map[], map[], map[], {}, {})
  }
  function D1(state: JobState, pods: map<Name, Pod>): State { D(state, Example(0, state), pods, Listed, map[], {}) }
  function D2(state: JobState, pods: map<Name,
              Pod>): State { D(state, Example(0, state), pods, Deduping(false), pods, {}) }
  function D3(state: JobState, pods: map<Name,
              Pod>): State { D(state, Aborted0(state), pods, Deduping(true), pods, {0}) }

  lemma DList(state: JobState, pods: map<Name, Pod>)
    ensures SafeStep(D0(state, pods), ListJobs, D1(state, pods))
    ensures SafeStep(D1(state, pods), ListPods({}), D2(state, pods))
  {
    hide DoCancel, DoTakePending, DoTakeTriggered, DoCreatePod, DoDeletePod, DoPatchJob, Channel;
    assert pods - {} == pods;
    assert Jobs(state)[0 := Example(0, state)] == Jobs(state);
  }

  lemma DCancel(state: JobState, pods: map<Name, Pod>)
    ensures SafeStep(D2(state, pods), Cancel(0, 1, false, Unnoticed, 5), D3(state, pods))
  {
    hide DoTakePending, DoTakeTriggered, DoCreatePod, DoDeletePod, DoPatchJob, Channel, PatchProwJob, Aborter.Identity;
    PatchUpToDate(Example(0, state), Aborted0(state));
    assert Jobs(state)[0 := Example(0, state)][0 := Aborted0(state)] == Jobs(state)[0 := Aborted0(state)];
  }

  /** A run from the start to just after the cancellation, and on from there. */
  lemma DHead(state: JobState, pods: map<Name, Pod>, rest: seq<State>, restEvents: seq<Event>, final: State)
    returns (states: seq<State>, events: seq<Event>)
    requires SafeRun(rest, restEvents, D3(state, pods), final)
    ensures SafeRun(states, events, D0(state, pods), final)
    ensures |events| == |restEvents| + 3 && |states| == |events| + 1 && states[3] == D3(state, pods)
    ensures events[2] == Cancel(0, 1, false, Unnoticed, 5)
  {
    DList(state, pods);
    DCancel(state, pods);
    SafeRunShape(rest, restEvents, D3(state, pods), final);
    hide *;
    Cons(D2(state, pods), Cancel(0, 1, false, Unnoticed, 5), rest, restEvents, D3(state, pods), final);
    states, events := [D2(state, pods)] + rest, [Cancel(0, 1, false, Unnoticed, 5)] + restEvents;
    Cons(D1(state, pods), ListPods({}), states, events, D2(state, pods), final);
    states, events := [D1(state, pods)] + states, [ListPods({})] + events;
    Cons(D0(state, pods), ListJobs, states, events, D1(state, pods), final);
    states, events := [D0(state, pods)] + states, [ListJobs] + events;
  }

  lemma SafeRunShape(states: seq<State>, events: seq<Event>, first: State, final: State)
    requires SafeRun(states, events, first, final)
    ensures |states| == |events| + 1 && states[0] == first
  {}

  // Job 0 is pending and its pod has succeeded.

  const Ran: map<Name, Pod> := map[0 := Succeeded]

  function E4(stage: Stage): State { D3(Pending, Ran).(round := PendingRound, work := map[0 := stage]) }
  function Success0(): ProwJob { Finished(Example(0, Pending), Success, 6) }
  function Overwritten(): ProwJob { PatchProwJob(Example(0, Pending), Success0(), Aborted0(Pending)) }
  function E6(): State { E4(Done).(jobs := Jobs(Pending)[0 := Overwritten()]) }

  lemma EStart()
    ensures SafeStep(D3(Pending, Ran), StartPending, E4(Queued))
  {
    hide DoCancel, DoTakePending, DoTakeTriggered, DoCreatePod, DoDeletePod, DoPatchJob;
    assert Channel(Jobs(Pending), Pending) == map[0 := Queued];
  }

  lemma ETake()
    ensures SafeStep(E4(Queued), TakePending(0, 6), E4(Patching(Success0())))
  {
    hide DoCancel, DoTakeTriggered, DoCreatePod, DoDeletePod, DoPatchJob, Channel;
    assert E4(Queued).work[0 := Patching(Success0())] == E4(Patching(Success0())).work;
  }

  lemma EPatch()
    ensures SafeStep(E4(Patching(Success0())), PatchJob(0, Applied), E6())
  {
    hide DoCancel, DoTakePending, DoTakeTriggered, DoCreatePod, DoDeletePod, Channel, PatchProwJob;
    assert E4(Patching(Success0())).work[0 := Done] == E4(Done).work;
    assert Jobs(Pending)[0 := Aborted0(Pending)][0 := Overwritten()] == Jobs(Pending)[0 := Overwritten()];
  }

  lemma ERun() returns (states: seq<State>, events: seq<Event>)
    ensures SafeRun(states, events, D0(Pending, Ran), E6()) && |events| == 6 && |states| == 7
    ensures states[3] == D3(Pending, Ran)
    ensures events[2] == Cancel(0, 1, false, Unnoticed, 5)
  {
    EStart();
    ETake();
    EPatch();
    Stop(E6());
    hide *;
    Cons(E4(Patching(Success0())), PatchJob(0, Applied), [E6()], [], E6(), E6());
    states, events := [E4(Patching(Success0()))] + [E6()], [PatchJob(0, Applied)] + [];
    Cons(E4(Queued), TakePending(0, 6), states, events, E4(Patching(Success0())), E6());
    states, events := [E4(Queued)] + states, [TakePending(0, 6)] + events;
    Cons(D3(Pending, Ran), StartPending, states, events, E4(Queued), E6());
    states, events := DHead(Pending, Ran, [D3(Pending, Ran)] + states, [StartPending] + events, E6());
  }

  lemma EOutcome()
    ensures D0(Pending, Ran).round.Idle? && Consistent(Example(0, Pending))
    ensures D0(Pending, Ran).jobs[0] == Example(0, Pending)
    ensures 0 in D3(Pending, Ran).jobs && 0 in E6().jobs
    ensures D3(Pending, Ran).jobs[0].status.state == Aborted && D3(Pending, Ran).jobs[0].status.completion == Some(5)
    ensures E6().jobs[0].status.state == Success && E6().jobs[0].status.completion == Some(6)
  {}

  /** A job that has been aborted is recorded as successful, with another completion time. */
  lemma TerminalStateIsLeft() returns (states: seq<State>, events: seq<Event>)
    ensures Run(Global1, states, events) && StartsConsistent(states[0], 0) && |events| == 6
    ensures events[2] == Cancel(0, 1, false, Unnoticed, 5)
    ensures 0 in states[3].jobs && states[3].jobs[0].status.state == Aborted
    ensures states[3].jobs[0].status.completion == Some(5)
    ensures 0 in states[6].jobs && states[6].jobs[0].status.state == Success
    ensures states[6].jobs[0].status.completion == Some(6)
  {
    states, events := ERun();
    EOutcome();
    hide Run, D0, D3, E6, Example, Harmless;
    assert states[0] == D0(Pending, Ran) && states[6] == E6();
  }

  // Job 0 is waiting.

  const NoPods: map<Name, Pod> := map[]

  function F4(): State { D3(Triggered, NoPods).(round := PendingRound) }
  function F5(stage: Stage): map<Name, Stage> { map[0 := stage, 1 := Queued] }
  function F6(): State { F4().(round := TriggeredRound, work := F5(Queued)) }
  function F7(stage: Stage, pods: map<Name, Pod>): State {
    F6().(work := F5(stage), pods := pods, pendingJobs := map["job" := 1], counted := {0})
  }
  function Revived(): ProwJob { PatchProwJob(Example(0, Triggered), Started(0), Aborted0(Triggered)) }
  function F9(): State { F7(Done, One).(jobs := Jobs(Triggered)[0 := Revived()]) }

  lemma FStart()
    ensures SafeStep(D3(Triggered, NoPods), StartPending, F4()) && SafeStep(F4(), StartTriggered, F6())
  {
    hide DoCancel, DoTakePending, DoTakeTriggered, DoCreatePod, DoDeletePod, DoPatchJob;
    assert Channel(Jobs(Triggered), Pending) == map[];
    assert Channel(Jobs(Triggered), Triggered) == F5(Queued);
  }

  lemma FTake()
    ensures SafeStep(F6(), TakeTriggered(0, 5), F7(Creating, NoPods))
  {
    hide DoCancel, DoTakePending, DoCreatePod, DoDeletePod, DoPatchJob, Channel, MadePending;
    assert Increment(map[], "job") == map["job" := 1];
    assert F5(Queued)[0 := Creating] == F5(Creating);
  }

  lemma FCreate()
    ensures SafeStep(F7(Creating, NoPods), CreatePod(0, Created(""), 5), F7(Patching(Started(0)), One))
  {
    hide DoCancel, DoTakePending, DoTakeTriggered, DoDeletePod, DoPatchJob, Channel, MadePending;
    assert F5(Creating)[0 := Patching(Started(0))] == F5(Patching(Started(0)));
    assert NoPods[0 := Fresh] == One;
  }

  lemma FPatch()
    ensures SafeStep(F7(Patching(Started(0)), One), PatchJob(0, Applied), F9())
  {
    hide DoCancel, DoTakePending, DoTakeTriggered, DoCreatePod, DoDeletePod, Channel, PatchProwJob;
    assert F5(Patching(Started(0)))[0 := Done] == F5(Done);
    assert Jobs(Triggered)[0 := Aborted0(Triggered)][0 := Revived()] == Jobs(Triggered)[0 := Revived()];
  }

  lemma FRun() returns (states: seq<State>, events: seq<Event>)
    ensures SafeRun(states, events, D0(Triggered, NoPods), F9()) && |events| == 8 && |states| == 9
    ensures states[3] == D3(Triggered, NoPods)
    ensures events[2] == Cancel(0, 1, false, Unnoticed, 5)
  {
    FStart();
    FTake();
    FCreate();
    FPatch();
    Stop(F9());
    hide *;
    var made := F7(Patching(Started(0)), One);
    Cons(made, PatchJob(0, Applied), [F9()], [], F9(), F9());
    states, events := [made] + [F9()], [PatchJob(0, Applied)] + [];
    Cons(F7(Creating, NoPods), CreatePod(0, Created(""), 5), states, events, made, F9());
    states, events := [F7(Creating, NoPods)] + states, [CreatePod(0, Created(""), 5)] + events;
    Cons(F6(), TakeTriggered(0, 5), states, events, F7(Creating, NoPods), F9());
    states, events := [F6()] + states, [TakeTriggered(0, 5)] + events;
    Cons(F4(), StartTriggered, states, events, F6(), F9());
    states, events := [F4()] + states, [StartTriggered] + events;
    Cons(D3(Triggered, NoPods), StartPending, states, events, F4(), F9());
    states, events := DHead(Triggered, NoPods, [D3(Triggered, NoPods)] + states, [StartPending] + events, F9());
  }

  lemma FOutcome()
    ensures D0(Triggered, NoPods).round.Idle? && Consistent(Example(0, Triggered))
    ensures 0 in D3(Triggered, NoPods).jobs && 0 in F9().jobs
    ensures D0(Triggered, NoPods).jobs[0] == Example(0, Triggered)
    ensures D3(Triggered, NoPods).jobs[0].status.state == Aborted
    ensures F9().jobs[0].status.state == Pending && F9().jobs[0].status.completion == Some(5)
  {}

  /** A job that has been aborted is pending again, with its completion time still set. */
  lemma AbortedJobIsRevived() returns (states: seq<State>, events: seq<Event>)
    ensures Run(Global1, states, events) && StartsConsistent(states[0], 0) && |events| == 8
    ensures events[2] == Cancel(0, 1, false, Unnoticed, 5)
    ensures 0 in states[3].jobs && states[3].jobs[0].status.state == Aborted
    ensures 0 in states[8].jobs && states[8].jobs[0].status.state == Pending && !Consistent(states[8].jobs[0])
  {
    states, events := FRun();
    FOutcome();
    hide Run, D0, D3, F9, Example, Harmless;
    assert states[0] == D0(Triggered, NoPods) && states[8] == F9();
  }
}
