/** The controller's shared fields with the critical sections that touch them, and what admission
    does to a queue of waiting jobs in every order in which the workers may serve it. */
module PlankAdmission {
  import opened ProwJobs
  import opened Plank

  // The controller object.

  ghost predicate DistinctNames(pjs: seq<ProwJob>) {
    forall i, j :: 0 <= i < j < |pjs| ==> pjs[i].name != pjs[j].name
  }

  ghost function ByName(pjs: seq<ProwJob>): map<Name, ProwJob> {
    if pjs == [] then map[]
    else var last := pjs[|pjs| - 1]; ByName(pjs[..|pjs| - 1])[last.name := last]
  }

  lemma {:induction false} ByNameKeys(pjs: seq<ProwJob>)
    ensures forall n :: n in ByName(pjs) <==> exists i :: 0 <= i < |pjs| && pjs[i].name == n
  {
    if pjs != [] {
      var front := pjs[..|pjs| - 1];
      ByNameKeys(front);
      forall n | n in ByName(front)
        ensures exists i :: 0 <= i < |pjs| && pjs[i].name == n
      {
        var i :| 0 <= i < |front| && front[i].name == n;
        assert pjs[i].name == n;
      }
      forall i | 0 <= i < |pjs|
        ensures pjs[i].name in ByName(pjs)
      {
        if i < |front| {
          assert front[i].name == pjs[i].name;
        }
      }
    }
  }

  predicate IsOlder(q: ProwJob, pj: ProwJob) {
    q.status.state.Triggered? && q.spec.job == pj.spec.job && q.creation < pj.creation
  }

  lemma OlderOneMore(pjs: seq<ProwJob>, i: nat, pj: ProwJob)
    requires DistinctNames(pjs) && i < |pjs|
    ensures |Older(ByName(pjs[..i + 1]), pj)|
         == |Older(ByName(pjs[..i]), pj)| + if IsOlder(pjs[i], pj) then 1 else 0
  {
    ByNameKeys(pjs[..i]);
    assert pjs[..i + 1][..i] == pjs[..i];
    var before, after := ByName(pjs[..i]), ByName(pjs[..i + 1]);
    assert after == before[pjs[i].name := pjs[i]];
    assert pjs[i].name !in before;
    hide ByName, DistinctNames;
    if IsOlder(pjs[i], pj) {
      assert Older(after, pj) == Older(before, pj) + {pjs[i].name};
    } else {
      assert Older(after, pj) == Older(before, pj);
    }
  }

  class Controller {
    const maxConcurrency: int
    var pendingJobs: map<string, int>
    var pjs: seq<ProwJob>

    constructor (maxConcurrency: int)
      ensures this.maxConcurrency == maxConcurrency && pendingJobs == map[] && pjs == []
    {
      this.maxConcurrency := maxConcurrency;
      pendingJobs := map[];
      pjs := [];
    }

    method IncrementNumPendingJobs(job: string)
      modifies this`pendingJobs
      ensures pendingJobs == Increment(old(pendingJobs), job)
    {
      pendingJobs := pendingJobs[job := (if job in pendingJobs then pendingJobs[job] else 0) + 1];
    }

    method TotalPending() returns (running: int)
      ensures running == Sum(pendingJobs)
    {
      running := 0;
      var rest := pendingJobs;
      while rest != map[]
        invariant running + Sum(rest) == Sum(pendingJobs)
        decreases |rest|
      {
        var job :| job in rest;
        SumRemove(rest, job);
        running := running + rest[job];
        rest := rest - {job};
      }
    }

    method OlderMatchingPJs(pj: ProwJob) returns (older: nat)
      requires DistinctNames(pjs)
      ensures older == |Older(ByName(pjs), pj)|
    {
      older := 0;
      for i := 0 to |pjs|
        invariant older == |Older(ByName(pjs[..i]), pj)|
      {
        OlderOneMore(pjs, i, pj);
        if pjs[i].status.state.Triggered? && pjs[i].spec.job == pj.spec.job && pjs[i].creation < pj.creation {
          older := older + 1;
        }
      }
      assert pjs[..|pjs|] == pjs;
    }

    /** Decides, and counts the job it admits, in one critical section. */
    method CanExecuteConcurrently(pj: ProwJob) returns (ok: bool)
      requires DistinctNames(pjs)
      modifies this`pendingJobs
      ensures ok <==> Admits(maxConcurrency, old(pendingJobs), ByName(pjs), pj)
      ensures pendingJobs == if ok then Increment(old(pendingJobs), pj.spec.job) else old(pendingJobs)
    {
      if maxConcurrency > 0 {
        var running := TotalPending();
        if running >= maxConcurrency {
          return false;
        }
      }
      if pj.spec.maxConcurrency == 0 {
        IncrementNumPendingJobs(pj.spec.job);
        return true;
      }
      var numPending := if pj.spec.job in pendingJobs then pendingJobs[pj.spec.job] else 0;
      if numPending >= pj.spec.maxConcurrency {
        return false;
      }
      var olderMatchingPJs := OlderMatchingPJs(pj);
      if numPending + olderMatchingPJs >= pj.spec.maxConcurrency {
        return false;
      }
      IncrementNumPendingJobs(pj.spec.job);
      return true;
    }
  }

  // PartitionActive.

  function Select(pjs: seq<ProwJob>, state: JobState): (r: seq<ProwJob>)
    ensures forall pj :: pj in r <==> pj in pjs && pj.status.state == state
  {
    if pjs == [] then []
    else
      var last := pjs[|pjs| - 1];
      Select(pjs[..|pjs| - 1], state) + if last.status.state == state then [last] else []
  }

  /** Two channels, in list order; jobs in any other state are in neither. */
  method PartitionActive(pjs: seq<ProwJob>) returns (pending: seq<ProwJob>, triggered: seq<ProwJob>)
    ensures pending == Select(pjs, Pending) && triggered == Select(pjs, Triggered)
  {
    pending, triggered := [], [];
    for i := 0 to |pjs|
      invariant pending == Select(pjs[..i], Pending) && triggered == Select(pjs[..i], Triggered)
    {
      assert pjs[..i + 1][..i] == pjs[..i];
      match pjs[i].status.state
      case Pending => pending := pending + [pjs[i]];
      case Triggered => triggered := triggered + [pjs[i]];
      case _ =>
    }
    assert pjs[..|pjs|] == pjs;
  }

  lemma {:induction false} ByNameLookup(pjs: seq<ProwJob>, i: nat)
    requires DistinctNames(pjs) && i < |pjs|
    ensures pjs[i].name in ByName(pjs) && ByName(pjs)[pjs[i].name] == pjs[i]
  {
    var front := pjs[..|pjs| - 1];
    if i < |front| {
      ByNameLookup(front, i);
      assert front[i] == pjs[i];
    }
  }

  /** The channels hold each job of the snapshot that is in their state, under its name. */
  lemma ChannelsHoldTheSnapshot(pjs: seq<ProwJob>, state: JobState)
    requires DistinctNames(pjs)
    ensures InState(ByName(pjs), state) == set pj | pj in Select(pjs, state) :: pj.name
  {
    ByNameKeys(pjs);
    forall i | 0 <= i < |pjs|
      ensures pjs[i].name in ByName(pjs) && ByName(pjs)[pjs[i].name] == pjs[i]
    {
      ByNameLookup(pjs, i);
    }
    forall n | n in InState(ByName(pjs), state)
      ensures n in set pj | pj in Select(pjs, state) :: pj.name
    {
      var i :| 0 <= i < |pjs| && pjs[i].name == n;
      assert pjs[i] in Select(pjs, state);
    }
  }

  // A queue of waiting jobs.

  datatype Served = Served(pendingJobs: map<string, int>, admitted: set<Name>)

  /** The workers have asked, one after the other, for the first `k` jobs of `order`; there is no
      global limit. */
  ghost function Serve(pendingJobs: map<string, int>, pjs: map<Name, ProwJob>, order: seq<Name>, k: nat): Served
    requires k <= |order| && Queue(pjs, order)
  {
    if k == 0 then Served(pendingJobs, {})
    else
      var before := Serve(pendingJobs, pjs, order, k - 1);
      var n := order[k - 1];
      if Admits(0, before.pendingJobs, pjs, pjs[n]) then
        Served(Increment(before.pendingJobs, pjs[n].spec.job), before.admitted + {n})
      else before
  }

  /** Distinct waiting jobs, of any names, in any order. */
  ghost predicate Queue(pjs: map<Name, ProwJob>, order: seq<Name>) {
    && (forall i :: 0 <= i < |order| ==> order[i] in pjs && pjs[order[i]].status.state.Triggered?)
    && (forall i, j :: 0 <= i < j < |order| ==> order[i] != order[j])
  }

  ghost predicate SharedLimit(pjs: map<Name, ProwJob>, order: seq<Name>, job: string, limit: int)
    requires Queue(pjs, order)
  {
    forall i :: 0 <= i < |order| && pjs[order[i]].spec.job == job ==> pjs[order[i]].spec.maxConcurrency == limit
  }

  lemma {:induction false} AdmittedWereQueued(pendingJobs: map<string, int>, pjs: map<Name, ProwJob>,
                                              order: seq<Name>, k: nat)
    requires Queue(pjs, order) && k <= |order|
    ensures Serve(pendingJobs, pjs, order, k).admitted <= set i | 0 <= i < k :: order[i]
  {
    if k > 0 {
      AdmittedWereQueued(pendingJobs, pjs, order, k - 1);
    }
  }

  /** While the oldest job of a name has not asked yet, there is room for it: each of its juniors is
      admitted only where one more job would still fit. */
  lemma {:induction false} RoomForTheOldest(
    pendingJobs: map<string, int>, pjs: map<Name, ProwJob>, order: seq<Name>, k: nat, oldest: Name, limit: int)
    requires Queue(pjs, order) && k <= |order| && oldest in pjs && pjs[oldest].status.state.Triggered?
    requires var job := pjs[oldest].spec.job;
      SharedLimit(pjs, order, job, limit) && limit != 0 && Num(pendingJobs, job) < limit
    requires forall i :: 0 <= i < k && pjs[order[i]].spec.job == pjs[oldest].spec.job ==>
      pjs[oldest].creation < pjs[order[i]].creation
    ensures Num(Serve(pendingJobs, pjs, order, k).pendingJobs, pjs[oldest].spec.job) < limit
  {
    if k > 0 {
      RoomForTheOldest(pendingJobs, pjs, order, k - 1, oldest, limit);
      var n := order[k - 1];
      if pjs[n].spec.job == pjs[oldest].spec.job {
        assert oldest in Older(pjs, pjs[n]);
        assert |Older(pjs, pjs[n])| >= 1;
      }
    }
  }

  lemma {:induction false} AdmittedStays(pendingJobs: map<string, int>, pjs: map<Name, ProwJob>, order: seq<Name>,
                                         i: nat, k: nat)
    requires Queue(pjs, order) && i <= k <= |order|
    ensures Serve(pendingJobs, pjs, order, i).admitted <= Serve(pendingJobs, pjs, order, k).admitted
    decreases k
  {
    if i < k {
      AdmittedStays(pendingJobs, pjs, order, i, k - 1);
    }
  }

  /** Every order of service admits the oldest waiting job of a name that has room. */
  lemma OldestIsAdmitted(
    pendingJobs: map<string, int>, pjs: map<Name, ProwJob>, order: seq<Name>, i: nat, limit: int)
    requires Queue(pjs, order) && i < |order|
    requires var job := pjs[order[i]].spec.job;
      SharedLimit(pjs, order, job, limit) && limit != 0 && Num(pendingJobs, job) < limit
    requires Older(pjs, pjs[order[i]]) == {}
    requires forall k :: 0 <= k < |order| && k != i && pjs[order[k]].spec.job == pjs[order[i]].spec.job ==>
      pjs[order[k]].creation != pjs[order[i]].creation
    ensures order[i] in Serve(pendingJobs, pjs, order, |order|).admitted
  {
    var oldest := order[i];
    forall k | 0 <= k < i && pjs[order[k]].spec.job == pjs[oldest].spec.job
      ensures pjs[oldest].creation < pjs[order[k]].creation
    {
      assert order[k] !in Older(pjs, pjs[oldest]);
    }
    RoomForTheOldest(pendingJobs, pjs, order, i, oldest, limit);
    assert oldest in Serve(pendingJobs, pjs, order, i + 1).admitted;
    AdmittedStays(pendingJobs, pjs, order, i + 1, |order|);
  }

  /** No order of service admits a job that has as many older waiting jobs as there are free places,
      and together the admitted jobs of a name never exceed its limit. */
  lemma {:induction false} JuniorsWait(
    pendingJobs: map<string, int>, pjs: map<Name, ProwJob>, order: seq<Name>, k: nat, job: string, limit: int)
    requires Queue(pjs, order) && k <= |order| && SharedLimit(pjs, order, job, limit) && limit != 0
    requires Num(pendingJobs, job) <= limit
    ensures var after := Serve(pendingJobs, pjs, order, k);
      && Num(pendingJobs, job) <= Num(after.pendingJobs, job) <= limit
      && forall n :: n in after.admitted && n in pjs && pjs[n].spec.job == job ==>
           |Older(pjs, pjs[n])| < limit - Num(pendingJobs, job)
  {
    if k > 0 {
      JuniorsWait(pendingJobs, pjs, order, k - 1, job, limit);
    }
  }

  lemma {:induction false} PrefixSize(order: seq<Name>, k: nat)
    requires k <= |order| && forall i, j :: 0 <= i < j < |order| ==> order[i] != order[j]
    ensures |set i | 0 <= i < k :: order[i]| == k
  {
    if k > 0 {
      PrefixSize(order, k - 1);
      assert (set i | 0 <= i < k :: order[i]) == (set i | 0 <= i < k - 1 :: order[i]) + {order[k - 1]};
    }
  }

  /** All the waiting jobs of one name, oldest first, with one limit. */
  ghost predicate OldestFirst(pjs: map<Name, ProwJob>, order: seq<Name>, job: string, limit: int) {
    && Queue(pjs, order) && SharedLimit(pjs, order, job, limit)
    && (forall n :: n in pjs && pjs[n].status.state.Triggered? && pjs[n].spec.job == job <==> n in order)
    && (forall i, j :: 0 <= i < j < |order| ==> pjs[order[i]].creation < pjs[order[j]].creation)
  }

  lemma OlderAreAhead(pjs: map<Name, ProwJob>, order: seq<Name>, job: string, limit: int, k: nat)
    requires OldestFirst(pjs, order, job, limit) && k < |order|
    ensures |Older(pjs, pjs[order[k]])| == k && pjs[order[k]].spec.job == job
  {
    PrefixSize(order, k);
    assert order[k] in order;
    assert Older(pjs, pjs[order[k]]) == set i | 0 <= i < k :: order[i];
  }

  /** The next job in that order. */
  lemma ServeNext(pendingJobs: map<string, int>, pjs: map<Name, ProwJob>, order: seq<Name>, job: string, limit: int,
                  k: nat)
    requires OldestFirst(pjs, order, job, limit) && k < |order| && limit != 0
    ensures var before, after := Serve(pendingJobs, pjs, order, k), Serve(pendingJobs, pjs, order, k + 1);
      var admitted := Num(before.pendingJobs, job) + k < limit;
      && order[k] !in before.admitted
      && after.admitted == (if admitted then before.admitted + {order[k]} else before.admitted)
      && Num(after.pendingJobs, job) == Num(before.pendingJobs, job) + if admitted then 1 else 0
  {
    AdmittedWereQueued(pendingJobs, pjs, order, k);
    OlderAreAhead(pjs, order, job, limit, k);
    hide Older;
  }

  /** After `k` of them have asked, `pending` says how many places are taken. */
  predicate HalfFilled(p: int, limit: int, k: nat, pending: int) {
    if k == 0 || p + 2 * (k - 1) < limit then pending == p + k else 2 * pending >= limit + p
  }

  /** Exactly the first jobs of the order are admitted, those with `p + 2 * i < limit`. */
  ghost predicate EveryOther(order: seq<Name>, p: int, limit: int, k: nat, admitted: set<Name>)
    requires k <= |order|
  {
    forall i :: 0 <= i < k ==> (order[i] in admitted <==> p + 2 * i < limit)
  }

  lemma EveryOtherNext(order: seq<Name>, p: int, limit: int, k: nat, before: set<Name>, after: set<Name>, pending: int)
    requires k < |order| && (forall i, j :: 0 <= i < j < |order| ==> order[i] != order[j])
    requires EveryOther(order, p, limit, k, before) && HalfFilled(p, limit, k, pending) && order[k] !in before
    requires after == if pending + k < limit then before + {order[k]} else before
    ensures EveryOther(order, p, limit, k + 1, after)
    ensures HalfFilled(p, limit, k + 1, pending + if pending + k < limit then 1 else 0)
  {}

  /** What is known of the first `k` jobs of the order. */
  ghost predicate HalfServed(pendingJobs: map<string, int>, pjs: map<Name, ProwJob>, order: seq<Name>, job: string,
                             limit: int, k: nat)
  {
    && Queue(pjs, order) && k <= |order|
    && var p, after := Num(pendingJobs, job), Serve(pendingJobs, pjs, order, k);
       EveryOther(order, p, limit, k, after.admitted) && HalfFilled(p, limit, k, Num(after.pendingJobs, job))
  }

  lemma NoneServed(pendingJobs: map<string, int>, pjs: map<Name, ProwJob>, order: seq<Name>, job: string, limit: int)
    requires OldestFirst(pjs, order, job, limit)
    ensures HalfServed(pendingJobs, pjs, order, job, limit, 0)
  {
    hide Num;
  }

  lemma OneMoreServed(pendingJobs: map<string, int>, pjs: map<Name, ProwJob>, order: seq<Name>, job: string, limit: int,
                      k: nat)
    requires OldestFirst(pjs, order, job, limit) && k < |order| && limit != 0
    requires HalfServed(pendingJobs, pjs, order, job, limit, k)
    ensures HalfServed(pendingJobs, pjs, order, job, limit, k + 1)
  {
    ServeNext(pendingJobs, pjs, order, job, limit, k);
    hide OldestFirst, SharedLimit, Serve, Num, EveryOther, HalfFilled;
    var before, after := Serve(pendingJobs, pjs, order, k), Serve(pendingJobs, pjs, order, k + 1);
    EveryOtherNext(order, Num(pendingJobs, job), limit, k, before.admitted, after.admitted,
                   Num(before.pendingJobs, job));
  }

  /** Served oldest first, the order Sync's sort asks for, only every other free place is filled: job
      number `i` is admitted exactly when `pending + 2 * i < limit`, since it counts both the jobs
      just admitted and, from the snapshot, the same jobs as still waiting. */
  lemma {:induction false} OldestFirstFillsHalf(
    pendingJobs: map<string, int>, pjs: map<Name, ProwJob>, order: seq<Name>, job: string, limit: int, k: nat)
    requires OldestFirst(pjs, order, job, limit) && k <= |order| && limit != 0
    ensures HalfServed(pendingJobs, pjs, order, job, limit, k)
    decreases k
  {
    hide *;
    if k > 0 {
      OldestFirstFillsHalf(pendingJobs, pjs, order, job, limit, k - 1);
      OneMoreServed(pendingJobs, pjs, order, job, limit, k - 1);
    } else {
      NoneServed(pendingJobs, pjs, order, job, limit);
    }
  }
}
