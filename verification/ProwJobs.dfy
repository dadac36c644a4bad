/** The ProwJob resource: the part of its specification and status that the plank controller and
    the aborter read or write. */
module ProwJobs {
  import opened Text

  /** ProwJobs, and the pods that run them, are named by UUIDs. */
  type Name = nat

  datatype JobState = Triggered | Pending | Success | Failure | Aborted | Error

  datatype JobType = Presubmit | Postsubmit | Periodic | Batch

  /** A repository with a base ref and the pull requests merged into it, by number. */
  datatype Refs = Refs(org: string, repo: string, baseRef: string, pulls: seq<int>)

  datatype Spec = Spec(
    jobType: JobType, job: string, refs: Option<Refs>, extraRefs: seq<Refs>,
    maxConcurrency: int, errorOnEviction: bool)

  datatype Status = Status(
    state: JobState, start: int, completion: Option<int>, pendingTime: Option<int>,
    buildId: string, podName: Option<Name>, prevReports: map<string, JobState>)

  datatype ProwJob = ProwJob(name: Name, creation: int, spec: Spec, status: Status)
  {
    predicate Complete() { status.completion.Some? }
  }

  predicate Terminal(s: JobState) { !s.Triggered? && !s.Pending? }

  /** A ProwJob as it is created: triggered, not complete, no pod. */
  function NewProwJob(name: Name, spec: Spec, now: int): ProwJob {
    ProwJob(name, now, spec, Status(Triggered, now, None, None, "", None, map[]))
  }

  /** SetComplete together with the final state. */
  function Finished(pj: ProwJob, state: JobState, now: int): ProwJob {
    pj.(status := pj.status.(state := state, completion := Some(now)))
  }

  const GitHubReporterName := "github-reporter"

  function Abort(pj: ProwJob, now: int): ProwJob {
    var done := Finished(pj, Aborted, now);
    done.(status := done.status.(prevReports := pj.status.prevReports[GitHubReporterName := Aborted]))
  }

  /** The value a JSON merge patch made from `src` and `dst` leaves in a field now holding `cur`. */
  function MergeField<T(==)>(src: T, dst: T, cur: T): T {
    if src == dst then cur else dst
  }

  function MergeMap<K, V(==)>(src: map<K, V>, dst: map<K, V>, cur: map<K, V>): map<K, V> {
    (cur - (src.Keys - dst.Keys)) + (map k | k in dst && (k !in src || src[k] != dst[k]) :: dst[k])
  }

  /** The API server applies to the object it holds the difference between two local copies. */
  function PatchProwJob(src: ProwJob, dst: ProwJob, cur: ProwJob): (r: ProwJob) {
    cur.(status := Status(
      MergeField(src.status.state, dst.status.state, cur.status.state),
      MergeField(src.status.start, dst.status.start, cur.status.start),
      MergeField(src.status.completion, dst.status.completion, cur.status.completion),
      MergeField(src.status.pendingTime, dst.status.pendingTime, cur.status.pendingTime),
      MergeField(src.status.buildId, dst.status.buildId, cur.status.buildId),
      MergeField(src.status.podName, dst.status.podName, cur.status.podName),
      MergeMap(src.status.prevReports, dst.status.prevReports, cur.status.prevReports)))
  }

  /** What a merge patch does to the reports: those that the two copies disagree on become as in `dst`, and all
      others stay as they are. */
  lemma ReportsMerge(src: ProwJob, dst: ProwJob, cur: ProwJob, k: string)
    ensures var s, d, c := src.status.prevReports, dst.status.prevReports, cur.status.prevReports;
      var m := PatchProwJob(src, dst, cur).status.prevReports;
      var agree := (k in s <==> k in d) && (k in s && k in d ==> s[k] == d[k]);
      if agree then (k in m <==> k in c) && (k in m && k in c ==> m[k] == c[k])
      else (k in m <==> k in d) && (k in m && k in d ==> m[k] == d[k])
  {}

  /** An aborted job is complete, is reported as aborted, and is otherwise as it was. */
  lemma AbortMeans(pj: ProwJob, now: int)
    ensures var done := Abort(pj, now);
      && done.name == pj.name && done.creation == pj.creation && done.spec == pj.spec
      && done.status.state == Aborted && done.status.completion == Some(now)
      && done.status.start == pj.status.start && done.status.pendingTime == pj.status.pendingTime
      && done.status.buildId == pj.status.buildId && done.status.podName == pj.status.podName
      && done.status.prevReports.Keys == pj.status.prevReports.Keys + {"github-reporter"}
      && forall k :: k in done.status.prevReports ==>
           done.status.prevReports[k] == if k == "github-reporter" then Aborted else pj.status.prevReports[k]
  {}

  ghost predicate SameIdentity(a: ProwJob, b: ProwJob) {
    a.name == b.name && a.creation == b.creation && a.spec == b.spec
  }

  /** A patch against an up-to-date copy installs exactly the new status. */
  lemma PatchUpToDate(src: ProwJob, dst: ProwJob)
    requires SameIdentity(src, dst)
    ensures PatchProwJob(src, dst, src) == dst
  {
    assert MergeMap(src.status.prevReports, dst.status.prevReports, src.status.prevReports)
        == dst.status.prevReports;
  }
}
