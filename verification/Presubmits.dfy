/** config/jobs.go and pjutil/filter.go: which presubmits run for a change, and which contexts that
    makes certain to appear. */
module Presubmits {

  /** A compiled pattern, by identity; its language is given by a matcher. */
  type Re = nat

  type Matcher = (Re, string) -> bool

  datatype Brancher = Brancher(skipBranches: seq<string>, branches: seq<string>, re: Re, reSkip: Re)

  datatype Presubmit = Presubmit(
    name: string, context: string, alwaysRun: bool, optional: bool, skipReport: bool,
    brancher: Brancher, runIfChanged: string, reChanges: Re, trigger: string, re: Re)

  datatype Result<+T> = Ok(value: T) | Err

  // One job.

  predicate BranchRuns(m: Matcher, br: Brancher, branch: string) {
    if br.skipBranches == [] && br.branches == [] then true
    else if br.skipBranches != [] && m(br.reSkip, branch) then false
    else br.branches == [] || m(br.re, branch)
  }

  predicate CouldRun(m: Matcher, ps: Presubmit, branch: string) { BranchRuns(m, ps.brancher, branch) }

  predicate ChangesCouldRun(ps: Presubmit) { ps.runIfChanged != "" }

  predicate RunsAgainst(m: Matcher, ps: Presubmit, changes: seq<string>) {
    exists c :: c in changes && m(ps.reChanges, c)
  }

  method RunsAgainstChanges(m: Matcher, ps: Presubmit, changes: seq<string>) returns (runs: bool)
    ensures runs <==> RunsAgainst(m, ps, changes)
  {
    for i := 0 to |changes|
      invariant forall c :: c in changes[..i] ==> !m(ps.reChanges, c)
    {
      if m(ps.reChanges, changes[i]) {
        return true;
      }
    }
    assert changes[..|changes|] == changes;
    return false;
  }

  /** `changes` is an error when the changed files cannot be fetched; they are asked for only if needed. */
  function ShouldRun(m: Matcher, ps: Presubmit, branch: string, changes: Result<seq<string>>, forced: bool,
                     defaults: bool)
    : Result<bool>
  {
    if !CouldRun(m, ps, branch) then Ok(false)
    else if ps.alwaysRun || forced then Ok(true)
    else if ChangesCouldRun(ps) then
      match changes
      case Err => Err
      case Ok(list) => Ok(RunsAgainst(m, ps, list))
    else Ok(defaults)
  }

  predicate NeedsExplicitTrigger(ps: Presubmit) { !ps.alwaysRun && !ChangesCouldRun(ps) }

  predicate TriggersConditionally(ps: Presubmit) { NeedsExplicitTrigger(ps) || ChangesCouldRun(ps) }

  predicate ContextRequired(ps: Presubmit) { !ps.optional && !ps.skipReport }

  predicate TriggerMatches(m: Matcher, ps: Presubmit, body: string) { ps.trigger != "" && m(ps.re, body) }

  /** A job runs on a branch exactly if the branch is not skipped and, where branches are listed, is listed. */
  lemma RunsOnBranch(m: Matcher, ps: Presubmit, branch: string)
    ensures CouldRun(m, ps, branch) <==>
      && (ps.brancher.skipBranches != [] ==> !m(ps.brancher.reSkip, branch))
      && (ps.brancher.branches != [] ==> m(ps.brancher.re, branch))
  {}

  /** For a job that could run on the branch: it runs if it always runs or is forced to; otherwise a job for
      certain changes runs exactly if one of the changed files is one of them, which is not known if they cannot
      be fetched; and any other job does what the filter says. */
  lemma ShouldRunMeans(m: Matcher, ps: Presubmit, branch: string, changes: Result<seq<string>>, forced: bool,
                       defaults: bool)
    ensures var r, could := ShouldRun(m, ps, branch, changes, forced, defaults), CouldRun(m, ps, branch);
      var certain, conditional := ps.alwaysRun || forced, ps.runIfChanged != "";
      && (r.Err? <==> could && !certain && conditional && changes.Err?)
      && (r == Ok(true) <==>
            could && (certain || (conditional && changes.Ok? && exists c :: c in changes.value && m(ps.reChanges, c))
                      || (!conditional && defaults)))
  {}

  // Filters.

  datatype Verdict = Verdict(matches: bool, forced: bool, defaults: bool)

  type Filter = Presubmit -> Verdict

  function CommandFilter(m: Matcher, body: string): Filter {
    p => Verdict(TriggerMatches(m, p, body), TriggerMatches(m, p, body), true)
  }

  function TestAllFilter(): Filter { p => Verdict(!NeedsExplicitTrigger(p), false, false) }

  function RetestFilter(failed: set<string>, all: set<string>): Filter {
    (p: Presubmit) => Verdict(p.context in failed || (!NeedsExplicitTrigger(p) && p.context !in all), false, true)
  }

  /** The first child filter that matches decides. */
  function AggregateFilter(filters: seq<Filter>): Filter {
    p => FirstMatch(filters, p)
  }

  function FirstMatch(filters: seq<Filter>, p: Presubmit): Verdict {
    if filters == [] then Verdict(false, false, false)
    else if filters[0](p).matches then filters[0](p)
    else FirstMatch(filters[1..], p)
  }

  lemma {:induction false} SomeMatch(filters: seq<Filter>, p: Presubmit, i: nat)
    requires i < |filters| && filters[i](p).matches
    ensures FirstMatch(filters, p).matches
  {
    if !filters[0](p).matches {
      SomeMatch(filters[1..], p, i - 1);
    }
  }

  ghost predicate IsFirst(filters: seq<Filter>, p: Presubmit, i: nat)
    requires i < |filters|
  {
    filters[i](p).matches && forall j :: 0 <= j < i ==> !filters[j](p).matches
  }

  /** The first filter that matches decides; if none does, the job is not considered. */
  lemma {:induction false} FirstDecides(filters: seq<Filter>, p: Presubmit)
    ensures (forall i :: 0 <= i < |filters| ==> !filters[i](p).matches) ==>
      FirstMatch(filters, p) == Verdict(false, false, false)
    ensures forall i :: 0 <= i < |filters| && IsFirst(filters, p, i) ==> FirstMatch(filters, p) == filters[i](p)
  {
    if filters != [] {
      FirstDecides(filters[1..], p);
      assert forall i :: 1 <= i < |filters| ==> filters[1..][i - 1] == filters[i];
      if !filters[0](p).matches {
        forall i | 0 <= i < |filters| && IsFirst(filters, p, i)
          ensures FirstMatch(filters, p) == filters[i](p)
        {
          assert IsFirst(filters[1..], p, i - 1);
        }
      }
    }
  }

  // Splitting the jobs.

  function Decision(f: Filter, m: Matcher, changes: Result<seq<string>>, branch: string, p: Presubmit): Result<bool> {
    var v := f(p);
    ShouldRun(m, p, branch, changes, v.forced, v.defaults)
  }

  predicate Runs(f: Filter, m: Matcher, changes: Result<seq<string>>, branch: string, p: Presubmit) {
    f(p).matches && Decision(f, m, changes, branch, p) == Ok(true)
  }

  predicate Declines(f: Filter, m: Matcher, changes: Result<seq<string>>, branch: string, p: Presubmit) {
    f(p).matches && Decision(f, m, changes, branch, p) == Ok(false)
  }

  predicate Fails(f: Filter, m: Matcher, changes: Result<seq<string>>, branch: string, p: Presubmit) {
    f(p).matches && Decision(f, m, changes, branch, p).Err?
  }

  /** The elements that pass a test, in order. */
  function Keep<T(!new)>(xs: seq<T>, test: T -> bool): (r: seq<T>)
    ensures forall x :: x in r <==> x in xs && test(x)
  {
    if xs == [] then []
    else
      var last := xs[|xs| - 1];
      assert xs == xs[..|xs| - 1] + [last];
      Keep(xs[..|xs| - 1], test) + if test(last) then [last] else []
  }

  lemma KeepNothing<T(!new)>(test: T -> bool)
    ensures Keep([], test) == []
  {}

  lemma KeepOneMore<T(!new)>(xs: seq<T>, test: T -> bool, i: nat)
    requires i < |xs|
    ensures Keep(xs[..i + 1], test) == Keep(xs[..i], test) + if test(xs[i]) then [xs[i]] else []
  {
    assert xs[..i + 1][..i] == xs[..i];
  }

  function RunsTest(f: Filter, m: Matcher, changes: Result<seq<string>>, branch: string): Presubmit -> bool {
    p => Runs(f, m, changes, branch, p)
  }

  function DeclinesTest(f: Filter, m: Matcher, changes: Result<seq<string>>, branch: string): Presubmit -> bool {
    p => Declines(f, m, changes, branch, p)
  }

  predicate Posts(toTrigger: seq<Presubmit>, context: string) {
    exists p :: p in toTrigger && p.context == context
  }

  function UnpostedTest(toTrigger: seq<Presubmit>): Presubmit -> bool {
    (p: Presubmit) => !Posts(toTrigger, p.context)
  }

  /** A job is skipped only if no triggered job writes its context. */
  method DetermineSkippedPresubmits(toTrigger: seq<Presubmit>,
                                    superset: seq<Presubmit>) returns (toSkip: seq<Presubmit>)
    ensures toSkip == Keep(superset, UnpostedTest(toTrigger))
  {
    var triggered: set<string> := {};
    for i := 0 to |toTrigger|
      invariant forall c :: c in triggered <==> Posts(toTrigger[..i], c)
    {
      assert toTrigger[i] in toTrigger[..i + 1];
      assert forall p :: p in toTrigger[..i + 1] <==> p in toTrigger[..i] || p == toTrigger[i];
      ghost var before := triggered;
      triggered := triggered + {toTrigger[i].context};
      forall c
        ensures c in triggered <==> Posts(toTrigger[..i + 1], c)
      {
        if c in before {
          var p :| p in toTrigger[..i] && p.context == c;
          assert p in toTrigger[..i + 1];
        }
      }
    }
    assert toTrigger[..|toTrigger|] == toTrigger;
    toSkip := [];
    for i := 0 to |superset|
      invariant toSkip == Keep(superset[..i], UnpostedTest(toTrigger))
    {
      assert superset[..i + 1][..i] == superset[..i];
      if superset[i].context !in triggered {
        toSkip := toSkip + [superset[i]];
      }
    }
    assert superset[..|superset|] == superset;
  }

  /** The jobs that run, and those that decline unless a running job posts their context. */
  function Partition(f: Filter, m: Matcher, changes: Result<seq<string>>, branch: string, presubmits: seq<Presubmit>)
    : (seq<Presubmit>, seq<Presubmit>)
  {
    var toTrigger := Keep(presubmits, RunsTest(f, m, changes, branch));
    (toTrigger, Keep(Keep(presubmits, DeclinesTest(f, m, changes, branch)), UnpostedTest(toTrigger)))
  }

  /** Triggered, skipped, or an error as soon as one matching job needs changes that cannot be fetched. */
  method FilterPresubmits(f: Filter, m: Matcher, changes: Result<seq<string>>, branch: string,
                          presubmits: seq<Presubmit>)
    returns (r: Result<(seq<Presubmit>, seq<Presubmit>)>)
    ensures r.Err? <==> exists p :: p in presubmits && Fails(f, m, changes, branch, p)
    ensures r.Ok? ==> r.value == Partition(f, m, changes, branch, presubmits)
  {
    hide Keep, ShouldRun;
    var runs, declines := RunsTest(f, m, changes, branch), DeclinesTest(f, m, changes, branch);
    var toTrigger, superset := [], [];
    KeepNothing(runs);
    KeepNothing(declines);
    for i := 0 to |presubmits|
      invariant forall p :: p in presubmits[..i] ==> !Fails(f, m, changes, branch, p)
      invariant toTrigger == Keep(presubmits[..i], runs) && superset == Keep(presubmits[..i], declines)
    {
      var presubmit := presubmits[i];
      KeepOneMore(presubmits, runs, i);
      KeepOneMore(presubmits, declines, i);
      assert presubmits[..i + 1] == presubmits[..i] + [presubmit];
      var v := f(presubmit);
      if !v.matches {
        continue;
      }
      match ShouldRun(m, presubmit, branch, changes, v.forced, v.defaults)
      case Err =>
        assert presubmit in presubmits && Fails(f, m, changes, branch, presubmit);
        return Err;
      case Ok(shouldRun) =>
        if shouldRun {
          toTrigger := toTrigger + [presubmit];
        } else {
          superset := superset + [presubmit];
        }
    }
    assert presubmits[..|presubmits|] == presubmits;
    var toSkip := DetermineSkippedPresubmits(toTrigger, superset);
    return Ok((toTrigger, toSkip));
  }

  // Required contexts.

  datatype Bucket = Required | RequiredIfPresent | Optional | Absent

  function BucketOf(m: Matcher, branch: string, j: Presubmit): Bucket {
    if !CouldRun(m, j, branch) then Absent
    else if !ContextRequired(j) then Optional
    else if TriggersConditionally(j) then RequiredIfPresent
    else Required
  }

  /** A context is always required exactly if its job could run on the branch, is neither optional nor silent,
      always runs and is not for certain changes only; required if present if it runs on request or for
      certain changes; optional if it is optional or silent. */
  lemma BucketMeans(m: Matcher, branch: string, j: Presubmit)
    ensures var could := CouldRun(m, j, branch);
      && (BucketOf(m, branch, j) == Absent <==> !could)
      && (BucketOf(m, branch, j) == Optional <==> could && (j.optional || j.skipReport))
      && (BucketOf(m, branch, j) == RequiredIfPresent <==>
            could && !j.optional && !j.skipReport && (!j.alwaysRun || j.runIfChanged != ""))
      && (BucketOf(m, branch, j) == Required <==>
            could && !j.optional && !j.skipReport && j.alwaysRun && j.runIfChanged == "")
  {}

  /** The contexts of the jobs in one bucket, in order. */
  function Contexts(m: Matcher, branch: string, jobs: seq<Presubmit>, bucket: Bucket): seq<string> {
    if jobs == [] then []
    else
      var j := jobs[|jobs| - 1];
      Contexts(m, branch, jobs[..|jobs| - 1], bucket) + if BucketOf(m, branch, j) == bucket then [j.context] else []
  }

  method BranchRequirements(m: Matcher, branch: string, jobs: seq<Presubmit>)
    returns (required: seq<string>, requiredIfPresent: seq<string>, optional: seq<string>)
    ensures required == Contexts(m, branch, jobs, Required)
    ensures requiredIfPresent == Contexts(m, branch, jobs, RequiredIfPresent)
    ensures optional == Contexts(m, branch, jobs, Optional)
  {
    required, requiredIfPresent, optional := [], [], [];
    for i := 0 to |jobs|
      invariant required == Contexts(m, branch, jobs[..i], Required)
      invariant requiredIfPresent == Contexts(m, branch, jobs[..i], RequiredIfPresent)
      invariant optional == Contexts(m, branch, jobs[..i], Optional)
    {
      var j := jobs[i];
      assert jobs[..i + 1][..i] == jobs[..i];
      if !CouldRun(m, j, branch) {
        continue;
      }
      if ContextRequired(j) {
        if TriggersConditionally(j) {
          requiredIfPresent := requiredIfPresent + [j.context];
        } else {
          required := required + [j.context];
        }
      } else {
        optional := optional + [j.context];
      }
    }
    assert jobs[..|jobs|] == jobs;
  }

  lemma {:induction false} ContextHasJob(m: Matcher, branch: string, jobs: seq<Presubmit>, bucket: Bucket,
                                         context: string)
    ensures context in Contexts(m, branch, jobs, bucket) <==>
      exists j :: j in jobs && j.context == context && BucketOf(m, branch, j) == bucket
  {
    if jobs != [] {
      var front, last := jobs[..|jobs| - 1], jobs[|jobs| - 1];
      ContextHasJob(m, branch, front, bucket, context);
      assert jobs == front + [last];
      if context in Contexts(m, branch, front, bucket) {
        var j :| j in front && j.context == context && BucketOf(m, branch, j) == bucket;
        assert j in jobs;
      } else if last.context == context && BucketOf(m, branch, last) == bucket {
        assert last in jobs;
      }
    }
  }

  /** Every job that could run on the branch puts its context into exactly one bucket. */
  lemma {:induction false} BucketsPartition(m: Matcher, branch: string, jobs: seq<Presubmit>)
    ensures |Contexts(m, branch, jobs, Required)| + |Contexts(m, branch, jobs, RequiredIfPresent)|
          + |Contexts(m, branch, jobs, Optional)| + |Contexts(m, branch, jobs, Absent)| == |jobs|
  {
    if jobs != [] {
      BucketsPartition(m, branch, jobs[..|jobs| - 1]);
    }
  }

  /** When the changed files are known, a filter never fails. */
  lemma KnownChangesNeverFail(f: Filter, m: Matcher, list: seq<string>, branch: string, p: Presubmit)
    ensures !Fails(f, m, Ok(list), branch, p)
  {}

  /** A context that is always required is posted by a job that any aggregate of filters containing the
      `/test all` filter triggers, and by no job that is skipped, whatever the changed files are. */
  lemma RequiredContextsAreTriggered(
    m: Matcher, branch: string, jobs: seq<Presubmit>, changes: Result<seq<string>>, filters: seq<Filter>, i: nat,
    context: string)
    requires i < |filters| && forall p :: filters[i](p) == TestAllFilter()(p)
    requires context in Contexts(m, branch, jobs, Required)
    ensures var (toTrigger, toSkip) := Partition(AggregateFilter(filters), m, changes, branch, jobs);
      Posts(toTrigger, context) && forall p :: p in toSkip ==> p.context != context
  {
    ContextHasJob(m, branch, jobs, Required, context);
    var j :| j in jobs && j.context == context && BucketOf(m, branch, j) == Required;
    assert j.alwaysRun && CouldRun(m, j, branch);
    SomeMatch(filters, j, i);
    assert Runs(AggregateFilter(filters), m, changes, branch, j);
    assert j in Partition(AggregateFilter(filters), m, changes, branch, jobs).0;
  }

  // The filter that a comment makes.

  /** The body asks for certain jobs by their triggers, possibly for a retest, possibly for all. */
  function PresubmitFilter(m: Matcher, body: string, retest: bool, testAll: bool, failed: set<string>,
                           all: set<string>): Filter {
    AggregateFilter([CommandFilter(m, body)] + (if retest then [RetestFilter(failed, all)] else [])
                    + (if testAll then [TestAllFilter()] else []))
  }

  lemma FirstOfTwo(a: Filter, b: Filter, rest: seq<Filter>, p: Presubmit)
    ensures FirstMatch([a] + [b] + rest, p) ==
      if a(p).matches then a(p) else if b(p).matches then b(p) else FirstMatch(rest, p)
  {
    var filters := [a] + [b] + rest;
    assert filters[0] == a && filters[1..][0] == b && filters[1..][1..] == rest;
  }

  /** Under the `/test all` filter a job runs, when the changed files are known, exactly if it could run on the
      branch and always runs or is for changes that did happen. */
  lemma TestAllRunsExactly(m: Matcher, list: seq<string>, branch: string, p: Presubmit)
    ensures Runs(TestAllFilter(), m, Ok(list), branch, p) <==>
      && CouldRun(m, p, branch)
      && (p.alwaysRun || (p.runIfChanged != "" && exists c :: c in list && m(p.reChanges, c)))
  {}

  lemma RetestVerdict(m: Matcher, body: string, testAll: bool, failed: set<string>, all: set<string>, p: Presubmit)
    requires TriggerMatches(m, p, body) || p.context in failed || (!NeedsExplicitTrigger(p) && p.context !in all)
    ensures PresubmitFilter(m, body, true, testAll, failed, all)(p) == Verdict(true, TriggerMatches(m, p, body), true)
  {
    FirstOfTwo(CommandFilter(m, body), RetestFilter(failed, all), if testAll then [TestAllFilter()] else [], p);
    hide FirstMatch;
  }

  /** After `/retest`, when the changed files are known: a job that could run and is commanded runs; a job
      whose context failed, or that is automatic and has not reported, runs unless it is only for changes
      that did not happen; no other job runs unless all jobs are asked for. */
  lemma RetestRunsExactly(m: Matcher, body: string, failed: set<string>, all: set<string>, list: seq<string>,
                          branch: string, p: Presubmit)
    ensures Runs(PresubmitFilter(m, body, true, false, failed, all), m, Ok(list), branch, p) <==>
      && CouldRun(m, p, branch)
      && (|| (p.trigger != "" && m(p.re, body))
          || ((p.context in failed || ((p.alwaysRun || p.runIfChanged != "") && p.context !in all))
              && (p.alwaysRun || p.runIfChanged == "" || exists c :: c in list && m(p.reChanges, c))))
  {
    FirstOfTwo(CommandFilter(m, body), RetestFilter(failed, all), [], p);
  }

  /** A retest leaves no always-required context behind: each that failed or has not been reported is posted
      by a job that is triggered, and by none that is skipped. */
  lemma RetestCompletesRequired(
    m: Matcher, body: string, testAll: bool, failed: set<string>, all: set<string>,
    branch: string, jobs: seq<Presubmit>, changes: Result<seq<string>>, context: string)
    requires context in Contexts(m, branch, jobs, Required) && (context in failed || context !in all)
    ensures var f := PresubmitFilter(m, body, true, testAll, failed, all);
      var (toTrigger, toSkip) := Partition(f, m, changes, branch, jobs);
      Posts(toTrigger, context) && forall p :: p in toSkip ==> p.context != context
  {
    ContextHasJob(m, branch, jobs, Required, context);
    var j :| j in jobs && j.context == context && BucketOf(m, branch, j) == Required;
    assert j.alwaysRun && CouldRun(m, j, branch);
    RetestVerdict(m, body, testAll, failed, all, j);
    hide PresubmitFilter;
    var f := PresubmitFilter(m, body, true, testAll, failed, all);
    assert Runs(f, m, changes, branch, j);
    assert j in Partition(f, m, changes, branch, jobs).0;
  }
}
