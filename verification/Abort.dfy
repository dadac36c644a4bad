/** pjutil/abort.go: at most one incomplete presubmit or batch ProwJob is left for each identity. */
module Aborter {
  import opened Text
  import opened ProwJobs
  import Sorting

  // Identities.

  function TypeName(t: JobType): string {
    match t
    case Presubmit => "presubmit"
    case Postsubmit => "postsubmit"
    case Periodic => "periodic"
    case Batch => "batch"
  }

  function Numerals(pulls: seq<int>): (r: seq<string>)
    ensures |r| == |pulls| && forall i :: 0 <= i < |r| ==> r[i] == Itoa(pulls[i])
  {
    seq(|pulls|, i requires 0 <= i < |pulls| => Itoa(pulls[i]))
  }

  function DigestRefs(ref: Refs): string {
    ref.org + ['/'] + (ref.repo + ['@'] + (ref.baseRef + [' '] +
    ("[" + Join(Numerals(Sorting.Sort(Sorting.IntLe, ref.pulls)), ' ') + "]")))
  }

  function Digests(refs: seq<Refs>): (r: seq<string>)
    ensures |r| == |refs| && forall i :: 0 <= i < |r| ==> r[i] == DigestRefs(refs[i])
  {
    seq(|refs|, i requires 0 <= i < |refs| => DigestRefs(refs[i]))
  }

  function Identifiers(spec: Spec): seq<string> {
    [TypeName(spec.jobType), spec.job]
    + (if spec.refs.Some? then [DigestRefs(spec.refs.value)] else [])
    + Digests(spec.extraRefs)
  }

  function Identity(spec: Spec): string {
    Join(Sorting.Sort(Sorting.StringLe, Identifiers(spec)), ',')
  }

  ghost predicate SamePulls(a: Refs, b: Refs) {
    a.org == b.org && a.repo == b.repo && a.baseRef == b.baseRef
    && multiset(a.pulls) == multiset(b.pulls)
  }

  /** The digest does not see the order of the pulls... */
  lemma DigestIgnoresPullOrder(a: Refs, b: Refs)
    requires SamePulls(a, b)
    ensures DigestRefs(a) == DigestRefs(b)
  {
    Sorting.IntLeTotal();
    Sorting.SortEqual(Sorting.IntLe, a.pulls, b.pulls);
  }

  lemma NumeralsInjective(a: seq<int>, b: seq<int>)
    requires Join(Numerals(a), ' ') == Join(Numerals(b), ' ')
    ensures a == b
  {
    forall n: int
      ensures ' ' !in Itoa(n) && Itoa(n) != []
    {
      ItoaFree(n, ' ');
    }
    if a != [] && b != [] {
      JoinInjective(Numerals(a), Numerals(b), ' ');
      forall i | 0 <= i < |a|
        ensures a[i] == b[i]
      {
        assert Numerals(a)[i] == Numerals(b)[i];
        ItoaInjective(a[i], b[i]);
      }
    }
  }

  /** ... and sees everything else, as long as the names do not contain its separators. */
  lemma DigestFaithful(a: Refs, b: Refs)
    requires '/' !in a.org && '@' !in a.repo && ' ' !in a.baseRef
    requires '/' !in b.org && '@' !in b.repo && ' ' !in b.baseRef
    ensures DigestRefs(a) == DigestRefs(b) <==> SamePulls(a, b)
  {
    if DigestRefs(a) == DigestRefs(b) {
      var pa, pb := Sorting.Sort(Sorting.IntLe, a.pulls), Sorting.Sort(Sorting.IntLe, b.pulls);
      var la, lb := Join(Numerals(pa), ' '), Join(Numerals(pb), ' ');
      var ca, cb := "[" + la + "]", "[" + lb + "]";
      var ba, bb := a.baseRef + [' '] + ca, b.baseRef + [' '] + cb;
      var ra, rb := a.repo + ['@'] + ba, b.repo + ['@'] + bb;
      CutJoined(a.org, '/', ra);
      CutJoined(b.org, '/', rb);
      CutJoined(a.repo, '@', ba);
      CutJoined(b.repo, '@', bb);
      CutJoined(a.baseRef, ' ', ca);
      CutJoined(b.baseRef, ' ', cb);
      assert la == ca[1..|ca| - 1] && lb == cb[1..|cb| - 1];
      NumeralsInjective(pa, pb);
      Sorting.IntLeTotal();
      Sorting.SortEqual(Sorting.IntLe, a.pulls, b.pulls);
    } else if SamePulls(a, b) {
      DigestIgnoresPullOrder(a, b);
    }
  }

  /** Two specifications with comma-free identifiers share an identity exactly when they have the
      same identifiers, in any order: so neither the order of the extra refs nor which of the refs
      is the primary one matters. */
  lemma IdentityFaithful(a: Spec, b: Spec)
    requires Free(Identifiers(a), ',') && Free(Identifiers(b), ',')
    ensures Identity(a) == Identity(b) <==> multiset(Identifiers(a)) == multiset(Identifiers(b))
  {
    var sa, sb := Sorting.Sort(Sorting.StringLe, Identifiers(a)), Sorting.Sort(Sorting.StringLe, Identifiers(b));
    Sorting.StringLeTotal();
    Sorting.SortEqual(Sorting.StringLe, Identifiers(a), Identifiers(b));
    Sorting.SortCorrect(Sorting.StringLe, Identifiers(a));
    Sorting.SortCorrect(Sorting.StringLe, Identifiers(b));
    assert forall x :: x in sa <==> x in multiset(sa);
    assert forall x :: x in sb <==> x in multiset(sb);
    assert |multiset(sa)| == |sa| && |multiset(sb)| == |sb|;
    if Identity(a) == Identity(b) {
      JoinInjective(sa, sb, ',');
    }
  }

  /** Whatever characters occur, reordering the extra refs, or the pulls inside any of the refs,
      keeps the identity. */
  lemma IdentityIgnoresOrder(a: Spec, b: Spec)
    requires a.jobType == b.jobType && a.job == b.job
    requires a.refs.Some? == b.refs.Some? && (a.refs.Some? ==> SamePulls(a.refs.value, b.refs.value))
    requires multiset(Digests(a.extraRefs)) == multiset(Digests(b.extraRefs))
    ensures Identity(a) == Identity(b)
  {
    if a.refs.Some? {
      DigestIgnoresPullOrder(a.refs.value, b.refs.value);
    }
    Sorting.StringLeTotal();
    Sorting.SortEqual(Sorting.StringLe, Identifiers(a), Identifiers(b));
  }

  // What an identity stands for.

  /** A ref without the order of its pulls. */
  function Canonical(ref: Refs): Refs { ref.(pulls := Sorting.Sort(Sorting.IntLe, ref.pulls)) }

  function AllRefs(spec: Spec): seq<Refs> {
    (if spec.refs.Some? then [spec.refs.value] else []) + spec.extraRefs
  }

  function Canonicals(refs: seq<Refs>): (r: seq<Refs>)
    ensures |r| == |refs| && forall i :: 0 <= i < |r| ==> r[i] == Canonical(refs[i])
  {
    seq(|refs|, i requires 0 <= i < |refs| => Canonical(refs[i]))
  }

  predicate CleanRefs(ref: Refs) { '/' !in ref.org && '@' !in ref.repo && ' ' !in ref.baseRef }

  /** Names contain none of the characters that separate them from others. */
  ghost predicate CleanSpec(spec: Spec) {
    Free(Identifiers(spec), ',') && ' ' !in spec.job && forall ref :: ref in AllRefs(spec) ==> CleanRefs(ref)
  }

  lemma CanonicalFaithful(a: Refs, b: Refs)
    requires CleanRefs(a) && CleanRefs(b)
    ensures DigestRefs(a) == DigestRefs(b) <==> Canonical(a) == Canonical(b)
  {
    DigestFaithful(a, b);
    Sorting.IntLeTotal();
    Sorting.SortEqual(Sorting.IntLe, a.pulls, b.pulls);
    hide DigestRefs, Sorting.Sort;
  }

  /** A list without its element `i`. */
  function Without<T>(s: seq<T>, i: nat): seq<T>
    requires i < |s|
  {
    s[..i] + s[i + 1..]
  }

  lemma WithoutElements<T>(s: seq<T>, i: nat)
    requires i < |s|
    ensures multiset(s) == multiset(Without(s, i)) + multiset{s[i]}
  {
    assert s == s[..i] + [s[i]] + s[i + 1..];
  }

  lemma WithoutDigests(refs: seq<Refs>, i: nat)
    requires i < |refs|
    ensures Digests(Without(refs, i)) == Without(Digests(refs), i)
    ensures Canonicals(Without(refs, i)) == Without(Canonicals(refs), i)
  {
    hide DigestRefs, Canonical;
  }

  lemma WithoutClean(refs: seq<Refs>, i: nat)
    requires i < |refs| && forall ref :: ref in refs ==> CleanRefs(ref)
    ensures forall ref :: ref in Without(refs, i) ==> CleanRefs(ref)
  {
    hide CleanRefs;
  }

  /** Lists of refs with the same digests, in any order, are the same refs, and conversely. */
  lemma {:induction false} DigestsFaithful(a: seq<Refs>, b: seq<Refs>)
    requires (forall ref :: ref in a ==> CleanRefs(ref)) && (forall ref :: ref in b ==> CleanRefs(ref))
    ensures multiset(Digests(a)) == multiset(Digests(b)) <==> multiset(Canonicals(a)) == multiset(Canonicals(b))
    decreases |a|
  {
    hide DigestRefs, Canonical, CleanRefs, Without;
    if a == [] {
      assert |multiset(Digests(b))| == |b| && |multiset(Canonicals(b))| == |b|;
    } else if i :| 0 <= i < |b| && Canonical(b[i]) == Canonical(a[0]) {
      CanonicalFaithful(a[0], b[i]);
      RemoveBoth(a, b, i);
      DigestsFaithful(Without(a, 0), Without(b, i));
    } else {
      NoPartner(a, b);
    }
  }

  lemma CancelBoth<T>(s: seq<T>, i: nat, t: seq<T>, j: nat)
    requires i < |s| && j < |t| && s[i] == t[j]
    ensures multiset(s) == multiset(t) <==> multiset(Without(s, i)) == multiset(Without(t, j))
  {
    WithoutElements(s, i);
    WithoutElements(t, j);
    hide Without;
    assert multiset(Without(s, i)) == multiset(s) - multiset{s[i]};
    assert multiset(Without(t, j)) == multiset(t) - multiset{t[j]};
  }

  lemma RemoveBoth(a: seq<Refs>, b: seq<Refs>, i: nat)
    requires a != [] && i < |b| && Canonical(b[i]) == Canonical(a[0]) && DigestRefs(b[i]) == DigestRefs(a[0])
    requires (forall ref :: ref in a ==> CleanRefs(ref)) && (forall ref :: ref in b ==> CleanRefs(ref))
    ensures |Without(a, 0)| < |a|
    ensures multiset(Digests(a)) == multiset(Digests(b)) <==>
      multiset(Digests(Without(a, 0))) == multiset(Digests(Without(b, i)))
    ensures multiset(Canonicals(a)) == multiset(Canonicals(b)) <==>
      multiset(Canonicals(Without(a, 0))) == multiset(Canonicals(Without(b, i)))
    ensures forall ref :: ref in Without(a, 0) ==> CleanRefs(ref)
    ensures forall ref :: ref in Without(b, i) ==> CleanRefs(ref)
  {
    WithoutClean(a, 0);
    WithoutClean(b, i);
    WithoutDigests(a, 0);
    WithoutDigests(b, i);
    assert |Without(a, 0)| < |a|;
    hide DigestRefs, Canonical, CleanRefs, Without;
    CancelBoth(Digests(a), 0, Digests(b), i);
    CancelBoth(Canonicals(a), 0, Canonicals(b), i);
  }

  lemma NoPartner(a: seq<Refs>, b: seq<Refs>)
    requires a != [] && forall i :: 0 <= i < |b| ==> Canonical(b[i]) != Canonical(a[0])
    requires (forall ref :: ref in a ==> CleanRefs(ref)) && (forall ref :: ref in b ==> CleanRefs(ref))
    ensures multiset(Digests(a)) != multiset(Digests(b)) && multiset(Canonicals(a)) != multiset(Canonicals(b))
  {
    hide DigestRefs, Canonical, CleanRefs;
    assert Digests(a)[0] in multiset(Digests(a)) && Canonicals(a)[0] in multiset(Canonicals(a));
    forall i | 0 <= i < |b|
      ensures Digests(b)[i] != Digests(a)[0] && Canonicals(b)[i] != Canonicals(a)[0]
    {
      CanonicalFaithful(a[0], b[i]);
    }
    assert Digests(a)[0] !in Digests(b) && Canonicals(a)[0] !in Canonicals(b);
  }

  lemma DigestHasSpace(ref: Refs)
    ensures ' ' in DigestRefs(ref)
  {
    var tail := ref.baseRef + [' '] + ("[" + Join(Numerals(Sorting.Sort(Sorting.IntLe, ref.pulls)), ' ') + "]");
    assert tail[|ref.baseRef|] == ' ';
    assert ' ' in tail;
  }

  lemma TypeNames(t: JobType, u: JobType)
    ensures ' ' !in TypeName(t) && (TypeName(t) == TypeName(u) <==> t == u)
  {
    assert TypeName(Presubmit)[2] == 'e' && TypeName(Postsubmit)[2] == 's' && TypeName(Periodic)[2] == 'r';
    assert TypeName(Batch)[2] == 't';
  }

  lemma IdentifiersSplit(spec: Spec)
    ensures Identifiers(spec) == [TypeName(spec.jobType), spec.job] + Digests(AllRefs(spec))
  {
    hide DigestRefs, TypeName;
    if spec.refs.Some? {
      assert Digests([spec.refs.value] + spec.extraRefs) == [DigestRefs(spec.refs.value)] + Digests(spec.extraRefs);
    } else {
      assert AllRefs(spec) == spec.extraRefs;
    }
  }

  predicate Spaced(s: string) { ' ' in s }

  /** Strings without a space and strings with one do not mix. */
  lemma SplitBySpace(a: multiset<string>, b: multiset<string>, x: multiset<string>, y: multiset<string>)
    requires (forall s :: s in a || s in b ==> !Spaced(s)) && (forall s :: s in x || s in y ==> Spaced(s))
    ensures a + x == b + y <==> a == b && x == y
  {
    hide Spaced;
    if a + x == b + y {
      forall s
        ensures a[s] == b[s] && x[s] == y[s]
      {
        assert (a + x)[s] == (b + y)[s];
        assert a[s] + x[s] == b[s] + y[s];
        assert Spaced(s) ==> a[s] == 0 && b[s] == 0;
        assert !Spaced(s) ==> x[s] == 0 && y[s] == 0;
      }
    }
  }

  lemma SamePair<T>(x: T, y: T, u: T, v: T)
    ensures multiset{x, y} == multiset{u, v} <==> (x == u && y == v) || (x == v && y == u)
  {
    if multiset{x, y} == multiset{u, v} {
      assert x in multiset{u, v} && y in multiset{u, v} && u in multiset{x, y} && v in multiset{x, y};
      assert x == y ==> multiset{x, y}[x] == 2;
      assert u == v ==> multiset{u, v}[u] == 2;
    }
  }

  lemma PairFirst<T>(x: T, y: T, rest: seq<T>)
    ensures multiset([x, y] + rest) == multiset{x, y} + multiset(rest)
  {}

  lemma DigestsAreSpaced(refs: seq<Refs>)
    ensures forall s :: s in multiset(Digests(refs)) ==> Spaced(s)
  {
    hide DigestRefs;
    forall s | s in multiset(Digests(refs))
      ensures Spaced(s)
    {
      var i :| 0 <= i < |refs| && Digests(refs)[i] == s;
      DigestHasSpace(refs[i]);
    }
  }

  lemma IdentifiersMean(a: Spec, b: Spec)
    requires ' ' !in a.job && ' ' !in b.job
    ensures multiset(Identifiers(a)) == multiset(Identifiers(b)) <==>
      && multiset(Digests(AllRefs(a))) == multiset(Digests(AllRefs(b)))
      && multiset{TypeName(a.jobType), a.job} == multiset{TypeName(b.jobType), b.job}
  {
    IdentifiersSplit(a);
    IdentifiersSplit(b);
    TypeNames(a.jobType, b.jobType);
    TypeNames(b.jobType, a.jobType);
    DigestsAreSpaced(AllRefs(a));
    DigestsAreSpaced(AllRefs(b));
    var p, q := multiset{TypeName(a.jobType), a.job}, multiset{TypeName(b.jobType), b.job};
    assert forall s :: s in p || s in q ==> !Spaced(s);
    hide Identifiers, TypeName, Digests, AllRefs, Spaced;
    PairFirst(TypeName(a.jobType), a.job, Digests(AllRefs(a)));
    PairFirst(TypeName(b.jobType), b.job, Digests(AllRefs(b)));
    SplitBySpace(p, q, multiset(Digests(AllRefs(a))), multiset(Digests(AllRefs(b))));
  }

  /** For clean names two specifications share an identity exactly when they have the same refs, up to the
      order of refs and pulls, and either the same type and job, or each the other's type as its job. */
  lemma IdentityMeans(a: Spec, b: Spec)
    requires CleanSpec(a) && CleanSpec(b)
    ensures Identity(a) == Identity(b) <==>
      && multiset(Canonicals(AllRefs(a))) == multiset(Canonicals(AllRefs(b)))
      && (|| (a.jobType == b.jobType && a.job == b.job)
          || (a.job == TypeName(b.jobType) && b.job == TypeName(a.jobType)))
  {
    IdentityFaithful(a, b);
    DigestsFaithful(AllRefs(a), AllRefs(b));
    TypeNames(a.jobType, b.jobType);
    hide Identity, Identifiers, TypeName, DigestRefs, Canonical, Canonicals, Digests, AllRefs;
    IdentifiersMean(a, b);
    SamePair(TypeName(a.jobType), a.job, TypeName(b.jobType), b.job);
  }

  /** So a presubmit named after the other type and a batch named after this one are taken for duplicates. */
  lemma SwappedNamesCollide(refs: Option<Refs>, extraRefs: seq<Refs>)
    ensures Identity(Spec(Presubmit, "batch", refs, extraRefs, 0, false))
         == Identity(Spec(Batch, "presubmit", refs, extraRefs, 0, false))
  {
    var p, b := TypeName(Presubmit), TypeName(Batch);
    SwapCollides(Spec(Presubmit, b, refs, extraRefs, 0, false), Spec(Batch, p, refs, extraRefs, 0, false));
  }

  lemma SwapCollides(a: Spec, b: Spec)
    requires a.job == TypeName(b.jobType) && b.job == TypeName(a.jobType)
    requires a.refs == b.refs && a.extraRefs == b.extraRefs
    ensures Identity(a) == Identity(b)
  {
    IdentifiersSplit(a);
    IdentifiersSplit(b);
    assert AllRefs(a) == AllRefs(b);
    Sorting.StringLeTotal();
    hide Identifiers, AllRefs, Digests, TypeName;
    PairFirst(TypeName(a.jobType), a.job, Digests(AllRefs(a)));
    PairFirst(TypeName(b.jobType), b.job, Digests(AllRefs(b)));
    SamePair(TypeName(a.jobType), a.job, TypeName(b.jobType), b.job);
    Sorting.SortEqual(Sorting.StringLe, Identifiers(a), Identifiers(b));
  }

  // Which jobs survive.

  /** The jobs the aborter considers: incomplete presubmits and batches. */
  predicate Eligible(pj: ProwJob) {
    !pj.Complete() && (pj.spec.jobType.Presubmit? || pj.spec.jobType.Batch?)
  }

  /** What the pass looks at in a job. */
  datatype Candidate = Candidate(eligible: bool, id: string, start: int)

  function CandidateOf(pj: ProwJob): Candidate {
    Candidate(Eligible(pj), Identity(pj.spec), pj.status.start)
  }

  function Candidates(pjs: seq<ProwJob>): (cs: seq<Candidate>)
    ensures |cs| == |pjs| && forall i :: 0 <= i < |cs| ==> cs[i] == CandidateOf(pjs[i])
  {
    seq(|pjs|, i requires 0 <= i < |pjs| => CandidateOf(pjs[i]))
  }

  predicate Rivals(a: Candidate, b: Candidate) {
    a.eligible && b.eligible && a.id == b.id
  }

  /** Started later, or at the same time and listed first. */
  predicate Beats(cs: seq<Candidate>, i: nat, k: nat)
    requires i < |cs| && k < |cs|
  {
    cs[k].start < cs[i].start || (cs[k].start == cs[i].start && i <= k)
  }

  ghost predicate Survivor(cs: seq<Candidate>, i: nat)
    requires i < |cs|
  {
    cs[i].eligible && forall k :: 0 <= k < |cs| && Rivals(cs[i], cs[k]) ==> Beats(cs, i, k)
  }

  ghost predicate Superseded(cs: seq<Candidate>, i: nat)
    requires i < |cs|
  {
    cs[i].eligible && !Survivor(cs, i)
  }

  /** What a completed pass does to the list: `clock(i)` is the time at which job `i` is aborted. */
  ghost predicate Terminated(before: seq<ProwJob>, after: seq<ProwJob>, clock: nat -> int) {
    |after| == |before| && forall i :: 0 <= i < |before| ==>
      after[i] == if Superseded(Candidates(before), i) then Abort(before[i], clock(i)) else before[i]
  }

  /** What even an interrupted pass guarantees. */
  ghost predicate OnlyAborts(before: seq<ProwJob>, after: seq<ProwJob>, clock: nat -> int) {
    |after| == |before| && forall i :: 0 <= i < |before| ==>
      after[i] == before[i] || (Superseded(Candidates(before), i) && after[i] == Abort(before[i], clock(i)))
  }

  /** The loop's knowledge after `n` jobs: `dupes` maps each identity seen to the job kept so far. */
  ghost predicate Kept(cs: seq<Candidate>, n: nat, dupes: map<string, nat>)
    requires n <= |cs|
  {
    && (forall id :: id in dupes ==> dupes[id] < n && cs[dupes[id]].eligible && cs[dupes[id]].id == id)
    && (forall k :: 0 <= k < n && cs[k].eligible ==> cs[k].id in dupes && Beats(cs, dupes[cs[k].id], k))
  }

  predicate Dropped(cs: seq<Candidate>, n: nat, dupes: map<string, nat>, k: nat)
    requires k < |cs|
  {
    k < n && cs[k].eligible && cs[k].id in dupes && dupes[cs[k].id] != k
  }

  lemma DroppedIsSuperseded(cs: seq<Candidate>, n: nat, dupes: map<string, nat>, k: nat)
    requires n <= |cs| && Kept(cs, n, dupes) && k < |cs| && Dropped(cs, n, dupes, k)
    ensures Superseded(cs, k)
  {
    var w := dupes[cs[k].id];
    assert Rivals(cs[k], cs[w]) && Beats(cs, w, k) && !Beats(cs, k, w);
  }

  lemma KeptToTheEnd(cs: seq<Candidate>, dupes: map<string, nat>, k: nat)
    requires Kept(cs, |cs|, dupes) && k < |cs|
    ensures Superseded(cs, k) <==> Dropped(cs, |cs|, dupes, k)
  {
    if Dropped(cs, |cs|, dupes, k) {
      DroppedIsSuperseded(cs, |cs|, dupes, k);
    }
  }

  /** The list after `n` jobs: those dropped so far are aborted. */
  ghost predicate Swept(before: seq<ProwJob>, now: seq<ProwJob>, n: nat, dupes: map<string, nat>,
                        clock: nat -> int)
  {
    && |now| == |before| && n <= |before| && Kept(Candidates(before), n, dupes)
    && forall k :: 0 <= k < |before| ==>
         now[k] == if Dropped(Candidates(before), n, dupes, k) then Abort(before[k], clock(k)) else before[k]
  }

  lemma SweptOnlyAborts(before: seq<ProwJob>, now: seq<ProwJob>, n: nat, dupes: map<string, nat>,
                        clock: nat -> int)
    requires Swept(before, now, n, dupes, clock)
    ensures OnlyAborts(before, now, clock)
    ensures n == |before| ==> Terminated(before, now, clock)
  {
    var cs := Candidates(before);
    forall k | 0 <= k < |before|
      ensures Dropped(cs, n, dupes, k) ==> Superseded(cs, k)
      ensures n == |before| ==> (Superseded(cs, k) <==> Dropped(cs, n, dupes, k))
    {
      if Dropped(cs, n, dupes, k) {
        DroppedIsSuperseded(cs, n, dupes, k);
      }
      if n == |before| {
        KeptToTheEnd(cs, dupes, k);
      }
    }
  }

  /** A newcomer with a new identity is kept. */
  lemma KeepFirst(cs: seq<Candidate>, n: nat, dupes: map<string, nat>)
    requires n < |cs| && Kept(cs, n, dupes)
    ensures !cs[n].eligible ==> Kept(cs, n + 1, dupes)
    ensures !cs[n].eligible ==>
      forall k :: 0 <= k < |cs| ==> Dropped(cs, n + 1, dupes, k) == Dropped(cs, n, dupes, k)
    ensures cs[n].eligible && cs[n].id !in dupes ==> Kept(cs, n + 1, dupes[cs[n].id := n])
    ensures cs[n].eligible && cs[n].id !in dupes ==>
      forall k :: 0 <= k < |cs| ==> Dropped(cs, n + 1, dupes[cs[n].id := n], k) == Dropped(cs, n, dupes, k)
  {}

  /** A newcomer with a rival replaces it when it started later, and is dropped otherwise. */
  lemma KeepBest(cs: seq<Candidate>, n: nat, dupes: map<string, nat>, prev: nat, dupes': map<string, nat>)
    requires n < |cs| && Kept(cs, n, dupes) && cs[n].eligible && cs[n].id in dupes && prev == dupes[cs[n].id]
    requires dupes' == if cs[prev].start < cs[n].start then dupes[cs[n].id := n] else dupes
    ensures Kept(cs, n + 1, dupes')
    ensures var cancel := if cs[prev].start < cs[n].start then prev else n;
      && !Dropped(cs, n, dupes, cancel)
      && forall k :: 0 <= k < |cs| ==> Dropped(cs, n + 1, dupes', k) == (k == cancel || Dropped(cs, n, dupes, k))
  {
    forall k | 0 <= k < n && cs[k].eligible
      ensures cs[k].id in dupes' && Beats(cs, dupes'[cs[k].id], k)
    {
      assert Beats(cs, dupes[cs[k].id], k);
    }
  }

  lemma SweepOne(before: seq<ProwJob>, now: seq<ProwJob>, n: nat, dupes: map<string, nat>,
                 dupes': map<string, nat>, cancel: nat, clock: nat -> int)
    requires Swept(before, now, n, dupes, clock) && n < |before| && cancel <= n
    requires var cs := Candidates(before);
      && Kept(cs, n + 1, dupes') && !Dropped(cs, n, dupes, cancel)
      && forall k :: 0 <= k < |cs| ==> Dropped(cs, n + 1, dupes', k) == (k == cancel || Dropped(cs, n, dupes, k))
    ensures now[cancel] == before[cancel]
    ensures Swept(before, now[cancel := Abort(now[cancel], clock(cancel))], n + 1, dupes', clock)
  {}

  /** One pass over the list, in place. A patch the API server rejects (`rejected(i)`) ends the pass
      early; what was aborted until then stays aborted. A pod that cannot be deleted is only logged. */
  method TerminateOlderJobs(pjs: array<ProwJob>, clock: nat -> int, rejected: nat -> bool)
    returns (ok: bool)
    modifies pjs
    ensures ok ==> Terminated(old(pjs[..]), pjs[..], clock)
    ensures OnlyAborts(old(pjs[..]), pjs[..], clock)
    ensures !ok ==> exists i :: 0 <= i < pjs.Length && rejected(i) && pjs[i] == old(pjs[i]) && Eligible(pjs[i])
  {
    hide Identity, Abort, PatchProwJob;
    ghost var before := pjs[..];
    ghost var cs := Candidates(before);
    var dupes: map<string, nat> := map[];
    var i := 0;
    while i < pjs.Length
      invariant i <= pjs.Length && Swept(before, pjs[..], i, dupes, clock)
    {
      var pj := CandidateOf(pjs[i]);
      assert pj == cs[i];
      KeepFirst(cs, i, dupes);
      if pj.eligible {
        if pj.id !in dupes {
          dupes := dupes[pj.id := i];
        } else {
          var prev := dupes[pj.id];
          var cancelIndex, newDupes := i, dupes;
          assert pjs[prev] == before[prev];
          if pjs[prev].status.start < pj.start {
            cancelIndex, newDupes := prev, dupes[pj.id := i];
          }
          KeepBest(cs, i, dupes, prev, newDupes);
          SweepOne(before, pjs[..], i, dupes, newDupes, cancelIndex, clock);
          if rejected(cancelIndex) {
            SweptOnlyAborts(before, pjs[..], i, dupes, clock);
            return false;
          }
          ghost var now := pjs[..];
          var toCancel := pjs[cancelIndex];
          var aborted := Abort(toCancel, clock(cancelIndex));
          PatchAbort(toCancel, clock(cancelIndex));
          pjs[cancelIndex] := PatchProwJob(toCancel, aborted, toCancel);
          dupes := newDupes;
          assert pjs[..] == now[cancelIndex := aborted];
        }
      }
      i := i + 1;
    }
    SweptOnlyAborts(before, pjs[..], i, dupes, clock);
    ok := true;
  }

  lemma PatchAbort(pj: ProwJob, now: int)
    ensures PatchProwJob(pj, Abort(pj, now), pj) == Abort(pj, now)
  {
    PatchUpToDate(pj, Abort(pj, now));
  }

  /** The best of the jobs listed before `n` that share an identity. */
  lemma {:induction false} SomeSurvivor(cs: seq<Candidate>, i: nat, n: nat) returns (w: nat)
    requires i < n <= |cs| && cs[i].eligible
    ensures w < n && Rivals(cs[i], cs[w])
    ensures forall k :: 0 <= k < n && Rivals(cs[i], cs[k]) ==> Beats(cs, w, k)
    decreases n
  {
    if k :| 0 <= k < n - 1 && Rivals(cs[i], cs[k]) {
      w := SomeSurvivor(cs, k, n - 1);
      if Rivals(cs[i], cs[n - 1]) && !Beats(cs, w, n - 1) {
        w := n - 1;
      }
    } else {
      w := i;
    }
  }

  /** Every job a pass aborts has a rival, not started earlier, that the pass keeps. */
  lemma SupersededHasRival(cs: seq<Candidate>, i: nat) returns (w: nat)
    requires i < |cs| && Superseded(cs, i)
    ensures w < |cs| && w != i && Survivor(cs, w) && Rivals(cs[i], cs[w]) && cs[i].start <= cs[w].start
  {
    w := SomeSurvivor(cs, i, |cs|);
    assert Rivals(cs[i], cs[i]) && Beats(cs, w, i);
    forall k | 0 <= k < |cs| && Rivals(cs[w], cs[k])
      ensures Beats(cs, w, k)
    {
      assert Rivals(cs[i], cs[k]);
    }
  }

  /** After a completed pass every identity that had an incomplete job has exactly one, the latest
      started and least indexed of its rivals, untouched; all the rivals are aborted and complete. */
  lemma OneSurvivorPerIdentity(before: seq<ProwJob>, after: seq<ProwJob>, clock: nat -> int, i: nat)
    returns (w: nat)
    requires Terminated(before, after, clock) && i < |before| && Eligible(before[i])
    ensures w < |before| && after[w] == before[w] && Eligible(after[w])
    ensures Identity(before[w].spec) == Identity(before[i].spec)
    ensures forall k :: 0 <= k < |before| && Rivals(Candidates(before)[i], Candidates(before)[k]) ==>
      Beats(Candidates(before), w, k)
      && (k != w ==> !Eligible(after[k]) && after[k].Complete() && after[k].status.state == Aborted)
  {
    var cs := Candidates(before);
    w := SomeSurvivor(cs, i, |cs|);
    forall k | 0 <= k < |cs| && Rivals(cs[i], cs[k])
      ensures Survivor(cs, k) <==> k == w
    {
      assert Rivals(cs[k], cs[w]) && Beats(cs, w, k) && (k != w ==> !Beats(cs, k, w));
    }
  }

  /** An incomplete presubmit or batch. */
  predicate Abortable(pj: ProwJob) {
    pj.status.completion.None? && (pj.spec.jobType == Presubmit || pj.spec.jobType == Batch)
  }

  /** Job `k` is for the same, and started later, or at the same time and is listed before. */
  predicate Supersedes(pjs: seq<ProwJob>, k: nat, i: nat)
    requires k < |pjs| && i < |pjs|
  {
    && Abortable(pjs[k]) && Identity(pjs[k].spec) == Identity(pjs[i].spec)
    && (pjs[k].status.start > pjs[i].status.start || (pjs[k].status.start == pjs[i].status.start && k < i))
  }

  /** A completed pass aborts a job exactly if it is an incomplete presubmit or batch that another one
      supersedes; complete jobs, postsubmits and periodics are left alone. */
  lemma AbortedExactly(before: seq<ProwJob>, after: seq<ProwJob>, clock: nat -> int, i: nat)
    requires Terminated(before, after, clock) && i < |before|
    ensures |after| == |before|
    ensures after[i] == if Abortable(before[i]) && exists k :: 0 <= k < |before| && Supersedes(before, k, i)
                        then Abort(before[i], clock(i)) else before[i]
  {
    var cs := Candidates(before);
    forall k | 0 <= k < |before|
      ensures cs[k] == CandidateOf(before[k]) && (cs[k].eligible <==> Abortable(before[k]))
    {}
    hide Identity, Abort;
    assert forall k :: 0 <= k < |before| && Abortable(before[i]) && Supersedes(before, k, i) ==>
      Rivals(cs[i], cs[k]) && !Beats(cs, i, k);
    if Superseded(cs, i) {
      var k :| 0 <= k < |cs| && Rivals(cs[i], cs[k]) && !Beats(cs, i, k);
      assert Supersedes(before, k, i);
    }
  }

  /** A second pass finds nothing to cancel. */
  lemma SecondPassCancelsNothing(before: seq<ProwJob>, after: seq<ProwJob>, again: seq<ProwJob>,
                                 clock: nat -> int, clock': nat -> int)
    requires Terminated(before, after, clock) && Terminated(after, again, clock')
    ensures again == after
  {
    var cs, cs' := Candidates(before), Candidates(after);
    forall i | 0 <= i < |after| && cs'[i].eligible
      ensures Survivor(cs', i)
    {
      assert after[i] == before[i] && Survivor(cs, i);
      forall k | 0 <= k < |cs'| && Rivals(cs'[i], cs'[k])
        ensures Beats(cs', i, k)
      {
        assert after[k] == before[k] && Rivals(cs[i], cs[k]);
      }
    }
  }
}
