/** config/branch_protection.go: protection policies merged through global, org, repo and branch level,
    with the contexts that Prow's own jobs make certain to appear. */
module BranchProtection {
  import opened Text
  import opened Layers
  import Sorting
  import opened Presubmits

  /** A nil slice is None; an empty one is Some([]). */
  type Strings = Option<seq<string>>

  datatype ContextPolicy = ContextPolicy(contexts: Strings, strict: Option<bool>)

  datatype Restrictions = Restrictions(users: Strings, teams: Strings)

  datatype ReviewPolicy = ReviewPolicy(
    dismissalRestrictions: Option<Restrictions>, dismissStale: Option<bool>, requireOwners: Option<bool>,
    approvals: Option<int>)

  datatype Policy = Policy(
    protect: Option<bool>, requiredStatusChecks: Option<ContextPolicy>, admins: Option<bool>,
    restrictions: Option<Restrictions>, requiredPullRequestReviews: Option<ReviewPolicy>, exclude: Strings)
  {
    predicate Defined() {
      || protect.Some? || requiredStatusChecks.Some? || admins.Some? || restrictions.Some?
      || requiredPullRequestReviews.Some?
    }
  }

  const NoPolicy: Policy := Policy(None, None, None, None, None, None)

  // Merging.

  function Choose<T>(parent: Option<T>, child: Option<T>): Option<T> { if child.Some? then child else parent }

  /** Both sides set: the union, sorted; otherwise the side that is set, as it is. */
  function UnionStrings(parent: Strings, child: Strings): Strings {
    if child.None? then parent
    else if parent.None? then child
    else Some(Sorting.SortedSet(Sorting.StringLe, parent.value + child.value))
  }

  function MergeContextPolicy(parent: Option<ContextPolicy>, child: Option<ContextPolicy>): Option<ContextPolicy> {
    if child.None? then parent
    else if parent.None? then child
    else Some(ContextPolicy(UnionStrings(parent.value.contexts, child.value.contexts),
                            Choose(parent.value.strict, child.value.strict)))
  }

  function MergeRestrictions(parent: Option<Restrictions>, child: Option<Restrictions>): Option<Restrictions> {
    if child.None? then parent
    else if parent.None? then child
    else Some(Restrictions(UnionStrings(parent.value.users, child.value.users),
                           UnionStrings(parent.value.teams, child.value.teams)))
  }

  function MergeReviewPolicy(parent: Option<ReviewPolicy>, child: Option<ReviewPolicy>): Option<ReviewPolicy> {
    if child.None? then parent
    else if parent.None? then child
    else Some(ReviewPolicy(
      MergeRestrictions(parent.value.dismissalRestrictions, child.value.dismissalRestrictions),
      Choose(parent.value.dismissStale, child.value.dismissStale),
      Choose(parent.value.requireOwners, child.value.requireOwners),
      Choose(parent.value.approvals, child.value.approvals)))
  }

  function Apply(parent: Policy, child: Policy): Policy {
    Policy(
      Choose(parent.protect, child.protect),
      MergeContextPolicy(parent.requiredStatusChecks, child.requiredStatusChecks),
      Choose(parent.admins, child.admins),
      MergeRestrictions(parent.restrictions, child.restrictions),
      MergeReviewPolicy(parent.requiredPullRequestReviews, child.requiredPullRequestReviews),
      UnionStrings(parent.exclude, child.exclude))
  }

  function SetOf(s: Strings): set<string> { if s.Some? then Sorting.Elements(s.value) else {} }

  lemma ElementsOfConcat(a: seq<string>, b: seq<string>)
    ensures Sorting.Elements(a + b) == Sorting.Elements(a) + Sorting.Elements(b)
  {}

  /** The union has the elements of both sides. */
  lemma UnionIsUnion(a: Strings, b: Strings)
    ensures SetOf(UnionStrings(a, b)) == SetOf(a) + SetOf(b)
  {
    if a.Some? && b.Some? {
      Sorting.StringLeTotal();
      Sorting.SortedSetCorrect(Sorting.StringLe, a.value + b.value);
      ElementsOfConcat(a.value, b.value);
    }
  }

  /** Exactly associative, sorting and the difference between nil and empty included. */
  lemma UnionAssociative(a: Strings, b: Strings, c: Strings)
    ensures UnionStrings(UnionStrings(a, b), c) == UnionStrings(a, UnionStrings(b, c))
  {
    if a.Some? && b.Some? && c.Some? {
      var ab, bc := UnionStrings(a, b).value, UnionStrings(b, c).value;
      UnionIsUnion(a, b);
      UnionIsUnion(b, c);
      ElementsOfConcat(ab, c.value);
      ElementsOfConcat(a.value, bc);
      Sorting.StringLeTotal();
      Sorting.SortedSetEqual(Sorting.StringLe, ab + c.value, a.value + bc);
    }
  }

  lemma RestrictionsAssociative(a: Option<Restrictions>, b: Option<Restrictions>, c: Option<Restrictions>)
    ensures MergeRestrictions(MergeRestrictions(a, b), c) == MergeRestrictions(a, MergeRestrictions(b, c))
  {
    if a.Some? && b.Some? && c.Some? {
      UnionAssociative(a.value.users, b.value.users, c.value.users);
      UnionAssociative(a.value.teams, b.value.teams, c.value.teams);
    }
  }

  lemma ReviewsAssociative(a: Option<ReviewPolicy>, b: Option<ReviewPolicy>, c: Option<ReviewPolicy>)
    ensures MergeReviewPolicy(MergeReviewPolicy(a, b), c) == MergeReviewPolicy(a, MergeReviewPolicy(b, c))
  {
    if a.Some? && b.Some? && c.Some? {
      RestrictionsAssociative(a.value.dismissalRestrictions, b.value.dismissalRestrictions,
                              c.value.dismissalRestrictions);
    }
  }

  lemma ContextsAssociative(a: Option<ContextPolicy>, b: Option<ContextPolicy>, c: Option<ContextPolicy>)
    ensures MergeContextPolicy(MergeContextPolicy(a, b), c) == MergeContextPolicy(a, MergeContextPolicy(b, c))
  {
    if a.Some? && b.Some? && c.Some? {
      UnionAssociative(a.value.contexts, b.value.contexts, c.value.contexts);
    }
  }

  /** Applying policies is associative, with the empty policy as identity on both sides. */
  lemma ApplyIsMonoid(a: Policy, b: Policy, c: Policy)
    ensures Apply(Apply(a, b), c) == Apply(a, Apply(b, c))
    ensures Apply(a, NoPolicy) == a == Apply(NoPolicy, a)
  {
    ContextsAssociative(a.requiredStatusChecks, b.requiredStatusChecks, c.requiredStatusChecks);
    RestrictionsAssociative(a.restrictions, b.restrictions, c.restrictions);
    ReviewsAssociative(a.requiredPullRequestReviews, b.requiredPullRequestReviews, c.requiredPullRequestReviews);
    UnionAssociative(a.exclude, b.exclude, c.exclude);
  }

  function ContextsOf(p: Policy): set<string> {
    if p.requiredStatusChecks.Some? then SetOf(p.requiredStatusChecks.value.contexts) else {}
  }

  lemma ApplyCollectsContexts(parent: Policy, child: Policy)
    ensures ContextsOf(Apply(parent, child)) == ContextsOf(parent) + ContextsOf(child)
  {
    if parent.requiredStatusChecks.Some? && child.requiredStatusChecks.Some? {
      UnionIsUnion(parent.requiredStatusChecks.value.contexts, child.requiredStatusChecks.value.contexts);
    }
  }

  // Levels.

  datatype Repo = Repo(policy: Policy, branches: map<string, Policy>)

  datatype Org = Org(policy: Policy, repos: map<string, Repo>)

  datatype Config = Config(
    policy: Policy, protectTested: bool, orgs: map<string, Org>, allowDisabledPolicies: bool,
    allowDisabledJobPolicies: bool)

  datatype Error = BranchMustSetProtect | JobsNeedProtection | PolicyNeedsProtection

  datatype Outcome<+T> = Value(value: T) | Error(error: Error)

  function GetOrg(c: Config, name: string): Org {
    if name in c.orgs then c.orgs[name].(policy := Apply(c.policy, c.orgs[name].policy)) else Org(c.policy, map[])
  }

  function GetRepo(o: Org, name: string): Repo {
    if name in o.repos then o.repos[name].(policy := Apply(o.policy, o.repos[name].policy)) else Repo(o.policy, map[])
  }

  function GetBranch(r: Repo, name: string): Outcome<Policy> {
    if name in r.branches then
      var p := Apply(r.policy, r.branches[name]);
      if p.protect.None? then Error(BranchMustSetProtect) else Value(p)
    else Value(r.policy)
  }

  /** The levels that apply to a branch, outermost first. */
  function Levels(c: Config, org: string, repo: string, branch: string): seq<Policy> {
    [c.policy]
    + if org !in c.orgs then []
      else [c.orgs[org].policy]
           + if repo !in c.orgs[org].repos then []
             else [c.orgs[org].repos[repo].policy]
                  + if branch !in c.orgs[org].repos[repo].branches then []
                    else [c.orgs[org].repos[repo].branches[branch]]
  }

  function Merged(levels: seq<Policy>): Policy {
    if levels == [] then NoPolicy else Apply(Merged(levels[..|levels| - 1]), levels[|levels| - 1])
  }

  ghost function LevelContexts(levels: seq<Policy>): set<string> {
    set i, x | 0 <= i < |levels| && x in ContextsOf(levels[i]) :: x
  }

  lemma {:induction false} MergedCollectsContexts(levels: seq<Policy>)
    ensures ContextsOf(Merged(levels)) == LevelContexts(levels)
  {
    if levels != [] {
      var front, last := levels[..|levels| - 1], levels[|levels| - 1];
      MergedCollectsContexts(front);
      ApplyCollectsContexts(Merged(front), last);
      forall x | x in LevelContexts(front)
        ensures x in LevelContexts(levels)
      {
        var i :| 0 <= i < |front| && x in ContextsOf(front[i]);
        assert levels[i] == front[i];
      }
      forall x | x in LevelContexts(levels)
        ensures x in LevelContexts(front) || x in ContextsOf(last)
      {
        var i :| 0 <= i < |levels| && x in ContextsOf(levels[i]);
        assert i < |front| ==> front[i] == levels[i];
      }
    }
  }

  lemma {:induction false} MergedStep(levels: seq<Policy>, p: Policy)
    ensures Merged(levels + [p]) == Apply(Merged(levels), p)
  {
    assert (levels + [p])[..|levels|] == levels;
  }

  /** The nested lookups apply the levels from the outside in. */
  lemma BranchPolicyIsMerged(c: Config, org: string, repo: string, branch: string)
    ensures var b := GetBranch(GetRepo(GetOrg(c, org), repo), branch);
      && (b.Value? ==> b.value == Merged(Levels(c, org, repo, branch)))
      && (b.Error? ==> Merged(Levels(c, org, repo, branch)).protect.None?)
  {
    var l0 := [c.policy];
    MergedStep([], c.policy);
    assert [] + [c.policy] == l0;
    assert Apply(NoPolicy, c.policy) == c.policy;
    if org in c.orgs {
      var o := c.orgs[org];
      var l1 := l0 + [o.policy];
      MergedStep(l0, o.policy);
      if repo in o.repos {
        var r := o.repos[repo];
        var l2 := l1 + [r.policy];
        MergedStep(l1, r.policy);
        if branch in r.branches {
          MergedStep(l2, r.branches[branch]);
          assert Levels(c, org, repo, branch) == l2 + [r.branches[branch]];
        } else {
          assert Levels(c, org, repo, branch) == l2;
        }
      } else {
        assert Levels(c, org, repo, branch) == l1;
      }
    } else {
      assert Levels(c, org, repo, branch) == l0;
    }
  }

  // What each field of a policy comes from, level by level.

  function Present<T>(o: Option<T>): Option<bool> { if o.Some? then Some(true) else None }

  // Fields that a later level overrides.

  function Protect(p: Policy): Option<bool> { p.protect }
  function Admins(p: Policy): Option<bool> { p.admins }
  function Checks(p: Policy): Option<bool> { Present(p.requiredStatusChecks) }
  function Strict(p: Policy): Option<bool> {
    if p.requiredStatusChecks.Some? then p.requiredStatusChecks.value.strict else None
  }
  function Restricts(p: Policy): Option<bool> { Present(p.restrictions) }
  function Reviews(p: Policy): Option<bool> { Present(p.requiredPullRequestReviews) }
  function DismissStale(p: Policy): Option<bool> {
    if p.requiredPullRequestReviews.Some? then p.requiredPullRequestReviews.value.dismissStale else None
  }
  function RequireOwners(p: Policy): Option<bool> {
    if p.requiredPullRequestReviews.Some? then p.requiredPullRequestReviews.value.requireOwners else None
  }
  function Approvals(p: Policy): Option<int> {
    if p.requiredPullRequestReviews.Some? then p.requiredPullRequestReviews.value.approvals else None
  }
  function Dismissal(p: Policy): Option<Restrictions> {
    if p.requiredPullRequestReviews.Some? then p.requiredPullRequestReviews.value.dismissalRestrictions else None
  }
  function Dismisses(p: Policy): Option<bool> { Present(Dismissal(p)) }

  // Fields that levels add up.

  function Exclude(p: Policy): Strings { p.exclude }
  function ContextList(p: Policy): Strings {
    if p.requiredStatusChecks.Some? then p.requiredStatusChecks.value.contexts else None
  }
  function Users(p: Policy): Strings { if p.restrictions.Some? then p.restrictions.value.users else None }
  function Teams(p: Policy): Strings { if p.restrictions.Some? then p.restrictions.value.teams else None }
  function DismissalUsers(p: Policy): Strings { if Dismissal(p).Some? then Dismissal(p).value.users else None }
  function DismissalTeams(p: Policy): Strings { if Dismissal(p).Some? then Dismissal(p).value.teams else None }

  ghost predicate Alone(lists: seq<Strings>, i: nat)
    requires i < |lists|
  {
    lists[i].Some? && forall j :: 0 <= j < |lists| && j != i ==> lists[j].None?
  }

  /** `v` is nil exactly if every list is; it has the elements of all of them; it is the only list there is,
      as it is, or sorted and without repetitions if there are several. */
  ghost predicate Unites(lists: seq<Strings>, v: Strings) {
    && (v.None? <==> forall i :: 0 <= i < |lists| ==> lists[i].None?)
    && (forall x :: x in SetOf(v) <==> exists i :: 0 <= i < |lists| && x in SetOf(lists[i]))
    && (forall i :: 0 <= i < |lists| && Alone(lists, i) ==> v == lists[i])
    && (forall i, j :: 0 <= i < j < |lists| && lists[i].Some? && lists[j].Some? && v.Some? ==>
          Sorting.Sorted(Sorting.StringLe, v.value) && Sorting.Distinct(v.value))
  }

  /** Every field of `p` is what the levels, outermost first, make of it. */
  ghost predicate Overrides(levels: seq<Policy>, p: Policy) {
    && Protect(p) == Last(Settings(levels, Protect)) && Admins(p) == Last(Settings(levels, Admins))
    && Checks(p) == Last(Settings(levels, Checks)) && Strict(p) == Last(Settings(levels, Strict))
    && Restricts(p) == Last(Settings(levels, Restricts))
    && Reviews(p) == Last(Settings(levels, Reviews)) && DismissStale(p) == Last(Settings(levels, DismissStale))
    && RequireOwners(p) == Last(Settings(levels, RequireOwners)) && Approvals(p) == Last(Settings(levels, Approvals))
    && Dismisses(p) == Last(Settings(levels, Dismisses))
  }

  ghost predicate Collects(levels: seq<Policy>, p: Policy) {
    && Unites(Settings(levels, ContextList), ContextList(p))
    && Unites(Settings(levels, Users), Users(p)) && Unites(Settings(levels, Teams), Teams(p))
    && Unites(Settings(levels, DismissalUsers), DismissalUsers(p))
    && Unites(Settings(levels, DismissalTeams), DismissalTeams(p))
    && Unites(Settings(levels, Exclude), Exclude(p))
  }

  lemma SettingsNext<T>(levels: seq<Policy>, q: Policy, field: Policy -> Option<T>)
    ensures Settings(levels + [q], field) == Settings(levels, field) + [field(q)]
  {}

  lemma OverridesOne<T>(levels: seq<Policy>, p: Policy, q: Policy, field: Policy -> Option<T>)
    requires field(p) == Last(Settings(levels, field))
    requires Overridden(p, q, field)
    ensures field(Apply(p, q)) == Last(Settings(levels + [q], field))
  {
    SettingsNext(levels, q, field);
    LastNext(Settings(levels, field), field(q));
  }

  ghost predicate Overridden<T>(p: Policy, q: Policy, field: Policy -> Option<T>) {
    field(Apply(p, q)) == if field(q).Some? then field(q) else field(p)
  }

  lemma OverriddenFields(p: Policy, q: Policy)
    ensures Overridden(p, q, Protect) && Overridden(p, q, Admins)
    ensures Overridden(p, q, Checks) && Overridden(p, q, Strict) && Overridden(p, q, Restricts)
    ensures Overridden(p, q, Reviews) && Overridden(p, q, DismissStale) && Overridden(p, q, RequireOwners)
    ensures Overridden(p, q, Approvals) && Overridden(p, q, Dismisses)
  {
    hide UnionStrings;
  }

  lemma OverridesNext(levels: seq<Policy>, p: Policy, q: Policy)
    requires Overrides(levels, p)
    ensures Overrides(levels + [q], Apply(p, q))
  {
    OverriddenFields(p, q);
    hide Apply, Last, Settings, Strict, Checks, Restricts, Reviews, DismissStale, RequireOwners, Approvals, Dismisses;
    hide Protect, Admins;
    OverridesOne(levels, p, q, Protect);
    OverridesOne(levels, p, q, Admins);
    OverridesOne(levels, p, q, Checks);
    OverridesOne(levels, p, q, Strict);
    OverridesOne(levels, p, q, Restricts);
    OverridesOne(levels, p, q, Reviews);
    OverridesOne(levels, p, q, DismissStale);
    OverridesOne(levels, p, q, RequireOwners);
    OverridesOne(levels, p, q, Approvals);
    OverridesOne(levels, p, q, Dismisses);
  }

  lemma UnionNext(lists: seq<Strings>, v: Strings, s: Strings)
    requires Unites(lists, v)
    ensures Unites(lists + [s], UnionStrings(v, s))
  {
    var more, u := lists + [s], UnionStrings(v, s);
    assert more[|lists|] == s && forall i :: 0 <= i < |lists| ==> more[i] == lists[i];
    UnionIsUnion(v, s);
    if v.Some? && s.Some? {
      Sorting.StringLeTotal();
      Sorting.SortedSetCorrect(Sorting.StringLe, v.value + s.value);
    }
    hide UnionStrings, Sorting.SortedSet;
    forall x
      ensures x in SetOf(u) <==> exists i :: 0 <= i < |more| && x in SetOf(more[i])
    {
      if x in SetOf(v) {
        var i :| 0 <= i < |lists| && x in SetOf(lists[i]);
        assert x in SetOf(more[i]);
      }
      if x in SetOf(s) {
        assert x in SetOf(more[|lists|]);
      }
    }
    UnionAlone(v, s);
  }

  lemma UnionAlone(v: Strings, s: Strings)
    ensures v.None? ==> UnionStrings(v, s) == s
    ensures s.None? ==> UnionStrings(v, s) == v
    ensures v.Some? && s.Some? ==> UnionStrings(v, s).Some?
  {}

  lemma CollectsOne(levels: seq<Policy>, p: Policy, q: Policy, field: Policy -> Strings)
    requires Unites(Settings(levels, field), field(p)) && field(Apply(p, q)) == UnionStrings(field(p), field(q))
    ensures Unites(Settings(levels + [q], field), field(Apply(p, q)))
  {
    SettingsNext(levels, q, field);
    UnionNext(Settings(levels, field), field(p), field(q));
  }

  lemma CollectsNext(levels: seq<Policy>, p: Policy, q: Policy)
    requires Collects(levels, p)
    ensures Collects(levels + [q], Apply(p, q))
  {
    hide Unites, UnionStrings;
    UnionAlone(None, None);
    CollectedFields(p, q);
    CollectsOne(levels, p, q, ContextList);
    CollectsOne(levels, p, q, Users);
    CollectsOne(levels, p, q, Teams);
    CollectsOne(levels, p, q, DismissalUsers);
    CollectsOne(levels, p, q, DismissalTeams);
    CollectsOne(levels, p, q, Exclude);
  }

  lemma CollectedFields(p: Policy, q: Policy)
    ensures var a := Apply(p, q);
      && ContextList(a) == UnionStrings(ContextList(p), ContextList(q))
      && Users(a) == UnionStrings(Users(p), Users(q)) && Teams(a) == UnionStrings(Teams(p), Teams(q))
      && DismissalUsers(a) == UnionStrings(DismissalUsers(p), DismissalUsers(q))
      && DismissalTeams(a) == UnionStrings(DismissalTeams(p), DismissalTeams(q))
      && Exclude(a) == UnionStrings(Exclude(p), Exclude(q))
  {}

  ghost predicate Settled(levels: seq<Policy>, p: Policy) { Overrides(levels, p) && Collects(levels, p) }

  lemma NothingSettled()
    ensures Settled([], NoPolicy)
  {}

  /** For every list of levels, whatever they set: each single-valued field has the value of the last level
      that sets it, each list the elements of all levels. */
  lemma {:induction false} MergedIsSettled(levels: seq<Policy>)
    ensures Settled(levels, Merged(levels))
  {
    if levels == [] {
      NothingSettled();
    } else {
      var front, q := levels[..|levels| - 1], levels[|levels| - 1];
      MergedIsSettled(front);
      hide Overrides, Collects, Apply;
      OverridesNext(front, Merged(front), q);
      CollectsNext(front, Merged(front), q);
      assert levels == front + [q];
    }
  }

  /** A policy defines something exactly if it sets more than excluded branches. */
  lemma DefinedExactly(p: Policy)
    ensures p.Defined() <==> p != NoPolicy.(exclude := p.exclude)
  {}

  // The policy of a branch.

  predicate Disabled(p: Policy) { p.protect == Some(false) }

  /** What Prow's own jobs add. */
  function ProwPolicy(c: Config, prowContexts: seq<string>): Policy {
    NoPolicy.(requiredStatusChecks := Some(ContextPolicy(Some(prowContexts), None)),
              protect := if c.protectTested then Some(true) else None)
  }

  function WithProw(c: Config, b: Policy, prowContexts: seq<string>): Policy {
    if prowContexts == [] then b else Apply(b, ProwPolicy(c, prowContexts))
  }

  /** What is returned for a branch whose levels merge to `b`, given Prow's contexts: which error, no policy
      (None), or which policy. */
  ghost predicate IsPolicyFor(c: Config, prow: seq<string>, b: Policy, r: Outcome<Option<Policy>>) {
    && (r == Error(JobsNeedProtection) <==> prow != [] && Disabled(b) && !c.allowDisabledJobPolicies)
    && (r == Error(PolicyNeedsProtection) <==>
          prow == [] && Disabled(b) && b != NoPolicy.(protect := Some(false), exclude := b.exclude)
          && !c.allowDisabledPolicies)
    && r != Error(BranchMustSetProtect)
    && (r == Value(None) <==>
          || (prow != [] && Disabled(b) && c.allowDisabledJobPolicies)
          || (prow == [] && b == NoPolicy.(exclude := b.exclude)))
    && (r.Value? && r.value.Some? ==> r.value.value == WithProw(c, b, prow))
  }

  method GetPolicy(c: Config, m: Matcher, branch: string, b: Policy, presubmits: seq<Presubmit>)
    returns (r: Outcome<Option<Policy>>)
    ensures IsPolicyFor(c, Contexts(m, branch, presubmits, Required), b, r)
  {
    DefinedExactly(b);
    var policy := b;
    var prowContexts, _, _ := BranchRequirements(m, branch, presubmits);
    if |prowContexts| > 0 {
      if policy.protect.Some? && !policy.protect.value {
        if c.allowDisabledJobPolicies {
          return Value(None);
        }
        return Error(JobsNeedProtection);
      }
      var ps := NoPolicy.(requiredStatusChecks := Some(ContextPolicy(Some(prowContexts), None)));
      if c.protectTested {
        ps := ps.(protect := Some(true));
      }
      policy := Apply(policy, ps);
    }
    if policy.protect.Some? && !policy.protect.value {
      var was := policy.protect;
      policy := policy.(protect := None);
      if policy.Defined() && !c.allowDisabledPolicies {
        return Error(PolicyNeedsProtection);
      }
      policy := policy.(protect := was);
    }
    if !policy.Defined() {
      return Value(None);
    }
    return Value(Some(policy));
  }

  /** The levels of a branch with what Prow's own jobs add, as the innermost one. */
  function AllLevels(c: Config, org: string, repo: string, branch: string, prow: seq<string>): seq<Policy> {
    Levels(c, org, repo, branch) + if prow == [] then [] else [ProwPolicy(c, prow)]
  }

  lemma WithProwIsSettled(c: Config, org: string, repo: string, branch: string, prow: seq<string>)
    ensures Settled(AllLevels(c, org, repo, branch, prow), WithProw(c, Merged(Levels(c, org, repo, branch)), prow))
  {
    var levels := Levels(c, org, repo, branch);
    hide Levels, Settled, Apply, ProwPolicy;
    MergedIsSettled(AllLevels(c, org, repo, branch, prow));
    if prow == [] {
      assert levels + [] == levels;
    } else {
      MergedStep(levels, ProwPolicy(c, prow));
    }
  }

  /** The branch is configured, and no level sets whether it is protected. */
  ghost predicate Undecided(c: Config, org: string, repo: string, branch: string) {
    && org in c.orgs && repo in c.orgs[org].repos && branch in c.orgs[org].repos[repo].branches
    && forall i :: 0 <= i < |Levels(c, org, repo, branch)| ==> Levels(c, org, repo, branch)[i].protect.None?
  }

  lemma UndecidedExactly(c: Config, org: string, repo: string, branch: string)
    ensures GetBranch(GetRepo(GetOrg(c, org), repo), branch).Error? <==> Undecided(c, org, repo, branch)
    ensures var b := GetBranch(GetRepo(GetOrg(c, org), repo), branch); b.Error? ==> b.error == BranchMustSetProtect
  {
    var levels := Levels(c, org, repo, branch);
    MergedIsSettled(levels);
    BranchPolicyIsMerged(c, org, repo, branch);
    LastMeans(Settings(levels, Protect), None);
    hide Levels, MergeContextPolicy, MergeRestrictions, MergeReviewPolicy, UnionStrings, Collects;
  }

  /** Any policy returned for a branch has each field as its levels and Prow's own jobs make it; it requires
      exactly the contexts set on the levels that apply to it plus every context Prow's jobs make certain; and
      protection is off only if there are no such jobs. */
  ghost predicate IsProtection(c: Config, org: string, repo: string, branch: string, prow: seq<string>, p: Policy) {
    && org in c.orgs && Settled(AllLevels(c, org, repo, branch, prow), p)
    && ContextsOf(p) == LevelContexts(Levels(c, org, repo, branch)) + Sorting.Elements(prow)
    && (Disabled(p) ==> prow == [])
  }

  method GetBranchProtection(c: Config, m: Matcher, org: string, repo: string, branch: string,
                             presubmits: seq<Presubmit>)
    returns (r: Outcome<Option<Policy>>)
    ensures r.Value? && r.value.Some? ==>
      IsProtection(c, org, repo, branch, Contexts(m, branch, presubmits, Required), r.value.value)
    ensures org in c.orgs && !Undecided(c, org, repo, branch) ==>
      IsPolicyFor(c, Contexts(m, branch, presubmits, Required), Merged(Levels(c, org, repo, branch)), r)
    ensures r == Error(BranchMustSetProtect) <==> Undecided(c, org, repo, branch)
    ensures org !in c.orgs ==> r == Value(None)
  {
    hide Levels, GetBranch, Undecided, IsPolicyFor, IsProtection, Merged;
    if org !in c.orgs {
      NotUndecided(c, org, repo, branch);
      return Value(None);
    }
    var b := GetBranch(GetRepo(GetOrg(c, org), repo), branch);
    BranchPolicyIsMerged(c, org, repo, branch);
    UndecidedExactly(c, org, repo, branch);
    if b.Error? {
      return Error(b.error);
    }
    r := GetPolicy(c, m, branch, b.value, presubmits);
    ProtectionFor(c, org, repo, branch, Contexts(m, branch, presubmits, Required), r);
  }

  lemma NotUndecided(c: Config, org: string, repo: string, branch: string)
    ensures org !in c.orgs ==> !Undecided(c, org, repo, branch)
  {}

  lemma ProtectionFor(c: Config, org: string, repo: string, branch: string, prow: seq<string>,
                      r: Outcome<Option<Policy>>)
    requires org in c.orgs && IsPolicyFor(c, prow, Merged(Levels(c, org, repo, branch)), r)
    ensures r != Error(BranchMustSetProtect)
    ensures r.Value? && r.value.Some? ==> IsProtection(c, org, repo, branch, prow, r.value.value)
  {
    WithProwIsSettled(c, org, repo, branch, prow);
    WithProwFacts(c, Levels(c, org, repo, branch), prow);
    hide Levels, Settled, WithProw, AllLevels, Merged, ContextsOf, LevelContexts;
  }

  lemma WithProwFacts(c: Config, levels: seq<Policy>, prow: seq<string>)
    ensures var p := WithProw(c, Merged(levels), prow);
      && ContextsOf(p) == LevelContexts(levels) + Sorting.Elements(prow)
      && (prow == [] ==> p == Merged(levels)) && (prow != [] && c.protectTested ==> p.protect == Some(true))
      && (prow != [] && !c.protectTested ==> p.protect == Merged(levels).protect)
  {
    MergedCollectsContexts(levels);
    ApplyCollectsContexts(Merged(levels), ProwPolicy(c, prow));
    hide UnionStrings, LevelContexts, MergeRestrictions, MergeReviewPolicy;
  }
}
