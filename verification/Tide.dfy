/** config/tide.go: which repositories a list of Tide queries covers, per repository and as a whole. */
module Tide {
  import opened Text

  datatype Query = Query(
    orgs: seq<string>, repos: seq<string>, excludedRepos: seq<string>,
    excludedBranches: seq<string>, includedBranches: seq<string>,
    labels: seq<string>, missingLabels: seq<string>)

  function FullName(org: string, repo: string): string { org + ['/'] + repo }

  // One query, one repository.

  predicate AppliesTo(q: Query, org: string, repo: string) {
    if org in q.orgs then FullName(org, repo) !in q.excludedRepos else FullName(org, repo) in q.repos
  }

  method QueryForRepo(q: Query, org: string, repo: string) returns (applies: bool)
    ensures applies <==> AppliesTo(q, org, repo)
  {
    var fullName := FullName(org, repo);
    for i := 0 to |q.orgs|
      invariant org !in q.orgs[..i]
    {
      if q.orgs[i] != org {
        continue;
      }
      for k := 0 to |q.excludedRepos|
        invariant fullName !in q.excludedRepos[..k]
      {
        if q.excludedRepos[k] == fullName {
          return false;
        }
      }
      return true;
    }
    for i := 0 to |q.repos|
      invariant fullName !in q.repos[..i]
    {
      if q.repos[i] == fullName {
        return true;
      }
    }
    return false;
  }

  // Validation.

  ghost predicate NoDuplicates(s: seq<string>) {
    forall i, j :: 0 <= i < j < |s| ==> s[i] != s[j]
  }

  predicate IsFullName(s: string) {
    var parts := Split(s, '/');
    |parts| == 2 && parts[0] != "" && parts[1] != ""
  }

  function OrgOf(s: string): string { Split(s, '/')[0] }

  ghost predicate Valid(q: Query) {
    && (forall o :: o in q.orgs ==> '/' !in o && o != "") && NoDuplicates(q.orgs)
    && (forall r :: r in q.repos ==> IsFullName(r) && OrgOf(r) !in q.orgs) && NoDuplicates(q.repos)
    && (q.orgs != [] || q.repos != [])
    && (forall r :: r in q.excludedRepos ==> IsFullName(r) && OrgOf(r) in q.orgs) && NoDuplicates(q.excludedRepos)
    && (forall l :: l in q.labels ==> l !in q.missingLabels) && NoDuplicates(q.labels) && NoDuplicates(q.missingLabels)
    && (q.excludedBranches == [] || q.includedBranches == [])
    && NoDuplicates(q.includedBranches) && NoDuplicates(q.excludedBranches)
  }

  /** The number of entries that repeat an earlier one is the difference of the two sizes. */
  method HasDuplicates(list: seq<string>) returns (dups: bool)
    ensures dups <==> !NoDuplicates(list)
  {
    var seen: set<string> := {};
    for i := 0 to |list|
      invariant seen == set x | x in list[..i]
      invariant |seen| <= i && (|seen| == i <==> NoDuplicates(list[..i]))
    {
      assert list[..i + 1] == list[..i] + [list[i]];
      if list[i] in seen {
        var k :| 0 <= k < i && list[..i][k] == list[i];
        assert list[..i + 1][k] == list[..i + 1][i];
      } else {
        assert |seen + {list[i]}| == |seen| + 1;
      }
      seen := seen + {list[i]};
    }
    assert list[..|list|] == list;
    return |list| - |seen| != 0;
  }

  /** Each element is of the form org/repo, with its org among (or not among) the given ones. */
  method CheckNames(names: seq<string>, orgs: set<string>, included: bool) returns (ok: bool)
    ensures ok <==> forall r :: r in names ==> IsFullName(r) && (OrgOf(r) in orgs <==> included)
  {
    for i := 0 to |names|
      invariant forall r :: r in names[..i] ==> IsFullName(r) && (OrgOf(r) in orgs <==> included)
    {
      var parts := Split(names[i], '/');
      assert names[i] in names;
      if |parts| != 2 || parts[0] == "" || parts[1] == "" || (parts[0] in orgs) != included {
        return false;
      }
    }
    assert names[..|names|] == names;
    return true;
  }

  method Validate(q: Query) returns (ok: bool)
    ensures ok <==> Valid(q)
  {
    var orgs: set<string> := {};
    for i := 0 to |q.orgs|
      invariant orgs == set o | o in q.orgs[..i]
      invariant forall o :: o in q.orgs[..i] ==> '/' !in o && o != ""
    {
      assert q.orgs[i] in q.orgs && q.orgs[..i + 1] == q.orgs[..i] + [q.orgs[i]];
      if '/' in q.orgs[i] || q.orgs[i] == "" {
        return false;
      }
      orgs := orgs + {q.orgs[i]};
    }
    assert q.orgs[..|q.orgs|] == q.orgs;
    var dups := HasDuplicates(q.orgs);
    if dups { return false; }
    var named := CheckNames(q.repos, orgs, false);
    if !named { return false; }
    dups := HasDuplicates(q.repos);
    if dups { return false; }
    if q.orgs == [] && q.repos == [] { return false; }
    named := CheckNames(q.excludedRepos, orgs, true);
    if !named { return false; }
    dups := HasDuplicates(q.excludedRepos);
    if dups { return false; }
    var invalids := set l | l in q.labels && l in q.missingLabels;
    if invalids != {} {
      var l :| l in invalids;
      return false;
    }
    assert forall l :: l in q.labels && l in q.missingLabels ==> l in invalids;
    dups := HasDuplicates(q.labels);
    if dups { return false; }
    dups := HasDuplicates(q.missingLabels);
    if dups { return false; }
    if q.excludedBranches != [] && q.includedBranches != [] { return false; }
    dups := HasDuplicates(q.includedBranches);
    if dups { return false; }
    dups := HasDuplicates(q.excludedBranches);
    return !dups;
  }

  // All queries, all repositories.

  predicate HasPrefix(s: string, prefix: string) { |prefix| <= |s| && s[..|prefix|] == prefix }

  /** The repos of the list that belong to the org. */
  method ReposInOrg(org: string, repos: seq<string>) returns (res: set<string>)
    ensures res == set r | r in repos && HasPrefix(r, org + ['/'])
  {
    res := {};
    for i := 0 to |repos|
      invariant res == set r | r in repos[..i] && HasPrefix(r, org + ['/'])
    {
      assert repos[..i + 1] == repos[..i] + [repos[i]];
      if HasPrefix(repos[i], org + ['/']) {
        res := res + {repos[i]};
      }
    }
    assert repos[..|repos|] == repos;
  }

  ghost predicate Lists(qs: seq<Query>, org: string) { exists q :: q in qs && org in q.orgs }

  /** Excluded by every query that lists the org. */
  ghost predicate Excluded(qs: seq<Query>, org: string, r: string) {
    HasPrefix(r, org + ['/']) && forall q :: q in qs && org in q.orgs ==> r in q.excludedRepos
  }

  ghost predicate Names(qs: seq<Query>, r: string) { exists q :: q in qs && r in q.repos }

  ghost predicate Exceptions(qs: seq<Query>, orgs: map<string, set<string>>) {
    && (forall org :: org in orgs <==> Lists(qs, org))
    && (forall org, r :: org in orgs ==> (r in orgs[org] <==> Excluded(qs, org, r)))
  }

  /** What the pair returned by OrgExceptionsAndRepos means. */
  ghost predicate Covers(qs: seq<Query>, orgs: map<string, set<string>>, repos: set<string>) {
    && (forall org :: org in orgs <==> Lists(qs, org))
    && (forall org, r :: org in orgs ==> (r in orgs[org] <==> Excluded(qs, org, r) && !Names(qs, r)))
    && (forall r :: r in repos <==> Names(qs, r))
  }

  /** The orgs of one query: the exceptions of an org seen before are intersected. */
  method AddOrgs(orgs: map<string, set<string>>, q: Query) returns (more: map<string, set<string>>)
    ensures more.Keys == orgs.Keys + set o | o in q.orgs
    ensures forall org :: org in more && org !in q.orgs ==> more[org] == orgs[org]
    ensures forall org, r :: org in more && org in q.orgs ==>
      (r in more[org] <==> r in q.excludedRepos && HasPrefix(r, org + ['/']) && (org in orgs ==> r in orgs[org]))
  {
    more := orgs;
    for i := 0 to |q.orgs|
      invariant more.Keys == orgs.Keys + set o | o in q.orgs[..i]
      invariant forall org :: org in more && org !in q.orgs[..i] ==> more[org] == orgs[org]
      invariant forall org, r :: org in more && org in q.orgs[..i] ==>
        (r in more[org] <==> r in q.excludedRepos && HasPrefix(r, org + ['/']) && (org in orgs ==> r in orgs[org]))
    {
      var org := q.orgs[i];
      assert q.orgs[..i + 1] == q.orgs[..i] + [org];
      var applicable := ReposInOrg(org, q.excludedRepos);
      more := more[org := if org in more then more[org] * applicable else applicable];
    }
    assert q.orgs[..|q.orgs|] == q.orgs;
  }

  lemma ListsOneMore(qs: seq<Query>, q: Query, org: string)
    ensures Lists(qs + [q], org) <==> Lists(qs, org) || org in q.orgs
  {
    if Lists(qs, org) {
      var p :| p in qs && org in p.orgs;
      assert p in qs + [q];
    } else if org in q.orgs {
      assert q in qs + [q];
    }
  }

  lemma ExceptionsOneMore(qs: seq<Query>, q: Query, orgs: map<string, set<string>>, more: map<string, set<string>>)
    requires Exceptions(qs, orgs)
    requires more.Keys == orgs.Keys + set o | o in q.orgs
    requires forall org :: org in more && org !in q.orgs ==> more[org] == orgs[org]
    requires forall org, r :: org in more && org in q.orgs ==>
      (r in more[org] <==> r in q.excludedRepos && HasPrefix(r, org + ['/']) && (org in orgs ==> r in orgs[org]))
    ensures Exceptions(qs + [q], more)
  {
    forall org
      ensures org in more <==> Lists(qs + [q], org)
    {
      ListsOneMore(qs, q, org);
      assert org in orgs <==> Lists(qs, org);
    }
    forall org, r | org in more
      ensures r in more[org] <==> Excluded(qs + [q], org, r)
    {
      ExcludedOneMore(qs, q, org, r);
      if org !in orgs {
        UnlistedIsExcluded(qs, org, r);
      }
      hide Excluded, HasPrefix, Lists;
      if org in orgs {
        assert r in orgs[org] <==> Excluded(qs, org, r);
      }
      if org in q.orgs {
        assert r in more[org] <==>
          r in q.excludedRepos && HasPrefix(r, org + ['/']) && (org in orgs ==> r in orgs[org]);
      }
    }
  }

  lemma UnlistedIsExcluded(qs: seq<Query>, org: string, r: string)
    requires !Lists(qs, org)
    ensures Excluded(qs, org, r) <==> HasPrefix(r, org + ['/'])
  {
  }

  lemma ExcludedOneMore(qs: seq<Query>, q: Query, org: string, r: string)
    ensures Excluded(qs + [q], org, r) <==> Excluded(qs, org, r) && (org in q.orgs ==> r in q.excludedRepos)
    ensures Excluded(qs, org, r) ==> HasPrefix(r, org + ['/'])
  {
    assert q in qs + [q];
    assert forall p :: p in qs + [q] <==> p in qs || p == q;
  }

  method OrgExceptionsAndRepos(qs: seq<Query>) returns (orgs: map<string, set<string>>, repos: set<string>)
    ensures Covers(qs, orgs, repos)
  {
    orgs := map[];
    for i := 0 to |qs|
      invariant Exceptions(qs[..i], orgs)
    {
      var more := AddOrgs(orgs, qs[i]);
      ExceptionsOneMore(qs[..i], qs[i], orgs, more);
      assert qs[..i + 1] == qs[..i] + [qs[i]];
      orgs := more;
    }
    repos := {};
    for i := 0 to |qs|
      invariant forall r :: r in repos <==> Names(qs[..i], r)
    {
      assert forall q :: q in qs[..i + 1] <==> q in qs[..i] || q == qs[i];
      ghost var before := repos;
      repos := repos + set r | r in qs[i].repos;
      forall r
        ensures r in repos <==> Names(qs[..i + 1], r)
      {
        if r in qs[i].repos {
          assert qs[i] in qs[..i + 1];
        } else if r in before {
          var q :| q in qs[..i] && r in q.repos;
          assert q in qs[..i + 1];
        }
      }
    }
    assert qs[..|qs|] == qs;
    orgs := map org | org in orgs :: orgs[org] - repos;
  }

  /** The exceptions of an org are repos of that org. */
  lemma ExceptionsAreOwnRepos(qs: seq<Query>, orgs: map<string, set<string>>, repos: set<string>, org: string,
                              r: string)
    requires Covers(qs, orgs, repos) && org in orgs && r in orgs[org]
    ensures exists repo :: r == org + "/" + repo
  {
    assert Excluded(qs, org, r);
    assert r == org + "/" + r[|org| + 1..];
  }

  // The two views agree.

  ghost predicate SomeApplies(qs: seq<Query>, org: string, repo: string) {
    exists q :: q in qs && AppliesTo(q, org, repo)
  }

  ghost predicate Covered(orgs: map<string, set<string>>, repos: set<string>, org: string, repo: string) {
    (org in orgs && FullName(org, repo) !in orgs[org]) || FullName(org, repo) in repos
  }

  /** Some query names the repo, but every query that names it also lists its org, and every query that
      lists the org excludes the repo. */
  ghost predicate Shadowed(qs: seq<Query>, org: string, repo: string) {
    && Names(qs, FullName(org, repo))
    && (forall q :: q in qs && FullName(org, repo) in q.repos ==> org in q.orgs)
    && (forall q :: q in qs && org in q.orgs ==> FullName(org, repo) in q.excludedRepos)
  }

  /** Per-repo matching and coverage disagree about a repo exactly when it is shadowed. */
  lemma AgreementExactly(qs: seq<Query>, orgs: map<string, set<string>>, repos: set<string>, org: string, repo: string)
    requires Covers(qs, orgs, repos)
    ensures (SomeApplies(qs, org, repo) <==> Covered(orgs, repos, org, repo)) <==> !Shadowed(qs, org, repo)
  {
    var fullName := FullName(org, repo);
    assert HasPrefix(fullName, org + ['/']);
    if SomeApplies(qs, org, repo) {
      var q :| q in qs && AppliesTo(q, org, repo);
      assert org in q.orgs ==> Lists(qs, org) && !Excluded(qs, org, fullName);
      assert org !in q.orgs ==> Names(qs, fullName);
    } else if Names(qs, fullName) {
      forall q | q in qs && fullName in q.repos
        ensures org in q.orgs
      {
        assert !AppliesTo(q, org, repo);
      }
      assert forall q :: q in qs && org in q.orgs ==> !AppliesTo(q, org, repo);
    } else if org in orgs && fullName !in orgs[org] {
      var q :| q in qs && org in q.orgs && fullName !in q.excludedRepos;
      assert AppliesTo(q, org, repo);
    }
  }

  lemma ValidIsNotShadowed(qs: seq<Query>, org: string, repo: string)
    requires '/' !in org && '/' !in repo
    requires forall q :: q in qs ==> Valid(q)
    ensures !Shadowed(qs, org, repo)
  {
    SplitJoin([org, repo], '/');
    assert Join([org, repo], '/') == FullName(org, repo) by { assert [org, repo][1..] == [repo]; }
    assert OrgOf(FullName(org, repo)) == org;
    if Names(qs, FullName(org, repo)) {
      var q :| q in qs && FullName(org, repo) in q.repos;
    }
  }

  /** For validated queries some query applies to a repo exactly when the repo is covered. */
  lemma CoverageAgrees(qs: seq<Query>, orgs: map<string, set<string>>, repos: set<string>, org: string, repo: string)
    requires Covers(qs, orgs, repos) && '/' !in org && '/' !in repo
    requires forall q :: q in qs ==> Valid(q)
    ensures SomeApplies(qs, org, repo) <==> Covered(orgs, repos, org, repo)
  {
    AgreementExactly(qs, orgs, repos, org, repo);
    ValidIsNotShadowed(qs, org, repo);
  }

  // The lazily filled index.

  ghost function Matching(qs: seq<Query>, org: string, repo: string): seq<Query> {
    if qs == [] then []
    else
      var last := qs[|qs| - 1];
      Matching(qs[..|qs| - 1], org, repo) + if AppliesTo(last, org, repo) then [last] else []
  }

  /** What the queries give for some repository of that full name. */
  ghost predicate IsAnswer(qs: seq<Query>, fullName: string, res: seq<Query>) {
    exists org, repo :: FullName(org, repo) == fullName && res == Matching(qs, org, repo)
  }

  lemma FullNameUnique(org: string, repo: string, o: string, r: string)
    requires '/' !in org && '/' !in repo && FullName(o, r) == FullName(org, repo)
    ensures o == org && r == repo
  {
    var s, t := FullName(org, repo), FullName(o, r);
    assert forall i :: 0 <= i < |s| && i != |org| ==> s[i] != '/';
    assert t[|o|] == '/';
    assert s[..|org|] == org && t[..|o|] == o && s[|org| + 1..] == repo && t[|o| + 1..] == r;
  }

  class QueryMap {
    const queries: seq<Query>
    var cache: map<string, seq<Query>>

    ghost predicate Valid()
      reads this
    {
      forall name :: name in cache ==> IsAnswer(queries, name, cache[name])
    }

    constructor (queries: seq<Query>)
      ensures Valid() && this.queries == queries && cache == map[]
    {
      this.queries := queries;
      cache := map[];
    }

    /** The answer, from the cache or not, is what the queries give for a repository of that full name:
        for names without slashes, for this one. */
    method ForRepo(org: string, repo: string) returns (res: seq<Query>)
      requires Valid()
      modifies this`cache
      ensures Valid() && IsAnswer(queries, FullName(org, repo), res)
      ensures '/' !in org && '/' !in repo ==> res == Matching(queries, org, repo)
      ensures FullName(org, repo) !in old(cache) ==> res == Matching(queries, org, repo)
      ensures cache == old(cache)[FullName(org, repo) := res]
    {
      var fullName := FullName(org, repo);
      if fullName in cache {
        res := cache[fullName];
        ghost var o, r :| FullName(o, r) == fullName && res == Matching(queries, o, r);
        if '/' !in org && '/' !in repo {
          FullNameUnique(org, repo, o, r);
        }
        assert cache == cache[fullName := res];
        return;
      }
      res := MatchingQueries(org, repo);
      assert IsAnswer(queries, fullName, res);
      cache := cache[fullName := res];
    }

    method MatchingQueries(org: string, repo: string) returns (res: seq<Query>)
      ensures res == Matching(queries, org, repo)
    {
      res := [];
      for i := 0 to |queries|
        invariant res == Matching(queries[..i], org, repo)
      {
        assert queries[..i + 1][..i] == queries[..i];
        var applies := QueryForRepo(queries[i], org, repo);
        if applies {
          res := res + [queries[i]];
        }
      }
      assert queries[..|queries|] == queries;
    }
  }
}
