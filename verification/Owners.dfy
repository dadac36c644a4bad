/** repoowners/repoowners.go: who owns a file, from the OWNERS entries of the directories above it. */
module Owners {
  import opened Text

  /** A compiled pattern, by identity; its language is given by a matcher. None is the absent pattern. */
  type Re = nat

  type Matcher = (Re, string) -> bool

  type OwnerMap = map<string, map<Option<Re>, set<string>>>

  datatype RepoOwners = RepoOwners(
    approvers: OwnerMap, reviewers: OwnerMap, requiredReviewers: OwnerMap, labels: OwnerMap,
    noParentOwners: set<string>, enableMDYAML: bool)

  const BaseDir := ""

  // Directories. Paths are clean and relative to the repository.

  /** What precedes the last slash. */
  function BeforeLastSlash(s: string): (r: string)
    ensures |r| <= |s| && (s != "" ==> |r| < |s|)
  {
    if s == "" then "" else if s[|s| - 1] == '/' then s[..|s| - 1] else BeforeLastSlash(s[..|s| - 1])
  }

  function Dir(path: string): string {
    var d := BeforeLastSlash(path);
    if d == "" then "." else d
  }

  function Canonicalize(path: string): string {
    if path == "." then BaseDir
    else if HasSuffix(path, "/") then path[..|path| - 1] else path
  }

  /** The walk goes up by one directory, and gets shorter. */
  function Parent(d: string): (r: string)
    requires d != BaseDir
    ensures |r| < |d|
  {
    Canonicalize(Dir(d))
  }

  /** The part of `path` below its ancestor `d`. */
  function Relative(d: string, path: string): string {
    if d == path then "."
    else if d == BaseDir then path
    else if |d| < |path| then path[|d| + 1..]
    else "."
  }

  ghost predicate CleanPath(path: string) { path != "." && !HasSuffix(path, "/") }

  // What the maps mean at one directory.

  function Matching(m: Matcher, people: OwnerMap, d: string, path: string): set<string> {
    if d !in people then {}
    else set re, x | re in people[d].Keys && (re.None? || m(re.value, Relative(d, path))) && x in people[d][re] :: x
  }

  /** The directories a walk from `d` visits: up to the root, or to the first that has no parent owners. */
  function Chain(noParent: set<string>, d: string): (r: seq<string>)
    ensures r != [] && r[0] == d
    decreases |d|
  {
    if d == BaseDir || d in noParent then [d] else [d] + Chain(noParent, Parent(d))
  }

  /** Everyone on the chain. */
  ghost function All(m: Matcher, people: OwnerMap, path: string, chain: seq<string>): set<string> {
    set i, x | 0 <= i < |chain| && x in Matching(m, people, chain[i], path) :: x
  }

  /** Those at the first directory of the chain that has anyone. */
  function Leaf(m: Matcher, people: OwnerMap, path: string, chain: seq<string>): set<string> {
    if chain == [] then {}
    else
      var here := Matching(m, people, chain[0], path);
      if here != {} then here else Leaf(m, people, path, chain[1..])
  }

  lemma AllFirst(m: Matcher, people: OwnerMap, path: string, chain: seq<string>)
    requires chain != []
    ensures All(m, people, path, chain) == Matching(m, people, chain[0], path) + All(m, people, path, chain[1..])
  {
    var all, rest := All(m, people, path, chain), All(m, people, path, chain[1..]);
    forall x
      ensures x in rest ==> x in all
      ensures x in all ==> x in Matching(m, people, chain[0], path) || x in rest
    {
      if x in rest {
        var i :| 0 <= i < |chain[1..]| && x in Matching(m, people, chain[1..][i], path);
        assert chain[i + 1] == chain[1..][i];
      }
      if x in all {
        var i :| 0 <= i < |chain| && x in Matching(m, people, chain[i], path);
        assert i > 0 ==> chain[1..][i - 1] == chain[i];
      }
    }
  }

  lemma {:induction false} AllAppend(m: Matcher, people: OwnerMap, path: string, a: seq<string>, b: seq<string>)
    ensures All(m, people, path, a + b) == All(m, people, path, a) + All(m, people, path, b)
  {
    if a == [] {
      assert a + b == b;
    } else {
      assert (a + b)[1..] == a[1..] + b;
      AllAppend(m, people, path, a[1..], b);
      AllFirst(m, people, path, a);
      AllFirst(m, people, path, a + b);
    }
  }

  lemma {:induction false} LeafAfterNobody(m: Matcher, people: OwnerMap, path: string, before: seq<string>,
                                           after: seq<string>)
    requires All(m, people, path, before) == {}
    ensures Leaf(m, people, path, before + after) == Leaf(m, people, path, after)
  {
    if before == [] {
      assert before + after == after;
    } else {
      AllFirst(m, people, path, before);
      assert (before + after)[1..] == before[1..] + after;
      LeafAfterNobody(m, people, path, before[1..], after);
    }
  }

  // Ancestors.

  /** Segments separated by single slashes, none of them empty or a dot; the root is the empty path. */
  ghost predicate Clean(path: string) {
    path == BaseDir || forall seg :: seg in Split(path, '/') ==> Segment(seg)
  }

  predicate HasPrefix(s: string, prefix: string) { |prefix| <= |s| && s[..|prefix|] == prefix }

  /** `d` is the path itself, a directory that contains it, or the root. */
  predicate Ancestor(d: string, path: string) { d == path || d == BaseDir || HasPrefix(path, d + ['/']) }

  lemma {:induction false} SplitLast(p: string, s: string)
    requires '/' !in s
    ensures Split(p + ['/'] + s, '/') == Split(p, '/') + [s]
    decreases |p|
  {
    CutCorrect(p, '/');
    CutCorrect(s, '/');
    var path := p + ['/'] + s;
    match Cut(p, '/')
    case None =>
      CutJoined(p, '/', s);
    case Some((before, after)) =>
      assert path == before + ['/'] + (after + ['/'] + s);
      CutJoined(before, '/', after + ['/'] + s);
      SplitLast(after, s);
  }

  predicate Segment(seg: string) { seg != "" && seg != "." }

  lemma SegmentsOnly(p: string)
    requires forall seg :: seg in Split(p, '/') ==> Segment(seg)
    ensures p != "" && CleanPath(p)
  {
    ShortSplits();
    TrailingSlash(p);
    assert p == "" || p == "." ==> p in Split(p, '/');
    hide Split, HasSuffix;
  }

  lemma CleanLast(p: string, s: string)
    requires '/' !in s && Clean(p + ['/'] + s)
    ensures Clean(p) && p != "" && CleanPath(p) && Segment(s)
  {
    SplitLast(p, s);
    assert |p + ['/'] + s| > 0;
    hide Split, CleanPath;
    var parts := Split(p, '/') + [s];
    assert s in parts && forall seg :: seg in Split(p, '/') ==> seg in parts;
    SegmentsOnly(p);
  }

  lemma ShortSplits()
    ensures Split("", '/') == [""] && Split(".", '/') == ["."]
  {}

  lemma TrailingSlash(p: string)
    ensures HasSuffix(p, "/") ==> "" in Split(p, '/')
  {
    if HasSuffix(p, "/") {
      var q := p[..|p| - 1];
      assert p == q + ['/'] + "";
      SplitLast(q, "");
      assert "" in Split(q, '/') + [""];
    }
  }

  lemma {:induction false} LastSlash(p: string, s: string)
    requires '/' !in s
    ensures BeforeLastSlash(p + ['/'] + s) == p && BeforeLastSlash(s) == ""
  {
    var path := p + ['/'] + s;
    if s == "" {
      assert path[..|path| - 1] == p;
    } else {
      var front := s[..|s| - 1];
      assert path[..|path| - 1] == p + ['/'] + front;
      LastSlash(p, front);
    }
  }

  /** The parent of a path is what precedes its last segment, or the root. */
  lemma ParentMeans(p: string, s: string)
    requires '/' !in s && s != ""
    ensures CleanPath(p) && p != "" ==> Parent(p + ['/'] + s) == p
    ensures Parent(s) == BaseDir
  {
    LastSlash(p, s);
  }

  /** Every path has a last segment. */
  lemma {:induction false} LastSegment(path: string) returns (p: string, s: string)
    ensures '/' !in s
    ensures if '/' in path then path == p + ['/'] + s else path == s
  {
    if path == "" || path[|path| - 1] == '/' {
      p, s := if path == "" then "" else path[..|path| - 1], "";
    } else {
      var front := path[..|path| - 1];
      p, s := LastSegment(front);
      assert path == front + [path[|path| - 1]];
      s := s + [path[|path| - 1]];
    }
  }

  lemma AncestorsOfChild(p: string, s: string, d: string)
    requires '/' !in s && p != ""
    ensures Ancestor(d, p + ['/'] + s) <==> d == p + ['/'] + s || Ancestor(d, p)
  {
    var path := p + ['/'] + s;
    assert forall k :: |p| < k < |path| ==> path[k] == s[k - |p| - 1];
    if HasPrefix(path, d + ['/']) {
      assert path[|d|] == '/';
      if |d| == |p| {
        assert path[..|d|] == d && path[..|p|] == p;
      } else {
        assert p[..|d| + 1] == path[..|d| + 1];
      }
    }
    if HasPrefix(p, d + ['/']) {
      assert path[..|d| + 1] == p[..|d| + 1];
    }
    if d == p {
      assert path[..|p| + 1] == p + ['/'];
    }
  }

  lemma TopHasNoAncestors(s: string, d: string)
    requires '/' !in s
    ensures Ancestor(d, s) <==> d == s || d == BaseDir
  {
    if HasPrefix(s, d + ['/']) {
      SlashInside(s, d);
    }
  }

  lemma SlashInside(s: string, d: string)
    requires HasPrefix(s, d + ['/'])
    ensures '/' in s
  {
    assert s[|d|] == '/';
  }

  /** Longer paths come first. */
  ghost predicate Descending(chain: seq<string>) { forall i, j :: 0 <= i < j < |chain| ==> |chain[i]| > |chain[j]| }

  /** For a clean path the walk visits exactly the path, the directories that contain it and the root, from the
      longest to the shortest. */
  lemma {:induction false} ChainIsAncestors(path: string)
    requires Clean(path)
    ensures forall d :: d in Chain({}, path) <==> Ancestor(d, path)
    ensures Descending(Chain({}, path))
    decreases |path|
  {
    if path == BaseDir {
      assert Chain({}, path) == [BaseDir];
    } else {
      var p, s := LastSegment(path);
      if '/' in path {
        CleanLast(p, s);
        ParentMeans(p, s);
        ChainIsAncestors(p);
        forall d
          ensures d in Chain({}, path) <==> Ancestor(d, path)
        {
          AncestorsOfChild(p, s, d);
        }
        ChainDescends(path, p);
      } else {
        ParentMeans("", s);
        ChainIsAncestors(BaseDir);
        forall d
          ensures d in Chain({}, path) <==> Ancestor(d, path)
        {
          TopHasNoAncestors(s, d);
        }
        ChainDescends(path, BaseDir);
      }
    }
  }

  lemma ChainDescends(path: string, p: string)
    requires path != BaseDir && Parent(path) == p && Descending(Chain({}, p))
    ensures Descending(Chain({}, path))
  {
    var chain, rest := Chain({}, path), Chain({}, p);
    assert chain == [path] + rest && rest[0] == p && |path| > |p|;
    forall i, j | 0 <= i < j < |chain|
      ensures |chain[i]| > |chain[j]|
    {
      assert chain[j] == rest[j - 1];
      if i > 0 {
        assert chain[i] == rest[i - 1];
      } else if j > 1 {
        assert |rest[0]| > |rest[j - 1]|;
      }
    }
  }

  /** In general it visits the ancestors up to the first that has no parent owners. */
  lemma {:induction false} ChainStops(noParent: set<string>, path: string)
    ensures var chain, all := Chain(noParent, path), Chain({}, path);
      && |chain| <= |all| && chain == all[..|chain|]
      && (forall i :: 0 <= i < |chain| - 1 ==> chain[i] !in noParent)
      && (chain[|chain| - 1] in noParent || |chain| == |all|)
    decreases |path|
  {
    if path != BaseDir && path !in noParent {
      ChainStops(noParent, Parent(path));
    }
  }

  /** `d` is not cut off from the path by a directory below it that has no parent owners. */
  ghost predicate Reaches(noParent: set<string>, d: string, path: string) {
    Ancestor(d, path) && forall c :: Ancestor(c, path) && |c| > |d| ==> c !in noParent
  }

  lemma OnChainReaches(noParent: set<string>, path: string, chain: seq<string>, all: seq<string>, d: string)
    requires Descending(all) && (forall c :: c in all <==> Ancestor(c, path))
    requires |chain| <= |all| && chain == all[..|chain|] && d in chain
    requires forall i :: 0 <= i < |chain| - 1 ==> chain[i] !in noParent
    ensures Reaches(noParent, d, path)
  {
    hide Ancestor;
    var i :| 0 <= i < |chain| && chain[i] == d;
    assert all[i] == d && d in all;
    forall c | Ancestor(c, path) && |c| > |d|
      ensures c !in noParent
    {
      assert c in all;
      var j :| 0 <= j < |all| && all[j] == c;
      assert j < i && chain[j] == c;
    }
  }

  lemma ReachedIsOnChain(noParent: set<string>, path: string, chain: seq<string>, all: seq<string>, d: string)
    requires Descending(all) && (forall c :: c in all <==> Ancestor(c, path))
    requires 0 < |chain| <= |all| && chain == all[..|chain|] && Reaches(noParent, d, path)
    requires chain[|chain| - 1] in noParent || |chain| == |all|
    ensures d in chain
  {
    hide Ancestor;
    assert d in all;
    var j :| 0 <= j < |all| && all[j] == d;
    var last := chain[|chain| - 1];
    assert last == all[|chain| - 1] && last in all;
    assert j >= |chain| ==> |last| > |d|;
    assert j < |chain|;
    assert chain[j] == d;
  }

  lemma ChainReaches(noParent: set<string>, path: string, d: string)
    requires Clean(path)
    ensures d in Chain(noParent, path) <==> Reaches(noParent, d, path)
  {
    ChainIsAncestors(path);
    ChainStops(noParent, path);
    var chain, all := Chain(noParent, path), Chain({}, path);
    hide Chain, Ancestor, Reaches, Descending, Clean;
    if d in chain {
      OnChainReaches(noParent, path, chain, all, d);
    } else if Reaches(noParent, d, path) {
      ReachedIsOnChain(noParent, path, chain, all, d);
    }
  }

  // What owners mean.

  /** `rest` is the path as seen from its ancestor `d`. */
  ghost predicate SeenFrom(d: string, rest: string, path: string) {
    if d == path then rest == "."
    else if d == BaseDir then rest == path
    else path == d + ['/'] + rest
  }

  /** `x` has an entry at `d` whose pattern, if it has one, matches the path as seen from there. */
  ghost predicate OwnerAt(m: Matcher, people: OwnerMap, d: string, path: string, x: string) {
    d in people
    && exists re, rest ::
         re in people[d] && x in people[d][re] && SeenFrom(d, rest, path) && (re.None? || m(re.value, rest))
  }

  lemma MatchingMeans(m: Matcher, people: OwnerMap, d: string, path: string, x: string)
    requires Ancestor(d, path)
    ensures x in Matching(m, people, d, path) <==> OwnerAt(m, people, d, path, x)
  {
    var rest := Relative(d, path);
    assert SeenFrom(d, rest, path) by {
      if d != path && d != BaseDir {
        assert path == path[..|d| + 1] + path[|d| + 1..];
      }
    }
    forall other | SeenFrom(d, other, path)
      ensures other == rest
    {
      if d != path && d != BaseDir {
        assert (d + ['/'] + other)[|d| + 1..] == other;
      }
    }
    if x in Matching(m, people, d, path) {
      var re :| re in people[d].Keys && (re.None? || m(re.value, rest)) && x in people[d][re];
      assert re in people[d];
    }
  }

  /** For a clean path: somebody owns it exactly if there is an entry for them, at the path, a directory that
      contains it or the root, that is not cut off by a directory in between without parent owners. */
  lemma OwnersMean(m: Matcher, o: RepoOwners, people: OwnerMap, path: string, x: string)
    requires Clean(path)
    ensures x in All(m, people, path, Chain(o.noParentOwners, StartDir(o, path))) <==>
      exists d :: Reaches(o.noParentOwners, d, path) && OwnerAt(m, people, d, path, x)
  {
    var chain := Chain(o.noParentOwners, path);
    StartIsPath(o, path);
    forall d
      ensures d in chain <==> Reaches(o.noParentOwners, d, path)
      ensures Reaches(o.noParentOwners, d, path) ==>
        (x in Matching(m, people, d, path) <==> OwnerAt(m, people, d, path, x))
    {
      ChainReaches(o.noParentOwners, path, d);
      if Reaches(o.noParentOwners, d, path) {
        MatchingMeans(m, people, d, path, x);
      }
    }
    hide Chain, StartDir, Matching, OwnerAt, Reaches, Clean;
    if d :| Reaches(o.noParentOwners, d, path) && OwnerAt(m, people, d, path, x) {
      var i :| 0 <= i < |chain| && chain[i] == d;
      assert x in Matching(m, people, chain[i], path);
    }
    if x in All(m, people, path, chain) {
      var i :| 0 <= i < |chain| && x in Matching(m, people, chain[i], path);
      assert chain[i] in chain;
    }
  }

  lemma StartIsPath(o: RepoOwners, path: string)
    requires Clean(path)
    ensures StartDir(o, path) == path
  {
    if path != BaseDir {
      SegmentsOnly(path);
    }
    hide Split;
  }

  /** The leaf owners are those of the first of the chain's directories that has any. */
  lemma {:induction false} LeafIsFirst(m: Matcher, people: OwnerMap, path: string, chain: seq<string>, x: string)
    ensures x in Leaf(m, people, path, chain) <==>
      exists i :: 0 <= i < |chain| && x in Matching(m, people, chain[i], path)
        && forall j :: 0 <= j < i ==> Matching(m, people, chain[j], path) == {}
  {
    hide Matching;
    if chain != [] {
      var rest := chain[1..];
      LeafIsFirst(m, people, path, rest, x);
      if Matching(m, people, chain[0], path) == {} {
        if i :| 0 <= i < |rest| && x in Matching(m, people, rest[i], path)
                && forall j :: 0 <= j < i ==> Matching(m, people, rest[j], path) == {} {
          assert x in Matching(m, people, chain[i + 1], path);
          assert forall j :: 0 < j < i + 1 ==> chain[j] == rest[j - 1];
        }
        if i :| 0 <= i < |chain| && x in Matching(m, people, chain[i], path)
                && forall j :: 0 <= j < i ==> Matching(m, people, chain[j], path) == {} {
          assert x in Matching(m, people, rest[i - 1], path);
          assert forall j :: 0 <= j < i - 1 ==> rest[j] == chain[j + 1];
        }
      }
    }
  }

  /** Nobody has an entry for the path at `d`. */
  ghost predicate NobodyAt(m: Matcher, people: OwnerMap, d: string, path: string) {
    forall x :: !OwnerAt(m, people, d, path, x)
  }

  /** For a clean path: somebody is a leaf owner exactly if they own it at a directory below which, on the way
      to the path, nobody does. */
  lemma LeafOwnersMean(m: Matcher, o: RepoOwners, people: OwnerMap, path: string, x: string)
    requires Clean(path)
    ensures x in Leaf(m, people, path, Chain(o.noParentOwners, StartDir(o, path))) <==>
      exists d :: Reaches(o.noParentOwners, d, path) && OwnerAt(m, people, d, path, x)
        && forall c :: Ancestor(c, path) && |c| > |d| ==> NobodyAt(m, people, c, path)
  {
    var chain := Chain(o.noParentOwners, path);
    StartIsPath(o, path);
    ChainDescending(o.noParentOwners, path);
    LeafIsFirst(m, people, path, chain, x);
    forall d
      ensures d in chain <==> Reaches(o.noParentOwners, d, path)
      ensures Ancestor(d, path) ==> (x in Matching(m, people, d, path) <==> OwnerAt(m, people, d, path, x))
      ensures Ancestor(d, path) ==> (Matching(m, people, d, path) == {} <==> NobodyAt(m, people, d, path))
    {
      ChainReaches(o.noParentOwners, path, d);
      if Ancestor(d, path) {
        MatchingMeans(m, people, d, path, x);
        MatchingEmpty(m, people, d, path);
      }
    }
    LeafOwnersOf(m, people, o.noParentOwners, path, chain, x);
  }

  lemma MatchingEmpty(m: Matcher, people: OwnerMap, d: string, path: string)
    requires Ancestor(d, path)
    ensures Matching(m, people, d, path) == {} <==> NobodyAt(m, people, d, path)
  {
    forall x
      ensures x in Matching(m, people, d, path) <==> OwnerAt(m, people, d, path, x)
    {
      MatchingMeans(m, people, d, path, x);
    }
    hide Matching, OwnerAt;
    if Matching(m, people, d, path) != {} {
      var x :| x in Matching(m, people, d, path);
      assert OwnerAt(m, people, d, path, x);
    }
  }

  lemma ChainDescending(noParent: set<string>, path: string)
    requires Clean(path)
    ensures Descending(Chain(noParent, path))
  {
    ChainIsAncestors(path);
    ChainStops(noParent, path);
  }

  lemma LeafOwnersOf(m: Matcher, people: OwnerMap, noParent: set<string>, path: string, chain: seq<string>, x: string)
    requires Descending(chain) && (forall d :: d in chain <==> Reaches(noParent, d, path))
    requires forall d :: Ancestor(d, path) ==>
      && (x in Matching(m, people, d, path) <==> OwnerAt(m, people, d, path, x))
      && (Matching(m, people, d, path) == {} <==> NobodyAt(m, people, d, path))
    ensures (exists i :: 0 <= i < |chain| && x in Matching(m, people, chain[i], path)
               && forall j :: 0 <= j < i ==> Matching(m, people, chain[j], path) == {})
       <==> (exists d :: Reaches(noParent, d, path) && OwnerAt(m, people, d, path, x)
               && forall c :: Ancestor(c, path) && |c| > |d| ==> NobodyAt(m, people, c, path))
  {
    hide Matching, OwnerAt, NobodyAt, Ancestor;
    if i :| 0 <= i < |chain| && x in Matching(m, people, chain[i], path)
            && forall j :: 0 <= j < i ==> Matching(m, people, chain[j], path) == {} {
      var d := chain[i];
      assert d in chain && Reaches(noParent, d, path);
      forall c | Ancestor(c, path) && |c| > |d|
        ensures NobodyAt(m, people, c, path)
      {
        LongerReaches(noParent, c, d, path);
        assert c in chain;
        var j :| 0 <= j < |chain| && chain[j] == c;
        assert j < i;
      }
    }
    if d :| Reaches(noParent, d, path) && OwnerAt(m, people, d, path, x)
            && forall c :: Ancestor(c, path) && |c| > |d| ==> NobodyAt(m, people, c, path) {
      assert d in chain;
      var i :| 0 <= i < |chain| && chain[i] == d;
      forall j | 0 <= j < i
        ensures Matching(m, people, chain[j], path) == {}
      {
        assert chain[j] in chain && Reaches(noParent, chain[j], path);
      }
    }
  }

  lemma LongerReaches(noParent: set<string>, c: string, d: string, path: string)
    requires Reaches(noParent, d, path) && Ancestor(c, path) && |c| > |d|
    ensures Reaches(noParent, c, path)
  {
    hide Ancestor;
  }

  // The walks.

  /** The start of the walk: the directory is not taken, so an OWNERS entry for the path itself counts. */
  function StartDir(o: RepoOwners, path: string): string {
    if !o.enableMDYAML || !HasSuffix(path, ".md") then Canonicalize(path) else path
  }

  predicate Stops(noParent: set<string>, d: string) { d == BaseDir || d in noParent }

  /** One directory of the walk: what has been collected, and what is known if the walk ends there. */
  lemma WalkOne(m: Matcher, people: OwnerMap, noParent: set<string>, path: string, visited: seq<string>, d: string)
    ensures var chain, here := visited + Chain(noParent, d), Matching(m, people, d, path);
      var before := All(m, people, path, visited);
      && All(m, people, path, visited + [d]) == before + here
      && (Stops(noParent, d) ==> All(m, people, path, chain) == before + here)
      && (before == {} && (here != {} || Stops(noParent, d)) ==> Leaf(m, people, path, chain) == here)
      && (!Stops(noParent, d) ==> chain == (visited + [d]) + Chain(noParent, Parent(d)))
  {
    hide Matching, All, Leaf, Chain, Parent;
    ChainFrom(noParent, d, visited);
    AllOne(m, people, path, visited, d);
    LeafHere(m, people, path, Chain(noParent, d));
    if All(m, people, path, visited) == {} {
      LeafAfterNobody(m, people, path, visited, Chain(noParent, d));
    }
  }

  lemma ChainFrom(noParent: set<string>, d: string, visited: seq<string>)
    ensures Stops(noParent, d) ==> Chain(noParent, d) == [d]
    ensures !Stops(noParent, d) ==> visited + Chain(noParent, d) == (visited + [d]) + Chain(noParent, Parent(d))
  {}

  lemma AllOne(m: Matcher, people: OwnerMap, path: string, visited: seq<string>, d: string)
    ensures All(m, people, path, visited + [d]) == All(m, people, path, visited) + Matching(m, people, d, path)
  {
    AllAppend(m, people, path, visited, [d]);
    AllFirst(m, people, path, [d]);
    NobodyYet(m, people, path);
    hide Matching, All;
    assert [d][1..] == [];
  }

  lemma LeafHere(m: Matcher, people: OwnerMap, path: string, chain: seq<string>)
    requires chain != []
    ensures Matching(m, people, chain[0], path) != {} ==>
      Leaf(m, people, path, chain) == Matching(m, people, chain[0], path)
    ensures |chain| == 1 ==> Leaf(m, people, path, chain) == Matching(m, people, chain[0], path)
  {
    hide Matching;
    if |chain| == 1 {
      assert chain[1..] == [];
    }
  }

  method EntriesForFile(m: Matcher, o: RepoOwners, path: string, people: OwnerMap, leafOnly: bool)
    returns (out: set<string>)
    ensures var chain := Chain(o.noParentOwners, StartDir(o, path));
      out == if leafOnly then Leaf(m, people, path, chain) else All(m, people, path, chain)
  {
    hide Matching, All, Leaf, Chain, StartDir;
    var d := StartDir(o, path);
    ghost var chain, visited := Chain(o.noParentOwners, d), [];
    NobodyYet(m, people, path);
    assert chain == visited + chain;
    out := {};
    while true
      invariant chain == visited + Chain(o.noParentOwners, d)
      invariant out == All(m, people, path, visited)
      invariant leafOnly ==> out == {}
      decreases |d|
    {
      WalkOne(m, people, o.noParentOwners, path, visited, d);
      out := out + Matching(m, people, d, path);
      if leafOnly && |out| > 0 {
        break;
      }
      if d == BaseDir {
        break;
      }
      if d in o.noParentOwners {
        break;
      }
      visited := visited + [d];
      d := Parent(d);
    }
  }

  lemma NobodyYet(m: Matcher, people: OwnerMap, path: string)
    ensures All(m, people, path, []) == {}
  {}

  /** The deepest directory with an entry for the file; the root is never looked at. */
  function Deepest(m: Matcher, people: OwnerMap, path: string, d: string): (r: string)
    ensures |r| <= |d|
    decreases |d|
  {
    if d == BaseDir then BaseDir
    else if Matching(m, people, d, path) != {} then d
    else Deepest(m, people, path, Parent(d))
  }

  method FindOwnersForFile(m: Matcher, path: string, people: OwnerMap) returns (r: string)
    ensures r == Deepest(m, people, path, path)
  {
    var d := path;
    while d != BaseDir
      invariant Deepest(m, people, path, path) == Deepest(m, people, path, d)
      decreases |d|
    {
      if Matching(m, people, d, path) != {} {
        return d;
      }
      d := Parent(d);
    }
    return "";
  }

  /** For a clean path: the directory found is the deepest below the root where somebody has an entry for it,
      and the root if there is none. */
  lemma {:induction false} DeepestMeans(m: Matcher, people: OwnerMap, path: string)
    requires Clean(path)
    ensures var d := Deepest(m, people, path, path);
      && Ancestor(d, path) && (d != BaseDir ==> !NobodyAt(m, people, d, path))
      && forall c :: Ancestor(c, path) && c != BaseDir && |c| > |d| ==> NobodyAt(m, people, c, path)
  {
    ChainIsAncestors(path);
    DeepestInChain(m, people, path, path);
    var d, chain := Deepest(m, people, path, path), Chain({}, path);
    forall c | Ancestor(c, path)
      ensures Matching(m, people, c, path) == {} <==> NobodyAt(m, people, c, path)
    {
      MatchingEmpty(m, people, c, path);
    }
    hide Matching, NobodyAt, Deepest, Chain, Ancestor;
    forall c | Ancestor(c, path) && c != BaseDir && |c| > |d|
      ensures NobodyAt(m, people, c, path)
    {
      assert c in chain;
    }
  }

  lemma {:induction false} DeepestInChain(m: Matcher, people: OwnerMap, path: string, from: string)
    ensures var d, chain := Deepest(m, people, path, from), Chain({}, from);
      && d in chain && (d != BaseDir ==> Matching(m, people, d, path) != {})
      && forall c :: c in chain && c != BaseDir && |c| > |d| ==> Matching(m, people, c, path) == {}
    decreases |from|
  {
    hide Matching;
    if from != BaseDir {
      assert Chain({}, from) == [from] + Chain({}, Parent(from));
      if Matching(m, people, from, path) == {} {
        DeepestInChain(m, people, path, Parent(from));
      } else {
        ChainShorter(Parent(from));
      }
    }
  }

  lemma {:induction false} ChainShorter(from: string)
    ensures forall c :: c in Chain({}, from) ==> |c| <= |from|
    decreases |from|
  {
    if from != BaseDir {
      ChainShorter(Parent(from));
    }
  }

  // Leaf and full owners.

  /** The leaf owners are among the owners, and there are some whenever there is any owner. */
  lemma {:induction false} LeafWithinAll(m: Matcher, people: OwnerMap, path: string, chain: seq<string>)
    ensures Leaf(m, people, path, chain) <= All(m, people, path, chain)
    ensures Leaf(m, people, path, chain) == {} <==> All(m, people, path, chain) == {}
  {
    if chain != [] {
      LeafWithinAll(m, people, path, chain[1..]);
      AllFirst(m, people, path, chain);
    }
  }

  /** Some directory from `from` up to, but not including, its ancestor `d` has no parent owners. */
  predicate BlockedBelow(noParent: set<string>, from: string, d: string)
    decreases |from|
  {
    from != d && from != BaseDir && (from in noParent || BlockedBelow(noParent, Parent(from), d))
  }

  /** The leaf owners are exactly the entries at the deepest directory found (the root, if none is),
      unless a directory without parent owners lies below it: then there are none. */
  lemma {:induction false} LeafIsAtDeepest(m: Matcher, people: OwnerMap, noParent: set<string>, path: string,
                                           from: string)
    ensures var d := Deepest(m, people, path, from);
      Leaf(m, people, path, Chain(noParent, from)) ==
        if BlockedBelow(noParent, from, d) then {} else Matching(m, people, d, path)
    decreases |from|
  {
    var chain := Chain(noParent, from);
    if from != BaseDir && Matching(m, people, from, path) == {} && from !in noParent {
      assert chain[1..] == Chain(noParent, Parent(from));
      LeafIsAtDeepest(m, people, noParent, path, Parent(from));
    } else if chain[1..] == [] {
      assert Leaf(m, people, path, chain[1..]) == {};
    }
  }

  /** The same about the object: LeafApprovers against FindApproverOwnersForFile. */
  lemma LeafApproversAtFoundOwners(m: Matcher, o: RepoOwners, path: string)
    requires CleanPath(path)
    ensures var d := Deepest(m, o.approvers, path, path);
      Leaf(m, o.approvers, path, Chain(o.noParentOwners, StartDir(o, path))) ==
        if BlockedBelow(o.noParentOwners, path, d) then {} else Matching(m, o.approvers, d, path)
  {
    LeafIsAtDeepest(m, o.approvers, o.noParentOwners, path, path);
  }

  /** The walk starts at the path itself, not at the directory computed just before. The two starts give
      the same owners if and only if the entries for the path itself add nobody and, where its directory
      options cut off the parents, cut off nobody; and the same leaf owners if and only if those entries
      are the leaf owners of the directory, or there are none and the parents are not cut off. */
  lemma StartsAtThePath(m: Matcher, people: OwnerMap, noParent: set<string>, path: string)
    requires path != BaseDir
    ensures var own, here, dir := Matching(m, people, path, path), Chain(noParent, path), Chain(noParent, Parent(path));
      && (All(m, people, path, here) == All(m, people, path, dir) <==>
            if path in noParent then own == All(m, people, path, dir) else own <= All(m, people, path, dir))
      && (Leaf(m, people, path, here) == Leaf(m, people, path, dir) <==>
            own == Leaf(m, people, path, dir) || (own == {} && path !in noParent))
  {
    var here := Chain(noParent, path);
    AllFirst(m, people, path, here);
    NobodyYet(m, people, path);
    if path in noParent {
      assert here[1..] == [];
    } else {
      assert here[1..] == Chain(noParent, Parent(path));
    }
    hide Matching, All;
  }

  /** The walk from the path and the one that would start at its directory give the same. */
  predicate LeafAlike(m: Matcher, people: OwnerMap, noParent: set<string>, path: string)
    requires path != BaseDir
  {
    var here, dir := Chain(noParent, path), Chain(noParent, Parent(path));
    Leaf(m, people, path, here) == Leaf(m, people, path, dir)
  }

  ghost predicate AllAlike(m: Matcher, people: OwnerMap, noParent: set<string>, path: string)
    requires path != BaseDir
  {
    var here, dir := Chain(noParent, path), Chain(noParent, Parent(path));
    All(m, people, path, here) == All(m, people, path, dir)
  }

  /** Where the map has no entry for the path itself, as for a plain file, the two walks give the same if and
      only if the path has no directory options of its own that cut off the parents. */
  lemma PlainFilesAlike(noParent: set<string>, path: string)
    requires path != BaseDir
    ensures path !in noParent <==>
      forall m, people: OwnerMap :: path !in people ==>
        AllAlike(m, people, noParent, path) && LeafAlike(m, people, noParent, path)
  {
    if path !in noParent {
      forall m, people: OwnerMap | path !in people
        ensures AllAlike(m, people, noParent, path) && LeafAlike(m, people, noParent, path)
      {
        StartsAtThePath(m, people, noParent, path);
      }
    } else {
      var m: Matcher, people: OwnerMap := (re, p) => false, map[Parent(path) := map[None := {"owner"}]];
      var dir := Parent(path);
      assert "owner" in people[dir][None] && "owner" in Matching(m, people, dir, path);
      StartsAtThePath(m, people, noParent, path);
      assert Chain(noParent, dir)[0] == dir;
      assert "owner" in All(m, people, path, Chain(noParent, dir));
      assert !AllAlike(m, people, noParent, path);
    }
  }

  // Collaborators.

  function Filtered(people: OwnerMap, collabs: set<string>): OwnerMap {
    map d | d in people :: map re | re in people[d] :: people[d][re] * collabs
  }

  /** Only approvers and reviewers are filtered. `norm` is the normalisation of login names. */
  method FilterCollaborators(o: RepoOwners, toKeep: seq<string>, norm: string -> string) returns (r: RepoOwners)
    ensures var collabs := set k | k in toKeep :: norm(k);
      r == o.(approvers := Filtered(o.approvers, collabs), reviewers := Filtered(o.reviewers, collabs))
  {
    var collabs: set<string> := {};
    for i := 0 to |toKeep|
      invariant collabs == set k | k in toKeep[..i] :: norm(k)
    {
      assert toKeep[..i + 1] == toKeep[..i] + [toKeep[i]];
      collabs := collabs + {norm(toKeep[i])};
    }
    assert toKeep[..|toKeep|] == toKeep;
    r := o.(approvers := Filtered(o.approvers, collabs), reviewers := Filtered(o.reviewers, collabs));
  }

  lemma MatchingFiltered(m: Matcher, people: OwnerMap, collabs: set<string>, d: string, path: string)
    ensures Matching(m, Filtered(people, collabs), d, path) == Matching(m, people, d, path) * collabs
  {
    if d in people {
      forall x | x in Matching(m, people, d, path) * collabs
        ensures x in Matching(m, Filtered(people, collabs), d, path)
      {
        var re :| re in people[d].Keys && (re.None? || m(re.value, Relative(d, path))) && x in people[d][re];
        assert x in Filtered(people, collabs)[d][re];
      }
    }
  }

  /** Filtering first and asking then is asking first and filtering then, for the full owners. */
  lemma {:induction false} OwnersFiltered(m: Matcher, people: OwnerMap, collabs: set<string>, path: string,
                                          chain: seq<string>)
    ensures All(m, Filtered(people, collabs), path, chain) == All(m, people, path, chain) * collabs
  {
    if chain != [] {
      MatchingFiltered(m, people, collabs, chain[0], path);
      OwnersFiltered(m, people, collabs, path, chain[1..]);
      AllFirst(m, people, path, chain);
      AllFirst(m, Filtered(people, collabs), path, chain);
    }
  }

  /** For the leaf owners it is so exactly when a leaf owner is a collaborator or no owner at all is:
      otherwise the leaf moves up to a directory that has a collaborator. */
  lemma {:induction false} LeafFiltered(m: Matcher, people: OwnerMap, collabs: set<string>, path: string,
                                        chain: seq<string>)
    ensures var leaf, all := Leaf(m, people, path, chain), All(m, people, path, chain);
      Leaf(m, Filtered(people, collabs), path, chain) == leaf * collabs <==>
        leaf * collabs != {} || all * collabs == {}
  {
    var filtered := Leaf(m, Filtered(people, collabs), path, chain);
    OwnersFiltered(m, people, collabs, path, chain);
    LeafWithinAll(m, Filtered(people, collabs), path, chain);
    if Leaf(m, people, path, chain) * collabs != {} {
      LeafKept(m, people, collabs, path, chain);
    }
  }

  lemma {:induction false} LeafKept(m: Matcher, people: OwnerMap, collabs: set<string>, path: string,
                                    chain: seq<string>)
    requires Leaf(m, people, path, chain) * collabs != {}
    ensures Leaf(m, Filtered(people, collabs), path, chain) == Leaf(m, people, path, chain) * collabs
  {
    if chain != [] {
      MatchingFiltered(m, people, collabs, chain[0], path);
      if Matching(m, people, chain[0], path) == {} {
        LeafKept(m, people, collabs, path, chain[1..]);
      }
    }
  }
}
