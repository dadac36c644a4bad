/** repoowners/repoowners.go: the cache of parsed OWNERS files, keyed by branch and refreshed by
    comparing commits. */
module OwnersCache {
  import opened Text

  const OwnersFileName := "OWNERS"
  const AliasesFileName := "OWNERS_ALIASES"

  /** The files of one commit, by path. */
  type Tree = map<string, string>

  type Aliases = map<string, set<string>>

  /** YAML, regular expressions and the dir blacklist, fixed during a run: how an OWNERS_ALIASES file
      is read, what an OWNERS (or .md) file contributes given the aliases, which paths are skipped. */
  datatype Reader<E> = Reader(
    parseAliases: string -> Option<Aliases>,
    parseFile: (string, string, Option<Aliases>) -> E,
    blacklisted: string -> bool)

  /** What is kept of a loaded tree: one entry for each file that was read. */
  datatype RepoOwners<E> = RepoOwners(aliases: Option<Aliases>, enableMDYAML: bool, entries: map<string, E>)

  function Base(path: string): string {
    if path == "" || path[|path| - 1] == '/' then "" else Base(path[..|path| - 1]) + [path[|path| - 1]]
  }

  predicate HasOwners(mdYaml: bool, path: string) {
    (mdYaml && HasSuffix(Base(path), ".md")) || Base(path) == OwnersFileName
  }

  /** The files the walk over the tree opens. */
  predicate Opens<E>(rd: Reader<E>, mdYaml: bool, path: string) { !rd.blacklisted(path) && HasOwners(mdYaml, path) }

  function LoadAliases<E>(rd: Reader<E>, tree: Tree): Option<Aliases> {
    if AliasesFileName in tree then rd.parseAliases(tree[AliasesFileName]) else None
  }

  function LoadOwners<E>(rd: Reader<E>, tree: Tree, mdYaml: bool, aliases: Option<Aliases>): RepoOwners<E> {
    RepoOwners(aliases, mdYaml, map p | p in tree && Opens(rd, mdYaml, p) :: rd.parseFile(p, tree[p], aliases))
  }

  /** What a load of the tree without any cache gives. */
  function Fresh<E>(rd: Reader<E>, tree: Tree, mdYaml: bool): RepoOwners<E> {
    LoadOwners(rd, tree, mdYaml, LoadAliases(rd, tree))
  }

  /** The last segment of a path. */
  function LastSegment(path: string): string {
    var parts := Split(path, '/');
    parts[|parts| - 1]
  }

  lemma {:induction false} SplitLast(p: string, s: string)
    requires '/' !in s
    ensures LastSegment(p + ['/'] + s) == s && LastSegment(s) == s
    decreases |p|
  {
    CutCorrect(p, '/');
    CutCorrect(s, '/');
    var path := p + ['/'] + s;
    match Cut(p, '/')
    case None =>
      CutJoined(p, '/', s);
      assert Split(path, '/') == [p] + Split(s, '/');
    case Some((before, after)) =>
      assert path == before + ['/'] + (after + ['/'] + s);
      CutJoined(before, '/', after + ['/'] + s);
      SplitLast(after, s);
      assert Split(path, '/') == [before] + Split(after + ['/'] + s, '/');
  }

  lemma {:induction false} BaseIsLast(path: string) returns (p: string)
    ensures '/' !in Base(path) && (path == Base(path) || path == p + ['/'] + Base(path))
  {
    if path == "" || path[|path| - 1] == '/' {
      p := if path == "" then "" else path[..|path| - 1];
      assert path != "" ==> path == p + ['/'] + "";
    } else {
      var front, c := path[..|path| - 1], path[|path| - 1];
      p := BaseIsLast(front);
      assert path == front + [c] && Base(path) == Base(front) + [c];
      assert front != Base(front) ==> path == p + ['/'] + (Base(front) + [c]);
    }
  }

  /** A load reads, of the files that are not skipped, those whose last segment is OWNERS and, with markdown
      headers on, those that end in `.md`. */
  lemma OpensExactly<E>(rd: Reader<E>, mdYaml: bool, path: string)
    ensures Opens(rd, mdYaml, path) <==>
      !rd.blacklisted(path) && (LastSegment(path) == "OWNERS" || (mdYaml && HasSuffix(LastSegment(path), ".md")))
  {
    var p := BaseIsLast(path);
    SplitLast(p, Base(path));
    hide Split, Base;
  }

  /** What a load without cache gives: the aliases of the tree's OWNERS_ALIASES file, and for each file read
      what it says, given those aliases. */
  lemma FreshMeans<E>(rd: Reader<E>, tree: Tree, mdYaml: bool)
    ensures var o := Fresh(rd, tree, mdYaml);
      && o.aliases == (if "OWNERS_ALIASES" in tree then rd.parseAliases(tree["OWNERS_ALIASES"]) else None)
      && o.enableMDYAML == mdYaml
      && (forall p :: p in o.entries <==> p in tree && Opens(rd, mdYaml, p))
      && forall p :: p in o.entries ==> o.entries[p] == rd.parseFile(p, tree[p], o.aliases)
  {}

  // The diff check.

  /** The paths on which two trees differ. */
  function Diff(a: Tree, b: Tree): set<string> {
    set p | p in a.Keys + b.Keys && (p !in a || p !in b || a[p] != b[p])
  }

  predicate Matters(mdYaml: bool, path: string) {
    (mdYaml && HasSuffix(path, ".md")) || HasSuffix(path, AliasesFileName) || HasSuffix(path, OwnersFileName)
  }

  lemma {:induction false} BaseIsSuffix(path: string)
    ensures HasSuffix(path, Base(path))
  {
    if path != "" && path[|path| - 1] != '/' {
      BaseIsSuffix(path[..|path| - 1]);
    }
  }

  lemma OpenedMatters(mdYaml: bool, path: string)
    requires HasOwners(mdYaml, path)
    ensures Matters(mdYaml, path)
  {
    BaseIsSuffix(path);
    var base := Base(path);
    if HasSuffix(base, ".md") {
      assert path[|path| - 3..] == path[|path| - |base|..][|base| - 3..];
    }
  }

  predicate SameAt(a: Tree, b: Tree, path: string) {
    (path in a <==> path in b) && (path in a && path in b ==> a[path] == b[path])
  }

  /** The trees agree on every file that a load reads. */
  ghost predicate AgreeOnRead(a: Tree, b: Tree, mdYaml: bool) {
    forall path :: path == AliasesFileName || HasOwners(mdYaml, path) ==> SameAt(a, b, path)
  }

  lemma AgreeingAreFresh<E>(rd: Reader<E>, a: Tree, b: Tree, mdYaml: bool)
    requires AgreeOnRead(a, b, mdYaml)
    ensures LoadAliases(rd, a) == LoadAliases(rd, b)
    ensures forall aliases :: LoadOwners(rd, a, mdYaml, aliases) == LoadOwners(rd, b, mdYaml, aliases)
    ensures Fresh(rd, a, mdYaml) == Fresh(rd, b, mdYaml)
  {
    assert SameAt(a, b, AliasesFileName);
    forall aliases
      ensures LoadOwners(rd, a, mdYaml, aliases) == LoadOwners(rd, b, mdYaml, aliases)
    {
      SameEntries(rd, a, b, mdYaml, aliases);
    }
  }

  lemma SameEntries<E>(rd: Reader<E>, a: Tree, b: Tree, mdYaml: bool, aliases: Option<Aliases>)
    requires AgreeOnRead(a, b, mdYaml)
    ensures LoadOwners(rd, a, mdYaml, aliases) == LoadOwners(rd, b, mdYaml, aliases)
  {
    var x, y := LoadOwners(rd, a, mdYaml, aliases).entries, LoadOwners(rd, b, mdYaml, aliases).entries;
    forall p
      ensures p in x <==> p in y
      ensures p in x && p in y ==> x[p] == y[p]
    {
      assert HasOwners(mdYaml, p) ==> SameAt(a, b, p);
    }
    assert x == y;
  }

  /** If no file that matters changed, the trees agree, and a fresh load of either gives the same owners. */
  lemma UnchangedIsFresh<E>(rd: Reader<E>, a: Tree, b: Tree, mdYaml: bool)
    requires forall p :: p in Diff(a, b) ==> !Matters(mdYaml, p)
    ensures AgreeOnRead(a, b, mdYaml) && Fresh(rd, a, mdYaml) == Fresh(rd, b, mdYaml)
  {
    forall p | p == AliasesFileName || HasOwners(mdYaml, p)
      ensures SameAt(a, b, p)
    {
      if HasOwners(mdYaml, p) {
        OpenedMatters(mdYaml, p);
      }
      assert p !in Diff(a, b);
    }
    AgreeingAreFresh(rd, a, b, mdYaml);
  }

  // The client.

  datatype CacheEntry<E> = CacheEntry(sha: string, aliases: Option<Aliases>, owners: Option<RepoOwners<E>>)

  type Cache<E> = map<string, CacheEntry<E>>

  datatype Result<+T> = Ok(value: T) | Err

  /** A cached entry is what its commit would give: its aliases, and its owners if they were loaded. */
  ghost predicate EntryOk<E>(rd: Reader<E>, commits: map<string, Tree>, entry: CacheEntry<E>) {
    && entry.sha in commits && entry.aliases == LoadAliases(rd, commits[entry.sha])
    && (entry.owners.Some? ==>
          entry.owners.value == Fresh(rd, commits[entry.sha], entry.owners.value.enableMDYAML))
  }

  ghost predicate NameOk<E>(rd: Reader<E>, commits: map<string, Tree>, cache: Cache<E>, name: string) {
    name in cache ==> EntryOk(rd, commits, cache[name])
  }

  /** Every entry is of a commit. */
  ghost predicate Labelled<E>(commits: map<string, Tree>, cache: Cache<E>) {
    "" !in commits && forall name :: name in cache ==> cache[name].sha in commits
  }

  function EntryFor<E>(cache: Cache<E>, name: string): CacheEntry<E> {
    if name in cache then cache[name] else CacheEntry("", None, None)
  }

  /** The entry answers for this commit and mode as it is. */
  predicate Hit<E>(entry: CacheEntry<E>, sha: string, mdYaml: bool) {
    entry.sha == sha && entry.owners.Some? && entry.owners.value.enableMDYAML == mdYaml
  }

  /** The entry is of another commit, but nothing that matters changed since. */
  ghost predicate Reusable<E>(entry: CacheEntry<E>, commits: map<string, Tree>, sha: string, mdYaml: bool)
    requires sha in commits
  {
    && entry.sha in commits && entry.aliases.Some? && entry.owners.Some?
    && entry.owners.value.enableMDYAML == mdYaml
    && forall p :: p in Diff(commits[sha], commits[entry.sha]) ==> !Matters(mdYaml, p)
  }

  /** The entry answers without a look at the tree. */
  ghost predicate Answers<E>(cache: Cache<E>, commits: map<string, Tree>, name: string, sha: string, mdYaml: bool)
    requires sha in commits
  {
    var entry := EntryFor(cache, name);
    Hit(entry, sha, mdYaml) || Reusable(entry, commits, sha, mdYaml)
  }

  /** The aliases are those already loaded for the same commit. */
  predicate KeepsAliases<E>(entry: CacheEntry<E>, sha: string) { entry.aliases.Some? && entry.sha == sha }

  /** The new cache and the owners returned; a reused entry is not written back. `sha` is the head that was
      read, `at` the commit that is checked out: the tree is that of `at`, the label is `sha`. */
  ghost function LoadStep<E>(rd: Reader<E>, commits: map<string, Tree>, cache: Cache<E>, name: string,
                             sha: string, at: string, mdYaml: bool): (Cache<E>, RepoOwners<E>)
    requires sha in commits && at in commits
  {
    var entry := EntryFor(cache, name);
    if Answers(cache, commits, name, sha, mdYaml) then (cache, entry.owners.value)
    else
      var aliases := if KeepsAliases(entry, sha) then entry.aliases else LoadAliases(rd, commits[at]);
      var owners := LoadOwners(rd, commits[at], mdYaml, aliases);
      (cache[name := CacheEntry(sha, aliases, Some(owners))], owners)
  }

  /** Hit, reused or reloaded: from a right entry the answer is what a fresh load of the head that was read
      gives, and the entry stays right, if a reload checks out a tree that agrees with it. */
  lemma LoadStepIsFresh<E>(rd: Reader<E>, commits: map<string, Tree>, cache: Cache<E>, name: string,
                           sha: string, at: string, mdYaml: bool)
    requires sha in commits && at in commits && "" !in commits && NameOk(rd, commits, cache, name)
    requires Answers(cache, commits, name, sha, mdYaml) || AgreeOnRead(commits[at], commits[sha], mdYaml)
    ensures var (cache', owners) := LoadStep(rd, commits, cache, name, sha, at, mdYaml);
      NameOk(rd, commits, cache', name) && owners == Fresh(rd, commits[sha], mdYaml)
  {
    var entry := EntryFor(cache, name);
    if Reusable(entry, commits, sha, mdYaml) {
      UnchangedIsFresh(rd, commits[sha], commits[entry.sha], mdYaml);
    } else if !Hit(entry, sha, mdYaml) {
      AgreeingAreFresh(rd, commits[at], commits[sha], mdYaml);
    }
  }

  /** The entry answers without a look at the tree exactly if it was read in the same mode and is of the same
      commit, or has aliases and is of a commit that differs from this one in no file whose name ends in
      OWNERS, in OWNERS_ALIASES or, with markdown headers on, in `.md`. */
  lemma AnswersExactly<E>(cache: Cache<E>, commits: map<string, Tree>, name: string, sha: string, mdYaml: bool)
    requires sha in commits && Labelled(commits, cache)
    ensures Answers(cache, commits, name, sha, mdYaml) <==>
      && name in cache && cache[name].owners.Some? && cache[name].owners.value.enableMDYAML == mdYaml
      && (|| cache[name].sha == sha
          || (cache[name].aliases.Some?
              && forall p :: HasSuffix(p, "OWNERS") || HasSuffix(p, "OWNERS_ALIASES") || (mdYaml && HasSuffix(p, ".md"))
                   ==> SameAt(commits[sha], commits[cache[name].sha], p)))
  {
    if name in cache {
      var a, b := commits[sha], commits[cache[name].sha];
      assert forall p :: p in Diff(a, b) <==> !SameAt(a, b, p);
    }
  }

  class Client<E> {
    const rd: Reader<E>
    var cache: Cache<E>

    constructor (rd: Reader<E>)
      ensures this.rd == rd && cache == map[]
    {
      this.rd := rd;
      cache := map[];
    }

    /** LoadRepoOwners up to the collaborator filter. `commits` is what the git server has, `sha` the head
        that was read before the lock was taken, `at` the head that is checked out under it; `fails`
        stands for any failing git call. */
    method LoadRepoOwners(commits: map<string, Tree>, fullName: string, sha: string, at: string, mdYaml: bool,
                          fails: bool)
      returns (r: Result<RepoOwners<E>>)
      requires sha in commits && at in commits && Labelled(commits, cache)
      modifies this`cache
      ensures r.Err? <==> fails && !Hit(EntryFor(old(cache), fullName), sha, mdYaml)
      ensures r.Err? ==> cache == old(cache)
      ensures r.Ok? ==> (cache, r.value) == LoadStep(rd, commits, old(cache), fullName, sha, at, mdYaml)
      ensures Labelled(commits, cache)
    {
      var entry := if fullName in cache then cache[fullName] else CacheEntry("", None, None);
      if || fullName !in cache || entry.sha != sha || entry.owners.None?
         || entry.owners.value.enableMDYAML != mdYaml
      {
        if fails {
          return Err;
        }
        var reusable := entry.sha != "" && entry.aliases.Some? && entry.owners.Some?
                        && entry.owners.value.enableMDYAML == mdYaml;
        if reusable {
          reusable := NothingMattersIn(Diff(commits[sha], commits[entry.sha]), mdYaml);
        }
        if reusable {
          entry := entry.(sha := sha);
        } else {
          if entry.aliases.None? || entry.sha != sha {
            entry := entry.(aliases := LoadAliases(rd, commits[at]));
          }
          entry := entry.(owners := Some(LoadOwners(rd, commits[at], mdYaml, entry.aliases)));
          entry := entry.(sha := sha);
          cache := cache[fullName := entry];
        }
      }
      return Ok(entry.owners.value);
    }

    /** LoadRepoAliases. */
    method LoadRepoAliases(commits: map<string, Tree>, fullName: string, sha: string, at: string, fails: bool)
      returns (r: Result<Option<Aliases>>)
      requires sha in commits && at in commits && Labelled(commits, cache)
      modifies this`cache
      ensures r.Err? <==> fails && !(fullName in old(cache) && old(cache)[fullName].sha == sha)
      ensures r.Err? ==> cache == old(cache)
      ensures r.Ok? ==> cache == AliasesStep(rd, commits, old(cache), fullName, sha, at)
      ensures r.Ok? ==> r.value == EntryFor(cache, fullName).aliases
      ensures Labelled(commits, cache)
    {
      var entry := if fullName in cache then cache[fullName] else CacheEntry("", None, None);
      if fullName !in cache || entry.sha != sha {
        if fails {
          return Err;
        }
        entry := entry.(aliases := LoadAliases(rd, commits[at]));
        entry := entry.(sha := sha);
        cache := cache[fullName := entry];
      }
      return Ok(entry.aliases);
    }

    method NothingMattersIn(changes: set<string>, mdYaml: bool) returns (ok: bool)
      ensures ok <==> forall p :: p in changes ==> !Matters(mdYaml, p)
    {
      var rest := changes;
      while rest != {}
        invariant rest <= changes
        invariant forall p :: p in changes - rest ==> !Matters(mdYaml, p)
        decreases |rest|
      {
        var change :| change in rest;
        if Matters(mdYaml, change) {
          return false;
        }
        rest := rest - {change};
      }
      return true;
    }
  }

  // LoadRepoAliases does not fit in.

  /** It moves the entry to the head that was read and refreshes its aliases, not its owners. */
  function AliasesStep<E>(rd: Reader<E>, commits: map<string, Tree>, cache: Cache<E>, name: string,
                          sha: string, at: string): Cache<E>
    requires at in commits
  {
    var entry := EntryFor(cache, name);
    if name in cache && entry.sha == sha then cache
    else cache[name := entry.(aliases := LoadAliases(rd, commits[at]), sha := sha)]
  }

  /** After it, owners are answered from the old commit: right exactly when both commits give the same. */
  lemma AliasesMakeOwnersStale<E>(rd: Reader<E>, commits: map<string, Tree>, cache: Cache<E>, name: string,
                                  sha: string, at: string)
    requires sha in commits && at in commits && name in cache && NameOk(rd, commits, cache, name)
    requires cache[name].owners.Some? && cache[name].sha != sha
    ensures var mdYaml, was := cache[name].owners.value.enableMDYAML, cache[name].sha;
      LoadStep(rd, commits, AliasesStep(rd, commits, cache, name, sha, at), name, sha, at, mdYaml).1
        == Fresh(rd, commits[was], mdYaml)
  {
    var entry := EntryFor(AliasesStep(rd, commits, cache, name, sha, at), name);
    assert Hit(entry, sha, cache[name].owners.value.enableMDYAML);
  }

  /** And they need not give the same. */
  lemma StaleOwnersExample() returns (rd: Reader<string>, commits: map<string, Tree>, cache: Cache<string>)
    ensures {"1", "2"} <= commits.Keys && NameOk(rd, commits, cache, "b")
    ensures LoadStep(rd, commits, AliasesStep(rd, commits, cache, "b", "2", "2"), "b", "2", "2", false).1
         != Fresh(rd, commits["2"], false)
  {
    rd := Reader(s => None, (p, content, a) => content, p => false);
    commits := map["1" := map["OWNERS" := "x"], "2" := map["OWNERS" := "y"]];
    var first, second := Fresh(rd, commits["1"], false), Fresh(rd, commits["2"], false);
    cache := map["b" := CacheEntry("1", None, Some(first))];
    AliasesMakeOwnersStale(rd, commits, cache, "b", "2", "2");
    BaseWhole("OWNERS");
    assert "OWNERS" in first.entries && "OWNERS" in second.entries;
    assert first.entries["OWNERS"] == "x" && second.entries["OWNERS"] == "y";
  }

  lemma {:induction false} BaseWhole(path: string)
    requires '/' !in path
    ensures Base(path) == path
  {
    if path != "" {
      var front := path[..|path| - 1];
      assert path == front + [path[|path| - 1]];
      BaseWhole(front);
    }
  }
}
