/** Runs of the OWNERS cache. A load reads the head of its branch before it takes the lock; under the lock
    it checks out whatever the branch's head is by then. Pushes and other loads may come in between. */
module OwnersCacheRuns {
  import opened Text
  import opened OwnersCache

  /** A load that has read the head of its branch. */
  datatype Read = Read(name: string, sha: string)

  datatype Event =
    | Push(name: string, sha: string, tree: Tree) // possibly of a commit the server already has
    | ReadHead(id: nat, name: string)
    | FinishOwners(id: nat, mdYaml: bool, fails: bool)
    | FinishAliases(id: nat, fails: bool)

  /** The commits that were checked out for the owners of an entry and for the aliases they were read with. */
  datatype Origin = Origin(tree: string, aliases: string)

  datatype World<E> = World(
    commits: map<string, Tree>, heads: map<string, string>, begun: map<nat, Read>, cache: Cache<E>,
    // history: where the owners and the aliases of each entry come from
    origins: map<string, Origin>, aliasOrigins: map<string, string>)

  /** Commits are immutable: a sha names one tree for ever. */
  ghost predicate Enabled<E>(w: World<E>, e: Event) {
    match e
    case Push(_, sha, tree) => sha != "" && (sha in w.commits ==> w.commits[sha] == tree)
    case ReadHead(id, name) => id !in w.begun && name in w.heads
    case FinishOwners(id, _, _) => id in w.begun
    case FinishAliases(id, _) => id in w.begun
  }

  /** Heads, reads and labels are commits. */
  ghost predicate Sound<E>(w: World<E>) {
    && Labelled(w.commits, w.cache)
    && (forall name :: name in w.heads ==> w.heads[name] in w.commits)
    && (forall id :: id in w.begun ==> w.begun[id].name in w.heads && w.begun[id].sha in w.commits)
  }

  /** A git call fails, and the entry does not answer without one. */
  predicate Refused<E>(w: World<E>, r: Read, mdYaml: bool, fails: bool) {
    fails && !Hit(EntryFor(w.cache, r.name), r.sha, mdYaml)
  }

  /** The owners that a load returns. */
  ghost function Answer<E>(rd: Reader<E>, w: World<E>, id: nat, mdYaml: bool): RepoOwners<E>
    requires Sound(w) && id in w.begun
  {
    var r := w.begun[id];
    LoadStep(rd, w.commits, w.cache, r.name, r.sha, w.heads[r.name], mdYaml).1
  }

  ghost function Loaded<E>(rd: Reader<E>, w: World<E>, name: string, r: Read, mdYaml: bool): World<E>
    requires Sound(w) && r.name in w.heads && r.sha in w.commits && name == r.name
  {
    var at := w.heads[name];
    if Answers(w.cache, w.commits, name, r.sha, mdYaml) then w
    else
      var from := if KeepsAliases(EntryFor(w.cache, name), r.sha) && name in w.aliasOrigins
                  then w.aliasOrigins[name] else at;
      w.(cache := LoadStep(rd, w.commits, w.cache, name, r.sha, at, mdYaml).0,
         origins := w.origins[name := Origin(at, from)], aliasOrigins := w.aliasOrigins[name := from])
  }

  /** LoadRepoAliases has nothing to do. */
  predicate AliasesHit<E>(w: World<E>, r: Read) { r.name in w.cache && w.cache[r.name].sha == r.sha }

  ghost function Step<E>(rd: Reader<E>, w: World<E>, e: Event): World<E>
    requires Sound(w) && Enabled(w, e)
  {
    match e
    case Push(name, sha, tree) => w.(commits := w.commits[sha := tree], heads := w.heads[name := sha])
    case ReadHead(id, name) => w.(begun := w.begun[id := Read(name, w.heads[name])])
    case FinishOwners(id, mdYaml, fails) =>
      var r, w1 := w.begun[id], w.(begun := w.begun - {id});
      if Refused(w, r, mdYaml, fails) then w1 else Loaded(rd, w1, r.name, r, mdYaml)
    case FinishAliases(id, fails) =>
      var r, w1 := w.begun[id], w.(begun := w.begun - {id});
      if fails || AliasesHit(w, r) then w1
      else
        w1.(cache := AliasesStep(rd, w.commits, w.cache, r.name, r.sha, w.heads[r.name]),
            aliasOrigins := w.aliasOrigins[r.name := w.heads[r.name]])
  }

  lemma LoadedIsSound<E>(rd: Reader<E>, w: World<E>, name: string, r: Read, mdYaml: bool)
    requires Sound(w) && r.name in w.heads && r.sha in w.commits && name == r.name
    ensures Sound(Loaded(rd, w, name, r, mdYaml))
  {
    hide LoadOwners, LoadAliases, Hit, Reusable;
  }

  lemma AliasesStepIsLabelled<E>(rd: Reader<E>, commits: map<string, Tree>, cache: Cache<E>, name: string,
                                 sha: string, at: string)
    requires Labelled(commits, cache) && sha in commits && at in commits
    ensures Labelled(commits, AliasesStep(rd, commits, cache, name, sha, at))
  {
    hide LoadAliases;
  }

  lemma StepIsSound<E>(rd: Reader<E>, w: World<E>, e: Event)
    requires Sound(w) && Enabled(w, e)
    ensures Sound(Step(rd, w, e))
  {
    if e.FinishOwners? {
      LoadedIsSound(rd, w.(begun := w.begun - {e.id}), w.begun[e.id].name, w.begun[e.id], e.mdYaml);
    } else if e.FinishAliases? {
      var r := w.begun[e.id];
      AliasesStepIsLabelled(rd, w.commits, w.cache, r.name, r.sha, w.heads[r.name]);
    }
    hide Loaded, AliasesStep, Hit;
  }

  /** A run of the server and one client, from an empty cache. */
  ghost predicate Run<E>(rd: Reader<E>, worlds: seq<World<E>>, events: seq<Event>) {
    && |worlds| == |events| + 1 && Sound(worlds[0]) && worlds[0].cache == map[] && worlds[0].begun == map[]
    && forall i :: 0 <= i < |events| ==>
         Sound(worlds[i]) && Enabled(worlds[i], events[i]) && worlds[i + 1] == Step(rd, worlds[i], events[i])
  }

  lemma RunIsSound<E>(rd: Reader<E>, worlds: seq<World<E>>, events: seq<Event>, k: nat)
    requires Run(rd, worlds, events) && k <= |events|
    ensures Sound(worlds[k])
  {
    if k > 0 {
      StepIsSound(rd, worlds[k - 1], events[k - 1]);
      assert worlds[k - 1 + 1] == Step(rd, worlds[k - 1], events[k - 1]);
    }
  }

  lemma RunStep<E>(rd: Reader<E>, worlds: seq<World<E>>, events: seq<Event>, k: nat)
    requires Run(rd, worlds, events) && k < |events|
    ensures Sound(worlds[k]) && Enabled(worlds[k], events[k]) && worlds[k + 1] == Step(rd, worlds[k], events[k])
  {}

  // Where answers come from, in all runs.

  /** The owners of one checked-out tree, read with the aliases of another. */
  ghost function From<E>(rd: Reader<E>, commits: map<string, Tree>, o: Origin, mdYaml: bool): RepoOwners<E>
    requires o.tree in commits && o.aliases in commits
  {
    LoadOwners(rd, commits[o.tree], mdYaml, LoadAliases(rd, commits[o.aliases]))
  }

  /** Aliases and owners of an entry are those of the commits they come from. */
  ghost predicate EntryFrom<E>(rd: Reader<E>, w: World<E>, name: string) {
    name in w.cache ==>
      var entry := w.cache[name];
      && name in w.aliasOrigins && w.aliasOrigins[name] in w.commits
      && entry.aliases == LoadAliases(rd, w.commits[w.aliasOrigins[name]])
      && (entry.owners.Some? ==>
            && name in w.origins && w.origins[name].tree in w.commits && w.origins[name].aliases in w.commits
            && entry.owners.value == From(rd, w.commits, w.origins[name], entry.owners.value.enableMDYAML))
  }

  lemma LoadedFrom<E>(rd: Reader<E>, w: World<E>, name: string, r: Read, mdYaml: bool)
    requires Sound(w) && r.name in w.heads && r.sha in w.commits && name == r.name && EntryFrom(rd, w, name)
    ensures var w' := Loaded(rd, w, name, r, mdYaml);
      var o := LoadStep(rd, w.commits, w.cache, name, r.sha, w.heads[name], mdYaml).1;
      && EntryFrom(rd, w', name) && name in w'.origins
      && w'.origins[name].tree in w.commits && w'.origins[name].aliases in w.commits
      && o == From(rd, w.commits, w'.origins[name], mdYaml)
  {
    hide Diff, Matters, LoadAliases;
  }

  lemma AliasesFrom<E>(rd: Reader<E>, w: World<E>, e: Event, name: string)
    requires Sound(w) && Enabled(w, e) && EntryFrom(rd, w, name) && e.FinishAliases? && w.begun[e.id].name == name
    ensures EntryFrom(rd, Step(rd, w, e), name)
  {
    hide LoadAliases, LoadOwners, From;
  }

  ghost predicate SameLookup<K, V>(a: map<K, V>, b: map<K, V>, k: K) {
    (k in a <==> k in b) && (k in a ==> a[k] == b[k])
  }

  /** Nothing about the entry changes, and no commit disappears. */
  ghost predicate Leaves<E>(w: World<E>, w': World<E>, name: string) {
    && SameLookup(w.cache, w'.cache, name) && SameLookup(w.origins, w'.origins, name)
    && SameLookup(w.aliasOrigins, w'.aliasOrigins, name)
    && forall sha :: sha in w.commits ==> sha in w'.commits && w'.commits[sha] == w.commits[sha]
  }

  lemma LoadedLeaves<E>(rd: Reader<E>, w: World<E>, r: Read, mdYaml: bool, name: string)
    requires Sound(w) && r.name in w.heads && r.sha in w.commits && r.name != name
    ensures Leaves(w, Loaded(rd, w, r.name, r, mdYaml), name)
  {
    hide Answers, KeepsAliases, LoadOwners, LoadAliases;
  }

  lemma OthersLeave<E>(rd: Reader<E>, w: World<E>, e: Event, name: string)
    requires Sound(w) && Enabled(w, e)
    requires e.FinishOwners? || e.FinishAliases? ==> w.begun[e.id].name != name
    ensures Leaves(w, Step(rd, w, e), name)
  {
    if e.FinishOwners? {
      LoadedLeaves(rd, w.(begun := w.begun - {e.id}), w.begun[e.id], e.mdYaml, name);
      hide Loaded, Hit;
    }
    hide LoadAliases;
  }

  lemma LeavesFrom<E>(rd: Reader<E>, w: World<E>, w': World<E>, name: string)
    requires EntryFrom(rd, w, name) && Leaves(w, w', name)
    ensures EntryFrom(rd, w', name)
  {
    hide LoadAliases, LoadOwners;
  }

  lemma StepFrom<E>(rd: Reader<E>, w: World<E>, e: Event, name: string)
    requires Sound(w) && Enabled(w, e) && EntryFrom(rd, w, name)
    ensures EntryFrom(rd, Step(rd, w, e), name)
  {
    if e.FinishOwners? && w.begun[e.id].name == name {
      LoadedFrom(rd, w.(begun := w.begun - {e.id}), name, w.begun[e.id], e.mdYaml);
      hide Loaded, From;
    } else if e.FinishAliases? && w.begun[e.id].name == name {
      hide EntryFrom, Step;
      AliasesFrom(rd, w, e, name);
    } else {
      hide EntryFrom, Step, Leaves;
      OthersLeave(rd, w, e, name);
      LeavesFrom(rd, w, Step(rd, w, e), name);
    }
  }

  lemma {:induction false} RunFrom<E>(rd: Reader<E>, worlds: seq<World<E>>, events: seq<Event>, k: nat, name: string)
    requires Run(rd, worlds, events) && k <= |events|
    ensures EntryFrom(rd, worlds[k], name)
    decreases k
  {
    if k > 0 {
      RunFrom(rd, worlds, events, k - 1, name);
      RunStep(rd, worlds, events, k - 1);
      hide Run, EntryFrom, Sound, Enabled, Step;
      StepFrom(rd, worlds[k - 1], events[k - 1], name);
    }
  }

  /** In every run of pushes and of both kinds of loads, however they interleave, every load of owners
      answers with those of the tree that was last checked out for the entry, read with the aliases last
      loaded for it until then. */
  lemma AnswersComeFromOrigins<E>(rd: Reader<E>, worlds: seq<World<E>>, events: seq<Event>, k: nat)
    requires Run(rd, worlds, events) && k < |events| && events[k].FinishOwners?
    requires var w, e := worlds[k], events[k]; e.id in w.begun && !Refused(w, w.begun[e.id], e.mdYaml, e.fails)
    ensures var w, w', e := worlds[k], worlds[k + 1], events[k];
      var name := w.begun[e.id].name;
      && Sound(w) && name in w'.origins
      && w'.origins[name].tree in w.commits && w'.origins[name].aliases in w.commits
      && Answer(rd, w, e.id, e.mdYaml) == From(rd, w.commits, w'.origins[name], e.mdYaml)
  {
    var w, e := worlds[k], events[k];
    RunStep(rd, worlds, events, k);
    RunFrom(rd, worlds, events, k, w.begun[e.id].name);
    LoadedFrom(rd, w.(begun := w.begun - {e.id}), w.begun[e.id].name, w.begun[e.id], e.mdYaml);
    hide Run, LoadStep, Loaded, From, EntryFrom;
  }

  // When answers are fresh.

  /** A load of the branch does not spoil the entry's label: what it checks out agrees, on the files that
      are read, with the head that it read; and LoadRepoAliases moves no owners to a commit that disagrees
      with theirs. */
  ghost predicate Harmless<E>(w: World<E>, e: Event, name: string)
    requires Sound(w) && Enabled(w, e)
  {
    match e
    case FinishOwners(id, mdYaml, fails) =>
      var r := w.begun[id];
      r.name == name ==>
        || Refused(w, r, mdYaml, fails) || Answers(w.cache, w.commits, name, r.sha, mdYaml)
        || AgreeOnRead(w.commits[w.heads[name]], w.commits[r.sha], mdYaml)
    case FinishAliases(id, fails) =>
      var r, entry := w.begun[id], EntryFor(w.cache, w.begun[id].name);
      r.name == name && !fails && !AliasesHit(w, r) ==>
        && SameAt(w.commits[w.heads[name]], w.commits[r.sha], AliasesFileName)
        && (name in w.cache && entry.owners.Some? ==>
              AgreeOnRead(w.commits[entry.sha], w.commits[r.sha], entry.owners.value.enableMDYAML))
    case _ => true
  }

  lemma AliasesKeepLabel<E>(rd: Reader<E>, commits: map<string, Tree>, cache: Cache<E>, name: string,
                            sha: string, at: string)
    requires sha in commits && at in commits && NameOk(rd, commits, cache, name)
    requires SameAt(commits[at], commits[sha], AliasesFileName)
    requires name in cache && cache[name].owners.Some? && cache[name].sha in commits ==>
      AgreeOnRead(commits[cache[name].sha], commits[sha], cache[name].owners.value.enableMDYAML)
    ensures NameOk(rd, commits, AliasesStep(rd, commits, cache, name, sha, at), name)
  {
    if name in cache && cache[name].owners.Some? {
      AgreeingAreFresh(rd, commits[cache[name].sha], commits[sha], cache[name].owners.value.enableMDYAML);
    }
    hide Fresh;
  }

  lemma StepKeepsLabel<E>(rd: Reader<E>, w: World<E>, e: Event, name: string)
    requires Sound(w) && Enabled(w, e) && NameOk(rd, w.commits, w.cache, name) && Harmless(w, e, name)
    ensures var w' := Step(rd, w, e); NameOk(rd, w'.commits, w'.cache, name)
  {
    hide Fresh, LoadAliases, LoadOwners, AgreeOnRead, Diff, Matters;
    match e
    case FinishOwners(id, mdYaml, fails) =>
      var r := w.begun[id];
      if r.name == name && !Refused(w, r, mdYaml, fails) {
        LoadStepIsFresh(rd, w.commits, w.cache, name, r.sha, w.heads[name], mdYaml);
        hide LoadStep;
      }
    case FinishAliases(id, fails) =>
      var r := w.begun[id];
      if r.name == name && !fails && !AliasesHit(w, r) {
        AliasesKeepLabel(rd, w.commits, w.cache, name, r.sha, w.heads[name]);
      }
    case _ =>
  }

  /** Up to step `k` no load of the branch spoils the entry's label. */
  ghost predicate HarmlessRun<E>(worlds: seq<World<E>>, events: seq<Event>, k: nat, name: string)
    requires |worlds| == |events| + 1 && k <= |events|
    requires forall i :: 0 <= i < |events| ==> Sound(worlds[i]) && Enabled(worlds[i], events[i])
  {
    forall i :: 0 <= i < k ==> Harmless(worlds[i], events[i], name)
  }

  lemma {:induction false} RunKeepsLabel<E>(
    rd: Reader<E>, worlds: seq<World<E>>, events: seq<Event>, k: nat, name: string)
    requires Run(rd, worlds, events) && k <= |events| && HarmlessRun(worlds, events, k, name)
    ensures NameOk(rd, worlds[k].commits, worlds[k].cache, name)
    decreases k
  {
    if k > 0 {
      RunKeepsLabel(rd, worlds, events, k - 1, name);
      RunStep(rd, worlds, events, k - 1);
      hide NameOk, Sound, Enabled, Step, Harmless;
      StepKeepsLabel(rd, worlds[k - 1], events[k - 1], name);
    }
  }

  /** In every run that spoils no label of the branch, every load of its owners answers with those of the
      head that it read, whether the entry was hit, reused or reloaded. */
  lemma AnswersAreFresh<E>(rd: Reader<E>, worlds: seq<World<E>>, events: seq<Event>, k: nat)
    requires Run(rd, worlds, events) && k < |events| && events[k].FinishOwners?
    requires var w, e := worlds[k], events[k];
      && e.id in w.begun && !Refused(w, w.begun[e.id], e.mdYaml, e.fails)
      && HarmlessRun(worlds, events, k + 1, w.begun[e.id].name)
    ensures var w, e := worlds[k], events[k];
      && Sound(w) && Answer(rd, w, e.id, e.mdYaml) == Fresh(rd, w.commits[w.begun[e.id].sha], e.mdYaml)
  {
    var w, e := worlds[k], events[k];
    var r := w.begun[e.id];
    RunStep(rd, worlds, events, k);
    RunKeepsLabel(rd, worlds, events, k, r.name);
    assert Harmless(w, e, r.name);
    hide Run, HarmlessRun, LoadStep, Fresh, NameOk;
    LoadStepIsFresh(rd, w.commits, w.cache, r.name, r.sha, w.heads[r.name], e.mdYaml);
  }

  /** Only owners are loaded for the branch, and whenever such a load ends, no push has moved the branch
      since it read the head. */
  ghost predicate Quiet<E>(worlds: seq<World<E>>, events: seq<Event>, k: nat, name: string)
    requires k <= |events| <= |worlds|
  {
    forall i :: 0 <= i < k ==>
      match events[i]
      case FinishOwners(id, _, _) =>
        id in worlds[i].begun && worlds[i].begun[id].name == name && name in worlds[i].heads ==>
          worlds[i].heads[name] == worlds[i].begun[id].sha
      case FinishAliases(id, _) => id in worlds[i].begun ==> worlds[i].begun[id].name != name
      case _ => true
  }

  lemma QuietIsHarmless<E>(rd: Reader<E>, worlds: seq<World<E>>, events: seq<Event>, k: nat, name: string)
    requires Run(rd, worlds, events) && k <= |events| && Quiet(worlds, events, k, name)
    ensures HarmlessRun(worlds, events, k, name)
  {
    forall i | 0 <= i < k
      ensures Harmless(worlds[i], events[i], name)
    {
      RunStep(rd, worlds, events, i);
      hide Run, Step;
    }
  }

  /** So in every run of pushes and loads of owners in which no push falls inside a load, every answer is
      that of the branch's current tree. */
  lemma QuietAnswersAreCurrent<E>(rd: Reader<E>, worlds: seq<World<E>>, events: seq<Event>, k: nat)
    requires Run(rd, worlds, events) && k < |events| && events[k].FinishOwners?
    requires var w, e := worlds[k], events[k];
      && e.id in w.begun && !Refused(w, w.begun[e.id], e.mdYaml, e.fails)
      && Quiet(worlds, events, k + 1, w.begun[e.id].name)
    ensures var w, e := worlds[k], events[k];
      && Sound(w) && Answer(rd, w, e.id, e.mdYaml) == Fresh(rd, w.commits[w.heads[w.begun[e.id].name]], e.mdYaml)
  {
    var w, e := worlds[k], events[k];
    RunStep(rd, worlds, events, k);
    QuietIsHarmless(rd, worlds, events, k + 1, w.begun[e.id].name);
    AnswersAreFresh(rd, worlds, events, k);
    assert w.heads[w.begun[e.id].name] == w.begun[e.id].sha;
  }

  ghost predicate WasHead<E>(w: World<E>, e: Event, id: nat, r: Read) {
    e == ReadHead(id, r.name) && r.name in w.heads && w.heads[r.name] == r.sha
  }

  lemma RunReads<E>(rd: Reader<E>, worlds: seq<World<E>>, events: seq<Event>, k: nat, id: nat, r: Read)
    requires Run(rd, worlds, events) && k <= |events| && id in worlds[k].begun && worlds[k].begun[id] == r
    ensures 0 < k <= |events| < |worlds|
    ensures || WasHead(worlds[k - 1], events[k - 1], id, r)
            || (id in worlds[k - 1].begun && worlds[k - 1].begun[id] == r)
  {
    RunStep(rd, worlds, events, k - 1);
    hide Run, Step, Enabled, Sound;
    StepReads(rd, worlds[k - 1], events[k - 1], id);
  }

  /** A head that was read was the branch's head at the time. */
  lemma {:induction false} ReadsWereHeads<E>(
    rd: Reader<E>, worlds: seq<World<E>>, events: seq<Event>, k: nat, id: nat, r: Read)
    returns (j: nat)
    requires Run(rd, worlds, events) && k <= |events| && |worlds| == |events| + 1
    requires id in worlds[k].begun && worlds[k].begun[id] == r
    ensures j < k && WasHead(worlds[j], events[j], id, r)
    decreases k
  {
    hide Run, WasHead;
    RunReads(rd, worlds, events, k, id, r);
    if WasHead(worlds[k - 1], events[k - 1], id, r) {
      j := k - 1;
    } else {
      j := ReadsWereHeads(rd, worlds, events, k - 1, id, r);
    }
  }

  lemma LoadedBegun<E>(rd: Reader<E>, w: World<E>, r: Read, mdYaml: bool)
    requires Sound(w) && r.name in w.heads && r.sha in w.commits
    ensures Loaded(rd, w, r.name, r, mdYaml).begun == w.begun
  {
    hide LoadStep, Answers, KeepsAliases;
  }

  lemma StepReads<E>(rd: Reader<E>, w: World<E>, e: Event, id: nat)
    requires Sound(w) && Enabled(w, e) && id in Step(rd, w, e).begun
    ensures var r := Step(rd, w, e).begun[id];
      || (e == ReadHead(id, r.name) && r.name in w.heads && r.sha == w.heads[r.name])
      || (id in w.begun && w.begun[id] == r && e != ReadHead(id, r.name))
  {
    if e.FinishOwners? {
      LoadedBegun(rd, w.(begun := w.begun - {e.id}), w.begun[e.id], e.mdYaml);
    }
    hide Loaded, AliasesStep, Hit;
  }

  /** An answer given without a look at the tree is right if and only if the commits the entry comes from
      give the same owners as the commit it is labelled with. */
  lemma CachedAnswerExactly<E>(rd: Reader<E>, worlds: seq<World<E>>, events: seq<Event>, k: nat, id: nat, mdYaml: bool)
    requires Run(rd, worlds, events) && k <= |events| && id in worlds[k].begun
    requires Sound(worlds[k])
    requires var w, r := worlds[k], worlds[k].begun[id]; Answers(w.cache, w.commits, r.name, r.sha, mdYaml)
    ensures var w, r := worlds[k], worlds[k].begun[id];
      && r.name in w.cache && r.name in w.origins
      && w.origins[r.name].tree in w.commits && w.origins[r.name].aliases in w.commits
      && (Answer(rd, w, id, mdYaml) == Fresh(rd, w.commits[r.sha], mdYaml) <==>
            From(rd, w.commits, w.origins[r.name], mdYaml) == Fresh(rd, w.commits[w.cache[r.name].sha], mdYaml))
  {
    var w, r := worlds[k], worlds[k].begun[id];
    RunFrom(rd, worlds, events, k, r.name);
    var entry := EntryFor(w.cache, r.name);
    assert r.name in w.cache && entry.owners.value.enableMDYAML == mdYaml;
    if Reusable(entry, w.commits, r.sha, mdYaml) {
      UnchangedIsFresh(rd, w.commits[r.sha], w.commits[entry.sha], mdYaml);
    }
    hide Run, Fresh, From, Diff, Matters;
  }

  // A push inside a load.

  /** The commits "1", with tree `a`, and "2", with tree `b`, and the one that `third` names, with `a` again:
      a revert, or "1" itself. The first load reads "1" and checks out "2". */
  function TornEvents(a: Tree, b: Tree, third: string, mdYaml: bool): seq<Event> {
    [Push("m", "1", a), ReadHead(0, "m"), Push("m", "2", b), FinishOwners(0, mdYaml, false),
     Push("m", third, a), ReadHead(1, "m"), FinishOwners(1, mdYaml, false)]
  }

  function T0<E>(): World<E> { World(map[], map[], map[], map[], map[], map[]) }
  function T1<E>(a: Tree): World<E> { World(map["1" := a], map["m" := "1"], map[], map[], map[], map[]) }
  function T2<E>(a: Tree): World<E> { T1(a).(begun := map[0 := Read("m", "1")]) }
  function T3<E>(a: Tree, b: Tree): World<E> {
    T2(a).(commits := map["1" := a, "2" := b], heads := map["m" := "2"])
  }
  /** What the first load stores under "1": the owners of `b`. */
  function Torn<E>(rd: Reader<E>, b: Tree, mdYaml: bool): CacheEntry<E> {
    CacheEntry("1", LoadAliases(rd, b), Some(Fresh(rd, b, mdYaml)))
  }
  function T4<E>(rd: Reader<E>, a: Tree, b: Tree, mdYaml: bool): World<E> {
    World(map["1" := a, "2" := b], map["m" := "2"], map[], map["m" := Torn(rd, b, mdYaml)],
          map["m" := Origin("2", "2")], map["m" := "2"])
  }
  function T5<E>(rd: Reader<E>, a: Tree, b: Tree, third: string, mdYaml: bool): World<E> {
    T4(rd, a, b, mdYaml).(commits := map["1" := a, "2" := b][third := a], heads := map["m" := third])
  }
  function T6<E>(rd: Reader<E>, a: Tree, b: Tree, third: string, mdYaml: bool): World<E> {
    T5(rd, a, b, third, mdYaml).(begun := map[1 := Read("m", third)])
  }
  function T7<E>(rd: Reader<E>, a: Tree, b: Tree, third: string, mdYaml: bool): World<E> {
    T5(rd, a, b, third, mdYaml)
  }

  ghost predicate IsStep<E>(rd: Reader<E>, w: World<E>, e: Event, w': World<E>) {
    Sound(w) && Enabled(w, e) && w' == Step(rd, w, e)
  }

  lemma TornStarts<E>(rd: Reader<E>, a: Tree, b: Tree)
    ensures IsStep(rd, T0(), Push("m", "1", a), T1(a)) && IsStep(rd, T1(a), ReadHead(0, "m"), T2(a))
    ensures IsStep(rd, T2(a), Push("m", "2", b), T3(a, b))
  {
    hide Loaded;
  }

  lemma TornChecksOut<E>(rd: Reader<E>, a: Tree, b: Tree, mdYaml: bool)
    ensures IsStep(rd, T3(a, b), FinishOwners(0, mdYaml, false), T4(rd, a, b, mdYaml))
  {
    hide LoadOwners, LoadAliases, Diff, Matters;
    var w: World<E> := T3(a, b);
    assert w.begun - {0} == map[];
  }

  lemma TornGoesBack<E>(rd: Reader<E>, a: Tree, b: Tree, third: string, mdYaml: bool)
    requires third == "1" || third == "3"
    ensures IsStep(rd, T4(rd, a, b, mdYaml), Push("m", third, a), T5(rd, a, b, third, mdYaml))
    ensures IsStep(rd, T5(rd, a, b, third, mdYaml), ReadHead(1, "m"), T6(rd, a, b, third, mdYaml))
  {
    hide Loaded, LoadOwners, LoadAliases;
  }

  lemma TornIsFound<E>(rd: Reader<E>, a: Tree, b: Tree, third: string, mdYaml: bool)
    requires third == "1" || (third == "3" && LoadAliases(rd, b).Some?)
    ensures var w := T6(rd, a, b, third, mdYaml);
      third in w.commits && w.commits[third] == a && Answers(w.cache, w.commits, "m", third, mdYaml)
  {
    hide LoadAliases, Matters, HasOwners;
    assert Diff(a, a) == {};
  }

  /** The last load, inside which no push falls, finds the entry of "1". */
  lemma TornAnswers<E>(rd: Reader<E>, a: Tree, b: Tree, third: string, mdYaml: bool)
    requires third == "1" || (third == "3" && LoadAliases(rd, b).Some?)
    ensures var w := T6(rd, a, b, third, mdYaml);
      && IsStep(rd, w, FinishOwners(1, mdYaml, false), T7(rd, a, b, third, mdYaml))
      && Answer(rd, w, 1, mdYaml) == Fresh(rd, b, mdYaml)
  {
    TornIsFound(rd, a, b, third, mdYaml);
    hide LoadAliases, Answers, Fresh;
    var w := T6(rd, a, b, third, mdYaml);
    assert w.begun - {1} == map[];
    assert Answers(w.(begun := map[]).cache, w.commits, "m", third, mdYaml);
  }

  /** Steps that end with `e` in `w`. */
  ghost predicate Steps<E>(rd: Reader<E>, worlds: seq<World<E>>, events: seq<Event>, w: World<E>, e: Event) {
    && |worlds| == |events| + 1 >= 2 && worlds[|events| - 1] == w && events[|events| - 1] == e
    && forall i :: 0 <= i < |events| ==> IsStep(rd, worlds[i], events[i], worlds[i + 1])
  }

  lemma LastStep<E>(rd: Reader<E>, w: World<E>, e: Event, w': World<E>)
    requires IsStep(rd, w, e, w')
    ensures Steps(rd, [w] + [w'], [e], w, e) && ([w] + [w'])[0] == w
  {
    hide IsStep;
  }

  lemma StepBefore<E>(rd: Reader<E>, v: World<E>, x: Event, v': World<E>, worlds: seq<World<E>>, events: seq<Event>,
                      w: World<E>, e: Event)
    requires IsStep(rd, v, x, v') && Steps(rd, worlds, events, w, e) && worlds[0] == v'
    ensures Steps(rd, [v] + worlds, [x] + events, w, e) && ([v] + worlds)[0] == v
  {
    hide IsStep;
    forall i | 0 <= i < |[x] + events|
      ensures IsStep(rd, ([v] + worlds)[i], ([x] + events)[i], ([v] + worlds)[i + 1])
    {
      assert i > 0 ==> ([v] + worlds)[i] == worlds[i - 1] && ([x] + events)[i] == events[i - 1];
      assert ([v] + worlds)[i + 1] == worlds[i];
    }
  }

  lemma StepsAreRun<E>(rd: Reader<E>, worlds: seq<World<E>>, events: seq<Event>, w: World<E>, e: Event)
    requires Steps(rd, worlds, events, w, e)
    requires Sound(worlds[0]) && worlds[0].cache == map[] && worlds[0].begun == map[]
    ensures Run(rd, worlds, events)
  {
    hide Sound, Enabled, Step;
    forall i | 0 <= i < |events|
      ensures Sound(worlds[i]) && Enabled(worlds[i], events[i]) && worlds[i + 1] == Step(rd, worlds[i], events[i])
    {
      assert IsStep(rd, worlds[i], events[i], worlds[i + 1]);
    }
  }

  lemma TornBegins<E>()
    ensures Sound<E>(T0()) && T0<E>().cache == map[] && T0<E>().begun == map[]
  {}

  lemma SevenEvents(a: Event, b: Event, c: Event, d: Event, e: Event, f: Event, g: Event)
    ensures [a] + ([b] + ([c] + ([d] + ([e] + ([f] + [g]))))) == [a, b, c, d, e, f, g]
  {}

  /** A run whose last answer, for a branch whose tree is `a`, is that of `b`. */
  lemma TornRun<E>(rd: Reader<E>, a: Tree, b: Tree, third: string, mdYaml: bool)
    returns (worlds: seq<World<E>>, events: seq<Event>)
    requires third == "1" || (third == "3" && LoadAliases(rd, b).Some?)
    ensures Run(rd, worlds, events) && events == TornEvents(a, b, third, mdYaml) && |events| == 7 && |worlds| == 8
    ensures var w := worlds[6];
      && w == T6(rd, a, b, third, mdYaml) && Sound(w) && 1 in w.begun && w.begun[1] == Read("m", third)
      && "m" in w.heads && w.heads["m"] == third && third in w.commits && w.commits[third] == a
      && Answer(rd, w, 1, mdYaml) == Fresh(rd, b, mdYaml)
  {
    TornBegins<E>();
    TornStarts(rd, a, b);
    TornChecksOut(rd, a, b, mdYaml);
    TornGoesBack(rd, a, b, third, mdYaml);
    TornAnswers(rd, a, b, third, mdYaml);
    TornEnd(rd, a, b, third, mdYaml);
    hide *;
    var w, e := T6(rd, a, b, third, mdYaml), FinishOwners(1, mdYaml, false);
    LastStep(rd, w, e, T7(rd, a, b, third, mdYaml));
    worlds, events := [w] + [T7(rd, a, b, third, mdYaml)], [e];
    StepBefore(rd, T5(rd, a, b, third, mdYaml), ReadHead(1, "m"), w, worlds, events, w, e);
    worlds, events := [T5(rd, a, b, third, mdYaml)] + worlds, [ReadHead(1, "m")] + events;
    StepBefore(rd, T4(rd, a, b, mdYaml), Push("m", third, a), T5(rd, a, b, third, mdYaml), worlds, events, w, e);
    worlds, events := [T4(rd, a, b, mdYaml)] + worlds, [Push("m", third, a)] + events;
    StepBefore(rd, T3(a, b), FinishOwners(0, mdYaml, false), T4(rd, a, b, mdYaml), worlds, events, w, e);
    worlds, events := [T3(a, b)] + worlds, [FinishOwners(0, mdYaml, false)] + events;
    StepBefore(rd, T2(a), Push("m", "2", b), T3(a, b), worlds, events, w, e);
    worlds, events := [T2(a)] + worlds, [Push("m", "2", b)] + events;
    StepBefore(rd, T1(a), ReadHead(0, "m"), T2(a), worlds, events, w, e);
    worlds, events := [T1(a)] + worlds, [ReadHead(0, "m")] + events;
    StepBefore(rd, T0(), Push("m", "1", a), T1(a), worlds, events, w, e);
    worlds, events := [T0()] + worlds, [Push("m", "1", a)] + events;
    StepsAreRun(rd, worlds, events, w, e);
    TornList(a, b, third, mdYaml);
    StepsEnd(rd, worlds, events, w, e);
  }

  lemma TornList(a: Tree, b: Tree, third: string, mdYaml: bool)
    ensures |TornEvents(a, b, third, mdYaml)| == 7
    ensures TornEvents(a, b, third, mdYaml) ==
      [Push("m", "1", a)] + ([ReadHead(0, "m")] + ([Push("m", "2", b)] + ([FinishOwners(0, mdYaml, false)]
        + ([Push("m", third, a)] + ([ReadHead(1, "m")] + [FinishOwners(1, mdYaml, false)])))))
  {
    SevenEvents(Push("m", "1", a), ReadHead(0, "m"), Push("m", "2", b), FinishOwners(0, mdYaml, false),
                Push("m", third, a), ReadHead(1, "m"), FinishOwners(1, mdYaml, false));
  }

  lemma StepsEnd<E>(rd: Reader<E>, worlds: seq<World<E>>, events: seq<Event>, w: World<E>, e: Event)
    requires Steps(rd, worlds, events, w, e)
    ensures |worlds| == |events| + 1 >= 2 && worlds[|events| - 1] == w
  {}

  lemma TornEnd<E>(rd: Reader<E>, a: Tree, b: Tree, third: string, mdYaml: bool)
    ensures var w := T6(rd, a, b, third, mdYaml);
      && 1 in w.begun && w.begun[1] == Read("m", third) && "m" in w.heads && w.heads["m"] == third
      && third in w.commits && w.commits[third] == a
  {}

  /** The last answer of that run is right. */
  ghost predicate TornIsRight(rd: Reader<string>, a: Tree, b: Tree, mdYaml: bool) {
    var w := T6(rd, a, b, "1", mdYaml);
    Sound(w) && Answer(rd, w, 1, mdYaml) == Fresh(rd, a, mdYaml)
  }

  /** A reader that keeps what it reads. */
  function Keeper(): Reader<string> {
    Reader(s => Some(map["" := {s}]), (p, content, a) => content, p => false)
  }

  lemma KeeperSees(a: Tree, b: Tree, mdYaml: bool)
    requires Fresh(Keeper(), a, mdYaml) == Fresh(Keeper(), b, mdYaml)
    ensures AgreeOnRead(a, b, mdYaml)
  {
    var x, y := Fresh(Keeper(), a, mdYaml), Fresh(Keeper(), b, mdYaml);
    forall p | p == AliasesFileName || HasOwners(mdYaml, p)
      ensures SameAt(a, b, p)
    {
      if p == AliasesFileName {
        KeeperAliases(a, b);
      } else {
        assert p in x.entries <==> p in a;
        assert p in y.entries <==> p in b;
        assert p in a && p in b ==> x.entries[p] == a[p] && y.entries[p] == b[p];
      }
    }
  }

  lemma KeeperAliases(a: Tree, b: Tree)
    requires LoadAliases(Keeper(), a) == LoadAliases(Keeper(), b)
    ensures SameAt(a, b, AliasesFileName)
  {
    if AliasesFileName in a && AliasesFileName in b {
      var x, y: Aliases := map["" := {a[AliasesFileName]}], map["" := {b[AliasesFileName]}];
      assert x == y && x[""] == y[""];
      assert a[AliasesFileName] in y[""];
    }
  }

  /** A push inside a load does no harm, whatever is written in the files, if and only if the commits before
      and after it agree on the files that are read: for all other commits some reading of the files makes
      a later load, with no push inside, answer with owners that the branch does not have. */
  lemma TornLoadsExactly(a: Tree, b: Tree, mdYaml: bool)
    ensures AgreeOnRead(b, a, mdYaml) <==> forall rd :: TornIsRight(rd, a, b, mdYaml)
  {
    if AgreeOnRead(b, a, mdYaml) {
      forall rd
        ensures TornIsRight(rd, a, b, mdYaml)
      {
        TornAnswers(rd, a, b, "1", mdYaml);
        AgreeingAreFresh(rd, b, a, mdYaml);
        hide Fresh, Answer, Sound;
      }
    } else {
      TornAnswers(Keeper(), a, b, "1", mdYaml);
      if TornIsRight(Keeper(), a, b, mdYaml) {
        hide Fresh, Answer, Sound, AgreeOnRead;
        KeeperSees(b, a, mdYaml);
      }
    }
  }
}
