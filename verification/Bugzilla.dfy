/** plugins/config.go: the Bugzilla options of a branch, through a cascade of configuration levels, and
    the pruned per-repository table that must mean the same. */
module Bugzilla {
  import opened Text
  import opened Sorting
  import opened Layers

  datatype BugState = BugState(status: string, resolution: string)

  datatype Options = Options(
    excludeDefaults: Option<bool>, validateByDefault: Option<bool>, isOpen: Option<bool>,
    targetRelease: Option<string>, statuses: Option<seq<string>>, validStates: Option<seq<BugState>>,
    dependentBugStatuses: Option<seq<string>>, dependentBugStates: Option<seq<BugState>>,
    dependentBugTargetRelease: Option<string>,
    statusAfterValidation: Option<string>, stateAfterValidation: Option<BugState>,
    addExternalLink: Option<bool>, statusAfterMerge: Option<string>, stateAfterMerge: Option<BugState>)

  const Empty: Options :=
    Options(None, None, None, None, None, None, None, None, None, None, None, None, None, None)

  type Table = map<string, Options>

  datatype OrgOptions = OrgOptions(defaults: Table, repos: map<string, Table>)

  datatype Config = Config(defaults: Table, orgs: map<string, OrgOptions>)

  const Wildcard := "*"

  function Get(table: Table, item: string): Options { if item in table then table[item] else Empty }

  // Matching.

  /** Same length, and the first as a set within the second. */
  predicate StatesMatch(first: seq<BugState>, second: seq<BugState>) {
    |first| == |second| && Elements(first) <= Elements(second)
  }

  predicate OptionStatesMatch(a: Option<seq<BugState>>, b: Option<seq<BugState>>) {
    (a.None? && b.None?) || (a.Some? && b.Some? && StatesMatch(a.value, b.value))
  }

  predicate Matches(o: Options, other: Options) {
    && o.validateByDefault == other.validateByDefault && o.isOpen == other.isOpen
    && o.targetRelease == other.targetRelease
    && OptionStatesMatch(o.validStates, other.validStates)
    && OptionStatesMatch(o.dependentBugStates, other.dependentBugStates)
    && o.stateAfterValidation == other.stateAfterValidation
    && o.addExternalLink == other.addExternalLink && o.stateAfterMerge == other.stateAfterMerge
  }

  // Resolving a child against its parent.

  predicate StateLe(a: BugState, b: BugState) {
    StringLe(a.status, b.status) && (a.status == b.status ==> StringLe(a.resolution, b.resolution))
  }

  function FromStatuses(statuses: seq<string>): (r: seq<BugState>)
    ensures |r| == |statuses| && forall i :: 0 <= i < |r| ==> r[i] == BugState(statuses[i], "")
  {
    seq(|statuses|, i requires 0 <= i < |statuses| => BugState(statuses[i], ""))
  }

  function GetOr<T>(o: Option<seq<T>>): seq<T> { if o.Some? then o.value else [] }

  /** The states and the statuses, read as states, without repetition and in order; nil if none. */
  function MergeStatusesIntoStates(states: Option<seq<BugState>>,
                                   statuses: Option<seq<string>>): Option<seq<BugState>> {
    var merged := SortedSet(StateLe, GetOr(states) + FromStatuses(GetOr(statuses)));
    if merged == [] then None else Some(merged)
  }

  lemma StateLeTotal()
    ensures TotalOrder(StateLe)
  {
    StringLeTotal();
  }

  /** Merging keeps every state of either list exactly once; it gives nil only for none at all. */
  lemma MergeKeepsEveryState(states: Option<seq<BugState>>, statuses: Option<seq<string>>)
    ensures var merged := MergeStatusesIntoStates(states, statuses);
      && Elements(GetOr(merged)) == Elements(GetOr(states)) + (set s | s in GetOr(statuses) :: BugState(s, ""))
      && NoRepeats(GetOr(merged)) && Sorted(StateLe, GetOr(merged))
  {
    hide StateLe;
    var all := GetOr(states) + FromStatuses(GetOr(statuses));
    StateLeTotal();
    SortedSetCorrect(StateLe, all);
    DistinctHasNoRepeats(SortedSet(StateLe, all));
    assert Elements(all) == Elements(GetOr(states)) + Elements(FromStatuses(GetOr(statuses)));
    forall s | s in GetOr(statuses)
      ensures BugState(s, "") in FromStatuses(GetOr(statuses))
    {
      var i :| 0 <= i < |GetOr(statuses)| && GetOr(statuses)[i] == s;
      assert FromStatuses(GetOr(statuses))[i] == BugState(s, "");
    }
  }

  lemma DistinctHasNoRepeats(s: seq<BugState>)
    requires Distinct(s)
    ensures NoRepeats(s)
  {
    forall i, j | 0 <= i < j < |s|
      ensures s[i] != s[j]
    {
      assert s == s[..i] + [s[i]] + s[i + 1..j] + [s[j]] + s[j + 1..];
      assert s[i] == s[j] ==> multiset(s)[s[i]] >= 2;
    }
  }

  function Pick<T>(inherit: bool, parent: Option<T>, child: Option<T>): Option<T> {
    if child.Some? then child else if inherit then parent else None
  }

  /** A level that sets states or statuses sets them both. */
  function OwnStates(states: Option<seq<BugState>>, statuses: Option<seq<string>>): Option<seq<BugState>> {
    if statuses.Some? then MergeStatusesIntoStates(states, statuses) else states
  }

  function PickStates(inherit: bool, pStates: Option<seq<BugState>>, pStatuses: Option<seq<string>>,
                      cStates: Option<seq<BugState>>, cStatuses: Option<seq<string>>): Option<seq<BugState>> {
    if cStates.Some? || cStatuses.Some? then OwnStates(cStates, cStatuses)
    else if inherit then OwnStates(pStates, pStatuses)
    else None
  }

  /** A state wins over a status on the same level. */
  function OwnState(state: Option<BugState>, status: Option<string>): Option<BugState> {
    if state.Some? then state else if status.Some? then Some(BugState(status.value, "")) else None
  }

  /** The cascade of one level over another, field by field, in one sentence each. */
  function Resolve(parent: Options, child: Options): Options {
    var inherit := child.excludeDefaults != Some(true);
    Options(
      None,
      Pick(inherit, parent.validateByDefault, child.validateByDefault),
      Pick(inherit, parent.isOpen, child.isOpen),
      Pick(inherit, parent.targetRelease, child.targetRelease),
      None, PickStates(inherit, parent.validStates, parent.statuses, child.validStates, child.statuses),
      None, PickStates(inherit, parent.dependentBugStates, parent.dependentBugStatuses,
                       child.dependentBugStates, child.dependentBugStatuses),
      None,
      None, Pick(inherit, OwnState(parent.stateAfterValidation, parent.statusAfterValidation),
                 OwnState(child.stateAfterValidation, child.statusAfterValidation)),
      Pick(inherit, parent.addExternalLink, child.addExternalLink),
      None, Pick(inherit, OwnState(parent.stateAfterMerge, parent.statusAfterMerge),
                 OwnState(child.stateAfterMerge, child.statusAfterMerge)))
  }

  // The source assigns the fields of `output` one after the other, first from the parent, then from the
  // child; the assignments to one field, in order, are one method here.

  method ResolveField<T>(inherit: bool, parent: Option<T>, child: Option<T>) returns (output: Option<T>)
    ensures output == Pick(inherit, parent, child)
  {
    output := None;
    if inherit {
      if parent.Some? { output := parent; }
    }
    if child.Some? { output := child; }
  }

  /** ValidStates with Statuses, and DependentBugStates with DependentBugStatuses. */
  method ResolveStates(inherit: bool, pStates: Option<seq<BugState>>, pStatuses: Option<seq<string>>,
                       cStates: Option<seq<BugState>>, cStatuses: Option<seq<string>>)
    returns (output: Option<seq<BugState>>)
    ensures output == PickStates(inherit, pStates, pStatuses, cStates, cStatuses)
  {
    hide MergeStatusesIntoStates;
    output := None;
    if inherit {
      if pStates.Some? { output := pStates; }
      if pStatuses.Some? { output := MergeStatusesIntoStates(output, pStatuses); }
    }
    if cStates.Some? { output := cStates; }
    if cStatuses.Some? {
      if cStates.None? { output := None; }
      output := MergeStatusesIntoStates(output, cStatuses);
    }
  }

  /** StateAfterValidation with StatusAfterValidation, and the same after merge. */
  method ResolveState(inherit: bool, pState: Option<BugState>, pStatus: Option<string>,
                      cState: Option<BugState>, cStatus: Option<string>)
    returns (output: Option<BugState>)
    ensures output == Pick(inherit, OwnState(pState, pStatus), OwnState(cState, cStatus))
  {
    output := None;
    if inherit {
      if pStatus.Some? { output := Some(BugState(pStatus.value, "")); }
      if pState.Some? { output := pState; }
    }
    if cStatus.Some? {
      if cState.None? { output := Some(BugState(cStatus.value, "")); }
    }
    if cState.Some? { output := cState; }
  }

  method ResolveBugzillaOptions(parent: Options, child: Options) returns (output: Options)
    ensures output == Resolve(parent, child)
  {
    var inherit := child.excludeDefaults.None? || !child.excludeDefaults.value;
    var validateByDefault := ResolveField(inherit, parent.validateByDefault, child.validateByDefault);
    var isOpen := ResolveField(inherit, parent.isOpen, child.isOpen);
    var targetRelease := ResolveField(inherit, parent.targetRelease, child.targetRelease);
    var validStates := ResolveStates(inherit, parent.validStates, parent.statuses, child.validStates, child.statuses);
    var dependentBugStates := ResolveStates(inherit, parent.dependentBugStates, parent.dependentBugStatuses,
                                            child.dependentBugStates, child.dependentBugStatuses);
    var stateAfterValidation := ResolveState(inherit, parent.stateAfterValidation, parent.statusAfterValidation,
                                             child.stateAfterValidation, child.statusAfterValidation);
    var addExternalLink := ResolveField(inherit, parent.addExternalLink, child.addExternalLink);
    var stateAfterMerge := ResolveState(inherit, parent.stateAfterMerge, parent.statusAfterMerge,
                                        child.stateAfterMerge, child.statusAfterMerge);
    output := Options(None, validateByDefault, isOpen, targetRelease, None, validStates, None, dependentBugStates,
                      None, None, stateAfterValidation, addExternalLink, None, stateAfterMerge);
  }

  // The cascade.

  function OptionsForItem(item: string, table: Table): Options { Resolve(Get(table, Wildcard), Get(table, item)) }

  /** Global, then org, then repo; the cascade ends at the first level that is not configured. */
  function OptionsForBranch(b: Config, org: string, repo: string, branch: string): Options {
    var global := OptionsForItem(branch, b.defaults);
    if org !in b.orgs then global
    else
      var o := b.orgs[org];
      var orgLevel := Resolve(global, OptionsForItem(branch, o.defaults));
      if repo !in o.repos then orgLevel
      else Resolve(orgLevel, OptionsForItem(branch, o.repos[repo]))
  }

  // What the cascade means, entry by entry.

  /** The entries of one table that count for an item: the wildcard's, unless the item's own excludes it, and
      then the item's own. */
  function Entries(item: string, table: Table): seq<Options> {
    if Get(table, item).excludeDefaults == Some(true) then [Get(table, item)]
    else [Get(table, Wildcard), Get(table, item)]
  }

  /** The tables that are configured for a repository, outermost first, up to the first level that is not. */
  function Tables(b: Config, org: string, repo: string): seq<Table> {
    [b.defaults]
    + if org !in b.orgs then []
      else [b.orgs[org].defaults] + if repo !in b.orgs[org].repos then [] else [b.orgs[org].repos[repo]]
  }

  function AllEntries(tables: seq<Table>, branch: string): seq<Options> {
    if tables == [] then []
    else AllEntries(tables[..|tables| - 1], branch) + Entries(branch, tables[|tables| - 1])
  }

  // What one entry sets: a state is set by itself or, failing that, by a status.

  function ValidateByDefault(o: Options): Option<bool> { o.validateByDefault }
  function IsOpen(o: Options): Option<bool> { o.isOpen }
  function TargetRelease(o: Options): Option<string> { o.targetRelease }
  function AddExternalLink(o: Options): Option<bool> { o.addExternalLink }
  function AfterValidation(o: Options): Option<BugState> {
    match (o.stateAfterValidation, o.statusAfterValidation)
    case (Some(state), _) => Some(state)
    case (None, Some(status)) => Some(BugState(status, ""))
    case (None, None) => None
  }
  function AfterMerge(o: Options): Option<BugState> {
    match (o.stateAfterMerge, o.statusAfterMerge)
    case (Some(state), _) => Some(state)
    case (None, Some(status)) => Some(BugState(status, ""))
    case (None, None) => None
  }

  /** Each single-valued field has the value of the last of the entries that sets it. */
  ghost predicate Overrides(entries: seq<Options>, o: Options) {
    && ValidateByDefault(o) == Last(Settings(entries, ValidateByDefault))
    && IsOpen(o) == Last(Settings(entries, IsOpen))
    && TargetRelease(o) == Last(Settings(entries, TargetRelease))
    && AddExternalLink(o) == Last(Settings(entries, AddExternalLink))
    && AfterValidation(o) == Last(Settings(entries, AfterValidation))
    && AfterMerge(o) == Last(Settings(entries, AfterMerge))
  }

  /** What an entry sets for a list of states: the states as they are if there are no statuses; otherwise each
      state and each status once, in order, and nothing at all if that is none. */
  ghost predicate SetsStates(states: Option<seq<BugState>>, statuses: Option<seq<string>>, v: Option<seq<BugState>>) {
    if statuses.None? then v == states
    else
      && Elements(GetOr(v)) == Elements(GetOr(states)) + (set s | s in statuses.value :: BugState(s, ""))
      && (v.None? <==> Elements(GetOr(v)) == {}) && NoRepeats(GetOr(v)) && Sorted(StateLe, GetOr(v))
  }

  // The two lists of states, and the statuses that add to them.

  function ValidStates(o: Options): Option<seq<BugState>> { o.validStates }
  function ValidStatuses(o: Options): Option<seq<string>> { o.statuses }
  function DependentStates(o: Options): Option<seq<BugState>> { o.dependentBugStates }
  function DependentStatuses(o: Options): Option<seq<string>> { o.dependentBugStatuses }

  /** The list of one table: that of the last entry with states or statuses, nil if there is none. */
  ghost predicate TableList(entries: seq<Options>, states: Options -> Option<seq<BugState>>,
                            statuses: Options -> Option<seq<string>>, v: Option<seq<BugState>>)
  {
    if entries == [] then v.None?
    else
      var last := entries[|entries| - 1];
      if states(last).Some? || statuses(last).Some? then SetsStates(states(last), statuses(last), v)
      else TableList(entries[..|entries| - 1], states, statuses, v)
  }

  lemma TwoEntries(wild: Options, own: Options, states: Options -> Option<seq<BugState>>,
                   statuses: Options -> Option<seq<string>>, v: Option<seq<BugState>>)
    requires var inherit := own.excludeDefaults != Some(true);
      v == PickStates(inherit, states(wild), statuses(wild), states(own), statuses(own))
    ensures TableList(if own.excludeDefaults == Some(true) then [own] else [wild, own], states, statuses, v)
  {
    OwnStatesSets(states(wild), statuses(wild));
    OwnStatesSets(states(own), statuses(own));
    hide MergeStatusesIntoStates, SetsStates;
    TableListNext([], own, states, statuses, v);
    TableListNext([], wild, states, statuses, v);
    TableListNext([wild], own, states, statuses, v);
    assert [] + [own] == [own] && [] + [wild] == [wild] && [wild] + [own] == [wild, own];
    hide TableList;
    NoEntries(states, statuses, v);
  }

  lemma NoEntries(states: Options -> Option<seq<BugState>>, statuses: Options -> Option<seq<string>>,
                  v: Option<seq<BugState>>)
    ensures TableList([], states, statuses, v) <==> v.None?
  {}

  lemma TableListNext(entries: seq<Options>, last: Options, states: Options -> Option<seq<BugState>>,
                      statuses: Options -> Option<seq<string>>, v: Option<seq<BugState>>)
    ensures TableList(entries + [last], states, statuses, v) <==>
      if states(last).Some? || statuses(last).Some? then SetsStates(states(last), statuses(last), v)
      else TableList(entries, states, statuses, v)
  {
    assert (entries + [last])[..|entries|] == entries;
    hide SetsStates;
  }

  lemma OwnStatesSets(states: Option<seq<BugState>>, statuses: Option<seq<string>>)
    ensures SetsStates(states, statuses, OwnStates(states, statuses))
  {
    MergeKeepsEveryState(states, statuses);
    var v := MergeStatusesIntoStates(states, statuses);
    if v.Some? {
      assert v.value[0] in Elements(v.value);
    }
    hide StateLe;
  }

  /** The lists of an item in one table. */
  lemma ItemStates(item: string, table: Table)
    ensures var o, entries := OptionsForItem(item, table), Entries(item, table);
      && TableList(entries, ValidStates, ValidStatuses, o.validStates)
      && TableList(entries, DependentStates, DependentStatuses, o.dependentBugStates)
  {
    var wild, own, o := Get(table, Wildcard), Get(table, item), OptionsForItem(item, table);
    TwoEntries(wild, own, ValidStates, ValidStatuses, o.validStates);
    TwoEntries(wild, own, DependentStates, DependentStatuses, o.dependentBugStates);
    hide TableList, PickStates;
  }

  ghost predicate Picked<T(!new)>(item: string, table: Table, field: Options -> Option<T>) {
    var wild, own := Get(table, Wildcard), Get(table, item);
    field(OptionsForItem(item, table)) ==
      if field(own).Some? then field(own) else if own.excludeDefaults == Some(true) then None else field(wild)
  }

  lemma ItemPicks(item: string, table: Table)
    ensures Picked(item, table, ValidateByDefault) && Picked(item, table, IsOpen) && Picked(item, table, TargetRelease)
    ensures Picked(item, table, AddExternalLink)
    ensures Picked(item, table, AfterValidation) && Picked(item, table, AfterMerge)
  {
    hide OwnStates;
  }

  lemma PickedIsLast<T(!new)>(item: string, table: Table, field: Options -> Option<T>)
    requires Picked(item, table, field)
    ensures field(OptionsForItem(item, table)) == Last(Settings(Entries(item, table), field))
  {
    SettingsOf(Get(table, Wildcard), Get(table, item), field);
    hide Last, Settings, OptionsForItem;
  }

  lemma ItemOverrides(item: string, table: Table)
    ensures Overrides(Entries(item, table), OptionsForItem(item, table))
  {
    ItemPicks(item, table);
    hide OptionsForItem, Picked, Last, Settings, Entries, AfterValidation, AfterMerge;
    PickedIsLast(item, table, ValidateByDefault);
    PickedIsLast(item, table, IsOpen);
    PickedIsLast(item, table, TargetRelease);
    PickedIsLast(item, table, AddExternalLink);
    PickedIsLast(item, table, AfterValidation);
    PickedIsLast(item, table, AfterMerge);
  }

  lemma SettingsOf<T>(a: Options, b: Options, field: Options -> Option<T>)
    ensures Last(Settings([a, b], field)) == if field(b).Some? then field(b) else field(a)
    ensures Last(Settings([b], field)) == field(b)
  {
    assert Settings([a, b], field) == [field(a), field(b)] && Settings([b], field) == [field(b)];
    LastNext([], field(b));
    LastNext([field(a)], field(b));
    LastNext([], field(a));
    assert [] + [field(a)] == [field(a)] && [] + [field(b)] == [field(b)];
    assert [field(a)] + [field(b)] == [field(a), field(b)];
  }

  // Several tables.

  /** An item's options in one table, over those of the outer tables. */
  ghost predicate Layered<T(!new)>(outer: Options, o: Options, field: Options -> Option<T>) {
    field(Resolve(outer, o)) == if field(o).Some? then field(o) else field(outer)
  }

  lemma ResolveLayers(outer: Options, o: Options)
    requires o.excludeDefaults.None?
    ensures Layered(outer, o, ValidateByDefault) && Layered(outer, o, IsOpen) && Layered(outer, o, TargetRelease)
    ensures Layered(outer, o, AddExternalLink) && Layered(outer, o, AfterValidation) && Layered(outer, o, AfterMerge)
  {
    hide OwnStates;
  }

  lemma OverridesOne<T(!new)>(xs: seq<Options>, ys: seq<Options>, outer: Options, o: Options,
                              field: Options -> Option<T>)
    requires field(outer) == Last(Settings(xs, field)) && field(o) == Last(Settings(ys, field))
    requires Layered(outer, o, field)
    ensures field(Resolve(outer, o)) == Last(Settings(xs + ys, field))
  {
    LastAppend(Settings(xs, field), Settings(ys, field));
    assert Settings(xs + ys, field) == Settings(xs, field) + Settings(ys, field);
  }

  lemma OverridesBoth(xs: seq<Options>, ys: seq<Options>, outer: Options, o: Options)
    requires Overrides(xs, outer) && Overrides(ys, o) && o.excludeDefaults.None?
    ensures Overrides(xs + ys, Resolve(outer, o))
  {
    ResolveLayers(outer, o);
    hide Resolve, Layered, Last, Settings, AfterValidation, AfterMerge;
    OverridesOne(xs, ys, outer, o, ValidateByDefault);
    OverridesOne(xs, ys, outer, o, IsOpen);
    OverridesOne(xs, ys, outer, o, TargetRelease);
    OverridesOne(xs, ys, outer, o, AddExternalLink);
    OverridesOne(xs, ys, outer, o, AfterValidation);
    OverridesOne(xs, ys, outer, o, AfterMerge);
  }

  /** The cascade over a list of tables. */
  function Cascade(tables: seq<Table>, branch: string): Options
    requires tables != []
  {
    var last := OptionsForItem(branch, tables[|tables| - 1]);
    if |tables| == 1 then last else Resolve(Cascade(tables[..|tables| - 1], branch), last)
  }

  lemma CascadeNext(tables: seq<Table>, last: Table, branch: string)
    requires tables != []
    ensures Cascade(tables + [last], branch) == Resolve(Cascade(tables, branch), OptionsForItem(branch, last))
  {
    assert (tables + [last])[..|tables|] == tables;
    hide Resolve, OptionsForItem;
  }

  lemma BranchIsCascade(b: Config, org: string, repo: string, branch: string)
    ensures OptionsForBranch(b, org, repo, branch) == Cascade(Tables(b, org, repo), branch)
  {
    hide Resolve, OptionsForItem;
    if org in b.orgs {
      var o := b.orgs[org];
      CascadeNext([b.defaults], o.defaults, branch);
      assert [b.defaults] + [o.defaults] == [b.defaults, o.defaults];
      if repo in o.repos {
        CascadeNext([b.defaults, o.defaults], o.repos[repo], branch);
        assert Tables(b, org, repo) == [b.defaults, o.defaults] + [o.repos[repo]];
      } else {
        assert Tables(b, org, repo) == [b.defaults, o.defaults];
      }
    } else {
      assert Tables(b, org, repo) == [b.defaults];
    }
  }

  lemma {:induction false} CascadeOverrides(tables: seq<Table>, branch: string)
    requires tables != []
    ensures Overrides(AllEntries(tables, branch), Cascade(tables, branch))
  {
    var last := tables[|tables| - 1];
    ItemOverrides(branch, last);
    ItemExcludesNothing(branch, last);
    hide Overrides, OptionsForItem, Resolve;
    if |tables| > 1 {
      var front := tables[..|tables| - 1];
      CascadeOverrides(front, branch);
      OverridesBoth(AllEntries(front, branch), Entries(branch, last), Cascade(front, branch),
                    OptionsForItem(branch, last));
    } else {
      assert tables[..0] == [] && [] + Entries(branch, last) == Entries(branch, last);
      assert AllEntries(tables, branch) == Entries(branch, last);
    }
  }

  lemma ItemExcludesNothing(item: string, table: Table)
    ensures OptionsForItem(item, table).excludeDefaults.None? && OptionsForItem(item, table).statuses.None?
    ensures OptionsForItem(item, table).dependentBugStatuses.None?
  {}

  /** Later entries override earlier ones: in the options of a branch each single-valued field has the value of
      the last entry that sets it, among the wildcard's and the branch's own in each configured table from the
      outermost in, leaving out the wildcard's of a table where the branch's own excludes defaults. */
  lemma LaterEntriesOverride(b: Config, org: string, repo: string, branch: string)
    ensures Overrides(AllEntries(Tables(b, org, repo), branch), OptionsForBranch(b, org, repo, branch))
  {
    BranchIsCascade(b, org, repo, branch);
    CascadeOverrides(Tables(b, org, repo), branch);
    hide *;
  }

  /** The item's options in each table. */
  function Items(tables: seq<Table>, branch: string): (r: seq<Options>)
    ensures |r| == |tables| && forall i :: 0 <= i < |r| ==> r[i] == OptionsForItem(branch, tables[i])
  {
    seq(|tables|, i requires 0 <= i < |tables| => OptionsForItem(branch, tables[i]))
  }

  lemma StatesOver(outer: Options, o: Options)
    requires o.excludeDefaults.None? && o.statuses.None? && o.dependentBugStatuses.None?
    requires outer.statuses.None? && outer.dependentBugStatuses.None?
    ensures Layered(outer, o, ValidStates) && Layered(outer, o, DependentStates)
    ensures Resolve(outer, o).statuses.None? && Resolve(outer, o).dependentBugStatuses.None?
  {}

  lemma ItemsNext(tables: seq<Table>, branch: string)
    requires tables != []
    ensures Items(tables, branch) ==
      Items(tables[..|tables| - 1], branch) + [OptionsForItem(branch, tables[|tables| - 1])]
  {
    hide OptionsForItem;
  }

  lemma CascadeFirst(tables: seq<Table>, branch: string)
    requires |tables| == 1
    ensures Cascade(tables, branch) == OptionsForItem(branch, tables[0])
    ensures Items(tables, branch) == [OptionsForItem(branch, tables[0])]
  {
    hide OptionsForItem;
  }

  /** The lists of `o` are those of the last of the items that has one. */
  ghost predicate ListsOf(items: seq<Options>, o: Options) {
    && o.statuses.None? && o.dependentBugStatuses.None?
    && ValidStates(o) == Last(Settings(items, ValidStates))
    && DependentStates(o) == Last(Settings(items, DependentStates))
  }

  lemma ListsNext(items: seq<Options>, outer: Options, last: Options)
    requires ListsOf(items, outer)
    requires last.excludeDefaults.None? && last.statuses.None? && last.dependentBugStatuses.None?
    ensures ListsOf(items + [last], Resolve(outer, last))
  {
    StatesOver(outer, last);
    SettingsOf(last, last, ValidStates);
    SettingsOf(last, last, DependentStates);
    hide Resolve, Layered, Last, Settings;
    OverridesOne(items, [last], outer, last, ValidStates);
    OverridesOne(items, [last], outer, last, DependentStates);
  }

  lemma ListsFirst(item: Options)
    requires item.statuses.None? && item.dependentBugStatuses.None?
    ensures ListsOf([item], item)
  {
    SettingsOf(item, item, ValidStates);
    SettingsOf(item, item, DependentStates);
  }

  lemma {:induction false} CascadeStates(tables: seq<Table>, branch: string)
    requires tables != []
    ensures ListsOf(Items(tables, branch), Cascade(tables, branch))
  {
    var last := OptionsForItem(branch, tables[|tables| - 1]);
    ItemExcludesNothing(branch, tables[|tables| - 1]);
    hide OptionsForItem, Resolve, ListsOf, Items;
    if |tables| > 1 {
      CascadeStates(tables[..|tables| - 1], branch);
      ListsNext(Items(tables[..|tables| - 1], branch), Cascade(tables[..|tables| - 1], branch), last);
      ItemsNext(tables, branch);
    } else {
      CascadeFirst(tables, branch);
      ListsFirst(last);
    }
  }

  /** The same for lists of states, table by table: a table's list is that of its last entry with states or
      statuses, merged, and the innermost table whose list is not nil decides. (An entry with an empty list of
      statuses empties its table's list, but then an outer table's counts.) */
  lemma LaterStatesOverride(b: Config, org: string, repo: string, branch: string)
    ensures var o, items := OptionsForBranch(b, org, repo, branch), Items(Tables(b, org, repo), branch);
      && ValidStates(o) == Last(Settings(items, ValidStates))
      && DependentStates(o) == Last(Settings(items, DependentStates))
    ensures var tables := Tables(b, org, repo);
      forall i :: 0 <= i < |tables| ==>
        var item := Items(tables, branch)[i];
        && TableList(Entries(branch, tables[i]), ValidStates, ValidStatuses, item.validStates)
        && TableList(Entries(branch, tables[i]), DependentStates, DependentStatuses, item.dependentBugStates)
  {
    BranchIsCascade(b, org, repo, branch);
    var tables := Tables(b, org, repo);
    CascadeStates(tables, branch);
    hide OptionsForItem, TableList, Tables, OptionsForBranch, Cascade;
    forall i | 0 <= i < |tables|
      ensures var item := Items(tables, branch)[i];
        && TableList(Entries(branch, tables[i]), ValidStates, ValidStatuses, item.validStates)
        && TableList(Entries(branch, tables[i]), DependentStates, DependentStatuses, item.dependentBugStates)
    {
      ItemStates(branch, tables[i]);
    }
  }

  /** For instance an org's empty list of statuses does not empty the global list of states. */
  lemma EmptyStatusesExample(state: BugState)
    ensures var b := Config(map[Wildcard := Empty.(validStates := Some([state]))],
                            map["o" := OrgOptions(map[Wildcard := Empty.(statuses := Some([]))], map[])]);
      && OptionsForItem(Wildcard, b.orgs["o"].defaults).validStates == None
      && OptionsForBranch(b, "o", "r", Wildcard).validStates == Some([state])
  {
    assert FromStatuses([]) == [] && [] + FromStatuses([]) == [];
    assert SortedSet(StateLe, []) == [];
  }

  /** The branches the configuration names for a repository, at any level. */
  function Named(b: Config, org: string, repo: string): set<string> {
    b.defaults.Keys
    + (if org in b.orgs then b.orgs[org].defaults.Keys else {})
    + (if org in b.orgs && repo in b.orgs[org].repos then b.orgs[org].repos[repo].Keys else {})
  }

  function Resolved(b: Config, org: string, repo: string, branches: set<string>): Table {
    map branch | branch in branches :: OptionsForBranch(b, org, repo, branch)
  }

  method AddBranches(options: Table, b: Config, org: string, repo: string, branches: set<string>) returns (more: Table)
    ensures more == options + Resolved(b, org, repo, branches)
  {
    hide OptionsForBranch;
    more := options;
    var rest := branches;
    while rest != {}
      invariant rest <= branches && more == options + Resolved(b, org, repo, branches - rest)
      decreases |rest|
    {
      var branch :| branch in rest;
      more := more[branch := OptionsForBranch(b, org, repo, branch)];
      rest := rest - {branch};
    }
    assert branches - rest == branches;
  }

  lemma ResolvedUnion(b: Config, org: string, repo: string, x: set<string>, y: set<string>)
    ensures Resolved(b, org, repo, x) + Resolved(b, org, repo, y) == Resolved(b, org, repo, x + y)
    ensures map[] + Resolved(b, org, repo, x) == Resolved(b, org, repo, x)
  {
    hide OptionsForBranch;
  }

  predicate Redundant(options: Table, branch: string)
    requires branch in options
  {
    branch != Wildcard && Matches(options[branch], Get(options, Wildcard))
  }

  method OptionsForRepo(b: Config, org: string, repo: string) returns (pruned: Table)
    ensures IsPruned(b, org, repo, pruned)
  {
    hide Resolved, Redundant;
    var options := AddBranches(map[], b, org, repo, b.defaults.Keys);
    ghost var seen := b.defaults.Keys;
    ResolvedUnion(b, org, repo, seen, {});
    if org in b.orgs {
      options := AddBranches(options, b, org, repo, b.orgs[org].defaults.Keys);
      ResolvedUnion(b, org, repo, seen, b.orgs[org].defaults.Keys);
      seen := seen + b.orgs[org].defaults.Keys;
    }
    if org in b.orgs && repo in b.orgs[org].repos {
      options := AddBranches(options, b, org, repo, b.orgs[org].repos[repo].Keys);
      ResolvedUnion(b, org, repo, seen, b.orgs[org].repos[repo].Keys);
      seen := seen + b.orgs[org].repos[repo].Keys;
    }
    assert seen == Named(b, org, repo);
    var toDelete := set branch | branch in options && Redundant(options, branch);
    pruned := options - toDelete;
  }

  // The pruned table means what the cascade means.

  /** A reader of the table falls back to the wildcard entry, and from there to no options. */
  function Lookup(table: Table, branch: string): Options {
    if branch in table then table[branch] else Get(table, Wildcard)
  }

  /** The table a repository's branches are looked up in. */
  ghost predicate IsPruned(b: Config, org: string, repo: string, pruned: Table) {
    var full := Resolved(b, org, repo, Named(b, org, repo));
    pruned == map x | x in full && !Redundant(full, x) :: full[x]
  }

  lemma MatchesItself(o: Options)
    ensures Matches(o, o)
  {}

  /** A wildcard level resolves the same for itself as for a branch it does not name. */
  lemma WildcardLevel(p: Options)
    ensures Resolve(p, Empty) == Resolve(p, p)
  {
    hide MergeStatusesIntoStates;
  }

  lemma UnnamedIsWildcard(b: Config, org: string, repo: string, branch: string)
    requires branch !in Named(b, org, repo)
    ensures OptionsForBranch(b, org, repo, branch) == OptionsForBranch(b, org, repo, Wildcard)
  {
    hide Resolve;
    WildcardLevel(Get(b.defaults, Wildcard));
    if org in b.orgs {
      WildcardLevel(Get(b.orgs[org].defaults, Wildcard));
      if repo in b.orgs[org].repos {
        WildcardLevel(Get(b.orgs[org].repos[repo], Wildcard));
      }
    }
  }

  lemma NothingConfigured(b: Config, org: string, repo: string)
    requires Wildcard !in Named(b, org, repo)
    ensures OptionsForBranch(b, org, repo, Wildcard) == Empty
  {
    assert Resolve(Empty, Empty) == Empty;
    hide Resolve;
  }

  /** For every branch, named anywhere or not, the cascade's options match what the table gives. */
  lemma LookupMatches(b: Config, org: string, repo: string, branch: string, pruned: Table)
    requires IsPruned(b, org, repo, pruned)
    ensures Matches(OptionsForBranch(b, org, repo, branch), Lookup(pruned, branch))
  {
    hide OptionsForBranch, Matches;
    var full := Resolved(b, org, repo, Named(b, org, repo));
    assert Get(pruned, Wildcard) == Get(full, Wildcard);
    if branch !in Named(b, org, repo) {
      UnnamedIsWildcard(b, org, repo, branch);
      if Wildcard !in Named(b, org, repo) {
        NothingConfigured(b, org, repo);
      }
      MatchesItself(OptionsForBranch(b, org, repo, branch));
    } else if branch in pruned {
      MatchesItself(OptionsForBranch(b, org, repo, branch));
    }
  }

  // What matching is worth.

  ghost predicate NoRepeats(s: seq<BugState>) { forall i, j :: 0 <= i < j < |s| ==> s[i] != s[j] }

  lemma {:induction false} ElementsSize(s: seq<BugState>)
    ensures |Elements(s)| <= |s| && (NoRepeats(s) ==> |Elements(s)| == |s|)
  {
    if s != [] {
      var front, last := s[..|s| - 1], s[|s| - 1];
      ElementsSize(front);
      assert s == front + [last];
      assert Elements(s) == Elements(front) + {last};
      if last in front {
        var i :| 0 <= i < |front| && front[i] == last;
        assert s[i] == s[|s| - 1];
      }
    }
  }

  lemma SubsetOfSameSize<T>(a: set<T>, b: set<T>)
    requires a <= b && |b| <= |a|
    ensures a == b
  {
    assert |b| == |a| + |b - a|;
  }

  function TotalLength(s: seq<BugState>): nat {
    if s == [] then 0 else |s[0].status| + TotalLength(s[1..])
  }

  lemma {:induction false} ShorterThanTotal(s: seq<BugState>, x: BugState)
    requires x in s
    ensures |x.status| <= TotalLength(s)
  {
    if x != s[0] {
      ShorterThanTotal(s[1..], x);
    }
  }

  /** Matching lists of states are the same set of states, for every second list, exactly when the first
      list has no repeated state. */
  lemma MatchIsSameSet(first: seq<BugState>)
    ensures NoRepeats(first) <==> forall second :: StatesMatch(first, second) ==> Elements(first) == Elements(second)
  {
    if NoRepeats(first) {
      forall second | StatesMatch(first, second)
        ensures Elements(first) == Elements(second)
      {
        ElementsSize(first);
        ElementsSize(second);
        SubsetOfSameSize(Elements(first), Elements(second));
      }
    } else {
      var i, j :| 0 <= i < j < |first| && first[i] == first[j];
      var other := BugState(seq(TotalLength(first) + 1, _ => 'x'), "");
      if other in first {
        ShorterThanTotal(first, other);
      }
      var second := first[j := other];
      forall x | x in first
        ensures x in second
      {
        var k :| 0 <= k < |first| && first[k] == x;
        assert second[if k == j then i else k] == x;
      }
      assert second[j] == other && other in Elements(second) && other !in Elements(first);
    }
  }

  ghost predicate SameStates(a: Option<seq<BugState>>, b: Option<seq<BugState>>) {
    (a.None? && b.None?) || (a.Some? && b.Some? && Elements(a.value) == Elements(b.value))
  }

  /** The options ask for the same bugs, the same states being valid. */
  ghost predicate SameMeaning(a: Options, b: Options) {
    && a.validateByDefault == b.validateByDefault && a.isOpen == b.isOpen && a.targetRelease == b.targetRelease
    && SameStates(a.validStates, b.validStates) && SameStates(a.dependentBugStates, b.dependentBugStates)
    && a.stateAfterValidation == b.stateAfterValidation
    && a.addExternalLink == b.addExternalLink && a.stateAfterMerge == b.stateAfterMerge
  }

  ghost predicate SameLength(a: Option<seq<BugState>>, b: Option<seq<BugState>>) {
    a.Some? && b.Some? ==> |a.value| == |b.value|
  }

  /** Matching overlooks nothing but repetitions: options of the same meaning match whenever their lists have
      the same lengths. */
  lemma SameMeaningMatches(a: Options, b: Options)
    requires SameMeaning(a, b) && SameLength(a.validStates, b.validStates)
    requires SameLength(a.dependentBugStates, b.dependentBugStates)
    ensures Matches(a, b)
  {}

  /** The table loses nothing for a branch whose resolved state lists have no repetitions. */
  lemma ResolvedSameMeaning(b: Config, org: string, repo: string, branch: string, pruned: Table)
    requires IsPruned(b, org, repo, pruned) && Clean(OptionsForBranch(b, org, repo, branch))
    ensures SameMeaning(OptionsForBranch(b, org, repo, branch), Lookup(pruned, branch))
  {
    LookupMatches(b, org, repo, branch, pruned);
    hide OptionsForBranch, Lookup, Redundant, Named;
    var o := OptionsForBranch(b, org, repo, branch);
    MatchIsSameSet(GetOr(o.validStates));
    MatchIsSameSet(GetOr(o.dependentBugStates));
  }

  // On the configuration.

  /** No list of states repeats one. */
  ghost predicate Clean(o: Options) { NoRepeats(GetOr(o.validStates)) && NoRepeats(GetOr(o.dependentBugStates)) }

  ghost predicate CleanTable(table: Table) { forall item :: item in table ==> Clean(table[item]) }

  /** No list of states configured for the repository, at any level, repeats one. */
  ghost predicate CleanConfig(b: Config, org: string, repo: string) {
    && CleanTable(b.defaults)
    && (org in b.orgs ==> CleanTable(b.orgs[org].defaults))
    && (org in b.orgs && repo in b.orgs[org].repos ==> CleanTable(b.orgs[org].repos[repo]))
  }

  lemma OwnStatesClean(states: Option<seq<BugState>>, statuses: Option<seq<string>>)
    requires NoRepeats(GetOr(states))
    ensures NoRepeats(GetOr(OwnStates(states, statuses)))
  {
    MergeKeepsEveryState(states, statuses);
    hide MergeStatusesIntoStates, NoRepeats;
  }

  /** Resolving keeps lists without repetitions so. */
  lemma ResolveKeepsClean(parent: Options, child: Options)
    requires Clean(parent) && Clean(child)
    ensures Clean(Resolve(parent, child))
  {
    OwnStatesClean(parent.validStates, parent.statuses);
    OwnStatesClean(child.validStates, child.statuses);
    OwnStatesClean(parent.dependentBugStates, parent.dependentBugStatuses);
    OwnStatesClean(child.dependentBugStates, child.dependentBugStatuses);
    hide OwnStates, OwnState;
  }

  lemma ItemClean(item: string, table: Table)
    requires CleanTable(table)
    ensures Clean(OptionsForItem(item, table))
  {
    ResolveKeepsClean(Get(table, Wildcard), Get(table, item));
    hide Resolve;
  }

  lemma BranchClean(b: Config, org: string, repo: string, branch: string)
    requires CleanConfig(b, org, repo)
    ensures Clean(OptionsForBranch(b, org, repo, branch))
  {
    hide Resolve, OptionsForItem, Clean, CleanTable;
    var global := OptionsForItem(branch, b.defaults);
    ItemClean(branch, b.defaults);
    if org in b.orgs {
      var o := b.orgs[org];
      ItemClean(branch, o.defaults);
      ResolveKeepsClean(global, OptionsForItem(branch, o.defaults));
      if repo in o.repos {
        ItemClean(branch, o.repos[repo]);
        ResolveKeepsClean(Resolve(global, OptionsForItem(branch, o.defaults)), OptionsForItem(branch, o.repos[repo]));
      }
    }
  }

  /** If no configured list repeats a state, every branch, named or not, keeps its meaning. */
  lemma LookupSameMeaning(b: Config, org: string, repo: string, branch: string, pruned: Table)
    requires IsPruned(b, org, repo, pruned) && CleanConfig(b, org, repo)
    ensures SameMeaning(OptionsForBranch(b, org, repo, branch), Lookup(pruned, branch))
  {
    BranchClean(b, org, repo, branch);
    hide *;
    ResolvedSameMeaning(b, org, repo, branch, pruned);
  }

  /** A branch with one list of valid states, under a wildcard with another. */
  function TwoLists(first: seq<BugState>, second: seq<BugState>): Config {
    Config(map[Wildcard := Empty.(validStates := Some(second)), "m" := Empty.(validStates := Some(first))], map[])
  }

  /** Pruning keeps the meaning of that branch. */
  ghost predicate Survives(first: seq<BugState>, second: seq<BugState>) {
    var b := TwoLists(first, second);
    forall pruned :: IsPruned(b, "o", "r", pruned) ==>
      SameMeaning(OptionsForBranch(b, "o", "r", "m"), Lookup(pruned, "m"))
  }

  lemma TwoListsResolve(first: seq<BugState>, second: seq<BugState>)
    ensures var b := TwoLists(first, second);
      && Named(b, "o", "r") == {Wildcard, "m"}
      && OptionsForBranch(b, "o", "r", "m") == Empty.(validStates := Some(first))
      && OptionsForBranch(b, "o", "r", Wildcard) == Empty.(validStates := Some(second))
  {
    hide MergeStatusesIntoStates;
  }

  lemma MatchingIsPruned(first: seq<BugState>, second: seq<BugState>) returns (pruned: Table)
    requires StatesMatch(first, second)
    ensures IsPruned(TwoLists(first, second), "o", "r", pruned)
    ensures Lookup(pruned, "m") == Empty.(validStates := Some(second))
  {
    var b := TwoLists(first, second);
    TwoListsResolve(first, second);
    hide OptionsForBranch, Named, TwoLists, StatesMatch;
    var full := Resolved(b, "o", "r", Named(b, "o", "r"));
    pruned := map x | x in full && !Redundant(full, x) :: full[x];
    assert Redundant(full, "m");
  }

  /** Exactly the lists without repetitions survive pruning under every wildcard: for every list with a
      repetition there is a wildcard that takes its place and accepts other states. */
  lemma PruningIsSafeExactly(first: seq<BugState>)
    ensures NoRepeats(first) <==> forall second :: Survives(first, second)
  {
    if NoRepeats(first) {
      forall second
        ensures Survives(first, second)
      {
        var b := TwoLists(first, second);
        TwoListsResolve(first, second);
        assert Clean(OptionsForBranch(b, "o", "r", "m"));
        hide OptionsForBranch, IsPruned, SameMeaning, Lookup;
        forall pruned | IsPruned(b, "o", "r", pruned)
          ensures SameMeaning(OptionsForBranch(b, "o", "r", "m"), Lookup(pruned, "m"))
        {
          ResolvedSameMeaning(b, "o", "r", "m", pruned);
        }
      }
    } else {
      MatchIsSameSet(first);
      var second :| StatesMatch(first, second) && Elements(first) != Elements(second);
      RepetitionLosesMeaning(first, second);
    }
  }

  lemma RepetitionLosesMeaning(first: seq<BugState>, second: seq<BugState>)
    requires StatesMatch(first, second) && Elements(first) != Elements(second)
    ensures !Survives(first, second)
  {
    var pruned := MatchingIsPruned(first, second);
    TwoListsResolve(first, second);
    hide OptionsForBranch, IsPruned, Lookup, TwoLists;
    assert !SameMeaning(OptionsForBranch(TwoLists(first, second), "o", "r", "m"), Lookup(pruned, "m"));
  }

  // What the cascade does not do.

  /** Entries for an org `*`, or for a repo `*` of an org, apply to no other org or repo. */
  lemma WildcardNamesDoNotApply(b: Config, org: string, repo: string, branch: string, o: OrgOptions, t: Table)
    requires org != Wildcard
    ensures OptionsForBranch(b.(orgs := b.orgs[Wildcard := o]), org, repo, branch)
         == OptionsForBranch(b, org, repo, branch)
    ensures org in b.orgs && repo != Wildcard ==>
      var more := b.orgs[org].(repos := b.orgs[org].repos[Wildcard := t]);
      OptionsForBranch(b.(orgs := b.orgs[org := more]), org, repo, branch) == OptionsForBranch(b, org, repo, branch)
  {
    hide Resolve, OptionsForItem;
  }

  /** Every field that the outer levels set, the entry sets too. */
  ghost predicate SetsAll(parent: Options, o: Options) {
    && (parent.validateByDefault.Some? ==> o.validateByDefault.Some?) && (parent.isOpen.Some? ==> o.isOpen.Some?)
    && (parent.targetRelease.Some? ==> o.targetRelease.Some?)
    && (OwnStates(parent.validStates, parent.statuses).Some? ==> o.validStates.Some?)
    && (OwnStates(parent.dependentBugStates, parent.dependentBugStatuses).Some? ==> o.dependentBugStates.Some?)
    && (OwnState(parent.stateAfterValidation, parent.statusAfterValidation).Some? ==> o.stateAfterValidation.Some?)
    && (parent.addExternalLink.Some? ==> o.addExternalLink.Some?)
    && (OwnState(parent.stateAfterMerge, parent.statusAfterMerge).Some? ==> o.stateAfterMerge.Some?)
  }

  /** An entry that excludes defaults excludes those of its own table: towards the outer levels the
      exclusion is forgotten, which makes no difference if and only if the entry sets every field that they
      set. */
  lemma ExclusionStopsAtItsTable(parent: Options, item: string, table: Table)
    ensures var o := OptionsForItem(item, table);
      && o.excludeDefaults.None? && o.dependentBugTargetRelease.None?
      && (Resolve(parent, o) == Resolve(parent, o.(excludeDefaults := Some(true))) <==> SetsAll(parent, o))
  {
    hide OwnStates;
  }
}
