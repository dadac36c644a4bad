/** gitattributes/pattern.go: the one-pass path matcher against the declarative reading of `**`. */
module GitAttributes {
  import opened Text

  /** What `filepath.Match` answers for one segment. */
  datatype GlobResult = Match | NoMatch | BadPattern

  type Glob = (string, string) -> GlobResult

  const ZeroToManyDirs := "**"

  predicate Plain(p: string) { p != "" && p != ZeroToManyDirs }

  predicate ContainsStars(p: string) {
    exists i :: 0 <= i < |p| - 1 && p[i] == '*' && p[i + 1] == '*'
  }

  /** Declarative reading: `**` stands for any number of segments, an empty segment for none, and any
      other segment for exactly one that it globs. */
  ghost predicate Denotes(glob: Glob, pattern: seq<string>, path: seq<string>)
    decreases |pattern|, |path|
  {
    if pattern == [] then path == []
    else if pattern[0] == "" then Denotes(glob, pattern[1..], path)
    else if pattern[0] == ZeroToManyDirs then
      Denotes(glob, pattern[1..], path) || (path != [] && Denotes(glob, pattern, path[1..]))
    else path != [] && glob(pattern[0], path[0]) == Match && Denotes(glob, pattern[1..], path[1..])
  }

  ghost predicate DenotesPrefix(glob: Glob, pattern: seq<string>, path: seq<string>) {
    exists n :: 0 <= n <= |path| && Denotes(glob, pattern, path[..n])
  }

  // The algorithm.

  /** What is left of the path after the first segment that `p` matches, None if a glob was malformed. */
  datatype Found = Found(rest: seq<string>, matched: bool)

  function Seek(glob: Glob, p: string, path: seq<string>): (r: Option<Found>) {
    if path == [] then Some(Found([], false))
    else match glob(p, path[0])
      case BadPattern => None
      case Match => Some(Found(path[1..], true))
      case NoMatch => Seek(glob, p, path[1..])
  }

  /** The loop of pathMatch from some segment on. */
  function Greedy(glob: Glob, pattern: seq<string>, path: seq<string>, matched: bool, canTraverse: bool): bool
    decreases |pattern|
  {
    if pattern == [] then matched
    else if pattern[0] == "" then Greedy(glob, pattern[1..], path, matched, false)
    else if pattern[0] == ZeroToManyDirs then
      if |pattern| == 1 then matched else Greedy(glob, pattern[1..], path, matched, true)
    else if ContainsStars(pattern[0]) || path == [] then false
    else if canTraverse then
      match Seek(glob, pattern[0], path)
      case None => false
      case Some(found) => Greedy(glob, pattern[1..], found.rest, found.matched, false)
    else glob(pattern[0], path[0]) == Match && Greedy(glob, pattern[1..], path[1..], true, false)
  }

  /** The source's nested loops, consuming `path`. */
  method PathMatch(glob: Glob, pattern: seq<string>, path: seq<string>) returns (ok: bool)
    ensures ok == Greedy(glob, pattern, path, false, false)
  {
    var matched, canTraverse, rest := false, false, path;
    for i := 0 to |pattern|
      invariant Greedy(glob, pattern, path, false, false) == Greedy(glob, pattern[i..], rest, matched, canTraverse)
    {
      var p := pattern[i];
      assert pattern[i..][0] == p && pattern[i..][1..] == pattern[i + 1..];
      if p == "" {
        canTraverse := false;
        continue;
      }
      if p == ZeroToManyDirs {
        if i == |pattern| - 1 {
          return matched;
        }
        canTraverse := true;
        continue;
      }
      if ContainsStars(p) {
        return false;
      }
      if rest == [] {
        return false;
      }
      if canTraverse {
        canTraverse := false;
        var start := rest;
        var found := false;
        while rest != [] && !found
          invariant found ==> Seek(glob, p, start) == Some(Found(rest, true)) && matched
          invariant !found ==> Seek(glob, p, start) == Seek(glob, p, rest)
          invariant !found && rest == [] ==> !matched
          decreases |rest|, !found
        {
          var e := rest[0];
          rest := rest[1..];
          match glob(p, e)
          case BadPattern => return false;
          case Match =>
            matched := true;
            found := true;
          case NoMatch =>
            if rest == [] {
              matched := false;
            }
        }
      } else {
        if glob(p, rest[0]) != Match {
          return false;
        }
        matched := true;
        rest := rest[1..];
      }
    }
    return matched;
  }

  // Soundness.

  lemma {:induction false} SeekFinds(glob: Glob, p: string, path: seq<string>) returns (k: nat)
    requires Seek(glob, p, path).Some? && Seek(glob, p, path).value.matched
    ensures k < |path| && glob(p, path[k]) == Match && Seek(glob, p, path).value.rest == path[k + 1..]
  {
    if glob(p, path[0]) == Match {
      k := 0;
    } else {
      k := SeekFinds(glob, p, path[1..]);
      assert path[1..][k + 1..] == path[k + 2..];
      k := k + 1;
    }
  }

  /** The segments a `**` skips do not matter. */
  lemma {:induction false} StarsSkip(glob: Glob, pattern: seq<string>, path: seq<string>, k: nat)
    requires pattern != [] && pattern[0] == ZeroToManyDirs && k <= |path|
    requires Denotes(glob, pattern[1..], path[k..])
    ensures Denotes(glob, pattern, path)
  {
    if k > 0 {
      assert path[1..][k - 1..] == path[k..];
      StarsSkip(glob, pattern, path[1..], k - 1);
    } else {
      assert path[0..] == path;
    }
  }

  /** Once nothing is matched and the path is used up, the loop can only reject. */
  lemma {:induction false} ExhaustedRejects(glob: Glob, pattern: seq<string>, canTraverse: bool)
    ensures !Greedy(glob, pattern, [], false, canTraverse)
    decreases |pattern|
  {
    if pattern != [] {
      ExhaustedRejects(glob, pattern[1..], false);
      ExhaustedRejects(glob, pattern[1..], true);
    }
  }

  /** A pending `**` is put back in front of the pattern it was read from. */
  function Pending(pattern: seq<string>, canTraverse: bool): seq<string> {
    if canTraverse then [ZeroToManyDirs] + pattern else pattern
  }

  lemma DenotesPlain(glob: Glob, pattern: seq<string>, path: seq<string>, n: nat)
    requires pattern != [] && Plain(pattern[0]) && path != [] && glob(pattern[0], path[0]) == Match
    requires n <= |path| - 1 && Denotes(glob, pattern[1..], path[1..][..n])
    ensures Denotes(glob, pattern, path[..n + 1])
  {
    assert path[..n + 1][1..] == path[1..][..n] && path[..n + 1][0] == path[0];
  }

  /** Whatever the loop accepts, some prefix of the path matches the declarative reading. */
  lemma {:induction false} GreedySound(glob: Glob, pattern: seq<string>, path: seq<string>, matched: bool,
                                       canTraverse: bool)
    returns (n: nat)
    requires Greedy(glob, pattern, path, matched, canTraverse)
    ensures n <= |path| && Denotes(glob, Pending(pattern, canTraverse), path[..n])
    decreases |pattern|
  {
    var p := Pending(pattern, canTraverse);
    if canTraverse {
      assert p[1..] == pattern;
    }
    if pattern == [] {
      n := 0;
      assert path[..0] == [];
      if canTraverse {
        StarsSkip(glob, p, path[..0], 0);
      }
    } else if pattern[0] == "" {
      n := GreedySound(glob, pattern[1..], path, matched, false);
      if canTraverse {
        assert path[..n][0..] == path[..n];
        StarsSkip(glob, p, path[..n], 0);
      }
    } else if pattern[0] == ZeroToManyDirs {
      if |pattern| == 1 {
        n := 0;
        assert path[..0] == [] && pattern[1..] == [];
        StarsSkip(glob, pattern, path[..0], 0);
      } else {
        n := GreedySound(glob, pattern[1..], path, matched, true);
        assert Pending(pattern[1..], true) == pattern;
      }
      if canTraverse {
        assert path[..n][0..] == path[..n];
        StarsSkip(glob, p, path[..n], 0);
      }
    } else if canTraverse {
      var found := Seek(glob, pattern[0], path).value;
      if found.matched {
        var k := SeekFinds(glob, pattern[0], path);
        var m := GreedySound(glob, pattern[1..], found.rest, true, false);
        assert found.rest == path[k..][1..];
        DenotesPlain(glob, pattern, path[k..], m);
        n := k + m + 1;
        assert path[..n][k..] == path[k..][..m + 1];
        StarsSkip(glob, p, path[..n], k);
      } else {
        SeekExhausts(glob, pattern[0], path);
        ExhaustedRejects(glob, pattern[1..], false);
        n := 0;
      }
    } else {
      var m := GreedySound(glob, pattern[1..], path[1..], true, false);
      DenotesPlain(glob, pattern, path, m);
      n := m + 1;
    }
  }

  lemma {:induction false} SeekExhausts(glob: Glob, p: string, path: seq<string>)
    requires Seek(glob, p, path).Some? && !Seek(glob, p, path).value.matched
    ensures Seek(glob, p, path).value.rest == []
  {
    if path != [] {
      SeekExhausts(glob, p, path[1..]);
    }
  }

  /** pathMatch never accepts a path none of whose prefixes matches. */
  lemma PathMatchSound(glob: Glob, pattern: seq<string>, path: seq<string>)
    requires Greedy(glob, pattern, path, false, false)
    ensures DenotesPrefix(glob, pattern, path)
  {
    var n := GreedySound(glob, pattern, path, false, false);
  }

  // Completeness.

  /** After the first `**`, every plain segment comes directly after a `**`; and `**` is nowhere inside a
      segment. `after` says that a `**` came before, `live` that it came directly before. */
  ghost predicate Spaced(pattern: seq<string>, after: bool, live: bool)
    decreases |pattern|
  {
    pattern != [] ==>
      if pattern[0] == "" then Spaced(pattern[1..], after, false)
      else if pattern[0] == ZeroToManyDirs then Spaced(pattern[1..], true, true)
      else !ContainsStars(pattern[0]) && (after ==> live) && Spaced(pattern[1..], after, false)
  }

  ghost predicate WellFormed(glob: Glob, pattern: seq<string>) {
    forall p, e :: p in pattern && Plain(p) ==> glob(p, e) != BadPattern
  }

  ghost predicate HasPlain(pattern: seq<string>) {
    exists p :: p in pattern && Plain(p)
  }

  /** The patterns on which the one-pass matcher is right. */
  ghost predicate Sensible(pattern: seq<string>) { Spaced(pattern, false, false) && HasPlain(pattern) }

  /** The first match is as good as any: what is left is longer. */
  lemma {:induction false} SeekIsEarliest(glob: Glob, p: string, path: seq<string>, k: nat) returns (j: nat)
    requires k < |path| && glob(p, path[k]) == Match && forall e :: glob(p, e) != BadPattern
    ensures j <= k && Seek(glob, p, path) == Some(Found(path[j + 1..], true))
  {
    if glob(p, path[0]) == Match {
      j := 0;
    } else {
      assert path[1..][k - 1] == path[k];
      j := SeekIsEarliest(glob, p, path[1..], k - 1);
      assert path[1..][j + 1..] == path[j + 2..];
      j := j + 1;
    }
  }

  /** A `**` at the front of a denoted path skips some number of segments. */
  lemma {:induction false} StarsUnskip(glob: Glob, pattern: seq<string>, path: seq<string>) returns (k: nat)
    requires pattern != [] && pattern[0] == ZeroToManyDirs && Denotes(glob, pattern, path)
    ensures k <= |path| && Denotes(glob, pattern[1..], path[k..])
  {
    if Denotes(glob, pattern[1..], path) {
      k := 0;
      assert path[0..] == path;
    } else {
      k := StarsUnskip(glob, pattern, path[1..]);
      assert path[1..][k..] == path[k + 1..];
      k := k + 1;
    }
  }

  lemma HasPlainRest(pattern: seq<string>)
    requires pattern != [] && !Plain(pattern[0]) && HasPlain(pattern)
    ensures HasPlain(pattern[1..])
  {
    var p :| p in pattern && Plain(p);
    assert p in pattern[1..];
  }

  lemma PlainConsumes(glob: Glob, pattern: seq<string>, path: seq<string>, k: nat, n: nat)
    requires pattern != [] && Plain(pattern[0]) && k <= n <= |path| && Denotes(glob, pattern, path[k..n])
    ensures k < n && glob(pattern[0], path[k]) == Match && Denotes(glob, pattern[1..], path[k + 1..n])
  {
    assert path[k..n][1..] == path[k + 1..n];
  }

  lemma SliceAfter(path: seq<string>, j: nat, k: nat, n: nat)
    requires j <= k < n <= |path|
    ensures path[j + 1..][k - j..n - j - 1] == path[k + 1..n]
  {}

  /** The loop accepts every path that has the matching part at its front or, after a `**`, later. */
  lemma {:induction false} GreedyComplete(
    glob: Glob, pattern: seq<string>, path: seq<string>, matched: bool, after: bool, live: bool, k: nat, n: nat)
    requires Spaced(pattern, after, live) && WellFormed(glob, pattern) && (live ==> after)
    requires k <= n <= |path| && (k > 0 ==> after) && Denotes(glob, pattern, path[k..n])
    requires matched || HasPlain(pattern)
    ensures Greedy(glob, pattern, path, matched, live)
    decreases |pattern|
  {
    if pattern != [] {
      var p, rest := pattern[0], pattern[1..];
      if !matched && !Plain(p) {
        HasPlainRest(pattern);
      }
      if p == "" {
        GreedyComplete(glob, rest, path, matched, after, false, k, n);
      } else if p == ZeroToManyDirs {
        if |pattern| > 1 {
          var skip := StarsUnskip(glob, pattern, path[k..n]);
          assert path[k..n][skip..] == path[k + skip..n];
          GreedyComplete(glob, rest, path, matched, true, true, k + skip, n);
        }
      } else {
        assert p in pattern;
        PlainConsumes(glob, pattern, path, k, n);
        var j := 0;
        if live {
          j := SeekIsEarliest(glob, p, path, k);
        }
        SliceAfter(path, j, k, n);
        GreedyComplete(glob, rest, path[j + 1..], true, after, false, k - j, n - j - 1);
      }
    }
  }

  /** On patterns with a plain segment and well-formed globs, in which every plain segment after the first
      `**` comes directly after a `**`, the one-pass matcher decides exactly the declarative reading. */
  lemma PathMatchExact(glob: Glob, pattern: seq<string>, path: seq<string>)
    requires Sensible(pattern) && WellFormed(glob, pattern)
    ensures Greedy(glob, pattern, path, false, false) <==> DenotesPrefix(glob, pattern, path)
  {
    if Greedy(glob, pattern, path, false, false) {
      PathMatchSound(glob, pattern, path);
    }
    if DenotesPrefix(glob, pattern, path) {
      var n :| 0 <= n <= |path| && Denotes(glob, pattern, path[..n]);
      assert path[0..n] == path[..n];
      GreedyComplete(glob, pattern, path, false, false, false, 0, n);
    }
  }

  // The condition is exact: without it a path can be found on which the matcher, which does not
  // backtrack, is wrong. Shown for globs without special characters.

  function Literal(p: string, e: string): GlobResult { if p == e then Match else NoMatch }

  ghost predicate Regular(pattern: seq<string>) {
    forall p :: p in pattern && Plain(p) ==> !ContainsStars(p)
  }

  /** The path that spells out the plain segments. */
  function Spelled(pattern: seq<string>): seq<string> {
    if pattern == [] then [] else (if Plain(pattern[0]) then [pattern[0]] else []) + Spelled(pattern[1..])
  }

  lemma {:induction false} SpelledIsDenoted(pattern: seq<string>)
    ensures Denotes(Literal, pattern, Spelled(pattern))
  {
    if pattern != [] {
      SpelledIsDenoted(pattern[1..]);
      if Plain(pattern[0]) {
        assert Spelled(pattern)[1..] == Spelled(pattern[1..]);
      } else {
        assert Spelled(pattern) == Spelled(pattern[1..]);
      }
    }
  }

  /** The first segment that is not empty, if it is plain. */
  function FirstPlain(pattern: seq<string>): Option<string> {
    if pattern == [] then None
    else if pattern[0] == "" then FirstPlain(pattern[1..])
    else if pattern[0] == ZeroToManyDirs then None
    else Some(pattern[0])
  }

  /** Without a pending `**`, the next plain segment must match the next segment of the path. */
  lemma {:induction false} NextMustMatch(pattern: seq<string>, path: seq<string>, matched: bool)
    requires FirstPlain(pattern).Some? && path != [] && path[0] != FirstPlain(pattern).value
    ensures !Greedy(Literal, pattern, path, matched, false)
    decreases |pattern|
  {
    if pattern[0] == "" {
      NextMustMatch(pattern[1..], path, matched);
    }
  }

  lemma PendingSkips(pattern: seq<string>, path: seq<string>, k: nat)
    requires k <= |path| && Denotes(Literal, pattern, path[k..])
    ensures Denotes(Literal, Pending(pattern, true), path)
  {
    assert Pending(pattern, true)[1..] == pattern;
    StarsSkip(Literal, Pending(pattern, true), path, k);
  }

  /** `**` and then two plain segments: the matcher commits to the first `p` it sees. */
  lemma CommitsTooEarly(pattern: seq<string>, matched: bool) returns (path: seq<string>)
    requires Regular(pattern) && pattern != [] && Plain(pattern[0]) && FirstPlain(pattern[1..]).Some?
    ensures Denotes(Literal, Pending(pattern, true), path)
    ensures !Greedy(Literal, pattern, path, matched, true)
  {
    var p, q := pattern[0], FirstPlain(pattern[1..]).value;
    path := [p, q + "!"] + Spelled(pattern);
    SpelledIsDenoted(pattern);
    assert path[2..] == Spelled(pattern);
    PendingSkips(pattern, path, 2);
    assert path[1..][0] == q + "!" != q;
    assert Seek(Literal, p, path) == Some(Found(path[1..], true));
    NextMustMatch(pattern[1..], path[1..], true);
  }

  /** `**`, an empty segment and then a plain one: the matcher has forgotten the `**`. */
  lemma ForgetsStars(pattern: seq<string>, matched: bool) returns (path: seq<string>)
    requires FirstPlain(pattern).Some?
    ensures Denotes(Literal, Pending(pattern, true), path)
    ensures !Greedy(Literal, pattern, path, matched, false)
  {
    var q := FirstPlain(pattern).value;
    path := [q + "!"] + Spelled(pattern);
    SpelledIsDenoted(pattern);
    assert path[1..] == Spelled(pattern);
    PendingSkips(pattern, path, 1);
    NextMustMatch(pattern, path, matched);
  }

  lemma EmptyAfterPending(pattern: seq<string>, path: seq<string>, pend: bool)
    requires pattern != [] && pattern[0] == "" && Denotes(Literal, Pending(pattern[1..], pend), path)
    ensures Denotes(Literal, Pending(pattern, pend), path)
  {
    if pend {
      assert Pending(pattern[1..], true)[1..] == pattern[1..];
      var k := StarsUnskip(Literal, Pending(pattern[1..], true), path);
      PendingSkips(pattern, path, k);
    }
  }

  /** `pend` says that a `**` precedes with at most empty segments between; the matcher knows of it only if
      it is `live`. */
  lemma {:induction false} UnspacedFails(pattern: seq<string>, after: bool, pend: bool, live: bool, matched: bool)
    returns (path: seq<string>)
    requires Regular(pattern) && !Spaced(pattern, after, live) && (live ==> pend) && (pend ==> after)
    requires after && !pend ==> FirstPlain(pattern).None?
    ensures Denotes(Literal, Pending(pattern, pend), path)
    ensures !Greedy(Literal, pattern, path, matched, live)
    decreases |pattern|
  {
    var p, rest := pattern[0], pattern[1..];
    assert p in pattern;
    if p == "" {
      path := UnspacedFails(rest, after, pend, false, matched);
      EmptyAfterPending(pattern, path, pend);
      return;
    }
    if p == ZeroToManyDirs {
      path := UnspacedFails(rest, true, true, true, matched);
      assert Pending(rest, true) == pattern;
    } else if pend && !live {
      path := ForgetsStars(pattern, matched);
      return;
    } else if live && FirstPlain(rest).Some? {
      path := CommitsTooEarly(pattern, matched);
      return;
    } else {
      var tail := UnspacedFails(rest, after, false, false, true);
      path := [p] + tail;
      assert path[1..] == tail;
      assert Seek(Literal, p, path) == Some(Found(tail, true));
    }
    if pend {
      assert path[0..] == path;
      PendingSkips(pattern, path, 0);
    }
  }

  lemma {:induction false} NoPlainSpelled(pattern: seq<string>)
    requires !HasPlain(pattern)
    ensures Spelled(pattern) == []
  {
    if pattern != [] {
      assert pattern[0] in pattern;
      assert forall p :: p in pattern[1..] ==> p in pattern;
      NoPlainSpelled(pattern[1..]);
    }
  }

  /** A segment with `**` inside makes the matcher reject everything. */
  lemma {:induction false} InnerStarsReject(pattern: seq<string>, path: seq<string>, matched: bool, canTraverse: bool)
    requires !Regular(pattern)
    ensures !Greedy(Literal, pattern, path, matched, canTraverse)
    decreases |pattern|
  {
    var p, rest := pattern[0], pattern[1..];
    if !(Plain(p) && ContainsStars(p)) {
      var q :| q in pattern && Plain(q) && ContainsStars(q);
      assert q in rest;
      InnerStarsReject(rest, path, matched, false);
      InnerStarsReject(rest, path, matched, true);
      if path != [] {
        InnerStarsReject(rest, path[1..], true, false);
        if Seek(Literal, p, path).Some? {
          var found := Seek(Literal, p, path).value;
          InnerStarsReject(rest, found.rest, found.matched, false);
        }
      }
    }
  }

  /** For literal segments: the matcher is right about every path if and only if the pattern has a plain
      segment, no `**` inside a segment, and every plain segment after the first `**` comes directly after a `**`. */
  lemma SpacingIsExact(pattern: seq<string>)
    ensures Sensible(pattern) <==>
      forall path :: Greedy(Literal, pattern, path, false, false) <==> DenotesPrefix(Literal, pattern, path)
  {
    if Sensible(pattern) {
      forall path
        ensures Greedy(Literal, pattern, path, false, false) <==> DenotesPrefix(Literal, pattern, path)
      {
        PathMatchExact(Literal, pattern, path);
      }
    } else {
      var path;
      if !Regular(pattern) {
        path := Spelled(pattern);
        SpelledIsDenoted(pattern);
        InnerStarsReject(pattern, path, false, false);
      } else if HasPlain(pattern) {
        path := UnspacedFails(pattern, false, false, false, false);
      } else {
        path := Spelled(pattern);
        NoPlainSpelled(pattern);
        SpelledIsDenoted(pattern);
        ExhaustedRejects(Literal, pattern, false);
      }
      assert path[..|path|] == path;
      assert DenotesPrefix(Literal, pattern, path);
      assert !Greedy(Literal, pattern, path, false, false);
    }
  }

  // Prefixes and whole paths.

  lemma {:induction false} SeekLonger(glob: Glob, p: string, path: seq<string>, more: seq<string>)
    requires Seek(glob, p, path).Some? && Seek(glob, p, path).value.matched
    ensures Seek(glob, p, path + more) == Some(Found(Seek(glob, p, path).value.rest + more, true))
  {
    assert (path + more)[1..] == path[1..] + more;
    if glob(p, path[0]) != Match {
      SeekLonger(glob, p, path[1..], more);
    }
  }

  /** Whatever directory a pattern accepts, it accepts every path inside it. */
  lemma {:induction false} AcceptsInside(
    glob: Glob, pattern: seq<string>, path: seq<string>, more: seq<string>, matched: bool, canTraverse: bool)
    requires Greedy(glob, pattern, path, matched, canTraverse)
    ensures Greedy(glob, pattern, path + more, matched, canTraverse)
    decreases |pattern|
  {
    if pattern != [] {
      var p, rest := pattern[0], pattern[1..];
      if p == "" {
        AcceptsInside(glob, rest, path, more, matched, false);
      } else if p == ZeroToManyDirs {
        if |pattern| > 1 {
          AcceptsInside(glob, rest, path, more, matched, true);
        }
      } else if canTraverse {
        var found := Seek(glob, p, path).value;
        if found.matched {
          SeekLonger(glob, p, path, more);
          AcceptsInside(glob, rest, found.rest, more, true, false);
        } else {
          SeekExhausts(glob, p, path);
          ExhaustedRejects(glob, rest, false);
        }
      } else {
        assert (path + more)[1..] == path[1..] + more;
        AcceptsInside(glob, rest, path[1..], more, true, false);
      }
    }
  }

  /** The last segment that is not empty is `**`. */
  ghost predicate EndsInStars(pattern: seq<string>) {
    pattern != [] && if pattern[|pattern| - 1] == "" then EndsInStars(pattern[..|pattern| - 1])
                     else pattern[|pattern| - 1] == ZeroToManyDirs
  }

  lemma {:induction false} StarsAbsorb(glob: Glob, pattern: seq<string>, path: seq<string>, more: seq<string>)
    requires EndsInStars(pattern) && Denotes(glob, pattern, path)
    ensures Denotes(glob, pattern, path + more)
    decreases |pattern|, |path|
  {
    var rest := pattern[1..];
    EndsRest(pattern);
    if pattern[0] == "" {
      StarsAbsorb(glob, rest, path, more);
    } else if pattern[0] == ZeroToManyDirs {
      var k := StarsUnskip(glob, pattern, path);
      if EndsInStars(rest) {
        StarsAbsorb(glob, rest, path[k..], more);
        assert (path + more)[k..] == path[k..] + more;
        StarsSkip(glob, pattern, path + more, k);
      } else {
        OnlyEmptyDenotesNothing(glob, rest, path[k..]);
        assert (path + more)[|path + more|..] == path[k..];
        StarsSkip(glob, pattern, path + more, |path + more|);
      }
    } else {
      StarsAbsorb(glob, rest, path[1..], more);
      assert (path + more)[1..] == path[1..] + more;
    }
  }

  ghost predicate OnlyEmpty(pattern: seq<string>) { forall p :: p in pattern ==> p == "" }

  lemma {:induction false} EndsRest(pattern: seq<string>)
    requires EndsInStars(pattern)
    ensures EndsInStars(pattern[1..]) || (pattern[0] == ZeroToManyDirs && OnlyEmpty(pattern[1..]))
  {
    var front := pattern[..|pattern| - 1];
    if pattern[|pattern| - 1] == "" {
      EndsRest(front);
      assert pattern[1..][..|pattern| - 2] == front[1..];
      assert pattern[1..] == front[1..] + [""];
    }
  }

  lemma {:induction false} OnlyEmptyDenotesNothing(glob: Glob, pattern: seq<string>, path: seq<string>)
    requires OnlyEmpty(pattern) && Denotes(glob, pattern, path)
    ensures path == []
    decreases |pattern|
  {
    if pattern != [] {
      assert pattern[0] in pattern;
      assert forall p :: p in pattern[1..] ==> p in pattern;
      OnlyEmptyDenotesNothing(glob, pattern[1..], path);
    }
  }

  lemma {:induction false} PlainNeedsSegment(pattern: seq<string>)
    requires HasPlain(pattern)
    ensures !Denotes(Literal, pattern, [])
    decreases |pattern|
  {
    if !Plain(pattern[0]) {
      HasPlainRest(pattern);
      PlainNeedsSegment(pattern[1..]);
    }
  }

  lemma {:induction false} StarsAtEnd(pattern: seq<string>)
    requires pattern != [] && pattern[0] == ZeroToManyDirs && !HasPlain(pattern)
    ensures EndsInStars(pattern)
  {
    var front := pattern[..|pattern| - 1];
    assert pattern[|pattern| - 1] in pattern;
    if pattern[|pattern| - 1] == "" {
      assert forall p :: p in front ==> p in pattern;
      StarsAtEnd(front);
    }
  }

  /** Nothing that a pattern not ending in `**` denotes ends in `odd`, if no plain segment is `odd`. */
  lemma {:induction false} EndsInPlain(pattern: seq<string>, path: seq<string>, odd: string)
    requires !EndsInStars(pattern) && odd !in pattern && path != [] && path[|path| - 1] == odd
    ensures !Denotes(Literal, pattern, path)
    decreases |pattern|, |path|
  {
    if pattern != [] {
      var rest := pattern[1..];
      assert pattern[0] in pattern;
      if EndsInStars(rest) {
        EndsWhole(pattern);
      }
      if pattern[0] == "" {
        EndsInPlain(rest, path, odd);
      } else if pattern[0] == ZeroToManyDirs {
        EndsInPlain(rest, path, odd);
        if |path| > 1 {
          EndsInPlain(pattern, path[1..], odd);
        } else {
          if !HasPlain(pattern) {
            StarsAtEnd(pattern);
          }
          PlainNeedsSegment(pattern);
        }
      } else if |path| > 1 {
        EndsInPlain(rest, path[1..], odd);
      }
    }
  }

  lemma {:induction false} EndsWhole(pattern: seq<string>)
    requires pattern != [] && EndsInStars(pattern[1..])
    ensures EndsInStars(pattern)
  {
    var front := pattern[..|pattern| - 1];
    assert pattern[1..][|pattern| - 2] == pattern[|pattern| - 1];
    if pattern[|pattern| - 1] == "" {
      assert pattern[1..][..|pattern| - 2] == front[1..];
      EndsWhole(front);
    }
  }

  /** For patterns ending in `**`, and any globs, a prefix matches exactly when the whole path does. */
  lemma StarsMatchWhole(glob: Glob, pattern: seq<string>, path: seq<string>)
    requires EndsInStars(pattern)
    ensures DenotesPrefix(glob, pattern, path) <==> Denotes(glob, pattern, path)
  {
    assert path[..|path|] == path;
    if DenotesPrefix(glob, pattern, path) {
      var n :| 0 <= n <= |path| && Denotes(glob, pattern, path[..n]);
      StarsAbsorb(glob, pattern, path[..n], path[n..]);
      assert path[..n] + path[n..] == path;
    }
  }

  function TotalLength(pattern: seq<string>): nat {
    if pattern == [] then 0 else |pattern[0]| + TotalLength(pattern[1..])
  }

  lemma {:induction false} NoLongerThanTotal(pattern: seq<string>, p: string)
    requires p in pattern
    ensures |p| <= TotalLength(pattern)
  {
    if p != pattern[0] {
      NoLongerThanTotal(pattern[1..], p);
    }
  }

  /** For literal segments only for those: every other pattern accepts a prefix of a path that it does not
      match as a whole. */
  lemma PrefixIsWholeExactly(pattern: seq<string>)
    ensures EndsInStars(pattern) <==>
      forall path :: DenotesPrefix(Literal, pattern, path) <==> Denotes(Literal, pattern, path)
  {
    if EndsInStars(pattern) {
      forall path
        ensures DenotesPrefix(Literal, pattern, path) <==> Denotes(Literal, pattern, path)
      {
        StarsMatchWhole(Literal, pattern, path);
      }
    } else {
      var odd := seq(TotalLength(pattern) + 1, _ => 'x');
      if odd in pattern {
        NoLongerThanTotal(pattern, odd);
      }
      var path := Spelled(pattern) + [odd];
      SpelledIsDenoted(pattern);
      assert path[..|Spelled(pattern)|] == Spelled(pattern);
      assert DenotesPrefix(Literal, pattern, path);
      EndsInPlain(pattern, path, odd);
    }
  }

  // Patterns.

  datatype Pattern = Pattern(segments: seq<string>, isPath: bool)

  function TrimRight(s: string): string {
    if s != [] && s[|s| - 1] == ' ' then TrimRight(s[..|s| - 1]) else s
  }

  /** Negative and directory patterns are refused. */
  function ParsePattern(p: string): (r: Option<Pattern>) {
    if p != [] && p[0] == '!' then None
    else
      var q := if HasSuffix(p, "\\ ") then p else TrimRight(p);
      if HasSuffix(q, "/") then None
      else Some(Pattern(Split(q, '/'), '/' in q))
  }

  /** The text without the spaces at its end, which count only after a backslash. */
  ghost predicate Trimmed(text: string, q: string) {
    if HasSuffix(text, "\\ ") then q == text
    else
      && |q| <= |text| && text[..|q|] == q && (forall i :: |q| <= i < |text| ==> text[i] == ' ')
      && (q != "" ==> q[|q| - 1] != ' ')
  }

  lemma {:induction false} TrimRightMeans(s: string)
    ensures var q := TrimRight(s);
      && |q| <= |s| && s[..|q|] == q && (forall i :: |q| <= i < |s| ==> s[i] == ' ') && (q != "" ==> q[|q| - 1] != ' ')
  {
    if s != [] && s[|s| - 1] == ' ' {
      TrimRightMeans(s[..|s| - 1]);
    }
  }

  /** A text is refused exactly if it starts with an exclamation mark or ends, without the spaces at its end, in
      a slash; otherwise its segments, joined by slashes, are that text. */
  lemma ParsePatternExactly(text: string) returns (q: string)
    ensures Trimmed(text, q)
    ensures ParsePattern(text).None? <==> (text != "" && text[0] == '!') || (q != "" && q[|q| - 1] == '/')
    ensures ParsePattern(text).Some? ==>
      var p := ParsePattern(text).value; Join(p.segments, '/') == q && Free(p.segments, '/') && (p.isPath <==> '/' in q)
  {
    TrimRightMeans(text);
    q := if HasSuffix(text, "\\ ") then text else TrimRight(text);
    JoinSplit(q, '/');
  }

  function NameMatch(glob: Glob, p: string, path: seq<string>): bool {
    path != [] && match glob(p, path[0])
                  case BadPattern => false
                  case Match => true
                  case NoMatch => NameMatch(glob, p, path[1..])
  }

  function MatchPattern(glob: Glob, p: Pattern, path: string): bool
    requires p.segments != []
  {
    if p.isPath then Greedy(glob, p.segments, Split(path, '/'), false, false)
    else NameMatch(glob, p.segments[0], Split(path, '/'))
  }

  lemma {:induction false} NameMatchExact(glob: Glob, p: string, path: seq<string>)
    requires forall e :: glob(p, e) != BadPattern
    ensures NameMatch(glob, p, path) <==> exists e :: e in path && glob(p, e) == Match
  {
    if path != [] {
      NameMatchExact(glob, p, path[1..]);
      assert path == [path[0]] + path[1..];
    }
  }

  lemma SplitIsPath(q: string)
    ensures '/' in q <==> |Split(q, '/')| > 1
  {
    JoinSplit(q, '/');
    CutCorrect(q, '/');
  }

  /** A parsed pattern is one segment exactly when it matches names; a one-segment pattern matches any
      segment of the path, a longer one a prefix of it. */
  lemma ParsedPatternMeaning(glob: Glob, text: string, path: string)
    requires ParsePattern(text).Some? && WellFormed(glob, ParsePattern(text).value.segments)
    ensures var p := ParsePattern(text).value;
      && p.segments != [] && (p.isPath <==> |p.segments| > 1)
      && (p.isPath && Sensible(p.segments) ==>
            (MatchPattern(glob, p, path) <==> DenotesPrefix(glob, p.segments, Split(path, '/'))))
      && (!p.isPath && Plain(p.segments[0]) ==>
            (MatchPattern(glob, p, path) <==> exists e :: e in Split(path, '/') && glob(p.segments[0], e) == Match))
  {
    var p := ParsePattern(text).value;
    SplitIsPath(if HasSuffix(text, "\\ ") then text else TrimRight(text));
    if p.isPath && Sensible(p.segments) {
      PathMatchExact(glob, p.segments, Split(path, '/'));
    }
    if !p.isPath && Plain(p.segments[0]) {
      NameMatchExact(glob, p.segments[0], Split(path, '/'));
    }
  }

  /** For instance `a/b` accepts `a/b/c`, which it does not match as a whole. */
  lemma DirectoryExample()
    ensures ParsePattern("a/b") == Some(Pattern(["a", "b"], true)) && Split("a/b/c", '/') == ["a", "b", "c"]
    ensures Greedy(Literal, ["a", "b"], ["a", "b", "c"], false, false) && !Denotes(Literal, ["a", "b"], ["a", "b", "c"])
  {
    SplitsIntoLetters();
    assert "a/b"[2] == 'b' && "a/b"[1] == '/';
    hide Split;
    assert ["a", "b"][1..] == ["b"] && ["b"][1..] == [] && ["a", "b", "c"][1..] == ["b", "c"];
    assert ["b", "c"][1..] == ["c"];
  }

  lemma SplitsIntoLetters()
    ensures Split("a/b", '/') == ["a", "b"] && Split("a/b/c", '/') == ["a", "b", "c"]
  {
    assert ["a", "b"][1..] == ["b"] && ["a", "b", "c"][1..] == ["b", "c"] && ["b", "c"][1..] == ["c"];
    assert Join(["a", "b"], '/') == "a/b" && Join(["a", "b", "c"], '/') == "a/b/c";
    hide Split;
    SplitJoin(["a", "b"], '/');
    SplitJoin(["a", "b", "c"], '/');
  }
}
