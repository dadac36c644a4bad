/** clonerefs/parse.go: the refspec parser against a printer for the documented grammar
    `org,repo=base-ref[:base-sha][,pull-id[:pull-sha[:pull-ref]]]...`. */
module RefSpec {
  import opened Text

  datatype Pull = Pull(number: int, sha: string, ref: string)

  datatype Refs = Refs(org: string, repo: string, baseRef: string, baseSHA: string, pulls: seq<Pull>)

  datatype Error = NoEquals | NoOrgRepo | NoRefs | MalformedBaseRef | MalformedPullRef | NotANumber

  datatype Result<+T> = Ok(value: T) | Err(error: Error)

  // The parser's value on each part of the text.

  function ParsePull(s: string): (r: Result<Pull>) {
    var parts := Split(s, ':');
    if |parts| > 3 then Err(MalformedPullRef)
    else match Atoi(parts[0])
      case None => Err(NotANumber)
      case Some(n) => Ok(Pull(n, if |parts| > 1 then parts[1] else "", if |parts| > 2 then parts[2] else ""))
  }

  /** The pulls in order, or the first error. */
  function ParsePulls(texts: seq<string>): (r: Result<seq<Pull>>) {
    if texts == [] then Ok([])
    else match ParsePulls(texts[..|texts| - 1])
      case Err(e) => Err(e)
      case Ok(pulls) =>
        match ParsePull(texts[|texts| - 1])
        case Err(e) => Err(e)
        case Ok(p) => Ok(pulls + [p])
  }

  function Parse(value: string): (r: Result<Refs>) {
    match Cut(value, '=')
    case None => Err(NoEquals)
    case Some((info, allRefs)) =>
      match Cut(info, ',')
      case None => Err(NoOrgRepo)
      case Some((org, repo)) =>
        if allRefs == "" then Err(NoRefs)
        else
          var refValues := Split(allRefs, ',');
          var base := Split(refValues[0], ':');
          if |base| > 2 then Err(MalformedBaseRef)
          else match ParsePulls(refValues[1..])
            case Err(e) => Err(e)
            case Ok(pulls) => Ok(Refs(org, repo, base[0], if |base| == 2 then base[1] else "", pulls))
  }

  /** The source's control flow: fields filled in sequence, pulls appended in a loop. */
  method ParseRefs(value: string) returns (r: Result<Refs>)
    ensures r == Parse(value)
  {
    var gitRef := Refs("", "", "", "", []);
    var values := Cut(value, '=');
    if values.None? {
      return Err(NoEquals);
    }
    var (info, allRefs) := values.value;
    var infoValues := Cut(info, ',');
    if infoValues.None? {
      return Err(NoOrgRepo);
    }
    gitRef := gitRef.(org := infoValues.value.0, repo := infoValues.value.1);
    var refValues := Split(allRefs, ',');
    JoinSplit(allRefs, ',');
    assert allRefs == "" ==> refValues == [""];
    if |refValues| == 1 && refValues[0] == "" {
      return Err(NoRefs);
    }
    var baseRefParts := Split(refValues[0], ':');
    if |baseRefParts| != 1 && |baseRefParts| != 2 {
      return Err(MalformedBaseRef);
    }
    gitRef := gitRef.(baseRef := baseRefParts[0]);
    if |baseRefParts| == 2 {
      gitRef := gitRef.(baseSHA := baseRefParts[1]);
    }
    ghost var texts := refValues[1..];
    for i := 1 to |refValues|
      invariant ParsePulls(texts[..i - 1]) == Ok(gitRef.pulls)
      invariant gitRef == Refs(infoValues.value.0, infoValues.value.1, baseRefParts[0],
                               if |baseRefParts| == 2 then baseRefParts[1] else "", gitRef.pulls)
    {
      var refValue := refValues[i];
      assert texts[..i][..i - 1] == texts[..i - 1] && texts[..i][i - 1] == refValue;
      var refParts := Split(refValue, ':');
      if |refParts| == 0 || |refParts| > 3 {
        ErrorsPersist(texts, i);
        return Err(MalformedPullRef);
      }
      var pullNumber := Atoi(refParts[0]);
      if pullNumber.None? {
        ErrorsPersist(texts, i);
        return Err(NotANumber);
      }
      var pullRef := Pull(pullNumber.value, "", "");
      if |refParts| > 1 {
        pullRef := pullRef.(sha := refParts[1]);
      }
      if |refParts| > 2 {
        pullRef := pullRef.(ref := refParts[2]);
      }
      gitRef := gitRef.(pulls := gitRef.pulls + [pullRef]);
    }
    assert texts[..|refValues| - 1] == texts;
    return Ok(gitRef);
  }

  lemma {:induction false} ErrorsPersist(texts: seq<string>, i: nat)
    requires i <= |texts| && ParsePulls(texts[..i]).Err?
    ensures ParsePulls(texts) == ParsePulls(texts[..i])
    decreases |texts|
  {
    if i == |texts| {
      assert texts[..i] == texts;
    } else {
      var front := texts[..|texts| - 1];
      assert front[..i] == texts[..i];
      ErrorsPersist(front, i);
    }
  }

  // The printer.

  /** An optional part is omitted when it is empty and nothing follows it. */
  function PrintPull(p: Pull): seq<string> {
    if p.ref != "" then [Itoa(p.number), p.sha, p.ref]
    else if p.sha != "" then [Itoa(p.number), p.sha]
    else [Itoa(p.number)]
  }

  function PrintBase(r: Refs): seq<string> {
    if r.baseSHA != "" then [r.baseRef, r.baseSHA] else [r.baseRef]
  }

  function PrintPulls(pulls: seq<Pull>): (texts: seq<string>)
    ensures |texts| == |pulls| && forall i :: 0 <= i < |pulls| ==> texts[i] == Join(PrintPull(pulls[i]), ':')
  {
    seq(|pulls|, i requires 0 <= i < |pulls| => Join(PrintPull(pulls[i]), ':'))
  }

  function Print(r: Refs): string {
    r.org + [','] + r.repo + ['='] + Join([Join(PrintBase(r), ':')] + PrintPulls(r.pulls), ',')
  }

  // When printing loses nothing.

  ghost predicate CleanPart(s: string) { ',' !in s && ':' !in s }

  ghost predicate CleanPull(p: Pull) {
    CleanPart(p.sha) && CleanPart(p.ref) && MinInt <= p.number <= MaxInt
  }

  /** No field contains a separator that would end it early. */
  ghost predicate Clean(r: Refs) {
    && ',' !in r.org && '=' !in r.org && '=' !in r.repo
    && CleanPart(r.baseRef) && CleanPart(r.baseSHA)
    && forall i :: 0 <= i < |r.pulls| ==> CleanPull(r.pulls[i])
  }

  ghost predicate HasRefs(r: Refs) { r.baseRef != "" || r.baseSHA != "" || r.pulls != [] }

  lemma PullRoundTrip(p: Pull)
    requires CleanPull(p)
    ensures ParsePull(Join(PrintPull(p), ':')) == Ok(p)
    ensures ',' !in Join(PrintPull(p), ':')
  {
    ItoaFree(p.number, ':');
    ItoaFree(p.number, ',');
    AtoiItoa(p.number);
    SplitJoin(PrintPull(p), ':');
    JoinFree(PrintPull(p), ':', ',');
  }

  lemma PrintPullsFront(pulls: seq<Pull>)
    requires pulls != []
    ensures var front, texts := pulls[..|pulls| - 1], PrintPulls(pulls);
      PrintPulls(front) == texts[..|texts| - 1] && texts[|texts| - 1] == Join(PrintPull(pulls[|pulls| - 1]), ':')
  {
    hide Join, PrintPull;
  }

  lemma FreeAppend(texts: seq<string>, text: string, c: char)
    requires Free(texts, c) && c !in text
    ensures Free(texts + [text], c)
  {}

  lemma ParsePullsAppend(texts: seq<string>, pulls: seq<Pull>, text: string, pull: Pull)
    requires ParsePulls(texts) == Ok(pulls) && ParsePull(text) == Ok(pull)
    ensures ParsePulls(texts + [text]) == Ok(pulls + [pull])
  {
    assert (texts + [text])[..|texts|] == texts;
    hide ParsePull;
  }

  lemma {:induction false} PullsRoundTrip(pulls: seq<Pull>)
    requires forall i :: 0 <= i < |pulls| ==> CleanPull(pulls[i])
    ensures ParsePulls(PrintPulls(pulls)) == Ok(pulls)
    ensures Free(PrintPulls(pulls), ',')
  {
    if pulls != [] {
      var front, last, texts := pulls[..|pulls| - 1], pulls[|pulls| - 1], PrintPulls(pulls);
      PullsRoundTrip(front);
      PullRoundTrip(last);
      PrintPullsFront(pulls);
      hide ParsePull, ParsePulls, PrintPull, PrintPulls, Join, Free, CleanPull;
      var text := Join(PrintPull(last), ':');
      ParsePullsAppend(PrintPulls(front), front, text, last);
      FreeAppend(PrintPulls(front), text, ',');
      assert pulls == front + [last] && texts == PrintPulls(front) + [text];
    }
  }

  lemma {:induction false} JoinNonempty(parts: seq<string>, sep: char)
    requires parts != []
    ensures Join(parts, sep) == "" <==> parts == [""]
  {
    if |parts| == 1 {
      assert parts == [parts[0]];
    }
  }

  /** Whatever is clean and names at least one ref survives printing and parsing. */
  lemma RoundTrip(r: Refs)
    requires Clean(r) && HasRefs(r)
    ensures Parse(Print(r)) == Ok(r)
  {
    var base, pulls := Join(PrintBase(r), ':'), PrintPulls(r.pulls);
    var refs := [base] + pulls;
    var info := r.org + [','] + r.repo;
    CutJoined(info, '=', Join(refs, ','));
    assert Print(r) == info + ['='] + Join(refs, ',');
    CutJoined(r.org, ',', r.repo);
    PullsRoundTrip(r.pulls);
    JoinFree(PrintBase(r), ':', ',');
    SplitJoin(PrintBase(r), ':');
    assert Free(refs, ',');
    SplitJoin(refs, ',');
    assert refs[1..] == pulls;
    JoinNonempty(refs, ',');
    JoinNonempty(PrintBase(r), ':');
  }

  lemma PulledIsClean(s: string)
    requires ',' !in s && ParsePull(s).Ok?
    ensures CleanPull(ParsePull(s).value)
  {
    var parts := Split(s, ':');
    JoinSplit(s, ':');
    PartsOf(s, ':', ',');
  }

  /** A part of a split text has no characters the text does not have. */
  lemma {:induction false} PartsOf(s: string, sep: char, c: char)
    requires c !in s
    ensures Free(Split(s, sep), c)
    decreases |s|
  {
    CutCorrect(s, sep);
    if Cut(s, sep).Some? {
      PartsOf(Cut(s, sep).value.1, sep, c);
    }
  }

  lemma {:induction false} PullsAreClean(texts: seq<string>)
    requires Free(texts, ',') && ParsePulls(texts).Ok?
    ensures forall i :: 0 <= i < |ParsePulls(texts).value| ==> CleanPull(ParsePulls(texts).value[i])
  {
    if texts != [] {
      PullsAreClean(texts[..|texts| - 1]);
      PulledIsClean(texts[|texts| - 1]);
    }
  }

  /** The parser only produces clean refs. */
  lemma ParsedIsClean(value: string)
    requires Parse(value).Ok?
    ensures Clean(Parse(value).value)
  {
    CutCorrect(value, '=');
    var (info, allRefs) := Cut(value, '=').value;
    CutCorrect(info, ',');
    JoinSplit(allRefs, ',');
    var refValues := Split(allRefs, ',');
    assert refValues[0] in refValues;
    JoinSplit(refValues[0], ':');
    PartsOf(refValues[0], ':', ',');
    var base := Split(refValues[0], ':');
    assert base[0] in base && (|base| == 2 ==> base[1] in base);
    PullsAreClean(refValues[1..]);
  }

  lemma NothingToPrint(r: Refs)
    requires !HasRefs(r)
    ensures Parse(Print(r)) != Ok(r)
  {
    if Clean(r) {
      assert Join([Join(PrintBase(r), ':')] + PrintPulls(r.pulls), ',') == "";
      var info := r.org + [','] + r.repo;
      CutJoined(info, '=', "");
      assert Print(r) == info + ['='] + "";
    } else if Parse(Print(r)).Ok? {
      ParsedIsClean(Print(r));
    }
  }

  /** The text of `r` parses back to `r` exactly when no field contains a conflicting separator, every
      pull number fits in 64 bits, and there is something after the `=`. */
  lemma RoundTripExactly(r: Refs)
    ensures Parse(Print(r)) == Ok(r) <==> Clean(r) && HasRefs(r)
  {
    if Clean(r) && HasRefs(r) {
      RoundTrip(r);
    } else if !HasRefs(r) {
      NothingToPrint(r);
    } else if Parse(Print(r)).Ok? {
      ParsedIsClean(Print(r));
    }
  }

  lemma {:induction false} ParsePullsLength(texts: seq<string>)
    requires ParsePulls(texts).Ok?
    ensures |ParsePulls(texts).value| == |texts|
  {
    if texts != [] {
      ParsePullsLength(texts[..|texts| - 1]);
    }
  }

  lemma ColonAlone()
    ensures Split(":", ',') == [":"] && Split(":", ':') == ["", ""]
  {
    SplitJoin([":"], ',');
    assert ["", ""][1..] == [""] && Join(["", ""], ':') == ":";
    SplitJoin(["", ""], ':');
  }

  /** The one way to name no ref without being refused. */
  lemma NamesNoRef(value: string)
    requires Parse(value).Ok?
    ensures Cut(value, '=').Some? && (HasRefs(Parse(value).value) <==> Cut(value, '=').value.1 != ":")
  {
    var allRefs := Cut(value, '=').value.1;
    var refValues := Split(allRefs, ',');
    var base := Split(refValues[0], ':');
    ColonAlone();
    ParsePullsLength(refValues[1..]);
    JoinSplit(allRefs, ',');
    JoinSplit(refValues[0], ':');
    if |base| == 2 && base[0] == "" && base[1] == "" {
      assert base == ["", ""];
      assert ["", ""][1..] == [""] && Join(["", ""], ':') == ":";
    }
    hide Split, ParsePulls;
  }

  /** What was parsed survives being printed and parsed again, if and only if the text after the `=` was
      not a lone colon. */
  lemma Reparse(value: string)
    requires Parse(value).Ok?
    ensures Cut(value, '=').Some?
    ensures Parse(Print(Parse(value).value)) == Parse(value) <==> Cut(value, '=').value.1 != ":"
  {
    ParsedIsClean(value);
    NamesNoRef(value);
    RoundTripExactly(Parse(value).value);
  }

  /** Such a text is accepted, and its refs print to one that is refused. */
  lemma LoneColonExample()
    ensures Parse("o,r=:") == Ok(Refs("o", "r", "", "", []))
    ensures Print(Refs("o", "r", "", "", [])) == "o,r=" && Parse("o,r=") == Err(NoRefs)
  {
    assert "o" + [','] + "r" == "o,r" && "o,r" + ['='] + ":" == "o,r=:" && "o,r" + ['='] + "" == "o,r=";
    CutJoined("o", ',', "r");
    CutJoined("o,r", '=', ":");
    CutJoined("o,r", '=', "");
    ColonAlone();
    hide Split, Cut;
  }
}
