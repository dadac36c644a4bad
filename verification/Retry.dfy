/** github/client.go, requestRetry: how often, to whom and for how long a request is retried, and who
    closes the response bodies. */
module Retry {
  import opened Text

  const Second: int := 1_000_000_000
  const TwoTo64: int := 0x1_0000_0000_0000_0000

  /** The headers the loop looks at; an absent header is empty. */
  datatype Response = Response(
    status: int, rateLimitRemaining: string, rateLimitReset: string, retryAfter: string, oauthScopes: string)

  /** What one attempt yields: a connection error, or a response with an open body. */
  datatype Reply = ConnError | Got(resp: Response)

  datatype Error = Connection | SleepTooLong | BadHeader | MissingScopes

  datatype Config = Config(maxRetries: nat, max404Retries: int, maxSleepTime: nat, initialDelay: nat, hosts: nat)

  /** Wrap-around of 64-bit durations. */
  function Wrap(x: int): int {
    var r := x % TwoTo64;
    if r <= MaxInt then r else r - TwoTo64
  }

  /** time.Sleep returns at once when the duration is not positive. */
  function Slept(d: int): nat { if d > 0 then d else 0 }

  function Pow2(n: nat): nat { if n == 0 then 1 else 2 * Pow2(n - 1) }

  // What to do with a reply.

  datatype Action =
    | Return               // hand the response to the caller
    | Fail(error: Error)   // close the body and give up
    | RetryAfter(wait: int) // sleep a fixed time, then retry
    | Backoff              // sleep for the backoff time and double it, then retry
    | NextHost             // like Backoff, with the next host

  /** `until(t)` is the time left until Unix time `t`. */
  function Decide(cfg: Config, retries: nat, reply: Reply, until: int -> int): Action {
    match reply
    case ConnError => NextHost
    case Got(resp) =>
      if resp.status == 404 && retries < cfg.max404Retries then Backoff
      else if resp.status == 403 then
        if resp.rateLimitRemaining == "0" then
          match Atoi(resp.rateLimitReset)
          case None => Fail(BadHeader)
          case Some(t) =>
            var sleepTime := Wrap(until(t) + Second);
            if sleepTime < cfg.maxSleepTime then RetryAfter(sleepTime) else Fail(SleepTooLong)
        else if resp.retryAfter != "" && resp.retryAfter != "0" then
          match Atoi(resp.retryAfter)
          case None => Fail(BadHeader)
          case Some(t) =>
            var sleepTime := Wrap(Wrap(t + 1) * Second);
            if sleepTime < cfg.maxSleepTime then RetryAfter(sleepTime) else Fail(SleepTooLong)
        else if resp.oauthScopes != "" then Fail(MissingScopes)
        else RetryAfter(0)
      else if resp.status < 500 then Return
      else Backoff
  }

  // The observable trace.

  /** Host asked, by attempt. */
  ghost function HostOf(hosts: nat, replies: nat -> Reply, i: nat): nat
    requires hosts > 0
  {
    ConnErrors(replies, i) % hosts
  }

  function NextHostIndex(hostIndex: nat, hosts: nat): nat
    requires hosts > 0
  {
    (hostIndex + 1) % hosts
  }

  function ConnErrors(replies: nat -> Reply, i: nat): nat {
    if i == 0 then 0 else ConnErrors(replies, i - 1) + if replies(i - 1).ConnError? then 1 else 0
  }

  /** The attempts before `n` whose bodies were opened. */
  ghost function Opened(replies: nat -> Reply, n: nat): set<nat> {
    set i | 0 <= i < n && replies(i).Got?
  }

  datatype Outcome = Outcome(resp: Option<nat>, err: Option<Error>)

  // Arithmetic.

  lemma QuotientUnique(h: nat, q: nat, r: nat, q': nat, r': nat)
    requires q * h + r == q' * h + r' && r < h && r' < h
    ensures r == r'
  {
    if q < q' {
      MulGrows(q + 1, q', h);
    } else if q' < q {
      MulGrows(q' + 1, q, h);
    }
  }

  lemma ModIs(x: nat, h: nat, q: nat, r: nat)
    requires h > 0 && x == q * h + r && r < h
    ensures x % h == r
  {
    QuotientUnique(h, q, r, x / h, x % h);
  }

  lemma ModSucc(a: nat, h: nat)
    requires h > 0
    ensures (a % h + 1) % h == (a + 1) % h
  {
    var q, r := a / h, a % h;
    if r + 1 < h {
      ModIs(a + 1, h, q, r + 1);
      ModIs(r + 1, h, 0, r + 1);
    } else {
      ModIs(a + 1, h, q + 1, 0);
      ModIs(r + 1, h, 1, 0);
    }
  }

  lemma {:induction false} Pow2Grows(m: nat, n: nat)
    requires m <= n
    ensures 1 <= Pow2(m) <= Pow2(n)
    decreases n
  {
    if m < n {
      Pow2Grows(m, n - 1);
    } else if m > 0 {
      Pow2Grows(m - 1, n - 1);
    }
  }

  lemma MulGrows(a: nat, b: nat, c: nat)
    requires a <= b
    ensures a * c <= b * c
  {}

  // What should happen, by attempt.

  /** What attempt `i` calls for. */
  ghost function DecisionAt(cfg: Config, replies: nat -> Reply, until: int -> int, i: nat): Action {
    Decide(cfg, i, replies(i), until)
  }

  predicate Final(action: Action) { action.Return? || action.Fail? }

  predicate Doubles(action: Action) { action.Backoff? || action.NextHost? }

  ghost function Doublings(cfg: Config, replies: nat -> Reply, until: int -> int, i: nat): nat {
    if i == 0 then 0
    else Doublings(cfg, replies, until, i - 1) + if Doubles(DecisionAt(cfg, replies, until, i - 1)) then 1 else 0
  }

  /** The backoff time after `n` doublings, exactly and as a 64-bit duration. */
  function Delay(cfg: Config, n: nat): nat { Pow2(n) * cfg.initialDelay }

  function BackoffAfter(cfg: Config, n: nat): int { Wrap(Delay(cfg, n)) }

  /** The time slept after attempt `i`. */
  ghost function SleepAt(cfg: Config, replies: nat -> Reply, until: int -> int, i: nat): nat {
    match DecisionAt(cfg, replies, until, i)
    case RetryAfter(wait) => Slept(wait)
    case Backoff => Slept(BackoffAfter(cfg, Doublings(cfg, replies, until, i)))
    case NextHost => Slept(BackoffAfter(cfg, Doublings(cfg, replies, until, i)))
    case _ => 0
  }

  ghost function TotalSleep(cfg: Config, replies: nat -> Reply, until: int -> int, n: nat): nat {
    if n == 0 then 0 else TotalSleep(cfg, replies, until, n - 1) + SleepAt(cfg, replies, until, n - 1)
  }

  /** The outcome of `n` attempts, by the last one. A response is named by its attempt. */
  ghost function OutcomeAfter(cfg: Config, replies: nat -> Reply, until: int -> int, n: nat): Outcome {
    if n == 0 then Outcome(None, None)
    else if replies(n - 1).ConnError? then Outcome(None, Some(Connection))
    else
      var action := DecisionAt(cfg, replies, until, n - 1);
      Outcome(Some(n - 1), if action.Fail? then Some(action.error) else None)
  }

  // The same in terms of the replies alone.

  /** How long a forbidden reply asks to wait: the header that says so, if there is one. */
  function WaitHeader(r: Response): Option<string> {
    if r.rateLimitRemaining == "0" then Some(r.rateLimitReset)
    else if r.retryAfter != "" && r.retryAfter != "0" then Some(r.retryAfter)
    else None
  }

  /** A second more than until the reset, or than the seconds asked for; None if the header is unreadable. */
  function WaitTime(r: Response, until: int -> int): Option<int>
    requires WaitHeader(r).Some?
  {
    var t := Atoi(WaitHeader(r).value);
    if t.None? then None
    else if r.rateLimitRemaining == "0" then Some(Wrap(until(t.value) + Second))
    else Some(Wrap(Wrap(t.value + 1) * Second))
  }

  /** A connection error, a server error, or a page not found at an early attempt. */
  predicate Trouble(cfg: Config, i: nat, reply: Reply) {
    reply.ConnError? || reply.resp.status >= 500 || (reply.resp.status == 404 && i < cfg.max404Retries)
  }

  /** Forbidden, but only for a while that is short enough, or for no stated reason. */
  predicate ForbiddenForNow(cfg: Config, reply: Reply, until: int -> int) {
    && reply.Got? && reply.resp.status == 403
    && if WaitHeader(reply.resp).Some?
       then WaitTime(reply.resp, until).Some? && WaitTime(reply.resp, until).value < cfg.maxSleepTime
       else reply.resp.oauthScopes == ""
  }

  predicate TryAgain(cfg: Config, i: nat, reply: Reply, until: int -> int) {
    Trouble(cfg, i, reply) || ForbiddenForNow(cfg, reply, until)
  }

  /** Forbidden for good, and why. */
  predicate FailsWith(cfg: Config, reply: Reply, until: int -> int, e: Error) {
    && reply.Got? && reply.resp.status == 403
    && match e
       case Connection => false
       case BadHeader => WaitHeader(reply.resp).Some? && WaitTime(reply.resp, until).None?
       case SleepTooLong =>
         WaitHeader(reply.resp).Some? && WaitTime(reply.resp, until).Some?
         && WaitTime(reply.resp, until).value >= cfg.maxSleepTime
       case MissingScopes => WaitHeader(reply.resp).None? && reply.resp.oauthScopes != ""
  }

  /** What each reply calls for. */
  lemma DecideMeans(cfg: Config, i: nat, reply: Reply, until: int -> int)
    ensures var action := Decide(cfg, i, reply, until);
      && (Final(action) <==> !TryAgain(cfg, i, reply, until))
      && (Doubles(action) <==> Trouble(cfg, i, reply)) && (action.NextHost? <==> reply.ConnError?)
      && (forall e :: action == Fail(e) <==> FailsWith(cfg, reply, until, e))
      && (forall wait :: action == RetryAfter(wait) <==>
            && ForbiddenForNow(cfg, reply, until)
            && wait == if WaitHeader(reply.resp).Some? then WaitTime(reply.resp, until).value else 0)
  {
    hide Wrap, Atoi;
  }

  /** How many of the first `i` replies were trouble. */
  ghost function Troubles(cfg: Config, replies: nat -> Reply, i: nat): nat {
    if i == 0 then 0 else Troubles(cfg, replies, i - 1) + if Trouble(cfg, i - 1, replies(i - 1)) then 1 else 0
  }

  lemma {:induction false} DoublingsMean(cfg: Config, replies: nat -> Reply, until: int -> int, i: nat)
    ensures Doublings(cfg, replies, until, i) == Troubles(cfg, replies, i)
    decreases i
  {
    if i > 0 {
      DoublingsMean(cfg, replies, until, i - 1);
      DecideMeans(cfg, i - 1, replies(i - 1), until);
      hide Decide, Trouble;
    }
  }

  /** After trouble the loop sleeps for the initial delay, doubled once for each trouble before; after being
      forbidden for a while, for that while; otherwise not at all. */
  lemma SleepMeans(cfg: Config, replies: nat -> Reply, until: int -> int, i: nat)
    ensures var wait :=
        if Trouble(cfg, i, replies(i)) then Wrap(Pow2(Troubles(cfg, replies, i)) * cfg.initialDelay)
        else if ForbiddenForNow(cfg, replies(i), until) && WaitHeader(replies(i).resp).Some?
        then WaitTime(replies(i).resp, until).value
        else 0;
      SleepAt(cfg, replies, until, i) == if wait > 0 then wait else 0
  {
    DecideMeans(cfg, i, replies(i), until);
    DoublingsMean(cfg, replies, until, i);
    hide Decide, Wrap, Trouble, ForbiddenForNow, FailsWith, WaitTime, WaitHeader, Pow2, Doublings, Troubles;
  }

  /** What `n` attempts come to: all replies but the last are tried again; the last is not, unless there are no
      attempts left; and it decides what is returned. */
  ghost predicate Explained(cfg: Config, replies: nat -> Reply, until: int -> int, n: nat, out: Outcome) {
    && (forall i :: 0 <= i < n - 1 ==> TryAgain(cfg, i, replies(i), until))
    && (n < cfg.maxRetries ==> n > 0 && !TryAgain(cfg, n - 1, replies(n - 1), until))
    && out.resp == (if n > 0 && replies(n - 1).Got? then Some(n - 1) else None)
    && (out.err == Some(Connection) <==> n > 0 && replies(n - 1).ConnError?)
    && (forall e :: e != Connection ==> (out.err == Some(e) <==> n > 0 && FailsWith(cfg, replies(n - 1), until, e)))
  }

  lemma OutcomeExplained(cfg: Config, replies: nat -> Reply, until: int -> int, n: nat)
    requires StopsAt(cfg, replies, until, n)
    ensures Explained(cfg, replies, until, n, OutcomeAfter(cfg, replies, until, n))
  {
    forall i | 0 <= i < n
      ensures Final(DecisionAt(cfg, replies, until, i)) <==> !TryAgain(cfg, i, replies(i), until)
      ensures forall e :: DecisionAt(cfg, replies, until, i) == Fail(e) <==> FailsWith(cfg, replies(i), until, e)
    {
      DecideMeans(cfg, i, replies(i), until);
    }
    hide Decide, TryAgain, FailsWith;
    if n > 0 {
      DecideMeans(cfg, n - 1, replies(n - 1), until);
      NoConnectionFailure(cfg, replies(n - 1), until);
    }
  }

  lemma NoConnectionFailure(cfg: Config, reply: Reply, until: int -> int)
    ensures !FailsWith(cfg, reply, until, Connection)
    ensures reply.ConnError? ==> forall e :: !FailsWith(cfg, reply, until, e)
  {}

  /** Wrap-around keeps a value modulo two to the 64, and within 64 bits. */
  lemma WrapMeans(x: int)
    ensures MinInt <= Wrap(x) <= MaxInt && (Wrap(x) - x) % TwoTo64 == 0
    ensures MinInt <= x <= MaxInt ==> Wrap(x) == x
  {
    var q := (x - Wrap(x)) / TwoTo64;
    assert x - Wrap(x) == q * TwoTo64;
  }

  lemma WrapDoubles(x: nat)
    ensures Wrap(2 * Wrap(x)) == Wrap(2 * x)
    ensures Slept(Wrap(x)) <= x
  {
    var q := (x - Wrap(x)) / TwoTo64;
    assert x - Wrap(x) == q * TwoTo64;
    assert 2 * x == 2 * Wrap(x) + (2 * q) * TwoTo64;
  }

  lemma DelayDoubles(cfg: Config, n: nat)
    ensures Delay(cfg, n + 1) == 2 * Delay(cfg, n)
  {}

  lemma BackoffDoubles(cfg: Config, n: nat)
    ensures Wrap(2 * BackoffAfter(cfg, n)) == BackoffAfter(cfg, n + 1)
    ensures Slept(BackoffAfter(cfg, n)) <= Delay(cfg, n)
  {
    WrapDoubles(Delay(cfg, n));
    DelayDoubles(cfg, n);
  }

  lemma OneSleep(cfg: Config, replies: nat -> Reply, until: int -> int, i: nat)
    ensures SleepAt(cfg, replies, until, i) <=
      if Doubles(DecisionAt(cfg, replies, until, i)) then Delay(cfg, Doublings(cfg, replies, until, i))
      else cfg.maxSleepTime
  {
    DecideFacts(cfg, i, replies(i), until);
    BackoffDoubles(cfg, Doublings(cfg, replies, until, i));
    hide Decide, BackoffAfter, Slept, Delay, Doublings;
  }

  /** Each doubling pays for the sleep before it; every other sleep is within the maximum. */
  lemma {:induction false} SleepsAdd(cfg: Config, replies: nat -> Reply, until: int -> int, n: nat)
    ensures var d := Doublings(cfg, replies, until, n);
      d <= n && TotalSleep(cfg, replies, until, n) <= Delay(cfg, d) - cfg.initialDelay + n * cfg.maxSleepTime
    decreases n
  {
    if n > 0 {
      hide Delay, SleepAt, DecisionAt;
      SleepsAdd(cfg, replies, until, n - 1);
      OneSleep(cfg, replies, until, n - 1);
      DelayDoubles(cfg, Doublings(cfg, replies, until, n - 1));
      assert n * cfg.maxSleepTime == (n - 1) * cfg.maxSleepTime + cfg.maxSleepTime;
    }
  }

  ghost function SleepBound(cfg: Config): int {
    (Pow2(cfg.maxRetries) - 1) * cfg.initialDelay + cfg.maxRetries * cfg.maxSleepTime
  }

  /** All the sleeps together fit in the bound, wrap-around included. */
  lemma SleptEnough(cfg: Config, replies: nat -> Reply, until: int -> int, n: nat)
    requires n <= cfg.maxRetries
    ensures TotalSleep(cfg, replies, until, n) <= SleepBound(cfg)
  {
    var d := Doublings(cfg, replies, until, n);
    SleepsAdd(cfg, replies, until, n);
    hide Doublings, TotalSleep, Pow2;
    Pow2Grows(d, cfg.maxRetries);
    MulGrows(Pow2(d), Pow2(cfg.maxRetries), cfg.initialDelay);
    MulGrows(n, cfg.maxRetries, cfg.maxSleepTime);
    assert (Pow2(cfg.maxRetries) - 1) * cfg.initialDelay == Pow2(cfg.maxRetries) * cfg.initialDelay - cfg.initialDelay;
  }

  // The loop.

  lemma DecideFacts(cfg: Config, retries: nat, reply: Reply, until: int -> int)
    ensures var action := Decide(cfg, retries, reply, until);
      && (action.NextHost? <==> reply.ConnError?)
      && (action.RetryAfter? ==> Slept(action.wait) <= cfg.maxSleepTime)
  {}

  /** Closed: each opened body once, and `kept` not at all. */
  ghost predicate Closed(replies: nat -> Reply, n: nat, closed: seq<nat>, kept: Option<nat>) {
    multiset(closed) == multiset(Opened(replies, n) - if kept.Some? then {kept.value} else {})
  }

  lemma CloseKept(replies: nat -> Reply, n: nat, closed: seq<nat>, kept: nat)
    requires Closed(replies, n, closed, Some(kept)) && kept < n && replies(kept).Got?
    ensures Closed(replies, n, closed + [kept], None)
  {
    var bodies := Opened(replies, n);
    assert bodies == (bodies - {kept}) + {kept};
    assert multiset(bodies) == multiset(bodies - {kept}) + multiset{kept};
    assert bodies - {} == bodies;
  }

  lemma OpenNext(replies: nat -> Reply, n: nat, closed: seq<nat>)
    requires Closed(replies, n, closed, None)
    ensures Closed(replies, n + 1, closed, if replies(n).Got? then Some(n) else None)
  {
    var kept: set<nat> := if replies(n).Got? then {n} else {};
    assert Opened(replies, n) - {} == Opened(replies, n + 1) - kept;
  }

  /** Where the loop is after `n` attempts. */
  ghost predicate Progress(cfg: Config, replies: nat -> Reply, until: int -> int, n: nat, hostIndex: nat,
                           backoff: int, slept: nat)
    requires cfg.hosts > 0
  {
    && hostIndex == HostOf(cfg.hosts, replies, n)
    && backoff == BackoffAfter(cfg, Doublings(cfg, replies, until, n))
    && slept == TotalSleep(cfg, replies, until, n)
  }

  lemma CountersNext(cfg: Config, replies: nat -> Reply, until: int -> int, n: nat)
    ensures var action := DecisionAt(cfg, replies, until, n);
      && Doublings(cfg, replies, until, n + 1) == Doublings(cfg, replies, until, n) + (if Doubles(action) then 1 else 0)
      && TotalSleep(cfg, replies, until, n + 1) == TotalSleep(cfg, replies, until, n) + SleepAt(cfg, replies, until, n)
      && SleepAt(cfg, replies, until, n) ==
           if action.RetryAfter? then Slept(action.wait)
           else if Doubles(action) then Slept(BackoffAfter(cfg, Doublings(cfg, replies, until, n)))
           else 0
  {
    hide Decide, Slept, BackoffAfter;
  }

  lemma ProgressNext(cfg: Config, replies: nat -> Reply, until: int -> int, n: nat, hostIndex: nat, backoff: int,
                     slept: nat)
    requires cfg.hosts > 0 && Progress(cfg, replies, until, n, hostIndex, backoff, slept)
    ensures var action := DecisionAt(cfg, replies, until, n);
      && (action.RetryAfter? ==> Progress(cfg, replies, until, n + 1, hostIndex, backoff, slept + Slept(action.wait)))
      && (action.Backoff? ==>
            Progress(cfg, replies, until, n + 1, hostIndex, Wrap(2 * backoff), slept + Slept(backoff)))
      && (action.NextHost? ==>
            Progress(cfg, replies, until, n + 1, NextHostIndex(hostIndex, cfg.hosts), Wrap(2 * backoff),
                     slept + Slept(backoff)))
      && (Final(action) ==> slept == TotalSleep(cfg, replies, until, n + 1))
  {
    DecideFacts(cfg, n, replies(n), until);
    HostAdvances(cfg.hosts, replies, n);
    BackoffDoubles(cfg, Doublings(cfg, replies, until, n));
    CountersNext(cfg, replies, until, n);
    hide Decide, Wrap, Slept, BackoffAfter, HostOf, NextHostIndex, Doublings, TotalSleep, SleepAt;
  }

  /** Attempt `i` asks the host that the connection errors before it lead to. */
  ghost predicate Asked(hosts: nat, replies: nat -> Reply, asked: seq<nat>)
    requires hosts > 0
  {
    forall i :: 0 <= i < |asked| ==> asked[i] == HostOf(hosts, replies, i) < hosts
  }

  /** None of the first `n` replies is an answer or a final error. */
  ghost predicate NoneFinal(cfg: Config, replies: nat -> Reply, until: int -> int, n: int) {
    forall i :: 0 <= i < n ==> !Final(DecisionAt(cfg, replies, until, i))
  }

  lemma AskNext(hosts: nat, replies: nat -> Reply, asked: seq<nat>)
    requires hosts > 0 && Asked(hosts, replies, asked)
    ensures Asked(hosts, replies, asked + [HostOf(hosts, replies, |asked|)])
  {
    hide ConnErrors;
  }

  lemma NoneFinalNext(cfg: Config, replies: nat -> Reply, until: int -> int, n: nat)
    requires NoneFinal(cfg, replies, until, n) && !Final(DecisionAt(cfg, replies, until, n))
    ensures NoneFinal(cfg, replies, until, n + 1)
  {
    hide DecisionAt;
  }

  /** The replies that are passed over are retried; the one at which it stops is not. */
  ghost predicate StopsAt(cfg: Config, replies: nat -> Reply, until: int -> int, n: nat) {
    && NoneFinal(cfg, replies, until, n - 1)
    && (n < cfg.maxRetries ==> n > 0 && Final(DecisionAt(cfg, replies, until, n - 1)))
  }

  lemma StopsHere(cfg: Config, replies: nat -> Reply, until: int -> int, n: nat)
    requires NoneFinal(cfg, replies, until, n)
    ensures Final(DecisionAt(cfg, replies, until, n)) ==> StopsAt(cfg, replies, until, n + 1)
    ensures n == cfg.maxRetries ==> StopsAt(cfg, replies, until, n)
  {
    hide DecisionAt;
  }

  /** `replies(i)` is what attempt `i` would yield. The trace lists the hosts asked, the bodies closed
      (by attempt) and the total time slept. */
  method RequestRetry(cfg: Config, replies: nat -> Reply, until: int -> int)
    returns (out: Outcome, asked: seq<nat>, closed: seq<nat>, slept: nat)
    requires cfg.hosts > 0 && cfg.initialDelay <= MaxInt
    ensures |asked| <= cfg.maxRetries
    ensures Explained(cfg, replies, until, |asked|, out)
    ensures Asked(cfg.hosts, replies, asked)
    ensures slept == TotalSleep(cfg, replies, until, |asked|) <= SleepBound(cfg)
    ensures Closed(replies, |asked|, closed, if out.err.None? then out.resp else None)
  {
    hide Decide, Wrap, Slept, Closed, Asked, HostOf, NextHostIndex, NoneFinal, StopsAt, Explained, SleepBound, Progress,
      TotalSleep;
    asked, closed, slept := [], [], 0;
    var hostIndex, backoff := 0, cfg.initialDelay as int;
    var resp: Option<nat> := None;
    var err: Option<Error> := None;
    ghost var stopped := false;
    Initially(cfg, replies, until);
    for retries := 0 to cfg.maxRetries
      invariant |asked| == retries && !stopped
      invariant NoneFinal(cfg, replies, until, retries) && Asked(cfg.hosts, replies, asked)
      invariant Progress(cfg, replies, until, retries, hostIndex, backoff, slept)
      invariant Closed(replies, retries, closed, resp) && (err.Some? ==> resp.None?)
      invariant Outcome(resp, err) == OutcomeAfter(cfg, replies, until, retries)
    {
      if retries > 0 && resp.Some? {
        CloseKept(replies, retries, closed, resp.value);
        closed := closed + [resp.value];
      }
      OpenNext(replies, retries, closed);
      Reached(cfg, replies, until, retries, hostIndex, backoff, slept);
      AskNext(cfg.hosts, replies, asked);
      asked := asked + [hostIndex];
      resp := if replies(retries).Got? then Some(retries) else None;
      err := if replies(retries).ConnError? then Some(Connection) else None;
      DecideFacts(cfg, retries, replies(retries), until);
      ProgressNext(cfg, replies, until, retries, hostIndex, backoff, slept);
      var action := Decide(cfg, retries, replies(retries), until);
      assert action == DecisionAt(cfg, replies, until, retries);
      stopped := Final(action);
      StopsHere(cfg, replies, until, retries);
      if !stopped {
        NoneFinalNext(cfg, replies, until, retries);
      }
      match action {
        case Return =>
          break;
        case Fail(e) =>
          CloseKept(replies, retries + 1, closed, retries);
          err := Some(e);
          closed := closed + [retries];
          break;
        case RetryAfter(wait) =>
          slept := slept + Slept(wait);
        case Backoff =>
          slept := slept + Slept(backoff);
          backoff := Wrap(2 * backoff);
        case NextHost =>
          hostIndex := NextHostIndex(hostIndex, cfg.hosts);
          slept := slept + Slept(backoff);
          backoff := Wrap(2 * backoff);
      }
    }
    if !stopped {
      StopsHere(cfg, replies, until, cfg.maxRetries);
      Reached(cfg, replies, until, cfg.maxRetries, hostIndex, backoff, slept);
    }
    SleptEnough(cfg, replies, until, |asked|);
    OutcomeExplained(cfg, replies, until, |asked|);
    return Outcome(resp, err), asked, closed, slept;
  }

  lemma HostAdvances(hosts: nat, replies: nat -> Reply, i: nat)
    requires hosts > 0
    ensures HostOf(hosts, replies, i + 1) ==
      if replies(i).ConnError? then NextHostIndex(HostOf(hosts, replies, i), hosts) else HostOf(hosts, replies, i)
  {
    ModSucc(ConnErrors(replies, i), hosts);
  }

  lemma Reached(cfg: Config, replies: nat -> Reply, until: int -> int, n: nat, hostIndex: nat, backoff: int, slept: nat)
    requires cfg.hosts > 0 && Progress(cfg, replies, until, n, hostIndex, backoff, slept)
    ensures hostIndex == HostOf(cfg.hosts, replies, n) && slept == TotalSleep(cfg, replies, until, n)
  {}

  lemma Initially(cfg: Config, replies: nat -> Reply, until: int -> int)
    requires cfg.hosts > 0 && cfg.initialDelay <= MaxInt
    ensures Progress(cfg, replies, until, 0, 0, cfg.initialDelay, 0) && Closed(replies, 0, [], None)
    ensures NoneFinal(cfg, replies, until, 0) && Asked(cfg.hosts, replies, [])
  {
    assert Pow2(0) * cfg.initialDelay == cfg.initialDelay;
    assert Opened(replies, 0) - {} == {};
  }
}
