/** github/client.go, the throttler: a channel of capacity `burst` used as a token bucket. */
module Throttle {

  // The objects.

  datatype HttpClient = Plain(id: nat) | Throttler

  class Client {
    var client: HttpClient   // what requests go through
    var wrapped: HttpClient  // throttle.http: what the throttler forwards to
    var ticking: bool        // throttle.ticker != nil
    var tokens: nat          // len(throttle.throttle)
    var burst: nat           // cap(throttle.throttle)

    /** The throttler is in front exactly while a ticker runs, and never forwards to itself. */
    ghost predicate Valid()
      reads this
    {
      tokens <= burst && (ticking <==> client == Throttler) && (ticking ==> wrapped.Plain?)
    }

    /** The client that finally sends the request. */
    ghost function Underlying(): HttpClient
      reads this
    {
      if client == Throttler then wrapped else client
    }

    constructor (id: nat)
      ensures Valid() && !ticking && Underlying() == Plain(id)
    {
      client, wrapped, ticking, tokens, burst := Plain(id), Plain(id), false, 0, 0;
    }

    /** Enabling wraps the client at most once and fills the bucket; disabling unwraps it. */
    method Throttle(hourlyTokens: int, burst: int)
      requires Valid()
      modifies this
      ensures Valid() && Underlying() == old(Underlying())
      ensures ticking <==> hourlyTokens > 0 && burst > 0
      ensures ticking ==> tokens == this.burst == burst
      ensures !ticking ==> tokens == old(tokens) && this.burst == old(this.burst)
    {
      var previouslyThrottled := ticking;
      if hourlyTokens <= 0 || burst <= 0 {
        if previouslyThrottled {
          client := wrapped;
          ticking := false;
        }
        return;
      }
      var filled := 0;
      while filled < burst
        invariant filled <= burst
      {
        filled := filled + 1;
      }
      if !previouslyThrottled {
        wrapped := client;
        client := Throttler;
      }
      ticking := true;
      this.burst := burst;
      tokens := filled;
    }

    /** A receive; with no token available it blocks, so it is no step yet. */
    method Wait()
      requires Valid() && tokens > 0
      modifies this`tokens
      ensures Valid() && tokens == old(tokens) - 1
    {
      tokens := tokens - 1;
    }

    /** A send that is dropped when the channel is full: a refund, or a tick of the refiller. */
    method Offer()
      requires Valid()
      modifies this`tokens
      ensures Valid() && tokens == Offered(old(tokens), burst)
    {
      if tokens < burst {
        tokens := tokens + 1;
      }
    }
  }

  function Offered(tokens: nat, burst: nat): nat { if tokens < burst then tokens + 1 else tokens }

  // Interleavings.

  datatype Event = Wait | Tick | Reply(free: bool)

  /** `dropped` counts the offers a full bucket refused. */
  datatype Bucket = Bucket(burst: nat, tokens: nat, waits: nat, replies: nat, frees: nat, ticks: nat, dropped: nat)

  predicate Enabled(b: Bucket, e: Event) {
    match e
    case Wait => b.tokens > 0
    case Tick => true
    case Reply(_) => b.replies < b.waits
  }

  function Offer(b: Bucket): Bucket {
    b.(tokens := Offered(b.tokens, b.burst), dropped := b.dropped + if b.tokens < b.burst then 0 else 1)
  }

  function Step(b: Bucket, e: Event): Bucket
    requires Enabled(b, e)
  {
    match e
    case Wait => b.(tokens := b.tokens - 1, waits := b.waits + 1)
    case Tick => Offer(b).(ticks := b.ticks + 1)
    case Reply(free) =>
      if free then Offer(b).(replies := b.replies + 1, frees := b.frees + 1) else b.(replies := b.replies + 1)
  }

  ghost predicate Run(states: seq<Bucket>, events: seq<Event>) {
    && |states| == |events| + 1
    && forall i :: 0 <= i < |events| ==> Enabled(states[i], events[i]) && states[i + 1] == Step(states[i], events[i])
  }

  function Full(burst: nat): Bucket { Bucket(burst, burst, 0, 0, 0, 0, 0) }

  /** No token appears or disappears unaccounted for. */
  lemma {:induction false} Conservation(states: seq<Bucket>, events: seq<Event>, k: nat)
    requires Run(states, events) && states[0] == Full(states[0].burst) && k < |states|
    ensures var b := states[k];
      && b.burst == states[0].burst && b.tokens <= b.burst
      && b.frees <= b.replies <= b.waits
      && b.tokens + b.waits + b.dropped == b.burst + b.ticks + b.frees
  {
    if k > 0 {
      Conservation(states, events, k - 1);
    }
  }

  /** In every stretch of every interleaving, the requests sent, less those answered for free, are at
      most `burst` plus the number of ticks in that stretch. */
  lemma RateLimit(states: seq<Bucket>, events: seq<Event>, i: nat, k: nat)
    requires Run(states, events) && states[0] == Full(states[0].burst) && i <= k < |states|
    ensures var a, b := states[i], states[k];
      (b.waits - a.waits) - (b.frees - a.frees) <= b.burst + (b.ticks - a.ticks)
  {
    Conservation(states, events, i);
    Conservation(states, events, k);
    DropsGrow(states, events, i, k);
  }

  lemma {:induction false} DropsGrow(states: seq<Bucket>, events: seq<Event>, i: nat, k: nat)
    requires Run(states, events) && i <= k < |states|
    ensures states[i].dropped <= states[k].dropped
    decreases k
  {
    if i < k {
      DropsGrow(states, events, i, k - 1);
    }
  }
}
