/**
 The partner API's token-bucket limiter (patches/lib/rateLimit.ts), over real numbers.

 Time is in whole milliseconds. Rounding of floating-point numbers is not modelled.
 */
module RateLimiter {
  import opened Wrappers

  datatype Bucket = Bucket(tokens: real, lastRefillAt: int)

  datatype Config = Config(capacity: real, refillPerSecond: real)

  /** `retryAfterMs` is None when the bucket is never refilled: the wait has no end. */
  datatype Decision =
    | Allowed(remaining: int)
    | Refused(remaining: int, retryAfterMs: Option<int>)

  type Buckets = map<string, Bucket>

  function Ceiling(x: real): int {
    -(-x).Floor
  }

  function Seconds(ms: int): real {
    ms as real / 1000.0
  }

  /** The tokens a client would find at `now`. */
  function Level(c: Config, buckets: Buckets, client: string, now: int): real {
    var b := if client in buckets then buckets[client] else Bucket(c.capacity, now);
    var elapsed := Seconds(now - b.lastRefillAt);
    var refilled := b.tokens + (if elapsed < 0.0 then 0.0 else elapsed) * c.refillPerSecond;
    if c.capacity < refilled then c.capacity else refilled
  }

  function Wait(c: Config, tokens: real): Option<int> {
    if c.refillPerSecond == 0.0 then None else Some(Ceiling((1.0 - tokens) / c.refillPerSecond * 1000.0))
  }

  function Checked(c: Config, buckets: Buckets, client: string, now: int): Buckets {
    var tokens := Level(c, buckets, client, now);
    buckets[client := Bucket(if tokens < 1.0 then tokens else tokens - 1.0, now)]
  }

  class TokenBucketRateLimiter {
    const config: Config
    var buckets: Buckets

    constructor (config: Config)
      ensures this.config == config && buckets == map[]
    {
      this.config := config;
      buckets := map[];
    }

    method Check(client: string, now: int) returns (d: Decision)
      modifies this
      ensures buckets == Checked(config, old(buckets), client, now)
      ensures d.Allowed? <==> Level(config, old(buckets), client, now) >= 1.0
      ensures d.remaining == buckets[client].tokens.Floor
      ensures d.Refused? ==> d.retryAfterMs == Wait(config, Level(config, old(buckets), client, now))
    {
      var bucket := if client in buckets then buckets[client] else Bucket(config.capacity, now);
      var elapsed := Seconds(now - bucket.lastRefillAt);
      if elapsed < 0.0 { elapsed := 0.0; }
      var tokens := bucket.tokens + elapsed * config.refillPerSecond;
      if config.capacity < tokens { tokens := config.capacity; }
      if tokens < 1.0 {
        var retryAfter := Wait(config, tokens);
        buckets := buckets[client := Bucket(tokens, now)];
        return Refused(tokens.Floor, retryAfter);
      }
      var used := tokens - 1.0;
      buckets := buckets[client := Bucket(used, now)];
      d := Allowed(used.Floor);
    }
  }

  // ----- The bound -----

  datatype Tick = Tick(client: string, now: int)

  function After(c: Config, buckets: Buckets, ticks: seq<Tick>): Buckets
    decreases |ticks|
  {
    if ticks == [] then buckets
    else After(c, Checked(c, buckets, ticks[0].client, ticks[0].now), ticks[1..])
  }

  /** 1 when the tick is one of this client's and it is let through. */
  function Price(c: Config, buckets: Buckets, t: Tick, client: string): nat {
    if t.client == client && Level(c, buckets, client, t.now) >= 1.0 then 1 else 0
  }

  /** How many of a client's checks a run of checks lets through. */
  function Granted(c: Config, buckets: Buckets, ticks: seq<Tick>, client: string): nat
    decreases |ticks|
  {
    if ticks == [] then 0
    else
      Price(c, buckets, ticks[0], client)
      + Granted(c, Checked(c, buckets, ticks[0].client, ticks[0].now), ticks[1..], client)
  }

  /** Every check happens between `from` and `to`, none before an earlier one. */
  predicate Within(ticks: seq<Tick>, from: int, to: int)
    decreases |ticks|
  {
    if ticks == [] then from <= to else from <= ticks[0].now && Within(ticks[1..], ticks[0].now, to)
  }

  /** No bucket overflows, is in debt, or was touched after `now`. */
  ghost predicate Ok(c: Config, buckets: Buckets, now: int) {
    forall client :: client in buckets ==>
      0.0 <= buckets[client].tokens <= c.capacity && buckets[client].lastRefillAt <= now
  }

  /** Multiplying by the rate spreads over a sum of times. */
  lemma SecondsAdd(a: int, b: int, rate: real)
    ensures Seconds(a) * rate + Seconds(b) * rate == Seconds(a + b) * rate
  {
  }

  lemma RefillIsPositive(ms: int, rate: real)
    requires ms >= 0 && rate >= 0.0
    ensures Seconds(ms) >= 0.0 && Seconds(ms) * rate >= 0.0
  {
  }

  /** Between two moments the level rises by at most the refill. */
  lemma LevelRises(c: Config, buckets: Buckets, client: string, from: int, to: int)
    requires c.capacity >= 0.0 && c.refillPerSecond >= 0.0 && Ok(c, buckets, from) && from <= to
    ensures 0.0 <= Level(c, buckets, client, from) <= c.capacity
    ensures Level(c, buckets, client, to)
            <= Level(c, buckets, client, from) + Seconds(to - from) * c.refillPerSecond
  {
  }

  lemma CheckedKeepsOk(c: Config, buckets: Buckets, client: string, from: int, now: int)
    requires c.capacity >= 0.0 && c.refillPerSecond >= 0.0 && Ok(c, buckets, from) && from <= now
    ensures Ok(c, Checked(c, buckets, client, now), now)
  {
  }

  /** What a check leaves of a client's level: one token less if it was that client's and allowed. */
  lemma CheckedLevel(c: Config, buckets: Buckets, other: string, client: string, now: int)
    requires c.capacity >= 0.0
    ensures var paid := if other == client && Level(c, buckets, client, now) >= 1.0 then 1.0 else 0.0;
            Level(c, Checked(c, buckets, other, now), client, now) == Level(c, buckets, client, now) - paid
  {
  }

  /** What a client can be granted from `from` to `to`: its level, and the refill meanwhile. */
  function Budget(c: Config, buckets: Buckets, client: string, from: int, to: int): real {
    Level(c, buckets, client, from) + Seconds(to - from) * c.refillPerSecond
  }

  lemma BudgetIsPositive(c: Config, buckets: Buckets, client: string, from: int, to: int)
    requires c.capacity >= 0.0 && c.refillPerSecond >= 0.0 && Ok(c, buckets, from) && from <= to
    ensures 0.0 <= Budget(c, buckets, client, from, to)
  {
  }

  lemma {:induction false} GrantedIsPaidFor(c: Config, buckets: Buckets, ticks: seq<Tick>, client: string,
                                            from: int, to: int)
    requires c.capacity >= 0.0 && c.refillPerSecond >= 0.0
    requires Ok(c, buckets, from) && Within(ticks, from, to)
    ensures Granted(c, buckets, ticks, client) as real <= Budget(c, buckets, client, from, to)
    decreases |ticks|
  {
    if ticks == [] {
      BudgetIsPositive(c, buckets, client, from, to);
    } else {
      var t := ticks[0];
      var buckets' := Checked(c, buckets, t.client, t.now);
      CheckedKeepsOk(c, buckets, t.client, from, t.now);
      GrantedIsPaidFor(c, buckets', ticks[1..], client, t.now, to);
      OneTickIsPaidFor(c, buckets, t, client, from, to);
      SumFits(Price(c, buckets, t, client), Granted(c, buckets', ticks[1..], client),
              Budget(c, buckets', client, t.now, to), Budget(c, buckets, client, from, to));
    }
  }

  lemma SumFits(n: nat, m: nat, x: real, y: real)
    requires m as real <= x && n as real + x <= y
    ensures (n + m) as real <= y
  {
  }

  /** What is granted after a tick, plus the tick itself, is paid for by the level before it. */
  lemma OneTickIsPaidFor(c: Config, buckets: Buckets, t: Tick, client: string, from: int, to: int)
    requires c.capacity >= 0.0 && c.refillPerSecond >= 0.0 && Ok(c, buckets, from) && from <= t.now
    ensures Price(c, buckets, t, client) as real + Budget(c, Checked(c, buckets, t.client, t.now), client, t.now, to)
            <= Budget(c, buckets, client, from, to)
  {
    LevelRises(c, buckets, client, from, t.now);
    CheckedLevel(c, buckets, t.client, client, t.now);
    SecondsAdd(t.now - from, to - t.now, c.refillPerSecond);
    assert (t.now - from) + (to - t.now) == to - from;
  }

  lemma {:induction false} AfterKeepsOk(c: Config, buckets: Buckets, ticks: seq<Tick>, from: int, to: int)
    requires c.capacity >= 0.0 && c.refillPerSecond >= 0.0
    requires Ok(c, buckets, from) && Within(ticks, from, to)
    ensures Ok(c, After(c, buckets, ticks), to)
    decreases |ticks|
  {
    if ticks != [] {
      CheckedKeepsOk(c, buckets, ticks[0].client, from, ticks[0].now);
      AfterKeepsOk(c, Checked(c, buckets, ticks[0].client, ticks[0].now), ticks[1..], ticks[0].now, to);
    }
  }

  /**
   The bound. After any history, whoever else is checked in between, a client gets at most
   capacity + refillPerSecond * seconds checks through in any window.
   */
  lemma WindowIsBounded(c: Config, history: seq<Tick>, window: seq<Tick>, client: string,
                        start: int, from: int, to: int)
    requires c.capacity >= 0.0 && c.refillPerSecond >= 0.0
    requires Within(history, start, from) && Within(window, from, to)
    ensures Granted(c, After(c, map[], history), window, client) as real
            <= c.capacity + Seconds(to - from) * c.refillPerSecond
  {
    AfterKeepsOk(c, map[], history, start, from);
    WindowFrom(c, After(c, map[], history), window, client, from, to);
  }

  lemma WindowFrom(c: Config, buckets: Buckets, window: seq<Tick>, client: string, from: int, to: int)
    requires c.capacity >= 0.0 && c.refillPerSecond >= 0.0 && Ok(c, buckets, from) && Within(window, from, to)
    ensures Granted(c, buckets, window, client) as real <= c.capacity + Seconds(to - from) * c.refillPerSecond
  {
    GrantedIsPaidFor(c, buckets, window, client, from, to);
    BudgetIsBounded(c, buckets, client, from, to);
  }

  lemma BudgetIsBounded(c: Config, buckets: Buckets, client: string, from: int, to: int)
    ensures Budget(c, buckets, client, from, to) <= c.capacity + Seconds(to - from) * c.refillPerSecond
  {
  }

  // ----- Retry-after -----

  lemma {:induction false} OthersDoNotMatter(c: Config, buckets: Buckets, ticks: seq<Tick>, client: string)
    requires forall t :: t in ticks ==> t.client != client
    ensures client in buckets ==>
              client in After(c, buckets, ticks) && After(c, buckets, ticks)[client] == buckets[client]
    decreases |ticks|
  {
    if ticks != [] {
      OthersDoNotMatter(c, Checked(c, buckets, ticks[0].client, ticks[0].now), ticks[1..], client);
    }
  }

  /** The returned wait is the least whole number of milliseconds that refills to one token. */
  lemma WaitIsExact(c: Config, tokens: real, ms: int)
    requires c.refillPerSecond > 0.0
    ensures Wait(c, tokens).value <= ms <==> tokens + Seconds(ms) * c.refillPerSecond >= 1.0
  {
    var needed := (1.0 - tokens) / c.refillPerSecond;
    assert needed * c.refillPerSecond == 1.0 - tokens;
    var x := needed * 1000.0;
    assert Ceiling(x) <= ms <==> x <= ms as real;
    assert x <= ms as real <==> needed <= Seconds(ms);
    if needed <= Seconds(ms) {
      assert needed * c.refillPerSecond <= Seconds(ms) * c.refillPerSecond;
    } else {
      assert needed * c.refillPerSecond > Seconds(ms) * c.refillPerSecond;
    }
  }

  /**
   A refused client that waits is let through exactly when it has waited the returned time, no
   matter what other clients do meanwhile. It needs room for a whole token.
   */
  lemma RetryAfterIsExact(c: Config, buckets: Buckets, client: string, now: int, others: seq<Tick>, waited: nat)
    requires c.capacity >= 1.0 && c.refillPerSecond > 0.0
    requires Level(c, buckets, client, now) < 1.0
    requires forall t :: t in others ==> t.client != client
    ensures var refused := Checked(c, buckets, client, now);
            Level(c, After(c, refused, others), client, now + waited) >= 1.0
            <==> waited >= Wait(c, Level(c, buckets, client, now)).value
  {
    var refused := Checked(c, buckets, client, now);
    OthersDoNotMatter(c, refused, others, client);
    WaitIsExact(c, Level(c, buckets, client, now), waited);
    RefillIsPositive(waited, c.refillPerSecond);
  }

  /** The bound needs a clock that does not run back: one step back buys a token again. */
  lemma ClockMustNotRunBack()
    ensures var c := Config(1.0, 1.0);
            Granted(c, map[], [Tick("p", 1000), Tick("p", 0), Tick("p", 1000)], "p") == 2
  {
  }
}
