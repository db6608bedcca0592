/**
 The retrying transport of `llm/internal/httpclient/retry.go`.

 The inner transport, the caller's context and the timers are an arbitrary script:
 for each attempt it says what came back, whether the attempt's timer had fired,
 and whether the caller's context ended before the attempt, during it, or during
 the wait after it. Durations are nanoseconds in a signed 64-bit integer.
 */
module Retry {
  import opened Common

  // ---------- Durations ----------

  const TWO62 := 0x4000_0000_0000_0000
  const TWO63 := 0x8000_0000_0000_0000
  const TWO64 := 0x1_0000_0000_0000_0000
  const SECOND := 1_000_000_000

  function Wrap64(x: int): int { (x + TWO63) % TWO64 - TWO63 }

  function CapDuration(d: int, ceiling: int): int { if d > ceiling then ceiling else d }

  /** The wait before attempt `k + 1` as the loop computes it, wrap-around included. */
  function Backoff(initial: int, max: int, k: nat): int {
    if k == 0 then initial else CapDuration(Wrap64(Backoff(initial, max, k - 1) * 2), max)
  }

  function Pow2(k: nat): nat { if k == 0 then 1 else 2 * Pow2(k - 1) }

  /** The progression the configuration describes: only the first wait may exceed the maximum. */
  function Progression(initial: int, max: int, k: nat): int {
    if k == 0 then initial else if initial * Pow2(k) < max then initial * Pow2(k) else max
  }

  predicate Durations(initial: int, max: int) { 0 < initial < TWO63 && 0 < max < TWO63 }

  lemma Doubled(initial: int, k: nat)
    ensures initial * Pow2(k + 1) == 2 * (initial * Pow2(k))
  {
  }

  lemma AtLeastInitial(initial: int, k: nat)
    requires initial > 0
    ensures initial * Pow2(k) >= Pow2(k) > 0
  {
    PowPositive(k);
  }

  lemma {:induction false} PowPositive(k: nat)
    ensures Pow2(k) > 0
  {
    if k > 0 {
      PowPositive(k - 1);
    }
  }

  lemma DoublingStep(first: bool, x: int, max: int)
    requires 0 < x && 0 < max < TWO63 && (first ==> x < TWO63)
    ensures var w := if first then x else CapDuration(x, max);
      CapDuration(Wrap64(w * 2), max) == CapDuration(2 * x, max) <==> w < TWO62
  {
  }

  lemma NextWait(initial: int, max: int, k: nat)
    requires Durations(initial, max) && Backoff(initial, max, k) == Progression(initial, max, k)
    ensures Backoff(initial, max, k + 1) == Progression(initial, max, k + 1) <==> Progression(initial, max, k) < TWO62
  {
    var x := initial * Pow2(k);
    AtLeastInitial(initial, k);
    Doubled(initial, k);
    assert k == 0 ==> x == initial;
    DoublingStep(k == 0, x, max);
  }

  /**
   The waits follow the progression through wait `n` exactly when every earlier wait
   is under 2^62 ns: doubling a longer one wraps to a negative duration.
   */
  lemma {:induction false} WaitsFollowTheProgressionIff(initial: int, max: int, n: nat)
    requires Durations(initial, max)
    ensures (forall k :: 0 <= k <= n ==> Backoff(initial, max, k) == Progression(initial, max, k))
       <==> (forall k :: 0 <= k < n ==> Progression(initial, max, k) < TWO62)
  {
    if n > 0 {
      WaitsFollowTheProgressionIff(initial, max, n - 1);
      if Backoff(initial, max, n - 1) == Progression(initial, max, n - 1) {
        NextWait(initial, max, n - 1);
      }
    }
  }

  /** Every wait follows it exactly when both configured durations are under 2^62 ns. */
  lemma EveryWaitFollowsTheProgressionIff(initial: int, max: int)
    requires Durations(initial, max)
    ensures (forall k: nat :: Backoff(initial, max, k) == Progression(initial, max, k)) <==> initial < TWO62 && max < TWO62
  {
    if initial < TWO62 && max < TWO62 {
      forall k: nat
        ensures Backoff(initial, max, k) == Progression(initial, max, k)
      {
        WaitsFollowTheProgressionIff(initial, max, k);
      }
    } else {
      SomeWaitIsTooLong(initial, max, 62);
    }
  }

  lemma FourMore(k: nat)
    ensures Pow2(k + 4) == 16 * Pow2(k)
  {
    assert Pow2(k + 3) == 8 * Pow2(k) by {
      assert Pow2(k + 1) == 2 * Pow2(k) && Pow2(k + 2) == 2 * Pow2(k + 1);
    }
  }

  lemma SixteenMore(k: nat)
    ensures Pow2(k + 16) == 0x1_0000 * Pow2(k)
  {
    FourMore(k);
    FourMore(k + 4);
    FourMore(k + 8);
    FourMore(k + 12);
  }

  lemma Pow62(k: nat)
    requires k == 0
    ensures Pow2(k + 62) == TWO62
  {
    SixteenMore(k);
    SixteenMore(k + 16);
    SixteenMore(k + 32);
    FourMore(k + 48);
    FourMore(k + 52);
    FourMore(k + 56);
    assert Pow2(k + 61) == 2 * Pow2(k + 60);
  }

  lemma SomeWaitIsTooLong(initial: int, max: int, far: nat)
    requires Durations(initial, max) && far == 62 && (initial >= TWO62 || max >= TWO62)
    ensures exists k: nat :: Backoff(initial, max, k) != Progression(initial, max, k)
  {
    Pow62(0);
    AtLeastInitial(initial, far);
    var late := if initial < TWO62 then far else 0;
    assert Progression(initial, max, late) >= TWO62;
    WaitsFollowTheProgressionIff(initial, max, far + 1);
  }

  lemma LaterWaitsAreCapped(initial: int, max: int, k: nat)
    requires k > 0
    ensures Backoff(initial, max, k) <= max
  {
  }

  /** The first `n` waits together, none replaced by a Retry-After. */
  function TotalWait(initial: int, max: int, n: nat): int {
    if n == 0 then 0 else TotalWait(initial, max, n - 1) + Backoff(initial, max, n - 1)
  }

  /** Whatever the durations, overflow included, n waits take at most the first and n - 1 maxima. */
  lemma {:induction false} TotalWaitIsBounded(initial: int, max: int, n: nat)
    requires n > 0
    ensures TotalWait(initial, max, n) <= initial + (n - 1) * max
  {
    if n == 1 {
      assert TotalWait(initial, max, 0) == 0;
    } else {
      TotalWaitIsBounded(initial, max, n - 1);
      LaterWaitsAreCapped(initial, max, n - 1);
      assert (n - 1) * max == (n - 2) * max + max;
    }
  }

  // ---------- What the world does ----------

  datatype RetryAfter = Absent | Seconds(n: int) | Until(d: int) | Unparseable

  datatype Reply = NetError(e: nat) | Response(status: int, retryAfter: RetryAfter)

  datatype Turn = Turn(doneBefore: bool, reply: Reply, timedOut: bool, callerDone: bool, sleepFinishes: bool)

  datatype Config = Config(disabled: bool, maxRetries: int, initialBackoff: int, maxBackoff: int, perAttempt: int, hook: bool)

  datatype Error = Network(e: nat) | AttemptTimeout | CallerCancelled | BodyUnreadable | BudgetExhausted

  /** A response, named by its attempt; `wrapped` when closing its body also cancels that attempt's context. */
  datatype Resp = Resp(attempt: nat, status: int, retryAfter: RetryAfter, wrapped: bool)

  datatype Result = Failed(err: Error) | Got(resp: Resp)

  datatype RetryEvent = RetryEvent(attempt: nat, status: int, err: Option<Error>, wait: int)

  type Bytes = seq<bv8>

  // ---------- What should come of it ----------

  function Initial(cfg: Config): int { if cfg.initialBackoff <= 0 then 2 * SECOND else cfg.initialBackoff }

  function MaxWait(cfg: Config): int { if cfg.maxBackoff <= 0 then 60 * SECOND else cfg.maxBackoff }

  function ParseRetryAfter(r: RetryAfter): int {
    match r
    case Seconds(n) => Wrap64(n * SECOND)
    case Until(d) => d
    case _ => 0
  }

  /** What one attempt hands back. */
  function AttemptResult(cfg: Config, k: nat, t: Turn): Result {
    if cfg.perAttempt <= 0 then
      match t.reply
      case NetError(e) => Failed(Network(e))
      case Response(status, ra) => Got(Resp(k, status, ra, false))
    else if t.timedOut then
      if !t.callerDone then Failed(AttemptTimeout)
      else if t.reply.NetError? then Failed(Network(t.reply.e)) else Failed(CallerCancelled)
    else
      match t.reply
      case NetError(e) => Failed(Network(e))
      case Response(status, ra) => Got(Resp(k, status, ra, true))
  }

  predicate Transient(status: int) { status in {429, 500, 502, 503, 504, 529} }

  predicate Retryable(r: Result) { r.Failed? || Transient(r.resp.status) }

  function EventOf(cfg: Config, turns: nat -> Turn, k: nat): RetryEvent {
    var r, backoff := AttemptResult(cfg, k, turns(k)), Backoff(Initial(cfg), MaxWait(cfg), k);
    if r.Failed? then RetryEvent(k + 1, 0, Some(r.err), backoff)
    else
      var ra := ParseRetryAfter(r.resp.retryAfter);
      RetryEvent(k + 1, r.resp.status, None, if r.resp.status == 429 && ra > 0 then ra else backoff)
  }

  function Events(cfg: Config, turns: nat -> Turn, n: nat): seq<RetryEvent> {
    seq(n, (i: nat) => EventOf(cfg, turns, i))
  }

  function Waits(cfg: Config, turns: nat -> Turn, n: nat): seq<int> { seq(n, (i: nat) => EventOf(cfg, turns, i).wait) }

  function Copies(body: Option<Bytes>, n: nat): seq<Option<Bytes>> { seq(n, (i: nat) => body) }

  /** Attempt `k` is made, fails transiently, and the wait after it runs to its end. */
  predicate Continues(cfg: Config, turns: nat -> Turn, k: nat) {
    && !turns(k).doneBefore && Retryable(AttemptResult(cfg, k, turns(k)))
    && k < cfg.maxRetries && turns(k).sleepFinishes
  }

  /** The first turn after which the loop does not go on. */
  function LastTurn(cfg: Config, turns: nat -> Turn, from: nat): (k: nat)
    requires from <= cfg.maxRetries
    ensures from <= k <= cfg.maxRetries && !Continues(cfg, turns, k)
    ensures forall j :: from <= j < k ==> Continues(cfg, turns, j)
    decreases cfg.maxRetries - from
  {
    if Continues(cfg, turns, from) then LastTurn(cfg, turns, from + 1) else from
  }

  /** How many waits were begun: one more than were completed when the last was cut short. */
  function WaitsBegun(cfg: Config, turns: nat -> Turn, k: nat): nat {
    if !turns(k).doneBefore && Retryable(AttemptResult(cfg, k, turns(k))) && k < cfg.maxRetries then k + 1 else k
  }

  lemma OneMore(cfg: Config, turns: nat -> Turn, body: Option<Bytes>, k: nat)
    ensures Events(cfg, turns, k + 1) == Events(cfg, turns, k) + [EventOf(cfg, turns, k)]
    ensures Waits(cfg, turns, k + 1) == Waits(cfg, turns, k) + [EventOf(cfg, turns, k).wait]
    ensures Copies(body, k + 1) == Copies(body, k) + [body]
  {
  }

  // ---------- The transport ----------

  /** What one round trip did, as the inner transport and the caller's hook see it. */
  class Exchange {
    var bodies: seq<Option<Bytes>>  // the body each attempt sent
    var events: seq<RetryEvent>
    var waits: seq<int>
    var responses: set<nat>         // attempts answered by a response
    var closed: set<nat>            // those whose body was closed
    var contexts: set<nat>          // attempts given a context of their own
    var cancelled: set<nat>
    var released: set<nat>          // those whose hard-cancel watchdog was released

    /** Nothing but `live` is still held. */
    predicate AllFreedBut(live: set<nat>)
      reads this
    {
      closed == responses - live && cancelled == contexts - live && released == contexts
    }

    /** Responses and contexts belong to attempts already made. */
    predicate Numbered()
      reads this
    {
      (forall i :: i in responses ==> i < |bodies|) && (forall i :: i in contexts ==> i < |bodies|)
    }

    constructor ()
      ensures bodies == [] && events == [] && waits == [] && AllFreedBut({})
      ensures responses == {} && contexts == {}
    {
      bodies, events, waits := [], [], [];
      responses, closed, contexts, cancelled, released := {}, {}, {}, {}, {};
    }
  }

  class RetryTransport {
    const config: Config

    constructor (config: Config)
      ensures this.config == config
    {
      this.config := config;
    }

    /** `Close` of a response body; a wrapped one then cancels the attempt's context. */
    method CloseBody(x: Exchange, resp: Resp)
      modifies x`closed, x`cancelled
      ensures x.closed == old(x.closed) + {resp.attempt}
      ensures x.cancelled == if resp.wrapped then old(x.cancelled) + {resp.attempt} else old(x.cancelled)
    {
      x.closed := x.closed + {resp.attempt};
      if resp.wrapped {
        x.cancelled := x.cancelled + {resp.attempt};
      }
    }

    /**
     One attempt: what it hands back, and that it holds on to nothing but the body of
     a response it hands back, with that attempt's context.
     */
    method RoundTripWithTimeout(x: Exchange, body: Option<Bytes>, t: Turn) returns (r: Result)
      requires x.AllFreedBut({}) && x.Numbered()
      modifies x
      ensures x.bodies == old(x.bodies) + [body] && x.events == old(x.events) && x.waits == old(x.waits)
      ensures r == AttemptResult(config, |old(x.bodies)|, t)
      ensures x.AllFreedBut(if r.Got? then {r.resp.attempt} else {})
      ensures x.Numbered() && old(x.responses) <= x.responses && old(x.contexts) <= x.contexts
      ensures r.Got? ==> r.resp.attempt in x.responses && (r.resp.wrapped <==> r.resp.attempt in x.contexts)
    {
      var k := |x.bodies|;
      x.bodies := x.bodies + [body];
      if t.reply.Response? {
        x.responses := x.responses + {k};
      }
      if config.perAttempt <= 0 {
        match t.reply
        case NetError(e) => return Failed(Network(e));
        case Response(status, ra) => return Got(Resp(k, status, ra, false));
      }
      x.contexts := x.contexts + {k};
      match t.reply
      case NetError(e) =>
        x.cancelled, x.released := x.cancelled + {k}, x.released + {k};
        return Failed(if t.timedOut && !t.callerDone then AttemptTimeout else Network(e));
      case Response(status, ra) =>
        if t.timedOut {
          x.closed, x.cancelled, x.released := x.closed + {k}, x.cancelled + {k}, x.released + {k};
          return Failed(if !t.callerDone then AttemptTimeout else CallerCancelled);
        }
        x.released := x.released + {k};
        return Got(Resp(k, status, ra, true));
    }

    /** The wait after a transient failure, told to the hook before it begins. */
    method Announce(x: Exchange, attempt: nat, backoff: int, r: Result, ghost turns: nat -> Turn)
      requires backoff == Backoff(Initial(config), MaxWait(config), attempt)
      requires r == AttemptResult(config, attempt, turns(attempt))
      modifies x`events, x`waits
      ensures x.waits == old(x.waits) + [EventOf(config, turns, attempt).wait]
      ensures x.events == if config.hook then old(x.events) + [EventOf(config, turns, attempt)] else old(x.events)
    {
      var wait := backoff;
      if r.Got? && r.resp.status == 429 {
        var retryAfter := ParseRetryAfter(r.resp.retryAfter);
        if retryAfter > 0 {
          wait := retryAfter;
        }
      }
      if config.hook {
        x.events := x.events + [if r.Failed? then RetryEvent(attempt + 1, 0, Some(r.err), wait)
                                else RetryEvent(attempt + 1, r.resp.status, None, wait)];
      }
      x.waits := x.waits + [wait];
    }

    /** One turn of the loop up to its wait: the attempt, and a transient response closed. */
    method Attempt(x: Exchange, body: Option<Bytes>, t: Turn) returns (r: Result)
      requires x.AllFreedBut({}) && x.Numbered()
      modifies x
      ensures x.bodies == old(x.bodies) + [body] && x.events == old(x.events) && x.waits == old(x.waits)
      ensures r == AttemptResult(config, |old(x.bodies)|, t)
      ensures x.AllFreedBut(if Retryable(r) then {} else {r.resp.attempt}) && x.Numbered()
    {
      r := RoundTripWithTimeout(x, body, t);
      if r.Got? && Transient(r.resp.status) {
        CloseBody(x, r.resp);
      }
    }

    /**
     The whole round trip. With retries off it is one attempt, passed through. With
     retries on there is one attempt per turn up to the last, at most
     `maxRetries + 1`, all with the buffered body; the hook sees the failures numbered
     from one, each with its own wait, and those are the waits begun; and nothing is
     held afterwards but a live body handed back and its attempt's context. A response
     with a transient status comes back closed.
     */
    method RoundTrip(body: Option<Bytes>, readable: bool, turns: nat -> Turn) returns (r: Result, x: Exchange)
      ensures fresh(x)
      ensures config.disabled || config.maxRetries <= 0 ==>
        x.bodies == [body] && x.waits == [] && x.events == [] && r == AttemptResult(config, 0, turns(0))
        && x.AllFreedBut(if r.Got? then {r.resp.attempt} else {})
      ensures !config.disabled && config.maxRetries > 0 && body.Some? && !readable ==>
        r == Failed(BodyUnreadable) && x.bodies == [] && x.waits == [] && x.events == [] && x.AllFreedBut({})
      ensures !config.disabled && config.maxRetries > 0 && (body.Some? ==> readable) ==>
        Replayed(r, x, body, turns)
    {
      x := new Exchange();
      if config.disabled || config.maxRetries <= 0 {
        r := RoundTripWithTimeout(x, body, turns(0));
        return;
      }
      if body.Some? && !readable {
        return Failed(BodyUnreadable), x;
      }
      r := Loop(x, body, turns);
    }

    predicate Replayed(r: Result, x: Exchange, body: Option<Bytes>, turns: nat -> Turn)
      requires config.maxRetries > 0
      reads x
    {
      var k := LastTurn(config, turns, 0);
      var t, n := turns(k), WaitsBegun(config, turns, k);
      && x.bodies == Copies(body, if t.doneBefore then k else k + 1)
      && x.waits == Waits(config, turns, n)
      && x.events == (if config.hook then Events(config, turns, n) else [])
      && r == (if t.doneBefore || n > k then Failed(CallerCancelled) else AttemptResult(config, k, t))
      && x.AllFreedBut(if r.Got? && !Transient(r.resp.status) then {r.resp.attempt} else {})
    }

    method Loop(x: Exchange, body: Option<Bytes>, turns: nat -> Turn) returns (r: Result)
      requires config.maxRetries > 0 && x.AllFreedBut({}) && x.Numbered()
      requires x.bodies == [] && x.waits == [] && x.events == []
      modifies x
      ensures Replayed(r, x, body, turns)
    {
      var backoff := config.initialBackoff;
      if backoff <= 0 {
        backoff := 2 * SECOND;
      }
      var maxBackoff := config.maxBackoff;
      if maxBackoff <= 0 {
        maxBackoff := 60 * SECOND;
      }
      var attempt := 0;
      while attempt <= config.maxRetries
        invariant 0 <= attempt <= config.maxRetries
        invariant forall j :: 0 <= j < attempt ==> Continues(config, turns, j)
        invariant x.AllFreedBut({}) && x.Numbered()
        invariant backoff == Backoff(Initial(config), maxBackoff, attempt) && maxBackoff == MaxWait(config)
        invariant x.bodies == Copies(body, attempt) && x.waits == Waits(config, turns, attempt)
        invariant x.events == if config.hook then Events(config, turns, attempt) else []
        decreases config.maxRetries - attempt
      {
        var t := turns(attempt);
        assert !Continues(config, turns, attempt) ==> LastTurn(config, turns, 0) == attempt;
        if t.doneBefore {
          return Failed(CallerCancelled);
        }
        r := Attempt(x, body, t);
        OneMore(config, turns, body, attempt);
        if !Retryable(r) || attempt == config.maxRetries {
          return;
        }
        Announce(x, attempt, backoff, r, turns);
        if !t.sleepFinishes {
          return Failed(CallerCancelled);
        }
        backoff := CapDuration(Wrap64(backoff * 2), maxBackoff);
        attempt := attempt + 1;
      }
      // every turn of the loop returns or goes on, and the last returns
      assert false;
      return Failed(BudgetExhausted);
    }
  }

  // ---------- What that means for the caller ----------

  /**
   For every configuration and every behaviour of the world: at most `maxRetries + 1`
   attempts; each hook event carries its own number and, unless it was a 429 with a
   positive Retry-After, exactly the wait of its place in the progression, so a
   Retry-After never disturbs the waits after it.
   */
  lemma RetryAfterReplacesOneWait(cfg: Config, turns: nat -> Turn, k: nat)
    requires cfg.maxRetries > 0 && k < WaitsBegun(cfg, turns, LastTurn(cfg, turns, 0))
    requires Initial(cfg) < TWO62 && MaxWait(cfg) < TWO62
    ensures LastTurn(cfg, turns, 0) + 1 <= cfg.maxRetries + 1 && k < cfg.maxRetries
    ensures var e, r := EventOf(cfg, turns, k), AttemptResult(cfg, k, turns(k));
      && e.attempt == k + 1 && Retryable(r)
      && (e.err.Some? <==> r.Failed?) && (e.err.None? ==> Transient(e.status))
      && var replaced := r.Got? && r.resp.status == 429 && ParseRetryAfter(r.resp.retryAfter) > 0;
         e.wait == if replaced then ParseRetryAfter(r.resp.retryAfter) else Progression(Initial(cfg), MaxWait(cfg), k)
  {
    EveryWaitFollowsTheProgressionIff(Initial(cfg), MaxWait(cfg));
    assert k < LastTurn(cfg, turns, 0) ==> Continues(cfg, turns, k);
  }

  // ---------- Retry-After ----------

  /** A 429 after which attempt `k` waits. */
  predicate TooManyRequests(cfg: Config, turns: nat -> Turn, k: nat, retryAfter: RetryAfter) {
    var r := AttemptResult(cfg, k, turns(k));
    r.Got? && r.resp.status == 429 && r.resp.retryAfter == retryAfter
  }

  /** A duration of the source: a signed 64-bit count of nanoseconds. */
  predicate IsDuration(d: int) { -TWO63 <= d < TWO63 }

  lemma {:induction false} BackoffIsDuration(initial: int, max: int, k: nat)
    requires Durations(initial, max)
    ensures IsDuration(Backoff(initial, max, k))
  {
  }

  /**
   After a 429 with delta-seconds n, the wait begun, which is the wait told to the hook,
   is n seconds exactly while that is positive and fits a duration.
   */
  lemma DeltaSecondsAreWaitedIff(cfg: Config, turns: nat -> Turn, k: nat, n: int)
    requires TooManyRequests(cfg, turns, k, Seconds(n)) && n > 0 && Durations(Initial(cfg), MaxWait(cfg))
    ensures EventOf(cfg, turns, k).wait == n * 1_000_000_000 <==> n * 1_000_000_000 < 0x8000_0000_0000_0000
  {
    BackoffIsDuration(Initial(cfg), MaxWait(cfg), k);
  }

  /**
   A date gives the time left until it; zero or negative seconds, a date gone by, and an
   absent or unparseable header leave the wait of the progression.
   */
  lemma OtherwiseTheProgressionIsWaited(cfg: Config, turns: nat -> Turn, k: nat, header: RetryAfter)
    requires TooManyRequests(cfg, turns, k, header) && Initial(cfg) < TWO62 && MaxWait(cfg) < TWO62
    ensures header.Until? && header.d > 0 ==> EventOf(cfg, turns, k).wait == header.d
    ensures header.Absent? || header.Unparseable? || (header.Until? && header.d <= 0)
            || (header.Seconds? && -0x8000_0000_0000_0000 <= header.n * 1_000_000_000 <= 0) ==>
      EventOf(cfg, turns, k).wait == Progression(Initial(cfg), MaxWait(cfg), k)
  {
    EveryWaitFollowsTheProgressionIff(Initial(cfg), MaxWait(cfg));
  }

  /** What `RoundTrip` waits and tells the hook, place by place. */
  lemma WaitsAndEventsAgree(cfg: Config, turns: nat -> Turn, n: nat, k: nat)
    requires k < n
    ensures Waits(cfg, turns, n)[k] == Events(cfg, turns, n)[k].wait == EventOf(cfg, turns, k).wait
    ensures Events(cfg, turns, n)[k].attempt == k + 1
  {
  }

  /** Unset or negative backoffs mean two seconds, up to a minute. */
  lemma Defaults(cfg: Config)
    ensures cfg.initialBackoff <= 0 ==> Initial(cfg) == 2_000_000_000
    ensures cfg.maxBackoff <= 0 ==> MaxWait(cfg) == 60_000_000_000
    ensures cfg.initialBackoff > 0 ==> Initial(cfg) == cfg.initialBackoff
    ensures cfg.maxBackoff > 0 ==> MaxWait(cfg) == cfg.maxBackoff
  {
  }

  /**
   Whether an attempt is followed by another: always after a network error or a timeout,
   and after a response with one of the six transient statuses and no other, as long as
   retries are left and the caller's context lasts through the wait.
   */
  lemma RetriedIff(cfg: Config, turns: nat -> Turn, k: nat)
    ensures Continues(cfg, turns, k) <==>
      && !turns(k).doneBefore && turns(k).sleepFinishes && k < cfg.maxRetries
      && var r := AttemptResult(cfg, k, turns(k));
         r.Got? ==> r.resp.status == 429 || r.resp.status == 500 || r.resp.status == 502
                    || r.resp.status == 503 || r.resp.status == 504 || r.resp.status == 529
  {
  }
}
