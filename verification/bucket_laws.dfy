/** What the token bucket promises over any sequence of calls whose clock readings
    follow the order in which they take the buckets. */
module BucketLaws {
  import opened Buckets

  function LimitsOf(cfg: Config, key: string): Limits
  {
    cfg.For(ClassOf(key))
  }

  /** The tokens a call for `key` would find at time `t`. */
  function Available(cfg: Config, buckets: map<string, Bucket>, key: string, t: real): real
  {
    if key in buckets then Refilled(LimitsOf(cfg, key), buckets[key], t) else LimitsOf(cfg, key).burst as real
  }

  ghost predicate BucketOk(limits: Limits, b: Bucket, t: real)
  {
    limits.refill > 0.0 && 0.0 <= b.tokens <= limits.burst as real && b.lastRefill == b.lastSeen <= t
  }

  ghost predicate Inv(cfg: Config, s: State, t: real)
  {
    forall k | k in s.buckets :: BucketOk(LimitsOf(cfg, k), s.buckets[k], t)
  }

  /** An idle bucket is full again by the time it may be swept. */
  predicate RefillCovers(limits: Limits)
  {
    limits.refill * IDLE_BUCKET_TTL >= limits.burst as real
  }

  // ---------------------------------------------------------------- refilling

  lemma {:induction false} Scaled(a: real, b: real, factor: real)
    requires a <= b && factor >= 0.0
    ensures a * factor <= b * factor
  {
  }

  function Earned(rate: real, t1: real, t2: real): real
  {
    (t2 - t1) * rate
  }

  lemma {:induction false} Gain(duration: real, rate: real)
    requires duration >= 0.0 && rate >= 0.0
    ensures duration * rate >= 0.0
  {
  }

  lemma {:induction false} Additive(t1: real, t2: real, t3: real, rate: real)
    ensures Earned(rate, t1, t2) + Earned(rate, t2, t3) == Earned(rate, t1, t3)
  {
  }

  /** `rate` is the refill rate of the key's class, which is enabled. */
  ghost predicate Rated(cfg: Config, key: string, rate: real)
  {
    cfg.Valid() && !LimitsOf(cfg, key).Disabled() && rate == LimitsOf(cfg, key).refill
  }

  ghost predicate Covered(cfg: Config, key: string, rate: real)
  {
    Rated(cfg, key, rate) && RefillCovers(LimitsOf(cfg, key))
  }

  /** Refilling in two steps is refilling once. */
  lemma {:induction false} RefillSplit(limits: Limits, rate: real, b: Bucket, t1: real, t2: real)
    requires rate == limits.refill > 0.0 && b.lastRefill <= t1 <= t2
    ensures Refilled(limits, Bucket(Refilled(limits, b, t1), t1, t1), t2) == Refilled(limits, b, t2)
    ensures Refilled(limits, b, t1) <= Refilled(limits, b, t2) <= Refilled(limits, b, t1) + Earned(rate, t1, t2)
  {
    Additive(b.lastRefill, t1, t2, rate);
    Gain(t2 - t1, rate);
  }

  lemma {:induction false} RefillBounds(limits: Limits, b: Bucket, t: real)
    requires BucketOk(limits, b, t)
    ensures 0.0 <= Refilled(limits, b, t) <= limits.burst as real
  {
    Scaled(0.0, Elapsed(t, b.lastRefill), limits.refill);
  }

  /** Whatever the sweep drops was full. */
  lemma {:induction false} IdleIsFull(limits: Limits, b: Bucket, sweepNow: real, now: real)
    requires RefillCovers(limits) && BucketOk(limits, b, now) && sweepNow <= now
    requires Elapsed(sweepNow, b.lastSeen) >= IDLE_BUCKET_TTL
    ensures Refilled(limits, b, now) == limits.burst as real
  {
    Scaled(IDLE_BUCKET_TTL, Elapsed(now, b.lastRefill), limits.refill);
  }

  // ------------------------------------------------------------- one call

  function Spent(outcome: Outcome): real
  {
    if outcome.Admitted? then 1.0 else 0.0
  }

  function Step(cfg: Config, s: State, call: Call, sweeping: bool): (State, Outcome)
  {
    if sweeping then Answer(cfg, s, call)
    else
      var limits := cfg.For(call.qosClass);
      if limits.Disabled() then (s, Admitted) else TakeKey(cfg, s, Key(call.qosClass, call.subject), limits, call.now)
  }

  predicate WellTimed(call: Call)
  {
    Plain(call.qosClass) && call.sweepNow <= call.now
  }

  function CallKey(call: Call): string
  {
    Key(call.qosClass, call.subject)
  }

  lemma {:induction false} TakeOk(limits: Limits, b: Bucket, now: real)
    requires BucketOk(limits, b, now)
    ensures BucketOk(limits, Take(limits, b, now).0, now)
    ensures var (b', outcome) := Take(limits, b, now);
            outcome.Admitted? == (Refilled(limits, b, now) >= 1.0) &&
            Refilled(limits, b', now) == Refilled(limits, b, now) - Spent(outcome)
  {
    RefillBounds(limits, b, now);
    var b' := Take(limits, b, now).0;
    assert Elapsed(now, now) * limits.refill == 0.0;
  }

  /** The bucket a call finds, present or new, and what it leaves. */
  lemma {:induction false} TakeKeyLaw(cfg: Config, s: State, key: string, now: real)
    requires cfg.Valid() && Inv(cfg, s, now) && !LimitsOf(cfg, key).Disabled()
    ensures var (s', outcome) := TakeKey(cfg, s, key, LimitsOf(cfg, key), now);
            && Inv(cfg, s', now)
            && (forall k | k != key ::
                (k in s'.buckets <==> k in s.buckets) && (k in s.buckets ==> s'.buckets[k] == s.buckets[k]))
            && Available(cfg, s'.buckets, key, now) == Available(cfg, s.buckets, key, now) - Spent(outcome)
            && (key in s.buckets || |s.buckets| < cfg.maxKeys ==>
                  outcome.Admitted? == (Available(cfg, s.buckets, key, now) >= 1.0) && key in s'.buckets)
  {
    var limits := LimitsOf(cfg, key);
    var b := if key in s.buckets then s.buckets[key] else Fresh(limits, now);
    assert Refilled(limits, Fresh(limits, now), now) == limits.burst as real by {
      assert Elapsed(now, now) * limits.refill == 0.0;
    }
    TakeOk(limits, b, now);
  }

  /** Sweeping leaves what every covered key would find as it was. */
  lemma {:induction false} SweepAvailable(cfg: Config, s: State, sweepNow: real, now: real, key: string)
    requires cfg.Valid() && Inv(cfg, s, now) && sweepNow <= now && RefillCovers(LimitsOf(cfg, key))
    ensures Inv(cfg, Swept(s, sweepNow), now)
    ensures Available(cfg, Swept(s, sweepNow).buckets, key, now) == Available(cfg, s.buckets, key, now)
  {
    if key in s.buckets && key !in Swept(s, sweepNow).buckets {
      IdleIsFull(LimitsOf(cfg, key), s.buckets[key], sweepNow, now);
    }
  }

  lemma {:induction false} InvLater(cfg: Config, s: State, t: real, now: real)
    requires Inv(cfg, s, t) && t <= now
    ensures Inv(cfg, s, now)
  {
  }

  /** One call costs its key exactly one token when admitted and nothing else. */
  lemma {:induction false} CallCost(cfg: Config, s: State, call: Call, sweeping: bool, key: string)
    requires cfg.Valid() && Inv(cfg, s, call.now) && WellTimed(call) && !LimitsOf(cfg, key).Disabled()
    requires sweeping ==> RefillCovers(LimitsOf(cfg, key))
    ensures var (s', outcome) := Step(cfg, s, call, sweeping);
            Available(cfg, s'.buckets, key, call.now) ==
            Available(cfg, s.buckets, key, call.now) - if outcome.Admitted? && CallKey(call) == key then 1.0 else 0.0
  {
    ClassOfKey(call.qosClass, call.subject);
    if !cfg.For(call.qosClass).Disabled() {
      if sweeping {
        SweepAvailable(cfg, s, call.sweepNow, call.now, key);
        TakeKeyLaw(cfg, Swept(s, call.sweepNow), CallKey(call), call.now);
      } else {
        TakeKeyLaw(cfg, s, CallKey(call), call.now);
      }
    }
  }

  lemma {:induction false} StepKeepsInv(cfg: Config, s: State, call: Call, sweeping: bool)
    requires cfg.Valid() && Inv(cfg, s, call.now) && WellTimed(call)
    ensures Inv(cfg, Step(cfg, s, call, sweeping).0, call.now)
  {
    ClassOfKey(call.qosClass, call.subject);
    if !cfg.For(call.qosClass).Disabled() {
      TakeKeyLaw(cfg, if sweeping then Swept(s, call.sweepNow) else s, CallKey(call), call.now);
    }
  }

  lemma {:induction false} AvailableGrows(cfg: Config, s: State, key: string, rate: real, t1: real, t2: real)
    requires Rated(cfg, key, rate) && Inv(cfg, s, t1) && t1 <= t2
    ensures Available(cfg, s.buckets, key, t2) <= Available(cfg, s.buckets, key, t1) + Earned(rate, t1, t2)
  {
    if key in s.buckets {
      RefillSplit(LimitsOf(cfg, key), rate, s.buckets[key], t1, t2);
    } else {
      Gain(t2 - t1, rate);
    }
  }

  /** What a call costs its key, and what it may be paid from: the tokens of an
      earlier moment and what time has added since. */
  lemma {:induction false} CallBudget(cfg: Config, s: State, call: Call, sweeping: bool, key: string, rate: real,
      earlier: real, now: real)
    requires Rated(cfg, key, rate) && (sweeping ==> RefillCovers(LimitsOf(cfg, key)))
    requires Inv(cfg, s, earlier) && earlier <= now == call.now && WellTimed(call)
    ensures var (s', outcome) := Step(cfg, s, call, sweeping);
            Hit(call, outcome, key) as real + Available(cfg, s'.buckets, key, now)
            <= Available(cfg, s.buckets, key, earlier) + Earned(rate, earlier, now)
  {
    InvLater(cfg, s, earlier, now);
    CallCost(cfg, s, call, sweeping, key);
    AvailableGrows(cfg, s, key, rate, earlier, now);
  }

  function Hit(call: Call, outcome: Outcome, key: string): nat
  {
    if CallKey(call) == key && outcome.Admitted? then 1 else 0
  }

  // ------------------------------------------------------------ many calls

  /** A server answers one call in a state. */
  type Server = (State, Call) -> (State, Outcome)

  const EMPTY := State(map[], 0)

  /** Clock readings follow the order in which calls take the buckets. */
  ghost predicate Ordered(since: real, calls: seq<Call>)
    decreases calls
  {
    calls == [] || (WellTimed(calls[0]) && since <= calls[0].now && Ordered(calls[0].now, calls[1..]))
  }

  ghost function LastReading(since: real, calls: seq<Call>): real
    decreases calls
  {
    if calls == [] then since else LastReading(calls[0].now, calls[1..])
  }

  ghost function After(server: Server, s: State, calls: seq<Call>): State
    decreases calls
  {
    if calls == [] then s else After(server, server(s, calls[0]).0, calls[1..])
  }

  ghost function Outcomes(server: Server, s: State, calls: seq<Call>): seq<Outcome>
    decreases calls
  {
    if calls == [] then [] else [server(s, calls[0]).1] + Outcomes(server, server(s, calls[0]).0, calls[1..])
  }

  /** How often `key` is admitted. */
  ghost function Hits(server: Server, s: State, calls: seq<Call>, key: string): nat
    decreases calls
  {
    if calls == [] then 0
    else Hit(calls[0], server(s, calls[0]).1, key) + Hits(server, server(s, calls[0]).0, calls[1..], key)
  }

  /** The server of the source, and one that keeps every bucket for ever. */
  ghost function Sweeping(cfg: Config): Server
  {
    (s, call) => Answer(cfg, s, call)
  }

  ghost function Keeping(cfg: Config): Server
  {
    (s, call) => Step(cfg, s, call, false)
  }

  ghost function Serving(cfg: Config, sweeping: bool): Server
  {
    if sweeping then Sweeping(cfg) else Keeping(cfg)
  }

  lemma {:induction false} OrderedSplit(since: real, first: seq<Call>, second: seq<Call>)
    requires Ordered(since, first + second)
    ensures Ordered(since, first) && Ordered(LastReading(since, first), second)
    decreases first
  {
    if first == [] {
      assert first + second == second;
    } else {
      assert (first + second)[1..] == first[1..] + second;
      OrderedSplit(first[0].now, first[1..], second);
    }
  }

  lemma {:induction false} AfterInv(cfg: Config, s: State, calls: seq<Call>, since: real)
    requires cfg.Valid() && Inv(cfg, s, since) && Ordered(since, calls)
    ensures Inv(cfg, After(Sweeping(cfg), s, calls), LastReading(since, calls)) && since <= LastReading(since, calls)
    decreases calls
  {
    if calls != [] {
      InvLater(cfg, s, since, calls[0].now);
      StepKeepsInv(cfg, s, calls[0], true);
      AfterInv(cfg, Answer(cfg, s, calls[0]).0, calls[1..], calls[0].now);
    }
  }

  // --------------------------------------------------------- the window bound

  lemma {:induction false} AvailableBounds(cfg: Config, s: State, key: string, t: real)
    requires cfg.Valid() && Inv(cfg, s, t) && !LimitsOf(cfg, key).Disabled()
    ensures 0.0 <= Available(cfg, s.buckets, key, t) <= LimitsOf(cfg, key).burst as real
  {
    if key in s.buckets {
      RefillBounds(LimitsOf(cfg, key), s.buckets[key], t);
    }
  }

  /** Whatever is admitted was there at the start or earned since. */
  lemma {:induction false} Budget(cfg: Config, s: State, calls: seq<Call>, sweeping: bool, key: string, rate: real,
      since: real)
    requires Rated(cfg, key, rate) && (sweeping ==> RefillCovers(LimitsOf(cfg, key)))
    requires Inv(cfg, s, since) && Ordered(since, calls)
    ensures Hits(Serving(cfg, sweeping), s, calls, key) as real <=
        Available(cfg, s.buckets, key, since) + Earned(rate, since, LastReading(since, calls))
    decreases calls
  {
    if calls == [] {
      AvailableBounds(cfg, s, key, since);
      Additive(since, since, since, rate);
    } else {
      var s', now := Step(cfg, s, calls[0], sweeping).0, calls[0].now;
      InvLater(cfg, s, since, now);
      StepKeepsInv(cfg, s, calls[0], sweeping);
      Budget(cfg, s', calls[1..], sweeping, key, rate, now);
      CallBudget(cfg, s, calls[0], sweeping, key, rate, since, now);
      Additive(since, now, LastReading(now, calls[1..]), rate);
    }
  }

  /** In any window a key is admitted at most burst + refill * window times. */
  lemma {:induction false} WindowBound(cfg: Config, before: seq<Call>, window: seq<Call>, key: string, since: real,
      opens: real, closes: real, rate: real)
    requires Covered(cfg, key, rate) && Ordered(since, before + window)
    requires window != [] && opens == window[0].now && closes == LastReading(opens, window)
    ensures Hits(Sweeping(cfg), After(Sweeping(cfg), EMPTY, before), window, key) as real <=
        LimitsOf(cfg, key).burst as real + Earned(rate, opens, closes)
  {
    var s := After(Sweeping(cfg), EMPTY, before);
    OrderedSplit(since, before, window);
    AfterInv(cfg, EMPTY, before, since);
    InvLater(cfg, s, LastReading(since, before), opens);
    Budget(cfg, s, window, true, key, rate, opens);
    AvailableBounds(cfg, s, key, opens);
  }
}
