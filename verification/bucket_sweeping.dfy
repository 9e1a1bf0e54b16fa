/** Dropping idle buckets, and the advice given to rejected callers. */
module BucketSweeping {
  import opened Buckets
  import opened BucketLaws

  // ---------------------------------------------------- sweeping is invisible

  ghost predicate AllCovered(cfg: Config)
  {
    cfg.Valid() && RefillCovers(cfg.main) && RefillCovers(cfg.premium)
  }

  /** A swept map is a kept one less some buckets that are full. */
  ghost predicate Shadow(cfg: Config, swept: map<string, Bucket>, kept: map<string, Bucket>, t: real)
  {
    && (forall k | k in swept :: k in kept && kept[k] == swept[k])
    && (forall k | k in kept && k !in swept :: Refilled(LimitsOf(cfg, k), kept[k], t) == LimitsOf(cfg, k).burst as real)
  }

  lemma {:induction false} ShadowLater(cfg: Config, swept: State, kept: State, t: real, now: real)
    requires Shadow(cfg, swept.buckets, kept.buckets, t) && Inv(cfg, kept, t) && t <= now
    ensures Shadow(cfg, swept.buckets, kept.buckets, now)
  {
    forall k | k in kept.buckets && k !in swept.buckets
      ensures Refilled(LimitsOf(cfg, k), kept.buckets[k], now) == LimitsOf(cfg, k).burst as real
    {
      var limits := LimitsOf(cfg, k);
      RefillSplit(limits, limits.refill, kept.buckets[k], t, now);
      RefillBounds(limits, kept.buckets[k], now);
    }
  }

  lemma {:induction false} ShadowSwept(cfg: Config, swept: State, kept: State, sweepNow: real, now: real)
    requires AllCovered(cfg) && Shadow(cfg, swept.buckets, kept.buckets, now) && Inv(cfg, kept, now) && sweepNow <= now
    ensures Shadow(cfg, Swept(swept, sweepNow).buckets, kept.buckets, now)
  {
    var s := Swept(swept, sweepNow);
    forall k | k in kept.buckets && k !in s.buckets
      ensures Refilled(LimitsOf(cfg, k), kept.buckets[k], now) == LimitsOf(cfg, k).burst as real
    {
      if k in swept.buckets {
        IdleIsFull(LimitsOf(cfg, k), kept.buckets[k], sweepNow, now);
      }
    }
  }

  /** The call does not meet the key limit. */
  predicate Fits(cfg: Config, kept: State, call: Call)
  {
    CallKey(call) in kept.buckets || |kept.buckets| < cfg.maxKeys
  }

  lemma {:induction false} SmallerMap(a: map<string, Bucket>, b: map<string, Bucket>)
    requires forall k | k in a :: k in b
    ensures |a| <= |b| && (forall k | k in b && k !in a :: |a| < |b|)
  {
    assert a.Keys <= b.Keys;
    assert b.Keys == a.Keys + (b.Keys - a.Keys);
    assert |a| == |a.Keys| && |b| == |b.Keys|;
  }

  /** What a call finds in a fresh bucket is what it finds in a full one. */
  lemma {:induction false} FreshIsFull(limits: Limits, b: Bucket, now: real)
    requires Refilled(limits, b, now) == limits.burst as real
    ensures Take(limits, Fresh(limits, now), now) == Take(limits, b, now)
  {
    assert Elapsed(now, now) * limits.refill == 0.0;
  }

  lemma {:induction false} ShadowTake(cfg: Config, swept: State, kept: State, key: string, now: real)
    requires Shadow(cfg, swept.buckets, kept.buckets, now) && |kept.buckets| <= cfg.maxKeys
    requires key in kept.buckets || |kept.buckets| < cfg.maxKeys
    ensures var (swept', outcome) := TakeKey(cfg, swept, key, LimitsOf(cfg, key), now);
            var (kept', outcome') := TakeKey(cfg, kept, key, LimitsOf(cfg, key), now);
            outcome == outcome' && Shadow(cfg, swept'.buckets, kept'.buckets, now) && |kept'.buckets| <= cfg.maxKeys
  {
    SmallerMap(swept.buckets, kept.buckets);
    if key in kept.buckets && key !in swept.buckets {
      FreshIsFull(LimitsOf(cfg, key), kept.buckets[key], now);
    }
    if key in kept.buckets {
      assert kept.buckets[key := Take(LimitsOf(cfg, key), kept.buckets[key], now).0].Keys == kept.buckets.Keys;
    } else {
      assert kept.buckets[key := Take(LimitsOf(cfg, key), Fresh(LimitsOf(cfg, key), now), now).0].Keys ==
        kept.buckets.Keys + {key};
    }
  }

  lemma {:induction false} ShadowCall(cfg: Config, swept: State, kept: State, call: Call, t: real)
    requires AllCovered(cfg) && Shadow(cfg, swept.buckets, kept.buckets, t) && Inv(cfg, kept, t)
    requires |kept.buckets| <= cfg.maxKeys && Fits(cfg, kept, call) && WellTimed(call) && t <= call.now
    ensures var (swept', outcome) := Step(cfg, swept, call, true);
            var (kept', outcome') := Step(cfg, kept, call, false);
            && outcome == outcome' && Shadow(cfg, swept'.buckets, kept'.buckets, call.now)
            && |kept'.buckets| <= cfg.maxKeys
  {
    ShadowLater(cfg, swept, kept, t, call.now);
    InvLater(cfg, kept, t, call.now);
    ClassOfKey(call.qosClass, call.subject);
    if !cfg.For(call.qosClass).Disabled() {
      ShadowSwept(cfg, swept, kept, call.sweepNow, call.now);
      ShadowTake(cfg, Swept(swept, call.sweepNow), kept, CallKey(call), call.now);
    }
  }

  /** The key limit is never met by the map that keeps everything. */
  ghost predicate Roomy(cfg: Config, kept: State, calls: seq<Call>)
    decreases calls
  {
    calls == [] || (Fits(cfg, kept, calls[0]) && Roomy(cfg, Keeping(cfg)(kept, calls[0]).0, calls[1..]))
  }

  lemma {:induction false} SameOutcomes(cfg: Config, swept: State, kept: State, calls: seq<Call>, since: real)
    requires AllCovered(cfg) && Shadow(cfg, swept.buckets, kept.buckets, since) && Inv(cfg, kept, since)
    requires |kept.buckets| <= cfg.maxKeys && Ordered(since, calls) && Roomy(cfg, kept, calls)
    ensures Outcomes(Sweeping(cfg), swept, calls) == Outcomes(Keeping(cfg), kept, calls)
    decreases calls
  {
    if calls != [] {
      ShadowCall(cfg, swept, kept, calls[0], since);
      InvLater(cfg, kept, since, calls[0].now);
      StepKeepsInv(cfg, kept, calls[0], false);
      SameOutcomes(cfg, Step(cfg, swept, calls[0], true).0, Step(cfg, kept, calls[0], false).0, calls[1..],
        calls[0].now);
    }
  }

  /** When idle buckets are full by the time they may be dropped, and the key
      limit is not met, no caller can tell a swept map from one never swept. */
  lemma {:induction false} SweepingInvisible(cfg: Config, calls: seq<Call>, since: real)
    requires AllCovered(cfg) && Ordered(since, calls) && Roomy(cfg, EMPTY, calls)
    ensures Outcomes(Sweeping(cfg), EMPTY, calls) == Outcomes(Keeping(cfg), EMPTY, calls)
  {
    SameOutcomes(cfg, EMPTY, EMPTY, calls, since);
  }

  // --------------------------------------------------------- the retry advice

  /** The key keeps its bucket and is not admitted. */
  ghost predicate Undisturbed(cfg: Config, s: State, calls: seq<Call>, key: string)
    decreases calls
  {
    calls == [] ||
    var (s', outcome) := Answer(cfg, s, calls[0]);
    key in s'.buckets && Hit(calls[0], outcome, key) == 0 && Undisturbed(cfg, s', calls[1..], key)
  }

  /** A rejected attempt only brings the bucket up to date. */
  lemma {:induction false} RejectionKeeps(cfg: Config, s: State, call: Call, key: string, later: real)
    requires cfg.Valid() && Inv(cfg, s, call.now) && WellTimed(call) && call.now <= later
    requires key in s.buckets && !LimitsOf(cfg, key).Disabled()
    requires var (s', outcome) := Answer(cfg, s, call); key in s'.buckets && Hit(call, outcome, key) == 0
    ensures Refilled(LimitsOf(cfg, key), Answer(cfg, s, call).0.buckets[key], later) ==
        Refilled(LimitsOf(cfg, key), s.buckets[key], later)
  {
    var limits, base := LimitsOf(cfg, key), Swept(s, call.sweepNow);
    ClassOfKey(call.qosClass, call.subject);
    if CallKey(call) == key {
      TakeKeyLaw(cfg, base, key, call.now);
      if key in base.buckets {
        RefillSplit(limits, limits.refill, s.buckets[key], call.now, later);
      }
    }
  }

  lemma {:induction false} StillShort(cfg: Config, s: State, calls: seq<Call>, key: string, since: real, later: real)
    requires cfg.Valid() && Inv(cfg, s, since) && Ordered(since, calls) && LastReading(since, calls) <= later
    requires key in s.buckets && !LimitsOf(cfg, key).Disabled() && Undisturbed(cfg, s, calls, key)
    ensures var s' := After(Sweeping(cfg), s, calls);
            && key in s'.buckets
            && Refilled(LimitsOf(cfg, key), s'.buckets[key], later) ==
                Refilled(LimitsOf(cfg, key), s.buckets[key], later)
    decreases calls
  {
    if calls != [] {
      InvLater(cfg, s, since, calls[0].now);
      StepKeepsInv(cfg, s, calls[0], true);
      AfterInv(cfg, Answer(cfg, s, calls[0]).0, calls[1..], calls[0].now);
      RejectionKeeps(cfg, s, calls[0], key, later);
      StillShort(cfg, Answer(cfg, s, calls[0]).0, calls[1..], key, calls[0].now, later);
    }
  }

  /** Enough time to earn what is missing, in exact terms. */
  lemma {:induction false} EnoughTime(limits: Limits, b: Bucket, t: real)
    requires limits.burst > 0 && b.lastRefill <= t && b.tokens < 1.0
    ensures Refilled(limits, b, t) >= 1.0 <==> Earned(limits.refill, b.lastRefill, t) >= 1.0 - b.tokens
  {
    if t == b.lastRefill {
      Additive(t, t, t, limits.refill);
    }
  }

  /** Whether the advice fits in a `u64`. */
  predicate Expressible(limits: Limits, tokens: real)
  {
    Earned(limits.refill, 0.0, U64_MAX as real) >= 1.0 - tokens
  }

  lemma {:induction false} EarnsMore(rate: real, a1: real, a2: real, b1: real, b2: real)
    requires rate > 0.0
    ensures a2 - a1 <= b2 - b1 <==> Earned(rate, a1, a2) <= Earned(rate, b1, b2)
  {
    var d := (b2 - b1) - (a2 - a1);
    assert Earned(rate, b1, b2) - Earned(rate, a1, a2) == d * rate;
    assert d > 0.0 ==> d * rate > 0.0;
    assert d < 0.0 ==> d * rate < 0.0;
  }

  lemma {:induction false} EarnsIn(rate: real, need: real)
    requires rate > 0.0
    ensures Earned(rate, 0.0, need / rate) == need
  {
  }

  /** The advice is the least whole second, and at least one, that earns what is
      missing; when it does not fit, waiting for it is not enough. */
  lemma {:induction false} AdviceIsLeast(limits: Limits, tokens: real, seconds: nat)
    requires limits.refill > 0.0 && tokens < 1.0 && seconds >= 1
    ensures Expressible(limits, tokens) ==>
              (Earned(limits.refill, 0.0, seconds as real) >= 1.0 - tokens <==> seconds >= RetryAfter(limits, tokens))
    ensures !Expressible(limits, tokens) && seconds <= RetryAfter(limits, tokens) ==>
        Earned(limits.refill, 0.0, seconds as real) < 1.0 - tokens
  {
    var exact := (1.0 - tokens) / limits.refill;
    EarnsIn(limits.refill, 1.0 - tokens);
    EarnsMore(limits.refill, 0.0, exact, 0.0, seconds as real);
    EarnsMore(limits.refill, 0.0, exact, 0.0, U64_MAX as real);
  }

  /** A bucket short of tokens at its last refill holds one from the advised
      second on, and at no earlier whole second. */
  lemma {:induction false} FullFrom(limits: Limits, b: Bucket, t: real)
    requires limits.burst > 0 && limits.refill > 0.0 && b.lastRefill <= t && b.tokens < 1.0
    requires Expressible(limits, b.tokens) && t >= b.lastRefill + RetryAfter(limits, b.tokens) as real
    ensures Refilled(limits, b, t) >= 1.0
  {
    var retry := RetryAfter(limits, b.tokens);
    AdviceIsLeast(limits, b.tokens, retry);
    EarnsMore(limits.refill, 0.0, retry as real, b.lastRefill, t);
    EnoughTime(limits, b, t);
  }

  lemma {:induction false} ShortUntil(limits: Limits, b: Bucket, seconds: nat, t: real)
    requires limits.burst > 0 && limits.refill > 0.0 && b.lastRefill <= t && b.tokens < 1.0
    requires 1 <= seconds && t <= b.lastRefill + seconds as real
    requires if Expressible(limits, b.tokens) then seconds < RetryAfter(limits, b.tokens)
      else seconds <= RetryAfter(limits, b.tokens)
    ensures Refilled(limits, b, t) < 1.0
  {
    AdviceIsLeast(limits, b.tokens, seconds);
    EarnsMore(limits.refill, b.lastRefill, t, 0.0, seconds as real);
    EnoughTime(limits, b, t);
  }

  /** A call of a key that ran short of tokens, and its bucket afterwards. */
  ghost predicate RanShort(cfg: Config, s: State, call: Call, b: Bucket, retry: nat)
  {
    var (s', outcome) := Answer(cfg, s, call);
    outcome == Rejected(retry) && CallKey(call) in s'.buckets && b == s'.buckets[CallKey(call)]
  }

  lemma {:induction false} ShortBucket(cfg: Config, s: State, call: Call, b: Bucket, retry: nat)
    requires cfg.Valid() && Inv(cfg, s, call.now) && WellTimed(call) && RanShort(cfg, s, call, b, retry)
    ensures var limits := LimitsOf(cfg, CallKey(call));
            && limits.burst > 0 && limits.refill > 0.0 && b.lastRefill == call.now && b.tokens < 1.0
            && retry == RetryAfter(limits, b.tokens)
  {
    ClassOfKey(call.qosClass, call.subject);
  }

  /** The same key asks again while its bucket is still there, after attempts
      that were all rejected. */
  ghost predicate AsksAgain(cfg: Config, s: State, call: Call, between: seq<Call>, again: Call)
  {
    var s' := Answer(cfg, s, call).0;
    && Ordered(call.now, between) && Undisturbed(cfg, s', between, CallKey(call))
    && WellTimed(again) && LastReading(call.now, between) <= again.now && CallKey(again) == CallKey(call)
    && CallKey(call) in Swept(After(Sweeping(cfg), s', between), again.sweepNow).buckets
  }

  /** The answer depends only on the time since the rejection. */
  lemma {:induction false} AnswerAgain(cfg: Config, s: State, call: Call, between: seq<Call>, again: Call, b: Bucket,
      retry: nat)
    requires cfg.Valid() && Inv(cfg, s, call.now) && WellTimed(call) && RanShort(cfg, s, call, b, retry)
    requires AsksAgain(cfg, s, call, between, again)
    ensures Answer(cfg, After(Sweeping(cfg), Answer(cfg, s, call).0, between), again).1.Admitted? <==>
            Refilled(LimitsOf(cfg, CallKey(call)), b, again.now) >= 1.0
  {
    var key, s1 := CallKey(call), Answer(cfg, s, call).0;
    ShortBucket(cfg, s, call, b, retry);
    StepKeepsInv(cfg, s, call, true);
    StillShort(cfg, s1, between, key, call.now, again.now);
    var s2 := After(Sweeping(cfg), s1, between);
    AfterInv(cfg, s1, between, call.now);
    InvLater(cfg, s2, LastReading(call.now, between), again.now);
    ClassOfKey(call.qosClass, call.subject);
    ClassOfKey(again.qosClass, again.subject);
    TakeKeyLaw(cfg, Swept(s2, again.sweepNow), key, again.now);
  }

  /** After a rejection with advice `retry`, however many rejected attempts come
      in between, the key is admitted from `retry` seconds on and at no earlier
      whole second, exactly when the advice fits in its type. */
  lemma {:induction false} RetryAfterHonoured(cfg: Config, s: State, call: Call, between: seq<Call>, again: Call,
      b: Bucket, retry: nat)
    requires cfg.Valid() && Inv(cfg, s, call.now) && WellTimed(call) && RanShort(cfg, s, call, b, retry)
    requires AsksAgain(cfg, s, call, between, again)
    ensures var admitted := Answer(cfg, After(Sweeping(cfg), Answer(cfg, s, call).0, between), again).1.Admitted?;
            var expressible := Expressible(LimitsOf(cfg, CallKey(call)), b.tokens);
            && retry >= 1
            && (expressible && again.now >= call.now + retry as real ==> admitted)
            && (retry > 1 && again.now <= call.now + (retry - 1) as real ==> !admitted)
            && (!expressible && again.now <= call.now + retry as real ==> !admitted)
  {
    var limits := LimitsOf(cfg, CallKey(call));
    ShortBucket(cfg, s, call, b, retry);
    AnswerAgain(cfg, s, call, between, again, b, retry);
    StepKeepsInv(cfg, s, call, true);
    AfterInv(cfg, Answer(cfg, s, call).0, between, call.now);
    if Expressible(limits, b.tokens) && again.now >= call.now + retry as real {
      FullFrom(limits, b, again.now);
    }
    if retry > 1 && again.now <= call.now + (retry - 1) as real {
      ShortUntil(limits, b, retry - 1, again.now);
    }
    if !Expressible(limits, b.tokens) && again.now <= call.now + retry as real {
      ShortUntil(limits, b, retry, again.now);
    }
  }

  /** One token, refilled so slowly that no advice for an empty bucket fits. */
  ghost predicate Slow(limits: Limits)
  {
    limits.burst == 1 && limits.refill > 0.0 && !Expressible(limits, 0.0)
  }

  lemma {:induction false} SlowAdvice(limits: Limits)
    requires Slow(limits)
    ensures RetryAfter(limits, 0.0) == U64_MAX
  {
    EarnsIn(limits.refill, 1.0);
    EarnsMore(limits.refill, 0.0, 1.0 / limits.refill, 0.0, U64_MAX as real);
  }

  const DRAINED := Bucket(0.0, 0.0, 0.0)

  lemma {:induction false} SlowTakes(limits: Limits)
    requires Slow(limits)
    ensures Take(limits, Fresh(limits, 0.0), 0.0) == (DRAINED, Admitted)
    ensures Take(limits, DRAINED, 0.0) == (DRAINED, Rejected(U64_MAX))
    ensures Take(limits, DRAINED, U64_MAX as real).1.Rejected?
  {
    SlowAdvice(limits);
    ShortUntil(limits, DRAINED, U64_MAX, U64_MAX as real);
  }

  lemma {:induction false} FirstAnswer(cfg: Config, limits: Limits, call: Call)
    requires cfg.For(call.qosClass) == limits && !limits.Disabled() && cfg.maxKeys > 0
    ensures var (bucket, outcome) := Take(limits, Fresh(limits, call.now), call.now);
            Answer(cfg, EMPTY, call) == (State(map[CallKey(call) := bucket], 1), outcome)
  {
    assert Swept(EMPTY, call.sweepNow).buckets == map[];
  }

  lemma {:induction false} NextAnswer(cfg: Config, limits: Limits, call: Call, b: Bucket, n: nat)
    requires cfg.For(call.qosClass) == limits && !limits.Disabled() && 0 < n < SWEEP_EVERY
    ensures var (bucket, outcome) := Take(limits, b, call.now);
            Answer(cfg, State(map[CallKey(call) := b], n), call) ==
              (State(map[CallKey(call) := bucket], n + 1), outcome)
  {
    var s := State(map[CallKey(call) := b], n);
    assert Swept(s, call.sweepNow) == State(s.buckets, n + 1);
    var bucket := Take(limits, b, call.now).0;
    assert s.buckets[CallKey(call) := bucket] == map[CallKey(call) := bucket];
  }

  /** The case the condition excludes, for every such limit: the second caller is
      told to wait the longest time there is, and is rejected again after it. */
  lemma {:induction false} AdviceTooShort(limits: Limits, qosClass: string, subject: string)
    requires Slow(limits)
    ensures var cfg := Config(limits, limits, 1);
            var now := Call(qosClass, subject, 0.0, 0.0);
            var later := Call(qosClass, subject, U64_MAX as real, U64_MAX as real);
            var s1 := Answer(cfg, EMPTY, now).0;
            var s2 := Answer(cfg, s1, now).0;
            && Answer(cfg, EMPTY, now).1 == Admitted
            && Answer(cfg, s1, now).1 == Rejected(U64_MAX)
            && Answer(cfg, s2, later).1.Rejected?
  {
    var cfg := Config(limits, limits, 1);
    var now, later := Call(qosClass, subject, 0.0, 0.0), Call(qosClass, subject, U64_MAX as real, U64_MAX as real);
    SlowTakes(limits);
    FirstAnswer(cfg, limits, now);
    NextAnswer(cfg, limits, now, DRAINED, 1);
    NextAnswer(cfg, limits, later, DRAINED, 2);
  }

  /** There are such limits. */
  lemma {:induction false} SlowLimit()
    ensures Slow(Limits(1, 0.00000000000000000001)) && Limits(1, 0.00000000000000000001).Valid()
  {
    assert Earned(0.00000000000000000001, 0.0, U64_MAX as real) == U64_MAX as real * 0.00000000000000000001;
  }
}
