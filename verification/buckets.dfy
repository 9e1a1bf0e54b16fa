/** The keyed token bucket (enmaas-policy-filter/src/buckets.rs). Tokens and time
    are reals, time in seconds; a call carries the clock readings it makes, one
    for the sweep and one for the bucket. */
module Buckets {
  const IDLE_BUCKET_TTL: real := 600.0
  const SWEEP_EVERY: nat := 1024
  const KEY_LIMIT_RETRY: nat := 30
  const U64_MAX: nat := 0xFFFF_FFFF_FFFF_FFFF
  const SEPARATOR: char := '\U{1f}'
  const PREMIUM := "premium"

  datatype Limits = Limits(burst: nat, refill: real) {
    predicate Disabled()
    {
      burst == 0
    }

    /** What configuration validation admits: `validate_bucket`. */
    ghost predicate Valid()
    {
      if burst > 0 then refill > 0.0 else refill == 0.0
    }
  }

  datatype Config = Config(main: Limits, premium: Limits, maxKeys: nat) {
    ghost predicate Valid()
    {
      main.Valid() && premium.Valid()
    }

    function For(qosClass: string): Limits
    {
      if qosClass == PREMIUM then premium else main
    }
  }

  datatype Bucket = Bucket(tokens: real, lastRefill: real, lastSeen: real)

  datatype Outcome = Admitted | Rejected(retryAfter: nat)

  datatype Call = Call(qosClass: string, subject: string, sweepNow: real, now: real)

  datatype State = State(buckets: map<string, Bucket>, admissions: nat)

  function Key(qosClass: string, subject: string): string
  {
    qosClass + [SEPARATOR] + subject
  }

  /** `duration_since` saturates at zero. */
  function Elapsed(now: real, since: real): (d: real)
    ensures d >= 0.0
  {
    if now > since then now - since else 0.0
  }

  function Min(a: real, b: real): real
  {
    if a < b then a else b
  }

  function Refilled(limits: Limits, bucket: Bucket, now: real): real
  {
    Min(bucket.tokens + Elapsed(now, bucket.lastRefill) * limits.refill, limits.burst as real)
  }

  function Ceil(x: real): (n: int)
    ensures x <= n as real < x + 1.0
  {
    -((-x).Floor)
  }

  /** The cast to `u64` saturates, and dividing by zero gives infinity. */
  function RetryAfter(limits: Limits, tokens: real): (retry: nat)
    requires tokens < 1.0
  {
    if limits.refill == 0.0 then U64_MAX
    else
      var seconds := Ceil((1.0 - tokens) / limits.refill);
      if seconds > U64_MAX then U64_MAX else if seconds > 1 then seconds else 1
  }

  function Fresh(limits: Limits, now: real): Bucket
  {
    Bucket(limits.burst as real, now, now)
  }

  /** One call on its bucket. */
  function Take(limits: Limits, bucket: Bucket, now: real): (Bucket, Outcome)
  {
    var tokens := Refilled(limits, bucket, now);
    if tokens >= 1.0 then (Bucket(tokens - 1.0, now, now), Admitted)
    else (Bucket(tokens, now, now), Rejected(RetryAfter(limits, tokens)))
  }

  function Retained(buckets: map<string, Bucket>, now: real): map<string, Bucket>
  {
    map k | k in buckets && Elapsed(now, buckets[k].lastSeen) < IDLE_BUCKET_TTL :: buckets[k]
  }

  /** Counting the call and, every so often, dropping idle buckets. */
  function Swept(s: State, now: real): State
  {
    State(if s.admissions % SWEEP_EVERY == 0 then Retained(s.buckets, now) else s.buckets,
          (s.admissions + 1) % (U64_MAX + 1))
  }

  /** The call after its sweep. */
  function TakeKey(cfg: Config, s: State, key: string, limits: Limits, now: real): (State, Outcome)
  {
    if key !in s.buckets && |s.buckets| >= cfg.maxKeys then (s, Rejected(KEY_LIMIT_RETRY))
    else
      var (bucket, outcome) := Take(limits, if key in s.buckets then s.buckets[key] else Fresh(limits, now), now);
      (s.(buckets := s.buckets[key := bucket]), outcome)
  }

  function Answer(cfg: Config, s: State, call: Call): (State, Outcome)
  {
    var limits := cfg.For(call.qosClass);
    if limits.Disabled() then (s, Admitted)
    else TakeKey(cfg, Swept(s, call.sweepNow), Key(call.qosClass, call.subject), limits, call.now)
  }

  /** The shared map and counter, updated in place. */
  class LocalBuckets {
    const cfg: Config
    var buckets: map<string, Bucket>
    var admissions: nat

    function Contents(): State
      reads this
    {
      State(buckets, admissions)
    }

    constructor (main: Limits, premium: Limits, maxKeys: nat)
      ensures cfg == Config(main, premium, maxKeys) && Contents() == State(map[], 0)
    {
      cfg := Config(main, premium, maxKeys);
      buckets, admissions := map[], 0;
    }

    method MaybeSweep(now: real)
      modifies this
      ensures Contents() == Swept(old(Contents()), now)
    {
      var before := admissions;
      admissions := (admissions + 1) % (U64_MAX + 1);
      if before % SWEEP_EVERY == 0 {
        buckets := map k | k in buckets && Elapsed(now, buckets[k].lastSeen) < IDLE_BUCKET_TTL :: buckets[k];
      }
    }

    method Admit(call: Call) returns (outcome: Outcome)
      modifies this
      ensures (Contents(), outcome) == Answer(cfg, old(Contents()), call)
    {
      var limits := if call.qosClass == PREMIUM then cfg.premium else cfg.main;
      if limits.Disabled() {
        return Admitted;
      }
      MaybeSweep(call.sweepNow);
      var key := Key(call.qosClass, call.subject);
      var now := call.now;
      if key !in buckets && |buckets| >= cfg.maxKeys {
        return Rejected(KEY_LIMIT_RETRY);
      }
      var bucket := if key in buckets then buckets[key] else Fresh(limits, now);
      var tokens := Refilled(limits, bucket, now);
      if tokens >= 1.0 {
        tokens := tokens - 1.0;
        outcome := Admitted;
      } else {
        outcome := Rejected(RetryAfter(limits, tokens));
      }
      buckets := buckets[key := Bucket(tokens, now, now)];
    }
  }

  // -------------------------------------------------------------------- keys

  predicate Plain(qosClass: string)
  {
    SEPARATOR !in qosClass
  }

  /** The class a key was made from. */
  function ClassOf(key: string): string
  {
    if key == [] || key[0] == SEPARATOR then [] else [key[0]] + ClassOf(key[1..])
  }

  lemma {:induction false} ClassOfKey(qosClass: string, subject: string)
    requires Plain(qosClass)
    ensures ClassOf(Key(qosClass, subject)) == qosClass
  {
    if qosClass == [] {
      assert Key(qosClass, subject)[0] == SEPARATOR;
    } else {
      assert Key(qosClass, subject)[0] == qosClass[0];
      assert Key(qosClass, subject)[1..] == Key(qosClass[1..], subject);
      ClassOfKey(qosClass[1..], subject);
    }
  }

  /** No two callers share a bucket unless class and subject both agree. */
  lemma {:induction false} KeyInjective(c1: string, s1: string, c2: string, s2: string)
    requires Plain(c1) && Plain(c2)
    ensures Key(c1, s1) == Key(c2, s2) <==> c1 == c2 && s1 == s2
  {
    ClassOfKey(c1, s1);
    ClassOfKey(c2, s2);
    if Key(c1, s1) == Key(c2, s2) {
      assert s1 == Key(c1, s1)[|c1| + 1..];
      assert s2 == Key(c2, s2)[|c2| + 1..];
    }
  }
}
