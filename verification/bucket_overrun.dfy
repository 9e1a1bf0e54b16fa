/** Without the refill condition the window bound is lost: an idle bucket is
    dropped before it is full and comes back full. */
module BucketOverrun {
  import opened Buckets
  import opened BucketLaws

  function Repeat(call: Call, n: nat): seq<Call>
  {
    if n == 0 then [] else [call] + Repeat(call, n - 1)
  }

  /** A burst of calls at time 0, long enough for the next call to sweep, and a
      burst when the bucket has been idle for the time to live. */
  function Overrun(qosClass: string, subject: string, burst: nat): seq<Call>
  {
    Repeat(Call(qosClass, subject, 0.0, 0.0), SWEEP_EVERY * burst)
    + Repeat(Call(qosClass, subject, IDLE_BUCKET_TTL, IDLE_BUCKET_TTL), burst)
  }

  /** The calls of one instant, for an enabled class, by the key's only user. */
  ghost predicate Instant(cfg: Config, call: Call)
  {
    cfg.Valid() && WellTimed(call) && call.sweepNow == call.now && !cfg.For(call.qosClass).Disabled() && cfg.maxKeys > 0
  }

  /** Wrapping the counter does not disturb the sweeps. */
  lemma {:induction false} WrapKeepsSweeps(n: nat, more: nat)
    ensures (n % (U64_MAX + 1) + more) % SWEEP_EVERY == (n + more) % SWEEP_EVERY
  {
    var wraps := n / (U64_MAX + 1);
    assert n + more == n % (U64_MAX + 1) + more + SWEEP_EVERY * (((U64_MAX + 1) / SWEEP_EVERY) * wraps);
  }

  lemma {:induction false} Counted(cfg: Config, s: State, call: Call, n: nat)
    requires !cfg.For(call.qosClass).Disabled()
    ensures After(Sweeping(cfg), s, Repeat(call, n)).admissions % SWEEP_EVERY == (s.admissions + n) % SWEEP_EVERY
    decreases n
  {
    if n > 0 {
      assert Repeat(call, n)[1..] == Repeat(call, n - 1);
      Counted(cfg, Answer(cfg, s, call).0, call, n - 1);
      WrapKeepsSweeps(s.admissions + 1, n - 1);
    }
  }

  lemma {:induction false} TakeWhole(cfg: Config, s: State, call: Call, left: nat)
    requires Instant(cfg, call) && left <= cfg.For(call.qosClass).burst
    requires Swept(s, call.now).buckets == map[CallKey(call) := Bucket(left as real, call.now, call.now)]
             || (left == cfg.For(call.qosClass).burst && Swept(s, call.now).buckets == map[])
    ensures var (s', outcome) := Answer(cfg, s, call);
            && outcome.Admitted? == (left >= 1)
            && s'.buckets ==
                map[CallKey(call) := Bucket((if left >= 1 then left - 1 else 0) as real, call.now, call.now)]
  {
    assert Elapsed(call.now, call.now) * cfg.For(call.qosClass).refill == 0.0;
  }

  /** At one instant a bucket gives out what it holds and no more. */
  lemma {:induction false} Drain(cfg: Config, s: State, call: Call, n: nat, left: nat)
    requires Instant(cfg, call) && left <= cfg.For(call.qosClass).burst
    requires s.buckets == map[CallKey(call) := Bucket(left as real, call.now, call.now)]
    ensures var s', given := After(Sweeping(cfg), s, Repeat(call, n)), if n < left then n else left;
            && Hits(Sweeping(cfg), s, Repeat(call, n), CallKey(call)) == given
            && s'.buckets == map[CallKey(call) := Bucket((left - given) as real, call.now, call.now)]
    decreases n
  {
    if n > 0 {
      assert Retained(s.buckets, call.now) == s.buckets;
      TakeWhole(cfg, s, call, left);
      var s' := Answer(cfg, s, call).0;
      assert Repeat(call, n)[1..] == Repeat(call, n - 1);
      Drain(cfg, s', call, n - 1, if left >= 1 then left - 1 else 0);
    }
  }

  /** A key without a bucket is given its whole burst at once. */
  lemma {:induction false} FromFull(cfg: Config, s: State, call: Call, n: nat)
    requires Instant(cfg, call) && n >= cfg.For(call.qosClass).burst && Swept(s, call.now).buckets == map[]
    ensures var s' := After(Sweeping(cfg), s, Repeat(call, n));
            && Hits(Sweeping(cfg), s, Repeat(call, n), CallKey(call)) == cfg.For(call.qosClass).burst
            && s'.buckets == map[CallKey(call) := Bucket(0.0, call.now, call.now)]
  {
    TakeWhole(cfg, s, call, cfg.For(call.qosClass).burst);
    var s' := Answer(cfg, s, call).0;
    assert Repeat(call, n)[1..] == Repeat(call, n - 1);
    Drain(cfg, s', call, n - 1, cfg.For(call.qosClass).burst - 1);
  }

  lemma {:induction false} HitsConcat(server: Server, s: State, a: seq<Call>, b: seq<Call>, key: string)
    ensures Hits(server, s, a + b, key) == Hits(server, s, a, key) + Hits(server, After(server, s, a), b, key)
    decreases a
  {
    if a == [] {
      assert a + b == b;
    } else {
      assert (a + b)[1..] == a[1..] + b;
      HitsConcat(server, server(s, a[0]).0, a[1..], b, key);
    }
  }

  lemma {:induction false} RepeatOrdered(call: Call, n: nat, rest: seq<Call>, since: real)
    requires WellTimed(call) && since <= call.now && Ordered(call.now, rest)
    ensures Ordered(since, Repeat(call, n) + rest)
    ensures (n > 0 || rest != [] ==> LastReading(since, Repeat(call, n) + rest) == LastReading(call.now, rest))
    decreases n
  {
    if n == 0 {
      assert Repeat(call, n) + rest == rest;
    } else {
      assert (Repeat(call, n) + rest)[1..] == Repeat(call, n - 1) + rest;
      RepeatOrdered(call, n - 1, rest, call.now);
      if n - 1 == 0 {
        assert Repeat(call, 0) + rest == rest;
      }
    }
  }

  /** For every enabled class whose refill over the time to live does not make
      up a burst, these calls are in order, span the time to live, and admit the
      key more than burst + refill * window times: the condition of the window
      bound cannot be weakened. */
  lemma {:induction false} UncoveredOverruns(cfg: Config, qosClass: string, subject: string, limits: Limits)
    requires cfg.Valid() && Plain(qosClass) && cfg.maxKeys > 0
    requires limits == cfg.For(qosClass) && !limits.Disabled() && !RefillCovers(limits)
    ensures var calls := Overrun(qosClass, subject, limits.burst);
            && Ordered(0.0, calls) && LastReading(0.0, calls) == IDLE_BUCKET_TTL
            && Hits(Sweeping(cfg), EMPTY, calls, Key(qosClass, subject)) == 2 * limits.burst
            && (2 * limits.burst) as real > limits.burst as real + Earned(limits.refill, 0.0, IDLE_BUCKET_TTL)
  {
    var early, late := Call(qosClass, subject, 0.0, 0.0), Call(qosClass, subject, IDLE_BUCKET_TTL, IDLE_BUCKET_TTL);
    var first, second := Repeat(early, SWEEP_EVERY * limits.burst), Repeat(late, limits.burst);
    FromFull(cfg, EMPTY, early, SWEEP_EVERY * limits.burst);
    var s := After(Sweeping(cfg), EMPTY, first);
    Counted(cfg, EMPTY, early, SWEEP_EVERY * limits.burst);
    assert s.admissions % SWEEP_EVERY == 0;
    assert Retained(s.buckets, IDLE_BUCKET_TTL) == map[];
    FromFull(cfg, s, late, limits.burst);
    HitsConcat(Sweeping(cfg), EMPTY, first, second, Key(qosClass, subject));
    RepeatOrdered(late, limits.burst, [], IDLE_BUCKET_TTL);
    assert second + [] == second;
    RepeatOrdered(early, SWEEP_EVERY * limits.burst, second, 0.0);
    RepeatOrdered(late, limits.burst, [], 0.0);
  }
}
