/** Sweeping idle buckets can be told from keeping them for ever exactly when some
    class does not refill a burst within the time to live. */
module BucketExact {
  import opened Buckets
  import opened BucketLaws
  import opened BucketOverrun
  import opened BucketSweeping

  lemma {:induction false} SameHits(a: Server, b: Server, s: State, t: State, calls: seq<Call>, key: string)
    requires Outcomes(a, s, calls) == Outcomes(b, t, calls)
    ensures Hits(a, s, calls, key) == Hits(b, t, calls, key)
    decreases calls
  {
    if calls != [] {
      assert Outcomes(a, s, calls)[0] == Outcomes(b, t, calls)[0];
      assert Outcomes(a, s, calls)[1..] == Outcomes(a, a(s, calls[0]).0, calls[1..]);
      assert Outcomes(b, t, calls)[1..] == Outcomes(b, b(t, calls[0]).0, calls[1..]);
      SameHits(a, b, a(s, calls[0]).0, b(t, calls[0]).0, calls[1..], key);
    }
  }

  ghost predicate OneKey(calls: seq<Call>, key: string)
  {
    forall call | call in calls :: CallKey(call) == key
  }

  lemma {:induction false} RepeatOneKey(call: Call, n: nat)
    ensures OneKey(Repeat(call, n), CallKey(call))
    decreases n
  {
    if n > 0 {
      RepeatOneKey(call, n - 1);
    }
  }

  /** One key never meets the key limit. */
  lemma {:induction false} OneKeyIsRoomy(cfg: Config, kept: State, calls: seq<Call>, key: string)
    requires cfg.maxKeys > 0 && OneKey(calls, key) && kept.buckets.Keys <= {key}
    ensures Roomy(cfg, kept, calls)
    decreases calls
  {
    if calls != [] {
      assert CallKey(calls[0]) == key;
      assert key !in kept.buckets ==> kept.buckets == map[];
      var next := Keeping(cfg)(kept, calls[0]).0;
      assert next.buckets.Keys <= {key};
      OneKeyIsRoomy(cfg, next, calls[1..], key);
    }
  }

  /** A class that does not refill a burst in time shows: the swept map admits
      more than the kept one can. */
  lemma {:induction false} SweepingVisible(cfg: Config, qosClass: string, subject: string, limits: Limits)
    requires cfg.Valid() && Plain(qosClass) && cfg.maxKeys > 0
    requires limits == cfg.For(qosClass) && !limits.Disabled() && !RefillCovers(limits)
    ensures var calls := Overrun(qosClass, subject, limits.burst);
            && Ordered(0.0, calls) && Roomy(cfg, EMPTY, calls)
            && Outcomes(Sweeping(cfg), EMPTY, calls) != Outcomes(Keeping(cfg), EMPTY, calls)
  {
    var calls, key := Overrun(qosClass, subject, limits.burst), Key(qosClass, subject);
    UncoveredOverruns(cfg, qosClass, subject, limits);
    RepeatOneKey(Call(qosClass, subject, 0.0, 0.0), SWEEP_EVERY * limits.burst);
    RepeatOneKey(Call(qosClass, subject, IDLE_BUCKET_TTL, IDLE_BUCKET_TTL), limits.burst);
    OneKeyIsRoomy(cfg, EMPTY, calls, key);
    ClassOfKey(qosClass, subject);
    Budget(cfg, EMPTY, calls, false, key, limits.refill, 0.0);
    if Outcomes(Sweeping(cfg), EMPTY, calls) == Outcomes(Keeping(cfg), EMPTY, calls) {
      SameHits(Sweeping(cfg), Keeping(cfg), EMPTY, EMPTY, calls, key);
    }
  }

  ghost predicate Invisible(cfg: Config)
  {
    forall calls, since | Ordered(since, calls) && Roomy(cfg, EMPTY, calls) ::
      Outcomes(Sweeping(cfg), EMPTY, calls) == Outcomes(Keeping(cfg), EMPTY, calls)
  }

  /** A disabled class refills its empty burst. */
  lemma {:induction false} DisabledCovers(limits: Limits)
    requires limits.Valid() && limits.Disabled()
    ensures RefillCovers(limits)
  {
  }

  /** No calls that stay within the key limit can tell whether idle buckets are
      swept, exactly when both classes refill a burst within the time to live. */
  lemma {:induction false} InvisibleExactly(cfg: Config)
    requires cfg.Valid() && cfg.maxKeys > 0
    ensures Invisible(cfg) <==> AllCovered(cfg)
  {
    if AllCovered(cfg) {
      forall calls, since | Ordered(since, calls) && Roomy(cfg, EMPTY, calls)
        ensures Outcomes(Sweeping(cfg), EMPTY, calls) == Outcomes(Keeping(cfg), EMPTY, calls)
      {
        SweepingInvisible(cfg, calls, since);
      }
    } else {
      var qosClass := if RefillCovers(cfg.premium) then "main" else PREMIUM;
      var limits := cfg.For(qosClass);
      assert PREMIUM[0] == 'p' && "main"[0] == 'm';
      if limits.Disabled() {
        DisabledCovers(limits);
      }
      SweepingVisible(cfg, qosClass, "", limits);
    }
  }
}
