/** Every action of the reload system keeps its invariant. */
module GenerationSafety {
  import opened Leases
  import opened Results
  import opened Generations

  // ------------------------------------------------------- ledger moves

  lemma {:induction false} PlanPlaced(e: Ledger, e': Ledger, plans: map<Listener, LeaseId>)
    requires Placed(e) && e.provisioning.None?
    requires forall n | n in plans :: plans[n] !in e.where
    requires e' == e.(provisioning := Some(plans), where := e.where + map l | l in plans.Values :: Provisioning)
    ensures Placed(e')
  {
    forall p, l ensures Contains(e', p, l) <==> At(e'.where, l, p) {
      assert Contains(e, p, l) <==> At(e.where, l, p);
    }
  }

  lemma {:induction false} ParkingPlaced(e: Ledger, g: nat)
    requires Placed(e) && g !in e.pending
    ensures Placed(Parking(e, g))
  {
    forall p, l ensures Contains(Parking(e, g), p, l) <==> At(Parking(e, g).where, l, p) {
      assert Contains(e, p, l) <==> At(e.where, l, p);
      assert Contains(e, Provisioning, l) <==> At(e.where, l, Provisioning);
    }
  }

  lemma {:induction false} ValuesWithout(m: map<Listener, LeaseId>, n: Listener)
    requires n in m && Injective(m)
    ensures (m - {n}).Values == m.Values - {m[n]}
  {
    var rest := m - {n};
    forall v | v in m.Values - {m[n]} ensures v in rest.Values {
      var k :| k in m && m[k] == v;
      assert k in rest && rest[k] == v;
    }
    forall v | v in rest.Values ensures v in m.Values - {m[n]} {
      var k :| k in rest && rest[k] == v;
      assert k in m && m[k] == v;
    }
  }

  lemma {:induction false} WithdrawPlaced(e: Ledger, n: Listener)
    requires Placed(e) && e.provisioning.Some? && n in e.provisioning.value && Injective(e.provisioning.value)
    ensures Placed(Withdraw(e, n))
  {
    var e', gone := Withdraw(e, n), e.provisioning.value[n];
    assert Contains(e, Provisioning, gone);
    ValuesWithout(e.provisioning.value, n);
    forall p, l ensures Contains(e', p, l) <==> At(e'.where, l, p) {
      assert Contains(e, p, l) <==> At(e.where, l, p);
    }
  }

  lemma {:induction false} UnplanPlaced(e: Ledger)
    requires Placed(e)
    ensures Placed(Unplan(e))
  {
    forall p, l ensures Contains(Unplan(e), p, l) <==> At(Unplan(e).where, l, p) {
      assert Contains(e, p, l) <==> At(e.where, l, p);
      assert Contains(e, Provisioning, l) <==> At(e.where, l, Provisioning);
    }
  }

  lemma {:induction false} PromotePlaced(e: Ledger, g: nat, observed: seq<Pipeline>)
    requires Placed(e) && g in e.pending
    ensures Placed(Promote(e, g, observed))
  {
    var e' := Promote(e, g, observed);
    forall p, l ensures Contains(e', p, l) <==> At(e'.where, l, p) {
      assert Contains(e, p, l) <==> At(e.where, l, p);
      assert Contains(e, Active, l) <==> At(e.where, l, Active);
      assert Contains(e, Pending(g), l) <==> At(e.where, l, Pending(g));
    }
  }

  lemma {:induction false} DiscardPlaced(e: Ledger, g: nat)
    requires Placed(e) && g in e.pending
    ensures Placed(Discard(e, g))
  {
    forall p, l ensures Contains(Discard(e, g), p, l) <==> At(Discard(e, g).where, l, p) {
      assert Contains(e, p, l) <==> At(e.where, l, p);
      assert Contains(e, Pending(g), l) <==> At(e.where, l, Pending(g));
    }
  }

  lemma {:induction false} DrainedPlaced(e: Ledger, d: nat)
    requires Placed(e) && d in e.drains
    ensures Placed(Drained(e, d))
  {
    forall p, l ensures Contains(Drained(e, d), p, l) <==> At(Drained(e, d).where, l, p) {
      assert Contains(e, p, l) <==> At(e.where, l, p);
      assert Contains(e, Draining(d), l) <==> At(e.where, l, Draining(d));
    }
  }

  lemma {:induction false} UndrainedPlaced(e: Ledger, d: nat)
    requires Placed(e) && d in e.drains
    ensures Placed(Undrained(e, d))
  {
    forall p, l ensures Contains(Undrained(e, d), p, l) <==> At(Undrained(e, d).where, l, p) {
      assert Contains(e, p, l) <==> At(e.where, l, p);
      assert Contains(e, Draining(d), l) <==> At(e.where, l, Draining(d));
    }
  }

  lemma {:induction false} StopPlaced(e: Ledger)
    requires Placed(e)
    ensures Placed(Stop(e))
  {
    var e' := Stop(e);
    forall p, l ensures Contains(e', p, l) <==> At(e'.where, l, p) {
      assert Contains(e, p, l) <==> At(e.where, l, p);
      assert Contains(e, Active, l) <==> At(e.where, l, Active);
      assert Contains(e, Provisioning, l) <==> At(e.where, l, Provisioning);
      if l in AllPending(e.pending) {
        var g :| g in e.pending && l in e.pending[g];
        assert Contains(e, Pending(g), l);
      }
    }
  }

  lemma {:induction false} ReleasedPlaced(e: Ledger, l: LeaseId, e': Ledger)
    requires Placed(e) && l in e.releasing
    requires e' == e.(releasing := e.releasing - {l}, released := e.released + [l], where := e.where[l := Released])
    ensures Placed(e')
  {
    assert Contains(e, Releasing, l) && !Contains(e, Released, l);
    forall p, m ensures Contains(e', p, m) <==> At(e'.where, m, p) {
      assert Contains(e, p, m) <==> At(e.where, m, p);
    }
  }

  lemma {:induction false} ScanPlaced(e: Ledger, d: nat, t: Drain)
    requires Placed(e) && d in e.drains && t.leases == e.drains[d].leases
    ensures Placed(e.(drains := e.drains[d := t]))
  {
    var e' := e.(drains := e.drains[d := t]);
    forall p, l ensures Contains(e', p, l) <==> At(e'.where, l, p) {
      assert Contains(e, p, l) <==> At(e.where, l, p);
    }
  }

  // ------------------------------------------------- leases and the cache

  ghost predicate GoingAway(p: Place)
  {
    p.Releasing? || p.Released?
  }

  lemma {:induction false} MoveBacked(cache: Cache, registry: map<LeaseId, map<CacheKey, nat>>,
      where: map<LeaseId, Place>, where': map<LeaseId, Place>)
    requires Backed(cache, registry, where) && where'.Keys == where.Keys
    requires forall l | l in where && GoingAway(where[l]) :: GoingAway(where'[l])
    requires forall h | h in cache.holds && h.lease in where :: where'[h.lease] != Released
    ensures Backed(cache, registry, where')
  {
  }

  lemma {:induction false} PlanBacked(s: State, plans: map<Listener, LeaseId>)
    requires Backed(s.cache, s.registry, s.ledger.where)
    requires forall n | n in plans :: plans[n] !in s.ledger.where
    ensures Backed(s.cache, Plan(s, plans).registry, Plan(s, plans).ledger.where)
  {
  }

  lemma {:induction false} HeldBacked(cache: Cache, cache': Cache, registry: map<LeaseId, map<CacheKey, nat>>,
      where: map<LeaseId, Place>, l: LeaseId, key: CacheKey)
    requires Backed(cache, registry, where) && l in where && !GoingAway(where[l])
    requires Valid(cache') && cache'.holds == cache.holds + {Hold(l, key)} && key in cache'.entries
    requires forall k | k in cache.entries ::
        k in cache'.entries && cache'.entries[k].instance == cache.entries[k].instance
    ensures Backed(cache', registry[l := registry[l][key := cache'.entries[key].instance]], where)
  {
    var registry' := registry[l := registry[l][key := cache'.entries[key].instance]];
    forall m, k | m in where && k in registry'[m] && !GoingAway(where[m])
      ensures Hold(m, k) in cache'.holds && cache'.entries[k].instance == registry'[m][k]
    {
      if m != l || k != key {
        assert k in registry[m];
      }
    }
  }

  lemma {:induction false} AcquireBacked(s: State, l: LeaseId, key: CacheKey, build: bool)
    requires Backed(s.cache, s.registry, s.ledger.where)
    requires l in s.ledger.where && !GoingAway(s.ledger.where[l]) && (build || key in s.cache.entries)
    ensures Backed(AcquireKey(s, l, key, build).cache, AcquireKey(s, l, key, build).registry, s.ledger.where)
  {
    if build {
      InsertValid(s.cache, Hold(l, key));
      HeldBacked(s.cache, InsertOrReuse(s.cache, Hold(l, key)), s.registry, s.ledger.where, l, key);
    } else {
      ReuseValid(s.cache, Hold(l, key));
      HeldBacked(s.cache, Reuse(s.cache, Hold(l, key)), s.registry, s.ledger.where, l, key);
    }
  }

  lemma {:induction false} ReleaseBacked(cache: Cache, registry: map<LeaseId, map<CacheKey, nat>>,
      where: map<LeaseId, Place>, h: Hold)
    requires Backed(cache, registry, where) && h in cache.holds && At(where, h.lease, Releasing)
    ensures Backed(Release(cache, h), registry, where)
  {
    ReleaseValid(cache, h);
  }

  // ----------------------------------------------------- the data plane

  lemma {:induction false} RequestStartKeepsInv(s: State, r: nat, n: Listener)
    requires Inv(s) && Enabled(s, RequestStart(r, n))
    ensures Inv(Apply(s, RequestStart(r, n)))
  {
    var s' := Apply(s, RequestStart(r, n));
    forall p | Live(s'.plane, p) ensures Live(s.plane, p) {}
    forall p | Live(s'.plane, p) && p.lease.Some? ensures Kept(s', p, p.lease.value) {
      assert Kept(s, p, p.lease.value);
    }
  }

  lemma {:induction false} RequestEndKeepsInv(s: State, r: nat)
    requires Inv(s) && Enabled(s, RequestEnd(r))
    ensures Inv(Apply(s, RequestEnd(r)))
  {
    var s' := Apply(s, RequestEnd(r));
    forall p | Live(s'.plane, p) ensures Live(s.plane, p) {}
    forall p | Live(s'.plane, p) && p.lease.Some? ensures Kept(s', p, p.lease.value) {
      assert Kept(s, p, p.lease.value);
    }
  }

  // ------------------------------------------------ preparing and building

  lemma {:induction false} BeginKeepsInv(s: State, config: Config)
    requires Inv(s) && Enabled(s, BeginReload(config))
    ensures Inv(Begin(s, config))
  {
    var s' := Begin(s, config);
    forall p | Live(s'.plane, p) && p.lease.Some? ensures Kept(s', p, p.lease.value) {
      assert Kept(s, p, p.lease.value);
    }
  }

  lemma {:induction false} PlanKeepsInv(s: State, plans: map<Listener, LeaseId>)
    requires Inv(s) && Enabled(s, PlanLeases(plans))
    ensures Inv(Plan(s, plans))
  {
    var s' := Plan(s, plans);
    PlanPlaced(s.ledger, s'.ledger, plans);
    PlanBacked(s, plans);
    forall p | Live(s'.plane, p) && p.lease.Some? ensures Kept(s', p, p.lease.value) {
      assert Kept(s, p, p.lease.value);
    }
  }

  lemma {:induction false} AcquireKeepsInv(s: State, n: Listener, key: CacheKey, build: bool)
    requires Inv(s) && Enabled(s, Acquire(n, key, build))
    ensures Inv(Apply(s, Acquire(n, key, build)))
  {
    var l := s.ledger.provisioning.value[n];
    var s' := Apply(s, Acquire(n, key, build));
    assert Contains(s.ledger, Provisioning, l);
    AcquireBacked(s, l, key, build);
    forall p | Live(s'.plane, p) && p.lease.Some? ensures Kept(s', p, p.lease.value) {
      assert Kept(s, p, p.lease.value);
    }
  }

  lemma {:induction false} WorkerFailedKeepsInv(s: State, n: Listener)
    requires Inv(s) && Enabled(s, WorkerFailed(n))
    ensures Inv(Apply(s, WorkerFailed(n)))
  {
    var s', l := Apply(s, WorkerFailed(n)), s.ledger.provisioning.value[n];
    assert Contains(s.ledger, Provisioning, l);
    WithdrawPlaced(s.ledger, n);
    MoveBacked(s.cache, s.registry, s.ledger.where, s'.ledger.where);
    forall p | Live(s'.plane, p) && p.lease.Some? ensures Kept(s', p, p.lease.value) {
      assert Kept(s, p, p.lease.value);
    }
  }

  lemma {:induction false} ParkKeepsInv(s: State)
    requires Inv(s) && Enabled(s, ProvisionOk)
    ensures Inv(Park(s))
  {
    var s' := Park(s);
    ParkingPlaced(s.ledger, s.nextGeneration);
    forall l | l in Planned(s.ledger) ensures At(s.ledger.where, l, Provisioning) {
      assert Contains(s.ledger, Provisioning, l);
    }
    MoveBacked(s.cache, s.registry, s.ledger.where, s'.ledger.where);
    forall p | Live(s'.plane, p) && p.lease.Some? ensures Kept(s', p, p.lease.value) {
      assert Kept(s, p, p.lease.value);
    }
  }

  lemma {:induction false} UnplanKeepsInv(s: State)
    requires Inv(s) && Enabled(s, ProvisionErr)
    ensures Inv(Apply(s, ProvisionErr))
  {
    var s' := Apply(s, ProvisionErr);
    UnplanPlaced(s.ledger);
    forall l | l in Planned(s.ledger) ensures At(s.ledger.where, l, Provisioning) {
      assert Contains(s.ledger, Provisioning, l);
    }
    MoveBacked(s.cache, s.registry, s.ledger.where, s'.ledger.where);
    forall p | Live(s'.plane, p) && p.lease.Some? ensures Kept(s', p, p.lease.value) {
      assert Kept(s, p, p.lease.value);
    }
  }

  lemma {:induction false} BuildKeepsInv(s: State, pipes: map<Listener, Pipeline>)
    requires Inv(s) && Enabled(s, BuildOk(pipes))
    ensures Inv(Build(s, pipes))
  {
    var s' := Build(s, pipes);
    forall n | n in pipes ensures !Live(s.plane, pipes[n]) {
      assert pipes[n] !in s.built;
    }
    forall d, i | d in s.ledger.drains && 0 <= i < s.ledger.drains[d].scanned
      ensures !Strong(s'.plane, pipes, s.ledger.drains[d].observed[i])
    {
      assert s.ledger.drains[d].observed[i] in s.built;
    }
    forall p | Live(s'.plane, p) && p.lease.Some? ensures Kept(s', p, p.lease.value) {
      assert Kept(s, p, p.lease.value);
    }
  }

  lemma {:induction false} BuildErrKeepsInv(s: State)
    requires Inv(s) && Enabled(s, BuildErr)
    ensures Inv(Apply(s, BuildErr))
  {
    var s' := Apply(s, BuildErr);
    forall p | Live(s'.plane, p) && p.lease.Some? ensures Kept(s', p, p.lease.value) {
      assert Kept(s, p, p.lease.value);
    }
  }

  // ---------------------------------------------- committing and swapping

  lemma {:induction false} SendKeepsInv(s: State, observed: seq<Pipeline>)
    requires Inv(s) && Enabled(s, SendCommit(observed))
    ensures Inv(Send(s, observed))
  {
    var s' := Send(s, observed);
    assert Pipes(s'.watcher) == Pipes(s.watcher);
    forall p | Live(s'.plane, p) && p.lease.Some? ensures Kept(s', p, p.lease.value) {
      assert Kept(s, p, p.lease.value);
    }
  }

  lemma {:induction false} CommitCovers(s: State)
    requires Inv(s) && Enabled(s, CommitGeneration)
    ensures Covered(Commit(s))
  {
    var s' := Commit(s);
    var g, e := s.watcher.generation, s.ledger;
    forall p | Live(s'.plane, p) && p.lease.Some? ensures Kept(s', p, p.lease.value) {
      var l := p.lease.value;
      assert Kept(s, p, l);
      assert Contains(e, Active, l) <==> At(e.where, l, Active);
      assert Contains(e, Pending(g), l) <==> At(e.where, l, Pending(g));
      if e.where[l].Active? {
        var n :| n in s.applied && n in s.plane.slots && s.plane.slots[n] == p;
        assert p in s.watcher.observed;
        assert Awaited(s'.ledger.drains[e.nextTask], p);
      }
    }
  }

  lemma {:induction false} CommitPublishes(s: State)
    requires Inv(s) && Enabled(s, CommitGeneration)
    ensures Publishing(Commit(s).watcher, s.plane, Commit(s).ledger.where, Commit(s).committed)
  {
    var g, e := s.watcher.generation, s.ledger;
    forall l | l in e.pending[g] ensures At(Commit(s).ledger.where, l, Active) {
      assert Contains(e, Pending(g), l);
    }
  }

  lemma {:induction false} CommitKeepsInv(s: State)
    requires Inv(s) && Enabled(s, CommitGeneration)
    ensures Inv(Commit(s))
  {
    var s' := Commit(s);
    PromotePlaced(s.ledger, s.watcher.generation, s.watcher.observed);
    CommitCovers(s);
    CommitPublishes(s);
    forall l | l in s.ledger.where && GoingAway(s.ledger.where[l]) ensures GoingAway(s'.ledger.where[l]) {
      assert Contains(s.ledger, Active, l) <==> At(s.ledger.where, l, Active);
      assert Contains(s.ledger, Pending(s.watcher.generation), l) <==>
        At(s.ledger.where, l, Pending(s.watcher.generation));
    }
    MoveBacked(s.cache, s.registry, s.ledger.where, s'.ledger.where);
    forall p | p in s.watcher.observed ensures p in s.built {
      var n :| n in s.applied && n in s.plane.slots && s.plane.slots[n] == p;
    }
  }

  lemma {:induction false} AbortKeepsInv(s: State)
    requires Inv(s) && Enabled(s, AbortGeneration)
    ensures Inv(Abort(s))
  {
    var s' := Abort(s);
    var g, e := s.watcher.generation, s.ledger;
    DiscardPlaced(e, g);
    forall l | l in e.pending[g] ensures At(e.where, l, Pending(g)) {
      assert Contains(e, Pending(g), l);
    }
    MoveBacked(s.cache, s.registry, e.where, s'.ledger.where);
    forall p | Live(s'.plane, p) && p.lease.Some? ensures Kept(s', p, p.lease.value) {
      assert Kept(s, p, p.lease.value);
    }
  }

  lemma {:induction false} CommandLostKeepsInv(s: State)
    requires Inv(s) && Enabled(s, CommandLost)
    ensures Inv(Apply(s, CommandLost))
  {
    var s' := Apply(s, CommandLost);
    forall d, i | d in s.ledger.drains && 0 <= i < s.ledger.drains[d].scanned
      ensures !Strong(s'.plane, map[], s.ledger.drains[d].observed[i])
    {
      assert !Strong(s.plane, Pipes(s.watcher), s.ledger.drains[d].observed[i]);
    }
    forall p | Live(s'.plane, p) && p.lease.Some? ensures Kept(s', p, p.lease.value) {
      assert Kept(s, p, p.lease.value);
    }
  }

  lemma {:induction false} SwapCovers(s: State, n: Listener)
    requires Inv(s) && Enabled(s, SwapSlot(n))
    ensures Covered(Swap(s, n))
  {
    var s' := Swap(s, n);
    var incoming := s.watcher.pipes[n];
    forall p | Live(s'.plane, p) && p.lease.Some? ensures Kept(s', p, p.lease.value) {
      if p == incoming && n in s.plane.slots {
        assert s'.plane.slots[n] == p;
      } else {
        assert Live(s.plane, p);
        assert Kept(s, p, p.lease.value);
        if s.ledger.where[p.lease.value].Active? {
          var m :| m in s.watcher.config.stores && m in s.plane.slots && s.plane.slots[m] == p
                   && m in s.watcher.pipes && m !in s.watcher.todo && s.watcher.pipes[m] == p;
          assert m != n;
          assert s'.plane.slots[m] == p;
        }
      }
    }
  }

  lemma {:induction false} SwapKeepsInv(s: State, n: Listener)
    requires Inv(s) && Enabled(s, SwapSlot(n))
    ensures Inv(Swap(s, n))
  {
    var s' := Swap(s, n);
    SwapCovers(s, n);
    assert Pipes(s'.watcher) == Pipes(s.watcher);
    forall p | Live(s'.plane, p) ensures Live(s.plane, p) || p == s.watcher.pipes[n] {}
    forall d, i | d in s.ledger.drains && 0 <= i < s.ledger.drains[d].scanned
      ensures !Strong(s'.plane, Pipes(s'.watcher), s.ledger.drains[d].observed[i])
    {
      assert !Strong(s.plane, Pipes(s.watcher), s.ledger.drains[d].observed[i]);
    }
  }

  lemma {:induction false} FinishReloadKeepsInv(s: State)
    requires Inv(s) && Enabled(s, FinishReload)
    ensures Inv(Apply(s, FinishReload))
  {
    var s' := Apply(s, FinishReload);
    forall d, i | d in s.ledger.drains && 0 <= i < s.ledger.drains[d].scanned
      ensures !Strong(s'.plane, map[], s.ledger.drains[d].observed[i])
    {
      assert !Strong(s.plane, Pipes(s.watcher), s.ledger.drains[d].observed[i]);
    }
    forall p | Live(s'.plane, p) && p.lease.Some? ensures Kept(s', p, p.lease.value) {
      assert Kept(s, p, p.lease.value);
    }
  }

  // ------------------------------------------------ draining and releasing

  lemma {:induction false} ScanCovers(s: State, d: nat)
    requires Inv(s) && Enabled(s, ScanDrain(d))
    ensures Covered(Apply(s, ScanDrain(d)))
  {
    var s' := Apply(s, ScanDrain(d));
    var t := s.ledger.drains[d];
    forall p | Live(s'.plane, p) && p.lease.Some? ensures Kept(s', p, p.lease.value) {
      assert Kept(s, p, p.lease.value);
      if s.ledger.where[p.lease.value] == Draining(d) {
        var i :| t.scanned <= i < |t.observed| && t.observed[i] == p;
        assert s'.ledger.drains[d].scanned <= i;
      }
    }
  }

  lemma {:induction false} ScanKeepsInv(s: State, d: nat)
    requires Inv(s) && Enabled(s, ScanDrain(d))
    ensures Inv(Apply(s, ScanDrain(d)))
  {
    ScanPlaced(s.ledger, d, Apply(s, ScanDrain(d)).ledger.drains[d]);
    ScanCovers(s, d);
  }

  lemma {:induction false} DrainedCovers(s: State, d: nat)
    requires Inv(s) && Enabled(s, FinishDrain(d))
    ensures Covered(Apply(s, FinishDrain(d)))
  {
    var s' := Apply(s, FinishDrain(d));
    forall l | l in s.ledger.drains[d].leases ensures At(s.ledger.where, l, Draining(d)) {
      assert Contains(s.ledger, Draining(d), l);
    }
    forall p | Live(s'.plane, p) && p.lease.Some? ensures Kept(s', p, p.lease.value) {
      assert Kept(s, p, p.lease.value);
    }
  }

  lemma {:induction false} DrainedKeepsInv(s: State, d: nat)
    requires Inv(s) && Enabled(s, FinishDrain(d))
    ensures Inv(Apply(s, FinishDrain(d)))
  {
    DrainedPlaced(s.ledger, d);
    forall l | l in s.ledger.drains[d].leases ensures At(s.ledger.where, l, Draining(d)) {
      assert Contains(s.ledger, Draining(d), l);
    }
    MoveBacked(s.cache, s.registry, s.ledger.where, Apply(s, FinishDrain(d)).ledger.where);
    DrainedCovers(s, d);
  }

  lemma {:induction false} UndrainedKeepsInv(s: State, d: nat)
    requires Inv(s) && Enabled(s, DropDrain(d))
    ensures Inv(Apply(s, DropDrain(d)))
  {
    var s' := Apply(s, DropDrain(d));
    UndrainedPlaced(s.ledger, d);
    forall l | l in s.ledger.drains[d].leases ensures At(s.ledger.where, l, Draining(d)) {
      assert Contains(s.ledger, Draining(d), l);
    }
    MoveBacked(s.cache, s.registry, s.ledger.where, s'.ledger.where);
    forall p | Live(s'.plane, p) && p.lease.Some? ensures Kept(s', p, p.lease.value) {
      assert Kept(s, p, p.lease.value);
      assert Contains(s.ledger, Draining(d), p.lease.value) <==> At(s.ledger.where, p.lease.value, Draining(d));
    }
  }

  lemma {:induction false} ReleaseHoldKeepsInv(s: State, h: Hold)
    requires Inv(s) && Enabled(s, ReleaseHold(h))
    ensures Inv(Apply(s, ReleaseHold(h)))
  {
    var s' := Apply(s, ReleaseHold(h));
    assert Contains(s.ledger, Releasing, h.lease);
    ReleaseBacked(s.cache, s.registry, s.ledger.where, h);
    forall p | Live(s'.plane, p) && p.lease.Some? ensures Kept(s', p, p.lease.value) {
      assert Kept(s, p, p.lease.value);
    }
  }

  lemma {:induction false} FinishReleaseKeepsInv(s: State, l: LeaseId)
    requires Inv(s) && Enabled(s, FinishRelease(l))
    ensures Inv(Apply(s, FinishRelease(l)))
  {
    var s' := Apply(s, FinishRelease(l));
    assert Contains(s.ledger, Releasing, l);
    ReleasedPlaced(s.ledger, l, s'.ledger);
    MoveBacked(s.cache, s.registry, s.ledger.where, s'.ledger.where);
    forall p | Live(s'.plane, p) && p.lease.Some? ensures Kept(s', p, p.lease.value) {
      assert Kept(s, p, p.lease.value);
    }
  }

  lemma {:induction false} StopMoves(e: Ledger, l: LeaseId)
    requires Placed(e) && l in e.where
    ensures Stop(e).where[l] == if e.where[l].Pending? then Releasing
                                else if e.where[l].Active? || e.where[l].Provisioning? then Dropped else e.where[l]
  {
    assert Contains(e, Active, l) <==> At(e.where, l, Active);
    assert Contains(e, Provisioning, l) <==> At(e.where, l, Provisioning);
    if e.where[l].Pending? {
      assert Contains(e, e.where[l], l);
    }
    if l in AllPending(e.pending) {
      var g :| g in e.pending && l in e.pending[g];
      assert Contains(e, Pending(g), l);
    }
  }

  lemma {:induction false} ShutdownKeepsInv(s: State)
    requires Inv(s) && Enabled(s, Shutdown)
    ensures Inv(Apply(s, Shutdown))
  {
    var s' := Apply(s, Shutdown);
    StopPlaced(s.ledger);
    forall l | l in s.ledger.where
      ensures s'.ledger.where[l] == if s.ledger.where[l].Pending? then Releasing
                                    else if s.ledger.where[l].Active? || s.ledger.where[l].Provisioning? then Dropped
                                    else s.ledger.where[l]
    {
      StopMoves(s.ledger, l);
    }
    MoveBacked(s.cache, s.registry, s.ledger.where, s'.ledger.where);
    forall p | Live(s'.plane, p) && p.lease.Some? ensures Kept(s', p, p.lease.value) {
      assert Kept(s, p, p.lease.value);
    }
  }

  /** The actions of drain tasks, releases and shutdown. */
  predicate Retires(a: Action)
  {
    a.ScanDrain? || a.FinishDrain? || a.DropDrain? || a.ReleaseHold? || a.FinishRelease? || a.Shutdown?
  }

  lemma {:induction false} RetiringKeepsInv(s: State, a: Action)
    requires Inv(s) && Enabled(s, a) && Retires(a)
    ensures Inv(Apply(s, a))
  {
    match a
    case ScanDrain(d) => ScanKeepsInv(s, d);
    case FinishDrain(d) => DrainedKeepsInv(s, d);
    case DropDrain(d) => UndrainedKeepsInv(s, d);
    case ReleaseHold(h) => ReleaseHoldKeepsInv(s, h);
    case FinishRelease(l) => FinishReleaseKeepsInv(s, l);
    case Shutdown => ShutdownKeepsInv(s);
  }

  /** The actions of a reload once its generation is prepared. */
  predicate Publishes(a: Action)
  {
    || a.BuildOk? || a.BuildErr? || a.SendCommit? || a.CommitGeneration?
    || a.AbortGeneration? || a.CommandLost? || a.SwapSlot? || a.FinishReload?
  }

  lemma {:induction false} PublishingKeepsInv(s: State, a: Action)
    requires Inv(s) && Enabled(s, a) && Publishes(a)
    ensures Inv(Apply(s, a))
  {
    match a
    case BuildOk(pipes) => BuildKeepsInv(s, pipes);
    case BuildErr => BuildErrKeepsInv(s);
    case SendCommit(observed) => SendKeepsInv(s, observed);
    case CommitGeneration => CommitKeepsInv(s);
    case AbortGeneration => AbortKeepsInv(s);
    case CommandLost => CommandLostKeepsInv(s);
    case SwapSlot(n) => SwapKeepsInv(s, n);
    case FinishReload => FinishReloadKeepsInv(s);
  }

  lemma {:induction false} StepKeepsInv(s: State, a: Action)
    requires Inv(s) && Enabled(s, a)
    ensures Inv(Apply(s, a))
  {
    if Publishes(a) {
      PublishingKeepsInv(s, a);
    } else if Retires(a) {
      RetiringKeepsInv(s, a);
    } else {
      match a
      case RequestStart(r, n) => RequestStartKeepsInv(s, r, n);
      case RequestEnd(r) => RequestEndKeepsInv(s, r);
      case BeginReload(config) => BeginKeepsInv(s, config);
      case PlanLeases(plans) => PlanKeepsInv(s, plans);
      case Acquire(n, key, build) => AcquireKeepsInv(s, n, key, build);
      case WorkerFailed(n) => WorkerFailedKeepsInv(s, n);
      case ProvisionOk => ParkKeepsInv(s);
      case ProvisionErr => UnplanKeepsInv(s);
    }
  }
}
