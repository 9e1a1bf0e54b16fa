/** What the reload system can always do: a drain whose pipelines are gone runs to
    its end without help from anybody else. */
module GenerationProgress {
  import opened Leases
  import opened Generations
  import opened GenerationSafety
  import opened GenerationRuns

  /** A step of drain task `d` or of the release of `leases`. */
  ghost predicate OwnStep(a: Action, d: nat, leases: set<LeaseId>)
  {
    || a == ScanDrain(d) || a == FinishDrain(d)
    || (a.ReleaseHold? && a.hold.lease in leases)
    || (a.FinishRelease? && a.lease in leases)
  }

  /** The actions are steps of one drain, enabled one after another, and lead
      from `s` to `s'`. */
  ghost predicate Leads(s: State, actions: seq<Action>, s': State, d: nat, leases: set<LeaseId>)
    decreases |actions|
  {
    if actions == [] then s' == s
    else
      && OwnStep(actions[0], d, leases) && Enabled(s, actions[0])
      && Leads(Apply(s, actions[0]), actions[1..], s', d, leases)
  }

  lemma {:induction false} LeadsFirst(
    s: State, a: Action, rest: seq<Action>, s': State, d: nat, leases: set<LeaseId>)
    requires OwnStep(a, d, leases) && Enabled(s, a) && Leads(Apply(s, a), rest, s', d, leases)
    ensures Leads(s, [a] + rest, s', d, leases)
  {
    assert ([a] + rest)[1..] == rest;
  }

  lemma {:induction false} LeadsThen(
    s: State, first: seq<Action>, m: State, second: seq<Action>, s': State, d: nat, leases: set<LeaseId>)
    requires Leads(s, first, m, d, leases) && Leads(m, second, s', d, leases)
    ensures Leads(s, first + second, s', d, leases)
    decreases |first|
  {
    if first == [] {
      assert first + second == second;
    } else {
      assert (first + second)[1..] == first[1..] + second;
      LeadsThen(Apply(s, first[0]), first[1..], m, second, s', d, leases);
    }
  }

  lemma {:induction false} LeadsInv(s: State, actions: seq<Action>, s': State, d: nat, leases: set<LeaseId>)
    requires Inv(s) && Leads(s, actions, s', d, leases)
    ensures Inv(s')
    decreases |actions|
  {
    if actions != [] {
      StepKeepsInv(s, actions[0]);
      LeadsInv(Apply(s, actions[0]), actions[1..], s', d, leases);
    }
  }

  // ---------------------------------------------------------------- scanning

  ghost predicate AllDropped(s: State, d: nat)
    requires d in s.ledger.drains
  {
    forall p | p in s.ledger.drains[d].observed :: !Strong(s.plane, Pipes(s.watcher), p)
  }

  /** The task with its scan complete. */
  ghost function ScannedOut(s: State, d: nat): State
    requires d in s.ledger.drains
  {
    var t := s.ledger.drains[d];
    s.(ledger := s.ledger.(drains := s.ledger.drains[d := t.(scanned := |t.observed|)]))
  }

  lemma {:induction false} ScanToEnd(s: State, d: nat, leases: set<LeaseId>) returns (actions: seq<Action>)
    requires d in s.ledger.drains && AllDropped(s, d) && s.ledger.drains[d].scanned <= |s.ledger.drains[d].observed|
    ensures Leads(s, actions, ScannedOut(s, d), d, leases)
    decreases |s.ledger.drains[d].observed| - s.ledger.drains[d].scanned
  {
    var t := s.ledger.drains[d];
    if t.scanned == |t.observed| {
      actions := [];
      assert s.ledger.drains[d := t] == s.ledger.drains;
      assert ScannedOut(s, d) == s;
    } else {
      var s' := Apply(s, ScanDrain(d));
      assert t.observed[t.scanned] in t.observed;
      assert s'.ledger.drains[d] == t.(scanned := t.scanned + 1);
      var rest := ScanToEnd(s', d, leases);
      actions := [ScanDrain(d)] + rest;
      assert s'.ledger.drains[d := t.(scanned := |t.observed|)] == s.ledger.drains[d := t.(scanned := |t.observed|)];
      assert ScannedOut(s', d) == ScannedOut(s, d);
      LeadsFirst(s, ScanDrain(d), rest, ScannedOut(s', d), d, leases);
    }
  }

  // --------------------------------------------------------------- releasing

  ghost function HoldsOf(holds: set<Hold>, leases: set<LeaseId>): set<Hold>
  {
    set h | h in holds && h.lease in leases
  }

  /** `c'` is `c` after the holds `gone` were released: the other holders are on
      their instances, and exactly the backends nobody holds have been closed. */
  ghost predicate Freed(c: Cache, c': Cache, gone: set<Hold>)
  {
    && c'.holds == c.holds - gone
    && (forall k | k in c.entries :: k in c'.entries <==> exists h :: h in c.holds - gone && h.key == k)
    && (forall k | k in c'.entries :: k in c.entries && c'.entries[k].instance == c.entries[k].instance)
    && (forall i ::
          i in c'.retired <==>
          i in c.retired || exists k :: k in c.entries && k !in c'.entries && c.entries[k].instance == i)
  }

  lemma {:induction false} FreedNothing(c: Cache)
    requires Valid(c)
    ensures Freed(c, c, {})
  {
    forall k | k in c.entries ensures exists h :: h in c.holds - {} && h.key == k {
      var h :| h in Holders(c.holds, k);
      assert h in c.holds - {};
    }
  }

  lemma {:induction false} FreedOne(c: Cache, h: Hold)
    requires Valid(c) && h in c.holds
    ensures Freed(c, Release(c, h), {h})
  {
    ReleaseValid(c, h);
    var c' := Release(c, h);
    forall k | k in c.entries ensures k in c'.entries <==> exists g :: g in c.holds - {h} && g.key == k {
      if k in c'.entries {
        var g :| g in Holders(c'.holds, k);
        assert g in c.holds - {h};
      }
    }
  }

  lemma {:induction false} FreedThen(a: Cache, b: Cache, c: Cache, first: set<Hold>, second: set<Hold>)
    requires Freed(a, b, first) && Freed(b, c, second)
    ensures Freed(a, c, first + second)
  {
    assert a.holds - (first + second) == b.holds - second;
    forall k | k in a.entries ensures k in c.entries <==> exists h :: h in a.holds - (first + second) && h.key == k {
      if h :| h in a.holds - (first + second) && h.key == k {
        assert h in a.holds - first;
        assert h in b.holds - second;
      }
    }
    forall i
      ensures i in c.retired <==>
              i in a.retired || exists k :: k in a.entries && k !in c.entries && a.entries[k].instance == i
    {
      if k :| k in b.entries && k !in c.entries && b.entries[k].instance == i {
        assert k in a.entries && a.entries[k].instance == i;
      }
      if k :| k in a.entries && k !in b.entries && a.entries[k].instance == i {
        assert k !in c.entries;
      }
    }
  }

  lemma {:induction false} FreedMore(a: Cache, b: Cache, c: Cache, h: Hold, all: set<Hold>)
    requires h in all && Freed(a, b, {h}) && Freed(b, c, all - {h})
    ensures Freed(a, c, all)
  {
    FreedThen(a, b, c, {h}, all - {h});
    assert {h} + (all - {h}) == all;
  }

  /** One enabled release: the holder is gone from the cache, nothing else moved. */
  lemma {:induction false} ReleaseOneHold(s: State, h: Hold, leases: set<LeaseId>)
    requires Inv(s) && h in s.cache.holds && h.lease in leases && leases <= s.ledger.releasing
    ensures Enabled(s, ReleaseHold(h))
    ensures var m := Apply(s, ReleaseHold(h));
            && Inv(m) && m == s.(cache := m.cache) && Freed(s.cache, m.cache, {h})
            && HoldsOf(m.cache.holds, leases) == HoldsOf(s.cache.holds, leases) - {h}
  {
    StepKeepsInv(s, ReleaseHold(h));
    FreedOne(s.cache, h);
  }

  lemma {:induction false} ReleaseHolds(s: State, d: nat, leases: set<LeaseId>, mine: set<Hold>)
    returns (actions: seq<Action>, s': State)
    requires Inv(s) && leases <= s.ledger.releasing && mine == HoldsOf(s.cache.holds, leases)
    ensures Leads(s, actions, s', d, leases) && s' == s.(cache := s'.cache)
    ensures Freed(s.cache, s'.cache, mine)
    decreases mine
  {
    if mine == {} {
      actions, s' := [], s;
      FreedNothing(s.cache);
    } else {
      var h :| h in mine;
      var m := Apply(s, ReleaseHold(h));
      ReleaseOneHold(s, h, leases);
      var rest;
      rest, s' := ReleaseHolds(m, d, leases, mine - {h});
      FreedMore(s.cache, m.cache, s'.cache, h, mine);
      actions := [ReleaseHold(h)] + rest;
      LeadsFirst(s, ReleaseHold(h), rest, s', d, leases);
    }
  }

  /** Only the ledger's record of the release differs. */
  ghost predicate Logged(s: State, s': State, leases: set<LeaseId>)
  {
    && s' == s.(ledger := s'.ledger)
    && s'.ledger.drains == s.ledger.drains && s'.ledger.active == s.ledger.active
    && s'.ledger.pending == s.ledger.pending
    && (forall l | l in leases :: l in s'.ledger.released)
    && s.ledger.released <= s'.ledger.released
  }

  lemma {:induction false} FinishReleases(s: State, d: nat, leases: set<LeaseId>, todo: set<LeaseId>)
    returns (actions: seq<Action>, s': State)
    requires todo <= leases && todo <= s.ledger.releasing && HoldsOf(s.cache.holds, leases) == {}
    ensures Leads(s, actions, s', d, leases) && Logged(s, s', todo)
    decreases todo
  {
    if todo == {} {
      actions, s' := [], s;
    } else {
      var l :| l in todo;
      forall h | h in s.cache.holds ensures h.lease != l {
        assert h !in HoldsOf(s.cache.holds, leases);
      }
      var m := Apply(s, FinishRelease(l));
      var rest;
      rest, s' := FinishReleases(m, d, leases, todo - {l});
      actions := [FinishRelease(l)] + rest;
      LeadsFirst(s, FinishRelease(l), rest, s', d, leases);
      assert l in m.ledger.released;
    }
  }

  // ----------------------------------------------------------------- the drain

  /** The scan ends and the task hands its leases over for release. */
  lemma {:induction false} HandOver(s: State, d: nat) returns (actions: seq<Action>, s': State)
    requires Inv(s) && d in s.ledger.drains && AllDropped(s, d)
    ensures Leads(s, actions, s', d, s.ledger.drains[d].leases) && Inv(s')
    ensures s' == s.(ledger := s'.ledger) && s.ledger.drains[d].leases <= s'.ledger.releasing
    ensures s'.ledger.drains == s.ledger.drains - {d}
    ensures s'.ledger.active == s.ledger.active && s'.ledger.pending == s.ledger.pending
  {
    var leases := s.ledger.drains[d].leases;
    var scans := ScanToEnd(s, d, leases);
    var scanned := ScannedOut(s, d);
    LeadsInv(s, scans, scanned, d, leases);
    s' := Apply(scanned, FinishDrain(d));
    StepKeepsInv(scanned, FinishDrain(d));
    LeadsFirst(scanned, FinishDrain(d), [], s', d, leases);
    LeadsThen(s, scans, scanned, [FinishDrain(d)] + [], s', d, leases);
    actions := scans + ([FinishDrain(d)] + []);
    assert scanned.ledger.drains - {d} == s.ledger.drains - {d};
  }

  /** From any reachable state in which the old pipelines a task observes are
      gone, the task's own steps are enabled one after another until all its
      leases are released; no other holder is disturbed, exactly the backends
      nobody else holds are closed, and requests and the watcher see nothing. */
  lemma {:induction false} DrainCompletes(s: State, d: nat) returns (actions: seq<Action>, s': State)
    requires Inv(s) && d in s.ledger.drains && AllDropped(s, d)
    ensures Leads(s, actions, s', d, s.ledger.drains[d].leases)
    ensures forall l | l in s.ledger.drains[d].leases :: l in s'.ledger.released
    ensures Freed(s.cache, s'.cache, HoldsOf(s.cache.holds, s.ledger.drains[d].leases))
    ensures s'.ledger.drains == s.ledger.drains - {d} && s'.ledger.active == s.ledger.active
    ensures s'.ledger.pending == s.ledger.pending
    ensures s'.plane == s.plane && s'.watcher == s.watcher && s'.registry == s.registry && s'.serving == s.serving
  {
    var leases := s.ledger.drains[d].leases;
    var first, handed := HandOver(s, d);
    var releases, freed := ReleaseHolds(handed, d, leases, HoldsOf(handed.cache.holds, leases));
    assert HoldsOf(freed.cache.holds, leases) == {};
    var second;
    second, s' := FinishReleases(freed, d, leases, leases);
    LeadsThen(handed, releases, freed, second, s', d, leases);
    LeadsThen(s, first, handed, releases + second, s', d, leases);
    actions := first + (releases + second);
  }

  /** A pipeline nobody holds is never taken up again. */
  lemma {:induction false} StepKeepsDropped(s: State, a: Action, p: Pipeline)
    requires Enabled(s, a) && p in s.built && !Strong(s.plane, Pipes(s.watcher), p)
    ensures !Strong(Apply(s, a).plane, Pipes(Apply(s, a).watcher), p)
  {
    forall n | n in Apply(s, a).plane.slots ensures Apply(s, a).plane.slots[n] != p {}
  }

  /** What a task observes and will release is fixed when it is spawned. */
  lemma {:induction false} StepKeepsTask(s: State, a: Action, d: nat)
    requires Enabled(s, a) && d < s.ledger.nextTask
    ensures d < Apply(s, a).ledger.nextTask
    ensures d in Apply(s, a).ledger.drains ==>
              && d in s.ledger.drains
              && Apply(s, a).ledger.drains[d].observed == s.ledger.drains[d].observed
              && Apply(s, a).ledger.drains[d].leases == s.ledger.drains[d].leases
  {
  }

  ghost predicate Observable(s: State)
  {
    DrainsBuilt(s.ledger.drains, s.built) && forall d | d in s.ledger.drains :: d < s.ledger.nextTask
  }

  lemma {:induction false} RunObservable(r: Run, i: nat)
    requires IsRun(r) && i < |r.states|
    ensures Observable(r.states[i])
  {
    RunInv(r, i);
  }

  /** If the task is still there, it is the task over `leases`, and nothing holds
      what it observes. */
  ghost predicate Dropping(s: State, d: nat, leases: set<LeaseId>)
  {
    && d < s.ledger.nextTask
    && (d in s.ledger.drains ==> AllDropped(s, d) && s.ledger.drains[d].leases == leases)
  }

  lemma {:induction false} StepKeepsDropping(s: State, a: Action, d: nat, leases: set<LeaseId>)
    requires Enabled(s, a) && Observable(s) && Dropping(s, d, leases)
    ensures Dropping(Apply(s, a), d, leases)
  {
    StepKeepsTask(s, a, d);
    if d in Apply(s, a).ledger.drains {
      forall p | p in s.ledger.drains[d].observed
        ensures !Strong(Apply(s, a).plane, Pipes(Apply(s, a).watcher), p)
      {
        StepKeepsDropped(s, a, p);
      }
    }
  }

  lemma {:induction false} StaysDropped(r: Run, i: nat, j: nat, d: nat)
    requires IsRun(r) && i <= j < |r.states|
    requires d in r.states[i].ledger.drains && AllDropped(r.states[i], d)
    ensures Dropping(r.states[j], d, r.states[i].ledger.drains[d].leases)
    decreases j - i
  {
    if i == j {
      RunObservable(r, i);
    } else {
      StaysDropped(r, i, j - 1, d);
      RunObservable(r, j - 1);
      StepKeepsDropping(r.states[j - 1], r.actions[j - 1], d, r.states[i].ledger.drains[d].leases);
    }
  }

  /** Once nothing holds the old pipelines a task observes, then at every later
      point of the run, whatever others did meanwhile, the task has finished or
      can finish by its own steps: all the leases it took over get released. */
  lemma {:induction false} DrainNeverStuck(r: Run, i: nat, j: nat, d: nat) returns (actions: seq<Action>, s': State)
    requires IsRun(r) && i <= j < |r.states|
    requires d in r.states[i].ledger.drains && AllDropped(r.states[i], d) && d in r.states[j].ledger.drains
    ensures Leads(r.states[j], actions, s', d, r.states[i].ledger.drains[d].leases)
    ensures d !in s'.ledger.drains && forall l | l in r.states[i].ledger.drains[d].leases :: l in s'.ledger.released
  {
    StaysDropped(r, i, j, d);
    RunInv(r, j);
    actions, s' := DrainCompletes(r.states[j], d);
  }
}
