/** What holds over every run of the reload system, whatever the interleaving of
    reloads, requests, drain polls, releases and shutdown. */
module GenerationRuns {
  import opened Collections
  import opened Leases
  import opened Results
  import opened Generations
  import opened GenerationSafety

  /** The initial generation is provisioned and published; nothing else is in
      motion. Requests may already hold what the slots hold. */
  ghost predicate Initial(s: State)
  {
    && s.serving && s.watcher == Idle
    && s.ledger == Ledger(None, map[], s.ledger.active, map[], 0, {}, [], {}, map l | l in s.ledger.active :: Active)
    && s.committed == s.ledger.active
    && Backed(s.cache, s.registry, s.ledger.where)
    && PlaneBuilt(s.plane, s.built) && Granted(s.built, s.ledger.where)
    && (forall n | n in s.plane.slots && s.plane.slots[n].lease.Some? :: n in s.applied)
    && (forall r | r in s.plane.inflight :: exists n :: n in s.plane.slots && s.plane.slots[n] == s.plane.inflight[r])
  }

  lemma {:induction false} InitialInv(s: State)
    requires Initial(s)
    ensures Inv(s)
  {
    forall p, l ensures Contains(s.ledger, p, l) <==> At(s.ledger.where, l, p) {}
    forall p | Live(s.plane, p) && p.lease.Some? ensures Kept(s, p, p.lease.value) {
      var n :| n in s.plane.slots && s.plane.slots[n] == p;
      assert p in s.built;
    }
  }

  datatype Run = Run(states: seq<State>, actions: seq<Action>)

  ghost predicate IsRun(r: Run)
  {
    && |r.states| == |r.actions| + 1
    && Initial(r.states[0])
    && (forall i | 0 <= i < |r.actions| ::
        Enabled(r.states[i], r.actions[i]) && r.states[i + 1] == Apply(r.states[i], r.actions[i]))
  }

  lemma {:induction false} RunInv(r: Run, i: nat)
    requires IsRun(r) && i < |r.states|
    ensures Inv(r.states[i])
  {
    if i == 0 {
      InitialInv(r.states[0]);
    } else {
      RunInv(r, i - 1);
      StepKeepsInv(r.states[i - 1], r.actions[i - 1]);
    }
  }

  /** No live slot and no request in flight ever holds a pipeline whose lease is
      being released or has been released. */
  lemma {:induction false} LiveLeaseNotReleased(r: Run, i: nat, p: Pipeline)
    requires IsRun(r) && i < |r.states| && Live(r.states[i].plane, p) && p.lease.Some?
    ensures p.lease.value !in r.states[i].ledger.releasing && p.lease.value !in r.states[i].ledger.released
  {
    RunInv(r, i);
    var e, l := r.states[i].ledger, p.lease.value;
    assert Kept(r.states[i], p, l);
    assert Contains(e, Releasing, l) <==> At(e.where, l, Releasing);
    assert Contains(e, Released, l) <==> At(e.where, l, Released);
  }

  /** A drain task hands its leases over for release only when no live slot and
      no request in flight holds a pipeline built against any of them. */
  lemma {:induction false} DrainedOnlyWhenUnheld(r: Run, i: nat, d: nat, p: Pipeline)
    requires IsRun(r) && i < |r.actions| && r.actions[i] == FinishDrain(d)
    requires p.lease.Some? && p.lease.value in r.states[i].ledger.drains[d].leases
    ensures !Live(r.states[i].plane, p)
  {
    RunInv(r, i);
    var e := r.states[i].ledger;
    assert Contains(e, Draining(d), p.lease.value);
    assert Live(r.states[i].plane, p) ==> Kept(r.states[i], p, p.lease.value);
  }

  /** Every backend a live or in-flight pipeline can resolve is still the one
      cached for its key, with its pool open. */
  lemma {:induction false} LiveBackendsOpen(r: Run, i: nat, p: Pipeline, k: CacheKey)
    requires IsRun(r) && i < |r.states| && Live(r.states[i].plane, p) && p.lease.Some?
    requires p.lease.value in r.states[i].registry && k in r.states[i].registry[p.lease.value]
    ensures r.states[i].registry[p.lease.value][k] !in r.states[i].cache.retired
    ensures k in r.states[i].cache.entries
    ensures r.states[i].cache.entries[k].instance == r.states[i].registry[p.lease.value][k]
  {
    RunInv(r, i);
    assert Kept(r.states[i], p, p.lease.value);
    assert Hold(p.lease.value, k) in r.states[i].cache.holds;
  }

  /** Every lease ever granted is in exactly one of: being provisioned, one
      pending generation, active, one drain task, being released, released, or
      dropped at shutdown. */
  lemma {:induction false} LeaseInOnePlace(r: Run, i: nat, l: LeaseId)
    requires IsRun(r) && i < |r.states| && l in r.states[i].ledger.where
    ensures exists p :: Contains(r.states[i].ledger, p, l) && forall q :: Contains(r.states[i].ledger, q, l) ==> q == p
    ensures NoRepeats(r.states[i].ledger.released)
  {
    RunInv(r, i);
    var e := r.states[i].ledger;
    assert Contains(e, e.where[l], l);
    forall q | Contains(e, q, l) ensures q == e.where[l] {
      assert At(e.where, l, q);
    }
  }

  /** Grants and commits are never forgotten, and the release log only grows. */
  ghost predicate Grows(s: State, s': State)
  {
    && s.ledger.where.Keys <= s'.ledger.where.Keys
    && s.ledger.released <= s'.ledger.released
    && s.committed <= s'.committed
  }

  lemma {:induction false} StepGrows(s: State, a: Action)
    requires Enabled(s, a)
    ensures Grows(s, Apply(s, a))
  {
  }

  lemma {:induction false} StatesGrow(states: seq<State>, i: nat, j: nat)
    requires i <= j < |states| && forall k | 0 <= k < |states| - 1 :: Grows(states[k], states[k + 1])
    ensures Grows(states[i], states[j])
    decreases j - i
  {
    if i < j {
      StatesGrow(states, i, j - 1);
      assert Grows(states[j - 1], states[j - 1 + 1]);
    }
  }

  lemma {:induction false} LedgerGrows(r: Run, i: nat, j: nat)
    requires IsRun(r) && i <= j < |r.states|
    ensures Grows(r.states[i], r.states[j])
  {
    forall k | 0 <= k < |r.states| - 1 ensures Grows(r.states[k], r.states[k + 1]) {
      StepGrows(r.states[k], r.actions[k]);
    }
    StatesGrow(r.states, i, j);
  }

  lemma {:induction false} ReleaseLogged(s: State, l: LeaseId)
    requires Enabled(s, FinishRelease(l))
    ensures l in Apply(s, FinishRelease(l)).ledger.released
  {
  }

  lemma {:induction false} NoSecondRelease(s: State, l: LeaseId)
    requires Inv(s) && l in s.ledger.released
    ensures !Enabled(s, FinishRelease(l)) && forall h: Hold | h.lease == l :: !Enabled(s, ReleaseHold(h))
  {
    assert Contains(s.ledger, Released, l);
    assert !Contains(s.ledger, Releasing, l);
  }

  /** A lease is granted once for good and released at most once. */
  lemma {:induction false} ReleasedOnce(r: Run, i: nat, j: nat, l: LeaseId)
    requires IsRun(r) && i < j < |r.actions| && r.actions[i] == FinishRelease(l)
    ensures r.actions[j] != FinishRelease(l)
    ensures forall h | r.actions[j] == ReleaseHold(h) :: h.lease != l
  {
    ReleaseLogged(r.states[i], l);
    LedgerGrows(r, i + 1, j);
    RunInv(r, j);
    NoSecondRelease(r.states[j], l);
  }

  /** `l` belongs to the initial generation or to one whose commit the
      provisioner acknowledged before step `i`. */
  ghost predicate CommittedBefore(r: Run, i: nat, l: LeaseId)
    requires |r.states| == |r.actions| + 1 && i < |r.states|
  {
    || l in r.states[0].ledger.active
    || exists j :: 0 <= j < i && r.actions[j].CommitGeneration? && PromotedAt(r.states[j], l)
  }

  ghost predicate PromotedAt(s: State, l: LeaseId)
  {
    s.watcher.WaitCommit? && s.watcher.generation in s.ledger.pending && l in s.ledger.pending[s.watcher.generation]
  }

  lemma {:induction false} CommitStep(s: State, a: Action, l: LeaseId)
    requires Enabled(s, a) && l in Apply(s, a).committed && l !in s.committed
    ensures a.CommitGeneration? && PromotedAt(s, l)
  {
  }

  lemma {:induction false} CommittedHistory(r: Run, i: nat, l: LeaseId)
    requires IsRun(r) && i < |r.states| && l in r.states[i].committed
    ensures CommittedBefore(r, i, l)
  {
    if i > 0 {
      if l in r.states[i - 1].committed {
        CommittedHistory(r, i - 1, l);
      } else {
        CommitStep(r.states[i - 1], r.actions[i - 1], l);
      }
    }
  }

  /** At every point of every run, shutdown included, a published store pipeline
      belongs to a generation that was already committed. */
  lemma {:induction false} PublishedIsCommitted(r: Run, i: nat, n: Listener)
    requires IsRun(r) && i < |r.states| && n in r.states[i].plane.slots && r.states[i].plane.slots[n].lease.Some?
    ensures CommittedBefore(r, i, r.states[i].plane.slots[n].lease.value)
  {
    RunInv(r, i);
    var p := r.states[i].plane.slots[n];
    assert Live(r.states[i].plane, p);
    assert Kept(r.states[i], p, p.lease.value);
    CommittedHistory(r, i, p.lease.value);
  }

  ghost predicate OneReload(r: Run, i: nat, j: nat)
  {
    && IsRun(r) && i < j < |r.states|
    && r.states[i].watcher.Idle?
    && forall k | i < k < j :: !r.states[k].watcher.Idle?
  }

  ghost predicate Untouched(s: State, s': State)
  {
    && s'.plane.slots == s.plane.slots && s'.applied == s.applied && s'.committed == s.committed
    && (s'.serving ==> s.serving && s'.ledger.active == s.ledger.active)
  }

  /** Swapping ends only by finishing, and nothing published changes outside it. */
  ghost predicate QuietUnlessSwapping(s: State, a: Action, s': State)
  {
    && (s.watcher.Swapping? && a != FinishReload ==> s'.watcher.Swapping?)
    && (a == FinishReload ==> s'.watcher.Idle?)
    && (!s.watcher.Swapping? && !s'.watcher.Swapping? ==> Untouched(s, s'))
  }

  lemma {:induction false} StepQuiet(s: State, a: Action)
    requires Enabled(s, a)
    ensures QuietUnlessSwapping(s, a, Apply(s, a))
  {
  }

  lemma {:induction false} UntouchedUntilSwap(states: seq<State>, actions: seq<Action>, i: nat, j: nat, k: nat)
    requires |states| == |actions| + 1 && i <= k <= j < |states| && i < j
    requires forall m | 0 <= m < |actions| :: QuietUnlessSwapping(states[m], actions[m], states[m + 1])
    requires states[i].watcher.Idle? && forall m | i < m < j :: !states[m].watcher.Idle?
    requires !states[k].watcher.Swapping?
    requires k == j ==> actions[j - 1] != FinishReload
    ensures Untouched(states[i], states[k])
    decreases k
  {
    if k > i {
      assert QuietUnlessSwapping(states[k - 1], actions[k - 1], states[k - 1 + 1]);
      UntouchedUntilSwap(states, actions, i, j, k - 1);
    }
  }

  /** A reload that ends without completing its swaps, because validation,
      provisioning, the build or the commit failed or the provisioner stopped,
      leaves every live slot, the applied config and the set of committed
      generations as it found them, and the active generation too unless
      shutdown itself dropped it. */
  lemma {:induction false} FailedReloadChangesNothing(r: Run, i: nat, j: nat)
    requires OneReload(r, i, j) && r.states[j].watcher.Idle? && r.actions[j - 1] != FinishReload
    ensures r.states[j].plane.slots == r.states[i].plane.slots && r.states[j].applied == r.states[i].applied
    ensures r.states[j].committed == r.states[i].committed
    ensures r.states[j].serving ==> r.states[j].ledger.active == r.states[i].ledger.active
  {
    forall m | 0 <= m < |r.actions| ensures QuietUnlessSwapping(r.states[m], r.actions[m], r.states[m + 1]) {
      StepQuiet(r.states[m], r.actions[m]);
    }
    UntouchedUntilSwap(r.states, r.actions, i, j, j);
  }
}
