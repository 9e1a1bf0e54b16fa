/** The store provisioner and `reload_pipelines` in their imperative form: the
    locals of the command loop (server/src/store_provision.rs) and the sequence
    of effects of one reload (server/src/reload.rs). Each arm of the loop is tied
    to the ledger move the transition system makes for it. */
module Provisioner {
  import opened Results
  import opened Generations
  import opened GenerationSafety

  // ------------------------------------------------------------ provision_all

  /** One finished worker: its plan's listener and what `provision_into` returned. */
  datatype Completion = Completion(listener: Listener, result: Result<LeaseId, string>)

  ghost function Obtained(done: seq<Completion>): seq<LeaseId>
  {
    if done == [] then []
    else Obtained(done[..|done| - 1]) + if done[|done| - 1].result.Ok? then [done[|done| - 1].result.value] else []
  }

  ghost function FirstError(done: seq<Completion>): Option<string>
  {
    if done == [] then None
    else
      var before := FirstError(done[..|done| - 1]);
      if before.Some? then before
      else if done[|done| - 1].result.Err? then Some(done[|done| - 1].result.error) else None
  }

  lemma {:induction false} NoErrorMeansAllOk(done: seq<Completion>)
    ensures FirstError(done).None? <==> forall c | c in done :: c.result.Ok?
    ensures FirstError(done).None? ==> |Obtained(done)| == |done| && forall i | 0 <= i < |done| ::
        done[i].result == Ok(Obtained(done)[i])
  {
    if done != [] {
      var rest := done[..|done| - 1];
      NoErrorMeansAllOk(rest);
      assert done == rest + [done[|done| - 1]];
    }
  }

  /** Drive the workers to completion, in whatever order they finish. Either
      every worker succeeded, every registry is marked ready and every lease is
      returned; or none is marked, every lease obtained is released, and the
      first error in completion order is returned. */
  method ProvisionAll(completed: seq<Completion>)
    returns (result: Result<seq<LeaseId>, string>, released: seq<LeaseId>, ready: set<Listener>)
    ensures result.Ok? <==> forall c | c in completed :: c.result.Ok?
    ensures result.Ok? ==> released == [] && ready == (set c | c in completed :: c.listener)
    ensures result.Ok? ==> |result.value| == |completed| && forall i | 0 <= i < |completed| ::
        completed[i].result == Ok(result.value[i])
    ensures result.Err? ==>
        ready == {} && released == Obtained(completed) && FirstError(completed) == Some(result.error)
  {
    var leases: seq<LeaseId> := [];
    var failure: Option<string> := None;
    var i := 0;
    while i < |completed|
      invariant 0 <= i <= |completed|
      invariant leases == Obtained(completed[..i]) && failure == FirstError(completed[..i])
    {
      assert completed[..i + 1][..i] == completed[..i];
      match completed[i].result {
        case Ok(lease) => leases := leases + [lease];
        case Err(e) =>
          if failure.None? {
            failure := Some(e);
          }
      }
      i := i + 1;
    }
    assert completed[..|completed|] == completed;
    NoErrorMeansAllOk(completed);
    if failure.Some? {
      return Err(failure.value), leases, {};
    }
    return Ok(leases), [], set c | c in completed :: c.listener;
  }

  // ------------------------------------------------------- the command loop

  ghost predicate Fresh(e: Ledger, plans: map<Listener, LeaseId>)
  {
    forall n | n in plans :: plans[n] !in e.where
  }

  /** Inserting under a number that is still pending, which takes the counter to
      its end, drops the leases parked there without releasing them. */
  ghost function Overwritten(e: Ledger, g: nat): Ledger
  {
    if g !in e.pending then e
    else e.(pending := e.pending - {g}, dropped := e.dropped + e.pending[g],
            where := MoveAll(e.where, e.pending[g], Dropped))
  }

  lemma {:induction false} OverwrittenPlaced(e: Ledger, g: nat)
    requires Placed(e)
    ensures Placed(Overwritten(e, g)) && Overwritten(e, g).where.Keys == e.where.Keys
  {
    forall p, l ensures Contains(Overwritten(e, g), p, l) <==> At(Overwritten(e, g).where, l, p) {
      assert Contains(e, p, l) <==> At(e.where, l, p);
      assert Contains(e, Pending(g), l) <==> At(e.where, l, Pending(g));
    }
  }

  ghost function Planning(e: Ledger, plans: map<Listener, LeaseId>): Ledger
  {
    e.(provisioning := Some(plans), where := e.where + map l | l in plans.Values :: Provisioning)
  }

  /** A generation planned, provisioned and parked in one go. */
  ghost function Prepare(e: Ledger, plans: map<Listener, LeaseId>, g: nat): Ledger
  {
    Parking(Planning(Overwritten(e, g), plans), g)
  }

  lemma {:induction false} PreparePlaced(e: Ledger, plans: map<Listener, LeaseId>, g: nat)
    requires Placed(e) && e.provisioning.None? && Fresh(e, plans)
    ensures Placed(Prepare(e, plans, g))
  {
    OverwrittenPlaced(e, g);
    PlanPlaced(Overwritten(e, g), Planning(Overwritten(e, g), plans), plans);
    ParkingPlaced(Planning(Overwritten(e, g), plans), g);
  }

  datatype CommandError = UnknownGeneration

  class StoreProvisionService {
    var serving: bool
    var activeLeases: set<LeaseId>
    var activePlans: map<Listener, LeaseId>
    var pending: map<nat, map<Listener, LeaseId>>
    var nextGeneration: nat
    var tasks: map<nat, Drain>
    var nextTask: nat
    ghost var ledger: Ledger

    /** The locals agree with the ledger, and the active plans are the plans of
        exactly the active leases. */
    ghost predicate Valid()
      reads this
    {
      && Placed(ledger) && ledger.provisioning.None?
      && activeLeases == ledger.active == activePlans.Values
      && pending.Keys == ledger.pending.Keys && (forall g | g in pending :: ledger.pending[g] == pending[g].Values)
      && tasks == ledger.drains && nextTask == ledger.nextTask
    }

    constructor (plans: map<Listener, LeaseId>)
      ensures Valid() && serving && activePlans == plans && pending == map[] && nextGeneration == 1 && tasks == map[]
    {
      serving, activeLeases, activePlans, pending, nextGeneration := true, plans.Values, plans, map[], 1;
      tasks, nextTask := map[], 0;
      ledger := Ledger(None, map[], plans.Values, map[], 0, {}, [], {}, map l | l in plans.Values :: Active);
      new;
      forall p, l ensures Contains(ledger, p, l) <==> At(ledger.where, l, p) {}
    }

    /** The prepare arm, given what planning and `provision_all` returned. */
    method PrepareGeneration(provisioned: Result<map<Listener, LeaseId>, string>) returns (reply: Result<nat, string>)
      requires Valid() && serving
      requires provisioned.Ok? ==> Fresh(ledger, provisioned.value)
      modifies this`pending, this`nextGeneration, this`ledger
      ensures Valid()
      ensures provisioned.Ok? ==>
                && reply == Ok(old(nextGeneration)) && nextGeneration == SaturatingNext(old(nextGeneration))
                && pending == old(pending)[old(nextGeneration) := provisioned.value]
                && ledger == Prepare(old(ledger), provisioned.value, old(nextGeneration))
      ensures provisioned.Err? ==>
          reply.Err? && pending == old(pending) && nextGeneration == old(nextGeneration) && ledger == old(ledger)
    {
      match provisioned
      case Ok(plans) =>
        var generation := nextGeneration;
        nextGeneration := if nextGeneration < MAX_GENERATION then nextGeneration + 1 else nextGeneration;
        pending := pending[generation := plans];
        PreparePlaced(ledger, plans, generation);
        ledger := Prepare(ledger, plans, generation);
        reply := Ok(generation);
      case Err(e) =>
        reply := Err(e);
    }

    /** The commit arm: the prepared generation becomes active and a drain task
        takes the leases it replaces. */
    method CommitGeneration(generation: nat, oldPipelines: seq<Pipeline>) returns (reply: Result<(), CommandError>)
      requires Valid() && serving
      modifies this
      ensures Valid() && serving && nextGeneration == old(nextGeneration)
      ensures reply.Ok? <==> generation in old(pending)
      ensures reply.Ok? ==>
                && ledger == Promote(old(ledger), generation, oldPipelines)
                && activePlans == old(pending)[generation] && pending == old(pending) - {generation}
                && tasks == old(tasks)[old(nextTask) := Drain(oldPipelines, 0, old(activeLeases))]
      ensures reply.Err? ==>
                && ledger == old(ledger) && activePlans == old(activePlans) && pending == old(pending)
                && tasks == old(tasks)
    {
      if generation in pending {
        PromotePlaced(ledger, generation, oldPipelines);
        ghost var promoted := Promote(ledger, generation, oldPipelines);
        var newPlans := pending[generation];
        pending := pending - {generation};
        var oldLeases := activeLeases;
        activeLeases := newPlans.Values;
        activePlans := newPlans;
        tasks := tasks[nextTask := Drain(oldPipelines, 0, oldLeases)];
        nextTask := nextTask + 1;
        ledger := promoted;
        reply := Ok(());
      } else {
        reply := Err(UnknownGeneration);
      }
    }

    /** The abort arm: the prepared generation is released. */
    method AbortGeneration(generation: nat) returns (reply: Result<(), CommandError>)
      requires Valid() && serving
      modifies this`pending, this`ledger
      ensures Valid()
      ensures reply.Ok? <==> generation in old(pending)
      ensures reply.Ok? ==> ledger == Discard(old(ledger), generation) && pending == old(pending) - {generation}
      ensures reply.Err? ==> ledger == old(ledger) && pending == old(pending)
    {
      if generation in pending {
        DiscardPlaced(ledger, generation);
        ledger := Discard(ledger, generation);
        pending := pending - {generation};
        reply := Ok(());
      } else {
        reply := Err(UnknownGeneration);
      }
    }

    /** Leaving the loop: pending generations are released, active leases dropped. */
    method Shutdown()
      requires Valid() && serving
      modifies this
      ensures Valid() && !serving && pending == map[] && tasks == old(tasks)
      ensures ledger == Stop(old(ledger))
    {
      StopPlaced(ledger);
      ledger := Stop(ledger);
      serving, pending, activeLeases, activePlans := false, map[], {}, map[];
    }
  }

  // ---------------------------------------------------------- one reload

  /** What the parts of a reload outside the two files do: validation, the two
      pipeline builds, and provisioning. The last two say
      whether the provisioner shuts down before it is asked to prepare, and
      between its prepare and commit commands. */
  datatype Environment = Environment(
    logOverrides: Result<(), string>,
    storeWiring: Result<(), string>,
    validationBuild: Result<(), string>,
    provisioned: Result<map<Listener, LeaseId>, string>,
    build: Result<map<Listener, Pipeline>, string>,
    names: seq<Listener>,
    healthRegistry: nat,
    healthEmpty: bool,
    stopBeforePrepare: bool,
    stopAfterPrepare: bool)

  datatype ReloadError = Failed(message: string) | StoppedBeforePrepare | StoppedBeforeCommit

  predicate UsesStores(oldConfig: Config, newConfig: Config)
  {
    newConfig.stores.Keys != {} || oldConfig.stores.Keys != {}
  }

  /** Validation and provisioning go through, and the provisioner is there to ask. */
  predicate PrepareSucceeds(oldConfig: Config, newConfig: Config, env: Environment, serving: bool)
  {
    && env.logOverrides.Ok?
    && (UsesStores(oldConfig, newConfig) ==>
          env.storeWiring.Ok? && env.validationBuild.Ok? && serving && !env.stopBeforePrepare && env.provisioned.Ok?)
  }

  /** The live slots after publication: a slot is replaced exactly when the new
      configuration has a pipeline for it; no slot appears or disappears. */
  function Published(live: map<Listener, Pipeline>, built: map<Listener, Pipeline>): map<Listener, Pipeline>
  {
    map n | n in live :: if n in built then built[n] else live[n]
  }

  class Reloader {
    const store: StoreProvisionService
    var live: map<Listener, Pipeline>
    var healthToken: nat
    var nextToken: nat
    var cancelled: set<nat>
    var checkers: set<nat>
    var healthSlot: nat

    /** Health checks run only under the current token; every older token is
        cancelled. */
    ghost predicate HealthValid()
      reads this
    {
      && healthToken < nextToken && healthToken !in cancelled
      && (forall t | t in checkers :: t == healthToken || t in cancelled)
      && (forall t | t in cancelled :: t < nextToken)
    }

    constructor (store: StoreProvisionService, live: map<Listener, Pipeline>)
      ensures this.store == store && this.live == live && HealthValid()
    {
      this.store, this.live := store, live;
      healthToken, nextToken, cancelled, checkers, healthSlot := 0, 1, {}, {}, 0;
    }

    /** Swap every slot the new pipelines have an entry for. */
    method SwapSlots(built: map<Listener, Pipeline>, names: seq<Listener>)
      requires forall n :: n in names <==> n in built
      modifies this`live
      ensures live == Published(old(live), built)
    {
      var i := 0;
      while i < |names|
        invariant 0 <= i <= |names|
        invariant live.Keys == old(live).Keys
        invariant forall n | n in live :: live[n] == if n in names[..i] then built[n] else old(live)[n]
      {
        assert names[..i + 1] == names[..i] + [names[i]];
        if names[i] in live {
          live := live[names[i] := built[names[i]]];
        }
        i := i + 1;
      }
      assert names[..|names|] == names;
    }

    /** Replace the health token, cancel the old one, and spawn checks for a
        nonempty registry. */
    method RespawnHealthChecks(empty: bool)
      requires HealthValid()
      modifies this`healthToken, this`nextToken, this`cancelled, this`checkers
      ensures HealthValid()
      ensures healthToken == old(nextToken) && cancelled == old(cancelled) + {old(healthToken)}
      ensures checkers == if empty then old(checkers) else old(checkers) + {healthToken}
    {
      var oldToken := healthToken;
      healthToken, nextToken := nextToken, nextToken + 1;
      cancelled := cancelled + {oldToken};
      if empty {
        return;
      }
      checkers := checkers + {healthToken};
    }

    /** The part of a reload before the build: validation, and a prepared
        generation when either configuration uses stores. */
    method PrepareStores(oldConfig: Config, newConfig: Config, env: Environment)
      returns (prepared: Result<Option<nat>, ReloadError>)
      requires store.Valid() && store.pending == map[]
      requires env.provisioned.Ok? ==> Fresh(store.ledger, env.provisioned.value)
      modifies store
      ensures store.Valid() && store.nextTask == old(store.nextTask) && store.tasks == old(store.tasks)
      ensures store.serving ==>
          store.activePlans == old(store.activePlans) && store.activeLeases == old(store.activeLeases)
      ensures prepared.Ok? <==> PrepareSucceeds(oldConfig, newConfig, env, old(store.serving))
      ensures prepared.Ok? ==>
          (store.serving <==> old(store.serving) && !(UsesStores(oldConfig, newConfig) && env.stopAfterPrepare))
      ensures prepared.Err? ==> store.pending == map[]
      ensures prepared.Ok? ==> (prepared.value.Some? <==> UsesStores(oldConfig, newConfig))
      ensures prepared == Ok(None) ==> store.pending == map[] && store.activePlans == old(store.activePlans)
      ensures prepared.Ok? && prepared.value.Some? && store.serving ==>
                env.provisioned.Ok? && store.pending == map[prepared.value.value := env.provisioned.value]
    {
      if env.logOverrides.Err? {
        return Err(Failed(env.logOverrides.error));
      }
      if !(newConfig.stores.Keys != {} || oldConfig.stores.Keys != {}) {
        return Ok(None);
      }
      if env.storeWiring.Err? {
        return Err(Failed(env.storeWiring.error));
      }
      if env.validationBuild.Err? {
        return Err(Failed(env.validationBuild.error));
      }
      if env.stopBeforePrepare && store.serving {
        store.Shutdown();
      }
      if !store.serving {
        return Err(StoppedBeforePrepare);
      }
      var reply := store.PrepareGeneration(env.provisioned);
      if reply.Err? {
        return Err(Failed(reply.error));
      }
      prepared := Ok(Some(reply.value));
      if env.stopAfterPrepare {
        store.Shutdown();
      }
    }

    /** One reload. Any error leaves the live slots, the health token, the
        running checkers and the health slot exactly as they were, and the
        active generation too unless the provisioner itself was shut down; a
        success publishes every new pipeline that has a slot. */
    method ReloadPipelines(oldConfig: Config, newConfig: Config, env: Environment)
      returns (result: Result<(), ReloadError>)
      requires HealthValid() && store.Valid() && store.pending == map[]
      requires env.provisioned.Ok? ==> Fresh(store.ledger, env.provisioned.value)
      requires env.build.Ok? ==> forall n :: n in env.names <==> n in env.build.value
      modifies this, store
      ensures HealthValid() && store.Valid()
      ensures result.Ok? <==>
              && PrepareSucceeds(oldConfig, newConfig, env, old(store.serving)) && env.build.Ok?
              && !(UsesStores(oldConfig, newConfig) && env.stopAfterPrepare)
      ensures result.Err? ==>
                && live == old(live) && healthToken == old(healthToken) && cancelled == old(cancelled)
                && checkers == old(checkers) && healthSlot == old(healthSlot)
                && (store.serving ==>
                    && store.activePlans == old(store.activePlans) && store.pending == map[]
                    && store.tasks == old(store.tasks))
      ensures result.Ok? ==>
                && env.build.Ok? && live == Published(old(live), env.build.value)
                && healthToken == old(nextToken) && cancelled == old(cancelled) + {old(healthToken)}
                && checkers == (if env.healthEmpty then old(checkers) else old(checkers) + {healthToken})
                && healthSlot == env.healthRegistry
                && store.serving == old(store.serving) && store.pending == map[]
                && (if UsesStores(oldConfig, newConfig)
                    then && env.provisioned == Ok(store.activePlans) && old(store.nextTask) in store.tasks
                         && store.tasks == old(store.tasks)[old(store.nextTask) := store.tasks[old(store.nextTask)]]
                         && store.tasks[old(store.nextTask)].leases == old(store.activeLeases)
                         && store.tasks[old(store.nextTask)].scanned == 0
                         && Observes(old(live), oldConfig.stores.Keys, store.tasks[old(store.nextTask)].observed)
                    else store.activePlans == old(store.activePlans) && store.tasks == old(store.tasks))
    {
      var preparation := PrepareStores(oldConfig, newConfig, env);
      if preparation.Err? {
        return Err(preparation.error);
      }
      var prepared := preparation.value;
      if env.build.Err? {
        if prepared.Some? && store.serving {
          var aborted := store.AbortGeneration(prepared.value);
        }
        return Err(Failed(env.build.error));
      }
      var oldPipelines := Observers(oldConfig);
      if prepared.Some? {
        if !store.serving {
          return Err(StoppedBeforeCommit);
        }
        var reply := store.CommitGeneration(prepared.value, oldPipelines);
        // the generation is parked, so the loop cannot refuse it
        assert reply.Ok?;
      }
      SwapSlots(env.build.value, env.names);
      RespawnHealthChecks(env.healthEmpty);
      healthSlot := env.healthRegistry;
      result := Ok(());
    }

    /** The pipelines in the slots of the old configuration's store listeners. */
    method Observers(oldConfig: Config) returns (observed: seq<Pipeline>)
      ensures Observes(live, oldConfig.stores.Keys, observed)
    {
      observed := [];
      var rest := oldConfig.stores.Keys;
      while rest != {}
        invariant rest <= oldConfig.stores.Keys
        invariant Observes(live, oldConfig.stores.Keys - rest, observed)
        decreases rest
      {
        var n :| n in rest;
        rest := rest - {n};
        if n in live {
          observed := observed + [live[n]];
        }
      }
    }
  }
}
