/** Store generations and hot reload as a transition system: the config watcher
    (server/src/reload.rs), the provisioner on the serving runtime and its drain
    tasks (server/src/store_provision.rs), the backend cache they lease from
    (store-lifecycle/src/lib.rs), and the requests that hold pipelines meanwhile.

    The system starts once the initial generation is provisioned. A lease is what
    one listener's plan holds; the leases of a generation move together. */
module Generations {
  import opened Collections
  import opened Leases
  import opened Results

  type Listener = string
  type LeaseId = nat

  /** A built pipeline, and the lease behind the store registry attached to it. */
  datatype Pipeline = Pipeline(id: nat, lease: Option<LeaseId>)

  /** The listeners of a configuration, and the cache keys planned for those
      whose chains reach a store filter. */
  datatype Config = Config(listeners: set<Listener>, stores: map<Listener, set<CacheKey>>)

  /** `release_after_drain`: weak observers of old pipelines, how many of them
      the current scan has found dropped, and the leases it will release. */
  datatype Drain = Drain(observed: seq<Pipeline>, scanned: nat, leases: set<LeaseId>)

  /** What requests see: the live slots, and the pipelines requests hold. */
  datatype DataPlane = DataPlane(slots: map<Listener, Pipeline>, inflight: map<nat, Pipeline>)

  /** Where `reload_pipelines` stands. */
  datatype Watcher =
    | Idle
    | WaitPrepare(config: Config)
    | Prepared(config: Config, generation: nat, plans: map<Listener, LeaseId>)
    | NoStores(config: Config)
    | Built(config: Config, prepared: Option<nat>, pipes: map<Listener, Pipeline>)
    | WaitAbort(generation: nat)
    | WaitCommit(config: Config, generation: nat, pipes: map<Listener, Pipeline>, observed: seq<Pipeline>)
    | Swapping(config: Config, pipes: map<Listener, Pipeline>, todo: set<Listener>)

  /** Where a granted lease is: a history of moves kept beside the containers of
      the source. `Placed` says the two agree. */
  datatype Place =
    | Provisioning
    | Pending(generation: nat)
    | Active
    | Draining(task: nat)
    | Releasing
    | Released
    | Dropped

  /** Who owns each granted lease: the provisioner's locals (`active`, `pending`
      and the generation being provisioned), the spawned drain tasks, and the
      leases being released, released, or dropped unreleased at shutdown. */
  datatype Ledger = Ledger(
    provisioning: Option<map<Listener, LeaseId>>,
    pending: map<nat, set<LeaseId>>,
    active: set<LeaseId>,
    drains: map<nat, Drain>,
    nextTask: nat,
    releasing: set<LeaseId>,
    released: seq<LeaseId>,
    dropped: set<LeaseId>,
    where: map<LeaseId, Place>)

  /** `registry` is what each lease's store registry resolves to, `built` every
      pipeline ever built, `applied` the store listeners of the last applied
      config, and `committed` the leases of every generation made active. */
  datatype State = State(
    serving: bool,
    nextGeneration: nat,
    ledger: Ledger,
    cache: Cache,
    registry: map<LeaseId, map<CacheKey, nat>>,
    plane: DataPlane,
    built: set<Pipeline>,
    watcher: Watcher,
    applied: set<Listener>,
    committed: set<LeaseId>)

  const MAX_GENERATION: nat := 0xFFFF_FFFF_FFFF_FFFF

  function SaturatingNext(g: nat): nat
  {
    if g < MAX_GENERATION then g + 1 else g
  }

  /** A pipeline the data plane uses: published in a slot or held by a request. */
  ghost predicate Live(plane: DataPlane, p: Pipeline)
  {
    (exists n :: n in plane.slots && plane.slots[n] == p) || (exists r :: r in plane.inflight && plane.inflight[r] == p)
  }

  function Pipes(w: Watcher): map<Listener, Pipeline>
  {
    match w
    case Built(_, _, pipes) => pipes
    case WaitCommit(_, _, pipes, _) => pipes
    case Swapping(_, pipes, _) => pipes
    case _ => map[]
  }

  /** `strong_count() > 0`. */
  ghost predicate Strong(plane: DataPlane, pipes: map<Listener, Pipeline>, p: Pipeline)
  {
    Live(plane, p) || exists n :: n in pipes && pipes[n] == p
  }

  // ---------------------------------------------------------------- actions

  datatype Action =
    | RequestStart(request: nat, listener: Listener)
    | RequestEnd(request: nat)
    | BeginReload(config: Config)
    | PlanLeases(plans: map<Listener, LeaseId>)
    | Acquire(listener: Listener, key: CacheKey, build: bool)
    | WorkerFailed(listener: Listener)
    | ProvisionOk
    | ProvisionErr
    | BuildOk(pipes: map<Listener, Pipeline>)
    | BuildErr
    | SendCommit(observed: seq<Pipeline>)
    | CommitGeneration
    | AbortGeneration
    | CommandLost
    | SwapSlot(listener: Listener)
    | FinishReload
    | ScanDrain(task: nat)
    | FinishDrain(task: nat)
    | DropDrain(task: nat)
    | ReleaseHold(hold: Hold)
    | FinishRelease(lease: LeaseId)
    | Shutdown

  ghost predicate Injective<K, V>(m: map<K, V>)
  {
    forall j, k | j in m && k in m && j != k :: m[j] != m[k]
  }

  ghost function PlansOf(w: Watcher): map<Listener, LeaseId>
  {
    if w.Prepared? then w.plans else map[]
  }

  /** The observers of `store_listener_names(old_config)`: the pipelines now in
      the slots of the store listeners of the last applied config. */
  ghost predicate Observes(slots: map<Listener, Pipeline>, applied: set<Listener>, observed: seq<Pipeline>)
  {
    && (forall n | n in applied && n in slots :: slots[n] in observed)
    && (forall p | p in observed :: exists n :: n in applied && n in slots && slots[n] == p)
  }

  /** Every worker still in `provision_all` has resolved all its keys. */
  ghost predicate WorkersDone(s: State)
    requires s.watcher.WaitPrepare? && s.ledger.provisioning.Some?
  {
    forall n | n in s.ledger.provisioning.value && n in s.watcher.config.stores ::
      && s.ledger.provisioning.value[n] in s.registry
      && s.registry[s.ledger.provisioning.value[n]].Keys == s.watcher.config.stores[n]
  }

  ghost predicate Enabled(s: State, a: Action)
  {
    match a
    case RequestStart(r, n) => n in s.plane.slots && r !in s.plane.inflight
    case RequestEnd(r) => r in s.plane.inflight
    case BeginReload(config) => s.watcher.Idle? && config.stores.Keys <= config.listeners
    case PlanLeases(plans) =>
      && s.serving && s.watcher.WaitPrepare? && s.ledger.provisioning.None?
      && plans.Keys == s.watcher.config.stores.Keys && Injective(plans)
      && (forall n | n in plans :: plans[n] !in s.ledger.where)
    case Acquire(n, key, build) =>
      && s.serving && s.watcher.WaitPrepare? && s.ledger.provisioning.Some?
      && n in s.ledger.provisioning.value && n in s.watcher.config.stores && key in s.watcher.config.stores[n]
      && (build || key in s.cache.entries)
    case WorkerFailed(n) =>
      && s.serving && s.watcher.WaitPrepare? && s.ledger.provisioning.Some? && n in s.ledger.provisioning.value
    case ProvisionOk =>
      && s.serving && s.watcher.WaitPrepare? && s.ledger.provisioning.Some?
      && WorkersDone(s) && s.ledger.provisioning.value.Keys == s.watcher.config.stores.Keys
    case ProvisionErr =>
      && s.serving && s.watcher.WaitPrepare?
      && (s.ledger.provisioning.Some? ==>
          WorkersDone(s) && s.ledger.provisioning.value.Keys != s.watcher.config.stores.Keys)
    case BuildOk(pipes) =>
      && (s.watcher.Prepared? || s.watcher.NoStores?)
      && pipes.Keys == s.watcher.config.listeners && Injective(pipes)
      && (forall n | n in pipes :: pipes[n] !in s.built)
      && (forall n | n in pipes ::
            pipes[n].lease == if n in PlansOf(s.watcher) then Some(PlansOf(s.watcher)[n]) else None)
    case BuildErr => s.watcher.Prepared? || s.watcher.NoStores?
    case SendCommit(observed) => s.watcher.Built? && Observes(s.plane.slots, s.applied, observed)
    case CommitGeneration => s.serving && s.watcher.WaitCommit?
    case AbortGeneration => s.serving && s.watcher.WaitAbort?
    case CommandLost => !s.serving && (s.watcher.WaitPrepare? || s.watcher.WaitAbort? || s.watcher.WaitCommit?)
    case SwapSlot(n) => s.watcher.Swapping? && n in s.watcher.todo && n in s.watcher.pipes
    case FinishReload => s.watcher.Swapping? && s.watcher.todo == {}
    case ScanDrain(d) => d in s.ledger.drains && s.ledger.drains[d].scanned < |s.ledger.drains[d].observed|
    case FinishDrain(d) => d in s.ledger.drains && s.ledger.drains[d].scanned == |s.ledger.drains[d].observed|
    case DropDrain(d) => !s.serving && d in s.ledger.drains
    case ReleaseHold(h) => h.lease in s.ledger.releasing && h in s.cache.holds
    case FinishRelease(l) => l in s.ledger.releasing && forall h | h in s.cache.holds :: h.lease != l
    case Shutdown => s.serving
  }

  // ---------------------------------------------------------------- effects

  ghost function MoveAll(where: map<LeaseId, Place>, leases: set<LeaseId>, to: Place): map<LeaseId, Place>
  {
    map l | l in where :: if l in leases then to else where[l]
  }

  ghost function AllPending(pending: map<nat, set<LeaseId>>): set<LeaseId>
  {
    set g, l | g in pending && l in pending[g] :: l
  }

  ghost function Planned(e: Ledger): set<LeaseId>
  {
    if e.provisioning.Some? then e.provisioning.value.Values else {}
  }

  /** Store provisioning is involved when either config uses a store. */
  ghost function Begin(s: State, config: Config): State
  {
    s.(watcher := if config.stores.Keys != {} || s.applied != {} then WaitPrepare(config) else NoStores(config))
  }

  /** Plan one lease per store listener; its registry starts empty. */
  ghost function Plan(s: State, plans: map<Listener, LeaseId>): State
  {
    s.(registry := s.registry + map l | l in plans.Values :: map[],
       ledger := s.ledger.(provisioning := Some(plans),
                           where := s.ledger.where + map l | l in plans.Values :: Provisioning))
  }

  ghost function AcquireKey(s: State, lease: LeaseId, key: CacheKey, build: bool): State
    requires build || key in s.cache.entries
  {
    var h := Hold(lease, key);
    var cache := if build then InsertOrReuse(s.cache, h) else Reuse(s.cache, h);
    var resolved := if lease in s.registry then s.registry[lease] else map[];
    s.(cache := cache, registry := s.registry[lease := resolved[key := cache.entries[key].instance]])
  }

  /** One worker failed: it releases what it took while the others go on. */
  ghost function Withdraw(e: Ledger, n: Listener): Ledger
    requires e.provisioning.Some? && n in e.provisioning.value
  {
    var l := e.provisioning.value[n];
    e.(provisioning := Some(e.provisioning.value - {n}), releasing := e.releasing + {l},
       where := e.where[l := Releasing])
  }

  ghost function Parking(e: Ledger, g: nat): Ledger
  {
    e.(pending := e.pending[g := Planned(e)], provisioning := None, where := MoveAll(e.where, Planned(e), Pending(g)))
  }

  /** `provision_all` succeeded: park the generation and reply with its registries. */
  ghost function Park(s: State): State
    requires s.watcher.WaitPrepare? && s.ledger.provisioning.Some?
  {
    s.(ledger := Parking(s.ledger, s.nextGeneration), nextGeneration := SaturatingNext(s.nextGeneration),
       watcher := Prepared(s.watcher.config, s.nextGeneration, s.ledger.provisioning.value))
  }

  /** Planning or `provision_all` failed: whatever was obtained is released. */
  ghost function Unplan(e: Ledger): Ledger
  {
    e.(provisioning := None, releasing := e.releasing + Planned(e), where := MoveAll(e.where, Planned(e), Releasing))
  }

  ghost function Build(s: State, pipes: map<Listener, Pipeline>): State
    requires s.watcher.Prepared? || s.watcher.NoStores?
  {
    s.(built := s.built + pipes.Values,
       watcher := Built(s.watcher.config, if s.watcher.Prepared? then Some(s.watcher.generation) else None, pipes))
  }

  ghost function Send(s: State, observed: seq<Pipeline>): State
    requires s.watcher.Built?
  {
    var w := s.watcher;
    s.(watcher := if w.prepared.Some? then WaitCommit(w.config, w.prepared.value, w.pipes, observed)
                  else Swapping(w.config, w.pipes, w.pipes.Keys))
  }

  /** Promote generation `g`; a drain task takes over the old active leases. */
  ghost function Promote(e: Ledger, g: nat, observed: seq<Pipeline>): Ledger
    requires g in e.pending
  {
    e.(active := e.pending[g], pending := e.pending - {g},
       drains := e.drains[e.nextTask := Drain(observed, 0, e.active)], nextTask := e.nextTask + 1,
       where := MoveAll(MoveAll(e.where, e.active, Draining(e.nextTask)), e.pending[g], Active))
  }

  /** The commit arm of the command loop. */
  ghost function Commit(s: State): State
    requires s.watcher.WaitCommit?
  {
    var w := s.watcher;
    if w.generation in s.ledger.pending then
      s.(ledger := Promote(s.ledger, w.generation, w.observed),
         committed := s.committed + s.ledger.pending[w.generation],
         watcher := Swapping(w.config, w.pipes, w.pipes.Keys))
    else s.(watcher := Idle)
  }

  ghost function Discard(e: Ledger, g: nat): Ledger
    requires g in e.pending
  {
    e.(pending := e.pending - {g}, releasing := e.releasing + e.pending[g],
       where := MoveAll(e.where, e.pending[g], Releasing))
  }

  /** The abort arm of the command loop. */
  ghost function Abort(s: State): State
    requires s.watcher.WaitAbort?
  {
    s.(ledger := if s.watcher.generation in s.ledger.pending then Discard(s.ledger, s.watcher.generation) else s.ledger,
       watcher := Idle)
  }

  ghost function Swap(s: State, n: Listener): State
    requires s.watcher.Swapping? && n in s.watcher.pipes
  {
    var w := s.watcher;
    s.(plane := if n in s.plane.slots then s.plane.(slots := s.plane.slots[n := w.pipes[n]]) else s.plane,
       watcher := Swapping(w.config, w.pipes, w.todo - {n}))
  }

  /** One `strong_count` check: start over when it is positive. */
  ghost function Scan(t: Drain, plane: DataPlane, pipes: map<Listener, Pipeline>): Drain
    requires t.scanned < |t.observed|
  {
    t.(scanned := if Strong(plane, pipes, t.observed[t.scanned]) then 0 else t.scanned + 1)
  }

  ghost function Drained(e: Ledger, d: nat): Ledger
    requires d in e.drains
  {
    e.(drains := e.drains - {d}, releasing := e.releasing + e.drains[d].leases,
       where := MoveAll(e.where, e.drains[d].leases, Releasing))
  }

  ghost function Undrained(e: Ledger, d: nat): Ledger
    requires d in e.drains
  {
    e.(drains := e.drains - {d}, dropped := e.dropped + e.drains[d].leases,
       where := MoveAll(e.where, e.drains[d].leases, Dropped))
  }

  /** Leaving the command loop: pending generations are released, the active
      leases and a half-provisioned generation are dropped with the runtime. */
  ghost function Stop(e: Ledger): Ledger
  {
    e.(active := {}, pending := map[], provisioning := None,
       releasing := e.releasing + AllPending(e.pending), dropped := e.dropped + (e.active + Planned(e)),
       where := MoveAll(MoveAll(e.where, AllPending(e.pending), Releasing), e.active + Planned(e), Dropped))
  }

  ghost function Apply(s: State, a: Action): State
    requires Enabled(s, a)
  {
    match a
    case RequestStart(r, n) => s.(plane := s.plane.(inflight := s.plane.inflight[r := s.plane.slots[n]]))
    case RequestEnd(r) => s.(plane := s.plane.(inflight := s.plane.inflight - {r}))
    case BeginReload(config) => Begin(s, config)
    case PlanLeases(plans) => Plan(s, plans)
    case Acquire(n, key, build) => AcquireKey(s, s.ledger.provisioning.value[n], key, build)
    case WorkerFailed(n) => s.(ledger := Withdraw(s.ledger, n))
    case ProvisionOk => Park(s)
    case ProvisionErr => s.(ledger := Unplan(s.ledger), watcher := Idle)
    case BuildOk(pipes) => Build(s, pipes)
    case BuildErr => s.(watcher := if s.watcher.Prepared? then WaitAbort(s.watcher.generation) else Idle)
    case SendCommit(observed) => Send(s, observed)
    case CommitGeneration => Commit(s)
    case AbortGeneration => Abort(s)
    case CommandLost => s.(watcher := Idle)
    case SwapSlot(n) => Swap(s, n)
    case FinishReload => s.(applied := s.watcher.config.stores.Keys, watcher := Idle)
    case ScanDrain(d) =>
      var t := Scan(s.ledger.drains[d], s.plane, Pipes(s.watcher));
      s.(ledger := s.ledger.(drains := s.ledger.drains[d := t]))
    case FinishDrain(d) => s.(ledger := Drained(s.ledger, d))
    case DropDrain(d) => s.(ledger := Undrained(s.ledger, d))
    case ReleaseHold(h) => s.(cache := Release(s.cache, h))
    case FinishRelease(l) =>
      s.(ledger := s.ledger.(releasing := s.ledger.releasing - {l}, released := s.ledger.released + [l],
                             where := s.ledger.where[l := Released]))
    case Shutdown => s.(serving := false, ledger := Stop(s.ledger))
  }

  // ------------------------------------------------------------- invariants

  ghost predicate At(where: map<LeaseId, Place>, l: LeaseId, p: Place)
  {
    l in where && where[l] == p
  }

  /** The container of the source that stands for each place. */
  ghost predicate Contains(e: Ledger, p: Place, l: LeaseId)
  {
    match p
    case Provisioning => l in Planned(e)
    case Pending(g) => g in e.pending && l in e.pending[g]
    case Active => l in e.active
    case Draining(d) => d in e.drains && l in e.drains[d].leases
    case Releasing => l in e.releasing
    case Released => l in e.released
    case Dropped => l in e.dropped
  }

  /** Every container holds exactly the leases whose last move was into it, so
      each granted lease is in exactly one of them. */
  ghost predicate Placed(e: Ledger)
  {
    && (forall p, l :: Contains(e, p, l) <==> At(e.where, l, p))
    && NoRepeats(e.released)
    && (forall d | d in e.drains :: d < e.nextTask)
  }

  /** A lease that is not being released holds every key of its registry, and
      its registry resolves each key to the instance cached under it. */
  ghost predicate Backed(cache: Cache, registry: map<LeaseId, map<CacheKey, nat>>, where: map<LeaseId, Place>)
  {
    && Valid(cache)
    && registry.Keys == where.Keys
    && (forall h | h in cache.holds :: h.lease in where && where[h.lease] != Released && h.key in registry[h.lease])
    && (forall l, k | l in where && k in registry[l] && !where[l].Releasing? && !where[l].Released? ::
          Hold(l, k) in cache.holds && cache.entries[k].instance == registry[l][k])
  }

  ghost predicate AllBuilt(pipes: map<Listener, Pipeline>, built: set<Pipeline>)
  {
    forall n | n in pipes :: pipes[n] in built
  }

  ghost predicate PlaneBuilt(plane: DataPlane, built: set<Pipeline>)
  {
    AllBuilt(plane.slots, built) && forall r | r in plane.inflight :: plane.inflight[r] in built
  }

  ghost predicate DrainsBuilt(drains: map<nat, Drain>, built: set<Pipeline>)
  {
    forall d, p | d in drains && p in drains[d].observed :: p in built
  }

  ghost predicate Granted(built: set<Pipeline>, where: map<LeaseId, Place>)
  {
    forall p | p in built && p.lease.Some? :: p.lease.value in where
  }

  ghost predicate NoneLive(plane: DataPlane, pipes: map<Listener, Pipeline>)
  {
    forall n | n in pipes :: !Live(plane, pipes[n])
  }

  /** Only listeners with a store plan got a registry, from one of `leases`. */
  ghost predicate Attached(pipes: map<Listener, Pipeline>, config: Config, leases: set<LeaseId>)
  {
    forall n | n in pipes && pipes[n].lease.Some? :: n in config.stores && pipes[n].lease.value in leases
  }

  /** The generation parked for the watcher is the only pending one, and the
      pipelines built against it are not live. */
  ghost predicate Parked(serving: bool, e: Ledger, w: Watcher, plane: DataPlane, applied: set<Listener>)
  {
    && (!w.WaitPrepare? || !serving ==> e.provisioning.None?)
    && (w.WaitPrepare? && e.provisioning.Some? ==>
        e.provisioning.value.Keys <= w.config.stores.Keys && Injective(e.provisioning.value))
    && (w.Prepared? && serving ==> e.pending == map[w.generation := w.plans.Values])
    && (w.Prepared? ==> w.plans.Keys == w.config.stores.Keys)
    && (w.Built? && w.prepared.Some? && serving ==>
          e.pending.Keys == {w.prepared.value} && Attached(w.pipes, w.config, e.pending[w.prepared.value]))
    && (w.WaitCommit? && serving ==>
        e.pending.Keys == {w.generation} && Attached(w.pipes, w.config, e.pending[w.generation]))
    && (w.WaitAbort? && serving ==> e.pending.Keys == {w.generation})
    && (w.Built? || w.WaitCommit? ==> Injective(w.pipes) && NoneLive(plane, w.pipes))
    && (w.NoStores? ==> w.config.stores.Keys == {} && applied == {})
    && (w.Built? && w.prepared.None? ==> applied == {} && Attached(w.pipes, w.config, {}))
    && (w.WaitCommit? ==> Observes(plane.slots, applied, w.observed))
    && (!(w.Prepared? || w.WaitCommit? || w.WaitAbort? || (w.Built? && w.prepared.Some?)) || !serving ==>
        e.pending == map[])
    && (!serving ==> e.active == {})
  }

  /** While slots are swapped, what is being published is committed. */
  ghost predicate Publishing(w: Watcher, plane: DataPlane, where: map<LeaseId, Place>, committed: set<LeaseId>)
  {
    w.Swapping? ==>
      && w.todo <= w.pipes.Keys
      && Injective(w.pipes)
      && Attached(w.pipes, w.config, committed)
      && (forall n | n in w.pipes && w.pipes[n].lease.Some? ::
            At(where, w.pipes[n].lease.value, Active) || At(where, w.pipes[n].lease.value, Dropped))
      && (forall n | n in w.todo :: !Live(plane, w.pipes[n]))
  }

  /** A pipeline of the active generation sits in the slot of a store listener
      that the next reload will observe. */
  ghost predicate Current(w: Watcher, slots: map<Listener, Pipeline>, applied: set<Listener>, p: Pipeline)
  {
    if w.Swapping? then
      exists n :: n in w.config.stores && n in slots && slots[n] == p && n in w.pipes && n !in w.todo && w.pipes[n] == p
    else
      exists n :: n in applied && n in slots && slots[n] == p
  }

  /** The drain task still has to find `p` dropped. */
  ghost predicate Awaited(t: Drain, p: Pipeline)
  {
    exists i :: t.scanned <= i < |t.observed| && t.observed[i] == p
  }

  /** The lease behind a live store pipeline belongs to a committed generation
      that is active, or draining behind an observer of that very pipeline, or
      was dropped unreleased at shutdown. */
  ghost predicate Kept(s: State, p: Pipeline, l: LeaseId)
  {
    && l in s.ledger.where
    && l in s.committed
    && match s.ledger.where[l]
       case Active => Current(s.watcher, s.plane.slots, s.applied, p)
       case Draining(d) => d in s.ledger.drains && Awaited(s.ledger.drains[d], p)
       case Dropped => true
       case _ => false
  }

  ghost predicate Covered(s: State)
  {
    forall p | Live(s.plane, p) && p.lease.Some? :: Kept(s, p, p.lease.value)
  }

  /** What a drain scan has found dropped stays dropped. */
  ghost predicate Scanned(drains: map<nat, Drain>, plane: DataPlane, pipes: map<Listener, Pipeline>)
  {
    && (forall d | d in drains :: drains[d].scanned <= |drains[d].observed|)
    && (forall d, i | d in drains && 0 <= i < drains[d].scanned :: !Strong(plane, pipes, drains[d].observed[i]))
  }

  ghost predicate Recorded(s: State)
  {
    && PlaneBuilt(s.plane, s.built) && AllBuilt(Pipes(s.watcher), s.built) && DrainsBuilt(s.ledger.drains, s.built)
    && Granted(s.built, s.ledger.where)
    && (forall n | n in PlansOf(s.watcher) :: PlansOf(s.watcher)[n] in s.ledger.where)
  }

  ghost predicate Inv(s: State)
  {
    && Placed(s.ledger)
    && Backed(s.cache, s.registry, s.ledger.where)
    && Recorded(s)
    && Parked(s.serving, s.ledger, s.watcher, s.plane, s.applied)
    && Publishing(s.watcher, s.plane, s.ledger.where, s.committed)
    && Covered(s)
    && Scanned(s.ledger.drains, s.plane, Pipes(s.watcher))
  }
}
