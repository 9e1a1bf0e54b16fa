# Verified model of the praxis-ai gateway core

This project models the parts of the gateway that carry state across requests,
reloads and threads, and proves what they promise. Five groups of code are
covered.

1. **Store generations and hot reload.** The config watcher prepares a store
   generation, builds pipelines against it, commits or aborts it and swaps live
   slots, while the provisioner on the serving runtime owns the leases and drain
   tasks release a replaced generation once its pipelines are gone
   (`server/src/store_provision.rs`, `server/src/reload.rs`,
   `store-lifecycle/src/lib.rs`). `generations.dfy` is the transition system of
   both parties, the drain tasks, the backend cache and the requests in flight;
   `generation_safety.dfy` shows that every action keeps one invariant;
   `generation_runs.dfy` states what follows for whole runs, and
   `generation_progress.dfy` that a drain always gets done once its pipelines are
   gone. `leases.dfy` holds the three moves of the backend cache that the system
   is built on; `backend_cache.dfy` is the cache as an object, whose methods make
   exactly those moves, other leases moving wherever an entry lock is given up,
   and `single_flight.dfy` the protocol by which concurrent calls share one build.
   `provisioner.dfy` is the command loop and one reload, whose arms make exactly
   the ledger moves of the system. The planning pass that coalesces, pins, checks
   and deduplicates store references is in `planning.dfy`, `planning_laws.dfy`
   and `planning_result.dfy`.
2. **Graph walks and the trust boundary** (`server/src/store_config.rs`,
   `server/src/pipelines.rs`): `chain_walk.dfy`, `provider_boundary.dfy`, and
   `router_steps.dfy` on what the second walk misses of the first.
3. **Concurrent bounded structures**: label admission
   (`filters/src/llm_metrics.rs`) in `model_labels.dfy`, the credential cache
   (`apis/src/token_cache.rs`) in `token_cache.dfy`, and the token bucket
   (`enmaas-policy-filter/src/buckets.rs`) in the `bucket*.dfy` files.
4. **Header overlay** (`apis/src/callout_headers.rs`, `apis/src/state_owner.rs`,
   `apis/src/project_state_owner_headers.rs`): `headers.dfy`, `projection.dfy`
   and `state_owner.dfy`.
5. **Matching and placement** (`apis/src/operation.rs`,
   `enmaas-policy-filter/src/keys.rs`): `operations.dfy`, `operation_laws.dfy`
   and `keyring.dfy`.

Concurrent code is a transition system over its atomic steps, and theorems about
it are about every run. Code that updates objects or runs loops is a class or a
method proved against a specification function, and the laws are lemmas about
that function. `results.dfy` and `collections.dfy` hold what the files share.

## Assumptions

- A run of the reload system starts when the initial generation has been
  provisioned and published. The watcher passes the last applied configuration
  as the old one; it replaces it only after a successful reload
  (`server/src/watcher.rs`).
- A reload starts with no generation pending, because the watcher commits or
  aborts one before it starts the next.
- One critical section of the backend cache is one action. While a lease is
  provisioned other leases make any moves before each reference, while it waits
  for a build, during the build, before the first release and after each one.
  These are more than the single-flight protocol lets them make: in particular a
  build may come second and be closed.
  `left` is the error an earlier build of the same wave left behind, if any. The
  protocol itself is modelled for one key, since different keys do not meet.
- A factory's effective key, namespace key and the in-memory SQLite check are
  arbitrary functions. Where a law says the key is componentwise, the factory
  accepts and keys each component of a config on its own: one part that does not
  depend on the tables and one part per table field. Such a factory accepts a
  store without items table, and the sentinel name of the responses table.
- A filter entry's branches are one list of chain references.
- Time is a nondecreasing number supplied with each call: whole nanoseconds in
  the credential cache, real seconds in the bucket. Tokens are real numbers, so
  rounding of `f64` is not modelled; the saturating casts are. The rate laws are
  for calls whose clock readings follow the order in which they take the bucket.
- A QoS class does not contain U+001F, which separates it from the subject in a
  bucket key: the filter passes only `premium`, `main` or `ratelimit`
  (`enmaas-policy-filter/src/policy.rs:45-50`,
  `enmaas-policy-filter/src/config.rs:248-250`). The key limit is positive: a
  configuration with zero is refused (`enmaas-policy-filter/src/config.rs:251-253`).
- Strings are sequences of characters and case is folded for ASCII only. A
  borrowed string is its text and the address it starts at, one address per
  character.
- A header name is valid when it consists of token characters, and a value when
  it has no control character but the tab; no law depends on which values are.
- Network fetches, pipeline builds, validation, JSON and YAML parsing, digests
  and assertion decoding are parameters that may return anything.

## Results that are not unconditional

- The window bound of the token bucket holds for every run exactly when the
  refill over the idle time to live makes up a burst (`BucketLaws.WindowBound`);
  otherwise `BucketOverrun.UncoveredOverruns` gives, for every such limit, calls
  that exceed it: the idle bucket is dropped before it is full and comes back
  full. Whether idle buckets are swept cannot be told from the outcomes under the
  same condition and no other (`BucketExact.InvisibleExactly`).
- The advised retry time is enough exactly when the wait, in seconds, fits in a
  `u64` (`BucketSweeping.RetryAfterHonoured`); for every one-token limit for
  which it does not, `BucketSweeping.AdviceTooShort` gives calls that are rejected
  again after the advised time.
- After owner projection the callout view is as promised without condition in
  ordered mode; in grouped and in request mode it is exactly when no queued set
  and no valid extra names a stripped header and no valid extra names an output
  (in request mode: none whose last value differs from the component).
  `Projection.ExtraSpoilsOutput` is an extra that spoils an output in both.
- A consumed owner assertion is hidden from callouts in ordered mode always and
  otherwise exactly when nothing queued names its header
  (`StateOwnership.HiddenFromBody`, `HiddenFromRequest`). A filter behind, in the
  same phase, can read it again exactly when it is not out of sight: in the body
  phase when the queues are grouped and something queued names the header, in the
  request phase whenever the request carries it, since filters then read the
  request itself (`ConsumedGoneExactly`, `AssertionGoneExactly`).
  `QueuedAssertionSurvives` and `RequestAssertionSurvives` are inputs of the two
  kinds.
- Store discovery finds a provider exactly when the boundary's search sees one or
  passes by a router whose steps lead to one (`RouterSteps.DiscoveredExactly`), so
  the boundary misses a provider exactly when there are only providers of the
  second kind (`RouterSteps.BoundaryMissesExactly`). `RouterSteps.StepHidesProvider`
  is the least such input; without steps the two walks agree
  (`RouterSteps.StepFreeAgree`).
- A validated store plan uses no SQL name for two kinds of object in one
  namespace exactly when no single store does: the code compares two references
  at a time (`PlanningResult.NameSafeExactly`). Promoted references are checked
  (`PromotedIsOwnClean`); `OwnClashPasses` is one that is not.
- A failed `provision_into` gives the cache back as it was when no other lease
  moves meanwhile. Otherwise nothing of the lease is left and the cache is valid:
  every entry is held by the leases it counts and no pool is lost.
- Rendezvous selection is independent of list order exactly when the greatest
  digest belongs to one key.

## Model

| member | source | states |
|---|---|---|
| Leases.ReuseValid | store-lifecycle/src/lib.rs:424-438 | Taking a refcount keeps every refcount equal to the number of holding leases and every holder on its instance |
| Leases.InsertValid | store-lifecycle/src/lib.rs:441-472 | A built backend is published or, when another build won, retired; the holder ends on an open instance and nobody else is disturbed |
| Leases.ReleaseValid | store-lifecycle/src/lib.rs:504-527 | A release closes the pool exactly when no other lease holds the key, and every other holder keeps its instance |
| Backends.OthersKeep | store-lifecycle/src/lib.rs:424-527 | Whatever moves other leases make, the cache stays valid and this lease keeps its holds on the instances it had |
| Backends.ResolvingKeeps | store-lifecycle/src/lib.rs:343-403 | A resolution between moves of others keeps the cache valid and adds its own hold exactly when it succeeds, and no other of its lease |
| Backends.ReleasingKeeps | store-lifecycle/src/lib.rs:514-527 | After n releases between moves of others the lease holds exactly the keys not yet released, and the cache is valid |
| Backends.ResolvedAlone | store-lifecycle/src/lib.rs:343-403 | Without interference a reference resolves exactly when its key is cached, already held or can be built |
| Backends.Restored | store-lifecycle/src/lib.rs:277-293 | Once its holds are gone the cache is as before the call, and exactly the pools built meanwhile are closed |
| Backends.DeregisterRestores | store-lifecycle/src/lib.rs:277-285 | Removing the names registered so far gives the registry before the call |
| Backends.BackendCache.constructor | store-lifecycle/src/lib.rs:213-226 | A new cache has no entry, and every law of the cache holds of it |
| Backends.BackendCache.ReuseCached | store-lifecycle/src/lib.rs:424-438 | Makes exactly the reuse move when the key is cached and nothing otherwise; a key is listed once per lease |
| Backends.BackendCache.InsertBuilt | store-lifecycle/src/lib.rs:441-472 | Makes exactly the insert-or-reuse move, a build that comes second being closed |
| Backends.BackendCache.ReleaseKey | store-lifecycle/src/lib.rs:517-523 | Makes exactly the release move |
| Backends.BackendCache.ReleaseInto | store-lifecycle/src/lib.rs:514-527 | Makes one release move per listed key, in order, between the moves of others |
| Backends.BackendCache.Initialize | store-lifecycle/src/lib.rs:375-403 | The cold path: look again, then the error left behind, then the build, between the moves of others |
| Backends.BackendCache.Resolve | store-lifecycle/src/lib.rs:343-403 | Makes exactly the moves of a resolution and returns the instance cached at its end, or the error |
| Backends.ProgressStays | store-lifecycle/src/lib.rs:274-296 | Moves of others between two references undo nothing: holds, names and instances attached so far stand |
| Backends.BackendCache.AttachNext | store-lifecycle/src/lib.rs:274-296 | One turn of the loop, others moving first, keeps the bookkeeping of everything attached so far, or shows that the whole call cannot succeed |
| Backends.BackendCache.Rollback | store-lifecycle/src/lib.rs:277-293 | The lease is left with nothing, whatever others do before the first release and after each; alone, every entry and hold is as before and exactly the pools built are closed |
| Backends.BackendCache.ProvisionInto | store-lifecycle/src/lib.rs:262-302 | Whatever other leases do wherever a lock is given up: failure leaves the registry as it was and no hold, success one hold per distinct key and every name on the instance cached for it; alone it fails exactly when some reference cannot be resolved or named, and then changes no entry |
| SingleFlight.JoinKeepsInv | store-lifecycle/src/lib.rs:406-422 | Joining counts every participant and never leads to a wave other than the one in use |
| SingleFlight.RemoveKeepsInv | store-lifecycle/src/lib.rs:138-143 | A wave is dropped from the map only when nobody is in it, joiners in between included |
| SingleFlight.StepKeepsInv | store-lifecycle/src/lib.rs:343-422 | Every step of every call, cancellation and eviction included, keeps the protocol's invariant |
| SingleFlight.OneBuildAtATime | store-lifecycle/src/lib.rs:371-402 | In every run at most one call builds for a key, and the key is still cold when it finishes |
| SingleFlight.WaitersShareFailure | store-lifecycle/src/lib.rs:376-399 | After a failed build nobody in its wave builds again, and whoever fails in it fails with that error |
| SingleFlight.FailedWaveIsForgotten | store-lifecycle/src/lib.rs:133-145 | When every participant has returned or been cancelled no wave is left, and the next cold call starts one without error |
| SingleFlight.NoDeadlock | store-lifecycle/src/lib.rs:343-403 | At any point of any run an unfinished call, or the holder of the lock it waits for, can come nearer to its end by a step that moves no other call |
| SingleFlight.CallCompletes | store-lifecycle/src/lib.rs:343-403 | From any reachable state every call can be brought to an answer by its own steps and those of the lock holders before it |
| GenerationSafety.AcquireKeepsInv | store-lifecycle/src/lib.rs:343-403 | Provisioning one key of a planned lease keeps the system invariant |
| GenerationSafety.ParkKeepsInv | server/src/store_provision.rs:1144-1172 | Parking a provisioned generation keeps the system invariant |
| GenerationSafety.UnplanKeepsInv | server/src/store_provision.rs:1049-1088 | A failed preparation releases what it obtained and keeps the system invariant |
| GenerationSafety.WorkerFailedKeepsInv | server/src/store_provision.rs:1060-1078 | One worker gives back what it took while the others go on, and the system invariant is kept |
| GenerationSafety.BuildKeepsInv | server/src/reload.rs:98-134 | Building pipelines against a prepared generation keeps the system invariant |
| GenerationSafety.CommitKeepsInv | server/src/store_provision.rs:1173-1184 | Promotion moves the old leases behind observers of every pipeline that may still use them |
| GenerationSafety.AbortKeepsInv | server/src/store_provision.rs:1185-1193 | An abort releases the prepared generation only |
| GenerationSafety.SwapKeepsInv | server/src/reload.rs:153-166 | Swapping one slot publishes only committed pipelines and leaves the replaced one observed |
| GenerationSafety.ScanKeepsInv | server/src/store_provision.rs:1229-1234 | What a drain scan has found dropped can never be used again |
| GenerationSafety.DrainedKeepsInv | server/src/store_provision.rs:1229-1234 | A finished drain hands over leases no live pipeline was built against |
| GenerationSafety.ReleaseHoldKeepsInv | server/src/store_provision.rs:1221-1225 | Releasing one key of a drained lease disturbs no other holder |
| GenerationSafety.ShutdownKeepsInv | server/src/store_provision.rs:1199-1205 | Leaving the command loop at any point keeps the system invariant |
| GenerationSafety.StepKeepsInv | server/src/store_provision.rs:1102-1206 | Every action of watcher, provisioner, drain tasks, cache and requests keeps the system invariant |
| GenerationRuns.LiveLeaseNotReleased | server/src/store_provision.rs:1173-1234 | In every run no live slot and no request in flight holds a pipeline whose lease is being or has been released |
| GenerationRuns.DrainedOnlyWhenUnheld | server/src/store_provision.rs:1229-1234 | A drain task lets go of its leases only when no live slot and no request holds a pipeline built against them |
| GenerationRuns.LiveBackendsOpen | server/src/reload.rs:139-166 | Every backend a live or in-flight pipeline can resolve is the cached one, with its pool open |
| GenerationRuns.LeaseInOnePlace | server/src/store_provision.rs:1135-1206 | Every granted lease is in exactly one of: provisioning, one pending generation, active, one drain task, being released, released, dropped |
| GenerationRuns.ReleasedOnce | server/src/store_provision.rs:1221-1234 | No lease is released twice in a run |
| GenerationRuns.PublishedIsCommitted | server/src/reload.rs:145-166 | At every point of every run a published store pipeline belongs to a generation committed before, shutdown included |
| GenerationRuns.FailedReloadChangesNothing | server/src/reload.rs:76-171 | A reload that does not complete leaves live slots, applied config, committed generations and, unless shutdown dropped it, the active generation unchanged |
| GenerationProgress.DrainCompletes | server/src/store_provision.rs:1221-1234 | From any reachable state in which a task's pipelines are gone its own steps are enabled until all its leases are released; exactly the backends nobody else holds are closed and nothing else changes |
| GenerationProgress.StaysDropped | server/src/store_provision.rs:1229-1234 | A pipeline nobody holds is never taken up again, and what a task observes and will release is fixed |
| GenerationProgress.DrainNeverStuck | server/src/store_provision.rs:1221-1234 | At every later point of the run, whatever others did, such a task has finished or can finish by its own steps |
| Provisioner.ProvisionAll | server/src/store_provision.rs:1049-1088 | For every completion order either all registries are ready and all leases returned, or none is ready and every lease obtained is released |
| Provisioner.NoErrorMeansAllOk | server/src/store_provision.rs:1049-1088 | The recorded error is absent exactly when every worker succeeded, and then each lease is kept in completion order |
| Provisioner.StoreProvisionService.constructor | server/src/store_provision.rs:1102-1136 | The loop starts with the initial generation active and nothing pending |
| Provisioner.StoreProvisionService.PrepareGeneration | server/src/store_provision.rs:1144-1172 | A prepared generation is parked under the next number, saturating, as the ledger's prepare move; what was parked there is dropped; a failure changes nothing |
| Provisioner.StoreProvisionService.CommitGeneration | server/src/store_provision.rs:1173-1184 | Commit succeeds exactly for a pending generation, makes it active and spawns one drain task with the replaced leases |
| Provisioner.StoreProvisionService.AbortGeneration | server/src/store_provision.rs:1185-1193 | Abort succeeds exactly for a pending generation and releases it alone |
| Provisioner.StoreProvisionService.Shutdown | server/src/store_provision.rs:1199-1205 | Pending generations are released and active leases dropped, as the ledger's stop move |
| Provisioner.Reloader.SwapSlots | server/src/reload.rs:153-166 | A slot is replaced exactly when the new configuration has a pipeline for it; no slot appears or disappears |
| Provisioner.Reloader.RespawnHealthChecks | server/src/reload.rs:189-220 | The old token is cancelled, and only checkers of the new token are left uncancelled |
| Provisioner.Reloader.Observers | server/src/reload.rs:139-143 | The observers are exactly the pipelines in the slots of the old configuration's store listeners |
| Provisioner.Reloader.PrepareStores | server/src/reload.rs:63-96 | Succeeds exactly when validation and provisioning do; a prepared generation exists exactly when either configuration uses stores |
| Provisioner.Reloader.ReloadPipelines | server/src/reload.rs:48-180 | Says exactly when a reload succeeds; an error changes no slot, token, checker or health slot; a success publishes, adds one drain task over the old leases and old store pipelines, and keeps the other tasks |
| Planning.NamedStoreRefs | server/src/store_provision.rs:609-619 | The locations of one registry name, listed in plan order |
| Planning.LocationsExact | server/src/store_provision.rs:609-619 | That list holds exactly those locations, in increasing order of plan and index |
| Planning.CombinedCandidates | server/src/store_provision.rs:623-654 | The list of compatible pairs, in order, failing exactly when some pair fails |
| Planning.CandidatesExact | server/src/store_provision.rs:623-654 | That list holds exactly the compatible pairs, each with its combined config and key |
| Planning.PairAll | server/src/store_provision.rs:630-652 | The pairs row by row, each Responses reference with all Conversations references before the next, failing exactly when one pair fails |
| Planning.CandidatesOf | server/src/store_provision.rs:630-652 | The compatible pairs of one Responses reference, in order, failing exactly when one fails |
| Planning.CoalesceCompatible | server/src/store_provision.rs:696-712 | Every reference becomes what mutual selection says, and the promoted locations are exactly the mutually selected ones |
| Planning.CoalescePlan | server/src/store_provision.rs:702-709 | The same for one listener's references |
| Planning.PinRef | server/src/store_provision.rs:238-249 | The config of the first cached active reference with the same filter identity, or the reference's own; fails exactly when the search meets an error first |
| Planning.CheckSource | server/src/store_provision.rs:207-234 | Accepts exactly the active stores a promotion does not abandon |
| Planning.CheckInMemory | server/src/store_provision.rs:199-235 | Accepts a promotion exactly when it is safe against every active store |
| Planning.SafeAbandonsNothing | server/src/store_provision.rs:199-235 | An accepted in-memory promotion keeps the key of every cached backend that holds its state |
| Planning.PreserveRef | server/src/store_provision.rs:193-250 | Unknown backends are left alone, promoted references kept, others pinned; exactly when it fails |
| Planning.PreservePlan | server/src/store_provision.rs:193-250 | The same for one listener's references |
| Planning.PreserveActive | server/src/store_provision.rs:186-253 | Every reference is preserved in place, failing exactly when one is not preservable |
| Planning.ValidateNamespaceOf | server/src/store_provision.rs:556-583 | One reference is checked against all later ones in its namespace |
| Planning.ValidateNamespaces | server/src/store_provision.rs:550-586 | Succeeds exactly when all namespaces are known and no two references in one namespace clash |
| Planning.Deduplicate | server/src/store_provision.rs:806-840 | Keeps the first reference of each name, failing exactly when a name is bound to two stores or a config is rejected |
| Planning.DeduplicatePlans | server/src/store_provision.rs:806-842 | The same for every listener |
| CoalescingLaws.CombinesExactly | server/src/store_provision.rs:505-542 | When two references combine, in terms of their class and tables |
| CoalescingLaws.PairKey | server/src/store_provision.rs:505-542 | A combined key takes the responses part of one side and the items part of the other |
| CoalescingLaws.PromotedExactlyWhenTablesAgree | server/src/store_provision.rs:623-712 | A reference is promoted exactly when its class holds both kinds and all its responses tables and all its items tables agree |
| CoalescingLaws.ClassPromotedTogether | server/src/store_provision.rs:658-712 | A class is promoted as a whole, to one effective key, or not at all |
| CoalescingLaws.OrderIrrelevant | server/src/store_provision.rs:623-712 | Promotion depends on the set of references, not on listener order |
| PlanningResult.IdentityIsOwnedAgreement | server/src/store_provision.rs:124-152 | Two configs have one filter identity exactly when everything but the other filter's table agrees |
| PlanningResult.PromotionKeepsIdentity | server/src/store_provision.rs:696-712 | A promoted reference keeps its filter identity |
| PlanningResult.PinningKeepsIdentity | server/src/store_provision.rs:186-253 | A pinned reference keeps its filter identity |
| PlanningResult.RewritingKeepsIdentity | server/src/store_provision.rs:124-253 | Coalescing then pinning changes at most the table owned by the other filter |
| PlanningResult.FirstsInOrder | server/src/store_provision.rs:806-840 | The kept references are in first-occurrence order |
| PlanningResult.FirstsLaw | server/src/store_provision.rs:806-840 | Each name is kept once, every dropped reference has a kept one of its name |
| PlanningResult.ValidatedIsClashFree | server/src/store_provision.rs:400-485 | In a validated plan no two references in one namespace use a case-insensitive SQL name for two kinds of object |
| PlanningResult.NameSafeExactly | server/src/store_provision.rs:556-583 | A validated plan uses no such name at all exactly when no single store with a namespace does |
| PlanningResult.PromotedIsOwnClean | server/src/store_provision.rs:533-538 | A promoted reference does not clash with itself |
| PlanningResult.OwnClashPasses | server/src/store_provision.rs:556-583 | A store with one table for responses and conversations passes validation |
| PlanningResult.DedupKeepsClashFree | server/src/store_provision.rs:770-843 | Dropping duplicates cannot introduce a clash |
| PlanningResult.DroppedHasKeptStore | server/src/store_provision.rs:806-840 | Every dropped reference has the backend and effective key of the one kept under its name |
| PlanningResult.IdentityOfKept | server/src/store_provision.rs:806-840 | The kept reference of a name serves a dropped one with the same identity |
| PlanningResult.StagesDetermined | server/src/store_provision.rs:770-843 | The coalesced and pinned plans are a function of the input, so the success condition is one on the input |
| PlanningResult.ValidateAndDeduplicate | server/src/store_provision.rs:770-843 | Succeeds exactly when each stage does, the stages being those the input determines; then clash-free, one binding per name, and every filter served by a store of its own identity |
| ChainWalk.CollectStoreConfigs | server/src/store_config.rs:32-64 | Adds exactly the wanted configs below the entries and in the chains newly reached, each chain once, in reading order |
| ChainWalk.CollectEntry | server/src/store_config.rs:39-63 | The same for one entry: its own config, its router steps, its branches |
| ChainWalk.CollectSteps | server/src/store_config.rs:43-46 | The same for the steps of a router entry |
| ChainWalk.CollectBranches | server/src/store_config.rs:47-62 | The same for a list of branches |
| ChainWalk.CollectBranch | server/src/store_config.rs:50-62 | The same for one inline or named branch, visiting a named chain at most once |
| ChainWalk.WalkedExactly | server/src/store_config.rs:32-64 | The chains a walk visits are exactly those reachable, whatever the cycles |
| ChainWalk.WalkListener | server/src/store_config.rs:71-88 | Visits exactly the chains reachable from the listener, each once, and gathers what they hold |
| ChainWalk.FindListenerStoreConfigs | server/src/store_config.rs:71-88 | Terminates on cycles and returns exactly the configs of the chains reachable from the listener, in the order a reader following each reference at its first occurrence meets them |
| ProviderBoundary.SearchEntries | server/src/pipelines.rs:341-366 | Finds a provider below the entries exactly when one is reachable, or visits everything reachable |
| ProviderBoundary.SearchBranches | server/src/pipelines.rs:346-363 | The same for a list of branches |
| ProviderBoundary.SearchBranch | server/src/pipelines.rs:346-363 | The same for one branch |
| ProviderBoundary.ProviderConsumerExistsInBranch | server/src/pipelines.rs:341-366 | True exactly when a provider is reachable through at least one branch edge |
| ProviderBoundary.ValidateProviderBoundary | server/src/pipelines.rs:253-281 | The verdict of the boundary over the entry list and the branch search |
| ProviderBoundary.BoundaryAcceptsExactly | server/src/pipelines.rs:253-381 | Which pipelines are accepted: trust first, everything unconditional and fail-closed, no branch-conditional provider |
| ProviderBoundary.LastPeerTrustLaw | server/src/pipelines.rs:315-338 | The required trust filter is at entry 0 exactly when it is first and the only one before the consumer |
| ProviderBoundary.GateKeepsBranchSearch | server/src/pipelines.rs:168-179 | The gate adds nothing to the branch search |
| ProviderBoundary.GateKeepsVerdict | server/src/pipelines.rs:168-179 | Inserting the readiness gate never changes the verdict, down to the error |
| ProviderBoundary.GatedTrustFirst | server/src/pipelines.rs:168-210 | With an accepted provider, entry 0 of the gated pipeline is trust, the gate is entry 1, and no other trust lies before a provider |
| RouterSteps.LocalSplit | server/src/store_config.rs:39-63 | What discovery finds without following a name is what the branch search sees there and what the router steps it passes by hold |
| RouterSteps.DiscoveredExactly | server/src/store_config.rs:32-88 | Discovery finds a provider exactly when the search sees one or passes by a router whose steps lead to one, cycles or not |
| RouterSteps.BoundaryMissesExactly | server/src/pipelines.rs:253-366 | A pipeline with a discovered provider is accepted without client certificates exactly when its only providers are behind steps |
| RouterSteps.StepFreeAgree | server/src/pipelines.rs:341-366 | Without router steps the two walks agree |
| RouterSteps.StepHidesProvider | server/src/store_config.rs:43-46 | A provider in a router step is found by discovery and not by the boundary |
| ModelLabels.FirstUsable | filters/src/llm_metrics.rs:122-143 | The first usable candidate, however many unusable ones precede it, else unknown |
| ModelLabels.Registry.constructor | filters/src/llm_metrics.rs:182 | No label is admitted at first |
| ModelLabels.Registry.AdmitModelLabel | filters/src/llm_metrics.rs:163-173 | One admission: known, below the cap, or other |
| ModelLabels.Registry.AdmitModel | filters/src/llm_metrics.rs:181-212 | Without interference the two checks and the swap are one admission |
| ModelLabels.Registry.ResolveModel | filters/src/llm_metrics.rs:122-148 | The two fixed labels bypass admission |
| ModelLabels.StepKeepsInv | filters/src/llm_metrics.rs:181-212 | Every step of every call keeps the set within the cap and every settled label settled |
| ModelLabels.AdmittedGrows | filters/src/llm_metrics.rs:155-212 | In every run the admitted set only grows, within the cap, and returned labels stand |
| ModelLabels.NoAdmissionLost | filters/src/llm_metrics.rs:181-212 | A value given its own label stays admitted; other is given only when the cap is full, to values that stay out |
| ModelLabels.SameValueSameLabel | filters/src/llm_metrics.rs:122-212 | Any two calls of a run with one value return one label |
| ModelLabels.AtMostCapPlusTwo | filters/src/llm_metrics.rs:122-212 | A run exports at most cap + 2 labels |
| ModelLabels.Linearizable | filters/src/llm_metrics.rs:181-212 | Every run gives the labels and the set of its calls made one after another in the order they take effect |
| Buckets.LocalBuckets.constructor | enmaas-policy-filter/src/buckets.rs:59-67 | No bucket and no call counted at first |
| Buckets.LocalBuckets.MaybeSweep | enmaas-policy-filter/src/buckets.rs:107-114 | Every 1024th call drops exactly the buckets idle for ten minutes |
| Buckets.LocalBuckets.Admit | enmaas-policy-filter/src/buckets.rs:69-105 | The new map, counter and outcome of one call |
| Buckets.KeyInjective | enmaas-policy-filter/src/buckets.rs:76 | Two callers share a bucket only when class and subject agree |
| BucketLaws.CallCost | enmaas-policy-filter/src/buckets.rs:69-114 | A call, its sweep included, costs its key one token when admitted and no key anything else |
| BucketLaws.Budget | enmaas-policy-filter/src/buckets.rs:69-114 | What is admitted was available at the start or refilled since |
| BucketLaws.WindowBound | enmaas-policy-filter/src/buckets.rs:69-114 | In any window of any run a key is admitted at most burst + refill x window times, when the refill over the time to live makes up a burst |
| BucketOverrun.UncoveredOverruns | enmaas-policy-filter/src/buckets.rs:107-114 | Without that condition there are calls that exceed the bound, for every limit |
| BucketSweeping.SweepingInvisible | enmaas-policy-filter/src/buckets.rs:107-114 | Under the condition, and below the key limit, a swept map gives the outcomes of one never swept |
| BucketExact.SweepingVisible | enmaas-policy-filter/src/buckets.rs:107-114 | For every class that does not refill a burst in time there are calls, within the key limit, whose outcomes differ |
| BucketExact.InvisibleExactly | enmaas-policy-filter/src/buckets.rs:107-114 | Sweeping cannot be told from keeping exactly when both classes refill a burst within the time to live |
| BucketSweeping.StillShort | enmaas-policy-filter/src/buckets.rs:87-91 | Rejected attempts never delay the refill |
| BucketSweeping.AdviceIsLeast | enmaas-policy-filter/src/buckets.rs:100-103 | The advice is the least whole second, at least one, that earns the missing part; when it does not fit, it is not enough |
| BucketSweeping.RetryAfterHonoured | enmaas-policy-filter/src/buckets.rs:87-104 | Admitted from the advised second on and at no earlier whole second, whatever rejected attempts come between |
| BucketSweeping.AdviceTooShort | enmaas-policy-filter/src/buckets.rs:100-103 | For every one-token limit whose wait does not fit in a u64 the second caller is advised a time that is not enough |
| BucketSweeping.SlowLimit | enmaas-policy-filter/src/buckets.rs:100-103 | There is a valid limit of that kind |
| TokenCache.ExpiresAt | apis/src/token_cache.rs:33-35 | The expiry lies in the second half of the lifetime, and the margin is exact when it fits |
| TokenCache.Cache.constructor | apis/src/token_cache.rs:73-78 | The cache starts empty |
| TokenCache.Cache.GetOrRefresh | apis/src/token_cache.rs:98-131 | A valid entry is served and kept; otherwise a success replaces it and a failure changes nothing |
| TokenCache.OneFetchInFlight | apis/src/token_cache.rs:98-131 | In every run at most one fetch is in flight |
| TokenCache.ExpiryAdvances | apis/src/token_cache.rs:98-131 | An entry is only replaced by one that expires no earlier |
| TokenCache.NoFetchBeforeExpiry | apis/src/token_cache.rs:33-57 | After a success at t with lifetime d no fetch starts before an expiry in [t + d/2, t + d] |
| TokenCache.FetchEndsFirst | apis/src/token_cache.rs:109-131 | Between two fetch starts the first fetch has succeeded, failed or been cancelled |
| TokenCache.ServedWhileAlive | apis/src/token_cache.rs:53-57 | Every value served from the cache is the last one published and is checked before its lifetime ends |
| TokenCache.OnlySuccessCaches | apis/src/token_cache.rs:117-130 | Failed and cancelled fetches cache nothing |
| TokenCache.FailureLeavesRoom | apis/src/token_cache.rs:117 | After a failure any stale caller may fetch again |
| Headers.CaseBlindIsParsing | apis/src/state_owner.rs:588-590 | Comparing names without case accepts exactly the texts that parse to the header |
| Headers.ApplyLog | apis/src/callout_headers.rs:42-64 | Replays an ordered log on the whole map |
| Headers.ApplyRemovesAndSets | apis/src/callout_headers.rs:67-73 | Removals, then sets |
| Headers.ApplyGrouped | apis/src/callout_headers.rs:67-92 | Grouped queues in remove, set, add order, skipping invalid extras |
| Headers.EffectiveBodyCalloutHeaders | apis/src/callout_headers.rs:23-39 | The body-phase view: prior log, then ordered log or grouped queues |
| Headers.EffectiveRequestCalloutHeaders | apis/src/callout_headers.rs:106-136 | The request-phase view, where extras replace |
| Headers.AppendedAt | apis/src/callout_headers.rs:74-91 | What appended extras do to one header |
| Headers.InsertedAt | apis/src/callout_headers.rs:116-133 | What replacing extras do to one header |
| Headers.OwnerLog | apis/src/state_owner.rs:549-572 | One header through the log equals that header of the full replay |
| Headers.FindLastSet | apis/src/state_owner.rs:583-586 | The last queued set of a header |
| Headers.OwnerExtras | apis/src/state_owner.rs:587-601 | The valid extras of a header, in order |
| Headers.OwnerGrouped | apis/src/state_owner.rs:575-602 | One header through the grouped queues equals that header of the full replay |
| Headers.EffectiveOwnerHeaderValues | apis/src/state_owner.rs:525-546 | The fast path gives exactly the ordered values of the full effective map, in both modes and for any prior mutations |
| StateOwnership.ResolveComponent | apis/src/state_owner.rs:438-464 | The component asserted by the full effective map, or its fault |
| StateOwnership.ResolveTrustedHeader | apis/src/state_owner.rs:385-414 | The owner asserted by the full effective map, or its fault |
| StateOwnership.ResolveTrustedComponents | apis/src/state_owner.rs:417-435 | The owner assembled from the full effective map, or its first fault |
| StateOwnership.QueueHeaderRemoval | apis/src/state_owner.rs:322-335 | Every ingress header is queued for removal, and logged when ordered mode is active |
| StateOwnership.Resolve | apis/src/state_owner.rs:292-319 | The owner is established once, from the effective headers; a rejection leaves the context as it was |
| StateOwnership.HiddenFromBody | apis/src/state_owner.rs:322-335 | In the body phase consumed headers are gone from the callout view and nothing else changed, exactly when the log is ordered or nothing queued names one of them |
| StateOwnership.HiddenFromRequest | apis/src/callout_headers.rs:106-136 | In the request phase, exactly when nothing queued names one of them |
| StateOwnership.ConsumedGoneExactly | apis/src/state_owner.rs:525-546 | In either phase a consumed header is gone for a filter behind exactly when: body phase, the log is ordered or nothing queued names it; request phase, the request has no such header |
| StateOwnership.AssertionGoneExactly | apis/src/state_owner.rs:292-335 | A filter behind answers 401 for a consumed assertion exactly then |
| StateOwnership.QueuedAssertionSurvives | apis/src/callout_headers.rs:67-73 | In grouped mode an assertion queued earlier is read again after its removal |
| StateOwnership.RequestAssertionSurvives | apis/src/state_owner.rs:530-533 | In the request phase an assertion of the request is read again after its removal |
| Projection.EnsureDistinctProjectionHeaders | apis/src/project_state_owner_headers.rs:173-185 | Accepts exactly distinct output names |
| Projection.StripIngressHeaders | apis/src/project_state_owner_headers.rs:137-149 | Ingress headers are queued for removal in every active channel |
| Projection.QueueProjection | apis/src/project_state_owner_headers.rs:199-205 | One output is queued in every active channel |
| Projection.Project | apis/src/project_state_owner_headers.rs:92-132 | 401 without owner, 400 for an unrepresentable component, both without effect; else the queues of a projection |
| Projection.OrderedProjection | apis/src/project_state_owner_headers.rs:92-149 | In ordered mode the callout sees exactly the projection, unconditionally |
| Projection.GroupedProjection | apis/src/project_state_owner_headers.rs:92-149 | In grouped mode, exactly when no set or extra names a stripped header and no extra names an output |
| Projection.RequestProjection | apis/src/callout_headers.rs:106-136 | In request mode, exactly when no set or extra names a stripped header and the last extra of an output agrees |
| Projection.ExtraSpoilsOutput | apis/src/callout_headers.rs:74-133 | An extra that names an output is appended to the component in grouped mode and replaces it in request mode |
| Projection.DistinctComponents | apis/src/project_state_owner_headers.rs:92-132 | With distinct outputs each header gets its own component |
| Operations.SplitJoins | apis/src/operation.rs:439-441 | Split parts joined again are the text |
| Operations.SplitSlices | apis/src/operation.rs:439-441 | Every part is a slice of the path |
| Operations.NormalizePath | apis/src/operation.rs:402-405 | A prefix of the path, in the same memory, without query |
| Operations.ParameterAgrees | apis/src/operation.rs:390-392 | The two ways of telling a parameter segment agree |
| Operations.Slots.constructor | apis/src/operation.rs:256-261 | The table starts empty |
| Operations.Slots.Insert | apis/src/operation.rs:265-276 | Fails exactly for a repeated name or a full table, and then changes nothing |
| Operations.Slots.Get | apis/src/operation.rs:280-286 | The value under a name |
| Operations.MatchSegments | apis/src/operation.rs:444-462 | The loop fills the table with exactly the captures |
| Operations.MatchPathTemplate | apis/src/operation.rs:439-463 | Matches exactly when the template does, with exactly its captures |
| Operations.OffsetsIn | apis/src/operation.rs:293-313 | Succeeds exactly when every value lies in the path, with the ranges where they lie |
| Operations.OffsetsOf | apis/src/operation.rs:293-314 | Located exactly when every value is a slice of the path, each under its name |
| OperationLaws.MatchesExactly | apis/src/operation.rs:439-463 | A template matches exactly when lengths agree, every segment fits, no name repeats and the table suffices |
| OperationLaws.SubstitutionRebuilds | apis/src/operation.rs:439-463 | Captures substituted into the template rebuild the normalized path |
| OperationLaws.CapturesLieInPath | apis/src/operation.rs:402-463 | Captures of the normalized path are slices of the path as received |
| OperationLaws.OffsetsRecover | apis/src/operation.rs:293-364 | Offsets in the path as received recover exactly the captures |
| OperationLaws.StaticCount | apis/src/operation.rs:219-224 | The count reaches the number of segments exactly when none is a parameter |
| OperationLaws.LastMaxLaw | apis/src/operation.rs:432 | The kept maximum is the last of the greatest |
| OperationLaws.WinnerIsMostLiteral | apis/src/operation.rs:415-434 | Some operation wins exactly when one is a candidate, and it has the most literal segments |
| OperationLaws.LiteralMatchesItself | apis/src/operation.rs:439-463 | A literal template matches exactly the path it spells |
| OperationLaws.LiteralWins | apis/src/operation.rs:415-434 | A literal template equal to the path wins in every declaration order |
| KeyRing.PickBeats | enmaas-policy-filter/src/keys.rs:113-125 | The choice has the greatest digest, the last of equals |
| KeyRing.RemovalKeepsChoice | enmaas-policy-filter/src/keys.rs:113-125 | Removing a key that was not chosen keeps the choice |
| KeyRing.InsertionMovesOnlyToNew | enmaas-policy-filter/src/keys.rs:113-125 | Inserting a key anywhere gives the old choice or the new key |
| KeyRing.ResolveMinimallyDisrupted | enmaas-policy-filter/src/keys.rs:95-104 | Growing one class moves only subjects that choose the new key, and no other alias |
| KeyRing.OrderIndependent | enmaas-policy-filter/src/keys.rs:113-125 | The choice is the same in every list order exactly when the greatest digest belongs to one key |
| KeyRing.DistinctDigestsSuffice | enmaas-policy-filter/src/keys.rs:113-125 | Distinct digests make the choice independent of order |

## Left out

- Process bootstrap, command line, readiness endpoints and service registration: wiring.
- Metric emission, tracing and the reload warning detectors: logging only.
- Network callouts, sub-requests and event publication: their results are parameters.
- SQL pools, the real backend factories, and YAML and JSON parsing: their results are parameters.
- Retrying a transient build failure: a build is one step with an arbitrary result.
- Backends.BackendCache.ProvisionInto: the single-flight protocol is a model of its own and not run inside this method, where other leases may make any moves at the points listed under Assumptions.
- Waiting for readiness and the provisioning of the initial generation: runs start after it.
- Assertion decoding, the size limit of an assertion and component validation: arbitrary functions, so their own rules are not stated.
- `KeyRing::load`: reading a key file adds only map insertions.
- Body limits, TLS material and the other checks on a built pipeline: they do not touch the trust boundary.
- Overflow of memory addresses in offset arithmetic and UTF-8 boundaries: a captured slice is delimited by ASCII characters.
- Rounding of floating-point tokens and concurrent clock skew in the bucket.
