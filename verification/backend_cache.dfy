/** The backend cache as an object (store-lifecycle/src/lib.rs): the loop that
    resolves and registers the references of one lease, and its rollback, as the
    cache moves they make between the moves of other users. */
module Backends {
  import opened Collections
  import opened Leases
  import opened Results

  // ----------------------------------------------------- other users of the cache

  /** What another lease may do between two critical sections of this one. */
  datatype Move = Take(hold: Hold) | Publish(hold: Hold) | Drop(hold: Hold)

  function Moved(c: Cache, m: Move): Cache
  {
    match m
    case Take(h) => if h.key in c.entries then Reuse(c, h) else c
    case Publish(h) => InsertOrReuse(c, h)
    case Drop(h) => if h in c.holds then Release(c, h) else c
  }

  function MovedAll(c: Cache, moves: seq<Move>): Cache
  {
    if moves == [] then c else Moved(MovedAll(c, moves[..|moves| - 1]), moves[|moves| - 1])
  }

  /** What the others do at each point where this lease gives way. */
  type Others = nat -> seq<Move>

  ghost predicate ByOthers(others: Others, lease: nat)
  {
    forall n, m | m in others(n) :: m.hold.lease != lease
  }

  ghost predicate Quiet(others: Others)
  {
    forall n :: others(n) == []
  }

  /** The holds of `lease` stay, on the instances they had. */
  ghost predicate Kept(c: Cache, c': Cache, lease: nat)
  {
    forall k | Hold(lease, k) in c.holds && k in c.entries ::
      Hold(lease, k) in c'.holds && k in c'.entries && c'.entries[k].instance == c.entries[k].instance
  }

  ghost predicate SameHolds(c: Cache, c': Cache, lease: nat)
  {
    forall k :: Hold(lease, k) in c'.holds <==> Hold(lease, k) in c.holds
  }

  lemma {:induction false} MoveKeeps(c: Cache, m: Move, lease: nat)
    requires Valid(c) && m.hold.lease != lease
    ensures Valid(Moved(c, m)) && Kept(c, Moved(c, m), lease) && SameHolds(c, Moved(c, m), lease)
  {
    match m
    case Take(h) =>
      if h.key in c.entries {
        ReuseValid(c, h);
      }
    case Publish(h) => InsertValid(c, h);
    case Drop(h) =>
      if h in c.holds {
        ReleaseValid(c, h);
      }
  }

  /** Whatever the others do, the cache stays valid and this lease keeps what it
      holds. */
  lemma {:induction false} OthersKeep(c: Cache, moves: seq<Move>, lease: nat)
    requires Valid(c) && forall m | m in moves :: m.hold.lease != lease
    ensures Valid(MovedAll(c, moves)) && Kept(c, MovedAll(c, moves), lease) && SameHolds(c, MovedAll(c, moves), lease)
  {
    if moves != [] {
      var n := |moves| - 1;
      OthersKeep(c, moves[..n], lease);
      MoveKeeps(MovedAll(c, moves[..n]), moves[n], lease);
    }
  }

  // ------------------------------------------------------------ one reference

  /** A planned reference: its registry name, its cache key as the factory
      computes it, the failure that the winner of a shared cold build may have
      left for those waiting, and what a build of it would return. */
  datatype PlannedRef = PlannedRef(name: string, key: Result<CacheKey, string>, left: Option<string>,
      build: Result<(), string>)

  /** `resolve` as moves of the cache: reuse, or after waiting reuse, or after
      building insert or reuse. */
  ghost function Resolving(c: Cache, r: PlannedRef, lease: nat, others: Others, tick: nat): (Cache, Option<string>)
  {
    match r.key
    case Err(e) => (c, Some(e))
    case Ok(key) =>
      if key in c.entries then (Reuse(c, Hold(lease, key)), None)
      else Initializing(MovedAll(c, others(tick)), r, key, lease, others(tick + 1))
  }

  /** The part of `resolve` that runs under the lock of a cold build. */
  ghost function Initializing(c: Cache, r: PlannedRef, key: CacheKey, lease: nat, others: seq<Move>)
    : (Cache, Option<string>)
  {
    if key in c.entries then (Reuse(c, Hold(lease, key)), None)
    else if r.left.Some? then (c, r.left)
    else if r.build.Err? then (MovedAll(c, others), Some(r.build.error))
    else (InsertOrReuse(MovedAll(c, others), Hold(lease, key)), None)
  }

  /** `release_into` as moves of the cache. */
  ghost function Releasing(c: Cache, keys: seq<CacheKey>, lease: nat, others: Others, tick: nat, n: nat): Cache
    requires n <= |keys|
  {
    if n == 0 then c
    else
      MovedAll(Release(Releasing(c, keys, lease, others, tick, n - 1), Hold(lease, keys[n - 1])), others(tick + n - 1))
  }

  /** `held` lists what `lease` holds, once each. */
  ghost predicate HeldBy(holds: set<Hold>, lease: nat, held: seq<CacheKey>)
  {
    NoRepeats(held) && forall k :: k in held <==> Hold(lease, k) in holds
  }

  ghost predicate HoldsNothing(holds: set<Hold>, lease: nat)
  {
    forall k :: Hold(lease, k) !in holds
  }

  /** The lease holds one key more and keeps what it held. */
  ghost predicate Gained(c: Cache, c': Cache, lease: nat, key: CacheKey)
  {
    && Valid(c') && Kept(c, c', lease) && key in c'.entries
    && forall k :: Hold(lease, k) in c'.holds <==> Hold(lease, k) in c.holds || k == key
  }

  lemma {:induction false} ReuseGains(c: Cache, lease: nat, key: CacheKey)
    requires Valid(c) && key in c.entries
    ensures Gained(c, Reuse(c, Hold(lease, key)), lease, key)
  {
    ReuseValid(c, Hold(lease, key));
  }

  lemma {:induction false} InsertGains(c: Cache, lease: nat, key: CacheKey)
    requires Valid(c)
    ensures Gained(c, InsertOrReuse(c, Hold(lease, key)), lease, key)
  {
    InsertValid(c, Hold(lease, key));
  }

  /** A lease resolved a key, or failed to and holds what it held. */
  ghost predicate Resolved(c: Cache, c': Cache, error: Option<string>, lease: nat, key: CacheKey)
  {
    if error.None? then Gained(c, c', lease, key) else Valid(c') && Kept(c, c', lease) && SameHolds(c, c', lease)
  }

  lemma {:induction false} ThenResolved(a: Cache, b: Cache, c: Cache, error: Option<string>, lease: nat, key: CacheKey)
    requires Kept(a, b, lease) && SameHolds(a, b, lease) && Resolved(b, c, error, lease, key)
    ensures Resolved(a, c, error, lease, key)
  {
  }

  lemma {:induction false} InitializingResolves(c: Cache, r: PlannedRef, key: CacheKey, lease: nat, others: seq<Move>)
    requires Valid(c) && forall m | m in others :: m.hold.lease != lease
    ensures var (c', error) := Initializing(c, r, key, lease, others); Resolved(c, c', error, lease, key)
  {
    if key in c.entries {
      ReuseGains(c, lease, key);
    } else {
      var ready := MovedAll(c, others);
      OthersKeep(c, others, lease);
      InsertGains(ready, lease, key);
      ThenResolved(c, ready, InsertOrReuse(ready, Hold(lease, key)), None, lease, key);
    }
  }

  lemma {:induction false} ResolvingKeeps(c: Cache, r: PlannedRef, lease: nat, others: Others, tick: nat)
    requires Valid(c) && ByOthers(others, lease) && r.key.Ok?
    ensures var (c', error) := Resolving(c, r, lease, others, tick); Resolved(c, c', error, lease, r.key.value)
  {
    var key := r.key.value;
    if key in c.entries {
      ReuseGains(c, lease, key);
    } else {
      var waited := MovedAll(c, others(tick));
      OthersKeep(c, others(tick), lease);
      InitializingResolves(waited, r, key, lease, others(tick + 1));
      var (c', error) := Initializing(waited, r, key, lease, others(tick + 1));
      ThenResolved(c, waited, c', error, lease, key);
    }
  }

  /** Exactly the keys of `left` are held by the lease. */
  ghost predicate StillHolds(c: Cache, lease: nat, left: seq<CacheKey>)
  {
    Valid(c) && forall k :: Hold(lease, k) in c.holds <==> k in left
  }

  lemma {:induction false} ReleaseOne(c: Cache, lease: nat, left: seq<CacheKey>, others: seq<Move>)
    requires left != [] && NoRepeats(left) && StillHolds(c, lease, left)
    requires forall m | m in others :: m.hold.lease != lease
    ensures StillHolds(MovedAll(Release(c, Hold(lease, left[0])), others), lease, left[1..])
  {
    var h := Hold(lease, left[0]);
    assert left == [left[0]] + left[1..];
    assert left[0] !in left[1..];
    ReleaseValid(c, h);
    OthersKeep(Release(c, h), others, lease);
  }

  /** Releasing everything a lease holds leaves it nothing, and the cache valid:
      whatever nobody holds any more is closed. */
  lemma {:induction false} ReleasingKeeps(c: Cache, keys: seq<CacheKey>, lease: nat, others: Others, tick: nat, n: nat)
    requires Valid(c) && HeldBy(c.holds, lease, keys) && ByOthers(others, lease) && n <= |keys|
    ensures StillHolds(Releasing(c, keys, lease, others, tick, n), lease, keys[n..])
  {
    if n == 0 {
      assert keys[0..] == keys;
    } else {
      ReleasingKeeps(c, keys, lease, others, tick, n - 1);
      assert keys[n - 1..][1..] == keys[n..] && keys[n - 1..][0] == keys[n - 1];
      ReleaseOne(Releasing(c, keys, lease, others, tick, n - 1), lease, keys[n - 1..], others(tick + n - 1));
    }
  }

  // ---------------------------------------------------------------- the registry

  function NamesOf(refs: seq<PlannedRef>): set<string>
  {
    if refs == [] then {} else NamesOf(refs[..|refs| - 1]) + {refs[|refs| - 1].name}
  }

  ghost function KeysIn(refs: seq<PlannedRef>): set<CacheKey>
  {
    if refs == [] then {}
    else KeysIn(refs[..|refs| - 1]) + if refs[|refs| - 1].key.Ok? then {refs[|refs| - 1].key.value} else {}
  }

  lemma {:induction false} NamesAndKeys(refs: seq<PlannedRef>)
    ensures forall name :: name in NamesOf(refs) <==> exists i :: 0 <= i < |refs| && refs[i].name == name
    ensures forall key :: key in KeysIn(refs) <==> exists i :: 0 <= i < |refs| && refs[i].key == Ok(key)
  {
    if refs != [] {
      NamesAndKeys(refs[..|refs| - 1]);
    }
  }

  predicate Bound(r: PlannedRef, registry: map<string, nat>, registry': map<string, nat>,
      entries: map<CacheKey, Cached>)
  {
    && r.name !in registry && r.name in registry'
    && r.key.Ok? && r.key.value in entries && registry'[r.name] == entries[r.key.value].instance
  }

  /** `registry'` is `registry` plus one name per reference, bound to the
      instance cached under that reference's key. */
  ghost predicate Registered(refs: seq<PlannedRef>, registry: map<string, nat>, registry': map<string, nat>,
      entries: map<CacheKey, Cached>)
  {
    && registry'.Keys == registry.Keys + NamesOf(refs)
    && (forall n | n in registry :: registry'[n] == registry[n])
    && (forall r | r in refs :: Bound(r, registry, registry', entries))
  }

  lemma {:induction false} DeregisterRestores(refs: seq<PlannedRef>, registry: map<string, nat>,
      registry': map<string, nat>, entries: map<CacheKey, Cached>)
    requires Registered(refs, registry, registry', entries)
    ensures registry' - NamesOf(refs) == registry
  {
    var registered := NamesOf(refs);
    NamesAndKeys(refs);
    assert registered !! registry.Keys by {
      forall name | name in registered ensures name !in registry {
        var i :| 0 <= i < |refs| && refs[i].name == name;
        assert Bound(refs[i], registry, registry', entries);
      }
    }
    assert (registry' - registered).Keys == registry.Keys;
  }

  ghost predicate DistinctNames(refs: seq<PlannedRef>)
  {
    forall i, j | 0 <= i < j < |refs| :: refs[i].name != refs[j].name
  }

  ghost predicate KeysOf(refs: seq<PlannedRef>, held: seq<CacheKey>)
  {
    forall k :: k in held <==> k in KeysIn(refs)
  }

  lemma {:induction false} NewKey(refs: seq<PlannedRef>, r: PlannedRef, held: seq<CacheKey>, held': seq<CacheKey>)
    requires KeysOf(refs, held) && r.key.Ok? && forall k :: k in held' <==> k in held || k == r.key.value
    ensures KeysOf(refs + [r], held')
  {
    assert (refs + [r])[..|refs|] == refs;
  }

  lemma {:induction false} NewName(refs: seq<PlannedRef>, r: PlannedRef, registry: map<string, nat>,
      registry': map<string, nat>, entries: map<CacheKey, Cached>)
    requires Registered(refs, registry, registry', entries) && DistinctNames(refs)
    requires r.name !in registry' && r.key.Ok? && r.key.value in entries
    ensures Registered(refs + [r], registry, registry'[r.name := entries[r.key.value].instance], entries)
    ensures DistinctNames(refs + [r])
  {
    var now, more := registry'[r.name := entries[r.key.value].instance], refs + [r];
    assert NamesOf(more) == NamesOf(refs) + {r.name} by {
      assert more[..|refs|] == refs;
    }
    forall x | x in refs ensures x.name != r.name && Bound(x, registry, now, entries) {
      assert Bound(x, registry, registry', entries);
    }
    assert forall i | 0 <= i < |refs| :: refs[i] in refs;
  }

  /** What is held stays cached, so the names stay bound. */
  lemma {:induction false} StillRegistered(refs: seq<PlannedRef>, registry: map<string, nat>,
      registry': map<string, nat>, c: Cache, c': Cache, lease: nat, held: seq<CacheKey>)
    requires Registered(refs, registry, registry', c.entries) && KeysOf(refs, held) && HeldBy(c.holds, lease, held)
    requires Kept(c, c', lease)
    ensures Registered(refs, registry, registry', c'.entries)
  {
    NamesAndKeys(refs);
    forall r | r in refs ensures Bound(r, registry, registry', c'.entries) {
      assert Bound(r, registry, registry', c.entries);
      var i :| 0 <= i < |refs| && refs[i] == r;
      assert r.key.value in KeysIn(refs);
    }
  }

  // ------------------------------------------------------- when nobody interferes

  ghost function OwnHolds(lease: nat, held: seq<CacheKey>): set<Hold>
  {
    set k | k in held :: Hold(lease, k)
  }

  /** `c` is `c0` with the holds of `lease` on `held` beside it: every holder of
      `c0` is still there, on the instance it had. */
  ghost predicate Beside(c0: Cache, c: Cache, lease: nat, held: seq<CacheKey>)
  {
    && c.holds == c0.holds + OwnHolds(lease, held)
    && (forall g | g in c0.holds && g.key in c0.entries ::
        g.key in c.entries && c.entries[g.key].instance == c0.entries[g.key].instance)
    && c0.built <= c.built && c0.retired <= c.retired
  }

  function Listed(held: seq<CacheKey>, key: CacheKey): seq<CacheKey>
  {
    if key in held then held else held + [key]
  }

  lemma {:induction false} CachedIsHeld(c: Cache, key: CacheKey)
    requires Counted(c)
    ensures key in c.entries <==> exists g :: g in c.holds && g.key == key
  {
    if key in c.entries {
      var g :| g in Holders(c.holds, key);
    }
  }

  lemma {:induction false} CachedBeside(c0: Cache, c: Cache, lease: nat, held: seq<CacheKey>, key: CacheKey)
    requires Counted(c0) && Counted(c) && Beside(c0, c, lease, held)
    ensures key in c.entries <==> key in c0.entries || key in held
  {
    CachedIsHeld(c0, key);
    CachedIsHeld(c, key);
    if key in held {
      assert Hold(lease, key) in c.holds;
    }
  }

  lemma {:induction false} BesideGained(c0: Cache, c: Cache, c': Cache, lease: nat, held: seq<CacheKey>, key: CacheKey)
    requires Valid(c) && Beside(c0, c, lease, held) && c'.holds == c.holds + {Hold(lease, key)}
    requires forall k | k in c.entries :: k in c'.entries && c'.entries[k].instance == c.entries[k].instance
    requires c.built <= c'.built && c.retired <= c'.retired
    ensures Beside(c0, c', lease, Listed(held, key))
  {
    assert OwnHolds(lease, Listed(held, key)) == OwnHolds(lease, held) + {Hold(lease, key)};
  }

  /** Alone, a reference resolves exactly when its key is cached, already held or
      can be built, and adds at most its own hold. */
  lemma {:induction false} ResolvedAlone(c0: Cache, c: Cache, r: PlannedRef, lease: nat, held: seq<CacheKey>,
      others: Others, tick: nat)
    requires Quiet(others) && Valid(c0) && Valid(c) && Beside(c0, c, lease, held) && r.key.Ok?
    ensures var (c', error) := Resolving(c, r, lease, others, tick);
            && (error.None? <==> r.key.value in c0.entries || r.key.value in held || (r.left.None? && r.build.Ok?))
            && Beside(c0, c', lease, if error.None? then Listed(held, r.key.value) else held)
  {
    var key := r.key.value;
    CachedBeside(c0, c, lease, held, key);
    var (c', error) := Resolving(c, r, lease, others, tick);
    if key in c.entries {
      ReuseValid(c, Hold(lease, key));
      BesideGained(c0, c, c', lease, held, key);
    } else if error.None? {
      InsertValid(c, Hold(lease, key));
      BesideGained(c0, c, c', lease, held, key);
    }
  }

  lemma {:induction false} BesideReleased(c0: Cache, c: Cache, lease: nat, left: seq<CacheKey>)
    requires Valid(c0) && Valid(c) && Beside(c0, c, lease, left) && HoldsNothing(c0.holds, lease) && left != []
    requires NoRepeats(left)
    ensures Beside(c0, Release(c, Hold(lease, left[0])), lease, left[1..])
  {
    var h := Hold(lease, left[0]);
    assert left == [left[0]] + left[1..] && left[0] !in left[1..];
    assert OwnHolds(lease, left) == OwnHolds(lease, left[1..]) + {h};
    assert h in OwnHolds(lease, left) && h !in OwnHolds(lease, left[1..]);
    ReleaseValid(c, h);
  }

  lemma {:induction false} ReleasedAlone(c0: Cache, c: Cache, keys: seq<CacheKey>, lease: nat, others: Others,
      tick: nat, n: nat)
    requires Quiet(others) && Valid(c0) && Valid(c) && Beside(c0, c, lease, keys) && HeldBy(c.holds, lease, keys)
    requires HoldsNothing(c0.holds, lease) && n <= |keys|
    ensures Beside(c0, Releasing(c, keys, lease, others, tick, n), lease, keys[n..])
  {
    if n == 0 {
      assert keys[0..] == keys;
    } else {
      ReleasedAlone(c0, c, keys, lease, others, tick, n - 1);
      ReleasingKeeps(c, keys, lease, others, tick, n - 1);
      assert keys[n - 1..][1..] == keys[n..] && keys[n - 1..][0] == keys[n - 1];
      BesideReleased(c0, Releasing(c, keys, lease, others, tick, n - 1), lease, keys[n - 1..]);
    }
  }

  lemma {:induction false} SameEntries(c0: Cache, c: Cache, lease: nat)
    requires Valid(c0) && Valid(c) && Beside(c0, c, lease, [])
    ensures c.entries == c0.entries && c.holds == c0.holds
  {
    assert OwnHolds(lease, []) == {};
    assert c.holds == c0.holds;
    forall k ensures k in c.entries <==> k in c0.entries {
      CachedBeside(c0, c, lease, [], k);
    }
    forall k | k in c0.entries ensures c.entries[k] == c0.entries[k] {
      CachedIsHeld(c0, k);
      var g :| g in c0.holds && g.key == k;
      assert c.entries[k].refcount == |Holders(c.holds, k)| == c0.entries[k].refcount;
    }
  }

  /** With none of its holds left, the cache is as it was, and exactly the pools
      built meanwhile have been closed. */
  lemma {:induction false} Restored(c0: Cache, c: Cache, lease: nat)
    requires Valid(c0) && Valid(c) && Beside(c0, c, lease, [])
    ensures c.entries == c0.entries && c.holds == c0.holds
    ensures forall i :: i in c.retired <==> i in c0.retired || c0.built <= i < c.built
  {
    SameEntries(c0, c, lease);
    forall i ensures i in c.retired <==> i in c0.retired || c0.built <= i < c.built {
      if 0 <= i < c0.built && i !in c0.retired {
        var k :| k in c0.entries && c0.entries[k].instance == i;
        assert c.entries[k].instance == i;
      }
    }
  }

  /** Reference `i` has a usable key, and a backend cached before the call, taken
      by an earlier reference, or built now. */
  ghost predicate Resolvable(before: map<CacheKey, Cached>, refs: seq<PlannedRef>, i: nat)
    requires i < |refs|
  {
    && refs[i].key.Ok?
    && (|| refs[i].key.value in before
        || (refs[i].left.None? && refs[i].build.Ok?)
        || exists j :: 0 <= j < i && refs[j].key == refs[i].key)
  }

  ghost predicate OwnName(registry: map<string, nat>, refs: seq<PlannedRef>, i: nat)
    requires i < |refs|
  {
    refs[i].name !in registry && forall j | 0 <= j < i :: refs[j].name != refs[i].name
  }

  /** Each of the first `n` references can be resolved and has a name of its own. */
  ghost predicate Provisionable(before: map<CacheKey, Cached>, refs: seq<PlannedRef>, registry: map<string, nat>,
      n: nat)
    requires n <= |refs|
  {
    n == 0
    || (&& Provisionable(before, refs, registry, n - 1)
        && Resolvable(before, refs, n - 1) && OwnName(registry, refs, n - 1))
  }

  /** Whatever the others do, nothing can go wrong with the first `n`. */
  ghost predicate Certain(refs: seq<PlannedRef>, registry: map<string, nat>, n: nat)
    requires n <= |refs|
  {
    n == 0 || (Certain(refs, registry, n - 1) && refs[n - 1].key.Ok? && refs[n - 1].left.None? && refs[n - 1].build.Ok?
               && OwnName(registry, refs, n - 1))
  }

  lemma {:induction false} FailsForGood(before: map<CacheKey, Cached>, refs: seq<PlannedRef>,
      registry: map<string, nat>, n: nat, m: nat)
    requires n <= m <= |refs|
    ensures !Provisionable(before, refs, registry, n) ==> !Provisionable(before, refs, registry, m)
    ensures !Certain(refs, registry, n) ==> !Certain(refs, registry, m)
  {
    if n < m {
      FailsForGood(before, refs, registry, n, m - 1);
    }
  }

  lemma {:induction false} ResolvableHere(before: map<CacheKey, Cached>, refs: seq<PlannedRef>, held: seq<CacheKey>,
      i: nat)
    requires i < |refs| && KeysOf(refs[..i], held)
    ensures Resolvable(before, refs, i) <==>
            && refs[i].key.Ok?
            && (refs[i].key.value in before || refs[i].key.value in held || (refs[i].left.None? && refs[i].build.Ok?))
  {
    NamesAndKeys(refs[..i]);
    assert forall j | 0 <= j < i :: refs[..i][j] == refs[j];
  }

  lemma {:induction false} OwnNameHere(registry: map<string, nat>, registry': map<string, nat>, refs: seq<PlannedRef>,
      i: nat)
    requires i < |refs| && registry'.Keys == registry.Keys + NamesOf(refs[..i])
    ensures OwnName(registry, refs, i) <==> refs[i].name !in registry'
  {
    NamesAndKeys(refs[..i]);
    assert forall j | 0 <= j < i :: refs[..i][j] == refs[j];
  }

  // ------------------------------------------------------------- the cache object

  /** Where the loop stands after `i` references. */
  ghost predicate Progress(c0: Cache, c: Cache, refs: seq<PlannedRef>, registry: map<string, nat>,
      registry': map<string, nat>, lease: nat, held: seq<CacheKey>, others: Others, i: nat)
    requires i <= |refs|
  {
    && Valid(c) && HeldBy(c.holds, lease, held) && KeysOf(refs[..i], held)
    && Registered(refs[..i], registry, registry', c.entries) && DistinctNames(refs[..i])
    && (Quiet(others) ==> Beside(c0, c, lease, held) && Provisionable(c0.entries, refs, registry, i))
  }

  lemma {:induction false} Started(c: Cache, refs: seq<PlannedRef>, registry: map<string, nat>, lease: nat,
      others: Others)
    requires Valid(c) && HoldsNothing(c.holds, lease)
    ensures Progress(c, c, refs, registry, registry, lease, [], others, 0)
  {
    assert NamesOf(refs[..0]) == {} && KeysIn(refs[..0]) == {} && OwnHolds(lease, []) == {};
  }

  lemma {:induction false} Finished(c0: Cache, c: Cache, refs: seq<PlannedRef>, registry: map<string, nat>,
      registry': map<string, nat>, lease: nat, held: seq<CacheKey>, others: Others)
    requires Progress(c0, c, refs, registry, registry', lease, held, others, |refs|)
    ensures KeysOf(refs, held) && Registered(refs, registry, registry', c.entries) && DistinctNames(refs)
  {
    assert refs[..|refs|] == refs;
  }

  /** The others may move at any point without undoing what has been attached. */
  lemma {:induction false} ProgressStays(c0: Cache, c: Cache, refs: seq<PlannedRef>, registry: map<string, nat>,
      registry': map<string, nat>, lease: nat, held: seq<CacheKey>, others: Others, i: nat, tick: nat)
    requires i <= |refs| && Progress(c0, c, refs, registry, registry', lease, held, others, i)
    requires ByOthers(others, lease)
    ensures Progress(c0, MovedAll(c, others(tick)), refs, registry, registry', lease, held, others, i)
  {
    OthersKeep(c, others(tick), lease);
    StillRegistered(refs[..i], registry, registry', c, MovedAll(c, others(tick)), lease, held);
  }

  /** One more reference attached. */
  lemma {:induction false} Advanced(c0: Cache, c: Cache, c': Cache, refs: seq<PlannedRef>, registry: map<string, nat>,
      registry': map<string, nat>, lease: nat, held: seq<CacheKey>, others: Others, i: nat, tick: nat)
    requires i < |refs| && Progress(c0, c, refs, registry, registry', lease, held, others, i)
    requires ByOthers(others, lease) && Valid(c0)
    requires Resolving(c, refs[i], lease, others, tick) == (c', None) && refs[i].name !in registry'
    ensures refs[i].key.Ok? && refs[i].key.value in c'.entries
    ensures Progress(c0, c', refs, registry, registry'[refs[i].name := c'.entries[refs[i].key.value].instance],
                     lease, Listed(held, refs[i].key.value), others, i + 1)
  {
    var r, done := refs[i], refs[..i];
    ResolvingKeeps(c, r, lease, others, tick);
    var held' := Listed(held, r.key.value);
    StillRegistered(done, registry, registry', c, c', lease, held);
    NewName(done, r, registry, registry', c'.entries);
    NewKey(done, r, held, held');
    assert refs[..i + 1] == done + [r];
    if Quiet(others) {
      ResolvedAlone(c0, c, r, lease, held, others, tick);
      ResolvableHere(c0.entries, refs, held, i);
      OwnNameHere(registry, registry', refs, i);
    }
  }

  /** A reference that cannot be attached is a reason to fail. */
  lemma {:induction false} Stuck(c0: Cache, c: Cache, refs: seq<PlannedRef>, registry: map<string, nat>,
      registry': map<string, nat>, lease: nat, held: seq<CacheKey>, others: Others, i: nat, tick: nat)
    requires i < |refs| && Progress(c0, c, refs, registry, registry', lease, held, others, i) && Valid(c0)
    requires Resolving(c, refs[i], lease, others, tick).1.Some? || refs[i].name in registry'
    ensures !Certain(refs, registry, |refs|) && (Quiet(others) ==> !Provisionable(c0.entries, refs, registry, |refs|))
  {
    OwnNameHere(registry, registry', refs, i);
    ResolvableHere(c0.entries, refs, held, i);
    if Quiet(others) && refs[i].key.Ok? {
      ResolvedAlone(c0, c, refs[i], lease, held, others, tick);
    }
    FailsForGood(c0.entries, refs, registry, i + 1, |refs|);
  }

  /** The cache as an object: the map the source guards with entry locks, what
      each lease has listed, and the pools opened and closed. Its critical
      sections are moves of the cache; between them the other users move. */
  class BackendCache {
    var entries: map<CacheKey, Cached>
    var holds: set<Hold>
    var built: nat
    var retired: set<nat>

    function Contents(): Cache
      reads this
    {
      Cache(entries, holds, built, retired)
    }

    constructor ()
      ensures Contents() == Cache(map[], {}, 0, {}) && Valid(Contents())
    {
      entries, holds, built, retired := map[], {}, 0, {};
    }

    /** Others use the cache while this lease waits. */
    method GiveWay(moves: seq<Move>)
      modifies this
      ensures Contents() == MovedAll(old(Contents()), moves)
    {
      var c := MovedAll(Contents(), moves);
      entries, holds, built, retired := c.entries, c.holds, c.built, c.retired;
    }

    /** Reuse a cached backend if present, one refcount per lease. */
    method ReuseCached(key: CacheKey, lease: nat, held: seq<CacheKey>)
      returns (found: Option<nat>, held': seq<CacheKey>)
      requires HeldBy(holds, lease, held)
      modifies this
      ensures found.Some? <==> key in old(entries)
      ensures found.None? ==> Contents() == old(Contents()) && held' == held
      ensures found.Some? ==> Contents() == Reuse(old(Contents()), Hold(lease, key)) && held' == Listed(held, key)
      ensures found.Some? ==> key in entries && found.value == entries[key].instance
    {
      held' := held;
      if key !in entries {
        return None, held';
      }
      var entry := entries[key];
      if key !in held {
        entries := entries[key := entry.(refcount := entry.refcount + 1)];
        holds := holds + {Hold(lease, key)};
        held' := held + [key];
      }
      found := Some(entry.instance);
    }

    /** Insert a freshly built backend, or reuse the one another user published
        meanwhile and close the duplicate. */
    method InsertBuilt(key: CacheKey, lease: nat, held: seq<CacheKey>) returns (instance: nat, held': seq<CacheKey>)
      requires HeldBy(holds, lease, held)
      modifies this
      ensures Contents() == InsertOrReuse(old(Contents()), Hold(lease, key)) && held' == Listed(held, key)
      ensures key in entries && instance == entries[key].instance
    {
      var number := built;
      built := built + 1;
      held' := held;
      if key in entries {
        var entry := entries[key];
        instance := entry.instance;
        if key !in held {
          entries := entries[key := entry.(refcount := entry.refcount + 1)];
          holds := holds + {Hold(lease, key)};
          held' := held + [key];
        }
        retired := retired + {number};
      } else {
        instance := number;
        if key !in held {
          held' := held + [key];
        }
        holds := holds + {Hold(lease, key)};
        entries := entries[key := Cached(number, 1)];
      }
    }

    /** Decrement one key's refcount, and close its backend when it reaches zero. */
    method ReleaseKey(key: CacheKey, lease: nat)
      modifies this
      ensures Contents() == Release(old(Contents()), Hold(lease, key))
    {
      holds := holds - {Hold(lease, key)};
      if key in entries {
        var entry := entries[key];
        var left := if entry.refcount == 0 then 0 else entry.refcount - 1;
        if left == 0 {
          retired := retired + {entry.instance};
          entries := entries - {key};
        } else {
          entries := entries[key := entry.(refcount := left)];
        }
      }
    }

    method ReleaseInto(keys: seq<CacheKey>, lease: nat, others: Others, tick: nat)
      modifies this
      ensures Contents() == Releasing(old(Contents()), keys, lease, others, tick, |keys|)
    {
      var i := 0;
      while i < |keys|
        invariant 0 <= i <= |keys| && Contents() == Releasing(old(Contents()), keys, lease, others, tick, i)
      {
        ReleaseKey(keys[i], lease);
        GiveWay(others(tick + i));
        i := i + 1;
      }
    }

    /** The cold path, after waiting for the lock of the key's build. */
    method Initialize(r: PlannedRef, key: CacheKey, lease: nat, held: seq<CacheKey>, others: seq<Move>)
      returns (result: Result<nat, string>, held': seq<CacheKey>)
      requires Valid(Contents()) && HeldBy(holds, lease, held) && forall m | m in others :: m.hold.lease != lease
      modifies this
      ensures var (c, error) := Initializing(old(Contents()), r, key, lease, others);
              Contents() == c && if error.Some? then result == Err(error.value) && held' == held
                                 else
                                   held' == Listed(held, key) && key in entries && result == Ok(entries[key].instance)
    {
      var found;
      found, held' := ReuseCached(key, lease, held);
      if found.Some? {
        return Ok(found.value), held';
      }
      if r.left.Some? {
        return Err(r.left.value), held';
      }
      OthersKeep(Contents(), others, lease);
      GiveWay(others);
      if r.build.Err? {
        return Err(r.build.error), held';
      }
      var instance;
      instance, held' := InsertBuilt(key, lease, held);
      result := Ok(instance);
    }

    /** Resolve one reference to a backend: exactly the moves of `Resolving`. */
    method Resolve(r: PlannedRef, lease: nat, held: seq<CacheKey>, others: Others, tick: nat)
      returns (result: Result<nat, string>, held': seq<CacheKey>)
      requires Valid(Contents()) && HeldBy(holds, lease, held) && ByOthers(others, lease)
      modifies this
      ensures var (c, error) := Resolving(old(Contents()), r, lease, others, tick);
              Contents() == c && if error.Some? then result == Err(error.value) && held' == held
                                 else r.key.Ok? && held' == Listed(held, r.key.value) && r.key.value in entries
                                      && result == Ok(entries[r.key.value].instance)
    {
      held' := held;
      if r.key.Err? {
        return Err(r.key.error), held';
      }
      var found;
      found, held' := ReuseCached(r.key.value, lease, held);
      if found.Some? {
        return Ok(found.value), held';
      }
      OthersKeep(Contents(), others(tick), lease);
      GiveWay(others(tick));
      result, held' := Initialize(r, r.key.value, lease, held, others(tick + 1));
    }

    /** One turn of the loop, after the others had their way: attach reference `i`,
        or learn that the call fails. */
    method AttachNext(refs: seq<PlannedRef>, i: nat, lease: nat, held: seq<CacheKey>, registry': map<string, nat>,
        others: Others, ghost registry: map<string, nat>, ghost c0: Cache)
      returns (outcome: Result<(), string>, held': seq<CacheKey>, registry'': map<string, nat>)
      requires i < |refs| && ByOthers(others, lease) && Valid(c0)
      requires Progress(c0, Contents(), refs, registry, registry', lease, held, others, i)
      modifies this
      ensures outcome.Ok? ==> Progress(c0, Contents(), refs, registry, registry'', lease, held', others, i + 1)
      ensures outcome.Err? ==> registry'' == registry' && Valid(Contents()) && HeldBy(holds, lease, held')
      ensures outcome.Err? ==> !Certain(refs, registry, |refs|)
      ensures outcome.Err? && Quiet(others) ==>
          !Provisionable(c0.entries, refs, registry, |refs|) && Beside(c0, Contents(), lease, held')
    {
      ProgressStays(c0, Contents(), refs, registry, registry', lease, held, others, i, 3 * i);
      GiveWay(others(3 * i));
      ghost var c, tick := Contents(), 3 * i + 1;
      var resolved;
      registry'' := registry';
      resolved, held' := Resolve(refs[i], lease, held, others, 3 * i + 1);
      AfterResolving(c0, c, refs[i], lease, held, others, tick);
      if resolved.Err? {
        Stuck(c0, c, refs, registry, registry', lease, held, others, i, tick);
        return Err(resolved.error), held', registry'';
      }
      if refs[i].name in registry' {
        Stuck(c0, c, refs, registry, registry', lease, held, others, i, tick);
        return Err(DUPLICATE_NAME), held', registry'';
      }
      Advanced(c0, c, Contents(), refs, registry, registry', lease, held, others, i, tick);
      registry'' := registry'[refs[i].name := resolved.value];
      outcome := Ok(());
    }

    /** Undo a failed call. Nothing of the lease is left; alone, the cache is as
        before the call and exactly the pools built by the call are closed. */
    method Rollback(lease: nat, held: seq<CacheKey>, others: Others, tick: nat, ghost c0: Cache)
      requires Valid(Contents()) && HeldBy(holds, lease, held) && ByOthers(others, lease)
      requires Valid(c0) && HoldsNothing(c0.holds, lease) && (Quiet(others) ==> Beside(c0, Contents(), lease, held))
      modifies this
      ensures Valid(Contents()) && HoldsNothing(holds, lease)
      ensures Quiet(others) ==> AsBefore(c0, Contents())
    {
      OthersKeep(Contents(), others(tick), lease);
      GiveWay(others(tick));
      ghost var c := Contents();
      ReleaseInto(held, lease, others, tick + 1);
      ReleasingKeeps(c, held, lease, others, tick + 1, |held|);
      assert held[|held|..] == [];
      if Quiet(others) {
        ReleasedAlone(c0, c, held, lease, others, tick + 1, |held|);
        Restored(c0, Contents(), lease);
      }
    }

    /** Provision every reference into `registry` and return the lease's keys,
        whatever the other users of the cache do meanwhile. On failure the
        registry is as before and the lease holds nothing; on success it holds
        exactly its keys and each name resolves to the instance cached under its
        reference's key. With no interference it fails exactly when some
        reference cannot be resolved or named, and then changes no entry. */
    method ProvisionInto(refs: seq<PlannedRef>, registry: map<string, nat>, lease: nat, others: Others)
      returns (result: Result<seq<CacheKey>, string>, registry': map<string, nat>)
      requires Valid(Contents()) && HoldsNothing(holds, lease) && ByOthers(others, lease)
      modifies this
      ensures Valid(Contents())
      ensures result.Err? ==> registry' == registry && HoldsNothing(holds, lease)
      ensures result.Ok? ==> HeldBy(holds, lease, result.value) && KeysOf(refs, result.value)
      ensures result.Ok? ==> Registered(refs, registry, registry', entries) && DistinctNames(refs)
      ensures Certain(refs, registry, |refs|) ==> result.Ok?
      ensures Quiet(others) ==> (result.Ok? <==> Provisionable(old(entries), refs, registry, |refs|))
      ensures Quiet(others) && result.Err? ==> AsBefore(old(Contents()), Contents())
    {
      var held: seq<CacheKey> := [];
      registry' := registry;
      Started(Contents(), refs, registry, lease, others);
      var i := 0;
      while i < |refs|
        invariant 0 <= i <= |refs|
        invariant Progress(old(Contents()), Contents(), refs, registry, registry', lease, held, others, i)
      {
        DeregisterRestores(refs[..i], registry, registry', entries);
        var outcome;
        outcome, held, registry' := AttachNext(refs, i, lease, held, registry', others, registry, old(Contents()));
        if outcome.Err? {
          registry' := registry' - NamesOf(refs[..i]);
          Rollback(lease, held, others, 3 * |refs|, old(Contents()));
          return Err(outcome.error), registry';
        }
        i := i + 1;
      }
      ProgressStays(old(Contents()), Contents(), refs, registry, registry', lease, held, others, i, 3 * i);
      GiveWay(others(3 * i));
      Finished(old(Contents()), Contents(), refs, registry, registry', lease, held, others);
      result := Ok(held);
    }
  }

  const DUPLICATE_NAME := "duplicate store name"

  /** Every entry and every hold is as it was, and the pools opened meanwhile are
      the ones that have been closed. */
  ghost predicate AsBefore(c0: Cache, c: Cache)
  {
    && c.entries == c0.entries && c.holds == c0.holds
    && forall i :: i in c.retired <==> i in c0.retired || c0.built <= i < c.built
  }

  lemma {:induction false} AfterResolving(c0: Cache, c: Cache, r: PlannedRef, lease: nat, held: seq<CacheKey>,
      others: Others, tick: nat)
    requires Valid(c0) && Valid(c) && HeldBy(c.holds, lease, held) && ByOthers(others, lease)
    requires Quiet(others) ==> Beside(c0, c, lease, held)
    ensures var (c', error) := Resolving(c, r, lease, others, tick);
            var held' := if error.None? && r.key.Ok? then Listed(held, r.key.value) else held;
            && Valid(c') && HeldBy(c'.holds, lease, held') && (Quiet(others) ==> Beside(c0, c', lease, held'))
  {
    if r.key.Ok? {
      ResolvingKeeps(c, r, lease, others, tick);
      if Quiet(others) {
        ResolvedAlone(c0, c, r, lease, held, others, tick);
      }
    }
  }
}
