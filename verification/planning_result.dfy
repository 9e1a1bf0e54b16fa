/** The planning pass end to end: what a successful plan guarantees. */
module PlanningResult {
  import opened Results
  import opened Planning
  import opened CoalescingLaws

  // ------------------------------------------------------ filter identity

  ghost predicate StoreName(name: string)
  {
    name == DEFAULT_STORE_NAME || name == CONVERSATIONS_STORE_NAME
  }

  /** The components a filter owns agree: everything but the table that belongs
      to the other filter. */
  ghost predicate OwnedAgree(part: Parts, name: string, a: StoreConfig, b: StoreConfig)
    requires a.Object? && b.Object?
  {
    && part.base(NonTable(a)) == part.base(NonTable(b))
    && part.conversations(Lookup(a, CONVERSATIONS_TABLE)) == part.conversations(Lookup(b, CONVERSATIONS_TABLE))
    && (if name == DEFAULT_STORE_NAME
        then part.responses(Lookup(a, RESPONSES_TABLE)) == part.responses(Lookup(b, RESPONSES_TABLE))
        else part.items(Lookup(a, ITEMS_TABLE)) == part.items(Lookup(b, ITEMS_TABLE)))
  }

  lemma {:induction false} OwnedParts(name: string, config: StoreConfig)
    requires config.Object? && StoreName(name)
    ensures NonTable(Owned(name, config)) == NonTable(config)
    ensures Lookup(Owned(name, config), CONVERSATIONS_TABLE) == Lookup(config, CONVERSATIONS_TABLE)
    ensures name == DEFAULT_STORE_NAME ==>
              && Lookup(Owned(name, config), RESPONSES_TABLE) == Lookup(config, RESPONSES_TABLE)
              && Lookup(Owned(name, config), ITEMS_TABLE).None?
    ensures name == CONVERSATIONS_STORE_NAME ==>
              && Lookup(Owned(name, config), RESPONSES_TABLE) == Some(Str("shared_responses"))
              && Lookup(Owned(name, config), ITEMS_TABLE) == Lookup(config, ITEMS_TABLE)
  {
  }

  ghost predicate OwnedAccepted(part: Parts, name: string, config: StoreConfig)
  {
    config.Object? && Accepts(part, Owned(name, config))
  }

  lemma {:induction false} AcceptedIsOwnedAccepted(f: Factory, part: Parts, name: string, config: StoreConfig)
    requires Componentwise(f, part) && StoreName(name) && Accepts(part, config)
    ensures OwnedAccepted(part, name, config)
  {
    OwnedParts(name, config);
  }

  /** With a componentwise key, filter identity is agreement on owned parts. */
  lemma {:induction false} IdentityIsOwnedAgreement(f: Factory, part: Parts, a: StoreRef, b: StoreRef)
    requires Componentwise(f, part) && a.name == b.name && a.backendId == b.backendId && StoreName(a.name)
    requires OwnedAccepted(part, a.name, a.config) && OwnedAccepted(part, a.name, b.config)
    ensures SameFilterIdentity(a, b, f) == Ok(OwnedAgree(part, a.name, a.config, b.config))
  {
    OwnedParts(a.name, a.config);
    OwnedParts(a.name, b.config);
  }

  /** Identity between two accepted references: their effective keys differ at
      most in the table that belongs to the other filter. */
  lemma {:induction false} IdentityOfKeys(f: Factory, part: Parts, a: StoreRef, b: StoreRef)
    requires Componentwise(f, part) && a.name == b.name && a.backendId == b.backendId && StoreName(a.name)
    requires f.effectiveKey(a.config).Ok? && f.effectiveKey(b.config).Ok?
    ensures var ka, kb := f.effectiveKey(a.config).value, f.effectiveKey(b.config).value;
            SameFilterIdentity(a, b, f) == Ok(
              ka.base == kb.base && ka.conversations == kb.conversations
              && (if a.name == DEFAULT_STORE_NAME then ka.responses == kb.responses else ka.items == kb.items))
  {
    AcceptedIsOwnedAccepted(f, part, a.name, a.config);
    AcceptedIsOwnedAccepted(f, part, a.name, b.config);
    IdentityIsOwnedAgreement(f, part, a, b);
  }

  // -------------------------------------------------- coalescing and pinning

  /** Promotion keeps the filter identity of the reference it rewrites. */
  lemma {:induction false} PromotionKeepsIdentity(plans: seq<ListenerStorePlan>, factories: map<string, Factory>,
      parts: map<string, Parts>, candidates: seq<Candidate>, at: Location)
    requires AllComponentwise(factories, parts) && Candidates(plans, factories, candidates)
    requires IsLocation(plans, at) && Promoted(candidates, plans, at)
    ensures RefAt(plans, at).backendId in factories
    ensures SameFilterIdentity(RefAt(plans, at), Coalesced(candidates, at, RefAt(plans, at)),
        factories[RefAt(plans, at).backendId]) == Ok(true)
  {
    var ref := RefAt(plans, at);
    var c := PromotionPairs(plans, factories, parts, candidates, at);
    PairKey(plans, factories, parts, c);
    var f, part := factories[ref.backendId], parts[ref.backendId];
    var r, d := RefAt(plans, c.response), RefAt(plans, c.conversation);
    assert NonTable(c.config) == NonTable(r.config);
    assert Lookup(c.config, RESPONSES_TABLE) == Lookup(r.config, RESPONSES_TABLE);
    assert Lookup(c.config, CONVERSATIONS_TABLE) == Lookup(r.config, CONVERSATIONS_TABLE);
    AcceptedIsOwnedAccepted(f, part, ref.name, c.config);
    OwnedParts(ref.name, ref.config);
    assert NonTable(Agnostic(d.config)) == NonTable(d.config);
    assert OwnedAccepted(part, ref.name, ref.config);
    IdentityIsOwnedAgreement(f, part, ref, ref.(config := c.config));
  }

  lemma {:induction false} PinningKeepsIdentity(factories: map<string, Factory>, parts: map<string, Parts>,
      active: ActiveStores, ref: StoreRef, ref': StoreRef)
    requires AllComponentwise(factories, parts) && ref.backendId in factories && StoreName(ref.name)
    requires Preserved(factories, active, false, ref, ref') && Keyed(factories, ref')
    ensures SameFilterIdentity(ref, ref', factories[ref.backendId]) == Ok(true)
  {
    var f := factories[ref.backendId];
    if k :| && 0 <= k < |active.refs| && Reusable(factories, active, ref, active.refs[k])
            && ref'.config == active.refs[k].config
    {
      assert SameFilterIdentity(ref, active.refs[k], f) == Ok(true);
    } else {
      IdentityOfKeys(f, parts[ref.backendId], ref, ref');
    }
  }

  /** Coalescing followed by pinning preserves meaning: the original and the
      final config of every reference have the same filter identity. */
  lemma {:induction false} RewritingKeepsIdentity(plans: seq<ListenerStorePlan>, factories: map<string, Factory>,
      parts: map<string, Parts>, candidates: seq<Candidate>, active: ActiveStores, at: Location, final: StoreRef)
    requires AllComponentwise(factories, parts) && Candidates(plans, factories, candidates)
    requires IsLocation(plans, at) && StoreName(RefAt(plans, at).name)
    requires Preserved(factories, active, Promoted(candidates, plans, at), Coalesced(candidates, at, RefAt(plans, at)),
        final)
    requires Keyed(factories, final)
    ensures RefAt(plans, at).backendId in factories
    ensures SameFilterIdentity(RefAt(plans, at), final, factories[RefAt(plans, at).backendId]) == Ok(true)
  {
    if Promoted(candidates, plans, at) {
      PromotionKeepsIdentity(plans, factories, parts, candidates, at);
    } else {
      PinningKeepsIdentity(factories, parts, active, RefAt(plans, at), final);
    }
  }

  /** Identity carries over to the reference a duplicate collapses into. */
  lemma {:induction false} IdentityOfKept(factories: map<string, Factory>, parts: map<string, Parts>, ref: StoreRef,
      final: StoreRef, kept: StoreRef)
    requires AllComponentwise(factories, parts) && StoreName(ref.name) && ref.backendId in factories
    requires SameFilterIdentity(ref, final, factories[ref.backendId]) == Ok(true)
    requires kept.name == final.name && SameStore(factories, kept, final)
    ensures SameFilterIdentity(ref, kept, factories[ref.backendId]) == Ok(true)
  {
    var f, part := factories[ref.backendId], parts[ref.backendId];
    AcceptedIsOwnedAccepted(f, part, ref.name, final.config);
    AcceptedIsOwnedAccepted(f, part, ref.name, kept.config);
    IdentityIsOwnedAgreement(f, part, ref, final);
    IdentityIsOwnedAgreement(f, part, ref, kept);
  }

  // ------------------------------------------------------------ deduplication

  ghost predicate DistinctNames(refs: seq<StoreRef>)
  {
    forall i, j | 0 <= i < j < |refs| :: refs[i].name != refs[j].name
  }

  /** Reference `k` is the earliest of its name. */
  ghost predicate IsFirst(refs: seq<StoreRef>, k: nat)
  {
    k < |refs| && forall m | 0 <= m < k :: refs[m].name != refs[k].name
  }

  ghost function Positions(refs: seq<StoreRef>, n: nat): seq<nat>
    requires n <= |refs|
  {
    if n == 0 then [] else Positions(refs, n - 1) + if NameBound(refs[..n - 1], refs[n - 1].name) then [] else [n - 1]
  }

  lemma {:induction false} PositionsExact(refs: seq<StoreRef>, n: nat)
    requires n <= |refs|
    ensures forall k: nat :: k in Positions(refs, n) <==> k < n && IsFirst(refs, k)
  {
    if n > 0 {
      PositionsExact(refs, n - 1);
      assert NameBound(refs[..n - 1], refs[n - 1].name) <==> !IsFirst(refs, n - 1) by {
        assert forall m | 0 <= m < n - 1 :: refs[m] in refs[..n - 1];
      }
    }
  }

  /** First-occurrence order is kept: the kept references sit at increasing
      positions of the original list. */
  lemma {:induction false} FirstsInOrder(refs: seq<StoreRef>, n: nat)
    requires n <= |refs|
    ensures |Positions(refs, n)| == |FirstsOf(refs, n)|
    ensures forall i | 0 <= i < |Positions(refs, n)| ::
        Positions(refs, n)[i] < n && FirstsOf(refs, n)[i] == refs[Positions(refs, n)[i]]
    ensures forall i, j | 0 <= i < j < |Positions(refs, n)| :: Positions(refs, n)[i] < Positions(refs, n)[j]
  {
    if n > 0 {
      FirstsInOrder(refs, n - 1);
    }
  }

  lemma {:induction false} EarliestOf(refs: seq<StoreRef>, k: nat) returns (m: nat)
    requires k < |refs|
    ensures m <= k && refs[m].name == refs[k].name && IsFirst(refs, m)
  {
    if IsFirst(refs, k) {
      m := k;
    } else {
      var j :| 0 <= j < k && refs[j].name == refs[k].name;
      m := EarliestOf(refs, j);
    }
  }

  /** The kept references are the first of each name, each name once, and every
      name of the list is kept. */
  lemma {:induction false} FirstsLaw(refs: seq<StoreRef>)
    ensures forall r | r in Firsts(refs) :: r in refs
    ensures forall k | 0 <= k < |refs| :: NameBound(Firsts(refs), refs[k].name)
    ensures DistinctNames(Firsts(refs))
  {
    var kept, at := Firsts(refs), Positions(refs, |refs|);
    FirstsInOrder(refs, |refs|);
    PositionsExact(refs, |refs|);
    forall i, j | 0 <= i < j < |kept| ensures kept[i].name != kept[j].name {
      assert at[i] < at[j] && at[j] in at;
    }
    forall k | 0 <= k < |refs| ensures NameBound(kept, refs[k].name) {
      var m := EarliestOf(refs, k);
      assert m in at;
      var i :| 0 <= i < |at| && at[i] == m;
      assert kept[i] in kept;
    }
  }

  // -------------------------------------------------------- namespace clashes

  lemma {:induction false} FlatAt(plans: seq<ListenerStorePlan>, at: Location)
    requires IsLocation(plans, at)
    ensures |Flatten(plans[..at.plan])| + at.index < |Flatten(plans)|
    ensures Flatten(plans)[|Flatten(plans[..at.plan])| + at.index] == RefAt(plans, at)
    decreases |plans|
  {
    var rest := plans[..|plans| - 1];
    if at.plan < |rest| {
      FlatAt(rest, at);
      assert rest[..at.plan] == plans[..at.plan];
    } else {
      assert plans[..at.plan] == rest;
    }
  }

  lemma {:induction false} FlatBefore(plans: seq<ListenerStorePlan>, i: nat, j: nat)
    requires i < j <= |plans|
    ensures |Flatten(plans[..i])| + |plans[i].refs| <= |Flatten(plans[..j])|
    decreases j
  {
    assert plans[..j][..j - 1] == plans[..j - 1];
    if i < j - 1 {
      FlatBefore(plans, i, j - 1);
    }
  }

  ghost predicate ClashFree(plans: seq<ListenerStorePlan>, factories: map<string, Factory>)
  {
    forall a, b | IsLocation(plans, a) && IsLocation(plans, b) && a != b ::
      PairClean(factories, RefAt(plans, a), RefAt(plans, b))
  }

  lemma {:induction false} CleanSymmetric(factories: map<string, Factory>, a: StoreRef, b: StoreRef)
    requires PairClean(factories, a, b)
    ensures PairClean(factories, b, a)
  {
    if CrossCollision(b, a) {
      var x, y := SqlObjects(b.config).value, SqlObjects(a.config).value;
      var i, j :| 0 <= i < |x| && 0 <= j < |y| && Clash(x[i], y[j]);
      assert Clash(y[j], x[i]);
    }
  }

  lemma {:induction false} ValidatedIsClashFree(plans: seq<ListenerStorePlan>, factories: map<string, Factory>)
    requires forall i, j | 0 <= i < j < |Flatten(plans)| :: PairClean(factories, Flatten(plans)[i], Flatten(plans)[j])
    ensures ClashFree(plans, factories)
  {
    forall a, b | IsLocation(plans, a) && IsLocation(plans, b) && a != b
      ensures PairClean(factories, RefAt(plans, a), RefAt(plans, b))
    {
      FlatAt(plans, a);
      FlatAt(plans, b);
      var i, j := |Flatten(plans[..a.plan])| + a.index, |Flatten(plans[..b.plan])| + b.index;
      if a.plan < b.plan {
        FlatBefore(plans, a.plan, b.plan);
      } else if b.plan < a.plan {
        FlatBefore(plans, b.plan, a.plan);
      }
      if i < j {
        assert PairClean(factories, Flatten(plans)[i], Flatten(plans)[j]);
      } else {
        assert PairClean(factories, Flatten(plans)[j], Flatten(plans)[i]);
        CleanSymmetric(factories, RefAt(plans, b), RefAt(plans, a));
      }
    }
  }

  // ------------------------------------------------ a reference against itself

  /** Two kinds of object of one store have one name. */
  predicate OwnClash(ref: StoreRef)
  {
    SqlObjects(ref.config).Some? && SchemaCollision(SqlObjects(ref.config).value)
  }

  /** No SQL name stands for two kinds of object in one namespace, whether two
      references use it or one. */
  ghost predicate NameSafe(plans: seq<ListenerStorePlan>, factories: map<string, Factory>)
  {
    forall a, b | IsLocation(plans, a) && IsLocation(plans, b) ::
      PairClean(factories, RefAt(plans, a), RefAt(plans, b))
  }

  lemma {:induction false} OwnClashIsCross(ref: StoreRef)
    ensures CrossCollision(ref, ref) <==> OwnClash(ref)
  {
    if CrossCollision(ref, ref) {
      var objects := SqlObjects(ref.config).value;
      var i, j :| 0 <= i < |objects| && 0 <= j < |objects| && Clash(objects[i], objects[j]);
      assert Clash(objects[j], objects[i]);
    }
  }

  /** Validation compares two references at a time, so a validated plan is safe
      exactly when no store with a namespace clashes with itself. */
  lemma {:induction false} NameSafeExactly(plans: seq<ListenerStorePlan>, factories: map<string, Factory>)
    requires ClashFree(plans, factories)
    ensures NameSafe(plans, factories) <==>
            forall at | IsLocation(plans, at) && SameNamespace(factories, RefAt(plans, at), RefAt(plans, at)) ::
              !OwnClash(RefAt(plans, at))
  {
    forall at | IsLocation(plans, at)
      ensures CrossCollision(RefAt(plans, at), RefAt(plans, at)) <==> OwnClash(RefAt(plans, at))
    {
      OwnClashIsCross(RefAt(plans, at));
    }
    if NameSafe(plans, factories) {
      forall at | IsLocation(plans, at) && SameNamespace(factories, RefAt(plans, at), RefAt(plans, at))
        ensures !OwnClash(RefAt(plans, at))
      {
        assert PairClean(factories, RefAt(plans, at), RefAt(plans, at));
      }
    }
  }

  /** A promoted reference never does: the combined config was checked. */
  lemma {:induction false} PromotedIsOwnClean(plans: seq<ListenerStorePlan>, factories: map<string, Factory>,
      candidates: seq<Candidate>, at: Location)
    requires Candidates(plans, factories, candidates) && IsLocation(plans, at) && Promoted(candidates, plans, at)
    ensures !OwnClash(Coalesced(candidates, at, RefAt(plans, at)))
  {
    SelectedAgree(candidates, at, RefAt(plans, at).name);
    assert IsCandidate(plans, factories, MutuallySelected(candidates, at, RefAt(plans, at).name).value);
  }

  /** The case the condition excludes: one table for responses and conversations. */
  lemma {:induction false} OwnClashPasses(listener: string, backendId: string, f: Factory, table: string, space: string)
    requires f.namespaceKey(Object(map[RESPONSES_TABLE := Str(table), CONVERSATIONS_TABLE := Str(table)])) ==
             Ok(Some(space))
    ensures var config := Object(map[RESPONSES_TABLE := Str(table), CONVERSATIONS_TABLE := Str(table)]);
            var plans := [ListenerStorePlan(listener, [StoreRef(DEFAULT_STORE_NAME, backendId, config)])];
            NamespacesClean(map[backendId := f], Flatten(plans)) && !NameSafe(plans, map[backendId := f])
  {
    var config := Object(map[RESPONSES_TABLE := Str(table), CONVERSATIONS_TABLE := Str(table)]);
    var ref := StoreRef(DEFAULT_STORE_NAME, backendId, config);
    var plans := [ListenerStorePlan(listener, [ref])];
    assert plans[..0] == [] && Flatten(plans) == [] + [ref];
    var objects := SqlObjects(config).value;
    assert Clash(objects[0], objects[4]);
    assert RefAt(plans, Location(0, 0)) == ref;
    assert !PairClean(map[backendId := f], ref, ref);
  }

  /** Every reference, dropped or kept, has the backend and the effective key of
      the one kept under its name. */
  lemma {:induction false} DroppedHasKeptStore(factories: map<string, Factory>, refs: seq<StoreRef>, ref: StoreRef)
    requires Consistent(factories, refs) && ref in refs
    ensures exists kept :: kept in Firsts(refs) && kept.name == ref.name && SameStore(factories, kept, ref)
  {
    FirstsLaw(refs);
    var kept :| kept in Firsts(refs) && kept.name == ref.name;
    assert kept in refs;
  }

  // ------------------------------------------------------------ the whole pass

  /** A kept reference of the listener serves `ref`: same registry name, same
      filter identity. */
  ghost predicate Served(factories: map<string, Factory>, kept: seq<StoreRef>, ref: StoreRef)
  {
    && ref.backendId in factories
    && exists k :: k in kept && k.name == ref.name && SameFilterIdentity(ref, k, factories[ref.backendId]) == Ok(true)
  }

  ghost predicate AllServed(plans: seq<ListenerStorePlan>, final: seq<ListenerStorePlan>,
      factories: map<string, Factory>)
  {
    && |final| == |plans|
    && forall at | IsLocation(plans, at) && StoreName(RefAt(plans, at).name) ::
         final[at.plan].listener == plans[at.plan].listener && Served(factories, final[at.plan].refs, RefAt(plans, at))
  }

  lemma {:induction false} ServedBy(factories: map<string, Factory>, parts: map<string, Parts>, refs: seq<StoreRef>,
      j: nat, ref: StoreRef)
    requires AllComponentwise(factories, parts) && Consistent(factories, refs) && j < |refs|
    requires StoreName(ref.name) && ref.backendId in factories && refs[j].name == ref.name
    requires SameFilterIdentity(ref, refs[j], factories[ref.backendId]) == Ok(true)
    ensures Served(factories, Firsts(refs), ref)
  {
    FirstsLaw(refs);
    var kept :| kept in Firsts(refs) && kept.name == refs[j].name;
    assert refs[j] in refs && kept in refs;
    IdentityOfKept(factories, parts, ref, refs[j], kept);
  }

  lemma {:induction false} DedupKeepsClashFree(plans: seq<ListenerStorePlan>, final: seq<ListenerStorePlan>,
      factories: map<string, Factory>)
    requires ClashFree(plans, factories) && |final| == |plans|
    requires forall i | 0 <= i < |plans| :: final[i] == ListenerStorePlan(plans[i].listener, Firsts(plans[i].refs))
    ensures ClashFree(final, factories)
  {
    forall a, b | IsLocation(final, a) && IsLocation(final, b) && a != b
      ensures PairClean(factories, RefAt(final, a), RefAt(final, b))
    {
      var ra, rb := plans[a.plan].refs, plans[b.plan].refs;
      FirstsInOrder(ra, |ra|);
      FirstsInOrder(rb, |rb|);
      var a', b' := Location(a.plan, Positions(ra, |ra|)[a.index]), Location(b.plan, Positions(rb, |rb|)[b.index]);
      assert a' != b';
      assert PairClean(factories, RefAt(plans, a'), RefAt(plans, b'));
    }
  }

  /** The plans after coalescing, which references it promoted, and the plans
      after pinning. */
  datatype Stages = Stages(coalesced: seq<ListenerStorePlan>, promoted: set<Location>, pinned: seq<ListenerStorePlan>)

  /** The stages are those of `plans`: each reference is what the candidates in
      plan order make of it, and then what pinning makes of that. */
  ghost predicate Staged(plans: seq<ListenerStorePlan>, factories: map<string, Factory>, active: Option<ActiveStores>,
      stages: Stages)
  {
    var candidates := CandidateList(plans, factories);
    && Rewritten(plans, stages.coalesced)
    && (forall at | IsLocation(plans, at) :: RefAt(stages.coalesced, at) == Coalesced(candidates, at, RefAt(plans, at)))
    && (forall at :: at in stages.promoted <==> IsLocation(plans, at) && Promoted(candidates, plans, at))
    && (active.None? ==> stages.pinned == stages.coalesced)
    && (active.Some? && AllPreservable(stages.coalesced, factories, active.value, stages.promoted) ==>
          && Rewritten(stages.coalesced, stages.pinned)
          && forall at | IsLocation(stages.coalesced, at) ::
               Preserved(factories, active.value, at in stages.promoted, RefAt(stages.coalesced, at),
                 RefAt(stages.pinned, at)))
  }

  lemma {:induction false} SamePlans(plans: seq<ListenerStorePlan>, a: seq<ListenerStorePlan>,
      b: seq<ListenerStorePlan>)
    requires Rewritten(plans, a) && Rewritten(plans, b)
    requires forall at | IsLocation(plans, at) :: RefAt(a, at) == RefAt(b, at)
    ensures a == b
  {
    forall i | 0 <= i < |plans| ensures a[i] == b[i] {
      assert forall j | 0 <= j < |plans[i].refs| ::
        IsLocation(plans, Location(i, j)) && a[i].refs[j] == RefAt(a, Location(i, j));
      assert forall j | 0 <= j < |plans[i].refs| :: b[i].refs[j] == RefAt(b, Location(i, j));
      assert a[i].refs == b[i].refs;
    }
  }

  /** There is one outcome of pinning a reference. */
  lemma {:induction false} PreservedOnce(factories: map<string, Factory>, active: ActiveStores, promoted: bool,
      ref: StoreRef, x: StoreRef, y: StoreRef)
    requires Preserved(factories, active, promoted, ref, x) && Preserved(factories, active, promoted, ref, y)
    ensures x == y
  {
  }

  /** The stages are a function of the plans, so what is said of them is said of
      the input. */
  lemma {:induction false} StagesDetermined(plans: seq<ListenerStorePlan>, factories: map<string, Factory>,
      active: Option<ActiveStores>, s: Stages, t: Stages)
    requires Staged(plans, factories, active, s) && Staged(plans, factories, active, t)
    requires active.Some? ==> AllPreservable(s.coalesced, factories, active.value, s.promoted)
    ensures s == t
  {
    SamePlans(plans, s.coalesced, t.coalesced);
    assert s.promoted == t.promoted;
    if active.Some? {
      forall at | IsLocation(s.coalesced, at) ensures RefAt(s.pinned, at) == RefAt(t.pinned, at) {
        PreservedOnce(factories, active.value, at in s.promoted, RefAt(s.coalesced, at), RefAt(s.pinned, at),
          RefAt(t.pinned, at));
      }
      SamePlans(s.coalesced, s.pinned, t.pinned);
    }
  }

  /** No pair fails to combine, no reference fails to pin, no SQL name clashes,
      and no listener binds one name to two stores. */
  ghost predicate Succeeds(plans: seq<ListenerStorePlan>, factories: map<string, Factory>, active: Option<ActiveStores>,
      stages: Stages)
  {
    && NoPairFails(plans, factories)
    && (active.Some? ==> AllPreservable(stages.coalesced, factories, active.value, stages.promoted))
    && NamespacesClean(factories, Flatten(stages.pinned))
    && forall p | p in stages.pinned :: Consistent(factories, p.refs)
  }

  /** `validate_and_deduplicate_refs`, which fails exactly when one of its stages
      has a reason to. A successful plan has no SQL name used for
      two kinds of object in one namespace, binds each registry name of a
      listener once, keeps each listener's first references in order, and, with
      componentwise keys, serves every configured store filter from a store with
      that filter's own identity. */
  method ValidateAndDeduplicate(plans: seq<ListenerStorePlan>, factories: map<string, Factory>,
      active: Option<ActiveStores>, ghost parts: map<string, Parts>)
    returns (result: Result<seq<ListenerStorePlan>, PlanError>, ghost stages: Stages)
    ensures NoPairFails(plans, factories) ==> Staged(plans, factories, active, stages)
    ensures result.Ok? <==> Succeeds(plans, factories, active, stages)
    ensures result.Ok? ==> |result.value| == |stages.pinned| && forall i | 0 <= i < |stages.pinned| ::
              result.value[i] == ListenerStorePlan(stages.pinned[i].listener, Firsts(stages.pinned[i].refs))
    ensures result.Ok? ==> ClashFree(result.value, factories)
    ensures result.Ok? ==> forall p | p in result.value ::
        DistinctNames(p.refs) && forall r | r in p.refs :: Keyed(factories, r)
    ensures result.Ok? && AllComponentwise(factories, parts) ==> AllServed(plans, result.value, factories)
  {
    stages := Stages(plans, {}, plans);
    var coalesced := CoalesceCompatible(plans, factories);
    if coalesced.Err? {
      return Err(coalesced.error), stages;
    }
    var (rewritten, promoted, candidates) := coalesced.value;
    CandidatesExact(plans, factories);
    var pinned := rewritten;
    stages := Stages(rewritten, promoted, pinned);
    if active.Some? {
      var preserved := PreserveActive(rewritten, factories, active.value, promoted);
      if preserved.Err? {
        return Err(preserved.error), stages;
      }
      pinned := preserved.value;
      stages := stages.(pinned := pinned);
    }
    var clean := ValidateNamespaces(Flatten(pinned), factories);
    if clean.Err? {
      return Err(clean.error), stages;
    }
    ValidatedIsClashFree(pinned, factories);
    result := DeduplicatePlans(pinned, factories);
    if result.Ok? {
      DedupKeepsClashFree(pinned, result.value, factories);
      forall i | 0 <= i < |pinned|
        ensures DistinctNames(result.value[i].refs) && forall r | r in result.value[i].refs :: Keyed(factories, r)
      {
        FirstsLaw(pinned[i].refs);
        assert pinned[i] in pinned;
      }
      if AllComponentwise(factories, parts) {
        PlanServes(plans, rewritten, pinned, result.value, factories, parts, candidates, promoted, active);
      }
    }
  }

  lemma {:induction false} PlanServes(plans: seq<ListenerStorePlan>, rewritten: seq<ListenerStorePlan>,
      pinned: seq<ListenerStorePlan>, final: seq<ListenerStorePlan>, factories: map<string, Factory>,
      parts: map<string, Parts>, candidates: seq<Candidate>, promoted: set<Location>, active: Option<ActiveStores>)
    requires AllComponentwise(factories, parts) && Candidates(plans, factories, candidates)
    requires Rewritten(plans, rewritten) && Rewritten(rewritten, pinned) && |final| == |pinned|
    requires forall at | IsLocation(plans, at) :: RefAt(rewritten, at) == Coalesced(candidates, at, RefAt(plans, at))
    requires forall at | IsLocation(plans, at) :: at in promoted <==> Promoted(candidates, plans, at)
    requires active.None? ==> pinned == rewritten
    requires active.Some? ==> forall at | IsLocation(rewritten, at) ::
        Preserved(factories, active.value, at in promoted, RefAt(rewritten, at), RefAt(pinned, at))
    requires forall p | p in pinned :: Consistent(factories, p.refs)
    requires forall i | 0 <= i < |pinned| :: final[i] == ListenerStorePlan(pinned[i].listener, Firsts(pinned[i].refs))
    ensures AllServed(plans, final, factories)
  {
    forall at | IsLocation(plans, at) && StoreName(RefAt(plans, at).name)
      ensures final[at.plan].listener == plans[at.plan].listener
      ensures Served(factories, final[at.plan].refs, RefAt(plans, at))
    {
      assert pinned[at.plan] in pinned && RefAt(pinned, at) in pinned[at.plan].refs;
      var idle := ActiveStores({}, [], r => false);
      RewritingKeepsIdentity(plans, factories, parts, candidates,
                             if active.Some? then active.value else idle, at, RefAt(pinned, at));
      ServedBy(factories, parts, pinned[at.plan].refs, at.index, RefAt(plans, at));
    }
  }
}
