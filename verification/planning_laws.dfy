/** What coalescing means when a factory's key is componentwise: a non-table part
    and one part per table field. */
module CoalescingLaws {
  import opened Results
  import opened Planning

  /** How a factory normalizes and accepts each component of a config. */
  datatype Parts = Parts(
    base: map<string, Json> -> string,
    responses: Option<Json> -> string,
    conversations: Option<Json> -> string,
    items: Option<Json> -> string,
    baseOk: map<string, Json> -> bool,
    responsesOk: Option<Json> -> bool,
    conversationsOk: Option<Json> -> bool,
    itemsOk: Option<Json> -> bool)

  ghost function NonTable(config: StoreConfig): map<string, Json>
    requires config.Object?
  {
    config.fields - {RESPONSES_TABLE, CONVERSATIONS_TABLE, ITEMS_TABLE}
  }

  ghost function KeyOf(parts: Parts, config: StoreConfig): Key
    requires config.Object?
  {
    Key(parts.base(NonTable(config)), parts.responses(Lookup(config, RESPONSES_TABLE)),
        parts.conversations(Lookup(config, CONVERSATIONS_TABLE)), parts.items(Lookup(config, ITEMS_TABLE)))
  }

  ghost predicate Accepts(parts: Parts, config: StoreConfig)
  {
    && config.Object? && parts.baseOk(NonTable(config)) && parts.responsesOk(Lookup(config, RESPONSES_TABLE))
    && parts.conversationsOk(Lookup(config, CONVERSATIONS_TABLE)) && parts.itemsOk(Lookup(config, ITEMS_TABLE))
  }

  /** The factory judges and keys each component on its own. The items table is
      optional, as a Responses-only store has none, and the sentinel table name
      is a valid one. */
  ghost predicate Componentwise(f: Factory, parts: Parts)
  {
    && (forall config :: f.effectiveKey(config).Ok? <==> Accepts(parts, config))
    && (forall config | f.effectiveKey(config).Ok? :: f.effectiveKey(config).value == KeyOf(parts, config))
    && parts.itemsOk(None) && parts.responsesOk(Some(Str("shared_responses")))
  }

  ghost predicate AllComponentwise(factories: map<string, Factory>, parts: map<string, Parts>)
  {
    forall b | b in factories :: b in parts && Componentwise(factories[b], parts[b])
  }

  // ------------------------------------------------------------- the classes

  /** Same backend, same table-agnostic key, same conversations table. */
  ghost predicate SameClass(factories: map<string, Factory>, a: StoreRef, b: StoreRef)
  {
    && a.backendId == b.backendId && a.backendId in factories
    && AgnosticKey(factories[a.backendId], a).Ok?
    && AgnosticKey(factories[a.backendId], a) == AgnosticKey(factories[a.backendId], b)
    && Lookup(a.config, CONVERSATIONS_TABLE) == Lookup(b.config, CONVERSATIONS_TABLE)
  }

  ghost predicate IsResponse(r: StoreRef)
  {
    r.name == DEFAULT_STORE_NAME
  }

  ghost predicate IsConversation(d: StoreRef)
  {
    d.name == CONVERSATIONS_STORE_NAME && Lookup(d.config, ITEMS_TABLE).Some?
  }

  ghost function AllRefs(plans: seq<ListenerStorePlan>): set<StoreRef>
  {
    set p, r | p in plans && r in p.refs :: r
  }

  /** `ref` takes part and its class holds both kinds. */
  ghost predicate BothKinds(factories: map<string, Factory>, all: set<StoreRef>, ref: StoreRef)
  {
    && (IsResponse(ref) || IsConversation(ref))
    && (exists r :: r in all && IsResponse(r) && SameClass(factories, r, ref))
    && (exists d :: d in all && IsConversation(d) && SameClass(factories, d, ref))
  }

  /** In the class of `ref`, all responses tables agree and all items tables agree. */
  ghost predicate TablesAgree(factories: map<string, Factory>, parts: map<string, Parts>, all: set<StoreRef>,
      ref: StoreRef)
    requires ref.backendId in parts
  {
    var part := parts[ref.backendId];
    && (forall a, b | && a in all && IsResponse(a) && SameClass(factories, a, ref)
                      && b in all && IsResponse(b) && SameClass(factories, b, ref) ::
        part.responses(Lookup(a.config, RESPONSES_TABLE)) == part.responses(Lookup(b.config, RESPONSES_TABLE)))
    && (forall a, b | && a in all && IsConversation(a) && SameClass(factories, a, ref)
                      && b in all && IsConversation(b) && SameClass(factories, b, ref) ::
        part.items(Lookup(a.config, ITEMS_TABLE)) == part.items(Lookup(b.config, ITEMS_TABLE)))
  }

  // ------------------------------------------------------- pairs and their keys

  lemma {:induction false} CombinesExactly(plans: seq<ListenerStorePlan>, factories: map<string, Factory>, r: Location,
      d: Location)
    requires IsLocation(plans, r) && IsLocation(plans, d) && NoPairFails(plans, factories)
    requires IsResponse(RefAt(plans, r)) && RefAt(plans, d).name == CONVERSATIONS_STORE_NAME
    ensures CombinedConfig(RefAt(plans, r), RefAt(plans, d), factories).Ok?
    ensures CombinedConfig(RefAt(plans, r), RefAt(plans, d), factories).value.Some? <==>
            IsConversation(RefAt(plans, d)) && SameClass(factories, RefAt(plans, r), RefAt(plans, d))
  {
    assert PairOk(plans, factories, r, d);
  }

  /** The key of a pair takes the responses table from one side, the items table
      from the other, and the rest from either. */
  lemma {:induction false} PairKey(plans: seq<ListenerStorePlan>, factories: map<string, Factory>,
      parts: map<string, Parts>, c: Candidate)
    requires AllComponentwise(factories, parts) && IsCandidate(plans, factories, c)
    ensures SameClass(factories, RefAt(plans, c.response), RefAt(plans, c.conversation))
    ensures c.config.Object? && IsConversation(RefAt(plans, c.conversation))
    ensures var part, r, d := parts[c.backendId], RefAt(plans, c.response), RefAt(plans, c.conversation);
            && r.config.Object? && d.config.Object?
            && part.base(NonTable(r.config)) == part.base(NonTable(d.config))
            && c.effective == Key(part.base(NonTable(d.config)), part.responses(Lookup(r.config, RESPONSES_TABLE)),
                                  part.conversations(Lookup(d.config, CONVERSATIONS_TABLE)),
                                    part.items(Lookup(d.config, ITEMS_TABLE)))
  {
    var r, d := RefAt(plans, c.response), RefAt(plans, c.conversation);
    assert NonTable(Agnostic(r.config)) == NonTable(r.config);
    assert NonTable(Agnostic(d.config)) == NonTable(d.config);
    assert NonTable(c.config) == NonTable(r.config);
  }

  lemma {:induction false} SameClassBase(factories: map<string, Factory>, parts: map<string, Parts>, a: StoreRef,
      b: StoreRef)
    requires AllComponentwise(factories, parts) && SameClass(factories, a, b)
    ensures a.config.Object? && b.config.Object?
    ensures parts[a.backendId].base(NonTable(a.config)) == parts[a.backendId].base(NonTable(b.config))
  {
    assert NonTable(Agnostic(a.config)) == NonTable(a.config);
    assert NonTable(Agnostic(b.config)) == NonTable(b.config);
  }

  lemma {:induction false} LocationOf(plans: seq<ListenerStorePlan>, r: StoreRef) returns (at: Location)
    requires r in AllRefs(plans)
    ensures IsLocation(plans, at) && RefAt(plans, at) == r
  {
    var p :| p in plans && r in p.refs;
    var i :| 0 <= i < |plans| && plans[i] == p;
    var j :| 0 <= j < |p.refs| && p.refs[j] == r;
    at := Location(i, j);
  }

  lemma {:induction false} RefListed(plans: seq<ListenerStorePlan>, at: Location)
    requires IsLocation(plans, at)
    ensures RefAt(plans, at) in AllRefs(plans)
  {
    assert plans[at.plan] in plans && RefAt(plans, at) in plans[at.plan].refs;
  }

  /** The candidates of a run of coalescing: exactly the pairs that combine. */
  ghost predicate Candidates(plans: seq<ListenerStorePlan>, factories: map<string, Factory>, candidates: seq<Candidate>)
  {
    (forall c :: c in candidates <==> IsCandidate(plans, factories, c)) && NoPairFails(plans, factories)
  }

  lemma {:induction false} PairOf(plans: seq<ListenerStorePlan>, factories: map<string, Factory>,
      candidates: seq<Candidate>, r: Location, d: Location)
    returns (c: Candidate)
    requires Candidates(plans, factories, candidates)
    requires IsLocation(plans, r) && IsLocation(plans, d)
    requires IsResponse(RefAt(plans, r)) && IsConversation(RefAt(plans, d))
    requires SameClass(factories, RefAt(plans, r), RefAt(plans, d))
    ensures c in candidates && c.response == r && c.conversation == d
  {
    CombinesExactly(plans, factories, r, d);
    assert PairOk(plans, factories, r, d);
    var backendId := RefAt(plans, r).backendId;
    var config := CombinedConfig(RefAt(plans, r), RefAt(plans, d), factories).value.value;
    c := Candidate(r, d, backendId, factories[backendId].effectiveKey(config).value, config);
    assert IsCandidate(plans, factories, c);
  }

  lemma {:induction false} SelectedAgree(candidates: seq<Candidate>, at: Location, name: string)
    ensures SelectedCandidate(candidates, at, name).Some? ==>
              && SelectedCandidate(candidates, at, name).value in candidates
              && MatchesRef(SelectedCandidate(candidates, at, name).value, at, name)
    ensures SelectedCandidate(candidates, at, name).Some? ==>
              forall c, d | c in candidates && d in candidates && MatchesRef(c, at, name) && MatchesRef(d, at, name) ::
                SameBackend(c, d)
    ensures (exists c :: c in candidates && MatchesRef(c, at, name))
            && (forall c, d | && c in candidates && MatchesRef(c, at, name)
                              && d in candidates && MatchesRef(d, at, name) :: SameBackend(c, d))
            ==> SelectedCandidate(candidates, at, name).Some?
  {
  }

  // ------------------------------------------------------------ the class law

  ghost predicate Promoted(candidates: seq<Candidate>, plans: seq<ListenerStorePlan>, at: Location)
    requires IsLocation(plans, at)
  {
    MutuallySelected(candidates, at, RefAt(plans, at).name).Some?
  }

  lemma {:induction false} PromotionPairs(plans: seq<ListenerStorePlan>, factories: map<string, Factory>,
      parts: map<string, Parts>, candidates: seq<Candidate>, at: Location)
    returns (c: Candidate)
    requires AllComponentwise(factories, parts) && Candidates(plans, factories, candidates)
    requires IsLocation(plans, at) && Promoted(candidates, plans, at)
    ensures c == MutuallySelected(candidates, at, RefAt(plans, at).name).value && IsCandidate(plans, factories, c)
    ensures (IsResponse(RefAt(plans, at)) && c.response == at) ||
        (IsConversation(RefAt(plans, at)) && c.conversation == at)
    ensures SelectedCandidate(candidates, c.response, DEFAULT_STORE_NAME).Some?
    ensures SelectedCandidate(candidates, c.conversation, CONVERSATIONS_STORE_NAME).Some?
  {
    c := MutuallySelected(candidates, at, RefAt(plans, at).name).value;
    SelectedAgree(candidates, at, RefAt(plans, at).name);
    PairKey(plans, factories, parts, c);
  }

  lemma {:induction false} ResponsesAgree(plans: seq<ListenerStorePlan>, factories: map<string, Factory>,
      parts: map<string, Parts>, candidates: seq<Candidate>, at: Location, a: StoreRef, b: StoreRef)
    requires AllComponentwise(factories, parts) && Candidates(plans, factories, candidates)
    requires IsLocation(plans, at) && IsConversation(RefAt(plans, at))
    requires SelectedCandidate(candidates, at, CONVERSATIONS_STORE_NAME).Some?
    requires a in AllRefs(plans) && IsResponse(a) && SameClass(factories, a, RefAt(plans, at))
    requires b in AllRefs(plans) && IsResponse(b) && SameClass(factories, b, RefAt(plans, at))
    ensures parts[a.backendId].responses(Lookup(a.config, RESPONSES_TABLE)) ==
        parts[a.backendId].responses(Lookup(b.config, RESPONSES_TABLE))
  {
    var la := LocationOf(plans, a);
    var lb := LocationOf(plans, b);
    var ca := PairOf(plans, factories, candidates, la, at);
    var cb := PairOf(plans, factories, candidates, lb, at);
    PairKey(plans, factories, parts, ca);
    PairKey(plans, factories, parts, cb);
    SelectedAgree(candidates, at, CONVERSATIONS_STORE_NAME);
  }

  lemma {:induction false} ItemsAgree(plans: seq<ListenerStorePlan>, factories: map<string, Factory>,
      parts: map<string, Parts>, candidates: seq<Candidate>, at: Location, a: StoreRef, b: StoreRef)
    requires AllComponentwise(factories, parts) && Candidates(plans, factories, candidates)
    requires IsLocation(plans, at) && IsResponse(RefAt(plans, at))
    requires SelectedCandidate(candidates, at, DEFAULT_STORE_NAME).Some?
    requires a in AllRefs(plans) && IsConversation(a) && SameClass(factories, a, RefAt(plans, at))
    requires b in AllRefs(plans) && IsConversation(b) && SameClass(factories, b, RefAt(plans, at))
    ensures parts[a.backendId].items(Lookup(a.config, ITEMS_TABLE)) ==
        parts[a.backendId].items(Lookup(b.config, ITEMS_TABLE))
  {
    var la := LocationOf(plans, a);
    var lb := LocationOf(plans, b);
    var ca := PairOf(plans, factories, candidates, at, la);
    var cb := PairOf(plans, factories, candidates, at, lb);
    PairKey(plans, factories, parts, ca);
    PairKey(plans, factories, parts, cb);
    SelectedAgree(candidates, at, DEFAULT_STORE_NAME);
  }

  lemma {:induction false} PromotedAgrees(plans: seq<ListenerStorePlan>, factories: map<string, Factory>,
      parts: map<string, Parts>, candidates: seq<Candidate>, at: Location)
    requires AllComponentwise(factories, parts) && Candidates(plans, factories, candidates)
    requires IsLocation(plans, at) && Promoted(candidates, plans, at)
    ensures RefAt(plans, at).backendId in parts
    ensures BothKinds(factories, AllRefs(plans), RefAt(plans, at))
    ensures TablesAgree(factories, parts, AllRefs(plans), RefAt(plans, at))
  {
    var all, ref := AllRefs(plans), RefAt(plans, at);
    var c := PromotionPairs(plans, factories, parts, candidates, at);
    PairKey(plans, factories, parts, c);
    RefListed(plans, c.response);
    RefListed(plans, c.conversation);
    forall a, b | && a in all && IsResponse(a) && SameClass(factories, a, ref)
                  && b in all && IsResponse(b) && SameClass(factories, b, ref)
      ensures parts[ref.backendId].responses(Lookup(a.config, RESPONSES_TABLE)) ==
          parts[ref.backendId].responses(Lookup(b.config, RESPONSES_TABLE))
    {
      ResponsesAgree(plans, factories, parts, candidates, c.conversation, a, b);
    }
    forall a, b | && a in all && IsConversation(a) && SameClass(factories, a, ref)
                  && b in all && IsConversation(b) && SameClass(factories, b, ref)
      ensures parts[ref.backendId].items(Lookup(a.config, ITEMS_TABLE)) ==
          parts[ref.backendId].items(Lookup(b.config, ITEMS_TABLE))
    {
      ItemsAgree(plans, factories, parts, candidates, c.response, a, b);
    }
  }

  /** When the tables of a class agree, every pair in it has one key. */
  lemma {:induction false} OneKey(plans: seq<ListenerStorePlan>, factories: map<string, Factory>,
      parts: map<string, Parts>, ref: StoreRef, c: Candidate, d: Candidate)
    requires AllComponentwise(factories, parts) && IsCandidate(plans, factories, c) && IsCandidate(plans, factories, d)
    requires ref.backendId in parts && TablesAgree(factories, parts, AllRefs(plans), ref)
    requires SameClass(factories, RefAt(plans, c.response), ref) && SameClass(factories, RefAt(plans, d.response), ref)
    ensures SameBackend(c, d)
  {
    PairKey(plans, factories, parts, c);
    PairKey(plans, factories, parts, d);
    RefListed(plans, c.response);
    RefListed(plans, c.conversation);
    RefListed(plans, d.response);
    RefListed(plans, d.conversation);
    SameClassBase(factories, parts, RefAt(plans, c.conversation), RefAt(plans, d.conversation));
  }

  lemma {:induction false} SelectedInClass(plans: seq<ListenerStorePlan>, factories: map<string, Factory>,
      parts: map<string, Parts>, candidates: seq<Candidate>, ref: StoreRef, at: Location, name: string)
    requires AllComponentwise(factories, parts) && Candidates(plans, factories, candidates)
    requires IsLocation(plans, at) && RefAt(plans, at).name == name
    requires (name == DEFAULT_STORE_NAME || name == CONVERSATIONS_STORE_NAME)
    requires SameClass(factories, RefAt(plans, at), ref)
    requires ref.backendId in parts && TablesAgree(factories, parts, AllRefs(plans), ref)
    requires exists c :: c in candidates && MatchesRef(c, at, name)
    ensures SelectedCandidate(candidates, at, name).Some?
    ensures var c := SelectedCandidate(candidates, at, name).value;
            c in candidates && MatchesRef(c, at, name) && SameClass(factories, RefAt(plans, c.response), ref)
  {
    forall c | c in candidates && MatchesRef(c, at, name) ensures SameClass(factories, RefAt(plans, c.response), ref) {
      PairKey(plans, factories, parts, c);
    }
    forall c, d | c in candidates && d in candidates && MatchesRef(c, at, name) && MatchesRef(d, at, name)
      ensures SameBackend(c, d)
    {
      OneKey(plans, factories, parts, ref, c, d);
    }
    SelectedAgree(candidates, at, name);
  }

  lemma {:induction false} PairExists(plans: seq<ListenerStorePlan>, factories: map<string, Factory>,
      candidates: seq<Candidate>, at: Location)
    requires Candidates(plans, factories, candidates) && IsLocation(plans, at)
    requires BothKinds(factories, AllRefs(plans), RefAt(plans, at))
    ensures exists c :: c in candidates && MatchesRef(c, at, RefAt(plans, at).name)
  {
    var all, ref := AllRefs(plans), RefAt(plans, at);
    if IsResponse(ref) {
      var d :| d in all && IsConversation(d) && SameClass(factories, d, ref);
      var ld := LocationOf(plans, d);
      var c := PairOf(plans, factories, candidates, at, ld);
    } else {
      var r :| r in all && IsResponse(r) && SameClass(factories, r, ref);
      var lr := LocationOf(plans, r);
      var c := PairOf(plans, factories, candidates, lr, at);
    }
  }

  /** Both sides of a pair of the class select its key. */
  lemma {:induction false} BothSidesSelect(plans: seq<ListenerStorePlan>, factories: map<string, Factory>,
      parts: map<string, Parts>, candidates: seq<Candidate>, ref: StoreRef, c: Candidate)
    requires AllComponentwise(factories, parts) && Candidates(plans, factories, candidates) && c in candidates
    requires SameClass(factories, RefAt(plans, c.response), ref)
    requires ref.backendId in parts && TablesAgree(factories, parts, AllRefs(plans), ref)
    ensures SelectedCandidate(candidates, c.response, DEFAULT_STORE_NAME).Some?
    ensures SameBackend(SelectedCandidate(candidates, c.response, DEFAULT_STORE_NAME).value, c)
    ensures SelectedCandidate(candidates, c.conversation, CONVERSATIONS_STORE_NAME).Some?
    ensures SameBackend(SelectedCandidate(candidates, c.conversation, CONVERSATIONS_STORE_NAME).value, c)
  {
    PairKey(plans, factories, parts, c);
    assert MatchesRef(c, c.response, DEFAULT_STORE_NAME) && MatchesRef(c, c.conversation, CONVERSATIONS_STORE_NAME);
    SelectedInClass(plans, factories, parts, candidates, ref, c.response, DEFAULT_STORE_NAME);
    SelectedInClass(plans, factories, parts, candidates, ref, c.conversation, CONVERSATIONS_STORE_NAME);
    OneKey(plans, factories, parts, ref, SelectedCandidate(candidates, c.response, DEFAULT_STORE_NAME).value, c);
    OneKey(plans, factories, parts, ref, SelectedCandidate(candidates, c.conversation, CONVERSATIONS_STORE_NAME).value,
      c);
  }

  lemma {:induction false} SelectedHere(plans: seq<ListenerStorePlan>, factories: map<string, Factory>,
      parts: map<string, Parts>, candidates: seq<Candidate>, at: Location)
    returns (c: Candidate)
    requires AllComponentwise(factories, parts) && Candidates(plans, factories, candidates) && IsLocation(plans, at)
    requires BothKinds(factories, AllRefs(plans), RefAt(plans, at))
    requires TablesAgree(factories, parts, AllRefs(plans), RefAt(plans, at))
    ensures RefAt(plans, at).backendId in parts && SelectedCandidate(candidates, at, RefAt(plans, at).name) == Some(c)
    ensures c in candidates && IsLocation(plans, c.response)
    ensures SameClass(factories, RefAt(plans, c.response), RefAt(plans, at))
  {
    var ref := RefAt(plans, at);
    PairExists(plans, factories, candidates, at);
    SelectedInClass(plans, factories, parts, candidates, ref, at, ref.name);
    c := SelectedCandidate(candidates, at, ref.name).value;
    assert IsCandidate(plans, factories, c);
  }

  lemma {:induction false} AgreementPromotes(plans: seq<ListenerStorePlan>, factories: map<string, Factory>,
      parts: map<string, Parts>, candidates: seq<Candidate>, at: Location)
    requires AllComponentwise(factories, parts) && Candidates(plans, factories, candidates) && IsLocation(plans, at)
    requires BothKinds(factories, AllRefs(plans), RefAt(plans, at))
    requires TablesAgree(factories, parts, AllRefs(plans), RefAt(plans, at))
    ensures Promoted(candidates, plans, at)
  {
    var c := SelectedHere(plans, factories, parts, candidates, at);
    BothSidesSelect(plans, factories, parts, candidates, RefAt(plans, at), c);
  }

  /** A reference is promoted exactly when its class holds both kinds, all its
      responses tables agree and all its items tables agree. The condition is a
      property of the set of references, so it is the same for every member of
      the class and in every listener order. */
  lemma {:induction false} PromotedExactlyWhenTablesAgree(plans: seq<ListenerStorePlan>,
      factories: map<string, Factory>, parts: map<string, Parts>, candidates: seq<Candidate>, at: Location)
    requires AllComponentwise(factories, parts) && Candidates(plans, factories, candidates) && IsLocation(plans, at)
    ensures Promoted(candidates, plans, at) <==>
            && RefAt(plans, at).backendId in parts
            && BothKinds(factories, AllRefs(plans), RefAt(plans, at))
            && TablesAgree(factories, parts, AllRefs(plans), RefAt(plans, at))
  {
    if Promoted(candidates, plans, at) {
      PromotedAgrees(plans, factories, parts, candidates, at);
    } else if RefAt(plans, at).backendId in parts && BothKinds(factories, AllRefs(plans), RefAt(plans, at))
              && TablesAgree(factories, parts, AllRefs(plans), RefAt(plans, at)) {
      AgreementPromotes(plans, factories, parts, candidates, at);
    }
  }

  /** All or none: references of one class are promoted together, and then all
      to one effective key. */
  lemma {:induction false} ClassPromotedTogether(plans: seq<ListenerStorePlan>, factories: map<string, Factory>,
      parts: map<string, Parts>, candidates: seq<Candidate>, a: Location, b: Location)
    requires AllComponentwise(factories, parts) && Candidates(plans, factories, candidates)
    requires IsLocation(plans, a) && IsLocation(plans, b) && SameClass(factories, RefAt(plans, a), RefAt(plans, b))
    requires IsResponse(RefAt(plans, a)) || IsConversation(RefAt(plans, a))
    requires IsResponse(RefAt(plans, b)) || IsConversation(RefAt(plans, b))
    ensures Promoted(candidates, plans, a) <==> Promoted(candidates, plans, b)
    ensures Promoted(candidates, plans, a) ==>
              var f := factories[RefAt(plans, a).backendId];
              && f.effectiveKey(Coalesced(candidates, a, RefAt(plans, a)).config).Ok?
              && f.effectiveKey(Coalesced(candidates, a, RefAt(plans, a)).config) ==
                  f.effectiveKey(Coalesced(candidates, b, RefAt(plans, b)).config)
  {
    PromotedExactlyWhenTablesAgree(plans, factories, parts, candidates, a);
    PromotedExactlyWhenTablesAgree(plans, factories, parts, candidates, b);
    SameClassMoves(factories, parts, AllRefs(plans), RefAt(plans, a), RefAt(plans, b));
    if Promoted(candidates, plans, a) {
      var c := PromotionPairs(plans, factories, parts, candidates, a);
      var d := PromotionPairs(plans, factories, parts, candidates, b);
      PairKey(plans, factories, parts, c);
      PairKey(plans, factories, parts, d);
      OneKey(plans, factories, parts, RefAt(plans, a), c, d);
    }
  }

  lemma {:induction false} SameClassMoves(factories: map<string, Factory>, parts: map<string, Parts>,
      all: set<StoreRef>, a: StoreRef, b: StoreRef)
    requires AllComponentwise(factories, parts) && SameClass(factories, a, b)
    requires IsResponse(a) || IsConversation(a)
    requires IsResponse(b) || IsConversation(b)
    ensures BothKinds(factories, all, a) <==> BothKinds(factories, all, b)
    ensures TablesAgree(factories, parts, all, a) <==> TablesAgree(factories, parts, all, b)
  {
    assert forall x :: SameClass(factories, x, a) <==> SameClass(factories, x, b);
  }

  /** Listener order does not matter: two plans with the same references promote
      the same ones. */
  lemma {:induction false} OrderIrrelevant(plans: seq<ListenerStorePlan>, plans': seq<ListenerStorePlan>,
      factories: map<string, Factory>, parts: map<string, Parts>, candidates: seq<Candidate>,
      candidates': seq<Candidate>, at: Location, at': Location)
    requires AllComponentwise(factories, parts) && Candidates(plans, factories, candidates)
    requires Candidates(plans', factories, candidates')
    requires AllRefs(plans) == AllRefs(plans')
    requires IsLocation(plans, at) && IsLocation(plans', at') && RefAt(plans, at) == RefAt(plans', at')
    ensures Promoted(candidates, plans, at) <==> Promoted(candidates', plans', at')
  {
    PromotedExactlyWhenTablesAgree(plans, factories, parts, candidates, at);
    PromotedExactlyWhenTablesAgree(plans', factories, parts, candidates', at');
  }
}
