/** The store planning pass (server/src/store_provision.rs): coalescing Responses
    and Conversations references onto one backend, pinning active cache keys,
    rejecting SQL name clashes, and removing duplicate references. */
module Planning {
  import opened Ascii
  import opened Collections
  import opened Results

  // ------------------------------------------------------------ references

  /** A config field: a JSON string, or any other JSON value. */
  datatype Json = Str(text: string) | Other(id: nat)

  datatype StoreConfig = Object(fields: map<string, Json>) | NotObject(value: Json)

  datatype StoreRef = StoreRef(name: string, backendId: string, config: StoreConfig)

  /** A factory's dedup key. A factory is free to put everything in `base`. */
  datatype Key = Key(base: string, responses: string, conversations: string, items: string)

  /** Why planning fails: a factory rejected a config, or one of the checks did. */
  datatype PlanError =
    | Rejected(reason: string)
    | NotAnObject
    | NamespaceCollision
    | UnknownBackend
    | RestartRequired
    | ConflictingStores

  datatype Factory = Factory(
    effectiveKey: StoreConfig -> Result<Key, PlanError>,
    namespaceKey: StoreConfig -> Result<Option<string>, PlanError>)

  const DEFAULT_STORE_NAME := "default"
  const CONVERSATIONS_STORE_NAME := "conversations"
  const RESPONSES_TABLE := "responses_table"
  const CONVERSATIONS_TABLE := "conversations_table"
  const ITEMS_TABLE := "items_table"

  function Lookup(config: StoreConfig, field: string): Option<Json>
  {
    if config.Object? && field in config.fields then Some(config.fields[field]) else None
  }

  /** The config with every table replaced by a fixed sentinel. */
  function Agnostic(config: StoreConfig): StoreConfig
    requires config.Object?
  {
    Object(config.fields[RESPONSES_TABLE := Str("shared_responses")]
             [CONVERSATIONS_TABLE := Str("shared_conversations")][ITEMS_TABLE := Str("shared_items")])
  }

  function AgnosticKey(f: Factory, ref: StoreRef): Result<Key, PlanError>
  {
    if ref.config.Object? then f.effectiveKey(Agnostic(ref.config)) else Err(NotAnObject)
  }

  /** What one filter owns of a config: the table of the other filter is removed,
      or replaced where the combined backend requires one. */
  function Owned(name: string, config: StoreConfig): StoreConfig
    requires config.Object?
  {
    if name == DEFAULT_STORE_NAME then Object(config.fields - {ITEMS_TABLE})
    else Object(config.fields[RESPONSES_TABLE := Str("shared_responses")])
  }

  /** Whether `candidate` is the same filter-owned store configuration as `active`. */
  function SameFilterIdentity(candidate: StoreRef, active: StoreRef, f: Factory): Result<bool, PlanError>
  {
    if candidate.name != active.name || candidate.backendId != active.backendId then Ok(false)
    else if !candidate.config.Object? || !active.config.Object? then Ok(false)
    else if candidate.name != DEFAULT_STORE_NAME && candidate.name != CONVERSATIONS_STORE_NAME then Ok(false)
    else
      var activeKey := f.effectiveKey(Owned(candidate.name, active.config));
      if activeKey.Err? then Err(activeKey.error)
      else
        var candidateKey := f.effectiveKey(Owned(candidate.name, candidate.config));
        if candidateKey.Err? then Err(candidateKey.error) else Ok(activeKey.value == candidateKey.value)
  }

  // ------------------------------------------------------------ SQL objects

  datatype SqlObjectKind =
    | ResponsesTable | PendingApprovalsTable | SchemaVersionTable | EventsTable
    | ConversationsTable | ConversationsTenantIndex
    | ItemsTable | ItemsConversationIndex | ItemsPositionIndex

  datatype SqlObject = SqlObject(kind: SqlObjectKind, name: string)

  function SqlObjects(config: StoreConfig): Option<seq<SqlObject>>
  {
    match (Lookup(config, RESPONSES_TABLE), Lookup(config, CONVERSATIONS_TABLE))
    case (Some(Str(responses)), Some(Str(conversations))) =>
      var objects := [
        SqlObject(ResponsesTable, responses),
        SqlObject(PendingApprovalsTable, responses + "_pending_approvals"),
        SqlObject(SchemaVersionTable, responses + "_schema_version"),
        SqlObject(EventsTable, responses + "_events"),
        SqlObject(ConversationsTable, conversations),
        SqlObject(ConversationsTenantIndex, "idx_" + conversations + "_tenant_id")];
      (match Lookup(config, ITEMS_TABLE)
       case Some(Str(items)) =>
         Some(objects + [
           SqlObject(ItemsTable, items),
           SqlObject(ItemsConversationIndex, "idx_" + items + "_conversation"),
           SqlObject(ItemsPositionIndex, "idx_" + items + "_position")])
       case _ => Some(objects))
    case _ => None
  }

  predicate Clash(a: SqlObject, b: SqlObject)
  {
    a.kind != b.kind && EqIgnoreAsciiCase(a.name, b.name)
  }

  /** Some object of one inventory clashes with some object of the other. */
  predicate CrossCollision(first: StoreRef, second: StoreRef)
  {
    match (SqlObjects(first.config), SqlObjects(second.config))
    case (Some(a), Some(b)) => exists i, j :: 0 <= i < |a| && 0 <= j < |b| && Clash(a[i], b[j])
    case _ => false
  }

  predicate SchemaCollision(objects: seq<SqlObject>)
  {
    exists i, j :: 0 <= i < j < |objects| && Clash(objects[i], objects[j])
  }

  // ------------------------------------------------------------- coalescing

  /** The combined config of a compatible pair: the Responses config with the
      Conversations items table. */
  function CombinedConfig(response: StoreRef, conversation: StoreRef,
      factories: map<string, Factory>): Result<Option<StoreConfig>, PlanError>
  {
    if response.backendId != conversation.backendId then Ok(None)
    else if response.backendId !in factories then Ok(None)
    else
      var f := factories[response.backendId];
      var responseKey, conversationKey := AgnosticKey(f, response), AgnosticKey(f, conversation);
      if responseKey.Err? then Err(responseKey.error)
      else if conversationKey.Err? then Err(conversationKey.error)
      else if responseKey.value == conversationKey.value
              && Lookup(response.config, CONVERSATIONS_TABLE) == Lookup(conversation.config, CONVERSATIONS_TABLE) then
        match Lookup(conversation.config, ITEMS_TABLE)
        case None => Ok(None)
        case Some(items) =>
          var combined := Object(response.config.fields[ITEMS_TABLE := items]);
          if SqlObjects(combined).Some? && SchemaCollision(SqlObjects(combined).value) then Err(NamespaceCollision)
          else Ok(Some(combined))
      else Ok(None)
  }

  datatype Location = Location(plan: nat, index: nat)

  datatype ListenerStorePlan = ListenerStorePlan(listener: string, refs: seq<StoreRef>)

  predicate IsLocation(plans: seq<ListenerStorePlan>, at: Location)
  {
    at.plan < |plans| && at.index < |plans[at.plan].refs|
  }

  function RefAt(plans: seq<ListenerStorePlan>, at: Location): StoreRef
    requires IsLocation(plans, at)
  {
    plans[at.plan].refs[at.index]
  }

  datatype Candidate = Candidate(response: Location, conversation: Location, backendId: string, effective: Key,
      config: StoreConfig)

  /** The pair of references at two locations combines, into `c`. */
  ghost predicate IsCandidate(plans: seq<ListenerStorePlan>, factories: map<string, Factory>, c: Candidate)
  {
    && IsLocation(plans, c.response) && IsLocation(plans, c.conversation)
    && RefAt(plans, c.response).name == DEFAULT_STORE_NAME
    && RefAt(plans, c.conversation).name == CONVERSATIONS_STORE_NAME
    && CombinedConfig(RefAt(plans, c.response), RefAt(plans, c.conversation), factories) == Ok(Some(c.config))
    && c.backendId == RefAt(plans, c.response).backendId && c.backendId in factories
    && factories[c.backendId].effectiveKey(c.config) == Ok(c.effective)
  }

  /** The locations of one registry name among the first `n` references of a plan. */
  function LocationsIn(refs: seq<StoreRef>, name: string, plan: nat, n: nat): seq<Location>
    requires n <= |refs|
  {
    if n == 0 then []
    else LocationsIn(refs, name, plan, n - 1) + if refs[n - 1].name == name then [Location(plan, n - 1)] else []
  }

  /** The locations of one registry name, in plan order. */
  function Locations(plans: seq<ListenerStorePlan>, name: string, n: nat): seq<Location>
    requires n <= |plans|
  {
    if n == 0 then []
    else Locations(plans, name, n - 1) + LocationsIn(plans[n - 1].refs, name, n - 1, |plans[n - 1].refs|)
  }

  predicate Before(a: Location, b: Location)
  {
    a.plan < b.plan || (a.plan == b.plan && a.index < b.index)
  }

  ghost predicate Increasing(found: seq<Location>)
  {
    forall i, j | 0 <= i < j < |found| :: Before(found[i], found[j])
  }

  lemma {:induction false} LocationsInExact(refs: seq<StoreRef>, name: string, plan: nat, n: nat)
    requires n <= |refs|
    ensures Increasing(LocationsIn(refs, name, plan, n))
    ensures forall at ::
        at in LocationsIn(refs, name, plan, n) <==> at.plan == plan && at.index < n && refs[at.index].name == name
  {
    if n > 0 {
      LocationsInExact(refs, name, plan, n - 1);
      IncreasingConcat(LocationsIn(refs, name, plan, n - 1),
                       if refs[n - 1].name == name then [Location(plan, n - 1)] else []);
    }
  }

  lemma {:induction false} IncreasingConcat(a: seq<Location>, b: seq<Location>)
    requires Increasing(a) && Increasing(b) && forall x, y | x in a && y in b :: Before(x, y)
    ensures Increasing(a + b)
  {
    forall i, j | 0 <= i < j < |a + b| ensures Before((a + b)[i], (a + b)[j]) {
      if i < |a| <= j {
        assert a[i] in a && b[j - |a|] in b;
      }
    }
  }

  /** Exactly the locations of the name, in the order of the listeners and of the
      references within one. */
  lemma {:induction false} LocationsExact(plans: seq<ListenerStorePlan>, name: string, n: nat)
    requires n <= |plans|
    ensures Increasing(Locations(plans, name, n))
    ensures forall at ::
        at in Locations(plans, name, n) <==> at.plan < n && IsLocation(plans, at) && RefAt(plans, at).name == name
  {
    if n > 0 {
      var refs := plans[n - 1].refs;
      LocationsExact(plans, name, n - 1);
      LocationsInExact(refs, name, n - 1, |refs|);
      IncreasingConcat(Locations(plans, name, n - 1), LocationsIn(refs, name, n - 1, |refs|));
    }
  }

  method NamedStoreRefs(plans: seq<ListenerStorePlan>, name: string) returns (found: seq<Location>)
    ensures found == Locations(plans, name, |plans|)
  {
    found := [];
    var i := 0;
    while i < |plans|
      invariant 0 <= i <= |plans| && found == Locations(plans, name, i)
    {
      var j := 0;
      while j < |plans[i].refs|
        invariant 0 <= j <= |plans[i].refs|
        invariant found == Locations(plans, name, i) + LocationsIn(plans[i].refs, name, i, j)
      {
        if plans[i].refs[j].name == name {
          found := found + [Location(i, j)];
        }
        j := j + 1;
      }
      i := i + 1;
    }
  }

  /** The pair neither fails to combine nor combines into a rejected config. */
  ghost predicate PairOk(plans: seq<ListenerStorePlan>, factories: map<string, Factory>, r: Location, d: Location)
  {
    IsLocation(plans, r) && IsLocation(plans, d) ==>
      var combined := CombinedConfig(RefAt(plans, r), RefAt(plans, d), factories);
      combined.Ok? && (combined.value.Some? ==>
        && RefAt(plans, r).backendId in factories
        && factories[RefAt(plans, r).backendId].effectiveKey(combined.value.value).Ok?)
  }

  ghost predicate NoPairFails(plans: seq<ListenerStorePlan>, factories: map<string, Factory>)
  {
    forall r, d | IsLocation(plans, r) && IsLocation(plans, d)
                  && RefAt(plans, r).name == DEFAULT_STORE_NAME && RefAt(plans, d).name == CONVERSATIONS_STORE_NAME ::
      PairOk(plans, factories, r, d)
  }

  /** What one pair contributes: a candidate or nothing. */
  function Pairing(plans: seq<ListenerStorePlan>, factories: map<string, Factory>, r: Location,
      d: Location): seq<Candidate>
    requires IsLocation(plans, r) && IsLocation(plans, d)
  {
    var ref := RefAt(plans, r);
    match CombinedConfig(ref, RefAt(plans, d), factories)
    case Ok(Some(config)) =>
      if ref.backendId !in factories then []
      else
        (match factories[ref.backendId].effectiveKey(config)
         case Ok(key) => [Candidate(r, d, ref.backendId, key, config)]
         case Err(_) => [])
    case _ => []
  }

  ghost predicate AllLocations(plans: seq<ListenerStorePlan>, found: seq<Location>)
  {
    forall at | at in found :: IsLocation(plans, at)
  }

  ghost function Responses(plans: seq<ListenerStorePlan>): (found: seq<Location>)
    ensures AllLocations(plans, found)
  {
    LocationsExact(plans, DEFAULT_STORE_NAME, |plans|);
    Locations(plans, DEFAULT_STORE_NAME, |plans|)
  }

  ghost function Conversations(plans: seq<ListenerStorePlan>): (found: seq<Location>)
    ensures AllLocations(plans, found)
  {
    LocationsExact(plans, CONVERSATIONS_STORE_NAME, |plans|);
    Locations(plans, CONVERSATIONS_STORE_NAME, |plans|)
  }

  /** The candidates of one Responses reference with the first `n` of `ds`. */
  ghost function PairingsOf(plans: seq<ListenerStorePlan>, factories: map<string, Factory>, r: Location,
      ds: seq<Location>, n: nat): seq<Candidate>
    requires IsLocation(plans, r) && AllLocations(plans, ds) && n <= |ds|
  {
    if n == 0 then [] else PairingsOf(plans, factories, r, ds, n - 1) + Pairing(plans, factories, r, ds[n - 1])
  }

  /** The candidates by Responses reference, then by Conversations reference. */
  ghost function Pairings(plans: seq<ListenerStorePlan>, factories: map<string, Factory>, rs: seq<Location>,
      ds: seq<Location>, n: nat): seq<Candidate>
    requires AllLocations(plans, rs) && AllLocations(plans, ds) && n <= |rs|
  {
    if n == 0 then [] else Pairings(plans, factories, rs, ds, n - 1) + PairingsOf(plans, factories, rs[n - 1], ds, |ds|)
  }

  ghost function CandidateList(plans: seq<ListenerStorePlan>, factories: map<string, Factory>): seq<Candidate>
  {
    var rs, ds := Responses(plans), Conversations(plans);
    Pairings(plans, factories, rs, ds, |rs|)
  }

  lemma {:induction false} PairingsOfExact(plans: seq<ListenerStorePlan>, factories: map<string, Factory>, r: Location,
      ds: seq<Location>, n: nat)
    requires IsLocation(plans, r) && AllLocations(plans, ds) && n <= |ds|
    ensures forall c :: c in PairingsOf(plans, factories, r, ds, n) <==>
              c.response == r && c.conversation in ds[..n] && [c] == Pairing(plans, factories, r, c.conversation)
  {
    if n > 0 {
      PairingsOfExact(plans, factories, r, ds, n - 1);
      assert ds[..n] == ds[..n - 1] + [ds[n - 1]];
    }
  }

  lemma {:induction false} PairingsExact(plans: seq<ListenerStorePlan>, factories: map<string, Factory>,
      rs: seq<Location>, ds: seq<Location>, n: nat)
    requires AllLocations(plans, rs) && AllLocations(plans, ds) && n <= |rs|
    ensures forall c :: c in Pairings(plans, factories, rs, ds, n) <==>
              && c.response in rs[..n] && c.conversation in ds
              && [c] == Pairing(plans, factories, c.response, c.conversation)
  {
    if n > 0 {
      PairingsExact(plans, factories, rs, ds, n - 1);
      PairingsOfExact(plans, factories, rs[n - 1], ds, |ds|);
      assert rs[..n] == rs[..n - 1] + [rs[n - 1]];
      assert ds[..|ds|] == ds;
    }
  }

  /** The list holds every compatible pair and nothing else. */
  lemma {:induction false} CandidatesExact(plans: seq<ListenerStorePlan>, factories: map<string, Factory>)
    ensures forall c :: c in CandidateList(plans, factories) <==> IsCandidate(plans, factories, c)
  {
    var rs, ds := Responses(plans), Conversations(plans);
    LocationsExact(plans, DEFAULT_STORE_NAME, |plans|);
    LocationsExact(plans, CONVERSATIONS_STORE_NAME, |plans|);
    PairingsExact(plans, factories, rs, ds, |rs|);
    assert rs[..|rs|] == rs;
  }

  /** The pairs of `r` with the first `n` of `ds` are fine. */
  ghost predicate PairsOk(plans: seq<ListenerStorePlan>, factories: map<string, Factory>, r: Location,
      ds: seq<Location>, n: nat)
    requires n <= |ds|
  {
    n == 0 || (PairsOk(plans, factories, r, ds, n - 1) && PairOk(plans, factories, r, ds[n - 1]))
  }

  lemma {:induction false} PairsOkAt(plans: seq<ListenerStorePlan>, factories: map<string, Factory>, r: Location,
      ds: seq<Location>, n: nat)
    requires n <= |ds|
    ensures PairsOk(plans, factories, r, ds, n) <==> forall k | 0 <= k < n :: PairOk(plans, factories, r, ds[k])
  {
    if n > 0 {
      PairsOkAt(plans, factories, r, ds, n - 1);
    }
  }

  lemma {:induction false} PairsFail(plans: seq<ListenerStorePlan>, factories: map<string, Factory>, r: Location,
      ds: seq<Location>, n: nat, m: nat)
    requires n <= m <= |ds| && !PairsOk(plans, factories, r, ds, n)
    ensures !PairsOk(plans, factories, r, ds, m)
  {
    if n < m {
      PairsFail(plans, factories, r, ds, n, m - 1);
    }
  }

  /** All pairs of the first `n` of `rs` are fine. */
  ghost predicate RowsOk(plans: seq<ListenerStorePlan>, factories: map<string, Factory>, rs: seq<Location>,
      ds: seq<Location>, n: nat)
    requires n <= |rs|
  {
    n == 0 || (RowsOk(plans, factories, rs, ds, n - 1) && PairsOk(plans, factories, rs[n - 1], ds, |ds|))
  }

  lemma {:induction false} RowsOkAt(plans: seq<ListenerStorePlan>, factories: map<string, Factory>, rs: seq<Location>,
      ds: seq<Location>, n: nat)
    requires n <= |rs|
    ensures RowsOk(plans, factories, rs, ds, n) <==> forall i, k | 0 <= i < n && 0 <= k < |ds| ::
        PairOk(plans, factories, rs[i], ds[k])
  {
    if n > 0 {
      RowsOkAt(plans, factories, rs, ds, n - 1);
      PairsOkAt(plans, factories, rs[n - 1], ds, |ds|);
    }
  }

  lemma {:induction false} AllPairsOk(plans: seq<ListenerStorePlan>, factories: map<string, Factory>)
    ensures NoPairFails(plans, factories) <==>
        RowsOk(plans, factories, Responses(plans), Conversations(plans), |Responses(plans)|)
  {
    var rs, ds := Responses(plans), Conversations(plans);
    LocationsExact(plans, DEFAULT_STORE_NAME, |plans|);
    LocationsExact(plans, CONVERSATIONS_STORE_NAME, |plans|);
    RowsOkAt(plans, factories, rs, ds, |rs|);
    if NoPairFails(plans, factories) {
      forall i, k | 0 <= i < |rs| && 0 <= k < |ds| ensures PairOk(plans, factories, rs[i], ds[k]) {
        assert rs[i] in rs && ds[k] in ds;
      }
    } else {
      var r, d :| IsLocation(plans, r) && IsLocation(plans, d) && RefAt(plans, r).name == DEFAULT_STORE_NAME
                  && RefAt(plans, d).name == CONVERSATIONS_STORE_NAME && !PairOk(plans, factories, r, d);
      assert r in rs && d in ds;
    }
  }

  /** Every compatible pair in plan order, failing exactly when some pair fails. */
  method CombinedCandidates(plans: seq<ListenerStorePlan>, factories: map<string, Factory>)
    returns (result: Result<seq<Candidate>, PlanError>)
    ensures result.Ok? <==> NoPairFails(plans, factories)
    ensures result.Ok? ==> result.value == CandidateList(plans, factories)
  {
    var responses := NamedStoreRefs(plans, DEFAULT_STORE_NAME);
    var conversations := NamedStoreRefs(plans, CONVERSATIONS_STORE_NAME);
    assert responses == Responses(plans) && conversations == Conversations(plans);
    AllPairsOk(plans, factories);
    result := PairAll(plans, factories, responses, conversations);
  }

  lemma {:induction false} RowsFail(plans: seq<ListenerStorePlan>, factories: map<string, Factory>, rs: seq<Location>,
      ds: seq<Location>, n: nat, m: nat)
    requires n <= m <= |rs| && !RowsOk(plans, factories, rs, ds, n)
    ensures !RowsOk(plans, factories, rs, ds, m)
  {
    if n < m {
      RowsFail(plans, factories, rs, ds, n, m - 1);
    }
  }

  method PairAll(plans: seq<ListenerStorePlan>, factories: map<string, Factory>, responses: seq<Location>,
      conversations: seq<Location>)
    returns (result: Result<seq<Candidate>, PlanError>)
    requires AllLocations(plans, responses) && AllLocations(plans, conversations)
    ensures result.Ok? <==> RowsOk(plans, factories, responses, conversations, |responses|)
    ensures result.Ok? ==> result.value == Pairings(plans, factories, responses, conversations, |responses|)
  {
    var candidates: seq<Candidate> := [];
    var i := 0;
    while i < |responses|
      invariant 0 <= i <= |responses|
      invariant candidates == Pairings(plans, factories, responses, conversations, i)
      invariant RowsOk(plans, factories, responses, conversations, i)
    {
      var added := CandidatesOf(plans, factories, responses[i], conversations);
      if added.Err? {
        RowsFail(plans, factories, responses, conversations, i + 1, |responses|);
        return Err(added.error);
      }
      candidates := candidates + added.value;
      i := i + 1;
    }
    result := Ok(candidates);
  }

  method CandidatesOf(plans: seq<ListenerStorePlan>, factories: map<string, Factory>, at: Location,
      conversations: seq<Location>)
    returns (result: Result<seq<Candidate>, PlanError>)
    requires IsLocation(plans, at) && AllLocations(plans, conversations)
    ensures result.Ok? <==> PairsOk(plans, factories, at, conversations, |conversations|)
    ensures result.Ok? ==> result.value == PairingsOf(plans, factories, at, conversations, |conversations|)
  {
    var candidates: seq<Candidate> := [];
    var j := 0;
    while j < |conversations|
      invariant 0 <= j <= |conversations|
      invariant candidates == PairingsOf(plans, factories, at, conversations, j)
      invariant PairsOk(plans, factories, at, conversations, j)
    {
      var d := conversations[j];
      var combined := CombinedConfig(RefAt(plans, at), RefAt(plans, d), factories);
      if combined.Err? {
        PairsFail(plans, factories, at, conversations, j + 1, |conversations|);
        return Err(combined.error);
      }
      if combined.value.Some? {
        var backendId := RefAt(plans, at).backendId;
        var effective := factories[backendId].effectiveKey(combined.value.value);
        if effective.Err? {
          PairsFail(plans, factories, at, conversations, j + 1, |conversations|);
          return Err(effective.error);
        }
        candidates := candidates + [Candidate(at, d, backendId, effective.value, combined.value.value)];
      }
      j := j + 1;
    }
    result := Ok(candidates);
  }

  predicate MatchesRef(c: Candidate, at: Location, name: string)
  {
    if name == DEFAULT_STORE_NAME then c.response == at
    else if name == CONVERSATIONS_STORE_NAME then c.conversation == at
    else false
  }

  /** The candidates a reference takes part in, in order. */
  function Eligible(candidates: seq<Candidate>, at: Location, name: string): (found: seq<Candidate>)
    ensures forall c :: c in found <==> c in candidates && MatchesRef(c, at, name)
  {
    if candidates == [] then []
    else (if MatchesRef(candidates[0], at, name) then [candidates[0]] else []) + Eligible(candidates[1..], at, name)
  }

  predicate SameBackend(c: Candidate, d: Candidate)
  {
    c.backendId == d.backendId && c.effective == d.effective
  }

  /** The one combined config consistently implied for a reference. */
  function SelectedCandidate(candidates: seq<Candidate>, at: Location, name: string): Option<Candidate>
  {
    var eligible := Eligible(candidates, at, name);
    if eligible == [] then None
    else if forall c | c in eligible :: SameBackend(c, eligible[0]) then Some(eligible[0])
    else None
  }

  /** A candidate only when both participating references select its key. */
  function MutuallySelected(candidates: seq<Candidate>, at: Location, name: string): Option<Candidate>
  {
    var selected := SelectedCandidate(candidates, at, name);
    if selected.None? then None
    else
      var response := SelectedCandidate(candidates, selected.value.response, DEFAULT_STORE_NAME);
      var conversation := SelectedCandidate(candidates, selected.value.conversation, CONVERSATIONS_STORE_NAME);
      if && response.Some? && SameBackend(response.value, selected.value)
         && conversation.Some? && SameBackend(conversation.value, selected.value)
      then selected else None
  }

  /** Same listeners and shape. */
  ghost predicate Rewritten(plans: seq<ListenerStorePlan>, plans': seq<ListenerStorePlan>)
  {
    && |plans'| == |plans|
    && forall i | 0 <= i < |plans| :: plans'[i].listener == plans[i].listener && |plans'[i].refs| == |plans[i].refs|
  }

  /** What coalescing makes of one reference. */
  function Coalesced(candidates: seq<Candidate>, at: Location, ref: StoreRef): StoreRef
  {
    match MutuallySelected(candidates, at, ref.name)
    case Some(c) => ref.(config := c.config)
    case None => ref
  }

  /** Promote each mutually selected reference to its candidate's config. */
  method CoalesceCompatible(plans: seq<ListenerStorePlan>, factories: map<string, Factory>)
    returns (result: Result<(seq<ListenerStorePlan>, set<Location>, seq<Candidate>), PlanError>)
    ensures result.Ok? <==> NoPairFails(plans, factories)
    ensures result.Ok? ==>
              && result.value.2 == CandidateList(plans, factories)
              && Rewritten(plans, result.value.0)
              && (forall at | IsLocation(plans, at) ::
                  RefAt(result.value.0, at) == Coalesced(result.value.2, at, RefAt(plans, at)))
              && (forall at ::
                  at in result.value.1 <==>
                    IsLocation(plans, at) && MutuallySelected(result.value.2, at, RefAt(plans, at).name).Some?)
  {
    var candidates := CombinedCandidates(plans, factories);
    if candidates.Err? {
      return Err(candidates.error);
    }
    var rewritten := plans;
    var promoted: set<Location> := {};
    var i := 0;
    while i < |plans|
      invariant 0 <= i <= |plans|
      invariant Rewritten(plans, rewritten)
      invariant forall at | IsLocation(plans, at) ::
                  RefAt(rewritten, at) == if at.plan < i then Coalesced(candidates.value, at, RefAt(plans, at))
                    else RefAt(plans, at)
      invariant forall at :: at in promoted <==>
                  && IsLocation(plans, at) && at.plan < i
                  && MutuallySelected(candidates.value, at, RefAt(plans, at).name).Some?
    {
      var refs, here := CoalescePlan(plans[i].refs, candidates.value, i);
      rewritten := rewritten[i := rewritten[i].(refs := refs)];
      promoted := promoted + here;
      i := i + 1;
    }
    result := Ok((rewritten, promoted, candidates.value));
  }

  method CoalescePlan(refs: seq<StoreRef>, candidates: seq<Candidate>, plan: nat)
    returns (rewritten: seq<StoreRef>, promoted: set<Location>)
    ensures |rewritten| == |refs|
    ensures forall j | 0 <= j < |refs| :: rewritten[j] == Coalesced(candidates, Location(plan, j), refs[j])
    ensures forall at ::
        at in promoted <==>
          at.plan == plan && at.index < |refs| && MutuallySelected(candidates, at, refs[at.index].name).Some?
  {
    rewritten, promoted := refs, {};
    var j := 0;
    while j < |refs|
      invariant 0 <= j <= |refs| == |rewritten|
      invariant forall k | 0 <= k < |refs| ::
          rewritten[k] == if k < j then Coalesced(candidates, Location(plan, k), refs[k]) else refs[k]
      invariant forall at ::
          at in promoted <==>
            at.plan == plan && at.index < j && MutuallySelected(candidates, at, refs[at.index].name).Some?
    {
      var candidate := MutuallySelected(candidates, Location(plan, j), refs[j].name);
      if candidate.Some? {
        rewritten := rewritten[j := rewritten[j].(config := candidate.value.config)];
        promoted := promoted + {Location(plan, j)};
      }
      j := j + 1;
    }
  }

  // ---------------------------------------------------------- active pinning

  /** What pinning looks at: the cached backends, the references of the active
      generation, and which references name an in-memory SQLite database. */
  datatype ActiveStores = ActiveStores(cached: set<(string, Key)>, refs: seq<StoreRef>, inMemory: StoreRef -> bool)

  function CacheContains(factories: map<string, Factory>, cached: set<(string, Key)>, ref: StoreRef)
    : Result<bool, PlanError>
  {
    if ref.backendId !in factories then Err(UnknownBackend)
    else
      var key := factories[ref.backendId].effectiveKey(ref.config);
      if key.Err? then Err(key.error) else Ok((ref.backendId, key.value) in cached)
  }

  /** Whether `a` has the filter-owned config of `ref` and its backend is still
      cached; the cache is asked only when the identities match. */
  function CachedSource(factories: map<string, Factory>, active: ActiveStores, ref: StoreRef, a: StoreRef)
    : Result<bool, PlanError>
    requires ref.backendId in factories
  {
    match SameFilterIdentity(ref, a, factories[ref.backendId])
    case Ok(true) => CacheContains(factories, active.cached, a)
    case other => other
  }

  predicate Reusable(factories: map<string, Factory>, active: ActiveStores, ref: StoreRef, a: StoreRef)
    requires ref.backendId in factories
  {
    CachedSource(factories, active, ref, a) == Ok(true)
  }

  /** The config of the first reusable active reference, or the one it has. */
  ghost predicate Pinned(factories: map<string, Factory>, active: ActiveStores, ref: StoreRef, config: StoreConfig)
    requires ref.backendId in factories
  {
    || (exists k :: 0 <= k < |active.refs| && Reusable(factories, active, ref, active.refs[k])
                    && (forall m | 0 <= m < k :: !Reusable(factories, active, ref, active.refs[m]))
                    && config == active.refs[k].config)
    || (&& (forall m | 0 <= m < |active.refs| :: !Reusable(factories, active, ref, active.refs[m]))
        && config == ref.config)
  }

  /** The search for a reusable reference meets an error before it finds one. */
  ghost predicate PinFails(factories: map<string, Factory>, active: ActiveStores, ref: StoreRef)
    requires ref.backendId in factories
  {
    exists k :: 0 <= k < |active.refs| && CachedSource(factories, active, ref, active.refs[k]).Err?
                && forall m | 0 <= m < k :: CachedSource(factories, active, ref, active.refs[m]) == Ok(false)
  }

  method PinRef(factories: map<string, Factory>, active: ActiveStores, ref: StoreRef)
    returns (result: Result<StoreConfig, PlanError>)
    requires ref.backendId in factories
    ensures result.Ok? <==> !PinFails(factories, active, ref)
    ensures result.Ok? ==> Pinned(factories, active, ref, result.value)
  {
    var i := 0;
    while i < |active.refs|
      invariant 0 <= i <= |active.refs|
      invariant forall m | 0 <= m < i :: CachedSource(factories, active, ref, active.refs[m]) == Ok(false)
    {
      var source := CachedSource(factories, active, ref, active.refs[i]);
      if source.Err? {
        return Err(source.error);
      }
      if source.value {
        return Ok(active.refs[i].config);
      }
      i := i + 1;
    }
    result := Ok(ref.config);
  }

  /** Promoting `ref` abandons no cached backend that holds its state. */
  ghost predicate NothingAbandoned(factories: map<string, Factory>, active: ActiveStores, ref: StoreRef)
    requires ref.backendId in factories
  {
    forall a | a in active.refs && Reusable(factories, active, ref, a) ::
      factories[ref.backendId].effectiveKey(a.config) == factories[ref.backendId].effectiveKey(ref.config)
  }

  /** The active store `a` either has the promoted key already or is no cached
      source of `ref`. */
  predicate SourceSafe(factories: map<string, Factory>, active: ActiveStores, ref: StoreRef, key: Key, a: StoreRef)
    requires ref.backendId in factories
  {
    var activeKey := factories[ref.backendId].effectiveKey(a.config);
    if a.backendId == ref.backendId && activeKey.Err? then false
    else if a.backendId == ref.backendId && activeKey.value == key then true
    else CachedSource(factories, active, ref, a) == Ok(false)
  }

  /** Refuse a promotion that would replace the pool of the active in-memory
      store `a`. */
  method CheckSource(factories: map<string, Factory>, active: ActiveStores, ref: StoreRef, key: Key, a: StoreRef)
    returns (result: Result<(), PlanError>)
    requires ref.backendId in factories
    ensures result.Ok? <==> SourceSafe(factories, active, ref, key, a)
  {
    if a.backendId == ref.backendId {
      var activeKey := factories[ref.backendId].effectiveKey(a.config);
      if activeKey.Err? {
        return Err(activeKey.error);
      }
      if activeKey.value == key {
        return Ok(());
      }
    }
    var source := CachedSource(factories, active, ref, a);
    if source.Err? {
      return Err(source.error);
    }
    if source.value {
      return Err(RestartRequired);
    }
    result := Ok(());
  }

  /** Promoting the in-memory store `ref` is accepted. */
  ghost predicate PromotionSafe(factories: map<string, Factory>, active: ActiveStores, ref: StoreRef)
    requires ref.backendId in factories
  {
    var key := factories[ref.backendId].effectiveKey(ref.config);
    key.Ok? && forall a | a in active.refs :: SourceSafe(factories, active, ref, key.value, a)
  }

  /** An accepted promotion abandons no cached backend that holds its state. */
  lemma {:induction false} SafeAbandonsNothing(factories: map<string, Factory>, active: ActiveStores, ref: StoreRef)
    requires ref.backendId in factories && PromotionSafe(factories, active, ref)
    ensures NothingAbandoned(factories, active, ref)
  {
  }

  method CheckInMemory(factories: map<string, Factory>, active: ActiveStores, ref: StoreRef)
    returns (result: Result<(), PlanError>)
    requires ref.backendId in factories
    ensures result.Ok? <==> PromotionSafe(factories, active, ref)
  {
    var key := factories[ref.backendId].effectiveKey(ref.config);
    if key.Err? {
      return Err(key.error);
    }
    var i := 0;
    while i < |active.refs|
      invariant 0 <= i <= |active.refs|
      invariant forall m | 0 <= m < i :: SourceSafe(factories, active, ref, key.value, active.refs[m])
    {
      var check := CheckSource(factories, active, ref, key.value, active.refs[i]);
      if check.Err? {
        return check;
      }
      i := i + 1;
    }
    result := Ok(());
  }

  /** What pinning makes of one reference. */
  ghost predicate Preserved(factories: map<string, Factory>, active: ActiveStores, promoted: bool, ref: StoreRef,
      ref': StoreRef)
  {
    if ref.backendId !in factories then ref' == ref
    else if promoted then ref' == ref && (active.inMemory(ref) ==> NothingAbandoned(factories, active, ref))
    else Pinned(factories, active, ref, ref'.config) && ref' == ref.(config := ref'.config)
  }

  /** Pinning one reference succeeds. */
  ghost predicate Preservable(factories: map<string, Factory>, active: ActiveStores, promoted: bool, ref: StoreRef)
  {
    if ref.backendId !in factories then true
    else if promoted then active.inMemory(ref) ==> PromotionSafe(factories, active, ref)
    else !PinFails(factories, active, ref)
  }

  method PreserveRef(factories: map<string, Factory>, active: ActiveStores, promoted: bool, ref: StoreRef)
    returns (result: Result<StoreRef, PlanError>)
    ensures result.Ok? <==> Preservable(factories, active, promoted, ref)
    ensures result.Ok? ==> Preserved(factories, active, promoted, ref, result.value)
  {
    if ref.backendId !in factories {
      return Ok(ref);
    }
    if promoted {
      if active.inMemory(ref) {
        var check := CheckInMemory(factories, active, ref);
        if check.Err? {
          return Err(check.error);
        }
        SafeAbandonsNothing(factories, active, ref);
      }
      return Ok(ref);
    }
    var pinned := PinRef(factories, active, ref);
    if pinned.Err? {
      return Err(pinned.error);
    }
    result := Ok(ref.(config := pinned.value));
  }

  method PreservePlan(factories: map<string, Factory>, active: ActiveStores, promoted: set<Location>,
      refs: seq<StoreRef>, plan: nat)
    returns (result: Result<seq<StoreRef>, PlanError>)
    ensures result.Ok? <==> forall j | 0 <= j < |refs| ::
        Preservable(factories, active, Location(plan, j) in promoted, refs[j])
    ensures result.Ok? ==> |result.value| == |refs|
    ensures result.Ok? ==> forall j | 0 <= j < |refs| ::
        Preserved(factories, active, Location(plan, j) in promoted, refs[j], result.value[j])
  {
    var rewritten := refs;
    var j := 0;
    while j < |refs|
      invariant 0 <= j <= |refs| == |rewritten|
      invariant forall k | 0 <= k < j :: Preservable(factories, active, Location(plan, k) in promoted, refs[k])
      invariant forall k | 0 <= k < j ::
          Preserved(factories, active, Location(plan, k) in promoted, refs[k], rewritten[k])
    {
      var preserved := PreserveRef(factories, active, Location(plan, j) in promoted, refs[j]);
      if preserved.Err? {
        return Err(preserved.error);
      }
      rewritten := rewritten[j := preserved.value];
      j := j + 1;
    }
    result := Ok(rewritten);
  }

  ghost predicate AllPreservable(plans: seq<ListenerStorePlan>, factories: map<string, Factory>, active: ActiveStores,
      promoted: set<Location>)
  {
    forall at | IsLocation(plans, at) :: Preservable(factories, active, at in promoted, RefAt(plans, at))
  }

  /** Preserve exact active cache keys for logically unchanged filter stores. */
  method PreserveActive(plans: seq<ListenerStorePlan>, factories: map<string, Factory>, active: ActiveStores,
      promoted: set<Location>)
    returns (result: Result<seq<ListenerStorePlan>, PlanError>)
    ensures result.Ok? <==> AllPreservable(plans, factories, active, promoted)
    ensures result.Ok? ==> Rewritten(plans, result.value)
    ensures result.Ok? ==> forall at | IsLocation(plans, at) ::
              Preserved(factories, active, at in promoted, RefAt(plans, at), RefAt(result.value, at))
  {
    var rewritten := plans;
    var i := 0;
    while i < |plans|
      invariant 0 <= i <= |plans|
      invariant Rewritten(plans, rewritten)
      invariant forall at | IsLocation(plans, at) && at.plan < i ::
          Preservable(factories, active, at in promoted, RefAt(plans, at))
      invariant forall at | IsLocation(plans, at) && at.plan < i ::
          Preserved(factories, active, at in promoted, RefAt(plans, at), RefAt(rewritten, at))
      invariant forall at | IsLocation(plans, at) && at.plan >= i :: RefAt(rewritten, at) == RefAt(plans, at)
    {
      var refs := PreservePlan(factories, active, promoted, plans[i].refs, i);
      assert forall j | 0 <= j < |plans[i].refs| :: plans[i].refs[j] == RefAt(plans, Location(i, j));
      if refs.Err? {
        return Err(refs.error);
      }
      rewritten := rewritten[i := rewritten[i].(refs := refs.value)];
      i := i + 1;
    }
    result := Ok(rewritten);
  }

  // ------------------------------------------------------- namespace clashes

  function Flatten(plans: seq<ListenerStorePlan>): seq<StoreRef>
  {
    if plans == [] then [] else Flatten(plans[..|plans| - 1]) + plans[|plans| - 1].refs
  }

  /** The two references mutate one physical namespace. */
  predicate SameNamespace(factories: map<string, Factory>, first: StoreRef, second: StoreRef)
  {
    && first.backendId == second.backendId && first.backendId in factories
    && factories[first.backendId].namespaceKey(first.config).Ok?
    && factories[first.backendId].namespaceKey(first.config).value.Some?
    && factories[first.backendId].namespaceKey(second.config) == factories[first.backendId].namespaceKey(first.config)
  }

  ghost predicate PairClean(factories: map<string, Factory>, first: StoreRef, second: StoreRef)
  {
    SameNamespace(factories, first, second) ==> !CrossCollision(first, second)
  }

  /** The factory, if it is known, can name the reference's namespace. */
  predicate NamespaceKnown(factories: map<string, Factory>, ref: StoreRef)
  {
    ref.backendId in factories ==> factories[ref.backendId].namespaceKey(ref.config).Ok?
  }

  ghost predicate NamespacesClean(factories: map<string, Factory>, refs: seq<StoreRef>)
  {
    && (forall i | 0 <= i < |refs| :: NamespaceKnown(factories, refs[i]))
    && (forall i, j | 0 <= i < j < |refs| :: PairClean(factories, refs[i], refs[j]))
  }

  /** One reference against those from `j` on. */
  method ValidateNamespaceOf(first: StoreRef, refs: seq<StoreRef>, start: nat, factories: map<string, Factory>)
    returns (result: Result<(), PlanError>)
    requires first.backendId in factories && start <= |refs|
    ensures result.Ok? ==> NamespaceKnown(factories, first) && forall k | start <= k < |refs| ::
        PairClean(factories, first, refs[k])
    ensures result.Err? ==>
              || !NamespaceKnown(factories, first)
              || exists k | start <= k < |refs| ::
                   !NamespaceKnown(factories, refs[k]) || !PairClean(factories, first, refs[k])
  {
    var namespace := factories[first.backendId].namespaceKey(first.config);
    if namespace.Err? {
      return Err(namespace.error);
    }
    if namespace.value.None? {
      return Ok(());
    }
    var j := start;
    while j < |refs|
      invariant start <= j <= |refs|
      invariant forall k | start <= k < j :: PairClean(factories, first, refs[k])
    {
      if first.backendId == refs[j].backendId {
        var other := factories[first.backendId].namespaceKey(refs[j].config);
        if other.Err? {
          assert !NamespaceKnown(factories, refs[j]);
          return Err(other.error);
        }
        if other.value == namespace.value && CrossCollision(first, refs[j]) {
          assert !PairClean(factories, first, refs[j]);
          return Err(NamespaceCollision);
        }
      }
      j := j + 1;
    }
    result := Ok(());
  }

  method ValidateNamespaces(refs: seq<StoreRef>, factories: map<string, Factory>)
    returns (result: Result<(), PlanError>)
    ensures result.Ok? <==> NamespacesClean(factories, refs)
  {
    var i := 0;
    while i < |refs|
      invariant 0 <= i <= |refs|
      invariant forall k | 0 <= k < i :: NamespaceKnown(factories, refs[k])
      invariant forall k, j | 0 <= k < i && k < j < |refs| :: PairClean(factories, refs[k], refs[j])
    {
      if refs[i].backendId in factories {
        var check := ValidateNamespaceOf(refs[i], refs, i + 1, factories);
        if check.Err? {
          return check;
        }
      }
      i := i + 1;
    }
    result := Ok(());
  }

  // ------------------------------------------------------------ deduplication

  predicate NameBound(refs: seq<StoreRef>, name: string)
  {
    exists r :: r in refs && r.name == name
  }

  /** The first reference of each name among the first `n`, in order. */
  function FirstsOf(refs: seq<StoreRef>, n: nat): seq<StoreRef>
    requires n <= |refs|
  {
    if n == 0 then []
    else FirstsOf(refs, n - 1) + if NameBound(refs[..n - 1], refs[n - 1].name) then [] else [refs[n - 1]]
  }

  function Firsts(refs: seq<StoreRef>): seq<StoreRef>
  {
    FirstsOf(refs, |refs|)
  }

  ghost predicate Keyed(factories: map<string, Factory>, ref: StoreRef)
  {
    ref.backendId in factories && factories[ref.backendId].effectiveKey(ref.config).Ok?
  }

  /** Same backend and same effective key. */
  ghost predicate SameStore(factories: map<string, Factory>, a: StoreRef, b: StoreRef)
  {
    && Keyed(factories, a) && Keyed(factories, b) && a.backendId == b.backendId
    && factories[a.backendId].effectiveKey(a.config) == factories[b.backendId].effectiveKey(b.config)
  }

  ghost predicate Consistent(factories: map<string, Factory>, refs: seq<StoreRef>)
  {
    && (forall r | r in refs :: Keyed(factories, r))
    && (forall a, b | a in refs && b in refs && a.name == b.name :: SameStore(factories, a, b))
  }

  lemma {:induction false} ConsistentWith(factories: map<string, Factory>, refs: seq<StoreRef>, ref: StoreRef)
    requires Consistent(factories, refs) && Keyed(factories, ref)
    requires forall a | a in refs && a.name == ref.name :: SameStore(factories, a, ref)
    ensures Consistent(factories, refs + [ref])
  {
  }

  /** Keep the first reference of each name; fail exactly when some backend is
      unknown, some config is rejected, or one name is bound to two stores. */
  method Deduplicate(refs: seq<StoreRef>, factories: map<string, Factory>)
    returns (result: Result<seq<StoreRef>, PlanError>)
    ensures result.Ok? <==> Consistent(factories, refs)
    ensures result.Ok? ==> result.value == Firsts(refs)
  {
    var bound: map<string, (string, Key)> := map[];
    var unique: seq<StoreRef> := [];
    var i := 0;
    while i < |refs|
      invariant 0 <= i <= |refs| && unique == FirstsOf(refs, i)
      invariant Consistent(factories, refs[..i]) && BoundBy(factories, refs[..i], bound)
    {
      var ref := refs[i];
      NextPrefix(refs, i);
      if ref.backendId !in factories {
        assert ref in refs;
        return Err(UnknownBackend);
      }
      var effective := factories[ref.backendId].effectiveKey(ref.config);
      if effective.Err? {
        assert ref in refs;
        return Err(effective.error);
      }
      BoundNext(factories, refs[..i], bound, ref, effective.value);
      if ref.name in bound {
        if bound[ref.name] != (ref.backendId, effective.value) {
          NotConsistent(factories, refs, i + 1);
          return Err(ConflictingStores);
        }
      } else {
        bound := bound[ref.name := (ref.backendId, effective.value)];
        unique := unique + [ref];
      }
      i := i + 1;
    }
    assert refs[..|refs|] == refs;
    result := Ok(unique);
  }

  /** The table binds exactly the names met so far, each to its store. */
  ghost predicate BoundBy(factories: map<string, Factory>, refs: seq<StoreRef>, bound: map<string, (string, Key)>)
  {
    && (forall n :: n in bound <==> NameBound(refs, n))
    && (forall r | r in refs :: Keyed(factories, r) && r.name in bound
                                && bound[r.name] == (r.backendId, factories[r.backendId].effectiveKey(r.config).value))
  }

  /** Whether the next reference is consistent shows in the table. */
  lemma {:induction false} BoundNext(factories: map<string, Factory>, refs: seq<StoreRef>,
      bound: map<string, (string, Key)>, ref: StoreRef, key: Key)
    requires Consistent(factories, refs) && BoundBy(factories, refs, bound)
    requires ref.backendId in factories && factories[ref.backendId].effectiveKey(ref.config) == Ok(key)
    ensures ref.name !in bound || bound[ref.name] == (ref.backendId, key) <==> Consistent(factories, refs + [ref])
    ensures ref.name !in bound || bound[ref.name] == (ref.backendId, key) ==>
              BoundBy(factories, refs + [ref], bound[ref.name := (ref.backendId, key)])
  {
    var more := refs + [ref];
    assert forall r :: r in more <==> r in refs || r == ref;
    if ref.name !in bound || bound[ref.name] == (ref.backendId, key) {
      forall a | a in refs && a.name == ref.name ensures SameStore(factories, a, ref) {
        assert NameBound(refs, a.name);
      }
      ConsistentWith(factories, refs, ref);
      assert forall n :: NameBound(more, n) <==> NameBound(refs, n) || n == ref.name;
    } else {
      var a :| a in refs && a.name == ref.name;
      assert a in more && ref in more && !SameStore(factories, a, ref);
    }
  }

  lemma {:induction false} NotConsistent(factories: map<string, Factory>, refs: seq<StoreRef>, n: nat)
    requires n <= |refs| && !Consistent(factories, refs[..n])
    ensures !Consistent(factories, refs)
  {
    assert forall r | r in refs[..n] :: r in refs;
  }

  method DeduplicatePlans(plans: seq<ListenerStorePlan>, factories: map<string, Factory>)
    returns (result: Result<seq<ListenerStorePlan>, PlanError>)
    ensures result.Ok? <==> forall p | p in plans :: Consistent(factories, p.refs)
    ensures result.Ok? ==> |result.value| == |plans| && forall i | 0 <= i < |plans| ::
              result.value[i] == ListenerStorePlan(plans[i].listener, Firsts(plans[i].refs))
  {
    var rewritten := plans;
    var i := 0;
    while i < |plans|
      invariant 0 <= i <= |plans| == |rewritten|
      invariant forall k | 0 <= k < i :: Consistent(factories, plans[k].refs)
      invariant forall k | 0 <= k < |plans| ::
          rewritten[k] == if k < i then ListenerStorePlan(plans[k].listener, Firsts(plans[k].refs)) else plans[k]
    {
      var unique := Deduplicate(plans[i].refs, factories);
      if unique.Err? {
        assert plans[i] in plans;
        return Err(unique.error);
      }
      rewritten := rewritten[i := rewritten[i].(refs := unique.value)];
      i := i + 1;
    }
    result := Ok(rewritten);
  }
}
