/** The provider trust boundary and the readiness gate (server/src/pipelines.rs):
    the branch search, the boundary checks over the entry list, and the gate
    inserted for listeners whose stores are provisioned asynchronously. */
module ProviderBoundary {
  import opened Results
  import opened ChainWalk

  const PROVIDER_ROUTE := "provider_route"
  const PEER_IDENTITY_TRUST := "peer_identity_trust"
  const READINESS_GATE := "praxis_store_readiness_gate"

  predicate IsProvider(e: FilterEntry)
  {
    e.filterType == PROVIDER_ROUTE
  }

  predicate IsPeerTrust(e: FilterEntry)
  {
    e.filterType == PEER_IDENTITY_TRUST
  }

  // -------------------------------------------------------- the branch search

  predicate HasProvider(entries: seq<FilterEntry>)
  {
    exists i :: 0 <= i < |entries| && IsProvider(entries[i])
  }

  /** A provider below at least one inline branch edge of `entries`. */
  ghost predicate BelowProvider(entries: seq<FilterEntry>)
    decreases entries, 1
  {
    entries != [] && (BelowProvider(entries[..|entries| - 1]) || EntryProvider(entries[|entries| - 1]))
  }

  ghost predicate EntryProvider(e: FilterEntry)
    decreases e, 0
  {
    BranchProvider(e.branches)
  }

  ghost predicate BranchProvider(branches: seq<ChainRef>)
    decreases branches, 1
  {
    branches != [] && (BranchProvider(branches[..|branches| - 1]) || RefProvider(branches[|branches| - 1]))
  }

  ghost predicate RefProvider(branch: ChainRef)
    decreases branch, 0
  {
    branch.Inline? && (HasProvider(branch.filters) || BelowProvider(branch.filters))
  }

  /** A provider in a named chain or below its inline branches. */
  ghost predicate ChainProvider(chains: Chains, name: string)
  {
    name in chains && (HasProvider(chains[name]) || BelowProvider(chains[name]))
  }

  /** A provider is reached from something with the given inline providers and
      names by following at least one branch edge. */
  ghost predicate ReachesProvider(chains: Chains, below: bool, names: set<string>)
  {
    below || exists n :: Reachable(false, chains, names, n) && ChainProvider(chains, n)
  }

  ghost predicate ProviderInBranch(entries: seq<FilterEntry>, chains: Chains)
  {
    ReachesProvider(chains, BelowProvider(entries), LocalNames(false, entries))
  }

  ghost predicate NoneIn(chains: Chains, order: seq<string>)
  {
    forall n | n in order :: !ChainProvider(chains, n)
  }

  /** What one search step establishes: a provider was found, or everything it
      walked is free of providers. */
  ghost predicate Searched(chains: Chains, below: bool, names: set<string>, visited: set<string>, visited': set<string>,
      order: seq<string>, found: bool)
  {
    if found then ReachesProvider(chains, below, names)
    else !below && Walked(false, chains, names, visited, visited', order) && NoneIn(chains, order)
  }

  lemma {:induction false} SearchedThen(chains: Chains, b1: bool, b2: bool, n1: set<string>, n2: set<string>,
                     v0: set<string>, v1: set<string>, v2: set<string>, o1: seq<string>, o2: seq<string>, found: bool)
    requires Searched(chains, b1, n1, v0, v1, o1, false) && Searched(chains, b2, n2, v1, v2, o2, found)
    ensures Searched(chains, b1 || b2, n1 + n2, v0, v2, o1 + o2, found)
  {
    if found {
      ReachesMore(chains, b2, n2, b1 || b2, n1 + n2);
    } else {
      WalkedThen(false, chains, n1, n2, v0, v1, v2, o1, o2);
    }
  }

  lemma {:induction false} ReachesMore(chains: Chains, below: bool, names: set<string>, below': bool, more: set<string>)
    requires ReachesProvider(chains, below, names) && (below ==> below') && names <= more
    ensures ReachesProvider(chains, below', more)
  {
    if !below {
      var n :| Reachable(false, chains, names, n) && ChainProvider(chains, n);
      ReachableMore(false, chains, names, more, n);
    }
  }

  lemma {:induction false} SearchedNamed(chains: Chains, name: string, visited: set<string>, visited': set<string>,
      inner: seq<string>, found: bool)
    requires name in chains && name !in visited
    requires !HasProvider(chains[name])
    requires Searched(chains, BelowProvider(chains[name]), ChainNames(false, chains, name), visited +
        {name}, visited', inner, found)
    ensures Searched(chains, false, {name}, visited, visited', [name] + inner, found)
  {
    if !found {
      WalkedNamed(false, chains, name, visited, visited', inner);
    } else if BelowProvider(chains[name]) {
      ReachableSelf(false, chains, {name}, name);
    } else {
      var n :| Reachable(false, chains, ChainNames(false, chains, name), n) && ChainProvider(chains, n);
      ReachableVia(false, chains, {name}, name, n);
    }
  }

  /** Detect provider consumers nested in any reachable inline or named branch. */
  method SearchEntries(entries: seq<FilterEntry>, chains: Chains, visited: set<string>)
    returns (found: bool, visited': set<string>, ghost order: seq<string>)
    ensures Searched(chains, BelowProvider(entries), LocalNames(false, entries), visited, visited', order, found)
    decreases Unvisited(chains, visited), entries, 1
  {
    found, visited', order := false, visited, [];
    var i := 0;
    while i < |entries| && !found
      invariant 0 <= i <= |entries|
      invariant Searched(chains, BelowProvider(entries[..i]), LocalNames(false, entries[..i]), visited, visited', order,
          found)
    {
      assert entries[..i + 1][..i] == entries[..i];
      UnvisitedShrinks(chains, visited, visited');
      ghost var inner;
      ghost var before := visited';
      found, visited', inner := SearchBranches(entries[i].branches, chains, visited');
      SearchedThen(chains, BelowProvider(entries[..i]), EntryProvider(entries[i]), LocalNames(false, entries[..i]),
        EntryNames(false, entries[i]), visited, before, visited', order, inner, found);
      order := order + inner;
      i := i + 1;
    }
    if found {
      SplitAt(chains, entries, i);
    } else {
      assert entries[..|entries|] == entries;
    }
  }

  lemma {:induction false} SplitAt(chains: Chains, entries: seq<FilterEntry>, i: nat)
    requires i <= |entries|
    ensures BelowProvider(entries[..i]) ==> BelowProvider(entries)
    ensures LocalNames(false, entries[..i]) <= LocalNames(false, entries)
    ensures ReachesProvider(chains, BelowProvider(entries[..i]), LocalNames(false, entries[..i])) ==>
        ProviderInBranch(entries, chains)
    decreases |entries| - i
  {
    if i < |entries| {
      assert entries[..i + 1][..i] == entries[..i];
      SplitAt(chains, entries, i + 1);
      if ReachesProvider(chains, BelowProvider(entries[..i]), LocalNames(false, entries[..i])) {
        ReachesMore(chains, BelowProvider(entries[..i]), LocalNames(false, entries[..i]),
          BelowProvider(entries[..i + 1]), LocalNames(false, entries[..i + 1]));
      }
    } else {
      assert entries[..i] == entries;
    }
  }

  method SearchBranches(branches: seq<ChainRef>, chains: Chains, visited: set<string>)
    returns (found: bool, visited': set<string>, ghost order: seq<string>)
    ensures Searched(chains, BranchProvider(branches), BranchNames(false, branches), visited, visited', order, found)
    decreases Unvisited(chains, visited), branches, 1
  {
    found, visited', order := false, visited, [];
    var i := 0;
    while i < |branches| && !found
      invariant 0 <= i <= |branches|
      invariant Searched(chains, BranchProvider(branches[..i]), BranchNames(false, branches[..i]), visited, visited',
          order, found)
    {
      assert branches[..i + 1][..i] == branches[..i];
      UnvisitedShrinks(chains, visited, visited');
      ghost var inner;
      ghost var before := visited';
      found, visited', inner := SearchBranch(branches[i], chains, visited');
      SearchedThen(chains, BranchProvider(branches[..i]), RefProvider(branches[i]), BranchNames(false, branches[..i]),
        RefNames(false, branches[i]), visited, before, visited', order, inner, found);
      order := order + inner;
      i := i + 1;
    }
    if found {
      SplitBranchesAt(chains, branches, i);
    } else {
      assert branches[..|branches|] == branches;
    }
  }

  lemma {:induction false} SplitBranchesAt(chains: Chains, branches: seq<ChainRef>, i: nat)
    requires i <= |branches|
    ensures ReachesProvider(chains, BranchProvider(branches[..i]), BranchNames(false, branches[..i])) ==>
            ReachesProvider(chains, BranchProvider(branches), BranchNames(false, branches))
    decreases |branches| - i
  {
    if i < |branches| {
      assert branches[..i + 1][..i] == branches[..i];
      SplitBranchesAt(chains, branches, i + 1);
      if ReachesProvider(chains, BranchProvider(branches[..i]), BranchNames(false, branches[..i])) {
        ReachesMore(chains, BranchProvider(branches[..i]), BranchNames(false, branches[..i]),
          BranchProvider(branches[..i + 1]), BranchNames(false, branches[..i + 1]));
      }
    } else {
      assert branches[..i] == branches;
    }
  }

  method SearchBranch(branch: ChainRef, chains: Chains, visited: set<string>)
    returns (found: bool, visited': set<string>, ghost order: seq<string>)
    ensures Searched(chains, RefProvider(branch), RefNames(false, branch), visited, visited', order, found)
    decreases Unvisited(chains, visited), branch, 0
  {
    found, visited', order := false, visited, [];
    match branch
    case Inline(filters) =>
      if HasProvider(filters) {
        return true, visited', order;
      }
      found, visited', order := SearchEntries(filters, chains, visited');
    case Named(name) =>
      if name !in visited {
        visited' := visited + {name};
        if name in chains {
          if HasProvider(chains[name]) {
            ReachableSelf(false, chains, {name}, name);
            return true, visited', order;
          }
          UnvisitedShrinks(chains, visited, visited');
          found, visited', order := SearchEntries(chains[name], chains, visited');
          SearchedNamed(chains, name, visited, visited', order, found);
        } else {
          assert Walked(false, chains, {}, visited + {name}, visited', []);
          WalkedNamed(false, chains, name, visited, visited', []);
        }
        order := [name] + order;
      }
  }

  /** The search answers whether a provider consumer can be reached through at
      least one branch edge, whatever the cycles among named chains. */
  method ProviderConsumerExistsInBranch(entries: seq<FilterEntry>, chains: Chains) returns (found: bool)
    ensures found <==> ProviderInBranch(entries, chains)
  {
    ghost var visited, order;
    found, visited, order := SearchEntries(entries, chains, {});
    if !found {
      WalkedExactly(false, chains, LocalNames(false, entries), visited, order);
    }
  }

  // ------------------------------------------------------ the boundary checks

  datatype BoundaryError =
    | BranchConditional
    | ClientCertNotRequired
    | NotUnconditionalClosed(filterType: string)
    | NoPrecedingPeerTrust
    | PeerTrustNotFirst

  type Verdict = Result<(), BoundaryError>

  predicate UnconditionalClosed(e: FilterEntry)
  {
    e.failureMode == Closed && e.conditions == []
  }

  function ValidateUnconditionalClosed(e: FilterEntry): Verdict
  {
    if UnconditionalClosed(e) then Ok(()) else Err(NotUnconditionalClosed(e.filterType))
  }

  /** The last peer trust filter among the first `n` entries. */
  function LastPeerTrust(entries: seq<FilterEntry>, n: nat): Option<nat>
    requires n <= |entries|
  {
    if n == 0 then None
    else if IsPeerTrust(entries[n - 1]) then Some(n - 1)
    else LastPeerTrust(entries, n - 1)
  }

  /** One provider consumer and its non-bypassable peer trust filter. */
  function ValidateProviderEntry(entries: seq<FilterEntry>, i: nat): Verdict
    requires i < |entries|
  {
    if !UnconditionalClosed(entries[i]) then Err(NotUnconditionalClosed(entries[i].filterType))
    else
      match LastPeerTrust(entries, i)
      case None => Err(NoPrecedingPeerTrust)
      case Some(peer) => if peer != 0 then Err(PeerTrustNotFirst) else ValidateUnconditionalClosed(entries[peer])
  }

  /** The first failure among the providers from `i` on. */
  function ValidateProviders(entries: seq<FilterEntry>, i: nat): Verdict
    requires i <= |entries|
    decreases |entries| - i
  {
    if i == |entries| then Ok(())
    else if IsProvider(entries[i]) && ValidateProviderEntry(entries, i).Err? then ValidateProviderEntry(entries, i)
    else ValidateProviders(entries, i + 1)
  }

  function Boundary(clientCertRequired: bool, entries: seq<FilterEntry>, inBranch: bool): Verdict
  {
    if inBranch then Err(BranchConditional)
    else if !HasProvider(entries) then Ok(())
    else if !clientCertRequired then Err(ClientCertNotRequired)
    else ValidateProviders(entries, 0)
  }

  method ValidateProviderBoundary(clientCertRequired: bool, entries: seq<FilterEntry>, chains: Chains)
    returns (verdict: Verdict)
    ensures verdict == Boundary(clientCertRequired, entries, ProviderInBranch(entries, chains))
  {
    var inBranch := ProviderConsumerExistsInBranch(entries, chains);
    verdict := Boundary(clientCertRequired, entries, inBranch);
  }

  /** Entry 0 is an unconditional fail-closed peer trust filter, every provider
      is unconditional and fail-closed, and no other peer trust lies before one. */
  ghost predicate TrustFirst(entries: seq<FilterEntry>)
  {
    && entries != [] && IsPeerTrust(entries[0]) && UnconditionalClosed(entries[0])
    && forall i | 0 <= i < |entries| && IsProvider(entries[i]) ::
         UnconditionalClosed(entries[i]) && forall j | 0 < j < i :: !IsPeerTrust(entries[j])
  }

  lemma {:induction false} LastPeerTrustLaw(entries: seq<FilterEntry>, n: nat)
    requires n <= |entries|
    ensures LastPeerTrust(entries, n) == Some(0) <==> 0 < n && IsPeerTrust(entries[0]) && forall j | 0 < j < n ::
        !IsPeerTrust(entries[j])
    ensures LastPeerTrust(entries, n).None? <==> forall j | 0 <= j < n :: !IsPeerTrust(entries[j])
    ensures LastPeerTrust(entries, n).Some? ==> LastPeerTrust(entries, n).value < n
  {
    if n > 0 {
      LastPeerTrustLaw(entries, n - 1);
    }
  }

  lemma {:induction false} ProviderEntryLaw(entries: seq<FilterEntry>, i: nat)
    requires i < |entries| && IsProvider(entries[i])
    ensures ValidateProviderEntry(entries, i).Ok? <==>
            && UnconditionalClosed(entries[i]) && IsPeerTrust(entries[0]) && UnconditionalClosed(entries[0])
            && forall j | 0 < j < i :: !IsPeerTrust(entries[j])
  {
    LastPeerTrustLaw(entries, i);
  }

  lemma {:induction false} ProvidersLaw(entries: seq<FilterEntry>, i: nat)
    requires i <= |entries|
    ensures ValidateProviders(entries, i).Ok? <==> forall k | i <= k < |entries| && IsProvider(entries[k]) ::
        ValidateProviderEntry(entries, k).Ok?
    decreases |entries| - i
  {
    if i < |entries| {
      ProvidersLaw(entries, i + 1);
    }
  }

  /** The boundary accepts exactly the pipelines with no branch-conditional
      provider that either consume no provider context or require client
      certificates and put trust first. */
  lemma {:induction false} BoundaryAcceptsExactly(clientCertRequired: bool, entries: seq<FilterEntry>, inBranch: bool)
    ensures Boundary(clientCertRequired, entries, inBranch).Ok? <==>
            !inBranch && (HasProvider(entries) ==> clientCertRequired && TrustFirst(entries))
  {
    ProvidersLaw(entries, 0);
    forall i | 0 <= i < |entries| && IsProvider(entries[i])
      ensures ValidateProviderEntry(entries, i).Ok? <==>
              && UnconditionalClosed(entries[i]) && IsPeerTrust(entries[0]) && UnconditionalClosed(entries[0])
              && forall j | 0 < j < i :: !IsPeerTrust(entries[j])
    {
      ProviderEntryLaw(entries, i);
    }
  }

  // ---------------------------------------------------------- the readiness gate

  function Gate(): FilterEntry
  {
    FilterEntry(READINESS_GATE, "", [], Closed, [], [])
  }

  function GateIndex(entries: seq<FilterEntry>): nat
  {
    if entries != [] && IsPeerTrust(entries[0]) then 1 else 0
  }

  /** The entries with the gate in front, or right behind a leading peer trust. */
  function Gated(entries: seq<FilterEntry>): (gated: seq<FilterEntry>)
    ensures |gated| == |entries| + 1
    ensures gated[GateIndex(entries)] == Gate()
    ensures forall i | 0 <= i < |entries| :: gated[Shifted(entries, i)] == entries[i]
  {
    entries[..GateIndex(entries)] + [Gate()] + entries[GateIndex(entries)..]
  }

  function Shifted(entries: seq<FilterEntry>, i: nat): nat
  {
    if i < GateIndex(entries) then i else i + 1
  }

  lemma {:induction false} BelowConcat(a: seq<FilterEntry>, b: seq<FilterEntry>)
    ensures BelowProvider(a + b) == (BelowProvider(a) || BelowProvider(b))
    ensures LocalNames(false, a + b) == LocalNames(false, a) + LocalNames(false, b)
  {
    if b == [] {
      assert a + b == a;
    } else {
      assert (a + b)[..|a + b| - 1] == a + b[..|b| - 1];
      BelowConcat(a, b[..|b| - 1]);
    }
  }

  /** The gate adds no branch, so the branch search answers the same. */
  lemma {:induction false} GateKeepsBranchSearch(entries: seq<FilterEntry>, chains: Chains)
    ensures ProviderInBranch(Gated(entries), chains) == ProviderInBranch(entries, chains)
  {
    var k := GateIndex(entries);
    assert entries == entries[..k] + entries[k..];
    BelowConcat(entries[..k], entries[k..]);
    BelowConcat(entries[..k], [Gate()]);
    BelowConcat(entries[..k] + [Gate()], entries[k..]);
    assert [Gate()][..0] == [];
    assert LocalNames(false, Gated(entries)) == LocalNames(false, entries);
  }

  /** Every gated entry but the gate is an original one. */
  lemma {:induction false} GatedAt(entries: seq<FilterEntry>, m: nat)
    requires m <= |entries| && m != GateIndex(entries)
    ensures var i := if m < GateIndex(entries) then m
      else m - 1; 0 <= i < |entries| && Shifted(entries, i) == m && Gated(entries)[m] == entries[i]
  {
  }

  lemma {:induction false} ShiftedAt(entries: seq<FilterEntry>, n: nat, i: nat)
    requires i < n <= |entries|
    ensures i <= Shifted(entries, i) < Shifted(entries, n) <= |entries| + 1
    ensures Gated(entries)[Shifted(entries, i)] == entries[i]
  {
  }

  /** Peer trust filters before `n` correspond to those before its shifted place. */
  lemma {:induction false} GatedPeerTrust(entries: seq<FilterEntry>, n: nat, m: nat)
    requires n <= |entries| && m < Shifted(entries, n) && IsPeerTrust(Gated(entries)[m])
    ensures m != GateIndex(entries)
    ensures var i := if m < GateIndex(entries) then m
      else m - 1; 0 <= i < n && IsPeerTrust(entries[i]) && (i == 0 <==> m == 0)
  {
    assert Gated(entries)[GateIndex(entries)] == Gate() && !IsPeerTrust(Gate());
    GatedAt(entries, m);
  }

  lemma {:induction false} GateKeepsNoPeerTrust(entries: seq<FilterEntry>, n: nat)
    requires n <= |entries|
    ensures LastPeerTrust(entries, n).None? <==> LastPeerTrust(Gated(entries), Shifted(entries, n)).None?
  {
    LastPeerTrustLaw(entries, n);
    LastPeerTrustLaw(Gated(entries), Shifted(entries, n));
    if m :| 0 <= m < Shifted(entries, n) && IsPeerTrust(Gated(entries)[m]) {
      GatedPeerTrust(entries, n, m);
    }
    if i :| 0 <= i < n && IsPeerTrust(entries[i]) {
      ShiftedAt(entries, n, i);
    }
  }

  lemma {:induction false} GateKeepsFirstPeerTrust(entries: seq<FilterEntry>, n: nat)
    requires n <= |entries|
    ensures LastPeerTrust(entries, n) == Some(0) <==> LastPeerTrust(Gated(entries), Shifted(entries, n)) == Some(0)
  {
    LastPeerTrustLaw(entries, n);
    LastPeerTrustLaw(Gated(entries), Shifted(entries, n));
    if 0 < Shifted(entries, n) && IsPeerTrust(Gated(entries)[0]) {
      GatedPeerTrust(entries, n, 0);
    }
    if m :| 0 < m < Shifted(entries, n) && IsPeerTrust(Gated(entries)[m]) {
      GatedPeerTrust(entries, n, m);
    }
    if i :| 0 < i < n && IsPeerTrust(entries[i]) {
      ShiftedAt(entries, n, i);
    }
  }

  lemma {:induction false} GateKeepsEntryVerdict(entries: seq<FilterEntry>, i: nat)
    requires i < |entries|
    ensures ValidateProviderEntry(Gated(entries), Shifted(entries, i)) == ValidateProviderEntry(entries, i)
  {
    assert Gated(entries)[Shifted(entries, i)] == entries[i];
    GateKeepsNoPeerTrust(entries, i);
    GateKeepsFirstPeerTrust(entries, i);
    LastPeerTrustLaw(entries, i);
    if LastPeerTrust(entries, i) == Some(0) {
      assert Shifted(entries, 0) == 0;
      assert Gated(entries)[0] == entries[0];
    }
  }

  lemma {:induction false} GateKeepsProviders(entries: seq<FilterEntry>, i: nat)
    requires i <= |entries|
    ensures ValidateProviders(Gated(entries), Shifted(entries, i)) == ValidateProviders(entries, i)
    decreases |entries| - i
  {
    if i < |entries| {
      GateKeepsProviders(entries, i + 1);
      GateKeepsEntryVerdict(entries, i);
      assert Gated(entries)[Shifted(entries, i)] == entries[i];
      if i + 1 == GateIndex(entries) {
        assert Gated(entries)[1] == Gate() && !IsProvider(Gate());
      }
    }
  }

  /** Inserting the readiness gate never changes the boundary's verdict, down to
      which error is reported. */
  lemma {:induction false} GateKeepsVerdict(clientCertRequired: bool, entries: seq<FilterEntry>, chains: Chains)
    ensures Boundary(clientCertRequired, Gated(entries), ProviderInBranch(Gated(entries), chains))
            == Boundary(clientCertRequired, entries, ProviderInBranch(entries, chains))
  {
    var gated, k := Gated(entries), GateIndex(entries);
    GateKeepsBranchSearch(entries, chains);
    assert HasProvider(gated) <==> HasProvider(entries) by {
      assert gated[k] == Gate();
      if m :| 0 <= m < |gated| && IsProvider(gated[m]) {
        GatedAt(entries, m);
      }
      if i :| 0 <= i < |entries| && IsProvider(entries[i]) {
        assert gated[Shifted(entries, i)] == entries[i];
      }
    }
    GateKeepsProviders(entries, 0);
    assert k == 0 ==> !IsProvider(gated[0]);
  }

  /** When the verdict is Ok and a provider exists, the gated pipeline still
      starts with trust, and the gate comes right behind it. */
  lemma {:induction false} GatedTrustFirst(clientCertRequired: bool, entries: seq<FilterEntry>, chains: Chains)
    requires Boundary(clientCertRequired, entries, ProviderInBranch(entries, chains)).Ok? && HasProvider(entries)
    ensures clientCertRequired && TrustFirst(entries) && TrustFirst(Gated(entries)) && Gated(entries)[1] == Gate()
  {
    BoundaryAcceptsExactly(clientCertRequired, entries, ProviderInBranch(entries, chains));
    GateKeepsVerdict(clientCertRequired, entries, chains);
    BoundaryAcceptsExactly(clientCertRequired, Gated(entries), ProviderInBranch(Gated(entries), chains));
    var i :| 0 <= i < |entries| && IsProvider(entries[i]);
    assert IsProvider(Gated(entries)[Shifted(entries, i)]);
  }
}
