/** Two walks over one configuration: store discovery follows the steps of
    iterative routers (server/src/store_config.rs), the search for provider
    consumers does not (server/src/pipelines.rs). What the second one misses. */
module RouterSteps {
  import opened ChainWalk
  import opened ProviderBoundary

  // ------------------------------------------------- what is held without a name

  /** The step lists of the routers among the entries and in their inline
      branches, which are the ones the boundary's search passes by. */
  ghost function LocalSteps(entries: seq<FilterEntry>): set<seq<FilterEntry>>
    decreases entries, 1
  {
    if entries == [] then {} else LocalSteps(entries[..|entries| - 1]) + EntrySteps(entries[|entries| - 1])
  }

  ghost function EntrySteps(e: FilterEntry): set<seq<FilterEntry>>
    decreases e, 0
  {
    (if e.filterType == ROUTER then {e.steps} else {}) + BranchSteps(e.branches)
  }

  ghost function BranchSteps(branches: seq<ChainRef>): set<seq<FilterEntry>>
    decreases branches, 1
  {
    if branches == [] then {} else BranchSteps(branches[..|branches| - 1]) + RefSteps(branches[|branches| - 1])
  }

  ghost function RefSteps(branch: ChainRef): set<seq<FilterEntry>>
    decreases branch, 0
  {
    match branch
    case Inline(filters) => LocalSteps(filters)
    case Named(_) => {}
  }

  /** Discovery would collect a provider's config here. */
  ghost predicate Holds(configs: multiset<string>)
  {
    |configs| > 0
  }

  ghost predicate LocallySeen(entries: seq<FilterEntry>)
  {
    HasProvider(entries) || BelowProvider(entries)
  }

  ghost predicate StepNamed(steps: set<seq<FilterEntry>>, n: string)
  {
    exists s :: s in steps && n in LocalNames(true, s)
  }

  ghost predicate StepHolds(steps: set<seq<FilterEntry>>)
  {
    exists s :: s in steps && Holds(LocalConfigs(s, PROVIDER_ROUTE))
  }

  /** What discovery finds in one place is what the search sees there and what
      the steps passed by hold. */
  ghost predicate Splits(all: set<string>, seen: set<string>, held: bool, provider: bool, steps: set<seq<FilterEntry>>)
  {
    && (forall n :: n in all <==> n in seen || StepNamed(steps, n))
    && (held <==> provider || StepHolds(steps))
  }

  lemma {:induction false} SplitsBoth(all: set<string>, seen: set<string>, held: bool, provider: bool,
      steps: set<seq<FilterEntry>>, all': set<string>, seen': set<string>, held': bool, provider': bool,
      steps': set<seq<FilterEntry>>)
    requires Splits(all, seen, held, provider, steps) && Splits(all', seen', held', provider', steps')
    ensures Splits(all + all', seen + seen', held || held', provider || provider', steps + steps')
  {
    forall n ensures StepNamed(steps + steps', n) <==> StepNamed(steps, n) || StepNamed(steps', n) {
      if StepNamed(steps, n) {
        var s :| s in steps && n in LocalNames(true, s);
        assert s in steps + steps';
      }
      if StepNamed(steps', n) {
        var s :| s in steps' && n in LocalNames(true, s);
        assert s in steps + steps';
      }
    }
    if StepHolds(steps) {
      var s :| s in steps && Holds(LocalConfigs(s, PROVIDER_ROUTE));
      assert s in steps + steps';
    }
    if StepHolds(steps') {
      var s :| s in steps' && Holds(LocalConfigs(s, PROVIDER_ROUTE));
      assert s in steps + steps';
    }
  }

  lemma {:induction false} HasLast(entries: seq<FilterEntry>)
    requires entries != []
    ensures HasProvider(entries) <==> HasProvider(entries[..|entries| - 1]) || IsProvider(entries[|entries| - 1])
  {
    var n := |entries| - 1;
    if i :| 0 <= i < |entries| && IsProvider(entries[i]) {
      assert i < n ==> entries[..n][i] == entries[i];
    }
    if i :| 0 <= i < n && IsProvider(entries[..n][i]) {
      assert entries[i] == entries[..n][i];
    }
  }

  lemma {:induction false} LocalSplit(entries: seq<FilterEntry>)
    ensures Splits(LocalNames(true, entries), LocalNames(false, entries), Holds(LocalConfigs(entries, PROVIDER_ROUTE)),
                   LocallySeen(entries), LocalSteps(entries))
    decreases entries, 1
  {
    if entries != [] {
      var before, e := entries[..|entries| - 1], entries[|entries| - 1];
      LocalSplit(before);
      EntrySplit(e);
      HasLast(entries);
      SplitsBoth(LocalNames(true, before), LocalNames(false, before), Holds(LocalConfigs(before, PROVIDER_ROUTE)),
                 LocallySeen(before), LocalSteps(before),
                 EntryNames(true, e), EntryNames(false, e), Holds(EntryConfigs(e, PROVIDER_ROUTE)),
                 IsProvider(e) || EntryProvider(e), EntrySteps(e));
    }
  }

  /** An entry's own filter and its steps. */
  lemma {:induction false} OwnSplit(e: FilterEntry)
    ensures var router := e.filterType == ROUTER;
            Splits(if router then LocalNames(true, e.steps) else {}, {},
                   Holds(OwnConfig(e, PROVIDER_ROUTE)
                         + if router then LocalConfigs(e.steps, PROVIDER_ROUTE) else multiset{}),
                   IsProvider(e), if router then {e.steps} else {})
  {
    assert IsProvider(e) ==> e.config in OwnConfig(e, PROVIDER_ROUTE);
    if e.filterType == ROUTER {
      assert e.steps in {e.steps};
    }
  }

  lemma {:induction false} EntrySplit(e: FilterEntry)
    ensures Splits(EntryNames(true, e), EntryNames(false, e), Holds(EntryConfigs(e, PROVIDER_ROUTE)),
                   IsProvider(e) || EntryProvider(e), EntrySteps(e))
    decreases e, 0
  {
    var router := e.filterType == ROUTER;
    var own := OwnConfig(e, PROVIDER_ROUTE) + if router then LocalConfigs(e.steps, PROVIDER_ROUTE) else multiset{};
    OwnSplit(e);
    BranchesSplit(e.branches);
    SplitsBoth(if router then LocalNames(true, e.steps) else {}, {}, Holds(own),
               IsProvider(e), if router then {e.steps} else {},
               BranchNames(true, e.branches), BranchNames(false, e.branches),
               Holds(BranchConfigs(e.branches, PROVIDER_ROUTE)), BranchProvider(e.branches), BranchSteps(e.branches));
    assert {} + BranchNames(false, e.branches) == EntryNames(false, e);
    assert EntryConfigs(e, PROVIDER_ROUTE) == own + BranchConfigs(e.branches, PROVIDER_ROUTE);
  }

  lemma {:induction false} BranchesSplit(branches: seq<ChainRef>)
    ensures Splits(BranchNames(true, branches), BranchNames(false, branches),
                   Holds(BranchConfigs(branches, PROVIDER_ROUTE)), BranchProvider(branches), BranchSteps(branches))
    decreases branches, 1
  {
    if branches != [] {
      var before, b := branches[..|branches| - 1], branches[|branches| - 1];
      BranchesSplit(before);
      RefSplit(b);
      SplitsBoth(BranchNames(true, before), BranchNames(false, before), Holds(BranchConfigs(before, PROVIDER_ROUTE)),
                 BranchProvider(before), BranchSteps(before),
                 RefNames(true, b), RefNames(false, b), Holds(RefConfigs(b, PROVIDER_ROUTE)),
                 RefProvider(b), RefSteps(b));
    }
  }

  lemma {:induction false} RefSplit(branch: ChainRef)
    ensures Splits(RefNames(true, branch), RefNames(false, branch), Holds(RefConfigs(branch, PROVIDER_ROUTE)),
                   RefProvider(branch), RefSteps(branch))
    decreases branch, 0
  {
    if branch.Inline? {
      LocalSplit(branch.filters);
    }
  }

  // ------------------------------------------------------ through named chains

  /** Discovery from the entries would collect a provider's config. */
  ghost predicate Discovered(entries: seq<FilterEntry>, chains: Chains)
  {
    || Holds(LocalConfigs(entries, PROVIDER_ROUTE))
    || exists n ::
         Reachable(true, chains, LocalNames(true, entries), n) && Holds(ChainConfigs(chains, n, PROVIDER_ROUTE))
  }

  /** The boundary sees a provider among the entries or in a branch. */
  ghost predicate Seen(entries: seq<FilterEntry>, chains: Chains)
  {
    HasProvider(entries) || ProviderInBranch(entries, chains)
  }

  ghost function ChainSteps(chains: Chains, n: string): set<seq<FilterEntry>>
  {
    if n in chains then LocalSteps(chains[n]) else {}
  }

  /** One of the step lists leads discovery to a provider. */
  ghost predicate Leads(steps: set<seq<FilterEntry>>, chains: Chains)
  {
    exists s :: s in steps && Discovered(s, chains)
  }

  /** The boundary's own walk passes by a router whose steps lead to a provider. */
  ghost predicate BehindStep(entries: seq<FilterEntry>, chains: Chains)
  {
    || Leads(LocalSteps(entries), chains)
    || exists n :: Reachable(false, chains, LocalNames(false, entries), n) && Leads(ChainSteps(chains, n), chains)
  }

  lemma {:induction false} ChainSplit(chains: Chains, n: string)
    ensures Splits(ChainNames(true, chains, n), ChainNames(false, chains, n),
                   Holds(ChainConfigs(chains, n, PROVIDER_ROUTE)), ChainProvider(chains, n), ChainSteps(chains, n))
  {
    if n in chains {
      LocalSplit(chains[n]);
    }
  }

  /** A name or a config behind a step makes the step lead to a provider. */
  lemma {:induction false} StepLeads(steps: set<seq<FilterEntry>>, chains: Chains, path: seq<string>)
    requires path != [] && StepNamed(steps, path[0]) && IsPath(true, chains, {path[0]}, path)
    requires Holds(ChainConfigs(chains, path[|path| - 1], PROVIDER_ROUTE))
    ensures Leads(steps, chains)
  {
    var s :| s in steps && path[0] in LocalNames(true, s);
    assert IsPath(true, chains, LocalNames(true, s), path);
    assert Reachable(true, chains, LocalNames(true, s), path[|path| - 1]);
    assert Discovered(s, chains);
  }

  lemma {:induction false} HeldLeads(steps: set<seq<FilterEntry>>, chains: Chains)
    requires StepHolds(steps)
    ensures Leads(steps, chains)
  {
    var s :| s in steps && Holds(LocalConfigs(s, PROVIDER_ROUTE));
    assert Discovered(s, chains);
  }

  /** Discovery's path to a provider, followed to its first edge out of a step:
      up to there the boundary walks along. */
  lemma {:induction false} FirstStepEdge(entries: seq<FilterEntry>, chains: Chains, path: seq<string>, i: nat)
    requires i < |path| && IsPath(true, chains, LocalNames(true, entries), path)
    requires IsPath(false, chains, LocalNames(false, entries), path[..i + 1])
    requires Holds(ChainConfigs(chains, path[|path| - 1], PROVIDER_ROUTE))
    ensures Seen(entries, chains) || BehindStep(entries, chains)
    decreases |path| - i
  {
    var n := path[i];
    assert path[..i + 1][i] == n && Reachable(false, chains, LocalNames(false, entries), n);
    ChainSplit(chains, n);
    if i == |path| - 1 {
      if StepHolds(ChainSteps(chains, n)) {
        HeldLeads(ChainSteps(chains, n), chains);
      }
    } else if path[i + 1] in ChainNames(false, chains, n) {
      NextOnPath(chains, LocalNames(false, entries), path, i);
      FirstStepEdge(entries, chains, path, i + 1);
    } else {
      assert path[i + 1] in ChainNames(true, chains, path[i]);
      RestOfPath(chains, LocalNames(true, entries), path, i + 1);
      assert path[i + 1..][|path| - i - 2] == path[|path| - 1];
      StepLeads(ChainSteps(chains, n), chains, path[i + 1..]);
    }
  }

  lemma {:induction false} NextOnPath(chains: Chains, from: set<string>, path: seq<string>, i: nat)
    requires i + 1 < |path| && IsPath(false, chains, from, path[..i + 1])
    requires path[i + 1] in ChainNames(false, chains, path[i])
    ensures IsPath(false, chains, from, path[..i + 2])
  {
    var shorter, longer := path[..i + 1], path[..i + 2];
    forall k | 0 <= k < |longer| - 1 ensures longer[k + 1] in ChainNames(false, chains, longer[k]) {
      assert k < i ==> shorter[k + 1] in ChainNames(false, chains, shorter[k]);
    }
  }

  lemma {:induction false} RestOfPath(chains: Chains, from: set<string>, path: seq<string>, i: nat)
    requires i < |path| && IsPath(true, chains, from, path)
    ensures IsPath(true, chains, {path[i]}, path[i..])
  {
    var rest := path[i..];
    forall k | 0 <= k < |rest| - 1 ensures rest[k + 1] in ChainNames(true, chains, rest[k]) {
      assert path[i + k + 1] in ChainNames(true, chains, path[i + k]);
    }
  }

  lemma {:induction false} DiscoveredIsSplit(entries: seq<FilterEntry>, chains: Chains)
    requires Discovered(entries, chains)
    ensures Seen(entries, chains) || BehindStep(entries, chains)
  {
    LocalSplit(entries);
    if StepHolds(LocalSteps(entries)) {
      HeldLeads(LocalSteps(entries), chains);
    } else if !Holds(LocalConfigs(entries, PROVIDER_ROUTE)) {
      var n :| Reachable(true, chains, LocalNames(true, entries), n) && Holds(ChainConfigs(chains, n, PROVIDER_ROUTE));
      var path :| IsPath(true, chains, LocalNames(true, entries), path) && path[|path| - 1] == n;
      if path[0] in LocalNames(false, entries) {
        FirstStepEdge(entries, chains, path, 0);
      } else {
        RestOfPath(chains, LocalNames(true, entries), path, 0);
        assert path[0..] == path;
        StepLeads(LocalSteps(entries), chains, path);
      }
    }
  }

  // ---------------------------------------------------------------- and back

  lemma {:induction false} ReachesAsFar(chains: Chains, from: set<string>, more: set<string>, n: string)
    requires from <= more && Reachable(false, chains, from, n)
    ensures Reachable(true, chains, more, n)
  {
    var path :| IsPath(false, chains, from, path) && path[|path| - 1] == n;
    forall i | 0 <= i < |path| - 1 ensures path[i + 1] in ChainNames(true, chains, path[i]) {
      ChainSplit(chains, path[i]);
    }
    assert IsPath(true, chains, more, path);
  }

  lemma {:induction false} ReachableOn(chains: Chains, from: set<string>, n: string, m: string)
    requires Reachable(true, chains, from, n) && Reachable(true, chains, ChainNames(true, chains, n), m)
    ensures Reachable(true, chains, from, m)
  {
    var first :| IsPath(true, chains, from, first) && first[|first| - 1] == n;
    var second :| IsPath(true, chains, ChainNames(true, chains, n), second) && second[|second| - 1] == m;
    var path := first + second;
    forall i | 0 <= i < |path| - 1 ensures path[i + 1] in ChainNames(true, chains, path[i]) {
      if i < |first| - 1 {
        assert first[i + 1] in ChainNames(true, chains, first[i]);
      } else if i >= |first| {
        var k := i - |first|;
        assert second[k + 1] in ChainNames(true, chains, second[k]);
      }
    }
    assert IsPath(true, chains, from, path);
  }

  /** What a step leads to, discovery finds from where the router is: at once, or
      through a chain named there. */
  lemma {:induction false} LedTo(steps: set<seq<FilterEntry>>, chains: Chains, all: set<string>, seen: set<string>,
      held: bool, provider: bool)
    requires Splits(all, seen, held, provider, steps) && Leads(steps, chains)
    ensures held || exists n :: Reachable(true, chains, all, n) && Holds(ChainConfigs(chains, n, PROVIDER_ROUTE))
  {
    var s :| s in steps && Discovered(s, chains);
    if Holds(LocalConfigs(s, PROVIDER_ROUTE)) {
      assert StepHolds(steps);
    } else {
      var n :| Reachable(true, chains, LocalNames(true, s), n) && Holds(ChainConfigs(chains, n, PROVIDER_ROUTE));
      assert forall m | m in LocalNames(true, s) :: StepNamed(steps, m);
      ReachableMore(true, chains, LocalNames(true, s), all, n);
    }
  }

  lemma {:induction false} SeenIsDiscovered(entries: seq<FilterEntry>, chains: Chains)
    requires Seen(entries, chains)
    ensures Discovered(entries, chains)
  {
    LocalSplit(entries);
    if !LocallySeen(entries) {
      var n :| Reachable(false, chains, LocalNames(false, entries), n) && ChainProvider(chains, n);
      ReachesAsFar(chains, LocalNames(false, entries), LocalNames(true, entries), n);
      ChainSplit(chains, n);
    }
  }

  lemma {:induction false} BehindStepIsDiscovered(entries: seq<FilterEntry>, chains: Chains)
    requires BehindStep(entries, chains)
    ensures Discovered(entries, chains)
  {
    var all, seen := LocalNames(true, entries), LocalNames(false, entries);
    LocalSplit(entries);
    if Leads(LocalSteps(entries), chains) {
      LedTo(LocalSteps(entries), chains, all, seen, Holds(LocalConfigs(entries, PROVIDER_ROUTE)), LocallySeen(entries));
    } else {
      var n :| Reachable(false, chains, seen, n) && Leads(ChainSteps(chains, n), chains);
      ReachesAsFar(chains, seen, all, n);
      ChainSplit(chains, n);
      var held := Holds(ChainConfigs(chains, n, PROVIDER_ROUTE));
      LedTo(ChainSteps(chains, n), chains, ChainNames(true, chains, n), ChainNames(false, chains, n),
            held, ChainProvider(chains, n));
      if !held {
        var m :| Reachable(true, chains, ChainNames(true, chains, n), m)
                 && Holds(ChainConfigs(chains, m, PROVIDER_ROUTE));
        ReachableOn(chains, all, n, m);
      }
    }
  }

  // ------------------------------------------------------------ what is missed

  /** Store discovery finds a provider exactly when the boundary sees one or
      passes by a router whose steps lead to one, cycles or not. */
  lemma {:induction false} DiscoveredExactly(entries: seq<FilterEntry>, chains: Chains)
    ensures Discovered(entries, chains) <==> Seen(entries, chains) || BehindStep(entries, chains)
  {
    if Discovered(entries, chains) {
      DiscoveredIsSplit(entries, chains);
    }
    if Seen(entries, chains) {
      SeenIsDiscovered(entries, chains);
    }
    if BehindStep(entries, chains) {
      BehindStepIsDiscovered(entries, chains);
    }
  }

  /** The boundary accepts a pipeline from which a provider can be discovered
      without asking for client certificates, and hence for trust, exactly when
      the only providers are behind steps. */
  lemma {:induction false} BoundaryMissesExactly(entries: seq<FilterEntry>, chains: Chains)
    ensures Discovered(entries, chains) && Boundary(false, entries, ProviderInBranch(entries, chains)).Ok? <==>
            BehindStep(entries, chains) && !Seen(entries, chains)
  {
    DiscoveredExactly(entries, chains);
    BoundaryAcceptsExactly(false, entries, ProviderInBranch(entries, chains));
  }

  /** When no router passed by has steps the two walks agree. */
  lemma {:induction false} StepFreeAgree(entries: seq<FilterEntry>, chains: Chains)
    requires LocalSteps(entries) <= {[]} && forall n | n in chains :: LocalSteps(chains[n]) <= {[]}
    ensures Discovered(entries, chains) <==> Seen(entries, chains)
  {
    DiscoveredExactly(entries, chains);
    assert !Discovered([], chains);
    forall n ensures !Leads(ChainSteps(chains, n), chains) {}
  }

  /** The least input that is missed: a provider in a router's step. */
  lemma {:induction false} StepHidesProvider()
    ensures var provider := FilterEntry(PROVIDER_ROUTE, "", [], Open, [], []);
            var entries := [FilterEntry(ROUTER, "", [], Open, [provider], [])];
            && Discovered(entries, map[]) && !Seen(entries, map[])
            && Boundary(false, entries, ProviderInBranch(entries, map[])).Ok?
  {
    var provider := FilterEntry(PROVIDER_ROUTE, "", [], Open, [], []);
    var router := FilterEntry(ROUTER, "", [], Open, [provider], []);
    var entries := [router];
    assert entries[..0] == [] && [provider][..0] == [];
    assert LocalConfigs([provider], PROVIDER_ROUTE) == EntryConfigs(provider, PROVIDER_ROUTE);
    assert "" in OwnConfig(provider, PROVIDER_ROUTE);
    assert LocalConfigs(entries, PROVIDER_ROUTE) == EntryConfigs(router, PROVIDER_ROUTE);
    assert "" in LocalConfigs(entries, PROVIDER_ROUTE);
    assert !IsProvider(router) && !EntryProvider(router);
    assert !BelowProvider([]) && !BelowProvider(entries);
    assert LocalNames(false, entries) == LocalNames(false, []) + EntryNames(false, router);
    assert BranchNames(false, router.branches) == {} && EntryNames(false, router) == {};
  }
}
