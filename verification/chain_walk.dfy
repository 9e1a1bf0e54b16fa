/** Filter entries, and the depth-first walks over named chains that may be
    cyclic: store discovery (server/src/store_config.rs) and the search for
    provider consumers in branches (server/src/pipelines.rs). */
module ChainWalk {
  import opened Collections

  datatype FailureMode = Open | Closed

  /** A configured filter. `steps` are the nested filters of an iterative request
      router, `branches` its branch chains flattened in order. */
  datatype FilterEntry = FilterEntry(
    filterType: string,
    config: string,
    conditions: seq<string>,
    failureMode: FailureMode,
    steps: seq<FilterEntry>,
    branches: seq<ChainRef>)

  datatype ChainRef = Inline(filters: seq<FilterEntry>) | Named(name: string)

  type Chains = map<string, seq<FilterEntry>>

  const ROUTER := "iterative_request_router"

  // ------------------------------------------------- what a list holds itself

  /** The configs of type `wanted` in the entries, their router steps and their
      inline branches: everything reached without following a name. */
  ghost function LocalConfigs(entries: seq<FilterEntry>, wanted: string): multiset<string>
    decreases entries, 1
  {
    if entries == [] then multiset{}
    else LocalConfigs(entries[..|entries| - 1], wanted) + EntryConfigs(entries[|entries| - 1], wanted)
  }

  ghost function EntryConfigs(e: FilterEntry, wanted: string): multiset<string>
    decreases e, 0
  {
    OwnConfig(e, wanted)
    + (if e.filterType == ROUTER then LocalConfigs(e.steps, wanted) else multiset{})
    + BranchConfigs(e.branches, wanted)
  }

  ghost function OwnConfig(e: FilterEntry, wanted: string): multiset<string>
  {
    if e.filterType == wanted then multiset{e.config} else multiset{}
  }

  ghost function BranchConfigs(branches: seq<ChainRef>, wanted: string): multiset<string>
    decreases branches, 1
  {
    if branches == [] then multiset{}
    else BranchConfigs(branches[..|branches| - 1], wanted) + RefConfigs(branches[|branches| - 1], wanted)
  }

  ghost function RefConfigs(branch: ChainRef, wanted: string): multiset<string>
    decreases branch, 0
  {
    match branch
    case Inline(filters) => LocalConfigs(filters, wanted)
    case Named(_) => multiset{}
  }

  /** The chains named there; `routers` says whether router steps are followed. */
  ghost function LocalNames(routers: bool, entries: seq<FilterEntry>): set<string>
    decreases entries, 1
  {
    if entries == [] then {}
    else LocalNames(routers, entries[..|entries| - 1]) + EntryNames(routers, entries[|entries| - 1])
  }

  ghost function EntryNames(routers: bool, e: FilterEntry): set<string>
    decreases e, 0
  {
    (if routers && e.filterType == ROUTER then LocalNames(routers, e.steps) else {}) + BranchNames(routers, e.branches)
  }

  ghost function BranchNames(routers: bool, branches: seq<ChainRef>): set<string>
    decreases branches, 1
  {
    if branches == [] then {}
    else BranchNames(routers, branches[..|branches| - 1]) + RefNames(routers, branches[|branches| - 1])
  }

  ghost function RefNames(routers: bool, branch: ChainRef): set<string>
    decreases branch, 0
  {
    match branch
    case Inline(filters) => LocalNames(routers, filters)
    case Named(name) => {name}
  }

  // ------------------------------------------------------------- reachability

  ghost function ChainNames(routers: bool, chains: Chains, name: string): set<string>
  {
    if name in chains then LocalNames(routers, chains[name]) else {}
  }

  ghost function ChainConfigs(chains: Chains, name: string, wanted: string): multiset<string>
  {
    if name in chains then LocalConfigs(chains[name], wanted) else multiset{}
  }

  /** A chain of references from a name in `from` to `path`'s last name. */
  ghost predicate IsPath(routers: bool, chains: Chains, from: set<string>, path: seq<string>)
  {
    && path != [] && path[0] in from
    && forall i | 0 <= i < |path| - 1 :: path[i + 1] in ChainNames(routers, chains, path[i])
  }

  ghost predicate Reachable(routers: bool, chains: Chains, from: set<string>, name: string)
  {
    exists path :: IsPath(routers, chains, from, path) && path[|path| - 1] == name
  }

  ghost function Collected(chains: Chains, names: seq<string>, wanted: string): multiset<string>
  {
    if names == [] then multiset{}
    else Collected(chains, names[..|names| - 1], wanted) + ChainConfigs(chains, names[|names| - 1], wanted)
  }

  lemma {:induction false} CollectedConcat(chains: Chains, a: seq<string>, b: seq<string>, wanted: string)
    ensures Collected(chains, a + b, wanted) == Collected(chains, a, wanted) + Collected(chains, b, wanted)
  {
    if b == [] {
      assert a + b == a;
    } else {
      assert (a + b)[..|a + b| - 1] == a + b[..|b| - 1];
      CollectedConcat(chains, a, b[..|b| - 1], wanted);
    }
  }

  /** What a walk over something with local names `names` has done when it went
      from `visited` to `visited'`, entering the chains `order`: it entered every
      chain it met that was not visited, each once and each reachable, and
      everything met is now visited. */
  ghost predicate Walked(routers: bool, chains: Chains, names: set<string>, visited: set<string>, visited': set<string>,
      order: seq<string>)
  {
    && visited <= visited'
    && NoRepeats(order)
    && (forall n :: n in order <==> n in visited' && n !in visited)
    && names <= visited'
    && (forall n | n in order :: ChainNames(routers, chains, n) <= visited')
    && (forall n | n in order :: Reachable(routers, chains, names, n))
  }

  lemma {:induction false} ReachableMore(routers: bool, chains: Chains, from: set<string>, more: set<string>,
      name: string)
    requires Reachable(routers, chains, from, name) && from <= more
    ensures Reachable(routers, chains, more, name)
  {
    var path :| IsPath(routers, chains, from, path) && path[|path| - 1] == name;
    assert IsPath(routers, chains, more, path);
  }

  lemma {:induction false} ReachableVia(routers: bool, chains: Chains, from: set<string>, first: string, name: string)
    requires first in from && Reachable(routers, chains, ChainNames(routers, chains, first), name)
    ensures Reachable(routers, chains, from, name)
  {
    var path :| IsPath(routers, chains, ChainNames(routers, chains, first), path) && path[|path| - 1] == name;
    assert IsPath(routers, chains, from, [first] + path);
  }

  lemma {:induction false} ReachableSelf(routers: bool, chains: Chains, from: set<string>, name: string)
    requires name in from
    ensures Reachable(routers, chains, from, name)
  {
    assert IsPath(routers, chains, from, [name]);
  }

  lemma {:induction false} NoRepeatsConcat(a: seq<string>, b: seq<string>)
    requires NoRepeats(a) && NoRepeats(b) && forall n | n in b :: n !in a
    ensures NoRepeats(a + b)
  {
    forall i, j | 0 <= i < j < |a + b| ensures (a + b)[i] != (a + b)[j] {
      if i < |a| <= j {
        assert (a + b)[j] in b;
      }
    }
  }

  /** Two walks one after the other. */
  lemma {:induction false} WalkedThen(routers: bool, chains: Chains, a: set<string>, b: set<string>, v0: set<string>,
      v1: set<string>, v2: set<string>, first: seq<string>, second: seq<string>)
    requires Walked(routers, chains, a, v0, v1, first) && Walked(routers, chains, b, v1, v2, second)
    ensures Walked(routers, chains, a + b, v0, v2, first + second)
  {
    NoRepeatsConcat(first, second);
    forall n | n in first + second ensures Reachable(routers, chains, a + b, n) {
      if n in first {
        ReachableMore(routers, chains, a, a + b, n);
      } else {
        ReachableMore(routers, chains, b, a + b, n);
      }
    }
  }

  /** Entering a chain not visited before, then walking it. */
  lemma {:induction false} WalkedNamed(routers: bool, chains: Chains, name: string, visited: set<string>,
      visited': set<string>, inner: seq<string>)
    requires name !in visited
    requires Walked(routers, chains, ChainNames(routers, chains, name), visited + {name}, visited', inner)
    ensures Walked(routers, chains, {name}, visited, visited', [name] + inner)
  {
    NoRepeatsConcat([name], inner);
    forall n | n in [name] + inner ensures Reachable(routers, chains, {name}, n) {
      if n == name {
        ReachableSelf(routers, chains, {name}, name);
      } else {
        ReachableVia(routers, chains, {name}, name, n);
      }
    }
  }

  /** A walk that started with nothing visited entered exactly what is reachable. */
  lemma {:induction false} WalkedIsReachable(routers: bool, chains: Chains, names: set<string>, visited': set<string>,
      order: seq<string>, name: string)
    requires Walked(routers, chains, names, {}, visited', order)
    ensures name in order <==> Reachable(routers, chains, names, name)
  {
    if Reachable(routers, chains, names, name) {
      var path :| IsPath(routers, chains, names, path) && path[|path| - 1] == name;
      PathVisited(routers, chains, names, visited', order, path, |path| - 1);
    }
  }

  lemma {:induction false} WalkedExactly(routers: bool, chains: Chains, names: set<string>, visited': set<string>,
      order: seq<string>)
    requires Walked(routers, chains, names, {}, visited', order)
    ensures forall n :: n in order <==> Reachable(routers, chains, names, n)
  {
    forall n ensures n in order <==> Reachable(routers, chains, names, n) {
      WalkedIsReachable(routers, chains, names, visited', order, n);
    }
  }

  lemma {:induction false} PathVisited(routers: bool, chains: Chains, names: set<string>, visited': set<string>,
      order: seq<string>, path: seq<string>, i: nat)
    requires Walked(routers, chains, names, {}, visited', order) && IsPath(routers, chains, names, path) && i < |path|
    ensures path[i] in order
  {
    if i > 0 {
      PathVisited(routers, chains, names, visited', order, path, i - 1);
      assert path[i - 1 + 1] in ChainNames(routers, chains, path[i - 1]);
    }
  }

  // ------------------------------------------------------------ store discovery

  /** The chains a walk may still enter; it bounds the recursion. */
  ghost function Unvisited(chains: Chains, visited: set<string>): nat
  {
    |chains.Keys - visited|
  }

  lemma {:induction false} UnvisitedShrinks(chains: Chains, visited: set<string>, visited': set<string>)
    requires visited <= visited'
    ensures Unvisited(chains, visited') <= Unvisited(chains, visited)
    ensures (exists n :: n in chains && n in visited' && n !in visited) ==>
        Unvisited(chains, visited') < Unvisited(chains, visited)
  {
    var a, b := chains.Keys - visited, chains.Keys - visited';
    assert b <= a;
    SubsetSize(b, a);
  }

  /** The state a walk threads through: the visited names and what was found. */
  datatype Walk = Walk(visited: set<string>, found: seq<string>)

  /** A walk over local `names` and `configs` went from `w` to `w'`: it found the
      local configs, and once each those of every chain it entered. */
  ghost predicate Gathered(chains: Chains, wanted: string, names: set<string>, configs: multiset<string>, w: Walk,
      w': Walk, order: seq<string>)
  {
    && Walked(true, chains, names, w.visited, w'.visited, order)
    && multiset(w'.found) == multiset(w.found) + configs + Collected(chains, order, wanted)
  }

  // ------------------------------------------------------- the order of a walk

  datatype Token = Config(config: string) | Name(name: string)

  /** The wanted configs and the chain names of the entries as they are written:
      an entry's own config, then its router steps, then its branches. */
  ghost function LocalTokens(entries: seq<FilterEntry>, wanted: string): seq<Token>
    decreases entries, 1
  {
    if entries == [] then []
    else LocalTokens(entries[..|entries| - 1], wanted) + EntryTokens(entries[|entries| - 1], wanted)
  }

  ghost function EntryTokens(e: FilterEntry, wanted: string): seq<Token>
    decreases e, 0
  {
    OwnToken(e, wanted) + (if e.filterType == ROUTER then LocalTokens(e.steps, wanted) else []) +
      BranchTokens(e.branches, wanted)
  }

  ghost function OwnToken(e: FilterEntry, wanted: string): seq<Token>
  {
    if e.filterType == wanted then [Config(e.config)] else []
  }

  ghost function BranchTokens(branches: seq<ChainRef>, wanted: string): seq<Token>
    decreases branches, 1
  {
    if branches == [] then []
    else BranchTokens(branches[..|branches| - 1], wanted) + RefTokens(branches[|branches| - 1], wanted)
  }

  ghost function RefTokens(branch: ChainRef, wanted: string): seq<Token>
    decreases branch, 0
  {
    match branch
    case Inline(filters) => LocalTokens(filters, wanted)
    case Named(name) => [Name(name)]
  }

  /** The configs in reading order: a name met for the first time is replaced on
      the spot by what its chain says, and a name met again by nothing. */
  ghost function Reading(chains: Chains, wanted: string, tokens: seq<Token>, visited: set<string>): seq<string>
    decreases Unvisited(chains, visited), |tokens|
  {
    if tokens == [] then []
    else
      match tokens[0]
      case Config(config) => [config] + Reading(chains, wanted, tokens[1..], visited)
      case Name(name) =>
        if name in visited then Reading(chains, wanted, tokens[1..], visited)
        else
          UnvisitedShrinks(chains, visited, visited + {name});
          if name in chains then
            Reading(chains, wanted, LocalTokens(chains[name], wanted) + tokens[1..], visited + {name})
          else Reading(chains, wanted, tokens[1..], visited + {name})
  }

  /** A walk from `w` to `w'` read `tokens`: whatever follows them is read next. */
  ghost predicate Reads(chains: Chains, wanted: string, tokens: seq<Token>, w: Walk, w': Walk)
  {
    && w.found <= w'.found
    && forall rest ::
        Reading(chains, wanted, tokens + rest, w.visited) ==
          w'.found[|w.found|..] + Reading(chains, wanted, rest, w'.visited)
  }

  lemma {:induction false} ReadsNothing(chains: Chains, wanted: string, w: Walk)
    ensures Reads(chains, wanted, [], w, w)
  {
    forall rest: seq<Token>
      ensures Reading(chains, wanted, [] + rest, w.visited) ==
          w.found[|w.found|..] + Reading(chains, wanted, rest, w.visited)
    {
      assert [] + rest == rest;
    }
  }

  lemma {:induction false} ReadsOwn(chains: Chains, wanted: string, e: FilterEntry, w: Walk)
    ensures Reads(chains, wanted, OwnToken(e, wanted), w,
                  if e.filterType == wanted then w.(found := w.found + [e.config]) else w)
  {
    if e.filterType == wanted {
      forall rest: seq<Token>
        ensures Reading(chains, wanted, [Config(e.config)] + rest, w.visited) ==
            (w.found + [e.config])[|w.found|..] + Reading(chains, wanted, rest, w.visited)
      {
        assert ([Config(e.config)] + rest)[1..] == rest;
        assert (w.found + [e.config])[|w.found|..] == [e.config];
      }
    } else {
      ReadsNothing(chains, wanted, w);
    }
  }

  lemma {:induction false} ReadsThen(chains: Chains, wanted: string, a: seq<Token>, b: seq<Token>, w0: Walk, w1: Walk,
      w2: Walk)
    requires Reads(chains, wanted, a, w0, w1) && Reads(chains, wanted, b, w1, w2)
    ensures Reads(chains, wanted, a + b, w0, w2)
  {
    assert w2.found[|w0.found|..] == w1.found[|w0.found|..] + w2.found[|w1.found|..];
    forall rest: seq<Token>
      ensures Reading(chains, wanted, a + b + rest, w0.visited) ==
          w2.found[|w0.found|..] + Reading(chains, wanted, rest, w2.visited)
    {
      Regroup(a, b, rest);
      var first, second, after := w1.found[|w0.found|..], w2.found[|w1.found|..],
        Reading(chains, wanted, rest, w2.visited);
      assert Reading(chains, wanted, a + (b + rest), w0.visited) ==
        first + Reading(chains, wanted, b + rest, w1.visited);
      assert first + (second + after) == first + second + after;
    }
  }

  lemma {:induction false} Regroup<T>(a: seq<T>, b: seq<T>, c: seq<T>)
    ensures a + b + c == a + (b + c)
  {
  }

  lemma {:induction false} ReadsNamed(chains: Chains, wanted: string, name: string, w: Walk, w': Walk)
    requires name !in w.visited
    requires Reads(chains, wanted, if name in chains then LocalTokens(chains[name], wanted)
      else [], w.(visited := w.visited + {name}), w')
    ensures Reads(chains, wanted, [Name(name)], w, w')
  {
    var inner := if name in chains then LocalTokens(chains[name], wanted) else [];
    forall rest: seq<Token>
      ensures Reading(chains, wanted, [Name(name)] + rest, w.visited) ==
          w'.found[|w.found|..] + Reading(chains, wanted, rest, w'.visited)
    {
      assert ([Name(name)] + rest)[1..] == rest;
      assert [] + rest == rest;
      assert Reading(chains, wanted, [Name(name)] + rest, w.visited) ==
        Reading(chains, wanted, inner + rest, w.visited + {name});
    }
  }

  lemma {:induction false} ReadsAgain(chains: Chains, wanted: string, name: string, w: Walk)
    requires name in w.visited
    ensures Reads(chains, wanted, [Name(name)], w, w)
  {
    forall rest: seq<Token>
      ensures Reading(chains, wanted, [Name(name)] + rest, w.visited) ==
          w.found[|w.found|..] + Reading(chains, wanted, rest, w.visited)
    {
      assert ([Name(name)] + rest)[1..] == rest;
    }
  }

  lemma {:induction false} GatheredNothing(chains: Chains, wanted: string, w: Walk)
    ensures Gathered(chains, wanted, {}, multiset{}, w, w, [])
  {
  }

  lemma {:induction false} GatheredOwn(chains: Chains, wanted: string, e: FilterEntry, w: Walk)
    ensures Gathered(chains, wanted, {}, OwnConfig(e, wanted), w,
                     if e.filterType == wanted then w.(found := w.found + [e.config]) else w, [])
  {
  }

  lemma {:induction false} GatheredThen(chains: Chains, wanted: string, a: set<string>, b: set<string>,
      ca: multiset<string>, cb: multiset<string>, w0: Walk, w1: Walk, w2: Walk, first: seq<string>, second: seq<string>)
    requires Gathered(chains, wanted, a, ca, w0, w1, first) && Gathered(chains, wanted, b, cb, w1, w2, second)
    ensures Gathered(chains, wanted, a + b, ca + cb, w0, w2, first + second)
  {
    WalkedThen(true, chains, a, b, w0.visited, w1.visited, w2.visited, first, second);
    CollectedConcat(chains, first, second, wanted);
  }

  lemma {:induction false} GatheredNamed(chains: Chains, wanted: string, name: string, w: Walk, w': Walk,
      inner: seq<string>)
    requires name !in w.visited
    requires Gathered(chains, wanted, ChainNames(true, chains, name), ChainConfigs(chains, name, wanted),
        w.(visited := w.visited + {name}), w', inner)
    ensures Gathered(chains, wanted, {name}, multiset{}, w, w', [name] + inner)
  {
    WalkedNamed(true, chains, name, w.visited, w'.visited, inner);
    CollectedConcat(chains, [name], inner, wanted);
    assert Collected(chains, [name][..0], wanted) == multiset{};
  }

  /** Collect the wanted configs reachable from `entries`, in reading order. */
  method CollectStoreConfigs(entries: seq<FilterEntry>, chains: Chains, wanted: string, w: Walk)
    returns (w': Walk, ghost order: seq<string>)
    ensures Gathered(chains, wanted, LocalNames(true, entries), LocalConfigs(entries, wanted), w, w', order)
    ensures Reads(chains, wanted, LocalTokens(entries, wanted), w, w')
    decreases Unvisited(chains, w.visited), entries, 1
  {
    w', order := w, [];
    GatheredNothing(chains, wanted, w);
    ReadsNothing(chains, wanted, w);
    var i := 0;
    while i < |entries|
      invariant 0 <= i <= |entries|
      invariant Gathered(chains, wanted, LocalNames(true, entries[..i]), LocalConfigs(entries[..i], wanted), w, w',
          order)
      invariant Reads(chains, wanted, LocalTokens(entries[..i], wanted), w, w')
    {
      UnvisitedShrinks(chains, w.visited, w'.visited);
      ghost var inner;
      ghost var before := w';
      w', inner := CollectEntry(entries[i], chains, wanted, w');
      NextEntry(chains, wanted, entries, i, w, before, w', order, inner);
      order := order + inner;
      i := i + 1;
    }
    assert entries[..|entries|] == entries;
  }

  method CollectEntry(e: FilterEntry, chains: Chains, wanted: string, w: Walk)
    returns (w': Walk, ghost order: seq<string>)
    ensures Gathered(chains, wanted, EntryNames(true, e), EntryConfigs(e, wanted), w, w', order)
    ensures Reads(chains, wanted, EntryTokens(e, wanted), w, w')
    decreases Unvisited(chains, w.visited), e, 0
  {
    var start := if e.filterType == wanted then w.(found := w.found + [e.config]) else w;
    ghost var inner;
    var between;
    between, order := CollectSteps(e, chains, wanted, start);
    UnvisitedShrinks(chains, w.visited, between.visited);
    w', inner := CollectBranches(e.branches, chains, wanted, between);
    GatheredEntry(chains, wanted, e, w, start, between, w', order, inner);
    ReadsEntry(chains, wanted, e, w, start, between, w');
    order := order + inner;
  }

  lemma {:induction false} NextEntry(chains: Chains, wanted: string, entries: seq<FilterEntry>, i: nat, w: Walk,
      before: Walk, w': Walk, order: seq<string>, inner: seq<string>)
    requires i < |entries|
    requires Gathered(chains, wanted, LocalNames(true, entries[..i]), LocalConfigs(entries[..i], wanted), w, before,
        order)
    requires Gathered(chains, wanted, EntryNames(true, entries[i]), EntryConfigs(entries[i], wanted), before, w', inner)
    requires Reads(chains, wanted, LocalTokens(entries[..i], wanted), w, before)
    requires Reads(chains, wanted, EntryTokens(entries[i], wanted), before, w')
    ensures Gathered(chains, wanted, LocalNames(true, entries[..i + 1]), LocalConfigs(entries[..i + 1], wanted), w, w',
        order + inner)
    ensures Reads(chains, wanted, LocalTokens(entries[..i + 1], wanted), w, w')
  {
    assert entries[..i + 1][..i] == entries[..i];
    GatheredThen(chains, wanted, LocalNames(true, entries[..i]), EntryNames(true, entries[i]),
                 LocalConfigs(entries[..i], wanted), EntryConfigs(entries[i], wanted), w, before, w', order, inner);
    ReadsThen(chains, wanted, LocalTokens(entries[..i], wanted), EntryTokens(entries[i], wanted), w, before, w');
  }

  lemma {:induction false} NextBranch(chains: Chains, wanted: string, branches: seq<ChainRef>, i: nat, w: Walk,
      before: Walk, w': Walk, order: seq<string>, inner: seq<string>)
    requires i < |branches|
    requires Gathered(chains, wanted, BranchNames(true, branches[..i]), BranchConfigs(branches[..i], wanted), w, before,
        order)
    requires Gathered(chains, wanted, RefNames(true, branches[i]), RefConfigs(branches[i], wanted), before, w', inner)
    requires Reads(chains, wanted, BranchTokens(branches[..i], wanted), w, before)
    requires Reads(chains, wanted, RefTokens(branches[i], wanted), before, w')
    ensures Gathered(chains, wanted, BranchNames(true, branches[..i + 1]), BranchConfigs(branches[..i + 1], wanted), w,
        w', order + inner)
    ensures Reads(chains, wanted, BranchTokens(branches[..i + 1], wanted), w, w')
  {
    assert branches[..i + 1][..i] == branches[..i];
    GatheredThen(chains, wanted, BranchNames(true, branches[..i]), RefNames(true, branches[i]),
                 BranchConfigs(branches[..i], wanted), RefConfigs(branches[i], wanted), w, before, w', order, inner);
    ReadsThen(chains, wanted, BranchTokens(branches[..i], wanted), RefTokens(branches[i], wanted), w, before, w');
  }

  lemma {:induction false} GatheredEntry(chains: Chains, wanted: string, e: FilterEntry, w: Walk, start: Walk,
      between: Walk, w': Walk, order: seq<string>, inner: seq<string>)
    requires start == if e.filterType == wanted then w.(found := w.found + [e.config]) else w
    requires Gathered(chains, wanted, StepNames(e), StepConfigs(e, wanted), start, between, order)
    requires Gathered(chains, wanted, BranchNames(true, e.branches), BranchConfigs(e.branches, wanted), between, w',
        inner)
    ensures Gathered(chains, wanted, EntryNames(true, e), EntryConfigs(e, wanted), w, w', order + inner)
  {
    GatheredOwn(chains, wanted, e, w);
    GatheredThen(chains, wanted, {}, StepNames(e), OwnConfig(e, wanted), StepConfigs(e, wanted), w, start, between, [],
      order);
    assert {} + StepNames(e) == StepNames(e) && [] + order == order;
    GatheredThen(chains, wanted, StepNames(e), BranchNames(true, e.branches), OwnConfig(e, wanted) +
      StepConfigs(e, wanted), BranchConfigs(e.branches, wanted), w, between, w', order, inner);
  }

  lemma {:induction false} ReadsEntry(chains: Chains, wanted: string, e: FilterEntry, w: Walk, start: Walk,
      between: Walk, w': Walk)
    requires start == if e.filterType == wanted then w.(found := w.found + [e.config]) else w
    requires Reads(chains, wanted, StepTokens(e, wanted), start, between)
    requires Reads(chains, wanted, BranchTokens(e.branches, wanted), between, w')
    ensures Reads(chains, wanted, EntryTokens(e, wanted), w, w')
  {
    ReadsOwn(chains, wanted, e, w);
    ReadsThen(chains, wanted, OwnToken(e, wanted), StepTokens(e, wanted), w, start, between);
    ReadsThen(chains, wanted, OwnToken(e, wanted) +
      StepTokens(e, wanted), BranchTokens(e.branches, wanted), w, between, w');
  }

  /** What the router steps of an entry hold, if it is a router. */
  ghost function StepNames(e: FilterEntry): set<string>
  {
    if e.filterType == ROUTER then LocalNames(true, e.steps) else {}
  }

  ghost function StepConfigs(e: FilterEntry, wanted: string): multiset<string>
  {
    if e.filterType == ROUTER then LocalConfigs(e.steps, wanted) else multiset{}
  }

  ghost function StepTokens(e: FilterEntry, wanted: string): seq<Token>
  {
    if e.filterType == ROUTER then LocalTokens(e.steps, wanted) else []
  }

  method CollectSteps(e: FilterEntry, chains: Chains, wanted: string, w: Walk)
    returns (w': Walk, ghost order: seq<string>)
    ensures Gathered(chains, wanted, StepNames(e), StepConfigs(e, wanted), w, w', order)
    ensures Reads(chains, wanted, StepTokens(e, wanted), w, w')
    decreases Unvisited(chains, w.visited), e.steps, 2
  {
    w', order := w, [];
    GatheredNothing(chains, wanted, w);
    ReadsNothing(chains, wanted, w);
    if e.filterType == ROUTER {
      w', order := CollectStoreConfigs(e.steps, chains, wanted, w);
    }
  }

  method CollectBranches(branches: seq<ChainRef>, chains: Chains, wanted: string, w: Walk)
    returns (w': Walk, ghost order: seq<string>)
    ensures Gathered(chains, wanted, BranchNames(true, branches), BranchConfigs(branches, wanted), w, w', order)
    ensures Reads(chains, wanted, BranchTokens(branches, wanted), w, w')
    decreases Unvisited(chains, w.visited), branches, 1
  {
    w', order := w, [];
    GatheredNothing(chains, wanted, w);
    ReadsNothing(chains, wanted, w);
    var i := 0;
    while i < |branches|
      invariant 0 <= i <= |branches|
      invariant Gathered(chains, wanted, BranchNames(true, branches[..i]), BranchConfigs(branches[..i], wanted), w, w',
          order)
      invariant Reads(chains, wanted, BranchTokens(branches[..i], wanted), w, w')
    {
      UnvisitedShrinks(chains, w.visited, w'.visited);
      ghost var inner;
      ghost var before := w';
      w', inner := CollectBranch(branches[i], chains, wanted, w');
      NextBranch(chains, wanted, branches, i, w, before, w', order, inner);
      order := order + inner;
      i := i + 1;
    }
    assert branches[..|branches|] == branches;
  }

  method CollectBranch(branch: ChainRef, chains: Chains, wanted: string, w: Walk)
    returns (w': Walk, ghost order: seq<string>)
    ensures Gathered(chains, wanted, RefNames(true, branch), RefConfigs(branch, wanted), w, w', order)
    ensures Reads(chains, wanted, RefTokens(branch, wanted), w, w')
    decreases Unvisited(chains, w.visited), branch, 0
  {
    match branch
    case Inline(filters) =>
      w', order := CollectStoreConfigs(filters, chains, wanted, w);
    case Named(name) =>
      w', order := w, [];
      if name in w.visited {
        ReadsAgain(chains, wanted, name, w);
      } else {
        w' := w.(visited := w.visited + {name});
        ReadsNothing(chains, wanted, w');
        if name in chains {
          UnvisitedShrinks(chains, w.visited, w'.visited);
          w', order := CollectStoreConfigs(chains[name], chains, wanted, w');
        }
        GatheredNamed(chains, wanted, name, w, w', order);
        ReadsNamed(chains, wanted, name, w, w');
        order := [name] + order;
      }
  }

  ghost function NameSet(names: seq<string>): set<string>
  {
    set n | n in names
  }

  ghost function NameTokens(names: seq<string>): seq<Token>
  {
    if names == [] then [] else NameTokens(names[..|names| - 1]) + [Name(names[|names| - 1])]
  }

  /** `order` lists the chains reachable from the listener, each once, and
      `found` is what they hold. */
  ghost predicate FoundIn(listener: seq<string>, chains: Chains, wanted: string, found: seq<string>, order: seq<string>)
  {
    && NoRepeats(order) && (forall n :: n in order <==> Reachable(true, chains, NameSet(listener), n))
    && multiset(found) == Collected(chains, order, wanted)
  }

  lemma {:induction false} NextName(chains: Chains, wanted: string, listener: seq<string>, i: nat, w: Walk,
      before: Walk, w': Walk, order: seq<string>, inner: seq<string>)
    requires i < |listener|
    requires Gathered(chains, wanted, NameSet(listener[..i]), multiset{}, w, before, order)
    requires Gathered(chains, wanted, {listener[i]}, multiset{}, before, w', inner)
    requires Reads(chains, wanted, NameTokens(listener[..i]), w, before)
    requires Reads(chains, wanted, [Name(listener[i])], before, w')
    ensures Gathered(chains, wanted, NameSet(listener[..i + 1]), multiset{}, w, w', order + inner)
    ensures Reads(chains, wanted, NameTokens(listener[..i + 1]), w, w')
  {
    assert listener[..i + 1] == listener[..i] + [listener[i]] && listener[..i + 1][..i] == listener[..i];
    assert NameSet(listener[..i + 1]) == NameSet(listener[..i]) + {listener[i]};
    GatheredThen(chains, wanted, NameSet(listener[..i]), {listener[i]}, multiset{}, multiset{}, w, before, w', order,
      inner);
    ReadsThen(chains, wanted, NameTokens(listener[..i]), [Name(listener[i])], w, before, w');
  }

  lemma {:induction false} ReadsAll(chains: Chains, wanted: string, tokens: seq<Token>, w: Walk)
    requires Reads(chains, wanted, tokens, Walk({}, []), w)
    ensures w.found == Reading(chains, wanted, tokens, {})
  {
    assert tokens + [] == tokens;
    assert w.found[0..] == w.found;
  }

  method WalkListener(listener: seq<string>, chains: Chains, wanted: string)
    returns (found: seq<string>, ghost order: seq<string>)
    ensures FoundIn(listener, chains, wanted, found, order)
    ensures found == Reading(chains, wanted, NameTokens(listener), {})
  {
    ghost var start := Walk({}, []);
    var w := Walk({}, []);
    order := [];
    GatheredNothing(chains, wanted, w);
    ReadsNothing(chains, wanted, w);
    var i := 0;
    while i < |listener|
      invariant 0 <= i <= |listener|
      invariant Gathered(chains, wanted, NameSet(listener[..i]), multiset{}, start, w, order)
      invariant Reads(chains, wanted, NameTokens(listener[..i]), start, w)
    {
      ghost var before := w;
      ghost var inner;
      w, inner := CollectBranch(Named(listener[i]), chains, wanted, w);
      NextName(chains, wanted, listener, i, start, before, w, order, inner);
      order := order + inner;
      i := i + 1;
    }
    assert listener[..|listener|] == listener;
    found := w.found;
    WalkedExactly(true, chains, NameSet(listener), w.visited, order);
    ReadsAll(chains, wanted, NameTokens(listener), w);
  }

  /** Find every config of one type across a listener's chains: exactly what the
      reachable chains hold, whatever the cycles among them, in reading order. */
  method FindListenerStoreConfigs(listener: seq<string>, chains: Chains, wanted: string) returns (found: seq<string>)
    ensures exists order :: FoundIn(listener, chains, wanted, found, order)
    ensures found == Reading(chains, wanted, NameTokens(listener), {})
  {
    ghost var order;
    found, order := WalkListener(listener, chains, wanted);
  }
}
