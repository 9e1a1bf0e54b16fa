/** Owner projection (apis/src/project_state_owner_headers.rs): the raw ingress
    headers are stripped and the owner's components are set in configured output
    headers, through the same queues a later callout replays. */
module Projection {
  import opened Collections
  import opened Results
  import opened Headers

  datatype Owner = Owner(tenant: string, subject: string, issuer: string)

  datatype Outputs = Outputs(tenant: Name, subject: Name, issuer: Option<Name>)

  datatype Action = Continue | Reject(status: nat)

  /** The request context, with the owner and the ingress headers that the state
      owner filter left in its extensions. */
  class HttpContext {
    var headers: Context
    var owner: Option<Owner>
    var ingress: Option<seq<Name>>

    constructor (headers: Context, owner: Option<Owner>, ingress: Option<seq<Name>>)
      ensures this.headers == headers && this.owner == owner && this.ingress == ingress
    {
      this.headers, this.owner, this.ingress := headers, owner, ingress;
    }
  }

  function Flattened(outputs: Outputs): seq<Name>
  {
    [outputs.tenant, outputs.subject] + if outputs.issuer.Some? then [outputs.issuer.value] else []
  }

  method EnsureDistinctProjectionHeaders(outputs: Outputs) returns (ok: bool)
    ensures ok <==> NoRepeats(Flattened(outputs))
  {
    var names := Flattened(outputs);
    var seen: set<Name> := {};
    ok := true;
    var i := 0;
    while i < |names| && ok
      invariant 0 <= i <= |names|
      invariant ok ==> NoRepeats(names[..i]) && seen == set k | 0 <= k < i :: names[k]
      invariant !ok ==> !NoRepeats(names)
    {
      if names[i] in seen {
        ok := false;
      } else {
        seen := seen + {names[i]};
      }
      i := i + 1;
    }
    assert ok ==> names[..i] == names;
  }

  /** The components sent to each output header. */
  function Components(outputs: Outputs, owner: Owner): seq<(Name, Value)>
  {
    [(outputs.tenant, owner.tenant), (outputs.subject, owner.subject)]
    + if outputs.issuer.Some? then [(outputs.issuer.value, owner.issuer)] else []
  }

  predicate Representable(outputs: Outputs, owner: Owner)
  {
    ValidValue(owner.tenant) && ValidValue(owner.subject) && (outputs.issuer.Some? ==> ValidValue(owner.issuer))
  }

  function Removals(names: seq<Name>): seq<Mutation>
  {
    seq(|names|, i requires 0 <= i < |names| => RemoveHeader(names[i]))
  }

  function Settings(sets: seq<(Name, Value)>): seq<Mutation>
  {
    seq(|sets|, i requires 0 <= i < |sets| => SetHeader(sets[i].0, sets[i].1))
  }

  function IngressOf(ingress: Option<seq<Name>>): seq<Name>
  {
    if ingress.Some? then ingress.value else []
  }

  /** The queues after a projection that continues. */
  function Queued(ctx: Context, ingress: seq<Name>, sets: seq<(Name, Value)>, ordered: bool): Context
  {
    ctx.(toRemove := ctx.toRemove + ingress, toSet := ctx.toSet + sets,
         preRead := if ordered then ctx.preRead + Removals(ingress) + Settings(sets) else ctx.preRead)
  }

  method StripIngressHeaders(ctx: HttpContext, ordered: bool)
    modifies ctx
    ensures ctx.headers == Queued(old(ctx.headers), IngressOf(old(ctx.ingress)), [], ordered)
    ensures ctx.owner == old(ctx.owner) && ctx.ingress == old(ctx.ingress)
  {
    if ctx.ingress.Some? {
      var names := ctx.ingress.value;
      ctx.headers := ctx.headers.(toRemove := ctx.headers.toRemove + names);
      if ordered {
        ctx.headers := ctx.headers.(preRead := ctx.headers.preRead + Removals(names));
      }
    }
  }

  method QueueProjection(ctx: HttpContext, header: Name, value: Value, ordered: bool)
    modifies ctx
    ensures ctx.headers == Queued(old(ctx.headers), [], [(header, value)], ordered)
    ensures ctx.owner == old(ctx.owner) && ctx.ingress == old(ctx.ingress)
  {
    ctx.headers := ctx.headers.(toSet := ctx.headers.toSet + [(header, value)]);
    if ordered {
      ctx.headers := ctx.headers.(preRead := ctx.headers.preRead + [SetHeader(header, value)]);
    }
  }

  /** Queuing in steps is queuing at once. */
  lemma {:induction false} QueuedTogether(ctx: Context, ingress: seq<Name>, a: seq<(Name, Value)>,
      b: seq<(Name, Value)>, ordered: bool)
    ensures Queued(Queued(ctx, ingress, a, ordered), [], b, ordered) == Queued(ctx, ingress, a + b, ordered)
  {
    var once := Queued(ctx, ingress, a + b, ordered);
    var twice := Queued(Queued(ctx, ingress, a, ordered), [], b, ordered);
    assert twice.toRemove == once.toRemove;
    assert twice.toSet == once.toSet;
    assert twice.preRead == once.preRead;
  }

  /** A rejected projection leaves every queue as it was. */
  method Project(outputs: Outputs, ctx: HttpContext, bodyPhase: bool) returns (action: Action)
    modifies ctx
    ensures ctx.owner == old(ctx.owner) && ctx.ingress == old(ctx.ingress)
    ensures action == if old(ctx.owner).None? then Reject(401)
                      else if !Representable(outputs, old(ctx.owner).value) then Reject(400)
                      else Continue
    ensures action.Reject? ==> ctx.headers == old(ctx.headers)
    ensures action.Continue? ==>
              ctx.headers ==
                Queued(old(ctx.headers), IngressOf(old(ctx.ingress)), Components(outputs, old(ctx.owner).value),
                  bodyPhase && old(ctx.headers).preRead != [])
  {
    if ctx.owner.None? {
      return Reject(401);
    }
    var owner := ctx.owner.value;
    if !ValidValue(owner.tenant) {
      return Reject(400);
    }
    if !ValidValue(owner.subject) {
      return Reject(400);
    }
    if outputs.issuer.Some? && !ValidValue(owner.issuer) {
      return Reject(400);
    }
    ghost var start, names := ctx.headers, IngressOf(ctx.ingress);
    var ordered := bodyPhase && ctx.headers.preRead != [];
    StripIngressHeaders(ctx, ordered);
    QueueProjection(ctx, outputs.tenant, owner.tenant, ordered);
    ghost var tenant, subject := [(outputs.tenant, owner.tenant)], [(outputs.subject, owner.subject)];
    QueuedTogether(start, names, [], tenant, ordered);
    assert [] + tenant == tenant;
    QueueProjection(ctx, outputs.subject, owner.subject, ordered);
    QueuedTogether(start, names, tenant, subject, ordered);
    if outputs.issuer.Some? {
      QueueProjection(ctx, outputs.issuer.value, owner.issuer, ordered);
      QueuedTogether(start, names, tenant + subject, [(outputs.issuer.value, owner.issuer)], ordered);
    }
    assert Components(outputs, owner) ==
      tenant + subject + if outputs.issuer.Some? then [(outputs.issuer.value, owner.issuer)] else [];
    action := Continue;
  }

  // --------------------------------------------------- what a callout then sees

  /** An output holds exactly its component, a stripped header that is no output
      is gone, and any other header is as it was. */
  predicate ProjectedAt(before: HeaderMap, after: HeaderMap, ingress: seq<Name>, sets: seq<(Name, Value)>, name: Name)
  {
    GetAll(after, name) ==
      match LastSet(sets, name)
      case Some(value) => [value]
      case None => if name in ingress then [] else GetAll(before, name)
  }

  ghost predicate Projected(before: HeaderMap, after: HeaderMap, ingress: seq<Name>, sets: seq<(Name, Value)>)
  {
    forall name :: ProjectedAt(before, after, ingress, sets, name)
  }

  lemma {:induction false} ReplayConcat(h: HeaderMap, a: seq<Mutation>, b: seq<Mutation>)
    ensures Replay(h, a + b) == Replay(Replay(h, a), b)
  {
    if b == [] {
      assert a + b == a;
    } else {
      assert (a + b)[..|a + b| - 1] == a + b[..|b| - 1];
      ReplayConcat(h, a, b[..|b| - 1]);
    }
  }

  lemma {:induction false} ReplayRemovals(h: HeaderMap, names: seq<Name>)
    ensures Replay(h, Removals(names)) == RemoveAll(h, names)
  {
    if names != [] {
      assert Removals(names)[..|names| - 1] == Removals(names[..|names| - 1]);
      ReplayRemovals(h, names[..|names| - 1]);
    }
  }

  lemma {:induction false} ReplaySettings(h: HeaderMap, sets: seq<(Name, Value)>)
    ensures Replay(h, Settings(sets)) == SetAll(h, sets)
  {
    if sets != [] {
      assert Settings(sets)[..|sets| - 1] == Settings(sets[..|sets| - 1]);
      ReplaySettings(h, sets[..|sets| - 1]);
    }
  }

  lemma {:induction false} OrderedViews(ctx: Context, ingress: seq<Name>, sets: seq<(Name, Value)>)
    requires ctx.preRead != []
    ensures var ctx' := Queued(ctx, ingress, sets, true);
            BodyView(ctx', ctx'.request) == SetAll(RemoveAll(BodyView(ctx, ctx.request), ingress), sets)
  {
    var base := Replay(ctx.request, ctx.prior);
    var view := Replay(base, ctx.preRead);
    ReplayConcat(base, ctx.preRead + Removals(ingress), Settings(sets));
    ReplayConcat(base, ctx.preRead, Removals(ingress));
    ReplayRemovals(view, ingress);
    ReplaySettings(RemoveAll(view, ingress), sets);
  }

  /** In ordered mode the projection is what the callout sees, whatever else is
      queued. */
  lemma {:induction false} OrderedProjection(ctx: Context, ingress: seq<Name>, sets: seq<(Name, Value)>)
    requires ctx.preRead != []
    ensures var ctx' := Queued(ctx, ingress, sets, true);
            Projected(BodyView(ctx, ctx.request), BodyView(ctx', ctx'.request), ingress, sets)
  {
    var view := BodyView(ctx, ctx.request);
    OrderedViews(ctx, ingress, sets);
    forall name ensures ProjectedAt(view, SetAll(RemoveAll(view, ingress), sets), ingress, sets, name) {
      RemovedAt(view, ingress, name);
      SetAt(RemoveAll(view, ingress), sets, name);
    }
  }

  lemma {:induction false} LastSetConcat(a: seq<(Name, Value)>, b: seq<(Name, Value)>, name: Name)
    ensures LastSet(a + b, name) == if LastSet(b, name).Some? then LastSet(b, name) else LastSet(a, name)
  {
    if b == [] {
      assert a + b == a;
    } else {
      assert (a + b)[..|a + b| - 1] == a + b[..|b| - 1];
      LastSetConcat(a, b[..|b| - 1], name);
    }
  }

  /** One header after removals and sets. */
  function Settled(ctx: Context, h: HeaderMap, name: Name): seq<Value>
  {
    match LastSet(ctx.toSet, name)
    case Some(value) => [value]
    case None => if name in ctx.toRemove then [] else GetAll(h, name)
  }

  lemma {:induction false} SettledAt(ctx: Context, h: HeaderMap, name: Name)
    ensures GetAll(SetAll(RemoveAll(h, ctx.toRemove), ctx.toSet), name) == Settled(ctx, h, name)
  {
    RemovedAt(h, ctx.toRemove, name);
    SetAt(RemoveAll(h, ctx.toRemove), ctx.toSet, name);
  }

  lemma {:induction false} SettledAfter(ctx: Context, ingress: seq<Name>, sets: seq<(Name, Value)>, h: HeaderMap,
      name: Name)
    ensures Settled(Queued(ctx, ingress, sets, false), h, name) ==
            match LastSet(sets, name)
            case Some(value) => [value]
            case None => if name in ingress && LastSet(ctx.toSet, name).None? then [] else Settled(ctx, h, name)
  {
    LastSetConcat(ctx.toSet, sets, name);
  }

  /** A stripped header that is no output is named by no queued set and by no
      valid extra. */
  predicate Unclaimed(ctx: Context, ingress: seq<Name>, sets: seq<(Name, Value)>, name: Name)
  {
    name in ingress && LastSet(sets, name).None? ==> LastSet(ctx.toSet, name).None? && ExtrasFor(ctx.extras, name) == []
  }

  predicate NoExtra(ctx: Context, sets: seq<(Name, Value)>, name: Name)
  {
    LastSet(sets, name).Some? ==> ExtrasFor(ctx.extras, name) == []
  }

  lemma {:induction false} GroupedAt(ctx: Context, h: HeaderMap, name: Name)
    ensures GetAll(AppendAll(SetAll(RemoveAll(h, ctx.toRemove), ctx.toSet), ctx.extras), name) ==
        Settled(ctx, h, name) + ExtrasFor(ctx.extras, name)
  {
    SettledAt(ctx, h, name);
    AppendedAt(SetAll(RemoveAll(h, ctx.toRemove), ctx.toSet), ctx.extras, name);
  }

  lemma {:induction false} GroupedProjectionAt(ctx: Context, ingress: seq<Name>, sets: seq<(Name, Value)>, name: Name)
    requires ctx.preRead == []
    ensures var ctx' := Queued(ctx, ingress, sets, false);
            ProjectedAt(BodyView(ctx, ctx.request), BodyView(ctx', ctx'.request), ingress, sets, name) <==>
            Unclaimed(ctx, ingress, sets, name) && NoExtra(ctx, sets, name)
  {
    var ctx', base := Queued(ctx, ingress, sets, false), Replay(ctx.request, ctx.prior);
    GroupedAt(ctx, base, name);
    GroupedAt(ctx', base, name);
    SettledAfter(ctx, ingress, sets, base, name);
  }

  /** In grouped mode the projection is what the callout sees exactly when no
      queued set or extra names a stripped header and no extra names an output. */
  lemma {:induction false} GroupedProjection(ctx: Context, ingress: seq<Name>, sets: seq<(Name, Value)>)
    requires ctx.preRead == []
    ensures var ctx' := Queued(ctx, ingress, sets, false);
            Projected(BodyView(ctx, ctx.request), BodyView(ctx', ctx'.request), ingress, sets) <==>
            (forall name :: Unclaimed(ctx, ingress, sets, name)) && (forall name :: NoExtra(ctx, sets, name))
  {
    var ctx' := Queued(ctx, ingress, sets, false);
    forall name
      ensures ProjectedAt(BodyView(ctx, ctx.request), BodyView(ctx', ctx'.request), ingress, sets, name) <==>
              Unclaimed(ctx, ingress, sets, name) && NoExtra(ctx, sets, name)
    {
      GroupedProjectionAt(ctx, ingress, sets, name);
    }
  }

  /** An extra replaces what it names, so only its last valid value counts. */
  predicate ExtraAgrees(ctx: Context, sets: seq<(Name, Value)>, name: Name)
  {
    var found := ExtrasFor(ctx.extras, name);
    LastSet(sets, name).Some? && found != [] ==> found[|found| - 1] == LastSet(sets, name).value
  }

  lemma {:induction false} ReplacedAt(ctx: Context, h: HeaderMap, name: Name)
    ensures var found := ExtrasFor(ctx.extras, name);
            GetAll(RequestView(ctx, h), name) == if found == [] then Settled(ctx, h, name) else [found[|found| - 1]]
  {
    SettledAt(ctx, h, name);
    InsertedAt(SetAll(RemoveAll(h, ctx.toRemove), ctx.toSet), ctx.extras, name);
  }

  lemma {:induction false} RequestWithoutExtra(ctx: Context, ingress: seq<Name>, sets: seq<(Name, Value)>, name: Name)
    requires ExtrasFor(ctx.extras, name) == []
    ensures var ctx' := Queued(ctx, ingress, sets, false);
            ProjectedAt(RequestView(ctx, ctx.request), RequestView(ctx', ctx'.request), ingress, sets, name) <==>
            Unclaimed(ctx, ingress, sets, name)
  {
    ReplacedAt(ctx, ctx.request, name);
    ReplacedAt(Queued(ctx, ingress, sets, false), ctx.request, name);
    SettledAfter(ctx, ingress, sets, ctx.request, name);
  }

  lemma {:induction false} RequestWithExtra(ctx: Context, ingress: seq<Name>, sets: seq<(Name, Value)>, name: Name)
    requires ExtrasFor(ctx.extras, name) != []
    ensures var ctx' := Queued(ctx, ingress, sets, false);
            ProjectedAt(RequestView(ctx, ctx.request), RequestView(ctx', ctx'.request), ingress, sets, name) <==>
            Unclaimed(ctx, ingress, sets, name) && ExtraAgrees(ctx, sets, name)
  {
    var ctx', found := Queued(ctx, ingress, sets, false), ExtrasFor(ctx.extras, name);
    ReplacedAt(ctx, ctx.request, name);
    ReplacedAt(ctx', ctx.request, name);
    assert GetAll(RequestView(ctx', ctx'.request), name) == [found[|found| - 1]] ==
      GetAll(RequestView(ctx, ctx.request), name);
  }

  lemma {:induction false} RequestProjectionAt(ctx: Context, ingress: seq<Name>, sets: seq<(Name, Value)>, name: Name)
    ensures var ctx' := Queued(ctx, ingress, sets, false);
            ProjectedAt(RequestView(ctx, ctx.request), RequestView(ctx', ctx'.request), ingress, sets, name) <==>
            Unclaimed(ctx, ingress, sets, name) && ExtraAgrees(ctx, sets, name)
  {
    if ExtrasFor(ctx.extras, name) == [] {
      RequestWithoutExtra(ctx, ingress, sets, name);
    } else {
      RequestWithExtra(ctx, ingress, sets, name);
    }
  }

  /** In the request phase the projection is what the callout sees exactly when
      no queued set or extra names a stripped header and the last extra for an
      output, if any, repeats the component. */
  lemma {:induction false} RequestProjection(ctx: Context, ingress: seq<Name>, sets: seq<(Name, Value)>)
    ensures var ctx' := Queued(ctx, ingress, sets, false);
            Projected(RequestView(ctx, ctx.request), RequestView(ctx', ctx'.request), ingress, sets) <==>
            (forall name :: Unclaimed(ctx, ingress, sets, name)) && (forall name :: ExtraAgrees(ctx, sets, name))
  {
    var ctx' := Queued(ctx, ingress, sets, false);
    forall name
      ensures ProjectedAt(RequestView(ctx, ctx.request), RequestView(ctx', ctx'.request), ingress, sets, name) <==>
              Unclaimed(ctx, ingress, sets, name) && ExtraAgrees(ctx, sets, name)
    {
      RequestProjectionAt(ctx, ingress, sets, name);
    }
  }

  /** The cases the two conditions exclude: an extra that names an output is
      appended to the component in grouped mode and replaces it in request mode. */
  lemma {:induction false} ExtraSpoilsOutput(name: Name, value: Value, extra: Value)
    requires IsName(name) && ValidValue(extra)
    ensures var ctx := Context(map[], [], [], [], [], [(name, extra)]);
            var ctx' := Queued(ctx, [], [(name, value)], false);
            && GetAll(BodyView(ctx', ctx'.request), name) == [value, extra]
            && GetAll(RequestView(ctx', ctx'.request), name) == [extra]
            && !Projected(BodyView(ctx, ctx.request), BodyView(ctx', ctx'.request), [], [(name, value)])
            && (extra != value ==>
                !Projected(RequestView(ctx, ctx.request), RequestView(ctx', ctx'.request), [], [(name, value)]))
  {
    var ctx, sets := Context(map[], [], [], [], [], [(name, extra)]), [(name, value)];
    var ctx' := Queued(ctx, [], sets, false);
    assert ctx'.toSet == sets && ctx.extras[..0] == [];
    assert ParseExtra(ctx.extras[0]) == Some((name, extra));
    assert ExtrasFor(ctx.extras, name) == [extra];
    GroupedAt(ctx', Replay(ctx'.request, ctx'.prior), name);
    ReplacedAt(ctx', ctx'.request, name);
    assert !ProjectedAt(BodyView(ctx, ctx.request), BodyView(ctx', ctx'.request), [], sets, name);
    assert extra != value ==>
      !ProjectedAt(RequestView(ctx, ctx.request), RequestView(ctx', ctx'.request), [], sets, name);
  }

  lemma {:induction false} LastSetOfDistinct(sets: seq<(Name, Value)>, name: Name)
    requires forall i, j | 0 <= i < j < |sets| :: sets[i].0 != sets[j].0
    ensures forall i | 0 <= i < |sets| && sets[i].0 == name :: LastSet(sets, name) == Some(sets[i].1)
    ensures LastSet(sets, name).Some? ==> exists i :: 0 <= i < |sets| && sets[i].0 == name
  {
    if sets != [] {
      LastSetOfDistinct(sets[..|sets| - 1], name);
    }
  }

  /** With distinct output headers each component is the one its header gets. */
  lemma {:induction false} DistinctComponents(outputs: Outputs, owner: Owner)
    requires NoRepeats(Flattened(outputs))
    ensures var sets := Components(outputs, owner);
            && LastSet(sets, outputs.tenant) == Some(owner.tenant)
            && LastSet(sets, outputs.subject) == Some(owner.subject)
            && (outputs.issuer.Some? ==> LastSet(sets, outputs.issuer.value) == Some(owner.issuer))
            && (forall name :: LastSet(sets, name).Some? <==> name in Flattened(outputs))
  {
    var names, sets := Flattened(outputs), Components(outputs, owner);
    assert forall i | 0 <= i < |sets| :: sets[i].0 == names[i];
    forall name ensures LastSet(sets, name).Some? <==> name in names {
      LastSetOfDistinct(sets, name);
    }
    LastSetOfDistinct(sets, sets[0].0);
    LastSetOfDistinct(sets, sets[1].0);
    if outputs.issuer.Some? {
      LastSetOfDistinct(sets, sets[2].0);
    }
  }
}
