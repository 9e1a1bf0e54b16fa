/** The state owner filter (apis/src/state_owner.rs): the owner is established once
    from trusted headers, and the headers it was read from are stripped. */
module StateOwnership {
  import opened Results
  import opened Headers
  import opened Projection

  datatype ComponentSource = FromHeader(name: Name) | Fixed(value: string)

  datatype OwnerSource =
    | StaticOwner(owner: Owner)
    | TrustedHeader(name: Name)
    | TrustedComponents(tenant: ComponentSource, issuer: ComponentSource, subject: ComponentSource)

  /** What is left to the assertion decoder and the component validator. */
  datatype Rules = Rules(decode: string -> Option<Owner>, valid: string -> bool)

  function HeaderOf(source: ComponentSource): seq<Name>
  {
    if source.FromHeader? then [source.name] else []
  }

  /** The header names a source consumes. */
  function IngressHeaders(source: OwnerSource): seq<Name>
  {
    match source
    case StaticOwner(_) => []
    case TrustedHeader(name) => [name]
    case TrustedComponents(tenant, issuer, subject) => HeaderOf(tenant) + HeaderOf(issuer) + HeaderOf(subject)
  }

  // --------------------------------------- the owner, read off a whole header map

  /** The only value of a header: 401 when there is none, 400 when it repeats. */
  function OnlyValue(values: seq<Value>): Result<Value, nat>
  {
    if values == [] then Err(401) else if |values| > 1 then Err(400) else Ok(values[0])
  }

  function ComponentIn(source: ComponentSource, view: HeaderMap, rules: Rules): Result<string, nat>
  {
    match source
    case Fixed(value) => Ok(value)
    case FromHeader(name) =>
      match OnlyValue(GetAll(view, name))
      case Err(status) => Err(status)
      case Ok(value) => if rules.valid(value) then Ok(value) else Err(400)
  }

  function FromParts(tenant: string, issuer: string, subject: string, rules: Rules): Result<Owner, nat>
  {
    if rules.valid(tenant) && rules.valid(issuer) && rules.valid(subject) then Ok(Owner(tenant, subject, issuer))
    else Err(400)
  }

  /** The owner that a request with these headers asserts, or its first fault. */
  function OwnerIn(source: OwnerSource, view: HeaderMap, rules: Rules): Result<Owner, nat>
  {
    match source
    case StaticOwner(owner) => Ok(owner)
    case TrustedHeader(name) =>
      (match OnlyValue(GetAll(view, name))
       case Err(status) => Err(status)
       case Ok(value) => if rules.decode(value).Some? then Ok(rules.decode(value).value) else Err(400))
    case TrustedComponents(tenant, issuer, subject) =>
      var t, i, s := ComponentIn(tenant, view, rules), ComponentIn(issuer, view, rules),
        ComponentIn(subject, view, rules);
      if t.Err? then Err(t.error) else if i.Err? then Err(i.error) else if s.Err? then Err(s.error)
      else FromParts(t.value, i.value, s.value, rules)
  }

  /** What later stages of this phase would be shown. */
  function PhaseView(ctx: Context, bodyPhase: bool): HeaderMap
  {
    if bodyPhase then BodyView(ctx, ctx.request) else ctx.request
  }

  // ------------------------------------------------------------------ the filter

  method ResolveComponent(ctx: Context, source: ComponentSource, bodyPhase: bool, rules: Rules)
    returns (result: Result<string, nat>)
    requires source.FromHeader? ==> IsName(source.name)
    ensures result == ComponentIn(source, PhaseView(ctx, bodyPhase), rules)
  {
    if source.Fixed? {
      return Ok(source.value);
    }
    var values := EffectiveOwnerHeaderValues(ctx, source.name, bodyPhase);
    if values == [] {
      return Err(401);
    }
    if |values| > 1 {
      return Err(400);
    }
    if !rules.valid(values[0]) {
      return Err(400);
    }
    result := Ok(values[0]);
  }

  method ResolveTrustedHeader(ctx: Context, name: Name, bodyPhase: bool, rules: Rules)
    returns (result: Result<Owner, nat>)
    requires IsName(name)
    ensures result == OwnerIn(TrustedHeader(name), PhaseView(ctx, bodyPhase), rules)
  {
    var values := EffectiveOwnerHeaderValues(ctx, name, bodyPhase);
    if values == [] {
      return Err(401);
    }
    if |values| > 1 {
      return Err(400);
    }
    var decoded := rules.decode(values[0]);
    result := if decoded.Some? then Ok(decoded.value) else Err(400);
  }

  method ResolveTrustedComponents(ctx: Context, source: OwnerSource, bodyPhase: bool, rules: Rules)
    returns (result: Result<Owner, nat>)
    requires source.TrustedComponents? && forall name | name in IngressHeaders(source) :: IsName(name)
    ensures result == OwnerIn(source, PhaseView(ctx, bodyPhase), rules)
  {
    var tenant := ResolveComponent(ctx, source.tenant, bodyPhase, rules);
    if tenant.Err? {
      return Err(tenant.error);
    }
    var issuer := ResolveComponent(ctx, source.issuer, bodyPhase, rules);
    if issuer.Err? {
      return Err(issuer.error);
    }
    var subject := ResolveComponent(ctx, source.subject, bodyPhase, rules);
    if subject.Err? {
      return Err(subject.error);
    }
    result := FromParts(tenant.value, issuer.value, subject.value, rules);
  }

  method QueueHeaderRemoval(ctx: HttpContext, names: seq<Name>, bodyPhase: bool)
    modifies ctx
    ensures ctx.headers == Queued(old(ctx.headers), names, [], bodyPhase && old(ctx.headers).preRead != [])
    ensures ctx.owner == old(ctx.owner) && ctx.ingress == old(ctx.ingress)
  {
    var ordered := bodyPhase && ctx.headers.preRead != [];
    var i := 0;
    while i < |names|
      invariant 0 <= i <= |names|
      invariant ctx.headers == Queued(old(ctx.headers), names[..i], [], ordered)
      invariant ctx.owner == old(ctx.owner) && ctx.ingress == old(ctx.ingress)
    {
      OneMoreRemoval(old(ctx.headers), names, i, ordered);
      ctx.headers := ctx.headers.(toRemove := ctx.headers.toRemove + [names[i]]);
      if ordered {
        ctx.headers := ctx.headers.(preRead := ctx.headers.preRead + [RemoveHeader(names[i])]);
      }
      i := i + 1;
    }
    assert names[..|names|] == names;
  }

  lemma {:induction false} OneMoreRemoval(ctx: Context, names: seq<Name>, i: nat, ordered: bool)
    requires i < |names|
    ensures var now := Queued(ctx, names[..i], [], ordered);
            Queued(ctx, names[..i + 1], [], ordered) ==
            now.(toRemove := now.toRemove + [names[i]],
                 preRead := if ordered then now.preRead + [RemoveHeader(names[i])] else now.preRead)
  {
    var now, next := Queued(ctx, names[..i], [], ordered), Queued(ctx, names[..i + 1], [], ordered);
    assert next.toRemove == now.toRemove + [names[i]];
    assert Removals(names[..i + 1]) == Removals(names[..i]) + [RemoveHeader(names[i])];
    assert ordered ==> next.preRead == now.preRead + [RemoveHeader(names[i])];
  }

  /** The owner is the one the whole effective header map asserts, although only
      the consumed headers are replayed; it is established at most once; and a
      rejection leaves the context as it was. */
  method Resolve(source: OwnerSource, ctx: HttpContext, bodyPhase: bool, rules: Rules) returns (action: Action)
    requires forall name | name in IngressHeaders(source) :: IsName(name)
    modifies ctx
    ensures var asserted := OwnerIn(source, PhaseView(old(ctx.headers), bodyPhase), rules);
            action == if old(ctx.owner).None? && asserted.Err? then Reject(asserted.error) else Continue
    ensures action.Reject? ==> ctx.headers == old(ctx.headers) && ctx.owner == None && ctx.ingress == old(ctx.ingress)
    ensures action.Continue? ==>
              && ctx.headers ==
                  Queued(old(ctx.headers), IngressHeaders(source), [], bodyPhase && old(ctx.headers).preRead != [])
              && if old(ctx.owner).Some? then ctx.owner == old(ctx.owner) && ctx.ingress == old(ctx.ingress)
                 else
                   && ctx.owner.Some?
                   && Ok(ctx.owner.value) == OwnerIn(source, PhaseView(old(ctx.headers), bodyPhase), rules)
                      && ctx.ingress == Some(IngressHeaders(source))
  {
    if ctx.owner.Some? {
      QueueHeaderRemoval(ctx, IngressHeaders(source), bodyPhase);
      return Continue;
    }
    var owner: Result<Owner, nat>;
    match source {
      case StaticOwner(fixed) => owner := Ok(fixed);
      case TrustedHeader(name) => owner := ResolveTrustedHeader(ctx.headers, name, bodyPhase, rules);
      case TrustedComponents(_, _, _) => owner := ResolveTrustedComponents(ctx.headers, source, bodyPhase, rules);
    }
    if owner.Err? {
      return Reject(owner.error);
    }
    ctx.owner := Some(owner.value);
    ctx.ingress := Some(IngressHeaders(source));
    QueueHeaderRemoval(ctx, IngressHeaders(source), bodyPhase);
    action := Continue;
  }

  // ---------------------------------------------- what is left of the assertion

  /** No queued set and no valid extra names the header. */
  predicate Unnamed(ctx: Context, name: Name)
  {
    LastSet(ctx.toSet, name).None? && ExtrasFor(ctx.extras, name) == []
  }

  /** After a body-phase resolution the consumed headers are gone from the
      callout view and every other header is as it was, in ordered mode always,
      and in grouped mode exactly when no queued set or extra names one of them:
      sets and extras are applied after removals. */
  lemma {:induction false} HiddenFromBody(ctx: Context, source: OwnerSource)
    ensures var names, ordered := IngressHeaders(source), ctx.preRead != [];
            var behind := Queued(ctx, names, [], ordered);
            Projected(BodyView(ctx, ctx.request), BodyView(behind, ctx.request), names, []) <==>
            ordered || forall name | name in names :: Unnamed(ctx, name)
  {
    var names := IngressHeaders(source);
    if ctx.preRead != [] {
      OrderedProjection(ctx, names, []);
    } else {
      GroupedProjection(ctx, names, []);
      UnclaimedIsUnnamed(ctx, names);
    }
  }

  /** The same in the request phase, where the queues are always grouped. */
  lemma {:induction false} HiddenFromRequest(ctx: Context, source: OwnerSource)
    ensures var names := IngressHeaders(source);
            var behind := Queued(ctx, names, [], false);
            Projected(RequestView(ctx, ctx.request), RequestView(behind, ctx.request), names, []) <==>
            forall name | name in names :: Unnamed(ctx, name)
  {
    RequestProjection(ctx, IngressHeaders(source), []);
    UnclaimedIsUnnamed(ctx, IngressHeaders(source));
  }

  lemma {:induction false} UnclaimedIsUnnamed(ctx: Context, names: seq<Name>)
    ensures (forall name :: Unclaimed(ctx, names, [], name)) <==> forall name | name in names :: Unnamed(ctx, name)
    ensures forall name :: NoExtra(ctx, [], name) && ExtraAgrees(ctx, [], name)
  {
    if forall name :: Unclaimed(ctx, names, [], name) {
      forall name | name in names ensures Unnamed(ctx, name) {
        assert Unclaimed(ctx, names, [], name);
      }
    }
  }

  /** A header is out of a later filter's sight once its removal is queued. In
      the request phase filters read the request itself, which no queue touches. */
  predicate OutOfSight(ctx: Context, name: Name, bodyPhase: bool)
  {
    if bodyPhase then ctx.preRead != [] || Unnamed(ctx, name) else GetAll(ctx.request, name) == []
  }

  /** What a filter behind reads in the phase of the resolution: a consumed header
      is gone exactly when it is out of sight, whichever source consumed it. */
  lemma {:induction false} ConsumedGoneExactly(ctx: Context, names: seq<Name>, bodyPhase: bool, name: Name)
    requires name in names
    ensures var behind := PhaseView(Queued(ctx, names, [], bodyPhase && ctx.preRead != []), bodyPhase);
            GetAll(behind, name) == [] <==> OutOfSight(ctx, name, bodyPhase)
  {
    var ctx' := Queued(ctx, names, [], bodyPhase && ctx.preRead != []);
    if bodyPhase {
      if ctx.preRead != [] {
        OrderedProjection(ctx, names, []);
        assert ProjectedAt(BodyView(ctx, ctx.request), BodyView(ctx', ctx.request), names, [], name);
      } else {
        GroupedAt(ctx', Replay(ctx.request, ctx.prior), name);
        assert ctx'.toSet == ctx.toSet;
      }
    }
  }

  /** A consumed assertion is missing for such a filter, which then answers 401,
      exactly when its header is out of sight. */
  lemma {:induction false} AssertionGoneExactly(ctx: Context, name: Name, bodyPhase: bool, rules: Rules)
    ensures var behind := PhaseView(Queued(ctx, [name], [], bodyPhase && ctx.preRead != []), bodyPhase);
            OwnerIn(TrustedHeader(name), behind, rules) == Err(401) <==> OutOfSight(ctx, name, bodyPhase)
  {
    ConsumedGoneExactly(ctx, [name], bodyPhase, name);
  }

  /** The case the condition excludes: in grouped mode an assertion queued by an
      earlier filter outlives its own removal and is read again. */
  lemma {:induction false} QueuedAssertionSurvives(name: Name, value: Value, rules: Rules)
    requires rules.decode(value).Some?
    ensures var ctx := Context(map[], [], [], [], [(name, value)], []);
            var owner := Ok(rules.decode(value).value);
            && OwnerIn(TrustedHeader(name), PhaseView(ctx, true), rules) == owner
            && OwnerIn(TrustedHeader(name), PhaseView(Queued(ctx, [name], [], false), true), rules) == owner
  {
    var ctx := Context(map[], [], [], [], [(name, value)], []);
    var ctx' := Queued(ctx, [name], [], false);
    assert ctx'.toSet == [(name, value)];
    GroupedAt(ctx, Replay(ctx.request, ctx.prior), name);
    GroupedAt(ctx', Replay(ctx'.request, ctx'.prior), name);
  }

  /** The other excluded case: in the request phase the request still carries the
      assertion, and it is read again although nothing queued names its header. */
  lemma {:induction false} RequestAssertionSurvives(name: Name, value: Value, rules: Rules)
    requires rules.decode(value).Some?
    ensures var ctx := Context(map[name := [value]], [], [], [], [], []);
            var owner := Ok(rules.decode(value).value);
            && Unnamed(ctx, name) && !OutOfSight(ctx, name, false)
            && OwnerIn(TrustedHeader(name), PhaseView(ctx, false), rules) == owner
            && OwnerIn(TrustedHeader(name), PhaseView(Queued(ctx, [name], [], false), false), rules) == owner
  {
    var ctx := Context(map[name := [value]], [], [], [], [], []);
    assert GetAll(ctx.request, name) == [value];
  }
}
