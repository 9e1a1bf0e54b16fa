/** Effective request headers: the replay of queued mutations for callouts
    (apis/src/callout_headers.rs) and the per-header fast path of the state owner
    filter (apis/src/state_owner.rs). */
module Headers {
  import opened Ascii
  import opened Results

  /** A header name in its canonical, lower-case form. */
  type Name = string
  type Value = string

  /** The values of each present header, in order. */
  type HeaderMap = map<Name, seq<Value>>

  function GetAll(h: HeaderMap, name: Name): seq<Value>
  {
    if name in h then h[name] else []
  }

  function Remove(h: HeaderMap, name: Name): HeaderMap
  {
    h - {name}
  }

  function Insert(h: HeaderMap, name: Name, value: Value): HeaderMap
  {
    h[name := [value]]
  }

  function Append(h: HeaderMap, name: Name, value: Value): HeaderMap
  {
    h[name := GetAll(h, name) + [value]]
  }

  // ------------------------------------------------------- names and values

  const MAX_HEADER_NAME_LEN: nat := 65535

  /** The token characters of section 5.6.2 of RFC 9110. */
  predicate TokenChar(c: char)
  {
    'a' <= c <= 'z' || Upper(c) || '0' <= c <= '9' ||
    c in ['!', '#', '$', '%', '&', '\'', '*', '+', '-', '.', '^', '_', '`', '|', '~']
  }

  /** `HeaderName::from_bytes`. */
  function ParseName(s: string): Option<Name>
  {
    if 0 < |s| <= MAX_HEADER_NAME_LEN && (forall i | 0 <= i < |s| :: TokenChar(s[i])) then Some(Lower(s)) else None
  }

  predicate IsName(name: Name)
  {
    ParseName(name) == Some(name)
  }

  /** `HeaderValue::from_str`: no control character but the tab. */
  predicate ValidValue(s: string)
  {
    forall i | 0 <= i < |s| :: (' ' <= s[i] && s[i] != '\U{7f}') || s[i] == '\t'
  }

  /** Comparing without case accepts exactly the texts that parse to the name:
      the fast path needs no validity check of its own. */
  lemma {:induction false} CaseBlindIsParsing(text: string, header: Name)
    requires IsName(header)
    ensures EqIgnoreAsciiCase(text, header) <==> ParseName(text) == Some(header)
  {
    assert Lower(header) == header;
    forall i | 0 <= i < |header| ensures TokenChar(header[i]) && LowerChar(header[i]) == header[i] {
      assert Lower(header)[i] == LowerChar(header[i]);
    }
    if EqIgnoreAsciiCase(text, header) {
      forall i | 0 <= i < |text| ensures TokenChar(text[i]) {
        assert LowerChar(text[i]) == LowerChar(header[i]);
        assert TokenChar(header[i]);
      }
      assert Lower(text) == header;
    }
  }

  // ------------------------------------------------------------- the replay

  datatype Mutation =
    | RemoveHeader(name: Name)
    | SetHeader(name: Name, value: Value)
    | AddHeader(name: Name, text: string)

  datatype Context = Context(
    request: HeaderMap,
    prior: seq<Mutation>,
    preRead: seq<Mutation>,
    toRemove: seq<Name>,
    toSet: seq<(Name, Value)>,
    extras: seq<(string, string)>)

  function ApplyMutation(h: HeaderMap, m: Mutation): HeaderMap
  {
    match m
    case RemoveHeader(name) => Remove(h, name)
    case SetHeader(name, value) => Insert(h, name, value)
    case AddHeader(name, text) => if ValidValue(text) then Append(h, name, text) else h
  }

  function Replay(h: HeaderMap, log: seq<Mutation>): HeaderMap
  {
    if log == [] then h else ApplyMutation(Replay(h, log[..|log| - 1]), log[|log| - 1])
  }

  function RemoveAll(h: HeaderMap, names: seq<Name>): HeaderMap
  {
    if names == [] then h else Remove(RemoveAll(h, names[..|names| - 1]), names[|names| - 1])
  }

  function SetAll(h: HeaderMap, sets: seq<(Name, Value)>): HeaderMap
  {
    if sets == [] then h
    else Insert(SetAll(h, sets[..|sets| - 1]), sets[|sets| - 1].0, sets[|sets| - 1].1)
  }

  /** An extra header counts only when both its name and its value are valid. */
  function ParseExtra(extra: (string, string)): Option<(Name, Value)>
  {
    if ParseName(extra.0).Some? && ValidValue(extra.1) then Some((ParseName(extra.0).value, extra.1)) else None
  }

  function AppendAll(h: HeaderMap, extras: seq<(string, string)>): HeaderMap
  {
    if extras == [] then h
    else
      var before := AppendAll(h, extras[..|extras| - 1]);
      match ParseExtra(extras[|extras| - 1])
      case Some((name, value)) => Append(before, name, value)
      case None => before
  }

  function InsertAll(h: HeaderMap, extras: seq<(string, string)>): HeaderMap
  {
    if extras == [] then h
    else
      var before := InsertAll(h, extras[..|extras| - 1]);
      match ParseExtra(extras[|extras| - 1])
      case Some((name, value)) => Insert(before, name, value)
      case None => before
  }

  /** What a callout sees in the body phase. */
  function BodyView(ctx: Context, h: HeaderMap): HeaderMap
  {
    var base := Replay(h, ctx.prior);
    if ctx.preRead == [] then AppendAll(SetAll(RemoveAll(base, ctx.toRemove), ctx.toSet), ctx.extras)
    else Replay(base, ctx.preRead)
  }

  /** What a callout sees in the request phase. */
  function RequestView(ctx: Context, h: HeaderMap): HeaderMap
  {
    InsertAll(SetAll(RemoveAll(h, ctx.toRemove), ctx.toSet), ctx.extras)
  }

  method ApplyLog(log: seq<Mutation>, headers: HeaderMap) returns (h: HeaderMap)
    ensures h == Replay(headers, log)
  {
    h := headers;
    var i := 0;
    while i < |log|
      invariant 0 <= i <= |log| && h == Replay(headers, log[..i])
    {
      assert log[..i + 1][..i] == log[..i];
      match log[i] {
        case RemoveHeader(name) => h := h - {name};
        case SetHeader(name, value) => h := h[name := [value]];
        case AddHeader(name, text) =>
          if ValidValue(text) {
            h := Append(h, name, text);
          }
      }
      i := i + 1;
    }
    assert log[..|log|] == log;
  }

  method ApplyRemovesAndSets(ctx: Context, headers: HeaderMap) returns (h: HeaderMap)
    ensures h == SetAll(RemoveAll(headers, ctx.toRemove), ctx.toSet)
  {
    h := headers;
    var i := 0;
    while i < |ctx.toRemove|
      invariant 0 <= i <= |ctx.toRemove| && h == RemoveAll(headers, ctx.toRemove[..i])
    {
      assert ctx.toRemove[..i + 1][..i] == ctx.toRemove[..i];
      h := h - {ctx.toRemove[i]};
      i := i + 1;
    }
    assert ctx.toRemove[..|ctx.toRemove|] == ctx.toRemove;
    i := 0;
    while i < |ctx.toSet|
      invariant 0 <= i <= |ctx.toSet| && h == SetAll(RemoveAll(headers, ctx.toRemove), ctx.toSet[..i])
    {
      assert ctx.toSet[..i + 1][..i] == ctx.toSet[..i];
      var (name, value) := ctx.toSet[i];
      h := h[name := [value]];
      i := i + 1;
    }
    assert ctx.toSet[..|ctx.toSet|] == ctx.toSet;
  }

  method ApplyGrouped(ctx: Context, headers: HeaderMap) returns (h: HeaderMap)
    ensures h == AppendAll(SetAll(RemoveAll(headers, ctx.toRemove), ctx.toSet), ctx.extras)
  {
    h := ApplyRemovesAndSets(ctx, headers);
    ghost var base := h;
    var i := 0;
    while i < |ctx.extras|
      invariant 0 <= i <= |ctx.extras| && h == AppendAll(base, ctx.extras[..i])
    {
      assert ctx.extras[..i + 1][..i] == ctx.extras[..i];
      var name := ParseName(ctx.extras[i].0);
      if name.Some? && ValidValue(ctx.extras[i].1) {
        h := Append(h, name.value, ctx.extras[i].1);
      }
      i := i + 1;
    }
    assert ctx.extras[..|ctx.extras|] == ctx.extras;
  }

  method EffectiveBodyCalloutHeaders(ctx: Context, headers: HeaderMap) returns (h: HeaderMap)
    ensures h == BodyView(ctx, headers)
  {
    h := ApplyLog(ctx.prior, headers);
    if ctx.preRead == [] {
      h := ApplyGrouped(ctx, h);
    } else {
      h := ApplyLog(ctx.preRead, h);
    }
  }

  method EffectiveRequestCalloutHeaders(ctx: Context, headers: HeaderMap) returns (h: HeaderMap)
    ensures h == RequestView(ctx, headers)
  {
    h := ApplyRemovesAndSets(ctx, headers);
    ghost var base := h;
    var i := 0;
    while i < |ctx.extras|
      invariant 0 <= i <= |ctx.extras| && h == InsertAll(base, ctx.extras[..i])
    {
      assert ctx.extras[..i + 1][..i] == ctx.extras[..i];
      var name := ParseName(ctx.extras[i].0);
      if name.Some? && ValidValue(ctx.extras[i].1) {
        h := h[name.value := [ctx.extras[i].1]];
      }
      i := i + 1;
    }
    assert ctx.extras[..|ctx.extras|] == ctx.extras;
  }

  // ---------------------------------------------------------- one header's view

  function LastSet(sets: seq<(Name, Value)>, name: Name): Option<Value>
  {
    if sets == [] then None
    else if sets[|sets| - 1].0 == name then Some(sets[|sets| - 1].1)
    else LastSet(sets[..|sets| - 1], name)
  }

  function ExtrasFor(extras: seq<(string, string)>, name: Name): seq<Value>
  {
    if extras == [] then []
    else
      var before, extra := ExtrasFor(extras[..|extras| - 1], name), ParseExtra(extras[|extras| - 1]);
      if extra.Some? && extra.value.0 == name then before + [extra.value.1] else before
  }

  lemma {:induction false} RemovedAt(h: HeaderMap, names: seq<Name>, name: Name)
    ensures GetAll(RemoveAll(h, names), name) == if name in names then [] else GetAll(h, name)
  {
    if names != [] {
      RemovedAt(h, names[..|names| - 1], name);
    }
  }

  lemma {:induction false} SetAt(h: HeaderMap, sets: seq<(Name, Value)>, name: Name)
    ensures GetAll(SetAll(h, sets), name) ==
        match LastSet(sets, name) { case Some(value) => [value] case None => GetAll(h, name) }
  {
    if sets != [] {
      SetAt(h, sets[..|sets| - 1], name);
    }
  }

  lemma {:induction false} AppendedAt(h: HeaderMap, extras: seq<(string, string)>, name: Name)
    ensures GetAll(AppendAll(h, extras), name) == GetAll(h, name) + ExtrasFor(extras, name)
  {
    if extras != [] {
      AppendedAt(h, extras[..|extras| - 1], name);
    }
  }

  lemma {:induction false} InsertedAt(h: HeaderMap, extras: seq<(string, string)>, name: Name)
    ensures var found := ExtrasFor(extras, name);
            GetAll(InsertAll(h, extras), name) == if found == [] then GetAll(h, name) else [found[|found| - 1]]
  {
    if extras != [] {
      InsertedAt(h, extras[..|extras| - 1], name);
    }
  }

  // -------------------------------------------------------------- the fast path

  /** One header through the ordered log, without touching any other. */
  method OwnerLog(log: seq<Mutation>, header: Name, start: seq<Value>, ghost h: HeaderMap) returns (values: seq<Value>)
    requires start == GetAll(h, header)
    ensures values == GetAll(Replay(h, log), header)
  {
    values := start;
    var i := 0;
    while i < |log|
      invariant 0 <= i <= |log| && values == GetAll(Replay(h, log[..i]), header)
    {
      assert log[..i + 1][..i] == log[..i];
      match log[i] {
        case RemoveHeader(name) =>
          if name == header {
            values := [];
          }
        case SetHeader(name, value) =>
          if name == header {
            values := [value];
          }
        case AddHeader(name, text) =>
          if name == header && ValidValue(text) {
            values := values + [text];
          }
      }
      i := i + 1;
    }
    assert log[..|log|] == log;
  }

  method FindLastSet(sets: seq<(Name, Value)>, header: Name) returns (found: Option<Value>)
    ensures found == LastSet(sets, header)
  {
    found := None;
    var i := |sets|;
    assert sets[..i] == sets;
    while i > 0 && found.None?
      invariant 0 <= i <= |sets|
      invariant LastSet(sets, header) == if found.Some? then found else LastSet(sets[..i], header)
    {
      assert sets[..i][..i - 1] == sets[..i - 1];
      if sets[i - 1].0 == header {
        found := Some(sets[i - 1].1);
      }
      i := i - 1;
    }
  }

  method OwnerExtras(extras: seq<(string, string)>, header: Name) returns (values: seq<Value>)
    requires IsName(header)
    ensures values == ExtrasFor(extras, header)
  {
    values := [];
    var i := 0;
    while i < |extras|
      invariant 0 <= i <= |extras| && values == ExtrasFor(extras[..i], header)
    {
      assert extras[..i + 1][..i] == extras[..i];
      CaseBlindIsParsing(extras[i].0, header);
      if EqIgnoreAsciiCase(extras[i].0, header) && ValidValue(extras[i].1) {
        values := values + [extras[i].1];
      }
      i := i + 1;
    }
    assert extras[..|extras|] == extras;
  }

  method OwnerGrouped(ctx: Context, header: Name, start: seq<Value>, ghost h: HeaderMap) returns (values: seq<Value>)
    requires start == GetAll(h, header) && IsName(header)
    ensures values == GetAll(AppendAll(SetAll(RemoveAll(h, ctx.toRemove), ctx.toSet), ctx.extras), header)
  {
    values := start;
    if header in ctx.toRemove {
      values := [];
    }
    RemovedAt(h, ctx.toRemove, header);
    var last := FindLastSet(ctx.toSet, header);
    if last.Some? {
      values := [last.value];
    }
    SetAt(RemoveAll(h, ctx.toRemove), ctx.toSet, header);
    var more := OwnerExtras(ctx.extras, header);
    AppendedAt(SetAll(RemoveAll(h, ctx.toRemove), ctx.toSet), ctx.extras, header);
    values := values + more;
  }

  /** The fast path gives the ordered values that the full replay gives, for
      every context, every header and both kinds of queue. */
  method EffectiveOwnerHeaderValues(ctx: Context, header: Name, bodyPhase: bool) returns (values: seq<Value>)
    requires IsName(header)
    ensures values == GetAll(if bodyPhase then BodyView(ctx, ctx.request) else ctx.request, header)
  {
    values := GetAll(ctx.request, header);
    if !bodyPhase {
      return;
    }
    values := OwnerLog(ctx.prior, header, values, ctx.request);
    ghost var base := Replay(ctx.request, ctx.prior);
    if ctx.preRead == [] {
      values := OwnerGrouped(ctx, header, values, base);
    } else {
      values := OwnerLog(ctx.preRead, header, values, base);
    }
  }
}
