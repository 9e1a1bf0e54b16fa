/** What a match means: when a template matches, what its captures rebuild, where
    they lie in the request path, and which operation wins. */
module OperationLaws {
  import opened Collections
  import opened Results
  import opened Operations

  // ------------------------------------------------------- when a template matches

  /** A literal is itself and a parameter is any non-empty segment. */
  predicate Fits(segment: string, part: Str)
  {
    if IsParameterSegment(segment) then part.text != [] else segment == part.text
  }

  /** The parameter names among the first `n` segments, in order. */
  function Names(segments: seq<string>, n: nat): seq<string>
    requires n <= |segments|
  {
    if n == 0 then []
    else if ParameterName(segments[n - 1]).Some? then Names(segments, n - 1) + [ParameterName(segments[n - 1]).value]
    else Names(segments, n - 1)
  }

  /** Captures come in template order, under the template's names. */
  ghost predicate Under(captured: seq<(string, Str)>, names: seq<string>)
  {
    |captured| == |names| && forall i | 0 <= i < |names| :: captured[i].0 == names[i]
  }

  lemma {:induction false} CaptureStep(captured: seq<(string, Str)>, names: seq<string>, name: string)
    requires Under(captured, names) && NoRepeats(names)
    ensures Lookup(captured, name).None? <==> NoRepeats(names + [name])
  {
    LookupLaw(captured, name);
    if i :| 0 <= i < |captured| && captured[i].0 == name {
      var longer := names + [name];
      assert longer[i] == longer[|names|];
    }
  }

  lemma {:induction false} FewerNames(segments: seq<string>, n: nat)
    requires n < |segments|
    ensures NoRepeats(Names(segments, n + 1)) ==> NoRepeats(Names(segments, n))
  {
    var names, more := Names(segments, n), Names(segments, n + 1);
    assert more[..|names|] == names;
  }

  /** A prefix matches exactly when every segment fits, no name repeats and the
      parameters fit in the table. */
  lemma {:induction false} CapturesLaw(segments: seq<string>, parts: seq<Str>, n: nat)
    requires n <= |segments| && n <= |parts|
    ensures Captures(segments, parts, n).Some? <==>
            && (forall i | 0 <= i < n :: Fits(segments[i], parts[i]))
            && NoRepeats(Names(segments, n)) && |Names(segments, n)| <= MAX_PATH_PARAMS
    ensures Captures(segments, parts, n).Some? ==> Under(Captures(segments, parts, n).value, Names(segments, n))
  {
    if n > 0 {
      CapturesLaw(segments, parts, n - 1);
      ParameterAgrees(segments[n - 1]);
      FewerNames(segments, n - 1);
      if Captures(segments, parts, n - 1).Some? && ParameterName(segments[n - 1]).Some? {
        CaptureStep(Captures(segments, parts, n - 1).value, Names(segments, n - 1),
          ParameterName(segments[n - 1]).value);
      }
    }
  }

  /** When a template matches a path, both ways. */
  lemma {:induction false} MatchesExactly(template: string, path: Str)
    ensures var segments, parts := TemplateSegments(template), Split(path);
            MatchTemplate(template, path).Some? <==>
            && |segments| == |parts| && (forall i | 0 <= i < |parts| :: Fits(segments[i], parts[i]))
            && NoRepeats(Names(segments, |segments|)) && |Names(segments, |segments|)| <= MAX_PATH_PARAMS
  {
    var segments, parts := TemplateSegments(template), Split(path);
    if |segments| == |parts| {
      CapturesLaw(segments, parts, |parts|);
    }
  }

  // ------------------------------------------------------- what the captures say

  lemma {:induction false} LookupKeeps<T>(pairs: seq<(string, T)>, more: (string, T), name: string)
    requires Lookup(pairs, name).Some?
    ensures Lookup(pairs + [more], name) == Lookup(pairs, name)
  {
    if pairs[0].0 != name {
      assert (pairs + [more])[1..] == pairs[1..] + [more];
      LookupKeeps(pairs[1..], more, name);
    }
  }

  lemma {:induction false} LookupLast<T>(pairs: seq<(string, T)>, more: (string, T))
    requires Lookup(pairs, more.0).None?
    ensures Lookup(pairs + [more], more.0) == Some(more.1)
  {
    if pairs != [] {
      assert (pairs + [more])[1..] == pairs[1..] + [more];
      LookupLast(pairs[1..], more);
    }
  }

  /** Parameter `i` captures the path's segment `i`. */
  lemma {:induction false} CapturedAt(segments: seq<string>, parts: seq<Str>, n: nat, i: nat)
    requires i < n <= |segments| && n <= |parts| && Captures(segments, parts, n).Some?
    ensures match ParameterName(segments[i])
            case None => segments[i] == parts[i].text
            case Some(name) => Lookup(Captures(segments, parts, n).value, name) == Some(parts[i])
  {
    var before := Captures(segments, parts, n - 1).value;
    var name := ParameterName(segments[n - 1]);
    if i < n - 1 {
      CapturedAt(segments, parts, n - 1, i);
      if name.Some? && ParameterName(segments[i]).Some? {
        LookupKeeps(before, (name.value, parts[n - 1]), ParameterName(segments[i]).value);
      }
    } else if name.Some? {
      LookupLast(before, (name.value, parts[i]));
    }
  }

  function Substituted(segment: string, captured: seq<(string, Str)>): string
  {
    match ParameterName(segment)
    case None => segment
    case Some(name) =>
      match Lookup(captured, name)
      case None => segment
      case Some(value) => value.text
  }

  function Substitute(segments: seq<string>, captured: seq<(string, Str)>): seq<string>
  {
    seq(|segments|, i requires 0 <= i < |segments| => Substituted(segments[i], captured))
  }

  /** Captures substituted into the template rebuild the path. */
  lemma {:induction false} SubstitutionRebuilds(template: string, path: Str, captured: seq<(string, Str)>)
    requires MatchTemplate(template, path) == Some(captured)
    ensures Join(Substitute(TemplateSegments(template), captured), |TemplateSegments(template)|) == path.text
  {
    var segments, parts := TemplateSegments(template), Split(path);
    forall i | 0 <= i < |segments| ensures Substitute(segments, captured)[i] == Texts(parts)[i] {
      CapturedAt(segments, parts, |parts|, i);
    }
    assert Substitute(segments, captured) == Texts(parts);
    SplitJoins(path);
  }

  // ------------------------------------------------------- where the captures lie

  lemma {:induction false} CapturesAreParts(segments: seq<string>, parts: seq<Str>, n: nat)
    requires n <= |segments| && n <= |parts| && Captures(segments, parts, n).Some?
    ensures Named(Captures(segments, parts, n).value)
    ensures forall k | 0 <= k < |Captures(segments, parts, n).value| :: Captures(segments, parts, n).value[k].1 in parts
  {
    if n > 0 {
      CapturesAreParts(segments, parts, n - 1);
      if ParameterName(segments[n - 1]).Some? {
        LookupLaw(Captures(segments, parts, n - 1).value, ParameterName(segments[n - 1]).value);
      }
    }
  }

  lemma {:induction false} NormalizedIsSlice(path: Str)
    ensures SliceOf(NormalizePath(path), path)
  {
  }

  lemma {:induction false} PartLiesInPath(path: Str, part: Str)
    requires part in Split(NormalizePath(path))
    ensures SliceOf(part, path)
  {
    var normal := NormalizePath(path);
    var k :| 0 <= k < |Split(normal)| && Split(normal)[k] == part;
    SplitSlices(normal, k);
    NormalizedIsSlice(path);
    SliceOfSlice(part, normal, path);
  }

  /** Every capture of the normalized path is a slice of the path as received. */
  lemma {:induction false} CapturesLieInPath(template: string, path: Str, captured: seq<(string, Str)>)
    requires MatchTemplate(template, NormalizePath(path)) == Some(captured)
    ensures Named(captured) && OffsetsOf(captured, path).Some?
  {
    var normal := NormalizePath(path);
    CapturesAreParts(TemplateSegments(template), Split(normal), |Split(normal)|);
    forall i | 0 <= i < |captured| ensures SliceOf(captured[i].1, path) {
      PartLiesInPath(path, captured[i].1);
    }
  }

  lemma {:induction false} RecoverAt(captured: seq<(string, Str)>, path: Str, offsets: seq<(string, Range)>, i: nat)
    requires Named(captured) && OffsetsOf(captured, path) == Some(offsets) && i < |captured|
    ensures Recover(offsets, path, captured[i].0) == Some(captured[i].1.text)
  {
    assert offsets[i] == (captured[i].0, Within(captured[i].1, path));
    assert forall k | 0 <= k < |offsets| :: offsets[k].0 == captured[k].0;
    LookupLaw(offsets, captured[i].0);
  }

  /** Offsets taken in the path as received, query and trailing slash included,
      recover exactly the captures, for every name. */
  lemma {:induction false} OffsetsRecover(template: string, path: Str, captured: seq<(string, Str)>, name: string)
    requires MatchTemplate(template, NormalizePath(path)) == Some(captured)
    ensures OffsetsOf(captured, path).Some?
    ensures Recover(OffsetsOf(captured, path).value, path, name) ==
            match Lookup(captured, name) { case None => None case Some(value) => Some(value.text) }
  {
    CapturesLieInPath(template, path, captured);
    var offsets := OffsetsOf(captured, path).value;
    LookupLaw(captured, name);
    if i :| 0 <= i < |captured| && captured[i].0 == name {
      RecoverAt(captured, path, offsets, i);
    } else {
      assert forall k | 0 <= k < |offsets| :: offsets[k].0 == captured[k].0;
      LookupLaw(offsets, name);
    }
  }

  // ------------------------------------------------------------ which operation wins

  datatype Transport = Http | WebSocket

  datatype Operation = Operation(id: string, verb: string, transport: Transport, runtimePath: string)

  function StaticCount(segments: seq<string>, n: nat): (count: nat)
    requires n <= |segments|
    ensures count <= n
    ensures count == n <==> forall i | 0 <= i < n :: !IsParameterSegment(segments[i])
  {
    if n == 0 then 0 else StaticCount(segments, n - 1) + if IsParameterSegment(segments[n - 1]) then 0 else 1
  }

  function StaticSegmentCount(template: string): nat
  {
    StaticCount(TemplateSegments(template), |TemplateSegments(template)|)
  }

  predicate Candidate(op: Operation, verb: string, path: Str, transport: Transport)
  {
    op.verb == verb && op.transport == transport && MatchTemplate(op.runtimePath, path).Some?
  }

  /** `max_by_key` over the entries that pass: the last of equal maxima. */
  function LastMax(passes: seq<bool>, rank: seq<nat>, n: nat): (best: Option<nat>)
    requires n <= |passes| == |rank|
    ensures best.Some? ==> best.value < n
  {
    if n == 0 then None
    else
      var best := LastMax(passes, rank, n - 1);
      if passes[n - 1] && (best.None? || rank[n - 1] >= rank[best.value]) then Some(n - 1) else best
  }

  lemma {:induction false} LastMaxLaw(passes: seq<bool>, rank: seq<nat>, n: nat)
    requires n <= |passes| == |rank|
    ensures match LastMax(passes, rank, n)
            case None => forall j | 0 <= j < n :: !passes[j]
            case Some(i) => passes[i] && forall j | 0 <= j < n && passes[j] ::
              rank[j] < rank[i] || (rank[j] == rank[i] && j <= i)
  {
    if n > 0 {
      LastMaxLaw(passes, rank, n - 1);
    }
  }

  function Candidates(ops: seq<Operation>, verb: string, path: Str, transport: Transport): (passes: seq<bool>)
    ensures |passes| == |ops| && forall i | 0 <= i < |ops| :: passes[i] == Candidate(ops[i], verb, path, transport)
  {
    seq(|ops|, i requires 0 <= i < |ops| => Candidate(ops[i], verb, path, transport))
  }

  function Ranks(ops: seq<Operation>): (ranks: seq<nat>)
    ensures |ranks| == |ops| && forall i | 0 <= i < |ops| :: ranks[i] == StaticSegmentCount(ops[i].runtimePath)
  {
    seq(|ops|, i requires 0 <= i < |ops| => StaticSegmentCount(ops[i].runtimePath))
  }

  datatype Matched = Matched(op: Operation, params: seq<(string, Str)>)

  function MatchOperation(ops: seq<Operation>, verb: string, path: Str, transport: Transport): Option<Matched>
  {
    var normal := NormalizePath(path);
    match LastMax(Candidates(ops, verb, normal, transport), Ranks(ops), |ops|)
    case None => None
    case Some(i) =>
      match MatchTemplate(ops[i].runtimePath, normal)
      case None => None
      case Some(params) => Some(Matched(ops[i], params))
  }

  /** Candidate `i` outranks candidate `j` or ties and comes after it. */
  predicate Outranks(ops: seq<Operation>, i: nat, j: nat)
    requires i < |ops| && j < |ops|
  {
    var a, b := StaticSegmentCount(ops[j].runtimePath), StaticSegmentCount(ops[i].runtimePath);
    a < b || (a == b && j <= i)
  }

  lemma {:induction false} WinnerAt(ops: seq<Operation>, verb: string, path: Str, transport: Transport)
    returns (winner: Option<nat>)
    ensures winner.None? ==> MatchOperation(ops, verb, path, transport).None?
                             && forall j | 0 <= j < |ops| :: !Candidate(ops[j], verb, NormalizePath(path), transport)
    ensures winner.Some? ==>
              && winner.value < |ops| && Candidate(ops[winner.value], verb, NormalizePath(path), transport)
              && (forall j | 0 <= j < |ops| && Candidate(ops[j], verb, NormalizePath(path), transport) ::
                  Outranks(ops, winner.value, j))
              && MatchOperation(ops, verb, path, transport) ==
                 Some(Matched(ops[winner.value],
                   MatchTemplate(ops[winner.value].runtimePath, NormalizePath(path)).value))
  {
    var passes, ranks := Candidates(ops, verb, NormalizePath(path), transport), Ranks(ops);
    winner := LastMax(passes, ranks, |ops|);
    LastMaxLaw(passes, ranks, |ops|);
    if winner.Some? {
      assert Candidate(ops[winner.value], verb, NormalizePath(path), transport);
      forall j | 0 <= j < |ops| && Candidate(ops[j], verb, NormalizePath(path), transport)
        ensures Outranks(ops, winner.value, j)
      {
        assert passes[j];
      }
    } else {
      forall j | 0 <= j < |ops| ensures !Candidate(ops[j], verb, NormalizePath(path), transport) {
        assert !passes[j];
      }
    }
  }

  /** Some operation is matched exactly when one is a candidate, and it has as
      many literal segments as any, the last such in declaration order. */
  lemma {:induction false} WinnerIsMostLiteral(ops: seq<Operation>, verb: string, path: Str, transport: Transport)
    ensures var normal := NormalizePath(path);
            match MatchOperation(ops, verb, path, transport)
            case None => forall j | 0 <= j < |ops| :: !Candidate(ops[j], verb, normal, transport)
            case Some(matched) =>
              exists i :: 0 <= i < |ops| && ops[i] == matched.op && Candidate(ops[i], verb, normal, transport)
                          && Some(matched.params) == MatchTemplate(ops[i].runtimePath, normal)
                          && forall j | 0 <= j < |ops| && Candidate(ops[j], verb, normal, transport) ::
                              Outranks(ops, i, j)
  {
    var winner := WinnerAt(ops, verb, path, transport);
  }

  predicate IsLiteral(template: string)
  {
    forall i | 0 <= i < |TemplateSegments(template)| :: !IsParameterSegment(TemplateSegments(template)[i])
  }

  lemma {:induction false} NoNames(segments: seq<string>, n: nat)
    requires n <= |segments| && forall i | 0 <= i < n :: !IsParameterSegment(segments[i])
    ensures Names(segments, n) == []
  {
    if n > 0 {
      NoNames(segments, n - 1);
      ParameterAgrees(segments[n - 1]);
    }
  }

  lemma {:induction false} SameTexts(template: string, path: Str)
    requires template == path.text
    ensures TemplateSegments(template) == Texts(Split(path))
  {
  }

  /** A fully literal template matches the one path it spells. */
  lemma {:induction false} LiteralMatchesItself(template: string, path: Str)
    requires IsLiteral(template)
    ensures MatchTemplate(template, path).Some? <==> template == path.text
  {
    var segments, parts := TemplateSegments(template), Split(path);
    MatchesExactly(template, path);
    NoNames(segments, |segments|);
    if template == path.text {
      SameTexts(template, path);
      assert forall i | 0 <= i < |parts| :: segments[i] == Texts(parts)[i];
    } else if MatchTemplate(template, path).Some? {
      assert segments == Texts(parts);
      SplitJoins(path);
      SplitJoins(Str(0, template));
    }
  }

  /** A template as literal as the path is long is fully literal. */
  lemma {:induction false} AllLiteral(template: string, path: Str)
    requires MatchTemplate(template, path).Some? && StaticSegmentCount(template) >= |Split(path)|
    ensures IsLiteral(template)
  {
    MatchesExactly(template, path);
  }

  /** A fully literal template that equals the path wins in every declaration
      order: no parameter ever takes its place. */
  lemma {:induction false} LiteralWins(ops: seq<Operation>, verb: string, path: Str, transport: Transport, k: nat)
    requires k < |ops| && ops[k].verb == verb && ops[k].transport == transport
    requires IsLiteral(ops[k].runtimePath) && ops[k].runtimePath == NormalizePath(path).text
    ensures var matched := MatchOperation(ops, verb, path, transport);
            matched.Some? && matched.value.op.runtimePath == ops[k].runtimePath
  {
    var normal := NormalizePath(path);
    LiteralMatchesItself(ops[k].runtimePath, normal);
    MatchesExactly(ops[k].runtimePath, normal);
    var winner := WinnerAt(ops, verb, path, transport);
    assert Candidate(ops[k], verb, normal, transport);
    var i := winner.value;
    assert Outranks(ops, i, k);
    AllLiteral(ops[i].runtimePath, normal);
    LiteralMatchesItself(ops[i].runtimePath, normal);
  }
}
