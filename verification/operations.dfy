/** Matching a request head against an operation registry (apis/src/operation.rs).
    A borrowed string is its text and the address it starts at, one address per
    character, so that a capture is a slice of the request path. */
module Operations {
  import opened Results

  const MAX_PATH_PARAMS: nat := 4

  datatype Str = Str(start: nat, text: string) {
    /** The part from `from` to `to`, in the same memory. */
    function Slice(from: nat, to: nat): Str
      requires from <= to <= |text|
    {
      Str(start + from, text[from..to])
    }
  }

  /** `part` lies inside `whole` and reads the same there. */
  predicate SliceOf(part: Str, whole: Str)
  {
    && whole.start <= part.start && part.start + |part.text| <= whole.start + |whole.text|
    && whole.text[part.start - whole.start..part.start - whole.start + |part.text|] == part.text
  }

  lemma {:induction false} PartOfPart(text: string, j: nat, m: nat, i: nat, n: nat)
    requires j <= m <= |text| && i <= n <= m - j
    ensures text[j..m][i..n] == text[j + i..j + n]
  {
    var part, direct := text[j..m][i..n], text[j + i..j + n];
    assert |part| == |direct| == n - i;
    forall k | 0 <= k < n - i ensures part[k] == direct[k] {
      assert part[k] == text[j..m][i + k] == text[j + i + k];
    }
  }

  lemma {:induction false} SliceOfSlice(a: Str, b: Str, c: Str)
    requires SliceOf(a, b) && SliceOf(b, c)
    ensures SliceOf(a, c)
  {
    var i, j := a.start - b.start, b.start - c.start;
    PartOfPart(c.text, j, j + |b.text|, i, i + |a.text|);
  }

  // ---------------------------------------------------------------- splitting

  function IndexOf(text: string, c: char): (i: nat)
    ensures i <= |text| && (forall k | 0 <= k < i :: text[k] != c) && (i < |text| ==> text[i] == c)
  {
    if text == [] || text[0] == c then 0 else 1 + IndexOf(text[1..], c)
  }

  /** Where the first `n` characters have separators. */
  function Cuts(text: string, n: nat): seq<nat>
    requires n <= |text|
  {
    if n == 0 then [] else if text[n - 1] == '/' then Cuts(text, n - 1) + [n - 1] else Cuts(text, n - 1)
  }

  lemma {:induction false} CutAt(text: string, n: nat, i: nat)
    requires n <= |text| && i < |Cuts(text, n)|
    ensures Cuts(text, n)[i] < n && text[Cuts(text, n)[i]] == '/'
    ensures i > 0 ==> Cuts(text, n)[i - 1] < Cuts(text, n)[i]
  {
    if i < |Cuts(text, n - 1)| {
      CutAt(text, n - 1, i);
    } else if i > 0 {
      CutAt(text, n - 1, i - 1);
    }
  }

  /** The text between cut `k - 1` and cut `k`, if there is one. */
  function Part(s: Str, cuts: seq<nat>, k: nat): Str
  {
    var from := if 0 < k <= |cuts| then cuts[k - 1] + 1 else 0;
    var to := if k < |cuts| then cuts[k] else |s.text|;
    if from <= to <= |s.text| then s.Slice(from, to) else s
  }

  /** `str::split('/')`: the texts between consecutive separators. */
  function Split(s: Str): (parts: seq<Str>)
    ensures parts != []
  {
    var cuts := Cuts(s.text, |s.text|);
    seq(|cuts| + 1, k requires 0 <= k <= |cuts| => Part(s, cuts, k))
  }

  /** The first `n` parts with separators between them. */
  function Join(parts: seq<string>, n: nat): string
    requires 0 < n <= |parts|
  {
    if n == 1 then parts[0] else Join(parts, n - 1) + ['/'] + parts[n - 1]
  }

  function Texts(parts: seq<Str>): seq<string>
  {
    seq(|parts|, i requires 0 <= i < |parts| => parts[i].text)
  }

  lemma {:induction false} PartAt(s: Str, k: nat)
    requires k <= |Cuts(s.text, |s.text|)|
    ensures var cuts := Cuts(s.text, |s.text|);
            var from, to := if k > 0 then cuts[k - 1] + 1 else 0, if k < |cuts| then cuts[k] else |s.text|;
            from <= to <= |s.text| && Part(s, cuts, k) == s.Slice(from, to) && (k > 0 ==> s.text[from - 1] == '/')
  {
    var cuts := Cuts(s.text, |s.text|);
    if k < |cuts| {
      CutAt(s.text, |s.text|, k);
    }
    if k > 0 {
      CutAt(s.text, |s.text|, k - 1);
    }
  }

  lemma {:induction false} Glue(text: string, cut: nat, to: nat)
    requires cut < to <= |text|
    ensures text[..to] == text[..cut] + [text[cut]] + text[cut + 1..to]
  {
  }

  lemma {:induction false} JoinFirst(s: Str, cuts: seq<nat>, k: nat)
    requires cuts == Cuts(s.text, |s.text|) && k <= |cuts| && (k < |cuts| ==> cuts[k] <= |s.text|)
    ensures Join(Texts(Split(s)), k + 1) == s.text[..if k < |cuts| then cuts[k] else |s.text|]
  {
    PartAt(s, k);
    if k > 0 {
      CutAt(s.text, |s.text|, k - 1);
      JoinFirst(s, cuts, k - 1);
      Glue(s.text, cuts[k - 1], if k < |cuts| then cuts[k] else |s.text|);
    }
  }

  /** Splitting loses nothing: joined again the parts are the text. */
  lemma {:induction false} SplitJoins(s: Str)
    ensures Join(Texts(Split(s)), |Split(s)|) == s.text
  {
    JoinFirst(s, Cuts(s.text, |s.text|), |Cuts(s.text, |s.text|)|);
  }

  /** Each part is a slice of the whole. */
  lemma {:induction false} SplitSlices(s: Str, k: nat)
    requires k < |Split(s)|
    ensures SliceOf(Split(s)[k], s)
  {
    PartAt(s, k);
  }

  /** Without the query, and without one trailing slash unless that is all. */
  function NormalizePath(path: Str): (r: Str)
    ensures r.start == path.start && r.text <= path.text && '?' !in r.text
  {
    var head := path.Slice(0, IndexOf(path.text, '?'));
    var n := |head.text|;
    if n > 1 && head.text[n - 1] == '/' then head.Slice(0, n - 1) else head
  }

  // ---------------------------------------------------------------- templates

  predicate IsParameterSegment(segment: string)
  {
    segment != [] && segment[0] == '{' && segment[|segment| - 1] == '}'
  }

  /** `strip_prefix` then `strip_suffix`. */
  function ParameterName(segment: string): Option<string>
  {
    if segment == [] || segment[0] != '{' then None
    else
      var rest := segment[1..];
      if rest == [] || rest[|rest| - 1] != '}' then None else Some(rest[..|rest| - 1])
  }

  /** The two ways of telling a parameter agree, and the name is what the braces
      enclose. */
  lemma {:induction false} ParameterAgrees(segment: string)
    ensures IsParameterSegment(segment) <==> ParameterName(segment).Some?
    ensures ParameterName(segment).Some? ==> segment == ['{'] + ParameterName(segment).value + ['}']
  {
    if segment != [] && segment[0] == '{' {
      var rest := segment[1..];
      assert segment == ['{'] + rest;
      if rest != [] {
        assert rest == rest[..|rest| - 1] + [rest[|rest| - 1]];
      }
    }
  }

  function Lookup<T>(pairs: seq<(string, T)>, name: string): Option<T>
  {
    if pairs == [] then None else if pairs[0].0 == name then Some(pairs[0].1) else Lookup(pairs[1..], name)
  }

  lemma {:induction false} LookupLaw<T>(pairs: seq<(string, T)>, name: string)
    ensures Lookup(pairs, name).None? <==> forall i | 0 <= i < |pairs| :: pairs[i].0 != name
    ensures Named(pairs) ==> forall i | 0 <= i < |pairs| && pairs[i].0 == name ::
        Lookup(pairs, name) == Some(pairs[i].1)
  {
    if pairs != [] {
      LookupLaw(pairs[1..], name);
      assert forall i | 0 < i < |pairs| :: pairs[i] == pairs[1..][i - 1];
    }
  }

  /** Every name once. */
  ghost predicate Named<T>(pairs: seq<(string, T)>)
  {
    forall i, j | 0 <= i < j < |pairs| :: pairs[i].0 != pairs[j].0
  }

  /** Name and value pairs in a fixed number of slots. */
  class Slots<T> {
    var pairs: array<(string, T)>
    var len: nat

    ghost predicate Valid()
      reads this, pairs
    {
      pairs.Length == MAX_PATH_PARAMS && len <= pairs.Length && Named(pairs[..len])
    }

    ghost function Contents(): seq<(string, T)>
      requires Valid()
      reads this, pairs
    {
      pairs[..len]
    }

    constructor (blank: T)
      ensures Valid() && Contents() == [] && fresh(pairs)
    {
      pairs := new (string, T)[MAX_PATH_PARAMS](_ => ("", blank));
      len := 0;
    }

    /** A repeated name and a full table both fail and change nothing. */
    method Insert(name: string, value: T) returns (ok: bool)
      requires Valid()
      modifies this`len, pairs
      ensures Valid() && pairs == old(pairs)
      ensures ok <==> Lookup(old(Contents()), name).None? && |old(Contents())| < MAX_PATH_PARAMS
      ensures Contents() == if ok then old(Contents()) + [(name, value)] else old(Contents())
    {
      LookupLaw(Contents(), name);
      var found := Get(name);
      if found.Some? || len >= pairs.Length {
        return false;
      }
      pairs[len] := (name, value);
      len := len + 1;
      ok := true;
    }

    method Get(name: string) returns (value: Option<T>)
      requires Valid()
      ensures value == Lookup(Contents(), name)
    {
      value := None;
      var i := 0;
      while i < len && value.None?
        invariant 0 <= i <= len
        invariant value.None? ==> Lookup(pairs[..len], name) == Lookup(pairs[i..len], name)
        invariant value.Some? ==> value == Lookup(pairs[..len], name)
      {
        assert pairs[i..len][1..] == pairs[i + 1..len];
        if pairs[i].0 == name {
          value := Some(pairs[i].1);
        }
        i := i + 1;
      }
    }
  }

  /** One segment of the template against one of the path. */
  function Capture(captured: seq<(string, Str)>, segment: string, part: Str): Option<seq<(string, Str)>>
  {
    match ParameterName(segment)
    case None => if segment == part.text then Some(captured) else None
    case Some(name) =>
      if part.text == [] || Lookup(captured, name).Some? || |captured| >= MAX_PATH_PARAMS then None
      else Some(captured + [(name, part)])
  }

  /** The captures of the first `n` segments. */
  function Captures(segments: seq<string>, parts: seq<Str>, n: nat): Option<seq<(string, Str)>>
    requires n <= |segments| && n <= |parts|
  {
    if n == 0 then Some([])
    else
      match Captures(segments, parts, n - 1)
      case None => None
      case Some(captured) => Capture(captured, segments[n - 1], parts[n - 1])
  }

  function TemplateSegments(template: string): seq<string>
  {
    Texts(Split(Str(0, template)))
  }

  function MatchTemplate(template: string, path: Str): Option<seq<(string, Str)>>
  {
    var segments, parts := TemplateSegments(template), Split(path);
    if |segments| != |parts| then None else Captures(segments, parts, |parts|)
  }

  method MatchSegments(segments: seq<string>, parts: seq<Str>) returns (params: Option<Slots<Str>>)
    ensures params.Some? <==> |segments| == |parts| && Captures(segments, parts, |parts|).Some?
    ensures params.Some? ==> params.value.Valid() && fresh(params.value) && fresh(params.value.pairs)
                             && params.value.Contents() == Captures(segments, parts, |parts|).value
  {
    var slots := new Slots<Str>(Str(0, ""));
    var ok := true;
    var i := 0;
    while i < |segments| && i < |parts| && ok
      invariant 0 <= i <= |segments| && i <= |parts|
      invariant slots.Valid() && fresh(slots) && fresh(slots.pairs)
      invariant Captures(segments, parts, i) == if ok then Some(slots.Contents()) else None
    {
      match ParameterName(segments[i]) {
        case Some(name) =>
          if parts[i].text == [] {
            ok := false;
          } else {
            ok := slots.Insert(name, parts[i]);
          }
        case None =>
          if segments[i] != parts[i].text {
            ok := false;
          }
      }
      i := i + 1;
    }
    if !ok {
      CapturesFail(segments, parts, i);
      return None;
    }
    if |segments| != |parts| {
      return None;
    }
    params := Some(slots);
  }

  method MatchPathTemplate(template: string, path: Str) returns (params: Option<Slots<Str>>)
    ensures params.Some? <==> MatchTemplate(template, path).Some?
    ensures params.Some? ==> params.value.Valid() && fresh(params.value) && fresh(params.value.pairs)
                             && params.value.Contents() == MatchTemplate(template, path).value
  {
    params := MatchSegments(TemplateSegments(template), Split(path));
  }

  lemma {:induction false} CapturesFail(segments: seq<string>, parts: seq<Str>, i: nat)
    requires i <= |segments| && i <= |parts| && Captures(segments, parts, i).None?
    ensures |segments| == |parts| ==> Captures(segments, parts, |parts|).None?
    decreases |parts| - i
  {
    if i < |segments| && i < |parts| {
      CapturesFail(segments, parts, i + 1);
    }
  }

  // ------------------------------------------------------------ byte offsets

  datatype Range = Range(start: nat, end: nat)

  function Within(part: Str, whole: Str): Range
    requires whole.start <= part.start
  {
    Range(part.start - whole.start, part.start - whole.start + |part.text|)
  }

  /** Where each value lies in `path`, when all of them do. */
  function OffsetsOf(pairs: seq<(string, Str)>, path: Str): (offsets: Option<seq<(string, Range)>>)
    ensures offsets.Some? <==> forall i | 0 <= i < |pairs| :: SliceOf(pairs[i].1, path)
    ensures offsets.Some? ==> |offsets.value| == |pairs|
    ensures offsets.Some? ==> forall i | 0 <= i < |pairs| :: offsets.value[i] == (pairs[i].0, Within(pairs[i].1, path))
  {
    if pairs == [] then Some([])
    else
      var n := |pairs| - 1;
      var before, value := OffsetsOf(pairs[..n], path), pairs[n].1;
      if before.None? || !SliceOf(value, path) then None
      else Some(before.value + [(pairs[n].0, Within(value, path))])
  }

  method OffsetsIn(params: Slots<Str>, path: Str) returns (offsets: Option<Slots<Range>>)
    requires params.Valid()
    ensures offsets.Some? <==> OffsetsOf(params.Contents(), path).Some?
    ensures offsets.Some? ==>
        && offsets.value.Valid() && fresh(offsets.value)
        && offsets.value.Contents() == OffsetsOf(params.Contents(), path).value
  {
    var slots := new Slots<Range>(Range(0, 0));
    ghost var pairs := params.Contents();
    var i := 0;
    while i < params.len
      invariant 0 <= i <= params.len && params.Valid() && params.Contents() == pairs
      invariant slots.Valid() && fresh(slots) && fresh(slots.pairs)
      invariant OffsetsOf(pairs[..i], path) == Some(slots.Contents())
    {
      var (name, value) := params.pairs[i];
      OffsetsStep(pairs, path, i, slots.Contents());
      if !SliceOf(value, path) {
        return None;
      }
      var ok := slots.Insert(name, Within(value, path));
      assert ok;
      i := i + 1;
    }
    assert pairs[..i] == pairs;
    offsets := Some(slots);
  }

  /** One more value is located, or none of the longer list is. */
  lemma {:induction false} OffsetsStep(pairs: seq<(string, Str)>, path: Str, i: nat, located: seq<(string, Range)>)
    requires i < |pairs| && Named(pairs) && OffsetsOf(pairs[..i], path) == Some(located)
    ensures SliceOf(pairs[i].1, path) ==>
        OffsetsOf(pairs[..i + 1], path) == Some(located + [(pairs[i].0, Within(pairs[i].1, path))])
    ensures !SliceOf(pairs[i].1, path) ==> OffsetsOf(pairs, path).None?
    ensures Lookup(located, pairs[i].0).None? && |located| == i
  {
    assert pairs[..i + 1][..i] == pairs[..i];
    assert forall k | 0 <= k < i :: located[k].0 == pairs[..i][k].0 == pairs[k].0;
    LookupLaw(located, pairs[i].0);
  }

  /** `PathParameterOffsets::get`. */
  function Recover(offsets: seq<(string, Range)>, path: Str, name: string): Option<string>
  {
    match Lookup(offsets, name)
    case None => None
    case Some(range) => if range.start <= range.end <= |path.text| then Some(path.text[range.start..range.end])
      else None
  }
}
