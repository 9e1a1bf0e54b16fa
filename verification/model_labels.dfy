/** Admission of model labels (filters/src/llm_metrics.rs): a snapshot read
    without a lock, a second check under the admission lock, and an exact cap on
    the distinct labels of one process. */
module ModelLabels {
  import opened Collections
  import opened Results

  const MAX_MODEL_LABELS: nat := 1024
  const OTHER := "other"
  const UNKNOWN := "unknown"

  // ------------------------------------------------------- choosing the model

  /** The metadata keys that may name the model, in order of preference. */
  const MODEL_KEYS := [
    "openai_responses_request.model",
    "openai_chat_completions_request.model",
    "anthropic_messages_request.model",
    "anthropic_messages_to_chat_completions.model",
    "model_to_header.model"]

  predicate Usable(key: string, metadata: map<string, string>, promotable: string -> bool)
  {
    key in metadata && metadata[key] != "" && promotable(metadata[key])
  }

  /** An unusable value never hides a usable one under a later key. */
  function FirstUsable(keys: seq<string>, metadata: map<string, string>, promotable: string -> bool): (model: string)
    ensures if exists i :: 0 <= i < |keys| && Usable(keys[i], metadata, promotable)
            then exists i :: 0 <= i < |keys| && Usable(keys[i], metadata, promotable) && model == metadata[keys[i]]
                             && forall j | 0 <= j < i :: !Usable(keys[j], metadata, promotable)
            else model == UNKNOWN
  {
    if keys == [] then UNKNOWN
    else if Usable(keys[0], metadata, promotable) then metadata[keys[0]]
    else
      assert forall i | 0 < i < |keys| :: keys[i] == keys[1..][i - 1];
      FirstUsable(keys[1..], metadata, promotable)
  }

  function SelectModel(metadata: map<string, string>, promotable: string -> bool): string
  {
    FirstUsable(MODEL_KEYS, metadata, promotable)
  }

  // ------------------------------------------------------------ one admission

  /** What one call does when nothing interferes: the new set and the label. */
  function Admission(admitted: set<string>, cap: nat, value: string): (set<string>, string)
  {
    if value in admitted then (admitted, value)
    else if |admitted| < cap then (admitted + {value}, value)
    else (admitted, OTHER)
  }

  /** The admitted set behind the snapshot cell. */
  class Registry {
    var admitted: set<string>

    constructor ()
      ensures admitted == {}
    {
      admitted := {};
    }

    method AdmitModelLabel(cap: nat, value: string) returns (outcome: string)
      modifies this
      ensures (admitted, outcome) == Admission(old(admitted), cap, value)
    {
      if value in admitted {
        return value;
      }
      if |admitted| < cap {
        admitted := admitted + {value};
        outcome := value;
      } else {
        outcome := OTHER;
      }
    }

    /** A call no other call interleaves with: the two checks and the swap come
        to one admission. */
    method AdmitModel(value: string) returns (outcome: string)
      modifies this
      ensures (admitted, outcome) == Admission(old(admitted), MAX_MODEL_LABELS, value)
    {
      var snapshot := admitted;
      if value in snapshot {
        return value;
      }
      var current := admitted;
      if value in current {
        return value;
      }
      if |current| >= MAX_MODEL_LABELS {
        return OTHER;
      }
      var updated := new Registry();
      updated.admitted := current;
      outcome := updated.AdmitModelLabel(MAX_MODEL_LABELS, value);
      admitted := updated.admitted;
    }

    method ResolveModel(metadata: map<string, string>, promotable: string -> bool) returns (outcome: string)
      modifies this
      ensures var model := SelectModel(metadata, promotable);
              (admitted, outcome) == if Bypasses(model) then (old(admitted), model)
                else Admission(old(admitted), MAX_MODEL_LABELS, model)
    {
      var model := SelectModel(metadata, promotable);
      if model == OTHER || model == UNKNOWN {
        return model;
      }
      outcome := AdmitModel(model);
    }
  }

  /** The two fixed labels are never admitted. */
  predicate Bypasses(model: string)
  {
    model == OTHER || model == UNKNOWN
  }

  // --------------------------------------------------------- concurrent calls

  /** Where one call stands. From `Locked` to `Leaving` it holds the lock. */
  datatype Pc =
    | Called
    | Loaded(snapshot: set<string>)
    | Missed
    | Locked
    | Cloned(current: set<string>)
    | Updated(next: set<string>, outcome: string)
    | Leaving(outcome: string)
    | Returned(outcome: string)

  datatype Call = Call(value: string, pc: Pc)

  datatype State = State(admitted: set<string>, holder: Option<nat>, calls: seq<Call>)

  datatype Action =
    | Arrive(model: string)
    | Load(c: nat)
    | Check(c: nat)
    | Acquire(c: nat)
    | Recheck(c: nat)
    | Insert(c: nat)
    | Store(c: nat)
    | Return(c: nat)

  predicate Enabled(s: State, a: Action)
  {
    if a.Arrive? then true
    else
      && a.c < |s.calls|
      && var pc := s.calls[a.c].pc;
         match a
         case Load(_) => pc.Called?
         case Check(_) => pc.Loaded?
         case Acquire(_) => pc.Missed? && s.holder.None?
         case Recheck(_) => pc.Locked?
         case Insert(_) => pc.Cloned?
         case Store(_) => pc.Updated?
         case Return(_) => pc.Leaving?
  }

  function Moved(s: State, c: nat, pc: Pc): State
    requires c < |s.calls|
  {
    s.(calls := s.calls[c := s.calls[c].(pc := pc)])
  }

  function Apply(s: State, a: Action): State
    requires Enabled(s, a)
  {
    match a
    case Arrive(model) => s.(calls := s.calls + [Call(model, if Bypasses(model) then Returned(model) else Called)])
    case Load(c) => Moved(s, c, Loaded(s.admitted))
    case Check(c) =>
      var value := s.calls[c].value;
      Moved(s, c, if value in s.calls[c].pc.snapshot then Returned(value) else Missed)
    case Acquire(c) => Moved(s, c, Locked).(holder := Some(c))
    case Recheck(c) =>
      var value := s.calls[c].value;
      Moved(s, c, if value in s.admitted then Leaving(value)
                  else if |s.admitted| >= MAX_MODEL_LABELS then Leaving(OTHER)
                  else Cloned(s.admitted))
    case Insert(c) =>
      var (next, outcome) := Admission(s.calls[c].pc.current, MAX_MODEL_LABELS, s.calls[c].value);
      Moved(s, c, Updated(next, outcome))
    case Store(c) => Moved(s, c, Leaving(s.calls[c].pc.outcome)).(admitted := s.calls[c].pc.next)
    case Return(c) => Moved(s, c, Returned(s.calls[c].pc.outcome)).(holder := None)
  }

  // ------------------------------------------------------------ the invariant

  /** Admitting `value` again would change nothing and give `outcome` again. */
  ghost predicate Settled(admitted: set<string>, value: string, outcome: string)
  {
    Admission(admitted, MAX_MODEL_LABELS, value) == (admitted, outcome)
  }

  predicate Holds(pc: Pc)
  {
    pc.Locked? || pc.Cloned? || pc.Updated? || pc.Leaving?
  }

  ghost predicate CallInv(admitted: set<string>, call: Call)
  {
    match call.pc
    case Called => !Bypasses(call.value)
    case Missed => !Bypasses(call.value)
    case Locked => !Bypasses(call.value)
    case Loaded(snapshot) => !Bypasses(call.value) && snapshot <= admitted
    case Cloned(current) =>
      !Bypasses(call.value) && current == admitted && call.value !in admitted && |admitted| < MAX_MODEL_LABELS
    case Updated(next, outcome) =>
      && !Bypasses(call.value) && call.value !in admitted && |admitted| < MAX_MODEL_LABELS
      && next == admitted + {call.value} && outcome == call.value
    case Leaving(outcome) => !Bypasses(call.value) && Settled(admitted, call.value, outcome)
    case Returned(outcome) => if Bypasses(call.value) then outcome == call.value
      else Settled(admitted, call.value, outcome)
  }

  ghost predicate Inv(s: State)
  {
    && |s.admitted| <= MAX_MODEL_LABELS
    && (s.holder.Some? ==> s.holder.value < |s.calls|)
    && (forall c | 0 <= c < |s.calls| :: CallInv(s.admitted, s.calls[c]))
    && (forall c | 0 <= c < |s.calls| :: Holds(s.calls[c].pc) <==> s.holder == Some(c))
  }

  /** A call outside the lock keeps its invariant when the lock holder stores. */
  lemma {:induction false} StoreKeepsOthers(admitted: set<string>, value: string, call: Call)
    requires CallInv(admitted, call) && |admitted| < MAX_MODEL_LABELS && !Holds(call.pc)
    ensures CallInv(admitted + {value}, call)
  {
  }

  lemma {:induction false} StepKeepsInv(s: State, a: Action)
    requires Inv(s) && Enabled(s, a)
    ensures Inv(Apply(s, a))
  {
    if a.Store? {
      forall d | 0 <= d < |s.calls| && d != a.c ensures CallInv(Apply(s, a).admitted, s.calls[d]) {
        StoreKeepsOthers(s.admitted, s.calls[a.c].value, s.calls[d]);
      }
    }
  }

  // ------------------------------------------------------------- whole runs

  datatype Run = Run(states: seq<State>, actions: seq<Action>)

  ghost predicate IsRun(r: Run)
  {
    && |r.states| == |r.actions| + 1
    && r.states[0] == State({}, None, [])
    && (forall i | 0 <= i < |r.actions| ::
        Enabled(r.states[i], r.actions[i]) && r.states[i + 1] == Apply(r.states[i], r.actions[i]))
  }

  lemma {:induction false} RunInv(r: Run, i: nat)
    requires IsRun(r) && i < |r.states|
    ensures Inv(r.states[i])
  {
    if i > 0 {
      RunInv(r, i - 1);
      StepKeepsInv(r.states[i - 1], r.actions[i - 1]);
    }
  }

  /** What one step may do to the rest of the state. */
  lemma {:induction false} StepGrows(s: State, a: Action)
    requires Inv(s) && Enabled(s, a)
    ensures s.admitted <= Apply(s, a).admitted && |s.calls| <= |Apply(s, a).calls|
    ensures forall c | 0 <= c < |s.calls| ::
              && Apply(s, a).calls[c].value == s.calls[c].value
              && (s.calls[c].pc.Returned? ==> Apply(s, a).calls[c] == s.calls[c])
  {
  }

  /** The admitted set only grows, never beyond the cap, and no label once given
      to a call is taken back. */
  lemma {:induction false} AdmittedGrows(r: Run, i: nat, j: nat)
    requires IsRun(r) && i <= j < |r.states|
    ensures r.states[i].admitted <= r.states[j].admitted && |r.states[j].admitted| <= MAX_MODEL_LABELS
    ensures |r.states[i].calls| <= |r.states[j].calls|
    ensures forall c | 0 <= c < |r.states[i].calls| && r.states[i].calls[c].pc.Returned? ::
        r.states[j].calls[c] == r.states[i].calls[c]
  {
    RunInv(r, j);
    if i < j {
      AdmittedGrows(r, i, j - 1);
      RunInv(r, j - 1);
      StepGrows(r.states[j - 1], r.actions[j - 1]);
    }
  }

  /** An admission is never lost, and `other` is given only when the cap is
      full, to values that stay outside. */
  lemma {:induction false} NoAdmissionLost(r: Run, i: nat, j: nat, c: nat)
    requires IsRun(r) && i <= j < |r.states| && c < |r.states[i].calls| && r.states[i].calls[c].pc.Returned?
    requires !Bypasses(r.states[i].calls[c].value)
    ensures var call := r.states[i].calls[c];
            if call.pc.outcome == OTHER then
              call.value !in r.states[j].admitted && |r.states[i].admitted| == MAX_MODEL_LABELS
            else call.pc.outcome == call.value && call.value in r.states[j].admitted
  {
    AdmittedGrows(r, i, j);
    RunInv(r, i);
    RunInv(r, j);
    assert CallInv(r.states[i].admitted, r.states[i].calls[c]);
    assert CallInv(r.states[j].admitted, r.states[j].calls[c]);
  }

  /** Any two calls for one value return one label, at any two moments. */
  lemma {:induction false} SameValueSameLabel(r: Run, i: nat, j: nat, c: nat, d: nat)
    requires IsRun(r) && i < |r.states| && j < |r.states|
    requires c < |r.states[i].calls| && r.states[i].calls[c].pc.Returned?
    requires d < |r.states[j].calls| && r.states[j].calls[d].pc.Returned?
    requires r.states[i].calls[c].value == r.states[j].calls[d].value
    ensures r.states[i].calls[c].pc.outcome == r.states[j].calls[d].pc.outcome
  {
    var k := if i < j then j else i;
    AdmittedGrows(r, i, k);
    AdmittedGrows(r, j, k);
    RunInv(r, k);
    assert CallInv(r.states[k].admitted, r.states[k].calls[c]);
    assert CallInv(r.states[k].admitted, r.states[k].calls[d]);
  }

  /** The labels a run has exported so far. */
  ghost function Labels(calls: seq<Call>): set<string>
  {
    set c | 0 <= c < |calls| && calls[c].pc.Returned? :: calls[c].pc.outcome
  }

  /** A run exports at most cap + 2 distinct labels. */
  lemma {:induction false} AtMostCapPlusTwo(r: Run, i: nat)
    requires IsRun(r) && i < |r.states|
    ensures |Labels(r.states[i].calls)| <= MAX_MODEL_LABELS + 2
  {
    RunInv(r, i);
    var s := r.states[i];
    forall outcome | outcome in Labels(s.calls) ensures outcome in s.admitted + {OTHER} + {UNKNOWN} {
      var c :| 0 <= c < |s.calls| && s.calls[c].pc.Returned? && s.calls[c].pc.outcome == outcome;
      assert CallInv(s.admitted, s.calls[c]);
    }
    SubsetSize(Labels(s.calls), s.admitted + {OTHER} + {UNKNOWN});
    assert |s.admitted + {OTHER}| <= |s.admitted| + 1;
  }

  // ------------------------------------------------------------ linearization

  /** Admitting the values one after another, from nothing. */
  ghost function Sequential(values: seq<string>): (set<string>, seq<string>)
  {
    if values == [] then ({}, [])
    else
      var before := Sequential(values[..|values| - 1]);
      var step := Admission(before.0, MAX_MODEL_LABELS, values[|values| - 1]);
      (step.0, before.1 + [step.1])
  }

  /** The call that takes effect in a step, if one does, and its label. */
  ghost function Effect(s: State, a: Action): Option<(nat, string)>
    requires Enabled(s, a)
  {
    match a
    case Check(c) => if s.calls[c].value in s.calls[c].pc.snapshot then Some((c, s.calls[c].value)) else None
    case Recheck(c) =>
      if s.calls[c].value in s.admitted then Some((c, s.calls[c].value))
      else if |s.admitted| >= MAX_MODEL_LABELS then Some((c, OTHER))
      else None
    case Store(c) => Some((c, s.calls[c].pc.outcome))
    case _ => None
  }

  /** The calls that have taken effect by state `i`, in that order. */
  ghost function History(r: Run, i: nat): seq<(nat, string)>
    requires IsRun(r) && i < |r.states|
  {
    if i == 0 then []
    else
      var e := Effect(r.states[i - 1], r.actions[i - 1]);
      Extended(History(r, i - 1), e)
  }

  ghost function Values(calls: seq<Call>, history: seq<(nat, string)>): seq<string>
    requires forall k | 0 <= k < |history| :: history[k].0 < |calls|
  {
    seq(|history|, k requires 0 <= k < |history| => calls[history[k].0].value)
  }

  ghost function LabelsOf(history: seq<(nat, string)>): seq<string>
  {
    seq(|history|, k requires 0 <= k < |history| => history[k].1)
  }

  /** The call that has taken effect with this label but may not be back yet. */
  predicate Took(call: Call, outcome: string)
  {
    (call.pc.Leaving? || call.pc.Returned?) && call.pc.outcome == outcome
  }

  /** One step takes effect as one uninterrupted admission. */
  lemma {:induction false} EffectIsAdmission(s: State, a: Action)
    requires Inv(s) && Enabled(s, a)
    ensures var e := Effect(s, a);
            if e.Some? then
              && e.value.0 < |s.calls|
              && Admission(s.admitted, MAX_MODEL_LABELS, s.calls[e.value.0].value) == (Apply(s, a).admitted, e.value.1)
              && Took(Apply(s, a).calls[e.value.0], e.value.1) && !Bypasses(s.calls[e.value.0].value)
            else Apply(s, a).admitted == s.admitted
  {
    if a.Check? || a.Recheck? || a.Store? {
      assert CallInv(s.admitted, s.calls[a.c]);
    }
  }

  predicate Over(call: Call)
  {
    call.pc.Leaving? || call.pc.Returned?
  }

  /** Every entry is a call that took effect with that label, each call once. */
  ghost predicate Sound(calls: seq<Call>, history: seq<(nat, string)>)
  {
    && (forall k | 0 <= k < |history| :: history[k].0 < |calls| && Took(calls[history[k].0], history[k].1))
    && (forall j, k | 0 <= j < k < |history| :: history[j].0 != history[k].0)
  }

  /** Every admitted call that is leaving or back has its entry. */
  ghost predicate Complete(calls: seq<Call>, history: seq<(nat, string)>)
  {
    forall c | 0 <= c < |calls| && Over(calls[c]) && !Bypasses(calls[c].value) ::
      exists k :: 0 <= k < |history| && history[k].0 == c
  }

  ghost function Extended(history: seq<(nat, string)>, e: Option<(nat, string)>): seq<(nat, string)>
  {
    if e.Some? then history + [e.value] else history
  }

  /** A call is over from its effect on, and only from then. */
  lemma {:induction false} OverFromEffect(s: State, a: Action, c: nat)
    requires Inv(s) && Enabled(s, a) && c < |s.calls|
    ensures Over(s.calls[c]) ==> Over(Apply(s, a).calls[c]) && Apply(s, a).calls[c].pc.outcome == s.calls[c].pc.outcome
    ensures var e := Effect(s, a);
            if e.Some? && e.value.0 == c then !Over(s.calls[c])
            else Over(Apply(s, a).calls[c]) ==> Over(s.calls[c])
  {
    assert CallInv(s.admitted, s.calls[c]);
  }

  lemma {:induction false} SoundStep(s: State, a: Action, history: seq<(nat, string)>)
    requires Inv(s) && Enabled(s, a) && Sound(s.calls, history)
    ensures Sound(Apply(s, a).calls, Extended(history, Effect(s, a)))
  {
    var e, t := Effect(s, a), Apply(s, a);
    EffectIsAdmission(s, a);
    StepGrows(s, a);
    forall k | 0 <= k < |history|
      ensures Took(t.calls[history[k].0], history[k].1) && (e.Some? ==> e.value.0 != history[k].0)
    {
      OverFromEffect(s, a, history[k].0);
    }
  }

  lemma {:induction false} CompleteStep(s: State, a: Action, history: seq<(nat, string)>)
    requires Inv(s) && Enabled(s, a) && Complete(s.calls, history)
    ensures Complete(Apply(s, a).calls, Extended(history, Effect(s, a)))
  {
    var e, t := Effect(s, a), Apply(s, a);
    var longer := Extended(history, e);
    StepGrows(s, a);
    forall c | 0 <= c < |t.calls| && Over(t.calls[c]) && !Bypasses(t.calls[c].value)
      ensures exists k :: 0 <= k < |longer| && longer[k].0 == c
    {
      if c < |s.calls| {
        OverFromEffect(s, a, c);
        if e.Some? && e.value.0 == c {
          assert longer[|history|].0 == c;
        } else {
          var k :| 0 <= k < |history| && history[k].0 == c;
          assert longer[k].0 == c;
        }
      }
    }
  }

  lemma {:induction false} SequentialStep(s: State, a: Action, history: seq<(nat, string)>)
    requires Inv(s) && Enabled(s, a) && Sound(s.calls, history)
    requires Sound(Apply(s, a).calls, Extended(history, Effect(s, a)))
    requires Sequential(Values(s.calls, history)) == (s.admitted, LabelsOf(history))
    ensures var longer := Extended(history, Effect(s, a));
            Sequential(Values(Apply(s, a).calls, longer)) == (Apply(s, a).admitted, LabelsOf(longer))
  {
    var e, t := Effect(s, a), Apply(s, a);
    EffectIsAdmission(s, a);
    StepGrows(s, a);
    var values := Values(t.calls, Extended(history, e));
    if e.Some? {
      assert values[..|history|] == Values(s.calls, history);
      assert LabelsOf(Extended(history, e)) == LabelsOf(history) + [e.value.1];
    } else {
      assert values == Values(s.calls, history);
    }
  }

  /** Every run is equivalent to its calls taking place one after another: the
      calls that have taken effect, in the order of their effects, give the same
      labels and leave the same set as uninterrupted admissions. */
  lemma {:induction false} Linearizable(r: Run, i: nat)
    requires IsRun(r) && i < |r.states|
    ensures Sound(r.states[i].calls, History(r, i)) && Complete(r.states[i].calls, History(r, i))
    ensures Sequential(Values(r.states[i].calls, History(r, i))) == (r.states[i].admitted, LabelsOf(History(r, i)))
  {
    if i == 0 {
      assert Values(r.states[0].calls, []) == [] && LabelsOf([]) == [];
    } else {
      var s, a, h := r.states[i - 1], r.actions[i - 1], History(r, i - 1);
      Linearizable(r, i - 1);
      RunInv(r, i - 1);
      SoundStep(s, a, h);
      CompleteStep(s, a, h);
      SequentialStep(s, a, h);
    }
  }
}
