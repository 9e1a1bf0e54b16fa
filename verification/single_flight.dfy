/** How concurrent resolutions of one cold cache key share a build
    (store-lifecycle/src/lib.rs): calls join a wave, take its lock in turn, look
    again, and the one that still misses builds. The state is that of one key;
    different keys do not meet. */
module SingleFlight {
  import opened Results

  /** What a call returns; a dropped future returns nothing. */
  datatype Answer = Got(instance: nat) | Failed(error: string) | Cancelled

  /** Where one call to `resolve` stands. A finished call remembers its wave. */
  datatype Call =
    | Starting
    | Missed
    | Waiting(wave: nat)
    | Holding(wave: nat)
    | Building(wave: nat)
    | Leaving(wave: nat, answer: Answer)
    | Removing(wave: nat, answer: Answer)
    | Done(joined: Option<nat>, answer: Answer)

  /** `InitializerState`: the counter and the error kept for the waiters. */
  datatype Wave = Wave(participants: int, outcome: Option<string>)

  /** `current` is the key's slot in the initializer map, `cached` its slot in
      the backend cache, and `built` numbers the backends ever built. */
  datatype State = State(calls: seq<Call>, current: Option<nat>, waves: seq<Wave>, cached: Option<nat>, built: nat)

  datatype Action =
    | Spawn
    | Check(call: nat)
    | Join(call: nat)
    | Lock(call: nat)
    | Recheck(call: nat)
    | BuildOk(call: nat)
    | BuildErr(call: nat, error: string)
    | Cancel(call: nat)
    | Leave(call: nat)
    | Remove(call: nat)
    | Evict

  /** Holds a participant guard of its wave. */
  predicate Joined(call: Call)
  {
    call.Waiting? || call.Holding? || call.Building? || call.Leaving?
  }

  predicate Locks(call: Call)
  {
    call.Holding? || call.Building?
  }

  predicate Over(call: Call)
  {
    call.Leaving? || call.Removing? || call.Done?
  }

  ghost predicate Enabled(s: State, a: Action)
  {
    match a
    case Spawn => true
    case Check(c) => c < |s.calls| && s.calls[c].Starting?
    case Join(c) => c < |s.calls| && s.calls[c].Missed?
    case Lock(c) =>
      && c < |s.calls| && s.calls[c].Waiting?
      && forall d | 0 <= d < |s.calls| :: !(Locks(s.calls[d]) && s.calls[d].wave == s.calls[c].wave)
    case Recheck(c) => c < |s.calls| && s.calls[c].Holding? && s.calls[c].wave < |s.waves|
    case BuildOk(c) => c < |s.calls| && s.calls[c].Building?
    case BuildErr(c, _) => c < |s.calls| && s.calls[c].Building? && s.calls[c].wave < |s.waves|
    case Cancel(c) => c < |s.calls| && !Over(s.calls[c])
    case Leave(c) => c < |s.calls| && s.calls[c].Leaving? && s.calls[c].wave < |s.waves|
    case Remove(c) => c < |s.calls| && s.calls[c].Removing? && s.calls[c].wave < |s.waves|
    case Evict => true
  }

  function To(s: State, c: nat, call: Call): State
    requires c < |s.calls|
  {
    s.(calls := s.calls[c := call])
  }

  /** Joining and leaving happen under the map's entry lock. */
  function JoinWave(s: State, c: nat): State
    requires c < |s.calls|
  {
    if s.current.Some? && s.current.value < |s.waves| then
      var w := s.current.value;
      To(s, c, Waiting(w)).(waves := s.waves[w := s.waves[w].(participants := s.waves[w].participants + 1)])
    else
      To(s, c, Waiting(|s.waves|)).(current := Some(|s.waves|), waves := s.waves + [Wave(1, None)])
  }

  function Look(s: State, c: nat): Call
    requires c < |s.calls| && s.calls[c].Holding? && s.calls[c].wave < |s.waves|
  {
    var w := s.calls[c].wave;
    if s.cached.Some? then Leaving(w, Got(s.cached.value))
    else if s.waves[w].outcome.Some? then Leaving(w, Failed(s.waves[w].outcome.value))
    else Building(w)
  }

  /** `insert_or_reuse`, with its branch for a build that comes second. */
  function Publish(s: State, c: nat): State
    requires c < |s.calls| && s.calls[c].Building?
  {
    var w := s.calls[c].wave;
    match s.cached
    case Some(i) => To(s, c, Leaving(w, Got(i))).(built := s.built + 1)
    case None => To(s, c, Leaving(w, Got(s.built))).(cached := Some(s.built), built := s.built + 1)
  }

  function LeaveWave(s: State, c: nat): State
    requires c < |s.calls| && s.calls[c].Leaving? && s.calls[c].wave < |s.waves|
  {
    var w, answer := s.calls[c].wave, s.calls[c].answer;
    var before := s.waves[w].participants;
    To(s, c, if before == 1 then Removing(w, answer) else Done(Some(w), answer))
      .(waves := s.waves[w := s.waves[w].(participants := before - 1)])
  }

  function RemoveWave(s: State, c: nat): State
    requires c < |s.calls| && s.calls[c].Removing? && s.calls[c].wave < |s.waves|
  {
    var w := s.calls[c].wave;
    To(s, c, Done(Some(w), s.calls[c].answer))
      .(current := if s.current == Some(w) && s.waves[w].participants == 0 then None else s.current)
  }

  ghost function Apply(s: State, a: Action): State
    requires Enabled(s, a)
  {
    match a
    case Spawn => s.(calls := s.calls + [Starting])
    case Check(c) => To(s, c, if s.cached.Some? then Done(None, Got(s.cached.value)) else Missed)
    case Join(c) => JoinWave(s, c)
    case Lock(c) => To(s, c, Holding(s.calls[c].wave))
    case Recheck(c) => To(s, c, Look(s, c))
    case BuildOk(c) => Publish(s, c)
    case BuildErr(c, error) =>
      var w := s.calls[c].wave;
      To(s, c, Leaving(w, Failed(error))).(waves := s.waves[w := s.waves[w].(outcome := Some(error))])
    case Cancel(c) =>
      To(s, c, if s.calls[c].Starting? || s.calls[c].Missed? then Done(None, Cancelled)
               else Leaving(s.calls[c].wave, Cancelled))
    case Leave(c) => LeaveWave(s, c)
    case Remove(c) => RemoveWave(s, c)
    case Evict => s.(cached := None)
  }

  // ------------------------------------------------------------- invariants

  ghost function Members(calls: seq<Call>, w: nat): set<nat>
  {
    set c | 0 <= c < |calls| && Joined(calls[c]) && calls[c].wave == w
  }

  ghost predicate Counted(calls: seq<Call>, waves: seq<Wave>)
  {
    forall w | 0 <= w < |waves| :: waves[w].participants == |Members(calls, w)|
  }

  /** A wave somebody is in is the one the map holds, so nobody is in another. */
  ghost predicate Together(calls: seq<Call>, current: Option<nat>)
  {
    forall c | 0 <= c < |calls| && Joined(calls[c]) :: current == Some(calls[c].wave)
  }

  ghost predicate Exclusive(calls: seq<Call>)
  {
    forall c, d | 0 <= c < d < |calls| :: !(Locks(calls[c]) && Locks(calls[d]))
  }

  /** Whoever builds found the key cold and no error to share. */
  ghost predicate Cold(s: State)
  {
    forall c | 0 <= c < |s.calls| && s.calls[c].Building? ::
      s.cached.None? && s.calls[c].wave < |s.waves| && s.waves[s.calls[c].wave].outcome.None?
  }

  /** The wave in which a call got its answer. */
  function WaveOf(call: Call): Option<nat>
    requires Over(call)
  {
    if call.Done? then call.joined else Some(call.wave)
  }

  ghost predicate Blames(waves: seq<Wave>, call: Call)
  {
    Over(call) && call.answer.Failed? ==>
      && WaveOf(call).Some? && WaveOf(call).value < |waves|
      && waves[WaveOf(call).value].outcome == Some(call.answer.error)
  }

  /** A failed call reports the error of its wave. */
  ghost predicate Shared(calls: seq<Call>, waves: seq<Wave>)
  {
    forall c | 0 <= c < |calls| :: Blames(waves, calls[c])
  }

  /** The last to leave a wave has yet to look whether it is still empty. */
  ghost predicate Watched(calls: seq<Call>, w: nat)
  {
    exists c :: 0 <= c < |calls| && calls[c].Removing? && calls[c].wave == w
  }

  /** A wave stays in the map only while somebody is in it or about to look. */
  ghost predicate Attended(calls: seq<Call>, current: Option<nat>)
  {
    current.Some? ==> Members(calls, current.value) != {} || Watched(calls, current.value)
  }

  ghost predicate Known(s: State)
  {
    && (s.current.Some? ==> s.current.value < |s.waves|)
    && (forall c | 0 <= c < |s.calls| && s.calls[c].Removing? :: s.calls[c].wave < |s.waves|)
  }

  ghost predicate Inv(s: State)
  {
    && Known(s) && Counted(s.calls, s.waves) && Together(s.calls, s.current) && Exclusive(s.calls)
    && Cold(s) && Shared(s.calls, s.waves) && Attended(s.calls, s.current)
  }

  lemma {:induction false} MembersAfter(calls: seq<Call>, c: nat, call: Call, w: nat)
    requires c < |calls|
    ensures Members(calls[c := call], w) ==
            if Joined(call) && call.wave == w then Members(calls, w) + {c} else Members(calls, w) - {c}
  {
  }

  /** `call` is in the wave `was` is in, if any. */
  predicate Stays(was: Call, call: Call)
  {
    (Joined(call) <==> Joined(was)) && (Joined(call) && Joined(was) ==> call.wave == was.wave)
  }

  lemma {:induction false} MembersKept(calls: seq<Call>, c: nat, call: Call, w: nat)
    requires c < |calls| && Stays(calls[c], call)
    ensures Members(calls[c := call], w) == Members(calls, w)
  {
    MembersAfter(calls, c, call, w);
  }

  lemma {:induction false} CountedKept(calls: seq<Call>, waves: seq<Wave>, c: nat, call: Call)
    requires Counted(calls, waves) && c < |calls| && Stays(calls[c], call)
    ensures Counted(calls[c := call], waves)
  {
    forall w | 0 <= w < |waves| ensures waves[w].participants == |Members(calls[c := call], w)| {
      MembersKept(calls, c, call, w);
    }
  }

  lemma {:induction false} AttendedKept(calls: seq<Call>, current: Option<nat>, c: nat, call: Call)
    requires Attended(calls, current) && c < |calls| && Stays(calls[c], call) && !calls[c].Removing?
    ensures Attended(calls[c := call], current)
  {
    if current.Some? {
      MembersKept(calls, c, call, current.value);
      if Watched(calls, current.value) {
        var d :| 0 <= d < |calls| && calls[d].Removing? && calls[d].wave == current.value;
        assert calls[c := call][d] == calls[d];
      }
    }
  }

  lemma {:induction false} SharedKept(calls: seq<Call>, waves: seq<Wave>, c: nat, call: Call)
    requires Shared(calls, waves) && c < |calls| && Blames(waves, call)
    ensures Shared(calls[c := call], waves)
  {
    var calls' := calls[c := call];
    forall d | 0 <= d < |calls'| ensures Blames(waves, calls'[d]) {
      assert Blames(waves, calls[d]);
    }
  }

  /** A move of one call within its wave. */
  lemma {:induction false} MoveKeepsInv(s: State, c: nat, call: Call)
    requires Inv(s) && c < |s.calls| && Stays(s.calls[c], call) && !s.calls[c].Removing? && !call.Removing?
    requires Blames(s.waves, call) && Exclusive(s.calls[c := call])
    requires call.Building? ==> s.cached.None? && call.wave < |s.waves| && s.waves[call.wave].outcome.None?
    ensures Inv(To(s, c, call))
  {
    CountedKept(s.calls, s.waves, c, call);
    AttendedKept(s.calls, s.current, c, call);
    SharedKept(s.calls, s.waves, c, call);
  }

  lemma {:induction false} SpawnKeepsInv(s: State)
    requires Inv(s)
    ensures Inv(Apply(s, Spawn))
  {
    var calls := s.calls + [Starting];
    forall w | 0 <= w < |s.waves| ensures s.waves[w].participants == |Members(calls, w)| {
      assert Members(calls, w) == Members(s.calls, w);
    }
    forall d | 0 <= d < |calls| ensures Blames(s.waves, calls[d]) {
      assert d < |s.calls| ==> Blames(s.waves, s.calls[d]);
    }
    if s.current.Some? {
      assert Members(calls, s.current.value) == Members(s.calls, s.current.value);
      if Watched(s.calls, s.current.value) {
        var d :| 0 <= d < |s.calls| && s.calls[d].Removing? && s.calls[d].wave == s.current.value;
        assert calls[d] == s.calls[d];
      }
    }
  }

  lemma {:induction false} LockKeepsInv(s: State, c: nat)
    requires Inv(s) && Enabled(s, Lock(c))
    ensures Inv(Apply(s, Lock(c)))
  {
    forall d | 0 <= d < |s.calls| ensures !Locks(s.calls[d]) {
      assert Joined(s.calls[c]) && (Locks(s.calls[d]) ==> Joined(s.calls[d]));
    }
    MoveKeepsInv(s, c, Holding(s.calls[c].wave));
  }

  /** Only the error of the builder's wave, which nobody has read, is set. */
  lemma {:induction false} BuildErrKeepsInv(s: State, c: nat, error: string)
    requires Inv(s) && Enabled(s, BuildErr(c, error))
    ensures Inv(Apply(s, BuildErr(c, error)))
  {
    var w := s.calls[c].wave;
    var call, waves := Leaving(w, Failed(error)), s.waves[w := s.waves[w].(outcome := Some(error))];
    CountedKept(s.calls, s.waves, c, call);
    AttendedKept(s.calls, s.current, c, call);
    forall d | 0 <= d < |s.calls| ensures Blames(waves, s.calls[d]) {
      assert Blames(s.waves, s.calls[d]);
    }
    SharedKept(s.calls, waves, c, call);
    forall d | 0 <= d < |s.calls| && d != c ensures !s.calls[d].Building? {
      assert Locks(s.calls[c]);
    }
  }

  lemma {:induction false} BuildOkKeepsInv(s: State, c: nat)
    requires Inv(s) && Enabled(s, BuildOk(c))
    ensures Inv(Publish(s, c))
  {
    MoveKeepsInv(s, c, Publish(s, c).calls[c]);
    forall d | 0 <= d < |s.calls| && d != c ensures !s.calls[d].Building? {
      assert Locks(s.calls[c]);
    }
  }

  lemma {:induction false} JoinCounted(s: State, c: nat)
    requires Inv(s) && Enabled(s, Join(c))
    ensures Counted(JoinWave(s, c).calls, JoinWave(s, c).waves)
  {
    var s' := JoinWave(s, c);
    forall w | 0 <= w < |s'.waves| ensures s'.waves[w].participants == |Members(s'.calls, w)| {
      MembersAfter(s.calls, c, s'.calls[c], w);
      if w == |s.waves| {
        assert Members(s.calls, w) == {};
      }
    }
  }

  lemma {:induction false} JoinKeepsInv(s: State, c: nat)
    requires Inv(s) && Enabled(s, Join(c))
    ensures Inv(JoinWave(s, c))
  {
    var s' := JoinWave(s, c);
    JoinCounted(s, c);
    assert c in Members(s'.calls, s'.calls[c].wave);
    forall d | 0 <= d < |s.calls| ensures Blames(s'.waves, s.calls[d]) {
      assert Blames(s.waves, s.calls[d]);
    }
    SharedKept(s.calls, s'.waves, c, s'.calls[c]);
    if s.current.None? {
      forall d | 0 <= d < |s.calls| ensures !Joined(s.calls[d]) {}
    }
  }

  lemma {:induction false} LeaveCounted(s: State, c: nat)
    requires Inv(s) && Enabled(s, Leave(c))
    ensures Counted(LeaveWave(s, c).calls, LeaveWave(s, c).waves)
  {
    var s' := LeaveWave(s, c);
    assert c in Members(s.calls, s.calls[c].wave);
    forall w | 0 <= w < |s'.waves| ensures s'.waves[w].participants == |Members(s'.calls, w)| {
      MembersAfter(s.calls, c, s'.calls[c], w);
    }
  }

  lemma {:induction false} LeaveKeepsInv(s: State, c: nat)
    requires Inv(s) && Enabled(s, Leave(c))
    ensures Inv(LeaveWave(s, c))
  {
    var s' := LeaveWave(s, c);
    LeaveCounted(s, c);
    assert Joined(s.calls[c]);
    forall d | 0 <= d < |s.calls| ensures Blames(s'.waves, s.calls[d]) {
      assert Blames(s.waves, s.calls[d]);
    }
    SharedKept(s.calls, s'.waves, c, s'.calls[c]);
    if Members(s'.calls, s.calls[c].wave) == {} {
      assert s'.calls[c].Removing?;
    }
  }

  lemma {:induction false} RemoveKeepsInv(s: State, c: nat)
    requires Inv(s) && Enabled(s, Remove(c))
    ensures Inv(RemoveWave(s, c))
  {
    var s' := RemoveWave(s, c);
    CountedKept(s.calls, s.waves, c, s'.calls[c]);
    assert Blames(s.waves, s.calls[c]);
    SharedKept(s.calls, s.waves, c, s'.calls[c]);
    forall d | 0 <= d < |s'.calls| && Joined(s'.calls[d]) ensures s'.current == Some(s'.calls[d].wave) {
      assert d in Members(s.calls, s'.calls[d].wave);
    }
    if s'.current.Some? {
      MembersKept(s.calls, c, s'.calls[c], s'.current.value);
      if Members(s.calls, s.current.value) == {} {
        var d :| 0 <= d < |s.calls| && s.calls[d].Removing? && s.calls[d].wave == s.current.value;
        assert s'.calls[d] == s.calls[d];
      }
    }
  }

  lemma {:induction false} StepKeepsInv(s: State, a: Action)
    requires Inv(s) && Enabled(s, a)
    ensures Inv(Apply(s, a))
  {
    match a
    case Spawn => SpawnKeepsInv(s);
    case Check(c) => MoveKeepsInv(s, c, Apply(s, a).calls[c]);
    case Join(c) => JoinKeepsInv(s, c);
    case Lock(c) => LockKeepsInv(s, c);
    case Recheck(c) => MoveKeepsInv(s, c, Look(s, c));
    case BuildOk(c) => BuildOkKeepsInv(s, c);
    case BuildErr(c, error) => BuildErrKeepsInv(s, c, error);
    case Cancel(c) => MoveKeepsInv(s, c, Apply(s, a).calls[c]);
    case Leave(c) => LeaveKeepsInv(s, c);
    case Remove(c) => RemoveKeepsInv(s, c);
    case Evict =>
  }

  // ------------------------------------------------------------------- runs

  datatype Run = Run(states: seq<State>, actions: seq<Action>)

  /** Nobody has asked yet; the key may be cached already. */
  ghost predicate Initial(s: State)
  {
    s.calls == [] && s.current.None? && s.waves == []
  }

  ghost predicate IsRun(r: Run)
  {
    && |r.states| == |r.actions| + 1
    && Initial(r.states[0])
    && (forall i | 0 <= i < |r.actions| ::
          Enabled(r.states[i], r.actions[i]) && r.states[i + 1] == Apply(r.states[i], r.actions[i]))
  }

  lemma {:induction false} RunInv(r: Run, i: nat)
    requires IsRun(r) && i < |r.states|
    ensures Inv(r.states[i])
  {
    if i > 0 {
      RunInv(r, i - 1);
      StepKeepsInv(r.states[i - 1], r.actions[i - 1]);
    }
  }

  /** At most one call builds at a time, and whoever finishes building finds the
      key still cold: no second backend is ever opened beside a cached one, and
      the branch that closes a duplicate is never taken. */
  lemma {:induction false} OneBuildAtATime(r: Run, i: nat, c: nat, d: nat)
    requires IsRun(r) && i < |r.states| && c < |r.states[i].calls| && d < |r.states[i].calls|
    requires r.states[i].calls[c].Building? && r.states[i].calls[d].Building?
    ensures c == d && r.states[i].cached.None?
  {
    RunInv(r, i);
  }

  /** Outcomes and finished calls stand. */
  ghost predicate Stands(s: State, s': State)
  {
    && |s.waves| <= |s'.waves| && |s.calls| <= |s'.calls|
    && (forall w | 0 <= w < |s.waves| && s.waves[w].outcome.Some? :: s'.waves[w].outcome == s.waves[w].outcome)
    && (forall c | 0 <= c < |s.calls| && Over(s.calls[c]) ::
          Over(s'.calls[c]) && s'.calls[c].answer == s.calls[c].answer && WaveOf(s'.calls[c]) == WaveOf(s.calls[c]))
  }

  lemma {:induction false} StepStands(s: State, a: Action)
    requires Inv(s) && Enabled(s, a)
    ensures Stands(s, Apply(s, a))
  {
  }

  lemma {:induction false} StandsThen(a: State, b: State, c: State)
    requires Stands(a, b) && Stands(b, c)
    ensures Stands(a, c)
  {
  }

  lemma {:induction false} NextStands(r: Run, i: nat)
    requires IsRun(r) && i < |r.actions|
    ensures Stands(r.states[i], r.states[i + 1])
  {
    RunInv(r, i);
    StepStands(r.states[i], r.actions[i]);
  }

  lemma {:induction false} StatesStand(states: seq<State>, i: nat, j: nat)
    requires i <= j < |states| && forall k | 0 <= k < |states| - 1 :: Stands(states[k], states[k + 1])
    ensures Stands(states[i], states[j])
    decreases j - i
  {
    if i < j {
      StatesStand(states, i, j - 1);
      assert Stands(states[j - 1], states[j - 1 + 1]);
      StandsThen(states[i], states[j - 1], states[j]);
    }
  }

  lemma {:induction false} RunStands(r: Run, i: nat, j: nat)
    requires IsRun(r) && i <= j < |r.states|
    ensures Stands(r.states[i], r.states[j])
  {
    forall k | 0 <= k < |r.states| - 1 ensures Stands(r.states[k], r.states[k + 1]) {
      NextStands(r, k);
    }
    StatesStand(r.states, i, j);
  }

  /** Once a build of a wave has failed nobody in it builds again, and whoever
      fails in that wave, then or later, fails with that very error. */
  lemma {:induction false} WaitersShareFailure(r: Run, i: nat, j: nat, c: nat, d: nat)
    requires IsRun(r) && i <= j < |r.states| && c < |r.states[i].calls| && d < |r.states[j].calls|
    requires Over(r.states[i].calls[c]) && r.states[i].calls[c].answer.Failed?
    ensures WaveOf(r.states[i].calls[c]).Some?
    ensures !(r.states[j].calls[d].Building? && Some(r.states[j].calls[d].wave) == WaveOf(r.states[i].calls[c]))
    ensures Over(r.states[j].calls[d]) && r.states[j].calls[d].answer.Failed?
            && WaveOf(r.states[j].calls[d]) == WaveOf(r.states[i].calls[c]) ==>
              r.states[j].calls[d].answer == r.states[i].calls[c].answer
  {
    RunInv(r, i);
    RunInv(r, j);
    RunStands(r, i, j);
    assert Blames(r.states[i].waves, r.states[i].calls[c]);
    assert Blames(r.states[j].waves, r.states[j].calls[d]);
  }

  /** When every call that joined has gone, returned or cancelled, no wave is
      left: the next cold call starts one with no error and no predecessor. */
  lemma {:induction false} FailedWaveIsForgotten(r: Run, i: nat, c: nat)
    requires IsRun(r) && i < |r.states| && c < |r.states[i].calls| && r.states[i].calls[c].Missed?
    requires forall d | 0 <= d < |r.states[i].calls| ::
               r.states[i].calls[d].Starting? || r.states[i].calls[d].Missed? || r.states[i].calls[d].Done?
    ensures r.states[i].current.None?
    ensures var s' := JoinWave(r.states[i], c);
            && s'.calls[c].Waiting? && s'.calls[c].wave == |r.states[i].waves|
            && s'.waves[s'.calls[c].wave] == Wave(1, None)
  {
    RunInv(r, i);
    assert forall w: nat :: Members(r.states[i].calls, w) == {} && !Watched(r.states[i].calls, w);
  }

  // --------------------------------------------------------------- progress

  /** A step that takes one call further without giving it up. */
  predicate Advances(a: Action)
  {
    !a.Spawn? && !a.Cancel? && !a.Evict?
  }

  /** How far a call is from its end. */
  function Rank(call: Call): nat
  {
    match call
    case Starting => 7
    case Missed => 6
    case Waiting(_) => 5
    case Holding(_) => 4
    case Building(_) => 3
    case Leaving(_, _) => 2
    case Removing(_, _) => 1
    case Done(_, _) => 0
  }

  /** `c` or, while it waits, the holder of the lock it waits for. */
  predicate Concerns(s: State, c: nat, d: nat)
    requires c < |s.calls|
  {
    d == c || (d < |s.calls| && s.calls[c].Waiting? && Locks(s.calls[d]) && s.calls[d].wave == s.calls[c].wave)
  }

  /** One call has come nearer to its end, and no other has moved. */
  ghost predicate Nearer(s: State, s': State, d: nat)
  {
    && d < |s.calls| == |s'.calls| && Rank(s'.calls[d]) < Rank(s.calls[d])
    && forall e | 0 <= e < |s.calls| && e != d :: s'.calls[e] == s.calls[e]
  }

  lemma {:induction false} AdvanceNearer(s: State, a: Action)
    requires Enabled(s, a) && Advances(a)
    ensures Nearer(s, Apply(s, a), a.call)
  {
  }

  /** The next step of a call that is not done, or of the call it waits for. */
  lemma {:induction false} NextStep(s: State, c: nat) returns (a: Action)
    requires Inv(s) && c < |s.calls| && !s.calls[c].Done?
    ensures Advances(a) && Enabled(s, a) && Concerns(s, c, a.call)
  {
    match s.calls[c]
    case Starting => a := Check(c);
    case Missed => a := Join(c);
    case Waiting(w) =>
      if d :| 0 <= d < |s.calls| && Locks(s.calls[d]) && s.calls[d].wave == w {
        assert Joined(s.calls[d]);
        a := if s.calls[d].Holding? then Recheck(d) else BuildOk(d);
      } else {
        a := Lock(c);
      }
    case Holding(w) =>
      assert Joined(s.calls[c]);
      a := Recheck(c);
    case Building(_) => a := BuildOk(c);
    case Leaving(w, _) =>
      assert Joined(s.calls[c]);
      a := Leave(c);
    case Removing(_, _) => a := Remove(c);
  }

  /** No call waits for nothing: at any point of any run an unfinished call, or
      the holder of the lock it waits for, can come nearer to its end by a step
      that moves no other call. */
  lemma {:induction false} NoDeadlock(r: Run, i: nat, c: nat) returns (a: Action)
    requires IsRun(r) && i < |r.states| && c < |r.states[i].calls| && !r.states[i].calls[c].Done?
    ensures Advances(a) && Enabled(r.states[i], a)
    ensures Concerns(r.states[i], c, a.call) && Nearer(r.states[i], Apply(r.states[i], a), a.call)
  {
    RunInv(r, i);
    a := NextStep(r.states[i], c);
    AdvanceNearer(r.states[i], a);
  }

  ghost function TotalRank(calls: seq<Call>): nat
  {
    if calls == [] then 0 else TotalRank(calls[..|calls| - 1]) + Rank(calls[|calls| - 1])
  }

  lemma {:induction false} TotalFalls(calls: seq<Call>, calls': seq<Call>, d: nat)
    requires d < |calls| == |calls'| && forall e | 0 <= e < |calls| && e != d :: calls'[e] == calls[e]
    ensures TotalRank(calls') == TotalRank(calls) - Rank(calls[d]) + Rank(calls'[d])
  {
    var n := |calls| - 1;
    if d == n {
      assert calls'[..n] == calls[..n];
    } else {
      TotalFalls(calls[..n], calls'[..n], d);
    }
  }

  /** The actions, enabled one after another, are steps of `c` and of the calls it
      has to wait for, and lead from `s` to `s'`. */
  ghost predicate LeadsOn(s: State, actions: seq<Action>, s': State, c: nat)
    decreases |actions|
  {
    if actions == [] then s' == s
    else
      && c < |s.calls| && Advances(actions[0]) && Enabled(s, actions[0]) && Concerns(s, c, actions[0].call)
      && LeadsOn(Apply(s, actions[0]), actions[1..], s', c)
  }

  /** The call has come to its end, and not by being given up. */
  ghost predicate Answered(was: Call, call: Call)
  {
    call.Done? && if Over(was) then call.answer == was.answer else !call.answer.Cancelled?
  }

  lemma {:induction false} StepTowards(s: State, a: Action, c: nat)
    requires Enabled(s, a) && Advances(a) && c < |s.calls|
    ensures |Apply(s, a).calls| == |s.calls| && TotalRank(Apply(s, a).calls) < TotalRank(s.calls)
    ensures Over(s.calls[c]) ==> Over(Apply(s, a).calls[c]) && Apply(s, a).calls[c].answer == s.calls[c].answer
    ensures !Over(s.calls[c]) && Over(Apply(s, a).calls[c]) ==> !Apply(s, a).calls[c].answer.Cancelled?
  {
    AdvanceNearer(s, a);
    TotalFalls(s.calls, Apply(s, a).calls, a.call);
  }

  /** From any reachable state every call can be brought to an answer by its own
      steps and those of the calls that hold the lock before it. */
  lemma {:induction false} CallCompletes(s: State, c: nat) returns (actions: seq<Action>, s': State)
    requires Inv(s) && c < |s.calls|
    ensures LeadsOn(s, actions, s', c) && c < |s'.calls| && Answered(s.calls[c], s'.calls[c])
    decreases TotalRank(s.calls)
  {
    if s.calls[c].Done? {
      actions, s' := [], s;
    } else {
      var a := NextStep(s, c);
      StepKeepsInv(s, a);
      StepTowards(s, a, c);
      var rest;
      rest, s' := CallCompletes(Apply(s, a), c);
      actions := [a] + rest;
      assert actions[1..] == rest;
    }
  }
}
