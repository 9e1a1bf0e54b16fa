/** The credential cache (apis/src/token_cache.rs): a read check under the shared
    lock, a second check and the fetch under the exclusive one. Instants and
    durations are whole nanoseconds. */
module TokenCache {
  import opened Results

  type Value = string
  type Failure = string

  datatype Entry = Entry(value: Value, expiresAt: nat)

  function EffectiveMargin(ttl: nat, margin: nat): (m: nat)
    ensures m <= margin && m <= ttl / 2
  {
    if margin < ttl / 2 then margin else ttl / 2
  }

  /** The margin never takes more than half of a lifetime. */
  function ExpiresAt(now: nat, ttl: nat, margin: nat): (at: nat)
    ensures now + (ttl - ttl / 2) <= at <= now + ttl
    ensures margin <= ttl / 2 ==> at == now + ttl - margin
  {
    now + (ttl - EffectiveMargin(ttl, margin))
  }

  predicate Valid(entry: Option<Entry>, now: nat)
  {
    entry.Some? && entry.value.expiresAt > now
  }

  /** A call that no other call interleaves with. */
  class Cache {
    const margin: nat
    var entry: Option<Entry>

    constructor (margin: nat)
      ensures this.margin == margin && entry == None
    {
      this.margin := margin;
      entry := None;
    }

    /** `fetch` is what the fetch would give; the instants are the readings of
        the two checks and of the store. */
    method GetOrRefresh(fetch: Result<(Value, nat), Failure>, readAt: nat, recheckAt: nat, storeAt: nat)
      returns (result: Result<Value, Failure>)
      modifies this
      ensures old(Valid(entry, readAt) || Valid(entry, recheckAt)) ==>
          entry == old(entry) && result == Ok(old(entry).value.value)
      ensures !old(Valid(entry, readAt) || Valid(entry, recheckAt)) ==>
                match fetch
                case Err(e) => entry == old(entry) && result == Err(e)
                case Ok((value, ttl)) =>
                  entry == Some(Entry(value, ExpiresAt(storeAt, ttl, margin))) && result == Ok(value)
    {
      if Valid(entry, readAt) {
        return Ok(entry.value.value);
      }
      if Valid(entry, recheckAt) {
        return Ok(entry.value.value);
      }
      match fetch
      case Err(e) =>
        result := Err(e);
      case Ok((value, ttl)) =>
        entry := Some(Entry(value, ExpiresAt(storeAt, ttl, margin)));
        result := Ok(value);
    }
  }

  // --------------------------------------------------------- concurrent calls

  /** Where one call stands: `Reading` holds the shared lock, `Exclusive` and
      `Fetching` the exclusive one. */
  datatype Pc =
    | Called
    | Reading
    | Stale
    | Exclusive
    | Fetching
    | Returned(value: Value)
    | Gone

  datatype State = State(now: nat, entry: Option<Entry>, calls: seq<Pc>)

  /** `Drop` is a caller cancelling its future at any point. */
  datatype Action =
    | Tick(elapsed: nat)
    | Arrive
    | ReadLock(c: nat)
    | Check(c: nat)
    | WriteLock(c: nat)
    | Recheck(c: nat)
    | Publish(c: nat, value: Value, ttl: nat)
    | Fail(c: nat)
    | Drop(c: nat)

  predicate Locks(pc: Pc)
  {
    pc.Exclusive? || pc.Fetching?
  }

  predicate NoWriter(calls: seq<Pc>)
  {
    forall d | 0 <= d < |calls| :: !Locks(calls[d])
  }

  predicate Free(calls: seq<Pc>)
  {
    forall d | 0 <= d < |calls| :: !Locks(calls[d]) && !calls[d].Reading?
  }

  predicate Enabled(s: State, a: Action)
  {
    if a.Tick? || a.Arrive? then true
    else
      && a.c < |s.calls|
      && match a
         case ReadLock(c) => s.calls[c].Called? && NoWriter(s.calls)
         case Check(c) => s.calls[c].Reading?
         case WriteLock(c) => s.calls[c].Stale? && Free(s.calls)
         case Recheck(c) => s.calls[c].Exclusive?
         case Publish(c, _, _) => s.calls[c].Fetching?
         case Fail(c) => s.calls[c].Fetching?
         case Drop(c) => !s.calls[c].Returned? && !s.calls[c].Gone?
  }

  function Apply(margin: nat, s: State, a: Action): State
    requires Enabled(s, a)
  {
    match a
    case Tick(elapsed) => s.(now := s.now + elapsed)
    case Arrive => s.(calls := s.calls + [Called])
    case ReadLock(c) => s.(calls := s.calls[c := Reading])
    case Check(c) => s.(calls := s.calls[c := if Valid(s.entry, s.now) then Returned(s.entry.value.value) else Stale])
    case WriteLock(c) => s.(calls := s.calls[c := Exclusive])
    case Recheck(c) => s.(calls := s.calls[c := if Valid(s.entry, s.now) then Returned(s.entry.value.value)
      else Fetching])
    case Publish(c, value, ttl) => s.(entry := Some(Entry(value, ExpiresAt(s.now, ttl, margin))),
      calls := s.calls[c := Returned(value)])
    case Fail(c) => s.(calls := s.calls[c := Gone])
    case Drop(c) => s.(calls := s.calls[c := Gone])
  }

  /** The exclusive lock excludes every other lock, and whoever fetches found no
      valid entry and still sees none. */
  ghost predicate Inv(s: State)
  {
    && (forall c, d | 0 <= c < |s.calls| && 0 <= d < |s.calls| && c != d && Locks(s.calls[c]) ::
        !Locks(s.calls[d]) && !s.calls[d].Reading?)
    && (forall c | 0 <= c < |s.calls| && s.calls[c].Fetching? :: !Valid(s.entry, s.now))
  }

  lemma {:induction false} StepKeepsInv(margin: nat, s: State, a: Action)
    requires Inv(s) && Enabled(s, a)
    ensures Inv(Apply(margin, s, a))
  {
  }

  // --------------------------------------------------------------- whole runs

  datatype Run = Run(margin: nat, states: seq<State>, actions: seq<Action>)

  ghost predicate IsRun(r: Run)
  {
    && |r.states| == |r.actions| + 1
    && r.states[0].entry == None && r.states[0].calls == []
    && (forall i | 0 <= i < |r.actions| ::
        Enabled(r.states[i], r.actions[i]) && r.states[i + 1] == Apply(r.margin, r.states[i], r.actions[i]))
  }

  lemma {:induction false} RunInv(r: Run, i: nat)
    requires IsRun(r) && i < |r.states|
    ensures Inv(r.states[i])
  {
    if i > 0 {
      RunInv(r, i - 1);
      StepKeepsInv(r.margin, r.states[i - 1], r.actions[i - 1]);
    }
  }

  /** In every run at most one fetch is in flight. */
  lemma {:induction false} OneFetchInFlight(r: Run, i: nat, c: nat, d: nat)
    requires IsRun(r) && i < |r.states| && c < |r.states[i].calls| && d < |r.states[i].calls|
    requires r.states[i].calls[c].Fetching? && r.states[i].calls[d].Fetching?
    ensures c == d
  {
    RunInv(r, i);
  }

  /** Time never goes back and an entry is only ever replaced by one that
      expires no earlier. */
  lemma {:induction false} ExpiryAdvances(r: Run, i: nat, j: nat)
    requires IsRun(r) && i <= j < |r.states|
    ensures r.states[i].now <= r.states[j].now
    ensures r.states[i].entry.Some? ==>
        r.states[j].entry.Some? && r.states[i].entry.value.expiresAt <= r.states[j].entry.value.expiresAt
  {
    if i < j {
      ExpiryAdvances(r, i, j - 1);
      RunInv(r, j - 1);
    }
  }

  /** Step `j` is a re-check that finds nothing valid and starts a fetch. */
  ghost predicate StartsFetch(r: Run, j: nat)
    requires IsRun(r) && j < |r.actions|
  {
    r.actions[j].Recheck? && r.states[j + 1].calls[r.actions[j].c].Fetching?
  }

  /** After a success at time `t` with lifetime `ttl`, no fetch starts before an
      expiry that lies in the second half of that lifetime. */
  lemma {:induction false} NoFetchBeforeExpiry(r: Run, i: nat, j: nat)
    requires IsRun(r) && i < j < |r.actions| && r.actions[i].Publish? && StartsFetch(r, j)
    ensures var t, ttl := r.states[i].now, r.actions[i].ttl;
            var expiry := ExpiresAt(t, ttl, r.margin);
            t + ttl / 2 <= expiry <= t + ttl && r.states[j].now >= expiry
  {
    ExpiryAdvances(r, i + 1, j);
  }

  /** Between two successes no more than one of the waiting callers fetches:
      any two fetches are separated by the first one's outcome, and if that is
      a success, by its expiry. */
  lemma {:induction false} FetchEndsFirst(r: Run, i: nat, j: nat)
    requires IsRun(r) && i < j < |r.actions| && StartsFetch(r, i) && StartsFetch(r, j)
    ensures exists k | i < k < j :: Ends(r.actions[k], r.actions[i].c)
  {
    RunInv(r, j);
    var c := r.actions[i].c;
    if forall k | i < k < j :: !Ends(r.actions[k], c) {
      FetchLasts(r, c, i + 1, j);
      assert Locks(r.states[j].calls[c]) && Locks(r.states[j].calls[r.actions[j].c]);
    }
  }

  predicate Ends(a: Action, c: nat)
  {
    (a.Publish? || a.Fail? || a.Drop?) && a.c == c
  }

  lemma {:induction false} FetchLasts(r: Run, c: nat, i: nat, j: nat)
    requires IsRun(r) && i <= j < |r.states| && c < |r.states[i].calls| && r.states[i].calls[c].Fetching?
    requires forall k | i <= k < j :: !Ends(r.actions[k], c)
    ensures c < |r.states[j].calls| && r.states[j].calls[c].Fetching?
  {
    if i < j {
      FetchLasts(r, c, i, j - 1);
    }
  }

  /** The entry at any moment is the last one published. */
  lemma {:induction false} EntryOrigin(r: Run, j: nat) returns (i: nat)
    requires IsRun(r) && j < |r.states| && r.states[j].entry.Some?
    ensures i < j && r.actions[i].Publish?
    ensures r.states[j].entry == Some(Entry(r.actions[i].value, ExpiresAt(r.states[i].now, r.actions[i].ttl, r.margin)))
    ensures forall k | i < k < j :: !r.actions[k].Publish?
  {
    if r.actions[j - 1].Publish? {
      i := j - 1;
    } else {
      i := EntryOrigin(r, j - 1);
    }
  }

  /** A check that answers from the cache at step `j`. */
  ghost predicate AnswersFromCache(r: Run, j: nat)
    requires IsRun(r) && j < |r.actions|
  {
    (r.actions[j].Check? || r.actions[j].Recheck?) && r.states[j + 1].calls[r.actions[j].c].Returned?
  }

  /** Every value served from the cache was published, is the last one
      published, and is served strictly before its lifetime ends. */
  lemma {:induction false} ServedWhileAlive(r: Run, j: nat) returns (i: nat)
    requires IsRun(r) && j < |r.actions| && AnswersFromCache(r, j)
    ensures i < j && r.actions[i].Publish? && (forall k | i < k < j :: !r.actions[k].Publish?)
    ensures r.states[j + 1].calls[r.actions[j].c].value == r.actions[i].value
    ensures r.states[i].now <= r.states[j].now < r.states[i].now + r.actions[i].ttl
  {
    i := EntryOrigin(r, j);
    ExpiryAdvances(r, i, j);
  }

  /** While nothing succeeds the entry stays as it was: failed and cancelled
      fetches cache nothing. */
  lemma {:induction false} OnlySuccessCaches(r: Run, i: nat, j: nat)
    requires IsRun(r) && i <= j < |r.states| && forall k | i <= k < j :: !r.actions[k].Publish?
    ensures r.states[j].entry == r.states[i].entry
  {
    if i < j {
      OnlySuccessCaches(r, i, j - 1);
    }
  }

  /** A failure frees the lock, so any stale caller may go on to fetch again. */
  lemma {:induction false} FailureLeavesRoom(r: Run, i: nat, d: nat)
    requires IsRun(r) && i < |r.actions| && r.actions[i].Fail? && d < |r.states[i].calls| && r.states[i].calls[d].Stale?
    ensures Enabled(r.states[i + 1], WriteLock(d)) && r.states[i + 1].entry == r.states[i].entry
    ensures !Valid(r.states[i].entry, r.states[i].now)
  {
    RunInv(r, i);
  }
}
