/** Rendezvous selection of upstream keys (enmaas-policy-filter/src/keys.rs). The
    digest of a subject and a key id is any function into an ordered set. */
module KeyRing {
  import opened Results

  datatype Key = Key(id: string, headerValue: string)

  type Digest = (string, string) -> nat

  datatype Ring = Ring(aliases: map<string, Key>, classes: map<string, seq<Key>>)

  /** Where the greatest digest is; `max_by` keeps the last of equal maxima. */
  function PickAt(digest: Digest, subject: string, entries: seq<Key>): (at: nat)
    requires entries != []
    ensures at < |entries|
  {
    var n := |entries| - 1;
    if n == 0 then 0
    else
      var best := PickAt(digest, subject, entries[..n]);
      if digest(subject, entries[n].id) >= digest(subject, entries[best].id) then n else best
  }

  /** Entry `at` has the greater digest than entry `j`, or comes after it. */
  predicate Beats(digest: Digest, subject: string, entries: seq<Key>, at: nat, j: nat)
    requires at < |entries| && j < |entries|
  {
    var a, b := digest(subject, entries[at].id), digest(subject, entries[j].id);
    a > b || (a == b && j <= at)
  }

  lemma {:induction false} PickBeats(digest: Digest, subject: string, entries: seq<Key>, j: nat)
    requires j < |entries|
    ensures Beats(digest, subject, entries, PickAt(digest, subject, entries), j)
  {
    var n := |entries| - 1;
    if n > 0 {
      PickBeats(digest, subject, entries[..n], if j < n then j else 0);
    }
  }

  function Pick(digest: Digest, subject: string, entries: seq<Key>): Option<Key>
  {
    if entries == [] then None else Some(entries[PickAt(digest, subject, entries)])
  }

  function Resolve(ring: Ring, digest: Digest, alias: Option<string>, subject: string): Option<Key>
  {
    match alias
    case None => None
    case Some(alias) =>
      if alias in ring.aliases then Some(ring.aliases[alias])
      else if alias in ring.classes then Pick(digest, subject, ring.classes[alias])
      else None
  }

  /** Being unbeaten singles out one place. */
  lemma {:induction false} PickIsUnique(digest: Digest, subject: string, entries: seq<Key>, at: nat)
    requires at < |entries| && forall j | 0 <= j < |entries| :: Beats(digest, subject, entries, at, j)
    ensures PickAt(digest, subject, entries) == at
  {
    var best := PickAt(digest, subject, entries);
    assert Beats(digest, subject, entries, at, best);
    PickBeats(digest, subject, entries, at);
  }

  function Without(entries: seq<Key>, j: nat): (rest: seq<Key>)
    requires j < |entries|
    ensures |rest| == |entries| - 1 && forall k | 0 <= k < |rest| :: rest[k] == entries[if k < j then k else k + 1]
  {
    entries[..j] + entries[j + 1..]
  }

  function With(entries: seq<Key>, j: nat, key: Key): seq<Key>
    requires j <= |entries|
  {
    entries[..j] + [key] + entries[j..]
  }

  /** Removing a key that was not chosen keeps the choice. */
  lemma {:induction false} RemovalKeepsChoice(digest: Digest, subject: string, entries: seq<Key>, j: nat)
    requires j < |entries| && j != PickAt(digest, subject, entries)
    ensures Pick(digest, subject, Without(entries, j)) == Pick(digest, subject, entries)
  {
    var at, rest := PickAt(digest, subject, entries), Without(entries, j);
    var there := if at < j then at else at - 1;
    assert rest[there] == entries[at];
    forall k | 0 <= k < |rest| ensures Beats(digest, subject, rest, there, k) {
      PickBeats(digest, subject, entries, if k < j then k else k + 1);
    }
    PickIsUnique(digest, subject, rest, there);
  }

  /** Inserting a key anywhere gives the old choice or the new key. */
  lemma {:induction false} InsertionMovesOnlyToNew(digest: Digest, subject: string, entries: seq<Key>, j: nat, key: Key)
    requires j <= |entries|
    ensures Pick(digest, subject, With(entries, j, key)) in {Pick(digest, subject, entries), Some(key)}
  {
    var more := With(entries, j, key);
    assert Without(more, j) == entries;
    if PickAt(digest, subject, more) != j {
      RemovalKeepsChoice(digest, subject, more, j);
    }
  }

  /** A class gains or loses a key: only subjects that choose it are moved. */
  lemma {:induction false} ResolveMinimallyDisrupted(ring: Ring, digest: Digest, name: string, subject: string, j: nat,
      key: Key)
    requires name !in ring.aliases && name in ring.classes && j <= |ring.classes[name]|
    ensures var grown := ring.(classes := ring.classes[name := With(ring.classes[name], j, key)]);
            var before, after := Resolve(ring, digest, Some(name), subject),
              Resolve(grown, digest, Some(name), subject);
            && (after == before || after == Some(key))
            && (forall other | other != name ::
                Resolve(grown, digest, Some(other), subject) == Resolve(ring, digest, Some(other), subject))
  {
    InsertionMovesOnlyToNew(digest, subject, ring.classes[name], j, key);
  }

  // ------------------------------------------------------------ order of the list

  predicate Greatest(digest: Digest, subject: string, entries: seq<Key>, key: Key)
  {
    key in entries && forall j | 0 <= j < |entries| :: digest(subject, entries[j].id) <= digest(subject, key.id)
  }

  /** All keys with the greatest digest are the same key. */
  ghost predicate OneGreatest(digest: Digest, subject: string, entries: seq<Key>)
  {
    forall a, b | Greatest(digest, subject, entries, a) && Greatest(digest, subject, entries, b) :: a == b
  }

  lemma {:induction false} PickIsGreatest(digest: Digest, subject: string, entries: seq<Key>)
    requires entries != []
    ensures Greatest(digest, subject, entries, Pick(digest, subject, entries).value)
  {
    var at := PickAt(digest, subject, entries);
    forall j | 0 <= j < |entries| ensures digest(subject, entries[j].id) <= digest(subject, entries[at].id) {
      PickBeats(digest, subject, entries, j);
    }
  }

  lemma {:induction false} SameMembers(a: seq<Key>, b: seq<Key>)
    requires multiset(a) == multiset(b)
    ensures forall key :: key in a <==> key in b
  {
    forall key ensures key in a <==> key in b {
      assert key in a <==> key in multiset(a);
      assert key in b <==> key in multiset(b);
    }
  }

  lemma {:induction false} GreatestAnyOrder(digest: Digest, subject: string, a: seq<Key>, b: seq<Key>, key: Key)
    requires multiset(a) == multiset(b) && Greatest(digest, subject, a, key)
    ensures Greatest(digest, subject, b, key)
  {
    SameMembers(a, b);
    forall j | 0 <= j < |b| ensures digest(subject, b[j].id) <= digest(subject, key.id) {
      assert b[j] in a;
    }
  }

  /** Any key with the greatest digest is chosen when it is listed last. */
  lemma {:induction false} LastGreatestWins(digest: Digest, subject: string, entries: seq<Key>, i: nat)
    requires i < |entries| && Greatest(digest, subject, entries, entries[i])
    ensures var moved := Without(entries, i) + [entries[i]];
            multiset(moved) == multiset(entries) && Pick(digest, subject, moved) == Some(entries[i])
  {
    var moved := Without(entries, i) + [entries[i]];
    assert entries == entries[..i] + [entries[i]] + entries[i + 1..];
    GreatestAnyOrder(digest, subject, entries, moved, entries[i]);
    var last := |moved| - 1;
    assert forall j | 0 <= j < |moved| :: Beats(digest, subject, moved, last, j);
    PickIsUnique(digest, subject, moved, last);
  }

  /** The choice does not depend on the order of the list exactly when the
      greatest digest belongs to one key; distinct digests are enough. */
  lemma {:induction false} OrderIndependent(digest: Digest, subject: string, entries: seq<Key>)
    ensures (forall other: seq<Key> | multiset(other) == multiset(entries) ::
        Pick(digest, subject, other) == Pick(digest, subject, entries))
            <==> OneGreatest(digest, subject, entries)
  {
    if OneGreatest(digest, subject, entries) {
      forall other: seq<Key> | multiset(other) == multiset(entries)
        ensures Pick(digest, subject, other) == Pick(digest, subject, entries)
      {
        SameChoice(digest, subject, entries, other);
      }
    } else {
      var a, b :| Greatest(digest, subject, entries, a) && Greatest(digest, subject, entries, b) && a != b;
      var i :| 0 <= i < |entries| && entries[i] == a;
      var j :| 0 <= j < |entries| && entries[j] == b;
      LastGreatestWins(digest, subject, entries, i);
      LastGreatestWins(digest, subject, entries, j);
    }
  }

  lemma {:induction false} SameChoice(digest: Digest, subject: string, entries: seq<Key>, other: seq<Key>)
    requires OneGreatest(digest, subject, entries) && multiset(other) == multiset(entries)
    ensures Pick(digest, subject, other) == Pick(digest, subject, entries)
  {
    assert |other| == |multiset(other)| == |multiset(entries)| == |entries|;
    if entries != [] {
      PickIsGreatest(digest, subject, entries);
      PickIsGreatest(digest, subject, other);
      GreatestAnyOrder(digest, subject, other, entries, Pick(digest, subject, other).value);
    }
  }

  lemma {:induction false} DistinctDigestsSuffice(digest: Digest, subject: string, entries: seq<Key>)
    requires forall a, b | a in entries && b in entries && digest(subject, a.id) == digest(subject, b.id) :: a == b
    ensures OneGreatest(digest, subject, entries)
  {
    forall a, b | Greatest(digest, subject, entries, a) && Greatest(digest, subject, entries, b) ensures a == b {
      var i :| 0 <= i < |entries| && entries[i] == a;
      var j :| 0 <= j < |entries| && entries[j] == b;
    }
  }
}
