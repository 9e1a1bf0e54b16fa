/** The process-wide, refcounted cache of provisioned store backends
    (store-lifecycle/src/lib.rs) as a value. Each operation is the critical
    section the cache runs under one entry lock, so concurrent provisioning and
    release are interleavings of these operations. */
module Leases {

  datatype CacheKey = CacheKey(backendId: string, config: string)

  /** One cached backend: which built instance it is, and how many leases hold it. */
  datatype Cached = Cached(instance: nat, refcount: nat)

  /** One refcount: lease `lease` lists `key` among its keys. */
  datatype Hold = Hold(lease: nat, key: CacheKey)

  /** `holds` are the keys of every lease not yet released, `built` numbers the
      instances ever built, and `retired` are those whose pool was closed. */
  datatype Cache = Cache(entries: map<CacheKey, Cached>, holds: set<Hold>, built: nat, retired: set<nat>)

  ghost function Holders(holds: set<Hold>, key: CacheKey): set<Hold>
  {
    set h | h in holds && h.key == key
  }

  ghost predicate Counted(c: Cache)
  {
    && (forall h | h in c.holds :: h.key in c.entries)
    && (forall k | k in c.entries :: 0 < c.entries[k].refcount == |Holders(c.holds, k)|)
  }

  ghost predicate Distinct(c: Cache)
  {
    && (forall k | k in c.entries :: c.entries[k].instance < c.built && c.entries[k].instance !in c.retired)
    && (forall j, k | j in c.entries && k in c.entries && j != k :: c.entries[j].instance != c.entries[k].instance)
    && (forall i | i in c.retired :: i < c.built)
  }

  /** No pool leaks: every instance ever built is cached or was closed. */
  ghost predicate Accounted(c: Cache)
  {
    forall i | 0 <= i < c.built && i !in c.retired :: exists k :: k in c.entries && c.entries[k].instance == i
  }

  ghost predicate Valid(c: Cache)
  {
    Counted(c) && Distinct(c) && Accounted(c)
  }

  /** Take one refcount on a cached backend, at most one per lease. */
  function Reuse(c: Cache, h: Hold): Cache
    requires h.key in c.entries
  {
    if h in c.holds then c
    else
      var e := c.entries[h.key];
      c.(entries := c.entries[h.key := e.(refcount := e.refcount + 1)], holds := c.holds + {h})
  }

  /** Publish a freshly built backend, or retire it when another build won. */
  function InsertOrReuse(c: Cache, h: Hold): Cache
  {
    if h.key in c.entries then
      Reuse(c.(built := c.built + 1, retired := c.retired + {c.built}), h)
    else
      c.(entries := c.entries[h.key := Cached(c.built, 1)], holds := c.holds + {h}, built := c.built + 1)
  }

  /** Drop one refcount and retire the backend when it was the last. */
  function Release(c: Cache, h: Hold): Cache
  {
    if h.key !in c.entries then c.(holds := c.holds - {h})
    else
      var e := c.entries[h.key];
      if e.refcount <= 1 then
        c.(entries := c.entries - {h.key}, holds := c.holds - {h}, retired := c.retired + {e.instance})
      else
        c.(entries := c.entries[h.key := e.(refcount := e.refcount - 1)], holds := c.holds - {h})
  }

  lemma {:induction false} HoldersAdded(holds: set<Hold>, h: Hold, k: CacheKey)
    requires h !in holds
    ensures |Holders(holds + {h}, k)| == |Holders(holds, k)| + if h.key == k then 1 else 0
  {
    if h.key == k {
      assert Holders(holds + {h}, k) == Holders(holds, k) + {h};
    } else {
      assert Holders(holds + {h}, k) == Holders(holds, k);
    }
  }

  lemma {:induction false} ReuseKeepsCount(c: Cache, h: Hold)
    requires Counted(c) && h.key in c.entries
    ensures Counted(Reuse(c, h))
  {
    if h !in c.holds {
      forall k | k in c.entries
        ensures |Holders(c.holds + {h}, k)| == |Holders(c.holds, k)| + if h.key == k then 1 else 0
      {
        HoldersAdded(c.holds, h, k);
      }
    }
  }

  lemma {:induction false} InsertKeepsCount(c: Cache, h: Hold)
    requires Counted(c)
    ensures Counted(InsertOrReuse(c, h))
  {
    if h.key in c.entries {
      ReuseKeepsCount(c.(built := c.built + 1, retired := c.retired + {c.built}), h);
    } else {
      forall k ensures |Holders(c.holds + {h}, k)| == |Holders(c.holds, k)| + if h.key == k then 1 else 0 {
        HoldersAdded(c.holds, h, k);
      }
      assert Holders(c.holds, h.key) == {};
    }
  }

  lemma {:induction false} ReuseDistinct(c: Cache, h: Hold)
    requires Distinct(c) && h.key in c.entries
    ensures Distinct(Reuse(c, h))
  {
  }

  lemma {:induction false} ReuseAccounted(c: Cache, h: Hold)
    requires Accounted(c) && h.key in c.entries
    ensures Accounted(Reuse(c, h))
  {
    var c' := Reuse(c, h);
    forall i | 0 <= i < c'.built && i !in c'.retired
      ensures exists k :: k in c'.entries && c'.entries[k].instance == i
    {
      var k :| k in c.entries && c.entries[k].instance == i;
      assert k in c'.entries && c'.entries[k].instance == i;
    }
  }

  lemma {:induction false} ReuseValid(c: Cache, h: Hold)
    requires Valid(c) && h.key in c.entries
    ensures Valid(Reuse(c, h)) && Reuse(c, h).holds == c.holds + {h}
    ensures forall k | k in c.entries ::
        k in Reuse(c, h).entries && Reuse(c, h).entries[k].instance == c.entries[k].instance
  {
    ReuseKeepsCount(c, h);
    ReuseDistinct(c, h);
    ReuseAccounted(c, h);
  }

  lemma {:induction false} InsertDistinct(c: Cache, h: Hold)
    requires Distinct(c) && h.key !in c.entries
    ensures Distinct(InsertOrReuse(c, h))
  {
  }

  lemma {:induction false} InsertAccounted(c: Cache, h: Hold)
    requires Accounted(c) && h.key !in c.entries
    ensures Accounted(InsertOrReuse(c, h))
  {
    var c' := InsertOrReuse(c, h);
    forall i | 0 <= i < c'.built && i !in c'.retired
      ensures exists k :: k in c'.entries && c'.entries[k].instance == i
    {
      if i < c.built {
        var k :| k in c.entries && c.entries[k].instance == i;
        assert k in c'.entries && c'.entries[k].instance == i;
      } else {
        assert h.key in c'.entries && c'.entries[h.key].instance == i;
      }
    }
  }

  /** A built backend is inserted, or loses to the one already cached, without
      disturbing any other holder; either way the holder ends up on an instance
      whose pool is open. */
  lemma {:induction false} InsertValid(c: Cache, h: Hold)
    requires Valid(c)
    ensures Valid(InsertOrReuse(c, h)) && InsertOrReuse(c, h).holds == c.holds + {h}
    ensures h.key in InsertOrReuse(c, h).entries
    ensures forall k | k in c.entries ::
              k in InsertOrReuse(c, h).entries && InsertOrReuse(c, h).entries[k].instance == c.entries[k].instance
  {
    if h.key in c.entries {
      var d := c.(built := c.built + 1, retired := c.retired + {c.built});
      assert Valid(d);
      ReuseValid(d, h);
    } else {
      InsertKeepsCount(c, h);
      InsertDistinct(c, h);
      InsertAccounted(c, h);
    }
  }

  lemma {:induction false} HoldersRemoved(holds: set<Hold>, h: Hold, k: CacheKey)
    requires h in holds
    ensures |Holders(holds, k)| == |Holders(holds - {h}, k)| + if h.key == k then 1 else 0
  {
    HoldersAdded(holds - {h}, h, k);
    assert holds - {h} + {h} == holds;
  }

  ghost predicate OnlyHolder(holds: set<Hold>, h: Hold)
  {
    forall g | g in holds && g.key == h.key :: g == h
  }

  lemma {:induction false} LastRefcount(c: Cache, h: Hold)
    requires Counted(c) && h in c.holds
    ensures c.entries[h.key].refcount <= 1 <==> OnlyHolder(c.holds, h)
  {
    var rest := Holders(c.holds - {h}, h.key);
    HoldersRemoved(c.holds, h, h.key);
    assert forall g | g in c.holds && g.key == h.key && g != h :: g in rest;
    if rest != {} {
      var g :| g in rest;
    }
  }

  lemma {:induction false} ReleaseKeepsCount(c: Cache, h: Hold)
    requires Counted(c) && h in c.holds
    ensures Counted(Release(c, h))
  {
    LastRefcount(c, h);
    forall k | k in c.entries
      ensures |Holders(c.holds, k)| == |Holders(c.holds - {h}, k)| + if h.key == k then 1 else 0
    {
      HoldersRemoved(c.holds, h, k);
    }
  }

  lemma {:induction false} ReleaseDistinct(c: Cache, h: Hold)
    requires Distinct(c)
    ensures Distinct(Release(c, h))
  {
  }

  lemma {:induction false} ReleaseAccounted(c: Cache, h: Hold)
    requires Accounted(c)
    ensures Accounted(Release(c, h))
  {
    var c' := Release(c, h);
    forall i | 0 <= i < c'.built && i !in c'.retired
      ensures exists k :: k in c'.entries && c'.entries[k].instance == i
    {
      var k :| k in c.entries && c.entries[k].instance == i;
      assert k in c'.entries && c'.entries[k].instance == i;
    }
  }

  /** Releasing a held key keeps every other holder on the instance it had, and
      closes the pool exactly when no other lease holds the key. */
  lemma {:induction false} ReleaseValid(c: Cache, h: Hold)
    requires Valid(c) && h in c.holds
    ensures Valid(Release(c, h)) && Release(c, h).holds == c.holds - {h}
    ensures forall g | g in c.holds && g != h ::
              g.key in Release(c, h).entries && Release(c, h).entries[g.key].instance == c.entries[g.key].instance
    ensures Release(c, h).retired == c.retired + if OnlyHolder(c.holds, h) then {c.entries[h.key].instance} else {}
  {
    ReleaseKeepsCount(c, h);
    LastRefcount(c, h);
    ReleaseDistinct(c, h);
    ReleaseAccounted(c, h);
  }
}
