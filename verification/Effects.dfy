/** What an ADD may have changed in the cluster: the pool keys and reservations it created, container
    IDs on entries its pod already owned, and stale reservations it deleted. */
module Effects {
  import opened Addressing
  import opened Allocation
  import opened Codec
  import opened AddAttempt
  import opened Cluster

  /** The CNI call: the requester, and the UID of its pod. */
  datatype Caller = Caller(who: Requester, podUID: string) {
    function Mine(): Orip {
      Orip(who.podRef, who.ifName, podUID)
    }

    /** A reservation of an earlier pod of the same name. */
    predicate Stale(o: Orip) {
      && !Foreign(o)
      && podUID != "" && o.podUID != "" && o.podUID != podUID
    }

    predicate Foreign(o: Orip) {
      ForeignTo(o, who.podRef, who.ifName)
    }
  }

  /** The keys and reservations that exist only because of this ADD. */
  datatype Added = Added(keys: set<(PoolId, nat)>, addrs: set<RawAddr>)

  const NOTHING := Added({}, {})

  ghost predicate EntryDiffers(c: Caller, before: Offsets, after: Offsets, created: bool, k: nat) {
    && (k in after <==> k in before || created)
    && (created ==> k !in before)
    && (k in after && k in before && after[k] != before[k] ==> OwnedBy(before[k], c.who) && after[k] == Alloc(c.who))
    && (created && k in after ==> after[k] == Alloc(c.who))
  }

  ghost predicate PoolsDiffer(c: Caller, before: World, after: World, keys: set<(PoolId, nat)>) {
    forall id: PoolId, k: nat :: EntryDiffers(c, before.At(id), after.At(id), (id, k) in keys, k)
  }

  ghost predicate ReservationDiffers(c: Caller, before: map<RawAddr, Orip>, after: map<RawAddr, Orip>, created: bool, a: RawAddr) {
    if created
    then a in after && after[a] == c.Mine() && (a in before ==> c.Stale(before[a]))
    else (a in after ==> a in before && after[a] == before[a]) && (a in before && a !in after ==> c.Stale(before[a]))
  }

  ghost predicate ReservationsDiffer(c: Caller, before: map<RawAddr, Orip>, after: map<RawAddr, Orip>, addrs: set<RawAddr>) {
    forall a :: ReservationDiffers(c, before, after, a in addrs, a)
  }

  /** Compared with `before`, the cluster holds what `added` says and is otherwise the same, except for
      container IDs on entries the pod owned and stale reservations that are gone. */
  ghost predicate Differs(c: Caller, before: World, after: World, added: Added) {
    PoolsDiffer(c, before, after, added.keys) && ReservationsDiffer(c, before.orips, after.orips, added.addrs)
  }

  /** Everything this ADD created is gone again. */
  ghost predicate Restored(c: Caller, before: World, after: World) {
    Differs(c, before, after, NOTHING)
  }

  lemma SameIsRestored(c: Caller, w: World)
    ensures Restored(c, w, w)
  {
  }

  // ---------------------------------------------------------------------
  // Steps
  // ---------------------------------------------------------------------

  /** Only what pool `id` holds is different, and it is now m. */
  ghost predicate OnlyPool(before: World, after: World, id: PoolId, m: Offsets) {
    && after.orips == before.orips && after.At(id) == m
    && forall j :: j != id ==> after.At(j) == before.At(j)
  }

  lemma AddKey(c: Caller, w0: World, w: World, w': World, added: Added, id: PoolId, k: nat) returns (added': Added)
    requires Differs(c, w0, w, added) && OnlyPool(w, w', id, w.At(id)[k := Alloc(c.who)])
    requires k in w.At(id) ==> OwnedBy(w.At(id)[k], c.who)
    ensures Differs(c, w0, w', added')
    ensures added' == if k in w.At(id) then added else added.(keys := added.keys + {(id, k)})
  {
    added' := if k in w.At(id) then added else added.(keys := added.keys + {(id, k)});
    forall i: PoolId, j: nat ensures EntryDiffers(c, w0.At(i), w'.At(i), (i, j) in added'.keys, j) {
      assert EntryDiffers(c, w0.At(i), w.At(i), (i, j) in added.keys, j);
    }
  }

  lemma RemoveKey(c: Caller, w0: World, w: World, w': World, added: Added, id: PoolId, k: nat)
    requires Differs(c, w0, w, added) && OnlyPool(w, w', id, w.At(id) - {k}) && (id, k) in added.keys
    ensures Differs(c, w0, w', added.(keys := added.keys - {(id, k)}))
  {
  }

  ghost predicate SamePools(before: World, after: World) {
    forall id :: after.At(id) == before.At(id)
  }

  lemma SamePoolsDiffer(c: Caller, w0: World, w: World, w': World, keys: set<(PoolId, nat)>)
    requires PoolsDiffer(c, w0, w, keys) && SamePools(w, w')
    ensures PoolsDiffer(c, w0, w', keys)
  {
  }

  lemma DeleteStale(c: Caller, w0: World, w: World, w': World, added: Added, a: RawAddr)
    requires Differs(c, w0, w, added) && SamePools(w, w')
    requires a in w.orips && c.Stale(w.orips[a]) && w'.orips == w.orips - {a}
    ensures Differs(c, w0, w', added)
  {
  }

  lemma DeleteMine(c: Caller, w0: World, w: World, w': World, added: Added, a: RawAddr)
    requires Differs(c, w0, w, added) && SamePools(w, w')
    requires a in added.addrs && w'.orips == w.orips - {a}
    ensures Differs(c, w0, w', added.(addrs := added.addrs - {a}))
  {
  }

  // ---------------------------------------------------------------------
  // Sequences of steps
  // ---------------------------------------------------------------------

  function Both(a: Added, b: Added): Added {
    Added(a.keys + b.keys, a.addrs + b.addrs)
  }

  /** Differences add up, and nothing is added twice. */
  lemma Compose(c: Caller, w0: World, w: World, w': World, a: Added, b: Added)
    requires Differs(c, w0, w, a) && Differs(c, w, w', b)
    ensures Differs(c, w0, w', Both(a, b)) && a.keys !! b.keys && a.addrs !! b.addrs
  {
    forall id: PoolId, k: nat
      ensures EntryDiffers(c, w0.At(id), w'.At(id), (id, k) in a.keys + b.keys, k) && !((id, k) in a.keys && (id, k) in b.keys)
    {
      assert EntryDiffers(c, w0.At(id), w.At(id), (id, k) in a.keys, k);
      assert EntryDiffers(c, w.At(id), w'.At(id), (id, k) in b.keys, k);
    }
    assert forall key :: key in a.keys ==> key == (key.0, key.1) && key !in b.keys;
    forall x
      ensures ReservationDiffers(c, w0.orips, w'.orips, x in a.addrs + b.addrs, x) && !(x in a.addrs && x in b.addrs)
    {
      assert ReservationDiffers(c, w0.orips, w.orips, x in a.addrs, x);
      assert ReservationDiffers(c, w.orips, w'.orips, x in b.addrs, x);
    }
  }

  lemma ThenDiffers(c: Caller, w0: World, w: World, w': World, added: Added)
    requires Restored(c, w0, w) && Differs(c, w, w', added)
    ensures Differs(c, w0, w', added)
  {
    hide Differs;
    Compose(c, w0, w, w', NOTHING, added);
    assert Both(NOTHING, added) == added;
  }

  /** The address is the caller's: its entry is stored and, with overlap checking, so is a reservation of
      the same pod lifecycle. */
  ghost predicate Secured(c: Caller, w: World, overlap: bool, range: RawPrefix, ip: RawAddr) {
    && ip.family == range.family && range.base <= ip.value
    && ip.value - range.base in w.At(range) && w.At(range)[ip.value - range.base] == Alloc(c.who)
    && (overlap ==> ip in w.orips && !c.Foreign(w.orips[ip]) && !c.Stale(w.orips[ip]))
  }

  /** The address is reserved by somebody else. */
  ghost predicate Contended(c: Caller, w: World, ip: RawAddr) {
    ip in w.orips && c.Foreign(w.orips[ip])
  }

  /** What the caller has secured, and what others have reserved, survives the caller's further steps. */
  lemma StaysSecured(c: Caller, w: World, w': World, added: Added, overlap: bool, range: RawPrefix, ip: RawAddr)
    requires Differs(c, w, w', added)
    ensures Secured(c, w, overlap, range, ip) ==> Secured(c, w', overlap, range, ip)
    ensures Contended(c, w, ip) ==> Contended(c, w', ip)
  {
    if range.base <= ip.value {
      var k := ip.value - range.base;
      assert EntryDiffers(c, w.At(range), w'.At(range), (range, k) in added.keys, k);
    }
    assert ReservationDiffers(c, w.orips, w'.orips, ip in added.addrs, ip);
  }
}
