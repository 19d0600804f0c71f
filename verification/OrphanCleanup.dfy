/** Orphan cleanup by the operator: reservations are listed, re-fetched and deleted under a UID
    precondition while anybody else acts between the calls; only then are pool keys released. */
module OrphanCleanup {
  import opened Prelude
  import opened Addressing
  import opened Codec

  /** A reservation object: its object UID and its spec. */
  datatype OripObject = OripObject(uid: nat, spec: Orip)

  datatype Owner = Owner(podRef: string, ifName: string)

  function OwnerOf(o: OripObject): Owner {
    Owner(o.spec.podRef, o.spec.ifName)
  }

  type Objects = map<string, OripObject>

  datatype Lookup = Found(orip: OripObject) | NotFound | Failed

  datatype Deletion = Deleted | Absent | Refused

  /** The reservation is not there, or belongs to somebody else. */
  predicate NotOwned(objects: Objects, name: string, owner: Owner) {
    name in objects ==> OwnerOf(objects[name]) != owner
  }

  // ---------------------------------------------------------------------
  // The API server
  // ---------------------------------------------------------------------

  /** The stored reservations: every state there has been so far, and the one that the operator's cache
      shows, which may lag behind. Ghost state records which owner each object UID was created with, what
      we deleted, and how many of our calls failed or were refused. */
  class ReservationStore {
    var history: seq<Objects>
    var cache: nat
    var nextUid: nat
    ghost var specOf: map<nat, Owner>
    ghost var deleted: seq<(string, OripObject)>
    ghost var faults: nat

    /** The owner is the one the object's UID was created with. */
    ghost predicate Known(o: OripObject)
      reads this`specOf
    {
      o.uid in specOf && specOf[o.uid] == OwnerOf(o)
    }

    /** Specs are immutable, in all states there have been. */
    ghost predicate Valid()
      reads this
    {
      && cache < |history|
      && (forall uid :: uid in specOf ==> uid < nextUid)
      && (forall t, name :: 0 <= t < |history| && name in history[t] ==> Known(history[t][name]))
    }

    function Now(): Objects
      reads this`history
      requires history != []
    {
      history[|history| - 1]
    }

    /** Time has gone on: nothing that has been stored is forgotten, the cache has not gone back, and no
        UID has changed its owner. */
    twostate predicate Later()
      reads this
    {
      && old(history) <= history && old(cache) <= cache
      && forall uid :: uid in old(specOf) ==> uid in specOf && specOf[uid] == old(specOf)[uid]
    }

    /** Anybody else creates objects under free names and deletes objects, any number of times, and the
        cache catches up with some of it. */
    method Interfere()
      requires Valid()
      modifies this`history, this`cache, this`nextUid, this`specOf
      ensures Valid() && Later()
    {
      var steps: int := *;
      while steps > 0
        invariant Valid() && Later()
      {
        steps := steps - 1;
        var name: string, spec: Orip, syncs: bool := *, *, *;
        if syncs && cache + 1 < |history| {
          cache := cache + 1;
        } else if name in Now() {
          history := history + [Now() - {name}];
        } else {
          specOf := specOf[nextUid := Owner(spec.podRef, spec.ifName)];
          history := history + [Now()[name := OripObject(nextUid, spec)]];
          nextUid := nextUid + 1;
        }
      }
    }

    /** A list through the cache. */
    method List() returns (ok: bool, items: seq<(string, OripObject)>)
      requires Valid()
      modifies this`faults
      ensures faults == if ok then old(faults) else old(faults) + 1
      ensures ok ==> forall name, o :: (name, o) in items <==> name in history[cache] && history[cache][name] == o
    {
      var fails: bool := *;
      if fails {
        faults := faults + 1;
        return false, [];
      }
      var objects := history[cache];
      var rest := objects.Keys;
      items := [];
      while rest != {}
        invariant rest <= objects.Keys
        invariant forall name, o :: (name, o) in items <==> name in objects && name !in rest && objects[name] == o
        decreases rest
      {
        var name :| name in rest;
        rest := rest - {name};
        items := items + [(name, objects[name])];
      }
      return true, items;
    }

    /** A read through the cache. */
    method Get(name: string) returns (r: Lookup)
      requires Valid()
      modifies this`faults
      ensures faults == if r.Failed? then old(faults) + 1 else old(faults)
      ensures r.Found? ==> name in history[cache] && history[cache][name] == r.orip
      ensures r.NotFound? ==> name !in history[cache]
    {
      var fails: bool := *;
      if fails {
        faults := faults + 1;
        return Failed;
      }
      return if name in history[cache] then Found(history[cache][name]) else NotFound;
    }

    /** Delete with a UID precondition, decided on what is stored: a replaced object is refused. */
    method Delete(name: string, uid: nat) returns (r: Deletion)
      requires Valid()
      modifies this`history, this`deleted, this`faults
      ensures Valid() && Later() && faults == if r.Refused? then old(faults) + 1 else old(faults)
      ensures r.Deleted? ==>
        && name in old(Now()) && old(Now())[name].uid == uid
        && history == old(history) + [old(Now()) - {name}] && deleted == old(deleted) + [(name, old(Now())[name])]
      ensures !r.Deleted? ==> history == old(history) && deleted == old(deleted)
      ensures r.Absent? ==> name !in Now()
    {
      var fails: bool := *;
      if fails || (name in Now() && Now()[name].uid != uid) {
        faults := faults + 1;
        r := Refused;
      } else if name !in Now() {
        r := Absent;
      } else {
        deleted := deleted + [(name, Now()[name])];
        history := history + [Now() - {name}];
        r := Deleted;
      }
    }
  }

  // ---------------------------------------------------------------------
  // Cleanup
  // ---------------------------------------------------------------------

  /** A listed reservation that the cleanup must deal with for an orphaned allocation. */
  predicate Targets(decode: string -> Option<Addr>, ip: Option<Addr>, alloc: IPAllocation, name: string, o: OripObject) {
    && ip.Some? && decode(name) == ip
    && alloc.podRef != "" && alloc.ifName != "" && OwnerOf(o) == Owner(alloc.podRef, alloc.ifName)
  }

  /** At some moment since `from` the reservation was gone or belonged to somebody else. */
  ghost predicate Cleared(history: seq<Objects>, from: nat, name: string, alloc: IPAllocation) {
    exists t :: from <= t < |history| && NotOwned(history[t], name, Owner(alloc.podRef, alloc.ifName))
  }

  /** A deletion is justified by an orphaned allocation of the same address and owner. */
  ghost predicate JustifiedBy(decode: string -> Option<Addr>, range: Cidr, orphaned: AllocationMap, name: string, o: OripObject) {
    exists key :: key in orphaned && Targets(decode, AllocationKeyToIP(range, key), orphaned[key], name, o)
  }

  ghost predicate AllJustified(decode: string -> Option<Addr>, range: Cidr, orphaned: AllocationMap, deleted: seq<(string, OripObject)>, from: nat) {
    forall i :: from <= i < |deleted| ==> JustifiedBy(decode, range, orphaned, deleted[i].0, deleted[i].1)
  }

  /** All listed targets of one orphaned key were cleared. */
  ghost predicate KeyCleared(decode: string -> Option<Addr>, range: Cidr, key: string, alloc: IPAllocation,
                             items: seq<(string, OripObject)>, upTo: nat, history: seq<Objects>, from: nat)
    requires upTo <= |items|
  {
    forall i :: 0 <= i < upTo && Targets(decode, AllocationKeyToIP(range, key), alloc, items[i].0, items[i].1) ==>
      Cleared(history, from, items[i].0, alloc)
  }

  /** One listed reservation: re-fetch it, check that it still has the same owner, and delete exactly
      that object. */
  method CleanupOne(store: ReservationStore, name: string, alloc: IPAllocation, ghost from: nat) returns (ok: bool)
    requires store.Valid() && from <= store.cache
    modifies store
    ensures store.Valid() && store.Later() && old(store.deleted) <= store.deleted
    ensures store.faults >= old(store.faults) && (!ok ==> store.faults > old(store.faults))
    ensures forall i :: |old(store.deleted)| <= i < |store.deleted| ==>
              store.deleted[i].0 == name && OwnerOf(store.deleted[i].1) == Owner(alloc.podRef, alloc.ifName)
    ensures ok ==> Cleared(store.history, from, name, alloc)
  {
    store.Interfere();
    var live := store.Get(name);
    ghost var read := store.cache;
    match live {
      case Failed => return false;
      case NotFound =>
        assert NotOwned(store.history[read], name, Owner(alloc.podRef, alloc.ifName));
        return true;
      case Found(o) =>
        if o.spec.podRef != alloc.podRef || o.spec.ifName != alloc.ifName {
          assert NotOwned(store.history[read], name, Owner(alloc.podRef, alloc.ifName));
          return true;
        }
        assert store.Known(o);
        store.Interfere();
        assert store.Known(o);
        var r := store.Delete(name, o.uid);
        if r.Refused? { return false; }
        assert NotOwned(store.history[|store.history| - 1], name, Owner(alloc.podRef, alloc.ifName));
        return true;
    }
  }

  /** The listed reservations of one orphaned key. A failure is remembered, and the others are still
      tried. */
  method CleanupKey(store: ReservationStore, range: Cidr, key: string, alloc: IPAllocation, items: seq<(string, OripObject)>,
                    decode: string -> Option<Addr>, ghost orphaned: AllocationMap, ghost from: nat)
    returns (ok: bool)
    requires store.Valid() && from <= store.cache && key in orphaned && orphaned[key] == alloc
    modifies store
    ensures store.Valid() && store.Later() && old(store.deleted) <= store.deleted
    ensures store.faults >= old(store.faults) && (!ok ==> store.faults > old(store.faults))
    ensures AllJustified(decode, range, orphaned, store.deleted, |old(store.deleted)|)
    ensures ok ==> KeyCleared(decode, range, key, alloc, items, |items|, store.history, from)
  {
    var ip := AllocationKeyToIP(range, key);
    ok := true;
    if ip.None? { return; }
    for i := 0 to |items|
      invariant store.Valid() && store.Later() && old(store.deleted) <= store.deleted
      invariant store.faults >= old(store.faults) && (!ok ==> store.faults > old(store.faults))
      invariant AllJustified(decode, range, orphaned, store.deleted, |old(store.deleted)|)
      invariant ok ==> KeyCleared(decode, range, key, alloc, items, i, store.history, from)
    {
      var (name, o) := items[i];
      if decode(name) != ip || alloc.podRef == "" || o.spec.podRef != alloc.podRef
         || alloc.ifName == "" || o.spec.ifName != alloc.ifName {
        continue;
      }
      ghost var history, deleted := store.history, store.deleted;
      var done := CleanupOne(store, name, alloc, from);
      forall d | |deleted| <= d < |store.deleted|
        ensures JustifiedBy(decode, range, orphaned, store.deleted[d].0, store.deleted[d].1)
      {
        assert Targets(decode, AllocationKeyToIP(range, key), orphaned[key], store.deleted[d].0, store.deleted[d].1);
      }
      if !done {
        ok := false;
      } else if ok {
        EarlierStayCleared(decode, range, key, alloc, items, i, history, store.history, from);
      }
    }
  }

  lemma EarlierStayCleared(decode: string -> Option<Addr>, range: Cidr, key: string, alloc: IPAllocation,
                           items: seq<(string, OripObject)>, upTo: nat, history: seq<Objects>, history': seq<Objects>, from: nat)
    requires upTo <= |items| && KeyCleared(decode, range, key, alloc, items, upTo, history, from) && history <= history'
    ensures KeyCleared(decode, range, key, alloc, items, upTo, history', from)
  {
  }

  /** Every target listed for one of the keys was cleared. */
  ghost predicate AllCleared(decode: string -> Option<Addr>, range: Cidr, orphaned: AllocationMap, keys: set<string>,
                             items: seq<(string, OripObject)>, history: seq<Objects>, from: nat) {
    forall key :: key in keys && key in orphaned ==>
      KeyCleared(decode, range, key, orphaned[key], items, |items|, history, from)
  }

  lemma KeysStayCleared(decode: string -> Option<Addr>, range: Cidr, orphaned: AllocationMap, keys: set<string>,
                        items: seq<(string, OripObject)>, history: seq<Objects>, history': seq<Objects>, from: nat)
    requires AllCleared(decode, range, orphaned, keys, items, history, from) && history <= history'
    ensures AllCleared(decode, range, orphaned, keys, items, history', from)
  {
    forall key | key in keys && key in orphaned
      ensures KeyCleared(decode, range, key, orphaned[key], items, |items|, history', from)
    {
      EarlierStayCleared(decode, range, key, orphaned[key], items, |items|, history, history', from);
    }
  }

  /** Every reservation stored at the moment the list shows, for an orphaned allocation, has been dealt
      with: at some moment since, it was gone or belonged to somebody else. */
  ghost predicate CleanedUp(decode: string -> Option<Addr>, range: Cidr, orphaned: AllocationMap, history: seq<Objects>, listed: nat) {
    && listed < |history|
    && forall key, name ::
         (key in orphaned && name in history[listed]
          && Targets(decode, AllocationKeyToIP(range, key), orphaned[key], name, history[listed][name]))
         ==> Cleared(history, listed, name, orphaned[key])
  }

  lemma ClearedListIsCleanedUp(decode: string -> Option<Addr>, range: Cidr, orphaned: AllocationMap,
                               items: seq<(string, OripObject)>, history: seq<Objects>, listed: nat)
    requires listed < |history| && AllCleared(decode, range, orphaned, orphaned.Keys, items, history, listed)
    requires forall name, o :: (name, o) in items <==> name in history[listed] && history[listed][name] == o
    ensures CleanedUp(decode, range, orphaned, history, listed)
  {
    forall key, name | key in orphaned && name in history[listed]
      && Targets(decode, AllocationKeyToIP(range, key), orphaned[key], name, history[listed][name])
      ensures Cleared(history, listed, name, orphaned[key])
    {
      assert (name, history[listed][name]) in items;
      var i :| 0 <= i < |items| && items[i] == (name, history[listed][name]);
      assert KeyCleared(decode, range, key, orphaned[key], items, |items|, history, listed);
    }
  }

  /** cleanupOverlappingReservations. Whatever others do between the calls, and however far the cache lags
      behind, it deletes only objects whose address and owner are those of an orphaned allocation; and
      when it reports success, every reservation the list showed for an orphaned allocation was deleted,
      gone, or somebody else's at some moment since the one the list shows. */
  method CleanupOverlappingReservations(store: ReservationStore, range: Cidr, orphaned: AllocationMap, decode: string -> Option<Addr>)
    returns (ok: bool, ghost listed: nat)
    requires store.Valid()
    modifies store
    ensures store.Valid() && store.Later() && old(store.deleted) <= store.deleted
    ensures store.faults >= old(store.faults) && (!ok ==> store.faults > old(store.faults))
    ensures AllJustified(decode, range, orphaned, store.deleted, |old(store.deleted)|)
    ensures ok ==> old(store.cache) <= listed && CleanedUp(decode, range, orphaned, store.history, listed)
  {
    store.Interfere();
    listed := store.cache;
    var found, items := store.List();
    if !found { return false, listed; }
    ghost var atList := store.history;
    ok := true;
    var rest := orphaned.Keys;
    while rest != {}
      invariant store.Valid() && store.Later() && old(store.deleted) <= store.deleted
      invariant store.faults >= old(store.faults) && (!ok ==> store.faults > old(store.faults))
      invariant rest <= orphaned.Keys && atList <= store.history && listed <= store.cache
      invariant AllJustified(decode, range, orphaned, store.deleted, |old(store.deleted)|)
      invariant ok ==> AllCleared(decode, range, orphaned, orphaned.Keys - rest, items, store.history, listed)
      decreases rest
    {
      var key :| key in rest;
      rest := rest - {key};
      ghost var history := store.history;
      var done := CleanupKey(store, range, key, orphaned[key], items, decode, orphaned, listed);
      if !done {
        ok := false;
      } else if ok {
        KeysStayCleared(decode, range, orphaned, orphaned.Keys - rest - {key}, items, history, store.history, listed);
      }
    }
    if ok {
      assert orphaned.Keys - rest == orphaned.Keys;
      ClearedListIsCleanedUp(decode, range, orphaned, items, store.history, listed);
    }
  }

  // ---------------------------------------------------------------------
  // Release
  // ---------------------------------------------------------------------

  /** removeAllocations: the map without the given keys. */
  method RemoveAllocations(content: AllocationMap, keys: set<string>) returns (kept: AllocationMap)
    ensures kept == content - keys
  {
    kept := map[];
    var rest := content.Keys;
    while rest != {}
      invariant rest <= content.Keys
      invariant kept == map key | key in content && key !in rest && key !in keys :: content[key]
      decreases rest
    {
      var key :| key in rest;
      rest := rest - {key};
      if key !in keys {
        kept := kept[key := content[key]];
      }
    }
  }

  /** A stored pool. Ghost state records the keys our patches removed, the content of the pool when we
      removed its finalizer, after which the pool ceases to exist, and how many of our writes failed or
      were refused. */
  class IPPool {
    var content: AllocationMap
    var version: nat
    var deleting: bool
    var finalizer: bool
    ghost var removed: seq<AllocationMap>
    ghost var finalized: Option<AllocationMap>
    ghost var faults: nat

    /** Anybody else writes the pool, each time with a new version. */
    method Interfere()
      modifies this`content, this`version, this`deleting, this`finalizer
      ensures version == old(version) ==> content == old(content)
    {
      var writes: nat := *;
      if writes > 0 {
        content, deleting, finalizer := *, *, *;
        version := version + writes;
      }
    }

    /** A merge patch without a version test: the keys are removed from whatever is stored now. */
    method PatchRemove(keys: set<string>)
      modifies this`content, this`version, this`removed, this`faults
      ensures faults == old(faults) ==> content == old(content) - keys
      ensures faults != old(faults) ==> faults == old(faults) + 1 && content == old(content)
      ensures removed == if content == old(content) && version == old(version) then old(removed)
                         else old(removed) + [map key | key in keys && key in old(content) :: old(content)[key]]
    {
      var fails: bool := *;
      if fails {
        faults := faults + 1;
      } else {
        removed := removed + [map key | key in keys && key in content :: content[key]];
        content := RemoveAllocations(content, keys);
        version := version + 1;
      }
    }

    /** An update of the finalizer list, refused if the pool has changed since `read`. */
    method UpdateFinalizer(present: bool, read: nat)
      modifies this`finalizer, this`version, this`finalized, this`faults
      ensures finalized == old(finalized) || (!present && old(version) == read && finalized == Some(content))
      ensures faults == old(faults) ==> old(version) == read && finalizer == present && (!present ==> finalized == Some(content))
      ensures faults != old(faults) ==> faults == old(faults) + 1 && finalizer == old(finalizer)
      ensures version == if faults == old(faults) then old(version) + 1 else old(version)
    {
      var fails: bool := *;
      if !fails && version == read {
        finalizer, version := present, version + 1;
        if !present { finalized := Some(content); }
      } else {
        faults := faults + 1;
      }
    }
  }

  /** The loop that collects the orphaned allocations. */
  method CollectOrphans(content: AllocationMap, isOrphan: (string, IPAllocation) -> bool) returns (orphans: AllocationMap)
    ensures forall key :: key in orphans <==> key in content && isOrphan(key, content[key])
    ensures forall key :: key in orphans ==> orphans[key] == content[key]
  {
    orphans := map[];
    var rest := content.Keys;
    while rest != {}
      invariant rest <= content.Keys
      invariant forall key :: key in orphans <==> key in content && key !in rest && isOrphan(key, content[key])
      invariant forall key :: key in orphans ==> orphans[key] == content[key]
      decreases rest
    {
      var key :| key in rest;
      rest := rest - {key};
      if isOrphan(key, content[key]) {
        orphans := orphans[key := content[key]];
      }
    }
  }

  /** The reconcile pass over one pool as it was read, perhaps some time ago, with the pod checks given as
      a predicate. What it releases are the orphaned allocations, or all of them if the pool is being
      deleted; it deletes no other reservations, and removes keys only in its last write and only after
      their cleanup succeeded. It removes the finalizer only after the cleanup of every allocation the
      pool then holds. If no call fails or is refused, no orphaned key is left, and a pool that is being
      deleted loses its finalizer. */
  method Reconcile(pool: IPPool, store: ReservationStore, range: Cidr, decode: string -> Option<Addr>,
                   isOrphan: (string, IPAllocation) -> bool)
    returns (ghost listed: nat, ghost released: AllocationMap)
    requires store.Valid()
    modifies pool, store
    ensures store.Valid() && old(store.deleted) <= store.deleted
    ensures forall key :: key in released <==>
              key in old(pool.content) && (old(pool.deleting) || isOrphan(key, old(pool.content)[key]))
    ensures forall key :: key in released ==> released[key] == old(pool.content)[key]
    ensures AllJustified(decode, range, released, store.deleted, |old(store.deleted)|)
    ensures pool.removed != old(pool.removed) ==>
              && !old(pool.deleting) && |pool.removed| == |old(pool.removed)| + 1
              && pool.removed[|old(pool.removed)|].Keys <= released.Keys
              && old(store.cache) <= listed && CleanedUp(decode, range, released, store.history, listed)
    ensures pool.finalized != old(pool.finalized) ==>
              && old(pool.deleting) && pool.finalized == Some(old(pool.content))
              && (released == map[] || (old(store.cache) <= listed && CleanedUp(decode, range, released, store.history, listed)))
    ensures pool.faults == old(pool.faults) && store.faults == old(store.faults) && old(pool.finalizer) ==>
              if old(pool.deleting) then pool.finalized == Some(old(pool.content)) else released.Keys !! pool.content.Keys
    ensures pool.faults == old(pool.faults) && !old(pool.deleting) && !old(pool.finalizer) ==> pool.finalizer
  {
    listed := 0;
    var content, version, deleting, hasFinalizer := pool.content, pool.version, pool.deleting, pool.finalizer;
    if deleting {
      released := content;
      if !hasFinalizer { return; }
      if content != map[] {
        var ok;
        ok, listed := CleanupOverlappingReservations(store, range, content, decode);
        if !ok { return; }
      }
      pool.Interfere();
      pool.UpdateFinalizer(false, version);
      return;
    }
    if !hasFinalizer {
      released := map key | key in content && isOrphan(key, content[key]) :: content[key];
      pool.Interfere();
      pool.UpdateFinalizer(true, version);
      return;
    }
    var orphans := CollectOrphans(content, isOrphan);
    released := orphans;
    if orphans == map[] { return; }
    var ok;
    ok, listed := CleanupOverlappingReservations(store, range, orphans, decode);
    if !ok { return; }
    pool.Interfere();
    pool.PatchRemove(orphans.Keys);
  }
}
