/** Undoing committed ranges: each pool entry is removed through a re-read and a compare-and-swap, then
    its reservation is deleted. */
module Rollback {
  import opened Prelude
  import opened Addressing
  import opened Allocation
  import opened Codec
  import opened AddAttempt
  import opened PoolRelease
  import opened Cluster
  import opened Effects

  const ROLLBACK_RETRIES: nat := 5

  /** No call failed, or none for good and fewer for now than a rollback has attempts with a re-read. */
  ghost predicate FewFaults(faults: nat, lasting: nat, faults': nat, lasting': nat) {
    faults' == faults || (lasting' == lasting && faults' < faults + ROLLBACK_RETRIES - 1)
  }

  /** One range of an ADD: the pool object that was written, unless the entry was there before, and the
      reservation that was created, if any. */
  datatype Commit = Commit(pool: KubernetesIPPool?, ip: Addr, overlapIP: Option<Addr>)

  ghost predicate AllInFamily(offsets: map<PoolId, Offsets>) {
    forall id, k :: id in offsets && k in offsets[id] ==> id.base + k < Space(id.family)
  }

  lemma StoredAt(w: World, range: Prefix)
    requires range in w.offsets
    ensures w.At(range) == w.offsets[range]
  {
  }

  lemma CopyInFamily(offsets: map<PoolId, Offsets>, range: Prefix)
    requires AllInFamily(offsets) && range in offsets
    ensures InFamily(offsets[range], NetworkIP(range))
  {
    hide Space, Pow2;
  }

  lemma FewerInFamily(offsets: map<PoolId, Offsets>, offsets': map<PoolId, Offsets>, id: PoolId, k: nat)
    requires AllInFamily(offsets) && id in offsets && offsets' == offsets[id := offsets[id] - {k}]
    ensures AllInFamily(offsets')
  {
    hide Space, Pow2;
  }

  /** The offset of an address in a pool. */
  function OffsetIn(id: PoolId, ip: RawAddr): nat {
    if id.base <= ip.value then ip.value - id.base else 0
  }

  function Key(pool: KubernetesIPPool, ip: RawAddr): (PoolId, nat) {
    (pool.id, OffsetIn(pool.id, ip))
  }

  // ---------------------------------------------------------------------
  // Reservations
  // ---------------------------------------------------------------------

  /** rollbackOverlappingReservation. */
  method RollbackReservation(server: ApiServer, c: Caller, ip: RawAddr) returns (failed: bool)
    modifies server`orips, server`faults, server`lasting
    ensures server.faults >= old(server.faults) && server.lasting >= old(server.lasting)
    ensures failed ==> !FewFaults(old(server.faults), old(server.lasting), server.faults, server.lasting)
    ensures failed ==> server.orips == old(server.orips)
    ensures !failed ==> server.orips == if Guarded(old(server.orips), ip, c.podUID) then old(server.orips) else old(server.orips) - {ip}
  {
    failed := true;
    var attempt := 0;
    while attempt < ROLLBACK_RETRIES
      invariant failed && server.orips == old(server.orips)
      invariant server.faults == old(server.faults) + attempt && server.lasting == old(server.lasting)
    {
      var e := server.DeleteReservation(ip, c.podUID);
      if e.None? { return false; }
      assert e.value.Temporary? || e.value.Permanent?;
      if e != Some(Temporary) { return true; }
      attempt := attempt + 1;
    }
  }

  // ---------------------------------------------------------------------
  // Pool entries
  // ---------------------------------------------------------------------

  method Clean(list: seq<Reservation>, ip: Addr, who: Requester) returns (cleaned: seq<Reservation>, removed: bool)
    ensures cleaned == Cleaned(list, ip, who) && (removed <==> |cleaned| < |list|)
  {
    cleaned, removed := [], false;
    for i := 0 to |list|
      invariant cleaned == Cleaned(list[..i], ip, who)
      invariant |cleaned| <= i && (removed <==> |cleaned| < i)
    {
      assert list[..i + 1][..i] == list[..i];
      if !RollbackMatches(ip, who, list[i]) {
        cleaned := cleaned + [list[i]];
      } else {
        removed := true;
      }
    }
    assert list[..|list|] == list;
  }

  /** What a rollback may find in a pool object: the entry as its ADD wrote it, in an object that is
      older than the stored pool, or no such entry at all. */
  ghost predicate Undoable(pools: map<PoolId, Stored>, c: Caller, keys: set<(PoolId, nat)>, pool: KubernetesIPPool, ip: Addr)
    reads pool
  {
    && pool.Valid() && ip.family == pool.id.family && pool.id.base <= ip.value
    && InFamily(pool.offsets, pool.firstIP)
    && (StillCommitted(pool.offsets, c.who, OffsetIn(pool.id, ip)) ==>
          && Key(pool, ip) in keys
          && pool.id in pools && pool.version < pools[pool.id].version)
  }

  /** The list half of a rollback attempt: the records of the object without the committed one. */
  method PlanRemoval(c: Caller, pool: KubernetesIPPool, ip: Addr) returns (cleaned: seq<Reservation>, removed: bool)
    requires pool.Valid() && c.who.podRef != ""
    requires ip.family == pool.id.family && pool.id.base <= ip.value && InFamily(pool.offsets, pool.firstIP)
    ensures removed <==> StillCommitted(pool.offsets, c.who, OffsetIn(pool.id, ip))
    ensures removed ==> OffsetsOf(cleaned, pool.firstIP) == Ok(pool.offsets - {OffsetIn(pool.id, ip)})
  {
    hide Space, Encode, OffsetsOf, PoolList, Cleaned, IsReading;
    var list, ks := pool.Allocations();
    cleaned, removed := Clean(list, ip, c.who);
    ghost var k := OffsetIn(pool.id, ip);
    assert ip == RawAddr(pool.firstIP.family, pool.firstIP.value + k);
    RollbackRemovesOwnKey(pool.offsets, pool.firstIP, ks, c.who, k);
  }

  /** One attempt with a given pool object: the entry is removed, or is not there, or the call failed. */
  datatype RemoveOutcome = Gone | Nothing | Failed(error: CallError)

  method RemoveEntry(server: ApiServer, c: Caller, pool: KubernetesIPPool, ip: Addr) returns (r: RemoveOutcome)
    requires server.Valid() && c.who.podRef != ""
    requires pool.Valid() && ip.family == pool.id.family && pool.id.base <= ip.value && InFamily(pool.offsets, pool.firstIP)
    modifies pool`content, pool`offsets, server`pools, server`offsets, server`faults, server`lasting
    ensures server.Valid() && pool.Valid() && server.faults >= old(server.faults) && server.lasting >= old(server.lasting)
    ensures r == Failed(Permanent) ==> server.lasting > old(server.lasting)
    ensures server.lasting > old(server.lasting) ==> server.faults > old(server.faults)
    ensures r == Failed(NotFound) ==> pool.id !in server.pools
    ensures r.Failed? && pool.id in old(server.pools) && pool.version == old(server.pools)[pool.id].version ==> server.faults > old(server.faults)
    ensures r.Nothing? <==> !StillCommitted(old(pool.offsets), c.who, OffsetIn(pool.id, ip))
    ensures !r.Gone? ==> server.pools == old(server.pools) && server.offsets == old(server.offsets)
    ensures r.Gone? ==>
      && pool.id in old(server.pools) && pool.version == old(server.pools)[pool.id].version
      && server.pools == old(server.pools)[pool.id := Stored(pool.version + 1, pool.content)]
      && server.offsets == old(server.offsets)[pool.id := old(pool.offsets) - {OffsetIn(pool.id, ip)}]
  {
    hide Space, Encode, OffsetsOf;
    var cleaned, removed := PlanRemoval(c, pool, ip);
    if !removed { return Nothing; }
    var e := pool.Update(server, cleaned);
    if e.Some? { return Failed(e.value); }
    return Gone;
  }

  // ---------------------------------------------------------------------
  // Commits
  // ---------------------------------------------------------------------

  /** The commit's pool entry was really written: its pool object holds it. */
  ghost predicate Wrote(c: Caller, commit: Commit)
    reads if commit.pool == null then {} else {commit.pool}
  {
    commit.pool != null && StillCommitted(commit.pool.offsets, c.who, OffsetIn(commit.pool.id, commit.ip))
  }

  ghost function KeysOf(c: Caller, commit: Commit): set<(PoolId, nat)>
    reads if commit.pool == null then {} else {commit.pool}
  {
    if Wrote(c, commit) then {Key(commit.pool, commit.ip)} else {}
  }

  function AddrsOf(commit: Commit): set<RawAddr> {
    if commit.overlapIP.Some? then {commit.overlapIP.value} else {}
  }

  /** A commit that belongs to what the ADD has added. One that wrote no entry created no reservation. */
  ghost predicate CommitOk(pools: map<PoolId, Stored>, c: Caller, added: Added, commit: Commit)
    reads if commit.pool == null then {} else {commit.pool}
  {
    && AddrsOf(commit) <= added.addrs
    && (commit.pool != null ==> Undoable(pools, c, added.keys, commit.pool, commit.ip))
    && (commit.pool != null && !Wrote(c, commit) ==> commit.overlapIP.None?)
  }

  lemma AddedIsStored(c: Caller, w0: World, w: World, added: Added, id: PoolId, k: nat)
    requires Differs(c, w0, w, added) && (id, k) in added.keys
    ensures StillCommitted(w.At(id), c.who, k)
  {
  }

  lemma AddedIsReserved(c: Caller, w0: World, w: World, added: Added, a: RawAddr)
    requires Differs(c, w0, w, added) && a in added.addrs
    ensures a in w.orips && w.orips[a] == c.Mine()
  {
  }

  /** The reservation of a commit, if it created one. */
  method RollbackCommitReservation(server: ApiServer, c: Caller, commit: Commit, ghost w0: World, ghost added: Added)
    returns (failed: bool, ghost left: Added)
    requires Differs(c, w0, server.View(), added) && AddrsOf(commit) <= added.addrs
    modifies server`orips, server`faults, server`lasting
    ensures Differs(c, w0, server.View(), left) && server.faults >= old(server.faults) && server.lasting >= old(server.lasting)
    ensures failed ==> !FewFaults(old(server.faults), old(server.lasting), server.faults, server.lasting)
    ensures left == if failed then added else added.(addrs := added.addrs - AddrsOf(commit))
  {
    hide PoolsDiffer, ReservationsDiffer;
    left := added;
    if commit.overlapIP.None? { return false, left; }
    var ip := commit.overlapIP.value;
    AddedIsReserved(c, w0, server.View(), added, ip);
    ghost var w := server.View();
    failed := RollbackReservation(server, c, ip);
    if !failed {
      DeleteMine(c, w0, w, server.View(), added, ip);
      left := added.(addrs := added.addrs - AddrsOf(commit));
    }
  }

  /** Stored versions never go back. */
  ghost predicate Grow(before: map<PoolId, Stored>, after: map<PoolId, Stored>) {
    forall id :: id in before ==> id in after && before[id].version <= after[id].version
  }

  lemma GrownIs(before: map<PoolId, Stored>, after: map<PoolId, Stored>)
    requires forall id :: id in before ==> id in after && after[id] == before[id]
    ensures Grow(before, after)
  {
  }

  lemma GrowTwice(before: map<PoolId, Stored>, between: map<PoolId, Stored>, after: map<PoolId, Stored>)
    requires Grow(before, between) && Grow(between, after)
    ensures Grow(before, after)
  {
  }

  lemma EntryRemoved(c: Caller, w0: World, w: World, w': World, added: Added, id: PoolId, k: nat)
    requires Differs(c, w0, w, added) && (id, k) in added.keys && id in w.offsets
    requires var m: Offsets := w.offsets[id] - {k}; w' == World(w.offsets[id := m], w.orips)
    ensures Differs(c, w0, w', added.(keys := added.keys - {(id, k)}))
  {
    hide PoolsDiffer, ReservationsDiffer;
    RemoveKey(c, w0, w, w', added, id, k);
  }

  /** A later attempt: the pool is read again and written without the entry. A read that fails does not stop
      the rollback, a write that fails for good does. */
  method RereadAndRemove(server: ApiServer, c: Caller, range: Prefix, ip: Addr, ghost w0: World, ghost added: Added)
    returns (r: RemoveOutcome, stop: bool)
    requires server.Valid() && c.who.podRef != "" && AllInFamily(server.offsets)
    requires ip.family == range.family && range.base <= ip.value && range in server.pools
    requires Differs(c, w0, server.View(), added) && (range, OffsetIn(range, ip)) in added.keys
    modifies server`pools, server`offsets, server`faults, server`lasting
    ensures server.Valid() && AllInFamily(server.offsets) && Grow(old(server.pools), server.pools)
    ensures server.faults >= old(server.faults) && server.lasting >= old(server.lasting)
    ensures !r.Nothing? && (r.Failed? ==> server.faults > old(server.faults)) && (stop ==> server.lasting > old(server.lasting))
    ensures !r.Gone? ==> server.pools == old(server.pools) && server.offsets == old(server.offsets)
    ensures r.Gone? ==> Differs(c, w0, server.View(), added.(keys := added.keys - {(range, OffsetIn(range, ip))}))
  {
    hide Differs, AllInFamily, InFamily, Encode, Space, Pow2;
    ghost var k := OffsetIn(range, ip);
    ghost var w := server.View();
    AddedIsStored(c, w0, w, added, range, k);
    var e, current := server.GetExistingIPPool(range);
    if e.Some? { return if e.value == NotFound then Nothing else Failed(e.value), e.value == NotFound; }
    CopyInFamily(server.offsets, range);
    r := RemoveEntry(server, c, current, ip);
    stop := r.Failed? && r.error != Temporary;
    if r.Gone? {
      FewerInFamily(w.offsets, server.offsets, range, k);
      EntryRemoved(c, w0, w, server.View(), added, range, k);
    }
  }

  /** The pool part of one commit. Its own pool object is too old to be written, so an entry can only
      go through a later re-read. */
  method RollbackEntry(server: ApiServer, c: Caller, pool: KubernetesIPPool, ip: Addr, ghost w0: World, ghost added: Added)
    returns (r: RemoveOutcome)
    requires server.Valid() && c.who.podRef != "" && AllInFamily(server.offsets)
    requires Differs(c, w0, server.View(), added) && Undoable(server.pools, c, added.keys, pool, ip)
    modifies server`pools, server`offsets, pool`content, pool`offsets, server`faults, server`lasting
    ensures server.Valid() && AllInFamily(server.offsets) && Grow(old(server.pools), server.pools) && pool.Valid()
    ensures server.faults >= old(server.faults) && server.lasting >= old(server.lasting)
    ensures r.Failed? ==> !FewFaults(old(server.faults), old(server.lasting), server.faults, server.lasting)
    ensures r.Nothing? <==> !StillCommitted(old(pool.offsets), c.who, OffsetIn(pool.id, ip))
    ensures !r.Gone? ==> server.pools == old(server.pools) && server.offsets == old(server.offsets)
    ensures r.Gone? ==> Differs(c, w0, server.View(), added.(keys := added.keys - {Key(pool, ip)}))
  {
    hide Differs, AllInFamily, InFamily, Encode, Space, Pow2;
    ghost var k := OffsetIn(pool.id, ip);
    ghost var wrote := StillCommitted(pool.offsets, c.who, k);
    r := RemoveEntry(server, c, pool, ip);
    if r.Nothing? { return; }
    assert pool.id in server.pools && r.error != NotFound;
    var attempt, stop := 1, r != Failed(Temporary);
    while attempt < ROLLBACK_RETRIES && !stop
      invariant r.Failed? && wrote && server.Valid() && pool.Valid() && server.lasting >= old(server.lasting) && attempt > 0
      invariant server.faults >= old(server.faults) && (stop ==> server.lasting > old(server.lasting))
      invariant server.lasting == old(server.lasting) ==> server.faults >= old(server.faults) + attempt - 1
      invariant server.lasting > old(server.lasting) ==> server.faults > old(server.faults)
      invariant server.pools == old(server.pools) && server.offsets == old(server.offsets)
    {
      attempt := attempt + 1;
      r, stop := RereadAndRemove(server, c, pool.range, ip, w0, added);
      if r.Gone? { return; }
    }
  }

  /** One commit. If its entry was written and could be removed, the reservation follows. */
  method RollbackOne(server: ApiServer, c: Caller, commit: Commit, ghost w0: World, ghost added: Added)
    returns (failed: bool, ghost left: Added)
    requires server.Valid() && c.who.podRef != "" && AllInFamily(server.offsets)
    requires Differs(c, w0, server.View(), added) && CommitOk(server.pools, c, added, commit)
    modifies server, if commit.pool == null then {} else {commit.pool}
    ensures server.Valid() && AllInFamily(server.offsets) && Grow(old(server.pools), server.pools)
    ensures Differs(c, w0, server.View(), left) && server.faults >= old(server.faults) && server.lasting >= old(server.lasting)
    ensures added.keys - old(KeysOf(c, commit)) <= left.keys <= added.keys
    ensures added.addrs - AddrsOf(commit) <= left.addrs <= added.addrs
    ensures !failed ==> left == Added(added.keys - old(KeysOf(c, commit)), added.addrs - AddrsOf(commit))
    ensures failed ==> !FewFaults(old(server.faults), old(server.lasting), server.faults, server.lasting)
  {
    hide PoolsDiffer, ReservationsDiffer, Encode, Space;
    left := added;
    if commit.pool == null {
      failed, left := RollbackCommitReservation(server, c, commit, w0, left);
      return;
    }
    ghost var keys := KeysOf(c, commit);
    var r := RollbackEntry(server, c, commit.pool, commit.ip, w0, added);
    match r {
      case Nothing => return false, left;
      case Failed(_) => return true, left;
      case Gone =>
        left := added.(keys := added.keys - keys);
        failed, left := RollbackCommitReservation(server, c, commit, w0, left);
    }
  }

  // ---------------------------------------------------------------------
  // All commits
  // ---------------------------------------------------------------------

  ghost function PoolsOf(committed: seq<Commit>): set<object> {
    set i | 0 <= i < |committed| && committed[i].pool != null :: committed[i].pool
  }

  ghost function AllKeys(c: Caller, committed: seq<Commit>): set<(PoolId, nat)>
    reads PoolsOf(committed)
  {
    set i, key | 0 <= i < |committed| && key in KeysOf(c, committed[i]) :: key
  }

  ghost function AllAddrs(committed: seq<Commit>): set<RawAddr> {
    set i, a | 0 <= i < |committed| && a in AddrsOf(committed[i]) :: a
  }

  /** The commits an ADD keeps: each undoable, no two about the same object, key or reservation. */
  ghost predicate Ledger(pools: map<PoolId, Stored>, c: Caller, added: Added, committed: seq<Commit>)
    reads PoolsOf(committed)
  {
    && (forall i :: 0 <= i < |committed| ==> CommitOk(pools, c, added, committed[i]))
    && (forall i, j :: 0 <= i < j < |committed| && committed[i].pool != null ==> committed[i].pool != committed[j].pool)
    && (forall i, j :: 0 <= i < j < |committed| ==> KeysOf(c, committed[i]) !! KeysOf(c, committed[j]))
    && (forall i, j :: 0 <= i < j < |committed| ==> AddrsOf(committed[i]) !! AddrsOf(committed[j]))
  }

  lemma AllKeysNext(c: Caller, committed: seq<Commit>, i: nat)
    requires i < |committed|
    ensures AllKeys(c, committed[i..]) == KeysOf(c, committed[i]) + AllKeys(c, committed[i + 1..])
    ensures AllAddrs(committed[i..]) == AddrsOf(committed[i]) + AllAddrs(committed[i + 1..])
  {
    assert committed[i..] == [committed[i]] + committed[i + 1..];
  }

  /** One commit of several: the later ones stay undoable. */
  method RollbackNext(server: ApiServer, c: Caller, committed: seq<Commit>, i: nat, ghost w0: World, ghost added: Added)
    returns (failed: bool, ghost left: Added)
    requires server.Valid() && c.who.podRef != "" && AllInFamily(server.offsets) && i < |committed|
    requires Differs(c, w0, server.View(), added) && Ledger(server.pools, c, added, committed[i..])
    modifies server, PoolsOf(committed)
    ensures server.Valid() && AllInFamily(server.offsets) && Grow(old(server.pools), server.pools) && Differs(c, w0, server.View(), left)
    ensures server.faults >= old(server.faults) && server.lasting >= old(server.lasting)
    ensures Ledger(server.pools, c, left, committed[i + 1..]) && AllKeys(c, committed[i + 1..]) == old(AllKeys(c, committed[i + 1..]))
    ensures added.keys - old(KeysOf(c, committed[i])) <= left.keys <= added.keys
    ensures added.addrs - AddrsOf(committed[i]) <= left.addrs <= added.addrs
    ensures !failed ==> left == Added(added.keys - old(KeysOf(c, committed[i])), added.addrs - AddrsOf(committed[i]))
    ensures failed ==> !FewFaults(old(server.faults), old(server.lasting), server.faults, server.lasting)
  {
    hide PoolsDiffer, ReservationsDiffer, Encode, Space;
    assert committed[i..][0] == committed[i];
    assert forall j :: i < j < |committed| ==> committed[i..][j - i] == committed[j];
    failed, left := RollbackOne(server, c, committed[i], w0, added);
    forall j | i < j < |committed|
      ensures CommitOk(server.pools, c, left, committed[j]) && KeysOf(c, committed[j]) == old(KeysOf(c, committed[j]))
    {
      assert committed[j].pool != null ==> unchanged(committed[j].pool);
    }
  }

  /** rollbackCommitted. It only ever takes away what the ADD added, and if too few calls fail to defeat a
      rollback then nothing of the given commits is left. */
  method RollbackCommitted(server: ApiServer, c: Caller, committed: seq<Commit>, ghost w0: World, ghost added: Added)
    returns (failures: nat, ghost left: Added)
    requires server.Valid() && c.who.podRef != "" && AllInFamily(server.offsets)
    requires Differs(c, w0, server.View(), added) && Ledger(server.pools, c, added, committed)
    modifies server, PoolsOf(committed)
    ensures server.Valid() && AllInFamily(server.offsets) && Grow(old(server.pools), server.pools)
    ensures Differs(c, w0, server.View(), left) && server.faults >= old(server.faults) && server.lasting >= old(server.lasting)
    ensures added.keys - old(AllKeys(c, committed)) <= left.keys <= added.keys
    ensures added.addrs - AllAddrs(committed) <= left.addrs <= added.addrs
    ensures failures == 0 ==> left == Added(added.keys - old(AllKeys(c, committed)), added.addrs - AllAddrs(committed))
    ensures FewFaults(old(server.faults), old(server.lasting), server.faults, server.lasting) ==> failures == 0
  {
    hide PoolsDiffer, ReservationsDiffer, Encode, Space, Ledger, CommitOk, KeysOf, AllKeys, AllAddrs;
    failures, left := 0, added;
    ghost var keys, addrs := {}, {};
    assert committed[0..] == committed;
    for i := 0 to |committed|
      invariant server.Valid() && AllInFamily(server.offsets) && Grow(old(server.pools), server.pools) && Differs(c, w0, server.View(), left)
      invariant server.faults >= old(server.faults) && server.lasting >= old(server.lasting)
      invariant FewFaults(old(server.faults), old(server.lasting), server.faults, server.lasting) ==> failures == 0
      invariant Ledger(server.pools, c, left, committed[i..])
      invariant keys + AllKeys(c, committed[i..]) == old(AllKeys(c, committed))
      invariant addrs + AllAddrs(committed[i..]) == AllAddrs(committed)
      invariant added.keys - keys <= left.keys <= added.keys && added.addrs - addrs <= left.addrs <= added.addrs
      invariant failures == 0 ==> left == Added(added.keys - keys, added.addrs - addrs)
    {
      AllKeysNext(c, committed, i);
      keys, addrs := keys + KeysOf(c, committed[i]), addrs + AddrsOf(committed[i]);
      var failed;
      failed, left := RollbackNext(server, c, committed, i, w0, left);
      if failed { failures := failures + 1; }
    }
    assert committed[|committed|..] == [];
    NothingRemains(c);
  }

  lemma NothingRemains(c: Caller)
    ensures AllKeys(c, []) == {} && AllAddrs([]) == {}
  {
  }
}
