/** A DEL over all configured ranges: each pool loses the entry of the container and interface, then the
    reservation of its address is deleted. */
module Release {
  import opened Prelude
  import opened Addressing
  import opened Allocation
  import opened AllocationLaws
  import opened Codec
  import opened AddAttempt
  import opened PoolRelease
  import opened Cluster
  import opened Rollback
  import opened Transaction
  import OverlapRetry

  /** What a DEL is asked to release, and the UID of the pod. */
  datatype Target = Target(containerID: string, ifName: string, podUID: string) {
    ghost predicate Holds(m: Offsets, k: nat) {
      HeldBy(m, containerID, ifName, k)
    }

    /** The container has at most one entry. */
    ghost predicate Single(m: Offsets) {
      forall j, k :: Holds(m, j) && Holds(m, k) ==> j == k
    }

    /** The pool without the entries of the container. */
    ghost function Without(m: Offsets): Offsets {
      map k | k in m && !Holds(m, k) :: m[k]
    }
  }

  /** An entry of an owner that has one entry, in a pool whose containers belong to one pod each, is the
      container's only one. */
  lemma OwnersMakeSingle(t: Target, m: Offsets, podRef: string)
    requires UniqueOwners(m) && forall k :: k in m && m[k].containerID == t.containerID ==> m[k].podRef == podRef
    ensures t.Single(m)
  {
  }

  /** Some entries of the container are gone, and nothing else has changed. */
  ghost predicate Shrunk(t: Target, before: Offsets, after: Offsets) {
    && (forall k :: k in after ==> k in before && after[k] == before[k])
    && (forall k :: k in before && k !in after ==> t.Holds(before, k))
  }

  /** What one pass makes of a pool: one entry of the container is gone if there was one. */
  ghost predicate Popped(t: Target, before: Offsets, after: Offsets, base: Addr, ip: Option<Addr>) {
    if ip.None? then after == before && forall k :: !t.Holds(before, k)
    else exists k :: t.Holds(before, k) && ip == Some(RawAddr(base.family, base.value + k)) && after == before - {k}
  }

  /** The list half of a pass: the records are copied into an array and one is removed in place. */
  method Pop(pool: KubernetesIPPool, t: Target) returns (list: seq<Reservation>, ip: Option<Addr>)
    requires pool.Valid() && InFamily(pool.offsets, pool.firstIP)
    ensures OffsetsOf(list, pool.firstIP).Ok?
    ensures Popped(t, pool.offsets, OffsetsOf(list, pool.firstIP).value, pool.firstIP, ip)
  {
    hide Encode, IsReading, OffsetsOf, Real, Space, Pow2;
    var all, ks := pool.Allocations();
    var records := new Reservation[|all|](i requires 0 <= i < |all| => all[i]);
    assert records[..] == all;
    var n;
    n, ip := DeallocateIP(records, t.containerID, t.ifName);
    list := WithoutDummies(records[..n]);
    assert forall j :: 0 <= j < n ==> records[..n][j] in all;
    RealOfReal(records[..n]);
    PoppedFacts(pool.offsets, pool.firstIP, ks, t);
  }

  lemma PoppedFacts(m: Offsets, base: Addr, ks: seq<nat>, t: Target)
    requires Visits(m, ks) && InFamily(m, base)
    ensures
      var (after, ip) := Deallocated(PoolList(m, base, ks), t.containerID, t.ifName);
      OffsetsOf(after, base).Ok? && Popped(t, m, OffsetsOf(after, base).value, base, ip)
  {
    hide OffsetsOf, PoolList, SwapRemove, Space, Pow2;
    ReleaseRemovesOneKey(m, base, ks, t.containerID, t.ifName);
    PoolListWrites(m, base, ks);
    var i := MatchIndex(PoolList(m, base, ks), t.containerID, t.ifName, 0);
    if i < |ks| {
      assert t.Holds(m, ks[i]);
    }
  }

  lemma PoolListWrites(m: Offsets, base: Addr, ks: seq<nat>)
    requires Visits(m, ks) && InFamily(m, base)
    ensures OffsetsOf(PoolList(m, base, ks), base) == Ok(m)
  {
    hide OffsetsOf, Space;
    WritesVisited(m, base, ks, PoolList(m, base, ks));
    RestrictAll(m, ks);
  }

  /** Only reservations of addresses the container held are gone. */
  ghost predicate OnlyHeldDeleted(t: Target, before: map<RawAddr, Orip>, after: map<RawAddr, Orip>, range: RawPrefix, m: Offsets) {
    && (forall a :: a in after ==> a in before && after[a] == before[a])
    && (forall a :: a in before && a !in after ==>
          a.family == range.family && range.base <= a.value && t.Holds(m, a.value - range.base))
  }

  /** The reservation of the address is gone, or known to be another pod lifecycle's. */
  predicate Unreserved(t: Target, orips: map<RawAddr, Orip>, a: RawAddr) {
    a !in orips || Guarded(orips, a, t.podUID)
  }

  /** No reservation is left for an address the container held. */
  ghost predicate AllUnreserved(t: Target, orips: map<RawAddr, Orip>, range: RawPrefix, m: Offsets) {
    forall k :: t.Holds(m, k) ==> Unreserved(t, orips, RawAddr(range.family, range.base + k))
  }

  /** The state of the retry loop: nothing has been written, or the one entry has been removed and its
      address is remembered for its reservation. */
  ghost predicate Progress(t: Target, m0: Offsets, m: Offsets, base: Addr, pending: Option<Addr>) {
    || m == m0
    || exists k :: t.Holds(m0, k) && m == m0 - {k} && pending == Some(RawAddr(base.family, base.value + k))
  }

  ghost predicate HeldAddress(t: Target, m: Offsets, base: Addr, ip: Option<Addr>) {
    exists k :: t.Holds(m, k) && ip == Some(RawAddr(base.family, base.value + k))
  }

  /** What a pass does to the pool: there is none, nothing to remove, an entry removed, or a failed call. */
  datatype PopOutcome = Missing | Empty | Removed | CallFailed(error: CallError)

  /** The pool half of a pass. The address of an entry that was found is returned even if the write fails. */
  method PopEntry(server: ApiServer, t: Target, range: Prefix) returns (r: PopOutcome, ip: Option<Addr>, ghost k: nat)
    requires server.Valid() && AllInFamily(server.offsets)
    modifies server
    ensures server.Valid() && AllInFamily(server.offsets) && server.orips == old(server.orips) && server.pools.Keys == old(server.pools).Keys
    ensures r.Missing? ==> range !in server.pools && forall j :: !t.Holds(server.View().At(range), j)
    ensures r.Empty? ==> forall j :: !t.Holds(server.View().At(range), j)
    ensures forall id :: id != range ==> server.View().At(id) == old(server.View()).At(id)
    ensures !r.Removed? ==> server.View().At(range) == old(server.View()).At(range)
    ensures r.Removed? ==>
      && t.Holds(old(server.View()).At(range), k) && ip == Some(RawAddr(range.family, range.base + k))
      && server.View().At(range) == old(server.View()).At(range) - {k}
    ensures r.Missing? || r.Empty? ==> ip.None?
    ensures ip.Some? ==> range in server.pools && HeldAddress(t, old(server.View()).At(range), NetworkIP(range), ip)
    ensures server.faults >= old(server.faults) && (r.CallFailed? ==> server.faults > old(server.faults))
    ensures server.lasting == if r.CallFailed? && r.error != Temporary then old(server.lasting) + 1 else old(server.lasting)
  {
    hide Encode, OffsetsOf, Space, Pow2, AllInFamily, InFamily, HeldBy, HeldAddress, World.At;
    ip, k := None, 0;
    ghost var w := server.View();
    var e, pool := server.GetExistingIPPool(range);
    if e == Some(NotFound) {
      NothingStored(t, w, range);
      return Missing, None, 0;
    }
    if e.Some? { return CallFailed(e.value), None, 0; }
    CopyInFamily(server.offsets, range);
    ghost var m := pool.offsets;
    StoredAt(w, range);
    var list;
    list, ip := Pop(pool, t);
    if ip.None? { return Empty, None, 0; }
    k :| t.Holds(m, k) && ip == Some(RawAddr(range.family, range.base + k)) && OffsetsOf(list, pool.firstIP).value == m - {k};
    HoldsAddress(t, m, range, ip, k);
    e := pool.Update(server, list);
    SamePoolsHold(w, server.View());
    if e.Some? { return CallFailed(e.value), ip, k; }
    FewerInFamily(w.offsets, server.offsets, range, k);
    EntryGone(w, server.View(), range, k);
    return Removed, ip, k;
  }

  lemma HoldsAddress(t: Target, m: Offsets, range: Prefix, ip: Option<Addr>, k: nat)
    requires t.Holds(m, k) && ip == Some(RawAddr(range.family, range.base + k))
    ensures HeldAddress(t, m, NetworkIP(range), ip)
  {
  }

  lemma NothingStored(t: Target, w: World, range: Prefix)
    requires range !in w.offsets
    ensures forall k :: !t.Holds(w.At(range), k)
  {
  }

  lemma EntryGone(w: World, w': World, range: Prefix, k: nat)
    requires range in w.offsets && var m: Offsets := w.offsets[range] - {k}; w'.offsets == w.offsets[range := m]
    ensures w'.At(range) == w.At(range) - {k} && forall id :: id != range ==> w'.At(id) == w.At(id)
  {
  }

  lemma SamePoolsHold(w: World, w': World)
    ensures w.offsets == w'.offsets ==> forall id :: w.At(id) == w'.At(id)
  {
  }

  datatype ReleaseOutcome = Released | Repeat | Fail

  function OnError(e: CallError): ReleaseOutcome {
    if e == Temporary then Repeat else Fail
  }

  /** One pass of the retry loop. An entry that has been removed before is remembered by its address,
      so that its reservation is still deleted. */
  method ReleaseAttempt(server: ApiServer, t: Target, range: Prefix, overlap: bool, remembered: Option<Addr>)
    returns (r: ReleaseOutcome, pending: Option<Addr>, ghost removed: Option<nat>)
    requires server.Valid() && AllInFamily(server.offsets) && (remembered.Some? ==> range in server.pools)
    modifies server
    ensures server.Valid() && AllInFamily(server.offsets) && (pending.Some? ==> range in server.pools)
    ensures forall id :: id != range ==> server.View().At(id) == old(server.View()).At(id)
    ensures removed.None? ==> server.View().At(range) == old(server.View()).At(range)
    ensures removed.Some? ==>
      && t.Holds(old(server.View()).At(range), removed.value)
      && server.View().At(range) == old(server.View()).At(range) - {removed.value}
      && pending.Some? && pending.value == RawAddr(range.family, range.base + removed.value)
    ensures pending == remembered || HeldAddress(t, old(server.View()).At(range), NetworkIP(range), pending)
    ensures server.orips == old(server.orips) || (r.Released? && pending.Some? && server.orips == old(server.orips) - {pending.value})
    ensures r.Released? && removed.None? ==> pending == remembered && forall k :: !t.Holds(server.View().At(range), k)
    ensures r.Released? && overlap && pending.Some? ==> Unreserved(t, server.orips, pending.value)
    ensures server.faults >= old(server.faults) && (!r.Released? ==> server.faults > old(server.faults))
    ensures server.lasting == if r.Fail? then old(server.lasting) + 1 else old(server.lasting)
  {
    hide Encode, Space, Pow2, AllInFamily, HeldAddress, HeldBy, World.At;
    removed := None;
    var popped, ip;
    ghost var k;
    popped, ip, k := PopEntry(server, t, range);
    ghost var w := server.View();
    pending := if ip.Some? then ip else remembered;
    match popped {
      case Missing => return Released, pending, None;
      case CallFailed(e) => return OnError(e), pending, None;
      case Empty => if !overlap || pending.None? { return Released, pending, None; }
      case Removed => removed := Some(k);
    }
    if overlap {
      var e := server.DeleteReservation(pending.value, t.podUID);
      SamePoolsHold(w, server.View());
      if e.Some? { return OnError(e.value), pending, removed; }
    }
    r := Released;
  }

  /** What a pass keeps. */
  lemma PassFacts(t: Target, m0: Offsets, m: Offsets, m': Offsets, base: Addr, remembered: Option<Addr>, pending: Option<Addr>, removed: Option<nat>)
    requires Shrunk(t, m0, m) && (remembered.Some? ==> HeldAddress(t, m0, base, remembered))
    requires pending == remembered || HeldAddress(t, m, base, pending)
    requires removed.None? ==> m' == m
    requires removed.Some? ==>
      t.Holds(m, removed.value) && m' == m - {removed.value} && pending == Some(RawAddr(base.family, base.value + removed.value))
    ensures Shrunk(t, m0, m') && (pending.Some? ==> HeldAddress(t, m0, base, pending))
    ensures t.Single(m0) && Progress(t, m0, m, base, remembered) ==> Progress(t, m0, m', base, pending)
  {
    hide Space;
    assert forall k :: t.Holds(m, k) ==> t.Holds(m0, k);
  }

  lemma DeletedIsHeld(t: Target, before: map<RawAddr, Orip>, after: map<RawAddr, Orip>, range: Prefix, m0: Offsets, pending: Option<Addr>)
    requires pending.Some? ==> HeldAddress(t, m0, NetworkIP(range), pending)
    requires after == before || (pending.Some? && after == before - {pending.value})
    ensures OnlyHeldDeleted(t, before, after, range, m0)
  {
  }

  /** What the loop may conclude once a pass has released the range. */
  lemma ReleasedFacts(t: Target, m0: Offsets, m: Offsets, m': Offsets, base: Addr, remembered: Option<Addr>, pending: Option<Addr>, removed: Option<nat>)
    requires t.Single(m0) && Progress(t, m0, m, base, remembered)
    requires removed.None? ==> m' == m && pending == remembered && forall k :: !t.Holds(m, k)
    requires removed.Some? ==>
      t.Holds(m, removed.value) && m' == m - {removed.value} && pending == Some(RawAddr(base.family, base.value + removed.value))
    ensures m' == t.Without(m0)
    ensures forall k :: t.Holds(m0, k) ==> pending == Some(RawAddr(base.family, base.value + k))
  {
    hide Space, Pow2;
  }

  lemma PendingWasAll(t: Target, m0: Offsets, range: Prefix, orips: map<RawAddr, Orip>, pending: Option<Addr>)
    requires forall k :: t.Holds(m0, k) ==> pending == Some(RawAddr(range.family, range.base + k))
    requires pending.Some? ==> Unreserved(t, orips, pending.value)
    ensures AllUnreserved(t, orips, range, m0)
  {
  }

  /** The retry loop of one range. It gives up after the first failure that does not pass, or after a
      failed call in every pass, and not before. */
  method ReleaseRange(server: ApiServer, t: Target, range: Prefix, overlap: bool) returns (ok: bool)
    requires server.Valid() && AllInFamily(server.offsets)
    modifies server
    ensures server.Valid() && AllInFamily(server.offsets)
    ensures forall id :: id != range ==> server.View().At(id) == old(server.View()).At(id)
    ensures Shrunk(t, old(server.View()).At(range), server.View().At(range))
    ensures OnlyHeldDeleted(t, old(server.orips), server.orips, range, old(server.View()).At(range))
    ensures ok && t.Single(old(server.View()).At(range)) ==>
      && server.View().At(range) == t.Without(old(server.View()).At(range))
      && (overlap ==> AllUnreserved(t, server.orips, range, old(server.View()).At(range)))
    ensures server.faults >= old(server.faults) && old(server.lasting) <= server.lasting <= if ok then old(server.lasting) else old(server.lasting) + 1
    ensures !ok ==> server.faults > old(server.faults) && (server.lasting > old(server.lasting) || server.faults >= old(server.faults) + OverlapRetry.DATASTORE_RETRIES)
  {
    hide Encode, Space, Pow2, AllInFamily, Shrunk, Progress, HeldAddress, HeldBy, OnlyHeldDeleted, AllUnreserved, Unreserved, Target.Single, Target.Without, World.At;
    ghost var m0, base := server.View().At(range), NetworkIP(range);
    ghost var single := t.Single(m0);
    var pending: Option<Addr> := None;
    PassFactsStart(t, m0, base, server.orips, range);
    for j := 0 to OverlapRetry.DATASTORE_RETRIES
      invariant server.Valid() && AllInFamily(server.offsets) && server.orips == old(server.orips)
      invariant pending.Some? ==> range in server.pools && HeldAddress(t, m0, base, pending)
      invariant forall id :: id != range ==> server.View().At(id) == old(server.View()).At(id)
      invariant Shrunk(t, m0, server.View().At(range))
      invariant single ==> Progress(t, m0, server.View().At(range), base, pending)
      invariant server.faults >= old(server.faults) + j && server.lasting == old(server.lasting)
    {
      ghost var m, remembered := server.View().At(range), pending;
      var r;
      ghost var removed;
      r, pending, removed := ReleaseAttempt(server, t, range, overlap, pending);
      PassFacts(t, m0, m, server.View().At(range), base, remembered, pending, removed);
      DeletedIsHeld(t, old(server.orips), server.orips, range, m0, pending);
      if r.Fail? { return false; }
      if r.Released? {
        if single {
          ReleasedFacts(t, m0, m, server.View().At(range), base, remembered, pending, removed);
          if overlap { PendingWasAll(t, m0, range, server.orips, pending); }
        }
        return true;
      }
    }
    return false;
  }

  lemma PassFactsStart(t: Target, m0: Offsets, base: Addr, orips: map<RawAddr, Orip>, range: Prefix)
    ensures Shrunk(t, m0, m0) && Progress(t, m0, m0, base, None) && OnlyHeldDeleted(t, orips, orips, range, m0)
  {
  }

  // ---------------------------------------------------------------------
  // All ranges
  // ---------------------------------------------------------------------

  /** The range has been released: no entry of the container is left, every other entry is as before, and
      with overlap checking no reservation is left for an address the container held. */
  ghost predicate RangeReleased(t: Target, before: World, after: World, range: Prefix, overlap: bool) {
    && after.At(range) == t.Without(before.At(range))
    && (overlap ==> AllUnreserved(t, after.orips, range, before.At(range)))
  }

  ghost predicate WasHeld(t: Target, w: World, ranges: seq<Prefix>, a: RawAddr) {
    exists range :: range in ranges && a.family == range.family && range.base <= a.value && t.Holds(w.At(range), a.value - range.base)
  }

  /** A DEL never touches an entry of another container or interface, a pool that is not configured, or
      a reservation of an address the container does not hold. */
  ghost predicate OnlyReleases(t: Target, before: World, after: World, ranges: seq<Prefix>) {
    && (forall id :: Shrunk(t, before.At(id), after.At(id)))
    && (forall id :: (forall r :: r in ranges ==> id != r) ==> after.At(id) == before.At(id))
    && (forall a :: a in after.orips ==> a in before.orips && after.orips[a] == before.orips[a])
    && (forall a :: a in before.orips && a !in after.orips ==> WasHeld(t, before, ranges, a))
  }

  lemma ShrunkTwice(t: Target, a: Offsets, b: Offsets, c: Offsets)
    requires Shrunk(t, a, b) && Shrunk(t, b, c)
    ensures Shrunk(t, a, c)
  {
  }

  lemma StillWasHeld(t: Target, w: World, some: seq<Prefix>, all: seq<Prefix>, a: RawAddr)
    requires WasHeld(t, w, some, a) && forall r :: r in some ==> r in all
    ensures WasHeld(t, w, all, a)
  {
  }

  lemma NowWasHeld(t: Target, w0: World, w: World, ranges: seq<Prefix>, range: Prefix, a: RawAddr)
    requires Shrunk(t, w0.At(range), w.At(range)) && range in ranges
    requires a.family == range.family && range.base <= a.value && t.Holds(w.At(range), a.value - range.base)
    ensures WasHeld(t, w0, ranges, a)
  {
  }

  lemma OnlyReleasesMore(t: Target, w0: World, w: World, w': World, ranges: seq<Prefix>, range: Prefix)
    requires OnlyReleases(t, w0, w, ranges)
    requires forall id :: id != range ==> w'.At(id) == w.At(id)
    requires Shrunk(t, w.At(range), w'.At(range)) && OnlyHeldDeleted(t, w.orips, w'.orips, range, w.At(range))
    ensures OnlyReleases(t, w0, w', ranges + [range])
  {
    hide Space, Pow2, Shrunk, WasHeld;
    var all := ranges + [range];
    assert all[|ranges|] == range && forall r :: r in ranges ==> r in all;
    forall id ensures Shrunk(t, w0.At(id), w'.At(id)) {
      if id == range { ShrunkTwice(t, w0.At(id), w.At(id), w'.At(id)); }
    }
    forall id | (forall r :: r in all ==> id != r) ensures w'.At(id) == w0.At(id) {
      assert forall r :: r in ranges ==> id != r;
      assert range in all;
    }
    forall a | a in w0.orips && a !in w'.orips ensures WasHeld(t, w0, all, a) {
      if a in w.orips {
        NowWasHeld(t, w0, w, all, range, a);
      } else {
        StillWasHeld(t, w0, ranges, all, a);
      }
    }
  }

  /** A released range stays released when another range, or the same one again, is released. */
  lemma StaysReleased(t: Target, w0: World, w: World, w': World, done: Prefix, range: Prefix, overlap: bool)
    requires RangeReleased(t, w0, w, done, overlap)
    requires forall id :: id != range ==> w'.At(id) == w.At(id)
    requires Shrunk(t, w.At(range), w'.At(range)) && OnlyHeldDeleted(t, w.orips, w'.orips, range, w.At(range))
    ensures RangeReleased(t, w0, w', done, overlap)
  {
  }

  lemma UntouchedSoFar(t: Target, w0: World, w: World, ranges: seq<Prefix>, range: Prefix)
    requires OnlyReleases(t, w0, w, ranges) && range !in ranges
    ensures w.At(range) == w0.At(range)
  {
  }

  lemma NowReleased(t: Target, w0: World, w: World, w': World, range: Prefix, overlap: bool)
    requires w.At(range) == w0.At(range) && w'.At(range) == t.Without(w.At(range))
    requires overlap ==> AllUnreserved(t, w'.orips, range, w.At(range))
    ensures RangeReleased(t, w0, w', range, overlap)
  {
  }

  lemma NothingReleased(t: Target, w: World)
    ensures OnlyReleases(t, w, w, [])
  {
  }

  lemma OnlyReleasesMonotone(t: Target, w0: World, w: World, some: seq<Prefix>, all: seq<Prefix>)
    requires OnlyReleases(t, w0, w, some) && forall r :: r in some ==> r in all
    ensures OnlyReleases(t, w0, w, all)
  {
  }

  /** IPManagementKubernetesUpdate in Deallocate mode, with nobody else writing. Whatever happens, only
      the container's entries and their reservations can go. If the DEL succeeds, every configured range
      in which the container had at most one entry has been released. It fails only if calls do: one for
      good, or as many as a range has passes. */
  method Deallocate(server: ApiServer, t: Target, ranges: seq<Prefix>, overlap: bool) returns (ok: bool)
    requires server.Valid() && AllInFamily(server.offsets)
    modifies server
    ensures server.Valid() && AllInFamily(server.offsets)
    ensures OnlyReleases(t, old(server.View()), server.View(), ranges)
    ensures ok ==> forall i :: 0 <= i < |ranges| && t.Single(old(server.View()).At(ranges[i])) ==>
              RangeReleased(t, old(server.View()), server.View(), ranges[i], overlap)
    ensures old(server.lasting) <= server.lasting <= if ok then old(server.lasting) else old(server.lasting) + 1
    ensures !ok ==> server.faults > old(server.faults) && (server.lasting > old(server.lasting) || server.faults >= old(server.faults) + OverlapRetry.DATASTORE_RETRIES)
  {
    hide AllInFamily, OnlyReleases, RangeReleased, Shrunk, OnlyHeldDeleted, Encode, Space, Pow2;
    ghost var w0 := server.View();
    NothingReleased(t, w0);
    for i := 0 to |ranges|
      invariant server.Valid() && AllInFamily(server.offsets)
      invariant OnlyReleases(t, w0, server.View(), ranges[..i])
      invariant forall j :: 0 <= j < i && t.Single(w0.At(ranges[j])) ==> RangeReleased(t, w0, server.View(), ranges[j], overlap)
      invariant server.faults >= old(server.faults) && server.lasting == old(server.lasting)
    {
      ghost var w := server.View();
      var range := ranges[i];
      ok := ReleaseRange(server, t, range, overlap);
      OnlyReleasesMore(t, w0, w, server.View(), ranges[..i], range);
      assert ranges[..i + 1] == ranges[..i] + [range];
      if !ok {
        OnlyReleasesMonotone(t, w0, server.View(), ranges[..i + 1], ranges);
        return;
      }
      forall j | 0 <= j < i && t.Single(w0.At(ranges[j])) ensures RangeReleased(t, w0, server.View(), ranges[j], overlap) {
        StaysReleased(t, w0, w, server.View(), ranges[j], range, overlap);
      }
      if t.Single(w0.At(range)) && range !in ranges[..i] {
        UntouchedSoFar(t, w0, w, ranges[..i], range);
        NowReleased(t, w0, w, server.View(), range, overlap);
      }
    }
    assert ranges[..|ranges|] == ranges;
    return true;
  }
}
