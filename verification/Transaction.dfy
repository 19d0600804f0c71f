/** A multi-range ADD: each range is tried until it is written and reserved; when a range fails, the
    ranges before it are rolled back. */
module Transaction {
  import opened Prelude
  import opened Addressing
  import opened Allocation
  import opened Codec
  import opened AddAttempt
  import opened PoolRelease
  import opened Cluster
  import opened Effects
  import opened Rollback
  import OverlapRetry

  // ---------------------------------------------------------------------
  // One attempt
  // ---------------------------------------------------------------------

  /** The loop that cleans the dummy records out of the list. */
  method WithoutDummies(list: seq<Reservation>) returns (kept: seq<Reservation>)
    ensures kept == Real(list)
  {
    kept := [];
    for i := 0 to |list|
      invariant kept == Real(list[..i])
    {
      assert list[..i + 1][..i] == list[..i];
      if !list[i].isAllocated {
        kept := kept + [list[i]];
      }
    }
    assert list[..|list|] == list;
  }

  predicate SameAllocation(r: Reservation, ip: Addr, who: Requester) {
    r.ip == Some(ip) && r.podRef == who.podRef && r.ifName == who.ifName
  }

  /** allocationAlreadyInPool. */
  method AllocationAlreadyInPool(list: seq<Reservation>, ip: Addr, who: Requester) returns (found: bool)
    ensures found <==> exists r :: r in list && SameAllocation(r, ip, who)
  {
    for i := 0 to |list|
      invariant forall j :: 0 <= j < i ==> !SameAllocation(list[j], ip, who)
    {
      if SameAllocation(list[i], ip, who) { return true; }
    }
    return false;
  }

  lemma InPoolByOffset(m: Offsets, base: Addr, ks: seq<nat>, ip: Addr, who: Requester, k: nat)
    requires Visits(m, ks) && InFamily(m, base) && ip == RawAddr(base.family, base.value + k)
    ensures (exists r :: r in PoolList(m, base, ks) && SameAllocation(r, ip, who)) <==> OwnOffset(m, who, k)
  {
    hide Space;
    var list := PoolList(m, base, ks);
    if OwnOffset(m, who, k) {
      assert k in ks;
      var i :| 0 <= i < |ks| && ks[i] == k;
      assert list[i] in list && SameAllocation(list[i], ip, who);
    }
  }

  /** The list an attempt would store, the address it stands for, and whether that address is new. */
  datatype Plan = Plan(ip: Addr, list: seq<Reservation>, created: bool)

  /** The attempt up to its first write: read the pool, add the dummies, assign, drop the dummies. */
  method PlanAttempt(pool: KubernetesIPPool, conf: RangeConfiguration, taken: seq<Addr>, who: Requester)
    returns (r: Result<Plan, AssignError>, ghost k: nat, ghost ks: seq<nat>)
    requires pool.Valid() && conf.range == Some(pool.range) && who.podRef != "" && InFamily(pool.offsets, pool.firstIP)
    ensures r.Ok? ==>
      && TakesOffset(conf, pool.firstIP, pool.offsets, taken, who, k)
      && pool.firstIP.value + k < Space(pool.firstIP.family) && r.value.ip == RawAddr(pool.firstIP.family, pool.firstIP.value + k)
      && OffsetsOf(r.value.list, pool.firstIP) == Ok(pool.offsets[k := Alloc(who)])
      && (r.value.created <==> k !in pool.offsets)
      && (k in pool.offsets ==> OwnedBy(pool.offsets[k], who))
    ensures r == Err(Exhausted) ==> NothingLeft(conf, pool.firstIP, pool.offsets, taken, who)
    ensures Visits(pool.offsets, ks)
    ensures
      var given := Assigned(conf, ReserveList(pool.offsets, pool.firstIP, ks, taken), who);
      if r.Err? then given == Err(r.error) else given.Ok? && given.value.ip == Some(r.value.ip)
  {
    hide Space, Encode, IsReading, OffsetsOf, Real, PoolList, Eligible, Assigned, PickAllowed, Bounds, Contains, Excluded;
    k := 0;
    var list;
    list, ks := pool.Allocations();
    var given := AssignIP(conf, list + Dummies(taken), who);
    AttemptByOffset(conf, pool.firstIP, pool.offsets, ks, taken, who);
    assert list + Dummies(taken) == ReserveList(pool.offsets, pool.firstIP, ks, taken);
    if given.Err? { return Err(given.error), k, ks; }
    k :| WritesOffset(conf, pool.firstIP, pool.offsets, taken, who, given.value, k);
    var ip := given.value.ip.value;
    var known := AllocationAlreadyInPool(list, ip, who);
    InPoolByOffset(pool.offsets, pool.firstIP, ks, ip, who, k);
    var kept := WithoutDummies(given.value.list);
    r := Ok(Plan(ip, kept, !known));
  }

  /** What the cluster-wide check says about an address: nobody has it, this pod lifecycle has it,
      somebody else has it, or the check failed. */
  datatype Check = Clear | Ours | Taken | Broken

  /** The overlap check. A reservation of an earlier pod of the same name is deleted. */
  method CheckReservation(server: ApiServer, c: Caller, ip: RawAddr) returns (r: Check)
    modifies server`orips, server`faults, server`lasting
    ensures Restored(c, old(server.View()), server.View())
    ensures r.Clear? ==> ip !in server.orips
    ensures r.Ours? ==> ip in server.orips && !c.Foreign(server.orips[ip]) && !c.Stale(server.orips[ip])
    ensures r.Taken? ==> Contended(c, server.View(), ip) && server.orips == old(server.orips)
    ensures server.faults >= old(server.faults)
    ensures server.faults == old(server.faults) ==> !r.Broken? && (r.Taken? <==> Contended(c, old(server.View()), ip))
    ensures server.lasting >= old(server.lasting)
  {
    hide PoolsDiffer, ReservationsDiffer;
    SameIsRestored(c, server.View());
    var e, found := server.GetReservation(ip);
    if e.Some? { return Broken; }
    if found.None? { return Clear; }
    if found.value.podRef != c.who.podRef || found.value.ifName != c.who.ifName { return Taken; }
    if c.podUID == "" || found.value.podUID == "" || found.value.podUID == c.podUID { return Ours; }
    ghost var w := server.View();
    var failed := server.DeleteReservation(ip, found.value.podUID);
    if failed.Some? { return Broken; }
    DeleteStale(c, w, w, server.View(), NOTHING, ip);
    return Clear;
  }

  datatype WriteOutcome = Done(reserved: bool) | Retry | Abort

  ghost function Created(pool: KubernetesIPPool, plan: Plan): set<(PoolId, nat)> {
    if plan.created then {Key(pool, plan.ip)} else {}
  }

  /** The pool object still shows the pool as it is stored, and the plan writes one key of it. */
  ghost predicate Ready(pools: map<PoolId, Stored>, offsets: map<PoolId, Offsets>, c: Caller, pool: KubernetesIPPool, plan: Plan)
    reads pool
  {
    && pool.IsCopyOf(pools, offsets, pool.range) && InFamily(pool.offsets, pool.firstIP)
    && plan.ip.family == pool.id.family && pool.id.base <= plan.ip.value
    && var k := OffsetIn(pool.id, plan.ip);
       && OffsetsOf(plan.list, pool.firstIP) == Ok(pool.offsets[k := Alloc(c.who)])
       && (plan.created <==> k !in pool.offsets)
       && (k in pool.offsets ==> OwnedBy(pool.offsets[k], c.who))
  }

  lemma WrittenKey(c: Caller, w: World, w': World, id: PoolId, k: nat)
    requires AllInFamily(w.offsets) && id in w.offsets && id.base + k < Space(id.family)
    requires var m: Offsets := w.offsets[id][k := Alloc(c.who)]; w' == World(w.offsets[id := m], w.orips)
    requires k in w.offsets[id] ==> OwnedBy(w.offsets[id][k], c.who)
    ensures AllInFamily(w'.offsets) && Secured(c, w', false, id, RawAddr(id.family, id.base + k))
    ensures Differs(c, w, w', Added(if k in w.offsets[id] then {} else {(id, k)}, {}))
  {
    hide PoolsDiffer, ReservationsDiffer, Space;
    assert Restored(c, w, w) by { SameIsRestored(c, w); }
    var added := AddKey(c, w, w, w', NOTHING, id, k);
    assert added == Added(if k in w.offsets[id] then {} else {(id, k)}, {});
  }

  lemma WrittenIsUndoable(server: ApiServer, c: Caller, pool: KubernetesIPPool, ip: Addr, m: Offsets, added: Added)
    requires pool.Valid() && ip.family == pool.id.family && pool.id.base <= ip.value && InFamily(m, pool.firstIP)
    requires pool.offsets == m[OffsetIn(pool.id, ip) := Alloc(c.who)] && Key(pool, ip) in added.keys
    requires pool.id in server.pools && pool.version < server.pools[pool.id].version
    ensures Undoable(server.pools, c, added.keys, pool, ip) && Wrote(c, Commit(pool, ip, None))
  {
    hide Space, Encode;
  }

  /** The pool write. */
  method WritePool(server: ApiServer, c: Caller, pool: KubernetesIPPool, plan: Plan)
    returns (e: Option<CallError>, ghost added: Added)
    requires server.Valid() && AllInFamily(server.offsets) && Ready(server.pools, server.offsets, c, pool, plan)
    modifies server, pool
    ensures server.Valid() && AllInFamily(server.offsets) && Grow(old(server.pools), server.pools)
    ensures Differs(c, old(server.View()), server.View(), added)
    ensures e.Some? ==> added == NOTHING
    ensures server.faults >= old(server.faults) && (server.faults == old(server.faults) ==> e.None?)
    ensures server.orips == old(server.orips)
    ensures e.None? ==>
      && added == Added(Created(pool, plan), {})
      && Secured(c, server.View(), false, pool.range, plan.ip)
      && (plan.created ==> Undoable(server.pools, c, added.keys, pool, plan.ip) && Wrote(c, Commit(pool, plan.ip, None)))
    ensures server.lasting >= old(server.lasting)
  {
    hide Differs, AllInFamily, Secured, Undoable, Wrote, InFamily, Encode, OffsetsOf, Space, Pow2;
    SameIsRestored(c, server.View());
    ghost var w := server.View();
    ghost var k := OffsetIn(pool.id, plan.ip);
    e := pool.Update(server, plan.list);
    added := NOTHING;
    if e.Some? { return; }
    WrittenKey(c, w, server.View(), pool.id, k);
    added := Added(Created(pool, plan), {});
    if plan.created { WrittenIsUndoable(server, c, pool, plan.ip, w.offsets[pool.id], added); }
  }

  lemma SingleLedger(pools: map<PoolId, Stored>, c: Caller, pool: KubernetesIPPool, ip: Addr, added: Added)
    requires Undoable(pools, c, added.keys, pool, ip) && Wrote(c, Commit(pool, ip, None))
    ensures
      var commits := [Commit(pool, ip, None)];
      && Ledger(pools, c, added, commits) && PoolsOf(commits) == {pool}
      && AllKeys(c, commits) == {Key(pool, ip)} && AllAddrs(commits) == {}
  {
    hide Undoable, StillCommitted;
    var commits := [Commit(pool, ip, None)];
    assert KeysOf(c, commits[0]) == {Key(pool, ip)};
  }

  /** The writes of an attempt. When the reservation cannot be created, a new pool entry is removed
      again before the attempt is repeated or given up. */
  method WriteAndReserve(server: ApiServer, c: Caller, pool: KubernetesIPPool, plan: Plan, reserve: bool)
    returns (r: WriteOutcome, failures: nat, ghost added: Added)
    requires server.Valid() && AllInFamily(server.offsets) && Ready(server.pools, server.offsets, c, pool, plan) && c.who.podRef != ""
    modifies server, pool
    ensures server.Valid() && AllInFamily(server.offsets) && Grow(old(server.pools), server.pools)
    ensures Differs(c, old(server.View()), server.View(), added)
    ensures r.Done? ==>
      && r.reserved == reserve && failures == 0
      && added == Added(Created(pool, plan), if reserve then {plan.ip} else {})
      && Secured(c, server.View(), reserve, pool.range, plan.ip)
      && (plan.created ==> Undoable(server.pools, c, added.keys, pool, plan.ip) && Wrote(c, Commit(pool, plan.ip, None)))
    ensures !r.Done? && failures == 0 ==> added == NOTHING
    ensures added.keys <= Created(pool, plan)
    ensures server.faults >= old(server.faults)
    ensures server.faults == old(server.faults) ==> !reserve || plan.ip !in old(server.orips) ==> r.Done?
    ensures server.lasting >= old(server.lasting) && (FewFaults(old(server.faults), old(server.lasting), server.faults, server.lasting) ==> failures == 0)
  {
    hide Differs, AllInFamily, Ready, Secured, Undoable, Wrote, Ledger, AllKeys, Encode, OffsetsOf, Space, Pow2;
    failures := 0;
    ghost var w0 := server.View();
    var e;
    e, added := WritePool(server, c, pool, plan);
    if e.Some? {
      r := if e == Some(Temporary) then Retry else Abort;
      return;
    }
    if !reserve { return Done(false), 0, added; }
    ghost var w := server.View();
    e := server.CreateReservation(plan.ip, c.Mine());
    if e.Some? {
      if plan.created {
        SingleLedger(server.pools, c, pool, plan.ip, added);
        failures, added := RollbackCommitted(server, c, [Commit(pool, plan.ip, None)], w0, added);
      }
      r := if e == Some(Temporary) then Retry else Abort;
      return;
    }
    ReservedFacts(c, w0, w, server.View(), added, pool.range, plan.ip);
    added := added.(addrs := {plan.ip});
    r := Done(true);
  }

  lemma ReservedFacts(c: Caller, w0: World, w: World, w': World, added: Added, range: RawPrefix, ip: RawAddr)
    requires Differs(c, w0, w, added) && added.addrs == {} && Secured(c, w, false, range, ip)
    requires ip !in w.orips && w' == w.(orips := w.orips[ip := c.Mine()])
    ensures Differs(c, w0, w', added.(addrs := {ip})) && Secured(c, w', true, range, ip)
  {
  }

  // ---------------------------------------------------------------------
  // One range
  // ---------------------------------------------------------------------

  datatype AttemptOutcome = Committed(reserved: bool) | Conflict | Again | GivenUp

  /** What an attempt that got as far as an address leaves for the commit record. */
  ghost predicate Recordable(server: ApiServer, c: Caller, pool: KubernetesIPPool, plan: Plan, keys: set<(PoolId, nat)>)
    reads server, pool
  {
    plan.created ==> Undoable(server.pools, c, keys, pool, plan.ip)
  }

  /** The address an attempt settles on, given what the pool holds. */
  ghost predicate Chosen(conf: RangeConfiguration, m: Offsets, taken: seq<Addr>, who: Requester, ip: Addr)
    requires conf.range.Some?
  {
    && ip.family == conf.range.value.family && conf.range.value.base <= ip.value
    && TakesOffset(conf, NetworkIP(conf.range.value), m, taken, who, ip.value - conf.range.value.base)
  }

  /** The configuration allows a new entry for the address. */
  ghost predicate Allowed(conf: RangeConfiguration, ip: Addr)
    requires conf.range.Some?
  {
    && Contains(conf.range.value, ip) && IsIPInRange(ip, Bounds(conf).0, Bounds(conf).1)
    && !Excluded(conf.omitRanges, ip) && PickAllowed(conf.pickAddresses, ip)
  }

  lemma NewIsAllowed(conf: RangeConfiguration, m: Offsets, taken: seq<Addr>, who: Requester, ip: Addr, k: nat)
    requires conf.range.Some? && TakesOffset(conf, NetworkIP(conf.range.value), m, taken, who, k) && k !in m
    requires ip == RawAddr(conf.range.value.family, conf.range.value.base + k)
    ensures Allowed(conf, ip) && ip !in taken
  {
    hide Space, Pow2, Bounds, Excluded, PickAllowed;
  }

  /** The plan is what the allocator assigns when the pool is read in the given order. */
  ghost predicate Planned(conf: RangeConfiguration, m: Offsets, taken: seq<Addr>, who: Requester, ks: seq<nat>, plan: Option<Plan>)
    requires conf.range.Some?
  {
    && Visits(m, ks)
    && var given := Assigned(conf, ReserveList(m, NetworkIP(conf.range.value), ks, taken), who);
       if plan.None? then given.Err? else given.Ok? && given.value.ip == Some(plan.value.ip)
  }

  lemma PlannedIs(conf: RangeConfiguration, m: Offsets, taken: seq<Addr>, who: Requester, ks: seq<nat>, r: Result<Plan, AssignError>)
    requires conf.range.Some? && Visits(m, ks)
    requires
      var given := Assigned(conf, ReserveList(m, NetworkIP(conf.range.value), ks, taken), who);
      if r.Err? then given == Err(r.error) else given.Ok? && given.value.ip == Some(r.value.ip)
    ensures Planned(conf, m, taken, who, ks, if r.Err? then None else Some(r.value))
  {
    hide Assigned, ReserveList, Space, Pow2;
  }

  lemma PlanIsReady(server: ApiServer, c: Caller, conf: RangeConfiguration, pool: KubernetesIPPool, taken: seq<Addr>, plan: Plan, k: nat)
    requires conf.range.Some? && pool.IsCopyOf(server.pools, server.offsets, conf.range.value) && InFamily(pool.offsets, pool.firstIP)
    requires TakesOffset(conf, pool.firstIP, pool.offsets, taken, c.who, k) && plan.ip == RawAddr(pool.firstIP.family, pool.firstIP.value + k)
    requires OffsetsOf(plan.list, pool.firstIP) == Ok(pool.offsets[k := Alloc(c.who)])
    requires (plan.created <==> k !in pool.offsets) && (k in pool.offsets ==> OwnedBy(pool.offsets[k], c.who))
    ensures Ready(server.pools, server.offsets, c, pool, plan) && Chosen(conf, pool.offsets, taken, c.who, plan.ip)
  {
    hide TakesOffset, InFamily, Encode, OffsetsOf, Space, Pow2;
  }

  /** The reading half of an attempt. Nothing is planned when the pool has to be created or read
      again, or when no address can be assigned. */
  method ReadAndPlan(server: ApiServer, c: Caller, conf: RangeConfiguration, taken: seq<Addr>)
    returns (again: bool, pool: KubernetesIPPool?, plan: Option<Plan>, ghost ks: seq<nat>)
    requires server.Valid() && AllInFamily(server.offsets) && conf.range.Some? && c.who.podRef != ""
    modifies server
    ensures server.Valid() && AllInFamily(server.offsets) && Grow(old(server.pools), server.pools)
    ensures Restored(c, old(server.View()), server.View())
    ensures plan.Some? ==>
      && pool != null && fresh(pool) && pool.range == conf.range.value && pool.id == pool.range && Ready(server.pools, server.offsets, c, pool, plan.value)
      && Chosen(conf, old(server.View()).At(conf.range.value), taken, c.who, plan.value.ip)
      && (plan.value.created ==> Allowed(conf, plan.value.ip) && plan.value.ip !in taken)
    ensures server.faults >= old(server.faults) && server.orips == old(server.orips)
    ensures forall id :: server.View().At(id) == old(server.View()).At(id)
    ensures server.faults == old(server.faults) ==> conf.range.value in server.pools
    ensures server.faults == old(server.faults) && conf.range.value !in old(server.pools) ==> plan.None? && again
    ensures server.faults == old(server.faults) && conf.range.value in old(server.pools) ==>
              !again && Planned(conf, old(server.View()).At(conf.range.value), taken, c.who, ks, plan)
    ensures server.lasting >= old(server.lasting)
  {
    hide Differs, Restored, AllInFamily, Allowed, Planned, Chosen, Ready, Grow, TakesOffset, InFamily, Encode, OffsetsOf, Space, Pow2, World.At;
    ks := [];
    ghost var w0, pools := server.View(), server.pools;
    var e;
    e, pool := server.GetIPPool(conf.range.value);
    SameHeldIsRestored(c, w0, server.View());
    assert Grow(pools, server.pools) by { GrownIs(pools, server.pools); }
    if e.Some? { return e == Some(Temporary), null, None, ks; }
    CopyInFamily(server.offsets, conf.range.value);
    StoredAt(server.View(), conf.range.value);
    var planned;
    ghost var k;
    planned, k, ks := PlanAttempt(pool, conf, taken, c.who);
    PlannedIs(conf, pool.offsets, taken, c.who, ks, planned);
    if planned.Err? { return false, null, None, ks; }
    if planned.value.created { NewIsAllowed(conf, pool.offsets, taken, c.who, planned.value.ip, k); }
    PlanIsReady(server, c, conf, pool, taken, planned.value, k);
    return false, pool, Some(planned.value), ks;
  }

  /** A pool key that the configuration allows. */
  ghost predicate AllowedKey(conf: RangeConfiguration, key: (PoolId, nat)) {
    && conf.range.Some? && key.0 == conf.range.value && key.0.base + key.1 < Space(key.0.family)
    && Allowed(conf, RawAddr(key.0.family, key.0.base + key.1))
  }

  ghost predicate KeysAllowed(conf: RangeConfiguration, keys: set<(PoolId, nat)>) {
    forall key :: key in keys ==> AllowedKey(conf, key)
  }

  /** No key stands for an address that is taken. */
  ghost predicate KeysUntaken(keys: set<(PoolId, nat)>, taken: seq<Addr>) {
    forall key, a :: key in keys && a in taken ==> a != RawAddr(key.0.family, key.0.base + key.1)
  }

  lemma NoKeysAllowed(conf: RangeConfiguration, taken: seq<Addr>)
    ensures KeysAllowed(conf, {}) && KeysUntaken({}, taken)
  {
  }

  lemma AllKeysUntaken(keys: set<(PoolId, nat)>, more: set<(PoolId, nat)>, taken: seq<Addr>, seen: seq<Addr>)
    requires KeysUntaken(keys, taken) && KeysUntaken(more, seen) && taken <= seen
    ensures KeysUntaken(keys + more, taken)
  {
    assert forall a :: a in taken ==> a in seen;
  }

  lemma AllKeysAllowed(conf: RangeConfiguration, keys: set<(PoolId, nat)>, more: set<(PoolId, nat)>)
    requires KeysAllowed(conf, keys) && KeysAllowed(conf, more)
    ensures KeysAllowed(conf, keys + more)
  {
  }

  lemma AllowedIsKey(conf: RangeConfiguration, pool: KubernetesIPPool, ip: Addr)
    requires conf.range == Some(pool.range) && pool.id == pool.range && Allowed(conf, ip)
    ensures AllowedKey(conf, Key(pool, ip)) && RawAddr(pool.id.family, pool.id.base + Key(pool, ip).1) == ip
  {
    hide Space, Pow2, Bounds, Excluded, PickAllowed;
    assert ip == RawAddr(pool.id.family, pool.id.base + OffsetIn(pool.id, ip));
  }

  /** How a pass ends when no call fails and the pool exists: as the allocator and the reservation of the
      address it assigns decide. */
  ghost predicate Decided(c: Caller, conf: RangeConfiguration, overlap: bool, before: World, after: World, taken: seq<Addr>,
                          ks: seq<nat>, r: AttemptOutcome, plan: Option<Plan>)
    requires conf.range.Some?
  {
    && Planned(conf, before.At(conf.range.value), taken, c.who, ks, plan)
    && if plan.None? then r.GivenUp?
       else if overlap && Contended(c, before, plan.value.ip)
       then r.Conflict? && SamePools(before, after) && after.orips == before.orips
       else r.Committed?
  }

  /** The pool gives the pod nothing: the configuration is malformed, or nothing the pod owns or may get is left. */
  ghost predicate Refuses(conf: RangeConfiguration, m: Offsets, taken: seq<Addr>, who: Requester)
    requires conf.range.Some?
  {
    !WellFormed(conf.omitRanges) || NothingLeft(conf, NetworkIP(conf.range.value), m, taken, who)
  }

  lemma DecidedRefuses(c: Caller, conf: RangeConfiguration, overlap: bool, before: World, after: World, taken: seq<Addr>,
                       ks: seq<nat>, r: AttemptOutcome, plan: Option<Plan>)
    requires conf.range.Some? && c.who.podRef != "" && AllInFamily(before.offsets)
    requires Decided(c, conf, overlap, before, after, taken, ks, r, plan)
    ensures !r.Again? && (r.GivenUp? ==> Refuses(conf, before.At(conf.range.value), taken, c.who))
  {
    hide NothingLeft, Visits, InFamily, AllInFamily, ReserveList, Contended, Space, Pow2;
    StoredInFamily(before, conf.range.value);
    AttemptByOffset(conf, NetworkIP(conf.range.value), before.At(conf.range.value), ks, taken, c.who);
  }

  /** What a pass in which no call fails says: it asks for another one only if it had to create the pool, and
      gives up only if the pool refuses. */
  ghost predicate Answers(conf: RangeConfiguration, before: World, existed: bool, taken: seq<Addr>, who: Requester, r: AttemptOutcome)
    requires conf.range.Some?
  {
    (r.Again? ==> !existed) && (r.GivenUp? ==> Refuses(conf, before.At(conf.range.value), taken, who))
  }

  lemma AddedUntaken(conf: RangeConfiguration, pool: KubernetesIPPool, plan: Plan, keys: set<(PoolId, nat)>, taken: seq<Addr>)
    requires conf.range == Some(pool.range) && pool.id == pool.range && keys <= Created(pool, plan)
    requires plan.created ==> Allowed(conf, plan.ip) && plan.ip !in taken
    ensures KeysAllowed(conf, keys) && KeysUntaken(keys, taken)
  {
    hide Allowed, AllowedKey, Space, Pow2;
    if plan.created { AllowedIsKey(conf, pool, plan.ip); }
  }

  lemma SameReservations(c: Caller, w: World, w': World, ip: RawAddr)
    requires w.orips == w'.orips
    ensures Contended(c, w, ip) <==> Contended(c, w', ip)
  {
  }

  /** The second half of an attempt: the reservation is looked up, then pool and reservation are written. */
  method CheckAndWrite(server: ApiServer, c: Caller, pool: KubernetesIPPool, plan: Plan, overlap: bool)
    returns (r: AttemptOutcome, failures: nat, ghost added: Added)
    requires server.Valid() && AllInFamily(server.offsets) && Ready(server.pools, server.offsets, c, pool, plan) && c.who.podRef != ""
    modifies server, pool
    ensures server.Valid() && AllInFamily(server.offsets) && Grow(old(server.pools), server.pools)
    ensures Differs(c, old(server.View()), server.View(), added) && added.keys <= Created(pool, plan)
    ensures r.Committed? || r.Conflict? ==> Recordable(server, c, pool, plan, added.keys)
    ensures r.Committed? ==>
      && added == Added(Created(pool, plan), if r.reserved then {plan.ip} else {})
      && Secured(c, server.View(), overlap, pool.range, plan.ip)
      && (plan.created ==> Wrote(c, Commit(pool, plan.ip, None)))
    ensures r.Conflict? ==>
      && added == NOTHING && overlap && Contended(c, server.View(), plan.ip)
      && (plan.created ==> !Wrote(c, Commit(pool, plan.ip, None)))
    ensures !r.Committed? && failures == 0 ==> added == NOTHING
    ensures server.faults >= old(server.faults)
    ensures server.faults == old(server.faults) ==>
      if overlap && Contended(c, old(server.View()), plan.ip)
      then r.Conflict? && SamePools(old(server.View()), server.View()) && server.orips == old(server.orips)
      else r.Committed?
    ensures server.lasting >= old(server.lasting) && (FewFaults(old(server.faults), old(server.lasting), server.faults, server.lasting) ==> failures == 0)
  {
    hide Differs, AllInFamily, Ready, Secured, Contended, Wrote, Undoable, InFamily, Encode, OffsetsOf, Space, Pow2;
    failures, added := 0, NOTHING;
    ghost var w0 := server.View();
    SameIsRestored(c, w0);
    var reserve := overlap;
    if overlap {
      var check := CheckReservation(server, c, plan.ip);
      match check {
        case Broken => return GivenUp, 0, NOTHING;
        case Taken =>
          PlannedIsNotWritten(server, c, pool, plan);
          return Conflict, 0, NOTHING;
        case Ours => reserve := false;
        case Clear =>
      }
    }
    ghost var w := server.View();
    var written;
    written, failures, added := WriteAndReserve(server, c, pool, plan, reserve);
    ThenDiffers(c, w0, w, server.View(), added);
    match written {
      case Retry => r := Again;
      case Abort => r := GivenUp;
      case Done(reserved) =>
        if overlap && !reserve { StaysOurs(c, w, server.View(), added, pool.range, plan.ip); }
        r := Committed(reserved);
    }
  }

  /** What an attempt leaves behind: it differs from `before` by what it added, all of it allowed; with an
      address, that is the one the pool called for, secured by a commit or somebody else's in a conflict;
      and without a commit nothing is added unless a rollback failed. */
  ghost predicate Leaves(server: ApiServer, c: Caller, conf: RangeConfiguration, overlap: bool, before: World, taken: seq<Addr>,
                         r: AttemptOutcome, pool: KubernetesIPPool?, plan: Option<Plan>, failures: nat, added: Added)
    requires conf.range.Some?
    reads server, if pool == null then {} else {pool}
  {
    && Differs(c, before, server.View(), added) && KeysAllowed(conf, added.keys) && KeysUntaken(added.keys, taken)
    && (r.Committed? || r.Conflict? ==>
          && pool != null && pool.range == conf.range.value && plan.Some?
          && Chosen(conf, before.At(conf.range.value), taken, c.who, plan.value.ip)
          && Recordable(server, c, pool, plan.value, added.keys))
    && (r.Committed? ==>
          && added == Added(Created(pool, plan.value), if r.reserved then {plan.value.ip} else {})
          && Secured(c, server.View(), overlap, conf.range.value, plan.value.ip)
          && (plan.value.created ==> Wrote(c, Commit(pool, plan.value.ip, None))))
    && (r.Conflict? ==>
          && added == NOTHING && overlap && Contended(c, server.View(), plan.value.ip)
          && (plan.value.created ==> !Wrote(c, Commit(pool, plan.value.ip, None))))
    && (!r.Committed? && failures == 0 ==> added == NOTHING)
  }

  /** One pass of the retry loop. */
  method Attempt(server: ApiServer, c: Caller, conf: RangeConfiguration, overlap: bool, taken: seq<Addr>)
    returns (r: AttemptOutcome, pool: KubernetesIPPool?, plan: Option<Plan>, failures: nat, ghost added: Added, ghost ks: seq<nat>)
    requires server.Valid() && AllInFamily(server.offsets) && conf.range.Some? && c.who.podRef != ""
    modifies server
    ensures server.Valid() && AllInFamily(server.offsets) && Grow(old(server.pools), server.pools)
    ensures Leaves(server, c, conf, overlap, old(server.View()), taken, r, pool, plan, failures, added) && (pool != null ==> fresh(pool))
    ensures server.faults >= old(server.faults)
    ensures server.faults == old(server.faults) ==> conf.range.value in server.pools
    ensures server.faults == old(server.faults) && conf.range.value in old(server.pools) ==>
              Decided(c, conf, overlap, old(server.View()), server.View(), taken, ks, r, plan)
    ensures server.faults == old(server.faults) && conf.range.value !in old(server.pools) ==>
              r.Again? && SamePools(old(server.View()), server.View()) && server.orips == old(server.orips)
    ensures server.lasting >= old(server.lasting) && (FewFaults(old(server.faults), old(server.lasting), server.faults, server.lasting) ==> failures == 0)
  {
    hide Differs, AllInFamily, Chosen, Allowed, KeysAllowed, KeysUntaken, Planned, Ready, Secured, Contended, Recordable, Wrote, InFamily, Encode, OffsetsOf, Space, Pow2, World.At;
    ghost var w0 := server.View();
    var again;
    again, pool, plan, ks := ReadAndPlan(server, c, conf, taken);
    NoKeysAllowed(conf, taken);
    if plan.None? { return if again then Again else GivenUp, null, plan, 0, NOTHING, ks; }
    ghost var w := server.View();
    r, failures, added := CheckAndWrite(server, c, pool, plan.value, overlap);
    ThenDiffers(c, w0, w, server.View(), added);
    SameReservations(c, w0, w, plan.value.ip);
    AddedUntaken(conf, pool, plan.value, added.keys, taken);
  }

  lemma PlannedIsNotWritten(server: ApiServer, c: Caller, pool: KubernetesIPPool, plan: Plan)
    requires Ready(server.pools, server.offsets, c, pool, plan)
    ensures plan.created ==> Undoable(server.pools, c, {}, pool, plan.ip) && !Wrote(c, Commit(pool, plan.ip, None))
  {
  }

  lemma StaysOurs(c: Caller, w: World, w': World, added: Added, range: RawPrefix, ip: RawAddr)
    requires Differs(c, w, w', added) && Secured(c, w', false, range, ip)
    requires ip in w.orips && !c.Foreign(w.orips[ip]) && !c.Stale(w.orips[ip])
    ensures Secured(c, w', true, range, ip)
  {
    assert ReservationDiffers(c, w.orips, w'.orips, ip in added.addrs, ip);
  }

  lemma SameHeldIsRestored(c: Caller, w: World, w': World)
    requires SamePools(w, w') && w'.orips == w.orips
    ensures Restored(c, w, w') && (AllInFamily(w.offsets) ==> AllInFamily(w'.offsets))
  {
    SameIsRestored(c, w);
    SamePoolsDiffer(c, w, w, w', {});
    forall id, k | AllInFamily(w.offsets) && id in w'.offsets && k in w'.offsets[id] ensures id.base + k < Space(id.family) {
      assert k in w'.At(id) && k in w.At(id);
    }
  }

  /** What a successful range has: its address is secured, or is reserved by somebody else. */
  ghost predicate Served(c: Caller, w: World, overlap: bool, range: RawPrefix, ip: RawAddr) {
    Secured(c, w, overlap, range, ip) || (overlap && Contended(c, w, ip))
  }

  lemma MoreKeysUndoable(pools: map<PoolId, Stored>, c: Caller, keys: set<(PoolId, nat)>, keys': set<(PoolId, nat)>, pool: KubernetesIPPool, ip: Addr)
    requires Undoable(pools, c, keys, pool, ip) && keys <= keys'
    ensures Undoable(pools, c, keys', pool, ip)
  {
  }

  /** The commit record of a range, if there is anything to undo. */
  function CommitOf(pool: KubernetesIPPool, plan: Plan, reserved: bool): Option<Commit> {
    if !plan.created && !reserved then None
    else Some(Commit(if plan.created then pool else null, plan.ip, if reserved then Some(plan.ip) else None))
  }

  ghost function AddedBy(c: Caller, commit: Option<Commit>): Added
    reads if commit.Some? && commit.value.pool != null then {commit.value.pool} else {}
  {
    if commit.None? then NOTHING else Added(KeysOf(c, commit.value), AddrsOf(commit.value))
  }

  lemma CommitFits(pools: map<PoolId, Stored>, c: Caller, added: Added, pool: KubernetesIPPool, plan: Plan, reserved: bool)
    requires plan.created ==> Undoable(pools, c, added.keys, pool, plan.ip)
    requires reserved ==> plan.ip in added.addrs && (plan.created ==> Wrote(c, Commit(pool, plan.ip, None)))
    ensures
      var commit := CommitOf(pool, plan, reserved);
      && (commit.Some? ==> CommitOk(pools, c, added, commit.value))
      && AddedBy(c, commit) == Added(
           if plan.created && Wrote(c, Commit(pool, plan.ip, None)) then {Key(pool, plan.ip)} else {},
           if reserved then {plan.ip} else {})
  {
    hide Undoable, Space, Pow2;
  }

  /** The pod already owned the address, or the configuration allows a new entry for it. */
  ghost predicate Rightful(conf: RangeConfiguration, before: World, who: Requester, ip: Addr) {
    && conf.range.Some? && ip.family == conf.range.value.family && conf.range.value.base <= ip.value
    && (OwnOffset(before.At(conf.range.value), who, ip.value - conf.range.value.base) || Allowed(conf, ip))
  }

  /** The pod owned the address in the pool of the range. */
  ghost predicate OwnsAt(conf: RangeConfiguration, before: World, who: Requester, ip: Addr) {
    && conf.range.Some? && ip.family == conf.range.value.family && conf.range.value.base <= ip.value
    && OwnOffset(before.At(conf.range.value), who, ip.value - conf.range.value.base)
  }

  /** The ADD makes no reservations of other pods. */
  lemma StillContended(c: Caller, w0: World, w: World, added: Added, ip: RawAddr)
    requires Differs(c, w0, w, added) && Contended(c, w, ip)
    ensures Contended(c, w0, ip)
  {
    assert ReservationDiffers(c, w0.orips, w.orips, ip in added.addrs, ip);
  }

  /** An address that is taken is chosen only if the pod owned it before. */
  lemma ChosenIsSpaced(c: Caller, w0: World, w: World, added: Added, conf: RangeConfiguration, taken: seq<Addr>, seen: seq<Addr>, ip: Addr)
    requires conf.range.Some? && Differs(c, w0, w, added) && Chosen(conf, w.At(conf.range.value), seen, c.who, ip)
    requires KeysUntaken(added.keys, taken) && taken <= seen
    ensures ip in taken ==> OwnsAt(conf, w0, c.who, ip)
  {
    hide Differs, Space, Pow2, Bounds, Excluded, PickAllowed;
    var id: PoolId, k := conf.range.value, ip.value - conf.range.value.base;
    assert ip == RawAddr(id.family, id.base + k);
    if ip in taken {
      assert ip in seen;
      assert OwnOffset(w.At(id), c.who, k);
      OwnedOrAdded(c, w0, w, added, id, k);
    }
  }

  lemma OwnedOrAdded(c: Caller, w0: World, w: World, added: Added, id: PoolId, k: nat)
    requires Differs(c, w0, w, added) && OwnOffset(w.At(id), c.who, k)
    ensures OwnOffset(w0.At(id), c.who, k) || (id, k) in added.keys
  {
    assert EntryDiffers(c, w0.At(id), w.At(id), (id, k) in added.keys, k);
  }

  lemma ChosenIsRightful(c: Caller, w0: World, w: World, added: Added, conf: RangeConfiguration, taken: seq<Addr>, ip: Addr)
    requires conf.range.Some? && Differs(c, w0, w, added) && Chosen(conf, w.At(conf.range.value), taken, c.who, ip)
    requires KeysAllowed(conf, added.keys)
    ensures Rightful(conf, w0, c.who, ip)
  {
    hide Differs, Allowed, Space, Pow2, Bounds, Excluded, PickAllowed;
    var id: PoolId, k := conf.range.value, ip.value - conf.range.value.base;
    assert ip == RawAddr(id.family, id.base + k);
    if OwnOffset(w.At(id), c.who, k) {
      OwnedOrAdded(c, w0, w, added, id, k);
    } else {
      NewIsAllowed(conf, w.At(id), taken, c.who, ip, k);
    }
  }

  /** How the loop ends when no call fails: as the same loop over a pool and reservations that stand still. */
  ghost predicate EndsAs(c: Caller, overlap: bool, before: World, after: World, range: RawPrefix, ip: Option<Addr>, outcome: OverlapRetry.RetryOutcome) {
    match outcome
    case Fails(_) => ip.None?
    case Writes(a) => ip.Some? && a == ip && Secured(c, after, overlap, range, ip.value)
    case FallsThrough(a) => overlap && ip == Some(a) && Contended(c, after, a) && SamePools(before, after) && after.orips == before.orips
  }

  /** The reservations that a loop looks at. */
  function Checked(overlap: bool, orips: map<RawAddr, Orip>): map<RawAddr, Orip> {
    if overlap then orips else map[]
  }

  /** The outcome of the loop over a pool that is read in the given order. */
  ghost function Loop(conf: RangeConfiguration, m: Offsets, ks: seq<nat>, taken: seq<Addr>, orips: map<RawAddr, Orip>, who: Requester, attempts: nat): OverlapRetry.RetryOutcome
    requires conf.range.Some? && Visits(m, ks) && attempts > 0
  {
    OverlapRetry.Retry(conf, ReserveList(m, NetworkIP(conf.range.value), ks, taken), orips, who, attempts)
  }

  lemma DummyTaken(m: Offsets, base: Addr, ks: seq<nat>, taken: seq<Addr>, a: Addr)
    requires Visits(m, ks)
    ensures ReserveList(m, base, ks, taken) + [Dummy(a)] == ReserveList(m, base, ks, taken + [a])
  {
    assert Dummies(taken + [a]) == Dummies(taken) + [Dummy(a)];
  }

  /** The order in which the pool is read does not matter to the loop. */
  lemma {:induction false} LoopIgnoresOrder(conf: RangeConfiguration, m: Offsets, ks: seq<nat>, js: seq<nat>, taken: seq<Addr>,
                                            orips: map<RawAddr, Orip>, who: Requester, attempts: nat)
    requires conf.range.Some? && who.podRef != "" && attempts > 0
    requires Visits(m, ks) && Visits(m, js) && UniqueOwners(m) && InFamily(m, NetworkIP(conf.range.value))
    ensures Loop(conf, m, ks, taken, orips, who, attempts) == Loop(conf, m, js, taken, orips, who, attempts)
    decreases attempts
  {
    hide Assigned, ReserveList, Visits, UniqueOwners, InFamily, Space, Pow2;
    var base := NetworkIP(conf.range.value);
    AttemptIgnoresOrder(conf, base, m, ks, js, taken, who);
    var given := Assigned(conf, ReserveList(m, base, ks, taken), who);
    if attempts > 1 && given.Ok? && given.value.ip.Some? {
      var a := given.value.ip.value;
      DummyTaken(m, base, ks, taken, a);
      DummyTaken(m, base, js, taken, a);
      LoopIgnoresOrder(conf, m, ks, js, taken + [a], orips, who, attempts - 1);
    }
  }

  /** One pass is one turn of the loop, in whatever order the pool was read. */
  lemma DecidedIsTurn(c: Caller, conf: RangeConfiguration, overlap: bool, before: World, after: World, taken: seq<Addr>, ks: seq<nat>, js: seq<nat>,
                      r: AttemptOutcome, plan: Option<Plan>, attempts: nat)
    requires conf.range.Some? && c.who.podRef != "" && attempts > 0
    requires
      var m := before.At(conf.range.value);
      Visits(m, ks) && UniqueOwners(m) && InFamily(m, NetworkIP(conf.range.value))
    requires Decided(c, conf, overlap, before, after, taken, js, r, plan)
    ensures
      var outcome := Loop(conf, before.At(conf.range.value), ks, taken, Checked(overlap, before.orips), c.who, attempts);
      if plan.None? then r.GivenUp? && outcome.Fails?
      else if r.Committed? then outcome == OverlapRetry.Writes(Some(plan.value.ip))
      else
        && r.Conflict? && overlap && SamePools(before, after) && after.orips == before.orips && Contended(c, after, plan.value.ip)
        && outcome == if attempts == 1 then OverlapRetry.FallsThrough(plan.value.ip)
                      else Loop(conf, before.At(conf.range.value), ks, taken + [plan.value.ip], Checked(overlap, before.orips), c.who, attempts - 1)
  {
    hide Assigned, ReserveList, Visits, UniqueOwners, InFamily, Space, Pow2;
    var m, base := before.At(conf.range.value), NetworkIP(conf.range.value);
    AttemptIgnoresOrder(conf, base, m, js, ks, taken, c.who);
    if plan.Some? { DummyTaken(m, base, ks, taken, plan.value.ip); }
  }

  /** What the loop knows before pass j as long as no call has failed: the pool and the reservations stand
      as at the start, and the passes left will end like the whole loop. A pool that was missing has cost
      the first pass. */
  ghost predicate OnTrack(conf: RangeConfiguration, overlap: bool, before: World, now: World, existed: bool, ks: seq<nat>, taken: seq<Addr>, seen: seq<Addr>, who: Requester, j: nat)
    requires conf.range.Some? && Visits(before.At(conf.range.value), ks) && j < OverlapRetry.DATASTORE_RETRIES
  {
    var m := before.At(conf.range.value);
    && SamePools(before, now) && now.orips == before.orips
    && (if j == 0 then seen == taken
        else Loop(conf, m, ks, taken, Checked(overlap, before.orips), who, Attempts(existed))
             == Loop(conf, m, ks, seen, Checked(overlap, before.orips), who, OverlapRetry.DATASTORE_RETRIES - j))
  }

  /** How many passes see the pool. */
  ghost function Attempts(existed: bool): nat {
    if existed then OverlapRetry.DATASTORE_RETRIES else OverlapRetry.DATASTORE_RETRIES - 1
  }

  lemma AnyOrder(m: Offsets) returns (ks: seq<nat>)
    ensures Visits(m, ks)
  {
    ks := [];
    var rest := m.Keys;
    while rest != {}
      invariant rest <= m.Keys && Distinct(ks) && forall k :: k in ks <==> k in m && k !in rest
      decreases rest
    {
      var k :| k in rest;
      rest := rest - {k};
      ks := ks + [k];
    }
  }

  /** What the loop knows before pass j, or after the last pass: then it has fallen through. */
  ghost predicate Tracked(c: Caller, conf: RangeConfiguration, overlap: bool, before: World, now: World, existed: bool, ks: seq<nat>, taken: seq<Addr>, seen: seq<Addr>, j: nat, last: Option<Addr>)
    requires conf.range.Some? && Visits(before.At(conf.range.value), ks) && j <= OverlapRetry.DATASTORE_RETRIES
  {
    if j < OverlapRetry.DATASTORE_RETRIES then OnTrack(conf, overlap, before, now, existed, ks, taken, seen, c.who, j)
    else
      && overlap && last.Some? && SamePools(before, now) && now.orips == before.orips && Contended(c, now, last.value)
      && Loop(conf, before.At(conf.range.value), ks, taken, Checked(overlap, before.orips), c.who, Attempts(existed)) == OverlapRetry.FallsThrough(last.value)
  }

  /** The pool at the start. */
  ghost predicate Steady(conf: RangeConfiguration, before: World, ks: seq<nat>) {
    && conf.range.Some?
    && var m := before.At(conf.range.value);
       Visits(m, ks) && UniqueOwners(m) && InFamily(m, NetworkIP(conf.range.value))
  }

  /** How one pass without failed calls goes. */
  ghost predicate Calm(c: Caller, conf: RangeConfiguration, overlap: bool, w: World, w': World, there: bool, seen: seq<Addr>, js: seq<nat>, r: AttemptOutcome, plan: Option<Plan>)
    requires conf.range.Some?
  {
    if there then Decided(c, conf, overlap, w, w', seen, js, r, plan) else r.Again? && SamePools(w, w') && w'.orips == w.orips
  }

  lemma StaysTracked(c: Caller, conf: RangeConfiguration, overlap: bool, before: World, w: World, w': World, existed: bool, ks: seq<nat>, js: seq<nat>,
                     taken: seq<Addr>, seen: seq<Addr>, j: nat, last: Option<Addr>, r: AttemptOutcome, plan: Option<Plan>)
    requires conf.range.Some? && c.who.podRef != "" && j < OverlapRetry.DATASTORE_RETRIES && Visits(before.At(conf.range.value), ks)
    requires Steady(conf, before, ks) && Tracked(c, conf, overlap, before, w, existed, ks, taken, seen, j, last)
    requires Calm(c, conf, overlap, w, w', existed || j > 0, seen, js, r, plan)
    ensures
      var whole := Loop(conf, before.At(conf.range.value), ks, taken, Checked(overlap, before.orips), c.who, Attempts(existed));
      && (r.GivenUp? ==> EndsAs(c, overlap, before, w', conf.range.value, None, whole))
      && (r.Committed? ==> plan.Some?)
      && (r.Committed? && Secured(c, w', overlap, conf.range.value, plan.value.ip) ==>
            EndsAs(c, overlap, before, w', conf.range.value, Some(plan.value.ip), whole))
      && (r.Again? ==> Tracked(c, conf, overlap, before, w', existed, ks, taken, seen, j + 1, None))
      && (r.Conflict? ==> plan.Some? && Tracked(c, conf, overlap, before, w', existed, ks, taken, seen + [plan.value.ip], j + 1, Some(plan.value.ip)))
  {
    hide Loop, Visits, UniqueOwners, InFamily, Planned, Secured, Space, Pow2;
    if existed || j > 0 {
      assert w.At(conf.range.value) == before.At(conf.range.value);
      DecidedIsTurn(c, conf, overlap, w, w', seen, ks, js, r, plan, OverlapRetry.DATASTORE_RETRIES - j);
    }
  }

  lemma StoredInFamily(w: World, range: Prefix)
    requires AllInFamily(w.offsets)
    ensures InFamily(w.At(range), NetworkIP(range))
  {
    hide Space, Pow2;
  }

  /** What a loop starts from: the cluster, whether the pool existed, an order of its offsets, and the
      addresses taken; and whether reservations are checked and its passes followed. */
  datatype Start = Start(before: World, existed: bool, ks: seq<nat>, taken: seq<Addr>, overlap: bool, followed: bool, faults: nat)

  /** The loop is followed, and no call has failed. */
  ghost predicate Undisturbed(server: ApiServer, start: Start)
    reads server`faults
  {
    start.followed && server.faults == start.faults
  }

  ghost predicate ValidStart(conf: RangeConfiguration, start: Start) {
    conf.range.Some? && Visits(start.before.At(conf.range.value), start.ks) && (start.followed ==> Steady(conf, start.before, start.ks))
  }

  ghost function Whole(c: Caller, conf: RangeConfiguration, start: Start): OverlapRetry.RetryOutcome
    requires ValidStart(conf, start)
  {
    Loop(conf, start.before.At(conf.range.value), start.ks, start.taken, Checked(start.overlap, start.before.orips), c.who, Attempts(start.existed))
  }

  ghost predicate Follows(c: Caller, conf: RangeConfiguration, start: Start, now: World, seen: seq<Addr>, j: nat, last: Option<Addr>)
    requires ValidStart(conf, start) && j <= OverlapRetry.DATASTORE_RETRIES
  {
    Tracked(c, conf, start.overlap, start.before, now, start.existed, start.ks, start.taken, seen, j, last)
  }

  /** The loop is done after the attempt, or follows on with the next one. */
  ghost predicate GoesOn(c: Caller, conf: RangeConfiguration, start: Start, now: World, seen: seq<Addr>, j: nat, r: AttemptOutcome, ip: Option<Addr>)
    requires ValidStart(conf, start) && j < OverlapRetry.DATASTORE_RETRIES
  {
    match r
    case GivenUp => EndsAs(c, start.overlap, start.before, now, conf.range.value, None, Whole(c, conf, start))
    case Committed(_) => EndsAs(c, start.overlap, start.before, now, conf.range.value, ip, Whole(c, conf, start))
    case Again => Follows(c, conf, start, now, seen, j + 1, None)
    case Conflict => ip.Some? && Follows(c, conf, start, now, seen + [ip.value], j + 1, ip)
  }

  lemma GoesOnTo(c: Caller, conf: RangeConfiguration, start: Start, now: World, seen: seq<Addr>, j: nat, r: AttemptOutcome, ip: Option<Addr>)
    requires ValidStart(conf, start) && j < OverlapRetry.DATASTORE_RETRIES && GoesOn(c, conf, start, now, seen, j, r, ip)
    ensures r.GivenUp? ==> EndsAs(c, start.overlap, start.before, now, conf.range.value, None, Whole(c, conf, start))
    ensures r.Committed? ==> EndsAs(c, start.overlap, start.before, now, conf.range.value, ip, Whole(c, conf, start))
    ensures r.Again? ==> Follows(c, conf, start, now, seen, j + 1, None)
    ensures r.Conflict? ==> ip.Some? && Follows(c, conf, start, now, seen + [ip.value], j + 1, ip)
  {
    hide EndsAs, Loop, Follows;
  }

  /** An attempt, followed. */
  method FollowedAttempt(server: ApiServer, c: Caller, conf: RangeConfiguration, overlap: bool, seen: seq<Addr>, ghost start: Start, ghost j: nat, ghost last: Option<Addr>)
    returns (r: AttemptOutcome, pool: KubernetesIPPool?, plan: Option<Plan>, failures: nat, ghost added: Added)
    requires server.Valid() && AllInFamily(server.offsets) && conf.range.Some? && c.who.podRef != ""
    requires ValidStart(conf, start) && j < OverlapRetry.DATASTORE_RETRIES && start.overlap == overlap && server.faults >= start.faults
    requires Undisturbed(server, start) ==>
               Follows(c, conf, start, server.View(), seen, j, last) && (conf.range.value in server.pools <==> start.existed || j > 0)
    modifies server
    ensures server.Valid() && AllInFamily(server.offsets) && Grow(old(server.pools), server.pools) && server.faults >= start.faults
    ensures Leaves(server, c, conf, overlap, old(server.View()), seen, r, pool, plan, failures, added) && (pool != null ==> fresh(pool))
    ensures Undisturbed(server, start) ==>
      conf.range.value in server.pools && GoesOn(c, conf, start, server.View(), seen, j, r, if plan.Some? then Some(plan.value.ip) else None)
    ensures server.lasting >= old(server.lasting) && (FewFaults(old(server.faults), old(server.lasting), server.faults, server.lasting) ==> failures == 0)
    ensures server.faults >= old(server.faults)
    ensures server.faults == old(server.faults) ==>
      conf.range.value in server.pools && Answers(conf, old(server.View()), conf.range.value in old(server.pools), seen, c.who, r)
  {
    hide Differs, AllInFamily, Chosen, Recordable, AllowedKey, Decided, Refuses, Tracked, Steady, Calm, EndsAs, Loop, Secured, Contended, Wrote, Undoable,
      UniqueOwners, Visits, InFamily, Encode, Space, Pow2;
    ghost var w, still := server.View(), Undisturbed(server, start);
    ghost var js;
    r, pool, plan, failures, added, js := Attempt(server, c, conf, overlap, seen);
    if server.faults == old(server.faults) && conf.range.value in old(server.pools) {
      DecidedRefuses(c, conf, overlap, w, server.View(), seen, js, r, plan);
    }
    if Undisturbed(server, start) {
      CalmIs(c, conf, overlap, w, server.View(), start.existed || j > 0, seen, js, r, plan);
      StaysTracked(c, conf, overlap, start.before, w, server.View(), start.existed, start.ks, js, start.taken, seen, j, last, r, plan);
    }
  }

  /** What a pass that ends the loop leaves: the address, and the commit record. */
  ghost predicate Result(server: ApiServer, c: Caller, conf: RangeConfiguration, overlap: bool, before: World, taken: seq<Addr>, added: Added, ip: Option<Addr>, commit: Option<Commit>)
    reads server, if commit.Some? && commit.value.pool != null then {commit.value.pool} else {}
  {
    && conf.range.Some? && ip.Some? && Served(c, server.View(), overlap, conf.range.value, ip.value) && Rightful(conf, before, c.who, ip.value)
    && (ip.value in taken ==> OwnsAt(conf, before, c.who, ip.value))
    && (commit.Some? ==> CommitOk(server.pools, c, added, commit.value))
  }

  /** The range had nothing for the pod: it does not parse, or the pod owns nothing in its pool, and whatever
      the configuration allows is stored, taken, or reserved by somebody else. */
  ghost predicate Refused(c: Caller, conf: RangeConfiguration, overlap: bool, before: World, taken: seq<Addr>) {
    || conf.range.None? || !WellFormed(conf.omitRanges)
    || (&& (forall k :: !OwnOffset(before.At(conf.range.value), c.who, k))
        && (forall a: Addr :: Allowed(conf, a) ==>
              || (a.value >= conf.range.value.base && a.value - conf.range.value.base in before.At(conf.range.value))
              || a in taken || (overlap && Contended(c, before, a))))
  }

  /** Everything seen was taken before, or is reserved by somebody else. */
  ghost predicate SeenIs(c: Caller, overlap: bool, before: World, taken: seq<Addr>, seen: seq<Addr>) {
    forall a :: a in seen ==> a in taken || (overlap && Contended(c, before, a))
  }

  lemma SeesTaken(c: Caller, conf: RangeConfiguration, overlap: bool, before: World, taken: seq<Addr>)
    ensures SeenIs(c, overlap, before, taken, taken) && (conf.range.None? ==> Refused(c, conf, overlap, before, taken))
  {
  }

  lemma SeesMore(c: Caller, overlap: bool, before: World, taken: seq<Addr>, seen: seq<Addr>, a: Addr)
    requires SeenIs(c, overlap, before, taken, seen) && overlap && Contended(c, before, a)
    ensures SeenIs(c, overlap, before, taken, seen + [a])
  {
  }

  lemma RefusesIsRefused(c: Caller, conf: RangeConfiguration, overlap: bool, before: World, w: World, taken: seq<Addr>, seen: seq<Addr>)
    requires conf.range.Some? && Differs(c, before, w, NOTHING) && Refuses(conf, w.At(conf.range.value), seen, c.who)
    requires SeenIs(c, overlap, before, taken, seen)
    ensures Refused(c, conf, overlap, before, taken)
  {
    hide Space, Pow2, Excluded, PickAllowed, Bounds, ReservationsDiffer, Contended;
    var id, m, m' := conf.range.value, before.At(conf.range.value), w.At(conf.range.value);
    if WellFormed(conf.omitRanges) {
      forall k: nat ensures (k in m <==> k in m') && !OwnOffset(m, c.who, k) {
        var pool: PoolId := id;
        assert EntryDiffers(c, before.At(pool), w.At(pool), (pool, k) in NOTHING.keys, k);
        assert !OwnOffset(m', c.who, k);
      }
      forall a: Addr | Allowed(conf, a)
        ensures (a.value >= id.base && a.value - id.base in m) || a in taken || (overlap && Contended(c, before, a))
      {
        AllowedIsAbove(conf, a);
        var k: nat := a.value - id.base;
        assert a == RawAddr(NetworkIP(id).family, NetworkIP(id).value + k) && !OwnOffset(m', c.who, k);
        assert PickAllowed(conf.pickAddresses, a);
        assert !EligibleOffset(conf, NetworkIP(id), m', seen, k);
      }
    }
  }

  lemma AllowedIsAbove(conf: RangeConfiguration, a: Addr)
    requires conf.range.Some? && Allowed(conf, a)
    ensures a.family == conf.range.value.family && conf.range.value.base <= a.value
  {
  }

  /** What the passes so far have kept: the cluster differs from the start by what they added, all of it
      allowed and none of it taken, and they have seen what was taken and what others have reserved. */
  ghost predicate Kept(c: Caller, conf: RangeConfiguration, start: Start, now: World, added: Added, seen: seq<Addr>) {
    && Differs(c, start.before, now, added) && KeysAllowed(conf, added.keys) && KeysUntaken(added.keys, start.taken)
    && start.taken <= seen && SeenIs(c, start.overlap, start.before, start.taken, seen)
  }

  lemma KeptAtFirst(c: Caller, conf: RangeConfiguration, start: Start)
    ensures Kept(c, conf, start, start.before, NOTHING, start.taken)
    ensures conf.range.None? ==> Refused(c, conf, start.overlap, start.before, start.taken)
  {
    hide Differs, Refused;
    SameIsRestored(c, start.before);
    NoKeysAllowed(conf, start.taken);
    SeesTaken(c, conf, start.overlap, start.before, start.taken);
  }

  lemma KeptOn(c: Caller, conf: RangeConfiguration, start: Start, w: World, now: World, earlier: Added, step: Added, seen: seq<Addr>)
    requires Kept(c, conf, start, w, earlier, seen) && Differs(c, w, now, step) && KeysAllowed(conf, step.keys) && KeysUntaken(step.keys, seen)
    ensures Kept(c, conf, start, now, Both(earlier, step), seen)
    ensures forall a :: Contended(c, now, a) && start.overlap ==> Kept(c, conf, start, now, Both(earlier, step), seen + [a])
  {
    hide Differs, KeysAllowed, KeysUntaken, SeenIs, Contended;
    Compose(c, start.before, w, now, earlier, step);
    AllKeysAllowed(conf, earlier.keys, step.keys);
    AllKeysUntaken(earlier.keys, step.keys, start.taken, seen);
    forall a | Contended(c, now, a) && start.overlap ensures SeenIs(c, start.overlap, start.before, start.taken, seen + [a]) {
      StillContended(c, start.before, now, Both(earlier, step), a);
      SeesMore(c, start.overlap, start.before, start.taken, seen, a);
    }
  }

  /** An address chosen in a pass. */
  lemma KeptChooses(c: Caller, conf: RangeConfiguration, start: Start, w: World, earlier: Added, seen: seq<Addr>, ip: Addr)
    requires conf.range.Some? && Kept(c, conf, start, w, earlier, seen) && Chosen(conf, w.At(conf.range.value), seen, c.who, ip)
    ensures Rightful(conf, start.before, c.who, ip) && (ip in start.taken ==> OwnsAt(conf, start.before, c.who, ip))
  {
    hide Differs, KeysAllowed, KeysUntaken, SeenIs, Chosen, Rightful, OwnsAt;
    ChosenIsRightful(c, start.before, w, earlier, conf, seen, ip);
    ChosenIsSpaced(c, start.before, w, earlier, conf, start.taken, seen, ip);
  }

  lemma KeptRefuses(c: Caller, conf: RangeConfiguration, start: Start, w: World, seen: seq<Addr>)
    requires conf.range.Some? && Kept(c, conf, start, w, NOTHING, seen) && Refuses(conf, w.At(conf.range.value), seen, c.who)
    ensures Refused(c, conf, start.overlap, start.before, start.taken)
  {
    hide Differs, KeysAllowed, KeysUntaken, SeenIs, Refuses, Refused;
    RefusesIsRefused(c, conf, start.overlap, start.before, w, start.taken, seen);
  }

  lemma KeptSeen(c: Caller, conf: RangeConfiguration, start: Start, now: World, added: Added, seen: seq<Addr>)
    requires Kept(c, conf, start, now, added, seen)
    ensures Differs(c, start.before, now, added) && KeysAllowed(conf, added.keys)
    ensures start.taken <= seen && SeenIs(c, start.overlap, start.before, start.taken, seen)
  {
    hide Differs, KeysAllowed, KeysUntaken, SeenIs;
  }

  /** One pass of the loop, with what the passes so far have added. */
  method Pass(server: ApiServer, c: Caller, conf: RangeConfiguration, overlap: bool, seen: seq<Addr>, ghost start: Start, ghost j: nat, ghost last: Option<Addr>, ghost earlier: Added)
    returns (r: AttemptOutcome, ip: Option<Addr>, commit: Option<Commit>, failures: nat, ghost added: Added)
    requires server.Valid() && AllInFamily(server.offsets) && conf.range.Some? && c.who.podRef != ""
    requires ValidStart(conf, start) && j < OverlapRetry.DATASTORE_RETRIES && start.overlap == overlap && server.faults >= start.faults
    requires Undisturbed(server, start) ==>
               Follows(c, conf, start, server.View(), seen, j, last) && (conf.range.value in server.pools <==> start.existed || j > 0)
    requires Kept(c, conf, start, server.View(), earlier, seen)
    modifies server
    ensures server.Valid() && AllInFamily(server.offsets) && Grow(old(server.pools), server.pools) && server.faults >= old(server.faults)
    ensures Kept(c, conf, start, server.View(), added, if r.Conflict? && ip.Some? then seen + [ip.value] else seen)
    ensures r.Committed? || r.Conflict? ==> Result(server, c, conf, overlap, start.before, start.taken, added, ip, commit)
    ensures (r.Committed? || r.Conflict?) && commit.Some? && commit.value.pool != null ==> fresh(commit.value.pool)
    ensures r.Conflict? ==> ip.Some? && AddedBy(c, commit) == NOTHING
    ensures earlier == NOTHING && failures == 0 ==> added == if r.Committed? then AddedBy(c, commit) else NOTHING
    ensures server.lasting >= old(server.lasting) && (FewFaults(old(server.faults), old(server.lasting), server.faults, server.lasting) ==> failures == 0)
    ensures Undisturbed(server, start) ==> conf.range.value in server.pools && GoesOn(c, conf, start, server.View(), seen, j, r, ip)
    ensures server.faults == old(server.faults) ==>
      && conf.range.value in server.pools && (r.Again? ==> conf.range.value !in old(server.pools))
      && (r.GivenUp? && earlier == NOTHING ==> Refused(c, conf, overlap, start.before, start.taken))
  {
    hide Differs, AllInFamily, Kept, Leaves, Result, Refuses, Refused, ValidStart, GoesOn, Follows, AddedBy, Grow, Encode, Space, Pow2;
    ip, commit := None, None;
    ghost var w := server.View();
    var pool, plan;
    ghost var step;
    r, pool, plan, failures, step := FollowedAttempt(server, c, conf, overlap, seen, start, j, last);
    LeavesFacts(server, c, conf, overlap, w, seen, r, pool, plan, failures, step);
    KeptOn(c, conf, start, w, server.View(), earlier, step, seen);
    added := Both(earlier, step);
    if r.GivenUp? && server.faults == old(server.faults) && earlier == NOTHING { KeptRefuses(c, conf, start, w, seen); }
    if r.Committed? || r.Conflict? {
      ip := Some(plan.value.ip);
      commit := CommitOf(pool, plan.value, r.Committed? && r.reserved);
      RecordIs(server, c, conf, start, w, seen, r, pool, plan, failures, earlier, step);
    } else if Undisturbed(server, start) {
      GoesOnAnyway(c, conf, start, server.View(), seen, j, r, if plan.Some? then Some(plan.value.ip) else None);
    }
  }

  lemma LeavesFacts(server: ApiServer, c: Caller, conf: RangeConfiguration, overlap: bool, before: World, taken: seq<Addr>,
                    r: AttemptOutcome, pool: KubernetesIPPool?, plan: Option<Plan>, failures: nat, added: Added)
    requires conf.range.Some? && Leaves(server, c, conf, overlap, before, taken, r, pool, plan, failures, added)
    ensures Differs(c, before, server.View(), added) && KeysAllowed(conf, added.keys) && KeysUntaken(added.keys, taken)
    ensures r.Committed? || r.Conflict? ==> pool != null && plan.Some?
    ensures r.Conflict? ==> overlap && Contended(c, server.View(), plan.value.ip)
    ensures !r.Committed? && failures == 0 ==> added == NOTHING
  {
    hide Differs, KeysAllowed, KeysUntaken, Chosen, Recordable, Secured, Contended, Wrote, Space, Pow2;
  }

  /** The result of a pass with an address, and its commit record. */
  lemma RecordIs(server: ApiServer, c: Caller, conf: RangeConfiguration, start: Start, w: World, seen: seq<Addr>,
                 r: AttemptOutcome, pool: KubernetesIPPool, plan: Option<Plan>, failures: nat, earlier: Added, step: Added)
    requires conf.range.Some? && (r.Committed? || r.Conflict?) && Kept(c, conf, start, w, earlier, seen)
    requires Leaves(server, c, conf, start.overlap, w, seen, r, pool, plan, failures, step) && plan.Some?
    ensures
      var commit := CommitOf(pool, plan.value, r.Committed? && r.reserved);
      && Result(server, c, conf, start.overlap, start.before, start.taken, Both(earlier, step), Some(plan.value.ip), commit)
      && AddedBy(c, commit) == if r.Committed? then step else NOTHING
  {
    hide Differs, Kept, Chosen, Rightful, OwnsAt, KeysAllowed, KeysUntaken, Secured, Contended, Wrote, Undoable, CommitOk, KeysOf, AddrsOf, Encode, Space, Pow2;
    var added, reserved := Both(earlier, step), r.Committed? && r.reserved;
    KeptChooses(c, conf, start, w, earlier, seen, plan.value.ip);
    if plan.value.created { MoreKeysUndoable(server.pools, c, step.keys, added.keys, pool, plan.value.ip); }
    CommitFits(server.pools, c, added, pool, plan.value, reserved);
  }

  /** Without an address it does not matter which one was planned. */
  lemma GoesOnAnyway(c: Caller, conf: RangeConfiguration, start: Start, now: World, seen: seq<Addr>, j: nat, r: AttemptOutcome, ip: Option<Addr>)
    requires ValidStart(conf, start) && j < OverlapRetry.DATASTORE_RETRIES && GoesOn(c, conf, start, now, seen, j, r, ip) && (r.GivenUp? || r.Again?)
    ensures GoesOn(c, conf, start, now, seen, j, r, None)
  {
  }

  /** The loop before pass j: nothing is added unless a rollback has failed, and a conflict has left its result. */
  ghost predicate Going(server: ApiServer, c: Caller, conf: RangeConfiguration, start: Start, j: nat, conflict: bool,
                        ip: Option<Addr>, commit: Option<Commit>, seen: seq<Addr>, failures: nat, added: Added)
    reads server, if commit.Some? && commit.value.pool != null then {commit.value.pool} else {}
  {
    && conf.range.Some? && ValidStart(conf, start) && j <= OverlapRetry.DATASTORE_RETRIES
    && Kept(c, conf, start, server.View(), added, seen) && (failures == 0 ==> added == NOTHING)
    && (conflict ==> Result(server, c, conf, start.overlap, start.before, start.taken, added, ip, commit) && AddedBy(c, commit) == NOTHING)
    && (server.faults == start.faults && j > 0 ==> conf.range.value in server.pools && (j > 1 ==> conflict))
    && (Undisturbed(server, start) ==>
          && Follows(c, conf, start, server.View(), seen, j, if conflict then ip else None)
          && (conf.range.value in server.pools <==> start.existed || j > 0))
  }

  /** The loop has ended. */
  ghost predicate Ended(server: ApiServer, c: Caller, conf: RangeConfiguration, start: Start,
                        ip: Option<Addr>, commit: Option<Commit>, seen: seq<Addr>, failures: nat, added: Added)
    reads server, if commit.Some? && commit.value.pool != null then {commit.value.pool} else {}
  {
    && Kept(c, conf, start, server.View(), added, seen) && (failures == 0 ==> added == AddedBy(c, commit))
    && (ip.Some? ==> Result(server, c, conf, start.overlap, start.before, start.taken, added, ip, commit)) && (commit.Some? ==> ip.Some?)
    && (server.faults == start.faults && ip.None? ==> Refused(c, conf, start.overlap, start.before, start.taken))
    && (Undisturbed(server, start) ==>
          && ValidStart(conf, start) && EndsAs(c, start.overlap, start.before, server.View(), conf.range.value, ip, Whole(c, conf, start)))
  }

  /** One turn of the loop. */
  method Turn(server: ApiServer, c: Caller, conf: RangeConfiguration, overlap: bool, conflict: bool, ip: Option<Addr>, commit: Option<Commit>,
              seen: seq<Addr>, failures: nat, ghost start: Start, ghost j: nat, ghost added: Added)
    returns (ended: bool, conflict': bool, ip': Option<Addr>, commit': Option<Commit>, seen': seq<Addr>, failures': nat, ghost added': Added)
    requires server.Valid() && AllInFamily(server.offsets) && c.who.podRef != "" && start.overlap == overlap && server.faults >= start.faults
    requires j < OverlapRetry.DATASTORE_RETRIES && Going(server, c, conf, start, j, conflict, ip, commit, seen, failures, added)
    requires server.faults == start.faults ==> failures == 0
    modifies server
    ensures server.Valid() && AllInFamily(server.offsets) && Grow(old(server.pools), server.pools)
    ensures server.faults >= old(server.faults) && server.lasting >= old(server.lasting)
    ensures failures' >= failures && (FewFaults(old(server.faults), old(server.lasting), server.faults, server.lasting) ==> failures' == failures)
    ensures ended ==> Ended(server, c, conf, start, ip', commit', seen', failures', added')
    ensures !ended ==> Going(server, c, conf, start, j + 1, conflict', ip', commit', seen', failures', added')
    ensures (ended || conflict') && commit'.Some? && commit'.value.pool != null ==> fresh(commit'.value.pool)
  {
    hide Differs, AllInFamily, Kept, Result, Refused, ValidStart, Follows, GoesOn, Whole, EndsAs, Grow, AddedBy, Encode, Space, Pow2;
    var r, f;
    r, ip', commit', f, added' := Pass(server, c, conf, overlap, seen, start, j, if conflict then ip else None, added);
    failures', seen', conflict' := failures + f, seen, r.Conflict?;
    if Undisturbed(server, start) { GoesOnTo(c, conf, start, server.View(), seen, j, r, ip'); }
    NothingAddedBy(c);
    if r.GivenUp? { return true, false, None, None, seen, failures', added'; }
    if conflict' { seen' := seen + [ip'.value]; }
    ended := r.Committed?;
    if r.Committed? { ResultIp(server, c, conf, overlap, start.before, start.taken, added', ip', commit'); }
  }

  lemma NothingAddedBy(c: Caller)
    ensures AddedBy(c, None) == NOTHING
  {
  }

  /** The loop: an attempt that has to be made again, or that met somebody else's reservation, is followed
      by another one, until the attempts run out. */
  method TryAgain(server: ApiServer, c: Caller, conf: RangeConfiguration, overlap: bool, taken: seq<Addr>, ghost start: Start)
    returns (ip: Option<Addr>, commit: Option<Commit>, seen: seq<Addr>, failures: nat, ghost added: Added)
    requires server.Valid() && AllInFamily(server.offsets) && c.who.podRef != "" && start.overlap == overlap && start.taken == taken
    requires conf.range.Some? && ValidStart(conf, start) && start.before == server.View() && start.faults == server.faults
    requires start.existed == (conf.range.value in server.pools)
    requires Kept(c, conf, start, server.View(), NOTHING, taken) && Follows(c, conf, start, server.View(), taken, 0, None)
    modifies server
    ensures server.Valid() && AllInFamily(server.offsets) && Grow(old(server.pools), server.pools)
    ensures server.faults >= old(server.faults) && server.lasting >= old(server.lasting) && (FewFaults(old(server.faults), old(server.lasting), server.faults, server.lasting) ==> failures == 0)
    ensures Ended(server, c, conf, start, ip, commit, seen, failures, added)
    ensures commit.Some? && commit.value.pool != null ==> fresh(commit.value.pool)
  {
    hide Differs, AllInFamily, Kept, Result, Refused, ValidStart, Follows, Whole, EndsAs, AddedBy, Grow, Encode, Space, Pow2;
    ip, commit, seen, failures, added := None, None, taken, 0, NOTHING;
    GrownIs(server.pools, server.pools);
    NothingAddedBy(c);
    var conflict := false;
    for j := 0 to OverlapRetry.DATASTORE_RETRIES
      invariant server.Valid() && AllInFamily(server.offsets) && Grow(old(server.pools), server.pools)
      invariant server.faults >= start.faults && server.lasting >= old(server.lasting) && (FewFaults(old(server.faults), old(server.lasting), server.faults, server.lasting) ==> failures == 0)
      invariant Going(server, c, conf, start, j, conflict, ip, commit, seen, failures, added)
      invariant conflict && commit.Some? && commit.value.pool != null ==> fresh(commit.value.pool)
    {
      ghost var pools := server.pools;
      var ended;
      ended, conflict, ip, commit, seen, failures, added := Turn(server, c, conf, overlap, conflict, ip, commit, seen, failures, start, j, added);
      GrowTwice(old(server.pools), pools, server.pools);
      if ended { return; }
    }
    if Undisturbed(server, start) { FellThrough(c, conf, start, server.View(), seen, if conflict then ip else None); }
    if conflict {
      ResultIp(server, c, conf, overlap, start.before, start.taken, added, ip, commit);
    } else {
      ip, commit := None, None;
    }
  }

  /** The retry loop of one range. A failure without failed rollback writes leaves nothing behind. A
      success means that the address is secured, or that the last attempt still met somebody else's
      reservation. An address the pod did not own is one the configuration allows. When no call fails the
      loop ends as it would over a pool and reservations that stand still. */
  method AllocateRange(server: ApiServer, c: Caller, conf: RangeConfiguration, overlap: bool, taken: seq<Addr>)
    returns (ip: Option<Addr>, commit: Option<Commit>, seen: seq<Addr>, failures: nat, ghost added: Added, ghost ks: seq<nat>)
    requires server.Valid() && AllInFamily(server.offsets) && c.who.podRef != ""
    modifies server
    ensures server.Valid() && AllInFamily(server.offsets) && Grow(old(server.pools), server.pools)
    ensures taken <= seen
    ensures Differs(c, old(server.View()), server.View(), added) && KeysAllowed(conf, added.keys)
    ensures ip.Some? ==> Result(server, c, conf, overlap, old(server.View()), taken, added, ip, commit)
    ensures commit.Some? ==> ip.Some? && (commit.value.pool != null ==> fresh(commit.value.pool))
    ensures failures == 0 ==> added == AddedBy(c, commit)
    ensures
      conf.range.Some? && server.faults == old(server.faults) && UniqueOwners(old(server.View()).At(conf.range.value)) ==>
        var m := old(server.View()).At(conf.range.value);
        Visits(m, ks) && EndsAs(c, overlap, old(server.View()), server.View(), conf.range.value, ip,
                                Loop(conf, m, ks, taken, Checked(overlap, old(server.orips)), c.who, Attempts(conf.range.value in old(server.pools))))
    ensures server.lasting >= old(server.lasting) && (FewFaults(old(server.faults), old(server.lasting), server.faults, server.lasting) ==> failures == 0)
    ensures server.faults >= old(server.faults)
    ensures SeenIs(c, overlap, old(server.View()), taken, seen)
    ensures server.faults == old(server.faults) && ip.None? ==> Refused(c, conf, overlap, old(server.View()), taken)
  {
    hide Differs, AllInFamily, Kept, Result, Refused, SeenIs, KeysAllowed, Follows, EndsAs, Loop, Visits, UniqueOwners, AddedBy, Grow, Encode, Space, Pow2, World.At;
    ip, commit, seen, failures, added, ks := None, None, taken, 0, NOTHING, [];
    GrownIs(server.pools, server.pools);
    NothingAddedBy(c);
    if conf.range.Some? { ks := AnyOrder(server.View().At(conf.range.value)); }
    ghost var start := Start(server.View(), conf.range.Some? && conf.range.value in server.pools, ks, taken, overlap,
                             conf.range.Some? && UniqueOwners(server.View().At(conf.range.value)), server.faults);
    KeptAtFirst(c, conf, start);
    if conf.range.Some? {
      StartIsValid(c, conf, start);
      ip, commit, seen, failures, added := TryAgain(server, c, conf, overlap, taken, start);
    }
    KeptSeen(c, conf, start, server.View(), added, seen);
    if ip.Some? { ResultIp(server, c, conf, overlap, start.before, start.taken, added, ip, commit); }
  }

  lemma ResultIp(server: ApiServer, c: Caller, conf: RangeConfiguration, overlap: bool, before: World, taken: seq<Addr>, added: Added, ip: Option<Addr>, commit: Option<Commit>)
    requires Result(server, c, conf, overlap, before, taken, added, ip, commit)
    ensures ip.Some?
  {
  }

  lemma StartIsValid(c: Caller, conf: RangeConfiguration, start: Start)
    requires conf.range.Some? && Visits(start.before.At(conf.range.value), start.ks) && AllInFamily(start.before.offsets)
    requires start.followed ==> UniqueOwners(start.before.At(conf.range.value))
    ensures ValidStart(conf, start) && Follows(c, conf, start, start.before, start.taken, 0, None)
  {
    hide Visits, UniqueOwners, Loop, InFamily, AllInFamily;
    StoredInFamily(start.before, conf.range.value);
  }

  lemma FellThrough(c: Caller, conf: RangeConfiguration, start: Start, now: World, seen: seq<Addr>, last: Option<Addr>)
    requires ValidStart(conf, start) && Follows(c, conf, start, now, seen, OverlapRetry.DATASTORE_RETRIES, last)
    ensures last.Some? && EndsAs(c, start.overlap, start.before, now, conf.range.value, last, Whole(c, conf, start))
  {
    hide Visits, UniqueOwners, Loop, InFamily;
  }

  lemma CalmIs(c: Caller, conf: RangeConfiguration, overlap: bool, w: World, w': World, there: bool, seen: seq<Addr>, js: seq<nat>, r: AttemptOutcome, plan: Option<Plan>)
    requires conf.range.Some?
    requires there ==> Decided(c, conf, overlap, w, w', seen, js, r, plan)
    requires !there ==> r.Again? && SamePools(w, w') && w'.orips == w.orips
    ensures Calm(c, conf, overlap, w, w', there, seen, js, r, plan)
  {
  }

  // ---------------------------------------------------------------------
  // All ranges
  // ---------------------------------------------------------------------

  lemma LedgerStays(pools: map<PoolId, Stored>, pools': map<PoolId, Stored>, c: Caller, added: Added, added': Added, committed: seq<Commit>)
    requires Ledger(pools, c, added, committed) && Grow(pools, pools')
    requires added.keys <= added'.keys && added.addrs <= added'.addrs
    ensures Ledger(pools', c, added', committed)
    ensures AllKeys(c, committed) <= added.keys && AllAddrs(committed) <= added.addrs
  {
  }

  lemma MoreAddedIsOk(pools: map<PoolId, Stored>, c: Caller, step: Added, added: Added, commit: Commit)
    requires CommitOk(pools, c, step, commit) && step.keys <= added.keys && step.addrs <= added.addrs
    ensures CommitOk(pools, c, added, commit) && KeysOf(c, commit) <= step.keys && AddrsOf(commit) <= step.addrs
  {
  }

  lemma LedgerAppend(pools: map<PoolId, Stored>, c: Caller, added: Added, committed: seq<Commit>, commit: Commit)
    requires Ledger(pools, c, added, committed) && CommitOk(pools, c, added, commit)
    requires commit.pool != null ==> commit.pool !in PoolsOf(committed)
    requires KeysOf(c, commit) !! AllKeys(c, committed) && AddrsOf(commit) !! AllAddrs(committed)
    ensures Ledger(pools, c, added, committed + [commit])
    ensures AllKeys(c, committed + [commit]) == AllKeys(c, committed) + KeysOf(c, commit)
    ensures AllAddrs(committed + [commit]) == AllAddrs(committed) + AddrsOf(commit)
    ensures PoolsOf(committed + [commit]) == PoolsOf(committed) + if commit.pool == null then {} else {commit.pool}
  {
    hide CommitOk, KeysOf, Encode, Space, Pow2;
    var all := committed + [commit];
    assert all[|committed|] == commit && forall i :: 0 <= i < |committed| ==> all[i] == committed[i];
    assert forall i :: 0 <= i < |committed| ==> KeysOf(c, committed[i]) <= AllKeys(c, committed);
    assert forall i :: 0 <= i < |committed| ==> AddrsOf(committed[i]) <= AllAddrs(committed);
  }

  /** What the first i ranges have given: each is served and entitled, an address is repeated only where it
      may be, and whatever is taken was given or is reserved by somebody else. */
  ghost predicate SoFar(c: Caller, ranges: seq<RangeConfiguration>, overlap: bool, before: World, now: World, ips: seq<Addr>, taken: seq<Addr>, added: Added) {
    && |ips| <= |ranges| && Differs(c, before, now, added) && AllowedSoFar(ranges, |ips|, added.keys)
    && (forall j :: 0 <= j < |ips| ==> ranges[j].range.Some? && Served(c, now, overlap, ranges[j].range.value, ips[j]))
    && (forall j :: 0 <= j < |ips| ==> Entitled(ranges, j, before, c.who, ips[j]))
    && (overlap ==> forall j :: 0 <= j < |ips| ==> ips[j] in taken)
    && (overlap ==> forall l, j :: 0 <= l < j < |ips| && ips[l] == ips[j] ==> MayRepeat(ranges, j, before, c.who, ips[j]))
    && SeenIs(c, overlap, before, ips, taken)
  }

  lemma NothingSoFar(c: Caller, ranges: seq<RangeConfiguration>, overlap: bool, before: World)
    ensures SoFar(c, ranges, overlap, before, before, [], [], NOTHING)
  {
    hide Differs;
    SameIsRestored(c, before);
    AllowedAtFirst(ranges);
  }

  /** A range is served. */
  lemma SoFarOn(server: ApiServer, c: Caller, ranges: seq<RangeConfiguration>, overlap: bool, before: World, w: World, ips: seq<Addr>, taken: seq<Addr>,
                seen: seq<Addr>, earlier: Added, step: Added, ip: Option<Addr>, commit: Option<Commit>)
    requires SoFar(c, ranges, overlap, before, w, ips, taken, earlier) && |ips| < |ranges|
    requires Differs(c, w, server.View(), step) && KeysAllowed(ranges[|ips|], step.keys) && taken <= seen && SeenIs(c, overlap, w, taken, seen)
    requires Result(server, c, ranges[|ips|], overlap, w, taken, step, ip, commit)
    ensures ip.Some?
    ensures SoFar(c, ranges, overlap, before, server.View(), ips + [ip.value], if overlap then seen + [ip.value] else seen, Both(earlier, step))
  {
    hide Differs, AllowedSoFar, KeysAllowed, Entitled, Rightful, OwnsAt, MayRepeat, Secured, Contended, CommitOk, SeenIs, Space, Pow2;
    var i, now, ips' := |ips|, server.View(), ips + [ip.value];
    var taken' := if overlap then seen + [ip.value] else seen;
    Compose(c, before, w, now, earlier, step);
    AllowedNext(ranges, i, earlier.keys, step.keys);
    RightfulIsEntitled(c, before, w, earlier, ranges, i, ip.value);
    if ip.value in taken { OwnedMayRepeat(c, before, w, earlier, ranges, i, ip.value); }
    forall j | 0 <= j < |ips'| ensures ranges[j].range.Some? && Served(c, now, overlap, ranges[j].range.value, ips'[j]) {
      if j < i { StaysSecured(c, w, now, step, overlap, ranges[j].range.value, ips[j]); }
    }
    SeenSoFar(c, overlap, before, w, earlier, ips, taken, seen, ip.value);
    assert forall a :: a in taken ==> a in taken';
  }

  lemma SeenSoFar(c: Caller, overlap: bool, before: World, w: World, earlier: Added, ips: seq<Addr>, taken: seq<Addr>, seen: seq<Addr>, ip: Addr)
    requires Differs(c, before, w, earlier) && SeenIs(c, overlap, before, ips, taken) && SeenIs(c, overlap, w, taken, seen)
    ensures SeenIs(c, overlap, before, ips + [ip], if overlap then seen + [ip] else seen)
  {
    hide Differs, Contended;
    forall a | a in (if overlap then seen + [ip] else seen) ensures a in ips + [ip] || (overlap && Contended(c, before, a)) {
      if a in seen && a !in taken { StillContended(c, before, w, earlier, a); }
    }
  }

  /** The addresses a range has left for a new pod. */
  ghost function OpenIn(c: Caller, conf: RangeConfiguration, overlap: bool, w: World): set<Addr>
    requires conf.range.Some?
  {
    var p := conf.range.value;
    set v | p.base <= v < p.base + p.Size() && IsOpen(c, conf, overlap, w, v) :: RawAddr(p.family, v)
  }

  ghost predicate IsOpen(c: Caller, conf: RangeConfiguration, overlap: bool, w: World, v: nat)
    requires conf.range.Some? && conf.range.value.base <= v < conf.range.value.base + conf.range.value.Size()
  {
    var p := conf.range.value;
    && Allowed(conf, RawAddr(p.family, v)) && v - p.base !in w.At(p) && !(overlap && Contended(c, w, RawAddr(p.family, v)))
  }

  /** Range i can refuse the pod: it does not parse, or the pod owns nothing in its pool and no more
      addresses are left than there are ranges before it. */
  ghost predicate MayRefuse(c: Caller, ranges: seq<RangeConfiguration>, overlap: bool, before: World, i: nat)
    requires i < |ranges|
  {
    || ranges[i].range.None? || !WellFormed(ranges[i].omitRanges)
    || ((forall k :: !OwnOffset(before.At(ranges[i].range.value), c.who, k)) && |OpenIn(c, ranges[i], overlap, before)| <= i)
  }

  lemma OpenWasGiven(c: Caller, conf: RangeConfiguration, overlap: bool, before: World, w: World, ips: seq<Addr>, taken: seq<Addr>, added: Added, a: Addr)
    requires conf.range.Some? && WellFormed(conf.omitRanges) && Differs(c, before, w, added) && SeenIs(c, overlap, before, ips, taken)
    requires Refused(c, conf, overlap, w, taken) && a in OpenIn(c, conf, overlap, before)
    ensures a in ips
  {
    hide PoolsDiffer, ReservationsDiffer, Allowed, Contended, Space, Pow2;
    var id: PoolId, k := conf.range.value, a.value - conf.range.value.base;
    assert EntryDiffers(c, before.At(id), w.At(id), (id, k) in added.keys, k) by { PoolEntryDiffers(c, before, w, added, id, k); }
    assert !OwnOffset(w.At(id), c.who, k);
    if overlap && Contended(c, w, a) { StillContended(c, before, w, added, a); }
  }

  lemma PoolEntryDiffers(c: Caller, before: World, w: World, added: Added, id: PoolId, k: nat)
    requires Differs(c, before, w, added)
    ensures EntryDiffers(c, before.At(id), w.At(id), (id, k) in added.keys, k)
  {
  }

  /** A range that refuses is one that can. */
  lemma SoFarRefused(c: Caller, ranges: seq<RangeConfiguration>, overlap: bool, before: World, w: World, ips: seq<Addr>, taken: seq<Addr>, added: Added)
    requires SoFar(c, ranges, overlap, before, w, ips, taken, added) && |ips| < |ranges| && Refused(c, ranges[|ips|], overlap, w, taken)
    ensures MayRefuse(c, ranges, overlap, before, |ips|)
  {
    hide Differs, AllowedSoFar, Entitled, MayRepeat, Served, SeenIs, OpenIn, OwnedBy, Space, Pow2;
    var conf := ranges[|ips|];
    if conf.range.Some? && WellFormed(conf.omitRanges) {
      forall k: nat ensures !OwnOffset(before.At(conf.range.value), c.who, k) {
        OwnedStays(c, before, w, added, conf.range.value, k);
        assert !OwnOffset(w.At(conf.range.value), c.who, k);
      }
      forall a | a in OpenIn(c, conf, overlap, before) ensures a in ips { OpenWasGiven(c, conf, overlap, before, w, ips, taken, added, a); }
      ElementsAtMost(ips);
      SubsetSize(OpenIn(c, conf, overlap, before), set a | a in ips);
    }
  }

  lemma OwnedStays(c: Caller, before: World, w: World, added: Added, id: PoolId, k: nat)
    requires Differs(c, before, w, added)
    ensures OwnOffset(before.At(id), c.who, k) ==> OwnOffset(w.At(id), c.who, k)
  {
    PoolEntryDiffers(c, before, w, added, id, k);
  }

  lemma {:induction false} ElementsAtMost(s: seq<Addr>)
    ensures |set a | a in s| <= |s|
  {
    if s != [] {
      var init, last := s[..|s| - 1], s[|s| - 1];
      ElementsAtMost(init);
      assert (set a | a in s) == (set a | a in init) + {last};
    }
  }

  /** IPManagementKubernetesUpdate in Allocate mode, with nobody else writing. Whatever happens, the
      cluster differs from before only by what this ADD added. If the ADD fails and too few calls failed
      to defeat a rollback, everything it created is gone again. If it succeeds, every range is served,
      and with overlap checking no address is given twice. If no call fails, it fails only if one of its
      ranges can refuse the pod. */
  method Allocate(server: ApiServer, c: Caller, ranges: seq<RangeConfiguration>, overlap: bool)
    returns (newips: Option<seq<Addr>>, failures: nat, ghost added: Added)
    requires server.Valid() && AllInFamily(server.offsets) && c.who.podRef != ""
    modifies server
    ensures server.Valid() && AllInFamily(server.offsets)
    ensures Differs(c, old(server.View()), server.View(), added)
    ensures newips.None? && failures == 0 ==> Restored(c, old(server.View()), server.View())
    ensures newips.None? && FewFaults(old(server.faults), old(server.lasting), server.faults, server.lasting) ==> Restored(c, old(server.View()), server.View())
    ensures newips.None? && server.faults == old(server.faults) ==>
      exists i :: 0 <= i < |ranges| && MayRefuse(c, ranges, overlap, old(server.View()), i)
    ensures newips.Some? ==> |newips.value| == |ranges|
    ensures newips.Some? ==> forall i :: 0 <= i < |ranges| ==>
      ranges[i].range.Some? && Served(c, server.View(), overlap, ranges[i].range.value, newips.value[i])
    ensures newips.Some? ==> forall i :: 0 <= i < |ranges| ==> Entitled(ranges, i, old(server.View()), c.who, newips.value[i])
    ensures newips.Some? && overlap ==> forall i, j :: 0 <= i < j < |ranges| && newips.value[i] == newips.value[j] ==>
      MayRepeat(ranges, j, old(server.View()), c.who, newips.value[j])
  {
    hide Differs, AllInFamily, SoFar, Served, Entitled, MayRepeat, MayRefuse, Refused, Result, KeysAllowed, SeenIs, EndsAs, Loop, Visits, UniqueOwners,
      CommitOk, KeysOf, AllKeys, AllAddrs, Ledger, Grow, Encode, Space, Pow2, World.At;
    failures, added := 0, NOTHING;
    ghost var w0 := server.View();
    var ips: seq<Addr>, taken: seq<Addr>, committed: seq<Commit> := [], [], [];
    EmptyLedger(server.pools, c);
    NothingSoFar(c, ranges, overlap, w0);
    for i := 0 to |ranges|
      invariant server.Valid() && AllInFamily(server.offsets) && |ips| == i
      invariant SoFar(c, ranges, overlap, w0, server.View(), ips, taken, added)
      invariant Ledger(server.pools, c, added, committed) && fresh(PoolsOf(committed))
      invariant failures == 0 ==> added == Added(AllKeys(c, committed), AllAddrs(committed))
      invariant server.faults >= old(server.faults) && server.lasting >= old(server.lasting) && (FewFaults(old(server.faults), old(server.lasting), server.faults, server.lasting) ==> failures == 0)
    {
      ghost var w, pools, earlier, before := server.View(), server.pools, added, taken;
      var ip, commit, f;
      ghost var step;
      ghost var order;
      ip, commit, taken, f, step, order := AllocateRange(server, c, ranges[i], overlap, taken);
      failures := failures + f;
      SoFarDiffers(c, ranges, overlap, w0, w, server.View(), ips, before, earlier, step);
      added := Both(earlier, step);
      LedgerStays(pools, server.pools, c, earlier, added, committed);
      if ip.None? {
        if server.faults == old(server.faults) { SoFarRefused(c, ranges, overlap, w0, w, ips, before, earlier); }
        f, added := RollbackCommitted(server, c, committed, w0, added);
        return None, failures + f, added;
      }
      SoFarOn(server, c, ranges, overlap, w0, w, ips, before, taken, earlier, step, ip, commit);
      if commit.Some? {
        ResultCommit(server, c, ranges[i], overlap, w, before, step, ip, commit);
        MoreAddedIsOk(server.pools, c, step, added, commit.value);
        LedgerAppend(server.pools, c, added, committed, commit.value);
        committed := committed + [commit.value];
      }
      if overlap {
        taken := taken + [ip.value];
      }
      ips := ips + [ip.value];
    }
    SoFarAll(c, ranges, overlap, w0, server.View(), ips, taken, added);
    return Some(ips), failures, added;
  }

  lemma SoFarDiffers(c: Caller, ranges: seq<RangeConfiguration>, overlap: bool, before: World, w: World, now: World, ips: seq<Addr>, taken: seq<Addr>,
                     earlier: Added, step: Added)
    requires SoFar(c, ranges, overlap, before, w, ips, taken, earlier) && Differs(c, w, now, step)
    ensures Differs(c, before, now, Both(earlier, step))
    ensures earlier.keys !! step.keys && earlier.addrs !! step.addrs
  {
    hide Differs, AllowedSoFar, Entitled, MayRepeat, Served, SeenIs;
    Compose(c, before, w, now, earlier, step);
  }

  lemma SoFarAll(c: Caller, ranges: seq<RangeConfiguration>, overlap: bool, before: World, now: World, ips: seq<Addr>, taken: seq<Addr>, added: Added)
    requires SoFar(c, ranges, overlap, before, now, ips, taken, added) && |ips| == |ranges|
    ensures Differs(c, before, now, added)
    ensures forall i :: 0 <= i < |ranges| ==> ranges[i].range.Some? && Served(c, now, overlap, ranges[i].range.value, ips[i])
    ensures forall i :: 0 <= i < |ranges| ==> Entitled(ranges, i, before, c.who, ips[i])
    ensures overlap ==> forall i, j :: 0 <= i < j < |ranges| && ips[i] == ips[j] ==> MayRepeat(ranges, j, before, c.who, ips[j])
  {
    hide Differs, AllowedSoFar, Entitled, MayRepeat, Served, SeenIs;
  }

  lemma ResultCommit(server: ApiServer, c: Caller, conf: RangeConfiguration, overlap: bool, before: World, taken: seq<Addr>, added: Added, ip: Option<Addr>, commit: Option<Commit>)
    requires Result(server, c, conf, overlap, before, taken, added, ip, commit) && commit.Some?
    ensures CommitOk(server.pools, c, added, commit.value)
  {
  }

  lemma EmptyLedger(pools: map<PoolId, Stored>, c: Caller)
    ensures Ledger(pools, c, NOTHING, []) && AllKeys(c, []) == {} && AllAddrs([]) == {} && PoolsOf([]) == {}
  {
  }

  /** Every key is one that one of the first i ranges allows. */
  ghost predicate AllowedSoFar(ranges: seq<RangeConfiguration>, i: nat, keys: set<(PoolId, nat)>)
    requires i <= |ranges|
  {
    forall key :: key in keys ==> exists j :: 0 <= j < i && AllowedKey(ranges[j], key)
  }

  /** The address of range i was the pod's already, or is one that range i, or an earlier range with the
      same pool, allows. */
  ghost predicate Entitled(ranges: seq<RangeConfiguration>, i: nat, before: World, who: Requester, ip: Addr)
    requires i < |ranges|
  {
    && ranges[i].range.Some? && ip.family == ranges[i].range.value.family && ranges[i].range.value.base <= ip.value
    && var k := ip.value - ranges[i].range.value.base;
       || OwnOffset(before.At(ranges[i].range.value), who, k)
       || exists j :: 0 <= j <= i && AllowedKey(ranges[j], (ranges[i].range.value, k))
  }

  /** Range j may return an address of an earlier range only if the pod already owned it in the pool of
      range j, or if an earlier range has the same pool. */
  ghost predicate MayRepeat(ranges: seq<RangeConfiguration>, j: nat, before: World, who: Requester, ip: Addr)
    requires j < |ranges|
  {
    OwnsAt(ranges[j], before, who, ip) || exists l :: 0 <= l < j && ranges[l].range == ranges[j].range
  }

  lemma OwnedMayRepeat(c: Caller, w0: World, w: World, added: Added, ranges: seq<RangeConfiguration>, j: nat, ip: Addr)
    requires j < |ranges| && Differs(c, w0, w, added) && AllowedSoFar(ranges, j, added.keys) && OwnsAt(ranges[j], w, c.who, ip)
    ensures MayRepeat(ranges, j, w0, c.who, ip)
  {
    hide Differs, Allowed, Space, Pow2;
    OwnedOrAdded(c, w0, w, added, ranges[j].range.value, ip.value - ranges[j].range.value.base);
  }

  lemma AllowedAtFirst(ranges: seq<RangeConfiguration>)
    ensures AllowedSoFar(ranges, 0, {})
  {
  }

  lemma AllowedNext(ranges: seq<RangeConfiguration>, i: nat, keys: set<(PoolId, nat)>, more: set<(PoolId, nat)>)
    requires i < |ranges| && AllowedSoFar(ranges, i, keys) && KeysAllowed(ranges[i], more)
    ensures AllowedSoFar(ranges, i + 1, keys + more)
  {
    hide AllowedKey;
  }

  lemma RightfulIsEntitled(c: Caller, w0: World, w: World, added: Added, ranges: seq<RangeConfiguration>, i: nat, ip: Addr)
    requires i < |ranges| && Differs(c, w0, w, added) && AllowedSoFar(ranges, i, added.keys) && Rightful(ranges[i], w, c.who, ip)
    ensures Entitled(ranges, i, w0, c.who, ip)
  {
    hide Differs, Allowed, Space, Pow2;
    var id: PoolId, k := ranges[i].range.value, ip.value - ranges[i].range.value.base;
    assert ip == RawAddr(id.family, id.base + k);
    if OwnOffset(w.At(id), c.who, k) {
      OwnedOrAdded(c, w0, w, added, id, k);
    } else {
      assert AllowedKey(ranges[i], (id, k));
    }
  }
}
