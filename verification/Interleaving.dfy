/** The calls of one process while everybody else acts between them: each call of an ADD attempt and of a
    DEL pass is a step of the protocol over several pools, in whatever state the others have left it. */
module Interleaving {
  import opened Prelude
  import opened Addressing
  import opened Allocation
  import opened Codec
  import opened AddAttempt
  import opened PoolRelease
  import opened OverlapProtocol
  import opened OverlapRuns
  import C = Cluster
  import E = Effects
  import R = Rollback
  import T = Transaction
  import D = Release

  // ---------------------------------------------------------------------
  // What is stored
  // ---------------------------------------------------------------------

  /** Everything that is stored at one moment. */
  datatype Snapshot = Snapshot(pools: map<C.PoolId, C.Stored>, offsets: map<C.PoolId, Offsets>, orips: map<RawAddr, Orip>)

  /** What was stored immediately before and after a call. */
  datatype Event = Event(before: Snapshot, after: Snapshot)

  ghost function PoolOf(version: nat, m: Offsets, id: Prefix): Pool {
    Pool(version, ByAddress(m, NetworkIP(id)))
  }

  ghost predicate PoolShown(stored: map<C.PoolId, C.Stored>, offsets: map<C.PoolId, Offsets>, id: Prefix, pools: map<nat, Pool>, i: nat) {
    id in stored && id in offsets && i in pools && pools[i] == PoolOf(stored[id].version, offsets[id], id)
  }

  /** The state of the protocol shows what is stored: its i-th pool is the pool of the i-th range. */
  ghost predicate Shows(ids: seq<Prefix>, x: Snapshot, s: State) {
    s.orips == x.orips && forall i :: 0 <= i < |ids| ==> PoolShown(x.pools, x.offsets, ids[i], s.pools, i)
  }

  /** Pools stay, versions do not go back, and a pool with the same version has the same content. */
  ghost predicate Grown(x: Snapshot, x': Snapshot) {
    forall id :: id in x.pools && id in x.offsets ==>
      && id in x'.pools && id in x'.offsets && x.pools[id].version <= x'.pools[id].version
      && (x.pools[id].version == x'.pools[id].version ==> x.offsets[id] == x'.offsets[id])
  }

  lemma GrownTwice(x: Snapshot, x': Snapshot, x'': Snapshot)
    requires Grown(x, x') && Grown(x', x'')
    ensures Grown(x, x'')
  {
  }

  /** A landed write of a pool. */
  ghost predicate Lands(ev: Event, id: Prefix, m: Offsets) {
    && id in ev.before.pools && id in ev.before.offsets && id in ev.after.pools
    && ev.after.pools == ev.before.pools[id := ev.after.pools[id]] && ev.after.pools[id].version == ev.before.pools[id].version + 1
    && ev.after.offsets == ev.before.offsets[id := m] && ev.after.orips == ev.before.orips
  }

  lemma SameVersion(x: Snapshot, x': Snapshot, id: Prefix)
    requires Grown(x, x') && id in x.pools && id in x.offsets
    ensures id in x'.pools && id in x'.offsets && (x.pools[id].version == x'.pools[id].version ==> x.offsets[id] == x'.offsets[id])
  {
  }

  lemma SameIsGrown(x: Snapshot)
    ensures Grown(x, x)
  {
  }

  lemma WriteLands(x: Snapshot, x': Snapshot, id: Prefix, m: Offsets)
    requires id in x.pools && id in x.offsets && id in x'.pools && x'.pools[id].version == x.pools[id].version + 1
    requires x'.pools == x.pools[id := x'.pools[id]] && x'.offsets == x.offsets[id := m] && x'.orips == x.orips
    requires R.AllInFamily(x.offsets) && InFamily(m, NetworkIP(id))
    ensures Grown(x, x') && Lands(Event(x, x'), id, m) && R.AllInFamily(x'.offsets)
  {
    hide Space;
  }

  /** Reservations are made for pods, and a pod has a UID. */
  ghost predicate NamedPods(orips: map<RawAddr, Orip>) {
    forall a :: a in orips ==> orips[a].podUID != ""
  }

  // ---------------------------------------------------------------------
  // Calls
  // ---------------------------------------------------------------------

  /** A process and the server it talks to. Ghost state records its calls. */
  class Session {
    const server: C.ApiServer
    ghost var log: seq<Event>

    constructor (server: C.ApiServer)
      ensures this.server == server && log == []
    {
      this.server := server;
      log := [];
    }

    ghost predicate Valid()
      reads server
    {
      server.Valid() && R.AllInFamily(server.offsets) && NamedPods(server.orips)
    }

    ghost function Now(): Snapshot
      reads server
    {
      Snapshot(server.pools, server.offsets, server.orips)
    }

    /** Anybody else writes any pool, and creates and deletes reservations, any number of times. */
    method Interfere()
      requires Valid()
      modifies server
      ensures Valid() && Grown(old(Now()), Now())
    {
      hide Space, Encode;
      var steps: int := *;
      while steps > 0
        invariant Valid() && Grown(old(Now()), Now())
      {
        steps := steps - 1;
        var id: Prefix, ip: RawAddr, o: Orip := *, *, *;
        if id in server.pools {
          Overwrite(id);
        } else if ip in server.orips {
          server.orips := server.orips - {ip};
        } else if o.podUID != "" {
          server.orips := server.orips[ip := o];
        }
      }
    }

    /** One pool gets any content. */
    method Overwrite(id: Prefix)
      requires Valid() && id in server.pools
      modifies server
      ensures Valid() && Grown(old(Now()), Now())
    {
      hide Space, Encode, Decimal, R.AllInFamily, Grown, NamedPods, Lands;
      ghost var x := Now();
      C.EncodeEmpty();
      var content: AllocationMap, entries: int := map[], *;
      ghost var m: Offsets := map[];
      while entries > 0
        modifies {}
        invariant content == Encode(m) && InFamily(m, NetworkIP(id))
      {
        entries := entries - 1;
        var k: nat, a: IPAllocation := *, *;
        if id.base + k < Space(id.family) {
          EncodeUpdate(m, k, a);
          content := content[Decimal(k) := a];
          m := m[k := a];
        }
      }
      server.pools := server.pools[id := C.Stored(server.pools[id].version + 1, content)];
      server.offsets := server.offsets[id := m];
      WriteLands(x, Now(), id, m);
    }

    /** One more call has been made, and it was the last thing that happened. */
    twostate predicate Called()
      reads this, server
    {
      && |log| == |old(log)| + 1 && old(log) <= log
      && log[|old(log)|].after == Now() && Grown(old(Now()), log[|old(log)|].before) && Grown(old(Now()), Now())
    }

    method GetIPPool(range: Prefix) returns (e: Option<C.CallError>, pool: C.KubernetesIPPool?)
      requires Valid() && range in server.pools
      modifies this`log, server
      ensures Valid() && Called() && log[|old(log)|].before == log[|old(log)|].after
      ensures e.None? <==> pool != null
      ensures e.None? ==> fresh(pool) && pool.IsCopyOf(server.pools, server.offsets, range)
    {
      hide Space, Encode;
      Interfere();
      ghost var x := Now();
      e, pool := server.GetExistingIPPool(range);
      log := log + [Event(x, Now())];
    }

    method GetReservation(ip: RawAddr) returns (e: Option<C.CallError>, found: Option<Orip>)
      requires Valid()
      modifies this`log, server
      ensures Valid() && Called() && log[|old(log)|].before == log[|old(log)|].after
      ensures e.None? ==> found == if ip in server.orips then Some(server.orips[ip]) else None
    {
      hide Space, Encode;
      Interfere();
      ghost var x := Now();
      e, found := server.GetReservation(ip);
      log := log + [Event(x, Now())];
    }

    method DeleteReservation(ip: RawAddr, podUID: string) returns (e: Option<C.CallError>)
      requires Valid() && podUID != ""
      modifies this`log, server
      ensures Valid() && Called()
      ensures
        var ev := log[|old(log)|];
        ev.after == if e.None? && ip in ev.before.orips && ev.before.orips[ip].podUID == podUID
                    then ev.before.(orips := ev.before.orips - {ip}) else ev.before
    {
      hide Space, Encode;
      Interfere();
      ghost var x := Now();
      e := server.DeleteReservation(ip, podUID);
      log := log + [Event(x, Now())];
    }

    method CreateReservation(ip: RawAddr, o: Orip) returns (e: Option<C.CallError>)
      requires Valid() && o.podUID != ""
      modifies this`log, server
      ensures Valid() && Called()
      ensures
        var ev := log[|old(log)|];
        && (e.None? ==> ip !in ev.before.orips && ev.after == ev.before.(orips := ev.before.orips[ip := o]))
        && (e.Some? ==> ev.after == ev.before)
    {
      hide Space, Encode;
      Interfere();
      ghost var x := Now();
      e := server.CreateReservation(ip, o);
      log := log + [Event(x, Now())];
    }

    method Update(pool: C.KubernetesIPPool, list: seq<Reservation>) returns (e: Option<C.CallError>)
      requires Valid() && pool.Valid()
      requires OffsetsOf(list, pool.firstIP).Ok? ==> InFamily(OffsetsOf(list, pool.firstIP).value, pool.firstIP)
      modifies this`log, server, pool`content, pool`offsets
      ensures Valid() && Called() && pool.Valid()
      ensures
        var ev := log[|old(log)|];
        && (e.Some? ==> ev.after == ev.before)
        && (e.None? ==>
              && OffsetsOf(list, pool.firstIP).Ok? && pool.offsets == OffsetsOf(list, pool.firstIP).value
              && Lands(ev, pool.range, pool.offsets) && pool.version == ev.before.pools[pool.range].version)
    {
      hide Space, Encode, OffsetsOf, R.AllInFamily, InFamily, Grown, Lands;
      ghost var x0 := Now();
      Interfere();
      ghost var x := Now();
      e := pool.Update(server, list);
      SameIsGrown(x);
      if e.None? { WriteLands(x, Now(), pool.range, pool.offsets); }
      GrownTwice(x0, x, Now());
      log := log + [Event(x, Now())];
    }
  }

  // ---------------------------------------------------------------------
  // Calls as steps
  // ---------------------------------------------------------------------

  ghost predicate OpIs(s: State, u: string, op: Option<Op>) {
    if op.None? then u !in s.ops else u in s.ops && s.ops[u] == op.value
  }

  /** In every state of the protocol that shows what was stored before the call, with the pod at the
      operation `op`, the steps can be taken, and they lead to one that shows what was stored after it,
      with the pod at `op'`. */
  ghost predicate Explained(w: World, ids: seq<Prefix>, u: string, op: Option<Op>, ev: Event, steps: seq<Step>, op': Option<Op>) {
    forall s :: Shows(ids, ev.before, s) && OpIs(s, u, op) ==> Reaches(w, ids, u, s, steps, ev.after, op')
  }

  ghost predicate Reaches(w: World, ids: seq<Prefix>, u: string, s: State, steps: seq<Step>, x: Snapshot, op: Option<Op>) {
    exists s' :: Leads(w, s, steps, s') && Shows(ids, x, s') && OpIs(s', u, op)
  }

  lemma OneReaches(w: World, ids: seq<Prefix>, u: string, s: State, step: Step, s': State, x: Snapshot, op: Option<Op>)
    requires Moves(w, s, step, s') && Shows(ids, x, s') && OpIs(s', u, op)
    ensures Reaches(w, ids, u, s, [step], x, op)
  {
    hide Moves, Leads, Shows, OpIs;
    LeadsOne(w, s, step, s');
  }

  /** The pod u runs a call for the given requester, and its operation is at the pool of the given range. */
  ghost predicate Runs(w: World, ids: seq<Prefix>, u: string, c: E.Caller) {
    && u in w.pods && c.podUID == u && u != "" && c.who.podRef == w.pods[u].podRef && c.who.ifName == w.pods[u].ifName
    && (forall i, j :: 0 <= i < j < |ids| ==> ids[i] != ids[j])
  }

  ghost predicate AtPool(w: World, ids: seq<Prefix>, u: string, op: Op, id: Prefix) {
    && u in w.pods && !op.Rollback? && op.idx < |w.pods[u].ranges| && w.pods[u].ranges[op.idx] < |ids|
    && ids[w.pods[u].ranges[op.idx]] == id
  }

  lemma SamePlace(w: World, ids: seq<Prefix>, u: string, op: Op, op': Op, id: Prefix)
    requires AtPool(w, ids, u, op, id) && !op'.Rollback? && op'.idx == op.idx
    ensures AtPool(w, ids, u, op', id)
  {
  }

  lemma WorkingAt(w: World, ids: seq<Prefix>, u: string, op: Op, id: Prefix, x: Snapshot, s: State)
    requires AtPool(w, ids, u, op, id) && op.Add? && Shows(ids, x, s) && OpIs(s, u, Some(op))
    ensures Working(w, s, u, op) && PoolShown(x.pools, x.offsets, id, s.pools, w.pods[u].ranges[op.idx])
  {
    hide ByAddress;
  }

  lemma FetchExplained(w: World, ids: seq<Prefix>, u: string, op: Op, id: Prefix, ev: Event)
    requires AtPool(w, ids, u, op, id) && op.Add? && op.phase.Fetch? && ev.before == ev.after
    requires id in ev.before.pools && id in ev.before.offsets
    ensures
      var snap := PoolOf(ev.before.pools[id].version, ev.before.offsets[id], id);
      Explained(w, ids, u, Some(op), ev, [Adding(u, AddFetch)], Some(op.(phase := Choose(snap))))
  {
    hide May, After, Moves, Leads, Working, ByAddress, Reaches, AtPool;
    var snap := PoolOf(ev.before.pools[id].version, ev.before.offsets[id], id);
    var op' := op.(phase := Choose(snap));
    forall s | Shows(ids, ev.before, s) && OpIs(s, u, Some(op)) ensures Reaches(w, ids, u, s, [Adding(u, AddFetch)], ev.after, Some(op')) {
      WorkingAt(w, ids, u, op, id, ev.before, s);
      FetchMoves(w, s, u, op);
      OneReaches(w, ids, u, s, Adding(u, AddFetch), SetOp(s, u, op'), ev.after, Some(op'));
    }
  }

  // ---------------------------------------------------------------------
  // The overlap check
  // ---------------------------------------------------------------------

  /** The address has no reservation. */
  lemma FreeExplained(w: World, ids: seq<Prefix>, u: string, op: Op, id: Prefix, ev: Event, a: Address)
    requires AtPool(w, ids, u, op, id) && op.Add? && op.phase.Choose? && ev.before == ev.after
    requires MayChoose(w.pods[u], op.phase.snap.content, op.taken, a) && a !in ev.before.orips
    ensures
      var choice := Choice(op.phase.snap, a, a !in op.phase.snap.content, true);
      Explained(w, ids, u, Some(op), ev, [Adding(u, AddChoose(a, false))], Some(op.(phase := WritePool(choice))))
  {
    hide May, After, Moves, Leads, Working, PoolShown, Reaches, AtPool, MayChoose;
    var op' := op.(phase := WritePool(Choice(op.phase.snap, a, a !in op.phase.snap.content, true)));
    var step := Adding(u, AddChoose(a, false));
    forall s | Shows(ids, ev.before, s) && OpIs(s, u, Some(op)) ensures Reaches(w, ids, u, s, [step], ev.after, Some(op')) {
      WorkingAt(w, ids, u, op, id, ev.before, s);
      FreeMoves(w, s, u, op, a);
      OneReaches(w, ids, u, s, step, SetOp(s, u, op'), ev.after, Some(op'));
    }
  }

  lemma OursMoves(w: World, s: State, u: string, op: Op, a: Address)
    requires Working(w, s, u, op) && op.phase.Choose? && MayChoose(w.pods[u], op.phase.snap.content, op.taken, a)
    requires a in s.orips && !Foreign(w.pods[u], s.orips[a])
    ensures
      var created := a !in op.phase.snap.content;
      var phase := if s.orips[a].podUID != u then DropStale(Choice(op.phase.snap, a, created, true), s.orips[a].podUID)
                   else WritePool(Choice(op.phase.snap, a, created, false));
      Moves(w, s, Adding(u, AddChoose(a, false)), SetOp(s, u, op.(phase := phase)))
  {
    hide MayChoose, Foreign;
  }

  /** The reservation is the pod's own, of this UID or an older one. */
  lemma OursExplained(w: World, ids: seq<Prefix>, u: string, op: Op, id: Prefix, ev: Event, a: Address)
    requires AtPool(w, ids, u, op, id) && op.Add? && op.phase.Choose? && ev.before == ev.after
    requires MayChoose(w.pods[u], op.phase.snap.content, op.taken, a)
    requires a in ev.before.orips && !Foreign(w.pods[u], ev.before.orips[a])
    ensures
      var created, uid := a !in op.phase.snap.content, ev.before.orips[a].podUID;
      var phase := if uid != u then DropStale(Choice(op.phase.snap, a, created, true), uid)
                   else WritePool(Choice(op.phase.snap, a, created, false));
      Explained(w, ids, u, Some(op), ev, [Adding(u, AddChoose(a, false))], Some(op.(phase := phase)))
  {
    hide May, After, Moves, Leads, Working, PoolShown, Reaches, AtPool, MayChoose, Foreign;
    var created, uid := a !in op.phase.snap.content, ev.before.orips[a].podUID;
    var op' := op.(phase := if uid != u then DropStale(Choice(op.phase.snap, a, created, true), uid)
                            else WritePool(Choice(op.phase.snap, a, created, false)));
    var step := Adding(u, AddChoose(a, false));
    forall s | Shows(ids, ev.before, s) && OpIs(s, u, Some(op)) ensures Reaches(w, ids, u, s, [step], ev.after, Some(op')) {
      WorkingAt(w, ids, u, op, id, ev.before, s);
      OursMoves(w, s, u, op, a);
      OneReaches(w, ids, u, s, step, SetOp(s, u, op'), ev.after, Some(op'));
    }
  }

  /** Where an ADD stands after a finished range: at the next one, or at its end. */
  ghost function Next(w: World, u: string, op: Op): Option<Op>
    requires u in w.pods && op.Add?
  {
    if op.idx + 1 < |w.pods[u].ranges| then Some(op.(idx := op.idx + 1, phase := Fetch)) else None
  }

  lemma NextRangeShows(w: World, ids: seq<Prefix>, x: Snapshot, s: State, u: string, op: Op)
    requires u in w.pods && op.Add? && Shows(ids, x, s)
    ensures Shows(ids, x, NextRange(w, s, u, op)) && OpIs(NextRange(w, s, u, op), u, Next(w, u, op))
  {
    hide PoolShown;
  }

  /** The operation after a conflict: a later attempt leaves the address out, or there is none. */
  ghost function Conflicted(w: World, u: string, op: Op, a: Address, created: bool, last: bool): Option<Op>
    requires u in w.pods && op.Add? && op.idx < |w.pods[u].ranges|
  {
    if !last then Some(op.(taken := op.taken + {a}, phase := Fetch))
    else Next(w, u, op.(taken := op.taken + {a}, fell := op.fell + {a}, done := DoneWith(w.pods[u].ranges[op.idx], op.done, a, created, false)))
  }

  lemma ConflictMoves(w: World, s: State, u: string, op: Op, a: Address, last: bool)
    requires Working(w, s, u, op) && op.phase.Choose? && MayChoose(w.pods[u], op.phase.snap.content, op.taken, a)
    requires a in s.orips && Foreign(w.pods[u], s.orips[a])
    ensures Moves(w, s, Adding(u, AddChoose(a, last)),
                  if last then FallThrough(w, s, u, a, a !in op.phase.snap.content)
                  else SetOp(s, u, op.(taken := op.taken + {a}, phase := Fetch)))
  {
    hide MayChoose, Foreign, FallThrough;
  }

  /** Another pod has the address reserved. */
  lemma ConflictExplained(w: World, ids: seq<Prefix>, u: string, op: Op, id: Prefix, ev: Event, a: Address, last: bool)
    requires AtPool(w, ids, u, op, id) && op.Add? && op.phase.Choose? && ev.before == ev.after
    requires MayChoose(w.pods[u], op.phase.snap.content, op.taken, a)
    requires a in ev.before.orips && Foreign(w.pods[u], ev.before.orips[a])
    ensures
      var created := a !in op.phase.snap.content;
      Explained(w, ids, u, Some(op), ev, [Adding(u, AddChoose(a, last))], Conflicted(w, u, op, a, created, last))
  {
    hide May, After, Moves, Leads, PoolShown, Reaches, MayChoose, Foreign, NextRange, Next;
    var op', step := Conflicted(w, u, op, a, a !in op.phase.snap.content, last), Adding(u, AddChoose(a, last));
    var fallen := op.(taken := op.taken + {a}, fell := op.fell + {a},
                      done := DoneWith(w.pods[u].ranges[op.idx], op.done, a, a !in op.phase.snap.content, false));
    forall s | Shows(ids, ev.before, s) && OpIs(s, u, Some(op)) ensures Reaches(w, ids, u, s, [step], ev.after, op') {
      WorkingAt(w, ids, u, op, id, ev.before, s);
      ConflictMoves(w, s, u, op, a, last);
      NextRangeShows(w, ids, ev.before, s, u, fallen);
      var s' := if last then NextRange(w, s, u, fallen) else SetOp(s, u, op.(taken := op.taken + {a}, phase := Fetch));
      OneReaches(w, ids, u, s, step, s', ev.after, op');
    }
  }

  /** The guarded delete of a stale reservation. */
  lemma DropExplained(w: World, ids: seq<Prefix>, u: string, op: Op, id: Prefix, ev: Event)
    requires AtPool(w, ids, u, op, id) && op.Add? && op.phase.DropStale?
    requires
      var a, orips := op.phase.choice.addr, ev.before.orips;
      ev.after == if a in orips && orips[a].podUID == op.phase.stale then ev.before.(orips := orips - {a}) else ev.before
    ensures Explained(w, ids, u, Some(op), ev, [Adding(u, AddDropStale)], Some(op.(phase := WritePool(op.phase.choice))))
  {
    hide Leads, PoolShown, Reaches, AtPool;
    var op', step := op.(phase := WritePool(op.phase.choice)), Adding(u, AddDropStale);
    forall s | Shows(ids, ev.before, s) && OpIs(s, u, Some(op)) ensures Reaches(w, ids, u, s, [step], ev.after, Some(op')) {
      WorkingAt(w, ids, u, op, id, ev.before, s);
      OneReaches(w, ids, u, s, step, SetOp(Unreserve(s, op.phase.choice.addr, op.phase.stale), u, op'), ev.after, Some(op'));
    }
  }

  // ---------------------------------------------------------------------
  // Writes
  // ---------------------------------------------------------------------

  lemma ByAddressUpdate(m: Offsets, id: Prefix, k: nat, a: IPAllocation)
    ensures ByAddress(m[k := a], NetworkIP(id)) == ByAddress(m, NetworkIP(id))[RawAddr(id.family, id.base + k) := a]
  {
    hide ByAddress, Space;
    var x, y := ByAddress(m[k := a], NetworkIP(id)), ByAddress(m, NetworkIP(id))[RawAddr(id.family, id.base + k) := a];
    forall b ensures (b in x <==> b in y) && (b in x ==> x[b] == y[b]) {
      ByAddressEntry(m, NetworkIP(id), b);
      ByAddressEntry(m[k := a], NetworkIP(id), b);
    }
  }

  lemma ByAddressRemoval(m: Offsets, id: Prefix, k: nat)
    ensures ByAddress(m - {k}, NetworkIP(id)) == ByAddress(m, NetworkIP(id)) - {RawAddr(id.family, id.base + k)}
  {
    hide ByAddress, Space;
    var x, y := ByAddress(m - {k}, NetworkIP(id)), ByAddress(m, NetworkIP(id)) - {RawAddr(id.family, id.base + k)};
    forall b ensures (b in x <==> b in y) && (b in x ==> x[b] == y[b]) {
      ByAddressEntry(m, NetworkIP(id), b);
      ByAddressEntry(m - {k}, NetworkIP(id), b);
    }
  }

  lemma StoreShows(ids: seq<Prefix>, ev: Event, s: State, i: nat, m: Offsets)
    requires Shows(ids, ev.before, s) && i < |ids| && Lands(ev, ids[i], m)
    requires forall j, k :: 0 <= j < k < |ids| ==> ids[j] != ids[k]
    ensures i in s.pools && Shows(ids, ev.after, Store(s, i, ByAddress(m, NetworkIP(ids[i]))))
  {
    hide ByAddress, Space;
    assert PoolShown(ev.before.pools, ev.before.offsets, ids[i], s.pools, i);
    var s' := Store(s, i, ByAddress(m, NetworkIP(ids[i])));
    forall j | 0 <= j < |ids| ensures PoolShown(ev.after.pools, ev.after.offsets, ids[j], s'.pools, j) {
      assert PoolShown(ev.before.pools, ev.before.offsets, ids[j], s.pools, j);
    }
  }

  /** The operation after the range has been committed. */
  ghost function CommitOp(w: World, u: string, op: Op, a: Address, created: bool, reserved: bool): Option<Op>
    requires u in w.pods && op.Add? && op.idx < |w.pods[u].ranges|
  {
    Next(w, u, op.(taken := op.taken + {a}, got := op.got + {a}, done := DoneWith(w.pods[u].ranges[op.idx], op.done, a, created, reserved)))
  }

  lemma CommitShows(w: World, ids: seq<Prefix>, x: Snapshot, s: State, u: string, op: Op, a: Address, created: bool, reserved: bool)
    requires Working(w, s, u, op) && Shows(ids, x, s)
    ensures
      var s' := CommitRange(w, s, u, a, created, reserved);
      Shows(ids, x, s') && OpIs(s', u, CommitOp(w, u, op, a, created, reserved))
  {
    hide Shows, OpIs, NextRange, Next;
    NextRangeShows(w, ids, x, s, u,
      op.(taken := op.taken + {a}, got := op.got + {a}, done := DoneWith(w.pods[u].ranges[op.idx], op.done, a, created, reserved)));
  }

  /** The operation after its pool write has landed. */
  ghost function WrittenOp(w: World, u: string, op: Op): Option<Op>
    requires u in w.pods && op.Add? && op.idx < |w.pods[u].ranges| && op.phase.WritePool?
  {
    var choice := op.phase.choice;
    if choice.reserve then Some(op.(phase := Reserve(choice))) else CommitOp(w, u, op, choice.addr, choice.created, false)
  }

  lemma WriteMovesTo(w: World, s: State, u: string, op: Op)
    requires Working(w, s, u, op) && op.phase.WritePool? && op.phase.choice.snap.version == s.pools[w.pods[u].ranges[op.idx]].version
    ensures
      var id, c := w.pods[u].ranges[op.idx], op.phase.choice;
      var s1 := Store(TakeOver(s, u, op.containerID), id, c.snap.content[c.addr := Entry(w.pods[u], op.containerID)]);
      && Working(w, s1, u, op)
      && Moves(w, s, Adding(u, AddWrite), if c.reserve then SetOp(s1, u, op.(phase := Reserve(c))) else CommitRange(w, s1, u, c.addr, c.created, false))
  {
    hide CommitRange;
  }

  /** The pool write lands. */
  lemma WriteExplained(w: World, ids: seq<Prefix>, u: string, c: E.Caller, op: Op, id: Prefix, ev: Event, m: Offsets, k: nat)
    requires Runs(w, ids, u, c) && AtPool(w, ids, u, op, id) && op.Add? && op.phase.WritePool? && op.containerID == c.who.containerID
    requires id in ev.before.pools && op.phase.choice.snap == PoolOf(ev.before.pools[id].version, m, id)
    requires op.phase.choice.addr == RawAddr(id.family, id.base + k) && Lands(ev, id, m[k := Alloc(c.who)])
    ensures Explained(w, ids, u, Some(op), ev, [Adding(u, AddWrite)], WrittenOp(w, u, op))
  {
    hide May, After, Moves, Leads, Reaches, ByAddress, Space, CommitRange, PoolShown;
    var choice, i := op.phase.choice, w.pods[u].ranges[op.idx];
    ByAddressUpdate(m, id, k, Alloc(c.who));
    forall s | Shows(ids, ev.before, s) && OpIs(s, u, Some(op)) ensures Reaches(w, ids, u, s, [Adding(u, AddWrite)], ev.after, WrittenOp(w, u, op)) {
      WorkingAt(w, ids, u, op, id, ev.before, s);
      VersionShown(ids, ev.before, s, i);
      WriteMovesTo(w, s, u, op);
      var s0 := TakeOver(s, u, op.containerID);
      StoreShows(ids, ev, s0, i, m[k := Alloc(c.who)]);
      var s1 := Store(s0, i, choice.snap.content[choice.addr := Entry(w.pods[u], op.containerID)]);
      CommitShows(w, ids, ev.after, s1, u, op, choice.addr, choice.created, false);
      var s' := if choice.reserve then SetOp(s1, u, op.(phase := Reserve(choice))) else CommitRange(w, s1, u, choice.addr, choice.created, false);
      OneReaches(w, ids, u, s, Adding(u, AddWrite), s', ev.after, WrittenOp(w, u, op));
    }
  }

  lemma VersionShown(ids: seq<Prefix>, x: Snapshot, s: State, i: nat)
    requires Shows(ids, x, s) && i < |ids|
    ensures ids[i] in x.pools && i in s.pools && s.pools[i].version == x.pools[ids[i]].version
  {
    hide ByAddress;
    assert PoolShown(x.pools, x.offsets, ids[i], s.pools, i);
  }

  /** A call that changes nothing but the phase. */
  lemma PhaseExplained(w: World, ids: seq<Prefix>, u: string, op: Op, id: Prefix, ev: Event, add: AddStep, phase: AddPhase)
    requires AtPool(w, ids, u, op, id) && op.Add? && ev.before == ev.after
    requires
      || (add == AddRetry && op.phase.WritePool? && phase == Fetch)
      || (add == AddReserve(true) && op.phase.Reserve? && phase == if op.phase.choice.created then UndoEntry(op.phase.choice) else Fetch)
      || (add == AddUndo(false) && op.phase.UndoEntry? && phase == Fetch)
    ensures Explained(w, ids, u, Some(op), ev, [Adding(u, add)], Some(op.(phase := phase)))
  {
    hide Leads, PoolShown, Reaches, AtPool, CommitRange, DropEntry;
    var op' := op.(phase := phase);
    forall s | Shows(ids, ev.before, s) && OpIs(s, u, Some(op)) ensures Reaches(w, ids, u, s, [Adding(u, add)], ev.after, Some(op')) {
      WorkingAt(w, ids, u, op, id, ev.before, s);
      OneReaches(w, ids, u, s, Adding(u, add), SetOp(s, u, op'), ev.after, Some(op'));
    }
  }

  lemma ReserveMovesTo(w: World, s: State, u: string, op: Op)
    requires Working(w, s, u, op) && op.phase.Reserve? && op.phase.choice.addr !in s.orips
    ensures
      var p, c := w.pods[u], op.phase.choice;
      var s1 := s.(orips := s.orips[c.addr := Orip(p.podRef, p.ifName, u)]);
      Working(w, s1, u, op) && Moves(w, s, Adding(u, AddReserve(false)), CommitRange(w, s1, u, c.addr, c.created, true))
  {
    hide CommitRange;
  }

  /** The reservation is created. */
  lemma ReserveExplained(w: World, ids: seq<Prefix>, u: string, c: E.Caller, op: Op, id: Prefix, ev: Event)
    requires Runs(w, ids, u, c) && AtPool(w, ids, u, op, id) && op.Add? && op.phase.Reserve? && op.phase.choice.addr !in ev.before.orips
    requires ev.after == ev.before.(orips := ev.before.orips[op.phase.choice.addr := c.Mine()])
    ensures
      var choice := op.phase.choice;
      Explained(w, ids, u, Some(op), ev, [Adding(u, AddReserve(false))], CommitOp(w, u, op, choice.addr, choice.created, true))
  {
    hide May, After, Moves, Leads, Reaches, CommitRange, PoolShown;
    var choice, p := op.phase.choice, w.pods[u];
    var op' := CommitOp(w, u, op, choice.addr, choice.created, true);
    forall s | Shows(ids, ev.before, s) && OpIs(s, u, Some(op)) ensures Reaches(w, ids, u, s, [Adding(u, AddReserve(false))], ev.after, op') {
      WorkingAt(w, ids, u, op, id, ev.before, s);
      ReserveMovesTo(w, s, u, op);
      var s1 := s.(orips := s.orips[choice.addr := Orip(p.podRef, p.ifName, u)]);
      CommitShows(w, ids, ev.after, s1, u, op, choice.addr, choice.created, true);
      OneReaches(w, ids, u, s, Adding(u, AddReserve(false)), CommitRange(w, s1, u, choice.addr, choice.created, true), ev.after, op');
    }
  }

  lemma UndoMovesTo(w: World, s: State, u: string, op: Op)
    requires Working(w, s, u, op) && op.phase.UndoEntry?
    requires
      var content, a := s.pools[w.pods[u].ranges[op.idx]].content, op.phase.choice.addr;
      a in content && content[a] == Entry(w.pods[u], op.containerID)
    ensures
      var id := w.pods[u].ranges[op.idx];
      Moves(w, s, Adding(u, AddUndo(true)), SetOp(Store(s, id, s.pools[id].content - {op.phase.choice.addr}), u, op.(phase := Fetch)))
  {
  }

  /** The entry is taken back. */
  lemma UndoExplained(w: World, ids: seq<Prefix>, u: string, c: E.Caller, op: Op, id: Prefix, ev: Event, m: Offsets, k: nat)
    requires Runs(w, ids, u, c) && AtPool(w, ids, u, op, id) && op.Add? && op.phase.UndoEntry? && op.containerID == c.who.containerID
    requires id in ev.before.offsets && ev.before.offsets[id] == m && k in m && m[k] == Alloc(c.who)
    requires op.phase.choice.addr == RawAddr(id.family, id.base + k) && Lands(ev, id, m - {k})
    ensures Explained(w, ids, u, Some(op), ev, [Adding(u, AddUndo(true))], Some(op.(phase := Fetch)))
  {
    hide May, After, Moves, Leads, Reaches, ByAddress, Space;
    var i, a := w.pods[u].ranges[op.idx], op.phase.choice.addr;
    ByAddressRemoval(m, id, k);
    ByAddressEntry(m, NetworkIP(id), a);
    forall s | Shows(ids, ev.before, s) && OpIs(s, u, Some(op)) ensures Reaches(w, ids, u, s, [Adding(u, AddUndo(true))], ev.after, Some(op.(phase := Fetch))) {
      WorkingAt(w, ids, u, op, id, ev.before, s);
      UndoMovesTo(w, s, u, op);
      StoreShows(ids, ev, s, i, m - {k});
      OneReaches(w, ids, u, s, Adding(u, AddUndo(true)), SetOp(Store(s, i, s.pools[i].content - {a}), u, op.(phase := Fetch)), ev.after, Some(op.(phase := Fetch)));
    }
  }

  /** A call that changes nothing, and after which the process goes on as before. */
  lemma NothingExplained(w: World, ids: seq<Prefix>, u: string, op: Option<Op>, ev: Event)
    requires ev.before == ev.after
    ensures Explained(w, ids, u, op, ev, [], op)
  {
    hide Shows, OpIs;
    forall s | Shows(ids, ev.before, s) && OpIs(s, u, op) ensures Reaches(w, ids, u, s, [], ev.after, op) {
      StandsStill(w, s);
    }
  }

  // ---------------------------------------------------------------------
  // The story of a process
  // ---------------------------------------------------------------------

  /** The steps of each call, and where the operation stands before the first and after each. */
  datatype Story = Story(steps: seq<seq<Step>>, ops: seq<Option<Op>>)

  /** Every call is explained by the protocol. */
  ghost predicate Tells(w: World, ids: seq<Prefix>, u: string, events: seq<Event>, story: Story) {
    && |story.steps| == |events| && |story.ops| == |events| + 1
    && forall i :: 0 <= i < |events| ==> Explained(w, ids, u, story.ops[i], events[i], story.steps[i], story.ops[i + 1])
  }

  ghost function Last(story: Story): Option<Op> {
    if story.ops == [] then None else story.ops[|story.ops| - 1]
  }

  ghost function Told(story: Story, steps: seq<Step>, op: Option<Op>): Story {
    Story(story.steps + [steps], story.ops + [op])
  }

  lemma TellsMore(w: World, ids: seq<Prefix>, u: string, events: seq<Event>, story: Story, ev: Event, steps: seq<Step>, op: Option<Op>)
    requires Tells(w, ids, u, events, story) && Explained(w, ids, u, Last(story), ev, steps, op)
    ensures Tells(w, ids, u, events + [ev], Told(story, steps, op)) && Last(Told(story, steps, op)) == op
  {
    hide Explained;
    var events', story' := events + [ev], Told(story, steps, op);
    forall i | 0 <= i < |events'| ensures Explained(w, ids, u, story'.ops[i], events'[i], story'.steps[i], story'.ops[i + 1]) {
      if i < |events| {
        assert story'.ops[i] == story.ops[i] && story'.ops[i + 1] == story.ops[i + 1] && story'.steps[i] == story.steps[i];
      }
    }
  }

  /** The same for the log of a session. */
  lemma LogTellsMore(w: World, ids: seq<Prefix>, u: string, log: seq<Event>, log': seq<Event>, from: nat, story: Story, steps: seq<Step>, op: Option<Op>)
    requires from <= |log| && |log'| == |log| + 1 && log <= log' && Tells(w, ids, u, log[from..], story)
    requires Explained(w, ids, u, Last(story), log'[|log|], steps, op)
    ensures Tells(w, ids, u, log'[from..], Told(story, steps, op)) && Last(Told(story, steps, op)) == op
  {
    hide Explained, Tells, Last, Told;
    assert log'[from..] == log[from..] + [log'[|log|]];
    TellsMore(w, ids, u, log[from..], story, log'[|log|], steps, op);
  }

  // ---------------------------------------------------------------------
  // Taking an entry back
  // ---------------------------------------------------------------------

  /** The last call changed nothing, and the operation is where it was before it. */
  ghost predicate Idle(events: seq<Event>, story: Story, op: Op) {
    && events != [] && |story.steps| == |events| && |story.ops| == |events| + 1
    && events[|events| - 1].before == events[|events| - 1].after
    && story.ops[|events| - 1] == Some(op) && story.ops[|events|] == Some(op)
  }

  /** The undo is given up with that call. */
  lemma GiveUp(w: World, ids: seq<Prefix>, u: string, op: Op, id: Prefix, events: seq<Event>, story: Story) returns (story': Story)
    requires Tells(w, ids, u, events, story) && Idle(events, story, op)
    requires AtPool(w, ids, u, op, id) && op.Add? && op.phase.UndoEntry?
    ensures Tells(w, ids, u, events, story') && Last(story') == Some(op.(phase := Fetch)) && story'.ops[0] == story.ops[0]
  {
    hide Explained, AtPool;
    var n := |events| - 1;
    PhaseExplained(w, ids, u, op, id, events[n], AddUndo(false), Fetch);
    story' := Story(story.steps[n := [Adding(u, AddUndo(false))]], story.ops[n + 1 := Some(op.(phase := Fetch))]);
  }

  /** A pod of the protocol, the pools by number, and where its operation stood at which point of the log. */
  datatype Setting = Setting(w: World, ids: seq<Prefix>, u: string, start: Op, from: nat)

  ghost predicate TellsLog(g: Setting, log: seq<Event>, story: Story) {
    g.from <= |log| && Tells(g.w, g.ids, g.u, log[g.from..], story) && story.ops[0] == Some(g.start)
  }

  /** A call that changed nothing goes into the story. */
  lemma IdleCall(g: Setting, log: seq<Event>, log': seq<Event>, story: Story, op: Op) returns (story': Story)
    requires TellsLog(g, log, story) && Last(story) == Some(op)
    requires |log'| == |log| + 1 && log <= log' && log'[|log|].before == log'[|log|].after
    ensures TellsLog(g, log', story') && Last(story') == Some(op) && Idle(log'[g.from..], story', op)
  {
    hide Explained;
    NothingExplained(g.w, g.ids, g.u, Some(op), log'[|log|]);
    story' := Told(story, [], Some(op));
    LogTellsMore(g.w, g.ids, g.u, log, log', g.from, story, [], Some(op));
    assert log'[g.from..][|log| - g.from] == log'[|log|];
  }

  /** The pod takes back its entry for the address. */
  ghost predicate Undoing(w: World, ids: seq<Prefix>, u: string, c: E.Caller, op: Op, id: Prefix, ip: Addr) {
    && Runs(w, ids, u, c) && AtPool(w, ids, u, op, id) && c.who.podRef != "" && ip.family == id.family && id.base <= ip.value
    && op.Add? && op.phase.UndoEntry? && op.phase.choice.addr == ip && op.containerID == c.who.containerID
  }

  lemma UndoTells(g: Setting, c: E.Caller, op: Op, id: Prefix, ip: Addr, m: Offsets, log: seq<Event>, log': seq<Event>, story: Story) returns (story': Story)
    requires Undoing(g.w, g.ids, g.u, c, op, id, ip) && TellsLog(g, log, story) && Last(story) == Some(op)
    requires |log'| == |log| + 1 && log <= log' && StillCommitted(m, c.who, R.OffsetIn(id, ip))
    requires id in log'[|log|].before.offsets && log'[|log|].before.offsets[id] == m
    requires Lands(log'[|log|], id, m - {R.OffsetIn(id, ip)})
    ensures TellsLog(g, log', story') && Last(story') == Some(op.(phase := Fetch))
  {
    hide Space, Explained, Tells, AtPool, Runs;
    UndoExplained(g.w, g.ids, g.u, c, op, id, log'[|log|], m, R.OffsetIn(id, ip));
    LogTellsMore(g.w, g.ids, g.u, log, log', g.from, story, [Adding(g.u, AddUndo(true))], Some(op.(phase := Fetch)));
    story' := Told(story, [Adding(g.u, AddUndo(true))], Some(op.(phase := Fetch)));
  }

  lemma UndoingFacts(w: World, ids: seq<Prefix>, u: string, c: E.Caller, op: Op, id: Prefix, ip: Addr)
    requires Undoing(w, ids, u, c, op, id, ip)
    ensures c.who.podRef != "" && ip.family == id.family && id.base <= ip.value && op.Add?
  {
  }

  /** One attempt with a re-read. */
  method UndoOnce(session: Session, c: E.Caller, range: Prefix, ip: Addr,
                  ghost g: Setting, ghost op: Op, ghost story: Story)
    returns (r: R.RemoveOutcome, stop: bool, ghost story': Story)
    requires session.Valid() && op.Add? && Undoing(g.w, g.ids, g.u, c, op, range, ip) && range in session.server.pools
    requires TellsLog(g, session.log, story) && Last(story) == Some(op)
    modifies session, session.server
    ensures session.Valid() && old(session.log) <= session.log && range in session.server.pools
    ensures TellsLog(g, session.log, story')
    ensures r.Gone? ==> Last(story') == Some(op.(phase := Fetch))
    ensures !r.Gone? ==> Last(story') == Some(op) && Idle(session.log[g.from..], story', op)
  {
    hide Space, Encode, OffsetsOf, TellsLog, InFamily, Undoing, Last, Idle, R.AllInFamily, Lands, Grown, NamedPods;
    UndoingFacts(g.w, g.ids, g.u, c, op, range, ip);
    ghost var log, x := session.log, session.Now();
    var e, current := session.GetIPPool(range);
    SameVersion(x, session.Now(), range);
    story' := IdleCall(g, log, session.log, story, op);
    if e.Some? { return R.Failed(e.value), false, story'; }
    R.CopyInFamily(session.server.offsets, range);
    var cleaned, removed := R.PlanRemoval(c, current, ip);
    if !removed { return R.Nothing, true, story'; }
    ghost var m, k := current.offsets, R.OffsetIn(range, ip);
    FewerAreInFamily(m, current.firstIP, k);
    log, x := session.log, session.Now();
    e := session.Update(current, cleaned);
    SameVersion(x, session.log[|log|].before, range);
    SameVersion(x, session.Now(), range);
    if e.Some? {
      story' := IdleCall(g, log, session.log, story', op);
      return R.Failed(e.value), e != Some(C.Temporary), story';
    }
    story' := UndoTells(g, c, op, range, ip, m, log, session.log, story');
    return R.Gone, true, story';
  }

  /** The rollback of an entry whose reservation could not be created: the first attempt with the object
      that was written, then four with a re-read. */
  method Undo(session: Session, c: E.Caller, pool: C.KubernetesIPPool, ip: Addr,
              ghost g: Setting, ghost op: Op, ghost story: Story)
    returns (ghost story': Story)
    requires session.Valid() && Undoing(g.w, g.ids, g.u, c, op, pool.range, ip)
    requires TellsLog(g, session.log, story) && Last(story) == Some(op)
    requires pool.Valid() && InFamily(pool.offsets, pool.firstIP) && StillCommitted(pool.offsets, c.who, R.OffsetIn(pool.id, ip))
    requires pool.id in session.server.pools && pool.version < session.server.pools[pool.id].version
    modifies session, session.server, pool
    ensures session.Valid() && old(session.log) <= session.log
    ensures TellsLog(g, session.log, story') && Last(story') == Some(op.(phase := Fetch))
  {
    hide Space, Encode, OffsetsOf, Tells, InFamily, AtPool, Runs, Last, Idle, R.AllInFamily;
    ghost var log := session.log;
    var cleaned, removed := R.PlanRemoval(c, pool, ip);
    FewerAreInFamily(pool.offsets, pool.firstIP, R.OffsetIn(pool.id, ip));
    var e := session.Update(pool, cleaned);
    story' := IdleCall(g, log, session.log, story, op);
    var attempt, stop := 1, e != Some(C.Temporary);
    while attempt < R.ROLLBACK_RETRIES && !stop
      invariant session.Valid() && old(session.log) <= session.log && pool.range in session.server.pools
      invariant TellsLog(g, session.log, story') && Last(story') == Some(op) && Idle(session.log[g.from..], story', op)
    {
      attempt := attempt + 1;
      var r;
      r, stop, story' := UndoOnce(session, c, pool.range, ip, g, op, story');
      if r.Gone? { return; }
    }
    story' := GiveUp(g.w, g.ids, g.u, op, pool.range, session.log[g.from..], story');
  }

  lemma FewerAreInFamily(m: Offsets, base: Addr, k: nat)
    requires InFamily(m, base)
    ensures InFamily(m - {k}, base)
  {
    hide Space;
  }

  // ---------------------------------------------------------------------
  // An ADD attempt
  // ---------------------------------------------------------------------

  /** The ADD is about to try the range. */
  ghost predicate Trying(w: World, ids: seq<Prefix>, u: string, c: E.Caller, conf: RangeConfiguration, taken: seq<Addr>, op: Op) {
    && Runs(w, ids, u, c) && conf.range.Some? && AtPool(w, ids, u, op, conf.range.value) && c.who.podRef != ""
    && op.Add? && op.phase.Fetch? && op.containerID == c.who.containerID && op.taken == set a: Address | a in taken
  }

  /** The planned write is the one the operation has decided on. */
  ghost predicate Decided(c: E.Caller, pool: C.KubernetesIPPool, plan: T.Plan, op: Op, reserve: bool)
    reads pool
  {
    && pool.Valid() && InFamily(pool.offsets, pool.firstIP) && op.Add? && op.containerID == c.who.containerID
    && plan.ip.family == pool.range.family && pool.range.base <= plan.ip.value
    && var k := R.OffsetIn(pool.id, plan.ip);
       && OffsetsOf(plan.list, pool.firstIP) == Ok(pool.offsets[k := Alloc(c.who)])
       && op.phase == WritePool(Choice(PoolOf(pool.version, pool.offsets, pool.range), plan.ip, plan.created, reserve))
  }

  /** The planned write is the one the operation will decide on, if it takes the address. */
  ghost predicate Proposed(c: E.Caller, pool: C.KubernetesIPPool, plan: T.Plan, op: Op)
    requires op.Add? && op.phase.Choose?
    reads pool
  {
    forall reserve :: Decided(c, pool, plan, op.(phase := WritePool(Choice(op.phase.snap, plan.ip, plan.created, reserve))), reserve)
  }

  /** What the pool object shows is what an attempt may choose from, and a created entry is a new one. */
  lemma PlanMayChoose(w: World, ids: seq<Prefix>, u: string, c: E.Caller, conf: RangeConfiguration, taken: seq<Addr>, op: Op,
                      m: Offsets, k: nat, ip: Addr)
    requires Trying(w, ids, u, c, conf, taken, op) && TakesOffset(conf, NetworkIP(conf.range.value), m, taken, c.who, k)
    requires ip == RawAddr(conf.range.value.family, conf.range.value.base + k)
    ensures
      var content := ByAddress(m, NetworkIP(conf.range.value));
      MayChoose(w.pods[u], content, op.taken, ip) && (ip in content <==> k in m)
  {
    hide ByAddress, TakesOffset, MayChoose, AtPool, Space;
    AttemptMayChoose(conf, NetworkIP(conf.range.value), m, taken, c.who, k, w.pods[u]);
    ByAddressEntry(m, NetworkIP(conf.range.value), ip);
  }

  /** The overlap check of a planned address. Without a result, the attempt goes on to the pool write. */
  method Check(session: Session, c: E.Caller, ip: Addr, last: bool,
               ghost g: Setting, ghost op: Op, ghost id: Prefix, ghost story: Story)
    returns (r: Option<T.AttemptOutcome>, reserve: bool, ghost op': Option<Op>, ghost story': Story)
    requires session.Valid() && Runs(g.w, g.ids, g.u, c) && AtPool(g.w, g.ids, g.u, op, id) && op.Add? && op.phase.Choose? && id in session.server.pools
    requires g.u in g.w.pods && op.idx < |g.w.pods[g.u].ranges| && MayChoose(g.w.pods[g.u], op.phase.snap.content, op.taken, ip)
    requires TellsLog(g, session.log, story) && Last(story) == Some(op)
    modifies session, session.server
    ensures session.Valid() && old(session.log) <= session.log && Grown(old(session.Now()), session.Now())
    ensures TellsLog(g, session.log, story') && Last(story') == op'
    ensures
      var created := ip !in op.phase.snap.content;
      match r {
        case None => op' == Some(op.(phase := WritePool(Choice(op.phase.snap, ip, created, reserve))))
        case Some(Conflict) => op' == Conflicted(g.w, g.u, op, ip, created, last)
        case Some(GivenUp) => op'.Some? && op'.value.Add?
        case _ => false
      }
  {
    hide Space, Encode, TellsLog, MayChoose, Runs, AtPool, R.AllInFamily, Explained, Last, Told, Conflicted, Grown;
    ghost var created, log, x := ip !in op.phase.snap.content, session.log, session.Now();
    var e, found := session.GetReservation(ip);
    reserve := true;
    if e.Some? {
      story' := IdleCall(g, log, session.log, story, op);
      return Some(T.GivenUp), true, Some(op), story';
    }
    ghost var ev := session.log[|log|];
    if found.None? {
      FreeExplained(g.w, g.ids, g.u, op, id, ev, ip);
      op' := Some(op.(phase := WritePool(Choice(op.phase.snap, ip, created, true))));
      story' := LogTells(g, log, session.log, story, [Adding(g.u, AddChoose(ip, false))], op');
      return None, true, op', story';
    }
    assert session.server.orips[ip].podUID != "";
    SameOwner(g.w, g.ids, g.u, c, found.value);
    if c.Foreign(found.value) {
      ConflictExplained(g.w, g.ids, g.u, op, id, ev, ip, last);
      op' := Conflicted(g.w, g.u, op, ip, created, last);
      story' := LogTells(g, log, session.log, story, [Adding(g.u, AddChoose(ip, last))], op');
      return Some(T.Conflict), true, op', story';
    }
    OursExplained(g.w, g.ids, g.u, op, id, ev, ip);
    if !c.Stale(found.value) {
      op' := Some(op.(phase := WritePool(Choice(op.phase.snap, ip, created, false))));
      story' := LogTells(g, log, session.log, story, [Adding(g.u, AddChoose(ip, false))], op');
      return None, false, op', story';
    }
    ghost var op1 := op.(phase := DropStale(Choice(op.phase.snap, ip, created, true), found.value.podUID));
    story' := LogTells(g, log, session.log, story, [Adding(g.u, AddChoose(ip, false))], Some(op1));
    SamePlace(g.w, g.ids, g.u, op, op1, id);
    r, op', story' := Drop(session, ip, found.value.podUID, g, op1, id, story');
    GrownTwice(x, ev.after, session.Now());
  }

  /** The deletion of a stale reservation. */
  method Drop(session: Session, ip: Addr, stale: string,
              ghost g: Setting, ghost op: Op, ghost id: Prefix, ghost story: Story)
    returns (r: Option<T.AttemptOutcome>, ghost op': Option<Op>, ghost story': Story)
    requires session.Valid() && AtPool(g.w, g.ids, g.u, op, id) && op.Add? && op.phase.DropStale? && op.phase.choice.addr == ip
    requires op.phase.stale == stale && stale != ""
    requires TellsLog(g, session.log, story) && Last(story) == Some(op)
    modifies session, session.server
    ensures session.Valid() && old(session.log) <= session.log && Grown(old(session.Now()), session.Now())
    ensures TellsLog(g, session.log, story') && Last(story') == op'
    ensures r.None? ==> op' == Some(op.(phase := WritePool(op.phase.choice)))
    ensures r.Some? ==> r == Some(T.GivenUp) && op' == Some(op)
  {
    hide Space, Encode, TellsLog, AtPool, R.AllInFamily, Explained, Last, Told, Grown;
    ghost var log := session.log;
    var e := session.DeleteReservation(ip, stale);
    if e.Some? {
      story' := IdleCall(g, log, session.log, story, op);
      return Some(T.GivenUp), Some(op), story';
    }
    DropExplained(g.w, g.ids, g.u, op, id, session.log[|log|]);
    op' := Some(op.(phase := WritePool(op.phase.choice)));
    story' := LogTells(g, log, session.log, story, [Adding(g.u, AddDropStale)], op');
    return None, op', story';
  }

  lemma SameOwner(w: World, ids: seq<Prefix>, u: string, c: E.Caller, o: Orip)
    requires Runs(w, ids, u, c)
    ensures c.Foreign(o) <==> Foreign(w.pods[u], o)
    ensures o.podUID != "" && !c.Foreign(o) ==> (c.Stale(o) <==> o.podUID != u)
  {
  }

  lemma LogTells(g: Setting, log: seq<Event>, log': seq<Event>, story: Story, steps: seq<Step>, op: Option<Op>)
    returns (story': Story)
    requires TellsLog(g, log, story) && |log'| == |log| + 1 && log <= log'
    requires Explained(g.w, g.ids, g.u, Last(story), log'[|log|], steps, op)
    ensures TellsLog(g, log', story') && Last(story') == op
  {
    hide Explained;
    story' := Told(story, steps, op);
    LogTellsMore(g.w, g.ids, g.u, log, log', g.from, story, steps, op);
  }

  /** From the decided write on: the pool is written and the reservation created, or the entry taken back. */
  method Finish(session: Session, c: E.Caller, pool: C.KubernetesIPPool, plan: T.Plan, reserve: bool,
                ghost g: Setting, ghost op: Op, ghost story: Story)
    returns (r: T.AttemptOutcome, ghost story': Story)
    requires session.Valid() && Runs(g.w, g.ids, g.u, c) && AtPool(g.w, g.ids, g.u, op, pool.range) && c.who.podRef != "" && c.podUID != ""
    requires op.Add? && g.u in g.w.pods && op.idx < |g.w.pods[g.u].ranges| && Decided(c, pool, plan, op, reserve) && pool.range in session.server.pools
    requires TellsLog(g, session.log, story) && Last(story) == Some(op)
    modifies session, session.server, pool
    ensures session.Valid() && old(session.log) <= session.log && TellsLog(g, session.log, story')
    ensures r.Committed? ==> r.reserved == reserve && Last(story') == CommitOp(g.w, g.u, op, plan.ip, plan.created, reserve)
    ensures r.Again? || r.GivenUp? ==> Last(story') == Some(op.(phase := Fetch))
    ensures !r.Conflict?
  {
    hide Space, Encode, OffsetsOf, TellsLog, Runs, AtPool, R.AllInFamily, InFamily, Explained, Last, ByAddress, Grown, Lands;
    ghost var k, m, log, x := R.OffsetIn(pool.id, plan.ip), pool.offsets, session.log, session.Now();
    MoreInFamily(m, pool.range, k, plan.ip, Alloc(c.who));
    var e := session.Update(pool, plan.list);
    ghost var ev := session.log[|log|];
    if e.Some? {
      PhaseExplained(g.w, g.ids, g.u, op, pool.range, ev, AddRetry, Fetch);
      story' := LogTells(g, log, session.log, story, [Adding(g.u, AddRetry)], Some(op.(phase := Fetch)));
      return if e == Some(C.Temporary) then T.Again else T.GivenUp, story';
    }
    LandedVersion(ev, pool.range, pool.offsets);
    WriteExplained(g.w, g.ids, g.u, c, op, pool.range, ev, m, k);
    story' := LogTells(g, log, session.log, story, [Adding(g.u, AddWrite)], WrittenOp(g.w, g.u, op));
    if !reserve { return T.Committed(false), story'; }
    ghost var op1 := op.(phase := Reserve(op.phase.choice));
    SamePlace(g.w, g.ids, g.u, op, op1, pool.range);
    r, story' := FinishReservation(session, c, pool, plan, g, op1, story');
  }

  lemma MoreInFamily(m: Offsets, range: Prefix, k: nat, ip: Addr, a: IPAllocation)
    requires InFamily(m, NetworkIP(range)) && ip == RawAddr(range.family, range.base + k)
    ensures InFamily(m[k := a], NetworkIP(range))
  {
    hide Space;
  }

  lemma LandedVersion(ev: Event, id: Prefix, m: Offsets)
    requires Lands(ev, id, m)
    ensures id in ev.before.pools && id in ev.after.pools && ev.after.pools[id].version == ev.before.pools[id].version + 1
  {
  }

  /** The reservation of a written entry. */
  method FinishReservation(session: Session, c: E.Caller, pool: C.KubernetesIPPool, plan: T.Plan,
                           ghost g: Setting, ghost op: Op, ghost story: Story)
    returns (r: T.AttemptOutcome, ghost story': Story)
    requires session.Valid() && Runs(g.w, g.ids, g.u, c) && AtPool(g.w, g.ids, g.u, op, pool.range) && c.who.podRef != "" && c.podUID != ""
    requires op.Add? && op.phase.Reserve? && op.phase.choice.addr == plan.ip && op.phase.choice.created == plan.created
    requires g.u in g.w.pods && op.idx < |g.w.pods[g.u].ranges| && op.containerID == c.who.containerID
    requires pool.Valid() && InFamily(pool.offsets, pool.firstIP) && StillCommitted(pool.offsets, c.who, R.OffsetIn(pool.id, plan.ip))
    requires plan.ip.family == pool.range.family && pool.range.base <= plan.ip.value
    requires pool.range in session.server.pools && pool.version < session.server.pools[pool.range].version
    requires TellsLog(g, session.log, story) && Last(story) == Some(op)
    modifies session, session.server, pool
    ensures session.Valid() && old(session.log) <= session.log && TellsLog(g, session.log, story')
    ensures r.Committed? ==> r.reserved && Last(story') == CommitOp(g.w, g.u, op, plan.ip, plan.created, true)
    ensures r.Again? || r.GivenUp? ==> Last(story') == Some(op.(phase := Fetch))
    ensures !r.Conflict?
  {
    hide Space, Encode, OffsetsOf, TellsLog, Runs, AtPool, R.AllInFamily, InFamily, Explained, Last, CommitOp, Grown;
    ghost var log, x := session.log, session.Now();
    var e := session.CreateReservation(plan.ip, c.Mine());
    ghost var ev := session.log[|log|];
    if e.None? {
      ReserveExplained(g.w, g.ids, g.u, c, op, pool.range, ev);
      story' := LogTells(g, log, session.log, story, [Adding(g.u, AddReserve(false))], CommitOp(g.w, g.u, op, plan.ip, plan.created, true));
      return T.Committed(true), story';
    }
    r := if e == Some(C.Temporary) then T.Again else T.GivenUp;
    ghost var op1 := op.(phase := if plan.created then UndoEntry(op.phase.choice) else Fetch);
    PhaseExplained(g.w, g.ids, g.u, op, pool.range, ev, AddReserve(true), op1.phase);
    story' := LogTells(g, log, session.log, story, [Adding(g.u, AddReserve(true))], Some(op1));
    if plan.created {
      SamePlace(g.w, g.ids, g.u, op, op1, pool.range);
      NewerVersion(x, session.Now(), pool.range);
      story' := Undo(session, c, pool, plan.ip, g, op1, story');
    }
  }

  lemma NewerVersion(x: Snapshot, x': Snapshot, id: Prefix)
    requires Grown(x, x') && id in x.pools && id in x.offsets
    ensures id in x'.pools && x.pools[id].version <= x'.pools[id].version
  {
  }

  /** The read and the plan. Without a plan the attempt ends. */
  method Read(session: Session, c: E.Caller, conf: RangeConfiguration, taken: seq<Addr>, ghost g: Setting, ghost story: Story)
    returns (again: bool, pool: C.KubernetesIPPool?, plan: Option<T.Plan>, ghost op: Op, ghost story': Story)
    requires session.Valid() && conf.range.Some? && conf.range.value in session.server.pools
    requires Trying(g.w, g.ids, g.u, c, conf, taken, g.start)
    requires TellsLog(g, session.log, story) && Last(story) == Some(g.start)
    modifies session, session.server
    ensures session.Valid() && old(session.log) <= session.log && conf.range.value in session.server.pools
    ensures TellsLog(g, session.log, story') && Last(story') == Some(op) && op.Add? && (again ==> plan.None? && op == g.start)
    ensures plan.Some? ==>
      && pool != null && fresh(pool) && pool.range == conf.range.value
      && op == g.start.(phase := Choose(PoolOf(pool.version, pool.offsets, pool.range)))
      && MayChoose(g.w.pods[g.u], op.phase.snap.content, op.taken, plan.value.ip)
      && (plan.value.created <==> plan.value.ip !in op.phase.snap.content)
      && Proposed(c, pool, plan.value, op)
  {
    hide Space, Encode, OffsetsOf, TellsLog, Runs, AtPool, R.AllInFamily, InFamily, Explained, Last, ByAddress, Grown, MayChoose, TakesOffset, PoolShown;
    ghost var log, x := session.log, session.Now();
    op := g.start;
    var id := conf.range.value;
    var e;
    e, pool := session.GetIPPool(id);
    SameVersion(x, session.Now(), id);
    if e.Some? {
      story' := IdleCall(g, log, session.log, story, op);
      return e == Some(C.Temporary), null, None, op, story';
    }
    FetchExplained(g.w, g.ids, g.u, op, id, session.log[|log|]);
    op := g.start.(phase := Choose(PoolOf(pool.version, pool.offsets, id)));
    story' := LogTells(g, log, session.log, story, [Adding(g.u, AddFetch)], Some(op));
    R.CopyInFamily(session.server.offsets, id);
    var planned;
    ghost var k, ks;
    planned, k, ks := T.PlanAttempt(pool, conf, taken, c.who);
    if planned.Err? { return false, pool, None, op, story'; }
    PlanMayChoose(g.w, g.ids, g.u, c, conf, taken, g.start, pool.offsets, k, planned.value.ip);
    return false, pool, Some(planned.value), op, story';
  }

  /** One attempt of an ADD with overlap checking, as Transaction.Attempt, while everybody else acts between
      its calls. Each call is a step of the protocol, or a failed read that is none; the outcome says where
      the operation then stands. */
  method Attempt(session: Session, c: E.Caller, conf: RangeConfiguration, taken: seq<Addr>, last: bool,
                 ghost w: World, ghost ids: seq<Prefix>, ghost u: string, ghost op: Op)
    returns (r: T.AttemptOutcome, plan: Option<T.Plan>, ghost story: Story)
    requires session.Valid() && conf.range.Some? && conf.range.value in session.server.pools
    requires Trying(w, ids, u, c, conf, taken, op)
    modifies session, session.server
    ensures session.Valid() && old(session.log) <= session.log
    ensures Tells(w, ids, u, session.log[|old(session.log)|..], story) && story.ops[0] == Some(op)
    ensures r.Committed? ==> plan.Some? && Last(story) == CommitOp(w, u, op, plan.value.ip, plan.value.created, r.reserved)
    ensures r.Conflict? ==> plan.Some? && Last(story) == Conflicted(w, u, op, plan.value.ip, plan.value.created, last)
    ensures r.Again? ==> Last(story) == Some(op)
    ensures r.GivenUp? ==> Last(story).Some? && Last(story).value.Add?
  {
    hide Space, Encode, OffsetsOf, Runs, AtPool, R.AllInFamily, Proposed, Decided, Tells, Last, Grown, MayChoose, PoolOf, Trying, CommitOp, Conflicted;
    ghost var g := Setting(w, ids, u, op, |session.log|);
    story := Story([], [Some(op)]);
    NothingTold(g, session.log);
    TryingFacts(w, ids, u, c, conf, taken, op, op);
    var again, pool;
    ghost var op1;
    again, pool, plan, op1, story := Read(session, c, conf, taken, g, story);
    if plan.None? { return if again then T.Again else T.GivenUp, None, story; }
    TryingFacts(w, ids, u, c, conf, taken, op, op1);
    PhaseIsForgotten(w, u, op, op1, plan.value, last);
    r, story := Continue(session, c, pool, plan.value, last, g, op1, story);
  }

  /** Where the operation stands after a range does not depend on the phase it was in. */
  lemma PhaseIsForgotten(w: World, u: string, op: Op, op': Op, plan: T.Plan, last: bool)
    requires u in w.pods && op.Add? && op.idx < |w.pods[u].ranges| && op'.Add? && op' == op.(phase := op'.phase)
    ensures Conflicted(w, u, op, plan.ip, plan.created, last) == Conflicted(w, u, op', plan.ip, plan.created, last)
    ensures forall reserved :: CommitOp(w, u, op, plan.ip, plan.created, reserved) == CommitOp(w, u, op', plan.ip, plan.created, reserved)
  {
  }

  /** The attempt after its plan. */
  method Continue(session: Session, c: E.Caller, pool: C.KubernetesIPPool, plan: T.Plan, last: bool, ghost g: Setting, ghost op: Op, ghost story: Story)
    returns (r: T.AttemptOutcome, ghost story': Story)
    requires session.Valid() && Runs(g.w, g.ids, g.u, c) && AtPool(g.w, g.ids, g.u, op, pool.range) && c.who.podRef != "" && c.podUID != ""
    requires op.Add? && op.phase.Choose? && g.u in g.w.pods && op.idx < |g.w.pods[g.u].ranges| && pool.range in session.server.pools
    requires MayChoose(g.w.pods[g.u], op.phase.snap.content, op.taken, plan.ip) && (plan.created <==> plan.ip !in op.phase.snap.content)
    requires Proposed(c, pool, plan, op) && TellsLog(g, session.log, story) && Last(story) == Some(op)
    modifies session, session.server, pool
    ensures session.Valid() && old(session.log) <= session.log && TellsLog(g, session.log, story')
    ensures r.Committed? ==> Last(story') == CommitOp(g.w, g.u, op, plan.ip, plan.created, r.reserved)
    ensures r.Conflict? ==> Last(story') == Conflicted(g.w, g.u, op, plan.ip, plan.created, last)
    ensures r.Again? ==> Last(story') == Some(op.(phase := Fetch))
    ensures r.GivenUp? ==> Last(story').Some? && Last(story').value.Add?
  {
    hide Space, Encode, OffsetsOf, Runs, AtPool, R.AllInFamily, Decided, TellsLog, Last, Grown, MayChoose, CommitOp, Conflicted;
    var ended, reserve;
    ghost var op', x := None, session.Now();
    ended, reserve, op', story' := Check(session, c, plan.ip, last, g, op, pool.range, story);
    if ended.Some? { return ended.value, story'; }
    NewerVersion(x, session.Now(), pool.range);
    SamePlace(g.w, g.ids, g.u, op, op'.value, pool.range);
    r, story' := Finish(session, c, pool, plan, reserve, g, op'.value, story');
    if r.Committed? { CommitForgets(g.w, g.u, op, op'.value, plan.ip, plan.created, r.reserved); }
  }

  lemma CommitForgets(w: World, u: string, op: Op, op': Op, a: Address, created: bool, reserved: bool)
    requires u in w.pods && op.Add? && op.idx < |w.pods[u].ranges| && op'.Add? && op' == op.(phase := op'.phase)
    ensures CommitOp(w, u, op, a, created, reserved) == CommitOp(w, u, op', a, created, reserved)
  {
  }

  lemma NothingTold(g: Setting, log: seq<Event>)
    requires g.from == |log|
    ensures TellsLog(g, log, Story([], [Some(g.start)])) && Last(Story([], [Some(g.start)])) == Some(g.start)
  {
  }

  lemma TryingFacts(w: World, ids: seq<Prefix>, u: string, c: E.Caller, conf: RangeConfiguration, taken: seq<Addr>, op: Op, op1: Op)
    requires Trying(w, ids, u, c, conf, taken, op) && (op1 == op || (op.Add? && op1.Add? && op1.idx == op.idx))
    ensures Runs(w, ids, u, c) && AtPool(w, ids, u, op1, conf.range.value) && c.who.podRef != "" && c.podUID != ""
    ensures u in w.pods && op.Add? && op.idx < |w.pods[u].ranges| && op.phase.Fetch?
  {
  }

  // ---------------------------------------------------------------------
  // A DEL pass
  // ---------------------------------------------------------------------

  lemma DeletingAt(w: World, ids: seq<Prefix>, u: string, op: Op, id: Prefix, x: Snapshot, s: State)
    requires AtPool(w, ids, u, op, id) && op.Del? && Shows(ids, x, s) && OpIs(s, u, Some(op))
    ensures InDel(s, u) && AtRange(w, s, u) && PoolAt(w, s, u) == w.pods[u].ranges[op.idx]
    ensures PoolShown(x.pools, x.offsets, id, s.pools, w.pods[u].ranges[op.idx])
  {
    hide ByAddress;
  }

  lemma TwoReach(w: World, ids: seq<Prefix>, u: string, s: State, e1: Step, s1: State, e2: Step, s2: State, x: Snapshot, op: Option<Op>)
    requires Moves(w, s, e1, s1) && Moves(w, s1, e2, s2) && Shows(ids, x, s2) && OpIs(s2, u, op)
    ensures Reaches(w, ids, u, s, [e1, e2], x, op)
  {
    hide Moves, Leads, Shows, OpIs;
    LeadsTwo(w, s, e1, s1, e2, s2);
  }

  lemma DelReadMoves(w: World, s: State, u: string)
    requires InDel(s, u) && AtRange(w, s, u) && s.ops[u].delPhase.DelFetch?
    ensures
      var s' := SetOp(s, u, s.ops[u].(delPhase := DelChoose(s.pools[PoolAt(w, s, u)])));
      Moves(w, s, Deleting(u, DelRead), s') && InDel(s', u) && AtRange(w, s', u) && PoolAt(w, s', u) == PoolAt(w, s, u)
  {
  }

  lemma DelFindMovesAt(w: World, s: State, u: string, a: Address)
    requires InDel(s, u) && AtRange(w, s, u) && s.ops[u].delPhase.DelChoose? && a in s.ops[u].delPhase.snap.content
    requires HeldByContainer(s.ops[u].delPhase.snap.content[a], w.pods[u], s.ops[u].containerID)
    ensures Moves(w, s, Deleting(u, DelFind(a)), SetOp(s, u, s.ops[u].(pending := Some(a), delPhase := DelWrite(s.ops[u].delPhase.snap, a))))
  {
    hide HeldByContainer;
  }

  /** The DEL reads the pool and finds an entry of its container. */
  lemma FindExplained(w: World, ids: seq<Prefix>, u: string, op: Op, id: Prefix, ev: Event, a: Address)
    requires AtPool(w, ids, u, op, id) && op.Del? && op.delPhase.DelFetch? && ev.before == ev.after
    requires id in ev.before.pools && id in ev.before.offsets
    requires
      var content := ByAddress(ev.before.offsets[id], NetworkIP(id));
      a in content && HeldByContainer(content[a], w.pods[u], op.containerID)
    ensures
      var snap := PoolOf(ev.before.pools[id].version, ev.before.offsets[id], id);
      Explained(w, ids, u, Some(op), ev, [Deleting(u, DelRead), Deleting(u, DelFind(a))], Some(op.(pending := Some(a), delPhase := DelWrite(snap, a))))
  {
    hide May, After, Moves, Leads, ByAddress, Reaches, AtPool, HeldByContainer;
    var snap := PoolOf(ev.before.pools[id].version, ev.before.offsets[id], id);
    var op1, op2 := op.(delPhase := DelChoose(snap)), op.(pending := Some(a), delPhase := DelWrite(snap, a));
    var e1, e2 := Deleting(u, DelRead), Deleting(u, DelFind(a));
    forall s | Shows(ids, ev.before, s) && OpIs(s, u, Some(op)) ensures Reaches(w, ids, u, s, [e1, e2], ev.after, Some(op2)) {
      DeletingAt(w, ids, u, op, id, ev.before, s);
      DelReadMoves(w, s, u);
      DelFindMovesAt(w, SetOp(s, u, op1), u, a);
      TwoReach(w, ids, u, s, e1, SetOp(s, u, op1), e2, SetOp(SetOp(s, u, op1), u, op2), ev.after, Some(op2));
    }
  }

  /** Where a DEL stands after a finished range. */
  ghost function NextDel(w: World, u: string, op: Op): Option<Op>
    requires u in w.pods && op.Del?
  {
    if op.idx + 1 < |w.pods[u].ranges| then Some(op.(idx := op.idx + 1, pending := None, delPhase := DelFetch)) else None
  }

  lemma NextDelShows(w: World, ids: seq<Prefix>, x: Snapshot, s: State, u: string)
    requires InDel(s, u) && AtRange(w, s, u) && Shows(ids, x, s)
    ensures Shows(ids, x, NextDelRange(w, s, u)) && OpIs(NextDelRange(w, s, u), u, NextDel(w, u, s.ops[u]))
  {
    hide PoolShown;
  }

  /** The operation when no entry is found: a remembered address is still to be unreserved. */
  ghost function NoneOp(w: World, u: string, op: Op): Option<Op>
    requires u in w.pods && op.Del?
  {
    if op.pending.Some? then Some(op.(delPhase := DelUnreserve(op.pending.value))) else NextDel(w, u, op)
  }

  lemma DelNoneMoves(w: World, s: State, u: string)
    requires InDel(s, u) && AtRange(w, s, u) && s.ops[u].delPhase.DelChoose?
    requires forall a :: a in s.ops[u].delPhase.snap.content ==> !HeldByContainer(s.ops[u].delPhase.snap.content[a], w.pods[u], s.ops[u].containerID)
    ensures Moves(w, s, Deleting(u, DelNone),
                  if s.ops[u].pending.Some? then SetOp(s, u, s.ops[u].(delPhase := DelUnreserve(s.ops[u].pending.value))) else NextDelRange(w, s, u))
  {
    hide HeldByContainer, NextDelRange;
  }

  /** The DEL reads the pool and finds nothing. */
  lemma NoneExplained(w: World, ids: seq<Prefix>, u: string, op: Op, id: Prefix, ev: Event)
    requires AtPool(w, ids, u, op, id) && op.Del? && op.delPhase.DelFetch? && ev.before == ev.after
    requires id in ev.before.pools && id in ev.before.offsets
    requires
      var content := ByAddress(ev.before.offsets[id], NetworkIP(id));
      forall a :: a in content ==> !HeldByContainer(content[a], w.pods[u], op.containerID)
    ensures Explained(w, ids, u, Some(op), ev, [Deleting(u, DelRead), Deleting(u, DelNone)], NoneOp(w, u, op))
  {
    hide May, After, Moves, Leads, ByAddress, Reaches, HeldByContainer, NextDelRange;
    var snap := PoolOf(ev.before.pools[id].version, ev.before.offsets[id], id);
    var op1 := op.(delPhase := DelChoose(snap));
    var e1, e2 := Deleting(u, DelRead), Deleting(u, DelNone);
    forall s | Shows(ids, ev.before, s) && OpIs(s, u, Some(op)) ensures Reaches(w, ids, u, s, [e1, e2], ev.after, NoneOp(w, u, op)) {
      DeletingAt(w, ids, u, op, id, ev.before, s);
      DelReadMoves(w, s, u);
      var s1 := SetOp(s, u, op1);
      DelNoneMoves(w, s1, u);
      NextDelShows(w, ids, ev.before, s1, u);
      var s2 := if op.pending.Some? then SetOp(s1, u, op1.(delPhase := DelUnreserve(op.pending.value))) else NextDelRange(w, s1, u);
      TwoReach(w, ids, u, s, e1, s1, e2, s2, ev.after, NoneOp(w, u, op));
    }
  }

  lemma DelPatchMovesTo(w: World, s: State, u: string)
    requires InDel(s, u) && AtRange(w, s, u) && s.ops[u].delPhase.DelWrite? && s.ops[u].delPhase.snap.version == s.pools[PoolAt(w, s, u)].version
    ensures
      var op := s.ops[u];
      Moves(w, s, Deleting(u, DelPatch),
            SetOp(Store(s, PoolAt(w, s, u), op.delPhase.snap.content - {op.delPhase.addr}), u, op.(delPhase := DelUnreserve(op.delPhase.addr))))
  {
  }

  /** The entry is removed. */
  lemma PatchExplained(w: World, ids: seq<Prefix>, u: string, op: Op, id: Prefix, ev: Event, m: Offsets, k: nat)
    requires AtPool(w, ids, u, op, id) && op.Del? && op.delPhase.DelWrite? && forall i, j :: 0 <= i < j < |ids| ==> ids[i] != ids[j]
    requires id in ev.before.pools && op.delPhase == DelWrite(PoolOf(ev.before.pools[id].version, m, id), RawAddr(id.family, id.base + k))
    requires Lands(ev, id, m - {k})
    ensures Explained(w, ids, u, Some(op), ev, [Deleting(u, DelPatch)], Some(op.(delPhase := DelUnreserve(op.delPhase.addr))))
  {
    hide May, After, Moves, Leads, Reaches, ByAddress, Space, PoolShown;
    var i, op' := w.pods[u].ranges[op.idx], op.(delPhase := DelUnreserve(op.delPhase.addr));
    ByAddressRemoval(m, id, k);
    forall s | Shows(ids, ev.before, s) && OpIs(s, u, Some(op)) ensures Reaches(w, ids, u, s, [Deleting(u, DelPatch)], ev.after, Some(op')) {
      DeletingAt(w, ids, u, op, id, ev.before, s);
      VersionShown(ids, ev.before, s, i);
      DelPatchMovesTo(w, s, u);
      StoreShows(ids, ev, s, i, m - {k});
      OneReaches(w, ids, u, s, Deleting(u, DelPatch), SetOp(Store(s, i, op.delPhase.snap.content - {op.delPhase.addr}), u, op'), ev.after, Some(op'));
    }
  }

  /** A write or a delete of a DEL fails. */
  lemma DelFailExplained(w: World, ids: seq<Prefix>, u: string, op: Op, id: Prefix, ev: Event, del: DelStep)
    requires AtPool(w, ids, u, op, id) && op.Del? && ev.before == ev.after
    requires (del == DelRetry && op.delPhase.DelWrite?) || (del == DelRelease(true) && op.delPhase.DelUnreserve?)
    ensures Explained(w, ids, u, Some(op), ev, [Deleting(u, del)], Some(op.(delPhase := DelFetch)))
  {
    hide Leads, PoolShown, Reaches, AtPool, NextDelRange;
    var op' := op.(delPhase := DelFetch);
    forall s | Shows(ids, ev.before, s) && OpIs(s, u, Some(op)) ensures Reaches(w, ids, u, s, [Deleting(u, del)], ev.after, Some(op')) {
      DeletingAt(w, ids, u, op, id, ev.before, s);
      OneReaches(w, ids, u, s, Deleting(u, del), SetOp(s, u, op'), ev.after, Some(op'));
    }
  }

  lemma DelReleaseMovesTo(w: World, s: State, u: string)
    requires InDel(s, u) && AtRange(w, s, u) && s.ops[u].delPhase.DelUnreserve?
    ensures
      var s1 := Unreserve(s, s.ops[u].delPhase.addr, u);
      InDel(s1, u) && AtRange(w, s1, u) && s1.ops == s.ops && Moves(w, s, Deleting(u, DelRelease(false)), NextDelRange(w, s1, u))
  {
    hide NextDelRange;
  }

  /** The guarded delete of the address's reservation. */
  lemma ReleaseExplained(w: World, ids: seq<Prefix>, u: string, op: Op, id: Prefix, ev: Event)
    requires AtPool(w, ids, u, op, id) && op.Del? && op.delPhase.DelUnreserve?
    requires
      var a, orips := op.delPhase.addr, ev.before.orips;
      ev.after == if a in orips && orips[a].podUID == u then ev.before.(orips := orips - {a}) else ev.before
    ensures Explained(w, ids, u, Some(op), ev, [Deleting(u, DelRelease(false))], NextDel(w, u, op))
  {
    hide May, After, Moves, Leads, PoolShown, Reaches, NextDelRange;
    forall s | Shows(ids, ev.before, s) && OpIs(s, u, Some(op)) ensures Reaches(w, ids, u, s, [Deleting(u, DelRelease(false))], ev.after, NextDel(w, u, op)) {
      DeletingAt(w, ids, u, op, id, ev.before, s);
      DelReleaseMovesTo(w, s, u);
      var s1 := Unreserve(s, op.delPhase.addr, u);
      NextDelShows(w, ids, ev.after, s1, u);
      OneReaches(w, ids, u, s, Deleting(u, DelRelease(false)), NextDelRange(w, s1, u), ev.after, NextDel(w, u, op));
    }
  }

  /** The DEL is about to release the range, with an address remembered or not. */
  ghost predicate Releasing(w: World, ids: seq<Prefix>, u: string, t: D.Target, range: Prefix, remembered: Option<Address>, op: Op) {
    && AtPool(w, ids, u, op, range) && t.podUID == u && u != "" && t.ifName == w.pods[u].ifName
    && (forall i, j :: 0 <= i < j < |ids| ==> ids[i] != ids[j])
    && op.Del? && op.delPhase.DelFetch? && op.containerID == t.containerID && op.pending == remembered
  }

  /** What the container holds by offset, it holds by address. */
  lemma HeldByAddress(w: World, ids: seq<Prefix>, u: string, t: D.Target, range: Prefix, remembered: Option<Address>, op: Op, m: Offsets, a: Address)
    requires Releasing(w, ids, u, t, range, remembered, op)
    ensures
      var content := ByAddress(m, NetworkIP(range));
      a in content && HeldByContainer(content[a], w.pods[u], op.containerID) <==>
      a.family == range.family && range.base <= a.value && t.Holds(m, a.value - range.base)
  {
    hide ByAddress, AtPool, Space;
    ByAddressEntry(m, NetworkIP(range), a);
  }

  /** The read of a DEL pass and what it finds. */
  method Find(session: Session, t: D.Target, range: Prefix, ghost g: Setting, ghost story: Story)
    returns (e: Option<C.CallError>, pool: C.KubernetesIPPool?, list: seq<Reservation>, ip: Option<Addr>, ghost k: nat, ghost story': Story)
    requires session.Valid() && range in session.server.pools && g.start.Del? && Releasing(g.w, g.ids, g.u, t, range, g.start.pending, g.start)
    requires TellsLog(g, session.log, story) && Last(story) == Some(g.start) && g.u in g.w.pods
    modifies session, session.server
    ensures session.Valid() && old(session.log) <= session.log && TellsLog(g, session.log, story')
    ensures e.Some? ==> Last(story') == Some(g.start)
    ensures e.None? && ip.None? ==> Last(story') == NoneOp(g.w, g.u, g.start)
    ensures e.None? && ip.Some? ==>
      && pool != null && fresh(pool) && pool.Valid() && pool.range == range && ip == Some(RawAddr(range.family, range.base + k))
      && InFamily(pool.offsets, pool.firstIP) && OffsetsOf(list, pool.firstIP) == Ok(pool.offsets - {k})
      && Last(story') == Some(g.start.(pending := ip, delPhase := DelWrite(PoolOf(pool.version, pool.offsets, range), ip.value)))
  {
    hide Space, Encode, OffsetsOf, TellsLog, AtPool, R.AllInFamily, InFamily, Explained, Last, ByAddress, Grown, HeldByContainer, HeldBy, NoneOp, Releasing;
    ghost var log, op := session.log, g.start;
    list, ip, k := [], None, 0;
    e, pool := session.GetIPPool(range);
    ghost var ev := session.log[|log|];
    if e.Some? {
      story' := IdleCall(g, log, session.log, story, op);
      return;
    }
    R.CopyInFamily(session.server.offsets, range);
    list, ip := D.Pop(pool, t);
    ReleasingFacts(g.w, g.ids, g.u, t, range, op.pending, op);
    if ip.None? {
      NothingHeld(g.w, g.ids, g.u, t, range, op.pending, op, pool.offsets);
      NoneExplained(g.w, g.ids, g.u, op, range, ev);
      story' := LogTells(g, log, session.log, story, [Deleting(g.u, DelRead), Deleting(g.u, DelNone)], NoneOp(g.w, g.u, op));
      return;
    }
    k :| t.Holds(pool.offsets, k) && ip == Some(RawAddr(range.family, range.base + k)) && OffsetsOf(list, pool.firstIP).value == pool.offsets - {k};
    HeldByAddress(g.w, g.ids, g.u, t, range, op.pending, op, pool.offsets, ip.value);
    FindExplained(g.w, g.ids, g.u, op, range, ev, ip.value);
    story' := LogTells(g, log, session.log, story, [Deleting(g.u, DelRead), Deleting(g.u, DelFind(ip.value))],
                       Some(op.(pending := ip, delPhase := DelWrite(PoolOf(pool.version, pool.offsets, range), ip.value))));
  }

  lemma ReleasingFacts(w: World, ids: seq<Prefix>, u: string, t: D.Target, range: Prefix, remembered: Option<Address>, op: Op)
    requires Releasing(w, ids, u, t, range, remembered, op)
    ensures AtPool(w, ids, u, op, range) && op.Del? && op.delPhase.DelFetch? && op.pending == remembered && t.podUID == u && u != "" && u in w.pods
    ensures forall i, j :: 0 <= i < j < |ids| ==> ids[i] != ids[j]
  {
  }

  lemma NothingHeld(w: World, ids: seq<Prefix>, u: string, t: D.Target, range: Prefix, remembered: Option<Address>, op: Op, m: Offsets)
    requires Releasing(w, ids, u, t, range, remembered, op) && forall k :: !t.Holds(m, k)
    ensures u in w.pods && op.Del?
    ensures
      var content := ByAddress(m, NetworkIP(range));
      forall a :: a in content ==> !HeldByContainer(content[a], w.pods[u], op.containerID)
  {
    hide ByAddress, HeldByContainer, HeldBy;
    var content := ByAddress(m, NetworkIP(range));
    forall a | a in content ensures !HeldByContainer(content[a], w.pods[u], op.containerID) {
      HeldByAddress(w, ids, u, t, range, remembered, op, m, a);
    }
  }

  /** One pass of a DEL with overlap checking, as Release.ReleaseAttempt, while everybody else acts between
      its calls. */
  method Pass(session: Session, t: D.Target, range: Prefix, remembered: Option<Addr>,
              ghost w: World, ghost ids: seq<Prefix>, ghost u: string, ghost op: Op)
    returns (r: D.ReleaseOutcome, pending: Option<Addr>, ghost story: Story)
    requires session.Valid() && range in session.server.pools && Releasing(w, ids, u, t, range, remembered, op)
    modifies session, session.server
    ensures session.Valid() && old(session.log) <= session.log
    ensures Tells(w, ids, u, session.log[|old(session.log)|..], story) && story.ops[0] == Some(op)
    ensures r.Released? ==> u in w.pods && op.Del? && Last(story) == NextDel(w, u, op)
    ensures !r.Released? ==> op.Del? && Last(story) == Some(op.(pending := pending))
  {
    hide Space, Encode, OffsetsOf, AtPool, R.AllInFamily, InFamily, Explained, Tells, Last, ByAddress, Grown, Lands, PoolOf, HeldBy, Releasing;
    ReleasingFacts(w, ids, u, t, range, remembered, op);
    ghost var g := Setting(w, ids, u, op, |session.log|);
    story := Story([], [Some(op)]);
    NothingTold(g, session.log);
    pending := remembered;
    var e, pool, list, ip;
    ghost var k;
    e, pool, list, ip, k, story := Find(session, t, range, g, story);
    if e.Some? { return D.OnError(e.value), pending, story; }
    ghost var op1 := op;
    if ip.None? {
      if pending.None? { return D.Released, pending, story; }
      op1 := op.(delPhase := DelUnreserve(pending.value));
    } else {
      pending := ip;
      op1 := op.(pending := ip, delPhase := DelUnreserve(ip.value));
      SamePlace(w, ids, u, op, op1, range);
      e, story := Patch(session, pool, list, ip.value, g, op1, k, story);
      if e.Some? { return D.OnError(e.value), pending, story; }
    }
    SamePlace(w, ids, u, op, op1, range);
    e, story := Unreserving(session, t, pending.value, g, op1, range, story);
    return if e.Some? then D.OnError(e.value) else D.Released, pending, story;
  }

  /** The pool write of a DEL pass. */
  method Patch(session: Session, pool: C.KubernetesIPPool, list: seq<Reservation>, ip: Addr, ghost g: Setting, ghost op: Op, ghost k: nat, ghost story: Story)
    returns (e: Option<C.CallError>, ghost story': Story)
    requires session.Valid() && pool.Valid() && InFamily(pool.offsets, pool.firstIP) && OffsetsOf(list, pool.firstIP) == Ok(pool.offsets - {k})
    requires AtPool(g.w, g.ids, g.u, op, pool.range) && op.Del? && op.delPhase == DelUnreserve(ip) && ip == RawAddr(pool.range.family, pool.range.base + k)
    requires forall i, j :: 0 <= i < j < |g.ids| ==> g.ids[i] != g.ids[j]
    requires TellsLog(g, session.log, story) && Last(story) == Some(op.(delPhase := DelWrite(PoolOf(pool.version, pool.offsets, pool.range), ip)))
    modifies session, session.server, pool
    ensures session.Valid() && old(session.log) <= session.log && TellsLog(g, session.log, story')
    ensures Last(story') == Some(if e.Some? then op.(delPhase := DelFetch) else op)
  {
    hide Space, Encode, OffsetsOf, TellsLog, AtPool, R.AllInFamily, InFamily, Explained, Last, ByAddress, Grown, Lands;
    ghost var log, m := session.log, pool.offsets;
    ghost var op0 := op.(delPhase := DelWrite(PoolOf(pool.version, m, pool.range), ip));
    SamePlace(g.w, g.ids, g.u, op, op0, pool.range);
    FewerAreInFamily(m, pool.firstIP, k);
    e := session.Update(pool, list);
    ghost var ev := session.log[|log|];
    if e.Some? {
      DelFailExplained(g.w, g.ids, g.u, op0, pool.range, ev, DelRetry);
      story' := LogTells(g, log, session.log, story, [Deleting(g.u, DelRetry)], Some(op.(delPhase := DelFetch)));
      return;
    }
    LandedVersion(ev, pool.range, pool.offsets);
    PatchExplained(g.w, g.ids, g.u, op0, pool.range, ev, m, k);
    story' := LogTells(g, log, session.log, story, [Deleting(g.u, DelPatch)], Some(op));
  }

  /** The reservation half of a DEL pass. */
  method Unreserving(session: Session, t: D.Target, ip: Addr, ghost g: Setting, ghost op: Op, ghost id: Prefix, ghost story: Story)
    returns (e: Option<C.CallError>, ghost story': Story)
    requires session.Valid() && AtPool(g.w, g.ids, g.u, op, id) && op.Del? && op.delPhase == DelUnreserve(ip) && g.u in g.w.pods
    requires t.podUID == g.u && g.u != "" && TellsLog(g, session.log, story) && Last(story) == Some(op)
    modifies session, session.server
    ensures session.Valid() && old(session.log) <= session.log && TellsLog(g, session.log, story')
    ensures Last(story') == if e.Some? then Some(op.(delPhase := DelFetch)) else NextDel(g.w, g.u, op)
  {
    hide Space, Encode, TellsLog, AtPool, R.AllInFamily, Explained, Last, Grown, NextDel;
    ghost var log := session.log;
    e := session.DeleteReservation(ip, t.podUID);
    ghost var ev := session.log[|log|];
    if e.Some? {
      DelFailExplained(g.w, g.ids, g.u, op, id, ev, DelRelease(true));
      story' := LogTells(g, log, session.log, story, [Deleting(g.u, DelRelease(true))], Some(op.(delPhase := DelFetch)));
      return;
    }
    ReleaseExplained(g.w, g.ids, g.u, op, id, ev);
    story' := LogTells(g, log, session.log, story, [Deleting(g.u, DelRelease(false))], NextDel(g.w, g.u, op));
  }

  // ---------------------------------------------------------------------
  // Together with everybody else
  // ---------------------------------------------------------------------

  /** Whatever is stored, some state of the protocol shows it, with the pod at any operation. */
  lemma SomeStateShows(ids: seq<Prefix>, x: Snapshot, u: string, op: Op) returns (s: State)
    requires forall i :: 0 <= i < |ids| ==> ids[i] in x.pools && ids[i] in x.offsets
    ensures Shows(ids, x, s) && OpIs(s, u, Some(op))
  {
    hide ByAddress;
    var pools := map i: nat | i < |ids| :: PoolOf(x.pools[ids[i]].version, x.offsets[ids[i]], ids[i]);
    s := State(pools, x.orips, {}, {}, map[u := op], map[]);
    forall i | 0 <= i < |ids| ensures PoolShown(x.pools, x.offsets, ids[i], s.pools, i) {
    }
  }

  lemma RunOn(w: World, trace: seq<State>, steps: seq<Step>, more: seq<Step>, s: State) returns (trace': seq<State>)
    requires IsRun(w, trace, steps) && Leads(w, trace[|steps|], more, s)
    ensures IsRun(w, trace', steps + more) && trace <= trace' && trace'[|steps + more|] == s
  {
    hide May, After, Init;
    var t := TraceOf(w, trace[|steps|], more, s);
    trace' := trace + t[1..];
    forall i | 0 <= i < |steps + more|
      ensures May(w, trace'[i], (steps + more)[i]) && trace'[i + 1] == After(w, trace'[i], (steps + more)[i])
    {
      if i < |steps| {
        assert trace'[i] == trace[i] && trace'[i + 1] == trace[i + 1] && (steps + more)[i] == steps[i];
      } else {
        assert trace'[i] == t[i - |steps|] && trace'[i + 1] == t[i + 1 - |steps|] && (steps + more)[i] == more[i - |steps|];
      }
    }
    assert trace'[0] == trace[0];
  }

  /** Whenever the pod and everybody else have run the protocol to a state that shows what the next call
      finds, the steps of that call continue the run, and it then shows what the call has left. */
  lemma CallContinuesRun(w: World, ids: seq<Prefix>, u: string, events: seq<Event>, story: Story, i: nat, trace: seq<State>, steps: seq<Step>)
    returns (trace': seq<State>)
    requires Tells(w, ids, u, events, story) && i < |events| && IsRun(w, trace, steps)
    requires Shows(ids, events[i].before, trace[|steps|]) && OpIs(trace[|steps|], u, story.ops[i])
    ensures
      var steps' := steps + story.steps[i];
      && IsRun(w, trace', steps') && trace <= trace'
      && Shows(ids, events[i].after, trace'[|steps'|]) && OpIs(trace'[|steps'|], u, story.ops[i + 1])
  {
    hide Leads, Shows, OpIs;
    var s := trace[|steps|];
    assert Explained(w, ids, u, story.ops[i], events[i], story.steps[i], story.ops[i + 1]);
    assert Reaches(w, ids, u, s, story.steps[i], events[i].after, story.ops[i + 1]);
    var s' :| Leads(w, s, story.steps[i], s') && Shows(ids, events[i].after, s') && OpIs(s', u, story.ops[i + 1]);
    trace' := RunOn(w, trace, steps, story.steps[i], s');
  }

  lemma StandsStill(w: World, s: State)
    ensures Leads(w, s, [], s)
  {
    assert IsPath(w, [s], []);
  }
}
