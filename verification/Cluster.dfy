/** The API server as one process sees it, and the pool object a process works on. Each call is
    atomic and may fail; a failed call changes nothing. */
module Cluster {
  import opened Prelude
  import opened Addressing
  import opened Allocation
  import opened Codec
  import opened AddAttempt

  /** A pool is identified by the range it serves. */
  type PoolId = RawPrefix

  datatype Stored = Stored(version: nat, content: AllocationMap)

  datatype CallError = Temporary | Permanent | NotFound

  /** What is stored: pools by offsets, and reservations by the addresses their names stand for. */
  datatype World = World(offsets: map<PoolId, Offsets>, orips: map<RawAddr, Orip>) {
    /** A pool that does not exist yet holds nothing. */
    function At(id: PoolId): Offsets {
      if id in offsets then offsets[id] else map[]
    }
  }

  /** The reservation is known to be another pod lifecycle's. */
  predicate Guarded(orips: map<RawAddr, Orip>, ip: RawAddr, podUID: string) {
    ip in orips && podUID != "" && orips[ip].podUID != "" && orips[ip].podUID != podUID
  }

  class ApiServer {
    var pools: map<PoolId, Stored>
    var orips: map<RawAddr, Orip>
    ghost var offsets: map<PoolId, Offsets>
    ghost var faults: nat
    ghost var lasting: nat

    /** Every stored pool has canonical decimal keys. */
    ghost predicate Valid()
      reads this`pools, this`offsets
    {
      && pools.Keys == offsets.Keys
      && forall id :: id in pools ==> pools[id].content == Encode(offsets[id])
    }

    ghost function View(): World
      reads this`offsets, this`orips
    {
      World(offsets, orips)
    }

    /** Any call may fail, for now or for good; ghost state counts both. */
    method SomeError() returns (e: Option<CallError>)
      modifies this`faults, this`lasting
      ensures e != Some(NotFound) && faults == if e.Some? then old(faults) + 1 else old(faults)
      ensures lasting == if e == Some(Permanent) then old(lasting) + 1 else old(lasting)
    {
      var fails: bool, temporary: bool := *, *;
      if !fails { return None; }
      faults := faults + 1;
      if temporary { return Some(Temporary); }
      lasting := lasting + 1;
      return Some(Permanent);
    }

    /** getPool: a missing pool is created and the caller told to try again. */
    method GetIPPool(range: Prefix) returns (e: Option<CallError>, pool: KubernetesIPPool?)
      requires Valid()
      modifies this
      ensures Valid() && orips == old(orips) && forall id :: View().At(id) == old(View()).At(id)
      ensures forall id :: id in old(pools) ==> id in pools && pools[id] == old(pools)[id]
      ensures e.None? <==> pool != null
      ensures e.None? ==> fresh(pool) && pool.IsCopyOf(pools, offsets, range)
      ensures faults >= old(faults) && lasting == if e == Some(Permanent) then old(lasting) + 1 else old(lasting)
      ensures faults == old(faults) ==> range in pools && if range in old(pools) then e.None? else e == Some(Temporary)
    {
      hide Encode;
      e := SomeError();
      pool := null;
      if e.Some? { return; }
      if range !in pools {
        EncodeEmpty();
        pools := pools[range := Stored(0, map[])];
        offsets := offsets[range := map[]];
        return Some(Temporary), null;
      }
      pool := new KubernetesIPPool(range, pools[range], offsets[range]);
    }

    method GetExistingIPPool(range: Prefix) returns (e: Option<CallError>, pool: KubernetesIPPool?)
      requires Valid()
      modifies this`faults, this`lasting
      ensures faults == (if e.None? || e == Some(NotFound) then old(faults) else old(faults) + 1)
      ensures lasting == if e == Some(Permanent) then old(lasting) + 1 else old(lasting)
      ensures e.None? <==> pool != null
      ensures e == Some(NotFound) ==> range !in pools
      ensures e.None? ==> fresh(pool) && pool.IsCopyOf(pools, offsets, range)
    {
      hide Encode;
      e := SomeError();
      pool := null;
      if e.Some? { return; }
      if range !in pools { return Some(NotFound), null; }
      pool := new KubernetesIPPool(range, pools[range], offsets[range]);
    }

    method GetReservation(ip: RawAddr) returns (e: Option<CallError>, r: Option<Orip>)
      modifies this`faults, this`lasting
      ensures e != Some(NotFound) && faults == if e.Some? then old(faults) + 1 else old(faults)
      ensures lasting == if e == Some(Permanent) then old(lasting) + 1 else old(lasting)
      ensures e.None? ==> r == if ip in orips then Some(orips[ip]) else None
    {
      e := SomeError();
      r := if ip in orips then Some(orips[ip]) else None;
    }

    method CreateReservation(ip: RawAddr, o: Orip) returns (e: Option<CallError>)
      modifies this`orips, this`faults, this`lasting
      ensures faults >= old(faults) && (faults == old(faults) && ip !in old(orips) ==> e.None?)
      ensures lasting == if e == Some(Permanent) then old(lasting) + 1 else old(lasting)
      ensures e.None? ==> ip !in old(orips) && orips == old(orips)[ip := o]
      ensures e.Some? ==> orips == old(orips)
    {
      e := SomeError();
      if e.Some? { return; }
      if ip in orips { return Some(Temporary); }
      orips := orips[ip := o];
    }

    /** Deletion, unless a UID is given and the stored one is known and different. */
    method DeleteReservation(ip: RawAddr, podUID: string) returns (e: Option<CallError>)
      modifies this`orips, this`faults, this`lasting
      ensures e != Some(NotFound) && faults == if e.Some? then old(faults) + 1 else old(faults)
      ensures lasting == if e == Some(Permanent) then old(lasting) + 1 else old(lasting)
      ensures e.None? ==> orips == if Guarded(old(orips), ip, podUID) then old(orips) else old(orips) - {ip}
      ensures e.Some? ==> orips == old(orips)
    {
      if podUID != "" {
        var existing;
        e, existing := GetReservation(ip);
        if e.Some? { return; }
        if existing.Some? && existing.value.podUID != "" && existing.value.podUID != podUID { return None; }
      }
      e := SomeError();
      if e.Some? { return; }
      orips := orips - {ip};
    }
  }

  lemma EncodeEmpty()
    ensures Encode(map[]) == map[]
  {
  }

  /** A pool as it was read, which the process overwrites with what it wants to store. */
  class KubernetesIPPool {
    const range: Prefix
    const id: PoolId
    const firstIP: Addr
    var version: nat
    var content: AllocationMap
    ghost var offsets: Offsets

    constructor (range: Prefix, stored: Stored, ghost m: Offsets)
      requires stored.content == Encode(m)
      ensures Valid() && this.range == range && id == range && version == stored.version && content == stored.content && offsets == m
    {
      this.range := range;
      id := range;
      firstIP := NetworkIP(range);
      version := stored.version;
      content := stored.content;
      offsets := m;
    }

    ghost predicate Valid()
      reads this
    {
      content == Encode(offsets) && id == range && firstIP == NetworkIP(range)
    }

    ghost predicate IsCopyOf(pools: map<PoolId, Stored>, stored: map<PoolId, Offsets>, range: Prefix)
      reads this
    {
      && Valid() && this.range == range
      && id in pools && id in stored
      && version == pools[id].version && offsets == stored[id]
    }

    method Allocations() returns (list: seq<Reservation>, ghost ks: seq<nat>)
      requires Valid()
      ensures IsReading(content, firstIP, list)
      ensures Visits(offsets, ks) && list == PoolList(offsets, firstIP, ks)
    {
      hide Encode, PoolList, ListOf;
      ghost var order;
      list, order := ToIPReservationList(content, firstIP);
      ks := ReadsAs(offsets, firstIP, order);
    }

    /** Update: the object takes the new content in any case; the server takes it only if nobody has
        written since the read. The object keeps the version it was read with. */
    method Update(server: ApiServer, list: seq<Reservation>) returns (e: Option<CallError>)
      requires Valid() && server.Valid()
      modifies this`content, this`offsets, server`pools, server`offsets, server`faults, server`lasting
      ensures old(server.faults) <= server.faults <= old(server.faults) + 1
      ensures server.lasting == if e == Some(Permanent) && OffsetsOf(list, firstIP).Ok? then old(server.lasting) + 1 else old(server.lasting)
      ensures server.lasting > old(server.lasting) ==> server.faults > old(server.faults)
      ensures server.faults == old(server.faults) ==>
        OffsetsOf(list, firstIP).Ok? && id in old(server.pools) && version == old(server.pools)[id].version ==> e.None?
      ensures Valid() && server.Valid()
      ensures e.Some? ==> server.pools == old(server.pools) && server.offsets == old(server.offsets)
      ensures e.None? ==>
        && OffsetsOf(list, firstIP).Ok? && offsets == OffsetsOf(list, firstIP).value
        && id in old(server.pools) && version == old(server.pools)[id].version
        && server.offsets == old(server.offsets)[id := offsets]
        && server.pools == old(server.pools)[id := Stored(version + 1, content)]
      ensures e == Some(NotFound) ==> id !in server.pools
    {
      hide Encode, OffsetsOf, MapOf;
      WritesAs(list, firstIP);
      var allocations := ToAllocationMap(list, firstIP);
      if allocations.Err? { return Some(Permanent); }
      content := allocations.value;
      offsets := OffsetsOf(list, firstIP).value;
      e := server.SomeError();
      if e.Some? { return; }
      if id !in server.pools { return Some(NotFound); }
      if server.pools[id].version != version { return Some(Temporary); }
      server.pools := server.pools[id := Stored(version + 1, content)];
      server.offsets := server.offsets[id := offsets];
    }
  }
}
