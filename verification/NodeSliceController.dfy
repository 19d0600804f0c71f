/** The node-slice reconciler: its passes over the slot array, in place. */
module NodeSliceController {
  import opened Prelude
  import opened Addressing
  import opened NodeSlices

  // ---------------------------------------------------------------------
  // The passes
  // ---------------------------------------------------------------------

  method MakeAllocations(subnets: seq<RawPrefix>, nodes: seq<string>) returns (allocations: array<Slot>)
    ensures fresh(allocations) && allocations[..] == Made(subnets, nodes)
  {
    allocations := new Slot[|subnets|](i requires 0 <= i < |subnets| => Slot("", subnets[i]));
    var i := 0;
    while i < |nodes| && i < allocations.Length
      invariant 0 <= i <= |nodes| && i <= allocations.Length
      invariant forall k :: 0 <= k < allocations.Length ==> allocations[k] == Slot(if k < i then nodes[k] else "", subnets[k])
    {
      allocations[i] := allocations[i].(nodeName := nodes[i]);
      i := i + 1;
    }
  }

  method RepairAllocations(slots: seq<Slot>, subnets: seq<RawPrefix>, nodes: seq<string>) returns (repaired: array<Slot>)
    ensures fresh(repaired) && repaired[..] == Repaired(slots, subnets, nodes)
  {
    if MatchesPrefix(slots, subnets) {
      repaired := new Slot[|subnets|](i requires 0 <= i < |subnets| => Slot("", subnets[i]));
      for i := 0 to |slots|
        invariant forall k :: 0 <= k < repaired.Length ==> repaired[k] == if k < i then slots[k] else Slot("", subnets[k])
      {
        repaired[i] := slots[i];
      }
    } else {
      repaired := MakeAllocations(subnets, nodes);
    }
  }

  datatype ServerError = ServerError

  /** A per-node pool holds allocations. */
  predicate InUse(pools: map<Slot, nat>, slot: Slot) {
    slot in pools && pools[slot] > 0
  }

  /** The per-node pools: how many allocations each holds. Failed calls are counted. */
  class PoolStore {
    var pools: map<Slot, nat>
    ghost var faults: nat

    /** A missing pool lets the slice go; an empty one is deleted first; one in use blocks. Any call
        may fail, and then changes nothing. */
    method ReleaseDeletedNodeSlice(slot: Slot) returns (r: Result<bool, ServerError>)
      modifies this
      ensures r.Ok? ==> r.value == !InUse(old(pools), slot) && pools == if r.value then old(pools) - {slot} else old(pools)
      ensures r.Err? ==> pools == old(pools)
      ensures faults == if r.Err? then old(faults) + 1 else old(faults)
    {
      var getFails: bool := *;
      if getFails { faults := faults + 1; return Err(ServerError); }
      if slot !in pools { return Ok(true); }
      if pools[slot] > 0 { return Ok(false); }
      var deleteFails: bool := *;
      if deleteFails { faults := faults + 1; return Err(ServerError); }
      pools := pools - {slot};
      return Ok(true);
    }
  }

  datatype Condition = Ready | Reconciling | Stalled

  /** The positions of deleted nodes whose pool is still in use. */
  function Blocked(slots: seq<Slot>, nodes: seq<string>, pools: map<Slot, nat>): set<nat> {
    set i | 0 <= i < |slots| && Gone(slots[i].nodeName, nodes) && InUse(pools, slots[i])
  }

  /** The pools that go: those of deleted nodes that hold nothing. */
  function Emptied(slots: seq<Slot>, nodes: seq<string>, pools: map<Slot, nat>): set<Slot> {
    set i | 0 <= i < |slots| && Gone(slots[i].nodeName, nodes) && !InUse(pools, slots[i]) :: slots[i]
  }

  lemma EmptiedNext(slots: seq<Slot>, nodes: seq<string>, pools: map<Slot, nat>, i: nat)
    requires i < |slots|
    ensures Emptied(slots[..i + 1], nodes, pools) ==
            Emptied(slots[..i], nodes, pools) + if Gone(slots[i].nodeName, nodes) && !InUse(pools, slots[i]) then {slots[i]} else {}
  {
    var some, more := slots[..i], slots[..i + 1];
    assert more[i] == slots[i] && forall k :: 0 <= k < i ==> more[k] == some[k];
  }

  /** First loop of the assignment pass: free the slots of deleted nodes and delete their pools. */
  method ReleaseDeleted(store: PoolStore, allocations: array<Slot>, nodes: seq<string>) returns (r: Result<bool, ServerError>)
    modifies store, allocations
    ensures
      var blocked := Blocked(old(allocations[..]), nodes, old(store.pools));
      r.Ok? ==> allocations[..] == Freed(old(allocations[..]), nodes, blocked) && r.value == (blocked != {})
    ensures r.Ok? ==> store.pools == old(store.pools) - Emptied(old(allocations[..]), nodes, old(store.pools))
    ensures forall s: Slot :: InUse(store.pools, s) <==> InUse(old(store.pools), s)
    ensures r.Ok? <==> store.faults == old(store.faults)
  {
    hide Freed;
    ghost var slots, pools := allocations[..], store.pools;
    ghost var blocked := Blocked(slots, nodes, pools);
    ghost var freed := Freed(slots, nodes, blocked);
    var staleBlocking := false;
    for i := 0 to allocations.Length
      invariant forall s: Slot :: InUse(store.pools, s) <==> InUse(pools, s)
      invariant forall k :: 0 <= k < allocations.Length ==> allocations[k] == if k < i then freed[k] else slots[k]
      invariant staleBlocking ==> blocked != {}
      invariant forall k :: k in blocked && k < i ==> staleBlocking
      invariant store.pools == pools - Emptied(slots[..i], nodes, pools) && store.faults == old(store.faults)
    {
      EmptiedNext(slots, nodes, pools, i);
      if allocations[i].nodeName != "" && allocations[i].nodeName !in nodes {
        var released := store.ReleaseDeletedNodeSlice(allocations[i]);
        if released.Err? { return Err(released.error); }
        if !released.value {
          assert i in blocked;
          staleBlocking := true;
          continue;
        }
        allocations[i] := allocations[i].(nodeName := "");
      }
    }
    if !staleBlocking {
      assert blocked == {};
    }
    assert slots[..allocations.Length] == slots;
    return Ok(staleBlocking);
  }

  /** The free positions, in ascending order. */
  ghost predicate FreePositions(slots: seq<Slot>, free: seq<nat>) {
    && (forall k, l :: 0 <= k < l < |free| ==> free[k] < free[l])
    && (forall k :: 0 <= k < |free| ==> free[k] < |slots| && slots[free[k]].nodeName == "")
    && (forall i :: 0 <= i < |slots| && slots[i].nodeName == "" ==> i in free)
  }

  /** The nodes that have a slot, and the free positions in ascending order. */
  method CollectSlots(allocations: array<Slot>) returns (assignedNodes: set<string>, freeSlots: seq<nat>)
    ensures forall n :: n in assignedNodes <==> n != "" && HasSlot(allocations[..], n)
    ensures FreePositions(allocations[..], freeSlots)
  {
    ghost var slots := allocations[..];
    assignedNodes, freeSlots := {}, [];
    for i := 0 to allocations.Length
      invariant forall n :: n in assignedNodes <==> n != "" && exists k :: 0 <= k < i && slots[k].nodeName == n
      invariant FreePositions(slots[..i], freeSlots)
    {
      assert slots[..i + 1] == slots[..i] + [slots[i]];
      if allocations[i].nodeName != "" {
        assignedNodes := assignedNodes + {allocations[i].nodeName};
      } else {
        freeSlots := freeSlots + [i];
      }
    }
    assert slots[..allocations.Length] == slots;
  }

  lemma FirstFreeIsFirst(slots: seq<Slot>, free: seq<nat>)
    requires FreePositions(slots, free)
    ensures FirstFree(slots, 0) == if free == [] then |slots| else free[0]
    ensures free != [] ==> free[0] < |slots| && slots[free[0]].nodeName == ""
  {
    var k := FirstFree(slots, 0);
    if k < |slots| {
      assert slots[k].nodeName == "" && k in free;
      var j :| 0 <= j < |free| && free[j] == k;
      assert free[0] <= free[j];
    }
  }

  lemma TakenLeavesRest(slots: seq<Slot>, free: seq<nat>, name: string)
    requires FreePositions(slots, free) && free != [] && free[0] < |slots| && name != ""
    ensures FreePositions(slots[free[0] := slots[free[0]].(nodeName := name)], free[1..])
  {
    var r, rest := slots[free[0] := slots[free[0]].(nodeName := name)], free[1..];
    forall k | 0 <= k < |rest| ensures rest[k] < |r| && r[rest[k]].nodeName == "" {
      assert rest[k] == free[k + 1] && free[0] < free[k + 1];
    }
    forall i | 0 <= i < |r| && r[i].nodeName == "" ensures i in rest {
      assert i != free[0] && slots[i].nodeName == "" && i in free;
      var j :| 0 <= j < |free| && free[j] == i;
      assert rest[j - 1] == i;
    }
  }

  lemma TakenNames(slots: seq<Slot>, k: nat, name: string, n: string)
    requires k < |slots| && slots[k].nodeName == "" && name != ""
    ensures n != "" ==> (HasSlot(slots[k := slots[k].(nodeName := name)], n) <==> n == name || HasSlot(slots, n))
  {
    var r := slots[k := slots[k].(nodeName := name)];
    if n == name {
      assert r[k].nodeName == n;
    } else if n != "" && HasSlot(slots, n) {
      var i :| 0 <= i < |slots| && slots[i].nodeName == n;
      assert r[i].nodeName == n;
    }
  }

  /** What placing one node does to the bookkeeping of the pass. */
  lemma PlacingKeepsBooks(slots: seq<Slot>, free: seq<nat>, known: set<string>, name: string)
    requires FreePositions(slots, free) && name != ""
    requires forall n :: n in known <==> n != "" && HasSlot(slots, n)
    ensures
      var r := Placed(slots, name);
      && (name in known ==> r == slots && HasSlot(r, name))
      && (name !in known && free == [] ==> r == slots && !HasSlot(r, name))
      && (name !in known && free != [] ==>
            && r == slots[free[0] := slots[free[0]].(nodeName := name)] && HasSlot(r, name)
            && FreePositions(r, free[1..]) && forall n :: n in known + {name} <==> n != "" && HasSlot(r, n))
  {
    hide HasSlot, FreePositions, FirstFree;
    assert name in known <==> HasSlot(slots, name);
    FirstFreeIsFirst(slots, free);
    if name !in known && free != [] {
      TakenLeavesRest(slots, free, name);
      TakenNames(slots, free[0], name, name);
      forall n ensures n in known + {name} <==> n != "" && HasSlot(slots[free[0] := slots[free[0]].(nodeName := name)], n) {
        TakenNames(slots, free[0], name, n);
      }
    }
  }

  /** Second half of the pass: give free positions to nodes without a slot. */
  method AssignUnassigned(allocations: array<Slot>, nodes: seq<string>) returns (full: bool)
    requires ValidNodes(nodes)
    modifies allocations
    ensures allocations[..] == Filled(old(allocations[..]), nodes)
    ensures full <==> !AllAssigned(allocations[..], nodes)
  {
    hide FreePositions, HasSlot, AllAssigned, Placed;
    ghost var slots := allocations[..];
    var assignedNodes, freeSlots := CollectSlots(allocations);
    var nextFreeSlot := 0;
    full := false;
    NoneToAssign(slots, nodes);
    for k := 0 to |nodes|
      invariant nextFreeSlot <= |freeSlots|
      invariant allocations[..] == Filled(slots, nodes[..k])
      invariant FreePositions(allocations[..], freeSlots[nextFreeSlot..])
      invariant forall n :: n in assignedNodes <==> n != "" && HasSlot(allocations[..], n)
      invariant full <==> !AllAssigned(allocations[..], nodes[..k])
    {
      ghost var now := allocations[..];
      var nodeName := nodes[k];
      assert nodes[..k + 1][..k] == nodes[..k] && nodeName in nodes;
      PlacingKeepsBooks(now, freeSlots[nextFreeSlot..], assignedNodes, nodeName);
      AssignedGrows(now, nodes, k);
      if nodeName !in assignedNodes {
        if nextFreeSlot < |freeSlots| {
          FreeHeadInRange(now, freeSlots[nextFreeSlot..]);
          allocations[freeSlots[nextFreeSlot]] := allocations[freeSlots[nextFreeSlot]].(nodeName := nodeName);
          assert allocations[..] == Placed(now, nodeName);
          assignedNodes := assignedNodes + {nodeName};
          assert freeSlots[nextFreeSlot..][1..] == freeSlots[nextFreeSlot + 1..];
          nextFreeSlot := nextFreeSlot + 1;
        } else {
          full := true;
        }
      }
    }
    assert nodes[..|nodes|] == nodes;
  }

  lemma NoneToAssign(slots: seq<Slot>, nodes: seq<string>)
    ensures AllAssigned(slots, nodes[..0])
  {
  }

  lemma FreeHeadInRange(slots: seq<Slot>, free: seq<nat>)
    requires FreePositions(slots, free) && free != []
    ensures free[0] < |slots|
  {
  }

  lemma AssignedGrows(slots: seq<Slot>, nodes: seq<string>, k: nat)
    requires k < |nodes| && ValidNodes(nodes)
    ensures
      var r := Placed(slots, nodes[k]);
      AllAssigned(r, nodes[..k + 1]) <==> AllAssigned(slots, nodes[..k]) && HasSlot(r, nodes[k])
  {
    assert nodes[k] in nodes;
    PlacedFacts(slots, nodes[k]);
    assert nodes[..k + 1] == nodes[..k] + [nodes[k]];
    assert nodes[k] !in nodes[..k];
    var r := Placed(slots, nodes[k]);
    forall n | n in nodes[..k] && n != nodes[k] ensures HasSlot(r, n) <==> HasSlot(slots, n) {
      assert n in nodes;
      if HasSlot(r, n) {
        var i :| 0 <= i < |r| && r[i].nodeName == n;
        assert slots[i] == r[i];
      }
    }
  }

  /** ensureNodeAssignments: the array ends as the pass says, and the condition is Ready exactly when
      nothing is blocked and every live node has a slot. It fails exactly when a call fails, and then
      nothing is stored. */
  method EnsureNodeAssignments(store: PoolStore, allocations: array<Slot>, nodes: seq<string>)
    returns (r: Result<Condition, ServerError>)
    requires ValidNodes(nodes)
    modifies store, allocations
    ensures
      var blocked := Blocked(old(allocations[..]), nodes, old(store.pools));
      r.Ok? ==>
        && allocations[..] == Ensured(old(allocations[..]), nodes, blocked)
        && r.value == (if blocked != {} then Reconciling else if AllAssigned(allocations[..], nodes) then Ready else Stalled)
    ensures r.Ok? ==> store.pools == old(store.pools) - Emptied(old(allocations[..]), nodes, old(store.pools))
    ensures forall s: Slot :: InUse(store.pools, s) <==> InUse(old(store.pools), s)
    ensures r.Ok? <==> store.faults == old(store.faults)
  {
    var released := ReleaseDeleted(store, allocations, nodes);
    if released.Err? { return Err(released.error); }
    var full := AssignUnassigned(allocations, nodes);
    r := Ok(if released.value then Reconciling else if full then Stalled else Ready);
  }

  /** The first n positions that a node holds. */
  function UsedSlots(slots: seq<Slot>, n: nat): set<nat>
    requires n <= |slots|
  {
    set k: nat | k < n && slots[k].nodeName != ""
  }

  lemma NoUsedSlots(slots: seq<Slot>)
    ensures UsedSlots(slots, 0) == {}
  {
  }

  lemma NextUsedSlot(slots: seq<Slot>, i: nat)
    requires i < |slots|
    ensures |UsedSlots(slots, i + 1)| == |UsedSlots(slots, i)| + if slots[i].nodeName != "" then 1 else 0
  {
    assert UsedSlots(slots, i + 1) == UsedSlots(slots, i) + if slots[i].nodeName != "" then {i} else {};
  }

  /** computeSliceStats. */
  method ComputeSliceStats(slots: seq<Slot>) returns (total: nat, used: nat, free: nat)
    ensures total == |slots| && used + free == total
    ensures used == |UsedSlots(slots, |slots|)|
  {
    hide UsedSlots;
    total, used := |slots|, 0;
    NoUsedSlots(slots);
    for i := 0 to |slots|
      invariant used == |UsedSlots(slots, i)| && used <= i
    {
      NextUsedSlot(slots, i);
      if slots[i].nodeName != "" {
        used := used + 1;
      }
    }
    free := total - used;
  }
}
