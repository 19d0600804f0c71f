/** Every run of the node-slice reconciler, and why Fast IPAM nodes never collide. */
module NodeSliceRuns {
  import opened Prelude
  import opened Addressing
  import opened RangeDivision
  import opened Allocation
  import opened AllocationLaws
  import opened NodeSlices
  import opened NodeSliceController

  // ---------------------------------------------------------------------
  // Runs
  // ---------------------------------------------------------------------

  /** The range and the slice size as they are written. */
  datatype Spec = Spec(range: string, sliceSize: string)

  /** A stored NodeSlicePool; the condition is None until a status write sets it. */
  datatype Stored = Stored(spec: Spec, slots: seq<Slot>, condition: Option<Condition>)

  /** One reconcile: the configured spec, the division it parses to, the nodes that exist, the per-node
      pools, and which writes and calls fail. */
  datatype Pass = Pass(
    spec: Spec, range: Prefix, bits: nat, nodes: seq<string>, pools: map<Slot, nat>,
    specFails: bool, statusFails: bool, assignFails: bool)

  ghost predicate ValidPass(p: Pass) {
    Divides(p.range, p.bits) && ValidNodes(p.nodes)
  }

  ghost predicate Clean(p: Pass) {
    !p.specFails && !p.statusFails && !p.assignFails
  }

  /** The assignment pass as EnsureNodeAssignments defines it. */
  ghost function AfterEnsure(s: Stored, p: Pass): Stored {
    var blocked := Blocked(s.slots, p.nodes, p.pools);
    var slots := Ensured(s.slots, p.nodes, blocked);
    if p.assignFails then s
    else s.(slots := slots,
            condition := Some(if blocked != {} then Reconciling else if AllAssigned(slots, p.nodes) then Ready else Stalled))
  }

  /** Create, spec change, repair or plain assignment. Any change of the text is a spec change, also one
      that means the same. The spec is written before the status, so a failed status write leaves the
      new spec with the old slots. */
  ghost function AfterPass(stored: Option<Stored>, p: Pass): Option<Stored>
    requires ValidPass(p)
  {
    var subnets := Division(p.range, p.bits);
    var made := Stored(p.spec, Made(subnets, p.nodes), Some(Ready));
    match stored
    case None =>
      if p.specFails then None else Some(if p.statusFails then Stored(p.spec, [], None) else made)
    case Some(s) =>
      if s.spec != p.spec then
        Some(if p.specFails then s else if p.statusFails then s.(spec := p.spec) else made)
      else if !RangesAre(s.slots, subnets) then
        Some(if p.statusFails then s
             else AfterEnsure(s.(slots := Repaired(s.slots, subnets, p.nodes), condition := Some(Ready)), p))
      else Some(AfterEnsure(s, p))
  }

  ghost predicate IsRun(trace: seq<Option<Stored>>, passes: seq<Pass>) {
    && |trace| == |passes| + 1 && trace[0] == None
    && (forall i :: 0 <= i < |passes| ==> ValidPass(passes[i]) && trace[i + 1] == AfterPass(trace[i], passes[i]))
  }

  lemma EnsureKeeps(s: Stored, p: Pass)
    requires ValidPass(p) && UniqueNodes(s.slots)
    ensures UniqueNodes(AfterEnsure(s, p).slots)
    ensures forall subnets :: RangesAre(s.slots, subnets) ==> RangesAre(AfterEnsure(s, p).slots, subnets)
  {
    EnsuredIsSafe(s.slots, p.nodes, Blocked(s.slots, p.nodes, p.pools));
  }

  lemma PassKeepsUnique(stored: Option<Stored>, p: Pass)
    requires ValidPass(p) && (stored.Some? ==> UniqueNodes(stored.value.slots))
    ensures
      var r := AfterPass(stored, p);
      && (r.Some? ==> UniqueNodes(r.value.slots))
      && (Clean(p) ==> r.Some? && r.value.spec == p.spec && RangesAre(r.value.slots, Division(p.range, p.bits)))
  {
    hide Space, Pow2, Ensured, Filled, Freed;
    var subnets := Division(p.range, p.bits);
    MadeIsSafe(subnets, p.nodes);
    if stored.Some? {
      var s := stored.value;
      RepairedIsSafe(s.slots, subnets, p.nodes);
      EnsureKeeps(s, p);
      EnsureKeeps(s.(slots := Repaired(s.slots, subnets, p.nodes), condition := Some(Ready)), p);
    }
  }

  /** In every run of create, spec change, repair and assignment passes, with nodes joining and
      leaving and writes failing at any point, no node ever holds two slots. */
  lemma {:induction false} NoNodeHoldsTwoSlots(trace: seq<Option<Stored>>, passes: seq<Pass>, i: nat)
    requires IsRun(trace, passes) && i < |trace|
    ensures trace[i].Some? ==> UniqueNodes(trace[i].value.slots)
  {
    hide AfterPass, RangesAre, UniqueNodes, ValidNodes, Space, Pow2;
    if i > 0 {
      NoNodeHoldsTwoSlots(trace, passes, i - 1);
      PassKeepsUnique(trace[i - 1], passes[i - 1]);
    }
  }

  /** Whatever happened before, a pass without failures leaves exactly the slots of the division. */
  lemma CleanPassMatchesDivision(trace: seq<Option<Stored>>, passes: seq<Pass>, i: nat)
    requires IsRun(trace, passes) && i < |passes| && Clean(passes[i])
    ensures trace[i + 1].Some? && RangesAre(trace[i + 1].value.slots, Division(passes[i].range, passes[i].bits))
  {
    NoNodeHoldsTwoSlots(trace, passes, i);
    PassKeepsUnique(trace[i], passes[i]);
  }

  /** The slots are the division one of the first i passes asked for. */
  ghost predicate FromPass(slots: seq<Slot>, passes: seq<Pass>, i: nat)
    requires i <= |passes|
  {
    exists j :: 0 <= j < i && ValidPass(passes[j]) && RangesAre(slots, Division(passes[j].range, passes[j].bits))
  }

  /** A pass leaves the ranges of the slots alone or makes them the division it asks for. */
  lemma PassChangesRangesTogether(stored: Option<Stored>, p: Pass, subnets: seq<RawPrefix>)
    requires ValidPass(p) && (stored.Some? ==> UniqueNodes(stored.value.slots))
    requires stored.Some? ==> stored.value.slots == [] || RangesAre(stored.value.slots, subnets)
    ensures
      var r := AfterPass(stored, p);
      r.Some? ==> r.value.slots == [] || RangesAre(r.value.slots, subnets) || RangesAre(r.value.slots, Division(p.range, p.bits))
  {
    hide Space, Pow2, Ensured, Filled, Freed, Blocked;
    var division := Division(p.range, p.bits);
    MadeIsSafe(division, p.nodes);
    if stored.Some? {
      var s := stored.value;
      RepairedIsSafe(s.slots, division, p.nodes);
      EnsureKeeps(s, p);
      EnsureKeeps(s.(slots := Repaired(s.slots, division, p.nodes), condition := Some(Ready)), p);
    }
  }

  /** In every state of every run, whatever writes have failed, the slots are missing or are the complete
      division of the range by an earlier pass. */
  lemma {:induction false} SlotsAreSomeDivision(trace: seq<Option<Stored>>, passes: seq<Pass>, i: nat)
    requires IsRun(trace, passes) && i < |trace|
    ensures trace[i].Some? ==> trace[i].value.slots == [] || FromPass(trace[i].value.slots, passes, i)
  {
    hide AfterPass, RangesAre, UniqueNodes, ValidNodes, Space, Pow2;
    if i > 0 {
      SlotsAreSomeDivision(trace, passes, i - 1);
      NoNodeHoldsTwoSlots(trace, passes, i - 1);
      var subnets := Division(passes[i - 1].range, passes[i - 1].bits);
      if trace[i - 1].Some? && trace[i - 1].value.slots != [] {
        var j :| 0 <= j < i - 1 && ValidPass(passes[j]) && RangesAre(trace[i - 1].value.slots, Division(passes[j].range, passes[j].bits));
        subnets := Division(passes[j].range, passes[j].bits);
      }
      PassChangesRangesTogether(trace[i - 1], passes[i - 1], subnets);
    }
  }

  // ---------------------------------------------------------------------
  // What Ready means
  // ---------------------------------------------------------------------

  ghost predicate ExactlyOneSlot(slots: seq<Slot>, name: string) {
    exists i :: 0 <= i < |slots| && slots[i].nodeName == name
                && forall j :: 0 <= j < |slots| && slots[j].nodeName == name ==> j == i
  }

  /** After an assignment pass the condition is Ready exactly when no deleted node blocks a slot and
      every live node has one; then it has exactly one. */
  lemma ReadyAfterAssignment(s: Stored, p: Pass)
    requires ValidPass(p) && UniqueNodes(s.slots) && !p.assignFails
    ensures
      var r := AfterEnsure(s, p);
      && (r.condition == Some(Ready) <==> Blocked(s.slots, p.nodes, p.pools) == {} && AllAssigned(r.slots, p.nodes))
      && (r.condition == Some(Ready) ==> forall n :: n in p.nodes ==> ExactlyOneSlot(r.slots, n))
  {
    var r := AfterEnsure(s, p);
    EnsureKeeps(s, p);
    hide Ensured, Filled, Freed, AfterEnsure, Blocked, UniqueNodes, ExactlyOneSlot;
    if AllAssigned(r.slots, p.nodes) {
      AssignedOnce(r.slots, p.nodes);
    }
  }

  lemma AssignedOnce(slots: seq<Slot>, nodes: seq<string>)
    requires ValidNodes(nodes) && UniqueNodes(slots) && AllAssigned(slots, nodes)
    ensures forall n :: n in nodes ==> ExactlyOneSlot(slots, n)
  {
  }

  /** The pass creates the pool or changes its spec. */
  ghost predicate Rebuilds(stored: Option<Stored>, p: Pass) {
    stored.None? || stored.value.spec != p.spec
  }

  lemma MadeAssignsAllExactly(subnets: seq<RawPrefix>, nodes: seq<string>)
    requires ValidNodes(nodes)
    ensures AllAssigned(Made(subnets, nodes), nodes) <==> |nodes| <= |subnets|
  {
    var slots := Made(subnets, nodes);
    if |nodes| <= |subnets| {
      forall n | n in nodes ensures HasSlot(slots, n) {
        var i :| 0 <= i < |nodes| && nodes[i] == n;
        assert slots[i].nodeName == n;
      }
    } else {
      var n := nodes[|subnets|];
      assert forall i :: 0 <= i < |slots| ==> slots[i].nodeName != n;
      assert n in nodes && !HasSlot(slots, n);
    }
  }

  lemma ServedExactly(slots: seq<Slot>, nodes: seq<string>)
    requires ValidNodes(nodes) && UniqueNodes(slots)
    ensures AllAssigned(slots, nodes) <==> forall n :: n in nodes ==> ExactlyOneSlot(slots, n)
  {
  }

  /** Whether every live node has a slot after the pass, by what the pass writes last. Newly made slots go
      to the nodes in order; repaired ones are the stored ones, extended by free ones, or newly made; an
      assignment that sets Ready has served everybody; and without a write the stored slots stay. */
  ghost predicate ServedAfter(stored: Option<Stored>, p: Pass)
    requires ValidPass(p)
  {
    var subnets := Division(p.range, p.bits);
    var served := stored.Some? && AllAssigned(stored.value.slots, p.nodes);
    if Rebuilds(stored, p) then
      (if p.specFails || p.statusFails then served else |p.nodes| <= |subnets|)
    else if RangesAre(stored.value.slots, subnets) then
      (if p.assignFails then served else true)
    else if p.statusFails then served
    else if p.assignFails then (if MatchesPrefix(stored.value.slots, subnets) then served else |p.nodes| <= |subnets|)
    else true
  }

  lemma RepairServesExactly(slots: seq<Slot>, subnets: seq<RawPrefix>, nodes: seq<string>)
    requires ValidNodes(nodes)
    ensures AllAssigned(Repaired(slots, subnets, nodes), nodes) <==>
            if MatchesPrefix(slots, subnets) then AllAssigned(slots, nodes) else |nodes| <= |subnets|
  {
    MadeAssignsAllExactly(subnets, nodes);
    var r := Repaired(slots, subnets, nodes);
    if MatchesPrefix(slots, subnets) {
      forall n | n in nodes ensures HasSlot(r, n) <==> HasSlot(slots, n) {
        if HasSlot(slots, n) {
          var i :| 0 <= i < |slots| && slots[i].nodeName == n;
          assert r[i].nodeName == n;
        }
      }
    }
  }

  /** When the stored condition is Ready after a pass, whatever writes of it failed, every live node has
      exactly one slot if and only if ServedAfter says so. */
  lemma ReadyServesAllExactly(stored: Option<Stored>, p: Pass)
    requires ValidPass(p) && (stored.Some? ==> UniqueNodes(stored.value.slots))
    ensures
      var r := AfterPass(stored, p);
      r.Some? && r.value.condition == Some(Ready) ==>
        ((forall n :: n in p.nodes ==> ExactlyOneSlot(r.value.slots, n)) <==> ServedAfter(stored, p))
  {
    hide Made, Ensured, Repaired, MatchesPrefix, UniqueNodes, AllAssigned, RangesAre, ExactlyOneSlot, Blocked, Pow2, Space;
    PassKeepsUnique(stored, p);
    var subnets := Division(p.range, p.bits);
    if AfterPass(stored, p).Some? { ServedExactly(AfterPass(stored, p).value.slots, p.nodes); }
    MadeAssignsAllExactly(subnets, p.nodes);
    if stored.Some? { RepairServesExactly(stored.value.slots, subnets, p.nodes); }
  }

  /** Two nodes, one slice: the new pool is Ready and a node has no slot. */
  lemma ReadyWithoutSlot(p: Prefix, spec: Spec)
    ensures
      var pass := Pass(spec, p, p.bits, ["a", "b"], map[], false, false, false);
      && ValidPass(pass)
      && AfterPass(None, pass).Some? && AfterPass(None, pass).value.condition == Some(Ready)
      && !AllAssigned(AfterPass(None, pass).value.slots, pass.nodes)
  {
    var nodes := ["a", "b"];
    assert "a" != "b";
    assert Pow2(0) == 1;
    MadeAssignsAllExactly(Division(p, p.bits), nodes);
  }

  /** A range split in two, and a third node joins: a further pass leaves the pool Stalled, but if the slice
      size is respelled, as from "25" to "/25", the pool is Ready and the third node has no slot. */
  lemma ReadyAfterRespelling(p: Prefix, spec: Spec, respelled: Spec)
    requires Divides(p, p.bits + 1) && respelled != spec
    ensures
      var create := Pass(spec, p, p.bits + 1, ["a", "b"], map[], false, false, false);
      var join := create.(nodes := ["a", "b", "c"]);
      var change := join.(spec := respelled);
      && ValidPass(create) && ValidPass(join) && ValidPass(change)
      && var s := AfterPass(None, create);
         && s.Some? && AllAssigned(s.value.slots, create.nodes)
         && AfterPass(s, join).Some? && AfterPass(s, join).value.condition == Some(Stalled)
         && AfterPass(s, change).Some? && AfterPass(s, change).value.condition == Some(Ready)
         && !AllAssigned(AfterPass(s, change).value.slots, change.nodes)
  {
    hide Space, Made, Ensured, Filled, Freed, AllAssigned, RangesAre;
    var subnets, nodes := Division(p, p.bits + 1), ["a", "b", "c"];
    assert Pow2(1) == 2 by { assert Pow2(0) == 1; }
    assert "a" != "b" && "a" != "c" && "b" != "c";
    var create := Pass(spec, p, p.bits + 1, ["a", "b"], map[], false, false, false);
    var s := AfterPass(None, create).value;
    MadeAssignsAllExactly(subnets, ["a", "b"]);
    MadeAssignsAllExactly(subnets, nodes);
    MadeIsSafe(subnets, ["a", "b"]);
    NotAllFit(s, create.(nodes := nodes), subnets);
  }

  /** Fewer slots than live nodes: an assignment pass never serves them all. */
  lemma NotAllFit(s: Stored, p: Pass, subnets: seq<RawPrefix>)
    requires ValidPass(p) && UniqueNodes(s.slots) && RangesAre(s.slots, subnets) && |p.nodes| > |subnets| && !p.assignFails
    ensures !AllAssigned(AfterEnsure(s, p).slots, p.nodes)
  {
    hide Ensured, AllAssigned;
    if AllAssigned(AfterEnsure(s, p).slots, p.nodes) {
      AllAssignedNeedSlots(s.slots, p.nodes, Blocked(s.slots, p.nodes, p.pools));
    }
  }

  /** One node, one slice: a pool is created but its status write fails; the next pass repairs the status
      and then fails to assign. The pool is Ready and the node has no slot. */
  lemma ReadyAfterRepairWithoutSlot(p: Prefix, spec: Spec)
    ensures
      var create := Pass(spec, p, p.bits, ["a"], map[], false, true, false);
      var repair := Pass(spec, p, p.bits, ["a"], map[], false, false, true);
      && ValidPass(create) && ValidPass(repair)
      && var r := AfterPass(AfterPass(None, create), repair);
         r.Some? && r.value.condition == Some(Ready) && !AllAssigned(r.value.slots, ["a"])
  {
    var create := Pass(spec, p, p.bits, ["a"], map[], false, true, false);
    var repair := create.(statusFails := false, assignFails := true);
    var s := AfterPass(None, create).value;
    assert Pow2(0) == 1;
    assert !RangesAre(s.slots, Division(p, p.bits));
    RepairServesExactly(s.slots, Division(p, p.bits), ["a"]);
    assert "a" in ["a"] && !HasSlot(s.slots, "a");
  }

  // ---------------------------------------------------------------------
  // Fast IPAM
  // ---------------------------------------------------------------------

  /** The slice of the first slot with the node's name. */
  function NodeSliceRange(slots: seq<Slot>, name: string): Option<RawPrefix> {
    if slots == [] then None
    else if slots[0].nodeName == name then Some(slots[0].sliceRange)
    else NodeSliceRange(slots[1..], name)
  }

  lemma {:induction false} NodeSliceIndex(slots: seq<Slot>, name: string) returns (i: nat)
    requires NodeSliceRange(slots, name).Some?
    ensures i < |slots| && slots[i].nodeName == name && NodeSliceRange(slots, name) == Some(slots[i].sliceRange)
  {
    if slots[0].nodeName == name {
      i := 0;
    } else {
      i := NodeSliceIndex(slots[1..], name);
      i := i + 1;
    }
  }

  /** Addresses newly assigned on two different nodes from one stored NodeSlicePool never coincide,
      whatever the two pools, bounds, excludes and candidates are. */
  lemma FastIPAMDisjoint(p: Prefix, bits: nat, slots: seq<Slot>, node1: string, node2: string,
                         conf1: RangeConfiguration, list1: seq<Reservation>, who1: Requester,
                         conf2: RangeConfiguration, list2: seq<Reservation>, who2: Requester)
    requires Divides(p, bits) && RangesAre(slots, Division(p, bits)) && node1 != node2
    requires conf1.range.Some? && NodeSliceRange(slots, node1) == Some(conf1.range.value)
    requires conf2.range.Some? && NodeSliceRange(slots, node2) == Some(conf2.range.value)
    requires OwnIndex(list1, who1, 0) == |list1| && Assigned(conf1, list1, who1).Ok?
    requires OwnIndex(list2, who2, 0) == |list2| && Assigned(conf2, list2, who2).Ok?
    ensures Assigned(conf1, list1, who1).value.ip != Assigned(conf2, list2, who2).value.ip
  {
    AssignedIsSound(conf1, list1, who1);
    AssignedIsSound(conf2, list2, who2);
    var i := NodeSliceIndex(slots, node1);
    var j := NodeSliceIndex(slots, node2);
    hide Assigned, Space, Pow2, NodeSliceRange;
    var a := Assigned(conf1, list1, who1).value.ip.value;
    if Assigned(conf2, list2, who2).value.ip == Some(a) {
      DivisionDisjoint(p, bits, i, j, a);
      assert false;
    }
  }

  /** So it is in every state a run can reach. */
  lemma FastIPAMDisjointInRuns(trace: seq<Option<Stored>>, passes: seq<Pass>, i: nat, node1: string, node2: string,
                               conf1: RangeConfiguration, list1: seq<Reservation>, who1: Requester,
                               conf2: RangeConfiguration, list2: seq<Reservation>, who2: Requester)
    requires IsRun(trace, passes) && i < |trace| && trace[i].Some? && node1 != node2
    requires conf1.range.Some? && NodeSliceRange(trace[i].value.slots, node1) == Some(conf1.range.value)
    requires conf2.range.Some? && NodeSliceRange(trace[i].value.slots, node2) == Some(conf2.range.value)
    requires OwnIndex(list1, who1, 0) == |list1| && Assigned(conf1, list1, who1).Ok?
    requires OwnIndex(list2, who2, 0) == |list2| && Assigned(conf2, list2, who2).Ok?
    ensures Assigned(conf1, list1, who1).value.ip != Assigned(conf2, list2, who2).value.ip
  {
    hide AfterPass, Assigned, RangesAre, Space, Pow2;
    SlotsAreSomeDivision(trace, passes, i);
    var slots := trace[i].value.slots;
    var j :| 0 <= j < i && ValidPass(passes[j]) && RangesAre(slots, Division(passes[j].range, passes[j].bits));
    FastIPAMDisjoint(passes[j].range, passes[j].bits, slots, node1, node2, conf1, list1, who1, conf2, list2, who2);
  }
}
