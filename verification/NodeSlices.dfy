/** Assigning slices of a range to nodes (internal/controller/nodeslice_controller.go). */
module NodeSlices {
  import opened Prelude
  import opened Addressing

  /** One slice and the node that holds it; an empty name means free. */
  datatype Slot = Slot(nodeName: string, sliceRange: RawPrefix)

  // ---------------------------------------------------------------------
  // What the passes compute
  // ---------------------------------------------------------------------

  /** Fresh slots, the nodes in order from the front. */
  function Made(subnets: seq<RawPrefix>, nodes: seq<string>): (slots: seq<Slot>)
    ensures |slots| == |subnets|
    ensures forall i :: 0 <= i < |slots| ==> slots[i] == Slot(if i < |nodes| then nodes[i] else "", subnets[i])
  {
    seq(|subnets|, i requires 0 <= i < |subnets| => Slot(if i < |nodes| then nodes[i] else "", subnets[i]))
  }

  predicate RangesAre(slots: seq<Slot>, subnets: seq<RawPrefix>) {
    |slots| == |subnets| && forall i :: 0 <= i < |slots| ==> slots[i].sliceRange == subnets[i]
  }

  predicate MatchesPrefix(slots: seq<Slot>, subnets: seq<RawPrefix>) {
    |slots| <= |subnets| && forall i :: 0 <= i < |slots| ==> slots[i].sliceRange == subnets[i]
  }

  /** Slots that agree with a prefix of the division are extended; any others are rebuilt. */
  function Repaired(slots: seq<Slot>, subnets: seq<RawPrefix>, nodes: seq<string>): seq<Slot> {
    if MatchesPrefix(slots, subnets) then slots + Made(subnets[|slots|..], []) else Made(subnets, nodes)
  }

  predicate Gone(name: string, nodes: seq<string>) {
    name != "" && name !in nodes
  }

  /** Slots of deleted nodes are freed unless their per-node pool still blocks them. */
  function Freed(slots: seq<Slot>, nodes: seq<string>, blocked: set<nat>): (r: seq<Slot>)
    ensures |r| == |slots|
    ensures forall i :: 0 <= i < |r| ==>
      r[i] == if Gone(slots[i].nodeName, nodes) && i !in blocked then slots[i].(nodeName := "") else slots[i]
  {
    seq(|slots|, i requires 0 <= i < |slots| =>
      if Gone(slots[i].nodeName, nodes) && i !in blocked then slots[i].(nodeName := "") else slots[i])
  }

  predicate HasSlot(slots: seq<Slot>, name: string) {
    exists i :: 0 <= i < |slots| && slots[i].nodeName == name
  }

  function FirstFree(slots: seq<Slot>, i: nat): (k: nat)
    requires i <= |slots|
    ensures i <= k <= |slots|
    ensures k < |slots| ==> slots[k].nodeName == ""
    ensures forall j :: i <= j < k ==> slots[j].nodeName != ""
    decreases |slots| - i
  {
    if i == |slots| || slots[i].nodeName == "" then i else FirstFree(slots, i + 1)
  }

  /** One node: it keeps its slot or gets the first free one. */
  function Placed(slots: seq<Slot>, name: string): seq<Slot> {
    var k := FirstFree(slots, 0);
    if HasSlot(slots, name) || k == |slots| then slots else slots[k := slots[k].(nodeName := name)]
  }

  /** All nodes, in order. */
  function Filled(slots: seq<Slot>, nodes: seq<string>): (r: seq<Slot>)
    ensures |r| == |slots|
  {
    if nodes == [] then slots else Placed(Filled(slots, nodes[..|nodes| - 1]), nodes[|nodes| - 1])
  }

  /** The slots after an assignment pass. */
  function Ensured(slots: seq<Slot>, nodes: seq<string>, blocked: set<nat>): seq<Slot> {
    Filled(Freed(slots, nodes, blocked), nodes)
  }

  ghost predicate ValidNodes(nodes: seq<string>) {
    Distinct(nodes) && "" !in nodes
  }

  /** No node holds two slots. */
  ghost predicate UniqueNodes(slots: seq<Slot>) {
    forall i, j :: 0 <= i < j < |slots| && slots[i].nodeName != "" ==> slots[i].nodeName != slots[j].nodeName
  }

  ghost predicate AllAssigned(slots: seq<Slot>, nodes: seq<string>) {
    forall n :: n in nodes ==> HasSlot(slots, n)
  }

  // ---------------------------------------------------------------------
  // Laws of the assignment pass
  // ---------------------------------------------------------------------

  lemma PlacedFacts(slots: seq<Slot>, name: string)
    requires name != ""
    ensures
      var r := Placed(slots, name);
      && |r| == |slots| && (UniqueNodes(slots) ==> UniqueNodes(r))
      && (forall i :: 0 <= i < |slots| ==> r[i].sliceRange == slots[i].sliceRange)
      && (forall i :: 0 <= i < |slots| && slots[i].nodeName != "" ==> r[i] == slots[i])
      && (forall i :: 0 <= i < |slots| && r[i] != slots[i] ==> r[i].nodeName == name)
      && (HasSlot(r, name) || forall i :: 0 <= i < |r| ==> r[i].nodeName != "")
      && (forall n :: n != "" && HasSlot(slots, n) ==> HasSlot(r, n))
  {
  }

  lemma {:induction false} FilledFacts(slots: seq<Slot>, nodes: seq<string>)
    requires UniqueNodes(slots) && "" !in nodes
    ensures
      var r := Filled(slots, nodes);
      && UniqueNodes(r)
      && (forall i :: 0 <= i < |slots| ==> r[i].sliceRange == slots[i].sliceRange)
      && (forall i :: 0 <= i < |slots| && slots[i].nodeName != "" ==> r[i] == slots[i])
      && (forall i :: 0 <= i < |slots| && r[i] != slots[i] ==> r[i].nodeName in nodes)
      && (AllAssigned(r, nodes) || forall i :: 0 <= i < |r| ==> r[i].nodeName != "")
  {
    if nodes != [] {
      var init, last := nodes[..|nodes| - 1], nodes[|nodes| - 1];
      FilledFacts(slots, init);
      assert nodes == init + [last];
      PlacedFacts(Filled(slots, init), last);
      hide Filled, Placed, HasSlot;
    }
  }

  /** An assignment pass keeps the slice ranges and never gives a node two slots; it never moves a
      live node; a deleted node's slot changes hands only if it is not blocked; and if a live node is
      left without a slot then no free slot remains. */
  lemma EnsuredIsSafe(slots: seq<Slot>, nodes: seq<string>, blocked: set<nat>)
    requires UniqueNodes(slots) && ValidNodes(nodes)
    ensures
      var r := Ensured(slots, nodes, blocked);
      && |r| == |slots| && UniqueNodes(r)
      && (forall i :: 0 <= i < |slots| ==> r[i].sliceRange == slots[i].sliceRange)
      && (forall i :: 0 <= i < |slots| && slots[i].nodeName in nodes ==> r[i].nodeName == slots[i].nodeName)
      && (forall i :: 0 <= i < |slots| && Gone(slots[i].nodeName, nodes) ==>
            if i in blocked then r[i] == slots[i] else r[i].nodeName in nodes || r[i].nodeName == "")
      && (AllAssigned(r, nodes) || forall i :: 0 <= i < |r| ==> r[i].nodeName != "")
  {
    var freed := Freed(slots, nodes, blocked);
    assert UniqueNodes(freed);
    FilledFacts(freed, nodes);
    hide Filled, HasSlot;
  }

  /** Names at different positions of a set of positions are as many as the positions. */
  lemma {:induction false} NamesOf(slots: seq<Slot>, at: set<nat>)
    requires UniqueNodes(slots) && forall i :: i in at ==> i < |slots| && slots[i].nodeName != ""
    ensures |set i | i in at :: slots[i].nodeName| == |at|
    decreases |at|
  {
    if at != {} {
      var k :| k in at;
      var rest := at - {k};
      NamesOf(slots, rest);
      var names := set i | i in rest :: slots[i].nodeName;
      assert (set i | i in at :: slots[i].nodeName) == names + {slots[k].nodeName};
      assert slots[k].nodeName !in names;
    }
  }

  /** The slots a pass can give to live nodes: all but the blocked ones of deleted nodes. */
  ghost function Available(slots: seq<Slot>, nodes: seq<string>, blocked: set<nat>): set<nat> {
    set i | 0 <= i < |slots| && !(Gone(slots[i].nodeName, nodes) && i in blocked)
  }

  /** If at least as many slots are available as there are live nodes, every live node has one. */
  lemma EnoughSlotsAssignAll(slots: seq<Slot>, nodes: seq<string>, blocked: set<nat>)
    requires UniqueNodes(slots) && ValidNodes(nodes)
    requires |Available(slots, nodes, blocked)| >= |nodes|
    ensures AllAssigned(Ensured(slots, nodes, blocked), nodes)
  {
    var r := Ensured(slots, nodes, blocked);
    EnsuredIsSafe(slots, nodes, blocked);
    hide Ensured;
    if !AllAssigned(r, nodes) {
      var n :| n in nodes && !HasSlot(r, n);
      var free := Available(slots, nodes, blocked);
      var names := set i | i in free :: r[i].nodeName;
      var all := set x | x in nodes;
      NamesOf(r, free);
      DistinctSize(nodes);
      assert n !in names;
      forall i | i in free ensures r[i].nodeName in nodes {
        EnsuredFromNodes(slots, nodes, blocked, i);
      }
      SubsetSize(names, all - {n});
      assert false;
    }
  }

  /** And if every live node has a slot, there were as many available. */
  lemma AllAssignedNeedSlots(slots: seq<Slot>, nodes: seq<string>, blocked: set<nat>)
    requires UniqueNodes(slots) && ValidNodes(nodes) && AllAssigned(Ensured(slots, nodes, blocked), nodes)
    ensures |slots| >= |Available(slots, nodes, blocked)| >= |nodes|
  {
    var r := Ensured(slots, nodes, blocked);
    EnsuredIsSafe(slots, nodes, blocked);
    hide Ensured, AllAssigned, UniqueNodes;
    var used := UsedBy(r, nodes);
    UsedSize(r, nodes);
    SubsetSize(used, Available(slots, nodes, blocked));
    BoundedSize(Available(slots, nodes, blocked), |slots|);
  }

  /** The slots that live nodes hold. */
  ghost function UsedBy(slots: seq<Slot>, nodes: seq<string>): set<nat> {
    set i | 0 <= i < |slots| && slots[i].nodeName in nodes
  }

  lemma UsedSize(slots: seq<Slot>, nodes: seq<string>)
    requires UniqueNodes(slots) && ValidNodes(nodes) && AllAssigned(slots, nodes)
    ensures |UsedBy(slots, nodes)| == |nodes|
  {
    var used := UsedBy(slots, nodes);
    NamesOf(slots, used);
    DistinctSize(nodes);
    hide UniqueNodes, Distinct;
    var names, all := set i | i in used :: slots[i].nodeName, set x | x in nodes;
    forall n | n in all ensures n in names {
      assert HasSlot(slots, n);
      var i :| 0 <= i < |slots| && slots[i].nodeName == n;
      assert i in used;
    }
    assert names == all;
  }

  lemma {:induction false} BoundedSize(at: set<nat>, n: nat)
    requires forall i :: i in at ==> i < n
    ensures |at| <= n
  {
    if n == 0 {
      assert at == {};
    } else {
      BoundedSize(at - {n - 1}, n - 1);
    }
  }

  /** A slot that is not held back ends up free or with a live node. */
  lemma EnsuredFromNodes(slots: seq<Slot>, nodes: seq<string>, blocked: set<nat>, i: nat)
    requires UniqueNodes(slots) && ValidNodes(nodes) && i in Available(slots, nodes, blocked)
    ensures Ensured(slots, nodes, blocked)[i].nodeName == "" || Ensured(slots, nodes, blocked)[i].nodeName in nodes
  {
    var freed := Freed(slots, nodes, blocked);
    assert UniqueNodes(freed);
    FilledFacts(freed, nodes);
  }

  lemma MadeIsSafe(subnets: seq<RawPrefix>, nodes: seq<string>)
    requires ValidNodes(nodes)
    ensures UniqueNodes(Made(subnets, nodes)) && RangesAre(Made(subnets, nodes), subnets)
  {
  }

  lemma RepairedIsSafe(slots: seq<Slot>, subnets: seq<RawPrefix>, nodes: seq<string>)
    requires ValidNodes(nodes) && UniqueNodes(slots)
    ensures UniqueNodes(Repaired(slots, subnets, nodes)) && RangesAre(Repaired(slots, subnets, nodes), subnets)
  {
  }
}
