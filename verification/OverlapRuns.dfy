/** Particular runs: holds come about, and what the exclusion theorem would not survive. */
module OverlapRuns {
  import opened Prelude
  import opened Codec
  import opened OverlapProtocol

  // ---------------------------------------------------------------------
  // Building runs
  // ---------------------------------------------------------------------

  ghost predicate Moves(w: World, s: State, step: Step, s': State) {
    May(w, s, step) && s' == After(w, s, step)
  }

  /** The steps lead from the one state to the other. */
  ghost predicate Leads(w: World, s: State, steps: seq<Step>, s': State) {
    exists trace :: IsPath(w, trace, steps) && trace[0] == s && trace[|steps|] == s'
  }

  lemma TraceOf(w: World, s: State, steps: seq<Step>, s': State) returns (trace: seq<State>)
    requires Leads(w, s, steps, s')
    ensures IsPath(w, trace, steps) && trace[0] == s && trace[|steps|] == s'
  {
    trace :| IsPath(w, trace, steps) && trace[0] == s && trace[|steps|] == s';
  }

  lemma LeadsOne(w: World, s: State, step: Step, s': State)
    requires Moves(w, s, step, s')
    ensures Leads(w, s, [step], s')
  {
    hide May, After;
    var trace := [s, s'];
    assert IsPath(w, trace, [step]);
  }

  lemma LeadsOn(w: World, s: State, steps: seq<Step>, s': State, more: seq<Step>, s'': State)
    requires Leads(w, s, steps, s') && Leads(w, s', more, s'')
    ensures Leads(w, s, steps + more, s'')
  {
    hide May, After;
    var t :| IsPath(w, t, steps) && t[0] == s && t[|steps|] == s';
    var t' :| IsPath(w, t', more) && t'[0] == s' && t'[|more|] == s'';
    var all := t + t'[1..];
    forall i | 0 <= i < |steps + more|
      ensures May(w, all[i], (steps + more)[i]) && all[i + 1] == After(w, all[i], (steps + more)[i])
    {
      if i >= |steps| {
        assert all[i] == t'[i - |steps|] && all[i + 1] == t'[i + 1 - |steps|] && (steps + more)[i] == more[i - |steps|];
      } else {
        assert all[i] == t[i] && all[i + 1] == t[i + 1] && (steps + more)[i] == steps[i];
      }
    }
    assert IsPath(w, all, steps + more);
  }

  /** Several single steps. */
  lemma LeadsAlong(w: World, trace: seq<State>, steps: seq<Step>)
    requires |trace| == |steps| + 1 && forall i :: 0 <= i < |steps| ==> Moves(w, trace[i], steps[i], trace[i + 1])
    ensures Leads(w, trace[0], steps, trace[|steps|])
  {
    hide May, After;
    forall i | 0 <= i < |steps| ensures May(w, trace[i], steps[i]) && trace[i + 1] == After(w, trace[i], steps[i]) {
      assert Moves(w, trace[i], steps[i], trace[i + 1]);
    }
    assert IsPath(w, trace, steps);
  }

  lemma LeadsThree(w: World, s: State, e1: Step, s1: State, e2: Step, s2: State, e3: Step, s3: State)
    requires Moves(w, s, e1, s1) && Moves(w, s1, e2, s2) && Moves(w, s2, e3, s3)
    ensures Leads(w, s, [e1, e2, e3], s3)
  {
    hide Moves;
    LeadsAlong(w, [s, s1, s2, s3], [e1, e2, e3]);
  }

  lemma LeadsTwo(w: World, s: State, e1: Step, s1: State, e2: Step, s2: State)
    requires Moves(w, s, e1, s1) && Moves(w, s1, e2, s2)
    ensures Leads(w, s, [e1, e2], s2)
  {
    hide Moves;
    LeadsAlong(w, [s, s1, s2], [e1, e2]);
  }

  lemma OpsFacts(ops: map<string, Op>, u: string, x: Op, y: Op)
    ensures ops[u := x][u := y] == ops[u := y]
    ensures u !in ops ==> ops[u := y] - {u} == ops
  {
  }

  // ---------------------------------------------------------------------
  // An undisturbed first ADD of one range
  // ---------------------------------------------------------------------

  ghost predicate OneRange(w: World, s: State, u: string) {
    u in w.pods && |w.pods[u].ranges| == 1 && w.pods[u].ranges[0] in s.pools
  }

  /** The pod is live and idle, its pool has nothing of it, and the address is free. */
  ghost predicate CanTake(w: World, s: State, u: string, c: string, a: Address) {
    && OneRange(w, s, u) && u in s.live && u !in s.ops && u !in s.holds && c in w.containerOf && w.containerOf[c] == u
    && a !in s.orips && a !in s.pools[w.pods[u].ranges[0]].content
    && forall b :: b in s.pools[w.pods[u].ranges[0]].content ==> !OwnedByPod(s.pools[w.pods[u].ranges[0]].content[b], w.pods[u])
  }

  ghost function AddSteps(u: string, c: string, a: Address): seq<Step> {
    [Adding(u, AddStart(c)), Adding(u, AddFetch), Adding(u, AddChoose(a, false)), Adding(u, AddWrite), Adding(u, AddReserve(false))]
  }

  /** Entry, reservation and hold are there; nothing else has changed. */
  ghost function Held(w: World, s: State, u: string, c: string, a: Address): State
    requires OneRange(w, s, u)
  {
    var id, p := w.pods[u].ranges[0], w.pods[u];
    Store(s, id, s.pools[id].content[a := Entry(p, c)]).(
      orips := s.orips[a := Orip(p.podRef, p.ifName, u)], holds := s.holds[u := Hold(c, {a})])
  }

  lemma FreeMayBeTaken(w: World, s: State, u: string, c: string, a: Address)
    requires CanTake(w, s, u, c, a)
    ensures MayChoose(w.pods[u], s.pools[w.pods[u].ranges[0]].content, {}, a)
  {
  }

  lemma HeldIs(w: World, s: State, u: string, c: string, a: Address)
    requires CanTake(w, s, u, c, a)
    ensures
      var op, p := Add(c, 0, {}, {}, {}, [], Fetch), w.pods[u];
      var last := Written(w, SetOp(s, u, op), u, op, a);
      && last.ops == s.ops[u := op.(phase := Reserve(Choice(s.pools[p.ranges[0]], a, true, true)))]
      && last.(ops := s.ops, orips := s.orips[a := Orip(p.podRef, p.ifName, u)], holds := s.holds[u := Hold(c, {a})]) == Held(w, s, u, c, a)
  {
    var op := Add(c, 0, {}, {}, {}, [], Fetch);
    OpsFacts(s.ops, u, op, op.(phase := Reserve(Choice(s.pools[w.pods[u].ranges[0]], a, true, true))));
  }

  lemma AddStepsAre(u: string, c: string, a: Address)
    ensures [Adding(u, AddStart(c))] + WriteSteps(u, a) + [Adding(u, AddReserve(false))] == AddSteps(u, c, a)
  {
  }

  lemma AddLeads(w: World, s: State, u: string, c: string, a: Address)
    requires CanTake(w, s, u, c, a)
    ensures Leads(w, s, AddSteps(u, c, a), Held(w, s, u, c, a))
  {
    hide May, After, Moves, Leads, MayChoose, Held, AddSteps;
    var id := w.pods[u].ranges[0];
    var op := Add(c, 0, {}, {}, {}, [], Fetch);
    var s1 := SetOp(s, u, op);
    var last, done := Written(w, s1, u, op, a), Held(w, s, u, c, a);
    FreeMayBeTaken(w, s, u, c, a);
    StartMoves(w, s, u, c);
    WriteLeads(w, s1, u, op, a);
    HeldIs(w, s, u, c, a);
    EndMoves(w, last, u, op.(phase := Reserve(Choice(s.pools[id], a, true, true))), s.ops, Hold(c, {a}));
    LeadsOne(w, s, Adding(u, AddStart(c)), s1);
    LeadsOne(w, last, Adding(u, AddReserve(false)), done);
    LeadsOn(w, s, [Adding(u, AddStart(c))], s1, WriteSteps(u, a), last);
    LeadsOn(w, s, [Adding(u, AddStart(c))] + WriteSteps(u, a), last, [Adding(u, AddReserve(false))], done);
    AddStepsAre(u, c, a);
  }

  // ---------------------------------------------------------------------
  // Single steps of an ADD
  // ---------------------------------------------------------------------

  /** The operation is an ADD at a range whose pool exists. */
  ghost predicate Working(w: World, s: State, u: string, op: Op) {
    && u in w.pods && u in s.ops && s.ops[u] == op && op.Add?
    && op.idx < |w.pods[u].ranges| && w.pods[u].ranges[op.idx] in s.pools
  }

  lemma StartMoves(w: World, s: State, u: string, c: string)
    requires u in w.pods && w.pods[u].ranges != [] && u in s.live && u !in s.ops && c in w.containerOf && w.containerOf[c] == u
    ensures Moves(w, s, Adding(u, AddStart(c)), SetOp(s, u, Add(c, 0, {}, {}, {}, [], Fetch)))
  {
  }

  lemma FetchMoves(w: World, s: State, u: string, op: Op)
    requires Working(w, s, u, op) && op.phase.Fetch?
    ensures Moves(w, s, Adding(u, AddFetch), SetOp(s, u, op.(phase := Choose(s.pools[w.pods[u].ranges[op.idx]]))))
  {
  }

  lemma FreeMoves(w: World, s: State, u: string, op: Op, b: Address)
    requires Working(w, s, u, op) && op.phase.Choose? && b !in s.orips && MayChoose(w.pods[u], op.phase.snap.content, op.taken, b)
    ensures Moves(w, s, Adding(u, AddChoose(b, false)),
                  SetOp(s, u, op.(phase := WritePool(Choice(op.phase.snap, b, b !in op.phase.snap.content, true)))))
  {
    hide MayChoose;
  }

  lemma WriteMoves(w: World, s: State, u: string, op: Op)
    requires Working(w, s, u, op) && op.phase.WritePool? && op.phase.choice.reserve && u !in s.holds
    requires op.phase.choice.snap == s.pools[w.pods[u].ranges[op.idx]]
    ensures
      var id, c := w.pods[u].ranges[op.idx], op.phase.choice;
      Moves(w, s, Adding(u, AddWrite),
            SetOp(Store(s, id, s.pools[id].content[c.addr := Entry(w.pods[u], op.containerID)]), u, op.(phase := Reserve(c))))
  {
  }

  /** The last range is reserved, and the ADD ends with the given hold. */
  lemma EndMoves(w: World, s: State, u: string, op: Op, ops: map<string, Op>, h: Hold)
    requires Working(w, s, u, op) && op.phase.Reserve? && op.idx + 1 == |w.pods[u].ranges|
    requires u in s.live && u !in s.holds && u !in ops && s.ops == ops[u := op] && op.phase.choice.addr !in s.orips
    requires h == Hold(op.containerID, op.got + {op.phase.choice.addr} - op.fell)
    ensures
      var p, a := w.pods[u], op.phase.choice.addr;
      Moves(w, s, Adding(u, AddReserve(false)),
            s.(ops := ops, orips := s.orips[a := Orip(p.podRef, p.ifName, u)], holds := s.holds[u := h]))
  {
    assert s.ops - {u} == ops;
  }

  ghost function WriteSteps(u: string, b: Address): seq<Step> {
    [Adding(u, AddFetch), Adding(u, AddChoose(b, false)), Adding(u, AddWrite)]
  }

  /** The operation has written an entry for an unreserved address. */
  ghost function Written(w: World, s: State, u: string, op: Op, b: Address): State
    requires op.Add? && u in w.pods && op.idx < |w.pods[u].ranges| && w.pods[u].ranges[op.idx] in s.pools
  {
    var id := w.pods[u].ranges[op.idx];
    var choice := Choice(s.pools[id], b, b !in s.pools[id].content, true);
    SetOp(Store(s, id, s.pools[id].content[b := Entry(w.pods[u], op.containerID)]), u, op.(phase := Reserve(choice)))
  }

  lemma WriteLeads(w: World, s: State, u: string, op: Op, b: Address)
    requires Working(w, s, u, op) && op.phase.Fetch? && u !in s.holds && b !in s.orips
    requires MayChoose(w.pods[u], s.pools[w.pods[u].ranges[op.idx]].content, op.taken, b)
    ensures Leads(w, s, WriteSteps(u, b), Written(w, s, u, op, b))
  {
    hide May, After, Moves, Leads, MayChoose;
    var pool := s.pools[w.pods[u].ranges[op.idx]];
    var op1, op2 := op.(phase := Choose(pool)), op.(phase := WritePool(Choice(pool, b, b !in pool.content, true)));
    var s1, s2 := SetOp(s, u, op1), SetOp(s, u, op2);
    FetchMoves(w, s, u, op);
    FreeMoves(w, s1, u, op1, b);
    OpsFacts(s.ops, u, op1, op2);
    WriteMoves(w, s2, u, op2);
    OpsFacts(s.ops, u, op2, op.(phase := Reserve(Choice(pool, b, b !in pool.content, true))));
    LeadsThree(w, s, Adding(u, AddFetch), s1, Adding(u, AddChoose(b, false)), s2, Adding(u, AddWrite), Written(w, s, u, op, b));
  }

  lemma PodStartMoves(w: World, s: State, u: string, live: set<string>)
    requires u in w.pods && u !in s.live && u !in s.gone && live == s.live + {u}
    requires forall v :: v in s.live && v in w.pods ==> w.pods[v].podRef != w.pods[u].podRef
    ensures Moves(w, s, Life(u, PodStart), s.(live := live))
  {
  }

  lemma PodStopMoves(w: World, s: State, u: string, live: set<string>)
    requires u in s.live && u !in s.holds && live == s.live - {u}
    ensures Moves(w, s, Life(u, PodStop), s.(live := live, gone := s.gone + {u}))
  {
    assert s.holds - {u} == s.holds;
  }

  lemma StartLeads(w: World, s: State, u: string)
    requires u in w.pods && u !in s.live && u !in s.gone && forall v :: v in s.live && v in w.pods ==> w.pods[v].podRef != w.pods[u].podRef
    ensures Leads(w, s, [Life(u, PodStart)], s.(live := s.live + {u}))
  {
    hide May, After, Moves, Leads;
    PodStartMoves(w, s, u, s.live + {u});
    LeadsOne(w, s, Life(u, PodStart), s.(live := s.live + {u}));
  }

  /** Holds do come about: a run in which a pod's first ADD ends with any given address held. */
  lemma HoldsAreReachable(w: World, s0: State, u: string, c: string, a: Address) returns (trace: seq<State>, steps: seq<Step>)
    requires Init(w, s0) && u in w.pods && |w.pods[u].ranges| == 1 && c in w.containerOf && w.containerOf[c] == u
    ensures IsRun(w, trace, steps) && u in trace[|steps|].holds && trace[|steps|].holds[u] == Hold(c, {a})
  {
    hide May, After;
    assert w.pods[u].ranges[0] in s0.pools;
    var s1 := s0.(live := s0.live + {u});
    StartLeads(w, s0, u);
    AddLeads(w, s1, u, c, a);
    steps := [Life(u, PodStart)] + AddSteps(u, c, a);
    LeadsOn(w, s0, [Life(u, PodStart)], s1, AddSteps(u, c, a), Held(w, s1, u, c, a));
    trace := TraceOf(w, s0, steps, Held(w, s1, u, c, a));
  }

  // ---------------------------------------------------------------------
  // An ADD that outlives its pod
  // ---------------------------------------------------------------------

  /** Two pods of the same name, one after the other, on pool 0, and a third pod on pool 1. */
  ghost function LateWorld(): World {
    World(map["u1" := Pod("p", "net1", [0]), "u2" := Pod("p", "net1", [0]), "u3" := Pod("q", "net1", [1])],
          map["c1" := "u1", "c2" := "u2", "c3" := "u3"])
  }

  ghost function Empty(pools: map<nat, Pool>): State {
    State(pools, map[], {}, {}, map[], map[])
  }

  ghost function TwoPools(): map<nat, Pool> {
    map[0 := Pool(0, map[]), 1 := Pool(0, map[])]
  }

  /** The old pod's ADD has read its pool when the pod is replaced. */
  ghost function Replaced(): State {
    var op := Add("c1", 0, {}, {}, {}, [], Choose(Pool(0, map[])));
    Empty(TwoPools()).(live := {"u2"}, gone := {"u1"}, ops := map["u1" := op])
  }

  ghost function ReplacingSteps(): seq<Step> {
    [Life("u1", PodStart), Adding("u1", AddStart("c1")), Adding("u1", AddFetch), Life("u1", PodStop), Life("u2", PodStart)]
  }

  lemma ReplacingLeads()
    ensures Leads(LateWorld(), Empty(TwoPools()), ReplacingSteps(), Replaced())
  {
    hide May, After, Moves, Leads;
    var w, s0 := LateWorld(), Empty(TwoPools());
    var op := Add("c1", 0, {}, {}, {}, [], Fetch);
    var s1 := s0.(live := {"u1"});
    var s2, s3 := SetOp(s1, "u1", op), SetOp(s1, "u1", op.(phase := Choose(Pool(0, map[]))));
    var s4 := s3.(live := {}, gone := {"u1"});
    PodStartMoves(w, s0, "u1", {"u1"});
    StartMoves(w, s1, "u1", "c1");
    FetchMoves(w, s2, "u1", op);
    OpsFacts(s1.ops, "u1", op, op.(phase := Choose(Pool(0, map[]))));
    PodStopMoves(w, s3, "u1", {});
    PodStartMoves(w, s4, "u2", {"u2"});
    LeadsAlong(w, [s0, s1, s2, s3, s4, Replaced()], ReplacingSteps());
  }

  ghost function DroppingSteps(a: Address): seq<Step> {
    [Adding("u1", AddChoose(a, false)), Adding("u1", AddDropStale), Life("u3", PodStart)]
  }

  /** The old ADD takes the new pod's reservation for a stale one. */
  ghost function Dropped(s: State, a: Address): State {
    var op := Add("c1", 0, {}, {}, {}, [], WritePool(Choice(Pool(0, map[]), a, true, true)));
    s.(orips := map[], ops := map["u1" := op], live := {"u2", "u3"})
  }

  /** An ADD that finds a reservation of another pod of its name deletes it. */
  lemma StaleDropped(w: World, s: State, u: string, op: Op, a: Address)
    requires OneRange(w, s, u) && u in s.ops && s.ops[u] == op && op.Add? && op.idx == 0 && op.phase.Choose? && a !in op.taken
    requires op.phase.snap.content == map[]
    requires a in s.orips && !Foreign(w.pods[u], s.orips[a]) && s.orips[a].podUID != u
    ensures
      var choice := Choice(op.phase.snap, a, true, true);
      var s1 := SetOp(s, u, op.(phase := DropStale(choice, s.orips[a].podUID)));
      && Moves(w, s, Adding(u, AddChoose(a, false)), s1)
      && Moves(w, s1, Adding(u, AddDropStale), SetOp(s, u, op.(phase := WritePool(choice))).(orips := s.orips - {a}))
  {
  }

  lemma DroppingLeads(a: Address)
    ensures
      var s := Held(LateWorld(), Replaced(), "u2", "c2", a);
      Leads(LateWorld(), s, DroppingSteps(a), Dropped(s, a))
  {
    hide May, After, Moves, Leads;
    var w := LateWorld();
    var s := Held(w, Replaced(), "u2", "c2", a);
    var op := Add("c1", 0, {}, {}, {}, [], Choose(Pool(0, map[])));
    StaleDropped(w, s, "u1", op, a);
    var choice := Choice(Pool(0, map[]), a, true, true);
    var s1 := SetOp(s, "u1", op.(phase := DropStale(choice, "u2")));
    var s2 := SetOp(s, "u1", op.(phase := WritePool(choice))).(orips := s.orips - {a});
    assert s2.orips == map[] && s2.ops == Dropped(s, a).ops;
    PodStartMoves(w, s2, "u3", {"u2", "u3"});
    LeadsThree(w, s, Adding("u1", AddChoose(a, false)), s1, Adding("u1", AddDropStale), s2, Life("u3", PodStart), Dropped(s, a));
  }

  lemma SecondCanTake(a: Address)
    ensures CanTake(LateWorld(), Replaced(), "u2", "c2", a)
  {
  }

  lemma ThirdCanTake(a: Address)
    ensures OneRange(LateWorld(), Replaced(), "u2")
    ensures CanTake(LateWorld(), Dropped(Held(LateWorld(), Replaced(), "u2", "c2", a), a), "u3", "c3", a)
  {
  }

  /** The state after both pods have got the address. */
  ghost function BothHold(a: Address): State {
    ThirdCanTake(a);
    Held(LateWorld(), Dropped(Held(LateWorld(), Replaced(), "u2", "c2", a), a), "u3", "c3", a)
  }

  lemma LastLeads(a: Address)
    ensures OneRange(LateWorld(), Replaced(), "u2")
    ensures Leads(LateWorld(), Dropped(Held(LateWorld(), Replaced(), "u2", "c2", a), a), AddSteps("u3", "c3", a), BothHold(a))
  {
    hide CanTake, Leads, AddSteps, Replaced, Dropped, Held, OneRange, LateWorld;
    ThirdCanTake(a);
    AddLeads(LateWorld(), Dropped(Held(LateWorld(), Replaced(), "u2", "c2", a), a), "u3", "c3", a);
  }

  lemma BothDoHold(a: Address)
    ensures Init(LateWorld(), Empty(TwoPools()))
    ensures
      var s := BothHold(a);
      && "u2" in s.live && "u3" in s.live && "u2" in s.holds && "u3" in s.holds
      && a in s.holds["u2"].addrs && a in s.holds["u3"].addrs
  {
  }

  /** A pod is replaced while its ADD is in flight. The ADD deletes the new pod's reservation, a third
      pod reserves the address through another pool, and two live pods hold the same address. */
  lemma LateAddBreaksExclusion(a: Address) returns (w: World, trace: seq<State>, steps: seq<Step>)
    ensures IsRun(w, trace, steps)
    ensures
      var s := trace[|steps|];
      && "u2" in s.live && "u3" in s.live && "u2" in s.holds && "u3" in s.holds
      && a in s.holds["u2"].addrs && a in s.holds["u3"].addrs
  {
    hide May, After, Init, CanTake, Leads, IsPath, AddSteps, DroppingSteps, ReplacingSteps, Replaced, Dropped, Held, OneRange, BothHold, LateWorld, Empty;
    w := LateWorld();
    var s0, s1 := Empty(TwoPools()), Replaced();
    SecondCanTake(a);
    ThirdCanTake(a);
    var s2 := Held(w, s1, "u2", "c2", a);
    var s3 := Dropped(s2, a);
    var s4 := BothHold(a);
    ReplacingLeads();
    AddLeads(w, s1, "u2", "c2", a);
    DroppingLeads(a);
    LastLeads(a);
    BothDoHold(a);
    LeadsOn(w, s0, ReplacingSteps(), s1, AddSteps("u2", "c2", a), s2);
    LeadsOn(w, s0, ReplacingSteps() + AddSteps("u2", "c2", a), s2, DroppingSteps(a), s3);
    LeadsOn(w, s0, ReplacingSteps() + AddSteps("u2", "c2", a) + DroppingSteps(a), s3, AddSteps("u3", "c3", a), s4);
    steps := ReplacingSteps() + AddSteps("u2", "c2", a) + DroppingSteps(a) + AddSteps("u3", "c3", a);
    trace := TraceOf(w, s0, steps, s4);
  }

  // ---------------------------------------------------------------------
  // An address two ranges of one ADD returned
  // ---------------------------------------------------------------------

  ghost predicate TwoRanges(w: World, s: State, u: string) {
    && u in w.pods && |w.pods[u].ranges| == 2 && w.pods[u].ranges[0] in s.pools && w.pods[u].ranges[1] in s.pools
    && w.pods[u].ranges[0] != w.pods[u].ranges[1]
  }

  ghost predicate IdleContainer(w: World, s: State, u: string, c: string) {
    u in s.live && u !in s.ops && c in w.containerOf && w.containerOf[c] == u
  }

  /** The operation after its first range has fallen through. */
  ghost function Fallen(id: nat, c: string, a: Address, created: bool): Op {
    Add(c, 1, {a}, {}, {a}, if created then [Done(id, a, true, false)] else [], Fetch)
  }

  lemma FallMoves(w: World, s: State, u: string, op: Op, a: Address)
    requires Working(w, s, u, op) && op.phase.Choose? && op.idx + 1 < |w.pods[u].ranges|
    requires a in s.orips && Foreign(w.pods[u], s.orips[a]) && MayChoose(w.pods[u], op.phase.snap.content, op.taken, a)
    ensures
      var done := DoneWith(w.pods[u].ranges[op.idx], op.done, a, a !in op.phase.snap.content, false);
      Moves(w, s, Adding(u, AddChoose(a, true)),
            SetOp(s, u, op.(idx := op.idx + 1, taken := op.taken + {a}, fell := op.fell + {a}, done := done, phase := Fetch)))
  {
    hide MayChoose, Foreign;
  }

  /** The first range of an ADD falls through on an address that somebody else has reserved. */
  lemma FallLeads(w: World, s: State, u: string, c: string, a: Address)
    requires TwoRanges(w, s, u) && IdleContainer(w, s, u, c)
    requires a in s.orips && Foreign(w.pods[u], s.orips[a])
    requires MayChoose(w.pods[u], s.pools[w.pods[u].ranges[0]].content, {}, a)
    ensures
      var id := w.pods[u].ranges[0];
      Leads(w, s, [Adding(u, AddStart(c)), Adding(u, AddFetch), Adding(u, AddChoose(a, true))],
            SetOp(s, u, Fallen(id, c, a, a !in s.pools[id].content)))
  {
    hide May, After, Moves, Leads, MayChoose, Foreign;
    var id := w.pods[u].ranges[0];
    var op := Add(c, 0, {}, {}, {}, [], Fetch);
    var op1, op2 := op.(phase := Choose(s.pools[id])), Fallen(id, c, a, a !in s.pools[id].content);
    var s1, s2, s3 := SetOp(s, u, op), SetOp(s, u, op1), SetOp(s, u, op2);
    assert {} + {a} == {a} && [] + [Done(id, a, true, false)] == [Done(id, a, true, false)];
    StartMoves(w, s, u, c);
    FetchMoves(w, s1, u, op);
    FallMoves(w, s2, u, op1, a);
    OpsFacts(s.ops, u, op, op1);
    OpsFacts(s.ops, u, op1, op2);
    LeadsThree(w, s, Adding(u, AddStart(c)), s1, Adding(u, AddFetch), s2, Adding(u, AddChoose(a, true)), s3);
  }

  lemma CrashMoves(w: World, s: State, u: string, ops: map<string, Op>)
    requires u in s.ops && ops == s.ops - {u}
    ensures Moves(w, s, Life(u, Crash), s.(ops := ops))
  {
  }

  /** An ADD begins with some operation, writes an entry for an unreserved address and crashes. */
  lemma CrashedWriteLeads(w: World, s: State, u: string, op: Op, b: Address, ops: map<string, Op>)
    requires Working(w, s, u, op) && op.phase.Fetch? && u !in s.holds && b !in s.orips && u !in ops && s.ops == ops[u := op]
    requires MayChoose(w.pods[u], s.pools[w.pods[u].ranges[op.idx]].content, op.taken, b)
    ensures
      var id := w.pods[u].ranges[op.idx];
      Leads(w, s, WriteSteps(u, b) + [Life(u, Crash)],
            Store(s, id, s.pools[id].content[b := Entry(w.pods[u], op.containerID)]).(ops := ops))
  {
    hide May, After, Moves, Leads, MayChoose;
    var id := w.pods[u].ranges[op.idx];
    var s1 := Written(w, s, u, op, b);
    var s2 := Store(s, id, s.pools[id].content[b := Entry(w.pods[u], op.containerID)]).(ops := ops);
    assert s1.ops - {u} == ops;
    CrashMoves(w, s1, u, ops);
    WriteLeads(w, s, u, op, b);
    LeadsOne(w, s1, Life(u, Crash), s2);
    LeadsOn(w, s, WriteSteps(u, b), s1, [Life(u, Crash)], s2);
  }

  // ---------------------------------------------------------------------
  // Single steps of a DEL
  // ---------------------------------------------------------------------

  /** The operation is a DEL at its first range, whose pool has an entry of its container. */
  ghost predicate Finds(w: World, s: State, u: string, op: Op, b: Address) {
    && u in w.pods && u in s.ops && s.ops[u] == op && op.Del? && op.idx == 0
    && w.pods[u].ranges != [] && w.pods[u].ranges[0] in s.pools
    && b in s.pools[w.pods[u].ranges[0]].content && HeldByContainer(s.pools[w.pods[u].ranges[0]].content[b], w.pods[u], op.containerID)
  }

  lemma DelStartMoves(w: World, s: State, u: string, c: string)
    requires u in w.pods && w.pods[u].ranges != [] && u !in s.ops && c in w.containerOf && w.containerOf[c] == u
    ensures Moves(w, s, Deleting(u, DelStart(c)), SetOp(EndHold(s, u, c), u, Del(c, 0, None, DelFetch)))
  {
  }

  lemma DelFindMoves(w: World, s: State, u: string, op: Op, b: Address)
    requires Finds(w, s, u, op, b) && op.delPhase.DelFetch?
    ensures
      var pool := s.pools[w.pods[u].ranges[0]];
      var s1 := SetOp(s, u, op.(delPhase := DelChoose(pool)));
      && Moves(w, s, Deleting(u, DelRead), s1)
      && Moves(w, s1, Deleting(u, DelFind(b)), SetOp(s, u, op.(pending := Some(b), delPhase := DelWrite(pool, b))))
  {
  }

  lemma DelPatchMoves(w: World, s: State, u: string, op: Op, b: Address)
    requires Finds(w, s, u, op, b) && op.delPhase == DelWrite(s.pools[w.pods[u].ranges[0]], b)
    ensures
      var id := w.pods[u].ranges[0];
      Moves(w, s, Deleting(u, DelPatch), SetOp(Store(s, id, s.pools[id].content - {b}), u, op.(delPhase := DelUnreserve(b))))
  {
  }

  lemma DelReleaseMoves(w: World, s: State, u: string, op: Op, b: Address)
    requires u in w.pods && u in s.ops && s.ops[u] == op && op.Del? && op.idx == 0 && op.delPhase == DelUnreserve(b)
    requires w.pods[u].ranges != [] && w.pods[u].ranges[0] in s.pools && b in s.orips && s.orips[b].podUID == u
    ensures Moves(w, s, Deleting(u, DelRelease(false)), NextDelRange(w, s.(orips := s.orips - {b}), u))
  {
  }

  ghost function DelSteps(u: string, c: string, b: Address): seq<Step> {
    [Deleting(u, DelStart(c)), Deleting(u, DelRead), Deleting(u, DelFind(b)), Deleting(u, DelPatch), Deleting(u, DelRelease(false))]
  }

  /** The state after a DEL has removed its entry from the first pool and deleted the reservation. */
  ghost function Deleted(w: World, s: State, u: string, c: string, b: Address): State
    requires u in w.pods && w.pods[u].ranges != [] && w.pods[u].ranges[0] in s.pools
  {
    var id := w.pods[u].ranges[0];
    var s' := Store(EndHold(s, u, c), id, s.pools[id].content - {b}).(orips := s.orips - {b});
    if |w.pods[u].ranges| == 1 then s' else SetOp(s', u, Del(c, 1, None, DelFetch))
  }

  /** The DEL has found the entry. */
  ghost function Found(w: World, s: State, u: string, c: string, b: Address): State
    requires u in w.pods && w.pods[u].ranges != [] && w.pods[u].ranges[0] in s.pools
  {
    SetOp(SetOp(EndHold(s, u, c), u, Del(c, 0, None, DelFetch)), u, Del(c, 0, Some(b), DelWrite(s.pools[w.pods[u].ranges[0]], b)))
  }

  lemma FindLeads(w: World, s: State, u: string, c: string, b: Address)
    requires u in w.pods && w.pods[u].ranges != [] && w.pods[u].ranges[0] in s.pools
    requires u !in s.ops && c in w.containerOf && w.containerOf[c] == u
    requires b in s.pools[w.pods[u].ranges[0]].content && HeldByContainer(s.pools[w.pods[u].ranges[0]].content[b], w.pods[u], c)
    ensures Leads(w, s, [Deleting(u, DelStart(c)), Deleting(u, DelRead), Deleting(u, DelFind(b))], Found(w, s, u, c, b))
  {
    hide May, After, Moves, HeldByContainer, Leads;
    var op := Del(c, 0, None, DelFetch);
    var s1 := SetOp(EndHold(s, u, c), u, op);
    DelStartMoves(w, s, u, c);
    DelFindMoves(w, s1, u, op, b);
    LeadsThree(w, s, Deleting(u, DelStart(c)), s1, Deleting(u, DelRead), SetOp(s1, u, op.(delPhase := DelChoose(s.pools[w.pods[u].ranges[0]]))),
               Deleting(u, DelFind(b)), Found(w, s, u, c, b));
  }

  lemma DeletedIs(w: World, s: State, u: string, c: string, b: Address)
    requires u in w.pods && w.pods[u].ranges != [] && w.pods[u].ranges[0] in s.pools && u !in s.ops
    ensures
      var id := w.pods[u].ranges[0];
      var s4 := SetOp(Store(Found(w, s, u, c, b), id, s.pools[id].content - {b}), u, Del(c, 0, Some(b), DelUnreserve(b)));
      NextDelRange(w, s4.(orips := s.orips - {b}), u) == Deleted(w, s, u, c, b)
  {
    var id := w.pods[u].ranges[0];
    var s4 := SetOp(Store(Found(w, s, u, c, b), id, s.pools[id].content - {b}), u, Del(c, 0, Some(b), DelUnreserve(b)));
    OpsFacts(s.ops, u, Del(c, 0, None, DelFetch), Del(c, 0, Some(b), DelWrite(s.pools[id], b)));
    OpsFacts(s.ops, u, Del(c, 0, Some(b), DelWrite(s.pools[id], b)), Del(c, 0, Some(b), DelUnreserve(b)));
    OpsFacts(s.ops, u, Del(c, 0, Some(b), DelUnreserve(b)), Del(c, 1, None, DelFetch));
  }

  lemma DelLeads(w: World, s: State, u: string, c: string, b: Address)
    requires u in w.pods && w.pods[u].ranges != [] && w.pods[u].ranges[0] in s.pools
    requires u !in s.ops && c in w.containerOf && w.containerOf[c] == u && b in s.orips && s.orips[b].podUID == u
    requires b in s.pools[w.pods[u].ranges[0]].content && HeldByContainer(s.pools[w.pods[u].ranges[0]].content[b], w.pods[u], c)
    ensures Leads(w, s, DelSteps(u, c, b), Deleted(w, s, u, c, b))
  {
    hide May, After, Moves, HeldByContainer, Leads, Deleted, NextDelRange;
    var id := w.pods[u].ranges[0];
    var s3 := Found(w, s, u, c, b);
    var op2, op3 := Del(c, 0, Some(b), DelWrite(s.pools[id], b)), Del(c, 0, Some(b), DelUnreserve(b));
    var s4 := SetOp(Store(s3, id, s.pools[id].content - {b}), u, op3);
    FindLeads(w, s, u, c, b);
    DelPatchMoves(w, s3, u, op2, b);
    DelReleaseMoves(w, s4, u, op3, b);
    DeletedIs(w, s, u, c, b);
    LeadsTwo(w, s3, Deleting(u, DelPatch), s4, Deleting(u, DelRelease(false)), Deleted(w, s, u, c, b));
    LeadsOn(w, s, [Deleting(u, DelStart(c)), Deleting(u, DelRead), Deleting(u, DelFind(b))], s3,
            [Deleting(u, DelPatch), Deleting(u, DelRelease(false))], Deleted(w, s, u, c, b));
    assert [Deleting(u, DelStart(c)), Deleting(u, DelRead), Deleting(u, DelFind(b))] + [Deleting(u, DelPatch), Deleting(u, DelRelease(false))]
        == DelSteps(u, c, b);
  }

  // ---------------------------------------------------------------------
  // Falling through on an address that another range gets
  // ---------------------------------------------------------------------

  /** Three pods of different names: one with two pools, and two with a pool each. */
  ghost predicate Cast(w: World, s0: State, u: string, v: string, x: string) {
    && Init(w, s0) && u in w.pods && v in w.pods && x in w.pods && u != v && v != x && u != x
    && w.pods[u].ranges == [0, 1] && w.pods[v].ranges == [2] && w.pods[x].ranges == [3]
    && w.pods[u].podRef != w.pods[v].podRef && w.pods[v].podRef != w.pods[x].podRef && w.pods[u].podRef != w.pods[x].podRef
  }

  ghost predicate Belongs(w: World, c: string, u: string) {
    c in w.containerOf && w.containerOf[c] == u
  }

  ghost predicate NoStarts(steps: seq<Step>) {
    forall i :: 0 <= i < |steps| ==> !(steps[i].Life? && steps[i].life.PodStart?)
  }

  lemma DelStartsNone(u: string, c: string, b: Address)
    ensures NoStarts(DelSteps(u, c, b))
  {
  }

  lemma HeldByOwn(p: Pod, c: string)
    ensures HeldByContainer(Entry(p, c), p, c)
  {
  }

  ghost predicate AllStarts(steps: seq<Step>) {
    forall i :: 0 <= i < |steps| ==> steps[i].Life? && steps[i].life.PodStart?
  }

  lemma {:induction false} StartsKeepOps(w: World, trace: seq<State>, steps: seq<Step>, starts: seq<Step>, i: nat)
    requires IsPath(w, trace, steps) && starts <= steps && AllStarts(starts) && i <= |starts|
    ensures trace[i].ops == trace[0].ops
  {
    if i > 0 {
      StartsKeepOps(w, trace, steps, starts, i - 1);
      assert steps[i - 1] == starts[i - 1] && trace[i - 1 + 1] == After(w, trace[i - 1], steps[i - 1]);
    }
  }

  /** If all pods start before anything else happens, no ADD is late. */
  lemma StartsFirst(w: World, trace: seq<State>, steps: seq<Step>, starts: seq<Step>, rest: seq<Step>)
    requires IsPath(w, trace, steps) && trace[0].ops == map[] && steps == starts + rest && AllStarts(starts) && NoStarts(rest)
    ensures NoLateAdds(w, trace, steps)
  {
    forall i | 0 <= i < |steps| ensures NoLateAdd(w, trace[i], steps[i]) {
      if i < |starts| {
        StartsKeepOps(w, trace, steps, starts, i);
      } else {
        assert steps[i] == rest[i - |starts|];
      }
    }
  }

  /** Everybody is live and the second pod holds a. */
  ghost function Prologue(w: World, s0: State, u: string, v: string, x: string, d: string, a: Address): State
    requires Cast(w, s0, u, v, x)
  {
    Held(w, s0.(live := {u, v, x}), v, d, a)
  }

  lemma PrologueLeads(w: World, s0: State, u: string, v: string, x: string, d: string, a: Address) returns (starts: seq<Step>)
    requires Cast(w, s0, u, v, x) && Belongs(w, d, v)
    ensures Leads(w, s0, starts + AddSteps(v, d, a), Prologue(w, s0, u, v, x, d, a)) && AllStarts(starts)
  {
    hide May, After, Moves, Leads, AddSteps;
    var s1, s2, s3 := s0.(live := {u}), s0.(live := {u, v}), s0.(live := {u, v, x});
    PodStartMoves(w, s0, u, {u});
    PodStartMoves(w, s1, v, {u, v});
    PodStartMoves(w, s2, x, {u, v, x});
    starts := [Life(u, PodStart), Life(v, PodStart), Life(x, PodStart)];
    LeadsThree(w, s0, Life(u, PodStart), s1, Life(v, PodStart), s2, Life(x, PodStart), s3);
    assert w.pods[v].ranges[0] in s0.pools;
    AddLeads(w, s3, v, d, a);
    LeadsOn(w, s0, starts, s3, AddSteps(v, d, a), Held(w, s3, v, d, a));
  }

  /** The first pod is idle and holds nothing; only the second pod's address is reserved. */
  ghost predicate Quiet(w: World, s: State, u: string, v: string, x: string, a: Address) {
    && u in w.pods && s.live == {u, v, x} && s.ops == map[] && s.holds.Keys == {v} && s.orips.Keys == {a} && Foreign(w.pods[u], s.orips[a])
    && 0 in s.pools && 1 in s.pools && 3 in s.pools && s.pools[3].content == map[]
  }

  lemma NothingOwned(p: Pod, content: Content, taken: set<Address>, b: Address)
    requires content == map[] && b !in taken
    ensures MayChoose(p, content, taken, b)
  {
  }

  lemma OwnMayBeTaken(p: Pod, content: Content, taken: set<Address>, b: Address)
    requires b in content && OwnedByPod(content[b], p)
    ensures MayChoose(p, content, taken, b)
  {
  }

  /** An ADD falls through on its first range, writes b in its second and crashes. */
  lemma FallAndCrashLead(w: World, s: State, u: string, v: string, x: string, c0: string, a: Address, b: Address)
    returns (steps: seq<Step>, s': State)
    requires u in w.pods && w.pods[u].ranges == [0, 1] && u != v && a != b && Belongs(w, c0, u)
    requires Quiet(w, s, u, v, x, a) && s.pools[0].content == map[] && s.pools[1].content == map[]
    ensures Leads(w, s, steps, s') && NoStarts(steps) && Quiet(w, s', u, v, x, a)
    ensures s'.pools[0].content == map[] && s'.pools[1].content == map[b := Entry(w.pods[u], c0)]
  {
    hide May, After, Moves, Leads, MayChoose, Foreign;
    var op := Fallen(0, c0, a, true);
    var s1 := SetOp(s, u, op);
    NothingOwned(w.pods[u], s.pools[0].content, {}, a);
    FallLeads(w, s, u, c0, a);
    NothingOwned(w.pods[u], s.pools[1].content, {a}, b);
    CrashedWriteLeads(w, s1, u, op, b, map[]);
    s' := Store(s1, 1, s.pools[1].content[b := Entry(w.pods[u], c0)]).(ops := map[]);
    steps := [Adding(u, AddStart(c0)), Adding(u, AddFetch), Adding(u, AddChoose(a, true))];
    LeadsOn(w, s, steps, s1, WriteSteps(u, b) + [Life(u, Crash)], s');
    steps := steps + (WriteSteps(u, b) + [Life(u, Crash)]);
  }

  /** The next one writes b in the first range and crashes. */
  lemma CrashAgainLeads(w: World, s: State, u: string, v: string, x: string, c1: string, a: Address, b: Address)
    returns (steps: seq<Step>, s': State)
    requires u in w.pods && w.pods[u].ranges == [0, 1] && u != v && a != b && Belongs(w, c1, u)
    requires Quiet(w, s, u, v, x, a) && s.pools[0].content == map[]
    ensures Leads(w, s, steps, s') && NoStarts(steps) && Quiet(w, s', u, v, x, a)
    ensures s'.pools[0].content == map[b := Entry(w.pods[u], c1)] && s'.pools[1] == s.pools[1]
  {
    hide May, After, Moves, Leads, MayChoose, Foreign;
    var op := Add(c1, 0, {}, {}, {}, [], Fetch);
    var s1 := SetOp(s, u, op);
    StartMoves(w, s, u, c1);
    LeadsOne(w, s, Adding(u, AddStart(c1)), s1);
    NothingOwned(w.pods[u], s.pools[0].content, {}, b);
    CrashedWriteLeads(w, s1, u, op, b, map[]);
    s' := Store(s1, 0, s.pools[0].content[b := Entry(w.pods[u], c1)]).(ops := map[]);
    LeadsOn(w, s, [Adding(u, AddStart(c1))], s1, WriteSteps(u, b) + [Life(u, Crash)], s');
    steps := [Adding(u, AddStart(c1))] + (WriteSteps(u, b) + [Life(u, Crash)]);
  }

  /** The third pod has taken b, and the first pod's next ADD falls through on its own entry for b. */
  lemma FallOnOwnLeads(w: World, s: State, u: string, v: string, x: string, c2: string, e: string, a: Address, b: Address, own: IPAllocation)
    returns (steps: seq<Step>, s': State)
    requires u in w.pods && x in w.pods && w.pods[u].ranges == [0, 1] && w.pods[x].ranges == [3] && u != x && x != v && a != b
    requires w.pods[u].podRef != w.pods[x].podRef && Belongs(w, c2, u) && Belongs(w, e, x) && OwnedByPod(own, w.pods[u])
    requires Quiet(w, s, u, v, x, a) && s.pools[0].content == map[b := own]
    ensures Leads(w, s, steps, s') && NoStarts(steps) && s' == SetOp(Held(w, s, x, e, b), u, Fallen(0, c2, b, false))
  {
    hide May, After, Moves, Leads, MayChoose;
    var s1 := Held(w, s, x, e, b);
    AddLeads(w, s, x, e, b);
    OwnMayBeTaken(w.pods[u], s1.pools[0].content, {}, b);
    FallLeads(w, s1, u, c2, b);
    s' := SetOp(s1, u, Fallen(0, c2, b, false));
    var more := [Adding(u, AddStart(c2)), Adding(u, AddFetch), Adding(u, AddChoose(b, true))];
    LeadsOn(w, s, AddSteps(x, e, b), s1, more, s');
    steps := AddSteps(x, e, b) + more;
  }

  /** The third pod's DEL frees b, and the second range of the ADD gets it. */
  lemma RegainLeads(w: World, s: State, u: string, x: string, c2: string, e: string, b: Address) returns (steps: seq<Step>, s': State)
    requires u in w.pods && x in w.pods && w.pods[u].ranges == [0, 1] && w.pods[x].ranges == [3] && u != x
    requires Belongs(w, e, x) && u in s.live && u !in s.holds && s.ops == map[u := Fallen(0, c2, b, false)]
    requires x in s.holds && s.holds[x].containerID == e && b in s.orips && s.orips[b].podUID == x
    requires 0 in s.pools && 1 in s.pools && 3 in s.pools && s.pools[3].content == map[b := Entry(w.pods[x], e)]
    requires b in s.pools[1].content && OwnedByPod(s.pools[1].content[b], w.pods[u])
    ensures Leads(w, s, steps, s') && NoStarts(steps) && s'.live == s.live && s'.ops == map[] && 0 in s'.pools && s'.pools[0] == s.pools[0]
    ensures s'.holds == (s.holds - {x})[u := Hold(c2, {})] && s'.orips == (s.orips - {b})[b := Orip(w.pods[u].podRef, w.pods[u].ifName, u)]
    ensures 1 in s'.pools && s'.pools[1].content == s.pools[1].content[b := Entry(w.pods[u], c2)]
    ensures 3 in s'.pools && s'.pools[3].content == map[]
  {
    hide May, After, Moves, Leads, MayChoose, HeldByContainer, DelSteps;
    var op := Fallen(0, c2, b, false);
    HeldByOwn(w.pods[x], e);
    DelLeads(w, s, x, e, b);
    var s1 := Deleted(w, s, x, e, b);
    OwnMayBeTaken(w.pods[u], s1.pools[1].content, op.taken, b);
    WriteLeads(w, s1, u, op, b);
    var s2 := Written(w, s1, u, op, b);
    var op2 := s2.ops[u];
    assert op2.got + {b} - op2.fell == {} && s2.ops == map[][u := op2];
    EndMoves(w, s2, u, op2, map[], Hold(c2, {}));
    s' := s2.(ops := map[], orips := s2.orips[b := Orip(w.pods[u].podRef, w.pods[u].ifName, u)], holds := s2.holds[u := Hold(c2, {})]);
    LeadsOne(w, s2, Adding(u, AddReserve(false)), s');
    LeadsOn(w, s, DelSteps(x, e, b), s1, WriteSteps(u, b), s2);
    LeadsOn(w, s, DelSteps(x, e, b) + WriteSteps(u, b), s2, [Adding(u, AddReserve(false))], s');
    steps := DelSteps(x, e, b) + WriteSteps(u, b) + [Adding(u, AddReserve(false))];
    DelStartsNone(x, e, b);
  }

  /** The DEL of the older container deletes the reservation, and the third pod takes b once more. */
  lemma LoseLeads(w: World, s: State, u: string, x: string, c1: string, c2: string, e: string, b: Address)
    returns (steps: seq<Step>, s': State)
    requires u in w.pods && x in w.pods && w.pods[u].ranges == [0, 1] && w.pods[x].ranges == [3] && u != x && c1 != c2
    requires Belongs(w, c1, u) && Belongs(w, e, x) && x in s.live && s.ops == map[]
    requires u in s.holds && s.holds[u].containerID == c2 && x !in s.holds && b in s.orips && s.orips[b].podUID == u
    requires 0 in s.pools && s.pools[0].content == map[b := Entry(w.pods[u], c1)]
    requires 1 in s.pools && 3 in s.pools && s.pools[3].content == map[]
    ensures Leads(w, s, steps, s') && NoStarts(steps)
    ensures s'.live == s.live && s'.holds == s.holds[x := Hold(e, {b})] && 1 in s'.pools && s'.pools[1] == s.pools[1]
  {
    hide May, After, Moves, Leads, HeldByContainer, DelSteps;
    HeldByOwn(w.pods[u], c1);
    DelLeads(w, s, u, c1, b);
    var s1 := Deleted(w, s, u, c1, b);
    AddLeads(w, s1, x, e, b);
    s' := Held(w, s1, x, e, b);
    steps := DelSteps(u, c1, b) + AddSteps(x, e, b);
    LeadsOn(w, s, DelSteps(u, c1, b), s1, AddSteps(x, e, b), s');
    DelStartsNone(u, c1, b);
  }

  lemma PrologueIsQuiet(w: World, s0: State, u: string, v: string, x: string, d: string, a: Address)
    requires Cast(w, s0, u, v, x)
    ensures var s := Prologue(w, s0, u, v, x, d, a); Quiet(w, s, u, v, x, a) && s.pools[0].content == map[] && s.pools[1].content == map[]
  {
    assert w.pods[u].ranges[0] in s0.pools && w.pods[u].ranges[1] in s0.pools && w.pods[v].ranges[0] in s0.pools && w.pods[x].ranges[0] in s0.pools;
  }

  lemma NoStartsAlong(v: string, d: string, a: Address, p2: seq<Step>, p3: seq<Step>, p4: seq<Step>)
    requires NoStarts(p2) && NoStarts(p3) && NoStarts(p4)
    ensures NoStarts(AddSteps(v, d, a) + p2 + p3 + p4)
  {
  }

  /** What happens once both crashed ADDs have left their entries. */
  lemma AfterwardsLead(w: World, s: State, u: string, v: string, x: string, c0: string, c1: string, c2: string, e: string, a: Address, b: Address)
    returns (steps: seq<Step>, s': State)
    requires u in w.pods && x in w.pods && w.pods[u].ranges == [0, 1] && w.pods[x].ranges == [3] && u != x && x != v && u != v && a != b
    requires w.pods[u].podRef != w.pods[x].podRef && c1 != c2 && Belongs(w, c1, u) && Belongs(w, c2, u) && Belongs(w, e, x)
    requires Quiet(w, s, u, v, x, a)
    requires s.pools[0].content == map[b := Entry(w.pods[u], c1)] && s.pools[1].content == map[b := Entry(w.pods[u], c0)]
    ensures Leads(w, s, steps, s') && NoStarts(steps)
    ensures u in s'.live && x in s'.live && x in s'.holds && b in s'.holds[x].addrs && u in s'.holds && s'.holds[u].containerID == c2
    ensures 1 in s'.pools && b in s'.pools[1].content && s'.pools[1].content[b] == Entry(w.pods[u], c2)
  {
    hide May, After, Moves, Leads, Foreign;
    var p1, s1 := FallOnOwnLeads(w, s, u, v, x, c2, e, a, b, Entry(w.pods[u], c1));
    var p2, s2 := RegainLeads(w, s1, u, x, c2, e, b);
    var p3, s3 := LoseLeads(w, s2, u, x, c1, c2, e, b);
    LeadsOn(w, s, p1, s1, p2, s2);
    LeadsOn(w, s, p1 + p2, s2, p3, s3);
    return p1 + p2 + p3, s3;
  }

  /** An ADD falls through on b in one range and gets b in another. Its reservation then goes with the DEL
      of an older container whose entry the first range left in place, and another live pod holds b
      although the ADD succeeded and no DEL has ended it. Such an address is not counted as held. */
  lemma FellThroughIsNotKept(w: World, s0: State, u: string, v: string, x: string,
                             c0: string, c1: string, c2: string, d: string, e: string, a: Address, b: Address)
    returns (trace: seq<State>, steps: seq<Step>)
    requires Cast(w, s0, u, v, x) && a != b && c1 != c2
    requires Belongs(w, c0, u) && Belongs(w, c1, u) && Belongs(w, c2, u) && Belongs(w, d, v) && Belongs(w, e, x)
    ensures IsRun(w, trace, steps) && NoLateAdds(w, trace, steps)
    ensures
      var s := trace[|steps|];
      && u in s.live && x in s.live && x in s.holds && b in s.holds[x].addrs
      && u in s.holds && s.holds[u].containerID == c2
      && 1 in s.pools && b in s.pools[1].content && s.pools[1].content[b] == Entry(w.pods[u], c2)
  {
    hide May, After, Moves, Leads, Quiet, Foreign, IsPath, NoStarts, AllStarts, NoLateAdds;
    var starts := PrologueLeads(w, s0, u, v, x, d, a);
    var s1 := Prologue(w, s0, u, v, x, d, a);
    PrologueIsQuiet(w, s0, u, v, x, d, a);
    var p2, s2 := FallAndCrashLead(w, s1, u, v, x, c0, a, b);
    var p3, s3 := CrashAgainLeads(w, s2, u, v, x, c1, a, b);
    var p4, s4 := AfterwardsLead(w, s3, u, v, x, c0, c1, c2, e, a, b);
    var p1 := AddSteps(v, d, a);
    LeadsOn(w, s0, starts + p1, s1, p2, s2);
    LeadsOn(w, s0, starts + p1 + p2, s2, p3, s3);
    LeadsOn(w, s0, starts + p1 + p2 + p3, s3, p4, s4);
    steps := starts + p1 + p2 + p3 + p4;
    trace := TraceOf(w, s0, steps, s4);
    NoStartsAlong(v, d, a, p2, p3, p4);
    assert steps == starts + (p1 + p2 + p3 + p4);
    StartsFirst(w, trace, steps, starts, p1 + p2 + p3 + p4);
  }
}
