/** ADD, DEL and rollback over several pools whose ranges may overlap. Every address has at most one
    cluster-wide reservation, created if absent and deleted under a pod UID guard. */
module OverlapProtocol {
  import opened Prelude
  import opened Addressing
  import opened Allocation
  import opened Codec
  import opened AddAttempt

  // ---------------------------------------------------------------------
  // Who takes part
  // ---------------------------------------------------------------------

  type Address = RawAddr

  type Content = map<Address, IPAllocation>

  /** A pod of the network: one interface, and the pools its configuration lists. */
  datatype Pod = Pod(podRef: string, ifName: string, ranges: seq<nat>)

  /** All pods that ever live, by UID, and the pod each container belongs to. */
  datatype World = World(pods: map<string, Pod>, containerOf: map<string, string>)

  datatype Pool = Pool(version: nat, content: Content)

  /** The addresses of a successful ADD that no DEL has ended yet. An address counts when every range of
      the ADD that returned it was committed. */
  datatype Hold = Hold(containerID: string, addrs: set<Address>)

  // ---------------------------------------------------------------------
  // Operations in flight
  // ---------------------------------------------------------------------

  /** A decided write: the pool object it starts from, the address, whether the entry is new and
      whether a reservation is still to be created. */
  datatype Choice = Choice(snap: Pool, addr: Address, created: bool, reserve: bool)

  datatype AddPhase =
    | Fetch
    | Choose(snap: Pool)
    | DropStale(choice: Choice, stale: string)
    | WritePool(choice: Choice)
    | Reserve(choice: Choice)
    | UndoEntry(choice: Choice)

  /** What a finished range has created, kept for rollback. */
  datatype Done = Done(pool: nat, addr: Address, created: bool, reserved: bool)

  datatype DelPhase =
    | DelFetch
    | DelChoose(snap: Pool)
    | DelWrite(snap: Pool, addr: Address)
    | DelUnreserve(addr: Address)

  /** An ADD has got the addresses of its committed ranges, and fell through on others. */
  datatype Op =
    | Add(containerID: string, idx: nat, taken: set<Address>, got: set<Address>, fell: set<Address>, done: seq<Done>, phase: AddPhase)
    | Rollback(containerID: string, done: seq<Done>)
    | Del(containerID: string, idx: nat, pending: Option<Address>, delPhase: DelPhase)

  /** The pools and reservations, the pods that are live and those that have gone, the operation each pod
      has in flight, and what is held. */
  datatype State = State(
    pools: map<nat, Pool>, orips: map<Address, Orip>, live: set<string>, gone: set<string>, ops: map<string, Op>, holds: map<string, Hold>)

  function Entry(p: Pod, containerID: string): IPAllocation {
    IPAllocation(containerID, p.podRef, p.ifName)
  }

  predicate OwnedByPod(a: IPAllocation, p: Pod) {
    a.podRef == p.podRef && a.ifName == p.ifName
  }

  // ---------------------------------------------------------------------
  // Server calls
  // ---------------------------------------------------------------------

  /** A landed pool write. */
  function Store(s: State, id: nat, content: Content): State
    requires id in s.pools
  {
    s.(pools := s.pools[id := Pool(s.pools[id].version + 1, content)])
  }

  /** Guarded delete: a reservation of another pod UID is left alone. */
  function Unreserve(s: State, a: Address, uid: string): State {
    if a in s.orips && s.orips[a].podUID == uid then s.(orips := s.orips - {a}) else s
  }

  function SetOp(s: State, u: string, op: Op): State {
    s.(ops := s.ops[u := op])
  }

  function EndOp(s: State, u: string): State {
    s.(ops := s.ops - {u})
  }

  // ---------------------------------------------------------------------
  // Steps
  // ---------------------------------------------------------------------

  /** The steps are named after what they do; AddRetry and DelRetry are pool writes that fail for another
      reason than a conflict. */
  datatype LifeStep = PodStart | PodStop | Crash

  datatype AddStep =
    | AddStart(containerID: string)
    | AddFetch
    | AddChoose(addr: Address, lastAttempt: bool)
    | AddDropStale
    | AddWrite
    | AddRetry
    | AddReserve(fails: bool)
    | AddUndo(removes: bool)
    | AddFail

  datatype RollStep = RollEntry | RollReservation | RollSkip

  datatype DelStep =
    | DelStart(containerID: string)
    | DelRead
    | DelFind(addr: Address)
    | DelNone
    | DelPatch
    | DelRetry
    | DelRelease(fails: bool)

  /** A step of the pod with UID u. */
  datatype Step =
    | Life(u: string, life: LifeStep)
    | Adding(u: string, add: AddStep)
    | Rolling(u: string, roll: RollStep)
    | Deleting(u: string, del: DelStep)

  ghost predicate InAdd(s: State, u: string) {
    u in s.ops && s.ops[u].Add?
  }

  ghost predicate InDel(s: State, u: string) {
    u in s.ops && s.ops[u].Del?
  }

  /** The pool the operation works on. */
  ghost predicate AtRange(w: World, s: State, u: string) {
    u in w.pods && u in s.ops && !s.ops[u].Rollback? && s.ops[u].idx < |w.pods[u].ranges|
    && w.pods[u].ranges[s.ops[u].idx] in s.pools
  }

  ghost function PoolAt(w: World, s: State, u: string): nat
    requires AtRange(w, s, u)
  {
    w.pods[u].ranges[s.ops[u].idx]
  }

  // ---------------------------------------------------------------------
  // Pod lifecycle
  // ---------------------------------------------------------------------

  /** A pod reference names at most one live pod, and a UID does not come back. */
  ghost predicate MayLife(w: World, s: State, u: string, life: LifeStep) {
    match life
    case PodStart => u in w.pods && u !in s.live && u !in s.gone && forall v :: v in s.live && v in w.pods ==> w.pods[v].podRef != w.pods[u].podRef
    case PodStop => u in s.live
    case Crash => u in s.ops
  }

  ghost function AfterLife(s: State, u: string, life: LifeStep): State {
    match life
    case PodStart => s.(live := s.live + {u})
    case PodStop => s.(live := s.live - {u}, gone := s.gone + {u}, holds := s.holds - {u})
    case Crash => EndOp(s, u)
  }

  // ---------------------------------------------------------------------
  // ADD
  // ---------------------------------------------------------------------

  /** What an attempt may decide from the content it has read: the pod's own entry, or a free
      address when it has none. */
  ghost predicate MayChoose(p: Pod, content: Content, taken: set<Address>, a: Address) {
    || (a in content && OwnedByPod(content[a], p))
    || (a !in content && a !in taken && forall b :: b in content ==> !OwnedByPod(content[b], p))
  }

  /** The content of a pool by address. */
  ghost function ByAddress(m: Offsets, base: Addr): Content {
    map k | k in m :: RawAddr(base.family, base.value + k) := m[k]
  }

  lemma ByAddressEntry(m: Offsets, base: Addr, b: Address)
    ensures b in ByAddress(m, base) <==> b.family == base.family && base.value <= b.value && b.value - base.value in m
    ensures b in ByAddress(m, base) ==> ByAddress(m, base)[b] == m[b.value - base.value]
  {
    hide Space;
    if b.family == base.family && base.value <= b.value && b.value - base.value in m {
      var k := b.value - base.value;
      assert k in m && b == RawAddr(base.family, base.value + k);
    }
  }

  /** An ADD attempt decides in this way, whatever its configuration. */
  lemma AttemptMayChoose(conf: RangeConfiguration, base: Addr, m: Offsets, taken: seq<Addr>, who: Requester, k: nat, p: Pod)
    requires conf.range.Some? && TakesOffset(conf, base, m, taken, who, k) && p.podRef == who.podRef && p.ifName == who.ifName
    ensures MayChoose(p, ByAddress(m, base), (set a: Address | a in taken), RawAddr(base.family, base.value + k))
  {
    var a := RawAddr(base.family, base.value + k);
    assert OwnOffset(m, who, k) || (k !in m && a !in taken && forall j :: !OwnOffset(m, who, j));
    hide TakesOffset, ByAddress, Space;
    ByAddressEntry(m, base, a);
    if !OwnOffset(m, who, k) {
      forall b | b in ByAddress(m, base) ensures !OwnedByPod(ByAddress(m, base)[b], p) {
        ByAddressEntry(m, base, b);
        assert !OwnOffset(m, who, b.value - base.value);
      }
    }
  }

  ghost predicate Foreign(p: Pod, o: Orip) {
    ForeignTo(o, p.podRef, p.ifName)
  }

  ghost predicate MayAdd(w: World, s: State, u: string, add: AddStep) {
    if add.AddStart? then
      u in s.live && u in w.pods && u !in s.ops && w.pods[u].ranges != []
      && add.containerID in w.containerOf && w.containerOf[add.containerID] == u
    else if add.AddFail? then InAdd(s, u)
    else
      && InAdd(s, u) && AtRange(w, s, u)
      && match add
         case AddFetch => s.ops[u].phase.Fetch?
         case AddChoose(a, _) => s.ops[u].phase.Choose? && MayChoose(w.pods[u], s.ops[u].phase.snap.content, s.ops[u].taken, a)
         case AddDropStale => s.ops[u].phase.DropStale?
         case AddWrite | AddRetry => s.ops[u].phase.WritePool?
         case AddReserve(_) => s.ops[u].phase.Reserve?
         case AddUndo(_) => s.ops[u].phase.UndoEntry?
  }

  /** The ADD has succeeded. A live pod holds what it got, next to what the same container held before;
      if nothing was written, an older container's hold stands. */
  ghost function Succeeded(s: State, u: string, containerID: string, addrs: set<Address>): State {
    if u !in s.live then s
    else if u !in s.holds then s.(holds := s.holds[u := Hold(containerID, addrs)])
    else if s.holds[u].containerID == containerID then s.(holds := s.holds[u := Hold(containerID, s.holds[u].addrs + addrs)])
    else s
  }

  /** The range is finished: go on, or end the ADD. */
  ghost function NextRange(w: World, s: State, u: string, op: Op): State
    requires u in w.pods && op.Add?
  {
    if op.idx + 1 < |w.pods[u].ranges| then SetOp(s, u, op.(idx := op.idx + 1, phase := Fetch))
    else Succeeded(EndOp(s, u), u, op.containerID, op.got - op.fell)
  }

  /** What is kept of a finished range for rollback. */
  ghost function DoneWith(id: nat, done: seq<Done>, a: Address, created: bool, reserved: bool): seq<Done> {
    if created || reserved then done + [Done(id, a, created, reserved)] else done
  }

  /** The range was committed. */
  ghost function CommitRange(w: World, s: State, u: string, a: Address, created: bool, reserved: bool): State
    requires InAdd(s, u) && AtRange(w, s, u)
  {
    var op := s.ops[u];
    var done := DoneWith(PoolAt(w, s, u), op.done, a, created, reserved);
    NextRange(w, s, u, op.(taken := op.taken + {a}, got := op.got + {a}, done := done))
  }

  /** All retries ended in an overlap conflict: the loop falls through without a write. */
  ghost function FallThrough(w: World, s: State, u: string, a: Address, created: bool): State
    requires InAdd(s, u) && AtRange(w, s, u)
  {
    var op := s.ops[u];
    var done := DoneWith(PoolAt(w, s, u), op.done, a, created, false);
    NextRange(w, s, u, op.(taken := op.taken + {a}, fell := op.fell + {a}, done := done))
  }

  ghost function AfterChoose(w: World, s: State, u: string, a: Address, lastAttempt: bool): State
    requires InAdd(s, u) && AtRange(w, s, u) && s.ops[u].phase.Choose?
  {
    var op, p := s.ops[u], w.pods[u];
    var snap := op.phase.snap;
    var created := a !in snap.content;
    if a !in s.orips then SetOp(s, u, op.(phase := WritePool(Choice(snap, a, created, true))))
    else if Foreign(p, s.orips[a]) then
      (if lastAttempt then FallThrough(w, s, u, a, created)
       else SetOp(s, u, op.(taken := op.taken + {a}, phase := Fetch)))
    else if s.orips[a].podUID != u then SetOp(s, u, op.(phase := DropStale(Choice(snap, a, created, true), s.orips[a].podUID)))
    else SetOp(s, u, op.(phase := WritePool(Choice(snap, a, created, false))))
  }

  /** A landed write of a newer container ends the hold of an older one. */
  ghost function TakeOver(s: State, u: string, containerID: string): State {
    if u in s.holds && s.holds[u].containerID != containerID then s.(holds := s.holds - {u}) else s
  }

  ghost function AfterWrite(w: World, s: State, u: string): State
    requires InAdd(s, u) && AtRange(w, s, u) && s.ops[u].phase.WritePool?
  {
    var op, id := s.ops[u], PoolAt(w, s, u);
    var c := op.phase.choice;
    if c.snap.version != s.pools[id].version then SetOp(s, u, op.(phase := Fetch))
    else
      var s' := Store(TakeOver(s, u, op.containerID), id, c.snap.content[c.addr := Entry(w.pods[u], op.containerID)]);
      if c.reserve then SetOp(s', u, op.(phase := Reserve(c))) else CommitRange(w, s', u, c.addr, c.created, false)
  }

  ghost function AfterReserve(w: World, s: State, u: string, fails: bool): State
    requires InAdd(s, u) && AtRange(w, s, u) && s.ops[u].phase.Reserve?
  {
    var op, p := s.ops[u], w.pods[u];
    var c := op.phase.choice;
    if !fails && c.addr !in s.orips then
      CommitRange(w, s.(orips := s.orips[c.addr := Orip(p.podRef, p.ifName, u)]), u, c.addr, c.created, true)
    else SetOp(s, u, op.(phase := if c.created then UndoEntry(c) else Fetch))
  }

  /** A landed rollback write: the entry goes only if it is still the one this container wrote. */
  ghost function DropEntry(w: World, s: State, u: string, id: nat, a: Address, containerID: string): State
    requires u in w.pods && id in s.pools
  {
    var content := s.pools[id].content;
    if a in content && content[a] == Entry(w.pods[u], containerID) then Store(s, id, content - {a}) else s
  }

  ghost function AfterUndo(w: World, s: State, u: string, removes: bool): State
    requires InAdd(s, u) && AtRange(w, s, u) && s.ops[u].phase.UndoEntry?
  {
    var op := s.ops[u];
    var s' := if removes then DropEntry(w, s, u, PoolAt(w, s, u), op.phase.choice.addr, op.containerID) else s;
    SetOp(s', u, op.(phase := Fetch))
  }

  ghost function AfterDropStale(s: State, u: string): State
    requires InAdd(s, u) && s.ops[u].phase.DropStale?
  {
    var op := s.ops[u];
    SetOp(Unreserve(s, op.phase.choice.addr, op.phase.stale), u, op.(phase := WritePool(op.phase.choice)))
  }

  ghost function AfterAdd(w: World, s: State, u: string, add: AddStep): State
    requires MayAdd(w, s, u, add)
  {
    match add
    case AddStart(c) => SetOp(s, u, Add(c, 0, {}, {}, {}, [], Fetch))
    case AddFetch => SetOp(s, u, s.ops[u].(phase := Choose(s.pools[PoolAt(w, s, u)])))
    case AddChoose(a, lastAttempt) => AfterChoose(w, s, u, a, lastAttempt)
    case AddDropStale => AfterDropStale(s, u)
    case AddWrite => AfterWrite(w, s, u)
    case AddRetry => SetOp(s, u, s.ops[u].(phase := Fetch))
    case AddReserve(fails) => AfterReserve(w, s, u, fails)
    case AddUndo(removes) => AfterUndo(w, s, u, removes)
    case AddFail => SetOp(s, u, Rollback(s.ops[u].containerID, s.ops[u].done))
  }

  // ---------------------------------------------------------------------
  // Rollback
  // ---------------------------------------------------------------------

  ghost predicate MayRoll(w: World, s: State, u: string, roll: RollStep) {
    && u in w.pods && u in s.ops && s.ops[u].Rollback?
    && match roll
       case RollEntry => s.ops[u].done != [] && s.ops[u].done[0].pool in s.pools
       case RollReservation => s.ops[u].done != [] && s.ops[u].done[0].reserved
       case RollSkip => true
  }

  ghost function AfterRoll(w: World, s: State, u: string, roll: RollStep): State
    requires MayRoll(w, s, u, roll)
  {
    var op := s.ops[u];
    match roll
    case RollEntry => if op.done[0].created then DropEntry(w, s, u, op.done[0].pool, op.done[0].addr, op.containerID) else s
    case RollReservation => Unreserve(s, op.done[0].addr, u)
    case RollSkip => if op.done == [] then EndOp(s, u) else SetOp(s, u, op.(done := op.done[1..]))
  }

  // ---------------------------------------------------------------------
  // DEL
  // ---------------------------------------------------------------------

  ghost predicate HeldByContainer(a: IPAllocation, p: Pod, containerID: string) {
    a.containerID == containerID && a.ifName == p.ifName
  }

  ghost predicate MayDel(w: World, s: State, u: string, del: DelStep) {
    if del.DelStart? then
      u in w.pods && u !in s.ops && del.containerID in w.containerOf && w.containerOf[del.containerID] == u
    else
      && InDel(s, u) && AtRange(w, s, u)
      && var op := s.ops[u];
         match del
         case DelRead => op.delPhase.DelFetch?
         case DelFind(a) => op.delPhase.DelChoose? && a in op.delPhase.snap.content
                            && HeldByContainer(op.delPhase.snap.content[a], w.pods[u], op.containerID)
         case DelNone => op.delPhase.DelChoose? && forall a :: a in op.delPhase.snap.content ==>
                           !HeldByContainer(op.delPhase.snap.content[a], w.pods[u], op.containerID)
         case DelPatch | DelRetry => op.delPhase.DelWrite?
         case DelRelease(_) => op.delPhase.DelUnreserve?
  }

  /** A DEL ends the hold of its own container. */
  ghost function EndHold(s: State, u: string, containerID: string): State {
    if u in s.holds && s.holds[u].containerID == containerID then s.(holds := s.holds - {u}) else s
  }

  ghost function NextDelRange(w: World, s: State, u: string): State
    requires InDel(s, u) && AtRange(w, s, u)
  {
    var op := s.ops[u];
    if op.idx + 1 < |w.pods[u].ranges| then SetOp(s, u, op.(idx := op.idx + 1, pending := None, delPhase := DelFetch))
    else EndOp(s, u)
  }

  ghost function AfterDelPatch(w: World, s: State, u: string): State
    requires InDel(s, u) && AtRange(w, s, u) && s.ops[u].delPhase.DelWrite?
  {
    var op, id := s.ops[u], PoolAt(w, s, u);
    if op.delPhase.snap.version != s.pools[id].version then SetOp(s, u, op.(delPhase := DelFetch))
    else SetOp(Store(s, id, op.delPhase.snap.content - {op.delPhase.addr}), u, op.(delPhase := DelUnreserve(op.delPhase.addr)))
  }

  ghost function AfterDelRelease(w: World, s: State, u: string, fails: bool): State
    requires InDel(s, u) && AtRange(w, s, u) && s.ops[u].delPhase.DelUnreserve?
  {
    if fails then SetOp(s, u, s.ops[u].(delPhase := DelFetch))
    else NextDelRange(w, Unreserve(s, s.ops[u].delPhase.addr, u), u)
  }

  ghost function AfterDel(w: World, s: State, u: string, del: DelStep): State
    requires MayDel(w, s, u, del)
  {
    match del
    case DelStart(c) =>
      if w.pods[u].ranges == [] then EndHold(s, u, c) else SetOp(EndHold(s, u, c), u, Del(c, 0, None, DelFetch))
    case DelRead => SetOp(s, u, s.ops[u].(delPhase := DelChoose(s.pools[PoolAt(w, s, u)])))
    case DelFind(a) => SetOp(s, u, s.ops[u].(pending := Some(a), delPhase := DelWrite(s.ops[u].delPhase.snap, a)))
    case DelNone =>
      if s.ops[u].pending.Some? then SetOp(s, u, s.ops[u].(delPhase := DelUnreserve(s.ops[u].pending.value)))
      else NextDelRange(w, s, u)
    case DelPatch => AfterDelPatch(w, s, u)
    case DelRetry => SetOp(s, u, s.ops[u].(delPhase := DelFetch))
    case DelRelease(fails) => AfterDelRelease(w, s, u, fails)
  }

  // ---------------------------------------------------------------------
  // All steps
  // ---------------------------------------------------------------------

  /** What can happen. */
  ghost predicate May(w: World, s: State, step: Step) {
    match step
    case Life(u, life) => MayLife(w, s, u, life)
    case Adding(u, add) => MayAdd(w, s, u, add)
    case Rolling(u, roll) => MayRoll(w, s, u, roll)
    case Deleting(u, del) => MayDel(w, s, u, del)
  }

  ghost function After(w: World, s: State, step: Step): State
    requires May(w, s, step)
  {
    match step
    case Life(u, life) => AfterLife(s, u, life)
    case Adding(u, add) => AfterAdd(w, s, u, add)
    case Rolling(u, roll) => AfterRoll(w, s, u, roll)
    case Deleting(u, del) => AfterDel(w, s, u, del)
  }

  /** No pod starts while an ADD of another pod of the same name is still in flight. */
  ghost predicate NoLateAdd(w: World, s: State, step: Step) {
    step.Life? && step.life.PodStart? && step.u in w.pods ==>
      forall v :: InAdd(s, v) && v in w.pods && v != step.u ==> w.pods[v].podRef != w.pods[step.u].podRef
  }

  /** The step does not delete a reservation of a live pod as a stale one. */
  ghost predicate NoLiveDrop(s: State, step: Step) {
    step.Adding? && step.add.AddDropStale? && InAdd(s, step.u) && s.ops[step.u].phase.DropStale? ==>
      s.ops[step.u].phase.stale !in s.live
  }

  ghost predicate Init(w: World, s: State) {
    && "" !in w.pods
    && (forall c :: c in w.containerOf ==> w.containerOf[c] in w.pods)
    && (forall u, i :: u in w.pods && 0 <= i < |w.pods[u].ranges| ==> w.pods[u].ranges[i] in s.pools)
    && (forall id :: id in s.pools ==> s.pools[id].content == map[])
    && s.orips == map[] && s.live == {} && s.gone == {} && s.ops == map[] && s.holds == map[]
  }

  ghost predicate IsPath(w: World, trace: seq<State>, steps: seq<Step>) {
    && |trace| == |steps| + 1
    && forall i :: 0 <= i < |steps| ==> May(w, trace[i], steps[i]) && trace[i + 1] == After(w, trace[i], steps[i])
  }

  ghost predicate IsRun(w: World, trace: seq<State>, steps: seq<Step>) {
    IsPath(w, trace, steps) && Init(w, trace[0])
  }

  /** Pods are replaced only after their ADDs have ended. */
  ghost predicate NoLateAdds(w: World, trace: seq<State>, steps: seq<Step>)
    requires IsPath(w, trace, steps)
  {
    forall i :: 0 <= i < |steps| ==> NoLateAdd(w, trace[i], steps[i])
  }

  /** No reservation of a live pod is deleted as a stale one. */
  ghost predicate NoLiveDrops(w: World, trace: seq<State>, steps: seq<Step>)
    requires IsPath(w, trace, steps)
  {
    forall i :: 0 <= i < |steps| ==> NoLiveDrop(trace[i], steps[i])
  }
}
