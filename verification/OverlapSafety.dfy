/** Cross-pool exclusion: no address is held by two live pods, in any interleaving. */
module OverlapSafety {
  import opened Prelude
  import opened Codec
  import opened OverlapProtocol

  // ---------------------------------------------------------------------
  // The invariant
  // ---------------------------------------------------------------------

  /** UIDs are not empty, containers belong to known pods, and all configured pools exist. */
  ghost predicate Static(w: World, pools: map<nat, Pool>) {
    && "" !in w.pods
    && (forall c :: c in w.containerOf ==> w.containerOf[c] in w.pods)
    && (forall u, i :: u in w.pods && 0 <= i < |w.pods[u].ranges| ==> w.pods[u].ranges[i] in pools)
  }

  /** An entry belongs to the pod of its container. */
  ghost predicate EntryOk(w: World, a: IPAllocation) {
    a.containerID in w.containerOf && w.containerOf[a.containerID] in w.pods
    && OwnedByPod(a, w.pods[w.containerOf[a.containerID]])
  }

  /** Entries are well-formed and no (pod, interface) owns two of them. */
  ghost predicate ContentOk(w: World, content: Content) {
    && (forall a :: a in content ==> EntryOk(w, content[a]))
    && (forall a, b :: a in content && b in content && SameOwners(content[a], content[b]) ==> a == b)
  }

  ghost predicate PoolsOk(w: World, pools: map<nat, Pool>) {
    forall id :: id in pools ==> ContentOk(w, pools[id].content)
  }

  ghost predicate LiveOk(w: World, live: set<string>) {
    && live <= w.pods.Keys
    && (forall u, v :: u in live && v in live && w.pods[u].podRef == w.pods[v].podRef ==> u == v)
  }

  /** A reservation names the pod of its UID. */
  ghost predicate OripsOk(w: World, orips: map<Address, Orip>) {
    forall a :: a in orips ==> orips[a].podUID in w.pods && !Foreign(w.pods[orips[a].podUID], orips[a])
  }

  ghost predicate Reserves(orips: map<Address, Orip>, a: Address, u: string) {
    a in orips && orips[a].podUID == u
  }

  /** A container of the pod wrote the entry. */
  ghost predicate WrittenFor(w: World, a: IPAllocation, u: string) {
    a.containerID in w.containerOf && w.containerOf[a.containerID] == u
  }

  /** Whatever containers of the pod have written in the pool, this one has, except at addresses it fell
      through on. */
  ghost predicate Settled(w: World, content: Content, u: string, containerID: string, fell: set<Address>) {
    forall a :: a in content && WrittenFor(w, content[a], u) ==> content[a].containerID == containerID || a in fell
  }

  /** No other container of the pod has written an entry for one of the addresses. */
  ghost predicate SafeFor(w: World, content: Content, u: string, containerID: string, addrs: set<Address>) {
    forall a :: a in addrs && a in content && WrittenFor(w, content[a], u) ==> content[a].containerID == containerID
  }

  /** The container belongs to the pod. */
  ghost predicate ContainerOk(w: World, u: string, containerID: string) {
    u in w.pods && containerID in w.containerOf && w.containerOf[containerID] == u
  }

  ghost predicate HoldOk(w: World, s: State, u: string) {
    && u in s.holds && u in s.live && ContainerOk(w, u, s.holds[u].containerID)
    && (forall a :: a in s.holds[u].addrs ==> Reserves(s.orips, a, u))
    && (forall i :: 0 <= i < |w.pods[u].ranges| && w.pods[u].ranges[i] in s.pools ==>
          SafeFor(w, s.pools[w.pods[u].ranges[i]].content, u, s.holds[u].containerID, s.holds[u].addrs))
  }

  /** A pool object is no newer than the pool, and one of the same version has the same content. */
  ghost predicate SnapOk(pool: Pool, snap: Pool) {
    snap.version <= pool.version && (snap.version == pool.version ==> snap.content == pool.content)
  }

  /** The object shows what containers of the pod have written in the pool, and one entry of the pod at most. */
  ghost predicate SnapCovers(w: World, content: Content, snap: Content, u: string)
    requires u in w.pods
  {
    && (forall a :: a in content && WrittenFor(w, content[a], u) ==> a in snap && snap[a] == content[a] && OwnedByPod(snap[a], w.pods[u]))
    && (forall a, b :: a in snap && b in snap && OwnedByPod(snap[a], w.pods[u]) && OwnedByPod(snap[b], w.pods[u]) ==> a == b)
  }

  ghost predicate ChoiceOk(w: World, s: State, u: string, c: Choice) {
    && AtRange(w, s, u) && SnapOk(s.pools[PoolAt(w, s, u)], c.snap)
    && MayChoose(w.pods[u], c.snap.content, {}, c.addr)
    && (!c.reserve && u in s.live ==> Reserves(s.orips, c.addr, u))
  }

  ghost predicate PhaseOk(w: World, s: State, u: string, op: Op)
    requires op.Add?
  {
    match op.phase
    case Fetch => true
    case Choose(snap) =>
      AtRange(w, s, u) && SnapOk(s.pools[PoolAt(w, s, u)], snap) && SnapCovers(w, s.pools[PoolAt(w, s, u)].content, snap.content, u)
    case DropStale(c, stale) => ChoiceOk(w, s, u, c) && c.reserve && stale != u && stale in w.pods && u in w.pods
                                && w.pods[stale].podRef == w.pods[u].podRef
    case WritePool(c) => ChoiceOk(w, s, u, c)
    case Reserve(c) =>
      && AtRange(w, s, u) && Settled(w, s.pools[PoolAt(w, s, u)].content, u, op.containerID, {})
      && (u in s.holds ==> s.holds[u].containerID == op.containerID)
    case UndoEntry(c) => true
  }

  /** Reservations to roll back are not among those the pod holds. */
  ghost predicate DoneOk(holds: map<string, Hold>, u: string, done: seq<Done>) {
    u in holds ==> forall i :: 0 <= i < |done| && done[i].reserved ==> done[i].addr !in holds[u].addrs
  }

  /** The ranges an ADD has finished. */
  ghost predicate RangesSettled(w: World, s: State, u: string, op: Op)
    requires op.Add? && u in w.pods
  {
    forall i :: 0 <= i < op.idx && i < |w.pods[u].ranges| && w.pods[u].ranges[i] in s.pools ==>
      Settled(w, s.pools[w.pods[u].ranges[i]].content, u, op.containerID, op.fell)
  }

  ghost predicate AddOk(w: World, s: State, u: string, op: Op)
    requires op.Add?
  {
    && u in w.pods && (u in s.live || u in s.gone) && op.idx < |w.pods[u].ranges|
    && (u in s.holds && s.holds[u].containerID != op.containerID ==> op.got == {})
    && (u in s.live ==> forall a :: a in op.got ==> Reserves(s.orips, a, u))
    && RangesSettled(w, s, u, op) && DoneOk(s.holds, u, op.done) && PhaseOk(w, s, u, op)
  }

  /** A DEL releases nothing that the pod holds through another container. */
  ghost predicate DelOk(w: World, s: State, u: string, op: Op)
    requires op.Del?
  {
    && u in w.pods && op.idx < |w.pods[u].ranges|
    && (op.delPhase.DelChoose? ==> AtRange(w, s, u) && SnapOk(s.pools[PoolAt(w, s, u)], op.delPhase.snap))
    && (op.delPhase.DelWrite? ==> AtRange(w, s, u) && SnapOk(s.pools[PoolAt(w, s, u)], op.delPhase.snap))
    && (u in s.holds ==>
          && (op.pending.Some? ==> op.pending.value !in s.holds[u].addrs)
          && (op.delPhase.DelChoose? ==> forall a :: a in s.holds[u].addrs && a in op.delPhase.snap.content ==>
                !HeldByContainer(op.delPhase.snap.content[a], w.pods[u], op.containerID))
          && (op.delPhase.DelWrite? || op.delPhase.DelUnreserve? ==> op.delPhase.addr !in s.holds[u].addrs)
          && s.holds[u].containerID != op.containerID)
  }

  ghost predicate OpOk(w: World, s: State, u: string) {
    && u in s.ops && ContainerOk(w, u, s.ops[u].containerID)
    && match s.ops[u]
       case Add(_, _, _, _, _, _, _) => AddOk(w, s, u, s.ops[u])
       case Rollback(_, done) => DoneOk(s.holds, u, done)
       case Del(_, _, _, _) => DelOk(w, s, u, s.ops[u])
  }

  ghost predicate Inv(w: World, s: State) {
    && Static(w, s.pools) && PoolsOk(w, s.pools) && LiveOk(w, s.live) && OripsOk(w, s.orips)
    && (forall u :: u in s.holds ==> HoldOk(w, s, u))
    && (forall u :: u in s.ops ==> OpOk(w, s, u))
  }

  // ---------------------------------------------------------------------
  // What a change leaves intact for everybody else
  // ---------------------------------------------------------------------

  /** Only the operation of u changed. */
  ghost predicate OnlyOp(s: State, s': State, u: string) {
    && s'.pools == s.pools && s'.orips == s.orips && s'.live == s.live && s'.gone == s.gone && s'.holds == s.holds
    && s'.ops - {u} == s.ops - {u}
  }

  lemma OtherOpStays(w: World, s: State, s': State, u: string, v: string)
    requires OpOk(w, s, v) && v != u && OnlyOp(s, s', u) && u in w.pods
    ensures OpOk(w, s', v)
  {
    hide SnapOk, SnapCovers, Settled, MayChoose, DoneOk;
    assert v in (s'.ops - {u}) && (s'.ops - {u})[v] == (s.ops - {u})[v];
  }

  lemma OnlyOpKeeps(w: World, s: State, s': State, u: string)
    requires Inv(w, s) && OnlyOp(s, s', u) && u in w.pods
    requires u in s'.ops ==> OpOk(w, s', u)
    ensures Inv(w, s')
  {
    hide OpOk, Static, PoolsOk, LiveOk, OripsOk, SafeFor;
    forall v | v in s'.ops && v != u ensures OpOk(w, s', v) {
      assert v in (s'.ops - {u}) && v in (s.ops - {u});
      OtherOpStays(w, s, s', u, v);
    }
    forall v | v in s'.holds ensures HoldOk(w, s', v) {
      assert HoldOk(w, s, v);
    }
  }

  // ---------------------------------------------------------------------
  // Pool writes
  // ---------------------------------------------------------------------

  /** The new content has no entries but old ones and, if given, one new kind. */
  ghost predicate Writes(content: Content, content': Content, entry: Option<IPAllocation>) {
    forall a :: a in content' ==> (a in content && content'[a] == content[a]) || entry == Some(content'[a])
  }

  /** The new kind is the entry of an ADD that is about to write and of no older hold. */
  ghost predicate MayWrite(w: World, s: State, u: string, entry: Option<IPAllocation>) {
    entry.Some? ==>
      && InAdd(s, u) && s.ops[u].phase.WritePool? && OpOk(w, s, u) && entry == Some(Entry(w.pods[u], s.ops[u].containerID))
      && (u in s.holds ==> s.holds[u].containerID == s.ops[u].containerID)
  }

  lemma EntryIsForeign(w: World, s: State, u: string, entry: IPAllocation, v: string)
    requires MayWrite(w, s, u, Some(entry)) && v != u
    ensures !WrittenFor(w, entry, v)
  {
  }

  lemma WriteStaysSettled(w: World, content: Content, content': Content, entry: Option<IPAllocation>, u: string, c: string, fell: set<Address>)
    requires Writes(content, content', entry) && Settled(w, content, u, c, fell)
    requires entry.Some? ==> !WrittenFor(w, entry.value, u) || entry.value.containerID == c
    ensures Settled(w, content', u, c, fell)
  {
  }

  lemma WriteStaysSafe(w: World, content: Content, content': Content, entry: Option<IPAllocation>, u: string, c: string, addrs: set<Address>)
    requires Writes(content, content', entry) && SafeFor(w, content, u, c, addrs)
    requires entry.Some? ==> !WrittenFor(w, entry.value, u) || entry.value.containerID == c
    ensures SafeFor(w, content', u, c, addrs)
  {
  }

  lemma WriteStaysCovered(w: World, content: Content, content': Content, entry: Option<IPAllocation>, snap: Content, u: string)
    requires u in w.pods && Writes(content, content', entry) && SnapCovers(w, content, snap, u) && (entry.Some? ==> !WrittenFor(w, entry.value, u))
    ensures SnapCovers(w, content', snap, u)
  {
  }

  lemma StoreKeepsRanges(w: World, s: State, u: string, id: nat, content': Content, entry: Option<IPAllocation>, v: string)
    requires id in s.pools && Writes(s.pools[id].content, content', entry) && MayWrite(w, s, u, entry)
    requires InAdd(s, v) && v in w.pods && RangesSettled(w, s, v, s.ops[v])
    ensures RangesSettled(w, Store(s, id, content'), v, s.ops[v])
  {
    hide Settled, Writes, MayWrite;
    if entry.Some? {
      if v == u { EntryContainer(w, s, u, entry); } else { EntryIsForeign(w, s, u, entry.value, v); }
    }
    forall i | 0 <= i < s.ops[v].idx && i < |w.pods[v].ranges| && w.pods[v].ranges[i] in s.pools
      ensures Settled(w, Store(s, id, content').pools[w.pods[v].ranges[i]].content, v, s.ops[v].containerID, s.ops[v].fell)
    {
      if w.pods[v].ranges[i] == id {
        WriteStaysSettled(w, s.pools[id].content, content', entry, v, s.ops[v].containerID, s.ops[v].fell);
      }
    }
  }

  lemma EntryContainer(w: World, s: State, u: string, entry: Option<IPAllocation>)
    requires MayWrite(w, s, u, entry) && entry.Some?
    ensures InAdd(s, u) && entry.value.containerID == s.ops[u].containerID
  {
  }

  lemma StoreKeepsPhase(w: World, s: State, u: string, id: nat, content': Content, entry: Option<IPAllocation>, v: string)
    requires id in s.pools && Writes(s.pools[id].content, content', entry) && MayWrite(w, s, u, entry)
    requires InAdd(s, v) && v in w.pods && PhaseOk(w, s, v, s.ops[v])
    ensures PhaseOk(w, Store(s, id, content'), v, s.ops[v])
  {
    hide Settled, SnapCovers, MayChoose, Writes, OpOk;
    var op := s.ops[v];
    if entry.Some? && v != u { EntryIsForeign(w, s, u, entry.value, v); }
    if op.phase.Choose? && PoolAt(w, s, v) == id {
      WriteStaysCovered(w, s.pools[id].content, content', entry, op.phase.snap.content, v);
    }
    if op.phase.Reserve? && PoolAt(w, s, v) == id {
      WriteStaysSettled(w, s.pools[id].content, content', entry, v, op.containerID, {});
    }
  }

  lemma StoreKeepsOp(w: World, s: State, u: string, id: nat, content': Content, entry: Option<IPAllocation>, v: string)
    requires id in s.pools && Writes(s.pools[id].content, content', entry) && MayWrite(w, s, u, entry) && OpOk(w, s, v)
    ensures OpOk(w, Store(s, id, content'), v)
  {
    hide RangesSettled, PhaseOk, Writes, MayWrite, MayChoose;
    if s.ops[v].Add? {
      StoreKeepsRanges(w, s, u, id, content', entry, v);
      StoreKeepsPhase(w, s, u, id, content', entry, v);
    }
  }

  lemma StoreKeepsHold(w: World, s: State, u: string, id: nat, content': Content, entry: Option<IPAllocation>, v: string)
    requires id in s.pools && Writes(s.pools[id].content, content', entry) && MayWrite(w, s, u, entry) && HoldOk(w, s, v)
    ensures HoldOk(w, Store(s, id, content'), v)
  {
    hide OpOk, SafeFor, Writes;
    if entry.Some? && v != u { EntryIsForeign(w, s, u, entry.value, v); }
    forall i | 0 <= i < |w.pods[v].ranges| && w.pods[v].ranges[i] in s.pools
      ensures SafeFor(w, Store(s, id, content').pools[w.pods[v].ranges[i]].content, v, s.holds[v].containerID, s.holds[v].addrs)
    {
      if w.pods[v].ranges[i] == id {
        WriteStaysSafe(w, s.pools[id].content, content', entry, v, s.holds[v].containerID, s.holds[v].addrs);
      }
    }
  }

  /** A landed pool write keeps the invariant. */
  lemma StoreKeeps(w: World, s: State, u: string, id: nat, content': Content, entry: Option<IPAllocation>)
    requires Inv(w, s) && id in s.pools && ContentOk(w, content')
    requires Writes(s.pools[id].content, content', entry) && MayWrite(w, s, u, entry)
    ensures Inv(w, Store(s, id, content'))
  {
    hide OpOk, HoldOk, ContentOk, Writes, MayWrite, LiveOk, OripsOk;
    var s' := Store(s, id, content');
    forall v | v in s'.ops ensures OpOk(w, s', v) { StoreKeepsOp(w, s, u, id, content', entry, v); }
    forall v | v in s'.holds ensures HoldOk(w, s', v) { StoreKeepsHold(w, s, u, id, content', entry, v); }
  }

  lemma RemovalIsWrite(w: World, content: Content, a: Address)
    requires ContentOk(w, content)
    ensures ContentOk(w, content - {a}) && Writes(content, content - {a}, None)
  {
    hide EntryOk;
  }

  lemma DropEntryKeeps(w: World, s: State, u: string, id: nat, a: Address, c: string)
    requires Inv(w, s) && u in w.pods && id in s.pools
    ensures Inv(w, DropEntry(w, s, u, id, a, c))
  {
    hide Static, LiveOk, OripsOk, HoldOk, OpOk, ContentOk, Writes;
    RemovalIsWrite(w, s.pools[id].content, a);
    StoreKeeps(w, s, u, id, s.pools[id].content - {a}, None);
  }

  // ---------------------------------------------------------------------
  // Reservations
  // ---------------------------------------------------------------------

  /** The reservations anybody relies on are still there. */
  ghost predicate KeepsReserved(s: State, orips': map<Address, Orip>) {
    && (forall u, a :: u in s.holds && a in s.holds[u].addrs && Reserves(s.orips, a, u) ==> Reserves(orips', a, u))
    && (forall u, a :: InAdd(s, u) && u in s.live && Reserves(s.orips, a, u) ==> Reserves(orips', a, u))
  }

  lemma ReservedOpStays(w: World, s: State, orips': map<Address, Orip>, v: string)
    requires KeepsReserved(s, orips') && OpOk(w, s, v)
    ensures OpOk(w, s.(orips := orips'), v)
  {
    hide SnapOk, SnapCovers, Settled, MayChoose, DoneOk, Reserves;
  }

  lemma OripsKeep(w: World, s: State, orips': map<Address, Orip>)
    requires Inv(w, s) && OripsOk(w, orips') && KeepsReserved(s, orips')
    ensures Inv(w, s.(orips := orips'))
  {
    hide OpOk, Static, PoolsOk, LiveOk, OripsOk, SafeFor, Reserves;
    var s' := s.(orips := orips');
    forall v | v in s'.ops ensures OpOk(w, s', v) { ReservedOpStays(w, s, orips', v); }
    forall v | v in s'.holds ensures HoldOk(w, s', v) { assert HoldOk(w, s, v); }
  }

  /** Nobody relies on the reservation of x at a. */
  ghost predicate Expendable(s: State, a: Address, x: string) {
    (x in s.holds ==> a !in s.holds[x].addrs) && !(InAdd(s, x) && x in s.live)
  }

  /** A guarded delete of a reservation nobody relies on keeps the invariant. */
  lemma UnreserveKeeps(w: World, s: State, a: Address, x: string)
    requires Inv(w, s) && Expendable(s, a, x)
    ensures Inv(w, Unreserve(s, a, x))
  {
    hide OpOk, HoldOk, Static, PoolsOk, LiveOk;
    if a in s.orips && s.orips[a].podUID == x {
      assert KeepsReserved(s, s.orips - {a});
      OripsKeep(w, s, s.orips - {a});
    }
  }

  /** Creating an absent reservation keeps the invariant. */
  lemma ReserveKeeps(w: World, s: State, a: Address, u: string)
    requires Inv(w, s) && a !in s.orips && u in w.pods
    ensures Inv(w, s.(orips := s.orips[a := Orip(w.pods[u].podRef, w.pods[u].ifName, u)]))
  {
    hide OpOk, HoldOk, Static, PoolsOk, LiveOk;
    var orips' := s.orips[a := Orip(w.pods[u].podRef, w.pods[u].ifName, u)];
    assert KeepsReserved(s, orips');
    OripsKeep(w, s, orips');
  }

  // ---------------------------------------------------------------------
  // Holds
  // ---------------------------------------------------------------------

  lemma HoldsOpStays(w: World, s: State, holds': map<string, Hold>, v: string)
    requires OpOk(w, s, v) && (v in holds' ==> v in s.holds && holds'[v] == s.holds[v])
    ensures OpOk(w, s.(holds := holds'), v)
  {
    hide SnapOk, SnapCovers, Settled, MayChoose, Reserves;
  }

  lemma HoldsHoldStays(w: World, s: State, holds': map<string, Hold>, v: string)
    requires HoldOk(w, s, v) && v in holds' && holds'[v] == s.holds[v]
    ensures HoldOk(w, s.(holds := holds'), v)
  {
    hide SafeFor, Reserves;
  }

  /** Ending a hold keeps the invariant. */
  lemma EndHoldKeeps(w: World, s: State, u: string)
    requires Inv(w, s)
    ensures Inv(w, s.(holds := s.holds - {u}))
  {
    hide OpOk, HoldOk, Static, PoolsOk, LiveOk, OripsOk;
    var holds' := s.holds - {u};
    forall v | v in s.ops ensures OpOk(w, s.(holds := holds'), v) { HoldsOpStays(w, s, holds', v); }
    forall v | v in holds' ensures HoldOk(w, s.(holds := holds'), v) { HoldsHoldStays(w, s, holds', v); }
  }

  lemma SetHoldKeeps(w: World, s: State, u: string, h: Hold)
    requires Inv(w, s) && u !in s.ops && HoldOk(w, s.(holds := s.holds[u := h]), u)
    ensures Inv(w, s.(holds := s.holds[u := h]))
  {
    hide OpOk, HoldOk, Static, PoolsOk, LiveOk, OripsOk;
    var holds' := s.holds[u := h];
    forall v | v in s.ops ensures OpOk(w, s.(holds := holds'), v) { HoldsOpStays(w, s, holds', v); }
    forall v | v in holds' && v != u ensures HoldOk(w, s.(holds := holds'), v) { HoldsHoldStays(w, s, holds', v); }
  }

  // ---------------------------------------------------------------------
  // Finishing a range
  // ---------------------------------------------------------------------

  /** What is known of an ADD whose current range is finished, with `op` its record of that. */
  ghost predicate RangeDone(w: World, s: State, u: string, op: Op) {
    && InAdd(s, u) && u in w.pods && op.Add? && op.idx == s.ops[u].idx && op.containerID == s.ops[u].containerID
    && (u in s.holds && s.holds[u].containerID != op.containerID ==> op.got == {})
    && (u in s.live ==> forall a :: a in op.got ==> Reserves(s.orips, a, u))
    && DoneOk(s.holds, u, op.done)
    && (forall i :: 0 <= i <= op.idx && i < |w.pods[u].ranges| && w.pods[u].ranges[i] in s.pools ==>
          Settled(w, s.pools[w.pods[u].ranges[i]].content, u, op.containerID, op.fell))
  }

  lemma NextRangeOpOk(w: World, s: State, u: string, op: Op)
    requires OpOk(w, s, u) && RangeDone(w, s, u, op) && op.idx + 1 < |w.pods[u].ranges|
    ensures OpOk(w, SetOp(s, u, op.(idx := op.idx + 1, phase := Fetch)), u)
  {
    hide Settled, Reserves, DoneOk;
  }

  lemma SettledIsSafe(w: World, content: Content, u: string, c: string, got: set<Address>, fell: set<Address>, earlier: set<Address>)
    requires Settled(w, content, u, c, fell) && SafeFor(w, content, u, c, earlier)
    ensures SafeFor(w, content, u, c, earlier + (got - fell))
  {
  }

  lemma NewHoldOk(w: World, s: State, u: string, op: Op, earlier: set<Address>)
    requires OpOk(w, s, u) && RangeDone(w, s, u, op) && op.idx + 1 == |w.pods[u].ranges| && u in s.live
    requires u in s.holds ==> HoldOk(w, s, u) && s.holds[u].containerID == op.containerID && earlier == s.holds[u].addrs
    requires u !in s.holds ==> earlier == {}
    ensures HoldOk(w, EndOp(s, u).(holds := s.holds[u := Hold(op.containerID, earlier + (op.got - op.fell))]), u)
  {
    hide Settled, SafeFor, Reserves, DoneOk, AddOk;
    forall i | 0 <= i < |w.pods[u].ranges| && w.pods[u].ranges[i] in s.pools
      ensures SafeFor(w, s.pools[w.pods[u].ranges[i]].content, u, op.containerID, earlier + (op.got - op.fell))
    {
      var content := s.pools[w.pods[u].ranges[i]].content;
      if u !in s.holds { NothingIsSafe(w, content, u, op.containerID); }
      SettledIsSafe(w, content, u, op.containerID, op.got, op.fell, earlier);
    }
  }

  lemma NothingIsSafe(w: World, content: Content, u: string, c: string)
    ensures SafeFor(w, content, u, c, {})
  {
  }

  lemma SucceededKeeps(w: World, s: State, u: string, op: Op)
    requires Inv(w, s) && RangeDone(w, s, u, op) && op.idx + 1 == |w.pods[u].ranges|
    ensures Inv(w, Succeeded(EndOp(s, u), u, op.containerID, op.got - op.fell))
  {
    hide Static, PoolsOk, LiveOk, OripsOk, HoldOk, OpOk, RangeDone;
    RangeDoneFacts(w, s, u, op);
    OnlyOpKeeps(w, s, EndOp(s, u), u);
    if u in s.live && u !in s.holds {
      NewHoldOk(w, s, u, op, {});
      assert {} + (op.got - op.fell) == op.got - op.fell;
      SetHoldKeeps(w, EndOp(s, u), u, Hold(op.containerID, op.got - op.fell));
    } else if u in s.live && s.holds[u].containerID == op.containerID {
      NewHoldOk(w, s, u, op, s.holds[u].addrs);
      SetHoldKeeps(w, EndOp(s, u), u, Hold(op.containerID, s.holds[u].addrs + (op.got - op.fell)));
    }
  }

  lemma RangeDoneFacts(w: World, s: State, u: string, op: Op)
    requires RangeDone(w, s, u, op)
    ensures u in w.pods && u in s.ops && op.Add?
  {
  }

  lemma NextRangeKeeps(w: World, s: State, u: string, op: Op)
    requires Inv(w, s) && RangeDone(w, s, u, op) && op.idx < |w.pods[u].ranges|
    ensures Inv(w, NextRange(w, s, u, op))
  {
    hide Static, PoolsOk, LiveOk, OripsOk, HoldOk, OpOk;
    assert OpOk(w, s, u);
    if op.idx + 1 < |w.pods[u].ranges| {
      NextRangeOpOk(w, s, u, op);
      OnlyOpKeeps(w, s, NextRange(w, s, u, op), u);
    } else {
      SucceededKeeps(w, s, u, op);
    }
  }

  // ---------------------------------------------------------------------
  // ADD steps
  // ---------------------------------------------------------------------

  lemma AddStartKeeps(w: World, s: State, u: string, c: string)
    requires Inv(w, s) && MayAdd(w, s, u, AddStart(c))
    ensures Inv(w, AfterAdd(w, s, u, AddStart(c)))
  {
    hide Static, PoolsOk, OripsOk, HoldOk;
    assert forall v :: InAdd(s, v) ==> OpOk(w, s, v);
    OnlyOpKeeps(w, s, AfterAdd(w, s, u, AddStart(c)), u);
  }

  /** Moving to another phase of the same range needs only that phase's own facts. */
  lemma PhaseChangeOk(w: World, s: State, u: string, op: Op)
    requires OpOk(w, s, u) && InAdd(s, u) && op.Add? && op == s.ops[u].(phase := op.phase, taken := op.taken)
    requires PhaseOk(w, SetOp(s, u, op), u, op)
    ensures OpOk(w, SetOp(s, u, op), u)
  {
    hide PhaseOk, Settled, Reserves, DoneOk;
  }

  lemma PhaseChangeKeeps(w: World, s: State, u: string, op: Op)
    requires Inv(w, s) && InAdd(s, u) && op.Add? && op == s.ops[u].(phase := op.phase, taken := op.taken)
    requires PhaseOk(w, SetOp(s, u, op), u, op)
    ensures Inv(w, SetOp(s, u, op))
  {
    hide PhaseOk, OpOk, Static, PoolsOk, LiveOk, OripsOk, HoldOk;
    assert OpOk(w, s, u);
    assert u in w.pods by { KnownPod(w, s, u); }
    PhaseChangeOk(w, s, u, op);
    OnlyOpKeeps(w, s, SetOp(s, u, op), u);
  }

  lemma KnownPod(w: World, s: State, u: string)
    requires OpOk(w, s, u)
    ensures u in w.pods
  {
  }

  lemma FetchedCovers(w: World, content: Content, u: string)
    requires ContentOk(w, content) && u in w.pods
    ensures SnapCovers(w, content, content, u)
  {
  }

  lemma AddFetchKeeps(w: World, s: State, u: string)
    requires Inv(w, s) && MayAdd(w, s, u, AddFetch)
    ensures Inv(w, AfterAdd(w, s, u, AddFetch))
  {
    hide Static, LiveOk, OripsOk, HoldOk, OpOk, ContentOk, SnapCovers;
    var pool := s.pools[PoolAt(w, s, u)];
    FetchedCovers(w, pool.content, u);
    PhaseChangeKeeps(w, s, u, s.ops[u].(phase := Choose(pool)));
  }

  lemma ChosenPhaseKeeps(w: World, s: State, u: string, c: Choice)
    requires Inv(w, s) && InAdd(s, u) && ChoiceOk(w, s, u, c)
    ensures Inv(w, SetOp(s, u, s.ops[u].(phase := WritePool(c))))
  {
    hide OpOk, Static, PoolsOk, LiveOk, OripsOk, HoldOk, SnapOk, MayChoose, Inv;
    PhaseChangeKeeps(w, s, u, s.ops[u].(phase := WritePool(c)));
  }

  lemma StalePhaseKeeps(w: World, s: State, u: string, c: Choice)
    requires Inv(w, s) && InAdd(s, u) && ChoiceOk(w, s, u, c) && c.reserve
    requires c.addr in s.orips && !Foreign(w.pods[u], s.orips[c.addr]) && s.orips[c.addr].podUID != u
    ensures Inv(w, SetOp(s, u, s.ops[u].(phase := DropStale(c, s.orips[c.addr].podUID))))
  {
    hide OpOk, Static, PoolsOk, LiveOk, HoldOk, SnapOk, MayChoose;
    PhaseChangeKeeps(w, s, u, s.ops[u].(phase := DropStale(c, s.orips[c.addr].podUID)));
  }

  /** What the pod owns in a pool whose range fell through is at most the address it fell through on. */
  lemma FellThroughSettled(w: World, content: Content, snap: Content, u: string, taken: set<Address>, a: Address, c: string, fell: set<Address>)
    requires u in w.pods && SnapCovers(w, content, snap, u) && MayChoose(w.pods[u], snap, taken, a)
    ensures Settled(w, content, u, c, fell + {a})
  {
  }

  lemma FallThroughKeeps(w: World, s: State, u: string, a: Address, created: bool)
    requires Inv(w, s) && InAdd(s, u) && AtRange(w, s, u) && s.ops[u].phase.Choose?
    requires MayChoose(w.pods[u], s.ops[u].phase.snap.content, s.ops[u].taken, a)
    ensures Inv(w, FallThrough(w, s, u, a, created))
  {
    hide Static, PoolsOk, LiveOk, OripsOk, HoldOk, SnapOk, SnapCovers, MayChoose, Settled, Reserves;
    var op, id := s.ops[u], PoolAt(w, s, u);
    assert OpOk(w, s, u);
    FellThroughSettled(w, s.pools[id].content, op.phase.snap.content, u, op.taken, a, op.containerID, op.fell);
    var op' := op.(taken := op.taken + {a}, fell := op.fell + {a}, done := DoneWith(id, op.done, a, created, false));
    forall i | 0 <= i <= op.idx && i < |w.pods[u].ranges| && w.pods[u].ranges[i] in s.pools
      ensures Settled(w, s.pools[w.pods[u].ranges[i]].content, u, op.containerID, op.fell + {a})
    {
      if i < op.idx { MoreFellSettled(w, s.pools[w.pods[u].ranges[i]].content, u, op.containerID, op.fell, a); }
    }
    hide OpOk, Inv;
    NextRangeKeeps(w, s, u, op');
  }

  lemma MoreFellSettled(w: World, content: Content, u: string, c: string, fell: set<Address>, a: Address)
    requires Settled(w, content, u, c, fell)
    ensures Settled(w, content, u, c, fell + {a})
  {
  }

  lemma ChooseKeeps(w: World, s: State, u: string, a: Address, lastAttempt: bool)
    requires Inv(w, s) && InAdd(s, u) && AtRange(w, s, u) && s.ops[u].phase.Choose?
    requires MayChoose(w.pods[u], s.ops[u].phase.snap.content, s.ops[u].taken, a)
    ensures Inv(w, AfterChoose(w, s, u, a, lastAttempt))
  {
    hide Static, PoolsOk, LiveOk, OripsOk, HoldOk, SnapCovers, RangesSettled, DoneOk;
    var op, p := s.ops[u], w.pods[u];
    var snap := op.phase.snap;
    var created := a !in snap.content;
    assert SnapOk(s.pools[PoolAt(w, s, u)], snap) by { assert OpOk(w, s, u); }
    assert MayChoose(p, snap.content, {}, a);
    hide Inv, OpOk, MayChoose, SnapOk, FallThrough;
    if a !in s.orips {
      ChosenPhaseKeeps(w, s, u, Choice(snap, a, created, true));
    } else if Foreign(p, s.orips[a]) {
      if lastAttempt {
        FallThroughKeeps(w, s, u, a, created);
      } else {
        PhaseChangeKeeps(w, s, u, op.(taken := op.taken + {a}, phase := Fetch));
      }
    } else if s.orips[a].podUID != u {
      StalePhaseKeeps(w, s, u, Choice(snap, a, created, true));
    } else {
      ChosenPhaseKeeps(w, s, u, Choice(snap, a, created, false));
    }
  }

  /** A reservation dropped as stale is one that nobody relies on, if the pod of its UID is not live. */
  lemma StaleIsExpendable(w: World, s: State, u: string)
    requires Inv(w, s) && InAdd(s, u) && s.ops[u].phase.DropStale? && s.ops[u].phase.stale !in s.live
    ensures Expendable(s, s.ops[u].phase.choice.addr, s.ops[u].phase.stale)
  {
    hide Static, PoolsOk, OripsOk, OpOk;
    var stale := s.ops[u].phase.stale;
    assert stale in s.holds ==> HoldOk(w, s, stale);
  }

  lemma DropStaleKeeps(w: World, s: State, u: string)
    requires Inv(w, s) && InAdd(s, u) && s.ops[u].phase.DropStale? && s.ops[u].phase.stale !in s.live
    ensures Inv(w, AfterDropStale(s, u))
  {
    hide Static, PoolsOk, LiveOk, OripsOk, HoldOk, SnapOk, MayChoose, RangesSettled, DoneOk;
    var op := s.ops[u];
    var s' := Unreserve(s, op.phase.choice.addr, op.phase.stale);
    StaleIsExpendable(w, s, u);
    UnreserveKeeps(w, s, op.phase.choice.addr, op.phase.stale);
    assert ChoiceOk(w, s', u, op.phase.choice) by { assert OpOk(w, s', u); }
    hide Inv, OpOk;
    ChosenPhaseKeeps(w, s', u, op.phase.choice);
  }

  lemma CommitKeeps(w: World, s: State, u: string, a: Address, created: bool, reserved: bool)
    requires Inv(w, s) && InAdd(s, u) && AtRange(w, s, u) && (u in s.live ==> Reserves(s.orips, a, u))
    requires Settled(w, s.pools[PoolAt(w, s, u)].content, u, s.ops[u].containerID, {})
    requires u in s.holds ==> s.holds[u].containerID == s.ops[u].containerID && (reserved ==> a !in s.holds[u].addrs)
    ensures Inv(w, CommitRange(w, s, u, a, created, reserved))
  {
    hide Static, PoolsOk, LiveOk, OripsOk, HoldOk, SnapOk, SnapCovers, MayChoose, Settled, Reserves;
    var op, id := s.ops[u], PoolAt(w, s, u);
    assert OpOk(w, s, u);
    SettledAnyway(w, s.pools[id].content, u, op.containerID, op.fell);
    hide OpOk, Inv;
    NextRangeKeeps(w, s, u, op.(taken := op.taken + {a}, got := op.got + {a}, done := DoneWith(id, op.done, a, created, reserved)));
  }

  lemma SettledAnyway(w: World, content: Content, u: string, c: string, fell: set<Address>)
    requires Settled(w, content, u, c, {})
    ensures Settled(w, content, u, c, fell)
  {
  }

  /** Writing the chosen entry keeps the content well-formed. */
  lemma ChosenContentOk(w: World, content: Content, u: string, c: string, a: Address)
    requires ContainerOk(w, u, c) && ContentOk(w, content) && MayChoose(w.pods[u], content, {}, a)
    ensures
      var content' := content[a := Entry(w.pods[u], c)];
      ContentOk(w, content') && Settled(w, content', u, c, {}) && Writes(content, content', Some(Entry(w.pods[u], c)))
  {
  }

  /** The write of an ADD lands: the pool holds the entry, and no older hold is left. */
  lemma LandedWriteKeeps(w: World, s: State, u: string, id: nat, a: Address)
    requires Inv(w, s) && InAdd(s, u) && AtRange(w, s, u) && id == PoolAt(w, s, u) && s.ops[u].phase.WritePool?
    requires MayChoose(w.pods[u], s.pools[id].content, {}, a)
    ensures
      var c := s.ops[u].containerID;
      var content' := s.pools[id].content[a := Entry(w.pods[u], c)];
      var s' := Store(TakeOver(s, u, c), id, content');
      Inv(w, s') && Settled(w, content', u, c, {}) && (u in s'.holds ==> s'.holds[u].containerID == c)
  {
    hide Static, LiveOk, OripsOk, HoldOk, EntryOk, AddOk, ContentOk, Writes, Settled, MayChoose;
    var c := s.ops[u].containerID;
    var s1 := TakeOver(s, u, c);
    EndHoldKeeps(w, s, u);
    assert OpOk(w, s1, u) && PoolsOk(w, s1.pools);
    ChosenContentOk(w, s.pools[id].content, u, c, a);
    StoreKeeps(w, s1, u, id, s.pools[id].content[a := Entry(w.pods[u], c)], Some(Entry(w.pods[u], c)));
  }

  lemma WriteKeeps(w: World, s: State, u: string)
    requires Inv(w, s) && InAdd(s, u) && AtRange(w, s, u) && s.ops[u].phase.WritePool?
    ensures Inv(w, AfterWrite(w, s, u))
  {
    hide Static, PoolsOk, LiveOk, OripsOk, HoldOk, RangesSettled, DoneOk, MayChoose, Settled, Reserves;
    assert OpOk(w, s, u);
    var op, id := s.ops[u], PoolAt(w, s, u);
    var c := op.phase.choice;
    if c.snap.version != s.pools[id].version {
      hide Inv, OpOk;
      PhaseChangeKeeps(w, s, u, op.(phase := Fetch));
    } else {
      LandedWriteKeeps(w, s, u, id, c.addr);
      hide Inv, OpOk;
      var s' := Store(TakeOver(s, u, op.containerID), id, c.snap.content[c.addr := Entry(w.pods[u], op.containerID)]);
      if c.reserve {
        PhaseChangeKeeps(w, s', u, op.(phase := Reserve(c)));
      } else {
        CommitKeeps(w, s', u, c.addr, c.created, false);
      }
    }
  }

  lemma ReserveStepKeeps(w: World, s: State, u: string, fails: bool)
    requires Inv(w, s) && InAdd(s, u) && AtRange(w, s, u) && s.ops[u].phase.Reserve?
    ensures Inv(w, AfterReserve(w, s, u, fails))
  {
    hide Static, PoolsOk, LiveOk, OripsOk, RangesSettled, DoneOk, MayChoose, Settled, SafeFor;
    assert OpOk(w, s, u) && (u in s.holds ==> HoldOk(w, s, u));
    var op := s.ops[u];
    var c := op.phase.choice;
    if !fails && c.addr !in s.orips {
      ReserveKeeps(w, s, c.addr, u);
      hide Inv, OpOk;
      CommitKeeps(w, s.(orips := s.orips[c.addr := Orip(w.pods[u].podRef, w.pods[u].ifName, u)]), u, c.addr, c.created, true);
    } else {
      hide Inv, OpOk;
      PhaseChangeKeeps(w, s, u, op.(phase := if c.created then UndoEntry(c) else Fetch));
    }
  }

  lemma UndoKeeps(w: World, s: State, u: string, removes: bool)
    requires Inv(w, s) && InAdd(s, u) && AtRange(w, s, u) && s.ops[u].phase.UndoEntry?
    ensures Inv(w, AfterUndo(w, s, u, removes))
  {
    hide Inv, OpOk;
    var op := s.ops[u];
    var id, a := PoolAt(w, s, u), op.phase.choice.addr;
    DropEntryKeeps(w, s, u, id, a, op.containerID);
    PhaseChangeKeeps(w, if removes then DropEntry(w, s, u, id, a, op.containerID) else s, u, op.(phase := Fetch));
  }

  lemma AddFailKeeps(w: World, s: State, u: string)
    requires Inv(w, s) && InAdd(s, u)
    ensures Inv(w, AfterAdd(w, s, u, AddFail))
  {
    hide Static, PoolsOk, LiveOk, OripsOk, HoldOk, RangesSettled, PhaseOk;
    assert OpOk(w, s, u);
    OnlyOpKeeps(w, s, AfterAdd(w, s, u, AddFail), u);
  }

  lemma AddKeeps(w: World, s: State, u: string, add: AddStep)
    requires Inv(w, s) && MayAdd(w, s, u, add) && NoLiveDrop(s, Adding(u, add))
    ensures Inv(w, AfterAdd(w, s, u, add))
  {
    hide Inv;
    match add
    case AddStart(c) => AddStartKeeps(w, s, u, c);
    case AddFetch => AddFetchKeeps(w, s, u);
    case AddChoose(a, lastAttempt) => ChooseKeeps(w, s, u, a, lastAttempt);
    case AddDropStale => DropStaleKeeps(w, s, u);
    case AddWrite => WriteKeeps(w, s, u);
    case AddRetry => PhaseChangeKeeps(w, s, u, s.ops[u].(phase := Fetch));
    case AddReserve(fails) => ReserveStepKeeps(w, s, u, fails);
    case AddUndo(removes) => UndoKeeps(w, s, u, removes);
    case AddFail => AddFailKeeps(w, s, u);
  }

  // ---------------------------------------------------------------------
  // Rollback steps
  // ---------------------------------------------------------------------

  lemma RollKeeps(w: World, s: State, u: string, roll: RollStep)
    requires Inv(w, s) && MayRoll(w, s, u, roll)
    ensures Inv(w, AfterRoll(w, s, u, roll))
  {
    hide Static, PoolsOk, LiveOk, OripsOk, HoldOk;
    assert OpOk(w, s, u);
    var op := s.ops[u];
    match roll
    case RollEntry => DropEntryKeeps(w, s, u, op.done[0].pool, op.done[0].addr, op.containerID);
    case RollReservation => UnreserveKeeps(w, s, op.done[0].addr, u);
    case RollSkip => OnlyOpKeeps(w, s, AfterRoll(w, s, u, roll), u);
  }

  // ---------------------------------------------------------------------
  // DEL steps
  // ---------------------------------------------------------------------

  lemma DelPhaseKeeps(w: World, s: State, u: string, op: Op)
    requires Inv(w, s) && InDel(s, u) && op.Del? && op.containerID == s.ops[u].containerID && DelOk(w, SetOp(s, u, op), u, op)
    ensures Inv(w, SetOp(s, u, op))
  {
    hide DelOk, Static, PoolsOk, LiveOk, OripsOk, HoldOk;
    assert OpOk(w, s, u);
    OnlyOpKeeps(w, s, SetOp(s, u, op), u);
  }

  lemma DelStartKeeps(w: World, s: State, u: string, c: string)
    requires Inv(w, s) && MayDel(w, s, u, DelStart(c))
    ensures Inv(w, AfterDel(w, s, u, DelStart(c)))
  {
    hide Static, PoolsOk, LiveOk, OripsOk, HoldOk, AddOk;
    EndHoldKeeps(w, s, u);
    if w.pods[u].ranges != [] {
      OnlyOpKeeps(w, EndHold(s, u, c), AfterDel(w, s, u, DelStart(c)), u);
    }
  }

  /** While the pod holds addresses through another container, a DEL finds none of them. */
  lemma HeldIsNotFound(w: World, u: string, content: Content, c: string, h: Hold, a: Address)
    requires ContentOk(w, content) && ContainerOk(w, u, c) && SafeFor(w, content, u, h.containerID, h.addrs)
    requires a in h.addrs && a in content && h.containerID != c
    ensures !HeldByContainer(content[a], w.pods[u], c)
  {
  }

  lemma DelReadKeeps(w: World, s: State, u: string)
    requires Inv(w, s) && MayDel(w, s, u, DelRead)
    ensures Inv(w, AfterDel(w, s, u, DelRead))
  {
    hide Static, LiveOk, OripsOk, ContentOk, SafeFor, HeldByContainer, Reserves;
    assert OpOk(w, s, u);
    var op, id := s.ops[u], PoolAt(w, s, u);
    var content := s.pools[id].content;
    if u in s.holds {
      assert HoldOk(w, s, u);
      forall a | a in s.holds[u].addrs && a in content ensures !HeldByContainer(content[a], w.pods[u], op.containerID) {
        HeldIsNotFound(w, u, content, op.containerID, s.holds[u], a);
      }
    }
    hide Inv, OpOk;
    DelPhaseKeeps(w, s, u, op.(delPhase := DelChoose(s.pools[id])));
  }

  lemma NextDelRangeKeeps(w: World, s: State, u: string)
    requires Inv(w, s) && InDel(s, u) && AtRange(w, s, u)
    ensures Inv(w, NextDelRange(w, s, u))
  {
    hide Static, PoolsOk, LiveOk, OripsOk, HoldOk, AddOk;
    assert OpOk(w, s, u);
    OnlyOpKeeps(w, s, NextDelRange(w, s, u), u);
  }

  lemma DelFindKeeps(w: World, s: State, u: string, a: Address)
    requires Inv(w, s) && MayDel(w, s, u, DelFind(a))
    ensures Inv(w, AfterDel(w, s, u, DelFind(a)))
  {
    hide Static, PoolsOk, LiveOk, OripsOk, HoldOk, SnapOk;
    assert OpOk(w, s, u);
    DelPhaseKeeps(w, s, u, s.ops[u].(pending := Some(a), delPhase := DelWrite(s.ops[u].delPhase.snap, a)));
  }

  lemma DelNoneKeeps(w: World, s: State, u: string)
    requires Inv(w, s) && MayDel(w, s, u, DelNone)
    ensures Inv(w, AfterDel(w, s, u, DelNone))
  {
    hide Static, PoolsOk, LiveOk, OripsOk, HoldOk, SnapOk, HeldByContainer;
    if s.ops[u].pending.None? {
      NextDelRangeKeeps(w, s, u);
    } else {
      assert OpOk(w, s, u);
      DelPhaseKeeps(w, s, u, s.ops[u].(delPhase := DelUnreserve(s.ops[u].pending.value)));
    }
  }

  lemma DelPatchKeeps(w: World, s: State, u: string)
    requires Inv(w, s) && InDel(s, u) && AtRange(w, s, u) && s.ops[u].delPhase.DelWrite?
    ensures Inv(w, AfterDelPatch(w, s, u))
  {
    hide Static, LiveOk, OripsOk, HoldOk, ContentOk, Writes, AddOk;
    assert OpOk(w, s, u);
    var op, id := s.ops[u], PoolAt(w, s, u);
    if op.delPhase.snap.version == s.pools[id].version {
      RemovalIsWrite(w, s.pools[id].content, op.delPhase.addr);
      StoreKeeps(w, s, u, id, s.pools[id].content - {op.delPhase.addr}, None);
      DelPhaseKeeps(w, Store(s, id, s.pools[id].content - {op.delPhase.addr}), u, op.(delPhase := DelUnreserve(op.delPhase.addr)));
    } else {
      DelPhaseKeeps(w, s, u, op.(delPhase := DelFetch));
    }
  }

  lemma DelRetryKeeps(w: World, s: State, u: string)
    requires Inv(w, s) && MayDel(w, s, u, DelRetry)
    ensures Inv(w, AfterDel(w, s, u, DelRetry))
  {
    hide Static, PoolsOk, LiveOk, OripsOk, HoldOk, AddOk, SnapOk;
    assert OpOk(w, s, u);
    DelPhaseKeeps(w, s, u, s.ops[u].(delPhase := DelFetch));
  }

  lemma DelReleaseKeeps(w: World, s: State, u: string, fails: bool)
    requires Inv(w, s) && InDel(s, u) && AtRange(w, s, u) && s.ops[u].delPhase.DelUnreserve?
    ensures Inv(w, AfterDelRelease(w, s, u, fails))
  {
    hide Static, PoolsOk, LiveOk, OripsOk, HoldOk, AddOk;
    assert OpOk(w, s, u);
    if fails {
      DelPhaseKeeps(w, s, u, s.ops[u].(delPhase := DelFetch));
    } else {
      UnreserveKeeps(w, s, s.ops[u].delPhase.addr, u);
      NextDelRangeKeeps(w, Unreserve(s, s.ops[u].delPhase.addr, u), u);
    }
  }

  lemma DelKeeps(w: World, s: State, u: string, del: DelStep)
    requires Inv(w, s) && MayDel(w, s, u, del)
    ensures Inv(w, AfterDel(w, s, u, del))
  {
    hide Inv;
    match del
    case DelStart(c) => DelStartKeeps(w, s, u, c);
    case DelRead => DelReadKeeps(w, s, u);
    case DelFind(a) => DelFindKeeps(w, s, u, a);
    case DelNone => DelNoneKeeps(w, s, u);
    case DelPatch => DelPatchKeeps(w, s, u);
    case DelRetry => DelRetryKeeps(w, s, u);
    case DelRelease(fails) => DelReleaseKeeps(w, s, u, fails);
  }

  // ---------------------------------------------------------------------
  // Pod lifecycle
  // ---------------------------------------------------------------------

  /** Liveness matters to an ADD only in that its reservations are not safe once the pod has gone. */
  lemma LiveOpStays(w: World, s: State, live': set<string>, gone': set<string>, v: string)
    requires OpOk(w, s, v)
    requires InAdd(s, v) ==> (v in live' ==> v in s.live) && (v in live' || v in gone')
    ensures OpOk(w, s.(live := live', gone := gone'), v)
  {
    hide SnapOk, SnapCovers, Settled, MayChoose, Reserves, DoneOk;
  }

  lemma AddOfKnown(w: World, s: State, v: string)
    requires OpOk(w, s, v) && InAdd(s, v)
    ensures v in s.live || v in s.gone
  {
  }

  lemma PodStartKeeps(w: World, s: State, u: string)
    requires Inv(w, s) && MayLife(w, s, u, PodStart)
    ensures Inv(w, AfterLife(s, u, PodStart))
  {
    hide OpOk, Static, PoolsOk, OripsOk, SafeFor, Reserves;
    var s' := s.(live := s.live + {u});
    forall v | v in s'.ops ensures OpOk(w, s', v) {
      if InAdd(s, v) { AddOfKnown(w, s, v); }
      LiveOpStays(w, s, s'.live, s.gone, v);
    }
    forall v | v in s'.holds ensures HoldOk(w, s', v) { assert HoldOk(w, s, v); }
  }

  /** A pod stops, whatever it is doing. */
  lemma PodStopKeeps(w: World, s: State, u: string)
    requires Inv(w, s)
    ensures Inv(w, AfterLife(s, u, PodStop))
  {
    hide OpOk, Static, PoolsOk, OripsOk, SafeFor, Reserves;
    EndHoldKeeps(w, s, u);
    var s1 := s.(holds := s.holds - {u});
    var s' := s1.(live := s.live - {u}, gone := s.gone + {u});
    forall v | v in s'.ops ensures OpOk(w, s', v) {
      if InAdd(s1, v) { AddOfKnown(w, s1, v); }
      LiveOpStays(w, s1, s'.live, s'.gone, v);
    }
    forall v | v in s'.holds ensures HoldOk(w, s', v) { assert HoldOk(w, s1, v); }
  }

  lemma CrashKeeps(w: World, s: State, u: string)
    requires Inv(w, s) && u in s.ops
    ensures Inv(w, AfterLife(s, u, Crash))
  {
    hide OpOk, HoldOk, Static, PoolsOk, LiveOk, OripsOk;
    KnownPod(w, s, u);
    OnlyOpKeeps(w, s, AfterLife(s, u, Crash), u);
  }

  // ---------------------------------------------------------------------
  // Whole runs
  // ---------------------------------------------------------------------

  lemma StepKeepsInv(w: World, s: State, step: Step)
    requires Inv(w, s) && May(w, s, step) && NoLiveDrop(s, step)
    ensures Inv(w, After(w, s, step))
  {
    hide Inv;
    match step
    case Life(u, PodStart) => PodStartKeeps(w, s, u);
    case Life(u, PodStop) => PodStopKeeps(w, s, u);
    case Life(u, Crash) => CrashKeeps(w, s, u);
    case Adding(u, add) => AddKeeps(w, s, u, add);
    case Rolling(u, roll) => RollKeeps(w, s, u, roll);
    case Deleting(u, del) => DelKeeps(w, s, u, del);
  }

  lemma InitIsInv(w: World, s: State)
    requires Init(w, s)
    ensures Inv(w, s)
  {
  }

  lemma {:induction false} RunKeepsInv(w: World, trace: seq<State>, steps: seq<Step>, i: nat)
    requires IsRun(w, trace, steps) && NoLiveDrops(w, trace, steps) && i < |trace|
    ensures Inv(w, trace[i])
  {
    hide Inv, Init, May, After, NoLiveDrop;
    if i == 0 {
      InitIsInv(w, trace[0]);
    } else {
      RunKeepsInv(w, trace, steps, i - 1);
      StepKeepsInv(w, trace[i - 1], steps[i - 1]);
    }
  }

  /** At every moment of every run in which no reservation of a live pod is deleted as a stale one, an
      address that a live pod holds is reserved cluster-wide under that pod's UID, and two live pods never hold
      the same address, even through different pools. */
  lemma CrossPoolExclusion(w: World, trace: seq<State>, steps: seq<Step>, i: nat, u: string, v: string)
    requires IsRun(w, trace, steps) && NoLiveDrops(w, trace, steps) && i < |trace|
    requires u in trace[i].holds && v in trace[i].holds && u != v
    ensures u in trace[i].live && forall a :: a in trace[i].holds[u].addrs ==> Reserves(trace[i].orips, a, u)
    ensures trace[i].holds[u].addrs !! trace[i].holds[v].addrs
  {
    RunKeepsInv(w, trace, steps, i);
    hide Static, PoolsOk, LiveOk, OripsOk, OpOk, SafeFor;
    assert HoldOk(w, trace[i], u) && HoldOk(w, trace[i], v);
  }

  // ---------------------------------------------------------------------
  // What a step may cost
  // ---------------------------------------------------------------------

  /** Everything that is held is still reserved. */
  ghost predicate HeldSurvive(s: State, orips': map<Address, Orip>) {
    forall u, a :: u in s.holds && a in s.holds[u].addrs ==> Reserves(orips', a, u)
  }

  /** The step deletes the reservation of an address that a live pod holds, as a stale one. */
  ghost predicate DropsHeld(s: State, step: Step) {
    && step.Adding? && step.add.AddDropStale? && InAdd(s, step.u) && s.ops[step.u].phase.DropStale?
    && s.ops[step.u].phase.stale in s.holds && s.ops[step.u].phase.choice.addr in s.holds[s.ops[step.u].phase.stale].addrs
  }

  lemma UnreserveSurvives(s: State, a: Address, x: string)
    requires HeldSurvive(s, s.orips)
    ensures HeldSurvive(s, Unreserve(s, a, x).orips) <==> !(x in s.holds && a in s.holds[x].addrs)
  {
    if x in s.holds && a in s.holds[x].addrs {
      assert Reserves(s.orips, a, x) && !Reserves(Unreserve(s, a, x).orips, a, x);
    }
  }

  lemma InvHeldReserved(w: World, s: State)
    requires Inv(w, s)
    ensures HeldSurvive(s, s.orips)
  {
    hide Static, PoolsOk, LiveOk, OripsOk, OpOk, SafeFor;
    forall u, a | u in s.holds && a in s.holds[u].addrs ensures Reserves(s.orips, a, u) { assert HoldOk(w, s, u); }
  }

  ghost predicate Kept(orips: map<Address, Orip>, orips': map<Address, Orip>) {
    forall a :: a in orips ==> a in orips' && orips'[a] == orips[a]
  }

  /** Nobody but u has begun an ADD. */
  ghost predicate NoOtherAdd(ops: map<string, Op>, ops': map<string, Op>, u: string) {
    forall v :: v != u && v in ops' && ops'[v].Add? ==> v in ops && ops[v].Add?
  }

  /** Reservations are kept, and nobody but u has begun an ADD or become live. */
  ghost predicate Mild(s: State, s': State, u: string) {
    s'.live == s.live && Kept(s.orips, s'.orips) && NoOtherAdd(s.ops, s'.ops, u)
  }

  lemma NextRangeIsMild(w: World, s: State, u: string, op: Op)
    requires u in w.pods && op.Add?
    ensures Mild(s, NextRange(w, s, u, op), u)
  {
    hide Succeeded;
    SucceededSame(EndOp(s, u), u, op.containerID, op.got - op.fell);
  }

  lemma SucceededSame(s: State, u: string, c: string, addrs: set<Address>)
    ensures Succeeded(s, u, c, addrs) == s.(holds := Succeeded(s, u, c, addrs).holds)
  {
  }

  lemma CommitIsMild(w: World, s: State, u: string, a: Address, created: bool, reserved: bool)
    requires InAdd(s, u) && AtRange(w, s, u)
    ensures Mild(s, CommitRange(w, s, u, a, created, reserved), u)
  {
    hide NextRange, Mild;
    var op := s.ops[u];
    NextRangeIsMild(w, s, u, op.(taken := op.taken + {a}, got := op.got + {a}, done := DoneWith(PoolAt(w, s, u), op.done, a, created, reserved)));
  }

  lemma ChooseIsMild(w: World, s: State, u: string, a: Address, lastAttempt: bool)
    requires InAdd(s, u) && AtRange(w, s, u) && s.ops[u].phase.Choose?
    ensures Mild(s, AfterChoose(w, s, u, a, lastAttempt), u)
  {
    hide NextRange, Foreign;
    var op, created := s.ops[u], a !in s.ops[u].phase.snap.content;
    NextRangeIsMild(w, s, u, op.(taken := op.taken + {a}, fell := op.fell + {a}, done := DoneWith(PoolAt(w, s, u), op.done, a, created, false)));
  }

  lemma WriteIsMild(w: World, s: State, u: string)
    requires InAdd(s, u) && AtRange(w, s, u) && s.ops[u].phase.WritePool?
    ensures Mild(s, AfterWrite(w, s, u), u)
  {
    hide CommitRange;
    var op, id := s.ops[u], PoolAt(w, s, u);
    var c := op.phase.choice;
    if c.snap.version == s.pools[id].version && !c.reserve {
      var s' := Store(TakeOver(s, u, op.containerID), id, c.snap.content[c.addr := Entry(w.pods[u], op.containerID)]);
      CommitIsMild(w, s', u, c.addr, c.created, false);
    }
  }

  lemma ReserveIsMild(w: World, s: State, u: string, fails: bool)
    requires InAdd(s, u) && AtRange(w, s, u) && s.ops[u].phase.Reserve?
    ensures Mild(s, AfterReserve(w, s, u, fails), u)
  {
    hide CommitRange;
    var op, p := s.ops[u], w.pods[u];
    var c := op.phase.choice;
    if !fails && c.addr !in s.orips {
      CommitIsMild(w, s.(orips := s.orips[c.addr := Orip(p.podRef, p.ifName, u)]), u, c.addr, c.created, true);
    }
  }

  lemma AddIsMild(w: World, s: State, u: string, add: AddStep)
    requires MayAdd(w, s, u, add) && !add.AddDropStale?
    ensures Mild(s, AfterAdd(w, s, u, add), u)
  {
    hide AfterChoose, AfterWrite, AfterReserve, MayChoose;
    match add
    case AddChoose(a, lastAttempt) => ChooseIsMild(w, s, u, a, lastAttempt);
    case AddWrite => WriteIsMild(w, s, u);
    case AddReserve(fails) => ReserveIsMild(w, s, u, fails);
    case _ =>
  }

  lemma DelIsMild(w: World, s: State, u: string, del: DelStep)
    requires MayDel(w, s, u, del) && !del.DelRelease?
    ensures Mild(s, AfterDel(w, s, u, del), u)
  {
    hide HeldByContainer, AfterDelPatch, NextDelRange;
    match del
    case DelPatch => DelPatchIsNoAdd(w, s, u);
    case DelNone => NextDelRangeIsNoAdd(w, s, u);
    case _ =>
  }

  /** Only three steps delete reservations; all others leave them or add one. */
  lemma OtherStepsKeep(w: World, s: State, step: Step)
    requires May(w, s, step)
    requires !(step.Adding? && step.add.AddDropStale?) && !(step.Rolling? && step.roll.RollReservation?)
             && !(step.Deleting? && step.del.DelRelease?)
    ensures Kept(s.orips, After(w, s, step).orips)
  {
    hide MayAdd, AfterAdd, MayDel, AfterDel;
    match step
    case Adding(u, add) => AddIsMild(w, s, u, add);
    case Deleting(u, del) => DelIsMild(w, s, u, del);
    case _ =>
  }

  lemma RollSurvives(w: World, s: State, u: string)
    requires Inv(w, s) && MayRoll(w, s, u, RollReservation)
    ensures HeldSurvive(s, AfterRoll(w, s, u, RollReservation).orips)
  {
    InvHeldReserved(w, s);
    hide HeldSurvive, HoldOk, Static, PoolsOk, LiveOk, OripsOk;
    assert OpOk(w, s, u);
    UnreserveSurvives(s, s.ops[u].done[0].addr, u);
  }

  lemma DelReleaseSurvives(w: World, s: State, u: string, fails: bool)
    requires Inv(w, s) && InDel(s, u) && AtRange(w, s, u) && s.ops[u].delPhase.DelUnreserve?
    ensures HeldSurvive(s, AfterDelRelease(w, s, u, fails).orips)
  {
    InvHeldReserved(w, s);
    hide HeldSurvive, HoldOk, Static, PoolsOk, LiveOk, OripsOk;
    assert OpOk(w, s, u);
    UnreserveSurvives(s, s.ops[u].delPhase.addr, u);
  }

  /** What is held stays reserved in a step if and only if the step does not delete the reservation as a
      stale one. */
  lemma HeldSurviveExactly(w: World, s: State, step: Step)
    requires Inv(w, s) && May(w, s, step)
    ensures HeldSurvive(s, After(w, s, step).orips) <==> !DropsHeld(s, step)
  {
    InvHeldReserved(w, s);
    hide HeldSurvive, Inv, AfterChoose, AfterWrite, AfterReserve, AfterUndo, AfterDelPatch, AfterDelRelease, MayChoose, HeldByContainer;
    if step.Adding? && step.add.AddDropStale? {
      UnreserveSurvives(s, s.ops[step.u].phase.choice.addr, s.ops[step.u].phase.stale);
    } else if step.Rolling? && step.roll.RollReservation? {
      RollSurvives(w, s, step.u);
    } else if step.Deleting? && step.del.DelRelease? {
      DelReleaseSurvives(w, s, step.u, step.del.fails);
    } else {
      OtherStepsKeep(w, s, step);
      MoreSurvive(s, After(w, s, step).orips);
    }
  }

  lemma MoreSurvive(s: State, orips': map<Address, Orip>)
    requires HeldSurvive(s, s.orips) && Kept(s.orips, orips')
    ensures HeldSurvive(s, orips')
  {
  }

  // ---------------------------------------------------------------------
  // Runs without late ADDs
  // ---------------------------------------------------------------------

  /** No other pod of the same name is live or has an ADD in flight. */
  ghost predicate Alone(w: World, s: State, u: string) {
    u in w.pods && forall v :: v in w.pods && v != u && w.pods[v].podRef == w.pods[u].podRef ==> v !in s.live && !InAdd(s, v)
  }

  ghost predicate AllAlone(w: World, s: State) {
    forall u :: InAdd(s, u) ==> Alone(w, s, u)
  }

  /** A step makes a pod live or begins an ADD only in its own way. */
  ghost predicate OwnWay(s: State, s': State, step: Step, v: string) {
    && (v in s'.live && v !in s.live ==> step == Life(v, PodStart))
    && (InAdd(s', v) && !InAdd(s, v) ==> step.Adding? && step.u == v && step.add.AddStart?)
  }

  lemma MildIsOwnWay(s: State, s': State, step: Step, v: string)
    requires s'.live == s.live && NoOtherAdd(s.ops, s'.ops, step.u)
    requires InAdd(s', step.u) ==> InAdd(s, step.u) || (step.Adding? && step.add.AddStart?)
    ensures OwnWay(s, s', step, v)
  {
  }

  lemma DelIsNoAdd(w: World, s: State, u: string, del: DelStep)
    requires MayDel(w, s, u, del)
    ensures var s' := AfterDel(w, s, u, del); !InAdd(s', u) && s'.live == s.live && NoOtherAdd(s.ops, s'.ops, u)
  {
    hide HeldByContainer, AfterDelPatch, AfterDelRelease, NextDelRange;
    match del
    case DelPatch => DelPatchIsNoAdd(w, s, u);
    case DelNone => NextDelRangeIsNoAdd(w, s, u);
    case DelRelease(fails) => DelReleaseIsNoAdd(w, s, u, fails);
    case _ =>
  }

  lemma NextDelRangeIsNoAdd(w: World, s: State, u: string)
    requires InDel(s, u) && AtRange(w, s, u)
    ensures var s' := NextDelRange(w, s, u); !InAdd(s', u) && s'.live == s.live && s'.orips == s.orips && NoOtherAdd(s.ops, s'.ops, u)
  {
  }

  lemma DelPatchIsNoAdd(w: World, s: State, u: string)
    requires InDel(s, u) && AtRange(w, s, u) && s.ops[u].delPhase.DelWrite?
    ensures var s' := AfterDelPatch(w, s, u); !InAdd(s', u) && s'.live == s.live && s'.orips == s.orips && NoOtherAdd(s.ops, s'.ops, u)
  {
  }

  lemma DelReleaseIsNoAdd(w: World, s: State, u: string, fails: bool)
    requires InDel(s, u) && AtRange(w, s, u) && s.ops[u].delPhase.DelUnreserve?
    ensures var s' := AfterDelRelease(w, s, u, fails); !InAdd(s', u) && s'.live == s.live && NoOtherAdd(s.ops, s'.ops, u)
  {
    hide NextDelRange;
    NextDelRangeIsNoAdd(w, Unreserve(s, s.ops[u].delPhase.addr, u), u);
  }

  lemma RollIsNoAdd(w: World, s: State, u: string, roll: RollStep)
    requires MayRoll(w, s, u, roll)
    ensures var s' := AfterRoll(w, s, u, roll); !InAdd(s', u) && s'.live == s.live && NoOtherAdd(s.ops, s'.ops, u)
  {
  }

  lemma StepChangesWho(w: World, s: State, step: Step, v: string)
    requires May(w, s, step)
    ensures OwnWay(s, After(w, s, step), step, v)
  {
    hide OwnWay, MayChoose, AfterChoose, AfterWrite, AfterReserve, MayRoll, AfterRoll, MayDel, AfterDel;
    var s' := After(w, s, step);
    match step
    case Life(u, life) => LifeIsOwnWay(w, s, u, life, v);
    case Adding(u, add) =>
      if !add.AddDropStale? { AddIsMild(w, s, u, add); }
      MildIsOwnWay(s, s', step, v);
    case Rolling(u, roll) =>
      RollIsNoAdd(w, s, u, roll);
      MildIsOwnWay(s, s', step, v);
    case Deleting(u, del) =>
      DelIsNoAdd(w, s, u, del);
      MildIsOwnWay(s, s', step, v);
  }

  lemma LifeIsOwnWay(w: World, s: State, u: string, life: LifeStep, v: string)
    requires MayLife(w, s, u, life)
    ensures OwnWay(s, AfterLife(s, u, life), Life(u, life), v)
  {
  }

  lemma StepKeepsAlone(w: World, s: State, step: Step)
    requires Inv(w, s) && AllAlone(w, s) && May(w, s, step) && NoLateAdd(w, s, step)
    ensures AllAlone(w, After(w, s, step))
  {
    hide Static, PoolsOk, OripsOk, HoldOk, OpOk, After;
    var s' := After(w, s, step);
    forall u | InAdd(s', u) ensures Alone(w, s', u) {
      StepChangesWho(w, s, step, u);
      forall v | v in w.pods && v != u && u in w.pods && w.pods[v].podRef == w.pods[u].podRef ensures v !in s'.live && !InAdd(s', v) {
        StepChangesWho(w, s, step, v);
      }
    }
  }

  /** A stale reservation is one of another pod of the same name. */
  lemma AloneDropsNoLive(w: World, s: State, step: Step)
    requires Inv(w, s) && AllAlone(w, s)
    ensures NoLiveDrop(s, step)
  {
    hide Static, PoolsOk, LiveOk, OripsOk, HoldOk, ChoiceOk, RangesSettled, DoneOk;
    if InAdd(s, step.u) {
      assert OpOk(w, s, step.u) && Alone(w, s, step.u);
    }
  }

  lemma {:induction false} NoLateAddsKeepAlone(w: World, trace: seq<State>, steps: seq<Step>, i: nat)
    requires IsRun(w, trace, steps) && NoLateAdds(w, trace, steps) && i < |trace|
    ensures Inv(w, trace[i]) && AllAlone(w, trace[i])
  {
    hide Inv, AllAlone, May, After, NoLateAdd, NoLiveDrop;
    if i == 0 {
      InitIsInv(w, trace[0]);
      NobodyIsAlone(w, trace[0]);
    } else {
      NoLateAddsKeepAlone(w, trace, steps, i - 1);
      AloneDropsNoLive(w, trace[i - 1], steps[i - 1]);
      StepKeepsInv(w, trace[i - 1], steps[i - 1]);
      StepKeepsAlone(w, trace[i - 1], steps[i - 1]);
    }
  }

  lemma NobodyIsAlone(w: World, s: State)
    requires Init(w, s)
    ensures AllAlone(w, s)
  {
  }

  /** If pods are replaced only after their ADDs have ended, no reservation of a live pod is ever deleted
      as a stale one. */
  lemma LateAddsAreTheCause(w: World, trace: seq<State>, steps: seq<Step>)
    requires IsRun(w, trace, steps) && NoLateAdds(w, trace, steps)
    ensures NoLiveDrops(w, trace, steps)
  {
    hide Inv, AllAlone, May, After, NoLateAdd, NoLiveDrop;
    forall i | 0 <= i < |steps| ensures NoLiveDrop(trace[i], steps[i]) {
      NoLateAddsKeepAlone(w, trace, steps, i);
      AloneDropsNoLive(w, trace[i], steps[i]);
    }
  }
}
