/** DEL and rollback on a pool: read the map, drop records, write. */
module PoolRelease {
  import opened Prelude
  import opened Addressing
  import opened Allocation
  import opened AllocationLaws
  import opened Codec
  import opened AddAttempt

  /** The records at offsets js, with owners from m, write m cut down to js. */
  lemma WritesSome(m: Offsets, base: Addr, js: seq<nat>, list: seq<Reservation>)
    requires Distinct(js) && |list| == |js| && InFamily(m, base)
    requires forall i :: 0 <= i < |js| ==> js[i] in m && list[i] == ToReservation(m[js[i]], IPAddOffset(base, js[i]))
    ensures OffsetsOf(list, base) == Ok(Restrict(m, js))
  {
    hide Space, OffsetsOf, Restrict;
    WritesVisited(m, base, js, list);
  }

  // ---------------------------------------------------------------------
  // DEL
  // ---------------------------------------------------------------------

  ghost predicate HeldBy(m: Offsets, containerID: string, ifName: string, k: nat) {
    k in m && m[k].containerID == containerID && m[k].ifName == ifName
  }

  lemma MatchIndexOffset(m: Offsets, base: Addr, ks: seq<nat>, containerID: string, ifName: string)
    requires Visits(m, ks)
    ensures
      var i := MatchIndex(PoolList(m, base, ks), containerID, ifName, 0);
      && (i < |ks| ==> HeldBy(m, containerID, ifName, ks[i]))
      && (i == |ks| ==> forall k :: !HeldBy(m, containerID, ifName, k))
  {
  }

  lemma SwapRemoveIndex<T>(s: seq<T>, i: nat, j: nat)
    requires i < |s| && j < |s| - 1
    ensures SwapRemove(s, i)[j] == if j == i then s[|s| - 1] else s[j]
  {
  }

  lemma SwapRemoveDistinct(ks: seq<nat>, i: nat)
    requires Distinct(ks) && i < |ks|
    ensures Distinct(SwapRemove(ks, i))
    ensures forall k :: k in SwapRemove(ks, i) <==> k in ks && k != ks[i]
  {
    var js := SwapRemove(ks, i);
    forall k | k in ks && k != ks[i] ensures k in js {
      var j :| 0 <= j < |ks| && ks[j] == k;
      assert js[if j == |ks| - 1 then i else j] == k;
    }
  }

  /** For every reading order, a DEL that finds a record writes the pool without exactly that offset,
      and a DEL that finds none has nothing to remove. */
  lemma ReleaseRemovesOneKey(m: Offsets, base: Addr, ks: seq<nat>, containerID: string, ifName: string)
    requires Visits(m, ks) && InFamily(m, base)
    ensures
      var (after, ip) := Deallocated(PoolList(m, base, ks), containerID, ifName);
      var i := MatchIndex(PoolList(m, base, ks), containerID, ifName, 0);
      && (i == |ks| ==> ip.None? && forall k :: !HeldBy(m, containerID, ifName, k))
      && (i < |ks| ==>
            && HeldBy(m, containerID, ifName, ks[i]) && ip == IPAddOffset(base, ks[i]) && ip.Some?
            && OffsetsOf(after, base) == Ok(m - {ks[i]}))
  {
    hide Space, OffsetsOf, SwapRemove;
    MatchIndexOffset(m, base, ks, containerID, ifName);
    var i := MatchIndex(PoolList(m, base, ks), containerID, ifName, 0);
    if i < |ks| {
      WritesSwapped(m, base, ks, i);
    }
  }

  lemma WritesSwapped(m: Offsets, base: Addr, ks: seq<nat>, i: nat)
    requires Visits(m, ks) && InFamily(m, base) && i < |ks|
    ensures OffsetsOf(SwapRemove(PoolList(m, base, ks), i), base) == Ok(m - {ks[i]})
  {
    hide Space, Pow2, OffsetsOf, SwapRemove, IPAddOffset, Restrict;
    var list := PoolList(m, base, ks);
    var js, after := SwapRemove(ks, i), SwapRemove(list, i);
    SwapRemoveDistinct(ks, i);
    SwapRemoveLength(ks, i);
    SwapRemoveLength(list, i);
    forall j | 0 <= j < |js| ensures js[j] in m && after[j] == ToReservation(m[js[j]], IPAddOffset(base, js[j])) {
      SwapRemoveIndex(ks, i, j);
      SwapRemoveIndex(list, i, j);
    }
    WritesSome(m, base, js, after);
    RestrictWithout(m, js, ks[i]);
  }

  lemma SwapRemoveLength<T>(s: seq<T>, i: nat)
    requires i < |s|
    ensures |SwapRemove(s, i)| == |s| - 1
  {
  }

  lemma RestrictWithout(m: Offsets, js: seq<nat>, k: nat)
    requires forall j :: j in js <==> j in m && j != k
    ensures Restrict(m, js) == m - {k}
  {
  }

  // ---------------------------------------------------------------------
  // Rollback
  // ---------------------------------------------------------------------

  /** rollbackAllocationMatches: without any identity only the address is compared. */
  predicate RollbackMatches(ip: Addr, who: Requester, r: Reservation) {
    && r.ip == Some(ip)
    && (who == Requester("", "", "") ||
        (r.containerID == who.containerID && r.podRef == who.podRef && r.ifName == who.ifName))
  }

  /** The records a rollback keeps. */
  function Cleaned(list: seq<Reservation>, ip: Addr, who: Requester): seq<Reservation> {
    if list == [] then []
    else
      var last := list[|list| - 1];
      if RollbackMatches(ip, who, last) then Cleaned(list[..|list| - 1], ip, who)
      else Cleaned(list[..|list| - 1], ip, who) + [last]
  }

  /** The entry an ADD of who committed at offset k, if it is still there unchanged. */
  ghost predicate StillCommitted(m: Offsets, who: Requester, k: nat) {
    k in m && m[k] == Alloc(who)
  }

  function Without(ks: seq<nat>, k: nat): seq<nat> {
    if ks == [] then []
    else if ks[|ks| - 1] == k then Without(ks[..|ks| - 1], k)
    else Without(ks[..|ks| - 1], k) + [ks[|ks| - 1]]
  }

  lemma {:induction false} WithoutContents(ks: seq<nat>, k: nat)
    requires Distinct(ks)
    ensures Distinct(Without(ks, k)) && forall j :: j in Without(ks, k) <==> j in ks && j != k
  {
    if ks != [] {
      var init := ks[..|ks| - 1];
      WithoutContents(init, k);
      assert ks == init + [ks[|ks| - 1]];
      assert ks[|ks| - 1] !in init;
    }
  }

  lemma {:induction false} CleanedRecords(m: Offsets, base: Addr, ks: seq<nat>, list: seq<Reservation>, who: Requester, k: nat)
    requires |list| == |ks| && InFamily(m, base) && StillCommitted(m, who, k) && who.podRef != ""
    requires forall i :: 0 <= i < |ks| ==> ks[i] in m && list[i] == ToReservation(m[ks[i]], IPAddOffset(base, ks[i]))
    ensures
      var js, after := Without(ks, k), Cleaned(list, RawAddr(base.family, base.value + k), who);
      |after| == |js| && forall i :: 0 <= i < |js| ==> js[i] in m && after[i] == ToReservation(m[js[i]], IPAddOffset(base, js[i]))
  {
    hide Space;
    if ks != [] {
      CleanedRecords(m, base, ks[..|ks| - 1], list[..|list| - 1], who, k);
    }
  }

  lemma {:induction false} CleanedKeepsOthers(m: Offsets, base: Addr, ks: seq<nat>, list: seq<Reservation>, who: Requester, ip: Addr)
    requires |list| == |ks| && InFamily(m, base) && who.podRef != ""
    requires forall i :: 0 <= i < |ks| ==> ks[i] in m && list[i] == ToReservation(m[ks[i]], IPAddOffset(base, ks[i]))
    requires !(ip.family == base.family && base.value <= ip.value && StillCommitted(m, who, ip.value - base.value))
    ensures Cleaned(list, ip, who) == list
  {
    hide Space, Pow2;
    if ks != [] {
      var n := |ks| - 1;
      CleanedKeepsOthers(m, base, ks[..n], list[..n], who, ip);
      assert !RollbackMatches(ip, who, list[n]);
      assert list == list[..n] + [list[n]];
    }
  }

  /** For every reading order, a rollback finds a record exactly when the entry its ADD committed is
      still there unchanged, and then writes the pool without exactly that offset. */
  lemma RollbackRemovesOwnKey(m: Offsets, base: Addr, ks: seq<nat>, who: Requester, k: nat)
    requires Visits(m, ks) && InFamily(m, base) && base.value + k < Space(base.family) && who.podRef != ""
    ensures
      var list := PoolList(m, base, ks);
      var after := Cleaned(list, RawAddr(base.family, base.value + k), who);
      && (StillCommitted(m, who, k) ==> |after| < |list| && OffsetsOf(after, base) == Ok(m - {k}))
      && (!StillCommitted(m, who, k) ==> after == list)
  {
    hide Space, OffsetsOf;
    var list := PoolList(m, base, ks);
    if StillCommitted(m, who, k) {
      WithoutContents(ks, k);
      CleanedRecords(m, base, ks, list, who, k);
      var js := Without(ks, k);
      WritesSome(m, base, js, Cleaned(list, RawAddr(base.family, base.value + k), who));
      RestrictWithout(m, js, k);
      assert k in ks;
      WithoutShorter(ks, k);
    } else {
      CleanedKeepsOthers(m, base, ks, list, who, RawAddr(base.family, base.value + k));
    }
  }

  lemma {:induction false} WithoutShorter(ks: seq<nat>, k: nat)
    requires k in ks
    ensures |Without(ks, k)| < |ks|
  {
    var init := ks[..|ks| - 1];
    assert ks == init + [ks[|ks| - 1]];
    if k in init {
      WithoutShorter(init, k);
    } else {
      WithoutLength(init, k);
    }
  }

  lemma {:induction false} WithoutLength(ks: seq<nat>, k: nat)
    ensures |Without(ks, k)| <= |ks|
  {
    if ks != [] { WithoutLength(ks[..|ks| - 1], k); }
  }
}
