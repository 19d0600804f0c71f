/** What the assignment algorithm guarantees, and the release half of pkg/allocate. */
module AllocationLaws {
  import opened Prelude
  import opened Addressing
  import opened Allocation

  // ---------------------------------------------------------------------
  // Soundness of every route
  // ---------------------------------------------------------------------

  /** No two records hold the same address. */
  ghost predicate DistinctIPs(list: seq<Reservation>) {
    forall i, j :: 0 <= i < j < |list| && list[i].ip.Some? ==> list[i].ip != list[j].ip
  }

  /** No two real records belong to the same (pod, interface). */
  ghost predicate DistinctOwners(list: seq<Reservation>) {
    forall i, j :: 0 <= i < j < |list| && !list[i].isAllocated && !list[j].isAllocated ==>
      list[i].podRef != list[j].podRef || list[i].ifName != list[j].ifName
  }

  lemma FreshIsSound(conf: RangeConfiguration, list: seq<Reservation>)
    requires conf.range.Some?
    ensures Fresh(conf, list).Some? ==>
              Eligible(conf, list, Fresh(conf, list).value) && PickAllowed(conf.pickAddresses, Fresh(conf, list).value)
    ensures Fresh(conf, list).None? ==>
              forall a: Addr :: PickAllowed(conf.pickAddresses, a) ==> !Eligible(conf, list, a)
  {
    FirstPickIsFirst(conf, list, 0);
    LowestIsMinimum(conf, list);
  }

  /** Whichever route is taken, a pod with a record keeps its address and nothing else changes; a
      pod without one gets an eligible address that the candidate list allows, as one new record.
      Either way addresses and owners stay pairwise distinct. */
  lemma AssignedIsSound(conf: RangeConfiguration, list: seq<Reservation>, who: Requester)
    requires Assigned(conf, list, who).Ok?
    ensures
      var r := Assigned(conf, list, who).value;
      var k := OwnIndex(list, who, 0);
      && (k < |list| ==>
            && r.ip == list[k].ip && |r.list| == |list|
            && r.list[k].containerID == who.containerID && r.list[k].(containerID := "") == list[k].(containerID := "")
            && (forall i :: 0 <= i < |list| && i != k ==> r.list[i] == list[i]))
      && (k == |list| ==>
            && r.ip.Some? && Eligible(conf, list, r.ip.value) && PickAllowed(conf.pickAddresses, r.ip.value)
            && r.list == list + [Record(r.ip.value, who)])
      && (DistinctIPs(list) ==> DistinctIPs(r.list))
      && (DistinctOwners(list) ==> DistinctOwners(r.list))
  {
    FreshIsSound(conf, list);
    var r := Assigned(conf, list, who).value;
    var k := OwnIndex(list, who, 0);
    if k == |list| {
      var a := r.ip.value;
      assert !Reserved(list, a);
      assert r.list == list + [Record(a, who)];
    }
  }

  /** A pod without a record is refused for exhaustion exactly when no allowed address is eligible. */
  lemma ExhaustedExactly(conf: RangeConfiguration, list: seq<Reservation>, who: Requester)
    requires conf.range.Some? && WellFormed(conf.omitRanges) && OwnIndex(list, who, 0) == |list|
    ensures Assigned(conf, list, who) == Err(Exhausted) <==>
            forall a: Addr :: PickAllowed(conf.pickAddresses, a) ==> !Eligible(conf, list, a)
  {
    FreshIsSound(conf, list);
    if Fresh(conf, list).Some? {
      assert PickAllowed(conf.pickAddresses, Fresh(conf, list).value);
    }
  }

  // ---------------------------------------------------------------------
  // The configured bounds
  // ---------------------------------------------------------------------

  /** An address the range may give out at all: a host address in L2 mode, any address of the block in L3 mode. */
  ghost predicate Inside(conf: RangeConfiguration, a: Addr)
    requires conf.range.Some?
  {
    if conf.l3 then Contains(conf.range.value, a) else Usable(conf.range.value, a)
  }

  /** The start that is configured and counts. */
  ghost predicate StartsAt(conf: RangeConfiguration, a: Addr)
    requires conf.range.Some?
  {
    conf.rangeStart == Some(a) && Inside(conf, a)
  }

  /** The end that is configured and counts: it is not below the start. */
  ghost predicate EndsAt(conf: RangeConfiguration, a: Addr)
    requires conf.range.Some?
  {
    conf.rangeEnd == Some(a) && Inside(conf, a) && forall b: Addr :: StartsAt(conf, b) ==> b.value <= a.value
  }

  lemma InsideBetweenEnds(conf: RangeConfiguration, a: Addr)
    requires conf.range.Some?
    ensures
      var p := conf.range.value;
      Inside(conf, a) <==>
      if conf.l3 then IsIPInRange(a, NetworkIP(p), SubnetBroadcastIP(p)) else IsIPInRange(a, FirstUsableIP(p), LastUsableIP(p))
  {
    hide Space, Pow2, FirstUsableIP, LastUsableIP;
    UsableBetweenEnds(conf.range.value, a);
  }

  /** The first address is the configured start exactly when that is inside, and the lowest one inside
      otherwise; the last is the configured end exactly when that is inside and not below the first, and
      the highest one inside otherwise. */
  lemma BoundsExactly(conf: RangeConfiguration)
    requires conf.range.Some?
    ensures
      var (first, last) := Bounds(conf);
      && Inside(conf, first) && Inside(conf, last)
      && (conf.rangeStart.Some? ==> (first == conf.rangeStart.value <==> Inside(conf, conf.rangeStart.value)))
      && (conf.rangeEnd.Some? ==>
            (last == conf.rangeEnd.value <==> Inside(conf, conf.rangeEnd.value) && first.value <= conf.rangeEnd.value.value))
      && (forall a: Addr :: Inside(conf, a) ==> (conf.rangeStart == Some(first) || first.value <= a.value))
      && (forall a: Addr :: Inside(conf, a) ==> (conf.rangeEnd == Some(last) || a.value <= last.value))
  {
    hide Space, Pow2, FirstUsableIP, LastUsableIP, Inside, Usable;
    var p := conf.range.value;
    forall a: Addr
      ensures Inside(conf, a) <==>
              if conf.l3 then IsIPInRange(a, NetworkIP(p), SubnetBroadcastIP(p)) else IsIPInRange(a, FirstUsableIP(p), LastUsableIP(p))
    {
      InsideBetweenEnds(conf, a);
    }
    UsableBetweenEnds(p, NetworkIP(p));
  }

  /** Eligible is what is inside, within the bounds that count, neither reserved nor excluded. */
  lemma EligibleExactly(conf: RangeConfiguration, list: seq<Reservation>, a: Addr)
    requires conf.range.Some?
    ensures Eligible(conf, list, a) <==>
      && Inside(conf, a) && !Reserved(list, a) && !Excluded(conf.omitRanges, a)
      && (forall b: Addr :: StartsAt(conf, b) ==> b.value <= a.value)
      && (forall b: Addr :: EndsAt(conf, b) ==> a.value <= b.value)
  {
    hide Space, Pow2, Reserved, Excluded, Bounds, Inside, Contains;
    var (first, last) := Bounds(conf);
    BoundsExactly(conf);
    InsideIsBetween(conf, first, last, a);
    if Inside(conf, a) {
      InsideIsBetween(conf, a, a, first);
      InsideIsBetween(conf, a, a, last);
    }
    assert conf.rangeStart == Some(first) ==> StartsAt(conf, first);
    if conf.rangeEnd == Some(last) {
      forall b: Addr | StartsAt(conf, b) ensures b.value <= last.value {
        assert b == first;
      }
      assert EndsAt(conf, last);
    }
    if conf.rangeEnd.Some? && EndsAt(conf, conf.rangeEnd.value) {
      assert first.value <= conf.rangeEnd.value.value;
    }
  }

  /** What is inside is contained, of the range's family, and without gaps. */
  lemma InsideIsBetween(conf: RangeConfiguration, lo: Addr, hi: Addr, a: Addr)
    requires conf.range.Some? && Inside(conf, lo) && Inside(conf, hi)
    ensures lo.family == hi.family == conf.range.value.family && Contains(conf.range.value, lo) && Contains(conf.range.value, hi)
    ensures a.family == lo.family && lo.value <= a.value <= hi.value ==> Inside(conf, a)
    ensures Inside(conf, a) ==> a.family == lo.family
  {
    hide Space, Pow2;
    InsideBetweenEnds(conf, lo);
    InsideBetweenEnds(conf, hi);
    InsideBetweenEnds(conf, a);
  }

  /** No new address is below the start or above the end that count. */
  lemma NewAddressInBounds(conf: RangeConfiguration, list: seq<Reservation>, who: Requester)
    requires Assigned(conf, list, who).Ok? && OwnIndex(list, who, 0) == |list|
    ensures
      var ip := Assigned(conf, list, who).value.ip;
      && ip.Some? && Inside(conf, ip.value)
      && (forall b: Addr :: StartsAt(conf, b) ==> b.value <= ip.value.value)
      && (forall b: Addr :: EndsAt(conf, b) ==> ip.value.value <= b.value)
  {
    AssignedIsSound(conf, list, who);
    hide Assigned, Eligible, StartsAt, EndsAt, Inside;
    EligibleExactly(conf, list, Assigned(conf, list, who).value.ip.value);
  }

  /** An empty pool without excludes, candidates or preference gives out the start that counts, and without
      one the lowest address inside. */
  lemma EmptyPoolAssignsStart(conf: RangeConfiguration, who: Requester)
    requires Plain(conf) && conf.omitRanges == []
    ensures
      var r := Assigned(conf, [], who);
      && r.Ok? && r.value.ip.Some? && Inside(conf, r.value.ip.value)
      && (forall b: Addr :: StartsAt(conf, b) ==> r.value.ip.value == b)
      && (conf.rangeStart.None? || !Inside(conf, conf.rangeStart.value) ==>
            forall b: Addr :: Inside(conf, b) ==> r.value.ip.value.value <= b.value)
  {
    var first := Bounds(conf).0;
    BoundsExactly(conf);
    hide Space, Pow2, Inside, Lowest, LowestFrom, Eligible;
    FirstIsEligible(conf, first);
    forall b: Addr | Eligible(conf, [], b) ensures first.value <= b.value { EligibleExactly(conf, [], b); }
    MinimumIsLowest(conf, [], first);
  }

  lemma FirstIsEligible(conf: RangeConfiguration, first: Addr)
    requires conf.range.Some? && conf.omitRanges == [] && first == Bounds(conf).0
    ensures Eligible(conf, [], first)
  {
    hide Space, Pow2;
  }

  // ---------------------------------------------------------------------
  // Capacity
  // ---------------------------------------------------------------------

  ghost function EligibleSet(conf: RangeConfiguration, list: seq<Reservation>): set<Addr>
    requires conf.range.Some?
  {
    var p := conf.range.value;
    set v | p.base <= v < p.base + p.Size() && Eligible(conf, list, RawAddr(p.family, v)) :: RawAddr(p.family, v)
  }

  lemma InEligibleSet(conf: RangeConfiguration, list: seq<Reservation>, a: Addr)
    requires conf.range.Some?
    ensures a in EligibleSet(conf, list) <==> Eligible(conf, list, a)
  {
  }

  /** No candidate list, no preferred address, no malformed exclude entry. */
  predicate Plain(conf: RangeConfiguration) {
    conf.range.Some? && conf.pickAddresses == [] && conf.preferredIP.None? && WellFormed(conf.omitRanges)
  }

  /** One ADD of a new owner takes exactly one eligible address, and fails only without one. */
  lemma AssignTakesOne(conf: RangeConfiguration, list: seq<Reservation>, who: Requester)
    requires Plain(conf) && OwnIndex(list, who, 0) == |list|
    ensures
      var r := Assigned(conf, list, who);
      && (r.Ok? <==> EligibleSet(conf, list) != {})
      && (r.Ok? ==> exists a: Addr ::
            && a in EligibleSet(conf, list) && r.value.list == list + [Record(a, who)]
            && EligibleSet(conf, r.value.list) == EligibleSet(conf, list) - {a})
  {
    FreshIsSound(conf, list);
    var r := Assigned(conf, list, who);
    if r.Ok? {
      var a := r.value.ip.value;
      InEligibleSet(conf, list, a);
      ReservedAppend(list, Record(a, who));
      assert EligibleSet(conf, r.value.list) == EligibleSet(conf, list) - {a};
    } else {
      assert EligibleSet(conf, list) == {};
    }
  }

  lemma ReservedAppend(list: seq<Reservation>, r: Reservation)
    ensures forall a: Addr :: Reserved(list + [r], a) <==> Reserved(list, a) || r.ip == Some(a)
  {
    forall a: Addr ensures Reserved(list + [r], a) <==> Reserved(list, a) || r.ip == Some(a) {
      var longer := list + [r];
      assert longer[|list|] == r;
      if Reserved(list, a) {
        var i :| 0 <= i < |list| && list[i].ip == Some(a);
        assert longer[i].ip == Some(a);
      }
    }
  }

  /** The list after a series of ADDs; a refused ADD leaves it alone. */
  ghost function AfterAdds(conf: RangeConfiguration, list: seq<Reservation>, whos: seq<Requester>): seq<Reservation> {
    if whos == [] then list
    else
      var before := AfterAdds(conf, list, whos[..|whos| - 1]);
      match Assigned(conf, before, whos[|whos| - 1])
      case Ok(r) => r.list
      case Err(_) => before
  }

  ghost predicate NewOwner(list: seq<Reservation>, who: Requester) {
    forall i :: 0 <= i < |list| ==> !Owns(list[i], who)
  }

  ghost predicate SameOwner(x: Requester, y: Requester) {
    x.podRef == y.podRef && x.ifName == y.ifName
  }

  ghost predicate NewOwners(list: seq<Reservation>, whos: seq<Requester>) {
    && (forall i :: 0 <= i < |whos| ==> NewOwner(list, whos[i]))
    && (forall i, j :: 0 <= i < j < |whos| ==> !SameOwner(whos[i], whos[j]))
  }

  lemma {:induction false} AfterAddsState(conf: RangeConfiguration, list: seq<Reservation>, whos: seq<Requester>)
    requires Plain(conf) && NewOwners(list, whos)
    ensures
      var total, after := |EligibleSet(conf, list)|, AfterAdds(conf, list, whos);
      && |EligibleSet(conf, after)| == (if |whos| <= total then total - |whos| else 0)
      && (forall who: Requester :: NewOwner(list, who) && (forall i :: 0 <= i < |whos| ==> !SameOwner(whos[i], who)) ==>
            NewOwner(after, who))
  {
    hide Assigned, EligibleSet, Eligible, Space, Pow2;
    if whos != [] {
      var init, last := whos[..|whos| - 1], whos[|whos| - 1];
      AfterAddsState(conf, list, init);
      var before := AfterAdds(conf, list, init);
      assert NewOwner(before, last);
      AssignTakesOne(conf, before, last);
      assert |EligibleSet(conf, before)| == 0 <==> EligibleSet(conf, before) == {};
      forall who: Requester | NewOwner(list, who) && (forall i :: 0 <= i < |whos| ==> !SameOwner(whos[i], who))
        ensures NewOwner(AfterAdds(conf, list, whos), who)
      {
        assert forall i :: 0 <= i < |init| ==> init[i] == whos[i];
        assert !SameOwner(last, who);
      }
    }
  }

  /** In a series of ADDs by different new owners the i-th succeeds exactly when i is below the
      number of addresses that were eligible at the start. */
  lemma ExactCapacity(conf: RangeConfiguration, list: seq<Reservation>, whos: seq<Requester>, i: nat)
    requires Plain(conf) && NewOwners(list, whos) && i < |whos|
    ensures Assigned(conf, AfterAdds(conf, list, whos[..i]), whos[i]).Ok? <==> i < |EligibleSet(conf, list)|
  {
    AfterAddsState(conf, list, whos[..i]);
    var before := AfterAdds(conf, list, whos[..i]);
    assert NewOwner(before, whos[i]);
    AssignTakesOne(conf, before, whos[i]);
    assert |EligibleSet(conf, before)| == 0 <==> EligibleSet(conf, before) == {};
  }

  /** An empty L2 pool without bounds or excludes holds CountUsableIPs addresses, up to the clamp,
      for every prefix length of both families. */
  lemma EmptyPoolCapacity(p: Prefix)
    ensures
      var conf := RangeConfiguration(Some(p), None, None, [], [], None, false);
      var total := |EligibleSet(conf, [])|;
      CountUsableIPs(p) == if total <= MAX_INT32 then total else MAX_INT32
  {
    var conf := RangeConfiguration(Some(p), None, None, [], [], None, false);
    forall a: Addr ensures a in EligibleSet(conf, []) <==> a in UsableSet(p) {
      InEligibleSet(conf, [], a);
      UsableBetweenEnds(p, a);
      assert Usable(p, a) ==> a == RawAddr(p.family, a.value);
    }
    assert EligibleSet(conf, []) == UsableSet(p);
    CountIsUsableSize(p);
  }

  // ---------------------------------------------------------------------
  // Release
  // ---------------------------------------------------------------------

  predicate Matches(r: Reservation, containerID: string, ifName: string) {
    r.containerID == containerID && r.ifName == ifName
  }

  function MatchIndex(list: seq<Reservation>, containerID: string, ifName: string, i: nat): (k: nat)
    requires i <= |list|
    ensures i <= k <= |list|
    ensures k < |list| ==> Matches(list[k], containerID, ifName)
    ensures forall j :: i <= j < k ==> !Matches(list[j], containerID, ifName)
    decreases |list| - i
  {
    if i == |list| || Matches(list[i], containerID, ifName) then i else MatchIndex(list, containerID, ifName, i + 1)
  }

  /** The last record moves into the freed position. */
  function SwapRemove<T>(s: seq<T>, i: nat): seq<T>
    requires i < |s|
  {
    s[i := s[|s| - 1]][..|s| - 1]
  }

  lemma SwapRemoveMultiset<T>(s: seq<T>, i: nat)
    requires i < |s|
    ensures multiset(SwapRemove(s, i)) == multiset(s) - multiset{s[i]}
  {
    var last := |s| - 1;
    var t := s[i := s[last]];
    assert t == t[..last] + [t[last]];
    assert s == s[..last] + [s[last]];
    assert multiset(t) == multiset(s) - multiset{s[i]} + multiset{s[last]};
  }

  /** What DeallocateIP means on the list. */
  function Deallocated(list: seq<Reservation>, containerID: string, ifName: string): (seq<Reservation>, Option<Addr>) {
    var k := MatchIndex(list, containerID, ifName, 0);
    if k == |list| then (list, None) else (SwapRemove(list, k), list[k].ip)
  }

  /** Release removes one matching record if there is one, reports its address, and keeps every
      other record; a list with at most one match is left without any. */
  lemma DeallocatedIsExact(list: seq<Reservation>, containerID: string, ifName: string)
    ensures
      var (after, ip) := Deallocated(list, containerID, ifName);
      && ((forall r :: r in list ==> !Matches(r, containerID, ifName)) ==> after == list && ip == None)
      && ((exists r :: r in list && Matches(r, containerID, ifName)) ==>
            exists r :: r in list && Matches(r, containerID, ifName) && ip == r.ip
              && multiset(after) == multiset(list) - multiset{r})
      && ((forall i, j :: 0 <= i < j < |list| && Matches(list[i], containerID, ifName) ==> !Matches(list[j], containerID, ifName))
          ==> forall r :: r in after ==> !Matches(r, containerID, ifName))
  {
    var k := MatchIndex(list, containerID, ifName, 0);
    if k < |list| {
      SwapRemoveMultiset(list, k);
      assert list[k] in list;
    }
  }

  /** removeIdxFromSlice, in place: the array keeps its length, the result is its first n records. */
  method RemoveIdxFromSlice(s: array<Reservation>, i: nat) returns (n: nat)
    requires i < s.Length
    modifies s
    ensures n == s.Length - 1 && s[..n] == SwapRemove(old(s[..]), i)
  {
    s[i] := s[s.Length - 1];
    n := s.Length - 1;
    assert s[..] == old(s[..])[i := old(s[..])[s.Length - 1]];
  }

  method DeallocateIP(s: array<Reservation>, containerID: string, ifName: string) returns (n: nat, ip: Option<Addr>)
    modifies s
    ensures n <= s.Length && (s[..n], ip) == Deallocated(old(s[..]), containerID, ifName)
  {
    var index := 0;
    while index < s.Length && !Matches(s[index], containerID, ifName)
      invariant 0 <= index <= s.Length
      invariant s[..] == old(s[..])
      invariant MatchIndex(s[..], containerID, ifName, 0) == MatchIndex(s[..], containerID, ifName, index)
    {
      index := index + 1;
    }
    if index == s.Length {
      assert s[..s.Length] == s[..];
      return s.Length, None;
    }
    ip := s[index].ip;
    n := RemoveIdxFromSlice(s, index);
  }
}
