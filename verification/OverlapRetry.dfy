/** The retry loop of one range when addresses it picks are reserved by others through an overlapping
    range: when it writes, when it fails, and when it falls through. */
module OverlapRetry {
  import opened Prelude
  import opened Addressing
  import opened Allocation
  import opened AllocationLaws
  import opened Codec
  import opened AddAttempt

  type Reservations = map<RawAddr, Orip>

  /** Reserved by another pod, or by another interface of the same pod. */
  predicate Foreign(orips: Reservations, who: Requester, a: Addr) {
    a in orips && ForeignTo(orips[a], who.podRef, who.ifName)
  }

  /** How the loop over the attempts ends. */
  datatype RetryOutcome = Writes(ip: Option<Addr>) | Fails(error: AssignError) | FallsThrough(foreign: Addr)

  /** The loop, with the pool and the reservations standing still: an address found reserved by
      another becomes a dummy record and the next attempt starts. When the attempts run out the loop
      ends without an error. */
  ghost function Retry(conf: RangeConfiguration, list: seq<Reservation>, orips: Reservations, who: Requester, attempts: nat): RetryOutcome
    requires attempts > 0
    decreases attempts
  {
    match Assigned(conf, list, who)
    case Err(e) => Fails(e)
    case Ok(r) =>
      if r.ip.Some? && Foreign(orips, who, r.ip.value) then
        if attempts == 1 then FallsThrough(r.ip.value)
        else Retry(conf, list + [Dummy(r.ip.value)], orips, who, attempts - 1)
      else Writes(r.ip)
  }

  // ---------------------------------------------------------------------
  // The order in which addresses are tried
  // ---------------------------------------------------------------------

  /** A range and excludes that parse. */
  predicate Parses(conf: RangeConfiguration) {
    conf.range.Some? && WellFormed(conf.omitRanges)
  }

  /** The addresses a new pod may get. */
  ghost function Candidates(conf: RangeConfiguration, list: seq<Reservation>): set<Addr>
    requires conf.range.Some?
  {
    set a | a in EligibleSet(conf, list) && PickAllowed(conf.pickAddresses, a)
  }

  function PickIndex(picks: seq<Option<Addr>>, a: Addr, i: nat): (k: nat)
    requires i <= |picks|
    ensures i <= k <= |picks|
    ensures k < |picks| ==> picks[k] == Some(a)
    ensures forall j :: i <= j < k ==> picks[j] != Some(a)
    decreases |picks| - i
  {
    if i == |picks| || picks[i] == Some(a) then i else PickIndex(picks, a, i + 1)
  }

  /** The preferred address comes first, then the candidate list in its order, or all numbers upwards. */
  function Rank(conf: RangeConfiguration, a: Addr): nat {
    if conf.preferredIP == Some(a) then 0
    else if conf.pickAddresses != [] then 1 + PickIndex(conf.pickAddresses, a, 0)
    else 1 + a.value
  }

  lemma RankIdentifies(conf: RangeConfiguration, list: seq<Reservation>, a: Addr, b: Addr)
    requires conf.range.Some? && a in Candidates(conf, list) && b in Candidates(conf, list)
    requires Rank(conf, a) == Rank(conf, b)
    ensures a == b
  {
    hide Space, Pow2, Reserved, Excluded, Bounds;
    InEligibleSet(conf, list, a);
    InEligibleSet(conf, list, b);
  }

  lemma FirstPickIsBest(conf: RangeConfiguration, list: seq<Reservation>, b: Addr)
    requires conf.range.Some? && conf.pickAddresses != [] && b in Candidates(conf, list)
    ensures
      var r := FirstPick(conf, list, 0);
      r.Some? && PickIndex(conf.pickAddresses, r.value, 0) <= PickIndex(conf.pickAddresses, b, 0)
  {
    hide Eligible, Space, Pow2;
    InEligibleSet(conf, list, b);
    FirstPickIsFirst(conf, list, 0);
    hide EligibleSet, FirstPick;
    var j := PickIndex(conf.pickAddresses, b, 0);
    assert conf.pickAddresses[j] == Some(b);
  }

  lemma CandidateIsLater(conf: RangeConfiguration, list: seq<Reservation>, b: Addr)
    requires conf.range.Some? && b in Candidates(conf, list)
    ensures Fresh(conf, list).Some? && Rank(conf, Fresh(conf, list).value) <= Rank(conf, b)
  {
    hide Eligible, EligibleSet, LowestFrom, Lowest, FirstPick, Space, Pow2;
    InEligibleSet(conf, list, b);
    if conf.pickAddresses != [] {
      FirstPickIsBest(conf, list, b);
    } else {
      LowestIsMinimum(conf, list);
    }
  }

  /** The address an attempt picks is the first in that order, and there is one if any is left. */
  lemma FreshIsBest(conf: RangeConfiguration, list: seq<Reservation>)
    requires conf.range.Some?
    ensures Fresh(conf, list).Some? <==> Candidates(conf, list) != {}
    ensures Fresh(conf, list).Some? ==> Fresh(conf, list).value in Candidates(conf, list)
    ensures forall b :: b in Candidates(conf, list) && Fresh(conf, list).Some? ==> Rank(conf, Fresh(conf, list).value) <= Rank(conf, b)
  {
    hide Eligible, EligibleSet, LowestFrom, Lowest, FirstPick, Space, Pow2;
    FreshIsSound(conf, list);
    if Fresh(conf, list).Some? {
      InEligibleSet(conf, list, Fresh(conf, list).value);
      assert Fresh(conf, list).value in Candidates(conf, list);
    }
    hide PickAllowed;
    forall b | b in Candidates(conf, list)
      ensures Fresh(conf, list).Some? && Rank(conf, Fresh(conf, list).value) <= Rank(conf, b)
    {
      CandidateIsLater(conf, list, b);
    }
    assert Fresh(conf, list).None? ==> Candidates(conf, list) == {};
  }

  // ---------------------------------------------------------------------
  // When the loop falls through
  // ---------------------------------------------------------------------

  /** The addresses that come before the first one that is not reserved by others. */
  ghost function Blocked(conf: RangeConfiguration, list: seq<Reservation>, orips: Reservations, who: Requester): set<Addr>
    requires conf.range.Some?
  {
    set a | a in Candidates(conf, list) &&
      forall b :: b in Candidates(conf, list) && Rank(conf, b) <= Rank(conf, a) ==> Foreign(orips, who, b)
  }

  lemma DummyRemoves(conf: RangeConfiguration, list: seq<Reservation>, a: Addr)
    requires conf.range.Some?
    ensures Candidates(conf, list + [Dummy(a)]) == Candidates(conf, list) - {a}
  {
    ReservedAppend(list, Dummy(a));
    assert EligibleSet(conf, list + [Dummy(a)]) == EligibleSet(conf, list) - {a};
  }

  lemma DummyOwnsNothing(list: seq<Reservation>, who: Requester, a: Addr)
    requires who.podRef != "" && NewOwner(list, who)
    ensures NewOwner(list + [Dummy(a)], who)
  {
  }

  /** One conflict uses up exactly one blocked address. */
  lemma ConflictUnblocksOne(conf: RangeConfiguration, list: seq<Reservation>, orips: Reservations, who: Requester, a: Addr)
    requires conf.range.Some? && a in Candidates(conf, list) && Foreign(orips, who, a)
    requires forall b :: b in Candidates(conf, list) ==> Rank(conf, a) <= Rank(conf, b)
    ensures a in Blocked(conf, list, orips, who)
    ensures Blocked(conf, list + [Dummy(a)], orips, who) == Blocked(conf, list, orips, who) - {a}
  {
    DummyRemoves(conf, list, a);
    forall b | b in Candidates(conf, list) && Rank(conf, b) <= Rank(conf, a) ensures b == a {
      RankIdentifies(conf, list, a, b);
    }
    hide Candidates, Rank, Foreign, Space, Pow2;
    var before, after := Blocked(conf, list, orips, who), Blocked(conf, list + [Dummy(a)], orips, who);
    forall b ensures b in after <==> b in before - {a} {
    }
  }

  ghost function Open(conf: RangeConfiguration, list: seq<Reservation>, orips: Reservations, who: Requester): set<Addr>
    requires conf.range.Some?
  {
    set a | a in Candidates(conf, list) && !Foreign(orips, who, a)
  }

  lemma RetryStep(conf: RangeConfiguration, list: seq<Reservation>, orips: Reservations, who: Requester, attempts: nat)
    requires Parses(conf) && NewOwner(list, who) && attempts > 0
    ensures Retry(conf, list, orips, who, attempts) ==
            match Fresh(conf, list)
            case None => Fails(Exhausted)
            case Some(a) =>
              if !Foreign(orips, who, a) then Writes(Some(a))
              else if attempts == 1 then FallsThrough(a)
              else Retry(conf, list + [Dummy(a)], orips, who, attempts - 1)
  {
    hide Fresh, Space, Pow2;
    assert OwnIndex(list, who, 0) == |list|;
  }

  /** For a pod without a record in the range, the loop falls through exactly when at least as many
      addresses as there are attempts come before the first address that others have not reserved. The
      ADD then goes on without an error although the address it returns is reserved for another pod and
      nothing was written. */
  lemma {:induction false} FallsThroughExactly(conf: RangeConfiguration, list: seq<Reservation>, orips: Reservations, who: Requester, attempts: nat)
    requires Parses(conf) && NewOwner(list, who) && who.podRef != "" && attempts > 0
    ensures
      var r := Retry(conf, list, orips, who, attempts);
      && (r.FallsThrough? <==> |Blocked(conf, list, orips, who)| >= attempts)
      && (r.FallsThrough? ==> Foreign(orips, who, r.foreign))
    decreases attempts
  {
    RetryStep(conf, list, orips, who, attempts);
    FreshIsBest(conf, list);
    hide Candidates, Rank, Fresh, Retry, Foreign, Space, NewOwner, WellFormed;
    var first := Fresh(conf, list);
    if first.Some? && Foreign(orips, who, first.value) {
      var a := first.value;
      ConflictUnblocksOne(conf, list, orips, who, a);
      if attempts > 1 {
        DummyOwnsNothing(list, who, a);
        FallsThroughExactly(conf, list + [Dummy(a)], orips, who, attempts - 1);
      } else {
        assert Blocked(conf, list, orips, who) != {};
      }
    } else {
      assert Blocked(conf, list, orips, who) == {};
    }
  }

  /** When the loop does not fall through, it writes the first address not reserved by others, or
      fails because there is none. */
  lemma {:induction false} OtherwiseWritesFirstOpen(conf: RangeConfiguration, list: seq<Reservation>, orips: Reservations, who: Requester, attempts: nat)
    requires Parses(conf) && NewOwner(list, who) && who.podRef != "" && attempts > 0
    ensures
      var r := Retry(conf, list, orips, who, attempts);
      var open := Open(conf, list, orips, who);
      && (r.Writes? ==> r.ip.Some? && r.ip.value in open && forall b :: b in open ==> Rank(conf, r.ip.value) <= Rank(conf, b))
      && (r.Fails? ==> r.error == Exhausted && open == {})
    decreases attempts
  {
    RetryStep(conf, list, orips, who, attempts);
    FreshIsBest(conf, list);
    hide Candidates, Rank, Fresh, Retry, Foreign, Space, NewOwner, WellFormed;
    var first := Fresh(conf, list);
    if first.Some? && Foreign(orips, who, first.value) && attempts > 1 {
      var a := first.value;
      DummyOwnsNothing(list, who, a);
      DummyRemoves(conf, list, a);
      assert Open(conf, list + [Dummy(a)], orips, who) == Open(conf, list, orips, who);
      hide Open, Parses;
      OtherwiseWritesFirstOpen(conf, list + [Dummy(a)], orips, who, attempts - 1);
    }
  }

  /** A configuration that does not parse fails at the first attempt. */
  lemma MalformedFails(conf: RangeConfiguration, list: seq<Reservation>, orips: Reservations, who: Requester, attempts: nat)
    requires !Parses(conf) && NewOwner(list, who) && attempts > 0
    ensures Retry(conf, list, orips, who, attempts).Fails?
  {
  }

  /** A pod that already has a record gets the same address on every attempt, so the loop falls
      through exactly when that address is reserved by others. */
  lemma {:induction false} OwnedFallsThroughExactly(conf: RangeConfiguration, list: seq<Reservation>, orips: Reservations, who: Requester, attempts: nat)
    requires conf.range.Some? && (conf.preferredIP.Some? ==> WellFormed(conf.omitRanges)) && who.podRef != "" && attempts > 0
    requires OwnIndex(list, who, 0) < |list| && list[OwnIndex(list, who, 0)].ip.Some?
    ensures
      var a := list[OwnIndex(list, who, 0)].ip.value;
      Retry(conf, list, orips, who, attempts) == if Foreign(orips, who, a) then FallsThrough(a) else Writes(Some(a))
    decreases attempts
  {
    var k := OwnIndex(list, who, 0);
    var a := list[k].ip.value;
    if attempts > 1 && Foreign(orips, who, a) {
      var longer := list + [Dummy(a)];
      assert forall i :: 0 <= i < |list| ==> longer[i] == list[i];
      assert OwnIndex(longer, who, 0) == k;
      OwnedFallsThroughExactly(conf, longer, orips, who, attempts - 1);
    }
  }

  const DATASTORE_RETRIES: nat := 100

  ghost function WholeRange(p: Prefix): RangeConfiguration {
    RangeConfiguration(Some(p), None, None, [], [], None, false)
  }

  /** The first n host addresses of the block are reserved through an overlapping range. */
  ghost predicate LowestReservedByOthers(p: Prefix, orips: Reservations, who: Requester, n: nat) {
    forall a: Addr :: a.family == p.family && p.base + 1 <= a.value <= p.base + n ==> Foreign(orips, who, a)
  }

  lemma LowAddressBlocked(p: Prefix, orips: Reservations, who: Requester, n: nat, a: Addr)
    requires p.HostBits() >= 2 && n + 2 <= p.Size() && LowestReservedByOthers(p, orips, who, n)
    requires a.family == p.family && p.base + 1 <= a.value <= p.base + n
    ensures a in Blocked(WholeRange(p), [], orips, who)
  {
    hide Pow2, Space, Foreign;
    InEligibleSet(WholeRange(p), [], a);
    forall b: Addr | b in Candidates(WholeRange(p), []) && Rank(WholeRange(p), b) <= Rank(WholeRange(p), a)
      ensures Foreign(orips, who, b)
    {
      InEligibleSet(WholeRange(p), [], b);
    }
  }

  /** An empty pool whose first n host addresses are reserved by others: n attempts fall through. */
  lemma ReservedStartFallsThrough(p: Prefix, orips: Reservations, who: Requester, n: nat)
    requires p.HostBits() >= 2 && 0 < n && n + 2 <= p.Size() && who.podRef != ""
    requires LowestReservedByOthers(p, orips, who, n)
    ensures
      var r := Retry(WholeRange(p), [], orips, who, n);
      r.FallsThrough? && Foreign(orips, who, r.foreign)
  {
    hide Pow2, Space, Retry, Blocked, Foreign, Candidates;
    var taken := Interval(p.family, p.base + 1, p.base + n);
    IntervalSize(p.family, p.base + 1, p.base + n);
    forall a: Addr | a in taken ensures a in Blocked(WholeRange(p), [], orips, who) {
      LowAddressBlocked(p, orips, who, n, a);
    }
    SubsetSize(taken, Blocked(WholeRange(p), [], orips, who));
    FallsThroughExactly(WholeRange(p), [], orips, who, n);
  }

  /** 10.0.0.0/24 */
  function Ten24(): (p: Prefix)
    ensures p.Size() == 256 && p.HostBits() == 8
  {
    assert Pow2(8) == 256;
    Pow2Add(8, 8);
    Pow2Add(16, 16);
    RawPrefix(V4, 0x0A00_0000, 24)
  }

  /** With the shipped number of retries: a pool over 10.0.0.0/24 whose addresses .1 to .100 are in
      use through another range hands one of them out a second time. */
  lemma SecondRangeGetsDuplicate(orips: Reservations, who: Requester)
    requires who.podRef != "" && LowestReservedByOthers(Ten24(), orips, who, DATASTORE_RETRIES)
    ensures
      var r := Retry(WholeRange(Ten24()), [], orips, who, DATASTORE_RETRIES);
      r.FallsThrough? && Foreign(orips, who, r.foreign)
  {
    hide Retry, Foreign;
    ReservedStartFallsThrough(Ten24(), orips, who, DATASTORE_RETRIES);
  }
}
