/** The assignment algorithm of pkg/allocate. */
module Allocation {
  import opened Prelude
  import opened Addressing

  // ---------------------------------------------------------------------
  // Data
  // ---------------------------------------------------------------------

  /** A reserve-list record. A nil address comes from an offset outside the family; isAllocated
      marks a dummy record that is never persisted. */
  datatype Reservation = Reservation(
    ip: Option<Addr>, containerID: string, podRef: string, ifName: string, isAllocated: bool)

  /** Who asks: the sandbox and the (pod, interface) it serves. */
  datatype Requester = Requester(containerID: string, podRef: string, ifName: string)

  /** One exclude entry after parsing: a CIDR, a single address, or text that parses as neither. */
  datatype Omit = OmitCidr(subnet: Prefix) | OmitIP(ip: Addr) | Malformed

  /** A configured range; None for the range itself stands for a CIDR that does not parse. */
  datatype RangeConfiguration = RangeConfiguration(
    range: Option<Prefix>, rangeStart: Option<Addr>, rangeEnd: Option<Addr>, omitRanges: seq<Omit>,
    pickAddresses: seq<Option<Addr>>, preferredIP: Option<Addr>, l3: bool)

  datatype AssignError = InvalidRange | InvalidExclude | Exhausted

  datatype Assignment = Assignment(ip: Option<Addr>, list: seq<Reservation>)

  type AssignResult = Result<Assignment, AssignError>

  function Record(a: Addr, who: Requester): Reservation {
    Reservation(Some(a), who.containerID, who.podRef, who.ifName, false)
  }

  predicate Owns(r: Reservation, who: Requester) {
    r.podRef == who.podRef && r.ifName == who.ifName
  }

  // ---------------------------------------------------------------------
  // What makes an address eligible
  // ---------------------------------------------------------------------

  predicate Reserved(list: seq<Reservation>, a: Addr) {
    exists i :: 0 <= i < |list| && list[i].ip == Some(a)
  }

  predicate OmitCovers(o: Omit, a: Addr) {
    match o
    case OmitCidr(subnet) => Contains(subnet, a)
    case OmitIP(ip) => ip == a
    case Malformed => false
  }

  predicate Excluded(omits: seq<Omit>, a: Addr) {
    exists i :: 0 <= i < |omits| && OmitCovers(omits[i], a)
  }

  predicate WellFormed(omits: seq<Omit>) {
    forall i :: 0 <= i < |omits| ==> !omits[i].Malformed?
  }

  /** effectiveIPRange: the usable range in L2 mode, the whole block in L3 mode, cut by the bounds. */
  function EffectiveIPRange(net: Prefix, rangeStart: Option<Addr>, rangeEnd: Option<Addr>, l3: bool): (r: (Addr, Addr))
    ensures r.0.family == r.1.family == net.family
    ensures net.base <= r.0.value <= r.1.value < net.base + net.Size()
  {
    if !l3 then
      UsableBetweenEnds(net, NetworkIP(net));
      GetIPRange(net, rangeStart, rangeEnd)
    else
      var first :=
        if rangeStart.Some? && Contains(net, rangeStart.value) && CompareIPs(rangeStart.value, NetworkIP(net)) >= 0
        then rangeStart.value else NetworkIP(net);
      var last :=
        if rangeEnd.Some? && Contains(net, rangeEnd.value) && CompareIPs(rangeEnd.value, first) >= 0
           && CompareIPs(rangeEnd.value, SubnetBroadcastIP(net)) <= 0
        then rangeEnd.value else SubnetBroadcastIP(net);
      (first, last)
  }

  function Bounds(conf: RangeConfiguration): (Addr, Addr)
    requires conf.range.Some?
  {
    EffectiveIPRange(conf.range.value, conf.rangeStart, conf.rangeEnd, conf.l3)
  }

  /** In the subnet and the effective range, not reserved and not excluded. */
  predicate Eligible(conf: RangeConfiguration, list: seq<Reservation>, a: Addr)
    requires conf.range.Some?
  {
    && Contains(conf.range.value, a)
    && IsIPInRange(a, Bounds(conf).0, Bounds(conf).1)
    && !Reserved(list, a)
    && !Excluded(conf.omitRanges, a)
  }

  predicate PickAllowed(picks: seq<Option<Addr>>, a: Addr) {
    picks == [] || exists i :: 0 <= i < |picks| && picks[i] == Some(a)
  }

  // ---------------------------------------------------------------------
  // Reference definitions
  // ---------------------------------------------------------------------

  /** The first eligible address when every number from v to hi is tried in turn. */
  ghost function LowestFrom(conf: RangeConfiguration, list: seq<Reservation>, v: nat, hi: nat): Option<Addr>
    requires conf.range.Some? && hi < Space(conf.range.value.family)
    decreases hi + 1 - v
  {
    if v > hi then None
    else if Eligible(conf, list, RawAddr(conf.range.value.family, v)) then Some(RawAddr(conf.range.value.family, v))
    else LowestFrom(conf, list, v + 1, hi)
  }

  ghost function Lowest(conf: RangeConfiguration, list: seq<Reservation>): Option<Addr>
    requires conf.range.Some?
  {
    LowestFrom(conf, list, Bounds(conf).0.value, Bounds(conf).1.value)
  }

  lemma {:induction false} LowestFromIsMinimum(conf: RangeConfiguration, list: seq<Reservation>, v: nat, hi: nat)
    requires conf.range.Some? && hi < Space(conf.range.value.family)
    ensures
      var r := LowestFrom(conf, list, v, hi);
      && (r.Some? ==> Eligible(conf, list, r.value) && v <= r.value.value <= hi)
      && (forall a: Addr :: a.family == conf.range.value.family && v <= a.value <= hi && Eligible(conf, list, a) ==>
            r.Some? && r.value.value <= a.value)
    decreases hi + 1 - v
  {
    hide Eligible, Bounds, Space, Pow2;
    var f := conf.range.value.family;
    if v <= hi && !Eligible(conf, list, RawAddr(f, v)) {
      LowestFromIsMinimum(conf, list, v + 1, hi);
      assert forall a: Addr :: a.family == f && a.value == v ==> a == RawAddr(f, v);
    }
  }

  /** The lowest eligible address is eligible, is below every other, and is missing only when no
      address at all is eligible. */
  lemma LowestIsMinimum(conf: RangeConfiguration, list: seq<Reservation>)
    requires conf.range.Some?
    ensures Lowest(conf, list).Some? ==> Eligible(conf, list, Lowest(conf, list).value)
    ensures forall a: Addr :: Eligible(conf, list, a) ==>
              Lowest(conf, list).Some? && Lowest(conf, list).value.value <= a.value
  {
    LowestFromIsMinimum(conf, list, Bounds(conf).0.value, Bounds(conf).1.value);
  }

  /** The minimum determines the lowest address. */
  lemma MinimumIsLowest(conf: RangeConfiguration, list: seq<Reservation>, a: Addr)
    requires conf.range.Some? && Eligible(conf, list, a)
    requires forall b: Addr :: Eligible(conf, list, b) ==> a.value <= b.value
    ensures Lowest(conf, list) == Some(a)
  {
    LowestIsMinimum(conf, list);
  }

  /** The first candidate from position i on that is eligible. */
  ghost function FirstPick(conf: RangeConfiguration, list: seq<Reservation>, i: nat): Option<Addr>
    requires conf.range.Some? && i <= |conf.pickAddresses|
    decreases |conf.pickAddresses| - i
  {
    if i == |conf.pickAddresses| then None
    else if conf.pickAddresses[i].Some? && Eligible(conf, list, conf.pickAddresses[i].value) then conf.pickAddresses[i]
    else FirstPick(conf, list, i + 1)
  }

  lemma {:induction false} FirstPickIsFirst(conf: RangeConfiguration, list: seq<Reservation>, i: nat)
    requires conf.range.Some? && i <= |conf.pickAddresses|
    ensures
      var r := FirstPick(conf, list, i);
      && (r.Some? ==> Eligible(conf, list, r.value) && exists k ::
            && i <= k < |conf.pickAddresses| && conf.pickAddresses[k] == r
            && (forall j :: i <= j < k ==>
                  conf.pickAddresses[j].Some? ==> !Eligible(conf, list, conf.pickAddresses[j].value)))
      && (r.None? ==> forall j :: i <= j < |conf.pickAddresses| ==>
            conf.pickAddresses[j].Some? ==> !Eligible(conf, list, conf.pickAddresses[j].value))
    decreases |conf.pickAddresses| - i
  {
    hide Eligible, Space, Pow2;
    if i < |conf.pickAddresses| {
      if conf.pickAddresses[i].Some? && Eligible(conf, list, conf.pickAddresses[i].value) {
      } else {
        FirstPickIsFirst(conf, list, i + 1);
      }
    }
  }

  /** The first record of the requester's (pod, interface) from position i on. */
  function OwnIndex(list: seq<Reservation>, who: Requester, i: nat): (k: nat)
    requires i <= |list|
    ensures i <= k <= |list|
    ensures k < |list| ==> Owns(list[k], who)
    ensures forall j :: i <= j < k ==> !Owns(list[j], who)
    decreases |list| - i
  {
    if i == |list| || Owns(list[i], who) then i else OwnIndex(list, who, i + 1)
  }

  ghost predicate PreferredTaken(conf: RangeConfiguration, list: seq<Reservation>)
    requires conf.range.Some?
  {
    conf.preferredIP.Some? && Eligible(conf, list, conf.preferredIP.value)
    && PickAllowed(conf.pickAddresses, conf.preferredIP.value)
  }

  ghost function Fresh(conf: RangeConfiguration, list: seq<Reservation>): Option<Addr>
    requires conf.range.Some?
  {
    if PreferredTaken(conf, list) then conf.preferredIP
    else if conf.pickAddresses != [] then FirstPick(conf, list, 0)
    else Lowest(conf, list)
  }

  /** What AssignIP means: the record the pod already has, with the new container; otherwise one
      new record for the preferred address, the first usable candidate, or the lowest address. */
  ghost function Assigned(conf: RangeConfiguration, list: seq<Reservation>, who: Requester): AssignResult {
    if conf.range.None? then Err(InvalidRange)
    else if conf.preferredIP.Some? && !WellFormed(conf.omitRanges) then Err(InvalidExclude)
    else
      var k := OwnIndex(list, who, 0);
      if k < |list| then Ok(Assignment(list[k].ip, list[k := list[k].(containerID := who.containerID)]))
      else if !WellFormed(conf.omitRanges) then Err(InvalidExclude)
      else
        match Fresh(conf, list)
        case None => Err(Exhausted)
        case Some(a) => Ok(Assignment(Some(a), list + [Record(a, who)]))
  }

  // ---------------------------------------------------------------------
  // The implementation
  // ---------------------------------------------------------------------

  /** A single address excludes its host-length prefix. */
  function HostPrefix(a: Addr): (p: Prefix)
    ensures forall b: Addr :: Contains(p, b) <==> b == a
  {
    assert Pow2(0) == 1;
    RawPrefix(a.family, a.value, Bits(a.family))
  }

  function ParseExcludedRange(o: Omit): Option<Prefix> {
    match o
    case OmitCidr(subnet) => Some(subnet)
    case OmitIP(ip) => Some(HostPrefix(ip))
    case Malformed => None
  }

  predicate AnyContains(excluded: seq<Prefix>, a: Addr) {
    exists i :: 0 <= i < |excluded| && Contains(excluded[i], a)
  }

  method ParseExcludedRanges(omits: seq<Omit>) returns (r: Result<seq<Prefix>, AssignError>)
    ensures r.Ok? <==> WellFormed(omits)
    ensures r.Err? ==> r.error == InvalidExclude
    ensures r.Ok? ==> forall a: Addr :: AnyContains(r.value, a) <==> Excluded(omits, a)
  {
    var excluded: seq<Prefix> := [];
    for i := 0 to |omits|
      invariant |excluded| == i
      invariant forall k :: 0 <= k < i ==> ParseExcludedRange(omits[k]) == Some(excluded[k])
    {
      var subnet := ParseExcludedRange(omits[i]);
      if subnet.None? {
        return Err(InvalidExclude);
      }
      excluded := excluded + [subnet.value];
    }
    forall a: Addr ensures AnyContains(excluded, a) <==> Excluded(omits, a) {
      assert forall k :: 0 <= k < |omits| ==> (Contains(excluded[k], a) <==> OmitCovers(omits[k], a));
    }
    return Ok(excluded);
  }

  method MakeReservedMap(list: seq<Reservation>) returns (reserved: set<Addr>)
    ensures forall a: Addr :: a in reserved <==> Reserved(list, a)
  {
    reserved := {};
    for i := 0 to |list|
      invariant forall a: Addr :: a in reserved <==> exists k :: 0 <= k < i && list[k].ip == Some(a)
    {
      if list[i].ip.Some? {
        reserved := reserved + {list[i].ip.value};
      }
    }
  }

  lemma AnyContainsTail(excluded: seq<Prefix>)
    requires excluded != []
    ensures forall a: Addr :: AnyContains(excluded, a) <==> Contains(excluded[0], a) || AnyContains(excluded[1..], a)
  {
    hide Contains;
    forall a: Addr ensures AnyContains(excluded, a) <==> Contains(excluded[0], a) || AnyContains(excluded[1..], a) {
      if i :| 0 <= i < |excluded| && Contains(excluded[i], a) {
        assert i > 0 ==> excluded[1..][i - 1] == excluded[i];
      }
      if i :| 0 <= i < |excluded[1..]| && Contains(excluded[1..][i], a) {
        assert excluded[i + 1] == excluded[1..][i];
      }
    }
  }

  /** The last address of the first excluded subnet that holds ip. */
  function SkipExcludedSubnets(ip: Addr, excluded: seq<Prefix>): (r: Option<Addr>)
    ensures r.Some? <==> AnyContains(excluded, ip)
    ensures r.Some? ==> r.value.family == ip.family && ip.value <= r.value.value
    ensures r.Some? ==> forall a: Addr :: a.family == ip.family && ip.value <= a.value <= r.value.value ==> AnyContains(excluded, a)
  {
    if excluded == [] then None
    else if Contains(excluded[0], ip) then Some(SubnetBroadcastIP(excluded[0]))
    else
      AnyContainsTail(excluded);
      SkipExcludedSubnets(ip, excluded[1..])
  }

  /** No address below v is eligible. */
  ghost predicate NoneBelow(conf: RangeConfiguration, list: seq<Reservation>, v: nat)
    requires conf.range.Some?
  {
    forall a: Addr :: Eligible(conf, list, a) ==> v <= a.value
  }

  /** Ineligible addresses from v to w push the bound past w. */
  lemma Advance(conf: RangeConfiguration, list: seq<Reservation>, v: nat, w: nat)
    requires conf.range.Some? && NoneBelow(conf, list, v)
    requires forall a: Addr :: a.family == conf.range.value.family && v <= a.value <= w ==> !Eligible(conf, list, a)
    ensures NoneBelow(conf, list, w + 1)
  {
  }

  lemma NoneBelowFirst(conf: RangeConfiguration, list: seq<Reservation>)
    requires conf.range.Some?
    ensures NoneBelow(conf, list, Bounds(conf).0.value) && Bounds(conf).0.family == conf.range.value.family
  {
    hide Pow2, Reserved, Excluded;
  }

  lemma ReservedIsPassed(conf: RangeConfiguration, list: seq<Reservation>, ip: Addr)
    requires conf.range.Some? && NoneBelow(conf, list, ip.value) && ip.family == conf.range.value.family && Reserved(list, ip)
    ensures NoneBelow(conf, list, ip.value + 1)
  {
    hide Pow2, Reserved, Excluded, Bounds;
    Advance(conf, list, ip.value, ip.value);
  }

  lemma ExcludedIsPassed(conf: RangeConfiguration, list: seq<Reservation>, ip: Addr, to: Addr)
    requires conf.range.Some? && NoneBelow(conf, list, ip.value) && ip.family == conf.range.value.family
    requires forall a: Addr :: a.family == ip.family && ip.value <= a.value <= to.value ==> Excluded(conf.omitRanges, a)
    ensures NoneBelow(conf, list, to.value + 1)
  {
    hide Pow2, Reserved, Excluded, Bounds;
    Advance(conf, list, ip.value, to.value);
  }

  lemma OpenIsLowest(conf: RangeConfiguration, list: seq<Reservation>, ip: Addr)
    requires conf.range.Some? && NoneBelow(conf, list, ip.value)
    requires Contains(conf.range.value, ip) && Bounds(conf).0.value <= ip.value && CompareIPs(ip, Bounds(conf).1) <= 0
    requires !Reserved(list, ip) && !Excluded(conf.omitRanges, ip)
    ensures Lowest(conf, list) == Some(ip)
  {
    hide Pow2, Reserved, Excluded, Lowest;
    MinimumIsLowest(conf, list, ip);
  }

  lemma NoneLeft(conf: RangeConfiguration, list: seq<Reservation>, v: nat)
    requires conf.range.Some? && NoneBelow(conf, list, v)
    requires v > Bounds(conf).1.value || v >= Space(conf.range.value.family)
    ensures Lowest(conf, list) == None
  {
    LowestIsMinimum(conf, list);
  }

  lemma PastTheEnd(conf: RangeConfiguration, list: seq<Reservation>, ip: Addr)
    requires conf.range.Some? && NoneBelow(conf, list, ip.value) && ip.family == conf.range.value.family && Bounds(conf).0.value <= ip.value
    requires !(Contains(conf.range.value, ip) && CompareIPs(ip, Bounds(conf).1) <= 0)
    ensures Lowest(conf, list) == None
  {
    hide Pow2, Eligible, NoneBelow, Lowest;
    NoneLeft(conf, list, ip.value);
  }

  /** The scan. It jumps over excluded subnets, yet finds exactly the address that trying every
      number in turn would find, and it stops at the all-ones address. */
  method IterateForAssignment(conf: RangeConfiguration, list: seq<Reservation>, who: Requester)
    returns (r: AssignResult)
    requires conf.range.Some?
    ensures !WellFormed(conf.omitRanges) ==> r == Err(InvalidExclude)
    ensures WellFormed(conf.omitRanges) ==>
              r == match Lowest(conf, list)
                   case None => Err(Exhausted)
                   case Some(a) => Ok(Assignment(Some(a), list + [Record(a, who)]))
  {
    hide Pow2, LowestFrom, Lowest, Eligible, NoneBelow, Reserved, Excluded, AnyContains, Contains, CompareIPs, EffectiveIPRange;
    var net := conf.range.value;
    var (firstIP, lastIP) := EffectiveIPRange(net, conf.rangeStart, conf.rangeEnd, conf.l3);
    var reserved := MakeReservedMap(list);
    var parsed := ParseExcludedRanges(conf.omitRanges);
    if parsed.Err? {
      return Err(parsed.error);
    }
    var excluded := parsed.value;
    var ip := firstIP;
    NoneBelowFirst(conf, list);
    while Contains(net, ip) && CompareIPs(ip, lastIP) <= 0
      invariant ip.family == net.family && firstIP.value <= ip.value
      invariant NoneBelow(conf, list, ip.value)
      decreases Space(net.family) - ip.value
    {
      if ip in reserved {
        ReservedIsPassed(conf, list, ip);
        var next := IncIP(ip);
        if next == ip {
          NoneLeft(conf, list, ip.value + 1);
          break;
        }
        ip := next;
        continue;
      }
      var skipTo := SkipExcludedSubnets(ip, excluded);
      if skipTo.Some? {
        ExcludedIsPassed(conf, list, ip, skipTo.value);
        var next := IncIP(skipTo.value);
        if next == skipTo.value {
          NoneLeft(conf, list, skipTo.value.value + 1);
          break;
        }
        ip := next;
        continue;
      }
      OpenIsLowest(conf, list, ip);
      return Ok(Assignment(Some(ip), list + [Record(ip, who)]));
    }
    if !(Contains(net, ip) && CompareIPs(ip, lastIP) <= 0) {
      PastTheEnd(conf, list, ip);
    }
    return Err(Exhausted);
  }

  method PickForAssignment(conf: RangeConfiguration, list: seq<Reservation>, who: Requester)
    returns (r: AssignResult)
    requires conf.range.Some?
    ensures !WellFormed(conf.omitRanges) ==> r == Err(InvalidExclude)
    ensures WellFormed(conf.omitRanges) ==>
              r == match FirstPick(conf, list, 0)
                   case None => Err(Exhausted)
                   case Some(a) => Ok(Assignment(Some(a), list + [Record(a, who)]))
  {
    var net := conf.range.value;
    var (firstIP, lastIP) := EffectiveIPRange(net, conf.rangeStart, conf.rangeEnd, conf.l3);
    var reserved := MakeReservedMap(list);
    var parsed := ParseExcludedRanges(conf.omitRanges);
    if parsed.Err? {
      return Err(parsed.error);
    }
    for i := 0 to |conf.pickAddresses|
      invariant FirstPick(conf, list, 0) == FirstPick(conf, list, i)
    {
      var candidate := conf.pickAddresses[i];
      if candidate.None? || !Contains(net, candidate.value) {
        continue;
      }
      if !IsIPInRange(candidate.value, firstIP, lastIP) || candidate.value in reserved
         || AnyContains(parsed.value, candidate.value) {
        continue;
      }
      return Ok(Assignment(candidate, list + [Record(candidate.value, who)]));
    }
    return Err(Exhausted);
  }

  /** The preferred route's own walk over the exclude entries. */
  method PreferredExcluded(omits: seq<Omit>, preferred: Addr) returns (excluded: bool)
    ensures excluded <==> Excluded(omits, preferred)
  {
    for i := 0 to |omits|
      invariant forall k :: 0 <= k < i ==> !OmitCovers(omits[k], preferred)
    {
      match omits[i] {
        case Malformed =>
        case OmitIP(ip) => if ip == preferred { return true; }
        case OmitCidr(subnet) => if Contains(subnet, preferred) { return true; }
      }
    }
    return false;
  }

  method AssignIP(conf: RangeConfiguration, list: seq<Reservation>, who: Requester) returns (r: AssignResult)
    ensures r == Assigned(conf, list, who)
  {
    if conf.range.None? {
      return Err(InvalidRange);
    }
    var net := conf.range.value;
    if conf.preferredIP.Some? {
      var parsed := ParseExcludedRanges(conf.omitRanges);
      if parsed.Err? {
        return Err(parsed.error);
      }
    }
    var reserveList := list;
    for i := 0 to |reserveList|
      invariant reserveList == list
      invariant OwnIndex(list, who, 0) == OwnIndex(list, who, i)
    {
      if Owns(reserveList[i], who) {
        if reserveList[i].containerID != who.containerID {
          reserveList := reserveList[i := reserveList[i].(containerID := who.containerID)];
        }
        assert reserveList == list[i := list[i].(containerID := who.containerID)];
        return Ok(Assignment(list[i].ip, reserveList));
      }
    }
    if conf.preferredIP.Some? {
      var (firstIP, lastIP) := EffectiveIPRange(net, conf.rangeStart, conf.rangeEnd, conf.l3);
      var preferred := conf.preferredIP.value;
      if Contains(net, preferred) && IsIPInRange(preferred, firstIP, lastIP) && PickAllowed(conf.pickAddresses, preferred) {
        var reserved := MakeReservedMap(list);
        if preferred !in reserved {
          var excluded := PreferredExcluded(conf.omitRanges, preferred);
          if !excluded {
            return Ok(Assignment(conf.preferredIP, list + [Record(preferred, who)]));
          }
        }
      }
    }
    if conf.pickAddresses != [] {
      r := PickForAssignment(conf, list, who);
    } else {
      r := IterateForAssignment(conf, list, who);
    }
  }
}
