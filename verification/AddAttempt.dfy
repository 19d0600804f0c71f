/** One ADD attempt on a pool: read the map, add dummy records, assign, drop the dummies, write. */
module AddAttempt {
  import opened Prelude
  import opened Addressing
  import opened Allocation
  import opened AllocationLaws
  import opened Codec

  // ---------------------------------------------------------------------
  // A pool by its numeric offsets
  // ---------------------------------------------------------------------

  /** The content of a pool: offset from its network address to the owner. */
  type Offsets = map<nat, IPAllocation>

  function Alloc(who: Requester): IPAllocation {
    IPAllocation(who.containerID, who.podRef, who.ifName)
  }

  predicate OwnedBy(a: IPAllocation, who: Requester) {
    a.podRef == who.podRef && a.ifName == who.ifName
  }

  /** Each (pod, interface) owns at most one offset. */
  ghost predicate UniqueOwners(m: Offsets) {
    forall j, k :: j in m && k in m && SameOwners(m[j], m[k]) ==> j == k
  }

  ghost predicate InFamily(m: Offsets, base: Addr) {
    forall k :: k in m ==> base.value + k < Space(base.family)
  }

  /** The stored form: canonical decimal keys. */
  ghost function Encode(m: Offsets): AllocationMap {
    DecimalInjective();
    map k | k in m :: Decimal(k) := m[k]
  }

  lemma EncodeEntry(m: Offsets, key: string)
    ensures key in Encode(m) <==> Canonical(key) && ParseOffset(key).value in m
    ensures key in Encode(m) ==> Encode(m)[key] == m[ParseOffset(key).value]
  {
    hide Decimal, ParseOffset;
    DecimalInjective();
    if key in Encode(m) {
      var k :| k in m && key == Decimal(k);
      DecimalRoundTrip(k);
    }
  }

  lemma EncodeUpdate(m: Offsets, k: nat, a: IPAllocation)
    ensures Encode(m[k := a]) == Encode(m)[Decimal(k) := a]
  {
    hide Decimal, ParseOffset, Encode;
    var x, y := Encode(m[k := a]), Encode(m)[Decimal(k) := a];
    DecimalRoundTrip(k);
    forall key ensures (key in x <==> key in y) && (key in x ==> x[key] == y[key]) {
      EncodeEntry(m, key);
      EncodeEntry(m[k := a], key);
    }
  }

  /** An order in which the offsets may be visited. */
  ghost predicate Visits(m: Offsets, ks: seq<nat>) {
    Distinct(ks) && forall k :: k in ks <==> k in m
  }

  /** The records of a pool, read in the given order. */
  ghost function PoolList(m: Offsets, base: Addr, ks: seq<nat>): (list: seq<Reservation>)
    requires Visits(m, ks)
    ensures |list| == |ks|
    ensures forall i :: 0 <= i < |list| ==> ks[i] in m && list[i] == ToReservation(m[ks[i]], IPAddOffset(base, ks[i]))
  {
    assert forall i :: 0 <= i < |ks| ==> ks[i] in ks;
    seq(|ks|, i requires 0 <= i < |ks| => ToReservation(m[ks[i]], IPAddOffset(base, ks[i])))
  }

  ghost function OffsetOf(key: string): nat {
    match ParseOffset(key)
    case Some(n) => n
    case None => 0
  }

  /** The offsets behind an order of keys. */
  ghost function OffsetOrder(order: seq<string>): (ks: seq<nat>)
    ensures |ks| == |order|
    ensures forall i :: 0 <= i < |ks| ==> ks[i] == OffsetOf(order[i])
  {
    seq(|order|, i requires 0 <= i < |order| => OffsetOf(order[i]))
  }

  lemma OrderIsCanonical(m: Offsets, order: seq<string>)
    requires IsOrder(Encode(m), order)
    ensures forall i :: 0 <= i < |order| ==> Canonical(order[i]) && ParseOffset(order[i]).value in m
  {
    hide Decimal, ParseOffset, Encode;
    forall i | 0 <= i < |order| ensures Canonical(order[i]) && ParseOffset(order[i]).value in m {
      assert order[i] in order;
      EncodeEntry(m, order[i]);
    }
  }

  lemma OrderVisits(m: Offsets, order: seq<string>)
    requires IsOrder(Encode(m), order)
    requires forall i :: 0 <= i < |order| ==> Canonical(order[i]) && ParseOffset(order[i]).value in m
    ensures Visits(m, OffsetOrder(order))
  {
    hide Decimal, ParseOffset, Encode;
    var ks := OffsetOrder(order);
    forall k | k in m ensures k in ks {
      DecimalRoundTrip(k);
      EncodeEntry(m, Decimal(k));
      var i := OrderIndex(Encode(m), order, Decimal(k));
      assert ks[i] == k;
    }
  }

  /** Reading the stored form visits every offset once. */
  lemma ReadsAs(m: Offsets, base: Addr, order: seq<string>) returns (ks: seq<nat>)
    requires IsOrder(Encode(m), order)
    ensures Visits(m, ks) && ListOf(Encode(m), base, order) == PoolList(m, base, ks)
  {
    hide Decimal, ParseOffset, Encode;
    OrderIsCanonical(m, order);
    OrderVisits(m, order);
    ks := OffsetOrder(order);
    var list := ListOf(Encode(m), base, order);
    forall i | 0 <= i < |list| ensures list[i] == PoolList(m, base, ks)[i] {
      EncodeEntry(m, order[i]);
    }
  }

  /** The content a list of records writes, by offset. */
  ghost function OffsetsOf(list: seq<Reservation>, base: Addr): Result<Offsets, CodecError> {
    if list == [] then Ok(map[])
    else
      var last := list[|list| - 1];
      match OffsetsOf(list[..|list| - 1], base)
      case Err(e) => Err(e)
      case Ok(m) =>
        if last.ip.None? || IPGetOffset(last.ip.value, base).None? then Err(InvalidAddress)
        else Ok(m[IPGetOffset(last.ip.value, base).value := ToAllocation(last)])
  }

  lemma {:induction false} WritesAs(list: seq<Reservation>, base: Addr)
    ensures MapOf(list, base) == match OffsetsOf(list, base) case Err(e) => Err(e) case Ok(m) => Ok(Encode(m))
  {
    hide Decimal, ParseOffset;
    if list != [] {
      WritesAs(list[..|list| - 1], base);
      var last := list[|list| - 1];
      if OffsetsOf(list, base).Ok? {
        EncodeUpdate(OffsetsOf(list[..|list| - 1], base).value, IPGetOffset(last.ip.value, base).value, ToAllocation(last));
      }
    }
  }

  lemma {:induction false} OffsetsOfAppend(list: seq<Reservation>, base: Addr, r: Reservation)
    requires OffsetsOf(list, base).Ok? && r.ip.Some? && IPGetOffset(r.ip.value, base).Some?
    ensures OffsetsOf(list + [r], base) == Ok(OffsetsOf(list, base).value[IPGetOffset(r.ip.value, base).value := ToAllocation(r)])
  {
  }

  /** Writing the records read, with owners taken from m', stores m'. */
  lemma {:induction false} WritesVisited(m': Offsets, base: Addr, ks: seq<nat>, list: seq<Reservation>)
    requires Distinct(ks) && |list| == |ks|
    requires forall i :: 0 <= i < |ks| ==> ks[i] in m' && base.value + ks[i] < Space(base.family)
    requires forall i :: 0 <= i < |ks| ==> list[i].ip == IPAddOffset(base, ks[i]) && ToAllocation(list[i]) == m'[ks[i]]
    ensures OffsetsOf(list, base) == Ok(Restrict(m', ks))
  {
    if list != [] {
      var n := |list| - 1;
      WritesVisited(m', base, ks[..n], list[..n]);
      RestrictNext(m', ks);
      assert IPGetOffset(list[n].ip.value, base) == Some(ks[n]);
    }
  }

  ghost function Restrict(m: Offsets, ks: seq<nat>): Offsets {
    map k | k in m && k in ks :: m[k]
  }

  lemma RestrictNext(m: Offsets, ks: seq<nat>)
    requires ks != [] && ks[|ks| - 1] in m
    ensures Restrict(m, ks) == Restrict(m, ks[..|ks| - 1])[ks[|ks| - 1] := m[ks[|ks| - 1]]]
  {
  }

  lemma RestrictAll(m: Offsets, ks: seq<nat>)
    requires forall k :: k in m ==> k in ks
    ensures Restrict(m, ks) == m
  {
  }

  // ---------------------------------------------------------------------
  // Dummy records
  // ---------------------------------------------------------------------

  function Dummy(a: Addr): Reservation {
    Reservation(Some(a), "", "", "", true)
  }

  function Dummies(taken: seq<Addr>): (d: seq<Reservation>)
    ensures |d| == |taken| && forall i :: 0 <= i < |d| ==> d[i] == Dummy(taken[i])
  {
    seq(|taken|, i requires 0 <= i < |taken| => Dummy(taken[i]))
  }

  /** The records that are persisted, in order. */
  function Real(list: seq<Reservation>): seq<Reservation> {
    if list == [] then []
    else
      var last := list[|list| - 1];
      if last.isAllocated then Real(list[..|list| - 1]) else Real(list[..|list| - 1]) + [last]
  }

  lemma {:induction false} RealOfReal(list: seq<Reservation>)
    requires forall i :: 0 <= i < |list| ==> !list[i].isAllocated
    ensures Real(list) == list
  {
    if list != [] {
      RealOfReal(list[..|list| - 1]);
    }
  }

  lemma {:induction false} RealDropsDummies(list: seq<Reservation>, dummies: seq<Reservation>)
    requires forall i :: 0 <= i < |dummies| ==> dummies[i].isAllocated
    ensures Real(list + dummies) == Real(list)
  {
    if dummies == [] {
      assert list + dummies == list;
    } else {
      var init := dummies[..|dummies| - 1];
      RealDropsDummies(list, init);
      assert (list + dummies)[..|list + dummies| - 1] == list + init;
    }
  }

  // ---------------------------------------------------------------------
  // Which offsets an attempt may take
  // ---------------------------------------------------------------------

  /** The reserve list of an attempt: the pool in the order it was read, then the dummies. */
  ghost function ReserveList(m: Offsets, base: Addr, ks: seq<nat>, taken: seq<Addr>): seq<Reservation>
    requires Visits(m, ks)
  {
    PoolList(m, base, ks) + Dummies(taken)
  }

  ghost predicate EligibleOffset(conf: RangeConfiguration, base: Addr, m: Offsets, taken: seq<Addr>, k: nat)
    requires conf.range.Some?
  {
    && k !in m
    && base.value + k < Space(base.family)
    && var a: Addr := RawAddr(base.family, base.value + k);
       && a !in taken
       && Contains(conf.range.value, a)
       && IsIPInRange(a, Bounds(conf).0, Bounds(conf).1)
       && !Excluded(conf.omitRanges, a)
  }

  /** An address is reserved exactly when the pool holds its offset or a dummy holds it. */
  lemma ReservedExactly(m: Offsets, base: Addr, ks: seq<nat>, taken: seq<Addr>, a: Addr)
    requires Visits(m, ks) && InFamily(m, base)
    ensures Reserved(ReserveList(m, base, ks, taken), a) <==>
            (a.family == base.family && base.value <= a.value && a.value - base.value in m) || a in taken
  {
    hide Space, Pow2;
    var pool := PoolList(m, base, ks);
    var list := ReserveList(m, base, ks, taken);
    if a.family == base.family && base.value <= a.value && a.value - base.value in m {
      assert a.value - base.value in ks;
      var i :| 0 <= i < |ks| && ks[i] == a.value - base.value;
      assert list[i] == pool[i] && list[i].ip == Some(a);
    }
    if a in taken {
      var i :| 0 <= i < |taken| && taken[i] == a;
      assert list[|pool| + i] == Dummy(a);
    }
  }

  lemma EligibleByOffset(conf: RangeConfiguration, base: Addr, m: Offsets, ks: seq<nat>, taken: seq<Addr>, a: Addr)
    requires conf.range.Some? && base == NetworkIP(conf.range.value)
    requires Visits(m, ks) && InFamily(m, base)
    ensures Eligible(conf, ReserveList(m, base, ks, taken), a) <==>
            a.family == base.family && base.value <= a.value && EligibleOffset(conf, base, m, taken, a.value - base.value)
  {
    hide Space, Pow2, Reserved, ReserveList, Bounds, Excluded, IsIPInRange;
    ReservedExactly(m, base, ks, taken, a);
    if a.family == base.family && base.value <= a.value {
      assert a == RawAddr(base.family, base.value + (a.value - base.value));
    }
  }

  // ---------------------------------------------------------------------
  // The attempt
  // ---------------------------------------------------------------------

  /** The pod's own offset, if it has one. */
  ghost predicate OwnOffset(m: Offsets, who: Requester, k: nat) {
    k in m && OwnedBy(m[k], who)
  }

  /** The offset an attempt writes: the pod's own, or a new eligible one that the candidate list
      allows and that is the lowest when neither candidates nor a preference are configured. */
  ghost predicate TakesOffset(conf: RangeConfiguration, base: Addr, m: Offsets, taken: seq<Addr>, who: Requester, k: nat)
    requires conf.range.Some?
  {
    || OwnOffset(m, who, k)
    || (&& (forall j :: !OwnOffset(m, who, j))
        && EligibleOffset(conf, base, m, taken, k)
        && PickAllowed(conf.pickAddresses, RawAddr(base.family, base.value + k))
        && (Plain(conf) ==> forall j :: EligibleOffset(conf, base, m, taken, j) ==> k <= j))
  }

  lemma OwnIndexOffset(m: Offsets, base: Addr, ks: seq<nat>, taken: seq<Addr>, who: Requester)
    requires Visits(m, ks) && who.podRef != ""
    ensures
      var list := ReserveList(m, base, ks, taken);
      var i := OwnIndex(list, who, 0);
      && (i < |list| ==> i < |ks| && OwnOffset(m, who, ks[i]))
      && (i == |list| ==> forall k :: !OwnOffset(m, who, k))
  {
    var list := ReserveList(m, base, ks, taken);
    var i := OwnIndex(list, who, 0);
    if i == |list| {
      forall k | k in m ensures !OwnOffset(m, who, k) {
        assert k in ks;
        var j :| 0 <= j < |ks| && ks[j] == k;
        assert !Owns(list[j], who);
      }
    }
  }

  /** The pod already has a record: the same offset is written with the new container. */
  lemma AttemptOwned(base: Addr, m: Offsets, ks: seq<nat>, taken: seq<Addr>, who: Requester, i: nat)
    requires Visits(m, ks) && InFamily(m, base) && i < |ks| && OwnOffset(m, who, ks[i])
    ensures
      var list := ReserveList(m, base, ks, taken);
      && list[i].ip == Some(RawAddr(base.family, base.value + ks[i]))
      && OffsetsOf(Real(list[i := list[i].(containerID := who.containerID)]), base) == Ok(m[ks[i] := Alloc(who)])
  {
    hide Space, Pow2, Real, OffsetsOf, Restrict, ReserveList, PoolList, IPAddOffset;
    RealOfOwned(m, base, ks, taken, who.containerID, i);
    OwnedWrites(base, m, ks, who, i);
    OffsetAddress(m, base, ks[i]);
  }

  lemma OffsetAddress(m: Offsets, base: Addr, k: nat)
    requires InFamily(m, base) && k in m
    ensures IPAddOffset(base, k) == Some(RawAddr(base.family, base.value + k))
  {
    hide Space, Pow2;
  }

  lemma OwnedWrites(base: Addr, m: Offsets, ks: seq<nat>, who: Requester, i: nat)
    requires Visits(m, ks) && InFamily(m, base) && i < |ks| && OwnOffset(m, who, ks[i])
    ensures
      var pool := PoolList(m, base, ks);
      OffsetsOf(pool[i := pool[i].(containerID := who.containerID)], base) == Ok(m[ks[i] := Alloc(who)])
  {
    hide Space, Pow2, OffsetsOf, Restrict, IPAddOffset;
    var pool := PoolList(m, base, ks);
    var m' := m[ks[i] := Alloc(who)];
    WritesVisited(m', base, ks, pool[i := pool[i].(containerID := who.containerID)]);
    RestrictAll(m', ks);
  }

  lemma RealOfOwned(m: Offsets, base: Addr, ks: seq<nat>, taken: seq<Addr>, containerID: string, i: nat)
    requires Visits(m, ks) && i < |ks|
    ensures
      var pool, list := PoolList(m, base, ks), ReserveList(m, base, ks, taken);
      && |list| == |ks| + |taken| && list[i] == pool[i]
      && Real(list[i := list[i].(containerID := containerID)]) == pool[i := pool[i].(containerID := containerID)]
  {
    hide Space, Pow2, Real;
    var pool, list := PoolList(m, base, ks), ReserveList(m, base, ks, taken);
    var pool' := pool[i := pool[i].(containerID := containerID)];
    assert list[i := list[i].(containerID := containerID)] == pool' + Dummies(taken);
    RealDropsDummies(pool', Dummies(taken));
    RealOfReal(pool');
  }

  lemma RealOfFresh(m: Offsets, base: Addr, ks: seq<nat>, taken: seq<Addr>, r: Reservation)
    requires Visits(m, ks) && !r.isAllocated
    ensures Real(ReserveList(m, base, ks, taken) + [r]) == PoolList(m, base, ks) + [r]
  {
    hide Space, Pow2;
    var pool := PoolList(m, base, ks);
    var list := ReserveList(m, base, ks, taken);
    assert (list + [r])[..|list|] == list;
    RealDropsDummies(pool, Dummies(taken));
    RealOfReal(pool);
  }

  /** The pod has no record: one new offset is written. */
  lemma AttemptFresh(base: Addr, m: Offsets, ks: seq<nat>, taken: seq<Addr>, who: Requester, k: nat)
    requires Visits(m, ks) && InFamily(m, base) && base.value + k < Space(base.family)
    ensures OffsetsOf(Real(ReserveList(m, base, ks, taken) + [Record(RawAddr(base.family, base.value + k), who)]), base)
            == Ok(m[k := Alloc(who)])
  {
    hide Space, Pow2, OffsetsOf, Restrict, Real, ReserveList;
    var pool := PoolList(m, base, ks);
    var r := Record(RawAddr(base.family, base.value + k), who);
    RealOfFresh(m, base, ks, taken, r);
    WritesVisited(m, base, ks, pool);
    RestrictAll(m, ks);
    OffsetsOfAppend(pool, base, r);
  }

  lemma LowestByOffset(conf: RangeConfiguration, base: Addr, m: Offsets, ks: seq<nat>, taken: seq<Addr>)
    requires conf.range.Some? && base == NetworkIP(conf.range.value)
    requires Visits(m, ks) && InFamily(m, base)
    ensures
      var low := Lowest(conf, ReserveList(m, base, ks, taken));
      forall j :: EligibleOffset(conf, base, m, taken, j) ==> low.Some? && low.value.value <= base.value + j
  {
    hide Space, Pow2, Eligible, LowestFrom, Lowest, ReserveList;
    var list := ReserveList(m, base, ks, taken);
    LowestIsMinimum(conf, list);
    forall j | EligibleOffset(conf, base, m, taken, j)
      ensures Lowest(conf, list).Some? && Lowest(conf, list).value.value <= base.value + j
    {
      EligibleByOffset(conf, base, m, ks, taken, RawAddr(base.family, base.value + j));
    }
  }

  ghost predicate NothingLeft(conf: RangeConfiguration, base: Addr, m: Offsets, taken: seq<Addr>, who: Requester)
    requires conf.range.Some?
  {
    forall k ::
      && !OwnOffset(m, who, k)
      && (EligibleOffset(conf, base, m, taken, k) ==>
            !PickAllowed(conf.pickAddresses, RawAddr(base.family, base.value + k)))
  }

  /** The assignment writes the content with exactly offset k set, and returns that offset's address. */
  ghost predicate WritesOffset(conf: RangeConfiguration, base: Addr, m: Offsets, taken: seq<Addr>, who: Requester, r: Assignment, k: nat)
    requires conf.range.Some?
  {
    && TakesOffset(conf, base, m, taken, who, k)
    && base.value + k < Space(base.family) && r.ip == Some(RawAddr(base.family, base.value + k))
    && OffsetsOf(Real(r.list), base) == Ok(m[k := Alloc(who)])
  }

  lemma AttemptByOffset(conf: RangeConfiguration, base: Addr, m: Offsets, ks: seq<nat>, taken: seq<Addr>, who: Requester)
    requires conf.range.Some? && base == NetworkIP(conf.range.value) && who.podRef != ""
    requires Visits(m, ks) && InFamily(m, base)
    ensures
      var r := Assigned(conf, ReserveList(m, base, ks, taken), who);
      && (r.Ok? ==> exists k :: WritesOffset(conf, base, m, taken, who, r.value, k))
      && (r == Err(Exhausted) ==> NothingLeft(conf, base, m, taken, who))
  {
    hide Space, Pow2, Real, OffsetsOf, ReserveList, Eligible, LowestFrom, FirstPick, Visits, InFamily, Bounds, Excluded, PickAllowed;
    var list := ReserveList(m, base, ks, taken);
    var i := OwnIndex(list, who, 0);
    OwnIndexOffset(m, base, ks, taken, who);
    FreshIsSound(conf, list);
    var outcome := Assigned(conf, list, who);
    if outcome.Ok? && i < |list| {
      AttemptOwned(base, m, ks, taken, who, i);
      assert WritesOffset(conf, base, m, taken, who, outcome.value, ks[i]);
    } else if outcome.Ok? {
      var a := outcome.value.ip.value;
      EligibleByOffset(conf, base, m, ks, taken, a);
      var k := a.value - base.value;
      AttemptFresh(base, m, ks, taken, who, k);
      LowestByOffset(conf, base, m, ks, taken);
      assert WritesOffset(conf, base, m, taken, who, outcome.value, k);
    } else if outcome == Err(Exhausted) {
      forall k | EligibleOffset(conf, base, m, taken, k)
        ensures !PickAllowed(conf.pickAddresses, RawAddr(base.family, base.value + k))
      {
        EligibleByOffset(conf, base, m, ks, taken, RawAddr(base.family, base.value + k));
      }
    }
  }

  /** For every order in which the stored map is read, an attempt that assigns an address writes
      the stored map with exactly one key set. No dummy record is ever written. An attempt is refused
      for exhaustion only when the pod has no key and no allowed offset is eligible. */
  lemma AttemptSetsOneKey(conf: RangeConfiguration, base: Addr, m: Offsets, order: seq<string>, taken: seq<Addr>, who: Requester)
    requires conf.range.Some? && base == NetworkIP(conf.range.value) && who.podRef != ""
    requires IsOrder(Encode(m), order) && InFamily(m, base)
    ensures
      var r := Assigned(conf, ListOf(Encode(m), base, order) + Dummies(taken), who);
      && (r.Ok? ==> exists k ::
            WritesOffset(conf, base, m, taken, who, r.value, k) && MapOf(Real(r.value.list), base) == Ok(Encode(m[k := Alloc(who)])))
      && (r == Err(Exhausted) ==> NothingLeft(conf, base, m, taken, who))
  {
    hide Decimal, ParseOffset;
    var ks := ReadsAs(m, base, order);
    AttemptByOffset(conf, base, m, ks, taken, who);
    var r := Assigned(conf, ReserveList(m, base, ks, taken), who);
    if r.Ok? {
      var k :| WritesOffset(conf, base, m, taken, who, r.value, k);
      WritesAs(Real(r.value.list), base);
    }
  }

  // ---------------------------------------------------------------------
  // The iteration order does not matter
  // ---------------------------------------------------------------------

  ghost predicate SameEligible(conf: RangeConfiguration, x: seq<Reservation>, y: seq<Reservation>)
    requires conf.range.Some?
  {
    forall a: Addr :: Eligible(conf, x, a) <==> Eligible(conf, y, a)
  }

  lemma {:induction false} FirstPickCongruent(conf: RangeConfiguration, x: seq<Reservation>, y: seq<Reservation>, i: nat)
    requires conf.range.Some? && SameEligible(conf, x, y) && i <= |conf.pickAddresses|
    ensures FirstPick(conf, x, i) == FirstPick(conf, y, i)
    decreases |conf.pickAddresses| - i
  {
    hide Eligible;
    if i < |conf.pickAddresses| {
      FirstPickCongruent(conf, x, y, i + 1);
    }
  }

  lemma FreshCongruent(conf: RangeConfiguration, x: seq<Reservation>, y: seq<Reservation>)
    requires conf.range.Some? && SameEligible(conf, x, y)
    ensures Fresh(conf, x) == Fresh(conf, y)
  {
    hide Eligible, LowestFrom, Space;
    FirstPickCongruent(conf, x, y, 0);
    LowestIsMinimum(conf, x);
    LowestIsMinimum(conf, y);
    if Lowest(conf, y).Some? {
      MinimumIsLowest(conf, x, Lowest(conf, y).value);
    }
  }

  /** Whatever the two orders in which a pool is read, the attempts return the same address or
      fail the same way, provided no pod owns two offsets. */
  lemma AttemptIgnoresOrder(conf: RangeConfiguration, base: Addr, m: Offsets, ks: seq<nat>, js: seq<nat>, taken: seq<Addr>, who: Requester)
    requires conf.range.Some? && base == NetworkIP(conf.range.value) && who.podRef != ""
    requires Visits(m, ks) && Visits(m, js) && InFamily(m, base) && UniqueOwners(m)
    ensures
      var x, y := Assigned(conf, ReserveList(m, base, ks, taken), who), Assigned(conf, ReserveList(m, base, js, taken), who);
      && (x.Err? ==> y == x)
      && (x.Ok? ==> y.Ok? && y.value.ip == x.value.ip)
  {
    hide Eligible, EligibleOffset, LowestFrom, FirstPick, Space;
    var k, j := ReserveList(m, base, ks, taken), ReserveList(m, base, js, taken);
    OwnIndexOffset(m, base, ks, taken, who);
    OwnIndexOffset(m, base, js, taken, who);
    forall a: Addr ensures Eligible(conf, k, a) <==> Eligible(conf, j, a) {
      EligibleByOffset(conf, base, m, ks, taken, a);
      EligibleByOffset(conf, base, m, js, taken, a);
    }
    FreshCongruent(conf, k, j);
  }
}
