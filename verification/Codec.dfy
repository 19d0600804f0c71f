/** How reservations are stored: a map from decimal offsets to owners (pkg/storage/kubernetes). */
module Codec {
  import opened Prelude
  import opened Addressing
  import opened Allocation

  datatype IPAllocation = IPAllocation(containerID: string, podRef: string, ifName: string)

  predicate SameOwners(x: IPAllocation, y: IPAllocation) {
    x.podRef == y.podRef && x.ifName == y.ifName
  }

  /** What a cluster-wide reservation of an address records. */
  datatype Orip = Orip(podRef: string, ifName: string, podUID: string)

  /** Another pod's, or another interface's. */
  predicate ForeignTo(o: Orip, podRef: string, ifName: string) {
    o.podRef != podRef || o.ifName != ifName
  }

  // ---------------------------------------------------------------------
  // Decimal keys
  // ---------------------------------------------------------------------

  function Digit(d: nat): char
    requires d < 10
  {
    '0' + d as char
  }

  /** Canonical decimal text of a number. */
  function Decimal(n: nat): (s: string)
    ensures |s| > 0 && AllDigits(s)
  {
    if n < 10 then [Digit(n)] else Decimal(n / 10) + [Digit(n % 10)]
  }

  predicate AllDigits(s: string) {
    forall i :: 0 <= i < |s| ==> '0' <= s[i] <= '9'
  }

  function DigitsValue(s: string): nat
    requires AllDigits(s)
  {
    if s == [] then 0 else 10 * DigitsValue(s[..|s| - 1]) + (s[|s| - 1] - '0') as nat
  }

  /** Base-10 parsing of a key: an optional sign, then digits. Negative values are refused. */
  function ParseOffset(key: string): Option<nat> {
    var signed := key != [] && (key[0] == '+' || key[0] == '-');
    var digits := if signed then key[1..] else key;
    if digits == [] || !AllDigits(digits) then None
    else if signed && key[0] == '-' && DigitsValue(digits) != 0 then None
    else Some(DigitsValue(digits))
  }

  lemma {:induction false} DecimalRoundTrip(n: nat)
    ensures ParseOffset(Decimal(n)) == Some(n)
  {
    DecimalValue(n);
    assert '0' <= Decimal(n)[0] <= '9';
  }

  lemma {:induction false} DecimalValue(n: nat)
    ensures DigitsValue(Decimal(n)) == n
  {
    if n >= 10 {
      DecimalValue(n / 10);
      assert Decimal(n)[..|Decimal(n)| - 1] == Decimal(n / 10);
    }
  }

  lemma DecimalInjective()
    ensures forall m: nat, n: nat :: Decimal(m) == Decimal(n) ==> m == n
  {
    forall m: nat, n: nat | Decimal(m) == Decimal(n) ensures m == n {
      DecimalRoundTrip(m);
      DecimalRoundTrip(n);
    }
  }

  predicate Canonical(key: string) {
    ParseOffset(key).Some? && key == Decimal(ParseOffset(key).value)
  }

  // ---------------------------------------------------------------------
  // Map to list
  // ---------------------------------------------------------------------

  type AllocationMap = map<string, IPAllocation>

  /** An order in which a map iteration may visit the keys that decode. */
  ghost predicate IsOrder(allocations: AllocationMap, order: seq<string>) {
    && Distinct(order)
    && (forall key :: key in order <==> key in allocations && ParseOffset(key).Some?)
  }

  function ToReservation(a: IPAllocation, ip: Option<Addr>): Reservation {
    Reservation(ip, a.containerID, a.podRef, a.ifName, false)
  }

  /** The address of a key, counted from the pool's first address. */
  function KeyAddress(firstIP: Addr, key: string): Option<Addr> {
    match ParseOffset(key)
    case None => None
    case Some(n) => IPAddOffset(firstIP, n)
  }

  ghost function ListOf(allocations: AllocationMap, firstIP: Addr, order: seq<string>): (list: seq<Reservation>)
    requires IsOrder(allocations, order)
    ensures |list| == |order|
    ensures forall i :: 0 <= i < |list| ==> list[i] == ToReservation(allocations[order[i]], KeyAddress(firstIP, order[i]))
  {
    seq(|order|, i requires 0 <= i < |order| => ToReservation(allocations[order[i]], KeyAddress(firstIP, order[i])))
  }

  /** The list holds one record per key that decodes, in some order. */
  ghost predicate IsReading(allocations: AllocationMap, firstIP: Addr, list: seq<Reservation>) {
    exists order :: IsOrder(allocations, order) && list == ListOf(allocations, firstIP, order)
  }

  /** toIPReservationList: keys that do not decode are skipped; the visiting order is arbitrary. */
  method ToIPReservationList(allocations: AllocationMap, firstIP: Addr)
    returns (list: seq<Reservation>, ghost order: seq<string>)
    ensures IsReading(allocations, firstIP, list)
    ensures IsOrder(allocations, order) && list == ListOf(allocations, firstIP, order)
  {
    list, order := [], [];
    var rest := allocations.Keys;
    while rest != {}
      invariant rest <= allocations.Keys && |list| == |order|
      invariant forall key :: key in order <==> key in allocations && key !in rest && ParseOffset(key).Some?
      invariant Distinct(order)
      invariant forall i :: 0 <= i < |list| ==> list[i] == ToReservation(allocations[order[i]], KeyAddress(firstIP, order[i]))
      decreases rest
    {
      var key :| key in rest;
      rest := rest - {key};
      var offset := ParseOffset(key);
      if offset.None? {
        continue;
      }
      list := list + [ToReservation(allocations[key], IPAddOffset(firstIP, offset.value))];
      order := order + [key];
    }
    assert list == ListOf(allocations, firstIP, order);
  }

  // ---------------------------------------------------------------------
  // List to map
  // ---------------------------------------------------------------------

  datatype CodecError = InvalidAddress

  function RecordKey(r: Reservation, firstIP: Addr): Option<string> {
    if r.ip.None? then None
    else
      match IPGetOffset(r.ip.value, firstIP)
      case None => None
      case Some(n) => Some(Decimal(n))
  }

  function ToAllocation(r: Reservation): IPAllocation {
    IPAllocation(r.containerID, r.podRef, r.ifName)
  }

  /** What the stored map is: a later record overwrites an earlier one with the same key. */
  function MapOf(list: seq<Reservation>, firstIP: Addr): Result<AllocationMap, CodecError> {
    if list == [] then Ok(map[])
    else
      var last := list[|list| - 1];
      match (MapOf(list[..|list| - 1], firstIP), RecordKey(last, firstIP))
      case (Ok(m), Some(key)) => Ok(m[key := ToAllocation(last)])
      case _ => Err(InvalidAddress)
  }

  lemma {:induction false} MapOfErr(list: seq<Reservation>, firstIP: Addr)
    ensures MapOf(list, firstIP).Err? <==> exists i :: 0 <= i < |list| && RecordKey(list[i], firstIP).None?
  {
    if list != [] {
      var init := list[..|list| - 1];
      MapOfErr(init, firstIP);
      assert forall i :: 0 <= i < |init| ==> init[i] == list[i];
    }
  }

  method ToAllocationMap(list: seq<Reservation>, firstIP: Addr) returns (r: Result<AllocationMap, CodecError>)
    ensures r == MapOf(list, firstIP)
  {
    var allocations: AllocationMap := map[];
    for i := 0 to |list|
      invariant MapOf(list[..i], firstIP) == Ok(allocations)
    {
      assert list[..i + 1][..i] == list[..i];
      var key := RecordKey(list[i], firstIP);
      if key.None? {
        assert RecordKey(list[i], firstIP).None?;
        MapOfErr(list, firstIP);
        return Err(InvalidAddress);
      }
      allocations := allocations[key.value := ToAllocation(list[i])];
    }
    assert list[..|list|] == list;
    return Ok(allocations);
  }

  /** Records with different keys: the map holds exactly one entry per record. */
  lemma {:induction false} MapOfDistinct(list: seq<Reservation>, firstIP: Addr)
    requires forall i :: 0 <= i < |list| ==> RecordKey(list[i], firstIP).Some?
    requires forall i, j :: 0 <= i < j < |list| ==> RecordKey(list[i], firstIP) != RecordKey(list[j], firstIP)
    ensures
      var r := MapOf(list, firstIP);
      && r.Ok?
      && (forall key :: key in r.value ==> exists i :: 0 <= i < |list| && RecordKey(list[i], firstIP) == Some(key))
      && (forall i :: 0 <= i < |list| ==>
            var key := RecordKey(list[i], firstIP).value;
            key in r.value && r.value[key] == ToAllocation(list[i]))
  {
    hide RecordKey, Space, Pow2;
    if list != [] {
      var init := list[..|list| - 1];
      MapOfDistinct(init, firstIP);
      assert forall i :: 0 <= i < |init| ==> init[i] == list[i];
    }
  }

  // ---------------------------------------------------------------------
  // Round trips
  // ---------------------------------------------------------------------

  /** Every key is canonical and its address lies inside the family. */
  ghost predicate CanonicalMap(allocations: AllocationMap, firstIP: Addr) {
    forall key :: key in allocations ==> Canonical(key) && KeyAddress(firstIP, key).Some?
  }

  lemma OrderIndex(allocations: AllocationMap, order: seq<string>, key: string) returns (i: nat)
    requires IsOrder(allocations, order) && key in allocations && ParseOffset(key).Some?
    ensures i < |order| && order[i] == key
  {
    assert key in order;
    i :| 0 <= i < |order| && order[i] == key;
  }

  /** The key written for the i-th record read is the canonical form of the key it was read from. */
  lemma ListKey(allocations: AllocationMap, firstIP: Addr, order: seq<string>, i: nat)
    requires IsOrder(allocations, order) && i < |order|
    ensures
      var r := ListOf(allocations, firstIP, order)[i];
      && order[i] in allocations && ParseOffset(order[i]).Some? && ToAllocation(r) == allocations[order[i]]
      && RecordKey(r, firstIP) ==
         if KeyAddress(firstIP, order[i]).Some? then Some(Decimal(ParseOffset(order[i]).value)) else None
  {
    assert order[i] in order;
  }

  lemma CanonicalMapRoundTrips(allocations: AllocationMap, firstIP: Addr, order: seq<string>)
    requires IsOrder(allocations, order) && CanonicalMap(allocations, firstIP)
    ensures MapOf(ListOf(allocations, firstIP, order), firstIP) == Ok(allocations)
  {
    hide Decimal, ParseOffset, KeyAddress, RecordKey, MapOf, Space, Pow2;
    var list := ListOf(allocations, firstIP, order);
    forall i | 0 <= i < |list| ensures RecordKey(list[i], firstIP) == Some(order[i]) {
      ListKey(allocations, firstIP, order, i);
    }
    MapOfDistinct(list, firstIP);
    var m := MapOf(list, firstIP).value;
    forall key | key in allocations ensures key in m && m[key] == allocations[key] {
      var i := OrderIndex(allocations, order, key);
      ListKey(allocations, firstIP, order, i);
    }
    forall key | key in m ensures key in allocations {
      var i :| 0 <= i < |list| && RecordKey(list[i], firstIP) == Some(key);
      ListKey(allocations, firstIP, order, i);
    }
    assert m == allocations;
  }

  /** Reading a stored map and writing it back, in whatever order it was read, restores it exactly
      when every key is canonical and in the family; any other map is changed or refused. */
  lemma MapRoundTripExactly(allocations: AllocationMap, firstIP: Addr, order: seq<string>)
    requires IsOrder(allocations, order)
    ensures MapOf(ListOf(allocations, firstIP, order), firstIP) == Ok(allocations) <==> CanonicalMap(allocations, firstIP)
  {
    var list := ListOf(allocations, firstIP, order);
    if CanonicalMap(allocations, firstIP) {
      CanonicalMapRoundTrips(allocations, firstIP, order);
    }
    if MapOf(list, firstIP) == Ok(allocations) {
      MapOfKeysCanonical(list, firstIP);
      MapOfErr(list, firstIP);
      forall key | key in allocations ensures Canonical(key) && KeyAddress(firstIP, key).Some? {
        var i := OrderIndex(allocations, order, key);
        ListKey(allocations, firstIP, order, i);
        assert RecordKey(list[i], firstIP).Some?;
      }
    }
  }

  lemma {:induction false} MapOfKeysCanonical(list: seq<Reservation>, firstIP: Addr)
    ensures
      var r := MapOf(list, firstIP);
      r.Ok? ==> forall key :: key in r.value ==> Canonical(key)
  {
    if list != [] {
      MapOfKeysCanonical(list[..|list| - 1], firstIP);
      var last := list[|list| - 1];
      if RecordKey(last, firstIP).Some? {
        DecimalRoundTrip(IPGetOffset(last.ip.value, firstIP).value);
      }
    }
  }

  /** A real record whose address is at or above the pool's first address. */
  ghost predicate Storable(r: Reservation, firstIP: Addr) {
    !r.isAllocated && r.ip.Some? && r.ip.value.family == firstIP.family && firstIP.value <= r.ip.value.value
  }

  ghost predicate StorableList(list: seq<Reservation>, firstIP: Addr) {
    && (forall i :: 0 <= i < |list| ==> Storable(list[i], firstIP))
    && (forall i, j :: 0 <= i < j < |list| ==> list[i].ip != list[j].ip)
  }

  lemma StorableKey(r: Reservation, firstIP: Addr)
    requires Storable(r, firstIP)
    ensures RecordKey(r, firstIP).Some? && KeyAddress(firstIP, RecordKey(r, firstIP).value) == r.ip
    ensures ToReservation(ToAllocation(r), r.ip) == r
  {
    DecimalRoundTrip(r.ip.value.value - firstIP.value);
  }

  lemma StorableKeys(list: seq<Reservation>, firstIP: Addr)
    requires StorableList(list, firstIP)
    ensures forall i :: 0 <= i < |list| ==> RecordKey(list[i], firstIP).Some?
    ensures forall i, j :: 0 <= i < j < |list| ==> RecordKey(list[i], firstIP) != RecordKey(list[j], firstIP)
    ensures MapOf(list, firstIP).Ok?
  {
    forall i | 0 <= i < |list| ensures RecordKey(list[i], firstIP).Some? {
      StorableKey(list[i], firstIP);
    }
    forall i, j | 0 <= i < j < |list| ensures RecordKey(list[i], firstIP) != RecordKey(list[j], firstIP) {
      StorableKey(list[i], firstIP);
      StorableKey(list[j], firstIP);
    }
    MapOfDistinct(list, firstIP);
  }

  /** Each record read back is the record that was stored under its key. */
  lemma ReadBack(list: seq<Reservation>, firstIP: Addr, order: seq<string>, i: nat, k: nat)
    requires StorableList(list, firstIP) && i < |list| && k < |order|
    requires MapOf(list, firstIP).Ok? && IsOrder(MapOf(list, firstIP).value, order)
    requires RecordKey(list[i], firstIP) == Some(order[k])
    ensures ListOf(MapOf(list, firstIP).value, firstIP, order)[k] == list[i]
  {
    StorableKeys(list, firstIP);
    MapOfDistinct(list, firstIP);
    StorableKey(list[i], firstIP);
  }

  /** Writing a list of storable records with distinct addresses and reading it back, in whatever
      order, gives the same records up to order. */
  lemma ListRoundTrip(list: seq<Reservation>, firstIP: Addr, order: seq<string>)
    requires StorableList(list, firstIP)
    requires MapOf(list, firstIP).Ok? ==> IsOrder(MapOf(list, firstIP).value, order)
    ensures MapOf(list, firstIP).Ok?
    ensures multiset(ListOf(MapOf(list, firstIP).value, firstIP, order)) == multiset(list)
  {
    StorableKeys(list, firstIP);
    MapOfDistinct(list, firstIP);
    var m := MapOf(list, firstIP).value;
    var back := ListOf(m, firstIP, order);
    forall i | 0 <= i < |list| ensures list[i] in back {
      StorableKey(list[i], firstIP);
      var k := OrderIndex(m, order, RecordKey(list[i], firstIP).value);
      ReadBack(list, firstIP, order, i, k);
      assert back[k] == list[i];
    }
    forall k | 0 <= k < |back| ensures back[k] in list && RecordKey(back[k], firstIP) == Some(order[k]) {
      assert order[k] in order;
      var i :| 0 <= i < |list| && RecordKey(list[i], firstIP) == Some(order[k]);
      ReadBack(list, firstIP, order, i, k);
    }
    assert Distinct(back);
    SameElements(list, back);
  }

  lemma {:induction false} DistinctMultiset<T>(s: seq<T>, x: T)
    requires Distinct(s)
    ensures multiset(s)[x] == if x in s then 1 else 0
  {
    if s != [] {
      var init := s[..|s| - 1];
      DistinctMultiset(init, x);
      assert s == init + [s[|s| - 1]];
    }
  }

  lemma SameElements<T>(s: seq<T>, t: seq<T>)
    requires Distinct(s) && Distinct(t)
    requires forall x :: x in s <==> x in t
    ensures multiset(s) == multiset(t)
  {
    forall x ensures multiset(s)[x] == multiset(t)[x] {
      DistinctMultiset(s, x);
      DistinctMultiset(t, x);
    }
  }

  // ---------------------------------------------------------------------
  // The operator's view of a key
  // ---------------------------------------------------------------------

  /** allocationKeyToIP of the operator: offsets count from the masked network address. */
  function AllocationKeyToIP(range: Cidr, key: string): Option<Addr> {
    match ParseOffset(key)
    case None => None
    case Some(n) => IPAddOffset(NetworkIP(Masked(range)), n)
  }

  /** Operator and allocator agree on every key exactly when the pool's range is written with its
      network address: the allocator counts from the address as written. */
  lemma KeyViewsAgreeExactly(range: Cidr)
    ensures (forall key: string :: AllocationKeyToIP(range, key) == KeyAddress(range.addr, key)) <==>
            range.addr == NetworkIP(Masked(range))
  {
    DecimalRoundTrip(0);
    if range.addr != NetworkIP(Masked(range)) {
      assert AllocationKeyToIP(range, Decimal(0)) != KeyAddress(range.addr, Decimal(0));
    }
  }

  /** With the range written as 10.0.0.1/24, the operator reads key 0 as 10.0.0.0 and the allocator as
      10.0.0.1. */
  lemma HostAddressMisread()
    ensures 0x0A00_0001 < Space(V4)
    ensures
      var range := RawCidr(RawAddr(V4, 0x0A00_0001), 24);
      && AllocationKeyToIP(range, "0") == Some(RawAddr(V4, 0x0A00_0000))
      && KeyAddress(range.addr, "0") == Some(RawAddr(V4, 0x0A00_0001))
  {
    hide Space;
    PowersOf2();
    var range := RawCidr(RawAddr(V4, 0x0A00_0001), 24);
    assert Masked(range).base == AlignDown(0x0A00_0001, 256) == 0x0A00_0000;
    assert "0" == Decimal(0);
    DecimalRoundTrip(0);
  }

  lemma PowersOf2()
    ensures Pow2(8) == 256 && Space(V4) == 0x1_0000_0000
  {
    Pow2Add(8, 8);
    Pow2Add(16, 16);
  }

  /** Two addresses share a key exactly when they mirror each other around the first address, which
      never happens to addresses at or above it. */
  lemma KeysCollideExactly(a: Addr, b: Addr, firstIP: Addr)
    requires a.family == b.family == firstIP.family && a != b
    ensures Decimal(IPGetOffset(a, firstIP).value) == Decimal(IPGetOffset(b, firstIP).value) <==>
            a.value + b.value == 2 * firstIP.value
  {
    DecimalInjective();
  }
}
