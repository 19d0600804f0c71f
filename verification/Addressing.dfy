/** IP addresses as (family, number) and the arithmetic of pkg/iphelpers. */
module Addressing {
  import opened Prelude

  // ---------------------------------------------------------------------
  // Powers of two
  // ---------------------------------------------------------------------

  function Pow2(n: nat): (p: nat)
    ensures p > 0
  {
    if n == 0 then 1 else 2 * Pow2(n - 1)
  }

  lemma {:induction false} Pow2Add(a: nat, b: nat)
    ensures Pow2(a + b) == Pow2(a) * Pow2(b)
  {
    if a > 0 {
      Pow2Add(a - 1, b);
      assert Pow2(a + b) == 2 * Pow2(a + b - 1);
      assert a + b - 1 == (a - 1) + b;
    }
  }

  // ---------------------------------------------------------------------
  // Addresses and prefixes
  // ---------------------------------------------------------------------

  datatype Family = V4 | V6

  function Bits(f: Family): nat {
    match f
    case V4 => 32
    case V6 => 128
  }

  function Space(f: Family): (s: nat)
    ensures s > 0
  {
    Pow2(Bits(f))
  }

  datatype RawAddr = RawAddr(family: Family, value: nat)

  /** A valid address: its number fits the family. */
  type Addr = a: RawAddr | a.value < Space(a.family) witness RawAddr(V4, 0)

  datatype RawPrefix = RawPrefix(family: Family, base: nat, bits: nat) {
    function HostBits(): nat
      requires bits <= Bits(family)
    {
      Bits(family) - bits
    }

    function Size(): (s: nat)
      requires bits <= Bits(family)
      ensures s > 0
    {
      Pow2(HostBits())
    }
  }

  /** The block of 2^(host bits) addresses from the base on, inside its family. */
  type Prefix = p: RawPrefix | p.bits <= Bits(p.family) && p.base + p.Size() <= Space(p.family)
    witness RawPrefix(V4, 0, 32)

  /** The base has no host bits set. Every parsed or divided prefix is aligned; no result about
      ranges needs it. */
  predicate Aligned(p: Prefix) {
    p.base % p.Size() == 0
  }

  predicate Contains(p: Prefix, a: Addr) {
    a.family == p.family && p.base <= a.value < p.base + p.Size()
  }

  function NetworkIP(p: Prefix): Addr {
    RawAddr(p.family, p.base)
  }

  function SubnetBroadcastIP(p: Prefix): Addr {
    RawAddr(p.family, p.base + p.Size() - 1)
  }

  /** A CIDR as written: the address may have host bits set. */
  datatype RawCidr = RawCidr(addr: Addr, bits: nat)
  type Cidr = c: RawCidr | c.bits <= Bits(c.addr.family) witness RawCidr(RawAddr(V4, 0), 32)

  /** The multiple of size at or below v. */
  function AlignDown(v: nat, size: nat): (b: nat)
    requires size > 0
    ensures b <= v < b + size && b % size == 0
  {
    MulMod(v / size, size);
    v / size * size
  }

  lemma AlignDownFits(v: nat, size: nat, k: nat)
    requires size > 0 && v < k * size
    ensures AlignDown(v, size) + size <= k * size
  {
    var q := v / size;
    if q >= k { MulLe(k, q, size); }
    MulLe(q + 1, k, size);
  }

  lemma MulMod(q: int, d: int)
    requires d > 0
    ensures (q * d) % d == 0
  {
    DivModUnique(q * d, q, 0, d);
  }

  /** Quotient and remainder are determined by q * d + r. */
  lemma DivModUnique(n: int, q: int, r: int, d: int)
    requires d > 0 && 0 <= r < d && n == q * d + r
    ensures n / d == q && n % d == r
  {
    var q', r' := n / d, n % d;
    assert q' * d + r' == q * d + r;
    if q' > q {
      MulLe(q + 1, q', d);
    } else if q' < q {
      MulLe(q' + 1, q, d);
    }
  }

  lemma MulLe(a: int, b: int, c: int)
    requires a <= b && c >= 0
    ensures a * c <= b * c
  {
  }

  /** Block i of equally large blocks ends within their total. */
  lemma BlockFits(i: nat, n: nat, size: nat, total: nat)
    requires i < n && n * size == total
    ensures 0 <= i * size && i * size + size <= total
  {
    MulLe(i + 1, n, size);
  }

  /** A number lies in block i exactly when i is its quotient. */
  lemma BlockIndex(d: nat, i: nat, size: nat)
    requires size > 0
    ensures i * size <= d < i * size + size <==> d / size == i
  {
    if i * size <= d < i * size + size {
      DivModUnique(d, i, d - i * size, size);
    }
  }

  lemma BlockCount(d: nat, n: nat, size: nat, total: nat)
    requires size > 0 && n * size == total && d < total
    ensures 0 <= d / size < n
  {
  }

  /** netip.Prefix.Masked: clear the host bits. */
  function Masked(c: Cidr): (p: Prefix)
    ensures p.family == c.addr.family && p.bits == c.bits && Contains(p, c.addr) && Aligned(p)
  {
    var f := c.addr.family;
    var size := Pow2(Bits(f) - c.bits);
    Pow2Add(c.bits, Bits(f) - c.bits);
    AlignDownFits(c.addr.value, size, Pow2(c.bits));
    RawPrefix(f, AlignDown(c.addr.value, size), c.bits)
  }

  // ---------------------------------------------------------------------
  // Order, successor, predecessor
  // ---------------------------------------------------------------------

  /** netip order: IPv4 before IPv6, then by number. */
  function CompareIPs(x: Addr, y: Addr): int {
    if x.family != y.family then (if x.family == V4 then -1 else 1)
    else if x.value < y.value then -1
    else if x.value == y.value then 0
    else 1
  }

  predicate IsIPInRange(ip: Addr, start: Addr, end: Addr) {
    CompareIPs(ip, start) >= 0 && CompareIPs(ip, end) <= 0
  }

  function IncIP(a: Addr): Addr {
    if a.value + 1 < Space(a.family) then RawAddr(a.family, a.value + 1) else a
  }

  function DecIP(a: Addr): Addr {
    if a.value > 0 then RawAddr(a.family, a.value - 1) else a
  }

  // ---------------------------------------------------------------------
  // Usable addresses
  // ---------------------------------------------------------------------

  function FirstUsableIP(p: Prefix): Addr {
    if p.HostBits() <= 1 then NetworkIP(p) else IncIP(NetworkIP(p))
  }

  function LastUsableIP(p: Prefix): Addr {
    if p.HostBits() == 0 then NetworkIP(p)
    else if p.HostBits() == 1 then SubnetBroadcastIP(p)
    else DecIP(SubnetBroadcastIP(p))
  }

  /** A host address of the block: in it, and neither its network nor its broadcast address
      unless the block is a point-to-point link or a single host (section 2.1 of RFC 3021). */
  ghost predicate Usable(p: Prefix, a: Addr) {
    Contains(p, a) && (p.HostBits() >= 2 ==> a != NetworkIP(p) && a != SubnetBroadcastIP(p))
  }

  lemma SmallPowers(h: nat)
    ensures h == 0 ==> Pow2(h) == 1
    ensures h == 1 ==> Pow2(h) == 2
    ensures h >= 2 ==> Pow2(h) >= 4
  {
  }

  lemma SizeByHostBits(p: Prefix)
    ensures p.HostBits() == 0 ==> p.Size() == 1
    ensures p.HostBits() == 1 ==> p.Size() == 2
    ensures p.HostBits() >= 2 ==> p.Size() >= 4
  {
    hide Pow2, Space;
    SmallPowers(p.HostBits());
  }

  /** The two ends bound exactly the usable addresses, and there is at least one. */
  lemma UsableBetweenEnds(p: Prefix, a: Addr)
    ensures Usable(p, a) <==> IsIPInRange(a, FirstUsableIP(p), LastUsableIP(p))
    ensures FirstUsableIP(p).family == LastUsableIP(p).family == p.family
    ensures p.base <= FirstUsableIP(p).value <= LastUsableIP(p).value < p.base + p.Size()
  {
    hide Space, Pow2;
    SizeByHostBits(p);
  }

  /** GetIPRange: bounds outside the usable range are ignored; an end below the start is ignored. */
  function GetIPRange(p: Prefix, rangeStart: Option<Addr>, rangeEnd: Option<Addr>): (Addr, Addr) {
    var first0, last0 := FirstUsableIP(p), LastUsableIP(p);
    var first :=
      if rangeStart.Some? && IsIPInRange(rangeStart.value, first0, last0) then rangeStart.value else first0;
    var last :=
      if rangeEnd.Some? && IsIPInRange(rangeEnd.value, first, last0) then rangeEnd.value else last0;
    (first, last)
  }

  const MAX_INT32: nat := 0x7FFF_FFFF

  function CountUsableIPs(p: Prefix): nat {
    if p.HostBits() == 0 then 1
    else if p.HostBits() == 1 then 2
    else
      match IPGetOffset(FirstUsableIP(p), LastUsableIP(p))
      case None => 0
      case Some(offset) => if offset + 1 > MAX_INT32 then MAX_INT32 else offset + 1
  }

  ghost function UsableSet(p: Prefix): set<Addr> {
    set v | p.base <= v < p.base + p.Size() && Usable(p, RawAddr(p.family, v)) :: RawAddr(p.family, v)
  }

  /** All addresses of one family from lo to hi. */
  ghost function Interval(f: Family, lo: nat, hi: int): set<Addr>
    requires hi < Space(f)
  {
    set v | lo <= v <= hi :: RawAddr(f, v)
  }

  lemma InInterval(f: Family, lo: nat, hi: int, a: Addr)
    requires hi < Space(f)
    ensures a in Interval(f, lo, hi) <==> a.family == f && lo <= a.value <= hi
  {
    hide Space, Pow2;
    if a.family == f && lo <= a.value <= hi {
      assert a == RawAddr(f, a.value);
    }
  }

  lemma {:induction false} IntervalSize(f: Family, lo: nat, hi: int)
    requires lo <= hi + 1 <= Space(f)
    ensures |Interval(f, lo, hi)| == hi + 1 - lo
    decreases hi + 1 - lo
  {
    hide Space, Pow2, Interval;
    forall a: Addr ensures a in Interval(f, lo, hi) <==> a.family == f && lo <= a.value <= hi { InInterval(f, lo, hi, a); }
    if lo <= hi {
      IntervalSize(f, lo, hi - 1);
      forall a: Addr ensures a in Interval(f, lo, hi - 1) <==> a.family == f && lo <= a.value <= hi - 1 { InInterval(f, lo, hi - 1, a); }
      var last: Addr := RawAddr(f, hi);
      assert Interval(f, lo, hi) == Interval(f, lo, hi - 1) + {last};
    } else {
      assert Interval(f, lo, hi) == {};
    }
  }

  lemma InUsableSet(p: Prefix, a: Addr)
    ensures a in UsableSet(p) <==> Usable(p, a)
  {
    hide Space, Pow2;
    if Usable(p, a) {
      assert a == RawAddr(p.family, a.value);
    }
  }

  /** For every prefix length of both families the count is the number of usable addresses,
      clamped to the largest int32. */
  lemma CountIsUsableSize(p: Prefix)
    ensures CountUsableIPs(p) == if |UsableSet(p)| <= MAX_INT32 then |UsableSet(p)| else MAX_INT32
  {
    hide Space, Pow2, Usable, Interval;
    var lo, hi := FirstUsableIP(p).value, LastUsableIP(p).value;
    SizeByHostBits(p);
    UsableBetweenEnds(p, NetworkIP(p));
    forall a: Addr ensures a in UsableSet(p) <==> a in Interval(p.family, lo, hi) {
      UsableBetweenEnds(p, a);
      InUsableSet(p, a);
      InInterval(p.family, lo, hi, a);
    }
    assert UsableSet(p) == Interval(p.family, lo, hi);
    IntervalSize(p.family, lo, hi);
  }

  // ---------------------------------------------------------------------
  // Offsets
  // ---------------------------------------------------------------------

  /** The absolute difference; None across families. */
  function IPGetOffset(x: Addr, y: Addr): Option<nat> {
    if x.family != y.family then None
    else Some(if x.value >= y.value then x.value - y.value else y.value - x.value)
  }

  /** ip + offset; None when the offset is negative or leaves the family. */
  function IPAddOffset(ip: Addr, offset: int): Option<Addr> {
    if offset < 0 || ip.value + offset >= Space(ip.family) then None
    else Some(RawAddr(ip.family, ip.value + offset))
  }
}
