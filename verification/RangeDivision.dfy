/** Dividing a range into equal slices (Fast IPAM). */
module RangeDivision {
  import opened Prelude
  import opened Addressing

  datatype DivideError =
    | InvalidSliceSize
    | InvalidCidr
    | NotANetworkAddress
    | SliceWiderThanRange
    | SliceExceedsAddressLength
    | TooManySlices

  const MAX_INT: int := 0x7FFF_FFFF_FFFF_FFFF

  predicate Divides(p: Prefix, bits: int) {
    p.bits <= bits <= Bits(p.family)
  }

  function SliceCount(p: Prefix, bits: nat): nat
    requires Divides(p, bits)
  {
    Pow2(bits - p.bits)
  }

  function SliceSize(p: Prefix, bits: nat): nat
    requires Divides(p, bits)
  {
    Pow2(Bits(p.family) - bits)
  }

  lemma SlicesFillRange(p: Prefix, bits: nat)
    requires Divides(p, bits)
    ensures SliceCount(p, bits) * SliceSize(p, bits) == p.Size()
  {
    Pow2Add(bits - p.bits, Bits(p.family) - bits);
  }

  /** The i-th slice. */
  function SliceAt(p: Prefix, bits: nat, i: nat): (s: Prefix)
    requires Divides(p, bits) && i < SliceCount(p, bits)
    ensures s.bits == bits && s.family == p.family && s.Size() == SliceSize(p, bits)
    ensures s.base == p.base + i * SliceSize(p, bits) && s.base + s.Size() <= p.base + p.Size()
  {
    var size := SliceSize(p, bits);
    SlicesFillRange(p, bits);
    BlockFits(i, SliceCount(p, bits), size, p.Size());
    RawPrefix(p.family, p.base + i * size, bits)
  }

  /** All slices, in address order. */
  ghost function Division(p: Prefix, bits: nat): seq<Prefix>
    requires Divides(p, bits)
  {
    seq(SliceCount(p, bits), i requires 0 <= i < SliceCount(p, bits) => SliceAt(p, bits, i))
  }

  /** Slices are equally large and tile the range: every address of the range is in exactly one
      slice, and no slice has an address outside the range. */
  lemma DivisionPartitions(p: Prefix, bits: nat, a: Addr, i: nat)
    requires Divides(p, bits) && i < SliceCount(p, bits)
    ensures |Division(p, bits)| == Pow2(bits - p.bits)
    ensures Contains(Division(p, bits)[i], a) <==>
            Contains(p, a) && i == (a.value - p.base) / SliceSize(p, bits)
  {
    var slice := SliceAt(p, bits, i);
    if Contains(p, a) {
      BlockIndex(a.value - p.base, i, SliceSize(p, bits));
    }
  }

  lemma DivisionCovers(p: Prefix, bits: nat, a: Addr)
    requires Divides(p, bits) && Contains(p, a)
    ensures exists i :: 0 <= i < |Division(p, bits)| && Contains(Division(p, bits)[i], a)
  {
    SlicesFillRange(p, bits);
    BlockCount(a.value - p.base, SliceCount(p, bits), SliceSize(p, bits), p.Size());
    var q := (a.value - p.base) / SliceSize(p, bits);
    DivisionPartitions(p, bits, a, q);
    assert Contains(Division(p, bits)[q], a);
  }

  lemma DivisionDisjoint(p: Prefix, bits: nat, i: nat, j: nat, a: Addr)
    requires Divides(p, bits) && i < SliceCount(p, bits) && j < SliceCount(p, bits)
    requires Contains(Division(p, bits)[i], a) && Contains(Division(p, bits)[j], a)
    ensures i == j
  {
    DivisionPartitions(p, bits, a, i);
    DivisionPartitions(p, bits, a, j);
  }

  lemma DivisionAligned(p: Prefix, bits: nat, i: nat)
    requires Divides(p, bits) && i < SliceCount(p, bits) && Aligned(p)
    ensures Aligned(SliceAt(p, bits, i))
  {
    SlicesFillRange(p, bits);
    SubBlockAligned(p.base, i, SliceCount(p, bits), SliceSize(p, bits), p.Size());
  }

  lemma SubBlockAligned(base: nat, i: nat, n: nat, size: nat, total: nat)
    requires size > 0 && n * size == total && total > 0 && base % total == 0
    ensures (base + i * size) % size == 0
  {
    var k := base / total;
    assert base + i * size == (k * n + i) * size;
    MulMod(k * n + i, size);
  }

  /** Subdivide of the network library: fills the result front to back, each slice starting one
      past the last address of the previous one. Past the end of the family there is no next address. */
  method Subdivide(p: Prefix, bits: int, limit: int) returns (r: Result<seq<Prefix>, DivideError>)
    ensures r.Ok? <==> Divides(p, bits) && limit > 0 && Pow2(bits - p.bits) <= limit
    ensures r.Ok? ==> r.value == Division(p, bits)
  {
    hide Pow2, Space;
    if !Divides(p, bits) {
      return Err(SliceWiderThanRange);
    }
    var count := Pow2(bits - p.bits);
    if limit <= 0 || count > limit {
      return Err(TooManySlices);
    }
    var result := new Prefix[count];
    var addr := Some(NetworkIP(p));
    var size := SliceSize(p, bits);
    for i := 0 to count
      invariant forall k :: 0 <= k < i ==> result[k] == SliceAt(p, bits, k)
      invariant i < count ==> addr == Some(RawAddr(p.family, p.base + i * size)) && p.base + i * size < Space(p.family)
    {
      assert SliceAt(p, bits, i).base == p.base + i * size;
      result[i] := RawPrefix(p.family, addr.value.value, bits);
      var last := SubnetBroadcastIP(result[i]);
      addr := if last.value + 1 < Space(last.family) then Some(RawAddr(last.family, last.value + 1)) else None;
      assert p.base + i * size + size == p.base + (i + 1) * size;
      if i + 1 < count {
        assert SliceAt(p, bits, i + 1).base == p.base + (i + 1) * size;
      }
    }
    return Ok(result[..]);
  }

  /** divideRangeBySize on parsed input: None stands for text that does not parse. A nonpositive
      maxSubnets means no limit other than the size of a Go slice. */
  method DivideRangeBySize(input: Option<Cidr>, sliceSize: Option<int>, maxSubnets: int)
    returns (r: Result<seq<Prefix>, DivideError>)
    ensures r.Ok? <==>
            && input.Some? && sliceSize.Some?
            && NetworkIP(Masked(input.value)) == input.value.addr
            && Divides(Masked(input.value), sliceSize.value)
            && Pow2(sliceSize.value - input.value.bits) <= (if maxSubnets > 0 then maxSubnets else MAX_INT)
            && Pow2(sliceSize.value - input.value.bits) <= MAX_INT
    ensures r.Ok? ==> Aligned(Masked(input.value)) && r.value == Division(Masked(input.value), sliceSize.value)
  {
    if sliceSize.None? { return Err(InvalidSliceSize); }
    if input.None? { return Err(InvalidCidr); }
    var p := Masked(input.value);
    if input.value.addr != NetworkIP(p) { return Err(NotANetworkAddress); }
    if p.bits > sliceSize.value { return Err(SliceWiderThanRange); }
    if sliceSize.value > Bits(p.family) { return Err(SliceExceedsAddressLength); }
    if maxSubnets > 0 && Pow2(sliceSize.value - p.bits) > maxSubnets { return Err(TooManySlices); }
    var limit := if maxSubnets > 0 && maxSubnets < MAX_INT then maxSubnets else MAX_INT;
    r := Subdivide(p, sliceSize.value, limit);
  }
}
