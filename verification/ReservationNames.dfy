/** Names of the cluster-wide reservation objects: NormalizeIP never gives one name to two different
    (address, network) pairs. */
module ReservationNames {
  import opened Prelude
  import opened Addressing
  import opened Codec

  const UNNAMED_NETWORK := ""

  /** The first number of the block ::ffff:0:0/96, whose members are IPv4 addresses written in 16 bytes. */
  const MAPPED_BASE: nat := 0xffff * 0x1_0000_0000

  /** To4: an IPv4 address in either length, as an IPv4 address. */
  function Unmapped(a: RawAddr): RawAddr {
    if a.family == V6 && MAPPED_BASE <= a.value < MAPPED_BASE + 0x1_0000_0000
    then RawAddr(V4, a.value - MAPPED_BASE) else a
  }

  // ---------------------------------------------------------------------
  // Text forms
  // ---------------------------------------------------------------------

  /** The low `n` bytes in dotted decimal. */
  function Dotted(v: nat, n: nat): string
    requires n > 0
  {
    if n == 1 then Decimal(v % 256) else Dotted(v / 256, n - 1) + "." + Decimal(v % 256)
  }

  function HexDigit(d: nat): (c: char)
    requires d < 16
    ensures c != '-' && c != '.'
  {
    "0123456789abcdef"[d]
  }

  /** The low `k` hexadecimal digits. */
  function Hex(w: nat, k: nat): (s: string)
    ensures |s| == k && '-' !in s && '.' !in s
  {
    if k == 0 then "" else Hex(w / 16, k - 1) + [HexDigit(w % 16)]
  }

  /** The low `n` groups in hexadecimal, joined by dashes. */
  function Groups(v: nat, n: nat): (s: string)
    requires n > 0
    ensures |s| == 5 * n - 1
  {
    if n == 1 then Hex(v % 65536, 4) else Groups(v / 65536, n - 1) + "-" + Hex(v % 65536, 4)
  }

  function AddressText(a: RawAddr): string {
    match a.family
    case V4 => Dotted(a.value, 4)
    case V6 => Groups(a.value, 8)
  }

  /** The name of the reservation of an address in a network. */
  function ReservationName(a: RawAddr, network: string): string {
    if network == UNNAMED_NETWORK then AddressText(Unmapped(a)) else network + "-" + AddressText(Unmapped(a))
  }

  // ---------------------------------------------------------------------
  // The code
  // ---------------------------------------------------------------------

  /** The number without its low `k` groups. */
  function Shifted(v: nat, k: nat): nat {
    if k == 0 then v else Shifted(v / 65536, k - 1)
  }

  method Join(groups: array<string>) returns (s: string)
    requires groups.Length > 0
    ensures s == Joined(groups[..])
  {
    s := groups[0];
    assert groups[..1] == [groups[0]];
    for i := 1 to groups.Length
      invariant s == Joined(groups[..i])
    {
      assert groups[..i + 1][..i] == groups[..i];
      s := s + "-" + groups[i];
    }
    assert groups[..groups.Length] == groups[..];
  }

  function Joined(groups: seq<string>): string
    requires |groups| > 0
  {
    if |groups| == 1 then groups[0] else Joined(groups[..|groups| - 1]) + "-" + groups[|groups| - 1]
  }

  lemma {:induction false} JoinedGroups(groups: seq<string>, v: nat)
    requires |groups| > 0
    requires forall i :: 0 <= i < |groups| ==> groups[i] == Hex(Shifted(v, |groups| - 1 - i) % 65536, 4)
    ensures Joined(groups) == Groups(v, |groups|)
  {
    hide Hex;
    var last := |groups| - 1;
    assert groups[last] == Hex(Shifted(v, 0) % 65536, 4);
    if last > 0 {
      forall i | 0 <= i < last
        ensures groups[..last][i] == Hex(Shifted(v / 65536, last - 1 - i) % 65536, 4)
      {
        assert Shifted(v, last - i) == Shifted(v / 65536, last - i - 1);
      }
      JoinedGroups(groups[..last], v / 65536);
    }
  }

  /** NormalizeIP, for addresses of 4 or 16 bytes. */
  method NormalizeIP(ip: RawAddr, network: string) returns (name: string)
    ensures name == ReservationName(ip, network)
  {
    hide Dotted, Groups, Decimal, Hex, Shifted;
    var ip4 := Unmapped(ip);
    if ip4.family == V4 {
      name := Dotted(ip4.value, 4);
    } else {
      var groups := new string[8];
      for i := 0 to 8
        invariant forall j :: 0 <= j < i ==> groups[j] == Hex(Shifted(ip.value, 7 - j) % 65536, 4)
      {
        groups[i] := Hex(Shifted(ip.value, 7 - i) % 65536, 4);
      }
      name := Join(groups);
      JoinedGroups(groups[..], ip.value);
    }
    if network != UNNAMED_NETWORK {
      name := network + "-" + name;
    }
  }

  // ---------------------------------------------------------------------
  // Injectivity
  // ---------------------------------------------------------------------

  lemma LongerTailHasSeparator(s: string, t: string, s': string, t': string, c: char)
    requires s + [c] + t == s' + [c] + t' && |t| < |t'|
    ensures c in t'
  {
    var whole := s + [c] + t;
    assert whole[|s|] == c && whole[|s|] == (s' + [c] + t')[|s|] == t'[|s| - |s'| - 1];
  }

  /** What follows the last separator, and what precedes it, are determined by the whole. */
  lemma LastSplit(s: string, t: string, s': string, t': string, c: char)
    requires c !in t && c !in t' && s + [c] + t == s' + [c] + t'
    ensures s == s' && t == t'
  {
    if |t| < |t'| { LongerTailHasSeparator(s, t, s', t', c); }
    if |t'| < |t| { LongerTailHasSeparator(s', t', s, t, c); }
    var whole := s + [c] + t;
    assert s == whole[..|s|] && t == whole[|s| + 1..];
    assert s' == whole[..|s'|] && t' == whole[|s'| + 1..];
  }

  lemma PowersOfTwo()
    ensures Pow2(4) == 16 && Pow2(8) == 256 && Pow2(16) == 65536 && Pow2(32) == 0x1_0000_0000
  {
    assert Pow2(8) == 256;
    Pow2Add(8, 8);
    Pow2Add(16, 16);
  }

  lemma DecimalHasNoSeparator(n: nat)
    ensures '.' !in Decimal(n) && '-' !in Decimal(n)
  {
  }

  lemma {:induction false} DottedInjective(v: nat, w: nat, n: nat)
    requires n > 0 && v < Pow2(8 * n) && w < Pow2(8 * n) && Dotted(v, n) == Dotted(w, n)
    ensures v == w
  {
    hide Pow2, Decimal;
    PowersOfTwo();
    DecimalInjective();
    if n > 1 {
      DecimalHasNoSeparator(v % 256);
      DecimalHasNoSeparator(w % 256);
      LastSplit(Dotted(v / 256, n - 1), Decimal(v % 256), Dotted(w / 256, n - 1), Decimal(w % 256), '.');
      QuotientFits(v, 8, 8 * (n - 1), 256);
      QuotientFits(w, 8, 8 * (n - 1), 256);
      DottedInjective(v / 256, w / 256, n - 1);
    }
  }

  lemma QuotientFits(v: nat, a: nat, b: nat, base: nat)
    requires base == Pow2(a) && v < Pow2(a + b)
    ensures v / base < Pow2(b)
  {
    Pow2Add(a, b);
    if v / base >= Pow2(b) {
      MulLe(Pow2(b), v / base, base);
    }
  }

  lemma {:induction false} HexInjective(v: nat, w: nat, k: nat)
    requires v < Pow2(4 * k) && w < Pow2(4 * k) && Hex(v, k) == Hex(w, k)
    ensures v == w
  {
    if k > 0 {
      hide Pow2, HexDigit;
      PowersOfTwo();
      QuotientFits(v, 4, 4 * (k - 1), 16);
      QuotientFits(w, 4, 4 * (k - 1), 16);
      assert Hex(v, k)[..k - 1] == Hex(v / 16, k - 1) && Hex(w, k)[..k - 1] == Hex(w / 16, k - 1);
      HexInjective(v / 16, w / 16, k - 1);
      HexDigitInjective(v % 16, w % 16);
    }
  }

  lemma HexDigitInjective(d: nat, e: nat)
    requires d < 16 && e < 16 && HexDigit(d) == HexDigit(e)
    ensures d == e
  {
  }

  lemma {:induction false} GroupsInjective(v: nat, w: nat, n: nat)
    requires n > 0 && v < Pow2(16 * n) && w < Pow2(16 * n) && Groups(v, n) == Groups(w, n)
    ensures v == w
  {
    hide Pow2, Hex;
    PowersOfTwo();
    if n > 1 {
      LastSplit(Groups(v / 65536, n - 1), Hex(v % 65536, 4), Groups(w / 65536, n - 1), Hex(w % 65536, 4), '-');
      QuotientFits(v, 16, 16 * (n - 1), 65536);
      QuotientFits(w, 16, 16 * (n - 1), 65536);
      GroupsInjective(v / 65536, w / 65536, n - 1);
    }
    HexInjective(v % 65536, w % 65536, 4);
  }

  /** An IPv4 text has no dash and a dot; an IPv6 text has 39 characters and no dot. */
  lemma TextShape(a: RawAddr)
    ensures a.family == V4 ==> '-' !in AddressText(a) && '.' in AddressText(a)
    ensures a.family == V6 ==> |AddressText(a)| == 39 && '.' !in AddressText(a)
  {
    if a.family == V4 {
      DottedShape(a.value, 4);
    } else {
      GroupsShape(a.value, 8);
    }
  }

  lemma {:induction false} DottedShape(v: nat, n: nat)
    requires n > 0
    ensures '-' !in Dotted(v, n) && (n > 1 ==> '.' in Dotted(v, n))
  {
    DecimalHasNoSeparator(v % 256);
    if n > 1 {
      DottedShape(v / 256, n - 1);
      assert Dotted(v, n)[|Dotted(v / 256, n - 1)|] == '.';
    }
  }

  lemma {:induction false} GroupsShape(v: nat, n: nat)
    requires n > 0
    ensures '.' !in Groups(v, n)
  {
    if n > 1 { GroupsShape(v / 65536, n - 1); }
  }

  lemma TextInjective(a: Addr, b: Addr)
    requires AddressText(a) == AddressText(b)
    ensures a == b
  {
    TextShape(a);
    TextShape(b);
    if a.family == V4 && b.family == V4 {
      DottedInjective(a.value, b.value, 4);
    } else if a.family == V6 && b.family == V6 {
      GroupsInjective(a.value, b.value, 8);
    }
  }

  /** A name that ends in an IPv6 text is no network followed by an IPv4 text. */
  lemma FamiliesDiffer(network: string, a: RawAddr, prefix: string, b: RawAddr)
    requires a.family == V4 && b.family == V6
    ensures network + "-" + AddressText(a) != prefix + AddressText(b)
  {
    TextShape(a);
    var t, head, tail := AddressText(a), Groups(b.value / 65536, 7), Hex(b.value % 65536, 4);
    assert prefix + AddressText(b) == (prefix + head) + "-" + tail;
    if network + "-" + t == (prefix + head) + "-" + tail {
      LastSplit(network, t, prefix + head, tail, '-');
      assert false;
    }
  }

  /** A named network's reservation is never called like one of the unnamed network. */
  lemma NamedIsNotUnnamed(network: string, a: RawAddr, b: RawAddr)
    requires network != UNNAMED_NETWORK
    ensures network + "-" + AddressText(a) != AddressText(b)
  {
    TextShape(a);
    TextShape(b);
    assert (network + "-" + AddressText(a))[|network|] == '-';
    if a.family == V4 && b.family == V6 {
      FamiliesDiffer(network, a, "", b);
      assert "" + AddressText(b) == AddressText(b);
    }
  }

  /** The address text at the end of a name, and the network before it, are determined by the name. */
  lemma NameSplits(n: string, a: RawAddr, m: string, b: RawAddr)
    requires n + "-" + AddressText(a) == m + "-" + AddressText(b)
    ensures n == m && AddressText(a) == AddressText(b)
  {
    TextShape(a);
    TextShape(b);
    if a.family != b.family {
      if a.family == V4 { FamiliesDiffer(n, a, m + "-", b); } else { FamiliesDiffer(m, b, n + "-", a); }
      assert false;
    }
    if a.family == V4 {
      LastSplit(n, AddressText(a), m, AddressText(b), '-');
    } else {
      var name := n + "-" + AddressText(a);
      assert n == name[..|n|] && m == name[..|m|];
      assert AddressText(a) == name[|n| + 1..] && AddressText(b) == name[|m| + 1..];
    }
  }

  lemma UnmappedIsValid(a: Addr)
    ensures Unmapped(a).value < Space(Unmapped(a).family)
  {
    PowersOfTwo();
  }

  /** Two reservations have the same name exactly when they are for the same address, whichever way it
      is written, and for the same network. */
  lemma NamesIdentify(a: Addr, n: string, b: Addr, m: string)
    ensures ReservationName(a, n) == ReservationName(b, m) <==> Unmapped(a) == Unmapped(b) && n == m
  {
    UnmappedIsValid(a);
    UnmappedIsValid(b);
    var a', b' := Unmapped(a), Unmapped(b);
    if ReservationName(a, n) == ReservationName(b, m) {
      if n == UNNAMED_NETWORK != m {
        NamedIsNotUnnamed(m, b', a');
        assert false;
      } else if m == UNNAMED_NETWORK != n {
        NamedIsNotUnnamed(n, a', b');
        assert false;
      } else if n != UNNAMED_NETWORK {
        NameSplits(n, a', m, b');
      }
      TextInjective(a', b');
    }
  }

  // ---------------------------------------------------------------------
  // Reading an address
  // ---------------------------------------------------------------------

  function IndexOf(s: string, c: char): (i: nat)
    ensures i <= |s| && c !in s[..i] && (i < |s| ==> s[i] == c)
  {
    if s == [] || s[0] == c then 0
    else
      var i := IndexOf(s[1..], c);
      assert s[..i + 1] == [s[0]] + s[1..][..i];
      i + 1
  }

  /** The parts between the separators. */
  function Split(s: string, c: char): (parts: seq<string>)
    ensures |parts| > 0
  {
    var i := IndexOf(s, c);
    if i == |s| then [s] else [s[..i]] + Split(s[i + 1..], c)
  }

  /** A decimal number up to 255 as it is written: digits without a leading zero. */
  function ReadOctet(s: string): Option<nat> {
    match ParseOffset(s)
    case None => None
    case Some(n) => if n < 256 && '0' <= s[0] <= '9' && (s[0] == '0' ==> |s| == 1) then Some(n) else None
  }

  function ReadHexDigit(c: char): Option<nat> {
    if '0' <= c <= '9' then Some((c - '0') as nat)
    else if 'a' <= c <= 'f' then Some((c - 'a') as nat + 10)
    else None
  }

  /** Four lower-case hexadecimal digits, the first one highest. */
  function ReadGroup(s: string): Option<nat> {
    if |s| != 4 then None
    else
      match (ReadHexDigit(s[0]), ReadHexDigit(s[1]), ReadHexDigit(s[2]), ReadHexDigit(s[3]))
      case (Some(a), Some(b), Some(c), Some(d)) => Some(a * 4096 + b * 256 + c * 16 + d)
      case _ => None
  }

  /** The number that the parts give, the first one highest, if each of them can be read. */
  function Weigh(parts: seq<string>, read: string -> Option<nat>, base: nat): Option<nat> {
    if parts == [] then Some(0)
    else
      match (Weigh(parts[..|parts| - 1], read, base), read(parts[|parts| - 1]))
      case (Some(high), Some(low)) => Some(high * base + low)
      case _ => None
  }

  /** Four octets between dots, or eight groups between dashes. */
  function ReadAddress(s: string): Option<RawAddr> {
    var octets, groups := Split(s, '.'), Split(s, '-');
    if |octets| == 4 && Weigh(octets, ReadOctet, 256).Some? then Some(RawAddr(V4, Weigh(octets, ReadOctet, 256).value))
    else if |groups| == 8 && Weigh(groups, ReadGroup, 65536).Some? then Some(RawAddr(V6, Weigh(groups, ReadGroup, 65536).value))
    else None
  }

  lemma IndexOfExactly(s: string, t: string, c: char)
    requires c !in s
    ensures IndexOf(s, c) == |s| && IndexOf(s + [c] + t, c) == |s|
  {
    var whole := s + [c] + t;
    var i, j := IndexOf(s, c), IndexOf(whole, c);
    assert whole[|s|] == c && forall k :: 0 <= k < |s| ==> whole[k] == s[k];
    assert forall n :: |s| < n <= |whole| ==> whole[..n][|s|] == c;
  }

  /** The last part is what follows the last separator. */
  lemma {:induction false} SplitLast(s: string, t: string, c: char)
    requires c !in t
    ensures Split(t, c) == [t] && Split(s + [c] + t, c) == Split(s, c) + [t]
  {
    hide IndexOf, Split;
    NoSeparatorNoSplit(t, c);
    var i := IndexOf(s, c);
    if i == |s| {
      assert s[..i] == s;
      NoSeparatorNoSplit(s, c);
      SplitFirst(s, t, c);
    } else {
      var head, rest := s[..i], s[i + 1..];
      assert s == head + [c] + rest && s + [c] + t == head + [c] + (rest + [c] + t);
      SplitFirst(head, rest, c);
      SplitFirst(head, rest + [c] + t, c);
      SplitLast(rest, t, c);
    }
  }

  /** The first part is what precedes the first separator. */
  lemma SplitFirst(s: string, t: string, c: char)
    requires c !in s
    ensures Split(s + [c] + t, c) == [s] + Split(t, c)
  {
    hide IndexOf;
    IndexOfExactly(s, t, c);
    var whole := s + [c] + t;
    assert whole[..|s|] == s && whole[|s| + 1..] == t;
  }

  lemma ReadsOctet(n: nat)
    requires n < 256
    ensures ReadOctet(Decimal(n)) == Some(n)
  {
    DecimalRoundTrip(n);
    LeadingDigit(n);
  }

  lemma {:induction false} LeadingDigit(n: nat)
    ensures '0' <= Decimal(n)[0] <= '9' && (Decimal(n)[0] == '0' ==> |Decimal(n)| == 1)
    ensures Decimal(n)[0] == '0' ==> n == 0
  {
    if n >= 10 { LeadingDigit(n / 10); }
  }

  lemma {:induction false} DottedReads(v: nat, n: nat)
    requires n > 0 && v < Pow2(8 * n)
    ensures |Split(Dotted(v, n), '.')| == n && Weigh(Split(Dotted(v, n), '.'), ReadOctet, 256) == Some(v)
  {
    hide Pow2, Decimal, Split, ReadOctet;
    PowersOfTwo();
    DecimalHasNoSeparator(v % 256);
    ReadsOctet(v % 256);
    var last := Decimal(v % 256);
    if n == 1 {
      SplitLast("", last, '.');
      assert [last][..0] == [];
    } else {
      QuotientFits(v, 8, 8 * (n - 1), 256);
      DottedReads(v / 256, n - 1);
      SplitLast(Dotted(v / 256, n - 1), last, '.');
      var parts := Split(Dotted(v / 256, n - 1), '.');
      assert (parts + [last])[..n - 1] == parts;
    }
  }

  lemma ReadsHexDigit(d: nat)
    requires d < 16
    ensures ReadHexDigit(HexDigit(d)) == Some(d)
  {
  }

  lemma ReadsGroup(w: nat)
    requires w < 65536
    ensures ReadGroup(Hex(w, 4)) == Some(w)
  {
    hide HexDigit, Hex, ReadHexDigit;
    var q1 := w / 16;
    var q2 := q1 / 16;
    var q3 := q2 / 16;
    FourDigits(w, q1, q2, q3);
    ReadsHexDigit(q3);
    ReadsHexDigit(q2 % 16);
    ReadsHexDigit(q1 % 16);
    ReadsHexDigit(w % 16);
  }

  lemma FourDigits(w: nat, q1: nat, q2: nat, q3: nat)
    requires w < 65536 && q1 == w / 16 && q2 == q1 / 16 && q3 == q2 / 16
    ensures q3 < 16 && w == q3 * 4096 + q2 % 16 * 256 + q1 % 16 * 16 + w % 16
    ensures Hex(w, 4) == [HexDigit(q3), HexDigit(q2 % 16), HexDigit(q1 % 16), HexDigit(w % 16)]
  {
    hide HexDigit, Hex;
    NextDigit(w, 3);
    NextDigit(q1, 2);
    NextDigit(q2, 1);
    NextDigit(q3, 0);
    NoDigits(q3 / 16);
  }

  lemma NoDigits(w: nat)
    ensures Hex(w, 0) == ""
  {
  }

  lemma NextDigit(w: nat, k: nat)
    ensures Hex(w, k + 1) == Hex(w / 16, k) + [HexDigit(w % 16)]
  {
  }

  lemma {:induction false} GroupsRead(v: nat, n: nat)
    requires n > 0 && v < Pow2(16 * n)
    ensures |Split(Groups(v, n), '-')| == n && Weigh(Split(Groups(v, n), '-'), ReadGroup, 65536) == Some(v)
  {
    hide Pow2, Hex, Split, ReadGroup;
    PowersOfTwo();
    ReadsGroup(v % 65536);
    var last := Hex(v % 65536, 4);
    if n == 1 {
      SplitLast("", last, '-');
      assert [last][..0] == [];
    } else {
      QuotientFits(v, 16, 16 * (n - 1), 65536);
      GroupsRead(v / 65536, n - 1);
      SplitLast(Groups(v / 65536, n - 1), last, '-');
      var parts := Split(Groups(v / 65536, n - 1), '-');
      assert (parts + [last])[..n - 1] == parts;
    }
  }

  lemma NoSeparatorNoSplit(s: string, c: char)
    requires c !in s
    ensures Split(s, c) == [s]
  {
    IndexOfExactly(s, [], c);
  }

  /** The text of an address reads as that address. */
  lemma TextReads(a: Addr)
    ensures ReadAddress(AddressText(a)) == Some(a)
  {
    hide Pow2, Dotted, Groups, Split, Weigh;
    TextShape(a);
    if a.family == V4 {
      DottedReads(a.value, 4);
    } else {
      GroupsRead(a.value, 8);
      NoSeparatorNoSplit(AddressText(a), '.');
    }
  }

  /** The name ends in the text that reads as the address, after the name of the network and a dash if the
      network has one. */
  lemma NameReads(ip: Addr, network: string)
    ensures
      var name, n := ReservationName(ip, network), if network == UNNAMED_NETWORK then 0 else |network| + 1;
      && n <= |name| && name[..n] == (if network == UNNAMED_NETWORK then "" else network + "-")
      && ReadAddress(name[n..]) == Some(Unmapped(ip))
  {
    hide ReadAddress, AddressText;
    UnmappedIsValid(ip);
    TextReads(Unmapped(ip));
    var text := AddressText(Unmapped(ip));
    if network == UNNAMED_NETWORK {
      assert text[0..] == text;
    } else {
      assert (network + "-" + text)[|network| + 1..] == text;
    }
  }

  /** 10.0.0.1 in 4 and in 16 bytes, and ::1. */
  lemma DocumentedNames()
    ensures ReservationName(RawAddr(V4, 0x0a00_0001), UNNAMED_NETWORK) == "10.0.0.1"
    ensures ReservationName(RawAddr(V6, 0xffff_0a00_0001), "blue") == "blue-10.0.0.1"
    ensures ReservationName(RawAddr(V6, 1), UNNAMED_NETWORK) == "0000-0000-0000-0000-0000-0000-0000-0001"
  {
    hide Dotted, Groups;
    DottedExample();
    GroupsExample();
    assert "blue" + "-" + "10.0.0.1" == "blue-10.0.0.1";
  }

  lemma DottedExample()
    ensures Dotted(0x0a00_0001, 4) == "10.0.0.1"
  {
    DecimalExamples();
    hide Decimal, Dotted;
    DottedStep(0x0a00_0001, 0x0a_0000, 1, 4);
    DottedStep(0x0a_0000, 0x0a00, 0, 3);
    DottedStep(0x0a00, 0x0a, 0, 2);
    DottedStep(0x0a, 0, 10, 1);
  }

  lemma DecimalExamples()
    ensures Decimal(10) == "10" && Decimal(0) == "0" && Decimal(1) == "1"
  {
  }

  lemma DottedStep(v: nat, q: nat, r: nat, n: nat)
    requires n > 0 && v == q * 256 + r && r < 256
    ensures Dotted(v, n) == if n == 1 then Decimal(r) else Dotted(q, n - 1) + "." + Decimal(r)
  {
    hide Decimal;
    assert v / 256 == q && v % 256 == r;
  }

  lemma GroupsExample()
    ensures Groups(1, 8) == "0000-0000-0000-0000-0000-0000-0000-0001"
  {
    hide Hex, Groups;
    HexExamples();
    ZeroGroups();
    GroupsStep(1, 0, 1, 8);
    assert "0000-0000-0000-0000-0000-0000-0000" + "-" + "0001" == "0000-0000-0000-0000-0000-0000-0000-0001";
  }

  lemma ZeroGroups()
    ensures Groups(0, 7) == "0000-0000-0000-0000-0000-0000-0000"
  {
    hide Hex, Groups;
    HexExamples();
    FewZeroGroups();
    GroupsStep(0, 0, 0, 5);
    GroupsStep(0, 0, 0, 6);
    GroupsStep(0, 0, 0, 7);
  }

  lemma FewZeroGroups()
    ensures Groups(0, 4) == "0000-0000-0000-0000"
  {
    hide Hex, Groups;
    HexExamples();
    GroupsStep(0, 0, 0, 1);
    GroupsStep(0, 0, 0, 2);
    GroupsStep(0, 0, 0, 3);
    GroupsStep(0, 0, 0, 4);
  }

  lemma HexExamples()
    ensures Hex(0, 4) == "0000" && Hex(1, 4) == "0001"
  {
    FourDigits(0, 0, 0, 0);
    FourDigits(1, 0, 0, 0);
  }

  lemma GroupsStep(v: nat, q: nat, r: nat, n: nat)
    requires n > 0 && v == q * 65536 + r && r < 65536
    ensures Groups(v, n) == if n == 1 then Hex(r, 4) else Groups(q, n - 1) + "-" + Hex(r, 4)
  {
    hide Hex;
    assert v / 65536 == q && v % 65536 == r;
  }
}
