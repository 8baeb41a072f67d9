/** The /30 tap network allocator. Addresses are 32-bit words with Go's
    wrap-around; nothing below assumes that an addition stays in range. */
module Network {
  import opened Wrappers
  import opened Text

  const WORD: int := 0x1_0000_0000

  type Word = x: int | 0 <= x < WORD

  type Octet = x: int | 0 <= x < 256

  /** uint32 truncation. */
  function Wrap(x: int): Word {
    x % WORD
  }

  /** 2 to the n-th. */
  function Pow2(n: nat): (p: nat)
    ensures p > 0
  {
    if n == 0 then 1 else 2 * Pow2(n - 1)
  }

  const INTERFACE_ID: string := "net0"
  const TAP_PREFIX: string := "fctap"
  const SUBNET_BITS: nat := 30

  // -------------------------------------------------------------- addresses

  datatype IPv4 = IPv4(a: Octet, b: Octet, c: Octet, d: Octet)

  /** Big-endian, as binary.BigEndian.Uint32 reads it. */
  function ToWord(ip: IPv4): Word {
    ((ip.a * 0x100 + ip.b) * 0x100 + ip.c) * 0x100 + ip.d
  }

  function FromWord(w: Word): IPv4 {
    var abc := w / 0x100;
    var ab := abc / 0x100;
    IPv4(ab / 0x100, ab % 0x100, abc % 0x100, w % 0x100)
  }

  lemma FromWordRoundTrip(w: Word)
    ensures ToWord(FromWord(w)) == w
  {
    var abc := w / 0x100;
    var ab := abc / 0x100;
    assert w == abc * 0x100 + w % 0x100;
    assert abc == ab * 0x100 + abc % 0x100;
    assert ab == (ab / 0x100) * 0x100 + ab % 0x100;
  }

  lemma ToWordRoundTrip(ip: IPv4)
    ensures FromWord(ToWord(ip)) == ip
  {
    var ab := ip.a * 0x100 + ip.b;
    var abc := ab * 0x100 + ip.c;
    assert ToWord(ip) / 0x100 == abc && ToWord(ip) % 0x100 == ip.d;
    assert abc / 0x100 == ab && abc % 0x100 == ip.c;
    assert ab / 0x100 == ip.a && ab % 0x100 == ip.b;
  }

  /** An octet the way Go prints it: no leading zero. */
  function OctetText(v: Octet): (s: string)
    ensures 1 <= |s| <= 3 && forall c <- s :: IsDigit(c)
  {
    if v < 10 then [DigitChar(v)]
    else if v < 100 then [DigitChar(v / 10), DigitChar(v % 10)]
    else [DigitChar(v / 100), DigitChar(v / 10 % 10), DigitChar(v % 10)]
  }

  /** netip.Addr.String on an IPv4 address. */
  function DottedQuad(ip: IPv4): string {
    OctetText(ip.a) + "." + (OctetText(ip.b) + "." + (OctetText(ip.c) + "." + OctetText(ip.d)))
  }

  /** The dotted-decimal scanner behind net.ParseIP: `fields` are the octets
      already closed by a dot, `value` and `digits` the octet being read. */
  function ScanQuad(s: string, fields: seq<Octet>, value: Octet, digits: nat): Option<IPv4> {
    if s == [] then
      if |fields| == 3 then Some(IPv4(fields[0], fields[1], fields[2], value)) else None
    else if IsDigit(s[0]) then
      if digits == 1 && value == 0 then None
      else
        var next := value * 10 + DigitValue(s[0]);
        if next > 255 then None else ScanQuad(s[1..], fields, next, digits + 1)
    else if s[0] == '.' then
      if digits == 0 || |s| == 1 || |fields| == 3 then None
      else ScanQuad(s[1..], fields + [value], 0, 0)
    else None
  }

  function ParseQuad(s: string): Option<IPv4> {
    ScanQuad(s, [], 0, 0)
  }

  lemma ScanOctet(v: Octet, rest: string, fields: seq<Octet>)
    ensures ScanQuad(OctetText(v) + rest, fields, 0, 0) == ScanQuad(rest, fields, v, |OctetText(v)|)
  {
    var t := OctetText(v);
    assert (t + rest)[1..] == t[1..] + rest;
    if |t| == 1 {
      assert t[1..] + rest == rest;
    } else if |t| == 2 {
      assert (t + rest)[1..][1..] == rest;
    } else {
      assert (t + rest)[1..][1..] == [t[2]] + rest;
      assert ([t[2]] + rest)[1..] == rest;
      assert ScanQuad(t + rest, fields, 0, 0) == ScanQuad((t + rest)[1..], fields, v / 100, 1);
      assert ScanQuad((t + rest)[1..], fields, v / 100, 1) == ScanQuad([t[2]] + rest, fields, v / 10, 2);
    }
  }

  lemma ScanDot(rest: string, fields: seq<Octet>, value: Octet, digits: nat)
    requires rest != [] && |fields| < 3 && digits > 0
    ensures ScanQuad("." + rest, fields, value, digits) == ScanQuad(rest, fields + [value], 0, 0)
  {
    assert ("." + rest)[1..] == rest;
  }

  lemma ScanField(v: Octet, rest: string, fields: seq<Octet>)
    requires rest != [] && |fields| < 3
    ensures ScanQuad(OctetText(v) + ("." + rest), fields, 0, 0) == ScanQuad(rest, fields + [v], 0, 0)
  {
    ScanOctet(v, "." + rest, fields);
    ScanDot(rest, fields, v, |OctetText(v)|);
  }

  lemma ScanEnd(ip: IPv4, digits: nat)
    ensures ScanQuad("", [ip.a, ip.b, ip.c], ip.d, digits) == Some(ip)
  {
  }

  /** The text a record stores is read back to the same address. */
  lemma QuadRoundTrip(ip: IPv4)
    ensures ParseQuad(DottedQuad(ip)) == Some(ip)
  {
    hide OctetText, ScanQuad;
    var d := OctetText(ip.d);
    var cd := OctetText(ip.c) + ("." + d);
    var bcd := OctetText(ip.b) + ("." + cd);
    calc {
      ScanQuad(OctetText(ip.a) + ("." + bcd), [], 0, 0);
      { ScanField(ip.a, bcd, []); assert [] + [ip.a] == [ip.a]; }
      ScanQuad(bcd, [ip.a], 0, 0);
      { ScanField(ip.b, cd, [ip.a]); assert [ip.a] + [ip.b] == [ip.a, ip.b]; }
      ScanQuad(cd, [ip.a, ip.b], 0, 0);
      { ScanField(ip.c, d, [ip.a, ip.b]); assert [ip.a, ip.b] + [ip.c] == [ip.a, ip.b, ip.c]; }
      ScanQuad(d, [ip.a, ip.b, ip.c], 0, 0);
      { ScanOctet(ip.d, "", [ip.a, ip.b, ip.c]); assert d + "" == d; }
      ScanQuad("", [ip.a, ip.b, ip.c], ip.d, |d|);
      { ScanEnd(ip, |d|); }
      Some(ip);
    }
    assert DottedQuad(ip) == OctetText(ip.a) + ("." + bcd);
  }

  lemma QuadIsTrimmed(ip: IPv4)
    ensures Trimmed(DottedQuad(ip)) && DottedQuad(ip) != []
  {
    var q := DottedQuad(ip);
    assert q[0] == OctetText(ip.a)[0];
    assert q[|q| - 1] == OctetText(ip.d)[|OctetText(ip.d)| - 1];
  }

  function HexDigit(d: nat): char
    requires d < 16
  {
    if d < 10 then DigitChar(d) else 'a' + (d - 10) as char
  }

  function HexOctet(v: Octet): string {
    [HexDigit(v / 16), HexDigit(v % 16)]
  }

  function MacFor(ip: IPv4): string {
    "06:00:" + HexOctet(ip.a) + ":" + HexOctet(ip.b) + ":" + HexOctet(ip.c) + ":" + HexOctet(ip.d)
  }

  lemma HexOctetInjective(v: Octet, w: Octet)
    requires HexOctet(v) == HexOctet(w)
    ensures v == w
  {
    assert HexOctet(v)[0] == HexOctet(w)[0] && HexOctet(v)[1] == HexOctet(w)[1];
  }

  lemma MacInjective(x: IPv4, y: IPv4)
    requires MacFor(x) == MacFor(y)
    ensures x == y
  {
    var m, n := MacFor(x), MacFor(y);
    assert m[6..8] == HexOctet(x.a) && m[9..11] == HexOctet(x.b)
        && m[12..14] == HexOctet(x.c) && m[15..17] == HexOctet(x.d);
    assert n[6..8] == HexOctet(y.a) && n[9..11] == HexOctet(y.b)
        && n[12..14] == HexOctet(y.c) && n[15..17] == HexOctet(y.d);
    HexOctetInjective(x.a, y.a);
    HexOctetInjective(x.b, y.b);
    HexOctetInjective(x.c, y.c);
    HexOctetInjective(x.d, y.d);
  }

  // -------------------------------------------------------------- allocator

  datatype Allocation = Allocation(
    interfaceID: string, tapName: string, hostIP: IPv4, guestIP: IPv4, gatewayIP: IPv4, guestMAC: string)

  /** Clears the low n bits. */
  function Mask(x: nat, n: nat): (m: nat)
    ensures m <= x < m + Pow2(n)
  {
    if n == 0 then x else 2 * Mask(x / 2, n - 1)
  }

  lemma {:induction false} MaskTwice(x: nat, n: nat)
    ensures Mask(Mask(x, n), n) == Mask(x, n)
  {
    if n > 0 {
      MaskTwice(x / 2, n - 1);
    }
  }

  /** A masked value below 2^total leaves room for its whole block. */
  lemma {:induction false} MaskedBlockFits(x: nat, n: nat, total: nat)
    requires n <= total && x < Pow2(total) && Mask(x, n) == x
    ensures x + Pow2(n) <= Pow2(total)
  {
    if n > 0 {
      assert x == 2 * (x / 2);
      MaskedBlockFits(x / 2, n - 1, total - 1);
    } else {
    }
  }

  lemma WordIsPow2()
    ensures Pow2(32) == WORD
  {
    assert Pow2(8) == 256;
    assert Pow2(16) == 256 * Pow2(8) by { assert Pow2(12) == 16 * Pow2(8); }
    assert Pow2(24) == 256 * Pow2(16) by { assert Pow2(20) == 16 * Pow2(16); }
    assert Pow2(32) == 256 * Pow2(24) by { assert Pow2(28) == 16 * Pow2(24); }
  }

  /** The masked base prefix of an allocator. */
  datatype Prefix = Prefix(base: Word, bits: nat) {
    predicate Valid() {
      bits <= SUBNET_BITS && Mask(base, 32 - bits) == base
    }

    /** The number of /30 networks the allocator scans. */
    function Subnets(): nat
      requires bits <= SUBNET_BITS
    {
      Pow2(SUBNET_BITS - bits)
    }
  }

  /** NewNetworkAllocator, after the text of the prefix has been parsed. */
  function NewAllocator(addr: Word, bits: nat): (r: Result<Prefix>)
    requires bits <= 32
    ensures r.Ok? <==> bits <= SUBNET_BITS
    ensures r.Ok? ==> r.value.Valid() && r.value.base <= addr < r.value.base + Pow2(32 - bits)
  {
    if bits > SUBNET_BITS then Err("must be no more specific than /30")
    else
      MaskTwice(addr, 32 - bits);
      Ok(Prefix(Mask(addr, 32 - bits), bits))
  }

  function BlockBase(p: Prefix, index: nat): Word {
    Wrap(p.base + Wrap(index * 4))
  }

  function NetworkForIndex(p: Prefix, index: nat): Allocation {
    var host := FromWord(Wrap(BlockBase(p, index) + 1));
    var guest := FromWord(Wrap(BlockBase(p, index) + 2));
    Allocation(INTERFACE_ID, TAP_PREFIX + Decimal(index), host, guest, host, MacFor(guest))
  }

  /** AllocationFromGuestIP. */
  function AllocationFromGuestIP(guestIP: string, tapName: string): Option<Allocation> {
    match ParseQuad(TrimSpace(guestIP))
    case None => None
    case Some(addr) =>
      var base := Wrap(ToWord(addr) - 2);
      var host := FromWord(Wrap(base + 1));
      var guest := FromWord(Wrap(base + 2));
      Some(Allocation(INTERFACE_ID, TrimSpace(tapName), host, guest, host, MacFor(guest)))
  }

  /** The whole masked prefix lies inside the 32-bit space. */
  lemma PrefixFits(p: Prefix)
    requires p.Valid()
    ensures 4 * p.Subnets() == Pow2(32 - p.bits)
    ensures p.base + Pow2(32 - p.bits) <= WORD
  {
    WordIsPow2();
    MaskedBlockFits(p.base, 32 - p.bits, 32);
    assert Pow2(32 - p.bits) == 2 * Pow2(31 - p.bits);
  }

  /** Every scanned index names a four-address block inside the masked prefix,
      and no 32-bit addition on the way there wraps. */
  lemma BlockInsidePrefix(p: Prefix, index: nat)
    requires p.Valid() && index < p.Subnets()
    ensures BlockBase(p, index) == p.base + 4 * index
    ensures BlockBase(p, index) + 3 < p.base + Pow2(32 - p.bits) <= WORD
    ensures ToWord(NetworkForIndex(p, index).hostIP) == p.base + 4 * index + 1
    ensures ToWord(NetworkForIndex(p, index).guestIP) == p.base + 4 * index + 2
  {
    hide FromWord, ToWord, MacFor, Decimal, Pow2, Mask;
    PrefixFits(p);
    var base := p.base + 4 * index;
    assert Wrap(index * 4) == index * 4 && Wrap(base) == base;
    assert Wrap(base + 1) == base + 1 && Wrap(base + 2) == base + 2;
    FromWordRoundTrip(base + 1);
    FromWordRoundTrip(base + 2);
  }

  /** Distinct indices give disjoint blocks and different guest addresses,
      tap names and MAC addresses. */
  lemma DistinctIndicesDoNotClash(p: Prefix, i: nat, j: nat)
    requires p.Valid() && i < p.Subnets() && j < p.Subnets() && i != j
    ensures BlockBase(p, i) + 3 < BlockBase(p, j) || BlockBase(p, j) + 3 < BlockBase(p, i)
    ensures NetworkForIndex(p, i).guestIP != NetworkForIndex(p, j).guestIP
    ensures NetworkForIndex(p, i).tapName != NetworkForIndex(p, j).tapName
    ensures NetworkForIndex(p, i).guestMAC != NetworkForIndex(p, j).guestMAC
  {
    hide FromWord, ToWord, MacFor, Decimal, Pow2, Mask;
    BlockInsidePrefix(p, i);
    BlockInsidePrefix(p, j);
    var x, y := NetworkForIndex(p, i), NetworkForIndex(p, j);
    if x.tapName == y.tapName {
      assert x.tapName[|TAP_PREFIX|..] == Decimal(i) && y.tapName[|TAP_PREFIX|..] == Decimal(j);
      DecimalInjective(i, j);
    }
    if x.guestMAC == y.guestMAC {
      MacInjective(x.guestIP, y.guestIP);
    }
  }

  lemma TapNameIsTrimmed(index: nat)
    ensures Trimmed(TAP_PREFIX + Decimal(index))
  {
    var t := TAP_PREFIX + Decimal(index);
    assert t[|t| - 1] == Decimal(index)[|Decimal(index)| - 1];
  }

  /** Rebuilding an allocation from the two texts a machine record keeps gives
      back the allocation that was made, for every index of every prefix. */
  lemma RecordRebuildsAllocation(p: Prefix, index: nat)
    requires p.Valid() && index < p.Subnets()
    ensures var network := NetworkForIndex(p, index);
            AllocationFromGuestIP(DottedQuad(network.guestIP), network.tapName) == Some(network)
  {
    hide FromWord, ToWord, MacFor, Decimal, DottedQuad, ParseQuad, TrimLeft, TrimRight, Pow2, Mask;
    var network := NetworkForIndex(p, index);
    BlockInsidePrefix(p, index);
    QuadRoundTrip(network.guestIP);
    QuadIsTrimmed(network.guestIP);
    TapNameIsTrimmed(index);
    TrimSpaceTrims(DottedQuad(network.guestIP));
    TrimSpaceTrims(network.tapName);
  }

  /** The guest address of `index` is taken by one of `used`. */
  predicate Taken(p: Prefix, used: seq<Allocation>, index: nat) {
    exists k :: 0 <= k < |used| && used[k].guestIP == NetworkForIndex(p, index).guestIP
  }

  /** Scans the indices from 0 and returns the first network whose guest
      address nobody uses. */
  method Allocate(p: Prefix, used: seq<Allocation>) returns (r: Result<Allocation>, ghost index: nat)
    requires p.Valid()
    ensures r.Ok? ==> index < p.Subnets() && r.value == NetworkForIndex(p, index)
                      && !Taken(p, used, index) && forall i :: 0 <= i < index ==> Taken(p, used, i)
    ensures r.Err? <==> forall i :: 0 <= i < p.Subnets() ==> Taken(p, used, i)
    ensures |used| < p.Subnets() ==> r.Ok?
  {
    var inUse: set<IPv4> := {};
    var k := 0;
    while k < |used|
      invariant 0 <= k <= |used|
      invariant inUse == set j | 0 <= j < k :: used[j].guestIP
    {
      inUse := inUse + {used[k].guestIP};
      k := k + 1;
    }
    index := 0;
    var i := 0;
    while i < p.Subnets()
      invariant 0 <= i <= p.Subnets()
      invariant forall j :: 0 <= j < i ==> Taken(p, used, j)
    {
      var network := NetworkForIndex(p, i);
      if network.guestIP !in inUse {
        index := i;
        return Ok(network), i;
      }
      i := i + 1;
    }
    if |used| < p.Subnets() {
      SomeIndexIsFree(p, used);
    }
    r := Err("exhausted");
  }

  /** The guest addresses of the first n indices. */
  ghost function GuestIPs(p: Prefix, n: nat): set<IPv4> {
    if n == 0 then {} else GuestIPs(p, n - 1) + {NetworkForIndex(p, n - 1).guestIP}
  }

  lemma {:induction false} GuestIPsMember(p: Prefix, n: nat, ip: IPv4)
    requires ip in GuestIPs(p, n)
    ensures exists i :: 0 <= i < n && NetworkForIndex(p, i).guestIP == ip
  {
    hide NetworkForIndex;
    if n > 0 && ip in GuestIPs(p, n - 1) {
      GuestIPsMember(p, n - 1, ip);
    }
  }

  lemma {:induction false} GuestIPsAreDistinct(p: Prefix, n: nat)
    requires p.Valid() && n <= p.Subnets()
    ensures |GuestIPs(p, n)| == n
  {
    hide NetworkForIndex, Pow2, Mask;
    if n > 0 {
      GuestIPsAreDistinct(p, n - 1);
      var last := NetworkForIndex(p, n - 1).guestIP;
      if last in GuestIPs(p, n - 1) {
        GuestIPsMember(p, n - 1, last);
        var i :| 0 <= i < n - 1 && NetworkForIndex(p, i).guestIP == last;
        DistinctIndicesDoNotClash(p, i, n - 1);
      }
    }
  }

  ghost function UsedIPs(used: seq<Allocation>): (ips: set<IPv4>)
    ensures forall k :: 0 <= k < |used| ==> used[k].guestIP in ips
    ensures |ips| <= |used|
  {
    if used == [] then {} else UsedIPs(used[..|used| - 1]) + {used[|used| - 1].guestIP}
  }

  /** Pigeonhole: fewer networks in use than subnets leaves an index free. */
  lemma SomeIndexIsFree(p: Prefix, used: seq<Allocation>)
    requires p.Valid() && |used| < p.Subnets()
    ensures exists i :: 0 <= i < p.Subnets() && !Taken(p, used, i)
  {
    hide NetworkForIndex, Pow2, Mask;
    if forall i :: 0 <= i < p.Subnets() ==> Taken(p, used, i) {
      forall ip | ip in GuestIPs(p, p.Subnets()) ensures ip in UsedIPs(used) {
        GuestIPsMember(p, p.Subnets(), ip);
        var i :| 0 <= i < p.Subnets() && NetworkForIndex(p, i).guestIP == ip;
        assert Taken(p, used, i);
      }
      GuestIPsAreDistinct(p, p.Subnets());
      SubsetIsNoLarger(GuestIPs(p, p.Subnets()), UsedIPs(used));
    }
  }

  lemma {:induction false} SubsetIsNoLarger(a: set<IPv4>, b: set<IPv4>)
    requires a <= b
    ensures |a| <= |b|
  {
    if a != {} {
      var x :| x in a;
      SubsetIsNoLarger(a - {x}, b - {x});
    }
  }
}
