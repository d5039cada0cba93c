/**
 Broadcast addresses, computed twice in the repository: octet by octet over the network interfaces, and on a 64-bit
 integer in the shell script. Both are the top of the subnet (section 3.2.1.3 of RFC 1122).
 */
module Addresses {
  import opened Wrappers

  // ---- two's complement bits ----

  function Pow2(n: nat): (p: nat)
    ensures p > 0
  {
    if n == 0 then 1 else 2 * Pow2(n - 1)
  }

  function Abs(a: int): nat {
    if a < 0 then -a else a
  }

  function Not(a: int): int {
    -a - 1
  }

  /** Bitwise and of two's complement numbers of any width. */
  function And(a: int, b: int): int
    decreases Abs(a)
  {
    if a == 0 || b == 0 then 0
    else if a == -1 then b
    else 2 * And(a / 2, b / 2) + (a % 2) * (b % 2)
  }

  function Or(a: int, b: int): int
    decreases Abs(a)
  {
    if a == 0 then b
    else if a == -1 then -1
    else 2 * Or(a / 2, b / 2) + if a % 2 + b % 2 > 0 then 1 else 0
  }

  const WORD: int := 0x1_0000_0000_0000_0000
  const ALL: int := 0xFFFF_FFFF

  /** The value of a 64-bit signed shell integer. */
  function Wrap64(a: int): int {
    var w := a % WORD;
    if w < WORD / 2 then w else w - WORD
  }

  function Shl(a: int, n: nat): int {
    Wrap64(a * Pow2(n))
  }

  function Shr(a: int, n: nat): int {
    a / Pow2(n)
  }

  // ---- addresses ----

  type Octet = o: int | 0 <= o < 256

  datatype Ip = Ip(a: Octet, b: Octet, c: Octet, d: Octet)

  type Address = n: int | 0 <= n <= ALL

  function IpToInt(ip: Ip): Address {
    ip.a * 0x100_0000 + ip.b * 0x1_0000 + ip.c * 0x100 + ip.d
  }

  /** Masking with ones keeps the remainder. */
  lemma {:induction false} AndOnes(a: int, n: nat, p: nat)
    requires p == Pow2(n)
    ensures And(a, p - 1) == a % p
    decreases Abs(a), n
  {
    if a == -1 {
      DivMod(-1, p, -1, p - 1);
    } else if a != 0 && n > 0 {
      var h := Pow2(n - 1);
      AndOnes(a / 2, n - 1, h);
      assert (p - 1) / 2 == h - 1 && (p - 1) % 2 == 1;
      ModTwice(a, h);
    }
  }

  lemma {:induction false} MulAtLeast(k: int, m: nat)
    ensures k >= 1 ==> k * m >= m
    ensures k <= -1 ==> k * m <= 0 - m
  {
    if k >= 1 {
      assert (k - 1) * m >= 0;
    } else if k <= -1 {
      assert (-k - 1) * m >= 0;
    }
  }

  /** Quotient and remainder are what they are. */
  lemma {:induction false} DivMod(a: int, m: nat, q: int, r: int)
    requires m > 0 && 0 <= r < m && a == q * m + r
    ensures a / m == q && a % m == r
  {
    var k := a / m - q;
    assert k * m == a / m * m - q * m;
    MulAtLeast(k, m);
  }

  lemma {:induction false} ModTwice(a: int, m: nat)
    requires m > 0
    ensures a % (2 * m) == 2 * (a / 2 % m) + a % 2 && a / (2 * m) == a / 2 / m
  {
    var h := a / 2;
    var q, r := h / m, 2 * (h % m) + a % 2;
    assert h == q * m + h % m;
    assert a == q * (2 * m) + r;
    DivMod(a, 2 * m, q, r);
  }

  lemma {:induction false} AndByte(a: int)
    ensures And(a, 255) == a % 256
  {
    assert Pow2(8) == 256;
    AndOnes(a, 8, 256);
  }

  /** `$((int >> 24 & 255)).…` */
  function IntToIp(n: int): Ip {
    AndByte(Shr(n, 24));
    AndByte(Shr(n, 16));
    AndByte(Shr(n, 8));
    AndByte(n);
    Ip(And(Shr(n, 24), 255), And(Shr(n, 16), 255), And(Shr(n, 8), 255), And(n, 255))
  }

  lemma {:induction false} BytePowers()
    ensures Pow2(8) == 0x100 && Pow2(16) == 0x1_0000 && Pow2(24) == 0x100_0000 && Pow2(32) == ALL + 1
  {
    assert Pow2(8) == 256;
    PowSum(8, 8);
    PowSum(8, 16);
    PowSum(8, 24);
  }

  lemma {:induction false} Octets(n: int)
    ensures IntToIp(n) == Ip(n / 0x100_0000 % 256, n / 0x1_0000 % 256, n / 0x100 % 256, n % 256)
  {
    BytePowers();
    AndByte(Shr(n, 24));
    AndByte(Shr(n, 16));
    AndByte(Shr(n, 8));
    AndByte(n);
  }

  /** Cutting off one byte after the other. */
  lemma {:induction false} Bytes(n: int)
    ensures n / 0x1_0000 == n / 0x100 / 0x100 && n / 0x100_0000 == n / 0x1_0000 / 0x100
  {
    var h := n / 0x100;
    var hh := h / 0x100;
    DivMod(n, 0x1_0000, hh, h % 0x100 * 0x100 + n % 0x100);
    DivMod(n, 0x100_0000, hh / 0x100, (hh % 0x100) * 0x1_0000 + n % 0x1_0000);
  }

  lemma {:induction false} IntRoundTrip(n: Address)
    ensures IpToInt(IntToIp(n)) == n
  {
    Octets(n);
    Bytes(n);
    var h, hh, hhh := n / 0x100, n / 0x1_0000, n / 0x100_0000;
    assert n == h * 256 + n % 256 && h == hh * 256 + h % 256 && hh == hhh * 256 + hh % 256;
    DivMod(hhh, 256, 0, hhh);
  }

  lemma {:induction false} IpRoundTrip(ip: Ip)
    ensures IntToIp(IpToInt(ip)) == ip
  {
    var x := IpToInt(ip);
    Octets(x);
    Bytes(x);
    var ab := ip.a * 256 + ip.b;
    DivMod(x, 256, ab * 256 + ip.c, ip.d);
    DivMod(ab * 256 + ip.c, 256, ab, ip.c);
    DivMod(ab, 256, ip.a, ip.b);
    DivMod(ip.a, 256, 0, ip.a);
  }

  /** `ip_to_int` and `int_to_ip` are inverse to each other. */
  lemma {:induction false} Inverse(ip: Ip, n: Address)
    ensures IpToInt(ip) == n <==> ip == IntToIp(n)
  {
    IpRoundTrip(ip);
    IntRoundTrip(n);
  }

  lemma {:induction false} PowSum(m: nat, n: nat)
    ensures Pow2(m + n) == Pow2(m) * Pow2(n)
  {
    if m > 0 {
      PowSum(m - 1, n);
    }
  }

  // ---- the subnet ----

  function HostBits(prefix: nat): nat
    requires prefix <= 32
  {
    32 - prefix
  }

  /** The address with all host bits set. */
  function Top(n: Address, prefix: nat): int
    requires prefix <= 32
  {
    n - n % Pow2(HostBits(prefix)) + Pow2(HostBits(prefix)) - 1
  }

  predicate SameSubnet(m: int, n: int, prefix: nat)
    requires prefix <= 32
  {
    m / Pow2(HostBits(prefix)) == n / Pow2(HostBits(prefix))
  }

  lemma {:induction false} PowGrows(m: nat, n: nat)
    requires m <= n
    ensures Pow2(m) <= Pow2(n)
    decreases n
  {
    if m < n {
      PowGrows(m, n - 1);
    }
  }

  lemma {:induction false} TopInRange(n: Address, prefix: nat)
    requires prefix <= 32
    ensures 0 <= Top(n, prefix) <= ALL
  {
    BytePowers();
    PowSum(prefix, HostBits(prefix));
    TopBelow(n, Pow2(HostBits(prefix)), Pow2(prefix));
  }

  lemma {:induction false} TopBelow(n: nat, size: nat, nets: nat)
    requires size > 0 && n < nets * size
    ensures 0 <= n - n % size + size - 1 < nets * size
  {
    var q, r := n / size, n % size;
    assert n == q * size + r;
    Below(q, size, nets, r);
  }

  lemma {:induction false} Below(q: int, size: nat, nets: nat, r: int)
    requires q * size + r < nets * size && 0 <= r < size
    ensures q * size + size <= nets * size
  {
    assert (nets - q) * size == nets * size - q * size;
    MulAtLeast(nets - q, size);
  }

  lemma {:induction false} TopOf(n: int, m: int, size: nat)
    requires size > 0
    ensures (n - n % size + size - 1) / size == n / size
    ensures m / size == n / size ==> m <= n - n % size + size - 1
  {
    DivMod(n - n % size + size - 1, size, n / size, size - 1);
    assert m == m / size * size + m % size && n == n / size * size + n % size;
  }

  /** The last address of the subnet: in it, an address, and no address of the subnet is above it. */
  lemma {:induction false} TopIsLast(n: Address, prefix: nat)
    requires prefix <= 32
    ensures SameSubnet(n, Top(n, prefix), prefix) && 0 <= Top(n, prefix) <= ALL
    ensures forall m: int :: SameSubnet(n, m, prefix) ==> m <= Top(n, prefix)
  {
    forall m: int
      ensures SameSubnet(n, Top(n, prefix), prefix) && (SameSubnet(n, m, prefix) ==> m <= Top(n, prefix))
    {
      TopOf(n, m, Pow2(HostBits(prefix)));
    }
    assert SameSubnet(n, 0, prefix) ==> 0 <= Top(n, prefix);
    TopInRange(n, prefix);
  }

  // ---- the shell script ----

  function MaskInt(prefix: nat): int
    requires prefix <= 32
  {
    And(Shl(ALL, HostBits(prefix)), ALL)
  }

  function Complement(mask: int): int {
    And(Not(mask), ALL)
  }

  function CalcBroadcast(ip: Ip, prefix: nat): Ip
    requires prefix <= 32
  {
    IntToIp(Or(IpToInt(ip), Complement(MaskInt(prefix))))
  }

  /** Setting the last n bits. */
  lemma {:induction false} OrOnes(a: int, n: nat, p: nat)
    requires p == Pow2(n)
    ensures Or(a, p - 1) == a - a % p + p - 1
    decreases Abs(a), n
  {
    if a == -1 {
      DivMod(-1, p, -1, p - 1);
    } else if n == 0 {
      OrZero(a);
    } else if a == 0 {
      DivMod(0, p, 0, 0);
    } else {
      var h := Pow2(n - 1);
      OrOnes(a / 2, n - 1, h);
      assert (p - 1) / 2 == h - 1 && (p - 1) % 2 == 1;
      ModTwice(a, h);
    }
  }

  lemma {:induction false} OrZero(a: int)
    ensures Or(a, 0) == a
    decreases Abs(a)
  {
    if a != 0 && a != -1 {
      OrZero(a / 2);
    }
  }

  lemma {:induction false} WideLow(size: nat)
    requires 1 <= size <= 0x1_0000_0000
    ensures Wrap64(0xFFFF_FFFF * size) % 0x1_0000_0000 == 0x1_0000_0000 - size
  {
    WrapLow(0xFFFF_FFFF * size);
    DivMod(0xFFFF_FFFF * size, 0x1_0000_0000, size - 1, 0x1_0000_0000 - size);
  }

  /** The mask has its host bits clear and the others set, although the shift overflows 32 bits, and 63 for prefix 0. */
  lemma {:induction false} MaskIs(prefix: nat)
    requires prefix <= 32
    ensures MaskInt(prefix) == ALL + 1 - Pow2(HostBits(prefix)) && 0 <= MaskInt(prefix) <= ALL
  {
    BytePowers();
    PowGrows(HostBits(prefix), 32);
    WideLow(Pow2(HostBits(prefix)));
    AndOnes(Shl(ALL, HostBits(prefix)), 32, ALL + 1);
  }

  lemma {:induction false} ComplementIs(mask: Address)
    ensures Complement(mask) == ALL - mask
  {
    BytePowers();
    AndOnes(Not(mask), 32, ALL + 1);
    DivMod(Not(mask), ALL + 1, -1, ALL - mask);
  }

  /** Wrapping at 64 bits does not touch the low 32. */
  lemma {:induction false} WrapLow(a: int)
    ensures Wrap64(a) % (ALL + 1) == a % (ALL + 1)
  {
    var w := Wrap64(a);
    var k := if a % WORD < WORD / 2 then a / WORD else a / WORD + 1;
    assert w == a - k * WORD;
    var q, r := a / (ALL + 1), a % (ALL + 1);
    assert w == (q - k * (ALL + 1)) * (ALL + 1) + r;
    DivMod(w, ALL + 1, q - k * (ALL + 1), r);
  }

  lemma {:induction false} OrMaskIsTop(n: Address, prefix: nat)
    requires prefix <= 32
    ensures Or(n, Complement(MaskInt(prefix))) == Top(n, prefix)
  {
    MaskIs(prefix);
    ComplementIs(MaskInt(prefix));
    OrOnes(n, HostBits(prefix), Pow2(HostBits(prefix)));
  }

  /** The script computes the top of the subnet. */
  lemma {:induction false} ScriptIsTop(ip: Ip, prefix: nat)
    requires prefix <= 32
    ensures IpToInt(CalcBroadcast(ip, prefix)) == Top(IpToInt(ip), prefix)
  {
    OrMaskIsTop(IpToInt(ip), prefix);
    TopInRange(IpToInt(ip), prefix);
    IntRoundTrip(Top(IpToInt(ip), prefix));
  }

  // ---- octet by octet ----

  function OrOctet(part: Octet, mask: Octet): (r: Octet)
    ensures r == Or(part, 255 - mask)
  {
    AndByte(Not(mask));
    assert Pow2(8) == 256;
    DivMod(Not(mask), 256, -1, 255 - mask);
    OrBound(part, 255 - mask, 8);
    Or(part, And(Not(mask), 0xFF))
  }

  lemma {:induction false} OrBound(a: int, b: int, n: nat)
    requires 0 <= a < Pow2(n) && 0 <= b < Pow2(n)
    ensures 0 <= Or(a, b) < Pow2(n)
    decreases n
  {
    if a != 0 {
      OrBound(a / 2, b / 2, n - 1);
    }
  }

  /** A number put together from a high part and n low bits. */
  function Cat(high: int, low: int, n: nat): int
    decreases n
  {
    if n == 0 then high else 2 * Cat(high, low / 2, n - 1) + low % 2
  }

  lemma {:induction false} CatIs(high: int, low: int, n: nat, p: nat)
    requires p == Pow2(n) && 0 <= low < p
    ensures Cat(high, low, n) == high * p + low
  {
    if n > 0 {
      var h := Pow2(n - 1);
      CatIs(high, low / 2, n - 1, h);
      assert 2 * (high * h) == high * (2 * h);
    }
  }

  lemma {:induction false} CatNotNegative(high: int, low: int, n: nat)
    requires high >= 0
    ensures Cat(high, low, n) >= 0
    decreases n
  {
    if n > 0 {
      CatNotNegative(high, low / 2, n - 1);
    }
  }

  lemma {:induction false} OrHalves(a: int, b: int)
    requires a >= 0 && b >= 0
    ensures Or(a, b) / 2 == Or(a / 2, b / 2) && Or(a, b) % 2 == if a % 2 + b % 2 > 0 then 1 else 0
  {
  }

  lemma {:induction false} CatHalves(high: int, low: int, n: nat, whole: int)
    requires n > 0 && whole == Cat(high, low, n)
    ensures whole / 2 == Cat(high, low / 2, n - 1) && whole % 2 == low % 2
  {
  }

  lemma {:induction false} SameHalves(a: int, b: int)
    requires a / 2 == b / 2 && a % 2 == b % 2
    ensures a == b
  {
  }

  /** Two numbers cut at the same bit are or-ed part by part. */
  lemma {:induction false} OrCat(a: int, b: int, c: int, d: int, n: nat)
    requires a >= 0 && b >= 0 && c >= 0 && d >= 0
    ensures Or(Cat(a, b, n), Cat(c, d, n)) == Cat(Or(a, c), Or(b, d), n)
    decreases n
  {
    if n > 0 {
      OrCat(a, b / 2, c, d / 2, n - 1);
      var x, y, z := Cat(a, b, n), Cat(c, d, n), Cat(Or(a, c), Or(b, d), n);
      CatNotNegative(a, b, n);
      CatNotNegative(c, d, n);
      CatHalves(a, b, n, x);
      CatHalves(c, d, n, y);
      CatHalves(Or(a, c), Or(b, d), n, z);
      OrHalves(x, y);
      OrHalves(b, d);
      SameHalves(Or(x, y), z);
    }
  }

  lemma {:induction false} OrPart(a: int, b: int, c: int, d: int, n: nat, p: nat)
    requires p == Pow2(n) && a >= 0 && c >= 0 && 0 <= b < p && 0 <= d < p
    ensures Or(a * p + b, c * p + d) == Or(a, c) * p + Or(b, d)
  {
    OrBound(b, d, n);
    CatIs(a, b, n, p);
    CatIs(c, d, n, p);
    CatIs(Or(a, c), Or(b, d), n, p);
    OrCat(a, b, c, d, n);
  }

  /** One more octet behind a number. */
  function Join(high: int, low: int): int {
    high * 256 + low
  }

  lemma {:induction false} OrByte(a: int, b: Octet, c: int, d: Octet)
    requires a >= 0 && c >= 0
    ensures Or(Join(a, b), Join(c, d)) == Join(Or(a, c), Or(b, d))
  {
    assert Pow2(8) == 256;
    OrPart(a, b, c, d, 8, 256);
  }

  lemma {:induction false} Joined(ip: Ip)
    ensures IpToInt(ip) == Join(Join(Join(ip.a, ip.b), ip.c), ip.d)
    ensures Join(ip.a, ip.b) >= 0 && Join(Join(ip.a, ip.b), ip.c) >= 0
  {
  }

  datatype Nic = Nic(ipv4: bool, internal: bool, address: Ip, netmask: Ip)

  function Broadcast(nic: Nic): Ip {
    Ip(OrOctet(nic.address.a, nic.netmask.a), OrOctet(nic.address.b, nic.netmask.b),
       OrOctet(nic.address.c, nic.netmask.c), OrOctet(nic.address.d, nic.netmask.d))
  }

  lemma {:induction false} OrFour(p: Ip, m: Ip, r: Ip)
    requires r.a == Or(p.a, m.a) && r.b == Or(p.b, m.b) && r.c == Or(p.c, m.c) && r.d == Or(p.d, m.d)
    ensures IpToInt(r) == Or(IpToInt(p), IpToInt(m))
  {
    Joined(p);
    Joined(m);
    Joined(r);
    var p2, m2 := Join(p.a, p.b), Join(m.a, m.b);
    OrByte(p.a, p.b, m.a, m.b);
    OrByte(p2, p.c, m2, m.c);
    OrByte(Join(p2, p.c), p.d, Join(m2, m.c), m.d);
  }

  function Inverted(m: Ip): (r: Ip)
    ensures IpToInt(r) == ALL - IpToInt(m)
  {
    Ip(255 - m.a, 255 - m.b, 255 - m.c, 255 - m.d)
  }

  lemma {:induction false} BroadcastOrs(nic: Nic, mask: Ip)
    requires mask == Inverted(nic.netmask)
    ensures IpToInt(Broadcast(nic)) == Or(IpToInt(nic.address), IpToInt(mask))
  {
    OrFour(nic.address, mask, Broadcast(nic));
  }

  lemma {:induction false} InvertedIsComplement(netmask: Ip, n: Address)
    requires n == IpToInt(netmask)
    ensures IpToInt(Inverted(netmask)) == Complement(n)
  {
    ComplementIs(n);
  }

  /** For any mask at all, octet by octet is the same as on the whole number. */
  lemma {:induction false} OctetsAgree(nic: Nic)
    ensures IpToInt(Broadcast(nic)) == Or(IpToInt(nic.address), Complement(IpToInt(nic.netmask)))
  {
    BroadcastOrs(nic, Inverted(nic.netmask));
    InvertedIsComplement(nic.netmask, IpToInt(nic.netmask));
  }

  /** The netmask of a prefix, as an interface reports it. */
  function NetMask(prefix: nat): Ip
    requires prefix <= 32
  {
    IntToIp(MaskInt(prefix))
  }

  /** The address computed for an interface is the one the script computes, and the top of the subnet. */
  lemma {:induction false} BroadcastIsTop(nic: Nic, prefix: nat)
    requires prefix <= 32 && nic.netmask == NetMask(prefix)
    ensures Broadcast(nic) == CalcBroadcast(nic.address, prefix)
    ensures IpToInt(Broadcast(nic)) == Top(IpToInt(nic.address), prefix)
  {
    var mask, top := MaskInt(prefix), IpToInt(Broadcast(nic));
    assert IpToInt(nic.netmask) == mask by {
      MaskIs(prefix);
      IntRoundTrip(mask);
    }
    assert top == Or(IpToInt(nic.address), Complement(mask)) by {
      OctetsAgree(nic);
    }
    assert IntToIp(top) == Broadcast(nic) by {
      IpRoundTrip(Broadcast(nic));
    }
    assert top == Top(IpToInt(nic.address), prefix) by {
      OrMaskIsTop(IpToInt(nic.address), prefix);
    }
  }

  // ---- all interfaces ----

  /** The addresses of an interface may be missing. */
  datatype Interface = Interface(name: string, nics: Option<seq<Nic>>)

  predicate Wanted(iface: Interface, name: Option<string>) {
    name.None? || name.value == iface.name
  }

  function External(nics: seq<Nic>): seq<Nic> {
    if nics == [] then []
    else (if nics[0].ipv4 && !nics[0].internal then [nics[0]] else []) + External(nics[1..])
  }

  function NicsOf(iface: Interface): seq<Nic> {
    match iface.nics
    case Some(nics) => nics
    case None => []
  }

  /** All external IPv4 addresses of the wanted interfaces, in order. */
  function ExternalOf(ifaces: seq<Interface>, name: Option<string>): seq<Nic> {
    if ifaces == [] then []
    else (if Wanted(ifaces[0], name) then External(NicsOf(ifaces[0])) else []) + ExternalOf(ifaces[1..], name)
  }

  /** One broadcast address for each of the given ones, in order. */
  ghost predicate Answers(broadcast: seq<Ip>, nics: seq<Nic>) {
    |broadcast| == |nics| && forall i :: 0 <= i < |nics| ==> broadcast[i] == Broadcast(nics[i])
  }

  lemma {:induction false} Regroup<T>(a: seq<T>, b: seq<T>, c: seq<T>)
    ensures a + (b + c) == a + b + c
  {
  }

  method AddBroadcasts(nics: seq<Nic>, found: seq<Ip>, ghost sources: seq<Nic>) returns (broadcast: seq<Ip>)
    requires Answers(found, sources)
    ensures Answers(broadcast, sources + External(nics))
  {
    broadcast := found;
    ghost var done := sources;
    assert nics[0..] == nics;
    for i := 0 to |nics|
      invariant Answers(broadcast, done) && done + External(nics[i..]) == sources + External(nics)
    {
      var nic := nics[i];
      assert nics[i..][1..] == nics[i + 1..];
      ghost var next := if nic.ipv4 && !nic.internal then [nic] else [];
      Regroup(done, next, External(nics[i + 1..]));
      if nic.ipv4 && !nic.internal {
        broadcast := broadcast + [Broadcast(nic)];
      }
      done := done + next;
    }
    assert done + [] == done;
  }

  /** `getAvailableBroadcastAddresses`; the list of interfaces may be missing. */
  method GetAvailableBroadcastAddresses(interfaces: Option<seq<Interface>>, name: Option<string>) returns (broadcast: seq<Ip>)
    ensures Answers(broadcast, match interfaces case Some(ifaces) => ExternalOf(ifaces, name) case None => [])
  {
    broadcast := [];
    if interfaces.None? {
      return;
    }
    var ifaces := interfaces.value;
    ghost var done: seq<Nic> := [];
    assert ifaces[0..] == ifaces;
    for i := 0 to |ifaces|
      invariant Answers(broadcast, done) && done + ExternalOf(ifaces[i..], name) == ExternalOf(ifaces, name)
    {
      assert ifaces[i..][1..] == ifaces[i + 1..];
      ghost var next := if Wanted(ifaces[i], name) then External(NicsOf(ifaces[i])) else [];
      Regroup(done, next, ExternalOf(ifaces[i + 1..], name));
      if Wanted(ifaces[i], name) && ifaces[i].nics.Some? {
        broadcast := AddBroadcasts(ifaces[i].nics.value, broadcast, done);
      } else {
        assert done + next == done;
      }
      done := done + next;
    }
    assert done + [] == done;
  }

  /** Exactly the external IPv4 addresses of the wanted interfaces are answered; for an interface that does not exist
      there are none, and no error. */
  lemma {:induction false} ExternalOfHolds(ifaces: seq<Interface>, name: Option<string>, nic: Nic)
    ensures nic in ExternalOf(ifaces, name) <==>
            exists k :: 0 <= k < |ifaces| && (name == None || name == Some(ifaces[k].name)) &&
                        ifaces[k].nics.Some? && nic in ifaces[k].nics.value && nic.ipv4 && !nic.internal
  {
    if ifaces != [] {
      ExternalHolds(NicsOf(ifaces[0]), nic);
      ExternalOfHolds(ifaces[1..], name, nic);
      assert forall k :: 0 < k < |ifaces| ==> ifaces[k] == ifaces[1..][k - 1];
      var rest := ifaces[1..];
      if nic in ExternalOf(rest, name) {
        var k :| 0 <= k < |rest| && (name == None || name == Some(rest[k].name)) &&
                 rest[k].nics.Some? && nic in rest[k].nics.value;
        assert ifaces[k + 1] == rest[k];
      }
    }
  }

  lemma {:induction false} ExternalInOrder(nics: seq<Nic>, more: seq<Nic>)
    ensures External(nics + more) == External(nics) + External(more)
  {
    if nics == [] {
      assert nics + more == more;
    } else {
      assert (nics + more)[1..] == nics[1..] + more;
      ExternalInOrder(nics[1..], more);
      Regroup(if nics[0].ipv4 && !nics[0].internal then [nics[0]] else [], External(nics[1..]), External(more));
    }
  }

  lemma {:induction false} ExternalOne(nic: Nic)
    ensures External([nic]) == if nic.ipv4 && !nic.internal then [nic] else []
  {
  }

  /** What one interface answers: its external addresses, if it is wanted and has any. */
  lemma {:induction false} ExternalOfOne(iface: Interface, name: Option<string>)
    ensures ExternalOf([iface], name) ==
            if (name == None || name == Some(iface.name)) && iface.nics.Some? then External(iface.nics.value) else []
  {
    var own := if Wanted(iface, name) then External(NicsOf(iface)) else [];
    assert [iface][1..] == [] && own + [] == own;
  }

  /** Interfaces, and the addresses of each, are answered in the order of their lists, each as often as it is there. */
  lemma {:induction false} ExternalOfInOrder(ifaces: seq<Interface>, more: seq<Interface>, name: Option<string>)
    ensures ExternalOf(ifaces + more, name) == ExternalOf(ifaces, name) + ExternalOf(more, name)
  {
    if ifaces == [] {
      assert ifaces + more == more;
    } else {
      assert (ifaces + more)[1..] == ifaces[1..] + more;
      ExternalOfInOrder(ifaces[1..], more, name);
      Regroup(if Wanted(ifaces[0], name) then External(NicsOf(ifaces[0])) else [],
              ExternalOf(ifaces[1..], name), ExternalOf(more, name));
    }
  }

  lemma {:induction false} ExternalHolds(nics: seq<Nic>, nic: Nic)
    ensures nic in External(nics) <==> nic in nics && nic.ipv4 && !nic.internal
  {
    if nics != [] {
      ExternalHolds(nics[1..], nic);
    }
  }
}
