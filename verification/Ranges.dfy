/** Classifying IP addresses for egress: masks, prefix tables, and the IPv4 address an IPv6 address
    may carry. */
module Ranges {
  import opened Basics

  type Segments = s: seq<u16> | |s| == 8 witness [0, 0, 0, 0, 0, 0, 0, 0]

  datatype IpAddr = V4(octets: Octets) | V6(segments: Segments)

  datatype PrivateRange = Loopback | Rfc1918 | LinkLocal | Shared | UniqueLocal | SiteLocal

  datatype ForbiddenRange =
    | ThisNetwork | Unspecified | IetfProtocol | Benchmarking | Documentation | Multicast
    | Reserved | Ipv4Compatible | Teredo | Discard

  datatype AddressClass = Public | Private(range: PrivateRange) | Forbidden(why: ForbiddenRange)

  // ---------------------------------------------------------------- words

  function Pow2(n: nat): (p: nat)
    ensures p > 0
  {
    if n == 0 then 1 else 2 * Pow2(n - 1)
  }

  /** Bitwise and. */
  function And(a: nat, b: nat): nat
    decreases a
  {
    if a == 0 || b == 0 then 0
    else 2 * And(a / 2, b / 2) + (if a % 2 == 1 && b % 2 == 1 then 1 else 0)
  }

  /** Shift left in a word of `width` bits: what leaves the word is lost. */
  function ShiftLeft(width: nat, a: nat, bits: nat): nat {
    (a * Pow2(bits)) % Pow2(width)
  }

  function Mask(width: nat, prefix: nat): nat
    requires prefix <= width
  {
    if prefix == 0 then 0 else ShiftLeft(width, Pow2(width) - 1, width - prefix)
  }

  /** The number a big-endian sequence of digits spells. */
  function Number(digits: seq<nat>, base: nat): nat {
    if digits == [] then 0 else Number(digits[..|digits| - 1], base) * base + digits[|digits| - 1]
  }

  function Value(ip: IpAddr): nat {
    match ip
    case V4(a) => Number(a, 0x100)
    case V6(s) => Number(s, 0x1_0000)
  }

  function Width(ip: IpAddr): nat {
    if ip.V4? then 32 else 128
  }

  // ---------------------------------------------------------------- tables

  datatype Row = Row(net: IpAddr, prefix: nat, kind: AddressClass)

  /** The mask test. */
  predicate InNet(ip: IpAddr, net: IpAddr, prefix: nat)
    requires prefix <= Width(ip)
  {
    And(Value(ip), Mask(Width(ip), prefix)) == And(Value(net), Mask(Width(ip), prefix))
  }

  predicate FitsRow(ip: IpAddr, row: Row) {
    row.net.V4? == ip.V4? && row.prefix <= Width(ip)
  }

  /** The first row whose network holds the address. */
  function FirstMatch(ip: IpAddr, rows: seq<Row>, otherwise: AddressClass): AddressClass
    requires forall i :: 0 <= i < |rows| ==> FitsRow(ip, rows[i])
  {
    if rows == [] then otherwise
    else
      assert FitsRow(ip, rows[0]);
      if InNet(ip, rows[0].net, rows[0].prefix) then rows[0].kind
      else FirstMatch(ip, rows[1..], otherwise)
  }

  function TableV4(): seq<Row> {
    [
      Row(V4([0, 0, 0, 0]), 8, Forbidden(ThisNetwork)),
      Row(V4([10, 0, 0, 0]), 8, Private(Rfc1918)),
      Row(V4([100, 64, 0, 0]), 10, Private(Shared)),
      Row(V4([127, 0, 0, 0]), 8, Private(Loopback)),
      Row(V4([169, 254, 0, 0]), 16, Private(LinkLocal)),
      Row(V4([172, 16, 0, 0]), 12, Private(Rfc1918)),
      Row(V4([192, 0, 0, 0]), 24, Forbidden(IetfProtocol)),
      Row(V4([192, 0, 2, 0]), 24, Forbidden(Documentation)),
      Row(V4([192, 88, 99, 0]), 24, Forbidden(Reserved)),
      Row(V4([192, 168, 0, 0]), 16, Private(Rfc1918)),
      Row(V4([198, 18, 0, 0]), 15, Forbidden(Benchmarking)),
      Row(V4([198, 51, 100, 0]), 24, Forbidden(Documentation)),
      Row(V4([203, 0, 113, 0]), 24, Forbidden(Documentation)),
      Row(V4([224, 0, 0, 0]), 4, Forbidden(Multicast)),
      Row(V4([240, 0, 0, 0]), 4, Forbidden(Reserved)),
      Row(V4([255, 255, 255, 255]), 32, Forbidden(Reserved))]
  }

  function TableV6(): seq<Row> {
    [
      Row(V6([0, 0, 0, 0, 0, 0, 0, 0]), 128, Forbidden(Unspecified)),
      Row(V6([0, 0, 0, 0, 0, 0, 0, 1]), 128, Private(Loopback)),
      Row(V6([0, 0, 0, 0, 0, 0, 0, 0]), 96, Forbidden(Ipv4Compatible)),
      Row(V6([0x64, 0xff9b, 1, 0, 0, 0, 0, 0]), 48, Forbidden(Reserved)),
      Row(V6([0x100, 0, 0, 0, 0, 0, 0, 0]), 64, Forbidden(Discard)),
      Row(V6([0x2001, 0xdb8, 0, 0, 0, 0, 0, 0]), 32, Forbidden(Documentation)),
      Row(V6([0x2001, 0, 0, 0, 0, 0, 0, 0]), 32, Forbidden(Teredo)),
      Row(V6([0x2000, 0, 0, 0, 0, 0, 0, 0]), 3, Public),
      Row(V6([0xfc00, 0, 0, 0, 0, 0, 0, 0]), 7, Private(UniqueLocal)),
      Row(V6([0xfe80, 0, 0, 0, 0, 0, 0, 0]), 10, Private(LinkLocal)),
      Row(V6([0xfec0, 0, 0, 0, 0, 0, 0, 0]), 10, Private(SiteLocal)),
      Row(V6([0xff00, 0, 0, 0, 0, 0, 0, 0]), 8, Forbidden(Multicast))]
  }

  function TableFor(ip: IpAddr): (rows: seq<Row>)
    ensures forall i :: 0 <= i < |rows| ==> FitsRow(ip, rows[i])
  {
    if ip.V4? then TableV4() else TableV6()
  }

  /** An IPv4 address in no row is public, an IPv6 address in no row is reserved. */
  function ClassifyPlain(ip: IpAddr): AddressClass {
    FirstMatch(ip, TableFor(ip), if ip.V4? then Public else Forbidden(Reserved))
  }

  // ---------------------------------------------------------------- embedded IPv4

  function Low(high: u16, low: u16): Octets {
    [high / 0x100, high % 0x100, low / 0x100, low % 0x100]
  }

  function EmbeddedV4(s: Segments): Option<Octets> {
    if s[..5] == [0, 0, 0, 0, 0] && s[5] == 0xffff then Some(Low(s[6], s[7]))
    else if s[..6] == [0x64, 0xff9b, 0, 0, 0, 0] then Some(Low(s[6], s[7]))
    else if s[0] == 0x2002 then Some(Low(s[1], s[2]))
    else None
  }

  function Canonical(ip: IpAddr): IpAddr {
    match ip
    case V4(_) => ip
    case V6(s) => if EmbeddedV4(s).Some? then V4(EmbeddedV4(s).value) else ip
  }

  function Classify(ip: IpAddr): AddressClass {
    ClassifyPlain(Canonical(ip))
  }

  /** `a` as two segments. */
  function High16(a: Octets): u16 {
    var high: nat := a[0];
    high * 0x100 + a[1]
  }

  function Low16(a: Octets): u16 {
    var high: nat := a[2];
    high * 0x100 + a[3]
  }

  /** `::ffff:a`, section 2.5.5.2 of RFC 4291. */
  function Mapped(a: Octets): IpAddr {
    V6([0, 0, 0, 0, 0, 0xffff, High16(a), Low16(a)])
  }

  /** `64:ff9b::a`, section 2.1 of RFC 6052. */
  function Nat64(a: Octets): IpAddr {
    V6([0x64, 0xff9b, 0, 0, 0, 0, High16(a), Low16(a)])
  }

  /** Any address of `2002:a::/48`, section 2 of RFC 3056. */
  function SixToFour(a: Octets, rest: seq<u16>): IpAddr
    requires |rest| == 5
  {
    V6([0x2002, High16(a), Low16(a)] + rest)
  }

  lemma LowOf(a: Octets)
    ensures Low(High16(a), Low16(a)) == a
  {
  }

  /** An IPv4 address is classified alike however it is written. */
  lemma EmbeddedAlike(a: Octets, rest: seq<u16>)
    requires |rest| == 5
    ensures Classify(Mapped(a)) == Classify(V4(a))
    ensures Classify(Nat64(a)) == Classify(V4(a))
    ensures Classify(SixToFour(a, rest)) == Classify(V4(a))
  {
    hide ClassifyPlain;
    LowOf(a);
    assert Mapped(a).segments[..5] == [0, 0, 0, 0, 0];
    assert Nat64(a).segments[..6] == [0x64, 0xff9b, 0, 0, 0, 0];
    assert Nat64(a).segments[..5][0] == 0x64;
    assert SixToFour(a, rest).segments[..6][0] == 0x2002 && SixToFour(a, rest).segments[..5][0] == 0x2002;
  }

  lemma PrefixSegments(s: Segments)
    ensures s[..5] == [0, 0, 0, 0, 0] <==> s[0] == 0 && s[1] == 0 && s[2] == 0 && s[3] == 0 && s[4] == 0
    ensures s[..6] == [0x64, 0xff9b, 0, 0, 0, 0] <==>
            s[0] == 0x64 && s[1] == 0xff9b && s[2] == 0 && s[3] == 0 && s[4] == 0 && s[5] == 0
  {
    assert s[..5] == [s[0], s[1], s[2], s[3], s[4]];
    assert s[..6] == [s[0], s[1], s[2], s[3], s[4], s[5]];
  }

  lemma LowDetermines(high: u16, low: u16, a: Octets)
    ensures Low(high, low) == a <==> high == High16(a) && low == Low16(a)
  {
    if Low(high, low) == a {
      assert a[0] == high / 0x100 && a[1] == high % 0x100 && a[2] == low / 0x100 && a[3] == low % 0x100;
    } else if high == High16(a) && low == Low16(a) {
      LowOf(a);
    }
  }

  /** The segments in which an address carries `a`. */
  ghost predicate Carries(s: Segments, a: Octets) {
    || s == Mapped(a).segments
    || s == Nat64(a).segments
    || s == SixToFour(a, s[3..]).segments
  }

  lemma EmbeddedIsCarried(s: Segments, a: Octets)
    ensures EmbeddedV4(s) == Some(a) <==> Carries(s, a)
  {
    hide Low, High16, Low16;
    PrefixSegments(s);
    LowDetermines(s[6], s[7], a);
    LowDetermines(s[1], s[2], a);
    assert s == [s[0], s[1], s[2], s[3], s[4], s[5], s[6], s[7]];
    assert s == [s[0], s[1], s[2]] + s[3..];
    var six := SixToFour(a, s[3..]).segments;
    assert six[0] == 0x2002 && six[1] == High16(a) && six[2] == Low16(a);
  }

  /** And only those forms carry one. */
  lemma CanonicalIsV4(ip: IpAddr, a: Octets)
    ensures Canonical(ip) == V4(a) <==> ip == V4(a) || (ip.V6? && Carries(ip.segments, a))
    ensures Canonical(Canonical(ip)) == Canonical(ip)
  {
    hide EmbeddedV4, Carries;
    if ip.V6? {
      EmbeddedIsCarried(ip.segments, a);
    }
  }

  // ---------------------------------------------------------------- the mask test is an interval

  /** What is left of `a` without its `k` low bits. */
  function HighBits(a: nat, k: nat): nat {
    if k == 0 then a else HighBits(a / 2, k - 1)
  }

  /** `a` followed by `k` zero bits. */
  function Raised(a: nat, k: nat): nat {
    if k == 0 then a else 2 * Raised(a, k - 1)
  }

  /** `p` ones followed by `k` zeros. */
  function Ones(p: nat, k: nat): nat {
    Raised(Pow2(p) - 1, k)
  }

  /** Masking with ones keeps a number that fits. */
  lemma {:induction false} AndOnes(a: nat, n: nat)
    requires a < Pow2(n)
    ensures And(a, Pow2(n) - 1) == a
  {
    if a > 0 {
      assert Pow2(n) == 2 * Pow2(n - 1);
      AndOnes(a / 2, n - 1);
      AndIs(a, Pow2(n) - 1);
      assert (Pow2(n) - 1) / 2 == Pow2(n - 1) - 1 && (Pow2(n) - 1) % 2 == 1;
    }
  }

  lemma AndIs(a: nat, b: nat)
    requires a > 0 && b > 0
    ensures And(a, b) == 2 * And(a / 2, b / 2) + (if a % 2 == 1 && b % 2 == 1 then 1 else 0)
  {
  }

  lemma {:induction false} AndTwice(a: nat, b: nat)
    ensures And(a, 2 * b) == 2 * And(a / 2, b)
  {
    if a > 0 && b > 0 {
      assert (2 * b) / 2 == b && (2 * b) % 2 == 0;
    }
  }

  lemma {:induction false} SameHighBits(a: nat, b: nat, p: nat, k: nat)
    requires a < Pow2(p + k) && b < Pow2(p + k)
    ensures And(a, Ones(p, k)) == And(b, Ones(p, k)) <==> HighBits(a, k) == HighBits(b, k)
    decreases k
  {
    if k == 0 {
      AndOnes(a, p);
      AndOnes(b, p);
    } else {
      AndTwice(a, Ones(p, k - 1));
      AndTwice(b, Ones(p, k - 1));
      SameHighBits(a / 2, b / 2, p, k - 1);
    }
  }

  lemma {:induction false} OnesAre(p: nat, k: nat)
    ensures Ones(p, k) == Pow2(p + k) - Pow2(k)
    decreases k
  {
    if k > 0 {
      OnesAre(p, k - 1);
    }
  }

  lemma {:induction false} Multiple(d: nat, m: nat)
    requires d > 0
    ensures d * m >= m
  {
    if d > 1 {
      Multiple(d - 1, m);
      assert d * m == (d - 1) * m + m;
    }
  }

  lemma Distribute(a: int, b: int, m: int)
    ensures (a - b) * m == a * m - b * m
  {
  }

  lemma RemainderIs(n: nat, m: nat, q: nat, r: nat)
    requires r < m && n == q * m + r
    ensures n % m == r
  {
    var p := n / m;
    assert n == p * m + n % m;
    Distribute(q, p, m);
    Distribute(p, q, m);
    if q > p {
      Multiple(q - p, m);
    } else if q < p {
      Multiple(p - q, m);
    }
  }

  lemma {:induction false} Pow2Grows(a: nat, b: nat)
    requires a <= b
    ensures Pow2(a) <= Pow2(b)
  {
    if a < b {
      Pow2Grows(a, b - 1);
    }
  }

  /** The mask of a prefix, shifted as a word, is that many ones. */
  lemma MaskIsOnes(width: nat, prefix: nat)
    requires prefix <= width
    ensures Mask(width, prefix) == Ones(prefix, width - prefix)
  {
    var w, k := Pow2(width), Pow2(width - prefix);
    OnesAre(prefix, width - prefix);
    if prefix > 0 {
      Pow2Grows(width - prefix, width);
      Distribute(w, 1, k);
      Distribute(k, 1, w);
      RemainderIs((w - 1) * k, w, k - 1, w - k);
    }
  }

  lemma {:induction false} HighBitsAreBetween(a: nat, k: nat, h: nat)
    ensures HighBits(a, k) == h <==> Raised(h, k) <= a < Raised(h, k) + Pow2(k)
    decreases k
  {
    if k > 0 {
      HighBitsAreBetween(a / 2, k - 1, h);
    }
  }

  lemma DigitFits(n: nat, digit: nat, rest: nat, base: nat)
    requires n < rest && digit < base
    ensures n * base + digit < rest * base
  {
    Distribute(rest, n, base);
    Multiple(rest - n, base);
  }

  function Power(base: nat, n: nat): nat {
    if n == 0 then 1 else Power(base, n - 1) * base
  }

  lemma {:induction false} NumberFits(digits: seq<nat>, base: nat)
    requires forall i :: 0 <= i < |digits| ==> digits[i] < base
    ensures Number(digits, base) < Power(base, |digits|)
  {
    if digits != [] {
      var front := digits[..|digits| - 1];
      NumberFits(front, base);
      DigitFits(Number(front, base), digits[|digits| - 1], Power(base, |front|), base);
    }
  }

  lemma Twice(x: nat, y: nat)
    ensures 2 * (x * y) == (2 * x) * y == y * (2 * x)
  {
  }

  lemma {:induction false} Pow2Adds(a: nat, b: nat)
    ensures Pow2(a + b) == Pow2(a) * Pow2(b)
  {
    if a > 0 {
      Pow2Adds(a - 1, b);
      Twice(Pow2(a - 1), Pow2(b));
    }
  }

  lemma Pow2Small()
    ensures Pow2(0) == 1 && Pow2(8) == 0x100 && Pow2(16) == 0x1_0000 && Pow2(17) == 0x2_0000
    ensures Pow2(20) == 0x10_0000 && Pow2(22) == 0x40_0000 && Pow2(24) == 0x100_0000 && Pow2(28) == 0x1000_0000
  {
    assert Pow2(4) == 0x10;
    Pow2Adds(4, 4);
    Pow2Adds(8, 8);
    assert Pow2(17) == 2 * Pow2(16) && Pow2(18) == 2 * Pow2(17);
    Pow2Adds(16, 4);
    Pow2Adds(18, 4);
    Pow2Adds(20, 4);
    Pow2Adds(24, 4);
  }

  lemma Pow2Next(n: nat)
    ensures Pow2(n + 1) == 2 * Pow2(n)
  {
  }

  lemma Pow2Wide()
    ensures Pow2(32) == 0x1_0000_0000 && Pow2(64) == 0x1_0000_0000_0000_0000
    ensures Pow2(80) == 0x1_0000_0000_0000_0000_0000 && Pow2(96) == 0x1_0000_0000_0000_0000_0000_0000
    ensures Pow2(118) == 0x40_0000_0000_0000_0000_0000_0000_0000
    ensures Pow2(120) == 0x100_0000_0000_0000_0000_0000_0000_0000
    ensures Pow2(121) == 0x200_0000_0000_0000_0000_0000_0000_0000
    ensures Pow2(125) == 0x2000_0000_0000_0000_0000_0000_0000_0000
    ensures Pow2(128) == 0x1_0000_0000_0000_0000_0000_0000_0000_0000
  {
    hide Pow2;
    Pow2Small();
    Pow2Adds(16, 16);
    Pow2Adds(32, 32);
    Pow2Adds(64, 16);
    Pow2Adds(64, 32);
    Pow2Adds(96, 22);
    Pow2Adds(96, 24);
    Pow2Next(120);
    Pow2Next(121);
    Pow2Next(122);
    Pow2Next(123);
    Pow2Next(124);
    Pow2Adds(64, 64);
  }

  lemma ValueFits(ip: IpAddr)
    ensures Value(ip) < Pow2(Width(ip))
  {
    hide Pow2, Number;
    Pow2Wide();
    match ip
    case V4(a) =>
      NumberFits(a, 0x100);
      assert Power(0x100, 4) == 0x1_0000_0000;
    case V6(s) =>
      NumberFits(s, 0x1_0000);
      assert Power(0x1_0000, 4) == 0x1_0000_0000_0000_0000;
      assert Power(0x1_0000, 8) == 0x1_0000_0000_0000_0000_0000_0000_0000_0000;
  }

  /** The first address of a network. */
  function NetStart(net: IpAddr, prefix: nat): nat
    requires prefix <= Width(net)
  {
    Raised(HighBits(Value(net), Width(net) - prefix), Width(net) - prefix)
  }

  lemma InNetHighBits(ip: IpAddr, net: IpAddr, prefix: nat)
    requires net.V4? == ip.V4? && prefix <= Width(ip)
    ensures var k := Width(ip) - prefix; InNet(ip, net, prefix) <==> HighBits(Value(ip), k) == HighBits(Value(net), k)
  {
    hide Value, Mask, Pow2, And;
    ValueFits(ip);
    ValueFits(net);
    MaskIsOnes(Width(ip), prefix);
    SameHighBits(Value(ip), Value(net), prefix, Width(ip) - prefix);
  }

  /** For every address and prefix length: the mask test is membership in an interval. */
  lemma MaskTestIsInterval(ip: IpAddr, net: IpAddr, prefix: nat)
    requires net.V4? == ip.V4? && prefix <= Width(ip)
    ensures InNet(ip, net, prefix) <==>
            NetStart(net, prefix) <= Value(ip) < NetStart(net, prefix) + Pow2(Width(ip) - prefix)
    ensures NetStart(net, prefix) <= Value(net) < NetStart(net, prefix) + Pow2(Width(ip) - prefix)
  {
    hide Value, Mask, Pow2, And, InNet;
    InNetHighBits(ip, net, prefix);
    var k := Width(ip) - prefix;
    HighBitsAreBetween(Value(ip), k, HighBits(Value(net), k));
    HighBitsAreBetween(Value(net), k, HighBits(Value(net), k));
  }

  // ---------------------------------------------------------------- first match, longest prefix

  lemma {:induction false} HighBitsAgain(a: nat, j: nat, k: nat)
    ensures HighBits(a, j + k) == HighBits(HighBits(a, j), k)
    decreases j
  {
    if j > 0 {
      HighBitsAgain(a / 2, j - 1, k);
    }
  }

  /** A row's network as its high bits. */
  function Bits(row: Row, prefix: nat): nat
    requires prefix <= Width(row.net)
  {
    HighBits(Value(row.net), Width(row.net) - prefix)
  }

  /** A later row with as long a prefix or longer is outside the earlier one, or of its class. */
  ghost predicate LongestFirst(rows: seq<Row>) {
    && (forall i :: 0 <= i < |rows| ==> rows[i].prefix <= Width(rows[i].net) && rows[i].net.V4? == rows[0].net.V4?)
    && (forall i, j :: 0 <= i < j < |rows| && rows[i].prefix <= rows[j].prefix ==>
          rows[i].kind == rows[j].kind || Bits(rows[i], rows[i].prefix) != Bits(rows[j], rows[i].prefix))
  }

  ghost predicate Matches(ip: IpAddr, row: Row) {
    FitsRow(ip, row) && InNet(ip, row.net, row.prefix)
  }

  /** `row` is a match no other match is longer than. */
  ghost predicate Longest(ip: IpAddr, rows: seq<Row>, m: nat) {
    && m < |rows| && Matches(ip, rows[m])
    && forall i :: 0 <= i < |rows| && Matches(ip, rows[i]) ==> rows[i].prefix <= rows[m].prefix
  }

  lemma {:induction false} FirstIs(ip: IpAddr, rows: seq<Row>, otherwise: AddressClass) returns (first: nat)
    requires forall i :: 0 <= i < |rows| ==> FitsRow(ip, rows[i])
    ensures first <= |rows| && forall i :: 0 <= i < first ==> !Matches(ip, rows[i])
    ensures first < |rows| ==> Matches(ip, rows[first]) && FirstMatch(ip, rows, otherwise) == rows[first].kind
    ensures first == |rows| ==> FirstMatch(ip, rows, otherwise) == otherwise
  {
    hide InNet;
    if rows == [] {
      return 0;
    }
    assert FitsRow(ip, rows[0]);
    if InNet(ip, rows[0].net, rows[0].prefix) {
      return 0;
    }
    var rest := FirstIs(ip, rows[1..], otherwise);
    first := rest + 1;
    forall i | 0 <= i < first ensures !Matches(ip, rows[i]) {
      if i > 0 {
        assert rows[i] == rows[1..][i - 1];
      }
    }
  }

  /** Two rows that hold one address agree on the shorter prefix. */
  lemma BothHold(ip: IpAddr, a: Row, b: Row)
    requires Matches(ip, a) && Matches(ip, b) && a.prefix <= b.prefix
    ensures Bits(a, a.prefix) == Bits(b, a.prefix)
  {
    hide InNet, Value, HighBits;
    InNetHighBits(ip, a.net, a.prefix);
    InNetHighBits(ip, b.net, b.prefix);
    var w := Width(ip);
    HighBitsAgain(Value(ip), w - b.prefix, b.prefix - a.prefix);
    HighBitsAgain(Value(b.net), w - b.prefix, b.prefix - a.prefix);
  }

  lemma FirstIsLongest(ip: IpAddr, rows: seq<Row>, otherwise: AddressClass, m: nat)
    requires forall i :: 0 <= i < |rows| ==> FitsRow(ip, rows[i])
    requires LongestFirst(rows) && Longest(ip, rows, m)
    ensures FirstMatch(ip, rows, otherwise) == rows[m].kind
  {
    hide FirstMatch, Matches, Bits;
    var first := FirstIs(ip, rows, otherwise);
    assert first <= m;
    if first < m {
      BothHold(ip, rows[first], rows[m]);
    }
  }

  lemma {:induction false} RaisedIs(a: nat, k: nat)
    ensures Raised(a, k) == a * Pow2(k)
  {
    if k > 0 {
      RaisedIs(a, k - 1);
      Twice(Pow2(k - 1), a);
    }
  }

  /** For a network that starts at a multiple of its size, sharing its high bits is lying in it. */
  lemma SharesBits(row: Row, other: Row, h: nat)
    requires row.prefix <= Width(row.net) && other.net.V4? == row.net.V4?
    requires Value(row.net) == h * Pow2(Width(row.net) - row.prefix)
    ensures Bits(row, row.prefix) == Bits(other, row.prefix) <==>
            Value(row.net) <= Value(other.net) < Value(row.net) + Pow2(Width(row.net) - row.prefix)
  {
    hide Value, Pow2;
    var k := Width(row.net) - row.prefix;
    RaisedIs(h, k);
    HighBitsAreBetween(Value(row.net), k, h);
    HighBitsAreBetween(Value(other.net), k, h);
  }

  lemma Number4(a: nat, b: nat, c: nat, d: nat)
    ensures Number([a, b, c, d], 0x100) == a * 0x100_0000 + b * 0x1_0000 + c * 0x100 + d
  {
    hide Number;
    NumberOfNone(0x100);
    NumberJoin([], a, 0x100);
    NumberJoin([a], b, 0x100);
    NumberJoin([a, b], c, 0x100);
    NumberJoin([a, b, c], d, 0x100);
    assert [] + [a] == [a] && [a] + [b] == [a, b] && [a, b] + [c] == [a, b, c] && [a, b, c] + [d] == [a, b, c, d];
  }

  lemma NumberJoin(front: seq<nat>, last: nat, base: nat)
    ensures Number(front + [last], base) == Number(front, base) * base + last
  {
    assert (front + [last])[..|front|] == front;
  }

  lemma Number8(a: nat, b: nat, c: nat, d: nat, e: nat, f: nat, g: nat, h: nat)
    ensures Number([a, b, c, d, e, f, g, h], 0x1_0000) ==
            a * 0x1_0000_0000_0000_0000_0000_0000_0000 + b * 0x1_0000_0000_0000_0000_0000_0000
            + c * 0x1_0000_0000_0000_0000_0000 + d * 0x1_0000_0000_0000_0000
            + e * 0x1_0000_0000_0000 + f * 0x1_0000_0000 + g * 0x1_0000 + h
  {
    hide Number;
    NumberOfNone(0x1_0000);
    NumberJoin([], a, 0x1_0000);
    NumberJoin([a], b, 0x1_0000);
    NumberJoin([a, b], c, 0x1_0000);
    NumberJoin([a, b, c], d, 0x1_0000);
    NumberJoin([a, b, c, d], e, 0x1_0000);
    NumberJoin([a, b, c, d, e], f, 0x1_0000);
    NumberJoin([a, b, c, d, e, f], g, 0x1_0000);
    NumberJoin([a, b, c, d, e, f, g], h, 0x1_0000);
    assert [] + [a] == [a] && [a] + [b] == [a, b] && [a, b] + [c] == [a, b, c] && [a, b, c] + [d] == [a, b, c, d];
    assert [a, b, c, d] + [e] == [a, b, c, d, e] && [a, b, c, d, e] + [f] == [a, b, c, d, e, f];
    assert [a, b, c, d, e, f] + [g] == [a, b, c, d, e, f, g];
    assert [a, b, c, d, e, f, g] + [h] == [a, b, c, d, e, f, g, h];
  }

  lemma NumberOfNone(base: nat)
    ensures Number([], base) == 0
  {
  }

  /** Where each network starts, and how many addresses it holds. */
  function SpansV4(): seq<(nat, nat)> {
    [ (0x0000_0000, 0x100_0000), (0x0A00_0000, 0x100_0000), (0x6440_0000, 0x40_0000), (0x7F00_0000, 0x100_0000),
      (0xA9FE_0000, 0x1_0000), (0xAC10_0000, 0x10_0000), (0xC000_0000, 0x100), (0xC000_0200, 0x100),
      (0xC058_6300, 0x100), (0xC0A8_0000, 0x1_0000), (0xC612_0000, 0x2_0000), (0xC633_6400, 0x100),
      (0xCB00_7100, 0x100), (0xE000_0000, 0x1000_0000), (0xF000_0000, 0x1000_0000), (0xFFFF_FFFF, 1)]
  }

  function SpansV6(): seq<(nat, nat)> {
    [ (0, 1), (1, 1), (0, 0x1_0000_0000),
      (0x0064_FF9B_0001_0000_0000_0000_0000_0000, 0x1_0000_0000_0000_0000_0000),
      (0x0100_0000_0000_0000_0000_0000_0000_0000, 0x1_0000_0000_0000_0000),
      (0x2001_0DB8_0000_0000_0000_0000_0000_0000, 0x1_0000_0000_0000_0000_0000_0000),
      (0x2001_0000_0000_0000_0000_0000_0000_0000, 0x1_0000_0000_0000_0000_0000_0000),
      (0x2000_0000_0000_0000_0000_0000_0000_0000, 0x2000_0000_0000_0000_0000_0000_0000_0000),
      (0xFC00_0000_0000_0000_0000_0000_0000_0000, 0x0200_0000_0000_0000_0000_0000_0000_0000),
      (0xFE80_0000_0000_0000_0000_0000_0000_0000, 0x0040_0000_0000_0000_0000_0000_0000_0000),
      (0xFEC0_0000_0000_0000_0000_0000_0000_0000, 0x0040_0000_0000_0000_0000_0000_0000_0000),
      (0xFF00_0000_0000_0000_0000_0000_0000_0000, 0x0100_0000_0000_0000_0000_0000_0000_0000)]
  }

  /** A row, its first address and its size. */
  ghost predicate Spans(row: Row, span: (nat, nat)) {
    && row.prefix <= Width(row.net)
    && Value(row.net) == span.0 && Pow2(Width(row.net) - row.prefix) == span.1
    && span.0 == (span.0 / span.1) * span.1
  }

  predicate InSpan(start: nat, span: (nat, nat)) {
    span.0 <= start < span.0 + span.1
  }

  lemma SpanV4(i: nat)
    requires i < |TableV4()|
    ensures i < |SpansV4()| && TableV4()[i].net.V4? && Spans(TableV4()[i], SpansV4()[i])
  {
    hide Pow2, Number;
    var a := TableV4()[i].net.octets;
    Number4(a[0], a[1], a[2], a[3]);
    assert a == [a[0], a[1], a[2], a[3]];
    Pow2Small();
  }

  lemma SpanV6(i: nat)
    requires i < |TableV6()|
    ensures i < |SpansV6()| && TableV6()[i].net.V6? && Spans(TableV6()[i], SpansV6()[i])
  {
    hide Pow2, Number;
    var s := TableV6()[i].net.segments;
    Number8(s[0], s[1], s[2], s[3], s[4], s[5], s[6], s[7]);
    assert s == [s[0], s[1], s[2], s[3], s[4], s[5], s[6], s[7]];
    Pow2Small();
    Pow2Wide();
  }

  lemma ApartV4(i: nat, j: nat)
    requires i < j < |TableV4()| && TableV4()[i].prefix <= TableV4()[j].prefix
    ensures j < |SpansV4()| && (TableV4()[i].kind == TableV4()[j].kind || !InSpan(SpansV4()[j].0, SpansV4()[i]))
  {
  }

  lemma ApartV6(i: nat, j: nat)
    requires i < j < |TableV6()| && TableV6()[i].prefix <= TableV6()[j].prefix
    ensures j < |SpansV6()| && (TableV6()[i].kind == TableV6()[j].kind || !InSpan(SpansV6()[j].0, SpansV6()[i]))
  {
  }

  lemma TableV4Ordered()
    ensures LongestFirst(TableV4())
  {
    hide Value, Pow2, Bits, TableV4, SpansV4;
    forall i: nat | i < |TableV4()| ensures TableV4()[i].net.V4? && TableV4()[i].prefix <= 32 {
      SpanV4(i);
    }
    forall i: nat, j: nat | i < j < |TableV4()| && TableV4()[i].prefix <= TableV4()[j].prefix
      ensures TableV4()[i].kind == TableV4()[j].kind
              || Bits(TableV4()[i], TableV4()[i].prefix) != Bits(TableV4()[j], TableV4()[i].prefix)
    {
      SpanV4(i);
      SpanV4(j);
      ApartV4(i, j);
      SharesBits(TableV4()[i], TableV4()[j], SpansV4()[i].0 / SpansV4()[i].1);
    }
  }

  lemma TableV6Ordered()
    ensures LongestFirst(TableV6())
  {
    hide Value, Pow2, Bits, TableV6, SpansV6;
    forall i: nat | i < |TableV6()| ensures TableV6()[i].net.V6? && TableV6()[i].prefix <= 128 {
      SpanV6(i);
    }
    forall i: nat, j: nat | i < j < |TableV6()| && TableV6()[i].prefix <= TableV6()[j].prefix
      ensures TableV6()[i].kind == TableV6()[j].kind
              || Bits(TableV6()[i], TableV6()[i].prefix) != Bits(TableV6()[j], TableV6()[i].prefix)
    {
      SpanV6(i);
      SpanV6(j);
      ApartV6(i, j);
      SharesBits(TableV6()[i], TableV6()[j], SpansV6()[i].0 / SpansV6()[i].1);
    }
  }

  /** For every IPv4 and IPv6 address: the first match decides as the longest prefix does, and
      an address in no network is public or reserved. */
  lemma FirstMatchIsLongestPrefix(ip: IpAddr, m: nat)
    ensures Longest(ip, TableFor(ip), m) ==> ClassifyPlain(ip) == TableFor(ip)[m].kind
    ensures (forall i :: 0 <= i < |TableFor(ip)| ==> !Matches(ip, TableFor(ip)[i])) ==>
              ClassifyPlain(ip) == if ip.V4? then Public else Forbidden(Reserved)
  {
    hide TableV4, TableV6, Matches, LongestFirst, FirstMatch;
    TableV4Ordered();
    TableV6Ordered();
    var otherwise := if ip.V4? then Public else Forbidden(Reserved);
    if Longest(ip, TableFor(ip), m) {
      FirstIsLongest(ip, TableFor(ip), otherwise, m);
    }
    var first := FirstIs(ip, TableFor(ip), otherwise);
  }

  // ---------------------------------------------------------------- what the tables say

  /** The class of an IPv4 address, by its octets. */
  function OfOctets(a: Octets): AddressClass {
    if a[0] == 0 then Forbidden(ThisNetwork)
    else if a[0] == 10 || (a[0] == 172 && 16 <= a[1] < 32) || (a[0] == 192 && a[1] == 168) then Private(Rfc1918)
    else if a[0] == 100 && 64 <= a[1] < 128 then Private(Shared)
    else if a[0] == 127 then Private(Loopback)
    else if a[0] == 169 && a[1] == 254 then Private(LinkLocal)
    else if a[0] == 192 && a[1] == 0 && a[2] == 0 then Forbidden(IetfProtocol)
    else if (a[0] == 192 && a[1] == 0 && a[2] == 2) || (a[0] == 198 && a[1] == 51 && a[2] == 100)
            || (a[0] == 203 && a[1] == 0 && a[2] == 113)
    then Forbidden(Documentation)
    else if a[0] == 198 && 18 <= a[1] < 20 then Forbidden(Benchmarking)
    else if 224 <= a[0] < 240 then Forbidden(Multicast)
    else if a[0] >= 240 || (a[0] == 192 && a[1] == 88 && a[2] == 99) then Forbidden(Reserved)
    else Public
  }

  /** The class of an IPv6 address that carries no IPv4 address, by its segments. */
  function OfSegments(s: Segments): AddressClass {
    var low := s[0] == 0 && s[1] == 0 && s[2] == 0 && s[3] == 0 && s[4] == 0 && s[5] == 0;
    if low && s[6] == 0 && s[7] == 0 then Forbidden(Unspecified)
    else if low && s[6] == 0 && s[7] == 1 then Private(Loopback)
    else if low then Forbidden(Ipv4Compatible)
    else if s[0] == 0x100 && s[1] == 0 && s[2] == 0 && s[3] == 0 then Forbidden(Discard)
    else if s[0] == 0x2001 && s[1] == 0xdb8 then Forbidden(Documentation)
    else if s[0] == 0x2001 && s[1] == 0 then Forbidden(Teredo)
    else if 0x2000 <= s[0] < 0x4000 then Public
    else if 0xfc00 <= s[0] < 0xfe00 then Private(UniqueLocal)
    else if 0xfe80 <= s[0] < 0xfec0 then Private(LinkLocal)
    else if 0xfec0 <= s[0] < 0xff00 then Private(SiteLocal)
    else if 0xff00 <= s[0] then Forbidden(Multicast)
    else Forbidden(Reserved)
  }

  /** A row holds the addresses of its span. */
  lemma RowIsSpan(ip: IpAddr, row: Row, span: (nat, nat))
    requires row.net.V4? == ip.V4? && Spans(row, span)
    ensures Matches(ip, row) <==> InSpan(Value(ip), span)
  {
    hide Value, Pow2, InNet, Raised, HighBits;
    var k := Width(ip) - row.prefix;
    MaskTestIsInterval(ip, row.net, row.prefix);
    HighBitsAreBetween(Value(row.net), k, span.0 / span.1);
    RaisedIs(span.0 / span.1, k);
  }

  /** The addresses of each row of the IPv4 table, by their octets. */
  predicate RowHasOctets(a: Octets, i: nat) {
    match i
    case 0 => a[0] == 0
    case 1 => a[0] == 10
    case 2 => a[0] == 100 && 64 <= a[1] < 128
    case 3 => a[0] == 127
    case 4 => a[0] == 169 && a[1] == 254
    case 5 => a[0] == 172 && 16 <= a[1] < 32
    case 6 => a[0] == 192 && a[1] == 0 && a[2] == 0
    case 7 => a[0] == 192 && a[1] == 0 && a[2] == 2
    case 8 => a[0] == 192 && a[1] == 88 && a[2] == 99
    case 9 => a[0] == 192 && a[1] == 168
    case 10 => a[0] == 198 && 18 <= a[1] < 20
    case 11 => a[0] == 198 && a[1] == 51 && a[2] == 100
    case 12 => a[0] == 203 && a[1] == 0 && a[2] == 113
    case 13 => 224 <= a[0] < 240
    case 14 => 240 <= a[0]
    case _ => a[0] == 255 && a[1] == 255 && a[2] == 255 && a[3] == 255
  }

  /** The addresses of each row of the IPv6 table, by their segments. */
  predicate RowHasSegments(s: Segments, i: nat) {
    match i
    case 0 => s[0] == 0 && s[1] == 0 && s[2] == 0 && s[3] == 0 && s[4] == 0 && s[5] == 0 && s[6] == 0 && s[7] == 0
    case 1 => s[0] == 0 && s[1] == 0 && s[2] == 0 && s[3] == 0 && s[4] == 0 && s[5] == 0 && s[6] == 0 && s[7] == 1
    case 2 => s[0] == 0 && s[1] == 0 && s[2] == 0 && s[3] == 0 && s[4] == 0 && s[5] == 0
    case 3 => s[0] == 0x64 && s[1] == 0xff9b && s[2] == 1
    case 4 => s[0] == 0x100 && s[1] == 0 && s[2] == 0 && s[3] == 0
    case 5 => s[0] == 0x2001 && s[1] == 0xdb8
    case 6 => s[0] == 0x2001 && s[1] == 0
    case 7 => 0x2000 <= s[0] < 0x4000
    case 8 => 0xfc00 <= s[0] < 0xfe00
    case 9 => 0xfe80 <= s[0] < 0xfec0
    case 10 => 0xfec0 <= s[0] < 0xff00
    case _ => 0xff00 <= s[0]
  }

  lemma ValueOfOctets(a: Octets)
    ensures var n: seq<nat> := a; Value(V4(a)) == n[0] * 0x100_0000 + n[1] * 0x1_0000 + n[2] * 0x100 + n[3]
  {
    hide Number;
    Number4(a[0], a[1], a[2], a[3]);
    assert a == [a[0], a[1], a[2], a[3]];
  }

  lemma OctetsInSpan(a: Octets, i: nat)
    requires i < |SpansV4()|
    ensures InSpan(Value(V4(a)), SpansV4()[i]) <==> RowHasOctets(a, i)
  {
    hide Value;
    ValueOfOctets(a);
  }

  lemma ValueOfSegments(s: Segments)
    ensures var n: seq<nat> := s;
            Value(V6(s)) ==
            n[0] * 0x1_0000_0000_0000_0000_0000_0000_0000 + n[1] * 0x1_0000_0000_0000_0000_0000_0000
            + n[2] * 0x1_0000_0000_0000_0000_0000 + n[3] * 0x1_0000_0000_0000_0000
            + n[4] * 0x1_0000_0000_0000 + n[5] * 0x1_0000_0000 + n[6] * 0x1_0000 + n[7]
  {
    hide Number;
    Number8(s[0], s[1], s[2], s[3], s[4], s[5], s[6], s[7]);
    assert s == [s[0], s[1], s[2], s[3], s[4], s[5], s[6], s[7]];
  }

  /** What lies between multiples of `b` is told by the multiple. */
  lemma Between(h: nat, r: nat, b: nat, c: nat, d: nat)
    requires r < b
    ensures c * b <= h * b + r < d * b <==> c <= h < d
  {
    if h < c {
      Multiples(h + 1, c, b);
    } else {
      Multiples(c, h, b);
    }
    if h < d {
      Multiples(h + 1, d, b);
    } else {
      Multiples(d, h, b);
    }
  }

  lemma Multiples(x: nat, y: nat, b: nat)
    requires x <= y
    ensures x * b <= y * b
  {
  }

  lemma First1(s: Segments, c: nat, d: nat)
    ensures var n: seq<nat> := s;
            c * 0x1_0000_0000_0000_0000_0000_0000_0000 <= Value(V6(s)) < d * 0x1_0000_0000_0000_0000_0000_0000_0000
            <==> c <= n[0] < d
  {
    hide Value;
    var n: seq<nat> := s;
    ValueOfSegments(s);
    var h: nat := n[0];
    var r: nat := n[1] * 0x1_0000_0000_0000_0000_0000_0000 + n[2] * 0x1_0000_0000_0000_0000_0000
                  + n[3] * 0x1_0000_0000_0000_0000 + n[4] * 0x1_0000_0000_0000 + n[5] * 0x1_0000_0000
                  + n[6] * 0x1_0000 + n[7];
    assert Value(V6(s)) == h * 0x1_0000_0000_0000_0000_0000_0000_0000 + r;
    Between(h, r, 0x1_0000_0000_0000_0000_0000_0000_0000, c, d);
  }

  lemma First2(s: Segments, c: nat, d: nat)
    ensures var n: seq<nat> := s;
            c * 0x1_0000_0000_0000_0000_0000_0000 <= Value(V6(s)) < d * 0x1_0000_0000_0000_0000_0000_0000
            <==> c <= n[0] * 0x1_0000 + n[1] < d
  {
    hide Value;
    var n: seq<nat> := s;
    ValueOfSegments(s);
    var h: nat := n[0] * 0x1_0000 + n[1];
    var r: nat := n[2] * 0x1_0000_0000_0000_0000_0000 + n[3] * 0x1_0000_0000_0000_0000
                  + n[4] * 0x1_0000_0000_0000 + n[5] * 0x1_0000_0000 + n[6] * 0x1_0000 + n[7];
    assert Value(V6(s)) == h * 0x1_0000_0000_0000_0000_0000_0000 + r;
    Between(h, r, 0x1_0000_0000_0000_0000_0000_0000, c, d);
  }

  lemma First3(s: Segments, c: nat, d: nat)
    ensures var n: seq<nat> := s;
            c * 0x1_0000_0000_0000_0000_0000 <= Value(V6(s)) < d * 0x1_0000_0000_0000_0000_0000
            <==> c <= n[0] * 0x1_0000_0000 + n[1] * 0x1_0000 + n[2] < d
  {
    hide Value;
    var n: seq<nat> := s;
    ValueOfSegments(s);
    var h: nat := n[0] * 0x1_0000_0000 + n[1] * 0x1_0000 + n[2];
    var r: nat := n[3] * 0x1_0000_0000_0000_0000 + n[4] * 0x1_0000_0000_0000 + n[5] * 0x1_0000_0000
                  + n[6] * 0x1_0000 + n[7];
    assert Value(V6(s)) == h * 0x1_0000_0000_0000_0000_0000 + r;
    Between(h, r, 0x1_0000_0000_0000_0000_0000, c, d);
  }

  lemma First4(s: Segments, c: nat, d: nat)
    ensures var n: seq<nat> := s;
            c * 0x1_0000_0000_0000_0000 <= Value(V6(s)) < d * 0x1_0000_0000_0000_0000
            <==> c <= n[0] * 0x1_0000_0000_0000 + n[1] * 0x1_0000_0000 + n[2] * 0x1_0000 + n[3] < d
  {
    hide Value;
    var n: seq<nat> := s;
    ValueOfSegments(s);
    var h: nat := n[0] * 0x1_0000_0000_0000 + n[1] * 0x1_0000_0000 + n[2] * 0x1_0000 + n[3];
    var r: nat := n[4] * 0x1_0000_0000_0000 + n[5] * 0x1_0000_0000 + n[6] * 0x1_0000 + n[7];
    assert Value(V6(s)) == h * 0x1_0000_0000_0000_0000 + r;
    Between(h, r, 0x1_0000_0000_0000_0000, c, d);
  }

  lemma First6(s: Segments, c: nat, d: nat)
    ensures var n: seq<nat> := s;
            c * 0x1_0000_0000 <= Value(V6(s)) < d * 0x1_0000_0000
            <==> c <= n[0] * 0x1_0000_0000_0000_0000_0000 + n[1] * 0x1_0000_0000_0000_0000 + n[2] * 0x1_0000_0000_0000
                      + n[3] * 0x1_0000_0000 + n[4] * 0x1_0000 + n[5] < d
  {
    hide Value;
    var n: seq<nat> := s;
    ValueOfSegments(s);
    var h: nat := n[0] * 0x1_0000_0000_0000_0000_0000 + n[1] * 0x1_0000_0000_0000_0000
                  + n[2] * 0x1_0000_0000_0000 + n[3] * 0x1_0000_0000 + n[4] * 0x1_0000 + n[5];
    var r: nat := n[6] * 0x1_0000 + n[7];
    assert Value(V6(s)) == h * 0x1_0000_0000 + r;
    Between(h, r, 0x1_0000_0000, c, d);
  }

  lemma SegmentsInSpan(s: Segments, i: nat)
    requires i < |SpansV6()|
    ensures InSpan(Value(V6(s)), SpansV6()[i]) <==> RowHasSegments(s, i)
  {
    hide Value;
    match i
    case 0 => ValueOfSegments(s);
    case 1 => ValueOfSegments(s);
    case 2 => First6(s, 0, 1);
    case 3 => First3(s, 0x64_FF9B_0001, 0x64_FF9B_0002);
    case 4 => First4(s, 0x0100_0000_0000_0000, 0x0100_0000_0000_0001);
    case 5 => First2(s, 0x2001_0DB8, 0x2001_0DB9);
    case 6 => First2(s, 0x2001_0000, 0x2001_0001);
    case 7 => First1(s, 0x2000, 0x4000);
    case 8 => First1(s, 0xFC00, 0xFE00);
    case 9 => First1(s, 0xFE80, 0xFEC0);
    case 10 => First1(s, 0xFEC0, 0xFF00);
    case _ => First1(s, 0xFF00, 0x1_0000);
  }

  lemma Sizes()
    ensures |TableV4()| == |SpansV4()| == 16 && |TableV6()| == |SpansV6()| == 12
  {
  }

  lemma OctetsMatch(a: Octets, i: nat)
    requires i < |TableV4()|
    ensures Matches(V4(a), TableV4()[i]) <==> RowHasOctets(a, i)
  {
    hide Value, Matches, InSpan, Spans, TableV4, SpansV4, RowHasOctets;
    Sizes();
    SpanV4(i);
    RowIsSpan(V4(a), TableV4()[i], SpansV4()[i]);
    OctetsInSpan(a, i);
  }

  lemma SegmentsMatch(s: Segments, i: nat)
    requires i < |TableV6()|
    ensures Matches(V6(s), TableV6()[i]) <==> RowHasSegments(s, i)
  {
    hide Value, Matches, InSpan, Spans, TableV6, SpansV6, RowHasSegments;
    Sizes();
    SpanV6(i);
    RowIsSpan(V6(s), TableV6()[i], SpansV6()[i]);
    SegmentsInSpan(s, i);
  }

  /** The first row that has an address gives its class. */
  lemma FirstRowOf(ip: IpAddr) returns (k: nat)
    requires ip.V6? ==> EmbeddedV4(ip.segments).None?
    ensures k <= |TableFor(ip)|
    ensures Classify(ip) ==
            if k < |TableFor(ip)| then TableFor(ip)[k].kind else if ip.V4? then Public else Forbidden(Reserved)
    ensures forall i: nat :: i < k ==> !Matches(ip, TableFor(ip)[i])
    ensures k < |TableFor(ip)| ==> Matches(ip, TableFor(ip)[k])
  {
    hide Value, Matches, FirstMatch, EmbeddedV4, TableV4, TableV6;
    k := FirstIs(ip, TableFor(ip), if ip.V4? then Public else Forbidden(Reserved));
  }

  lemma OctetsClass(a: Octets, k: nat)
    requires k <= 16 && (forall i: nat :: i < k ==> !RowHasOctets(a, i)) && (k < 16 ==> RowHasOctets(a, k))
    ensures k < |TableV4()| || k == 16
    ensures OfOctets(a) == if k < |TableV4()| then TableV4()[k].kind else Public
  {
    assert 0 < k ==> !RowHasOctets(a, 0);
    assert 1 < k ==> !RowHasOctets(a, 1);
    assert 2 < k ==> !RowHasOctets(a, 2);
    assert 3 < k ==> !RowHasOctets(a, 3);
    assert 4 < k ==> !RowHasOctets(a, 4);
    assert 5 < k ==> !RowHasOctets(a, 5);
    assert 6 < k ==> !RowHasOctets(a, 6);
    assert 7 < k ==> !RowHasOctets(a, 7);
    assert 8 < k ==> !RowHasOctets(a, 8);
    assert 9 < k ==> !RowHasOctets(a, 9);
    assert 10 < k ==> !RowHasOctets(a, 10);
    assert 11 < k ==> !RowHasOctets(a, 11);
    assert 12 < k ==> !RowHasOctets(a, 12);
    assert 13 < k ==> !RowHasOctets(a, 13);
    assert 14 < k ==> !RowHasOctets(a, 14);
    assert 15 < k ==> !RowHasOctets(a, 15);
  }

  lemma SegmentsClass(s: Segments, k: nat)
    requires k <= 12 && (forall i: nat :: i < k ==> !RowHasSegments(s, i)) && (k < 12 ==> RowHasSegments(s, k))
    ensures k < |TableV6()| || k == 12
    ensures OfSegments(s) == if k < |TableV6()| then TableV6()[k].kind else Forbidden(Reserved)
  {
    assert 0 < k ==> !RowHasSegments(s, 0);
    assert 1 < k ==> !RowHasSegments(s, 1);
    assert 2 < k ==> !RowHasSegments(s, 2);
    assert 3 < k ==> !RowHasSegments(s, 3);
    assert 4 < k ==> !RowHasSegments(s, 4);
    assert 5 < k ==> !RowHasSegments(s, 5);
    assert 6 < k ==> !RowHasSegments(s, 6);
    assert 7 < k ==> !RowHasSegments(s, 7);
    assert 8 < k ==> !RowHasSegments(s, 8);
    assert 9 < k ==> !RowHasSegments(s, 9);
    assert 10 < k ==> !RowHasSegments(s, 10);
    assert 11 < k ==> !RowHasSegments(s, 11);
  }

  /** Every IPv4 address is of the class its octets say. */
  lemma OctetsDecide(a: Octets)
    ensures Classify(V4(a)) == OfOctets(a)
  {
    hide Value, Matches, TableV4, RowHasOctets, Classify, OfOctets;
    Sizes();
    var k := FirstRowOf(V4(a));
    forall i: nat | i < 16 ensures Matches(V4(a), TableV4()[i]) <==> RowHasOctets(a, i) {
      OctetsMatch(a, i);
    }
    OctetsClass(a, k);
  }

  /** Every IPv6 address that carries no IPv4 address is of the class its segments say. */
  lemma SegmentsDecide(s: Segments)
    requires EmbeddedV4(s).None?
    ensures Classify(V6(s)) == OfSegments(s)
  {
    hide Value, Matches, TableV6, RowHasSegments, Classify, OfSegments, EmbeddedV4;
    Sizes();
    var k := FirstRowOf(V6(s));
    forall i: nat | i < 12 ensures Matches(V6(s), TableV6()[i]) <==> RowHasSegments(s, i) {
      SegmentsMatch(s, i);
    }
    SegmentsClass(s, k);
  }
}
