/** `socket_address`: the 28 bytes of a SOCKADDR_INET, its accessors and setters, its comparison, and the mapping
    of IPv4 addresses into IPv6. */
module SocketAddresses {

  type byte = b: int | 0 <= b < 0x100
  type UShort = n: int | 0 <= n < 0x1_0000
  type ULong = n: int | 0 <= n < 0x1_0000_0000

  const AF_INET: UShort := 2
  const AF_INET6: UShort := 23
  const SIZE := 28

  /** Family (host order) in bytes 0 and 1, port (network order) in 2 and 3.  IPv4: address in 4 to 7.  IPv6: flow
      info in 4 to 7, address in 8 to 23, scope id in 24 to 27. */
  type Raw = m: seq<byte> | |m| == SIZE witness seq(SIZE, _ => 0)

  function Family(m: Raw): UShort { (m[0] as int) + 0x100 * (m[1] as int) }

  function Net16(high: byte, low: byte): UShort { 0x100 * high + low }

  function Net32(a: byte, b: byte, c: byte, d: byte): ULong {
    0x1_0000 * (Net16(a, b) as int) + Net16(c, d)
  }

  predicate IsIp(m: Raw) { Family(m) == AF_INET || Family(m) == AF_INET6 }

  function Port(m: Raw): UShort { if IsIp(m) then Net16(m[2], m[3]) else 0 }
  function FlowInfo(m: Raw): ULong { if Family(m) == AF_INET6 then Net32(m[4], m[5], m[6], m[7]) else 0 }
  function ScopeId(m: Raw): ULong { if Family(m) == AF_INET6 then Net32(m[24], m[25], m[26], m[27]) else 0 }
  function InAddr(m: Raw): seq<byte> { m[4..8] }
  function In6Addr(m: Raw): seq<byte> { m[8..24] }

  // ----- lexicographic order -----

  function Sign(a: int, b: int): int { if a < b then -1 else if a == b then 0 else 1 }

  /** `memcmp` on sequences of one length; the sign is all it promises. */
  function Lex(a: seq<int>, b: seq<int>): int {
    if a == [] || b == [] then Sign(|a|, |b|)
    else if a[0] != b[0] then Sign(a[0], b[0])
    else Lex(a[1..], b[1..])
  }

  lemma {:induction false} LexReverses(a: seq<int>, b: seq<int>)
    ensures Lex(b, a) == -Lex(a, b)
  {
    if a != [] && b != [] && a[0] == b[0] { LexReverses(a[1..], b[1..]); }
  }

  lemma {:induction false} LexZero(a: seq<int>, b: seq<int>)
    ensures Lex(a, b) == 0 <==> a == b
  {
    if a != [] && b != [] {
      if a[0] == b[0] { LexZero(a[1..], b[1..]); }
      assert a == [a[0]] + a[1..] && b == [b[0]] + b[1..];
    }
  }

  lemma {:induction false} LexTransitive(a: seq<int>, b: seq<int>, c: seq<int>)
    requires Lex(a, b) <= 0 && Lex(b, c) <= 0
    ensures Lex(a, c) <= 0
  {
    if a != [] && b != [] && c != [] && a[0] == b[0] == c[0] { LexTransitive(a[1..], b[1..], c[1..]); }
  }

  lemma {:induction false} LexAppend(a: seq<int>, b: seq<int>, p: seq<int>, q: seq<int>)
    requires |a| == |b|
    ensures Lex(a + p, b + q) == if Lex(a, b) != 0 then Lex(a, b) else Lex(p, q)
  {
    if a == [] {
      assert a + p == p && b + q == q;
    } else if a[0] == b[0] {
      assert (a + p)[1..] == a[1..] + p && (b + q)[1..] == b[1..] + q;
      LexAppend(a[1..], b[1..], p, q);
    }
  }

  // ----- compare -----

  /** `socket_address::compare`, branch by branch. */
  function Compare(l: Raw, r: Raw): int {
    if Family(l) != Family(r) then (if Family(l) < Family(r) then -1 else 1)
    else if Family(l) == AF_INET then
      var c := Lex(InAddr(l), InAddr(r));
      if c != 0 then c
      else if Port(l) != Port(r) then (if Port(l) < Port(r) then -1 else 1)
      else 0
    else if Family(l) == AF_INET6 then
      var c := Lex(In6Addr(l), In6Addr(r));
      if c != 0 then c
      else if Port(l) != Port(r) then (if Port(l) < Port(r) then -1 else 1)
      else if ScopeId(l) != ScopeId(r) then (if ScopeId(l) < ScopeId(r) then -1 else 1)
      else if FlowInfo(l) != FlowInfo(r) then (if FlowInfo(l) < FlowInfo(r) then -1 else 1)
      else 0
    else if Lex(l, r) < 0 then 1
    else 0
  }

  /** What an IPv4 or IPv6 address is ordered by. */
  function Key(m: Raw): seq<int>
    requires IsIp(m)
  {
    [Family(m)] + if Family(m) == AF_INET then InAddr(m) + [Port(m)]
                  else In6Addr(m) + [Port(m), ScopeId(m), FlowInfo(m)]
  }

  lemma CompareIsLex(l: Raw, r: Raw)
    requires IsIp(l) && IsIp(r)
    ensures Compare(l, r) == Lex(Key(l), Key(r))
  {
    assert Key(l)[0] == Family(l) && Key(r)[0] == Family(r);
    if Family(l) == Family(r) == AF_INET {
      LexAppend([Family(l)], [Family(r)], InAddr(l) + [Port(l)], InAddr(r) + [Port(r)]);
      LexAppend(InAddr(l), InAddr(r), [Port(l)], [Port(r)]);
    } else if Family(l) == Family(r) {
      var p, q := [Port(l), ScopeId(l), FlowInfo(l)], [Port(r), ScopeId(r), FlowInfo(r)];
      LexAppend([Family(l)], [Family(r)], In6Addr(l) + p, In6Addr(r) + q);
      LexAppend(In6Addr(l), In6Addr(r), p, q);
      LexThree(Port(l), ScopeId(l), FlowInfo(l), Port(r), ScopeId(r), FlowInfo(r));
    }
  }

  lemma LexOne(a: int, x: int)
    ensures Lex([a], [x]) == Sign(a, x)
  {
    assert [a][1..] == [] && [x][1..] == [];
  }

  lemma LexThree(a: int, b: int, c: int, x: int, y: int, z: int)
    ensures Lex([a, b, c], [x, y, z]) == if a != x then Sign(a, x) else if b != y then Sign(b, y) else Sign(c, z)
  {
    LexAppend([a], [x], [b, c], [y, z]);
    LexAppend([b], [y], [c], [z]);
    assert [a] + [b, c] == [a, b, c] && [x] + [y, z] == [x, y, z];
    assert [b] + [c] == [b, c] && [y] + [z] == [y, z];
    LexOne(a, x);
    LexOne(b, y);
    LexOne(c, z);
  }

  /** On IPv4 and IPv6 addresses the comparison is a total order. */
  lemma CompareIsTotalOrder(a: Raw, b: Raw, c: Raw)
    requires IsIp(a) && IsIp(b) && IsIp(c)
    ensures Compare(a, a) == 0
    ensures Compare(b, a) == -Compare(a, b)
    ensures Compare(a, b) <= 0 && Compare(b, c) <= 0 ==> Compare(a, c) <= 0
  {
    CompareIsLex(a, a);
    CompareIsLex(a, b);
    CompareIsLex(b, a);
    CompareIsLex(b, c);
    CompareIsLex(a, c);
    LexReverses(Key(a), Key(b));
    LexZero(Key(a), Key(a));
    if Lex(Key(a), Key(b)) <= 0 && Lex(Key(b), Key(c)) <= 0 { LexTransitive(Key(a), Key(b), Key(c)); }
  }

  /** The fields an address consists of; the padding of an IPv4 address is not one. */
  predicate SameFields(l: Raw, r: Raw) {
    && Family(l) == Family(r) && Port(l) == Port(r)
    && (Family(l) == AF_INET ==> InAddr(l) == InAddr(r))
    && (Family(l) == AF_INET6 ==> In6Addr(l) == In6Addr(r) && ScopeId(l) == ScopeId(r) && FlowInfo(l) == FlowInfo(r))
  }

  lemma {:induction false} LexFirst(a: seq<int>, b: seq<int>, i: nat)
    requires i < |a| && i < |b| && a[..i] == b[..i] && a[i] < b[i]
    ensures Lex(a, b) == -1
  {
    if i > 0 {
      assert a[0] == a[..i][0] == b[..i][0] == b[0];
      assert a[1..][..i - 1] == a[..i][1..] == b[..i][1..] == b[1..][..i - 1];
      LexFirst(a[1..], b[1..], i - 1);
    }
  }

  /** The first difference decides, whatever follows it: the family, the first differing byte of the address, the
      port, and for IPv6 the scope and then the flow. */
  lemma FirstDifferenceDecides(l: Raw, r: Raw, i: nat)
    requires IsIp(l) && IsIp(r)
    ensures Family(l) == 2 && Family(r) == 23 ==> Compare(l, r) == -1
    ensures Family(l) == Family(r) == 2 && i < 4 && l[4..4 + i] == r[4..4 + i] && l[4 + i] < r[4 + i]
            ==> Compare(l, r) == -1
    ensures Family(l) == Family(r) == 2 && l[4..8] == r[4..8] && Port(l) < Port(r) ==> Compare(l, r) == -1
    ensures Family(l) == Family(r) == 23 && i < 16 && l[8..8 + i] == r[8..8 + i] && l[8 + i] < r[8 + i]
            ==> Compare(l, r) == -1
    ensures Family(l) == Family(r) == 23 && l[8..24] == r[8..24] ==>
              && (Port(l) < Port(r) ==> Compare(l, r) == -1)
              && (Port(l) == Port(r) && ScopeId(l) < ScopeId(r) ==> Compare(l, r) == -1)
              && (Port(l) == Port(r) && ScopeId(l) == ScopeId(r) && FlowInfo(l) < FlowInfo(r) ==> Compare(l, r) == -1)
  {
    LexZero(InAddr(l), InAddr(r));
    LexZero(In6Addr(l), In6Addr(r));
    if Family(l) == Family(r) == 2 && i < 4 && l[4..4 + i] == r[4..4 + i] && l[4 + i] < r[4 + i] {
      assert InAddr(l)[..i] == l[4..4 + i] && InAddr(r)[..i] == r[4..4 + i];
      LexFirst(InAddr(l), InAddr(r), i);
    }
    if Family(l) == Family(r) == 23 && i < 16 && l[8..8 + i] == r[8..8 + i] && l[8 + i] < r[8 + i] {
      assert In6Addr(l)[..i] == l[8..8 + i] && In6Addr(r)[..i] == r[8..8 + i];
      LexFirst(In6Addr(l), In6Addr(r), i);
    }
  }

  /** Equality is equality of family, address, port and, for IPv6, scope and flow. */
  lemma EqualIffSameFields(l: Raw, r: Raw)
    requires IsIp(l) && IsIp(r)
    ensures Compare(l, r) == 0 <==> SameFields(l, r)
  {
    LexZero(InAddr(l), InAddr(r));
    LexZero(In6Addr(l), In6Addr(r));
  }

  /** The branch for other families returns a truth value, so it is never negative: the lesser bytes compare
      greater, and the greater ones compare equal. */
  lemma OtherFamiliesAreNotOrdered(l: Raw, r: Raw)
    requires Family(l) == Family(r) && !IsIp(l)
    ensures Compare(l, r) >= 0
    ensures (Compare(l, r) == 0 <==> Compare(r, l) == 0) <==> l == r
    ensures Compare(r, l) == -Compare(l, r) <==> l == r
  {
    LexReverses(l, r);
    LexZero(l, r);
  }

  /** Two such addresses: the lesser compares greater, and the greater compares equal. */
  lemma UnorderedPair()
    ensures Compare(Blank(0), Blank(0)[27 := 1]) == 1 && Compare(Blank(0)[27 := 1], Blank(0)) == 0
  {
    var l, r := Blank(0), Blank(0)[27 := 1];
    assert Family(l) == Family(r) == 0;
    assert l == l[..27] + [0] && r == l[..27] + [1];
    LexAppend(l[..27], l[..27], [0], [1]);
    LexZero(l[..27], l[..27]);
    LexReverses(l, r);
  }

  // ----- setters -----

  function High(n: UShort): byte { n / 0x100 }
  function Low(n: UShort): byte { n % 0x100 }

  /** htonl, byte by byte. */
  function NetBytes(n: ULong): (bs: seq<byte>)
    ensures |bs| == 4
  {
    var high: UShort, low: UShort := n / 0x1_0000, n % 0x1_0000;
    [High(high), Low(high), High(low), Low(low)]
  }

  lemma Net16RoundTrip(n: UShort)
    ensures Net16(High(n), Low(n)) == n
  {
  }

  lemma NetBytesRoundTrip(n: ULong)
    ensures var bs := NetBytes(n); Net32(bs[0], bs[1], bs[2], bs[3]) == n
  {
    Net16RoundTrip(n / 0x1_0000);
    Net16RoundTrip(n % 0x1_0000);
  }

  /** Numbers lie in network order, the most significant byte first. */
  lemma NetBytesAre(n: ULong)
    ensures NetBytes(n)[0] == n / 0x100_0000 && NetBytes(n)[1] == n / 0x1_0000 % 0x100
    ensures NetBytes(n)[2] == n / 0x100 % 0x100 && NetBytes(n)[3] == n % 0x100
  {
  }

  function Four(m: Raw, i: nat): int
    requires i + 4 <= SIZE
  {
    0x100_0000 * m[i] as int + 0x1_0000 * m[i + 1] as int + 0x100 * m[i + 2] as int + m[i + 3] as int
  }

  /** Where the fields are, and how they are read. */
  lemma FieldsAre(m: Raw)
    ensures Family(m) as int == m[0] as int + 0x100 * m[1] as int
    ensures IsIp(m) ==> Port(m) as int == 0x100 * m[2] as int + m[3] as int
    ensures Family(m) == 23 ==> FlowInfo(m) as int == Four(m, 4)
    ensures Family(m) == 23 ==> ScopeId(m) as int == Four(m, 24)
    ensures InAddr(m) == [m[4], m[5], m[6], m[7]]
    ensures |In6Addr(m)| == 16 && forall i :: 0 <= i < 16 ==> In6Addr(m)[i] == m[8 + i]
    ensures IsIp(m) <==> Family(m) == 2 || Family(m) == 23
  {
  }

  function Zeros(n: nat): (s: seq<byte>)
    ensures |s| == n && forall i :: 0 <= i < n ==> s[i] == 0
  {
    if n == 0 then [] else Zeros(n - 1) + [0]
  }

  function Blank(family: UShort): Raw { [Low(family), High(family)] + Zeros(26) }

  /** Writing a field of |bs| bytes. */
  function With(m: Raw, at: nat, bs: seq<byte>): Raw
    requires at + |bs| <= SIZE
  {
    m[..at] + bs + m[at + |bs|..]
  }

  class SocketAddress {
    const m: array<byte>

    ghost predicate Valid()
      reads this
    {
      m.Length == SIZE
    }

    ghost function Value(): Raw
      requires Valid()
      reads this, m
    {
      m[..]
    }

    constructor (family: UShort)
      ensures Valid() && fresh(m) && Value() == Blank(family)
    {
      m := new byte[SIZE](_ => 0);
      new;
      m[0], m[1] := Low(family), High(family);
    }

    /** On IPv4 and IPv6 the lexicographic order of the keys, and zero exactly for the same fields. */
    method CompareTo(rhs: SocketAddress) returns (c: int)
      requires Valid() && rhs.Valid()
      ensures c == Compare(Value(), rhs.Value())
      ensures IsIp(Value()) && IsIp(rhs.Value()) ==>
                && c == Lex(Key(Value()), Key(rhs.Value()))
                && (c == 0 <==> SameFields(Value(), rhs.Value()))
    {
      c := Compare(m[..], rhs.m[..]);
      if IsIp(Value()) && IsIp(rhs.Value()) {
        CompareIsLex(Value(), rhs.Value());
        EqualIffSameFields(Value(), rhs.Value());
      }
    }

    /** `memset` and the family. */
    method Reset(family: UShort)
      requires Valid()
      modifies m
      ensures Valid() && Value() == Blank(family)
    {
      forall i | 0 <= i < SIZE { m[i] := 0; }
      m[0], m[1] := Low(family), High(family);
    }

    method Write(at: nat, bs: seq<byte>)
      requires Valid() && at + |bs| <= SIZE
      modifies m
      ensures Valid() && Value() == With(old(Value()), at, bs)
    {
      forall i | 0 <= i < |bs| { m[at + i] := bs[i]; }
    }

    /** The port is at the same place in both forms and always in network order. */
    method SetPort(port: UShort)
      requires Valid()
      modifies m
      ensures Valid() && Value() == With(old(Value()), 2, [High(port), Low(port)])
      ensures IsIp(Value()) ==> Port(Value()) == port
    {
      Write(2, [High(port), Low(port)]);
    }

    method SetScopeId(scope: ULong)
      requires Valid()
      modifies m
      ensures Valid()
      ensures Value() ==
              if Family(old(Value())) == AF_INET6 then With(old(Value()), 24, NetBytes(scope)) else old(Value())
      ensures Family(old(Value())) == AF_INET6 ==> ScopeId(Value()) == scope
    {
      NetBytesRoundTrip(scope);
      if Family(m[..]) == AF_INET6 {
        Write(24, NetBytes(scope));
      }
    }

    method SetFlowInfo(flow: ULong)
      requires Valid()
      modifies m
      ensures Valid()
      ensures Value() ==
              if Family(old(Value())) == AF_INET6 then With(old(Value()), 4, NetBytes(flow)) else old(Value())
      ensures Family(old(Value())) == AF_INET6 ==> FlowInfo(Value()) == flow
    {
      NetBytesRoundTrip(flow);
      if Family(m[..]) == AF_INET6 {
        Write(4, NetBytes(flow));
      }
    }

    /** `set_address`: everything but the port is reset. */
    method SetInAddr(addr: seq<byte>)
      requires Valid() && |addr| == 4
      modifies m
      ensures Valid() && Value() == With(With(Blank(AF_INET), 4, addr), 2, old(Value())[2..4])
    {
      var port := m[2..4];
      Reset(AF_INET);
      Write(4, addr);
      Write(2, port);
    }

    method SetIn6Addr(addr: seq<byte>)
      requires Valid() && |addr| == 16
      modifies m
      ensures Valid() && Value() == With(With(Blank(AF_INET6), 8, addr), 2, old(Value())[2..4])
    {
      var port := m[2..4];
      Reset(AF_INET6);
      Write(8, addr);
      Write(2, port);
    }
  }

  // ----- IPv4 mapped into IPv6 -----

  /** ::ffff:0:0/96 */
  const MAPPED_PREFIX: seq<byte> := [0, 0, 0, 0, 0, 0, 0, 0, 0, 0, 0xFF, 0xFF]

  /** `map_dual_mode_4to6`. */
  method MapDualMode4to6(ipv4: SocketAddress) returns (ipv6: SocketAddress)
    requires ipv4.Valid()
    ensures fresh(ipv6) && fresh(ipv6.m) && ipv6.Valid() && ipv6.Value() == Mapped(ipv4.Value())
  {
    ipv6 := new SocketAddress(AF_INET6);
    BlankKeepsItsPort();
    ipv6.SetIn6Addr(MAPPED_PREFIX + Zeros(4));
    ghost var m1 := With(Blank(AF_INET6), 8, MAPPED_PREFIX + Zeros(4));
    assert ipv6.Value() == m1;
    var port := Port(ipv4.m[..]);
    ipv6.SetPort(port);
    assert ipv6.Value() == With(m1, 2, [High(port), Low(port)]);
    assert ipv4.m[4..8] == InAddr(ipv4.Value());
    ipv6.Write(20, ipv4.m[4..8]);
  }

  function Mapped(v4: Raw): Raw {
    With(With(With(Blank(AF_INET6), 8, MAPPED_PREFIX + Zeros(4)), 2, [High(Port(v4)), Low(Port(v4))]), 20, InAddr(v4))
  }

  lemma BlankKeepsItsPort()
    ensures var m := With(Blank(AF_INET6), 8, MAPPED_PREFIX + Zeros(4));
            With(m, 2, Blank(AF_INET6)[2..4]) == m
  {
    var m := With(Blank(AF_INET6), 8, MAPPED_PREFIX + Zeros(4));
    assert m[2..4] == Blank(AF_INET6)[2..4];
    WithSame(m, 2, 2);
  }

  lemma WithSame(m: Raw, at: nat, n: nat)
    requires at + n <= SIZE
    ensures With(m, at, m[at..at + n]) == m
  {
  }

  lemma BlankBytes(family: UShort)
    ensures Blank(family)[0] == Low(family) && Blank(family)[1] == High(family)
    ensures forall i :: 2 <= i < SIZE ==> Blank(family)[i] == 0
  {
  }

  lemma PrefixBytes()
    ensures var p := MAPPED_PREFIX + Zeros(4);
            p[10] == p[11] == 0xFF && forall i :: 0 <= i < 16 && i != 10 && i != 11 ==> p[i] == 0
  {
  }

  /** A byte of the mapped address. */
  function MappedByte(v4: Raw, i: nat): byte
    requires i < SIZE
  {
    if i == 0 then 23
    else if i == 2 then High(Port(v4))
    else if i == 3 then Low(Port(v4))
    else if i == 18 || i == 19 then 0xFF
    else if 20 <= i < 24 then v4[i - 16]
    else 0
  }

  lemma MappedBytes(v4: Raw, i: nat)
    requires i < SIZE
    ensures Mapped(v4)[i] == MappedByte(v4, i)
  {
    var m0 := Blank(AF_INET6);
    var m1 := With(m0, 8, MAPPED_PREFIX + Zeros(4));
    var m2 := With(m1, 2, [High(Port(v4)), Low(Port(v4))]);
    BlankBytes(AF_INET6);
    PrefixBytes();
    WithAt(m0, 8, MAPPED_PREFIX + Zeros(4), i);
    WithAt(m1, 2, [High(Port(v4)), Low(Port(v4))], i);
    WithAt(m2, 20, InAddr(v4), i);
  }

  lemma WithAt(m: Raw, at: nat, bs: seq<byte>, i: nat)
    requires at + |bs| <= SIZE && i < SIZE
    ensures With(m, at, bs)[i] == if at <= i < at + |bs| then bs[i - at] else m[i]
  {
  }

  /** What setting an address comes to: that family and address, the port bytes of before, and zeros. */
  lemma SettingAnAddress(m: Raw, addr: seq<byte>, i: nat)
    requires |addr| == 4 || |addr| == 16
    requires i < SIZE
    ensures var family, at := if |addr| == 4 then 2 else 23, if |addr| == 4 then 4 else 8;
            With(With(Blank(family), at, addr), 2, m[2..4])[i] ==
            if i == 0 then family else if i == 2 || i == 3 then m[i]
            else if at <= i < at + |addr| then addr[i - at] else 0
  {
    var family, at := if |addr| == 4 then 2 else 23, if |addr| == 4 then 4 else 8;
    BlankBytes(family);
    WithAt(Blank(family), at, addr, i);
    WithAt(With(Blank(family), at, addr), 2, m[2..4], i);
  }

  /** The mapped address keeps the port and the four address bytes and has nothing else set. */
  lemma MappedFields(v4: Raw)
    requires Family(v4) == AF_INET
    ensures var m := Mapped(v4);
            && Family(m) == AF_INET6 && Port(m) == Port(v4) && ScopeId(m) == 0 && FlowInfo(m) == 0
            && In6Addr(m) == MAPPED_PREFIX + InAddr(v4)
  {
    var m := Mapped(v4);
    forall i: nat | i < SIZE ensures m[i] == MappedByte(v4, i) { MappedBytes(v4, i); }
    MappedNumbers(v4, m);
    MappedAddress(v4, m);
  }

  lemma MappedNumbers(v4: Raw, m: Raw)
    requires forall i: nat :: i < SIZE ==> m[i] == MappedByte(v4, i)
    ensures Family(m) == AF_INET6 && Port(m) == Port(v4) && ScopeId(m) == 0 && FlowInfo(m) == 0
  {
    assert m[0] == MappedByte(v4, 0) && m[1] == MappedByte(v4, 1);
    assert m[2] == MappedByte(v4, 2) && m[3] == MappedByte(v4, 3);
    assert m[4] == m[5] == m[6] == m[7] == 0 && m[24] == m[25] == m[26] == m[27] == 0;
    Net16RoundTrip(Port(v4));
  }

  lemma MappedAddress(v4: Raw, m: Raw)
    requires forall i: nat :: i < SIZE ==> m[i] == MappedByte(v4, i)
    ensures In6Addr(m) == MAPPED_PREFIX + InAddr(v4)
  {
    forall i | 0 <= i < 16
      ensures In6Addr(m)[i] == (MAPPED_PREFIX + InAddr(v4))[i]
    {
      assert In6Addr(m)[i] == MappedByte(v4, 8 + i);
    }
  }

  /** Mapping is an order embedding: it neither merges addresses nor changes how they compare. */
  lemma MappingEmbeds(a: Raw, b: Raw)
    requires Family(a) == AF_INET && Family(b) == AF_INET
    ensures Compare(Mapped(a), Mapped(b)) == Compare(a, b)
  {
    MappedFields(a);
    MappedFields(b);
    PrefixCancels(InAddr(a), InAddr(b));
    ComparesLikeV4(Mapped(a), Mapped(b), a, b);
  }

  lemma PrefixCancels(a: seq<byte>, b: seq<byte>)
    ensures Lex(MAPPED_PREFIX + a, MAPPED_PREFIX + b) == Lex(a, b)
  {
    LexAppend(MAPPED_PREFIX, MAPPED_PREFIX, a, b);
    LexZero(MAPPED_PREFIX, MAPPED_PREFIX);
  }

  lemma ComparesLikeV4(m: Raw, n: Raw, a: Raw, b: Raw)
    requires Family(a) == Family(b) == AF_INET && Family(m) == Family(n) == AF_INET6
    requires Port(m) == Port(a) && Port(n) == Port(b) && ScopeId(m) == ScopeId(n) && FlowInfo(m) == FlowInfo(n)
    requires Lex(In6Addr(m), In6Addr(n)) == Lex(InAddr(a), InAddr(b))
    ensures Compare(m, n) == Compare(a, b)
  {
  }
}
