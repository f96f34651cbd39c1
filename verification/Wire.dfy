/** The wire format of the punching protocol (upunch/p2p_wire.c, upunch/p2p_wire.h). */
module Wire {

  type Byte = b: int | 0 <= b < 256
  type U16 = v: int | 0 <= v < 0x1_0000
  type U32 = v: int | 0 <= v < 0x1_0000_0000

  const P2P_PKT_VERSION: Byte := 2
  const P2P_COMMUNITY_SIZE: nat := 16
  const P2P_COOKIE_SIZE: nat := 4
  const IPV4_SIZE: nat := 4
  const IPV6_SIZE: nat := 16
  const P2P_FLAGS_SOCKET: U16 := 0x40
  const P2P_FLAGS_FROM_SUPERNODE: U16 := 0x20

  /** A family that is neither stands for the code's other values. */
  datatype Family = Inet | Inet6 | NoFamily

  /** The union of the two addresses is its sixteen bytes; v4 is the first four. */
  datatype Sock = Sock(family: Family, port: U16, addr: seq<Byte>)

  /** pc is the low five bits of flags on the wire. */
  datatype Common = Common(ttl: Byte, pc: nat, flags: U16, community: seq<Byte>)

  datatype Register = Register(cookie: seq<Byte>, origSender: Sock, destSock: Sock)

  datatype SuperAck = SuperAck(cookie: seq<Byte>, lifetime: U16, sock: Sock, numSn: Byte, snBak: Sock)

  predicate SockOk(s: Sock) { |s.addr| == IPV6_SIZE }

  predicate CommonOk(c: Common) { |c.community| == P2P_COMMUNITY_SIZE }

  predicate RegisterOk(r: Register) {
    |r.cookie| == P2P_COOKIE_SIZE && SockOk(r.origSender) && SockOk(r.destSock)
  }

  predicate SuperAckOk(a: SuperAck) {
    |a.cookie| == P2P_COOKIE_SIZE && SockOk(a.sock) && SockOk(a.snBak)
  }

  function Zeros(n: nat): (z: seq<Byte>)
    ensures |z| == n
  {
    seq(n, _ => 0)
  }

  // ------------------------------------------------------------------------- encoding

  /** upunch/p2p_wire.c:38-46. */
  function Enc16(v: U16): (b: seq<Byte>)
    ensures |b| == 2
  {
    [v / 0x100, v % 0x100]
  }

  /** upunch/p2p_wire.c:62-72. */
  function Enc32(v: U32): (b: seq<Byte>)
    ensures |b| == 4
  {
    [v / 0x100_0000, (v / 0x1_0000) % 0x100, (v / 0x100) % 0x100, v % 0x100]
  }

  /** flags & P2P_FLAGS_BITS_MASK. */
  function Bits(flags: U16): U16 { flags - flags % 32 }

  /** upunch/p2p_wire.c:115-130. */
  function EncCommon(c: Common): seq<Byte> {
    [P2P_PKT_VERSION, c.ttl] + Enc16(c.pc % 32 + Bits(c.flags)) + c.community
  }

  /** upunch/p2p_wire.c:157-187. */
  function EncSock(s: Sock): seq<Byte>
    requires SockOk(s)
  {
    match s.family
    case Inet => Enc16(0) + Enc16(s.port) + s.addr[..IPV4_SIZE]
    case Inet6 => Enc16(0x8000) + Enc16(s.port) + s.addr
    case NoFamily => []
  }

  /** upunch/p2p_wire.c:219-231. */
  function EncRegister(c: Common, r: Register): seq<Byte>
    requires RegisterOk(r)
  {
    EncCommon(c) + (r.cookie + EncSock(r.origSender) + EncSock(r.destSock))
  }

  function AckFront(a: SuperAck): seq<Byte>
    requires SuperAckOk(a)
  {
    a.cookie + Enc16(a.lifetime) + EncSock(a.sock)
  }

  /** upunch/p2p_wire.c:318-336. */
  function EncSuperAck(c: Common, a: SuperAck): seq<Byte>
    requires SuperAckOk(a)
  {
    EncCommon(c) + (AckFront(a) + ([a.numSn] + if 0 < a.numSn then EncSock(a.snBak) else []))
  }

  // ------------------------------------------------------------------------- decoding

  /** rem and idx. */
  datatype Cursor = Cursor(rem: nat, idx: nat)

  datatype Got<T> = Got(value: T, cur: Cursor)

  predicate Inside(buf: seq<Byte>, c: Cursor) { c.idx + c.rem <= |buf| }

  /** What no decoder changes, and that none goes back. */
  predicate Advances(c: Cursor, d: Cursor) { d.idx + d.rem == c.idx + c.rem && c.idx <= d.idx }

  function Join16(hi: Byte, lo: Byte): U16 { 0x100 * hi + lo }

  function Join32(hi: U16, lo: U16): U32 { 0x1_0000 * hi + lo }

  /** upunch/p2p_wire.c:25-36; prev is what the variable held. */
  function Dec8(prev: Byte, buf: seq<Byte>, c: Cursor): (g: Got<Byte>)
    requires Inside(buf, c)
    ensures Advances(c, g.cur)
  {
    if c.rem < 1 then Got(prev, c) else Got(buf[c.idx], Cursor(c.rem - 1, c.idx + 1))
  }

  /** upunch/p2p_wire.c:48-60. */
  function Dec16(prev: U16, buf: seq<Byte>, c: Cursor): (g: Got<U16>)
    requires Inside(buf, c)
    ensures Advances(c, g.cur)
  {
    if c.rem < 2 then Got(prev, c)
    else Got(Join16(buf[c.idx], buf[c.idx + 1]), Cursor(c.rem - 2, c.idx + 2))
  }

  /** upunch/p2p_wire.c:74-88. */
  function Dec32(prev: U32, buf: seq<Byte>, c: Cursor): (g: Got<U32>)
    requires Inside(buf, c)
    ensures Advances(c, g.cur)
  {
    if c.rem < 4 then Got(prev, c)
    else
      Got(Join32(Join16(buf[c.idx], buf[c.idx + 1]), Join16(buf[c.idx + 2], buf[c.idx + 3])),
          Cursor(c.rem - 4, c.idx + 4))
  }

  /** upunch/p2p_wire.c:101-113; the size is that of prev. */
  function DecBuf(prev: seq<Byte>, buf: seq<Byte>, c: Cursor): (g: Got<seq<Byte>>)
    requires Inside(buf, c)
    ensures Advances(c, g.cur) && |g.value| == |prev|
  {
    if c.rem < |prev| then Got(prev, c)
    else Got(buf[c.idx..c.idx + |prev|], Cursor(c.rem - |prev|, c.idx + |prev|))
  }

  datatype Option<T> = None | Some(value: T)

  /** upunch/p2p_wire.c:132-154; nothing if the version is not right. */
  function DecCommon(prev: Common, buf: seq<Byte>, c: Cursor): (g: Got<Option<Common>>)
    requires Inside(buf, c) && CommonOk(prev)
    ensures Advances(c, g.cur) && (g.value.Some? ==> CommonOk(g.value.value) && g.value.value.pc < 32)
  {
    var v := Dec8(0, buf, c);
    if v.value != P2P_PKT_VERSION then Got(None, v.cur)
    else
      var t := Dec8(prev.ttl, buf, v.cur);
      var f := Dec16(prev.flags, buf, t.cur);
      var n := DecBuf(prev.community, buf, f.cur);
      Got(Some(Common(t.value, f.value % 32, Bits(f.value), n.value)), n.cur)
  }

  /** upunch/p2p_wire.c:190-217; junk is what the stack held for the family word. */
  function DecSock(prev: Sock, junk: U16, buf: seq<Byte>, c: Cursor): (g: Got<Sock>)
    requires Inside(buf, c) && SockOk(prev)
    ensures Advances(c, g.cur) && SockOk(g.value) && g.value.family != NoFamily
  {
    var f := Dec16(junk, buf, c);
    var p := Dec16(prev.port, buf, f.cur);
    if 0x8000 <= f.value then
      var a := DecBuf(prev.addr, buf, p.cur);
      Got(Sock(Inet6, p.value, a.value), a.cur)
    else
      var a := DecBuf(Zeros(IPV4_SIZE), buf, p.cur);
      Got(Sock(Inet, p.value, a.value + Zeros(IPV6_SIZE - IPV4_SIZE)), a.cur)
  }

  function NoSock(): Sock { Sock(NoFamily, 0, Zeros(IPV6_SIZE)) }

  /** upunch/p2p_wire.c:233-246. */
  function DecRegister(junk: (U16, U16), buf: seq<Byte>, c: Cursor): (g: Got<Register>)
    requires Inside(buf, c)
    ensures Advances(c, g.cur) && RegisterOk(g.value)
    ensures g.value.origSender.family != NoFamily && g.value.destSock.family != NoFamily
  {
    var k := DecBuf(Zeros(P2P_COOKIE_SIZE), buf, c);
    var o := DecSock(NoSock(), junk.0, buf, k.cur);
    var d := DecSock(NoSock(), junk.1, buf, o.cur);
    Got(Register(k.value, o.value, d.value), d.cur)
  }

  /** upunch/p2p_wire.c:338-362. */
  function DecSuperAck(junk: (U16, U16), buf: seq<Byte>, c: Cursor): (g: Got<SuperAck>)
    requires Inside(buf, c)
    ensures Advances(c, g.cur) && SuperAckOk(g.value)
  {
    var k := DecBuf(Zeros(P2P_COOKIE_SIZE), buf, c);
    var l := Dec16(0, buf, k.cur);
    var s := DecSock(NoSock(), junk.0, buf, l.cur);
    var n := Dec8(0, buf, s.cur);
    if 0 < n.value then
      var b := DecSock(NoSock(), junk.1, buf, n.cur);
      Got(SuperAck(k.value, l.value, s.value, n.value, b.value), b.cur)
    else Got(SuperAck(k.value, l.value, s.value, n.value, NoSock()), n.cur)
  }

  // ----------------------------------------------------------------------- round trips

  /** The bytes come next, and all of them are there. */
  ghost predicate At(buf: seq<Byte>, c: Cursor, b: seq<Byte>) {
    Inside(buf, c) && |b| <= c.rem && buf[c.idx..c.idx + |b|] == b
  }

  function Past(c: Cursor, n: nat): Cursor
    requires n <= c.rem
  {
    Cursor(c.rem - n, c.idx + n)
  }

  lemma AtSplit(buf: seq<Byte>, c: Cursor, a: seq<Byte>, b: seq<Byte>)
    requires At(buf, c, a + b)
    ensures At(buf, c, a) && At(buf, Past(c, |a|), b)
  {
    var s := buf[c.idx..c.idx + |a + b|];
    assert s[..|a|] == a && s[|a|..] == b;
    assert s[..|a|] == buf[c.idx..c.idx + |a|];
    assert s[|a|..] == buf[c.idx + |a|..c.idx + |a| + |b|];
  }

  lemma AtStart(b: seq<Byte>, rest: seq<Byte>)
    ensures At(b + rest, Cursor(|b + rest|, 0), b)
  {
  }

  lemma Round16(prev: U16, buf: seq<Byte>, c: Cursor, v: U16)
    requires At(buf, c, Enc16(v))
    ensures Dec16(prev, buf, c) == Got(v, Past(c, 2))
  {
    var s := buf[c.idx..c.idx + 2];
    assert buf[c.idx] == s[0] && buf[c.idx + 1] == s[1];
  }

  lemma Round32(prev: U32, buf: seq<Byte>, c: Cursor, v: U32)
    requires At(buf, c, Enc32(v))
    ensures Dec32(prev, buf, c) == Got(v, Past(c, 4))
  {
    var s := buf[c.idx..c.idx + 4];
    assert buf[c.idx] == s[0] && buf[c.idx + 1] == s[1] && buf[c.idx + 2] == s[2] && buf[c.idx + 3] == s[3];
    Halves(v);
  }

  lemma Halves(v: U32)
    ensures Join16(v / 0x100_0000, (v / 0x1_0000) % 0x100) == v / 0x1_0000
    ensures Join16((v / 0x100) % 0x100, v % 0x100) == v % 0x1_0000
  {
    HighHalf(v / 0x1_0000, v);
    LowHalf(v / 0x1_0000, v % 0x1_0000, v);
  }

  lemma HighHalf(h: nat, v: nat)
    requires h == v / 0x1_0000
    ensures 0x100 * (v / 0x100_0000) + h % 0x100 == h
  {
  }

  lemma LowHalf(h: nat, l: nat, v: nat)
    requires v == 0x1_0000 * h + l && l < 0x1_0000
    ensures 0x100 * ((v / 0x100) % 0x100) + v % 0x100 == l
  {
    assert v / 0x100 == 0x100 * h + l / 0x100;
    assert v % 0x100 == l % 0x100;
  }

  lemma RoundBuf(prev: seq<Byte>, buf: seq<Byte>, c: Cursor, b: seq<Byte>)
    requires At(buf, c, b) && |prev| == |b|
    ensures DecBuf(prev, buf, c) == Got(b, Past(c, |b|))
  {
  }

  lemma FlagsSplit(pc: nat, flags: U16)
    requires pc < 32
    ensures (pc + Bits(flags)) % 32 == pc && Bits(pc + Bits(flags)) == Bits(flags)
  {
  }

  /** A header comes back with its type cut to five bits and its flags to the others. */
  lemma RoundCommon(prev: Common, buf: seq<Byte>, c: Cursor, m: Common)
    requires CommonOk(prev) && CommonOk(m) && At(buf, c, EncCommon(m))
    ensures |EncCommon(m)| == 20
    ensures DecCommon(prev, buf, c) == Got(Some(m.(pc := m.pc % 32, flags := Bits(m.flags))), Past(c, 20))
  {
    var f := m.pc % 32 + Bits(m.flags);
    AtSplit(buf, c, [P2P_PKT_VERSION, m.ttl] + Enc16(f), m.community);
    AtSplit(buf, c, [P2P_PKT_VERSION, m.ttl], Enc16(f));
    var s := buf[c.idx..c.idx + 2];
    assert buf[c.idx] == s[0] && buf[c.idx + 1] == s[1];
    Round16(prev.flags, buf, Past(c, 2), f);
    RoundBuf(prev.community, buf, Past(c, 4), m.community);
    FlagsSplit(m.pc % 32, m.flags);
  }

  /** The bytes of the union that an address of its family uses. */
  function Used(s: Sock): Sock
    requires SockOk(s)
  {
    if s.family == Inet then s.(addr := s.addr[..IPV4_SIZE] + Zeros(IPV6_SIZE - IPV4_SIZE)) else s
  }

  lemma RoundSock(prev: Sock, junk: U16, buf: seq<Byte>, c: Cursor, s: Sock)
    requires SockOk(prev) && SockOk(s) && s.family != NoFamily && At(buf, c, EncSock(s))
    ensures DecSock(prev, junk, buf, c) == Got(Used(s), Past(c, |EncSock(s)|))
  {
    var f: U16 := if s.family == Inet then 0 else 0x8000;
    var a := if s.family == Inet then s.addr[..IPV4_SIZE] else s.addr;
    AtSplit(buf, c, Enc16(f) + Enc16(s.port), a);
    AtSplit(buf, c, Enc16(f), Enc16(s.port));
    Round16(junk, buf, c, f);
    Round16(prev.port, buf, Past(c, 2), s.port);
    RoundBuf(if s.family == Inet then Zeros(IPV4_SIZE) else prev.addr, buf, Past(c, 4), a);
  }

  lemma RoundRegister(junk: (U16, U16), buf: seq<Byte>, c: Cursor, r: Register)
    requires RegisterOk(r) && r.origSender.family != NoFamily && r.destSock.family != NoFamily
    requires At(buf, c, r.cookie + EncSock(r.origSender) + EncSock(r.destSock))
    ensures DecRegister(junk, buf, c) == Got(
      Register(r.cookie, Used(r.origSender), Used(r.destSock)),
      Past(c, P2P_COOKIE_SIZE + |EncSock(r.origSender)| + |EncSock(r.destSock)|))
  {
    AtSplit(buf, c, r.cookie + EncSock(r.origSender), EncSock(r.destSock));
    AtSplit(buf, c, r.cookie, EncSock(r.origSender));
    RoundBuf(Zeros(P2P_COOKIE_SIZE), buf, c, r.cookie);
    var c1 := Past(c, P2P_COOKIE_SIZE);
    RoundSock(NoSock(), junk.0, buf, c1, r.origSender);
    RoundSock(NoSock(), junk.1, buf, Past(c1, |EncSock(r.origSender)|), r.destSock);
  }

  lemma RoundBackup(junk: U16, buf: seq<Byte>, c: Cursor, numSn: Byte, bak: Sock)
    requires SockOk(bak) && (0 < numSn ==> bak.family != NoFamily)
    requires At(buf, c, [numSn] + if 0 < numSn then EncSock(bak) else [])
    ensures var n := Dec8(0, buf, c);
      && n.value == numSn
      && (0 < numSn ==> DecSock(NoSock(), junk, buf, n.cur).value == Used(bak))
  {
    AtSplit(buf, c, [numSn], if 0 < numSn then EncSock(bak) else []);
    assert buf[c.idx] == buf[c.idx..c.idx + 1][0];
    if 0 < numSn {
      RoundSock(NoSock(), junk, buf, Past(c, 1), bak);
    }
  }

  lemma RoundFront(junk: U16, buf: seq<Byte>, c: Cursor, a: SuperAck)
    requires SuperAckOk(a) && a.sock.family != NoFamily && At(buf, c, AckFront(a))
    ensures DecBuf(Zeros(P2P_COOKIE_SIZE), buf, c) == Got(a.cookie, Past(c, 4))
    ensures Dec16(0, buf, Past(c, 4)) == Got(a.lifetime, Past(c, 6))
    ensures DecSock(NoSock(), junk, buf, Past(c, 6)) == Got(Used(a.sock), Past(c, |AckFront(a)|))
  {
    AtSplit(buf, c, a.cookie + Enc16(a.lifetime), EncSock(a.sock));
    AtSplit(buf, c, a.cookie, Enc16(a.lifetime));
    RoundBuf(Zeros(P2P_COOKIE_SIZE), buf, c, a.cookie);
    Round16(0, buf, Past(c, 4), a.lifetime);
    RoundSock(NoSock(), junk, buf, Past(c, 6), a.sock);
  }

  lemma RoundSuperAck(junk: (U16, U16), buf: seq<Byte>, c: Cursor, a: SuperAck)
    requires SuperAckOk(a) && a.sock.family != NoFamily && (0 < a.numSn ==> a.snBak.family != NoFamily)
    requires At(buf, c, AckFront(a) + ([a.numSn] + if 0 < a.numSn then EncSock(a.snBak) else []))
    ensures DecSuperAck(junk, buf, c).value == SuperAck(
      a.cookie, a.lifetime, Used(a.sock), a.numSn, if 0 < a.numSn then Used(a.snBak) else NoSock())
  {
    AtSplit(buf, c, AckFront(a), [a.numSn] + if 0 < a.numSn then EncSock(a.snBak) else []);
    RoundFront(junk.0, buf, c, a);
    RoundBackup(junk.1, buf, Past(c, |AckFront(a)|), a.numSn, a.snBak);
  }

  // ---------------------------------------------------------------- what is on the wire

  /** A number in network byte order: the high-order byte comes first. */
  function BigEndian(b: seq<Byte>): nat {
    if b == [] then 0 else 0x100 * BigEndian(b[..|b| - 1]) + b[|b| - 1]
  }

  lemma BigEndian2(x: Byte, y: Byte)
    ensures BigEndian([x, y]) == Join16(x, y)
  {
    assert [x, y][..1] == [x] && [x][..0] == [];
    assert BigEndian([x]) == x;
  }

  lemma BigEndian4(x: Byte, y: Byte, z: Byte, w: Byte)
    ensures BigEndian([x, y, z, w]) == Join32(Join16(x, y), Join16(z, w))
  {
    assert [x, y, z, w][..3] == [x, y, z] && [x, y, z][..2] == [x, y];
    BigEndian2(x, y);
    assert BigEndian([x, y, z]) == 0x100 * Join16(x, y) + z;
  }

  /** Numbers go out in network byte order, and no two look alike. */
  lemma NetworkOrder(v: U16, w: U32)
    ensures BigEndian(Enc16(v)) == v && BigEndian(Enc32(w)) == w
  {
    BigEndian2(v / 0x100, v % 0x100);
    BigEndian4(w / 0x100_0000, (w / 0x1_0000) % 0x100, (w / 0x100) % 0x100, w % 0x100);
    Halves(w);
  }

  /** A decoder takes its bytes, in network byte order, if they are all there, and else none. */
  lemma AllOrNothing(buf: seq<Byte>, c: Cursor, was8: Byte, was16: U16, was: seq<Byte>)
    requires Inside(buf, c)
    ensures var g := Dec8(was8, buf, c);
      if 1 <= c.rem then g.value == buf[c.idx] && g.cur == Past(c, 1) else g == Got(was8, c)
    ensures var g := Dec16(was16, buf, c);
      if 2 <= c.rem then g.value == BigEndian(buf[c.idx..c.idx + 2]) && g.cur == Past(c, 2) else g == Got(was16, c)
    ensures var g := DecBuf(was, buf, c);
      if |was| <= c.rem then g == Got(buf[c.idx..c.idx + |was|], Past(c, |was|)) else g == Got(was, c)
  {
    if 2 <= c.rem {
      Two(buf, c.idx);
      BigEndian2(buf[c.idx], buf[c.idx + 1]);
    }
  }

  lemma AllOrNothing32(buf: seq<Byte>, c: Cursor, was: U32)
    requires Inside(buf, c)
    ensures var g := Dec32(was, buf, c);
      if 4 <= c.rem then g.value == BigEndian(buf[c.idx..c.idx + 4]) && g.cur == Past(c, 4) else g == Got(was, c)
  {
    if 4 <= c.rem {
      Four(buf, c.idx);
      BigEndian4(buf[c.idx], buf[c.idx + 1], buf[c.idx + 2], buf[c.idx + 3]);
    }
  }

  lemma Two(buf: seq<Byte>, i: nat)
    requires i + 2 <= |buf|
    ensures buf[i..i + 2] == [buf[i], buf[i + 1]]
  {
  }

  lemma Four(buf: seq<Byte>, i: nat)
    requires i + 4 <= |buf|
    ensures buf[i..i + 4] == [buf[i], buf[i + 1], buf[i + 2], buf[i + 3]]
  {
  }

  /** Some of the bytes of a message. */
  predicate Bytes(b: seq<Byte>, from: nat, part: seq<Byte>) {
    from + |part| <= |b| && b[from..from + |part|] == part
  }

  /** A header: the version, the time to live, the flags with the type in their low bits, and
      the community. */
  lemma HeaderLayout(m: Common)
    requires CommonOk(m)
    ensures var b := EncCommon(m);
      && |b| == 20 && b[0] == 2 && b[1] == m.ttl && Bytes(b, 4, m.community)
      && BigEndian(b[2..4]) % 32 == m.pc % 32 && BigEndian(b[2..4]) / 32 == m.flags / 32
  {
    var f := m.pc % 32 + Bits(m.flags);
    HeaderBytes([P2P_PKT_VERSION, m.ttl], Enc16(f), m.community);
    NetworkOrder(f, 0);
    FlagParts(m.pc % 32, m.flags);
  }

  lemma HeaderBytes(a: seq<Byte>, w: seq<Byte>, n: seq<Byte>)
    requires |a| == |w| == 2
    ensures var b := a + w + n;
      |b| == 4 + |n| && b[0] == a[0] && b[1] == a[1] && b[2..4] == w && Bytes(b, 4, n)
  {
  }

  lemma FlagParts(pc: nat, flags: U16)
    requires pc < 32
    ensures (pc + Bits(flags)) % 32 == pc && (pc + Bits(flags)) / 32 == flags / 32
  {
  }

  /** An address: the family in the top bit, the port, and the bytes that the family uses. */
  lemma SockLayout(s: Sock)
    requires SockOk(s)
    ensures var b := EncSock(s);
      match s.family
      case Inet => |b| == 8 && b[..2] == [0, 0] && BigEndian(b[2..4]) == s.port && b[4..] == s.addr[..4]
      case Inet6 => |b| == 20 && b[..2] == [0x80, 0] && BigEndian(b[2..4]) == s.port && b[4..] == s.addr
      case NoFamily => b == []
  {
    if s.family != NoFamily {
      assert EncSock(s)[2..4] == Enc16(s.port);
      NetworkOrder(s.port, 0);
    }
  }

  /** A REGISTER: the header, the cookie, its sender, its destination. */
  lemma RegisterLayout(m: Common, r: Register)
    requires CommonOk(m) && RegisterOk(r)
    ensures var b := EncRegister(m, r); var o := |EncSock(r.origSender)|;
      && |b| == 24 + o + |EncSock(r.destSock)|
      && Bytes(b, 0, EncCommon(m)) && Bytes(b, 20, r.cookie) && Bytes(b, 24, EncSock(r.origSender))
      && Bytes(b, 24 + o, EncSock(r.destSock))
  {
    HeaderLayout(m);
    FrontFields(EncCommon(m), r.cookie, EncSock(r.origSender), EncSock(r.destSock), []);
    assert EncRegister(m, r) == EncCommon(m) + ((r.cookie + EncSock(r.origSender) + EncSock(r.destSock)) + []);
    FieldAt(EncRegister(m, r), [], EncCommon(m), r.cookie + EncSock(r.origSender) + EncSock(r.destSock));
  }

  lemma FieldAt(all: seq<Byte>, a: seq<Byte>, b: seq<Byte>, c: seq<Byte>)
    requires all == a + b + c
    ensures Bytes(all, |a|, b)
  {
  }

  /** Where the first three parts behind a header are, and the fourth. */
  lemma FrontFields(h: seq<Byte>, a: seq<Byte>, b: seq<Byte>, c: seq<Byte>, d: seq<Byte>)
    ensures var all := h + ((a + b + c) + d);
      && Bytes(all, |h|, a) && Bytes(all, |h| + |a|, b) && Bytes(all, |h| + |a| + |b|, c)
  {
    var all := h + ((a + b + c) + d);
    assert all == h + a + (b + c + d);
    FieldAt(all, h, a, b + c + d);
    assert all == (h + a) + b + (c + d);
    FieldAt(all, h + a, b, c + d);
    assert all == (h + a + b) + c + d;
    FieldAt(all, h + a + b, c, d);
  }

  lemma BackFields(h: seq<Byte>, f: seq<Byte>, d: seq<Byte>, e: seq<Byte>)
    ensures var all := h + (f + (d + e));
      && |all| == |h| + |f| + |d| + |e|
      && Bytes(all, 0, h) && Bytes(all, |h| + |f|, d) && Bytes(all, |h| + |f| + |d|, e)
  {
    var all := h + (f + (d + e));
    assert all == [] + h + (f + (d + e));
    FieldAt(all, [], h, f + (d + e));
    assert all == (h + f) + d + e;
    FieldAt(all, h + f, d, e);
    assert all == (h + f + d) + e + [];
    FieldAt(all, h + f + d, e, []);
  }

  /** A REGISTER_SUPER_ACK: the header, the cookie, the lifetime, the address, and the number of
      backup supernodes with the address of one if there is any. */
  lemma AnswerLayout(m: Common, a: SuperAck)
    requires CommonOk(m) && SuperAckOk(a)
    ensures var b := EncSuperAck(m, a); var o := |EncSock(a.sock)|;
      && |b| == 27 + o + (if a.numSn == 0 then 0 else |EncSock(a.snBak)|)
      && Bytes(b, 0, EncCommon(m)) && Bytes(b, 20, a.cookie) && Bytes(b, 24, Enc16(a.lifetime))
      && Bytes(b, 26, EncSock(a.sock)) && Bytes(b, 26 + o, [a.numSn])
      && (a.numSn != 0 ==> Bytes(b, 27 + o, EncSock(a.snBak)))
  {
    HeaderLayout(m);
    var bak := if 0 < a.numSn then EncSock(a.snBak) else [];
    FrontFields(EncCommon(m), a.cookie, Enc16(a.lifetime), EncSock(a.sock), [a.numSn] + bak);
    BackFields(EncCommon(m), AckFront(a), [a.numSn], bak);
  }

  /** Every header with the right version is the encoding of what is read from it, so nothing
      that it says is lost; any other is refused. */
  lemma HeaderIsReadWhole(prev: Common, buf: seq<Byte>, c: Cursor)
    requires Inside(buf, c) && CommonOk(prev) && 20 <= c.rem
    ensures var g := DecCommon(prev, buf, c);
      && (g.value.Some? <==> buf[c.idx] == 2)
      && (g.value.Some? ==> g.cur == Past(c, 20) && At(buf, c, EncCommon(g.value.value)))
  {
    var g := DecCommon(prev, buf, c);
    if g.value.Some? {
      var m := g.value.value;
      var f := Join16(buf[c.idx + 2], buf[c.idx + 3]);
      assert m.pc == f % 32 && m.flags == Bits(f);
      SplitFlags(f);
      WordIsReadWhole(buf[c.idx + 2], buf[c.idx + 3]);
      assert EncCommon(m) == [2, m.ttl] + [buf[c.idx + 2], buf[c.idx + 3]] + m.community;
      HeaderWhole(buf, c.idx);
    }
  }

  lemma WordIsReadWhole(hi: Byte, lo: Byte)
    ensures Enc16(Join16(hi, lo)) == [hi, lo]
  {
  }

  lemma HeaderWhole(buf: seq<Byte>, i: nat)
    requires i + 20 <= |buf|
    ensures [buf[i], buf[i + 1]] + [buf[i + 2], buf[i + 3]] + buf[i + 4..i + 20] == buf[i..i + 20]
  {
  }

  lemma SplitFlags(f: U16)
    ensures (f % 32) % 32 + Bits(Bits(f)) == f
  {
  }

  /** Of every address that is there in full nothing is lost but the low bits of the family
      word, whose top bit alone decides. */
  lemma SockIsReadWhole(prev: Sock, junk: U16, buf: seq<Byte>, c: Cursor)
    requires Inside(buf, c) && SockOk(prev) && 20 <= c.rem
    ensures var g := DecSock(prev, junk, buf, c); var b := EncSock(g.value);
      && (g.value.family == Inet6 <==> 0x80 <= buf[c.idx])
      && g.cur == Past(c, |b|) && 2 <= |b| && b[2..] == buf[c.idx + 2..c.idx + |b|]
  {
    var s := DecSock(prev, junk, buf, c).value;
    WordIsReadWhole(buf[c.idx + 2], buf[c.idx + 3]);
    var port := [buf[c.idx + 2], buf[c.idx + 3]];
    if s.family == Inet6 {
      assert EncSock(s) == Enc16(0x8000) + port + buf[c.idx + 4..c.idx + 20];
      SockWhole(Enc16(0x8000), buf, c.idx, 20);
    } else {
      assert s.addr[..IPV4_SIZE] == buf[c.idx + 4..c.idx + 8];
      assert EncSock(s) == Enc16(0) + port + buf[c.idx + 4..c.idx + 8];
      SockWhole(Enc16(0), buf, c.idx, 8);
    }
  }

  lemma SockWhole(f: seq<Byte>, buf: seq<Byte>, i: nat, n: nat)
    requires |f| == 2 && 4 <= n && i + n <= |buf|
    ensures (f + [buf[i + 2], buf[i + 3]] + buf[i + 4..i + n])[2..] == buf[i + 2..i + n]
  {
  }

  // ------------------------------------------------------------ messages with a socket

  predicate SocketFlag(flags: U16) { (flags / 0x40) % 2 == 1 }

  /** upunch/p2p_wire.c:289-292 and 393-396. */
  function EncIfSock(s: Sock): seq<Byte>
    requires SockOk(s)
  {
    if s.family == NoFamily then [] else EncSock(s)
  }

  /** upunch/p2p_wire.c:310-313 and 411-414. */
  function DecIfSock(flags: U16, junk: U16, buf: seq<Byte>, c: Cursor): (g: Got<Sock>)
    requires Inside(buf, c)
    ensures Advances(c, g.cur) && SockOk(g.value)
  {
    if SocketFlag(flags) then DecSock(NoSock(), junk, buf, c) else Got(NoSock(), c)
  }

  /** upunch/p2p_wire.c:277-295. */
  function EncAck(m: Common, cookie: seq<Byte>, s: Sock): seq<Byte>
    requires SockOk(s)
  {
    EncCommon(m) + (cookie + EncIfSock(s))
  }

  /** A REGISTER_ACK comes back if its flag says whether it has a socket; a PACKET is the
      same without a cookie. */
  lemma RoundAck(prev: Common, junk: U16, rest: seq<Byte>, m: Common, cookie: seq<Byte>, s: Sock)
    requires CommonOk(prev) && CommonOk(m) && SockOk(s)
    requires (s.family == NoFamily ==> s == NoSock()) && (SocketFlag(m.flags) <==> s.family != NoFamily)
    ensures var buf := EncAck(m, cookie, s) + rest;
      var h := DecCommon(prev, buf, Cursor(|buf|, 0));
      && h.value == Some(m.(pc := m.pc % 32, flags := Bits(m.flags)))
      && var k := DecBuf(Zeros(|cookie|), buf, h.cur);
      && k.value == cookie
      && DecIfSock(h.value.value.flags, junk, buf, k.cur).value == Used(s)
  {
    var buf := EncAck(m, cookie, s) + rest;
    var c := Cursor(|buf|, 0);
    AtStart(EncAck(m, cookie, s), rest);
    AtSplit(buf, c, EncCommon(m), cookie + EncIfSock(s));
    RoundCommon(prev, buf, c, m);
    AtSplit(buf, Past(c, 20), cookie, EncIfSock(s));
    RoundBuf(Zeros(|cookie|), buf, Past(c, 20), cookie);
    BitsKeepSocket(m.flags);
    if s.family != NoFamily {
      RoundSock(NoSock(), junk, buf, Past(c, 20 + |cookie|), s);
    }
  }

  lemma BitsKeepSocket(flags: U16)
    ensures SocketFlag(Bits(flags)) == SocketFlag(flags)
  {
    assert Bits(flags) / 0x40 == flags / 0x40;
  }

  // ------------------------------------------------------------------ the code in place

  lemma Append3<T>(w: seq<T>, a: seq<T>, b: seq<T>, c: seq<T>)
    ensures w + a + b + c == w + (a + b + c)
  {
  }

  lemma Append4<T>(w: seq<T>, a: seq<T>, b: seq<T>, c: seq<T>, d: seq<T>)
    ensures w + a + b + c + d == w + (a + (b + c + d))
  {
    Append3(w + a, b, c, d);
    assert (w + a) + (b + c + d) == w + (a + (b + c + d));
  }

  lemma AppendNested<T>(w: seq<T>, a: seq<T>, b: seq<T>, c: seq<T>, d: seq<T>)
    ensures w + a + b + c + d == w + (a + (b + (c + d)))
  {
    Append4(w, a, b, c, d);
    assert b + c + d == b + (c + d);
  }

  /** A packet being written: base and *idx. */
  class Writer {
    const base: array<Byte>
    var idx: nat

    ghost predicate Valid()
      reads this
    {
      idx <= base.Length
    }

    function Written(): seq<Byte>
      reads this, base
      requires Valid()
    {
      base[..idx]
    }

    constructor (size: nat)
      ensures Valid() && Written() == [] && base.Length == size && fresh(base)
    {
      base, idx := new Byte[size], 0;
    }

    /** upunch/p2p_wire.c:16-23. */
    method Encode8(v: Byte)
      requires Valid() && idx + 1 <= base.Length
      modifies this`idx, base
      ensures Valid() && Written() == old(Written()) + [v]
    {
      base[idx] := v;
      idx := idx + 1;
    }

    /** upunch/p2p_wire.c:38-46. */
    method Encode16(v: U16)
      requires Valid() && idx + 2 <= base.Length
      modifies this`idx, base
      ensures Valid() && Written() == old(Written()) + Enc16(v)
    {
      base[idx] := v / 0x100;
      base[idx + 1] := v % 0x100;
      idx := idx + 2;
    }

    /** upunch/p2p_wire.c:62-72. */
    method Encode32(v: U32)
      requires Valid() && idx + 4 <= base.Length
      modifies this`idx, base
      ensures Valid() && Written() == old(Written()) + Enc32(v)
    {
      base[idx] := v / 0x100_0000;
      base[idx + 1] := (v / 0x1_0000) % 0x100;
      base[idx + 2] := (v / 0x100) % 0x100;
      base[idx + 3] := v % 0x100;
      idx := idx + 4;
    }

    /** upunch/p2p_wire.c:90-98. */
    method EncodeBuf(p: seq<Byte>)
      requires Valid() && idx + |p| <= base.Length
      modifies this`idx, base
      ensures Valid() && Written() == old(Written()) + p
    {
      forall i | 0 <= i < |p| {
        base[idx + i] := p[i];
      }
      idx := idx + |p|;
    }

    /** upunch/p2p_wire.c:115-130. */
    method EncodeCommon(c: Common)
      requires Valid() && idx + |EncCommon(c)| <= base.Length
      modifies this`idx, base
      ensures Valid() && Written() == old(Written()) + EncCommon(c)
    {
      ghost var was := Written();
      Encode8(P2P_PKT_VERSION);
      Encode8(c.ttl);
      Encode16(c.pc % 32 + Bits(c.flags));
      EncodeBuf(c.community);
      assert was + [P2P_PKT_VERSION] + [c.ttl] == was + [P2P_PKT_VERSION, c.ttl];
      Append3(was, [P2P_PKT_VERSION, c.ttl], Enc16(c.pc % 32 + Bits(c.flags)), c.community);
    }

    /** upunch/p2p_wire.c:157-187. */
    method EncodeSock(s: Sock)
      requires Valid() && SockOk(s) && idx + |EncSock(s)| <= base.Length
      modifies this`idx, base
      ensures Valid() && Written() == old(Written()) + EncSock(s)
    {
      ghost var was := Written();
      match s.family
      case Inet =>
        Encode16(0);
        Encode16(s.port);
        EncodeBuf(s.addr[..IPV4_SIZE]);
      case Inet6 =>
        Encode16(0x8000);
        Encode16(s.port);
        EncodeBuf(s.addr);
      case NoFamily =>
    }

    /** upunch/p2p_wire.c:219-231. */
    method EncodeRegister(c: Common, r: Register)
      requires Valid() && RegisterOk(r) && idx + |EncRegister(c, r)| <= base.Length
      modifies this`idx, base
      ensures Valid() && Written() == old(Written()) + EncRegister(c, r)
    {
      ghost var was := Written();
      EncodeCommon(c);
      EncodeBuf(r.cookie);
      EncodeSock(r.origSender);
      EncodeSock(r.destSock);
      Append4(was, EncCommon(c), r.cookie, EncSock(r.origSender), EncSock(r.destSock));
    }

    /** upunch/p2p_wire.c:325-327. */
    method EncodeAckFront(a: SuperAck)
      requires Valid() && SuperAckOk(a) && idx + |AckFront(a)| <= base.Length
      modifies this`idx, base
      ensures Valid() && Written() == old(Written()) + AckFront(a)
    {
      ghost var was := Written();
      EncodeBuf(a.cookie);
      Encode16(a.lifetime);
      EncodeSock(a.sock);
      Append3(was, a.cookie, Enc16(a.lifetime), EncSock(a.sock));
    }

    /** upunch/p2p_wire.c:318-336. */
    method EncodeSuperAck(c: Common, a: SuperAck)
      requires Valid() && SuperAckOk(a) && idx + |EncSuperAck(c, a)| <= base.Length
      modifies this`idx, base
      ensures Valid() && Written() == old(Written()) + EncSuperAck(c, a)
    {
      ghost var was := Written();
      EncodeCommon(c);
      EncodeAckFront(a);
      Encode8(a.numSn);
      ghost var bak := if 0 < a.numSn then EncSock(a.snBak) else [];
      AppendNested(was, EncCommon(c), AckFront(a), [a.numSn], bak);
      if 0 < a.numSn {
        EncodeSock(a.snBak);
      }
    }
  }

  /** A packet being read: base, *rem and *idx. */
  class Reader {
    const base: seq<Byte>
    var rem: nat
    var idx: nat

    function At(): Cursor
      reads this
    {
      Cursor(rem, idx)
    }

    constructor (base: seq<Byte>)
      ensures this.base == base && At() == Cursor(|base|, 0)
    {
      this.base, rem, idx := base, |base|, 0;
    }

    /** upunch/p2p_wire.c:25-36. */
    method Decode8(prev: Byte) returns (out: Byte)
      requires Inside(base, At())
      modifies this
      ensures Got(out, At()) == Dec8(prev, base, old(At()))
    {
      out := prev;
      if 1 <= rem {
        out := base[idx];
        idx := idx + 1;
        rem := rem - 1;
      }
    }

    /** upunch/p2p_wire.c:48-60. */
    method Decode16(prev: U16) returns (out: U16)
      requires Inside(base, At())
      modifies this
      ensures Got(out, At()) == Dec16(prev, base, old(At()))
    {
      out := prev;
      if 2 <= rem {
        out := Join16(base[idx], base[idx + 1]);
        idx := idx + 2;
        rem := rem - 2;
      }
    }

    /** upunch/p2p_wire.c:101-113. */
    method DecodeBuf(prev: seq<Byte>) returns (out: seq<Byte>)
      requires Inside(base, At())
      modifies this
      ensures Got(out, At()) == DecBuf(prev, base, old(At()))
    {
      out := prev;
      if |prev| <= rem {
        out := base[idx..idx + |prev|];
        idx := idx + |prev|;
        rem := rem - |prev|;
      }
    }

    /** upunch/p2p_wire.c:132-154. */
    method DecodeCommon(prev: Common) returns (out: Option<Common>)
      requires Inside(base, At()) && CommonOk(prev)
      modifies this
      ensures Got(out, At()) == DecCommon(prev, base, old(At()))
    {
      var version := Decode8(0);
      if version != P2P_PKT_VERSION {
        return None;
      }
      var ttl := Decode8(prev.ttl);
      var flags := Decode16(prev.flags);
      var community := DecodeBuf(prev.community);
      out := Some(Common(ttl, flags % 32, Bits(flags), community));
    }

    /** upunch/p2p_wire.c:190-217. */
    method DecodeSock(prev: Sock, junk: U16) returns (out: Sock)
      requires Inside(base, At()) && SockOk(prev)
      modifies this
      ensures Got(out, At()) == DecSock(prev, junk, base, old(At()))
    {
      var f := Decode16(junk);
      var port := Decode16(prev.port);
      if 0x8000 <= f {
        var addr := DecodeBuf(prev.addr);
        out := Sock(Inet6, port, addr);
      } else {
        var addr := DecodeBuf(Zeros(IPV4_SIZE));
        out := Sock(Inet, port, addr + Zeros(IPV6_SIZE - IPV4_SIZE));
      }
    }

    /** upunch/p2p_wire.c:233-246. */
    method DecodeRegister(junk: (U16, U16)) returns (out: Register)
      requires Inside(base, At())
      modifies this
      ensures Got(out, At()) == DecRegister(junk, base, old(At()))
    {
      var cookie := DecodeBuf(Zeros(P2P_COOKIE_SIZE));
      var origSender := DecodeSock(NoSock(), junk.0);
      var destSock := DecodeSock(NoSock(), junk.1);
      out := Register(cookie, origSender, destSock);
    }
  }
}
