/** The supernode's handling of REGISTER and REGISTER_SUPER (upunch/sn.c:103-156, 192-235,
    302-449; upunch/punch_common.c:174-186). */
module Supernode {
  import opened Wire

  const MSG_TYPE_REGISTER: nat := 1
  const MSG_TYPE_REGISTER_SUPER: nat := 5
  const MSG_TYPE_REGISTER_SUPER_ACK: nat := 6
  const P2P_DEFAULT_TTL: Byte := 2
  const LIFETIME: U16 := 120
  const PKTBUF_SIZE: nat := 2048

  datatype Edge = Edge(community: seq<Byte>, sock: Sock, lastSeen: int)

  /** The address a datagram came from, as the socket reports it. */
  datatype Sender = Sender(port: U16, v4: seq<Byte>)

  datatype Packet = Packet(to: Sock, bytes: seq<Byte>)

  /** The edges after a datagram, and what is sent. */
  datatype Outcome = Outcome(edges: seq<Edge>, sent: Option<Packet>)

  predicate SenderOk(s: Sender) { |s.v4| == IPV4_SIZE }

  predicate EdgeOk(e: Edge) { SockOk(e.sock) && e.sock.family == Inet }

  predicate EdgesOk(edges: seq<Edge>) { forall i :: 0 <= i < |edges| ==> EdgeOk(edges[i]) }

  /** Lines 425-427 and 385-387: the sender's address in the sock, whose other bytes stay. */
  function Observed(sender: Sender, was: Sock): (s: Sock)
    requires SenderOk(sender) && SockOk(was)
    ensures SockOk(s) && s.family == Inet && s.port == sender.port && s.addr[..IPV4_SIZE] == sender.v4
  {
    Sock(Inet, sender.port, sender.v4 + was.addr[IPV4_SIZE..])
  }

  /** upunch/punch_common.c:178: a port and four address bytes. */
  predicate SamePlace(a: Sock, b: Sock)
    requires SockOk(a) && SockOk(b)
  {
    a.port == b.port && a.addr[..IPV4_SIZE] == b.addr[..IPV4_SIZE]
  }

  /** find_peer_by_addr: the first edge at the place, or the length. */
  function Find(edges: seq<Edge>, s: Sock): (i: nat)
    requires SockOk(s) && EdgesOk(edges)
    ensures i <= |edges|
    ensures i < |edges| ==> SamePlace(s, edges[i].sock)
    ensures forall j :: 0 <= j < i ==> !SamePlace(s, edges[j].sock)
  {
    if edges == [] || SamePlace(s, edges[0].sock) then 0 else 1 + Find(edges[1..], s)
  }

  /** upunch/sn.c:103-156. */
  function UpdateEdge(edges: seq<Edge>, community: seq<Byte>, s: Sock, now: int): (r: seq<Edge>)
    requires SockOk(s) && s.family == Inet && EdgesOk(edges)
    ensures EdgesOk(r)
  {
    var i := Find(edges, s);
    if i == |edges| then [Edge(community, s, now)] + edges
    else
      var e := edges[i];
      var differs := community != e.community || s.port != e.sock.port || s.family != e.sock.family
                     || s.addr[..IPV4_SIZE] != e.sock.addr[..IPV4_SIZE];
      edges[i := Edge(if differs then community else e.community, if differs then s else e.sock, now)]
  }

  /** upunch/sn.c:197-235. */
  function TryForward(edges: seq<Edge>, dst: Sock, bytes: seq<Byte>): Option<Packet>
    requires SockOk(dst) && EdgesOk(edges)
  {
    var i := Find(edges, dst);
    if i < |edges| then Some(Packet(edges[i].sock, bytes)) else None
  }

  /** What the stack holds for variables that a short datagram leaves unset. */
  datatype Junk = Junk(common: Common, first: U16, second: U16, ack: Sock)

  predicate JunkOk(j: Junk) { CommonOk(j.common) && SockOk(j.ack) }

  /** upunch/sn.c:376-397. */
  function OnRegister(edges: seq<Edge>, sender: Sender, buf: seq<Byte>, m: Common, c: Cursor, junk: Junk): (o: Outcome)
    requires SenderOk(sender) && EdgesOk(edges) && JunkOk(junk) && CommonOk(m) && c.idx + c.rem == |buf|
    ensures EdgesOk(o.edges)
  {
    var d := DecRegister((junk.first, junk.second), buf, c);
    var reg := d.value.(origSender := Observed(sender, d.value.origSender));
    var out := EncRegister(m.(flags := P2P_FLAGS_FROM_SUPERNODE), reg) + buf[d.cur.idx..];
    Outcome(edges, TryForward(edges, reg.destSock, out))
  }

  /** The header and body of the answer to a REGISTER_SUPER, upunch/sn.c:417-430. */
  function AckHeader(m: Common): Common {
    Common(P2P_DEFAULT_TTL, MSG_TYPE_REGISTER_SUPER_ACK, 0x40 + 0x20, m.community)
  }

  function AckBody(sender: Sender, cookie: seq<Byte>, junk: Junk): SuperAck
    requires SenderOk(sender) && JunkOk(junk)
  {
    SuperAck(cookie, LIFETIME, Observed(sender, junk.ack), 0, NoSock())
  }

  /** upunch/sn.c:413-440. */
  function OnRegisterSuper(
      edges: seq<Edge>, sender: Sender, buf: seq<Byte>, m: Common, c: Cursor, now: int, junk: Junk): (o: Outcome)
    requires SenderOk(sender) && EdgesOk(edges) && JunkOk(junk) && CommonOk(m) && c.idx + c.rem == |buf|
    ensures EdgesOk(o.edges)
  {
    var k := DecBuf(Zeros(P2P_COOKIE_SIZE), buf, c);
    var ack := AckBody(sender, k.value, junk);
    Outcome(UpdateEdge(edges, m.community, ack.sock, now),
            Some(Packet(ack.sock, EncSuperAck(AckHeader(m), ack))))
  }

  /** upunch/sn.c:305-449. */
  function Process(edges: seq<Edge>, sender: Sender, buf: seq<Byte>, now: int, junk: Junk): (o: Outcome)
    requires SenderOk(sender) && EdgesOk(edges) && JunkOk(junk)
    ensures EdgesOk(o.edges)
  {
    var h := DecCommon(junk.common, buf, Cursor(|buf|, 0));
    if h.value.None? || h.value.value.ttl < 1 then Outcome(edges, None)
    else
      var m := h.value.value.(ttl := h.value.value.ttl - 1);
      if m.pc == MSG_TYPE_REGISTER then OnRegister(edges, sender, buf, m, h.cur, junk)
      else if m.pc == MSG_TYPE_REGISTER_SUPER then OnRegisterSuper(edges, sender, buf, m, h.cur, now, junk)
      else Outcome(edges, None)
  }

  /** A header of the wrong version, one with no time to live left, or one of neither of the two
      types, nor of a heartbeat, is answered with nothing and changes nothing. */
  lemma OthersIgnored(edges: seq<Edge>, sender: Sender, buf: seq<Byte>, now: int, junk: Junk)
    requires SenderOk(sender) && EdgesOk(edges) && JunkOk(junk) && 20 <= |buf|
    requires buf[0] != 2 || buf[1] == 0 || (buf[3] % 32 != 1 && buf[3] % 32 != 5 && buf[3] % 32 != 8)
    ensures Process(edges, sender, buf, now, junk) == Outcome(edges, None)
  {
    HeaderIsReadWhole(junk.common, buf, Cursor(|buf|, 0));
    var g := DecCommon(junk.common, buf, Cursor(|buf|, 0));
    if g.value.Some? {
      TypeByte(buf[2], buf[3]);
    }
  }

  lemma TypeByte(hi: Byte, lo: Byte)
    ensures Join16(hi, lo) % 32 == lo % 32
  {
  }

  // ------------------------------------------------------------------------ forwarding

  ghost predicate Sendable(m: Common, r: Register) {
    && CommonOk(m) && RegisterOk(r) && m.pc == MSG_TYPE_REGISTER
    && r.origSender.family != NoFamily && r.destSock.family != NoFamily
  }

  lemma UsedTwice(s: Sock)
    requires SockOk(s)
    ensures SockOk(Used(s)) && Used(Used(s)) == Used(s) && EncSock(Used(s)) == EncSock(s)
  {
    if s.family == Inet {
      assert Used(s).addr[..IPV4_SIZE] == s.addr[..IPV4_SIZE];
    }
  }

  datatype Parsed = Parsed(header: Common, reg: Register, payload: seq<Byte>)

  /** A datagram read as a REGISTER. */
  function Parse(prev: Common, junk: (U16, U16), buf: seq<Byte>): Option<Parsed>
    requires CommonOk(prev)
  {
    var h := DecCommon(prev, buf, Cursor(|buf|, 0));
    if h.value.None? then None
    else
      var d := DecRegister(junk, buf, h.cur);
      Some(Parsed(h.value.value, d.value, buf[d.cur.idx..]))
  }

  lemma ParseFrom(prev: Common, junk: (U16, U16), buf: seq<Byte>, h: Common, r: Register, c: Cursor, d: Cursor)
    requires CommonOk(prev) && DecCommon(prev, buf, Cursor(|buf|, 0)) == Got(Some(h), c)
    requires Inside(buf, c) && DecRegister(junk, buf, c) == Got(r, d)
    ensures Parse(prev, junk, buf) == Some(Parsed(h, r, buf[d.idx..]))
  {
  }

  lemma HeaderOfRegister(m: Common)
    requires m.pc == MSG_TYPE_REGISTER
    ensures m.(pc := m.pc % 32, flags := Bits(m.flags)) == m.(flags := Bits(m.flags))
  {
  }

  function Body(r: Register): seq<Byte>
    requires RegisterOk(r)
  {
    r.cookie + EncSock(r.origSender) + EncSock(r.destSock)
  }

  lemma ReadParts(prev: Common, junk: (U16, U16), buf: seq<Byte>, m: Common, r: Register)
    requires CommonOk(prev) && Sendable(m, r) && 20 <= |buf|
    requires At(buf, Cursor(|buf|, 0), EncCommon(m)) && At(buf, Cursor(|buf| - 20, 20), Body(r))
    ensures Parse(prev, junk, buf) == Some(Parsed(
      m.(flags := Bits(m.flags)), Register(r.cookie, Used(r.origSender), Used(r.destSock)), buf[20 + |Body(r)|..]))
  {
    var c := Cursor(|buf|, 0);
    RoundCommon(prev, buf, c, m);
    HeaderOfRegister(m);
    RoundRegister(junk, buf, Past(c, 20), r);
    ParseFrom(prev, junk, buf, m.(flags := Bits(m.flags)),
              Register(r.cookie, Used(r.origSender), Used(r.destSock)), Past(c, 20), Past(c, 20 + |Body(r)|));
  }

  lemma CutInThree(a: seq<Byte>, b: seq<Byte>, rest: seq<Byte>)
    ensures var buf := (a + b) + rest;
      At(buf, Cursor(|buf|, 0), a) && At(buf, Cursor(|buf| - |a|, |a|), b) && buf[|a| + |b|..] == rest
  {
    var buf := (a + b) + rest;
    AtStart(a + b, rest);
    AtSplit(buf, Cursor(|buf|, 0), a, b);
  }

  lemma HeaderLength(m: Common)
    requires CommonOk(m)
    ensures |EncCommon(m)| == 20
  {
  }

  /** What is read from a REGISTER that an edge wrote. */
  lemma ReadRegister(prev: Common, junk: (U16, U16), m: Common, r: Register, payload: seq<Byte>)
    requires CommonOk(prev) && Sendable(m, r)
    ensures Parse(prev, junk, EncRegister(m, r) + payload) == Some(Parsed(
      m.(flags := Bits(m.flags)), Register(r.cookie, Used(r.origSender), Used(r.destSock)), payload))
  {
    HeaderLength(m);
    CutInThree(EncCommon(m), Body(r), payload);
    ReadParts(prev, junk, (EncCommon(m) + Body(r)) + payload, m, r);
  }

  /** What the supernode sends on: the header and the message that it makes of a REGISTER. */
  function Relayed(m: Common): Common
    requires 1 <= m.ttl
  {
    m.(ttl := m.ttl - 1, flags := P2P_FLAGS_FROM_SUPERNODE)
  }

  function Restamped(sender: Sender, r: Register): Register
    requires SenderOk(sender) && RegisterOk(r)
  {
    Register(r.cookie, Observed(sender, Used(r.origSender)), Used(r.destSock))
  }

  /** What is made of a datagram that reads as a REGISTER. */
  lemma ProcessParsed(edges: seq<Edge>, sender: Sender, buf: seq<Byte>, now: int, junk: Junk, p: Parsed)
    requires SenderOk(sender) && EdgesOk(edges) && JunkOk(junk)
    requires Parse(junk.common, (junk.first, junk.second), buf) == Some(p)
    requires CommonOk(p.header) && RegisterOk(p.reg) && p.header.pc == MSG_TYPE_REGISTER
    ensures Process(edges, sender, buf, now, junk) ==
      if p.header.ttl < 1 then Outcome(edges, None)
      else
        Outcome(edges, TryForward(edges, p.reg.destSock,
          EncRegister(Relayed(p.header), p.reg.(origSender := Observed(sender, p.reg.origSender))) + p.payload))
  {
  }

  lemma RelaysRestamped(edges: seq<Edge>, sender: Sender, now: int, junk: Junk, m: Common, r: Register,
                        payload: seq<Byte>)
    requires SenderOk(sender) && EdgesOk(edges) && JunkOk(junk) && Sendable(m, r) && 1 <= m.ttl
    ensures Process(edges, sender, EncRegister(m, r) + payload, now, junk)
      == Outcome(edges, TryForward(edges, Used(r.destSock), EncRegister(Relayed(m), Restamped(sender, r)) + payload))
  {
    var header, reg := m.(flags := Bits(m.flags)), Register(r.cookie, Used(r.origSender), Used(r.destSock));
    ReadRegister(junk.common, (junk.first, junk.second), m, r, payload);
    ProcessParsed(edges, sender, EncRegister(m, r) + payload, now, junk, Parsed(header, reg, payload));
    assert Relayed(header) == Relayed(m);
    assert reg.(origSender := Observed(sender, reg.origSender)) == Restamped(sender, r);
  }

  lemma TargetReads(sender: Sender, m: Common, r: Register, payload: seq<Byte>, prev: Common, junk: (U16, U16))
    requires SenderOk(sender) && CommonOk(prev) && Sendable(m, r) && 1 <= m.ttl
    ensures Parse(prev, junk, EncRegister(Relayed(m), Restamped(sender, r)) + payload) == Some(Parsed(
      Common(m.ttl - 1, MSG_TYPE_REGISTER, P2P_FLAGS_FROM_SUPERNODE, m.community),
      Register(r.cookie, Used(Observed(sender, r.origSender)), Used(r.destSock)),
      payload))
  {
    ReadRegister(prev, junk, Relayed(m), Restamped(sender, r), payload);
    UsedTwice(r.destSock);
    UsedObserved(sender, r.origSender);
    assert Relayed(m).(flags := Bits(P2P_FLAGS_FROM_SUPERNODE))
      == Common(m.ttl - 1, MSG_TYPE_REGISTER, P2P_FLAGS_FROM_SUPERNODE, m.community);
  }

  lemma UsedObserved(sender: Sender, s: Sock)
    requires SenderOk(sender) && SockOk(s)
    ensures SockOk(Used(s)) && Used(Observed(sender, Used(s))) == Used(Observed(sender, s))
  {
    assert Observed(sender, Used(s)).addr[..IPV4_SIZE] == sender.v4 == Observed(sender, s).addr[..IPV4_SIZE];
  }

  lemma SentIsParsed(edges: seq<Edge>, o: Outcome, dst: Sock, bytes: seq<Byte>, prev: Common, junk: (U16, U16),
                     p: Parsed)
    requires EdgesOk(edges) && SockOk(dst) && CommonOk(prev)
    requires o == Outcome(edges, TryForward(edges, dst, bytes)) && Find(edges, dst) < |edges|
    requires Parse(prev, junk, bytes) == Some(p)
    ensures o.edges == edges && o.sent.Some? && o.sent.value.to == edges[Find(edges, dst)].sock
    ensures Parse(prev, junk, o.sent.value.bytes) == Some(p)
  {
  }

  /** A REGISTER written by an edge and sent through a supernode that knows its target
      reaches the target with its cookie, its destination and its payload, with the sender's
      address as the supernode observed it, and with a TTL one lower. */
  lemma RegisterIsForwarded(edges: seq<Edge>, sender: Sender, now: int, junk: Junk,
                            m: Common, r: Register, payload: seq<Byte>, prev: Common, junk2: (U16, U16))
    requires SenderOk(sender) && EdgesOk(edges) && JunkOk(junk) && CommonOk(prev) && Sendable(m, r)
    requires 1 <= m.ttl && Find(edges, Used(r.destSock)) < |edges|
    ensures var o := Process(edges, sender, EncRegister(m, r) + payload, now, junk);
      && o.edges == edges && o.sent.Some?
      && o.sent.value.to == edges[Find(edges, Used(r.destSock))].sock
      && Parse(prev, junk2, o.sent.value.bytes) == Some(Parsed(
           Common(m.ttl - 1, MSG_TYPE_REGISTER, P2P_FLAGS_FROM_SUPERNODE, m.community),
           Register(r.cookie, Used(Observed(sender, r.origSender)), Used(r.destSock)),
           payload))
  {
    RelaysRestamped(edges, sender, now, junk, m, r, payload);
    TargetReads(sender, m, r, payload, prev, junk2);
    SentIsParsed(edges, Process(edges, sender, EncRegister(m, r) + payload, now, junk), Used(r.destSock),
      EncRegister(Relayed(m), Restamped(sender, r)) + payload, prev, junk2, Parsed(
        Common(m.ttl - 1, MSG_TYPE_REGISTER, P2P_FLAGS_FROM_SUPERNODE, m.community),
        Register(r.cookie, Used(Observed(sender, r.origSender)), Used(r.destSock)),
        payload));
  }

  /** With no time to live left, or for an unknown target, nothing is sent. */
  lemma NotForwarded(edges: seq<Edge>, sender: Sender, now: int, junk: Junk, m: Common, r: Register, payload: seq<Byte>)
    requires SenderOk(sender) && EdgesOk(edges) && JunkOk(junk) && Sendable(m, r)
    requires m.ttl == 0 || Find(edges, Used(r.destSock)) == |edges|
    ensures Process(edges, sender, EncRegister(m, r) + payload, now, junk) == Outcome(edges, None)
  {
    ReadRegister(junk.common, (junk.first, junk.second), m, r, payload);
    ProcessParsed(edges, sender, EncRegister(m, r) + payload, now, junk, Parsed(
      m.(flags := Bits(m.flags)), Register(r.cookie, Used(r.origSender), Used(r.destSock)), payload));
  }

  // ---------------------------------------------------------------------- registration

  /** No two edges are at one place. */
  ghost predicate OnePerPlace(edges: seq<Edge>)
    requires EdgesOk(edges)
  {
    forall i, j :: 0 <= i < j < |edges| ==> !SamePlace(edges[i].sock, edges[j].sock)
  }

  lemma UpdateKeepsPlaces(edges: seq<Edge>, community: seq<Byte>, s: Sock, now: int)
    requires SockOk(s) && s.family == Inet && EdgesOk(edges) && OnePerPlace(edges)
    ensures OnePerPlace(UpdateEdge(edges, community, s, now))
  {
  }

  lemma UpdateFindsSender(edges: seq<Edge>, community: seq<Byte>, s: Sock, now: int)
    requires SockOk(s) && s.family == Inet && EdgesOk(edges)
    ensures var r := UpdateEdge(edges, community, s, now);
      var i := Find(r, s);
      i < |r| && r[i].community == community && r[i].lastSeen == now && SamePlace(r[i].sock, s)
  {
    var i := Find(edges, s);
    FindAt(UpdateEdge(edges, community, s, now), s, if i < |edges| then i else 0);
  }

  lemma UpdateKeepsOthers(edges: seq<Edge>, community: seq<Byte>, s: Sock, now: int, other: Sock)
    requires SockOk(s) && s.family == Inet && EdgesOk(edges) && SockOk(other) && !SamePlace(other, s)
    ensures var r := UpdateEdge(edges, community, s, now);
      && (Find(r, other) < |r| <==> Find(edges, other) < |edges|)
      && (Find(r, other) < |r| ==> r[Find(r, other)] == edges[Find(edges, other)])
  {
    var r := UpdateEdge(edges, community, s, now);
    if Find(edges, s) == |edges| {
      assert r[1..] == edges;
    } else if Find(edges, other) < |edges| {
      FindAt(r, other, Find(edges, other));
    }
  }

  /** After an update the sender is found, with its community and time; every other place is
      found as before; and there is still one edge per place. */
  lemma UpdateEdgeUpdates(edges: seq<Edge>, community: seq<Byte>, s: Sock, now: int, other: Sock)
    requires SockOk(s) && s.family == Inet && EdgesOk(edges) && OnePerPlace(edges) && SockOk(other)
    ensures var r := UpdateEdge(edges, community, s, now);
      && OnePerPlace(r)
      && var i := Find(r, s);
      && i < |r| && r[i].community == community && r[i].lastSeen == now && SamePlace(r[i].sock, s)
      && (!SamePlace(other, s) ==>
            (Find(r, other) < |r| <==> Find(edges, other) < |edges|)
            && (Find(r, other) < |r| ==> r[Find(r, other)] == edges[Find(edges, other)]))
  {
    UpdateKeepsPlaces(edges, community, s, now);
    UpdateFindsSender(edges, community, s, now);
    if !SamePlace(other, s) {
      UpdateKeepsOthers(edges, community, s, now, other);
    }
  }

  lemma FindAt(edges: seq<Edge>, s: Sock, i: nat)
    requires SockOk(s) && EdgesOk(edges) && i < |edges| && SamePlace(s, edges[i].sock)
    requires forall j :: 0 <= j < i ==> !SamePlace(s, edges[j].sock)
    ensures Find(edges, s) == i
  {
  }

  /** A REGISTER_SUPER is answered to its sender: the answer carries the cookie and the
      sender's address as observed, and a message for that address is then sent there. */
  lemma RegisteredIsReachable(edges: seq<Edge>, sender: Sender, now: int, junk: Junk,
                              m: Common, cookie: seq<Byte>, rest: seq<Byte>, dst: Sock, bytes: seq<Byte>)
    requires SenderOk(sender) && EdgesOk(edges) && OnePerPlace(edges) && JunkOk(junk)
    requires CommonOk(m) && |cookie| == P2P_COOKIE_SIZE && m.pc == MSG_TYPE_REGISTER_SUPER && 1 <= m.ttl
    requires SockOk(dst) && SamePlace(dst, Observed(sender, NoSock()))
    ensures var o := Process(edges, sender, EncCommon(m) + (cookie + rest), now, junk);
      var body := AckBody(sender, cookie, junk);
      && o.sent == Some(Packet(body.sock, EncSuperAck(AckHeader(m), body)))
      && body.sock.port == sender.port && body.sock.addr[..IPV4_SIZE] == sender.v4
      && OnePerPlace(o.edges) && Reachable(o.edges, dst)
      && var f := TryForward(o.edges, dst, bytes);
      f.Some? && SamePlace(f.value.to, dst) && f.value.bytes == bytes
  {
    var buf := EncCommon(m) + (cookie + rest);
    var c := Cursor(|buf|, 0);
    assert At(buf, c, EncCommon(m) + (cookie + rest));
    AtSplit(buf, c, EncCommon(m), cookie + rest);
    RoundCommon(junk.common, buf, c, m);
    AtSplit(buf, Past(c, 20), cookie, rest);
    RoundBuf(Zeros(P2P_COOKIE_SIZE), buf, Past(c, 20), cookie);
    var s := AckBody(sender, cookie, junk).sock;
    assert s.addr[..IPV4_SIZE] == sender.v4 == Observed(sender, NoSock()).addr[..IPV4_SIZE];
    UpdateEdgeUpdates(edges, m.community, s, now, dst);
    SamePlaceFinds(UpdateEdge(edges, m.community, s, now), s, dst);
  }

  /** Some edge is at the place, so that a message for it is sent there. */
  predicate Reachable(edges: seq<Edge>, dst: Sock)
    requires SockOk(dst) && EdgesOk(edges)
  {
    Find(edges, dst) < |edges|
  }

  lemma ReachableGets(edges: seq<Edge>, dst: Sock, bytes: seq<Byte>)
    requires SockOk(dst) && EdgesOk(edges) && Reachable(edges, dst)
    ensures var f := TryForward(edges, dst, bytes);
      f.Some? && SamePlace(f.value.to, dst) && f.value.bytes == bytes
  {
  }

  lemma UpdateKeepsReachable(edges: seq<Edge>, community: seq<Byte>, s: Sock, now: int, dst: Sock)
    requires SockOk(s) && s.family == Inet && EdgesOk(edges) && OnePerPlace(edges) && SockOk(dst)
    requires Reachable(edges, dst)
    ensures Reachable(UpdateEdge(edges, community, s, now), dst)
  {
    UpdateEdgeUpdates(edges, community, s, now, dst);
    if SamePlace(dst, s) {
      SamePlaceFinds(UpdateEdge(edges, community, s, now), s, dst);
    }
  }

  /** One datagram leaves the edges alone or updates one with an observed address. */
  lemma ProcessUpdates(edges: seq<Edge>, sender: Sender, buf: seq<Byte>, now: int, junk: Junk)
    requires SenderOk(sender) && EdgesOk(edges) && JunkOk(junk)
    ensures var r := Process(edges, sender, buf, now, junk).edges;
      r == edges || exists community :: r == UpdateEdge(edges, community, Observed(sender, junk.ack), now)
  {
    var h := DecCommon(junk.common, buf, Cursor(|buf|, 0));
    if h.value.Some? && h.value.value.pc == MSG_TYPE_REGISTER_SUPER && 1 <= h.value.value.ttl {
      var m := h.value.value;
      assert Process(edges, sender, buf, now, junk).edges
          == UpdateEdge(edges, m.community, Observed(sender, junk.ack), now);
    }
  }

  /** Whatever comes in, no two edges are at one place and no edge is lost. */
  lemma ProcessKeeps(edges: seq<Edge>, sender: Sender, buf: seq<Byte>, now: int, junk: Junk, dst: Sock)
    requires SenderOk(sender) && EdgesOk(edges) && JunkOk(junk) && SockOk(dst) && OnePerPlace(edges)
    ensures var r := Process(edges, sender, buf, now, junk).edges;
      OnePerPlace(r) && (Reachable(edges, dst) ==> Reachable(r, dst))
  {
    ProcessUpdates(edges, sender, buf, now, junk);
    var r := Process(edges, sender, buf, now, junk).edges;
    if r != edges {
      var community :| r == UpdateEdge(edges, community, Observed(sender, junk.ack), now);
      UpdateKeepsPlaces(edges, community, Observed(sender, junk.ack), now);
      if Reachable(edges, dst) {
        UpdateKeepsReachable(edges, community, Observed(sender, junk.ack), now, dst);
      }
    }
  }

  /** What comes in at one time. */
  datatype Datagram = Datagram(sender: Sender, buf: seq<Byte>, now: int, junk: Junk)

  predicate DatagramsOk(ds: seq<Datagram>) {
    forall i :: 0 <= i < |ds| ==> SenderOk(ds[i].sender) && JunkOk(ds[i].junk)
  }

  /** The edges after a run of datagrams. */
  function Served(edges: seq<Edge>, ds: seq<Datagram>): (r: seq<Edge>)
    requires EdgesOk(edges) && DatagramsOk(ds)
    ensures EdgesOk(r)
    decreases |ds|
  {
    if ds == [] then edges
    else Served(Process(edges, ds[0].sender, ds[0].buf, ds[0].now, ds[0].junk).edges, ds[1..])
  }

  lemma {:induction false} ServedKeeps(edges: seq<Edge>, ds: seq<Datagram>, dst: Sock)
    requires EdgesOk(edges) && DatagramsOk(ds) && SockOk(dst) && OnePerPlace(edges)
    ensures OnePerPlace(Served(edges, ds))
    ensures Reachable(edges, dst) ==> Reachable(Served(edges, ds), dst)
    decreases |ds|
  {
    if ds != [] {
      ProcessKeeps(edges, ds[0].sender, ds[0].buf, ds[0].now, ds[0].junk, dst);
      ServedKeeps(Process(edges, ds[0].sender, ds[0].buf, ds[0].now, ds[0].junk).edges, ds[1..], dst);
    }
  }

  /** From a REGISTER_SUPER on, over every run of datagrams before and after it, a message for
      the address of its sender is sent there. The rest of the datagram is any whose token
      has the room that upunch/p2p_wire.c:273 takes for granted; longer ones are not modelled. */
  lemma RegisteredStaysReachable(before: seq<Datagram>, sender: Sender, now: int, junk: Junk,
                                 m: Common, cookie: seq<Byte>, rest: seq<Byte>, later: seq<Datagram>,
                                 dst: Sock, bytes: seq<Byte>)
    requires DatagramsOk(before) && SenderOk(sender) && JunkOk(junk) && DatagramsOk(later)
    requires CommonOk(m) && |cookie| == P2P_COOKIE_SIZE && m.pc == MSG_TYPE_REGISTER_SUPER && 1 <= m.ttl
    requires SockOk(dst) && SamePlace(dst, Observed(sender, NoSock()))
    ensures var o := Process(Served([], before), sender, EncCommon(m) + (cookie + rest), now, junk);
      var f := TryForward(Served(o.edges, later), dst, bytes);
      && OnePerPlace(Served(o.edges, later))
      && f.Some? && SamePlace(f.value.to, dst) && f.value.bytes == bytes
  {
    ServedKeeps([], before, dst);
    RegisteredIsReachable(Served([], before), sender, now, junk, m, cookie, rest, dst, bytes);
    var o := Process(Served([], before), sender, EncCommon(m) + (cookie + rest), now, junk);
    ServedKeeps(o.edges, later, dst);
    ReachableGets(Served(o.edges, later), dst, bytes);
  }

  lemma SamePlaceFinds(edges: seq<Edge>, s: Sock, t: Sock)
    requires SockOk(s) && SockOk(t) && SamePlace(s, t) && EdgesOk(edges)
    ensures Find(edges, s) == Find(edges, t)
  {
  }

  /** What the sender of a REGISTER_SUPER reads in the answer. */
  lemma AnswerIsRead(sender: Sender, m: Common, cookie: seq<Byte>, junk: Junk, prev: Common, junk2: (U16, U16))
    requires SenderOk(sender) && JunkOk(junk) && CommonOk(m) && CommonOk(prev) && |cookie| == P2P_COOKIE_SIZE
    ensures var buf := EncSuperAck(AckHeader(m), AckBody(sender, cookie, junk));
      var h := DecCommon(prev, buf, Cursor(|buf|, 0));
      && h.value == Some(Common(2, MSG_TYPE_REGISTER_SUPER_ACK, P2P_FLAGS_SOCKET + P2P_FLAGS_FROM_SUPERNODE,
                                m.community))
      && DecSuperAck(junk2, buf, h.cur).value
           == SuperAck(cookie, 120, Used(Observed(sender, junk.ack)), 0, NoSock())
  {
    var a := AckBody(sender, cookie, junk);
    var buf := EncSuperAck(AckHeader(m), a);
    var c := Cursor(|buf|, 0);
    assert At(buf, c, buf);
    AtSplit(buf, c, EncCommon(AckHeader(m)), AckFront(a) + ([a.numSn] + []));
    RoundCommon(prev, buf, c, AckHeader(m));
    RoundSuperAck(junk2, buf, Past(c, 20), a);
  }

  // ------------------------------------------------------------------- room in the buffer

  /** A buffer read in full, or all but a few bytes of it used up. */
  predicate FullOrShort(c: Cursor, d: Cursor, size: nat) {
    d.idx == c.idx + size || d.rem < IPV6_SIZE
  }

  lemma SockFullOrShort(prev: Sock, junk: U16, buf: seq<Byte>, c: Cursor)
    requires Inside(buf, c) && SockOk(prev)
    ensures var g := DecSock(prev, junk, buf, c); FullOrShort(c, g.cur, |EncSock(g.value)|)
  {
  }

  lemma CommonFullOrShort(prev: Common, buf: seq<Byte>, c: Cursor)
    requires Inside(buf, c) && CommonOk(prev)
    ensures var g := DecCommon(prev, buf, c); g.value.Some? ==> FullOrShort(c, g.cur, 20)
  {
  }

  lemma RegisterFullOrShort(junk: (U16, U16), buf: seq<Byte>, c: Cursor)
    requires Inside(buf, c)
    ensures var d := DecRegister(junk, buf, c);
      FullOrShort(c, d.cur, P2P_COOKIE_SIZE + |EncSock(d.value.origSender)| + |EncSock(d.value.destSock)|)
  {
    var k := DecBuf(Zeros(P2P_COOKIE_SIZE), buf, c);
    SockFullOrShort(NoSock(), junk.0, buf, k.cur);
    var o := DecSock(NoSock(), junk.0, buf, k.cur);
    SockFullOrShort(NoSock(), junk.1, buf, o.cur);
  }

  /** Whatever datagram comes in, what is sent fits the buffer of the same size: it is no
      longer than the datagram, or shorter than 68 bytes. */
  lemma SentFits(edges: seq<Edge>, sender: Sender, buf: seq<Byte>, now: int, junk: Junk)
    requires SenderOk(sender) && EdgesOk(edges) && JunkOk(junk)
    ensures var o := Process(edges, sender, buf, now, junk);
      o.sent.Some? ==> |o.sent.value.bytes| <= |buf| || |o.sent.value.bytes| < 68
  {
    var h := DecCommon(junk.common, buf, Cursor(|buf|, 0));
    if h.value.Some? {
      CommonFullOrShort(junk.common, buf, Cursor(|buf|, 0));
      RegisterFullOrShort((junk.first, junk.second), buf, h.cur);
    }
  }

  /** A REGISTER of c.rem bytes behind a header fits the buffer when it is sent on, with the
      sender's address in place of what it carried. */
  predicate Fits(buf: seq<Byte>, c: Cursor, junk: Junk)
    requires c.idx + c.rem == |buf|
  {
    var d := DecRegister((junk.first, junk.second), buf, c);
    20 + P2P_COOKIE_SIZE + 8 + |EncSock(d.value.destSock)| + (|buf| - d.cur.idx) <= PKTBUF_SIZE
  }

  /** So it does if the datagram itself fits. */
  lemma DatagramFits(buf: seq<Byte>, junk: Junk)
    requires JunkOk(junk) && |buf| <= PKTBUF_SIZE
    ensures var h := DecCommon(junk.common, buf, Cursor(|buf|, 0));
      h.value.Some? ==> Fits(buf, h.cur, junk)
  {
    var h := DecCommon(junk.common, buf, Cursor(|buf|, 0));
    if h.value.Some? {
      CommonFullOrShort(junk.common, buf, Cursor(|buf|, 0));
      RegisterFullOrShort((junk.first, junk.second), buf, h.cur);
    }
  }
}
