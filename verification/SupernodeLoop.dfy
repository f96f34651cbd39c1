/** The supernode's packet handler, which changes its list of edges in place. */
module SupernodeLoop {
  import opened Wire
  import opened Supernode

  /** p2p_sn_t: the list of edges, newest first. */
  class Node {
    var edges: seq<Edge>

    constructor ()
      ensures edges == []
    {
      edges := [];
    }

    /** upunch/punch_common.c:174-186. */
    method FindPeer(s: Sock) returns (i: nat)
      requires SockOk(s) && EdgesOk(edges)
      ensures i == Find(edges, s)
    {
      i := 0;
      assert edges[0..] == edges;
      while i < |edges| && !SamePlace(s, edges[i].sock)
        invariant i <= |edges| && Find(edges, s) == i + Find(edges[i..], s)
      {
        assert edges[i..][1..] == edges[i + 1..];
        i := i + 1;
      }
    }

    /** upunch/sn.c:103-156. */
    method Update(community: seq<Byte>, s: Sock, now: int)
      requires SockOk(s) && s.family == Inet && EdgesOk(edges)
      modifies this
      ensures edges == UpdateEdge(old(edges), community, s, now)
    {
      var i := FindPeer(s);
      if i == |edges| {
        edges := [Edge(community, s, now)] + edges;
      } else {
        var e := edges[i];
        if community != e.community || s.port != e.sock.port || s.family != e.sock.family
           || s.addr[..IPV4_SIZE] != e.sock.addr[..IPV4_SIZE] {
          e := Edge(community, s, e.lastSeen);
        }
        edges := edges[i := e.(lastSeen := now)];
      }
    }

    /** upunch/sn.c:305-449. */
    method ProcessUdp(sender: Sender, buf: seq<Byte>, now: int, junk: Junk) returns (sent: Option<Packet>)
      requires SenderOk(sender) && EdgesOk(edges) && JunkOk(junk) && |buf| <= PKTBUF_SIZE
      modifies this
      ensures Outcome(edges, sent) == Process(old(edges), sender, buf, now, junk)
    {
      DatagramFits(buf, junk);
      var reader := new Reader(buf);
      var cmn := reader.DecodeCommon(junk.common);
      if cmn.None? || cmn.value.ttl < 1 {
        return None;
      }
      var m := cmn.value.(ttl := cmn.value.ttl - 1);
      if m.pc == MSG_TYPE_REGISTER {
        sent := Forward(sender, buf, m, reader, junk);
      } else if m.pc == MSG_TYPE_REGISTER_SUPER {
        sent := Register(sender, m, reader, now, junk);
      } else {
        sent := None;
      }
    }

    /** upunch/sn.c:376-397. */
    method Forward(sender: Sender, buf: seq<Byte>, m: Common, reader: Reader, junk: Junk) returns (sent: Option<Packet>)
      requires SenderOk(sender) && EdgesOk(edges) && JunkOk(junk) && CommonOk(m)
      requires reader.base == buf && reader.At().idx + reader.At().rem == |buf|
      requires Fits(buf, reader.At(), junk)
      modifies reader
      ensures Outcome(edges, sent) == OnRegister(edges, sender, buf, m, old(reader.At()), junk)
    {
      var reg := reader.DecodeRegister((junk.first, junk.second));
      reg := reg.(origSender := Observed(sender, reg.origSender));
      var out := new Writer(PKTBUF_SIZE);
      out.EncodeRegister(m.(flags := P2P_FLAGS_FROM_SUPERNODE), reg);
      out.EncodeBuf(buf[reader.idx..]);
      assert out.Written() == EncRegister(m.(flags := P2P_FLAGS_FROM_SUPERNODE), reg) + buf[reader.idx..];
      var i := FindPeer(reg.destSock);
      if i < |edges| {
        sent := Some(Packet(edges[i].sock, out.base[..out.idx]));
      } else {
        sent := None;
      }
    }

    /** upunch/sn.c:413-440. */
    method Register(sender: Sender, m: Common, reader: Reader, now: int, junk: Junk) returns (sent: Option<Packet>)
      requires SenderOk(sender) && EdgesOk(edges) && JunkOk(junk) && CommonOk(m)
      requires reader.At().idx + reader.At().rem == |reader.base|
      modifies this, reader
      ensures Outcome(edges, sent) == OnRegisterSuper(old(edges), sender, reader.base, m, old(reader.At()), now, junk)
    {
      var cookie := reader.DecodeBuf(Zeros(P2P_COOKIE_SIZE));
      var ack := AckBody(sender, cookie, junk);
      Update(m.community, ack.sock, now);
      var out := new Writer(PKTBUF_SIZE);
      out.EncodeSuperAck(AckHeader(m), ack);
      assert out.Written() == EncSuperAck(AckHeader(m), ack);
      sent := Some(Packet(ack.sock, out.base[..out.idx]));
    }
  }
}
