/** The output queue of a peer (libbt/btpd/peer.c, libbt/btpd/net.c:181-278).

    A block is answered by two messages, a header and its data, which must leave one right
    after the other; requests, cancels and chokes come in at any time, and the socket
    takes any number of bytes. */
module PeerQueue {

  const MAXPIECEMSGS: int := 128

  datatype Req = Req(index: nat, begin: nat, length: nat)

  datatype Kind = Choke | Unchoke | Interest | Uninterest | Misc

  /** NB_PIECE, NB_TORRENTDATA, NB_REQUEST and the rest. The data message has no content
      until it is filled for the header before it; req is the request that both answer. */
  datatype Msg =
    | Piece(req: Req)
    | Data(req: Req, filled: bool)
    | Request(id: int)
    | Other(kind: Kind, size: nat)

  function Len(m: Msg): nat {
    match m
    case Piece(_) => 13
    case Data(req, filled) => if filled then req.length else 0
    case Request(_) => 17
    case Other(_, size) => size
  }

  /** off is outq_off, wantWrite says that the socket is watched for writing; sent is what
      has left the queue at its head. */
  datatype Peer = Peer(
    outq: seq<Msg>, off: nat, npieceMsgs: int, noRequests: bool, iChoke: bool, wantWrite: bool, sent: seq<Msg>)

  // ------------------------------------------------------------------- the operations

  /** libbt/btpd/peer.c:99-112. */
  function Send(p: Peer, m: Msg): Peer {
    p.(outq := p.outq + [m], wantWrite := p.outq == [] || p.wantWrite)
  }

  datatype Unsent = Unsent(peer: Peer, removed: bool)

  /** libbt/btpd/peer.c:114-142. */
  function Unsend(p: Peer, i: nat): Unsent
    requires i < |p.outq|
  {
    if i == 0 && 0 < p.off then Unsent(p, false)
    else
      var q := p.outq[..i] + p.outq[i + 1..];
      Unsent(p.(outq := q, npieceMsgs := p.npieceMsgs - (if p.outq[i].Data? then 1 else 0), wantWrite := q != []), true)
  }

  /** A header and, if that could be removed, the data behind it. */
  function UnsendBlock(p: Peer, i: nat): (u: Unsent)
    requires i + 1 < |p.outq|
  {
    var u := Unsend(p, i);
    if u.removed then Unsent(Unsend(u.peer, i).peer, true) else u
  }

  /** libbt/btpd/peer.c:274-284. */
  function ChokeFrom(p: Peer, i: nat): Peer
    requires i <= |p.outq|
    decreases |p.outq| - i
  {
    if i == |p.outq| then p
    else if p.outq[i].Piece? && i + 1 < |p.outq| then
      var u := UnsendBlock(p, i);
      if u.removed then ChokeFrom(u.peer, i) else ChokeFrom(p, i + 2)
    else ChokeFrom(p, i + 1)
  }

  /** libbt/btpd/peer.c:271-288. */
  function ChokePeer(p: Peer): Peer {
    Send(ChokeFrom(p, 0).(iChoke := true), Other(Choke, 5))
  }

  /** libbt/btpd/peer.c:264-269. */
  function UnchokePeer(p: Peer): Peer {
    Send(p.(iChoke := false), Other(Unchoke, 5))
  }

  /** libbt/btpd/peer.c:718-734. */
  function OnRequest(p: Peer, req: Req): Peer {
    if p.noRequests then p
    else
      var a := Send(Send(p, Piece(req)), Data(req, false));
      var b := a.(npieceMsgs := a.npieceMsgs + 1);
      if MAXPIECEMSGS <= b.npieceMsgs then
        Send(Send(b, Other(Choke, 5)), Other(Unchoke, 5)).(noRequests := true)
      else b
  }

  /** The first header of the request, or the length. */
  function FindPiece(q: seq<Msg>, req: Req): (i: nat)
    ensures i <= |q|
    ensures i < |q| ==> q[i] == Piece(req)
    ensures forall j :: 0 <= j < i ==> q[j] != Piece(req)
  {
    if q == [] || q[0] == Piece(req) then 0 else 1 + FindPiece(q[1..], req)
  }

  /** libbt/btpd/peer.c:736-754. */
  function OnCancel(p: Peer, req: Req): Peer {
    var i := FindPiece(p.outq, req);
    if i + 1 < |p.outq| then UnsendBlock(p, i).peer else p
  }

  function FindRequest(q: seq<Msg>, id: int): (i: nat)
    ensures i <= |q|
    ensures i < |q| ==> q[i] == Request(id)
    ensures forall j :: 0 <= j < i ==> q[j] != Request(id)
  {
    if q == [] || q[0] == Request(id) then 0 else 1 + FindRequest(q[1..], id)
  }

  /** libbt/btpd/peer.c:252-259: a request of ours is taken back or, if it has gone or is
      going, followed by a cancel. */
  function CancelRequest(p: Peer, id: int): Peer {
    var i := FindRequest(p.outq, id);
    if i < |p.outq| && Unsend(p, i).removed then Unsend(p, i).peer else Send(p, Other(Misc, 17))
  }

  /** libbt/btpd/peer.c:576-582. */
  function DropRequests(p: Peer, i: nat): Peer
    requires i <= |p.outq|
    decreases |p.outq| - i
  {
    if i == |p.outq| then p
    else if p.outq[i].Request? && Unsend(p, i).removed then DropRequests(Unsend(p, i).peer, i)
    else DropRequests(p, i + 1)
  }

  /** libbt/btpd/peer.c:303-309. */
  function SendInterest(p: Peer): Peer {
    if p.outq != [] && p.outq[|p.outq| - 1] == Other(Uninterest, 5) && Unsend(p, |p.outq| - 1).removed
      then Unsend(p, |p.outq| - 1).peer
    else Send(p, Other(Interest, 5))
  }

  // ------------------------------------------------------------------------- writing

  datatype Offer = Offer(outq: seq<Msg>, count: nat)

  /** libbt/btpd/net.c:196-231 from message i on: the messages put before the socket, at
      most max of them, and the data filled for the header among them; blocks counts the
      blocks in memory. */
  function OfferFrom(q: seq<Msg>, i: nat, blocks: nat, max: nat): (o: Offer)
    requires i <= |q|
    ensures i <= o.count <= |q| && |o.outq| == |q|
    decreases |q| - i
  {
    if i == |q| || max <= i then Offer(q, i)
    else if q[i].Piece? && i + 1 < |q| && q[i + 1].Data? then
      if 1 <= blocks then Offer(q, i)
      else OfferFrom(q[i + 1 := q[i + 1].(filled := true)], i + 1, blocks + 1, max)
    else OfferFrom(q, i + 1, blocks, max)
  }

  function OfferAll(q: seq<Msg>, max: nat): Offer {
    OfferFrom(q, 0, if q != [] && q[0].Data? then 1 else 0, max)
  }

  function Bytes(q: seq<Msg>): nat {
    if q == [] then 0 else Len(q[0]) + Bytes(q[1..])
  }

  /** libbt/btpd/peer.c:144-214. */
  function Sent(p: Peer, m: Msg): Peer {
    match m
    case Data(_, _) => p.(npieceMsgs := p.npieceMsgs - 1)
    case Other(Unchoke, _) => p.(noRequests := false)
    case _ => p
  }

  /** libbt/btpd/net.c:251 and 257-260: the head has left. */
  function PopHead(p: Peer): Peer
    requires p.outq != []
  {
    Sent(p, p.outq[0]).(outq := p.outq[1..], off := 0, sent := p.sent + [p.outq[0]])
  }

  /** libbt/btpd/net.c:247-270: n bytes have been taken. */
  function Taken(p: Peer, n: int): Peer
    decreases |p.outq|
  {
    if n <= 0 || p.outq == [] then p
    else
      var delta := Len(p.outq[0]) - p.off;
      if delta <= n then Taken(PopHead(p), n - delta) else p.(off := p.off + n)
  }

  /** libbt/btpd/net.c:196-275 for a socket that takes n bytes of those offered. */
  function Write(p: Peer, max: nat, n: nat): Peer {
    var o := OfferAll(p.outq, max);
    var t := Taken(p.(outq := o.outq), n);
    t.(wantWrite := t.outq != [])
  }

  // -------------------------------------------------------------------------- framing

  /** Every header is directly followed by its data, and all data follow their header. */
  ghost predicate Framed(s: seq<Msg>) {
    forall i :: 0 <= i < |s| ==> FramedAt(s, i)
  }

  predicate FramedAt(s: seq<Msg>, i: nat)
    requires i < |s|
  {
    && (s[i].Piece? ==> i + 1 < |s| && s[i + 1].Data? && s[i + 1].req == s[i].req)
    && (s[i].Data? ==> 0 < i && s[i - 1] == Piece(s[i].req))
  }

  function DataCount(q: seq<Msg>): nat {
    if q == [] then 0 else (if q[0].Data? then 1 else 0) + DataCount(q[1..])
  }

  /** What has left and what is queued make one framed stream. A message that is partly
      written is at the head, and data are filled before any byte of their header goes. */
  ghost predicate Inv(p: Peer) {
    && Framed(p.sent + p.outq)
    && p.npieceMsgs == DataCount(p.outq)
    && HeadOk(p)
    && (p.wantWrite <==> p.outq != [])
  }

  predicate HeadOk(p: Peer) {
    && (0 < p.off ==> p.outq != [] && p.off < Len(p.outq[0]))
    && (p.outq != [] && p.outq[0].Data? ==> p.outq[0].filled)
    && (0 < p.off && p.outq[0].Piece? ==> 1 < |p.outq| && p.outq[1].Data? && p.outq[1].filled)
  }

  lemma {:induction false} DataCountConcat(a: seq<Msg>, b: seq<Msg>)
    ensures DataCount(a + b) == DataCount(a) + DataCount(b)
  {
    if a == [] {
      assert a + b == b;
    } else {
      DataCountConcat(a[1..], b);
      assert (a + b)[1..] == a[1..] + b;
    }
  }

  lemma DataCountOne(a: Msg)
    ensures DataCount([a]) == if a.Data? then 1 else 0
  {
  }

  lemma DataCountTwo(a: Msg, b: Msg)
    ensures DataCount([a, b]) == (if a.Data? then 1 else 0) + (if b.Data? then 1 else 0)
  {
    DataCountOne(b);
    assert [a, b][1..] == [b];
  }

  lemma DataCountWithout(q: seq<Msg>, i: nat, j: nat)
    requires i <= j <= |q|
    ensures DataCount(q[..i] + q[j..]) == DataCount(q) - DataCount(q[i..j])
  {
    DataCountConcat(q[..i], q[j..]);
    DataCountConcat(q[..j], q[j..]);
    DataCountConcat(q[..i], q[i..j]);
    assert q == q[..j] + q[j..];
    assert q[..j] == q[..i] + q[i..j];
  }

  /** In a queue of the invariant, data at i have their header before them or at the end of
      what was sent, and a header at i has its data behind it. */
  lemma InQueue(p: Peer, i: nat)
    requires Inv(p) && i < |p.outq|
    ensures p.outq[i].Piece? ==>
      i + 1 < |p.outq| && p.outq[i + 1].Data? && p.outq[i + 1].req == p.outq[i].req
    ensures p.outq[i].Data? && 0 < i ==> p.outq[i - 1] == Piece(p.outq[i].req)
  {
    var s, k := p.sent + p.outq, |p.sent| + i;
    assert s[k] == p.outq[i] && FramedAt(s, k);
    assert i + 1 < |p.outq| ==> s[k + 1] == p.outq[i + 1];
    assert 0 < i ==> s[k - 1] == p.outq[i - 1];
  }

  /** Cutting whole blocks or other messages out of the stream leaves it framed. */
  lemma CutFramed(s: seq<Msg>, i: nat, j: nat)
    requires Framed(s) && i <= j <= |s|
    requires i < |s| ==> !s[i].Data?
    requires j < |s| ==> !s[j].Data?
    ensures Framed(s[..i] + s[j..])
  {
    var t := s[..i] + s[j..];
    forall k | 0 <= k < |t|
      ensures FramedAt(t, k)
    {
      var m := if k < i then k else k + (j - i);
      assert t[k] == s[m] && FramedAt(s, m);
      if k < i {
        assert k + 1 < i ==> t[k + 1] == s[k + 1];
        assert 0 < k ==> t[k - 1] == s[k - 1];
      } else {
        assert k + 1 < |t| ==> t[k + 1] == s[m + 1];
        assert i < k ==> t[k - 1] == s[m - 1];
      }
    }
  }

  lemma ConcatFramed(a: seq<Msg>, b: seq<Msg>)
    requires Framed(a) && Framed(b)
    ensures Framed(a + b)
  {
    var s := a + b;
    forall i | 0 <= i < |s|
      ensures FramedAt(s, i)
    {
      if i < |a| {
        assert FramedAt(a, i);
      } else {
        assert FramedAt(b, i - |a|);
      }
    }
  }

  // ----------------------------------------------------------- what every call keeps

  /** What has left stays, and so does a message that is partly written. */
  ghost predicate Keeps(p: Peer, q: Peer) {
    && q.sent == p.sent && q.off == p.off
    && (0 < p.off ==> p.outq != [] && q.outq != [] && q.outq[0] == p.outq[0])
  }

  lemma SendKeeps(p: Peer, m: Msg)
    requires Inv(p) && !m.Piece? && !m.Data?
    ensures Inv(Send(p, m)) && Keeps(p, Send(p, m))
  {
    var s, t := p.sent + p.outq, p.sent + (p.outq + [m]);
    ConcatFramed(s, [m]);
    assert t == s + [m];
    DataCountConcat(p.outq, [m]);
  }

  lemma SendBlockKeeps(p: Peer, req: Req)
    requires Inv(p)
    ensures var q := Send(Send(p, Piece(req)), Data(req, false));
      Inv(q.(npieceMsgs := q.npieceMsgs + 1)) && Keeps(p, q)
  {
    var q := Send(Send(p, Piece(req)), Data(req, false));
    var s := p.sent + p.outq;
    assert q.outq == p.outq + [Piece(req), Data(req, false)];
    ConcatFramed(s, [Piece(req), Data(req, false)]);
    assert q.sent + q.outq == s + [Piece(req), Data(req, false)];
    DataCountConcat(p.outq, [Piece(req), Data(req, false)]);
    DataCountTwo(Piece(req), Data(req, false));
  }

  function Cut(p: Peer, i: nat, j: nat): Peer
    requires i <= j <= |p.outq|
  {
    var q := p.outq[..i] + p.outq[j..];
    p.(outq := q, npieceMsgs := p.npieceMsgs - DataCount(p.outq[i..j]), wantWrite := q != [])
  }

  lemma ConcatCut<T>(a: seq<T>, b: seq<T>, i: nat, j: nat)
    requires i <= j <= |b|
    ensures (a + b)[..|a| + i] + (a + b)[|a| + j..] == a + (b[..i] + b[j..])
  {
    assert (a + b)[..|a| + i] == a + b[..i];
    assert (a + b)[|a| + j..] == b[j..];
  }

  lemma CutConcat(s: seq<Msg>, a: seq<Msg>, b: seq<Msg>, c: seq<Msg>, i: nat, j: nat)
    requires s == a + b && i < j <= |b| && c == b[..i] + b[j..]
    requires !b[i].Data? && (j < |b| ==> !b[j].Data?)
    ensures !s[|a| + i].Data? && (|a| + j < |s| ==> !s[|a| + j].Data?)
    ensures s[..|a| + i] + s[|a| + j..] == a + c
  {
    ConcatCut(a, b, i, j);
  }

  lemma CutKeepsFramed(p: Peer, i: nat, j: nat)
    requires Framed(p.sent + p.outq) && i < j <= |p.outq|
    requires !p.outq[i].Data? && (j < |p.outq| ==> !p.outq[j].Data?)
    ensures Framed(p.sent + (p.outq[..i] + p.outq[j..]))
  {
    var s, n := p.sent + p.outq, |p.sent|;
    CutConcat(s, p.sent, p.outq, p.outq[..i] + p.outq[j..], i, j);
    CutFramed(s, n + i, n + j);
  }

  lemma CutKeepsHead(p: Peer, i: nat, j: nat)
    requires HeadOk(p) && i < j <= |p.outq| && (0 < i || p.off == 0)
    requires !p.outq[i].Data? && (j < |p.outq| ==> !p.outq[j].Data?)
    ensures HeadOk(Cut(p, i, j)) && Keeps(p, Cut(p, i, j))
  {
    var q := Cut(p, i, j).outq;
    if 0 < i {
      assert q[0] == p.outq[0];
      assert 1 < i ==> q[1] == p.outq[1];
    } else if j < |p.outq| {
      assert q[0] == p.outq[j];
    }
  }

  lemma CutKeeps(p: Peer, i: nat, j: nat)
    requires Inv(p) && i < j <= |p.outq| && (0 < i || p.off == 0)
    requires !p.outq[i].Data? && (j < |p.outq| ==> !p.outq[j].Data?)
    ensures Inv(Cut(p, i, j)) && Keeps(p, Cut(p, i, j))
  {
    CutKeepsFramed(p, i, j);
    CutKeepsHead(p, i, j);
    DataCountWithout(p.outq, i, j);
  }

  /** Unsending one message, or two in turn, is a cut. */
  lemma UnsendIsCut(p: Peer, i: nat)
    requires i < |p.outq| && (0 < i || p.off == 0)
    ensures Unsend(p, i) == Unsent(Cut(p, i, i + 1), true)
  {
    assert p.outq[i..i + 1] == [p.outq[i]];
    DataCountOne(p.outq[i]);
  }

  /** Two cuts at one place are one. */
  lemma CutTwice<T>(q: seq<T>, i: nat)
    requires i + 1 < |q|
    ensures var a := q[..i] + q[i + 1..]; a[..i] + a[i + 1..] == q[..i] + q[i + 2..] && a[i] == q[i + 1]
  {
    var a := q[..i] + q[i + 1..];
    assert a[..i] == q[..i] && a[i + 1..] == q[i + 2..];
  }

  lemma CutTwiceCounts(q: seq<Msg>, i: nat)
    requires i + 1 < |q|
    ensures DataCount(q[i..i + 2]) == DataCount([q[i]]) + DataCount([q[i + 1]])
  {
    assert q[i..i + 2] == [q[i]] + [q[i + 1]];
    DataCountConcat([q[i]], [q[i + 1]]);
  }

  lemma UnsendBlockIsCut(p: Peer, i: nat)
    requires i + 1 < |p.outq| && (0 < i || p.off == 0)
    ensures UnsendBlock(p, i) == Unsent(Cut(p, i, i + 2), true)
  {
    UnsendIsCut(p, i);
    var a := Cut(p, i, i + 1);
    UnsendIsCut(a, i);
    CutTwice(p.outq, i);
    CutTwiceCounts(p.outq, i);
    assert p.outq[i..i + 1] == [p.outq[i]] && a.outq[i..i + 1] == [p.outq[i + 1]];
  }

  lemma UnsendBlockKeeps(p: Peer, i: nat)
    requires Inv(p) && i < |p.outq| && p.outq[i].Piece?
    ensures i + 1 < |p.outq|
    ensures var u := UnsendBlock(p, i);
      && Inv(u.peer) && Keeps(p, u.peer)
      && (u.removed <==> 0 < i || p.off == 0)
      && u.peer.outq == (if u.removed then p.outq[..i] + p.outq[i + 2..] else p.outq)
      && u.peer.iChoke == p.iChoke && u.peer.noRequests == p.noRequests
  {
    InQueue(p, i);
    if 0 < i || p.off == 0 {
      if i + 2 < |p.outq| {
        InQueue(p, i + 2);
      }
      CutKeeps(p, i, i + 2);
      UnsendBlockIsCut(p, i);
    }
  }

  lemma UnsendOtherKeeps(p: Peer, i: nat)
    requires Inv(p) && i < |p.outq| && !p.outq[i].Piece? && !p.outq[i].Data?
    ensures var u := Unsend(p, i);
      && Inv(u.peer) && Keeps(p, u.peer)
      && (u.removed <==> 0 < i || p.off == 0)
      && u.peer.outq == if u.removed then p.outq[..i] + p.outq[i + 1..] else p.outq
  {
    if 0 < i || p.off == 0 {
      if i + 1 < |p.outq| {
        InQueue(p, i + 1);
      }
      CutKeeps(p, i, i + 1);
      UnsendIsCut(p, i);
    }
  }

  /** The headers before i are at most the partly written one. */
  ghost predicate Cleared(p: Peer, i: nat) {
    forall k :: 0 <= k < i && k < |p.outq| && p.outq[k].Piece? ==> k == 0 && 0 < p.off
  }

  lemma {:induction false} ChokeFromKeeps(p: Peer, i: nat)
    requires Inv(p) && i <= |p.outq|
    ensures var q := ChokeFrom(p, i);
      Inv(q) && Keeps(p, q) && q.noRequests == p.noRequests
    decreases |p.outq| - i
  {
    if i < |p.outq| {
      InQueue(p, i);
      if p.outq[i].Piece? {
        UnsendBlockKeeps(p, i);
        if UnsendBlock(p, i).removed {
          ChokeFromKeeps(UnsendBlock(p, i).peer, i);
        } else {
          ChokeFromKeeps(p, i + 2);
        }
      } else {
        ChokeFromKeeps(p, i + 1);
      }
    }
  }

  /** Choking takes back every block of which no byte has gone. */
  lemma {:induction false} ChokeFromClears(p: Peer, i: nat)
    requires i <= |p.outq| && Cleared(p, i) && Paired(p.outq)
    ensures var q := ChokeFrom(p, i); Cleared(q, |q.outq|)
    decreases |p.outq| - i
  {
    if i < |p.outq| {
      if p.outq[i].Piece? {
        if 0 < i || p.off == 0 {
          UnsendBlockIsCut(p, i);
          CutCleared(p, i);
          CutPaired(p, i);
          ChokeFromClears(UnsendBlock(p, i).peer, i);
        } else {
          ChokeFromClears(p, i + 2);
        }
      } else {
        ChokeFromClears(p, i + 1);
      }
    }
  }

  predicate Paired(q: seq<Msg>) {
    forall i :: 0 <= i < |q| && q[i].Piece? ==> i + 1 < |q| && q[i + 1].Data?
  }

  lemma CutCleared(p: Peer, i: nat)
    requires i + 1 < |p.outq| && Cleared(p, i)
    ensures Cleared(Cut(p, i, i + 2), i)
  {
  }

  lemma CutPaired(p: Peer, i: nat)
    requires i + 1 < |p.outq| && Paired(p.outq) && p.outq[i].Piece?
    ensures Paired(Cut(p, i, i + 2).outq)
  {
    var q, r := p.outq, Cut(p, i, i + 2).outq;
    forall k | 0 <= k < |r| && r[k].Piece?
      ensures k + 1 < |r| && r[k + 1].Data?
    {
      if k < i {
        assert q[k].Piece? && q[k + 1].Data?;
      } else {
        assert q[k + 2].Piece?;
      }
    }
  }

  lemma QueuePaired(p: Peer)
    requires Inv(p)
    ensures Paired(p.outq)
  {
    forall i | 0 <= i < |p.outq| && p.outq[i].Piece?
      ensures i + 1 < |p.outq| && p.outq[i + 1].Data?
    {
      InQueue(p, i);
    }
  }

  function IfOther(m: Msg): seq<Msg> { if m.Piece? || m.Data? then [] else [m] }

  /** The messages that are not parts of blocks. */
  function Others(q: seq<Msg>): seq<Msg> {
    if q == [] then [] else IfOther(q[0]) + Others(q[1..])
  }

  lemma {:induction false} OthersConcat(a: seq<Msg>, b: seq<Msg>)
    ensures Others(a + b) == Others(a) + Others(b)
  {
    if a == [] {
      assert a + b == b;
    } else {
      OthersConcat(a[1..], b);
      assert (a + b)[1..] == a[1..] + b && (a + b)[0] == a[0];
      assert IfOther(a[0]) + (Others(a[1..]) + Others(b)) == (IfOther(a[0]) + Others(a[1..])) + Others(b);
    }
  }

  lemma BlockHasNoOthers(q: seq<Msg>, i: nat)
    requires i + 1 < |q| && q[i].Piece? && q[i + 1].Data?
    ensures Others(q[..i] + q[i + 2..]) == Others(q)
  {
    OthersFrom(q, i);
    OthersConcat(q[..i], q[i..]);
    OthersConcat(q[..i], q[i + 2..]);
    assert q == q[..i] + q[i..];
  }

  lemma OthersFrom(q: seq<Msg>, i: nat)
    requires i + 1 < |q| && q[i].Piece? && q[i + 1].Data?
    ensures Others(q[i..]) == Others(q[i + 2..])
  {
    assert q[i..][1..] == q[i + 1..] && q[i + 1..][1..] == q[i + 2..];
    assert Others(q[i + 1..]) == [] + Others(q[i + 2..]) == Others(q[i + 2..]);
    assert Others(q[i..]) == [] + Others(q[i + 1..]) == Others(q[i + 1..]);
  }

  lemma {:induction false} ChokeFromKeepsOthers(p: Peer, i: nat)
    requires i <= |p.outq| && Paired(p.outq)
    ensures Others(ChokeFrom(p, i).outq) == Others(p.outq)
    decreases |p.outq| - i
  {
    if i < |p.outq| {
      if p.outq[i].Piece? {
        if 0 < i || p.off == 0 {
          UnsendBlockIsCut(p, i);
          CutPaired(p, i);
          BlockHasNoOthers(p.outq, i);
          ChokeFromKeepsOthers(UnsendBlock(p, i).peer, i);
        } else {
          ChokeFromKeepsOthers(p, i + 2);
        }
      } else {
        ChokeFromKeepsOthers(p, i + 1);
      }
    }
  }

  lemma ChokeKeeps(p: Peer)
    requires Inv(p)
    ensures var q := ChokePeer(p);
      && Inv(q) && Keeps(p, q) && Cleared(q, |q.outq|)
      && q.iChoke && q.npieceMsgs <= 1 && Others(q.outq) == Others(p.outq) + [Other(Choke, 5)]
  {
    QueuePaired(p);
    ChokeFromKeepsOthers(p, 0);
    OthersConcat(ChokeFrom(p, 0).outq, [Other(Choke, 5)]);
    assert Others([Other(Choke, 5)]) == [Other(Choke, 5)];
    ChokeFromKeeps(p, 0);
    QueuePaired(p);
    ChokeFromClears(p, 0);
    var c := ChokeFrom(p, 0);
    SendKeeps(c.(iChoke := true), Other(Choke, 5));
    var q := ChokePeer(p);
    OneDataLeft(q);
  }

  /** With no header left but at the head, at most one data message is queued. */
  lemma OneDataLeft(p: Peer)
    requires Inv(p) && Cleared(p, |p.outq|)
    ensures p.npieceMsgs <= 1
  {
    var q := p.outq;
    forall i | 2 <= i < |q|
      ensures !q[i].Data?
    {
      InQueue(p, i);
    }
    if 2 <= |q| {
      InQueue(p, 0);
      InQueue(p, 1);
      assert q == q[..2] + q[2..];
      DataCountConcat(q[..2], q[2..]);
      NoData(q[2..]);
      assert q[..2] == [q[0], q[1]];
      DataCountTwo(q[0], q[1]);
    } else if |q| == 1 {
      DataCountOne(q[0]);
      assert q == [q[0]];
    }
  }

  lemma {:induction false} NoData(q: seq<Msg>)
    requires forall i :: 0 <= i < |q| ==> !q[i].Data?
    ensures DataCount(q) == 0
  {
    if q != [] {
      NoData(q[1..]);
    }
  }

  lemma UnchokeKeeps(p: Peer)
    requires Inv(p)
    ensures var q := UnchokePeer(p);
      Inv(q) && Keeps(p, q) && !q.iChoke && q.outq == p.outq + [Other(Unchoke, 5)]
  {
    SendKeeps(p.(iChoke := false), Other(Unchoke, 5));
  }

  lemma OnRequestKeeps(p: Peer, req: Req)
    requires Inv(p)
    ensures var q := OnRequest(p, req);
      && Inv(q) && Keeps(p, q) && p.outq <= q.outq
      && (!p.noRequests ==> q.npieceMsgs == p.npieceMsgs + 1 && (q.noRequests <==> MAXPIECEMSGS <= q.npieceMsgs))
  {
    if !p.noRequests {
      SendBlockKeeps(p, req);
      var a := Send(Send(p, Piece(req)), Data(req, false));
      var b := a.(npieceMsgs := a.npieceMsgs + 1);
      if MAXPIECEMSGS <= b.npieceMsgs {
        SendKeeps(b, Other(Choke, 5));
        SendKeeps(Send(b, Other(Choke, 5)), Other(Unchoke, 5));
      }
    }
  }

  lemma OnCancelKeeps(p: Peer, req: Req)
    requires Inv(p)
    ensures Inv(OnCancel(p, req)) && Keeps(p, OnCancel(p, req))
    ensures FindPiece(p.outq, req) < |p.outq| ==> FindPiece(p.outq, req) + 2 <= |p.outq|
    ensures var i := FindPiece(p.outq, req);
      OnCancel(p, req).outq == if i < |p.outq| && (0 < i || p.off == 0) then p.outq[..i] + p.outq[i + 2..] else p.outq
  {
    var i := FindPiece(p.outq, req);
    if i < |p.outq| {
      UnsendBlockKeeps(p, i);
    }
  }

  lemma CancelRequestKeeps(p: Peer, id: int)
    requires Inv(p)
    ensures Inv(CancelRequest(p, id)) && Keeps(p, CancelRequest(p, id))
  {
    var i := FindRequest(p.outq, id);
    if i < |p.outq| {
      UnsendOtherKeeps(p, i);
    }
    SendKeeps(p, Other(Misc, 17));
  }

  lemma {:induction false} DropRequestsKeeps(p: Peer, i: nat)
    requires Inv(p) && i <= |p.outq|
    ensures Inv(DropRequests(p, i)) && Keeps(p, DropRequests(p, i))
    decreases |p.outq| - i
  {
    if i < |p.outq| {
      if p.outq[i].Request? {
        UnsendOtherKeeps(p, i);
        if Unsend(p, i).removed {
          DropRequestsKeeps(Unsend(p, i).peer, i);
        } else {
          DropRequestsKeeps(p, i + 1);
        }
      } else {
        DropRequestsKeeps(p, i + 1);
      }
    }
  }

  lemma SendInterestKeeps(p: Peer)
    requires Inv(p)
    ensures Inv(SendInterest(p)) && Keeps(p, SendInterest(p))
  {
    if p.outq != [] && p.outq[|p.outq| - 1] == Other(Uninterest, 5) {
      UnsendOtherKeeps(p, |p.outq| - 1);
    }
    SendKeeps(p, Other(Interest, 5));
  }

  // ------------------------------------------------------------------ what a write does

  /** The same messages, of which some more data are filled. */
  ghost predicate Refilled(q: seq<Msg>, r: seq<Msg>) {
    && |r| == |q|
    && forall i :: 0 <= i < |q| ==> r[i] == q[i] || (q[i].Data? && r[i] == Data(q[i].req, true))
  }

  /** The data of the first k headers are filled. */
  ghost predicate FilledFor(q: seq<Msg>, lo: nat, hi: nat) {
    forall i :: lo <= i < hi && i < |q| && q[i].Piece? ==> i + 1 < |q| && q[i + 1].Data? && q[i + 1].filled
  }

  lemma {:induction false} OfferFills(q: seq<Msg>, i: nat, blocks: nat, max: nat)
    requires i <= |q| && Paired(q)
    ensures var o := OfferFrom(q, i, blocks, max);
      && Refilled(q, o.outq) && FilledFor(o.outq, i, o.count)
      && forall k :: 0 <= k <= i && k < |q| ==> o.outq[k] == q[k]
    decreases |q| - i
  {
    if i < |q| && i < max {
      if q[i].Piece? {
        if blocks < 1 {
          OfferFills(q[i + 1 := q[i + 1].(filled := true)], i + 1, blocks + 1, max);
        }
      } else {
        OfferFills(q, i + 1, blocks, max);
      }
    }
  }

  lemma {:induction false} RefilledCounts(q: seq<Msg>, r: seq<Msg>)
    requires Refilled(q, r)
    ensures DataCount(r) == DataCount(q)
  {
    if q != [] {
      RefilledCounts(q[1..], r[1..]);
    }
  }

  lemma RefilledFramed(s: seq<Msg>, q: seq<Msg>, r: seq<Msg>)
    requires Framed(s + q) && Refilled(q, r)
    ensures Framed(s + r)
  {
    var a, b := s + q, s + r;
    forall i | 0 <= i < |b|
      ensures b[i] == a[i] || (a[i].Data? && b[i] == Data(a[i].req, true))
    {
      if |s| <= i {
        assert b[i] == r[i - |s|] && a[i] == q[i - |s|];
      }
    }
    forall i | 0 <= i < |b|
      ensures FramedAt(b, i)
    {
      assert FramedAt(a, i);
    }
  }

  /** The invariant while a write is being accounted for: k messages were offered. */
  ghost predicate Writing(p: Peer, k: nat) {
    && Framed(p.sent + p.outq) && p.npieceMsgs == DataCount(p.outq) && HeadOk(p)
    && k <= |p.outq| && FilledFor(p.outq, 0, k)
  }

  lemma PopHeadKeeps(p: Peer, k: nat)
    requires Writing(p, k) && 0 < k
    ensures Writing(PopHead(p), k - 1)
    ensures p.outq[0].Data? ==> 0 < p.npieceMsgs
  {
    var q := PopHead(p);
    assert q.sent + q.outq == p.sent + p.outq;
    if 1 < |p.outq| && p.outq[1].Data? {
      var s := p.sent + p.outq;
      assert s[|p.sent| + 1] == p.outq[1] && s[|p.sent|] == p.outq[0] && FramedAt(s, |p.sent| + 1);
      assert p.outq[0].Piece? && p.outq[1].filled;
    }
    forall i | 0 <= i < k - 1 && i < |q.outq| && q.outq[i].Piece?
      ensures i + 1 < |q.outq| && q.outq[i + 1].Data? && q.outq[i + 1].filled
    {
      assert q.outq[i] == p.outq[i + 1];
    }
  }

  lemma {:induction false} TakenKeeps(p: Peer, n: int, k: nat)
    requires Writing(p, k) && 0 <= n <= Bytes(p.outq[..k]) - p.off
    ensures var q := Taken(p, n);
      Framed(q.sent + q.outq) && q.npieceMsgs == DataCount(q.outq) && HeadOk(q)
    decreases |p.outq|
  {
    if 0 < n {
      OfferedHead(p, k);
      var m := p.outq[0];
      if Len(m) - p.off <= n {
        PopHeadKeeps(p, k);
        TakenKeeps(PopHead(p), n - (Len(m) - p.off), k - 1);
      } else if m.Piece? {
        assert FilledFor(p.outq, 0, k);
      }
    }
  }

  /** Messages leave in order, and none is lost. */
  lemma {:induction false} TakenInOrder(p: Peer, n: int)
    ensures var q := Taken(p, n); q.sent + q.outq == p.sent + p.outq && p.sent <= q.sent
    decreases |p.outq|
  {
    if 0 < n && p.outq != [] && Len(p.outq[0]) - p.off <= n {
      TakenInOrder(PopHead(p), n - (Len(p.outq[0]) - p.off));
      assert (p.sent + [p.outq[0]]) + p.outq[1..] == p.sent + p.outq;
    }
  }

  lemma OfferedHead(p: Peer, k: nat)
    requires k <= |p.outq| && 0 < Bytes(p.outq[..k])
    ensures 0 < k && Bytes(p.outq[..k]) == Len(p.outq[0]) + Bytes(p.outq[1..][..k - 1])
  {
    assert p.outq[..k][1..] == p.outq[1..][..k - 1];
  }

  /** As many bytes leave as are taken. */
  lemma {:induction false} TakenBytes(p: Peer, n: int, k: nat)
    requires k <= |p.outq| && 0 <= n <= Bytes(p.outq[..k]) - p.off
    ensures var q := Taken(p, n); Bytes(q.sent) + q.off == Bytes(p.sent) + p.off + n
    decreases |p.outq|
  {
    if 0 < n {
      OfferedHead(p, k);
      var m := p.outq[0];
      if Len(m) - p.off <= n {
        BytesConcat(p.sent, [m]);
        TakenBytes(PopHead(p), n - (Len(m) - p.off), k - 1);
      }
    }
  }

  lemma {:induction false} BytesConcat(a: seq<Msg>, b: seq<Msg>)
    ensures Bytes(a + b) == Bytes(a) + Bytes(b)
  {
    if a == [] {
      assert a + b == b;
    } else {
      BytesConcat(a[1..], b);
      assert (a + b)[1..] == a[1..] + b;
    }
  }

  /** The socket takes at most the bytes that are put before it. */
  ghost predicate CanWrite(p: Peer, max: nat, n: nat) {
    var o := OfferAll(p.outq, max);
    p.outq != [] && n <= Bytes(o.outq[..o.count]) - p.off
  }

  lemma OfferReady(p: Peer, max: nat)
    requires Inv(p)
    ensures var o := OfferAll(p.outq, max);
      && Writing(p.(outq := o.outq), o.count) && Refilled(p.outq, o.outq)
  {
    QueuePaired(p);
    var o := OfferAll(p.outq, max);
    OfferFills(p.outq, 0, if p.outq != [] && p.outq[0].Data? then 1 else 0, max);
    RefilledCounts(p.outq, o.outq);
    RefilledFramed(p.sent, p.outq, o.outq);
  }

  /** A write moves messages from the queue to the stream, in order; as many bytes have
      then left as the socket has taken. */
  lemma WriteKeeps(p: Peer, max: nat, n: nat)
    requires Inv(p) && CanWrite(p, max, n)
    ensures var q := Write(p, max, n);
      && Inv(q) && p.sent <= q.sent && Refilled(p.sent + p.outq, q.sent + q.outq)
      && Bytes(q.sent) + q.off == Bytes(p.sent) + p.off + n
  {
    OfferReady(p, max);
    var o := OfferAll(p.outq, max);
    TakenKeeps(p.(outq := o.outq), n, o.count);
    TakenInOrder(p.(outq := o.outq), n);
    TakenBytes(p.(outq := o.outq), n, o.count);
    var q := Write(p, max, n);
    assert q.sent + q.outq == p.sent + o.outq;
  }

  /** Headers among the messages. */
  function PieceCount(q: seq<Msg>): nat {
    if q == [] then 0 else (if q[0].Piece? then 1 else 0) + PieceCount(q[1..])
  }

  /** One block in memory is all that is offered, and the offer stops only for a second one, at
      the end of the queue or at max. */
  lemma {:induction false} OfferStops(q: seq<Msg>, i: nat, blocks: nat, max: nat)
    requires i <= |q| && Paired(q) && blocks <= 1
    ensures var o := OfferFrom(q, i, blocks, max); var n := blocks + PieceCount(q[i..o.count]);
      && n <= 1 && (o.count <= max || o.count == i)
      && (o.count == |q| || max <= o.count || (q[o.count].Piece? && n == 1))
    decreases |q| - i
  {
    if i < |q| && i < max {
      if q[i].Piece? {
        if blocks < 1 {
          var r := q[i + 1 := q[i + 1].(filled := true)];
          OfferStops(r, i + 1, blocks + 1, max);
          var o := OfferFrom(r, i + 1, blocks + 1, max);
          assert q[i..o.count][1..] == q[i + 1..o.count];
          RefilledPieces(q[i + 1..o.count], r[i + 1..o.count]);
        }
      } else {
        OfferStops(q, i + 1, blocks, max);
        var o := OfferFrom(q, i + 1, blocks, max);
        assert q[i..o.count][1..] == q[i + 1..o.count];
      }
    }
  }

  lemma {:induction false} RefilledPieces(q: seq<Msg>, r: seq<Msg>)
    requires Refilled(q, r)
    ensures PieceCount(r) == PieceCount(q)
  {
    if q != [] {
      RefilledPieces(q[1..], r[1..]);
    }
  }

  /** So a write always has something to offer, and the head first. */
  lemma SomethingOffered(p: Peer, max: nat)
    requires Inv(p) && p.outq != [] && 0 < max
    ensures 0 < OfferAll(p.outq, max).count
  {
    QueuePaired(p);
    OfferStops(p.outq, 0, if p.outq[0].Data? then 1 else 0, max);
    assert p.outq[0..0] == [];
  }

  // ------------------------------------------------------------ what every call changes

  /** Sending puts a message last and asks for a write. */
  lemma SendAppends(p: Peer, m: Msg)
    requires Inv(p)
    ensures Send(p, m).outq == p.outq + [m] && Send(p, m).wantWrite
    ensures Send(p, m).noRequests == p.noRequests && Send(p, m).iChoke == p.iChoke
  {
  }

  /** A request is answered by a block at the end of the queue, and at the limit by a choke and
      an unchoke behind it; while requests are off it is ignored. */
  lemma RequestAppends(p: Peer, req: Req)
    requires Inv(p)
    ensures OnRequest(p, req).outq == p.outq + (
      if p.noRequests then []
      else [Piece(req), Data(req, false)]
           + if MAXPIECEMSGS <= p.npieceMsgs + 1 then [Other(Choke, 5), Other(Unchoke, 5)] else [])
  {
    var two := p.outq + [Piece(req)] + [Data(req, false)];
    assert two == p.outq + [Piece(req), Data(req, false)];
    assert two + [Other(Choke, 5)] + [Other(Unchoke, 5)]
        == p.outq + ([Piece(req), Data(req, false)] + [Other(Choke, 5), Other(Unchoke, 5)]);
    assert p.outq + ([Piece(req), Data(req, false)] + []) == two;
  }

  /** Cancelling an own request takes it out of the queue, if no byte of it has gone, and else
      sends a cancel. */
  lemma CancelRequestChanges(p: Peer, id: int)
    requires Inv(p)
    ensures var q, i := CancelRequest(p, id).outq, FindRequest(p.outq, id);
      if i < |p.outq| && (0 < i || p.off == 0) then q == p.outq[..i] + p.outq[i + 1..]
      else q == p.outq + [Other(Misc, 17)]
  {
    var i := FindRequest(p.outq, id);
    if i < |p.outq| {
      UnsendOtherKeeps(p, i);
    }
  }

  /** Interest takes back a loss of interest that is last in the queue and of which no byte has
      gone, and is sent else. */
  lemma InterestChanges(p: Peer)
    requires Inv(p)
    ensures var q, n := SendInterest(p).outq, |p.outq|;
      if n != 0 && p.outq[n - 1] == Other(Uninterest, 5) && (1 < n || p.off == 0) then q == p.outq[..n - 1]
      else q == p.outq + [Other(Interest, 5)]
  {
    var n := |p.outq|;
    if n != 0 && p.outq[n - 1] == Other(Uninterest, 5) {
      UnsendOtherKeeps(p, n - 1);
      assert p.outq[..n - 1] + p.outq[n..] == p.outq[..n - 1];
    }
  }

  /** The messages that are not requests of ours. */
  function NoRequests(q: seq<Msg>): seq<Msg> {
    if q == [] then [] else (if q[0].Request? then [] else [q[0]]) + NoRequests(q[1..])
  }

  lemma {:induction false} NoRequestsConcat(a: seq<Msg>, b: seq<Msg>)
    ensures NoRequests(a + b) == NoRequests(a) + NoRequests(b)
  {
    if a == [] {
      assert a + b == b;
    } else {
      NoRequestsConcat(a[1..], b);
      assert (a + b)[1..] == a[1..] + b && (a + b)[0] == a[0];
    }
  }

  lemma CutRequest(q: seq<Msg>, i: nat)
    requires i < |q| && q[i].Request?
    ensures NoRequests(q[..i] + q[i + 1..]) == NoRequests(q)
  {
    NoRequestsConcat(q[..i], q[i + 1..]);
    NoRequestsConcat(q[..i], q[i..]);
    assert q == q[..i] + q[i..] && q[i..][1..] == q[i + 1..];
    assert NoRequests(q[i..]) == [] + NoRequests(q[i + 1..]) == NoRequests(q[i + 1..]);
  }

  /** The requests before i are at most the partly written one. */
  ghost predicate Dropped(p: Peer, i: nat) {
    forall k :: 0 <= k < i && k < |p.outq| && p.outq[k].Request? ==> k == 0 && 0 < p.off
  }

  /** When the peer chokes us every request of which no byte has gone is taken back, and nothing
      else is. */
  lemma {:induction false} DropRequestsDrops(p: Peer, i: nat)
    requires Inv(p) && i <= |p.outq| && Dropped(p, i)
    ensures var q := DropRequests(p, i);
      Dropped(q, |q.outq|) && NoRequests(q.outq) == NoRequests(p.outq)
    decreases |p.outq| - i
  {
    if i < |p.outq| {
      if p.outq[i].Request? {
        UnsendOtherKeeps(p, i);
        var u := Unsend(p, i);
        if u.removed {
          CutRequest(p.outq, i);
          assert forall k :: 0 <= k < i ==> u.peer.outq[k] == p.outq[k];
          DropRequestsDrops(u.peer, i);
        } else {
          DropRequestsDrops(p, i + 1);
        }
      } else {
        DropRequestsDrops(p, i + 1);
      }
    }
  }

  // ------------------------------------------------------------- requests come on again

  predicate HasUnchoke(q: seq<Msg>) {
    exists i :: 0 <= i < |q| && IsUnchoke(q[i])
  }

  predicate IsUnchoke(m: Msg) { m.Other? && m.kind.Unchoke? }

  /** Requests are off only while an unchoke is queued that will turn them on as it leaves. */
  ghost predicate ComesOn(p: Peer) { p.noRequests ==> HasUnchoke(p.outq) }

  lemma {:induction false} UnchokeIsOther(q: seq<Msg>)
    ensures HasUnchoke(q) <==> HasUnchoke(Others(q))
  {
    if q != [] {
      UnchokeIsOther(q[1..]);
      HasUnchokeConcat([q[0]], q[1..]);
      HasUnchokeConcat(IfOther(q[0]), Others(q[1..]));
      assert q == [q[0]] + q[1..];
      assert HasUnchoke([q[0]]) <==> IsUnchoke([q[0]][0]);
      assert !q[0].Piece? && !q[0].Data? ==> IfOther(q[0]) == [q[0]];
    }
  }

  lemma HasUnchokeConcat(a: seq<Msg>, b: seq<Msg>)
    ensures HasUnchoke(a + b) <==> HasUnchoke(a) || HasUnchoke(b)
  {
    if HasUnchoke(a) {
      var i :| 0 <= i < |a| && IsUnchoke(a[i]);
      assert IsUnchoke((a + b)[i]);
    }
    if HasUnchoke(b) {
      var i :| 0 <= i < |b| && IsUnchoke(b[i]);
      assert IsUnchoke((a + b)[|a| + i]);
    }
    if HasUnchoke(a + b) {
      var i :| 0 <= i < |a + b| && IsUnchoke((a + b)[i]);
      assert if i < |a| then IsUnchoke(a[i]) else IsUnchoke(b[i - |a|]);
    }
  }

  lemma CutKeepsUnchoke(q: seq<Msg>, i: nat)
    requires i < |q| && HasUnchoke(q) && !IsUnchoke(q[i])
    ensures HasUnchoke(q[..i] + q[i + 1..])
  {
    assert q == q[..i] + ([q[i]] + q[i + 1..]);
    HasUnchokeConcat(q[..i], [q[i]] + q[i + 1..]);
    HasUnchokeConcat([q[i]], q[i + 1..]);
    HasUnchokeConcat(q[..i], q[i + 1..]);
    assert HasUnchoke([q[i]]) <==> IsUnchoke([q[i]][0]);
  }

  lemma {:induction false} DropComesOn(p: Peer, i: nat)
    requires Inv(p) && i <= |p.outq| && ComesOn(p)
    ensures ComesOn(DropRequests(p, i))
    decreases |p.outq| - i
  {
    if i < |p.outq| {
      if p.outq[i].Request? && Unsend(p, i).removed {
        UnsendOtherKeeps(p, i);
        if p.noRequests {
          CutKeepsUnchoke(p.outq, i);
        }
        DropComesOn(Unsend(p, i).peer, i);
      } else {
        DropComesOn(p, i + 1);
      }
    }
  }

  lemma {:induction false} TakenComesOn(p: Peer, n: int)
    requires ComesOn(p)
    ensures ComesOn(Taken(p, n))
    decreases |p.outq|
  {
    if 0 < n && p.outq != [] && Len(p.outq[0]) - p.off <= n {
      if !IsUnchoke(p.outq[0]) && p.noRequests {
        CutKeepsUnchoke(p.outq, 0);
        assert p.outq[..0] + p.outq[1..] == p.outq[1..];
      }
      TakenComesOn(PopHead(p), n - (Len(p.outq[0]) - p.off));
    }
  }

  lemma WriteComesOn(p: Peer, max: nat, n: nat)
    requires Inv(p) && ComesOn(p)
    ensures ComesOn(Write(p, max, n))
  {
    OfferReady(p, max);
    var o := OfferAll(p.outq, max);
    if p.noRequests {
      var i :| 0 <= i < |p.outq| && IsUnchoke(p.outq[i]);
      assert IsUnchoke(o.outq[i]);
    }
    TakenComesOn(p.(outq := o.outq), n);
  }

  lemma CancelComesOn(p: Peer, req: Req)
    requires Inv(p) && ComesOn(p)
    ensures ComesOn(OnCancel(p, req))
  {
    OnCancelKeeps(p, req);
    var i := FindPiece(p.outq, req);
    if i < |p.outq| {
      InQueue(p, i);
      BlockHasNoOthers(p.outq, i);
      UnchokeIsOther(p.outq);
      UnchokeIsOther(p.outq[..i] + p.outq[i + 2..]);
      UnsendBlockKeeps(p, i);
    }
  }

  lemma ChokeComesOn(p: Peer)
    requires Inv(p) && ComesOn(p)
    ensures ComesOn(ChokePeer(p))
  {
    ChokeKeeps(p);
    ChokeFromKeeps(p, 0);
    UnchokeIsOther(p.outq);
    UnchokeIsOther(ChokePeer(p).outq);
    HasUnchokeConcat(Others(p.outq), [Other(Choke, 5)]);
  }

  lemma RequestComesOn(p: Peer, req: Req)
    requires Inv(p) && ComesOn(p)
    ensures ComesOn(OnRequest(p, req))
  {
    RequestAppends(p, req);
    OnRequestKeeps(p, req);
    if !p.noRequests && OnRequest(p, req).noRequests {
      var q := OnRequest(p, req).outq;
      assert IsUnchoke(q[|q| - 1]);
    }
  }

  lemma CancelMineComesOn(p: Peer, id: int)
    requires Inv(p) && ComesOn(p)
    ensures ComesOn(CancelRequest(p, id))
  {
    CancelRequestChanges(p, id);
    var i := FindRequest(p.outq, id);
    if p.noRequests {
      if i < |p.outq| {
        CutKeepsUnchoke(p.outq, i);
      }
      HasUnchokeConcat(p.outq, [Other(Misc, 17)]);
    }
  }

  lemma WantComesOn(p: Peer)
    requires Inv(p) && ComesOn(p)
    ensures ComesOn(SendInterest(p))
  {
    InterestChanges(p);
    var n := |p.outq|;
    if p.noRequests {
      if n != 0 && p.outq[n - 1] == Other(Uninterest, 5) {
        CutKeepsUnchoke(p.outq, n - 1);
        assert p.outq[..n - 1] + p.outq[n..] == p.outq[..n - 1];
      }
      HasUnchokeConcat(p.outq, [Other(Interest, 5)]);
    }
  }

  // -------------------------------------------------------------------------- whole runs

  datatype Event =
    | GetRequest(req: Req)
    | GetCancel(req: Req)
    | ChokeIt
    | UnchokeIt
    | SendOther(kind: Kind, size: nat)
    | SendRequest(id: int)
    | CancelMine(id: int)
    | GetChoke
    | Want
    | WriteOut(max: nat, n: nat)

  ghost predicate Enabled(p: Peer, e: Event) {
    e.WriteOut? ==> CanWrite(p, e.max, e.n)
  }

  function Step(p: Peer, e: Event): Peer {
    match e
    case GetRequest(req) => OnRequest(p, req)
    case GetCancel(req) => OnCancel(p, req)
    case ChokeIt => ChokePeer(p)
    case UnchokeIt => UnchokePeer(p)
    case SendOther(kind, size) => Send(p, Other(kind, size))
    case SendRequest(id) => Send(p, Request(id))
    case CancelMine(id) => CancelRequest(p, id)
    case GetChoke => DropRequests(p, 0)
    case Want => SendInterest(p)
    case WriteOut(max, n) => Write(p, max, n)
  }

  /** Every call keeps the stream framed; only a write changes what has left or a message
      that is partly written. */
  lemma StepKeeps(p: Peer, e: Event)
    requires Inv(p) && Enabled(p, e)
    ensures Inv(Step(p, e)) && p.sent <= Step(p, e).sent
    ensures !e.WriteOut? ==> Keeps(p, Step(p, e))
  {
    match e
    case GetRequest(req) => OnRequestKeeps(p, req);
    case GetCancel(req) => OnCancelKeeps(p, req);
    case ChokeIt => ChokeKeeps(p);
    case UnchokeIt => UnchokeKeeps(p);
    case SendOther(kind, size) => SendKeeps(p, Other(kind, size));
    case SendRequest(id) => SendKeeps(p, Request(id));
    case CancelMine(id) => CancelRequestKeeps(p, id);
    case GetChoke => DropRequestsKeeps(p, 0);
    case Want => SendInterestKeeps(p);
    case WriteOut(max, n) => WriteKeeps(p, max, n);
  }

  ghost predicate Runs(p: Peer, es: seq<Event>)
    decreases |es|
  {
    es == [] || (Enabled(p, es[0]) && Runs(Step(p, es[0]), es[1..]))
  }

  function Run(p: Peer, es: seq<Event>): Peer
    decreases |es|
  {
    if es == [] then p else Run(Step(p, es[0]), es[1..])
  }

  lemma {:induction false} RunKeepsInv(p: Peer, es: seq<Event>)
    requires Inv(p) && Runs(p, es)
    ensures Inv(Run(p, es)) && p.sent <= Run(p, es).sent
    decreases |es|
  {
    if es != [] {
      StepKeeps(p, es[0]);
      RunKeepsInv(Step(p, es[0]), es[1..]);
    }
  }

  function New(): Peer { Peer([], 0, 0, false, true, false, []) }

  lemma StepComesOn(p: Peer, e: Event)
    requires Inv(p) && Enabled(p, e) && ComesOn(p)
    ensures ComesOn(Step(p, e))
  {
    match e
    case GetRequest(req) => RequestComesOn(p, req);
    case GetCancel(req) => CancelComesOn(p, req);
    case ChokeIt => ChokeComesOn(p);
    case UnchokeIt => HasUnchokeConcat(p.outq, [Other(Unchoke, 5)]);
    case SendOther(kind, size) => HasUnchokeConcat(p.outq, [Other(kind, size)]);
    case SendRequest(id) => HasUnchokeConcat(p.outq, [Request(id)]);
    case CancelMine(id) => CancelMineComesOn(p, id);
    case GetChoke => DropComesOn(p, 0);
    case Want => WantComesOn(p);
    case WriteOut(max, n) => WriteComesOn(p, max, n);
  }

  lemma {:induction false} RunComesOn(p: Peer, es: seq<Event>)
    requires Inv(p) && Runs(p, es) && ComesOn(p)
    ensures ComesOn(Run(p, es))
    decreases |es|
  {
    if es != [] {
      StepKeeps(p, es[0]);
      StepComesOn(p, es[0]);
      RunComesOn(Step(p, es[0]), es[1..]);
    }
  }

  /** Over every run from a new connection, requests that the limit has turned off come on
      again at the latest when the queue has been written. */
  lemma RequestsComeOn(es: seq<Event>)
    requires Runs(New(), es)
    ensures var p := Run(New(), es);
      p.noRequests ==> p.outq != [] && exists i :: 0 <= i < |p.outq| && IsUnchoke(p.outq[i])
  {
    RunComesOn(New(), es);
  }

  /** On the wire each header is directly followed by its data, if anything follows. */
  ghost predicate WireFramed(s: seq<Msg>) {
    && (forall i :: 0 <= i < |s| - 1 && s[i].Piece? ==> s[i + 1].Data? && s[i + 1].req == s[i].req)
    && (forall i :: 0 <= i < |s| && s[i].Data? ==> 0 < i && s[i - 1] == Piece(s[i].req))
  }

  /** In the queue each header is directly followed by its data, and data without their
      header are at the head. */
  ghost predicate QueueFramed(q: seq<Msg>) {
    && (forall i :: 0 <= i < |q| && q[i].Piece? ==> i + 1 < |q| && q[i + 1].Data? && q[i + 1].req == q[i].req)
    && (forall i :: 0 < i < |q| && q[i].Data? ==> q[i - 1] == Piece(q[i].req))
  }

  lemma PrefixFramed(s: seq<Msg>, q: seq<Msg>)
    requires Framed(s + q)
    ensures WireFramed(s)
  {
    var w := s + q;
    assert forall i :: 0 <= i < |s| ==> w[i] == s[i];
    forall i | 0 <= i < |s| && s[i].Data?
      ensures 0 < i && s[i - 1] == Piece(s[i].req)
    {
      assert FramedAt(w, i) && w[i - 1] == s[i - 1];
    }
    forall i | 0 <= i < |s| - 1 && s[i].Piece?
      ensures s[i + 1].Data? && s[i + 1].req == s[i].req
    {
      assert FramedAt(w, i) && w[i + 1] == s[i + 1];
    }
  }

  lemma SuffixFramed(p: Peer)
    requires Inv(p)
    ensures QueueFramed(p.outq)
  {
    forall i | 0 <= i < |p.outq| && p.outq[i].Piece?
      ensures i + 1 < |p.outq| && p.outq[i + 1].Data? && p.outq[i + 1].req == p.outq[i].req
    {
      InQueue(p, i);
    }
    forall i | 0 < i < |p.outq| && p.outq[i].Data?
      ensures p.outq[i - 1] == Piece(p.outq[i].req)
    {
      InQueue(p, i);
    }
  }

  /** Over every run from a new connection the wire and the queue are framed, and the
      counter is the number of data messages queued. */
  lemma StreamIsFramed(es: seq<Event>)
    requires Runs(New(), es)
    ensures var p := Run(New(), es);
      WireFramed(p.sent) && QueueFramed(p.outq) && p.npieceMsgs == DataCount(p.outq)
  {
    RunKeepsInv(New(), es);
    InvIsFramed(Run(New(), es));
  }

  lemma InvIsFramed(p: Peer)
    requires Inv(p)
    ensures WireFramed(p.sent) && QueueFramed(p.outq) && p.npieceMsgs == DataCount(p.outq)
  {
    PrefixFramed(p.sent, p.outq);
    SuffixFramed(p);
  }

  // ------------------------------------------------------------------ the code in place

  /** The part of struct peer that the output queue uses; sent is for the proof only. */
  class PeerOut {
    var outq: seq<Msg>
    var off: nat
    var npieceMsgs: int
    var noRequests: bool
    var iChoke: bool
    var wantWrite: bool
    ghost var sent: seq<Msg>

    ghost function Abs(): Peer
      reads this
    {
      Peer(outq, off, npieceMsgs, noRequests, iChoke, wantWrite, sent)
    }

    constructor ()
      ensures Abs() == New()
    {
      outq, off, npieceMsgs, noRequests, iChoke, wantWrite, sent := [], 0, 0, false, true, false, [];
    }

    /** libbt/btpd/peer.c:99-112. */
    method PeerSend(m: Msg)
      requires HeadOk(Abs())
      modifies this
      ensures Abs() == Send(old(Abs()), m)
    {
      if outq == [] {
        assert off == 0;
        wantWrite := true;
      }
      outq := outq + [m];
    }

    /** libbt/btpd/peer.c:121-142. */
    method PeerUnsend(i: nat) returns (removed: bool)
      requires i < |outq| && (outq[i].Data? ==> 0 < npieceMsgs)
      modifies this
      ensures Abs() == Unsend(old(Abs()), i).peer && removed == Unsend(old(Abs()), i).removed
    {
      if i == 0 && 0 < off {
        return false;
      }
      var m := outq[i];
      outq := outq[..i] + outq[i + 1..];
      if m.Data? {
        assert 0 < npieceMsgs;
        npieceMsgs := npieceMsgs - 1;
      }
      wantWrite := outq != [];
      removed := true;
    }

    /** libbt/btpd/peer.c:749-751: a header, and the data behind it if that was removed. */
    method UnsendPiece(i: nat) returns (removed: bool)
      requires Inv(Abs()) && i < |outq| && outq[i].Piece?
      modifies this
      ensures i + 1 < |old(outq)|
      ensures Abs() == UnsendBlock(old(Abs()), i).peer && removed == UnsendBlock(old(Abs()), i).removed
      ensures Inv(Abs())
    {
      InQueue(Abs(), i);
      UnsendBlockKeeps(Abs(), i);
      CountsBlock(outq, i);
      removed := PeerUnsend(i);
      if removed {
        var second := PeerUnsend(i);
      }
    }

    /** One turn of the loop of lines 275 to 284. */
    method ChokeOne(i: nat) returns (next: nat)
      requires Inv(Abs()) && i < |outq|
      modifies this
      ensures Inv(Abs()) && next <= |outq| && |outq| - next < |old(outq)| - i
      ensures ChokeFrom(Abs(), next) == ChokeFrom(old(Abs()), i)
    {
      InQueue(Abs(), i);
      if outq[i].Piece? {
        UnsendBlockKeeps(Abs(), i);
        var removed := UnsendPiece(i);
        next := if removed then i else i + 2;
      } else {
        next := i + 1;
      }
    }

    /** libbt/btpd/peer.c:271-288. */
    method PeerChoke()
      requires Inv(Abs())
      modifies this
      ensures Abs() == ChokePeer(old(Abs())) && Inv(Abs())
    {
      ChokeKeeps(Abs());
      var i: nat := 0;
      while i < |outq|
        invariant i <= |outq| && Inv(Abs())
        invariant ChokeFrom(Abs(), i) == ChokeFrom(old(Abs()), 0)
        decreases |outq| - i
      {
        i := ChokeOne(i);
      }
      iChoke := true;
      PeerSend(Other(Choke, 5));
    }

    /** libbt/btpd/peer.c:718-734. */
    method PeerOnRequest(req: Req)
      requires Inv(Abs())
      modifies this
      ensures Abs() == OnRequest(old(Abs()), req) && Inv(Abs())
    {
      OnRequestKeeps(Abs(), req);
      if !noRequests {
        PeerSend(Piece(req));
        PeerSend(Data(req, false));
        npieceMsgs := npieceMsgs + 1;
        if MAXPIECEMSGS <= npieceMsgs {
          PeerSend(Other(Choke, 5));
          PeerSend(Other(Unchoke, 5));
          noRequests := true;
        }
      }
    }

    /** libbt/btpd/peer.c:736-754. */
    method PeerOnCancel(req: Req)
      requires Inv(Abs())
      modifies this
      ensures Abs() == OnCancel(old(Abs()), req) && Inv(Abs())
    {
      OnCancelKeeps(Abs(), req);
      var i := 0;
      assert outq[0..] == outq;
      while i < |outq| && outq[i] != Piece(req)
        invariant i <= |outq|
        invariant FindPiece(outq, req) == i + FindPiece(outq[i..], req)
      {
        assert outq[i..][1..] == outq[i + 1..];
        i := i + 1;
      }
      if i < |outq| {
        var removed := UnsendPiece(i);
      }
    }

    /** libbt/btpd/peer.c:252-259. */
    method PeerCancel(id: int)
      requires Inv(Abs())
      modifies this
      ensures Abs() == CancelRequest(old(Abs()), id) && Inv(Abs())
    {
      CancelRequestKeeps(Abs(), id);
      var i, removed := 0, false;
      assert outq[0..] == outq;
      while i < |outq| && outq[i] != Request(id)
        invariant i <= |outq|
        invariant FindRequest(outq, id) == i + FindRequest(outq[i..], id)
      {
        assert outq[i..][1..] == outq[i + 1..];
        i := i + 1;
      }
      if i < |outq| {
        removed := PeerUnsend(i);
      }
      if !removed {
        PeerSend(Other(Misc, 17));
      }
    }

    /** libbt/btpd/peer.c:576-582. */
    method PeerOnChoke()
      requires Inv(Abs())
      modifies this
      ensures Abs() == DropRequests(old(Abs()), 0) && Inv(Abs())
    {
      DropRequestsKeeps(Abs(), 0);
      var i := 0;
      while i < |outq|
        invariant i <= |outq|
        invariant DropRequests(Abs(), i) == DropRequests(old(Abs()), 0)
        decreases |outq| - i
      {
        var removed := false;
        if outq[i].Request? {
          removed := PeerUnsend(i);
        }
        if !removed {
          i := i + 1;
        }
      }
    }

    /** libbt/btpd/net.c:247-270. */
    method NetWritten(n: nat)
      modifies this
      ensures Abs() == Taken(old(Abs()), n)
    {
      var bcount: int := n;
      while 0 < bcount && outq != []
        invariant Taken(Abs(), bcount) == Taken(old(Abs()), n)
        decreases |outq|, bcount
      {
        var delta := Len(outq[0]) - off;
        if delta <= bcount {
          HeadSent();
          bcount := bcount - delta;
        } else {
          off := off + bcount;
          bcount := 0;
        }
      }
    }

    /** libbt/btpd/net.c:251 and 257-260. */
    method HeadSent()
      requires outq != []
      modifies this
      ensures Abs() == PopHead(old(Abs()))
    {
      PeerSent(outq[0]);
      sent := sent + [outq[0]];
      outq := outq[1..];
      off := 0;
    }

    /** libbt/btpd/peer.c:144-214. */
    method PeerSent(m: Msg)
      modifies this
      ensures Abs() == Sent(old(Abs()), m)
    {
      match m
      case Data(_, _) => npieceMsgs := npieceMsgs - 1;
      case Other(Unchoke, _) => noRequests := false;
      case _ =>
    }

    /** libbt/btpd/net.c:196-231. */
    method NetOffer(max: nat) returns (count: nat)
      modifies this`outq
      ensures outq == OfferAll(old(outq), max).outq && count == OfferAll(old(outq), max).count
    {
      var blocks := if outq != [] && outq[0].Data? then 1 else 0;
      ghost var o := OfferAll(outq, max);
      count := 0;
      while count < |outq| && count < max
        invariant count <= |outq| && o == OfferFrom(outq, count, blocks, max)
        decreases |outq| - count
      {
        if outq[count].Piece? && count + 1 < |outq| && outq[count + 1].Data? {
          if 1 <= blocks {
            return;
          }
          outq := outq[count + 1 := outq[count + 1].(filled := true)];
          blocks := blocks + 1;
        }
        count := count + 1;
      }
    }

    /** libbt/btpd/net.c:181-278, when the socket takes n bytes. */
    method NetWrite(max: nat, n: nat)
      requires Inv(Abs()) && CanWrite(Abs(), max, n)
      modifies this
      ensures Abs() == Write(old(Abs()), max, n) && Inv(Abs())
    {
      WriteKeeps(Abs(), max, n);
      var count := NetOffer(max);
      NetWritten(n);
      wantWrite := outq != [];
    }
  }

  lemma {:induction false} CountsBlock(q: seq<Msg>, i: nat)
    requires i + 1 < |q| && q[i + 1].Data?
    ensures 0 < DataCount(q)
  {
    if i == 0 {
      assert q[1..][0] == q[1];
    } else {
      CountsBlock(q[1..], i - 1);
    }
  }
}
