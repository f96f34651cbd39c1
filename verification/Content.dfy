module Content {
  /* The torrent content store (libbt/btpd/content.c, libbt/btpd/torrent.c:53-80).

     A torrent is one run of bytes cut into pieces, and every piece is cut into blocks.
     Three bit fields say which pieces passed their hash, which blocks of the others were
     received, and which pieces have had their place on disk made ready. */

  import opened Counting

  type Byte = b: int | 0 <= b < 256

  const PIECE_BLOCKLEN: nat := 16384
  const ZEROBUFLEN: nat := 16384

  // ----------------------------------------------------------------- pieces and blocks

  lemma {:induction false} Products(a: nat, p: nat, q: nat)
    requires p < q
    ensures a * p + a <= a * q
  {
    if p + 1 < q {
      Products(a, p, q - 1);
      assert a * q == a * (q - 1) + a;
    }
  }

  /** sha stands for the digest of a run of bytes, hashes for those of the torrent file. */
  datatype Torrent = Torrent(npieces: nat, plen: nat, total: nat, sha: seq<Byte> -> int, hashes: seq<int>)
  {
    predicate Valid() {
      && 1 <= npieces && 1 <= plen && |hashes| == npieces
      && plen * (npieces - 1) < total <= plen * npieces
    }

    /** libbt/btpd/torrent.c:53-62. */
    function PieceSize(p: nat): int {
      if p < npieces - 1 then plen else total - plen * (npieces - 1)
    }

    function PieceStart(p: nat): nat { plen * p }

    /** libbt/btpd/torrent.c:64-68. */
    function Blocks(p: nat): int { (PieceSize(p) + PIECE_BLOCKLEN - 1) / PIECE_BLOCKLEN }

    /** libbt/btpd/torrent.c:70-80. */
    function BlockSize(p: nat, b: nat): int {
      if b < Blocks(p) - 1 then PIECE_BLOCKLEN else PieceSize(p) - PIECE_BLOCKLEN * (Blocks(p) - 1)
    }

    function BlockStart(p: nat, b: nat): nat { PieceStart(p) + PIECE_BLOCKLEN * b }

    lemma PieceRange(p: nat)
      requires Valid() && p < npieces
      ensures 1 <= PieceSize(p) <= plen
      ensures PieceStart(p) + PieceSize(p) <= total
    {
      assert plen * npieces == plen * (npieces - 1) + plen;
      if p < npieces - 1 {
        Apart(p, npieces - 1);
      }
    }

    /** The pieces follow each other and make up the torrent. */
    lemma PiecesMakeTorrent(p: nat)
      requires Valid() && p < npieces
      ensures PieceStart(0) == 0
      ensures PieceStart(p) + PieceSize(p) == if p + 1 < npieces then PieceStart(p + 1) else total
    {
      assert plen * (p + 1) == plen * p + plen;
      assert p + 1 == npieces ==> plen * (npieces - 1) == plen * p;
    }

    lemma Apart(p: nat, q: nat)
      requires p < q
      ensures PieceStart(p) + plen <= PieceStart(q)
    {
      Products(plen, p, q);
    }

    lemma BlockRange(p: nat, b: nat)
      requires Valid() && p < npieces && b < Blocks(p)
      ensures 1 <= BlockSize(p, b) <= PIECE_BLOCKLEN
      ensures PIECE_BLOCKLEN * b + BlockSize(p, b) <= PieceSize(p)
    {
      PieceRange(p);
    }

    function BlockSizes(p: nat, k: nat): int {
      if k == 0 then 0 else BlockSizes(p, k - 1) + BlockSize(p, k - 1)
    }

    lemma {:induction false} FirstBlocks(p: nat, k: nat)
      requires k < Blocks(p)
      ensures BlockSizes(p, k) == PIECE_BLOCKLEN * k
    {
      if k > 0 {
        FirstBlocks(p, k - 1);
      }
    }

    /** The blocks of a piece make up the piece. */
    lemma BlocksMakePiece(p: nat)
      requires Valid() && p < npieces
      ensures 1 <= Blocks(p) && BlockSizes(p, Blocks(p)) == PieceSize(p)
    {
      PieceRange(p);
      FirstBlocks(p, Blocks(p) - 1);
    }
  }

  // ------------------------------------------------------------------------- the disk

  /** The file bytes; left counts the writes that will still succeed, and torn is how much
      of the first failing one reaches the disk. */
  datatype Disk = Disk(bytes: seq<Byte>, left: nat, torn: nat)

  function Overwrite(bytes: seq<Byte>, off: nat, data: seq<Byte>): (r: seq<Byte>)
    requires off + |data| <= |bytes|
    ensures |r| == |bytes|
    ensures forall i :: 0 <= i < |bytes| ==> r[i] == if off <= i < off + |data| then data[i - off] else bytes[i]
  {
    bytes[..off] + data + bytes[off + |data|..]
  }

  datatype Written = Written(disk: Disk, err: bool)

  /** bts_put: all of the data, or an error and some first part of it. */
  function Put(d: Disk, off: nat, data: seq<Byte>): (w: Written)
    requires off + |data| <= |d.bytes|
  {
    if 0 < d.left then Written(Disk(Overwrite(d.bytes, off, data), d.left - 1, d.torn), false)
    else
      var n := if d.torn < |data| then d.torn else |data|;
      Written(d.(bytes := Overwrite(d.bytes, off, data[..n])), true)
  }

  lemma PutKeepsRange(d: Disk, off: nat, data: seq<Byte>, lo: nat, len: nat)
    requires off + |data| <= |d.bytes| && lo + len <= |d.bytes|
    requires off + |data| <= lo || lo + len <= off
    ensures Put(d, off, data).disk.bytes[lo..lo + len] == d.bytes[lo..lo + len]
  {
  }

  function Zeros(n: nat): (s: seq<Byte>)
    ensures |s| == n && forall i :: 0 <= i < n ==> s[i] == 0
  {
    seq(n, _ => 0)
  }

  /** libbt/btpd/content.c:284-295. */
  function ZeroFill(d: Disk, off: nat, len: nat): (w: Written)
    requires off + len <= |d.bytes|
    ensures |w.disk.bytes| == |d.bytes|
    decreases len
  {
    if len == 0 then Written(d, false)
    else
      var n := if ZEROBUFLEN < len then ZEROBUFLEN else len;
      var w := Put(d, off, Zeros(n));
      if w.err then w else ZeroFill(w.disk, off + n, len - n)
  }

  ghost predicate SameOutside(a: seq<Byte>, b: seq<Byte>, lo: int, hi: int) {
    |a| == |b| && forall i :: 0 <= i < |a| && !(lo <= i < hi) ==> a[i] == b[i]
  }

  lemma PutStaysInside(d: Disk, off: nat, data: seq<Byte>)
    requires off + |data| <= |d.bytes|
    ensures SameOutside(d.bytes, Put(d, off, data).disk.bytes, off, off + |data|)
  {
  }

  lemma {:induction false} ZeroFillStaysInside(d: Disk, off: nat, len: nat)
    requires off + len <= |d.bytes|
    ensures SameOutside(d.bytes, ZeroFill(d, off, len).disk.bytes, off, off + len)
    decreases len
  {
    if len != 0 {
      var n := if ZEROBUFLEN < len then ZEROBUFLEN else len;
      var w := Put(d, off, Zeros(n));
      PutStaysInside(d, off, Zeros(n));
      if !w.err {
        ZeroFillStaysInside(w.disk, off + n, len - n);
      }
    }
  }

  lemma {:induction false} ZeroFillZeroes(d: Disk, off: nat, len: nat)
    requires off + len <= |d.bytes|
    ensures var w := ZeroFill(d, off, len);
      !w.err ==> forall i :: off <= i < off + len ==> w.disk.bytes[i] == 0
    decreases len
  {
    if len != 0 {
      var n := if ZEROBUFLEN < len then ZEROBUFLEN else len;
      var w := Put(d, off, Zeros(n));
      if !w.err {
        ZeroFillZeroes(w.disk, off + n, len - n);
        ZeroFillStaysInside(w.disk, off + n, len - n);
        var v := ZeroFill(w.disk, off + n, len - n);
        forall i | !v.err && off <= i < off + len
          ensures v.disk.bytes[i] == 0
        {
          if i < off + n {
            assert v.disk.bytes[i] == w.disk.bytes[i];
          }
        }
      }
    }
  }

  // ------------------------------------------------------------------------ the state

  datatype Phase = Inactive | Starting | Active

  /** got and bytes are npieces_got and ncontent_bytes; writing says the write stream is
      open. */
  datatype Store = Store(
    phase: Phase, error: bool, got: int, bytes: int, writing: bool,
    piece: seq<bool>, block: seq<seq<bool>>, pos: seq<bool>, disk: Disk)

  /** The sizes of the fields. */
  ghost predicate Shape(t: Torrent, c: Store) {
    && t.Valid()
    && |c.piece| == t.npieces && |c.pos| == t.npieces && |c.block| == t.npieces
    && (forall p :: 0 <= p < t.npieces ==> |c.block[p]| == t.Blocks(p))
    && |c.disk.bytes| == t.total
  }

  function Failed(c: Store): Store { c.(phase := Inactive, error := true, writing := false) }

  /** libbt/btpd/content.c:225-232. */
  function Prealloc(c: Store, alloc: int, p: nat): Store
    requires p < |c.pos|
  {
    if alloc <= 0 then c.(pos := c.pos[p := true]) else c
  }

  datatype Outcome = Outcome(store: Store, err: bool)

  /** libbt/btpd/content.c:279-299. */
  function FillPieces(t: Torrent, c: Store, start: nat, end: nat): (r: Outcome)
    requires Shape(t, c) && start <= end <= t.npieces
    ensures Shape(t, r.store)
    decreases end - start
  {
    if start == end then Outcome(c, false)
    else if c.pos[start] then FillPieces(t, c, start + 1, end)
    else
      t.PieceRange(start);
      var w := ZeroFill(c.disk, t.PieceStart(start), t.PieceSize(start));
      if w.err then Outcome(Failed(c.(disk := w.disk)), true)
      else FillPieces(t, c.(disk := w.disk, pos := c.pos[start := true]), start + 1, end)
  }

  /** libbt/btpd/content.c:275-277: the window of alloc bytes that piece p is in. */
  function WindowSize(t: Torrent, alloc: nat): (k: nat)
    requires t.Valid() && 1 <= alloc
    ensures 1 <= k
  {
    (alloc + t.plen - 1) / t.plen
  }

  function WindowStart(t: Torrent, alloc: nat, p: nat): (start: nat)
    requires t.Valid() && 1 <= alloc
    ensures start <= p
  {
    p - p % WindowSize(t, alloc)
  }

  function WindowEnd(t: Torrent, alloc: nat, p: nat): (end: nat)
    requires t.Valid() && 1 <= alloc && p < t.npieces
    ensures p < end <= t.npieces
  {
    var end := WindowStart(t, alloc, p) + WindowSize(t, alloc);
    if end < t.npieces then end else t.npieces
  }

  ghost predicate CanPut(t: Torrent, c: Store, alloc: int, p: int, b: int, buf: seq<Byte>) {
    && Shape(t, c) && 0 <= p < t.npieces && 0 <= b < t.Blocks(p)
    && |buf| == t.BlockSize(p, b)
    && (c.pos[p] || 1 <= alloc)
  }

  /** libbt/btpd/content.c:274-300. */
  function MakeReady(t: Torrent, c: Store, alloc: int, p: nat): (r: Outcome)
    requires Shape(t, c) && p < t.npieces && (c.pos[p] || 1 <= alloc)
    ensures Shape(t, r.store)
  {
    if c.pos[p] then Outcome(c, false)
    else
      FillPieces(t, c, WindowStart(t, alloc, p), WindowEnd(t, alloc, p))
  }

  /** libbt/btpd/content.c:301-312. */
  function PutBlock(t: Torrent, c: Store, p: nat, b: nat, buf: seq<Byte>): (r: Outcome)
    requires Shape(t, c) && p < t.npieces && b < t.Blocks(p) && |buf| == t.BlockSize(p, b)
    ensures Shape(t, r.store)
  {
    t.PieceRange(p);
    t.BlockRange(p, b);
    var w := Put(c.disk, t.BlockStart(p, b), buf);
    if w.err then Outcome(Failed(c.(disk := w.disk)), true)
    else
      Outcome(c.(disk := w.disk, bytes := c.bytes + |buf|, block := c.block[p := c.block[p][b := true]]), false)
  }

  /** libbt/btpd/content.c:257-313. */
  function PutBytes(t: Torrent, c: Store, alloc: int, p: nat, b: nat, buf: seq<Byte>): (r: Outcome)
    requires CanPut(t, c, alloc, p, b, buf)
    ensures Shape(t, r.store)
  {
    if c.error then Outcome(c, true)
    else
      var r := MakeReady(t, c, alloc, p);
      if r.err then r else PutBlock(t, r.store, p, b, buf)
  }

  function PieceBytes(t: Torrent, c: Store, p: nat): seq<Byte>
    requires Shape(t, c) && p < t.npieces
  {
    t.PieceRange(p);
    c.disk.bytes[t.PieceStart(p)..t.PieceStart(p) + t.PieceSize(p)]
  }

  predicate Good(t: Torrent, c: Store, p: nat)
    requires Shape(t, c) && p < t.npieces
  {
    t.sha(PieceBytes(t, c, p)) == t.hashes[p]
  }

  function NoBlocks(n: nat): (s: seq<bool>)
    ensures |s| == n && forall i :: 0 <= i < n ==> !s[i]
  {
    seq(n, _ => false)
  }

  /** libbt/btpd/content.c:234-255; readFails is an error of the read stream, closeFails one
      of closing the write stream once the last piece is there. */
  function TestPiece(t: Torrent, c: Store, p: nat, readFails: bool, closeFails: bool): (r: Store)
    requires Shape(t, c) && p < t.npieces
    ensures Shape(t, r)
  {
    if readFails then Failed(c)
    else if Good(t, c, p) then
      var d := c.(got := c.got + 1, piece := c.piece[p := true]);
      if d.got != t.npieces then d else if closeFails then Failed(d) else d.(writing := false)
    else
      c.(bytes := c.bytes - t.PieceSize(p), block := c.block[p := NoBlocks(|c.block[p]|)])
  }

  // ---------------------------------------------------------------------- the invariant

  /** Every piece that holds anything has had its place made ready. */
  ghost predicate Covered(t: Torrent, c: Store)
    requires Shape(t, c)
  {
    && (forall p :: 0 <= p < t.npieces && c.piece[p] ==> c.pos[p])
    && (forall p, b :: 0 <= p < t.npieces && 0 <= b < t.Blocks(p) && c.block[p][b] ==> c.pos[p])
  }

  predicate Set(b: bool) { b }

  /** The sizes of the first k blocks of p that bits marks. */
  function Marked(t: Torrent, p: nat, bits: seq<bool>, k: nat): int
    requires k <= |bits|
  {
    if k == 0 then 0 else Marked(t, p, bits, k - 1) + if bits[k - 1] then t.BlockSize(p, k - 1) else 0
  }

  function Weight(t: Torrent, c: Store, p: nat): int
    requires Shape(t, c) && p < t.npieces
  {
    if c.piece[p] then t.PieceSize(p) else Marked(t, p, c.block[p], |c.block[p]|)
  }

  /** The bytes held in the first k pieces: owned pieces, and received blocks of others. */
  function Owned(t: Torrent, c: Store, k: nat): int
    requires Shape(t, c) && k <= t.npieces
  {
    if k == 0 then 0 else Owned(t, c, k - 1) + Weight(t, c, k - 1)
  }

  ghost predicate Books(t: Torrent, c: Store)
    requires Shape(t, c)
  {
    && c.got == Count(c.piece, Set)
    && c.bytes == Owned(t, c, t.npieces)
  }

  ghost predicate Streams(t: Torrent, c: Store) {
    && (c.error ==> c.phase == Inactive)
    && (c.phase == Active ==> (c.writing <==> c.got != t.npieces))
  }

  ghost predicate Inv(t: Torrent, c: Store) {
    Shape(t, c) && Covered(t, c) && Books(t, c) && Streams(t, c)
  }

  lemma {:induction false} MarkedUpdate(t: Torrent, p: nat, bits: seq<bool>, b: nat, k: nat)
    requires b < |bits| && !bits[b] && k <= |bits|
    ensures Marked(t, p, bits[b := true], k) == Marked(t, p, bits, k) + if b < k then t.BlockSize(p, b) else 0
  {
    if k != 0 {
      MarkedUpdate(t, p, bits, b, k - 1);
    }
  }

  lemma {:induction false} MarkedAll(t: Torrent, p: nat, bits: seq<bool>, k: nat)
    requires k <= |bits| && forall i :: 0 <= i < |bits| ==> bits[i]
    ensures Marked(t, p, bits, k) == t.BlockSizes(p, k)
  {
    if k != 0 {
      MarkedAll(t, p, bits, k - 1);
    }
  }

  lemma {:induction false} MarkedNone(t: Torrent, p: nat, bits: seq<bool>, k: nat)
    requires k <= |bits| && forall i :: 0 <= i < |bits| ==> !bits[i]
    ensures Marked(t, p, bits, k) == 0
  {
    if k != 0 {
      MarkedNone(t, p, bits, k - 1);
    }
  }

  ghost predicate SameBut(t: Torrent, c: Store, d: Store, p: nat)
    requires Shape(t, c) && Shape(t, d)
  {
    forall q :: 0 <= q < t.npieces && q != p ==> c.piece[q] == d.piece[q] && c.block[q] == d.block[q]
  }

  lemma {:induction false} OwnedUpdate(t: Torrent, c: Store, d: Store, p: nat, k: nat)
    requires Shape(t, c) && Shape(t, d) && p < t.npieces && k <= t.npieces
    requires SameBut(t, c, d, p)
    ensures Owned(t, d, k) == Owned(t, c, k) + if p < k then Weight(t, d, p) - Weight(t, c, p) else 0
  {
    if k != 0 {
      OwnedUpdate(t, c, d, p, k - 1);
    }
  }

  // ------------------------------------------------------------------- filling with zeros

  lemma PiecesApart(t: Torrent, p: nat, q: nat)
    requires t.Valid() && p < t.npieces && q < t.npieces && p != q
    ensures t.PieceStart(p) + t.PieceSize(p) <= t.PieceStart(q) || t.PieceStart(q) + t.PieceSize(q) <= t.PieceStart(p)
  {
    t.PieceRange(p);
    t.PieceRange(q);
    if p < q {
      t.Apart(p, q);
    } else {
      t.Apart(q, p);
    }
  }

  /** What filling leaves alone: all but the ready bits and the bytes of unready pieces. */
  ghost predicate Filled(t: Torrent, c: Store, d: Store)
    requires Shape(t, c) && Shape(t, d)
  {
    && d.piece == c.piece && d.block == c.block && d.got == c.got && d.bytes == c.bytes
    && (forall q :: 0 <= q < t.npieces && c.pos[q] ==> d.pos[q] && PieceBytes(t, d, q) == PieceBytes(t, c, q))
  }

  lemma ZeroOnePiece(t: Torrent, c: Store, p: nat)
    requires Shape(t, c) && p < t.npieces && !c.pos[p]
    ensures var w := (t.PieceRange(p); ZeroFill(c.disk, t.PieceStart(p), t.PieceSize(p)));
      && Filled(t, c, Failed(c.(disk := w.disk)))
      && Filled(t, c, c.(disk := w.disk, pos := c.pos[p := true]))
  {
    t.PieceRange(p);
    ZeroFillStaysInside(c.disk, t.PieceStart(p), t.PieceSize(p));
    var w := ZeroFill(c.disk, t.PieceStart(p), t.PieceSize(p));
    var d := c.(disk := w.disk, pos := c.pos[p := true]);
    forall q | 0 <= q < t.npieces && c.pos[q]
      ensures PieceBytes(t, d, q) == PieceBytes(t, c, q)
    {
      t.PieceRange(q);
      PiecesApart(t, p, q);
    }
  }

  lemma {:induction false} FillPiecesFills(t: Torrent, c: Store, start: nat, end: nat)
    requires Shape(t, c) && start <= end <= t.npieces
    ensures Filled(t, c, FillPieces(t, c, start, end).store)
    decreases end - start
  {
    if start != end {
      if c.pos[start] {
        FillPiecesFills(t, c, start + 1, end);
      } else {
        ZeroOnePiece(t, c, start);
        t.PieceRange(start);
        var w := ZeroFill(c.disk, t.PieceStart(start), t.PieceSize(start));
        if !w.err {
          var d := c.(disk := w.disk, pos := c.pos[start := true]);
          FillPiecesFills(t, d, start + 1, end);
        }
      }
    }
  }

  lemma {:induction false} FillPiecesReadies(t: Torrent, c: Store, start: nat, end: nat)
    requires Shape(t, c) && start <= end <= t.npieces
    ensures var r := FillPieces(t, c, start, end);
      && (r.err ==> r.store.error && r.store.phase == Inactive)
      && (!r.err ==> r.store.error == c.error && r.store.phase == c.phase && r.store.writing == c.writing)
      && (!r.err ==> forall q :: start <= q < end ==> r.store.pos[q])
    decreases end - start
  {
    if start != end {
      if c.pos[start] {
        FillPiecesReadies(t, c, start + 1, end);
        FillPiecesFills(t, c, start + 1, end);
      } else {
        t.PieceRange(start);
        var w := ZeroFill(c.disk, t.PieceStart(start), t.PieceSize(start));
        if !w.err {
          var d := c.(disk := w.disk, pos := c.pos[start := true]);
          FillPiecesReadies(t, d, start + 1, end);
          FillPiecesFills(t, d, start + 1, end);
        }
      }
    }
  }

  lemma NewPieceIsZero(t: Torrent, c: Store, p: nat)
    requires Shape(t, c) && p < t.npieces
    ensures var w := (t.PieceRange(p); ZeroFill(c.disk, t.PieceStart(p), t.PieceSize(p)));
      !w.err ==> PieceBytes(t, c.(disk := w.disk), p) == Zeros(t.PieceSize(p))
  {
    t.PieceRange(p);
    ZeroFillZeroes(c.disk, t.PieceStart(p), t.PieceSize(p));
  }

  lemma {:induction false} FillPieceZeroes(t: Torrent, c: Store, start: nat, end: nat, q: nat)
    requires Shape(t, c) && start <= end <= t.npieces && q < t.npieces
    requires FillPieces(t, c, start, end).store.pos[q] && !c.pos[q]
    ensures start <= q < end
    ensures PieceBytes(t, FillPieces(t, c, start, end).store, q) == (t.PieceRange(q); Zeros(t.PieceSize(q)))
    decreases end - start
  {
    if c.pos[start] {
      FillPieceZeroes(t, c, start + 1, end, q);
    } else {
      t.PieceRange(start);
      var w := ZeroFill(c.disk, t.PieceStart(start), t.PieceSize(start));
      var d := c.(disk := w.disk, pos := c.pos[start := true]);
      if q == start {
        NewPieceIsZero(t, c, start);
        FillPiecesFills(t, d, start + 1, end);
        assert PieceBytes(t, d, start) == PieceBytes(t, c.(disk := w.disk), start);
      } else {
        FillPieceZeroes(t, d, start + 1, end, q);
      }
    }
  }

  /** A piece that becomes ready lies in the window and holds zeros. */
  lemma FillPiecesZeroes(t: Torrent, c: Store, start: nat, end: nat)
    requires Shape(t, c) && start <= end <= t.npieces
    ensures var d := FillPieces(t, c, start, end).store;
      forall q: nat :: q < t.npieces && d.pos[q] && !c.pos[q] ==>
        start <= q < end && PieceBytes(t, d, q) == (t.PieceRange(q); Zeros(t.PieceSize(q)))
  {
    var d := FillPieces(t, c, start, end).store;
    forall q: nat | q < t.npieces && d.pos[q] && !c.pos[q]
      ensures start <= q < end && PieceBytes(t, d, q) == (t.PieceRange(q); Zeros(t.PieceSize(q)))
    {
      FillPieceZeroes(t, c, start, end, q);
    }
  }

  /** Making a place ready keeps every ready piece, and makes ready the place asked for. */
  lemma MakeReadyReadies(t: Torrent, c: Store, alloc: int, p: nat)
    requires Shape(t, c) && p < t.npieces && (c.pos[p] || 1 <= alloc)
    ensures var r := MakeReady(t, c, alloc, p);
      && Filled(t, c, r.store)
      && (r.err ==> r.store.error && r.store.phase == Inactive)
      && (!r.err ==> r.store.error == c.error && r.store.phase == c.phase && r.store.writing == c.writing)
      && (!r.err ==> r.store.pos[p])
  {
    if !c.pos[p] {
      FillPiecesFills(t, c, WindowStart(t, alloc, p), WindowEnd(t, alloc, p));
      FillPiecesReadies(t, c, WindowStart(t, alloc, p), WindowEnd(t, alloc, p));
    }
  }

  // --------------------------------------------------------------- one call of each kind

  predicate Received(c: Store, p: int, b: int)
    requires 0 <= p < |c.piece| && |c.piece| == |c.block| && 0 <= b < |c.block[p]|
  {
    c.piece[p] || c.block[p][b]
  }

  function BlockBytes(t: Torrent, c: Store, p: nat, b: nat): seq<Byte>
    requires Shape(t, c) && p < t.npieces && b < t.Blocks(p)
  {
    t.PieceRange(p);
    t.BlockRange(p, b);
    c.disk.bytes[t.BlockStart(p, b)..t.BlockStart(p, b) + t.BlockSize(p, b)]
  }

  lemma BlockOfPiece(t: Torrent, c: Store, p: nat, b: nat)
    requires Shape(t, c) && p < t.npieces && b < t.Blocks(p)
    ensures 0 <= PIECE_BLOCKLEN * b <= PIECE_BLOCKLEN * b + t.BlockSize(p, b) <= |PieceBytes(t, c, p)|
    ensures BlockBytes(t, c, p, b)
         == PieceBytes(t, c, p)[PIECE_BLOCKLEN * b..PIECE_BLOCKLEN * b + t.BlockSize(p, b)]
  {
    t.PieceRange(p);
    t.BlockRange(p, b);
    SliceOfSlice(c.disk.bytes, t.PieceStart(p), t.PieceSize(p), PIECE_BLOCKLEN * b, t.BlockSize(p, b));
  }

  lemma SliceOfSlice<T>(s: seq<T>, lo: nat, n: nat, k: nat, m: nat)
    requires lo + n <= |s| && k + m <= n
    ensures s[lo..lo + n][k..k + m] == s[lo + k..lo + k + m]
  {
    var a, b := s[lo..lo + n][k..k + m], s[lo + k..lo + k + m];
    assert forall i :: 0 <= i < m ==> a[i] == b[i];
  }

  /** Filling a window touches no block that was received. */
  lemma FilledKeepsBlocks(t: Torrent, c: Store, d: Store, p: nat, b: nat)
    requires Shape(t, c) && Shape(t, d) && Covered(t, c) && Filled(t, c, d)
    requires p < t.npieces && b < t.Blocks(p) && Received(c, p, b)
    ensures BlockBytes(t, d, p, b) == BlockBytes(t, c, p, b)
  {
    BlockOfPiece(t, c, p, b);
    BlockOfPiece(t, d, p, b);
  }

  lemma BlocksApart(t: Torrent, p: nat, b: nat, q: nat, i: nat)
    requires t.Valid() && p < t.npieces && q < t.npieces && b < t.Blocks(p) && i < t.Blocks(q)
    requires p != q || b != i
    ensures || t.BlockStart(p, b) + t.BlockSize(p, b) <= t.BlockStart(q, i)
            || t.BlockStart(q, i) + t.BlockSize(q, i) <= t.BlockStart(p, b)
  {
    t.BlockRange(p, b);
    t.BlockRange(q, i);
    if p != q {
      PiecesApart(t, p, q);
    }
  }

  lemma PutBlockKeeps(t: Torrent, c: Store, p: nat, b: nat, buf: seq<Byte>, q: nat, i: nat)
    requires Shape(t, c) && p < t.npieces && b < t.Blocks(p) && |buf| == t.BlockSize(p, b)
    requires q < t.npieces && i < t.Blocks(q) && (p != q || b != i)
    ensures BlockBytes(t, PutBlock(t, c, p, b, buf).store, q, i) == BlockBytes(t, c, q, i)
  {
    BlocksApart(t, p, b, q, i);
    t.PieceRange(p);
    t.PieceRange(q);
    t.BlockRange(p, b);
    t.BlockRange(q, i);
    PutKeepsRange(c.disk, t.BlockStart(p, b), buf, t.BlockStart(q, i), t.BlockSize(q, i));
  }

  /** A put keeps the bytes of every block received before, whether it succeeds or not. */
  lemma PutKeepsBlocks(t: Torrent, c: Store, alloc: int, p: nat, b: nat, buf: seq<Byte>, q: nat, i: nat)
    requires CanPut(t, c, alloc, p, b, buf) && Covered(t, c)
    requires !c.piece[p] && !c.block[p][b]
    requires q < t.npieces && i < t.Blocks(q) && Received(c, q, i)
    ensures var d := PutBytes(t, c, alloc, p, b, buf).store;
      Received(d, q, i) && BlockBytes(t, d, q, i) == BlockBytes(t, c, q, i)
  {
    if !c.error {
      MakeReadyReadies(t, c, alloc, p);
      var r := MakeReady(t, c, alloc, p);
      FilledKeepsBlocks(t, c, r.store, q, i);
      if !r.err {
        PutBlockKeeps(t, r.store, p, b, buf, q, i);
      }
    }
  }

  /** A put that succeeds leaves the bytes it was given, marked as received. */
  lemma PutStores(t: Torrent, c: Store, alloc: int, p: nat, b: nat, buf: seq<Byte>)
    requires CanPut(t, c, alloc, p, b, buf)
    ensures var r := PutBytes(t, c, alloc, p, b, buf);
      && (!r.err ==> Received(r.store, p, b) && BlockBytes(t, r.store, p, b) == buf)
      && (r.err ==> r.store.error)
      && forall q, i :: 0 <= q < t.npieces && 0 <= i < t.Blocks(q) && Received(r.store, q, i) ==>
           Received(c, q, i) || (!r.err && q == p && i == b)
  {
    if !c.error {
      MakeReadyReadies(t, c, alloc, p);
      t.PieceRange(p);
      t.BlockRange(p, b);
    }
  }

  lemma PutKeepsCovered(t: Torrent, c: Store, alloc: int, p: nat, b: nat, buf: seq<Byte>)
    requires CanPut(t, c, alloc, p, b, buf) && Covered(t, c)
    ensures Covered(t, PutBytes(t, c, alloc, p, b, buf).store)
  {
    if !c.error {
      MakeReadyReadies(t, c, alloc, p);
    }
  }

  lemma {:induction false} OwnedSame(t: Torrent, c: Store, d: Store, k: nat)
    requires Shape(t, c) && Shape(t, d) && k <= t.npieces
    requires c.piece == d.piece && c.block == d.block
    ensures Owned(t, d, k) == Owned(t, c, k)
  {
    if k != 0 {
      OwnedSame(t, c, d, k - 1);
    }
  }

  lemma PutKeepsBooks(t: Torrent, c: Store, alloc: int, p: nat, b: nat, buf: seq<Byte>)
    requires CanPut(t, c, alloc, p, b, buf) && Books(t, c)
    requires !c.piece[p] && !c.block[p][b]
    ensures Books(t, PutBytes(t, c, alloc, p, b, buf).store)
  {
    if !c.error {
      MakeReadyReadies(t, c, alloc, p);
      var r := PutBytes(t, c, alloc, p, b, buf);
      if r.err {
        OwnedSame(t, c, r.store, t.npieces);
      } else {
        OwnedUpdate(t, c, r.store, p, t.npieces);
        MarkedUpdate(t, p, c.block[p], b, t.Blocks(p));
      }
    }
  }

  lemma PutKeepsInv(t: Torrent, c: Store, alloc: int, p: nat, b: nat, buf: seq<Byte>)
    requires CanPut(t, c, alloc, p, b, buf) && Inv(t, c)
    requires !c.piece[p] && !c.block[p][b]
    ensures Inv(t, PutBytes(t, c, alloc, p, b, buf).store)
  {
    PutKeepsCovered(t, c, alloc, p, b, buf);
    PutKeepsBooks(t, c, alloc, p, b, buf);
    if !c.error {
      MakeReadyReadies(t, c, alloc, p);
    }
  }

  ghost predicate CanTest(t: Torrent, c: Store, p: int) {
    && Shape(t, c) && 0 <= p < t.npieces && !c.piece[p]
    && forall b :: 0 <= b < t.Blocks(p) ==> c.block[p][b]
  }

  lemma GoodPieceBooks(t: Torrent, c: Store, d: Store, p: nat)
    requires CanTest(t, c, p) && Books(t, c) && Shape(t, d)
    requires d.piece == c.piece[p := true] && d.block == c.block && d.got == c.got + 1 && d.bytes == c.bytes
    ensures Books(t, d)
  {
    OwnedUpdate(t, c, d, p, t.npieces);
    CountUpdate(c.piece, p, true, Set);
    MarkedAll(t, p, c.block[p], t.Blocks(p));
    t.BlocksMakePiece(p);
  }

  lemma BadPieceBooks(t: Torrent, c: Store, d: Store, p: nat)
    requires CanTest(t, c, p) && Books(t, c) && Shape(t, d)
    requires d.piece == c.piece && d.block == c.block[p := NoBlocks(|c.block[p]|)]
    requires d.got == c.got && d.bytes == c.bytes - t.PieceSize(p)
    ensures Books(t, d)
  {
    OwnedUpdate(t, c, d, p, t.npieces);
    MarkedAll(t, p, c.block[p], t.Blocks(p));
    t.BlocksMakePiece(p);
    MarkedNone(t, p, d.block[p], t.Blocks(p));
  }

  lemma TestKeepsBooks(t: Torrent, c: Store, p: nat, readFails: bool, closeFails: bool)
    requires CanTest(t, c, p) && Books(t, c)
    ensures Books(t, TestPiece(t, c, p, readFails, closeFails))
  {
    var d := TestPiece(t, c, p, readFails, closeFails);
    if readFails {
      OwnedSame(t, c, d, t.npieces);
    } else if Good(t, c, p) {
      GoodPieceBooks(t, c, d, p);
    } else {
      BadPieceBooks(t, c, d, p);
    }
  }

  lemma TestKeepsCovered(t: Torrent, c: Store, p: nat, readFails: bool, closeFails: bool)
    requires CanTest(t, c, p) && Covered(t, c)
    ensures Covered(t, TestPiece(t, c, p, readFails, closeFails))
  {
    t.BlocksMakePiece(p);
    assert c.block[p][0];
  }

  lemma NotFull(t: Torrent, c: Store, p: nat)
    requires Shape(t, c) && Books(t, c) && p < t.npieces && !c.piece[p]
    ensures c.got < t.npieces
  {
    CountAll(c.piece, Set);
    assert !Set(c.piece[p]);
  }

  lemma TestKeepsInv(t: Torrent, c: Store, p: nat, readFails: bool, closeFails: bool)
    requires CanTest(t, c, p) && Inv(t, c)
    ensures Inv(t, TestPiece(t, c, p, readFails, closeFails))
  {
    TestKeepsBooks(t, c, p, readFails, closeFails);
    TestKeepsCovered(t, c, p, readFails, closeFails);
    NotFull(t, c, p);
  }

  /** While a piece is missing, the write stream that its blocks need is open, and the
      assertion at line 242 holds. */
  lemma MissingPieceIsWritable(t: Torrent, c: Store, p: nat)
    requires Inv(t, c) && c.phase == Active && p < t.npieces && !c.piece[p]
    ensures c.writing && c.got < t.npieces
  {
    NotFull(t, c, p);
  }

  /** A test accepts a piece if and only if its bytes have the digest of the torrent file, and
      gives up all blocks of one that it does not accept.  It touches nothing else, and fails
      only if the piece cannot be read, or the stream not be closed after the last piece. */
  lemma TestDecides(t: Torrent, c: Store, p: nat, readFails: bool, closeFails: bool)
    requires CanTest(t, c, p) && Inv(t, c) && c.phase == Active
    ensures var d := TestPiece(t, c, p, readFails, closeFails);
      && d.disk == c.disk && d.pos == c.pos && SameBut(t, c, d, p)
      && (readFails ==> d.piece == c.piece && d.block == c.block)
      && (!readFails ==> (d.piece[p] <==> t.sha(PieceBytes(t, c, p)) == t.hashes[p]))
      && (!readFails ==> d.block[p] == if d.piece[p] then c.block[p] else NoBlocks(|c.block[p]|))
      && (d.error <==> readFails || (closeFails && All(d.piece)))
      && (if d.error then d.phase == Inactive && !d.writing else d.phase == Active)
  {
    var d := TestPiece(t, c, p, readFails, closeFails);
    TestKeepsBooks(t, c, p, readFails, closeFails);
    CountAll(d.piece, Set);
    assert All(d.piece) <==> forall i :: 0 <= i < |d.piece| ==> Set(d.piece[i]);
  }

  predicate All(bits: seq<bool>) { forall i :: 0 <= i < |bits| ==> bits[i] }

  /** Bytes are written zeros first, in as many writes as buffers of zeros make them up. */
  function Chunks(len: int): int { (len + ZEROBUFLEN - 1) / ZEROBUFLEN }

  lemma {:induction false} ZeroFillWrites(d: Disk, off: nat, len: nat)
    requires off + len <= |d.bytes|
    ensures var w := ZeroFill(d, off, len);
      && (w.err <==> d.left < Chunks(len))
      && w.disk.left == if w.err then 0 else d.left - Chunks(len)
    decreases len
  {
    if len != 0 {
      var n := if ZEROBUFLEN < len then ZEROBUFLEN else len;
      var w := Put(d, off, Zeros(n));
      if !w.err {
        ZeroFillWrites(w.disk, off + n, len - n);
      }
    }
  }

  /** The writes that fill the pieces from start to end that are not ready. */
  function ToFill(t: Torrent, pos: seq<bool>, start: nat, end: nat): int
    requires start <= end <= |pos|
    decreases end - start
  {
    if start == end then 0
    else (if pos[start] then 0 else Chunks(t.PieceSize(start))) + ToFill(t, pos, start + 1, end)
  }

  lemma {:induction false} ToFillFrame(t: Torrent, pos: seq<bool>, q: nat, start: nat, end: nat)
    requires q < start <= end <= |pos|
    ensures ToFill(t, pos[q := true], start, end) == ToFill(t, pos, start, end)
    decreases end - start
  {
    if start != end {
      ToFillFrame(t, pos, q, start + 1, end);
    }
  }

  lemma {:induction false} ToFillIsNat(t: Torrent, pos: seq<bool>, start: nat, end: nat)
    requires t.Valid() && start <= end <= |pos| == t.npieces
    ensures 0 <= ToFill(t, pos, start, end)
    decreases end - start
  {
    if start != end {
      t.PieceRange(start);
      ToFillIsNat(t, pos, start + 1, end);
    }
  }

  lemma {:induction false} FillPiecesWrites(t: Torrent, c: Store, start: nat, end: nat)
    requires Shape(t, c) && start <= end <= t.npieces
    ensures var r := FillPieces(t, c, start, end);
      && (r.err <==> c.disk.left < ToFill(t, c.pos, start, end))
      && (if r.err then r.store.disk.left == 0 && !r.store.writing
          else r.store.disk.left == c.disk.left - ToFill(t, c.pos, start, end))
    decreases end - start
  {
    if start != end {
      ToFillIsNat(t, c.pos, start + 1, end);
      if c.pos[start] {
        FillPiecesWrites(t, c, start + 1, end);
      } else {
        t.PieceRange(start);
        ZeroFillWrites(c.disk, t.PieceStart(start), t.PieceSize(start));
        var w := ZeroFill(c.disk, t.PieceStart(start), t.PieceSize(start));
        if !w.err {
          ToFillFrame(t, c.pos, start, start + 1, end);
          FillPiecesWrites(t, c.(disk := w.disk, pos := c.pos[start := true]), start + 1, end);
        }
      }
    }
  }

  /** The writes that a put needs: its own, and those that make the window ready. */
  function Needed(t: Torrent, c: Store, alloc: int, p: nat): int
    requires Shape(t, c) && p < t.npieces && (c.pos[p] || 1 <= alloc)
  {
    1 + if c.pos[p] then 0 else ToFill(t, c.pos, WindowStart(t, alloc, p), WindowEnd(t, alloc, p))
  }

  /** A put fails if and only if the store has failed before or one of its writes does; if
      not, the store stays open and the whole window is ready. */
  lemma PutSucceedsExactly(t: Torrent, c: Store, alloc: int, p: nat, b: nat, buf: seq<Byte>)
    requires CanPut(t, c, alloc, p, b, buf)
    ensures var r := PutBytes(t, c, alloc, p, b, buf);
      && (r.err <==> c.error || c.disk.left < Needed(t, c, alloc, p))
      && (!r.err ==> r.store.error == c.error && r.store.phase == c.phase && r.store.writing == c.writing)
      && (r.err && !c.error ==>
            r.store.error && r.store.phase == Inactive && !r.store.writing && r.store.disk.left == 0)
      && (!r.err && !c.pos[p] ==>
            forall q :: WindowStart(t, alloc, p) <= q < WindowEnd(t, alloc, p) ==> r.store.pos[q])
  {
    if !c.error && !c.pos[p] {
      FillPiecesWrites(t, c, WindowStart(t, alloc, p), WindowEnd(t, alloc, p));
      FillPiecesReadies(t, c, WindowStart(t, alloc, p), WindowEnd(t, alloc, p));
    }
  }

  /** A write that fails leaves as much of the block on disk as the disk has taken, and the rest
      as it was. */
  lemma PutTears(t: Torrent, c: Store, alloc: int, p: nat, b: nat, buf: seq<Byte>)
    requires CanPut(t, c, alloc, p, b, buf) && !c.error && c.pos[p] && c.disk.left == 0
    ensures var d := PutBytes(t, c, alloc, p, b, buf).store;
      Torn(BlockBytes(t, c, p, b), BlockBytes(t, d, p, b), buf, c.disk.torn)
  {
    t.PieceRange(p);
    t.BlockRange(p, b);
    var off := t.BlockStart(p, b);
    PutTearsRange(c.disk, off, buf);
    var d := PutBytes(t, c, alloc, p, b, buf).store;
    assert d.disk == Put(c.disk, off, buf).disk;
  }

  /** Of what was there the first n bytes are now those of data. */
  predicate Torn(was: seq<Byte>, now: seq<Byte>, data: seq<Byte>, n: nat) {
    && |now| == |was| == |data|
    && forall i :: 0 <= i < |was| ==> now[i] == if i < n then data[i] else was[i]
  }

  lemma PutTearsRange(d: Disk, off: nat, data: seq<Byte>)
    requires off + |data| <= |d.bytes| && d.left == 0
    ensures Torn(d.bytes[off..off + |data|], Put(d, off, data).disk.bytes[off..off + |data|], data, d.torn)
  {
  }

  /** The windows are the least runs of whole pieces that hold alloc bytes, and they follow each
      other from the first piece on. */
  lemma WindowIs(t: Torrent, alloc: nat, p: nat)
    requires t.Valid() && 1 <= alloc && p < t.npieces
    ensures var k := WindowSize(t, alloc); var start := WindowStart(t, alloc, p);
      && t.plen * (k - 1) < alloc <= t.plen * k
      && start % k == 0 && start <= p < start + k
      && WindowEnd(t, alloc, p) == if start + k < t.npieces then start + k else t.npieces
  {
    var k := WindowSize(t, alloc);
    assert alloc + t.plen - 1 == t.plen * k + (alloc + t.plen - 1) % t.plen;
    assert t.plen * (k - 1) == t.plen * k - t.plen;
    MultipleBelow(p, k);
  }

  lemma MultipleBelow(p: nat, k: nat)
    requires 1 <= k
    ensures (p - p % k) % k == 0
  {
    assert p - p % k == k * (p / k);
    NothingLeft(k * (p / k), k, p / k);
  }

  lemma NothingLeft(m: nat, k: nat, q: nat)
    requires 1 <= k && m == k * q
    ensures m % k == 0
  {
    var r := m / k;
    assert m == k * r + m % k;
    if r < q {
      Products(k, r, q);
    } else if q < r {
      Products(k, q, r);
    }
  }

  /** A piece needs no window once it has been preallocated with none to be had. */
  lemma PreallocReadies(c: Store, alloc: int, p: nat)
    requires p < |c.pos|
    ensures var d := Prealloc(c, alloc, p);
      && (d.pos[p] <==> c.pos[p] || alloc <= 0) && d == c.(pos := d.pos)
      && |d.pos| == |c.pos| && forall q :: 0 <= q < |c.pos| && q != p ==> d.pos[q] == c.pos[q]
  {
  }

  // ------------------------------------------------------------------------- starting up

  /** A file of the torrent: the length it should have, and how much of it is on disk
      after files that are too long were cut (lines 401-407). */
  datatype File = File(length: nat, size: nat)

  function TotalLength(files: seq<File>): nat {
    if files == [] then 0 else files[0].length + TotalLength(files[1..])
  }

  ghost predicate Fitting(files: seq<File>) {
    forall k :: 0 <= k < |files| ==> files[k].size <= files[k].length
  }

  /** libbt/btpd/content.c:571-576. */
  function Forget(c: Store, start: nat, end: nat): (d: Store)
    requires end <= |c.pos| == |c.piece| == |c.block|
    decreases end - start
  {
    if end <= start then c
    else
      Forget(c.(pos := c.pos[start := false], piece := c.piece[start := false],
                block := c.block[start := NoBlocks(|c.block[start]|)]), start + 1, end)
  }

  /** libbt/btpd/content.c:566-577: the pieces that a short file reaches into. */
  function ForgetOne(t: Torrent, c: Store, f: File, off: nat): (d: Store)
    requires Shape(t, c) && f.size <= f.length && off + f.length <= t.total
    ensures Shape(t, d)
  {
    if f.size == f.length then c
    else
      LastPiece(t, off + f.length - 1);
      var start, end := (off + f.size) / t.plen, (off + f.length - 1) / t.plen + 1;
      ForgetShape(t, c, start, end);
      Forget(c, start, end)
  }

  /** libbt/btpd/content.c:565-579. */
  function ForgetMissing(t: Torrent, c: Store, files: seq<File>, off: nat): (d: Store)
    requires Shape(t, c) && Fitting(files) && off + TotalLength(files) == t.total
    ensures Shape(t, d)
    decreases |files|
  {
    if files == [] then c
    else ForgetMissing(t, ForgetOne(t, c, files[0], off), files[1..], off + files[0].length)
  }

  lemma Quotient(a: nat, n: nat, p: nat)
    requires 1 <= n
    ensures p <= a / n <==> n * p <= a
  {
    var q := a / n;
    assert a == n * q + a % n;
    if p < q {
      Products(n, p, q);
    } else if q < p {
      Products(n, q, p);
    }
  }

  lemma LastPiece(t: Torrent, i: nat)
    requires t.Valid() && i < t.total
    ensures i / t.plen < t.npieces
  {
    Quotient(i, t.plen, t.npieces);
  }

  lemma {:induction false} ForgetForgets(c: Store, start: nat, end: nat)
    requires end <= |c.pos| == |c.piece| == |c.block|
    ensures var d := Forget(c, start, end);
      && d == c.(pos := d.pos, piece := d.piece, block := d.block)
      && |d.pos| == |d.piece| == |d.block| == |c.pos|
      && forall q :: 0 <= q < |c.pos| ==>
           if start <= q < end then !d.pos[q] && !d.piece[q] && d.block[q] == NoBlocks(|c.block[q]|)
           else d.pos[q] == c.pos[q] && d.piece[q] == c.piece[q] && d.block[q] == c.block[q]
    decreases end - start
  {
    if start < end {
      ForgetForgets(c.(pos := c.pos[start := false], piece := c.piece[start := false],
                       block := c.block[start := NoBlocks(|c.block[start]|)]), start + 1, end);
    }
  }

  lemma ForgetShape(t: Torrent, c: Store, start: nat, end: nat)
    requires Shape(t, c) && end <= t.npieces
    ensures Shape(t, Forget(c, start, end))
  {
    ForgetForgets(c, start, end);
  }

  /** Some byte of piece p is in the part that file f, which starts at off, lacks. */
  predicate LacksFrom(t: Torrent, f: File, off: nat, p: nat) {
    var lo, hi := off + f.size, off + f.length;
    lo < hi && t.PieceStart(p) < hi && lo < t.PieceStart(p) + t.plen
  }

  /** Some byte of piece p is not on disk; the first file starts at off. */
  predicate Lacks(t: Torrent, files: seq<File>, off: nat, p: nat) {
    files != [] && (LacksFrom(t, files[0], off, p) || Lacks(t, files[1..], off + files[0].length, p))
  }

  lemma PiecesBetween(t: Torrent, f: File, off: nat, p: nat)
    requires t.Valid() && f.size < f.length
    ensures (off + f.size) / t.plen <= p < (off + f.length - 1) / t.plen + 1 <==> LacksFrom(t, f, off, p)
  {
    Quotient(off + f.size, t.plen, p + 1);
    Quotient(off + f.length - 1, t.plen, p);
    assert t.plen * (p + 1) == t.plen * p + t.plen;
  }

  /** What the set-up does to the fields: it clears all of a piece that lacks a byte. */
  ghost predicate Forgotten(t: Torrent, c: Store, d: Store, lacks: nat -> bool)
    requires Shape(t, c) && Shape(t, d)
  {
    && d == c.(pos := d.pos, piece := d.piece, block := d.block)
    && forall q: nat :: q < t.npieces ==>
         if lacks(q) then !d.pos[q] && !d.piece[q] && d.block[q] == NoBlocks(|c.block[q]|)
         else d.pos[q] == c.pos[q] && d.piece[q] == c.piece[q] && d.block[q] == c.block[q]
  }

  lemma ForgetOneForgets(t: Torrent, c: Store, f: File, off: nat)
    requires Shape(t, c) && f.size <= f.length && off + f.length <= t.total
    ensures Forgotten(t, c, ForgetOne(t, c, f, off), (p: nat) => LacksFrom(t, f, off, p))
  {
    if f.size < f.length {
      LastPiece(t, off + f.length - 1);
      var start, end := (off + f.size) / t.plen, (off + f.length - 1) / t.plen + 1;
      ForgetForgets(c, start, end);
      forall p: nat
        ensures LacksFrom(t, f, off, p) <==> start <= p < end
      {
        PiecesBetween(t, f, off, p);
      }
    }
  }

  /** The set-up forgets exactly the pieces that lack a byte. */
  lemma {:induction false} ForgetsWhatIsMissing(t: Torrent, c: Store, files: seq<File>, off: nat)
    requires Shape(t, c) && Fitting(files) && off + TotalLength(files) == t.total
    ensures Forgotten(t, c, ForgetMissing(t, c, files, off), (p: nat) => Lacks(t, files, off, p))
    decreases |files|
  {
    if files != [] {
      var d := ForgetOne(t, c, files[0], off);
      ForgetOneForgets(t, c, files[0], off);
      ForgetsWhatIsMissing(t, d, files[1..], off + files[0].length);
    }
  }

  /** libbt/btpd/content.c:490-493 and 510-511. */
  function NextReady(c: Store, k: nat): (n: nat)
    requires k <= |c.pos|
    ensures k <= n <= |c.pos|
    ensures n < |c.pos| ==> c.pos[n]
    ensures forall p :: k <= p < n ==> !c.pos[p]
    decreases |c.pos| - k
  {
    if k < |c.pos| && !c.pos[k] then NextReady(c, k + 1) else k
  }

  /** libbt/btpd/content.c:469-502, one turn for each piece; the read of piece failAt
      fails. */
  function TestFrom(t: Torrent, c: Store, k: nat, failAt: nat): (r: Outcome)
    requires Shape(t, c) && k <= t.npieces
    ensures Shape(t, r.store)
    decreases t.npieces - k
  {
    if k == t.npieces then Outcome(c, false)
    else if k == failAt then Outcome(Failed(c), true)
    else
      var d := c.(piece := c.piece[k := Good(t, c, k)]);
      TestFrom(t, d, NextReady(d, k + 1), failAt)
  }

  /** libbt/btpd/content.c:425-445. */
  function EndPiece(t: Torrent, c: Store, p: nat): (d: Store)
    requires Shape(t, c) && p < t.npieces
    ensures Shape(t, d)
  {
    if c.piece[p] then
      c.(bytes := c.bytes + t.PieceSize(p), got := c.got + 1, pos := c.pos[p := true])
    else
      var n := Count(c.block[p], Set);
      var d := c.(bytes := c.bytes + Marked(t, p, c.block[p], |c.block[p]|));
      if n == |c.block[p]| then
        d.(block := c.block[p := NoBlocks(|c.block[p]|)], bytes := d.bytes - t.PieceSize(p))
      else if 0 < n then d.(pos := c.pos[p := true])
      else d
  }

  function EndFrom(t: Torrent, c: Store, p: nat): (d: Store)
    requires Shape(t, c) && p <= t.npieces
    ensures Shape(t, d)
    decreases t.npieces - p
  {
    if p == t.npieces then c else EndFrom(t, EndPiece(t, c, p), p + 1)
  }

  /** libbt/btpd/content.c:416-467; opens says whether the write stream can be opened. */
  function StartupEnd(t: Torrent, c: Store, opens: bool): (d: Store)
    requires Shape(t, c)
    ensures Shape(t, d)
  {
    var d := EndFrom(t, c.(pos := NoBlocks(t.npieces)), 0);
    if d.got == t.npieces then d.(phase := Active)
    else if opens then d.(phase := Active, writing := true)
    else Failed(d)
  }

  lemma {:induction false} TestFromTests(t: Torrent, c: Store, k: nat, failAt: nat)
    requires Shape(t, c) && k <= t.npieces && (k < t.npieces ==> c.pos[k])
    ensures var r := TestFrom(t, c, k, failAt);
      && (!r.err ==> r.store == c.(piece := r.store.piece))
      && (!r.err ==> forall p: nat :: p < t.npieces ==>
            r.store.piece[p] == if k <= p && c.pos[p] then Good(t, c, p) else c.piece[p])
    decreases t.npieces - k
  {
    if k != t.npieces && k != failAt {
      var d := c.(piece := c.piece[k := Good(t, c, k)]);
      TestFromTests(t, d, NextReady(d, k + 1), failAt);
    }
  }

  lemma {:induction false} CountSnoc<T>(s: seq<T>, x: T, f: T -> bool)
    ensures Count(s + [x], f) == Count(s, f) + if f(x) then 1 else 0
  {
    if s != [] {
      assert (s + [x])[1..] == s[1..] + [x];
      CountSnoc(s[1..], x, f);
    }
  }

  predicate Any(bits: seq<bool>) { exists i :: 0 <= i < |bits| && bits[i] }

  /** What the start-up has done to the first k pieces. */
  ghost predicate Ended(t: Torrent, c: Store, d: Store, k: nat)
    requires Shape(t, c) && Shape(t, d) && k <= t.npieces
  {
    && d == c.(got := d.got, bytes := d.bytes, pos := d.pos, block := d.block)
    && d.got == c.got + Count(c.piece[..k], Set)
    && d.bytes == c.bytes + Owned(t, d, k)
    && (forall p: nat :: k <= p < t.npieces ==> !d.pos[p] && d.block[p] == c.block[p])
    && (forall p: nat :: p < k ==> d.pos[p] == (c.piece[p] || Any(d.block[p])))
    && (forall p: nat :: p < k ==>
          d.block[p] == if !c.piece[p] && All(c.block[p]) then NoBlocks(|c.block[p]|) else c.block[p])
  }

  lemma EndPieceWeighs(t: Torrent, c: Store, p: nat)
    requires Shape(t, c) && p < t.npieces && !c.pos[p]
    ensures var d := EndPiece(t, c, p);
      && d == c.(got := d.got, bytes := d.bytes, pos := d.pos, block := d.block)
      && d.got == c.got + (if c.piece[p] then 1 else 0)
      && d.bytes == c.bytes + Weight(t, d, p)
      && d.block == c.block[p := d.block[p]] && d.pos == c.pos[p := d.pos[p]]
      && d.pos[p] == (c.piece[p] || Any(d.block[p]))
      && d.block[p] == if !c.piece[p] && All(c.block[p]) then NoBlocks(|c.block[p]|) else c.block[p]
  {
    if !c.piece[p] {
      var bits := c.block[p];
      CountAll(bits, Set);
      CountPositive(bits, Set);
      if All(bits) {
        MarkedAll(t, p, bits, |bits|);
        t.BlocksMakePiece(p);
        MarkedNone(t, p, NoBlocks(|bits|), |bits|);
      } else if !Any(bits) {
        assert Count(bits, Set) == 0;
      }
    }
  }

  lemma EndStep(t: Torrent, c: Store, d: Store, k: nat)
    requires Shape(t, c) && Shape(t, d) && k < t.npieces && Ended(t, c, d, k)
    ensures Ended(t, c, EndPiece(t, d, k), k + 1)
  {
    EndPieceWeighs(t, d, k);
    var e := EndPiece(t, d, k);
    OwnedUpdate(t, d, e, k, k);
    assert c.piece[..k + 1] == c.piece[..k] + [c.piece[k]];
    CountSnoc(c.piece[..k], c.piece[k], Set);
  }

  lemma {:induction false} EndFromEnds(t: Torrent, c: Store, d: Store, k: nat)
    requires Shape(t, c) && Shape(t, d) && k <= t.npieces && Ended(t, c, d, k)
    ensures Ended(t, c, EndFrom(t, d, k), t.npieces)
    decreases t.npieces - k
  {
    if k != t.npieces {
      EndStep(t, c, d, k);
      EndFromEnds(t, c, EndPiece(t, d, k), k + 1);
    }
  }

  ghost predicate Fresh(c: Store) { c.got == 0 && c.bytes == 0 && !c.error && !c.writing && c.phase == Starting }

  /** Every piece that is not owned still misses a block. */
  ghost predicate Testable(t: Torrent, c: Store)
    requires Shape(t, c)
  {
    forall p: nat :: p < t.npieces && !c.piece[p] ==> !All(c.block[p])
  }

  /** The end of the start-up, from counters that are zero, puts the store in order. */
  lemma StartupEndOrders(t: Torrent, c: Store, opens: bool)
    requires Shape(t, c) && Fresh(c)
    ensures var d := StartupEnd(t, c, opens);
      && Inv(t, d) && Testable(t, d)
      && d.piece == c.piece && d.disk == c.disk
      && (d.phase == Active || d.error)
  {
    var b := c.(pos := NoBlocks(t.npieces));
    EndFromEnds(t, b, b, 0);
    var e := EndFrom(t, b, 0);
    var d := StartupEnd(t, c, opens);
    assert c.piece[..t.npieces] == c.piece;
    OwnedSame(t, e, d, t.npieces);
    forall p: nat | p < t.npieces && !d.piece[p]
      ensures !All(d.block[p])
    {
      t.BlocksMakePiece(p);
      if All(c.block[p]) {
        assert !d.block[p][0];
      }
    }
  }

  /** It leaves the blocks as they are but those of a piece that has them all and is not owned,
      and fails only if the write stream is needed and cannot be opened. */
  lemma StartupEndDecides(t: Torrent, c: Store, opens: bool)
    requires Shape(t, c) && Fresh(c)
    ensures var d := StartupEnd(t, c, opens);
      && (d.phase == Active <==> opens || All(c.piece))
      && forall p: nat :: p < t.npieces ==>
           d.block[p] == if !c.piece[p] && All(c.block[p]) then NoBlocks(|c.block[p]|) else c.block[p]
  {
    CountAll(c.piece, Set);
    assert All(c.piece) <==> forall i :: 0 <= i < |c.piece| ==> Set(c.piece[i]);
    var b := c.(pos := NoBlocks(t.npieces));
    EndFromEnds(t, b, b, 0);
    assert c.piece[..t.npieces] == c.piece;
  }

  function AllReady(n: nat): (s: seq<bool>)
    ensures |s| == n && forall i :: 0 <= i < n ==> s[i]
  {
    seq(n, _ => true)
  }

  /** libbt/btpd/content.c:563-580; retest says that a check was asked for or that a file
      is not as it was saved. */
  function SetUp(t: Torrent, c: Store, files: seq<File>, retest: bool): (d: Store)
    requires Shape(t, c) && Fitting(files) && TotalLength(files) == t.total
    ensures Shape(t, d)
  {
    if retest then ForgetMissing(t, c.(pos := AllReady(t.npieces)), files, 0) else c
  }

  lemma SetUpForgets(t: Torrent, c: Store, files: seq<File>, retest: bool)
    requires Shape(t, c) && Fitting(files) && TotalLength(files) == t.total
    ensures var d := SetUp(t, c, files, retest);
      && (Fresh(c) ==> Fresh(d)) && d.disk == c.disk
      && (retest ==> forall p: nat :: p < t.npieces ==>
            && (d.pos[p] <==> !Lacks(t, files, 0, p))
            && (!d.pos[p] ==> !d.piece[p])
            && d.block[p] == if d.pos[p] then c.block[p] else NoBlocks(|c.block[p]|))
  {
    if retest {
      ForgetsWhatIsMissing(t, c.(pos := AllReady(t.npieces)), files, 0);
    }
  }

  /** libbt/btpd/content.c:504-513 with the turns of startup_test_run that it sets off. */
  function TestAll(t: Torrent, c: Store, failAt: nat): (r: Outcome)
    requires Shape(t, c)
    ensures Shape(t, r.store)
  {
    TestFrom(t, c, NextReady(c, 0), failAt)
  }

  lemma TestAllTests(t: Torrent, c: Store, failAt: nat)
    requires Shape(t, c)
    ensures var r := TestAll(t, c, failAt);
      && (!r.err ==> (Fresh(c) ==> Fresh(r.store)) && r.store.disk == c.disk)
      && (!r.err ==> forall p: nat :: p < t.npieces ==>
            r.store.piece[p] == if c.pos[p] then Good(t, c, p) else c.piece[p])
      && (!r.err ==> r.store.block == c.block)
      && (r.err ==> r.store.error && r.store.phase == Inactive)
      && (r.err <==> failAt < t.npieces && c.pos[failAt])
  {
    TestFromTests(t, c, NextReady(c, 0), failAt);
    TestFromFails(t, c, NextReady(c, 0), failAt);
  }

  lemma {:induction false} TestFromFails(t: Torrent, c: Store, k: nat, failAt: nat)
    requires Shape(t, c) && k <= t.npieces && (k < t.npieces ==> c.pos[k])
    ensures var r := TestFrom(t, c, k, failAt); r.err ==> r.store.error && r.store.phase == Inactive
    ensures TestFrom(t, c, k, failAt).err <==> k <= failAt < t.npieces && c.pos[failAt]
    decreases t.npieces - k
  {
    if k != t.npieces && k != failAt {
      var d := c.(piece := c.piece[k := Good(t, c, k)]);
      TestFromFails(t, d, NextReady(d, k + 1), failAt);
    }
  }

  /** libbt/btpd/content.c:528-583 and all that it sets off; starts says that the read stream
      opens and the files can be looked at (lines 538-554). */
  function Startup(
      t: Torrent, c: Store, starts: bool, files: seq<File>, retest: bool, failAt: nat, opens: bool): (d: Store)
    requires Shape(t, c) && Fitting(files) && TotalLength(files) == t.total
    ensures Shape(t, d)
  {
    if !starts then Failed(c)
    else
      var r := TestAll(t, SetUp(t, c.(phase := Starting), files, retest), failAt);
      if r.err then r.store else StartupEnd(t, r.store, opens)
  }

  /** The pieces that a start reads: after a full set-up those that are wholly on disk, and
      else those whose place was saved as ready. */
  predicate ToTest(t: Torrent, c: Store, files: seq<File>, retest: bool, p: nat)
    requires Shape(t, c) && p < t.npieces
  {
    if retest then !Lacks(t, files, 0, p) else c.pos[p]
  }

  /** A start from a new store ends with an error or with everything in order, and fails exactly
      when a file or a piece cannot be read or the write stream that it needs not be opened.
      The owned pieces are those read that have the right digest, and of the others, which only
      a start without a full check leaves as saved, those saved as owned. */
  lemma StartupOrders(t: Torrent, c: Store, starts: bool, files: seq<File>, retest: bool, failAt: nat, opens: bool)
    requires Shape(t, c) && Fitting(files) && TotalLength(files) == t.total
    requires Fresh(c.(phase := Starting))
    ensures var d := Startup(t, c, starts, files, retest, failAt, opens);
      && (d.phase == Active || d.error)
      && (d.phase == Active ==> Inv(t, d) && Testable(t, d))
      && (d.phase == Active <==>
            && starts && !(failAt < t.npieces && ToTest(t, c, files, retest, failAt))
            && (opens || All(d.piece)))
      && (d.phase == Active ==> d.disk == c.disk && forall p: nat :: p < t.npieces ==>
            (d.piece[p] <==> if ToTest(t, c, files, retest, p) then Good(t, d, p) else !retest && c.piece[p]))
  {
    var a := c.(phase := Starting);
    var b := SetUp(t, a, files, retest);
    SetUpForgets(t, a, files, retest);
    var r := TestAll(t, b, failAt);
    TestAllTests(t, b, failAt);
    if starts && !r.err {
      StartupEndOrders(t, r.store, opens);
      StartupEndDecides(t, r.store, opens);
      GoodByDisk(t, b, StartupEnd(t, r.store, opens));
    }
  }

  lemma GoodByDisk(t: Torrent, c: Store, d: Store)
    requires Shape(t, c) && Shape(t, d) && c.disk == d.disk
    ensures forall p: nat :: p < t.npieces ==> (Good(t, c, p) <==> Good(t, d, p))
  {
  }

  // -------------------------------------------------------------------------- whole runs

  datatype Event =
    | PreallocPiece(p: nat)
    | PutBlockBytes(p: nat, b: nat, buf: seq<Byte>)
    | TestWholePiece(p: nat, readFails: bool, closeFails: bool)

  /** What the download code sees to before it calls: the block or piece is not held yet
      (asserted at lines 271 and 272), a block is put into a piece that is ready or can be
      made ready, and only a piece with all its blocks is tested. */
  ghost predicate Enabled(t: Torrent, c: Store, alloc: int, e: Event) {
    && Shape(t, c) && c.phase == Active
    && match e
       case PreallocPiece(p) => p < t.npieces
       case PutBlockBytes(p, b, buf) => CanPut(t, c, alloc, p, b, buf) && !c.piece[p] && !c.block[p][b]
       case TestWholePiece(p, _, _) => CanTest(t, c, p)
  }

  function Step(t: Torrent, c: Store, alloc: int, e: Event): Store
    requires Enabled(t, c, alloc, e)
  {
    match e
    case PreallocPiece(p) => Prealloc(c, alloc, p)
    case PutBlockBytes(p, b, buf) => PutBytes(t, c, alloc, p, b, buf).store
    case TestWholePiece(p, readFails, closeFails) => TestPiece(t, c, p, readFails, closeFails)
  }

  ghost predicate Runs(t: Torrent, c: Store, alloc: int, es: seq<Event>)
    decreases |es|
  {
    es == [] || (Enabled(t, c, alloc, es[0]) && Runs(t, Step(t, c, alloc, es[0]), alloc, es[1..]))
  }

  function Run(t: Torrent, c: Store, alloc: int, es: seq<Event>): Store
    requires Runs(t, c, alloc, es)
    decreases |es|
  {
    if es == [] then c else Run(t, Step(t, c, alloc, es[0]), alloc, es[1..])
  }

  lemma StepKeepsInv(t: Torrent, c: Store, alloc: int, e: Event)
    requires Inv(t, c) && Enabled(t, c, alloc, e)
    ensures Inv(t, Step(t, c, alloc, e))
  {
    match e
    case PreallocPiece(p) => OwnedSame(t, c, Prealloc(c, alloc, p), t.npieces);
    case PutBlockBytes(p, b, buf) => PutKeepsInv(t, c, alloc, p, b, buf);
    case TestWholePiece(p, readFails, closeFails) => TestKeepsInv(t, c, p, readFails, closeFails);
  }

  lemma {:induction false} RunKeepsInv(t: Torrent, c: Store, alloc: int, es: seq<Event>)
    requires Inv(t, c) && Runs(t, c, alloc, es)
    ensures Inv(t, Run(t, c, alloc, es))
    decreases |es|
  {
    if es != [] {
      StepKeepsInv(t, c, alloc, es[0]);
      RunKeepsInv(t, Step(t, c, alloc, es[0]), alloc, es[1..]);
    }
  }

  type Gifts = map<(nat, nat), seq<Byte>>

  /** The bytes last given for each block, by the puts that answered success. */
  function Given(t: Torrent, c: Store, alloc: int, es: seq<Event>, g: Gifts): Gifts
    requires Runs(t, c, alloc, es)
    decreases |es|
  {
    if es == [] then g
    else
      var e := es[0];
      var h := if e.PutBlockBytes? && !PutBytes(t, c, alloc, e.p, e.b, e.buf).err then g[(e.p, e.b) := e.buf] else g;
      Given(t, Step(t, c, alloc, e), alloc, es[1..], h)
  }

  /** Every block marked received holds the bytes that were given for it. */
  ghost predicate Faithful(t: Torrent, c: Store, g: Gifts)
    requires Shape(t, c)
  {
    forall p: nat, b: nat :: p < t.npieces && b < t.Blocks(p) && Received(c, p, b) ==>
      (p, b) in g && g[(p, b)] == BlockBytes(t, c, p, b)
  }

  lemma PutKeepsFaith(t: Torrent, c: Store, alloc: int, p: nat, b: nat, buf: seq<Byte>, g: Gifts)
    requires CanPut(t, c, alloc, p, b, buf) && Covered(t, c) && Faithful(t, c, g)
    requires !c.piece[p] && !c.block[p][b]
    ensures var r := PutBytes(t, c, alloc, p, b, buf);
      Faithful(t, r.store, if r.err then g else g[(p, b) := buf])
  {
    var r := PutBytes(t, c, alloc, p, b, buf);
    var h := if r.err then g else g[(p, b) := buf];
    PutStores(t, c, alloc, p, b, buf);
    forall q: nat, i: nat | q < t.npieces && i < t.Blocks(q) && Received(r.store, q, i)
      ensures (q, i) in h && h[(q, i)] == BlockBytes(t, r.store, q, i)
    {
      if Received(c, q, i) {
        PutKeepsBlocks(t, c, alloc, p, b, buf, q, i);
      }
    }
  }

  /** Lazy zero-filling never destroys data: after any run, with any I/O failure, the store
      holds for every received block the bytes last given for it. */
  lemma {:induction false} RunKeepsFaith(t: Torrent, c: Store, alloc: int, es: seq<Event>, g: Gifts)
    requires Inv(t, c) && Runs(t, c, alloc, es) && Faithful(t, c, g)
    ensures var d := Run(t, c, alloc, es);
      Shape(t, d) && Faithful(t, d, Given(t, c, alloc, es, g))
    decreases |es|
  {
    if es != [] {
      var e := es[0];
      StepKeepsInv(t, c, alloc, e);
      var d := Step(t, c, alloc, e);
      if e.PutBlockBytes? {
        PutKeepsFaith(t, c, alloc, e.p, e.b, e.buf, g);
        var r := PutBytes(t, c, alloc, e.p, e.b, e.buf);
        RunKeepsFaith(t, d, alloc, es[1..], if r.err then g else g[(e.p, e.b) := e.buf]);
      } else {
        OthersKeepFaith(t, c, alloc, e, g);
        RunKeepsFaith(t, d, alloc, es[1..], g);
      }
    }
  }

  /** The bytes that were given for piece p are those of `data`. */
  ghost predicate GivenAs(t: Torrent, g: Gifts, p: nat, data: seq<Byte>)
    requires t.Valid() && p < t.npieces
  {
    && |data| == t.PieceSize(p)
    && forall b: nat :: b < t.Blocks(p) ==> (t.BlockRange(p, b);
         (p, b) in g && g[(p, b)] == data[PIECE_BLOCKLEN * b..PIECE_BLOCKLEN * b + t.BlockSize(p, b)])
  }

  lemma BlocksMakeBytes(t: Torrent, c: Store, g: Gifts, p: nat, data: seq<Byte>, i: nat)
    requires CanTest(t, c, p) && Faithful(t, c, g) && GivenAs(t, g, p, data) && i < t.PieceSize(p)
    ensures i < |PieceBytes(t, c, p)| && PieceBytes(t, c, p)[i] == data[i]
  {
    t.PieceRange(p);
    var b, k := i / PIECE_BLOCKLEN, i % PIECE_BLOCKLEN;
    t.BlockRange(p, b);
    assert Received(c, p, b);
    BlockOfPiece(t, c, p, b);
    assert g[(p, b)][k] == data[i];
    assert BlockBytes(t, c, p, b)[k] == PieceBytes(t, c, p)[i];
  }

  /** Over every run of puts and tests: a piece all of whose blocks were last given as the
      torrent file promises is accepted by its test, unless the piece cannot be read. */
  lemma GoodDownloadIsAccepted(
      t: Torrent, c: Store, alloc: int, es: seq<Event>, g: Gifts, p: nat, data: seq<Byte>, closeFails: bool)
    requires Inv(t, c) && Runs(t, c, alloc, es) && Faithful(t, c, g) && p < t.npieces
    requires Enabled(t, Run(t, c, alloc, es), alloc, TestWholePiece(p, false, closeFails))
    requires GivenAs(t, Given(t, c, alloc, es, g), p, data)
    ensures TestPiece(t, Run(t, c, alloc, es), p, false, closeFails).piece[p] <==> t.sha(data) == t.hashes[p]
  {
    RunKeepsFaith(t, c, alloc, es, g);
    RunKeepsInv(t, c, alloc, es);
    var d, h := Run(t, c, alloc, es), Given(t, c, alloc, es, g);
    TestDecides(t, d, p, false, closeFails);
    forall i: nat | i < t.PieceSize(p)
      ensures i < |PieceBytes(t, d, p)| && PieceBytes(t, d, p)[i] == data[i]
    {
      BlocksMakeBytes(t, d, h, p, data, i);
    }
    t.PieceRange(p);
    assert PieceBytes(t, d, p) == data;
  }

  lemma OthersKeepFaith(t: Torrent, c: Store, alloc: int, e: Event, g: Gifts)
    requires Enabled(t, c, alloc, e) && !e.PutBlockBytes? && Faithful(t, c, g)
    ensures var d := Step(t, c, alloc, e); Shape(t, d) && Faithful(t, d, g)
  {
    var d := Step(t, c, alloc, e);
    forall q: nat, i: nat | q < t.npieces && i < t.Blocks(q) && Received(d, q, i)
      ensures Received(c, q, i) && BlockBytes(t, d, q, i) == BlockBytes(t, c, q, i)
    {
    }
  }

  /** Every owned piece has the digest that the torrent file promises. */
  ghost predicate Sound(t: Torrent, c: Store)
    requires Shape(t, c)
  {
    forall p: nat :: p < t.npieces && c.piece[p] ==> Good(t, c, p)
  }

  lemma PutBlockKeepsPiece(t: Torrent, c: Store, p: nat, b: nat, buf: seq<Byte>, q: nat)
    requires Shape(t, c) && p < t.npieces && b < t.Blocks(p) && |buf| == t.BlockSize(p, b)
    requires q < t.npieces && p != q
    ensures PieceBytes(t, PutBlock(t, c, p, b, buf).store, q) == PieceBytes(t, c, q)
  {
    t.PieceRange(p);
    t.PieceRange(q);
    t.BlockRange(p, b);
    PiecesApart(t, p, q);
    PutKeepsRange(c.disk, t.BlockStart(p, b), buf, t.PieceStart(q), t.PieceSize(q));
  }

  lemma PutKeepsSound(t: Torrent, c: Store, alloc: int, p: nat, b: nat, buf: seq<Byte>)
    requires CanPut(t, c, alloc, p, b, buf) && Covered(t, c) && Sound(t, c) && !c.piece[p]
    ensures Sound(t, PutBytes(t, c, alloc, p, b, buf).store)
  {
    if !c.error {
      var r := MakeReady(t, c, alloc, p);
      MakeReadyReadies(t, c, alloc, p);
      var d := PutBytes(t, c, alloc, p, b, buf).store;
      forall q: nat | q < t.npieces && d.piece[q]
        ensures Good(t, d, q)
      {
        assert Good(t, c, q) && PieceBytes(t, r.store, q) == PieceBytes(t, c, q);
        if !r.err {
          PutBlockKeepsPiece(t, r.store, p, b, buf, q);
        }
      }
    }
  }

  /** Owned pieces stay good: no run overwrites or zero-fills one. */
  lemma {:induction false} RunKeepsSound(t: Torrent, c: Store, alloc: int, es: seq<Event>)
    requires Inv(t, c) && Sound(t, c) && Runs(t, c, alloc, es)
    ensures var d := Run(t, c, alloc, es); Shape(t, d) && Sound(t, d)
    decreases |es|
  {
    if es != [] {
      var e := es[0];
      var d := Step(t, c, alloc, e);
      StepKeepsInv(t, c, alloc, e);
      if e.PutBlockBytes? {
        PutKeepsSound(t, c, alloc, e.p, e.b, e.buf);
      } else {
        GoodByDisk(t, c, d);
      }
      RunKeepsSound(t, d, alloc, es[1..]);
    }
  }

  // ------------------------------------------------------------------- the code in place

  /** The content manager, whose fields the functions above describe. */
  class Manager {
    const t: Torrent
    const alloc: int
    var phase: Phase
    var error: bool
    var got: int
    var bytes: int
    var writing: bool
    var piece: seq<bool>
    var block: seq<seq<bool>>
    var pos: seq<bool>
    var disk: Disk

    function Abs(): Store
      reads this
    {
      Store(phase, error, got, bytes, writing, piece, block, pos, disk)
    }

    /** libbt/btpd/content.c:191-204: no counter, no bit, as btpd_calloc leaves them; the
        piece and block bits come from the resume data. */
    constructor (t: Torrent, alloc: int, piece: seq<bool>, block: seq<seq<bool>>, disk: Disk)
      ensures this.t == t && this.alloc == alloc
      ensures Abs() == Store(Inactive, false, 0, 0, false, piece, block, NoBlocks(t.npieces), disk)
    {
      this.t, this.alloc := t, alloc;
      phase, error, got, bytes, writing := Inactive, false, 0, 0, false;
      this.piece, this.block, this.disk := piece, block, disk;
      pos := NoBlocks(t.npieces);
    }

    method Fail()
      modifies this
      ensures Abs() == Failed(old(Abs()))
    {
      phase, error, writing := Inactive, true, false;
    }

    method BtsPut(off: nat, data: seq<Byte>) returns (err: bool)
      requires off + |data| <= |disk.bytes|
      modifies this`disk
      ensures var w := Put(old(disk), off, data); disk == w.disk && err == w.err
    {
      var w := Put(disk, off, data);
      disk, err := w.disk, w.err;
    }

    /** The loop of lines 284 to 295. */
    method ZeroRange(start: nat, len: nat) returns (err: bool)
      requires start + len <= |disk.bytes|
      modifies this`disk
      ensures var w := ZeroFill(old(disk), start, len); disk == w.disk && err == w.err
    {
      var tmplen: nat, off: nat := len, start;
      while 0 < tmplen
        invariant off + tmplen <= |disk.bytes|
        invariant ZeroFill(disk, off, tmplen) == ZeroFill(old(disk), start, len)
      {
        var wlen := if ZEROBUFLEN < tmplen then ZEROBUFLEN else tmplen;
        err := BtsPut(off, Zeros(wlen));
        if err {
          return;
        }
        tmplen := tmplen - wlen;
        off := off + wlen;
      }
      err := false;
    }

    /** The loop of lines 279 to 299. */
    method ReadyWindow(first: nat, end: nat) returns (err: bool)
      requires Shape(t, Abs()) && Covered(t, Abs()) && first <= end <= t.npieces
      modifies this
      ensures Abs() == FillPieces(t, old(Abs()), first, end).store
      ensures err == FillPieces(t, old(Abs()), first, end).err
    {
      var start := first;
      while start < end
        invariant start <= end
        invariant Shape(t, Abs()) && Covered(t, Abs())
        invariant FillPieces(t, Abs(), start, end) == FillPieces(t, old(Abs()), first, end)
      {
        if !pos[start] {
          assert !piece[start];
          t.PieceRange(start);
          err := ZeroRange(t.PieceStart(start), t.PieceSize(start));
          if err {
            Fail();
            return;
          }
          pos := pos[start := true];
        }
        start := start + 1;
      }
      err := false;
    }

    /** libbt/btpd/content.c:274-300. */
    method Ready(p: nat) returns (err: bool)
      requires Shape(t, Abs()) && Covered(t, Abs()) && p < t.npieces && (pos[p] || 1 <= alloc)
      modifies this
      ensures Abs() == MakeReady(t, old(Abs()), alloc, p).store
      ensures err == MakeReady(t, old(Abs()), alloc, p).err
    {
      err := false;
      if !pos[p] {
        err := ReadyWindow(WindowStart(t, alloc, p), WindowEnd(t, alloc, p));
      }
    }

    /** libbt/btpd/content.c:257-313. */
    method CmPutBytes(p: nat, b: nat, buf: seq<Byte>) returns (err: bool)
      requires CanPut(t, Abs(), alloc, p, b, buf) && Covered(t, Abs())
      requires !piece[p] && !block[p][b]
      modifies this
      ensures Abs() == PutBytes(t, old(Abs()), alloc, p, b, buf).store
      ensures err == PutBytes(t, old(Abs()), alloc, p, b, buf).err
    {
      if error {
        return true;
      }
      err := Ready(p);
      if err {
        return;
      }
      t.PieceRange(p);
      t.BlockRange(p, b);
      err := BtsPut(t.BlockStart(p, b), buf);
      if err {
        Fail();
        return;
      }
      bytes := bytes + |buf|;
      block := block[p := block[p][b := true]];
    }

    /** libbt/btpd/content.c:234-255. */
    method CmTestPiece(p: nat, readFails: bool, closeFails: bool)
      requires Inv(t, Abs()) && CanTest(t, Abs(), p)
      modifies this
      ensures Abs() == TestPiece(t, old(Abs()), p, readFails, closeFails)
    {
      if readFails {
        Fail();
      } else if Good(t, Abs(), p) {
        NotFull(t, Abs(), p);
        assert got < t.npieces;
        got := got + 1;
        piece := piece[p := true];
        if got == t.npieces {
          writing := false;
          if closeFails {
            Fail();
          }
        }
      } else {
        bytes := bytes - t.PieceSize(p);
        block := block[p := NoBlocks(|block[p]|)];
      }
    }

    /** The loop of lines 434 to 440. */
    method CountBlocks(p: nat) returns (n: nat)
      requires Shape(t, Abs()) && p < t.npieces
      modifies this`bytes
      ensures n == Count(block[p], Set)
      ensures bytes == old(bytes) + Marked(t, p, block[p], |block[p]|)
    {
      var bf, nblocks, i := block[p], t.Blocks(p), 0;
      n := 0;
      while i < nblocks
        invariant 0 <= i <= nblocks == |bf|
        invariant n == Count(bf[..i], Set)
        invariant bytes == old(bytes) + Marked(t, p, bf, i)
      {
        assert bf[..i + 1] == bf[..i] + [bf[i]];
        CountSnoc(bf[..i], bf[i], Set);
        if bf[i] {
          n := n + 1;
          bytes := bytes + t.BlockSize(p, i);
        }
        i := i + 1;
      }
      assert bf[..nblocks] == bf;
    }

    /** libbt/btpd/content.c:425-445, one piece. */
    method CloseOne(p: nat)
      requires Shape(t, Abs()) && p < t.npieces
      modifies this
      ensures Abs() == EndPiece(t, old(Abs()), p)
    {
      if piece[p] {
        bytes := bytes + t.PieceSize(p);
        got := got + 1;
        pos := pos[p := true];
        return;
      }
      var nblocks := t.Blocks(p);
      var n := CountBlocks(p);
      if n == nblocks {
        block := block[p := NoBlocks(|block[p]|)];
        bytes := bytes - t.PieceSize(p);
      } else if 0 < n {
        pos := pos[p := true];
      }
    }

    /** libbt/btpd/content.c:416-467. */
    method StartupTestEnd(opens: bool)
      requires Shape(t, Abs())
      modifies this
      ensures Abs() == StartupEnd(t, old(Abs()), opens)
    {
      pos := NoBlocks(t.npieces);
      ghost var d := EndFrom(t, Abs(), 0);
      var p := 0;
      while p < t.npieces
        invariant p <= t.npieces && Shape(t, Abs())
        invariant d == EndFrom(t, Abs(), p)
      {
        CloseOne(p);
        p := p + 1;
      }
      if got != t.npieces {
        if !opens {
          Fail();
          return;
        }
        writing := true;
      }
      phase := Active;
    }

    /** libbt/btpd/content.c:563-580. */
    method ClearFields(files: seq<File>, retest: bool)
      requires Shape(t, Abs()) && Fitting(files) && TotalLength(files) == t.total
      modifies this
      ensures Abs() == SetUp(t, old(Abs()), files, retest)
    {
      if retest {
        pos := AllReady(t.npieces);
        ghost var d := ForgetMissing(t, Abs(), files, 0);
        var i: nat, off: nat := 0, 0;
        assert files[0..] == files;
        while i < |files|
          invariant i <= |files| && Shape(t, Abs())
          invariant off + TotalLength(files[i..]) == t.total
          invariant d == ForgetMissing(t, Abs(), files[i..], off)
        {
          assert files[i..][0] == files[i] && files[i..][1..] == files[i + 1..];
          ClearMissing(files[i], off);
          off := off + files[i].length;
          i := i + 1;
        }
      }
    }

    /** libbt/btpd/content.c:566-577. */
    method ClearMissing(f: File, off: nat)
      requires Shape(t, Abs()) && f.size <= f.length && off + f.length <= t.total
      modifies this
      ensures Abs() == ForgetOne(t, old(Abs()), f, off)
    {
      if f.size != f.length {
        LastPiece(t, off + f.length - 1);
        ClearPieces((off + f.size) / t.plen, (off + f.length - 1) / t.plen);
      }
    }

    /** The loop of lines 571 to 576. */
    method ClearPieces(first: nat, end: nat)
      requires end < |pos| == |piece| == |block|
      modifies this
      ensures Abs() == Forget(old(Abs()), first, end + 1)
    {
      var start := first;
      while start <= end
        invariant |pos| == |piece| == |block| == old(|pos|)
        invariant Forget(Abs(), start, end + 1) == Forget(old(Abs()), first, end + 1)
      {
        pos := pos[start := false];
        piece := piece[start := false];
        block := block[start := NoBlocks(|block[start]|)];
        start := start + 1;
      }
    }

    /** libbt/btpd/content.c:490-493 and 510-511. */
    method Next(k: nat) returns (n: nat)
      requires k <= |pos|
      ensures n == NextReady(Abs(), k)
    {
      n := k;
      while n < |pos| && !pos[n]
        invariant n <= |pos| && NextReady(Abs(), n) == NextReady(Abs(), k)
      {
        n := n + 1;
      }
    }

    /** libbt/btpd/content.c:504-513 and the turns of lines 469-502, as the timer makes them. */
    method StartupTests(failAt: nat) returns (err: bool)
      requires Shape(t, Abs())
      modifies this
      ensures Abs() == TestAll(t, old(Abs()), failAt).store
      ensures err == TestAll(t, old(Abs()), failAt).err
    {
      var k := Next(0);
      ghost var r := TestFrom(t, Abs(), k, failAt);
      while k < t.npieces
        invariant k <= t.npieces && Shape(t, Abs())
        invariant r == TestFrom(t, Abs(), k, failAt)
      {
        if k == failAt {
          Fail();
          return true;
        }
        piece := piece[k := Good(t, Abs(), k)];
        k := Next(k + 1);
      }
      err := false;
    }

    /** libbt/btpd/content.c:528-583 and all that it sets off. */
    method CmStart(starts: bool, files: seq<File>, retest: bool, failAt: nat, opens: bool)
      requires Shape(t, Abs()) && Fitting(files) && TotalLength(files) == t.total
      modifies this
      ensures Abs() == Startup(t, old(Abs()), starts, files, retest, failAt, opens)
    {
      phase := Starting;
      if !starts {
        Fail();
        return;
      }
      ClearFields(files, retest);
      var err := StartupTests(failAt);
      if !err {
        StartupTestEnd(opens);
      }
    }
  }
}
