module PageCache {
  /* The page cache in front of a file of fixed-size pages: buckets on a list in
     order of last use and on one of 128 hash chains, with pinned and dirty flags.

     A bucket is known by its page number and the circular lists are sequences of
     page numbers.  What the file and the memory allocator answer is a parameter of
     each operation; a write that fails may leave anything in the page it was
     writing.  There are no page filters. */

  datatype Option<+T> = None | Some(value: T)

  type Page = seq<bv8>

  const HASHSIZE := 128
  const MAX_PAGE_NUMBER := 0xffff_ffff

  /** (pgno - 1) % HASHSIZE on unsigned 32-bit page numbers. */
  function HashKey(pgno: nat): (k: nat)
    ensures k < HASHSIZE
  {
    (pgno + 0xffff_ffff) % 0x1_0000_0000 % HASHSIZE
  }

  /** The chains share the pages out evenly: two pages are on one if and only if their numbers
      differ by a multiple of their count, page 0 included. */
  lemma HashKeysSpread(p: nat, q: nat)
    requires p < 0x1_0000_0000 && q < 0x1_0000_0000
    ensures HashKey(p) == HashKey(q) <==> p % HASHSIZE == q % HASHSIZE
    ensures 0 < p ==> HashKey(p) == (p - 1) % HASHSIZE
  {
    HashKeyIs(p);
    HashKeyIs(q);
  }

  lemma HashKeyIs(p: nat)
    requires p < 0x1_0000_0000
    ensures HashKey(p) == if p % HASHSIZE == 0 then HASHSIZE - 1 else p % HASHSIZE - 1
    ensures 0 < p ==> HashKey(p) == (p - 1) % HASHSIZE
  {
    if 0 < p {
      assert (p + 0xffff_ffff) % 0x1_0000_0000 == p - 1;
      OneLess(p);
    }
  }

  lemma OneLess(p: nat)
    requires 0 < p
    ensures (p - 1) % HASHSIZE == if p % HASHSIZE == 0 then HASHSIZE - 1 else p % HASHSIZE - 1
  {
  }

  datatype Bucket = Bucket(
    page: Page,
    dirty: bool,
    pinned: bool,
    // history
    touched: bool,   // the holder has changed the page since it was pinned
    lastGot: nat)    // when the page was last obtained

  datatype Cache = Cache(
    lru: seq<nat>,           // least recently obtained first
    hqh: seq<seq<nat>>,      // hash chains
    bkts: map<nat, Bucket>,  // the buckets on those lists
    curcache: nat,
    maxcache: nat,
    npages: nat,
    file: seq<Page>,
    // history
    lost: nat,               // buffers off every list: taken for a page whose read then failed
    peak: nat,               // most pages ever pinned at once
    clock: nat)

  datatype WriteOutcome = WriteOk | WriteFailed(junk: Option<Page>)

  // ------------------------------------------------------------ the operations

  /** The file after a whole page has been written. A gap before it is filled with zeros by
      the system and with empty pages here; every page of a gap is still cached, so none is
      read before it is written. */
  function Written(file: seq<Page>, pgno: nat, page: Page): (f: seq<Page>)
    ensures |f| >= |file| && pgno < |f| && f[pgno] == page
    ensures forall q :: 0 <= q < |file| && q != pgno ==> f[q] == file[q]
  {
    if pgno < |file| then file[pgno := page]
    else file + seq(pgno - |file|, _ => []) + [page]
  }

  /** Unlinking a page from a list. */
  function Without(s: seq<nat>, x: nat): seq<nat> {
    if s == [] then [] else if s[0] == x then s[1..] else [s[0]] + Without(s[1..], x)
  }

  /** mpool_write */
  function Write(c: Cache, p: nat, w: WriteOutcome): Cache
    requires p in c.bkts
  {
    match w
    case WriteOk => c.(file := Written(c.file, p, c.bkts[p].page), bkts := c.bkts[p := c.bkts[p].(dirty := false)])
    case WriteFailed(Some(junk)) => c.(file := Written(c.file, p, junk))
    case WriteFailed(None) => c
  }

  /** The walk of mpool_bkt along the list. */
  function FirstUnpinned(lru: seq<nat>, bkts: map<nat, Bucket>): (k: nat)
    ensures k <= |lru|
    ensures forall j :: 0 <= j < k ==> lru[j] in bkts && bkts[lru[j]].pinned
    ensures k < |lru| ==> lru[k] in bkts ==> !bkts[lru[k]].pinned
  {
    if lru == [] then 0
    else if lru[0] in bkts && bkts[lru[0]].pinned then 1 + FirstUnpinned(lru[1..], bkts)
    else 0
  }

  /** Take page `p` off both its lists; its buffer is now on none. */
  function Unlink(c: Cache, p: nat): Cache
    requires |c.hqh| == HASHSIZE
  {
    c.(lru := Without(c.lru, p),
       hqh := c.hqh[HashKey(p) := Without(c.hqh[HashKey(p)], p)],
       bkts := c.bkts - {p}, lost := c.lost + 1)
  }

  /** What mpool_bkt finds. */
  datatype Taken = NoBucket | Evicted(pgno: nat) | Grown

  /** mpool_bkt */
  function TakeBucket(c: Cache, w: WriteOutcome, memory: bool): (Cache, Taken)
    requires |c.hqh| == HASHSIZE && forall p :: p in c.lru ==> p in c.bkts
  {
    var k := FirstUnpinned(c.lru, c.bkts);
    if c.curcache >= c.maxcache && k < |c.lru| then
      var p := c.lru[k];
      if c.bkts[p].dirty then
        if w.WriteOk? then (Unlink(Write(c, p, w), p), Evicted(p)) else (Write(c, p, w), NoBucket)
      else (Unlink(c, p), Evicted(p))
    else if memory then (c.(curcache := c.curcache + 1, lost := c.lost + 1), Grown)
    else (c, NoBucket)
  }

  function Max(a: nat, b: nat): nat { if a < b then b else a }

  function Pins(bkts: map<nat, Bucket>): set<nat> {
    set p | p in bkts && bkts[p].pinned
  }

  /** Put a buffer that holds `page` on the lists as page `p`, pinned. */
  function Attach(c: Cache, p: nat, page: Page, isNew: bool): Cache
    requires |c.hqh| == HASHSIZE
  {
    var bkts := c.bkts[p := Bucket(page, false, true, isNew, c.clock)];
    c.(lru := c.lru + [p], hqh := c.hqh[HashKey(p) := [p] + c.hqh[HashKey(p)]], bkts := bkts,
       lost := if c.lost > 0 then c.lost - 1 else 0, clock := c.clock + 1, peak := Max(c.peak, |Pins(bkts)|))
  }

  /** A hit: to the head of the hash chain and the tail of the list, pinned. */
  function Hit(c: Cache, p: nat): Cache
    requires |c.hqh| == HASHSIZE && p in c.bkts
  {
    var bkts := c.bkts[p := c.bkts[p].(pinned := true, lastGot := c.clock)];
    c.(lru := Without(c.lru, p) + [p], hqh := c.hqh[HashKey(p) := [p] + Without(c.hqh[HashKey(p)], p)],
       bkts := bkts, clock := c.clock + 1, peak := Max(c.peak, |Pins(bkts)|))
  }

  predicate WellFormed(c: Cache) {
    && |c.hqh| == HASHSIZE
    && (forall p :: p in c.lru ==> p in c.bkts)
  }

  /** mpool_get; `readOk` is the answer of the seek and the read. */
  function Get(c: Cache, p: nat, w: WriteOutcome, memory: bool, readOk: bool): (Cache, Option<Page>)
    requires WellFormed(c)
  {
    if p >= c.npages then (c, None)
    else if p in c.bkts then (Hit(c, p), Some(c.bkts[p].page))
    else
      var (c1, taken) := TakeBucket(c, w, memory);
      if taken.NoBucket? then (c1, None)
      else if readOk && p < |c1.file| then (Attach(c1, p, c1.file[p], false), Some(c1.file[p]))
      else (c1, None)
  }

  /** mpool_new; `garbage` is whatever the buffer holds.  The source aborts the
      process when the page numbers are used up; here that is no page. */
  function New(c: Cache, w: WriteOutcome, memory: bool, garbage: Page): (Cache, Option<nat>)
    requires WellFormed(c)
  {
    if c.npages == MAX_PAGE_NUMBER then (c, None)
    else
      var (c1, taken) := TakeBucket(c, w, memory);
      if taken.NoBucket? then (c1, None)
      else (Attach(c1.(npages := c1.npages + 1), c1.npages, garbage, true), Some(c1.npages))
  }

  /** mpool_put */
  function Put(c: Cache, p: nat, dirty: bool): Cache
    requires p in c.bkts
  {
    var b := c.bkts[p];
    c.(bkts := c.bkts[p := b.(pinned := false, dirty := b.dirty || dirty, touched := false)])
  }

  /** The holder of a pinned page writes to it. */
  function Change(c: Cache, p: nat, page: Page): Cache
    requires p in c.bkts
  {
    c.(bkts := c.bkts[p := c.bkts[p].(page := page, touched := true)])
  }

  /** mpool_sync from position `i` of the list on: stops at the first write that fails. */
  function SyncFrom(c: Cache, i: nat, ws: seq<WriteOutcome>): (Cache, bool)
    requires i <= |c.lru| && |ws| == |c.lru| && forall p :: p in c.lru ==> p in c.bkts
    decreases |c.lru| - i
  {
    if i == |c.lru| then (c, true)
    else
      var p := c.lru[i];
      if !c.bkts[p].dirty then SyncFrom(c, i + 1, ws)
      else if ws[i].WriteOk? then SyncFrom(Write(c, p, ws[i]), i + 1, ws)
      else (Write(c, p, ws[i]), false)
  }

  function Open(pages: seq<Page>, maxcache: nat): Cache {
    Cache([], seq(HASHSIZE, _ => []), map[], 0, maxcache, |pages|, pages, 0, 0, 0)
  }

  // ----------------------------------------------------------------- invariant

  ghost predicate Distinct(s: seq<nat>) {
    forall i, j :: 0 <= i < j < |s| ==> s[i] != s[j]
  }

  /** When page `p` was last obtained. */
  function Time(bkts: map<nat, Bucket>, p: nat): nat {
    if p in bkts then bkts[p].lastGot else 0
  }

  ghost predicate Ordered(s: seq<nat>, bkts: map<nat, Bucket>) {
    forall i, j :: 0 <= i < j < |s| ==> Time(bkts, s[i]) < Time(bkts, s[j])
  }

  ghost predicate ListOk(c: Cache) {
    && (forall p :: p in c.lru <==> p in c.bkts)
    && Distinct(c.lru)
    && (forall p :: p in c.bkts ==> p < c.npages && c.bkts[p].lastGot < c.clock)
    && Ordered(c.lru, c.bkts)
  }

  /** Every cached page is on exactly one chain, once, and that is the chain of its key. */
  ghost predicate ChainsOk(hqh: seq<seq<nat>>, keys: set<nat>) {
    && |hqh| == HASHSIZE
    && (forall k, p :: 0 <= k < HASHSIZE ==> (p in hqh[k] <==> p in keys && HashKey(p) == k))
    && (forall k :: 0 <= k < HASHSIZE ==> Distinct(hqh[k]))
  }

  /** A bucket that is neither dirty nor being changed by its holder agrees with the file. */
  predicate Settled(c: Cache, p: nat)
    requires p in c.bkts
  {
    c.bkts[p].dirty || c.bkts[p].touched || (p < |c.file| && c.file[p] == c.bkts[p].page)
  }

  ghost predicate Coherent(c: Cache) {
    && (forall p :: 0 <= p < c.npages && p !in c.bkts ==> p < |c.file|)
    && (forall p :: p in c.bkts ==> Settled(c, p) && (c.bkts[p].touched ==> c.bkts[p].pinned))
  }

  ghost predicate CountsOk(c: Cache) {
    && c.curcache == |c.lru| + c.lost
    && |Pins(c.bkts)| <= c.peak
    && c.curcache <= Max(c.maxcache, c.peak + c.lost)
  }

  ghost predicate Inv(c: Cache) {
    ListOk(c) && ChainsOk(c.hqh, c.bkts.Keys) && Coherent(c) && CountsOk(c)
  }

  /** The pages as a plain array would hold them. */
  ghost function Views(c: Cache): (v: seq<Page>)
    requires Coherent(c)
    ensures |v| == c.npages
  {
    seq(c.npages, p requires 0 <= p < c.npages => if p in c.bkts then c.bkts[p].page else c.file[p])
  }

  /** What the cache stands for, when it is in order. */
  ghost function Meaning(c: Cache): (m: Option<seq<Page>>)
    ensures m.Some? <==> Inv(c)
    ensures m.Some? ==> m.value == Views(c)
  {
    if Inv(c) then Some(Views(c)) else None
  }

  // ------------------------------------------------------- lists without a page

  lemma {:induction false} WithoutAt(s: seq<nat>, k: nat)
    requires k < |s| && Distinct(s)
    ensures Without(s, s[k]) == s[..k] + s[k + 1..]
    decreases k
  {
    if k > 0 {
      WithoutAt(s[1..], k - 1);
      assert s[..k] == [s[0]] + s[1..][..k - 1];
      assert s[k + 1..] == s[1..][k..];
    }
  }

  lemma WithoutMembers(s: seq<nat>, x: nat)
    requires Distinct(s) && x in s
    ensures var r := Without(s, x);
            && Distinct(r) && |r| == |s| - 1
            && (forall y :: y in r <==> y in s && y != x)
  {
    var k :| 0 <= k < |s| && s[k] == x;
    WithoutAt(s, k);
    var r := s[..k] + s[k + 1..];
    forall y | y in s && y != x ensures y in r {
      var i :| 0 <= i < |s| && s[i] == y;
      assert r[if i < k then i else i - 1] == y;
    }
  }

  lemma {:induction false} WithoutSubset(s: seq<nat>, x: nat, y: nat)
    requires y in Without(s, x)
    ensures y in s
  {
    if s != [] && s[0] != x && y != s[0] {
      WithoutSubset(s[1..], x, y);
    }
  }

  lemma OrderedCons(p: nat, s: seq<nat>, bkts: map<nat, Bucket>)
    requires Ordered(s, bkts) && forall q :: q in s ==> Time(bkts, p) < Time(bkts, q)
    ensures Ordered([p] + s, bkts)
  {
  }

  /** Removing a page leaves the others in order of last use. */
  lemma {:induction false} WithoutOrdered(s: seq<nat>, x: nat, bkts: map<nat, Bucket>)
    requires Ordered(s, bkts)
    ensures Ordered(Without(s, x), bkts)
  {
    if s != [] {
      var r := Without(s[1..], x);
      assert Ordered(s[1..], bkts);
      WithoutOrdered(s[1..], x, bkts);
      forall y | y in r ensures Time(bkts, s[0]) < Time(bkts, y) {
        WithoutSubset(s[1..], x, y);
        var i :| 0 <= i < |s[1..]| && s[1..][i] == y;
        assert s[i + 1] == y;
      }
      OrderedCons(s[0], r, bkts);
    }
  }

  /** The order does not depend on the pages that are not in the list. */
  lemma OrderedFrame(s: seq<nat>, bkts: map<nat, Bucket>, bkts': map<nat, Bucket>)
    requires Ordered(s, bkts) && forall p :: p in s ==> Time(bkts', p) == Time(bkts, p)
    ensures Ordered(s, bkts')
  {
  }

  lemma OrderedAppend(s: seq<nat>, p: nat, bkts: map<nat, Bucket>)
    requires Ordered(s, bkts) && forall q :: q in s ==> Time(bkts, q) < Time(bkts, p)
    ensures Ordered(s + [p], bkts)
  {
  }

  lemma ChainsWithout(hqh: seq<seq<nat>>, keys: set<nat>, p: nat)
    requires ChainsOk(hqh, keys) && p in keys
    ensures ChainsOk(hqh[HashKey(p) := Without(hqh[HashKey(p)], p)], keys - {p})
  {
    WithoutMembers(hqh[HashKey(p)], p);
  }

  lemma ChainsWith(hqh: seq<seq<nat>>, keys: set<nat>, p: nat)
    requires ChainsOk(hqh, keys) && p !in keys
    ensures ChainsOk(hqh[HashKey(p) := [p] + hqh[HashKey(p)]], keys + {p})
  {
  }

  ghost function Members(s: seq<nat>): set<nat> {
    set p | p in s
  }

  lemma {:induction false} DistinctSize(s: seq<nat>)
    requires Distinct(s)
    ensures |Members(s)| == |s|
  {
    if s == [] {
      assert Members(s) == {};
    } else {
      assert Distinct(s[1..]) && s[0] !in s[1..];
      DistinctSize(s[1..]);
      assert Members(s) == Members(s[1..]) + {s[0]};
    }
  }

  // ---------------------------------------------------- each step keeps the pages

  /** The same pages are cached, pinned and being changed. */
  ghost predicate SameHolders(c: Cache, c': Cache) {
    && c'.bkts.Keys == c.bkts.Keys
    && forall q :: q in c.bkts ==> c'.bkts[q].pinned == c.bkts[q].pinned && c'.bkts[q].touched == c.bkts[q].touched
  }

  /** A write that goes through. */
  lemma FlushedCoherent(c: Cache, p: nat)
    requires Coherent(c) && p in c.bkts && p < c.npages
    ensures Coherent(Write(c, p, WriteOk)) && Views(Write(c, p, WriteOk)) == Views(c)
  {
    var c' := Write(c, p, WriteOk);
    forall q | q in c'.bkts ensures Settled(c', q) && (c'.bkts[q].touched ==> c'.bkts[q].pinned) {
      assert Settled(c, q);
    }
  }

  lemma FlushedKeeps(c: Cache, p: nat)
    requires Inv(c) && p in c.bkts
    ensures var c' := Write(c, p, WriteOk); Meaning(c') == Some(Views(c)) && SameHolders(c, c')
  {
    var c' := Write(c, p, WriteOk);
    assert c'.bkts.Keys == c.bkts.Keys;
    OrderedFrame(c.lru, c.bkts, c'.bkts);
    assert Pins(c'.bkts) == Pins(c.bkts);
    FlushedCoherent(c, p);
  }

  /** A write that fails and leaves `junk` in the file: the page is still dirty. */
  lemma JunkKeeps(c: Cache, p: nat, junk: Page)
    requires Inv(c) && p in c.bkts && c.bkts[p].dirty
    ensures var c' := c.(file := Written(c.file, p, junk)); Meaning(c') == Some(Views(c))
  {
    var c' := c.(file := Written(c.file, p, junk));
    forall q | q in c'.bkts ensures Settled(c', q) {
      assert Settled(c, q);
    }
    assert Coherent(c') && Views(c') == Views(c);
  }

  /** A write, even a failed one, changes no page as seen through the cache. */
  lemma WriteKeeps(c: Cache, p: nat, w: WriteOutcome)
    requires Inv(c) && p in c.bkts && c.bkts[p].dirty
    ensures var c' := Write(c, p, w); Meaning(c') == Some(Views(c)) && SameHolders(c, c')
    ensures !w.WriteOk? ==> Write(c, p, w).bkts == c.bkts
  {
    match w
    case WriteOk => FlushedKeeps(c, p);
    case WriteFailed(Some(junk)) => JunkKeeps(c, p, junk);
    case WriteFailed(None) =>
  }

  lemma UnlinkList(c: Cache, p: nat)
    requires ListOk(c) && |c.hqh| == HASHSIZE && p in c.bkts
    ensures ListOk(Unlink(c, p)) && |Unlink(c, p).lru| == |c.lru| - 1
  {
    WithoutMembers(c.lru, p);
    WithoutOrdered(c.lru, p, c.bkts);
    OrderedFrame(Without(c.lru, p), c.bkts, c.bkts - {p});
  }

  lemma UnlinkCoherent(c: Cache, p: nat)
    requires Coherent(c) && |c.hqh| == HASHSIZE && p in c.bkts && !c.bkts[p].pinned && !c.bkts[p].dirty
    ensures Coherent(Unlink(c, p)) && Views(Unlink(c, p)) == Views(c)
  {
    var c' := Unlink(c, p);
    assert Settled(c, p);
    forall q | q in c'.bkts ensures Settled(c', q) {
      assert Settled(c, q);
    }
  }

  lemma UnlinkKeeps(c: Cache, p: nat)
    requires Inv(c) && p in c.bkts && !c.bkts[p].pinned && !c.bkts[p].dirty
    ensures var c' := Unlink(c, p); Meaning(c') == Some(Views(c)) && c'.bkts.Keys == c.bkts.Keys - {p}
  {
    var c' := Unlink(c, p);
    UnlinkList(c, p);
    ChainsWithout(c.hqh, c.bkts.Keys, p);
    assert c'.bkts.Keys == c.bkts.Keys - {p};
    assert Pins(c'.bkts) == Pins(c.bkts);
    UnlinkCoherent(c, p);
  }

  /** With every page on the list pinned, there are as many pins as buckets. */
  lemma AllPinned(c: Cache)
    requires ListOk(c) && FirstUnpinned(c.lru, c.bkts) == |c.lru|
    ensures |Pins(c.bkts)| == |c.lru|
    ensures forall q :: q in c.bkts ==> c.bkts[q].pinned
  {
    DistinctSize(c.lru);
    assert Pins(c.bkts) == Members(c.lru);
  }

  /** The first unpinned page of the list is the least recently obtained of them. */
  lemma FirstIsOldest(c: Cache, k: nat)
    requires ListOk(c) && k == FirstUnpinned(c.lru, c.bkts) && k < |c.lru|
    ensures forall q :: q in c.bkts && !c.bkts[q].pinned ==> c.bkts[c.lru[k]].lastGot <= c.bkts[q].lastGot
  {
    forall q | q in c.bkts && !c.bkts[q].pinned ensures c.bkts[c.lru[k]].lastGot <= c.bkts[q].lastGot {
      var i :| 0 <= i < |c.lru| && c.lru[i] == q;
    }
  }

  ghost predicate TakenOk(c: Cache, c': Cache, taken: Taken) {
    match taken
    case NoBucket => c'.lru == c.lru && c'.bkts == c.bkts && c'.lost == c.lost && c'.curcache == c.curcache
    case Evicted(p) =>
      && p in c.bkts && !c.bkts[p].pinned
      && (forall q :: q in c.bkts && !c.bkts[q].pinned ==> c.bkts[p].lastGot <= c.bkts[q].lastGot)
      && c'.bkts == c.bkts - {p} && c'.lost == c.lost + 1 && c'.curcache == c.curcache
    case Grown =>
      && c' == c.(curcache := c.curcache + 1, lost := c.lost + 1)
      && (c.curcache < c.maxcache || forall q :: q in c.bkts ==> c.bkts[q].pinned)
  }

  /** The page to be evicted is dirty and the write of it goes through. */
  lemma EvictDirty(c: Cache, p: nat)
    requires Inv(c) && p in c.bkts && !c.bkts[p].pinned && c.bkts[p].dirty
    ensures var c' := Unlink(Write(c, p, WriteOk), p);
            && Meaning(c') == Some(Views(c)) && c'.bkts == c.bkts - {p} && c'.lost == c.lost + 1
  {
    WriteKeeps(c, p, WriteOk);
    UnlinkKeeps(Write(c, p, WriteOk), p);
  }

  /** All that a step of making room guarantees. */
  ghost predicate RoomMade(c: Cache, c': Cache, taken: Taken) {
    && Inv(c) && Meaning(c') == Some(Views(c)) && TakenOk(c, c', taken)
    && c'.npages == c.npages && c'.maxcache == c.maxcache && c'.clock == c.clock && c'.peak == c.peak
  }

  lemma EvictKeeps(c: Cache, w: WriteOutcome, p: nat)
    requires Inv(c) && p in c.bkts && !c.bkts[p].pinned
    requires forall q :: q in c.bkts && !c.bkts[q].pinned ==> c.bkts[p].lastGot <= c.bkts[q].lastGot
    ensures !c.bkts[p].dirty ==> RoomMade(c, Unlink(c, p), Evicted(p))
    ensures c.bkts[p].dirty && w.WriteOk? ==> RoomMade(c, Unlink(Write(c, p, w), p), Evicted(p))
    ensures c.bkts[p].dirty && !w.WriteOk? ==> RoomMade(c, Write(c, p, w), NoBucket)
  {
    if !c.bkts[p].dirty {
      UnlinkKeeps(c, p);
    } else if w.WriteOk? {
      EvictDirty(c, p);
    } else {
      WriteKeeps(c, p, w);
    }
  }

  lemma GrowKeeps(c: Cache)
    requires Inv(c) && (c.curcache < c.maxcache || FirstUnpinned(c.lru, c.bkts) == |c.lru|)
    ensures RoomMade(c, c.(curcache := c.curcache + 1, lost := c.lost + 1), Grown)
    ensures RoomMade(c, c, NoBucket)
  {
    var c' := c.(curcache := c.curcache + 1, lost := c.lost + 1);
    if FirstUnpinned(c.lru, c.bkts) == |c.lru| {
      AllPinned(c);
    }
    assert Coherent(c') && Views(c') == Views(c);
  }

  /** The cache is at its limit and has a page to give up. */
  ghost predicate AtLimit(c: Cache) {
    c.curcache >= c.maxcache && exists q :: q in c.bkts && !c.bkts[q].pinned
  }

  /** Of the pages that are not pinned, none was obtained longer ago. */
  ghost predicate Oldest(c: Cache, p: nat) {
    && p in c.bkts && !c.bkts[p].pinned
    && forall q :: q in c.bkts && !c.bkts[q].pinned ==> c.bkts[p].lastGot <= c.bkts[q].lastGot
  }

  /** There is no room to be had: the page to be given up is dirty and cannot be written, or
      there is none and no memory. */
  ghost predicate NoRoom(c: Cache, w: WriteOutcome, memory: bool) {
    if AtLimit(c) then !w.WriteOk? && exists p :: Oldest(c, p) && c.bkts[p].dirty else !memory
  }

  /** Two pages are not obtained at one time, so the oldest is the first of the list. */
  lemma OldestIsFirst(c: Cache, p: nat)
    requires Inv(c) && Oldest(c, p)
    ensures FirstUnpinned(c.lru, c.bkts) < |c.lru| && c.lru[FirstUnpinned(c.lru, c.bkts)] == p
  {
    var i :| 0 <= i < |c.lru| && c.lru[i] == p;
    InOrder(c.lru, c.bkts, FirstUnpinned(c.lru, c.bkts), i);
  }

  lemma InOrder(s: seq<nat>, bkts: map<nat, Bucket>, k: nat, i: nat)
    requires Ordered(s, bkts) && k <= i < |s| && Time(bkts, s[i]) <= Time(bkts, s[k])
    ensures k == i
  {
  }

  lemma HasUnpinned(c: Cache)
    requires Inv(c)
    ensures (exists q :: q in c.bkts && !c.bkts[q].pinned) <==> FirstUnpinned(c.lru, c.bkts) < |c.lru|
  {
    var k := FirstUnpinned(c.lru, c.bkts);
    if k < |c.lru| {
      assert c.lru[k] in c.bkts;
    }
  }

  /** A page is taken only at the limit, the cache grows only when it is not there, and making
      room fails if and only if there is none to be had. */
  lemma TakeExactly(c: Cache, w: WriteOutcome, memory: bool)
    requires Inv(c)
    ensures var taken := TakeBucket(c, w, memory).1;
            && (taken.NoBucket? <==> NoRoom(c, w, memory)) && (taken.Evicted? ==> AtLimit(c))
            && (taken.Grown? ==> !AtLimit(c))
  {
    var k := FirstUnpinned(c.lru, c.bkts);
    HasUnpinned(c);
    if AtLimit(c) {
      FirstIsOldest(c, k);
      assert Oldest(c, c.lru[k]);
      forall p | Oldest(c, p) ensures p == c.lru[k] {
        OldestIsFirst(c, p);
      }
    }
  }

  /** Making room changes no page and never takes a pinned one; what it takes is the
      least recently obtained page that is not pinned; and it grows the cache only
      below the limit or when everything is pinned. */
  lemma TakeKeeps(c: Cache, w: WriteOutcome, memory: bool)
    requires Inv(c)
    ensures RoomMade(c, TakeBucket(c, w, memory).0, TakeBucket(c, w, memory).1)
  {
    var k := FirstUnpinned(c.lru, c.bkts);
    if c.curcache >= c.maxcache && k < |c.lru| {
      FirstIsOldest(c, k);
      EvictKeeps(c, w, c.lru[k]);
    } else {
      GrowKeeps(c);
    }
  }

  // -------------------------------------------------------- the operations

  /** There is a buffer to put on the lists and the count will stay within its bound. */
  ghost predicate Spare(c: Cache) {
    && c.lost > 0
    && (c.curcache <= Max(c.maxcache, c.peak + c.lost - 1) || forall q :: q in c.bkts ==> c.bkts[q].pinned)
  }

  lemma TakenIsSpare(c: Cache, c': Cache, taken: Taken)
    requires CountsOk(c) && TakenOk(c, c', taken) && !taken.NoBucket?
    requires c'.maxcache == c.maxcache && c'.peak == c.peak
    ensures Spare(c')
  {
  }

  function Added(c: Cache, p: nat, page: Page, isNew: bool): Cache
    requires |c.hqh| == HASHSIZE
  {
    Attach(if isNew then c.(npages := c.npages + 1) else c, p, page, isNew)
  }

  /** The page to be attached: the next new one, or one read from the file. */
  predicate Attachable(c: Cache, p: nat, page: Page, isNew: bool) {
    && p !in c.bkts
    && if isNew then p == c.npages else p < c.npages && p < |c.file| && page == c.file[p]
  }

  lemma AddedList(c: Cache, p: nat, page: Page, isNew: bool)
    requires ListOk(c) && |c.hqh| == HASHSIZE && Attachable(c, p, page, isNew)
    ensures ListOk(Added(c, p, page, isNew))
  {
    var bkts := Added(c, p, page, isNew).bkts;
    OrderedFrame(c.lru, c.bkts, bkts);
    OrderedAppend(c.lru, p, bkts);
  }

  lemma AddedCoherent(c: Cache, p: nat, page: Page, isNew: bool)
    requires Coherent(c) && |c.hqh| == HASHSIZE && Attachable(c, p, page, isNew)
    ensures var c' := Added(c, p, page, isNew); Coherent(c') && Views(c') == Views(c) + (if isNew then [page] else [])
  {
    var c' := Added(c, p, page, isNew);
    forall q | q in c'.bkts ensures Settled(c', q) && (c'.bkts[q].touched ==> c'.bkts[q].pinned) {
      assert q != p ==> Settled(c, q);
    }
  }

  lemma PinsSize(c: Cache)
    requires ListOk(c) && forall q :: q in c.bkts ==> c.bkts[q].pinned
    ensures |Pins(c.bkts)| == |c.lru|
  {
    DistinctSize(c.lru);
    assert Pins(c.bkts) == Members(c.lru);
  }

  lemma PinsWith(bkts: map<nat, Bucket>, p: nat, b: Bucket)
    requires p !in bkts && b.pinned
    ensures Pins(bkts[p := b]) == Pins(bkts) + {p} && |Pins(bkts[p := b])| == |Pins(bkts)| + 1
  {
    assert Pins(bkts[p := b]) == Pins(bkts) + {p};
  }

  lemma AddedCounts(c: Cache, p: nat, page: Page, isNew: bool)
    requires ListOk(c) && CountsOk(c) && Spare(c) && |c.hqh| == HASHSIZE && p !in c.bkts
    ensures CountsOk(Added(c, p, page, isNew))
  {
    PinsWith(c.bkts, p, Bucket(page, false, true, isNew, c.clock));
    if !(c.curcache <= Max(c.maxcache, c.peak + c.lost - 1)) {
      PinsSize(c);
    }
  }

  lemma AddedKeeps(c: Cache, p: nat, page: Page, isNew: bool)
    requires Inv(c) && Spare(c) && Attachable(c, p, page, isNew)
    ensures var c' := Added(c, p, page, isNew);
            && Meaning(c') == Some(Views(c) + (if isNew then [page] else []))
            && c'.bkts == c.bkts[p := Bucket(page, false, true, isNew, c.clock)]
  {
    AddedList(c, p, page, isNew);
    AddedCoherent(c, p, page, isNew);
    AddedCounts(c, p, page, isNew);
    ChainsWith(c.hqh, c.bkts.Keys, p);
    assert Added(c, p, page, isNew).bkts.Keys == c.bkts.Keys + {p};
  }

  lemma HitList(c: Cache, p: nat)
    requires ListOk(c) && |c.hqh| == HASHSIZE && p in c.bkts
    ensures ListOk(Hit(c, p)) && |Hit(c, p).lru| == |c.lru|
  {
    WithoutMembers(c.lru, p);
    WithoutOrdered(c.lru, p, c.bkts);
    OrderedFrame(Without(c.lru, p), c.bkts, Hit(c, p).bkts);
    OrderedAppend(Without(c.lru, p), p, Hit(c, p).bkts);
  }

  lemma HitChains(c: Cache, p: nat)
    requires ChainsOk(c.hqh, c.bkts.Keys) && p in c.bkts
    ensures ChainsOk(Hit(c, p).hqh, Hit(c, p).bkts.Keys)
  {
    var key := HashKey(p);
    var hqh1 := c.hqh[key := Without(c.hqh[key], p)];
    ChainsWithout(c.hqh, c.bkts.Keys, p);
    ChainsWith(hqh1, c.bkts.Keys - {p}, p);
    assert Hit(c, p).hqh == hqh1[key := [p] + hqh1[key]];
    assert Hit(c, p).bkts.Keys == c.bkts.Keys - {p} + {p};
  }

  lemma HitCoherent(c: Cache, p: nat)
    requires Coherent(c) && |c.hqh| == HASHSIZE && p in c.bkts
    ensures Coherent(Hit(c, p)) && Views(Hit(c, p)) == Views(c)
  {
    var c' := Hit(c, p);
    forall q | q in c'.bkts ensures Settled(c', q) && (c'.bkts[q].touched ==> c'.bkts[q].pinned) {
      assert Settled(c, q);
    }
  }

  lemma HitCounts(c: Cache, p: nat)
    requires ListOk(c) && CountsOk(c) && |c.hqh| == HASHSIZE && p in c.bkts
    ensures CountsOk(Hit(c, p))
  {
    HitList(c, p);
  }

  lemma HitKeeps(c: Cache, p: nat)
    requires Inv(c) && p in c.bkts
    ensures Meaning(Hit(c, p)) == Some(Views(c))
  {
    HitList(c, p);
    HitChains(c, p);
    HitCoherent(c, p);
    HitCounts(c, p);
  }

  /** A pinned page stays where it is, as its holder left it. */
  ghost predicate PinsKept(c: Cache, c': Cache) {
    forall q :: q in c.bkts && c.bkts[q].pinned ==>
      q in c'.bkts && c'.bkts[q].pinned && c'.bkts[q].page == c.bkts[q].page && c'.bkts[q].touched == c.bkts[q].touched
  }

  lemma TakenKeepsPins(c: Cache, c': Cache, taken: Taken)
    requires TakenOk(c, c', taken)
    ensures PinsKept(c, c')
  {
  }

  /** What a successful get leaves behind. */
  ghost predicate Obtained(c: Cache, c': Cache, p: nat, page: Page) {
    && p in c'.bkts && c'.bkts[p].pinned && c'.bkts[p].page == page
    && c'.lru != [] && c'.lru[|c'.lru| - 1] == p && c'.lost == c.lost
    && |c'.hqh| == HASHSIZE && c'.hqh[HashKey(p)] != [] && c'.hqh[HashKey(p)][0] == p
  }

  lemma AttachedKeepsPins(c: Cache, c1: Cache, taken: Taken, p: nat, page: Page, isNew: bool)
    requires TakenOk(c, c1, taken) && !taken.NoBucket? && p !in c1.bkts && p !in c.bkts && |c1.hqh| == HASHSIZE
    ensures PinsKept(c, Added(c1, p, page, isNew)) && Obtained(c, Added(c1, p, page, isNew), p, page)
  {
  }

  /** The second half of a miss and of a new page. */
  lemma AttachAfterTake(c: Cache, c1: Cache, taken: Taken, p: nat, page: Page, isNew: bool)
    requires Inv(c) && Meaning(c1) == Some(Views(c)) && TakenOk(c, c1, taken) && !taken.NoBucket?
    requires c1.npages == c.npages && c1.maxcache == c.maxcache && c1.peak == c.peak
    requires p !in c.bkts && Attachable(c1, p, page, isNew)
    ensures var c' := Added(c1, p, page, isNew);
            && Meaning(c') == Some(Views(c) + (if isNew then [page] else []))
            && PinsKept(c, c') && Obtained(c, c', p, page)
  {
    TakenIsSpare(c, c1, taken);
    AddedKeeps(c1, p, page, isNew);
    AttachedKeepsPins(c, c1, taken, p, page, isNew);
  }

  lemma MissRefines(c: Cache, p: nat, w: WriteOutcome, memory: bool, readOk: bool)
    requires Inv(c) && p < c.npages && p !in c.bkts
    ensures var (c', got) := Get(c, p, w, memory, readOk);
            && Meaning(c') == Some(Views(c)) && PinsKept(c, c')
            && (got.Some? ==> got.value == Views(c)[p] && Obtained(c, c', p, got.value))
            && (got.Some? <==> readOk && !NoRoom(c, w, memory))
  {
    var (c1, taken) := TakeBucket(c, w, memory);
    TakeKeeps(c, w, memory);
    TakeExactly(c, w, memory);
    TakenKeepsPins(c, c1, taken);
    assert p !in c1.bkts && p < |c1.file|;
    assert Views(c1)[p] == c1.file[p];
    if !taken.NoBucket? && readOk {
      AttachAfterTake(c, c1, taken, p, c1.file[p], false);
      assert Views(c) + [] == Views(c);
    }
  }

  lemma HitRefines(c: Cache, p: nat)
    requires Inv(c) && p in c.bkts
    ensures var c' := Hit(c, p);
            Meaning(c') == Some(Views(c)) && PinsKept(c, c') && Obtained(c, c', p, Views(c)[p])
  {
    HitKeeps(c, p);
  }

  /** Getting a page returns what the page array holds there, and pins it; nothing
      that happens on the way, a failure included, changes any page. */
  lemma GetRefines(c: Cache, p: nat, w: WriteOutcome, memory: bool, readOk: bool)
    requires Inv(c)
    ensures var (c', got) := Get(c, p, w, memory, readOk);
            && Meaning(c') == Some(Views(c)) && PinsKept(c, c')
            && (p >= c.npages ==> got == None && c' == c)
            && (got.Some? ==> p < c.npages && got.value == Views(c)[p] && Obtained(c, c', p, got.value))
            && (got.Some? <==> p < c.npages && (p in c.bkts || (readOk && !NoRoom(c, w, memory))))
  {
    if p < c.npages {
      if p in c.bkts {
        HitRefines(c, p);
      } else {
        MissRefines(c, p, w, memory, readOk);
      }
    }
  }

  /** A new page gets the next number; the pages before it are unchanged; and there is one
      unless the numbers are used up or there is no room. */
  lemma NewRefines(c: Cache, w: WriteOutcome, memory: bool, garbage: Page)
    requires Inv(c)
    ensures var (c', got) := New(c, w, memory, garbage);
            && Meaning(c') == Some(if got.Some? then Views(c) + [garbage] else Views(c))
            && PinsKept(c, c')
            && (got.Some? ==> got.value == c.npages && Obtained(c, c', c.npages, garbage))
            && (got.Some? <==> c.npages != MAX_PAGE_NUMBER && !NoRoom(c, w, memory))
  {
    if c.npages != MAX_PAGE_NUMBER {
      var (c1, taken) := TakeBucket(c, w, memory);
      TakeKeeps(c, w, memory);
      TakeExactly(c, w, memory);
      TakenKeepsPins(c, c1, taken);
      if !taken.NoBucket? {
        var p := c.npages;
        AttachAfterTake(c, c1, taken, p, garbage, true);
        assert New(c, w, memory, garbage).0 == Added(c1, p, garbage, true);
      }
    }
  }

  lemma PutCoherent(c: Cache, p: nat, dirty: bool)
    requires Inv(c) && p in c.bkts && (c.bkts[p].touched ==> dirty)
    ensures Coherent(Put(c, p, dirty)) && Views(Put(c, p, dirty)) == Views(c)
  {
    var c' := Put(c, p, dirty);
    assert c'.bkts.Keys == c.bkts.Keys;
    forall q | q in c'.bkts ensures Settled(c', q) && (c'.bkts[q].touched ==> c'.bkts[q].pinned) {
      assert Settled(c, q);
    }
    assert Coherent(c') && Views(c') == Views(c);
  }

  /** Returning a page keeps every page, provided that a page that was changed, or is
      new, is returned as dirty. */
  lemma PutRefines(c: Cache, p: nat, dirty: bool)
    requires Inv(c) && p in c.bkts && c.bkts[p].pinned && (c.bkts[p].touched ==> dirty)
    ensures var c' := Put(c, p, dirty); Meaning(c') == Some(Views(c)) && !c'.bkts[p].pinned
    ensures Put(c, p, dirty).bkts[p].dirty <==> dirty || c.bkts[p].dirty
    ensures Put(c, p, dirty).bkts - {p} == c.bkts - {p} && Put(c, p, dirty).lru == c.lru
  {
    var c' := Put(c, p, dirty);
    assert c'.bkts.Keys == c.bkts.Keys;
    OrderedFrame(c.lru, c.bkts, c'.bkts);
    assert Pins(c'.bkts) == Pins(c.bkts) - {p};
    PutCoherent(c, p, dirty);
  }

  /** The holder's writes are the only thing that changes a page. */
  lemma ChangeRefines(c: Cache, p: nat, page: Page)
    requires Inv(c) && p in c.bkts && c.bkts[p].pinned
    ensures var c' := Change(c, p, page); Meaning(c') == Some(Views(c)[p := page])
  {
    var c' := Change(c, p, page);
    assert c'.bkts.Keys == c.bkts.Keys;
    OrderedFrame(c.lru, c.bkts, c'.bkts);
    assert Pins(c'.bkts) == Pins(c.bkts);
    forall q | q in c'.bkts ensures Settled(c', q) && (c'.bkts[q].touched ==> c'.bkts[q].pinned) {
      assert Settled(c, q);
    }
    assert Coherent(c') && Views(c') == Views(c)[p := page];
  }

  /** The first `i` pages on the list are not dirty. */
  ghost predicate CleanTo(c: Cache, i: nat) {
    forall j :: 0 <= j < i && j < |c.lru| && c.lru[j] in c.bkts ==> !c.bkts[c.lru[j]].dirty
  }

  lemma FlushKeeps(c: Cache, i: nat)
    requires Inv(c) && i < |c.lru| && CleanTo(c, i) && c.bkts[c.lru[i]].dirty
    ensures var c' := Write(c, c.lru[i], WriteOk);
            Meaning(c') == Some(Views(c)) && SameHolders(c, c') && c'.lru == c.lru && CleanTo(c', i + 1)
  {
    WriteKeeps(c, c.lru[i], WriteOk);
  }

  lemma {:induction false} SyncFromKeeps(c: Cache, i: nat, ws: seq<WriteOutcome>)
    requires Inv(c) && i <= |c.lru| == |ws| && CleanTo(c, i)
    ensures var (c', ok) := SyncFrom(c, i, ws);
            && Meaning(c') == Some(Views(c)) && SameHolders(c, c')
            && (ok ==> CleanTo(c', |c'.lru|))
    decreases |c.lru| - i
  {
    assert WellFormed(c);
    if i < |c.lru| {
      var p := c.lru[i];
      if !c.bkts[p].dirty {
        SyncFromKeeps(c, i + 1, ws);
      } else if ws[i].WriteOk? {
        FlushKeeps(c, i);
        SyncFromKeeps(Write(c, p, WriteOk), i + 1, ws);
      } else {
        WriteKeeps(c, p, ws[i]);
      }
    }
  }

  /** Every dirty page from position i of the list on can be written. */
  ghost predicate WritesGo(c: Cache, i: nat, ws: seq<WriteOutcome>)
    requires |ws| == |c.lru|
  {
    forall j :: i <= j < |c.lru| && c.lru[j] in c.bkts && c.bkts[c.lru[j]].dirty ==> ws[j].WriteOk?
  }

  /** Position i is clean, or is written. */
  lemma WritesGoOn(c: Cache, i: nat, ws: seq<WriteOutcome>)
    requires Inv(c) && i < |c.lru| == |ws|
    ensures var b := c.bkts[c.lru[i]];
            && (!b.dirty ==> (WritesGo(c, i, ws) <==> WritesGo(c, i + 1, ws)))
            && (b.dirty && ws[i].WriteOk? ==>
                  (WritesGo(c, i, ws) <==> WritesGo(Write(c, c.lru[i], WriteOk), i + 1, ws)))
            && (b.dirty && !ws[i].WriteOk? ==> !WritesGo(c, i, ws))
  {
    var p, d := c.lru[i], Write(c, c.lru[i], WriteOk);
    forall j | i < j < |c.lru| ensures c.lru[j] in d.bkts && d.bkts[c.lru[j]] == c.bkts[c.lru[j]] {
      assert c.lru[i] != c.lru[j];
    }
  }

  /** A sync answers true if and only if every write that it needs goes through. */
  lemma {:induction false} SyncAnswers(c: Cache, i: nat, ws: seq<WriteOutcome>)
    requires Inv(c) && i <= |c.lru| == |ws| && CleanTo(c, i)
    ensures SyncFrom(c, i, ws).1 <==> WritesGo(c, i, ws)
    decreases |c.lru| - i
  {
    if i < |c.lru| {
      var p := c.lru[i];
      WritesGoOn(c, i, ws);
      if !c.bkts[p].dirty {
        SyncAnswers(c, i + 1, ws);
      } else if ws[i].WriteOk? {
        FlushKeeps(c, i);
        SyncAnswers(Write(c, p, WriteOk), i + 1, ws);
      }
    }
  }

  /** After a sync that succeeds, the file holds every page that is not being changed
      by a holder; a sync never changes a page, whether it succeeds or not. */
  lemma SyncRefines(c: Cache, ws: seq<WriteOutcome>)
    requires Inv(c) && |ws| == |c.lru|
    ensures var (c', ok) := SyncFrom(c, 0, ws);
            && Meaning(c') == Some(Views(c))
            && (ok ==> forall p :: 0 <= p < c.npages && !(p in c.bkts && c.bkts[p].touched) ==>
                         p < |c'.file| && c'.file[p] == Views(c)[p])
            && (ok <==> forall i :: 0 <= i < |c.lru| && c.bkts[c.lru[i]].dirty ==> ws[i].WriteOk?)
  {
    SyncFromKeeps(c, 0, ws);
    SyncAnswers(c, 0, ws);
    var (c', ok) := SyncFrom(c, 0, ws);
    if ok {
      forall p | 0 <= p < c.npages && !(p in c.bkts && c.bkts[p].touched)
        ensures p < |c'.file| && c'.file[p] == Views(c)[p]
      {
        if p in c'.bkts {
          assert p in c.lru && Settled(c', p);
        }
        assert Views(c')[p] == Views(c)[p];
      }
    }
  }

  // ---------------------------------------------------------------------- runs

  datatype Op =
    | GetOp(p: nat, w: WriteOutcome, memory: bool, readOk: bool)
    | NewOp(w: WriteOutcome, memory: bool, garbage: Page)
    | PutOp(p: nat, dirty: bool)
    | ChangeOp(p: nat, page: Page)
    | SyncOp(ws: seq<WriteOutcome>)

  /** What callers owe: they return and change only pages they hold, and return a page
      that they have changed, or that is new, as dirty. */
  ghost predicate Allowed(c: Cache, op: Op) {
    match op
    case PutOp(p, dirty) => p in c.bkts && c.bkts[p].pinned && (c.bkts[p].touched ==> dirty)
    case ChangeOp(p, _) => p in c.bkts && c.bkts[p].pinned
    case SyncOp(ws) => |ws| == |c.lru|
    case _ => true
  }

  function Apply(c: Cache, op: Op): Cache
    requires WellFormed(c) && Allowed(c, op)
  {
    match op
    case GetOp(p, w, memory, readOk) => Get(c, p, w, memory, readOk).0
    case NewOp(w, memory, garbage) => New(c, w, memory, garbage).0
    case PutOp(p, dirty) => Put(c, p, dirty)
    case ChangeOp(p, page) => Change(c, p, page)
    case SyncOp(ws) => SyncFrom(c, 0, ws).0
  }

  /** The same operation on the plain array: only changing a page and adding one do anything. */
  function ApplyToArray(v: seq<Page>, op: Op, added: bool): seq<Page> {
    match op
    case NewOp(_, _, garbage) => if added then v + [garbage] else v
    case ChangeOp(p, page) => if p < |v| then v[p := page] else v
    case _ => v
  }

  /** A run of the cache beside the same run of the array. */
  ghost predicate Run(c: Cache, v: seq<Page>, ops: seq<Op>, c': Cache, v': seq<Page>)
    decreases |ops|
  {
    if ops == [] then c == c' && v == v'
    else
      && WellFormed(c) && Allowed(c, ops[0])
      && var c1 := Apply(c, ops[0]);
         Run(c1, ApplyToArray(v, ops[0], c1.npages > c.npages), ops[1..], c', v')
  }

  lemma ApplyRefines(c: Cache, v: seq<Page>, op: Op)
    requires Meaning(c) == Some(v) && Allowed(c, op)
    ensures WellFormed(c)
    ensures var c' := Apply(c, op); Meaning(c') == Some(ApplyToArray(v, op, c'.npages > c.npages))
  {
    match op
    case GetOp(p, w, memory, readOk) => GetRefines(c, p, w, memory, readOk);
    case NewOp(w, memory, garbage) => NewRefines(c, w, memory, garbage);
    case PutOp(p, dirty) => PutRefines(c, p, dirty);
    case ChangeOp(p, page) => ChangeRefines(c, p, page);
    case SyncOp(ws) => SyncRefines(c, ws);
  }

  /** The cache refines the array over every run. */
  lemma {:induction false} RunRefines(c: Cache, v: seq<Page>, ops: seq<Op>, c': Cache, v': seq<Page>)
    requires Meaning(c) == Some(v) && Run(c, v, ops, c', v')
    ensures Meaning(c') == Some(v')
    decreases |ops|
  {
    if ops != [] {
      ApplyRefines(c, v, ops[0]);
      var c1 := Apply(c, ops[0]);
      RunRefines(c1, ApplyToArray(v, ops[0], c1.npages > c.npages), ops[1..], c', v');
    }
  }

  lemma OpenMeans(pages: seq<Page>, maxcache: nat)
    ensures Meaning(Open(pages, maxcache)) == Some(pages)
  {
    var c := Open(pages, maxcache);
    assert Pins(c.bkts) == {};
    assert Coherent(c) && Views(c) == pages;
  }

  /** What being in order says about the lists and the counts. */
  lemma StructureOf(c: Cache)
    requires Inv(c)
    ensures forall p :: p in c.lru <==> p in c.bkts
    ensures forall k, p :: 0 <= k < HASHSIZE ==> (p in c.hqh[k] <==> p in c.bkts && HashKey(p) == k)
    ensures c.curcache == |c.bkts| + c.lost && c.curcache <= Max(c.maxcache, c.peak + c.lost)
  {
    DistinctSize(c.lru);
    assert Members(c.lru) == c.bkts.Keys;
  }

  /** Any run from an opened file: every page is where the array says, each cached page
      is on the list and on one chain only, and the cache has grown past its limit
      only as far as pages were pinned at once or buffers were lost to failed reads. */
  lemma OpenRunRefines(pages: seq<Page>, maxcache: nat, ops: seq<Op>, c: Cache, v: seq<Page>)
    requires Run(Open(pages, maxcache), pages, ops, c, v)
    ensures Meaning(c) == Some(v)
    ensures |c.hqh| == HASHSIZE && forall p :: p in c.lru <==> p in c.bkts
    ensures forall k, p :: 0 <= k < HASHSIZE ==> (p in c.hqh[k] <==> p in c.bkts && HashKey(p) == k)
    ensures c.curcache == |c.bkts| + c.lost && c.curcache <= Max(c.maxcache, c.peak + c.lost)
  {
    OpenMeans(pages, maxcache);
    RunRefines(Open(pages, maxcache), pages, ops, c, v);
    StructureOf(c);
  }

  /** Buffers are lost only to reads that fail. */
  lemma ApplyLosesNothing(c: Cache, v: seq<Page>, op: Op)
    requires Meaning(c) == Some(v) && Allowed(c, op) && (op.GetOp? ==> op.readOk)
    ensures WellFormed(c) && Apply(c, op).lost == c.lost && Apply(c, op).maxcache == c.maxcache
  {
    match op
    case GetOp(p, w, memory, readOk) => GetLosesNothing(c, p, w, memory);
    case NewOp(w, memory, garbage) => TakeKeeps(c, w, memory);
    case SyncOp(ws) => SyncLosesNothing(c, 0, ws);
    case _ =>
  }

  lemma GetLosesNothing(c: Cache, p: nat, w: WriteOutcome, memory: bool)
    requires Inv(c)
    ensures Get(c, p, w, memory, true).0.lost == c.lost && Get(c, p, w, memory, true).0.maxcache == c.maxcache
  {
    TakeKeeps(c, w, memory);
    var (c1, taken) := TakeBucket(c, w, memory);
    if p < c.npages && p !in c.bkts {
      assert p !in c1.bkts && p < |c1.file|;
    }
  }

  lemma {:induction false} SyncLosesNothing(c: Cache, i: nat, ws: seq<WriteOutcome>)
    requires i <= |c.lru| && |ws| == |c.lru| && forall p :: p in c.lru ==> p in c.bkts
    ensures SyncFrom(c, i, ws).0.lost == c.lost && SyncFrom(c, i, ws).0.maxcache == c.maxcache
    decreases |c.lru| - i
  {
    if i < |c.lru| {
      var p := c.lru[i];
      if !c.bkts[p].dirty {
        SyncLosesNothing(c, i + 1, ws);
      } else if ws[i].WriteOk? {
        SyncLosesNothing(Write(c, p, ws[i]), i + 1, ws);
      }
    }
  }

  lemma {:induction false} RunLosesNothing(c: Cache, v: seq<Page>, ops: seq<Op>, c': Cache, v': seq<Page>)
    requires Meaning(c) == Some(v) && Run(c, v, ops, c', v')
    requires forall op :: op in ops && op.GetOp? ==> op.readOk
    ensures c'.lost == c.lost && c'.maxcache == c.maxcache
    decreases |ops|
  {
    if ops != [] {
      ApplyRefines(c, v, ops[0]);
      ApplyLosesNothing(c, v, ops[0]);
      var c1 := Apply(c, ops[0]);
      RunLosesNothing(c1, ApplyToArray(v, ops[0], c1.npages > c.npages), ops[1..], c', v');
    }
  }

  /** With no failed read the cache stays within its limit, or within the most pages
      that were ever pinned at once. */
  lemma CacheBound(pages: seq<Page>, maxcache: nat, ops: seq<Op>, c: Cache, v: seq<Page>)
    requires Run(Open(pages, maxcache), pages, ops, c, v)
    requires forall op :: op in ops && op.GetOp? ==> op.readOk
    ensures c.curcache <= Max(maxcache, c.peak)
  {
    OpenMeans(pages, maxcache);
    RunLosesNothing(Open(pages, maxcache), pages, ops, c, v);
    OpenRunRefines(pages, maxcache, ops, c, v);
  }

  // ------------------------------------------------------------ the pool object

  /** The pool in memory.  `lost`, `peak` and `clock` are kept for the proofs. */
  class Pool {
    var lru: seq<nat>
    var hqh: seq<seq<nat>>
    var bkts: map<nat, Bucket>
    var curcache: nat
    var maxcache: nat
    var npages: nat
    var file: seq<Page>
    ghost var lost: nat
    ghost var peak: nat
    var clock: nat  // only for the history in the buckets

    ghost function Abs(): Cache
      reads this
    {
      Cache(lru, hqh, bkts, curcache, maxcache, npages, file, lost, peak, clock)
    }

    constructor (pages: seq<Page>, maxcache: nat)
      ensures Abs() == Open(pages, maxcache) && Meaning(Abs()) == Some(pages)
    {
      lru, hqh, bkts, curcache, this.maxcache := [], seq(HASHSIZE, _ => []), map[], 0, maxcache;
      npages, file, lost, peak, clock := |pages|, pages, 0, 0, 0;
      new;
      OpenMeans(pages, maxcache);
    }

    /** mpool_look: along the hash chain of the page. */
    method Look(pgno: nat) returns (found: bool)
      requires ChainsOk(hqh, bkts.Keys)
      ensures found <==> pgno in bkts
    {
      var chain := hqh[HashKey(pgno)];
      var i := 0;
      while i < |chain|
        invariant 0 <= i <= |chain| && pgno !in chain[..i]
      {
        if chain[i] == pgno {
          return true;
        }
        i := i + 1;
      }
      assert chain[..i] == chain;
      return false;
    }

    method WriteBack(p: nat, w: WriteOutcome) returns (ok: bool)
      requires p in bkts
      modifies this
      ensures Abs() == Write(old(Abs()), p, w) && ok == w.WriteOk?
    {
      match w
      case WriteOk =>
        file := Written(file, p, bkts[p].page);
        bkts := bkts[p := bkts[p].(dirty := false)];
        ok := true;
      case WriteFailed(junk) =>
        if junk.Some? {
          file := Written(file, p, junk.value);
        }
        ok := false;
    }

    /** common/mdb/mpool.c:326-345, for the page that the walk has found. */
    method Evict(p: nat, w: WriteOutcome) returns (taken: Taken)
      requires |hqh| == HASHSIZE && p in bkts
      modifies this
      ensures var c := old(Abs());
        (Abs(), taken) ==
          if c.bkts[p].dirty && !w.WriteOk? then (Write(c, p, w), NoBucket)
          else (Unlink(if c.bkts[p].dirty then Write(c, p, w) else c, p), Evicted(p))
    {
      if bkts[p].dirty {
        var ok := WriteBack(p, w);
        if !ok {
          return NoBucket;
        }
      }
      var key := HashKey(p);
      hqh := hqh[key := Without(hqh[key], p)];
      lru := Without(lru, p);
      bkts, lost := bkts - {p}, lost + 1;
      return Evicted(p);
    }

    /** mpool_bkt */
    method Take(w: WriteOutcome, memory: bool) returns (taken: Taken)
      requires WellFormed(Abs())
      modifies this
      ensures (Abs(), taken) == TakeBucket(old(Abs()), w, memory)
    {
      if curcache >= maxcache {
        var i := 0;
        while i < |lru|
          invariant 0 <= i <= |lru|
          invariant FirstUnpinned(lru, bkts) == i + FirstUnpinned(lru[i..], bkts)
        {
          var p := lru[i];
          assert lru[i..][0] == p && lru[i..][1..] == lru[i + 1..];
          if !bkts[p].pinned {
            taken := Evict(p, w);
            return;
          }
          i := i + 1;
        }
      }
      if !memory {
        return NoBucket;
      }
      curcache, lost := curcache + 1, lost + 1;
      return Grown;
    }

    /** To the head of its hash chain and the tail of the list, as a new pinned bucket. */
    method Insert(p: nat, page: Page, isNew: bool)
      requires |hqh| == HASHSIZE
      modifies this
      ensures Abs() == Attach(old(Abs()), p, page, isNew)
    {
      var key := HashKey(p);
      hqh := hqh[key := [p] + hqh[key]];
      lru := lru + [p];
      bkts := bkts[p := Bucket(page, false, true, isNew, clock)];
      if lost > 0 {
        lost := lost - 1;
      }
      clock, peak := clock + 1, Max(peak, |Pins(bkts)|);
    }

    /** A hit: to the head of the hash chain and the tail of the list. */
    method Touch(p: nat)
      requires |hqh| == HASHSIZE && p in bkts
      modifies this
      ensures Abs() == Hit(old(Abs()), p)
    {
      var key := HashKey(p);
      hqh := hqh[key := [p] + Without(hqh[key], p)];
      lru := Without(lru, p) + [p];
      bkts := bkts[p := bkts[p].(pinned := true, lastGot := clock)];
      clock, peak := clock + 1, Max(peak, |Pins(bkts)|);
    }

    /** mpool_get */
    method GetPage(p: nat, w: WriteOutcome, memory: bool, readOk: bool) returns (page: Option<Page>)
      requires WellFormed(Abs()) && ChainsOk(hqh, bkts.Keys)
      modifies this
      ensures (Abs(), page) == Get(old(Abs()), p, w, memory, readOk)
    {
      if p >= npages {
        return None;
      }
      var cached := Look(p);
      if cached {
        page := Some(bkts[p].page);
        Touch(p);
        return;
      }
      var taken := Take(w, memory);
      if taken.NoBucket? || !readOk || p >= |file| {
        return None;
      }
      page := Some(file[p]);
      Insert(p, file[p], false);
    }

    /** mpool_new */
    method NewPage(w: WriteOutcome, memory: bool, garbage: Page) returns (pgno: Option<nat>)
      requires WellFormed(Abs())
      modifies this
      ensures (Abs(), pgno) == New(old(Abs()), w, memory, garbage)
    {
      if npages == MAX_PAGE_NUMBER {
        return None;
      }
      var taken := Take(w, memory);
      if taken.NoBucket? {
        return None;
      }
      pgno := Some(npages);
      npages := npages + 1;
      Insert(npages - 1, garbage, true);
    }

    /** mpool_put */
    method PutPage(p: nat, dirty: bool)
      requires p in bkts
      modifies this
      ensures Abs() == Put(old(Abs()), p, dirty)
    {
      bkts := bkts[p := bkts[p].(pinned := false, dirty := bkts[p].dirty || dirty, touched := false)];
    }

    /** mpool_sync; flushFails is an error of the final flush of the descriptor. */
    method Sync(ws: seq<WriteOutcome>, flushFails: bool) returns (ok: bool)
      requires WellFormed(Abs()) && |ws| == |lru|
      modifies this
      ensures var (c, written) := SyncFrom(old(Abs()), 0, ws);
        Abs() == c && ok == (written && !flushFails)
    {
      var i := 0;
      while i < |lru|
        invariant 0 <= i <= |lru| == |ws| && forall p :: p in lru ==> p in bkts
        invariant SyncFrom(Abs(), i, ws) == SyncFrom(old(Abs()), 0, ws)
      {
        if bkts[lru[i]].dirty {
          var written := WriteBack(lru[i], ws[i]);
          if !written {
            return false;
          }
        }
        i := i + 1;
      }
      return !flushFails;
    }
  }
}
