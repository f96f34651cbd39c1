module Allocator {
  /* The size-class allocator (common/memory/allocator.c) on a machine with 64-bit sizes
     and 32-bit unsigned int.

     A free list is a sequence with its first node first. A node carries an identity in
     place of its address; malloc is a parameter that gives a new identity or nothing. */

  const BOUNDARY_SIZE: nat := 128
  const MIN_ALLOC: nat := 256
  const MAX_INDEX: nat := 80
  const MEMNODE_T_SIZE: nat := 40
  const TWO_32: nat := 0x1_0000_0000
  const TWO_64: nat := 0x1_0000_0000_0000_0000

  type Size = n: nat | n < TWO_64
  type UInt = n: nat | n < TWO_32

  datatype Node = Node(id: int, index: UInt)

  datatype Option<T> = None | Some(value: T)

  /** maxFree and curFree count blocks of BOUNDARY_SIZE; free[0] is the sink. */
  datatype Pool = Pool(maxIndex: nat, maxFree: UInt, curFree: UInt, free: seq<seq<Node>>)

  // --------------------------------------------------------------------- sizes

  /** ALIGN on size_t, with its wrap-around. */
  function AlignedSize(n: nat): Size {
    var m := (n + BOUNDARY_SIZE - 1) % TWO_64;
    m - m % BOUNDARY_SIZE
  }

  /** common/memory/allocator.c:144-158: the size to get, or none. */
  function BlockSize(inSize: Size): Option<Size> {
    var size := AlignedSize((inSize + MEMNODE_T_SIZE) % TWO_64);
    if size < inSize then None
    else
      var s := if size < MIN_ALLOC then MIN_ALLOC else size;
      if s / BOUNDARY_SIZE - 1 > TWO_32 - 1 then None else Some(s)
  }

  function IndexOf(size: Size): int { size / BOUNDARY_SIZE - 1 }

  /** endp - first_avail of a node. */
  function Room(n: Node): int { (n.index + 1) * BOUNDARY_SIZE - MEMNODE_T_SIZE }

  lemma Aligned(n: nat)
    requires n + BOUNDARY_SIZE - 1 < TWO_64
    ensures AlignedSize(n) % BOUNDARY_SIZE == 0
    ensures n <= AlignedSize(n) < n + BOUNDARY_SIZE
  {
    var m := n + BOUNDARY_SIZE - 1;
    assert AlignedSize(n) == m - m % BOUNDARY_SIZE;
  }

  lemma AlignedWraps(n: Size)
    requires TWO_64 <= n + BOUNDARY_SIZE - 1
    ensures AlignedSize(n) == 0
  {
    var m := n + BOUNDARY_SIZE - 1;
    assert m % TWO_64 == m - TWO_64;
  }

  /** The size before the test of line 145: it wraps around only to less than was asked. */
  lemma SizeOf(inSize: Size)
    ensures var a := inSize + MEMNODE_T_SIZE; var size := AlignedSize(a % TWO_64);
      if a + BOUNDARY_SIZE <= TWO_64 then a <= size < a + BOUNDARY_SIZE && size % BOUNDARY_SIZE == 0
      else size < inSize
  {
    var a := inSize + MEMNODE_T_SIZE;
    if a + BOUNDARY_SIZE <= TWO_64 {
      Aligned(a);
    } else if TWO_64 <= a {
      assert a % TWO_64 == a - TWO_64;
      Aligned(a - TWO_64);
    } else {
      AlignedWraps(a);
    }
  }

  /** A size is found exactly when the request with its header is small enough, and then
      every node of its index or a larger one has room for the request. */
  lemma BlockSizeFits(inSize: Size)
    ensures BlockSize(inSize).Some? <==> inSize + MEMNODE_T_SIZE <= TWO_32 * BOUNDARY_SIZE
    ensures BlockSize(inSize).Some? ==>
      && 1 <= IndexOf(BlockSize(inSize).value) < TWO_32
      && BlockSize(inSize).value == (IndexOf(BlockSize(inSize).value) + 1) * BOUNDARY_SIZE
      && inSize + MEMNODE_T_SIZE <= BlockSize(inSize).value
      && (MIN_ALLOC < BlockSize(inSize).value ==> BlockSize(inSize).value < inSize + MEMNODE_T_SIZE + BOUNDARY_SIZE)
  {
    SizeOf(inSize);
  }

  // ---------------------------------------------------------------- the operations

  /** common/memory/allocator.c:182-185. */
  function FirstUsed(free: seq<seq<Node>>, i: nat, max: nat): (k: nat)
    requires i <= max < |free|
    ensures i <= k <= max
    ensures forall j :: i <= j < k ==> free[j] == []
    ensures free[k] == [] ==> k == max
    decreases max - i
  {
    if free[i] == [] && i < max then FirstUsed(free, i + 1, max) else i
  }

  /** common/memory/allocator.c:194-198: the highest used slot below m, or 0. */
  function NewMax(free: seq<seq<Node>>, m: nat): (k: nat)
    requires 0 < m < |free|
    ensures k < m
    ensures forall j :: k < j < m ==> free[j] == []
    ensures k == 0 || free[k] != []
  {
    if free[m - 1] == [] && 0 < m - 1 then NewMax(free, m - 1) else m - 1
  }

  /** common/memory/allocator.c:236-238: the first node of the sink that is large enough. */
  function InSink(list: seq<Node>, index: nat): (k: nat)
    ensures k <= |list|
    ensures k < |list| ==> index <= list[k].index
    ensures forall j :: 0 <= j < k ==> list[j].index < index
  {
    if list == [] || index <= list[0].index then 0 else 1 + InSink(list[1..], index)
  }

  /** common/memory/allocator.c:203-205 and 243-245, with 32-bit wrap-around. */
  function Credit(a: Pool, n: Node): Pool {
    var c := (a.curFree + n.index) % TWO_32;
    a.(curFree := if a.maxFree < c then a.maxFree else c)
  }

  /** A node, where it came from, and the allocator left behind. */
  datatype Got = Got(pool: Pool, node: Option<Node>, fromCache: bool)

  /** common/memory/allocator.c:187-216 for the first node of slot i. */
  function TakeFirst(a: Pool, i: nat): (g: Got)
    requires i < |a.free| && a.free[i] != [] && i <= a.maxIndex < |a.free| && 1 <= i
  {
    var n := a.free[i][0];
    var free := a.free[i := a.free[i][1..]];
    var max := if free[i] == [] && a.maxIndex <= i then NewMax(free, a.maxIndex) else a.maxIndex;
    Got(Credit(a.(free := free, maxIndex := max), n), Some(n), true)
  }

  function TakeFromSink(a: Pool, k: nat): (g: Got)
    requires a.free != [] && k < |a.free[0]|
  {
    var l := a.free[0];
    Got(Credit(a.(free := a.free[0 := l[..k] + l[k + 1..]]), l[k]), Some(l[k]), true)
  }

  /** common/memory/allocator.c:264-275; given is what malloc returns. */
  function Fetch(a: Pool, index: UInt, given: Option<int>): Got {
    match given
    case None => Got(a, None, false)
    case Some(id) => Got(a, Some(Node(id, index)), false)
  }

  /** common/memory/allocator.c:134-276. */
  function Alloc(a: Pool, inSize: Size, given: Option<int>): Got
    requires |a.free| == MAX_INDEX && a.maxIndex < MAX_INDEX
  {
    var size := BlockSize(inSize);
    if size.None? then Got(a, None, false)
    else
      BlockSizeFits(inSize);
      var index := IndexOf(size.value);
      if index <= a.maxIndex then
        var i := FirstUsed(a.free, index, a.maxIndex);
        if a.free[i] != [] then TakeFirst(a, i) else Fetch(a, index, given)
      else
        var k := InSink(a.free[0], index);
        if k < |a.free[0]| then TakeFromSink(a, k) else Fetch(a, index, given)
  }

  datatype Freed = Freed(pool: Pool, released: seq<Node>)

  /** common/memory/allocator.c:298-330: one node is kept or released. */
  function FreeOne(f: Freed, n: Node): Freed
    requires |f.pool.free| == MAX_INDEX
  {
    var a := f.pool;
    if a.maxFree != 0 && a.curFree < n.index then f.(released := [n] + f.released)
    else
      var slot := if n.index < MAX_INDEX then n.index else 0;
      var max := if n.index < MAX_INDEX && a.free[slot] == [] && a.maxIndex < n.index then n.index else a.maxIndex;
      var cur := if n.index <= a.curFree then a.curFree - n.index else 0;
      f.(pool := a.(free := a.free[slot := [n] + a.free[slot]], maxIndex := max, curFree := cur))
  }

  /** common/memory/allocator.c:278-346. */
  function FreeAll(f: Freed, nodes: seq<Node>): (g: Freed)
    requires |f.pool.free| == MAX_INDEX
    ensures |g.pool.free| == MAX_INDEX
    decreases |nodes|
  {
    if nodes == [] then f else FreeAll(FreeOne(f, nodes[0]), nodes[1..])
  }

  /** ALIGN(size, BOUNDARY_SIZE) >> BOUNDARY_INDEX on a size cut to 32 bits. */
  function Limit(inSize: Size): (m: UInt) {
    ((inSize % TWO_32 + BOUNDARY_SIZE - 1) % TWO_32) / BOUNDARY_SIZE
  }

  /** common/memory/allocator.c:107-132, with 32-bit wrap-around. */
  function SetLimit(a: Pool, inSize: Size): Pool {
    var m := Limit(inSize);
    var c := ((a.curFree + m) % TWO_32 - a.maxFree + TWO_32) % TWO_32;
    a.(maxFree := m, curFree := if m < c then m else c)
  }

  function New(): Pool { Pool(0, 0, 0, seq(MAX_INDEX, _ => [])) }

  // ---------------------------------------------------------------- the index invariant

  predicate InSlot(i: int, n: Node) {
    if i == 0 then MAX_INDEX <= n.index else n.index == i
  }

  ghost predicate Indexed(a: Pool) {
    && |a.free| == MAX_INDEX && a.maxIndex < MAX_INDEX
    && (forall i, k :: 0 <= i < MAX_INDEX && 0 <= k < |a.free[i]| ==> InSlot(i, a.free[i][k]))
    && (forall i :: a.maxIndex < i < MAX_INDEX ==> a.free[i] == [])
    && (a.maxIndex == 0 || a.free[a.maxIndex] != [])
  }

  lemma TakeFirstKeepsIndexed(a: Pool, i: nat)
    requires Indexed(a) && 1 <= i <= a.maxIndex && a.free[i] != []
    ensures Indexed(TakeFirst(a, i).pool)
  {
  }

  lemma TakeFromSinkKeepsIndexed(a: Pool, k: nat)
    requires Indexed(a) && k < |a.free[0]|
    ensures Indexed(TakeFromSink(a, k).pool)
  {
  }

  /** A search that starts at or below the highest used slot finds a node, so malloc is
      asked only when no cached node is large enough; and every node has room. */
  lemma AllocIsBigEnough(a: Pool, inSize: Size, given: Option<int>)
    requires Indexed(a)
    ensures var g := Alloc(a, inSize, given);
      && Indexed(g.pool)
      && (g.node.Some? ==> inSize <= Room(g.node.value))
      && (g.node.None? <==> BlockSize(inSize).None? || (!g.fromCache && given.None?))
      && (BlockSize(inSize).Some? && !g.fromCache ==>
            forall i, k :: 0 <= i < MAX_INDEX && 0 <= k < |a.free[i]| ==>
              a.free[i][k].index < IndexOf(BlockSize(inSize).value))
  {
    BlockSizeFits(inSize);
    if BlockSize(inSize).Some? {
      var index := IndexOf(BlockSize(inSize).value);
      if index <= a.maxIndex {
        var i := FirstUsed(a.free, index, a.maxIndex);
        TakeFirstKeepsIndexed(a, i);
      } else {
        var k := InSink(a.free[0], index);
        if k < |a.free[0]| {
          TakeFromSinkKeepsIndexed(a, k);
        }
      }
    }
  }

  /** Of the cached nodes in slots, none that is large enough is smaller than the one taken. */
  lemma AllocFitsBest(a: Pool, inSize: Size, given: Option<int>, i: nat, k: nat)
    requires Indexed(a) && Alloc(a, inSize, given).fromCache && 1 <= i < MAX_INDEX && k < |a.free[i]|
    requires BlockSize(inSize).Some? ==> IndexOf(BlockSize(inSize).value) <= a.free[i][k].index
    ensures Alloc(a, inSize, given).node.Some?
    ensures Alloc(a, inSize, given).node.value.index <= a.free[i][k].index
  {
    BlockSizeFits(inSize);
    var index := IndexOf(BlockSize(inSize).value);
    assert InSlot(i, a.free[i][k]);
    if index <= a.maxIndex {
      var j := FirstUsed(a.free, index, a.maxIndex);
      assert InSlot(j, a.free[j][0]);
    }
  }

  /** A node that is kept is the one that the next request of its size gets, and the lists are
      then as they were. */
  lemma FreedIsReused(f: Freed, n: Node, inSize: Size, given: Option<int>)
    requires Indexed(f.pool) && 1 <= n.index && FreeOne(f, n).released == f.released
    requires BlockSize(inSize) == Some((n.index + 1) * BOUNDARY_SIZE)
    ensures var g := Alloc(FreeOne(f, n).pool, inSize, given);
      g.fromCache && g.node == Some(n) && g.pool.free == f.pool.free
  {
    var a := FreeOne(f, n).pool;
    NeverReleasesItself(f.released, n);
    assert IndexOf((n.index + 1) * BOUNDARY_SIZE) == n.index;
    if n.index < MAX_INDEX {
      assert a.free[n.index] == [n] + f.pool.free[n.index];
      assert FirstUsed(a.free, n.index, a.maxIndex) == n.index;
      assert a.free[n.index][1..] == f.pool.free[n.index];
    } else {
      assert a.free[0] == [n] + f.pool.free[0];
      assert InSink(a.free[0], n.index) == 0;
      assert a.free[0][..0] + a.free[0][1..] == f.pool.free[0];
    }
  }

  lemma NeverReleasesItself(released: seq<Node>, n: Node)
    ensures [n] + released != released
  {
    assert |[n] + released| == |released| + 1;
  }

  // --------------------------------------------------------- what the lists hold in all

  /** The nodes of the first k lists. */
  function Bag(free: seq<seq<Node>>, k: nat): multiset<Node>
    requires k <= |free|
  {
    if k == 0 then multiset{} else Bag(free, k - 1) + multiset(free[k - 1])
  }

  function Cached(a: Pool): multiset<Node> { Bag(a.free, |a.free|) }

  function Sum(l: seq<Node>): nat {
    if l == [] then 0 else l[0].index + Sum(l[1..])
  }

  /** The indices of the nodes of the first k lists, added up. */
  function Total(free: seq<seq<Node>>, k: nat): nat
    requires k <= |free|
  {
    if k == 0 then 0 else Total(free, k - 1) + Sum(free[k - 1])
  }

  function Kept(a: Pool): nat { Total(a.free, |a.free|) }

  lemma Exchange<T>(a: multiset<T>, b: multiset<T>, c: multiset<T>, d: multiset<T>, e: multiset<T>, f: multiset<T>)
    requires a == b && c == d && e == f
    ensures (a + c) + e == (b + f) + d
  {
  }

  lemma AddSame<T>(a: multiset<T>, b: multiset<T>, c: multiset<T>, d: multiset<T>, m: multiset<T>)
    requires a + c == b + d
    ensures (a + m) + c == (b + m) + d
  {
    assert (a + m) + c == (a + c) + m;
    assert (b + m) + d == (b + d) + m;
  }

  lemma Cancel<T>(a: multiset<T>, b: multiset<T>, c: multiset<T>, m: multiset<T>)
    requires a + (c + m) == b + c
    ensures a + m == b
  {
    assert (a + m) + c == b + c;
    assert a + m == (a + m) + c - c;
    assert b == b + c - c;
  }

  lemma {:induction false} BagUpdate(free: seq<seq<Node>>, i: nat, l: seq<Node>, k: nat)
    requires i < |free| && k <= |free|
    ensures i < k ==> Bag(free[i := l], k) + multiset(free[i]) == Bag(free, k) + multiset(l)
    ensures k <= i ==> Bag(free[i := l], k) == Bag(free, k)
  {
    if k != 0 {
      BagUpdate(free, i, l, k - 1);
      if i == k - 1 {
        Exchange(Bag(free, i), Bag(free, i), multiset(l), multiset(l), multiset(free[i]), multiset(free[i]));
      } else if i < k - 1 {
        AddSame(Bag(free[i := l], k - 1), Bag(free, k - 1), multiset(free[i]), multiset(l), multiset(free[k - 1]));
      }
    }
  }

  lemma {:induction false} TotalUpdate(free: seq<seq<Node>>, i: nat, l: seq<Node>, k: nat)
    requires i < |free| && k <= |free|
    ensures Total(free[i := l], k) == Total(free, k) + if i < k then Sum(l) - Sum(free[i]) else 0
  {
    if k != 0 {
      TotalUpdate(free, i, l, k - 1);
    }
  }

  lemma {:induction false} SumWithout(l: seq<Node>, k: nat)
    requires k < |l|
    ensures Sum(l[..k] + l[k + 1..]) + l[k].index == Sum(l)
    ensures multiset(l[..k] + l[k + 1..]) + multiset{l[k]} == multiset(l)
  {
    assert l == l[..k] + [l[k]] + l[k + 1..];
    if k == 0 {
      assert l[..0] + l[1..] == l[1..];
    } else {
      assert (l[..k] + l[k + 1..])[1..] == l[1..][..k - 1] + l[1..][k..];
      SumWithout(l[1..], k - 1);
    }
  }

  lemma Without(free: seq<seq<Node>>, i: nat, k: nat)
    requires i < |free| && k < |free[i]|
    ensures var rest := free[i := free[i][..k] + free[i][k + 1..]];
      && Bag(rest, |free|) + multiset{free[i][k]} == Bag(free, |free|)
      && Total(rest, |free|) + free[i][k].index == Total(free, |free|)
  {
    var l := free[i][..k] + free[i][k + 1..];
    BagUpdate(free, i, l, |free|);
    TotalUpdate(free, i, l, |free|);
    SumWithout(free[i], k);
    Cancel(Bag(free[i := l], |free|), Bag(free, |free|), multiset(l), multiset{free[i][k]});
  }

  lemma WithoutFirst(free: seq<seq<Node>>, i: nat)
    requires i < |free| && free[i] != []
    ensures var rest := free[i := free[i][1..]];
      && Bag(rest, |free|) + multiset{free[i][0]} == Bag(free, |free|)
      && Total(rest, |free|) + free[i][0].index == Total(free, |free|)
  {
    var n, l := free[i][0], free[i][1..];
    BagUpdate(free, i, l, |free|);
    TotalUpdate(free, i, l, |free|);
    assert free[i] == [n] + l;
    assert multiset(free[i]) == multiset(l) + multiset{n};
    Cancel(Bag(free[i := l], |free|), Bag(free, |free|), multiset(l), multiset{n});
  }

  lemma With(free: seq<seq<Node>>, i: nat, n: Node)
    requires i < |free|
    ensures var more := free[i := [n] + free[i]];
      && Bag(more, |free|) == Bag(free, |free|) + multiset{n}
      && Total(more, |free|) == Total(free, |free|) + n.index
  {
    BagUpdate(free, i, [n] + free[i], |free|);
    TotalUpdate(free, i, [n] + free[i], |free|);
    assert ([n] + free[i])[1..] == free[i];
    assert multiset([n] + free[i]) == multiset(free[i]) + multiset{n};
    Cancel(Bag(free, |free|), Bag(free[i := [n] + free[i]], |free|), multiset(free[i]), multiset{n});
  }

  /** A node that comes from the cache leaves it, and nothing else does. */
  ghost predicate Taken(a: Pool, g: Got) {
    && g.node.Some?
    && Cached(g.pool) + multiset{g.node.value} == Cached(a)
    && Kept(g.pool) + g.node.value.index == Kept(a)
    && g.pool.maxFree == a.maxFree && g.pool.curFree == Credit(a, g.node.value).curFree
  }

  lemma TakeFirstTakes(a: Pool, i: nat)
    requires Indexed(a) && 1 <= i <= a.maxIndex && a.free[i] != []
    ensures Taken(a, TakeFirst(a, i))
  {
    WithoutFirst(a.free, i);
  }

  lemma TakeFromSinkTakes(a: Pool, k: nat)
    requires Indexed(a) && k < |a.free[0]|
    ensures Taken(a, TakeFromSink(a, k))
  {
    Without(a.free, 0, k);
  }

  lemma AllocConserves(a: Pool, inSize: Size, given: Option<int>)
    requires Indexed(a)
    ensures var g := Alloc(a, inSize, given);
      && (g.fromCache ==> Taken(a, g))
      && (!g.fromCache ==> g.pool == a)
      && (!g.fromCache && g.node.Some? ==>
            && BlockSize(inSize).Some? && 1 <= g.node.value.index
            && given == Some(g.node.value.id) && g.node.value.index == IndexOf(BlockSize(inSize).value))
  {
    BlockSizeFits(inSize);
    if BlockSize(inSize).Some? {
      var index := IndexOf(BlockSize(inSize).value);
      if index <= a.maxIndex {
        TakeFirstTakes(a, FirstUsed(a.free, index, a.maxIndex));
      } else if InSink(a.free[0], index) < |a.free[0]| {
        TakeFromSinkTakes(a, InSink(a.free[0], index));
      }
    }
  }

  lemma FreeOneKeepsIndexed(f: Freed, n: Node)
    requires Indexed(f.pool) && 1 <= n.index
    ensures Indexed(FreeOne(f, n).pool)
  {
  }

  lemma FreeOneConserves(f: Freed, n: Node)
    requires |f.pool.free| == MAX_INDEX
    ensures var g := FreeOne(f, n);
      && |g.pool.free| == MAX_INDEX
      && Cached(g.pool) + multiset(g.released) == Cached(f.pool) + multiset(f.released) + multiset{n}
      && g.pool.maxFree == f.pool.maxFree
  {
    With(f.pool.free, if n.index < MAX_INDEX then n.index else 0, n);
    assert multiset([n] + f.released) == multiset{n} + multiset(f.released);
  }

  /** Every node given back is cached or released, none twice and none lost. */
  lemma {:induction false} FreeAllConserves(f: Freed, nodes: seq<Node>)
    requires Indexed(f.pool) && forall k :: 0 <= k < |nodes| ==> 1 <= nodes[k].index
    ensures var g := FreeAll(f, nodes);
      && Indexed(g.pool) && g.pool.maxFree == f.pool.maxFree
      && Cached(g.pool) + multiset(g.released) == Cached(f.pool) + multiset(f.released) + multiset(nodes)
    decreases |nodes|
  {
    if nodes != [] {
      FreeOneKeepsIndexed(f, nodes[0]);
      FreeOneConserves(f, nodes[0]);
      FreeAllConserves(FreeOne(f, nodes[0]), nodes[1..]);
      assert nodes == [nodes[0]] + nodes[1..];
    }
  }

  // ----------------------------------------------------------------- the retention bound

  /** The limit is what is cached and what may still be cached. */
  ghost predicate Retained(a: Pool) {
    a.maxFree != 0 && Kept(a) + a.curFree == a.maxFree
  }

  lemma {:induction false} TotalCovers(free: seq<seq<Node>>, k: nat, n: Node)
    requires k <= |free| && n in Bag(free, k)
    ensures n.index <= Total(free, k)
  {
    if n in Bag(free, k - 1) {
      TotalCovers(free, k - 1, n);
    } else {
      SumCovers(free[k - 1], n);
    }
  }

  lemma {:induction false} SumCovers(l: seq<Node>, n: Node)
    requires n in l
    ensures n.index <= Sum(l)
  {
    if n != l[0] {
      SumCovers(l[1..], n);
    }
  }

  /** An allocation keeps the retention equality; no clamp and no wrap-around happens. */
  lemma AllocRetains(a: Pool, inSize: Size, given: Option<int>)
    requires Indexed(a) && Retained(a)
    ensures var g := Alloc(a, inSize, given);
      && Retained(g.pool)
      && (g.fromCache ==> g.node.Some? && a.curFree + g.node.value.index <= a.maxFree)
  {
    AllocConserves(a, inSize, given);
    var g := Alloc(a, inSize, given);
    if g.fromCache {
      CreditIsExact(a, g.node.value);
    }
  }

  lemma CreditIsExact(a: Pool, n: Node)
    requires a.curFree + n.index <= a.maxFree
    ensures Credit(a, n).curFree == a.curFree + n.index
  {
  }

  lemma FreeOneRetains(f: Freed, n: Node)
    requires |f.pool.free| == MAX_INDEX && Retained(f.pool)
    ensures var g := FreeOne(f, n);
      && Retained(g.pool) && |g.pool.free| == MAX_INDEX
      && (g.released == f.released ==> n.index <= f.pool.curFree)
  {
    With(f.pool.free, if n.index < MAX_INDEX then n.index else 0, n);
  }

  /** A node is given back to the system exactly if the cache would otherwise hold more than the
      limit; with no limit it never is. */
  lemma ReleasedExactly(f: Freed, n: Node)
    requires |f.pool.free| == MAX_INDEX
    ensures f.pool.maxFree == 0 ==> FreeOne(f, n).released == f.released
    ensures Retained(f.pool) ==>
      FreeOne(f, n).released == if f.pool.maxFree < Kept(f.pool) + n.index then [n] + f.released else f.released
  {
  }

  lemma {:induction false} FreeAllRetains(f: Freed, nodes: seq<Node>)
    requires |f.pool.free| == MAX_INDEX && Retained(f.pool)
    ensures Retained(FreeAll(f, nodes).pool)
    decreases |nodes|
  {
    if nodes != [] {
      FreeOneRetains(f, nodes[0]);
      FreeAllRetains(FreeOne(f, nodes[0]), nodes[1..]);
    }
  }

  /** What may still be cached never exceeds the limit; setting a limit, allocating and
      freeing all keep this. */
  predicate Clamped(a: Pool) { a.curFree <= a.maxFree }

  /** What lets a new limit establish the equality: what was cached counted under the old
      one and fits the new one, or nothing is cached. */
  ghost predicate LimitFits(a: Pool, inSize: Size) {
    && Limit(inSize) != 0
    && if a.maxFree <= a.curFree + Limit(inSize) then Kept(a) + a.curFree == a.maxFree else Kept(a) == 0
  }

  /** Setting a limit establishes the equality exactly when it fits. */
  lemma SetLimitRetains(a: Pool, inSize: Size)
    requires Clamped(a)
    ensures Clamped(SetLimit(a, inSize)) && SetLimit(a, inSize).free == a.free
    ensures Retained(SetLimit(a, inSize)) <==> LimitFits(a, inSize)
  {
    var m := Limit(inSize);
    if a.maxFree <= a.curFree + m {
      WrapsBack(a.curFree, m, a.maxFree);
    } else {
      WrapsOnce(a.curFree, m, a.maxFree);
    }
  }

  lemma WrapsBack(cur: UInt, m: UInt, max: UInt)
    requires cur <= max <= cur + m
    ensures ((cur + m) % TWO_32 - max + TWO_32) % TWO_32 == cur + m - max
  {
  }

  lemma WrapsOnce(cur: UInt, m: UInt, max: UInt)
    requires cur + m < max
    ensures ((cur + m) % TWO_32 - max + TWO_32) % TWO_32 == cur + m - max + TWO_32
  {
  }

  /** A limit of 4 GB less at most a block is cut to none. */
  lemma LimitWraps(inSize: Size)
    ensures Limit(inSize) == 0 <==> inSize % TWO_32 == 0 || TWO_32 - BOUNDARY_SIZE < inSize % TWO_32
  {
  }

  /** The limit covers what was asked for exactly up to the last block below 4 GB, and then by
      less than a block. */
  lemma LimitCovers(inSize: Size)
    ensures inSize <= Limit(inSize) * BOUNDARY_SIZE <==> inSize <= TWO_32 - BOUNDARY_SIZE
    ensures inSize <= TWO_32 - BOUNDARY_SIZE ==> Limit(inSize) * BOUNDARY_SIZE < inSize + BOUNDARY_SIZE
  {
  }

  /** 4 GB less one byte becomes no limit, and 5 GB becomes 1 GB. */
  lemma LimitCutExamples()
    ensures Limit(0xFFFF_FFFF) == 0 && Limit(0x1_4000_0000) == Limit(0x4000_0000) == 0x80_0000
  {
  }

  // -------------------------------------------------------------------------- whole runs

  /** out holds the nodes that callers hold. */
  datatype State = State(pool: Pool, out: multiset<Node>)

  datatype Event =
    | AllocEvent(inSize: Size, given: Option<int>)
    | FreeEvent(nodes: seq<Node>)
    | LimitEvent(inSize: Size)

  function Live(s: State): multiset<Node> { Cached(s.pool) + s.out }

  /** No two nodes share an address, and none is held twice. */
  ghost predicate Distinct(b: multiset<Node>) {
    && (forall n :: b[n] <= 1)
    && forall m, n :: m in b && n in b && m.id == n.id ==> m == n
  }

  ghost predicate Inv(s: State) {
    && Indexed(s.pool)
    && Distinct(Live(s))
    && (forall n :: n in s.out ==> 1 <= n.index)
    && Clamped(s.pool)
  }

  /** malloc gives an address that is not in use, and callers give back what they hold. */
  ghost predicate Enabled(s: State, e: Event) {
    match e
    case AllocEvent(_, given) => given.Some? ==> forall n :: n in Live(s) ==> n.id != given.value
    case FreeEvent(nodes) => multiset(nodes) <= s.out
    case LimitEvent(_) => true
  }

  ghost function Step(s: State, e: Event): State
    requires Inv(s) && Enabled(s, e)
  {
    match e
    case AllocEvent(inSize, given) =>
      var g := Alloc(s.pool, inSize, given);
      State(g.pool, if g.node.Some? then s.out + multiset{g.node.value} else s.out)
    case FreeEvent(nodes) =>
      State(FreeAll(Freed(s.pool, []), nodes).pool, s.out - multiset(nodes))
    case LimitEvent(inSize) => s.(pool := SetLimit(s.pool, inSize))
  }

  lemma AllocStepKeepsInv(s: State, inSize: Size, given: Option<int>)
    requires Inv(s) && Enabled(s, AllocEvent(inSize, given))
    ensures Inv(Step(s, AllocEvent(inSize, given)))
  {
    var g := Alloc(s.pool, inSize, given);
    AllocConserves(s.pool, inSize, given);
    AllocIsBigEnough(s.pool, inSize, given);
    var t := Step(s, AllocEvent(inSize, given));
    if g.fromCache {
      assert Live(t) == Live(s);
      CachedHasIndex(s.pool, g.node.value);
    } else if g.node.Some? {
      assert Live(t) == Live(s) + multiset{g.node.value};
    }
  }

  lemma {:induction false} BagHas(free: seq<seq<Node>>, k: nat, n: Node)
    requires k <= |free|
    ensures n in Bag(free, k) <==> exists i :: 0 <= i < k && n in free[i]
  {
    if k != 0 {
      BagHas(free, k - 1, n);
    }
  }

  lemma CachedHasIndex(a: Pool, n: Node)
    requires Indexed(a) && n in Cached(a)
    ensures 1 <= n.index
  {
    BagHas(a.free, |a.free|, n);
  }

  lemma FreeStepKeepsInv(s: State, nodes: seq<Node>)
    requires Inv(s) && Enabled(s, FreeEvent(nodes))
    ensures Inv(Step(s, FreeEvent(nodes)))
  {
    var f := FreeAll(Freed(s.pool, []), nodes);
    forall k | 0 <= k < |nodes|
      ensures 1 <= nodes[k].index
    {
      assert nodes[k] in multiset(nodes);
    }
    FreeAllConserves(Freed(s.pool, []), nodes);
    FreeAllKeepsClamped(Freed(s.pool, []), nodes);
    var t := Step(s, FreeEvent(nodes));
    GiveBack(Cached(f.pool), multiset(f.released), Cached(s.pool), multiset(nodes), s.out);
    Fewer(Live(t), multiset(f.released), Live(s));
  }

  lemma GiveBack<T>(a: multiset<T>, r: multiset<T>, c: multiset<T>, m: multiset<T>, o: multiset<T>)
    requires a + r == c + multiset{} + m && m <= o
    ensures (a + (o - m)) + r == c + o
  {
    assert a + r == c + m;
    assert (a + (o - m)) + r == (a + r) + (o - m);
    assert (o - m) + m == o;
    assert (c + m) + (o - m) == c + o;
  }

  lemma Fewer(a: multiset<Node>, b: multiset<Node>, c: multiset<Node>)
    requires a + b == c && Distinct(c)
    ensures Distinct(a)
  {
    assert forall n :: a[n] <= c[n];
    assert forall n :: n in a ==> n in c;
  }

  lemma {:induction false} FreeAllKeepsClamped(f: Freed, nodes: seq<Node>)
    requires |f.pool.free| == MAX_INDEX && Clamped(f.pool)
    ensures Clamped(FreeAll(f, nodes).pool)
    decreases |nodes|
  {
    if nodes != [] {
      FreeAllKeepsClamped(FreeOne(f, nodes[0]), nodes[1..]);
    }
  }

  lemma StepKeepsInv(s: State, e: Event)
    requires Inv(s) && Enabled(s, e)
    ensures Inv(Step(s, e))
  {
    match e
    case AllocEvent(inSize, given) => AllocStepKeepsInv(s, inSize, given);
    case FreeEvent(nodes) => FreeStepKeepsInv(s, nodes);
    case LimitEvent(inSize) => SetLimitRetains(s.pool, inSize);
  }

  ghost predicate Runs(s: State, es: seq<Event>)
    requires Inv(s)
    decreases |es|
  {
    es == [] || (Enabled(s, es[0]) && (StepKeepsInv(s, es[0]); Runs(Step(s, es[0]), es[1..])))
  }

  ghost function Run(s: State, es: seq<Event>): (t: State)
    requires Inv(s) && Runs(s, es)
    ensures Inv(t)
    decreases |es|
  {
    if es == [] then s
    else
      StepKeepsInv(s, es[0]);
      Run(Step(s, es[0]), es[1..])
  }

  lemma {:induction false} BagOfNone(free: seq<seq<Node>>, k: nat)
    requires k <= |free| && forall i :: 0 <= i < k ==> free[i] == []
    ensures Bag(free, k) == multiset{} && Total(free, k) == 0
  {
    if k != 0 {
      BagOfNone(free, k - 1);
    }
  }

  lemma NewIsEmpty()
    ensures Kept(New()) == 0
  {
    BagOfNone(New().free, MAX_INDEX);
  }

  lemma NewIsInv()
    ensures Inv(State(New(), multiset{})) && Kept(New()) == 0
  {
    BagOfNone(New().free, MAX_INDEX);
  }

  /** A new allocator, of which nothing is held. */
  ghost function Start(): (s: State)
    ensures Inv(s)
  {
    NewIsInv();
    State(New(), multiset{})
  }

  lemma TakenIsNotHeld(rest: multiset<Node>, n: Node, cached: multiset<Node>, out: multiset<Node>)
    requires rest + multiset{n} == cached && Distinct(cached + out)
    ensures forall m :: m in out ==> m.id != n.id
  {
    assert n in cached && n in cached + out;
    forall m | m in out
      ensures m.id != n.id
    {
      assert m in cached + out;
      assert (cached + out)[n] == cached[n] + out[n];
    }
  }

  /** A node handed out is large enough and is not one that a caller still holds. */
  lemma NotHeld(s: State, inSize: Size, given: Option<int>)
    requires Inv(s) && Enabled(s, AllocEvent(inSize, given))
    ensures var g := Alloc(s.pool, inSize, given);
      g.node.Some? ==> inSize <= Room(g.node.value) && forall n :: n in s.out ==> n.id != g.node.value.id
  {
    var g := Alloc(s.pool, inSize, given);
    AllocIsBigEnough(s.pool, inSize, given);
    AllocConserves(s.pool, inSize, given);
    if g.fromCache {
      TakenIsNotHeld(Cached(g.pool), g.node.value, Cached(s.pool), s.out);
    } else if g.node.Some? {
      assert forall n :: n in s.out ==> n in Live(s);
    }
  }

  /** So it is after every run from a new allocator. */
  lemma NoNodeTwice(es: seq<Event>, inSize: Size, given: Option<int>)
    requires Runs(Start(), es) && Enabled(Run(Start(), es), AllocEvent(inSize, given))
    ensures var s := Run(Start(), es);
      var g := Alloc(s.pool, inSize, given);
      g.node.Some? ==> inSize <= Room(g.node.value) && forall n :: n in s.out ==> n.id != g.node.value.id
  {
    NotHeld(Run(Start(), es), inSize, given);
  }

  predicate NoLimit(es: seq<Event>) { forall i :: 0 <= i < |es| ==> !es[i].LimitEvent? }

  lemma StepRetains(s: State, e: Event)
    requires Inv(s) && Retained(s.pool) && Enabled(s, e) && !e.LimitEvent?
    ensures Retained(Step(s, e).pool) && Step(s, e).pool.maxFree == s.pool.maxFree
  {
    match e
    case AllocEvent(inSize, given) =>
      AllocRetains(s.pool, inSize, given);
      AllocConserves(s.pool, inSize, given);
    case FreeEvent(nodes) =>
      FreeAllRetains(Freed(s.pool, []), nodes);
      FreeAllKeepsLimit(Freed(s.pool, []), nodes);
  }

  /** Once the equality holds, every run without another change of the limit keeps it, so
      the cache never holds more than the limit. */
  lemma {:induction false} RunRetains(s: State, es: seq<Event>)
    requires Inv(s) && Retained(s.pool) && Runs(s, es) && NoLimit(es)
    ensures var a := Run(s, es).pool;
      Retained(a) && a.maxFree == s.pool.maxFree && Kept(a) <= s.pool.maxFree
    decreases |es|
  {
    if es != [] {
      StepKeepsInv(s, es[0]);
      StepRetains(s, es[0]);
      RunRetains(Step(s, es[0]), es[1..]);
    }
  }

  lemma {:induction false} FreeAllKeepsLimit(f: Freed, nodes: seq<Node>)
    requires |f.pool.free| == MAX_INDEX
    ensures FreeAll(f, nodes).pool.maxFree == f.pool.maxFree
    decreases |nodes|
  {
    if nodes != [] {
      FreeAllKeepsLimit(FreeOne(f, nodes[0]), nodes[1..]);
    }
  }

  /** The run goes on after the limit is set in s. */
  ghost predicate RunsLimited(s: State, inSize: Size, later: seq<Event>)
    requires Inv(s)
  {
    StepKeepsInv(s, LimitEvent(inSize));
    Runs(Step(s, LimitEvent(inSize)), later) && NoLimit(later)
  }

  ghost function RunLimited(s: State, inSize: Size, later: seq<Event>): Pool
    requires Inv(s) && RunsLimited(s, inSize, later)
  {
    StepKeepsInv(s, LimitEvent(inSize));
    Run(Step(s, LimitEvent(inSize)), later).pool
  }

  lemma LimitThenRetains(s: State, inSize: Size, later: seq<Event>)
    requires Inv(s) && RunsLimited(s, inSize, later) && LimitFits(s.pool, inSize)
    ensures var a := RunLimited(s, inSize, later);
      Retained(a) && a.maxFree == Limit(inSize) && Kept(a) <= Limit(inSize)
  {
    SetLimitRetains(s.pool, inSize);
    StepKeepsInv(s, LimitEvent(inSize));
    RunRetains(Step(s, LimitEvent(inSize)), later);
  }

  /** A limit set at any point of any run from a new allocator: the equality holds at once
      exactly if the limit fits, and then it holds from then on. */
  lemma LimitRetainsIff(es: seq<Event>, inSize: Size, later: seq<Event>)
    requires Runs(Start(), es) && RunsLimited(Run(Start(), es), inSize, later)
    ensures var s := Run(Start(), es);
      && (Retained(SetLimit(s.pool, inSize)) <==> LimitFits(s.pool, inSize))
      && (LimitFits(s.pool, inSize) ==>
            var a := RunLimited(s, inSize, later);
            Retained(a) && a.maxFree == Limit(inSize) && Kept(a) <= Limit(inSize))
  {
    var s := Run(Start(), es);
    SetLimitRetains(s.pool, inSize);
    if LimitFits(s.pool, inSize) {
      LimitThenRetains(s, inSize, later);
    }
  }

  /** What is cached and what may still be. */
  function Ceiling(a: Pool): nat { Kept(a) + a.curFree }

  lemma {:induction false} FreeAllCeiling(f: Freed, nodes: seq<Node>)
    requires |f.pool.free| == MAX_INDEX && f.pool.maxFree != 0
    ensures Ceiling(FreeAll(f, nodes).pool) == Ceiling(f.pool)
    decreases |nodes|
  {
    if nodes != [] {
      var n := nodes[0];
      With(f.pool.free, if n.index < MAX_INDEX then n.index else 0, n);
      FreeAllCeiling(FreeOne(f, n), nodes[1..]);
    }
  }

  lemma AllocCeiling(a: Pool, inSize: Size, given: Option<int>)
    requires Indexed(a)
    ensures var b := Alloc(a, inSize, given).pool;
      Ceiling(b) <= Ceiling(a) && b.maxFree == a.maxFree
  {
    AllocConserves(a, inSize, given);
    var g := Alloc(a, inSize, given);
    if g.fromCache {
      CreditAtMost(a, g.node.value);
    }
  }

  lemma CreditAtMost(a: Pool, n: Node)
    ensures Credit(a, n).curFree <= a.curFree + n.index
  {
  }

  lemma StepCeiling(s: State, e: Event)
    requires Inv(s) && Enabled(s, e) && !e.LimitEvent? && s.pool.maxFree != 0
    ensures Ceiling(Step(s, e).pool) <= Ceiling(s.pool) && Step(s, e).pool.maxFree == s.pool.maxFree
  {
    match e
    case AllocEvent(inSize, given) => AllocCeiling(s.pool, inSize, given);
    case FreeEvent(nodes) =>
      FreeAllCeiling(Freed(s.pool, []), nodes);
      FreeAllKeepsLimit(Freed(s.pool, []), nodes);
  }

  /** Under a limit, whether or not the equality holds, the cache never grows beyond what it
      held and might still take when the limit was set. */
  lemma {:induction false} RunCeiling(s: State, es: seq<Event>)
    requires Inv(s) && s.pool.maxFree != 0 && Runs(s, es) && NoLimit(es)
    ensures Kept(Run(s, es).pool) <= Ceiling(Run(s, es).pool) <= Ceiling(s.pool)
    decreases |es|
  {
    if es != [] {
      StepKeepsInv(s, es[0]);
      StepCeiling(s, es[0]);
      RunCeiling(Step(s, es[0]), es[1..]);
    }
  }

  lemma OneCached(f: Freed, n: Node)
    requires |f.pool.free| == MAX_INDEX && Kept(f.pool) == 0 && f.pool.maxFree == f.pool.curFree == 0 && n.index == 1
    ensures var a := FreeOne(f, n).pool; a.maxFree == a.curFree == 0 && Kept(a) == 1
  {
    With(f.pool.free, 1, n);
  }

  lemma LimitOverOneCached(a: Pool)
    requires a.maxFree == a.curFree == 0 && Kept(a) == 1
    ensures var b := SetLimit(a, 512);
      b.maxFree == b.curFree == 4 && Kept(b) == 1 && !Retained(b)
  {
    assert Limit(512) == 4;
  }

  lemma FirstAlloc(inSize: Size, id: int)
    requires inSize <= 216
    ensures Alloc(New(), inSize, Some(id)) == Got(New(), Some(Node(id, 1)), false)
  {
    assert BlockSize(inSize) == Some(256);
  }

  /** After a request for 100 bytes and its release, a limit of four blocks does not count
      the node in the cache. */
  lemma LimitSetWhileCaching(g: Got, a: Pool, b: Pool)
    requires g == Alloc(New(), 100, Some(0)) && g.node.Some?
    requires a == FreeOne(Freed(g.pool, []), g.node.value).pool && b == SetLimit(a, 512)
    ensures b.maxFree == b.curFree == 4 && Kept(b) == 1 && !Retained(b)
  {
    FirstAlloc(100, 0);
    NewIsEmpty();
    OneCached(Freed(g.pool, []), g.node.value);
    LimitOverOneCached(a);
  }

  // ------------------------------------------------------------------- the code in place

  /** struct allocator_t. */
  class NodeAllocator {
    var maxIndex: nat
    var maxFree: UInt
    var curFree: UInt
    var free: seq<seq<Node>>

    function Abs(): Pool
      reads this
    {
      Pool(maxIndex, maxFree, curFree, free)
    }

    /** common/memory/allocator.c:60-75. */
    constructor ()
      ensures Abs() == New()
    {
      maxIndex, maxFree, curFree, free := 0, 0, 0, seq(MAX_INDEX, _ => []);
    }

    /** common/memory/allocator.c:107-132. */
    method MaxFreeSet(inSize: Size)
      modifies this
      ensures Abs() == SetLimit(old(Abs()), inSize)
    {
      var m := Limit(inSize);
      curFree := (curFree + m) % TWO_32;
      curFree := (curFree - maxFree + TWO_32) % TWO_32;
      maxFree := m;
      if m < curFree {
        curFree := m;
      }
    }

    /** common/memory/allocator.c:203-205 and 243-245. */
    method AddCredit(n: Node)
      modifies this`curFree
      ensures Abs() == Credit(old(Abs()), n)
    {
      curFree := (curFree + n.index) % TWO_32;
      if maxFree < curFree {
        curFree := maxFree;
      }
    }

    /** common/memory/allocator.c:179-216. */
    method FromSlots(index: nat) returns (node: Option<Node>)
      requires Indexed(Abs()) && 1 <= index <= maxIndex
      modifies this
      ensures var i := FirstUsed(old(free), index, old(maxIndex));
        old(free)[i] != [] && Abs() == TakeFirst(old(Abs()), i).pool && node == Some(old(free)[i][0])
    {
      var max, i := maxIndex, index;
      while free[i] == [] && i < max
        invariant index <= i <= max
        invariant FirstUsed(free, i, max) == FirstUsed(free, index, max)
      {
        i := i + 1;
      }
      var n := free[i][0];
      free := free[i := free[i][1..]];
      if free[i] == [] && max <= i {
        max := max - 1;
        while free[max] == [] && 0 < max
          invariant 0 <= max < maxIndex
          invariant NewMax(free, maxIndex) == if free[max] == [] && 0 < max then NewMax(free, max) else max
        {
          max := max - 1;
        }
        maxIndex := max;
      }
      AddCredit(n);
      node := Some(n);
    }

    /** common/memory/allocator.c:236-256. */
    method FromSink(index: nat) returns (node: Option<Node>)
      requires Indexed(Abs())
      modifies this
      ensures var k := InSink(old(free)[0], index);
        if k < |old(free)[0]| then Abs() == TakeFromSink(old(Abs()), k).pool && node == Some(old(free)[0][k])
        else Abs() == old(Abs()) && node == None
    {
      var l, k := free[0], 0;
      assert l[0..] == l;
      while k < |l| && l[k].index < index
        invariant k <= |l|
        invariant InSink(l, index) == k + InSink(l[k..], index)
      {
        assert l[k..][1..] == l[k + 1..];
        k := k + 1;
      }
      if k == |l| {
        return None;
      }
      free := free[0 := l[..k] + l[k + 1..]];
      AddCredit(l[k]);
      node := Some(l[k]);
    }

    /** common/memory/allocator.c:134-276. */
    method InAlloc(inSize: Size, given: Option<int>) returns (node: Option<Node>)
      requires Indexed(Abs())
      modifies this
      ensures Abs() == Alloc(old(Abs()), inSize, given).pool
      ensures node == Alloc(old(Abs()), inSize, given).node
    {
      var size := BlockSize(inSize);
      if size.None? {
        return None;
      }
      BlockSizeFits(inSize);
      var index := IndexOf(size.value);
      if index <= maxIndex {
        node := FromSlots(index);
        return;
      } else if free[0] != [] {
        node := FromSink(index);
        if node.Some? {
          return;
        }
      }
      match given
      case None => node := None;
      case Some(id) => node := Some(Node(id, index));
    }

    /** common/memory/allocator.c:278-346. */
    method InFree(nodes: seq<Node>) returns (released: seq<Node>)
      requires |free| == MAX_INDEX
      modifies this
      ensures Abs() == FreeAll(Freed(old(Abs()), []), nodes).pool
      ensures released == FreeAll(Freed(old(Abs()), []), nodes).released
    {
      released := [];
      var k := 0;
      assert nodes[0..] == nodes;
      while k < |nodes|
        invariant k <= |nodes| && |free| == MAX_INDEX
        invariant FreeAll(Freed(Abs(), released), nodes[k..]) == FreeAll(Freed(old(Abs()), []), nodes)
      {
        var n := nodes[k];
        assert nodes[k..][0] == n && nodes[k..][1..] == nodes[k + 1..];
        if maxFree != 0 && curFree < n.index {
          released := [n] + released;
        } else if n.index < MAX_INDEX {
          if free[n.index] == [] && maxIndex < n.index {
            maxIndex := n.index;
          }
          free := free[n.index := [n] + free[n.index]];
          curFree := if n.index <= curFree then curFree - n.index else 0;
        } else {
          free := free[0 := [n] + free[0]];
          curFree := if n.index <= curFree then curFree - n.index else 0;
        }
        k := k + 1;
      }
    }
  }
}
