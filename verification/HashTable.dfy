module HashTable {
  /* The chained hash table (common/misc/hash.c), with its chains at the level of pointers.

     The heap is a map from addresses to entries. Each chain is described by the sequence
     of its addresses; the code never looks at these sequences. */

  type Byte = b: int | 0 <= b < 256
  type Key = seq<Byte>
  type Val = int
  type Ptr = nat
  const NULL: Ptr := 0

  const TWO_32: nat := 0x1_0000_0000
  const INITIAL_MAX: nat := 15

  datatype Option<T> = None | Some(value: T)

  // --------------------------------------------------------------- the hash function

  /** common/misc/hash.c:132-141: one turn of the fold, on 32 bits. */
  function Mix(hash: nat, b: Byte): nat { (hash * 33 + b) % TWO_32 }

  function HashOf(key: Key): (h: nat)
    ensures h < TWO_32
  {
    if key == [] then 0 else Mix(HashOf(key[..|key| - 1]), key[|key| - 1])
  }

  /** The bytes of a C string. */
  predicate IsString(buf: seq<Byte>, n: nat) {
    n < |buf| && buf[n] == 0 && forall i :: 0 <= i < n ==> buf[i] != 0
  }

  /** common/misc/hash.c:124-145; klen -1 is HASH_KEY_STRING. */
  method HashDefault(buf: seq<Byte>, klen: int) returns (hash: nat, klen': nat)
    requires (klen == -1 && exists n: nat :: IsString(buf, n)) || 0 <= klen <= |buf|
    ensures if klen == -1 then IsString(buf, klen') else klen' == klen
    ensures klen' <= |buf| && hash == HashOf(buf[..klen'])
  {
    hash := 0;
    var p := 0;
    if klen == -1 {
      ghost var n: nat :| IsString(buf, n);
      while buf[p] != 0
        invariant p <= n && hash == HashOf(buf[..p])
        decreases n - p
      {
        assert buf[..p + 1][..p] == buf[..p];
        hash := Mix(hash, buf[p]);
        p := p + 1;
      }
    } else {
      var i := klen;
      while i != 0
        invariant 0 <= i && p + i == klen && hash == HashOf(buf[..p])
        decreases i
      {
        assert buf[..p + 1][..p] == buf[..p];
        hash := Mix(hash, buf[p]);
        i := i - 1;
        p := p + 1;
      }
    }
    klen' := p;
  }

  // ------------------------------------------------------------------- memory

  datatype Entry = Entry(next: Ptr, hash: nat, key: Key, val: Val)

  type Heap = map<Ptr, Entry>

  /** slots is the array, of max + 1 members; free is the list of entries to use again. */
  datatype Table = Table(heap: Heap, slots: seq<Ptr>, count: int, free: Ptr, hashFunc: Key -> nat)

  /** What an entry pointer is stored in: a slot of the array or the next of an entry. */
  datatype Ref = Slot(i: nat) | NextOf(p: Ptr)

  /** hash & max, where size is max + 1, a power of two (MaskIsSlot): the remainder by size. */
  function SlotOf(hash: nat, size: nat): (i: nat)
    requires 0 < size
    ensures i < size
    decreases hash
  {
    if hash < size then hash else SlotOf(hash - size, size)
  }

  function Pow2(k: nat): (n: nat)
    ensures 0 < n
  {
    if k == 0 then 1 else 2 * Pow2(k - 1)
  }

  ghost predicate PowerOfTwo(n: nat) { exists k: nat :: n == Pow2(k) }

  lemma Doubled(n: nat)
    requires PowerOfTwo(n)
    ensures PowerOfTwo(2 * n)
  {
    var k: nat :| n == Pow2(k);
    assert Pow2(k + 1) == 2 * n;
  }

  lemma SixteenIsPower()
    ensures PowerOfTwo(INITIAL_MAX + 1)
  {
    assert Pow2(2) == 4;
    assert Pow2(4) == 16;
  }

  /** The bitwise and of two numbers, from the lowest bit up. */
  function And(a: nat, b: nat): nat {
    if a == 0 || b == 0 then 0
    else 2 * And(a / 2, b / 2) + if a % 2 == 1 && b % 2 == 1 then 1 else 0
  }

  lemma Regroup(n: nat, q: nat, r: nat, h: nat, bit: nat)
    requires h == 2 * (n * q + r) + bit
    ensures h == (2 * n) * q + (2 * r + bit)
  {
  }

  /** The mask keeps the lowest k bits. */
  lemma {:induction false} MaskSplits(hash: nat, k: nat) returns (q: nat)
    ensures var low := And(hash, Pow2(k) - 1); hash == Pow2(k) * q + low && low < Pow2(k)
  {
    if k == 0 {
      q := hash;
    } else {
      var size := Pow2(k - 1);
      q := MaskSplits(hash / 2, k - 1);
      assert (2 * size - 1) / 2 == size - 1 && (2 * size - 1) % 2 == 1;
      AndStep(hash, 2 * size - 1);
      Regroup(size, q, And(hash / 2, size - 1), hash, hash % 2);
    }
  }

  lemma AndStep(a: nat, b: nat)
    requires b % 2 == 1
    ensures And(a, b) == 2 * And(a / 2, b / 2) + a % 2
  {
  }

  lemma SameRemainder(n: nat, q: nat, r: nat, p: nat, s: nat)
    requires n * q + r == n * p + s && r < n && s < n
    ensures r == s
  {
    if q < p {
      Larger(n, q, p - q);
    } else if p < q {
      Larger(n, p, q - p);
    }
  }

  lemma Larger(n: nat, q: nat, k: nat)
    requires 1 <= k
    ensures n * (q + k) >= n * q + n
  {
    assert n * (q + k) == n * q + n * k;
  }

  /** For an array of a power of two slots, hash & max is the remainder. */
  lemma MaskIsSlot(hash: nat, size: nat)
    requires 0 < size && PowerOfTwo(size)
    ensures And(hash, size - 1) == SlotOf(hash, size)
  {
    var k: nat :| size == Pow2(k);
    var q := MaskSplits(hash, k);
    SlotIsRemainder(hash, size);
    var p: nat :| hash == size * p + SlotOf(hash, size);
    SameRemainder(size, q, And(hash, size - 1), p, SlotOf(hash, size));
  }

  lemma {:induction false} SlotIsRemainder(hash: nat, size: nat)
    requires 0 < size
    ensures exists q: nat :: hash == size * q + SlotOf(hash, size)
    decreases hash
  {
    if hash < size {
      assert hash == size * 0 + SlotOf(hash, size);
    } else {
      SlotIsRemainder(hash - size, size);
      var q: nat :| hash - size == size * q + SlotOf(hash - size, size);
      assert hash == size * (q + 1) + SlotOf(hash, size);
    }
  }

  predicate Refers(t: Table, r: Ref) {
    match r
    case Slot(i) => i < |t.slots|
    case NextOf(p) => p in t.heap
  }

  function Load(t: Table, r: Ref): Ptr
    requires Refers(t, r)
  {
    match r
    case Slot(i) => t.slots[i]
    case NextOf(p) => t.heap[p].next
  }

  function Assign(t: Table, r: Ref, q: Ptr): Table
    requires Refers(t, r)
  {
    match r
    case Slot(i) => t.(slots := t.slots[i := q])
    case NextOf(p) => t.(heap := t.heap[p := t.heap[p].(next := q)])
  }

  /** chain lists the entries that are met from p to the end. */
  predicate Linked(heap: Heap, p: Ptr, chain: seq<Ptr>)
    decreases |chain|
  {
    if chain == [] then p == NULL
    else p == chain[0] && p != NULL && p in heap && Linked(heap, heap[p].next, chain[1..])
  }

  lemma {:induction false} LinkedFrame(heap: Heap, p: Ptr, chain: seq<Ptr>, x: Ptr, e: Entry)
    requires Linked(heap, p, chain) && x !in chain
    ensures Linked(heap[x := e], p, chain)
    decreases |chain|
  {
    if chain != [] {
      LinkedFrame(heap, heap[p].next, chain[1..], x, e);
    }
  }

  /** The place where the k-th entry of a chain that starts in slot i is stored. */
  function RefAt(i: nat, chain: seq<Ptr>, k: nat): Ref
    requires k <= |chain|
  {
    if k == 0 then Slot(i) else NextOf(chain[k - 1])
  }

  lemma {:induction false} LinkedAt(heap: Heap, p: Ptr, chain: seq<Ptr>, k: nat)
    requires Linked(heap, p, chain) && k <= |chain|
    ensures forall j :: 0 <= j < |chain| ==> chain[j] in heap && chain[j] != NULL
    ensures 0 < k ==> heap[chain[k - 1]].next == if k < |chain| then chain[k] else NULL
    ensures k == 0 ==> p == if 0 < |chain| then chain[0] else NULL
    ensures Linked(heap, if k < |chain| then chain[k] else NULL, chain[k..])
    decreases |chain|
  {
    if chain != [] {
      if k == 0 {
        LinkedAt(heap, heap[p].next, chain[1..], 0);
        assert chain[0..] == chain;
      } else {
        LinkedAt(heap, heap[p].next, chain[1..], k - 1);
        assert chain[1..][k - 1..] == chain[k..];
      }
    }
  }

  /** Making the k-th place of a chain point to another linked tail cuts the chain there. */
  lemma {:induction false} Splice(heap: Heap, p: Ptr, chain: seq<Ptr>, k: nat, q: Ptr, tail: seq<Ptr>)
    requires Linked(heap, p, chain) && 0 < k <= |chain|
    requires Linked(heap, q, tail)
    requires chain[k - 1] !in tail && chain[k - 1] !in chain[..k - 1]
    ensures var x := chain[k - 1];
      x in heap && Linked(heap[x := heap[x].(next := q)], p, chain[..k] + tail)
    decreases |chain|
  {
    var x := chain[k - 1];
    LinkedAt(heap, p, chain, 0);
    if k == 1 {
      LinkedFrame(heap, q, tail, x, heap[x].(next := q));
      assert (chain[..1] + tail)[1..] == tail;
    } else {
      assert chain[1..][k - 2] == x && chain[1..][..k - 2] == chain[..k - 1][1..];
      Splice(heap, heap[p].next, chain[1..], k - 1, q, tail);
      assert (chain[..k] + tail)[1..] == chain[1..][..k - 1] + tail;
      assert x != p;
    }
  }

  // ------------------------------------------------------------------ the invariant

  type Chains = seq<seq<Ptr>>

  predicate AllIn(heap: Heap, chain: seq<Ptr>) {
    forall a :: 0 <= a < |chain| ==> chain[a] in heap
  }

  /** The keys of a chain differ, so its entries do. */
  predicate KeysDiffer(heap: Heap, chain: seq<Ptr>)
    requires AllIn(heap, chain)
  {
    forall a, b :: 0 <= a < b < |chain| ==> heap[chain[a]].key != heap[chain[b]].key
  }

  /** The entry belongs in slot i. */
  predicate At(t: Table, i: int, p: Ptr) {
    && 0 < |t.slots| && p in t.heap
    && t.heap[p].hash == t.hashFunc(t.heap[p].key)
    && SlotOf(t.heap[p].hash, |t.slots|) == i
  }

  /** The chain of slot i: it is linked, its entries belong there, and their keys differ. */
  predicate Good(t: Table, i: nat, chain: seq<Ptr>) {
    && i < |t.slots|
    && Linked(t.heap, t.slots[i], chain)
    && (forall a :: 0 <= a < |chain| ==> At(t, i, chain[a]))
    && AllIn(t.heap, chain)
    && KeysDiffer(t.heap, chain)
  }

  ghost predicate Chained(t: Table, c: Chains) {
    && |c| == |t.slots| && 0 < |c|
    && forall i :: 0 <= i < |c| ==> Good(t, i, c[i])
  }

  predicate NoDup(l: seq<Ptr>) {
    forall a, b :: 0 <= a < b < |l| ==> l[a] != l[b]
  }

  predicate Disjoint(l: seq<Ptr>, f: seq<Ptr>) {
    forall a :: 0 <= a < |l| ==> l[a] !in f
  }

  ghost predicate FreeListed(t: Table, c: Chains, f: seq<Ptr>) {
    && Linked(t.heap, t.free, f) && NoDup(f)
    && forall i :: 0 <= i < |c| ==> Disjoint(c[i], f)
  }

  /** The value that a walk along the chain finds for a key. */
  function Look(heap: Heap, chain: seq<Ptr>, k: Key): Option<Val>
    requires AllIn(heap, chain)
  {
    if chain == [] then None
    else if heap[chain[0]].key == k then Some(heap[chain[0]].val)
    else Look(heap, chain[1..], k)
  }

  function Lookup(m: map<Key, Val>, k: Key): Option<Val> {
    if k in m then Some(m[k]) else None
  }

  function Home(t: Table, k: Key): nat
    requires 0 < |t.slots|
  {
    SlotOf(t.hashFunc(k), |t.slots|)
  }

  /** The table holds what m holds: the same value for every key, and the same count. */
  ghost predicate Holds(t: Table, c: Chains, m: map<Key, Val>)
    requires Chained(t, c)
  {
    && (forall k :: Look(t.heap, c[Home(t, k)], k) == Lookup(m, k))
    && t.count == |m|
  }

  ghost predicate Valid(t: Table, c: Chains, f: seq<Ptr>, m: map<Key, Val>) {
    Chained(t, c) && FreeListed(t, c, f) && Holds(t, c, m)
  }

  // ------------------------------------------------------------- chains left alone

  /** The entries of the chain are the same in both heaps. */
  predicate Same(g: Heap, h: Heap, chain: seq<Ptr>) {
    forall a :: 0 <= a < |chain| ==> chain[a] in g && chain[a] in h && g[chain[a]] == h[chain[a]]
  }

  lemma {:induction false} SameLinked(g: Heap, h: Heap, p: Ptr, chain: seq<Ptr>)
    requires Linked(g, p, chain) && Same(g, h, chain)
    ensures Linked(h, p, chain)
    decreases |chain|
  {
    if chain != [] {
      assert chain[0] in h;
      SameLinked(g, h, g[p].next, chain[1..]);
    }
  }

  lemma {:induction false} SameLook(g: Heap, h: Heap, chain: seq<Ptr>, k: Key)
    requires Same(g, h, chain) && AllIn(g, chain) && AllIn(h, chain)
    ensures Look(g, chain, k) == Look(h, chain, k)
    decreases |chain|
  {
    if chain != [] {
      SameLook(g, h, chain[1..], k);
    }
  }

  lemma SameGood(t: Table, u: Table, i: nat, chain: seq<Ptr>)
    requires Good(t, i, chain) && Same(t.heap, u.heap, chain)
    requires |u.slots| == |t.slots| && u.slots[i] == t.slots[i] && u.hashFunc == t.hashFunc
    ensures Good(u, i, chain)
  {
    SameLinked(t.heap, u.heap, t.slots[i], chain);
  }

  /** Entries of different chains differ. */
  lemma Elsewhere(t: Table, i: nat, chain: seq<Ptr>, j: nat, p: Ptr)
    requires Good(t, i, chain) && At(t, j, p) && i != j
    ensures p !in chain
  {
  }

  /** What a change of chain i does to the table as a whole. */
  lemma ChangeOne(t: Table, c: Chains, u: Table, i: nat, chain: seq<Ptr>)
    requires Chained(t, c) && i < |c|
    requires |u.slots| == |t.slots| && u.hashFunc == t.hashFunc
    requires forall j :: 0 <= j < |c| && j != i ==> Same(t.heap, u.heap, c[j]) && u.slots[j] == t.slots[j]
    requires Good(u, i, chain)
    ensures Chained(u, c[i := chain])
    ensures forall k :: Home(u, k) == Home(t, k)
    ensures forall k :: Home(t, k) != i ==>
      Look(u.heap, c[i := chain][Home(u, k)], k) == Look(t.heap, c[Home(t, k)], k)
  {
    var d := c[i := chain];
    forall j | 0 <= j < |d|
      ensures Good(u, j, d[j])
    {
      if j != i {
        SameGood(t, u, j, c[j]);
      }
    }
    forall k | Home(t, k) != i
      ensures Look(u.heap, c[i := chain][Home(u, k)], k) == Look(t.heap, c[Home(t, k)], k)
    {
      SameLook(t.heap, u.heap, c[Home(t, k)], k);
    }
  }

  // ------------------------------------------------------------------- replace a value

  /** Line 205. */
  function Replace(t: Table, p: Ptr, val: Val): Table
    requires p in t.heap
  {
    t.(heap := t.heap[p := t.heap[p].(val := val)])
  }

  /** The a-th entry is the first with the key, or there is none and a is the length. */
  predicate FoundAt(heap: Heap, chain: seq<Ptr>, key: Key, a: nat)
    requires AllIn(heap, chain)
  {
    && a <= |chain|
    && (forall b :: 0 <= b < a ==> heap[chain[b]].key != key)
    && (a < |chain| ==> heap[chain[a]].key == key)
  }

  lemma {:induction false} LookFound(heap: Heap, chain: seq<Ptr>, key: Key, a: nat)
    requires AllIn(heap, chain) && FoundAt(heap, chain, key, a)
    ensures Look(heap, chain, key) == if a < |chain| then Some(heap[chain[a]].val) else None
  {
    if 0 < a {
      LookFound(heap, chain[1..], key, a - 1);
    }
  }

  lemma {:induction false} LinkedSameNext(heap: Heap, p: Ptr, chain: seq<Ptr>, x: Ptr, e: Entry)
    requires Linked(heap, p, chain) && x in heap && e.next == heap[x].next
    ensures Linked(heap[x := e], p, chain)
    decreases |chain|
  {
    if chain != [] {
      LinkedSameNext(heap, heap[p].next, chain[1..], x, e);
    }
  }

  lemma {:induction false} LookReplace(heap: Heap, chain: seq<Ptr>, a: nat, val: Val, k: Key)
    requires AllIn(heap, chain) && KeysDiffer(heap, chain) && a < |chain|
    ensures var e := heap[chain[a]];
      var h := heap[chain[a] := e.(val := val)];
      AllIn(h, chain) && Look(h, chain, k) == if k == e.key then Some(val) else Look(heap, chain, k)
  {
    var x, e := chain[a], heap[chain[a]].(val := val);
    if a == 0 {
      SameLook(heap, heap[x := e], chain[1..], k);
    } else {
      assert chain[1..][a - 1] == x;
      LookReplace(heap, chain[1..], a - 1, val, k);
    }
  }

  lemma ReplaceKeepsChained(t: Table, c: Chains, i: nat, a: nat, val: Val)
    requires Chained(t, c) && i < |c| && a < |c[i]|
    ensures Chained(Replace(t, c[i][a], val), c)
  {
    var x := c[i][a];
    var u := Replace(t, x, val);
    LinkedSameNext(t.heap, t.slots[i], c[i], x, u.heap[x]);
    forall j | 0 <= j < |c| && j != i
      ensures Same(t.heap, u.heap, c[j])
    {
      Elsewhere(t, j, c[j], i, x);
    }
    ChangeOne(t, c, u, i, c[i]);
    assert c[i := c[i]] == c;
  }

  lemma ReplaceHolds(t: Table, c: Chains, m: map<Key, Val>, i: nat, a: nat, val: Val)
    requires Chained(t, c) && Holds(t, c, m) && i < |c| && a < |c[i]|
    ensures var u := Replace(t, c[i][a], val);
      Chained(u, c) && Holds(u, c, m[t.heap[c[i][a]].key := val])
  {
    var x := c[i][a];
    var u, key := Replace(t, x, val), t.heap[x].key;
    ReplaceKeepsChained(t, c, i, a, val);
    forall k
      ensures Look(u.heap, c[Home(u, k)], k) == Lookup(m[key := val], k)
    {
      var j := Home(t, k);
      if j == i {
        LookReplace(t.heap, c[i], a, val, k);
      } else {
        Elsewhere(t, j, c[j], i, x);
        SameLook(t.heap, u.heap, c[j], k);
      }
    }
    InMap(t, c, m, i, a);
    assert m[key := val].Keys == m.Keys;
  }

  /** The key of an entry is in the map. */
  lemma InMap(t: Table, c: Chains, m: map<Key, Val>, i: nat, a: nat)
    requires Chained(t, c) && Holds(t, c, m) && i < |c| && a < |c[i]|
    ensures var e := t.heap[c[i][a]]; e.key in m && m[e.key] == e.val && Home(t, e.key) == i
  {
    var e := t.heap[c[i][a]];
    assert At(t, i, c[i][a]);
    assert FoundAt(t.heap, c[i], e.key, a);
    LookFound(t.heap, c[i], e.key, a);
    assert Look(t.heap, c[Home(t, e.key)], e.key) == Lookup(m, e.key);
  }

  lemma ReplaceReplaces(t: Table, c: Chains, f: seq<Ptr>, m: map<Key, Val>, i: nat, a: nat, val: Val)
    requires Valid(t, c, f, m) && i < |c| && a < |c[i]|
    ensures Valid(Replace(t, c[i][a], val), c, f, m[t.heap[c[i][a]].key := val])
  {
    ReplaceHolds(t, c, m, i, a, val);
    var x := c[i][a];
    assert Disjoint(c[i], f);
    LinkedSameNext(t.heap, t.free, f, x, t.heap[x].(val := val));
  }

  // --------------------------------------------------------------------- add an entry

  datatype Cell = Cell(table: Table, p: Ptr)

  /** Lines 167 to 170; given is what malloc returns. */
  function TakeCell(t: Table, given: Ptr): Cell
    requires t.free == NULL || t.free in t.heap
  {
    if t.free != NULL then Cell(t.(free := t.heap[t.free].next), t.free) else Cell(t, given)
  }

  /** Lines 171 to 177. */
  function Fill(t: Table, r: Ref, p: Ptr, key: Key, val: Val): Table
    requires Refers(t, r)
  {
    var u := t.(heap := t.heap[p := Entry(NULL, t.hashFunc(key), key, val)]);
    Assign(u, r, p).(count := t.count + 1)
  }

  lemma {:induction false} LookAppend(heap: Heap, chain: seq<Ptr>, p: Ptr, k: Key)
    requires AllIn(heap, chain) && p in heap
    ensures AllIn(heap, chain + [p])
    ensures Look(heap, chain + [p], k) ==
      if Look(heap, chain, k).Some? then Look(heap, chain, k)
      else if heap[p].key == k then Some(heap[p].val) else None
    decreases |chain|
  {
    if chain != [] {
      LookAppend(heap, chain[1..], p, k);
      assert (chain + [p])[1..] == chain[1..] + [p];
    }
  }

  /** The heap after lines 171 to 176, in a chain whose last place is k. */
  lemma AppendLinks(t: Table, i: nat, chain: seq<Ptr>, p: Ptr, key: Key, val: Val)
    requires Good(t, i, chain) && p !in chain && p != NULL
    ensures var r := RefAt(i, chain, |chain|);
      && Refers(t, r)
      && var u := Fill(t, r, p, key, val);
         Linked(u.heap, u.slots[i], chain + [p])
  {
    LinkedAt(t.heap, t.slots[i], chain, |chain|);
    var h := t.heap[p := Entry(NULL, t.hashFunc(key), key, val)];
    LinkedFrame(t.heap, t.slots[i], chain, p, h[p]);
    if chain == [] {
      assert chain + [p] == [p];
    } else {
      assert chain[..|chain|] == chain;
      Splice(h, t.slots[i], chain, |chain|, p, [p]);
    }
  }

  lemma AppendKeeps(t: Table, i: nat, chain: seq<Ptr>, p: Ptr, key: Key, val: Val)
    requires Good(t, i, chain) && p !in chain && p != NULL && Home(t, key) == i
    requires FoundAt(t.heap, chain, key, |chain|)
    ensures var r := RefAt(i, chain, |chain|);
      && Refers(t, r)
      && var u := Fill(t, r, p, key, val);
      && Good(u, i, chain + [p]) && u.heap[p].key == key && u.heap[p].val == val
      && forall a :: 0 <= a < |chain| ==>
           chain[a] in u.heap && u.heap[chain[a]] == t.heap[chain[a]].(next := u.heap[chain[a]].next)
  {
    AppendLinks(t, i, chain, p, key, val);
    var u := Fill(t, RefAt(i, chain, |chain|), p, key, val);
    forall a | 0 <= a < |chain|
      ensures At(u, i, chain[a]) && u.heap[chain[a]].key == t.heap[chain[a]].key
    {
      assert At(t, i, chain[a]);
    }
  }

  lemma AppendGood(t: Table, i: nat, chain: seq<Ptr>, p: Ptr, key: Key, val: Val)
    requires Good(t, i, chain) && p !in chain && p != NULL && Home(t, key) == i
    requires FoundAt(t.heap, chain, key, |chain|)
    ensures var r := RefAt(i, chain, |chain|);
      && Refers(t, r)
      && var u := Fill(t, r, p, key, val);
      && Good(u, i, chain + [p])
      && forall k :: Look(u.heap, chain + [p], k) == if k == key then Some(val) else Look(t.heap, chain, k)
  {
    AppendKeeps(t, i, chain, p, key, val);
    var u := Fill(t, RefAt(i, chain, |chain|), p, key, val);
    LookFound(t.heap, chain, key, |chain|);
    forall k
      ensures Look(u.heap, chain + [p], k) == if k == key then Some(val) else Look(t.heap, chain, k)
    {
      LookSameBut(t.heap, u.heap, chain, k);
      LookAppend(u.heap, chain, p, k);
    }
  }

  /** Only keys and values matter to a look-up. */
  lemma {:induction false} LookSameBut(g: Heap, h: Heap, chain: seq<Ptr>, k: Key)
    requires AllIn(g, chain) && AllIn(h, chain)
    requires forall a :: 0 <= a < |chain| ==>
      g[chain[a]].key == h[chain[a]].key && g[chain[a]].val == h[chain[a]].val
    ensures Look(g, chain, k) == Look(h, chain, k)
    decreases |chain|
  {
    if chain != [] {
      LookSameBut(g, h, chain[1..], k);
    }
  }

  lemma FillFills(t: Table, c: Chains, m: map<Key, Val>, p: Ptr, key: Key, val: Val)
    requires Chained(t, c) && Holds(t, c, m)
    requires (forall j :: 0 <= j < |c| ==> p !in c[j]) && p != NULL
    requires FoundAt(t.heap, c[Home(t, key)], key, |c[Home(t, key)]|)
    ensures var i := Home(t, key);
      var r := RefAt(i, c[i], |c[i]|);
      && Refers(t, r)
      && var u := Fill(t, r, p, key, val);
      && Chained(u, c[i := c[i] + [p]]) && Holds(u, c[i := c[i] + [p]], m[key := val])
  {
    var i := Home(t, key);
    AppendGood(t, i, c[i], p, key, val);
    var u := Fill(t, RefAt(i, c[i], |c[i]|), p, key, val);
    forall j | 0 <= j < |c| && j != i
      ensures Same(t.heap, u.heap, c[j])
    {
      FillElsewhere(t, c, i, j, p, key, val);
    }
    ChangeOne(t, c, u, i, c[i] + [p]);
    LookFound(t.heap, c[i], key, |c[i]|);
    assert Look(t.heap, c[Home(t, key)], key) == Lookup(m, key);
    assert key !in m;
    assert m[key := val].Keys == m.Keys + {key};
    ChangeHolds(t, c, u, m, m[key := val], i, c[i] + [p], key, Some(val));
  }

  lemma FillElsewhere(t: Table, c: Chains, i: nat, j: nat, p: Ptr, key: Key, val: Val)
    requires Chained(t, c) && i < |c| && j < |c| && i != j && p !in c[j]
    ensures Refers(t, RefAt(i, c[i], |c[i]|))
    ensures Same(t.heap, Fill(t, RefAt(i, c[i], |c[i]|), p, key, val).heap, c[j])
  {
    LinkedAt(t.heap, t.slots[i], c[i], |c[i]|);
    if c[i] != [] {
      Elsewhere(t, j, c[j], i, c[i][|c[i]| - 1]);
    }
  }

  /** If chain i changes what it holds for one key, the table does. */
  lemma ChangeHolds(t: Table, c: Chains, u: Table, m: map<Key, Val>, n: map<Key, Val>,
                    i: nat, chain: seq<Ptr>, key: Key, now: Option<Val>)
    requires Chained(t, c) && Holds(t, c, m) && i < |c|
    requires Chained(u, c[i := chain]) && u.hashFunc == t.hashFunc && |u.slots| == |t.slots|
    requires forall k :: Home(t, k) != i ==>
      Look(u.heap, c[i := chain][Home(u, k)], k) == Look(t.heap, c[Home(t, k)], k)
    requires Home(t, key) == i && AllIn(u.heap, chain)
    requires forall k :: Look(u.heap, chain, k) == if k == key then now else Look(t.heap, c[i], k)
    requires forall k :: Lookup(n, k) == if k == key then now else Lookup(m, k)
    requires u.count == |n|
    ensures Holds(u, c[i := chain], n)
  {
    var d := c[i := chain];
    forall k
      ensures Look(u.heap, d[Home(u, k)], k) == Lookup(n, k)
    {
      assert Look(t.heap, c[Home(t, k)], k) == Lookup(m, k);
    }
  }

  // ------------------------------------------------------------------- remove an entry

  /** Lines 197 to 201. */
  function Unlink(t: Table, r: Ref): Table
    requires Refers(t, r) && Load(t, r) in t.heap
  {
    var x := Load(t, r);
    var u := Assign(t, r, t.heap[x].next);
    var e := if x in u.heap then u.heap[x] else t.heap[x];
    u.(heap := u.heap[x := e.(next := t.free)], free := x, count := t.count - 1)
  }

  lemma CutLinks(t: Table, i: nat, chain: seq<Ptr>, a: nat)
    requires Good(t, i, chain) && a < |chain|
    ensures var r := RefAt(i, chain, a);
      && Refers(t, r) && Load(t, r) == chain[a]
      && var u := Unlink(t, r);
      && Linked(u.heap, u.slots[i], chain[..a] + chain[a + 1..])
      && (forall p :: p in t.heap ==> p in u.heap && u.heap[p] == t.heap[p].(next := u.heap[p].next))
      && (forall p :: p in t.heap && p !in chain ==> u.heap[p] == t.heap[p])
  {
    LinkedAt(t.heap, t.slots[i], chain, a);
    LinkedAt(t.heap, t.slots[i], chain, a + 1);
    var x := chain[a];
    var q := t.heap[x].next;
    var h := Assign(t, RefAt(i, chain, a), q).heap;
    var rest := chain[..a] + chain[a + 1..];
    if a == 0 {
      assert rest == chain[1..];
    } else {
      Splice(t.heap, t.slots[i], chain, a, q, chain[a + 1..]);
    }
    assert Linked(h, if a == 0 then q else t.slots[i], rest);
    LinkedFrame(h, if a == 0 then q else t.slots[i], rest, x, h[x].(next := t.free));
  }

  lemma {:induction false} LookCut(heap: Heap, chain: seq<Ptr>, a: nat, k: Key)
    requires AllIn(heap, chain) && KeysDiffer(heap, chain) && a < |chain|
    ensures var rest := chain[..a] + chain[a + 1..];
      AllIn(heap, rest) && Look(heap, rest, k) == if k == heap[chain[a]].key then None else Look(heap, chain, k)
    decreases |chain|
  {
    var rest := chain[..a] + chain[a + 1..];
    if a == 0 {
      assert rest == chain[1..];
      if k == heap[chain[0]].key {
        LookFound(heap, rest, k, |rest|);
      }
    } else {
      LookCut(heap, chain[1..], a - 1, k);
      assert rest[1..] == chain[1..][..a - 1] + chain[1..][a..];
    }
  }

  lemma CutGood(t: Table, i: nat, chain: seq<Ptr>, a: nat)
    requires Good(t, i, chain) && a < |chain|
    ensures var r := RefAt(i, chain, a);
      && Refers(t, r) && Load(t, r) == chain[a]
      && var u, rest := Unlink(t, r), chain[..a] + chain[a + 1..];
      && Good(u, i, rest)
      && forall k :: Look(u.heap, rest, k) == if k == t.heap[chain[a]].key then None else Look(t.heap, chain, k)
  {
    CutLinks(t, i, chain, a);
    var u, rest := Unlink(t, RefAt(i, chain, a)), chain[..a] + chain[a + 1..];
    forall b | 0 <= b < |rest|
      ensures At(u, i, rest[b]) && u.heap[rest[b]].key == t.heap[rest[b]].key
      ensures u.heap[rest[b]].val == t.heap[rest[b]].val
    {
      assert rest[b] == if b < a then chain[b] else chain[b + 1];
      assert At(t, i, rest[b]);
    }
    CutDiffers(t.heap, u.heap, chain, a);
    forall k
      ensures Look(u.heap, rest, k) == if k == t.heap[chain[a]].key then None else Look(t.heap, chain, k)
    {
      LookCut(t.heap, chain, a, k);
      LookSameBut(t.heap, u.heap, rest, k);
    }
  }

  lemma CutDiffers(g: Heap, h: Heap, chain: seq<Ptr>, a: nat)
    requires AllIn(g, chain) && KeysDiffer(g, chain) && a < |chain|
    requires var rest := chain[..a] + chain[a + 1..];
      forall b :: 0 <= b < |rest| ==> rest[b] in h && rest[b] in g && h[rest[b]].key == g[rest[b]].key
    ensures var rest := chain[..a] + chain[a + 1..]; AllIn(h, rest) && KeysDiffer(h, rest)
  {
    var rest := chain[..a] + chain[a + 1..];
    forall b, d | 0 <= b < d < |rest|
      ensures h[rest[b]].key != h[rest[d]].key
    {
      assert rest[b] == if b < a then chain[b] else chain[b + 1];
      assert rest[d] == if d < a then chain[d] else chain[d + 1];
    }
  }

  lemma UnlinkUnlinks(t: Table, c: Chains, m: map<Key, Val>, i: nat, a: nat)
    requires Chained(t, c) && Holds(t, c, m) && i < |c| && a < |c[i]|
    ensures var r, key := RefAt(i, c[i], a), t.heap[c[i][a]].key;
      var rest := c[i][..a] + c[i][a + 1..];
      && Refers(t, r) && Load(t, r) == c[i][a]
      && var u := Unlink(t, r);
      && Chained(u, c[i := rest]) && Holds(u, c[i := rest], m - {key})
  {
    var r, key := RefAt(i, c[i], a), t.heap[c[i][a]].key;
    var rest := c[i][..a] + c[i][a + 1..];
    CutGood(t, i, c[i], a);
    CutLinks(t, i, c[i], a);
    var u := Unlink(t, r);
    forall j | 0 <= j < |c| && j != i
      ensures Same(t.heap, u.heap, c[j])
    {
      UnlinkElsewhere(t, c, u, i, j);
    }
    ChangeOne(t, c, u, i, rest);
    InMap(t, c, m, i, a);
    var n := m - {key};
    assert m.Keys == n.Keys + {key};
    ChangeHolds(t, c, u, m, n, i, rest, key, None);
  }

  lemma UnlinkElsewhere(t: Table, c: Chains, u: Table, i: nat, j: nat)
    requires Chained(t, c) && i < |c| && j < |c| && i != j
    requires forall p :: p in t.heap && p !in c[i] ==> p in u.heap && u.heap[p] == t.heap[p]
    ensures Same(t.heap, u.heap, c[j])
  {
    forall b | 0 <= b < |c[j]|
      ensures c[j][b] in t.heap && c[j][b] !in c[i]
    {
      Elsewhere(t, i, c[i], j, c[j][b]);
    }
  }

  // ---------------------------------------------------------------------- the free list

  lemma TakeTakes(t: Table, c: Chains, f: seq<Ptr>, m: map<Key, Val>, given: Ptr)
    requires Valid(t, c, f, m) && given !in t.heap && given != NULL
    ensures t.free == NULL || t.free in t.heap
    ensures var x := TakeCell(t, given);
      var g := if f == [] then f else f[1..];
      && Valid(x.table, c, g, m)
      && x.p != NULL && x.p !in g && forall j :: 0 <= j < |c| ==> x.p !in c[j]
  {
    LinkedAt(t.heap, t.free, f, 0);
    var u := TakeCell(t, given).table;
    forall j | 0 <= j < |c|
      ensures Good(u, j, c[j])
    {
      SameGood(t, u, j, c[j]);
    }
    forall k
      ensures Look(u.heap, c[Home(u, k)], k) == Lookup(m, k)
    {
    }
  }

  /** Adding p at the end of a chain leaves the free list alone. */
  lemma FillKeepsFree(t: Table, c: Chains, f: seq<Ptr>, m: map<Key, Val>, p: Ptr, key: Key, val: Val)
    requires Valid(t, c, f, m) && p != NULL && p !in f && forall j :: 0 <= j < |c| ==> p !in c[j]
    requires FoundAt(t.heap, c[Home(t, key)], key, |c[Home(t, key)]|)
    ensures var i := Home(t, key);
      var r := RefAt(i, c[i], |c[i]|);
      Refers(t, r) && Valid(Fill(t, r, p, key, val), c[i := c[i] + [p]], f, m[key := val])
  {
    var i := Home(t, key);
    var r := RefAt(i, c[i], |c[i]|);
    FillFills(t, c, m, p, key, val);
    var u := Fill(t, r, p, key, val);
    LinkedAt(t.heap, t.free, f, 0);
    assert Disjoint(c[i], f);
    assert Same(t.heap, u.heap, f);
    SameLinked(t.heap, u.heap, t.free, f);
    var d := c[i := c[i] + [p]];
    forall j | 0 <= j < |d|
      ensures Disjoint(d[j], f)
    {
      assert Disjoint(c[j], f);
    }
  }

  lemma UnlinkPushes(t: Table, c: Chains, f: seq<Ptr>, i: nat, a: nat)
    requires Chained(t, c) && FreeListed(t, c, f) && i < |c| && a < |c[i]|
    ensures var r, x := RefAt(i, c[i], a), c[i][a];
      && Refers(t, r) && Load(t, r) == x && x in t.heap
      && Linked(Unlink(t, r).heap, x, [x] + f) && NoDup([x] + f)
  {
    CutLinks(t, i, c[i], a);
    LinkedAt(t.heap, t.slots[i], c[i], a);
    LinkedAt(t.heap, t.free, f, 0);
    var x := c[i][a];
    var u := Unlink(t, RefAt(i, c[i], a));
    assert Disjoint(c[i], f);
    assert Same(t.heap, u.heap, f);
    SameLinked(t.heap, u.heap, t.free, f);
    assert ([x] + f)[1..] == f;
  }

  /** A removed entry goes to the front of the free list. */
  lemma UnlinkFrees(t: Table, c: Chains, f: seq<Ptr>, m: map<Key, Val>, i: nat, a: nat)
    requires Valid(t, c, f, m) && i < |c| && a < |c[i]|
    ensures var r, x := RefAt(i, c[i], a), c[i][a];
      && Refers(t, r) && Load(t, r) == x && x in t.heap
      && Valid(Unlink(t, r), c[i := c[i][..a] + c[i][a + 1..]], [x] + f, m - {t.heap[x].key})
  {
    UnlinkUnlinks(t, c, m, i, a);
    UnlinkPushes(t, c, f, i, a);
    var x := c[i][a];
    var rest := c[i][..a] + c[i][a + 1..];
    var d := c[i := rest];
    forall j | 0 <= j < |d|
      ensures Disjoint(d[j], [x] + f)
    {
      assert Disjoint(c[j], f);
      if j != i {
        Elsewhere(t, j, c[j], i, x);
      } else {
        NotInRest(t.heap, c[i], a);
      }
    }
  }

  lemma NotInRest(heap: Heap, chain: seq<Ptr>, a: nat)
    requires AllIn(heap, chain) && KeysDiffer(heap, chain) && a < |chain|
    ensures var rest := chain[..a] + chain[a + 1..]; chain[a] !in rest && forall p :: p in rest ==> p in chain
  {
  }

  // -------------------------------------------------------------------------- iteration

  /** The entries from slot i on, in the order of the iterator. */
  function FlatFrom(c: Chains, i: nat): seq<Ptr>
    decreases |c| - i
  {
    if |c| <= i then [] else c[i] + FlatFrom(c, i + 1)
  }

  lemma {:induction false} LookConcat(heap: Heap, a: seq<Ptr>, b: seq<Ptr>, k: Key)
    requires AllIn(heap, a) && AllIn(heap, b)
    ensures AllIn(heap, a + b)
    ensures Look(heap, a + b, k) == if Look(heap, a, k).Some? then Look(heap, a, k) else Look(heap, b, k)
    decreases |a|
  {
    if a == [] {
      assert a + b == b;
    } else {
      LookConcat(heap, a[1..], b, k);
      assert (a + b)[1..] == a[1..] + b;
    }
  }

  lemma {:induction false} LookNone(heap: Heap, chain: seq<Ptr>, k: Key)
    requires AllIn(heap, chain)
    ensures Look(heap, chain, k).None? <==> forall a :: 0 <= a < |chain| ==> heap[chain[a]].key != k
  {
    if chain != [] {
      LookNone(heap, chain[1..], k);
      if Look(heap, chain, k).None? {
        forall a | 0 <= a < |chain|
          ensures heap[chain[a]].key != k
        {
          assert 0 < a ==> chain[a] == chain[1..][a - 1];
        }
      } else if heap[chain[0]].key != k {
        var a :| 0 <= a < |chain| - 1 && heap[chain[1..][a]].key == k;
        assert chain[a + 1] == chain[1..][a];
      }
    }
  }

  lemma OnlyAtHome(t: Table, i: nat, chain: seq<Ptr>, k: Key)
    requires Good(t, i, chain) && Home(t, k) != i
    ensures Look(t.heap, chain, k).None?
  {
    forall a | 0 <= a < |chain|
      ensures t.heap[chain[a]].key != k
    {
      assert At(t, i, chain[a]);
    }
    LookNone(t.heap, chain, k);
  }

  /** All the entries from slot i on: no key occurs twice, and a look-up in their sequence
      is one in the chain of the key. */
  lemma {:induction false} FlatLooks(t: Table, c: Chains, i: nat)
    requires Chained(t, c) && i <= |c|
    ensures AllIn(t.heap, FlatFrom(c, i)) && KeysDiffer(t.heap, FlatFrom(c, i))
    ensures forall k ::
      Look(t.heap, FlatFrom(c, i), k) == if i <= Home(t, k) then Look(t.heap, c[Home(t, k)], k) else None
    decreases |c| - i
  {
    if i < |c| {
      FlatLooks(t, c, i + 1);
      assert Good(t, i, c[i]);
      var rest := FlatFrom(c, i + 1);
      forall k
        ensures Look(t.heap, FlatFrom(c, i), k) == if i <= Home(t, k) then Look(t.heap, c[Home(t, k)], k) else None
      {
        LookConcat(t.heap, c[i], rest, k);
        if Home(t, k) != i {
          OnlyAtHome(t, i, c[i], k);
        }
      }
      ConcatDiffers(t.heap, c[i], rest);
    }
  }

  lemma ConcatDiffers(heap: Heap, a: seq<Ptr>, b: seq<Ptr>)
    requires AllIn(heap, a) && AllIn(heap, b) && KeysDiffer(heap, a) && KeysDiffer(heap, b)
    requires forall i :: 0 <= i < |a| ==> Look(heap, b, heap[a[i]].key).None?
    ensures AllIn(heap, a + b) && KeysDiffer(heap, a + b)
  {
    forall i, j | 0 <= i < |a| && 0 <= j < |b|
      ensures heap[a[i]].key != heap[b[j]].key
    {
      LookNone(heap, b, heap[a[i]].key);
    }
  }

  /** hash_index_t. */
  datatype Iter = Iter(cur: Ptr, next: Ptr, index: nat)

  /** The iterator still has the entries of tail before it, and the chains from its index. */
  ghost predicate Ahead(heap: Heap, slots: seq<Ptr>, c: Chains, it: Iter, tail: seq<Ptr>) {
    && |c| == |slots| && it.index <= |slots|
    && Linked(heap, it.next, tail)
    && forall j :: it.index <= j < |c| ==> Linked(heap, slots[j], c[j])
  }

  ghost function Rest(c: Chains, it: Iter, tail: seq<Ptr>): seq<Ptr> {
    tail + FlatFrom(c, it.index)
  }

  /** The iterator has moved on to the next entry: the first of tail, or the first of the
      first chain that is not empty. */
  ghost predicate Moved(c: Chains, it: Iter, tail: seq<Ptr>, it': Iter, tail': seq<Ptr>) {
    if tail != [] then it'.index == it.index && tail == [it'.cur] + tail'
    else
      && it.index < it'.index <= |c|
      && c[it'.index - 1] == [it'.cur] + tail'
      && forall j :: it.index <= j < it'.index - 1 ==> c[j] == []
  }

  /** common/misc/hash.c:68-79. */
  method Next(heap: Heap, slots: seq<Ptr>, ghost c: Chains, it: Iter, ghost tail: seq<Ptr>)
    returns (has: bool, it': Iter, ghost tail': seq<Ptr>)
    requires Ahead(heap, slots, c, it, tail)
    ensures has ==> Ahead(heap, slots, c, it', tail') && it'.cur in heap && Moved(c, it, tail, it', tail')
    ensures !has ==> tail == [] && forall j :: it.index <= j < |c| ==> c[j] == []
  {
    var cur, index := it.next, it.index;
    ghost var chain := tail;
    while cur == NULL
      invariant it.index <= index <= |slots|
      invariant Linked(heap, cur, chain)
      invariant if index == it.index then chain == tail else tail == [] && chain == c[index - 1]
      invariant forall j :: it.index <= j < index - 1 ==> c[j] == []
      decreases |slots| - index
    {
      if index == |slots| {
        return false, it, tail;
      }
      cur := slots[index];
      chain := c[index];
      index := index + 1;
    }
    assert chain == [cur] + chain[1..];
    return true, Iter(cur, heap[cur].next, index), chain[1..];
  }

  lemma {:induction false} FlatSkip(c: Chains, i: nat, j: nat)
    requires i <= j <= |c| && forall k :: i <= k < j ==> c[k] == []
    ensures FlatFrom(c, i) == FlatFrom(c, j)
    decreases j - i
  {
    if i < j {
      FlatSkip(c, i + 1, j);
    }
  }

  /** So it meets the first of the entries that were left. */
  lemma MovedTakesFirst(c: Chains, it: Iter, tail: seq<Ptr>, it': Iter, tail': seq<Ptr>)
    requires it.index <= |c| && Moved(c, it, tail, it', tail')
    ensures Rest(c, it, tail) == [it'.cur] + Rest(c, it', tail')
  {
    if tail == [] {
      FlatSkip(c, it.index, it'.index - 1);
    }
  }

  method NextRest(heap: Heap, slots: seq<Ptr>, ghost c: Chains, it: Iter, ghost tail: seq<Ptr>)
    returns (has: bool, it': Iter, ghost tail': seq<Ptr>)
    requires Ahead(heap, slots, c, it, tail)
    ensures has ==> Ahead(heap, slots, c, it', tail') && it'.cur in heap
    ensures Rest(c, it, tail) == if has then [it'.cur] + Rest(c, it', tail') else []
  {
    has, it', tail' := Next(heap, slots, c, it, tail);
    if has {
      MovedTakesFirst(c, it, tail, it', tail');
    } else {
      FlatSkip(c, it.index, |c|);
    }
  }

  // ------------------------------------------------------------------------- expanding

  /** Lines 109 to 111, on the table with the new array. */
  function Relink(u: Table, p: Ptr): Table
    requires p in u.heap && 0 < |u.slots|
  {
    var i := SlotOf(u.heap[p].hash, |u.slots|);
    u.(heap := u.heap[p := u.heap[p].(next := u.slots[i])], slots := u.slots[i := p])
  }

  ghost predicate Loose(u: Table, d: Chains, p: Ptr)
    requires Chained(u, d)
  {
    && p != NULL && p in u.heap
    && u.heap[p].hash == u.hashFunc(u.heap[p].key)
    && Look(u.heap, d[Home(u, u.heap[p].key)], u.heap[p].key).None?
  }

  lemma LooseOutside(u: Table, d: Chains, p: Ptr)
    requires Chained(u, d) && Loose(u, d, p)
    ensures forall j :: 0 <= j < |d| ==> p !in d[j]
  {
    forall j | 0 <= j < |d|
      ensures p !in d[j]
    {
      assert Good(u, j, d[j]);
      if j == Home(u, u.heap[p].key) {
        LookNone(u.heap, d[j], u.heap[p].key);
      }
    }
  }

  lemma RelinkAdds(u: Table, d: Chains, p: Ptr)
    requires Chained(u, d) && Loose(u, d, p)
    ensures var e := u.heap[p];
      var i := Home(u, e.key);
      var v, w := Relink(u, p), d[i := [p] + d[i]];
      && Chained(v, w)
      && forall k ::
           Look(v.heap, w[Home(v, k)], k) == if k == e.key then Some(e.val) else Look(u.heap, d[Home(u, k)], k)
  {
    var e := u.heap[p];
    var i := Home(u, e.key);
    var v, chain := Relink(u, p), [p] + d[i];
    LooseOutside(u, d, p);
    LookNone(u.heap, d[i], e.key);
    assert chain[1..] == d[i];
    LinkedFrame(u.heap, u.slots[i], d[i], p, v.heap[p]);
    assert Good(v, i, chain) by {
      forall a | 0 <= a < |chain|
        ensures At(v, i, chain[a])
      {
        assert 0 < a ==> chain[a] == d[i][a - 1] && At(u, i, d[i][a - 1]);
      }
    }
    ChangeOne(u, d, v, i, chain);
    forall k
      ensures Look(v.heap, chain, k) == if k == e.key then Some(e.val) else Look(u.heap, d[i], k)
    {
      SameLook(u.heap, v.heap, d[i], k);
    }
  }

  function OrElse(a: Option<Val>, b: Option<Val>): Option<Val> { if a.Some? then a else b }

  /** Part of m is in the new chains and the rest in the entries still to be moved. */
  ghost predicate Moving(u: Table, d: Chains, rest: seq<Ptr>, f: seq<Ptr>, m: map<Key, Val>) {
    && Chained(u, d) && FreeListed(u, d, f)
    && AllIn(u.heap, rest) && KeysDiffer(u.heap, rest)
    && (forall a :: 0 <= a < |rest| ==> Loose(u, d, rest[a]) && rest[a] !in f)
    && (forall k :: Lookup(m, k) == OrElse(Look(u.heap, d[Home(u, k)], k), Look(u.heap, rest, k)))
  }

  lemma MovingStep(u: Table, d: Chains, rest: seq<Ptr>, f: seq<Ptr>, m: map<Key, Val>)
    requires Moving(u, d, rest, f, m) && rest != []
    ensures var p := rest[0];
      var i := Home(u, u.heap[p].key);
      Moving(Relink(u, p), d[i := [p] + d[i]], rest[1..], f, m)
  {
    var p := rest[0];
    assert Loose(u, d, p);
    var e := u.heap[p];
    var i := Home(u, e.key);
    var v, w := Relink(u, p), d[i := [p] + d[i]];
    RelinkAdds(u, d, p);
    MovingFree(u, d, p, i, f);
    forall a | 0 <= a < |rest| - 1
      ensures Loose(v, w, rest[1..][a]) && rest[1..][a] !in f
    {
      assert rest[1..][a] == rest[a + 1] && Loose(u, d, rest[a + 1]);
      assert u.heap[rest[a + 1]].key != e.key;
    }
    forall k
      ensures Lookup(m, k) == OrElse(Look(v.heap, w[Home(v, k)], k), Look(v.heap, rest[1..], k))
    {
      assert Same(u.heap, v.heap, rest[1..]);
      SameLook(u.heap, v.heap, rest[1..], k);
    }
  }

  lemma MovingFree(u: Table, d: Chains, p: Ptr, i: nat, f: seq<Ptr>)
    requires Chained(u, d) && FreeListed(u, d, f) && Loose(u, d, p) && p !in f && i < |d|
    ensures FreeListed(Relink(u, p), d[i := [p] + d[i]], f)
  {
    var v, w := Relink(u, p), d[i := [p] + d[i]];
    LinkedFrame(u.heap, u.free, f, p, v.heap[p]);
    forall j | 0 <= j < |w|
      ensures Disjoint(w[j], f)
    {
      assert Disjoint(d[j], f);
    }
  }

  /** A table with n empty slots over the same heap. */
  function Emptied(t: Table, n: nat): Table { t.(slots := seq(n, _ => NULL)) }

  function NoChains(n: nat): (c: Chains)
    ensures |c| == n && forall i :: 0 <= i < n ==> c[i] == []
  {
    seq(n, _ => [])
  }

  lemma MovingStart(t: Table, c: Chains, f: seq<Ptr>, m: map<Key, Val>, n: nat)
    requires Valid(t, c, f, m) && 0 < n
    ensures Moving(Emptied(t, n), NoChains(n), FlatFrom(c, 0), f, m)
  {
    FlatLooks(t, c, 0);
    var u, d, rest := Emptied(t, n), NoChains(n), FlatFrom(c, 0);
    FlatIsPlaced(t, c, f, 0);
    forall a | 0 <= a < |rest|
      ensures Loose(u, d, rest[a]) && rest[a] !in f
    {
      assert Kept(t, f, rest[a]);
    }
    forall k
      ensures Lookup(m, k) == OrElse(Look(u.heap, d[Home(u, k)], k), Look(u.heap, rest, k))
    {
      assert Look(t.heap, c[Home(t, k)], k) == Lookup(m, k);
    }
  }

  predicate Kept(t: Table, f: seq<Ptr>, p: Ptr) {
    p in t.heap && p != NULL && p !in f && t.heap[p].hash == t.hashFunc(t.heap[p].key)
  }

  lemma {:induction false} FlatIsPlaced(t: Table, c: Chains, f: seq<Ptr>, i: nat)
    requires Chained(t, c) && FreeListed(t, c, f) && i <= |c|
    ensures forall p :: p in FlatFrom(c, i) ==> Kept(t, f, p)
    decreases |c| - i
  {
    if i < |c| {
      FlatIsPlaced(t, c, f, i + 1);
      LinkedAt(t.heap, t.slots[i], c[i], 0);
      assert Good(t, i, c[i]) && Disjoint(c[i], f);
      forall a | 0 <= a < |c[i]|
        ensures Kept(t, f, c[i][a])
      {
        assert At(t, i, c[i][a]);
      }
    }
  }

  lemma MovingEnd(u: Table, d: Chains, f: seq<Ptr>, m: map<Key, Val>)
    requires Moving(u, d, [], f, m) && u.count == |m|
    ensures Valid(u, d, f, m)
  {
  }

  /** Relinking an entry that is past leaves what the iterator has before it. */
  lemma AheadFrame(g: Heap, slots: seq<Ptr>, c: Chains, it: Iter, tail: seq<Ptr>, p: Ptr, e: Entry)
    requires Ahead(g, slots, c, it, tail) && p !in Rest(c, it, tail)
    ensures Ahead(g[p := e], slots, c, it, tail)
  {
    LinkedFrame(g, it.next, tail, p, e);
    forall j | it.index <= j < |c|
      ensures Linked(g[p := e], slots[j], c[j])
    {
      InFlat(c, it.index, j);
      LinkedFrame(g, slots[j], c[j], p, e);
    }
  }

  lemma {:induction false} InFlat(c: Chains, i: nat, j: nat)
    requires i <= j < |c|
    ensures forall p :: p in c[j] ==> p in FlatFrom(c, i)
    decreases j - i
  {
    if i < j {
      InFlat(c, i + 1, j);
    }
  }

  /** common/misc/hash.c:99-117, with the iteration over the chains that it takes apart. */
  method Expand(t: Table, ghost c: Chains, ghost f: seq<Ptr>, ghost m: map<Key, Val>)
    returns (u: Table, ghost d: Chains)
    requires Valid(t, c, f, m)
    ensures Valid(u, d, f, m) && |u.slots| == 2 * |t.slots| && u.hashFunc == t.hashFunc
  {
    var size := 2 * |t.slots|;
    u, d := Emptied(t, size), NoChains(size);
    MovingStart(t, c, f, m, size);
    ghost var tail: seq<Ptr> := [];
    var it := Iter(NULL, NULL, 0);
    ghost var rest := FlatFrom(c, 0);
    var has;
    has, it, tail := NextRest(u.heap, t.slots, c, it, tail);
    while has
      invariant Moving(u, d, rest, f, m)
      invariant u.count == t.count && |u.slots| == size && u.hashFunc == t.hashFunc
      invariant has <==> rest != []
      invariant has ==> Ahead(u.heap, t.slots, c, it, tail) && rest == [it.cur] + Rest(c, it, tail)
      decreases |rest|
    {
      ghost var p := it.cur;
      assert rest[0] == p && rest[1..] == Rest(c, it, tail);
      MovingStep(u, d, rest, f, m);
      HeadIsNotLater(u.heap, rest);
      AheadFrame(u.heap, t.slots, c, it, tail, p, Relink(u, p).heap[p]);
      ghost var i := Home(u, u.heap[p].key);
      d := d[i := [p] + d[i]];
      u := Relink(u, it.cur);
      rest := rest[1..];
      has, it, tail := NextRest(u.heap, t.slots, c, it, tail);
    }
    MovingEnd(u, d, f, m);
  }

  lemma HeadIsNotLater(heap: Heap, rest: seq<Ptr>)
    requires AllIn(heap, rest) && KeysDiffer(heap, rest) && rest != []
    ensures rest[0] !in rest[1..]
  {
  }

  // ------------------------------------------------------------------ the code in place

  function Keys(heap: Heap, l: seq<Ptr>): seq<Key> {
    if l == [] then [] else [if l[0] in heap then heap[l[0]].key else []] + Keys(heap, l[1..])
  }

  /** The keys in the order of the iterator. */
  function KeysOf(t: Table, c: Chains): seq<Key> { Keys(t.heap, FlatFrom(c, 0)) }

  predicate Entries(heap: Heap, m: map<Key, Val>, l: seq<Ptr>) {
    forall a :: 0 <= a < |l| ==>
      l[a] in heap && heap[l[a]].key in m && m[heap[l[a]].key] == heap[l[a]].val
  }

  lemma EntriesAreIn(t: Table, c: Chains, m: map<Key, Val>)
    requires Chained(t, c) && Holds(t, c, m)
    ensures Entries(t.heap, m, FlatFrom(c, 0))
  {
    FlatLooks(t, c, 0);
    var all := FlatFrom(c, 0);
    forall a | 0 <= a < |all|
      ensures t.heap[all[a]].key in m && m[t.heap[all[a]].key] == t.heap[all[a]].val
    {
      var k := t.heap[all[a]].key;
      LookFound(t.heap, all, k, a);
      assert Look(t.heap, c[Home(t, k)], k) == Lookup(m, k);
    }
  }

  lemma {:induction false} KeysAt(heap: Heap, l: seq<Ptr>)
    requires AllIn(heap, l)
    ensures |Keys(heap, l)| == |l| && forall a :: 0 <= a < |l| ==> Keys(heap, l)[a] == heap[l[a]].key
  {
    if l != [] {
      KeysAt(heap, l[1..]);
    }
  }

  lemma KeysOnce(t: Table, c: Chains)
    requires Chained(t, c)
    ensures var keys := KeysOf(t, c); forall i, j :: 0 <= i < j < |keys| ==> keys[i] != keys[j]
  {
    FlatLooks(t, c, 0);
    KeysAt(t.heap, FlatFrom(c, 0));
  }

  lemma KeyIsMet(t: Table, c: Chains, m: map<Key, Val>, k: Key)
    requires Chained(t, c) && Holds(t, c, m) && k in m
    ensures k in KeysOf(t, c)
  {
    FlatLooks(t, c, 0);
    var all := FlatFrom(c, 0);
    KeysAt(t.heap, all);
    assert Look(t.heap, c[Home(t, k)], k) == Lookup(m, k);
    LookNone(t.heap, all, k);
    var a :| 0 <= a < |all| && t.heap[all[a]].key == k;
    assert KeysOf(t, c)[a] == k;
  }

  /** The iterator meets every key of the map once. */
  lemma VisitsOnce(t: Table, c: Chains, m: map<Key, Val>)
    requires Chained(t, c) && Holds(t, c, m)
    ensures var keys := KeysOf(t, c);
      && (forall i, j :: 0 <= i < j < |keys| ==> keys[i] != keys[j])
      && (forall k :: k in keys <==> k in m)
  {
    KeysOnce(t, c);
    EntriesAreIn(t, c, m);
    var all, keys := FlatFrom(c, 0), KeysOf(t, c);
    KeysAt(t.heap, all);
    forall k
      ensures k in keys <==> k in m
    {
      if k in m {
        KeyIsMet(t, c, m, k);
      }
    }
  }

  /** A walk over entries: the keys the callback was called with, and its last answer. */
  datatype Walk = Walk(keys: seq<Key>, last: int)

  function Walked(heap: Heap, l: seq<Ptr>, comp: (Key, Val) -> int, last: int): (w: Walk)
    requires AllIn(heap, l)
  {
    if l == [] then Walk([], last)
    else
      var e := heap[l[0]];
      var rv := comp(e.key, e.val);
      if rv < 0 then Walk([e.key], rv)
      else
        var w := Walked(heap, l[1..], comp, rv);
        Walk([e.key] + w.keys, w.last)
  }

  /** The walk goes on exactly as long as no answer is negative. */
  lemma {:induction false} WalkStops(heap: Heap, l: seq<Ptr>, comp: (Key, Val) -> int, last: int)
    requires AllIn(heap, l)
    ensures var w := Walked(heap, l, comp, last);
      && w.keys <= Keys(heap, l)
      && (l != [] ==> 0 < |w.keys| <= |l| && var e := heap[l[|w.keys| - 1]]; w.last == comp(e.key, e.val))
      && (forall i :: 0 <= i < |w.keys| - 1 ==> 0 <= comp(heap[l[i]].key, heap[l[i]].val))
      && (|w.keys| < |l| ==> w.last < 0)
    decreases |l|
  {
    if l != [] {
      var e := heap[l[0]];
      var rv := comp(e.key, e.val);
      if 0 <= rv {
        WalkStops(heap, l[1..], comp, rv);
        var v := Walked(heap, l[1..], comp, rv);
        var w := Walked(heap, l, comp, last);
        assert |w.keys| == 1 + |v.keys|;
        forall i | 0 <= i < |w.keys| - 1
          ensures 0 <= comp(heap[l[i]].key, heap[l[i]].val)
        {
          assert 0 < i ==> l[i] == l[1..][i - 1];
        }
        assert l[1..] != [] ==> l[|w.keys| - 1] == l[1..][|v.keys| - 1];
      }
    }
  }

  /** What the walk comes to when visited have been seen, the last with answer rv. */
  function After(heap: Heap, visited: seq<Key>, rest: seq<Ptr>, comp: (Key, Val) -> int, rv: int): Walk
    requires AllIn(heap, rest)
  {
    if rv < 0 then Walk(visited, rv)
    else
      var w := Walked(heap, rest, comp, rv);
      Walk(visited + w.keys, w.last)
  }

  lemma AfterOne(heap: Heap, visited: seq<Key>, rest: seq<Ptr>, comp: (Key, Val) -> int, rv: int)
    requires AllIn(heap, rest) && rest != [] && 0 <= rv
    ensures var e := heap[rest[0]];
      After(heap, visited, rest, comp, rv) == After(heap, visited + [e.key], rest[1..], comp, comp(e.key, e.val))
  {
    var e := heap[rest[0]];
    var r := comp(e.key, e.val);
    if 0 <= r {
      var w := Walked(heap, rest[1..], comp, r);
      assert Walked(heap, rest, comp, rv) == Walk([e.key] + w.keys, w.last);
      assert visited + ([e.key] + w.keys) == (visited + [e.key]) + w.keys;
    }
  }

  /** common/misc/hash.c:261-277. */
  method Scan(heap: Heap, slots: seq<Ptr>, ghost c: Chains, comp: (Key, Val) -> int)
    returns (dorv: int, visited: seq<Key>)
    requires Ahead(heap, slots, c, Iter(NULL, NULL, 0), []) && AllIn(heap, FlatFrom(c, 0))
    ensures var w := Walked(heap, FlatFrom(c, 0), comp, 1);
      visited == w.keys && dorv == if w.last == 0 then 0 else 1
  {
    ghost var w := Walked(heap, FlatFrom(c, 0), comp, 1);
    ghost var rest := FlatFrom(c, 0);
    ghost var tail: seq<Ptr> := [];
    var it, rv := Iter(NULL, NULL, 0), 1;
    var has;
    has, it, tail := NextRest(heap, slots, c, it, tail);
    visited := [];
    while has && 0 <= rv
      invariant AllIn(heap, rest)
      invariant w == After(heap, visited, rest, comp, rv)
      invariant has ==> Ahead(heap, slots, c, it, tail)
      invariant rest == if has then [it.cur] + Rest(c, it, tail) else []
      decreases |rest|
    {
      assert rest[0] == it.cur && rest[1..] == Rest(c, it, tail);
      AfterOne(heap, visited, rest, comp, rv);
      var e := heap[it.cur];
      rv := comp(e.key, e.val);
      visited := visited + [e.key];
      rest := rest[1..];
      has, it, tail := NextRest(heap, slots, c, it, tail);
    }
    dorv := if rv == 0 then 0 else 1;
  }

  lemma FillRef(t: Table, c: Chains, f: seq<Ptr>, m: map<Key, Val>, p: Ptr, key: Key, val: Val)
    requires Valid(t, c, f, m) && p != NULL && p !in f && forall j :: 0 <= j < |c| ==> p !in c[j]
    requires FoundAt(t.heap, c[Home(t, key)], key, |c[Home(t, key)]|)
    ensures var i := Home(t, key);
      var k := |c[i]|;
      var r := RefAt(i, c[i], k);
      && Refers(t, r)
      && var u := Fill(t, r, p, key, val);
      var chain := c[i] + [p];
      && Reached(u, c[i := chain], m[key := val], key, r, k)
  {
    var i := Home(t, key);
    LinkedAt(t.heap, t.slots[i], c[i], |c[i]|);
  }

  /** The search for a key has ended at the a-th place of its chain: at the entry that
      holds the value of the key, or at the end if there is none. */
  ghost predicate Reached(t: Table, c: Chains, m: map<Key, Val>, key: Key, r: Ref, a: nat)
    requires 0 < |t.slots| == |c|
  {
    var chain := c[Home(t, key)];
    && a <= |chain| && r == RefAt(Home(t, key), chain, a) && Refers(t, r)
    && (key in m <==> a < |chain|)
    && (key in m ==> && Load(t, r) == chain[a] != NULL && chain[a] in t.heap
                     && t.heap[chain[a]].key == key && t.heap[chain[a]].val == m[key])
    && (key !in m ==> Load(t, r) == NULL && AllIn(t.heap, chain) && FoundAt(t.heap, chain, key, a))
  }

  /** The first entry of its chain has the key. */
  ghost predicate HeadHas(t: Table, c: Chains, key: Key)
    requires 0 < |t.slots| == |c|
  {
    var chain := c[Home(t, key)];
    chain != [] && chain[0] in t.heap && t.heap[chain[0]].key == key
  }

  /** The iterator is at the first entry of all that are left. */
  ghost predicate AtFirst(t: Table, c: Chains, it: Iter, tail: seq<Ptr>) {
    && 1 <= it.index <= |c| && it.cur in t.heap
    && Ahead(t.heap, t.slots, c, it, tail)
    && c[it.index - 1] == [it.cur] + tail
    && forall j :: 0 <= j < it.index - 1 ==> c[j] == []
  }

  lemma HeadIsFirst(t: Table, c: Chains, m: map<Key, Val>, key: Key, r: Ref, a: nat)
    requires Chained(t, c) && Reached(t, c, m, key, r, a) && HeadHas(t, c, key) && key in m
    ensures var chain := c[Home(t, key)];
      a == 0 && chain[..a] + chain[a + 1..] == chain[1..]
  {
    assert Good(t, Home(t, key), c[Home(t, key)]);
  }

  /** A new entry at the end that the search has reached. */
  lemma AddAdds(t: Table, c: Chains, f: seq<Ptr>, m: map<Key, Val>, given: Ptr, key: Key, val: Val, r: Ref, a: nat)
    requires Valid(t, c, f, m) && given !in t.heap && given != NULL
    requires Reached(t, c, m, key, r, a) && key !in m
    ensures t.free == NULL || t.free in t.heap
    ensures var x := TakeCell(t, given);
      var i := Home(t, key);
      && x.p != NULL && Refers(x.table, r)
      && var u := Fill(x.table, r, x.p, key, val);
      var d, n := c[i := c[i] + [x.p]], m[key := val];
      && |u.slots| == |t.slots|
      && Valid(u, d, if f == [] then f else f[1..], n) && Reached(u, d, n, key, r, a)
  {
    TakeTakes(t, c, f, m, given);
    var x := TakeCell(t, given);
    var g := if f == [] then f else f[1..];
    TakeKeepsEnd(t, c, f, m, given, key);
    FillKeepsFree(x.table, c, g, m, x.p, key, val);
    FillRef(x.table, c, g, m, x.p, key, val);
  }

  lemma TakeKeepsEnd(t: Table, c: Chains, f: seq<Ptr>, m: map<Key, Val>, given: Ptr, key: Key)
    requires Valid(t, c, f, m) && given !in t.heap && given != NULL
    requires FoundAt(t.heap, c[Home(t, key)], key, |c[Home(t, key)]|)
    ensures t.free == NULL || t.free in t.heap
    ensures var x := TakeCell(t, given);
      && Home(x.table, key) == Home(t, key)
      && FoundAt(x.table.heap, c[Home(t, key)], key, |c[Home(t, key)]|)
  {
    TakeTakes(t, c, f, m, given);
    assert Good(t, Home(t, key), c[Home(t, key)]);
  }

  /** The entry that the search has reached is taken out. */
  lemma DeleteDeletes(t: Table, c: Chains, f: seq<Ptr>, m: map<Key, Val>, key: Key, r: Ref, a: nat)
    requires Valid(t, c, f, m) && Reached(t, c, m, key, r, a) && key in m
    ensures var i := Home(t, key);
      var d := c[i := c[i][..a] + c[i][a + 1..]];
      && Refers(t, r) && Load(t, r) in t.heap
      && Valid(Unlink(t, r), d, [c[i][a]] + f, m - {key}) && |Unlink(t, r).slots| == |t.slots|
      && (HeadHas(t, c, key) ==> d == c[i := c[i][1..]])
  {
    UnlinkFrees(t, c, f, m, Home(t, key), a);
    if HeadHas(t, c, key) {
      HeadIsFirst(t, c, m, key, r, a);
    }
  }

  lemma FirstIsHead(t: Table, c: Chains, it: Iter, tail: seq<Ptr>)
    requires Chained(t, c) && AtFirst(t, c, it, tail)
    ensures var key := t.heap[it.cur].key;
      Home(t, key) == it.index - 1 && HeadHas(t, c, key) && c[it.index - 1][1..] == tail
    ensures it.next == if tail == [] then NULL else tail[0]
  {
    assert At(t, it.index - 1, c[it.index - 1][0]);
  }

  /** With its current entry deleted, the iterator is still before all that are left. */
  lemma StillAhead(t: Table, c: Chains, it: Iter, tail: seq<Ptr>)
    requires Chained(t, c) && 1 <= it.index <= |c| && c[it.index - 1] == tail
    requires it.next == if tail == [] then NULL else tail[0]
    ensures Ahead(t.heap, t.slots, c, it, tail)
  {
    forall j | it.index <= j < |c|
      ensures Linked(t.heap, t.slots[j], c[j])
    {
      assert Good(t, j, c[j]);
    }
    assert Good(t, it.index - 1, tail);
  }

  lemma SearchEnds(t: Table, c: Chains, f: seq<Ptr>, m: map<Key, Val>, key: Key, r: Ref, a: nat)
    requires Valid(t, c, f, m)
    requires var chain := c[Home(t, key)];
      && a <= |chain| && r == RefAt(Home(t, key), chain, a) && Refers(t, r) && AllIn(t.heap, chain)
      && (forall b :: 0 <= b < a ==> t.heap[chain[b]].key != key)
      && (a < |chain| ==> t.heap[chain[a]].key == key)
    ensures Reached(t, c, m, key, r, a)
  {
    var i := Home(t, key);
    LinkedAt(t.heap, t.slots[i], c[i], a);
    LookFound(t.heap, c[i], key, a);
    assert Look(t.heap, c[i], key) == Lookup(m, key);
  }

  /** hash_t. The chains c, the free entries f and the map m are for the proof only. */
  class Hash {
    const hashFunc: Key -> nat
    var heap: Heap
    var slots: seq<Ptr>
    var count: int
    var free: Ptr
    ghost var c: Chains
    ghost var f: seq<Ptr>
    ghost var m: map<Key, Val>

    function Abs(): Table
      reads this
    {
      Table(heap, slots, count, free, hashFunc)
    }

    ghost predicate Ok()
      reads this
    {
      Valid(Abs(), c, f, m) && PowerOfTwo(|slots|)
    }

    /** common/misc/hash.c:37-62. */
    constructor (hashFunc: Key -> nat)
      ensures Ok() && m == map[] && this.hashFunc == hashFunc && |slots| == INITIAL_MAX + 1
    {
      this.hashFunc := hashFunc;
      heap, count, free := map[], 0, NULL;
      slots := seq(INITIAL_MAX + 1, _ => NULL);
      c, f, m := NoChains(INITIAL_MAX + 1), [], map[];
      SixteenIsPower();
    }

    /** hash & max. */
    method Masked(hash: nat) returns (i: nat)
      requires 0 < |slots| && PowerOfTwo(|slots|)
      ensures i == SlotOf(hash, |slots|)
    {
      MaskIsSlot(hash, |slots|);
      i := And(hash, |slots| - 1);
    }

    /** common/misc/hash.c:155-166: the place of the entry with the key, or of the end. */
    method Search(key: Key) returns (r: Ref, ghost a: nat)
      requires Ok()
      ensures Reached(Abs(), c, m, key, r, a)
    {
      var hash := hashFunc(key);
      var i := Masked(hash);
      ghost var chain := c[i];
      LinkedAt(heap, slots[i], chain, 0);
      r, a := Slot(i), 0;
      var he := slots[i];
      while he != NULL && !(heap[he].hash == hash && heap[he].key == key)
        invariant a <= |chain| && r == RefAt(i, chain, a) && Refers(Abs(), r)
        invariant he == if a < |chain| then chain[a] else NULL
        invariant AllIn(heap, chain) && forall b :: 0 <= b < a ==> heap[chain[b]].key != key
        decreases |chain| - a
      {
        assert At(Abs(), i, chain[a]);
        LinkedAt(heap, slots[i], chain, a + 1);
        r := NextOf(he);
        he := heap[he].next;
        a := a + 1;
      }
      SearchEnds(Abs(), c, f, m, key, r, a);
    }

    /** common/misc/hash.c:147-179; given is what malloc returns. */
    method FindEntry(key: Key, val: Option<Val>, given: Ptr) returns (r: Ref, ghost a: nat)
      requires Ok() && (val.Some? ==> given !in heap && given != NULL)
      modifies this
      ensures Ok() && |slots| == old(|slots|)
      ensures Reached(Abs(), c, m, key, r, a)
      ensures m == if key !in old(m) && val.Some? then old(m)[key := val.value] else old(m)
      ensures val.None? ==> Abs() == old(Abs()) && c == old(c) && f == old(f)
    {
      r, a := Search(key);
      if Load(Abs(), r) == NULL && val.Some? {
        Add(key, val.value, given, r, a);
      }
    }

    /** Lines 167 to 177. */
    method Add(key: Key, val: Val, given: Ptr, r: Ref, ghost a: nat)
      requires Ok() && given !in heap && given != NULL
      requires Reached(Abs(), c, m, key, r, a) && key !in m
      modifies this
      ensures Ok() && m == old(m)[key := val] && |slots| == old(|slots|)
      ensures Reached(Abs(), c, m, key, r, a)
    {
      AddAdds(Abs(), c, f, m, given, key, val, r, a);
      var x := TakeCell(Abs(), given);
      var u := Fill(x.table, r, x.p, key, val);
      ghost var i := Home(Abs(), key);
      heap, slots, count, free := u.heap, u.slots, u.count, u.free;
      c, f, m := c[i := c[i] + [x.p]], if f == [] then f else f[1..], m[key := val];
    }

    /** common/misc/hash.c:181-189. */
    method Get(key: Key) returns (val: Option<Val>)
      requires Ok()
      ensures val == Lookup(m, key)
    {
      var r, a := Search(key);
      var he := Load(Abs(), r);
      val := if he != NULL then Some(heap[he].val) else None;
    }

    /** common/misc/hash.c:191-214; without a value the key is deleted. */
    method Set(key: Key, val: Option<Val>, given: Ptr)
      requires Ok() && (val.Some? ==> given !in heap && given != NULL)
      modifies this
      ensures Ok()
      ensures m == if val.Some? then old(m)[key := val.value] else old(m) - {key}
      ensures |slots| == if val.Some? && old(|slots|) <= |m| then 2 * old(|slots|) else old(|slots|)
      ensures val.None? && HeadHas(old(Abs()), old(c), key) ==>
        var i := Home(old(Abs()), key); c == old(c)[i := old(c)[i][1..]]
    {
      var r, a := FindEntry(key, val, given);
      Change(key, val, r, a);
    }

    /** Lines 195 to 211, at the place that the search has found. */
    method Change(key: Key, val: Option<Val>, r: Ref, ghost a: nat)
      requires Ok() && Reached(Abs(), c, m, key, r, a) && (val.Some? ==> key in m)
      modifies this
      ensures Ok()
      ensures m == if val.Some? then old(m)[key := val.value] else old(m) - {key}
      ensures |slots| == if val.Some? && old(|slots|) <= |m| then 2 * old(|slots|) else old(|slots|)
      ensures val.None? && HeadHas(old(Abs()), old(c), key) ==>
        var i := Home(old(Abs()), key); c == old(c)[i := old(c)[i][1..]]
    {
      var he := Load(Abs(), r);
      if he != NULL && val.None? {
        Delete(key, r, a);
      } else if he != NULL {
        PutAndGrow(key, r, a, val.value);
      }
    }

    /** Lines 205 to 209. */
    method PutAndGrow(key: Key, r: Ref, ghost a: nat, val: Val)
      requires Ok() && Reached(Abs(), c, m, key, r, a) && key in m
      modifies this
      ensures Ok() && m == old(m)[key := val]
      ensures |slots| == if old(|slots|) <= |m| then 2 * old(|slots|) else old(|slots|)
    {
      PutValue(key, r, a, val);
      if |slots| - 1 < count {
        ExpandArray();
      }
    }

    /** Lines 197 to 201. */
    method Delete(key: Key, r: Ref, ghost a: nat)
      requires Ok() && Reached(Abs(), c, m, key, r, a) && key in m
      modifies this
      ensures Ok() && m == old(m) - {key} && |slots| == old(|slots|)
      ensures HeadHas(old(Abs()), old(c), key) ==>
        var i := Home(old(Abs()), key); c == old(c)[i := old(c)[i][1..]]
    {
      ghost var i := Home(Abs(), key);
      DeleteDeletes(Abs(), c, f, m, key, r, a);
      ghost var x := c[i][a];
      var u := Unlink(Abs(), r);
      heap, slots, count, free := u.heap, u.slots, u.count, u.free;
      c, f, m := c[i := c[i][..a] + c[i][a + 1..]], [x] + f, m - {key};
    }

    /** Line 205. */
    method PutValue(key: Key, r: Ref, ghost a: nat, val: Val)
      requires Ok() && Reached(Abs(), c, m, key, r, a) && key in m
      modifies this
      ensures Ok() && m == old(m)[key := val] && |slots| == old(|slots|) && count == old(count)
    {
      ReplaceReplaces(Abs(), c, f, m, Home(Abs(), key), a, val);
      var he := Load(Abs(), r);
      heap := heap[he := heap[he].(val := val)];
      m := m[key := val];
    }

    /** common/misc/hash.c:99-117. */
    method ExpandArray()
      requires Ok()
      modifies this
      ensures Ok() && m == old(m) && |slots| == 2 * old(|slots|)
    {
      var u;
      ghost var d;
      Doubled(|slots|);
      u, d := Expand(Abs(), c, f, m);
      heap, slots, count, free := u.heap, u.slots, u.count, u.free;
      c := d;
    }

    /** One turn of the loop of lines 224 and 225. */
    method ClearOne(it: Iter, ghost tail: seq<Ptr>) returns (has: bool, it': Iter, ghost tail': seq<Ptr>)
      requires Ok() && AtFirst(Abs(), c, it, tail)
      modifies this
      ensures Ok() && |slots| == old(|slots|)
      ensures |m| < old(|m|)
      ensures has ==> AtFirst(Abs(), c, it', tail')
      ensures !has ==> forall j :: 0 <= j < |c| ==> c[j] == []
    {
      ghost var i := it.index - 1;
      FirstIsHead(Abs(), c, it, tail);
      InMap(Abs(), c, m, i, 0);
      Set(heap[it.cur].key, None, NULL);
      assert c[i] == tail;
      StillAhead(Abs(), c, it, tail);
      has, it', tail' := Next(heap, slots, c, it, tail);
    }

    /** common/misc/hash.c:221-226: deletes every entry while it iterates. */
    method Clear()
      requires Ok()
      modifies this
      ensures Ok() && m == map[] && count == 0 && |slots| == old(|slots|)
    {
      ghost var tail: seq<Ptr> := [];
      var it := Iter(NULL, NULL, 0);
      var has;
      has, it, tail := Next(heap, slots, c, it, tail);
      while has
        invariant Ok() && |slots| == old(|slots|)
        invariant has ==> AtFirst(Abs(), c, it, tail)
        invariant !has ==> forall j :: 0 <= j < |c| ==> c[j] == []
        decreases |m|, has
      {
        has, it, tail := ClearOne(it, tail);
      }
      forall k
        ensures k !in m
      {
        assert Look(heap, c[Home(Abs(), k)], k) == Lookup(m, k);
      }
      assert m == map[];
    }

    /** common/misc/hash.c:255-278. */
    method HashDo(comp: (Key, Val) -> int) returns (dorv: int, visited: seq<Key>)
      requires Ok()
      ensures AllIn(heap, FlatFrom(c, 0))
      ensures var w := Walked(heap, FlatFrom(c, 0), comp, 1);
        visited == w.keys && dorv == if w.last == 0 then 0 else 1
    {
      FlatLooks(Abs(), c, 0);
      dorv, visited := Scan(heap, slots, c, comp);
    }
  }
}
