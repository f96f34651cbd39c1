module PoolStack {
  /* The list of recycled pools: any number of threads push with a compare-and-swap
     loop while one thread, the listener, pops.

     Each event is one access to shared memory: a read of the list head, the write
     of a node's next field, a read of a node's field, or a compare-and-swap.  The
     address of a node may be used again for a later push. */

  type Addr = nat
  type Pool = nat
  const NULL: Addr := 0

  datatype Node = Node(pool: Pool, next: Addr)

  /** A thread inside zevent_push_pool. */
  datatype Pusher =
    | Out
    | Top(node: Addr)                  // about to read the head
    | HaveHead(node: Addr, next: Addr) // about to write the node's next field
    | Linked(node: Addr, next: Addr)   // about to compare-and-swap

  /** The thread inside zevent_pop_pool. */
  datatype Popper =
    | Away
    | Start                             // about to read the head
    | HaveFirst(first: Addr)            // about to read first->next
    | HaveNext(first: Addr, next: Addr) // about to compare-and-swap
    | Unlinked(first: Addr)             // about to read first->pool

  datatype State = State(
    heap: map<Addr, Node>,
    head: Addr,
    pushers: seq<Pusher>,
    popper: Popper,
    // history
    list: seq<Addr>,       // nodes pushed and not popped, newest first
    pushed: multiset<Pool>,
    popped: seq<Pool>,     // pools at the top of the list when they were unlinked
    returned: seq<Pool>)   // pools handed to the caller

  datatype Event =
    | Begin(t: nat, node: Addr, pool: Pool)
    | ReadHead(t: nat)
    | WriteNext(t: nat)
    | SwapIn(t: nat)
    | PopBegin
    | PopReadHead
    | PopReadNext
    | SwapOut
    | PopReadPool

  function Init(threads: nat): State {
    State(map[], NULL, seq(threads, _ => Out), Away, [], multiset{}, [], [])
  }

  predicate Uses(p: Pusher, node: Addr) {
    !p.Out? && p.node == node
  }

  /** The allocator hands out an address that nobody is using. */
  predicate Unused(s: State, node: Addr) {
    && node != NULL
    && node !in s.list
    && (forall i :: 0 <= i < |s.pushers| ==> !Uses(s.pushers[i], node))
    && !(s.popper.Unlinked? && s.popper.first == node)
  }

  predicate Enabled(s: State, e: Event) {
    match e
    case Begin(t, node, _) => t < |s.pushers| && s.pushers[t].Out? && Unused(s, node)
    case ReadHead(t) => t < |s.pushers| && s.pushers[t].Top?
    case WriteNext(t) => t < |s.pushers| && s.pushers[t].HaveHead? && s.pushers[t].node in s.heap
    case SwapIn(t) => t < |s.pushers| && s.pushers[t].Linked? && s.pushers[t].node in s.heap
    case PopBegin => s.popper.Away?
    case PopReadHead => s.popper.Start?
    case PopReadNext => s.popper.HaveFirst? && s.popper.first in s.heap
    case SwapOut => s.popper.HaveNext? && s.popper.first in s.heap
    case PopReadPool => s.popper.Unlinked? && s.popper.first in s.heap
  }

  function Step(s: State, e: Event): State
    requires Enabled(s, e)
  {
    match e
    case Begin(t, node, pool) =>
      s.(heap := s.heap[node := Node(pool, NULL)], pushers := s.pushers[t := Top(node)])
    case ReadHead(t) =>
      s.(pushers := s.pushers[t := HaveHead(s.pushers[t].node, s.head)])
    case WriteNext(t) =>
      var p := s.pushers[t];
      s.(heap := s.heap[p.node := s.heap[p.node].(next := p.next)],
         pushers := s.pushers[t := Linked(p.node, p.next)])
    case SwapIn(t) =>
      var p := s.pushers[t];
      if s.head == p.next then
        s.(head := p.node, pushers := s.pushers[t := Out],
           list := [p.node] + s.list, pushed := s.pushed + multiset{s.heap[p.node].pool})
      else
        s.(pushers := s.pushers[t := Top(p.node)])
    case PopBegin => s.(popper := Start)
    case PopReadHead => s.(popper := if s.head == NULL then Away else HaveFirst(s.head))
    case PopReadNext => s.(popper := HaveNext(s.popper.first, s.heap[s.popper.first].next))
    case SwapOut =>
      var p := s.popper;
      if s.head == p.first then
        s.(head := p.next, popper := Unlinked(p.first),
           list := if s.list == [] then [] else s.list[1..],
           popped := s.popped + [s.heap[p.first].pool])
      else
        s.(popper := Start)
    case PopReadPool =>
      s.(popper := Away, returned := s.returned + [s.heap[s.popper.first].pool])
  }

  ghost predicate Run(s: State, es: seq<Event>, t: State)
    decreases |es|
  {
    if es == [] then s == t else Enabled(s, es[0]) && Run(Step(s, es[0]), es[1..], t)
  }

  /** Following next from `from` passes through exactly `nodes` and ends at NULL. */
  ghost predicate Chain(heap: map<Addr, Node>, from: Addr, nodes: seq<Addr>)
    decreases |nodes|
  {
    if nodes == [] then from == NULL
    else from == nodes[0] && from != NULL && from in heap && Chain(heap, heap[from].next, nodes[1..])
  }

  ghost predicate Distinct(nodes: seq<Addr>) {
    forall i, j :: 0 <= i < j < |nodes| ==> nodes[i] != nodes[j]
  }

  /** The stack of pools that the list stands for, top first. */
  ghost function Pools(heap: map<Addr, Node>, nodes: seq<Addr>): seq<Pool>
    requires forall a :: a in nodes ==> a in heap
  {
    seq(|nodes|, i requires 0 <= i < |nodes| => heap[nodes[i]].pool)
  }

  ghost predicate PusherOk(s: State, p: Pusher) {
    p.Out? || (
      && p.node != NULL && p.node in s.heap && p.node !in s.list
      && !(s.popper.Unlinked? && s.popper.first == p.node)
      && (p.Linked? ==> s.heap[p.node].next == p.next))
  }

  ghost predicate PopperOk(s: State) {
    match s.popper
    case HaveFirst(first) => first in s.list
    case HaveNext(first, next) => first in s.list && first in s.heap && s.heap[first].next == next
    case Unlinked(first) => first in s.heap && first !in s.list
    case _ => true
  }

  ghost predicate ListOk(s: State) {
    && Chain(s.heap, s.head, s.list) && Distinct(s.list)
    && (forall a :: a in s.list ==> a in s.heap)
  }

  ghost predicate PushersOk(s: State) {
    && (forall i :: 0 <= i < |s.pushers| ==> PusherOk(s, s.pushers[i]))
    && (forall i, j :: 0 <= i < j < |s.pushers| && !s.pushers[i].Out? && !s.pushers[j].Out? ==>
          s.pushers[i].node != s.pushers[j].node)
  }

  ghost predicate HistoryOk(s: State)
    requires ListOk(s) && PopperOk(s)
  {
    && s.pushed == multiset(s.popped) + multiset(Pools(s.heap, s.list))
    && s.popped == s.returned + (if s.popper.Unlinked? then [s.heap[s.popper.first].pool] else [])
  }

  ghost predicate Inv(s: State) {
    ListOk(s) && PushersOk(s) && PopperOk(s) && HistoryOk(s)
  }

  /** A chain is not disturbed by writes to nodes outside it. */
  lemma {:induction false} ChainFrame(heap: map<Addr, Node>, heap': map<Addr, Node>, from: Addr, nodes: seq<Addr>)
    requires Chain(heap, from, nodes)
    requires forall a :: a in nodes && a in heap ==> a in heap' && heap'[a] == heap[a]
    ensures Chain(heap', from, nodes)
    decreases |nodes|
  {
    if nodes != [] {
      ChainFrame(heap, heap', heap[from].next, nodes[1..]);
    }
  }

  /** Only one sequence of nodes can be reached from a given head. */
  lemma {:induction false} ChainUnique(heap: map<Addr, Node>, from: Addr, a: seq<Addr>, b: seq<Addr>)
    requires Chain(heap, from, a) && Chain(heap, from, b)
    ensures a == b
    decreases |a|
  {
    if a != [] && b != [] {
      ChainUnique(heap, heap[from].next, a[1..], b[1..]);
      assert a == [a[0]] + a[1..] && b == [b[0]] + b[1..];
    }
  }

  lemma PushPools(heap: map<Addr, Node>, node: Addr, nodes: seq<Addr>)
    requires node in heap && forall a :: a in nodes ==> a in heap
    ensures Pools(heap, [node] + nodes) == [heap[node].pool] + Pools(heap, nodes)
  {
  }

  /** What a compare-and-swap that succeeds for a pusher does. */
  lemma SwapInKeeps(s: State, t: nat)
    requires Inv(s) && Enabled(s, SwapIn(t)) && s.head == s.pushers[t].next
    ensures Inv(Step(s, SwapIn(t)))
    ensures var s' := Step(s, SwapIn(t));
      Pools(s'.heap, s'.list) == [s.heap[s.pushers[t].node].pool] + Pools(s.heap, s.list)
  {
    var p := s.pushers[t];
    var s' := Step(s, SwapIn(t));
    assert s'.list[1..] == s.list;
    PushPools(s.heap, p.node, s.list);
  }

  lemma SwapOutList(s: State)
    requires Inv(s) && Enabled(s, SwapOut) && s.head == s.popper.first
    ensures var s' := Step(s, SwapOut);
      && s.list == [s.popper.first] + s'.list && s.popper.first !in s'.list
      && ListOk(s') && PopperOk(s') && s'.heap == s.heap
  {
    var s' := Step(s, SwapOut);
    assert s.list == [s.popper.first] + s'.list;
  }

  /** What a compare-and-swap that succeeds for the popper does: the next field it
      read earlier still leads to the rest of the list. */
  lemma SwapOutKeeps(s: State)
    requires Inv(s) && Enabled(s, SwapOut) && s.head == s.popper.first
    ensures Inv(Step(s, SwapOut))
    ensures var s' := Step(s, SwapOut);
      Pools(s.heap, s.list) == [s.heap[s.popper.first].pool] + Pools(s'.heap, s'.list)
  {
    SwapOutList(s);
    SwapOutPushers(s);
    PushPools(s.heap, s.popper.first, Step(s, SwapOut).list);
  }

  lemma SwapOutPushers(s: State)
    requires Inv(s) && Enabled(s, SwapOut) && s.head == s.popper.first
    ensures PushersOk(Step(s, SwapOut))
  {
    var s' := Step(s, SwapOut);
    assert s.list == [s.popper.first] + s'.list;
    forall i | 0 <= i < |s'.pushers| ensures PusherOk(s', s'.pushers[i]) {
      assert PusherOk(s, s.pushers[i]);
    }
  }

  /** Every other event leaves the stack as it was. */
  predicate Silent(s: State, e: Event)
    requires Enabled(s, e)
  {
    && !(e.SwapIn? && s.head == s.pushers[e.t].next)
    && !(e.SwapOut? && s.head == s.popper.first)
  }

  lemma BeginKeeps(s: State, t: nat, node: Addr, pool: Pool)
    requires Inv(s) && Enabled(s, Begin(t, node, pool))
    ensures Inv(Step(s, Begin(t, node, pool)))
    ensures var s' := Step(s, Begin(t, node, pool)); Pools(s'.heap, s'.list) == Pools(s.heap, s.list)
  {
    var s' := Step(s, Begin(t, node, pool));
    ChainFrame(s.heap, s'.heap, s.head, s.list);
    BeginPushers(s, t, node, pool);
    assert Pools(s'.heap, s'.list) == Pools(s.heap, s.list);
  }

  lemma BeginPushers(s: State, t: nat, node: Addr, pool: Pool)
    requires Inv(s) && Enabled(s, Begin(t, node, pool))
    ensures PushersOk(Step(s, Begin(t, node, pool)))
  {
    var s' := Step(s, Begin(t, node, pool));
    forall i | 0 <= i < |s'.pushers| ensures PusherOk(s', s'.pushers[i]) {
      assert PusherOk(s, s.pushers[i]);
    }
  }

  lemma WriteNextKeeps(s: State, t: nat)
    requires Inv(s) && Enabled(s, WriteNext(t))
    ensures Inv(Step(s, WriteNext(t)))
    ensures var s' := Step(s, WriteNext(t)); Pools(s'.heap, s'.list) == Pools(s.heap, s.list)
  {
    var s' := Step(s, WriteNext(t));
    assert PusherOk(s, s.pushers[t]);
    ChainFrame(s.heap, s'.heap, s.head, s.list);
    assert PushersOk(s') by {
      forall i | 0 <= i < |s'.pushers| ensures PusherOk(s', s'.pushers[i]) {
        assert PusherOk(s, s.pushers[i]);
      }
    }
    assert Pools(s'.heap, s'.list) == Pools(s.heap, s.list);
  }

  /** Steps that change only where one pusher is. */
  lemma PusherMoves(s: State, t: nat, p: Pusher)
    requires Inv(s) && t < |s.pushers| && PusherOk(s, p)
    requires p.Out? || (!s.pushers[t].Out? && s.pushers[t].node == p.node)
    ensures Inv(s.(pushers := s.pushers[t := p]))
  {
    var s' := s.(pushers := s.pushers[t := p]);
    forall i | 0 <= i < |s'.pushers| ensures PusherOk(s', s'.pushers[i]) {
      assert PusherOk(s, s.pushers[i]);
    }
  }

  /** Steps that change only where the popper is. */
  lemma PopperMoves(s: State, e: Event)
    requires Inv(s) && Enabled(s, e) && Silent(s, e)
    requires e.PopBegin? || e.PopReadHead? || e.PopReadNext? || e.SwapOut? || e.PopReadPool?
    ensures Inv(Step(s, e))
    ensures Step(s, e).heap == s.heap && Step(s, e).list == s.list
  {
    var s' := Step(s, e);
    forall i | 0 <= i < |s'.pushers| ensures PusherOk(s', s'.pushers[i]) {
      assert PusherOk(s, s.pushers[i]);
    }
  }

  lemma SilentKeeps(s: State, e: Event)
    requires Inv(s) && Enabled(s, e) && Silent(s, e)
    ensures Inv(Step(s, e))
    ensures Pools(Step(s, e).heap, Step(s, e).list) == Pools(s.heap, s.list)
  {
    match e
    case Begin(t, node, pool) => BeginKeeps(s, t, node, pool);
    case WriteNext(t) => WriteNextKeeps(s, t);
    case ReadHead(t) =>
      assert PusherOk(s, s.pushers[t]);
      PusherMoves(s, t, HaveHead(s.pushers[t].node, s.head));
    case SwapIn(t) =>
      assert PusherOk(s, s.pushers[t]);
      PusherMoves(s, t, Top(s.pushers[t].node));
    case _ => PopperMoves(s, e);
  }

  /** Linearizability: a step either pushes the pool it is pushing on top of the
      stack, or pops the top, or leaves the stack alone; and it keeps the invariant. */
  lemma StepIsAtomic(s: State, e: Event)
    requires Inv(s) && Enabled(s, e)
    ensures Inv(Step(s, e))
    ensures var s' := Step(s, e); var before := Pools(s.heap, s.list); var after := Pools(s'.heap, s'.list);
            if s'.pushed != s.pushed then
              e.SwapIn? && s.pushers[e.t].node in s.heap && after == [s.heap[s.pushers[e.t].node].pool] + before
            else if s'.popped != s.popped then
              e.SwapOut? && before != [] && after == before[1..] && s'.popped == s.popped + [before[0]]
            else
              after == before
    ensures e.PopReadHead? && Step(s, e).popper.Away? ==> Pools(s.heap, s.list) == []
  {
    if Silent(s, e) {
      SilentKeeps(s, e);
    } else if e.SwapIn? {
      SwapInKeeps(s, e.t);
    } else {
      SwapOutKeeps(s);
      var s' := Step(s, e);
      var before := Pools(s.heap, s.list);
      assert before[1..] == Pools(s'.heap, s'.list);
    }
  }

  lemma {:induction false} RunKeepsInv(s: State, es: seq<Event>, t: State)
    requires Inv(s) && Run(s, es, t)
    ensures Inv(t)
    decreases |es|
  {
    if es != [] {
      StepIsAtomic(s, es[0]);
      RunKeepsInv(Step(s, es[0]), es[1..], t);
    }
  }

  /** The node is not listed, no other pusher has it, and the popper is not reading it. */
  ghost predicate OwnedBy(t: State, i: nat, node: Addr)
    requires i < |t.pushers|
  {
    && node in t.heap && node !in t.list
    && (forall j :: 0 <= j < |t.pushers| && j != i && !t.pushers[j].Out? ==> t.pushers[j].node != node)
    && (t.popper.HaveFirst? || t.popper.HaveNext? || t.popper.Unlinked? ==> t.popper.first != node)
  }

  /** In every interleaving the list is acyclic and holds exactly the pools pushed
      and not popped; and the pools handed out are those popped, in that order. */
  lemma RunConserves(threads: nat, es: seq<Event>, t: State)
    requires Run(Init(threads), es, t)
    ensures Chain(t.heap, t.head, t.list) && Distinct(t.list)
    ensures forall nodes :: Chain(t.heap, t.head, nodes) ==> nodes == t.list
    ensures forall a :: a in t.list ==> a in t.heap
    ensures t.pushed == multiset(t.popped) + multiset(Pools(t.heap, t.list))
    ensures t.returned <= t.popped && |t.popped| <= |t.returned| + 1
    ensures t.popper.Away? ==> t.popped == t.returned
    // a pusher writes only to a node of its own, and the popper looks only at nodes that are
    // listed, or at the one it has just taken off
    ensures forall i :: 0 <= i < |t.pushers| && !t.pushers[i].Out? ==> OwnedBy(t, i, t.pushers[i].node)
    ensures t.popper.HaveFirst? || t.popper.HaveNext? ==> t.popper.first in t.list
    ensures t.popper.HaveNext? ==> t.heap[t.popper.first].next == t.popper.next
    ensures t.popper.Unlinked? ==>
      && t.popper.first in t.heap && t.popper.first !in t.list
      && forall i :: 0 <= i < |t.pushers| && !t.pushers[i].Out? ==> t.pushers[i].node != t.popper.first
  {
    assert Inv(Init(threads)) by {
      assert Pools(Init(threads).heap, []) == [];
    }
    RunKeepsInv(Init(threads), es, t);
    forall nodes | Chain(t.heap, t.head, nodes) ensures nodes == t.list {
      ChainUnique(t.heap, t.head, nodes, t.list);
    }
    forall i | 0 <= i < |t.pushers| && !t.pushers[i].Out? ensures OwnedBy(t, i, t.pushers[i].node) {
      assert PusherOk(t, t.pushers[i]);
    }
  }

  // ------------------------------------------------- every pool given is in one place

  function GivenBy(e: Event): multiset<Pool> {
    if e.Begin? then multiset{e.pool} else multiset{}
  }

  /** The pools that callers have given to push in a run. */
  function Given(es: seq<Event>): multiset<Pool> {
    if es == [] then multiset{} else GivenBy(es[0]) + Given(es[1..])
  }

  /** The pool that a pusher has not put on the list yet. */
  function Hand(heap: map<Addr, Node>, p: Pusher): multiset<Pool> {
    if p.Out? || p.node !in heap then multiset{} else multiset{heap[p.node].pool}
  }

  function InHand(heap: map<Addr, Node>, ps: seq<Pusher>): multiset<Pool> {
    if ps == [] then multiset{} else Hand(heap, ps[0]) + InHand(heap, ps[1..])
  }

  /** The pool that the popper has taken off and not handed out. */
  function Taken(s: State): multiset<Pool> {
    if s.popper.Unlinked? && s.popper.first in s.heap then multiset{s.heap[s.popper.first].pool} else multiset{}
  }

  lemma AddBoth<T>(x: multiset<T>, a: multiset<T>, b: multiset<T>, c: multiset<T>, d: multiset<T>)
    requires a + b == c + d
    ensures (x + a) + b == (x + c) + d
  {
    assert (x + a) + b == x + (a + b);
    assert (x + c) + d == x + (c + d);
  }

  lemma {:induction false} HandMoves(heap: map<Addr, Node>, ps: seq<Pusher>, t: nat, p: Pusher)
    requires t < |ps|
    ensures InHand(heap, ps[t := p]) + Hand(heap, ps[t]) == InHand(heap, ps) + Hand(heap, p)
  {
    if t == 0 {
      assert ps[t := p][1..] == ps[1..];
    } else {
      assert ps[t := p][1..] == ps[1..][t - 1 := p];
      HandMoves(heap, ps[1..], t - 1, p);
      var q := ps[1..][t - 1 := p];
      AddBoth(Hand(heap, ps[0]), InHand(heap, q), Hand(heap, ps[t]), InHand(heap, ps[1..]), Hand(heap, p));
    }
  }

  lemma {:induction false} HandFrame(heap: map<Addr, Node>, heap': map<Addr, Node>, ps: seq<Pusher>)
    requires forall i :: 0 <= i < |ps| ==> Hand(heap', ps[i]) == Hand(heap, ps[i])
    ensures InHand(heap', ps) == InHand(heap, ps)
  {
    if ps != [] {
      HandFrame(heap, heap', ps[1..]);
    }
  }

  lemma {:induction false} NothingInHand(heap: map<Addr, Node>, threads: nat)
    ensures InHand(heap, seq(threads, _ => Out)) == multiset{}
  {
    if threads != 0 {
      assert seq(threads, _ => Out)[1..] == seq(threads - 1, _ => Out);
      NothingInHand(heap, threads - 1);
    }
  }

  /** A pusher that goes on keeps its pool in hand. */
  lemma GoesOn(heap: map<Addr, Node>, ps: seq<Pusher>, t: nat, p: Pusher)
    requires t < |ps| && Hand(heap, ps[t]) == Hand(heap, p)
    ensures InHand(heap, ps[t := p]) == InHand(heap, ps)
  {
    HandMoves(heap, ps, t, p);
    assert InHand(heap, ps[t := p]) == (InHand(heap, ps[t := p]) + Hand(heap, p)) - Hand(heap, p);
    assert InHand(heap, ps) == (InHand(heap, ps) + Hand(heap, p)) - Hand(heap, p);
  }

  lemma BeginGives(s: State, t: nat, node: Addr, pool: Pool)
    requires Enabled(s, Begin(t, node, pool))
    ensures var u := Step(s, Begin(t, node, pool));
      InHand(u.heap, u.pushers) == InHand(s.heap, s.pushers) + multiset{pool}
  {
    var u := Step(s, Begin(t, node, pool));
    forall i | 0 <= i < |s.pushers| ensures Hand(u.heap, s.pushers[i]) == Hand(s.heap, s.pushers[i]) {
      assert !Uses(s.pushers[i], node);
    }
    HandFrame(s.heap, u.heap, s.pushers);
    HandMoves(u.heap, s.pushers, t, Top(node));
    assert InHand(u.heap, u.pushers) + multiset{} == InHand(u.heap, u.pushers);
  }

  lemma WriteNextHolds(s: State, t: nat)
    requires Enabled(s, WriteNext(t))
    ensures var u := Step(s, WriteNext(t)); InHand(u.heap, u.pushers) == InHand(s.heap, s.pushers)
  {
    var u := Step(s, WriteNext(t));
    forall i | 0 <= i < |s.pushers| ensures Hand(u.heap, s.pushers[i]) == Hand(s.heap, s.pushers[i]) {
    }
    HandFrame(s.heap, u.heap, s.pushers);
    GoesOn(u.heap, s.pushers, t, u.pushers[t]);
  }

  lemma SwapInMoves(s: State, t: nat)
    requires Enabled(s, SwapIn(t))
    ensures var u := Step(s, SwapIn(t));
      u.pushed + InHand(u.heap, u.pushers) == s.pushed + InHand(s.heap, s.pushers)
  {
    var u, p := Step(s, SwapIn(t)), s.pushers[t];
    if s.head == p.next {
      HandMoves(s.heap, s.pushers, t, Out);
      var m := Hand(s.heap, p);
      assert (s.pushed + m) + InHand(s.heap, u.pushers) == s.pushed + (InHand(s.heap, u.pushers) + m);
      assert InHand(s.heap, s.pushers) + multiset{} == InHand(s.heap, s.pushers);
    } else {
      GoesOn(s.heap, s.pushers, t, Top(p.node));
    }
  }

  /** Every step keeps each pool in one place, and a call of push brings its own in. */
  lemma StepPlaces(s: State, e: Event)
    requires Enabled(s, e)
    ensures var u := Step(s, e);
      u.pushed + InHand(u.heap, u.pushers) == (s.pushed + InHand(s.heap, s.pushers)) + GivenBy(e)
  {
    match e
    case Begin(t, node, pool) => BeginGives(s, t, node, pool);
      var x := InHand(s.heap, s.pushers);
      assert s.pushed + (x + multiset{pool}) == (s.pushed + x) + multiset{pool};
    case ReadHead(t) => GoesOn(s.heap, s.pushers, t, HaveHead(s.pushers[t].node, s.head));
    case WriteNext(t) => WriteNextHolds(s, t);
    case SwapIn(t) => SwapInMoves(s, t);
    case _ =>
  }

  lemma {:induction false} RunPlaces(s: State, es: seq<Event>, t: State)
    requires Run(s, es, t)
    ensures t.pushed + InHand(t.heap, t.pushers) == (s.pushed + InHand(s.heap, s.pushers)) + Given(es)
    decreases |es|
  {
    if es != [] {
      var u := Step(s, es[0]);
      StepPlaces(s, es[0]);
      RunPlaces(u, es[1..], t);
      Regroup(s.pushed + InHand(s.heap, s.pushers), GivenBy(es[0]), Given(es[1..]));
    }
  }

  lemma Regroup<T>(a: multiset<T>, b: multiset<T>, c: multiset<T>)
    ensures (a + b) + c == a + (b + c)
  {
  }

  /** In every interleaving each pool that a caller has given to push is in exactly one
      place: handed out, taken off by the popper, on the list, or in the hands of the thread
      that pushes it. */
  lemma EveryPoolIsSomewhere(threads: nat, es: seq<Event>, t: State)
    requires Run(Init(threads), es, t)
    ensures forall a :: a in t.list ==> a in t.heap
    ensures Given(es) == ((multiset(t.returned) + Taken(t)) + multiset(Pools(t.heap, t.list)))
                         + InHand(t.heap, t.pushers)
    ensures forall i :: 0 <= i < |t.pushers| && !t.pushers[i].Out? ==> t.pushers[i].node in t.heap
  {
    var s := Init(threads);
    assert Inv(s) by {
      assert Pools(s.heap, []) == [];
    }
    RunKeepsInv(s, es, t);
    AllAccountedFor(threads, es, t);
    TakenIsPopped(t);
    forall i | 0 <= i < |t.pushers| && !t.pushers[i].Out? ensures t.pushers[i].node in t.heap {
      assert PusherOk(t, t.pushers[i]);
    }
  }

  lemma AllAccountedFor(threads: nat, es: seq<Event>, t: State)
    requires Run(Init(threads), es, t)
    ensures Given(es) == t.pushed + InHand(t.heap, t.pushers)
  {
    var s := Init(threads);
    NothingInHand(s.heap, threads);
    RunPlaces(s, es, t);
    assert multiset{} + Given(es) == Given(es);
  }

  lemma TakenIsPopped(t: State)
    requires Inv(t)
    ensures multiset(t.popped) == multiset(t.returned) + Taken(t)
  {
  }

  /** A pop ends with the list empty or with one more pool handed out. */
  lemma PopAnswers(s: State, e: Event)
    requires Inv(s) && Enabled(s, e) && !s.popper.Away? && Step(s, e).popper.Away?
    ensures (s.list == [] && Step(s, e).returned == s.returned)
            || exists x :: Taken(s) == multiset{x} && Step(s, e).returned == s.returned + [x]
  {
  }

  lemma RunFirst(s: State, e: Event, es: seq<Event>, t: State)
    requires Enabled(s, e) && Run(Step(s, e), es, t)
    ensures Run(s, [e] + es, t)
  {
    assert ([e] + es)[1..] == es;
  }

  /** From s pusher t alone comes to its end in at most n steps, with its pool on top. */
  ghost predicate PushEnds(s: State, t: nat, es: seq<Event>, u: State, n: nat)
    requires Inv(s) && t < |s.pushers| && !s.pushers[t].Out?
  {
    assert PusherOk(s, s.pushers[t]);
    && Run(s, es, u) && Inv(u) && |es| <= n && u.pushers == s.pushers[t := Out]
    && Pools(u.heap, u.list) == [s.heap[s.pushers[t].node].pool] + Pools(s.heap, s.list)
  }

  /** One step of a pusher that does not put its pool on the list. */
  lemma PushGoesOn(s: State, t: nat, e: Event, es: seq<Event>, u: State, n: nat)
    requires Inv(s) && Enabled(s, e) && Silent(s, e)
    requires e == ReadHead(t) || e == WriteNext(t) || e == SwapIn(t)
    requires Inv(Step(s, e)) && !Step(s, e).pushers[t].Out? && PushEnds(Step(s, e), t, es, u, n)
    ensures PushEnds(s, t, [e] + es, u, n + 1)
  {
    SilentKeeps(s, e);
    RunFirst(s, e, es, u);
    StillPushes(s, t, e);
  }

  lemma StillPushes(s: State, t: nat, e: Event)
    requires Inv(s) && Enabled(s, e) && Silent(s, e)
    requires e == ReadHead(t) || e == WriteNext(t) || e == SwapIn(t)
    ensures var u := Step(s, e); var p := u.pushers[t]; var q := s.pushers[t];
      && !p.Out? && p.node == q.node && q.node in s.heap && u.heap[p.node].pool == s.heap[q.node].pool
      && u.pushers[t := Out] == s.pushers[t := Out]
  {
    assert PusherOk(s, s.pushers[t]);
  }

  lemma LinkedEnds(s: State, t: nat) returns (es: seq<Event>, u: State)
    requires Inv(s) && t < |s.pushers| && s.pushers[t].Linked? && s.head == s.pushers[t].next
    ensures PushEnds(s, t, es, u, 1)
  {
    assert PusherOk(s, s.pushers[t]);
    SwapInKeeps(s, t);
    es, u := [SwapIn(t)] + [], Step(s, SwapIn(t));
    RunFirst(s, SwapIn(t), [], u);
  }

  lemma TopEnds(s: State, t: nat) returns (es: seq<Event>, u: State)
    requires Inv(s) && t < |s.pushers| && s.pushers[t].Top?
    ensures PushEnds(s, t, es, u, 3)
  {
    SilentKeeps(s, ReadHead(t));
    var s1 := Step(s, ReadHead(t));
    assert PusherOk(s1, s1.pushers[t]);
    SilentKeeps(s1, WriteNext(t));
    es, u := LinkedEnds(Step(s1, WriteNext(t)), t);
    PushGoesOn(s1, t, WriteNext(t), es, u, 1);
    PushGoesOn(s, t, ReadHead(t), [WriteNext(t)] + es, u, 2);
    es := [ReadHead(t)] + ([WriteNext(t)] + es);
  }

  lemma SwapEnds(s: State, t: nat) returns (es: seq<Event>, u: State)
    requires Inv(s) && t < |s.pushers| && s.pushers[t].Linked?
    ensures PushEnds(s, t, es, u, 4)
  {
    assert PusherOk(s, s.pushers[t]);
    if s.head == s.pushers[t].next {
      es, u := LinkedEnds(s, t);
    } else {
      SilentKeeps(s, SwapIn(t));
      es, u := TopEnds(Step(s, SwapIn(t)), t);
      PushGoesOn(s, t, SwapIn(t), es, u, 3);
      es := [SwapIn(t)] + es;
    }
  }

  /** Wherever a pusher is and whatever the others have done, it needs at most five steps of
      its own, if nobody comes between, to put its pool on top. */
  lemma PushFinishes(s: State, t: nat) returns (es: seq<Event>, u: State)
    requires Inv(s) && t < |s.pushers| && !s.pushers[t].Out?
    ensures PushEnds(s, t, es, u, 5)
  {
    match s.pushers[t]
    case Top(_) => es, u := TopEnds(s, t);
    case Linked(_, _) => es, u := SwapEnds(s, t);
    case HaveHead(_, _) =>
      assert PusherOk(s, s.pushers[t]);
      SilentKeeps(s, WriteNext(t));
      es, u := SwapEnds(Step(s, WriteNext(t)), t);
      PushGoesOn(s, t, WriteNext(t), es, u, 4);
      es := [WriteNext(t)] + es;
  }

  /** From s the popper alone comes to its end in at most n steps, and hands out the pool it
      has taken off, or else the top, or else none. */
  ghost predicate PopEnds(s: State, es: seq<Event>, u: State, n: nat)
    requires Inv(s)
  {
    var before := Pools(s.heap, s.list);
    && Run(s, es, u) && Inv(u) && |es| <= n && u.popper.Away? && u.pushers == s.pushers
    && (if s.popper.Unlinked? then
          u.returned == s.returned + [s.heap[s.popper.first].pool] && Pools(u.heap, u.list) == before
        else if before == [] then u.returned == s.returned && Pools(u.heap, u.list) == []
        else u.returned == s.returned + [before[0]] && Pools(u.heap, u.list) == before[1..])
  }

  lemma UnlinkedEnds(s: State) returns (es: seq<Event>, u: State)
    requires Inv(s) && s.popper.Unlinked?
    ensures PopEnds(s, es, u, 1)
  {
    SilentKeeps(s, PopReadPool);
    es, u := [PopReadPool] + [], Step(s, PopReadPool);
    RunFirst(s, PopReadPool, [], u);
  }

  lemma UnlinksAndEnds(s: State) returns (es: seq<Event>, u: State)
    requires Inv(s) && s.popper.HaveNext? && s.head == s.popper.first
    ensures PopEnds(s, es, u, 2)
  {
    SwapOutKeeps(s);
    var s1 := Step(s, SwapOut);
    es, u := UnlinkedEnds(s1);
    RunFirst(s, SwapOut, es, u);
    es := [SwapOut] + es;
    var x, rest := s.heap[s.popper.first].pool, Pools(s1.heap, s1.list);
    assert ([x] + rest)[1..] == rest;
  }

  /** One step of a popper that takes nothing off. */
  lemma PopGoesOn(s: State, e: Event, es: seq<Event>, u: State, n: nat)
    requires Inv(s) && Enabled(s, e) && Silent(s, e) && (e.PopReadHead? || e.PopReadNext? || e.SwapOut?)
    requires Inv(Step(s, e)) && PopEnds(Step(s, e), es, u, n)
    ensures PopEnds(s, [e] + es, u, n + 1)
  {
    SilentKeeps(s, e);
    RunFirst(s, e, es, u);
  }

  lemma StartEnds(s: State) returns (es: seq<Event>, u: State)
    requires Inv(s) && s.popper.Start?
    ensures PopEnds(s, es, u, 4)
  {
    SilentKeeps(s, PopReadHead);
    var s1 := Step(s, PopReadHead);
    if s.head == NULL {
      es, u := [PopReadHead] + [], s1;
      RunFirst(s, PopReadHead, [], u);
    } else {
      SilentKeeps(s1, PopReadNext);
      es, u := UnlinksAndEnds(Step(s1, PopReadNext));
      PopGoesOn(s1, PopReadNext, es, u, 2);
      PopGoesOn(s, PopReadHead, [PopReadNext] + es, u, 3);
      es := [PopReadHead] + ([PopReadNext] + es);
    }
  }

  lemma SwapOutEnds(s: State) returns (es: seq<Event>, u: State)
    requires Inv(s) && s.popper.HaveNext?
    ensures PopEnds(s, es, u, 5)
  {
    if s.head == s.popper.first {
      es, u := UnlinksAndEnds(s);
    } else {
      SilentKeeps(s, SwapOut);
      es, u := StartEnds(Step(s, SwapOut));
      PopGoesOn(s, SwapOut, es, u, 4);
      es := [SwapOut] + es;
    }
  }

  /** Wherever the popper is, it needs at most six steps of its own, if nobody comes between,
      to hand out the top or to find nothing. */
  lemma PopFinishes(s: State) returns (es: seq<Event>, u: State)
    requires Inv(s) && !s.popper.Away?
    ensures PopEnds(s, es, u, 6)
  {
    match s.popper
    case Start => es, u := StartEnds(s);
    case HaveNext(_, _) => es, u := SwapOutEnds(s);
    case Unlinked(_) => es, u := UnlinkedEnds(s);
    case HaveFirst(_) =>
      SilentKeeps(s, PopReadNext);
      es, u := SwapOutEnds(Step(s, PopReadNext));
      PopGoesOn(s, PopReadNext, es, u, 5);
      es := [PopReadNext] + es;
  }

  /** So a call of pop, if nobody comes between, hands out the top or finds nothing. */
  lemma PopCallFinishes(s: State) returns (es: seq<Event>, u: State)
    requires Inv(s) && s.popper.Away?
    ensures Run(s, es, u) && |es| <= 7 && u.popper.Away?
    ensures var before := Pools(s.heap, s.list);
      && u.returned == s.returned + before[..if before == [] then 0 else 1]
      && Inv(u) && Pools(u.heap, u.list) == before[if before == [] then 0 else 1..]
  {
    SilentKeeps(s, PopBegin);
    es, u := PopFinishes(Step(s, PopBegin));
    RunFirst(s, PopBegin, es, u);
    es := [PopBegin] + es;
    var before := Pools(s.heap, s.list);
    assert before != [] ==> before[..1] == [before[0]];
  }
}
