module BlockingQueue {
  /* The blocking bounded queue: a circular buffer shared by any number of pushing
     and popping threads, with two condition variables, interruption and
     termination.

     Each event is one critical section, the unlocked read of the termination flag
     with which a call begins, or one spurious wakeup.  A call that finds nothing to
     do reads the flag once more after it has unlocked, to tell the end from an
     interruption (common/misc/queue.c:125 and 232); that read changes nothing that is
     shared, so it is no event: the thread is already Idle, and Queue.ReadFlag is the
     read. */

  import opened Counting

  type Item = nat

  datatype Thread =
    | Idle
    | WantPush(item: Item, blocking: bool)  // past the unlocked check, wants the mutex
    | WantPop(blocking: bool)
    | PushWaiting(item: Item)               // blocked on not_full
    | PushWoken(item: Item)                 // out of the wait, wants the mutex back
    | PopWaiting                            // blocked on not_empty
    | PopWoken
    | Closing                               // has set terminated, has not broadcast yet

  datatype State = State(
    data: seq<Item>,
    nelts: nat,
    inn: nat,          // next empty location
    out: nat,          // next filled location
    fullWaiters: nat,
    emptyWaiters: nat,
    terminated: bool,
    threads: seq<Thread>,
    // history
    closed: bool,      // a broadcast has followed the setting of terminated
    pushed: seq<Item>,
    popped: seq<Item>)

  /** `signalled` is the thread that the condition variable wakes, if it has any. */
  datatype Event =
    | PushCall(t: nat, item: Item, blocking: bool)
    | PushLocked(t: nat, signalled: nat)
    | PushSpurious(t: nat)
    | PushResume(t: nat, signalled: nat)
    | PopCall(t: nat, blocking: bool)
    | PopLocked(t: nat, signalled: nat)
    | PopSpurious(t: nat)
    | PopResume(t: nat, signalled: nat)
    | InterruptAll(t: nat)
    | TermSet(t: nat)

  function Init(cells: seq<Item>, threads: nat): State {
    State(cells, 0, 0, 0, 0, 0, false, seq(threads, _ => Idle), false, [], [])
  }

  predicate Full(s: State) { s.nelts == |s.data| }

  predicate Empty(s: State) { s.nelts == 0 }

  const POP_WAITING: Thread -> bool := (p: Thread) => p.PopWaiting?
  const POP_WOKEN: Thread -> bool := (p: Thread) => p.PopWoken?
  const PUSH_WAITING: Thread -> bool := (p: Thread) => p.PushWaiting?
  const PUSH_WOKEN: Thread -> bool := (p: Thread) => p.PushWoken?

  predicate Some(threads: seq<Thread>, f: Thread -> bool) {
    exists i :: 0 <= i < |threads| && f(threads[i])
  }

  /** A signal picks one of the blocked threads, if there are any. */
  predicate PicksPopper(s: State, w: nat) {
    Some(s.threads, POP_WAITING) ==> w < |s.threads| && s.threads[w].PopWaiting?
  }

  predicate PicksPusher(s: State, w: nat) {
    Some(s.threads, PUSH_WAITING) ==> w < |s.threads| && s.threads[w].PushWaiting?
  }

  predicate RingOk(s: State) { RingAt(|s.data|, s.inn, s.out, s.nelts) }

  predicate RingAt(n: nat, inn: nat, out: nat, nelts: nat) {
    nelts <= n && (n > 0 ==> inn < n && out < n && inn == (out + nelts) % n)
  }

  predicate Enabled(s: State, e: Event) {
    && e.t < |s.threads|
    && match e
       case PushCall(t, _, _) => s.threads[t].Idle?
       case PushLocked(t, w) => s.threads[t].WantPush? && PicksPopper(s, w) && RingOk(s)
       case PushSpurious(t) => s.threads[t].PushWaiting?
       case PushResume(t, w) => s.threads[t].PushWoken? && PicksPopper(s, w) && RingOk(s) && s.fullWaiters > 0
       case PopCall(t, _) => s.threads[t].Idle?
       case PopLocked(t, w) => s.threads[t].WantPop? && PicksPusher(s, w) && RingOk(s)
       case PopSpurious(t) => s.threads[t].PopWaiting?
       case PopResume(t, w) => s.threads[t].PopWoken? && PicksPusher(s, w) && RingOk(s) && s.emptyWaiters > 0
       case InterruptAll(t) => s.threads[t].Idle? || s.threads[t].Closing?
       case TermSet(t) => s.threads[t].Idle?
  }

  function At(s: State, t: nat, p: Thread): State
    requires t < |s.threads|
  {
    s.(threads := s.threads[t := p])
  }

  /** Store an item; wake a popper if the waiter count is not zero. */
  function Put(s: State, x: Item, w: nat): State
    requires RingOk(s) && !Full(s) && PicksPopper(s, w)
  {
    var s1 := s.(data := s.data[s.inn := x], inn := (s.inn + 1) % |s.data|, nelts := s.nelts + 1,
                 pushed := s.pushed + [x]);
    if s.emptyWaiters > 0 && Some(s.threads, POP_WAITING) then At(s1, w, PopWoken) else s1
  }

  /** Fetch an item; wake a pusher if the waiter count is not zero. */
  function Take(s: State, w: nat): State
    requires RingOk(s) && !Empty(s) && PicksPusher(s, w)
  {
    var s1 := s.(out := (s.out + 1) % |s.data|, nelts := s.nelts - 1, popped := s.popped + [s.data[s.out]]);
    if s.fullWaiters > 0 && Some(s.threads, PUSH_WAITING) then At(s1, w, PushWoken(s.threads[w].item)) else s1
  }

  function WakeAll(threads: seq<Thread>): seq<Thread> {
    seq(|threads|, i requires 0 <= i < |threads| =>
      match threads[i] case PushWaiting(x) => PushWoken(x) case PopWaiting => PopWoken case p => p)
  }

  /** The critical section of a push, as far as the wait. */
  function PushEnter(s: State, t: nat, w: nat): State
    requires t < |s.threads| && s.threads[t].WantPush? && PicksPopper(s, w) && RingOk(s)
  {
    var p := s.threads[t];
    if !Full(s) then Put(At(s, t, Idle), p.item, w)
    else if p.blocking && !s.terminated then At(s, t, PushWaiting(p.item)).(fullWaiters := s.fullWaiters + 1)
    else At(s, t, Idle)
  }

  function LeftPushWait(s: State, t: nat): State
    requires t < |s.threads| && s.fullWaiters > 0
  {
    At(s, t, Idle).(fullWaiters := s.fullWaiters - 1)
  }

  function LeftPopWait(s: State, t: nat): State
    requires t < |s.threads| && s.emptyWaiters > 0
  {
    At(s, t, Idle).(emptyWaiters := s.emptyWaiters - 1)
  }

  /** The critical section of a push from the wait on: if the queue is full again
      the push gives up. */
  function PushAgain(s: State, t: nat, w: nat): State
    requires t < |s.threads| && s.threads[t].PushWoken? && PicksPopper(s, w) && RingOk(s) && s.fullWaiters > 0
  {
    var s1 := LeftPushWait(s, t);
    if !Full(s) then Put(s1, s.threads[t].item, w) else s1
  }

  function PopEnter(s: State, t: nat, w: nat): State
    requires t < |s.threads| && s.threads[t].WantPop? && PicksPusher(s, w) && RingOk(s)
  {
    if !Empty(s) then Take(At(s, t, Idle), w)
    else if s.threads[t].blocking && !s.terminated then At(s, t, PopWaiting).(emptyWaiters := s.emptyWaiters + 1)
    else At(s, t, Idle)
  }

  function PopAgain(s: State, t: nat, w: nat): State
    requires t < |s.threads| && s.threads[t].PopWoken? && PicksPusher(s, w) && RingOk(s) && s.emptyWaiters > 0
  {
    var s1 := LeftPopWait(s, t);
    if !Empty(s) then Take(s1, w) else s1
  }

  function Broadcast(s: State, t: nat): State
    requires t < |s.threads|
  {
    s.(threads := WakeAll(s.threads)[t := Idle], closed := s.closed || s.terminated)
  }

  function Step(s: State, e: Event): State
    requires Enabled(s, e)
  {
    match e
    case PushCall(t, x, blocking) => if s.terminated then s else At(s, t, WantPush(x, blocking))
    case PushLocked(t, w) => PushEnter(s, t, w)
    case PushSpurious(t) => At(s, t, PushWoken(s.threads[t].item))
    case PushResume(t, w) => PushAgain(s, t, w)
    case PopCall(t, blocking) => if s.terminated then s else At(s, t, WantPop(blocking))
    case PopLocked(t, w) => PopEnter(s, t, w)
    case PopSpurious(t) => At(s, t, PopWoken)
    case PopResume(t, w) => PopAgain(s, t, w)
    case InterruptAll(t) => Broadcast(s, t)
    case TermSet(t) => At(s, t, Closing).(terminated := true)
  }

  ghost predicate Run(s: State, es: seq<Event>, t: State)
    decreases |es|
  {
    if es == [] then s == t else Enabled(s, es[0]) && Run(Step(s, es[0]), es[1..], t)
  }

  // ------------------------------------------------------- the circular buffer

  /** k cells from place out on, around the end of the buffer. */
  function Window(data: seq<Item>, out: nat, k: nat): (c: seq<Item>)
    requires k <= |data|
    ensures |c| == k
  {
    seq(k, i requires 0 <= i < k => data[(out + i) % |data|])
  }

  /** The items in the queue, oldest first. */
  function Contents(s: State): (c: seq<Item>)
    requires RingOk(s)
    ensures |c| == s.nelts
  {
    Window(s.data, s.out, s.nelts)
  }

  lemma Wrap(a: nat, n: nat)
    requires 0 < n && a < 2 * n
    ensures a % n == if a < n then a else a - n
  {
  }

  lemma PutPlaces(inn: nat, out: nat, nelts: nat, n: nat)
    requires nelts < n && RingAt(n, inn, out, nelts)
    ensures RingAt(n, (inn + 1) % n, out, nelts + 1)
  {
    Wrap(out + nelts, n);
    Wrap(inn + 1, n);
    Wrap(out + (nelts + 1), n);
  }

  lemma TakePlaces(inn: nat, out: nat, nelts: nat, n: nat)
    requires 0 < nelts && RingAt(n, inn, out, nelts)
    ensures RingAt(n, inn, (out + 1) % n, nelts - 1)
  {
    Wrap(out + nelts, n);
    Wrap(out + 1, n);
    Wrap((out + 1) % n + (nelts - 1), n);
  }

  /** Item i + 1 lies i places after the place after out. */
  lemma NextPlace(out: nat, i: nat, n: nat)
    requires out < n && i < n
    ensures ((out + 1) % n + i) % n == (out + (i + 1)) % n
  {
    Wrap(out + 1, n);
    Wrap((out + 1) % n + i, n);
    Wrap(out + (i + 1), n);
  }

  lemma OtherPlace(out: nat, i: nat, nelts: nat, n: nat)
    requires out < n && i < nelts < n
    ensures (out + i) % n != (out + nelts) % n
  {
    Wrap(out + i, n);
    Wrap(out + nelts, n);
  }

  lemma WindowGrows(data: seq<Item>, out: nat, k: nat, x: Item)
    requires out < |data| && k < |data|
    ensures Window(data[(out + k) % |data| := x], out, k + 1) == Window(data, out, k) + [x]
  {
    var more := data[(out + k) % |data| := x];
    forall i | 0 <= i < k
      ensures Window(more, out, k + 1)[i] == Window(data, out, k)[i]
    {
      OtherPlace(out, i, k, |data|);
    }
  }

  lemma WindowShrinks(data: seq<Item>, out: nat, k: nat)
    requires out < |data| && 0 < k <= |data|
    ensures Window(data, out, k) == [data[out]] + Window(data, (out + 1) % |data|, k - 1)
  {
    var less := Window(data, (out + 1) % |data|, k - 1);
    Wrap(out, |data|);
    forall i | 0 <= i < k - 1
      ensures less[i] == Window(data, out, k)[i + 1]
    {
      NextPlace(out, i, |data|);
    }
  }

  lemma PutAppends(s: State, x: Item, w: nat)
    requires RingOk(s) && !Full(s) && PicksPopper(s, w)
    ensures RingOk(Put(s, x, w)) && Contents(Put(s, x, w)) == Contents(s) + [x]
  {
    PutPlaces(s.inn, s.out, s.nelts, |s.data|);
    WindowGrows(s.data, s.out, s.nelts, x);
  }

  lemma TakeRing(s: State, w: nat)
    requires RingOk(s) && !Empty(s) && PicksPusher(s, w)
    ensures RingOk(Take(s, w)) && Take(s, w).data == s.data
    ensures Take(s, w).out == (s.out + 1) % |s.data| && Take(s, w).nelts == s.nelts - 1
  {
    TakePlaces(s.inn, s.out, s.nelts, |s.data|);
  }

  lemma TakeRemoves(s: State, w: nat)
    requires RingOk(s) && !Empty(s) && PicksPusher(s, w)
    ensures RingOk(Take(s, w)) && Contents(s) == [s.data[s.out]] + Contents(Take(s, w))
  {
    TakeRing(s, w);
    WindowShrinks(s.data, s.out, s.nelts);
  }

  ghost predicate FifoOk(s: State) {
    RingOk(s) && s.pushed == s.popped + Contents(s)
  }

  predicate SameRing(s: State, s': State) {
    s'.data == s.data && s'.nelts == s.nelts && s'.inn == s.inn && s'.out == s.out
    && s'.pushed == s.pushed && s'.popped == s.popped
  }

  lemma SameRingFifo(s: State, s': State)
    requires FifoOk(s) && SameRing(s, s')
    ensures FifoOk(s') && Contents(s') == Contents(s)
  {
    assert Contents(s') == Contents(s);
  }

  lemma PutFifo(s: State, x: Item, w: nat)
    requires RingOk(s) && !Full(s) && PicksPopper(s, w) && FifoOk(s)
    ensures FifoOk(Put(s, x, w)) && Put(s, x, w).pushed == s.pushed + [x] && Put(s, x, w).popped == s.popped
  {
    PutAppends(s, x, w);
  }

  lemma TakeFifo(s: State, w: nat)
    requires RingOk(s) && !Empty(s) && PicksPusher(s, w) && FifoOk(s)
    ensures FifoOk(Take(s, w)) && Take(s, w).pushed == s.pushed && Take(s, w).popped == s.popped + [Contents(s)[0]]
  {
    TakeRemoves(s, w);
  }

  lemma PushEnterFifo(s: State, t: nat, w: nat)
    requires t < |s.threads| && s.threads[t].WantPush? && PicksPopper(s, w) && FifoOk(s)
    ensures FifoOk(PushEnter(s, t, w))
    ensures PushEnter(s, t, w).pushed == if Full(s) then s.pushed else s.pushed + [s.threads[t].item]
    ensures PushEnter(s, t, w).popped == s.popped && |PushEnter(s, t, w).data| == |s.data|
  {
    SameRingFifo(s, At(s, t, Idle));
    if !Full(s) {
      PutFifo(At(s, t, Idle), s.threads[t].item, w);
    } else {
      SameRingFifo(s, PushEnter(s, t, w));
    }
  }

  lemma PushAgainFifo(s: State, t: nat, w: nat)
    requires t < |s.threads| && s.threads[t].PushWoken? && PicksPopper(s, w) && FifoOk(s) && s.fullWaiters > 0
    ensures FifoOk(PushAgain(s, t, w))
    ensures PushAgain(s, t, w).pushed == if Full(s) then s.pushed else s.pushed + [s.threads[t].item]
    ensures PushAgain(s, t, w).popped == s.popped && |PushAgain(s, t, w).data| == |s.data|
  {
    var s1 := LeftPushWait(s, t);
    SameRingFifo(s, s1);
    if !Full(s) {
      PutFifo(s1, s.threads[t].item, w);
    }
  }

  lemma PopEnterFifo(s: State, t: nat, w: nat)
    requires t < |s.threads| && s.threads[t].WantPop? && PicksPusher(s, w) && FifoOk(s)
    ensures FifoOk(PopEnter(s, t, w)) && PopEnter(s, t, w).pushed == s.pushed && |PopEnter(s, t, w).data| == |s.data|
    ensures PopEnter(s, t, w).popped == if Empty(s) then s.popped else s.popped + [Contents(s)[0]]
  {
    SameRingFifo(s, At(s, t, Idle));
    if !Empty(s) {
      TakeFifo(At(s, t, Idle), w);
    } else {
      SameRingFifo(s, PopEnter(s, t, w));
    }
  }

  lemma PopAgainFifo(s: State, t: nat, w: nat)
    requires t < |s.threads| && s.threads[t].PopWoken? && PicksPusher(s, w) && FifoOk(s) && s.emptyWaiters > 0
    ensures FifoOk(PopAgain(s, t, w)) && PopAgain(s, t, w).pushed == s.pushed && |PopAgain(s, t, w).data| == |s.data|
    ensures PopAgain(s, t, w).popped == if Empty(s) then s.popped else s.popped + [Contents(s)[0]]
  {
    var s1 := LeftPopWait(s, t);
    SameRingFifo(s, s1);
    if !Empty(s) {
      TakeFifo(s1, w);
    }
  }

  lemma StepFifo(s: State, e: Event)
    requires Enabled(s, e) && FifoOk(s)
    ensures FifoOk(Step(s, e)) && |Step(s, e).data| == |s.data|
    ensures s.pushed <= Step(s, e).pushed && s.popped <= Step(s, e).popped
  {
    match e
    case PushLocked(t, w) => PushEnterFifo(s, t, w);
    case PushResume(t, w) => PushAgainFifo(s, t, w);
    case PopLocked(t, w) => PopEnterFifo(s, t, w);
    case PopResume(t, w) => PopAgainFifo(s, t, w);
    case _ => SameRingFifo(s, Step(s, e));
  }

  // ------------------------------------------------------------------- wakeups

  /** The waiter counters count the threads in the waits, woken or not. */
  ghost predicate WaitersOk(s: State) {
    && s.emptyWaiters == Count(s.threads, POP_WAITING) + Count(s.threads, POP_WOKEN)
    && s.fullWaiters == Count(s.threads, PUSH_WAITING) + Count(s.threads, PUSH_WOKEN)
  }

  /** While a popper sleeps, at least `items` poppers are awake to take items. */
  ghost predicate PoppersAwake(s: State, items: int) {
    Count(s.threads, POP_WAITING) > 0 ==> items <= Count(s.threads, POP_WOKEN)
  }

  ghost predicate PushersAwake(s: State, slots: int) {
    Count(s.threads, PUSH_WAITING) > 0 ==> slots <= Count(s.threads, PUSH_WOKEN)
  }

  ghost predicate AwakeOk(s: State) {
    && WaitersOk(s)
    && PoppersAwake(s, s.nelts)
    && PushersAwake(s, |s.data| - s.nelts)
  }

  function One(b: bool): int { if b then 1 else 0 }

  /** The count has changed as one thread left the state or came to it. */
  ghost predicate Moved(s: State, s': State, f: Thread -> bool, before: bool, after: bool) {
    Count(s'.threads, f) == Count(s.threads, f) - One(before) + One(after)
  }

  lemma AtCounts(s: State, t: nat, p: Thread)
    requires t < |s.threads|
    ensures var s' := At(s, t, p); var old_ := s.threads[t];
            && Moved(s, s', POP_WAITING, old_.PopWaiting?, p.PopWaiting?)
            && Moved(s, s', POP_WOKEN, old_.PopWoken?, p.PopWoken?)
            && Moved(s, s', PUSH_WAITING, old_.PushWaiting?, p.PushWaiting?)
            && Moved(s, s', PUSH_WOKEN, old_.PushWoken?, p.PushWoken?)
  {
    CountUpdate(s.threads, t, p, POP_WAITING);
    CountUpdate(s.threads, t, p, POP_WOKEN);
    CountUpdate(s.threads, t, p, PUSH_WAITING);
    CountUpdate(s.threads, t, p, PUSH_WOKEN);
  }

  lemma {:induction false} WakeAllCounts(threads: seq<Thread>)
    ensures Count(WakeAll(threads), POP_WAITING) == 0
    ensures Count(WakeAll(threads), PUSH_WAITING) == 0
    ensures Count(WakeAll(threads), POP_WOKEN) == Count(threads, POP_WOKEN) + Count(threads, POP_WAITING)
    ensures Count(WakeAll(threads), PUSH_WOKEN) == Count(threads, PUSH_WOKEN) + Count(threads, PUSH_WAITING)
  {
    if threads != [] {
      WakeAllCounts(threads[1..]);
      assert WakeAll(threads)[1..] == WakeAll(threads[1..]);
    }
  }

  /** A put hands one more item to the poppers and takes one slot from the pushers. */
  lemma PutAwake(s: State, x: Item, w: nat)
    requires RingOk(s) && !Full(s) && PicksPopper(s, w)
    requires WaitersOk(s) && PoppersAwake(s, s.nelts) && PushersAwake(s, |s.data| - s.nelts - 1)
    ensures AwakeOk(Put(s, x, w))
  {
    CountPositive(s.threads, POP_WAITING);
    if w < |s.threads| {
      AtCounts(s, w, PopWoken);
    }
  }

  lemma TakeAwake(s: State, w: nat)
    requires RingOk(s) && !Empty(s) && PicksPusher(s, w)
    requires WaitersOk(s) && PoppersAwake(s, s.nelts - 1) && PushersAwake(s, |s.data| - s.nelts)
    ensures AwakeOk(Take(s, w))
  {
    CountPositive(s.threads, PUSH_WAITING);
    if w < |s.threads| && s.threads[w].PushWaiting? {
      AtCounts(s, w, PushWoken(s.threads[w].item));
    }
  }

  lemma PushEnterAwake(s: State, t: nat, w: nat)
    requires t < |s.threads| && s.threads[t].WantPush? && PicksPopper(s, w) && RingOk(s) && AwakeOk(s)
    ensures AwakeOk(PushEnter(s, t, w))
  {
    var p := s.threads[t];
    if !Full(s) {
      AtCounts(s, t, Idle);
      PutAwake(At(s, t, Idle), p.item, w);
    } else {
      PushWaitsAwake(s, t);
    }
  }

  /** A push that does not store: the queue is full, so nobody needs to be awake for a slot. */
  lemma PushWaitsAwake(s: State, t: nat)
    requires t < |s.threads| && s.threads[t].WantPush? && Full(s) && RingOk(s) && AwakeOk(s)
    ensures AwakeOk(At(s, t, Idle))
    ensures AwakeOk(At(s, t, PushWaiting(s.threads[t].item)).(fullWaiters := s.fullWaiters + 1))
  {
    AtCounts(s, t, Idle);
    AtCounts(s, t, PushWaiting(s.threads[t].item));
  }

  lemma LeavePushWait(s: State, t: nat)
    requires t < |s.threads| && s.threads[t].PushWoken? && s.fullWaiters > 0 && AwakeOk(s)
    ensures var s1 := LeftPushWait(s, t);
      WaitersOk(s1) && PoppersAwake(s1, s.nelts) && PushersAwake(s1, |s.data| - s.nelts - 1)
  {
    AtCounts(s, t, Idle);
  }

  lemma LeavePopWait(s: State, t: nat)
    requires t < |s.threads| && s.threads[t].PopWoken? && s.emptyWaiters > 0 && AwakeOk(s)
    ensures var s1 := LeftPopWait(s, t);
      WaitersOk(s1) && PoppersAwake(s1, s.nelts - 1) && PushersAwake(s1, |s.data| - s.nelts)
  {
    AtCounts(s, t, Idle);
  }

  lemma PushAgainAwake(s: State, t: nat, w: nat)
    requires t < |s.threads| && s.threads[t].PushWoken? && PicksPopper(s, w) && RingOk(s)
    requires s.fullWaiters > 0 && AwakeOk(s)
    ensures AwakeOk(PushAgain(s, t, w))
  {
    LeavePushWait(s, t);
    if !Full(s) {
      PutAwake(LeftPushWait(s, t), s.threads[t].item, w);
    }
  }

  lemma PopEnterAwake(s: State, t: nat, w: nat)
    requires t < |s.threads| && s.threads[t].WantPop? && PicksPusher(s, w) && RingOk(s) && AwakeOk(s)
    ensures AwakeOk(PopEnter(s, t, w))
  {
    if !Empty(s) {
      AtCounts(s, t, Idle);
      TakeAwake(At(s, t, Idle), w);
    } else {
      AtCounts(s, t, Idle);
      AtCounts(s, t, PopWaiting);
    }
  }

  lemma PopAgainAwake(s: State, t: nat, w: nat)
    requires t < |s.threads| && s.threads[t].PopWoken? && PicksPusher(s, w) && RingOk(s)
    requires s.emptyWaiters > 0 && AwakeOk(s)
    ensures AwakeOk(PopAgain(s, t, w))
  {
    LeavePopWait(s, t);
    if !Empty(s) {
      TakeAwake(LeftPopWait(s, t), w);
    }
  }

  lemma BroadcastAwake(s: State, t: nat)
    requires t < |s.threads| && (s.threads[t].Idle? || s.threads[t].Closing?) && AwakeOk(s)
    ensures AwakeOk(Broadcast(s, t))
  {
    WakeAllCounts(s.threads);
    AtCounts(s.(threads := WakeAll(s.threads)), t, Idle);
  }

  /** A thread outside the waits goes to another place outside them. */
  lemma ElsewhereAwake(s: State, t: nat, p: Thread)
    requires t < |s.threads| && AwakeOk(s)
    requires s.threads[t].Idle? && (p.WantPush? || p.WantPop? || p.Closing?)
    ensures AwakeOk(At(s, t, p))
  {
    AtCounts(s, t, p);
  }

  lemma PushSpuriousAwake(s: State, t: nat)
    requires t < |s.threads| && AwakeOk(s) && s.threads[t].PushWaiting?
    ensures AwakeOk(At(s, t, PushWoken(s.threads[t].item)))
  {
    AtCounts(s, t, PushWoken(s.threads[t].item));
  }

  lemma PopSpuriousAwake(s: State, t: nat)
    requires t < |s.threads| && AwakeOk(s) && s.threads[t].PopWaiting?
    ensures AwakeOk(At(s, t, PopWoken))
  {
    AtCounts(s, t, PopWoken);
  }

  lemma StepAwake(s: State, e: Event)
    requires Enabled(s, e) && AwakeOk(s)
    ensures AwakeOk(Step(s, e))
  {
    match e
    case PushCall(t, x, blocking) => ElsewhereAwake(s, t, WantPush(x, blocking));
    case PopCall(t, blocking) => ElsewhereAwake(s, t, WantPop(blocking));
    case PushLocked(t, w) => PushEnterAwake(s, t, w);
    case PushResume(t, w) => PushAgainAwake(s, t, w);
    case PopLocked(t, w) => PopEnterAwake(s, t, w);
    case PopResume(t, w) => PopAgainAwake(s, t, w);
    case PushSpurious(t) => PushSpuriousAwake(s, t);
    case PopSpurious(t) => PopSpuriousAwake(s, t);
    case TermSet(t) => ElsewhereAwake(s, t, Closing);
    case InterruptAll(t) => BroadcastAwake(s, t);
  }

  // --------------------------------------------------------------- termination

  const CLOSING: Thread -> bool := (p: Thread) => p.Closing?

  ghost predicate ClosedOk(s: State) {
    && (s.terminated ==> s.closed || Some(s.threads, CLOSING))
    && (s.closed ==> s.terminated && !Some(s.threads, POP_WAITING) && !Some(s.threads, PUSH_WAITING))
  }

  /** A critical section that wakes but does not end the termination call: who was
      closing still is, and nobody goes to sleep on a terminated queue. */
  ghost predicate Tame(s: State, s': State) {
    && |s'.threads| == |s.threads| && s'.terminated == s.terminated && s'.closed == s.closed
    && forall i :: 0 <= i < |s.threads| ==>
         && (s.threads[i].Closing? ==> s'.threads[i].Closing?)
         && (s'.threads[i].PopWaiting? ==> s.threads[i].PopWaiting? || !s.terminated)
         && (s'.threads[i].PushWaiting? ==> s.threads[i].PushWaiting? || !s.terminated)
  }

  lemma TameClosed(s: State, s': State)
    requires Tame(s, s') && ClosedOk(s)
    ensures ClosedOk(s')
  {
    if s.terminated && !s.closed {
      var i :| 0 <= i < |s.threads| && CLOSING(s.threads[i]);
      assert CLOSING(s'.threads[i]);
    }
  }

  lemma PushEnterTame(s: State, t: nat, w: nat)
    requires t < |s.threads| && s.threads[t].WantPush? && PicksPopper(s, w) && RingOk(s)
    ensures Tame(s, PushEnter(s, t, w))
  {
  }

  lemma PopEnterTame(s: State, t: nat, w: nat)
    requires t < |s.threads| && s.threads[t].WantPop? && PicksPusher(s, w) && RingOk(s)
    ensures Tame(s, PopEnter(s, t, w))
  {
  }

  lemma PushAgainTame(s: State, t: nat, w: nat)
    requires t < |s.threads| && s.threads[t].PushWoken? && PicksPopper(s, w) && RingOk(s) && s.fullWaiters > 0
    ensures Tame(s, PushAgain(s, t, w))
  {
  }

  lemma PopAgainTame(s: State, t: nat, w: nat)
    requires t < |s.threads| && s.threads[t].PopWoken? && PicksPusher(s, w) && RingOk(s) && s.emptyWaiters > 0
    ensures Tame(s, PopAgain(s, t, w))
  {
  }

  lemma ElsewhereTame(s: State, t: nat, p: Thread)
    requires t < |s.threads| && !s.threads[t].Closing? && !p.PopWaiting? && !p.PushWaiting?
    ensures Tame(s, At(s, t, p))
  {
  }

  lemma BroadcastClosed(s: State, t: nat)
    requires t < |s.threads| && ClosedOk(s)
    requires s.threads[t].Idle? || s.threads[t].Closing?
    ensures ClosedOk(Broadcast(s, t))
  {
    var after := Broadcast(s, t).threads;
    assert forall i :: 0 <= i < |after| ==> !after[i].PopWaiting? && !after[i].PushWaiting?;
  }

  lemma TermSetClosed(s: State, t: nat)
    requires t < |s.threads| && s.threads[t].Idle? && ClosedOk(s)
    ensures ClosedOk(At(s, t, Closing).(terminated := true))
  {
    assert CLOSING(At(s, t, Closing).threads[t]);
  }

  /** Every step but the two of a termination call and a broadcast. */
  lemma StepTame(s: State, e: Event)
    requires Enabled(s, e) && !e.TermSet? && !e.InterruptAll?
    ensures Tame(s, Step(s, e))
  {
    match e
    case PushCall(t, x, blocking) => ElsewhereTame(s, t, WantPush(x, blocking));
    case PopCall(t, blocking) => ElsewhereTame(s, t, WantPop(blocking));
    case PushLocked(t, w) => PushEnterTame(s, t, w);
    case PushResume(t, w) => PushAgainTame(s, t, w);
    case PopLocked(t, w) => PopEnterTame(s, t, w);
    case PopResume(t, w) => PopAgainTame(s, t, w);
    case PushSpurious(t) => ElsewhereTame(s, t, PushWoken(s.threads[t].item));
    case PopSpurious(t) => ElsewhereTame(s, t, PopWoken);
  }

  lemma StepClosed(s: State, e: Event)
    requires Enabled(s, e) && ClosedOk(s)
    ensures ClosedOk(Step(s, e))
    ensures s.closed ==> Step(s, e).closed
  {
    match e
    case InterruptAll(t) => BroadcastClosed(s, t);
    case TermSet(t) => TermSetClosed(s, t);
    case _ => StepTame(s, e); TameClosed(s, Step(s, e));
  }

  ghost predicate Inv(s: State) {
    FifoOk(s) && AwakeOk(s) && ClosedOk(s)
  }

  lemma InitInv(cells: seq<Item>, threads: nat)
    ensures Inv(Init(cells, threads))
  {
    var s := Init(cells, threads);
    CountPositive(s.threads, POP_WAITING);
    CountPositive(s.threads, POP_WOKEN);
    CountPositive(s.threads, PUSH_WAITING);
    CountPositive(s.threads, PUSH_WOKEN);
  }

  lemma {:induction false} RunKeepsInv(s: State, es: seq<Event>, t: State)
    requires Inv(s) && Run(s, es, t)
    ensures Inv(t) && |t.data| == |s.data| && s.pushed <= t.pushed && s.popped <= t.popped
    ensures s.closed ==> t.closed
    decreases |es|
  {
    if es != [] {
      StepFifo(s, es[0]);
      StepAwake(s, es[0]);
      StepClosed(s, es[0]);
      RunKeepsInv(Step(s, es[0]), es[1..], t);
    }
  }

  // ----------------------------------------------------------- what callers asked for

  /** The item each thread last called a push with. */
  function Ask(g: seq<Item>, e: Event): seq<Item> {
    if e.PushCall? && e.t < |g| then g[e.t := e.item] else g
  }

  /** A push whose critical section finds room, at its start or after its wait. */
  predicate Stores(s: State, e: Event) { (e.PushLocked? || e.PushResume?) && !Full(s) }

  /** A pop whose critical section finds an item. */
  predicate Serves(s: State, e: Event) { (e.PopLocked? || e.PopResume?) && !Empty(s) }

  /** The items that the calls of a run bring in, in the order in which they find room. */
  ghost function Accepted(s: State, g: seq<Item>, es: seq<Event>): seq<Item>
    decreases |es|
  {
    if es == [] || !Enabled(s, es[0]) then []
    else (if Stores(s, es[0]) && es[0].t < |g| then [g[es[0].t]] else [])
         + Accepted(Step(s, es[0]), Ask(g, es[0]), es[1..])
  }

  /** The number of pops of a run that find an item. */
  ghost function Services(s: State, es: seq<Event>): nat
    decreases |es|
  {
    if es == [] || !Enabled(s, es[0]) then 0
    else (if Serves(s, es[0]) then 1 else 0) + Services(Step(s, es[0]), es[1..])
  }

  predicate Pushing(p: Thread) { p.WantPush? || p.PushWaiting? || p.PushWoken? }

  /** A thread inside a push has the item of its call, through waits and wakeups. */
  ghost predicate Holds(s: State, g: seq<Item>) {
    && |g| == |s.threads|
    && forall i :: 0 <= i < |g| && Pushing(s.threads[i]) ==> s.threads[i].item == g[i]
  }

  lemma PutHolds(s: State, g: seq<Item>, x: Item, w: nat)
    requires RingOk(s) && !Full(s) && PicksPopper(s, w) && Holds(s, g)
    ensures Holds(Put(s, x, w), g)
  {
  }

  lemma TakeHolds(s: State, g: seq<Item>, w: nat)
    requires RingOk(s) && !Empty(s) && PicksPusher(s, w) && Holds(s, g)
    ensures Holds(Take(s, w), g)
  {
  }

  lemma PushHolds(s: State, g: seq<Item>, e: Event)
    requires Enabled(s, e) && Holds(s, g) && (e.PushLocked? || e.PushResume?)
    ensures Holds(Step(s, e), g)
  {
    if !Full(s) {
      var s1 := if e.PushLocked? then At(s, e.t, Idle) else LeftPushWait(s, e.t);
      PutHolds(s1, g, s.threads[e.t].item, e.signalled);
    }
  }

  lemma PopHolds(s: State, g: seq<Item>, e: Event)
    requires Enabled(s, e) && Holds(s, g) && (e.PopLocked? || e.PopResume?)
    ensures Holds(Step(s, e), g)
  {
    if !Empty(s) {
      TakeHolds(if e.PopLocked? then At(s, e.t, Idle) else LeftPopWait(s, e.t), g, e.signalled);
    }
  }

  lemma StepHolds(s: State, g: seq<Item>, e: Event)
    requires Enabled(s, e) && Holds(s, g)
    ensures Holds(Step(s, e), Ask(g, e))
  {
    match e
    case PushLocked(t, w) => PushHolds(s, g, e);
    case PushResume(t, w) => PushHolds(s, g, e);
    case PopLocked(t, w) => PopHolds(s, g, e);
    case PopResume(t, w) => PopHolds(s, g, e);
    case _ =>
  }

  /** A push brings in the item of its call, if it finds room, and a pop takes the oldest. */
  lemma StepMovesItems(s: State, g: seq<Item>, e: Event)
    requires Enabled(s, e) && FifoOk(s) && Holds(s, g)
    ensures Step(s, e).pushed == s.pushed + (if Stores(s, e) then [g[e.t]] else [])
    ensures Step(s, e).popped == s.popped + (if Serves(s, e) then [Contents(s)[0]] else [])
  {
    match e
    case PushLocked(t, w) => PushEnterFifo(s, t, w);
    case PushResume(t, w) => PushAgainFifo(s, t, w);
    case PopLocked(t, w) => PopEnterFifo(s, t, w);
    case PopResume(t, w) => PopAgainFifo(s, t, w);
    case _ =>
  }

  lemma {:induction false} RunAccepts(s: State, g: seq<Item>, es: seq<Event>, t: State)
    requires Run(s, es, t) && FifoOk(s) && Holds(s, g)
    ensures t.pushed == s.pushed + Accepted(s, g, es)
    decreases |es|
  {
    if es != [] {
      var u, h := Step(s, es[0]), Ask(g, es[0]);
      StepMovesItems(s, g, es[0]);
      StepHolds(s, g, es[0]);
      StepFifo(s, es[0]);
      RunAccepts(u, h, es[1..], t);
      Regroup(s.pushed, if Stores(s, es[0]) then [g[es[0].t]] else [], Accepted(u, h, es[1..]));
    }
  }

  lemma Regroup(a: seq<Item>, b: seq<Item>, c: seq<Item>)
    ensures (a + b) + c == a + (b + c)
  {
  }

  lemma {:induction false} RunServes(s: State, g: seq<Item>, es: seq<Event>, t: State)
    requires Run(s, es, t) && FifoOk(s) && Holds(s, g)
    ensures |t.popped| == |s.popped| + Services(s, es)
    decreases |es|
  {
    if es != [] {
      StepMovesItems(s, g, es[0]);
      StepHolds(s, g, es[0]);
      StepFifo(s, es[0]);
      RunServes(Step(s, es[0]), Ask(g, es[0]), es[1..], t);
    }
  }

  /** How a call begins: not at all on a queue that is terminated, and else with its item. */
  lemma CallBegins(s: State, e: Event)
    requires Enabled(s, e) && (e.PushCall? || e.PopCall?)
    ensures s.terminated ==> Step(s, e) == s
    ensures !s.terminated ==>
      Step(s, e).threads[e.t] == if e.PushCall? then WantPush(e.item, e.blocking) else WantPop(e.blocking)
  {
  }

  /** A push waits if and only if it blocks, finds no room and the flag is not set; one that
      has waited once does not wait again. */
  lemma PushWaitsExactly(s: State, e: Event)
    requires Enabled(s, e) && (e.PushLocked? || e.PushResume?)
    ensures var p := Step(s, e).threads[e.t];
      if e.PushLocked? && Full(s) && s.threads[e.t].blocking && !s.terminated then p.PushWaiting? else p.Idle?
  {
  }

  lemma PopWaitsExactly(s: State, e: Event)
    requires Enabled(s, e) && (e.PopLocked? || e.PopResume?)
    ensures var p := Step(s, e).threads[e.t];
      if e.PopLocked? && Empty(s) && s.threads[e.t].blocking && !s.terminated then p.PopWaiting? else p.Idle?
  {
  }

  /** An interruption ends every wait, moves nobody else, and leaves the items alone. */
  lemma InterruptWakes(s: State, e: Event)
    requires Enabled(s, e) && e.InterruptAll?
    ensures var u := Step(s, e);
      && |u.threads| == |s.threads| && u.threads[e.t].Idle? && SameRing(s, u) && u.terminated == s.terminated
      && forall i :: 0 <= i < |s.threads| && i != e.t ==>
           && (s.threads[i].PushWaiting? ==> u.threads[i].PushWoken?)
           && (s.threads[i].PopWaiting? ==> u.threads[i].PopWoken?)
           && (!s.threads[i].PushWaiting? && !s.threads[i].PopWaiting? ==> u.threads[i] == s.threads[i])
  {
  }

  /** First in, first out in every interleaving, for any capacity, zero included. */
  lemma Fifo(cells: seq<Item>, threads: nat, es: seq<Event>, t: State)
    requires Run(Init(cells, threads), es, t)
    ensures t.nelts <= |cells| == |t.data|
    ensures |cells| > 0 ==> t.inn < |cells| && t.out < |cells| && t.inn == (t.out + t.nelts) % |cells|
    ensures RingOk(t) && t.pushed == t.popped + Contents(t)
    ensures t.popped <= t.pushed
    // what has gone in are the items of the calls that found room, and what has come out went
    // to the calls that found an item
    ensures t.pushed == Accepted(Init(cells, threads), seq(threads, _ => 0), es)
    ensures |t.popped| == Services(Init(cells, threads), es)
  {
    InitInv(cells, threads);
    RunKeepsInv(Init(cells, threads), es, t);
    PoppedIsPrefix(t.pushed, t.popped, Contents(t));
    RunAccepts(Init(cells, threads), seq(threads, _ => 0), es, t);
    RunServes(Init(cells, threads), seq(threads, _ => 0), es, t);
    assert [] + t.pushed == t.pushed;
  }

  lemma PoppedIsPrefix(pushed: seq<Item>, popped: seq<Item>, rest: seq<Item>)
    requires pushed == popped + rest
    ensures popped <= pushed
  {
  }

  /** While a thread sleeps in the queue, every item (or free slot) that it might
      have had is matched by a thread that has been woken to take it. */
  lemma NoLostWakeup(cells: seq<Item>, threads: nat, es: seq<Event>, t: State)
    requires Run(Init(cells, threads), es, t)
    ensures Some(t.threads, POP_WAITING) ==> t.nelts <= Count(t.threads, POP_WOKEN)
    ensures Some(t.threads, PUSH_WAITING) ==> |cells| - t.nelts <= Count(t.threads, PUSH_WOKEN)
  {
    InitInv(cells, threads);
    RunKeepsInv(Init(cells, threads), es, t);
    CountPositive(t.threads, POP_WAITING);
    CountPositive(t.threads, PUSH_WAITING);
  }

  /** Once a termination call is over, whatever other calls are at, nobody is blocked, then or
      ever after. */
  lemma NobodyBlockedAfterTerm(cells: seq<Item>, threads: nat, es: seq<Event>, t: State, more: seq<Event>, u: State)
    requires Run(Init(cells, threads), es, t) && t.closed
    requires Run(t, more, u)
    ensures !Some(u.threads, POP_WAITING) && !Some(u.threads, PUSH_WAITING)
  {
    InitInv(cells, threads);
    RunKeepsInv(Init(cells, threads), es, t);
    RunKeepsInv(t, more, u);
  }

  lemma {:induction false} BroadcastCloses(s: State, es: seq<Event>, t: State, j: nat)
    requires Run(s, es, t) && s.terminated && j < |es| && es[j].InterruptAll?
    ensures t.closed
    decreases |es|
  {
    if j == 0 {
      StaysClosed(Step(s, es[0]), es[1..], t);
    } else {
      BroadcastCloses(Step(s, es[0]), es[1..], t, j - 1);
    }
  }

  lemma {:induction false} StaysClosed(s: State, es: seq<Event>, t: State)
    requires Run(s, es, t) && s.closed
    ensures t.closed
    decreases |es|
  {
    if es != [] {
      StaysClosed(Step(s, es[0]), es[1..], t);
    }
  }

  lemma {:induction false} TermThenBroadcast(s: State, es: seq<Event>, t: State, i: nat, j: nat)
    requires Run(s, es, t) && i < j < |es| && es[i].TermSet? && es[j].InterruptAll?
    ensures t.closed
    decreases |es|
  {
    if i == 0 {
      BroadcastCloses(Step(s, es[0]), es[1..], t, j - 1);
    } else {
      TermThenBroadcast(Step(s, es[0]), es[1..], t, i - 1, j - 1);
    }
  }

  /** The same in terms of what the threads have done: at the end of any run in which the
      flag was set and a broadcast came some time later, nobody is blocked. */
  lemma NobodyBlockedAfterBroadcast(cells: seq<Item>, threads: nat, es: seq<Event>, t: State, i: nat, j: nat)
    requires Run(Init(cells, threads), es, t)
    requires i < j < |es| && es[i].TermSet? && es[j].InterruptAll?
    ensures !Some(t.threads, POP_WAITING) && !Some(t.threads, PUSH_WAITING)
  {
    TermThenBroadcast(Init(cells, threads), es, t, i, j);
    NobodyBlockedAfterTerm(cells, threads, es, t, [], t);
  }

  /** The side conditions that Enabled states for the arithmetic hold in every run,
      so a thread that is not blocked can always take its next step. */
  lemma StepsNeverStuck(cells: seq<Item>, threads: nat, es: seq<Event>, s: State, t: nat)
    requires Run(Init(cells, threads), es, s) && t < |s.threads|
    requires !s.threads[t].PushWaiting? && !s.threads[t].PopWaiting?
    ensures exists e: Event :: e.t == t && Enabled(s, e)
  {
    InitInv(cells, threads);
    RunKeepsInv(Init(cells, threads), es, s);
    CountPositive(s.threads, POP_WAITING);
    CountPositive(s.threads, PUSH_WAITING);
    CountPositive(s.threads, POP_WOKEN);
    CountPositive(s.threads, PUSH_WOKEN);
    var popper: nat, pusher: nat := 0, 0;
    if Some(s.threads, POP_WAITING) {
      popper :| popper < |s.threads| && s.threads[popper].PopWaiting?;
    }
    if Some(s.threads, PUSH_WAITING) {
      pusher :| pusher < |s.threads| && s.threads[pusher].PushWaiting?;
    }
    match s.threads[t]
    case Idle => assert Enabled(s, TermSet(t));
    case WantPush(_, _) => assert Enabled(s, PushLocked(t, popper));
    case WantPop(_) => assert Enabled(s, PopLocked(t, pusher));
    case PushWoken(_) => assert PUSH_WOKEN(s.threads[t]); assert Enabled(s, PushResume(t, popper));
    case PopWoken => assert POP_WOKEN(s.threads[t]); assert Enabled(s, PopResume(t, pusher));
    case Closing => assert Enabled(s, InterruptAll(t));
  }

  // ------------------------------------------------------------ the queue object

  /** What a critical section answers; MustWait is the unlock inside the wait, and after
      Nothing the flag is read. */
  datatype Answer = Success | MustWait | Nothing | Eagain

  /** The queue in memory.  Each method is the body of one critical section; the
      ghost fields record where the threads are and what has gone through. */
  class Queue {
    var data: array<Item>
    var nelts: nat
    var inn: nat
    var out: nat
    var fullWaiters: nat
    var emptyWaiters: nat
    var terminated: bool
    ghost var threads: seq<Thread>
    ghost var closed: bool
    ghost var pushed: seq<Item>
    ghost var popped: seq<Item>

    ghost function Abs(): State
      reads this, data
    {
      State(data[..], nelts, inn, out, fullWaiters, emptyWaiters, terminated, threads, closed, pushed, popped)
    }

    constructor (capacity: nat, ghost nthreads: nat)
      ensures fresh(data) && data.Length == capacity
      ensures Abs() == Init(data[..], nthreads) && Inv(Abs())
    {
      data := new Item[capacity];
      nelts, inn, out, fullWaiters, emptyWaiters, terminated := 0, 0, 0, 0, 0, false;
      threads, closed, pushed, popped := seq(nthreads, _ => Idle), false, [], [];
      new;
      InitInv(data[..], nthreads);
    }

    /** Store an item and signal not_empty if the counter says that somebody waits. */
    method Store(item: Item, ghost w: nat)
      requires RingOk(Abs()) && !Full(Abs()) && PicksPopper(Abs(), w)
      modifies this, data
      ensures data == old(data) && Abs() == Put(old(Abs()), item, w)
    {
      data[inn] := item;
      inn := (inn + 1) % data.Length;
      nelts := nelts + 1;
      pushed := pushed + [item];
      if emptyWaiters > 0 {
        if Some(threads, POP_WAITING) {
          threads := threads[w := PopWoken];
        }
      }
    }

    /** Fetch an item and signal not_full if the counter says that somebody waits. */
    method Fetch(ghost w: nat) returns (item: Item)
      requires RingOk(Abs()) && !Empty(Abs()) && PicksPusher(Abs(), w)
      modifies this
      ensures data == old(data) && Abs() == Take(old(Abs()), w) && item == old(Contents(Abs()))[0]
    {
      TakeRemoves(Abs(), w);
      item := data[out];
      nelts := nelts - 1;
      out := (out + 1) % data.Length;
      popped := popped + [item];
      if fullWaiters > 0 {
        if Some(threads, PUSH_WAITING) {
          threads := threads[w := PushWoken(threads[w].item)];
        }
      }
    }

    /** The two unlocked reads: at the start of a call, and after Nothing, where the answer
        is the end if the flag is set and an interruption if not. */
    method ReadFlag() returns (eof: bool)
      ensures eof == terminated
    {
      eof := terminated;
    }

    method EnterPush(item: Item, blocking: bool, ghost t: nat, ghost w: nat) returns (r: Answer)
      requires t < |threads| && threads[t] == WantPush(item, blocking) && PicksPopper(Abs(), w) && RingOk(Abs())
      modifies this, data
      ensures data == old(data) && Abs() == PushEnter(old(Abs()), t, w)
      ensures r == if !Full(old(Abs())) then Success else if !blocking then Eagain
                   else if old(terminated) then Nothing else MustWait
    {
      if nelts == data.Length {
        if !blocking {
          threads := threads[t := Idle];
          return Eagain;
        }
        if !terminated {
          fullWaiters := fullWaiters + 1;
          threads := threads[t := PushWaiting(item)];
          return MustWait;
        }
        threads := threads[t := Idle];
        return Nothing;
      }
      threads := threads[t := Idle];
      Store(item, w);
      r := Success;
    }

    method ResumePush(item: Item, ghost t: nat, ghost w: nat) returns (r: Answer)
      requires t < |threads| && threads[t] == PushWoken(item) && PicksPopper(Abs(), w) && RingOk(Abs())
      requires fullWaiters > 0
      modifies this, data
      ensures data == old(data) && Abs() == PushAgain(old(Abs()), t, w)
      ensures r == if !Full(old(Abs())) then Success else Nothing
    {
      threads := threads[t := Idle];
      fullWaiters := fullWaiters - 1;
      if nelts == data.Length {
        return Nothing;
      }
      Store(item, w);
      r := Success;
    }

    method EnterPop(blocking: bool, ghost t: nat, ghost w: nat) returns (r: Answer, item: Item)
      requires t < |threads| && threads[t] == WantPop(blocking) && PicksPusher(Abs(), w) && RingOk(Abs())
      modifies this
      ensures data == old(data) && Abs() == PopEnter(old(Abs()), t, w)
      ensures r == if !Empty(old(Abs())) then Success else if !blocking then Eagain
                   else if old(terminated) then Nothing else MustWait
      ensures r == Success ==> item == old(Contents(Abs()))[0]
    {
      item := 0;
      if nelts == 0 {
        if !blocking {
          threads := threads[t := Idle];
          r := Eagain;
        } else if !terminated {
          emptyWaiters := emptyWaiters + 1;
          threads := threads[t := PopWaiting];
          r := MustWait;
        } else {
          threads := threads[t := Idle];
          r := Nothing;
        }
        return;
      }
      threads := threads[t := Idle];
      item := Fetch(w);
      r := Success;
    }

    method ResumePop(ghost t: nat, ghost w: nat) returns (r: Answer, item: Item)
      requires t < |threads| && threads[t] == PopWoken && PicksPusher(Abs(), w) && RingOk(Abs()) && emptyWaiters > 0
      modifies this
      ensures data == old(data) && Abs() == PopAgain(old(Abs()), t, w)
      ensures r == if !Empty(old(Abs())) then Success else Nothing
      ensures r == Success ==> item == old(Contents(Abs()))[0]
    {
      threads := threads[t := Idle];
      emptyWaiters := emptyWaiters - 1;
      item := 0;
      if nelts == 0 {
        r := Nothing;
        return;
      }
      item := Fetch(w);
      r := Success;
    }

    /** Set under the mutex, so that no popper or pusher is between its check and its wait. */
    method SetTerminated(ghost t: nat)
      requires t < |threads| && threads[t] == Idle
      modifies this
      ensures data == old(data) && Abs() == At(old(Abs()), t, Closing).(terminated := true)
    {
      terminated := true;
      threads := threads[t := Closing];
    }

    /** The two broadcasts; the second half of the termination call as well. */
    method InterruptAll(ghost t: nat)
      requires t < |threads| && (threads[t] == Idle || threads[t] == Closing)
      modifies this
      ensures data == old(data) && Abs() == Broadcast(old(Abs()), t)
    {
      threads := WakeAll(threads)[t := Idle];
      closed := closed || terminated;
    }
  }
}
