module HandOff {
  /* The hand-off of accepted connections from one listener thread to a pool of
     worker threads.

     Each event below is one atomic access to shared memory or one critical
     section, so a sequence of events is one interleaving of the threads.  The
     increment of the idle counter and the signal that follows it are separate
     events, and so are a pop that finds nothing and the read of the termination
     flag that follows it outside the lock, as they are in the code. */

  import opened Counting

  type Conn = nat

  /** Where the listener is. */
  datatype Listener =
    | Polling     // holds no reservation
    | Checking    // took the counter to or below zero; wants idlers_mutex
    | Locked      // owns idlers_mutex, has not re-checked the counter yet
    | MustWait    // owns idlers_mutex, re-checked the counter and saw it negative
    | Waiting     // blocked on wait_for_idler
    | Woken       // out of the wait, wants idlers_mutex back
    | Returning   // about to read the termination flag
    | Holding     // holds a reservation
    | Refused     // told that the process is terminating
    | Closing     // has set the queue's termination flag, has not broadcast yet
    | Gone

  /** Where a worker is.  All states but Busy and Quit have the worker marked idle. */
  datatype Worker =
    | Busy        // not marked idle
    | Signalling  // marked idle from a negative counter; owes a signal
    | Idle        // marked idle, about to pop
    | Blocked     // waiting on not_empty
    | Ready       // out of the wait, wants one_big_mutex back
    | Leaving     // found nothing, has unlocked, has not read the termination flag
    | Finished    // got the end-of-file answer
    | Stopped     // left because of an ungraceful stop, still marked idle
    | Quit        // left because of an ungraceful stop, not marked idle

  datatype State = State(
    listener: Listener,
    idlers: int,
    infoTerminated: bool,
    queueTerminated: bool,
    data: seq<Conn>,
    workers: seq<Worker>,
    pushed: multiset<Conn>,
    popped: multiset<Conn>)

  datatype Event =
    | Decrement
    | Lock
    | Recheck
    | Block
    | SpuriousWake
    | Reacquire
    | Return
    | Push(conn: Conn, waiter: nat)   // waiter: the blocked worker that the signal wakes
    | TermSet
    | TermBroadcast
    | InfoTerm
    | Increment(w: nat)
    | Signal(w: nat)
    | Pop(w: nat)
    | SpuriousReady(w: nat)
    | Resume(w: nat)
    | ReadFlag(w: nat)
    | Stop(w: nat)
    | InterruptAll

  function Init(threads: nat): State {
    State(Polling, 0, false, false, [], seq(threads, _ => Busy), multiset{}, multiset{})
  }

  predicate MutexFree(s: State) {
    !s.listener.Locked? && !s.listener.MustWait?
  }

  predicate Enabled(s: State, e: Event) {
    match e
    case Decrement => s.listener.Polling?
    case Lock => s.listener.Checking?
    case Recheck => s.listener.Locked?
    case Block => s.listener.MustWait?
    case SpuriousWake => s.listener.Waiting?
    case Reacquire => s.listener.Woken?
    case Return => s.listener.Returning?
    case Push(_, waiter) =>
      && s.listener.Holding?
      && (Blocked in s.workers ==> waiter < |s.workers| && s.workers[waiter] == Blocked)
    case TermSet => s.listener.Polling? || s.listener.Holding? || s.listener.Refused?
    case TermBroadcast => s.listener.Closing?
    case InfoTerm => MutexFree(s)
    case Increment(w) => w < |s.workers| && s.workers[w] == Busy
    case Signal(w) => w < |s.workers| && s.workers[w] == Signalling && MutexFree(s)
    case Pop(w) => w < |s.workers| && s.workers[w] == Idle
    case SpuriousReady(w) => w < |s.workers| && s.workers[w] == Blocked
    case Resume(w) => w < |s.workers| && s.workers[w] == Ready
    case ReadFlag(w) => w < |s.workers| && s.workers[w] == Leaving
    case Stop(w) => w < |s.workers| && (s.workers[w] == Idle || s.workers[w] == Busy)
    case InterruptAll => true
  }

  /** A broadcast on not_empty. */
  function WakeAll(ws: seq<Worker>): seq<Worker> {
    seq(|ws|, i requires 0 <= i < |ws| => if ws[i] == Blocked then Ready else ws[i])
  }

  function SetWorker(s: State, w: nat, pc: Worker): State
    requires w < |s.workers|
  {
    s.(workers := s.workers[w := pc])
  }

  /** What a worker takes is the connection on top of the stack. */
  function TakeTop(s: State, w: nat): State
    requires w < |s.workers| && s.data != []
  {
    var top := s.data[|s.data| - 1];
    s.(data := s.data[..|s.data| - 1], workers := s.workers[w := Busy], popped := s.popped + multiset{top})
  }

  function Step(s: State, e: Event): State
    requires Enabled(s, e)
  {
    match e
    case Decrement =>
      s.(idlers := s.idlers - 1, listener := if s.idlers <= 0 then Checking else Returning)
    case Lock => s.(listener := Locked)
    case Recheck => s.(listener := if s.idlers < 0 then MustWait else Returning)
    case Block => s.(listener := Waiting)
    case SpuriousWake => s.(listener := Woken)
    case Reacquire => s.(listener := Returning)
    case Return => s.(listener := if s.infoTerminated then Refused else Holding)
    case Push(conn, waiter) =>
      var s1 := s.(data := s.data + [conn], pushed := s.pushed + multiset{conn}, listener := Polling);
      if Blocked in s.workers then SetWorker(s1, waiter, Ready) else s1
    case TermSet => s.(queueTerminated := true, listener := Closing)
    case TermBroadcast => s.(workers := WakeAll(s.workers), listener := Gone)
    case InfoTerm =>
      s.(infoTerminated := true, listener := if s.listener.Waiting? then Woken else s.listener)
    case Increment(w) =>
      SetWorker(s, w, if s.idlers < 0 then Signalling else Idle).(idlers := s.idlers + 1)
    case Signal(w) =>
      SetWorker(s, w, Idle).(listener := if s.listener.Waiting? then Woken else s.listener)
    case Pop(w) =>
      if s.data != [] then TakeTop(s, w)
      else if s.queueTerminated then SetWorker(s, w, Leaving)
      else SetWorker(s, w, Blocked)
    case SpuriousReady(w) => SetWorker(s, w, Ready)
    case Resume(w) =>
      if s.data != [] then TakeTop(s, w) else SetWorker(s, w, Leaving)
    case ReadFlag(w) => SetWorker(s, w, if s.queueTerminated then Finished else Idle)
    case Stop(w) => SetWorker(s, w, if s.workers[w] == Idle then Stopped else Quit)
    case InterruptAll => s.(workers := WakeAll(s.workers))
  }

  /** `es` is an interleaving that takes `s` to `t`. */
  ghost predicate Run(s: State, es: seq<Event>, t: State)
    decreases |es|
  {
    if es == [] then s == t else Enabled(s, es[0]) && Run(Step(s, es[0]), es[1..], t)
  }

  // ---------------------------------------------------------------- accounting

  const MARKED: Worker -> bool := (w: Worker) => !w.Busy? && !w.Quit?
  const READY: Worker -> bool := (w: Worker) => w.Ready?

  /** The reservation that the listener holds or is acquiring. */
  function Reserved(l: Listener): nat {
    match l
    case Polling => 0
    case Closing => 0
    case Gone => 0
    case _ => 1
  }

  /** Once the listener gives up its reservation on shutdown, the counter keeps it. */
  predicate Serving(s: State) {
    !s.listener.Closing? && !s.listener.Gone?
  }

  ghost predicate Accounted(s: State) {
    Serving(s) ==> Count(s.workers, MARKED) == s.idlers + Reserved(s.listener) + |s.data|
  }

  ghost predicate Conserved(s: State) {
    s.pushed == s.popped + multiset(s.data)
  }

  /** No worker sleeps on not_empty while there are more connections than woken workers. */
  ghost predicate WorkersAwake(s: State) {
    Blocked in s.workers ==> |s.data| <= Count(s.workers, READY)
  }

  /** The listener never sleeps through an increment: somebody still owes it a signal. */
  ghost predicate ListenerAwake(s: State) {
    (s.listener.MustWait? || s.listener.Waiting?) && s.idlers >= 0 ==> Signalling in s.workers
  }

  ghost predicate EofIsFinal(s: State) {
    && (s.queueTerminated <==> s.listener.Closing? || s.listener.Gone?)
    && (Finished in s.workers ==> s.queueTerminated)
    && (s.listener.Gone? ==> Blocked !in s.workers)
  }

  ghost predicate Inv(s: State) {
    && Accounted(s) && Conserved(s) && WorkersAwake(s) && ListenerAwake(s) && EofIsFinal(s)
    && (s.listener.Refused? ==> s.infoTerminated)
  }

  function One(b: bool): int { if b then 1 else 0 }

  lemma SetWorkerCounts(ws: seq<Worker>, w: nat, pc: Worker)
    requires w < |ws|
    ensures Count(ws[w := pc], MARKED) == Count(ws, MARKED) - One(MARKED(ws[w])) + One(MARKED(pc))
    ensures Count(ws[w := pc], READY) == Count(ws, READY) - One(READY(ws[w])) + One(READY(pc))
  {
    CountUpdate(ws, w, pc, MARKED);
    CountUpdate(ws, w, pc, READY);
  }

  /** A state that survives in the others, or was put there. */
  lemma SetWorkerMembers(ws: seq<Worker>, w: nat, pc: Worker, q: Worker)
    requires w < |ws|
    ensures q in ws[w := pc] ==> q in ws || q == pc
    ensures q in ws && ws[w] != q ==> q in ws[w := pc]
    ensures pc in ws[w := pc]
  {
    assert ws[w := pc][w] == pc;
    if q in ws && ws[w] != q {
      var i :| 0 <= i < |ws| && ws[i] == q;
      assert ws[w := pc][i] == q;
    }
  }

  lemma WakeAllCounts(ws: seq<Worker>)
    ensures Count(WakeAll(ws), MARKED) == Count(ws, MARKED)
    ensures Blocked !in WakeAll(ws)
    ensures Finished in WakeAll(ws) ==> Finished in ws
    ensures Leaving in WakeAll(ws) ==> Leaving in ws
    ensures Signalling in ws ==> Signalling in WakeAll(ws)
  {
    CountPointwise(ws, WakeAll(ws), MARKED);
    if Signalling in ws {
      var i :| 0 <= i < |ws| && ws[i] == Signalling;
      assert WakeAll(ws)[i] == Signalling;
    }
  }

  /** The worker that an event moves, where it moves one alone. */
  function Mover(s: State, e: Event): (r: (bool, nat, Worker))
    requires Enabled(s, e)
    ensures r.0 ==> r.1 < |s.workers| && Step(s, e).workers == s.workers[r.1 := r.2]
    ensures !r.0 && !e.TermBroadcast? && !e.InterruptAll? ==> Step(s, e).workers == s.workers
  {
    match e
    case Push(_, waiter) => if Blocked in s.workers then (true, waiter, Ready) else (false, 0, Busy)
    case Increment(w) => (true, w, if s.idlers < 0 then Signalling else Idle)
    case Signal(w) => (true, w, Idle)
    case Pop(w) => (true, w, if s.data != [] then Busy else if s.queueTerminated then Leaving else Blocked)
    case SpuriousReady(w) => (true, w, Ready)
    case Resume(w) => (true, w, if s.data != [] then Busy else Leaving)
    case ReadFlag(w) => (true, w, if s.queueTerminated then Finished else Idle)
    case Stop(w) => (true, w, if s.workers[w] == Idle then Stopped else Quit)
    case _ => (false, 0, Busy)
  }

  lemma StepCounts(s: State, e: Event)
    requires Enabled(s, e)
    ensures var t := Step(s, e); var (moved, w, pc) := Mover(s, e);
            moved ==>
              && Count(t.workers, MARKED) == Count(s.workers, MARKED) - One(MARKED(s.workers[w])) + One(MARKED(pc))
              && Count(t.workers, READY) == Count(s.workers, READY) - One(READY(s.workers[w])) + One(READY(pc))
    ensures e.TermBroadcast? || e.InterruptAll? ==> Count(Step(s, e).workers, MARKED) == Count(s.workers, MARKED)
  {
    var (moved, w, pc) := Mover(s, e);
    if moved {
      SetWorkerCounts(s.workers, w, pc);
    }
    WakeAllCounts(s.workers);
  }

  lemma StepMembers(s: State, e: Event, q: Worker)
    requires Enabled(s, e)
    ensures var t := Step(s, e); var (moved, w, pc) := Mover(s, e);
            moved ==>
              && (q in t.workers ==> q in s.workers || q == pc)
              && (q in s.workers && s.workers[w] != q ==> q in t.workers)
              && pc in t.workers
  {
    var (moved, w, pc) := Mover(s, e);
    if moved {
      SetWorkerMembers(s.workers, w, pc, q);
    }
  }

  /** Each atomic step keeps the count of reservations. */
  lemma StepAccounted(s: State, e: Event)
    requires Accounted(s) && Enabled(s, e)
    ensures Accounted(Step(s, e))
  {
    StepCounts(s, e);
  }

  lemma TakeTopConserved(s: State, w: nat)
    requires Conserved(s) && w < |s.workers| && s.data != []
    ensures Conserved(TakeTop(s, w))
  {
    assert s.data == s.data[..|s.data| - 1] + [s.data[|s.data| - 1]];
  }

  lemma PushConserved(s: State, conn: Conn, waiter: nat)
    requires Conserved(s) && Enabled(s, Push(conn, waiter))
    ensures Conserved(Step(s, Push(conn, waiter)))
  {
    assert multiset(s.data + [conn]) == multiset(s.data) + multiset{conn};
  }

  /** Only a push and a pop that finds something touch the connections. */
  lemma OthersConserved(s: State, e: Event)
    requires Conserved(s) && Enabled(s, e) && !e.Push? && ((e.Pop? || e.Resume?) ==> s.data == [])
    ensures Conserved(Step(s, e))
  {
    var t := Step(s, e);
    assert t.data == s.data && t.pushed == s.pushed && t.popped == s.popped;
  }

  lemma StepConserved(s: State, e: Event)
    requires Conserved(s) && Enabled(s, e)
    ensures Conserved(Step(s, e))
  {
    if e.Push? {
      PushConserved(s, e.conn, e.waiter);
    } else if (e.Pop? || e.Resume?) && s.data != [] {
      TakeTopConserved(s, e.w);
    } else {
      OthersConserved(s, e);
    }
  }

  lemma StepWorkersAwake(s: State, e: Event)
    requires WorkersAwake(s) && Enabled(s, e)
    ensures WorkersAwake(Step(s, e))
  {
    StepCounts(s, e);
    StepMembers(s, e, Blocked);
    WakeAllCounts(s.workers);
  }

  lemma StepListenerAwake(s: State, e: Event)
    requires ListenerAwake(s) && Enabled(s, e)
    ensures ListenerAwake(Step(s, e))
  {
    StepMembers(s, e, Signalling);
    WakeAllCounts(s.workers);
  }

  lemma StepEofIsFinal(s: State, e: Event)
    requires EofIsFinal(s) && Enabled(s, e)
    ensures EofIsFinal(Step(s, e))
  {
    StepMembers(s, e, Finished);
    StepMembers(s, e, Blocked);
    WakeAllCounts(s.workers);
  }

  lemma StepKeepsTerm(s: State, e: Event)
    requires Enabled(s, e) && (s.listener.Refused? ==> s.infoTerminated)
    ensures Step(s, e).listener.Refused? ==> Step(s, e).infoTerminated
    ensures |Step(s, e).workers| == |s.workers|
  {
  }

  lemma StepKeepsInv(s: State, e: Event)
    requires Inv(s) && Enabled(s, e)
    ensures Inv(Step(s, e)) && |Step(s, e).workers| == |s.workers|
  {
    StepKeepsTerm(s, e);
    StepAccounted(s, e);
    StepConserved(s, e);
    StepWorkersAwake(s, e);
    StepListenerAwake(s, e);
    StepEofIsFinal(s, e);
  }

  lemma InitInv(threads: nat)
    ensures Inv(Init(threads)) && Count(Init(threads).workers, MARKED) == 0
  {
    CountPositive(Init(threads).workers, MARKED);
  }

  lemma {:induction false} RunKeepsInv(s: State, es: seq<Event>, t: State)
    requires Inv(s) && Run(s, es, t)
    ensures Inv(t) && |t.workers| == |s.workers|
    decreases |es|
  {
    if es != [] {
      StepKeepsInv(s, es[0]);
      RunKeepsInv(Step(s, es[0]), es[1..], t);
    }
  }

  function HandedBy(e: Event): multiset<Conn> {
    if e.Push? then multiset{e.conn} else multiset{}
  }

  /** The connections that the listener hands over in a run. */
  function Handed(es: seq<Event>): multiset<Conn> {
    if es == [] then multiset{} else HandedBy(es[0]) + Handed(es[1..])
  }

  lemma {:induction false} RunHanded(s: State, es: seq<Event>, t: State)
    requires Run(s, es, t)
    ensures t.pushed == s.pushed + Handed(es)
    decreases |es|
  {
    if es != [] {
      RunHanded(Step(s, es[0]), es[1..], t);
      StepHanded(s, es[0]);
      assert (s.pushed + HandedBy(es[0])) + Handed(es[1..]) == s.pushed + (HandedBy(es[0]) + Handed(es[1..]));
    }
  }

  lemma StepHanded(s: State, e: Event)
    requires Enabled(s, e)
    ensures Step(s, e).pushed == s.pushed + HandedBy(e)
  {
  }

  /** Whatever the interleaving, until the listener shuts the queue every worker
      that is marked idle and has not popped is on the counter, is reserved by the
      listener, or has a connection queued for it. */
  lemma RunAccounting(threads: nat, es: seq<Event>, t: State)
    requires Run(Init(threads), es, t)
    ensures Serving(t) ==> Count(t.workers, MARKED) == t.idlers + Reserved(t.listener) + |t.data|
    ensures Handed(es) == t.popped + multiset(t.data)
  {
    InitInv(threads);
    RunKeepsInv(Init(threads), es, t);
    RunHanded(Init(threads), es, t);
  }

  /** No wakeup is lost on either side, and nobody stays blocked after shutdown. */
  lemma NoLostWakeup(threads: nat, es: seq<Event>, t: State)
    requires Run(Init(threads), es, t)
    ensures Blocked in t.workers ==> |t.data| <= Count(t.workers, READY)
    ensures t.listener.Waiting? && t.idlers >= 0 ==> exists w :: Enabled(t, Signal(w))
    ensures t.listener.Gone? ==> Blocked !in t.workers
  {
    InitInv(threads);
    RunKeepsInv(Init(threads), es, t);
    if t.listener.Waiting? && t.idlers >= 0 {
      var w :| 0 <= w < |t.workers| && t.workers[w] == Signalling;
      assert Enabled(t, Signal(w));
    }
  }

  /** Steps that leave the queue alone. */
  predicate Aside(e: Event) { !e.Push? && !e.Pop? && !e.Resume? }

  lemma {:induction false} AsideKeepsData(s: State, es: seq<Event>, t: State)
    requires Run(s, es, t) && forall i :: 0 <= i < |es| ==> Aside(es[i])
    ensures t.data == s.data && t.popped == s.popped
    decreases |es|
  {
    if es != [] {
      AsideKeepsData(Step(s, es[0]), es[1..], t);
    }
  }

  /** The worker that comes next, idle or woken, gets the connection pushed last, and the
      others stay queued in their order. */
  lemma LastInFirstOut(s: State, conn: Conn, waiter: nat, es: seq<Event>, t: State, e: Event)
    requires Enabled(s, Push(conn, waiter)) && Run(Step(s, Push(conn, waiter)), es, t)
    requires forall i :: 0 <= i < |es| ==> Aside(es[i])
    requires Enabled(t, e) && (e.Pop? || e.Resume?)
    ensures Step(t, e).data == s.data && Step(t, e).popped == t.popped + multiset{conn}
    ensures Step(t, e).workers == t.workers[e.w := Busy]
  {
    AsideKeepsData(Step(s, Push(conn, waiter)), es, t);
    TakesLast(t, e, s.data, conn);
  }

  lemma TakesLast(t: State, e: Event, data: seq<Conn>, conn: Conn)
    requires Enabled(t, e) && (e.Pop? || e.Resume?) && t.data == data + [conn]
    ensures Step(t, e).data == data && Step(t, e).popped == t.popped + multiset{conn}
    ensures Step(t, e).workers == t.workers[e.w := Busy]
  {
    assert (data + [conn])[..|data|] == data;
  }

  /** With a worker counted the listener needs no lock: it has its reservation, or the news
      of the shutdown, after two steps of its own. */
  lemma CountedNeedsNoLock(s: State)
    requires s.listener.Polling? && 0 < s.idlers
    ensures Enabled(s, Decrement) && Enabled(Step(s, Decrement), Return)
    ensures var t := Step(Step(s, Decrement), Return);
      && (t.listener == if s.infoTerminated then Refused else Holding) && t.idlers == s.idlers - 1
      && t.workers == s.workers && t.data == s.data
  {
  }

  /** A listener that is woken, for nothing or by a signal, does not wait again: three steps of
      its own or less bring it to its reservation, whatever the counter, or to the news of the
      shutdown. */
  lemma WokenListenerReturns(s: State, e: Event)
    requires Enabled(s, e) && s.listener.Waiting? && (e.SpuriousWake? || e.Signal?)
    ensures var u := Step(s, e);
      && Enabled(u, Reacquire) && Enabled(Step(u, Reacquire), Return)
      && var t := Step(Step(u, Reacquire), Return);
      t.listener == (if s.infoTerminated then Refused else Holding) && t.idlers == s.idlers && t.data == s.data
  {
  }

  // ------------------------------------------------------------ the shutdown of the listener

  /** Where the listener does not come to wait any more, once the flag is set. */
  predicate PastWaiting(s: State) {
    s.infoTerminated && match s.listener
    case Polling => 0 < s.idlers
    case Holding => 0 < s.idlers
    case Checking => 0 <= s.idlers
    case Locked => 0 <= s.idlers
    case MustWait => false
    case Waiting => false
    case _ => true
  }

  lemma {:induction false} RunPastWaiting(s: State, es: seq<Event>, t: State)
    requires Run(s, es, t) && PastWaiting(s)
    ensures PastWaiting(t)
    decreases |es|
  {
    if es != [] {
      StepPastWaiting(s, es[0]);
      RunPastWaiting(Step(s, es[0]), es[1..], t);
    }
  }

  lemma StepPastWaiting(s: State, e: Event)
    requires Enabled(s, e) && PastWaiting(s)
    ensures PastWaiting(Step(s, e))
  {
  }

  ghost predicate RunsToWait(s: State, es: seq<Event>, t: State) {
    Run(s, es, t) && t.listener.Waiting?
  }

  /** After this shutdown the listener can still come to wait, or is left waiting. */
  ghost predicate WaitFollows(s: State)
    requires Enabled(s, InfoTerm)
  {
    exists es, t :: RunsToWait(Step(s, InfoTerm), es, t)
  }

  lemma RunFirst(s: State, e: Event, es: seq<Event>, t: State)
    requires Enabled(s, e) && RunsToWait(Step(s, e), es, t)
    ensures RunsToWait(s, [e] + es, t)
  {
    assert ([e] + es)[1..] == es;
  }

  lemma CheckingWaits(s: State) returns (es: seq<Event>, t: State)
    requires s.listener.Checking? && s.idlers < 0
    ensures RunsToWait(s, es, t)
  {
    var s1 := Step(s, Lock);
    var s2 := Step(s1, Recheck);
    es, t := [Block] + [], Step(s2, Block);
    RunFirst(s2, Block, [], t);
    RunFirst(s1, Recheck, es, t);
    RunFirst(s, Lock, [Recheck] + es, t);
    es := [Lock] + ([Recheck] + es);
  }

  lemma PollingWaits(s: State) returns (es: seq<Event>, t: State)
    requires s.listener.Polling? && s.idlers <= 0
    ensures RunsToWait(s, es, t)
  {
    es, t := CheckingWaits(Step(s, Decrement));
    RunFirst(s, Decrement, es, t);
    es := [Decrement] + es;
  }

  lemma HoldingWaits(s: State) returns (es: seq<Event>, t: State)
    requires s.listener.Holding? && s.idlers <= 0
    ensures RunsToWait(s, es, t)
  {
    var w: nat := 0;
    if Blocked in s.workers {
      w :| w < |s.workers| && s.workers[w] == Blocked;
    }
    es, t := PollingWaits(Step(s, Push(0, w)));
    RunFirst(s, Push(0, w), es, t);
    es := [Push(0, w)] + es;
  }

  /** The shutdown wakes a listener that waits, and no listener sleeps after it, except that
      one which is on its way to the lock, or has yet to ask for a worker, while none is
      counted goes to sleep without a look at the flag. */
  lemma WaitsAfterTermExactly(s: State)
    requires Enabled(s, InfoTerm)
    ensures WaitFollows(s) <==>
      || (s.listener.Checking? && s.idlers < 0)
      || ((s.listener.Polling? || s.listener.Holding?) && s.idlers <= 0)
  {
    var u := Step(s, InfoTerm);
    if u.listener.Checking? && u.idlers < 0 {
      var es, t := CheckingWaits(u);
    } else if u.listener.Polling? && u.idlers <= 0 {
      var es, t := PollingWaits(u);
    } else if u.listener.Holding? && u.idlers <= 0 {
      var es, t := HoldingWaits(u);
    } else if WaitFollows(s) {
      var es, t :| RunsToWait(u, es, t);
      RunPastWaiting(u, es, t);
    }
  }

  // --------------------------------------------------------------- the end of the workers

  /** An interruption, and so the broadcast of the shutdown, wakes all that are blocked and
      moves nobody else. */
  lemma BroadcastWakes(s: State, e: Event)
    requires Enabled(s, e) && (e.InterruptAll? || e.TermBroadcast?)
    ensures var t := Step(s, e);
      && |t.workers| == |s.workers| && t.data == s.data && t.queueTerminated == s.queueTerminated
      && (e.TermBroadcast? ==> t.listener.Gone?)
      && forall w :: 0 <= w < |s.workers| ==>
           if s.workers[w] == Blocked then Enabled(t, Resume(w)) else t.workers[w] == s.workers[w]
  {
  }

  /** Workers that have left, and how. */
  predicate Left(w: Worker) { w.Finished? || w.Stopped? || w.Quit? }

  lemma StopLeaves(s: State, w: nat)
    requires Enabled(s, Stop(w))
    ensures var t := Step(s, Stop(w));
      Left(t.workers[w]) && MARKED(t.workers[w]) == MARKED(s.workers[w]) && t == s.(workers := t.workers)
  {
  }

  lemma {:induction false} LeftForGood(s: State, es: seq<Event>, t: State, w: nat)
    requires Run(s, es, t) && w < |s.workers| && Left(s.workers[w])
    ensures |t.workers| == |s.workers| && t.workers[w] == s.workers[w]
    decreases |es|
  {
    if es != [] {
      StepLeft(s, es[0], w);
      LeftForGood(Step(s, es[0]), es[1..], t, w);
    }
  }

  lemma StepLeft(s: State, e: Event, w: nat)
    requires Enabled(s, e) && w < |s.workers| && Left(s.workers[w])
    ensures |Step(s, e).workers| == |s.workers| && Step(s, e).workers[w] == s.workers[w]
  {
  }

  /** Once the flag is set a worker that is marked idle and not blocked takes a connection or
      gets the end-of-file answer after at most two steps of its own. */
  lemma WorkerComesToItsEnd(s: State, w: nat) returns (es: seq<Event>, t: State)
    requires s.queueTerminated && w < |s.workers| && s.workers[w] in {Idle, Ready, Leaving}
    ensures Run(s, es, t) && |es| <= 2
    ensures if s.workers[w] == Leaving || s.data == [] then t == s.(workers := s.workers[w := Finished])
            else t == TakeTop(s, w)
  {
    var e := if s.workers[w] == Idle then Pop(w) else if s.workers[w] == Ready then Resume(w) else ReadFlag(w);
    var u := Step(s, e);
    assert Run(u, [], u) && [e][1..] == [];
    if s.workers[w] == Leaving || s.data != [] {
      es, t := [e], u;
    } else {
      es, t := [e, ReadFlag(w)], Step(u, ReadFlag(w));
      assert [e, ReadFlag(w)][1..] == [ReadFlag(w)] && [ReadFlag(w)][1..] == [] && Run(t, [], t);
      assert t.workers == s.workers[w := Finished];
    }
  }

  // --------------------------------------------------------- the queue's bound

  /** The push does not look at the bound.  It stays inside the array exactly when
      the counter, if negative, is made up for by workers that are not marked idle. */
  lemma PushInBounds(threads: nat, es: seq<Event>, t: State)
    requires Run(Init(threads), es, t) && t.listener.Holding?
    ensures |t.data| < threads <==> t.idlers + (threads - Count(t.workers, MARKED)) >= 0
  {
    InitInv(threads);
    RunKeepsInv(Init(threads), es, t);
  }

  /** So a push is safe whenever the listener reads a counter that is not negative. */
  lemma CountedPushInBounds(threads: nat, es: seq<Event>, t: State)
    requires Run(Init(threads), es, t) && t.listener.Holding? && 0 <= t.idlers
    ensures |t.data| < threads
  {
    InitInv(threads);
    RunKeepsInv(Init(threads), es, t);
    PushInBounds(threads, es, t);
  }

  lemma {:induction false} RunThen(s: State, es: seq<Event>, t: State, e: Event) returns (es': seq<Event>, t': State)
    requires Run(s, es, t) && Enabled(t, e)
    ensures es' == es + [e] && t' == Step(t, e) && Run(s, es', t')
    ensures SpuriousWake !in es && !e.SpuriousWake? ==> SpuriousWake !in es'
    decreases |es|
  {
    es', t' := es + [e], Step(t, e);
    if es == [] {
      assert es'[1..] == [];
    } else {
      assert es'[0] == es[0] && es'[1..] == es[1..] + [e];
      var _, _ := RunThen(Step(s, es[0]), es[1..], t, e);
    }
  }

  /** That condition can fail.  With one worker, a signal sent late, after the wait
      it was meant for had already found the counter back at zero, ends the next wait
      with the counter still at -1; the push that follows is one too many. */
  lemma LateSignalOverflows() returns (es: seq<Event>, t: State)
    ensures Run(Init(1), es, t) && SpuriousWake !in es && |t.data| == 2
  {
    es, t := [], Init(1);
    assert t.workers == [Busy];
    es, t := RunThen(Init(1), es, t, Decrement);
    es, t := RunThen(Init(1), es, t, Increment(0));
    assert t == State(Checking, 0, false, false, [], [Signalling], multiset{}, multiset{});
    es, t := LateSignalFirstPush(es, t);
    es, t := LateSignalSecondPush(es, t);
  }

  lemma LateSignalFirstPush(es0: seq<Event>, t0: State) returns (es: seq<Event>, t: State)
    requires Run(Init(1), es0, t0) && SpuriousWake !in es0
    requires t0 == State(Checking, 0, false, false, [], [Signalling], multiset{}, multiset{})
    ensures Run(Init(1), es, t) && SpuriousWake !in es
    ensures t == State(Polling, 0, false, false, [7], [Signalling], multiset{7}, multiset{})
  {
    es, t := RunThen(Init(1), es0, t0, Lock);
    es, t := RunThen(Init(1), es, t, Recheck);
    es, t := RunThen(Init(1), es, t, Return);
    es, t := RunThen(Init(1), es, t, Push(7, 0));
  }

  lemma LateSignalSecondPush(es0: seq<Event>, t0: State) returns (es: seq<Event>, t: State)
    requires Run(Init(1), es0, t0) && SpuriousWake !in es0
    requires t0 == State(Polling, 0, false, false, [7], [Signalling], multiset{7}, multiset{})
    ensures Run(Init(1), es, t) && SpuriousWake !in es && |t.data| == 2
  {
    es, t := RunThen(Init(1), es0, t0, Decrement);
    es, t := RunThen(Init(1), es, t, Lock);
    es, t := RunThen(Init(1), es, t, Recheck);
    es, t := RunThen(Init(1), es, t, Block);
    assert t == t0.(listener := Waiting, idlers := -1);
    es, t := LateSignalIsTaken(es, t);
  }

  lemma LateSignalIsTaken(es0: seq<Event>, t0: State) returns (es: seq<Event>, t: State)
    requires Run(Init(1), es0, t0) && SpuriousWake !in es0
    requires t0 == State(Waiting, -1, false, false, [7], [Signalling], multiset{7}, multiset{})
    ensures Run(Init(1), es, t) && SpuriousWake !in es && |t.data| == 2
  {
    es, t := RunThen(Init(1), es0, t0, Signal(0));
    es, t := RunThen(Init(1), es, t, Reacquire);
    es, t := RunThen(Init(1), es, t, Return);
    assert t == t0.(listener := Holding, workers := [Idle]);
    es, t := RunThen(Init(1), es, t, Push(8, 0));
  }

  /** A step that keeps to the discipline under which the bound holds: the listener
      asks for a worker only when no signal is still owed, and is not woken for nothing. */
  predicate Disciplined(s: State, e: Event) {
    && (e.Decrement? ==> Signalling !in s.workers)
    && !e.SpuriousWake?
  }

  ghost predicate DisciplinedRun(s: State, es: seq<Event>, t: State)
    decreases |es|
  {
    if es == [] then s == t
    else Enabled(s, es[0]) && Disciplined(s, es[0]) && DisciplinedRun(Step(s, es[0]), es[1..], t)
  }

  /** How low the counter can be under the discipline, by where the listener is. */
  ghost predicate CounterFloor(s: State) {
    match s.listener
    case Polling => s.idlers >= 0
    case Holding => s.idlers >= 0
    case Woken => s.idlers >= -1 && (s.infoTerminated || s.idlers >= 0)
    case Returning => s.idlers >= -1 && (s.infoTerminated || s.idlers >= 0)
    case Refused => s.idlers >= -1
    case Closing => |s.data| <= |s.workers|
    case Gone => |s.data| <= |s.workers|
    case _ => s.idlers >= -1 && (Signalling in s.workers ==> s.idlers >= 0)
  }

  lemma StepKeepsFloor(s: State, e: Event)
    requires Inv(s) && CounterFloor(s) && Enabled(s, e) && Disciplined(s, e)
    ensures CounterFloor(Step(s, e))
  {
    StepMembers(s, e, Signalling);
  }

  lemma {:induction false} DisciplinedRunBound(s: State, es: seq<Event>, t: State)
    requires Inv(s) && CounterFloor(s) && DisciplinedRun(s, es, t)
    ensures |t.data| <= |t.workers| == |s.workers|
    ensures t.listener.Holding? ==> |t.data| < |t.workers|
    decreases |es|
  {
    if es != [] {
      StepKeepsInv(s, es[0]);
      StepKeepsFloor(s, es[0]);
      DisciplinedRunBound(Step(s, es[0]), es[1..], t);
    }
  }

  /** Under the discipline the unchecked push never overruns the array, which has
      one slot per worker. */
  lemma QueueBounded(threads: nat, es: seq<Event>, t: State)
    requires DisciplinedRun(Init(threads), es, t)
    ensures |t.data| <= threads
    ensures t.listener.Holding? ==> |t.data| < threads
  {
    InitInv(threads);
    DisciplinedRunBound(Init(threads), es, t);
  }

  /** Increment and signal as one step: an increment from a negative counter is
      followed at once by the signal it calls for. */
  ghost predicate PromptRun(s: State, es: seq<Event>, t: State)
    decreases |es|
  {
    if es == [] then s == t
    else if es[0].Increment? && s.idlers < 0 then
      && Enabled(s, es[0])
      && |es| > 1 && es[1] == Signal(es[0].w) && Enabled(Step(s, es[0]), es[1])
      && PromptRun(Step(Step(s, es[0]), es[1]), es[2..], t)
    else
      && Enabled(s, es[0]) && !es[0].SpuriousWake?
      && PromptRun(Step(s, es[0]), es[1..], t)
  }

  lemma {:induction false} PromptIsDisciplined(s: State, es: seq<Event>, t: State)
    requires PromptRun(s, es, t) && Signalling !in s.workers
    ensures DisciplinedRun(s, es, t)
    decreases |es|
  {
    if es != [] {
      var e := es[0];
      StepMembers(s, e, Signalling);
      var s1 := Step(s, e);
      if e.Increment? && s.idlers < 0 {
        assert Step(s1, es[1]).workers == s.workers[e.w := Idle];
        PromptIsDisciplined(Step(s1, es[1]), es[2..], t);
        assert es[1..][1..] == es[2..] && es[1..][0] == es[1];
      } else {
        PromptIsDisciplined(s1, es[1..], t);
      }
    }
  }

  /** So with increment and signal as one step, and no spurious wakeup of the
      listener, the queue never holds more connections than there are workers. */
  lemma PromptQueueBounded(threads: nat, es: seq<Event>, t: State)
    requires PromptRun(Init(threads), es, t)
    ensures |t.data| <= threads
  {
    PromptIsDisciplined(Init(threads), es, t);
    QueueBounded(threads, es, t);
  }

  // ---------------------------------------------------------------- the end of the queue

  /** What holds once the flag is set, if the queue was empty then or nobody was between
      finding nothing and reading the flag. */
  ghost predicate Draining(s: State) {
    && s.queueTerminated && (s.listener.Closing? || s.listener.Gone?)
    && (s.data == [] || (Leaving !in s.workers && Finished !in s.workers))
  }

  lemma StepDrains(s: State, e: Event)
    requires Draining(s) && Enabled(s, e)
    ensures Draining(Step(s, e)) && Step(s, e).pushed == s.pushed && |Step(s, e).data| <= |s.data|
  {
    StepMembers(s, e, Leaving);
    StepMembers(s, e, Finished);
    WakeAllCounts(s.workers);
  }

  lemma {:induction false} RunDrains(s: State, es: seq<Event>, t: State)
    requires Draining(s) && Run(s, es, t)
    ensures Draining(t) && t.pushed == s.pushed && |t.data| <= |s.data|
    decreases |es|
  {
    if es != [] {
      StepDrains(s, es[0]);
      RunDrains(Step(s, es[0]), es[1..], t);
    }
  }

  /** Whoever is between finding nothing and reading the flag when it is set. */
  predicate EofMayComeEarly(s: State) { s.data != [] && Leaving in s.workers }

  lemma TermSetDrains(threads: nat, es: seq<Event>, s: State)
    requires Run(Init(threads), es, s) && Enabled(s, TermSet) && !EofMayComeEarly(s)
    ensures Draining(Step(s, TermSet))
  {
    InitInv(threads);
    RunKeepsInv(Init(threads), es, s);
  }

  /** A worker that gets the end-of-file answer leaves nothing behind, provided that the
      queue was empty when the flag was set or nobody was about to read the flag: every
      connection ever pushed has been popped, and none will be pushed again. */
  lemma EofMeansDrained(threads: nat, es: seq<Event>, s: State, later: seq<Event>, t: State)
    requires Run(Init(threads), es, s) && Enabled(s, TermSet) && !EofMayComeEarly(s)
    requires Run(Step(s, TermSet), later, t) && Finished in t.workers
    ensures t.data == [] && t.pushed == t.popped
    ensures forall e :: Enabled(t, e) ==> Step(t, e).pushed == t.pushed && Step(t, e).data == []
  {
    TermSetDrains(threads, es, s);
    RunDrains(Step(s, TermSet), later, t);
    InitInv(threads);
    RunKeepsInv(Init(threads), es, s);
    StepKeepsInv(s, TermSet);
    RunKeepsInv(Step(s, TermSet), later, t);
    forall e | Enabled(t, e) ensures Step(t, e).pushed == t.pushed && Step(t, e).data == [] {
      StepDrains(t, e);
    }
  }

  /** What the listener can check: if the queue is empty when it sets the flag, it stays so,
      whatever the workers are doing. */
  lemma EmptyAtTermIsDrained(threads: nat, es: seq<Event>, s: State, later: seq<Event>, t: State)
    requires Run(Init(threads), es, s) && Enabled(s, TermSet) && s.data == []
    requires Run(Step(s, TermSet), later, t)
    ensures t.data == [] && t.pushed == t.popped == s.pushed
  {
    TermSetDrains(threads, es, s);
    RunDrains(Step(s, TermSet), later, t);
    InitInv(threads);
    RunKeepsInv(Init(threads), es, s);
    StepKeepsInv(s, TermSet);
    RunKeepsInv(Step(s, TermSet), later, t);
  }

  /** Every run in which the flag gets set passes through one setting of it, so the lemmas
      about what follows a TermSet speak of every end-of-file answer. */
  lemma {:induction false} TermSplit(s: State, es: seq<Event>, t: State) returns (i: nat, u: State)
    requires Run(s, es, t) && !s.queueTerminated && t.queueTerminated
    ensures i < |es| && es[i] == TermSet && Run(s, es[..i], u)
    ensures Enabled(u, TermSet) && Run(Step(u, TermSet), es[i + 1..], t)
    decreases |es|
  {
    if es[0] == TermSet {
      i, u := 0, s;
    } else {
      var j;
      j, u := TermSplit(Step(s, es[0]), es[1..], t);
      i := j + 1;
      assert es[..i][1..] == es[1..][..j] && es[i + 1..] == es[1..][j + 1..];
    }
  }

  /** An end-of-file answer with a connection still queued can follow once the flag is set. */
  ghost predicate EofEarlyFollows(s: State)
    requires Enabled(s, TermSet)
  {
    exists later, t :: RunsToEarlyEof(Step(s, TermSet), later, t)
  }

  ghost predicate RunsToEarlyEof(s: State, later: seq<Event>, t: State) {
    Run(s, later, t) && Finished in t.workers && t.data != []
  }

  lemma EarlyEofComes(s: State, w: nat)
    requires Enabled(s, TermSet) && s.data != [] && w < |s.workers| && s.workers[w] == Leaving
    ensures EofEarlyFollows(s)
  {
    var u := Step(s, TermSet);
    var t := Step(u, ReadFlag(w));
    assert t.workers[w] == Finished;
    assert [ReadFlag(w)][1..] == [] && Run(t, [], t);
    assert RunsToEarlyEof(u, [ReadFlag(w)], t);
  }

  /** The condition is exact: that can follow if and only if a connection is queued when the
      flag is set while a worker that found nothing has not read the flag. */
  lemma EofEarlyExactly(threads: nat, es: seq<Event>, s: State)
    requires Run(Init(threads), es, s) && Enabled(s, TermSet)
    ensures EofEarlyFollows(s) <==> s.data != [] && Leaving in s.workers
  {
    if EofMayComeEarly(s) {
      var w :| 0 <= w < |s.workers| && s.workers[w] == Leaving;
      EarlyEofComes(s, w);
    } else if EofEarlyFollows(s) {
      var later, t :| RunsToEarlyEof(Step(s, TermSet), later, t);
      EofMeansDrained(threads, es, s, later, t);
    }
  }

  /** No thread is woken for nothing, and none leaves because of an ungraceful stop. */
  predicate Calm(e: Event) {
    !e.SpuriousWake? && !e.SpuriousReady? && !e.InterruptAll? && !e.Stop?
  }

  /** An interleaving of such steps. */
  ghost predicate CalmRun(s: State, es: seq<Event>, t: State)
    decreases |es|
  {
    if es == [] then s == t
    else Enabled(s, es[0]) && Calm(es[0]) && CalmRun(Step(s, es[0]), es[1..], t)
  }

  lemma {:induction false} CalmIsRun(s: State, es: seq<Event>, t: State)
    requires CalmRun(s, es, t)
    ensures Run(s, es, t) && forall e :: e in es ==> Calm(e)
    decreases |es|
  {
    if es != [] {
      CalmIsRun(Step(s, es[0]), es[1..], t);
      assert es == [es[0]] + es[1..];
    }
  }

  lemma CalmFirst(s: State, e: Event, es: seq<Event>, t: State)
    requires Enabled(s, e) && Calm(e) && CalmRun(Step(s, e), es, t)
    ensures CalmRun(s, [e] + es, t)
  {
    assert ([e] + es)[1..] == es;
  }

  lemma {:induction false} CalmJoin(s: State, a: seq<Event>, u: State, b: seq<Event>, t: State)
    requires CalmRun(s, a, u) && CalmRun(u, b, t)
    ensures CalmRun(s, a + b, t)
    decreases |a|
  {
    if a == [] {
      assert a + b == b;
    } else {
      CalmJoin(Step(s, a[0]), a[1..], u, b, t);
      assert (a + b)[1..] == a[1..] + b;
    }
  }

  lemma CalmTwo(s: State, d: Event, e: Event) returns (es: seq<Event>, t: State)
    requires Enabled(s, d) && Calm(d) && Enabled(Step(s, d), e) && Calm(e)
    ensures CalmRun(s, es, t) && t == Step(Step(s, d), e)
  {
    t := Step(Step(s, d), e);
    CalmFirst(Step(s, d), e, [], t);
    CalmFirst(s, d, [e] + [], t);
    es := [d] + ([e] + []);
  }

  /** It does happen, with no wakeup for nothing.  A connection wakes worker 0, worker 1
      takes it first, and worker 0 finds nothing; before it reads the flag, one more
      connection is pushed and the flag is set. */
  lemma EofBeforeDrained() returns (es: seq<Event>, t: State)
    ensures Run(Init(2), es, t) && forall e :: e in es ==> Calm(e)
    ensures Finished in t.workers && t.data == [8]
  {
    var s := Init(2);
    assert s == State(Polling, 0, false, false, [], [Busy, Busy], multiset{}, multiset{});
    var a, u := CalmTwo(s, Increment(0), Increment(1));
    assert u == State(Polling, 2, false, false, [], [Idle, Idle], multiset{}, multiset{});
    var b, v := FindsNothing(u);
    CalmJoin(s, a, u, b, v);
    var c;
    c, t := EofAfterPush(v);
    CalmJoin(s, a + b, v, c, t);
    es := (a + b) + c;
    CalmIsRun(s, es, t);
  }

  lemma FindsNothing(s: State) returns (es: seq<Event>, t: State)
    requires s == State(Polling, 2, false, false, [], [Idle, Idle], multiset{}, multiset{})
    ensures CalmRun(s, es, t)
    ensures t == State(Polling, 1, false, false, [], [Leaving, Busy], multiset{7}, multiset{7})
  {
    var a, u := CalmTwo(s, Pop(0), Decrement);
    assert u == State(Returning, 1, false, false, [], [Blocked, Idle], multiset{}, multiset{});
    var b;
    b, t := WokenTooLate(u);
    CalmJoin(s, a, u, b, t);
    es := a + b;
  }

  lemma WokenTooLate(s: State) returns (es: seq<Event>, t: State)
    requires s == State(Returning, 1, false, false, [], [Blocked, Idle], multiset{}, multiset{})
    ensures CalmRun(s, es, t)
    ensures t == State(Polling, 1, false, false, [], [Leaving, Busy], multiset{7}, multiset{7})
  {
    assert s.workers[0] == Blocked;
    var a, u := CalmTwo(s, Return, Push(7, 0));
    assert u == State(Polling, 1, false, false, [7], [Ready, Idle], multiset{7}, multiset{});
    var b;
    b, t := CalmTwo(u, Pop(1), Resume(0));
    CalmJoin(s, a, u, b, t);
    es := a + b;
  }

  lemma EofAfterPush(s: State) returns (es: seq<Event>, t: State)
    requires s == State(Polling, 1, false, false, [], [Leaving, Busy], multiset{7}, multiset{7})
    ensures CalmRun(s, es, t) && Finished in t.workers && t.data == [8]
  {
    var u, v := Step(s, Decrement), Step(Step(s, Decrement), Return);
    assert Blocked !in v.workers;
    var a, w := CalmTwo(v, Push(8, 0), TermSet);
    t := Step(w, ReadFlag(0));
    assert t.workers[0] == Finished;
    CalmFirst(w, ReadFlag(0), [], t);
    CalmJoin(v, a, w, [ReadFlag(0)] + [], t);
    var b := a + ([ReadFlag(0)] + []);
    CalmFirst(u, Return, b, t);
    CalmFirst(s, Decrement, [Return] + b, t);
    es := [Decrement] + ([Return] + b);
  }

  // ------------------------------------------------------- is a queued connection lost?

  const TAKER: Worker -> bool := (w: Worker) => w.Busy? || w.Signalling? || w.Idle? || w.Blocked? || w.Ready?
  const AHEAD: Worker -> bool := (w: Worker) => w.Busy? || w.Signalling? || w.Idle? || w.Blocked?

  /** Nobody is left who will look into the queue again before reading the flag. */
  ghost predicate Abandoned(s: State) { s.data != [] && Count(s.workers, TAKER) == 0 }

  /** A worker that finds nothing is never the last that would look. */
  ghost predicate Attended(s: State) {
    if s.queueTerminated then s.data != [] ==> 0 < Count(s.workers, TAKER)
    else 0 < Count(s.workers, AHEAD) + |s.data| && 0 < Count(s.workers, TAKER)
  }

  /** Once the flag is set, whoever is woken and however, the last that would look does not
      leave while something is queued. */
  lemma StepKeepsTaker(s: State, e: Event)
    requires s.queueTerminated && EofIsFinal(s) && Enabled(s, e) && !e.Stop?
    requires s.data != [] ==> 0 < Count(s.workers, TAKER)
    ensures Step(s, e).queueTerminated
    ensures Step(s, e).data != [] ==> 0 < Count(Step(s, e).workers, TAKER)
  {
    var (moved, w, pc) := Mover(s, e);
    if moved {
      CountUpdate(s.workers, w, pc, TAKER);
      CountPositive(Step(s, e).workers, TAKER);
      assert Step(s, e).workers[w] == pc;
    } else {
      CountPointwise(s.workers, WakeAll(s.workers), TAKER);
    }
  }

  lemma {:induction false} RunKeepsTaker(s: State, es: seq<Event>, t: State)
    requires Inv(s) && s.queueTerminated && Run(s, es, t) && forall i :: 0 <= i < |es| ==> !es[i].Stop?
    requires s.data != [] ==> 0 < Count(s.workers, TAKER)
    ensures !Abandoned(t)
    decreases |es|
  {
    if es != [] {
      StepKeepsTaker(s, es[0]);
      StepKeepsInv(s, es[0]);
      RunKeepsTaker(Step(s, es[0]), es[1..], t);
    }
  }

  ghost predicate AbandonedFollows(s: State)
    requires Enabled(s, TermSet)
  {
    exists later, t :: RunsToAbandoned(Step(s, TermSet), later, t)
  }

  ghost predicate RunsToAbandoned(s: State, later: seq<Event>, t: State) {
    Run(s, later, t) && Abandoned(t) && forall i :: 0 <= i < |later| ==> !later[i].Stop?
  }

  /** Unless a worker is stopped, a connection is abandoned after the flag is set if and only
      if one is queued then while no worker is left that would look. */
  lemma AbandonedExactly(threads: nat, es: seq<Event>, s: State)
    requires Run(Init(threads), es, s) && Enabled(s, TermSet)
    ensures AbandonedFollows(s) <==> Abandoned(s)
  {
    InitInv(threads);
    RunKeepsInv(Init(threads), es, s);
    StepKeepsInv(s, TermSet);
    var u := Step(s, TermSet);
    if Abandoned(s) {
      assert RunsToAbandoned(u, [], u);
    } else if AbandonedFollows(s) {
      var later, t :| RunsToAbandoned(u, later, t);
      RunKeepsTaker(u, later, t);
    }
  }

  lemma StepAttended(s: State, e: Event)
    requires Attended(s) && EofIsFinal(s) && Enabled(s, e) && Calm(e)
    ensures Attended(Step(s, e))
  {
    var (moved, w, pc) := Mover(s, e);
    if s.queueTerminated {
      StepKeepsTaker(s, e);
    } else if moved {
      CountUpdate(s.workers, w, pc, TAKER);
      CountUpdate(s.workers, w, pc, AHEAD);
      CountPositive(Step(s, e).workers, AHEAD);
      AheadAreTakers(Step(s, e).workers);
      assert Step(s, e).workers[w] == pc;
    }
  }

  lemma {:induction false} CalmRunAttended(s: State, es: seq<Event>, t: State)
    requires Attended(s) && Inv(s) && CalmRun(s, es, t)
    ensures Attended(t)
    decreases |es|
  {
    if es != [] {
      StepAttended(s, es[0]);
      StepKeepsInv(s, es[0]);
      CalmRunAttended(Step(s, es[0]), es[1..], t);
    }
  }

  /** An early answer loses no connection by itself: as long as no worker is woken for
      nothing or stopped, while a connection is queued some worker will still look. */
  lemma NoneAbandoned(threads: nat, es: seq<Event>, t: State)
    requires 0 < threads && CalmRun(Init(threads), es, t)
    ensures !Abandoned(t)
  {
    InitInv(threads);
    CountAll(Init(threads).workers, AHEAD);
    AheadAreTakers(Init(threads).workers);
    CalmRunAttended(Init(threads), es, t);
  }

  /** A wakeup for nothing is enough to lose one: the only worker is woken before its
      connection is pushed, and reads the flag after the listener has set it. */
  lemma WokenWorkerAbandons() returns (es: seq<Event>, t: State)
    ensures Run(Init(1), es, t) && t.workers == [Finished] && t.data == [7] && Abandoned(t)
    ensures forall e :: Enabled(t, e) ==> Step(t, e).workers == t.workers && Step(t, e).data == t.data
  {
    es, t := [], Init(1);
    assert t.workers == [Busy];
    es, t := RunThen(Init(1), es, t, Increment(0));
    es, t := RunThen(Init(1), es, t, Pop(0));
    es, t := RunThen(Init(1), es, t, SpuriousReady(0));
    assert t == State(Polling, 1, false, false, [], [Ready], multiset{}, multiset{});
    es, t := WokenWorkerLeaves(es, t);
    NobodyLeft(t);
  }

  lemma WokenWorkerLeaves(es0: seq<Event>, t0: State) returns (es: seq<Event>, t: State)
    requires Run(Init(1), es0, t0)
    requires t0 == State(Polling, 1, false, false, [], [Ready], multiset{}, multiset{})
    ensures Run(Init(1), es, t)
    ensures t == State(Closing, 0, false, true, [7], [Finished], multiset{7}, multiset{})
  {
    es, t := RunThen(Init(1), es0, t0, Resume(0));
    es, t := RunThen(Init(1), es, t, Decrement);
    es, t := RunThen(Init(1), es, t, Return);
    assert t == State(Holding, 0, false, false, [], [Leaving], multiset{}, multiset{});
    es, t := FlagIsReadLate(es, t);
  }

  lemma FlagIsReadLate(es0: seq<Event>, t0: State) returns (es: seq<Event>, t: State)
    requires Run(Init(1), es0, t0)
    requires t0 == State(Holding, 0, false, false, [], [Leaving], multiset{}, multiset{})
    ensures Run(Init(1), es, t)
    ensures t == State(Closing, 0, false, true, [7], [Finished], multiset{7}, multiset{})
  {
    es, t := RunThen(Init(1), es0, t0, Push(7, 0));
    es, t := RunThen(Init(1), es, t, TermSet);
    es, t := RunThen(Init(1), es, t, ReadFlag(0));
    assert t == State(Closing, 0, false, true, [7], [Finished], multiset{7}, multiset{});
  }

  /** With every worker finished and the flag set, no step moves a worker or the queue. */
  lemma NobodyLeft(t: State)
    requires t == State(Closing, 0, false, true, [7], [Finished], multiset{7}, multiset{})
    ensures Abandoned(t)
    ensures forall e :: Enabled(t, e) ==> Step(t, e).workers == t.workers && Step(t, e).data == t.data
  {
    assert WakeAll(t.workers) == t.workers;
    assert t.workers[1..] == [];
  }

  lemma {:induction false} AheadAreTakers(ws: seq<Worker>)
    ensures Count(ws, AHEAD) <= Count(ws, TAKER)
  {
    if ws != [] {
      AheadAreTakers(ws[1..]);
    }
  }

  // -------------------------------------------------------- the queue of sockets in place

  /** What a worker finds under the lock of the queue: a connection or nothing. */
  datatype Answer = Got(conn: Conn) | Empty

  /** fd_queue_t: the data of the state above, in an array with no check for room. */
  class SocketQueue {
    const elems: array<Conn>
    var nelts: nat
    var terminated: bool

    ghost predicate Valid()
      reads this
    {
      nelts <= elems.Length
    }

    ghost function Contents(): seq<Conn>
      reads this, elems
      requires Valid()
    {
      elems[..nelts]
    }

    /** src/fdqueue.c:267-294. */
    constructor (bounds: nat)
      ensures Valid() && fresh(elems) && elems.Length == bounds && Contents() == [] && !terminated
    {
      elems := new Conn[bounds](_ => 0);
      nelts, terminated := 0, false;
    }

    /** src/fdqueue.c:312-316; the room is what PromptQueueBounded is about. */
    method Push(conn: Conn)
      requires Valid() && |Contents()| < elems.Length
      modifies this`nelts, elems
      ensures Valid() && Contents() == old(Contents()) + [conn]
    {
      elems[nelts] := conn;
      nelts := nelts + 1;
    }

    /** src/fdqueue.c:344-350 and 363-368, under the lock, without the wait. */
    method Pop() returns (answer: Answer)
      requires Valid()
      modifies this`nelts
      ensures Valid()
      ensures if old(Contents()) == [] then Contents() == [] && answer == Empty
              else answer.Got? && old(Contents()) == Contents() + [answer.conn]
    {
      if nelts == 0 {
        return Empty;
      }
      nelts := nelts - 1;
      answer := Got(elems[nelts]);
    }

    /** src/fdqueue.c:354-359, after the lock was given up: the end, or an interruption. */
    method ReadFlag() returns (eof: bool)
      ensures eof == terminated
    {
      eof := terminated;
    }

    /** src/fdqueue.c:394. */
    method Term()
      requires Valid()
      modifies this`terminated
      ensures Valid() && terminated && Contents() == old(Contents())
    {
      terminated := true;
    }
  }
}
