/** The resource pool (common/misc/reslist.c).

    Every step below is what one thread does between taking the lock and giving it up or
    waiting. Times, the identity of a constructed resource and the failures of the
    constructor and the destructor are parameters. */
module Reslist {

  datatype Option<T> = None | Some(value: T)

  /** An idle resource and the time at which it was put back. */
  datatype Res = Res(id: int, freed: int)

  /** avail has the first element of the ring first. */
  datatype List = List(ntotal: int, nidle: int, min: int, smax: int, hmax: int, ttl: int, avail: seq<Res>)

  // --------------------------------------------------------------------- the operations

  /** common/misc/reslist.c:277-280. */
  predicate Sane(l: List) {
    0 <= l.min <= l.smax <= l.hmax && l.hmax != 0 && 0 <= l.ttl
  }

  predicate Counted(l: List) { l.nidle == |l.avail| }

  predicate Expired(l: List, r: Res, now: int) { l.ttl <= now - r.freed }

  /** common/misc/reslist.c:56-63. */
  function Pop(l: List): List
    requires l.avail != []
  {
    l.(avail := l.avail[1..], nidle := l.nidle - 1)
  }

  /** common/misc/reslist.c:100-105. */
  function Push(l: List, id: int, now: int): List {
    l.(avail := [Res(id, now)] + l.avail, nidle := l.nidle + 1)
  }

  /** What a caller gets: a resource, an error, or that there is none idle. */
  datatype Answer = Got(id: int) | Failed | Nothing

  /** A list, the answer, and how many resources were built and destroyed. */
  datatype Done = Done(list: List, answer: Answer, built: nat, killed: nat)

  /** common/misc/reslist.c:332-351; the destructor fails at its call number failAt. */
  function Scan(l: List, now: int, failAt: nat): (d: Done)
    requires Counted(l)
    decreases |l.avail|
  {
    if l.nidle <= 0 then Done(l, Nothing, 0, 0)
    else
      var r := l.avail[0];
      var p := Pop(l);
      if l.ttl != 0 && Expired(l, r, now) then
        var k := p.(ntotal := p.ntotal - 1);
        if failAt == 0 then Done(k, Failed, 0, 1)
        else
          var d := Scan(k, now, failAt - 1);
          d.(killed := d.killed + 1)
      else Done(p, Got(r.id), 0, 0)
  }

  /** common/misc/reslist.c:354: the condition to wait. */
  predicate MustWait(l: List) { l.hmax <= l.ntotal && l.nidle <= 0 }

  /** common/misc/reslist.c:366-388, after the wait; made is what the constructor gives. */
  function Take(l: List, made: Option<int>): Done
    requires Counted(l)
  {
    if 0 < l.nidle then Done(Pop(l), Got(l.avail[0].id), 0, 0)
    else
      match made
      case None => Done(l, Failed, 0, 0)
      case Some(id) => Done(l.(ntotal := l.ntotal + 1), Got(id), 1, 0)
  }

  /** A call of the constructor: what it makes, and the time when that is put in the list. */
  datatype Make = Make(made: Option<int>, at: int)

  /** common/misc/reslist.c:211-230. The calls come from makes, as many as are needed. */
  function Fill(l: List, makes: seq<Make>): (d: Done)
    requires Counted(l)
    ensures Counted(d.list)
    decreases |makes|
  {
    if l.min <= l.nidle || l.hmax <= l.ntotal || makes == [] then Done(l, Nothing, 0, 0)
    else
      match makes[0].made
      case None => Done(l, Failed, 0, 0)
      case Some(id) =>
        var p := Push(l, id, makes[0].at);
        var d := Fill(p.(ntotal := p.ntotal + 1), makes[1..]);
        d.(built := d.built + 1)
  }

  /** common/misc/reslist.c:239-258. */
  function Expire(l: List, now: int, failAt: nat): (d: Done)
    requires Counted(l)
    decreases |l.avail|
  {
    if l.nidle <= l.smax || l.nidle <= 0 then Done(l, Nothing, 0, 0)
    else
      var n := |l.avail| - 1;
      if now - l.avail[n].freed < l.ttl then Done(l, Nothing, 0, 0)
      else
        var k := l.(avail := l.avail[..n], nidle := l.nidle - 1, ntotal := l.ntotal - 1);
        if failAt == 0 then Done(k, Failed, 0, 1)
        else
          var d := Expire(k, now, failAt - 1);
          d.(killed := d.killed + 1)
  }

  /** common/misc/reslist.c:201-262. */
  function Maint(l: List, makes: seq<Make>, now: int, failAt: nat): Done
    requires Counted(l)
  {
    var d := Fill(l, makes);
    if d.answer == Failed || 0 < d.built then d else Expire(l, now, failAt)
  }

  /** common/misc/reslist.c:172-182. */
  function Cleanup(l: List): (d: Done)
    requires Counted(l)
    decreases |l.avail|
  {
    if l.nidle <= 0 then Done(l, Nothing, 0, 0)
    else
      var p := Pop(l);
      var d := Cleanup(p.(ntotal := p.ntotal - 1));
      d.(killed := d.killed + 1)
  }

  // ------------------------------------------------------------------- newest first

  ghost predicate NewestFirst(s: seq<Res>) {
    forall i, j :: 0 <= i < j < |s| ==> s[j].freed <= s[i].freed
  }

  ghost predicate Before(s: seq<Res>, now: int) {
    forall i :: 0 <= i < |s| ==> s[i].freed <= now
  }

  /** An acquire either takes the newest idle resource, not expired, or has met one that is
      expired and destroys all of them, unless the destructor fails. */
  lemma {:induction false} ScanTakesNewestOrAll(l: List, now: int, failAt: nat)
    requires NewestFirst(l.avail) && Counted(l)
    ensures var d := Scan(l, now, failAt);
      && (d.answer.Got? <==> l.avail != [] && (l.ttl == 0 || !Expired(l, l.avail[0], now)))
      && (d.answer.Got? ==> d.answer.id == l.avail[0].id && d.list == Pop(l) && d.killed == 0)
      && (d.answer == Nothing ==> d.list.avail == [] && d.killed == |l.avail|)
      && (d.answer == Nothing ==> forall i :: 0 <= i < |l.avail| ==> Expired(l, l.avail[i], now))
      && (d.answer == Failed <==> l.avail != [] && !d.answer.Got? && failAt < |l.avail|)
      && (d.answer == Failed ==> d.killed == failAt + 1 && d.list.avail == l.avail[failAt + 1..])
      && d.list == l.(avail := d.list.avail, nidle := |d.list.avail|, ntotal := l.ntotal - d.killed)
      && d.built == 0
    decreases |l.avail|
  {
    if l.avail != [] && l.ttl != 0 && Expired(l, l.avail[0], now) {
      var p := Pop(l);
      if failAt != 0 {
        ScanTakesNewestOrAll(p.(ntotal := p.ntotal - 1), now, failAt - 1);
      }
    }
  }

  /** The expiry loop takes entries from the end, as many as the destructor is called for. */
  lemma {:induction false} ExpireTakesLast(l: List, now: int, failAt: nat)
    requires Counted(l)
    ensures var d := Expire(l, now, failAt);
      && d.built == 0 && !d.answer.Got? && d.killed <= |l.avail|
      && d.list == l.(avail := l.avail[..|l.avail| - d.killed], nidle := l.nidle - d.killed,
                      ntotal := l.ntotal - d.killed)
      && (0 < d.killed ==> l.smax <= d.list.nidle)
    decreases |l.avail|
  {
    var n := |l.avail| - 1;
    if l.smax < l.nidle && 0 < l.nidle && Expired(l, l.avail[n], now) && failAt != 0 {
      var k := l.(avail := l.avail[..n], nidle := l.nidle - 1, ntotal := l.ntotal - 1);
      ExpireTakesLast(k, now, failAt - 1);
    } else {
      assert l.avail[..|l.avail|] == l.avail;
    }
  }

  /** It fails exactly if the destructor does, at the call that fails. */
  lemma {:induction false} ExpireFails(l: List, now: int, failAt: nat)
    requires Counted(l)
    ensures var d := Expire(l, now, failAt);
      if d.answer == Failed then d.killed == failAt + 1 else d.killed <= failAt
    decreases |l.avail|
  {
    var n := |l.avail| - 1;
    if l.smax < l.nidle && 0 < l.nidle && Expired(l, l.avail[n], now) && failAt != 0 {
      ExpireFails(l.(avail := l.avail[..n], nidle := l.nidle - 1, ntotal := l.ntotal - 1), now, failAt - 1);
    }
  }

  /** The early break misses nothing: after the expiry loop, unless the destructor fails,
      no more than smax are idle or none that is idle has expired; and only expired ones
      were destroyed. */
  lemma {:induction false} ExpireMissesNone(l: List, now: int, failAt: nat)
    requires NewestFirst(l.avail) && Counted(l) && 0 <= l.smax
    ensures var d := Expire(l, now, failAt);
      && d.killed <= |l.avail|
      && (forall i :: |l.avail| - d.killed <= i < |l.avail| ==> Expired(l, l.avail[i], now))
      && (d.answer != Failed ==>
            d.list.nidle <= l.smax || forall i :: 0 <= i < |l.avail| - d.killed ==> !Expired(l, l.avail[i], now))
    decreases |l.avail|
  {
    var n := |l.avail| - 1;
    if l.smax < l.nidle && Expired(l, l.avail[n], now) && failAt != 0 {
      var k := l.(avail := l.avail[..n], nidle := l.nidle - 1, ntotal := l.ntotal - 1);
      ExpireMissesNone(k, now, failAt - 1);
      assert forall i :: 0 <= i < n ==> k.avail[i] == l.avail[i];
    }
  }

  // -------------------------------------------------------------------------- whole runs

  function Ids(s: seq<Res>): multiset<int> {
    if s == [] then multiset{} else multiset{s[0].id} + Ids(s[1..])
  }

  /** held is what callers hold, waiting how many threads wait, clock the last time read;
      built and killed count the resources constructed and destroyed so far. */
  datatype State = State(list: List, held: multiset<int>, waiting: nat, built: int, killed: int, clock: int)

  datatype Event =
    | Acquire(now: int, failAt: nat, made: Option<int>)
    | Wake(made: Option<int>)
    | TimeOut
    | Release(id: int, now: int)
    | Maintain(makes: seq<Make>, now: int, failAt: nat)
    | Invalidate(id: int)

  function Live(s: State): multiset<int> { Ids(s.list.avail) + s.held }

  /** The constructor makes something new, and later readings of the clock are not earlier. */
  ghost predicate NewIds(live: multiset<int>, clock: int, makes: seq<Make>)
    decreases |makes|
  {
    makes != [] ==>
      && clock <= makes[0].at
      && (makes[0].made.Some? ==> makes[0].made.value !in live)
      && NewIds(if makes[0].made.Some? then live + multiset{makes[0].made.value} else live, makes[0].at, makes[1..])
  }

  ghost predicate Enabled(s: State, e: Event) {
    match e
    case Acquire(now, _, made) => s.clock <= now && (made.Some? ==> made.value !in Live(s))
    case Wake(made) => 0 < s.waiting && (made.Some? ==> made.value !in Live(s))
    case TimeOut => 0 < s.waiting
    case Release(id, now) => id in s.held && s.clock <= now
    case Maintain(makes, now, _) => NewIds(Live(s), s.clock, makes) && s.clock <= now
    case Invalidate(id) => id in s.held
  }

  /** The state after a step that answers d to a caller. */
  ghost function After(s: State, d: Done): State {
    State(d.list, if d.answer.Got? then s.held + multiset{d.answer.id} else s.held,
          s.waiting, s.built + d.built, s.killed + d.killed, s.clock)
  }

  /** Lines 329 to 388 up to the answer or the wait. */
  ghost function AcquireStep(s: State, now: int, failAt: nat, made: Option<int>): State
    requires Counted(s.list) && NewestFirst(s.list.avail)
  {
    ScanTakesNewestOrAll(s.list, now, failAt);
    var t := After(s.(clock := now), Scan(s.list, now, failAt));
    if Scan(s.list, now, failAt).answer != Nothing then t
    else if MustWait(t.list) then t.(waiting := t.waiting + 1)
    else After(t, Take(t.list, made))
  }

  ghost function WakeStep(s: State, made: Option<int>): State
    requires Counted(s.list) && 0 < s.waiting
  {
    if MustWait(s.list) then s else After(s.(waiting := s.waiting - 1), Take(s.list, made))
  }

  /** The time of the last push of Fill. */
  function FillClock(l: List, makes: seq<Make>, clock: int): int
    requires Counted(l)
    decreases |makes|
  {
    if l.min <= l.nidle || l.hmax <= l.ntotal || makes == [] || makes[0].made.None? then clock
    else
      var p := Push(l, makes[0].made.value, makes[0].at);
      FillClock(p.(ntotal := p.ntotal + 1), makes[1..], makes[0].at)
  }

  ghost function MaintStep(s: State, makes: seq<Make>, now: int, failAt: nat): State
    requires Counted(s.list)
  {
    var d := Fill(s.list, makes);
    var t := After(s, d).(clock := FillClock(s.list, makes, s.clock));
    if d.answer == Failed || 0 < d.built then t
    else After(s.(clock := now), Expire(s.list, now, failAt))
  }

  ghost predicate Distinct(b: multiset<int>) { forall x :: b[x] <= 1 }

  ghost predicate Inv(s: State) {
    && Sane(s.list) && Counted(s.list)
    && NewestFirst(s.list.avail) && Before(s.list.avail, s.clock)
    && s.list.ntotal == |s.list.avail| + |s.held| == s.built - s.killed
    && s.list.ntotal <= s.list.hmax
    && Distinct(Live(s))
  }

  ghost function Step(s: State, e: Event): State
    requires Inv(s) && Enabled(s, e)
  {
    match e
    case Acquire(now, failAt, made) => AcquireStep(s, now, failAt, made)
    case Wake(made) => WakeStep(s, made)
    case TimeOut => s.(waiting := s.waiting - 1)
    case Release(id, now) => s.(list := Push(s.list, id, now), held := s.held - multiset{id}, clock := now)
    case Maintain(makes, now, failAt) => MaintStep(s, makes, now, failAt)
    case Invalidate(id) =>
      s.(list := s.list.(ntotal := s.list.ntotal - 1), held := s.held - multiset{id}, killed := s.killed + 1)
  }

  lemma Regroup(a: multiset<int>, b: multiset<int>, c: multiset<int>)
    ensures (a + b) + c == a + (b + c) && multiset{} + c == c
  {
  }

  lemma {:induction false} IdsSplit(s: seq<Res>, k: nat)
    requires k <= |s|
    ensures Ids(s[..k]) + Ids(s[k..]) == Ids(s)
  {
    if k == 0 {
      assert s[0..] == s;
      Regroup(multiset{}, multiset{}, Ids(s));
    } else {
      IdsSplit(s[1..], k - 1);
      var a := s[..k];
      assert a[1..] == s[1..][..k - 1] && s[k..] == s[1..][k - 1..];
      Regroup(multiset{s[0].id}, Ids(a[1..]), Ids(s[k..]));
    }
  }

  lemma IdsFrom(s: seq<Res>, k: nat)
    requires k <= |s|
    ensures Ids(s[..k]) + Ids(s[k..]) == Ids(s) && |Ids(s)| == |s|
  {
    IdsSize(s);
    IdsSplit(s, k);
  }

  lemma {:induction false} IdsSize(s: seq<Res>)
    ensures |Ids(s)| == |s|
  {
    if s != [] {
      IdsSize(s[1..]);
    }
  }

  lemma Fewer(a: multiset<int>, b: multiset<int>, c: multiset<int>)
    requires a + b == c && Distinct(c)
    ensures Distinct(a) && Distinct(b)
  {
    assert forall x :: a[x] <= c[x] && b[x] <= c[x];
  }

  lemma OneMore(a: multiset<int>, x: int)
    requires Distinct(a) && x !in a
    ensures Distinct(a + multiset{x})
  {
  }

  lemma SliceKeepsOrder(s: seq<Res>, lo: nat, hi: nat, now: int)
    requires lo <= hi <= |s| && NewestFirst(s) && Before(s, now)
    ensures NewestFirst(s[lo..hi]) && Before(s[lo..hi], now)
  {
  }

  lemma KillKeepsDistinct(a: seq<Res>, lo: nat, hi: nat, held: multiset<int>)
    requires lo <= hi <= |a| && Distinct(Ids(a) + held)
    ensures Distinct(Ids(a[lo..hi]) + held) && Ids(a[lo..hi]) + held <= Ids(a) + held
  {
    IdsFrom(a, hi);
    IdsFrom(a[..hi], lo);
    assert a[..hi][lo..] == a[lo..hi];
    var rest := Ids(a[..hi][..lo]) + Ids(a[hi..]);
    assert (Ids(a[lo..hi]) + held) + rest == Ids(a) + held;
    Fewer(Ids(a[lo..hi]) + held, rest, Ids(a) + held);
  }

  /** Destroying idle resources at one end of the list. */
  lemma KillKeepsInv(s: State, t: State, lo: nat, hi: nat)
    requires Inv(s) && lo <= hi <= |s.list.avail| && s.clock <= t.clock
    requires t.held == s.held && t.built == s.built && t.killed == s.killed + (|s.list.avail| - (hi - lo))
    requires t.list == s.list.(avail := s.list.avail[lo..hi], nidle := hi - lo,
                               ntotal := s.list.ntotal - (|s.list.avail| - (hi - lo)))
    ensures Inv(t) && Live(t) <= Live(s)
  {
    SliceKeepsOrder(s.list.avail, lo, hi, s.clock);
    KillKeepsDistinct(s.list.avail, lo, hi, s.held);
  }

  lemma PopKeepsInv(s: State)
    requires Inv(s) && s.list.avail != []
    ensures var t := s.(list := Pop(s.list), held := s.held + multiset{s.list.avail[0].id});
      Inv(t) && Live(t) == Live(s) && s.list.avail[0].id !in s.held
  {
    var a := s.list.avail;
    SliceKeepsOrder(a, 1, |a|, s.clock);
    assert a[1..|a|] == a[1..];
    var x := a[0].id;
    assert Live(s)[x] == Ids(a)[x] + s.held[x];
    assert Live(s.(list := Pop(s.list), held := s.held + multiset{x})) == Live(s);
  }

  lemma BuildKeepsInv(s: State, id: int)
    requires Inv(s) && id !in Live(s) && s.list.ntotal < s.list.hmax
    ensures Inv(s.(list := s.list.(ntotal := s.list.ntotal + 1), held := s.held + multiset{id}, built := s.built + 1))
  {
    var t := s.(list := s.list.(ntotal := s.list.ntotal + 1), held := s.held + multiset{id}, built := s.built + 1);
    assert Live(t) == Live(s) + multiset{id};
    OneMore(Live(s), id);
  }

  /** Taking after the wait gives a caller something that nobody holds. */
  lemma TakeKeepsInv(s: State, made: Option<int>)
    requires Inv(s) && !MustWait(s.list) && (made.Some? ==> made.value !in Live(s))
    ensures var d := Take(s.list, made);
      Inv(After(s, d)) && (d.answer.Got? ==> d.answer.id !in s.held)
  {
    if 0 < s.list.nidle {
      PopKeepsInv(s);
    } else if made.Some? {
      BuildKeepsInv(s, made.value);
    }
  }

  lemma ScanKeepsInv(s: State, now: int, failAt: nat)
    requires Inv(s) && s.clock <= now
    ensures var d := Scan(s.list, now, failAt);
      var t := After(s.(clock := now), d);
      && Inv(t) && (d.answer.Got? ==> d.answer.id !in s.held)
      && (!d.answer.Got? ==> Live(t) <= Live(s) && t.held == s.held)
  {
    ScanTakesNewestOrAll(s.list, now, failAt);
    var d := Scan(s.list, now, failAt);
    var a := s.list.avail;
    if d.answer.Got? {
      PopKeepsInv(s.(clock := now));
    } else if d.answer == Failed {
      assert a[failAt + 1..] == a[failAt + 1..|a|];
      KillKeepsInv(s, After(s.(clock := now), d), failAt + 1, |a|);
    } else {
      assert a[|a|..|a|] == [];
      KillKeepsInv(s, After(s.(clock := now), d), |a|, |a|);
    }
  }

  lemma AcquireKeepsInv(s: State, now: int, failAt: nat, made: Option<int>)
    requires Inv(s) && Enabled(s, Acquire(now, failAt, made))
    ensures Inv(AcquireStep(s, now, failAt, made))
  {
    ScanKeepsInv(s, now, failAt);
    var t := After(s.(clock := now), Scan(s.list, now, failAt));
    if Scan(s.list, now, failAt).answer == Nothing && !MustWait(t.list) {
      TakeKeepsInv(t, made);
    }
  }

  /** The outcome of a call: the newest idle resource if it has not expired; an error if the
      destructor fails for one of those that all have; a wait if no other may be built then;
      and else what the constructor makes, or its error. */
  lemma AcquireOutcome(s: State, now: int, failAt: nat, made: Option<int>)
    requires Inv(s) && Enabled(s, Acquire(now, failAt, made))
    ensures var t := AcquireStep(s, now, failAt, made); var l := s.list; var n := |l.avail|;
      if n != 0 && (l.ttl == 0 || !Expired(l, l.avail[0], now)) then
        && t.held == s.held + multiset{l.avail[0].id} && t.list.avail == l.avail[1..] && t.waiting == s.waiting
      else if failAt < n then
        && t.held == s.held && t.list.avail == l.avail[failAt + 1..] && t.waiting == s.waiting
      else if l.hmax <= l.ntotal - n then
        && t.held == s.held && t.list.avail == [] && t.waiting == s.waiting + 1
      else
        && t.held == s.held + (if made.Some? then multiset{made.value} else multiset{})
        && t.list.avail == [] && t.waiting == s.waiting
  {
    ScanTakesNewestOrAll(s.list, now, failAt);
  }

  /** A woken thread goes back to wait if there is nothing for it, and else gets the newest idle
      resource or what the constructor makes, and waits no more. */
  lemma WakeOutcome(s: State, made: Option<int>)
    requires Inv(s) && Enabled(s, Wake(made))
    ensures var t := WakeStep(s, made); var l := s.list;
      if l.avail == [] && l.hmax <= l.ntotal then t == s
      else
        && t.waiting == s.waiting - 1
        && t.list.avail == (if l.avail == [] then [] else l.avail[1..])
        && t.held == s.held + (if l.avail != [] then multiset{l.avail[0].id}
                               else if made.Some? then multiset{made.value} else multiset{})
  {
  }

  /** What is released last is acquired first, unless it has expired by then. */
  lemma ReleasedIsReused(s: State, id: int, at: int, now: int, failAt: nat, made: Option<int>)
    requires Inv(s) && Enabled(s, Release(id, at)) && Inv(Step(s, Release(id, at)))
    requires Enabled(Step(s, Release(id, at)), Acquire(now, failAt, made))
    requires s.list.ttl == 0 || now - at < s.list.ttl
    ensures var t := Step(Step(s, Release(id, at)), Acquire(now, failAt, made));
      t.held == s.held && t.list == s.list
  {
    var u := Step(s, Release(id, at));
    ScanTakesNewestOrAll(u.list, now, failAt);
    assert Pop(u.list) == s.list;
    assert (s.held - multiset{id}) + multiset{id} == s.held;
  }

  lemma ReleaseKeepsInv(s: State, id: int, now: int)
    requires Inv(s) && Enabled(s, Release(id, now))
    ensures Inv(Step(s, Release(id, now)))
  {
    var t := Step(s, Release(id, now));
    assert t.list.avail[1..] == s.list.avail;
    assert (s.held - multiset{id}) + multiset{id} == s.held;
    assert Live(t) == Live(s);
  }

  lemma InvalidateKeepsInv(s: State, id: int)
    requires Inv(s) && Enabled(s, Invalidate(id))
    ensures Inv(Step(s, Invalidate(id)))
  {
    var t := Step(s, Invalidate(id));
    assert (s.held - multiset{id}) + multiset{id} == s.held;
    assert Live(t) + multiset{id} == Live(s);
    Fewer(Live(t), multiset{id}, Live(s));
  }

  lemma PushNewKeepsInv(s: State, id: int, at: int)
    requires Inv(s) && s.clock <= at && id !in Live(s) && s.list.ntotal < s.list.hmax
    ensures Inv(PushNew(s, id, at)) && Live(PushNew(s, id, at)) == Live(s) + multiset{id}
  {
    var t := PushNew(s, id, at);
    assert t.list.avail[1..] == s.list.avail;
    assert Live(t) == Live(s) + multiset{id};
    OneMore(Live(s), id);
  }

  ghost function FillStep(s: State, makes: seq<Make>): State
    requires Counted(s.list)
  {
    After(s, Fill(s.list, makes)).(clock := FillClock(s.list, makes, s.clock))
  }

  ghost function PushNew(s: State, id: int, at: int): State {
    var p := Push(s.list, id, at);
    s.(list := p.(ntotal := p.ntotal + 1), built := s.built + 1, clock := at)
  }

  lemma FillOnce(s: State, makes: seq<Make>)
    requires Counted(s.list) && s.list.nidle < s.list.min && s.list.ntotal < s.list.hmax
    requires makes != [] && makes[0].made.Some?
    requires !Fill(PushNew(s, makes[0].made.value, makes[0].at).list, makes[1..]).answer.Got?
    ensures FillStep(s, makes) == FillStep(PushNew(s, makes[0].made.value, makes[0].at), makes[1..])
  {
  }

  lemma {:induction false} FillKeepsInv(s: State, makes: seq<Make>)
    requires Inv(s) && NewIds(Live(s), s.clock, makes)
    ensures Inv(FillStep(s, makes))
    decreases |makes|
  {
    if s.list.nidle < s.list.min && s.list.ntotal < s.list.hmax && makes != [] && makes[0].made.Some? {
      var id, at := makes[0].made.value, makes[0].at;
      PushNewKeepsInv(s, id, at);
      var t := PushNew(s, id, at);
      FillKeepsInv(t, makes[1..]);
      FillReaches(t.list, makes[1..]);
      FillOnce(s, makes);
    }
  }

  /** Creating resources brings the idle ones up to min, unless the hard maximum or a
      failure stops it, or makes has no further call of the constructor. */
  lemma {:induction false} FillReaches(l: List, makes: seq<Make>)
    requires Counted(l) && l.ntotal <= l.hmax
    ensures var d := Fill(l, makes);
      && !d.answer.Got? && d.killed == 0 && d.built <= |makes|
      && d.list.nidle == l.nidle + d.built && d.list.ntotal == l.ntotal + d.built
      && (d.answer != Failed && d.built < |makes| ==> l.min <= d.list.nidle || d.list.ntotal == l.hmax)
      && (d.built == 0 ==> d.list == l)
    decreases |makes|
  {
    if l.nidle < l.min && l.ntotal < l.hmax && makes != [] && makes[0].made.Some? {
      var p := Push(l, makes[0].made.value, makes[0].at);
      FillReaches(p.(ntotal := p.ntotal + 1), makes[1..]);
    }
  }

  /** Creation fails exactly where a call of the constructor that is needed does. */
  lemma {:induction false} FillFails(l: List, makes: seq<Make>)
    requires Counted(l)
    ensures var d := Fill(l, makes);
      && d.built <= |makes|
      && (d.answer == Failed <==>
            && d.built < |makes| && makes[d.built].made.None?
            && d.list.nidle < l.min && d.list.ntotal < l.hmax)
    decreases |makes|
  {
    if l.nidle < l.min && l.ntotal < l.hmax && makes != [] && makes[0].made.Some? {
      var p := Push(l, makes[0].made.value, makes[0].at);
      FillFails(p.(ntotal := p.ntotal + 1), makes[1..]);
    }
  }

  /** What the calls have made, the last first. */
  function Stored(makes: seq<Make>): seq<Res>
    requires forall i :: 0 <= i < |makes| ==> makes[i].made.Some?
  {
    if makes == [] then [] else Stored(makes[1..]) + [Res(makes[0].made.value, makes[0].at)]
  }

  /** What is created is what the constructor made, before what was idle. */
  lemma {:induction false} FillMakes(l: List, makes: seq<Make>)
    requires Counted(l)
    ensures var d := Fill(l, makes);
      && d.built <= |makes| && (forall i :: 0 <= i < d.built ==> makes[i].made.Some?)
      && d.list.avail == Stored(makes[..d.built]) + l.avail
    decreases |makes|
  {
    if l.nidle < l.min && l.ntotal < l.hmax && makes != [] && makes[0].made.Some? {
      var p := Push(l, makes[0].made.value, makes[0].at);
      var k := p.(ntotal := p.ntotal + 1);
      FillMakes(k, makes[1..]);
      var n := Fill(k, makes[1..]).built;
      StoredMore(makes[..n + 1], makes[1..][..n], Res(makes[0].made.value, makes[0].at), l.avail);
    }
  }

  lemma StoredMore(a: seq<Make>, b: seq<Make>, r: Res, rest: seq<Res>)
    requires a != [] && a[1..] == b && a[0].made == Some(r.id) && a[0].at == r.freed
    requires forall i :: 0 <= i < |b| ==> b[i].made.Some?
    ensures forall i :: 0 <= i < |a| ==> a[i].made.Some?
    ensures Stored(a) + rest == Stored(b) + ([r] + rest)
  {
    forall i | 0 <= i < |a| ensures a[i].made.Some? {
      if 0 < i {
        assert a[i] == b[i - 1];
      }
    }
  }

  /** Maintenance either creates or destroys.  If nothing fails, it leaves min resources idle
      unless the hard maximum stops it, or makes has no further call of the constructor; and
      if it has not created any, no more than smax are idle or none that is has expired. */
  lemma MaintRestores(l: List, makes: seq<Make>, now: int, failAt: nat)
    requires Counted(l) && Sane(l) && NewestFirst(l.avail) && l.ntotal <= l.hmax
    ensures var d := Maint(l, makes, now, failAt);
      && (d.built == 0 || d.killed == 0) && !d.answer.Got?
      && (d.answer == Nothing && d.built < |makes| ==> l.min <= d.list.nidle || l.hmax <= d.list.ntotal)
      && (d.answer == Nothing && d.built == 0 ==>
            d.list.nidle <= l.smax || forall i :: 0 <= i < |d.list.avail| ==> !Expired(l, d.list.avail[i], now))
  {
    FillReaches(l, makes);
    ExpireTakesLast(l, now, failAt);
    ExpireMissesNone(l, now, failAt);
  }

  lemma ExpireKeepsInv(s: State, now: int, failAt: nat)
    requires Inv(s) && s.clock <= now
    ensures Inv(After(s.(clock := now), Expire(s.list, now, failAt)))
  {
    ExpireTakesLast(s.list, now, failAt);
    var d := Expire(s.list, now, failAt);
    var n := |s.list.avail| - d.killed;
    assert s.list.avail[..n] == s.list.avail[0..n];
    KillKeepsInv(s, After(s.(clock := now), d), 0, n);
  }

  lemma MaintKeepsInv(s: State, makes: seq<Make>, now: int, failAt: nat)
    requires Inv(s) && Enabled(s, Maintain(makes, now, failAt))
    ensures Inv(MaintStep(s, makes, now, failAt))
  {
    FillKeepsInv(s, makes);
    FillReaches(s.list, makes);
    ExpireKeepsInv(s, now, failAt);
  }

  /** The step of a run is the maintenance that MaintRestores is about. */
  lemma MaintStepMaintains(s: State, makes: seq<Make>, now: int, failAt: nat)
    requires Inv(s) && Enabled(s, Maintain(makes, now, failAt))
    ensures var t := MaintStep(s, makes, now, failAt); var d := Maint(s.list, makes, now, failAt);
      && t.list == d.list && t.held == s.held && t.waiting == s.waiting
      && t.built == s.built + d.built && t.killed == s.killed + d.killed
  {
    FillReaches(s.list, makes);
    ExpireTakesLast(s.list, now, failAt);
  }

  lemma WakeKeepsInv(s: State, made: Option<int>)
    requires Inv(s) && Enabled(s, Wake(made))
    ensures Inv(WakeStep(s, made))
  {
    if !MustWait(s.list) {
      TakeKeepsInv(s.(waiting := s.waiting - 1), made);
    }
  }

  lemma StepKeepsInv(s: State, e: Event)
    requires Inv(s) && Enabled(s, e)
    ensures Inv(Step(s, e))
  {
    match e
    case Acquire(now, failAt, made) => AcquireKeepsInv(s, now, failAt, made);
    case Wake(made) => WakeKeepsInv(s, made);
    case TimeOut =>
    case Release(id, now) => ReleaseKeepsInv(s, id, now);
    case Maintain(makes, now, failAt) => MaintKeepsInv(s, makes, now, failAt);
    case Invalidate(id) => InvalidateKeepsInv(s, id);
  }

  ghost predicate Runs(s: State, es: seq<Event>)
    requires Inv(s)
    decreases |es|
  {
    es == [] || (Enabled(s, es[0]) && (StepKeepsInv(s, es[0]); Runs(Step(s, es[0]), es[1..])))
  }

  ghost function Run(s: State, es: seq<Event>): (t: State)
    requires Inv(s) && Runs(s, es)
    ensures Inv(t)
    decreases |es|
  {
    if es == [] then s
    else
      StepKeepsInv(s, es[0]);
      Run(Step(s, es[0]), es[1..])
  }

  function New(min: int, smax: int, hmax: int, ttl: int): List { List(0, 0, min, smax, hmax, ttl, []) }

  function Start(l: List, clock: int): State { State(l, multiset{}, 0, 0, 0, clock) }

  lemma NewIsInv(min: int, smax: int, hmax: int, ttl: int, clock: int)
    requires Sane(New(min, smax, hmax, ttl))
    ensures Inv(Start(New(min, smax, hmax, ttl), clock))
  {
  }

  /** After any run the counters are right and the limit holds: what is built and not
      destroyed is idle or held, and reslist_acquired_count answers the number held. */
  lemma RunCounts(l: List, clock: int, es: seq<Event>)
    requires Sane(l) && l == New(l.min, l.smax, l.hmax, l.ttl)
    requires Inv(Start(l, clock)) && Runs(Start(l, clock), es)
    ensures var s := Run(Start(l, clock), es);
      && s.list.nidle == |s.list.avail|
      && s.built - s.killed == s.list.ntotal == s.list.nidle + |s.held|
      && 0 <= s.list.nidle <= s.list.ntotal <= l.hmax
      && s.list.ntotal - s.list.nidle == |s.held|
  {
    RunKeepsLimits(Start(l, clock), es);
  }

  lemma {:induction false} RunKeepsLimits(s: State, es: seq<Event>)
    requires Inv(s) && Runs(s, es)
    ensures var l := Run(s, es).list;
      l.hmax == s.list.hmax && l.min == s.list.min && l.smax == s.list.smax && l.ttl == s.list.ttl
    decreases |es|
  {
    if es != [] {
      StepKeepsInv(s, es[0]);
      StepKeepsLimits(s, es[0]);
      RunKeepsLimits(Step(s, es[0]), es[1..]);
    }
  }

  lemma StepKeepsLimits(s: State, e: Event)
    requires Inv(s) && Enabled(s, e)
    ensures var l := Step(s, e).list;
      l.hmax == s.list.hmax && l.min == s.list.min && l.smax == s.list.smax && l.ttl == s.list.ttl
  {
    match e
    case Acquire(now, failAt, made) => ScanTakesNewestOrAll(s.list, now, failAt);
    case Maintain(makes, now, failAt) =>
      FillKeepsLimits(s.list, makes);
      ExpireTakesLast(s.list, now, failAt);
    case _ =>
  }

  lemma {:induction false} FillKeepsLimits(l: List, makes: seq<Make>)
    requires Counted(l)
    ensures var k := Fill(l, makes).list; k.hmax == l.hmax && k.min == l.min && k.smax == l.smax && k.ttl == l.ttl
    decreases |makes|
  {
    if l.nidle < l.min && l.ntotal < l.hmax && makes != [] && makes[0].made.Some? {
      var p := Push(l, makes[0].made.value, makes[0].at);
      FillKeepsLimits(p.(ntotal := p.ntotal + 1), makes[1..]);
    }
  }

  /** The cleanup destroys all that is idle; its assertions hold exactly when no resource
      is held. */
  lemma CleanupEmpties(s: State)
    requires Inv(s)
    ensures var d := Cleanup(s.list);
      && d.list.nidle == 0 && d.killed == |s.list.avail|
      && (d.list.ntotal == 0 <==> s.held == multiset{})
  {
    CleanupCounts(s.list);
  }

  lemma {:induction false} CleanupCounts(l: List)
    requires Counted(l)
    ensures var d := Cleanup(l);
      d.list.nidle == 0 && d.killed == |l.avail| && d.list.ntotal == l.ntotal - |l.avail|
    decreases |l.avail|
  {
    if 0 < l.nidle {
      var p := Pop(l);
      CleanupCounts(p.(ntotal := p.ntotal - 1));
    }
  }

  // -------------------------------------------------------------------------- wakeups

  /** How many acquires could be served: idle resources, and resources that may be built. */
  function Room(l: List): int { l.nidle + l.hmax - l.ntotal }

  /** woken of the threads that wait have been signalled, or woken for nothing, and have not
      gone on yet; the others are blocked. */
  datatype Pool = Pool(state: State, woken: nat)

  datatype Move = Call(e: Event) | Spurious

  function Blocked(p: Pool): int { p.state.waiting - p.woken }

  ghost predicate PoolOk(p: Pool) { Inv(p.state) && p.woken <= p.state.waiting }

  /** Only a woken thread goes on, and only a blocked one runs out of time. */
  ghost predicate CanMove(p: Pool, m: Move) {
    match m
    case Spurious => 0 < Blocked(p)
    case Call(e) =>
      && Enabled(p.state, e)
      && (e.Wake? ==> 0 < p.woken)
      && (e.TimeOut? ==> 0 < Blocked(p))
  }

  /** n signals to the threads that wait. */
  function Signalled(waiting: nat, woken: nat, n: nat): nat {
    if woken + n <= waiting then woken + n else waiting
  }

  /** How many signals a call gives (lines 224, 399 and 429). */
  ghost function Signals(s: State, e: Event): nat
    requires Inv(s)
  {
    match e
    case Release(_, _) => 1
    case Invalidate(_) => 1
    case Maintain(makes, _, _) => Fill(s.list, makes).built
    case _ => 0
  }

  ghost function Moved(p: Pool, m: Move): Pool
    requires PoolOk(p) && CanMove(p, m)
  {
    match m
    case Spurious => p.(woken := p.woken + 1)
    case Call(e) =>
      var t := Step(p.state, e);
      if e.Wake? then Pool(t, p.woken - 1)
      else Pool(t, Signalled(t.waiting, p.woken, Signals(p.state, e)))
  }

  /** A wakeup for nothing and a time-out end the wait of one thread and change nothing else;
      only the thread that is woken goes on waiting for the lock. */
  lemma WaitEnds(p: Pool, m: Move)
    requires PoolOk(p) && CanMove(p, m) && (m == Spurious || m == Call(TimeOut))
    ensures var q := Moved(p, m);
      && Blocked(q) == Blocked(p) - 1 && q.woken == p.woken + (if m == Spurious then 1 else 0)
      && q.state == p.state.(waiting := q.state.waiting)
  {
  }

  /** While a thread is blocked, all but lost of the room is for threads that are awake. */
  ghost predicate Awake(p: Pool, lost: nat) {
    0 < Blocked(p) ==> Room(p.state.list) <= p.woken + lost
  }

  /** A woken thread finds room, its constructor fails, and it leaves without a signal
      (lines 379 to 386). */
  predicate Fails(p: Pool, m: Move) {
    m == Call(Wake(None)) && !MustWait(p.state.list) && p.state.list.nidle <= 0
  }

  lemma ScanRoom(l: List, now: int, failAt: nat)
    requires NewestFirst(l.avail) && Counted(l)
    ensures var d := Scan(l, now, failAt);
      d.list.hmax == l.hmax && Room(d.list) == if d.answer.Got? then Room(l) - 1 else Room(l)
  {
    ScanTakesNewestOrAll(l, now, failAt);
  }

  lemma TakeRoom(l: List, made: Option<int>)
    requires Counted(l)
    ensures var d := Take(l, made);
      && Room(d.list) == (if d.answer == Failed then Room(l) else Room(l) - 1)
      && (d.answer == Failed <==> l.nidle <= 0 && made.None?)
  {
  }

  lemma AcquireAwake(p: Pool, now: int, failAt: nat, made: Option<int>, lost: nat)
    requires PoolOk(p) && CanMove(p, Call(Acquire(now, failAt, made))) && Awake(p, lost)
    ensures var q := Moved(p, Call(Acquire(now, failAt, made)));
      p.state.waiting <= q.state.waiting && Awake(q, lost)
  {
    var s := p.state;
    ScanRoom(s.list, now, failAt);
    ScanKeepsInv(s, now, failAt);
    var d := Scan(s.list, now, failAt);
    if d.answer == Nothing && !MustWait(d.list) {
      TakeRoom(d.list, made);
    }
  }

  lemma WakeAwake(p: Pool, made: Option<int>, lost: nat)
    requires PoolOk(p) && CanMove(p, Call(Wake(made))) && Awake(p, lost)
    ensures var q := Moved(p, Call(Wake(made)));
      && p.woken - 1 <= q.state.waiting
      && Awake(q, if Fails(p, Call(Wake(made))) then lost + 1 else lost)
  {
    TakeRoom(p.state.list, made);
  }

  lemma MaintainAwake(p: Pool, makes: seq<Make>, now: int, failAt: nat, lost: nat)
    requires PoolOk(p) && CanMove(p, Call(Maintain(makes, now, failAt))) && Awake(p, lost)
    ensures var q := Moved(p, Call(Maintain(makes, now, failAt)));
      p.state.waiting == q.state.waiting && Awake(q, lost)
  {
    var l := p.state.list;
    FillReaches(l, makes);
    FillKeepsLimits(l, makes);
    ExpireTakesLast(l, now, failAt);
  }

  /** Every step keeps the threads that are awake enough for the room there is, but one: a
      woken thread that leaves because its constructor failed. */
  lemma MoveAwake(p: Pool, m: Move, lost: nat)
    requires PoolOk(p) && CanMove(p, m) && Awake(p, lost)
    ensures PoolOk(Moved(p, m)) && Awake(Moved(p, m), if Fails(p, m) then lost + 1 else lost)
  {
    if m.Call? {
      StepKeepsInv(p.state, m.e);
      match m.e
      case Acquire(now, failAt, made) => AcquireAwake(p, now, failAt, made, lost);
      case Wake(made) => WakeAwake(p, made, lost);
      case Maintain(makes, now, failAt) => MaintainAwake(p, makes, now, failAt, lost);
      case _ =>
    }
  }

  /** Exactly such a step can leave a thread blocked with room for it and nobody on the way:
      one after which some are blocked, and that finds room for all that are awake. */
  lemma LosesWakeupExactly(p: Pool, m: Move)
    requires PoolOk(p) && CanMove(p, m) && Awake(p, 0)
    ensures !Awake(Moved(p, m), 0) <==>
      Fails(p, m) && 0 < Blocked(p) && Room(p.state.list) == p.woken
  {
    MoveAwake(p, m, 0);
  }

  ghost predicate Plays(p: Pool, ms: seq<Move>)
    requires PoolOk(p)
    decreases |ms|
  {
    ms == [] || (CanMove(p, ms[0]) && (MoveOk(p, ms[0]); Plays(Moved(p, ms[0]), ms[1..])))
  }

  lemma MoveOk(p: Pool, m: Move)
    requires PoolOk(p) && CanMove(p, m)
    ensures PoolOk(Moved(p, m))
  {
    MoveAwake(p, m, if Room(p.state.list) <= 0 then 0 else Room(p.state.list));
  }

  ghost function Played(p: Pool, ms: seq<Move>): (q: Pool)
    requires PoolOk(p) && Plays(p, ms)
    ensures PoolOk(q)
    decreases |ms|
  {
    if ms == [] then p
    else
      MoveOk(p, ms[0]);
      Played(Moved(p, ms[0]), ms[1..])
  }

  /** The steps of a run in which a constructor fails for a woken thread. */
  ghost function Failures(p: Pool, ms: seq<Move>): nat
    requires PoolOk(p) && Plays(p, ms)
    decreases |ms|
  {
    if ms == [] then 0
    else
      MoveOk(p, ms[0]);
      Failures(Moved(p, ms[0]), ms[1..]) + if Fails(p, ms[0]) then 1 else 0
  }

  lemma {:induction false} PlayedAwake(p: Pool, ms: seq<Move>, lost: nat)
    requires PoolOk(p) && Plays(p, ms) && Awake(p, lost)
    ensures Awake(Played(p, ms), lost + Failures(p, ms))
    decreases |ms|
  {
    if ms != [] {
      MoveOk(p, ms[0]);
      MoveAwake(p, ms[0], lost);
      PlayedAwake(Moved(p, ms[0]), ms[1..], if Fails(p, ms[0]) then lost + 1 else lost);
    }
  }

  /** In every interleaving, with spurious wakeups and time-outs, while a thread is blocked
      each idle resource and each free slot is for a thread that is awake, up to one for each
      constructor that has failed for a woken thread. */
  lemma NoLostWakeup(l: List, clock: int, ms: seq<Move>)
    requires Sane(l) && l == New(l.min, l.smax, l.hmax, l.ttl)
    requires PoolOk(Pool(Start(l, clock), 0)) && Plays(Pool(Start(l, clock), 0), ms)
    ensures var q := Played(Pool(Start(l, clock), 0), ms);
      0 < Blocked(q) ==> Room(q.state.list) <= q.woken + Failures(Pool(Start(l, clock), 0), ms)
  {
    PlayedAwake(Pool(Start(l, clock), 0), ms, 0);
  }

  lemma FailureStrands(p: Pool, id: int)
    requires PoolOk(p) && p.state.list.hmax == p.state.list.ntotal == 1 && p.state.held == multiset{id}
    requires p.woken == 0 && p.state.waiting == 2
    ensures CanMove(p, Call(Invalidate(id)))
    ensures var q := Moved(p, Call(Invalidate(id)));
      && PoolOk(q) && CanMove(q, Call(Wake(None)))
      && var r := Moved(q, Call(Wake(None)));
      Blocked(r) == 1 && r.woken == 0 && Room(r.state.list) == 1
  {
    MoveOk(p, Call(Invalidate(id)));
  }

  /** One thread holds the only resource that may be built, and two threads wait. */
  lemma TwoWait(clock: int, id: int) returns (ms: seq<Move>, q: Pool)
    ensures PoolOk(Pool(Start(New(0, 0, 1, 0), clock), 0)) && Plays(Pool(Start(New(0, 0, 1, 0), clock), 0), ms)
    ensures q == Played(Pool(Start(New(0, 0, 1, 0), clock), 0), ms)
    ensures q == Pool(State(List(1, 0, 0, 0, 1, 0, []), multiset{id}, 2, 1, 0, clock), 0)
  {
    var p := Pool(Start(New(0, 0, 1, 0), clock), 0);
    NewIsInv(0, 0, 1, 0, clock);
    var a, b := Call(Acquire(clock, 0, Some(id))), Call(Acquire(clock, 0, None));
    var p1 := Pool(State(List(1, 0, 0, 0, 1, 0, []), multiset{id}, 0, 1, 0, clock), 0);
    MoveOk(p, a);
    assert multiset{} + multiset{id} == multiset{id};
    assert Moved(p, a) == p1;
    MoveOk(p1, b);
    var p2 := p1.(state := p1.state.(waiting := 1));
    assert Moved(p1, b) == p2;
    MoveOk(p2, b);
    q := p1.(state := p1.state.(waiting := 2));
    assert Moved(p2, b) == q;
    ms := [a, b, b];
    assert ms[1..] == [b, b] && ms[1..][1..] == [b] && ms[1..][1..][1..] == [];
    assert Plays(p2, [b]) && Played(p2, [b]) == q;
    assert Plays(p1, [b, b]) && Played(p1, [b, b]) == q;
  }

  /** The failures do matter: a run after which one is signalled as the resource is
      invalidated, its constructor fails, and the other stays blocked although a resource
      could be built for it. */
  lemma FailureStrandsWaiter(clock: int, id: int) returns (ms: seq<Move>, q: Pool)
    ensures PoolOk(Pool(Start(New(0, 0, 1, 0), clock), 0)) && Plays(Pool(Start(New(0, 0, 1, 0), clock), 0), ms)
    ensures q == Played(Pool(Start(New(0, 0, 1, 0), clock), 0), ms)
    ensures CanMove(q, Call(Invalidate(id)))
    ensures var u := Moved(q, Call(Invalidate(id)));
      && PoolOk(u) && CanMove(u, Call(Wake(None)))
      && var r := Moved(u, Call(Wake(None)));
      Blocked(r) == 1 && r.woken == 0 && Room(r.state.list) == 1
  {
    ms, q := TwoWait(clock, id);
    FailureStrands(q, id);
  }

  // ------------------------------------------------------------------ the code in place

  /** reslist_t, without the lock and the condition variable. */
  class ResourceList {
    const min: int
    const smax: int
    const hmax: int
    const ttl: int
    var ntotal: int
    var nidle: int
    var avail: seq<Res>

    function Abs(): List
      reads this
    {
      List(ntotal, nidle, min, smax, hmax, ttl, avail)
    }

    /** common/misc/reslist.c:264-293. */
    constructor (min: int, smax: int, hmax: int, ttl: int)
      requires Sane(New(min, smax, hmax, ttl))
      ensures Abs() == New(min, smax, hmax, ttl)
    {
      this.min, this.smax, this.hmax, this.ttl := min, smax, hmax, ttl;
      ntotal, nidle, avail := 0, 0, [];
    }

    method PopResource() returns (r: Res)
      requires avail != []
      modifies this
      ensures Abs() == Pop(old(Abs())) && r == old(avail)[0]
    {
      r := avail[0];
      avail := avail[1..];
      nidle := nidle - 1;
    }

    method PushResource(id: int, now: int)
      modifies this
      ensures Abs() == Push(old(Abs()), id, now)
    {
      avail := [Res(id, now)] + avail;
      nidle := nidle + 1;
    }

    /** common/misc/reslist.c:332-351. */
    method AcquireIdle(now: int, failAt: nat) returns (answer: Answer, killed: nat)
      requires Counted(Abs())
      modifies this
      ensures var d := Scan(old(Abs()), now, failAt);
        Abs() == d.list && answer == d.answer && killed == d.killed
    {
      killed := 0;
      while 0 < nidle
        invariant Counted(Abs()) && killed <= failAt
        invariant Scan(old(Abs()), now, failAt)
          == var d := Scan(Abs(), now, failAt - killed); d.(killed := d.killed + killed)
        decreases nidle
      {
        var r := PopResource();
        if ttl != 0 && Expired(Abs(), r, now) {
          ntotal := ntotal - 1;
          killed := killed + 1;
          if killed - 1 == failAt {
            return Failed, killed;
          }
        } else {
          return Got(r.id), killed;
        }
      }
      answer := Nothing;
    }

    /** common/misc/reslist.c:366-388. */
    method AcquireAfterWait(made: Option<int>) returns (answer: Answer)
      requires Counted(Abs()) && !MustWait(Abs())
      modifies this
      ensures var d := Take(old(Abs()), made); Abs() == d.list && answer == d.answer
    {
      if 0 < nidle {
        var r := PopResource();
        return Got(r.id);
      }
      match made
      case None => answer := Failed;
      case Some(id) =>
        ntotal := ntotal + 1;
        answer := Got(id);
    }

    /** common/misc/reslist.c:211-230. */
    method CreateMissing(makes: seq<Make>) returns (answer: Answer, built: nat)
      requires Counted(Abs())
      modifies this
      ensures var d := Fill(old(Abs()), makes);
        Abs() == d.list && answer == d.answer && built == d.built
    {
      built := 0;
      assert makes[0..] == makes;
      while nidle < min && ntotal < hmax && built < |makes|
        invariant Counted(Abs()) && built <= |makes|
        invariant Fill(old(Abs()), makes)
          == var d := Fill(Abs(), makes[built..]); d.(built := d.built + built)
        decreases |makes| - built
      {
        var make := makes[built];
        assert makes[built..][0] == make && makes[built..][1..] == makes[built + 1..];
        if make.made.None? {
          return Failed, built;
        }
        PushResource(make.made.value, make.at);
        ntotal := ntotal + 1;
        built := built + 1;
      }
      answer := Nothing;
    }

    /** common/misc/reslist.c:239-258. */
    method ExpireOld(now: int, failAt: nat) returns (answer: Answer, killed: nat)
      requires Counted(Abs())
      modifies this
      ensures var d := Expire(old(Abs()), now, failAt);
        Abs() == d.list && answer == d.answer && killed == d.killed
    {
      killed := 0;
      while smax < nidle && 0 < nidle
        invariant Counted(Abs()) && killed <= failAt
        invariant Expire(old(Abs()), now, failAt)
          == var d := Expire(Abs(), now, failAt - killed); d.(killed := d.killed + killed)
        decreases nidle
      {
        var n := |avail| - 1;
        if now - avail[n].freed < ttl {
          break;
        }
        avail := avail[..n];
        nidle := nidle - 1;
        ntotal := ntotal - 1;
        killed := killed + 1;
        if killed - 1 == failAt {
          return Failed, killed;
        }
      }
      answer := Nothing;
    }

    /** common/misc/reslist.c:201-262. */
    method Maintenance(makes: seq<Make>, now: int, failAt: nat) returns (answer: Answer)
      requires Counted(Abs())
      modifies this
      ensures var d := Maint(old(Abs()), makes, now, failAt); Abs() == d.list && answer == d.answer
    {
      var built, killed;
      answer, built := CreateMissing(makes);
      if answer == Failed || 0 < built {
        return;
      }
      FillNone(old(Abs()), makes);
      answer, killed := ExpireOld(now, failAt);
    }

    /** common/misc/reslist.c:422-432, without the call of the destructor. */
    method Invalidated()
      modifies this
      ensures Abs() == old(Abs()).(ntotal := old(ntotal) - 1)
    {
      ntotal := ntotal - 1;
    }

    /** common/misc/reslist.c:172-182. */
    method CleanUp() returns (killed: nat)
      requires Counted(Abs())
      modifies this
      ensures var d := Cleanup(old(Abs())); Abs() == d.list && killed == d.killed
    {
      killed := 0;
      while 0 < nidle
        invariant Counted(Abs())
        invariant Cleanup(old(Abs())) == var d := Cleanup(Abs()); d.(killed := d.killed + killed)
        decreases nidle
      {
        var r := PopResource();
        ntotal := ntotal - 1;
        killed := killed + 1;
      }
    }
  }

  lemma FillNone(l: List, makes: seq<Make>)
    requires Counted(l)
    ensures Fill(l, makes).built == 0 ==> Fill(l, makes).list == l
  {
  }
}
