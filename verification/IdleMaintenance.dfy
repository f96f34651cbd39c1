/** The idle maintenance pass of the parent process (src/zevent.c:1145-1183, 1204-1373).

    The scoreboard is a sequence of slots. Between two passes anything may happen to it. */
module IdleMaintenance {

  const MAX_SPAWN_RATE: nat := 32

  /** include/scoreboard.h:45-54. */
  const SERVER_DEAD: int := 0
  const SERVER_READY: int := 2
  const SERVER_GRACEFUL: int := 9

  datatype Slot = Slot(pid: int, quiescing: bool, generation: int, threads: seq<int>)

  // --------------------------------------------------------------------- what a slot is

  predicate AnyDead(s: Slot) { exists j :: 0 <= j < |s.threads| && s.threads[j] == SERVER_DEAD }

  predicate AnyDying(s: Slot) { exists j :: 0 <= j < |s.threads| && s.threads[j] == SERVER_GRACEFUL }

  predicate AllDead(s: Slot) {
    forall j :: 0 <= j < |s.threads| ==> s.threads[j] == SERVER_DEAD || s.threads[j] == SERVER_GRACEFUL
  }

  /** A child may be put there: a thread is dead, and there is no process or one that goes. */
  predicate Open(s: Slot) { AnyDead(s) && (s.pid == 0 || s.quiescing) }

  predicate IsIdle(s: Slot, status: int, generation: int) {
    s.pid != 0 && status <= SERVER_READY && !s.quiescing && s.generation == generation
  }

  predicate IsActive(s: Slot, status: int) {
    s.pid != 0 && SERVER_READY <= status < SERVER_GRACEFUL
  }

  function IdleIn(s: Slot, n: nat, generation: int): nat
    requires n <= |s.threads|
  {
    if n == 0 then 0 else IdleIn(s, n - 1, generation) + if IsIdle(s, s.threads[n - 1], generation) then 1 else 0
  }

  function ActiveIn(s: Slot, n: nat): nat
    requires n <= |s.threads|
  {
    if n == 0 then 0 else ActiveIn(s, n - 1) + if IsActive(s, s.threads[n - 1]) then 1 else 0
  }

  /** The idle threads of the first n slots. */
  function Idle(slots: seq<Slot>, n: nat, generation: int): nat
    requires n <= |slots|
  {
    if n == 0 then 0 else Idle(slots, n - 1, generation) + IdleIn(slots[n - 1], |slots[n - 1].threads|, generation)
  }

  function Active(slots: seq<Slot>, n: nat): nat
    requires n <= |slots|
  {
    if n == 0 then 0 else Active(slots, n - 1) + ActiveIn(slots[n - 1], |slots[n - 1].threads|)
  }

  /** src/zevent.c:1248-1275. */
  method Look(s: Slot, generation: int)
    returns (dying: bool, dead: bool, allDead: bool, idle: nat, active: nat)
    ensures dying == AnyDying(s) && dead == AnyDead(s) && allDead == AllDead(s)
    ensures idle == IdleIn(s, |s.threads|, generation) && active == ActiveIn(s, |s.threads|)
  {
    dying, dead, allDead, idle, active := false, false, true, 0, 0;
    var j := 0;
    while j < |s.threads|
      invariant j <= |s.threads|
      invariant dying <==> exists k :: 0 <= k < j && s.threads[k] == SERVER_GRACEFUL
      invariant dead <==> exists k :: 0 <= k < j && s.threads[k] == SERVER_DEAD
      invariant allDead <==> forall k :: 0 <= k < j ==> s.threads[k] == SERVER_DEAD || s.threads[k] == SERVER_GRACEFUL
      invariant idle == IdleIn(s, j, generation) && active == ActiveIn(s, j)
    {
      var status := s.threads[j];
      dying := dying || status == SERVER_GRACEFUL;
      dead := dead || status == SERVER_DEAD;
      allDead := allDead && (status == SERVER_DEAD || status == SERVER_GRACEFUL);
      if s.pid != 0 {
        if status <= SERVER_READY && !s.quiescing && s.generation == generation {
          idle := idle + 1;
        }
        if SERVER_READY <= status && status < SERVER_GRACEFUL {
          active := active + 1;
        }
      }
      j := j + 1;
    }
  }

  // -------------------------------------------------------------------- the free slots

  /** The first totally slots of the list have only dead threads, the others do not; all
      are open. */
  ghost predicate Sorted(slots: seq<Slot>, n: nat, free: seq<nat>, totally: nat)
    requires n <= |slots|
  {
    && totally <= |free|
    && (forall k :: 0 <= k < |free| ==> free[k] < n && Open(slots[free[k]]))
    && (forall k :: 0 <= k < |free| ==> (AllDead(slots[free[k]]) <==> k < totally))
  }

  ghost predicate Differ(free: seq<nat>) {
    forall k, l :: 0 <= k < l < |free| ==> free[k] != free[l]
  }

  ghost predicate Increasing(free: seq<nat>, totally: nat)
    requires totally <= |free|
  {
    forall k, l :: 0 <= k < l < totally ==> free[k] < free[l]
  }

  /** No open slot is missed unless the list, or the part of it that can be used, is full. */
  ghost predicate Complete(slots: seq<Slot>, n: nat, free: seq<nat>, totally: nat, rate: nat)
    requires n <= |slots|
  {
    forall i :: 0 <= i < n && Open(slots[i]) ==> i in free || totally == rate || |free| == MAX_SPAWN_RATE
  }

  /** The slots recorded in the scan of the first n. */
  ghost predicate Recorded(slots: seq<Slot>, n: nat, free: seq<nat>, totally: nat, rate: nat)
    requires n <= |slots|
  {
    && totally <= |free| <= MAX_SPAWN_RATE && totally <= rate
    && Sorted(slots, n, free, totally) && Differ(free) && Increasing(free, totally)
    && Complete(slots, n, free, totally, rate)
  }

  /** The array after line 1290 or 1295. */
  function Insert(free: seq<nat>, totally: nat, i: nat, allDead: bool): seq<nat>
    requires totally <= |free|
  {
    if allDead && totally < |free| then free[totally := i] + [free[totally]] else free + [i]
  }

  predicate Wanted(slots: seq<Slot>, i: nat, totally: nat, len: nat, rate: nat)
    requires i < |slots|
  {
    totally < rate && len < MAX_SPAWN_RATE && Open(slots[i])
  }

  lemma InsertHas(free: seq<nat>, totally: nat, i: nat, allDead: bool)
    requires totally <= |free|
    ensures forall x :: x in Insert(free, totally, i, allDead) <==> x == i || x in free
  {
    var g := Insert(free, totally, i, allDead);
    assert g[|free|] in g;
    forall x | x in free
      ensures x in g
    {
      var k :| 0 <= k < |free| && free[k] == x;
      assert k != totally ==> g[k] == x;
    }
    assert g[if allDead && totally < |free| then totally else |free|] == i;
  }

  lemma InsertSorts(slots: seq<Slot>, i: nat, free: seq<nat>, totally: nat)
    requires i < |slots| && Sorted(slots, i, free, totally) && Open(slots[i])
    ensures var all := AllDead(slots[i]);
      Sorted(slots, i + 1, Insert(free, totally, i, all), if all then totally + 1 else totally)
  {
  }

  lemma InsertDiffers(free: seq<nat>, totally: nat, i: nat, allDead: bool)
    requires totally <= |free| && Differ(free) && forall k :: 0 <= k < |free| ==> free[k] < i
    ensures Differ(Insert(free, totally, i, allDead))
  {
  }

  lemma InsertIncreases(free: seq<nat>, totally: nat, i: nat, allDead: bool)
    requires totally <= |free| && Increasing(free, totally) && forall k :: 0 <= k < |free| ==> free[k] < i
    ensures Increasing(Insert(free, totally, i, allDead), if allDead then totally + 1 else totally)
  {
  }

  lemma InsertCompletes(slots: seq<Slot>, i: nat, free: seq<nat>, totally: nat, rate: nat, allDead: bool)
    requires i < |slots| && totally <= |free| < MAX_SPAWN_RATE && totally < rate
    requires Complete(slots, i, free, totally, rate)
    ensures Complete(slots, i + 1, Insert(free, totally, i, allDead), if allDead then totally + 1 else totally, rate)
  {
    InsertHas(free, totally, i, allDead);
  }

  lemma InsertRecords(slots: seq<Slot>, i: nat, free: seq<nat>, totally: nat, rate: nat)
    requires i < |slots| && Recorded(slots, i, free, totally, rate) && Wanted(slots, i, totally, |free|, rate)
    ensures var all := AllDead(slots[i]);
      Recorded(slots, i + 1, Insert(free, totally, i, all), if all then totally + 1 else totally, rate)
  {
    var all := AllDead(slots[i]);
    InsertSorts(slots, i, free, totally);
    InsertDiffers(free, totally, i, all);
    InsertIncreases(free, totally, i, all);
    InsertCompletes(slots, i, free, totally, rate, all);
  }

  datatype Recording = Recording(free: seq<nat>, totally: nat)

  /** The list after slot i has been looked at. */
  function Next(slots: seq<Slot>, i: nat, c: Recording, rate: nat): Recording
    requires i < |slots| && c.totally <= |c.free|
  {
    if !Wanted(slots, i, c.totally, |c.free|, rate) then c
    else
      var all := AllDead(slots[i]);
      Recording(Insert(c.free, c.totally, i, all), if all then c.totally + 1 else c.totally)
  }

  lemma NextRecords(slots: seq<Slot>, i: nat, c: Recording, rate: nat)
    requires i < |slots| && Recorded(slots, i, c.free, c.totally, rate)
    ensures var d := Next(slots, i, c, rate); Recorded(slots, i + 1, d.free, d.totally, rate)
  {
    if Wanted(slots, i, c.totally, |c.free|, rate) {
      InsertRecords(slots, i, c.free, c.totally, rate);
    }
  }

  /** Lines 1289 to 1297. */
  method Place(free: array<nat>, totally: nat, len: nat, i: nat, allDead: bool)
    requires totally <= len < free.Length
    modifies free
    ensures free[..len + 1] == Insert(old(free[..len]), totally, i, allDead)
  {
    if allDead {
      free[len] := free[totally];
      free[totally] := i;
    } else {
      free[len] := i;
    }
  }

  /** src/zevent.c:1276-1298: one slot is recorded in the array. */
  method Record(slots: seq<Slot>, i: nat, free: array<nat>, totally: nat, len: nat, rate: nat,
                dead: bool, allDead: bool)
    returns (totally': nat, len': nat)
    requires i < |slots| && free.Length == MAX_SPAWN_RATE && len <= MAX_SPAWN_RATE
    requires totally <= len
    requires dead == AnyDead(slots[i]) && allDead == AllDead(slots[i])
    modifies free
    ensures len <= len' <= MAX_SPAWN_RATE
    ensures Recording(free[..len'], totally') == Next(slots, i, Recording(old(free[..len]), totally), rate)
  {
    totally', len' := totally, len;
    if dead && totally < rate && len < MAX_SPAWN_RATE && (slots[i].pid == 0 || slots[i].quiescing) {
      Place(free, totally, len, i, allDead);
      if allDead {
        totally' := totally + 1;
      }
      len' := len + 1;
    }
  }

  // -------------------------------------------------------------------------- the scan

  datatype Scan = Scan(scanned: nat, totally: nat, len: nat, idle: nat, active: nat, lastNonDead: int)

  /** What the loop of lines 1236 to 1304 finds out. */
  ghost predicate Scanned(slots: seq<Slot>, generation: int, rate: nat, free: seq<nat>, r: Scan) {
    && r.scanned <= |slots| && r.len == |free|
    && Recorded(slots, r.scanned, free, r.totally, rate)
    && r.idle == Idle(slots, r.scanned, generation)
    && r.active == Active(slots, r.scanned)
    && -1 <= r.lastNonDead < r.scanned
    && (0 <= r.lastNonDead ==> !AnyDying(slots[r.lastNonDead]))
    && (forall i :: r.lastNonDead < i < r.scanned ==> AnyDying(slots[i]))
  }

  /** The findings with one slot more. */
  function NextScan(slots: seq<Slot>, generation: int, r: Scan, d: Recording): Scan
    requires r.scanned < |slots|
  {
    var s := slots[r.scanned];
    Scan(r.scanned + 1, d.totally, |d.free|, r.idle + IdleIn(s, |s.threads|, generation),
         r.active + ActiveIn(s, |s.threads|), if AnyDying(s) then r.lastNonDead else r.scanned)
  }

  lemma NextScanned(slots: seq<Slot>, generation: int, rate: nat, free: seq<nat>, r: Scan)
    requires Scanned(slots, generation, rate, free, r) && r.scanned < |slots|
    ensures var d := Next(slots, r.scanned, Recording(free, r.totally), rate);
      Scanned(slots, generation, rate, d.free, NextScan(slots, generation, r, d))
  {
    NextRecords(slots, r.scanned, Recording(free, r.totally), rate);
  }

  /** One turn of the loop. */
  method ScanOne(slots: seq<Slot>, generation: int, rate: nat, free: array<nat>, r: Scan) returns (r': Scan)
    requires free.Length == MAX_SPAWN_RATE && r.len <= MAX_SPAWN_RATE && r.scanned < |slots|
    requires Scanned(slots, generation, rate, free[..r.len], r)
    modifies free
    ensures r'.len <= MAX_SPAWN_RATE && r'.scanned == r.scanned + 1
    ensures Scanned(slots, generation, rate, free[..r'.len], r')
  {
    var i := r.scanned;
    var dying, dead, allDead, idle, active := Look(slots[i], generation);
    NextScanned(slots, generation, rate, free[..r.len], r);
    var totally, len := Record(slots, i, free, r.totally, r.len, rate, dead, allDead);
    r' := Scan(i + 1, totally, len, r.idle + idle, r.active + active, if dying then r.lastNonDead else i);
    assert r' == NextScan(slots, generation, r, Recording(free[..len], totally));
  }

  /** src/zevent.c:1229-1304. The scan ends early only past maxLimit with enough free. */
  method ScanSlots(slots: seq<Slot>, generation: int, maxLimit: nat, rate: nat) returns (free: array<nat>, r: Scan)
    ensures free.Length == MAX_SPAWN_RATE && r.len <= MAX_SPAWN_RATE
    ensures Scanned(slots, generation, rate, free[..r.len], r)
    ensures r.scanned == |slots| || (maxLimit <= r.scanned && r.totally == rate)
  {
    free := new nat[MAX_SPAWN_RATE];
    r := Scan(0, 0, 0, 0, 0, -1);
    while r.scanned < |slots| && !(maxLimit <= r.scanned && r.totally == rate)
      invariant r.len <= MAX_SPAWN_RATE && r.scanned <= |slots|
      invariant Scanned(slots, generation, rate, free[..r.len], r)
      decreases |slots| - r.scanned
    {
      r := ScanOne(slots, generation, rate, free, r);
    }
  }

  // ------------------------------------------------------------------------- the pass

  predicate SpawnRate(rate: nat) { rate in {1, 2, 4, 8, 16, 32} }

  /** The slots that children are made for. */
  function Chosen(free: seq<nat>, rate: nat): seq<nat> {
    if rate < |free| then free[..rate] else free
  }

  /** At most rate children are made, each for an open slot of its own. No slot with a
      thread still in use gets one before every recorded slot of only dead threads has; and
      an open slot that gets none was passed over for want of room in the list, or because
      rate slots of only dead threads were there. */
  lemma DeadSlotsFirst(slots: seq<Slot>, n: nat, free: seq<nat>, totally: nat, rate: nat)
    requires n <= |slots| && Recorded(slots, n, free, totally, rate)
    ensures var made := Chosen(free, rate);
      && |made| <= rate && Differ(made)
      && (forall k :: 0 <= k < |made| ==> made[k] < n && Open(slots[made[k]]))
      && (forall k :: 0 <= k < |made| ==> (AllDead(slots[made[k]]) <==> k < totally))
      && (forall i :: i in free && i < |slots| && AllDead(slots[i]) ==> i in made)
      && (forall i :: 0 <= i < n && Open(slots[i]) && i !in made ==>
            |made| == rate || |free| == MAX_SPAWN_RATE)
  {
    var made := Chosen(free, rate);
    forall i | i in free && i < |slots| && AllDead(slots[i])
      ensures i in made
    {
      var k :| 0 <= k < |free| && free[k] == i;
      assert made[k] == i;
    }
  }

  /** src/zevent.c:1145-1183 for a slot; forked is what fork returns to the parent. */
  function Forked(s: Slot, forked: int): Slot {
    if forked == -1 then (if s.threads == [] then s else s.(threads := s.threads[0 := SERVER_DEAD]))
    else s.(quiescing := false, pid := forked)
  }

  /** A slot with a new child is taken, so no later pass makes another one there while it runs; a
      slot for which the fork fails stays open, or becomes so with its first thread, and the next
      pass tries again. */
  lemma ForkedTakesSlot(s: Slot, forked: int)
    requires forked != 0
    ensures forked != -1 ==>
      && !Open(Forked(s, forked)) && Forked(s, forked).pid == forked && Forked(s, forked).threads == s.threads
    ensures forked == -1 && s.threads != [] && (s.pid == 0 || s.quiescing) ==> Open(Forked(s, forked))
    ensures forked == -1 ==>
      && Forked(s, forked).pid == s.pid && Forked(s, forked).quiescing == s.quiescing
      && |Forked(s, forked).threads| == |s.threads|
      && forall j :: 0 < j < |s.threads| ==> Forked(s, forked).threads[j] == s.threads[j]
  {
    if forked == -1 && s.threads != [] {
      assert Forked(s, forked).threads[0] == SERVER_DEAD;
    }
  }

  /** The slots of made, and no others, have been forked for. */
  ghost predicate Made(was: seq<Slot>, now: seq<Slot>, made: seq<nat>, forks: nat -> int) {
    && |now| == |was|
    && forall i :: 0 <= i < |now| ==> now[i] == if i in made then Forked(was[i], forks(i)) else was[i]
  }

  /** The rate after a pass: it doubles when children were wanted, up to the maximum. */
  function NextRate(rate: nat, idle: int, minSpare: int, maxSpare: int, len: nat, holdOff: nat): nat {
    if maxSpare < idle || minSpare <= idle || len == 0 then 1
    else if 0 < holdOff || MAX_SPAWN_RATE <= rate then rate
    else rate * 2
  }

  /** The hold-off counts down in the passes that make children. */
  function NextHoldOff(made: seq<nat>, holdOff: nat): nat {
    if made != [] && 0 < holdOff then holdOff - 1 else holdOff
  }

  /** Rate and hold-off after k passes in a row, from rate 1, that find too few idle threads
      and some free slot. */
  function Hungry(holdOff: nat, k: nat, minSpare: int, maxSpare: int, idle: int, free: seq<nat>): (nat, nat) {
    if k == 0 then (1, holdOff)
    else
      var (rate, left) := Hungry(holdOff, k - 1, minSpare, maxSpare, idle, free);
      (NextRate(rate, idle, minSpare, maxSpare, |free|, left), NextHoldOff(Chosen(free, rate), left))
  }

  function Power2(k: nat): nat { if k == 0 then 1 else 2 * Power2(k - 1) }

  /** The rate stays while children are held off, and then doubles with each pass up to 32. */
  lemma {:induction false} HungryDoubles(holdOff: nat, k: nat, minSpare: int, maxSpare: int, idle: int, free: seq<nat>)
    requires idle < minSpare && idle <= maxSpare && free != []
    ensures Hungry(holdOff, k, minSpare, maxSpare, idle, free) ==
      if k <= holdOff then (1, holdOff - k) else (if k - holdOff < 5 then Power2(k - holdOff) else 32, 0)
  {
    if k != 0 {
      HungryDoubles(holdOff, k - 1, minSpare, maxSpare, idle, free);
      assert Power2(1) == 2 && Power2(2) == 4 && Power2(3) == 8 && Power2(4) == 16;
    }
  }

  /** Any other pass takes the rate back to 1. */
  lemma EnoughResets(rate: nat, idle: int, minSpare: int, maxSpare: int, len: nat, holdOff: nat)
    requires minSpare <= idle || maxSpare < idle || len == 0
    ensures NextRate(rate, idle, minSpare, maxSpare, len, holdOff) == 1
  {
  }

  /** The daemon limit after children were made for these slots. */
  function Raised(limit: nat, made: seq<nat>): nat {
    if made == [] then limit
    else
      var before, last := Raised(limit, made[..|made| - 1]), made[|made| - 1];
      if before < last + 1 then last + 1 else before
  }

  /** It is the least that covers the limit before and all of the slots. */
  lemma {:induction false} RaisedIsLeast(limit: nat, made: seq<nat>, bound: nat)
    ensures Raised(limit, made) <= bound <==> limit <= bound && forall k :: 0 <= k < |made| ==> made[k] < bound
    decreases |made|
  {
    if made != [] {
      var init := made[..|made| - 1];
      RaisedIsLeast(limit, init, bound);
      assert forall k :: 0 <= k < |init| ==> init[k] == made[k];
      assert made == init + [made[|made| - 1]];
    }
  }

  class Parent {
    const minSpare: int
    const maxSpare: int
    var slots: seq<Slot>
    var maxLimit: nat
    var rate: nat
    var holdOff: nat
    var sick: bool
    var shutdown: bool

    constructor (minSpare: int, maxSpare: int, slots: seq<Slot>, maxLimit: nat, holdOff: nat)
      ensures this.minSpare == minSpare && this.maxSpare == maxSpare && this.slots == slots
      ensures this.maxLimit == maxLimit && this.holdOff == holdOff && rate == 1 && !sick && !shutdown
    {
      this.minSpare, this.maxSpare, this.slots, this.maxLimit := minSpare, maxSpare, slots, maxLimit;
      this.holdOff, rate, sick, shutdown := holdOff, 1, false, false;
    }

    /** src/zevent.c:1145-1183. */
    method MakeChild(slot: nat, forked: int)
      requires slot < |slots|
      modifies this`slots, this`maxLimit
      ensures slots == old(slots)[slot := Forked(old(slots)[slot], forked)]
      ensures maxLimit == if old(maxLimit) < slot + 1 then slot + 1 else old(maxLimit)
    {
      if maxLimit < slot + 1 {
        maxLimit := slot + 1;
      }
      slots := slots[slot := Forked(slots[slot], forked)];
    }

    /** src/zevent.c:1356-1358. */
    method MakeChildren(made: seq<nat>, forks: nat -> int)
      requires Differ(made) && forall k :: 0 <= k < |made| ==> made[k] < |slots|
      modifies this`slots, this`maxLimit
      ensures Made(old(slots), slots, made, forks)
      ensures maxLimit == Raised(old(maxLimit), made)
    {
      var k := 0;
      while k < |made|
        invariant k <= |made| && Made(old(slots), slots, made[..k], forks)
        invariant maxLimit == Raised(old(maxLimit), made[..k])
      {
        assert made[..k + 1] == made[..k] + [made[k]] && made[..k + 1][..k] == made[..k];
        MakeChild(made[k], forks(made[k]));
        k := k + 1;
      }
      assert made[..k] == made;
    }

    /** src/zevent.c:1342-1367, for the len slots in found. */
    method Spawn(found: array<nat>, len: nat, forks: nat -> int) returns (made: seq<nat>)
      requires SpawnRate(rate) && 0 < len <= found.Length
      requires Differ(found[..len]) && forall k :: 0 <= k < len ==> found[k] < |slots|
      modifies this`slots, this`maxLimit, this`rate, this`holdOff
      ensures made == Chosen(found[..len], old(rate)) && SpawnRate(rate)
      ensures rate == if 0 < old(holdOff) || MAX_SPAWN_RATE <= old(rate) then old(rate) else old(rate) * 2
      ensures Made(old(slots), slots, made, forks) && maxLimit == Raised(old(maxLimit), made)
      ensures holdOff == NextHoldOff(made, old(holdOff))
    {
      var length := if rate < len then rate else len;
      made := found[..length];
      assert made == Chosen(found[..len], rate);
      MakeChildren(made, forks);
      if 0 < holdOff {
        holdOff := holdOff - 1;
      } else if rate < MAX_SPAWN_RATE {
        rate := rate * 2;
      }
    }

    /** src/zevent.c:1323-1372, once the slots have been looked at. */
    method Settle(found: array<nat>, r: Scan, forks: nat -> int) returns (made: seq<nat>, kill: bool)
      requires SpawnRate(rate) && r.len <= found.Length && -1 <= r.lastNonDead
      requires Differ(found[..r.len]) && forall k :: 0 <= k < r.len ==> found[k] < |slots|
      modifies this`slots, this`maxLimit, this`rate, this`holdOff
      ensures SpawnRate(rate) && (kill <==> maxSpare < r.idle)
      ensures made == if !kill && r.idle < minSpare then Chosen(found[..r.len], old(rate)) else []
      ensures rate == NextRate(old(rate), r.idle, minSpare, maxSpare, r.len, old(holdOff))
      ensures maxLimit == Raised(r.lastNonDead + 1, made) && holdOff == NextHoldOff(made, old(holdOff))
      ensures Made(old(slots), slots, made, forks)
    {
      made, kill := [], false;
      maxLimit := r.lastNonDead + 1;
      if maxSpare < r.idle {
        kill := true;
        rate := 1;
      } else if r.idle < minSpare {
        if r.len == 0 {
          rate := 1;
        } else {
          made := Spawn(found, r.len, forks);
        }
      } else {
        rate := 1;
      }
    }

    /** src/zevent.c:1216-1373. kill says that one child is told to go. */
    method Maintain(generation: int, forks: nat -> int)
      returns (made: seq<nat>, kill: bool, ghost r: Scan, ghost free: seq<nat>)
      requires SpawnRate(rate)
      modifies this
      ensures SpawnRate(rate)
      ensures Scanned(old(slots), generation, old(rate), free, r)
      ensures r.scanned == |old(slots)| || (old(maxLimit) <= r.scanned && r.totally == old(rate))
      ensures shutdown == (old(shutdown) || (old(sick) && r.active == 0))
      ensures old(sick) && r.active == 0 ==>
        && made == [] && !kill && slots == old(slots) && sick
        && rate == old(rate) && maxLimit == old(maxLimit) && holdOff == old(holdOff)
      ensures !(old(sick) && r.active == 0) ==>
        && !sick && (kill <==> maxSpare < r.idle)
        && made == (if !kill && r.idle < minSpare then Chosen(free, old(rate)) else [])
        && rate == NextRate(old(rate), r.idle, minSpare, maxSpare, r.len, old(holdOff))
        && maxLimit == Raised(r.lastNonDead + 1, made)
        && holdOff == NextHoldOff(made, old(holdOff))
        && Made(old(slots), slots, made, forks)
    {
      var found, scan := ScanSlots(slots, generation, maxLimit, rate);
      r, free := scan, found[..scan.len];
      made, kill := [], false;
      if sick {
        if 0 < scan.active {
          sick := false;
        } else {
          shutdown := true;
          return;
        }
      }
      made, kill := Settle(found, scan, forks);
    }
  }
}
