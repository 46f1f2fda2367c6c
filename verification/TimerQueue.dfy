/**
 TimerQueue.cpp and Timer.h: timers in a set ordered by deadline and address, one one-shot timerfd, and
 timer objects that are created and deleted by hand. Times are nanoseconds of one clock that never runs back.

 `heap` has the live timer objects by address; a use of an address that is not there sets `dangling`. User
 code on the loop's thread may add and cancel timers between any two steps, and so from the callbacks of a
 sweep. `failed` records that an `assert` of the source did not hold.
 */
module TimerQueues {
  import opened Base

  const MILLISECOND: int := 1_000_000
  const SECOND: int := 1_000_000_000

  // ----- durationFromNow -----

  datatype TimeSpec = TimeSpec(sec: int, nsec: int)

  function DurationFromNow(when: int, now: int): TimeSpec {
    var ns := if when - now < MILLISECOND then MILLISECOND else when - now;
    TimeSpec(ns / SECOND, ns % SECOND)
  }

  function Nanoseconds(t: TimeSpec): int {
    t.sec * SECOND + t.nsec
  }

  function Max(a: int, b: int): int {
    if a >= b then a else b
  }

  /** The timerfd value is normalised, never the all-zero value that would disarm, and due at the deadline
      but no sooner than a millisecond from now. */
  lemma DurationIsClamped(when: int, now: int)
    ensures var t := DurationFromNow(when, now);
            && now + Nanoseconds(t) == Max(when, now + MILLISECOND)
            && t.sec >= 0 && 0 <= t.nsec < SECOND && t != TimeSpec(0, 0)
  {
  }

  // ----- the ordered set -----

  datatype Entry = Entry(when: int, addr: nat)

  predicate Before(a: Entry, b: Entry) {
    a.when < b.when || (a.when == b.when && a.addr < b.addr)
  }

  predicate Sorted(ts: seq<Entry>) {
    forall i, j :: 0 <= i < j < |ts| ==> Before(ts[i], ts[j])
  }

  /** How many entries come before `e`: set::lower_bound. */
  function LowerBound(ts: seq<Entry>, e: Entry): (k: nat)
    ensures k <= |ts|
  {
    if ts == [] || !Before(ts[0], e) then 0 else 1 + LowerBound(ts[1..], e)
  }

  lemma {:induction false} LowerBoundSplits(ts: seq<Entry>, e: Entry)
    requires Sorted(ts)
    ensures forall i :: 0 <= i < |ts| ==> (Before(ts[i], e) <==> i < LowerBound(ts, e))
  {
    if ts != [] {
      LowerBoundSplits(ts[1..], e);
      forall i | 0 <= i < |ts|
        ensures Before(ts[i], e) <==> i < LowerBound(ts, e)
      {
        if i > 0 { assert ts[i] == ts[1..][i - 1]; }
      }
    }
  }

  /** set::insert of an entry; an equal one already there is kept. */
  function Insert(ts: seq<Entry>, e: Entry): seq<Entry> {
    var k := LowerBound(ts, e);
    if k < |ts| && ts[k] == e then ts else ts[..k] + [e] + ts[k..]
  }

  lemma InsertKeepsSet(ts: seq<Entry>, e: Entry)
    requires Sorted(ts)
    ensures Sorted(Insert(ts, e))
    ensures forall x :: x in Insert(ts, e) <==> x in ts || x == e
    ensures Insert(ts, e) != [] && (Insert(ts, e)[0] == e || (ts != [] && Insert(ts, e)[0] == ts[0]))
  {
    LowerBoundSplits(ts, e);
  }

  /** set::erase by value. */
  function Erase(ts: seq<Entry>, e: Entry): seq<Entry> {
    var k := LowerBound(ts, e);
    if k < |ts| && ts[k] == e then ts[..k] + ts[k + 1..] else ts
  }

  lemma LowerBoundFinds(ts: seq<Entry>, e: Entry)
    requires Sorted(ts) && e in ts
    ensures LowerBound(ts, e) < |ts| && ts[LowerBound(ts, e)] == e
  {
    LowerBoundSplits(ts, e);
    var i :| 0 <= i < |ts| && ts[i] == e;
    assert !Before(ts[i], e);
    var k := LowerBound(ts, e);
    assert k <= i && !Before(ts[k], e);
  }

  lemma RemovedFromSet(ts: seq<Entry>, k: nat)
    requires Sorted(ts) && k < |ts|
    ensures forall x :: x in ts[..k] + ts[k + 1..] <==> x in ts && x != ts[k]
  {
    assert ts == ts[..k] + [ts[k]] + ts[k + 1..];
    assert forall i :: 0 <= i < k ==> Before(ts[i], ts[k]);
    assert forall i :: k < i < |ts| ==> Before(ts[k], ts[i]);
  }

  lemma EraseKeepsSet(ts: seq<Entry>, e: Entry)
    requires Sorted(ts)
    ensures Sorted(Erase(ts, e))
    ensures forall x :: x in Erase(ts, e) <==> x in ts && x != e
    ensures Erase(ts, e) != [] ==> ts != [] && ts[0].when <= Erase(ts, e)[0].when
  {
    if e in ts {
      LowerBoundFinds(ts, e);
      RemovedFromSet(ts, LowerBound(ts, e));
    }
  }

  /** The bound of getExpired. */
  function ExpiredBound(now: int): Entry {
    Entry(now + 1, 0)
  }

  /** getExpired cuts the set exactly between the expired and the others, both in deadline order. */
  lemma ExpiredSplitIsExact(ts: seq<Entry>, now: int)
    requires Sorted(ts)
    ensures var k := LowerBound(ts, ExpiredBound(now));
            && (forall i :: 0 <= i < |ts| ==> (ts[i].when <= now <==> i < k))
            && Sorted(ts[..k]) && Sorted(ts[k..])
  {
    LowerBoundSplits(ts, ExpiredBound(now));
    var k := LowerBound(ts, ExpiredBound(now));
    forall i | 0 <= i < |ts|
      ensures ts[i].when <= now <==> i < k
    {
      assert Before(ts[i], ExpiredBound(now)) <==> i < k;
    }
  }

  // ----- the queue -----

  /** A timer object; `start` is its first deadline and `fired` the times its callback was run, as history. */
  datatype Timer = Timer(when: int, interval: int, canceled: bool, start: int, fired: seq<int>)

  predicate Repeats(t: Timer) {
    t.interval > 0
  }

  /** The sweep of handleRead: `now` as read at its start, and the entries not yet finished. */
  datatype Sweep = NoSweep | Sweeping(now: int, rest: seq<Entry>, running: bool)

  datatype State = State(
    timers: seq<Entry>, heap: map<nat, Timer>, sweep: Sweep,
    armed: Option<int>,     // when the timerfd is or was due, unless read or never set
    lastSet: int, clock: int,
    created: nat, deleted: nat,
    dangling: bool, failed: bool)

  function Init(clock: int): State {
    State([], map[], NoSweep, None, clock, clock, 0, 0, false, false)
  }

  datatype Event =
    | Tick(to: int)
    | Add(addr: nat, when: int, interval: int)
    | Cancel(target: nat)
    | BeginSweep
    | Fire
    | Finish
    | EndSweep

  predicate Enabled(s: State, e: Event) {
    match e
    case Tick(to) => s.clock <= to
    case Add(addr, _, _) => addr > 0 && addr !in s.heap
    case Cancel(_) => true
    case BeginSweep => s.sweep.NoSweep?
    case Fire => s.sweep.Sweeping? && s.sweep.rest != [] && !s.sweep.running
    case Finish => s.sweep.Sweeping? && s.sweep.rest != [] && s.sweep.running
    case EndSweep => s.sweep.Sweeping? && s.sweep.rest == []
  }

  function TimerfdSet(s: State, when: int): State {
    s.(armed := Some(s.clock + Nanoseconds(DurationFromNow(when, s.clock))), lastSet := s.clock)
  }

  predicate Readable(s: State) {
    s.armed.Some? && s.armed.value <= s.clock
  }

  function Added(s: State, addr: nat, when: int, interval: int): State
    requires addr !in s.heap
  {
    var e := Entry(when, addr);
    var t := s.(heap := s.heap[addr := Timer(when, interval, false, when, [])], created := s.created + 1,
                timers := Insert(s.timers, e), failed := s.failed || e in s.timers);
    if t.timers != [] && t.timers[0] == e then TimerfdSet(t, when) else t
  }

  function Delete(s: State, addr: nat): State {
    if addr in s.heap then s.(heap := s.heap - {addr}, deleted := s.deleted + 1) else s.(dangling := true)
  }

  function Canceled(s: State, addr: nat): State {
    if addr !in s.heap then s.(dangling := true)
    else
      var timer := s.heap[addr];
      var t := s.(heap := s.heap[addr := timer.(canceled := true)], failed := s.failed || timer.canceled,
                  timers := Erase(s.timers, Entry(timer.when, addr)));
      Delete(t, addr)
  }

  function Begin(s: State): State {
    var k := LowerBound(s.timers, ExpiredBound(s.clock));
    s.(armed := if Readable(s) then None else s.armed,
       timers := s.timers[k..], sweep := Sweeping(s.clock, s.timers[..k], false))
  }

  function FireNext(s: State): State
    requires Enabled(s, Fire)
  {
    var addr := s.sweep.rest[0].addr;
    if addr !in s.heap then s.(dangling := true, sweep := s.sweep.(running := true))
    else
      var timer := s.heap[addr];
      s.(failed := s.failed || s.sweep.now < timer.when,
         heap := if timer.canceled then s.heap else s.heap[addr := timer.(fired := timer.fired + [s.clock])],
         sweep := s.sweep.(running := true))
  }

  function FinishNext(s: State): State
    requires Enabled(s, Finish)
  {
    var addr := s.sweep.rest[0].addr;
    var t := s.(sweep := s.sweep.(rest := s.sweep.rest[1..], running := false));
    if addr !in s.heap then t.(dangling := true)
    else
      var timer := s.heap[addr];
      if !timer.canceled && Repeats(timer) then
        var when := timer.when + timer.interval;
        t.(heap := s.heap[addr := timer.(when := when)], timers := Insert(s.timers, Entry(when, addr)))
      else Delete(t, addr)
  }

  function End(s: State): State {
    var t := s.(sweep := NoSweep);
    if s.timers != [] then TimerfdSet(t, s.timers[0].when) else t
  }

  function Next(s: State, e: Event): State
    requires Enabled(s, e)
  {
    match e
    case Tick(to) => s.(clock := to)
    case Add(addr, when, interval) => Added(s, addr, when, interval)
    case Cancel(addr) => Canceled(s, addr)
    case BeginSweep => Begin(s)
    case Fire => FireNext(s)
    case Finish => FinishNext(s)
    case EndSweep => End(s)
  }

  predicate InSet(s: State, addr: nat) {
    addr in s.heap && Entry(s.heap[addr].when, addr) in s.timers
  }

  /** Only timers in the set are cancelled. */
  predicate Ruled(s: State, e: Event) {
    e.Cancel? ==> InSet(s, e.target)
  }

  predicate Legal(s: State, evs: seq<Event>)
    decreases evs
  {
    evs == [] || (Enabled(s, evs[0]) && Ruled(s, evs[0]) && Legal(Next(s, evs[0]), evs[1..]))
  }

  function Run(s: State, evs: seq<Event>): State
    requires Legal(s, evs)
    decreases evs
  {
    if evs == [] then s else Run(Next(s, evs[0]), evs[1..])
  }

  // ----- what every step keeps -----

  function Rest(s: State): seq<Entry> {
    if s.sweep.Sweeping? then s.sweep.rest else []
  }

  /** The entry's timer is live, not cancelled, and due when the entry says. */
  predicate Owns(heap: map<nat, Timer>, e: Entry) {
    e.addr in heap && heap[e.addr].when == e.when && !heap[e.addr].canceled
  }

  /** Every live timer is in the set or in the batch being swept, in one of them and once. */
  ghost predicate Partition(timers: seq<Entry>, rest: seq<Entry>, heap: map<nat, Timer>) {
    && Sorted(timers) && Sorted(rest)
    && (forall e :: e in timers ==> Owns(heap, e) && e !in rest)
    && (forall e :: e in rest ==> Owns(heap, e))
    && (forall a :: a in heap ==> Entry(heap[a].when, a) in timers || Entry(heap[a].when, a) in rest)
  }

  ghost predicate Ownership(s: State) {
    Partition(s.timers, Rest(s), s.heap) && s.created == s.deleted + |s.heap|
  }

  /** The head of the batch has its callback running or run. */
  predicate IsRunning(s: State, addr: nat) {
    s.sweep.Sweeping? && s.sweep.running && s.sweep.rest != [] && s.sweep.rest[0].addr == addr
  }

  function Period(t: Timer): int {
    if Repeats(t) then t.interval else 0
  }

  function Due(t: Timer, k: int): int {
    t.start + k * Period(t)
  }

  /** The k-th run of the callback was not before the k-th deadline; the deadline counts the runs. */
  predicate OnSchedule(t: Timer, running: bool, clock: int) {
    && (forall k :: 0 <= k < |t.fired| ==> Due(t, k) <= t.fired[k] <= clock)
    && t.when == Due(t, |t.fired| - if running then 1 else 0)
    && (running ==> |t.fired| > 0)
    && (!Repeats(t) ==> |t.fired| == if running then 1 else 0)
  }

  ghost predicate Schedules(s: State) {
    forall a :: a in s.heap ==> OnSchedule(s.heap[a], IsRunning(s, a), s.clock)
  }

  predicate SweepInv(s: State) {
    s.sweep.Sweeping? ==>
      && s.sweep.now <= s.clock
      && (s.sweep.running ==> s.sweep.rest != [])
      && (forall i :: 0 <= i < |s.sweep.rest| ==> s.sweep.rest[i].when <= s.sweep.now)
  }

  /** Outside a sweep a non-empty set has the timerfd due soon enough for its first deadline. */
  predicate Armed(s: State) {
    s.sweep.NoSweep? && s.timers != [] ==>
      s.armed.Some? && s.armed.value <= Max(s.timers[0].when, s.lastSet + MILLISECOND)
  }

  ghost predicate Inv(s: State) {
    !s.failed && !s.dangling && Ownership(s) && Schedules(s) && SweepInv(s) && Armed(s)
  }

  lemma PartitionAdd(timers: seq<Entry>, rest: seq<Entry>, heap: map<nat, Timer>, addr: nat, timer: Timer)
    requires Partition(timers, rest, heap) && addr !in heap && !timer.canceled
    ensures Partition(Insert(timers, Entry(timer.when, addr)), rest, heap[addr := timer])
  {
    InsertKeepsSet(timers, Entry(timer.when, addr));
  }

  lemma PartitionErase(timers: seq<Entry>, rest: seq<Entry>, heap: map<nat, Timer>, addr: nat)
    requires Partition(timers, rest, heap) && addr in heap && Entry(heap[addr].when, addr) in timers
    ensures Partition(Erase(timers, Entry(heap[addr].when, addr)), rest, heap - {addr})
  {
    var e := Entry(heap[addr].when, addr);
    EraseKeepsSet(timers, e);
    forall f | f in Erase(timers, e) || f in rest
      ensures Owns(heap - {addr}, f)
    {
      assert Owns(heap, f) && f != e;
    }
  }

  /** The head of the batch leaves it, and its timer the heap. */
  lemma PartitionDrop(timers: seq<Entry>, rest: seq<Entry>, heap: map<nat, Timer>)
    requires Partition(timers, rest, heap) && rest != []
    ensures Partition(timers, rest[1..], heap - {rest[0].addr})
  {
    var e := rest[0];
    assert e in rest && Owns(heap, e);
    assert e !in rest[1..] by { assert forall j :: 0 < j < |rest| ==> Before(e, rest[j]); }
    forall f | f in timers || f in rest[1..]
      ensures Owns(heap - {e.addr}, f)
    {
      assert Owns(heap, f) && f != e;
    }
    forall a | a in heap - {e.addr}
      ensures Entry(heap[a].when, a) in timers || Entry(heap[a].when, a) in rest[1..]
    {
      var f := Entry(heap[a].when, a);
      if f in rest { assert f != e && rest == [e] + rest[1..]; }
    }
  }

  /** The head of the batch goes back to the set with a later deadline. */
  lemma PartitionReturn(timers: seq<Entry>, rest: seq<Entry>, heap: map<nat, Timer>, timer: Timer)
    requires Partition(timers, rest, heap) && rest != [] && !timer.canceled
    ensures Partition(Insert(timers, Entry(timer.when, rest[0].addr)), rest[1..], heap[rest[0].addr := timer])
  {
    var addr := rest[0].addr;
    PartitionDrop(timers, rest, heap);
    PartitionAdd(timers, rest[1..], heap - {addr}, addr, timer);
    assert rest[0] in rest;
    assert (heap - {addr})[addr := timer] == heap[addr := timer];
  }

  lemma PartitionSplit(timers: seq<Entry>, heap: map<nat, Timer>, k: nat)
    requires Partition(timers, [], heap) && k <= |timers|
    ensures Partition(timers[k..], timers[..k], heap)
  {
    assert timers == timers[..k] + timers[k..];
    forall e | e in timers[k..]
      ensures e !in timers[..k]
    {
      var j :| k <= j < |timers| && timers[j] == e;
      assert forall i :: 0 <= i < k ==> Before(timers[i], timers[j]);
    }
  }

  lemma AddSchedules(s: State, addr: nat, when: int, interval: int)
    requires Schedules(s) && addr !in s.heap && (forall e :: e in Rest(s) ==> Owns(s.heap, e))
    ensures Schedules(Added(s, addr, when, interval))
  {
    var timer, t := Timer(when, interval, false, when, []), Added(s, addr, when, interval);
    assert !IsRunning(t, addr) by {
      if Rest(s) != [] { assert Owns(s.heap, Rest(s)[0]); }
    }
    assert OnSchedule(timer, false, s.clock) by { assert Due(timer, 0) == when; }
    OneScheduleChanged(s, t, addr);
  }

  lemma AddArmed(s: State, addr: nat, when: int, interval: int)
    requires Sorted(s.timers) && Armed(s) && addr !in s.heap
    ensures Armed(Added(s, addr, when, interval))
  {
    InsertKeepsSet(s.timers, Entry(when, addr));
    DurationIsClamped(when, s.clock);
  }

  lemma AddKeepsInv(s: State, addr: nat, when: int, interval: int)
    requires Inv(s) && Enabled(s, Add(addr, when, interval))
    ensures Inv(Added(s, addr, when, interval))
  {
    PartitionAdd(s.timers, Rest(s), s.heap, addr, Timer(when, interval, false, when, []));
    AddSchedules(s, addr, when, interval);
    AddArmed(s, addr, when, interval);
    assert Entry(when, addr) in s.timers ==> Owns(s.heap, Entry(when, addr));
  }

  lemma CancelKeepsInv(s: State, addr: nat)
    requires Inv(s) && InSet(s, addr)
    ensures Inv(Canceled(s, addr))
  {
    var e := Entry(s.heap[addr].when, addr);
    PartitionErase(s.timers, Rest(s), s.heap, addr);
    EraseKeepsSet(s.timers, e);
    assert Owns(s.heap, e);
    var t := Canceled(s, addr);
    assert t.heap == s.heap - {addr};
    assert Schedules(t);
  }

  lemma BeginKeepsInv(s: State)
    requires Inv(s) && s.sweep.NoSweep?
    ensures Inv(Begin(s))
  {
    var k := LowerBound(s.timers, ExpiredBound(s.clock));
    ExpiredSplitIsExact(s.timers, s.clock);
    PartitionSplit(s.timers, s.heap, k);
    assert Schedules(Begin(s));
  }

  lemma FiredOnSchedule(t: Timer, clock: int)
    requires OnSchedule(t, false, clock) && t.when <= clock
    ensures OnSchedule(t.(fired := t.fired + [clock]), true, clock)
  {
    var u := t.(fired := t.fired + [clock]);
    forall k | 0 <= k < |u.fired|
      ensures Due(u, k) <= u.fired[k] <= clock
    {
      assert Due(u, k) == Due(t, k);
    }
  }

  lemma RestartedOnSchedule(t: Timer, clock: int)
    requires OnSchedule(t, true, clock) && Repeats(t)
    ensures OnSchedule(t.(when := t.when + t.interval), false, clock)
  {
    var u := t.(when := t.when + t.interval);
    assert u.when == Due(u, |u.fired|);
    forall k | 0 <= k < |u.fired|
      ensures Due(u, k) <= u.fired[k] <= clock
    {
      assert Due(u, k) == Due(t, k);
    }
  }

  lemma FireKeepsInv(s: State)
    requires Inv(s) && Enabled(s, Fire)
    ensures Inv(FireNext(s))
  {
    var e := s.sweep.rest[0];
    assert e in Rest(s) && Owns(s.heap, e);
    var t := FireNext(s);
    assert OnSchedule(s.heap[e.addr], IsRunning(s, e.addr), s.clock);
    FiredOnSchedule(s.heap[e.addr], s.clock);
    OneScheduleChanged(s, t, e.addr);
    PartitionRefire(s.timers, Rest(s), s.heap, e.addr, t.heap[e.addr]);
  }

  /** A timer's history may grow where it is. */
  lemma PartitionRefire(timers: seq<Entry>, rest: seq<Entry>, heap: map<nat, Timer>, addr: nat, timer: Timer)
    requires Partition(timers, rest, heap)
    requires addr in heap && timer.when == heap[addr].when && timer.canceled == heap[addr].canceled
    ensures Partition(timers, rest, heap[addr := timer])
  {
  }

  /** Only the timer at `addr` changed, and whether it is running. */
  lemma OneScheduleChanged(s: State, t: State, addr: nat)
    requires Schedules(s) && s.clock == t.clock
    requires forall a :: a != addr ==> (IsRunning(s, a) <==> IsRunning(t, a))
    requires addr in t.heap ==> OnSchedule(t.heap[addr], IsRunning(t, addr), t.clock)
    requires forall a :: a in t.heap && a != addr ==> a in s.heap && t.heap[a] == s.heap[a]
    ensures Schedules(t)
  {
    forall a | a in t.heap
      ensures OnSchedule(t.heap[a], IsRunning(t, a), t.clock)
    {
      if a != addr { assert OnSchedule(s.heap[a], IsRunning(s, a), s.clock); }
    }
  }

  /** What finishing the head makes of set, batch and heap. */
  lemma FinishParts(s: State)
    requires Enabled(s, Finish) && Owns(s.heap, s.sweep.rest[0])
    ensures var e := s.sweep.rest[0];
            var after := s.heap[e.addr].(when := s.heap[e.addr].when + s.heap[e.addr].interval);
            var t := FinishNext(s);
            && Rest(t) == Rest(s)[1..]
            && t.heap == (if Repeats(after) then s.heap[e.addr := after] else s.heap - {e.addr})
            && t.timers == (if Repeats(after) then Insert(s.timers, Entry(after.when, e.addr)) else s.timers)
  {
  }

  lemma PartitionReturned(timers: seq<Entry>, rest: seq<Entry>, heap: map<nat, Timer>, timer: Timer,
                          timers': seq<Entry>, heap': map<nat, Timer>)
    requires Partition(timers, rest, heap) && rest != [] && !timer.canceled
    requires timers' == Insert(timers, Entry(timer.when, rest[0].addr)) && heap' == heap[rest[0].addr := timer]
    ensures Partition(timers', rest[1..], heap')
  {
    PartitionReturn(timers, rest, heap, timer);
  }

  lemma ReturnOwnership(s: State)
    requires Enabled(s, Finish) && Partition(s.timers, s.sweep.rest, s.heap)
    requires Owns(s.heap, s.sweep.rest[0]) && Repeats(s.heap[s.sweep.rest[0].addr])
    ensures Partition(FinishNext(s).timers, s.sweep.rest[1..], FinishNext(s).heap)
  {
    var timer, t := s.heap[s.sweep.rest[0].addr], FinishNext(s);
    var after := timer.(when := timer.when + timer.interval);
    PartitionReturned(s.timers, s.sweep.rest, s.heap, after, t.timers, t.heap);
  }

  lemma DropOwnership(s: State)
    requires Enabled(s, Finish) && Partition(s.timers, s.sweep.rest, s.heap)
    requires Owns(s.heap, s.sweep.rest[0]) && !Repeats(s.heap[s.sweep.rest[0].addr])
    ensures Partition(FinishNext(s).timers, s.sweep.rest[1..], FinishNext(s).heap)
  {
    PartitionDrop(s.timers, s.sweep.rest, s.heap);
  }

  lemma FinishOwnership(s: State)
    requires Enabled(s, Finish) && Partition(s.timers, Rest(s), s.heap)
    ensures Partition(FinishNext(s).timers, Rest(FinishNext(s)), FinishNext(s).heap)
  {
    var e := s.sweep.rest[0];
    assert Owns(s.heap, e) by { assert e in Rest(s); }
    assert Rest(s) == s.sweep.rest && Rest(FinishNext(s)) == s.sweep.rest[1..];
    if Repeats(s.heap[e.addr]) { ReturnOwnership(s); } else { DropOwnership(s); }
  }

  lemma FinishSchedules(s: State)
    requires Inv(s) && Enabled(s, Finish)
    ensures Schedules(FinishNext(s))
  {
    var e := s.sweep.rest[0];
    assert e in Rest(s) && Owns(s.heap, e);
    var timer := s.heap[e.addr];
    assert OnSchedule(timer, true, s.clock) by { assert IsRunning(s, e.addr); }
    if Repeats(timer) { RestartedOnSchedule(timer, s.clock); }
    OneScheduleChanged(s, FinishNext(s), e.addr);
  }

  lemma FinishKeepsInv(s: State)
    requires Inv(s) && Enabled(s, Finish)
    ensures Inv(FinishNext(s))
  {
    FinishOwnership(s);
    FinishSchedules(s);
    assert s.sweep.rest[0] in Rest(s) && Owns(s.heap, s.sweep.rest[0]);
    FinishFrame(s);
  }

  lemma FinishFrame(s: State)
    requires Enabled(s, Finish) && Owns(s.heap, s.sweep.rest[0])
    requires !s.failed && !s.dangling && SweepInv(s) && s.created == s.deleted + |s.heap|
    ensures var t := FinishNext(s);
            !t.failed && !t.dangling && SweepInv(t) && Armed(t) && t.created == t.deleted + |t.heap|
  {
  }

  lemma EndKeepsInv(s: State)
    requires Inv(s) && Enabled(s, EndSweep)
    ensures Inv(End(s))
  {
    if s.timers != [] { DurationIsClamped(s.timers[0].when, s.clock); }
  }

  lemma StepInv(s: State, e: Event)
    requires Inv(s) && Enabled(s, e) && Ruled(s, e)
    ensures Inv(Next(s, e))
  {
    match e
    case Tick(_) =>
    case Add(addr, when, interval) => AddKeepsInv(s, addr, when, interval);
    case Cancel(addr) => CancelKeepsInv(s, addr);
    case BeginSweep => BeginKeepsInv(s);
    case Fire => FireKeepsInv(s);
    case Finish => FinishKeepsInv(s);
    case EndSweep => EndKeepsInv(s);
  }

  lemma {:induction false} RunInv(s: State, evs: seq<Event>)
    requires Inv(s) && Legal(s, evs)
    ensures Inv(Run(s, evs))
    decreases evs
  {
    if evs != [] {
      StepInv(s, evs[0]);
      RunInv(Next(s, evs[0]), evs[1..]);
    }
  }

  // ----- main results -----

  lemma TwoTimers(ts: seq<Entry>, heap: map<nat, Timer>, i: nat, j: nat)
    requires Sorted(ts) && (forall e :: e in ts ==> Owns(heap, e)) && i < j < |ts|
    ensures ts[i].addr != ts[j].addr
  {
    assert ts[i] in ts && ts[j] in ts && Before(ts[i], ts[j]);
  }

  /** In every run the live timer objects are exactly those of the set and of the batch being swept, each in
      one place, under its own deadline and not cancelled; none is used or deleted after its deletion, and
      those created are those deleted and those live. */
  lemma TimersAreOwnedExactlyOnce(clock: int, evs: seq<Event>)
    requires Legal(Init(clock), evs)
    ensures var s := Run(Init(clock), evs);
            && !s.dangling && !s.failed
            && (forall a :: a in s.heap <==> exists e :: e in s.timers + Rest(s) && e.addr == a)
            && (forall e, f :: e in s.timers && f in Rest(s) ==> e.addr != f.addr)
            && (forall i, j :: 0 <= i < j < |s.timers| ==> s.timers[i].addr != s.timers[j].addr)
            && (forall i, j :: 0 <= i < j < |Rest(s)| ==> Rest(s)[i].addr != Rest(s)[j].addr)
            && (forall e :: e in s.timers + Rest(s) ==> s.heap[e.addr].when == e.when && !s.heap[e.addr].canceled)
            && s.created == s.deleted + |s.heap|
  {
    RunInv(Init(clock), evs);
    var s := Run(Init(clock), evs);
    forall e, f | e in s.timers && f in Rest(s)
      ensures e.addr != f.addr
    {
      assert Owns(s.heap, e) && Owns(s.heap, f);
    }
    forall i, j | 0 <= i < j < |s.timers|
      ensures s.timers[i].addr != s.timers[j].addr
    {
      TwoTimers(s.timers, s.heap, i, j);
    }
    forall i, j | 0 <= i < j < |Rest(s)|
      ensures Rest(s)[i].addr != Rest(s)[j].addr
    {
      TwoTimers(Rest(s), s.heap, i, j);
    }
    forall e | e in s.timers + Rest(s)
      ensures e.addr in s.heap && s.heap[e.addr].when == e.when && !s.heap[e.addr].canceled
    {
      assert e in s.timers || e in Rest(s);
      assert Owns(s.heap, e);
    }
    forall a | a in s.heap
      ensures exists e :: e in s.timers + Rest(s) && e.addr == a
    {
      assert Entry(s.heap[a].when, a) in s.timers + Rest(s);
    }
  }

  /** Whenever a timer is set and no sweep is under way, the timerfd is readable or becomes so no later than
      the first deadline, or a millisecond after it was last set. */
  lemma AlwaysArmed(clock: int, evs: seq<Event>, later: int)
    requires Legal(Init(clock), evs)
    ensures var s := Run(Init(clock), evs);
            s.sweep.NoSweep? && s.timers != [] && later >= s.clock
            && later >= Max(s.timers[0].when, s.lastSet + MILLISECOND)
            ==> Readable(Next(s, Tick(later)))
  {
    RunInv(Init(clock), evs);
  }

  /** What a step sets the timerfd for: a timer added before all others, and at the end of a sweep the first. */
  function SetsFor(s: State, e: Event): Option<int> {
    match e
    case Add(addr, when, _) =>
      if forall x :: x in s.timers ==> Before(Entry(when, addr), x) then Some(when) else None
    case EndSweep => if s.timers != [] then Some(s.timers[0].when) else None
    case _ => None
  }

  predicate DueBy(armed: Option<int>, clock: int) {
    armed.Some? && armed.value <= clock
  }

  function DueNext(s: State, e: Event, armed: Option<int>): Option<int> {
    var sets := SetsFor(s, e);
    if sets.Some? then Some(Max(sets.value, s.clock + MILLISECOND))
    else if e.BeginSweep? && DueBy(armed, s.clock) then None
    else armed
  }

  /** When the timerfd is due after some steps, if it was `armed` before them: it is set as above, and read at the
      beginning of a sweep if it is due. */
  function DueAfter(s: State, evs: seq<Event>, armed: Option<int>): Option<int>
    requires Legal(s, evs)
    decreases evs
  {
    if evs == [] then armed else DueAfter(Next(s, evs[0]), evs[1..], DueNext(s, evs[0], armed))
  }

  /** A new entry ends up first exactly when it comes before all others. */
  lemma InsertedFirstIff(ts: seq<Entry>, e: Entry)
    requires Sorted(ts) && e !in ts
    ensures Insert(ts, e) != []
    ensures Insert(ts, e)[0] == e <==> forall x :: x in ts ==> Before(e, x)
  {
    LowerBoundSplits(ts, e);
    if ts != [] {
      assert ts[0] in ts;
      if LowerBound(ts, e) == 0 {
        forall x | x in ts
          ensures Before(e, x)
        {
          var i :| 0 <= i < |ts| && ts[i] == x;
          assert !Before(ts[i], e);
        }
      }
    }
  }

  lemma AddArms(s: State, addr: nat, when: int, interval: int)
    requires Partition(s.timers, Rest(s), s.heap) && Enabled(s, Add(addr, when, interval))
    ensures var sets := SetsFor(s, Add(addr, when, interval));
            Added(s, addr, when, interval).armed
            == if sets.Some? then Some(Max(sets.value, s.clock + MILLISECOND)) else s.armed
  {
    assert forall x :: x in s.timers ==> Owns(s.heap, x);
    InsertedFirstIff(s.timers, Entry(when, addr));
    DurationIsClamped(when, s.clock);
  }

  lemma StepArms(s: State, e: Event)
    requires Partition(s.timers, Rest(s), s.heap) && Enabled(s, e) && Ruled(s, e)
    ensures Next(s, e).armed == DueNext(s, e, s.armed)
  {
    match e
    case Add(addr, when, interval) => AddArms(s, addr, when, interval);
    case EndSweep => if s.timers != [] { DurationIsClamped(s.timers[0].when, s.clock); }
    case _ =>
  }

  lemma {:induction false} RunArms(s: State, evs: seq<Event>)
    requires Inv(s) && Legal(s, evs)
    ensures Run(s, evs).armed == DueAfter(s, evs, s.armed)
    decreases evs
  {
    if evs != [] {
      StepInv(s, evs[0]);
      StepArms(s, evs[0]);
      RunArms(Next(s, evs[0]), evs[1..]);
    }
  }

  /** Over any run the timerfd is due exactly as those settings and readings leave it. */
  lemma TimerfdIsDueAsSet(clock: int, evs: seq<Event>)
    requires Legal(Init(clock), evs)
    ensures Run(Init(clock), evs).armed == DueAfter(Init(clock), evs, None)
  {
    RunArms(Init(clock), evs);
  }

  predicate NeverSets(s: State, evs: seq<Event>)
    requires Legal(s, evs)
    decreases evs
  {
    evs == [] || (SetsFor(s, evs[0]).None? && NeverSets(Next(s, evs[0]), evs[1..]))
  }

  lemma {:induction false} NeverSetStaysUnset(s: State, evs: seq<Event>)
    requires Legal(s, evs) && NeverSets(s, evs)
    ensures DueAfter(s, evs, None) == None
    decreases evs
  {
    if evs != [] { NeverSetStaysUnset(Next(s, evs[0]), evs[1..]); }
  }

  /** A sweep that finds the timerfd readable reads it: it is not readable again until set. */
  lemma SweepReadsTheTimerfd(s: State, evs: seq<Event>)
    requires Inv(s) && s.sweep.NoSweep? && Readable(s)
    requires Legal(Begin(s), evs) && NeverSets(Begin(s), evs)
    ensures !Readable(Run(Begin(s), evs))
  {
    BeginKeepsInv(s);
    RunArms(Begin(s), evs);
    NeverSetStaysUnset(Begin(s), evs);
  }

  /** Every run of a timer's callback was no earlier than its deadline, start + k * interval, and between
      sweeps the next deadline is exactly start + runs * interval: no drift. */
  lemma NeverEarlyNeverDrifting(clock: int, evs: seq<Event>, addr: nat)
    requires Legal(Init(clock), evs) && addr in Run(Init(clock), evs).heap
    requires Repeats(Run(Init(clock), evs).heap[addr])
    ensures var s := Run(Init(clock), evs);
            var t := s.heap[addr];
            && (forall k :: 0 <= k < |t.fired| ==> t.fired[k] >= t.start + k * t.interval)
            && (s.sweep.NoSweep? ==> t.when == t.start + |t.fired| * t.interval)
  {
    RunInv(Init(clock), evs);
    var s := Run(Init(clock), evs);
    var t := s.heap[addr];
    assert OnSchedule(t, IsRunning(s, addr), s.clock);
    forall k | 0 <= k < |t.fired|
      ensures t.fired[k] >= t.start + k * t.interval
    {
      assert Due(t, k) <= t.fired[k];
    }
  }

  lemma MulMonotone(a: int, b: int, d: int)
    requires a <= b && d > 0
    ensures a * d <= b * d
  {
    assert (b - a) * d >= 0;
  }

  lemma QuotientBound(k: nat, d: int, x: int)
    requires d > 0 && k * d <= x
    ensures k <= x / d
  {
    if x / d < k { MulMonotone(x / d + 1, k, d); }
  }

  /** By any time a repeating timer has run at most (time since its start) / interval + 1 times. */
  lemma FiredAtMost(clock: int, evs: seq<Event>, addr: nat)
    requires Legal(Init(clock), evs) && addr in Run(Init(clock), evs).heap
    requires Repeats(Run(Init(clock), evs).heap[addr])
    ensures var s := Run(Init(clock), evs);
            var t := s.heap[addr];
            t.fired != [] ==> |t.fired| <= (s.clock - t.start) / t.interval + 1
  {
    RunInv(Init(clock), evs);
    var s := Run(Init(clock), evs);
    var t := s.heap[addr];
    assert OnSchedule(t, IsRunning(s, addr), s.clock);
    if t.fired != [] {
      var k := |t.fired| - 1;
      assert Due(t, k) <= t.fired[k] <= s.clock;
      QuotientBound(k, t.interval, s.clock - t.start);
    }
  }

  /** A one-shot timer still live has run at most once, not early, and then it is the one running. */
  lemma OneShotRunsOnce(clock: int, evs: seq<Event>, addr: nat)
    requires Legal(Init(clock), evs) && addr in Run(Init(clock), evs).heap
    requires !Repeats(Run(Init(clock), evs).heap[addr])
    ensures var s := Run(Init(clock), evs);
            var t := s.heap[addr];
            && |t.fired| <= 1 && (|t.fired| == 1 <==> IsRunning(s, addr))
            && (t.fired != [] ==> t.fired[0] >= t.start)
  {
    RunInv(Init(clock), evs);
    var s := Run(Init(clock), evs);
    var t := s.heap[addr];
    assert OnSchedule(t, IsRunning(s, addr), s.clock);
    if t.fired != [] { assert Due(t, 0) <= t.fired[0]; }
  }

  /** The destructor: every entry of the set has its timer deleted. */
  function DeleteAll(s: State, entries: seq<Entry>): State
    decreases entries
  {
    if entries == [] then s else DeleteAll(Delete(s, entries[0].addr), entries[1..])
  }

  lemma {:induction false} DeleteAllFrees(s: State, entries: seq<Entry>)
    requires Partition([], entries, s.heap) && !s.dangling && s.created == s.deleted + |s.heap|
    ensures var t := DeleteAll(s, entries); !t.dangling && t.heap == map[] && t.created == t.deleted
    decreases entries
  {
    if entries == [] {
      assert s.heap.Keys == {};
    } else {
      assert Owns(s.heap, entries[0]) by { assert entries[0] in entries; }
      PartitionDrop([], entries, s.heap);
      DeleteAllFrees(Delete(s, entries[0].addr), entries[1..]);
    }
  }

  /** Destroyed outside a sweep, the queue has deleted every timer it ever created, each exactly once. */
  lemma DestructorFreesEverything(clock: int, evs: seq<Event>)
    requires Legal(Init(clock), evs) && Run(Init(clock), evs).sweep.NoSweep?
    ensures var s := Run(Init(clock), evs);
            var t := DeleteAll(s, s.timers);
            !t.dangling && t.heap == map[] && t.created == t.deleted
  {
    RunInv(Init(clock), evs);
    var s := Run(Init(clock), evs);
    DeleteAllFrees(s, s.timers);
  }

  ghost predicate EveryRunIsSound(s: State) {
    forall evs: seq<Event> :: Legal(s, evs) ==> !Run(s, evs).dangling && !Run(s, evs).failed
  }

  /** After a cancel every run, of any length and with any further calls, uses live timers only, if and only if
      the timer was in the set when it was cancelled. */
  lemma CancelIsSoundIffInSet(s: State, addr: nat)
    requires Inv(s)
    ensures EveryRunIsSound(Canceled(s, addr)) <==> InSet(s, addr)
  {
    var t := Canceled(s, addr);
    if InSet(s, addr) {
      CancelKeepsInv(s, addr);
      forall evs: seq<Event> | Legal(t, evs)
        ensures !Run(t, evs).dangling && !Run(t, evs).failed
      {
        RunInv(t, evs);
      }
    } else if addr in s.heap {
      var evs := CancelUnderTheSweepDangles(s, addr);
      assert Legal(t, evs) && Run(t, evs).dangling;
    } else {
      assert Legal(t, []) && Run(t, []) == t;
    }
  }

  /** The other live timers are those of the batch being swept. Wherever in the batch one is when it is
      cancelled, the sweep comes to use the deleted timer with no further call. */
  lemma CancelUnderTheSweepDangles(s: State, addr: nat) returns (evs: seq<Event>)
    requires Inv(s) && addr in s.heap && !InSet(s, addr)
    ensures Legal(Canceled(s, addr), evs) && Run(Canceled(s, addr), evs).dangling
    ensures forall e :: e in evs ==> e.Fire? || e.Finish?
  {
    var e := Entry(s.heap[addr].when, addr);
    assert e in Rest(s);
    var i :| 0 <= i < |s.sweep.rest| && s.sweep.rest[i] == e;
    evs := SweepReaches(Canceled(s, addr), addr, i);
  }

  /** Such a cancel is reachable from the start. */
  lemma CancelUnderTheSweepIsReachable(clock: int)
    ensures var evs := [Add(1, clock, 0), BeginSweep];
            && Legal(Init(clock), evs)
            && var s := Run(Init(clock), evs);
               && Inv(s) && 1 in s.heap && !InSet(s, 1)
               && Enabled(Canceled(s, 1), Fire) && Next(Canceled(s, 1), Fire).dangling
  {
    var added := Next(Init(clock), Add(1, clock, 0));
    assert added.timers == [Entry(clock, 1)];
    var s := Next(added, BeginSweep);
    assert LowerBound([Entry(clock, 1)][1..], ExpiredBound(clock)) == 0;
    assert s.sweep.rest == [Entry(clock, 1)] && s.timers == [];
    var evs := [Add(1, clock, 0), BeginSweep];
    assert evs[1..] == [BeginSweep] && evs[1..][1..] == [];
    assert Legal(s, []) && Run(s, []) == s;
    assert Legal(added, [BeginSweep]) && Run(added, [BeginSweep]) == s;
    InitIsSound(clock);
    RunInv(Init(clock), evs);
  }

  lemma InitIsSound(clock: int)
    ensures Inv(Init(clock))
  {
  }

  lemma {:induction false} SweepReaches(s: State, addr: nat, i: nat) returns (evs: seq<Event>)
    requires s.sweep.Sweeping? && i < |s.sweep.rest| && s.sweep.rest[i].addr == addr && addr !in s.heap
    ensures Legal(s, evs) && Run(s, evs).dangling
    ensures forall e :: e in evs ==> e.Fire? || e.Finish?
    decreases i, !s.sweep.running
  {
    var e := if s.sweep.running then Finish else Fire;
    var t := Next(s, e);
    if s.sweep.rest[0].addr == addr {
      evs := [e];
      assert Legal(t, []) && Run(t, []) == t;
    } else {
      var rest := SweepReaches(t, addr, if s.sweep.running then i - 1 else i);
      evs := [e] + rest;
      assert evs[1..] == rest;
    }
  }

  // ----- a whole sweep -----

  /** Steps between the beginning and the end of one sweep: callbacks may add and cancel, and time passes. */
  predicate WithinSweep(evs: seq<Event>) {
    BeginSweep !in evs && EndSweep !in evs
  }

  /** The entries whose callbacks are still to be run. */
  function Unfired(s: State): seq<Entry> {
    if s.sweep.Sweeping? && s.sweep.running && s.sweep.rest != [] then s.sweep.rest[1..] else Rest(s)
  }

  function StepFired(s: State, e: Event): seq<Entry>
    requires Enabled(s, e)
  {
    if e.Fire? && Owns(s.heap, s.sweep.rest[0]) then [s.sweep.rest[0]] else []
  }

  /** The entries whose callbacks the steps run, in order. */
  function FiredBy(s: State, evs: seq<Event>): seq<Entry>
    requires Legal(s, evs)
    decreases evs
  {
    if evs == [] then [] else StepFired(s, evs[0]) + FiredBy(Next(s, evs[0]), evs[1..])
  }

  lemma StepFires(s: State, e: Event)
    requires s.sweep.Sweeping? && Enabled(s, e) && !e.EndSweep?
    requires forall x :: x in Rest(s) ==> Owns(s.heap, x)
    ensures StepFired(s, e) + Unfired(Next(s, e)) == Unfired(s)
  {
    match e
    case Fire =>
      assert Owns(s.heap, s.sweep.rest[0]);
      assert Unfired(Next(s, e)) == s.sweep.rest[1..];
    case Finish =>
      assert Unfired(Next(s, e)) == s.sweep.rest[1..];
    case _ =>
  }

  lemma {:induction false} RunFires(s: State, evs: seq<Event>)
    requires Inv(s) && s.sweep.Sweeping? && Legal(s, evs) && WithinSweep(evs)
    ensures FiredBy(s, evs) + Unfired(Run(s, evs)) == Unfired(s) && Run(s, evs).sweep.Sweeping?
    decreases evs
  {
    if evs != [] {
      var t := Next(s, evs[0]);
      assert evs[0] in evs;
      StepInv(s, evs[0]);
      StepFires(s, evs[0]);
      RunFires(t, evs[1..]);
      Associative(StepFired(s, evs[0]), FiredBy(t, evs[1..]), Unfired(Run(s, evs)));
    }
  }

  /** What became of a timer whose callback has returned. */
  datatype Outcome = PutBack(addr: nat, when: int) | Deleted(addr: nat) | Astray(addr: nat)

  function StepSettled(s: State, e: Event): seq<Outcome>
    requires Enabled(s, e)
  {
    if !e.Finish? then []
    else
      var addr, t := s.sweep.rest[0].addr, Next(s, e);
      [if addr !in t.heap then Deleted(addr)
       else if InSet(t, addr) then PutBack(addr, t.heap[addr].when)
       else Astray(addr)]
  }

  function SettledBy(s: State, evs: seq<Event>): seq<Outcome>
    requires Legal(s, evs)
    decreases evs
  {
    if evs == [] then [] else StepSettled(s, evs[0]) + SettledBy(Next(s, evs[0]), evs[1..])
  }

  /** A repeating timer comes back one interval later, a one-shot timer goes. */
  function Expected(e: Entry, heap: map<nat, Timer>): Outcome {
    if e.addr in heap && Repeats(heap[e.addr]) then PutBack(e.addr, e.when + heap[e.addr].interval)
    else Deleted(e.addr)
  }

  function ExpectedAll(entries: seq<Entry>, heap: map<nat, Timer>): seq<Outcome> {
    seq(|entries|, i requires 0 <= i < |entries| => Expected(entries[i], heap))
  }

  /** The head of the batch shares its timer with no other entry. */
  lemma HeadIsAlone(timers: seq<Entry>, rest: seq<Entry>, heap: map<nat, Timer>, e: Entry)
    requires Partition(timers, rest, heap) && rest != [] && (e in timers || e in rest[1..])
    ensures rest[0] in rest && e.addr != rest[0].addr && e.addr in heap
  {
    assert Owns(heap, rest[0]) by { assert rest[0] in rest; }
    if e in rest[1..] {
      var j :| 0 < j < |rest| && rest[j] == e;
      assert Before(rest[0], rest[j]);
    }
    assert Owns(heap, e) && e != rest[0];
  }

  /** A step leaves the timers of entries that stay in the batch; at most it runs the head's callback. */
  lemma BatchTimerStays(s: State, e: Event, x: Entry)
    requires Partition(s.timers, Rest(s), s.heap) && s.sweep.Sweeping? && Enabled(s, e) && Ruled(s, e)
    requires !e.EndSweep? && x in Rest(Next(s, e))
    ensures x in Rest(s) && x.addr in s.heap && x.addr in Next(s, e).heap
    ensures Next(s, e).heap[x.addr].interval == s.heap[x.addr].interval
  {
    match e
    case Finish => FinishLeavesOthers(s, x);
    case Cancel(a) => CancelLeavesBatch(s, a, x);
    case Tick(_) => assert Owns(s.heap, x);
    case Add(_, _, _) => assert Owns(s.heap, x);
    case Fire =>
      assert Owns(s.heap, x);
      FireKeepsIntervals(s, x.addr);
    case _ =>
  }

  lemma FireKeepsIntervals(s: State, addr: nat)
    requires Enabled(s, Fire) && addr in s.heap
    ensures addr in FireNext(s).heap && FireNext(s).heap[addr].interval == s.heap[addr].interval
  {
  }

  lemma CancelLeavesBatch(s: State, addr: nat, x: Entry)
    requires Partition(s.timers, Rest(s), s.heap) && InSet(s, addr) && x in Rest(s)
    ensures x.addr in s.heap && x.addr in Canceled(s, addr).heap
    ensures Canceled(s, addr).heap[x.addr] == s.heap[x.addr]
  {
    assert Owns(s.heap, x) && Entry(s.heap[addr].when, addr) !in Rest(s);
    assert Canceled(s, addr).heap == s.heap[addr := s.heap[addr].(canceled := true)] - {addr};
  }

  lemma FinishLeavesOthers(s: State, x: Entry)
    requires Partition(s.timers, Rest(s), s.heap) && Enabled(s, Finish) && (x in s.timers || x in s.sweep.rest[1..])
    ensures x.addr in s.heap && x.addr in FinishNext(s).heap && FinishNext(s).heap[x.addr] == s.heap[x.addr]
    ensures x in s.timers ==> x in FinishNext(s).timers
    ensures x in s.sweep.rest[1..] ==> x in Rest(s)
  {
    var head := s.sweep.rest[0];
    HeadIsAlone(s.timers, Rest(s), s.heap, x);
    assert Owns(s.heap, head);
    FinishParts(s);
    InsertKeepsSet(s.timers, Entry(head.when + s.heap[head.addr].interval, head.addr));
  }

  /** The head is put back one interval later, or deleted. */
  lemma HeadIsSettled(s: State)
    requires Partition(s.timers, Rest(s), s.heap) && Enabled(s, Finish)
    ensures StepSettled(s, Finish) == [Expected(s.sweep.rest[0], s.heap)]
  {
    var e := s.sweep.rest[0];
    assert Owns(s.heap, e) by { assert e in Rest(s); }
    if Repeats(s.heap[e.addr]) { HeadIsPutBack(s); } else { FinishParts(s); }
  }

  lemma HeadIsPutBack(s: State)
    requires Sorted(s.timers) && Enabled(s, Finish) && Owns(s.heap, s.sweep.rest[0])
    requires Repeats(s.heap[s.sweep.rest[0].addr])
    ensures var e := s.sweep.rest[0];
            var t := FinishNext(s);
            InSet(t, e.addr) && t.heap[e.addr].when == e.when + s.heap[e.addr].interval
  {
    var e := s.sweep.rest[0];
    InsertKeepsSet(s.timers, Entry(e.when + s.heap[e.addr].interval, e.addr));
    FinishParts(s);
  }

  lemma ExpectationStays(s: State, e: Event)
    requires Partition(s.timers, Rest(s), s.heap) && s.sweep.Sweeping? && Enabled(s, e) && Ruled(s, e)
    requires !e.EndSweep?
    ensures ExpectedAll(Rest(Next(s, e)), Next(s, e).heap) == ExpectedAll(Rest(Next(s, e)), s.heap)
  {
    var after := Rest(Next(s, e));
    forall i | 0 <= i < |after|
      ensures Expected(after[i], Next(s, e).heap) == Expected(after[i], s.heap)
    {
      BatchTimerStays(s, e, after[i]);
    }
  }

  lemma StepSettles(s: State, e: Event)
    requires Partition(s.timers, Rest(s), s.heap) && s.sweep.Sweeping? && Enabled(s, e) && Ruled(s, e)
    requires !e.EndSweep?
    ensures StepSettled(s, e) + ExpectedAll(Rest(Next(s, e)), Next(s, e).heap) == ExpectedAll(Rest(s), s.heap)
  {
    ExpectationStays(s, e);
    if e.Finish? {
      HeadIsSettled(s);
      assert Rest(Next(s, e)) == s.sweep.rest[1..];
    } else {
      assert Rest(Next(s, e)) == Rest(s);
    }
  }

  lemma {:induction false} RunSettles(s: State, evs: seq<Event>)
    requires Inv(s) && s.sweep.Sweeping? && Legal(s, evs) && WithinSweep(evs)
    ensures SettledBy(s, evs) + ExpectedAll(Rest(Run(s, evs)), Run(s, evs).heap) == ExpectedAll(Rest(s), s.heap)
    decreases evs
  {
    if evs != [] {
      var t := Next(s, evs[0]);
      assert evs[0] in evs;
      StepInv(s, evs[0]);
      StepSettles(s, evs[0]);
      RunSettles(t, evs[1..]);
      Associative(StepSettled(s, evs[0]), SettledBy(t, evs[1..]), ExpectedAll(Rest(Run(s, evs)), Run(s, evs).heap));
    }
  }

  /** handleRead, from any sound state and with any calls from its callbacks: the callbacks run are those of
      the timers due when it began, each once, in deadline order, and of no other; each repeating one is put
      back one interval later and the others are deleted. If the timerfd was readable, it is then readable only
      with no timer set and for one that a callback added and cancelled again. */
  lemma HandleReadRunsExactlyTheExpired(s: State, evs: seq<Event>)
    requires Inv(s) && s.sweep.NoSweep? && Legal(Begin(s), evs) && WithinSweep(evs)
    requires Enabled(Run(Begin(s), evs), EndSweep)
    ensures var fired := FiredBy(Begin(s), evs);
            && fired <= s.timers
            && (forall e :: e in s.timers ==> (e in fired <==> e.when <= s.clock))
            && SettledBy(Begin(s), evs) == ExpectedAll(fired, s.heap)
    ensures var t := End(Run(Begin(s), evs));
            Inv(t) && t.sweep.NoSweep? && (t.timers != [] ==> !Readable(t))
    ensures var t := End(Run(Begin(s), evs));
            && (Readable(s) ==> (Readable(t) <==> t.timers == [] && DueBy(DueAfter(Begin(s), evs, None), t.clock)))
            && (Readable(s) && NeverSets(Begin(s), evs) ==> !Readable(t))
  {
    var b, fired := Begin(s), FiredBy(Begin(s), evs);
    BeginKeepsInv(s);
    RunFires(b, evs);
    assert fired + [] == fired;
    RunSettles(b, evs);
    assert SettledBy(b, evs) + [] == SettledBy(b, evs);
    FiredAreTheExpired(s);
    SweepEnds(b, evs);
    if Readable(s) { SweepEndsRead(b, evs); }
  }

  lemma SweepEndsRead(s: State, evs: seq<Event>)
    requires Inv(s) && s.armed.None? && Legal(s, evs) && Enabled(Run(s, evs), EndSweep)
    ensures var t := End(Run(s, evs));
            && (t.timers == [] ==> (Readable(t) <==> DueBy(DueAfter(s, evs, None), t.clock)))
            && (NeverSets(s, evs) ==> DueAfter(s, evs, None) == None)
  {
    RunArms(s, evs);
    if NeverSets(s, evs) { NeverSetStaysUnset(s, evs); }
  }

  lemma SweepEnds(s: State, evs: seq<Event>)
    requires Inv(s) && Legal(s, evs) && Enabled(Run(s, evs), EndSweep)
    ensures var t := End(Run(s, evs));
            Inv(t) && t.sweep.NoSweep? && (t.timers != [] ==> !Readable(t))
  {
    RunInv(s, evs);
    var t := Run(s, evs);
    EndKeepsInv(t);
    if t.timers != [] { DurationIsClamped(t.timers[0].when, t.clock); }
  }

  lemma FiredAreTheExpired(s: State)
    requires Sorted(s.timers) && s.sweep.NoSweep?
    ensures var batch := Begin(s).sweep.rest;
            batch <= s.timers && forall e :: e in s.timers ==> (e in batch <==> e.when <= s.clock)
  {
    var k := LowerBound(s.timers, ExpiredBound(s.clock));
    ExpiredSplitIsExact(s.timers, s.clock);
    forall e | e in s.timers
      ensures e in s.timers[..k] <==> e.when <= s.clock
    {
      var i :| 0 <= i < |s.timers| && s.timers[i] == e;
      if i < k { assert s.timers[..k][i] == e; }
    }
  }

  lemma FireLeavesOthers(s: State, x: Entry)
    requires Partition(s.timers, Rest(s), s.heap) && Enabled(s, Fire) && x in s.timers
    ensures x.addr in s.heap && x.addr in FireNext(s).heap && FireNext(s).heap[x.addr] == s.heap[x.addr]
  {
    HeadIsAlone(s.timers, Rest(s), s.heap, x);
  }

  lemma StepKeepsInSet(s: State, e: Event, addr: nat)
    requires Partition(s.timers, Rest(s), s.heap) && s.sweep.Sweeping? && Enabled(s, e) && Ruled(s, e)
    requires !e.EndSweep? && InSet(s, addr) && e != Cancel(addr)
    ensures InSet(Next(s, e), addr) && Next(s, e).heap[addr] == s.heap[addr]
  {
    var x := Entry(s.heap[addr].when, addr);
    match e
    case Add(a, when, _) => InsertKeepsSet(s.timers, Entry(when, a));
    case Cancel(a) => EraseKeepsSet(s.timers, Entry(s.heap[a].when, a));
    case Fire => FireLeavesOthers(s, x);
    case Finish => FinishLeavesOthers(s, x);
    case _ =>
  }

  /** A timer in the set is left alone by a sweep unless a callback cancels it. */
  lemma {:induction false} StaysInSet(s: State, evs: seq<Event>, addr: nat)
    requires Inv(s) && s.sweep.Sweeping? && Legal(s, evs) && WithinSweep(evs)
    requires InSet(s, addr) && Cancel(addr) !in evs
    ensures InSet(Run(s, evs), addr) && Run(s, evs).heap[addr] == s.heap[addr]
    decreases evs
  {
    if evs != [] {
      assert evs[0] in evs;
      StepInv(s, evs[0]);
      StepKeepsInSet(s, evs[0], addr);
      StaysInSet(Next(s, evs[0]), evs[1..], addr);
    }
  }

  predicate NeverAdds(evs: seq<Event>, addr: nat) {
    forall e :: e in evs ==> !(e.Add? && e.addr == addr)
  }

  lemma {:induction false} StaysDeleted(s: State, evs: seq<Event>, addr: nat)
    requires Inv(s) && s.sweep.Sweeping? && Legal(s, evs) && WithinSweep(evs)
    requires addr !in s.heap && NeverAdds(evs, addr)
    ensures addr !in Run(s, evs).heap
    decreases evs
  {
    if evs != [] {
      assert evs[0] in evs;
      StepInv(s, evs[0]);
      if s.sweep.rest != [] { assert s.sweep.rest[0] in Rest(s) && Owns(s.heap, s.sweep.rest[0]); }
      StaysDeleted(Next(s, evs[0]), evs[1..], addr);
    }
  }

  /** How a sweep leaves the timer of entry `e` of its batch, `interval` being the timer's. */
  predicate LeftSettled(t: State, evs: seq<Event>, e: Entry, interval: int) {
    if interval > 0 then
      Cancel(e.addr) !in evs ==> InSet(t, e.addr) && t.heap[e.addr].when == e.when + interval
    else
      NeverAdds(evs, e.addr) ==> e.addr !in t.heap
  }

  lemma ReturnedStaysSettled(s: State, evs: seq<Event>)
    requires Inv(s) && s.sweep.Sweeping? && Legal(s, evs) && WithinSweep(evs) && evs != [] && evs[0] == Finish
    ensures s.sweep.rest[0].addr in s.heap
    ensures LeftSettled(Run(s, evs), evs, s.sweep.rest[0], s.heap[s.sweep.rest[0].addr].interval)
  {
    var e, t := s.sweep.rest[0], Next(s, Finish);
    assert Owns(s.heap, e) by { assert e in Rest(s); }
    StepInv(s, Finish);
    FinishParts(s);
    if Repeats(s.heap[e.addr]) {
      HeadIsPutBack(s);
      if Cancel(e.addr) !in evs { StaysInSet(t, evs[1..], e.addr); }
    } else if NeverAdds(evs, e.addr) {
      StaysDeleted(t, evs[1..], e.addr);
    }
  }

  lemma StillInBatch(s: State, e: Event, x: Entry)
    requires Partition(s.timers, Rest(s), s.heap) && s.sweep.Sweeping? && Enabled(s, e) && Ruled(s, e)
    requires !e.EndSweep? && x in Rest(s) && !(e.Finish? && x == s.sweep.rest[0])
    ensures x in Rest(Next(s, e)) && x.addr in s.heap && x.addr in Next(s, e).heap
    ensures Next(s, e).heap[x.addr].interval == s.heap[x.addr].interval
  {
    if e.Finish? { assert s.sweep.rest == [s.sweep.rest[0]] + s.sweep.rest[1..]; }
    BatchTimerStays(s, e, x);
  }

  lemma SettledBefore(evs: seq<Event>, t: State, e: Entry, interval: int)
    requires evs != [] && LeftSettled(t, evs[1..], e, interval)
    ensures LeftSettled(t, evs, e, interval)
  {
  }

  /** Where a finished sweep leaves a timer of its batch: a repeating one in the set under its next deadline,
      unless cancelled after its return; another deleted, unless its address is used again. */
  lemma {:induction false} SweepSettlesItsBatch(s: State, evs: seq<Event>, e: Entry)
    requires Inv(s) && s.sweep.Sweeping? && Legal(s, evs) && WithinSweep(evs)
    requires Rest(Run(s, evs)) == [] && e in Rest(s)
    ensures e.addr in s.heap && LeftSettled(Run(s, evs), evs, e, s.heap[e.addr].interval)
    decreases evs
  {
    if evs[0].Finish? && e == s.sweep.rest[0] {
      ReturnedStaysSettled(s, evs);
    } else {
      var t := Next(s, evs[0]);
      assert evs[0] in evs;
      StepInv(s, evs[0]);
      StillInBatch(s, evs[0], e);
      SweepSettlesItsBatch(t, evs[1..], e);
      SettledBefore(evs, Run(s, evs), e, s.heap[e.addr].interval);
    }
  }

  // ----- handleRead with its callbacks -----

  /** When a callback is called, and what it does. */
  datatype Callback = Callback(starts: int, calls: seq<Event>)

  predicate IsCall(e: Event) {
    e.Tick? || e.Add? || e.Cancel?
  }

  predicate IsCalls(calls: seq<Event>) {
    forall e :: e in calls ==> IsCall(e)
  }

  function Turn(c: Callback): seq<Event> {
    [Tick(c.starts), Fire] + c.calls + [Finish]
  }

  function Turns(plan: seq<Callback>): seq<Event> {
    if plan == [] then [] else Turn(plan[0]) + Turns(plan[1..])
  }

  /** The steps of handleRead. */
  function SweepEvents(plan: seq<Callback>, ends: int): seq<Event> {
    [BeginSweep] + Turns(plan) + [Tick(ends), EndSweep]
  }

  lemma NextIsFirst(s: State, e: Event, rest: seq<Event>, evs: seq<Event>)
    requires evs == [e] + rest && Legal(s, evs)
    ensures Enabled(s, e) && Ruled(s, e) && Legal(Next(s, e), rest) && Run(Next(s, e), rest) == Run(s, evs)
  {
    assert evs[1..] == rest;
  }

  lemma FirstCall(calls: seq<Event>, after: seq<Event>)
    requires calls != []
    ensures calls + after == [calls[0]] + (calls[1..] + after)
  {
  }

  lemma LastEvent(s: State, e: Event)
    requires Legal(s, [e])
    ensures Enabled(s, e) && Run(s, [e]) == Next(s, e)
  {
    assert Run(Next(s, e), []) == Next(s, e);
  }

  lemma {:induction false} RunConcat(s: State, a: seq<Event>, b: seq<Event>)
    requires Legal(s, a + b)
    ensures Legal(s, a) && Legal(Run(s, a), b) && Run(s, a + b) == Run(Run(s, a), b)
    decreases a
  {
    if a == [] {
      assert a + b == b;
    } else {
      assert (a + b)[1..] == a[1..] + b;
      RunConcat(Next(s, a[0]), a[1..], b);
    }
  }

  lemma {:induction false} TurnsStayWithin(plan: seq<Callback>)
    requires forall c :: c in plan ==> IsCalls(c.calls)
    ensures WithinSweep(Turns(plan))
  {
    if plan != [] {
      TurnsStayWithin(plan[1..]);
      assert IsCalls(plan[0].calls);
    }
  }

  /** The steps of handleRead are a sweep in the sense of the results above, whatever the callbacks do. */
  lemma PlansAreSweeps(s: State, plan: seq<Callback>, ends: int)
    requires Legal(s, SweepEvents(plan, ends)) && forall c :: c in plan ==> IsCalls(c.calls)
    ensures s.sweep.NoSweep?
    ensures var evs := Turns(plan) + [Tick(ends)];
            && Legal(Begin(s), evs) && WithinSweep(evs) && Enabled(Run(Begin(s), evs), EndSweep)
            && Run(s, SweepEvents(plan, ends)) == End(Run(Begin(s), evs))
  {
    var evs := Turns(plan) + [Tick(ends)];
    NextIsFirst(s, BeginSweep, evs + [EndSweep], SweepEvents(plan, ends));
    RunConcat(Begin(s), evs, [EndSweep]);
    LastEvent(Run(Begin(s), evs), EndSweep);
    TurnsStayWithin(plan);
  }

  /** A plan is used up exactly when the batch is. */
  lemma PlanFits(s: State, plan: seq<Callback>, ends: int)
    requires Legal(s, Turns(plan) + [Tick(ends), EndSweep])
    ensures s.sweep.Sweeping? && (plan != [] <==> s.sweep.rest != [])
  {
    var evs := Turns(plan) + [Tick(ends), EndSweep];
    if plan == [] {
      NextIsFirst(s, Tick(ends), [EndSweep], evs);
    } else {
      assert evs == [Tick(plan[0].starts)] + evs[1..] && evs[1] == Fire;
      NextIsFirst(s, Tick(plan[0].starts), evs[1..], evs);
    }
  }

  /** The queue object. A sweep is split where a callback's own calls may come in. */
  class TimerQueue {
    var timers: seq<Entry>
    var heap: map<nat, Timer>
    var sweep: Sweep
    var armed: Option<int>
    var clock: int
    ghost var lastSet: int
    ghost var created: nat
    ghost var deleted: nat

    ghost function View(): State
      reads this
    {
      State(timers, heap, sweep, armed, lastSet, clock, created, deleted, false, false)
    }

    constructor (now: int)
      ensures View() == Init(now) && Inv(View())
    {
      timers, heap, sweep, armed, clock := [], map[], NoSweep, None, now;
      lastSet, created, deleted := now, 0, 0;
    }

    /** The timerfd is then due at `when`, but no sooner than a millisecond from now. */
    method TimerfdSet(when: int)
      modifies `armed, `lastSet
      ensures View() == old(View()).(armed := Some(Max(when, clock + MILLISECOND)), lastSet := clock)
    {
      DurationIsClamped(when, clock);
      var t := DurationFromNow(when, clock);
      armed := Some(clock + t.sec * SECOND + t.nsec);
      lastSet := clock;
    }

    method AddTimer(addr: nat, when: int, interval: int)
      requires Inv(View()) && addr > 0 && addr !in heap
      modifies this
      ensures Inv(View()) && View() == Next(old(View()), Add(addr, when, interval))
    {
      StepInv(View(), Add(addr, when, interval));
      assert Entry(when, addr) in timers ==> Owns(heap, Entry(when, addr));
      InsertTimer(addr, when, interval);
    }

    /** The new timer object, and what is done with it in the loop. */
    method InsertTimer(addr: nat, when: int, interval: int)
      requires addr !in heap && Entry(when, addr) !in timers
      modifies this
      ensures View() == Added(old(View()), addr, when, interval)
    {
      var entry := Entry(when, addr);
      heap, created := heap[addr := Timer(when, interval, false, when, [])], created + 1;
      assert entry !in timers;
      timers := Insert(timers, entry);
      if timers != [] && timers[0] == entry {
        DurationIsClamped(when, clock);
        TimerfdSet(when);
      }
    }

    method DeleteTimer(addr: nat)
      requires addr in heap
      modifies `heap, `deleted
      ensures View() == Delete(old(View()), addr)
    {
      heap, deleted := heap - {addr}, deleted + 1;
    }

    method CancelTimer(addr: nat)
      requires Inv(View()) && InSet(View(), addr)
      modifies this
      ensures Inv(View()) && View() == Next(old(View()), Cancel(addr))
    {
      StepInv(View(), Cancel(addr));
      assert Owns(heap, Entry(heap[addr].when, addr));
      EraseTimer(addr);
    }

    /** What cancelling does in the loop. */
    method EraseTimer(addr: nat)
      requires addr in heap && !heap[addr].canceled
      modifies this
      ensures View() == Canceled(old(View()), addr)
    {
      assert !heap[addr].canceled;
      heap := heap[addr := heap[addr].(canceled := true)];
      timers := Erase(timers, Entry(heap[addr].when, addr));
      DeleteTimer(addr);
    }

    method GetExpired(now: int) returns (entries: seq<Entry>)
      requires Sorted(timers)
      modifies `timers
      ensures entries + timers == old(timers) && Sorted(timers)
      ensures forall e :: e in entries ==> e.when <= now
      ensures forall e :: e in timers ==> now < e.when
      ensures entries == old(timers)[..LowerBound(old(timers), ExpiredBound(now))]
    {
      ExpiredSplitIsExact(timers, now);
      var end := LowerBound(timers, ExpiredBound(now));
      entries, timers := timers[..end], timers[end..];
    }

    /** handleRead up to the loop. */
    method StartSweep()
      requires Inv(View()) && sweep.NoSweep?
      modifies this
      ensures Inv(View()) && View() == Next(old(View()), BeginSweep) && !Readable(View())
    {
      StepInv(View(), BeginSweep);
      ReadAndCut();
    }

    method ReadAndCut()
      requires Sorted(timers)
      modifies this
      ensures View() == Begin(old(View())) && !Readable(View())
    {
      if armed.Some? && armed.value <= clock {
        armed := None;
      }
      var now := clock;
      var entries := GetExpired(now);
      sweep := Sweeping(now, entries, false);
    }

    /** The callback of the next expired timer is about to run. */
    method RunCallback()
      requires Inv(View()) && Enabled(View(), Fire)
      modifies this
      ensures Inv(View()) && View() == Next(old(View()), Fire)
    {
      StepInv(View(), Fire);
      var entry := sweep.rest[0];
      assert entry in Rest(View()) && Owns(heap, entry);
      var timer := heap[entry.addr];
      assert timer.when <= sweep.now;
      if !timer.canceled {
        heap := heap[entry.addr := timer.(fired := timer.fired + [clock])];
      }
      sweep := sweep.(running := true);
    }

    /** The callback has returned: put the timer back, or delete it. */
    method SettleTimer()
      requires Inv(View()) && Enabled(View(), Finish)
      modifies this
      ensures Inv(View()) && View() == Next(old(View()), Finish)
    {
      StepInv(View(), Finish);
      assert sweep.rest[0] in Rest(View()) && Owns(heap, sweep.rest[0]);
      PutBackOrDelete();
    }

    method PutBackOrDelete()
      requires Enabled(View(), Finish) && Owns(heap, sweep.rest[0])
      modifies this
      ensures View() == Next(old(View()), Finish)
    {
      var entry := sweep.rest[0];
      var timer := heap[entry.addr];
      sweep := sweep.(rest := sweep.rest[1..], running := false);
      if !timer.canceled && Repeats(timer) {
        timer := timer.(when := timer.when + timer.interval);
        heap := heap[entry.addr := timer];
        timers := Insert(timers, Entry(timer.when, entry.addr));
      } else {
        DeleteTimer(entry.addr);
      }
    }

    method FinishSweep()
      requires Inv(View()) && Enabled(View(), EndSweep)
      modifies this
      ensures Inv(View()) && View() == Next(old(View()), EndSweep)
    {
      StepInv(View(), EndSweep);
      sweep := NoSweep;
      if timers != [] {
        DurationIsClamped(timers[0].when, clock);
        TimerfdSet(timers[0].when);
      }
    }

    /** The calls a callback makes, and time passing in it. */
    method MakeCalls(calls: seq<Event>, ghost after: seq<Event>)
      requires Inv(View()) && IsCalls(calls) && Legal(View(), calls + after)
      modifies this
      ensures Inv(View()) && Legal(View(), after) && Run(View(), after) == Run(old(View()), calls + after)
    {
      var i := 0;
      ghost var left := calls + after;
      while i < |calls|
        invariant i <= |calls| && left == calls[i..] + after
        invariant Inv(View()) && Legal(View(), left)
        invariant Run(View(), left) == Run(old(View()), calls + after)
      {
        FirstCall(calls[i..], after);
        NextIsFirst(View(), calls[i], calls[i + 1..] + after, left);
        MakeCall(calls[i]);
        left := calls[i + 1..] + after;
        i := i + 1;
      }
      assert left == after;
    }

    method MakeCall(e: Event)
      requires Inv(View()) && Enabled(View(), e) && Ruled(View(), e) && IsCall(e)
      modifies this
      ensures Inv(View()) && View() == Next(old(View()), e)
    {
      StepInv(View(), e);
      match e {
        case Tick(to) => clock := to;
        case Add(addr, when, interval) => AddTimer(addr, when, interval);
        case Cancel(addr) => CancelTimer(addr);
      }
    }

    /** One turn of the loop over the expired timers. */
    method TakeTurn(c: Callback, ghost after: seq<Event>)
      requires Inv(View()) && IsCalls(c.calls) && Legal(View(), Turn(c) + after)
      modifies this
      ensures Inv(View()) && Legal(View(), after) && Run(View(), after) == Run(old(View()), Turn(c) + after)
    {
      ghost var returned := [Finish] + after;
      ghost var called := [Fire] + (c.calls + returned);
      NextIsFirst(View(), Tick(c.starts), called, Turn(c) + after);
      MakeCall(Tick(c.starts));
      NextIsFirst(View(), Fire, c.calls + returned, called);
      RunCallback();
      MakeCalls(c.calls, returned);
      NextIsFirst(View(), Finish, after, returned);
      SettleTimer();
    }

    /** handleRead whole, whatever its callbacks do and however long they take. */
    method HandleRead(plan: seq<Callback>, ends: int)
      requires Inv(View()) && Legal(View(), SweepEvents(plan, ends))
      requires forall c :: c in plan ==> IsCalls(c.calls)
      modifies this
      ensures Inv(View()) && View() == Run(old(View()), SweepEvents(plan, ends))
    {
      ghost var finish := [Tick(ends), EndSweep];
      NextIsFirst(View(), BeginSweep, Turns(plan) + finish, SweepEvents(plan, ends));
      StartSweep();
      var i := 0;
      PlanFits(View(), plan, ends);
      while sweep.rest != []
        invariant i <= |plan| && Inv(View()) && Legal(View(), Turns(plan[i..]) + finish)
        invariant sweep.Sweeping? && (sweep.rest != [] <==> i < |plan|)
        invariant Run(View(), Turns(plan[i..]) + finish) == Run(old(View()), SweepEvents(plan, ends))
        decreases |plan| - i
      {
        Associative(Turn(plan[i]), Turns(plan[i + 1..]), finish);
        TakeTurn(plan[i], Turns(plan[i + 1..]) + finish);
        i := i + 1;
        PlanFits(View(), plan[i..], ends);
      }
      NextIsFirst(View(), Tick(ends), [EndSweep], Turns(plan[i..]) + finish);
      MakeCall(Tick(ends));
      LastEvent(View(), EndSweep);
      FinishSweep();
    }

    method Destroy()
      requires Inv(View()) && sweep.NoSweep?
      modifies `heap, `deleted
      ensures View() == DeleteAll(old(View()), timers) && heap == map[]
    {
      DeleteAllFrees(View(), timers);
      DeleteEntries();
    }

    method DeleteEntries()
      requires Partition([], timers, heap)
      modifies `heap, `deleted
      ensures View() == DeleteAll(old(View()), timers)
    {
      var i := 0;
      ghost var left := timers;
      while i < |timers|
        invariant i <= |timers| && left == timers[i..] && Partition([], left, heap)
        invariant DeleteAll(View(), left) == DeleteAll(old(View()), timers)
      {
        DeleteHead(left, timers[i].addr);
        left := left[1..];
        i := i + 1;
      }
    }

    method DeleteHead(ghost entries: seq<Entry>, addr: nat)
      requires entries != [] && entries[0].addr == addr && Partition([], entries, heap)
      modifies `heap, `deleted
      ensures View() == Delete(old(View()), addr) && Partition([], entries[1..], heap)
    {
      assert Owns(heap, entries[0]) by { assert entries[0] in entries; }
      PartitionDrop([], entries, heap);
      DeleteTimer(addr);
    }
  }
}
