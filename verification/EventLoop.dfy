/**
 EventLoop.cpp: one thread that polls, dispatches and runs queued tasks, and any number of other threads
 that queue tasks or ask it to quit. An event is one atomic step; each queuing thread is `owing` between its
 store and its `wakeup()`, and so is the loop's own thread (`selfOwes`) when it queues from a task. The
 `assert` of `quit` is a step of its own, so that two threads may both pass it; `failed` records that it did
 not hold.
 */
module EventLoops {
  import opened Base

  type Task = nat

  const EVENTFD_MAX: nat := 0xffff_ffff_ffff_fffe

  datatype Pc = Outside | AtTop | Polling | Handling | Running

  datatype State = State(
    pc: Pc, quit: bool, doing: bool,
    pending: seq<Task>,
    round: seq<Task>,        // tasks swapped out and not yet run
    efd: nat,                // the eventfd counter
    wakeReported: bool,      // this poll reported the eventfd, not yet handled
    selfOwes: bool, owing: set<nat>,
    executed: seq<Task>,
    failed: bool)

  const INIT := State(Outside, false, false, [], [], 0, false, false, {}, [], false)

  datatype Event =
    | Start
    | CheckQuit
    | PollReturns(wake: bool)
    | HandleWakeup
    | SwapTasks
    | RunTask
    | EndRound
    | LoopPush(task: Task)
    | LoopWake
    | QuitCheck
    | LoopQuit
    | OtherPush(tid: nat, task: Task)
    | OtherQuit(tid: nat)
    | OtherWake(tid: nat)

  /** The loop's thread may run user code before the loop, in handlers and in tasks. A poll may return at any
      time, but reports the eventfd only when its counter is positive. */
  predicate Enabled(s: State, e: Event) {
    match e
    case Start => s.pc.Outside?
    case CheckQuit => s.pc.AtTop?
    case PollReturns(wake) => s.pc.Polling? && (wake ==> s.efd > 0)
    case HandleWakeup => s.pc.Handling? && s.wakeReported
    case SwapTasks => s.pc.Handling? && !s.wakeReported
    case RunTask => s.pc.Running? && s.round != [] && !s.selfOwes
    case EndRound => s.pc.Running? && s.round == [] && !s.selfOwes
    case LoopPush(_) => (s.pc.Outside? || s.pc.Handling? || s.pc.Running?) && !s.selfOwes
    case LoopWake => s.selfOwes
    case QuitCheck => true
    case LoopQuit => (s.pc.Outside? || s.pc.Handling? || s.pc.Running?) && !s.selfOwes
    case OtherPush(tid, _) => tid !in s.owing
    case OtherQuit(tid) => tid !in s.owing
    case OtherWake(tid) => tid in s.owing
  }

  /** Writing 1 to the eventfd; at its maximum the write fails and the counter stays. */
  function Bumped(efd: nat): nat {
    if efd < EVENTFD_MAX then efd + 1 else efd
  }

  function Next(s: State, e: Event): State
    requires Enabled(s, e)
  {
    match e
    case Start => s.(pc := AtTop, quit := false)
    case CheckQuit => if s.quit then s.(pc := Outside) else s.(pc := Polling)
    case PollReturns(wake) => s.(pc := Handling, wakeReported := wake)
    case HandleWakeup => s.(efd := 0, wakeReported := false)
    case SwapTasks => s.(pc := Running, round := s.pending, pending := [], doing := true)
    case RunTask => s.(executed := s.executed + [s.round[0]], round := s.round[1..])
    case EndRound => s.(pc := AtTop, doing := false)
    case LoopPush(task) => s.(pending := s.pending + [task], selfOwes := s.doing)
    case LoopWake => s.(efd := Bumped(s.efd), selfOwes := false)
    case QuitCheck => s.(failed := s.failed || s.quit)
    case LoopQuit => s.(quit := true)
    case OtherPush(tid, task) => s.(pending := s.pending + [task], owing := s.owing + {tid})
    case OtherQuit(tid) => s.(quit := true, owing := s.owing + {tid})
    case OtherWake(tid) => s.(efd := Bumped(s.efd), owing := s.owing - {tid})
  }

  /** The loop's own thread queues only from handlers and tasks. */
  predicate Ruled(s: State, e: Event) {
    e.LoopPush? ==> !s.pc.Outside?
  }

  predicate Legal(s: State, evs: seq<Event>)
    decreases evs
  {
    evs == [] || (Enabled(s, evs[0]) && Ruled(s, evs[0]) && Legal(Next(s, evs[0]), evs[1..]))
  }

  function Run(s: State, evs: seq<Event>): State
    requires Legal(s, evs)
    decreases evs
  {
    if evs == [] then s else Run(Next(s, evs[0]), evs[1..])
  }

  // ----- no lost wakeup -----

  /** A wakeup is there, or some other thread is just about to give one. */
  predicate WakeComing(s: State) {
    s.efd > 0 || s.owing != {}
  }

  /** About to block, or blocked, in poll: whatever needs the loop has a wakeup coming. */
  predicate PollIsSafe(s: State) {
    s.pc.Polling? && (s.pending != [] || s.quit) ==> WakeComing(s)
  }

  predicate Shape(s: State) {
    && (s.doing <==> s.pc.Running?)
    && (s.selfOwes ==> s.pc.Running?)
    && (s.round != [] ==> s.pc.Running?)
    && (s.wakeReported ==> s.pc.Handling?)
  }

  predicate Inv(s: State) {
    && Shape(s)
    && ((s.pc.Outside? || s.pc.AtTop? || s.pc.Polling?) && s.pending != [] ==> WakeComing(s))
    && (s.pc.Running? && s.pending != [] ==> WakeComing(s) || s.selfOwes)
    && (s.pc.Polling? && s.quit ==> WakeComing(s))
  }

  lemma StepInv(s: State, e: Event)
    requires Inv(s) && Enabled(s, e) && Ruled(s, e)
    ensures Inv(Next(s, e))
  {
    match e
    case OtherPush(tid, _) => assert tid in Next(s, e).owing;
    case OtherQuit(tid) => assert tid in Next(s, e).owing;
    case _ =>
  }

  lemma StepKeeps(s: State, e: Event)
    requires Shape(s) && Enabled(s, e)
    ensures Shape(Next(s, e)) && (Inv(s) && Ruled(s, e) ==> Inv(Next(s, e)))
  {
    if Inv(s) && Ruled(s, e) { StepInv(s, e); }
  }

  lemma {:induction false} RunInv(s: State, evs: seq<Event>)
    requires Inv(s) && Legal(s, evs)
    ensures Inv(Run(s, evs))
    decreases evs
  {
    if evs != [] {
      StepInv(s, evs[0]);
      RunInv(Next(s, evs[0]), evs[1..]);
    }
  }

  /** In every interleaving, with any number of quits, whenever the loop blocks in poll with a task queued or a
      quit asked for since it last looked, the eventfd is readable or another thread is between its store and
      its wakeup. */
  lemma NoLostWakeup(evs: seq<Event>)
    requires Legal(INIT, evs)
    ensures PollIsSafe(Run(INIT, evs))
  {
    RunInv(INIT, evs);
  }

  ghost predicate EveryRunIsSafe(s: State) {
    forall evs :: Legal(s, evs) ==> PollIsSafe(Run(s, evs))
  }

  /** The run that blocks at once. */
  lemma BlocksAtOnce(s: State) returns (evs: seq<Event>)
    requires s.pc.AtTop? && !s.quit && s.pending != [] && !WakeComing(s)
    ensures Legal(s, evs) && !PollIsSafe(Run(s, evs))
  {
    evs := [CheckQuit];
    var polling := Next(s, evs[0]);
    assert evs[1..] == [] && Legal(polling, evs[1..]) && Run(polling, evs[1..]) == polling;
    assert Run(s, evs) == polling;
  }

  /** `loop()` entered in any state: every run from there is safe if and only if at entry no task is queued,
      or the eventfd is readable, or another thread still owes its wakeup. Tasks the loop's own thread queued
      before entering give no wakeup, and are what the condition catches. */
  lemma SafeFromEntryIff(s: State)
    requires Shape(s) && s.pc.Outside?
    ensures EveryRunIsSafe(Next(s, Start)) <==> (s.pending == [] || WakeComing(s))
  {
    var entered := Next(s, Start);
    if s.pending == [] || WakeComing(s) {
      forall evs | Legal(entered, evs)
        ensures PollIsSafe(Run(entered, evs))
      {
        RunInv(entered, evs);
      }
    } else {
      var evs := BlocksAtOnce(entered);
    }
  }

  /** A readable eventfd is not lost: until the tasks queued at a poll are taken into a round, whatever other
      threads and handlers do, the loop's own next step can be made, and the round it ends in begins with them. */
  lemma {:induction false} WakeupBringsTasksIn(s: State, evs: seq<Event>)
    requires (s.pc.Polling? && s.efd > 0) || s.pc.Handling?
    requires Legal(s, evs) && SwapTasks !in evs
    ensures var t := Run(s, evs);
            || Enabled(t, PollReturns(true))
            || Enabled(t, HandleWakeup)
            || (Enabled(t, SwapTasks) && s.pending <= Next(t, SwapTasks).round)
    ensures s.pending <= Run(s, evs).pending
    decreases evs
  {
    if evs != [] {
      assert evs[0] in evs;
      WakeupBringsTasksIn(Next(s, evs[0]), evs[1..]);
    }
  }

  // ----- the eventfd -----

  /** The wakeups since the eventfd was last emptied, `before` being those before `evs`. */
  function WakesSince(evs: seq<Event>, before: nat): nat
    decreases evs
  {
    if evs == [] then before
    else WakesSince(evs[1..], if evs[0].HandleWakeup? then 0
                              else if evs[0].LoopWake? || evs[0].OtherWake? then before + 1
                              else before)
  }

  function Capped(n: nat): nat {
    if n < EVENTFD_MAX then n else EVENTFD_MAX
  }

  lemma {:induction false} RunWakes(s: State, evs: seq<Event>, before: nat)
    requires Legal(s, evs) && s.efd == Capped(before)
    ensures Run(s, evs).efd == Capped(WakesSince(evs, before))
    decreases evs
  {
    if evs != [] {
      RunWakes(Next(s, evs[0]), evs[1..], if evs[0].HandleWakeup? then 0
                                          else if evs[0].LoopWake? || evs[0].OtherWake? then before + 1
                                          else before);
    }
  }

  /** In every run the eventfd counts the wakeups since it was last read, up to its maximum. */
  lemma EventfdCountsWakeups(evs: seq<Event>)
    requires Legal(INIT, evs)
    ensures Run(INIT, evs).efd == Capped(WakesSince(evs, 0))
  {
    RunWakes(INIT, evs, 0);
  }

  predicate NoWakes(evs: seq<Event>) {
    forall e :: e in evs ==> !e.LoopWake? && !e.OtherWake?
  }

  lemma {:induction false} NoWakesCounted(evs: seq<Event>)
    requires NoWakes(evs)
    ensures WakesSince(evs, 0) == 0
    decreases evs
  {
    if evs != [] {
      assert evs[0] in evs;
      NoWakesCounted(evs[1..]);
    }
  }

  /** A wakeup is consumed: handled, it lets the loop go on to its tasks, and until there is another no poll
      reports the eventfd again. */
  lemma HandledWakeupIsGone(s: State, evs: seq<Event>)
    requires Enabled(s, HandleWakeup) && Legal(Next(s, HandleWakeup), evs) && NoWakes(evs)
    ensures Enabled(Next(s, HandleWakeup), SwapTasks)
    ensures !Enabled(Run(Next(s, HandleWakeup), evs), PollReturns(true))
  {
    RunWakes(Next(s, HandleWakeup), evs, 0);
    NoWakesCounted(evs);
  }

  // ----- the assert of quit -----

  /** Whether a quit was stored since the loop was last entered. */
  predicate Asked(asked: bool, e: Event) {
    if e.Start? then false else asked || e.LoopQuit? || e.OtherQuit?
  }

  /** No call of `quit` comes after the store of another, within one run of the loop. */
  predicate QuitsOnce(evs: seq<Event>, asked: bool)
    decreases evs
  {
    evs == [] || ((evs[0].QuitCheck? ==> !asked) && QuitsOnce(evs[1..], Asked(asked, evs[0])))
  }

  predicate AskedIn(evs: seq<Event>, asked: bool)
    decreases evs
  {
    if evs == [] then asked else AskedIn(evs[1..], Asked(asked, evs[0]))
  }

  lemma {:induction false} RunQuits(s: State, evs: seq<Event>)
    requires Legal(s, evs)
    ensures Run(s, evs).quit <==> AskedIn(evs, s.quit)
    decreases evs
  {
    if evs != [] { RunQuits(Next(s, evs[0]), evs[1..]); }
  }

  /** The loop is left at its test if and only if a quit was stored since it was entered; else it polls. */
  lemma LeavesIffAsked(evs: seq<Event>)
    requires Legal(INIT, evs) && Enabled(Run(INIT, evs), CheckQuit)
    ensures var t := Next(Run(INIT, evs), CheckQuit);
            if AskedIn(evs, false) then t.pc.Outside? else t.pc.Polling?
  {
    RunQuits(INIT, evs);
  }

  lemma {:induction false} RunChecks(s: State, evs: seq<Event>)
    requires Legal(s, evs)
    ensures Run(s, evs).failed <==> s.failed || !QuitsOnce(evs, s.quit)
    decreases evs
  {
    if evs != [] { RunChecks(Next(s, evs[0]), evs[1..]); }
  }

  /** The assert of `quit` holds throughout a run if and only if none is called after another's store. */
  lemma QuitAssertHoldsIff(evs: seq<Event>)
    requires Legal(INIT, evs)
    ensures !Run(INIT, evs).failed <==> QuitsOnce(evs, false)
  {
    RunChecks(INIT, evs);
  }

  // ----- every task once, in order -----

  function PushedTasks(evs: seq<Event>): seq<Task> {
    if evs == [] then []
    else (if evs[0].LoopPush? || evs[0].OtherPush? then [evs[0].task] else []) + PushedTasks(evs[1..])
  }

  /** Run, then this round's, then waiting. */
  function Line(s: State): seq<Task> {
    s.executed + s.round + s.pending
  }

  lemma StepOrder(s: State, e: Event)
    requires Shape(s) && Enabled(s, e)
    ensures var t := Next(s, e);
            Shape(t) && Line(t) == Line(s) + PushedTasks([e])
  {
    assert PushedTasks([e]) == if e.LoopPush? || e.OtherPush? then [e.task] else [];
    match e
    case RunTask => assert s.round == [s.round[0]] + s.round[1..];
    case SwapTasks => assert s.round == [] && Line(s) == s.executed + s.pending;
    case LoopPush(task) => Associative(s.executed + s.round, s.pending, [task]);
    case OtherPush(_, task) => Associative(s.executed + s.round, s.pending, [task]);
    case _ => assert Line(Next(s, e)) == Line(s);
  }

  lemma {:induction false} RunOrder(s: State, evs: seq<Event>)
    requires Shape(s) && Legal(s, evs)
    ensures Line(Run(s, evs)) == Line(s) + PushedTasks(evs)
    decreases evs
  {
    if evs != [] {
      var t := Next(s, evs[0]);
      StepOrder(s, evs[0]);
      RunOrder(t, evs[1..]);
      assert PushedTasks(evs) == PushedTasks([evs[0]]) + PushedTasks(evs[1..]);
      Associative(Line(s), PushedTasks([evs[0]]), PushedTasks(evs[1..]));
    }
  }

  /** Run, waiting in the round and waiting to be swapped: together exactly the tasks queued, each once, in
      the order in which the mutex was taken. */
  lemma TasksRunOnceInOrder(evs: seq<Event>)
    requires Legal(INIT, evs)
    ensures var s := Run(INIT, evs); s.executed + s.round + s.pending == PushedTasks(evs)
  {
    RunOrder(INIT, evs);
  }

  predicate WithinRound(evs: seq<Event>) {
    forall i :: 0 <= i < |evs| ==> !evs[i].EndRound?
  }

  lemma {:induction false} RoundKeepsItsTasks(s: State, evs: seq<Event>)
    requires Shape(s) && s.pc.Running? && Legal(s, evs) && WithinRound(evs)
    ensures var t := Run(s, evs); t.pc.Running? && t.executed + t.round == s.executed + s.round
    decreases evs
  {
    if evs != [] {
      StepOrder(s, evs[0]);
      if evs[0].RunTask? { assert s.round == [s.round[0]] + s.round[1..]; }
      RoundKeepsItsTasks(Next(s, evs[0]), evs[1..]);
    }
  }

  /** A round that began with n queued tasks and may end has run exactly those n; whatever was queued
      meanwhile, by its tasks or by other threads, still waits. */
  lemma RoundRunsExactlyTheSwappedTasks(s: State, evs: seq<Event>)
    requires Shape(s) && Enabled(s, SwapTasks)
    requires Legal(Next(s, SwapTasks), evs) && WithinRound(evs)
    requires Enabled(Run(Next(s, SwapTasks), evs), EndRound)
    ensures var t := Run(Next(s, SwapTasks), evs);
            t.executed == s.executed + s.pending && t.pending == PushedTasks(evs)
  {
    var start := Next(s, SwapTasks);
    RoundKeepsItsTasks(start, evs);
    RunOrder(start, evs);
    var t := Run(start, evs);
    assert t.executed == s.executed + s.pending;
    assert t.executed + t.round + t.pending == t.executed + t.pending;
    assert s.executed + s.pending + [] + PushedTasks(evs) == t.executed + PushedTasks(evs);
    assert (t.executed + t.pending)[|t.executed|..] == (t.executed + PushedTasks(evs))[|t.executed|..];
  }

  // ----- a round as doPendingTasks makes it -----

  /** What user code in a task, and other threads meanwhile, may do. */
  predicate IsCall(e: Event) {
    e.LoopPush? || e.LoopWake? || e.LoopQuit? || e.OtherPush? || e.OtherQuit? || e.OtherWake?
  }

  /** The steps between the swap and the end of a round: tasks, and calls before, in and between them. */
  predicate RoundSteps(steps: seq<Event>) {
    forall i :: 0 <= i < |steps| ==> steps[i].RunTask? || IsCall(steps[i])
  }

  function WholeRound(steps: seq<Event>): seq<Event> {
    [SwapTasks] + steps + [EndRound]
  }

  lemma NextIsFirst(s: State, e: Event, rest: seq<Event>, evs: seq<Event>)
    requires evs == [e] + rest && Legal(s, evs)
    ensures Enabled(s, e) && Ruled(s, e) && Legal(Next(s, e), rest) && Run(Next(s, e), rest) == Run(s, evs)
  {
    assert evs[1..] == rest;
  }

  lemma FirstStep(steps: seq<Event>, i: nat)
    requires i < |steps|
    ensures steps[i..] + [EndRound] == [steps[i]] + (steps[i + 1..] + [EndRound])
  {
  }

  /** Between calls, the round goes on exactly while it has tasks. */
  lemma RoundGoesOn(s: State, steps: seq<Event>, i: nat)
    requires i <= |steps| && (i == |steps| || steps[i].RunTask?) && Legal(s, steps[i..] + [EndRound])
    ensures s.round != [] <==> i < |steps|
  {
    if i < |steps| {
      FirstStep(steps, i);
    } else {
      assert steps[i..] + [EndRound] == [EndRound];
    }
  }

  lemma LastEvent(s: State, e: Event)
    requires Legal(s, [e])
    ensures Enabled(s, e) && Run(s, [e]) == Next(s, e)
  {
    assert Run(Next(s, e), []) == Next(s, e);
  }

  lemma {:induction false} RunConcat(s: State, a: seq<Event>, b: seq<Event>)
    requires Legal(s, a + b)
    ensures Legal(s, a) && Legal(Run(s, a), b) && Run(s, a + b) == Run(Run(s, a), b)
    decreases a
  {
    if a == [] {
      assert a + b == b;
    } else {
      assert (a + b)[1..] == a[1..] + b;
      RunConcat(Next(s, a[0]), a[1..], b);
    }
  }

  /** A whole round is one of those of the result above, and runs what was queued when it began. */
  lemma WholeRoundRunsTheQueue(s: State, steps: seq<Event>)
    requires Shape(s) && Legal(s, WholeRound(steps)) && RoundSteps(steps)
    ensures var t := Run(s, WholeRound(steps));
            t.executed == s.executed + s.pending && t.pending == PushedTasks(steps)
  {
    NextIsFirst(s, SwapTasks, steps + [EndRound], WholeRound(steps));
    RunConcat(Next(s, SwapTasks), steps, [EndRound]);
    LastEvent(Run(Next(s, SwapTasks), steps), EndRound);
    RoundRunsExactlyTheSwappedTasks(s, steps);
  }

  /** The loop object. Members that other threads may interleave with are split where they can. */
  class EventLoop {
    var pc: Pc
    var quit: bool
    var doingPendingTasks: bool
    var pendingTasks: seq<Task>
    var wakeupCounter: nat
    var wakeReported: bool
    ghost var round: seq<Task>
    ghost var selfOwes: bool
    ghost var owing: set<nat>
    ghost var executed: seq<Task>

    ghost function View(): State
      reads this
    {
      State(pc, quit, doingPendingTasks, pendingTasks, round, wakeupCounter, wakeReported, selfOwes, owing,
            executed, false)
    }

    constructor ()
      ensures View() == INIT && Inv(View())
    {
      pc, quit, doingPendingTasks, pendingTasks := Outside, false, false, [];
      wakeupCounter, wakeReported := 0, false;
      round, selfOwes, owing, executed := [], false, {}, [];
    }

    method Wakeup()
      modifies `wakeupCounter
      ensures wakeupCounter == Bumped(old(wakeupCounter))
    {
      if wakeupCounter < EVENTFD_MAX {
        wakeupCounter := wakeupCounter + 1;
      }
    }

    /** queueInLoop on the loop's thread: before the loop, from a handler or from a task. */
    method QueueInLoop(task: Task)
      requires Shape(View()) && Enabled(View(), LoopPush(task))
      modifies this
      ensures Shape(View()) && (old(Inv(View())) && !pc.Outside? ==> Inv(View()))
      ensures var pushed := Next(old(View()), LoopPush(task));
              View() == if old(doingPendingTasks) then Next(pushed, LoopWake) else pushed
    {
      pendingTasks := pendingTasks + [task];
      if doingPendingTasks {
        Wakeup();
      }
    }

    /** queueInLoop on another thread: the locked store, and then the wakeup. */
    method PushFromElsewhere(ghost tid: nat, task: Task)
      requires Shape(View()) && tid !in owing
      modifies this
      ensures old(Inv(View())) ==> Inv(View())
      ensures Shape(View()) && View() == Next(old(View()), OtherPush(tid, task))
    {
      StepKeeps(View(), OtherPush(tid, task));
      pendingTasks := pendingTasks + [task];
      owing := owing + {tid};
    }

    /** The assert of quit, on whichever thread: whether it holds. */
    method CheckNotQuit() returns (holds: bool)
      ensures holds <==> !Next(View(), QuitCheck).failed
    {
      holds := !quit;
    }

    /** The rest of quit, on the loop's thread. */
    method QuitInLoop()
      requires Shape(View()) && Enabled(View(), LoopQuit)
      modifies `quit
      ensures old(Inv(View())) ==> Inv(View())
      ensures Shape(View()) && View() == Next(old(View()), LoopQuit)
    {
      StepKeeps(View(), LoopQuit);
      quit := true;
    }

    /** Its store on another thread, perhaps not the first. */
    method QuitFromElsewhere(ghost tid: nat)
      requires Shape(View()) && tid !in owing
      modifies this
      ensures old(Inv(View())) ==> Inv(View())
      ensures Shape(View()) && View() == Next(old(View()), OtherQuit(tid))
    {
      StepKeeps(View(), OtherQuit(tid));
      quit := true;
      owing := owing + {tid};
    }

    method WakeFromElsewhere(ghost tid: nat)
      requires Shape(View()) && tid in owing
      modifies this
      ensures old(Inv(View())) ==> Inv(View())
      ensures Shape(View()) && View() == Next(old(View()), OtherWake(tid))
    {
      StepKeeps(View(), OtherWake(tid));
      Wakeup();
      owing := owing - {tid};
    }

    method EnterLoop()
      requires Shape(View()) && pc.Outside?
      modifies this
      ensures old(Inv(View())) ==> Inv(View())
      ensures Shape(View()) && View() == Next(old(View()), Start)
    {
      StepKeeps(View(), Start);
      pc := AtTop;
      quit := false;
    }

    method TestQuit()
      requires Shape(View()) && pc.AtTop?
      modifies this
      ensures old(Inv(View())) ==> Inv(View())
      ensures Shape(View()) && View() == Next(old(View()), CheckQuit)
    {
      StepKeeps(View(), CheckQuit);
      pc := if quit then Outside else Polling;
    }

    method PollReturn(wake: bool)
      requires Shape(View()) && Enabled(View(), PollReturns(wake))
      modifies this
      ensures old(Inv(View())) ==> Inv(View())
      ensures Shape(View()) && View() == Next(old(View()), PollReturns(wake))
    {
      StepKeeps(View(), PollReturns(wake));
      pc, wakeReported := Handling, wake;
    }

    method HandleRead()
      requires Shape(View()) && pc.Handling? && wakeReported
      modifies this
      ensures old(Inv(View())) ==> Inv(View())
      ensures Shape(View()) && View() == Next(old(View()), HandleWakeup) && wakeupCounter == 0
    {
      StepKeeps(View(), HandleWakeup);
      wakeupCounter, wakeReported := 0, false;
    }

    /** The two halves of queueInLoop on the loop's thread, where another thread may come between. */
    method StoreTask(task: Task)
      requires Shape(View()) && Enabled(View(), LoopPush(task))
      modifies this
      ensures old(Inv(View())) && !pc.Outside? ==> Inv(View())
      ensures Shape(View()) && View() == Next(old(View()), LoopPush(task))
    {
      StepKeeps(View(), LoopPush(task));
      pendingTasks := pendingTasks + [task];
      selfOwes := doingPendingTasks;
    }

    method WakeSelf()
      requires Shape(View()) && selfOwes
      modifies this
      ensures old(Inv(View())) ==> Inv(View())
      ensures Shape(View()) && View() == Next(old(View()), LoopWake)
    {
      StepKeeps(View(), LoopWake);
      Wakeup();
      selfOwes := false;
    }

    method Perform(e: Event)
      requires Shape(View()) && Enabled(View(), e) && Ruled(View(), e) && IsCall(e)
      modifies this
      ensures old(Inv(View())) ==> Inv(View())
      ensures Shape(View()) && View() == Next(old(View()), e)
    {
      match e {
        case LoopPush(task) => StoreTask(task);
        case LoopWake => WakeSelf();
        case LoopQuit => QuitInLoop();
        case OtherPush(tid, task) => PushFromElsewhere(tid, task);
        case OtherQuit(tid) => QuitFromElsewhere(tid);
        case OtherWake(tid) => WakeFromElsewhere(tid);
      }
    }

    /** The calls made from step `i` on, up to the next task. */
    method PerformCalls(steps: seq<Event>, i: nat) returns (j: nat)
      requires i <= |steps| && RoundSteps(steps) && Shape(View()) && Legal(View(), steps[i..] + [EndRound])
      modifies this
      ensures i <= j <= |steps| && (j == |steps| || steps[j].RunTask?)
      ensures old(Inv(View())) ==> Inv(View())
      ensures Shape(View()) && Legal(View(), steps[j..] + [EndRound])
      ensures Run(View(), steps[j..] + [EndRound]) == Run(old(View()), steps[i..] + [EndRound])
      ensures pc == old(pc) && round == old(round)
    {
      j := i;
      ghost var left := steps[i..] + [EndRound];
      while j < |steps| && !steps[j].RunTask?
        invariant i <= j <= |steps| && left == steps[j..] + [EndRound]
        invariant Shape(View()) && (old(Inv(View())) ==> Inv(View())) && Legal(View(), left)
        invariant Run(View(), left) == Run(old(View()), steps[i..] + [EndRound])
        invariant pc == old(pc) && round == old(round)
      {
        FirstStep(steps, j);
        NextIsFirst(View(), steps[j], steps[j + 1..] + [EndRound], left);
        Perform(steps[j]);
        left := steps[j + 1..] + [EndRound];
        j := j + 1;
      }
    }

    /** The oldest task of the round runs. */
    method RunNextTask()
      requires Shape(View()) && Enabled(View(), RunTask)
      modifies this
      ensures old(Inv(View())) ==> Inv(View())
      ensures Shape(View()) && View() == Next(old(View()), RunTask)
    {
      StepKeeps(View(), RunTask);
      executed, round := executed + [round[0]], round[1..];
    }

    /** One turn of its loop: a task, and the calls up to the next one. */
    method TakeTurn(steps: seq<Event>, i: nat) returns (j: nat)
      requires i <= |steps| && (i == |steps| || steps[i].RunTask?) && round != []
      requires RoundSteps(steps) && Shape(View()) && Legal(View(), steps[i..] + [EndRound])
      modifies this
      ensures j <= |steps| && (j == |steps| || steps[j].RunTask?) && round == old(round)[1..]
      ensures old(Inv(View())) ==> Inv(View())
      ensures Shape(View()) && Legal(View(), steps[j..] + [EndRound])
      ensures Run(View(), steps[j..] + [EndRound]) == Run(old(View()), steps[i..] + [EndRound])
    {
      RoundGoesOn(View(), steps, i);
      FirstStep(steps, i);
      NextIsFirst(View(), RunTask, steps[i + 1..] + [EndRound], steps[i..] + [EndRound]);
      RunNextTask();
      j := PerformCalls(steps, i + 1);
    }

    /** doPendingTasks whole, whatever its tasks and other threads do meanwhile: every task queued when it began
        runs once, in order, and what was queued since waits for the next round. */
    method DoPendingTasks(steps: seq<Event>)
      requires Shape(View()) && RoundSteps(steps) && Legal(View(), WholeRound(steps))
      modifies this
      ensures old(Inv(View())) ==> Inv(View())
      ensures Shape(View()) && View() == Run(old(View()), WholeRound(steps))
      ensures executed == old(executed) + old(pendingTasks) && pendingTasks == PushedTasks(steps)
    {
      WholeRoundRunsTheQueue(View(), steps);
      NextIsFirst(View(), SwapTasks, steps + [EndRound], WholeRound(steps));
      var tasks := TakeTasks();
      assert steps[0..] == steps;
      var i: nat := PerformCalls(steps, 0);
      var k := 0;
      while k < |tasks|
        invariant i <= |steps| && (i == |steps| || steps[i].RunTask?) && k <= |tasks| && round == tasks[k..]
        invariant Shape(View()) && (old(Inv(View())) ==> Inv(View())) && Legal(View(), steps[i..] + [EndRound])
        invariant Run(View(), steps[i..] + [EndRound]) == Run(old(View()), WholeRound(steps))
      {
        i := TakeTurn(steps, i);
        k := k + 1;
      }
      RoundGoesOn(View(), steps, i);
      assert steps[i..] + [EndRound] == [EndRound];
      LastEvent(View(), EndRound);
      LeaveRound();
    }

    /** The swap under the mutex. */
    method TakeTasks() returns (tasks: seq<Task>)
      requires Shape(View()) && Enabled(View(), SwapTasks)
      modifies this
      ensures old(Inv(View())) ==> Inv(View())
      ensures Shape(View()) && View() == Next(old(View()), SwapTasks) && tasks == old(pendingTasks)
    {
      StepKeeps(View(), SwapTasks);
      tasks := pendingTasks;
      pendingTasks, pc, round := [], Running, tasks;
      doingPendingTasks := true;
    }

    method LeaveRound()
      requires Shape(View()) && Enabled(View(), EndRound)
      modifies this
      ensures old(Inv(View())) ==> Inv(View())
      ensures Shape(View()) && View() == Next(old(View()), EndRound)
    {
      StepKeeps(View(), EndRound);
      doingPendingTasks, pc := false, AtTop;
    }
  }
}
