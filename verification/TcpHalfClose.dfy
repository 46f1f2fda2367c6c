/**
 TcpConnection.cpp: when, how often and after which bytes a connection shuts its sending side, for calls on the
 loop's thread and for calls on any.
 */
module TcpHalfCloses {
  import opened Base
  import opened BigEndian
  import opened Channels
  import opened TcpProtocol

  // ----- how often -----

  /** `shutdown` calls of other threads that have won their exchange: queued functions and calls about to queue. */
  function Coming(c: Conn): nat {
    multiset(c.tasks)[ShutdownTask] + multiset(c.others)[OweShutdown]
  }

  /** The queued function of such a call runs on an open connection. */
  predicate RunsShutdown(c: Conn, e: Event) {
    e.EvTask? && c.tasks != [] && c.tasks[0].ShutdownTask? && Open(c)
  }

  /** After SHUT_WR the kernel refuses a write with EPIPE. */
  predicate KernelRefuses(c: Conn, e: Event) {
    c.halfCloses > 0 && DirectWrite(c, e) ==> e.r == Failed(BrokenPipe)
  }

  predicate RefusedAfterHalfClose(c: Conn, evs: seq<Event>)
    requires Legal(c, evs)
    decreases evs
  {
    evs == [] || (KernelRefuses(c, evs[0]) && RefusedAfterHalfClose(Next(c, evs[0]), evs[1..]))
  }

  /** Somewhere in the run a queued shutdown function runs on an open connection already half-closed. */
  predicate LateShutdown(c: Conn, evs: seq<Event>)
    requires Legal(c, evs)
    decreases evs
  {
    evs != [] && ((c.halfCloses > 0 && RunsShutdown(c, evs[0])) || LateShutdown(Next(c, evs[0]), evs[1..]))
  }

  lemma CountFirst<T>(s: seq<T>, x: T)
    requires s != []
    ensures multiset(s)[x] == multiset(s[1..])[x] + if s[0] == x then 1 else 0
  {
    assert s == [s[0]] + s[1..];
  }

  lemma CountWithout<T>(s: seq<T>, i: nat, x: T)
    requires i < |s|
    ensures multiset(s)[x] == multiset(Without(s, i))[x] + if s[i] == x then 1 else 0
  {
    assert s == s[..i] + [s[i]] + s[i + 1..];
    assert multiset(s) == multiset(s[..i]) + multiset{s[i]} + multiset(s[i + 1..]);
  }

  lemma CountUpdate<T>(s: seq<T>, i: nat, y: T, x: T)
    requires i < |s|
    ensures multiset(s[i := y])[x] + (if s[i] == x then 1 else 0) == multiset(s)[x] + if y == x then 1 else 0
  {
    CountWithout(s, i, x);
    CountWithout(s[i := y], i, x);
    assert Without(s[i := y], i) == Without(s, i);
  }

  predicate WinsExchange(c: Conn, e: Event) {
    e.EvExchange? && e.who < |c.others| && c.others[e.who].ShuttingDown? && c.state.Connected?
  }

  predicate PopsShutdown(c: Conn, e: Event) {
    e.EvTask? && c.tasks != [] && c.tasks[0].ShutdownTask?
  }

  lemma ExchangeComing(c: Conn, who: nat)
    requires Enabled(c, EvExchange(who))
    ensures Coming(Exchange(c, who)) == Coming(c) + if WinsExchange(c, EvExchange(who)) then 1 else 0
  {
    CountWithout(c.others, who, OweShutdown);
    CountUpdate(c.others, who, OweShutdown, OweShutdown);
    CountUpdate(c.others, who, OweForceClose, OweShutdown);
  }

  lemma OtherComing(c: Conn, e: Event)
    requires Enabled(c, e) && !OnLoopThread(e)
    ensures Coming(Next(c, e)) == Coming(c) + if WinsExchange(c, e) then 1 else 0
  {
    match e
    case EvExchange(who) => ExchangeComing(c, who);
    case EvPush(who) => PushComing(c, who);
    case EvSendCheck(data) => BegunComing(c, Sending(data));
    case EvShutdownCheck => BegunComing(c, ShuttingDown);
    case EvForceCheck => BegunComing(c, Forcing);
  }

  lemma PushComing(c: Conn, who: nat)
    requires Enabled(c, EvPush(who))
    ensures Coming(Push(c, who)) == Coming(c)
  {
    CountWithout(c.others, who, OweShutdown);
  }

  lemma BegunComing(c: Conn, o: Other)
    requires !o.OweShutdown?
    ensures multiset(c.others + [o])[OweShutdown] == multiset(c.others)[OweShutdown]
  {
  }

  /** At most one function of another kind was queued. */
  lemma SameComing(c: Conn, d: Conn, t: Task)
    requires d.others == c.others && (d.tasks == c.tasks || d.tasks == c.tasks + [t]) && !t.ShutdownTask?
    ensures Coming(d) == Coming(c)
  {
  }

  lemma SendComing(c: Conn, data: seq<Byte>, r: WriteResult)
    requires Fits(r, |data|)
    ensures Coming(SendInLoop(c, data, r)) == Coming(c)
  {
    var d := SendInLoop(c, data, r);
    SendTasks(c, data, r);
    assert d.others == c.others;
    SameComing(c, d, if d.tasks == c.tasks + [WriteComplete] then WriteComplete else HighWater(|d.out|));
  }

  lemma TaskComing(c: Conn, r: WriteResult)
    requires Enabled(c, EvTask(r))
    ensures Coming(Next(c, EvTask(r))) == Coming(c) - if PopsShutdown(c, EvTask(r)) then 1 else 0
  {
    var popped, d := c.(tasks := c.tasks[1..]), Next(c, EvTask(r));
    CountFirst(c.tasks, ShutdownTask);
    if c.tasks[0].SendTask? {
      SendComing(popped, c.tasks[0].data, r);
    } else {
      assert d.others == popped.others && d.tasks == popped.tasks;
    }
  }

  lemma LoopComing(c: Conn, e: Event)
    requires Enabled(c, e) && OnLoopThread(e) && !e.EvTask? && !e.EvSend?
    ensures Coming(Next(c, e)) == Coming(c)
  {
    var t := if e.EvForceClose? then ForceCloseTask else WriteComplete;
    SameComing(c, Next(c, e), t);
  }

  lemma StepComing(c: Conn, e: Event)
    requires Enabled(c, e)
    ensures Coming(Next(c, e))
         == Coming(c) + (if WinsExchange(c, e) then 1 else 0) - (if PopsShutdown(c, e) then 1 else 0)
  {
    if !OnLoopThread(e) {
      OtherComing(c, e);
    } else if e.EvTask? {
      TaskComing(c, e.r);
    } else if e.EvSend? {
      SendComing(c, e.data, e.r);
    } else {
      LoopComing(c, e);
    }
  }

  /** At most one `shutdown` wins the exchange, and nothing waits to be sent once half-closed. */
  predicate HalfInv(c: Conn) {
    && (Rank(c.state) < 2 ==> c.halfCloses == 0 && Coming(c) == 0)
    && Coming(c) <= 1 && c.halfCloses + Coming(c) <= 2
    && (c.halfCloses > 0 ==> c.out == [])
  }

  lemma StepHalfCloses(c: Conn, e: Event)
    requires Inv(c) && HalfInv(c) && Enabled(c, e) && Ruled(c, e) && KernelRefuses(c, e)
    ensures var d := Next(c, e);
            && c.halfCloses <= d.halfCloses <= c.halfCloses + 1
            && (c.halfCloses > 0 ==> d.out == [] && (d.halfCloses > c.halfCloses <==> RunsShutdown(c, e)))
            && (d.halfCloses > c.halfCloses ==> d.out == [] && Rank(d.state) >= 2)
            && (Rank(d.state) < 2 ==> Rank(c.state) < 2)
  {
    match e
    case EvTask(r) => TaskHalfCloses(c, r);
    case EvDispatchWrite(r) => DrainHalfCloses(c, r);
    case EvSend(data, r) => if c.state.Connected? { SendHalfCloses(c, data, r); }
    case _ =>
  }

  lemma SendHalfCloses(c: Conn, data: seq<Byte>, r: WriteResult)
    requires Fits(r, |data|)
    ensures var d := SendInLoop(c, data, r);
            && d.halfCloses == c.halfCloses && d.state == c.state
            && (!Open(c) || (!Writing(c.chan) && r == Failed(BrokenPipe)) ==> d.out == c.out || c.state.Connecting?)
  {
  }

  lemma TaskHalfCloses(c: Conn, r: WriteResult)
    requires Inv(c) && HalfInv(c) && Enabled(c, EvTask(r)) && KernelRefuses(c, EvTask(r))
    ensures var d := Next(c, EvTask(r));
            && c.halfCloses <= d.halfCloses <= c.halfCloses + 1
            && (c.halfCloses > 0 ==> d.out == [] && (d.halfCloses > c.halfCloses <==> RunsShutdown(c, EvTask(r))))
            && (d.halfCloses > c.halfCloses ==> d.out == [] && Rank(d.state) >= 2)
            && (Rank(d.state) < 2 ==> Rank(c.state) < 2)
  {
    if c.tasks[0].SendTask? { SendHalfCloses(c.(tasks := c.tasks[1..]), c.tasks[0].data, r); }
    if c.tasks[0].ShutdownTask? { CountFirst(c.tasks, ShutdownTask); }
  }

  lemma DrainHalfCloses(c: Conn, r: WriteResult)
    requires Inv(c) && HalfInv(c) && Enabled(c, EvDispatchWrite(r))
    ensures var d := Next(c, EvDispatchWrite(r));
            && c.halfCloses <= d.halfCloses <= c.halfCloses + 1 && d.state == c.state
            && (c.halfCloses > 0 ==> d.out == [] && d.halfCloses == c.halfCloses)
            && (d.halfCloses > c.halfCloses ==> d.out == [] && Rank(d.state) >= 2)
  {
  }

  lemma StepHalfInv(c: Conn, e: Event)
    requires Inv(c) && HalfInv(c) && Enabled(c, e) && Ruled(c, e) && KernelRefuses(c, e)
    ensures HalfInv(Next(c, e))
  {
    StepHalfCloses(c, e);
    StepComing(c, e);
  }

  lemma {:induction false} RunHalfCloses(c: Conn, evs: seq<Event>)
    requires Inv(c) && HalfInv(c) && Legal(c, evs) && RefusedAfterHalfClose(c, evs)
    ensures HalfInv(Run(c, evs))
    ensures Run(c, evs).halfCloses > 1 <==> c.halfCloses > 1 || LateShutdown(c, evs)
    decreases evs
  {
    if evs != [] {
      StepInv(c, evs[0]);
      StepHalfInv(c, evs[0]);
      StepHalfCloses(c, evs[0]);
      RunHalfCloses(Next(c, evs[0]), evs[1..]);
    }
  }

  /** Calls from any thread, over a kernel that refuses writes after SHUT_WR: SHUT_WR comes at most twice, and
      twice if and only if a queued shutdown function runs on an open connection already half-closed. From the
      first one on nothing waits to be sent. */
  lemma HalfClosedTwiceIff(config: Config, evs: seq<Event>)
    requires Legal(NewConn(config), evs) && RefusedAfterHalfClose(NewConn(config), evs)
    ensures var c := Run(NewConn(config), evs);
            && c.halfCloses <= 2
            && (c.halfCloses == 2 <==> LateShutdown(NewConn(config), evs))
            && (c.halfCloses > 0 ==> c.out == [])
  {
    RunHalfCloses(NewConn(config), evs);
  }

  predicate NoneShutting(others: seq<Other>) {
    forall o :: o in others ==> !o.ShuttingDown?
  }

  lemma StepNoneShutting(c: Conn, e: Event)
    requires Enabled(c, e) && !e.EvShutdownCheck? && NoneShutting(c.others)
    ensures NoneShutting(Next(c, e).others) && !WinsExchange(c, e)
  {
    if e.EvExchange? { assert c.others[e.who] in c.others; }
  }

  lemma {:induction false} NeverLate(c: Conn, evs: seq<Event>)
    requires Legal(c, evs) && EvShutdownCheck !in evs && NoneShutting(c.others) && Coming(c) == 0
    ensures !LateShutdown(c, evs)
    decreases evs
  {
    if evs != [] {
      assert evs[0] in evs;
      StepNoneShutting(c, evs[0]);
      StepComing(c, evs[0]);
      if PopsShutdown(c, evs[0]) { CountFirst(c.tasks, ShutdownTask); }
      NeverLate(Next(c, evs[0]), evs[1..]);
    }
  }

  /** So a program that calls `shutdown` on the loop's thread only, wherever it sends and forces, half-closes at
      most once. */
  lemma ShutdownInLoopHalfClosesOnce(config: Config, evs: seq<Event>)
    requires Legal(NewConn(config), evs) && RefusedAfterHalfClose(NewConn(config), evs)
    requires EvShutdownCheck !in evs
    ensures Run(NewConn(config), evs).halfCloses <= 1
  {
    HalfClosedTwiceIff(config, evs);
    NeverLate(NewConn(config), evs);
  }

  lemma RefusedFirst(c: Conn, e: Event, rest: seq<Event>)
    requires Enabled(c, e) && Ruled(c, e) && KernelRefuses(c, e)
    requires Legal(Next(c, e), rest) && RefusedAfterHalfClose(Next(c, e), rest)
    ensures Legal(c, [e] + rest) && RefusedAfterHalfClose(c, [e] + rest)
    ensures Run(c, [e] + rest) == Run(Next(c, e), rest)
  {
    assert ([e] + rest)[1..] == rest;
  }

  /** Twice is reachable: a `shutdown` of another thread queues its function while a byte waits to be sent; the
      byte drains, which half-closes, and then the function runs. */
  lemma DrainThenQueuedShutdownHalfClosesTwice(b: Byte) returns (evs: seq<Event>)
    ensures Legal(NewConn(NO_CALLBACKS), evs) && RefusedAfterHalfClose(NewConn(NO_CALLBACKS), evs)
    ensures Run(NewConn(NO_CALLBACKS), evs).halfCloses == 2
  {
    var start := NewConn(NO_CALLBACKS);
    var open := Next(start, EvEstablish);
    var waiting := Next(open, EvSend([b], Wrote(0)));
    assert [b][0..] == [b] && waiting.out == [b];
    evs := ShutdownElsewhere(waiting);
    RefusedFirst(open, EvSend([b], Wrote(0)), evs);
    evs := [EvSend([b], Wrote(0))] + evs;
    RefusedFirst(start, EvEstablish, evs);
    evs := [EvEstablish] + evs;
  }

  lemma ShutdownElsewhere(c: Conn) returns (evs: seq<Event>)
    requires c.state.Connected? && c.stage.Idle? && c.halfCloses == 0 && |c.out| == 1 && c.tasks == [] && c.others == []
    requires Writing(c.chan) && Mirrors(c.chan) && c.chan.polling
    ensures Legal(c, evs) && RefusedAfterHalfClose(c, evs) && Run(c, evs).halfCloses == 2
  {
    var asked := Next(c, EvShutdownCheck);
    var won := Next(asked, EvExchange(0));
    var queued := Next(won, EvPush(0));
    assert queued.tasks == [ShutdownTask];
    evs := DrainThenTask(queued);
    RefusedFirst(won, EvPush(0), evs);
    evs := [EvPush(0)] + evs;
    RefusedFirst(asked, EvExchange(0), evs);
    evs := [EvExchange(0)] + evs;
    RefusedFirst(c, EvShutdownCheck, evs);
    evs := [EvShutdownCheck] + evs;
  }

  lemma DrainThenTask(c: Conn) returns (evs: seq<Event>)
    requires c.state.Disconnecting? && c.stage.Idle? && c.halfCloses == 0 && |c.out| == 1 && c.tasks == [ShutdownTask]
    requires Writing(c.chan) && Mirrors(c.chan) && c.chan.polling
    ensures Legal(c, evs) && RefusedAfterHalfClose(c, evs) && Run(c, evs).halfCloses == 2
  {
    var polled := Next(c, EvPoll({Out}));
    var past := Next(polled, EvDispatchClose);
    var reading := Next(past, EvDispatchError);
    var writing := Next(reading, EvDispatchRead(Received));
    assert writing == c.(stage := AtWrite, revents := {Out});
    evs := DrainAndRun(writing);
    RefusedFirst(reading, EvDispatchRead(Received), evs);
    evs := [EvDispatchRead(Received)] + evs;
    RefusedFirst(past, EvDispatchError, evs);
    evs := [EvDispatchError] + evs;
    RefusedFirst(polled, EvDispatchClose, evs);
    evs := [EvDispatchClose] + evs;
    RefusedFirst(c, EvPoll({Out}), evs);
    evs := [EvPoll({Out})] + evs;
  }

  lemma DrainAndRun(c: Conn) returns (evs: seq<Event>)
    requires c.state.Disconnecting? && c.stage.AtWrite? && Out in c.revents && Writing(c.chan)
    requires c.halfCloses == 0 && |c.out| == 1 && c.tasks == [ShutdownTask]
    ensures Legal(c, evs) && RefusedAfterHalfClose(c, evs) && Run(c, evs).halfCloses == 2
  {
    var drained := Next(c, EvDispatchWrite(Wrote(1)));
    assert drained.out == [] && drained.tasks[0] == ShutdownTask && drained.halfCloses == 1;
    var task := EvTask(Failed(Again));
    var last := Next(drained, task);
    assert Legal(last, []) && RefusedAfterHalfClose(last, []) && Run(last, []) == last;
    RefusedFirst(drained, task, []);
    RefusedFirst(c, EvDispatchWrite(Wrote(1)), [task] + []);
    evs := [EvDispatchWrite(Wrote(1))] + ([task] + []);
  }

  // ----- that it happens -----

  /** Nobody forces the connection closed. */
  predicate NeverForced(evs: seq<Event>) {
    forall e :: e in evs ==> !e.EvForceClose? && !e.EvForceCheck?
  }

  predicate DrainInv(c: Conn) {
    && (forall o :: o in c.others ==> !o.Forcing? && !o.OweForceClose?)
    && (c.state.Disconnecting? && c.out == [] ==> c.halfCloses > 0 || Coming(c) > 0)
  }

  lemma StepOthers(c: Conn, e: Event)
    requires Enabled(c, e) && !e.EvForceCheck? && forall o :: o in c.others ==> !o.Forcing? && !o.OweForceClose?
    ensures forall o :: o in Next(c, e).others ==> !o.Forcing? && !o.OweForceClose?
  {
    if e.EvExchange? { assert c.others[e.who] in c.others; }
  }

  /** How a connection can come to be drained and not half-closed. */
  lemma StepDrained(c: Conn, e: Event)
    requires Inv(c) && Enabled(c, e) && Ruled(c, e) && !e.EvForceClose? && !e.EvForceCheck?
    requires e.EvExchange? ==> c.others[e.who].ShuttingDown?
    ensures var d := Next(c, e);
            d.state.Disconnecting? && d.out == [] && d.halfCloses == 0
            ==> WinsExchange(c, e)
                || (c.state.Disconnecting? && c.out == [] && c.halfCloses == 0 && !PopsShutdown(c, e))
  {
  }

  lemma StepDrain(c: Conn, e: Event)
    requires Inv(c) && DrainInv(c) && Enabled(c, e) && Ruled(c, e) && !e.EvForceClose? && !e.EvForceCheck?
    ensures DrainInv(Next(c, e))
  {
    StepOthers(c, e);
    if e.EvExchange? { assert c.others[e.who] in c.others; }
    StepDrained(c, e);
    StepComing(c, e);
  }

  lemma {:induction false} RunDrain(c: Conn, evs: seq<Event>)
    requires Inv(c) && DrainInv(c) && Legal(c, evs) && NeverForced(evs)
    ensures DrainInv(Run(c, evs))
    decreases evs
  {
    if evs != [] {
      assert evs[0] in evs;
      StepInv(c, evs[0]);
      StepDrain(c, evs[0]);
      RunDrain(Next(c, evs[0]), evs[1..]);
    }
  }

  /** Calls from any thread, never forced: a connection asked to shut down with nothing left to send has been
      half-closed, unless the `shutdown` is still on its way to the loop. */
  lemma DrainedShutdownHalfCloses(config: Config, evs: seq<Event>)
    requires Legal(NewConn(config), evs) && NeverForced(evs)
    ensures var c := Run(NewConn(config), evs);
            c.state.Disconnecting? && c.out == [] && Coming(c) == 0 ==> c.halfCloses > 0
  {
    RunDrain(NewConn(config), evs);
  }

  /** A `shutdown` of another thread that was called has won or lost its exchange, or is still before it. */
  lemma {:induction false} RunAsked(c: Conn, evs: seq<Event>)
    requires Inv(c) && Legal(c, evs)
    requires Rank(c.state) >= 2 || ShuttingDown in c.others || EvShutdown in evs || EvShutdownCheck in evs
    ensures Rank(Run(c, evs).state) >= 2 || ShuttingDown in Run(c, evs).others
    decreases evs
  {
    if evs != [] {
      var e, d := evs[0], Next(c, evs[0]);
      StepInv(c, e);
      assert evs == [e] + evs[1..];
      if Rank(c.state) >= 2 || ShuttingDown in c.others || e.EvShutdown? || e.EvShutdownCheck? { StepShutting(c, e); }
      RunAsked(d, evs[1..]);
    }
  }

  lemma StepShutting(c: Conn, e: Event)
    requires Inv(c) && Enabled(c, e) && Ruled(c, e)
    requires Rank(c.state) >= 2 || ShuttingDown in c.others || e.EvShutdown? || e.EvShutdownCheck?
    ensures Rank(Next(c, e).state) >= 2 || ShuttingDown in Next(c, e).others
  {
    match e
    case EvPush(who) => if ShuttingDown in c.others { KeptWithout(c.others, who, ShuttingDown); }
    case EvShutdownCheck => assert Next(c, e).others[|c.others|] == ShuttingDown;
    case _ =>
  }

  /** So a `shutdown`, wherever called on a connection never forced, half-closes: once nothing is left to send,
      the connection is half-closed, or closed, or the call is still on its way to the loop. */
  lemma ShutdownHalfCloses(config: Config, evs: seq<Event>)
    requires Legal(NewConn(config), evs) && NeverForced(evs)
    requires EvShutdown in evs || EvShutdownCheck in evs
    ensures var c := Run(NewConn(config), evs);
            c.out == [] ==> c.halfCloses > 0 || c.state.Disconnected? || Coming(c) > 0 || ShuttingDown in c.others
  {
    RunAsked(NewConn(config), evs);
    DrainedShutdownHalfCloses(config, evs);
  }

  // ----- after which bytes -----

  predicate AllOnLoopThread(evs: seq<Event>) {
    forall i :: 0 <= i < |evs| ==> OnLoopThread(evs[i])
  }

  /** The data of every `send` made while connected, from whichever thread. */
  function StepAccepted(c: Conn, e: Event): seq<Byte> {
    if !c.state.Connected? then []
    else if e.EvSend? then e.data
    else if e.EvSendCheck? then e.data
    else []
  }

  function Accepted(c: Conn, evs: seq<Event>): seq<Byte>
    requires Legal(c, evs)
    decreases evs
  {
    if evs == [] then [] else StepAccepted(c, evs[0]) + Accepted(Next(c, evs[0]), evs[1..])
  }

  predicate LoopInv(c: Conn) {
    && (forall i :: 0 <= i < |c.tasks| ==> !c.tasks[i].SendTask? && !c.tasks[i].ShutdownTask?)
    && c.others == []
    && c.halfCloses <= 1
    && (c.halfCloses == 1 ==> Rank(c.state) >= 2 && c.out == [])
  }

  lemma LoopSend(c: Conn, data: seq<Byte>, r: WriteResult)
    requires Inv(c) && LoopInv(c) && c.state.Connected? && Fits(r, |data|)
    ensures LoopInv(SendInLoop(c, data, r)) && c.halfCloses == 0
  {
  }

  lemma LoopWrite(c: Conn, r: WriteResult)
    requires Inv(c) && LoopInv(c) && c.stage.AtWrite? && Out in c.revents && Fits(r, |c.out|)
    ensures LoopInv(HandleWrite(c, r)) && (c.halfCloses == 1 ==> HandleWrite(c, r) == c)
  {
  }

  lemma LoopStep(c: Conn, e: Event)
    requires Inv(c) && LoopInv(c) && Enabled(c, e) && Ruled(c, e) && OnLoopThread(e)
    ensures LoopInv(Next(c, e))
    ensures c.halfCloses == 1 ==> Next(c, e).wire == c.wire && Next(c, e).halfCloses == 1
    ensures StepAccepted(c, e) == StepSubmitted(c, e)
  {
    match e
    case EvSend(data, r) =>
      if c.state.Connected? { LoopSend(c, data, r); }
    case EvDispatchWrite(r) =>
      if Out in c.revents { LoopWrite(c, r); }
    case _ =>
  }

  lemma {:induction false} LoopRun(c: Conn, evs: seq<Event>)
    requires Inv(c) && LoopInv(c) && Legal(c, evs) && AllOnLoopThread(evs)
    ensures LoopInv(Run(c, evs))
    ensures c.halfCloses == 1 ==> Run(c, evs).wire == c.wire && Run(c, evs).halfCloses == 1
    ensures Accepted(c, evs) == Submitted(c, evs)
    decreases evs
  {
    if evs != [] {
      StepInv(c, evs[0]);
      LoopStep(c, evs[0]);
      LoopRun(Next(c, evs[0]), evs[1..]);
    }
  }

  /** Calls on the loop's thread: SHUT_WR is issued at most once; from then on, absent a fatal error, the wire
      holds every byte `send` ever accepted, and nothing is written or half-closed again. A connection never
      forced, asked to shut down and with nothing left to send, has issued it. */
  lemma HalfCloseAfterEverythingSent(config: Config, evs: seq<Event>, more: seq<Event>)
    requires Legal(NewConn(config), evs) && AllOnLoopThread(evs)
    requires Legal(Run(NewConn(config), evs), more) && AllOnLoopThread(more)
    ensures var c := Run(NewConn(config), evs);
            && c.halfCloses <= 1
            && (c.halfCloses == 1 ==> c.out == [] && Run(c, more).wire == c.wire && Run(c, more).halfCloses == 1)
            && (c.halfCloses == 1 && !c.faulted ==> c.wire == Accepted(NewConn(config), evs))
            && (NeverForced(evs) && c.state.Disconnecting? && c.out == [] ==> c.halfCloses == 1)
  {
    RunInv(NewConn(config), evs);
    if NeverForced(evs) { DrainedShutdownHalfCloses(config, evs); }
    LoopRun(NewConn(config), evs);
    LoopRun(Run(NewConn(config), evs), more);
    WireIsSubmittedData(config, evs);
  }

  /** How often a byte occurs. */
  function Count(s: seq<Byte>, b: Byte): nat {
    multiset(s)[b]
  }

  lemma CountConcat(x: seq<Byte>, y: seq<Byte>, b: Byte)
    ensures Count(x + y, b) == Count(x, b) + Count(y, b)
  {
    assert multiset(x + y) == multiset(x) + multiset(y);
  }

  function TaskCount(t: Task, b: Byte): nat {
    if t.SendTask? then Count(t.data, b) else 0
  }

  function OtherCount(o: Other, b: Byte): nat {
    if o.Sending? then Count(o.data, b) else 0
  }

  /** Occurrences in what other threads have queued and the loop has not sent. */
  function QueuedCount(tasks: seq<Task>, b: Byte): nat {
    if tasks == [] then 0 else TaskCount(tasks[0], b) + QueuedCount(tasks[1..], b)
  }

  /** Occurrences in what other threads hold between the test and the queueing of a `send`. */
  function HeldCount(others: seq<Other>, b: Byte): nat {
    if others == [] then 0 else OtherCount(others[0], b) + HeldCount(others[1..], b)
  }

  lemma {:induction false} QueuedSnoc(tasks: seq<Task>, t: Task, b: Byte)
    ensures QueuedCount(tasks + [t], b) == QueuedCount(tasks, b) + TaskCount(t, b)
  {
    if tasks == [] {
      assert (tasks + [t])[1..] == [] && (tasks + [t])[0] == t;
    } else {
      QueuedSnoc(tasks[1..], t, b);
      assert (tasks + [t])[1..] == tasks[1..] + [t];
    }
  }

  lemma {:induction false} HeldSnoc(others: seq<Other>, o: Other, b: Byte)
    ensures HeldCount(others + [o], b) == HeldCount(others, b) + OtherCount(o, b)
  {
    if others == [] {
      assert (others + [o])[1..] == [] && (others + [o])[0] == o;
    } else {
      HeldSnoc(others[1..], o, b);
      assert (others + [o])[1..] == others[1..] + [o];
    }
  }

  lemma {:induction false} HeldWithout(others: seq<Other>, i: nat, b: Byte)
    requires i < |others|
    ensures HeldCount(others, b) == HeldCount(Without(others, i), b) + OtherCount(others[i], b)
  {
    if i == 0 {
      assert Without(others, 0) == others[1..];
    } else {
      HeldWithout(others[1..], i - 1, b);
      assert Without(others, i)[1..] == Without(others[1..], i - 1);
    }
  }

  lemma {:induction false} HeldUpdate(others: seq<Other>, i: nat, o: Other, b: Byte)
    requires i < |others|
    ensures HeldCount(others[i := o], b) == HeldCount(others, b) - OtherCount(others[i], b) + OtherCount(o, b)
  {
    HeldWithout(others, i, b);
    HeldWithout(others[i := o], i, b);
    assert Without(others[i := o], i) == Without(others, i);
  }

  function Unsent(tasks: seq<Task>, others: seq<Other>, b: Byte): nat {
    QueuedCount(tasks, b) + HeldCount(others, b)
  }

  /** How often a byte is anywhere: sent, waiting, queued or held. */
  function InHand(c: Conn, b: Byte): nat {
    Count(c.wire + c.out, b) + QueuedCount(c.tasks, b) + HeldCount(c.others, b)
  }

  lemma SendInHand(c: Conn, data: seq<Byte>, r: WriteResult, b: Byte)
    requires Inv(c) && Open(c) && Fits(r, |data|)
    ensures var d := SendInLoop(c, data, r);
            !d.faulted ==> InHand(d, b) == InHand(c, b) + Count(data, b)
  {
    SendWire(c, data, r);
    CountConcat(c.wire + c.out, data, b);
    SendQueued(c, data, r, b);
  }

  lemma SendQueued(c: Conn, data: seq<Byte>, r: WriteResult, b: Byte)
    requires Fits(r, |data|)
    ensures var d := SendInLoop(c, data, r); QueuedCount(d.tasks, b) == QueuedCount(c.tasks, b) && d.others == c.others
  {
    SendTasks(c, data, r);
    QueuedSnoc(c.tasks, WriteComplete, b);
    QueuedSnoc(c.tasks, HighWater(|SendInLoop(c, data, r).out|), b);
  }

  lemma DrainQueued(c: Conn, r: WriteResult, b: Byte)
    requires Fits(r, |c.out|)
    ensures QueuedCount(HandleWrite(c, r).tasks, b) == QueuedCount(c.tasks, b)
  {
    QueuedSnoc(c.tasks, WriteComplete, b);
  }

  lemma DrainInHand(c: Conn, r: WriteResult, b: Byte)
    requires Fits(r, |c.out|)
    ensures InHand(HandleWrite(c, r), b) == InHand(c, b)
  {
    DrainWire(c, r);
    DrainQueued(c, r, b);
  }

  lemma OtherInHand(c: Conn, e: Event, b: Byte)
    requires Enabled(c, e) && Ruled(c, e) && !OnLoopThread(e)
    ensures InHand(Next(c, e), b) == InHand(c, b) + Count(StepAccepted(c, e), b)
  {
    match e
    case EvSendCheck(data) =>
      HeldSnoc(c.others, Sending(data), b);
    case EvShutdownCheck =>
      HeldSnoc(c.others, ShuttingDown, b);
    case EvForceCheck =>
      HeldSnoc(c.others, Forcing, b);
    case EvExchange(who) =>
      HeldWithout(c.others, who, b);
      HeldUpdate(c.others, who, OweShutdown, b);
      HeldUpdate(c.others, who, OweForceClose, b);
    case EvPush(who) =>
      HeldWithout(c.others, who, b);
      QueuedSnoc(c.tasks, TaskOf(c.others[who]), b);
  }

  lemma StepInHand(c: Conn, e: Event, b: Byte)
    requires Inv(c) && Enabled(c, e) && Ruled(c, e)
    ensures var d := Next(c, e);
            !d.faulted && !d.state.Disconnected? ==> InHand(d, b) == InHand(c, b) + Count(StepAccepted(c, e), b)
  {
    if !OnLoopThread(e) {
      OtherInHand(c, e, b);
    } else if e.EvSend? {
      if c.state.Connected? { SendInHand(c, e.data, e.r, b); }
    } else if e.EvTask? {
      if c.tasks[0].SendTask? && Open(c) { SendInHand(c.(tasks := c.tasks[1..]), c.tasks[0].data, e.r, b); }
    } else if e.EvDispatchWrite? {
      if Out in c.revents { DrainInHand(c, e.r, b); }
    } else {
      QueuedSnoc(c.tasks, ForceCloseTask, b);
    }
  }

  lemma {:induction false} FaultSticks(c: Conn, evs: seq<Event>)
    requires Legal(c, evs)
    ensures c.faulted ==> Run(c, evs).faulted
    decreases evs
  {
    if evs != [] { FaultSticks(Next(c, evs[0]), evs[1..]); }
  }

  lemma {:induction false} RunInHand(c: Conn, evs: seq<Event>, b: Byte)
    requires Inv(c) && Legal(c, evs)
    ensures var d := Run(c, evs);
            !d.faulted && !d.state.Disconnected? ==> InHand(d, b) == InHand(c, b) + Count(Accepted(c, evs), b)
    decreases evs
  {
    if evs != [] {
      var n := Next(c, evs[0]);
      StepInv(c, evs[0]);
      StepInHand(c, evs[0], b);
      StateOnlyMovesForward(n, evs[1..]);
      FaultSticks(n, evs[1..]);
      RunInHand(n, evs[1..], b);
      CountConcat(StepAccepted(c, evs[0]), Accepted(n, evs[1..]), b);
    }
  }

  /** Calls from any thread: a step that half-closes finds the output buffer empty, and each byte accepted is
      then on the wire, queued in the loop, or held by a thread between the test and the queueing of `send`. */
  lemma HalfCloseAccountsForEveryByte(config: Config, evs: seq<Event>, e: Event, b: Byte)
    requires Legal(NewConn(config), evs)
    requires var c := Run(NewConn(config), evs);
             Enabled(c, e) && Ruled(c, e) && Next(c, e).halfCloses > c.halfCloses && !Next(c, e).faulted
    ensures var d := Next(Run(NewConn(config), evs), e);
            && d.out == []
            && Count(Accepted(NewConn(config), evs), b)
               == Count(d.wire, b) + QueuedCount(d.tasks, b) + HeldCount(d.others, b)
  {
    var c := Run(NewConn(config), evs);
    RunInv(NewConn(config), evs);
    RunInHand(NewConn(config), evs, b);
    HalfCloseStep(c, e);
    StepInHand(c, e, b);
    StepWire(c, e);
    assert Next(c, e).wire + [] == Next(c, e).wire;
  }

  /** Every accepted byte is then on the wire if and only if none is queued and none is held. */
  lemma HalfCloseLosesExactlyQueuedSends(config: Config, evs: seq<Event>, e: Event)
    requires Legal(NewConn(config), evs)
    requires var c := Run(NewConn(config), evs);
             Enabled(c, e) && Ruled(c, e) && Next(c, e).halfCloses > c.halfCloses && !Next(c, e).faulted
    ensures var d := Next(Run(NewConn(config), evs), e);
            multiset(d.wire) == multiset(Accepted(NewConn(config), evs))
            <==> forall b: Byte :: Unsent(d.tasks, d.others, b) == 0
  {
    var d := Next(Run(NewConn(config), evs), e);
    var accepted := Accepted(NewConn(config), evs);
    forall b: Byte
      ensures Count(accepted, b) == Count(d.wire, b) + Unsent(d.tasks, d.others, b)
    {
      HalfCloseAccountsForEveryByte(config, evs, e, b);
    }
    Balance(d.wire, accepted, d.tasks, d.others);
  }

  lemma Balance(sent: seq<Byte>, accepted: seq<Byte>, tasks: seq<Task>, others: seq<Other>)
    requires forall b: Byte :: Count(accepted, b) == Count(sent, b) + Unsent(tasks, others, b)
    ensures multiset(sent) == multiset(accepted)
            <==> forall b: Byte :: Unsent(tasks, others, b) == 0
  {
    SameCounts(sent, accepted);
    if forall b: Byte :: Unsent(tasks, others, b) == 0 {
      forall b: Byte
        ensures Count(sent, b) == Count(accepted, b)
      {
        assert Unsent(tasks, others, b) == 0;
      }
      assert multiset(sent) == multiset(accepted);
    } else {
      var b: Byte :| Unsent(tasks, others, b) != 0;
      assert Count(sent, b) != Count(accepted, b);
      assert multiset(sent)[b] != multiset(accepted)[b];
    }
  }

  lemma SameCounts(x: seq<Byte>, y: seq<Byte>)
    ensures multiset(x) == multiset(y) <==> forall b: Byte :: Count(x, b) == Count(y, b)
  {
    if forall b: Byte :: Count(x, b) == Count(y, b) {
      forall b: Byte ensures multiset(x)[b] == multiset(y)[b] { assert Count(x, b) == Count(y, b); }
      assert multiset(x) == multiset(y);
    }
  }

  lemma HalfCloseStep(c: Conn, e: Event)
    requires Inv(c) && Enabled(c, e) && Ruled(c, e) && Next(c, e).halfCloses > c.halfCloses
    ensures Next(c, e).out == [] && !Next(c, e).state.Disconnected?
    ensures !e.EvSend? && !e.EvSendCheck?
  {
  }

  /** A send from another thread followed by a shutdown on the loop's: half-closed with the byte still queued. */
  lemma CrossThreadSendCanMissTheHalfClose(b: Byte)
    ensures var evs := [EvEstablish, EvSendCheck([b]), EvPush(0), EvShutdown];
            var start := NewConn(Config(false, None));
            && Legal(start, evs) && Run(start, evs).halfCloses == 1
            && Accepted(start, evs) == [b] && Run(start, evs).wire == []
            && Run(start, evs).tasks == [SendTask([b])]
  {
    var start := NewConn(Config(false, None));
    var c1 := Next(start, EvEstablish);
    var c2 := Next(c1, EvSendCheck([b]));
    PushThenShutdown(c2);
    OneMore(c1, EvSendCheck([b]), [EvPush(0), EvShutdown]);
    OneMore(start, EvEstablish, [EvSendCheck([b]), EvPush(0), EvShutdown]);
    assert [EvSendCheck([b])] + [EvPush(0), EvShutdown] == [EvSendCheck([b]), EvPush(0), EvShutdown];
    assert [EvEstablish] + [EvSendCheck([b]), EvPush(0), EvShutdown]
        == [EvEstablish, EvSendCheck([b]), EvPush(0), EvShutdown];
  }

  lemma PushThenShutdown(c: Conn)
    requires c.state.Connected? && |c.others| == 1 && c.others[0].Sending?
    ensures var evs := [EvPush(0), EvShutdown];
            Legal(c, evs) && Run(c, evs) == Shutdown(Push(c, 0)) && Accepted(c, evs) == []
  {
    LastShutdown(Push(c, 0));
    OneMore(c, EvPush(0), [EvShutdown]);
    assert [EvPush(0)] + [EvShutdown] == [EvPush(0), EvShutdown];
  }

  /** The same with the other thread caught between its test and its queueing: nothing is queued when the
      half-close happens, and the byte is queued after it. */
  lemma SendCaughtBeforeQueueingMissesTheHalfClose(b: Byte)
    ensures var evs := [EvEstablish, EvSendCheck([b]), EvShutdown];
            var start := NewConn(Config(false, None));
            && Legal(start, evs) && Run(start, evs).halfCloses == 1 && Run(start, evs).tasks == []
            && Accepted(start, evs) == [b] && Run(start, evs).wire == []
            && Enabled(Run(start, evs), EvPush(0))
            && Next(Run(start, evs), EvPush(0)).tasks == [SendTask([b])]
  {
    var start := NewConn(Config(false, None));
    var c1 := Next(start, EvEstablish);
    var c2 := Next(c1, EvSendCheck([b]));
    LastShutdown(c2);
    OneMore(c1, EvSendCheck([b]), [EvShutdown]);
    OneMore(start, EvEstablish, [EvSendCheck([b]), EvShutdown]);
    assert [EvSendCheck([b])] + [EvShutdown] == [EvSendCheck([b]), EvShutdown];
    assert [EvEstablish] + [EvSendCheck([b]), EvShutdown] == [EvEstablish, EvSendCheck([b]), EvShutdown];
  }

  lemma OneMore(c: Conn, e: Event, rest: seq<Event>)
    requires Enabled(c, e) && Ruled(c, e) && Legal(Next(c, e), rest)
    ensures Legal(c, [e] + rest) && Run(c, [e] + rest) == Run(Next(c, e), rest)
    ensures Accepted(c, [e] + rest) == StepAccepted(c, e) + Accepted(Next(c, e), rest)
  {
    assert ([e] + rest)[1..] == rest;
  }

  lemma LastShutdown(c: Conn)
    requires c.state.Connected?
    ensures Legal(c, [EvShutdown]) && Run(c, [EvShutdown]) == Shutdown(c) && Accepted(c, [EvShutdown]) == []
  {
    var d := Next(c, EvShutdown);
    assert Legal(d, []) && Run(d, []) == d && Accepted(d, []) == [];
    OneMore(c, EvShutdown, []);
    assert [EvShutdown] + [] == [EvShutdown];
  }
}
