/**
 TcpConnection.cpp: one connection, driven by its event loop, by user code on the loop's thread and by user
 code on other threads, over a kernel that may take any part of a write or fail.

 User code runs between any two steps, so callbacks are free to send, shut down or close. A poll result for
 the channel is dispatched in four stages, in the order of Channel.cpp:25-44; queued tasks run only between
 dispatches, as EventLoop.cpp:54-60 has it. A call on another thread is taken apart where the loop can come
 between: a test of the state, an exchange of the state, and the queueing of a function. `failed` records
 that an `assert` of the source did not hold.
 */
module TcpProtocol {
  import opened Base
  import opened BigEndian
  import opened Buffers
  import opened Channels

  datatype ConnState = Connecting | Connected | Disconnecting | Disconnected

  datatype Errno = Again | BrokenPipe | ConnReset | OtherError

  datatype WriteResult = Wrote(n: nat) | Failed(errno: Errno)

  datatype ReadResult = Received | EndOfFile | ReadFailed

  datatype Task = SendTask(data: seq<Byte>) | ShutdownTask | ForceCloseTask | WriteComplete | HighWater(size: nat)

  /** Another thread between two parts of a call: `send` past its test, `shutdown` or `forceClose` before the
      exchange, and either of them after it. */
  datatype Other = Sending(data: seq<Byte>) | ShuttingDown | Forcing | OweShutdown | OweForceClose

  datatype Stage = Idle | AtClose | AtError | AtRead | AtWrite

  /** Which user callbacks are set. */
  datatype Config = Config(onComplete: bool, highWater: Option<nat>)

  datatype Conn = Conn(
    config: Config, state: ConnState, out: seq<Byte>, chan: Chan, tasks: seq<Task>,
    stage: Stage, revents: set<Flag>,
    others: seq<Other>,   // other threads in the middle of a call
    wire: seq<Byte>,      // bytes the kernel took
    halfCloses: nat,      // shutdown(SHUT_WR) calls
    closes: nat,          // runs of handleClose
    faulted: bool,        // a direct write met EPIPE or ECONNRESET
    failed: bool)

  function NewConn(config: Config): Conn {
    Conn(config, Connecting, [], NEW_CHANNEL, [], Idle, {}, [], [], 0, 0, false, false)
  }

  predicate Open(c: Conn) {
    c.state.Connected? || c.state.Disconnecting?
  }

  // ----- the member functions -----

  function Establish(c: Conn): Conn {
    c.(state := Connected, chan := EnabledRead(c.chan), failed := c.failed || !c.state.Connecting?)
  }

  /** Keeps what the kernel did not take, and asks for EPOLLOUT. */
  function QueueRest(c: Conn, rest: seq<Byte>): Conn {
    if rest == [] then c
    else
      var size := |c.out| + |rest|;
      var crossed := c.config.highWater.Some? && |c.out| < c.config.highWater.value <= size;
      c.(out := c.out + rest, chan := EnabledWrite(c.chan),
         tasks := if crossed then c.tasks + [HighWater(size)] else c.tasks)
  }

  function NotifyComplete(c: Conn): Conn {
    if c.config.onComplete then c.(tasks := c.tasks + [WriteComplete]) else c
  }

  predicate Fatal(e: Errno) {
    e.BrokenPipe? || e.ConnReset?
  }

  predicate Fits(r: WriteResult, len: nat) {
    r.Wrote? ==> r.n <= len
  }

  function SendInLoop(c: Conn, data: seq<Byte>, r: WriteResult): Conn
    requires Fits(r, |data|)
  {
    if c.state.Disconnected? then c
    else if Writing(c.chan) then QueueRest(c, data)
    else
      var c := c.(failed := c.failed || c.out != []);
      match r
      case Failed(e) => if Fatal(e) then c.(faulted := true) else QueueRest(c, data)
      case Wrote(n) =>
        var c := c.(wire := c.wire + data[..n]);
        if n == |data| then NotifyComplete(c) else QueueRest(c, data[n..])
  }

  function ShutdownInLoop(c: Conn): Conn {
    if !c.state.Disconnected? && !Writing(c.chan) then c.(halfCloses := c.halfCloses + 1) else c
  }

  function Shutdown(c: Conn): Conn {
    var after := c.(state := Disconnecting, failed := c.failed || c.state.Disconnected?);
    if c.state.Connected? then ShutdownInLoop(after) else after
  }

  function ForceClose(c: Conn): Conn {
    if c.state.Disconnected? then c else c.(state := Disconnecting, tasks := c.tasks + [ForceCloseTask])
  }

  function Without<T>(s: seq<T>, i: nat): seq<T>
    requires i < |s|
  {
    s[..i] + s[i + 1..]
  }

  /** `stateAtomicGetAndSet(kDisconnecting)` on another thread, and what it then owes. */
  function Exchange(c: Conn, who: nat): Conn
    requires who < |c.others|
  {
    var owes := if c.others[who].ShuttingDown? then c.state.Connected? else !c.state.Disconnected?;
    c.(state := Disconnecting,
       others := if owes then c.others[who := if c.others[who].ShuttingDown? then OweShutdown else OweForceClose]
                 else Without(c.others, who))
  }

  function TaskOf(o: Other): Task {
    match o
    case Sending(data) => SendTask(data)
    case OweShutdown => ShutdownTask
    case _ => ForceCloseTask
  }

  /** `queueInLoop` on another thread. */
  function Push(c: Conn, who: nat): Conn
    requires who < |c.others|
  {
    c.(tasks := c.tasks + [TaskOf(c.others[who])], others := Without(c.others, who))
  }

  function HandleClose(c: Conn): Conn {
    c.(state := Disconnected, chan := DisabledAll(c.chan), closes := c.closes + 1,
       failed := c.failed || !Open(c) || !c.chan.polling)
  }

  function HandleRead(c: Conn, r: ReadResult): Conn {
    var c := c.(failed := c.failed || c.state.Disconnected?);
    if r.EndOfFile? then HandleClose(c) else c
  }

  function HandleWrite(c: Conn, r: WriteResult): Conn
    requires Fits(r, |c.out|)
  {
    if c.state.Disconnected? then c
    else
      var c := c.(failed := c.failed || c.out == [] || !Writing(c.chan));
      if r.Failed? then c
      else
        var c := c.(wire := c.wire + c.out[..r.n], out := c.out[r.n..]);
        if c.out != [] then c
        else
          var c := c.(chan := DisabledWrite(c.chan));
          NotifyComplete(if c.state.Disconnecting? then ShutdownInLoop(c) else c)
  }

  function StopRead(c: Conn): Conn {
    if Reading(c.chan) then c.(chan := DisabledRead(c.chan)) else c
  }

  function StartRead(c: Conn): Conn {
    if Reading(c.chan) then c else c.(chan := EnabledRead(c.chan))
  }

  function RunTask(c: Conn, task: Task, r: WriteResult): Conn
    requires task.SendTask? ==> Fits(r, |task.data|)
  {
    match task
    case SendTask(data) => SendInLoop(c, data, r)
    case ShutdownTask => ShutdownInLoop(c)
    case ForceCloseTask => if c.state.Disconnected? then c else HandleClose(c)
    case _ => c
  }

  // ----- the step system -----

  datatype Event =
    | EvEstablish
    | EvSend(data: seq<Byte>, r: WriteResult)
    | EvShutdown
    | EvForceClose
    | EvSendCheck(data: seq<Byte>)
    | EvShutdownCheck
    | EvForceCheck
    | EvExchange(who: nat)
    | EvPush(who: nat)
    | EvStopRead
    | EvStartRead
    | EvTask(r: WriteResult)
    | EvPoll(reported: set<Flag>)
    | EvDispatchClose
    | EvDispatchError
    | EvDispatchRead(read: ReadResult)
    | EvDispatchWrite(r: WriteResult)

  predicate UserEvent(e: Event) {
    e.EvSend? || e.EvShutdown? || e.EvForceClose? || e.EvStopRead? || e.EvStartRead? || !OnLoopThread(e)
  }

  predicate OnLoopThread(e: Event) {
    !e.EvSendCheck? && !e.EvShutdownCheck? && !e.EvForceCheck? && !e.EvExchange? && !e.EvPush?
  }

  /** What scheduling, epoll and the kernel allow. User code sees a connection once it is established, and
      epoll reports what was asked for, and errors and hang-ups. */
  predicate Enabled(c: Conn, e: Event) {
    && (UserEvent(e) ==> !c.state.Connecting?)
    && match e
       case EvEstablish => c.state.Connecting?
       case EvSend(data, r) => Fits(r, |data|)
       case EvExchange(who) => who < |c.others| && (c.others[who].ShuttingDown? || c.others[who].Forcing?)
       case EvPush(who) => who < |c.others| && !c.others[who].ShuttingDown? && !c.others[who].Forcing?
       case EvTask(r) => c.stage.Idle? && c.tasks != [] && (c.tasks[0].SendTask? ==> Fits(r, |c.tasks[0].data|))
       case EvPoll(reported) => c.stage.Idle? && c.chan.kernel.Some? && reported <= c.chan.kernel.value + {Err, Hup}
       case EvDispatchClose => c.stage.AtClose?
       case EvDispatchError => c.stage.AtError?
       case EvDispatchRead(_) => c.stage.AtRead?
       case EvDispatchWrite(r) => c.stage.AtWrite? && Fits(r, |c.out|)
       case _ => true
  }

  predicate HangUpOnly(reported: set<Flag>) {
    Hup in reported && In !in reported
  }

  predicate ReadBits(reported: set<Flag>) {
    In in reported || Pri in reported || RdHup in reported
  }

  function Next(c: Conn, e: Event): Conn
    requires Enabled(c, e)
  {
    match e
    case EvEstablish => Establish(c)
    case EvSend(data, r) => if c.state.Connected? then SendInLoop(c, data, r) else c
    case EvShutdown => Shutdown(c)
    case EvForceClose => ForceClose(c)
    case EvSendCheck(data) => if c.state.Connected? then c.(others := c.others + [Sending(data)]) else c
    case EvShutdownCheck => c.(others := c.others + [ShuttingDown], failed := c.failed || c.state.Disconnected?)
    case EvForceCheck => if c.state.Disconnected? then c else c.(others := c.others + [Forcing])
    case EvExchange(who) => Exchange(c, who)
    case EvPush(who) => Push(c, who)
    case EvStopRead => StopRead(c)
    case EvStartRead => StartRead(c)
    case EvTask(r) => RunTask(c.(tasks := c.tasks[1..]), c.tasks[0], r)
    case EvPoll(reported) => c.(stage := AtClose, revents := reported)
    case EvDispatchClose => (if HangUpOnly(c.revents) then HandleClose(c) else c).(stage := AtError)
    case EvDispatchError => c.(stage := AtRead)
    case EvDispatchRead(r) => (if ReadBits(c.revents) then HandleRead(c, r) else c).(stage := AtWrite)
    case EvDispatchWrite(r) => (if Out in c.revents then HandleWrite(c, r) else c).(stage := Idle)
  }

  /** What callers and epoll must respect: nothing that reopens a closed connection, and no hang-up
      without EPOLLIN that still asks for a read. */
  predicate Ruled(c: Conn, e: Event) {
    match e
    case EvShutdown => !c.state.Disconnected?
    case EvShutdownCheck => !c.state.Disconnected?
    case EvExchange(_) => !c.state.Disconnected?
    case EvStartRead => !c.state.Disconnected?
    case EvPoll(reported) => Hup in reported && In !in reported ==> Pri !in reported && RdHup !in reported
    case _ => true
  }

  predicate Legal(c: Conn, evs: seq<Event>)
    decreases evs
  {
    evs == [] || (Enabled(c, evs[0]) && Ruled(c, evs[0]) && Legal(Next(c, evs[0]), evs[1..]))
  }

  function Run(c: Conn, evs: seq<Event>): Conn
    requires Legal(c, evs)
    decreases evs
  {
    if evs == [] then c else Run(Next(c, evs[0]), evs[1..])
  }

  // ----- what every step keeps -----

  predicate ChannelInv(c: Conn) {
    && Mirrors(c.chan)
    && (c.state.Connecting? ==> c.chan == NEW_CHANNEL && c.out == [])
    && (Open(c) ==> c.chan.polling && Pri in c.chan.events && (Writing(c.chan) <==> c.out != []))
    && (c.state.Disconnected? ==> c.chan == NEW_CHANNEL)
  }

  predicate StageInv(c: Conn) {
    && (c.state.Connecting? ==> c.stage.Idle?)
    && (c.stage.AtClose? ==> Open(c))
    && (!c.stage.Idle? && HangUpOnly(c.revents) ==> !ReadBits(c.revents))
    && (!c.stage.Idle? && !c.stage.AtWrite? && c.state.Disconnected? ==> !ReadBits(c.revents))
    && (!c.stage.Idle? && Out in c.revents && Open(c) ==> Writing(c.chan))
  }

  predicate Inv(c: Conn) {
    && !c.failed && ChannelInv(c) && StageInv(c)
    && c.closes == (if c.state.Disconnected? then 1 else 0)
    && (c.state.Connecting? ==> c.tasks == [] && c.others == [])
  }

  lemma SendKeepsInv(c: Conn, data: seq<Byte>, r: WriteResult)
    requires Inv(c) && !c.state.Connecting? && Fits(r, |data|)
    ensures Inv(SendInLoop(c, data, r))
  {
  }

  lemma HandleWriteKeepsInv(c: Conn, r: WriteResult)
    requires Inv(c) && c.stage.AtWrite? && Out in c.revents && Fits(r, |c.out|)
    ensures Inv(HandleWrite(c, r).(stage := Idle))
  {
    if Open(c) { assert Pri in c.chan.events - {Out}; }
  }

  lemma StepInv(c: Conn, e: Event)
    requires Inv(c) && Enabled(c, e) && Ruled(c, e)
    ensures Inv(Next(c, e))
  {
    match e
    case EvSend(data, r) => SendKeepsInv(c, data, r);
    case EvTask(r) =>
      if c.tasks[0].SendTask? { SendKeepsInv(c.(tasks := c.tasks[1..]), c.tasks[0].data, r); }
    case EvDispatchWrite(r) =>
      if Out in c.revents { HandleWriteKeepsInv(c, r); }
    case EvStopRead =>
      if Open(c) { assert Pri in c.chan.events - {In}; }
    case _ =>
  }

  lemma {:induction false} RunInv(c: Conn, evs: seq<Event>)
    requires Inv(c) && Legal(c, evs)
    ensures Inv(Run(c, evs))
    decreases evs
  {
    if evs != [] {
      StepInv(c, evs[0]);
      RunInv(Next(c, evs[0]), evs[1..]);
    }
  }

  /** No assert of the connection fails, and while it is open it is registered for EPOLLOUT exactly when
      output is waiting; also in the middle of a dispatch, when the reported EPOLLOUT is an old one. */
  lemma AssertsNeverFail(config: Config, evs: seq<Event>)
    requires Legal(NewConn(config), evs)
    ensures var c := Run(NewConn(config), evs);
            && !c.failed
            && (Open(c) ==> (Writing(c.chan) <==> c.out != []))
            && c.chan.kernel == (if Open(c) then Some(c.chan.events) else None)
            && (c.stage.AtWrite? && Out in c.revents && Open(c) ==> c.out != [])
  {
    RunInv(NewConn(config), evs);
  }

  // ----- the wire -----

  /** The data one step passes to sendInLoop while the connection is not disconnected. */
  function StepSubmitted(c: Conn, e: Event): seq<Byte> {
    match e
    case EvSend(data, _) => if c.state.Connected? then data else []
    case EvTask(_) =>
      if c.tasks != [] && c.tasks[0].SendTask? && !c.state.Disconnected? then c.tasks[0].data else []
    case _ => []
  }

  function Submitted(c: Conn, evs: seq<Event>): seq<Byte>
    requires Legal(c, evs)
    decreases evs
  {
    if evs == [] then [] else StepSubmitted(c, evs[0]) + Submitted(Next(c, evs[0]), evs[1..])
  }

  lemma SendWire(c: Conn, data: seq<Byte>, r: WriteResult)
    requires Inv(c) && Open(c) && Fits(r, |data|)
    ensures var d := SendInLoop(c, data, r);
            (c.faulted ==> d.faulted) && (!d.faulted ==> d.wire + d.out == c.wire + c.out + data)
  {
    if r.Wrote? { assert data == data[..r.n] + data[r.n..]; }
  }

  lemma DrainWire(c: Conn, r: WriteResult)
    requires Fits(r, |c.out|)
    ensures HandleWrite(c, r).wire + HandleWrite(c, r).out == c.wire + c.out
    ensures HandleWrite(c, r).others == c.others && HandleWrite(c, r).faulted == c.faulted
  {
    if r.Wrote? {
      assert c.out == c.out[..r.n] + c.out[r.n..];
      assert c.wire + c.out[..r.n] + c.out[r.n..] == c.wire + c.out;
    }
  }

  /** One step moves bytes from the submitted data to the buffer and from the buffer to the wire, in order. */
  lemma StepWire(c: Conn, e: Event)
    requires Inv(c) && Enabled(c, e) && Ruled(c, e)
    ensures var d := Next(c, e);
            (c.faulted ==> d.faulted) && (!d.faulted ==> d.wire + d.out == c.wire + c.out + StepSubmitted(c, e))
  {
    match e
    case EvSend(data, r) =>
      if c.state.Connected? { SendWire(c, data, r); }
    case EvTask(r) =>
      if c.tasks[0].SendTask? && Open(c) { SendWire(c.(tasks := c.tasks[1..]), c.tasks[0].data, r); }
    case EvDispatchWrite(r) => DrainWire(c, r);
    case _ =>
  }

  lemma {:induction false} RunWire(c: Conn, evs: seq<Event>)
    requires Inv(c) && Legal(c, evs)
    ensures var d := Run(c, evs);
            (c.faulted ==> d.faulted) && (!d.faulted ==> d.wire + d.out == c.wire + c.out + Submitted(c, evs))
    decreases evs
  {
    if evs != [] {
      StepInv(c, evs[0]);
      StepWire(c, evs[0]);
      RunWire(Next(c, evs[0]), evs[1..]);
    }
  }

  /** Until a fatal write error, wire and output buffer together are exactly the data submitted. */
  lemma WireIsSubmittedData(config: Config, evs: seq<Event>)
    requires Legal(NewConn(config), evs)
    ensures var c := Run(NewConn(config), evs);
            !c.faulted ==> c.wire + c.out == Submitted(NewConn(config), evs)
  {
    RunWire(NewConn(config), evs);
  }

  /** The kernel takes nothing more once a fatal error has been seen. */
  predicate SilentAfterFault(c: Conn, evs: seq<Event>)
    requires Legal(c, evs)
    decreases evs
  {
    evs == [] || ((c.faulted ==> Next(c, evs[0]).wire == c.wire) && SilentAfterFault(Next(c, evs[0]), evs[1..]))
  }

  /** `before` is the data submitted so far. */
  predicate PrefixInv(c: Conn, before: seq<Byte>) {
    if c.faulted then c.wire <= before else c.wire + c.out == before
  }

  lemma StepPrefix(c: Conn, e: Event, before: seq<Byte>)
    requires Inv(c) && Enabled(c, e) && Ruled(c, e) && PrefixInv(c, before)
    requires c.faulted ==> Next(c, e).wire == c.wire
    ensures PrefixInv(Next(c, e), before + StepSubmitted(c, e))
  {
    StepWire(c, e);
    if Next(c, e).faulted && !c.faulted { FaultLeavesWire(c, e); }
  }

  lemma {:induction false} RunPrefix(c: Conn, evs: seq<Event>, before: seq<Byte>)
    requires Inv(c) && Legal(c, evs) && SilentAfterFault(c, evs) && PrefixInv(c, before)
    ensures PrefixInv(Run(c, evs), before + Submitted(c, evs))
    decreases evs
  {
    if evs == [] {
      assert before + Submitted(c, evs) == before;
    } else {
      var e, d := evs[0], Next(c, evs[0]);
      StepInv(c, e);
      StepPrefix(c, e, before);
      RunPrefix(d, evs[1..], before + StepSubmitted(c, e));
      Associative(before, StepSubmitted(c, e), Submitted(d, evs[1..]));
    }
  }

  lemma FaultLeavesWire(c: Conn, e: Event)
    requires Inv(c) && Enabled(c, e) && !c.faulted && Next(c, e).faulted
    ensures Next(c, e).wire == c.wire
  {
  }

  /** Data is dropped only for a broken pipe or a reset met by a direct write: with any other outcome of any
      write the step keeps every byte. */
  lemma OnlyPipeOrResetIsFatal(c: Conn, e: Event)
    requires Inv(c) && Enabled(c, e) && Ruled(c, e) && !c.faulted
    requires e.EvSend? ==> e.r != Failed(BrokenPipe) && e.r != Failed(ConnReset)
    requires e.EvTask? ==> e.r != Failed(BrokenPipe) && e.r != Failed(ConnReset)
    ensures Next(c, e).wire + Next(c, e).out == c.wire + c.out + StepSubmitted(c, e)
  {
    StepWire(c, e);
  }

  /** The step makes a write that does not come from the output buffer. */
  predicate DirectWrite(c: Conn, e: Event) {
    || (e.EvSend? && c.state.Connected? && !Writing(c.chan))
    || (e.EvTask? && c.tasks != [] && c.tasks[0].SendTask? && Open(c) && !Writing(c.chan))
  }

  /** The other way round, too: a direct write that meets one of the two is given up, and what it offered with
      it; nothing else sets the fault. */
  lemma FaultedIff(c: Conn, e: Event)
    requires Inv(c) && Enabled(c, e) && Ruled(c, e)
    ensures Next(c, e).faulted
            <==> c.faulted || (DirectWrite(c, e) && (e.r == Failed(BrokenPipe) || e.r == Failed(ConnReset)))
    ensures DirectWrite(c, e) && (e.r == Failed(BrokenPipe) || e.r == Failed(ConnReset))
            ==> Next(c, e).wire == c.wire && Next(c, e).out == c.out
  {
  }

  /** With a kernel that takes nothing after a fatal error, the wire is always a prefix of the data. */
  lemma WireIsPrefixOfSubmittedData(config: Config, evs: seq<Event>)
    requires Legal(NewConn(config), evs) && SilentAfterFault(NewConn(config), evs)
    ensures Run(NewConn(config), evs).wire <= Submitted(NewConn(config), evs)
  {
    RunPrefix(NewConn(config), evs, []);
    assert [] + Submitted(NewConn(config), evs) == Submitted(NewConn(config), evs);
  }

  /** The queue a step starts from: a task being run has left it. */
  function TasksBefore(c: Conn, e: Event): seq<Task> {
    if e.EvTask? && c.tasks != [] then c.tasks[1..] else c.tasks
  }

  /** The step makes a write that the kernel answers, be it for less than was offered. */
  predicate WritesSome(c: Conn, e: Event) {
    match e
    case EvSend(_, r) => c.state.Connected? && !Writing(c.chan) && r.Wrote?
    case EvTask(r) => c.tasks != [] && c.tasks[0].SendTask? && Open(c) && !Writing(c.chan) && r.Wrote?
    case EvDispatchWrite(r) => Out in c.revents && Open(c) && r.Wrote?
    case _ => false
  }

  lemma LastTask(before: seq<Task>, after: seq<Task>, t: Task)
    requires Appends(before, after)
    ensures after == before + [t] <==> after != before && after[|before|] == t
  {
    if after != before && after[|before|] == t { assert after == after[..|before|] + [t]; }
  }

  /** The write-complete callback is queued by exactly the steps whose write leaves no output waiting. */
  lemma WriteCompleteIffWritten(c: Conn, e: Event)
    requires Inv(c) && Enabled(c, e) && Ruled(c, e)
    ensures Next(c, e).tasks == TasksBefore(c, e) + [WriteComplete]
            <==> c.config.onComplete && WritesSome(c, e) && Next(c, e).out == []
  {
    StepTasks(c, e);
    LastTask(TasksBefore(c, e), Next(c, e).tasks, WriteComplete);
  }

  lemma StepTasks(c: Conn, e: Event)
    requires Inv(c) && Enabled(c, e) && Ruled(c, e)
    ensures var before, after := TasksBefore(c, e), Next(c, e).tasks;
            Appends(before, after)
  {
    if e.EvSend? {
      if c.state.Connected? { SendTasks(c, e.data, e.r); }
    } else if e.EvTask? {
      if c.tasks[0].SendTask? { SendTasks(c.(tasks := c.tasks[1..]), c.tasks[0].data, e.r); }
    } else if e.EvDispatchWrite? {
      WriteTasks(c, e.r);
    }
  }

  /** At most one more at the end. */
  predicate Appends(before: seq<Task>, after: seq<Task>) {
    after == before || (|after| == |before| + 1 && after[..|before|] == before)
  }

  lemma SendTasks(c: Conn, data: seq<Byte>, r: WriteResult)
    requires Fits(r, |data|)
    ensures var d := SendInLoop(c, data, r);
            d.tasks == c.tasks || d.tasks == c.tasks + [WriteComplete] || d.tasks == c.tasks + [HighWater(|d.out|)]
  {
  }

  lemma WriteTasks(c: Conn, r: WriteResult)
    requires Fits(r, |c.out|)
    ensures Appends(c.tasks, HandleWrite(c, r).tasks)
  {
  }

  /** When it is queued, absent a fatal error, the wire is all that was ever submitted. */
  lemma WriteCompleteMeansWritten(config: Config, evs: seq<Event>, e: Event)
    requires Legal(NewConn(config), evs)
    requires var c := Run(NewConn(config), evs);
             Enabled(c, e) && Ruled(c, e) && !Next(c, e).faulted
             && Next(c, e).tasks == TasksBefore(c, e) + [WriteComplete]
    ensures var c := Run(NewConn(config), evs);
            Next(c, e).wire == Submitted(NewConn(config), evs) + StepSubmitted(c, e)
  {
    var c := Run(NewConn(config), evs);
    RunInv(NewConn(config), evs);
    WireIsSubmittedData(config, evs);
    StepWire(c, e);
    WriteCompleteIffWritten(c, e);
    assert Next(c, e).wire + [] == Next(c, e).wire;
  }

  /** The high-water callback is queued, with what then waits, by exactly the steps that take the waiting
      output from below the mark to it or beyond. */
  lemma HighWaterIffCrossed(c: Conn, e: Event)
    requires Inv(c) && Enabled(c, e) && Ruled(c, e)
    ensures Next(c, e).tasks == TasksBefore(c, e) + [HighWater(|Next(c, e).out|)]
            <==> c.config.highWater.Some? && |c.out| < c.config.highWater.value <= |Next(c, e).out|
  {
    var d := Next(c, e);
    StepTasks(c, e);
    LastTask(TasksBefore(c, e), d.tasks, HighWater(|d.out|));
    if e.EvSend? {
      if c.state.Connected? { SendHighWater(c, e.data, e.r); }
    } else if e.EvTask? {
      if c.tasks[0].SendTask? { SendHighWater(c.(tasks := c.tasks[1..]), c.tasks[0].data, e.r); }
    } else {
      assert |d.out| <= |c.out|;
    }
  }

  lemma SendHighWater(c: Conn, data: seq<Byte>, r: WriteResult)
    requires Fits(r, |data|)
    ensures var d := SendInLoop(c, data, r);
            (d.tasks != c.tasks && |d.tasks| > |c.tasks| && d.tasks[|c.tasks|] == HighWater(|d.out|))
            <==> (c.config.highWater.Some? && |c.out| < c.config.highWater.value <= |d.out|)
  {
  }

  /** What the kernel took in one step. */
  function Took(c: Conn, e: Event): nat {
    if WritesSome(c, e) then e.r.n else 0
  }

  function TookInRun(c: Conn, evs: seq<Event>): nat
    requires Legal(c, evs)
    decreases evs
  {
    if evs == [] then 0 else Took(c, evs[0]) + TookInRun(Next(c, evs[0]), evs[1..])
  }

  lemma StepTook(c: Conn, e: Event)
    requires Inv(c) && Enabled(c, e) && Ruled(c, e)
    ensures |Next(c, e).wire| == |c.wire| + Took(c, e)
  {
  }

  lemma {:induction false} RunTook(c: Conn, evs: seq<Event>)
    requires Inv(c) && Legal(c, evs)
    ensures |Run(c, evs).wire| == |c.wire| + TookInRun(c, evs)
    decreases evs
  {
    if evs != [] {
      StepInv(c, evs[0]);
      StepTook(c, evs[0]);
      RunTook(Next(c, evs[0]), evs[1..]);
    }
  }

  /** The wire has as many bytes as the kernel said it took, write by write. */
  lemma WireIsWhatTheKernelTook(config: Config, evs: seq<Event>)
    requires Legal(NewConn(config), evs)
    ensures |Run(NewConn(config), evs).wire| == TookInRun(NewConn(config), evs)
  {
    RunTook(NewConn(config), evs);
  }

  // ----- life cycle -----

  /** Whether reading is asked for: by establishing and startRead, until stopRead. */
  predicate WantsReading(wants: bool, evs: seq<Event>)
    decreases evs
  {
    if evs == [] then wants
    else WantsReading(if evs[0].EvStopRead? then false else wants || evs[0].EvEstablish? || evs[0].EvStartRead?,
                      evs[1..])
  }

  lemma StepReading(c: Conn, e: Event)
    requires Inv(c) && Enabled(c, e) && Ruled(c, e) && Open(Next(c, e))
    ensures Reading(Next(c, e).chan)
            <==> !e.EvStopRead? && ((Open(c) && Reading(c.chan)) || e.EvEstablish? || e.EvStartRead?)
  {
    if e.EvSend? {
      SendKeepsReading(c, e.data, e.r);
    } else if e.EvTask? {
      if c.tasks[0].SendTask? { SendKeepsReading(c.(tasks := c.tasks[1..]), c.tasks[0].data, e.r); }
    } else if e.EvDispatchWrite? {
      DrainKeepsReading(c, e.r);
    }
  }

  lemma SendKeepsReading(c: Conn, data: seq<Byte>, r: WriteResult)
    requires Fits(r, |data|)
    ensures var d := SendInLoop(c, data, r); (Reading(d.chan) <==> Reading(c.chan)) && d.state == c.state
  {
  }

  lemma DrainKeepsReading(c: Conn, r: WriteResult)
    requires Fits(r, |c.out|)
    ensures var d := HandleWrite(c, r); (Reading(d.chan) <==> Reading(c.chan)) && d.state == c.state
  {
  }

  lemma {:induction false} RunReading(c: Conn, evs: seq<Event>, wants: bool)
    requires Inv(c) && Legal(c, evs)
    requires Open(c) ==> (Reading(c.chan) <==> wants)
    requires c.state.Connecting? ==> !wants
    ensures Open(Run(c, evs)) ==> (Reading(Run(c, evs).chan) <==> WantsReading(wants, evs))
    decreases evs
  {
    if evs != [] {
      var e, d := evs[0], Next(c, evs[0]);
      StepInv(c, e);
      StateOnlyMovesForward(d, evs[1..]);
      if c.state.Disconnected? {
        StateOnlyMovesForward(c, evs);
      } else {
        if Open(d) { StepReading(c, e); }
        RunReading(d, evs[1..], if e.EvStopRead? then false else wants || e.EvEstablish? || e.EvStartRead?);
      }
    }
  }

  /** An open connection waits for EPOLLIN exactly when reading was asked for last, and epoll knows. */
  lemma ReadsExactlyWhenAsked(config: Config, evs: seq<Event>)
    requires Legal(NewConn(config), evs)
    ensures var c := Run(NewConn(config), evs);
            Open(c) ==> (In in c.chan.events <==> WantsReading(false, evs)) && c.chan.kernel == Some(c.chan.events)
  {
    RunInv(NewConn(config), evs);
    RunReading(NewConn(config), evs, false);
  }

  /** What closes a connection: a hang-up with nothing to read, an end of file, and a forced close. */
  predicate Closing(c: Conn, e: Event) {
    match e
    case EvDispatchClose => Hup in c.revents && In !in c.revents
    case EvDispatchRead(r) => r.EndOfFile? && c.revents * {In, Pri, RdHup} != {}
    case EvTask(_) => c.tasks != [] && c.tasks[0].ForceCloseTask? && Open(c)
    case _ => false
  }

  predicate EverClosing(c: Conn, evs: seq<Event>)
    requires Legal(c, evs)
    decreases evs
  {
    evs != [] && (Closing(c, evs[0]) || EverClosing(Next(c, evs[0]), evs[1..]))
  }

  lemma StepCloses(c: Conn, e: Event)
    requires Inv(c) && Enabled(c, e) && Ruled(c, e)
    ensures Next(c, e).closes == c.closes + if Closing(c, e) then 1 else 0
    ensures Next(c, e).state.Disconnected? <==> c.state.Disconnected? || Closing(c, e)
  {
    assert c.revents * {In, Pri, RdHup} != {} <==> ReadBits(c.revents) by {
      if In in c.revents { assert In in c.revents * {In, Pri, RdHup}; }
      if Pri in c.revents { assert Pri in c.revents * {In, Pri, RdHup}; }
      if RdHup in c.revents { assert RdHup in c.revents * {In, Pri, RdHup}; }
    }
  }

  lemma {:induction false} RunCloses(c: Conn, evs: seq<Event>)
    requires Inv(c) && Legal(c, evs)
    ensures Run(c, evs).state.Disconnected? <==> c.state.Disconnected? || EverClosing(c, evs)
    decreases evs
  {
    if evs != [] {
      StepInv(c, evs[0]);
      StepCloses(c, evs[0]);
      RunCloses(Next(c, evs[0]), evs[1..]);
    }
  }

  /** A connection is closed in a run if and only if one of these happened to it. */
  lemma ClosedIff(config: Config, evs: seq<Event>)
    requires Legal(NewConn(config), evs)
    ensures Run(NewConn(config), evs).state.Disconnected? <==> EverClosing(NewConn(config), evs)
  {
    RunCloses(NewConn(config), evs);
  }

  /** A forced close is done, queued, or on its way there in another thread. */
  predicate ForcedClose(c: Conn) {
    c.state.Disconnected? || ForceCloseTask in c.tasks || OweForceClose in c.others || Forcing in c.others
  }

  lemma KeptWithout<T>(s: seq<T>, i: nat, x: T)
    requires i < |s| && x in s && s[i] != x
    ensures x in Without(s, i)
  {
    var j :| 0 <= j < |s| && s[j] == x;
    assert Without(s, i)[if j < i then j else j - 1] == x;
  }

  lemma KeptUpdate<T>(s: seq<T>, i: nat, y: T, x: T)
    requires i < |s| && x in s && (s[i] != x || y == x)
    ensures x in s[i := y]
  {
    var j :| 0 <= j < |s| && s[j] == x;
    assert s[i := y][j] == x;
  }

  lemma ExchangeForced(c: Conn, who: nat)
    requires Enabled(c, EvExchange(who)) && !c.state.Disconnected? && ForcedClose(c)
    ensures ForcedClose(Exchange(c, who))
  {
    if c.others[who].Forcing? {
      assert Exchange(c, who).others[who] == OweForceClose;
    } else if ForceCloseTask !in c.tasks {
      var x := if OweForceClose in c.others then OweForceClose else Forcing;
      KeptWithout(c.others, who, x);
      KeptUpdate(c.others, who, OweShutdown, x);
    }
  }

  lemma PushForced(c: Conn, who: nat)
    requires Enabled(c, EvPush(who)) && ForcedClose(c)
    ensures ForcedClose(Push(c, who))
  {
    var d := Push(c, who);
    if c.others[who].OweForceClose? {
      assert d.tasks[|c.tasks|] == ForceCloseTask;
    } else if ForceCloseTask in c.tasks {
      assert c.tasks == d.tasks[..|c.tasks|];
    } else if !c.state.Disconnected? {
      KeptWithout(c.others, who, if OweForceClose in c.others then OweForceClose else Forcing);
    }
  }

  lemma TaskForced(c: Conn, r: WriteResult)
    requires Inv(c) && Enabled(c, EvTask(r)) && ForcedClose(c)
    ensures ForcedClose(Next(c, EvTask(r)))
  {
    var popped := c.(tasks := c.tasks[1..]);
    assert c.tasks == [c.tasks[0]] + c.tasks[1..];
    if c.tasks[0].SendTask? { SendForced(popped, c.tasks[0].data, r); }
  }

  lemma SendForced(c: Conn, data: seq<Byte>, r: WriteResult)
    requires Fits(r, |data|)
    ensures ForcedClose(c) ==> ForcedClose(SendInLoop(c, data, r))
  {
    SendTasks(c, data, r);
  }

  lemma StepForced(c: Conn, e: Event)
    requires Inv(c) && Enabled(c, e) && Ruled(c, e) && (ForcedClose(c) || e.EvForceClose? || e.EvForceCheck?)
    ensures ForcedClose(Next(c, e))
  {
    match e
    case EvForceClose => assert !c.state.Disconnected? ==> Next(c, e).tasks[|c.tasks|] == ForceCloseTask;
    case EvForceCheck => assert !c.state.Disconnected? ==> Next(c, e).others[|c.others|] == Forcing;
    case EvExchange(who) => ExchangeForced(c, who);
    case EvPush(who) => PushForced(c, who);
    case EvTask(r) => TaskForced(c, r);
    case EvSend(data, r) => SendForced(c, data, r);
    case _ =>
  }

  lemma {:induction false} RunForced(c: Conn, evs: seq<Event>)
    requires Inv(c) && Legal(c, evs) && (ForcedClose(c) || EvForceClose in evs || EvForceCheck in evs)
    ensures ForcedClose(Run(c, evs))
    decreases evs
  {
    if evs != [] {
      StepInv(c, evs[0]);
      if ForcedClose(c) || evs[0].EvForceClose? || evs[0].EvForceCheck? { StepForced(c, evs[0]); }
      assert evs == [evs[0]] + evs[1..];
      RunForced(Next(c, evs[0]), evs[1..]);
    }
  }

  /** A connection that was forced, on the loop's thread or another, is closed or has its close coming; and the
      queued function closes an open connection. */
  lemma ForcedIsClosing(config: Config, evs: seq<Event>, r: WriteResult)
    requires Legal(NewConn(config), evs) && (EvForceClose in evs || EvForceCheck in evs)
    ensures ForcedClose(Run(NewConn(config), evs))
    ensures var c := Run(NewConn(config), evs);
            c.tasks != [] && c.tasks[0].ForceCloseTask? && Enabled(c, EvTask(r))
            ==> Next(c, EvTask(r)).state.Disconnected? && Next(c, EvTask(r)).closes == 1
  {
    RunInv(NewConn(config), evs);
    RunForced(NewConn(config), evs);
  }

  /** `shutdown` and `forceClose` on the loop's thread leave no connection connected, nor does an exchange. */
  lemma {:induction false} AskedToCloseIsNotConnected(c: Conn, evs: seq<Event>)
    requires Inv(c) && Legal(c, evs)
    requires c.state.Disconnecting? || c.state.Disconnected?
             || exists e :: e in evs && (e.EvShutdown? || e.EvForceClose? || e.EvExchange?)
    ensures Rank(Run(c, evs).state) >= 2
    decreases evs
  {
    if evs != [] {
      var d := Next(c, evs[0]);
      StepInv(c, evs[0]);
      StateOnlyMovesForward(d, evs[1..]);
      assert evs == [evs[0]] + evs[1..];
      if !evs[0].EvShutdown? && !evs[0].EvForceClose? && !evs[0].EvExchange? && Rank(c.state) < 2 {
        var e :| e in evs && (e.EvShutdown? || e.EvForceClose? || e.EvExchange?);
        assert e in evs[1..];
        AskedToCloseIsNotConnected(d, evs[1..]);
      } else {
        StepAsked(c, evs[0]);
      }
    }
  }

  lemma StepAsked(c: Conn, e: Event)
    requires Inv(c) && Enabled(c, e) && Ruled(c, e)
    requires Rank(c.state) >= 2 || e.EvShutdown? || e.EvForceClose? || e.EvExchange?
    ensures Rank(Next(c, e).state) >= 2
  {
  }

  function Rank(s: ConnState): nat {
    match s case Connecting => 0 case Connected => 1 case Disconnecting => 2 case Disconnected => 3
  }

  lemma {:induction false} StateOnlyMovesForward(c: Conn, evs: seq<Event>)
    requires Inv(c) && Legal(c, evs)
    ensures Rank(c.state) <= Rank(Run(c, evs).state)
    decreases evs
  {
    if evs != [] {
      StepInv(c, evs[0]);
      StateOnlyMovesForward(Next(c, evs[0]), evs[1..]);
    }
  }

  /** handleClose runs at most once, and exactly when the connection ends up disconnected. */
  lemma ClosedAtMostOnce(config: Config, evs: seq<Event>)
    requires Legal(NewConn(config), evs)
    ensures var c := Run(NewConn(config), evs); c.closes <= 1 && (c.closes == 1 <==> c.state.Disconnected?)
  {
    RunInv(NewConn(config), evs);
  }

  /** From any reachable state, a step that the rules exclude is exactly one that breaks the life cycle: it
      moves the state backward, registers a closed connection again, or fails the assert that it is not
      closed. For polls see the next lemma. */
  lemma RulesAreExact(c: Conn, e: Event)
    requires Inv(c) && Enabled(c, e) && !e.EvPoll?
    ensures Ruled(c, e) <==> Rank(c.state) <= Rank(Next(c, e).state)
                             && (c.state.Disconnected? ==> Next(c, e).chan.kernel.None?)
                             && !Next(c, e).failed
  {
    if Ruled(c, e) { StepInv(c, e); }
  }

  /** A hang-up without EPOLLIN that asks for a read makes handleRead run on a closed connection. */
  lemma ReadAfterHangUpFails(c: Conn, reported: set<Flag>, r: ReadResult)
    requires Inv(c) && Enabled(c, EvPoll(reported)) && HangUpOnly(reported)
    ensures var d := Next(Next(Next(c, EvPoll(reported)), EvDispatchClose), EvDispatchError);
            d.stage.AtRead? && (Next(d, EvDispatchRead(r)).failed <==> ReadBits(reported))
  {
  }

  lemma OneStepFirst(c: Conn, e: Event, rest: seq<Event>)
    requires Enabled(c, e) && Ruled(c, e) && Legal(Next(c, e), rest)
    ensures Legal(c, [e] + rest) && Run(c, [e] + rest) == Run(Next(c, e), rest)
  {
    assert ([e] + rest)[1..] == rest;
  }

  const NO_CALLBACKS := Config(false, None)

  /** Such an exchange is reachable: `forceClose` on another thread is past its test when the loop reads an end
      of file and closes the connection, which the exchange then takes back to disconnecting. */
  lemma StaleExchangeIsReachable() returns (evs: seq<Event>)
    ensures Legal(NewConn(NO_CALLBACKS), evs)
    ensures var c := Run(NewConn(NO_CALLBACKS), evs);
            && Enabled(c, EvExchange(0)) && !Ruled(c, EvExchange(0))
            && c.state.Disconnected? && Next(c, EvExchange(0)).state.Disconnecting?
  {
    var start := NewConn(NO_CALLBACKS);
    var open := Next(start, EvEstablish);
    var tested := Next(open, EvForceCheck);
    var last := ReadsEndOfFile(tested);
    OneStepFirst(open, EvForceCheck, last);
    OneStepFirst(start, EvEstablish, [EvForceCheck] + last);
    evs := [EvEstablish] + ([EvForceCheck] + last);
  }

  lemma ReadsEndOfFile(c: Conn) returns (evs: seq<Event>)
    requires c.stage.Idle? && Open(c) && c.chan.polling && c.chan.kernel.Some? && In in c.chan.kernel.value
    ensures Legal(c, evs) && Run(c, evs).state.Disconnected? && Run(c, evs).others == c.others
  {
    var polled := Next(c, EvPoll({In}));
    var past := Next(polled, EvDispatchClose);
    var reading := Next(past, EvDispatchError);
    var closed := Next(reading, EvDispatchRead(EndOfFile));
    assert Legal(closed, []) && Run(closed, []) == closed;
    OneStepFirst(reading, EvDispatchRead(EndOfFile), []);
    evs := [EvDispatchRead(EndOfFile)] + [];
    OneStepFirst(past, EvDispatchError, evs);
    evs := [EvDispatchError] + evs;
    OneStepFirst(polled, EvDispatchClose, evs);
    evs := [EvDispatchClose] + evs;
    OneStepFirst(c, EvPoll({In}), evs);
    evs := [EvPoll({In})] + evs;
  }

  /** So is such a hang-up: epoll may report it with EPOLLPRI for any connection just established. */
  lemma HangUpWithPriFails(config: Config, r: ReadResult)
    ensures Legal(NewConn(config), [EvEstablish])
    ensures var c := Run(NewConn(config), [EvEstablish]);
            && Enabled(c, EvPoll({Hup, Pri}))
            && var d := Next(Next(Next(c, EvPoll({Hup, Pri})), EvDispatchClose), EvDispatchError);
               Enabled(d, EvDispatchRead(r)) && Next(d, EvDispatchRead(r)).failed
  {
    var c := Next(NewConn(config), EvEstablish);
    assert Legal(c, []) && Run(c, []) == c;
    OneStepFirst(NewConn(config), EvEstablish, []);
    assert [EvEstablish] + [] == [EvEstablish];
    StepInv(NewConn(config), EvEstablish);
    ReadAfterHangUpFails(c, {Hup, Pri}, r);
  }
}
