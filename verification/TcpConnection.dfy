/** TcpConnection.cpp: the object, over the real buffer and channel. TcpProtocol.dfy has its step functions. */
module TcpConnections {
  import opened Base
  import opened BigEndian
  import opened Buffers
  import opened Channels
  import opened TcpProtocol
  import P = TcpProtocol

  function Answer(arrived: Option<seq<Byte>>): ReadResult {
    if arrived.None? then ReadFailed else if arrived.value == [] then EndOfFile else Received
  }

  /**
   The connection itself, over a real output buffer and a real channel. `r` is the outcome of the write the
   member makes. Each member is proved to be its step or step function, with `failed` still false. The part
   that `send`, `shutdown` and `forceClose` have in common on another thread are `Exchange` and `Push`; `others`
   stands for what those threads have on their stacks.
   */
  class TcpConnection {
    const config: Config
    const inputBuffer: Buffer
    const outputBuffer: Buffer
    const channel: Channel
    var state: ConnState
    var tasks: seq<Task>
    var stage: Stage
    var revents: set<Flag>
    var others: seq<Other>
    var faulted: bool
    ghost var wire: seq<Byte>
    ghost var halfCloses: nat
    ghost var closes: nat

    ghost function Footprint(): set<object>
      reads this, outputBuffer
    {
      {this, outputBuffer, outputBuffer.storage, channel}
    }

    /** The input buffer is no part of what the other members may change. */
    ghost predicate InputApart()
      reads this, outputBuffer, inputBuffer
    {
      inputBuffer.Valid() && inputBuffer !in Footprint() && inputBuffer.storage !in Footprint()
    }

    ghost predicate Valid()
      reads Footprint()
    {
      outputBuffer.Valid() && Inv(View())
    }

    ghost function View(): Conn
      reads this, outputBuffer, outputBuffer.storage, channel
      requires outputBuffer.Valid()
    {
      Conn(config, state, outputBuffer.Contents(), channel.View(), tasks, stage, revents, others,
           wire, halfCloses, closes, faulted, false)
    }

    /** After a step: what it made of the connection, and no buffer but the connection's own was touched. */
    twostate predicate Became(c: Conn)
      reads Footprint()
    {
      && outputBuffer.Valid() && View() == c
      && (outputBuffer.storage == old(outputBuffer.storage) || fresh(outputBuffer.storage))
    }

    constructor (config: Config)
      ensures Valid() && View() == NewConn(config)
      ensures InputApart() && inputBuffer.Contents() == []
      ensures fresh(outputBuffer) && fresh(outputBuffer.storage) && fresh(channel)
      ensures fresh(inputBuffer) && fresh(inputBuffer.storage)
    {
      this.config := config;
      inputBuffer := new Buffer(1024);
      outputBuffer := new Buffer(1024);
      channel := new Channel();
      state, tasks, stage, revents, others := Connecting, [], Idle, {}, [];
      wire, halfCloses, closes, faulted := [], 0, 0, false;
    }

    method ConnectEstablished()
      requires Valid() && state.Connecting?
      modifies Footprint()
      ensures Became(Establish(old(View())))
    {
      state := Connected;
      channel.EnableRead();
    }

    /** The last part of sendInLoop: what the kernel left goes to the output buffer. */
    method KeepRest(rest: seq<Byte>)
      requires outputBuffer.Valid() && rest != []
      modifies Footprint()
      ensures Became(QueueRest(old(View()), rest))
    {
      if config.highWater.Some? {
        var oldLen := outputBuffer.ReadableBytes();
        var newLen := oldLen + |rest|;
        if oldLen < config.highWater.value && newLen >= config.highWater.value {
          tasks := tasks + [HighWater(newLen)];
        }
      }
      outputBuffer.Append(rest);
      channel.EnableWrite();
    }

    method SendInLoop(data: seq<Byte>, r: WriteResult)
      requires Valid() && !state.Connecting? && Fits(r, |data|)
      modifies Footprint()
      ensures Became(P.SendInLoop(old(View()), data, r))
    {
      if state.Disconnected? {
        return;
      }
      SendOpen(data, r);
    }

    /** The rest of it, on a connection not closed. */
    method SendOpen(data: seq<Byte>, r: WriteResult)
      requires outputBuffer.Valid() && !state.Disconnected? && Fits(r, |data|)
      requires Out !in channel.events ==> outputBuffer.Contents() == []
      modifies Footprint()
      ensures Became(P.SendInLoop(old(View()), data, r))
    {
      var n, remain, faultError := 0, |data|, false;
      if Out !in channel.events {
        assert outputBuffer.ReadableBytes() == 0;
        if r.Failed? {
          faultError := Fatal(r.errno);
          faulted := faulted || faultError;
        } else {
          n := r.n;
          wire := wire + data[..n];
          remain := remain - n;
          if remain == 0 && config.onComplete {
            tasks := tasks + [WriteComplete];
          }
        }
      }
      if !faultError && remain > 0 {
        KeepRest(data[n..]);
      }
    }

    /** `send` on the loop's thread. */
    method Send(data: seq<Byte>, r: WriteResult)
      requires Valid() && !state.Connecting? && Fits(r, |data|)
      modifies Footprint()
      ensures Became(Next(old(View()), EvSend(data, r)))
    {
      if !state.Connected? {
        return;
      }
      SendInLoop(data, r);
    }

    /** `send` on another thread, up to its call of queueInLoop. */
    method SendCheck(data: seq<Byte>)
      requires Valid() && !state.Connecting?
      modifies `others
      ensures View() == Next(old(View()), EvSendCheck(data))
    {
      if !state.Connected? {
        return;
      }
      others := others + [Sending(data)];
    }

    method ShutdownInLoop()
      requires outputBuffer.Valid()
      modifies `halfCloses
      ensures View() == P.ShutdownInLoop(old(View()))
    {
      if !state.Disconnected? && Out !in channel.events {
        halfCloses := halfCloses + 1;
      }
    }

    /** `shutdown` on the loop's thread. */
    method Shutdown()
      requires Valid() && !state.Connecting? && !state.Disconnected?
      modifies `state, `halfCloses
      ensures View() == Next(old(View()), EvShutdown)
    {
      var was := state;
      state := Disconnecting;
      if was == Connected {
        ShutdownInLoop();
      }
    }

    /** `shutdown` on another thread, up to its exchange of the state. */
    method ShutdownCheck()
      requires Valid() && !state.Connecting? && !state.Disconnected?
      modifies `others
      ensures View() == Next(old(View()), EvShutdownCheck)
    {
      assert state.Connected? || state.Disconnecting?;
      others := others + [ShuttingDown];
    }

    /** `forceClose` on the loop's thread. */
    method ForceClose()
      requires Valid() && !state.Connecting?
      modifies `state, `tasks
      ensures View() == Next(old(View()), EvForceClose)
    {
      if !state.Disconnected? {
        var was := state;
        state := Disconnecting;
        if was != Disconnected {
          tasks := tasks + [ForceCloseTask];
        }
      }
    }

    /** `forceClose` on another thread, up to its exchange of the state. */
    method ForceCheck()
      requires Valid() && !state.Connecting?
      modifies `others
      ensures View() == Next(old(View()), EvForceCheck)
    {
      if !state.Disconnected? {
        others := others + [Forcing];
      }
    }

    /** The atomic exchange on another thread, and the decision to queue; also on a connection closed since. */
    method Exchange(who: nat)
      requires Valid() && Enabled(View(), EvExchange(who))
      modifies `state, `others
      ensures View() == Next(old(View()), EvExchange(who))
    {
      var was := state;
      state := Disconnecting;
      if others[who].ShuttingDown? {
        others := if was == Connected then others[who := OweShutdown] else Without(others, who);
      } else {
        others := if was != Disconnected then others[who := OweForceClose] else Without(others, who);
      }
    }

    /** queueInLoop on another thread. */
    method Push(who: nat)
      requires Valid() && Enabled(View(), EvPush(who))
      modifies `tasks, `others
      ensures View() == Next(old(View()), EvPush(who))
    {
      if others[who].Sending? {
        tasks := tasks + [SendTask(others[who].data)];
      } else {
        tasks := tasks + [if others[who].OweShutdown? then ShutdownTask else ForceCloseTask];
      }
      others := Without(others, who);
    }

    method HandleClose()
      requires Valid() && Open(View())
      modifies Footprint()
      ensures Became(P.HandleClose(old(View())))
    {
      assert state == Connected || state == Disconnecting;
      state := Disconnected;
      channel.DisableAll();
      closes := closes + 1;
    }

    /** `arrived` is what the scatter read delivers, None an error. After an error only the log is written, and
        the message callback's calls are steps of their own. */
    method HandleRead(arrived: Option<seq<Byte>>)
      requires Valid() && Open(View()) && InputApart()
      requires arrived.Some? ==> |arrived.value| <= ReadLimit(inputBuffer.View())
      modifies Footprint(), inputBuffer, inputBuffer.storage
      ensures Became(P.HandleRead(old(View()), Answer(arrived))) && InputApart()
      ensures inputBuffer.Contents() == old(inputBuffer.Contents()) + if arrived.Some? then arrived.value else []
    {
      assert !state.Disconnected?;
      var n := Fill(arrived);
      if n == 0 {
        HandleClose();
      }
    }

    method Fill(arrived: Option<seq<Byte>>) returns (n: int)
      requires InputApart() && (arrived.Some? ==> |arrived.value| <= ReadLimit(inputBuffer.View()))
      modifies inputBuffer, inputBuffer.storage
      ensures InputApart() && (inputBuffer.storage == old(inputBuffer.storage) || fresh(inputBuffer.storage))
      ensures n == 0 <==> Answer(arrived).EndOfFile?
      ensures inputBuffer.Contents() == old(inputBuffer.Contents()) + if arrived.Some? then arrived.value else []
    {
      if arrived.Some? { ReadIntoAppends(inputBuffer.View(), arrived.value); }
      n := inputBuffer.ReadFd(arrived);
    }

    method HandleWrite(r: WriteResult)
      requires Valid() && (Open(View()) ==> Writing(View().chan)) && !state.Connecting?
      requires Fits(r, |outputBuffer.Contents()|)
      modifies Footprint()
      ensures Became(P.HandleWrite(old(View()), r))
    {
      if state.Disconnected? {
        return;
      }
      assert outputBuffer.ReadableBytes() > 0;
      assert Out in channel.events;
      if r.Failed? {
        return;
      }
      wire := wire + outputBuffer.Contents()[..r.n];
      outputBuffer.Retrieve(r.n);
      if outputBuffer.ReadableBytes() == 0 {
        assert Pri in channel.events - {Out};
        channel.DisableWrite();
        if state == Disconnecting {
          ShutdownInLoop();
        }
        if config.onComplete {
          tasks := tasks + [WriteComplete];
        }
      }
    }

    method StopRead()
      requires Valid() && !state.Connecting?
      modifies Footprint()
      ensures Became(Next(old(View()), EvStopRead))
    {
      if In in channel.events {
        assert Pri in channel.events - {In};
        channel.DisableRead();
      }
    }

    method StartRead()
      requires Valid() && !state.Connecting?
      modifies Footprint()
      ensures Became(Next(old(View()), EvStartRead))
    {
      if In !in channel.events {
        channel.EnableRead();
      }
    }

    /** The loop runs the oldest task queued for this connection. */
    method RunQueuedTask(r: WriteResult)
      requires Valid() && Enabled(View(), EvTask(r))
      modifies Footprint()
      ensures Valid() && Became(Next(old(View()), EvTask(r)))
    {
      StepInv(View(), EvTask(r));
      var task := tasks[0];
      tasks := tasks[1..];
      match task {
        case SendTask(data) => SendInLoop(data, r);
        case ShutdownTask => ShutdownInLoop();
        case ForceCloseTask =>
          if !state.Disconnected? {
            HandleClose();
          }
        case _ =>
      }
    }

    /** Channel::handleEventWithGuard, up to its write callback; the user's callbacks may come between. */
    method DispatchClose()
      requires Valid() && stage.AtClose?
      modifies Footprint()
      ensures Valid() && Became(Next(old(View()), EvDispatchClose))
    {
      StepInv(View(), EvDispatchClose);
      if Hup in revents && In !in revents {
        HandleClose();
      }
      stage := AtError;
    }

    method DispatchRead(arrived: Option<seq<Byte>>)
      requires Valid() && stage.AtRead? && InputApart()
      requires arrived.Some? ==> |arrived.value| <= ReadLimit(inputBuffer.View())
      modifies Footprint(), inputBuffer, inputBuffer.storage
      ensures Valid() && Became(Next(old(View()), EvDispatchRead(Answer(arrived)))) && InputApart()
    {
      StepInv(View(), EvDispatchRead(Answer(arrived)));
      if In in revents || Pri in revents || RdHup in revents {
        HandleRead(arrived);
      }
      stage := AtWrite;
    }

    method DispatchWrite(r: WriteResult)
      requires Valid() && stage.AtWrite? && Fits(r, |outputBuffer.Contents()|)
      modifies Footprint()
      ensures Valid() && Became(Next(old(View()), EvDispatchWrite(r)))
    {
      StepInv(View(), EvDispatchWrite(r));
      if Out in revents {
        HandleWrite(r);
      }
      stage := Idle;
    }
  }
}
