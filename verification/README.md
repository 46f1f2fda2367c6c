# ccServer: a verified model of the reactor and its logger

ccServer is a C++ reactor network library: an event loop with a task queue, timers, channels over epoll,
TCP connections over growable buffers, a server, and an asynchronous logger. This project models the member
functions of those components in Dafny and proves what they are for.

Two kinds of file sit side by side.

* *Protocols* (`AsyncLogging`, `TcpProtocol`, `TcpHalfClose`, `TcpServer`, `EventLoop`, `TimerQueue`) are step systems: a value
  `State`, an `Event` for each atomic step of each thread, `Enabled` for what scheduling, the kernel and the
  mutex allow, and a total `Next`. A broken `assert` of the source sets a `failed` flag instead of being assumed
  away; in the timer queue a use of a deleted timer sets `dangling`. The theorems speak of `Run(start, events)`
  for every legal list of events: every interleaving, every kernel answer. What a theorem compares a run with
  (lines logged, bytes submitted, tasks pushed) is computed from the list of events, not from the state.
  `Ruled` holds what callers owe, and nothing else.
* *Objects* are classes with the source's fields and asserts, whose methods are proved to take exactly the step
  or function of the same name, so that the theorems are about them. Where another thread or a callback can come
  between two parts of a member function, the member is split there into several methods, and its locals become
  fields.

The environment is a parameter: a write takes any part or fails, a read delivers anything that fits, poll returns
at any time, epoll reports what was asked for plus errors and hang-ups, condition waits end at any time, and one
clock never runs back. Where a theorem needs more of the kernel (silence after a fatal error, EPIPE after SHUT_WR)
it says so by a predicate on the run. A freshly made connection is not seen by user code before `connectEstablished`.

Where headers and `.cpp` files disagree (`TcpConnection.h` lacks `send` and says `connectionEstablished`,
`Epoll.cpp` uses names `Channel.h` does not have) the `.cpp` bodies are followed.

## Results that are not what one would hope

* A batch of more than 25 log buffers loses its third and later buffers (`OversizedBatchIsReachable`), and a
  write that gives up loses the rest of its buffer; nothing else is ever lost before a stop
  (`NothingLostExactlyWithoutOversizedBatch`). A stop loses what was appended after the last swap
  (`StopKeepsExactlyTheSwapped`).
* A `send` from another thread and a `shutdown` can half-close before the data is sent: the bytes missed are
  exactly those queued in the loop and those of calls between their state test and their queueing
  (`HalfCloseLosesExactlyQueuedSends`, with a run for each case).
* A `shutdown` from another thread can half-close twice, when its function runs after the output has drained
  (`DrainThenQueuedShutdownHalfClosesTwice`), and never more often (`HalfClosedTwiceIff`).
* `shutdown`, `startRead` or the state exchange of another thread on a closed connection move it backward or
  register it again, and are the only calls that do (`RulesAreExact`).
* A hang-up without EPOLLIN that carries EPOLLPRI or EPOLLRDHUP breaks an assert, and no other does
  (`ReadAfterHangUpFails`).
* Tasks queued by the loop's own thread before `loop()` have no wakeup (`SafeFromEntryIff`).
* A second `quit` before the loop is entered again breaks an assert if it is called after the store of the
  first, and does no harm if it is called before (`QuitAssertHoldsIff`, `NoLostWakeup`).
* Cancelling a timer that the running sweep has taken out of the set deletes it under the sweep, which then
  uses it (`CancelIsSoundIffInSet`, `CancelUnderTheSweepDangles`).
* A timer added before all others and cancelled again leaves the timerfd set; with no other timer a poll then
  returns once with nothing due (`TimerfdIsDueAsSet`, `HandleReadRunsExactlyTheExpired`).
* After `clear` a ring of more than one slot shows a stale slot, and once full again its newest element first
  (`PushAllAfterClear`, `AfterClearIsRightIff`).

## Model

| member | source | states |
|---|---|---|
| `AsyncLog.AssertsNeverFail` | base/AsyncLogging.cpp:61-108 | in every interleaving all asserts of the consumer loop hold, spare buffers are empty, no buffer is in two places, and `nextBuffer_` is missing only while a full buffer waits |
| `AsyncLog.LinesStayWholeAndInOrder` | base/AsyncLogging.cpp:28-78 | the buffers filled in a run hold exactly the lines logged that fit a buffer, in lock order, none split across two buffers |
| `AsyncLog.FileHoldsKeptBuffers` | base/AsyncLogging.cpp:80-110 | file and in-flight batch are exactly the buffers handed over less the third and later ones of batches over 25, if and only if no write of a buffer gave up; otherwise they are shorter |
| `AsyncLog.FileIsCutBuffers` | base/AsyncLogging.cpp:80-110 | the file is exactly those buffers in order, each cut to the prefix its write took, the rest of them being in flight |
| `AsyncLog.NothingLostExactlyWithoutOversizedBatch` | base/AsyncLogging.cpp:28-113 | for lines shorter than a buffer: file, batch, queue and current buffer are all bytes logged if and only if no batch exceeded 25 buffers and no write gave up; otherwise they are fewer bytes |
| `AsyncLog.OversizedBatchIsReachable` | base/AsyncLogging.cpp:28-84 | a run from the start that loses lines: 26 lines that each fill a buffer, logged before the consumer takes the lock, leave two |
| `AsyncLog.StopKeepsExactlyTheSwapped` | base/AsyncLogging.cpp:61-113 | once the consumer has stopped, the file has everything logged if and only if the run appended nothing but empty lines after its last swap, handed over no oversized batch, and no write gave up |
| `AsyncLog.StopCanLoseALine` | base/AsyncLogging.cpp:61-113 | a run that stops with a line not written |
| `AsyncLog.LeavesIffStopped` | base/AsyncLogging.cpp:61-64 | the consumer leaves its loop at a test if and only if `stop` was called before it |
| `AsyncLog.GivenUpIffFull` | base/AsyncLogging.cpp:28-44 | a buffer goes to the queue exactly when contents and next line together reach 4,000,000 characters |
| `AsyncLog.StepOwned` | base/AsyncLogging.cpp:28-110 | no step duplicates a buffer, and only a producer that finds no spare makes one, which becomes the current buffer |
| `AsyncLog.AsyncLogging.Append` | base/AsyncLogging.cpp:28-44 | the critical section of a producer is the append step and keeps the invariant |
| `AsyncLog.AsyncLogging.CheckRunning` | base/AsyncLogging.cpp:61-64 | the loop test, with its three asserts |
| `AsyncLog.AsyncLogging.EnterLock` | base/AsyncLogging.cpp:66-78 | waits if no buffer is queued, else swaps |
| `AsyncLog.AsyncLogging.WakeUp` | base/AsyncLogging.cpp:69-77 | a wait that ends for any reason goes on to the swap |
| `AsyncLog.AsyncLogging.Swap` | base/AsyncLogging.cpp:72-77 | hands over every queued buffer and the current one, and refills both shared slots |
| `AsyncLog.AsyncLogging.TrimBatch` | base/AsyncLogging.cpp:80-84 | the batch is never empty; over 25 it keeps two |
| `AsyncLog.AsyncLogging.WriteNext` | base/AsyncLogging.cpp:86-88 | the next buffer of the batch goes to the file through AppendFile, whole or as far as that got |
| `AsyncLog.AsyncLogging.RecycleBuffers` | base/AsyncLogging.cpp:90-108 | both empty slots find a buffer to take, and it is reset |
| `AsyncLog.AsyncLogging.RequestStop` | base/AsyncLogging.h:31-35 | stops the loop at its next test |
| `AsyncLog.AsyncLogging.constructor` | base/AsyncLogging.cpp:7-21 | four empty buffers, and the invariant |
| `FileUtil.AppendFile.Append` | base/FileUtil.cpp:11-26 | the line goes out in order, each character once, in as many writes as the kernel's answers make it; it falls short exactly when an answer after the first is zero, and stops at that one |
| `FixedBuffers.AppendedIsAllOrNothing` | base/LogStream.h:22-27 | an append is whole if and only if contents and data together leave a free character, else ignored |
| `FixedBuffers.FixedBuffer.Append` | base/LogStream.h:22-36 | the in-place append is that function of the contents |
| `FixedBuffers.FixedBuffer.Add` | base/LogStream.h:34 | claims what was written in place |
| `DecimalText.ParseOfDecimal` | base/LogStream.cpp:8-27 | the text of any value is canonical and reads back as the value |
| `DecimalText.DecimalOfParse` | base/LogStream.cpp:8-27 | every canonical numeral is the text of the value it reads as |
| `DecimalText.DecimalLength` | base/LogStream.cpp:43-49 | any signed or unsigned 64-bit value takes 1 to 20 characters, so it fits the 32 reserved |
| `DecimalText.DigitStep` | base/LogStream.cpp:5-17 | with truncating division the mirrored table gives the last digit of the absolute value, for either sign |
| `DecimalText.WriteDigits` | base/LogStream.cpp:13-17 | the do-while loop leaves the digits backwards |
| `DecimalText.ReverseRange` | base/LogStream.cpp:24 | the range is reversed in place and nothing else changes |
| `DecimalText.Convert` | base/LogStream.cpp:8-27 | writes exactly the decimal text and a NUL, for every 64-bit value including the minimum |
| `LogStreams.RunKeepsWholeItems` | base/LogStream.h:58-103 | any run of operators, floating-point ones with whatever text snprintf makes, stays inside the buffer and leaves exactly the items that fitted in turn, each whole, in order |
| `LogStreams.TakenIffItFits` | base/LogStream.cpp:42-107 | an item is taken exactly when it fits the 4000 characters with one to spare, a number when its 32 do |
| `LogStreams.WrittenIntegerReadsBack` | base/LogStream.cpp:42-49 | an integer that was written reads back from the text |
| `LogStreams.LogStream.PutInteger` | base/LogStream.cpp:42-49 | formats in place behind the contents, or drops the value |
| `LogStreams.LogStream.PutReal` | base/LogStream.cpp:91-107 | snprintf writes in place behind the contents, or the value is dropped |
| `LogStreams.LogStream.PutText` | base/LogStream.h:84-101 | a string, or "(null)" for the null pointer, behind the contents if it fits |
| `LogStreams.LogStream.PutCharacter` | base/LogStream.h:79-82 | one character |
| `LogStreams.LogStream.PutBoolean` | base/LogStream.h:58-61 | "1" for true and "0" for false, behind the contents if it fits |
| `LogStreams.LogStream.ResetBuffer` | base/LogStream.h:105 | empties the buffer |
| `LogStreams.LogStream.PutAll` | base/LogStream.h:58-103 | a chain of operators is the fold the run theorem speaks of |
| `Ring.PushesKeepLastN` | base/CircularBufferImpl.h:73-86 | any number of pushes keeps exactly the newest N of all elements |
| `Ring.PrevUndoesNext` | base/CircularBufferImpl.h:4-41 | `--` undoes `++` and the converse, on every index |
| `Ring.OverwriteOldest` | base/CircularBufferImpl.h:75-80 | in a full ring the slot after the tail is the oldest element |
| `Ring.AddNewest` | base/CircularBufferImpl.h:81-85 | a push into a ring with room moves no element |
| `Ring.CircularBuffer.constructor` | base/CircularBufferImpl.h:57-111 | a new ring holds count copies if 0 <= count < N, and else N |
| `Ring.InitialIsClamped` | base/CircularBufferImpl.h:96-111 | the comparison of the int with a size_t gives that: the smaller of the two, and N for a negative int |
| `Ring.CircularBuffer.PushBack` | base/CircularBufferImpl.h:73-86 | exact effect on slots and indices in every state; a push of the elements in a valid one |
| `Ring.CircularBuffer.PushAll` | base/CircularBufferImpl.h:73-86 | the ring object holds the last N of its initial copies and all pushed values |
| `Ring.CircularBuffer.Front` | base/CircularBuffer.h:81 | the oldest element |
| `Ring.CircularBuffer.Back` | base/CircularBuffer.h:82 | the newest element |
| `Ring.CircularBuffer.IterationVisitsInOrder` | base/CircularBuffer.h:77-78 | the k-th `++` from `begin` reaches the k-th oldest element, and the inclusive `end` exactly with the last |
| `Ring.CircularBuffer.Clear` | base/CircularBufferImpl.h:88-94 | empties any ring, also one cleared before, and leaves head and tail on slot 0 |
| `Ring.PushAllAfterClear` | base/CircularBufferImpl.h:73-94 | what any ring holds after `clear` and any number of pushes: with more than one slot it shows a stale slot and runs one element late until full, and from then on has its newest element first |
| `Ring.AfterClearIsRightIff` | base/CircularBufferImpl.h:73-94 | that is the last N elements pushed if and only if the ring has one slot, nothing was pushed, or the elements shown are all equal |
| `Ring.OverwriteSecond` | base/CircularBufferImpl.h:75-80 | a push into a full ring whose tail is on its head overwrites the second oldest element |
| `BigEndian.DecodeEncode` | Buffer.h:152-220 | every value of a width survives its bytes |
| `BigEndian.EncodeDecode` | Buffer.h:195-220 | every byte string of a width is the encoding of the value it decodes to |
| `BigEndian.EncodeOrder` | Buffer.h:152-169 | byte i of the w bytes of a value has weight 256 to the power w - 1 - i: network order, two's complement |
| `BigEndian.DecodeAllEncodeAll` | Buffer.h:152-193 | bytes of a list of integers of any widths decode to that list, and the bytes that follow are intact |
| `Buffers.RunRefinesPlainSequence` | Buffer.h:71-150 | the specification of the readable bytes is a plain sequence, the scatter read in two parts included |
| `Buffers.RunAll` | Buffer.h:71-276 | any run of calls on the array-backed buffer, across every move and reallocation, leaves what a plain sequence would have, in an array within twice the peak demand and seven |
| `Buffers.PassInts` | Buffer.h:152-193 | integers of any widths appended to a buffer and read back come out in the order and with the values written, however writes, reads and requests for room alternate; the unread ones are left as their bytes |
| `Buffers.TakeInt` | Buffer.h:171-193 | a read of the front integer returns its value and leaves the rest |
| `Buffers.StorageBound` | Buffer.h:118-132 | storage never exceeds the initial size or twice the peak demand and seven |
| `Buffers.StepGrowth` | Buffer.h:263-276 | one step's share of that bound |
| `Buffers.GrowsIffFull` | Buffer.h:263-276 | storage grows exactly when the bytes do not fit behind nor after sliding to 8 in front, and to what they then take |
| `Buffers.FrontRoom` | Buffer.h:71-276 | over any run, the room in front and the bytes prepended come to 8 at least, through growth, compaction and emptying |
| `Buffers.PrependNeverFails` | Buffer.h:241-246 | so up to 8 bytes can be prepended in all without failing its assert |
| `Buffers.TakingAllStartsOver` | Buffer.h:71-78 | taking everything makes all but 8 bytes of the storage writable again |
| `Buffers.ReadsAtLeast` | Buffer.cpp:10-31 | one read has room for 65536 bytes whatever is free |
| `Buffers.Buffer.MakeSpace` | Buffer.h:263-276 | grows, or slides the overlapping bytes forward in place; readerIndex_ exceeds 8 there |
| `Buffers.Buffer.Resize` | Buffer.h:265 | growing keeps the readable bytes and the indices |
| `Buffers.ReservedMakesRoom` | Buffer.h:128-132 | afterwards there is room for len bytes and the readable bytes are the same |
| `Buffers.Buffer.MoveForward` | Buffer.h:269-271 | the overlapping forward copy moves the bytes intact |
| `Buffers.Buffer.EnsureWritableBytes` | Buffer.h:128-132 | room for len bytes, readable bytes unchanged |
| `Buffers.Buffer.Append` | Buffer.h:118-122 | concatenation |
| `Buffers.Buffer.Retrieve` | Buffer.h:71-78 | drops the front, and starts over when all is taken |
| `Buffers.Buffer.RetrieveAll` | Buffer.h:102-105 | drops all and restores the free room in front |
| `Buffers.Buffer.RetrieveAsString` | Buffer.h:111-116 | returns what it drops |
| `Buffers.Buffer.Prepend` | Buffer.h:241-246 | puts bytes in front using the free room there |
| `Buffers.Buffer.Unwrite` | Buffer.h:147-150 | drops the back |
| `Buffers.Buffer.ReadFd` | Buffer.cpp:10-31 | the two-part read appends exactly what arrived |
| `Buffers.Buffer.AppendInt` | Buffer.h:152-169 | appends the value's bytes in network order |
| `Buffers.Buffer.PrependInt` | Buffer.h:222-239 | puts the value's bytes in network order in front |
| `Buffers.Buffer.PeekInt` | Buffer.h:195-220 | the one value whose bytes in network order are in front |
| `Buffers.Buffer.ReadInt` | Buffer.h:171-193 | the same, and drops them |
| `Buffers.PrependThenRead` | Buffer.h:118-246 | an integer put in front reads back after any run of appends, descriptor reads and requests for room, whatever moved or grew, and leaves what a buffer without it would hold |
| `Channels.UpdateKeepsMirror` | Epoll.cpp:40-55 | the choice of ADD, MOD or DEL never fails and keeps `polling` and epoll in step |
| `Channels.Channel.Update` | Epoll.cpp:40-55 | the update is that choice |
| `Channels.Channel.EnableRead` | Channel.h:40-43 | the mask gains EPOLLIN and EPOLLPRI, and epoll has it |
| `Channels.Channel.EnableWrite` | Channel.h:44-47 | the mask gains EPOLLOUT, and epoll has it |
| `Channels.Channel.DisableRead` | Channel.h:48-51 | the mask loses EPOLLIN only, and epoll has it |
| `Channels.Channel.DisableWrite` | Channel.h:52-55 | the mask loses EPOLLOUT only, and epoll has it |
| `Channels.Channel.DisableAll` | Channel.h:56-59 | drops everything and unregisters |
| `TcpProtocol.AssertsNeverFail` | TcpConnection.cpp:100-281 | in every run no assert fails; an open connection waits for EPOLLOUT exactly when output is buffered, also under an EPOLLOUT fetched earlier; it is registered exactly while open |
| `TcpProtocol.WireIsSubmittedData` | TcpConnection.cpp:100-144 | until a fatal write error, wire and output buffer are exactly the data passed to sendInLoop, for any short writes and errors |
| `TcpProtocol.WireIsPrefixOfSubmittedData` | TcpConnection.cpp:111-144 | if the kernel takes nothing after a fatal error, the wire is a prefix of that data forever |
| `TcpProtocol.OnlyPipeOrResetIsFatal` | TcpConnection.cpp:111-121 | with any outcome but a broken pipe or reset on a direct write, a step keeps every byte |
| `TcpProtocol.FaultedIff` | TcpConnection.cpp:111-121 | a step faults if and only if it makes a direct write that meets one of the two, which is then given up with what it offered |
| `TcpProtocol.WireIsWhatTheKernelTook` | TcpConnection.cpp:100-271 | the wire has as many bytes as the kernel said it took, write by write |
| `TcpProtocol.WriteCompleteIffWritten` | TcpConnection.cpp:122-130 | a step queues the write-complete callback, if set, if and only if it makes a write that leaves no output waiting; stated for every step, drains included |
| `TcpProtocol.WriteCompleteMeansWritten` | TcpConnection.cpp:122-130 | when it is queued in a run without a fatal error, the wire is all the data submitted over the run |
| `TcpProtocol.HighWaterIffCrossed` | TcpConnection.cpp:133-140 | a step queues the high-water callback, with the size then waiting, if and only if it takes the waiting output from below the mark to it or beyond |
| `TcpProtocol.StepWire` | TcpConnection.cpp:246-271 | one step of that conservation |
| `TcpProtocol.StateOnlyMovesForward` | TcpConnection.cpp:65-71 | the connection state never moves backward |
| `TcpProtocol.ClosedAtMostOnce` | TcpConnection.cpp:273-281 | handleClose runs at most once, and exactly on disconnected connections |
| `TcpProtocol.ClosedIff` | TcpConnection.cpp:190-281 | a connection is closed in a run if and only if a hang-up with nothing to read, an end of file or a queued forced close reached it |
| `TcpProtocol.StepCloses` | TcpConnection.cpp:190-281 | each of those closes it in that step, and no other step does |
| `TcpProtocol.ForcedIsClosing` | TcpConnection.cpp:190-206 | a connection forced from any thread is closed, or its close is queued or on its way to the queue; and the queued function closes it |
| `TcpProtocol.AskedToCloseIsNotConnected` | TcpConnection.cpp:168-198 | after `shutdown` or `forceClose` on the loop's thread, or an exchange of another, it is never connected again |
| `TcpProtocol.ReadsExactlyWhenAsked` | TcpConnection.cpp:65-222 | an open connection waits for EPOLLIN exactly when establishing or startRead came after the last stopRead, and epoll knows |
| `TcpProtocol.RulesAreExact` | TcpConnection.cpp:168-227 | a call or an exchange the rules exclude is exactly one that moves a reachable connection backward, registers a closed one or fails the assert of `shutdown` |
| `TcpProtocol.ReadAfterHangUpFails` | Channel.cpp:25-44 | a hang-up without EPOLLIN breaks the assert of handleRead if and only if it also asks for a read |
| `TcpProtocol.HangUpWithPriFails` | Channel.cpp:25-44 | such a hang-up is possible from the start: right after a connection is established |
| `TcpProtocol.StaleExchangeIsReachable` | TcpConnection.cpp:190-244 | a run from the start after which the exchange of another thread's `forceClose` takes a closed connection back to disconnecting |
| `TcpHalfCloses.HalfCloseAfterEverythingSent` | TcpConnection.cpp:168-188 | for calls on the loop's thread SHUT_WR comes at most once; from then on, absent a fatal error, the wire has every byte `send` accepted, and nothing is written after; a connection never forced that was asked to shut down and has nothing left to send has issued it |
| `TcpHalfCloses.HalfClosedTwiceIff` | TcpConnection.cpp:168-188 | for calls from any thread, over a kernel that refuses writes after SHUT_WR: SHUT_WR comes at most twice, and twice if and only if a queued shutdown function runs on an open connection already half-closed; nothing waits to be sent from the first on |
| `TcpHalfCloses.ShutdownInLoopHalfClosesOnce` | TcpConnection.cpp:168-188 | with `shutdown` called on the loop's thread only, and the other calls from any, at most once |
| `TcpHalfCloses.DrainThenQueuedShutdownHalfClosesTwice` | TcpConnection.cpp:168-271 | a run that half-closes twice: the output drains between the queueing of a shutdown function and its run |
| `TcpHalfCloses.DrainedShutdownHalfCloses` | TcpConnection.cpp:168-271 | for calls from any thread, never forced: a connection asked to shut down with nothing left to send has been half-closed, unless that `shutdown` is still on its way to the loop |
| `TcpHalfCloses.ShutdownHalfCloses` | TcpConnection.cpp:168-271 | so a `shutdown` called from any thread on a connection never forced half-closes it once nothing is left to send, unless it is closed or the call still on its way |
| `TcpHalfCloses.HalfCloseAccountsForEveryByte` | TcpConnection.cpp:84-188 | for calls from any thread, at a half-close nothing is buffered and every byte accepted by `send`, value by value, is on the wire, queued in the loop, or held by a thread between its state test and its queueing |
| `TcpHalfCloses.HalfCloseLosesExactlyQueuedSends` | TcpConnection.cpp:84-188 | every accepted byte is then on the wire if and only if none is queued and none is held |
| `TcpHalfCloses.CrossThreadSendCanMissTheHalfClose` | TcpConnection.cpp:84-98 | a run that half-closes before a queued byte is sent |
| `TcpHalfCloses.SendCaughtBeforeQueueingMissesTheHalfClose` | TcpConnection.cpp:84-98 | a run that half-closes with nothing queued, between the test and the queueing of a `send`, whose byte is queued afterwards |
| `TcpConnections.TcpConnection.ConnectEstablished` | TcpConnection.cpp:65-71 | opens the connection and starts reading |
| `TcpConnections.TcpConnection.Send` | TcpConnection.cpp:84-91 | on the loop's thread: sends at once, ignored unless connected |
| `TcpConnections.TcpConnection.SendCheck` | TcpConnection.cpp:84-97 | on another thread: the state test, after which the data is held |
| `TcpConnections.TcpConnection.SendInLoop` | TcpConnection.cpp:100-144 | the branches of a direct write over the real buffer and channel |
| `TcpConnections.TcpConnection.KeepRest` | TcpConnection.cpp:133-143 | buffers the rest and reports crossing the high-water mark |
| `TcpConnections.TcpConnection.Shutdown` | TcpConnection.cpp:168-179 | on the loop's thread: the state exchange and the half-close |
| `TcpConnections.TcpConnection.ShutdownCheck` | TcpConnection.cpp:168-170 | on another thread: the assert |
| `TcpConnections.TcpConnection.Exchange` | TcpConnection.cpp:171-193 | the atomic exchange of `shutdown` or `forceClose` on another thread, in whatever state it finds the connection, and whether it then queues |
| `TcpConnections.TcpConnection.Push` | TcpConnection.cpp:94-195 | the queueing that ends a call of another thread, in whatever state the connection then is |
| `TcpConnections.TcpConnection.ShutdownInLoop` | TcpConnection.cpp:181-188 | half-closes unless output is waiting or the connection is closed |
| `TcpConnections.TcpConnection.ForceClose` | TcpConnection.cpp:190-198 | on the loop's thread: leaves the connection disconnecting with its close queued |
| `TcpConnections.TcpConnection.ForceCheck` | TcpConnection.cpp:190-192 | on another thread: the state test |
| `TcpConnections.TcpConnection.HandleRead` | TcpConnection.cpp:229-244 | appends what arrived to the real input buffer, closes at end of file |
| `TcpConnections.TcpConnection.HandleWrite` | TcpConnection.cpp:246-271 | drains, stops waiting for EPOLLOUT when empty, and then half-closes if asked to |
| `TcpConnections.TcpConnection.HandleClose` | TcpConnection.cpp:273-281 | disconnects and unregisters |
| `TcpConnections.TcpConnection.StopRead` | TcpConnection.cpp:208-214 | stops reading and stays registered |
| `TcpConnections.TcpConnection.StartRead` | TcpConnection.cpp:216-222 | starts reading again |
| `TcpConnections.TcpConnection.RunQueuedTask` | TcpConnection.cpp:84-206 | what each queued function does when the loop gets to it |
| `TcpConnections.TcpConnection.DispatchClose` | Channel.cpp:27-30 | closes on a hang-up without EPOLLIN |
| `TcpConnections.TcpConnection.DispatchRead` | Channel.cpp:35-38 | then reads |
| `TcpConnections.TcpConnection.DispatchWrite` | Channel.cpp:39-42 | then writes |
| `TcpServers.SetIsExactlyTheLiveConnections` | TcpServerSingle.cpp:16-33 | over all connections and interleavings, the set is exactly the established and not yet disconnected ones, and erase always finds its connection |
| `TcpServers.TcpServerSingle.NewConnection` | TcpServerSingle.cpp:16-25 | makes and establishes a connection object; the object's set stays that of the step system, whose accept step it is |
| `TcpServers.TcpServerSingle.CloseConnection` | TcpServerSingle.cpp:27-33 | called back by any step that closes a connection, finds it in the set and removes exactly it, as the step system does |
| `EventLoops.NoLostWakeup` | EventLoop.cpp:47-112 | whenever the loop blocks in poll with queued tasks or an unseen quit, the eventfd is readable or another thread is between its store and its wakeup; with any number of quits |
| `EventLoops.SafeFromEntryIff` | EventLoop.cpp:47-102 | entered in any state, every run is safe if and only if at entry no task is queued or a wakeup is there or coming |
| `EventLoops.WakeupBringsTasksIn` | EventLoop.cpp:54-60 | from a poll with the eventfd readable, through any steps of handlers and other threads, the loop's own next step can be made until the swap, and the round then begins with the tasks queued at the poll |
| `EventLoops.EventfdCountsWakeups` | EventLoop.cpp:130-166 | in every run the eventfd counts the wakeups since it was last read, up to its maximum |
| `EventLoops.HandledWakeupIsGone` | EventLoop.cpp:161-166 | a handled wakeup lets the loop go on to its tasks, and no poll reports the eventfd until there is another |
| `EventLoops.LeavesIffAsked` | EventLoop.cpp:47-64 | the loop is left at its test if and only if a quit was stored since it was entered |
| `EventLoops.QuitAssertHoldsIff` | EventLoop.cpp:73-78 | the assert of `quit` holds throughout a run if and only if no call comes after the store of another since the loop was entered |
| `EventLoops.TasksRunOnceInOrder` | EventLoop.cpp:94-112 | run, waiting in the round and queued: exactly the tasks pushed, once each, in push order |
| `EventLoops.RoundRunsExactlyTheSwappedTasks` | EventLoop.cpp:147-159 | a round runs exactly the tasks it swapped; those queued meanwhile wait |
| `EventLoops.WholeRoundRunsTheQueue` | EventLoop.cpp:147-159 | the same for the steps doPendingTasks makes, from swap to end |
| `EventLoops.EventLoop.QueueInLoop` | EventLoop.cpp:94-102 | on the loop's thread, inside or outside the loop: stores, and wakes itself only while running tasks |
| `EventLoops.EventLoop.PushFromElsewhere` | EventLoop.cpp:95-98 | the locked store of another thread |
| `EventLoops.EventLoop.CheckNotQuit` | EventLoop.cpp:74 | whether the assert of quit holds |
| `EventLoops.EventLoop.QuitInLoop` | EventLoop.cpp:75-77 | its store on the loop's thread, with no wakeup |
| `EventLoops.EventLoop.QuitFromElsewhere` | EventLoop.cpp:75-77 | its store on another thread, perhaps not the first |
| `EventLoops.EventLoop.WakeFromElsewhere` | EventLoop.cpp:100-101 | the wakeup that follows |
| `EventLoops.EventLoop.Wakeup` | EventLoop.cpp:130-135 | the counter goes up, or stays at its maximum |
| `EventLoops.EventLoop.EnterLoop` | EventLoop.cpp:47-52 | entering clears an earlier quit |
| `EventLoops.EventLoop.TestQuit` | EventLoop.cpp:54 | goes on to poll unless asked to quit |
| `EventLoops.EventLoop.PollReturn` | EventLoop.cpp:55-58 | poll returns, with or without the eventfd |
| `EventLoops.EventLoop.TakeTasks` | EventLoop.cpp:147-155 | the swap takes everything queued |
| `EventLoops.EventLoop.HandleRead` | EventLoop.cpp:161-166 | reads the eventfd, which leaves it zero |
| `EventLoops.EventLoop.RunNextTask` | EventLoop.cpp:156-157 | the oldest function of the round runs |
| `EventLoops.EventLoop.PerformCalls` | EventLoop.cpp:73-112 | what a task, and other threads meanwhile, queue and ask for |
| `EventLoops.EventLoop.DoPendingTasks` | EventLoop.cpp:147-159 | with any calls of its tasks and of other threads between any two steps: every function there at the start runs once in order, and what was queued since waits |
| `TimerQueues.DurationIsClamped` | TimerQueue.cpp:24-33 | normalised, never the disarming zero, due at max(deadline, now + 1 ms) |
| `TimerQueues.LowerBoundSplits` | TimerQueue.cpp:107 | lower_bound counts exactly the smaller entries |
| `TimerQueues.ExpiredSplitIsExact` | TimerQueue.cpp:103-112 | getExpired cuts exactly between expired and unexpired, both in deadline order |
| `TimerQueues.TimersAreOwnedExactlyOnce` | TimerQueue.cpp:59-112 | live timers are exactly those of the set and the running batch, each once and under its own deadline; none is used after deletion; created = deleted + live |
| `TimerQueues.DestructorFreesEverything` | TimerQueue.cpp:53-57 | after the destructor every timer ever created has been deleted exactly once |
| `TimerQueues.AlwaysArmed` | TimerQueue.cpp:35-101 | with timers set and no sweep running, the timerfd is readable no later than max(first deadline, last setting + 1 ms) |
| `TimerQueues.TimerfdIsDueAsSet` | TimerQueue.cpp:35-101 | over any run the timerfd is due exactly as left by its settings (a timer added before all others, the first one at the end of a sweep) and by its being read when a sweep finds it due |
| `TimerQueues.SweepReadsTheTimerfd` | TimerQueue.cpp:80-82 | a sweep that finds the timerfd readable leaves it not readable until it is set again |
| `TimerQueues.NeverEarlyNeverDrifting` | TimerQueue.cpp:80-101 | the k-th run of a repeating timer is at or after start + k * interval, and its next deadline is exactly start + runs * interval |
| `TimerQueues.FiredAtMost` | Timer.h:31-42 | by any time it has run at most (elapsed / interval) + 1 times |
| `TimerQueues.OneShotRunsOnce` | TimerQueue.cpp:85-97 | a one-shot timer runs at most once, and not early |
| `TimerQueues.HandleReadRunsExactlyTheExpired` | TimerQueue.cpp:80-101 | with callbacks that add and cancel at will and time passing: the callbacks run are those of the timers expired at the start, each once, in deadline order, and no other; each repeating timer is put back one interval later and the others deleted; the timerfd, if it was readable, is so afterwards if and only if no timer is set and a setting made meanwhile has come due |
| `TimerQueues.SweepSettlesItsBatch` | TimerQueue.cpp:85-97 | where a finished sweep leaves a timer of its batch: a repeating one in the set one interval later unless cancelled after its return, another deleted unless its address is used again |
| `TimerQueues.StaysInSet` | TimerQueue.cpp:85-97 | a sweep leaves a timer of the set as it is unless a callback cancels it |
| `TimerQueues.CancelIsSoundIffInSet` | TimerQueue.cpp:72-78 | after a cancel every run, of any length and with any further calls, uses live timers only, if and only if the timer was in the set |
| `TimerQueues.CancelUnderTheSweepDangles` | TimerQueue.cpp:72-97 | for a timer anywhere in the batch being swept, a run of the sweep alone that comes to use it after its deletion |
| `TimerQueues.CancelUnderTheSweepIsReachable` | TimerQueue.cpp:72-97 | a run from the start to such a cancel, and the use after it |
| `TimerQueues.TimerQueue.TimerfdSet` | TimerQueue.cpp:35-44 | the timerfd is then due at the deadline but no sooner than a millisecond from now |
| `TimerQueues.TimerQueue.AddTimer` | TimerQueue.cpp:59-70 | inserts, and arms when first |
| `TimerQueues.TimerQueue.InsertTimer` | TimerQueue.cpp:60-67 | the insertion itself, under its assert that the entry is new |
| `TimerQueues.TimerQueue.CancelTimer` | TimerQueue.cpp:72-78 | erases and deletes |
| `TimerQueues.TimerQueue.EraseTimer` | TimerQueue.cpp:73-77 | the cancellation itself, under its assert that the timer was not cancelled |
| `TimerQueues.TimerQueue.GetExpired` | TimerQueue.cpp:103-112 | the prefix of expired entries leaves the set |
| `TimerQueues.TimerQueue.StartSweep` | TimerQueue.cpp:80-85 | reads the timerfd, which is then not readable, and takes the expired entries |
| `TimerQueues.TimerQueue.RunCallback` | TimerQueue.cpp:86-90 | the next expired timer's callback |
| `TimerQueues.TimerQueue.SettleTimer` | TimerQueue.cpp:91-96 | puts a repeating timer back under its next deadline, deletes another |
| `TimerQueues.TimerQueue.FinishSweep` | TimerQueue.cpp:99-100 | arms for the first timer left |
| `TimerQueues.TimerQueue.MakeCalls` | TimerQueue.cpp:59-78 | the adds and cancels a callback makes, each with its asserts |
| `TimerQueues.TimerQueue.HandleRead` | TimerQueue.cpp:80-101 | the loop over the expired entries, whatever its callbacks do and however long they take, is the run of its steps |
| `TimerQueues.PlansAreSweeps` | TimerQueue.cpp:80-101 | the steps of that loop are one of the sweeps of the results above |
| `TimerQueues.TimerQueue.Destroy` | TimerQueue.cpp:53-57 | deletes the timers left in the set |

## Left out

- TcpHalfCloses.HalfCloseLosesExactlyQueuedSends: compares how often each byte occurs and not their order, because sends of different threads may be submitted in another order than they were accepted.
- TimerQueues.NeverEarlyNeverDrifting: speaks of a timer while it is live; its history goes with the object.
- AsyncLog.AsyncLogging.Append: log buffers are values moved between slots, as unique_ptr moves them, with an identity; their storage is the array of FixedBuffer only in the log stream.
- Addresses of timers reused after deletion are modelled; a timer created on another thread, live but not yet inserted, is not: timers are added and cancelled on the loop's thread.
- stopRead and startRead from other threads, which only queue the same calls.
- handleError, which reads SO_ERROR and logs it; what a message callback calls comes as steps of its own.
- Integer widths of sizes and indices (size_t, int) below their limits; a string of 2^31 characters or more handed to FixedBuffer.
- Buffer::swap, findCRLF, findEOL, retrieveUntil, and appending a buffer's own bytes to itself.
- What snprintf makes of a floating-point value (its text is a parameter, shorter than the 32 characters reserved), and log time formatting.
- `loop()` called from inside the loop, which fails its first assert.
- Object construction and destruction in the ring, its copy and move.
- shared_ptr and weak_ptr lifetimes: the tie of a channel to its connection, closing of descriptors in destructors.
- Sockets, addresses, acceptor, connector, thread start-up, thread pool, the multi-threaded server.
- Epoll's error logging and growth of its event array, log file flush counts.
- Liveness beyond the armed timerfd and the coming wakeup: no fairness of threads is assumed or concluded.
