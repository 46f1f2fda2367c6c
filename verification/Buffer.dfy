/**
 Buffer.h and Buffer.cpp: a growable byte queue with free room kept in front of the readable bytes.
 `Rep` is its value: the storage size, the reader index and the readable bytes. The class below works in
 place on an array and is proved to change its `Rep` as these functions say.
 */
module Buffers {
  import opened Base
  import opened BigEndian

  const CHEAP_PREPEND: nat := 8
  const EXTRA: nat := 65536

  datatype Rep = Rep(size: nat, reader: nat, contents: seq<Byte>)

  predicate Good(b: Rep) {
    b.reader + |b.contents| <= b.size && CHEAP_PREPEND <= b.size
  }

  function Writable(b: Rep): nat
    requires Good(b)
  {
    b.size - b.reader - |b.contents|
  }

  function NewRep(initial: nat): (b: Rep)
    ensures Good(b) && Writable(b) == initial
  {
    Rep(CHEAP_PREPEND + initial, CHEAP_PREPEND, [])
  }

  /** Room for `len` more bytes: grow behind, or slide the readable bytes forward. */
  function Reserved(b: Rep, len: nat): Rep
    requires Good(b)
  {
    if Writable(b) >= len then b
    else if Writable(b) + b.reader < len + CHEAP_PREPEND then b.(size := b.reader + |b.contents| + len)
    else b.(reader := CHEAP_PREPEND)
  }

  lemma ReservedMakesRoom(b: Rep, len: nat)
    requires Good(b)
    ensures var r := Reserved(b, len); Good(r) && Writable(r) >= len && r.contents == b.contents
  {
  }

  function AppendedTo(b: Rep, data: seq<Byte>): Rep
    requires Good(b)
  {
    Reserved(b, |data|).(contents := b.contents + data)
  }

  function Retrieved(b: Rep, len: nat): Rep
    requires Good(b) && len <= |b.contents|
  {
    if len < |b.contents| then b.(reader := b.reader + len, contents := b.contents[len..])
    else b.(reader := CHEAP_PREPEND, contents := [])
  }

  function Prepended(b: Rep, data: seq<Byte>): Rep
    requires Good(b) && |data| <= b.reader
  {
    b.(reader := b.reader - |data|, contents := data + b.contents)
  }

  function Unwritten(b: Rep, len: nat): Rep
    requires Good(b) && len <= |b.contents|
  {
    b.(contents := b.contents[..|b.contents| - len])
  }

  /** How many bytes one scatter read can deliver. */
  function ReadLimit(b: Rep): nat
    requires Good(b)
  {
    Writable(b) + if Writable(b) < EXTRA then EXTRA else 0
  }

  function ReadInto(b: Rep, data: seq<Byte>): Rep
    requires Good(b) && |data| <= ReadLimit(b)
  {
    var w := Writable(b);
    if |data| <= w then b.(contents := b.contents + data)
    else AppendedTo(b.(contents := b.contents + data[..w]), data[w..])
  }

  lemma ReadIntoAppends(b: Rep, data: seq<Byte>)
    requires Good(b) && |data| <= ReadLimit(b)
    ensures ReadInto(b, data).contents == b.contents + data
  {
    if |data| > Writable(b) { assert data == data[..Writable(b)] + data[Writable(b)..]; }
  }

  // ----- whole runs -----

  datatype Op =
    | Append(data: seq<Byte>)
    | Retrieve(len: nat)
    | Prepend(front: seq<Byte>)
    | Unwrite(count: nat)
    | ReadFd(arrived: seq<Byte>)
    | EnsureWritable(room: nat)

  /** What the asserts of the source, or the kernel for a read, allow. */
  predicate Allowed(b: Rep, op: Op)
    requires Good(b)
  {
    match op
    case Retrieve(len) => len <= |b.contents|
    case Prepend(data) => |data| <= b.reader
    case Unwrite(len) => len <= |b.contents|
    case ReadFd(data) => |data| <= ReadLimit(b)
    case _ => true
  }

  function Apply(b: Rep, op: Op): (r: Rep)
    requires Good(b) && Allowed(b, op)
    ensures Good(r)
  {
    match op
    case Append(data) => AppendedTo(b, data)
    case Retrieve(len) => Retrieved(b, len)
    case Prepend(data) => Prepended(b, data)
    case Unwrite(len) => Unwritten(b, len)
    case ReadFd(data) => ReadInto(b, data)
    case EnsureWritable(len) => Reserved(b, len)
  }

  predicate LegalOps(b: Rep, ops: seq<Op>)
    requires Good(b)
    decreases ops
  {
    ops == [] || (Allowed(b, ops[0]) && LegalOps(Apply(b, ops[0]), ops[1..]))
  }

  function RunOps(b: Rep, ops: seq<Op>): (r: Rep)
    requires Good(b) && LegalOps(b, ops)
    ensures Good(r)
    decreases ops
  {
    if ops == [] then b else RunOps(Apply(b, ops[0]), ops[1..])
  }

  /** The plain byte sequence a buffer stands for. */
  function ApplyPlain(s: seq<Byte>, op: Op): seq<Byte> {
    match op
    case Append(data) => s + data
    case Retrieve(len) => if len <= |s| then s[len..] else []
    case Prepend(data) => data + s
    case Unwrite(len) => if len <= |s| then s[..|s| - len] else []
    case ReadFd(data) => s + data
    case EnsureWritable(_) => s
  }

  function RunPlain(s: seq<Byte>, ops: seq<Op>): seq<Byte>
    decreases ops
  {
    if ops == [] then s else RunPlain(ApplyPlain(s, ops[0]), ops[1..])
  }

  /** The readable bytes of the value go the way of a plain sequence; a scatter read comes in two parts. */
  lemma {:induction false} RunRefinesPlainSequence(b: Rep, ops: seq<Op>)
    requires Good(b) && LegalOps(b, ops)
    ensures RunOps(b, ops).contents == RunPlain(b.contents, ops)
    decreases ops
  {
    if ops != [] {
      var op := ops[0];
      if op.ReadFd? { ReadIntoAppends(b, op.arrived); }
      assert Apply(b, op).contents == ApplyPlain(b.contents, op);
      RunRefinesPlainSequence(Apply(b, op), ops[1..]);
    }
  }

  function Max(a: nat, b: nat): nat {
    if a >= b then a else b
  }

  /** The most bytes the buffer ever had to hold, counting room asked for in advance. */
  function Peak(b: Rep, ops: seq<Op>): nat
    requires Good(b) && LegalOps(b, ops)
    decreases ops
  {
    if ops == [] then |b.contents|
    else
      var asked := if ops[0].EnsureWritable? then |b.contents| + ops[0].room else |b.contents|;
      Max(asked, Peak(Apply(b, ops[0]), ops[1..]))
  }

  lemma PeakCoversContents(b: Rep, ops: seq<Op>)
    requires Good(b) && LegalOps(b, ops)
    ensures |b.contents| <= Peak(b, ops)
  {
  }

  /** One step grows the storage to at most twice what it then has to hold, and seven. */
  lemma StepGrowth(b: Rep, op: Op)
    requires Good(b) && Allowed(b, op)
    ensures var after := Apply(b, op);
            var held := if op.EnsureWritable? then |b.contents| + op.room else |after.contents|;
            after.size <= Max(b.size, 2 * held + 7)
  {
  }

  lemma {:induction false} RunGrowth(b: Rep, ops: seq<Op>)
    requires Good(b) && LegalOps(b, ops)
    ensures RunOps(b, ops).size <= Max(b.size, 2 * Peak(b, ops) + 7)
    decreases ops
  {
    if ops != [] {
      var next := Apply(b, ops[0]);
      var later := Peak(next, ops[1..]);
      StepGrowth(b, ops[0]);
      PeakCoversContents(next, ops[1..]);
      RunGrowth(next, ops[1..]);
      assert RunOps(b, ops) == RunOps(next, ops[1..]);
      assert later <= Peak(b, ops);
    }
  }

  /** Storage never exceeds the initial size or twice the peak demand and seven, whichever is more. */
  lemma StorageBound(initial: nat, ops: seq<Op>)
    requires LegalOps(NewRep(initial), ops)
    ensures RunOps(NewRep(initial), ops).size
         <= Max(CHEAP_PREPEND + initial, 2 * Peak(NewRep(initial), ops) + 7)
  {
    RunGrowth(NewRep(initial), ops);
  }

  /** Storage grows exactly when the bytes held, those asked for and 8 in front do not fit it, and not behind
      either; it then grows to what they take where they are. */
  lemma GrowsIffFull(b: Rep, len: nat)
    requires Good(b)
    ensures var r := Reserved(b, len);
            && (r.size > b.size <==> b.reader + |b.contents| + len > b.size && 8 + |b.contents| + len > b.size)
            && (r.size != b.size ==> r.size == b.reader + |b.contents| + len)
  {
  }

  function PrependedBytes(ops: seq<Op>): nat {
    if ops == [] then 0 else (if ops[0].Prepend? then |ops[0].front| else 0) + PrependedBytes(ops[1..])
  }

  /** Growing, compacting and emptying keep the room in front: after any run what is left of the 8 bytes is at
      least what was not prepended, so that much can be prepended without failing the assert. */
  lemma {:induction false} FrontRoom(b: Rep, ops: seq<Op>)
    requires Good(b) && LegalOps(b, ops)
    ensures RunOps(b, ops).reader + PrependedBytes(ops) >= if b.reader < 8 then b.reader else 8
    decreases ops
  {
    if ops != [] { FrontRoom(Apply(b, ops[0]), ops[1..]); }
  }

  lemma PrependNeverFails(initial: nat, ops: seq<Op>, front: seq<Byte>)
    requires LegalOps(NewRep(initial), ops) && PrependedBytes(ops) + |front| <= 8
    ensures Allowed(RunOps(NewRep(initial), ops), Prepend(front))
  {
    FrontRoom(NewRep(initial), ops);
  }

  /** Taking everything makes all but 8 bytes of the storage writable again, without moving a byte. */
  lemma TakingAllStartsOver(b: Rep, len: nat)
    requires Good(b) && len <= |b.contents|
    ensures var r := Retrieved(b, len);
            && r.size == b.size && r.contents == b.contents[len..]
            && Writable(r) == (if len == |b.contents| then b.size - 8 else Writable(b))
  {
  }

  /** One read always has room for 64 KiB. */
  lemma ReadsAtLeast(b: Rep)
    requires Good(b)
    ensures ReadLimit(b) >= 65536 && ReadLimit(b) >= Writable(b)
  {
  }

  lemma FrontSlice(all: seq<Byte>, r: nat, w: nat, len: nat)
    requires r + len <= w <= |all|
    ensures all[r..w][..len] == all[r..r + len]
  {
  }

  lemma WrittenBehind(all: seq<Byte>, r: nat, w: nat, data: seq<Byte>)
    requires r <= w && w + |data| <= |all|
    ensures (all[..w] + data + all[w + |data|..])[r..w + |data|] == all[r..w] + data
  {
  }

  lemma WrittenBefore(all: seq<Byte>, r: nat, w: nat, data: seq<Byte>)
    requires r + |data| <= w <= |all|
    ensures (all[..r] + data + all[r + |data|..])[r..w] == data + all[r + |data|..w]
  {
  }

  class Buffer {
    var storage: array<Byte>
    var readerIndex: nat
    var writerIndex: nat

    ghost predicate Valid()
      reads this
    {
      readerIndex <= writerIndex <= storage.Length && CHEAP_PREPEND <= storage.Length
    }

    ghost function View(): (b: Rep)
      reads this, storage
      requires Valid()
      ensures Good(b) && Writable(b) == storage.Length - writerIndex && |b.contents| == writerIndex - readerIndex
    {
      Rep(storage.Length, readerIndex, storage[readerIndex..writerIndex])
    }

    ghost function Contents(): seq<Byte>
      reads this, storage
      requires Valid()
    {
      View().contents
    }

    constructor (initialSize: nat)
      ensures Valid() && fresh(storage) && View() == NewRep(initialSize)
    {
      storage := new Byte[CHEAP_PREPEND + initialSize];
      readerIndex, writerIndex := CHEAP_PREPEND, CHEAP_PREPEND;
    }

    function ReadableBytes(): (r: nat)
      reads this
      requires Valid()
      ensures r == writerIndex - readerIndex
    {
      writerIndex - readerIndex
    }

    function WritableBytes(): (r: nat)
      reads this
      requires Valid()
    {
      storage.Length - writerIndex
    }

    /** vector::resize: the old bytes in storage of a new size. */
    method Resize(size: nat)
      requires Valid() && writerIndex <= size && storage.Length <= size
      modifies this`storage
      ensures Valid() && fresh(storage)
      ensures View() == old(View()).(size := size)
    {
      var grown := new Byte[size];
      forall i | 0 <= i < storage.Length {
        grown[i] := storage[i];
      }
      storage := grown;
    }

    /** std::copy of outside bytes into the storage. */
    method WriteAt(at: nat, data: seq<Byte>)
      requires at + |data| <= storage.Length
      modifies storage
      ensures storage[..] == old(storage[..at]) + data + old(storage[at + |data|..])
    {
      forall i | 0 <= i < |data| {
        storage[at + i] := data[i];
      }
      assert storage[..at] == old(storage[..at]);
      assert storage[at + |data|..] == old(storage[at + |data|..]);
      assert storage[at..at + |data|] == data;
      assert storage[..] == storage[..at] + storage[at..at + |data|] + storage[at + |data|..];
    }

    /** std::copy of the readable bytes to a place in front of them; the two ranges may overlap. */
    method MoveForward(to: nat)
      requires Valid() && to <= readerIndex
      modifies storage
      ensures storage[to..to + (writerIndex - readerIndex)] == old(storage[readerIndex..writerIndex])
    {
      var n, i := writerIndex - readerIndex, 0;
      ghost var was := storage[..];
      while i < n
        invariant 0 <= i <= n
        invariant storage[to..to + i] == was[readerIndex..readerIndex + i]
        invariant forall k :: to + i <= k < storage.Length ==> storage[k] == was[k]
      {
        storage[to + i] := storage[readerIndex + i];
        i := i + 1;
        assert storage[to..to + i] == storage[to..to + i - 1] + [storage[to + i - 1]];
      }
    }

    method MakeSpace(len: nat)
      requires Valid() && WritableBytes() < len
      modifies this, storage
      ensures Valid() && (storage == old(storage) || fresh(storage))
      ensures View() == Reserved(old(View()), len)
    {
      if WritableBytes() + readerIndex < len + CHEAP_PREPEND {
        Resize(writerIndex + len);
      } else {
        assert CHEAP_PREPEND < readerIndex;
        var readable := ReadableBytes();
        MoveForward(CHEAP_PREPEND);
        readerIndex := CHEAP_PREPEND;
        writerIndex := readerIndex + readable;
        assert readable == ReadableBytes();
      }
    }

    method EnsureWritableBytes(len: nat)
      requires Valid()
      modifies this, storage
      ensures Valid() && (storage == old(storage) || fresh(storage))
      ensures View() == Reserved(old(View()), len) && WritableBytes() >= len
    {
      if WritableBytes() < len {
        MakeSpace(len);
      }
      assert WritableBytes() >= len;
    }

    method Append(data: seq<Byte>)
      requires Valid()
      modifies this, storage
      ensures Valid() && (storage == old(storage) || fresh(storage))
      ensures View() == AppendedTo(old(View()), data)
    {
      EnsureWritableBytes(|data|);
      ghost var all := storage[..];
      WriteAt(writerIndex, data);
      WrittenBehind(all, readerIndex, writerIndex, data);
      writerIndex := writerIndex + |data|;
      assert storage[readerIndex..writerIndex] == storage[..][readerIndex..writerIndex];
    }

    method RetrieveAll()
      requires Valid()
      modifies `readerIndex, `writerIndex
      ensures Valid() && View() == Retrieved(old(View()), |old(View()).contents|)
    {
      readerIndex, writerIndex := CHEAP_PREPEND, CHEAP_PREPEND;
    }

    method Retrieve(len: nat)
      requires Valid() && len <= ReadableBytes()
      modifies `readerIndex, `writerIndex
      ensures Valid() && View() == Retrieved(old(View()), len)
    {
      if len < ReadableBytes() {
        readerIndex := readerIndex + len;
      } else {
        RetrieveAll();
      }
    }

    method RetrieveAsString(len: nat) returns (s: seq<Byte>)
      requires Valid() && len <= ReadableBytes()
      modifies `readerIndex, `writerIndex
      ensures Valid() && s == old(Contents())[..len] && View() == Retrieved(old(View()), len)
    {
      s := storage[readerIndex..readerIndex + len];
      Retrieve(len);
    }

    method Prepend(data: seq<Byte>)
      requires Valid() && |data| <= readerIndex
      modifies `readerIndex, storage
      ensures Valid() && View() == Prepended(old(View()), data)
    {
      ghost var all := storage[..];
      readerIndex := readerIndex - |data|;
      WriteAt(readerIndex, data);
      WrittenBefore(all, readerIndex, writerIndex, data);
      assert storage[readerIndex..writerIndex] == storage[..][readerIndex..writerIndex];
    }

    method Unwrite(len: nat)
      requires Valid() && len <= ReadableBytes()
      modifies `writerIndex
      ensures Valid() && View() == Unwritten(old(View()), len)
    {
      writerIndex := writerIndex - len;
      ghost var before := old(Contents());
      assert Contents() == before[..|before| - len];
    }

    /** `result` is what the scatter read delivers, None an error. */
    method ReadFd(result: Option<seq<Byte>>) returns (n: int)
      requires Valid() && (result.Some? ==> |result.value| <= ReadLimit(View()))
      modifies this, storage
      ensures Valid() && (storage == old(storage) || fresh(storage))
      ensures n == if result.Some? then |result.value| else -1
      ensures View() == if result.Some? then ReadInto(old(View()), result.value) else old(View())
    {
      if result.None? {
        return -1;
      }
      var data, writable := result.value, WritableBytes();
      var first := if |data| <= writable then data else data[..writable];
      ghost var all := storage[..];
      WriteAt(writerIndex, first);
      WrittenBehind(all, readerIndex, writerIndex, first);
      n := |data|;
      if n <= writable {
        writerIndex := writerIndex + n;
        assert storage[readerIndex..writerIndex] == storage[..][readerIndex..writerIndex];
      } else {
        writerIndex := storage.Length;
        assert storage[readerIndex..writerIndex] == storage[..][readerIndex..writerIndex];
        Append(data[writable..]);
      }
    }

    method AppendInt(x: int, w: nat)
      requires Valid() && InRange(x, w)
      modifies this, storage
      ensures Valid() && (storage == old(storage) || fresh(storage))
      ensures View() == AppendedTo(old(View()), Encode(x, w))
      ensures |Contents()| == |old(Contents())| + w && NetworkOrder(Contents()[|old(Contents())|..], Unsigned(x, w))
    {
      EncodeOrder(x, w);
      Append(Encode(x, w));
      assert Contents()[|old(Contents())|..] == Encode(x, w);
    }

    method PeekInt(w: nat) returns (x: int)
      requires Valid() && w <= ReadableBytes()
      ensures InRange(x, w) && Encode(x, w) == Contents()[..w]
      ensures NetworkOrder(Contents()[..w], Unsigned(x, w))
    {
      var front := storage[readerIndex..readerIndex + w];
      FrontSlice(storage[..], readerIndex, writerIndex, w);
      assert front == Contents()[..w];
      EncodeDecode(front);
      x := Decode(front);
      EncodeOrder(x, w);
    }

    method ReadInt(w: nat) returns (x: int)
      requires Valid() && w <= ReadableBytes()
      modifies `readerIndex, `writerIndex
      ensures InRange(x, w) && Encode(x, w) == old(Contents())[..w]
      ensures NetworkOrder(old(Contents())[..w], Unsigned(x, w))
      ensures Valid() && View() == Retrieved(old(View()), w)
    {
      x := PeekInt(w);
      Retrieve(w);
    }

    method PrependInt(x: int, w: nat)
      requires Valid() && InRange(x, w) && w <= readerIndex
      modifies `readerIndex, storage
      ensures Valid() && View() == Prepended(old(View()), Encode(x, w))
      ensures NetworkOrder(Contents()[..w], Unsigned(x, w)) && Contents()[w..] == old(Contents())
    {
      EncodeOrder(x, w);
      Prepend(Encode(x, w));
      assert Contents()[..w] == Encode(x, w);
    }
  }

  method Perform(b: Buffer, op: Op)
    requires b.Valid() && Allowed(b.View(), op)
    modifies b, b.storage
    ensures b.Valid() && (b.storage == old(b.storage) || fresh(b.storage))
    ensures b.View() == Apply(old(b.View()), op)
  {
    match op {
      case Append(data) => b.Append(data);
      case Retrieve(len) => b.Retrieve(len);
      case Prepend(front) => b.Prepend(front);
      case Unwrite(count) => b.Unwrite(count);
      case ReadFd(arrived) => var _ := b.ReadFd(Some(arrived));
      case EnsureWritable(room) => b.EnsureWritableBytes(room);
    }
  }

  /** Any run of calls on a buffer, through every move and reallocation of its array: it holds what a plain
      sequence would, and the array stays within twice the most it had to hold, and seven. */
  method RunAll(b: Buffer, ops: seq<Op>)
    requires b.Valid() && LegalOps(b.View(), ops)
    modifies b, b.storage
    ensures b.Valid() && (b.storage == old(b.storage) || fresh(b.storage))
    ensures b.Contents() == RunPlain(old(b.Contents()), ops)
    ensures b.storage.Length <= Max(old(b.storage.Length), 2 * old(Peak(b.View(), ops)) + 7)
  {
    RunRefinesPlainSequence(b.View(), ops);
    RunGrowth(b.View(), ops);
    var i := 0;
    while i < |ops|
      invariant i <= |ops| && b.Valid() && (b.storage == old(b.storage) || fresh(b.storage))
      invariant LegalOps(b.View(), ops[i..])
      invariant RunOps(b.View(), ops[i..]) == RunOps(old(b.View()), ops)
    {
      assert ops[i..][1..] == ops[i + 1..];
      Perform(b, ops[i]);
      i := i + 1;
    }
  }

  // ----- integers through a buffer -----

  datatype IntOp = Put(x: Int) | Take(width: nat) | MakeRoom(room: nat)

  /** Each read asks for the width of the integer that is then in front of the queue. */
  predicate WidthsMatch(queue: seq<Int>, script: seq<IntOp>)
    decreases script
  {
    script == [] ||
    match script[0]
    case Put(x) => InRange(x.value, x.width) && WidthsMatch(queue + [x], script[1..])
    case Take(w) => queue != [] && queue[0].width == w && WidthsMatch(queue[1..], script[1..])
    case MakeRoom(_) => WidthsMatch(queue, script[1..])
  }

  function Written(op: IntOp): seq<Int> {
    if op.Put? then [op.x] else []
  }

  function WrittenBy(script: seq<IntOp>): seq<Int> {
    if script == [] then []
    else Written(script[0]) + WrittenBy(script[1..])
  }

  function Reads(script: seq<IntOp>): nat {
    if script == [] then 0 else (if script[0].Take? then 1 else 0) + Reads(script[1..])
  }

  method PutInt(b: Buffer, ghost queue: seq<Int>, x: Int)
    requires b.Valid() && AllInRange(queue) && b.Contents() == EncodeAll(queue) && InRange(x.value, x.width)
    modifies b, b.storage
    ensures b.Valid() && (b.storage == old(b.storage) || fresh(b.storage))
    ensures AllInRange(queue + [x]) && b.Contents() == EncodeAll(queue + [x])
  {
    b.AppendInt(x.value, x.width);
    EncodeAllSnoc(queue, x);
  }

  method TakeInt(b: Buffer, ghost queue: seq<Int>, w: nat) returns (x: Int)
    requires b.Valid() && AllInRange(queue) && b.Contents() == EncodeAll(queue)
    requires queue != [] && queue[0].width == w
    modifies b, b.storage
    ensures b.Valid() && b.storage == old(b.storage)
    ensures x == queue[0] && b.Contents() == EncodeAll(queue[1..])
  {
    DecodeEncode(queue[0].value, w);
    assert b.Contents()[..w] == Encode(queue[0].value, w) && b.Contents()[w..] == EncodeAll(queue[1..]);
    var value := b.ReadInt(w);
    DecodeEncode(value, w);
    x := Int(w, value);
  }

  method PassOne(b: Buffer, ghost queue: seq<Int>, op: IntOp, ghost more: seq<IntOp>)
    returns (taken: seq<Int>, ghost left: seq<Int>)
    requires b.Valid() && AllInRange(queue) && b.Contents() == EncodeAll(queue) && WidthsMatch(queue, [op] + more)
    modifies b, b.storage
    ensures b.Valid() && (b.storage == old(b.storage) || fresh(b.storage))
    ensures AllInRange(left) && b.Contents() == EncodeAll(left) && WidthsMatch(left, more)
    ensures taken + left == queue + Written(op) && |taken| == if op.Take? then 1 else 0
  {
    assert ([op] + more)[1..] == more;
    taken, left := [], queue;
    match op {
      case Put(x) =>
        PutInt(b, queue, x);
        left := queue + [x];
      case Take(w) =>
        var x := TakeInt(b, queue, w);
        taken, left := [x], queue[1..];
      case MakeRoom(room) =>
        b.EnsureWritableBytes(room);
    }
  }

  /** Integers written to a buffer come out in the order and with the values they were written, however
      writes, reads and requests for room alternate and however often the bytes move in between. */
  method PassInts(b: Buffer, ghost queue: seq<Int>, script: seq<IntOp>) returns (got: seq<Int>, ghost left: seq<Int>)
    requires b.Valid() && AllInRange(queue) && b.Contents() == EncodeAll(queue) && WidthsMatch(queue, script)
    modifies b, b.storage
    ensures got + left == queue + WrittenBy(script) && |got| == Reads(script)
    ensures b.Valid() && (b.storage == old(b.storage) || fresh(b.storage))
    ensures AllInRange(left) && b.Contents() == EncodeAll(left)
  {
    var i := 0;
    got, left := [], queue;
    while i < |script|
      invariant i <= |script| && b.Valid() && (b.storage == old(b.storage) || fresh(b.storage))
      invariant AllInRange(left) && b.Contents() == EncodeAll(left) && WidthsMatch(left, script[i..])
      invariant got + left + WrittenBy(script[i..]) == queue + WrittenBy(script)
      invariant |got| + Reads(script[i..]) == Reads(script)
    {
      ghost var more := script[i + 1..];
      assert script[i..] == [script[i]] + more && script[i..][1..] == more;
      ghost var before := left;
      var taken: seq<Int>;
      taken, left := PassOne(b, left, script[i], more);
      Shifted(got, before, taken, left, Written(script[i]), WrittenBy(more));
      got := got + taken;
      i := i + 1;
    }
  }

  lemma Shifted(got: seq<Int>, before: seq<Int>, taken: seq<Int>, after: seq<Int>, x: seq<Int>, more: seq<Int>)
    requires taken + after == before + x
    ensures got + taken + after + more == got + before + (x + more)
  {
    Associative(got, taken, after);
    Associative(got, before, x);
    Associative(got + before, x, more);
  }

  /** The calls that leave the front alone, and may move or reallocate the bytes behind it. */
  predicate AddsBehind(ops: seq<Op>) {
    forall op :: op in ops ==> op.Append? || op.ReadFd? || op.EnsureWritable?
  }

  lemma {:induction false} AddingKeepsFront(front: seq<Byte>, s: seq<Byte>, ops: seq<Op>)
    requires AddsBehind(ops)
    ensures RunPlain(front + s, ops) == front + RunPlain(s, ops)
    decreases ops
  {
    if ops != [] {
      assert ops[0] in ops;
      assert ApplyPlain(front + s, ops[0]) == front + ApplyPlain(s, ops[0]);
      AddingKeepsFront(front, ApplyPlain(s, ops[0]), ops[1..]);
    }
  }

  /** An integer put in front reads back, whatever is added, read from a descriptor, grown or compacted between,
      and leaves what a buffer without it would hold. */
  method PrependThenRead(b: Buffer, x: int, w: nat, ops: seq<Op>) returns (y: int)
    requires b.Valid() && InRange(x, w) && w <= b.readerIndex
    requires AddsBehind(ops) && LegalOps(Prepended(b.View(), Encode(x, w)), ops)
    modifies b, b.storage
    ensures b.Valid() && y == x && b.Contents() == RunPlain(old(b.Contents()), ops)
  {
    ghost var front := Encode(x, w);
    b.PrependInt(x, w);
    RunAll(b, ops);
    AddingKeepsFront(front, old(b.Contents()), ops);
    assert b.Contents()[..w] == front && b.Contents()[w..] == RunPlain(old(b.Contents()), ops);
    y := b.ReadInt(w);
    DecodeEncode(x, w);
    DecodeEncode(y, w);
  }
}
