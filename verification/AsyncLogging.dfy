/**
 base/AsyncLogging.cpp: many producers and one consumer exchange large buffers under a mutex.

 The consumer's locals (`newBuffer1`, `newBuffer2`, `buffersToWrite`) live here as fields beside a
 phase, so that a producer may run between any two of its steps. One event is one atomic step:
 a whole critical section, or one stretch of code that touches the consumer's locals only.
 `failed` records that an `assert` of the source did not hold.
 */
module AsyncLog {
  import opened Base
  import opened FixedBuffers
  import FileUtil

  type Line = string

  const LARGE_BUFFER: nat := 4000 * 1000
  const MAX_BATCH: nat := 25
  const KEPT: nat := 2

  /** One heap-allocated FixedBuffer<kLargeBuffer>; `id` is its identity. */
  datatype Block = Block(id: nat, bytes: string)

  datatype Phase = Top | Locking | Waiting | Swapped | Writing(done: nat) | Stopped

  datatype State = State(
    current: Block, next: Option<Block>, buffers: seq<Block>,
    new1: Option<Block>, new2: Option<Block>, batch: seq<Block>,
    phase: Phase, running: bool, file: string,
    cut: bool,                   // a write gave up before the end of a buffer
    made: nat,                   // identities handed out so far
    handed: seq<seq<Block>>,     // every batch swapped out so far, as it was swapped
    failed: bool)

  datatype Event = Append(line: Line) | Stop | Check | Lock | Wake | Trim | Write(taken: nat) | Recycle

  const INIT := State(Block(0, ""), Some(Block(1, "")), [], Some(Block(2, "")), Some(Block(3, "")), [],
                      Top, true, "", false, 4, [], false)

  predicate Enabled(s: State, e: Event) {
    match e
    case Append(_) => true
    case Stop => true
    case Check => s.phase.Top?
    case Lock => s.phase.Locking?
    case Wake => s.phase.Waiting?
    case Trim => s.phase.Swapped?
    case Write(n) => s.phase.Writing? && s.phase.done < |s.batch| && n <= |s.batch[s.phase.done].bytes|
    case Recycle => s.phase.Writing? && s.phase.done >= |s.batch|
  }

  function AppendStep(s: State, line: Line): State {
    if LARGE_BUFFER - |s.current.bytes| > |line| then
      s.(current := Block(s.current.id, Appended(LARGE_BUFFER, s.current.bytes, line)))
    else
      var spare := if s.next.Some? then s.next.value else Block(s.made, "");
      s.(buffers := s.buffers + [s.current],
         current := Block(spare.id, Appended(LARGE_BUFFER, spare.bytes, line)),
         next := None,
         made := if s.next.Some? then s.made else s.made + 1)
  }

  predicate EmptySpare(b: Option<Block>) {
    b.Some? && b.value.bytes == ""
  }

  function CheckStep(s: State): State {
    if !s.running then s.(phase := Stopped)
    else s.(phase := Locking,
            failed := s.failed || !EmptySpare(s.new1) || !EmptySpare(s.new2) || s.batch != [])
  }

  /** The rest of the critical section once the wait, if any, is over. */
  function SwapStep(s: State): State {
    if s.new1.None? then s.(failed := true)
    else
      var out := s.buffers + [s.current];
      s.(current := s.new1.value, new1 := None,
         buffers := s.batch, batch := out, handed := s.handed + [out],
         next := if s.next.None? then s.new2 else s.next,
         new2 := if s.next.None? then None else s.new2,
         phase := Swapped)
  }

  function LockStep(s: State): State {
    if s.buffers == [] then s.(phase := Waiting) else SwapStep(s)
  }

  function Kept(batch: seq<Block>): seq<Block> {
    if |batch| > MAX_BATCH then batch[..KEPT] else batch
  }

  function TrimStep(s: State): State {
    s.(batch := Kept(s.batch), phase := Writing(0), failed := s.failed || s.batch == [])
  }

  /** The file takes the first `n` characters of the next buffer; short of all of them, it gave up. */
  function WriteStep(s: State, n: nat): State
    requires Enabled(s, Write(n))
  {
    var bytes := s.batch[s.phase.done].bytes;
    s.(file := s.file + bytes[..n], cut := s.cut || n < |bytes|, phase := Writing(s.phase.done + 1))
  }

  /** Moves the last buffer of the batch into an empty slot. */
  function Refill(slot: Option<Block>, batch: seq<Block>): (Option<Block>, seq<Block>) {
    if slot.None? && batch != [] then (Some(Block(batch[|batch| - 1].id, "")), batch[..|batch| - 1])
    else (slot, batch)
  }

  function RecycleStep(s: State): State {
    var kept := if |s.batch| > KEPT then s.batch[..KEPT] else s.batch;
    var (n1, rest1) := Refill(s.new1, kept);
    var (n2, _) := Refill(s.new2, rest1);
    s.(new1 := n1, new2 := n2, batch := [], phase := Top,
       failed := s.failed || n1.None? || n2.None?)
  }

  function Next(s: State, e: Event): State
    requires Enabled(s, e)
  {
    match e
    case Append(line) => AppendStep(s, line)
    case Stop => s.(running := false)
    case Check => CheckStep(s)
    case Lock => LockStep(s)
    case Wake => SwapStep(s)
    case Trim => TrimStep(s)
    case Write(n) => WriteStep(s, n)
    case Recycle => RecycleStep(s)
  }

  predicate Legal(s: State, evs: seq<Event>)
    decreases evs
  {
    evs == [] || (Enabled(s, evs[0]) && Legal(Next(s, evs[0]), evs[1..]))
  }

  function Run(s: State, evs: seq<Event>): State
    requires Legal(s, evs)
    decreases evs
  {
    if evs == [] then s else Run(Next(s, evs[0]), evs[1..])
  }

  // ----- the spare buffers -----

  function Ids(bs: seq<Block>): (r: seq<nat>) {
    seq(|bs|, i requires 0 <= i < |bs| => bs[i].id)
  }

  function OptId(b: Option<Block>): multiset<nat> {
    if b.None? then multiset{} else multiset{b.value.id}
  }

  /** The identities of all buffers reachable from any slot, with multiplicity. */
  function Owned(s: State): multiset<nat> {
    multiset{s.current.id} + OptId(s.next) + multiset(Ids(s.buffers))
    + OptId(s.new1) + OptId(s.new2) + multiset(Ids(s.batch))
  }

  ghost predicate Distinct(s: State) {
    forall id :: Owned(s)[id] <= (if id < s.made then 1 else 0)
  }

  predicate Spares(s: State) {
    && (s.next.None? ==> s.buffers != [])
    && (s.next.Some? ==> s.next.value.bytes == "")
    && (s.new2.Some? ==> s.new2.value.bytes == "")
    && (s.phase.Swapped? || s.phase.Writing? ==> s.new1.None? && s.batch != [] && (s.new2.None? ==> |s.batch| >= 2))
    && (!s.phase.Swapped? && !s.phase.Writing? ==> EmptySpare(s.new1) && EmptySpare(s.new2) && s.batch == [])
  }

  /** The batch being written is what `Kept` leaves of the last batch handed over. */
  predicate InBatch(s: State) {
    && (s.phase.Swapped? || s.phase.Writing? ==> s.handed != [])
    && (s.phase.Swapped? ==> s.batch == s.handed[|s.handed| - 1])
    && (s.phase.Writing? ==> s.batch == Kept(s.handed[|s.handed| - 1]) && s.phase.done <= |s.batch|)
  }

  ghost predicate Inv(s: State) {
    !s.failed && Spares(s) && InBatch(s) && Distinct(s)
  }

  lemma IdsConcat(a: seq<Block>, b: seq<Block>)
    ensures multiset(Ids(a + b)) == multiset(Ids(a)) + multiset(Ids(b))
  {
    assert Ids(a + b) == Ids(a) + Ids(b);
  }

  lemma IdsSnoc(a: seq<Block>, b: Block)
    ensures multiset(Ids(a + [b])) == multiset(Ids(a)) + multiset{b.id}
  {
    IdsConcat(a, [b]);
    assert Ids([b]) == [b.id];
  }

  lemma IdsPrefix(a: seq<Block>, n: nat)
    requires n <= |a|
    ensures multiset(Ids(a[..n])) <= multiset(Ids(a))
  {
    IdsConcat(a[..n], a[n..]);
    assert a[..n] + a[n..] == a;
  }

  lemma RefillIds(slot: Option<Block>, batch: seq<Block>)
    ensures var (n, rest) := Refill(slot, batch);
            OptId(n) + multiset(Ids(rest)) == OptId(slot) + multiset(Ids(batch))
  {
    if slot.None? && batch != [] {
      IdsSnoc(batch[..|batch| - 1], batch[|batch| - 1]);
      assert batch[..|batch| - 1] + [batch[|batch| - 1]] == batch;
    }
  }

  /** What a step may do to the buffers: lose some, or make the one numbered `s.made`. */
  ghost predicate OwnedStep(s: State, t: State) {
    || (t.made == s.made && Owned(t) <= Owned(s))
    || (t.made == s.made + 1 && Owned(t) <= Owned(s) + multiset{s.made})
  }

  lemma AppendOwned(s: State, line: Line)
    ensures OwnedStep(s, AppendStep(s, line))
  {
    IdsSnoc(s.buffers, s.current);
  }

  lemma SwapOwned(s: State)
    requires s.new1.Some? && s.batch == []
    ensures OwnedStep(s, SwapStep(s))
  {
    IdsSnoc(s.buffers, s.current);
  }

  lemma TrimOwned(s: State)
    ensures OwnedStep(s, TrimStep(s))
  {
    if |s.batch| > MAX_BATCH { IdsPrefix(s.batch, KEPT); }
  }

  /** Recycling only moves buffers out of the batch. */
  lemma RefillTwice(slot1: Option<Block>, slot2: Option<Block>, batch: seq<Block>)
    ensures var (n1, rest) := Refill(slot1, batch);
            OptId(n1) + OptId(Refill(slot2, rest).0) <= OptId(slot1) + OptId(slot2) + multiset(Ids(batch))
  {
    var (n1, rest) := Refill(slot1, batch);
    RefillIds(slot1, batch);
    RefillIds(slot2, rest);
    var n2 := Refill(slot2, rest).0;
    assert OptId(n2) <= OptId(slot2) + multiset(Ids(rest));
    assert OptId(n1) + OptId(n2) <= OptId(n1) + (OptId(slot2) + multiset(Ids(rest)));
    assert OptId(n1) + (OptId(slot2) + multiset(Ids(rest))) == (OptId(n1) + multiset(Ids(rest))) + OptId(slot2);
  }

  lemma RecycleOwned(s: State)
    ensures OwnedStep(s, RecycleStep(s))
  {
    var kept := if |s.batch| > KEPT then s.batch[..KEPT] else s.batch;
    if |s.batch| > KEPT { IdsPrefix(s.batch, KEPT); }
    RefillTwice(s.new1, s.new2, kept);
    var fixed := multiset{s.current.id} + OptId(s.next) + multiset(Ids(s.buffers));
    var t := RecycleStep(s);
    assert Owned(t) == fixed + (OptId(t.new1) + OptId(t.new2));
    assert Owned(s) == fixed + (OptId(s.new1) + OptId(s.new2) + multiset(Ids(s.batch)));
  }

  lemma OwnedStepDistinct(s: State, t: State)
    requires Distinct(s) && OwnedStep(s, t)
    ensures Distinct(t)
  {
    forall id
      ensures Owned(t)[id] <= (if id < t.made then 1 else 0)
    {
      assert Owned(s)[id] <= (if id < s.made then 1 else 0);
    }
  }

  /** No step duplicates a buffer, and only a producer that finds no spare makes a new one. */
  lemma StepOwned(s: State, e: Event)
    requires Enabled(s, e) && Inv(s)
    ensures OwnedStep(s, Next(s, e))
    ensures Next(s, e).made == s.made
         || (Next(s, e).made == s.made + 1 && e.Append? && s.next.None? && Next(s, e).current.id == s.made)
  {
    StepMade(s, e);
    if e.Append? {
      AppendOwned(s, e.line);
    } else if e.Wake? || (e.Lock? && s.buffers != []) {
      SwapOwned(s);
    } else if e.Trim? {
      TrimOwned(s);
    } else if e.Recycle? {
      RecycleOwned(s);
    } else {
      QuietOwned(s, e);
    }
  }

  lemma QuietOwned(s: State, e: Event)
    requires Enabled(s, e) && (e.Stop? || e.Check? || e.Write? || (e.Lock? && s.buffers == []))
    ensures Owned(Next(s, e)) == Owned(s) && Next(s, e).made == s.made
  {
  }

  lemma StepMade(s: State, e: Event)
    requires Enabled(s, e)
    ensures Next(s, e).made == s.made
         || (Next(s, e).made == s.made + 1 && e.Append? && s.next.None? && Next(s, e).current.id == s.made)
  {
  }

  lemma StepSimple(s: State, e: Event)
    requires Enabled(s, e) && !s.failed && Spares(s) && InBatch(s)
    ensures var t := Next(s, e); !t.failed && Spares(t) && InBatch(t)
  {
    if e.Recycle? { RecycleSimple(s); }
  }

  lemma RecycleSimple(s: State)
    requires Enabled(s, Recycle) && !s.failed && Spares(s)
    ensures var t := RecycleStep(s); !t.failed && Spares(t) && InBatch(t)
  {
    var kept := if |s.batch| > KEPT then s.batch[..KEPT] else s.batch;
    assert Refill(s.new1, kept) == (Some(Block(kept[|kept| - 1].id, "")), kept[..|kept| - 1]);
  }

  lemma StepInv(s: State, e: Event)
    requires Enabled(s, e) && Inv(s)
    ensures Inv(Next(s, e))
  {
    StepSimple(s, e);
    StepOwned(s, e);
    OwnedStepDistinct(s, Next(s, e));
  }

  lemma {:induction false} RunInv(s: State, evs: seq<Event>)
    requires Inv(s) && Legal(s, evs)
    ensures Inv(Run(s, evs))
    decreases evs
  {
    if evs != [] {
      StepInv(s, evs[0]);
      RunInv(Next(s, evs[0]), evs[1..]);
    }
  }

  lemma InitInv()
    ensures Inv(INIT)
  {
  }

  /** In every interleaving every `assert` of the consumer loop holds, the spare buffers are empty, and
      no buffer is in two places; `nextBuffer_` is missing only while a full buffer waits. */
  lemma AssertsNeverFail(evs: seq<Event>)
    requires Legal(INIT, evs)
    ensures var s := Run(INIT, evs);
            && !s.failed
            && (s.next.None? ==> s.buffers != [])
            && (s.next.Some? ==> s.next.value.bytes == "")
            && (s.phase.Top? ==> EmptySpare(s.new1) && EmptySpare(s.new2) && s.batch == [])
            && (forall id :: Owned(s)[id] <= 1)
  {
    InitInv();
    RunInv(INIT, evs);
    var s := Run(INIT, evs);
    forall id
      ensures Owned(s)[id] <= 1
    {
      assert Owned(s)[id] <= (if id < s.made then 1 else 0);
    }
  }

  // ----- order and conservation -----

  function LineOf(e: Event): seq<Line> {
    if e.Append? then [e.line] else []
  }

  /** The lines offered in a run, in the order in which the mutex was taken. */
  function LinesOf(evs: seq<Event>): seq<Line> {
    if evs == [] then [] else LineOf(evs[0]) + LinesOf(evs[1..])
  }

  /** The lines short enough for an empty buffer. */
  function Fitting(lines: seq<Line>): seq<Line> {
    if lines == [] then []
    else FittingOne(lines[0]) + Fitting(lines[1..])
  }

  function Texts(bs: seq<Block>): (r: seq<string>) {
    seq(|bs|, i requires 0 <= i < |bs| => bs[i].bytes)
  }

  /** Every buffer ever filled, oldest first, ending with the one being filled. */
  function AllBlocks(s: State): seq<Block> {
    Flatten(s.handed) + s.buffers + [s.current]
  }

  /** `texts` are the concatenations of consecutive groups of whole lines, which together are `lines`. */
  ghost predicate HoldsWholeLines(texts: seq<string>, lines: seq<Line>) {
    exists groups: seq<seq<Line>> :: Grouping(texts, groups, lines)
  }

  predicate Grouping(texts: seq<string>, groups: seq<seq<Line>>, lines: seq<Line>) {
    && |groups| == |texts|
    && Flatten(groups) == lines
    && forall i :: 0 <= i < |texts| ==> texts[i] == Flatten(groups[i])
  }

  /** One line enters the last buffer. */
  lemma GrowLast(init: seq<string>, last: string, lines: seq<Line>, line: Line)
    requires HoldsWholeLines(init + [last], lines)
    ensures HoldsWholeLines(init + [last + line], lines + [line])
  {
    var texts := init + [last];
    var groups: seq<seq<Line>> :| Grouping(texts, groups, lines);
    var n := |init|;
    assert groups == groups[..n] + [groups[n]];
    var groups' := groups[..n] + [groups[n] + [line]];
    FlattenSnoc(groups[..n], groups[n]);
    FlattenSnoc(groups[..n], groups[n] + [line]);
    FlattenSnoc(groups[n], line);
    assert texts[n] == last;
    assert Flatten(groups') == lines + [line];
    forall i | 0 <= i < n + 1
      ensures (init + [last + line])[i] == Flatten(groups'[i])
    {
      if i < n { assert texts[i] == init[i]; }
    }
    assert Grouping(init + [last + line], groups', lines + [line]);
  }

  /** An empty buffer is put behind the last one. */
  lemma AddEmpty(texts: seq<string>, lines: seq<Line>)
    requires HoldsWholeLines(texts, lines)
    ensures HoldsWholeLines(texts + [""], lines)
  {
    var groups: seq<seq<Line>> :| Grouping(texts, groups, lines);
    FlattenSnoc(groups, []);
    assert Grouping(texts + [""], groups + [[]], lines);
  }

  lemma SwapKeepsBlocks(s: State)
    requires Inv(s) && s.new1.Some? && s.batch == []
    ensures AllBlocks(SwapStep(s)) == AllBlocks(s) + [s.new1.value]
  {
    FlattenSnoc(s.handed, s.buffers + [s.current]);
  }

  lemma AppendWholeLines(s: State, line: Line, lines: seq<Line>)
    requires s.next.Some? ==> s.next.value.bytes == ""
    requires HoldsWholeLines(Texts(AllBlocks(s)), lines)
    ensures HoldsWholeLines(Texts(AllBlocks(AppendStep(s, line))), lines + FittingOne(line))
  {
    var front := Flatten(s.handed) + s.buffers;
    var t := AppendStep(s, line);
    assert Texts(AllBlocks(s)) == Texts(front) + [s.current.bytes];
    if LARGE_BUFFER - |s.current.bytes| > |line| {
      GrowLast(Texts(front), s.current.bytes, lines, line);
      assert Texts(AllBlocks(t)) == Texts(front) + [s.current.bytes + line];
    } else {
      AddEmpty(Texts(AllBlocks(s)), lines);
      assert Texts(AllBlocks(t)) == Texts(AllBlocks(s)) + [t.current.bytes];
      if |line| < LARGE_BUFFER {
        GrowLast(Texts(AllBlocks(s)), "", lines, line);
        assert t.current.bytes == "" + line;
      } else {
        assert t.current.bytes == "" && lines + [] == lines;
      }
    }
  }

  lemma StepWholeLines(s: State, e: Event, lines: seq<Line>)
    requires Enabled(s, e) && Inv(s)
    requires HoldsWholeLines(Texts(AllBlocks(s)), lines)
    ensures HoldsWholeLines(Texts(AllBlocks(Next(s, e))), lines + Fitting(LineOf(e)))
  {
    if e.Append? {
      AppendWholeLines(s, e.line, lines);
      assert [e.line][1..] == [] && Fitting([e.line]) == FittingOne(e.line) + [] == FittingOne(e.line);
    } else {
      assert lines + Fitting(LineOf(e)) == lines;
      if e.Wake? || (e.Lock? && s.buffers != []) {
        SwapWholeLines(s, lines);
      } else {
        assert AllBlocks(Next(s, e)) == AllBlocks(s);
      }
    }
  }

  lemma SwapWholeLines(s: State, lines: seq<Line>)
    requires Inv(s) && EmptySpare(s.new1) && s.batch == []
    requires HoldsWholeLines(Texts(AllBlocks(s)), lines)
    ensures HoldsWholeLines(Texts(AllBlocks(SwapStep(s))), lines)
  {
    SwapKeepsBlocks(s);
    AddEmpty(Texts(AllBlocks(s)), lines);
    assert Texts(AllBlocks(SwapStep(s))) == Texts(AllBlocks(s)) + [""];
  }

  function FittingOne(line: Line): seq<Line> {
    if |line| < LARGE_BUFFER then [line] else []
  }

  lemma {:induction false} FittingConcat(a: seq<Line>, b: seq<Line>)
    ensures Fitting(a + b) == Fitting(a) + Fitting(b)
  {
    if a == [] {
      assert a + b == b;
    } else {
      assert (a + b)[0] == a[0] && (a + b)[1..] == a[1..] + b;
      FittingConcat(a[1..], b);
      Associative(FittingOne(a[0]), Fitting(a[1..]), Fitting(b));
    }
  }

  lemma {:induction false} RunWholeLines(s: State, evs: seq<Event>, lines: seq<Line>)
    requires Inv(s) && Legal(s, evs)
    requires HoldsWholeLines(Texts(AllBlocks(s)), lines)
    ensures HoldsWholeLines(Texts(AllBlocks(Run(s, evs))), lines + Fitting(LinesOf(evs)))
    decreases evs
  {
    if evs == [] {
      assert lines + Fitting(LinesOf(evs)) == lines;
    } else {
      StepInv(s, evs[0]);
      StepWholeLines(s, evs[0], lines);
      var head, tail := LineOf(evs[0]), LinesOf(evs[1..]);
      RunWholeLines(Next(s, evs[0]), evs[1..], lines + Fitting(head));
      FittingConcat(head, tail);
      Associative(lines, Fitting(head), Fitting(tail));
    }
  }

  /** Order and conservation: the buffers filled so far hold exactly the lines offered, in lock order,
      none split across two buffers. */
  lemma LinesStayWholeAndInOrder(evs: seq<Event>)
    requires Legal(INIT, evs)
    ensures HoldsWholeLines(Texts(AllBlocks(Run(INIT, evs))), Fitting(LinesOf(evs)))
  {
    InitInv();
    assert Texts(AllBlocks(INIT)) == [""];
    var none: seq<seq<Line>> := [[]];
    assert none[1..] == [] && Flatten(none) == [];
    assert Grouping([""], none, []);
    RunWholeLines(INIT, evs, []);
    assert [] + Fitting(LinesOf(evs)) == Fitting(LinesOf(evs));
  }

  /** A buffer is given up exactly when the next line would not leave it a free character: 4,000,000 in all. */
  lemma GivenUpIffFull(s: State, line: Line)
    ensures AppendStep(s, line).buffers == s.buffers + [s.current] <==> |s.current.bytes| + |line| >= 4_000_000
    ensures AppendStep(s, line).buffers == s.buffers || AppendStep(s, line).buffers == s.buffers + [s.current]
  {
    assert |s.buffers + [s.current]| > |s.buffers|;
  }

  // ----- what reaches the file -----

  /** The buffers that are ever written, out of those handed over. */
  function Shipped(handed: seq<seq<Block>>): seq<Block> {
    if handed == [] then [] else Kept(handed[0]) + Shipped(handed[1..])
  }

  /** What the consumer still has to write. */
  function InFlight(s: State): seq<Block> {
    if s.phase.Swapped? then Kept(s.batch)
    else if s.phase.Writing? && s.phase.done <= |s.batch| then s.batch[s.phase.done..]
    else []
  }

  function Text(bs: seq<Block>): string {
    Flatten(Texts(bs))
  }

  lemma TextConcat(a: seq<Block>, b: seq<Block>)
    ensures Text(a + b) == Text(a) + Text(b)
  {
    FlattenConcat(Texts(a), Texts(b));
    assert Texts(a + b) == Texts(a) + Texts(b);
  }

  lemma {:induction false} ShippedSnoc(handed: seq<seq<Block>>, b: seq<Block>)
    ensures Shipped(handed + [b]) == Shipped(handed) + Kept(b)
  {
    if handed == [] {
      assert (handed + [b])[1..] == [];
    } else {
      ShippedSnoc(handed[1..], b);
      assert (handed + [b])[1..] == handed[1..] + [b];
    }
  }

  predicate FileInv(s: State) {
    if s.cut then |s.file + Text(InFlight(s))| < |Text(Shipped(s.handed))|
    else s.file + Text(InFlight(s)) == Text(Shipped(s.handed))
  }

  lemma SwapFile(s: State)
    requires Inv(s) && FileInv(s) && (s.phase.Locking? || s.phase.Waiting?)
    ensures FileInv(SwapStep(s))
  {
    var out := s.buffers + [s.current];
    ShippedSnoc(s.handed, out);
    TextConcat(Shipped(s.handed), Kept(out));
    assert Text([]) == "" && s.file + "" == s.file;
    var t := SwapStep(s);
    assert t.file == s.file && t.cut == s.cut && t.handed == s.handed + [out] && InFlight(t) == Kept(out);
  }

  lemma WriteFile(s: State, n: nat)
    requires Enabled(s, Write(n)) && FileInv(s)
    ensures FileInv(WriteStep(s, n))
  {
    var i := s.phase.done;
    TextConcat([s.batch[i]], s.batch[i + 1..]);
    assert s.batch[i..] == [s.batch[i]] + s.batch[i + 1..];
    OneText(s.batch[i]);
    Associative(s.file, s.batch[i].bytes, Text(s.batch[i + 1..]));
  }

  lemma OneText(b: Block)
    ensures Text([b]) == b.bytes
  {
    assert Texts([b]) == [b.bytes];
    FlattenOne(b.bytes);
  }

  /** A step that leaves the file, the batches and what is in flight alone. */
  lemma FileUntouched(s: State, t: State)
    requires FileInv(s) && t.file == s.file && t.cut == s.cut && t.handed == s.handed && InFlight(t) == InFlight(s)
    ensures FileInv(t)
  {
  }

  lemma StepFile(s: State, e: Event)
    requires Enabled(s, e) && Inv(s) && FileInv(s)
    ensures FileInv(Next(s, e))
  {
    if e.Write? {
      WriteFile(s, e.taken);
    } else if e.Wake? || (e.Lock? && s.buffers != []) {
      SwapFile(s);
    } else {
      assert InFlight(Next(s, e)) == InFlight(s) by { QuietInFlight(s, e); }
      FileUntouched(s, Next(s, e));
    }
  }

  lemma AppendedInFlight(s: State, line: Line)
    ensures InFlight(AppendStep(s, line)) == InFlight(s)
  {
    assert AppendStep(s, line).phase == s.phase && AppendStep(s, line).batch == s.batch;
  }

  lemma RecycledInFlight(s: State)
    requires Enabled(s, Recycle) && InBatch(s)
    ensures InFlight(RecycleStep(s)) == InFlight(s)
  {
    assert s.batch[s.phase.done..] == [];
  }

  lemma QuietInFlight(s: State, e: Event)
    requires Enabled(s, e) && Spares(s) && InBatch(s)
    requires !e.Write? && !e.Wake? && !(e.Lock? && s.buffers != [])
    ensures InFlight(Next(s, e)) == InFlight(s)
  {
    if e.Append? {
      AppendedInFlight(s, e.line);
    } else if e.Trim? {
      assert Kept(s.batch)[0..] == Kept(s.batch);
    } else if e.Recycle? {
      RecycledInFlight(s);
    }
  }

  lemma {:induction false} RunFile(s: State, evs: seq<Event>)
    requires Inv(s) && FileInv(s) && Legal(s, evs)
    ensures FileInv(Run(s, evs))
    decreases evs
  {
    if evs != [] {
      StepInv(s, evs[0]);
      StepFile(s, evs[0]);
      RunFile(Next(s, evs[0]), evs[1..]);
    }
  }

  /** The file, with what is in flight, is exactly the buffers handed over less the third and later
      buffers of every batch of more than 25, if and only if no write gave up. */
  lemma FileHoldsKeptBuffers(evs: seq<Event>)
    requires Legal(INIT, evs)
    ensures var s := Run(INIT, evs); s.file + Text(InFlight(s)) == Text(Shipped(s.handed)) <==> !s.cut
    ensures var s := Run(INIT, evs); s.cut ==> |s.file + Text(InFlight(s))| < |Text(Shipped(s.handed))|
  {
    InitInv();
    RunFile(INIT, evs);
  }

  /** What each write of a buffer delivered, in the order of the writes. */
  function TakesOf(evs: seq<Event>): seq<nat> {
    if evs == [] then [] else TakeOf(evs[0]) + TakesOf(evs[1..])
  }

  function TakeOf(e: Event): seq<nat> {
    if e.Write? then [e.taken] else []
  }

  predicate Takes(bs: seq<Block>, takes: seq<nat>) {
    |takes| <= |bs| && forall i :: 0 <= i < |takes| ==> takes[i] <= |bs[i].bytes|
  }

  /** The first buffers one after the other, each cut to what its write took. */
  function CutText(bs: seq<Block>, takes: seq<nat>): string
    requires Takes(bs, takes)
    decreases |takes|
  {
    if takes == [] then ""
    else
      var k := |takes| - 1;
      CutText(bs, takes[..k]) + bs[k].bytes[..takes[k]]
  }

  predicate AllWhole(bs: seq<Block>, takes: seq<nat>)
    requires Takes(bs, takes)
  {
    forall i :: 0 <= i < |takes| ==> takes[i] == |bs[i].bytes|
  }

  /** The file is what the writes took of the shipped buffers, and the rest of those is in flight. */
  predicate WrittenInv(s: State, takes: seq<nat>) {
    var shipped := Shipped(s.handed);
    && Takes(shipped, takes)
    && s.file == CutText(shipped, takes)
    && InFlight(s) == shipped[|takes|..]
    && (s.cut <==> !AllWhole(shipped, takes))
  }

  lemma {:induction false} MoreShipped(bs: seq<Block>, more: seq<Block>, takes: seq<nat>)
    requires Takes(bs, takes)
    ensures Takes(bs + more, takes) && CutText(bs + more, takes) == CutText(bs, takes)
    decreases |takes|
  {
    if takes != [] { MoreShipped(bs, more, takes[..|takes| - 1]); }
  }

  lemma SwapWritten(s: State, takes: seq<nat>)
    requires Spares(s) && WrittenInv(s, takes) && (s.phase.Locking? || s.phase.Waiting?)
    ensures WrittenInv(SwapStep(s), takes)
  {
    var out, shipped := s.buffers + [s.current], Shipped(s.handed);
    ShippedSnoc(s.handed, out);
    MoreShipped(shipped, Kept(out), takes);
    assert shipped[|takes|..] == [] && |takes| == |shipped|;
    assert (shipped + Kept(out))[|takes|..] == Kept(out);
    assert forall i :: 0 <= i < |takes| ==> (shipped + Kept(out))[i] == shipped[i];
  }

  lemma WriteInFlight(s: State, n: nat)
    requires Enabled(s, Write(n))
    ensures InFlight(s) != [] && InFlight(s)[0] == s.batch[s.phase.done]
    ensures InFlight(WriteStep(s, n)) == InFlight(s)[1..]
  {
  }

  lemma OneMoreTaken(bs: seq<Block>, takes: seq<nat>, n: nat)
    requires Takes(bs, takes) && |takes| < |bs| && n <= |bs[|takes|].bytes|
    ensures var more := takes + [n];
            && Takes(bs, more)
            && CutText(bs, more) == CutText(bs, takes) + bs[|takes|].bytes[..n]
            && (AllWhole(bs, more) <==> AllWhole(bs, takes) && n == |bs[|takes|].bytes|)
  {
    var more := takes + [n];
    assert more[..|takes|] == takes && more[|takes|] == n;
    assert forall i :: 0 <= i < |takes| ==> more[i] == takes[i];
  }

  lemma WriteWritten(s: State, n: nat, takes: seq<nat>)
    requires Enabled(s, Write(n)) && WrittenInv(s, takes)
    ensures WrittenInv(WriteStep(s, n), takes + [n])
  {
    var shipped := Shipped(s.handed);
    WriteInFlight(s, n);
    assert shipped[|takes|..][0] == shipped[|takes|];
    OneMoreTaken(shipped, takes, n);
    assert shipped[|takes|..][1..] == shipped[|takes| + 1..];
  }

  lemma StepWritten(s: State, e: Event, takes: seq<nat>)
    requires Enabled(s, e) && Inv(s) && WrittenInv(s, takes)
    ensures WrittenInv(Next(s, e), takes + TakeOf(e))
  {
    assert takes + [] == takes;
    if e.Write? {
      WriteWritten(s, e.taken, takes);
    } else if e.Wake? || (e.Lock? && s.buffers != []) {
      SwapWritten(s, takes);
    } else {
      QuietInFlight(s, e);
      QuietFile(s, e);
    }
  }

  lemma QuietFile(s: State, e: Event)
    requires Enabled(s, e) && !e.Write? && !e.Wake? && !(e.Lock? && s.buffers != [])
    ensures Next(s, e).file == s.file && Next(s, e).cut == s.cut && Next(s, e).handed == s.handed
  {
  }

  lemma {:induction false} RunWritten(s: State, evs: seq<Event>, takes: seq<nat>)
    requires Inv(s) && WrittenInv(s, takes) && Legal(s, evs)
    ensures WrittenInv(Run(s, evs), takes + TakesOf(evs))
    decreases evs
  {
    if evs == [] {
      assert takes + TakesOf(evs) == takes;
    } else {
      StepInv(s, evs[0]);
      StepWritten(s, evs[0], takes);
      RunWritten(Next(s, evs[0]), evs[1..], takes + TakeOf(evs[0]));
      Associative(takes, TakeOf(evs[0]), TakesOf(evs[1..]));
    }
  }

  /** The file is exactly the shipped buffers in order, each cut to the prefix its write took, the rest of them
      is in flight, and `cut` says whether a prefix was ever less than its buffer. */
  lemma FileIsCutBuffers(evs: seq<Event>)
    requires Legal(INIT, evs)
    ensures var s, takes := Run(INIT, evs), TakesOf(evs);
            var shipped := Shipped(s.handed);
            && Takes(shipped, takes)
            && s.file == CutText(shipped, takes)
            && InFlight(s) == shipped[|takes|..]
            && (!s.cut <==> AllWhole(shipped, takes))
  {
    InitInv();
    InitWritten();
    WrittenFrom(INIT, evs);
  }

  lemma WrittenFrom(s: State, evs: seq<Event>)
    requires Inv(s) && WrittenInv(s, []) && Legal(s, evs)
    ensures WrittenInv(Run(s, evs), TakesOf(evs))
  {
    RunWritten(s, evs, []);
    assert [] + TakesOf(evs) == TakesOf(evs);
  }

  lemma InitWritten()
    ensures WrittenInv(INIT, [])
  {
    assert Shipped(INIT.handed) == [] && InFlight(INIT) == [] && CutText([], []) == "";
  }

  // ----- exactly when nothing is lost -----

  predicate NoOversizedBatch(handed: seq<seq<Block>>) {
    forall i :: 0 <= i < |handed| ==> |handed[i]| <= 25
  }

  predicate AllShort(evs: seq<Event>) {
    forall i :: 0 <= i < |evs| && evs[i].Append? ==> |evs[i].line| < LARGE_BUFFER
  }

  /** Every buffer a producer pushed has something in it; only the last of a batch may be empty. */
  predicate FilledBatch(b: seq<Block>) {
    forall i :: 0 <= i < |b| - 1 ==> b[i].bytes != ""
  }

  predicate Filled(s: State) {
    && (forall i :: 0 <= i < |s.buffers| ==> s.buffers[i].bytes != "")
    && (forall i :: 0 <= i < |s.handed| ==> FilledBatch(s.handed[i]))
  }

  lemma StepFilled(s: State, e: Event)
    requires Enabled(s, e) && Spares(s) && Filled(s) && (e.Append? ==> |e.line| < LARGE_BUFFER)
    ensures Filled(Next(s, e))
  {
    match e
    case Append(line) => AppendFilled(s, line);
    case Lock => if s.buffers != [] { SwapFilled(s); }
    case Wake => SwapFilled(s);
    case _ =>
  }

  lemma AppendFilled(s: State, line: Line)
    requires Filled(s) && |line| < LARGE_BUFFER
    ensures Filled(AppendStep(s, line))
  {
  }

  lemma SwapFilled(s: State)
    requires Filled(s) && s.batch == []
    ensures Filled(SwapStep(s))
  {
    assert FilledBatch(s.buffers + [s.current]);
  }

  lemma {:induction false} RunFilled(s: State, evs: seq<Event>)
    requires Inv(s) && Filled(s) && Legal(s, evs) && AllShort(evs)
    ensures Filled(Run(s, evs))
    decreases evs
  {
    if evs != [] {
      StepInv(s, evs[0]);
      StepFilled(s, evs[0]);
      RunFilled(Next(s, evs[0]), evs[1..]);
    }
  }

  lemma {:induction false} ShippedLength(handed: seq<seq<Block>>)
    requires forall i :: 0 <= i < |handed| ==> FilledBatch(handed[i])
    ensures |Text(Shipped(handed))| <= |Text(Flatten(handed))|
    ensures NoOversizedBatch(handed) ==> Shipped(handed) == Flatten(handed)
    ensures !NoOversizedBatch(handed) ==> |Text(Shipped(handed))| < |Text(Flatten(handed))|
  {
    if handed != [] {
      var b, rest := handed[0], handed[1..];
      ShippedLength(rest);
      TextConcat(Kept(b), Shipped(rest));
      TextConcat(b, Flatten(rest));
      if |b| > MAX_BATCH {
        TextConcat(b[..KEPT], b[KEPT..]);
        assert b[..KEPT] + b[KEPT..] == b;
        assert Texts(b[KEPT..])[0] == b[KEPT].bytes;
        assert |Text(b[KEPT..])| >= |b[KEPT].bytes| > 0;
        assert |handed[0]| > MAX_BATCH;
      } else if NoOversizedBatch(rest) {
        forall i | 0 <= i < |handed| ensures |handed[i]| <= MAX_BATCH {
          if i > 0 { assert handed[i] == rest[i - 1]; }
        }
      } else {
        var j :| 0 <= j < |rest| && |rest[j]| > MAX_BATCH;
        assert handed[j + 1] == rest[j];
      }
    }
  }

  /** File, in-flight batch, pushed buffers and current buffer, end to end. */
  function Pipeline(s: State): string {
    s.file + Text(InFlight(s)) + Text(s.buffers) + s.current.bytes
  }

  lemma {:induction false} GroupedText(texts: seq<string>, groups: seq<seq<Line>>, lines: seq<Line>)
    requires Grouping(texts, groups, lines)
    ensures Flatten(texts) == Flatten(lines)
  {
    if texts != [] {
      assert texts[0] == Flatten(groups[0]);
      forall i | 0 <= i < |texts| - 1
        ensures texts[1..][i] == Flatten(groups[1..][i])
      {
        assert texts[i + 1] == Flatten(groups[i + 1]);
      }
      GroupedText(texts[1..], groups[1..], Flatten(groups[1..]));
      FlattenConcat(groups[0], Flatten(groups[1..]));
    }
  }

  lemma {:induction false} ShortLinesFit(evs: seq<Event>)
    requires AllShort(evs)
    ensures Fitting(LinesOf(evs)) == LinesOf(evs)
  {
    if evs != [] {
      ShortLinesFit(evs[1..]);
      var head := if evs[0].Append? then [evs[0].line] else [];
      FittingConcat(head, LinesOf(evs[1..]));
    }
  }

  lemma LogIsAllBlocks(evs: seq<Event>)
    requires Legal(INIT, evs) && AllShort(evs)
    ensures var s := Run(INIT, evs);
            Flatten(LinesOf(evs)) == Text(Flatten(s.handed)) + Text(s.buffers) + s.current.bytes
  {
    var s := Run(INIT, evs);
    LinesStayWholeAndInOrder(evs);
    ShortLinesFit(evs);
    var groups: seq<seq<Line>> :| Grouping(Texts(AllBlocks(s)), groups, LinesOf(evs));
    GroupedText(Texts(AllBlocks(s)), groups, LinesOf(evs));
    AllBlocksText(s);
  }

  lemma FileAgainstHanded(evs: seq<Event>)
    requires Legal(INIT, evs) && AllShort(evs)
    ensures var s := Run(INIT, evs);
            var kept, handed := s.file + Text(InFlight(s)), Text(Flatten(s.handed));
            && |kept| <= |handed| && (kept == handed <==> NoOversizedBatch(s.handed) && !s.cut)
            && (kept == handed || |kept| < |handed|)
  {
    InitInv();
    FileHoldsKeptBuffers(evs);
    RunFilled(INIT, evs);
    ShippedLength(Run(INIT, evs).handed);
  }

  /** For lines shorter than a buffer: every byte logged is in the file, in flight or still queued, in
      lock order, if and only if no batch of more than 25 buffers was ever handed over and no write gave up. */
  lemma NothingLostExactlyWithoutOversizedBatch(evs: seq<Event>)
    requires Legal(INIT, evs) && AllShort(evs)
    ensures var s := Run(INIT, evs);
            Pipeline(s) == Flatten(LinesOf(evs)) <==> NoOversizedBatch(s.handed) && !s.cut
    ensures |Pipeline(Run(INIT, evs))| < |Flatten(LinesOf(evs))| || Pipeline(Run(INIT, evs)) == Flatten(LinesOf(evs))
  {
    var s := Run(INIT, evs);
    LogIsAllBlocks(evs);
    FileAgainstHanded(evs);
    Lengths(s.file + Text(InFlight(s)), Text(Flatten(s.handed)), Text(s.buffers), s.current.bytes);
  }

  lemma Lengths(a: string, b: string, c: string, d: string)
    requires |a| <= |b|
    ensures |a + c + d| < |b + c + d| <==> |a| < |b|
    ensures a + c + d == b + c + d <==> a == b
  {
    if a + c + d == b + c + d {
      assert a == (a + c + d)[..|a|];
    }
  }

  lemma AllBlocksText(s: State)
    ensures Text(AllBlocks(s)) == Text(Flatten(s.handed)) + Text(s.buffers) + s.current.bytes
  {
    TextConcat(Flatten(s.handed) + s.buffers, [s.current]);
    TextConcat(Flatten(s.handed), s.buffers);
    OneText(s.current);
  }

  /** The step takes the current buffer, with those queued, over to the consumer. */
  predicate Swaps(s: State, e: Event) {
    e.Wake? || (e.Lock? && s.buffers != [])
  }

  /** The lines appended since the last swap, `sofar` being those before `evs`. */
  function Unswapped(s: State, evs: seq<Event>, sofar: seq<Line>): seq<Line>
    requires Legal(s, evs)
    decreases evs
  {
    if evs == [] then sofar
    else Unswapped(Next(s, evs[0]), evs[1..], if Swaps(s, evs[0]) then [] else sofar + LineOf(evs[0]))
  }

  /** What the producers' side holds. */
  function Queued(s: State): string {
    Text(s.buffers) + s.current.bytes
  }

  lemma AppendQueued(s: State, line: Line)
    requires Spares(s) && |line| < LARGE_BUFFER
    ensures Queued(AppendStep(s, line)) == Queued(s) + line
  {
    if LARGE_BUFFER - |s.current.bytes| > |line| {
      Associative(Text(s.buffers), s.current.bytes, line);
    } else {
      TextConcat(s.buffers, [s.current]);
      OneText(s.current);
      assert AppendStep(s, line).buffers == s.buffers + [s.current];
      assert AppendStep(s, line).current.bytes == line by { assert "" + line == line; }
    }
  }

  lemma StepQueued(s: State, e: Event, sofar: seq<Line>)
    requires Enabled(s, e) && Spares(s) && Queued(s) == Flatten(sofar)
    requires e.Append? ==> |e.line| < LARGE_BUFFER
    ensures Queued(Next(s, e)) == Flatten(if Swaps(s, e) then [] else sofar + LineOf(e))
  {
    if e.Append? {
      AppendQueued(s, e.line);
      FlattenSnoc(sofar, e.line);
    } else {
      assert sofar + [] == sofar;
      assert Text([]) == "";
    }
  }

  lemma {:induction false} RunQueued(s: State, evs: seq<Event>, sofar: seq<Line>)
    requires Inv(s) && Legal(s, evs) && AllShort(evs) && Queued(s) == Flatten(sofar)
    ensures Queued(Run(s, evs)) == Flatten(Unswapped(s, evs, sofar))
    decreases evs
  {
    if evs != [] {
      StepInv(s, evs[0]);
      StepQueued(s, evs[0], sofar);
      RunQueued(Next(s, evs[0]), evs[1..], if Swaps(s, evs[0]) then [] else sofar + LineOf(evs[0]));
    }
  }

  predicate AllEmpty(lines: seq<Line>) {
    forall i :: 0 <= i < |lines| ==> lines[i] == ""
  }

  lemma {:induction false} EmptyText(lines: seq<Line>)
    ensures Flatten(lines) == "" <==> AllEmpty(lines)
  {
    if lines != [] {
      EmptyText(lines[1..]);
      assert lines == [lines[0]] + lines[1..];
      assert AllEmpty(lines) <==> lines[0] == "" && AllEmpty(lines[1..]);
    }
  }

  /** `stop` does not drain: when the consumer has left its loop, the file has everything logged if and only
      if nothing but empty lines was appended since the last swap, no oversized batch was handed over, and no
      write gave up. */
  lemma StopKeepsExactlyTheSwapped(evs: seq<Event>)
    requires Legal(INIT, evs) && AllShort(evs) && Run(INIT, evs).phase.Stopped?
    ensures var s := Run(INIT, evs);
            s.file == Flatten(LinesOf(evs))
            <==> AllEmpty(Unswapped(INIT, evs, [])) && NoOversizedBatch(s.handed) && !s.cut
  {
    var s := Run(INIT, evs);
    InitInv();
    NothingLostExactlyWithoutOversizedBatch(evs);
    assert Text([]) == "" && Queued(INIT) == Flatten([]);
    RunQueued(INIT, evs, []);
    EmptyText(Unswapped(INIT, evs, []));
    StoppedPipeline(s);
    DrainedExactly(s.file, Queued(s), Flatten(LinesOf(evs)));
  }

  lemma StoppedPipeline(s: State)
    requires s.phase.Stopped?
    ensures Pipeline(s) == s.file + Queued(s)
  {
    assert Text(InFlight(s)) == "" && s.file + "" == s.file;
    Associative(s.file, Text(s.buffers), s.current.bytes);
  }

  lemma DrainedExactly(file: string, queued: string, all: string)
    requires |file + queued| < |all| || file + queued == all
    ensures file == all <==> queued == "" && file + queued == all
  {
    if queued == "" { assert file + queued == file; }
  }

  lemma {:induction false} RunRunning(s: State, evs: seq<Event>)
    requires Legal(s, evs)
    ensures Run(s, evs).running <==> s.running && Stop !in evs
    decreases evs
  {
    if evs != [] {
      assert evs == [evs[0]] + evs[1..];
      RunRunning(Next(s, evs[0]), evs[1..]);
    }
  }

  /** The consumer leaves its loop at the next test after a `stop`, and at no other. */
  lemma LeavesIffStopped(evs: seq<Event>)
    requires Legal(INIT, evs) && Enabled(Run(INIT, evs), Check)
    ensures var t := Next(Run(INIT, evs), Check);
            if Stop in evs then t.phase.Stopped? else t.phase.Locking?
  {
    RunRunning(INIT, evs);
  }

  function Appends(line: Line, n: nat): seq<Event> {
    if n == 0 then [] else Appends(line, n - 1) + [Append(line)]
  }

  lemma {:induction false} RunConcat(s: State, a: seq<Event>, b: seq<Event>)
    requires Legal(s, a) && Legal(Run(s, a), b)
    ensures Legal(s, a + b) && Run(s, a + b) == Run(Run(s, a), b)
    decreases a
  {
    if a == [] {
      assert a + b == b;
    } else {
      assert (a + b)[1..] == a[1..] + b;
      RunConcat(Next(s, a[0]), a[1..], b);
    }
  }

  lemma {:induction false} LinesConcat(a: seq<Event>, b: seq<Event>)
    ensures LinesOf(a + b) == LinesOf(a) + LinesOf(b)
  {
    if a == [] {
      assert a + b == b;
    } else {
      assert (a + b)[0] == a[0] && (a + b)[1..] == a[1..] + b;
      LinesConcat(a[1..], b);
      Associative(LineOf(a[0]), LinesOf(a[1..]), LinesOf(b));
    }
  }

  lemma OneStep(s: State, e: Event)
    requires Enabled(s, e)
    ensures Legal(s, [e]) && Run(s, [e]) == Next(s, e) && LinesOf([e]) == LineOf(e)
  {
    assert Legal(Next(s, e), []) && Run(Next(s, e), []) == Next(s, e);
    assert LinesOf([e]) == LineOf(e) + LinesOf([e][1..]) && LinesOf([e][1..]) == [];
  }

  /** Lines that each fill a buffer leave one buffer a line. */
  lemma {:induction false} AppendsFill(line: Line, n: nat)
    requires |line| == LARGE_BUFFER - 1 && n > 0
    ensures var evs := Appends(line, n);
            && Legal(INIT, evs) && AllShort(evs) && |LinesOf(evs)| == n && (forall l :: l in LinesOf(evs) ==> l == line)
    ensures var s := Run(INIT, Appends(line, n));
            && s == INIT.(current := s.current, next := s.next, buffers := s.buffers, made := s.made)
            && s.current.bytes == line && |s.buffers| == n - 1 && (s.next.Some? ==> s.next.value.bytes == "")
            && (forall b :: b in s.buffers ==> b.bytes == line)
  {
    var before := Appends(line, n - 1);
    if n == 1 {
      assert before == [] && Legal(INIT, before) && Run(INIT, before) == INIT && LinesOf(before) == [];
    } else {
      AppendsFill(line, n - 1);
    }
    var s := Run(INIT, before);
    AppendFills(s, line);
    OneStep(s, Append(line));
    RunConcat(INIT, before, [Append(line)]);
    LinesConcat(before, [Append(line)]);
  }

  lemma AppendFills(s: State, line: Line)
    requires |line| == LARGE_BUFFER - 1 && (s.current.bytes == "" || s.current.bytes == line)
    requires s.next.Some? ==> s.next.value.bytes == ""
    ensures var t := AppendStep(s, line);
            && t.current.bytes == line && (t.next.Some? ==> t.next.value.bytes == "")
            && t.buffers == (if s.current.bytes == "" then s.buffers else s.buffers + [s.current])
            && t == s.(current := t.current, next := t.next, buffers := t.buffers, made := t.made)
  {
    assert "" + line == line;
  }

  /** Loss is reachable: 26 lines that each fill a buffer, logged before the consumer takes the lock, leave two. */
  lemma OversizedBatchIsReachable(line: Line)
    requires |line| == 3_999_999
    ensures var evs := Appends(line, 26) + [Check, Lock];
            && Legal(INIT, evs) && AllShort(evs)
            && |LinesOf(evs)| == 26 && (forall l :: l in LinesOf(evs) ==> l == line)
            && !NoOversizedBatch(Run(INIT, evs).handed) && Pipeline(Run(INIT, evs)) == line + line
  {
    var fill := Appends(line, 26);
    AppendsFill(line, 26);
    var s := Run(INIT, fill);
    HandsOver(s, line);
    RunConcat(INIT, fill, [Check, Lock]);
    LinesConcat(fill, [Check, Lock]);
    assert LinesOf([Check, Lock]) == [] by { assert [Check, Lock][1..] == [Lock] && LinesOf([Lock]) == []; }
  }

  lemma HandsOver(s: State, line: Line)
    requires s == INIT.(current := s.current, next := s.next, buffers := s.buffers, made := s.made)
    requires s.current.bytes == line && |s.buffers| == MAX_BATCH && forall b :: b in s.buffers ==> b.bytes == line
    ensures Legal(s, [Check, Lock])
    ensures var t := Run(s, [Check, Lock]);
            !NoOversizedBatch(t.handed) && Pipeline(t) == line + line
  {
    var locking := CheckStep(s);
    var t := SwapStep(locking);
    assert [Check, Lock][1..] == [Lock];
    OneStep(locking, Lock);
    assert Run(s, [Check, Lock]) == t;
    assert t.handed[0] == s.buffers + [s.current];
    assert s.buffers[0] in s.buffers && s.buffers[1] in s.buffers;
    assert InFlight(t) == [s.buffers[0]] + [s.buffers[1]];
    TextConcat([s.buffers[0]], [s.buffers[1]]);
    OneText(s.buffers[0]);
    OneText(s.buffers[1]);
    assert Text(t.buffers) == "" && t.current.bytes == "";
    assert Pipeline(t) == "" + (line + line) + "" + "";
  }

  /** A run that stops with a line still in `currentBuffer_`. */
  lemma StopCanLoseALine()
    ensures exists evs :: Legal(INIT, evs) && Run(INIT, evs).phase.Stopped?
                          && LinesOf(evs) == ["x"] && Run(INIT, evs).file == ""
  {
    var s1 := Next(INIT, Append("x"));
    var s2 := Next(s1, Stop);
    var s3 := Next(s2, Check);
    var evs := [Append("x"), Stop, Check];
    assert evs[1..] == [Stop, Check] && evs[1..][1..] == [Check] && evs[1..][1..][1..] == [];
    assert Legal(s2, [Check]) && Run(s2, [Check]) == s3;
    assert Legal(s1, [Stop, Check]) && Run(s1, [Stop, Check]) == s3;
    assert LinesOf([Check]) == [] && LinesOf([Stop, Check]) == [];
    assert LinesOf(evs) == ["x"] + LinesOf([Stop, Check]);
  }

  /** The logger itself. Each method is one atomic step of a producer or of the consumer thread, and is
      exactly that step of the state machine above; the asserts are those of the source. */
  class AsyncLogging {
    var currentBuffer: Block
    var nextBuffer: Option<Block>
    var buffers: seq<Block>
    var newBuffer1: Option<Block>
    var newBuffer2: Option<Block>
    var buffersToWrite: seq<Block>
    var phase: Phase
    var running: bool
    const output: FileUtil.AppendFile
    var made: nat
    ghost var cut: bool
    ghost var handed: seq<seq<Block>>

    ghost function View(): State
      reads this, output
    {
      State(currentBuffer, nextBuffer, buffers, newBuffer1, newBuffer2, buffersToWrite,
            phase, running, output.written, cut, made, handed, false)
    }

    constructor ()
      ensures View() == INIT && Inv(View()) && fresh(output)
    {
      output := new FileUtil.AppendFile();
      currentBuffer, nextBuffer, buffers := Block(0, ""), Some(Block(1, "")), [];
      newBuffer1, newBuffer2, buffersToWrite := Some(Block(2, "")), Some(Block(3, "")), [];
      phase, running, cut, made, handed := Top, true, false, 4, [];
    }

    method Append(line: Line)
      requires Inv(View())
      modifies this
      ensures View() == Next(old(View()), Event.Append(line)) && Inv(View())
    {
      StepInv(View(), Event.Append(line));
      if LARGE_BUFFER - |currentBuffer.bytes| > |line| {
        currentBuffer := Block(currentBuffer.id, Appended(LARGE_BUFFER, currentBuffer.bytes, line));
      } else {
        buffers := buffers + [currentBuffer];
        if nextBuffer.Some? {
          currentBuffer, nextBuffer := nextBuffer.value, None;
        } else {
          currentBuffer := Block(made, "");
          made := made + 1;
        }
        currentBuffer := Block(currentBuffer.id, Appended(LARGE_BUFFER, currentBuffer.bytes, line));
      }
    }

    method RequestStop()
      requires Inv(View())
      modifies this
      ensures View() == Next(old(View()), Stop) && Inv(View())
    {
      StepInv(View(), Stop);
      running := false;
    }

    method CheckRunning()
      requires Inv(View()) && phase.Top?
      modifies this
      ensures View() == Next(old(View()), Check) && Inv(View())
    {
      StepInv(View(), Check);
      if !running {
        phase := Stopped;
        return;
      }
      assert newBuffer1.Some? && newBuffer1.value.bytes == "";
      assert newBuffer2.Some? && newBuffer2.value.bytes == "";
      assert buffersToWrite == [];
      phase := Locking;
    }

    method EnterLock()
      requires Inv(View()) && phase.Locking?
      modifies this
      ensures View() == Next(old(View()), Lock) && Inv(View())
    {
      StepInv(View(), Lock);
      if buffers == [] {
        phase := Waiting;
      } else {
        Swap();
      }
    }

    method WakeUp()
      requires Inv(View()) && phase.Waiting?
      modifies this
      ensures View() == Next(old(View()), Wake) && Inv(View())
    {
      Swap();
    }

    method Swap()
      requires Inv(View()) && (phase.Waiting? || (phase.Locking? && buffers != []))
      modifies this
      ensures View() == SwapStep(old(View())) && Inv(View())
    {
      StepInv(View(), if phase.Waiting? then Wake else Lock);
      Exchange();
    }

    method Exchange()
      requires newBuffer1.Some?
      modifies this
      ensures View() == SwapStep(old(View()))
    {
      buffers := buffers + [currentBuffer];
      currentBuffer, newBuffer1 := newBuffer1.value, None;
      buffersToWrite, buffers := buffers, buffersToWrite;
      handed := handed + [buffersToWrite];
      if nextBuffer.None? {
        nextBuffer, newBuffer2 := newBuffer2, None;
      }
      phase := Swapped;
    }

    method TrimBatch()
      requires Inv(View()) && phase.Swapped?
      modifies this
      ensures View() == Next(old(View()), Trim) && Inv(View())
    {
      StepInv(View(), Trim);
      assert buffersToWrite != [];
      if |buffersToWrite| > MAX_BATCH {
        buffersToWrite := buffersToWrite[..KEPT];
      }
      phase := Writing(0);
    }

    /** The next buffer goes to the file, through LogFile; `taken` characters of it arrive. */
    method WriteNext() returns (taken: nat)
      requires Inv(View()) && phase.Writing? && phase.done < |buffersToWrite|
      modifies this, output
      ensures Enabled(old(View()), Write(taken))
      ensures View() == Next(old(View()), Write(taken)) && Inv(View())
    {
      var gaveUp: bool;
      ghost var these;
      taken, gaveUp, these := output.Append(buffersToWrite[phase.done].bytes);
      StepInv(old(View()), Write(taken));
      cut := cut || gaveUp;
      phase := Writing(phase.done + 1);
    }

    method RecycleBuffers()
      requires Inv(View()) && phase.Writing? && phase.done == |buffersToWrite|
      modifies this
      ensures View() == Next(old(View()), Recycle) && Inv(View())
    {
      StepInv(View(), Recycle);
      RefillSpares();
    }

    method RefillSpares()
      requires newBuffer1.None? && buffersToWrite != [] && (newBuffer2.None? ==> |buffersToWrite| >= 2)
      modifies this
      ensures View() == RecycleStep(old(View()))
    {
      if |buffersToWrite| > KEPT {
        buffersToWrite := buffersToWrite[..KEPT];
      }
      if newBuffer1.None? {
        assert buffersToWrite != [];
        newBuffer1 := Some(Block(buffersToWrite[|buffersToWrite| - 1].id, ""));
        buffersToWrite := buffersToWrite[..|buffersToWrite| - 1];
      }
      if newBuffer2.None? {
        assert buffersToWrite != [];
        newBuffer2 := Some(Block(buffersToWrite[|buffersToWrite| - 1].id, ""));
        buffersToWrite := buffersToWrite[..|buffersToWrite| - 1];
      }
      buffersToWrite, phase := [], Top;
    }
  }
}
