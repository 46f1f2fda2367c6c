/** base/CircularBuffer.h and CircularBufferImpl.h: a ring of N slots whose tail index is inclusive and
    which overwrites its oldest element once full. */
module Ring {

  /** The newest `n` elements. */
  function LastN<T>(n: nat, s: seq<T>): seq<T> {
    if |s| <= n then s else s[|s| - n..]
  }

  /** What `push_back` does to the elements of a ring of `n` slots, oldest first. */
  function Pushed<T>(n: nat, s: seq<T>, x: T): seq<T>
    requires n > 0
  {
    if |s| == n then s[1..] + [x] else s + [x]
  }

  function PushedAll<T>(n: nat, s: seq<T>, xs: seq<T>): seq<T>
    requires n > 0
    decreases xs
  {
    if xs == [] then s else PushedAll(n, Pushed(n, s, xs[0]), xs[1..])
  }

  /** Any number of pushes keeps exactly the newest `n` elements of all there ever were. */
  lemma {:induction false} PushesKeepLastN<T>(n: nat, s: seq<T>, xs: seq<T>)
    requires n > 0 && |s| <= n
    ensures PushedAll(n, s, xs) == LastN(n, s + xs)
    decreases xs
  {
    if xs == [] {
      assert s + xs == s;
    } else {
      var s' := Pushed(n, s, xs[0]);
      PushesKeepLastN(n, s', xs[1..]);
      assert s + xs == (s + [xs[0]]) + xs[1..];
      assert s' == LastN(n, s + [xs[0]]);
    }
  }

  function NextIndex(n: nat, i: int): (r: nat)
    requires n > 0 && -1 <= i < n
    ensures r == if i + 1 < n then i + 1 else 0
  {
    SmallModulo(i + 1, n);
    (i + 1) % n
  }

  lemma SmallModulo(a: nat, n: nat)
    requires 0 <= a <= n && n > 0
    ensures a % n == if a < n then a else 0
  {
    if a < n { assert a % n == a; } else { assert n % n == 0; }
  }

  function PrevIndex(n: nat, i: nat): int
    requires n > 0
  {
    if i - 1 == -1 then n - 1 else i - 1
  }

  /** On every index of the ring `--` undoes `++` and `++` undoes `--`. */
  lemma PrevUndoesNext(n: nat, i: nat)
    requires i < n
    ensures 0 <= PrevIndex(n, i) < n
    ensures PrevIndex(n, NextIndex(n, i)) == i && NextIndex(n, PrevIndex(n, i)) == i
  {
  }

  /** The index `k` steps of `++` after `i`. */
  function Advance(n: nat, i: nat, k: nat): (r: nat)
    requires n > 0 && i < n
    ensures r < n
    decreases k
  {
    if k == 0 then i else NextIndex(n, Advance(n, i, k - 1))
  }

  lemma {:induction false} AdvanceIsModular(n: nat, i: nat, k: nat)
    requires n > 0 && i < n && k <= n
    ensures Advance(n, i, k) == if i + k < n then i + k else i + k - n
    decreases k
  {
    if k > 0 {
      AdvanceIsModular(n, i, k - 1);
    }
  }

  /** The slot of the k-th oldest element. */
  function Slot(n: nat, head: nat, k: nat): (r: nat)
    requires head < n && k < n
    ensures r < n
  {
    if head + k < n then head + k else head + k - n
  }

  /** The elements of a ring, oldest first. */
  function Elements<T>(slots: seq<T>, head: nat, size: nat): (s: seq<T>)
    requires head < |slots| && size <= |slots|
    ensures |s| == size
  {
    seq(size, k requires 0 <= k < size => slots[Slot(|slots|, head, k)])
  }

  lemma OverwriteOldest<T>(slots: seq<T>, head: nat, x: T)
    requires head < |slots|
    ensures Elements(slots[head := x], NextIndex(|slots|, head), |slots|)
         == Pushed(|slots|, Elements(slots, head, |slots|), x)
  {
    var n := |slots|;
    var next := NextIndex(n, head);
    forall k | 0 <= k < n
      ensures Elements(slots[head := x], next, n)[k] == Pushed(n, Elements(slots, head, n), x)[k]
    {
      if k < n - 1 {
        assert Slot(n, next, k) == Slot(n, head, k + 1);
      } else {
        assert Slot(n, next, k) == head;
      }
    }
  }

  lemma AddNewest<T>(slots: seq<T>, head: nat, size: nat, x: T)
    requires head < |slots| && size < |slots|
    ensures Elements(slots[Slot(|slots|, head, size) := x], head, size + 1)
         == Pushed(|slots|, Elements(slots, head, size), x)
  {
    var n := |slots|;
    forall k | 0 <= k < size
      ensures Slot(n, head, k) != Slot(n, head, size)
    {
    }
  }

  /** A push into a full ring whose tail is on its head, not before it. */
  lemma OverwriteSecond<T>(slots: seq<T>, head: nat, x: T)
    requires head < |slots| && |slots| > 1
    ensures var c := Elements(slots, head, |slots|);
            Elements(slots[NextIndex(|slots|, head) := x], NextIndex(|slots|, head), |slots|)
            == [x] + c[2..] + [c[0]]
  {
    var n, c := |slots|, Elements(slots, head, |slots|);
    var next := NextIndex(n, head);
    forall k | 0 <= k < n
      ensures Elements(slots[next := x], next, n)[k] == ([x] + c[2..] + [c[0]])[k]
    {
      if 0 < k < n - 1 {
        assert Slot(n, next, k) == Slot(n, head, k + 1);
      } else if k == n - 1 {
        assert Slot(n, next, k) == head;
      }
    }
  }

  /** What a ring of `n` slots holds after a `clear` and the pushes `xs`, slot 0 having held `stale`: with
      more than one slot it runs one element late until it is full, and from then on has its newest first. */
  function AfterClear<T>(n: nat, stale: T, xs: seq<T>): seq<T>
    requires n > 0
  {
    if n == 1 then LastN(1, xs)
    else if |xs| < n then ([stale] + xs)[..|xs|]
    else [xs[|xs| - 1]] + xs[|xs| - n..|xs| - 1]
  }

  predicate AllAre<T(==)>(xs: seq<T>, x: T) {
    forall i :: 0 <= i < |xs| ==> xs[i] == x
  }

  /** That is the newest elements, as it should be, only where the order cannot be told. */
  lemma AfterClearIsRightIff<T>(n: nat, stale: T, xs: seq<T>)
    requires n > 0
    ensures AfterClear(n, stale, xs) == LastN(n, xs)
            <==> n == 1 || xs == [] || AllAre(LastN(n, xs), if |xs| < n then stale else xs[|xs| - 1])
  {
    if n > 1 && xs != [] {
      var first := if |xs| < n then stale else xs[|xs| - 1];
      AfterClearRotates(n, stale, xs);
      RotationIff(LastN(n, xs), first);
    }
  }

  lemma AfterClearRotates<T>(n: nat, stale: T, xs: seq<T>)
    requires n > 1 && xs != []
    ensures var last := LastN(n, xs);
            AfterClear(n, stale, xs) == [if |xs| < n then stale else xs[|xs| - 1]] + last[..|last| - 1]
  {
  }

  lemma RotationIff<T>(s: seq<T>, x: T)
    requires s != []
    ensures [x] + s[..|s| - 1] == s <==> AllAre(s, x)
  {
    if [x] + s[..|s| - 1] == s {
      RotationIsConstant(s, x, |s|);
      assert s[..|s|] == s;
    }
  }

  lemma {:induction false} RotationIsConstant<T>(s: seq<T>, x: T, k: nat)
    requires s != [] && [x] + s[..|s| - 1] == s && k <= |s|
    ensures AllAre(s[..k], x)
  {
    if k > 0 {
      RotationIsConstant(s, x, k - 1);
      assert s[k - 1] == ([x] + s[..|s| - 1])[k - 1];
      assert k > 1 ==> s[k - 1] == s[..k - 1][k - 2];
    }
  }

  /** A 32-bit int as it is compared with a size_t. */
  function AsSize(count: int): int {
    if count < 0 then count + 0x1_0000_0000_0000_0000 else count
  }

  /** How many slots a ring of `n` is made with, of the `count` asked for. */
  function Initial(n: nat, count: int): int {
    if n <= AsSize(count) then n else count
  }

  /** For any int that is the smaller of the two, and `n` for a negative one. */
  lemma InitialIsClamped(n: nat, count: int)
    requires n < 0x8000_0000_0000_0000 && -0x8000_0000 <= count < 0x8000_0000
    ensures 0 <= Initial(n, count) <= n
    ensures count >= 0 ==> Initial(n, count) <= count && (Initial(n, count) == n || Initial(n, count) == count)
    ensures count < 0 ==> Initial(n, count) == n
  {
  }

  class CircularBuffer<T> {
    const n: nat
    const slots: array<T>
    var head: nat
    var tail: int
    var size: nat

    ghost predicate Shaped()
      reads this
    {
      n > 0 && slots.Length == n && head < n && size <= n && -1 <= tail < n
    }

    /** `tail` is the slot of the newest element, or the slot before `head` when there is none. */
    ghost predicate Valid()
      reads this
    {
      && Shaped()
      && (size > 0 ==> tail == Slot(n, head, size - 1))
      && (size == 0 ==> NextIndex(n, tail) == head)
    }

    ghost function Contents(): (s: seq<T>)
      reads this, slots
      requires Shaped()
    {
      Elements(slots[..], head, size)
    }

    constructor (n: nat, count: int, value: T, filler: T)
      requires 0 < n < 0x8000_0000_0000_0000 && -0x8000_0000 <= count < 0x8000_0000
      ensures Valid() && this.n == n && fresh(slots)
      ensures |Contents()| == (if 0 <= count < n then count else n)
      ensures forall k :: 0 <= k < |Contents()| ==> Contents()[k] == value
    {
      var copies := Initial(n, count);
      this.n := n;
      this.slots := new T[n](i => if i < copies then value else filler);
      this.head := 0;
      this.tail := copies - 1;
      this.size := copies;
    }

    /** Slot by slot the push is the same in every state; it is a push of the elements only in a valid one. */
    method PushBack(x: T)
      requires Shaped()
      modifies this, slots
      ensures Shaped() && tail == NextIndex(n, old(tail))
      ensures slots[..] == old(slots[..])[tail := x]
      ensures head == if old(size) == n then NextIndex(n, old(head)) else old(head)
      ensures size == if old(size) == n then n else old(size) + 1
      ensures old(Valid()) ==> Valid() && Contents() == Pushed(n, old(Contents()), x)
    {
      if size == n {
        OverwriteOldest(slots[..], head, x);
      } else {
        AddNewest(slots[..], head, size, x);
      }
      tail := NextIndex(n, tail);
      slots[tail] := x;
      if size == n {
        head := NextIndex(n, head);
      } else {
        size := size + 1;
      }
    }

    method PushAll(xs: seq<T>)
      requires Valid()
      modifies this, slots
      ensures Valid() && Contents() == LastN(n, old(Contents()) + xs)
    {
      PushesKeepLastN(n, Contents(), xs);
      var i := 0;
      assert xs[0..] == xs;
      while i < |xs|
        invariant i <= |xs| && Valid()
        invariant PushedAll(n, Contents(), xs[i..]) == PushedAll(n, old(Contents()), xs)
      {
        assert xs[i..][1..] == xs[i + 1..];
        PushBack(xs[i]);
        i := i + 1;
      }
    }

    method Front() returns (x: T)
      requires Valid() && size > 0
      ensures x == Contents()[0]
    {
      x := slots[head];
    }

    method Back() returns (x: T)
      requires Valid() && size > 0
      ensures x == Contents()[size - 1]
    {
      x := slots[tail];
    }

    /** Walking from `begin` with `++` reaches the elements oldest to newest, and the inclusive `end`
        exactly with the last of them. */
    lemma IterationVisitsInOrder(k: nat)
      requires Valid() && k < size
      ensures slots[Advance(n, head, k)] == Contents()[k]
      ensures Advance(n, head, k) == tail <==> k == size - 1
    {
      AdvanceIsModular(n, head, k);
      AdvanceIsModular(n, head, size - 1);
    }

    /** Also on a ring cleared before, as the destructor does. */
    method Clear()
      requires Shaped()
      modifies this
      ensures Shaped() && size == 0 && head == 0 && tail == 0
      ensures Contents() == []
    {
      while size > 0
        invariant Shaped()
        decreases size
      {
        head := NextIndex(n, head);
        size := size - 1;
      }
      head, tail := 0, 0;
    }
  }

  /** A ring of more than one slot after a `clear` and the pushes `xs`. */
  ghost predicate RunsLate<T>(ring: CircularBuffer<T>, stale: T, xs: seq<T>)
    reads ring, ring.slots
  {
    && ring.Shaped() && ring.n > 1
    && if |xs| < ring.n then
         && ring.head == 0 && ring.size == |xs| && ring.tail == |xs|
         && ring.slots[..|xs| + 1] == [stale] + xs
       else
         ring.size == ring.n && ring.tail == ring.head && ring.Contents() == AfterClear(ring.n, stale, xs)
  }

  lemma LateFill<T>(slots: seq<T>, stale: T, xs: seq<T>, x: T)
    requires |xs| + 1 < |slots| && slots[..|xs| + 1] == [stale] + xs
    ensures slots[|xs| + 1 := x][..|xs| + 2] == [stale] + (xs + [x])
  {
    assert slots[|xs| + 1 := x][..|xs| + 2] == slots[..|xs| + 1] + [x];
  }

  lemma LateFull<T>(slots: seq<T>, stale: T, xs: seq<T>, x: T)
    requires |slots| == |xs| + 1 > 1 && slots == [stale] + xs
    ensures Elements(slots[0 := x], 0, |slots|) == AfterClear(|slots|, stale, xs + [x])
  {
    assert Elements(slots[0 := x], 0, |slots|) == [x] + xs;
  }

  lemma LateTurn<T>(n: nat, c: seq<T>, stale: T, xs: seq<T>, x: T)
    requires n > 1 && |xs| >= n && c == AfterClear(n, stale, xs)
    ensures |c| == n && [x] + c[2..] + [c[0]] == AfterClear(n, stale, xs + [x])
  {
    assert c[2..] == xs[|xs| - n + 1..|xs| - 1];
    assert xs[|xs| - n + 1..] == xs[|xs| - n + 1..|xs| - 1] + [xs[|xs| - 1]];
  }

  method PushLate<T>(ring: CircularBuffer<T>, x: T, ghost stale: T, ghost xs: seq<T>)
    requires RunsLate(ring, stale, xs)
    modifies ring, ring.slots
    ensures RunsLate(ring, stale, xs + [x])
  {
    ghost var before := ring.slots[..];
    if |xs| < ring.n - 1 {
      LateFill(before, stale, xs, x);
    } else if |xs| == ring.n - 1 {
      assert before == before[..|xs| + 1];
      LateFull(before, stale, xs, x);
    } else {
      OverwriteSecond(before, ring.head, x);
      LateTurn(ring.n, ring.Contents(), stale, xs, x);
    }
    ring.PushBack(x);
    if |xs| < ring.n - 1 { assert ring.slots[..|xs| + 2] == ring.slots[..][..|xs| + 2]; }
  }

  /** `clear` leaves the tail on slot 0 instead of before it. Any number of pushes later the ring holds: */
  method PushAllAfterClear<T>(ring: CircularBuffer<T>, xs: seq<T>)
    requires ring.Shaped()
    modifies ring, ring.slots
    ensures ring.Shaped() && ring.Contents() == AfterClear(ring.n, old(ring.slots[0]), xs)
  {
    ghost var stale := ring.slots[0];
    ring.Clear();
    if ring.n == 1 {
      ring.PushAll(xs);
      assert [] + xs == xs;
    } else {
      var i := 0;
      while i < |xs|
        invariant i <= |xs| && RunsLate(ring, stale, xs[..i])
      {
        PushLate(ring, xs[i], stale, xs[..i]);
        i := i + 1;
        assert xs[..i] == xs[..i - 1] + [xs[i - 1]];
      }
      assert xs[..i] == xs;
      LateContents(ring, stale, xs);
    }
  }

  lemma LateContents<T>(ring: CircularBuffer<T>, stale: T, xs: seq<T>)
    requires RunsLate(ring, stale, xs)
    ensures ring.Contents() == AfterClear(ring.n, stale, xs)
  {
    if |xs| < ring.n {
      assert ring.Contents() == ring.slots[..|xs|] == ring.slots[..|xs| + 1][..|xs|];
    }
  }
}
