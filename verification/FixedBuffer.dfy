/**
 base/LogStream.h, FixedBuffer: a character array of fixed capacity with a write position.
 An append either fits whole, leaving at least one free character behind it, or is ignored.
 */
module FixedBuffers {

  /** What `contents` becomes when `data` is appended to a buffer of `capacity` characters. */
  function Appended(capacity: nat, contents: string, data: string): (r: string) {
    if capacity - |contents| > |data| then contents + data else contents
  }

  /** An append is whole exactly when contents and data together leave a free character; otherwise the
      contents stay, and one is free in any case. */
  lemma AppendedIsAllOrNothing(capacity: nat, contents: string, data: string)
    requires |contents| < capacity
    ensures var r := Appended(capacity, contents, data);
            && |r| < capacity
            && (r == contents + data <==> |contents + data| < capacity)
            && (r == contents + data || r == contents)
  {
    if data == "" { assert contents + data == contents; }
  }

  class FixedBuffer {
    const capacity: nat
    const data: array<char>
    var cur: nat

    ghost predicate Valid()
      reads this
    {
      data.Length == capacity && cur < capacity
    }

    ghost function Contents(): string
      reads this, data
      requires Valid()
    {
      data[..cur]
    }

    constructor (capacity: nat)
      requires capacity > 0
      ensures Valid() && this.capacity == capacity && fresh(data) && Contents() == ""
    {
      this.capacity := capacity;
      data := new char[capacity];
      cur := 0;
    }

    function Avail(): int
      reads this
    {
      capacity - cur
    }

    method Append(s: string)
      requires Valid()
      modifies this, data
      ensures Valid()
      ensures Contents() == Appended(capacity, old(Contents()), s)
    {
      if Avail() > |s| {
        forall i | 0 <= i < |s| {
          data[cur + i] := s[i];
        }
        cur := cur + |s|;
        assert data[..cur] == old(data[..cur]) + s;
      }
    }

    /** Claims `len` characters already written behind the contents. */
    method Add(len: nat)
      requires Valid() && cur + len < capacity
      modifies `cur
      ensures Valid() && Contents() == data[..old(cur) + len]
    {
      cur := cur + len;
    }

    method Reset()
      requires Valid()
      modifies this
      ensures Valid() && Contents() == ""
    {
      cur := 0;
    }
  }
}
