/** base/LogStream: formatted items appended to a small fixed buffer, each whole or not at all. */
module LogStreams {
  import opened Base
  import opened FixedBuffers
  import opened DecimalText

  const SMALL_BUFFER: nat := 4000
  const MAX_NUMERIC_SIZE: nat := 32

  datatype Item =
    | Integer(value: int)          // any of the short, int, long, long long operators
    | Real(formatted: string)      // float, double, long double; what snprintf makes of the value
    | Character(c: char)
    | Boolean(b: bool)
    | Text(str: Option<string>)    // None is the null pointer

  /** Values have at most 64 bits, and "%.12g" never comes near the reserve. */
  predicate WellTyped(item: Item) {
    && (item.Integer? ==> MIN_INT64 <= item.value <= MAX_UINT64)
    && (item.Real? ==> |item.formatted| < MAX_NUMERIC_SIZE)
  }

  function Render(item: Item): string {
    match item
    case Integer(v) => Decimal(v)
    case Real(text) => text
    case Character(c) => [c]
    case Boolean(b) => if b then "1" else "0"
    case Text(None) => "(null)"
    case Text(Some(s)) => s
  }

  /** The room an item asks for: numbers ask for a fixed reserve, the rest for one spare character. */
  function Room(item: Item): nat {
    if item.Integer? || item.Real? then MAX_NUMERIC_SIZE else |Render(item)| + 1
  }

  function Emit(contents: string, item: Item): string {
    if |contents| + Room(item) <= SMALL_BUFFER then contents + Render(item) else contents
  }

  /** An item is taken exactly when it fits the 4000 characters with one to spare, a number when its 32 do. */
  lemma TakenIffItFits(contents: string, item: Item)
    requires Render(item) != ""
    ensures var asks := if item.Integer? || item.Real? then 32 else |Render(item)| + 1;
            Emit(contents, item) == contents + Render(item) <==> |contents| + asks <= 4000
    ensures Emit(contents, item) == contents + Render(item) || Emit(contents, item) == contents
  {
    assert |contents + Render(item)| > |contents|;
  }

  function EmitAll(contents: string, items: seq<Item>): string
    decreases items
  {
    if items == [] then contents else EmitAll(Emit(contents, items[0]), items[1..])
  }

  /** The rendered items that `taken` selects. */
  function Chosen(items: seq<Item>, taken: seq<bool>): seq<string>
    requires |taken| == |items|
  {
    if items == [] then []
    else (if taken[0] then [Render(items[0])] else []) + Chosen(items[1..], taken[1..])
  }

  /** `taken` marks exactly the items that find their room behind those taken before them. */
  predicate TakenWhenFits(contents: string, items: seq<Item>, taken: seq<bool>) {
    && |taken| == |items|
    && forall i :: 0 <= i < |items| ==>
         (taken[i] <==> |contents| + |Flatten(Chosen(items[..i], taken[..i]))| + Room(items[i]) <= SMALL_BUFFER)
  }

  lemma EmitStaysInside(contents: string, item: Item)
    requires |contents| < SMALL_BUFFER && WellTyped(item)
    ensures |Emit(contents, item)| < SMALL_BUFFER
  {
    if item.Integer? { DecimalLength(item.value); }
  }

  function HeadText(item: Item, taken: bool): string {
    if taken then Render(item) else ""
  }

  lemma ChosenText(items: seq<Item>, taken: seq<bool>)
    requires |taken| == |items| && items != []
    ensures Flatten(Chosen(items, taken)) == HeadText(items[0], taken[0]) + Flatten(Chosen(items[1..], taken[1..]))
  {
    var head := if taken[0] then [Render(items[0])] else [];
    FlattenConcat(head, Chosen(items[1..], taken[1..]));
    if taken[0] {
      FlattenSnoc([], Render(items[0]));
      assert [] + head == head;
    }
  }

  lemma TakenCons(contents: string, items: seq<Item>, rest: seq<bool>)
    requires items != []
    requires TakenWhenFits(Emit(contents, items[0]), items[1..], rest)
    ensures TakenWhenFits(contents, items, [|contents| + Room(items[0]) <= SMALL_BUFFER] + rest)
  {
    var taken := [|contents| + Room(items[0]) <= SMALL_BUFFER] + rest;
    forall i | 0 <= i < |items|
      ensures taken[i] <==> |contents| + |Flatten(Chosen(items[..i], taken[..i]))| + Room(items[i]) <= SMALL_BUFFER
    {
      if i > 0 {
        ChosenText(items[..i], taken[..i]);
        assert items[..i][1..] == items[1..][..i - 1] && taken[..i][1..] == rest[..i - 1];
        assert items[i] == items[1..][i - 1] && taken[i] == rest[i - 1];
      }
    }
  }

  /** Any run of operators stays inside the buffer and leaves what was there followed by exactly the items
      that fitted when their turn came, each whole and in order. */
  lemma {:induction false} RunKeepsWholeItems(contents: string, items: seq<Item>)
    requires |contents| < SMALL_BUFFER
    requires forall i :: 0 <= i < |items| ==> WellTyped(items[i])
    ensures |EmitAll(contents, items)| < SMALL_BUFFER
    ensures exists taken :: TakenWhenFits(contents, items, taken)
                            && EmitAll(contents, items) == contents + Flatten(Chosen(items, taken))
    decreases items
  {
    if items == [] {
      assert TakenWhenFits(contents, items, []);
    } else {
      var next := Emit(contents, items[0]);
      EmitStaysInside(contents, items[0]);
      RunKeepsWholeItems(next, items[1..]);
      var rest :| TakenWhenFits(next, items[1..], rest)
                  && EmitAll(next, items[1..]) == next + Flatten(Chosen(items[1..], rest));
      RunStep(contents, items, rest);
    }
  }

  lemma RunStep(contents: string, items: seq<Item>, rest: seq<bool>)
    requires items != []
    requires var next := Emit(contents, items[0]);
             TakenWhenFits(next, items[1..], rest)
             && EmitAll(next, items[1..]) == next + Flatten(Chosen(items[1..], rest))
    ensures exists taken :: TakenWhenFits(contents, items, taken)
                            && EmitAll(contents, items) == contents + Flatten(Chosen(items, taken))
  {
    var fits := |contents| + Room(items[0]) <= SMALL_BUFFER;
    var taken := [fits] + rest;
    TakenCons(contents, items, rest);
    ChosenText(items, taken);
    assert taken[1..] == rest;
    assert Emit(contents, items[0]) == contents + HeadText(items[0], fits);
    Associative(contents, HeadText(items[0], fits), Flatten(Chosen(items[1..], rest)));
  }

  /** An integer that was written can be read back from the text behind the earlier contents. */
  lemma WrittenIntegerReadsBack(contents: string, v: int)
    requires |contents| + MAX_NUMERIC_SIZE <= SMALL_BUFFER
    ensures Parse(Emit(contents, Integer(v))[|contents|..]) == v
  {
    ParseOfDecimal(v);
    assert Emit(contents, Integer(v))[|contents|..] == Decimal(v);
  }

  class LogStream {
    const buffer: FixedBuffer

    ghost predicate Valid()
      reads this, buffer
    {
      buffer.Valid() && buffer.capacity == SMALL_BUFFER
    }

    ghost function Contents(): string
      reads this, buffer, buffer.data
      requires Valid()
    {
      buffer.Contents()
    }

    constructor ()
      ensures Valid() && fresh(buffer) && fresh(buffer.data) && Contents() == ""
    {
      buffer := new FixedBuffer(SMALL_BUFFER);
    }

    method PutInteger(v: int)
      requires Valid() && MIN_INT64 <= v <= MAX_UINT64
      modifies buffer, buffer.data
      ensures Valid() && Contents() == Emit(old(Contents()), Integer(v))
      ensures Contents() == old(Contents()) + if |old(Contents())| + 32 <= 4000 then Decimal(v) else ""
    {
      if buffer.Avail() >= MAX_NUMERIC_SIZE {
        var len := Convert(buffer.data, buffer.cur, v);
        ghost var was := old(buffer.data[..buffer.cur]);
        assert buffer.data[..buffer.cur] == was;
        assert buffer.data[..buffer.cur + len] == was + buffer.data[buffer.cur..buffer.cur + len];
        buffer.Add(len);
      }
    }

    /** snprintf: the text and a NUL, from the write position on. */
    method Snprintf(text: string)
      requires Valid() && buffer.cur + |text| < SMALL_BUFFER
      modifies buffer.data
      ensures buffer.data[..buffer.cur + |text|] == old(buffer.data[..buffer.cur]) + text
    {
      forall i | 0 <= i < |text| {
        buffer.data[buffer.cur + i] := text[i];
      }
      buffer.data[buffer.cur + |text|] := '\0';
    }

    /** A floating-point operator; `text` is the "%.12g" form of its value. */
    method PutReal(text: string)
      requires Valid() && WellTyped(Real(text))
      modifies buffer, buffer.data
      ensures Valid() && Contents() == Emit(old(Contents()), Real(text))
      ensures Contents() == old(Contents()) + if |old(Contents())| + 32 <= 4000 then text else ""
    {
      if buffer.Avail() >= MAX_NUMERIC_SIZE {
        Snprintf(text);
        buffer.Add(|text|);
      }
    }

    method PutText(s: Option<string>)
      requires Valid()
      modifies buffer, buffer.data
      ensures Valid() && Contents() == Emit(old(Contents()), Text(s))
      ensures s.None? && |old(Contents())| < 3994 ==> Contents() == old(Contents()) + "(null)"
      ensures s.Some? && |old(Contents())| + |s.value| < 4000 ==> Contents() == old(Contents()) + s.value
    {
      if s.Some? {
        buffer.Append(s.value);
      } else {
        buffer.Append("(null)");
      }
    }

    method PutCharacter(c: char)
      requires Valid()
      modifies buffer, buffer.data
      ensures Valid() && Contents() == Emit(old(Contents()), Character(c))
      ensures Contents() == old(Contents()) + if |old(Contents())| < 3999 then [c] else ""
    {
      buffer.Append([c]);
    }

    method PutBoolean(b: bool)
      requires Valid()
      modifies buffer, buffer.data
      ensures Valid() && Contents() == Emit(old(Contents()), Boolean(b))
      ensures Contents() == old(Contents()) + if |old(Contents())| < 3999 then (if b then "1" else "0") else ""
    {
      buffer.Append(if b then "1" else "0");
    }

    method ResetBuffer()
      requires Valid()
      modifies buffer
      ensures Valid() && Contents() == ""
    {
      buffer.Reset();
    }

    /** A chain of `<<`. */
    method PutAll(items: seq<Item>)
      requires Valid()
      requires forall i :: 0 <= i < |items| ==> WellTyped(items[i])
      modifies buffer, buffer.data
      ensures Valid() && Contents() == EmitAll(old(Contents()), items)
    {
      var i := 0;
      assert items[0..] == items;
      while i < |items|
        invariant i <= |items| && Valid()
        invariant EmitAll(Contents(), items[i..]) == EmitAll(old(Contents()), items)
      {
        match items[i] {
          case Integer(v) => PutInteger(v);
          case Real(text) => PutReal(text);
          case Character(c) => PutCharacter(c);
          case Boolean(b) => PutBoolean(b);
          case Text(s) => PutText(s);
        }
        assert items[i..][1..] == items[i + 1..];
        i := i + 1;
      }
    }
  }
}
