/** Signed integers of w bytes in network byte order, two's complement (Buffer.h, the Int functions). */
module BigEndian {

  type Byte = b: int | 0 <= b < 256

  function Pow256(w: nat): (r: nat)
    ensures r > 0
  {
    if w == 0 then 1 else 256 * Pow256(w - 1)
  }

  function ToBytes(v: nat, w: nat): (s: seq<Byte>)
    ensures |s| == w
  {
    if w == 0 then [] else ToBytes(v / 256, w - 1) + [v % 256]
  }

  function FromBytes(s: seq<Byte>): nat {
    if s == [] then 0 else 256 * FromBytes(s[..|s| - 1]) + s[|s| - 1]
  }

  predicate InRange(x: int, w: nat) {
    if w == 0 then x == 0 else -128 * Pow256(w - 1) <= x < 128 * Pow256(w - 1)
  }

  /** The value as an unsigned integer of w bytes. */
  function Unsigned(x: int, w: nat): (u: nat)
    requires InRange(x, w)
    ensures u < Pow256(w)
  {
    if x < 0 then x + Pow256(w) else x
  }

  /** Network order: byte i has weight 256^(w - 1 - i). */
  predicate NetworkOrder(s: seq<Byte>, u: nat) {
    forall i :: 0 <= i < |s| ==> s[i] == (u / Pow256(|s| - 1 - i)) % 256
  }

  function Encode(x: int, w: nat): (s: seq<Byte>)
    requires InRange(x, w)
    ensures |s| == w
  {
    ToBytes(Unsigned(x, w), w)
  }

  function Decode(s: seq<Byte>): int {
    var u := FromBytes(s);
    if s != [] && u >= 128 * Pow256(|s| - 1) then u - Pow256(|s|) else u
  }

  lemma {:induction false} FromToBytes(v: nat, w: nat)
    requires v < Pow256(w)
    ensures FromBytes(ToBytes(v, w)) == v
  {
    if w > 0 {
      FromToBytes(v / 256, w - 1);
      assert ToBytes(v, w)[..w - 1] == ToBytes(v / 256, w - 1);
    }
  }

  lemma {:induction false} ToFromBytes(s: seq<Byte>)
    ensures FromBytes(s) < Pow256(|s|) && ToBytes(FromBytes(s), |s|) == s
  {
    if s != [] {
      var t, b := s[..|s| - 1], s[|s| - 1];
      ToFromBytes(t);
      var v := FromBytes(t);
      assert (256 * v + b) / 256 == v && (256 * v + b) % 256 == b;
      assert s == t + [b];
    }
  }

  lemma MulMonotone(a: int, b: int, p: int)
    requires a <= b && p > 0
    ensures a * p <= b * p
  {
    assert (b - a) * p >= 0;
  }

  /** A quotient is the one number that fits. */
  lemma QuotientIs(v: nat, d: nat, q: nat)
    requires d > 0 && q * d <= v < (q + 1) * d
    ensures v / d == q
  {
    if v / d < q { MulMonotone(v / d + 1, q, d); }
    if v / d > q { MulMonotone(q + 1, v / d, d); }
  }

  lemma DivideTwice(v: nat, p: nat)
    requires p > 0
    ensures v / (256 * p) == v / 256 / p
  {
    var u := v / 256;
    var q := u / p;
    MulMonotone(q * p, u, 256);
    assert u + 1 <= (q + 1) * p by { assert u < q * p + p; }
    MulMonotone(u + 1, (q + 1) * p, 256);
    QuotientIs(v, 256 * p, q);
  }

  lemma {:induction false} ToBytesOrder(v: nat, w: nat)
    ensures NetworkOrder(ToBytes(v, w), v)
  {
    if w > 0 {
      ToBytesOrder(v / 256, w - 1);
      forall i | 0 <= i < w
        ensures ToBytes(v, w)[i] == (v / Pow256(w - 1 - i)) % 256
      {
        if i < w - 1 {
          assert ToBytes(v, w)[i] == ToBytes(v / 256, w - 1)[i];
          DivideTwice(v, Pow256(w - 2 - i));
        }
      }
    }
  }

  /** The bytes of a value are in network order. */
  lemma EncodeOrder(x: int, w: nat)
    requires InRange(x, w)
    ensures NetworkOrder(Encode(x, w), Unsigned(x, w))
  {
    ToBytesOrder(Unsigned(x, w), w);
  }

  /** Every value of the width survives the trip through its bytes. */
  lemma DecodeEncode(x: int, w: nat)
    requires InRange(x, w)
    ensures Decode(Encode(x, w)) == x
  {
    FromToBytes(Unsigned(x, w), w);
  }

  /** Every byte string of the width is the encoding of exactly the value it decodes to. */
  lemma EncodeDecode(s: seq<Byte>)
    ensures InRange(Decode(s), |s|) && Encode(Decode(s), |s|) == s
  {
    ToFromBytes(s);
  }

  datatype Int = Int(width: nat, value: int)

  predicate AllInRange(xs: seq<Int>) {
    forall i :: 0 <= i < |xs| ==> InRange(xs[i].value, xs[i].width)
  }

  function EncodeAll(xs: seq<Int>): seq<Byte>
    requires AllInRange(xs)
  {
    if xs == [] then [] else Encode(xs[0].value, xs[0].width) + EncodeAll(xs[1..])
  }

  lemma {:induction false} EncodeAllSnoc(xs: seq<Int>, x: Int)
    requires AllInRange(xs) && InRange(x.value, x.width)
    ensures AllInRange(xs + [x]) && EncodeAll(xs + [x]) == EncodeAll(xs) + Encode(x.value, x.width)
  {
    if xs == [] {
      assert (xs + [x])[1..] == [];
    } else {
      EncodeAllSnoc(xs[1..], x);
      assert (xs + [x])[1..] == xs[1..] + [x];
    }
  }

  function Widths(xs: seq<Int>): seq<nat> {
    seq(|xs|, i requires 0 <= i < |xs| => xs[i].width)
  }

  /** Reading integers of the given widths from the front: the values and the bytes left, if enough. */
  function DecodeAll(widths: seq<nat>, s: seq<Byte>): (r: (seq<Int>, seq<Byte>))
    decreases widths
  {
    if widths == [] || |s| < widths[0] then ([], s)
    else
      var (xs, rest) := DecodeAll(widths[1..], s[widths[0]..]);
      ([Int(widths[0], Decode(s[..widths[0]]))] + xs, rest)
  }

  lemma DecodeFirst(widths: seq<nat>, head: seq<Byte>, tail: seq<Byte>)
    requires widths != [] && |head| == widths[0]
    ensures var (xs, rest) := DecodeAll(widths[1..], tail);
            DecodeAll(widths, head + tail) == ([Int(widths[0], Decode(head))] + xs, rest)
  {
    assert (head + tail)[..|head|] == head && (head + tail)[|head|..] == tail;
  }

  /** A list of integers written one after the other reads back as the same list, and what followed is intact. */
  lemma {:induction false} DecodeAllEncodeAll(xs: seq<Int>, rest: seq<Byte>)
    requires AllInRange(xs)
    ensures DecodeAll(Widths(xs), EncodeAll(xs) + rest) == (xs, rest)
    decreases xs
  {
    if xs == [] {
      assert EncodeAll(xs) + rest == rest;
    } else {
      var head, tail := Encode(xs[0].value, xs[0].width), EncodeAll(xs[1..]) + rest;
      assert EncodeAll(xs) + rest == head + tail;
      assert Widths(xs)[1..] == Widths(xs[1..]);
      DecodeEncode(xs[0].value, xs[0].width);
      DecodeAllEncodeAll(xs[1..], rest);
      DecodeFirst(Widths(xs), head, tail);
      assert xs == [xs[0]] + xs[1..];
    }
  }
}
