/** base/LogStream.cpp, convert: integers to decimal digits, in place. */
module DecimalText {

  const DIGITS := "9876543210123456789"
  const ZERO := 9

  const MIN_INT64: int := -0x8000_0000_0000_0000
  const MAX_UINT64: int := 0xffff_ffff_ffff_ffff

  const MAX_DIGITS := 20

  // Division and remainder of C++, which truncate toward zero.

  function TruncDiv(a: int, b: int): int
    requires b > 0
  {
    if a >= 0 then a / b else -((-a) / b)
  }

  function TruncMod(a: int, b: int): int
    requires b > 0
  {
    a - b * TruncDiv(a, b)
  }

  // ----- what the digits mean -----

  predicate IsDigit(c: char) {
    '0' <= c <= '9'
  }

  function Digit(d: int): char
    requires 0 <= d < 10
  {
    ('0' as int + d) as char
  }

  function Natural(n: nat): string {
    if n < 10 then [Digit(n)] else Natural(n / 10) + [Digit(n % 10)]
  }

  function Decimal(v: int): string {
    if v < 0 then "-" + Natural(-v) else Natural(v)
  }

  function ParseNatural(s: string): int {
    if s == "" then 0
    else 10 * ParseNatural(s[..|s| - 1]) + (s[|s| - 1] as int - '0' as int)
  }

  function Parse(s: string): int {
    if s != "" && s[0] == '-' then -ParseNatural(s[1..]) else ParseNatural(s)
  }

  /** Digits only, at least one, no leading zero. */
  predicate CanonicalNatural(s: string) {
    s != "" && (forall i :: 0 <= i < |s| ==> IsDigit(s[i])) && (s[0] == '0' ==> |s| == 1)
  }

  /** A canonical numeral, with a minus sign only before a non-zero one. */
  predicate Canonical(s: string) {
    CanonicalNatural(s) || (s != "" && s[0] == '-' && CanonicalNatural(s[1..]) && s[1..] != "0")
  }

  lemma {:induction false} NaturalIsCanonical(n: nat)
    ensures CanonicalNatural(Natural(n)) && ParseNatural(Natural(n)) == n
    ensures Natural(n)[0] == '0' ==> n == 0
  {
    if n >= 10 {
      NaturalIsCanonical(n / 10);
      var s := Natural(n);
      assert s[..|s| - 1] == Natural(n / 10);
      assert s[0] == Natural(n / 10)[0];
    } else {
      assert Natural(n)[..0] == "";
    }
  }

  lemma {:induction false} CanonicalIsNatural(s: string)
    requires CanonicalNatural(s)
    ensures ParseNatural(s) >= 0 && Natural(ParseNatural(s)) == s
    ensures ParseNatural(s) == 0 ==> s == "0"
  {
    var t, d := s[..|s| - 1], s[|s| - 1] as int - '0' as int;
    if t == "" {
      assert s == [s[0]];
    } else {
      CanonicalIsNatural(t);
      assert t[0] == s[0];
      var n := ParseNatural(t);
      assert n > 0;
      assert (10 * n + d) / 10 == n && (10 * n + d) % 10 == d;
      assert s == t + [s[|s| - 1]];
    }
  }

  /** The text of a value is canonical and reads back as that value. */
  lemma ParseOfDecimal(v: int)
    ensures Canonical(Decimal(v)) && Parse(Decimal(v)) == v
  {
    NaturalIsCanonical(if v < 0 then -v else v);
    if v < 0 {
      assert Decimal(v)[1..] == Natural(-v);
    }
  }

  /** Every canonical numeral is the text of the value it reads as: there is no second spelling. */
  lemma DecimalOfParse(s: string)
    requires Canonical(s)
    ensures Decimal(Parse(s)) == s
  {
    if s[0] == '-' {
      CanonicalIsNatural(s[1..]);
      assert s == "-" + s[1..];
    } else {
      CanonicalIsNatural(s);
    }
  }

  function Pow10(k: nat): nat {
    if k == 0 then 1 else 10 * Pow10(k - 1)
  }

  lemma {:induction false} NaturalLength(n: nat, k: nat)
    requires k > 0 && n < Pow10(k)
    ensures |Natural(n)| <= k
  {
    if n >= 10 {
      assert k > 1;
      NaturalLength(n / 10, k - 1);
    }
  }

  lemma Pow10Values()
    ensures Pow10(19) == 10_000_000_000_000_000_000
    ensures Pow10(20) == 100_000_000_000_000_000_000
  {
    assert Pow10(5) == 100_000;
    assert Pow10(10) == 10_000_000_000;
    assert Pow10(15) == 1_000_000_000_000_000;
  }

  /** Any signed or unsigned 64-bit value takes at most 20 characters. */
  lemma DecimalLength(v: int)
    requires MIN_INT64 <= v <= MAX_UINT64
    ensures 0 < |Decimal(v)| <= MAX_DIGITS
  {
    Pow10Values();
    if v < 0 { NaturalLength(-v, 19); } else { NaturalLength(v, 20); }
  }

  // ----- the in-place algorithm -----

  function Reversed<T>(s: seq<T>): (r: seq<T>) {
    seq(|s|, i requires 0 <= i < |s| => s[|s| - 1 - i])
  }

  method ReverseRange(a: array<char>, lo: nat, hi: nat)
    requires lo <= hi <= a.Length
    modifies a
    ensures a[lo..hi] == Reversed(old(a[lo..hi]))
    ensures forall k :: 0 <= k < a.Length && !(lo <= k < hi) ==> a[k] == old(a[k])
  {
    var i, j := lo, hi;
    while i < j
      invariant lo <= i <= hi && lo <= j <= hi && i - lo == hi - j
      invariant forall k :: lo <= k < i ==> a[k] == old(a[lo + hi - 1 - k])
      invariant forall k :: j <= k < hi ==> a[k] == old(a[lo + hi - 1 - k])
      invariant forall k :: i <= k < j ==> a[k] == old(a[k])
      invariant forall k :: 0 <= k < a.Length && !(lo <= k < hi) ==> a[k] == old(a[k])
      decreases j - i
    {
      if i < j - 1 {
        a[i], a[j - 1] := a[j - 1], a[i];
      }
      i, j := i + 1, j - 1;
    }
    forall k | 0 <= k < hi - lo
      ensures a[lo..hi][k] == old(a[lo..hi])[hi - lo - 1 - k]
    {
      var at := lo + k;
      assert lo <= at < i || j <= at < hi;
      assert a[at] == old(a[lo + hi - 1 - at]);
    }
  }

  function Abs(v: int): nat {
    if v < 0 then -v else v
  }

  /** One turn of the digit loop: the table lookup is the last digit of |i|, whatever the sign. */
  lemma DigitStep(i: int)
    ensures 0 <= ZERO + TruncMod(i, 10) < |DIGITS|
    ensures DIGITS[ZERO + TruncMod(i, 10)] == Digit(Abs(i) % 10)
    ensures Abs(TruncDiv(i, 10)) == Abs(i) / 10
  {
    var m := TruncMod(i, 10);
    assert m == (if i >= 0 then i % 10 else -((-i) % 10));
    assert -10 < m < 10;
    assert forall k :: 0 <= k < 19 ==> DIGITS[k] == Digit(if k < 9 then 9 - k else k - 9);
  }

  /** What the digit loop keeps: the digits still to come, then those written, read backwards. */
  predicate Backwards(value: int, i: int, written: string, again: bool) {
    Natural(Abs(value)) == (if again then Natural(Abs(i)) else "") + Reversed(written)
  }

  lemma BackwardsStep(value: int, i: int, written: string)
    requires Backwards(value, i, written, true)
    ensures var next := TruncDiv(i, 10);
            Backwards(value, next, written + [Digit(Abs(i) % 10)], next != 0)
    ensures |written| < |Natural(Abs(value))|
  {
    DigitStep(i);
    var c := [Digit(Abs(i) % 10)];
    assert Reversed(written + c) == c + Reversed(written);
    assert Natural(Abs(i)) == (if Abs(i) / 10 != 0 then Natural(Abs(i) / 10) else "") + c;
    assert Natural(Abs(i)) + Reversed(written)
        == (if Abs(i) / 10 != 0 then Natural(Abs(i) / 10) else "") + Reversed(written + c);
  }

  /** The do-while loop: least significant digit first. */
  method WriteDigits(data: array<char>, buf: nat, value: int) returns (p: nat)
    requires |Natural(Abs(value))| <= MAX_DIGITS
    requires buf + MAX_DIGITS < data.Length
    modifies data
    ensures buf <= p && p - buf == |Natural(Abs(value))|
    ensures Reversed(data[buf..p]) == Natural(Abs(value))
    ensures forall k :: 0 <= k < data.Length && !(buf <= k < p) ==> data[k] == old(data[k])
  {
    p := buf;
    var i, again := value, true;
    assert Backwards(value, i, data[buf..p], true);
    while again
      invariant buf <= p <= buf + MAX_DIGITS
      invariant Backwards(value, i, data[buf..p], again)
      invariant forall k :: 0 <= k < data.Length && !(buf <= k < p) ==> data[k] == old(data[k])
      decreases again, Abs(i)
    {
      DigitStep(i);
      BackwardsStep(value, i, data[buf..p]);
      ghost var written, digit := data[buf..p], Digit(Abs(i) % 10);
      var lsd := TruncMod(i, 10);
      i := TruncDiv(i, 10);
      data[p] := DIGITS[ZERO + lsd];
      p := p + 1;
      again := i != 0;
      assert data[buf..p] == written + [digit];
    }
  }

  /** The digits backwards, and the sign behind them. */
  function SignedDigits(digits: string, value: int): string {
    if value < 0 then digits + ['-'] else digits
  }

  lemma SignedBackwards(digits: string, value: int)
    requires Reversed(digits) == Natural(Abs(value))
    ensures Reversed(SignedDigits(digits, value)) == Decimal(value)
  {
    if value < 0 { assert Reversed(digits + ['-']) == ['-'] + Reversed(digits); }
  }

  /** The loop, and the sign. */
  method WriteSigned(data: array<char>, buf: nat, value: int) returns (p: nat)
    requires |Decimal(value)| <= MAX_DIGITS
    requires buf + MAX_DIGITS < data.Length
    modifies data
    ensures buf <= p <= buf + MAX_DIGITS && Reversed(data[buf..p]) == Decimal(value)
    ensures forall k :: 0 <= k < data.Length && !(buf <= k < p) ==> data[k] == old(data[k])
  {
    p := WriteDigits(data, buf, value);
    ghost var digits := data[buf..p];
    SignedBackwards(digits, value);
    if value < 0 {
      data[p] := '-';
      p := p + 1;
      assert data[buf..p] == digits + ['-'];
    }
  }

  /** The NUL, and the reversal. */
  method TurnRound(data: array<char>, buf: nat, p: nat, ghost text: string)
    requires buf <= p < data.Length && Reversed(data[buf..p]) == text
    modifies data
    ensures data[buf..p] == text && data[p] == '\0'
    ensures forall k :: 0 <= k < data.Length && !(buf <= k <= p) ==> data[k] == old(data[k])
  {
    ghost var backwards := data[buf..p];
    data[p] := '\0';
    assert data[buf..p] == backwards;
    ReverseRange(data, buf, p);
  }

  /** Writes the decimal text of `value` at `buf`, ended by NUL, and returns its length. */
  method Convert(data: array<char>, buf: nat, value: int) returns (len: nat)
    requires MIN_INT64 <= value <= MAX_UINT64
    requires buf + MAX_DIGITS < data.Length
    modifies data
    ensures len <= MAX_DIGITS && buf + len < data.Length
    ensures data[buf..buf + len] == Decimal(value) && data[buf + len] == '\0'
    ensures forall k :: 0 <= k < data.Length && !(buf <= k <= buf + len) ==> data[k] == old(data[k])
  {
    DecimalLength(value);
    var p := WriteSigned(data, buf, value);
    TurnRound(data, buf, p, Decimal(value));
    len := p - buf;
  }
}
