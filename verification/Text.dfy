/** Text printing used by the cache keys and the audit trail: decimal numbers, UUID text and calendar dates. */
module Text {

  newtype Byte = x: int | 0 <= x < 256

  type Bytes16 = b: seq<Byte> | |b| == 16 witness seq(16, _ => 0)

  datatype Uuid = Uuid(bytes: Bytes16)

  function Digit(n: int): char
    requires 0 <= n < 10
  {
    (48 + n) as char
  }

  function HexDigit(n: int): char
    requires 0 <= n < 16
  {
    if n < 10 then (48 + n) as char else (87 + n) as char
  }

  predicate IsDigit(c: char) {
    '0' <= c <= '9'
  }

  predicate IsHex(c: char) {
    IsDigit(c) || 'a' <= c <= 'f'
  }

  /** Sequences cut at the same length are equal piece by piece. */
  lemma CutInjective<T>(a: seq<T>, b: seq<T>, c: seq<T>, d: seq<T>)
    requires |a| == |c| && a + b == c + d
    ensures a == c && b == d
  {
    assert a == (a + b)[..|a|] && b == (a + b)[|a|..];
    assert c == (c + d)[..|a|] && d == (c + d)[|a|..];
  }

  // ---- decimal numbers (the %d verb) ----

  function Dec(n: nat): string {
    if n < 10 then [Digit(n)] else Dec(n / 10) + [Digit(n % 10)]
  }

  function DecInt(i: int): string {
    if i < 0 then "-" + Dec(-i) else Dec(i)
  }

  lemma {:induction false} DecIsDigits(n: nat)
    ensures Dec(n) != "" && forall c :: c in Dec(n) ==> IsDigit(c)
  {
    if n >= 10 { DecIsDigits(n / 10); }
  }

  lemma {:induction false} DecInjective(m: nat, n: nat)
    requires Dec(m) == Dec(n)
    ensures m == n
  {
    DecIsDigits(m / 10);
    DecIsDigits(n / 10);
    if m >= 10 && n >= 10 {
      CutInjective(Dec(m / 10), [Digit(m % 10)], Dec(n / 10), [Digit(n % 10)]);
      DecInjective(m / 10, n / 10);
    }
  }

  lemma DecIntInjective(i: int, j: int)
    requires DecInt(i) == DecInt(j)
    ensures i == j
  {
    DecIsDigits(if i < 0 then -i else i);
    DecIsDigits(if j < 0 then -j else j);
    assert IsDigit(DecInt(i)[0]) <==> i >= 0;
    assert IsDigit(DecInt(j)[0]) <==> j >= 0;
    if i < 0 {
      CutInjective("-", Dec(-i), "-", Dec(-j));
      DecInjective(-i, -j);
    } else {
      DecInjective(i, j);
    }
  }

  lemma DecIntHasNoColon(i: int)
    ensures ':' !in DecInt(i)
  {
    DecIsDigits(if i < 0 then -i else i);
  }

  // ---- UUID text (section 4 of RFC 9562) ----

  function Hex(b: seq<Byte>): (s: string)
    ensures |s| == 2 * |b|
  {
    if b == [] then "" else [HexDigit(b[0] as int / 16), HexDigit(b[0] as int % 16)] + Hex(b[1..])
  }

  function UuidText(u: Uuid): string {
    Hex(u.bytes[0..4]) + ("-" + (Hex(u.bytes[4..6]) + ("-" + (Hex(u.bytes[6..8]) + ("-" + (
      Hex(u.bytes[8..10]) + ("-" + Hex(u.bytes[10..16]))))))))
  }

  lemma {:induction false} HexInjective(a: seq<Byte>, b: seq<Byte>)
    requires Hex(a) == Hex(b)
    ensures a == b
  {
    if a != [] {
      var x, y := a[0] as int, b[0] as int;
      CutInjective([HexDigit(x / 16), HexDigit(x % 16)], Hex(a[1..]), [HexDigit(y / 16), HexDigit(y % 16)], Hex(b[1..]));
      assert HexDigit(x / 16) == HexDigit(y / 16) && HexDigit(x % 16) == HexDigit(y % 16);
      HexInjective(a[1..], b[1..]);
      assert a == [a[0]] + a[1..] && b == [b[0]] + b[1..];
    }
  }

  lemma {:induction false} HexIsHex(b: seq<Byte>)
    ensures forall c :: c in Hex(b) ==> IsHex(c)
  {
    if b != [] { HexIsHex(b[1..]); }
  }

  lemma UuidTextAlphabet(u: Uuid)
    ensures |UuidText(u)| == 36
    ensures forall c :: c in UuidText(u) ==> IsHex(c) || c == '-'
    ensures ':' !in UuidText(u) && UuidText(u) != "all"
  {
    HexIsHex(u.bytes[0..4]);
    HexIsHex(u.bytes[4..6]);
    HexIsHex(u.bytes[6..8]);
    HexIsHex(u.bytes[8..10]);
    HexIsHex(u.bytes[10..16]);
  }

  lemma HexFieldInjective(a: seq<Byte>, r: string, b: seq<Byte>, s: string)
    requires |a| == |b| && Hex(a) + ("-" + r) == Hex(b) + ("-" + s)
    ensures a == b && r == s
  {
    CutInjective(Hex(a), "-" + r, Hex(b), "-" + s);
    CutInjective("-", r, "-", s);
    HexInjective(a, b);
  }

  lemma BytesSplit(b: Bytes16)
    ensures b == b[0..4] + b[4..6] + b[6..8] + b[8..10] + b[10..16]
  {
  }

  lemma UuidTextInjective(u: Uuid, v: Uuid)
    requires UuidText(u) == UuidText(v)
    ensures u == v
  {
    var a, b := u.bytes, v.bytes;
    var a4, b4 := Hex(a[10..16]), Hex(b[10..16]);
    var a3, b3 := Hex(a[8..10]) + ("-" + a4), Hex(b[8..10]) + ("-" + b4);
    var a2, b2 := Hex(a[6..8]) + ("-" + a3), Hex(b[6..8]) + ("-" + b3);
    var a1, b1 := Hex(a[4..6]) + ("-" + a2), Hex(b[4..6]) + ("-" + b2);
    HexFieldInjective(a[0..4], a1, b[0..4], b1);
    HexFieldInjective(a[4..6], a2, b[4..6], b2);
    HexFieldInjective(a[6..8], a3, b[6..8], b3);
    HexFieldInjective(a[8..10], a4, b[8..10], b4);
    HexInjective(a[10..16], b[10..16]);
    BytesSplit(a);
    BytesSplit(b);
  }

  // ---- calendar dates (the layout 2006-01-02, in UTC) ----

  type Year = n: nat | n < 10000
  type Month = n: nat | 1 <= n <= 12 witness 1
  type Day = n: nat | 1 <= n <= 31 witness 1

  const DAY_NANOS: nat := 86_400_000_000_000

  datatype Moment = Moment(year: Year, month: Month, day: Day, nanos: nat)

  predicate IsLeap(year: Year) {
    year % 4 == 0 && (year % 100 != 0 || year % 400 == 0)
  }

  function DaysIn(year: Year, month: Month): nat {
    if month == 2 then (if IsLeap(year) then 29 else 28)
    else if month == 4 || month == 6 || month == 9 || month == 11 then 30 else 31
  }

  /** An instant, given by its UTC calendar date and the nanoseconds since that midnight: one value for each instant. */
  type Time = m: Moment | m.day <= DaysIn(m.year, m.month) && m.nanos < DAY_NANOS witness Moment(1970, 1, 1, 0)

  function Two(n: nat): (s: string)
    requires n < 100
    ensures |s| == 2
  {
    [Digit(n / 10), Digit(n % 10)]
  }

  function DateText(t: Time): string {
    Two(t.year / 100) + (Two(t.year % 100) + ("-" + (Two(t.month) + ("-" + Two(t.day)))))
  }

  lemma TwoInjective(m: nat, r: string, n: nat, s: string)
    requires m < 100 && n < 100 && Two(m) + r == Two(n) + s
    ensures m == n && r == s
  {
    CutInjective(Two(m), r, Two(n), s);
    assert Two(m)[0] == Two(n)[0] && Two(m)[1] == Two(n)[1];
  }

  predicate SameDay(t: Time, u: Time) {
    t.year == u.year && t.month == u.month && t.day == u.day
  }

  /** Two instants print the same exactly when they fall on the same UTC day. */
  lemma DateTextIdentifiesDay(t: Time, u: Time)
    ensures DateText(t) == DateText(u) <==> SameDay(t, u)
  {
    if DateText(t) == DateText(u) {
      var t1, u1 := Two(t.month) + ("-" + Two(t.day)), Two(u.month) + ("-" + Two(u.day));
      TwoInjective(t.year / 100, Two(t.year % 100) + ("-" + t1), u.year / 100, Two(u.year % 100) + ("-" + u1));
      TwoInjective(t.year % 100, "-" + t1, u.year % 100, "-" + u1);
      CutInjective("-", t1, "-", u1);
      TwoInjective(t.month, "-" + Two(t.day), u.month, "-" + Two(u.day));
      CutInjective("-", Two(t.day), "-", Two(u.day));
      TwoInjective(t.day, "", u.day, "");
    }
  }

  // ---- reading the texts back ----

  function DigitValue(c: char): nat
    requires IsHex(c)
  {
    if IsDigit(c) then c as int - '0' as int else c as int - 'a' as int + 10
  }

  /** The number a text of digits denotes, in base 10 or 16. */
  function Number(s: string, base: nat): nat
    requires forall c :: c in s ==> IsHex(c)
  {
    if s == "" then 0 else Number(s[..|s| - 1], base) * base + DigitValue(s[|s| - 1])
  }

  lemma NumberSnoc(s: string, c: char, base: nat)
    requires IsHex(c) && forall x :: x in s ==> IsHex(x)
    ensures Number(s + [c], base) == Number(s, base) * base + DigitValue(c)
  {
    assert (s + [c])[..|s|] == s;
  }

  /** A number is printed in base ten. */
  lemma {:induction false} DecReads(n: nat)
    ensures (forall c :: c in Dec(n) ==> IsHex(c)) && Number(Dec(n), 10) == n
  {
    DecIsDigits(n);
    if n < 10 {
      NumberSnoc("", Digit(n), 10);
      assert "" + [Digit(n)] == [Digit(n)];
    } else {
      DecReads(n / 10);
      NumberSnoc(Dec(n / 10), Digit(n % 10), 10);
    }
  }

  lemma TwoReads(n: nat)
    requires n < 100
    ensures (forall c :: c in Two(n) ==> IsDigit(c)) && Number(Two(n), 10) == n
  {
    NumberSnoc("", Digit(n / 10), 10);
    NumberSnoc([Digit(n / 10)], Digit(n % 10), 10);
    assert "" + [Digit(n / 10)] == [Digit(n / 10)] && [Digit(n / 10)] + [Digit(n % 10)] == Two(n);
  }

  lemma YearReads(y: Year)
    ensures (forall c :: c in Two(y / 100) + Two(y % 100) ==> IsDigit(c)) && Number(Two(y / 100) + Two(y % 100), 10) == y
  {
    TwoReads(y / 100);
    TwoReads(y % 100);
    var a, d := Two(y / 100), y % 100;
    NumberSnoc(a, Digit(d / 10), 10);
    NumberSnoc(a + [Digit(d / 10)], Digit(d % 10), 10);
    assert a + [Digit(d / 10)] + [Digit(d % 10)] == a + Two(d);
  }

  /** A date is printed as year, month and day, with dashes between them. */
  lemma DateTextReads(t: Time)
    ensures var s := DateText(t);
      && |s| == 10 && s[4] == '-' && s[7] == '-'
      && (forall c :: c in s[..4] + s[5..7] + s[8..] ==> IsDigit(c))
      && Number(s[..4], 10) == t.year && Number(s[5..7], 10) == t.month && Number(s[8..], 10) == t.day
  {
    var s := DateText(t);
    var y := Two(t.year / 100) + Two(t.year % 100);
    YearReads(t.year);
    TwoReads(t.month);
    TwoReads(t.day);
    assert s == y + "-" + Two(t.month) + "-" + Two(t.day);
    assert s[..4] == y && s[5..7] == Two(t.month) && s[8..] == Two(t.day);
  }

  lemma {:induction false} HexReads(b: seq<Byte>, i: nat)
    requires i < |b|
    ensures var h := Hex(b);
      && IsHex(h[2 * i]) && IsHex(h[2 * i + 1])
      && DigitValue(h[2 * i]) * 16 + DigitValue(h[2 * i + 1]) == b[i] as int
  {
    if i > 0 { HexReads(b[1..], i - 1); }
  }

  lemma {:induction false} HexConcat(a: seq<Byte>, b: seq<Byte>)
    ensures Hex(a + b) == Hex(a) + Hex(b)
  {
    if a == [] {
      assert a + b == b;
    } else {
      assert (a + b)[1..] == a[1..] + b;
      HexConcat(a[1..], b);
    }
  }

  /** A UUID is printed as its bytes in hexadecimal, in groups of 4, 2, 2, 2 and 6 bytes with dashes between them. */
  lemma UuidTextReads(u: Uuid)
    ensures var s := UuidText(u);
      && |s| == 36 && s[8] == '-' && s[13] == '-' && s[18] == '-' && s[23] == '-'
      && s[0..8] + s[9..13] + s[14..18] + s[19..23] + s[24..36] == Hex(u.bytes)
  {
    var b, s := u.bytes, UuidText(u);
    var h1, h2, h3, h4, h5 := Hex(b[0..4]), Hex(b[4..6]), Hex(b[6..8]), Hex(b[8..10]), Hex(b[10..16]);
    assert s == h1 + "-" + h2 + "-" + h3 + "-" + h4 + "-" + h5;
    assert s[0..8] == h1 && s[9..13] == h2 && s[14..18] == h3 && s[19..23] == h4 && s[24..36] == h5;
    BytesSplit(b);
    HexConcat(b[0..4], b[4..6]);
    HexConcat(b[0..4] + b[4..6], b[6..8]);
    HexConcat(b[0..4] + b[4..6] + b[6..8], b[8..10]);
    HexConcat(b[0..4] + b[4..6] + b[6..8] + b[8..10], b[10..16]);
  }
}
