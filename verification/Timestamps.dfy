/** The text form of timestamps, and when comparing it agrees with comparing instants. */
module Timestamps {
  import opened Basics
  import Text
  import opened Fingerprints
  import Sorting

  // ---- Civil time ----

  predicate Leap(year: nat) { year % 4 == 0 && (year % 100 != 0 || year % 400 == 0) }

  function DaysIn(year: nat, month: nat): nat {
    if month == 2 then (if Leap(year) then 29 else 28)
    else if month == 4 || month == 6 || month == 9 || month == 11 then 30 else 31
  }

  /** Days of the year before the month begins. */
  function DaysBeforeMonth(year: nat, month: nat): nat {
    if month <= 1 then 0 else DaysBeforeMonth(year, month - 1) + DaysIn(year, month - 1)
  }

  /** Days before the year begins, counted from year zero. */
  function DaysBeforeYear(year: nat): nat {
    if year == 0 then 0 else DaysBeforeYear(year - 1) + DaysBeforeMonth(year - 1, 13)
  }

  /** A UTC time as it is printed: four-digit year to nanosecond. */
  datatype Stamp = Stamp(year: nat, month: nat, day: nat, hour: nat, minute: nat, second: nat, nanos: nat) {
    predicate Valid() {
      year <= 9999 && 1 <= month <= 12 && 1 <= day <= DaysIn(year, month) && hour < 24 && minute < 60 && second < 60
      && nanos < 1_000_000_000
    }

    function Days(): int { DaysBeforeYear(year) + DaysBeforeMonth(year, month) + day - 1 }

    function Clock(): int { hour * 3600 + minute * 60 + second }

    /** Whole seconds since the beginning of year zero. */
    function Seconds(): int { Days() * 86400 + Clock() }

    function Nanos(): int { Seconds() * 1_000_000_000 + nanos }
  }

  lemma {:induction false} MonthsAscend(year: nat, m: nat, n: nat)
    requires 1 <= m < n
    ensures DaysBeforeMonth(year, m) + DaysIn(year, m) <= DaysBeforeMonth(year, n)
    decreases n
  {
    if m < n - 1 { MonthsAscend(year, m, n - 1); }
  }

  lemma {:induction false} YearsAscend(a: nat, b: nat)
    requires a < b
    ensures DaysBeforeYear(a) + DaysBeforeMonth(a, 13) <= DaysBeforeYear(b)
    decreases b
  {
    if a < b - 1 { YearsAscend(a, b - 1); }
  }

  /** Lexicographic order of the date fields. */
  predicate DateBefore(a: Stamp, b: Stamp) {
    a.year < b.year || (a.year == b.year && (a.month < b.month || (a.month == b.month && a.day < b.day)))
  }

  lemma DateOrder(a: Stamp, b: Stamp)
    requires a.Valid() && b.Valid() && DateBefore(a, b)
    ensures a.Days() < b.Days()
  {
    if a.year < b.year {
      YearsAscend(a.year, b.year);
      MonthsAscend(a.year, a.month, 13);
    } else if a.month < b.month {
      MonthsAscend(a.year, a.month, b.month);
    }
  }

  // ---- Text of fixed-width fields ----

  /** The last `width` decimal digits. */
  function Pad(n: nat, width: nat): (s: string)
    ensures |s| == width
  {
    if width == 0 then "" else Pad(n / 10, width - 1) + [Digit(n % 10)]
  }

  function Pow10(n: nat): (r: nat)
    ensures r >= 1
  {
    if n == 0 then 1 else 10 * Pow10(n - 1)
  }

  lemma {:induction false} PadDigits(n: nat, width: nat)
    ensures forall k :: 0 <= k < width ==> '0' <= Pad(n, width)[k] <= '9'
  {
    if width > 0 { PadDigits(n / 10, width - 1); }
  }

  lemma {:induction false} PadOrder(m: nat, n: nat, width: nat)
    requires m < n < Pow10(width)
    ensures Text.Less(Pad(m, width), Pad(n, width))
  {
    var p, q := Pad(m / 10, width - 1), Pad(n / 10, width - 1);
    if m / 10 < n / 10 {
      PadOrder(m / 10, n / 10, width - 1);
      Text.LessIrreflexive(p);
      Text.LessBeforeSuffix(p, q, [Digit(m % 10)], [Digit(n % 10)]);
    } else {
      Text.LessAfterPrefix(p, [Digit(m % 10)], [Digit(n % 10)]);
    }
  }

  /** One printed number and the punctuation after it. */
  datatype Field = Field(value: nat, width: nat, after: string)

  function Print(fields: seq<Field>): string {
    if fields == [] then "" else Pad(fields[0].value, fields[0].width) + fields[0].after + Print(fields[1..])
  }

  predicate SameShape(a: seq<Field>, b: seq<Field>) {
    |a| == |b| && forall k :: 0 <= k < |a| ==>
      a[k].width == b[k].width && a[k].after == b[k].after && a[k].value < Pow10(a[k].width) && b[k].value < Pow10(b[k].width)
  }

  predicate FieldsBefore(a: seq<Field>, b: seq<Field>)
    requires |a| == |b|
  {
    a != [] && (a[0].value < b[0].value || (a[0].value == b[0].value && FieldsBefore(a[1..], b[1..])))
  }

  lemma {:induction false} PrintOrder(a: seq<Field>, b: seq<Field>)
    requires SameShape(a, b) && FieldsBefore(a, b)
    ensures |Print(a)| == |Print(b)| && Text.Less(Print(a), Print(b))
  {
    PrintLength(a, b);
    var p, q := Pad(a[0].value, a[0].width), Pad(b[0].value, b[0].width);
    var x, y := a[0].after + Print(a[1..]), b[0].after + Print(b[1..]);
    assert Print(a) == p + x && Print(b) == q + y;
    if a[0].value < b[0].value {
      PadOrder(a[0].value, b[0].value, a[0].width);
      Text.LessIrreflexive(p);
      Text.LessBeforeSuffix(p, q, x, y);
    } else {
      PrintOrder(a[1..], b[1..]);
      Text.LessAfterPrefix(a[0].after, Print(a[1..]), Print(b[1..]));
      Text.LessAfterPrefix(p, x, y);
    }
  }

  lemma {:induction false} PrintLength(a: seq<Field>, b: seq<Field>)
    requires SameShape(a, b)
    ensures |Print(a)| == |Print(b)|
  {
    if a != [] { PrintLength(a[1..], b[1..]); }
  }

  // ---- The printed timestamp ----

  function Fields(t: Stamp): seq<Field> {
    [Field(t.year, 4, "-"), Field(t.month, 2, "-"), Field(t.day, 2, "T"),
     Field(t.hour, 2, ":"), Field(t.minute, 2, ":"), Field(t.second, 2, "")]
  }

  function TrimZeros(s: string): string {
    if s != "" && s[|s| - 1] == '0' then TrimZeros(s[..|s| - 1]) else s
  }

  /** The printed digits of the fraction: nine, without the zeros at the end. */
  function Fraction(nanos: nat): string { TrimZeros(Pad(nanos, 9)) }

  /** `FormatTime`: the layout `time.RFC3339Nano` in UTC. */
  function FormatTime(t: Stamp): string {
    Print(Fields(t)) + (if Fraction(t.nanos) == "" then "" else "." + Fraction(t.nanos)) + "Z"
  }

  lemma FieldsFit(a: Stamp, b: Stamp)
    requires a.Valid() && b.Valid()
    ensures SameShape(Fields(a), Fields(b))
  {
    assert Pow10(1) == 10 && Pow10(2) == 100 && Pow10(4) == 10000;
  }

  predicate SameDate(a: Stamp, b: Stamp) { a.year == b.year && a.month == b.month && a.day == b.day }

  lemma SecondsFirstByDate(a: Stamp, b: Stamp)
    requires a.Valid() && b.Valid()
    ensures a.Seconds() < b.Seconds() <==> DateBefore(a, b) || (SameDate(a, b) && a.Clock() < b.Clock())
  {
    if DateBefore(a, b) {
      DateOrder(a, b);
    } else if DateBefore(b, a) {
      DateOrder(b, a);
    }
    hide DaysBeforeYear, DaysBeforeMonth;
    assert 0 <= a.Clock() < 86400 && 0 <= b.Clock() < 86400;
  }

  lemma SecondsOrder(a: Stamp, b: Stamp)
    requires a.Valid() && b.Valid()
    ensures SameShape(Fields(a), Fields(b))
    ensures a.Seconds() < b.Seconds() <==> FieldsBefore(Fields(a), Fields(b))
    ensures a.Seconds() == b.Seconds() <==> Fields(a) == Fields(b)
  {
    FieldsFit(a, b);
    FieldsMeaning(a, b);
    SecondsFirstByDate(a, b);
    SecondsFirstByDate(b, a);
    hide Stamp.Seconds, FieldsBefore;
    if SameDate(a, b) && a.Clock() == b.Clock() { SameSeconds(a, b); }
  }

  lemma SameSeconds(a: Stamp, b: Stamp)
    requires a.Valid() && b.Valid() && SameDate(a, b) && a.Clock() == b.Clock()
    ensures a.Seconds() == b.Seconds() && Fields(a) == Fields(b)
  {
    hide DaysBeforeYear, DaysBeforeMonth, DaysIn;
    assert a.hour == b.hour && a.minute == b.minute && a.second == b.second by {
      TimeOfDay(a.hour, a.minute, a.second, b.hour, b.minute, b.second);
    }
  }

  lemma TimeOfDay(h: nat, m: nat, s: nat, h': nat, m': nat, s': nat)
    requires m < 60 && s < 60 && m' < 60 && s' < 60 && h * 3600 + m * 60 + s == h' * 3600 + m' * 60 + s'
    ensures h == h' && m == m' && s == s'
  {
    assert h < h' ==> h + 1 <= h';
    assert h' < h ==> h' + 1 <= h;
  }

  /** The fields in order: first the date, then the time of day. */
  lemma FieldsMeaning(a: Stamp, b: Stamp)
    requires a.Valid() && b.Valid()
    ensures FieldsBefore(Fields(a), Fields(b)) <==> DateBefore(a, b) || (SameDate(a, b) && a.Clock() < b.Clock())
  {
    var x, y := Fields(a), Fields(b);
    TimeFields(a, b);
    assert FieldsBefore(x[2..], y[2..]) <==> a.day < b.day || (a.day == b.day && a.Clock() < b.Clock()) by {
      assert x[2..][1..] == x[3..] && y[2..][1..] == y[3..];
    }
    assert FieldsBefore(x[1..], y[1..]) <==> a.month < b.month || (a.month == b.month && FieldsBefore(x[2..], y[2..])) by {
      assert x[1..][1..] == x[2..] && y[1..][1..] == y[2..];
    }
  }

  lemma TimeFields(a: Stamp, b: Stamp)
    requires a.Valid() && b.Valid()
    ensures FieldsBefore(Fields(a)[3..], Fields(b)[3..]) <==> a.Clock() < b.Clock()
  {
    var x, y := Fields(a)[3..], Fields(b)[3..];
    assert x[1..] == Fields(a)[4..] && y[1..] == Fields(b)[4..];
    assert x[1..][1..] == Fields(a)[5..] && y[1..][1..] == Fields(b)[5..];
    assert FieldsBefore(Fields(a)[5..], Fields(b)[5..]) <==> a.second < b.second;
    assert FieldsBefore(x[1..], y[1..]) <==> a.minute < b.minute || (a.minute == b.minute && a.second < b.second);
  }

  // ---- Comparing fractions ----

  predicate Zeros(s: string) { forall k :: 0 <= k < |s| ==> s[k] == '0' }

  predicate Digits(s: string) { forall k :: 0 <= k < |s| ==> '0' <= s[k] <= '9' }

  lemma {:induction false} TrimSplits(s: string)
    ensures TrimZeros(s) <= s && Zeros(s[|TrimZeros(s)|..])
    ensures TrimZeros(s) == "" || TrimZeros(s)[|TrimZeros(s)| - 1] != '0'
  {
    if s != "" && s[|s| - 1] == '0' {
      var t := s[..|s| - 1];
      TrimSplits(t);
      assert s[|TrimZeros(t)|..] == t[|TrimZeros(t)|..] + ['0'];
    }
  }

  /** Neither string continues the other. */
  predicate Apart(a: string, b: string) { !(a <= b) && !(b <= a) }

  /** The order of strings that differ at some position does not depend on what follows them. */
  lemma {:induction false} ApartOrder(a: string, b: string, x: string, y: string)
    requires Apart(a, b)
    ensures Text.Less(a + x, b + y) == Text.Less(a, b)
  {
    assert a != "" && b != "";
    assert (a + x)[1..] == a[1..] + x && (b + y)[1..] == b[1..] + y;
    if a[0] == b[0] {
      assert a == [a[0]] + a[1..] && b == [b[0]] + b[1..];
      ApartOrder(a[1..], b[1..], x, y);
    }
  }

  /** Nothing made of digits is below as many zeros. */
  lemma {:induction false} ZerosLeast(d: string, z: string)
    requires |d| == |z| && Digits(d) && Zeros(z)
    ensures !Text.Less(d, z)
  {
    if d != "" { ZerosLeast(d[1..], z[1..]); }
  }

  lemma NanosOrder(m: nat, n: nat)
    requires m < 1_000_000_000 && n < 1_000_000_000
    ensures Text.Less(Pad(m, 9), Pad(n, 9)) <==> m < n
    ensures Pad(m, 9) == Pad(n, 9) <==> m == n
  {
    assert Pow10(3) == 1000 && Pow10(6) == 1_000_000 && Pow10(9) == 1_000_000_000;
    if m < n { PadOrder(m, n, 9); }
    if n < m { PadOrder(n, m, 9); }
    Text.LessIrreflexive(Pad(m, 9));
    if Text.Less(Pad(m, 9), Pad(n, 9)) && Text.Less(Pad(n, 9), Pad(m, 9)) {
      Text.LessTransitive(Pad(m, 9), Pad(n, 9), Pad(m, 9));
    }
  }

  function Tail(nanos: nat): string { (if Fraction(nanos) == "" then "" else "." + Fraction(nanos)) + "Z" }

  /** Fractions that differ at some position compare like their numbers. */
  lemma ApartFractions(m: nat, n: nat)
    requires m < 1_000_000_000 && n < 1_000_000_000 && Apart(Fraction(m), Fraction(n))
    ensures Text.Less(Tail(m), Tail(n)) <==> m < n
  {
    hide Pad, TrimZeros;
    var a, b, p, q := Fraction(m), Fraction(n), Pad(m, 9), Pad(n, 9);
    TrimSplits(p);
    TrimSplits(q);
    assert p == a + p[|a|..] && q == b + q[|b|..];
    NanosOrder(m, n);
    ApartOrder(a, b, p[|a|..], q[|b|..]);
    ApartOrder(a, b, "Z", "Z");
    assert Tail(m) == "." + (a + "Z") && Tail(n) == "." + (b + "Z");
    Text.LessAfterPrefix(".", a + "Z", b + "Z");
  }

  lemma PrefixSmaller(m: nat, n: nat)
    requires m < 1_000_000_000 && n < 1_000_000_000 && Fraction(m) < Fraction(n)
    ensures m < n
  {
    hide Pad, TrimZeros;
    var a, b, p, q := Fraction(m), Fraction(n), Pad(m, 9), Pad(n, 9);
    TrimSplits(p);
    TrimSplits(q);
    PadDigits(n, 9);
    var x, y := p[|a|..], q[|a|..];
    assert a <= b <= q;
    assert p == a + x && q == a + y;
    Text.LessAfterPrefix(a, y, x);
    ZerosLeast(y, x);
    NanosOrder(n, m);
    NanosOrder(m, n);
  }

  /** A digit sorts before the closing letter, and so does the point. */
  lemma PrefixLarger(a: string, b: string)
    requires a < b && Digits(b)
    ensures var x, y := (if a == "" then "" else "." + a) + "Z", "." + b + "Z";
      Text.Less(y, x) && !Text.Less(x, y)
  {
    if a != "" {
      var rest := b[|a|..] + "Z";
      assert "." + a + "Z" == ("." + a) + "Z" && "." + b + "Z" == ("." + a) + rest;
      Text.LessAfterPrefix("." + a, rest, "Z");
      Text.LessAfterPrefix("." + a, "Z", rest);
      assert rest[0] == b[|a|];
    }
  }

  /** A fraction that another one continues is the smaller number and the larger text. */
  lemma PrefixFractions(m: nat, n: nat)
    requires m < 1_000_000_000 && n < 1_000_000_000 && Fraction(m) < Fraction(n)
    ensures m < n && Text.Less(Tail(n), Tail(m)) && !Text.Less(Tail(m), Tail(n))
  {
    PrefixSmaller(m, n);
    TrimSplits(Pad(n, 9));
    PadDigits(n, 9);
    assert Digits(Fraction(n));
    hide Fraction;
    PrefixLarger(Fraction(m), Fraction(n));
  }

  // ---- The main results ----

  /** Text and instants order the two timestamps the same way. */
  predicate Agree(a: Stamp, b: Stamp) {
    && (Text.Less(FormatTime(a), FormatTime(b)) <==> a.Nanos() < b.Nanos())
    && (Text.Less(FormatTime(b), FormatTime(a)) <==> b.Nanos() < a.Nanos())
    && (FormatTime(a) == FormatTime(b) <==> a.Nanos() == b.Nanos())
  }

  lemma TextsDiffer(s: string, t: string)
    requires Text.Less(s, t)
    ensures s != t && !Text.Less(t, s)
  {
    Text.LessIrreflexive(s);
    if Text.Less(t, s) { Text.LessTransitive(s, t, s); }
  }

  lemma EarlierSecond(a: Stamp, b: Stamp)
    requires a.Valid() && b.Valid() && a.Seconds() < b.Seconds()
    ensures Text.Less(FormatTime(a), FormatTime(b))
  {
    var p, q := Print(Fields(a)), Print(Fields(b));
    SecondsOrder(a, b);
    PrintOrder(Fields(a), Fields(b));
    Text.LessIrreflexive(p);
    assert FormatTime(a) == p + Tail(a.nanos) && FormatTime(b) == q + Tail(b.nanos);
    Text.LessBeforeSuffix(p, q, Tail(a.nanos), Tail(b.nanos));
  }

  lemma SameSecond(a: Stamp, b: Stamp)
    requires a.Valid() && b.Valid() && a.Seconds() == b.Seconds()
    ensures Text.Less(FormatTime(a), FormatTime(b)) <==> Text.Less(Tail(a.nanos), Tail(b.nanos))
    ensures FormatTime(a) == FormatTime(b) <==> Tail(a.nanos) == Tail(b.nanos)
  {
    SecondsOrder(a, b);
    var p := Print(Fields(a));
    assert FormatTime(a) == p + Tail(a.nanos) && FormatTime(b) == p + Tail(b.nanos);
    assert FormatTime(a)[|p|..] == Tail(a.nanos) && FormatTime(b)[|p|..] == Tail(b.nanos);
    Text.LessAfterPrefix(p, Tail(a.nanos), Tail(b.nanos));
  }

  /** Equal printed fractions are equal numbers. */
  lemma FractionInjective(m: nat, n: nat)
    requires m < 1_000_000_000 && n < 1_000_000_000 && Fraction(m) == Fraction(n)
    ensures m == n
  {
    TrimSplits(Pad(m, 9));
    TrimSplits(Pad(n, 9));
    assert Pad(m, 9) == Pad(n, 9);
    NanosOrder(m, n);
  }

  /**
   * The texts of two timestamps compare like the instants exactly when the timestamps differ in the whole
   * second or neither printed fraction is a proper prefix of the other.
   */
  lemma TextOrderIffNoPrefix(a: Stamp, b: Stamp)
    requires a.Valid() && b.Valid()
    ensures Agree(a, b) <==>
      a.Seconds() != b.Seconds() || !(Fraction(a.nanos) < Fraction(b.nanos) || Fraction(b.nanos) < Fraction(a.nanos))
  {
    hide FormatTime, Fraction, Tail, Stamp.Seconds;
    if a.Seconds() < b.Seconds() {
      EarlierSecond(a, b);
      TextsDiffer(FormatTime(a), FormatTime(b));
    } else if b.Seconds() < a.Seconds() {
      EarlierSecond(b, a);
      TextsDiffer(FormatTime(b), FormatTime(a));
    } else {
      SameSecond(a, b);
      SameSecond(b, a);
      SameSecondAgree(a, b);
    }
  }

  lemma SameSecondAgree(a: Stamp, b: Stamp)
    requires a.Valid() && b.Valid() && a.Seconds() == b.Seconds()
    requires Text.Less(FormatTime(a), FormatTime(b)) <==> Text.Less(Tail(a.nanos), Tail(b.nanos))
    requires Text.Less(FormatTime(b), FormatTime(a)) <==> Text.Less(Tail(b.nanos), Tail(a.nanos))
    requires FormatTime(a) == FormatTime(b) <==> Tail(a.nanos) == Tail(b.nanos)
    ensures Agree(a, b) <==> !(Fraction(a.nanos) < Fraction(b.nanos) || Fraction(b.nanos) < Fraction(a.nanos))
  {
    var x, y := Fraction(a.nanos), Fraction(b.nanos);
    hide FormatTime, Fraction, Tail, Stamp.Seconds;
    if x == y {
      FractionInjective(a.nanos, b.nanos);
      Text.LessIrreflexive(Tail(a.nanos));
    } else if x < y {
      PrefixFractions(a.nanos, b.nanos);
    } else if y < x {
      PrefixFractions(b.nanos, a.nanos);
    } else {
      ApartFractions(a.nanos, b.nanos);
      ApartFractions(b.nanos, a.nanos);
      Text.LessTotal(Tail(a.nanos), Tail(b.nanos));
      Text.LessIrreflexive(Tail(a.nanos));
    }
  }

  /** With one number of fractional digits, the SQL guards on text agree with comparing instants. */
  lemma FixedDigitsAgree(a: Stamp, b: Stamp)
    requires a.Valid() && b.Valid() && |Fraction(a.nanos)| == |Fraction(b.nanos)|
    ensures Agree(a, b)
  {
    hide Fraction, Agree;
    TextOrderIffNoPrefix(a, b);
  }

  lemma {:induction false} PadZero(width: nat)
    ensures Zeros(Pad(0, width))
  {
    if width > 0 { PadZero(width - 1); }
  }

  lemma {:induction false} ZerosVanish(s: string)
    requires Zeros(s)
    ensures TrimZeros(s) == ""
  {
    if s != "" { ZerosVanish(s[..|s| - 1]); }
  }

  /** Half a second into a second is later than its start, yet its text sorts before the text of the start. */
  lemma TextOrderFails(t: Stamp, half: Stamp)
    requires t.Valid() && t.nanos == 0 && half == t.(nanos := 500_000_000)
    ensures t.Nanos() < half.Nanos() && Text.Less(FormatTime(half), FormatTime(t))
  {
    PadZero(9);
    ZerosVanish(Pad(0, 9));
    if Fraction(500_000_000) == "" { FractionInjective(0, 500_000_000); }
    PrefixFractions(0, 500_000_000);
    SameSecond(half, t);
  }

  // ---- Instants and the text that SQL stores for them ----

  const SECOND: int := 1_000_000_000

  /** The last year up to `top` that begins no later than the day, both counted from the beginning of year zero. */
  function YearOf(day: nat, top: nat): (y: nat)
    ensures y <= top && DaysBeforeYear(y) <= day && (y < top ==> day < DaysBeforeYear(y + 1))
  {
    if top == 0 || DaysBeforeYear(top) <= day then top else YearOf(day, top - 1)
  }

  /** The last month up to `top` that begins no later than the day of the year. */
  function MonthOf(year: nat, day: nat, top: nat): (m: nat)
    requires top >= 1
    ensures 1 <= m <= top && DaysBeforeMonth(year, m) <= day && (m < top ==> day < DaysBeforeMonth(year, m + 1))
  {
    if top == 1 || DaysBeforeMonth(year, top) <= day then top else MonthOf(year, day, top - 1)
  }

  /** The civil time of an instant: nanoseconds since the beginning of year zero. */
  function StampOf(x: nat): Stamp {
    var seconds := x / SECOND;
    var day, clock := seconds / 86400, seconds % 86400;
    var year := YearOf(day, day);
    var left := day - DaysBeforeYear(year);
    var month := MonthOf(year, left, 12);
    Stamp(year, month, left - DaysBeforeMonth(year, month) + 1, clock / 3600, clock / 60 % 60, clock % 60, x % SECOND)
  }

  /** The instant lies in the years of four digits. */
  predicate Printable(x: Instant) { x >= 0 && StampOf(x).year <= 9999 }

  lemma {:induction false} YearsHaveDays(n: nat)
    ensures DaysBeforeYear(n) >= n
  {
    if n > 0 {
      YearsHaveDays(n - 1);
      MonthsAscend(n - 1, 1, 13);
    }
  }

  /** A day lies in its year and in its month. */
  lemma DayFits(day: nat)
    ensures var year := YearOf(day, day);
      var left := day - DaysBeforeYear(year);
      var month := MonthOf(year, left, 12);
      day < DaysBeforeYear(year + 1) && left - DaysBeforeMonth(year, month) < DaysIn(year, month)
  {
    var year := YearOf(day, day);
    YearsHaveDays(day + 1);
    assert day < DaysBeforeYear(year + 1);
    var left := day - DaysBeforeYear(year);
    assert left < DaysBeforeMonth(year, 13);
    var month := MonthOf(year, left, 12);
    assert left < DaysBeforeMonth(year, month + 1);
  }

  lemma ClockSplits(clock: nat)
    requires clock < 86400
    ensures clock / 3600 < 24 && clock / 3600 * 3600 + clock / 60 % 60 * 60 + clock % 60 == clock
  {
    assert clock / 60 / 60 == clock / 3600;
  }

  lemma InstantSplits(x: nat)
    ensures x == (x / SECOND) * SECOND + x % SECOND
    ensures x / SECOND == (x / SECOND / 86400) * 86400 + x / SECOND % 86400
  {
  }

  lemma StampDays(x: nat)
    ensures var s := StampOf(x);
      s.Days() == x / SECOND / 86400 && 1 <= s.day <= DaysIn(s.year, s.month)
  {
    DayFits(x / SECOND / 86400);
    hide DaysIn, DaysBeforeMonth, DaysBeforeYear;
  }

  lemma StampClock(x: nat)
    ensures var s := StampOf(x);
      s.Clock() == x / SECOND % 86400 && s.hour < 24 && s.minute < 60 && s.second < 60
  {
    hide YearOf, MonthOf, DaysBeforeMonth, DaysBeforeYear;
    ClockSplits(x / SECOND % 86400);
  }

  /** Every instant of the printable years has exactly this civil time. */
  lemma StampOfInstant(x: Instant)
    requires Printable(x)
    ensures StampOf(x).Valid() && StampOf(x).Nanos() == x && StampOf(x).Seconds() == x / SECOND && StampOf(x).nanos == x % SECOND
  {
    InstantSplits(x);
    StampDays(x);
    StampClock(x);
    hide YearOf, MonthOf, DaysBeforeMonth, DaysBeforeYear, DaysIn, Stamp.Days, Stamp.Clock;
  }

  lemma YearsOrdered(a: nat, b: nat)
    requires a <= b
    ensures YearOf(a, a) <= YearOf(b, b)
  {
    hide YearOf, MonthOf, DaysBeforeYear, DaysBeforeMonth, DaysIn;
    DayFits(b);
    var p, q := YearOf(a, a), YearOf(b, b);
    if q + 1 < p { YearsAscend(q + 1, p); }
  }

  /** The printable instants are an interval. */
  lemma PrintableBelow(x: Instant, y: Instant)
    requires 0 <= x <= y && Printable(y)
    ensures Printable(x)
  {
    hide YearOf, MonthOf, DaysBeforeYear, DaysBeforeMonth, DaysIn;
    YearsOrdered(x / SECOND / 86400, y / SECOND / 86400);
  }

  /** The stored text of an instant. */
  function Printed(x: Instant): string {
    if Printable(x) then FormatTime(StampOf(x)) else ""
  }

  /** How SQL compares two stored times. */
  predicate TextBefore(a: Instant, b: Instant) { Text.Less(Printed(a), Printed(b)) }

  function FractionOf(x: Instant): string { Fraction(x % SECOND) }

  /** The times differ in the whole second, or neither printed fraction is a proper prefix of the other. */
  predicate Comparable(a: Instant, b: Instant) {
    && Printable(a) && Printable(b)
    && (a / SECOND != b / SECOND || !(FractionOf(a) < FractionOf(b) || FractionOf(b) < FractionOf(a)))
  }

  /** Text and clock order the two times the same way. */
  predicate SameOrder(a: Instant, b: Instant) {
    (TextBefore(a, b) <==> a < b) && (TextBefore(b, a) <==> b < a)
  }

  /** The SQL guards agree with the clock on two times exactly when the times are comparable. */
  lemma TextOrderIffComparable(a: Instant, b: Instant)
    requires Printable(a) && Printable(b)
    ensures SameOrder(a, b) <==> Comparable(a, b)
  {
    StampOfInstant(a);
    StampOfInstant(b);
    hide StampOf, FormatTime, Stamp.Seconds, Stamp.Nanos, Stamp.Valid, Fraction, DaysBeforeYear;
    TextOrderIffNoPrefix(StampOf(a), StampOf(b));
    Text.LessTotal(Printed(a), Printed(b));
    Text.LessIrreflexive(Printed(a));
  }

  /** Text order is a weak order, so the SQL due queries always have a first row. */
  lemma TextBeforeWeak()
    ensures Sorting.WeakOrder(TextBefore)
  {
    hide Printed;
    forall a, b
      ensures !(TextBefore(a, b) && TextBefore(b, a))
    {
      if TextBefore(a, b) { TextsDiffer(Printed(a), Printed(b)); }
    }
    forall a, b, c | TextBefore(a, c)
      ensures TextBefore(a, b) || TextBefore(b, c)
    {
      Text.LessTotal(Printed(a), Printed(b));
      if Text.Less(Printed(b), Printed(a)) { Text.LessTransitive(Printed(b), Printed(a), Printed(c)); }
    }
  }
}
