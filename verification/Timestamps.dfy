/**
Stored timestamps are texts, and every query compares and sorts them as texts. For UTC datetimes the order of the texts is
the order of the instants, although the fraction is left out when it is zero and so the texts differ in length.
*/
module Timestamps {
  import opened Decimals

  datatype Utc = Utc(year: nat, month: nat, day: nat, hour: nat, minute: nat, second: nat, micro: nat)

  predicate Leap(year: nat) {
    year % 4 == 0 && (year % 100 != 0 || year % 400 == 0)
  }

  function DaysIn(year: nat, month: nat): nat {
    if month == 2 then (if Leap(year) then 29 else 28)
    else if month == 4 || month == 6 || month == 9 || month == 11 then 30 else 31
  }

  predicate Valid(t: Utc) {
    && 1 <= t.year <= 9999 && 1 <= t.month <= 12 && 1 <= t.day <= DaysIn(t.year, t.month)
    && t.hour < 24 && t.minute < 60 && t.second < 60 && t.micro < 1000000
  }

  // ---------------------------------------------------------------- instants as microseconds

  function DaysBeforeYear(year: nat): nat {
    if year == 0 then 0 else DaysBeforeYear(year - 1) + if Leap(year - 1) then 366 else 365
  }

  function DaysBeforeMonth(year: nat, month: nat): nat {
    if month <= 1 then 0 else DaysBeforeMonth(year, month - 1) + DaysIn(year, month - 1)
  }

  function Day(t: Utc): nat {
    DaysBeforeYear(t.year) + DaysBeforeMonth(t.year, t.month) + t.day
  }

  /** Microseconds on one scale. */
  function Micros(t: Utc): nat {
    (((Day(t) * 24 + t.hour) * 60 + t.minute) * 60 + t.second) * 1000000 + t.micro
  }

  lemma {:induction false} MonthsGrow(year: nat, m: nat, n: nat)
    requires 1 <= m < n
    ensures DaysBeforeMonth(year, m) + DaysIn(year, m) <= DaysBeforeMonth(year, n)
  {
    if m + 1 < n {
      MonthsGrow(year, m, n - 1);
    }
  }

  lemma YearLength(year: nat, month: nat)
    requires 1 <= month <= 12
    ensures DaysBeforeMonth(year, month) + DaysIn(year, month) <= if Leap(year) then 366 else 365
  {
    if month < 12 {
      MonthsGrow(year, month, 12);
    }
    YearSum(year);
  }

  lemma YearSum(year: nat)
    ensures DaysBeforeMonth(year, 12) + DaysIn(year, 12) == if Leap(year) then 366 else 365
  {
    var f := DaysIn(year, 2);
    assert DaysBeforeMonth(year, 3) == f + 31 by {
      assert DaysBeforeMonth(year, 2) == 31;
    }
    assert DaysBeforeMonth(year, 5) == f + 92 by {
      assert DaysBeforeMonth(year, 4) == f + 62;
    }
    assert DaysBeforeMonth(year, 7) == f + 153 by {
      assert DaysBeforeMonth(year, 6) == f + 123;
    }
    assert DaysBeforeMonth(year, 9) == f + 215 by {
      assert DaysBeforeMonth(year, 8) == f + 184;
    }
    assert DaysBeforeMonth(year, 11) == f + 276 by {
      assert DaysBeforeMonth(year, 10) == f + 245;
    }
  }

  lemma {:induction false} YearsGrow(y: nat, z: nat)
    requires y < z
    ensures DaysBeforeYear(y) + (if Leap(y) then 366 else 365) <= DaysBeforeYear(z)
  {
    if y + 1 < z {
      YearsGrow(y, z - 1);
    }
  }

  predicate DateBefore(x: Utc, y: Utc) {
    x.year < y.year || (x.year == y.year && (x.month < y.month || (x.month == y.month && x.day < y.day)))
  }

  lemma DaysGrow(x: Utc, y: Utc)
    requires Valid(x) && Valid(y) && DateBefore(x, y)
    ensures Day(x) < Day(y)
  {
    YearLength(x.year, x.month);
    if x.year < y.year {
      YearsGrow(x.year, y.year);
    } else if x.month < y.month {
      MonthsGrow(x.year, x.month, y.month);
    }
  }

  // ---------------------------------------------------------------- texts

  function Pad(n: nat, width: nat): (s: string)
    ensures |s| == width
  {
    if width == 0 then "" else Pad(n / 10, width - 1) + [DigitOf(n % 10)]
  }

  function Tail(micro: nat): string {
    (if micro == 0 then "" else "." + Pad(micro, 6)) + "+00:00"
  }

  function Date(t: Utc): (s: string)
    ensures |s| == 10
  {
    Pad(t.year, 4) + "-" + Pad(t.month, 2) + "-" + Pad(t.day, 2)
  }

  function Clock(t: Utc): (s: string)
    ensures |s| == 8
  {
    Pad(t.hour, 2) + ":" + Pad(t.minute, 2) + ":" + Pad(t.second, 2)
  }

  /** The stored text: fixed-width fields, and six fraction digits unless the fraction is zero. */
  function Text(t: Utc): string {
    Date(t) + "T" + Clock(t) + Tail(t.micro)
  }

  // Order of texts, character by character; a proper prefix comes first.
  predicate Less(a: string, b: string) {
    b != "" && (a == "" || a[0] < b[0] || (a[0] == b[0] && Less(a[1..], b[1..])))
  }

  lemma {:induction false} LessAfter(a: string, x: string, b: string, y: string)
    requires |a| == |b|
    ensures Less(a + x, b + y) <==> Less(a, b) || (a == b && Less(x, y))
  {
    if a == "" {
      assert a + x == x && b + y == y;
    } else {
      assert (a + x)[1..] == a[1..] + x && (b + y)[1..] == b[1..] + y;
      LessAfter(a[1..], x, b[1..], y);
      assert a == b <==> a[0] == b[0] && a[1..] == b[1..];
    }
  }

  lemma {:induction false} LessTotal(a: string, b: string)
    ensures Less(a, b) || Less(b, a) || a == b
    ensures !(Less(a, b) && Less(b, a)) && !Less(a, a)
  {
    if a != "" && b != "" {
      LessTotal(a[1..], b[1..]);
      assert a == b <==> a[0] == b[0] && a[1..] == b[1..];
    }
    if a != "" {
      LessIrreflexive(a);
    }
  }

  lemma {:induction false} LessIrreflexive(a: string)
    ensures !Less(a, a)
  {
    if a != "" {
      LessIrreflexive(a[1..]);
    }
  }

  lemma DigitOrder(c: nat, d: nat)
    requires c < 10 && d < 10
    ensures Less([DigitOf(c)], [DigitOf(d)]) <==> c < d
    ensures DigitOf(c) == DigitOf(d) <==> c == d
  {
  }

  /** Fixed-width numbers sort as texts as they do as numbers. */
  lemma {:induction false} PadOrder(n: nat, m: nat, width: nat)
    requires n < Pow10(width) && m < Pow10(width)
    ensures Less(Pad(n, width), Pad(m, width)) <==> n < m
    ensures Pad(n, width) == Pad(m, width) <==> n == m
  {
    if width > 0 {
      PadOrder(n / 10, m / 10, width - 1);
      LessAfter(Pad(n / 10, width - 1), [DigitOf(n % 10)], Pad(m / 10, width - 1), [DigitOf(m % 10)]);
      DigitOrder(n % 10, m % 10);
      assert Pad(n, width) == Pad(m, width) <==> Pad(n / 10, width - 1) == Pad(m / 10, width - 1) && DigitOf(n % 10) == DigitOf(m % 10) by {
        assert Pad(n, width)[..width - 1] == Pad(n / 10, width - 1) && Pad(m, width)[..width - 1] == Pad(m / 10, width - 1);
        assert Pad(n, width)[width - 1] == DigitOf(n % 10) && Pad(m, width)[width - 1] == DigitOf(m % 10);
      }
    }
  }

  lemma Widths()
    ensures Pow10(2) == 100 && Pow10(4) == 10000 && Pow10(6) == 1000000
  {
    assert Pow10(1) == 10 && Pow10(3) == 1000 && Pow10(5) == 100000;
  }

  // Three fields of fixed width with a separator between them.
  lemma ThreeFields(a: nat, b: nat, c: nat, x: nat, y: nat, z: nat, width: nat, sep: string)
    requires a < Pow10(width) && x < Pow10(width) && b < 100 && c < 100 && y < 100 && z < 100
    ensures Less(Pad(a, width) + sep + Pad(b, 2) + sep + Pad(c, 2), Pad(x, width) + sep + Pad(y, 2) + sep + Pad(z, 2))
            <==> a < x || (a == x && (b < y || (b == y && c < z)))
    ensures Pad(a, width) + sep + Pad(b, 2) + sep + Pad(c, 2) == Pad(x, width) + sep + Pad(y, 2) + sep + Pad(z, 2)
            <==> a == x && b == y && c == z
  {
    hide Less, Pad, Pow10;
    Widths();
    var A, B, C, X, Y, Z := Pad(a, width), Pad(b, 2), Pad(c, 2), Pad(x, width), Pad(y, 2), Pad(z, 2);
    PadOrder(a, x, width);
    PadOrder(b, y, 2);
    PadOrder(c, z, 2);
    ThreeTexts(A, B, C, X, Y, Z, sep);
  }

  lemma ThreeTexts(a: string, b: string, c: string, x: string, y: string, z: string, sep: string)
    requires |a| == |x| && |b| == |y|
    ensures Less(a + sep + b + sep + c, x + sep + y + sep + z) <==> Less(a, x) || (a == x && (Less(b, y) || (b == y && Less(c, z))))
    ensures a + sep + b + sep + c == x + sep + y + sep + z <==> a == x && b == y && c == z
  {
    hide Less;
    Joined(a, b, x, y, sep);
    Joined(a + sep + b, c, x + sep + y, z, sep);
  }

  lemma Joined(a: string, b: string, x: string, y: string, sep: string)
    requires |a| == |x|
    ensures Less(a + sep + b, x + sep + y) <==> Less(a, x) || (a == x && Less(b, y))
    ensures a + sep + b == x + sep + y <==> a == x && b == y
  {
    assert a + sep + b == a + (sep + b) && x + sep + y == x + (sep + y);
    LessAfter(a, sep + b, x, sep + y);
    LessAfter(sep, b, sep, y);
    LessIrreflexive(sep);
    if a + (sep + b) == x + (sep + y) {
      assert (a + (sep + b))[..|a|] == a && (x + (sep + y))[..|a|] == x;
      assert (a + (sep + b))[|a| + |sep|..] == b && (x + (sep + y))[|a| + |sep|..] == y;
    }
  }

  /** A missing fraction sorts before every fraction: '+' comes before '.'. */
  lemma TailOrder(u: nat, v: nat)
    requires u < 1000000 && v < 1000000
    ensures Less(Tail(u), Tail(v)) <==> u < v
    ensures Tail(u) == Tail(v) <==> u == v
  {
    Widths();
    PadOrder(u, v, 6);
    LessIrreflexive("+00:00");
    var zone := "+00:00";
    if u > 0 && v > 0 {
      assert Tail(u) == "." + (Pad(u, 6) + zone) && Tail(v) == "." + (Pad(v, 6) + zone);
      LessAfter(".", Pad(u, 6) + zone, ".", Pad(v, 6) + zone);
      LessAfter(Pad(u, 6), zone, Pad(v, 6), zone);
      LessIrreflexive(".");
      assert Tail(u)[1..7] == Pad(u, 6) && Tail(v)[1..7] == Pad(v, 6);
    } else {
      assert Tail(0) == zone && zone[0] == '+';
      if u > 0 {
        assert Tail(u)[0] == '.';
      }
      if v > 0 {
        assert Tail(v)[0] == '.';
      }
    }
  }

  // Order of instants, field by field.
  predicate Earlier(x: Utc, y: Utc) {
    || DateBefore(x, y)
    || (x.(hour := 0, minute := 0, second := 0, micro := 0) == y.(hour := 0, minute := 0, second := 0, micro := 0)
        && (x.hour < y.hour || (x.hour == y.hour && (x.minute < y.minute || (x.minute == y.minute
            && (x.second < y.second || (x.second == y.second && x.micro < y.micro)))))))
  }

  lemma EarlierIsLess(x: Utc, y: Utc)
    requires Valid(x) && Valid(y) && Earlier(x, y)
    ensures Micros(x) < Micros(y)
  {
    if DateBefore(x, y) {
      DaysGrow(x, y);
    }
    SecondsOrder(Day(x), x.hour, x.minute, x.second, Day(y), y.hour, y.minute, y.second);
  }

  lemma SecondsOrder(d: nat, h: nat, m: nat, s: nat, e: nat, i: nat, n: nat, t: nat)
    requires h < 24 && m < 60 && s < 60 && i < 24 && n < 60 && t < 60
    ensures d < e || (d == e && (h < i || (h == i && (m < n || (m == n && s < t))))) ==>
              ((d * 24 + h) * 60 + m) * 60 + s < ((e * 24 + i) * 60 + n) * 60 + t
  {
  }

  lemma EarlierTotal(x: Utc, y: Utc)
    ensures Earlier(x, y) || Earlier(y, x) || x == y
  {
  }

  /** On one scale of microseconds the order is the same. */
  lemma EarlierIffLess(x: Utc, y: Utc)
    requires Valid(x) && Valid(y)
    ensures Earlier(x, y) <==> Micros(x) < Micros(y)
    ensures x == y <==> Micros(x) == Micros(y)
  {
    EarlierTotal(x, y);
    if Earlier(x, y) {
      EarlierIsLess(x, y);
    } else if Earlier(y, x) {
      EarlierIsLess(y, x);
    }
  }

  lemma TextEarlier(x: Utc, y: Utc)
    requires Valid(x) && Valid(y)
    ensures Less(Text(x), Text(y)) <==> Earlier(x, y)
  {
    hide Earlier, Less, Pad, Tail;
    Widths();
    ThreeFields(x.year, x.month, x.day, y.year, y.month, y.day, 4, "-");
    ThreeFields(x.hour, x.minute, x.second, y.hour, y.minute, y.second, 2, ":");
    TailOrder(x.micro, y.micro);
    Joined(Date(x), Clock(x) + Tail(x.micro), Date(y), Clock(y) + Tail(y.micro), "T");
    LessAfter(Clock(x), Tail(x.micro), Clock(y), Tail(y.micro));
    assert Text(x) == Date(x) + "T" + (Clock(x) + Tail(x.micro));
    assert Text(y) == Date(y) + "T" + (Clock(y) + Tail(y.micro));
    FieldOrder(x, y);
  }

  lemma FieldOrder(x: Utc, y: Utc)
    ensures Earlier(x, y) <==>
              DateBefore(x, y) || (x.year == y.year && x.month == y.month && x.day == y.day
              && (x.hour < y.hour || (x.hour == y.hour && (x.minute < y.minute || (x.minute == y.minute
                  && (x.second < y.second || (x.second == y.second && x.micro < y.micro)))))))
  {
  }

  /** Stored timestamps sort chronologically: for UTC datetimes the order of the texts is the order of the instants,
      and equal texts are equal instants. */
  lemma TextOrderIsTimeOrder(x: Utc, y: Utc)
    requires Valid(x) && Valid(y)
    ensures Less(Text(x), Text(y)) <==> Micros(x) < Micros(y)
    ensures Text(x) == Text(y) <==> Micros(x) == Micros(y)
  {
    TextEarlier(x, y);
    TextEarlier(y, x);
    EarlierIffLess(x, y);
    EarlierIffLess(y, x);
    LessTotal(Text(x), Text(y));
    hide Micros, Less;
  }

  lemma {:induction false} PadReads(n: nat, width: nat)
    requires n < Pow10(width)
    ensures AllDigits(Pad(n, width)) && Number(Pad(n, width)) == n
  {
    if width > 0 {
      PadReads(n / 10, width - 1);
      NumberAppend(Pad(n / 10, width - 1), n % 10);
    }
  }

  // The digits at these places of a text, read as a number.
  ghost predicate Reads(s: string, from: nat, to: nat, n: nat) {
    from <= to <= |s| && AllDigits(s[from..to]) && Number(s[from..to]) == n
  }

  lemma FieldReads(front: string, n: nat, width: nat, rest: string)
    requires n < Pow10(width)
    ensures Reads(front + Pad(n, width) + rest, |front|, |front| + width, n)
  {
    PadReads(n, width);
    var s := front + Pad(n, width) + rest;
    assert s[|front|..|front| + width] == Pad(n, width);
  }

  /** The text of a moment reads back as its fields: year, month and day, then hour, minute and second, and six digits of
      fraction exactly if there is one. */
  lemma TextReads(t: Utc)
    requires Valid(t)
    ensures Text(t) == Date(t) + "T" + Clock(t) + Tail(t.micro)
    ensures Reads(Date(t), 0, 4, t.year) && Reads(Date(t), 5, 7, t.month) && Reads(Date(t), 8, 10, t.day)
    ensures Date(t)[4] == '-' == Date(t)[7]
    ensures Reads(Clock(t), 0, 2, t.hour) && Reads(Clock(t), 3, 5, t.minute) && Reads(Clock(t), 6, 8, t.second)
    ensures Clock(t)[2] == ':' == Clock(t)[5]
    ensures t.micro == 0 ==> Tail(t.micro) == "+00:00"
    ensures t.micro != 0 ==> exists fraction :: Tail(t.micro) == "." + fraction + "+00:00" && |fraction| == 6 && Reads(fraction, 0, 6, t.micro)
  {
    Widths();
    hide Pad, Reads, Pow10;
    ThreeReads(t.year, 4, t.month, t.day, "-");
    ThreeReads(t.hour, 2, t.minute, t.second, ":");
    TailReads(t.micro);
    hide Date, Clock, Text;
  }

  lemma TailReads(micro: nat)
    requires micro < 1000000
    ensures micro != 0 ==> exists fraction :: Tail(micro) == "." + fraction + "+00:00" && |fraction| == 6 && Reads(fraction, 0, 6, micro)
  {
    Widths();
    PadReads(micro, 6);
    var fraction := Pad(micro, 6);
    hide Pad;
    assert fraction[0..6] == fraction;
    assert Reads(fraction, 0, 6, micro);
    if micro != 0 {
      assert Tail(micro) == "." + fraction + "+00:00";
    }
  }

  lemma ThreeReads(a: nat, width: nat, b: nat, c: nat, mark: string)
    requires |mark| == 1 && a < Pow10(width) && b < Pow10(2) && c < Pow10(2)
    ensures var s := Pad(a, width) + mark + Pad(b, 2) + mark + Pad(c, 2);
            && Reads(s, 0, width, a) && Reads(s, width + 1, width + 3, b) && Reads(s, width + 4, width + 6, c)
            && s[width] == mark[0] == s[width + 3]
  {
    hide Pad, Reads;
    FirstReads(a, width, mark, Pad(b, 2), Pad(c, 2));
    SecondReads(Pad(a, width), mark, b, Pad(c, 2));
    ThirdReads(Pad(a, width), mark, Pad(b, 2), c);
    MarksAt(Pad(a, width), mark, Pad(b, 2), Pad(c, 2));
  }

  lemma FirstReads(a: nat, width: nat, mark: string, b: string, c: string)
    requires a < Pow10(width)
    ensures Reads(Pad(a, width) + mark + b + mark + c, 0, width, a)
  {
    FieldReads("", a, width, mark + b + mark + c);
    hide Pad, Reads;
    assert "" + Pad(a, width) + (mark + b + mark + c) == Pad(a, width) + mark + b + mark + c;
  }

  lemma SecondReads(a: string, mark: string, b: nat, c: string)
    requires |mark| == 1 && b < Pow10(2)
    ensures Reads(a + mark + Pad(b, 2) + mark + c, |a| + 1, |a| + 3, b)
  {
    FieldReads(a + mark, b, 2, mark + c);
    hide Pad, Reads;
    assert a + mark + Pad(b, 2) + (mark + c) == a + mark + Pad(b, 2) + mark + c;
  }

  lemma ThirdReads(a: string, mark: string, b: string, c: nat)
    requires |mark| == 1 && |b| == 2 && c < Pow10(2)
    ensures Reads(a + mark + b + mark + Pad(c, 2), |a| + 4, |a| + 6, c)
  {
    FieldReads(a + mark + b + mark, c, 2, "");
    hide Pad, Reads;
    assert a + mark + b + mark + Pad(c, 2) + "" == a + mark + b + mark + Pad(c, 2);
  }

  lemma MarksAt(a: string, mark: string, b: string, c: string)
    requires |mark| == 1 && |b| == 2
    ensures var s := a + mark + b + mark + c;
            |a| + 3 < |s| && s[|a|] == mark[0] == s[|a| + 3]
  {
  }

  /** The scale: a microsecond, a second and a day apart, across the ends of months and years. */
  lemma MicrosApart(t: Utc)
    requires Valid(t)
    ensures t.micro + 1 < 1000000 ==> Micros(t.(micro := t.micro + 1)) == Micros(t) + 1
    ensures t.second + 1 < 60 ==> Micros(t.(second := t.second + 1)) == Micros(t) + 1000000
    ensures t.day < DaysIn(t.year, t.month) ==> Micros(t.(day := t.day + 1)) == Micros(t) + 86400000000
    ensures t.day == DaysIn(t.year, t.month) && t.month < 12 ==> Micros(t.(month := t.month + 1, day := 1)) == Micros(t) + 86400000000
    ensures t.day == 31 && t.month == 12 ==> Micros(t.(year := t.year + 1, month := 1, day := 1)) == Micros(t) + 86400000000
  {
    YearSum(t.year);
  }
}
