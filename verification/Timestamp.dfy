/** The timestamp encoder of scripts/verify-action-transcript-v1.py: an RFC 3339 UTC
    text becomes (seconds, nanoseconds). Its calendar arithmetic is that of
    calendar.timegm, which rejects years and months out of range but not days,
    hours, minutes or seconds. */
module Timestamp {
  import opened Bytes
  import opened Transcript

  /** The fields of the text; `fraction` holds the digits after the point, if any. */
  datatype Instant = Instant(
    year: nat, month: nat, day: nat, hour: nat, minute: nat, second: nat, fraction: string)

  // ----- Decimal digits -----

  predicate IsDigit(c: char) {
    '0' <= c <= '9'
  }

  predicate Digits(s: string) {
    forall i :: 0 <= i < |s| ==> IsDigit(s[i])
  }

  function Pow10(n: nat): (p: nat)
    ensures p > 0
  {
    if n == 0 then 1 else 10 * Pow10(n - 1)
  }

  function Number(s: string): (n: nat)
    requires Digits(s)
    ensures n < Pow10(|s|)
  {
    if s == [] then 0 else 10 * Number(s[..|s| - 1]) + (s[|s| - 1] as nat - '0' as nat)
  }

  // ----- Reading the text -----

  /** The regular expression of the source, for ASCII digits. */
  function Parse(t: string): Option<Instant> {
    if |t| < 20 || t[4] != '-' || t[7] != '-' || t[10] != 'T' || t[13] != ':' || t[16] != ':' then None
    else if !(Digits(t[..4]) && Digits(t[5..7]) && Digits(t[8..10]) && Digits(t[11..13]) && Digits(t[14..16]) && Digits(t[17..19])) then None
    else
      var fraction := if t[19] == '.' && |t| > 20 then t[20..|t| - 1] else [];
      if t[|t| - 1] != 'Z' || !Digits(fraction) then None
      else if (t[19] == '.' && 1 <= |fraction| <= 9) || |t| == 20 then
        Some(Instant(Number(t[..4]), Number(t[5..7]), Number(t[8..10]), Number(t[11..13]), Number(t[14..16]), Number(t[17..19]), fraction))
      else None
  }

  // ----- The calendar -----

  predicate Leap(y: nat) {
    y % 4 == 0 && (y % 100 != 0 || y % 400 == 0)
  }

  function DaysInMonth(y: nat, m: nat): nat {
    if m == 2 then (if Leap(y) then 29 else 28) else if m == 4 || m == 6 || m == 9 || m == 11 then 30 else 31
  }

  function DaysBeforeYear(y: nat): int {
    (y - 1) * 365 + (y - 1) / 4 - (y - 1) / 100 + (y - 1) / 400
  }

  function DaysBeforeMonth(y: nat, m: nat): nat
    requires m >= 1
  {
    if m == 1 then 0 else DaysBeforeMonth(y, m - 1) + DaysInMonth(y, m - 1)
  }

  /** Days since 1 January 1970, for the first of the month plus any day number. */
  function EpochDay(i: Instant): int
    requires 1 <= i.month
  {
    DaysBeforeYear(i.year) + DaysBeforeMonth(i.year, i.month) + 1 - 719163 + i.day - 1
  }

  function Seconds(i: Instant): int
    requires 1 <= i.month
  {
    ((EpochDay(i) * 24 + i.hour) * 60 + i.minute) * 60 + i.second
  }

  /** What datetime.date accepts. */
  predicate Accepted(i: Instant) {
    1 <= i.year <= 9999 && 1 <= i.month <= 12
  }

  /** A day of the proleptic Gregorian calendar and a time of day. */
  predicate Valid(i: Instant) {
    && 1 <= i.month <= 12 && 1 <= i.day <= DaysInMonth(i.year, i.month)
    && i.hour < 24 && i.minute < 60 && i.second < 60
    && Digits(i.fraction) && |i.fraction| <= 9
  }

  // ----- The fraction -----

  /** ljust(9, "0"). */
  function Padded(s: string): (r: string)
    requires Digits(s) && |s| <= 9
    ensures Digits(r) && |r| == 9
    decreases 9 - |s|
  {
    if |s| == 9 then s else Padded(s + ['0'])
  }

  function Nanos(s: string): nat
    requires Digits(s) && |s| <= 9
  {
    Number(Padded(s))
  }

  lemma NumberZero(s: string)
    requires Digits(s)
    ensures Number(s + ['0']) == 10 * Number(s)
  {
    assert (s + ['0'])[..|s|] == s;
  }

  lemma {:induction false} PaddingScales(s: string)
    requires Digits(s) && |s| <= 9
    ensures Nanos(s) == Number(s) * Pow10(9 - |s|)
    decreases 9 - |s|
  {
    if |s| < 9 {
      PaddingScales(s + ['0']);
      NumberZero(s);
      Associates(Number(s), 10, Pow10(8 - |s|));
    }
  }

  lemma Associates(a: nat, b: nat, c: nat)
    ensures (b * a) * c == a * (b * c)
  {
  }

  lemma Cancels(a: nat, b: nat, p: nat)
    requires p > 0
    ensures a * p == b * p <==> a == b
  {
    if a < b {
      assert b * p == a * p + (b - a) * p;
      assert (b - a) * p > 0;
    } else if b < a {
      assert a * p == b * p + (a - b) * p;
      assert (a - b) * p > 0;
    }
  }

  lemma {:induction false} Pow10Adds(m: nat, n: nat)
    ensures Pow10(m + n) == Pow10(m) * Pow10(n)
    decreases m
  {
    if m > 0 {
      Pow10Adds(m - 1, n);
      assert Pow10(m + n) == 10 * Pow10(m - 1 + n);
      Regroup(Pow10(m - 1), Pow10(n));
    }
  }

  lemma Regroup(a: nat, b: nat)
    ensures 10 * (a * b) == (10 * a) * b
  {
  }

  /** Padding maps two digit strings together exactly when they denote the same
      fraction: 0.s equals 0.t as rational numbers. */
  lemma SameNanos(s: string, t: string)
    requires Digits(s) && |s| <= 9 && Digits(t) && |t| <= 9
    ensures Nanos(s) == Nanos(t) <==> Number(s) * Pow10(|t|) == Number(t) * Pow10(|s|)
  {
    if |s| <= |t| {
      SameNanosOrdered(s, t);
    } else {
      SameNanosOrdered(t, s);
    }
  }

  lemma SameNanosOrdered(s: string, t: string)
    requires Digits(s) && Digits(t) && |s| <= |t| <= 9
    ensures Nanos(s) == Nanos(t) <==> Number(s) * Pow10(|t|) == Number(t) * Pow10(|s|)
  {
    hide Number, Nanos;
    var k := |t| - |s|;
    var a, b, scale := Number(s), Number(t), Pow10(k);
    PaddingScales(s);
    PaddingScales(t);
    Pow10Adds(k, 9 - |t|);
    Associates(a, scale, Pow10(9 - |t|));
    Cancels(scale * a, b, Pow10(9 - |t|));
    Pow10Adds(k, |s|);
    Associates(a, scale, Pow10(|s|));
    Cancels(scale * a, b, Pow10(|s|));
  }

  // ----- Order -----

  lemma QuartersStep(y: nat)
    ensures y / 4 == (y - 1) / 4 + if y % 4 == 0 then 1 else 0
  {
  }

  lemma CenturiesStep(y: nat)
    ensures y / 100 == (y - 1) / 100 + if y % 100 == 0 then 1 else 0
  {
  }

  lemma CyclesStep(y: nat)
    ensures y / 400 == (y - 1) / 400 + if y % 400 == 0 then 1 else 0
  {
  }

  lemma CycleIsCentury(y: nat)
    ensures y % 400 == 0 ==> y % 100 == 0
  {
    assert y == 100 * (4 * (y / 400)) + y % 400;
  }

  lemma CenturyIsQuarter(y: nat)
    ensures y % 100 == 0 ==> y % 4 == 0
  {
    assert y == 4 * (25 * (y / 100)) + y % 100;
  }

  /** The leap years are exactly the ones that count one more day. */
  lemma LeapDay(y: nat)
    ensures (if Leap(y) then 1 else 0) ==
      (if y % 4 == 0 then 1 else 0) - (if y % 100 == 0 then 1 else 0) + (if y % 400 == 0 then 1 else 0)
  {
    CycleIsCentury(y);
    CenturyIsQuarter(y);
  }

  lemma YearStep(y: nat)
    ensures DaysBeforeYear(y + 1) == DaysBeforeYear(y) + 365 + if Leap(y) then 1 else 0
  {
    QuartersStep(y);
    CenturiesStep(y);
    CyclesStep(y);
    LeapDay(y);
    assert DaysBeforeYear(y + 1) == y * 365 + y / 4 - y / 100 + y / 400;
  }

  lemma {:induction false} YearsClimb(y: nat, z: nat)
    requires y <= z
    ensures DaysBeforeYear(y) <= DaysBeforeYear(z)
    decreases z - y
  {
    if y < z {
      YearStep(y);
      YearsClimb(y + 1, z);
    }
  }

  lemma {:induction false} MonthsClimb(y: nat, m: nat, n: nat)
    requires 1 <= m <= n
    ensures DaysBeforeMonth(y, m) <= DaysBeforeMonth(y, n)
    decreases n - m
  {
    if m < n {
      MonthsClimb(y, m, n - 1);
    }
  }

  lemma YearLength(y: nat)
    ensures DaysBeforeMonth(y, 13) == 365 + if Leap(y) then 1 else 0
  {
    assert DaysBeforeMonth(y, 4) == DaysInMonth(y, 1) + DaysInMonth(y, 2) + DaysInMonth(y, 3) by {
      assert DaysBeforeMonth(y, 2) == DaysBeforeMonth(y, 1) + DaysInMonth(y, 1);
      assert DaysBeforeMonth(y, 3) == DaysBeforeMonth(y, 2) + DaysInMonth(y, 2);
    }
    assert DaysBeforeMonth(y, 7) == DaysBeforeMonth(y, 4) + 91 by {
      assert DaysBeforeMonth(y, 5) == DaysBeforeMonth(y, 4) + 30;
      assert DaysBeforeMonth(y, 6) == DaysBeforeMonth(y, 5) + 31;
    }
    assert DaysBeforeMonth(y, 10) == DaysBeforeMonth(y, 7) + 92 by {
      assert DaysBeforeMonth(y, 8) == DaysBeforeMonth(y, 7) + 31;
      assert DaysBeforeMonth(y, 9) == DaysBeforeMonth(y, 8) + 31;
    }
    assert DaysBeforeMonth(y, 11) == DaysBeforeMonth(y, 10) + 31;
    assert DaysBeforeMonth(y, 12) == DaysBeforeMonth(y, 11) + 30;
  }

  predicate DayBefore(a: Instant, b: Instant) {
    a.year < b.year || (a.year == b.year && (a.month < b.month || (a.month == b.month && a.day < b.day)))
  }

  predicate SameDay(a: Instant, b: Instant) {
    a.year == b.year && a.month == b.month && a.day == b.day
  }

  /** Calendar order, field by field. */
  predicate Before(a: Instant, b: Instant)
    requires Valid(a) && Valid(b)
  {
    || DayBefore(a, b)
    || (SameDay(a, b) && (a.hour < b.hour || (a.hour == b.hour && (a.minute < b.minute || (a.minute == b.minute
        && (a.second < b.second || (a.second == b.second && Nanos(a.fraction) < Nanos(b.fraction))))))))
  }

  lemma DaysClimb(a: Instant, b: Instant)
    requires Valid(a) && Valid(b) && DayBefore(a, b)
    ensures EpochDay(a) < EpochDay(b)
  {
    hide DaysBeforeYear, DaysInMonth, Leap, Digits;
    assert DaysBeforeMonth(a.year, a.month + 1) == DaysBeforeMonth(a.year, a.month) + DaysInMonth(a.year, a.month);
    if a.year < b.year {
      MonthsClimb(a.year, a.month + 1, 13);
      YearLength(a.year);
      YearStep(a.year);
      YearsClimb(a.year + 1, b.year);
    } else if a.month < b.month {
      MonthsClimb(a.year, a.month + 1, b.month);
    }
  }

  /** The pair the encoder packs, ordered by its first and then its second component. */
  predicate PairBefore(a: Instant, b: Instant)
    requires Valid(a) && Valid(b)
  {
    Seconds(a) < Seconds(b) || (Seconds(a) == Seconds(b) && Nanos(a.fraction) < Nanos(b.fraction))
  }

  lemma Climbs(a: Instant, b: Instant)
    requires Valid(a) && Valid(b) && Before(a, b)
    ensures PairBefore(a, b)
  {
    hide EpochDay, Nanos, Digits, DaysInMonth;
    if DayBefore(a, b) {
      DaysClimb(a, b);
    } else {
      SameDaySameEpoch(a, b);
    }
  }

  lemma SameDaySameEpoch(a: Instant, b: Instant)
    requires Valid(a) && Valid(b) && SameDay(a, b)
    ensures EpochDay(a) == EpochDay(b)
  {
  }

  predicate SameInstant(a: Instant, b: Instant)
    requires Valid(a) && Valid(b)
  {
    SameDay(a, b) && a.hour == b.hour && a.minute == b.minute && a.second == b.second && Nanos(a.fraction) == Nanos(b.fraction)
  }

  /** The (seconds, nanoseconds) pair orders valid instants exactly as the calendar
      does, across month lengths and leap years; equal pairs mean the same instant. */
  lemma OrderPreserved(a: Instant, b: Instant)
    requires Valid(a) && Valid(b)
    ensures Before(a, b) <==> PairBefore(a, b)
    ensures Seconds(a) == Seconds(b) && Nanos(a.fraction) == Nanos(b.fraction) <==> SameInstant(a, b)
  {
    hide Seconds, Nanos, Digits, DaysInMonth;
    if Before(a, b) {
      Climbs(a, b);
    } else if Before(b, a) {
      Climbs(b, a);
    } else {
      SameSeconds(a, b);
    }
  }

  lemma SameSeconds(a: Instant, b: Instant)
    requires Valid(a) && Valid(b)
    ensures SameInstant(a, b) ==> Seconds(a) == Seconds(b)
  {
    if SameInstant(a, b) {
      SameDaySameEpoch(a, b);
    }
  }

  // ----- The packed stamp -----

  lemma SecondsFit(i: Instant)
    requires Accepted(i) && i.day <= 99 && i.hour <= 99 && i.minute <= 99 && i.second <= 99
    ensures -TWO63 <= Seconds(i) < TWO63
  {
    YearsClimb(1, i.year);
    YearsClimb(i.year, 9999);
    MonthsClimb(i.year, 1, i.month);
    MonthsClimb(i.year, i.month, 13);
    YearLength(i.year);
    assert DaysBeforeYear(1) == 0;
    assert DaysBeforeYear(9999) < 4_000_000;
    hide DaysBeforeYear, DaysBeforeMonth;
  }

  /** Equal stamps in a transcript mean the same instant. */
  lemma StampsDiffer(a: Instant, b: Instant)
    requires Accepted(a) && Valid(a) && Accepted(b) && Valid(b)
    ensures Packs(Time(Seconds(a), Nanos(a.fraction))) && Packs(Time(Seconds(b), Nanos(b.fraction)))
    ensures Encode(Time(Seconds(a), Nanos(a.fraction))) == Encode(Time(Seconds(b), Nanos(b.fraction))) <==> SameInstant(a, b)
  {
    hide Seconds, Encode, Number, TakeTime;
    SecondsFit(a);
    SecondsFit(b);
    NanosFit(a.fraction);
    NanosFit(b.fraction);
    OrderPreserved(a, b);
    TakesTime(Seconds(a), Nanos(a.fraction), []);
    TakesTime(Seconds(b), Nanos(b.fraction), []);
  }

  lemma NanosFit(s: string)
    requires Digits(s) && |s| <= 9
    ensures Nanos(s) < Capacity(4)
  {
    CapacityOf4();
    assert Pow10(9) == 1_000_000_000 by {
      assert Pow10(3) == 1000;
      Pow10Adds(3, 3);
      Pow10Adds(6, 3);
    }
  }

  // ----- Fields beyond their range -----

  /** Seconds carry into minutes, minutes into hours, hours into days. */
  function CarryTime(i: Instant): Instant {
    var minute := i.minute + i.second / 60;
    var hour := i.hour + minute / 60;
    i.(second := i.second % 60, minute := minute % 60, hour := hour % 24, day := i.day + hour / 24)
  }

  function NextMonth(i: Instant): Instant {
    if i.month < 12 then i.(month := i.month + 1) else i.(year := i.year + 1, month := 1)
  }

  /** Days beyond the end of a month carry into the next; day 0 is the last of the month before. */
  function CarryDay(i: Instant): Instant
    requires 1 <= i.month <= 12 && (i.year >= 1 || i.day >= 1)
    decreases i.day
  {
    if i.day == 0 then
      if i.month > 1 then i.(month := i.month - 1, day := DaysInMonth(i.year, i.month - 1))
      else i.(year := i.year - 1, month := 12, day := 31)
    else if i.day <= DaysInMonth(i.year, i.month) then i
    else CarryDay(NextMonth(i).(day := i.day - DaysInMonth(i.year, i.month)))
  }

  function Carried(i: Instant): Instant
    requires Accepted(i)
  {
    CarryDay(CarryTime(i))
  }

  /** The last day of a month is the day before the first of the next. */
  lemma MonthEnd(i: Instant)
    requires 1 <= i.month <= 12
    ensures DaysBeforeYear(NextMonth(i).year) + DaysBeforeMonth(NextMonth(i).year, NextMonth(i).month) ==
      DaysBeforeYear(i.year) + DaysBeforeMonth(i.year, i.month) + DaysInMonth(i.year, i.month)
  {
    hide DaysBeforeYear, Leap;
    if i.month == 12 {
      YearStep(i.year);
      YearLength(i.year);
      assert DaysBeforeMonth(i.year, 13) == DaysBeforeMonth(i.year, 12) + DaysInMonth(i.year, 12);
    }
  }

  lemma {:induction false} CarryDayKeeps(i: Instant)
    requires 1 <= i.month <= 12 && (i.year >= 1 || i.day >= 1)
    ensures
      var c := CarryDay(i);
      && c == i.(year := c.year, month := c.month, day := c.day)
      && 1 <= c.month <= 12 && 1 <= c.day <= DaysInMonth(c.year, c.month) && EpochDay(c) == EpochDay(i)
    decreases i.day
  {
    hide DaysBeforeYear, DaysBeforeMonth, Leap;
    if i.day == 0 {
      var last := if i.month > 1 then i.(month := i.month - 1) else i.(year := i.year - 1, month := 12);
      MonthEnd(last);
    } else if i.day > DaysInMonth(i.year, i.month) {
      MonthEnd(i);
      CarryDayKeeps(NextMonth(i).(day := i.day - DaysInMonth(i.year, i.month)));
    }
  }

  lemma CarryTimeKeeps(i: Instant)
    requires 1 <= i.month
    ensures
      var c := CarryTime(i);
      && c == i.(hour := c.hour, minute := c.minute, second := c.second, day := c.day)
      && c.hour < 24 && c.minute < 60 && c.second < 60 && Seconds(c) == Seconds(i)
  {
    hide DaysBeforeYear, DaysBeforeMonth;
    var c := CarryTime(i);
    assert EpochDay(c) - EpochDay(i) == c.day - i.day;
  }

  /** Every accepted instant stamps as the valid instant that its fields carry into. */
  lemma CarriedStamps(i: Instant)
    requires Accepted(i) && Digits(i.fraction) && |i.fraction| <= 9
    ensures Valid(Carried(i)) && Seconds(Carried(i)) == Seconds(i) && Carried(i).fraction == i.fraction
  {
    hide DaysBeforeYear, DaysBeforeMonth, DaysInMonth, CarryDay, CarryTime, Digits;
    CarryTimeKeeps(i);
    CarryDayKeeps(CarryTime(i));
  }

  /** Valid instants carry into themselves. */
  lemma ValidStays(i: Instant)
    requires Accepted(i) && Valid(i)
    ensures Carried(i) == i
  {
    hide DaysInMonth, Digits, CarryTime;
    TimeStays(i);
  }

  lemma TimeStays(i: Instant)
    requires i.hour < 24 && i.minute < 60 && i.second < 60
    ensures CarryTime(i) == i
  {
  }

  /** So two accepted instants, valid or not, share a stamp exactly when they carry into
      the same instant. */
  lemma StampsMeet(a: Instant, b: Instant)
    requires Accepted(a) && Digits(a.fraction) && |a.fraction| <= 9
    requires Accepted(b) && Digits(b.fraction) && |b.fraction| <= 9
    ensures Valid(Carried(a)) && Valid(Carried(b))
    ensures Seconds(a) == Seconds(b) && Nanos(a.fraction) == Nanos(b.fraction) <==> SameInstant(Carried(a), Carried(b))
  {
    hide Seconds, Carried, Nanos, Digits, DaysInMonth;
    CarriedStamps(a);
    CarriedStamps(b);
    OrderPreserved(Carried(a), Carried(b));
  }

  // ----- Seconds count the ticks of the calendar -----

  /** The last day of a month, from the table of months and the rule of 4, 100 and 400. */
  function LastDay(year: nat, month: nat): nat
    requires 1 <= month <= 12
  {
    if month == 2 && (year % 400 == 0 || (year % 4 == 0 && year % 100 != 0)) then 29
    else [31, 28, 31, 30, 31, 30, 31, 31, 30, 31, 30, 31][month - 1]
  }

  /** One tick of clock and calendar, on the fields alone. */
  function NextSecond(i: Instant): Instant
    requires 1 <= i.month <= 12
  {
    if i.second < 59 then i.(second := i.second + 1)
    else if i.minute < 59 then i.(second := 0, minute := i.minute + 1)
    else if i.hour < 23 then i.(second := 0, minute := 0, hour := i.hour + 1)
    else
      var midnight := i.(second := 0, minute := 0, hour := 0);
      if i.day < LastDay(i.year, i.month) then midnight.(day := i.day + 1)
      else if i.month < 12 then midnight.(day := 1, month := i.month + 1)
      else midnight.(day := 1, month := 1, year := i.year + 1)
  }

  lemma LastDayIsExact(year: nat, month: nat)
    requires 1 <= month <= 12
    ensures LastDay(year, month) == DaysInMonth(year, month)
  {
    CycleIsCentury(year);
    CenturyIsQuarter(year);
  }

  lemma EpochYear()
    ensures DaysBeforeYear(1970) == 719162 && DaysBeforeMonth(1970, 1) == 0
  {
    assert 1969 / 4 == 492 && 1969 / 100 == 19 && 1969 / 400 == 4;
  }

  lemma StartIsZero(fraction: string)
    requires Digits(fraction) && |fraction| <= 9
    ensures
      var start := Instant(1970, 1, 1, 0, 0, 0, fraction);
      Valid(start) && Seconds(start) == 0
  {
    hide DaysBeforeYear, DaysBeforeMonth;
    EpochYear();
    var start := Instant(1970, 1, 1, 0, 0, 0, fraction);
    assert EpochDay(start) == 0;
  }

  lemma TickCounts(i: Instant)
    requires Valid(i)
    ensures Valid(NextSecond(i)) && Seconds(NextSecond(i)) == Seconds(i) + 1
  {
    hide DaysBeforeYear, DaysBeforeMonth, DaysInMonth, LastDay, Digits;
    LastDayIsExact(i.year, i.month);
    MonthEnd(i);
    var n := NextSecond(i);
    if i.second == 59 && i.minute == 59 && i.hour == 23 {
      SomeDays(n.year, n.month);
      assert EpochDay(n) == EpochDay(i) + 1;
    } else {
      SameDayEpoch(i, n);
    }
  }

  lemma SameDayEpoch(a: Instant, b: Instant)
    requires a.month >= 1 && SameDay(a, b)
    ensures EpochDay(a) == EpochDay(b)
  {
  }

  lemma SomeDays(year: nat, month: nat)
    ensures DaysInMonth(year, month) >= 28
  {
  }

  function After(i: Instant, ticks: nat): (r: Instant)
    requires Valid(i)
    ensures Valid(r) && Seconds(r) == Seconds(i) + ticks && r.fraction == i.fraction
    decreases ticks
  {
    if ticks == 0 then i else
    TickCounts(i);
    After(NextSecond(i), ticks - 1)
  }

  /** `Seconds` is the number of ticks between 1 January 1970 and the instant, negative
      before it. */
  lemma SecondsCountTicks(i: Instant)
    requires Valid(i)
    ensures
      var start := Instant(1970, 1, 1, 0, 0, 0, i.fraction);
      Valid(start) && if Seconds(i) >= 0 then After(start, Seconds(i)) == i else After(i, -Seconds(i)) == start
  {
    hide Seconds, After, Nanos, Digits, DaysInMonth;
    var start := Instant(1970, 1, 1, 0, 0, 0, i.fraction);
    StartIsZero(i.fraction);
    if Seconds(i) >= 0 {
      OrderPreserved(After(start, Seconds(i)), i);
    } else {
      OrderPreserved(After(i, -Seconds(i)), start);
    }
  }

  // ----- From text to stamp -----

  /** `n` in exactly `width` digits. */
  function Fixed(n: nat, width: nat): (s: string)
    ensures |s| == width && Digits(s)
  {
    if width == 0 then [] else Fixed(n / 10, width - 1) + ["0123456789"[n % 10]]
  }

  lemma {:induction false} FixedIsNumber(s: string)
    requires Digits(s)
    ensures Fixed(Number(s), |s|) == s
    decreases |s|
  {
    if s != [] {
      var front, c := s[..|s| - 1], s[|s| - 1];
      assert s == front + [c];
      FixedIsNumber(front);
      NumberEndsIn(s);
      LastDigit(Number(front), c);
      FixedEndsIn(Number(s), |s|);
      hide Number, Fixed;
    }
  }

  lemma NumberEndsIn(s: string)
    requires Digits(s) && s != []
    ensures '0' <= s[|s| - 1] <= '9'
    ensures Number(s) == 10 * Number(s[..|s| - 1]) + (s[|s| - 1] as nat - '0' as nat)
  {
  }

  lemma LastDigit(m: nat, c: char)
    requires '0' <= c <= '9'
    ensures
      var d := c as nat - '0' as nat;
      (10 * m + d) / 10 == m && (10 * m + d) % 10 == d && "0123456789"[d] == c
  {
  }

  lemma FixedEndsIn(n: nat, width: nat)
    ensures width > 0 ==> Fixed(n, width) == Fixed(n / 10, width - 1) + ["0123456789"[n % 10]]
  {
  }

  /** The text of an instant. */
  function Format(i: Instant): string {
    Fixed(i.year, 4) + "-" + Fixed(i.month, 2) + "-" + Fixed(i.day, 2) + "T" + Fixed(i.hour, 2) + ":" + Fixed(i.minute, 2)
    + ":" + Fixed(i.second, 2) + (if i.fraction == [] then [] else "." + i.fraction) + "Z"
  }

  /** The date and time at the front of the text. */
  lemma HeadRebuilt(t: string)
    requires |t| >= 20 && t[4] == '-' && t[7] == '-' && t[10] == 'T' && t[13] == ':' && t[16] == ':'
    ensures t == t[..4] + "-" + t[5..7] + "-" + t[8..10] + "T" + t[11..13] + ":" + t[14..16] + ":" + t[17..19] + t[19..]
  {
    assert t[..8] == t[..4] + "-" + t[5..7] + "-";
    assert t[8..14] == t[8..10] + "T" + t[11..13] + ":";
    assert t[14..] == t[14..16] + ":" + t[17..19] + t[19..];
    assert t == t[..8] + t[8..14] + t[14..];
  }

  /** The fraction and the closing letter. */
  lemma TailRebuilt(t: string, fraction: string)
    requires |t| >= 20 && t[|t| - 1] == 'Z'
    requires if |t| == 20 then fraction == [] else t[19] == '.' && |t| > 21 && fraction == t[20..|t| - 1]
    ensures t[19..] == (if fraction == [] then [] else "." + fraction) + "Z"
  {
  }

  /** The fields of an accepted text, in digits, are the text's own. */
  lemma FieldsRebuilt(t: string)
    ensures Parse(t).Some? ==>
      var i := Parse(t).value;
      && Fixed(i.year, 4) == t[..4] && Fixed(i.month, 2) == t[5..7] && Fixed(i.day, 2) == t[8..10]
      && Fixed(i.hour, 2) == t[11..13] && Fixed(i.minute, 2) == t[14..16] && Fixed(i.second, 2) == t[17..19]
  {
    if Parse(t).Some? {
      hide Number, Fixed, Digits;
      FixedIsNumber(t[..4]);
      FixedIsNumber(t[5..7]);
      FixedIsNumber(t[8..10]);
      FixedIsNumber(t[11..13]);
      FixedIsNumber(t[14..16]);
      FixedIsNumber(t[17..19]);
    }
  }

  /** Reading loses nothing: an accepted text is the text of the instant read from it,
      so different texts read as different fields. */
  lemma ParseIsExact(t: string)
    ensures Parse(t).Some? ==> t == Format(Parse(t).value)
  {
    if Parse(t).Some? {
      hide Number, Fixed, Digits;
      FieldsRebuilt(t);
      HeadRebuilt(t);
      TailRebuilt(t, Parse(t).value.fraction);
      Joined(Parse(t).value);
    }
  }

  lemma Joined(i: Instant)
    ensures
      var tail := if i.fraction == [] then [] else "." + i.fraction;
      Fixed(i.year, 4) + "-" + Fixed(i.month, 2) + "-" + Fixed(i.day, 2) + "T" + Fixed(i.hour, 2) + ":"
      + Fixed(i.minute, 2) + ":" + Fixed(i.second, 2) + (tail + "Z") == Format(i)
  {
    hide Fixed;
  }

  lemma {:induction false} NumberIsFixed(n: nat, width: nat)
    ensures n < Pow10(width) ==> Number(Fixed(n, width)) == n
    decreases width
  {
    if width > 0 {
      NumberIsFixed(n / 10, width - 1);
      var s := Fixed(n, width);
      assert s[..width - 1] == Fixed(n / 10, width - 1);
    }
  }

  lemma FormatShape(i: Instant)
    ensures
      var f := Format(i);
      var tail := (if i.fraction == [] then [] else "." + i.fraction) + "Z";
      && |f| == 19 + |tail| && f[19..] == tail
      && f[..4] == Fixed(i.year, 4) && f[4] == '-' && f[5..7] == Fixed(i.month, 2) && f[7] == '-'
      && f[8..10] == Fixed(i.day, 2) && f[10] == 'T' && f[11..13] == Fixed(i.hour, 2) && f[13] == ':'
      && f[14..16] == Fixed(i.minute, 2) && f[16] == ':' && f[17..19] == Fixed(i.second, 2)
  {
    hide Fixed;
    var f := Format(i);
    var date := Fixed(i.year, 4) + "-" + Fixed(i.month, 2) + "-" + Fixed(i.day, 2) + "T";
    var time := Fixed(i.hour, 2) + ":" + Fixed(i.minute, 2) + ":" + Fixed(i.second, 2);
    var tail := (if i.fraction == [] then [] else "." + i.fraction) + "Z";
    assert f == date + time + tail;
    assert f[..11] == date;
    assert f[11..19] == time;
    assert date[..4] == Fixed(i.year, 4) && date[5..7] == Fixed(i.month, 2) && date[8..10] == Fixed(i.day, 2);
    assert time[..2] == Fixed(i.hour, 2) && time[3..5] == Fixed(i.minute, 2) && time[6..8] == Fixed(i.second, 2);
  }

  lemma FieldsReadBack(i: Instant)
    requires i.year < 10000 && i.month < 100 && i.day < 100 && i.hour < 100 && i.minute < 100 && i.second < 100
    ensures Number(Fixed(i.year, 4)) == i.year && Number(Fixed(i.month, 2)) == i.month && Number(Fixed(i.day, 2)) == i.day
    ensures Number(Fixed(i.hour, 2)) == i.hour && Number(Fixed(i.minute, 2)) == i.minute && Number(Fixed(i.second, 2)) == i.second
  {
    assert Pow10(1) == 10 && Pow10(2) == 100 && Pow10(3) == 1000 && Pow10(4) == 10000;
    NumberIsFixed(i.year, 4);
    NumberIsFixed(i.month, 2);
    NumberIsFixed(i.day, 2);
    NumberIsFixed(i.hour, 2);
    NumberIsFixed(i.minute, 2);
    NumberIsFixed(i.second, 2);
  }

  /** Writing loses nothing either: fields that fit their widths are read back. */
  lemma FormatParses(i: Instant)
    requires i.year < 10000 && i.month < 100 && i.day < 100 && i.hour < 100 && i.minute < 100 && i.second < 100
    requires Digits(i.fraction) && |i.fraction| <= 9
    ensures Parse(Format(i)) == Some(i)
  {
    FormatShape(i);
    FieldsReadBack(i);
    hide Number, Fixed, Pow10, Format, Digits;
    var f := Format(i);
    if i.fraction != [] {
      assert f[19..][1..|i.fraction| + 1] == i.fraction;
      assert f[20..|f| - 1] == i.fraction;
      assert f[19] == f[19..][0] == '.';
    }
    assert f[|f| - 1] == f[19..][|f| - 20] == 'Z';
  }

  // ----- Which texts share a stamp -----

  function Trimmed(s: string): string {
    if s != [] && s[|s| - 1] == '0' then Trimmed(s[..|s| - 1]) else s
  }

  lemma {:induction false} PaddedTrims(s: string)
    requires Digits(s) && |s| <= 9
    ensures Trimmed(Padded(s)) == Trimmed(s)
    decreases 9 - |s|
  {
    if |s| < 9 {
      PaddedTrims(s + ['0']);
      assert (s + ['0'])[..|s|] == s;
    }
  }

  lemma {:induction false} TrimmedPads(s: string)
    requires Digits(s) && |s| <= 9
    ensures Digits(Trimmed(s)) && |Trimmed(s)| <= 9 && Padded(Trimmed(s)) == Padded(s)
    decreases |s|
  {
    if s != [] && s[|s| - 1] == '0' {
      var front := s[..|s| - 1];
      TrimmedPads(front);
      assert front + ['0'] == s;
    }
  }

  /** Fractions pad to the same nanoseconds exactly when they differ in trailing zeros only. */
  lemma FractionsMeet(s: string, t: string)
    requires Digits(s) && |s| <= 9 && Digits(t) && |t| <= 9
    ensures Nanos(s) == Nanos(t) <==> Trimmed(s) == Trimmed(t)
  {
    hide Padded, Trimmed, Number, Fixed, Digits;
    PaddedTrims(s);
    PaddedTrims(t);
    TrimmedPads(s);
    TrimmedPads(t);
    FixedIsNumber(Padded(s));
    FixedIsNumber(Padded(t));
  }

  /** The digits that the pattern admits, with their values: the ASCII ones and others, but
      none of the separators. */
  ghost predicate Numerals(d: map<char, nat>) {
    && (forall c :: IsDigit(c) ==> c in d && d[c] == c as nat - '0' as nat)
    && (forall c :: c in d ==> d[c] < 10)
    && (forall c :: c in "-T:.Z" ==> c !in d)
  }

  /** The text with every digit written as the ASCII digit of its value. */
  function Plain(d: map<char, nat>, t: string): (p: string)
    ensures |p| == |t|
  {
    seq(|t|, i requires 0 <= i < |t| => if t[i] in d then "0123456789"[d[t[i]] % 10] else t[i])
  }

  /** The pattern sees the same digits and separators in the plain text, digits keep their
      values, and ASCII texts are plain. */
  lemma PlainMatches(d: map<char, nat>, t: string, i: nat)
    requires Numerals(d) && i < |t|
    ensures IsDigit(Plain(d, t)[i]) <==> t[i] in d
    ensures t[i] in d ==> Plain(d, t)[i] as nat - '0' as nat == d[t[i]]
    ensures forall c :: c in "-T:.Z" ==> (Plain(d, t)[i] == c <==> t[i] == c)
    ensures IsDigit(t[i]) || t[i] !in d ==> Plain(d, t)[i] == t[i]
  {
  }

  /** What the pattern and int make of a text. */
  function Read(d: map<char, nat>, t: string): Option<Instant> {
    Parse(Plain(d, t))
  }

  /** Two texts are read as the same fields exactly when they differ in nothing but which
      digits of one value they use. */
  lemma ReadIsExact(d: map<char, nat>, t: string, u: string)
    ensures Read(d, t).Some? ==> Plain(d, t) == Format(Read(d, t).value)
    ensures Read(d, t).Some? ==> (Read(d, t) == Read(d, u) <==> Plain(d, t) == Plain(d, u))
  {
    hide Plain, Parse, Format;
    ParseIsExact(Plain(d, t));
    ParseIsExact(Plain(d, u));
  }

  predicate Stampable(i: Instant) {
    Accepted(i) && Digits(i.fraction) && |i.fraction| <= 9
  }

  /** timestamp: the packed pair of an accepted text. */
  function StampOf(d: map<char, nat>, t: string): Option<Stamp> {
    var p := Read(d, t);
    if p.Some? && Stampable(p.value) then Some(Stamp(Seconds(p.value), Nanos(p.value.fraction))) else None
  }

  /** The instant a text denotes: its fields carried into the calendar, its fraction
      without trailing zeros. */
  function Denoted(d: map<char, nat>, t: string): Option<Instant> {
    var p := Read(d, t);
    if p.Some? && Stampable(p.value) then Some(Carried(p.value).(fraction := Trimmed(p.value.fraction))) else None
  }

  lemma SameInstantSameCanon(a: Instant, b: Instant)
    requires Valid(a) && Valid(b)
    ensures SameInstant(a, b) <==> a.(fraction := Trimmed(a.fraction)) == b.(fraction := Trimmed(b.fraction))
  {
    hide Trimmed, Nanos, Digits, DaysInMonth;
    FractionsMeet(a.fraction, b.fraction);
  }

  /** Two texts have the same stamp exactly when they denote the same instant, and none
      exactly when they denote none: over all texts, with fields in range or not. */
  lemma TextsShareStamp(d: map<char, nat>, t: string, u: string)
    ensures StampOf(d, t) == StampOf(d, u) <==> Denoted(d, t) == Denoted(d, u)
  {
    hide Read, Seconds, Nanos, Digits, Carried, Trimmed, SameInstant, Valid;
    if StampOf(d, t).Some? && StampOf(d, u).Some? {
      var a, b := Read(d, t).value, Read(d, u).value;
      StampsMeet(a, b);
      CarriedStamps(a);
      CarriedStamps(b);
      SameInstantSameCanon(Carried(a), Carried(b));
    }
  }

  /** The stamp of a text packs into its twelve bytes. */
  lemma TextStampPacks(d: map<char, nat>, t: string)
    ensures StampOf(d, t).Some? ==> Packs(Time(StampOf(d, t).value.seconds, StampOf(d, t).value.nanos))
  {
    if StampOf(d, t).Some? {
      hide Seconds, Fixed, Digits;
      var i := Read(d, t).value;
      FieldsSmall(Plain(d, t));
      SecondsFit(i);
      NanosFit(i.fraction);
    }
  }

  lemma FieldsSmall(t: string)
    ensures Parse(t).Some? ==>
      var i := Parse(t).value;
      i.day <= 99 && i.hour <= 99 && i.minute <= 99 && i.second <= 99
  {
    if Parse(t).Some? {
      hide Digits;
      assert Pow10(1) == 10 && Pow10(2) == 100;
      assert |t[8..10]| == 2 && |t[11..13]| == 2 && |t[14..16]| == 2 && |t[17..19]| == 2;
      hide Number;
    }
  }
}
