/**
 The calendar that `checked_add_months` uses: the proleptic Gregorian calendar from 1970 on, with
 instants counted in microseconds and months from January 1970.

 Days are counted month by month, and `YearStart` shows that this agrees with the closed form
 365 y + leap days. Adding months keeps the day of the month, or takes the last day of a month
 that is too short.
 */
module Calendar {
  import opened Prelude

  const SECOND: nat := 1_000_000
  const DAY: nat := 86_400 * SECOND

  /** The last year a date can have. */
  const LAST_YEAR: nat := 262_142

  predicate Leap(year: nat)
  {
    year % 4 == 0 && (year % 100 != 0 || year % 400 == 0)
  }

  function YearOf(month: nat): nat { 1970 + month / 12 }

  /** How many days a month of a year has; 0 is January. */
  function Length(month: nat, leap: bool): (days: nat)
    ensures 28 <= days <= 31
  {
    if month == 1 then (if leap then 29 else 28)
    else if month == 3 || month == 5 || month == 8 || month == 10 then 30
    else 31
  }

  function DaysIn(month: nat): (days: nat)
    ensures 28 <= days <= 31
  {
    Length(month % 12, Leap(YearOf(month)))
  }

  /** The day a month begins on, counted from 1 January 1970. */
  function MonthStart(month: nat): nat
  {
    if month == 0 then 0 else MonthStart(month - 1) + DaysIn(month - 1)
  }

  /** The month a day falls in, looking from month `from` on. */
  function MonthFrom(day: nat, from: nat): (month: nat)
    requires MonthStart(from) <= day
    ensures MonthStart(month) <= day < MonthStart(month + 1)
    decreases day - MonthStart(from)
  {
    if day < MonthStart(from + 1) then from else MonthFrom(day, from + 1)
  }

  function MonthOf(day: nat): (month: nat)
    ensures MonthStart(month) <= day < MonthStart(month + 1)
  {
    MonthFrom(day, 0)
  }

  /** The day `months` months on: the same day of the month, or its last one if it is shorter. */
  function DayLater(day: nat, months: nat): nat
  {
    var month := MonthOf(day);
    var dayOfMonth, later := day - MonthStart(month), month + months;
    MonthStart(later) + (if dayOfMonth < DaysIn(later) then dayOfMonth else DaysIn(later) - 1)
  }

  function Instant(day: nat, time: nat): nat { day * DAY + time }

  /** The time of day stays; a date beyond the last year is refused. */
  function AddMonths(t: nat, months: nat): Option<nat>
  {
    if YearOf(MonthOf(t / DAY) + months) > LAST_YEAR then None
    else Some(Instant(DayLater(t / DAY, months), t % DAY))
  }

  // ----- What the calendar does -----

  lemma {:induction false} MonthsSpan(month: nat, n: nat)
    ensures MonthStart(month) + 28 * n <= MonthStart(month + n) <= MonthStart(month) + 31 * n
  {
    if n > 0 {
      MonthsSpan(month, n - 1);
    }
  }

  lemma {:induction false} MonthsInOrder(a: nat, b: nat)
    requires a <= b
    ensures MonthStart(a) <= MonthStart(b)
  {
    MonthsSpan(a, b - a);
  }

  lemma {:induction false} MonthIsUnique(day: nat, a: nat, b: nat)
    requires MonthStart(a) <= day < MonthStart(a + 1)
    requires MonthStart(b) <= day < MonthStart(b + 1)
    ensures a == b
  {
    if a < b {
      MonthsInOrder(a + 1, b);
    } else if b < a {
      MonthsInOrder(b + 1, a);
    }
  }

  /** Leap days before the first of a year. */
  function LeapDaysBefore(year: nat): int
    requires year >= 1
  {
    (year - 1) / 4 - (year - 1) / 100 + (year - 1) / 400
  }

  lemma {:induction false} NextMonth(year: nat, i: nat)
    requires i < 12
    ensures MonthStart(12 * year + i + 1) == MonthStart(12 * year + i) + Length(i, Leap(1970 + year))
  {
    assert (12 * year + i) / 12 == year && (12 * year + i) % 12 == i;
  }

  /** Days before month `i` of a year. */
  function DaysBefore(i: nat, leap: bool): nat
  {
    if i == 0 then 0 else DaysBefore(i - 1, leap) + Length(i - 1, leap)
  }

  lemma {:induction false} WithinYear(year: nat, i: nat)
    requires i <= 12
    ensures MonthStart(12 * year + i) == MonthStart(12 * year) + DaysBefore(i, Leap(1970 + year))
  {
    if i > 0 {
      WithinYear(year, i - 1);
      NextMonth(year, i - 1);
    }
  }

  lemma {:induction false} YearLength(leap: bool)
    ensures DaysBefore(12, leap) == if leap then 366 else 365
  {
    assert DaysBefore(1, leap) == 31;
    assert DaysBefore(2, leap) == if leap then 60 else 59;
    assert DaysBefore(4, leap) == if leap then 121 else 120;
    assert DaysBefore(6, leap) == if leap then 182 else 181;
    assert DaysBefore(8, leap) == if leap then 244 else 243;
    assert DaysBefore(10, leap) == if leap then 305 else 304;
  }

  lemma {:induction false} QuotientStep(n: nat, d: nat)
    requires n >= 1 && d >= 1
    ensures n / d == (n - 1) / d + (if n % d == 0 then 1 else 0)
  {
    var q, r := (n - 1) / d, (n - 1) % d;
    assert n == q * d + (r + 1);
    if r + 1 == d {
      assert n == (q + 1) * d;
      Division(n, d, q + 1, 0);
    } else {
      Division(n, d, q, r + 1);
    }
  }

  lemma {:induction false} NextMultiple(p: nat, q: nat, d: nat)
    requires p < q
    ensures p * d + d <= q * d
  {
    if p + 1 < q { NextMultiple(p, q - 1, d); }
    assert q * d == (q - 1) * d + d;
  }

  lemma {:induction false} SameQuotient(d: nat, q: nat, r: nat, p: nat, s: nat)
    requires q * d + r == p * d + s && r < d && s < d
    ensures q == p && r == s
  {
    if p < q {
      NextMultiple(p, q, d);
    } else if q < p {
      NextMultiple(q, p, d);
    }
  }

  lemma {:induction false} Division(n: nat, d: nat, q: nat, r: nat)
    requires r < d && n == q * d + r
    ensures n / d == q && n % d == r
  {
    SameQuotient(d, q, r, n / d, n % d);
  }

  /** A century year is a multiple of four, and every fourth one of four hundred. */
  lemma {:induction false} LeapYears(year: nat)
    ensures year % 100 == 0 ==> year % 4 == 0
    ensures year % 400 == 0 ==> year % 100 == 0
  {
    if year % 100 == 0 {
      Division(year, 4, 25 * (year / 100), 0);
    }
    if year % 400 == 0 {
      Division(year, 100, 4 * (year / 400), 0);
    }
  }

  lemma {:induction false} LeapDaysStep(year: nat)
    requires year >= 1
    ensures LeapDaysBefore(year + 1) == LeapDaysBefore(year) + (if Leap(year) then 1 else 0)
  {
    var four := if year % 4 == 0 then 1 else 0;
    var hundred := if year % 100 == 0 then 1 else 0;
    var fourHundred := if year % 400 == 0 then 1 else 0;
    QuotientStep(year, 4);
    QuotientStep(year, 100);
    QuotientStep(year, 400);
    LeapYears(year);
    LeapDaysDiffer(year, four, hundred, fourHundred);
  }

  lemma {:induction false} LeapDaysDiffer(year: nat, four: int, hundred: int, fourHundred: int)
    requires year >= 1
    requires year / 4 == (year - 1) / 4 + four
    requires year / 100 == (year - 1) / 100 + hundred
    requires year / 400 == (year - 1) / 400 + fourHundred
    ensures LeapDaysBefore(year + 1) == LeapDaysBefore(year) + four - hundred + fourHundred
  {
  }

  /** Counting month by month agrees with the closed form for the first day of a year. */
  lemma {:induction false} YearStart(years: nat)
    ensures MonthStart(12 * years) == 365 * years + LeapDaysBefore(1970 + years) - LeapDaysBefore(1970)
  {
    if years > 0 {
      var before := years - 1;
      YearStart(before);
      WithinYear(before, 12);
      YearLength(Leap(1970 + before));
      LeapDaysStep(1970 + before);
    }
  }

  lemma {:induction false} InstantParts(days: nat, time: nat)
    requires time < DAY
    ensures Instant(days, time) / DAY == days && Instant(days, time) % DAY == time
  {
  }

  /** Adding months keeps the time of day, lands in the month counted on, and keeps the day if that month has it. */
  lemma {:induction false} AddMonthsLands(t: nat, months: nat)
    requires AddMonths(t, months).Some?
    ensures var r := AddMonths(t, months).value;
      var month, dayOfMonth := MonthOf(t / DAY) + months, t / DAY - MonthStart(MonthOf(t / DAY));
      && r % DAY == t % DAY
      && MonthOf(r / DAY) == month
      && r / DAY - MonthStart(month) == (if dayOfMonth < DaysIn(month) then dayOfMonth else DaysIn(month) - 1)
  {
    var r := AddMonths(t, months).value;
    InstantParts(DayLater(t / DAY, months), t % DAY);
    MonthIsUnique(r / DAY, MonthOf(r / DAY), MonthOf(t / DAY) + months);
  }

  /** January to December of a year, by their lengths. */
  lemma {:induction false} MonthLengths(year: nat, i: nat)
    requires i < 12
    ensures DaysIn(12 * year + i) ==
      [31, if Leap(1970 + year) then 29 else 28, 31, 30, 31, 30, 31, 31, 30, 31, 30, 31][i]
  {
    assert (12 * year + i) / 12 == year && (12 * year + i) % 12 == i;
  }

  /** In days, the span of `months` months is 28 to 31 days each, whether or not the last one is clamped. */
  lemma {:induction false} DaysSpan(day: nat, months: nat)
    ensures day + 28 * months <= DayLater(day, months) <= day + 31 * months
  {
    var month := MonthOf(day);
    var dayOfMonth := day - MonthStart(month);
    MonthsSpan(month, months);
    if months > 0 && dayOfMonth >= DaysIn(month + months) {
      MonthsSpan(month + 1, months - 1);
    }
  }

  lemma {:induction false} ScaleDays(from: nat, low: nat, to: nat, high: nat, unit: nat, rest: nat)
    requires from + low <= to <= from + high
    ensures from * unit + rest + low * unit <= to * unit + rest <= from * unit + rest + high * unit
  {
    assert (from + low) * unit <= to * unit <= (from + high) * unit;
  }

  /** A month bought is between 28 and 31 days. */
  lemma {:induction false} AddMonthsSpan(t: nat, months: nat)
    requires AddMonths(t, months).Some?
    ensures t + 28 * months * DAY <= AddMonths(t, months).value <= t + 31 * months * DAY
  {
    DaysSpan(t / DAY, months);
    ScaleDays(t / DAY, 28 * months, DayLater(t / DAY, months), 31 * months, DAY, t % DAY);
  }
}
