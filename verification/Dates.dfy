/**
 Calendar arithmetic of the scheduler (backend/date_utils.py), on the proleptic Gregorian calendar in UTC.
 A `DateTime` is Python's: year, month, day, and the microseconds of the day.
 */
module Dates {
  import opened Wrappers
  import opened Numerals

  const DAY := 86_400_000_000

  datatype DateTime = DateTime(year: int, month: int, day: int, time: int)

  predicate Leap(year: int) {
    year % 4 == 0 && (year % 100 != 0 || year % 400 == 0)
  }

  function DaysIn(year: int, month: int): int {
    if month == 2 then (if Leap(year) then 29 else 28)
    else if month in {4, 6, 9, 11} then 30
    else 31
  }

  predicate Valid(d: DateTime) {
    d.year >= 1 && 1 <= d.month <= 12 && 1 <= d.day <= DaysIn(d.year, d.month) && 0 <= d.time < DAY
  }

  type Moment = d: DateTime | Valid(d) witness DateTime(1, 1, 1, 0)

  // ---------------------------------------------------------------- the time line

  /** Months counted from year 0. */
  function MonthIndex(d: DateTime): int {
    12 * d.year + d.month - 1
  }

  function DaysInIndex(i: int): int {
    DaysIn(i / 12, i % 12 + 1)
  }

  /** The days before a month: the lengths of all months since January of year 1. */
  function MonthStart(i: int): int
    decreases i
  {
    if i <= 12 then 0 else MonthStart(i - 1) + DaysInIndex(i - 1)
  }

  /** Python's ordinal: 1 is the first of January of year 1. */
  function Ordinal(d: DateTime): int {
    MonthStart(MonthIndex(d)) + d.day
  }

  /** Microseconds on the time line. */
  function Instant(d: DateTime): int {
    Ordinal(d) * DAY + d.time
  }

  lemma IndexOfMonth(d: Moment)
    ensures MonthIndex(d) / 12 == d.year && MonthIndex(d) % 12 == d.month - 1 && MonthIndex(d) >= 12
    ensures DaysInIndex(MonthIndex(d)) == DaysIn(d.year, d.month)
  {
  }

  lemma {:induction false} MonthStartGrows(i: int, j: int)
    requires 12 <= i < j
    ensures MonthStart(i) + DaysInIndex(i) <= MonthStart(j)
    decreases j
  {
    if i < j - 1 {
      MonthStartGrows(i, j - 1);
    }
  }

  lemma LaterDayIsLater(a: Moment, b: Moment)
    requires Ordinal(a) < Ordinal(b)
    ensures Instant(a) < Instant(b)
  {
  }

  lemma LaterMonthIsLater(a: Moment, b: Moment)
    requires MonthIndex(a) < MonthIndex(b)
    ensures Ordinal(a) < Ordinal(b) && Instant(a) < Instant(b)
  {
    IndexOfMonth(a);
    MonthStartGrows(MonthIndex(a), MonthIndex(b));
    LaterDayIsLater(a, b);
  }

  /** The day of a date, and the date of a day: no two dates share an ordinal. */
  lemma OrdinalDetermines(a: Moment, b: Moment)
    requires Ordinal(a) == Ordinal(b)
    ensures a.year == b.year && a.month == b.month && a.day == b.day
  {
    if MonthIndex(a) < MonthIndex(b) {
      LaterMonthIsLater(a, b);
    } else if MonthIndex(b) < MonthIndex(a) {
      LaterMonthIsLater(b, a);
    }
  }

  // ---------------------------------------------------------------- the Gregorian day count

  lemma MonthOn(year: int, month: int)
    requires year >= 1 && 1 <= month <= 12
    ensures MonthStart(12 * year + month) == MonthStart(12 * year + month - 1) + DaysIn(year, month)
  {
    assert (12 * year + month - 1) / 12 == year && (12 * year + month - 1) % 12 == month - 1;
  }

  /** The days of a year before one of its months. */
  function DaysBefore(month: int, leap: bool): int
    requires 1 <= month <= 13
  {
    [0, 31, 59, 90, 120, 151, 181, 212, 243, 273, 304, 334, 365][month - 1] + if leap && month > 2 then 1 else 0
  }

  lemma {:induction false} MonthInYear(year: int, month: int)
    requires year >= 1 && 1 <= month <= 13
    ensures MonthStart(12 * year + month - 1) == MonthStart(12 * year) + DaysBefore(month, Leap(year))
    decreases month
  {
    if month > 1 {
      MonthInYear(year, month - 1);
      MonthOn(year, month - 1);
    }
  }

  lemma NextMultiple(n: nat)
    ensures (n + 1) / 4 == n / 4 + if (n + 1) % 4 == 0 then 1 else 0
    ensures (n + 1) / 100 == n / 100 + if (n + 1) % 100 == 0 then 1 else 0
    ensures (n + 1) / 400 == n / 400 + if (n + 1) % 400 == 0 then 1 else 0
  {
  }

  /** The leap years among the first `n`: each fourth, but not each hundredth, but each four hundredth. */
  function LeapYears(n: nat): int {
    n / 4 - n / 100 + n / 400
  }

  lemma HundredthIsFourth(n: nat)
    requires n % 100 == 0
    ensures n % 4 == 0
  {
    assert n == 4 * (25 * (n / 100));
  }

  lemma FourHundredthIsHundredth(n: nat)
    requires n % 400 == 0
    ensures n % 100 == 0
  {
    assert n == 100 * (4 * (n / 400));
  }

  lemma OneMoreYear(n: nat)
    ensures LeapYears(n + 1) == LeapYears(n) + if Leap(n + 1) then 1 else 0
  {
    NextMultiple(n);
    if (n + 1) % 100 == 0 {
      HundredthIsFourth(n + 1);
    }
    if (n + 1) % 400 == 0 {
      FourHundredthIsHundredth(n + 1);
    }
  }

  lemma {:induction false} DaysBeforeYear(year: int)
    requires year >= 1
    ensures MonthStart(12 * year) == 365 * (year - 1) + LeapYears(year - 1)
  {
    if year > 1 {
      DaysBeforeYear(year - 1);
      MonthInYear(year - 1, 13);
      OneMoreYear(year - 2);
    }
  }

  /** The ordinal of a date on the proleptic Gregorian calendar. */
  lemma OrdinalIsTheDayCount(d: Moment)
    ensures var leap := d.year % 4 == 0 && (d.year % 100 != 0 || d.year % 400 == 0);
      Ordinal(d) == 365 * (d.year - 1) + LeapYears(d.year - 1) + DaysBefore(d.month, leap) + d.day
  {
    DaysBeforeYear(d.year);
    MonthInYear(d.year, d.month);
  }

  // ---------------------------------------------------------------- shifting by days

  function NextDay(d: Moment): Moment {
    if d.day < DaysIn(d.year, d.month) then d.(day := d.day + 1)
    else if d.month < 12 then d.(month := d.month + 1, day := 1)
    else DateTime(d.year + 1, 1, 1, d.time)
  }

  lemma NextDayOrdinal(d: Moment)
    ensures Ordinal(NextDay(d)) == Ordinal(d) + 1
  {
    IndexOfMonth(d);
  }

  function AddDays(d: Moment, n: nat): Moment {
    if n == 0 then d else NextDay(AddDays(d, n - 1))
  }

  lemma {:induction false} AddDaysInstant(d: Moment, n: nat)
    ensures Ordinal(AddDays(d, n)) == Ordinal(d) + n && AddDays(d, n).time == d.time
    ensures Instant(AddDays(d, n)) == Instant(d) + n * DAY
  {
    if n > 0 {
      AddDaysInstant(d, n - 1);
      NextDayOrdinal(AddDays(d, n - 1));
    }
  }

  function PrevDay(d: Moment): Option<Moment> {
    if d.day > 1 then Some(d.(day := d.day - 1))
    else if d.month > 1 then Some(d.(month := d.month - 1, day := DaysIn(d.year, d.month - 1)))
    else if d.year > 1 then Some(DateTime(d.year - 1, 12, 31, d.time))
    else None
  }

  /** Python's `d + timedelta(days=n)`; None where the result would lie before year 1. */
  function ShiftDays(d: Moment, n: int): Option<Moment>
    decreases if n < 0 then -n else n
  {
    if n >= 0 then Some(AddDays(d, n))
    else
      match PrevDay(d)
      case None => None
      case Some(p) => ShiftDays(p, n + 1)
  }

  lemma {:induction false} ShiftDaysOrdinal(d: Moment, n: int)
    ensures ShiftDays(d, n).Some? ==> Ordinal(ShiftDays(d, n).value) == Ordinal(d) + n
    decreases if n < 0 then -n else n
  {
    if n >= 0 {
      AddDaysInstant(d, n);
    } else if PrevDay(d).Some? {
      var p := PrevDay(d).value;
      assert NextDay(p) == d;
      NextDayOrdinal(p);
      ShiftDaysOrdinal(p, n + 1);
    }
  }

  // ---------------------------------------------------------------- months

  /** `relativedelta(months=1)`: the same day of the next month, or its last day. */
  function AddOneMonth(d: Moment): Moment {
    var year := if d.month == 12 then d.year + 1 else d.year;
    var month := if d.month == 12 then 1 else d.month + 1;
    DateTime(year, month, if d.day <= DaysIn(year, month) then d.day else DaysIn(year, month), d.time)
  }

  /** The length of the month k months after that of `d`. */
  function LengthOfMonthAfter(d: Moment, k: nat): int {
    DaysInIndex(MonthIndex(d) + k)
  }

  function AddMonths(d: Moment, n: nat): Moment {
    if n == 0 then d else AddOneMonth(AddMonths(d, n - 1))
  }

  /** Steps to the next month, keeping the day where that month has it. */
  lemma OneMonthOn(d: Moment)
    ensures MonthIndex(AddOneMonth(d)) == MonthIndex(d) + 1 && AddOneMonth(d).time == d.time
    ensures AddOneMonth(d).day == if d.day <= LengthOfMonthAfter(d, 1) then d.day else LengthOfMonthAfter(d, 1)
  {
    var e := AddOneMonth(d);
    assert MonthIndex(e) == MonthIndex(d) + 1;
    IndexOfMonth(e);
  }

  lemma OneMonthApart(d: Moment)
    ensures Instant(d) + 28 * DAY <= Instant(AddOneMonth(d)) <= Instant(d) + 31 * DAY
  {
    OneMonthOn(d);
    IndexOfMonth(d);
    var e := AddOneMonth(d);
    var length := DaysIn(d.year, d.month);
    assert MonthStart(MonthIndex(e)) == MonthStart(MonthIndex(d)) + length;
    assert 28 <= length <= 31 && DaysInIndex(MonthIndex(e)) >= 28;
    assert Ordinal(d) + 28 <= Ordinal(e) <= Ordinal(d) + 31;
  }

  /** Iterating: after n applications the month has advanced by exactly n, the day is the least of the start day and
      the lengths of the months visited, and the time of day is unchanged. */
  lemma {:induction false} IteratedMonths(d: Moment, n: nat)
    ensures var e := AddMonths(d, n);
      && MonthIndex(e) == MonthIndex(d) + n && e.time == d.time
      && e.day <= d.day && (forall k: nat :: 1 <= k <= n ==> e.day <= LengthOfMonthAfter(d, k))
      && (e.day == d.day || exists k: nat :: 1 <= k <= n && e.day == LengthOfMonthAfter(d, k))
  {
    if n > 0 {
      IteratedMonths(d, n - 1);
      var p := AddMonths(d, n - 1);
      OneMonthOn(p);
      assert LengthOfMonthAfter(p, 1) == LengthOfMonthAfter(d, n);
    }
  }

  /** The dates strictly increase, by at least four weeks a month. */
  lemma {:induction false} IteratedMonthsIncrease(d: Moment, m: nat, n: nat)
    requires m <= n
    ensures Instant(AddMonths(d, m)) + 28 * (n - m) * DAY <= Instant(AddMonths(d, n))
    decreases n
  {
    if m < n {
      IteratedMonthsIncrease(d, m, n - 1);
      OneMonthApart(AddMonths(d, n - 1));
    }
  }

  // ---------------------------------------------------------------- days of the week and of the month

  const WEEKDAYS := ["Monday", "Tuesday", "Wednesday", "Thursday", "Friday", "Saturday", "Sunday"]

  /** Python's `weekday()`: 0 is Monday. */
  function Weekday(d: DateTime): int {
    (Ordinal(d) + 6) % 7
  }

  function GetNextWeekday(d: Moment, name: string): Option<Moment> {
    if name !in WEEKDAYS then None
    else
      var target := IndexOf(WEEKDAYS, name, 0);
      var ahead := target - Weekday(d);
      Some(AddDays(d, if ahead <= 0 then ahead + 7 else ahead))
  }

  function IndexOf(names: seq<string>, name: string, from: nat): (i: nat)
    requires from <= |names| && name in names[from..]
    ensures from <= i < |names| && names[i] == name
    decreases |names| - from
  {
    if names[from] == name then from
    else
      assert names[from..] == [names[from]] + names[from + 1..];
      IndexOf(names, name, from + 1)
  }

  /** The first day after `d` with that name, one to seven days later. */
  lemma NextWeekdayIsFirst(d: Moment, name: string)
    ensures GetNextWeekday(d, name).Some? <==> name in WEEKDAYS
    ensures GetNextWeekday(d, name).Some? ==>
      var e := GetNextWeekday(d, name).value;
      && IsNamed(e, name) && e.time == d.time
      && 1 <= Ordinal(e) - Ordinal(d) <= 7
      && forall x: Moment :: Ordinal(d) < Ordinal(x) < Ordinal(e) ==> !IsNamed(x, name)
  {
    if name in WEEKDAYS {
      assert WEEKDAYS[0..] == WEEKDAYS;
      var target := IndexOf(WEEKDAYS, name, 0);
      var ahead := target - Weekday(d);
      var n := if ahead <= 0 then ahead + 7 else ahead;
      AddDaysInstant(d, n);
      WeekdayAhead(Ordinal(d), target, n);
      forall x: Moment | Ordinal(d) < Ordinal(x) < Ordinal(d) + n
        ensures !IsNamed(x, name)
      {
        NotNamedBetween(d, target, n, x);
      }
    }
  }

  lemma NotNamedBetween(d: Moment, target: int, n: int, x: Moment)
    requires 0 <= target < 7
    requires var ahead := target - Weekday(d); n == if ahead <= 0 then ahead + 7 else ahead
    requires Ordinal(d) < Ordinal(x) < Ordinal(d) + n
    ensures !IsNamed(x, WEEKDAYS[target])
  {
    WeekdayBetween(Ordinal(d), target, n, Ordinal(x));
    DistinctWeekdays(Weekday(x), target);
  }

  predicate IsNamed(d: DateTime, name: string) {
    WEEKDAYS[Weekday(d)] == name
  }

  lemma WeekdayAhead(day: int, target: int, n: int)
    requires 0 <= target < 7
    requires var ahead := target - (day + 6) % 7; n == if ahead <= 0 then ahead + 7 else ahead
    ensures (day + n + 6) % 7 == target && 1 <= n <= 7
  {
    var w := (day + 6) % 7;
    var q := (day + 6) / 7;
    assert day + 6 == 7 * q + w;
    if w < target {
      assert day + n + 6 == 7 * q + target;
    } else {
      assert day + n + 6 == 7 * (q + 1) + target;
    }
  }

  lemma WeekdayBetween(day: int, target: int, n: int, x: int)
    requires 0 <= target < 7
    requires var ahead := target - (day + 6) % 7; n == if ahead <= 0 then ahead + 7 else ahead
    requires day < x < day + n
    ensures (x + 6) % 7 != target
  {
    WeekdayAhead(day, target, n);
  }

  lemma DistinctWeekdays(i: int, j: int)
    requires 0 <= i < 7 && 0 <= j < 7 && i != j
    ensures WEEKDAYS[i] != WEEKDAYS[j]
  {
    assert |WEEKDAYS[0]| == 6 && WEEKDAYS[0][0] == 'M';
    assert |WEEKDAYS[1]| == 7 && WEEKDAYS[1][0] == 'T';
    assert |WEEKDAYS[2]| == 9 && WEEKDAYS[2][0] == 'W';
    assert |WEEKDAYS[3]| == 8 && WEEKDAYS[3][0] == 'T';
    assert |WEEKDAYS[4]| == 6 && WEEKDAYS[4][0] == 'F';
    assert |WEEKDAYS[5]| == 8 && WEEKDAYS[5][0] == 'S';
    assert |WEEKDAYS[6]| == 6 && WEEKDAYS[6][0] == 'S';
  }

  /** The days of the week are the usual ones: the first of January 2000 was a Saturday. */
  lemma FirstOf2000WasASaturday()
    ensures IsNamed(DateTime(2000, 1, 1, 0), "Saturday")
  {
    OrdinalIsTheDayCount(DateTime(2000, 1, 1, 0));
    assert Ordinal(DateTime(2000, 1, 1, 0)) == 730_120;
  }

  /** Always in terms of next month's first day; a day past the 28th counts as the 28th. */
  function GetNextSpecificDate(d: Moment, text: string): Option<Moment> {
    match PyInt(text)
    case None => None
    case Some(target) =>
      ShiftDays(AddOneMonth(d.(day := 1)).(day := 1), (if target < 28 then target else 28) - 1)
  }

  /** A day number of at least 1 gives that day of the next month, the 28th at most; any lower one gives a day before
      that month. */
  lemma SpecificDateIsNextMonthExactly(d: Moment, text: string)
    requires GetNextSpecificDate(d, text).Some?
    ensures PyInt(text).Some?
    ensures var e := GetNextSpecificDate(d, text).value;
      var target := PyInt(text).value;
      && (MonthIndex(e) == MonthIndex(d) + 1 <==> target >= 1)
      && (target >= 1 ==> e.day == if target < 28 then target else 28)
  {
    var target := PyInt(text).value;
    var first: Moment := AddOneMonth(d.(day := 1)).(day := 1);
    OneMonthOn(d.(day := 1));
    var n := (if target < 28 then target else 28) - 1;
    var e := GetNextSpecificDate(d, text).value;
    ShiftDaysOrdinal(first, n);
    if target >= 1 {
      WithinMonth(first, n);
    }
  }

  /** For a day from 1 to 28 the answer is the first later date with that day of the month exactly when the day has
      already come this month; otherwise the occurrence in the running month is skipped. */
  lemma NextOccurrenceExactly(d: Moment, text: string)
    requires PyInt(text).Some? && 1 <= PyInt(text).value <= 28
    ensures GetNextSpecificDate(d, text).Some?
    ensures (forall x: Moment :: IsDayAfter(x, d, PyInt(text).value) ==>
        Ordinal(x) >= Ordinal(GetNextSpecificDate(d, text).value))
      <==> PyInt(text).value <= d.day
  {
    var target := PyInt(text).value;
    SpecificDateIsNextMonthExactly(d, text);
    var e := GetNextSpecificDate(d, text).value;
    if target <= d.day {
      forall x: Moment | IsDayAfter(x, d, target)
        ensures Ordinal(x) >= Ordinal(e)
      {
        if MonthIndex(x) < MonthIndex(d) {
          LaterMonthIsLater(x, d);
        } else if MonthIndex(x) > MonthIndex(e) {
          LaterMonthIsLater(e, x);
        }
      }
    } else {
      var x: Moment := d.(day := target);
      assert IsDayAfter(x, d, target);
      LaterMonthIsLater(x, e);
    }
  }

  predicate IsDayAfter(x: DateTime, d: DateTime, day: int) {
    x.day == day && Ordinal(x) > Ordinal(d)
  }

  lemma {:induction false} WithinMonth(first: Moment, n: nat)
    requires first.day == 1 && n <= 27
    ensures AddDays(first, n) == first.(day := n + 1)
  {
    if n > 0 {
      WithinMonth(first, n - 1);
    }
  }

  // ---------------------------------------------------------------- the next run

  function CalculateNextRunAt(reference: Moment, frequency: string, interval: Option<string>): Option<Moment> {
    if frequency == "One-time" then None
    else if frequency == "Daily" then Some(AddDays(reference, 1))
    else if frequency == "Weekly" then Some(AddDays(reference, 7))
    else if frequency == "Bi-weekly" then Some(AddDays(reference, 14))
    else if frequency == "Monthly" then Some(AddOneMonth(reference))
    else if frequency == "Specific Day of Week" && interval.Some? && interval.value != "" then
      GetNextWeekday(reference, interval.value)
    else if frequency == "Specific Date of Month" && interval.Some? && interval.value != "" then
      GetNextSpecificDate(reference, interval.value)
    else None
  }

  const RECURRING := {"Daily", "Weekly", "Bi-weekly", "Monthly"}

  /** The least number of days between two runs. */
  function Period(frequency: string): nat {
    if frequency == "Daily" then 1
    else if frequency == "Weekly" then 7
    else if frequency == "Bi-weekly" then 14
    else if frequency == "Monthly" then 28
    else 0
  }

  /** Without an interval there is a next run exactly for the four recurring frequencies, at least a period later. */
  lemma NextRunIsLater(reference: Moment, frequency: string)
    ensures CalculateNextRunAt(reference, frequency, None).Some? <==> frequency in RECURRING
    ensures frequency in RECURRING ==>
      Instant(CalculateNextRunAt(reference, frequency, None).value) >= Instant(reference) + Period(frequency) * DAY
  {
    AddDaysInstant(reference, 1);
    AddDaysInstant(reference, 7);
    AddDaysInstant(reference, 14);
    OneMonthApart(reference);
  }

  /** The next run without an interval: one, seven or fourteen days on to the microsecond, or the same day and time of
      the next month, its last day where that is too short. */
  lemma NextRunExactly(reference: Moment, frequency: string)
    ensures var next := CalculateNextRunAt(reference, frequency, None);
      if frequency in {"Daily", "Weekly", "Bi-weekly"} then
        && next.Some?
        && var days := if frequency == "Daily" then 1 else if frequency == "Weekly" then 7 else 14;
           Instant(next.value) == Instant(reference) + days * 86_400_000_000
      else if frequency == "Monthly" then
        && next.Some? && next.value.time == reference.time
        && 12 * next.value.year + next.value.month == 12 * reference.year + reference.month + 1
        && var length := DaysIn(next.value.year, next.value.month);
           next.value.day == if reference.day <= length then reference.day else length
      else next.None?
  {
    AddDaysInstant(reference, 1);
    AddDaysInstant(reference, 7);
    AddDaysInstant(reference, 14);
    OneMonthOn(reference);
  }

  /** An interval matters to the two other frequencies alone: it names the day of the week or the day of the month of
      the next run, and without one there is none. */
  lemma NextRunWithInterval(reference: Moment, frequency: string, interval: string)
    ensures var next := CalculateNextRunAt(reference, frequency, Some(interval));
      if frequency == "Specific Day of Week" then
        && (next.Some? <==> interval in WEEKDAYS)
        && (next.Some? ==> IsNamed(next.value, interval) && 1 <= Ordinal(next.value) - Ordinal(reference) <= 7)
      else if frequency == "Specific Date of Month" then
        && (next.Some? ==> PyInt(interval).Some?)
        && (next.Some? && PyInt(interval).value >= 1 ==>
              && next.value.day == (if PyInt(interval).value < 28 then PyInt(interval).value else 28)
              && MonthIndex(next.value) == MonthIndex(reference) + 1)
      else next == CalculateNextRunAt(reference, frequency, None)
  {
    NextWeekdayIsFirst(reference, interval);
    if frequency == "Specific Date of Month" && GetNextSpecificDate(reference, interval).Some? {
      SpecificDateIsNextMonthExactly(reference, interval);
    }
    PyIntOfDigits("");
  }
}
