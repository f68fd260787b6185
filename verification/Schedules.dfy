/** The proleptic Gregorian calendar, as far as schedules need it. Days are counted from
    1970-01-01, which was a Thursday. */
module Calendar {

  datatype Date = Date(year: int, month: int, day: int)

  predicate IsLeap(year: int) {
    year % 4 == 0 && (year % 100 != 0 || year % 400 == 0)
  }

  /** `calendar.monthrange(year, month)[1]`. */
  function MonthLength(year: int, month: int): (days: int)
    ensures 28 <= days <= 31
  {
    if month == 2 then (if IsLeap(year) then 29 else 28)
    else if month in {4, 6, 9, 11} then 30
    else 31
  }

  predicate IsDate(d: Date) {
    1 <= d.month <= 12 && 1 <= d.day <= MonthLength(d.year, d.month)
  }

  function Next(d: Date): (e: Date)
    requires IsDate(d)
    ensures IsDate(e)
  {
    if d.day < MonthLength(d.year, d.month) then d.(day := d.day + 1)
    else if d.month < 12 then Date(d.year, d.month + 1, 1)
    else Date(d.year + 1, 1, 1)
  }

  function Previous(d: Date): (e: Date)
    requires IsDate(d)
    ensures IsDate(e) && Next(e) == d
  {
    if d.day > 1 then d.(day := d.day - 1)
    else if d.month > 1 then Date(d.year, d.month - 1, MonthLength(d.year, d.month - 1))
    else Date(d.year - 1, 12, 31)
  }

  function DateOf(day: int): (d: Date)
    ensures IsDate(d)
    decreases if day < 0 then -day else day
  {
    if day == 0 then Date(1970, 1, 1)
    else if day > 0 then Next(DateOf(day - 1))
    else Previous(DateOf(day + 1))
  }

  /** `date.isoweekday()`: Monday is 1. */
  function IsoWeekday(day: int): (w: int)
    ensures 1 <= w <= 7
  {
    (day + 3) % 7 + 1
  }

  lemma NextDay(day: int)
    ensures DateOf(day + 1) == Next(DateOf(day))
  {
  }

  /** `date.toordinal()`: days counted from the first of January of year 1, which is day 1. */
  function Ordinal(d: Date): int {
    var years := d.year - 1;
    365 * years + years / 4 - years / 100 + years / 400 + DaysBefore(d.year, d.month) + d.day
  }

  function DaysBefore(year: int, month: int): int {
    (match month
     case 1 => 0
     case 2 => 31
     case 3 => 59
     case 4 => 90
     case 5 => 120
     case 6 => 151
     case 7 => 181
     case 8 => 212
     case 9 => 243
     case 10 => 273
     case 11 => 304
     case _ => 334)
    + if month > 2 && year % 4 == 0 && (year % 100 != 0 || year % 400 == 0) then 1 else 0
  }

  lemma CenturiesPass(year: int)
    ensures year / 4 - (year - 1) / 4 == if year % 4 == 0 then 1 else 0
    ensures year / 100 - (year - 1) / 100 == if year % 100 == 0 then 1 else 0
    ensures year / 400 - (year - 1) / 400 == if year % 400 == 0 then 1 else 0
    ensures year % 400 == 0 ==> year % 100 == 0
    ensures year % 100 == 0 ==> year % 4 == 0
  {
  }

  /** The calendar counts days one by one. */
  lemma OrdinalNext(d: Date)
    requires IsDate(d)
    ensures Ordinal(Next(d)) == Ordinal(d) + 1
  {
    if d.day == MonthLength(d.year, d.month) && d.month == 12 { CenturiesPass(d.year); }
  }

  /** Day 0 is 1970-01-01, and every day has the date the calendar gives it. */
  lemma {:induction false} OrdinalOfDay(day: int)
    ensures Ordinal(DateOf(day)) == day + 719_163
    decreases if day < 0 then -day else day
  {
    hide Ordinal, Next, Previous;
    if day > 0 {
      OrdinalOfDay(day - 1);
      OrdinalNext(DateOf(day - 1));
    } else if day < 0 {
      OrdinalOfDay(day + 1);
      OrdinalNext(DateOf(day));
    } else {
      OrdinalOfEpoch();
    }
  }

  lemma OrdinalOfEpoch()
    ensures Ordinal(Date(1970, 1, 1)) == 719_163
  {
  }

  lemma DaysWithinYear(d: Date)
    requires IsDate(d)
    ensures Ordinal(Date(d.year, 1, 1)) <= Ordinal(d) < Ordinal(Date(d.year + 1, 1, 1))
  {
    CenturiesPass(d.year);
  }

  lemma YearsAscend(year: int, later: int)
    requires year <= later
    ensures Ordinal(Date(year, 1, 1)) + 365 * (later - year) <= Ordinal(Date(later, 1, 1))
  {
    CenturiesGrow(year - 1, later - 1);
  }

  lemma CenturiesGrow(a: int, b: int)
    requires a <= b
    ensures a / 4 - a / 100 + a / 400 <= b / 4 - b / 100 + b / 400
    decreases b - a
  {
    if a < b {
      CenturiesGrow(a, b - 1);
      CenturiesPass(b);
    }
  }

  lemma OrdinalsDiffer(a: Date, b: Date)
    requires IsDate(a) && IsDate(b) && Ordinal(a) == Ordinal(b)
    ensures a == b
  {
    hide Ordinal;
    DaysWithinYear(a);
    DaysWithinYear(b);
    if a.year < b.year { YearsAscend(a.year + 1, b.year); }
    if b.year < a.year { YearsAscend(b.year + 1, a.year); }
    SameYear(a, b);
  }

  lemma SameYear(a: Date, b: Date)
    requires IsDate(a) && IsDate(b) && a.year == b.year && Ordinal(a) == Ordinal(b)
    ensures a == b
  {
  }

  /** Every date of the calendar is the date of its day, and of no other. */
  lemma DayOfDate(d: Date, day: int)
    requires IsDate(d)
    ensures DateOf(day) == d <==> day == Ordinal(d) - 719_163
  {
    hide Ordinal, DateOf;
    OrdinalOfDay(day);
    OrdinalOfDay(Ordinal(d) - 719_163);
    OrdinalsDiffer(DateOf(Ordinal(d) - 719_163), d);
  }

  /** `date.isoweekday()`: one more every day, and Monday again after a Sunday; 1970-01-05 was a
      Monday. */
  lemma WeekdaysAdvance(day: int)
    ensures IsoWeekday(day + 1) == (if IsoWeekday(day) == 7 then 1 else IsoWeekday(day) + 1)
    ensures IsoWeekday(4) == 1 && DateOf(4) == Date(1970, 1, 5)
  {
    assert DateOf(2) == Date(1970, 1, 3);
  }

  /** Month by month: from the first of a month on, the dates count up to the month's length. */
  lemma {:induction false} DaysOfMonth(first: int, k: nat)
    requires DateOf(first).day == 1
    requires k < MonthLength(DateOf(first).year, DateOf(first).month)
    ensures DateOf(first + k) == DateOf(first).(day := k + 1)
  {
    hide DateOf, MonthLength;
    if k > 0 {
      DaysOfMonth(first, k - 1);
      NextDay(first + k - 1);
      assert DateOf(first + k - 1) == DateOf(first).(day := k);
    }
  }
}

/** The schedule contract: what `reminders.schedule` may hold once validated. */
module Schedules {
  import opened Zones
  import opened Calendar

  /** Times and windows are wall-clock times of day, `moment` is a wall-clock reading. */
  datatype RawSchedule =
    | Once(moment: int)
    | Interval(everyMinutes: int, windowStart: int, windowEnd: int)
    | Daily(times: seq<int>, everyNDays: int)
    | Weekly(times: seq<int>, weekdays: seq<int>)
    | Monthly(times: seq<int>, days: seq<int>, lastDay: bool)

  /** Naive and minute-precise. */
  predicate OnTheMinute(n: int) {
    n % 60_000_000 == 0
  }

  ghost predicate IsTime(t: int) {
    0 <= t < DAY && OnTheMinute(t)
  }

  ghost predicate AreTimes(times: seq<int>) {
    && 1 <= |times| <= 12
    && (forall i :: 0 <= i < |times| ==> IsTime(times[i]))
    && (forall i, j :: 0 <= i < j < |times| ==> times[i] < times[j])
  }

  ghost predicate IsSchedule(s: RawSchedule) {
    match s
    case Once(moment) => OnTheMinute(moment)
    case Interval(every, start, end) => 5 <= every <= 1440 && IsTime(start) && IsTime(end)
    case Daily(times, n) => AreTimes(times) && 1 <= n <= 366
    case Weekly(times, weekdays) => AreTimes(times) && weekdays != [] && forall w :: w in weekdays ==> 1 <= w <= 7
    case Monthly(times, days, _) => AreTimes(times) && days != [] && forall d :: d in days ==> 1 <= d <= 31
  }

  type Schedule = s: RawSchedule | IsSchedule(s) witness Once(0)

  /** A day the month is too short for. */
  predicate AsksBeyond(days: seq<int>, length: int) {
    exists i :: 0 <= i < |days| && days[i] > length
  }

  /** The days of one month a monthly schedule asks for. */
  function Wanted(days: seq<int>, lastDay: bool, length: int): set<int> {
    (set w | w in days && w <= length) + (if lastDay && AsksBeyond(days, length) then {length} else {})
  }

  /** Whether a wall-clock schedule fires on a day at all. */
  predicate FiresOn(s: Schedule, day: int) {
    match s
    case Once(_) => false
    case Interval(_, _, _) => true
    case Daily(_, n) => day % n == 0
    case Weekly(_, weekdays) => IsoWeekday(day) in weekdays
    case Monthly(_, days, lastDay) =>
      var date := DateOf(day);
      date.day in Wanted(days, lastDay, MonthLength(date.year, date.month))
  }

  /** A month fires exactly on the days asked for, each pulled back to the month's last day under
      `last_day` and dropped under `skip` when the month is too short. */
  lemma MonthlyDays(s: Schedule, first: int, k: nat)
    requires s.Monthly? && DateOf(first).day == 1
    requires k < MonthLength(DateOf(first).year, DateOf(first).month)
    ensures FiresOn(s, first + k)
            <==> exists w :: w in s.days
                    && k + 1 == if s.lastDay then Min(w, MonthLength(DateOf(first).year, DateOf(first).month)) else w
  {
    hide DateOf, MonthLength;
    DaysOfMonth(first, k);
    WantedExactly(s.days, s.lastDay, MonthLength(DateOf(first).year, DateOf(first).month), k + 1);
  }

  lemma WantedExactly(days: seq<int>, lastDay: bool, length: int, day: int)
    requires day <= length
    ensures day in Wanted(days, lastDay, length)
            <==> exists w :: w in days && day == if lastDay then Min(w, length) else w
  {
    if w :| w in days && day == if lastDay then Min(w, length) else w {
      assert day in Wanted(days, lastDay, length);
    }
    if day in Wanted(days, lastDay, length) {
      if day in days {
        assert Min(day, length) == day;
      } else {
        var i :| 0 <= i < |days| && days[i] > length;
        assert days[i] in days && day == Min(days[i], length);
      }
    }
  }
}
