/** Expansion of a schedule into firing instants. */
module Recurrence {
  import opened Zones
  import opened Ordering
  import opened Calendar
  import opened Schedules

  /** Further valid instants collected before the expansion stops looking at later days. */
  const SAFETY_BUFFER: nat := 600

  /** Local days one expansion looks at, after the first one. */
  const MAX_LOCAL_DAYS: nat := 3660

  /** The activity window of an interval schedule anchored on `day`, end included. */
  function WindowEnd(s: Schedule, day: int): int
    requires s.Interval?
  {
    Combine(if s.windowEnd > s.windowStart then day else day + 1, s.windowEnd)
  }

  /** Instants from `start` to `end` inclusive, `step` apart. */
  function Steps(start: int, end: int, step: int): seq<int>
    requires step > 0 && start <= end
  {
    seq((end - start) / step + 1, i => start + i * step)
  }

  function StepsOfDay(s: Schedule, z: Zone, day: int): seq<int>
    requires s.Interval?
  {
    var start, end := ToUtc(z, Combine(day, s.windowStart)), ToUtc(z, WindowEnd(s, day));
    if end <= start then [start] else Steps(start, end, s.everyMinutes * 60_000_000)
  }

  /** Firing instants anchored on one local day. */
  function MomentsOfDay(s: Schedule, z: Zone, day: int): seq<int> {
    match s
    case Once(_) => []
    case Interval(_, _, _) => StepsOfDay(s, z, day)
    case _ =>
      if FiresOn(s, day) then seq(|s.times|, i requires 0 <= i < |s.times| => ToUtc(z, Combine(day, s.times[i])))
      else []
  }

  /** The meaning of a schedule: the instants at which it fires, over all local days. */
  ghost predicate Fires(s: Schedule, z: Zone, t: int) {
    if s.Once? then t == ToUtc(z, s.moment) else exists day :: t in MomentsOfDay(s, z, day)
  }

  /** Fires on one of the days `first..last`. */
  ghost predicate FiresWithin(s: Schedule, z: Zone, first: int, last: int, t: int) {
    exists day :: first <= day <= last && t in MomentsOfDay(s, z, day)
  }

  function FirstDay(z: Zone, after: int): int {
    DayOf(Local(z, after) - DAY)
  }

  function LastDay(z: Zone, after: int, until: int): int {
    FirstDay(z, after) + Min(DayOf(Local(z, until) + DAY) - FirstDay(z, after), MAX_LOCAL_DAYS)
  }

  /** Firing instants of the days `first..last` in `(after, until]`. */
  ghost function Collected(s: Schedule, z: Zone, first: int, last: int, after: int, until: int): set<int> {
    set t | after < t <= until && FiresWithin(s, z, first, last, t)
  }

  /** What `next_occurrences` returns. */
  ghost function Expansion(s: Schedule, z: Zone, after: int, until: int, limit: int): seq<int> {
    if limit <= 0 || until <= after then []
    else if s.Once? then (var t := ToUtc(z, s.moment); if after < t <= until then [t] else [])
    else Take(Sorted(Collected(s, z, FirstDay(z, after), LastDay(z, after, until), after, until)), limit)
  }

  /** The first `limit` firing instants in `(after, until]`, ascending and without duplicates. */
  ghost predicate IsExpansion(s: Schedule, z: Zone, after: int, until: int, limit: int, r: seq<int>) {
    && StrictlyAscending(r)
    && |r| <= Max(limit, 0)
    && (forall t :: t in r ==> after < t <= until && Fires(s, z, t))
    && (forall t :: after < t <= until && Fires(s, z, t) && t !in r ==> |r| == Max(limit, 0) && forall u :: u in r
                                                                                                   ==> u < t)
  }

  // ---------------------------------------------------------------------------------------------
  // Days follow each other
  // ---------------------------------------------------------------------------------------------

  /** The reading a day's firing instants start from. */
  function DayStart(s: Schedule, day: int): int {
    Combine(day, if s.Interval? then s.windowStart else 0)
  }

  lemma CombineIsWhole(day: int, time: int)
    requires OnTheMinute(time)
    ensures Whole(Combine(day, time))
  {
    var m := time / 60_000_000;
    assert Combine(day, time) == 1_000_000 * (86_400 * day + 60 * m);
  }

  lemma DayStarts(s: Schedule, day: int, later: int)
    requires day <= later
    ensures Whole(DayStart(s, day))
    ensures Combine(day, 0) <= DayStart(s, day) <= DayStart(s, later) - DAY * (later - day)
    ensures DayStart(s, day) < Combine(day + 1, 0)
  {
    hide Whole;
    var time := if s.Interval? then s.windowStart else 0;
    CombineIsWhole(day, time);
    assert 0 <= time < DAY;
    hide OnTheMinute;
    assert DayStart(s, later) == DayStart(s, day) + DAY * (later - day);
  }

  /** Every firing instant of a day lies between the start of that day and that of the next. */
  lemma MomentBounds(s: Schedule, z: Zone, day: int, t: int)
    requires t in MomentsOfDay(s, z, day)
    ensures ToUtc(z, DayStart(s, day)) <= t <= ToUtc(z, DayStart(s, day + 1))
  {
    hide ToUtc;
    DayStarts(s, day, day + 1);
    DayStarts(s, day + 1, day + 1);
    ToUtcMonotone(z, DayStart(s, day), DayStart(s, day + 1));
    if s.Interval? {
      var start, end := ToUtc(z, Combine(day, s.windowStart)), ToUtc(z, WindowEnd(s, day));
      CombineIsWhole(day, s.windowEnd);
      CombineIsWhole(day + 1, s.windowEnd);
      ToUtcMonotone(z, WindowEnd(s, day), DayStart(s, day + 1));
      if start < end {
        StepsInRange(start, end, s.everyMinutes * 60_000_000, t);
      }
    } else {
      var i :| 0 <= i < |s.times| && t == ToUtc(z, Combine(day, s.times[i]));
      CombineIsWhole(day, s.times[i]);
      ToUtcMonotone(z, DayStart(s, day), Combine(day, s.times[i]));
      ToUtcMonotone(z, Combine(day, s.times[i]), DayStart(s, day + 1));
    }
  }

  lemma TimesInOrder(x: int, y: int, step: int)
    requires step > 0
    ensures x * step <= y * step <==> x <= y
  {
    if x <= y {
      assert x * step <= y * step;
    } else {
      assert (y + 1) * step <= x * step;
    }
  }

  lemma Multiples(a: int, step: int, i: int)
    requires step > 0
    ensures i * step <= a <==> i <= a / step
    ensures a == i * step ==> a % step == 0
    ensures a % step == 0 ==> a == a / step * step
  {
    assert a == a / step * step + a % step;
    TimesInOrder(i, a / step, step);
    TimesInOrder(a / step + 1, i, step);
    TimesInOrder(a / step, i, step);
  }

  /** The steps of a window are the instants in it a whole number of steps after its start. */
  lemma StepsInRange(start: int, end: int, step: int, t: int)
    requires step > 0 && start <= end
    ensures t in Steps(start, end, step) <==> start <= t <= end && (t - start) % step == 0
  {
    if t in Steps(start, end, step) {
      var i :| 0 <= i <= (end - start) / step && t == start + i * step;
      StepIsInRange(start, end, step, i);
    }
    if start <= t <= end && (t - start) % step == 0 {
      StepAt(start, end, step, t);
      assert Steps(start, end, step)[(t - start) / step] == t;
    }
  }

  lemma StepIsInRange(start: int, end: int, step: int, i: nat)
    requires step > 0 && start <= end && i <= (end - start) / step
    ensures start <= start + i * step <= end && (start + i * step - start) % step == 0
  {
    Multiples(end - start, step, i);
    Multiples(i * step, step, i);
  }

  lemma StepAt(start: int, end: int, step: int, t: int)
    requires step > 0 && start <= t <= end && (t - start) % step == 0
    ensures 0 <= (t - start) / step <= (end - start) / step && t == start + (t - start) / step * step
  {
    Multiples(t - start, step, (t - start) / step);
    Multiples(end - start, step, (t - start) / step);
  }

  /** Early break: the instants of a later day never come before those of an earlier one. */
  lemma DaysInOrder(s: Schedule, z: Zone, day: int, later: int, t: int, u: int)
    requires day < later && t in MomentsOfDay(s, z, day) && u in MomentsOfDay(s, z, later)
    ensures t <= u
  {
    hide ToUtc;
    MomentBounds(s, z, day, t);
    MomentBounds(s, z, later, u);
    DayStarts(s, day + 1, later);
    DayStarts(s, later, later);
    ToUtcMonotone(z, DayStart(s, day + 1), DayStart(s, later));
  }

  /** Once the clock has reached a reading it never shows more than a day less again. */
  lemma ClockAfter(z: Zone, n: int, t: int)
    requires Whole(n) && ToUtc(z, n) <= t
    ensures n - DAY <= Local(z, t)
  {
    hide ToUtc, Local;
    ToUtcIsFirst(z, n);
    if Local(z, t) < Local(z, ToUtc(z, n)) {
      FallsBackOnce(z, ToUtc(z, n), t);
    }
  }

  /** Margins: a day with an instant in `(after, until]` is at most one before the local day of
      `after` and at most one after the local day of `until`. */
  lemma MarginsSuffice(s: Schedule, z: Zone, after: int, until: int, day: int, t: int)
    requires t in MomentsOfDay(s, z, day) && after < t <= until
    ensures FirstDay(z, after) <= day <= DayOf(Local(z, until) + DAY)
  {
    hide ToUtc, MomentsOfDay, Local;
    MomentBounds(s, z, day, t);
    DayStarts(s, day, day + 1);
    DayStarts(s, day + 1, day + 1);
    ToUtcIsFirst(z, DayStart(s, day + 1));
    assert Local(z, after) < DayStart(s, day + 1) < Combine(day + 2, 0);
    ClockAfter(z, DayStart(s, day), until);
  }

  /** The first local day past the cap has not begun by the end of the range. */
  predicate CapHolds(z: Zone, after: int, until: int) {
    until < ToUtc(z, Combine(FirstDay(z, after) + MAX_LOCAL_DAYS + 1, 0))
  }

  lemma WithinSpan(z: Zone, after: int, until: int)
    requires DayOf(Local(z, until) + DAY) - FirstDay(z, after) <= MAX_LOCAL_DAYS
    ensures CapHolds(z, after, until)
  {
    hide ToUtc, Local;
    var n := Combine(FirstDay(z, after) + MAX_LOCAL_DAYS + 1, 0);
    CombineIsWhole(FirstDay(z, after) + MAX_LOCAL_DAYS + 1, 0);
    if ToUtc(z, n) <= until {
      ClockAfter(z, n, until);
    }
  }

  lemma NearUtc(z: Zone, t: int)
    ensures t - DAY < Local(z, t) < t + DAY
  {
  }

  lemma DaysWithin(n: int, m: int, days: int)
    requires n <= m + days * DAY
    ensures DayOf(n) - DayOf(m) <= days + 1
  {
  }

  /** Ten years less a week are within the cap in every zone. */
  lemma TenYearsWithinCap(z: Zone, after: int, until: int)
    requires until <= after + 3655 * DAY
    ensures CapHolds(z, after, until)
  {
    hide ToUtc, Local, CapHolds, DayOf;
    NearUtc(z, after);
    NearUtc(z, until);
    DaysWithin(Local(z, until) + DAY, Local(z, after) - DAY, 3659);
    WithinSpan(z, after, until);
  }

  /** Wall-clock time wins: a daily, weekly or monthly schedule fires, on the days it fires at all,
      at the first instant the local clock is at or after each of its times. */
  lemma WallClockDay(s: Schedule, z: Zone, day: int, t: int)
    requires !s.Once? && !s.Interval?
    ensures t in MomentsOfDay(s, z, day)
            <==> FiresOn(s, day) && exists time :: time in s.times && IsFirstAtOrAfter(z, Combine(day, time), t)
  {
    hide ToUtc, Local, FiresOn;
    forall time | time in s.times ensures IsFirstAtOrAfter(z, Combine(day, time), ToUtc(z, Combine(day, time))) {
      CombineIsWhole(day, time);
      ToUtcIsFirst(z, Combine(day, time));
    }
    if FiresOn(s, day) {
      if i :| 0 <= i < |s.times| && t == ToUtc(z, Combine(day, s.times[i])) {
        assert s.times[i] in s.times;
      }
      if time :| time in s.times && IsFirstAtOrAfter(z, Combine(day, time), t) {
        FirstIsUnique(z, Combine(day, time), t, ToUtc(z, Combine(day, time)));
        var i :| 0 <= i < |s.times| && s.times[i] == time;
        assert MomentsOfDay(s, z, day)[i] == t;
      }
    }
  }

  ghost predicate HasMoments(s: Schedule, z: Zone, day: int) {
    exists t :: t in MomentsOfDay(s, z, day)
  }

  lemma MomentsExactly(s: Schedule, z: Zone, day: int)
    ensures HasMoments(s, z, day) <==> !s.Once? && FiresOn(s, day)
  {
    hide ToUtc, FiresOn;
    if s.Interval? {
      IntervalDay(s, z, day, ToUtc(z, Combine(day, s.windowStart)));
      EveryWindowFires(s, day);
    } else if !s.Once? && FiresOn(s, day) {
      assert MomentsOfDay(s, z, day)[0] in MomentsOfDay(s, z, day);
    }
  }

  lemma EveryWindowFires(s: Schedule, day: int)
    requires s.Interval?
    ensures FiresOn(s, day)
  {
  }

  /** Every so many days, counted from 1970-01-01: the day itself fires, a day that fires is followed by
      the one so many days later, and none in between does. An interval schedule fires every day. */
  lemma DailyDays(s: Schedule, z: Zone, day: int, between: int)
    requires s.Daily?
    ensures HasMoments(s, z, 0)
    ensures HasMoments(s, z, day) ==> HasMoments(s, z, day + s.everyNDays)
    ensures HasMoments(s, z, day) && day < between < day + s.everyNDays ==> !HasMoments(s, z, between)
  {
    hide HasMoments;
    var n := s.everyNDays;
    MomentsExactly(s, z, 0);
    MomentsExactly(s, z, day);
    MomentsExactly(s, z, day + n);
    MomentsExactly(s, z, between);
    DailyMultiples(day, n, between);
  }

  lemma DailyMultiples(day: int, n: int, between: int)
    requires n >= 1
    ensures 0 % n == 0
    ensures day % n == 0 ==> (day + n) % n == 0
    ensures day % n == 0 && between % n == 0 && day < between ==> day + n <= between
  {
    Multiples(0, n, 0);
    if day % n == 0 {
      MultipleAdds(day, n);
      if between % n == 0 && day < between { NextMultiple(day, between, n); }
    }
  }

  lemma MultipleAdds(day: int, n: int)
    requires n >= 1 && day % n == 0
    ensures (day + n) % n == 0
  {
    Multiples(day, n, 0);
    Multiples(day + n, n, day / n + 1);
  }

  lemma NextMultiple(day: int, later: int, n: int)
    requires n >= 1 && day % n == 0 && later % n == 0 && day < later
    ensures day + n <= later
  {
    Multiples(day, n, 0);
    Multiples(later, n, 0);
    var p, q := day / n, later / n;
    TimesInOrder(q, p, n);
    TimesInOrder(p + 1, q, n);
  }

  lemma IntervalDays(s: Schedule, z: Zone, day: int)
    requires s.Interval?
    ensures HasMoments(s, z, day)
  {
    hide HasMoments;
    MomentsExactly(s, z, day);
    EveryWindowFires(s, day);
  }

  /** A weekly schedule repeats after seven days; in the week of Monday, 1970-01-05, it fires exactly on
      the weekdays listed. */
  lemma WeeklyDays(s: Schedule, z: Zone, day: int, k: nat)
    requires s.Weekly? && k < 7
    ensures HasMoments(s, z, day + 7) <==> HasMoments(s, z, day)
    ensures HasMoments(s, z, 4 + k) <==> k + 1 in s.weekdays
    ensures DateOf(4) == Date(1970, 1, 5)
  {
    hide HasMoments;
    MomentsExactly(s, z, day);
    MomentsExactly(s, z, day + 7);
    MomentsExactly(s, z, 4 + k);
    hide DateOf;
    WeekdaysAdvance(0);
    assert IsoWeekday(4 + k) == k + 1;
    assert IsoWeekday(day + 7) == IsoWeekday(day);
  }

  /** And a monthly one fires, in every month, on the days asked for: pulled back to the month's last day
      or dropped when the month is too short. */
  lemma MonthlyFires(s: Schedule, z: Zone, first: int, k: nat)
    requires s.Monthly? && DateOf(first).day == 1
    requires k < MonthLength(DateOf(first).year, DateOf(first).month)
    ensures HasMoments(s, z, first + k)
            <==> exists w :: w in s.days
                    && k + 1 == if s.lastDay then Min(w, MonthLength(DateOf(first).year, DateOf(first).month)) else w
  {
    hide HasMoments, DateOf, MonthLength, FiresOn;
    MomentsExactly(s, z, first + k);
    MonthlyDays(s, first, k);
  }

  /** What a day that fires fires at: once at each of its times. */
  lemma TimesOfDay(s: Schedule, z: Zone, day: int, t: int)
    requires !s.Once? && !s.Interval?
    ensures t in MomentsOfDay(s, z, day)
            <==> HasMoments(s, z, day) && exists time :: time in s.times && IsFirstAtOrAfter(z, Combine(day, time), t)
  {
    hide HasMoments, FiresOn, IsFirstAtOrAfter;
    MomentsExactly(s, z, day);
    WallClockDay(s, z, day, t);
  }

  /** An activity window ends the next time the clock reads its end, a whole day later when it reads that
      at the start. */
  lemma WindowEndIsNext(s: Schedule, day: int, n: int)
    requires s.Interval?
    ensures Combine(day, s.windowStart) < WindowEnd(s, day) <= Combine(day, s.windowStart) + DAY
    ensures TimeOf(WindowEnd(s, day)) == s.windowEnd
    ensures Combine(day, s.windowStart) < n < WindowEnd(s, day) ==> TimeOf(n) != s.windowEnd
  {
  }

  /** The absolute interval wins: a window fires at its start and then exactly every so many
      minutes while it lasts, whatever the local clock does meanwhile. */
  lemma IntervalDay(s: Schedule, z: Zone, day: int, t: int)
    requires s.Interval?
    ensures var start, end := ToUtc(z, Combine(day, s.windowStart)), ToUtc(z, WindowEnd(s, day));
      t in MomentsOfDay(s, z, day)
      <==> t == start || (start < t <= end && (t - start) % (s.everyMinutes * 60_000_000) == 0)
  {
    hide ToUtc, Steps, Combine, WindowEnd;
    var start, end := ToUtc(z, Combine(day, s.windowStart)), ToUtc(z, WindowEnd(s, day));
    if start < end {
      var step := s.everyMinutes * 60_000_000;
      StepsInRange(start, end, step, t);
      StartIsStep(start, end, step);
    }
  }

  lemma StartIsStep(start: int, end: int, step: int)
    requires step > 0 && start <= end
    ensures start in Steps(start, end, step)
  {
    assert Steps(start, end, step)[0] == start;
  }

  lemma DailyAgain(s: Schedule, z: Zone, m: nat)
    requires s.Daily?
    ensures HasMoments(s, z, m * s.everyNDays) && m <= m * s.everyNDays
  {
    hide HasMoments;
    MomentsExactly(s, z, m * s.everyNDays);
    Multiples(m * s.everyNDays, s.everyNDays, m);
    assert m * 1 <= m * s.everyNDays;
  }

  lemma WeeklyAgain(s: Schedule, z: Zone, m: nat)
    requires s.Weekly?
    ensures HasMoments(s, z, 3 + s.weekdays[0] + 7 * m) && m <= 3 + s.weekdays[0] + 7 * m
  {
    hide HasMoments;
    MomentsExactly(s, z, 3 + s.weekdays[0] + 7 * m);
    assert s.weekdays[0] in s.weekdays;
    assert IsoWeekday(3 + s.weekdays[0] + 7 * m) == s.weekdays[0];
  }

  /** A month of January asks for every day there is. */
  lemma MonthlyAgain(s: Schedule, z: Zone, m: nat) returns (day: int)
    requires s.Monthly?
    ensures HasMoments(s, z, day) && m <= day
  {
    hide HasMoments, Ordinal, DateOf;
    var first := Ordinal(Date(1970 + m, 1, 1)) - 719_163;
    DayOfDate(Date(1970 + m, 1, 1), first);
    YearsAscend(1970, 1970 + m);
    OrdinalOfEpoch();
    assert s.days[0] in s.days;
    MonthlyFires(s, z, first, s.days[0] - 1);
    day := first + s.days[0] - 1;
  }

  lemma SomeDayAgain(s: Schedule, z: Zone, m: nat) returns (day: int)
    requires !s.Once?
    ensures HasMoments(s, z, day) && m <= day
  {
    hide HasMoments;
    match s
    case Daily(_, n) =>
      DailyAgain(s, z, m);
      day := m * n;
    case Weekly(_, weekdays) =>
      WeeklyAgain(s, z, m);
      day := 3 + weekdays[0] + 7 * m;
    case Monthly(_, _, _) => day := MonthlyAgain(s, z, m);
    case Interval(_, _, _) =>
      IntervalDays(s, z, m);
      day := m;
  }

  lemma LaterDays(t: int) returns (m: nat)
    ensures forall day :: m <= day ==> t + DAY < Combine(day, 0)
  {
    m := if t < 0 then 2 else t / 86_400_000_000 + 2;
  }

  /** Every schedule but `once` fires again after any instant. */
  lemma FiresAgain(s: Schedule, z: Zone, t: int) returns (u: int)
    requires !s.Once?
    ensures t < u && Fires(s, z, u)
  {
    hide ToUtc, Local, MomentsOfDay;
    var m := LaterDays(t);
    var day := SomeDayAgain(s, z, m);
    u :| u in MomentsOfDay(s, z, day);
    MomentBounds(s, z, day, u);
    DayStarts(s, day, day);
    ToUtcIsFirst(z, DayStart(s, day));
    NearUtc(z, ToUtc(z, DayStart(s, day)));
  }

  // ---------------------------------------------------------------------------------------------
  // next_occurrences
  // ---------------------------------------------------------------------------------------------

  /** Stopping once more than `limit` instants are in hand changes nothing. */
  lemma EarlyBreak(s: Schedule, z: Zone, first: int, mid: int, last: int, after: int, until: int, limit: nat)
    requires mid <= last
    requires limit <= |Collected(s, z, first, mid, after, until)|
    ensures Take(Sorted(Collected(s, z, first, mid, after, until)), limit)
            == Take(Sorted(Collected(s, z, first, last, after, until)), limit)
  {
    hide MomentsOfDay;
    var low, all := Collected(s, z, first, mid, after, until), Collected(s, z, first, last, after, until);
    forall a, b | a in low && b in all - low ensures a < b {
      var d :| first <= d <= mid && a in MomentsOfDay(s, z, d);
      var e :| first <= e <= last && b in MomentsOfDay(s, z, e);
      DaysInOrder(s, z, d, e, a, b);
    }
    TakeIgnoresHigher(low, all, limit);
  }

  lemma DaysPastCap(s: Schedule, z: Zone, after: int, until: int, day: int, t: int)
    requires t in MomentsOfDay(s, z, day) && day > FirstDay(z, after) + MAX_LOCAL_DAYS
    ensures CapHolds(z, after, until) ==> until < t
  {
    hide ToUtc, Local, MomentsOfDay;
    var cap := FirstDay(z, after) + MAX_LOCAL_DAYS + 1;
    MomentBounds(s, z, day, t);
    DayStarts(s, day, day);
    CombineIsWhole(cap, 0);
    ToUtcMonotone(z, Combine(cap, 0), DayStart(s, day));
  }

  /** No day outside the ones looked at has an instant in the range. */
  lemma NothingMissed(s: Schedule, z: Zone, after: int, until: int, t: int)
    requires CapHolds(z, after, until) && !s.Once?
    requires after < t <= until && Fires(s, z, t)
    ensures FiresWithin(s, z, FirstDay(z, after), LastDay(z, after, until), t)
  {
    hide MomentsOfDay, ToUtc, Local, CapHolds;
    var day :| t in MomentsOfDay(s, z, day);
    MarginsSuffice(s, z, after, until, day, t);
    if day > FirstDay(z, after) + MAX_LOCAL_DAYS {
      DaysPastCap(s, z, after, until, day, t);
    }
  }

  lemma FiresWithinFires(s: Schedule, z: Zone, first: int, last: int, t: int)
    requires !s.Once? && FiresWithin(s, z, first, last, t)
    ensures Fires(s, z, t)
  {
    hide MomentsOfDay;
  }

  /** Whatever the cap, nothing is returned that does not fire in the range. */
  lemma ExpansionIsSound(s: Schedule, z: Zone, after: int, until: int, limit: int, t: int)
    requires t in Expansion(s, z, after, until, limit)
    ensures after < t <= until && Fires(s, z, t)
  {
    hide ToUtc, FirstDay, LastDay, FiresWithin;
    if !s.Once? {
      hide Fires;
      var first, last := FirstDay(z, after), LastDay(z, after, until);
      TakeSorted(Collected(s, z, first, last, after, until), limit);
      FiresWithinFires(s, z, first, last, t);
    }
  }

  lemma ExpansionSize(s: Schedule, z: Zone, after: int, until: int, limit: int)
    ensures |Expansion(s, z, after, until, limit)| <= Max(limit, 0)
  {
    hide ToUtc, FirstDay, LastDay, Collected;
  }

  /** The expansion is exactly the first `limit` firing instants in `(after, until]`: the margins
      lose nothing, and nothing is lost to the cap while the range ends before the first day past
      it. */
  lemma ExpansionIsExact(s: Schedule, z: Zone, after: int, until: int, limit: int)
    requires s.Once? || CapHolds(z, after, until)
    ensures IsExpansion(s, z, after, until, limit, Expansion(s, z, after, until, limit))
  {
    hide MomentsOfDay, ToUtc, Local, CapHolds, FiresWithin, FirstDay, LastDay, Collected, Sorted, Take,
         StrictlyAscending;
    if limit > 0 && after < until && !s.Once? {
      hide Fires;
      var all := Collected(s, z, FirstDay(z, after), LastDay(z, after, until), after, until);
      forall t ensures t in all <==> after < t <= until && Fires(s, z, t) {
        CollectedIs(s, z, after, until, t);
      }
      TakeSorted(all, limit);
    } else if limit > 0 && after < until {
      hide Fires;
      OnceIsExact(s, z, after, until, limit);
    } else {
      NothingIsExact(s, z, after, until, limit);
    }
  }

  /** The days looked at are all that matter. */
  lemma CollectedIs(s: Schedule, z: Zone, after: int, until: int, t: int)
    requires !s.Once? && CapHolds(z, after, until)
    ensures t in Collected(s, z, FirstDay(z, after), LastDay(z, after, until), after, until)
            <==> after < t <= until && Fires(s, z, t)
  {
    hide MomentsOfDay, ToUtc, Local, CapHolds, FiresWithin, FirstDay, LastDay, Fires;
    if after < t <= until {
      if Fires(s, z, t) { NothingMissed(s, z, after, until, t); }
      if FiresWithin(s, z, FirstDay(z, after), LastDay(z, after, until), t) {
        FiresWithinFires(s, z, FirstDay(z, after), LastDay(z, after, until), t);
      }
    }
  }

  lemma OnceIsExact(s: Schedule, z: Zone, after: int, until: int, limit: int)
    requires s.Once?
    ensures IsExpansion(s, z, after, until, limit, Expansion(s, z, after, until, limit))
  {
    hide ToUtc;
  }

  lemma NothingIsExact(s: Schedule, z: Zone, after: int, until: int, limit: int)
    requires limit <= 0 || until <= after
    ensures IsExpansion(s, z, after, until, limit, Expansion(s, z, after, until, limit))
  {
    hide Fires;
  }

  /** An instant within ten years is among the days looked at, wherever the range ends. */
  lemma SeenWithinCap(s: Schedule, z: Zone, after: int, until: int, t: int)
    requires !s.Once? && Fires(s, z, t) && after < t <= until && t <= after + 3650 * DAY
    ensures t in Collected(s, z, FirstDay(z, after), LastDay(z, after, until), after, until)
  {
    hide MomentsOfDay, ToUtc, Local, DayOf;
    var day :| t in MomentsOfDay(s, z, day);
    MarginsSuffice(s, z, after, until, day, t);
    MarginsSuffice(s, z, after, t, day, t);
    NearUtc(z, after);
    NearUtc(z, t);
    DaysWithin(Local(z, t) + DAY, Local(z, after) - DAY, 3654);
    assert FiresWithin(s, z, FirstDay(z, after), LastDay(z, after, until), t);
  }

  /** So the first firing is returned first, cap or no cap. */
  lemma FirstIsFirst(s: Schedule, z: Zone, after: int, until: int, limit: int, t: int)
    requires limit > 0 && Fires(s, z, t) && after < t <= until && t <= after + 3650 * DAY
    requires forall u :: after < u < t ==> !Fires(s, z, u)
    ensures var r := Expansion(s, z, after, until, limit); r != [] && r[0] == t
  {
    hide Fires, FirstDay, LastDay, Collected, Sorted, Take, FiresWithin;
    var r := Expansion(s, z, after, until, limit);
    if s.Once? {
      OnceIsExact(s, z, after, until, limit);
    } else {
      var all := Collected(s, z, FirstDay(z, after), LastDay(z, after, until), after, until);
      SeenWithinCap(s, z, after, until, t);
      TakeSorted(all, limit);
      FoundFirst(all, r, limit, t);
    }
    if r != [] {
      assert r[0] in r;
      ExpansionIsSound(s, z, after, until, limit, r[0]);
    }
  }

  lemma FoundFirst(all: set<int>, r: seq<int>, limit: int, t: int)
    requires limit > 0 && t in all && StrictlyAscending(r)
    requires forall u :: u in all && u !in r ==> |r| == limit && forall v :: v in r ==> v < u
    ensures r != [] && r[0] <= t
  {
    if t in r {
      var i :| 0 <= i < |r| && r[i] == t;
    } else {
      assert r[0] in r;
    }
  }

  /** Midnight of every such weekday. */
  predicate IsMidnights(s: Schedule, day: int) {
    s == Weekly([0], [IsoWeekday(day)])
  }

  function MidnightsAt(day: int): (s: Schedule)
    ensures IsMidnights(s, day) && !s.Once?
  {
    Weekly([0], [IsoWeekday(day)])
  }

  lemma MidnightsOf(s: Schedule, z: Zone, day: int, d: int)
    requires IsMidnights(s, day)
    ensures MomentsOfDay(s, z, d) == if IsoWeekday(d) == IsoWeekday(day) then [ToUtc(z, Combine(d, 0))] else []
  {
    hide ToUtc, IsoWeekday;
  }

  lemma BeginsAfter(z: Zone, after: int, day: int)
    requires FirstDay(z, after) + 3 <= day
    ensures after < ToUtc(z, Combine(day, 0))
  {
    hide ToUtc, Local;
    CombineIsWhole(day, 0);
    if ToUtc(z, Combine(day, 0)) <= after {
      ClockAfter(z, Combine(day, 0), after);
    }
  }

  lemma WeekBefore(d: int, day: int)
    requires d < day && IsoWeekday(d) == IsoWeekday(day)
    ensures d + 7 <= day
  {
  }

  /** No earlier day fires at the same midnight. */
  lemma MidnightIsNew(s: Schedule, z: Zone, day: int, d: int)
    requires IsMidnights(s, day) && d < day
    ensures ToUtc(z, Combine(day, 0)) !in MomentsOfDay(s, z, d)
  {
    hide ToUtc, IsoWeekday;
    MidnightsOf(s, z, day, d);
    if IsoWeekday(d) == IsoWeekday(day) {
      WeekBefore(d, day);
      CombineIsWhole(d, 0);
      CombineIsWhole(day, 0);
      TwoDaysApart(z, Combine(d, 0), Combine(day, 0));
    }
  }

  lemma LosesMoment(s: Schedule, z: Zone, after: int, until: int, limit: int, t: int)
    requires !s.Once? && after < t <= until && Fires(s, z, t)
    requires limit > |Collected(s, z, FirstDay(z, after), LastDay(z, after, until), after, until)|
    requires !FiresWithin(s, z, FirstDay(z, after), LastDay(z, after, until), t)
    ensures !IsExpansion(s, z, after, until, limit, Expansion(s, z, after, until, limit))
  {
    hide FiresWithin, FirstDay, LastDay, Fires;
  }

  lemma CapMidnight(s: Schedule, z: Zone, after: int, until: int, day: int)
    requires day == FirstDay(z, after) + MAX_LOCAL_DAYS + 1 && IsMidnights(s, day)
    ensures after < ToUtc(z, Combine(day, 0)) && Fires(s, z, ToUtc(z, Combine(day, 0)))
    ensures !FiresWithin(s, z, FirstDay(z, after), LastDay(z, after, until), ToUtc(z, Combine(day, 0)))
  {
    var t, last := ToUtc(z, Combine(day, 0)), LastDay(z, after, until);
    assert last < day;
    hide ToUtc, Local, FirstDay, LastDay, MomentsOfDay, IsMidnights;
    BeginsAfter(z, after, day);
    MidnightsOf(s, z, day, day);
    assert t in MomentsOfDay(s, z, day);
    forall d | d <= last ensures t !in MomentsOfDay(s, z, d) {
      MidnightIsNew(s, z, day, d);
    }
  }

  /** The cap is a real limit: once the first day past it has begun, a plain weekly schedule loses
      that day's instant. */
  lemma CapLosesMoments(z: Zone, after: int, until: int) returns (s: Schedule, limit: int)
    requires after < until && !CapHolds(z, after, until)
    ensures !IsExpansion(s, z, after, until, limit, Expansion(s, z, after, until, limit))
  {
    hide ToUtc, Local, FirstDay, LastDay, Collected, FiresWithin, Expansion, IsExpansion, IsoWeekday, Combine, Fires;
    var day := FirstDay(z, after) + MAX_LOCAL_DAYS + 1;
    s := MidnightsAt(day);
    limit := |Collected(s, z, FirstDay(z, after), LastDay(z, after, until), after, until)| + 1;
    CapMidnight(s, z, after, until, day);
    LosesMoment(s, z, after, until, limit, ToUtc(z, Combine(day, 0)));
  }

  lemma CapInDays(z: Zone, after: int, until: int)
    ensures CapHolds(z, after, until) <==> until < ToUtc(z, Combine(DayOf(Local(z, after) - DAY) + 3661, 0))
  {
    hide ToUtc, Local;
  }

  /** Every schedule is expanded in full, for any limit, exactly when the range ends before the first
      local day past the cap begins. */
  lemma CapIsExact(z: Zone, after: int, until: int)
    requires after < until
    ensures (forall s: Schedule, limit: int ::
             IsExpansion(s, z, after, until, limit, Expansion(s, z, after, until, limit)))
            <==> CapHolds(z, after, until)
    ensures CapHolds(z, after, until) <==> until < ToUtc(z, Combine(DayOf(Local(z, after) - DAY) + 3661, 0))
  {
    CapInDays(z, after, until);
    hide *;
    if CapHolds(z, after, until) {
      forall s: Schedule, limit: int
          ensures IsExpansion(s, z, after, until, limit, Expansion(s, z, after, until, limit)) {
        ExpansionIsExact(s, z, after, until, limit);
      }
    } else {
      var s, limit := CapLosesMoments(z, after, until);
    }
  }

  // ---------------------------------------------------------------------------------------------
  // The loops of the source
  // ---------------------------------------------------------------------------------------------

  method IntervalMoments(s: Schedule, z: Zone, day: int) returns (moments: seq<int>)
    requires s.Interval?
    ensures moments == MomentsOfDay(s, z, day)
  {
    hide ToUtc;
    var start, end := ToUtc(z, Combine(day, s.windowStart)), ToUtc(z, WindowEnd(s, day));
    if end <= start {
      return [start];
    }
    var step := s.everyMinutes * 60_000_000;
    moments := [];
    var current := start;
    while current <= end
      invariant current == start + |moments| * step
      invariant |moments| > 0 ==> start + (|moments| - 1) * step <= end
      invariant forall i :: 0 <= i < |moments| ==> moments[i] == start + i * step
      decreases end - current
    {
      moments := moments + [current];
      current := current + step;
    }
    Multiples(end - start, step, |moments| - 1);
    Multiples(end - start, step, |moments|);
  }

  method MonthlyMoments(s: Schedule, z: Zone, day: int) returns (moments: seq<int>)
    requires s.Monthly?
    ensures moments == MomentsOfDay(s, z, day)
  {
    hide ToUtc;
    var date := DateOf(day);
    var daysInMonth := MonthLength(date.year, date.month);
    var wanted := {};
    for i := 0 to |s.days|
      invariant wanted == Wanted(s.days[..i], s.lastDay, daysInMonth)
    {
      WantedOneMore(s.days, i, s.lastDay, daysInMonth);
      if s.days[i] <= daysInMonth {
        wanted := wanted + {s.days[i]};
      } else if s.lastDay {
        wanted := wanted + {daysInMonth};
      }
    }
    assert s.days[..|s.days|] == s.days;
    if date.day !in wanted {
      return [];
    }
    moments := seq(|s.times|, i requires 0 <= i < |s.times| => ToUtc(z, Combine(day, s.times[i])));
  }

  lemma WantedOneMore(days: seq<int>, i: nat, lastDay: bool, length: int)
    requires i < |days|
    ensures Wanted(days[..i + 1], lastDay, length)
            == Wanted(days[..i], lastDay, length) + if days[i] <= length then {days[i]} else if lastDay then {length}
               else {}
  {
    var a, b := days[..i], days[..i + 1];
    assert b == a + [days[i]];
    forall w ensures w in b <==> w in a || w == days[i] {
      assert days[i] in b;
    }
    assert (set w | w in b && w <= length) == (set w | w in a && w <= length) + if days[i] <= length then {days[i]}
           else {};
    BeyondOneMore(days, i, length);
    hide AsksBeyond;
  }

  lemma BeyondOneMore(days: seq<int>, i: nat, length: int)
    requires i < |days|
    ensures AsksBeyond(days[..i + 1], length) <==> AsksBeyond(days[..i], length) || days[i] > length
  {
    var a, b := days[..i], days[..i + 1];
    if j :| 0 <= j < |a| && a[j] > length { assert b[j] > length; }
    if days[i] > length { assert b[i] > length; }
    if AsksBeyond(b, length) && days[i] <= length {
      var j :| 0 <= j < |b| && b[j] > length;
      assert a[j] > length;
    }
  }

  method NextOccurrences(s: Schedule, z: Zone, after: int, until: int, limit: int) returns (r: seq<int>)
    ensures r == Expansion(s, z, after, until, limit)
  {
    hide ToUtc, Local, FiresWithin;
    if limit <= 0 || until <= after {
      return [];
    }
    if s.Once? {
      var moment := ToUtc(z, s.moment);
      return if after < moment <= until then [moment] else [];
    }
    hide FirstDay, LastDay;
    SpanNotNegative(z, after, until);
    var found := CollectDays(s, z, FirstDay(z, after), LastDay(z, after, until), after, until, limit);
    r := Take(Sorted(found), limit);
  }

  /** The loop over local days, with its early break. */
  method CollectDays(s: Schedule, z: Zone, first: int, last: int, after: int, until: int, limit: nat)
    returns (found: set<int>)
    requires first <= last
    ensures Take(Sorted(found), limit) == Take(Sorted(Collected(s, z, first, last, after, until)), limit)
  {
    hide MomentsOfDay, FiresWithin, Sorted, Take;
    NothingCollected(s, z, first, after, until);
    found := {};
    var day := first;
    while day <= last
      invariant first <= day <= last + 1
      invariant found == Collected(s, z, first, day - 1, after, until)
    {
      var moments := MomentsOn(s, z, day);
      OneMoreDay(s, z, first, day, after, until, set m | m in moments && after < m <= until);
      found := Collect(found, moments, after, until);
      if |found| >= limit + SAFETY_BUFFER {
        EarlyBreak(s, z, first, day, last, after, until, limit);
        return;
      }
      day := day + 1;
    }
  }

  method MomentsOn(s: Schedule, z: Zone, day: int) returns (moments: seq<int>)
    ensures moments == MomentsOfDay(s, z, day)
  {
    if s.Interval? {
      moments := IntervalMoments(s, z, day);
    } else if s.Monthly? {
      moments := MonthlyMoments(s, z, day);
    } else {
      moments := MomentsOfDay(s, z, day);
    }
  }

  method Collect(before: set<int>, moments: seq<int>, after: int, until: int) returns (found: set<int>)
    ensures found == before + set m | m in moments && after < m <= until
  {
    found := before;
    for i := 0 to |moments|
      invariant found == before + set m | m in moments[..i] && after < m <= until
    {
      if after < moments[i] <= until {
        found := found + {moments[i]};
      }
    }
    assert moments[..|moments|] == moments;
  }

  lemma SpanNotNegative(z: Zone, after: int, until: int)
    requires after < until
    ensures FirstDay(z, after) <= LastDay(z, after, until)
  {
    if Local(z, until) < Local(z, after) {
      FallsBackOnce(z, after, until);
    }
  }

  lemma NothingCollected(s: Schedule, z: Zone, first: int, after: int, until: int)
    ensures Collected(s, z, first, first - 1, after, until) == {}
  {
  }

  lemma OneMoreDay(s: Schedule, z: Zone, first: int, day: int, after: int, until: int, added: set<int>)
    requires first <= day
    requires forall m :: m in added <==> m in MomentsOfDay(s, z, day) && after < m <= until
    ensures Collected(s, z, first, day, after, until) == Collected(s, z, first, day - 1, after, until) + added
  {
    hide MomentsOfDay;
  }
}
