/** Streaks and completion counts over the journal. */
module Stats {
  import opened Zones
  import opened Ordering
  import opened Contracts

  datatype Record = Record(happenedAt: int, kind: ActionKind, category: int)

  datatype PeriodStats = PeriodStats(completed: nat, total: nat)

  datatype Measures = Measures(currentStreak: nat, longestStreak: nat, last7Days: PeriodStats, last30Days: PeriodStats)

  datatype CategoryStats = CategoryStats(category: int, measures: Measures)

  datatype Summary = Summary(overall: Measures, byCategory: seq<CategoryStats>)

  // ---------------------------------------------------------------------------------------------
  // Streaks
  // ---------------------------------------------------------------------------------------------

  /** `length` consecutive days from `first` on. */
  ghost predicate IsStreak(days: set<int>, first: int, length: nat) {
    forall d :: first <= d < first + length ==> d in days
  }

  /** The day a current streak has to end on: an empty today does not break it yet. */
  function LastDayOf(days: set<int>, today: int): int {
    if today in days then today else today - 1
  }

  /** The days just before and including the last one, as far back as they go. */
  ghost predicate IsCurrentStreak(days: set<int>, today: int, length: nat) {
    var last := LastDayOf(days, today);
    IsStreak(days, last - length + 1, length) && last - length !in days
  }

  /** The length of the longest stretch of consecutive days. */
  ghost predicate IsLongestStreak(days: set<int>, length: nat) {
    && (exists first :: IsStreak(days, first, length))
    && (forall first, n: nat :: IsStreak(days, first, n) ==> n <= length)
  }

  /** Either number is determined by the days alone, whatever order they are looked at in. */
  lemma StreaksAreUnique(days: set<int>, today: int, a: nat, b: nat)
    ensures IsCurrentStreak(days, today, a) && IsCurrentStreak(days, today, b) ==> a == b
    ensures IsLongestStreak(days, a) && IsLongestStreak(days, b) ==> a == b
  {
  }

  /** The current streak never exceeds the longest one. */
  lemma CurrentWithinLongest(days: set<int>, today: int, current: nat, longest: nat)
    requires IsCurrentStreak(days, today, current) && IsLongestStreak(days, longest)
    ensures current <= longest
  {
  }

  /** Neither streak of one category exceeds the overall one. */
  lemma CategoryStreaksWithin(some: set<int>, all: set<int>, today: int, m: nat, n: nat)
    requires some <= all
    ensures IsCurrentStreak(some, today, m) && IsCurrentStreak(all, today, n) ==> m <= n
    ensures IsLongestStreak(some, m) && IsLongestStreak(all, n) ==> m <= n
  {
    if IsLongestStreak(some, m) && IsLongestStreak(all, n) {
      var first :| IsStreak(some, first, m);
      assert IsStreak(all, first, m);
    }
  }

  ghost function UpTo(days: set<int>, day: int): set<int> {
    set d | d in days && d <= day
  }

  ghost function From(days: set<int>, day: int): set<int> {
    set d | d in days && day <= d
  }

  lemma FewerLeft(days: set<int>, day: int)
    requires day in days
    ensures |UpTo(days, day - 1)| < |UpTo(days, day)| && |From(days, day + 1)| < |From(days, day)|
  {
    assert UpTo(days, day) == UpTo(days, day - 1) + {day};
    assert From(days, day) == From(days, day + 1) + {day};
  }

  method CurrentStreak(days: set<int>, today: int) returns (streak: nat)
    ensures IsCurrentStreak(days, today, streak)
  {
    var last := if today in days then today else today - 1;
    var cursor := last;
    streak := 0;
    while cursor in days
      invariant cursor == last - streak
      invariant IsStreak(days, cursor + 1, streak)
      decreases |UpTo(days, cursor)|
    {
      FewerLeft(days, cursor);
      streak := streak + 1;
      cursor := cursor - 1;
    }
  }

  /** The first day of the streak a day belongs to. */
  lemma {:induction false} FirstOf(days: set<int>, day: int) returns (first: int)
    requires day in days
    ensures first <= day && first in days && first - 1 !in days && IsStreak(days, first, day - first + 1)
    decreases |UpTo(days, day)|
  {
    first := day;
    if day - 1 in days {
      FewerLeft(days, day);
      first := FirstOf(days, day - 1);
    }
  }

  /** The streak that starts on `day` is no longer than `length`. */
  ghost predicate EndsWithin(days: set<int>, day: int, length: nat) {
    forall n: nat :: IsStreak(days, day, n) ==> n <= length
  }

  lemma StreakEnds(days: set<int>, day: int, length: nat, bound: nat)
    requires day + length !in days && length <= bound
    ensures EndsWithin(days, day, bound)
  {
  }

  /** Looking at the first days of streaks is enough. */
  lemma FirstDaysSuffice(days: set<int>, best: nat)
    requires forall d :: d in days && d - 1 !in days ==> EndsWithin(days, d, best)
    ensures forall first, n: nat :: IsStreak(days, first, n) ==> n <= best
  {
    forall first, n: nat | IsStreak(days, first, n) ensures n <= best {
      if n > 0 {
        var start := FirstOf(days, first);
        assert IsStreak(days, start, first - start + n);
      }
    }
  }

  method LengthFrom(days: set<int>, day: int) returns (length: nat)
    ensures IsStreak(days, day, length) && day + length !in days
  {
    length := 0;
    var cursor := day;
    while cursor in days
      invariant cursor == day + length
      invariant IsStreak(days, day, length)
      decreases |From(days, cursor)|
    {
      FewerLeft(days, cursor);
      length := length + 1;
      cursor := cursor + 1;
    }
  }

  method LongestStreak(days: set<int>) returns (best: nat)
    ensures IsLongestStreak(days, best)
  {
    best := 0;
    var left := days;
    assert IsStreak(days, 0, 0);
    while left != {}
      invariant left <= days
      invariant exists first :: IsStreak(days, first, best)
      invariant forall d :: d in days && d !in left && d - 1 !in days ==> EndsWithin(days, d, best)
      decreases |left|
    {
      EmptyOrNot(left);
      var day :| day in left;
      left := left - {day};
      if day - 1 !in days {
        var length := LengthFrom(days, day);
        StreakEnds(days, day, length, Max(best, length));
        best := Max(best, length);
      }
    }
    FirstDaysSuffice(days, best);
  }

  // ---------------------------------------------------------------------------------------------
  // Windows and categories
  // ---------------------------------------------------------------------------------------------

  function Filter(xs: seq<Record>, p: Record -> bool): (ys: seq<Record>)
    ensures forall r :: r in ys <==> r in xs && p(r)
  {
    if xs == [] then []
    else
      var last := xs[|xs| - 1];
      Filter(xs[..|xs| - 1], p) + if p(last) then [last] else []
  }

  function Outcome(): Record -> bool {
    (r: Record) => IsOutcome(r.kind)
  }

  function Completed(): Record -> bool {
    (r: Record) => r.kind == DoneAction
  }

  /** A rolling window `(now - days, now]` of real time. */
  function Within(now: int, days: int): Record -> bool {
    (r: Record) => now - days * 86_400_000_000 < r.happenedAt <= now
  }

  function Of(category: int): Record -> bool {
    (r: Record) => r.category == category
  }

  function Period(xs: seq<Record>, now: int, days: int): PeriodStats {
    var window := Filter(xs, Within(now, days));
    PeriodStats(|Filter(window, Completed())|, |window|)
  }

  function DoneDays(xs: seq<Record>, z: Zone): set<int> {
    set r | r in xs && r.kind == DoneAction :: DayOf(Local(z, r.happenedAt))
  }

  function Categories(xs: seq<Record>): set<int> {
    set r | r in xs :: r.category
  }

  /** What `_measure` returns for a set of outcomes. */
  ghost predicate IsMeasured(xs: seq<Record>, z: Zone, now: int, m: Measures) {
    && IsCurrentStreak(DoneDays(xs, z), DayOf(Local(z, now)), m.currentStreak)
    && IsLongestStreak(DoneDays(xs, z), m.longestStreak)
    && m.last7Days == Period(xs, now, 7)
    && m.last30Days == Period(xs, now, 30)
  }

  /** One entry per category with an outcome, in the order of their ids. */
  ghost predicate IsBreakdown(xs: seq<Record>, z: Zone, now: int, entries: seq<CategoryStats>) {
    var ids := Sorted(Categories(xs));
    && |entries| == |ids|
    && forall i :: 0 <= i < |ids|
          ==> entries[i].category == ids[i] && IsMeasured(Filter(xs, Of(ids[i])), z, now, entries[i].measures)
  }

  ghost predicate IsSummary(records: seq<Record>, z: Zone, now: int, s: Summary) {
    var outcomes := Filter(records, Outcome());
    IsMeasured(outcomes, z, now, s.overall) && IsBreakdown(outcomes, z, now, s.byCategory)
  }

  method Measure(xs: seq<Record>, z: Zone, now: int) returns (m: Measures)
    ensures IsMeasured(xs, z, now, m)
  {
    hide Local, Filter, IsCurrentStreak, IsLongestStreak;
    var current := CurrentStreak(DoneDays(xs, z), DayOf(Local(z, now)));
    var longest := LongestStreak(DoneDays(xs, z));
    m := Measures(current, longest, Period(xs, now, 7), Period(xs, now, 30));
  }

  method Breakdown(xs: seq<Record>, z: Zone, now: int) returns (entries: seq<CategoryStats>)
    ensures IsBreakdown(xs, z, now, entries)
  {
    hide Filter, IsMeasured, Sorted;
    entries := [];
    var ids := Sorted(Categories(xs));
    for i := 0 to |ids|
      invariant |entries| == i
      invariant forall j :: 0 <= j < i
                   ==> entries[j].category == ids[j] && IsMeasured(Filter(xs, Of(ids[j])), z, now, entries[j].measures)
    {
      var measures := Measure(Filter(xs, Of(ids[i])), z, now);
      entries := entries + [CategoryStats(ids[i], measures)];
    }
  }

  method BuildSummary(records: seq<Record>, z: Zone, now: int) returns (s: Summary)
    ensures IsSummary(records, z, now, s)
  {
    hide Filter, IsMeasured, IsBreakdown;
    var outcomes := Filter(records, Outcome());
    var overall := Measure(outcomes, z, now);
    var entries := Breakdown(outcomes, z, now);
    s := Summary(overall, entries);
  }

  // ---------------------------------------------------------------------------------------------
  // What is counted
  // ---------------------------------------------------------------------------------------------

  function Both(p: Record -> bool, q: Record -> bool): Record -> bool {
    (r: Record) => p(r) && q(r)
  }

  lemma FilterNext(xs: seq<Record>, p: Record -> bool)
    requires xs != []
    ensures var init, last := xs[..|xs| - 1], xs[|xs| - 1];
      Filter(xs, p) == if p(last) then Filter(init, p) + [last] else Filter(init, p)
  {
  }

  lemma {:induction false} FilterAgain(xs: seq<Record>, p: Record -> bool, q: Record -> bool)
    ensures Filter(Filter(xs, p), q) == Filter(xs, Both(p, q))
  {
    if xs != [] {
      var init, last := xs[..|xs| - 1], xs[|xs| - 1];
      FilterAgain(init, p, q);
      var ys := Filter(init, p);
      FilterNext(xs, p);
      FilterNext(xs, Both(p, q));
      if p(last) {
        assert (ys + [last])[..|ys|] == ys;
        FilterNext(ys + [last], q);
      }
    }
  }

  ghost function Places(xs: seq<Record>, p: Record -> bool): set<int> {
    set i | 0 <= i < |xs| && p(xs[i])
  }

  lemma {:induction false} FilterCounts(xs: seq<Record>, p: Record -> bool)
    ensures |Filter(xs, p)| == |Places(xs, p)|
  {
    if xs != [] {
      var init, last := xs[..|xs| - 1], xs[|xs| - 1];
      FilterCounts(init, p);
      assert Places(xs, p) == Places(init, p) + if p(last) then {|xs| - 1} else {};
    }
  }

  /** The journal entries that count: an answer or a recorded silence, never a snooze. */
  predicate IsCounted(r: Record, now: int, days: int) {
    && (r.kind == DoneAction || r.kind == SkipAction || r.kind == AutoExpireAction)
    && now - days * 86_400_000_000 < r.happenedAt <= now
  }

  ghost function Counted(records: seq<Record>, now: int, days: int): set<int> {
    set i | 0 <= i < |records| && IsCounted(records[i], now, days)
  }

  ghost function CountedIn(records: seq<Record>, now: int, days: int, category: int): set<int> {
    set i | 0 <= i < |records| && IsCounted(records[i], now, days) && records[i].category == category
  }

  lemma PeriodOf(records: seq<Record>, p: Record -> bool, now: int, days: int)
    ensures var period := Period(Filter(records, p), now, days);
      && period.total == |set i | 0 <= i < |records| && p(records[i]) && Within(now, days)(records[i])|
      && period.completed
         == |set i | 0 <= i < |records| && p(records[i]) && Within(now, days)(records[i])
            && records[i].kind == DoneAction|
  {
    var window := Both(p, Within(now, days));
    hide Filter, Within;
    FilterAgain(records, p, Within(now, days));
    FilterAgain(records, window, Completed());
    FilterCounts(records, window);
    FilterCounts(records, Both(window, Completed()));
    assert Places(records, window) == set i | 0 <= i < |records| && p(records[i]) && Within(now, days)(records[i]);
    assert Places(records, Both(window, Completed()))
      == set i | 0 <= i < |records| && p(records[i]) && Within(now, days)(records[i]) && records[i].kind == DoneAction;
  }

  /** The windows count every outcome of the last seven and thirty days, completed are those answered with
      done, and the streaks are over the local days with one of these. */
  lemma SummaryCounts(records: seq<Record>, z: Zone, now: int, s: Summary)
    requires IsSummary(records, z, now, s)
    ensures s.overall.last7Days.total == |Counted(records, now, 7)|
    ensures s.overall.last30Days.total == |Counted(records, now, 30)|
    ensures s.overall.last7Days.completed == |set i | i in Counted(records, now, 7) && records[i].kind == DoneAction|
    ensures s.overall.last30Days.completed == |set i | i in Counted(records, now, 30) && records[i].kind == DoneAction|
    ensures var days := set r | r in records && r.kind == DoneAction :: DayOf(Local(z, r.happenedAt));
      && IsCurrentStreak(days, DayOf(Local(z, now)), s.overall.currentStreak)
      && IsLongestStreak(days, s.overall.longestStreak)
  {
    hide Local, IsCurrentStreak, IsLongestStreak, IsBreakdown, Period;
    PeriodCounted(records, now, 7);
    PeriodCounted(records, now, 30);
    DaysCounted(records, z);
  }

  lemma DaysCounted(records: seq<Record>, z: Zone)
    ensures DoneDays(Filter(records, Outcome()), z)
            == set r | r in records && r.kind == DoneAction :: DayOf(Local(z, r.happenedAt))
  {
    hide Local;
  }

  lemma PeriodCounted(records: seq<Record>, now: int, days: int)
    ensures var period := Period(Filter(records, Outcome()), now, days);
      && period.total == |Counted(records, now, days)|
      && period.completed == |set i | i in Counted(records, now, days) && records[i].kind == DoneAction|
  {
    PeriodOf(records, Outcome(), now, days);
    KindsCounted(records, now, days);
    hide Period;
  }

  lemma KindsCounted(records: seq<Record>, now: int, days: int)
    ensures Counted(records, now, days)
            == set i | 0 <= i < |records| && Outcome()(records[i]) && Within(now, days)(records[i])
    ensures (set i | i in Counted(records, now, days) && records[i].kind == DoneAction)
            == set i | 0 <= i < |records| && Outcome()(records[i]) && Within(now, days)(records[i])
                       && records[i].kind == DoneAction
  {
    forall i | 0 <= i < |records|
      ensures IsCounted(records[i], now, days) <==> Outcome()(records[i]) && Within(now, days)(records[i])
    {
      var k := records[i].kind;
      assert k.DoneAction? || k.SkipAction? || k.SnoozeAction? || k.AutoExpireAction?;
    }
    hide IsCounted, Outcome, Within;
  }

  /** A category has an entry exactly when it has an outcome, and the entry counts its own outcomes. */
  lemma EntryCounts(records: seq<Record>, z: Zone, now: int, s: Summary, category: int)
    requires IsSummary(records, z, now, s)
    ensures (exists e :: e in s.byCategory && e.category == category)
            <==> exists r :: r in records && r.category == category && IsOutcome(r.kind)
    ensures forall e :: e in s.byCategory && e.category == category ==>
              && e.measures.last7Days.total == |CountedIn(records, now, 7, category)|
              && e.measures.last30Days.total == |CountedIn(records, now, 30, category)|
              && e.measures.last7Days.completed
                 == |set i | i in CountedIn(records, now, 7, category) && records[i].kind == DoneAction|
              && e.measures.last30Days.completed
                 == |set i | i in CountedIn(records, now, 30, category) && records[i].kind == DoneAction|
  {
    hide Filter, IsSummary, DoneDays, Local, IsCurrentStreak, IsLongestStreak, Period, CountedIn, Outcome;
    EntriesExactly(records, z, now, s, category);
    EntriesMeasured(records, z, now, s, category);
    CategoryCounted(records, now, 7, category);
    CategoryCounted(records, now, 30, category);
  }

  lemma EntriesMeasured(records: seq<Record>, z: Zone, now: int, s: Summary, category: int)
    requires IsSummary(records, z, now, s)
    ensures forall e :: e in s.byCategory && e.category == category
              ==> IsMeasured(Filter(Filter(records, Outcome()), Of(category)), z, now, e.measures)
  {
    hide Filter, IsMeasured;
    forall e | e in s.byCategory && e.category == category
      ensures IsMeasured(Filter(Filter(records, Outcome()), Of(category)), z, now, e.measures)
    {
      var i :| 0 <= i < |s.byCategory| && s.byCategory[i] == e;
    }
  }

  lemma EntriesExactly(records: seq<Record>, z: Zone, now: int, s: Summary, category: int)
    requires IsSummary(records, z, now, s)
    ensures (exists e :: e in s.byCategory && e.category == category)
            <==> exists r :: r in records && r.category == category && IsOutcome(r.kind)
  {
    hide IsMeasured, Sorted;
    var outcomes := Filter(records, Outcome());
    var ids := Sorted(Categories(outcomes));
    if r :| r in records && r.category == category && IsOutcome(r.kind) {
      assert r in outcomes && category in Categories(outcomes) && category in ids;
      var i :| 0 <= i < |ids| && ids[i] == category;
      assert s.byCategory[i] in s.byCategory;
    }
    if e :| e in s.byCategory && e.category == category {
      var i :| 0 <= i < |s.byCategory| && s.byCategory[i] == e;
      assert ids[i] in ids && category in Categories(outcomes);
    }
  }

  lemma CategoryCounted(records: seq<Record>, now: int, days: int, category: int)
    ensures var period := Period(Filter(Filter(records, Outcome()), Of(category)), now, days);
      && period.total == |CountedIn(records, now, days, category)|
      && period.completed == |set i | i in CountedIn(records, now, days, category) && records[i].kind == DoneAction|
  {
    var p := Both(Outcome(), Of(category));
    FilterAgain(records, Outcome(), Of(category));
    PeriodOf(records, p, now, days);
    hide Period, Filter;
    KindsCounted(records, now, days);
    assert CountedIn(records, now, days, category)
      == set i | 0 <= i < |records| && p(records[i]) && Within(now, days)(records[i]) by {
      forall i | 0 <= i < |records|
        ensures i in CountedIn(records, now, days, category) <==> p(records[i]) && Within(now, days)(records[i])
      {
        assert i in Counted(records, now, days) <==> Outcome()(records[i]) && Within(now, days)(records[i]);
      }
    }
    assert (set i | i in CountedIn(records, now, days, category) && records[i].kind == DoneAction)
      == set i | 0 <= i < |records| && p(records[i]) && Within(now, days)(records[i]) && records[i].kind == DoneAction;
  }

  // ---------------------------------------------------------------------------------------------
  // Order does not matter
  // ---------------------------------------------------------------------------------------------

  lemma {:induction false} Filtered(xs: seq<Record>, p: Record -> bool, r: Record)
    ensures multiset(Filter(xs, p))[r] == if p(r) then multiset(xs)[r] else 0
  {
    if xs != [] {
      var init, last := xs[..|xs| - 1], xs[|xs| - 1];
      Filtered(init, p, r);
      assert xs == init + [last];
    }
  }

  lemma FilterOfPermutation(xs: seq<Record>, ys: seq<Record>, p: Record -> bool)
    requires multiset(xs) == multiset(ys)
    ensures multiset(Filter(xs, p)) == multiset(Filter(ys, p)) && |Filter(xs, p)| == |Filter(ys, p)|
  {
    hide Filter;
    var a, b := multiset(Filter(xs, p)), multiset(Filter(ys, p));
    forall r ensures a[r] == b[r] {
      Filtered(xs, p, r);
      Filtered(ys, p, r);
    }
    assert a == b;
    assert |a| == |Filter(xs, p)| && |b| == |Filter(ys, p)|;
  }

  lemma SameRecords(xs: seq<Record>, ys: seq<Record>, z: Zone)
    requires multiset(xs) == multiset(ys)
    ensures DoneDays(xs, z) == DoneDays(ys, z) && Categories(xs) == Categories(ys)
  {
    hide Local;
    assert forall r :: r in xs <==> r in multiset(xs);
    assert forall r :: r in ys <==> r in multiset(ys);
  }

  lemma SamePeriod(xs: seq<Record>, ys: seq<Record>, now: int, days: int)
    requires multiset(xs) == multiset(ys)
    ensures Period(xs, now, days) == Period(ys, now, days)
  {
    hide Filter;
    FilterOfPermutation(xs, ys, Within(now, days));
    FilterOfPermutation(Filter(xs, Within(now, days)), Filter(ys, Within(now, days)), Completed());
  }

  lemma SameMeasures(xs: seq<Record>, ys: seq<Record>, z: Zone, now: int, m: Measures, n: Measures)
    requires multiset(xs) == multiset(ys) && IsMeasured(xs, z, now, m) && IsMeasured(ys, z, now, n)
    ensures m == n
  {
    hide Filter, Local, IsCurrentStreak, IsLongestStreak, Period, DoneDays;
    SameRecords(xs, ys, z);
    SamePeriod(xs, ys, now, 7);
    SamePeriod(xs, ys, now, 30);
    StreaksAreUnique(DoneDays(xs, z), DayOf(Local(z, now)), m.currentStreak, n.currentStreak);
    StreaksAreUnique(DoneDays(xs, z), DayOf(Local(z, now)), m.longestStreak, n.longestStreak);
  }

  /** The same history gives the same summary, in whatever order its rows come. */
  lemma SummaryIgnoresOrder(xs: seq<Record>, ys: seq<Record>, z: Zone, now: int, s: Summary, t: Summary)
    requires multiset(xs) == multiset(ys) && IsSummary(xs, z, now, s) && IsSummary(ys, z, now, t)
    ensures s == t
  {
    hide Filter, IsMeasured, Sorted, Categories;
    var a, b := Filter(xs, Outcome()), Filter(ys, Outcome());
    FilterOfPermutation(xs, ys, Outcome());
    SameMeasures(a, b, z, now, s.overall, t.overall);
    SameRecords(a, b, z);
    var ids := Sorted(Categories(a));
    forall i | 0 <= i < |ids| ensures s.byCategory[i] == t.byCategory[i] {
      FilterOfPermutation(a, b, Of(ids[i]));
      SameMeasures(Filter(a, Of(ids[i])), Filter(b, Of(ids[i])), z, now, s.byCategory[i].measures,
                   t.byCategory[i].measures);
    }
    assert s.byCategory == t.byCategory;
  }

  // ---------------------------------------------------------------------------------------------
  // Categories add up
  // ---------------------------------------------------------------------------------------------

  /** How many of the records of the listed categories satisfy `p`, category by category. */
  ghost function TotalOf(xs: seq<Record>, ids: seq<int>, p: Record -> bool): nat {
    if ids == [] then 0
    else TotalOf(xs, ids[..|ids| - 1], p) + |Filter(Filter(xs, Of(ids[|ids| - 1])), p)|
  }

  lemma OneMoreRecord(xs: seq<Record>, r: Record, p: Record -> bool)
    ensures Filter(xs + [r], p) == Filter(xs, p) + if p(r) then [r] else []
  {
    assert (xs + [r])[..|xs|] == xs;
  }

  lemma {:induction false} TotalOfOneMore(xs: seq<Record>, r: Record, ids: seq<int>, p: Record -> bool)
    requires StrictlyAscending(ids)
    ensures TotalOf(xs + [r], ids, p) == TotalOf(xs, ids, p) + if p(r) && r.category in ids then 1 else 0
  {
    hide Filter;
    if ids != [] {
      var init, id := ids[..|ids| - 1], ids[|ids| - 1];
      TotalOfOneMore(xs, r, init, p);
      OneMoreRecord(xs, r, Of(id));
      OneMoreRecord(Filter(xs, Of(id)), r, p);
      assert ids == init + [id];
      if r.category != id { assert Filter(xs + [r], Of(id)) == Filter(xs, Of(id)); }
    }
  }

  lemma {:induction false} NothingToTotal(ids: seq<int>, p: Record -> bool)
    ensures TotalOf([], ids, p) == 0
  {
    if ids != [] { NothingToTotal(ids[..|ids| - 1], p); }
  }

  lemma {:induction false} CategoriesAddUp(xs: seq<Record>, ids: seq<int>, p: Record -> bool)
    requires StrictlyAscending(ids) && forall r :: r in xs ==> r.category in ids
    ensures TotalOf(xs, ids, p) == |Filter(xs, p)|
  {
    hide TotalOf;
    if xs == [] {
      NothingToTotal(ids, p);
    } else {
      var init, last := xs[..|xs| - 1], xs[|xs| - 1];
      assert xs == init + [last];
      CategoriesAddUp(init, ids, p);
      TotalOfOneMore(init, last, ids, p);
    }
  }

  /** The windows of the listed entries, added up. */
  ghost function SumOf(entries: seq<CategoryStats>, weekly: bool): PeriodStats {
    if entries == [] then PeriodStats(0, 0)
    else
      var init, last := SumOf(entries[..|entries| - 1], weekly), entries[|entries| - 1].measures;
      var period := if weekly then last.last7Days else last.last30Days;
      PeriodStats(init.completed + period.completed, init.total + period.total)
  }

  /** Both conditions of a window at once, so that one pass counts the completions in it. */
  function CompletedWithin(now: int, days: int): Record -> bool {
    (r: Record) => Within(now, days)(r) && Completed()(r)
  }

  lemma {:induction false} FilterTwice(xs: seq<Record>, now: int, days: int)
    ensures Filter(Filter(xs, Within(now, days)), Completed()) == Filter(xs, CompletedWithin(now, days))
  {
    if xs != [] {
      var init, last := xs[..|xs| - 1], xs[|xs| - 1];
      FilterTwice(init, now, days);
      if Within(now, days)(last) {
        OneMoreRecord(Filter(init, Within(now, days)), last, Completed());
      } else {
        assert Filter(xs, Within(now, days)) == Filter(init, Within(now, days));
      }
    }
  }

  lemma {:induction false} EntriesAddUp(xs: seq<Record>, ids: seq<int>, z: Zone, now: int, entries: seq<CategoryStats>,
                                        weekly: bool)
    requires |entries| == |ids|
    requires forall i :: 0 <= i < |ids| ==> IsMeasured(Filter(xs, Of(ids[i])), z, now, entries[i].measures)
    ensures var days := if weekly then 7 else 30;
      SumOf(entries, weekly)
        == PeriodStats(TotalOf(xs, ids, CompletedWithin(now, days)), TotalOf(xs, ids, Within(now, days)))
  {
    hide Filter, IsCurrentStreak, IsLongestStreak;
    if ids != [] {
      var last := |ids| - 1;
      EntriesAddUp(xs, ids[..last], z, now, entries[..last], weekly);
      FilterTwice(Filter(xs, Of(ids[last])), now, if weekly then 7 else 30);
    }
  }

  /** Every outcome is counted under exactly one category: the categories' windows add up to the
      overall ones, totals and completions alike. */
  lemma BreakdownAddsUp(records: seq<Record>, z: Zone, now: int, s: Summary)
    requires IsSummary(records, z, now, s)
    ensures SumOf(s.byCategory, true) == s.overall.last7Days
    ensures SumOf(s.byCategory, false) == s.overall.last30Days
  {
    var xs := Filter(records, Outcome());
    var ids := Sorted(Categories(xs));
    hide Filter, Sorted, SumOf, TotalOf;
    EntriesAddUp(xs, ids, z, now, s.byCategory, true);
    EntriesAddUp(xs, ids, z, now, s.byCategory, false);
    hide IsMeasured, IsBreakdown;
    PeriodAddsUp(xs, ids, now, 7);
    PeriodAddsUp(xs, ids, now, 30);
    assert IsMeasured(xs, z, now, s.overall);
    MeasuredPeriods(xs, z, now, s.overall);
  }

  lemma MeasuredPeriods(xs: seq<Record>, z: Zone, now: int, m: Measures)
    requires IsMeasured(xs, z, now, m)
    ensures m.last7Days == Period(xs, now, 7) && m.last30Days == Period(xs, now, 30)
  {
  }

  lemma PeriodAddsUp(xs: seq<Record>, ids: seq<int>, now: int, days: int)
    requires ids == Sorted(Categories(xs))
    ensures Period(xs, now, days)
            == PeriodStats(TotalOf(xs, ids, CompletedWithin(now, days)), TotalOf(xs, ids, Within(now, days)))
  {
    hide Filter, TotalOf;
    assert forall r :: r in xs ==> r.category in Categories(xs);
    hide Sorted, Categories;
    CategoriesAddUp(xs, ids, CompletedWithin(now, days));
    CategoriesAddUp(xs, ids, Within(now, days));
    FilterTwice(xs, now, days);
  }
}
