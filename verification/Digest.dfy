/** The weekly digest: which week is owed, what it covers, and that it goes out once. */
module Digest {
  import opened Zones
  import opened Ordering
  import opened Calendar
  import opened Recurrence
  import opened Planning
  import opened QuietHours
  import opened Contracts
  import opened Retry

  const DAYS_IN_WEEK: int := 7
  const WEEK: int := 604_800_000_000
  const DIGEST_PREFILTER_DAYS: int := 6

  /** ISO weekday and hour at which the digest goes out, on everybody's own clock. */
  datatype RawCadence = Cadence(weekday: int, hour: int)

  type Cadence = c: RawCadence | 1 <= c.weekday <= 7 && 0 <= c.hour <= 23 witness RawCadence.Cadence(1, 0)

  /** `hour:00` of a local day. */
  function Reading(c: Cadence, day: int): int {
    Combine(day, c.hour * 3_600_000_000)
  }

  predicate IsDigestDay(c: Cadence, day: int) {
    IsoWeekday(day) == c.weekday
  }

  /** The instant the digest of a week comes due. */
  function MomentOf(z: Zone, c: Cadence, day: int): int {
    ToUtc(z, Reading(c, day))
  }

  /** The digest day at or before a local day. */
  function DigestDay(c: Cadence, day: int): (d: int)
    ensures d <= day < d + 7 && IsDigestDay(c, d)
  {
    day - (IsoWeekday(day) - c.weekday) % 7
  }

  function LastDigestMoment(now: int, z: Zone, c: Cadence): int {
    var day := DigestDay(c, DayOf(Local(z, now)));
    var moment := MomentOf(z, c, day);
    if moment > now then MomentOf(z, c, day - DAYS_IN_WEEK) else moment
  }

  datatype Window = Window(start: int, end: int)

  /** The week is counted on the wall clock. */
  function DigestWindow(moment: int, z: Zone): Window {
    Window(ToUtc(z, Local(z, moment) - 604_800_000_000), moment)
  }

  function DigestDueAt(now: int, z: Zone, c: Cadence, sentAt: Option<int>, quiet: Quiet): Option<int> {
    var moment := LastDigestMoment(now, z, c);
    if sentAt.Some? && sentAt.value >= moment then None
    else if Shift(quiet, moment) > now then None
    else Some(moment)
  }

  // ---------------------------------------------------------------------------------------------
  // The last digest moment
  // ---------------------------------------------------------------------------------------------

  lemma ReadingIsWhole(c: Cadence, day: int)
    ensures Whole(Reading(c, day))
    ensures Combine(day, 0) <= Reading(c, day) < Combine(day + 1, 0)
    ensures Reading(c, day + 7) == Reading(c, day) + WEEK
  {
    hide Whole;
    CombineIsWhole(day, c.hour * 3_600_000_000);
  }

  lemma DaysInOrderOf(c: Cadence, day: int, later: int)
    requires day < later
    ensures Reading(c, day) + DAY <= Reading(c, later)
  {
  }

  /** What the clock has shown by now has resolved by now. */
  lemma ReachedIsPast(z: Zone, n: int, now: int)
    requires Whole(n) && n <= Local(z, now)
    ensures ToUtc(z, n) <= now
  {
    hide ToUtc, Local;
    ToUtcIsFirst(z, n);
  }

  lemma WeeksApart(c: Cadence, day: int, later: int)
    requires IsDigestDay(c, day) && IsDigestDay(c, later) && day < later
    ensures day + 7 <= later
  {
  }

  /** Weeks come due one after the other. */
  lemma MomentsAscend(z: Zone, c: Cadence, day: int, later: int)
    requires day + 7 <= later
    ensures MomentOf(z, c, day) < MomentOf(z, c, later)
  {
    hide ToUtc, Reading;
    ReadingIsWhole(c, day);
    ReadingIsWhole(c, later);
    if day + 7 < later { DaysInOrderOf(c, day + 7, later); }
    TwoDaysApart(z, Reading(c, day), Reading(c, later));
  }

  lemma EarlierWeek(z: Zone, c: Cadence, day: int, later: int)
    requires day <= later
    ensures MomentOf(z, c, day) <= MomentOf(z, c, later)
  {
    hide ToUtc;
    ReadingIsWhole(c, day);
    ReadingIsWhole(c, later);
    ToUtcMonotone(z, Reading(c, day), Reading(c, later));
  }

  /** The latest digest moment of all that is not after `now`. */
  ghost predicate IsLastMoment(now: int, z: Zone, c: Cadence, m: int) {
    && (exists day :: IsDigestDay(c, day) && MomentOf(z, c, day) == m)
    && m <= now
    && (forall day :: IsDigestDay(c, day) && MomentOf(z, c, day) <= now ==> MomentOf(z, c, day) <= m)
  }

  /** The clock has already been through a coming digest moment and has fallen back to an earlier
      day since. */
  ghost predicate FellBackOverDigest(now: int, z: Zone, c: Cadence) {
    exists day :: IsDigestDay(c, day) && DayOf(Local(z, now)) < day && MomentOf(z, c, day) <= now
  }

  /** The moment found is one of the digest's, and never ahead. */
  lemma LastIsPast(now: int, z: Zone, c: Cadence) returns (day: int)
    ensures IsDigestDay(c, day) && LastDigestMoment(now, z, c) == MomentOf(z, c, day)
    ensures LastDigestMoment(now, z, c) <= now && day <= DayOf(Local(z, now))
    ensures MomentOf(z, c, day + 7) > now || DayOf(Local(z, now)) < day + 7
  {
    hide ToUtc, Local, Reading, DigestDay, IsDigestDay, DayOf, MomentOf;
    var today := DigestDay(c, DayOf(Local(z, now)));
    day := today;
    if MomentOf(z, c, today) > now {
      day := today - 7;
      WeekBefore(c, today);
      PastWeekReached(z, c, now, today);
    } else {
      assert DayOf(Local(z, now)) < today + 7;
    }
  }

  lemma WeekBefore(c: Cadence, day: int)
    requires IsDigestDay(c, day)
    ensures IsDigestDay(c, day - 7)
  {
  }

  lemma PastWeekReached(z: Zone, c: Cadence, now: int, today: int)
    requires today <= DayOf(Local(z, now))
    ensures MomentOf(z, c, today - 7) <= now
  {
    hide ToUtc, Local, Reading;
    ReadingIsWhole(c, today - 7);
    DayReached(z, now, today);
    ReachedIsPast(z, Reading(c, today - 7), now);
  }

  lemma DayReached(z: Zone, now: int, day: int)
    requires day <= DayOf(Local(z, now))
    ensures Combine(day, 0) <= Local(z, now)
  {
    hide Local;
  }

  /** The latest digest moment not after `now` among the days up to the one the clock shows. */
  ghost predicate IsLastShown(now: int, z: Zone, c: Cadence, m: int) {
    var shown := DayOf(Local(z, now));
    && (exists day :: IsDigestDay(c, day) && day <= shown && MomentOf(z, c, day) == m)
    && m <= now
    && (forall day :: IsDigestDay(c, day) && day <= shown && MomentOf(z, c, day) <= now ==> MomentOf(z, c, day) <= m)
  }

  /** Which is what is found, always. */
  lemma LastIsShown(now: int, z: Zone, c: Cadence)
    ensures IsLastShown(now, z, c, LastDigestMoment(now, z, c))
  {
    hide ToUtc, Local, LastDigestMoment, IsDigestDay, Reading, MomentOf, DayOf;
    var found := LastIsPast(now, z, c);
    forall day | IsDigestDay(c, day) && day <= DayOf(Local(z, now)) && MomentOf(z, c, day) <= now
      ensures MomentOf(z, c, day) <= MomentOf(z, c, found)
    {
      if found < day {
        WeeksApart(c, found, day);
        EarlierWeek(z, c, found + 7, day);
      } else {
        EarlierWeek(z, c, day, found);
      }
    }
  }

  /** The digest looks back to the right week exactly when the clock has not fallen back over it. */
  lemma LastMomentExactly(now: int, z: Zone, c: Cadence)
    ensures IsLastMoment(now, z, c, LastDigestMoment(now, z, c)) <==> !FellBackOverDigest(now, z, c)
  {
    hide ToUtc, Local, LastDigestMoment, IsDigestDay, Reading, MomentOf, DayOf;
    LastIsShown(now, z, c);
    var found := LastIsPast(now, z, c);
    if FellBackOverDigest(now, z, c) {
      var day :| IsDigestDay(c, day) && DayOf(Local(z, now)) < day && MomentOf(z, c, day) <= now;
      WeeksApart(c, found, day);
      MomentsAscend(z, c, found, day);
    }
  }

  /** A digest hour no smaller than the largest backward jump is always enough. */
  lemma LateHourNeverFallsBack(now: int, z: Zone, c: Cadence)
    requires forall i :: 0 <= i < |z.at| ==> z.off[i] - z.off[i + 1] <= c.hour * HOUR
    ensures !FellBackOverDigest(now, z, c)
  {
    hide ToUtc, Local, SegmentOfReading;
    if day :| IsDigestDay(c, day) && DayOf(Local(z, now)) < day && MomentOf(z, c, day) <= now {
      ReadingIsWhole(c, day);
      assert Reading(c, day) == Combine(day, 0) + c.hour * HOUR;
      ToUtcIsFirst(z, Reading(c, day));
      DayNotReached(z, now, day);
      FellBackBy(z, MomentOf(z, c, day), now, c.hour * HOUR);
    }
  }

  lemma FellBackBy(z: Zone, t: int, u: int, jump: int)
    requires t <= u && Local(z, u) < Local(z, t)
    requires forall i :: 0 <= i < |z.at| ==> z.off[i] - z.off[i + 1] <= jump
    ensures Local(z, t) - jump <= Local(z, u)
  {
    FallsBackOnce(z, t, u);
    hide Segment, Wall;
    assert z.off[Segment(z, t)] - z.off[Segment(z, t) + 1] <= jump;
  }

  lemma DayNotReached(z: Zone, now: int, day: int)
    requires DayOf(Local(z, now)) < day
    ensures Local(z, now) < Combine(day, 0)
  {
    hide Local;
  }

  lemma FourthDays(c: Cadence)
    requires c == Cadence(4, 0)
    ensures IsDigestDay(c, 0)
    ensures DigestDay(c, -1) == -7
    ensures Reading(c, 0) == 0 && Reading(c, -7) == -WEEK
  {
    var day := DigestDay(c, -1);
    assert (IsoWeekday(-1) - 4) % 7 == 6;
    hide *;
    assert day == -7;
  }

  /** Where it does: a clock set back from half past midnight to half past eleven has shown the digest
      at midnight already, and the digest of the week before is found. */
  lemma MidnightShownTwice(z: Zone, c: Cadence, now: int)
    requires z == RawZone([-1_800_000_000], [HOUR, 0]) && c == Cadence(4, 0) && now == -1_800_000_000
    ensures MomentOf(z, c, 0) == -HOUR && LastDigestMoment(now, z, c) == MomentOf(z, c, -7) == -WEEK - HOUR
    ensures FellBackOverDigest(now, z, c)
  {
    hide ToUtc, Local, Reading, DigestDay, IsDigestDay;
    FourthDays(c);
    SingleTransition(z, now, 0);
    SingleResolved(z, 0);
    SingleResolved(z, -WEEK);
    assert MomentOf(z, c, 0) == -HOUR && MomentOf(z, c, -7) == -WEEK - HOUR;
    hide MomentOf;
    assert DayOf(Local(z, now)) == -1;
  }

  // ---------------------------------------------------------------------------------------------
  // Windows
  // ---------------------------------------------------------------------------------------------

  /** A week begins where the one before ended exactly when the digest hour was not skipped further
      this week than it was the week before. */
  lemma WindowsMeetExactly(z: Zone, c: Cadence, day: int)
    ensures var last, current := MomentOf(z, c, day - 7), MomentOf(z, c, day);
      && (DigestWindow(current, z).start == last <==> Local(z, current) - WEEK <= Local(z, last))
      && (!InGap(z, Reading(c, day)) ==> DigestWindow(current, z).start == last)
      && (InGap(z, Reading(c, day)) && !InGap(z, Reading(c, day - 7)) ==> last < DigestWindow(current, z).start)
  {
    hide ToUtc, Local, Reading, InGap;
    ReadingIsWhole(c, day);
    ReadingIsWhole(c, day - 7);
    var n, m := Reading(c, day), Reading(c, day - 7);
    var last, current := MomentOf(z, c, day - 7), MomentOf(z, c, day);
    ToUtcIsFirst(z, n);
    ToUtcIsFirst(z, m);
    LocalIsWhole(z, current);
    var start := ToUtc(z, Local(z, current) - WEEK);
    ToUtcIsFirst(z, Local(z, current) - WEEK);
    ToUtcMonotone(z, m, Local(z, current) - WEEK);
  }

  /** Where they do not: the digest hour is skipped this week, and the hour after the last digest is
      reported in neither. */
  lemma SkippedHourLost(z: Zone, c: Cadence)
    requires z == RawZone([0], [0, HOUR]) && c == Cadence(4, 0)
    ensures IsDigestDay(c, 0) && MomentOf(z, c, -7) == -WEEK
    ensures DigestWindow(MomentOf(z, c, 0), z).start == -WEEK + HOUR
  {
    hide ToUtc, Local, Reading, IsDigestDay;
    FourthDays(c);
    SingleTransition(z, 0, 0);
    SingleResolved(z, 0);
    SingleResolved(z, -WEEK);
    SingleResolved(z, HOUR - WEEK);
  }

  lemma LocalIsWhole(z: Zone, t: int)
    requires Whole(t)
    ensures Whole(Local(z, t) - WEEK)
  {
    var off := z.off[Segment(z, t)];
    assert Whole(off);
    hide Segment;
  }

  // ---------------------------------------------------------------------------------------------
  // Ticks of the digest cycle
  // ---------------------------------------------------------------------------------------------

  datatype Subscriber = Subscriber(zone: Zone, quiet: Quiet, blocked: bool, mark: Option<int>)

  /** What `list_digest_candidates` asks of the mark. */
  predicate PassesPrefilter(u: Subscriber, now: int) {
    u.mark.None? || u.mark.value < now - DIGEST_PREFILTER_DAYS * DAY
  }

  /** What becomes of a digest that is due: nothing to report, or what the network said. */
  datatype Outcome = NothingToReport | Delivered | Undelivered(error: ErrorClass)

  datatype Tally = WasSent | WasEmpty | WasBlocked | WasFailed | WasDeferred

  function Due(u: Subscriber, now: int, c: Cadence): Option<int> {
    DigestDueAt(now, u.zone, c, u.mark, u.quiet)
  }

  /** `_one`: how one user counts in a cycle. */
  function TallyOf(u: Subscriber, now: int, c: Cadence, outcome: Outcome): Tally {
    if Due(u, now, c).None? then WasDeferred
    else match outcome
      case NothingToReport => WasEmpty
      case Delivered => WasSent
      case Undelivered(e) => if !IsFatal(e) then WasDeferred else if e == Forbidden then WasBlocked else WasFailed
  }

  /** And what it leaves in the user's row. */
  function Visited(u: Subscriber, now: int, c: Cadence, outcome: Outcome): Subscriber {
    var tally := TallyOf(u, now, c, outcome);
    if tally == WasDeferred then u
    else u.(mark := Due(u, now, c), blocked := if tally == WasBlocked then true else u.blocked)
  }

  /** What becomes of a digest: one that is due leaves its mark whether it was sent, empty or refused for
      good, and none after a failure that may pass, so that the next cycle finds it again; only a refusal
      by the user blocks them. */
  lemma VisitTable(u: Subscriber, now: int, c: Cadence, outcome: Outcome)
    ensures var v, tally := Visited(u, now, c, outcome), TallyOf(u, now, c, outcome);
      match Due(u, now, c)
      case None => v == u && tally == WasDeferred
      case Some(m) =>
        match outcome
        case NothingToReport => v == u.(mark := Some(m)) && tally == WasEmpty
        case Delivered => v == u.(mark := Some(m)) && tally == WasSent
        case Undelivered(Forbidden) => v == u.(mark := Some(m), blocked := true) && tally == WasBlocked
        case Undelivered(BadRequest) => v == u.(mark := Some(m)) && tally == WasFailed
        case Undelivered(_) => v == u && tally == WasDeferred
  {
    hide Due;
  }

  datatype Tick = Tick(now: int, considered: bool, outcome: Outcome)

  /** One user's row over any number of cycles. Between them anything may change but the mark; a cycle
      does not consider whoever is blocked, has switched the digest off or found no room in its
      batch. */
  ghost predicate IsHistory(us: seq<Subscriber>, ticks: seq<Tick>, c: Cadence) {
    && |us| == |ticks| + 1
    && forall i, j :: 0 <= i < |ticks| && j == i + 1 ==>
         us[j].mark == (if ticks[i].considered then Visited(us[i], ticks[i].now, c, ticks[i].outcome)
                           else us[i]).mark
  }

  /** The user does not move to another zone. */
  ghost predicate StaysInZone(us: seq<Subscriber>, z: Zone) {
    forall i :: 0 <= i < |us| ==> us[i].zone == z
  }

  predicate Sends(u: Subscriber, t: Tick, c: Cadence) {
    t.considered && TallyOf(u, t.now, c, t.outcome) == WasSent
  }

  lemma DueIsNew(u: Subscriber, now: int, c: Cadence)
    ensures var due := Due(u, now, c);
      due.Some? ==> due.value == LastDigestMoment(now, u.zone, c) && (u.mark.Some? ==> u.mark.value < due.value)
  {
    hide LastDigestMoment, Shift;
  }

  lemma VisitRises(u: Subscriber, now: int, c: Cadence, outcome: Outcome)
    ensures var v := Visited(u, now, c, outcome);
      u.mark.Some? ==> v.mark.Some? && u.mark.value <= v.mark.value
  {
    hide Due;
    DueIsNew(u, now, c);
  }

  lemma {:induction false} MarkOnlyRises(us: seq<Subscriber>, ticks: seq<Tick>, c: Cadence, i: nat, j: nat)
    requires IsHistory(us, ticks, c) && i <= j < |us|
    ensures us[i].mark.Some? ==> us[j].mark.Some? && us[i].mark.value <= us[j].mark.value
  {
    hide Visited;
    if i < j {
      MarkOnlyRises(us, ticks, c, i, j - 1);
      VisitRises(us[j - 1], ticks[j - 1].now, c, ticks[j - 1].outcome);
    }
  }

  /** Each weekly moment is sent at most once, and never after a later one, whatever happens to the zone,
      the quiet hours, the network or the clock in between. */
  lemma SentOnce(us: seq<Subscriber>, ticks: seq<Tick>, c: Cadence, i: nat, j: nat)
    requires IsHistory(us, ticks, c) && i < j < |ticks|
    requires Sends(us[i], ticks[i], c) && Sends(us[j], ticks[j], c)
    ensures Due(us[i], ticks[i].now, c).value < Due(us[j], ticks[j].now, c).value
  {
    hide Due;
    var next := i + 1;
    assert us[next].mark == Due(us[i], ticks[i].now, c);
    MarkOnlyRises(us, ticks, c, i + 1, j);
    DueIsNew(us[j], ticks[j].now, c);
  }

  /** A digest is due exactly when it is the latest one the clock still shows, has no mark yet, and
      any silence around it is over. */
  lemma DueExactly(u: Subscriber, now: int, c: Cadence, m: int)
    ensures Due(u, now, c) == Some(m)
            <==> IsLastShown(now, u.zone, c, m) && (u.mark.Some? ==> u.mark.value < m) && Shift(u.quiet, m) <= now
  {
    hide LastDigestMoment, Shift, MomentOf, IsDigestDay, Local;
    LastIsShown(now, u.zone, c);
  }

  // ---------------------------------------------------------------------------------------------
  // The six-day prefilter
  // ---------------------------------------------------------------------------------------------

  ghost predicate IsMark(u: Subscriber, c: Cadence) {
    u.mark.Some? ==> exists day :: IsDigestDay(c, day) && u.mark.value == MomentOf(u.zone, c, day)
  }

  /** Marks are always moments of the digest. */
  lemma {:induction false} MarksAreMoments(us: seq<Subscriber>, ticks: seq<Tick>, c: Cadence, i: nat, z: Zone)
    requires IsHistory(us, ticks, c) && StaysInZone(us, z) && i < |us| && us[0].mark.None?
    ensures IsMark(us[i], c)
  {
    hide Due, MomentOf, IsDigestDay;
    if i > 0 {
      MarksAreMoments(us, ticks, c, i - 1, z);
      DueIsNew(us[i - 1], ticks[i - 1].now, c);
      var _ := LastIsPast(ticks[i - 1].now, us[i - 1].zone, c);
    }
  }

  /** What the offset in force gains from one digest moment to the next. */
  function Gain(z: Zone, c: Cadence, day: int): int {
    (Reading(c, day + 7) - MomentOf(z, c, day + 7)) - (Reading(c, day) - MomentOf(z, c, day))
  }

  /** The prefilter never leaves out somebody marked for this week who is owed the next one. */
  ghost predicate IsSafeAfter(z: Zone, c: Cadence, day: int) {
    forall u: Subscriber, now :: u.zone == z && u.mark == Some(MomentOf(z, c, day)) && !PassesPrefilter(u, now)
      ==> Due(u, now, c).None?
  }

  lemma GainIsShortWeek(z: Zone, c: Cadence, day: int)
    ensures Gain(z, c, day) < DAY <==> MomentOf(z, c, day) + DIGEST_PREFILTER_DAYS * DAY < MomentOf(z, c, day + 7)
  {
    hide MomentOf, Reading;
    ReadingIsWhole(c, day);
  }

  lemma NotOwed(u: Subscriber, now: int, c: Cadence, day: int)
    requires IsDigestDay(c, day) && u.mark == Some(MomentOf(u.zone, c, day)) && !PassesPrefilter(u, now)
    requires Gain(u.zone, c, day) < DAY
    ensures Due(u, now, c).None?
  {
    hide MomentOf, IsDigestDay, LastDigestMoment, Shift, Gain;
    GainIsShortWeek(u.zone, c, day);
    var found := LastIsPast(now, u.zone, c);
    if day < found {
      WeeksApart(c, day, found);
      EarlierWeek(u.zone, c, day + 7, found);
    } else {
      EarlierWeek(u.zone, c, found, day);
    }
  }

  /** At the moment of a digest it is the one that is found, or a later one. */
  lemma OwedAtMoment(z: Zone, c: Cadence, day: int)
    requires IsDigestDay(c, day)
    ensures MomentOf(z, c, day) <= LastDigestMoment(MomentOf(z, c, day), z, c)
  {
    hide ToUtc, Local, LastDigestMoment, IsDigestDay, Reading;
    ReadingIsWhole(c, day);
    ToUtcIsFirst(z, Reading(c, day));
    ShownBy(z, day, MomentOf(z, c, day));
    LastIsShown(MomentOf(z, c, day), z, c);
  }

  lemma ShownBy(z: Zone, day: int, t: int)
    requires Combine(day, 0) <= Local(z, t)
    ensures day <= DayOf(Local(z, t))
  {
    hide Local;
  }

  /** The prefilter looks away too long after a week exactly when the offset gains a whole day before
      the next one. */
  lemma PrefilterIsExact(z: Zone, c: Cadence, day: int)
    requires IsDigestDay(c, day)
    ensures IsSafeAfter(z, c, day) <==> Gain(z, c, day) < DAY
  {
    hide MomentOf, IsDigestDay, LastDigestMoment, Gain, Due;
    if Gain(z, c, day) < DAY {
      forall u: Subscriber, now | u.zone == z && u.mark == Some(MomentOf(z, c, day)) && !PassesPrefilter(u, now)
        ensures Due(u, now, c).None?
      {
        NotOwed(u, now, c, day);
      }
    } else {
      var u, now := Subscriber(z, Quiet(z, None, None), false, Some(MomentOf(z, c, day))), MomentOf(z, c, day + 7);
      GainIsShortWeek(z, c, day);
      MissedAt(u, c, day);
    }
  }

  lemma MissedAt(u: Subscriber, c: Cadence, day: int)
    requires IsDigestDay(c, day) && !IsOn(u.quiet) && u.mark == Some(MomentOf(u.zone, c, day))
    ensures Due(u, MomentOf(u.zone, c, day + 7), c).Some?
  {
    hide MomentOf, LastDigestMoment, Shift;
    var now := MomentOf(u.zone, c, day + 7);
    MomentsAscend(u.zone, c, day, day + 7);
    OwedAtMoment(u.zone, c, day + 7);
    NeverQuiet(u.quiet, LastDigestMoment(now, u.zone, c));
    var _ := LastIsPast(now, u.zone, c);
  }

  lemma NeverQuiet(q: Quiet, t: int)
    requires !IsOn(q)
    ensures !Covers(q, t) && Shift(q, t) == t
  {
  }

  /** The prefilter is only a faster way to do nothing: at any point of any history, visiting somebody
      it leaves out would change nothing, unless the offset gained a day in the week of their mark. */
  lemma PrefilterSkipsNothing(us: seq<Subscriber>, ticks: seq<Tick>, c: Cadence, i: nat, now: int, outcome: Outcome)
    requires IsHistory(us, ticks, c) && StaysInZone(us, us[0].zone) && i < |us| && us[0].mark.None?
    requires forall day :: IsDigestDay(c, day) && us[i].mark == Some(MomentOf(us[i].zone, c, day))
                ==> Gain(us[i].zone, c, day) < DAY
    requires !PassesPrefilter(us[i], now)
    ensures Visited(us[i], now, c, outcome) == us[i] && TallyOf(us[i], now, c, outcome) == WasDeferred
  {
    hide Due, IsHistory, Gain, MomentOf, IsDigestDay;
    MarksAreMoments(us, ticks, c, i, us[0].zone);
    var day :| IsDigestDay(c, day) && us[i].mark.value == MomentOf(us[i].zone, c, day);
    NotOwed(us[i], now, c, day);
  }

  lemma ResolvedWithin(z: Zone, n: int) returns (low: nat, high: nat)
    requires Whole(n)
    ensures low < |z.off| && high < |z.off|
    ensures n - z.off[high] <= ToUtc(z, n) <= n - z.off[low]
  {
    hide ToUtc, Segment;
    ToUtcIsFirst(z, n);
    var t := ToUtc(z, n);
    assert Local(z, t - 1) < n;
    high, low := Segment(z, t), Segment(z, t - 1);
  }

  /** Which no week does in a zone whose offsets have always been less than a day apart. */
  lemma NarrowZoneGainsLittle(z: Zone, c: Cadence, day: int)
    requires forall i, j :: 0 <= i < |z.off| && 0 <= j < |z.off| ==> z.off[i] - z.off[j] < DAY
    ensures Gain(z, c, day) < DAY
  {
    hide ToUtc, Reading;
    ReadingIsWhole(c, day);
    ReadingIsWhole(c, day + 7);
    var a, b := ResolvedWithin(z, Reading(c, day));
    var p, q := ResolvedWithin(z, Reading(c, day + 7));
    assert z.off[q] - z.off[a] < DAY;
  }

  /** A day is the limit: where the calendar jumps over one whole day, a week can last six days to
      the microsecond, and at the very moment its digest comes due the prefilter still looks away. */
  lemma WholeDaySkipped(z: Zone, c: Cadence, u: Subscriber)
    requires z == RawZone([0], [-11 * HOUR, 13 * HOUR]) && c == Cadence(5, 0)
    requires u == Subscriber(z, Quiet(z, None, None), false, Some(MomentOf(z, c, -6)))
    ensures !PassesPrefilter(u, 11 * HOUR) && Due(u, 11 * HOUR, c) == Some(11 * HOUR)
  {
    hide MomentOf, LastDigestMoment, ResolveEnd, Covers;
    SkippedDayMoments(z, c);
    SkippedDayLast(z, c);
    assert !Covers(u.quiet, 11 * HOUR) by { NeverQuiet(u.quiet, 11 * HOUR); }
  }

  lemma SkippedDayLast(z: Zone, c: Cadence)
    requires z == RawZone([0], [-11 * HOUR, 13 * HOUR]) && c == Cadence(5, 0)
    ensures LastDigestMoment(11 * HOUR, z, c) == 11 * HOUR
  {
    SkippedDayMoments(z, c);
    hide MomentOf, Local;
    SingleTransition(z, 11 * HOUR, 0);
    assert DayOf(Local(z, 11 * HOUR)) == 1 && DigestDay(c, 1) == 1;
  }

  lemma SkippedDayMoments(z: Zone, c: Cadence)
    requires z == RawZone([0], [-11 * HOUR, 13 * HOUR]) && c == Cadence(5, 0)
    ensures MomentOf(z, c, -6) == -133 * HOUR && MomentOf(z, c, 1) == 11 * HOUR
  {
    hide ToUtc;
    assert Reading(c, -6) == -144 * HOUR && Reading(c, 1) == 24 * HOUR;
    SingleResolved(z, -144 * HOUR);
    SingleResolved(z, 24 * HOUR);
  }

  // ---------------------------------------------------------------------------------------------
  // The service
  // ---------------------------------------------------------------------------------------------

  datatype DigestResult = DigestResult(considered: nat, sent: nat, empty: nat, blocked: nat, failed: nat, deferred: nat)

  /** The users table, as far as the digest goes. */
  class DigestService {
    var users: map<int, Subscriber>
    const cadence: Cadence

    constructor (users: map<int, Subscriber>, cadence: Cadence)
      ensures this.users == users && this.cadence == cadence
    {
      this.users := users;
      this.cadence := cadence;
    }

    /** `_one`, `_send` and `_failed`. */
    method One(id: int, now: int, outcome: Outcome) returns (tally: Tally)
      requires id in users
      modifies this`users
      ensures tally == TallyOf(old(users)[id], now, cadence, outcome)
      ensures users == old(users)[id := Visited(old(users)[id], now, cadence, outcome)]
    {
      hide DigestDueAt;
      var user := users[id];
      var moment := DigestDueAt(now, user.zone, cadence, user.mark, user.quiet);
      if moment.None? {
        return WasDeferred;
      }
      match outcome
      case NothingToReport =>
        users := users[id := user.(mark := moment)];
        tally := WasEmpty;
      case Delivered =>
        users := users[id := user.(mark := moment)];
        tally := WasSent;
      case Undelivered(error) =>
        if !IsFatal(error) {
          return WasDeferred;
        }
        if error == Forbidden {
          users := users[id := user.(blocked := true)];
          users := users[id := users[id].(mark := moment)];
          tally := WasBlocked;
        } else {
          users := users[id := user.(mark := moment)];
          tally := WasFailed;
        }
    }

    /** One cycle over the rows the query returned. Everybody in it is visited once, nobody else is
        touched, and everybody is counted under exactly one heading. */
    method Run(candidates: seq<int>, now: int, outcomes: map<int, Outcome>)
      returns (r: DigestResult, ghost tallies: seq<Tally>)
      requires forall i :: 0 <= i < |candidates| ==> candidates[i] in users && candidates[i] in outcomes
      requires forall i, j :: 0 <= i < j < |candidates| ==> candidates[i] != candidates[j]
      modifies this`users
      ensures AreVisited(old(users), users, candidates, now, cadence, outcomes)
      ensures AreTallies(tallies, old(users), candidates, now, cadence, outcomes)
      ensures r.considered == |candidates| == r.sent + r.empty + r.blocked + r.failed + r.deferred
      ensures r == Counts(tallies)
    {
      hide TallyOf, Visited, AreVisited, AreTallies, HowMany;
      r := DigestResult(|candidates|, 0, 0, 0, 0, 0);
      tallies := [];
      NobodyVisited(users, now, cadence, outcomes);
      for i := 0 to |candidates|
        invariant AreVisited(old(users), users, candidates[..i], now, cadence, outcomes)
        invariant AreTallies(tallies, old(users), candidates[..i], now, cadence, outcomes)
        invariant r.(considered := i) == Counts(tallies) && r.considered == |candidates|
        invariant r.sent + r.empty + r.blocked + r.failed + r.deferred == i
      {
        ghost var before := users;
        assert candidates[..i + 1] == candidates[..i] + [candidates[i]];
        OneMoreVisited(old(users), before, candidates[..i], tallies, candidates[i], now, cadence, outcomes);
        var tally := One(candidates[i], now, outcomes[candidates[i]]);
        CountsOneMore(tallies, tally);
        tallies := tallies + [tally];
        r := Add(r, tally);
      }
      assert candidates[..|candidates|] == candidates;
    }
  }

  /** The users of `ids` were visited in this cycle, and nobody else. */
  ghost predicate AreVisited(before: map<int, Subscriber>, after: map<int, Subscriber>, ids: seq<int>, now: int,
                             c: Cadence,
                             outcomes: map<int, Outcome>)
  {
    && after.Keys == before.Keys
    && forall id :: id in before ==>
         after[id] == if id in ids && id in outcomes then Visited(before[id], now, c, outcomes[id]) else before[id]
  }

  ghost predicate AreTallies(tallies: seq<Tally>, users: map<int, Subscriber>, ids: seq<int>, now: int, c: Cadence,
                             outcomes: map<int, Outcome>)
  {
    && |tallies| == |ids|
    && forall i :: 0 <= i < |ids| ==>
         ids[i] in users && ids[i] in outcomes && tallies[i] == TallyOf(users[ids[i]], now, c, outcomes[ids[i]])
  }

  lemma NobodyVisited(users: map<int, Subscriber>, now: int, c: Cadence, outcomes: map<int, Outcome>)
    ensures AreVisited(users, users, [], now, c, outcomes) && AreTallies([], users, [], now, c, outcomes)
    ensures Counts([]) == DigestResult(0, 0, 0, 0, 0, 0)
  {
  }

  lemma OneMoreVisited(before: map<int, Subscriber>, users: map<int, Subscriber>, ids: seq<int>, tallies: seq<Tally>,
                       id: int,
                       now: int, c: Cadence, outcomes: map<int, Outcome>)
    requires AreVisited(before, users, ids, now, c, outcomes) && AreTallies(tallies, before, ids, now, c, outcomes)
    requires id !in ids && id in before && id in outcomes
    ensures id in users && users[id] == before[id]
    ensures AreVisited(before, users[id := Visited(users[id], now, c, outcomes[id])], ids + [id], now, c, outcomes)
    ensures AreTallies(tallies + [TallyOf(users[id], now, c, outcomes[id])], before, ids + [id], now, c, outcomes)
  {
    hide TallyOf, Visited, AreVisited, AreTallies;
    UntouchedSoFar(before, users, ids, id, now, c, outcomes);
    VisitedAdds(before, users, ids, id, now, c, outcomes);
    TallyAdds(before, ids, tallies, id, now, c, outcomes);
  }

  lemma UntouchedSoFar(before: map<int, Subscriber>, users: map<int, Subscriber>, ids: seq<int>, id: int, now: int,
                       c: Cadence,
                       outcomes: map<int, Outcome>)
    requires AreVisited(before, users, ids, now, c, outcomes) && id !in ids && id in before
    ensures id in users && users[id] == before[id]
  {
    hide Visited;
    assert id in users.Keys;
  }

  lemma VisitedAdds(before: map<int, Subscriber>, users: map<int, Subscriber>, ids: seq<int>, id: int, now: int,
                    c: Cadence,
                    outcomes: map<int, Outcome>)
    requires AreVisited(before, users, ids, now, c, outcomes) && id in before && id in outcomes
    ensures AreVisited(before, users[id := Visited(before[id], now, c, outcomes[id])], ids + [id], now, c, outcomes)
  {
    hide Visited;
    var after := users[id := Visited(before[id], now, c, outcomes[id])];
    forall k | k in before
      ensures k in after
      ensures after[k] == if k in ids + [id] && k in outcomes then Visited(before[k], now, c, outcomes[k])
              else before[k]
    {
      assert k in users.Keys;
      assert k in ids + [id] <==> k in ids || k == id;
    }
    assert after.Keys == before.Keys;
  }

  lemma TallyAdds(before: map<int, Subscriber>, ids: seq<int>, tallies: seq<Tally>, id: int, now: int, c: Cadence,
                  outcomes: map<int, Outcome>)
    requires AreTallies(tallies, before, ids, now, c, outcomes) && id in before && id in outcomes
    ensures AreTallies(tallies + [TallyOf(before[id], now, c, outcomes[id])], before, ids + [id], now, c, outcomes)
  {
    hide TallyOf;
  }

  function Counts(tallies: seq<Tally>): DigestResult {
    DigestResult(|tallies|, HowMany(tallies, WasSent), HowMany(tallies, WasEmpty), HowMany(tallies, WasBlocked),
                 HowMany(tallies, WasFailed), HowMany(tallies, WasDeferred))
  }

  /** `_add`. */
  function Add(r: DigestResult, t: Tally): DigestResult {
    match t
    case WasSent => r.(sent := r.sent + 1)
    case WasEmpty => r.(empty := r.empty + 1)
    case WasBlocked => r.(blocked := r.blocked + 1)
    case WasFailed => r.(failed := r.failed + 1)
    case WasDeferred => r.(deferred := r.deferred + 1)
  }

  lemma CountsOneMore(tallies: seq<Tally>, t: Tally)
    ensures forall u: Tally :: HowMany(tallies + [t], u) == HowMany(tallies, u) + if u == t then 1 else 0
  {
    forall u: Tally ensures HowMany(tallies + [t], u) == HowMany(tallies, u) + if u == t then 1 else 0 {
      OneMore(tallies, t, u);
    }
  }
}
