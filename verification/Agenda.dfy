/** The first moment shown for a new reminder, and the instants that make up a local day. */
module Agenda {
  import opened Zones
  import opened Schedules
  import opened Recurrence
  import opened Planning
  import opened Store

  // ---------------------------------------------------------------------------------------------
  // first_fire_at
  // ---------------------------------------------------------------------------------------------

  /** The first time the schedule fires from `startsAt` on, at most a year and a day ahead. */
  ghost predicate IsFirstFire(s: Schedule, z: Zone, startsAt: int, t: int) {
    && startsAt <= t <= startsAt + MAX_DAYS_AHEAD * DAY && Fires(s, z, t)
    && forall u :: startsAt <= u < t ==> !Fires(s, z, u)
  }

  /** A schedule is refused exactly when it does not fire within a year and a day, and what is shown
      otherwise is its very first firing. */
  lemma FirstFireExactly(s: Schedule, z: Zone, startsAt: int)
    ensures match FirstFireAt(s, z, startsAt)
            case Some(t) => IsFirstFire(s, z, startsAt, t)
            case None => forall t :: startsAt <= t <= startsAt + MAX_DAYS_AHEAD * DAY ==> !Fires(s, z, t)
  {
    hide Expansion, Fires, CapHolds;
    var after, until := startsAt - BOUNDARY, startsAt + MAX_DAYS_AHEAD * DAY;
    TenYearsWithinCap(z, after, until);
    ExpansionIsExact(s, z, after, until, 1);
    var moments := Expansion(s, z, after, until, 1);
    if moments != [] {
      assert moments[0] in moments;
      forall u | startsAt <= u < moments[0] ensures !Fires(s, z, u) {
        assert u !in moments;
      }
    }
  }

  /** The card and the planner agree: the first cycle that looks far enough materialises exactly the
      moment the card showed, before anything else. */
  lemma FirstFireIsPlanned(p: Plan, horizonEnd: int, t: int)
    requires p.plannedUntil.None? && p.done == {}
    requires p.maxOccurrences.Some? ==> p.maxOccurrences.value > 0
    requires IsFirstFire(p.schedule, p.zone, p.startsAt, t)
    requires t <= horizonEnd && (p.endsAt.Some? ==> t <= p.endsAt.value)
    ensures p.Moments(horizonEnd) != [] && p.Moments(horizonEnd)[0] == t
  {
    hide Expansion, Fires;
    var w := p.Window(horizonEnd);
    FirstIsFirst(p.schedule, p.zone, w.after, w.until, w.limit, t);
  }

  // ---------------------------------------------------------------------------------------------
  // local_day_bounds
  // ---------------------------------------------------------------------------------------------

  datatype Bounds = Bounds(start: int, end: int)

  function LocalDayBounds(day: int, z: Zone): Bounds {
    Bounds(ToUtc(z, Combine(day, 0)), ToUtc(z, Combine(day + 1, 0)))
  }

  predicate InDay(day: int, z: Zone, t: int) {
    var b := LocalDayBounds(day, z);
    b.start <= t < b.end
  }

  lemma MidnightsAscend(day: int, later: int, z: Zone)
    requires day <= later
    ensures ToUtc(z, Combine(day, 0)) <= ToUtc(z, Combine(later, 0))
  {
    hide ToUtc;
    CombineIsWhole(day, 0);
    CombineIsWhole(later, 0);
    ToUtcMonotone(z, Combine(day, 0), Combine(later, 0));
  }

  /** A day has begun by any instant the clock shows it at. */
  lemma DayHasBegun(z: Zone, t: int)
    ensures ToUtc(z, Combine(DayOf(Local(z, t)), 0)) <= t
  {
    hide ToUtc, Local;
    CombineIsWhole(DayOf(Local(z, t)), 0);
    ToUtcIsFirst(z, Combine(DayOf(Local(z, t)), 0));
  }

  /** And the day after the next one has not. */
  lemma OneDayAheadAtMost(z: Zone, t: int)
    ensures t < ToUtc(z, Combine(DayOf(Local(z, t)) + 2, 0))
  {
    hide ToUtc, Local;
    var n := Combine(DayOf(Local(z, t)) + 2, 0);
    CombineIsWhole(DayOf(Local(z, t)) + 2, 0);
    if ToUtc(z, n) <= t { ClockAfter(z, n, t); }
  }

  /** Local days cut time into pieces without gap or overlap: every instant lies in the day its clock
      shows, or, while a clock set back over midnight shows the old day again, in the next one; and
      in no other. */
  lemma EveryInstantHasOneDay(z: Zone, t: int, day: int)
    ensures var shown := DayOf(Local(z, t));
      InDay(day, z, t) <==> day == if t < ToUtc(z, Combine(shown + 1, 0)) then shown else shown + 1
  {
    hide ToUtc, Local, DayOf;
    var shown := DayOf(Local(z, t));
    DayHasBegun(z, t);
    OneDayAheadAtMost(z, t);
    if day < shown { MidnightsAscend(day + 1, shown, z); }
    if day > shown + 1 { MidnightsAscend(shown + 2, day, z); }
    if day == shown + 1 { MidnightsAscend(shown + 1, day, z); }
  }
}
