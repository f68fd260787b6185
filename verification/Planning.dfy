/** Planner arithmetic: which stretch of a schedule one cycle materialises, and where it leaves off. */
module Planning {
  import opened Zones
  import opened Ordering
  import opened Schedules
  import opened Recurrence

  datatype Option<+T> = None | Some(value: T)

  /** `after` is exclusive, so a boundary meant inclusively is moved back by one microsecond. */
  const BOUNDARY: int := 1

  const MAX_OCCURRENCES_PER_CYCLE: nat := 500

  datatype PlanBounds = PlanBounds(
    startsAt: int,
    plannedUntil: Option<int>,
    endsAt: Option<int>,
    maxOccurrences: Option<nat>,
    lastMoment: Option<int>)

  datatype PlanWindow = PlanWindow(after: int, until: int, limit: int)

  datatype PlanOutcome = PlanOutcome(plannedUntil: int, exhausted: bool)

  function LastMomentOf(s: Schedule, z: Zone): Option<int> {
    if s.Once? then Some(ToUtc(z, s.moment)) else None
  }

  function WindowOf(b: PlanBounds, horizonEnd: int, firedCount: nat): PlanWindow {
    var start := b.startsAt - BOUNDARY;
    var after := if b.plannedUntil.Some? && b.plannedUntil.value > start then b.plannedUntil.value else start;
    var until := if b.endsAt.None? then horizonEnd else Min(horizonEnd, b.endsAt.value);
    var limit := if b.maxOccurrences.None? then MAX_OCCURRENCES_PER_CYCLE
                 else Min(MAX_OCCURRENCES_PER_CYCLE, Max(b.maxOccurrences.value - firedCount, 0));
    PlanWindow(after, until, limit)
  }

  function IsExhausted(b: PlanBounds, plannedUntil: int, firedCount: nat): bool {
    || (b.maxOccurrences.Some? && firedCount >= b.maxOccurrences.value)
    || (b.endsAt.Some? && plannedUntil >= b.endsAt.value)
    || (b.lastMoment.Some? && plannedUntil >= b.lastMoment.value)
  }

  /** `firedCount` is the number of occurrences after the write. */
  function Settle(b: PlanBounds, w: PlanWindow, moments: seq<int>, firedCount: nat): PlanOutcome {
    var plannedUntil :=
      if moments != [] && |moments| >= w.limit then moments[|moments| - 1] else Max(w.after, w.until);
    PlanOutcome(plannedUntil, IsExhausted(b, plannedUntil, firedCount))
  }

  // ---------------------------------------------------------------------------------------------
  // One reminder under the planner
  // ---------------------------------------------------------------------------------------------

  /** What the planner reads and writes of one reminder; `done` holds the scheduled instants of its
      occurrence rows. */
  datatype Plan = Plan(
    schedule: Schedule,
    zone: Zone,
    startsAt: int,
    endsAt: Option<int>,
    maxOccurrences: Option<nat>,
    plannedUntil: Option<int>,
    active: bool,
    done: set<int>)
  {
    function Bounds(): PlanBounds {
      PlanBounds(startsAt, plannedUntil, endsAt, maxOccurrences, LastMomentOf(schedule, zone))
    }

    /** Selected by the planner for this horizon. */
    predicate Due(horizonEnd: int) {
      active && startsAt <= horizonEnd && (plannedUntil.None? || plannedUntil.value < horizonEnd)
    }

    function Window(horizonEnd: int): PlanWindow {
      WindowOf(Bounds(), horizonEnd, |done|)
    }

    ghost function Moments(horizonEnd: int): seq<int> {
      var w := Window(horizonEnd);
      Expansion(schedule, zone, w.after, w.until, w.limit)
    }

    /** One cycle: insert the missing rows, move the watermark, archive when nothing is left. */
    ghost function Cycle(horizonEnd: int): Plan {
      var moments := Moments(horizonEnd);
      var all := done + set t | t in moments;
      var outcome := Settle(Bounds(), Window(horizonEnd), moments, |all|);
      this.(done := all, plannedUntil := Some(outcome.plannedUntil), active := !outcome.exhausted)
    }

    /** The schedule fires at `t` within the reminder's own life. */
    ghost predicate Owed(t: int) {
      startsAt <= t && Fires(schedule, zone, t) && (endsAt.Some? ==> t <= endsAt.value)
    }

    /** Everything owed up to `horizon` is materialised, except for what exceeds the budget, and
        then what is there are the earliest ones. */
    ghost predicate CompleteUpTo(horizon: Option<int>) {
      forall t :: Owed(t) && (horizon.Some? ==> t <= horizon.value) && t !in done
        ==> maxOccurrences.Some? && |done| >= maxOccurrences.value && forall u :: u in done ==> u < t
    }

    /** The materialised set is exactly what is owed from the start up to the watermark, cut to the
        first `maxOccurrences`; and an archived reminder has nothing left to materialise, ever. */
    ghost predicate Exact() {
      && (plannedUntil.None? ==> done == {} && active)
      && (forall t :: t in done ==> Owed(t) && plannedUntil.Some? && t <= plannedUntil.value)
      && (maxOccurrences.Some? ==> |done| <= maxOccurrences.value)
      && (plannedUntil.Some? ==> CompleteUpTo(plannedUntil))
      && (!active ==> CompleteUpTo(None))
    }

    /** The cycle's window stays within what one expansion looks at. */
    predicate WithinCap(horizonEnd: int) {
      var w := Window(horizonEnd);
      schedule.Once? || CapHolds(zone, w.after, w.until)
    }
  }

  /** A horizon at most ten years past the start or the watermark is within the cap in every zone. */
  lemma NearHorizonWithinCap(p: Plan, horizonEnd: int)
    requires horizonEnd <= p.startsAt + 3650 * DAY
          || (p.plannedUntil.Some? && horizonEnd <= p.plannedUntil.value + 3650 * DAY)
    ensures p.WithinCap(horizonEnd)
  {
    hide CapHolds;
    var w := p.Window(horizonEnd);
    TenYearsWithinCap(p.zone, w.after, w.until);
  }

  lemma FreshIsExact(p: Plan)
    requires p.plannedUntil.None? && p.done == {} && p.active
    ensures p.Exact()
  {
  }

  /** What a cycle inserts is new, so no insert ever hits a row that is already there. */
  lemma CycleInsertsNewRows(p: Plan, horizonEnd: int)
    requires p.Exact() && p.WithinCap(horizonEnd)
    ensures forall t :: t in p.Moments(horizonEnd) ==> t !in p.done && p.Window(horizonEnd).after < t
    ensures |p.Cycle(horizonEnd).done| == |p.done| + |p.Moments(horizonEnd)|
  {
    hide Expansion, Fires, CapHolds;
    var w := p.Window(horizonEnd);
    var moments := p.Moments(horizonEnd);
    ExpansionIsExact(p.schedule, p.zone, w.after, w.until, w.limit);
    AscendingSize(moments);
  }

  /** Everything a cycle needs to know about its window and the instants it got back. */
  ghost predicate WindowFacts(p: Plan, w: PlanWindow, moments: seq<int>) {
    && IsExpansion(p.schedule, p.zone, w.after, w.until, w.limit, moments)
    && p.startsAt - 1 <= w.after
    && (p.plannedUntil.Some? ==> p.plannedUntil.value <= w.after)
    && (w.after == p.startsAt - 1 || (p.plannedUntil.Some? && p.plannedUntil.value == w.after))
    && (p.endsAt.Some? ==> w.until <= p.endsAt.value)
    && (w.limit == 500 || (p.maxOccurrences.Some? && w.limit == Max(p.maxOccurrences.value - |p.done|, 0)))
    && (p.maxOccurrences.Some? ==> w.limit <= Max(p.maxOccurrences.value - |p.done|, 0))
  }

  lemma WindowHolds(p: Plan, horizonEnd: int)
    requires p.WithinCap(horizonEnd)
    ensures WindowFacts(p, p.Window(horizonEnd), p.Moments(horizonEnd))
  {
    hide Expansion, IsExpansion, CapHolds;
    var w := p.Window(horizonEnd);
    ExpansionIsExact(p.schedule, p.zone, w.after, w.until, w.limit);
  }

  /** The watermark covers everything up to it, whether or not the limit cut the window short. */
  lemma WatermarkCovers(p: Plan, w: PlanWindow, moments: seq<int>, watermark: int, all: set<int>, t: int)
    requires p.Exact() && WindowFacts(p, w, moments)
    requires all == p.done + set m | m in moments
    requires watermark == if moments != [] && |moments| >= w.limit then moments[|moments| - 1]
             else Max(w.after, w.until)
    ensures forall u :: u in all ==> p.Owed(u) && u <= watermark
    ensures p.Owed(t) && t <= watermark && t !in all
            ==> p.maxOccurrences.Some? && |p.done| >= p.maxOccurrences.value && moments == [] && forall u :: u in all
                                                                                                    ==> u < t
  {
    hide Fires;
    assert moments != [] ==> moments[|moments| - 1] in moments;
    forall u | u in all ensures p.Owed(u) && u <= watermark {
      if u in moments {
        var i :| 0 <= i < |moments| && moments[i] == u;
      }
    }
    if p.Owed(t) && t <= watermark && t !in all {
      if w.after < t {
        assert t <= w.until;
      }
    }
  }

  /** What is owed past the watermark of an archived reminder is over its budget. */
  lemma LateIsOverBudget(p: Plan, horizonEnd: int, t: int)
    requires var q := p.Cycle(horizonEnd); !q.active && p.Owed(t) && q.plannedUntil.value < t
    ensures p.maxOccurrences.Some? && |p.Cycle(horizonEnd).done| >= p.maxOccurrences.value
  {
    hide Expansion;
  }

  /** What a cycle leaves behind, as far as the invariant reads it. */
  lemma CycleShape(p: Plan, horizonEnd: int)
    ensures var q := p.Cycle(horizonEnd); var w := p.Window(horizonEnd); var moments := p.Moments(horizonEnd);
      && q.plannedUntil == Some(if moments != [] && |moments| >= w.limit then moments[|moments| - 1]
                                else Max(w.after, w.until))
      && q.done == p.done + set m | m in moments
      && q.maxOccurrences == p.maxOccurrences
    ensures forall t :: p.Cycle(horizonEnd).Owed(t) <==> p.Owed(t)
  {
    hide Expansion, WindowOf;
  }

  lemma BudgetHolds(p: Plan, horizonEnd: int)
    requires p.Exact() && p.WithinCap(horizonEnd)
    ensures p.maxOccurrences.Some? ==> |p.Cycle(horizonEnd).done| <= p.maxOccurrences.value
  {
    WindowHolds(p, horizonEnd);
    CycleInsertsNewRows(p, horizonEnd);
    hide Expansion, Fires, WindowOf;
  }

  /** The planner as a watermark protocol: a cycle keeps the materialised set exactly what is owed
      up to the watermark. No gap or duplicate appears where the limit truncates a window, and
      nothing is archived early. */
  lemma CycleIsExact(p: Plan, horizonEnd: int)
    requires p.Exact() && p.active && p.WithinCap(horizonEnd)
    ensures p.Cycle(horizonEnd).Exact()
  {
    hide Expansion, WindowOf, WindowFacts, Settle, Plan.Owed, Plan.WithinCap, Plan.CompleteUpTo, Plan.Exact,
         IsExhausted;
    var q := p.Cycle(horizonEnd);
    var w, moments := p.Window(horizonEnd), p.Moments(horizonEnd);
    WindowHolds(p, horizonEnd);
    BudgetHolds(p, horizonEnd);
    CycleShape(p, horizonEnd);
    hide Plan.Cycle, Plan.Moments, Plan.Window;
    forall t | q.Owed(t) && t !in q.done && (t <= q.plannedUntil.value || !q.active)
      ensures q.maxOccurrences.Some? && |q.done| >= q.maxOccurrences.value && forall u :: u in q.done ==> u < t
    {
      LeftOverBudget(p, horizonEnd, t);
    }
    WatermarkCovers(p, w, moments, q.plannedUntil.value, q.done, q.plannedUntil.value);
    Completed(q);
    ExactlyThen(q);
  }

  lemma ExactlyThen(q: Plan)
    requires q.plannedUntil.Some? && forall t :: t in q.done ==> q.Owed(t) && t <= q.plannedUntil.value
    requires q.maxOccurrences.Some? ==> |q.done| <= q.maxOccurrences.value
    requires q.CompleteUpTo(q.plannedUntil) && (!q.active ==> q.CompleteUpTo(None))
    ensures q.Exact()
  {
    hide Plan.Owed, Plan.CompleteUpTo;
  }

  lemma LeftOverBudget(p: Plan, horizonEnd: int, t: int)
    requires p.Exact() && p.WithinCap(horizonEnd)
    requires var q := p.Cycle(horizonEnd); p.Owed(t) && t !in q.done && (t <= q.plannedUntil.value || !q.active)
    ensures var q := p.Cycle(horizonEnd);
      q.maxOccurrences.Some? && |q.done| >= q.maxOccurrences.value && forall u :: u in q.done ==> u < t
  {
    var q := p.Cycle(horizonEnd);
    var w, moments := p.Window(horizonEnd), p.Moments(horizonEnd);
    WindowHolds(p, horizonEnd);
    CycleShape(p, horizonEnd);
    hide Expansion, WindowOf, WindowFacts, Settle, Plan.Owed, Plan.Cycle, Plan.Moments, Plan.Window, Plan.WithinCap,
         Plan.CompleteUpTo, IsExhausted;
    var watermark := q.plannedUntil.value;
    WatermarkCovers(p, w, moments, watermark, q.done, t);
    if watermark < t { LateIsOverBudget(p, horizonEnd, t); }
    SubsetIsSmaller(p.done, q.done);
  }

  lemma Completed(q: Plan)
    requires q.plannedUntil.Some?
    requires forall t | q.Owed(t) && t !in q.done && (t <= q.plannedUntil.value || !q.active) ::
               q.maxOccurrences.Some? && |q.done| >= q.maxOccurrences.value && forall u :: u in q.done ==> u < t
    ensures q.CompleteUpTo(q.plannedUntil) && (!q.active ==> q.CompleteUpTo(None))
  {
    hide Plan.Owed;
  }

  /** A cycle archives the reminder exactly when its budget is used up, its end is reached, or its
      schedule never fires again after the watermark. */
  lemma ArchivedExactly(p: Plan, horizonEnd: int)
    ensures var q := p.Cycle(horizonEnd);
      && q.plannedUntil.Some? && q.schedule == p.schedule && q.zone == p.zone
      && (!q.active <==>
            || (p.maxOccurrences.Some? && |q.done| >= p.maxOccurrences.value)
            || (p.endsAt.Some? && p.endsAt.value <= q.plannedUntil.value)
            || (forall t :: q.plannedUntil.value < t ==> !Fires(p.schedule, p.zone, t)))
  {
    hide Expansion, ToUtc, WindowOf;
    var q := p.Cycle(horizonEnd);
    if p.schedule.Once? {
      assert Fires(p.schedule, p.zone, ToUtc(p.zone, p.schedule.moment));
    } else {
      hide Fires;
      var u := FiresAgain(p.schedule, p.zone, q.plannedUntil.value);
    }
  }

  /** A cycle gets as far as it is asked, or writes 500 rows, or uses up the budget. */
  lemma CycleGoesFar(p: Plan, horizonEnd: int)
    requires p.Exact() && p.WithinCap(horizonEnd)
    ensures var q := p.Cycle(horizonEnd);
      || (horizonEnd <= q.plannedUntil.value)
      || (p.endsAt.Some? && p.endsAt.value <= q.plannedUntil.value)
      || |q.done| == |p.done| + 500
      || (p.maxOccurrences.Some? && |q.done| >= p.maxOccurrences.value)
  {
    CycleInsertsNewRows(p, horizonEnd);
    WindowHolds(p, horizonEnd);
    CycleShape(p, horizonEnd);
    hide Expansion, Fires, Plan.Cycle, Plan.Moments, Settle, CapHolds, Plan.Owed, Plan.Exact, IsExpansion;
    WindowSize(p, horizonEnd);
  }

  lemma WindowSize(p: Plan, horizonEnd: int)
    requires p.WithinCap(horizonEnd)
    ensures |p.Moments(horizonEnd)| <= Max(p.Window(horizonEnd).limit, 0)
  {
    hide Expansion, Fires, CapHolds;
    WindowHolds(p, horizonEnd);
  }

  /** A planner that has nothing left to do has left nothing out: whatever an active reminder owes up to
      the horizon is there, or over its budget. */
  lemma IdleIsComplete(p: Plan, horizonEnd: int, t: int)
    requires p.Exact() && p.active && !p.Due(horizonEnd) && p.Owed(t) && t <= horizonEnd
    ensures t in p.done || (p.maxOccurrences.Some? && |p.done| == p.maxOccurrences.value)
  {
    hide Fires;
  }

  // ---------------------------------------------------------------------------------------------
  // Any number of cycles
  // ---------------------------------------------------------------------------------------------

  /** One visit of the planner: only a due reminder is touched. */
  ghost function Visit(p: Plan, horizonEnd: int): Plan {
    if p.Due(horizonEnd) then p.Cycle(horizonEnd) else p
  }

  ghost function Visits(p: Plan, horizons: seq<int>): Plan {
    if horizons == [] then p else Visit(Visits(p, horizons[..|horizons| - 1]), horizons[|horizons| - 1])
  }

  ghost predicate AllWithinCap(p: Plan, horizons: seq<int>) {
    forall i :: 0 <= i < |horizons| ==> Visits(p, horizons[..i]).WithinCap(horizons[i])
  }

  /** From a fresh reminder on, whatever horizons the cycles see, what is materialised is exactly
      the schedule from its start up to the watermark. */
  lemma {:induction false} VisitsAreExact(p: Plan, horizons: seq<int>)
    requires p.plannedUntil.None? && p.done == {} && p.active
    requires AllWithinCap(p, horizons)
    ensures Visits(p, horizons).Exact()
  {
    hide Plan.Exact, Plan.Cycle, Plan.WithinCap, Plan.Due;
    if horizons == [] {
      FreshIsExact(p);
    } else {
      var last := |horizons| - 1;
      var before := horizons[..last];
      forall i | 0 <= i < last ensures Visits(p, before[..i]).WithinCap(before[i]) {
        assert before[..i] == horizons[..i];
      }
      VisitsAreExact(p, before);
      DueIsActive(Visits(p, before), horizons[last]);
      if Visits(p, before).Due(horizons[last]) {
        CycleIsExact(Visits(p, before), horizons[last]);
      }
    }
  }

  lemma {:induction false} VisitsKeepStart(p: Plan, horizons: seq<int>)
    ensures Visits(p, horizons).startsAt == p.startsAt
  {
    hide Plan.Due;
    if horizons != [] {
      var last := |horizons| - 1;
      VisitsKeepStart(p, horizons[..last]);
      CycleKeepsTerms(Visits(p, horizons[..last]), horizons[last]);
      hide Plan.Cycle;
    }
  }

  /** In particular for as long as no horizon is more than ten years past the start. */
  lemma TenYearsOfVisits(p: Plan, horizons: seq<int>)
    requires forall i :: 0 <= i < |horizons| ==> horizons[i] <= p.startsAt + 3650 * DAY
    ensures AllWithinCap(p, horizons)
  {
    hide Visits, Plan.WithinCap;
    forall i | 0 <= i < |horizons| ensures Visits(p, horizons[..i]).WithinCap(horizons[i]) {
      VisitsKeepStart(p, horizons[..i]);
      NearHorizonWithinCap(Visits(p, horizons[..i]), horizons[i]);
    }
  }

  lemma DueIsActive(p: Plan, horizonEnd: int)
    ensures p.Due(horizonEnd) ==> p.active
  {
  }

  // ---------------------------------------------------------------------------------------------
  // Progress under a fixed horizon
  // ---------------------------------------------------------------------------------------------

  /** The instants a reminder may still be asked for before the horizon. */
  ghost function Ahead(p: Plan, horizonEnd: int): set<int> {
    var after := p.Window(horizonEnd).after;
    set t | after < t <= horizonEnd && Fires(p.schedule, p.zone, t)
  }

  ghost function Work(p: Plan, horizonEnd: int): nat {
    if p.Due(horizonEnd) then 1 + |Ahead(p, horizonEnd)| else 0
  }

  /** A visited reminder either stops being due or is left with fewer instants ahead. */
  lemma CycleMakesProgress(p: Plan, horizonEnd: int)
    requires p.Due(horizonEnd)
    ensures Work(p.Cycle(horizonEnd), horizonEnd) < Work(p, horizonEnd)
  {
    var q := p.Cycle(horizonEnd);
    if q.Due(horizonEnd) {
      var last := LastPlanned(p, horizonEnd);
      AheadShrinks(p, q, horizonEnd, last);
    }
    hide Plan.Cycle, Ahead;
  }

  /** A reminder that stays due was cut short by the limit. */
  lemma LastPlanned(p: Plan, horizonEnd: int) returns (last: int)
    requires p.Due(horizonEnd) && p.Cycle(horizonEnd).Due(horizonEnd)
    ensures p.Cycle(horizonEnd).plannedUntil == Some(last) && p.Window(horizonEnd).after < last <= horizonEnd
    ensures Fires(p.schedule, p.zone, last)
    ensures SameTermsIn(p, p.Cycle(horizonEnd))
  {
    hide Expansion, Fires, Plan.Cycle, Plan.Owed, WindowOf, Plan.Moments;
    var w, moments := p.Window(horizonEnd), p.Moments(horizonEnd);
    CycleShape(p, horizonEnd);
    CycleKeepsTerms(p, horizonEnd);
    if moments != [] && |moments| >= w.limit {
      last := moments[|moments| - 1];
      LastIsSound(p, horizonEnd);
    } else {
      last := horizonEnd;
      CoveredIsNotDue(p, horizonEnd);
    }
  }

  predicate SameTermsIn(p: Plan, q: Plan) {
    q.schedule == p.schedule && q.zone == p.zone && q.startsAt == p.startsAt
  }

  lemma CycleKeepsTerms(p: Plan, horizonEnd: int)
    ensures SameTermsIn(p, p.Cycle(horizonEnd))
  {
    hide Expansion, WindowOf, Settle;
  }

  lemma LastIsSound(p: Plan, horizonEnd: int)
    requires p.Moments(horizonEnd) != []
    ensures var moments := p.Moments(horizonEnd); var last := moments[|moments| - 1];
      p.Window(horizonEnd).after < last <= horizonEnd && Fires(p.schedule, p.zone, last)
  {
    hide Expansion, Fires;
    var w, moments := p.Window(horizonEnd), p.Moments(horizonEnd);
    assert moments[|moments| - 1] in moments;
    ExpansionIsSound(p.schedule, p.zone, w.after, w.until, w.limit, moments[|moments| - 1]);
  }

  lemma AheadShrinks(p: Plan, q: Plan, horizonEnd: int, t: int)
    requires p.Window(horizonEnd).after < t <= horizonEnd && Fires(p.schedule, p.zone, t)
    requires q.schedule == p.schedule && q.zone == p.zone && q.startsAt == p.startsAt && q.plannedUntil == Some(t)
    ensures |Ahead(q, horizonEnd)| < |Ahead(p, horizonEnd)|
  {
    hide Fires;
    assert q.Window(horizonEnd).after == t;
    assert t in Ahead(p, horizonEnd) && t !in Ahead(q, horizonEnd);
    assert Ahead(q, horizonEnd) <= Ahead(p, horizonEnd) - {t};
    SubsetIsSmaller(Ahead(q, horizonEnd), Ahead(p, horizonEnd) - {t});
  }

  lemma CoveredIsNotDue(p: Plan, horizonEnd: int)
    requires p.Due(horizonEnd)
    requires p.Cycle(horizonEnd).plannedUntil == Some(Max(p.Window(horizonEnd).after, p.Window(horizonEnd).until))
    ensures !p.Cycle(horizonEnd).Due(horizonEnd)
  {
    hide Expansion;
  }

  /** Reminders in the order of their ids. */
  type Fleet = seq<Plan>

  ghost function TotalWork(fleet: Fleet, horizonEnd: int): nat {
    if fleet == [] then 0 else TotalWork(fleet[..|fleet| - 1], horizonEnd) + Work(fleet[|fleet| - 1], horizonEnd)
  }

  ghost function DueIn(fleet: Fleet, horizonEnd: int): set<int> {
    set i | 0 <= i < |fleet| && fleet[i].Due(horizonEnd)
  }

  /** `ORDER BY planned_until NULLS FIRST, id`. */
  predicate PlannedBefore(fleet: Fleet, i: int, j: int)
    requires 0 <= i < |fleet| && 0 <= j < |fleet|
  {
    match (fleet[i].plannedUntil, fleet[j].plannedUntil)
    case (None, Some(_)) => true
    case (Some(_), None) => false
    case (None, None) => i < j
    case (Some(a), Some(b)) => a < b || (a == b && i < j)
  }

  /** The rows `due_for_planning` selects. */
  ghost predicate IsBatch(fleet: Fleet, horizonEnd: int, limit: nat, batch: set<int>) {
    var due := DueIn(fleet, horizonEnd);
    && batch <= due
    && |batch| == Min(limit, |due|)
    && forall i, j :: i in batch && j in due - batch ==> PlannedBefore(fleet, i, j)
  }

  ghost function Materialized(fleet: Fleet, batch: set<int>, horizonEnd: int): Fleet {
    seq(|fleet|, i requires 0 <= i < |fleet| => if i in batch then fleet[i].Cycle(horizonEnd) else fleet[i])
  }

  lemma {:induction false} WorkOfBatch(fleet: Fleet, batch: set<int>, horizonEnd: int)
    requires forall i :: i in batch && 0 <= i < |fleet| ==> fleet[i].Due(horizonEnd)
    ensures TotalWork(Materialized(fleet, batch, horizonEnd), horizonEnd) <= TotalWork(fleet, horizonEnd)
    ensures (exists i :: i in batch && 0 <= i < |fleet|)
            ==> TotalWork(Materialized(fleet, batch, horizonEnd), horizonEnd) < TotalWork(fleet, horizonEnd)
  {
    hide Work, Plan.Cycle, Plan.Due;
    if fleet != [] {
      var last := |fleet| - 1;
      var init := fleet[..last];
      var after := Materialized(fleet, batch, horizonEnd);
      assert after[..last] == Materialized(init, batch, horizonEnd);
      WorkOfBatch(init, batch, horizonEnd);
      if last in batch {
        CycleMakesProgress(fleet[last], horizonEnd);
      }
      assert forall i :: 0 <= i < last && i in batch ==> i in batch && 0 <= i < |init|;
    }
  }

  ghost predicate IsCycle(fleet: Fleet, next: Fleet, horizonEnd: int, limit: nat) {
    exists batch :: IsBatch(fleet, horizonEnd, limit, batch) && next == Materialized(fleet, batch, horizonEnd)
  }

  /** Consecutive planner cycles under one horizon. */
  ghost predicate ArePlannerCycles(fleets: seq<Fleet>, horizonEnd: int, limit: nat) {
    && fleets != []
    && forall i, j :: 0 <= i && j == i + 1 && j < |fleets| ==> IsCycle(fleets[i], fleets[j], horizonEnd, limit)
  }

  /** Each cycle with anything due takes away at least one unit of work, however small the batch. */
  lemma BatchWorks(fleet: Fleet, batch: set<int>, horizonEnd: int, limit: nat)
    requires limit >= 1 && IsBatch(fleet, horizonEnd, limit, batch)
    ensures var next := Materialized(fleet, batch, horizonEnd);
      TotalWork(next, horizonEnd) <= TotalWork(fleet, horizonEnd) - if DueIn(fleet, horizonEnd) == {} then 0 else 1
  {
    hide Plan.Due, TotalWork, Plan.Cycle, Materialized;
    WorkOfBatch(fleet, batch, horizonEnd);
    EmptyOrNot(batch);
  }

  /** A batch holds the least planned of what is due: first what was never planned, then what was planned
      for the shortest time, by id where that is the same. */
  lemma BatchIsLeastPlanned(fleet: Fleet, horizonEnd: int, limit: nat, batch: set<int>, i: int, j: int)
    requires IsBatch(fleet, horizonEnd, limit, batch)
    requires i in batch && j !in batch && 0 <= j < |fleet| && fleet[j].Due(horizonEnd)
    ensures 0 <= i < |fleet| && fleet[i].Due(horizonEnd) && |batch| == limit
    ensures var a, b := fleet[i].plannedUntil, fleet[j].plannedUntil;
      || (a.None? && b.Some?) || (a.None? && b.None? && i < j)
      || (a.Some? && b.Some? && (a.value < b.value || (a.value == b.value && i < j)))
  {
    hide Plan.Due;
    var due := DueIn(fleet, horizonEnd);
    assert i in due && j in due && j in due - batch;
    BatchLeavesOut(due, batch, limit, j);
  }

  lemma PlanningOrder(fleet: Fleet, i: int, j: int, k: int)
    requires 0 <= i < |fleet| && 0 <= j < |fleet| && 0 <= k < |fleet|
    ensures i != j ==> PlannedBefore(fleet, i, j) || PlannedBefore(fleet, j, i)
    ensures PlannedBefore(fleet, i, j) && PlannedBefore(fleet, j, k) ==> PlannedBefore(fleet, i, k)
  {
  }

  lemma {:induction false} LeastPlanned(fleet: Fleet, keys: set<int>) returns (m: int)
    requires keys != {} && forall i :: i in keys ==> 0 <= i < |fleet|
    ensures m in keys && forall j :: j in keys && j != m ==> PlannedBefore(fleet, m, j)
  {
    hide PlannedBefore;
    EmptyOrNot(keys);
    m :| m in keys;
    var rest := keys - {m};
    assert forall j :: j in keys && j != m ==> j in rest;
    if rest != {} {
      var k := m;
      var n := LeastPlanned(fleet, rest);
      PlanningOrder(fleet, n, k, k);
      m := if PlannedBefore(fleet, n, k) then n else k;
      forall j | j in keys && j != m ensures PlannedBefore(fleet, m, j) {
        if j != k && j != n { assert j in rest; }
        PlanningOrder(fleet, m, n, j);
      }
    }
  }

  /** There is always such a batch. */
  lemma {:induction false} BatchExists(fleet: Fleet, horizonEnd: int, limit: nat) returns (batch: set<int>)
    ensures IsBatch(fleet, horizonEnd, limit, batch)
  {
    hide Plan.Due, PlannedBefore;
    var due := DueIn(fleet, horizonEnd);
    if limit == 0 {
      batch := {};
    } else {
      batch := BatchExists(fleet, horizonEnd, limit - 1);
      var rest := due - batch;
      assert forall j :: j in due && j !in batch ==> j in rest;
      if rest != {} {
        var m := LeastPlanned(fleet, rest);
        SizeOfRest(due, batch, m);
        batch := batch + {m};
      } else {
        assert batch == due;
      }
    }
  }

  lemma SizeOfRest(due: set<int>, batch: set<int>, m: int)
    requires batch <= due && m in due && m !in batch
    ensures |batch + {m}| == |batch| + 1 <= |due|
  {
    SubsetIsSmaller(batch + {m}, due);
  }

  lemma BatchLeavesOut(due: set<int>, batch: set<int>, limit: nat, j: int)
    requires batch <= due && |batch| == Min(limit, |due|) && j in due && j !in batch
    ensures |batch| == limit
  {
    assert batch + {j} <= due;
    SubsetIsSmaller(batch + {j}, due);
  }

  /** The new reminders a cycle turns to before this one. */
  ghost function NewBefore(fleet: Fleet, horizonEnd: int, i: int): set<int> {
    set j | 0 <= j < |fleet| && j < i && fleet[j].Due(horizonEnd) && fleet[j].plannedUntil.None?
  }

  lemma NewWaits(fleet: Fleet, horizonEnd: int, limit: nat, batch: set<int>, i: int)
    requires IsBatch(fleet, horizonEnd, limit, batch) && i !in batch
    requires 0 <= i < |fleet| && fleet[i].Due(horizonEnd) && fleet[i].plannedUntil.None?
    ensures var next := Materialized(fleet, batch, horizonEnd);
      && next[i] == fleet[i]
      && |NewBefore(next, horizonEnd, i)| + limit <= |NewBefore(fleet, horizonEnd, i)|
  {
    hide Plan.Due, Plan.Cycle;
    var next := Materialized(fleet, batch, horizonEnd);
    var before, rest := NewBefore(fleet, horizonEnd, i), NewBefore(next, horizonEnd, i);
    BatchLeavesOut(DueIn(fleet, horizonEnd), batch, limit, i);
    forall j | j in batch ensures j in before {
      BatchIsLeastPlanned(fleet, horizonEnd, limit, batch, j, i);
    }
    forall j | j in rest ensures j in before && j !in batch {
      if j in batch { CyclePlans(fleet[j], horizonEnd); }
    }
    SubsetIsSmaller(rest + batch, before);
    assert |rest + batch| == |rest| + |batch|;
  }

  lemma CyclePlans(p: Plan, horizonEnd: int)
    ensures p.Cycle(horizonEnd).plannedUntil.Some?
  {
    hide Expansion, Settle, WindowOf;
  }

  /** Nobody starves: a new reminder is planned after as many cycles as it takes batches for the new ones
      before it. */
  lemma {:induction false} NewIsPlannedSoon(fleets: seq<Fleet>, horizonEnd: int, limit: nat, i: int)
    requires ArePlannerCycles(fleets, horizonEnd, limit)
    requires 0 <= i < |fleets[0]| && fleets[0][i].Due(horizonEnd) && fleets[0][i].plannedUntil.None?
    ensures |fleets[|fleets| - 1]| == |fleets[0]|
    ensures fleets[|fleets| - 1][i].plannedUntil.None? ==>
      && fleets[|fleets| - 1][i] == fleets[0][i]
      && (|fleets| - 1) * limit + |NewBefore(fleets[|fleets| - 1], horizonEnd, i)| <= |NewBefore(fleets[0], horizonEnd,
          i)|
  {
    hide IsBatch, NewBefore, Plan.Due;
    if |fleets| > 1 {
      var init, last := fleets[..|fleets| - 1], fleets[|fleets| - 1];
      NewIsPlannedSoon(init, horizonEnd, limit, i);
      var fleet := init[|init| - 1];
      assert IsCycle(fleet, last, horizonEnd, limit);
      var batch :| IsBatch(fleet, horizonEnd, limit, batch) && last == Materialized(fleet, batch, horizonEnd);
      StaysPlanned(fleet, horizonEnd, batch, i);
      if last[i].plannedUntil.None? {
        NewWaits(fleet, horizonEnd, limit, batch, i);
        assert (|fleets| - 1) * limit == (|init| - 1) * limit + limit;
      }
    }
  }

  lemma StaysPlanned(fleet: Fleet, horizonEnd: int, batch: set<int>, i: int)
    requires 0 <= i < |fleet|
    ensures Materialized(fleet, batch, horizonEnd)[i].plannedUntil.None? ==> i !in batch && fleet[i].plannedUntil.None?
  {
    hide Plan.Cycle;
    CyclePlans(fleet[i], horizonEnd);
  }

  lemma {:induction false} IdleExactly(fleet: Fleet, horizonEnd: int)
    ensures TotalWork(fleet, horizonEnd) == 0 <==> DueIn(fleet, horizonEnd) == {}
  {
    hide Ahead, Plan.Due;
    if fleet != [] {
      var last := |fleet| - 1;
      var init := fleet[..last];
      IdleExactly(init, horizonEnd);
      assert DueIn(fleet, horizonEnd) == DueIn(init, horizonEnd) + if fleet[last].Due(horizonEnd) then {last} else {};
    }
  }

  lemma CycleWorks(fleet: Fleet, next: Fleet, horizonEnd: int, limit: nat)
    requires limit >= 1 && IsCycle(fleet, next, horizonEnd, limit)
    ensures TotalWork(next, horizonEnd) <= Max(TotalWork(fleet, horizonEnd) - 1, 0)
  {
    hide IsBatch, Materialized, TotalWork, DueIn;
    var batch :| IsBatch(fleet, horizonEnd, limit, batch) && next == Materialized(fleet, batch, horizonEnd);
    BatchWorks(fleet, batch, horizonEnd, limit);
    IdleExactly(fleet, horizonEnd);
  }

  /** The planner always catches up: after at most as many cycles as there are due reminders and
      instants ahead of them, no reminder is due, with batches of any size and truncated windows. */
  lemma {:induction false} PlannerCatchesUp(fleets: seq<Fleet>, horizonEnd: int, limit: nat)
    requires limit >= 1 && ArePlannerCycles(fleets, horizonEnd, limit)
    ensures TotalWork(fleets[|fleets| - 1], horizonEnd) <= Max(TotalWork(fleets[0], horizonEnd) - (|fleets| - 1), 0)
    ensures |fleets| > TotalWork(fleets[0], horizonEnd) ==> DueIn(fleets[|fleets| - 1], horizonEnd) == {}
  {
    hide IsCycle, TotalWork, DueIn;
    IdleExactly(fleets[|fleets| - 1], horizonEnd);
    if |fleets| > 1 {
      var init := fleets[..|fleets| - 1];
      PlannerCatchesUp(init, horizonEnd, limit);
      CycleWorks(init[|init| - 1], fleets[|fleets| - 1], horizonEnd, limit);
    }
  }
}
