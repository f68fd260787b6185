/** What the planner owes and what it has materialised, over every run. */
module Coverage {
  import opened Zones
  import opened Ordering
  import opened Schedules
  import opened Recurrence
  import opened Planning
  import opened QuietHours
  import opened Contracts
  import opened Store
  import opened Runs
  import opened Steps
  import opened Invariants

  /** The event rewrites what the planner works from: a pause, a resume or a new schedule. */
  predicate Resets(e: Event, reminder: int) {
    (e.ChangeStatus? || e.Reschedule?) && e.reminder == reminder
  }

  ghost function PlanAfter(p: Plan, e: Event, reminder: int): Plan {
    if e.Materialize? && e.reminder == reminder then p.Cycle(e.horizonEnd) else p
  }

  /** The planner sees the same reminder in both. */
  ghost predicate SamePlanIn(a: Tables, b: Tables, r: int)
    requires r in a.reminders
  {
    r in b.reminders && PlanOf(b, r) == PlanOf(a, r) && b.reminders[r].status == a.reminders[r].status
  }

  lemma SamePlan(a: Tables, b: Tables, r: int)
    requires r in a.reminders && r in b.reminders && Scheduled(b, r) == Scheduled(a, r)
    requires var m, n := a.reminders[r], b.reminders[r];
      && m.schedule == n.schedule && m.zone == n.zone && m.startsAt == n.startsAt && m.endsAt == n.endsAt
      && m.maxOccurrences == n.maxOccurrences && m.plannedUntil == n.plannedUntil && m.status == n.status
    ensures SamePlanIn(a, b, r)
  {
  }

  lemma SameQueuePlan(a: Tables, b: Tables, r: int)
    requires r in a.reminders && r in b.reminders && b.occurrences.Keys == a.occurrences.Keys
    requires b.reminders[r] == a.reminders[r]
    ensures SamePlanIn(a, b, r)
  {
    SameScheduled(a, b, r);
    SamePlan(a, b, r);
  }

  lemma MaterializedPlan(db: Tables, reminder: int, horizonEnd: int, ttl: nat, r: int)
    requires r in db.reminders && reminder in db.reminders && db.reminders[reminder].owner in db.users
    requires PlanOf(db, reminder).Due(horizonEnd)
    ensures var after := MaterializeOne(db, reminder, horizonEnd, ttl);
      if r != reminder then SamePlanIn(db, after, r)
      else
        && r in after.reminders && PlanOf(after, r) == PlanOf(db, r).Cycle(horizonEnd)
        && (after.reminders[r].status == Archived <==> !PlanOf(db, r).Cycle(horizonEnd).active)
  {
    hide Expansion, InsertDeliveries, AcceptedUsers, FreshOccurrence, Settle, WindowOf;
    var after := MaterializeOne(db, reminder, horizonEnd, ttl);
    InsertedScheduled(db, after, reminder, PlanOf(db, reminder).Moments(horizonEnd),
                      db.users[db.reminders[reminder].owner].quiet, ttl);
    hide Scheduled, InsertOccurrences;
  }

  lemma DroppedPlan(db: Tables, reminder: int, r: int)
    requires reminder in db.reminders && r in db.reminders && r != reminder
    ensures SamePlanIn(db, DropQueued(db, reminder), r)
  {
    DropShrinks(db, reminder);
    hide Scheduled, Unsent;
  }

  lemma ResetPlan(w: World, s: Step, r: int)
    requires Legal(w, s) && (s.event.ChangeStatus? || s.event.Reschedule?) && s.event.reminder != r
             && r in w.db.reminders
    ensures SamePlanIn(w.db, Next(w, s).db, r)
  {
    hide DropQueued, FirstFireAt, Scheduled;
    var q := s.event.reminder;
    if EditableBy(w.db, s.event.owner, q) == Edited {
      var row := if s.event.ChangeStatus? then w.db.reminders[q].(status := s.event.status)
                 else w.db.reminders[q].(schedule := s.event.schedule);
      var edited := w.db.(reminders := w.db.reminders[q := row]);
      SameQueuePlan(w.db, edited, r);
      DroppedPlan(edited, q, r);
      DropKeepsReminders(edited, q);
    }
  }

  lemma DropKeepsReminders(db: Tables, reminder: int)
    requires reminder in db.reminders
    ensures DropQueued(db, reminder).reminders.Keys == db.reminders.Keys
  {
  }

  lemma QuietPlan(w: World, s: Step, r: int)
    requires Legal(w, s) && r in w.db.reminders && !s.event.EditRepeat? && !s.event.Attempt?
    requires !s.event.ChangeStatus? && !s.event.Reschedule? && !s.event.Materialize? && !s.event.Reap? && !s.event.Tap?
    ensures SamePlanIn(w.db, Next(w, s).db, r)
  {
    hide Scheduled, InsertDeliveries, Watchers, Upcoming, ClaimRow, PlanOf, Flights;
    SameQueuePlan(w.db, Next(w, s).db, r);
  }

  lemma AttemptedPlan(w: World, s: Step, r: int)
    requires r in w.db.reminders && (s.event.Attempt? || s.event.EditRepeat?)
    ensures SamePlanIn(w.db, Next(w, s).db, r)
  {
    hide Scheduled, VerdictFor, SettledRow, MovesOn, Flights;
    SameScheduled(w.db, Next(w, s).db, r);
  }

  lemma TappedPlan(w: World, s: Step, r: int)
    requires Legal(w, s) && r in w.db.reminders && s.event.Tap?
    ensures SamePlanIn(w.db, Next(w, s).db, r)
  {
    hide Scheduled;
    if React(w.db, s.event.key, s.event.user, s.event.kind, s.now).1 == Applied {
      var reaction := TapShape(w.db, s.event.key, s.event.user, s.event.kind, s.now);
      hide React, ReactRow, AllTerminal;
      SameQueuePlan(w.db, Next(w, s).db, r);
    } else {
      assert Next(w, s).db == w.db;
    }
  }

  lemma ReapedPlan(db: Tables, overdue: set<OccurrenceKey>, candidates: set<DeliveryKey>, now: int, r: int)
    requires r in db.reminders
    ensures SamePlanIn(db, Sweep(db, overdue, candidates, now), r)
  {
    hide IsRepeated, ReleaseRow, RepeatRow, RepeatMoment, ExpireRow, Scheduled;
    SameQueuePlan(db, Sweep(db, overdue, candidates, now), r);
  }

  /** Only its own cycle moves a reminder's plan, apart from a pause, a resume or an edit. */
  lemma EveryPlanSteps(w: World, s: Step, r: int)
    requires References(w.db) && Legal(w, s) && r in w.db.reminders && !Resets(s.event, r)
    ensures r in Next(w, s).db.reminders
    ensures PlanOf(Next(w, s).db, r) == PlanAfter(PlanOf(w.db, r), s.event, r)
    ensures Next(w, s).db.reminders[r].status == Archived <==>
      if s.event.Materialize? && s.event.reminder == r then !PlanOf(Next(w, s).db, r).active
        else w.db.reminders[r].status == Archived
  {
    match s.event
    case ChangeStatus(_, _, _) => ResetPlan(w, s, r);
    case Reschedule(_, _, _) => ResetPlan(w, s, r);
    case Materialize(reminder, horizonEnd, ttl) =>
      hide MaterializeOne, Plan.Cycle;
      MaterializedPlan(w.db, reminder, horizonEnd, ttl, r);
    case Reap(overdue, candidates) =>
      hide Sweep;
      ReapedPlan(w.db, overdue, candidates, s.now, r);
    case Tap(_, _, _) => TappedPlan(w, s, r);
    case Attempt(_, _, _) => AttemptedPlan(w, s, r);
    case EditRepeat(_, _, _) => AttemptedPlan(w, s, r);
    case _ => QuietPlan(w, s, r);
  }

  // ---------------------------------------------------------------------------------------------
  // Without a reset: exactly the schedule
  // ---------------------------------------------------------------------------------------------

  /** Every cycle of the reminder stays within what one expansion looks at. */
  ghost predicate CapKept(w: World, s: Step, r: int) {
    s.event.Materialize? && s.event.reminder == r && r in w.db.reminders
    ==> PlanOf(w.db, r).WithinCap(s.event.horizonEnd)
  }

  /** Which every cycle does whose horizon is at most ten years past the start or the watermark. */
  lemma NearCyclesKeepCap(w: World, s: Step, r: int)
    requires s.event.Materialize? && s.event.reminder == r && r in w.db.reminders ==>
      var row := w.db.reminders[r];
      || s.event.horizonEnd <= row.startsAt + 3650 * DAY
      || (row.plannedUntil.Some? && s.event.horizonEnd <= row.plannedUntil.value + 3650 * DAY)
    ensures CapKept(w, s, r)
  {
    hide Scheduled;
    if s.event.Materialize? && s.event.reminder == r && r in w.db.reminders {
      hide Plan.WithinCap;
      NearHorizonWithinCap(PlanOf(w.db, r), s.event.horizonEnd);
    }
  }

  lemma CreatedPlan(w: World, s: Step)
    requires Inv(w) && Legal(w, s) && s.event.Create?
    ensures s.event.reminder in Next(w, s).db.reminders && PlanOf(Next(w, s).db, s.event.reminder).Exact()
  {
    var v, r := Next(w, s), s.event.reminder;
    assert Scheduled(v.db, r) == {};
    FreshIsExact(PlanOf(v.db, r));
  }

  /** However the planner, the dispatcher, the reaper and the users interleave: until a reminder is
      paused or edited, its occurrence rows are exactly what its schedule owes from its start up to
      the watermark, cut at its end and to its first `maxOccurrences`, and an archived one has
      nothing left. */
  lemma {:induction false} PlanIsExact(ws: seq<World>, steps: seq<Step>, i: nat, j: nat)
    requires IsRun(ws, steps) && IsEmpty(ws[0]) && i < j < |ws| && steps[i].event.Create?
    requires forall m :: i < m < j ==> !Resets(steps[m].event, steps[i].event.reminder)
    requires forall m :: i < m < j ==> CapKept(ws[m], steps[m], steps[i].event.reminder)
    ensures steps[i].event.reminder in ws[j].db.reminders
    ensures PlanOf(ws[j].db, steps[i].event.reminder).Exact()
  {
    hide Inv, Legal, Next, IsEmpty, Plan.Exact, CapKept, PlanOf;
    var r := steps[i].event.reminder;
    EmptyIsOk(ws[0]);
    RunKeepsInv(ws, steps, j - 1);
    assert Legal(ws[j - 1], steps[j - 1]) && ws[j - 1 + 1] == Next(ws[j - 1], steps[j - 1]);
    if i == j - 1 {
      CreatedPlan(ws[i], steps[i]);
    } else {
      PlanIsExact(ws, steps, i, j - 1);
      ExactStep(ws[j - 1], steps[j - 1], r);
    }
  }

  /** Column by column: every occurrence row lies between the start and the end of its reminder, at an
      instant at which the schedule fires in its zone, and there are never more than the budget. */
  lemma RowsAreOwed(ws: seq<World>, steps: seq<Step>, i: nat, j: nat, o: OccurrenceKey)
    requires IsRun(ws, steps) && IsEmpty(ws[0]) && i < j < |ws| && steps[i].event.Create?
    requires forall m :: i < m < j ==> !Resets(steps[m].event, steps[i].event.reminder)
    requires forall m :: i < m < j ==> CapKept(ws[m], steps[m], steps[i].event.reminder)
    requires o in ws[j].db.occurrences && o.reminder == steps[i].event.reminder
    ensures o.reminder in ws[j].db.reminders
    ensures var r := ws[j].db.reminders[o.reminder];
      && r.startsAt <= o.scheduledFor && (r.endsAt.Some? ==> o.scheduledFor <= r.endsAt.value)
      && Fires(r.schedule, r.zone, o.scheduledFor)
      && r.plannedUntil.Some? && o.scheduledFor <= r.plannedUntil.value
  {
    hide IsRun, Resets, CapKept, Fires, IsEmpty;
    PlanIsExact(ws, steps, i, j);
    assert o.scheduledFor in Scheduled(ws[j].db, o.reminder);
  }

  /** And every such instant up to the watermark has its row, but for a budget used up. */
  lemma OwedHaveRows(ws: seq<World>, steps: seq<Step>, i: nat, j: nat, t: int)
    requires IsRun(ws, steps) && IsEmpty(ws[0]) && i < j < |ws| && steps[i].event.Create?
    requires forall m :: i < m < j ==> !Resets(steps[m].event, steps[i].event.reminder)
    requires forall m :: i < m < j ==> CapKept(ws[m], steps[m], steps[i].event.reminder)
    requires steps[i].event.reminder in ws[j].db.reminders
    requires var r := ws[j].db.reminders[steps[i].event.reminder];
      && r.startsAt <= t && (r.endsAt.Some? ==> t <= r.endsAt.value) && Fires(r.schedule, r.zone, t)
      && r.plannedUntil.Some? && t <= r.plannedUntil.value
    ensures OccurrenceKey(steps[i].event.reminder, t) in ws[j].db.occurrences
         || (ws[j].db.reminders[steps[i].event.reminder].maxOccurrences.Some?
             && |Scheduled(ws[j].db, steps[i].event.reminder)|
                == ws[j].db.reminders[steps[i].event.reminder].maxOccurrences.value)
  {
    var r := steps[i].event.reminder;
    hide IsRun, Resets, CapKept, Fires, IsEmpty;
    PlanIsExact(ws, steps, i, j);
    if t in Scheduled(ws[j].db, r) {
      assert OccurrenceKey(r, t) in ws[j].db.occurrences;
    }
  }

  lemma ExactStep(w: World, s: Step, r: int)
    requires Inv(w) && Legal(w, s) && r in w.db.reminders && !Resets(s.event, r) && CapKept(w, s, r)
    requires PlanOf(w.db, r).Exact()
    ensures r in Next(w, s).db.reminders && PlanOf(Next(w, s).db, r).Exact()
  {
    hide Next, RowsOk, OccurrencesOk, FlightsOk, Covered, Budgeted, Plan.Exact, PlanOf, Plan.WithinCap, Plan.Cycle;
    EveryPlanSteps(w, s, r);
    if s.event.Materialize? && s.event.reminder == r {
      CycleIsExact(PlanOf(w.db, r), s.event.horizonEnd);
    }
  }

  // ---------------------------------------------------------------------------------------------
  // With resets: nothing owed is missing
  // ---------------------------------------------------------------------------------------------

  /** Everything the current schedule owes up to the watermark has its row, unless the budget is used
      up; and once the planner has archived the reminder, nothing at all is owed any more. */
  ghost predicate NothingMissing(p: Plan, archived: bool) {
    p.plannedUntil.Some? ==>
      forall t :: p.Owed(t) && (t <= p.plannedUntil.value || archived) && t !in p.done
                  ==> p.maxOccurrences.Some? && |p.done| >= p.maxOccurrences.value
  }

  lemma MissingIsOverBudget(p: Plan, w: PlanWindow, moments: seq<int>, watermark: int, t: int)
    requires NothingMissing(p, false) && WindowFacts(p, w, moments)
    requires watermark == if moments != [] && |moments| >= w.limit then moments[|moments| - 1]
             else Max(w.after, w.until)
    requires p.Owed(t) && t <= watermark && t !in p.done && t !in moments
    ensures p.maxOccurrences.Some? && |p.done| >= p.maxOccurrences.value
  {
    hide Fires;
    assert moments != [] ==> moments[|moments| - 1] in moments;
    if w.after < t {
      assert t <= w.until;
    }
  }

  /** A cycle restores the whole, wherever it restarts from. */
  lemma CycleMissesNothing(p: Plan, horizonEnd: int)
    requires NothingMissing(p, false) && p.WithinCap(horizonEnd)
    ensures NothingMissing(p.Cycle(horizonEnd), !p.Cycle(horizonEnd).active)
  {
    var q := p.Cycle(horizonEnd);
    CycleShape(p, horizonEnd);
    hide Expansion, WindowOf, Settle, Plan.Owed, Plan.Cycle, Plan.Moments, Plan.Window, Plan.WithinCap, IsExhausted;
    forall t | q.Owed(t) && (t <= q.plannedUntil.value || !q.active) && t !in q.done
      ensures q.maxOccurrences.Some? && |q.done| >= q.maxOccurrences.value
    {
      MissedIsOverBudget(p, horizonEnd, t);
    }
  }

  lemma MissedIsOverBudget(p: Plan, horizonEnd: int, t: int)
    requires NothingMissing(p, false) && p.WithinCap(horizonEnd)
    requires var q := p.Cycle(horizonEnd); p.Owed(t) && (t <= q.plannedUntil.value || !q.active) && t !in q.done
    ensures var q := p.Cycle(horizonEnd); q.maxOccurrences.Some? && |q.done| >= q.maxOccurrences.value
  {
    hide Expansion, WindowOf, WindowFacts, Settle, Plan.Owed, Plan.Moments, Plan.Window, Plan.WithinCap, IsExhausted,
         NothingMissing;
    var q := p.Cycle(horizonEnd);
    CycleShape(p, horizonEnd);
    SubsetIsSmaller(p.done, q.done);
    if t <= q.plannedUntil.value {
      WindowHolds(p, horizonEnd);
      MissingIsOverBudget(p, p.Window(horizonEnd), p.Moments(horizonEnd), q.plannedUntil.value, t);
    } else {
      LateIsOverBudget(p, horizonEnd, t);
    }
  }

  ghost predicate Kept(db: Tables, r: int) {
    r in db.reminders ==> NothingMissing(PlanOf(db, r), db.reminders[r].status == Archived)
  }

  lemma FreshMissesNothing(p: Plan, archived: bool)
    requires p.plannedUntil.None?
    ensures NothingMissing(p, archived)
  {
  }


  /** A pause or an edit starts the plan over; a resume leaves it as it is. */
  lemma ResetKeeps(w: World, s: Step, r: int)
    requires Legal(w, s) && Resets(s.event, r) && Kept(w.db, r)
    ensures Kept(Next(w, s).db, r)
  {
    hide FirstFireAt, Plan.Owed, DropQueued, Scheduled;
    if r in w.db.reminders {
      if s.event.ChangeStatus? {
        ResumeKeeps(w.db, r, s.event.status);
        DropKeeps(w.db.(reminders := w.db.reminders[r := w.db.reminders[r].(status := s.event.status)]), r);
      } else {
        DropKeeps(w.db.(reminders := w.db.reminders[r := w.db.reminders[r].(schedule := s.event.schedule)]), r);
      }
    }
  }

  lemma DropKeeps(db: Tables, r: int)
    requires r in db.reminders
    ensures Kept(DropQueued(db, r), r)
  {
    hide Unsent, Scheduled, NothingMissing;
    FreshMissesNothing(PlanOf(DropQueued(db, r), r), db.reminders[r].status == Archived);
  }

  lemma ResumeKeeps(db: Tables, r: int, status: ReminderStatus)
    requires r in db.reminders && Kept(db, r)
    ensures status == Active ==> Kept(db.(reminders := db.reminders[r := db.reminders[r].(status := status)]), r)
  {
    hide Plan.Owed;
    var after := db.(reminders := db.reminders[r := db.reminders[r].(status := status)]);
    SameScheduled(db, after, r);
    SameOwed(PlanOf(db, r), PlanOf(after, r));
  }

  lemma SameOwed(p: Plan, q: Plan)
    requires q == p.(active := q.active)
    ensures forall t :: q.Owed(t) <==> p.Owed(t)
  {
    hide Fires;
  }

  lemma NewMissesNothing(w: World, s: Step, r: int)
    requires Legal(w, s) && r !in w.db.reminders
    ensures Kept(Next(w, s).db, r)
  {
    if s.event.Create? && s.event.reminder == r {
      hide NothingMissing, Flights;
      FreshMissesNothing(PlanOf(Next(w, s).db, r), false);
    } else {
      hide Legal, Next, PlanOf, NothingMissing;
      NoNewReminder(w, s, r);
    }
  }

  lemma NoNewReminder(w: World, s: Step, r: int)
    requires Legal(w, s) && r !in w.db.reminders && !(s.event.Create? && s.event.reminder == r)
    ensures r !in Next(w, s).db.reminders
  {
    hide Next, Flights, Sweep, React, MaterializeOne, SetStatus, ReplaceSchedule, Claim, DeliverOne, OpenInvite,
         AcceptInvite, RemoveWatcher, Leave;
    NextParts(w, s);
    match s.event
    case Reap(overdue, candidates) => SweepTerms(w.db, overdue, candidates, s.now);
    case Tap(key, user, kind) => TapTerms(w.db, key, user, kind, s.now);
    case Materialize(q, horizonEnd, ttl) => MaterializeKeepsReminders(w.db, q, horizonEnd, ttl);
    case ChangeStatus(owner, q, status) => EditKeepsReminders(w.db, owner, q, status, Once(0), s.now);
    case Reschedule(owner, q, schedule) => EditKeepsReminders(w.db, owner, q, Active, schedule, s.now);
    case ClaimBatch(_, batch, lockFor) => ClaimKeepsReminders(w.db, batch, s.now, lockFor);
    case Attempt(session, key, result) =>
      AttemptKeepsReminders(w.db, key, w.inFlight[FlightKey(session, key)], s.now, result);
    case Invite(q, u) => SharingKeepsReminders(w.db, q, u, s.now);
    case AcceptInvitation(u, q) => SharingKeepsReminders(w.db, q, u, s.now);
    case Decline(u, q) => SharingKeepsReminders(w.db, q, u, s.now);
    case LeaveReminder(u, q) => SharingKeepsReminders(w.db, q, u, s.now);
    case _ =>
  }

  lemma SharingKeepsReminders(db: Tables, reminder: int, user: int, now: int)
    ensures OpenInvite(db, reminder, user).reminders == db.reminders
    ensures AcceptInvite(db, user, reminder, now).reminders == db.reminders
    ensures RemoveWatcher(db, user, reminder).reminders == db.reminders
    ensures Leave(db, user, reminder).reminders == db.reminders
  {
    hide Watchers, InsertDeliveries, Upcoming, IsQueuedFor;
  }

  lemma EditKeepsReminders(db: Tables, owner: int, reminder: int, status: ReminderStatus, s: Schedule, now: int)
    ensures SetStatus(db, owner, reminder, status).0.reminders.Keys == db.reminders.Keys
    ensures ReplaceSchedule(db, owner, reminder, s, now).0.reminders.Keys == db.reminders.Keys
  {
    hide DropQueued, FirstFireAt;
    if reminder in db.reminders {
      DropKeepsReminders(db.(reminders := db.reminders[reminder := db.reminders[reminder].(status := status)]),
                         reminder);
      DropKeepsReminders(db.(reminders := db.reminders[reminder := db.reminders[reminder].(schedule := s)]), reminder);
    }
  }

  lemma ClaimKeepsReminders(db: Tables, batch: set<DeliveryKey>, now: int, lockFor: int)
    ensures Claim(db, batch, now, lockFor).reminders == db.reminders
  {
  }

  lemma AttemptKeepsReminders(db: Tables, key: DeliveryKey, f: Flight, now: int, result: SendResult)
    ensures DeliverOne(db, key, f, now, result).reminders == db.reminders
  {
    hide VerdictFor, SettledRow, MovesOn;
  }

  lemma KeptStep(w: World, s: Step, r: int)
    requires Inv(w) && Legal(w, s) && CapKept(w, s, r) && Kept(w.db, r)
    ensures Kept(Next(w, s).db, r)
  {
    hide Next, RowsOk, OccurrencesOk, FlightsOk, Covered, Budgeted, NothingMissing, Plan.WithinCap, Plan.Cycle;
    if Resets(s.event, r) {
      ResetKeeps(w, s, r);
    } else if r in w.db.reminders {
      EveryPlanSteps(w, s, r);
      if s.event.Materialize? && s.event.reminder == r {
        CycleMissesNothing(PlanOf(w.db, r), s.event.horizonEnd);
      }
    } else {
      NewMissesNothing(w, s, r);
    }
  }

  lemma {:induction false} AlwaysKept(ws: seq<World>, steps: seq<Step>, i: nat, r: int)
    requires IsRun(ws, steps) && IsEmpty(ws[0]) && i < |ws|
    requires forall m :: 0 <= m < i ==> CapKept(ws[m], steps[m], r)
    ensures Kept(ws[i].db, r)
  {
    hide Inv, Legal, Next, CapKept, PlanOf, NothingMissing;
    if i > 0 {
      AlwaysKept(ws, steps, i - 1, r);
      EmptyIsOk(ws[0]);
      RunKeepsInv(ws, steps, i - 1);
      assert Legal(ws[i - 1], steps[i - 1]) && ws[i - 1 + 1] == Next(ws[i - 1], steps[i - 1]);
      KeptStep(ws[i - 1], steps[i - 1], r);
    }
  }

  /** In every run, with pauses, resumes and edits anywhere: every instant the current schedule owes
      up to the watermark has its occurrence row, and once the planner has archived the reminder so
      has every instant it will ever owe, except that a used-up budget of occurrences owes no more. */
  lemma NothingOwedIsLost(ws: seq<World>, steps: seq<Step>, i: nat, r: int, t: int)
    requires IsRun(ws, steps) && IsEmpty(ws[0]) && i < |ws| && r in ws[i].db.reminders
    requires forall m :: 0 <= m < i ==> CapKept(ws[m], steps[m], r)
    requires PlanOf(ws[i].db, r).Owed(t)
    requires var row := ws[i].db.reminders[r];
      row.plannedUntil.Some? && (t <= row.plannedUntil.value || row.status == Archived)
    ensures OccurrenceKey(r, t) in ws[i].db.occurrences
         || (ws[i].db.reminders[r].maxOccurrences.Some?
             && |Scheduled(ws[i].db, r)| == ws[i].db.reminders[r].maxOccurrences.value)
  {
    hide IsRun, CapKept, Plan.Owed;
    EmptyIsOk(ws[0]);
    AlwaysKept(ws, steps, i, r);
    RunKeepsInv(ws, steps, i);
    if t in Scheduled(ws[i].db, r) {
      assert OccurrenceKey(r, t) in ws[i].db.occurrences;
    }
  }

  /** A new occurrence fires at its instant unless the owner is silent then, at the end of the silence
      otherwise, and lives for its whole lifetime from there. */
  ghost predicate IsNewOccurrence(row: Occurrence, quiet: Quiet, moment: int, ttl: nat) {
    && row.status == OccPending && row.repeatsSent == 0 && row.expiresAt == row.fireAt + ttl
    && row.fireAt == Shift(quiet, moment) && moment <= row.fireAt && (row.fireAt == moment <==> !Covers(quiet, moment))
    && (KeepsSilence(quiet) ==> !Covers(quiet, row.fireAt))
  }

  lemma FreshIsNew(quiet: Quiet, moment: int, ttl: nat)
    ensures IsNewOccurrence(FreshOccurrence(quiet, moment, ttl), quiet, moment, ttl)
  {
    hide Shift, Covers, KeepsSilence;
    ShiftContract(quiet, moment);
    SilenceIsKept(quiet);
  }

  /** What a cycle inserts is one such occurrence for each instant it expanded that had none. */
  lemma CycleInserts(db: Tables, reminder: int, horizonEnd: int, ttl: nat, o: OccurrenceKey)
    requires reminder in db.reminders && db.reminders[reminder].owner in db.users
    ensures var after := MaterializeOne(db, reminder, horizonEnd, ttl).occurrences;
      && (o in db.occurrences ==> o in after && after[o] == db.occurrences[o])
      && (o !in db.occurrences ==>
            if o.reminder == reminder && o.scheduledFor in PlanOf(db, reminder).Moments(horizonEnd)
            then o in after && IsNewOccurrence(after[o], db.users[db.reminders[reminder].owner].quiet, o.scheduledFor,
                                               ttl)
            else o !in after)
  {
    var quiet := db.users[db.reminders[reminder].owner].quiet;
    var moments := PlanOf(db, reminder).Moments(horizonEnd);
    hide MaterializeOne, InsertDeliveries, AcceptedUsers, FreshOccurrence, Plan.Moments, Plan.Cycle, IsNewOccurrence;
    MaterializeShape(db, reminder, horizonEnd, ttl);
    FreshIsNew(quiet, o.scheduledFor, ttl);
    assert o in KeysOf(reminder, moments) <==> o.reminder == reminder && o.scheduledFor in moments;
  }

  // ---------------------------------------------------------------------------------------------
  // The invariant, read by a user
  // ---------------------------------------------------------------------------------------------

  /** Everybody the reminder reaches is queued for everything still ahead, in every run mixing plans,
      invitations, departures, pauses and edits. (A pair of an occurrence and a user is a key, so
      there is never a second row.) */
  lemma EveryRecipientIsQueued(ws: seq<World>, steps: seq<Step>, i: nat, o: OccurrenceKey, user: int)
    requires IsRun(ws, steps) && IsEmpty(ws[0]) && i < |ws|
    requires o in ws[i].db.occurrences && ws[i].clock < ws[i].db.occurrences[o].fireAt
    requires RecipientKey(o.reminder, user) in ws[i].db.recipients
    requires var r := ws[i].db.recipients[RecipientKey(o.reminder, user)]; r.role == Owner || r.acceptedAt.Some?
    ensures DeliveryKey(o, user) in ws[i].db.deliveries
    ensures ws[i].db.deliveries[DeliveryKey(o, user)].status == Pending
    ensures ws[i].db.deliveries[DeliveryKey(o, user)].sentAt.None?
  {
    hide IsRun;
    EmptyIsOk(ws[0]);
    RunKeepsInv(ws, steps, i);
    var k := DeliveryKey(o, user);
    assert RecipientKey(o.reminder, user) in ws[i].db.recipients;
    assert RowOk(ws[i].clock, ws[i].db.deliveries[k], ws[i].db.occurrences[o]);
  }

  /** The budget holds in every run, the counter column is the number of rows, and so the clamp at
      zero in taking occurrences back never bites. */
  lemma BudgetIsKept(ws: seq<World>, steps: seq<Step>, i: nat, r: int)
    requires IsRun(ws, steps) && IsEmpty(ws[0]) && i < |ws| && r in ws[i].db.reminders
    ensures var db, row := ws[i].db, ws[i].db.reminders[r];
      && row.firedCount == |Scheduled(db, r)|
      && (row.maxOccurrences.Some? ==> |Scheduled(db, r)| <= row.maxOccurrences.value)
      && DropQueued(db, r).reminders[r].firedCount == row.firedCount - |Unsent(db, r)|
  {
    hide IsRun, Unsent, Scheduled;
    EmptyIsOk(ws[0]);
    RunKeepsInv(ws, steps, i);
    DropShrinks(ws[i].db, r);
  }
}
