/** What the journal of a delivery says: answers, and silence. */
module Journal {
  import opened Contracts
  import opened Dispatching
  import opened Reactions
  import opened Planning
  import opened Store
  import opened Runs
  import opened Steps
  import opened Invariants
  import opened Guarantees

  // ---------------------------------------------------------------------------------------------
  // What holds while workers keep their leases
  // ---------------------------------------------------------------------------------------------

  predicate IsAnsweredStatus(s: OccurrenceStatus) {
    s == OccDone || s == OccSkipped
  }

  function Silences(d: Delivery): nat {
    CountOf(d.actions, AutoExpireAction)
  }

  /** Silence is recorded on messages that can no longer be answered, and an answered occurrence has
      nobody waiting. */
  ghost predicate Resolved(clock: int, d: Delivery, o: Occurrence) {
    && (Silences(d) > 0 ==> d.status == Sent && o.expiresAt < clock)
    && (IsAnsweredStatus(o.status) ==> IsTerminal(d.status) || d.status == Pending)
  }

  /** A session that holds a row of an answered occurrence has read that it is closed. */
  ghost predicate HasRead(w: World, f: FlightKey, flight: Flight) {
    && flight.row && flight.view.Seen? && f.delivery.occurrence in w.db.occurrences
    && IsAnsweredStatus(w.db.occurrences[f.delivery.occurrence].status)
    ==> IsClosed(flight.view.status)
  }

  ghost predicate RowsResolved(w: World) {
    forall k :: k in w.db.deliveries && k.occurrence in w.db.occurrences
      ==> Resolved(w.clock, w.db.deliveries[k], w.db.occurrences[k.occurrence])
  }

  ghost predicate FlightsRead(w: World) {
    forall f :: f in w.inFlight ==> HasRead(w, f, w.inFlight[f])
  }

  ghost predicate FlightsLive(w: World) {
    forall f :: f in w.inFlight ==> w.clock <= w.inFlight[f].until
  }

  ghost predicate Ordered(w: World) {
    Inv(w) && Queued(w) && RowsResolved(w) && FlightsRead(w) && FlightsLive(w)
  }

  /** What a sweep does to a row, by its status. */
  lemma ReapedBy(d: Delivery, e: Delivery, expired: bool, expiresAt: int, now: int)
    requires Reaped(d, e, expired, expiresAt, now)
    ensures d.status == Sent && expired ==> e == d.(actions := d.actions + [Action(AutoExpireAction, now)])
    ensures d.status == Sent && !expired
            ==> e == d || (now < expiresAt && e.status == Pending && e.actions == d.actions)
    ensures d.status != Sent ==> e == d || (IsQueued(d) && e == d.(lockedUntil := None))
  {
  }

  lemma SilencesAppend(d: Delivery, a: Action)
    ensures Silences(d.(actions := d.actions + [a])) == Silences(d) + if a.kind == AutoExpireAction then 1 else 0
  {
    CountAppend(d.actions, a, AutoExpireAction);
  }

  /** What a tap finds, and what it leaves alone. */
  lemma TapFinds(w: World, s: Step, k: DeliveryKey, e: Delivery)
    requires Legal(w, s) && s.event.Tap? && k in w.db.deliveries && k.occurrence in w.db.occurrences
    requires RowChange(w, s, k, w.db.deliveries[k], e)
    ensures var a := w.db.occurrences[k.occurrence];
      e == w.db.deliveries[k] || (!IsClosed(a.status) && s.now < a.expiresAt)
  {
    if React(w.db, s.event.key, s.event.user, s.event.kind, s.now).1 == Applied {
      var _ := TapShape(w.db, s.event.key, s.event.user, s.event.kind, s.now);
    }
    hide React, Writes, ReactRow;
  }

  lemma TapResolves(w: World, s: Step, k: DeliveryKey, e: Delivery, b: Occurrence)
    requires Legal(w, s) && s.event.Tap? && k in w.db.deliveries && k.occurrence in w.db.occurrences
    requires var a := w.db.occurrences[k.occurrence];
      Resolved(w.clock, w.db.deliveries[k], a) && OccurrenceChange(w, s, k.occurrence, a, b)
      && (b != a ==> IsTerminal(e.status))
    requires RowChange(w, s, k, w.db.deliveries[k], e)
    ensures Resolved(s.now, e, b)
  {
    hide Silences, AllTerminal, React, RowChange;
    TapFinds(w, s, k, e);
    TapKeepsSilences(w, s, k, e);
  }

  lemma TapKeepsSilences(w: World, s: Step, k: DeliveryKey, e: Delivery)
    requires Legal(w, s) && s.event.Tap? && k in w.db.deliveries && RowChange(w, s, k, w.db.deliveries[k], e)
    ensures Silences(e) == Silences(w.db.deliveries[k])
  {
    hide React, CountOf;
    CountAppend(w.db.deliveries[k].actions, Action(s.event.kind, s.now), AutoExpireAction);
  }

  lemma AttemptResolves(w: World, s: Step, k: DeliveryKey, e: Delivery, b: Occurrence)
    requires FlightsLeased(w) && FlightsRead(w) && Legal(w, s) && s.event.Attempt?
    requires k in w.db.deliveries && k.occurrence in w.db.occurrences
    requires var a := w.db.occurrences[k.occurrence];
      Resolved(w.clock, w.db.deliveries[k], a) && OccurrenceChange(w, s, k.occurrence, a, b)
    requires RowChange(w, s, k, w.db.deliveries[k], e)
    ensures Resolved(s.now, e, b)
  {
    hide CountOf;
    var own := FlightKey(s.event.session, s.event.key);
    assert HasRead(w, own, w.inFlight[own]);
    assert w.inFlight[own].row ==> Leased(w.clock, w.db.deliveries[own.delivery], w.inFlight[own]);
    hide FlightsRead, FlightsLeased;
  }

  lemma ReapResolves(w: World, s: Step, k: DeliveryKey, e: Delivery, b: Occurrence)
    requires Legal(w, s) && s.event.Reap? && k in w.db.deliveries && k.occurrence in w.db.occurrences
    requires var a := w.db.occurrences[k.occurrence];
      Resolved(w.clock, w.db.deliveries[k], a) && OccurrenceChange(w, s, k.occurrence, a, b)
    requires RowChange(w, s, k, w.db.deliveries[k], e)
    ensures Resolved(s.now, e, b)
  {
    hide Reaped, Silences;
    var d := w.db.deliveries[k];
    ReapedBy(d, e, k.occurrence in s.event.overdue, ExpiresAt(w.db, k, s.now), s.now);
    SilencesAppend(d, Action(AutoExpireAction, s.now));
    SameSilences(d, e);
  }

  lemma SameSilences(d: Delivery, e: Delivery)
    ensures e.actions == d.actions ==> Silences(e) == Silences(d)
  {
  }

  lemma RowResolves(w: World, s: Step, k: DeliveryKey, e: Delivery, b: Occurrence)
    requires FlightsLeased(w) && FlightsRead(w) && Legal(w, s) && k in w.db.deliveries
    requires k.occurrence in w.db.occurrences
    requires var a := w.db.occurrences[k.occurrence];
      Resolved(w.clock, w.db.deliveries[k], a) && OccurrenceChange(w, s, k.occurrence, a, b)
      && (s.event.Tap? && b != a ==> IsTerminal(e.status))
    requires RowChange(w, s, k, w.db.deliveries[k], e)
    ensures Resolved(s.now, e, b)
  {
    if s.event.Tap? {
      hide RowChange, OccurrenceChange, Resolved;
      TapResolves(w, s, k, e, b);
    } else if s.event.Attempt? {
      hide RowChange, OccurrenceChange, Resolved;
      AttemptResolves(w, s, k, e, b);
    } else if s.event.Reap? {
      hide RowChange, OccurrenceChange, Resolved;
      ReapResolves(w, s, k, e, b);
    } else {
      SameSilences(w.db.deliveries[k], e);
      hide Silences;
    }
  }

  lemma FreshResolves(clock: int, o: Occurrence)
    ensures Resolved(clock, FreshDelivery(o.fireAt), o)
  {
  }

  lemma RowsResolve(w: World, s: Step)
    requires Ordered(w) && Legal(w, s) && Inv(Next(w, s))
    ensures RowsResolved(Next(w, s))
  {
    var v := Next(w, s);
    ClockOf(w, s);
    hide Next, RowChange, OccurrenceChange, Resolved, RowOk, References, Covered, Budgeted, FlightsOk, FlightsLeased,
         FlightsRead, FlightsLive, Legal;
    forall k | k in v.db.deliveries && k.occurrence in v.db.occurrences
      ensures Resolved(v.clock, v.db.deliveries[k], v.db.occurrences[k.occurrence])
    {
      EveryRowSteps(w, s, k);
      EveryOccurrenceSteps(w, s, k.occurrence);
      if k in w.db.deliveries {
        ClosingIsTerminal(w, s, k);
        RowResolves(w, s, k, v.db.deliveries[k], v.db.occurrences[k.occurrence]);
      } else {
        FreshResolves(v.clock, v.db.occurrences[k.occurrence]);
      }
    }
  }

  /** A tap that closes an occurrence finds all its deliveries settled. */
  lemma ClosingIsTerminal(w: World, s: Step, k: DeliveryKey)
    requires k in Next(w, s).db.deliveries && k.occurrence in w.db.occurrences
    requires k.occurrence in Next(w, s).db.occurrences
    requires OccurrenceChange(w, s, k.occurrence, w.db.occurrences[k.occurrence],
                              Next(w, s).db.occurrences[k.occurrence])
    ensures s.event.Tap? && Next(w, s).db.occurrences[k.occurrence] != w.db.occurrences[k.occurrence]
            ==> IsTerminal(Next(w, s).db.deliveries[k].status)
  {
    hide Next, React;
  }

  /** Only a tap makes an occurrence answered. */
  lemma AnsweredByTap(w: World, s: Step, o: OccurrenceKey, a: Occurrence, b: Occurrence)
    requires OccurrenceChange(w, s, o, a, b) && IsAnsweredStatus(b.status)
    ensures IsAnsweredStatus(a.status) || (s.event.Tap? && b != a)
    ensures s.event.Attempt? && s.event.key.occurrence == o && FlightKey(s.event.session, s.event.key) in w.inFlight
            ==> !MovesOn(w.inFlight[FlightKey(s.event.session, s.event.key)], s.event.result)
  {
    hide React, AllTerminal, MovesOn;
  }

  /** What a session comes to know of an occurrence that is answered before and after. */
  lemma StillRead(w: World, s: Step, f: FlightKey)
    requires Legal(w, s) && f in w.inFlight && f in Next(w, s).inFlight && f.delivery.occurrence in w.db.occurrences
    requires IsAnsweredStatus(w.db.occurrences[f.delivery.occurrence].status)
    requires w.inFlight[f].row && (w.inFlight[f].view.Seen? ==> IsClosed(w.inFlight[f].view.status))
    requires s.event.Attempt? && s.event.key.occurrence == f.delivery.occurrence
             ==> !MovesOn(w.inFlight[FlightKey(s.event.session, s.event.key)], s.event.result)
    ensures Next(w, s).inFlight[f].view.Seen? ==> IsClosed(Next(w, s).inFlight[f].view.status)
  {
    ViewStep(w, s, f);
    hide Next, Legal, MovesOn, VerdictFor;
  }

  lemma FlightReads(w: World, s: Step, f: FlightKey)
    requires Ordered(w) && Queued(Next(w, s)) && References(Next(w, s).db) && Legal(w, s) && f in Next(w, s).inFlight
    ensures HasRead(Next(w, s), f, Next(w, s).inFlight[f])
  {
    hide Next, Ordered, Queued, References, Legal, OccurrenceChange, FlightOk;
    var v, o := Next(w, s), f.delivery.occurrence;
    FlightStep(w, s, f);
    if f in w.inFlight && v.inFlight[f].row && o in v.db.occurrences && IsAnsweredStatus(v.db.occurrences[o].status) {
      HeldRow(w, f);
      LeasedIsOpen(v, f);
      EveryOccurrenceSteps(w, s, o);
      AnsweredByTap(w, s, o, w.db.occurrences[o], v.db.occurrences[o]);
      ClosingIsTerminal(w, s, f.delivery);
      AttemptFlies(w, s);
      StillRead(w, s, f);
    }
  }

  lemma HeldRow(w: World, f: FlightKey)
    requires Ordered(w) && f in w.inFlight && w.inFlight[f].row
    ensures f.delivery in w.db.deliveries && f.delivery.occurrence in w.db.occurrences
    ensures HasRead(w, f, w.inFlight[f])
    ensures Leased(w.clock, w.db.deliveries[f.delivery], w.inFlight[f])
  {
    hide RowsResolved, FlightsLive, OneFlightEach, RowsAnswer, Fits, RowsOk, OccurrencesOk, Leased, HasRead;
    assert FlightOk(w, f, w.inFlight[f]);
  }

  lemma LeasedIsOpen(w: World, f: FlightKey)
    requires Queued(w) && f in w.inFlight && w.inFlight[f].row
    ensures f.delivery in w.db.deliveries && !IsTerminal(w.db.deliveries[f.delivery].status)
  {
    hide OneFlightEach, RowsAnswer;
  }

  lemma AttemptFlies(w: World, s: Step)
    requires Legal(w, s)
    ensures s.event.Attempt? ==> FlightKey(s.event.session, s.event.key) in w.inFlight
  {
  }

  lemma LiveStep(w: World, s: Step)
    requires FlightsLive(w) && Orderly(w, s)
    ensures FlightsLive(Next(w, s))
  {
    ClockOf(w, s);
    hide Next;
    forall f | f in Next(w, s).inFlight ensures s.now <= Next(w, s).inFlight[f].until {
      FlightStep(w, s, f);
    }
  }

  lemma OrderedStep(w: World, s: Step)
    requires Ordered(w) && Legal(w, s) && Orderly(w, s)
    ensures Ordered(Next(w, s))
  {
    var v := Next(w, s);
    hide Next, Legal, Orderly, Queued, RowsResolved, Fits, RowsOk, OccurrencesOk, FlightsOk, HasRead, FlightsLive;
    StepKeepsInv(w, s);
    QueuedStep(w, s);
    RowsResolve(w, s);
    LiveStep(w, s);
    ReferencesOf(v);
    forall f | f in v.inFlight ensures HasRead(v, f, v.inFlight[f]) {
      FlightReads(w, s, f);
    }
  }

  lemma ReferencesOf(w: World)
    requires Inv(w)
    ensures References(w.db)
  {
    hide References, RowsOk, OccurrencesOk, FlightsOk, Covered, Budgeted;
  }

  lemma EmptyIsOrdered(w: World)
    requires IsEmpty(w)
    ensures Ordered(w)
  {
    EmptyIsOk(w);
    EmptyIsQueued(w);
    hide Inv, Queued;
  }

  lemma {:induction false} AlwaysOrdered(ws: seq<World>, steps: seq<Step>, i: nat)
    requires IsOrderlyRun(ws, steps) && Ordered(ws[0]) && i < |ws|
    ensures Ordered(ws[i])
  {
    hide Ordered, Legal, Orderly, Next;
    if i > 0 {
      AlwaysOrdered(ws, steps, i - 1);
      OrderedStep(ws[i - 1], steps[i - 1]);
      assert ws[i - 1 + 1] == Next(ws[i - 1], steps[i - 1]);
    }
  }

  lemma OrderedReach(w: World, v: World)
    requires ReachesOrderly(w, v) && Ordered(w)
    ensures Ordered(v)
  {
    hide Ordered, Legal, Next, Orderly;
    var ws, steps :| IsOrderlyRun(ws, steps) && ws[0] == w && ws[|ws| - 1] == v;
    AlwaysOrdered(ws, steps, |steps|);
  }

  /** Some orderly run from empty tables leads here. */
  ghost predicate ComesInOrder(w: World) {
    exists e :: IsEmpty(e) && ReachesOrderly(e, w)
  }

  lemma InOrderIsOrdered(w: World)
    requires ComesInOrder(w)
    ensures Ordered(w)
  {
    hide Ordered, IsEmpty, ReachesOrderly;
    var e :| IsEmpty(e) && ReachesOrderly(e, w);
    EmptyIsOrdered(e);
    OrderedReach(e, w);
  }

  // ---------------------------------------------------------------------------------------------
  // Answers
  // ---------------------------------------------------------------------------------------------

  lemma OrderedRow(w: World, k: DeliveryKey)
    requires Ordered(w) && k in w.db.deliveries
    ensures k.occurrence in w.db.occurrences && k.occurrence.reminder in w.db.reminders
    ensures Answers(w.db.deliveries[k]) && Resolved(w.clock, w.db.deliveries[k], w.db.occurrences[k.occurrence])
    ensures OccurrenceOk(w.clock, w.db.occurrences[k.occurrence], w.db.reminders[k.occurrence.reminder].maxRepeats)
  {
    hide Answers, Resolved, OccurrenceOk, RowOk, References, Covered, Budgeted, FlightsOk, FlightsLeased,
         OneFlightEach, FlightsRead, FlightsLive;
  }

  lemma OrderedFromEmpty(ws: seq<World>, steps: seq<Step>, i: nat)
    requires IsOrderlyRun(ws, steps) && IsEmpty(ws[0]) && i < |ws|
    ensures Ordered(ws[i])
  {
    hide Ordered, IsOrderlyRun, IsEmpty;
    EmptyIsOrdered(ws[0]);
    AlwaysOrdered(ws, steps, i);
  }

  /** In every orderly run a delivery is answered at most once, and its status says how: `done` and
      `skipped` are exactly the deliveries with that answer in their journal. Silence is recorded only
      on a message nobody answered, after its lifetime. */
  lemma OneOutcome(ws: seq<World>, steps: seq<Step>, i: nat, k: DeliveryKey)
    requires IsOrderlyRun(ws, steps) && IsEmpty(ws[0]) && i < |ws| && k in ws[i].db.deliveries
    ensures k.occurrence in ws[i].db.occurrences
    ensures var d, o := ws[i].db.deliveries[k], ws[i].db.occurrences[k.occurrence];
      && CountOf(d.actions, DoneAction) + CountOf(d.actions, SkipAction) <= 1
      && (d.status == Done <==> CountOf(d.actions, DoneAction) == 1)
      && (d.status == Skipped <==> CountOf(d.actions, SkipAction) == 1)
      && (Silences(d) > 0 ==> d.status == Sent && o.expiresAt < ws[i].clock)
  {
    hide CountOf, IsOrderlyRun, IsEmpty, Ordered, Silences;
    OrderedFromEmpty(ws, steps, i);
    OrderedRow(ws[i], k);
  }

  /** An answer, or recorded silence. */
  predicate HasOutcome(d: Delivery) {
    CountOf(d.actions, DoneAction) + CountOf(d.actions, SkipAction) + Silences(d) > 0
  }

  /** The same row with nothing but further silences in its journal. */
  predicate OnlySilenced(d: Delivery, e: Delivery) {
    && e == d.(actions := e.actions) && d.actions <= e.actions
    && CountOf(e.actions, DoneAction) == CountOf(d.actions, DoneAction)
    && CountOf(e.actions, SkipAction) == CountOf(d.actions, SkipAction)
    && Silences(d) <= Silences(e)
    && (d.status != Sent ==> e == d)
  }

  lemma OneSilenceMore(d: Delivery, e: Delivery, now: int)
    requires e == d || (d.status == Sent && e == d.(actions := d.actions + [Action(AutoExpireAction, now)]))
    ensures OnlySilenced(d, e)
  {
    CountAppend(d.actions, Action(AutoExpireAction, now), DoneAction);
    CountAppend(d.actions, Action(AutoExpireAction, now), SkipAction);
    CountAppend(d.actions, Action(AutoExpireAction, now), AutoExpireAction);
    hide CountOf;
  }

  lemma SilencedTwice(d: Delivery, e: Delivery, f: Delivery)
    requires OnlySilenced(d, e) && OnlySilenced(e, f)
    ensures OnlySilenced(d, f)
  {
    hide Silences, CountOf;
  }

  /** A row that nobody holds, can answer or repeat. */
  ghost predicate IsOver(w: World, k: DeliveryKey) {
    && k in w.db.deliveries && k.occurrence in w.db.occurrences && !Flying(w, k)
    && var d, o := w.db.deliveries[k], w.db.occurrences[k.occurrence];
       IsTerminal(d.status) || (d.status == Sent && o.expiresAt < w.clock)
  }

  lemma OverRow(w: World, s: Step, k: DeliveryKey, e: Delivery)
    requires IsOver(w, k) && Legal(w, s) && RowChange(w, s, k, w.db.deliveries[k], e)
    ensures e == w.db.deliveries[k]
            || (s.event.Reap? && k.occurrence in s.event.overdue && w.db.deliveries[k].status == Sent
                && e == w.db.deliveries[k].(actions := w.db.deliveries[k].actions + [Action(AutoExpireAction, s.now)]))
  {
    var d := w.db.deliveries[k];
    if s.event.Reap? {
      hide Reaped;
      ReapedBy(d, e, k.occurrence in s.event.overdue, ExpiresAt(w.db, k, s.now), s.now);
    } else if s.event.Attempt? {
      hide SettledRow;
      if FlightKey(s.event.session,
                   s.event.key) in w.inFlight { FlyingOrNot(w, FlightKey(s.event.session, s.event.key)); }
    } else {
      hide DecideReaction, Answered, ReactRow;
    }
  }

  lemma FlyingOrNot(w: World, f: FlightKey)
    requires f in w.inFlight
    ensures w.inFlight[f].row ==> Flying(w, f.delivery)
  {
    if w.inFlight[f].row { FlyingIs(w, f); }
  }

  lemma StaysGrounded(w: World, s: Step, k: DeliveryKey)
    requires IsOver(w, k) && Legal(w, s)
    ensures !Flying(Next(w, s), k)
  {
    hide Effect, Refreshed, ViewOf;
    if session :| FlightKey(session, k) in Next(w, s).inFlight && Next(w, s).inFlight[FlightKey(session, k)].row {
      FlightStep(w, s, FlightKey(session, k));
    }
  }

  lemma OverStep(w: World, s: Step, k: DeliveryKey)
    requires IsOver(w, k) && Legal(w, s) && References(Next(w, s).db)
    ensures IsOver(Next(w, s), k) && OnlySilenced(w.db.deliveries[k], Next(w, s).db.deliveries[k])
    ensures Next(w, s).db.deliveries[k] == w.db.deliveries[k] || (s.event.Reap? && k.occurrence in s.event.overdue)
  {
    var v := Next(w, s);
    EveryRowSteps(w, s, k);
    StaysGrounded(w, s, k);
    ClockOf(w, s);
    hide Next, RowChange, OnlySilenced, Flying;
    if k in v.db.deliveries {
      OverRow(w, s, k, v.db.deliveries[k]);
      OneSilenceMore(w.db.deliveries[k], v.db.deliveries[k], s.now);
      OccurrenceKeeps(w, s, k.occurrence);
    }
    hide References;
  }

  lemma {:induction false} OverRun(ws: seq<World>, steps: seq<Step>, j: nat, k: DeliveryKey)
    requires IsRun(ws, steps) && Inv(ws[0]) && j < |ws| && IsOver(ws[0], k)
    ensures IsOver(ws[j], k) && OnlySilenced(ws[0].db.deliveries[k], ws[j].db.deliveries[k])
  {
    hide Legal, Next, Inv, IsOver, OnlySilenced;
    OverIs(ws[0], k);
    if j == 0 {
      OneSilenceMore(ws[0].db.deliveries[k], ws[0].db.deliveries[k], 0);
    } else {
      OverRun(ws, steps, j - 1, k);
      assert ws[j - 1 + 1] == Next(ws[j - 1], steps[j - 1]);
      RunKeepsInv(ws, steps, j);
      ReferencesOf(ws[j]);
      OverIs(ws[j - 1], k);
      OverStep(ws[j - 1], steps[j - 1], k);
      OverIs(ws[j], k);
      SilencedTwice(ws[0].db.deliveries[k], ws[j - 1].db.deliveries[k], ws[j].db.deliveries[k]);
    }
  }

  lemma OverIs(w: World, k: DeliveryKey)
    requires IsOver(w, k)
    ensures k in w.db.deliveries && k.occurrence in w.db.occurrences
  {
  }

  lemma OutcomeIsOver(w: World, k: DeliveryKey)
    requires Ordered(w) && k in w.db.deliveries && HasOutcome(w.db.deliveries[k])
    ensures IsOver(w, k)
  {
    hide CountOf, Silences, Ordered;
    OrderedRow(w, k);
    if session :| FlightKey(session, k) in w.inFlight && w.inFlight[FlightKey(session, k)].row {
      HeldRow(w, FlightKey(session, k));
    }
  }

  /** An outcome is final: after any orderly run, whatever the program does next and in whatever time,
      the row that carries one is never removed and never changes, but for further silences. */
  lemma OutcomesAreFinal(ws: seq<World>, steps: seq<Step>, i: nat, k: DeliveryKey)
    requires IsOrderlyRun(ws, steps) && IsEmpty(ws[0]) && i < |ws|
    requires k in ws[i].db.deliveries && HasOutcome(ws[i].db.deliveries[k])
    ensures forall v :: Reaches(ws[i], v) ==>
              k in v.db.deliveries && OnlySilenced(ws[i].db.deliveries[k], v.db.deliveries[k])
  {
    hide IsOrderlyRun, IsEmpty, Ordered, HasOutcome, IsOver, OnlySilenced, Inv;
    OrderedFromEmpty(ws, steps, i);
    OutcomeIsOver(ws[i], k);
    InvOf(ws[i]);
    forall v | Reaches(ws[i], v)
      ensures k in v.db.deliveries && OnlySilenced(ws[i].db.deliveries[k], v.db.deliveries[k])
    {
      OverReach(ws[i], v, k);
    }
  }

  lemma InvOf(w: World)
    requires Ordered(w)
    ensures Inv(w)
  {
    hide Inv, Queued, RowsResolved, FlightsRead, FlightsLive;
  }

  lemma OverReach(w: World, v: World, k: DeliveryKey)
    requires Reaches(w, v) && Inv(w) && IsOver(w, k)
    ensures k in w.db.deliveries && k in v.db.deliveries
    ensures IsOver(v, k) && OnlySilenced(w.db.deliveries[k], v.db.deliveries[k])
  {
    hide Legal, Next, Inv, IsOver, OnlySilenced;
    var ws, steps :| IsRun(ws, steps) && ws[0] == w && ws[|ws| - 1] == v;
    OverIs(w, k);
    OverRun(ws, steps, |steps|, k);
    OverIs(v, k);
  }

  /** Under an answered occurrence a delivery is settled or was queued by a later plan, and one that
      was queued can only be dropped or given up. */
  lemma WaitingUnderClosed(ws: seq<World>, steps: seq<Step>, i: nat, k: DeliveryKey)
    requires IsOrderlyRun(ws, steps) && IsEmpty(ws[0]) && i < |steps| && k in ws[i].db.deliveries
    requires k.occurrence in ws[i].db.occurrences && IsAnsweredStatus(ws[i].db.occurrences[k.occurrence].status)
    ensures IsTerminal(ws[i].db.deliveries[k].status) || ws[i].db.deliveries[k].status == Pending
    ensures k in ws[i + 1].db.deliveries ==>
      ws[i + 1].db.deliveries[k].status in {ws[i].db.deliveries[k].status, Failed, Blocked}
  {
    OrderedFromEmpty(ws, steps, i);
    assert Legal(ws[i], steps[i]) && ws[i + 1] == Next(ws[i], steps[i]) by { StepOf(ws, steps, i); }
    hide IsEmpty, Next, RowChange, IsOrderlyRun, Ordered, Legal;
    OrderedRow(ws[i], k);
    EveryRowSteps(ws[i], steps[i], k);
    if k in ws[i + 1].db.deliveries {
      ClosedRow(ws[i], steps[i], k, ws[i + 1].db.deliveries[k]);
    }
  }

  lemma StepOf(ws: seq<World>, steps: seq<Step>, i: nat)
    requires IsOrderlyRun(ws, steps) && i < |steps|
    ensures |ws| == |steps| + 1
    ensures Legal(ws[i], steps[i]) && Orderly(ws[i], steps[i]) && ws[i + 1] == Next(ws[i], steps[i])
  {
    hide Next, Legal, Orderly;
  }

  lemma ClosedRow(w: World, s: Step, k: DeliveryKey, e: Delivery)
    requires Ordered(w) && Legal(w, s) && k in w.db.deliveries && k.occurrence in w.db.occurrences
    requires IsAnsweredStatus(w.db.occurrences[k.occurrence].status)
    requires IsTerminal(w.db.deliveries[k].status) || w.db.deliveries[k].status == Pending
    requires RowChange(w, s, k, w.db.deliveries[k], e)
    ensures e.status in {w.db.deliveries[k].status, Failed, Blocked}
  {
    hide DecideReaction, DecideFailure, Answered, Ordered, Reaped;
    var d := w.db.deliveries[k];
    if s.event.Attempt? && s.event.key == k {
      var own := FlightKey(s.event.session, k);
      if w.inFlight[own].row { HeldRow(w, own); }
    } else if s.event.Reap? {
      ReapedBy(d, e, k.occurrence in s.event.overdue, ExpiresAt(w.db, k, s.now), s.now);
    }
  }

  // ---------------------------------------------------------------------------------------------
  // Silence
  // ---------------------------------------------------------------------------------------------

  /** The session can still write to the row or to the occurrence that the message went out. */
  predicate CanStillSend(flight: Flight) {
    AbortFor(flight.view).None? && (flight.row || MovesOn(flight, Accepted))
  }

  ghost predicate IsHeldOpen(w: World, o: OccurrenceKey) {
    exists f :: f in w.inFlight && f.delivery.occurrence == o && CanStillSend(w.inFlight[f])
  }

  predicate IsSilenced(d: Delivery) {
    Silences(d) == if d.status == Sent then 1 else 0
  }

  /** The occurrence is expired, and the journal has one silence for each message nobody answered. */
  ghost predicate IsRecorded(w: World, o: OccurrenceKey) {
    && o in w.db.occurrences && w.db.occurrences[o].status == OccExpired
    && forall k :: k in w.db.deliveries && k.occurrence == o ==> IsSilenced(w.db.deliveries[k])
  }

  /** And nothing is on its way that could change that. */
  ghost predicate IsQuietAbout(w: World, o: OccurrenceKey) {
    && IsRecorded(w, o) && w.db.occurrences[o].expiresAt < w.clock && !IsHeldOpen(w, o)
    && forall k :: k in w.db.deliveries && k.occurrence == o && w.db.deliveries[k].status == Sent ==> !Flying(w, k)
  }

  lemma NothingOpens(w: World, s: Step, o: OccurrenceKey, f: FlightKey)
    requires Legal(w, s) && IsClosedIn(w, o) && !IsHeldOpen(w, o) && f in Next(w, s).inFlight
    requires f.delivery.occurrence == o
    ensures !CanStillSend(Next(w, s).inFlight[f])
  {
    FlightStep(w, s, f);
    HeldOrNot(w, s, o);
    hide Next, MovesOn, AbortFor, Legal;
    if f in w.inFlight {
      assert !CanStillSend(w.inFlight[f]);
      ViewAborts(w, s, f, o);
      MovesWhenOpen(Next(w, s).inFlight[f]);
    } else {
      UnreadAborts(Next(w, s).inFlight[f]);
    }
  }

  lemma MovesWhenOpen(flight: Flight)
    ensures MovesOn(flight, Accepted) ==> AbortFor(flight.view).None?
  {
  }

  lemma HeldOrNot(w: World, s: Step, o: OccurrenceKey)
    requires Legal(w, s) && !IsHeldOpen(w, o)
    ensures s.event.Attempt? && s.event.key.occurrence == o ==>
      var own := FlightKey(s.event.session, s.event.key);
      own in w.inFlight && !MovesOn(w.inFlight[own], s.event.result)
        && !(w.inFlight[own].row && GoesOut(w.inFlight[own], s.event.result))
  {
    if s.event.Attempt? && s.event.key.occurrence == o {
      assert FlightKey(s.event.session, s.event.key).delivery == s.event.key;
    }
  }

  lemma HeldIsBelieved(w: World, o: OccurrenceKey)
    requires !IsHeldOpen(w, o)
    ensures !IsBelievedUnsent(w, o)
  {
    forall f | f in w.inFlight && f.delivery.occurrence == o ensures !MovesOn(w.inFlight[f], Accepted) {
      MovesWhenOpen(w.inFlight[f]);
    }
  }

  lemma SilencedRow(w: World, s: Step, k: DeliveryKey, e: Delivery)
    requires IsQuietAbout(w, k.occurrence) && Legal(w, s) && k in w.db.deliveries
    requires RowChange(w, s, k, w.db.deliveries[k], e)
    ensures IsSilenced(e) && (e.status == Sent ==> w.db.deliveries[k].status == Sent)
  {
    hide CountOf, Reaped, IsHeldOpen, Flying;
    var d, o := w.db.deliveries[k], k.occurrence;
    SameSilences(d, e);
    if s.event.Attempt? {
      HeldOrNot(w, s, o);
      if s.event.key == k {
        var own := FlightKey(s.event.session, k);
        FlyingOrNot(w, own);
        SettledKeeps(d, w.inFlight[own], s.now, s.event.result);
      }
    } else if s.event.Reap? {
      ReapedBy(d, e, o in s.event.overdue, ExpiresAt(w.db, k, s.now), s.now);
    } else if s.event.Tap? {
      hide DecideReaction, Answered;
    }
  }

  lemma SettledKeeps(d: Delivery, f: Flight, now: int, result: SendResult)
    ensures var e := SettledRow(d, f, now, result);
      e.actions == d.actions && (e.status == Sent <==> GoesOut(f, result))
  {
  }

  lemma QuietRow(w: World, s: Step, k: DeliveryKey)
    requires IsQuietAbout(w, k.occurrence) && Legal(w, s) && References(w.db) && References(Next(w, s).db)
    requires k in Next(w, s).db.deliveries
    ensures IsSilenced(Next(w, s).db.deliveries[k])
    ensures Next(w, s).db.deliveries[k].status == Sent ==> !Flying(Next(w, s), k)
  {
    EveryRowSteps(w, s, k);
    hide Next, RowChange, Flying, Legal;
    if k in w.db.deliveries {
      SilencedRow(w, s, k, Next(w, s).db.deliveries[k]);
      if w.db.deliveries[k].status == Sent { StaysGrounded(w, s, k); }
    } else {
      FreshIsSilenced(Next(w, s).db.occurrences[k.occurrence].fireAt);
    }
  }

  lemma FreshIsSilenced(fireAt: int)
    ensures IsSilenced(FreshDelivery(fireAt)) && FreshDelivery(fireAt).status == Pending
  {
  }

  lemma QuietStep(w: World, s: Step, o: OccurrenceKey)
    requires IsQuietAbout(w, o) && Legal(w, s) && References(w.db) && References(Next(w, s).db)
    ensures IsQuietAbout(Next(w, s), o)
  {
    var v := Next(w, s);
    HeldIsBelieved(w, o);
    BelievedStep(w, s, o);
    OccurrenceKeeps(w, s, o);
    ClockOf(w, s);
    assert w.clock <= s.now;
    hide Next, Legal, Flying, CanStillSend, IsSilenced, References;
    forall k | k in v.db.deliveries && k.occurrence == o
      ensures IsSilenced(v.db.deliveries[k]) && (v.db.deliveries[k].status == Sent ==> !Flying(v, k))
    {
      QuietRow(w, s, k);
    }
    forall f | f in v.inFlight && f.delivery.occurrence == o ensures !CanStillSend(v.inFlight[f]) {
      NothingOpens(w, s, o, f);
    }
  }

  lemma {:induction false} QuietRun(ws: seq<World>, steps: seq<Step>, j: nat, o: OccurrenceKey)
    requires IsRun(ws, steps) && Inv(ws[0]) && j < |ws| && IsQuietAbout(ws[0], o)
    ensures IsQuietAbout(ws[j], o)
  {
    hide Legal, Next, Inv, IsQuietAbout;
    if j > 0 {
      QuietRun(ws, steps, j - 1, o);
      assert ws[j - 1 + 1] == Next(ws[j - 1], steps[j - 1]);
      RunKeepsInv(ws, steps, j - 1);
      RunKeepsInv(ws, steps, j);
      ReferencesOf(ws[j - 1]);
      ReferencesOf(ws[j]);
      QuietStep(ws[j - 1], steps[j - 1], o);
    }
  }

  lemma SentIsGrounded(w: World, k: DeliveryKey)
    requires Ordered(w) && k in w.db.deliveries && w.db.deliveries[k].status == Sent
    ensures !Flying(w, k)
  {
    hide Ordered;
    if session :| FlightKey(session, k) in w.inFlight && w.inFlight[FlightKey(session, k)].row {
      HeldRow(w, FlightKey(session, k));
    }
  }

  lemma RecordedIsQuiet(w: World, o: OccurrenceKey)
    requires Ordered(w) && IsRecorded(w, o) && !IsHeldOpen(w, o)
    ensures IsQuietAbout(w, o)
  {
    hide Ordered, IsSilenced, Flying, IsHeldOpen;
    ExpiredIsPast(w, o);
    forall k | k in w.db.deliveries && k.occurrence == o && w.db.deliveries[k].status == Sent ensures !Flying(w, k) {
      SentIsGrounded(w, k);
    }
  }

  lemma ExpiredIsPast(w: World, o: OccurrenceKey)
    requires Ordered(w) && o in w.db.occurrences && w.db.occurrences[o].status == OccExpired
    ensures w.db.occurrences[o].expiresAt < w.clock
  {
    hide Queued, RowsResolved, FlightsRead, FlightsLive, Fits, RowsOk, FlightsOk;
    assert OccurrenceOk(w.clock, w.db.occurrences[o], w.db.reminders[o.reminder].maxRepeats);
  }

  /** The session that holds the occurrence open sends, and no silence is recorded any more. */
  lemma HolderSpoils(w: World, f: FlightKey) returns (s: Step)
    requires Ordered(w) && f in w.inFlight && CanStillSend(w.inFlight[f]) && IsRecorded(w, f.delivery.occurrence)
    ensures Legal(w, s) && Orderly(w, s) && !IsRecorded(Next(w, s), f.delivery.occurrence)
  {
    s := BelieverSends(w, f);
    LiveIsOrderly(w, s);
    hide Next, Ordered, Legal, Orderly, MovesOn, IsSilenced;
    var o := f.delivery.occurrence;
    if MovesOn(w.inFlight[f], Accepted) {
      Reopens(w, s, o);
    } else {
      HeldRow(w, f);
      HolderWrites(w, s, f);
    }
  }

  lemma LiveIsOrderly(w: World, s: Step)
    requires Ordered(w) && s.now == w.clock && !s.event.Tap?
    ensures Orderly(w, s)
  {
    hide Inv, Queued, RowsResolved, FlightsRead;
  }

  lemma HolderWrites(w: World, s: Step, f: FlightKey)
    requires Legal(w, s) && s.event == Attempt(f.session, f.delivery, Accepted)
    requires f in w.inFlight && w.inFlight[f].row && AbortFor(w.inFlight[f].view).None?
    requires f.delivery in w.db.deliveries && IsQueued(w.db.deliveries[f.delivery])
    requires IsSilenced(w.db.deliveries[f.delivery])
    ensures f.delivery in Next(w, s).db.deliveries && !IsSilenced(Next(w, s).db.deliveries[f.delivery])
  {
    EveryRowSteps(w, s, f.delivery);
    hide Next, CountOf, AbortFor, VerdictFor;
    SettledKeeps(w.db.deliveries[f.delivery], w.inFlight[f], s.now, Accepted);
    SameSilences(w.db.deliveries[f.delivery], SettledRow(w.db.deliveries[f.delivery], w.inFlight[f], s.now, Accepted));
  }

  lemma QuietReach(w: World, v: World, o: OccurrenceKey)
    requires Reaches(w, v) && Inv(w) && IsQuietAbout(w, o)
    ensures IsRecorded(v, o)
  {
    hide Legal, Next, Inv;
    var ws, steps :| IsRun(ws, steps) && ws[0] == w && ws[|ws| - 1] == v;
    hide IsRecorded, IsHeldOpen, Flying;
    QuietRun(ws, steps, |steps|, o);
  }

  /** Whatever the program does from here on, the journal keeps one silence for each unanswered message
      of the occurrence. */
  ghost predicate StaysRecorded(w: World, o: OccurrenceKey) {
    forall v :: Reaches(w, v) ==> IsRecorded(v, o)
  }

  ghost predicate StaysRecordedInOrder(w: World, o: OccurrenceKey) {
    forall v :: ReachesOrderly(w, v) ==> IsRecorded(v, o)
  }

  lemma RecordedUnlessHeld(w: World, o: OccurrenceKey)
    requires Ordered(w) && IsRecorded(w, o)
    ensures StaysRecorded(w, o) <==> !IsHeldOpen(w, o)
    ensures StaysRecordedInOrder(w, o) <==> !IsHeldOpen(w, o)
  {
    hide Ordered, IsRecorded, IsQuietAbout, Legal, Next, Orderly, Reaches, ReachesOrderly, CanStillSend;
    if f :| f in w.inFlight && f.delivery.occurrence == o && CanStillSend(w.inFlight[f]) {
      var s := HolderSpoils(w, f);
      OrderlyItself(w);
      OrderlyNext(w, w, s);
      OrderlyIsRun(w, Next(w, s));
    } else {
      RecordedIsQuiet(w, o);
      InvOf(w);
      forall v | Reaches(w, v) ensures IsRecorded(v, o) {
        QuietReach(w, v, o);
      }
      forall v | ReachesOrderly(w, v) ensures IsRecorded(v, o) {
        OrderlyIsRun(w, v);
      }
    }
  }

  /** After any orderly run, silence that is recorded stays recorded exactly when no session can still
      send under what it has read. Where one can, an orderly continuation is enough to spoil it. */
  lemma RecordedExactly(w: World, o: OccurrenceKey)
    requires ComesInOrder(w) && IsRecorded(w, o)
    ensures StaysRecorded(w, o) <==> !IsHeldOpen(w, o)
    ensures StaysRecordedInOrder(w, o) <==> !IsHeldOpen(w, o)
  {
    hide *;
    InOrderIsOrdered(w);
    RecordedUnlessHeld(w, o);
  }

  // ---------------------------------------------------------------------------------------------
  // Silence over a whole run
  // ---------------------------------------------------------------------------------------------

  predicate Expires(s: Step, o: OccurrenceKey) {
    s.event.Reap? && o in s.event.overdue
  }

  /** Nothing recorded before the occurrence expires, and everything from then on. */
  ghost predicate IsClean(w: World, o: OccurrenceKey) {
    o in w.db.occurrences ==>
      if w.db.occurrences[o].status == OccExpired then IsQuietAbout(w, o)
      else forall k :: k in w.db.deliveries && k.occurrence == o ==> Silences(w.db.deliveries[k]) == 0
  }

  lemma SilencesStay(w: World, s: Step, k: DeliveryKey, e: Delivery)
    requires Legal(w, s) && k in w.db.deliveries && RowChange(w, s, k, w.db.deliveries[k], e)
    requires !Expires(s, k.occurrence)
    ensures Silences(e) == Silences(w.db.deliveries[k])
  {
    hide CountOf, Reaped, SettledRow, Silences;
    var d := w.db.deliveries[k];
    SameSilences(d, e);
    if s.event.Tap? {
      hide RowChange;
      TapKeepsSilences(w, s, k, e);
    } else if s.event.Attempt? {
      var own := FlightKey(s.event.session, s.event.key);
      if own in w.inFlight { SettledKeeps(d, w.inFlight[own], s.now, s.event.result); }
    } else if s.event.Reap? {
      ReapedBy(d, e, false, ExpiresAt(w.db, k, s.now), s.now);
    }
  }

  lemma ExpiredRow(w: World, s: Step, k: DeliveryKey, e: Delivery)
    requires k in w.db.deliveries && RowChange(w, s, k, w.db.deliveries[k], e) && Expires(s, k.occurrence)
    requires Silences(w.db.deliveries[k]) == 0
    ensures IsSilenced(e)
  {
    hide Reaped, Silences;
    var d := w.db.deliveries[k];
    ReapedBy(d, e, true, ExpiresAt(w.db, k, s.now), s.now);
    SilencesAppend(d, Action(AutoExpireAction, s.now));
    SameSilences(d, e);
  }

  /** A sweep leaves the sessions as they are. */
  lemma SweepKeepsFlights(w: World, s: Step, f: FlightKey)
    requires Inv(w) && s.event.Reap?
    ensures f in Next(w, s).inFlight <==> f in w.inFlight
    ensures f in w.inFlight ==> Next(w, s).inFlight[f] == w.inFlight[f]
  {
    hide Sweep, Fits, RowsOk, OccurrencesOk;
    NextParts(w, s);
    SweepKeys(w.db, s.event.overdue, s.event.candidates, s.now);
    hide Next;
    assert f in Next(w, s).inFlight <==> f in Flights(w, s.now, s.event).Keys;
    if f in w.inFlight {
      assert FlightOk(w, f, w.inFlight[f]);
      assert f.delivery in w.db.deliveries <==> f.delivery in Next(w, s).db.deliveries.Keys;
      assert f.delivery.occurrence in w.db.occurrences <==> f.delivery.occurrence in Next(w, s).db.occurrences.Keys;
    }
  }

  lemma SweepKeepsHeld(w: World, s: Step, o: OccurrenceKey)
    requires Inv(w) && s.event.Reap?
    ensures IsHeldOpen(Next(w, s), o) <==> IsHeldOpen(w, o)
  {
    hide Inv, Next, CanStillSend;
    forall f
      ensures f in Next(w, s).inFlight <==> f in w.inFlight
      ensures f in w.inFlight ==> Next(w, s).inFlight[f] == w.inFlight[f]
    {
      SweepKeepsFlights(w, s, f);
    }
  }

  /** A sweep that expires an occurrence closes it. */
  lemma ExpiringCloses(w: World, s: Step, o: OccurrenceKey)
    requires Legal(w, s) && Expires(s, o)
    ensures o in w.db.occurrences && !IsClosed(w.db.occurrences[o].status)
    ensures o in Next(w, s).db.occurrences && Next(w, s).db.occurrences[o].status == OccExpired
  {
    hide Next;
    EveryOccurrenceSteps(w, s, o);
    ExpiringKeeps(w, s, o);
  }

  /** And records its silence. */
  lemma ExpiringRecords(w: World, s: Step, o: OccurrenceKey)
    requires Ordered(w) && Legal(w, s) && Expires(s, o) && IsClean(w, o)
    ensures IsRecorded(Next(w, s), o)
  {
    hide Next, RowChange, Legal, IsSilenced, Silences, Ordered, IsQuietAbout;
    var v := Next(w, s);
    ExpiringCloses(w, s, o);
    forall k | k in v.db.deliveries && k.occurrence == o ensures IsSilenced(v.db.deliveries[k]) {
      EveryRowSteps(w, s, k);
      if k in w.db.deliveries {
        ExpiredRow(w, s, k, v.db.deliveries[k]);
      } else {
        FreshIsSilenced(v.db.occurrences[k.occurrence].fireAt);
      }
    }
  }

  lemma ExpiringKeeps(w: World, s: Step, o: OccurrenceKey)
    requires s.event.Reap? && o in w.db.occurrences
    ensures o in Next(w, s).db.occurrences
  {
    hide Sweep, Flights;
    SweepKeys(w.db, s.event.overdue, s.event.candidates, s.now);
    assert o in Next(w, s).db.occurrences.Keys;
  }

  lemma CleanRows(w: World, s: Step, k: DeliveryKey)
    requires Ordered(w) && Legal(w, s) && IsClean(w, k.occurrence) && !Expires(s, k.occurrence)
    requires k in Next(w, s).db.deliveries
             && (k.occurrence in w.db.occurrences ==> w.db.occurrences[k.occurrence].status != OccExpired)
    ensures Silences(Next(w, s).db.deliveries[k]) == 0
  {
    EveryRowSteps(w, s, k);
    hide Next, RowChange, Legal, Silences, Ordered;
    if k in w.db.deliveries {
      OrderedRow(w, k);
      SilencesStay(w, s, k, Next(w, s).db.deliveries[k]);
    } else {
      FreshIsUnsilenced(Next(w, s).db.occurrences[k.occurrence].fireAt);
    }
  }

  lemma FreshIsUnsilenced(fireAt: int)
    ensures Silences(FreshDelivery(fireAt)) == 0
  {
  }

  lemma StaysUnexpired(w: World, s: Step, o: OccurrenceKey)
    requires Legal(w, s) && !Expires(s, o) && (o in w.db.occurrences ==> w.db.occurrences[o].status != OccExpired)
    ensures o in Next(w, s).db.occurrences ==> Next(w, s).db.occurrences[o].status != OccExpired
  {
    EveryOccurrenceSteps(w, s, o);
    hide Next, MovesOn, React, AllTerminal;
  }

  lemma CleanStep(w: World, s: Step, o: OccurrenceKey)
    requires Ordered(w) && Ordered(Next(w, s)) && Legal(w, s) && IsClean(w, o)
    requires Expires(s, o) ==> !IsHeldOpen(w, o)
    ensures IsClean(Next(w, s), o)
  {
    var v := Next(w, s);
    hide Next, Legal, Ordered, IsQuietAbout, Silences, IsHeldOpen, IsRecorded;
    InvOf(w);
    InvOf(v);
    if Expires(s, o) {
      ExpiringRecords(w, s, o);
      SweepKeepsHeld(w, s, o);
      RecordedIsQuiet(v, o);
      RecordedIs(v, o);
    } else if o in w.db.occurrences && w.db.occurrences[o].status == OccExpired {
      ReferencesOf(w);
      ReferencesOf(v);
      QuietStep(w, s, o);
      QuietIs(v, o);
    } else {
      StaysUnexpired(w, s, o);
      forall k | k in v.db.deliveries && k.occurrence == o ensures Silences(v.db.deliveries[k]) == 0 {
        CleanRows(w, s, k);
      }
    }
  }

  lemma RecordedIs(w: World, o: OccurrenceKey)
    requires IsRecorded(w, o)
    ensures o in w.db.occurrences && w.db.occurrences[o].status == OccExpired
  {
  }

  lemma QuietIs(w: World, o: OccurrenceKey)
    requires IsQuietAbout(w, o)
    ensures IsRecorded(w, o) && o in w.db.occurrences && w.db.occurrences[o].status == OccExpired
  {
  }

  lemma EmptyIsClean(w: World, o: OccurrenceKey)
    requires IsEmpty(w)
    ensures IsClean(w, o)
  {
  }

  /** No sweep so far has expired the occurrence while a session held it open. */
  ghost predicate ExpiresUnheld(ws: seq<World>, steps: seq<Step>, i: nat, o: OccurrenceKey)
    requires IsRun(ws, steps) && i < |ws|
  {
    forall m :: 0 <= m < i && Expires(steps[m], o) ==> !IsHeldOpen(ws[m], o)
  }

  lemma {:induction false} CleanRun(ws: seq<World>, steps: seq<Step>, i: nat, o: OccurrenceKey)
    requires IsOrderlyRun(ws, steps) && IsEmpty(ws[0]) && i < |ws| && ExpiresUnheld(ws, steps, i, o)
    ensures IsClean(ws[i], o)
  {
    hide IsEmpty, IsClean, Ordered, Legal, Orderly, Next, IsHeldOpen;
    if i == 0 {
      EmptyIsClean(ws[0], o);
    } else {
      CleanRun(ws, steps, i - 1, o);
      OrderedFromEmpty(ws, steps, i - 1);
      OrderedFromEmpty(ws, steps, i);
      assert ws[i - 1 + 1] == Next(ws[i - 1], steps[i - 1]);
      CleanStep(ws[i - 1], steps[i - 1], o);
    }
  }

  /** In an orderly run, as long as no sweep expires an occurrence that a session holds open, its journal
      has one silence for each message left unanswered when it expired, and none before. */
  lemma SilenceIsRecorded(ws: seq<World>, steps: seq<Step>, i: nat, k: DeliveryKey)
    requires IsOrderlyRun(ws, steps) && IsEmpty(ws[0]) && i < |ws| && k in ws[i].db.deliveries
    requires ExpiresUnheld(ws, steps, i, k.occurrence)
    ensures k.occurrence in ws[i].db.occurrences
    ensures var d, o := ws[i].db.deliveries[k], ws[i].db.occurrences[k.occurrence];
      Silences(d) == if d.status == Sent && o.status == OccExpired then 1 else 0
  {
    hide IsEmpty, Ordered, IsOrderlyRun, ExpiresUnheld, CountOf, IsHeldOpen, Flying;
    CleanRun(ws, steps, i, k.occurrence);
    OrderedFromEmpty(ws, steps, i);
    OrderedRow(ws[i], k);
  }

  /** And a sweep that expires the occurrence records its silence for good exactly when no session holds
      it open. */
  lemma SweepRecordsExactly(ws: seq<World>, steps: seq<Step>, i: nat, o: OccurrenceKey)
    requires IsOrderlyRun(ws, steps) && IsEmpty(ws[0]) && i < |steps| && Expires(steps[i], o)
    requires ExpiresUnheld(ws, steps, i, o)
    ensures IsRecorded(ws[i + 1], o)
    ensures StaysRecorded(ws[i + 1], o) <==> !IsHeldOpen(ws[i], o)
    ensures StaysRecordedInOrder(ws[i + 1], o) <==> !IsHeldOpen(ws[i], o)
  {
    hide IsEmpty, Ordered, IsOrderlyRun, ExpiresUnheld, IsHeldOpen, IsClean, IsRecorded, StaysRecorded,
         StaysRecordedInOrder, Legal, Orderly, Next;
    StepOf(ws, steps, i);
    CleanRun(ws, steps, i, o);
    OrderedFromEmpty(ws, steps, i);
    OrderedFromEmpty(ws, steps, i + 1);
    ExpiringRecords(ws[i], steps[i], o);
    InvOf(ws[i]);
    SweepKeepsHeld(ws[i], steps[i], o);
    RecordedUnlessHeld(ws[i + 1], o);
  }

  // ---------------------------------------------------------------------------------------------
  // A second silence
  // ---------------------------------------------------------------------------------------------

  /** From here on no further silence is recorded for the delivery. */
  ghost predicate StaysSilenced(w: World, k: DeliveryKey)
    requires k in w.db.deliveries
  {
    forall v :: Reaches(w, v) ==> k in v.db.deliveries && Silences(v.db.deliveries[k]) == Silences(w.db.deliveries[k])
  }

  lemma {:induction false} SilencedRun(ws: seq<World>, steps: seq<Step>, j: nat, k: DeliveryKey)
    requires IsRun(ws, steps) && Inv(ws[0]) && j < |ws| && IsOver(ws[0], k)
    requires IsClosedIn(ws[0], k.occurrence) && !IsBelievedUnsent(ws[0], k.occurrence)
    ensures k in ws[0].db.deliveries && k in ws[j].db.deliveries && ws[j].db.deliveries[k] == ws[0].db.deliveries[k]
  {
    hide Legal, Next, Inv, IsOver, IsBelievedUnsent, OnlySilenced;
    OverIs(ws[0], k);
    if j > 0 {
      SilencedRun(ws, steps, j - 1, k);
      assert Legal(ws[j - 1], steps[j - 1]) && ws[j - 1 + 1] == Next(ws[j - 1], steps[j - 1]);
      ClosedRun(ws, steps, j - 1, k.occurrence);
      ClosedNotOverdue(ws[j - 1], steps[j - 1], k.occurrence);
      OverRun(ws, steps, j - 1, k);
      RunKeepsInv(ws, steps, j);
      ReferencesOf(ws[j]);
      OverStep(ws[j - 1], steps[j - 1], k);
      OverIs(ws[j], k);
    }
  }

  lemma ClosedNotOverdue(w: World, s: Step, o: OccurrenceKey)
    requires Legal(w, s) && IsClosedIn(w, o)
    ensures !Expires(s, o)
  {
  }

  lemma SilencedReach(w: World, v: World, k: DeliveryKey)
    requires Reaches(w, v) && Inv(w) && IsOver(w, k)
    requires IsClosedIn(w, k.occurrence) && !IsBelievedUnsent(w, k.occurrence)
    ensures k in w.db.deliveries && k in v.db.deliveries && v.db.deliveries[k] == w.db.deliveries[k]
  {
    hide Legal, Next, Inv, IsOver, IsBelievedUnsent;
    var ws, steps :| IsRun(ws, steps) && ws[0] == w && ws[|ws| - 1] == v;
    SilencedRun(ws, steps, |steps|, k);
  }

  /** The session that believes the occurrence unsent sends. */
  lemma SentAgain(w: World, s: Step, f: FlightKey, k: DeliveryKey)
    requires Ordered(w) && Ordered(Next(w, s)) && Legal(w, s)
    requires s == Step(w.clock, Attempt(f.session, f.delivery, Accepted))
    requires f in w.inFlight && MovesOn(w.inFlight[f], Accepted) && f.delivery.occurrence == k.occurrence
    requires k in w.db.deliveries && k.occurrence in w.db.occurrences && Silences(w.db.deliveries[k]) > 0
    ensures var v, d := Next(w, s), w.db.deliveries[k];
      && k in v.db.deliveries && v.db.deliveries[k] == d && d.status == Sent
      && k.occurrence in v.db.occurrences && v.db.occurrences[k.occurrence].status == OccSent
      && v.db.occurrences[k.occurrence].expiresAt < v.clock
  {
    hide Next, Ordered, Legal, MovesOn, Silences, IsOver, OnlySilenced, HasOutcome, Resolved, Answers, OccurrenceOk;
    var v := Next(w, s);
    OutcomeOf(w.db.deliveries[k]);
    OutcomeIsOver(w, k);
    InvOf(v);
    ReferencesOf(v);
    OverStep(w, s, k);
    OverIs(v, k);
    Reopens(w, s, k.occurrence);
    OrderedRow(v, k);
    SilencedIsPast(v.clock, v.db.deliveries[k], v.db.occurrences[k.occurrence]);
  }

  lemma SilencedIsPast(clock: int, d: Delivery, o: Occurrence)
    requires Resolved(clock, d, o) && Silences(d) > 0
    ensures d.status == Sent && o.expiresAt < clock
  {
    hide Silences;
  }

  /** And the next sweep expires it again. */
  lemma SilencedAgain(w: World, f: FlightKey, k: DeliveryKey) returns (sent: Step, sweep: Step)
    requires Ordered(w) && f in w.inFlight && MovesOn(w.inFlight[f], Accepted) && f.delivery.occurrence == k.occurrence
    requires k in w.db.deliveries && k.occurrence in w.db.occurrences && Silences(w.db.deliveries[k]) > 0
    ensures Legal(w, sent) && Orderly(w, sent) && Legal(Next(w, sent), sweep) && Orderly(Next(w, sent), sweep)
    ensures var v := Next(Next(w, sent), sweep);
      k in v.db.deliveries && Silences(v.db.deliveries[k]) == Silences(w.db.deliveries[k]) + 1
  {
    hide Next, Ordered, Legal, Orderly, MovesOn, Silences;
    MovesWhenOpen(w.inFlight[f]);
    sent := BelieverSends(w, f);
    LiveIsOrderly(w, sent);
    OrderedStep(w, sent);
    SentAgain(w, sent, f, k);
    var v := Next(w, sent);
    sweep := Step(v.clock, Reap({k.occurrence}, {}));
    SweepIsLegal(v, sweep, k.occurrence);
    LiveIsOrderly(v, sweep);
    SilencedBy(v, sweep, k);
  }

  lemma OutcomeOf(d: Delivery)
    requires Silences(d) > 0
    ensures HasOutcome(d)
  {
    hide Silences, CountOf;
  }

  lemma SweepIsLegal(w: World, s: Step, o: OccurrenceKey)
    requires s == Step(w.clock, Reap({o}, {})) && o in w.db.occurrences && !IsClosed(w.db.occurrences[o].status)
    requires w.db.occurrences[o].expiresAt < w.clock
    ensures Legal(w, s)
  {
  }

  lemma SilencedBy(w: World, s: Step, k: DeliveryKey)
    requires Legal(w, s) && Expires(s, k.occurrence) && k in w.db.deliveries && w.db.deliveries[k].status == Sent
    ensures k in Next(w, s).db.deliveries
    ensures Silences(Next(w, s).db.deliveries[k]) == Silences(w.db.deliveries[k]) + 1
  {
    EveryRowSteps(w, s, k);
    hide Next, Reaped, Silences;
    ReapedBy(w.db.deliveries[k], Next(w, s).db.deliveries[k], true, ExpiresAt(w.db, k, s.now), s.now);
    SilencesAppend(w.db.deliveries[k], Action(AutoExpireAction, s.now));
  }

  /** After any orderly run, once a silence is recorded, no other follows exactly while the occurrence is
      closed and no session believes it unsent: one that does reopens it, and the next sweep records
      everybody's silence again. */
  lemma SilencedOnceExactly(w: World, k: DeliveryKey)
    requires ComesInOrder(w) && k in w.db.deliveries && Silences(w.db.deliveries[k]) > 0
    ensures StaysSilenced(w, k) <==> IsClosedIn(w, k.occurrence) && !IsBelievedUnsent(w, k.occurrence)
  {
    hide Ordered, ComesInOrder, Legal, Next, Orderly, Reaches, MovesOn, Silences, IsOver, HasOutcome;
    InOrderIsOrdered(w);
    OrderedRow(w, k);
    if !IsClosedIn(w, k.occurrence) {
      var sweep := Step(w.clock, Reap({k.occurrence}, {}));
      SilencedIsPast(w.clock, w.db.deliveries[k], w.db.occurrences[k.occurrence]);
      SweepIsLegal(w, sweep, k.occurrence);
      SilencedBy(w, sweep, k);
      ReachesItself(w);
      ReachesNext(w, w, sweep);
    } else if f :| f in w.inFlight && f.delivery.occurrence == k.occurrence && MovesOn(w.inFlight[f], Accepted) {
      var sent, sweep := SilencedAgain(w, f, k);
      ReachesItself(w);
      ReachesNext(w, w, sent);
      ReachesNext(w, Next(w, sent), sweep);
    } else {
      hide IsBelievedUnsent;
      OutcomeOf(w.db.deliveries[k]);
      OutcomeIsOver(w, k);
      InvOf(w);
      forall v | Reaches(w, v)
        ensures k in v.db.deliveries && Silences(v.db.deliveries[k]) == Silences(w.db.deliveries[k])
      {
        SilencedReach(w, v, k);
      }
    }
  }

  // ---------------------------------------------------------------------------------------------
  // Steady runs
  // ---------------------------------------------------------------------------------------------

  /** Nothing closes behind a session's back, so no sweep finds an occurrence held open. */
  lemma SteadyIsUnheld(w: World, s: Step, o: OccurrenceKey)
    requires Inv(w) && Legal(w, s) && Steady(w, s) && Expires(s, o)
    ensures !IsHeldOpen(w, o)
  {
    hide Next, Legal, Fits, RowsOk, OccurrencesOk, CanStillSend;
    ExpiringCloses(w, s, o);
    assert Closes(w, s, o);
    hide Closes;
    forall f | f in w.inFlight && f.delivery.occurrence == o ensures !CanStillSend(w.inFlight[f]) {
      assert FlightOk(w, f, w.inFlight[f]);
      UnseenCannotSend(w.inFlight[f]);
    }
  }

  lemma UnseenCannotSend(flight: Flight)
    requires (flight.row ==> flight.occurrence) && !(flight.occurrence && flight.view.Seen?)
    ensures !CanStillSend(flight)
  {
  }

  lemma {:induction false} SteadyExpiresUnheld(ws: seq<World>, steps: seq<Step>, i: nat, o: OccurrenceKey)
    requires IsSteadyRun(ws, steps) && Inv(ws[0]) && i < |ws|
    ensures ExpiresUnheld(ws, steps, i, o)
  {
    hide Legal, Next, Orderly, Steady, IsHeldOpen, Inv, Expires;
    forall m | 0 <= m < i && Expires(steps[m], o) ensures !IsHeldOpen(ws[m], o) {
      RunKeepsInv(ws, steps, m);
      SteadyIsUnheld(ws[m], steps[m], o);
    }
  }

  /** So in every steady run each delivery carries at most one outcome, and its status says which. */
  lemma OneOutcomeInTime(ws: seq<World>, steps: seq<Step>, i: nat, k: DeliveryKey)
    requires IsSteadyRun(ws, steps) && IsEmpty(ws[0]) && i < |ws| && k in ws[i].db.deliveries
    ensures k.occurrence in ws[i].db.occurrences
    ensures var d, o := ws[i].db.deliveries[k], ws[i].db.occurrences[k.occurrence];
      && CountOf(d.actions, DoneAction) + CountOf(d.actions, SkipAction) + Silences(d) <= 1
      && (d.status == Done <==> CountOf(d.actions, DoneAction) == 1)
      && (d.status == Skipped <==> CountOf(d.actions, SkipAction) == 1)
      && (d.status == Sent && o.status == OccExpired <==> Silences(d) == 1)
  {
    hide CountOf, Silences, ExpiresUnheld, Legal, Next, Orderly, Steady;
    EmptyIsOk(ws[0]);
    hide IsEmpty, Inv;
    OneOutcome(ws, steps, i, k);
    SteadyExpiresUnheld(ws, steps, i, k.occurrence);
    SilenceIsRecorded(ws, steps, i, k);
  }
}
