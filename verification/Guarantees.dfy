/** What the program promises over every run. */
module Guarantees {
  import opened Planning
  import opened Contracts
  import opened Store
  import opened Runs
  import opened Steps
  import opened Invariants

  // ---------------------------------------------------------------------------------------------
  // Leases: what holds while workers keep theirs
  // ---------------------------------------------------------------------------------------------

  predicate IsQueued(d: Delivery) {
    d.status in {Pending, Snoozed}
  }

  /** A row in flight is queued, due, and under the lease of the one flight it has. */
  ghost predicate Leased(clock: int, d: Delivery, flight: Flight) {
    && IsQueued(d) && d.nextAttemptAt <= clock <= flight.until
    && d.lockedUntil == Some(flight.until) && d.attempts == flight.attempts
  }

  /** The status says what the recipient answered. */
  ghost predicate Answers(d: Delivery) {
    && CountOf(d.actions, DoneAction) == (if d.status == Done then 1 else 0)
    && CountOf(d.actions, SkipAction) == (if d.status == Skipped then 1 else 0)
  }

  ghost predicate FlightsLeased(w: World) {
    forall f :: f in w.inFlight && w.inFlight[f].row ==>
      f.delivery in w.db.deliveries && Leased(w.clock, w.db.deliveries[f.delivery], w.inFlight[f])
  }

  ghost predicate OneFlightEach(w: World) {
    forall f, g ::
      f in w.inFlight && g in w.inFlight && f.delivery == g.delivery && w.inFlight[f].row && w.inFlight[g].row
      ==> f == g
  }

  ghost predicate RowsAnswer(w: World) {
    forall k :: k in w.db.deliveries ==> Answers(w.db.deliveries[k])
  }

  ghost predicate Queued(w: World) {
    FlightsLeased(w) && OneFlightEach(w) && RowsAnswer(w)
  }

  lemma LeasedRowStays(w: World, s: Step, f: FlightKey, e: Delivery)
    requires FlightsLeased(w) && OneFlightEach(w) && Legal(w, s) && Orderly(w, s)
    requires f in w.inFlight && w.inFlight[f].row
    requires s.event.Attempt? ==> f != FlightKey(s.event.session, s.event.key)
    requires RowChange(w, s, f.delivery, w.db.deliveries[f.delivery], e)
    ensures e == w.db.deliveries[f.delivery]
  {
    hide React, SettledRow;
    var k := f.delivery;
    assert Leased(w.clock, w.db.deliveries[k], w.inFlight[f]);
    assert s.event.Tap? ==> s.event.key != k by { FlyingIs(w, f); }
  }

  lemma FlyingIs(w: World, f: FlightKey)
    requires f in w.inFlight && w.inFlight[f].row
    ensures Flying(w, f.delivery)
  {
    assert f == FlightKey(f.session, f.delivery);
  }

  lemma FlightLeases(w: World, s: Step, f: FlightKey)
    requires FlightsLeased(w) && OneFlightEach(w) && Legal(w, s) && Orderly(w, s)
    requires f in Next(w, s).inFlight && Next(w, s).inFlight[f].row
    ensures f.delivery in Next(w, s).db.deliveries
    ensures Leased(s.now, Next(w, s).db.deliveries[f.delivery], Next(w, s).inFlight[f])
  {
    FlightStep(w, s, f);
    EveryRowSteps(w, s, f.delivery);
    hide Next, RowChange;
    if f in w.inFlight {
      LeasedRowStays(w, s, f, Next(w, s).db.deliveries[f.delivery]);
      assert Leased(w.clock, w.db.deliveries[f.delivery], w.inFlight[f]);
    } else {
      ClaimLeases(w, s, f, Next(w, s).db.deliveries[f.delivery], Next(w, s).inFlight[f]);
    }
  }

  lemma ClaimLeases(w: World, s: Step, f: FlightKey, e: Delivery, flight: Flight)
    requires Legal(w, s) && s.event.ClaimBatch? && f.delivery in s.event.batch
    requires RowChange(w, s, f.delivery, w.db.deliveries[f.delivery], e)
    requires flight.attempts == w.db.deliveries[f.delivery].attempts + 1 && flight.until == s.now + s.event.lockFor
    ensures Leased(s.now, e, flight)
  {
  }

  lemma NotClaimed(w: World, s: Step, f: FlightKey)
    requires FlightsLeased(w) && Legal(w, s) && Orderly(w, s) && f in w.inFlight && w.inFlight[f].row
    ensures s.event.ClaimBatch? ==> f.delivery !in s.event.batch
  {
    assert Leased(w.clock, w.db.deliveries[f.delivery], w.inFlight[f]);
  }

  lemma OneFlightStep(w: World, s: Step)
    requires FlightsLeased(w) && OneFlightEach(w) && Legal(w, s) && Orderly(w, s)
    ensures OneFlightEach(Next(w, s))
  {
    var v := Next(w, s);
    hide Next, Effect, Flights;
    forall f, g | f in v.inFlight && g in v.inFlight && v.inFlight[f].row && v.inFlight[g].row
        && f.delivery == g.delivery
      ensures f == g
    {
      FlightStep(w, s, f);
      FlightStep(w, s, g);
      if f in w.inFlight { NotClaimed(w, s, f); }
      if g in w.inFlight { NotClaimed(w, s, g); }
    }
  }

  lemma RowAnswers(w: World, s: Step, k: DeliveryKey, e: Delivery)
    requires FlightsLeased(w) && Legal(w, s) && k in w.db.deliveries && Answers(w.db.deliveries[k])
    requires RowChange(w, s, k, w.db.deliveries[k], e)
    ensures Answers(e)
  {
    hide CountOf, AbortFor;
    var d := w.db.deliveries[k];
    if s.event.Tap? && React(w.db, s.event.key, s.event.user, s.event.kind, s.now).1 == Applied {
      var _ := TapShape(w.db, s.event.key, s.event.user, s.event.kind, s.now);
      CountAppend(d.actions, Action(s.event.kind, s.now), DoneAction);
      CountAppend(d.actions, Action(s.event.kind, s.now), SkipAction);
    }
    hide React;
    if s.event.Attempt? {
      var own := FlightKey(s.event.session, s.event.key);
      assert w.inFlight[own].row && own.delivery == k ==> Leased(w.clock, d, w.inFlight[own]);
    }
    CountAppend(d.actions, Action(AutoExpireAction, s.now), DoneAction);
    CountAppend(d.actions, Action(AutoExpireAction, s.now), SkipAction);
  }

  lemma FreshAnswers(fireAt: int)
    ensures Answers(FreshDelivery(fireAt))
  {
  }

  lemma QueuedStep(w: World, s: Step)
    requires Queued(w) && Legal(w, s) && Orderly(w, s)
    ensures Queued(Next(w, s))
  {
    var v := Next(w, s);
    ClockOf(w, s);
    OneFlightStep(w, s);
    hide Next, Leased, Answers, RowChange, OneFlightEach, Legal, Orderly;
    forall f | f in v.inFlight && v.inFlight[f].row
      ensures f.delivery in v.db.deliveries && Leased(v.clock, v.db.deliveries[f.delivery], v.inFlight[f])
    {
      FlightLeases(w, s, f);
    }
    forall k | k in v.db.deliveries ensures Answers(v.db.deliveries[k]) {
      EveryRowSteps(w, s, k);
      if k in w.db.deliveries {
        RowAnswers(w, s, k, v.db.deliveries[k]);
      } else {
        FreshAnswers(v.db.occurrences[k.occurrence].fireAt);
      }
    }
  }

  lemma EmptyIsQueued(w: World)
    requires IsEmpty(w)
    ensures Queued(w)
  {
  }

  lemma {:induction false} AlwaysQueued(ws: seq<World>, steps: seq<Step>, i: nat)
    requires IsOrderlyRun(ws, steps) && Queued(ws[0]) && i < |ws|
    ensures Queued(ws[i])
  {
    hide Queued, Legal, Orderly, Next;
    if i > 0 {
      AlwaysQueued(ws, steps, i - 1);
      QueuedStep(ws[i - 1], steps[i - 1]);
      assert ws[i - 1 + 1] == Next(ws[i - 1], steps[i - 1]);
    }
  }

  /** The tables tell who is being sent: a row in flight is locked, until a moment still to come. */
  lemma FlyingIsLocked(ws: seq<World>, steps: seq<Step>, i: nat, k: DeliveryKey)
    requires IsOrderlyRun(ws, steps) && IsEmpty(ws[0]) && i < |ws| && Flying(ws[i], k)
    ensures k in ws[i].db.deliveries
    ensures ws[i].db.deliveries[k].lockedUntil.Some? && ws[i].clock <= ws[i].db.deliveries[k].lockedUntil.value
  {
    hide IsOrderlyRun, IsEmpty;
    EmptyIsQueued(ws[0]);
    AlwaysQueued(ws, steps, i);
    var session :| FlightKey(session, k) in ws[i].inFlight && ws[i].inFlight[FlightKey(session, k)].row;
    assert Leased(ws[i].clock, ws[i].db.deliveries[k], ws[i].inFlight[FlightKey(session, k)]);
  }

  ghost predicate LocksFly(w: World) {
    forall k :: k in w.db.deliveries && w.db.deliveries[k].lockedUntil.Some? ==> Flying(w, k)
  }

  lemma StillFlies(w: World, s: Step, k: DeliveryKey)
    requires Flying(w, k) && k in Next(w, s).db.deliveries && !s.event.Crash?
    requires s.event.Attempt? && s.event.key == k
             ==> FlightKey(s.event.session, k) in w.inFlight && !w.inFlight[FlightKey(s.event.session, k)].row
    ensures Flying(Next(w, s), k)
  {
    hide Effect, Refreshed, ViewOf;
    var session :| FlightKey(session, k) in w.inFlight && w.inFlight[FlightKey(session, k)].row;
    var f := FlightKey(session, k);
    assert f in Next(w, s).inFlight && Next(w, s).inFlight[f].row;
  }

  lemma LockFlies(w: World, s: Step, k: DeliveryKey)
    requires LocksFly(w) && OneFlightEach(w) && Legal(w, s) && !s.event.Crash?
    requires k in w.db.deliveries && k in Next(w, s).db.deliveries && Next(w, s).db.deliveries[k].lockedUntil.Some?
    ensures Flying(Next(w, s), k)
  {
    EveryRowSteps(w, s, k);
    if s.event.ClaimBatch? && k in s.event.batch {
      NewlyFlies(w, s, k);
    } else {
      LockedBefore(w, s, k, Next(w, s).db.deliveries[k]);
      hide Next, RowChange;
      StillFlies(w, s, k);
    }
  }

  lemma LockedBefore(w: World, s: Step, k: DeliveryKey, e: Delivery)
    requires Legal(w, s) && k in w.db.deliveries && RowChange(w, s, k, w.db.deliveries[k], e) && e.lockedUntil.Some?
    requires s.event.ClaimBatch? ==> k !in s.event.batch
    ensures w.db.deliveries[k].lockedUntil.Some?
    ensures s.event.Attempt? && s.event.key == k ==> !w.inFlight[FlightKey(s.event.session, k)].row
  {
    hide React, VerdictFor, GoesOut;
  }

  lemma NewlyFlies(w: World, s: Step, k: DeliveryKey)
    requires Legal(w, s) && s.event.ClaimBatch? && k in s.event.batch && k in Next(w, s).db.deliveries
    ensures Flying(Next(w, s), k)
  {
    hide Effect, Claimable;
    var f := FlightKey(s.event.session, k);
    assert f in ClaimedKeys(w.db, s.event.session, s.event.batch);
    assert f in Next(w, s).inFlight && Next(w, s).inFlight[f].row;
  }

  lemma LocksStep(w: World, s: Step)
    requires LocksFly(w) && OneFlightEach(w) && Legal(w, s) && !s.event.Crash?
    ensures LocksFly(Next(w, s))
  {
    var v := Next(w, s);
    forall k | k in v.db.deliveries && v.db.deliveries[k].lockedUntil.Some? ensures Flying(v, k) {
      hide Next, Flying, Legal, OneFlightEach;
      EveryRowSteps(w, s, k);
      if k in w.db.deliveries { LockFlies(w, s, k); }
    }
  }

  /** And while no worker dies, every locked row is in flight. */
  lemma {:induction false} LockedIsFlying(ws: seq<World>, steps: seq<Step>, i: nat)
    requires IsOrderlyRun(ws, steps) && IsEmpty(ws[0]) && i < |ws|
    requires forall j :: 0 <= j < i ==> !steps[j].event.Crash?
    ensures LocksFly(ws[i])
  {
    hide LocksFly, Legal, Orderly, Next;
    if i == 0 {
      NothingLocked(ws[0]);
    } else {
      LockedIsFlying(ws, steps, i - 1);
      EmptyIsQueued(ws[0]);
      AlwaysQueued(ws, steps, i - 1);
      LocksStep(ws[i - 1], steps[i - 1]);
      assert ws[i - 1 + 1] == Next(ws[i - 1], steps[i - 1]);
    }
  }

  lemma NothingLocked(w: World)
    requires IsEmpty(w)
    ensures LocksFly(w)
  {
  }

  // ---------------------------------------------------------------------------------------------
  // What sessions know while nothing closes behind their backs
  // ---------------------------------------------------------------------------------------------

  /** A session knows whether the occurrence is closed. */
  ghost predicate KnowsClosed(w: World, f: FlightKey, flight: Flight) {
    flight.occurrence && flight.view.Seen? && f.delivery.occurrence in w.db.occurrences
    ==> (IsClosed(flight.view.status) <==> IsClosed(w.db.occurrences[f.delivery.occurrence].status))
  }

  ghost predicate SessionsKnow(w: World) {
    forall f :: f in w.inFlight ==> KnowsClosed(w, f, w.inFlight[f])
  }

  ghost predicate Certain(w: World) {
    Inv(w) && Queued(w) && SessionsKnow(w)
  }

  predicate KnowsStatus(view: View, status: OccurrenceStatus) {
    view.Seen? ==> (IsClosed(view.status) <==> IsClosed(status))
  }

  lemma ReadKnows(db: Tables, f: FlightKey, flight: Flight)
    requires f.delivery.occurrence in db.occurrences
    requires KnowsStatus(flight.view, db.occurrences[f.delivery.occurrence].status)
    ensures KnowsStatus(Read(db, f, flight).view, db.occurrences[f.delivery.occurrence].status)
  {
  }

  lemma AttemptKnows(w: World, s: Step, f: FlightKey, a: Occurrence, b: Occurrence)
    requires SessionsKnow(w) && FlightsOk(w) && Legal(w, s) && s.event.Attempt? && f in w.inFlight
    requires f.delivery.occurrence in w.db.occurrences && a == w.db.occurrences[f.delivery.occurrence]
    requires KnowsStatus(w.inFlight[f].view, a.status) && OccurrenceChange(w, s, f.delivery.occurrence, a, b)
    ensures KnowsStatus(w.inFlight[f].view, b.status)
    ensures var own := FlightKey(s.event.session, s.event.key);
      KnowsStatus(Refreshed(w.inFlight[f].view, f.delivery, s.event.key, w.inFlight[own], s.now, s.event.result),
                  b.status)
  {
    var own := FlightKey(s.event.session, s.event.key);
    assert KnowsClosed(w, own, w.inFlight[own]) && FlightOk(w, own, w.inFlight[own]);
    hide SessionsKnow, FlightsOk, VerdictFor;
  }

  lemma KnowsStep(w: World, s: Step, f: FlightKey)
    requires SessionsKnow(w) && FlightsOk(w) && Legal(w, s) && Steady(w, s) && f in w.inFlight
    requires f in Next(w, s).inFlight
    ensures KnowsClosed(Next(w, s), f, Next(w, s).inFlight[f])
  {
    var v, o, flight := Next(w, s), f.delivery.occurrence, w.inFlight[f];
    FlightStep(w, s, f);
    ViewStep(w, s, f);
    assert KnowsClosed(w, f, flight) && FlightOk(w, f, flight);
    assert flight.occurrence && flight.view.Seen? ==> !Closes(w, s, o);
    hide Next, Steady, SessionsKnow;
    if o in v.db.occurrences && v.inFlight[f].occurrence {
      EveryOccurrenceSteps(w, s, o);
      if s.event.Attempt? {
        AttemptKnows(w, s, f, w.db.occurrences[o], v.db.occurrences[o]);
      } else if s.event.Load? {
        ReadKnows(w.db, f, flight);
      } else {
        StaysKnown(w, s, o, w.db.occurrences[o], v.db.occurrences[o]);
      }
    }
  }

  /** Short of an attempt, a status changes only by closing or from one open status to another. */
  lemma StaysKnown(w: World, s: Step, o: OccurrenceKey, a: Occurrence, b: Occurrence)
    requires Legal(w, s) && !s.event.Attempt? && o in w.db.occurrences && a == w.db.occurrences[o]
    requires OccurrenceChange(w, s, o, a, b)
    ensures IsClosed(a.status) ==> IsClosed(b.status)
    ensures s.event.Load? ==> b == a
  {
    hide React, AllTerminal;
  }

  lemma CertainStep(w: World, s: Step)
    requires Certain(w) && Legal(w, s) && Orderly(w, s) && Steady(w, s)
    ensures Certain(Next(w, s))
  {
    StepKeepsInv(w, s);
    QueuedStep(w, s);
    var v := Next(w, s);
    hide Next, KnowsClosed, Orderly, Steady, Legal, Queued, RowsOk, OccurrencesOk, Fits, FlightsOk, SessionsKnow;
    forall f | f in v.inFlight ensures KnowsClosed(v, f, v.inFlight[f]) {
      if f in w.inFlight {
        KnowsStep(w, s, f);
      } else {
        FlightStep(w, s, f);
        UnreadKnows(v, f, v.inFlight[f]);
      }
    }
    AllKnow(v);
  }

  lemma UnreadKnows(w: World, f: FlightKey, flight: Flight)
    requires flight.view == Unread
    ensures KnowsClosed(w, f, flight)
  {
  }

  lemma AllKnow(w: World)
    requires forall f :: f in w.inFlight ==> KnowsClosed(w, f, w.inFlight[f])
    ensures SessionsKnow(w)
  {
  }

  lemma EmptyIsCertain(w: World)
    requires IsEmpty(w)
    ensures Certain(w)
  {
    EmptyIsOk(w);
    EmptyIsQueued(w);
    hide Inv, Queued;
  }

  lemma {:induction false} AlwaysCertain(ws: seq<World>, steps: seq<Step>, i: nat)
    requires IsSteadyRun(ws, steps) && Certain(ws[0]) && i < |ws|
    ensures Certain(ws[i])
  {
    hide Certain, Legal, Orderly, Steady, Next;
    if i > 0 {
      AlwaysCertain(ws, steps, i - 1);
      CertainStep(ws[i - 1], steps[i - 1]);
      assert ws[i - 1 + 1] == Next(ws[i - 1], steps[i - 1]);
    }
  }

  // ---------------------------------------------------------------------------------------------
  // Closed occurrences
  // ---------------------------------------------------------------------------------------------

  /** The step is an attempt that puts a message of the delivery on the wire, under the occurrence it
      was claimed with. */
  predicate Sends(w: World, s: Step, k: DeliveryKey) {
    && s.event.Attempt? && s.event.key == k && FlightKey(s.event.session, k) in w.inFlight
    && w.inFlight[FlightKey(s.event.session, k)].occurrence
    && GoesOut(w.inFlight[FlightKey(s.event.session, k)], s.event.result)
  }

  ghost predicate IsClosedIn(w: World, o: OccurrenceKey) {
    o in w.db.occurrences && IsClosed(w.db.occurrences[o].status)
  }

  /** Some session has read the occurrence while it was open and is not through with it. */
  ghost predicate IsBelievedOpen(w: World, o: OccurrenceKey) {
    exists f :: f in w.inFlight && f.delivery.occurrence == o && w.inFlight[f].occurrence
      && AbortFor(w.inFlight[f].view).None?
  }

  /** And before anything had been sent for it. */
  ghost predicate IsBelievedUnsent(w: World, o: OccurrenceKey) {
    exists f :: f in w.inFlight && f.delivery.occurrence == o && MovesOn(w.inFlight[f], Accepted)
  }

  /** From here on the occurrence keeps its status, whatever the program does. */
  ghost predicate StaysClosed(w: World, o: OccurrenceKey)
    requires o in w.db.occurrences
  {
    forall v :: Reaches(w, v) ==> o in v.db.occurrences && v.db.occurrences[o].status == w.db.occurrences[o].status
  }

  /** From here on no message goes out for it. */
  ghost predicate StaysSilent(w: World, o: OccurrenceKey) {
    forall v, s, k: DeliveryKey :: Reaches(w, v) && Legal(v, s) && Sends(v, s, k) ==> k.occurrence != o
  }

  lemma AttemptUnder(w: World, s: Step, o: OccurrenceKey)
    requires Legal(w, s) && IsClosedIn(w, o)
    requires s.event.Attempt? && s.event.key.occurrence == o
             ==> !MovesOn(w.inFlight[FlightKey(s.event.session, s.event.key)], s.event.result)
    ensures IsClosedIn(Next(w, s), o) && Next(w, s).db.occurrences[o].status == w.db.occurrences[o].status
  {
    EveryOccurrenceSteps(w, s, o);
    hide Next, React, AllTerminal, MovesOn;
  }

  lemma ViewAborts(w: World, s: Step, f: FlightKey, o: OccurrenceKey)
    requires IsClosedIn(w, o) && f in w.inFlight && f in Next(w, s).inFlight && f.delivery.occurrence == o
    requires Legal(w, s)
    requires s.event.Attempt? && s.event.key.occurrence == o
             ==> !MovesOn(w.inFlight[FlightKey(s.event.session, s.event.key)], s.event.result)
    ensures AbortFor(w.inFlight[f].view).Some? ==> AbortFor(Next(w, s).inFlight[f].view).Some?
    ensures !MovesOn(w.inFlight[f], Accepted) ==> !MovesOn(Next(w, s).inFlight[f], Accepted)
  {
    FlightStep(w, s, f);
    ViewStep(w, s, f);
    hide Next, VerdictFor, Legal;
    ReadAborts(w.db, f, w.inFlight[f]);
  }

  lemma ReadAborts(db: Tables, f: FlightKey, flight: Flight)
    requires f.delivery.occurrence in db.occurrences && IsClosed(db.occurrences[f.delivery.occurrence].status)
    ensures Read(db, f, flight).view == flight.view || AbortFor(Read(db, f, flight).view).Some?
  {
  }

  lemma BelievedStep(w: World, s: Step, o: OccurrenceKey)
    requires Legal(w, s) && IsClosedIn(w, o) && !IsBelievedUnsent(w, o)
    ensures IsClosedIn(Next(w, s), o) && Next(w, s).db.occurrences[o].status == w.db.occurrences[o].status
    ensures !IsBelievedUnsent(Next(w, s), o)
    ensures !IsBelievedOpen(w, o) ==> !IsBelievedOpen(Next(w, s), o)
  {
    var v := Next(w, s);
    OwnFlight(w, s, o);
    AttemptUnder(w, s, o);
    forall f | f in v.inFlight && f.delivery.occurrence == o
      ensures !MovesOn(v.inFlight[f], Accepted)
      ensures !IsBelievedOpen(w, o) && v.inFlight[f].occurrence ==> AbortFor(v.inFlight[f].view).Some?
    {
      hide Next, MovesOn, AbortFor;
      FlightStep(w, s, f);
      if f in w.inFlight {
        ViewAborts(w, s, f, o);
      } else {
        UnreadAborts(v.inFlight[f]);
      }
    }
    hide Next, Legal;
  }

  lemma UnreadAborts(flight: Flight)
    requires flight.view == Unread
    ensures AbortFor(flight.view).Some? && !MovesOn(flight, Accepted)
  {
  }

  lemma OwnFlight(w: World, s: Step, o: OccurrenceKey)
    requires Legal(w, s) && !IsBelievedUnsent(w, o)
    ensures s.event.Attempt? && s.event.key.occurrence == o
            ==> !MovesOn(w.inFlight[FlightKey(s.event.session, s.event.key)], s.event.result)
  {
    if s.event.Attempt? && s.event.key.occurrence == o {
      assert FlightKey(s.event.session, s.event.key).delivery == s.event.key;
    }
  }

  lemma {:induction false} ClosedRun(ws: seq<World>, steps: seq<Step>, j: nat, o: OccurrenceKey)
    requires IsRun(ws, steps) && j < |ws| && IsClosedIn(ws[0], o) && !IsBelievedUnsent(ws[0], o)
    ensures IsClosedIn(ws[j], o) && ws[j].db.occurrences[o].status == ws[0].db.occurrences[o].status
    ensures !IsBelievedUnsent(ws[j], o) && (!IsBelievedOpen(ws[0], o) ==> !IsBelievedOpen(ws[j], o))
  {
    hide Legal, Next, IsBelievedOpen, IsBelievedUnsent;
    if j > 0 {
      ClosedRun(ws, steps, j - 1, o);
      assert ws[j - 1 + 1] == Next(ws[j - 1], steps[j - 1]);
      BelievedStep(ws[j - 1], steps[j - 1], o);
    }
  }

  /** What a session that still believes in the occurrence can do next. */
  lemma BelieverSends(w: World, f: FlightKey) returns (s: Step)
    requires f in w.inFlight && AbortFor(w.inFlight[f].view).None?
    ensures Legal(w, s) && s == Step(w.clock, Attempt(f.session, f.delivery, Accepted))
    ensures w.inFlight[f].occurrence ==> Sends(w, s, f.delivery)
  {
    s := Step(w.clock, Attempt(f.session, f.delivery, Accepted));
  }

  lemma ClosedReach(w: World, v: World, o: OccurrenceKey)
    requires Reaches(w, v) && IsClosedIn(w, o) && !IsBelievedUnsent(w, o)
    ensures IsClosedIn(v, o) && v.db.occurrences[o].status == w.db.occurrences[o].status
    ensures !IsBelievedOpen(w, o) ==> !IsBelievedOpen(v, o)
  {
    hide Legal, Next, IsBelievedOpen, IsBelievedUnsent, IsClosedIn;
    var ws, steps :| IsRun(ws, steps) && ws[0] == w && ws[|ws| - 1] == v;
    ClosedRun(ws, steps, |ws| - 1, o);
  }

  /** A closed occurrence stays closed in every run exactly when no session read it before anything had
      been sent for it and has yet to write a verdict. */
  lemma ClosedExactly(w: World, o: OccurrenceKey)
    requires IsClosedIn(w, o)
    ensures StaysClosed(w, o) <==> !IsBelievedUnsent(w, o)
  {
    hide Legal, Next, Reaches;
    if f :| f in w.inFlight && f.delivery.occurrence == o && MovesOn(w.inFlight[f], Accepted) {
      var s := BelieverSends(w, f);
      ReachesItself(w);
      ReachesNext(w, w, s);
      Reopens(w, s, o);
    } else {
      hide IsBelievedUnsent, IsBelievedOpen;
      forall v | Reaches(w, v)
          ensures o in v.db.occurrences && v.db.occurrences[o].status == w.db.occurrences[o].status {
        ClosedReach(w, v, o);
      }
    }
  }

  lemma Reopens(w: World, s: Step, o: OccurrenceKey)
    requires Legal(w, s) && o in w.db.occurrences && s.event.Attempt? && s.event.key.occurrence == o
    requires MovesOn(w.inFlight[FlightKey(s.event.session, s.event.key)], s.event.result)
    ensures o in Next(w, s).db.occurrences && Next(w, s).db.occurrences[o].status == OccSent
  {
    hide Next, MovesOn;
    EveryOccurrenceSteps(w, s, o);
  }

  /** And no message goes out for it any more exactly when no session read it while it was open and has
      yet to write a verdict. */
  lemma SilentExactly(w: World, o: OccurrenceKey)
    requires IsClosedIn(w, o)
    ensures StaysSilent(w, o) <==> !IsBelievedOpen(w, o)
  {
    hide Legal, Next, Reaches;
    if f :| f in w.inFlight && f.delivery.occurrence == o && w.inFlight[f].occurrence
            && AbortFor(w.inFlight[f].view).None? {
      var s := BelieverSends(w, f);
      ReachesItself(w);
      assert Reaches(w, w) && Legal(w, s) && Sends(w, s, f.delivery);
    } else {
      OpenBeforeUnsent(w, o);
      hide IsBelievedOpen, Sends;
      forall v, s, k: DeliveryKey | Reaches(w, v) && Legal(v, s) && Sends(v, s, k) ensures k.occurrence != o {
        ClosedReach(w, v, o);
        SenderBelieves(v, s, k);
      }
    }
  }

  lemma OpenBeforeUnsent(w: World, o: OccurrenceKey)
    requires !IsBelievedOpen(w, o)
    ensures !IsBelievedUnsent(w, o)
  {
  }

  lemma SenderBelieves(w: World, s: Step, k: DeliveryKey)
    requires Sends(w, s, k)
    ensures IsBelievedOpen(w, k.occurrence)
  {
    assert FlightKey(s.event.session, k).delivery == k;
  }

  lemma NobodyBelieves(w: World, o: OccurrenceKey)
    requires SessionsKnow(w) && IsClosedIn(w, o)
    ensures !IsBelievedOpen(w, o)
  {
    forall f | f in w.inFlight && f.delivery.occurrence == o && w.inFlight[f].occurrence
        ensures AbortFor(w.inFlight[f].view).Some? {
      assert KnowsClosed(w, f, w.inFlight[f]);
    }
  }

  /** So in steady runs a closed occurrence never reopens, and nothing is sent for it again. */
  lemma ClosedForGood(ws: seq<World>, steps: seq<Step>, i: nat, o: OccurrenceKey)
    requires IsSteadyRun(ws, steps) && IsEmpty(ws[0]) && i < |ws| && IsClosedIn(ws[i], o)
    ensures StaysClosed(ws[i], o) && StaysSilent(ws[i], o)
  {
    hide IsSteadyRun, IsBelievedOpen, IsBelievedUnsent, StaysClosed, StaysSilent;
    EmptyIsCertain(ws[0]);
    AlwaysCertain(ws, steps, i);
    NobodyBelieves(ws[i], o);
    OpenBeforeUnsent(ws[i], o);
    ClosedExactly(ws[i], o);
    SilentExactly(ws[i], o);
  }

  /** In any run at all, no message goes out before the moment of its occurrence. */
  lemma NothingBeforeItsMoment(ws: seq<World>, steps: seq<Step>, i: nat, k: DeliveryKey)
    requires IsRun(ws, steps) && IsEmpty(ws[0]) && i < |steps| && Sends(ws[i], steps[i], k)
    ensures k.occurrence in ws[i].db.occurrences && ws[i].db.occurrences[k.occurrence].fireAt <= steps[i].now
  {
    EmptyIsOk(ws[0]);
    RunKeepsInv(ws, steps, i);
    assert Legal(ws[i], steps[i]);
    assert FlightOk(ws[i], FlightKey(steps[i].event.session, k), ws[i].inFlight[FlightKey(steps[i].event.session, k)]);
    hide IsEmpty, IsRun;
  }

  /** No message goes out early: not before the moment of its occurrence, not before a retry's delay
      is over, not before a snooze has run out; and none to somebody the session knows to have blocked
      the bot. */
  lemma NothingSentEarly(ws: seq<World>, steps: seq<Step>, i: nat, k: DeliveryKey)
    requires IsOrderlyRun(ws, steps) && IsEmpty(ws[0]) && i < |steps| && Sends(ws[i], steps[i], k)
    ensures k.occurrence in ws[i].db.occurrences && ws[i].db.occurrences[k.occurrence].fireAt <= steps[i].now
    ensures var flight := ws[i].inFlight[FlightKey(steps[i].event.session, k)];
      && flight.view.Seen? && !flight.view.blocked && !IsClosed(flight.view.status)
      && (flight.row ==>
            && k in ws[i].db.deliveries
            && var d := ws[i].db.deliveries[k];
               && d.nextAttemptAt <= steps[i].now
               && (d.status == Snoozed ==> d.snoozedUntil.Some? && d.snoozedUntil.value <= steps[i].now))
  {
    EmptyIsOk(ws[0]);
    RunKeepsInv(ws, steps, i);
    EmptyIsQueued(ws[0]);
    AlwaysQueued(ws, steps, i);
    assert Legal(ws[i], steps[i]);
    hide IsEmpty, IsOrderlyRun;
    EarlyFacts(ws[i], steps[i], k);
  }

  lemma EarlyFacts(w: World, s: Step, k: DeliveryKey)
    requires FlightsOk(w) && RowsOk(w) && FlightsLeased(w) && w.clock <= s.now && Sends(w, s, k)
    ensures k.occurrence in w.db.occurrences && w.db.occurrences[k.occurrence].fireAt <= s.now
    ensures var flight := w.inFlight[FlightKey(s.event.session, k)];
      && flight.view.Seen? && !flight.view.blocked && !IsClosed(flight.view.status)
      && (flight.row ==>
            && k in w.db.deliveries
            && var d := w.db.deliveries[k];
               && d.nextAttemptAt <= s.now
               && (d.status == Snoozed ==> d.snoozedUntil.Some? && d.snoozedUntil.value <= s.now))
  {
    var f := FlightKey(s.event.session, k);
    assert FlightOk(w, f, w.inFlight[f]);
    if w.inFlight[f].row {
      assert Leased(w.clock, w.db.deliveries[k], w.inFlight[f]);
      assert RowOk(w.clock, w.db.deliveries[k], w.db.occurrences[k.occurrence]);
    }
  }

  // ---------------------------------------------------------------------------------------------
  // Leases
  // ---------------------------------------------------------------------------------------------

  ghost predicate HoldsLease(w: World, k: DeliveryKey, until: int) {
    && k in w.db.deliveries
    && w.db.deliveries[k].lockedUntil == Some(until)
    && w.db.deliveries[k].status in {Pending, Snoozed}
  }

  predicate Releases(e: Event, k: DeliveryKey) {
    (e.Attempt? && e.key == k) || (e.Tap? && e.key == k)
  }

  lemma LeaseRow(w: World, s: Step, k: DeliveryKey, until: int, e: Delivery)
    requires Legal(w, s) && HoldsLease(w, k, until) && s.now <= until && !Releases(s.event, k)
    requires RowChange(w, s, k, w.db.deliveries[k], e)
    ensures s.event.ClaimBatch? ==> k !in s.event.batch
    ensures e.lockedUntil == Some(until) && e.status in {Pending, Snoozed}
  {
    hide React, SettledRow, ReactRow;
  }

  /** From its claim until it is applied, answered or run out, a lease is exclusive, in any run: no
      claim by any worker returns the row, and the reaper does not free it. */
  lemma {:induction false} LeaseIsExclusive(ws: seq<World>, steps: seq<Step>, i: nat, j: nat, k: DeliveryKey,
                                            until: int)
    requires IsRun(ws, steps) && i <= j < |steps| && HoldsLease(ws[i], k, until)
    requires forall m :: i <= m <= j ==> k in ws[m].db.deliveries
    requires forall m :: i <= m < j ==> steps[m].now <= until && !Releases(steps[m].event, k)
    ensures HoldsLease(ws[j], k, until)
    ensures steps[j].event.ClaimBatch? && steps[j].now <= until ==> k !in steps[j].event.batch
  {
    hide Next, RowChange;
    if i < j {
      LeaseIsExclusive(ws, steps, i, j - 1, k, until);
      assert Legal(ws[j - 1], steps[j - 1]) && ws[j - 1 + 1] == Next(ws[j - 1], steps[j - 1]);
      EveryRowSteps(ws[j - 1], steps[j - 1], k);
      LeaseRow(ws[j - 1], steps[j - 1], k, until, ws[j].db.deliveries[k]);
    }
  }

  /** A claim starts a lease. */
  lemma ClaimHoldsLease(w: World, s: Step, k: DeliveryKey)
    requires Legal(w, s) && s.event.ClaimBatch? && k in s.event.batch
    ensures HoldsLease(Next(w, s), k, s.now + s.event.lockFor)
  {
    hide Flights;
  }
}
