/** Whole cycles of the workers are runs: what holds of every step holds of every cycle. */
module Cycles {
  import opened Ordering
  import opened Planning
  import opened Contracts
  import opened Store
  import opened Runs
  import opened Steps
  import opened Invariants
  import opened Guarantees
  import opened Journal
  import opened Coverage
  import opened Services
  import opened Transactions

  // ---------------------------------------------------------------------------------------------
  // dispatcher.deliver
  // ---------------------------------------------------------------------------------------------

  /** The clock when the first `i` rows of a batch have been settled. */
  function ClockAt(batch: seq<DeliveryKey>, answers: DeliveryKey -> Answer, now: int, i: nat): int
    requires i <= |batch|
  {
    if i == 0 then now else answers(batch[i - 1]).at
  }

  ghost predicate InOrder(batch: seq<DeliveryKey>, answers: DeliveryKey -> Answer, now: int) {
    forall i, j :: 0 <= i && j == i + 1 && j <= |batch|
        ==> ClockAt(batch, answers, now, i) <= ClockAt(batch, answers, now, j)
  }

  lemma {:induction false} ClockAscends(batch: seq<DeliveryKey>, answers: DeliveryKey -> Answer, now: int, i: nat,
                                        j: nat)
    requires InOrder(batch, answers, now) && i <= j <= |batch|
    ensures ClockAt(batch, answers, now, i) <= ClockAt(batch, answers, now, j)
  {
    if i < j {
      ClockAscends(batch, answers, now, i, j - 1);
      assert ClockAt(batch, answers, now, j - 1) <= ClockAt(batch, answers, now, j);
    }
  }

  function SessionKeys(session: int, keys: set<DeliveryKey>): set<FlightKey> {
    set k | k in keys :: FlightKey(session, k)
  }

  ghost predicate IsFreshSession(w: World, session: int) {
    forall f :: f in w.inFlight ==> f.session != session
  }

  /** The world around a session in the middle of its batch. */
  ghost function SendingWorld(w: World, session: int, st: Sending, clock: int): World {
    World(st.db, clock, map f | f in w.inFlight.Keys + SessionKeys(session, st.flights.Keys) ::
      if f in w.inFlight then w.inFlight[f] else st.flights[f.delivery])
  }

  ghost predicate IsPresent(db: Tables, k: DeliveryKey, flight: Flight) {
    (flight.row ==> k in db.deliveries) && (flight.occurrence ==> k.occurrence in db.occurrences)
  }

  /** All rows the session and the others hold are there. */
  ghost predicate AllPresent(w: World, st: Sending) {
    && (forall f :: f in w.inFlight ==> IsPresent(st.db, f.delivery, w.inFlight[f]))
    && (forall k :: k in st.flights ==> IsPresent(st.db, k, st.flights[k]) && st.flights[k].view != Unread)
  }

  lemma PresentStays(flight: Flight, f: FlightKey, db: Tables)
    requires IsPresent(db, f.delivery, flight)
    ensures Present(flight, f, db) == flight
  {
  }

  lemma SessionKeyOf(session: int, keys: set<DeliveryKey>, f: FlightKey)
    ensures f in SessionKeys(session, keys) <==> f.session == session && f.delivery in keys
  {
    if f.session == session && f.delivery in keys {
      assert f == FlightKey(session, f.delivery);
    }
  }

  lemma SettleKeeps(w: World, st: Sending, key: DeliveryKey, answer: Answer)
    requires AllPresent(w, st) && key in st.flights
    ensures AllPresent(w, SettleOne(st, key, answer))
  {
    DeliverKeepsKeys(st.db, key, st.flights[key], answer);
    hide DeliverOne, Refreshed;
    RefreshedIsRead(st.flights, key, answer);
    forall f | f in w.inFlight ensures IsPresent(SettleOne(st, key, answer).db, f.delivery, w.inFlight[f]) {
      assert IsPresent(st.db, f.delivery, w.inFlight[f]);
      assert f.delivery in st.db.deliveries <==> f.delivery in st.db.deliveries.Keys;
    }
    forall k | k in SettleOne(st, key, answer).flights
      ensures IsPresent(SettleOne(st, key, answer).db, k, SettleOne(st, key, answer).flights[k])
    {
      assert IsPresent(st.db, k, st.flights[k]);
      assert k in st.db.deliveries <==> k in st.db.deliveries.Keys;
    }
  }

  lemma RefreshedIsRead(flights: map<DeliveryKey, Flight>, key: DeliveryKey, answer: Answer)
    requires key in flights && forall k :: k in flights ==> flights[k].view != Unread
    ensures forall k :: k in Others(flights, key, answer) ==> Others(flights, key, answer)[k].view != Unread
  {
    hide MovesOn, VerdictFor;
  }

  /** One attempt of the session, seen from one flight of the world around it. */
  lemma AttemptFlight(w: World, session: int, st: Sending, clock: int, key: DeliveryKey, answer: Answer, f: FlightKey)
    requires IsFreshSession(w, session) && AllPresent(w, st) && key in st.flights
    ensures var v, after := SendingWorld(w, session, st, clock),
            SendingWorld(w, session, SettleOne(st, key, answer), answer.at);
      var flights := Flights(v, answer.at, Attempt(session, key, answer.result));
      && (f in flights <==> f in after.inFlight)
      && (f in flights ==> Present(flights[f], f, after.db) == after.inFlight[f])
  {
    hide DeliverOne, Refreshed, Present, SessionKeys, SendingWorld, IsFreshSession, IsPresent;
    var after := SettleOne(st, key, answer);
    SettleKeeps(w, st, key, answer);
    FreshOf(w, session, f);
    FreshOf(w, session, FlightKey(session, key));
    FlightInSending(w, session, st, clock, f);
    FlightInSending(w, session, st, clock, FlightKey(session, key));
    FlightInSending(w, session, after, answer.at, f);
    ClockOfSending(w, session, after, answer.at);
    assert f == FlightKey(f.session, f.delivery);
    if f in w.inFlight {
      PresentStays(w.inFlight[f], f, after.db);
    } else if f.session == session && f.delivery in after.flights {
      PresentStays(after.flights[f.delivery], f, after.db);
    }
  }

  /** One attempt of the session, in the world around it. */
  lemma AttemptSettles(w: World, session: int, st: Sending, clock: int, key: DeliveryKey, answer: Answer)
    requires IsFreshSession(w, session) && AllPresent(w, st) && key in st.flights && clock <= answer.at
    ensures var s, v := Step(answer.at, Attempt(session, key, answer.result)), SendingWorld(w, session, st, clock);
      Legal(v, s) && Next(v, s) == SendingWorld(w, session, SettleOne(st, key, answer), answer.at)
  {
    var s, v := Step(answer.at, Attempt(session, key, answer.result)), SendingWorld(w, session, st, clock);
    var after := SendingWorld(w, session, SettleOne(st, key, answer), answer.at);
    hide Effect, Flights, Present, Legal, Next, AllPresent, IsFreshSession;
    AttemptStarts(w, session, st, clock, key, answer);
    NextParts(v, s);
    forall f
      ensures f in Flights(v, s.now, s.event) <==> f in after.inFlight
      ensures f in Flights(v, s.now, s.event)
              ==> Present(Flights(v, s.now, s.event)[f], f, after.db) == after.inFlight[f]
    {
      AttemptFlight(w, session, st, clock, key, answer, f);
    }
    hide SendingWorld, SettleOne, DeliverOne;
    ClockOfSending(w, session, SettleOne(st, key, answer), answer.at);
    SameWorld(Next(v, s), after);
  }

  lemma AttemptStarts(w: World, session: int, st: Sending, clock: int, key: DeliveryKey, answer: Answer)
    requires IsFreshSession(w, session) && AllPresent(w, st) && key in st.flights && clock <= answer.at
    ensures var s, v := Step(answer.at, Attempt(session, key, answer.result)), SendingWorld(w, session, st, clock);
      && Legal(v, s) && Effect(v, s.now, s.event) == SettleOne(st, key, answer).db
      && FlightKey(session, key) in v.inFlight && v.inFlight[FlightKey(session, key)] == st.flights[key]
  {
    var s, v := Step(answer.at, Attempt(session, key, answer.result)), SendingWorld(w, session, st, clock);
    hide Legal, Effect, DeliverOne;
    SessionKeyOf(session, st.flights.Keys, FlightKey(session, key));
    LegalAttempt(v, s);
  }

  lemma ClockOfSending(w: World, session: int, st: Sending, clock: int)
    ensures SendingWorld(w, session, st, clock).clock == clock && SendingWorld(w, session, st, clock).db == st.db
  {
  }

  /** A session that has claimed and not yet read. */
  ghost function ClaimedWorld(w: World, session: int, batch: set<DeliveryKey>, now: int, lock: nat): World {
    Next(w, Step(now, ClaimBatch(session, batch, lock)))
  }

  /** A session may begin with these rows. */
  ghost predicate CanClaim(w: World, session: int, batch: set<DeliveryKey>, now: int) {
    && Inv(w) && IsFreshSession(w, session) && w.clock <= now
    && forall k :: k in batch ==> k in w.db.deliveries && Claimable(w.db.deliveries[k], now)
  }

  lemma ClaimedParts(w: World, session: int, batch: set<DeliveryKey>, now: int, lock: nat)
    requires CanClaim(w, session, batch, now)
    ensures Legal(w, Step(now, ClaimBatch(session, batch, lock)))
    ensures ClaimedWorld(w, session, batch, now, lock).db == Claim(w.db, batch, now, lock)
    ensures ClaimedWorld(w, session, batch, now, lock).clock == now
  {
    var s := Step(now, ClaimBatch(session, batch, lock));
    LegalClaim(w, s);
    NextParts(w, s);
    hide Next, Claim, Effect, Flights, Legal, Inv, Claimable;
  }

  lemma ClaimKeys(db: Tables, batch: set<DeliveryKey>, now: int, lock: nat)
    ensures var after := Claim(db, batch, now, lock);
      && after.deliveries.Keys == db.deliveries.Keys && after.occurrences == db.occurrences
      && after.users == db.users && after.reminders == db.reminders
      && forall k :: k in batch && k in db.deliveries ==> after.deliveries[k].attempts == db.deliveries[k].attempts + 1
  {
  }

  lemma ClaimedFlight(w: World, session: int, batch: set<DeliveryKey>, now: int, lock: nat, f: FlightKey)
    requires CanClaim(w, session, batch, now)
    ensures var v := ClaimedWorld(w, session, batch, now, lock);
      && (f in v.inFlight <==> f in w.inFlight || (f.session == session && f.delivery in batch))
      && (f in w.inFlight ==> v.inFlight[f] == w.inFlight[f])
      && (f in v.inFlight ==> IsPresent(v.db, f.delivery, v.inFlight[f]))
      && (f in v.inFlight && f !in w.inFlight ==>
            f.delivery in v.db.deliveries
            && v.inFlight[f] == Flight(v.db.deliveries[f.delivery].attempts, now + lock, Unread, true, true))
  {
    hide Flights, Next, Effect, Claim, ClaimedWorld, CanClaim, Legal;
    var s := Step(now, ClaimBatch(session, batch, lock));
    BatchExists(w, session, batch, now);
    ClaimedParts(w, session, batch, now, lock);
    ClaimFlights(w, s, f);
    NextParts(w, s);
    ClaimedIsNext(w, session, batch, now, lock);
    ClaimedPresent(w, session, batch, now, lock, f);
  }

  lemma BatchExists(w: World, session: int, batch: set<DeliveryKey>, now: int)
    requires CanClaim(w, session, batch, now)
    ensures batch <= w.db.deliveries.Keys
    ensures forall f :: f in w.inFlight ==> IsPresent(w.db, f.delivery, w.inFlight[f])
    ensures forall k :: k in w.db.deliveries ==> k.occurrence in w.db.occurrences
  {
    FlightsPresent(w);
    hide Claimable, RowsOk, OccurrencesOk, FlightsOk, Covered, Budgeted, IsPresent;
  }

  lemma ClaimedPresent(w: World, session: int, batch: set<DeliveryKey>, now: int, lock: nat, f: FlightKey)
    requires CanClaim(w, session, batch, now)
    ensures var db := Claim(w.db, batch, now, lock);
      && (f in w.inFlight ==> IsPresent(db, f.delivery, w.inFlight[f]))
      && (f.delivery in batch ==>
            f.delivery in db.deliveries && f.delivery.occurrence in db.occurrences
            && db.deliveries[f.delivery].attempts == w.db.deliveries[f.delivery].attempts + 1)
  {
    BatchExists(w, session, batch, now);
    ClaimKeys(w.db, batch, now, lock);
    hide Claim, CanClaim;
    assert f.delivery in Claim(w.db, batch, now, lock).deliveries <==> f.delivery in w.db.deliveries.Keys;
    if f in w.inFlight { assert IsPresent(w.db, f.delivery, w.inFlight[f]); }
  }

  lemma FlightsPresent(w: World)
    requires Inv(w)
    ensures forall f :: f in w.inFlight ==> IsPresent(w.db, f.delivery, w.inFlight[f])
  {
    hide Fits, RowsOk, OccurrencesOk;
    forall f | f in w.inFlight ensures IsPresent(w.db, f.delivery, w.inFlight[f]) {
      assert FlightOk(w, f, w.inFlight[f]);
    }
  }

  lemma ClaimedIsNext(w: World, session: int, batch: set<DeliveryKey>, now: int, lock: nat)
    ensures ClaimedWorld(w, session, batch, now, lock) == Next(w, Step(now, ClaimBatch(session, batch, lock)))
  {
    hide Next;
  }

  lemma LoadedKnows(w: World, batch: seq<DeliveryKey>, now: int, lock: nat, k: DeliveryKey)
    requires Members(batch) <= w.db.deliveries.Keys
    ensures var st := Claimed(w.db, batch, now, lock);
      && st.db == Claim(w.db, Members(batch), now, lock) && st.flights.Keys == Members(batch)
      && (k in Members(batch) ==>
            k in st.db.deliveries
            && st.flights[k] == Flight(st.db.deliveries[k].attempts, now + lock, ViewOf(st.db, k), true, true))
  {
    var st := Claimed(w.db, batch, now, lock);
    hide Claimable, Claim, ViewOf;
    ClaimKeys(w.db, Members(batch), now, lock);
    forall j | j in Members(batch) ensures j in st.db.deliveries { assert j in w.db.deliveries.Keys; }
  }

  lemma FlightInSending(w: World, session: int, st: Sending, clock: int, f: FlightKey)
    ensures var v := SendingWorld(w, session, st, clock);
      && (f in v.inFlight <==> f in w.inFlight || (f.session == session && f.delivery in st.flights))
      && (f in v.inFlight ==> v.inFlight[f] == if f in w.inFlight then w.inFlight[f] else st.flights[f.delivery])
  {
    SessionKeyOf(session, st.flights.Keys, f);
    hide SessionKeys;
  }

  lemma LoadOf(v: World, now: int, session: int, f: FlightKey)
    requires f in v.inFlight && IsPresent(v.db, f.delivery, v.inFlight[f])
    ensures var flights := Flights(v, now, Load(session));
      f in flights && Present(flights[f], f, v.db) == if f.session == session then Read(v.db, f, v.inFlight[f])
        else v.inFlight[f]
  {
    hide ViewOf;
  }

  /** What one flight is once the context of its batch is read. */
  ghost predicate IsLoaded(w: World, v: World, session: int, st: Sending, now: int, f: FlightKey) {
    var flights, after := Flights(v, now, Load(session)), SendingWorld(w, session, st, now);
    && (f in flights <==> f in after.inFlight)
    && (f in flights ==> Present(flights[f], f, after.db) == after.inFlight[f])
  }

  /** Somebody else's. */
  lemma LoadedOther(w: World, session: int, batch: seq<DeliveryKey>, now: int, lock: nat, f: FlightKey)
    requires CanClaim(w, session, Members(batch), now) && f in w.inFlight
    ensures IsLoaded(w, ClaimedWorld(w, session, Members(batch), now, lock), session, Claimed(w.db, batch, now, lock),
                     now, f)
  {
    hide ClaimedWorld, Claim, Loaded, CanClaim, ViewOf, Flights, Present, SendingWorld, IsPresent, IsFreshSession,
         Members;
    var v, st := ClaimedWorld(w, session, Members(batch), now, lock), Claimed(w.db, batch, now, lock);
    ClaimedParts(w, session, Members(batch), now, lock);
    ClaimedFlight(w, session, Members(batch), now, lock, f);
    FreshOfClaim(w, session, Members(batch), now);
    FreshOf(w, session, f);
    FlightInSending(w, session, st, now, f);
    ClockOfSending(w, session, st, now);
    LoadOf(v, now, session, f);
  }

  /** The session's own. */
  lemma LoadedOwn(w: World, session: int, batch: seq<DeliveryKey>, now: int, lock: nat, f: FlightKey)
    requires CanClaim(w, session, Members(batch), now) && f !in w.inFlight
    ensures IsLoaded(w, ClaimedWorld(w, session, Members(batch), now, lock), session, Claimed(w.db, batch, now, lock),
                     now, f)
  {
    hide ClaimedWorld, Claimed, Claim, CanClaim, ViewOf, Flights, Present, SendingWorld, IsPresent, Members;
    var v, st := ClaimedWorld(w, session, Members(batch), now, lock), Claimed(w.db, batch, now, lock);
    ClaimedParts(w, session, Members(batch), now, lock);
    ClaimedFlight(w, session, Members(batch), now, lock, f);
    BatchExists(w, session, Members(batch), now);
    LoadedKnows(w, batch, now, lock, f.delivery);
    FlightInSending(w, session, st, now, f);
    ClockOfSending(w, session, st, now);
    LoadKeys(v, now, session, f);
    assert f.delivery in st.flights <==> f.delivery in st.flights.Keys;
    if f in v.inFlight { LoadOf(v, now, session, f); }
  }

  /** The context of a batch, seen from one flight. */
  lemma LoadedFlight(w: World, session: int, batch: seq<DeliveryKey>, now: int, lock: nat, f: FlightKey)
    requires CanClaim(w, session, Members(batch), now)
    ensures IsLoaded(w, ClaimedWorld(w, session, Members(batch), now, lock), session, Claimed(w.db, batch, now, lock),
                     now, f)
  {
    hide *;
    if f in w.inFlight {
      LoadedOther(w, session, batch, now, lock, f);
    } else {
      LoadedOwn(w, session, batch, now, lock, f);
    }
  }

  lemma FreshOf(w: World, session: int, f: FlightKey)
    requires IsFreshSession(w, session)
    ensures f in w.inFlight ==> f.session != session
  {
  }

  lemma LoadKeys(v: World, now: int, session: int, f: FlightKey)
    ensures f in Flights(v, now, Load(session)) <==> f in v.inFlight
  {
    hide Read;
  }

  /** Claiming and reading put the session at the start of its batch. */
  lemma LoadStarts(w: World, session: int, batch: seq<DeliveryKey>, now: int, lock: nat)
    requires CanClaim(w, session, Members(batch), now)
    ensures Next(ClaimedWorld(w, session, Members(batch), now, lock), Step(now, Load(session)))
            == SendingWorld(w, session, Claimed(w.db, batch, now, lock), now)
  {
    var v, s := ClaimedWorld(w, session, Members(batch), now, lock), Step(now, Load(session));
    var st := Claimed(w.db, batch, now, lock);
    var after := SendingWorld(w, session, st, now);
    BatchExists(w, session, Members(batch), now);
    hide CanClaim, Flights, Present, Effect, Next, Legal, SendingWorld, Claimed;
    ClaimedParts(w, session, Members(batch), now, lock);
    LegalLoad(v, s);
    NextParts(v, s);
    forall f
      ensures f in Flights(v, now, s.event) <==> f in after.inFlight
      ensures f in Flights(v, now, s.event) ==> Present(Flights(v, now, s.event)[f], f, after.db) == after.inFlight[f]
    {
      LoadedFlight(w, session, batch, now, lock, f);
    }
    ClockOfSending(w, session, st, now);
    LoadedKnows(w, batch, now, lock, DeliveryKey(OccurrenceKey(0, 0), 0));
    hide ClaimedWorld;
    SameWorld(Next(v, s), after);
  }

  /** A run in which every worker was in time. */
  ghost predicate ReachesInTime(w: World, v: World) {
    exists ws, steps :: IsSteadyRun(ws, steps) && ws[0] == w && ws[|ws| - 1] == v
  }

  lemma InTimeItself(w: World)
    ensures ReachesInTime(w, w)
  {
    assert IsSteadyRun([w], []);
  }

  lemma InTimeNext(w: World, v: World, s: Step)
    requires ReachesInTime(w, v) && Legal(v, s) && Orderly(v, s) && Steady(v, s)
    ensures ReachesInTime(w, Next(v, s))
  {
    hide Legal, Next, Orderly, Steady;
    var ws, steps :| IsSteadyRun(ws, steps) && ws[0] == w && ws[|ws| - 1] == v;
    var all, more := ws + [Next(v, s)], steps + [s];
    assert IsSteadyRun(all, more) && all[0] == w && all[|all| - 1] == Next(v, s);
  }

  lemma InTimeIsOrderly(w: World, v: World)
    requires ReachesInTime(w, v)
    ensures ReachesOrderly(w, v)
  {
    hide Legal, Next, Orderly, Steady;
    var ws, steps :| IsSteadyRun(ws, steps) && ws[0] == w && ws[|ws| - 1] == v;
    assert IsOrderlyRun(ws, steps);
  }

  lemma InTimeKeepsCertain(w: World, v: World)
    requires ReachesInTime(w, v) && Certain(w)
    ensures Certain(v)
  {
    hide Certain, Legal, Next, Orderly, Steady;
    var ws, steps :| IsSteadyRun(ws, steps) && ws[0] == w && ws[|ws| - 1] == v;
    AlwaysCertain(ws, steps, |steps|);
  }

  /** Every lease around, the session's own included, lasts until then. */
  ghost predicate IsInTime(w: World, until: int, end: int) {
    end <= until && forall f :: f in w.inFlight ==> end <= w.inFlight[f].until
  }

  lemma AttemptCloses(db: Tables, key: DeliveryKey, f: Flight, now: int, result: SendResult, o: OccurrenceKey)
    ensures var after := DeliverOne(db, key, f, now, result);
      o in db.occurrences && o in after.occurrences && IsClosed(after.occurrences[o].status)
      ==> IsClosed(db.occurrences[o].status)
  {
    hide VerdictFor, SettledRow, MovesOn;
  }

  lemma DispatcherEffect(w: World, s: Step)
    requires s.event.ClaimBatch? || s.event.Load? || s.event.Attempt?
    ensures var after := Effect(w, s.now, s.event);
      || after.occurrences == w.db.occurrences
      || exists key, f, result :: after == DeliverOne(w.db, key, f, s.now, result)
  {
    hide Claim, DeliverOne;
    if s.event.ClaimBatch? {
      ClaimKeys(w.db, s.event.batch, s.now, s.event.lockFor);
    } else if s.event.Attempt? && FlightKey(s.event.session, s.event.key) in w.inFlight {
      assert Effect(w, s.now, s.event)
             == DeliverOne(w.db, s.event.key, w.inFlight[FlightKey(s.event.session, s.event.key)], s.now,
                           s.event.result);
    }
  }

  /** A dispatcher closes nothing. */
  lemma DispatcherCloses(w: World, s: Step)
    requires s.event.ClaimBatch? || s.event.Load? || s.event.Attempt?
    ensures Steady(w, s)
  {
    NextParts(w, s);
    DispatcherEffect(w, s);
    var after := Effect(w, s.now, s.event);
    if after.occurrences != w.db.occurrences {
      var key, f, result :| after == DeliverOne(w.db, key, f, s.now, result);
      forall o ensures !Closes(w, s, o) { AttemptCloses(w.db, key, f, s.now, result, o); }
    }
    hide Effect, Next, DeliverOne;
  }

  lemma StepInTime(w: World, v: World, s: Step, end: int)
    requires Reaches(w, v) && Legal(v, s) && (s.event.ClaimBatch? || s.event.Load? || s.event.Attempt?)
    requires s.now <= end && forall f :: f in v.inFlight ==> end <= v.inFlight[f].until
    requires ReachesInTime(w, v)
    ensures ReachesInTime(w, Next(v, s))
  {
    hide Legal, Next, Steady, Reaches, ReachesInTime;
    DispatcherCloses(v, s);
    InTimeNext(w, v, s);
  }

  /** The session after its first `i` rows. */
  ghost predicate IsUnderWay(w: World, session: int, st: Sending, rest: seq<DeliveryKey>, clock: int, until: int,
                             end: int) {
    && AllPresent(w, st) && IsFull(st.flights, Members(rest))
    && (forall k :: k in st.flights ==> st.flights[k].until == until)
    && Reaches(w, SendingWorld(w, session, st, clock))
    && (IsInTime(w, until, end) ==> ReachesInTime(w, SendingWorld(w, session, st, clock)))
  }

  lemma SendingInTime(w: World, session: int, st: Sending, clock: int, until: int, end: int)
    requires IsInTime(w, until, end) && forall k :: k in st.flights ==> st.flights[k].until == until
    ensures forall f :: f in SendingWorld(w, session, st, clock).inFlight
               ==> end <= SendingWorld(w, session, st, clock).inFlight[f].until
  {
    forall f | f in SendingWorld(w, session, st, clock).inFlight
      ensures end <= SendingWorld(w, session, st, clock).inFlight[f].until
    {
      FlightInSending(w, session, st, clock, f);
    }
    hide SendingWorld;
  }

  lemma UntilStays(flights: map<DeliveryKey, Flight>, key: DeliveryKey, answer: Answer, until: int)
    requires key in flights && forall k :: k in flights ==> flights[k].until == until
    ensures forall k :: k in Others(flights, key, answer) ==> Others(flights, key, answer)[k].until == until
  {
    hide Refreshed;
  }

  /** Settling one more row is one more step of the run. */
  lemma NextRow(w: World, session: int, st: Sending, rest: seq<DeliveryKey>, clock: int, answer: Answer, until: int,
                end: int)
    requires IsFreshSession(w, session) && IsUnderWay(w, session, st, rest, clock, until, end)
    requires rest != [] && clock <= answer.at <= end && forall i, j :: 0 <= i < j < |rest| ==> rest[i] != rest[j]
    ensures IsUnderWay(w, session, SettleOne(st, rest[0], answer), rest[1..], answer.at, until, end)
  {
    hide DeliverOne, Refreshed, SendingWorld, AllPresent, IsFreshSession, Legal, Next, Reaches, ReachesInTime, IsInTime,
         Members;
    var key, s := rest[0], Step(answer.at, Attempt(session, rest[0], answer.result));
    assert rest[0..] == rest;
    RestOf(rest, 0);
    FullHas(st.flights, Members(rest), key);
    SettleKeeps(w, st, key, answer);
    OthersFull(st.flights, Members(rest), key, answer);
    UntilStays(st.flights, key, answer, until);
    AttemptSettles(w, session, st, clock, key, answer);
    ReachesNext(w, SendingWorld(w, session, st, clock), s);
    if IsInTime(w, until, end) {
      SendingInTime(w, session, st, clock, until, end);
      StepInTime(w, SendingWorld(w, session, st, clock), s, end);
    }
  }

  lemma StartHas(w: World, session: int, batch: seq<DeliveryKey>, now: int, lock: nat, k: DeliveryKey)
    requires CanClaim(w, session, Members(batch), now)
    ensures var st := Claimed(w.db, batch, now, lock);
      && (k in st.flights <==> k in Members(batch))
      && (k in st.flights ==>
            && IsPresent(st.db, k, st.flights[k]) && st.flights[k].view != Unread
            && st.flights[k].until == now + lock && st.flights[k].row && st.flights[k].occurrence)
  {
    BatchExists(w, session, Members(batch), now);
    LoadedKnows(w, batch, now, lock, k);
    ClaimedPresent(w, session, Members(batch), now, lock, FlightKey(session, k));
    ViewIsRead(Claimed(w.db, batch, now, lock).db, k);
    hide CanClaim, Claimed, Claim, ViewOf, Members;
    assert k in Claimed(w.db, batch, now, lock).flights <==> k in Claimed(w.db, batch, now, lock).flights.Keys;
  }

  lemma StartIsPresent(w: World, session: int, batch: seq<DeliveryKey>, now: int, lock: nat)
    requires CanClaim(w, session, Members(batch), now)
    ensures var st := Claimed(w.db, batch, now, lock);
      && AllPresent(w, st) && IsFull(st.flights, Members(batch))
      && forall k :: k in st.flights ==> st.flights[k].until == now + lock
  {
    hide CanClaim, Claimed, Claim, IsPresent, Members;
    var st := Claimed(w.db, batch, now, lock);
    forall k
      ensures k in st.flights <==> k in Members(batch)
      ensures k in st.flights ==> IsPresent(st.db, k, st.flights[k]) && st.flights[k].view != Unread
      ensures k in st.flights ==> st.flights[k].until == now + lock && st.flights[k].row && st.flights[k].occurrence
    {
      StartHas(w, session, batch, now, lock, k);
    }
    OthersPresent(w, session, batch, now, lock);
  }

  lemma OthersPresent(w: World, session: int, batch: seq<DeliveryKey>, now: int, lock: nat)
    requires CanClaim(w, session, Members(batch), now)
    ensures forall f :: f in w.inFlight ==> IsPresent(Claimed(w.db, batch, now, lock).db, f.delivery, w.inFlight[f])
  {
    hide CanClaim, Claim, Loaded, IsPresent, Members;
    forall f | f in w.inFlight ensures IsPresent(Claim(w.db, Members(batch), now, lock), f.delivery, w.inFlight[f]) {
      ClaimedPresent(w, session, Members(batch), now, lock, f);
    }
  }

  lemma ViewIsRead(db: Tables, k: DeliveryKey)
    ensures ViewOf(db, k) != Unread
  {
  }

  /** The first two steps. */
  lemma CycleStarts(w: World, session: int, batch: seq<DeliveryKey>, now: int, lock: nat, end: int)
    requires CanClaim(w, session, Members(batch), now) && now <= end
    ensures IsUnderWay(w, session, Claimed(w.db, batch, now, lock), batch, now, now + lock, end)
  {
    hide Claimed, SendingWorld, AllPresent, IsFull, Reaches, ReachesInTime, CanClaim, IsInTime, Members;
    StartIsPresent(w, session, batch, now, lock);
    LoadReaches(w, session, batch, now, lock, end);
  }

  lemma LoadReaches(w: World, session: int, batch: seq<DeliveryKey>, now: int, lock: nat, end: int)
    requires CanClaim(w, session, Members(batch), now) && now <= end
    ensures var v := SendingWorld(w, session, Claimed(w.db, batch, now, lock), now);
      Reaches(w, v) && (IsInTime(w, now + lock, end) ==> ReachesInTime(w, v))
  {
    hide CanClaim, Claimed, SendingWorld, ClaimedWorld, Legal, Next, Effect, Reaches, ReachesInTime, Claim, Members;
    var v, s := ClaimedWorld(w, session, Members(batch), now, lock), Step(now, Load(session));
    ClaimedParts(w, session, Members(batch), now, lock);
    LoadStarts(w, session, batch, now, lock);
    ClaimReaches(w, session, batch, now, lock, end);
    LegalLoad(v, s);
    ReachesNext(w, v, s);
    if IsInTime(w, now + lock, end) {
      ClaimedInTime(w, session, batch, now, lock, end);
      StepInTime(w, v, s, end);
    }
  }

  lemma ClaimReaches(w: World, session: int, batch: seq<DeliveryKey>, now: int, lock: nat, end: int)
    requires CanClaim(w, session, Members(batch), now) && now <= end
    ensures var v := ClaimedWorld(w, session, Members(batch), now, lock);
      Reaches(w, v) && (IsInTime(w, now + lock, end) ==> ReachesInTime(w, v))
  {
    var claim := Step(now, ClaimBatch(session, Members(batch), lock));
    ClaimedParts(w, session, Members(batch), now, lock);
    ClaimedIsNext(w, session, Members(batch), now, lock);
    ReachesItself(w);
    InTimeItself(w);
    hide Claim, Legal, Next, Reaches, ReachesInTime, ClaimedWorld, CanClaim;
    ReachesNext(w, w, claim);
    if IsInTime(w, now + lock, end) { StepInTime(w, w, claim, end); }
  }

  lemma ClaimedInTime(w: World, session: int, batch: seq<DeliveryKey>, now: int, lock: nat, end: int)
    requires CanClaim(w, session, Members(batch), now) && now <= end
    requires IsInTime(w, now + lock, end)
    ensures var v := ClaimedWorld(w, session, Members(batch), now, lock);
      forall f :: f in v.inFlight ==> end <= v.inFlight[f].until
  {
    var v := ClaimedWorld(w, session, Members(batch), now, lock);
    hide ClaimedWorld, CanClaim;
    forall f | f in v.inFlight ensures end <= v.inFlight[f].until {
      ClaimedFlight(w, session, Members(batch), now, lock, f);
    }
  }

  lemma {:induction false} CycleProceeds(w: World, session: int, batch: seq<DeliveryKey>,
                                         answers: DeliveryKey -> Answer,
                                         now: int, lock: nat, i: nat, end: int)
    requires CanClaim(w, session, Members(batch), now) && i <= |batch|
    requires forall i, j :: 0 <= i < j < |batch| ==> batch[i] != batch[j]
    requires InOrder(batch, answers, now) && end == ClockAt(batch, answers, now, |batch|)
    ensures IsUnderWay(w, session, DeliverAll(Claimed(w.db, batch, now, lock), batch[..i], answers), batch[i..],
                       ClockAt(batch, answers, now, i), now + lock, end)
  {
    hide *;
    var st := Claimed(w.db, batch, now, lock);
    FreshOfClaim(w, session, Members(batch), now);
    ClockOfRow(batch, answers, now, i);
    if i == 0 {
      CycleStarts(w, session, batch, now, lock, end);
      DeliverNone(st, answers);
      assert batch[..0] == [] && batch[0..] == batch;
    } else {
      CycleProceeds(w, session, batch, answers, now, lock, i - 1, end);
      OneMoreRow(w, session, st, batch, answers, i - 1, ClockAt(batch, answers, now, i - 1), now + lock, end);
    }
  }

  lemma FreshOfClaim(w: World, session: int, batch: set<DeliveryKey>, now: int)
    requires CanClaim(w, session, batch, now)
    ensures IsFreshSession(w, session) && Inv(w)
  {
    hide Inv, Claimable, IsFreshSession;
  }

  lemma ClockOfRow(batch: seq<DeliveryKey>, answers: DeliveryKey -> Answer, now: int, i: nat)
    requires InOrder(batch, answers, now) && i <= |batch|
    ensures ClockAt(batch, answers, now, 0) == now
    ensures ClockAt(batch, answers, now, i) <= ClockAt(batch, answers, now, |batch|)
    ensures i > 0 ==> ClockAt(batch, answers, now, i) == answers(batch[i - 1]).at
    ensures i > 0 ==> ClockAt(batch, answers, now, i - 1) <= ClockAt(batch, answers, now, i)
  {
    ClockAscends(batch, answers, now, i, |batch|);
    if i > 0 { ClockAscends(batch, answers, now, i - 1, i); }
  }

  lemma OneMoreRow(w: World, session: int, st: Sending, batch: seq<DeliveryKey>, answers: DeliveryKey -> Answer, i: nat,
                   clock: int, until: int, end: int)
    requires IsFreshSession(w, session) && i < |batch| && forall i, j :: 0 <= i < j < |batch| ==> batch[i] != batch[j]
    requires IsUnderWay(w, session, DeliverAll(st, batch[..i], answers), batch[i..], clock, until, end)
    requires clock <= answers(batch[i]).at <= end
    ensures IsUnderWay(w, session, DeliverAll(st, batch[..i + 1], answers), batch[i + 1..], answers(batch[i]).at, until,
                       end)
  {
    hide IsUnderWay, IsFreshSession, SettleOne, DeliverAll;
    assert batch[i..][0] == batch[i] && batch[i..][1..] == batch[i + 1..];
    DeliverNext(st, batch, i, answers);
    NextRow(w, session, DeliverAll(st, batch[..i], answers), batch[i..], clock, answers(batch[i]), until, end);
  }

  /** A dispatcher cycle as the service runs it is a run of the program, whoever else is sending: it
      keeps what every run keeps, and what only runs in time keep when it ends before any lease does. */
  lemma DispatcherCycleIsRun(w: World, session: int, ids: DeliveryKey -> int, limit: nat, batch: seq<DeliveryKey>,
                             answers: DeliveryKey -> Answer, now: int, lock: nat)
    requires Inv(w) && IsFreshSession(w, session) && w.clock <= now && IsClaim(w.db, ids, now, limit, Members(batch))
    requires forall i, j :: 0 <= i < j < |batch| ==> batch[i] != batch[j]
    requires InOrder(batch, answers, now)
    ensures var end := ClockAt(batch, answers, now, |batch|);
      var after := World(DeliverAll(Claimed(w.db, batch, now, lock), batch, answers).db, end, w.inFlight);
      && Reaches(w, after) && Inv(after)
      && (IsInTime(w, now + lock, end) ==>
             ReachesInTime(w, after) && (Certain(w) ==> Certain(after)) && (Ordered(w) ==> Ordered(after)))
  {
    hide Inv, IsClaim, IsFreshSession, Claimable, DeliverAll, Claimed, Members, Reaches, ReachesInTime, Certain,
         Ordered, InOrder, IsInTime;
    ClaimIsQueue(w.db, ids, now, limit, batch);
    CycleEnds(w, session, batch, answers, now, lock);
  }

  lemma ClaimIsQueue(db: Tables, ids: DeliveryKey -> int, now: int, limit: nat, batch: seq<DeliveryKey>)
    requires IsClaim(db, ids, now, limit, Members(batch))
    ensures forall k :: k in Members(batch) ==> k in db.deliveries && Claimable(db.deliveries[k], now)
  {
    hide Claimable, IsQueuedBefore, Members;
  }

  lemma CycleEnds(w: World, session: int, batch: seq<DeliveryKey>, answers: DeliveryKey -> Answer, now: int, lock: nat)
    requires CanClaim(w, session, Members(batch), now) && InOrder(batch, answers, now)
    requires forall i, j :: 0 <= i < j < |batch| ==> batch[i] != batch[j]
    ensures var end := ClockAt(batch, answers, now, |batch|);
      var after := World(DeliverAll(Claimed(w.db, batch, now, lock), batch, answers).db, end, w.inFlight);
      && Reaches(w, after) && Inv(after)
      && (IsInTime(w, now + lock, end) ==>
             ReachesInTime(w, after) && (Certain(w) ==> Certain(after)) && (Ordered(w) ==> Ordered(after)))
  {
    hide *;
    var end := ClockAt(batch, answers, now, |batch|);
    var st := DeliverAll(Claimed(w.db, batch, now, lock), batch, answers);
    CycleProceeds(w, session, batch, answers, now, lock, |batch|, end);
    assert batch[..|batch|] == batch && batch[|batch|..] == [];
    UnderWayIs(w, session, st, [], end, now + lock, end);
    FreshOfClaim(w, session, Members(batch), now);
    NothingLeft(w, session, st, end);
    ReachesKeepsInv(w, SendingWorld(w, session, st, end));
    if IsInTime(w, now + lock, end) {
      InTimeIsOrderly(w, SendingWorld(w, session, st, end));
      if Certain(w) { InTimeKeepsCertain(w, SendingWorld(w, session, st, end)); }
      if Ordered(w) { OrderedReach(w, SendingWorld(w, session, st, end)); }
    }
  }

  lemma UnderWayIs(w: World, session: int, st: Sending, rest: seq<DeliveryKey>, clock: int, until: int, end: int)
    requires IsUnderWay(w, session, st, rest, clock, until, end)
    ensures st.flights.Keys == Members(rest) && Reaches(w, SendingWorld(w, session, st, clock))
    ensures IsInTime(w, until, end) ==> ReachesInTime(w, SendingWorld(w, session, st, clock))
  {
    hide SendingWorld, Reaches, ReachesInTime, IsInTime, AllPresent, Members;
  }

  lemma NothingLeft(w: World, session: int, st: Sending, clock: int)
    requires st.flights.Keys == Members<DeliveryKey>([])
    ensures SendingWorld(w, session, st, clock) == World(st.db, clock, w.inFlight)
  {
    assert SessionKeys(session, st.flights.Keys) == {};
    assert SendingWorld(w, session, st, clock).inFlight == w.inFlight;
  }

  /** Flights whose rows are all still there are left as they were. */
  lemma SameFlights(w: World, s: Step)
    requires s.event.Materialize? || s.event.Reap?
    requires forall f :: f in w.inFlight ==> IsPresent(Next(w, s).db, f.delivery, w.inFlight[f])
    ensures Next(w, s) == World(Effect(w, s.now, s.event), s.now, w.inFlight)
  {
    hide Effect, Next;
    NextParts(w, s);
    forall f
      ensures f in Next(w, s).inFlight <==> f in w.inFlight
      ensures f in w.inFlight ==> Next(w, s).inFlight[f] == w.inFlight[f]
    {
      assert f in Next(w, s).inFlight <==> f in Flights(w, s.now, s.event).Keys;
      if f in w.inFlight { PresentStays(w.inFlight[f], f, Next(w, s).db); }
    }
    hide Flights, Present;
    SameWorld(Next(w, s), World(Effect(w, s.now, s.event), s.now, w.inFlight));
  }

  // ---------------------------------------------------------------------------------------------
  // planner.materialize
  // ---------------------------------------------------------------------------------------------

  ghost predicate AreDue(db: Tables, due: seq<int>, horizonEnd: int) {
    && (forall i :: 0 <= i < |due| ==> due[i] in db.reminders && PlanOf(db, due[i]).Due(horizonEnd))
    && (forall i, j :: 0 <= i < j < |due| ==> due[i] != due[j])
  }

  lemma MaterializeStep(w: World, s: Step)
    requires Inv(w) && s.event.Materialize? && s.now == w.clock
    requires s.event.reminder in w.db.reminders && PlanOf(w.db, s.event.reminder).Due(s.event.horizonEnd)
    ensures Legal(w, s)
    ensures Next(w, s) == World(MaterializeOne(w.db, s.event.reminder, s.event.horizonEnd, s.event.ttl), w.clock,
                                w.inFlight)
  {
    hide Next, Inv, MaterializeOne, Plan.Due, Flights;
    FlightsPresent(w);
    NextParts(w, s);
    forall f | f in w.inFlight ensures IsPresent(Next(w, s).db, f.delivery, w.inFlight[f]) {
      assert IsPresent(w.db, f.delivery, w.inFlight[f]);
      MaterializeRows(w.db, s.event.reminder, s.event.horizonEnd, s.event.ttl, f.delivery);
      PlannedOccurrence(w.db, s.event.reminder, s.event.horizonEnd, s.event.ttl, f.delivery.occurrence);
    }
    SameFlights(w, s);
  }

  /** What a planner cycle has done once it is through with these reminders. */
  ghost predicate IsPlannedFor(w: World, v: World, due: seq<int>, horizonEnd: int) {
    && Reaches(w, v)
    && (forall r :: r in w.db.reminders && r !in due ==> SamePlanIn(w.db, v.db, r))
    && (forall r :: r in w.db.reminders && r in due
           ==> r in v.db.reminders && PlanOf(v.db, r) == PlanOf(w.db, r).Cycle(horizonEnd))
  }

  /** A planner cycle is a run, and each due reminder gets one plan cycle whatever its place in the
      batch. */
  lemma {:induction false} PlannerCycleIsRun(w: World, due: seq<int>, horizonEnd: int, ttl: nat)
    requires Inv(w) && AreDue(w.db, due, horizonEnd)
    ensures IsPlannedFor(w, World(MaterializeAll(w.db, due, horizonEnd, ttl), w.clock, w.inFlight), due, horizonEnd)
    ensures Inv(World(MaterializeAll(w.db, due, horizonEnd, ttl), w.clock, w.inFlight))
  {
    hide Inv, MaterializeOne, Plan.Due, Plan.Cycle, SamePlanIn, Reaches, Legal, Next;
    if due == [] {
      MaterializeNone(w.db, horizonEnd, ttl);
      ReachesItself(w);
      forall r | r in w.db.reminders ensures SamePlanIn(w.db, w.db, r) { SameQueuePlan(w.db, w.db, r); }
    } else {
      var init, last := due[..|due| - 1], due[|due| - 1];
      PlannerCycleIsRun(w, init, horizonEnd, ttl);
      assert due == init + [last];
      OneMoreDue(w, World(MaterializeAll(w.db, init, horizonEnd, ttl), w.clock, w.inFlight), init, last, horizonEnd,
                 ttl);
    }
  }

  lemma OneMoreDue(w: World, v: World, init: seq<int>, last: int, horizonEnd: int, ttl: nat)
    requires Inv(v) && last in w.db.reminders && last !in init && PlanOf(w.db, last).Due(horizonEnd)
    requires IsPlannedFor(w, v, init, horizonEnd)
    ensures last in v.db.reminders
    ensures var after := World(MaterializeOne(v.db, last, horizonEnd, ttl), v.clock, v.inFlight);
      IsPlannedFor(w, after, init + [last], horizonEnd) && Inv(after)
  {
    hide Inv, MaterializeOne, Plan.Due, Plan.Cycle, Reaches, Legal, Next, PlanOf;
    assert SamePlanIn(w.db, v.db, last);
    var s := Step(v.clock, Materialize(last, horizonEnd, ttl));
    var after := World(MaterializeOne(v.db, last, horizonEnd, ttl), v.clock, v.inFlight);
    MaterializeStep(v, s);
    ReachesNext(w, v, s);
    StepKeepsInv(v, s);
    OwnersExist(v, last);
    MaterializedPlan(v.db, last, horizonEnd, ttl, last);
    forall r | r in w.db.reminders && r != last ensures SamePlanIn(v.db, after.db, r) {
      if r in init { assert r in v.db.reminders; } else { assert SamePlanIn(w.db, v.db, r); }
      MaterializedPlan(v.db, last, horizonEnd, ttl, r);
    }
  }

  lemma OwnersExist(w: World, r: int)
    requires Inv(w) && r in w.db.reminders
    ensures w.db.reminders[r].owner in w.db.users
  {
    hide RowsOk, OccurrencesOk, FlightsOk, Covered, Budgeted;
  }

  // ---------------------------------------------------------------------------------------------
  // Catching up on the tables
  // ---------------------------------------------------------------------------------------------

  ghost predicate ListsReminders(db: Tables, ids: seq<int>) {
    && StrictlyAscending(ids)
    && forall r :: r in db.reminders <==> r in ids
  }

  lemma Listed(db: Tables, ids: seq<int>, i: nat)
    requires ListsReminders(db, ids) && i < |ids|
    ensures ids[i] in db.reminders
  {
    var r := ids[i];
    assert r in ids;
  }

  ghost function FleetOf(db: Tables, ids: seq<int>): (fleet: Fleet)
    requires ListsReminders(db, ids)
    ensures |fleet| == |ids| && forall i :: 0 <= i < |ids| ==> ids[i] in db.reminders && fleet[i] == PlanOf(db, ids[i])
  {
    forall i | 0 <= i < |ids| ensures ids[i] in db.reminders { Listed(db, ids, i); }
    seq(|ids|, i requires 0 <= i < |ids| => PlanOf(db, ids[i]))
  }

  function PlacesOf(ids: seq<int>, due: seq<int>): set<int> {
    set i | 0 <= i < |ids| && ids[i] in due
  }

  /** What `due_for_planning` hands to a cycle, in any order. */
  ghost predicate IsPlanBatch(db: Tables, ids: seq<int>, horizonEnd: int, limit: nat, due: seq<int>) {
    && ListsReminders(db, ids) && IsBatch(FleetOf(db, ids), horizonEnd, limit, PlacesOf(ids, due))
    && (forall r :: r in due ==> r in ids)
    && (forall i, j :: 0 <= i < j < |due| ==> due[i] != due[j])
  }

  lemma BatchIsDue(db: Tables, ids: seq<int>, horizonEnd: int, limit: nat, due: seq<int>)
    requires IsPlanBatch(db, ids, horizonEnd, limit, due)
    ensures AreDue(db, due, horizonEnd)
  {
    hide Plan.Due, PlannedBefore;
    forall i | 0 <= i < |due| ensures due[i] in db.reminders && PlanOf(db, due[i]).Due(horizonEnd) {
      var r := due[i];
      assert r in due;
      var j :| 0 <= j < |ids| && ids[j] == r;
      assert j in PlacesOf(ids, due);
      assert j in DueIn(FleetOf(db, ids), horizonEnd);
    }
  }

  lemma {:induction false} AllKeepReminders(db: Tables, due: seq<int>, horizonEnd: int, ttl: nat)
    ensures MaterializeAll(db, due, horizonEnd, ttl).reminders.Keys == db.reminders.Keys
  {
    hide MaterializeOne;
    if due != [] {
      var init, last := due[..|due| - 1], due[|due| - 1];
      AllKeepReminders(db, init, horizonEnd, ttl);
      var before := MaterializeAll(db, init, horizonEnd, ttl);
      if last in before.reminders { MaterializeKeepsReminders(before, last, horizonEnd, ttl); }
    }
  }

  lemma StillListed(a: Tables, b: Tables, ids: seq<int>)
    requires ListsReminders(a, ids) && b.reminders.Keys == a.reminders.Keys
    ensures ListsReminders(b, ids)
  {
    forall r ensures r in b.reminders <==> r in ids {
      assert r in b.reminders <==> r in b.reminders.Keys;
      assert r in a.reminders <==> r in a.reminders.Keys;
    }
  }

  /** One cycle on the tables is one cycle of the fleet of plans. */
  lemma CycleOnTables(w: World, ids: seq<int>, due: seq<int>, horizonEnd: int, limit: nat, ttl: nat)
    requires Inv(w) && IsPlanBatch(w.db, ids, horizonEnd, limit, due)
    ensures var after := World(MaterializeAll(w.db, due, horizonEnd, ttl), w.clock, w.inFlight);
      && Inv(after) && Reaches(w, after) && ListsReminders(after.db, ids)
      && IsCycle(FleetOf(w.db, ids), FleetOf(after.db, ids), horizonEnd, limit)
  {
    hide Inv, Reaches, MaterializeAll, AreDue, IsBatch, Plan.Cycle, ListsReminders, FleetOf, PlanOf;
    var after := World(MaterializeAll(w.db, due, horizonEnd, ttl), w.clock, w.inFlight);
    BatchIsDue(w.db, ids, horizonEnd, limit, due);
    PlannerCycleIsRun(w, due, horizonEnd, ttl);
    AllKeepReminders(w.db, due, horizonEnd, ttl);
    StillListed(w.db, after.db, ids);
    var fleet, next := FleetOf(w.db, ids), FleetOf(after.db, ids);
    forall i | 0 <= i < |ids| ensures next[i] == Materialized(fleet, PlacesOf(ids, due), horizonEnd)[i] {
      Listed(w.db, ids, i);
      if ids[i] !in due { assert SamePlanIn(w.db, after.db, ids[i]); }
    }
    assert next == Materialized(fleet, PlacesOf(ids, due), horizonEnd);
  }

  /** Consecutive cycles on the tables, under one horizon. */
  ghost predicate ArePlanned(dbs: seq<Tables>, dues: seq<seq<int>>, ids: seq<int>, horizonEnd: int, limit: nat,
                             ttl: nat) {
    && |dbs| == |dues| + 1
    && forall i :: 0 <= i < |dues| ==>
         IsPlanBatch(dbs[i], ids, horizonEnd, limit, dues[i])
         && dbs[i + 1] == MaterializeAll(dbs[i], dues[i], horizonEnd, ttl)
  }

  lemma {:induction false} PlannedSoFar(w: World, dbs: seq<Tables>, dues: seq<seq<int>>, ids: seq<int>, horizonEnd: int,
                                        limit: nat, ttl: nat, i: nat)
    requires Inv(w) && ListsReminders(w.db, ids) && ArePlanned(dbs, dues, ids, horizonEnd, limit, ttl)
    requires dbs[0] == w.db && i < |dbs|
    ensures Inv(World(dbs[i], w.clock, w.inFlight)) && ListsReminders(dbs[i], ids)
    ensures i > 0 ==> ListsReminders(dbs[i - 1], ids)
                      && IsCycle(FleetOf(dbs[i - 1], ids), FleetOf(dbs[i], ids), horizonEnd, limit)
  {
    hide Inv, IsPlanBatch, MaterializeAll, ListsReminders, FleetOf, IsCycle, Reaches;
    if i > 0 {
      PlannedSoFar(w, dbs, dues, ids, horizonEnd, limit, ttl, i - 1);
      assert dbs[i - 1 + 1] == MaterializeAll(dbs[i - 1], dues[i - 1], horizonEnd, ttl);
      CycleOnTables(World(dbs[i - 1], w.clock, w.inFlight), ids, dues[i - 1], horizonEnd, limit, ttl);
    }
  }

  ghost function FleetsOf(dbs: seq<Tables>, ids: seq<int>): (fleets: seq<Fleet>)
    requires forall i :: 0 <= i < |dbs| ==> ListsReminders(dbs[i], ids)
    ensures |fleets| == |dbs| && forall i :: 0 <= i < |dbs| ==> fleets[i] == FleetOf(dbs[i], ids)
  {
    seq(|dbs|, i requires 0 <= i < |dbs| => FleetOf(dbs[i], ids))
  }

  /** The planner catches up on the tables, too: as many cycles as there is work leave no reminder due. */
  lemma TablesCatchUp(w: World, dbs: seq<Tables>, dues: seq<seq<int>>, ids: seq<int>, horizonEnd: int, limit: nat,
                      ttl: nat)
    requires Inv(w) && ListsReminders(w.db, ids) && ArePlanned(dbs, dues, ids, horizonEnd, limit, ttl)
    requires dbs[0] == w.db && limit >= 1 && |dues| >= TotalWork(FleetOf(w.db, ids), horizonEnd)
    ensures var last := dbs[|dues|];
      forall r :: r in last.reminders ==> !PlanOf(last, r).Due(horizonEnd)
  {
    hide Inv, ListsReminders, FleetOf, FleetsOf, IsCycle, TotalWork, PlanOf, Plan.Due, DueIn, IsPlanBatch,
         MaterializeAll;
    forall i | 0 <= i < |dbs| ensures ListsReminders(dbs[i], ids) {
      PlannedSoFar(w, dbs, dues, ids, horizonEnd, limit, ttl, i);
    }
    var fleets := FleetsOf(dbs, ids);
    forall i, j | 0 <= i && j == i + 1 && j < |fleets| ensures IsCycle(fleets[i], fleets[j], horizonEnd, limit) {
      PlannedSoFar(w, dbs, dues, ids, horizonEnd, limit, ttl, j);
    }
    PlannerCatchesUp(fleets, horizonEnd, limit);
    NothingDue(dbs[|dues|], ids, horizonEnd);
  }

  lemma NothingDue(db: Tables, ids: seq<int>, horizonEnd: int)
    requires ListsReminders(db, ids) && DueIn(FleetOf(db, ids), horizonEnd) == {}
    ensures forall r :: r in db.reminders ==> !PlanOf(db, r).Due(horizonEnd)
  {
    hide Plan.Due;
    forall r | r in db.reminders ensures !PlanOf(db, r).Due(horizonEnd) {
      var i :| 0 <= i < |ids| && ids[i] == r;
      assert i !in DueIn(FleetOf(db, ids), horizonEnd);
    }
  }

  // ---------------------------------------------------------------------------------------------
  // reaper.sweep
  // ---------------------------------------------------------------------------------------------

  /** And a sweep is one step. */
  lemma SweepIsStep(w: World, now: int, batch: seq<OccurrenceKey>, candidates: seq<DeliveryKey>)
    requires Inv(w) && w.clock <= now
    requires forall i, j :: 0 <= i < j < |batch| ==> batch[i] != batch[j]
    ensures var after := World(Sweep(w.db, Members(OverdueOf(w.db, batch, now)), Members(candidates), now), now,
                               w.inFlight);
      Reaches(w, after) && Inv(after)
  {
    hide Sweep, OverdueOf, Inv, Next, Reaches, Flights;
    var overdue := Members(OverdueOf(w.db, batch, now));
    var s := Step(now, Reap(overdue, Members(candidates)));
    OverdueAre(w.db, batch, now);
    assert Legal(w, s);
    hide Legal;
    FlightsPresent(w);
    NextParts(w, s);
    SweepKeys(w.db, overdue, Members(candidates), now);
    forall f | f in w.inFlight ensures IsPresent(Next(w, s).db, f.delivery, w.inFlight[f]) {
      assert IsPresent(w.db, f.delivery, w.inFlight[f]);
      assert f.delivery in w.db.deliveries <==> f.delivery in Next(w, s).db.deliveries.Keys;
    }
    SameFlights(w, s);
    StepKeepsInv(w, s);
    ReachesItself(w);
    ReachesNext(w, w, s);
  }
}
