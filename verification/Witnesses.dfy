/** Runs from empty tables in which the program does what it says it does not. */
module Witnesses {
  import opened Zones
  import opened Ordering
  import opened Schedules
  import opened Recurrence
  import opened Planning
  import opened QuietHours
  import opened Contracts
  import opened Reactions
  import opened Store
  import opened Runs
  import opened Invariants
  import opened Guarantees
  import opened Journal
  import opened Findings
  import opened Services
  import opened Cycles

  // ---------------------------------------------------------------------------------------------
  // One reminder, every midnight of UTC
  // ---------------------------------------------------------------------------------------------

  const UTC: Zone := RawZone([], [0])

  const MIDNIGHTS: Schedule := Daily([0], 1)

  const SOMEBODY: User := User(Quiet(UTC, None, None), false)

  const FIRST: OccurrenceKey := OccurrenceKey(7, 0)

  const OWNERS: DeliveryKey := DeliveryKey(FIRST, 1)

  function Everyday(status: ReminderStatus, plannedUntil: Option<int>, firedCount: int): Reminder {
    Reminder(1, MIDNIGHTS, UTC, 0, None, None, 10, None, 0, status, plannedUntil, firedCount)
  }

  function TheOwner(): map<RecipientKey, Recipient> {
    map[RecipientKey(7, 1) := Recipient(Owner, Some(-3_600_000_000))]
  }

  lemma UtcShowsItself(t: int)
    ensures Local(UTC, t) == t && ToUtc(UTC, t) == t
  {
  }

  lemma FiresAtMidnights(t: int)
    ensures Fires(MIDNIGHTS, UTC, t) <==> t % DAY == 0
  {
    hide ToUtc;
    forall day ensures MomentsOfDay(MIDNIGHTS, UTC, day) == [Combine(day, 0)] {
      UtcShowsItself(Combine(day, 0));
    }
    assert t % DAY == 0 ==> t in MomentsOfDay(MIDNIGHTS, UTC, t / DAY);
  }

  lemma OneMidnight(limit: int)
    requires limit > 1
    ensures Expansion(MIDNIGHTS, UTC, -1, 3_600_000_000, limit) == [0]
  {
    hide Expansion, ToUtc, Local, CapHolds, IsExpansion, MomentsOfDay;
    TenYearsWithinCap(UTC, -1, 3_600_000_000);
    ExpansionIsExact(MIDNIGHTS, UTC, -1, 3_600_000_000, limit);
    OnlyZero(Expansion(MIDNIGHTS, UTC, -1, 3_600_000_000, limit), limit);
  }

  lemma OnlyZero(moments: seq<int>, limit: int)
    requires limit > 1 && IsExpansion(MIDNIGHTS, UTC, -1, 3_600_000_000, limit, moments)
    ensures moments == [0]
  {
    hide Fires;
    FiresAtMidnights(0);
    forall t | t in moments ensures t == 0 {
      FiresAtMidnights(t);
    }
    AscendingSize(moments);
    SubsetIsSmaller(set t | t in moments, {0});
  }

  lemma PlannedMoments(db: Tables)
    requires 7 in db.reminders && db.reminders[7] == Everyday(Active, None, db.reminders[7].firedCount)
    ensures PlanOf(db, 7).Due(3_600_000_000)
    ensures PlanOf(db, 7).Moments(3_600_000_000) == [0]
    ensures var q := PlanOf(db, 7).Cycle(3_600_000_000);
      q.plannedUntil == Some(3_600_000_000) && q.active && q.done == Scheduled(db, 7) + {0}
  {
    OneMidnight(500);
    hide Expansion;
    assert (set t | t in [0]) == {0};
  }

  // ---------------------------------------------------------------------------------------------
  // The first days of the program
  // ---------------------------------------------------------------------------------------------

  function Rows(row: Reminder, recipients: map<RecipientKey, Recipient>, status: OccurrenceStatus,
                deliveries: map<DeliveryKey, Delivery>): Tables
  {
    Tables(map[1 := SOMEBODY, 2 := SOMEBODY], map[7 := row], recipients,
           map[FIRST := Occurrence(0, status, 0, 86_400_000_000)], deliveries)
  }

  function NoRows(): World {
    World(Tables(map[], map[], map[], map[], map[]), -3_600_000_000, map[])
  }

  function Joined(): World {
    World(Tables(map[1 := SOMEBODY, 2 := SOMEBODY], map[], map[], map[], map[]), -3_600_000_000, map[])
  }

  function Created(): World {
    World(Tables(map[1 := SOMEBODY, 2 := SOMEBODY], map[7 := Everyday(Active, None, 0)], TheOwner(), map[], map[]),
          -3_600_000_000, map[])
  }

  /** Planned for an hour past the first midnight, an hour before it. */
  function Planned(): World {
    World(Rows(Everyday(Active, Some(3_600_000_000), 1), TheOwner(), OccPending, map[OWNERS := FreshDelivery(0)]),
          -3_600_000_000, map[])
  }

  /** A step with nobody sending. */
  lemma CalmStep(w: World, s: Step)
    requires w.inFlight == map[] && !s.event.ClaimBatch?
    ensures Next(w, s) == World(Effect(w, s.now, s.event), s.now, map[]) && Orderly(w, s)
  {
    hide Effect;
  }

  lemma ReachesJoined()
    ensures ReachesOrderly(NoRows(), Joined())
  {
    var first, second := Step(-3_600_000_000, AddUser(1, SOMEBODY)), Step(-3_600_000_000, AddUser(2, SOMEBODY));
    OrderlyItself(NoRows());
    hide ReachesOrderly, Orderly;
    CalmStep(NoRows(), first);
    OrderlyNext(NoRows(), NoRows(), first);
    CalmStep(Next(NoRows(), first), second);
    OrderlyNext(NoRows(), Next(NoRows(), first), second);
  }

  lemma ReachesCreated()
    ensures ReachesOrderly(NoRows(), Created())
  {
    hide ReachesOrderly, Orderly;
    var s := Step(-3_600_000_000, Create(7, Everyday(Active, None, 0)));
    ReachesJoined();
    CalmStep(Joined(), s);
    OrderlyNext(NoRows(), Joined(), s);
  }

  lemma FirstRows(db: Tables)
    requires db == Created().db
    ensures AcceptedUsers(db, 7) == {1} && Scheduled(db, 7) == {} && KeysOf(7, [0]) == {FIRST}
    ensures InsertOccurrences(db.occurrences, 7, [0], SOMEBODY.quiet, 86_400_000_000) == Planned().db.occurrences
  {
    assert KeysOf(7, [0]) == {FIRST};
    assert RecipientKey(7, 1) in db.recipients;
    assert AcceptedUsers(db, 7) == {1};
    assert InsertOccurrences(db.occurrences, 7, [0], SOMEBODY.quiet, 86_400_000_000) == Planned().db.occurrences;
  }

  lemma FirstDeliveries(rows: map<DeliveryKey, Delivery>, occurrences: map<OccurrenceKey, Occurrence>)
    requires FIRST in occurrences && occurrences[FIRST].fireAt == 0
    ensures InsertDeliveries(rows, occurrences, {FIRST}, {1})
            == if OWNERS in rows then rows else rows[OWNERS := FreshDelivery(0)]
  {
    assert (set o, u | o in {FIRST} && u in {1} :: DeliveryKey(o, u)) == {OWNERS};
  }

  lemma FirstPlan()
    ensures MaterializeOne(Created().db, 7, 3_600_000_000, 86_400_000_000) == Planned().db
  {
    hide Plan.Moments, Plan.Cycle, Plan.Due, InsertOccurrences, InsertDeliveries, AcceptedUsers, Scheduled, KeysOf;
    var db := Created().db;
    PlannedMoments(db);
    FirstRows(db);
    FirstDeliveries(map[], Planned().db.occurrences);
  }

  lemma ReachesPlanned()
    ensures ReachesOrderly(NoRows(), Planned())
  {
    hide ReachesOrderly, Orderly, MaterializeOne, Plan.Due, Plan.Moments, Plan.Cycle;
    var s := Step(-3_600_000_000, Materialize(7, 3_600_000_000, 86_400_000_000));
    ReachesCreated();
    FirstPlan();
    PlannedMoments(Created().db);
    CalmStep(Created(), s);
    OrderlyNext(NoRows(), Created(), s);
  }

  /** The owner of something still ahead, leaving: they stay a recipient and lose what waits for them. */
  lemma OwnerLeaves()
    ensures IsEmpty(NoRows()) && ReachesOrderly(NoRows(), Planned())
    ensures Covered(Planned().db, Planned().clock) && !Covered(Leave(Planned().db, 1, 7), Planned().clock)
  {
    hide ReachesOrderly, Orderly, Leave, IsEmpty, Covered, RowsOk, OccurrencesOk, FlightsOk, References, Budgeted;
    NothingYet();
    ReachesPlanned();
    EmptyIsOk(NoRows());
    OrderlyIsRun(NoRows(), Planned());
    ReachesKeepsInv(NoRows(), Planned());
    assert FIRST in Planned().db.occurrences;
    LeaveKeepsCoverExactly(Planned(), 1, 7);
  }

  lemma NothingYet()
    ensures IsEmpty(NoRows())
  {
  }

  // ---------------------------------------------------------------------------------------------
  // One row on its way
  // ---------------------------------------------------------------------------------------------

  function Sole(session: int, k: DeliveryKey, flight: Flight): map<FlightKey, Flight> {
    map[FlightKey(session, k) := flight]
  }

  lemma SoleIsOrderly(w: World, s: Step, session: int, k: DeliveryKey, flight: Flight)
    requires w.inFlight == Sole(session, k, flight) && s.now <= flight.until && !s.event.Tap?
    ensures Orderly(w, s)
  {
  }

  lemma ClaimSole(w: World, s: Step, k: DeliveryKey)
    requires s.event.ClaimBatch? && s.event.batch == {k}
    requires w.inFlight == map[] && w.clock <= s.now && k in w.db.deliveries && Claimable(w.db.deliveries[k], s.now)
    requires k.occurrence in w.db.occurrences
    ensures Legal(w, s) && Orderly(w, s)
    ensures Next(w, s) == World(Claim(w.db, {k}, s.now, s.event.lockFor), s.now,
                                Sole(s.event.session, k,
                                     Flight(w.db.deliveries[k].attempts + 1, s.now + s.event.lockFor, Unread, true,
                                            true)))
  {
    hide Next, Effect, Legal, Flights, Claim, Claimable;
    LegalClaim(w, s);
    NextParts(w, s);
    ClaimStands(w.db, k, s.now, s.event.lockFor);
    forall f
      ensures f in Next(w, s).inFlight <==> f == FlightKey(s.event.session, k)
      ensures f == FlightKey(s.event.session, k) ==>
        Next(w, s).inFlight[f] == Flight(w.db.deliveries[k].attempts + 1, s.now + s.event.lockFor, Unread, true, true)
    {
      ClaimFlights(w, s, f);
      assert f in Next(w, s).inFlight <==> f in Flights(w, s.now, s.event).Keys;
    }
    SameWorld(Next(w, s), World(Claim(w.db, {k}, s.now, s.event.lockFor), s.now,
              Sole(s.event.session, k,
                   Flight(w.db.deliveries[k].attempts + 1, s.now + s.event.lockFor, Unread, true, true))));
  }

  lemma ClaimStands(db: Tables, k: DeliveryKey, now: int, lockFor: int)
    requires k in db.deliveries && k.occurrence in db.occurrences
    ensures var after := Claim(db, {k}, now, lockFor);
      k in after.deliveries && k.occurrence in after.occurrences
  {
    hide ClaimRow;
  }

  lemma LoadSole(w: World, s: Step, k: DeliveryKey, flight: Flight)
    requires s.event.Load? && w.clock <= s.now <= flight.until && w.inFlight == Sole(s.event.session, k, flight)
    requires flight.view == Unread && flight.row && flight.occurrence && k in w.db.deliveries
    requires k.occurrence in w.db.occurrences
    ensures Legal(w, s) && Orderly(w, s)
    ensures Next(w, s) == World(w.db, s.now, Sole(s.event.session, k, flight.(view := ViewOf(w.db, k))))
  {
    hide Next, Effect, Legal, ViewOf;
    LegalLoad(w, s);
    NextParts(w, s);
    forall f
      ensures f in Next(w, s).inFlight <==> f == FlightKey(s.event.session, k)
      ensures f == FlightKey(s.event.session, k) ==> Next(w, s).inFlight[f] == flight.(view := ViewOf(w.db, k))
    {
      assert f in Next(w, s).inFlight <==> f in Flights(w, s.now, s.event).Keys;
    }
    SameWorld(Next(w, s), World(w.db, s.now, Sole(s.event.session, k, flight.(view := ViewOf(w.db, k)))));
  }

  lemma AttemptSole(w: World, s: Step, k: DeliveryKey, flight: Flight)
    requires s.event.Attempt? && s.event.key == k && w.clock <= s.now <= flight.until
    requires w.inFlight == Sole(s.event.session, k, flight) && flight.view != Unread
    ensures Legal(w, s) && Orderly(w, s)
    ensures Next(w, s) == World(DeliverOne(w.db, k, flight, s.now, s.event.result), s.now, map[])
  {
    hide Next, Effect, Legal, DeliverOne, Refreshed;
    LegalAttempt(w, s);
    NextParts(w, s);
    forall f ensures f !in Next(w, s).inFlight {
      assert f in Next(w, s).inFlight <==> f in Flights(w, s.now, s.event).Keys;
    }
    SameWorld(Next(w, s), World(DeliverOne(w.db, k, flight, s.now, s.event.result), s.now, map[]));
  }

  function OwnersRow(recipients: map<RecipientKey, Recipient>, status: OccurrenceStatus, d: Delivery): Tables {
    Rows(Everyday(Active, Some(3_600_000_000), 1), recipients, status, map[OWNERS := d])
  }

  function LeasedRow(until: int): Delivery {
    Delivery(Pending, 1, 0, Some(until), None, None, None, [])
  }

  /** Claimed and read at `now`, for a minute. */
  function Sending(now: int): World {
    World(OwnersRow(TheOwner(), OccPending, LeasedRow(now + 60_000_000)), now,
          Sole(100, OWNERS, Flight(1, now + 60_000_000, Seen(OccPending, false), true, true)))
  }

  function Unloaded(now: int): World {
    World(OwnersRow(TheOwner(), OccPending, LeasedRow(now + 60_000_000)), now,
          Sole(100, OWNERS, Flight(1, now + 60_000_000, Unread, true, true)))
  }

  lemma PlannedIsClaimed(now: int)
    requires now >= 0
    ensures Legal(Planned(), Step(now, ClaimBatch(100, {OWNERS}, 60_000_000)))
    ensures Orderly(Planned(), Step(now, ClaimBatch(100, {OWNERS}, 60_000_000)))
    ensures Next(Planned(), Step(now, ClaimBatch(100, {OWNERS}, 60_000_000))) == Unloaded(now)
  {
    hide Legal, Next, Orderly;
    ClaimSole(Planned(), Step(now, ClaimBatch(100, {OWNERS}, 60_000_000)), OWNERS);
    assert Claim(Planned().db, {OWNERS}, now, 60_000_000).deliveries == map[OWNERS := LeasedRow(now + 60_000_000)];
  }

  lemma ReachesSending(now: int)
    requires now >= 0
    ensures ReachesOrderly(NoRows(), Sending(now))
  {
    hide ReachesOrderly, Orderly, Legal, Next;
    ReachesPlanned();
    PlannedIsClaimed(now);
    OrderlyNext(NoRows(), Planned(), Step(now, ClaimBatch(100, {OWNERS}, 60_000_000)));
    LoadSole(Unloaded(now), Step(now, Load(100)), OWNERS, Flight(1, now + 60_000_000, Unread, true, true));
    OrderlyNext(NoRows(), Unloaded(now), Step(now, Load(100)));
  }

  function SentRow(): Delivery {
    Delivery(Sent, 0, 0, None, Some(1_000_000), None, None, [])
  }

  /** A second after the first midnight the message is out. */
  function Delivered(): World {
    World(OwnersRow(TheOwner(), OccSent, SentRow()), 1_000_000, map[])
  }

  lemma ReachesDelivered()
    ensures ReachesOrderly(NoRows(), Delivered())
  {
    hide ReachesOrderly, Orderly, Legal, Next;
    var s := Step(1_000_000, Attempt(100, OWNERS, Accepted));
    ReachesSending(0);
    AttemptSole(Sending(0), s, OWNERS, Flight(1, 60_000_000, Seen(OccPending, false), true, true));
    assert DeliverOne(Sending(0).db, OWNERS, Flight(1, 60_000_000, Seen(OccPending, false), true, true), 1_000_000,
                      Accepted) == Delivered().db;
    OrderlyNext(NoRows(), Sending(0), s);
  }

  // ---------------------------------------------------------------------------------------------
  // A session that has read an occurrence the reaper closes
  // ---------------------------------------------------------------------------------------------

  /** Claimed two days late, and expired before it is sent. */
  function Expired(): World {
    World(OwnersRow(TheOwner(), OccExpired, LeasedRow(172_860_000_000)), 172_801_000_000,
          Sole(100, OWNERS, Flight(1, 172_860_000_000, Seen(OccPending, false), true, true)))
  }

  lemma ReachesExpired()
    ensures ReachesOrderly(NoRows(), Expired())
  {
    hide ReachesOrderly, Orderly, Sweep;
    var w, s := Sending(172_800_000_000), Step(172_801_000_000, Reap({FIRST}, {}));
    ReachesSending(172_800_000_000);
    ExpiredRows();
    SoleIsOrderly(w, s, 100, OWNERS, Flight(1, 172_860_000_000, Seen(OccPending, false), true, true));
    OrderlyNext(NoRows(), w, s);
    hide Effect, Next, Legal;
    NextParts(w, s);
    SameWorld(Next(w, s), Expired());
  }

  lemma ExpiredRows()
    ensures Sweep(Sending(172_800_000_000).db, {FIRST}, {}, 172_801_000_000) == Expired().db
  {
    hide Expire;
    JustExpired(Sending(172_800_000_000).db);
    NothingElseSwept(Sending(172_800_000_000).db, Expired().db, 172_801_000_000);
  }

  lemma JustExpired(db: Tables)
    requires db == OwnersRow(TheOwner(), OccPending, LeasedRow(172_860_000_000))
    ensures Expire(db, {FIRST}, 172_801_000_000) == OwnersRow(TheOwner(), OccExpired, LeasedRow(172_860_000_000))
  {
    var after := Expire(db, {FIRST}, 172_801_000_000);
    assert after.occurrences == map[FIRST := Occurrence(0, OccExpired, 0, 86_400_000_000)];
    assert after.deliveries == map[OWNERS := LeasedRow(172_860_000_000)];
  }

  /** A sweep without candidates or leases that have run out. */
  lemma NothingElseSwept(db: Tables, after: Tables, now: int)
    requires Expire(db, {FIRST}, now) == after
    requires forall k :: k in after.deliveries ==>
               after.deliveries[k].lockedUntil.None? || now <= after.deliveries[k].lockedUntil.value
    ensures Sweep(db, {FIRST}, {}, now) == after
  {
    hide Expire;
    RepeatNone(after, now);
    assert ReleaseStaleLocks(after, now).deliveries == after.deliveries;
  }

  /** The worker sends all the same, and the closed occurrence reopens. */
  lemma ClosedReopens()
    ensures IsEmpty(NoRows()) && ReachesOrderly(NoRows(), Expired()) && IsClosedIn(Expired(), FIRST)
    ensures !StaysClosed(Expired(), FIRST) && !StaysSilent(Expired(), FIRST)
  {
    hide ReachesOrderly, Orderly, StaysClosed, StaysSilent;
    NothingYet();
    ReachesExpired();
    ClosedExactly(Expired(), FIRST);
    SilentExactly(Expired(), FIRST);
    assert FlightKey(100, OWNERS) in Expired().inFlight;
  }

  // ---------------------------------------------------------------------------------------------
  // An answer while the row is being sent again
  // ---------------------------------------------------------------------------------------------

  lemma SoleTapCloses(deliveries: map<DeliveryKey, Delivery>)
    requires deliveries.Keys == {OWNERS}
    ensures AllTerminal(deliveries, FIRST) <==> IsTerminal(deliveries[OWNERS].status)
  {
    assert OWNERS in deliveries.Keys;
  }

  function SnoozedRow(attempts: nat, lockedUntil: Option<int>): Delivery {
    Delivery(Snoozed, attempts, 602_000_000, lockedUntil, Some(1_000_000), None, Some(602_000_000),
             [Action(SnoozeAction, 2_000_000)])
  }

  /** Snoozed for ten minutes a second after it came. */
  function Postponed(): World {
    World(OwnersRow(TheOwner(), OccSent, SnoozedRow(0, None)), 2_000_000, map[])
  }

  /** Claimed again some time after they are over. */
  function Resending(at: int, view: View): World {
    World(OwnersRow(TheOwner(), OccSent, SnoozedRow(1, Some(at + 60_000_000))), at,
          Sole(101, OWNERS, Flight(1, at + 60_000_000, view, true, true)))
  }

  lemma ReachesPostponed()
    ensures ReachesOrderly(NoRows(), Postponed())
  {
    hide ReachesOrderly, Orderly, AllTerminal;
    var s := Step(2_000_000, Tap(OWNERS, 1, SnoozeAction));
    ReachesDelivered();
    CalmStep(Delivered(), s);
    OrderlyNext(NoRows(), Delivered(), s);
    hide Next;
    TapPostpones();
  }

  lemma TapPostpones()
    ensures React(Delivered().db, OWNERS, 1, SnoozeAction, 2_000_000) == (Postponed().db, Applied)
  {
    hide AllTerminal;
    var d := ReactRow(SentRow(), SnoozeAction, Reaction(Snoozed, None, Some(602_000_000)), 2_000_000);
    assert Shift(SOMEBODY.quiet, 602_000_000) == 602_000_000;
    assert d == SnoozedRow(0, None);
    assert Delivered().db.deliveries[OWNERS := d] == Postponed().db.deliveries;
  }

  lemma ReachesResending(at: int)
    requires at >= 602_000_000
    ensures ReachesOrderly(NoRows(), Resending(at, Seen(OccSent, false)))
  {
    hide ReachesOrderly, Orderly, Legal, Next;
    var claim, load := Step(at, ClaimBatch(101, {OWNERS}, 60_000_000)), Step(at, Load(101));
    ReachesPostponed();
    ClaimSole(Postponed(), claim, OWNERS);
    assert Claim(Postponed().db, {OWNERS}, at, 60_000_000).deliveries
           == map[OWNERS := SnoozedRow(1, Some(at + 60_000_000))];
    OrderlyNext(NoRows(), Postponed(), claim);
    LoadSole(Resending(at, Unread), load, OWNERS, Flight(1, at + 60_000_000, Unread, true, true));
    OrderlyNext(NoRows(), Resending(at, Unread), load);
  }

  /** The owner answers while the worker is on its way: the answer counts, and does not last. */
  lemma AnswerIsLost()
    ensures var w, s := Resending(602_000_000, Seen(OccSent, false)), Step(603_000_000, Tap(OWNERS, 1, DoneAction));
      && IsEmpty(NoRows()) && ReachesOrderly(NoRows(), w) && Legal(w, s)
      && React(w.db, OWNERS, 1, DoneAction, 603_000_000).1 == Applied
      && IsAnswered(Next(w, s), OWNERS) && !AnswerHolds(Next(w, s), OWNERS)
  {
    hide ReachesOrderly, Orderly, AllTerminal, AnswerHolds, IsAnswered, Next;
    var w, s := Resending(602_000_000, Seen(OccSent, false)), Step(603_000_000, Tap(OWNERS, 1, DoneAction));
    NothingYet();
    ReachesResending(602_000_000);
    assert FlightKey(101, OWNERS) in w.inFlight;
    AnswerSticksExactly(w, s);
  }

  // ---------------------------------------------------------------------------------------------
  // A silence that is missed, and one that is recorded twice
  // ---------------------------------------------------------------------------------------------

  /** Claimed again seconds before its occurrence expires, and not yet sent when it does. */
  function Overtaken(): World {
    World(OwnersRow(TheOwner(), OccExpired, SnoozedRow(1, Some(86_450_000_000))), 86_401_000_000,
          Sole(101, OWNERS, Flight(1, 86_450_000_000, Seen(OccSent, false), true, true)))
  }

  lemma ReachesOvertaken()
    ensures ReachesOrderly(NoRows(), Overtaken())
  {
    hide ReachesOrderly, Orderly, Sweep;
    var w, s := Resending(86_390_000_000, Seen(OccSent, false)), Step(86_401_000_000, Reap({FIRST}, {}));
    ReachesResending(86_390_000_000);
    OvertakenRows(w.db);
    SoleIsOrderly(w, s, 101, OWNERS, Flight(1, 86_450_000_000, Seen(OccSent, false), true, true));
    OrderlyNext(NoRows(), w, s);
    hide Effect, Next, Legal;
    NextParts(w, s);
    SameWorld(Next(w, s), Overtaken());
  }

  lemma OvertakenRows(db: Tables)
    requires db == OwnersRow(TheOwner(), OccSent, SnoozedRow(1, Some(86_450_000_000)))
    ensures Sweep(db, {FIRST}, {}, 86_401_000_000) == Overtaken().db
  {
    var after := Expire(db, {FIRST}, 86_401_000_000);
    assert after.occurrences == map[FIRST := Occurrence(0, OccExpired, 0, 86_400_000_000)];
    assert after.deliveries == map[OWNERS := SnoozedRow(1, Some(86_450_000_000))];
    hide Expire;
    NothingElseSwept(db, Overtaken().db, 86_401_000_000);
  }

  lemma OrderedFromNothing(w: World)
    requires ReachesOrderly(NoRows(), w)
    ensures Ordered(w)
  {
    hide ReachesOrderly, Ordered, IsEmpty;
    NothingYet();
    EmptyIsOrdered(NoRows());
    OrderedReach(NoRows(), w);
  }

  /** Its message goes out all the same, and nobody ever records that it stayed unanswered. */
  lemma SilenceMissed()
    ensures IsEmpty(NoRows()) && ReachesOrderly(NoRows(), Overtaken()) && IsRecorded(Overtaken(), FIRST)
    ensures !StaysRecordedInOrder(Overtaken(), FIRST)
  {
    hide ReachesOrderly, Ordered, StaysRecorded, StaysRecordedInOrder;
    NothingYet();
    ReachesOvertaken();
    assert ComesInOrder(Overtaken());
    assert FlightKey(101, OWNERS) in Overtaken().inFlight;
    assert IsSilenced(SnoozedRow(1, Some(86_450_000_000)));
    RecordedExactly(Overtaken(), FIRST);
  }

  const FRIENDS: DeliveryKey := DeliveryKey(FIRST, 2)

  function TwoRows(status: OccurrenceStatus, owners: Delivery, friends: Delivery): Tables {
    Rows(Everyday(Active, Some(3_600_000_000), 1), Both(Some(-3_600_000_000)), status,
         map[OWNERS := owners, FRIENDS := friends])
  }

  /** A friend has joined before the first plan. */
  function CreatedForTwo(acceptedAt: Option<int>): World {
    World(Tables(map[1 := SOMEBODY, 2 := SOMEBODY], map[7 := Everyday(Active, None, 0)], Both(acceptedAt), map[],
                 map[]),
          -3_600_000_000, map[])
  }

  function PlannedForTwo(): World {
    World(TwoRows(OccPending, FreshDelivery(0), FreshDelivery(0)), -3_600_000_000, map[])
  }

  lemma ReachesCreatedForTwo()
    ensures ReachesOrderly(NoRows(), CreatedForTwo(Some(-3_600_000_000)))
  {
    hide ReachesOrderly, Orderly, Legal, Next, Effect;
    var invite, accept := Step(-3_600_000_000, Invite(7, 2)), Step(-3_600_000_000, AcceptInvitation(2, 7));
    ReachesCreated();
    EarlyInvited();
    CalmStep(Created(), invite);
    OrderlyNext(NoRows(), Created(), invite);
    EarlyAccepted();
    CalmStep(CreatedForTwo(None), accept);
    OrderlyNext(NoRows(), CreatedForTwo(None), accept);
  }

  lemma EarlyInvited()
    ensures var w, s := Created(), Step(-3_600_000_000, Invite(7, 2));
      Legal(w, s) && Effect(w, s.now, s.event) == CreatedForTwo(None).db
  {
    assert Watchers(Created().db, 7) == {};
  }

  lemma EarlyAccepted()
    ensures var w, s := CreatedForTwo(None), Step(-3_600_000_000, AcceptInvitation(2, 7));
      Legal(w, s) && Effect(w, s.now, s.event) == CreatedForTwo(Some(-3_600_000_000)).db
  {
    hide Upcoming, InsertDeliveries;
    NoRowsToAdd(CreatedForTwo(None).db);
  }

  lemma NoRowsToAdd(db: Tables)
    requires db.occurrences == map[] && db.deliveries == map[]
    ensures Upcoming(db, 7, -3_600_000_000) == {} && InsertDeliveries(map[], map[], {}, {2}) == map[]
  {
  }

  lemma PlanForTwo()
    ensures MaterializeOne(CreatedForTwo(Some(-3_600_000_000)).db, 7, 3_600_000_000, 86_400_000_000)
            == PlannedForTwo().db
  {
    hide Plan.Moments, Plan.Cycle, Plan.Due, InsertOccurrences, InsertDeliveries, AcceptedUsers, Scheduled, KeysOf;
    var db := CreatedForTwo(Some(-3_600_000_000)).db;
    PlannedMoments(db);
    RowsForTwo(db);
    DeliveriesForTwo(PlannedForTwo().db.occurrences);
  }

  lemma RowsForTwo(db: Tables)
    requires db == CreatedForTwo(Some(-3_600_000_000)).db
    ensures AcceptedUsers(db, 7) == {1, 2} && Scheduled(db, 7) == {} && KeysOf(7, [0]) == {FIRST}
    ensures InsertOccurrences(db.occurrences, 7, [0], SOMEBODY.quiet, 86_400_000_000) == PlannedForTwo().db.occurrences
  {
    FirstRows(Created().db);
    assert db.occurrences == Created().db.occurrences;
    hide InsertOccurrences;
    assert RecipientKey(7, 1) in db.recipients && RecipientKey(7, 2) in db.recipients;
    assert AcceptedUsers(db, 7) == {1, 2};
  }

  lemma DeliveriesForTwo(occurrences: map<OccurrenceKey, Occurrence>)
    requires FIRST in occurrences && occurrences[FIRST].fireAt == 0
    ensures InsertDeliveries(map[], occurrences, {FIRST}, {1, 2})
            == map[OWNERS := FreshDelivery(0), FRIENDS := FreshDelivery(0)]
  {
    assert (set o, u | o in {FIRST} && u in {1, 2} :: DeliveryKey(o, u)) == {OWNERS, FRIENDS};
  }

  lemma ReachesPlannedForTwo()
    ensures ReachesOrderly(NoRows(), PlannedForTwo())
  {
    hide ReachesOrderly, Orderly, MaterializeOne, Plan.Due, Plan.Moments, Plan.Cycle;
    var w, s := CreatedForTwo(Some(-3_600_000_000)),
      Step(-3_600_000_000, Materialize(7, 3_600_000_000, 86_400_000_000));
    ReachesCreatedForTwo();
    PlanForTwo();
    PlannedMoments(w.db);
    CalmStep(w, s);
    OrderlyNext(NoRows(), w, s);
  }

  /** Half a minute before it expires a session has claimed the friend's row, and then read it. */
  function Holding(view: View): World {
    World(TwoRows(OccPending, FreshDelivery(0), LeasedRow(86_430_000_000)), 86_370_000_000, Holder(view))
  }

  function Holder(view: View): map<FlightKey, Flight> {
    Sole(100, FRIENDS, Flight(1, 86_430_000_000, view, true, true))
  }

  lemma ReachesHolding()
    ensures ReachesOrderly(NoRows(), Holding(Seen(OccPending, false)))
  {
    hide ReachesOrderly, Orderly, Legal, Next;
    var claim, load := Step(86_370_000_000, ClaimBatch(100, {FRIENDS}, 60_000_000)), Step(86_370_000_000, Load(100));
    ReachesPlannedForTwo();
    ClaimSole(PlannedForTwo(), claim, FRIENDS);
    assert Claim(PlannedForTwo().db, {FRIENDS}, 86_370_000_000, 60_000_000).deliveries
           == map[OWNERS := FreshDelivery(0), FRIENDS := LeasedRow(86_430_000_000)];
    OrderlyNext(NoRows(), PlannedForTwo(), claim);
    LoadSole(Holding(Unread), load, FRIENDS, Flight(1, 86_430_000_000, Unread, true, true));
    OrderlyNext(NoRows(), Holding(Unread), load);
  }

  /** Meanwhile another one sends the owner theirs. */
  function OwnerServed(status: OccurrenceStatus, actions: seq<Action>, clock: int): World {
    World(TwoRows(status, Delivery(Sent, 0, 0, None, Some(86_380_000_000), None, None, actions),
                  LeasedRow(86_430_000_000)),
          clock, Holder(Seen(OccPending, false)))
  }

  function FromNetwork(k: DeliveryKey): Answer {
    Answer(Accepted, 86_380_000_000)
  }

  function SameId(k: DeliveryKey): int {
    0
  }

  lemma OwnersTurn(db: Tables)
    requires db == Holding(Seen(OccPending, false)).db
    ensures IsClaim(db, SameId, 86_370_000_000, 1, Members([OWNERS]))
  {
    var due := set k | k in db.deliveries && Claimable(db.deliveries[k], 86_370_000_000);
    assert due == {OWNERS};
    assert Members([OWNERS]) == {OWNERS};
    hide Members;
    assert |due| == 1 && due - {OWNERS} == {};
  }

  lemma OwnersClaimed(db: Tables)
    requires db == Holding(Seen(OccPending, false)).db
    ensures var st := Claimed(db, [OWNERS], 86_370_000_000, 60_000_000);
      && st.db == TwoRows(OccPending, LeasedRow(86_430_000_000), LeasedRow(86_430_000_000))
      && OWNERS in st.flights && st.flights[OWNERS] == Flight(1, 86_430_000_000, Seen(OccPending, false), true, true)
  {
    hide Claim, Members;
    assert Members([OWNERS]) == {OWNERS} by { JustOne(); }
    OwnersLeased(db);
  }

  lemma JustOne()
    ensures Members([OWNERS]) == {OWNERS}
  {
  }

  lemma OwnersLeased(db: Tables)
    requires db == Holding(Seen(OccPending, false)).db
    ensures Claim(db, {OWNERS}, 86_370_000_000, 60_000_000)
            == TwoRows(OccPending, LeasedRow(86_430_000_000), LeasedRow(86_430_000_000))
  {
    var claimed := Claim(db, {OWNERS}, 86_370_000_000, 60_000_000);
    assert ClaimRow(FreshDelivery(0), 86_430_000_000) == LeasedRow(86_430_000_000);
    hide ClaimRow;
    assert claimed.deliveries == map[OWNERS := LeasedRow(86_430_000_000), FRIENDS := LeasedRow(86_430_000_000)];
  }

  lemma OwnersServed(db: Tables)
    requires db == Holding(Seen(OccPending, false)).db
    ensures DeliverAll(Claimed(db, [OWNERS], 86_370_000_000, 60_000_000), [OWNERS], FromNetwork).db
            == OwnerServed(OccSent, [], 86_380_000_000).db
  {
    hide Claimed, Others;
    var st := Claimed(db, [OWNERS], 86_370_000_000, 60_000_000);
    OwnersClaimed(db);
    DeliverNone(st, FromNetwork);
    DeliverNext(st, [OWNERS], 0, FromNetwork);
    assert [OWNERS][..0] == [] && [OWNERS][..1] == [OWNERS];
    hide DeliverAll;
    OwnerIsSent(st.db);
  }

  lemma OwnerIsSent(db: Tables)
    requires db == TwoRows(OccPending, LeasedRow(86_430_000_000), LeasedRow(86_430_000_000))
    ensures DeliverOne(db, OWNERS, Flight(1, 86_430_000_000, Seen(OccPending, false), true, true), 86_380_000_000,
                       Accepted)
            == OwnerServed(OccSent, [], 86_380_000_000).db
  {
    var f, after := Flight(1, 86_430_000_000, Seen(OccPending, false), true, true),
      OwnerServed(OccSent, [], 86_380_000_000);
    assert SettledRow(LeasedRow(86_430_000_000), f, 86_380_000_000, Accepted) == after.db.deliveries[OWNERS];
    assert MovesOn(f, Accepted) && !VerdictFor(f, 86_380_000_000, Accepted).blocksUser;
    hide SettledRow, MovesOn, VerdictFor;
    assert db.deliveries[OWNERS := after.db.deliveries[OWNERS]] == after.db.deliveries;
    assert db.occurrences[FIRST := db.occurrences[FIRST].(status := OccSent)] == after.db.occurrences;
  }

  lemma ReachesServed()
    ensures ReachesOrderly(NoRows(), OwnerServed(OccSent, [], 86_380_000_000))
  {
    hide ReachesOrderly, Ordered, IsClaim, Claimed, DeliverAll, Members, Inv, Certain, Reaches, ReachesInTime;
    var w := Holding(Seen(OccPending, false));
    ReachesHolding();
    OrderedFromNothing(w);
    InvOf(w);
    OwnersTurn(w.db);
    OwnersServed(w.db);
    DispatcherCycleIsRun(w, 101, SameId, 1, [OWNERS], FromNetwork, 86_370_000_000, 60_000_000);
    InTimeIsOrderly(w, OwnerServed(OccSent, [], 86_380_000_000));
    OrderlyThen(NoRows(), w, OwnerServed(OccSent, [], 86_380_000_000));
  }

  /** The occurrence expires under the session that still takes it for unsent. */
  function OwnerSilent(): World {
    OwnerServed(OccExpired, [Action(AutoExpireAction, 86_401_000_000)], 86_401_000_000)
  }

  lemma ReachesSilent()
    ensures ReachesOrderly(NoRows(), OwnerSilent())
  {
    hide ReachesOrderly, Orderly, Sweep, Effect, Next, Legal;
    var w, s := OwnerServed(OccSent, [], 86_380_000_000), Step(86_401_000_000, Reap({FIRST}, {}));
    ReachesServed();
    SweptToSilence(w, s);
    SoleIsOrderly(w, s, 100, FRIENDS, Flight(1, 86_430_000_000, Seen(OccPending, false), true, true));
    OrderlyNext(NoRows(), w, s);
  }

  lemma SweptToSilence(w: World, s: Step)
    requires w == OwnerServed(OccSent, [], 86_380_000_000) && s == Step(86_401_000_000, Reap({FIRST}, {}))
    ensures Legal(w, s) && Next(w, s) == OwnerSilent()
  {
    hide Sweep;
    SilentRows(w.db);
    assert Effect(w, s.now, s.event) == OwnerSilent().db;
    assert Legal(w, s);
    hide Effect, Next, Legal;
    NextParts(w, s);
    SameWorld(Next(w, s), OwnerSilent());
  }

  lemma SilentRows(db: Tables)
    requires db == OwnerServed(OccSent, [], 86_380_000_000).db
    ensures Sweep(db, {FIRST}, {}, 86_401_000_000) == OwnerSilent().db
  {
    hide Expire;
    SilentExpired(db);
    NothingElseSwept(db, OwnerSilent().db, 86_401_000_000);
  }

  lemma SilentExpired(db: Tables)
    requires db == OwnerServed(OccSent, [], 86_380_000_000).db
    ensures Expire(db, {FIRST}, 86_401_000_000) == OwnerSilent().db
  {
    hide ExpireRow;
    OwnersSilence(db);
    ExpiredFirst(db);
    var owners, friends := db.deliveries[OWNERS], db.deliveries[FRIENDS];
    assert db.deliveries == map[OWNERS := owners, FRIENDS := friends];
    ExpiredPair(db.deliveries, OwnerSilent().db.deliveries);
  }

  lemma ExpiredFirst(db: Tables)
    requires db.occurrences == map[FIRST := Occurrence(0, OccSent, 0, 86_400_000_000)]
    ensures Expire(db, {FIRST}, 86_401_000_000).occurrences
            == map[FIRST := Occurrence(0, OccExpired, 0, 86_400_000_000)]
  {
    hide ExpireRow;
  }

  lemma OwnersSilence(db: Tables)
    requires db == OwnerServed(OccSent, [], 86_380_000_000).db
    ensures ExpireRow(db.deliveries[OWNERS], 86_401_000_000) == OwnerSilent().db.deliveries[OWNERS]
    ensures ExpireRow(db.deliveries[FRIENDS], 86_401_000_000) == OwnerSilent().db.deliveries[FRIENDS]
  {
  }

  lemma ExpiredPair(rows: map<DeliveryKey, Delivery>, after: map<DeliveryKey, Delivery>)
    requires rows.Keys == {OWNERS, FRIENDS} && after.Keys == rows.Keys
    requires forall k :: k in rows ==> after[k] == ExpireRow(rows[k], 86_401_000_000)
    ensures after == map k | k in rows ::
                       if k.occurrence in {FIRST} then ExpireRow(rows[k], 86_401_000_000) else rows[k]
  {
    hide ExpireRow;
    forall k | k in rows ensures k.occurrence == FIRST { assert k in rows.Keys; }
  }

  /** It sends, the occurrence reopens, and the next sweep records the owner's silence again. */
  lemma SilenceRecordedTwice() returns (v: World)
    ensures IsEmpty(NoRows()) && ReachesOrderly(NoRows(), v)
    ensures OWNERS in v.db.deliveries && Silences(v.db.deliveries[OWNERS]) == 2
  {
    hide ReachesOrderly, Ordered, IsEmpty, Next, Legal, Orderly;
    NothingYet();
    ReachesSilent();
    var w, f := OwnerSilent(), FlightKey(100, FRIENDS);
    OrderedFromNothing(w);
    assert f in w.inFlight && MovesOn(w.inFlight[f], Accepted);
    assert Silences(w.db.deliveries[OWNERS]) == 1;
    var sent, sweep := SilencedAgain(w, f, OWNERS);
    OrderlyNext(NoRows(), w, sent);
    OrderlyNext(NoRows(), Next(w, sent), sweep);
    v := Next(Next(w, sent), sweep);
  }

  // ---------------------------------------------------------------------------------------------
  // A plan that comes back to an answered occurrence
  // ---------------------------------------------------------------------------------------------

  function DoneRow(): Delivery {
    Delivery(Done, 0, 0, None, Some(1_000_000), Some(2_000_000), None, [Action(DoneAction, 2_000_000)])
  }

  function Both(acceptedAt: Option<int>): map<RecipientKey, Recipient> {
    TheOwner()[RecipientKey(7, 2) := Recipient(Watcher, acceptedAt)]
  }

  /** Answered by the owner, before anybody else joins. */
  function Finished(recipients: map<RecipientKey, Recipient>, now: int): World {
    World(OwnersRow(recipients, OccDone, DoneRow()), now, map[])
  }

  /** A friend has joined, and the reminder has been paused and resumed. */
  function Restarted(status: ReminderStatus): World {
    World(Rows(Everyday(status, None, 1), Both(Some(3_000_000)), OccDone, map[OWNERS := DoneRow()]), 3_000_000, map[])
  }

  lemma ReachesFinished()
    ensures ReachesOrderly(NoRows(), Finished(TheOwner(), 2_000_000))
  {
    hide ReachesOrderly, Orderly, AllTerminal;
    var s := Step(2_000_000, Tap(OWNERS, 1, DoneAction));
    ReachesDelivered();
    CalmStep(Delivered(), s);
    OrderlyNext(NoRows(), Delivered(), s);
    hide Next;
    TapFinishes();
  }

  lemma TapFinishes()
    ensures React(Delivered().db, OWNERS, 1, DoneAction, 2_000_000) == (Finished(TheOwner(), 2_000_000).db, Applied)
  {
    hide AllTerminal;
    var d := ReactRow(SentRow(), DoneAction, Reaction(Done, Some(2_000_000), None), 2_000_000);
    var deliveries := Delivered().db.deliveries[OWNERS := d];
    assert d == DoneRow();
    SoleTapCloses(deliveries);
    assert deliveries == map[OWNERS := DoneRow()];
    assert Delivered().db.occurrences[FIRST := Delivered().db.occurrences[FIRST].(status := OccDone)]
           == Finished(TheOwner(), 2_000_000).db.occurrences;
  }

  lemma ReachesJoinedByFriend()
    ensures ReachesOrderly(NoRows(), Finished(Both(Some(3_000_000)), 3_000_000))
  {
    hide ReachesOrderly, Orderly, Legal, Next, Effect;
    var invite, accept := Step(2_000_000, Invite(7, 2)), Step(3_000_000, AcceptInvitation(2, 7));
    ReachesFinished();
    FriendInvited();
    CalmStep(Finished(TheOwner(), 2_000_000), invite);
    OrderlyNext(NoRows(), Finished(TheOwner(), 2_000_000), invite);
    FriendAccepts();
    CalmStep(Finished(Both(None), 2_000_000), accept);
    OrderlyNext(NoRows(), Finished(Both(None), 2_000_000), accept);
  }

  lemma FriendInvited()
    ensures var w, s := Finished(TheOwner(), 2_000_000), Step(2_000_000, Invite(7, 2));
      Legal(w, s) && Effect(w, s.now, s.event) == Finished(Both(None), 2_000_000).db
  {
    assert Watchers(Finished(TheOwner(), 2_000_000).db, 7) == {};
  }

  lemma FriendAccepts()
    ensures var w, s := Finished(Both(None), 2_000_000), Step(3_000_000, AcceptInvitation(2, 7));
      Legal(w, s) && Effect(w, s.now, s.event) == Finished(Both(Some(3_000_000)), 3_000_000).db
  {
    hide Upcoming, InsertDeliveries;
    NothingAhead(Finished(Both(None), 2_000_000).db);
  }

  lemma NothingAhead(db: Tables)
    requires db == OwnersRow(Both(None), OccDone, DoneRow())
    ensures Upcoming(db, 7, 3_000_000) == {}
    ensures InsertDeliveries(db.deliveries, db.occurrences, {}, {2}) == db.deliveries
  {
    assert Upcoming(db, 7, 3_000_000) == {};
    assert InsertDeliveries(db.deliveries, db.occurrences, {}, {2}) == db.deliveries;
  }

  lemma ReachesRestarted()
    ensures ReachesOrderly(NoRows(), Restarted(Active))
  {
    hide ReachesOrderly, Orderly, Legal, Next, Effect;
    var pause, resume := Step(3_000_000, ChangeStatus(1, 7, Paused)), Step(3_000_000, ChangeStatus(1, 7, Active));
    ReachesJoinedByFriend();
    PausedPlan();
    CalmStep(Finished(Both(Some(3_000_000)), 3_000_000), pause);
    OrderlyNext(NoRows(), Finished(Both(Some(3_000_000)), 3_000_000), pause);
    ResumedPlan();
    CalmStep(Restarted(Paused), resume);
    OrderlyNext(NoRows(), Restarted(Paused), resume);
  }

  lemma PausedPlan()
    ensures var w, s := Finished(Both(Some(3_000_000)), 3_000_000), Step(3_000_000, ChangeStatus(1, 7, Paused));
      Legal(w, s) && Effect(w, s.now, s.event) == Restarted(Paused).db
  {
    hide DropQueued;
    assert Finished(Both(Some(3_000_000)), 3_000_000).db.reminders[7 := Everyday(Paused, Some(3_600_000_000), 1)]
           == map[7 := Everyday(Paused, Some(3_600_000_000), 1)];
    NothingDropped(Rows(Everyday(Paused, Some(3_600_000_000), 1), Both(Some(3_000_000)), OccDone,
                        map[OWNERS := DoneRow()]));
  }

  lemma NothingDropped(db: Tables)
    requires db == Rows(Everyday(Paused, Some(3_600_000_000), 1), Both(Some(3_000_000)), OccDone,
                        map[OWNERS := DoneRow()])
    ensures DropQueued(db, 7) == Restarted(Paused).db
  {
    assert Unsent(db, 7) == {};
    hide IsUnsent, Unsent;
    assert DropQueued(db, 7).deliveries == db.deliveries;
    assert db.occurrences - {} == db.occurrences;
    assert DropQueued(db, 7).reminders == Restarted(Paused).db.reminders;
  }

  lemma ResumedPlan()
    ensures var w, s := Restarted(Paused), Step(3_000_000, ChangeStatus(1, 7, Active));
      Legal(w, s) && Effect(w, s.now, s.event) == Restarted(Active).db
  {
    hide DropQueued;
  }

  /** The next cycle gives the friend a row under the occurrence that is done. */
  lemma AnsweredUnsettled()
    ensures var w, s := Restarted(Active), Step(4_000_000, Materialize(7, 3_600_000_000, 86_400_000_000));
      && IsEmpty(NoRows()) && ReachesOrderly(NoRows(), w) && SettledOnceAnswered(w.db) && Legal(w, s)
      && !SettledOnceAnswered(Next(w, s).db)
  {
    hide ReachesOrderly, Orderly, Plan.Moments, Plan.Cycle, MaterializeOne, Plan.Due, Next, SettledOnceAnswered,
         IsEmpty, ComesBackFor;
    var w, s := Restarted(Active), Step(4_000_000, Materialize(7, 3_600_000_000, 86_400_000_000));
    NothingYet();
    ReachesRestarted();
    PlannedMoments(w.db);
    CalmStep(w, s);
    DoneIsSettled();
    FriendIsMissing();
    ReplanSettlesExactly(w.db, 7, 3_600_000_000, 86_400_000_000);
  }

  lemma DoneIsSettled()
    ensures SettledOnceAnswered(Restarted(Active).db)
  {
  }

  lemma FriendIsMissing()
    ensures ComesBackFor(Restarted(Active).db, 7, 3_600_000_000, FIRST, 2)
  {
    var db := Restarted(Active).db;
    hide Plan.Moments, Plan.Cycle, Plan.Due;
    PlannedMoments(db);
    assert RecipientKey(7, 2) in db.recipients;
    assert OccurrenceKey(7, 0) in KeysOf(7, [0]);
  }
}
