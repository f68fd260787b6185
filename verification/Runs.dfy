/** Runs of the whole program: users, planner, dispatcher, reaper and reactions interleaved in any
    order under a clock that never goes back. */
module Runs {
  import opened Schedules
  import opened Planning
  import opened QuietHours
  import opened Contracts
  import opened Reactions
  import opened Sweeping
  import opened Store

  /** A row in the hands of a dispatcher session. Every cycle has a session of its own. */
  datatype FlightKey = FlightKey(session: int, delivery: DeliveryKey)

  /** The committed tables, the last moment any transaction read from the clock, and the rows some
      worker has claimed and is still sending. */
  datatype World = World(db: Tables, clock: int, inFlight: map<FlightKey, Flight>)

  datatype Event =
    | AddUser(newUser: int, profile: User)
    | ChangeUser(user: int, quiet: Quiet)
    | Unblock(user: int)
    | Create(reminder: int, row: Reminder)
    | EditRepeat(reminder: int, snoozeMinutes: int, repeatAfterMinutes: Option<int>)
    | ChangeStatus(owner: int, reminder: int, status: ReminderStatus)
    | Reschedule(owner: int, reminder: int, schedule: Schedule)
    | Invite(reminder: int, user: int)
    | AcceptInvitation(user: int, reminder: int)
    | Decline(user: int, reminder: int)
    | LeaveReminder(user: int, reminder: int)
    | Materialize(reminder: int, horizonEnd: int, ttl: nat)
    | ClaimBatch(session: int, batch: set<DeliveryKey>, lockFor: nat)
    | Load(session: int)
    | Attempt(session: int, key: DeliveryKey, result: SendResult)
    | Crash(session: int)
    | Tap(key: DeliveryKey, user: int, kind: ActionKind)
    | Reap(overdue: set<OccurrenceKey>, candidates: set<DeliveryKey>)

  datatype Step = Step(now: int, event: Event)

  /** What an event does to the tables. */
  ghost function Effect(w: World, now: int, e: Event): Tables {
    var db := w.db;
    match e
    case AddUser(u, profile) => if u in db.users then db else db.(users := db.users[u := profile])
    case ChangeUser(u, quiet) => if u !in db.users then db
      else db.(users := db.users[u := db.users[u].(quiet := quiet)])
    case Unblock(u) => if u !in db.users then db else db.(users := db.users[u := db.users[u].(blocked := false)])
    case Create(r, row) =>
      db.(reminders := db.reminders[r := row],
          recipients := db.recipients[RecipientKey(r, row.owner) := Recipient(Owner, Some(now))])
    case EditRepeat(r, snooze, repeatAfter) =>
      if r !in db.reminders then db
      else db.(reminders := db.reminders[r := db.reminders[r].(snoozeMinutes := snooze,
                                                               repeatAfterMinutes := repeatAfter)])
    case ChangeStatus(owner, r, status) => SetStatus(db, owner, r, status).0
    case Reschedule(owner, r, schedule) => ReplaceSchedule(db, owner, r, schedule, now).0
    case Invite(r, u) => OpenInvite(db, r, u)
    case AcceptInvitation(u, r) => AcceptInvite(db, u, r, now)
    case Decline(u, r) => RemoveWatcher(db, u, r)
    case LeaveReminder(u, r) => Leave(db, u, r)
    case Materialize(r, horizonEnd, ttl) => if r in db.reminders then MaterializeOne(db, r, horizonEnd, ttl) else db
    case ClaimBatch(_, batch, lockFor) => Claim(db, batch, now, lockFor)
    case Load(_) => db
    case Attempt(session, key, result) =>
      var f := FlightKey(session, key);
      if f in w.inFlight then DeliverOne(db, key, w.inFlight[f], now, result) else db
    case Crash(_) => db
    case Tap(key, u, kind) => React(db, key, u, kind, now).0
    case Reap(overdue, candidates) => Sweep(db, overdue, candidates, now)
  }

  function ClaimedKeys(db: Tables, session: int, batch: set<DeliveryKey>): set<FlightKey> {
    set k | k in batch && k in db.deliveries :: FlightKey(session, k)
  }

  /** What an event does to the rows being sent. */
  function Flights(w: World, now: int, e: Event): map<FlightKey, Flight> {
    match e
    case ClaimBatch(session, batch, lockFor) =>
      map f | f in w.inFlight.Keys + ClaimedKeys(w.db, session, batch) ::
        if f in w.inFlight then w.inFlight[f]
        else Flight(w.db.deliveries[f.delivery].attempts + 1, now + lockFor, Unread, true, true)
    case Load(session) =>
      map f | f in w.inFlight :: if f.session == session then Read(w.db, f, w.inFlight[f]) else w.inFlight[f]
    case Attempt(session, key, result) =>
      var own := FlightKey(session, key);
      map f | f in w.inFlight && f != own ::
        if f.session == session && own in w.inFlight
        then w.inFlight[f].(view := Refreshed(w.inFlight[f].view, f.delivery, key, w.inFlight[own], now, result))
        else w.inFlight[f]
    case Crash(session) => map f | f in w.inFlight && f.session != session :: w.inFlight[f]
    case _ => w.inFlight
  }

  /** `load_send_context`, for a session that has not read yet. */
  function Read(db: Tables, f: FlightKey, flight: Flight): Flight {
    if flight.view != Unread then flight else flight.(view := if flight.row then ViewOf(db, f.delivery) else NoContext)
  }

  /** A row that is deleted is gone for whoever holds it, even if one with the same key is inserted
      later. */
  function Present(flight: Flight, f: FlightKey, db: Tables): Flight {
    flight.(row := flight.row && f.delivery in db.deliveries,
            occurrence := flight.occurrence && f.delivery.occurrence in db.occurrences)
  }

  ghost function Next(w: World, s: Step): World {
    var db, flights := Effect(w, s.now, s.event), Flights(w, s.now, s.event);
    World(db, s.now, map f | f in flights :: Present(flights[f], f, db))
  }

  /** When the program performs the event. Batches may be any part of what the queries offer. */
  ghost predicate Legal(w: World, s: Step) {
    && w.clock <= s.now
    && match s.event
       case Create(r, row) =>
         r !in w.db.reminders && row.owner in w.db.users && row.status == Active && row.plannedUntil.None?
           && row.firedCount == 0
       case Materialize(r, horizonEnd, _) => r in w.db.reminders && PlanOf(w.db, r).Due(horizonEnd)
       case ClaimBatch(session, batch, _) =>
         && (forall f :: f in w.inFlight ==> f.session != session)
         && (forall k :: k in batch ==> k in w.db.deliveries && Claimable(w.db.deliveries[k], s.now))
       case Attempt(session, key, _) =>
         FlightKey(session, key) in w.inFlight && w.inFlight[FlightKey(session, key)].view != Unread
       // Buttons exist only under a message that was sent.
       case Tap(key, _, kind) => kind != AutoExpireAction
         && (key in w.db.deliveries ==> w.db.deliveries[key].sentAt.Some?)
       case Reap(overdue, _) =>
         forall o :: o in overdue
             ==> o in w.db.occurrences && IsOverdue(w.db.occurrences[o].status, w.db.occurrences[o].expiresAt, s.now)
       // The screen that offers it is a watcher's.
       case LeaveReminder(u, r) => RecipientKey(r, u) in w.db.recipients
         ==> w.db.recipients[RecipientKey(r, u)].role == Watcher
       case _ => true
  }

  ghost predicate Flying(w: World, k: DeliveryKey) {
    exists session :: FlightKey(session, k) in w.inFlight && w.inFlight[FlightKey(session, k)].row
  }

  /** The timing the dispatcher relies on: a worker is through with a row, or dead, before its lease
      runs out, and no tap on a row lands while that row is being sent. */
  ghost predicate Orderly(w: World, s: Step) {
    && (forall f :: f in w.inFlight ==> s.now <= w.inFlight[f].until)
    && (s.event.Tap? ==> !Flying(w, s.event.key))
  }

  ghost predicate Closes(w: World, s: Step, o: OccurrenceKey) {
    && o in w.db.occurrences && !IsClosed(w.db.occurrences[o].status)
    && o in Next(w, s).db.occurrences && IsClosed(Next(w, s).db.occurrences[o].status)
  }

  /** And the one it relies on for what it has read: no occurrence is closed between the moment a session
      reads it and the moment the session is through with it. */
  ghost predicate Steady(w: World, s: Step) {
    forall f :: f in w.inFlight && w.inFlight[f].occurrence && w.inFlight[f].view.Seen?
        ==> !Closes(w, s, f.delivery.occurrence)
  }

  ghost predicate IsRun(ws: seq<World>, steps: seq<Step>) {
    && |ws| == |steps| + 1
    && forall i :: 0 <= i < |steps| ==> Legal(ws[i], steps[i]) && ws[i + 1] == Next(ws[i], steps[i])
  }

  ghost predicate IsOrderlyRun(ws: seq<World>, steps: seq<Step>) {
    IsRun(ws, steps) && forall i :: 0 <= i < |steps| ==> Orderly(ws[i], steps[i])
  }

  ghost predicate IsSteadyRun(ws: seq<World>, steps: seq<Step>) {
    IsOrderlyRun(ws, steps) && forall i :: 0 <= i < |steps| ==> Steady(ws[i], steps[i])
  }

  /** Some run of the program leads from one world to the other. */
  ghost predicate Reaches(w: World, v: World) {
    exists ws, steps :: IsRun(ws, steps) && ws[0] == w && ws[|ws| - 1] == v
  }

  /** And some orderly one. */
  ghost predicate ReachesOrderly(w: World, v: World) {
    exists ws, steps :: IsOrderlyRun(ws, steps) && ws[0] == w && ws[|ws| - 1] == v
  }

  ghost predicate IsEmpty(w: World) {
    && w.db.users == map[] && w.db.reminders == map[] && w.db.recipients == map[]
    && w.db.occurrences == map[] && w.db.deliveries == map[] && w.inFlight == map[]
  }

  lemma ReachesItself(w: World)
    ensures Reaches(w, w)
  {
    assert IsRun([w], []);
  }

  lemma ReachesNext(w: World, v: World, s: Step)
    requires Reaches(w, v) && Legal(v, s)
    ensures Reaches(w, Next(v, s))
  {
    hide Legal, Next;
    var ws, steps :| IsRun(ws, steps) && ws[0] == w && ws[|ws| - 1] == v;
    var all, more := ws + [Next(v, s)], steps + [s];
    assert IsRun(all, more) && all[0] == w && all[|all| - 1] == Next(v, s);
  }

  lemma OrderlyItself(w: World)
    ensures ReachesOrderly(w, w)
  {
    assert IsOrderlyRun([w], []);
  }

  lemma OrderlyNext(w: World, v: World, s: Step)
    requires ReachesOrderly(w, v) && Legal(v, s) && Orderly(v, s)
    ensures ReachesOrderly(w, Next(v, s))
  {
    hide Legal, Next, Orderly;
    var ws, steps :| IsOrderlyRun(ws, steps) && ws[0] == w && ws[|ws| - 1] == v;
    var all, more := ws + [Next(v, s)], steps + [s];
    assert IsOrderlyRun(all, more) && all[0] == w && all[|all| - 1] == Next(v, s);
  }

  lemma OrderlyIsRun(w: World, v: World)
    requires ReachesOrderly(w, v)
    ensures Reaches(w, v)
  {
    hide Legal, Next, Orderly;
    var ws, steps :| IsOrderlyRun(ws, steps) && ws[0] == w && ws[|ws| - 1] == v;
    assert IsRun(ws, steps);
  }

  lemma OrderlyThen(u: World, v: World, w: World)
    requires ReachesOrderly(u, v) && ReachesOrderly(v, w)
    ensures ReachesOrderly(u, w)
  {
    hide Legal, Next, Orderly;
    var us, first :| IsOrderlyRun(us, first) && us[0] == u && us[|us| - 1] == v;
    var bs, second :| IsOrderlyRun(bs, second) && bs[0] == v && bs[|bs| - 1] == w;
    var all, more := us + bs[1..], first + second;
    forall i | 0 <= i < |more|
      ensures Legal(all[i], more[i]) && Orderly(all[i], more[i]) && all[i + 1] == Next(all[i], more[i])
    {
      if i >= |first| {
        assert all[i] == bs[i - |first|] && all[i + 1] == bs[i - |first| + 1];
        assert more[i] == second[i - |first|];
      } else {
        assert all[i] == us[i] && all[i + 1] == us[i + 1] && more[i] == first[i];
      }
    }
    assert IsOrderlyRun(all, more) && all[0] == u && all[|all| - 1] == w;
  }

  // ---------------------------------------------------------------------------------------------
  // Shapes
  // ---------------------------------------------------------------------------------------------

  function CountOf(actions: seq<Action>, kind: ActionKind): nat {
    if actions == [] then 0
    else CountOf(actions[..|actions| - 1], kind) + if actions[|actions| - 1].kind == kind then 1 else 0
  }

  lemma CountAppend(actions: seq<Action>, a: Action, kind: ActionKind)
    ensures CountOf(actions + [a], kind) == CountOf(actions, kind) + if a.kind == kind then 1 else 0
  {
    assert (actions + [a])[..|actions|] == actions;
  }

  ghost predicate Writes(kind: ActionKind, r: Reaction, now: int) {
    match kind
    case SnoozeAction => r.status == Snoozed && r.reactedAt.None? && r.snoozedUntil.Some? && now < r.snoozedUntil.value
    case DoneAction => r == Reaction(Done, Some(now), None)
    case SkipAction => r == Reaction(Skipped, Some(now), None)
    case AutoExpireAction => false
  }

  lemma ReactionWrites(kind: ActionKind, now: int, snoozeMinutes: int, quiet: Quiet, expiresAt: int)
    ensures var r := DecideReaction(kind, now, snoozeMinutes, quiet, expiresAt);
      r.Some? ==> Writes(kind, r.value, now)
  {
    hide Shift, Postpone;
    if kind == SnoozeAction && snoozeMinutes >= 1 { PostponeContract(now, snoozeMinutes, quiet, expiresAt); }
  }

  /** What an accepted tap came from. */
  lemma TapShape(db: Tables, key: DeliveryKey, user: int, kind: ActionKind, now: int) returns (r: Reaction)
    requires React(db, key, user, kind, now).1 == Applied
    ensures key in db.deliveries && HasContext(db, key) && key.user == user
    ensures var d, o := db.deliveries[key], db.occurrences[key.occurrence];
      !IsTerminal(d.status) && !IsClosed(o.status) && now < o.expiresAt && Writes(kind, r, now)
    ensures React(db, key, user, kind, now).0 == Answered(db, key, kind, r, now)
  {
    hide Answered, DecideReaction;
    var o := db.occurrences[key.occurrence];
    r := DecideReaction(kind, now, db.reminders[key.occurrence.reminder].snoozeMinutes, db.users[user].quiet,
                        o.expiresAt).value;
    ReactionWrites(kind, now, db.reminders[key.occurrence.reminder].snoozeMinutes, db.users[user].quiet, o.expiresAt);
  }

  lemma UpcomingExist(db: Tables, reminder: int, now: int)
    ensures Upcoming(db, reminder, now) <= db.occurrences.Keys
  {
  }

  lemma AcceptedExist(db: Tables, reminder: int)
    requires References(db)
    ensures AcceptedUsers(db, reminder) <= db.users.Keys
  {
  }

  /** The tables after one reminder was materialised, field by field. */
  ghost predicate IsMaterialized(db: Tables, after: Tables, reminder: int, horizonEnd: int, quiet: Quiet, ttl: nat)
    requires reminder in db.reminders
  {
    var moments := PlanOf(db, reminder).Moments(horizonEnd);
    && KeysOf(reminder, moments) <= after.occurrences.Keys
    && after.users == db.users && after.recipients == db.recipients
    && after.occurrences == InsertOccurrences(db.occurrences, reminder, moments, quiet, ttl)
    && after.deliveries == InsertDeliveries(db.deliveries, after.occurrences, KeysOf(reminder, moments),
                                            AcceptedUsers(db, reminder))
    && after.reminders.Keys == db.reminders.Keys
    && (forall r | r in db.reminders ::
          && after.reminders[r].maxRepeats == db.reminders[r].maxRepeats
          && after.reminders[r].maxOccurrences == db.reminders[r].maxOccurrences
          && after.reminders[r].owner == db.reminders[r].owner)
    && (forall r :: r in db.reminders && r != reminder ==> after.reminders[r] == db.reminders[r])
    && after.reminders[reminder].firedCount == |PlanOf(db, reminder).Cycle(horizonEnd).done|
  }

  lemma MaterializeShape(db: Tables, reminder: int, horizonEnd: int, ttl: nat)
    requires reminder in db.reminders && db.reminders[reminder].owner in db.users
    ensures IsMaterialized(db, MaterializeOne(db, reminder, horizonEnd, ttl), reminder, horizonEnd,
                           db.users[db.reminders[reminder].owner].quiet, ttl)
  {
    hide InsertDeliveries, AcceptedUsers, Plan.Cycle, Plan.Moments, FreshOccurrence;
  }

  lemma MaterializeKeepsReminders(db: Tables, reminder: int, horizonEnd: int, ttl: nat)
    requires reminder in db.reminders
    ensures MaterializeOne(db, reminder, horizonEnd, ttl).reminders.Keys == db.reminders.Keys
    ensures db.reminders[reminder].owner !in db.users ==> MaterializeOne(db, reminder, horizonEnd, ttl) == db
  {
    hide InsertDeliveries, InsertOccurrences, AcceptedUsers, Plan.Cycle, Plan.Moments;
  }

  /** A flight of the next world comes from one of this world or from its claim. */
  lemma FlightStep(w: World, s: Step, f: FlightKey)
    requires f in Next(w, s).inFlight
    ensures f in w.inFlight
            || (s.event.ClaimBatch? && f.session == s.event.session && f.delivery in s.event.batch
                && f.delivery in w.db.deliveries)
    ensures Next(w, s).inFlight[f].row ==> f.delivery in Next(w, s).db.deliveries
    ensures Next(w, s).inFlight[f].occurrence ==> f.delivery.occurrence in Next(w, s).db.occurrences
    ensures f !in w.inFlight ==>
      var fl := Next(w, s).inFlight[f];
      fl.attempts == w.db.deliveries[f.delivery].attempts + 1 && fl.until == s.now + s.event.lockFor
        && fl.view == Unread
    ensures f in w.inFlight ==>
      var was, fl := w.inFlight[f], Next(w, s).inFlight[f];
      && fl.attempts == was.attempts && fl.until == was.until
      && (fl.row ==> was.row) && (fl.occurrence ==> was.occurrence)
      && (s.event.Attempt? ==> f != FlightKey(s.event.session, s.event.key))
  {
    hide Effect, Refreshed, ViewOf;
  }

  /** What a flight knows changes only by reading and by its own session's verdicts. */
  lemma ViewStep(w: World, s: Step, f: FlightKey)
    requires f in Next(w, s).inFlight && f in w.inFlight
    ensures var was, view := w.inFlight[f], Next(w, s).inFlight[f].view;
      match s.event
      case Load(session) => view == if f.session == session then Read(w.db, f, was).view else was.view
      case Attempt(session, key, result) =>
        var own := FlightKey(session, key);
        view == if f.session == session && own in w.inFlight
                then Refreshed(was.view, f.delivery, key, w.inFlight[own], s.now, result) else was.view
      case _ => view == was.view
  {
    hide Effect, Refreshed, ViewOf;
  }

  lemma SameWorld(a: World, b: World)
    requires a.db == b.db && a.clock == b.clock && forall f :: f in a.inFlight <==> f in b.inFlight
    requires forall f :: f in a.inFlight ==> a.inFlight[f] == b.inFlight[f]
    ensures a == b
  {
    assert a.inFlight == b.inFlight;
  }

  lemma NextParts(w: World, s: Step)
    ensures var v, flights := Next(w, s), Flights(w, s.now, s.event);
      && v.db == Effect(w, s.now, s.event) && v.clock == s.now && v.inFlight.Keys == flights.Keys
      && forall f :: f in flights ==> v.inFlight[f] == Present(flights[f], f, v.db)
  {
    hide Effect, Flights, Present;
  }

  lemma LegalAttempt(w: World, s: Step)
    requires w.clock <= s.now && s.event.Attempt? && FlightKey(s.event.session, s.event.key) in w.inFlight
    requires w.inFlight[FlightKey(s.event.session, s.event.key)].view != Unread
    ensures Legal(w, s)
    ensures Effect(w, s.now, s.event)
            == DeliverOne(w.db, s.event.key, w.inFlight[FlightKey(s.event.session, s.event.key)], s.now, s.event.result)
  {
    hide DeliverOne;
  }

  lemma LegalClaim(w: World, s: Step)
    requires w.clock <= s.now && s.event.ClaimBatch? && forall f :: f in w.inFlight ==> f.session != s.event.session
    requires forall k :: k in s.event.batch ==> k in w.db.deliveries && Claimable(w.db.deliveries[k], s.now)
    ensures Legal(w, s) && Effect(w, s.now, s.event) == Claim(w.db, s.event.batch, s.now, s.event.lockFor)
  {
    hide Claimable, Claim;
  }

  lemma LegalLoad(w: World, s: Step)
    requires w.clock <= s.now && s.event.Load?
    ensures Legal(w, s) && Effect(w, s.now, s.event) == w.db
  {
  }

  lemma ClaimFlights(w: World, s: Step, f: FlightKey)
    requires s.event.ClaimBatch? && s.event.batch <= w.db.deliveries.Keys
    ensures var flights := Flights(w, s.now, s.event);
      && (f in flights <==> f in w.inFlight || (f.session == s.event.session && f.delivery in s.event.batch))
      && (f in w.inFlight ==> flights[f] == w.inFlight[f])
      && (f in flights && f !in w.inFlight ==>
            flights[f] == Flight(w.db.deliveries[f.delivery].attempts + 1, s.now + s.event.lockFor, Unread, true, true))
  {
    if f.session == s.event.session && f.delivery in s.event.batch {
      assert f == FlightKey(s.event.session, f.delivery);
    }
  }
}
