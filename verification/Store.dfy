/** The tables of the program as maps over their unique keys, and every transaction on them as a
    function from one committed state to the next. The journal of a delivery is kept in its row: its
    entries are only ever appended, and go when the delivery goes. */
module Store {
  import opened Zones
  import opened Schedules
  import opened Recurrence
  import opened Planning
  import opened QuietHours
  import opened Contracts
  import opened Dispatching
  import opened Reactions
  import opened Sweeping

  datatype User = User(quiet: Quiet, blocked: bool)

  datatype Reminder = Reminder(
    owner: int,
    schedule: Schedule,
    zone: Zone,
    startsAt: int,
    endsAt: Option<int>,
    maxOccurrences: Option<nat>,
    snoozeMinutes: int,
    repeatAfterMinutes: Option<int>,
    maxRepeats: nat,
    status: ReminderStatus,
    plannedUntil: Option<int>,
    firedCount: int)

  datatype Role = Owner | Watcher

  /** Unique key `(reminder_id, user_id)`. */
  datatype RecipientKey = RecipientKey(reminder: int, user: int)

  datatype Recipient = Recipient(role: Role, acceptedAt: Option<int>)

  /** Unique key `(reminder_id, scheduled_for)`. */
  datatype OccurrenceKey = OccurrenceKey(reminder: int, scheduledFor: int)

  datatype Occurrence = Occurrence(fireAt: int, status: OccurrenceStatus, repeatsSent: nat, expiresAt: int)

  /** Unique key `(occurrence_id, user_id)`. */
  datatype DeliveryKey = DeliveryKey(occurrence: OccurrenceKey, user: int)

  datatype Action = Action(kind: ActionKind, at: int)

  datatype Delivery = Delivery(
    status: DeliveryStatus,
    attempts: nat,
    nextAttemptAt: int,
    lockedUntil: Option<int>,
    sentAt: Option<int>,
    reactedAt: Option<int>,
    snoozedUntil: Option<int>,
    actions: seq<Action>)

  datatype Tables = Tables(
    users: map<int, User>,
    reminders: map<int, Reminder>,
    recipients: map<RecipientKey, Recipient>,
    occurrences: map<OccurrenceKey, Occurrence>,
    deliveries: map<DeliveryKey, Delivery>)

  /** Foreign keys. */
  ghost predicate References(db: Tables) {
    && (forall k :: k in db.deliveries ==> k.occurrence in db.occurrences && k.user in db.users)
    && (forall k :: k in db.occurrences ==> k.reminder in db.reminders)
    && (forall k :: k in db.recipients ==> k.reminder in db.reminders && k.user in db.users)
    && (forall r :: r in db.reminders ==> db.reminders[r].owner in db.users)
  }

  // ---------------------------------------------------------------------------------------------
  // planner.materialize
  // ---------------------------------------------------------------------------------------------

  /** The scheduled instants of a reminder's occurrence rows. */
  function Scheduled(db: Tables, reminder: int): set<int> {
    set k | k in db.occurrences && k.reminder == reminder :: k.scheduledFor
  }

  function PlanOf(db: Tables, reminder: int): Plan
    requires reminder in db.reminders
  {
    var r := db.reminders[reminder];
    Plan(r.schedule, r.zone, r.startsAt, r.endsAt, r.maxOccurrences, r.plannedUntil, r.status == Active,
         Scheduled(db, reminder))
  }

  /** `list_accepted_user_ids`: the owner always accepts. */
  predicate IsAccepted(r: Recipient) {
    r.role == Owner || r.acceptedAt.Some?
  }

  function AcceptedUsers(db: Tables, reminder: int): set<int> {
    set k | k in db.recipients && k.reminder == reminder && IsAccepted(db.recipients[k]) :: k.user
  }

  function FreshOccurrence(quiet: Quiet, moment: int, ttl: nat): Occurrence {
    Occurrence(Shift(quiet, moment), OccPending, 0, Shift(quiet, moment) + ttl)
  }

  function FreshDelivery(fireAt: int): Delivery {
    Delivery(Pending, 0, fireAt, None, None, None, None, [])
  }

  function KeysOf(reminder: int, moments: seq<int>): set<OccurrenceKey> {
    set t | t in moments :: OccurrenceKey(reminder, t)
  }

  /** `OccurrencesRepository.insert_missing`. */
  function InsertOccurrences(rows: map<OccurrenceKey, Occurrence>, reminder: int, moments: seq<int>, quiet: Quiet,
                             ttl: nat)
    : map<OccurrenceKey, Occurrence>
  {
    map k | k in rows.Keys + KeysOf(reminder, moments) ::
      if k in rows then rows[k] else FreshOccurrence(quiet, k.scheduledFor, ttl)
  }

  /** `DeliveriesRepository.insert_missing` for every pair of an occurrence and a user. */
  function InsertDeliveries(rows: map<DeliveryKey, Delivery>, occurrences: map<OccurrenceKey, Occurrence>,
                            keys: set<OccurrenceKey>, users: set<int>): map<DeliveryKey, Delivery>
    requires keys <= occurrences.Keys
  {
    map k | k in rows.Keys + (set o, u | o in keys && u in users :: DeliveryKey(o, u)) ::
      if k in rows then rows[k] else FreshDelivery(occurrences[k.occurrence].fireAt)
  }

  /** `_materialize_one`, for one reminder the cycle has selected. */
  ghost function MaterializeOne(db: Tables, reminder: int, horizonEnd: int, ttl: nat): Tables
    requires reminder in db.reminders
  {
    var r := db.reminders[reminder];
    if r.owner !in db.users then db
    else
      var plan := PlanOf(db, reminder);
      var moments := plan.Moments(horizonEnd);
      var next := plan.Cycle(horizonEnd);
      var occurrences := InsertOccurrences(db.occurrences, reminder, moments, db.users[r.owner].quiet, ttl);
      db.(occurrences := occurrences,
          deliveries := InsertDeliveries(db.deliveries, occurrences, KeysOf(reminder, moments),
                                         AcceptedUsers(db, reminder)),
          reminders := db.reminders[reminder := r.(plannedUntil := next.plannedUntil, firedCount := |next.done|,
                                                   status := if next.active then r.status else Archived)])
  }

  // ---------------------------------------------------------------------------------------------
  // dispatcher.deliver
  // ---------------------------------------------------------------------------------------------

  predicate Claimable(d: Delivery, now: int) {
    && d.status in {Pending, Snoozed}
    && d.nextAttemptAt <= now
    && (d.lockedUntil.None? || d.lockedUntil.value < now)
  }

  /** The queue: due longest first, then by id. */
  predicate IsQueuedBefore(db: Tables, ids: DeliveryKey -> int, k: DeliveryKey, j: DeliveryKey)
    requires k in db.deliveries && j in db.deliveries
  {
    var a, b := db.deliveries[k].nextAttemptAt, db.deliveries[j].nextAttemptAt;
    a < b || (a == b && ids(k) <= ids(j))
  }

  /** The rows one claim selects: the first of the queue, never more than the batch size. */
  ghost predicate IsClaim(db: Tables, ids: DeliveryKey -> int, now: int, limit: nat, batch: set<DeliveryKey>) {
    var due := set k | k in db.deliveries && Claimable(db.deliveries[k], now);
    && batch <= due
    && |batch| == Min(limit, |due|)
    && forall k, j :: k in batch && j in due - batch ==> IsQueuedBefore(db, ids, k, j)
  }

  function ClaimRow(d: Delivery, until: int): Delivery {
    d.(lockedUntil := Some(until), attempts := d.attempts + 1)
  }

  function Claim(db: Tables, batch: set<DeliveryKey>, now: int, lockFor: int): Tables {
    db.(deliveries := map k | k in db.deliveries ::
          if k in batch then ClaimRow(db.deliveries[k], now + lockFor) else db.deliveries[k])
  }

  /** What the network said. */
  datatype SendResult = Accepted | Refused(error: ErrorClass, retryAfter: Option<int>)

  predicate IsSendable(s: OccurrenceStatus) {
    s == OccPending || s == OccDispatching
  }

  predicate HasContext(db: Tables, key: DeliveryKey) {
    key.occurrence in db.occurrences && key.occurrence.reminder in db.reminders && key.user in db.users
  }

  /** What a session knows of the occurrence and the recipient of a row it has claimed. It reads them
      once for its whole batch: after that its own writes show, everybody else's do not. */
  datatype View = Unread | NoContext | Seen(status: OccurrenceStatus, blocked: bool)

  function ViewOf(db: Tables, key: DeliveryKey): View {
    if HasContext(db, key) then Seen(db.occurrences[key.occurrence].status, db.users[key.user].blocked) else NoContext
  }

  /** A claimed row on its way to a verdict: the counter the claim returned, the end of the lease, what
      was read, and whether the row and the occurrence it was claimed with are still there. */
  datatype Flight = Flight(attempts: nat, until: int, view: View, row: bool, occurrence: bool)

  function AbortFor(view: View): Option<AbortReason> {
    match view
    case Seen(status, blocked) => CheckDeliverable(status, blocked)
    case _ => Some(ContextMissing)
  }

  /** What one attempt at a claimed row decides. */
  function VerdictFor(f: Flight, now: int, result: SendResult): Verdict {
    match AbortFor(f.view)
    case Some(reason) => DecideAbort(reason, f.attempts)
    case None =>
      match result
      case Accepted => DecideSuccess()
      case Refused(e, retryAfter) => DecideFailure(f.attempts, e, now, retryAfter)
  }

  predicate GoesOut(f: Flight, result: SendResult) {
    AbortFor(f.view).None? && result.Accepted?
  }

  /** A message went out under an occurrence that is still there and was read as not yet sent. */
  predicate MovesOn(f: Flight, result: SendResult) {
    GoesOut(f, result) && f.occurrence && IsSendable(f.view.status)
  }

  /** `_apply`, on the row alone. */
  function ApplyRow(d: Delivery, v: Verdict, sentAt: Option<int>): Delivery {
    d.(status := v.status, attempts := v.attempts, lockedUntil := None,
       nextAttemptAt := if v.nextAttemptAt.Some? then v.nextAttemptAt.value else d.nextAttemptAt,
       sentAt := if sentAt.Some? then sentAt else d.sentAt)
  }

  function SettledRow(d: Delivery, f: Flight, now: int, result: SendResult): Delivery {
    ApplyRow(d, VerdictFor(f, now, result), if GoesOut(f, result) then Some(now) else None)
  }

  /** `_deliver_one`. What is gone since the claim is not there to be written. */
  function DeliverOne(db: Tables, key: DeliveryKey, f: Flight, now: int, result: SendResult): Tables {
    var o := key.occurrence;
    db.(deliveries := if f.row && key in db.deliveries
        then db.deliveries[key := SettledRow(db.deliveries[key], f, now, result)]
                      else db.deliveries,
        users := if VerdictFor(f, now, result).blocksUser && key.user in db.users
                 then db.users[key.user := db.users[key.user].(blocked := true)] else db.users,
        occurrences := if MovesOn(f, result) && o in db.occurrences
                       then db.occurrences[o := db.occurrences[o].(status := OccSent)] else db.occurrences)
  }

  /** How a session's own verdict on one row shows in what it knows of another. */
  function Refreshed(view: View, other: DeliveryKey, key: DeliveryKey, f: Flight, now: int, result: SendResult): View {
    match view
    case Seen(status, blocked) =>
      Seen(if MovesOn(f, result) && other.occurrence == key.occurrence then OccSent else status,
           blocked || (VerdictFor(f, now, result).blocksUser && other.user == key.user))
    case _ => view
  }

  // ---------------------------------------------------------------------------------------------
  // Reactions
  // ---------------------------------------------------------------------------------------------

  datatype ReactOutcome = Applied | Rejected(reason: RejectReason) | NotFound | NotYours | Invalid

  function ReactRow(d: Delivery, kind: ActionKind, r: Reaction, now: int): Delivery {
    d.(status := r.status, lockedUntil := None,
       reactedAt := if r.reactedAt.Some? then r.reactedAt else d.reactedAt,
       snoozedUntil := if r.snoozedUntil.Some? then r.snoozedUntil else d.snoozedUntil,
       nextAttemptAt := if r.snoozedUntil.Some? then r.snoozedUntil.value else d.nextAttemptAt,
       actions := d.actions + [Action(kind, now)])
  }

  predicate AllTerminal(deliveries: map<DeliveryKey, Delivery>, o: OccurrenceKey) {
    forall k :: k in deliveries && k.occurrence == o ==> IsTerminal(deliveries[k].status)
  }

  function React(db: Tables, key: DeliveryKey, user: int, kind: ActionKind, now: int): (Tables, ReactOutcome) {
    if key !in db.deliveries then (db, NotFound)
    else if key.user != user then (db, NotYours)
    else if !HasContext(db, key) then (db, NotFound)
    else
      var d, o := db.deliveries[key], db.occurrences[key.occurrence];
      match CheckReactable(kind, d.status, o.status, o.expiresAt, d.snoozedUntil, now)
      case Some(reason) => (db, Rejected(reason))
      case None =>
        match DecideReaction(kind, now, db.reminders[key.occurrence.reminder].snoozeMinutes, db.users[user].quiet,
                             o.expiresAt)
        case None => (db, Invalid)
        case Some(reaction) => (Answered(db, key, kind, reaction, now), Applied)
  }

  /** `_write` and `_close_occurrence`. */
  function Answered(db: Tables, key: DeliveryKey, kind: ActionKind, r: Reaction, now: int): Tables
    requires key in db.deliveries && key.occurrence in db.occurrences
  {
    var deliveries := db.deliveries[key := ReactRow(db.deliveries[key], kind, r, now)];
    var closing := if IsTerminal(r.status) then RollUp(kind, AllTerminal(deliveries, key.occurrence)) else None;
    db.(deliveries := deliveries,
        occurrences := if closing.None? then db.occurrences
                       else db.occurrences[key.occurrence := db.occurrences[key.occurrence].(status := closing.value)])
  }

  // ---------------------------------------------------------------------------------------------
  // reaper.sweep
  // ---------------------------------------------------------------------------------------------

  function ExpireRow(d: Delivery, now: int): Delivery {
    if d.status == Sent then d.(actions := d.actions + [Action(AutoExpireAction, now)]) else d
  }

  /** `_expire_overdue`: silence is recorded for whoever has the message and never answered. */
  function Expire(db: Tables, overdue: set<OccurrenceKey>, now: int): Tables {
    db.(occurrences := map o | o in db.occurrences ::
          if o in overdue then db.occurrences[o].(status := OccExpired) else db.occurrences[o],
        deliveries := map k | k in db.deliveries ::
          if k.occurrence in overdue then ExpireRow(db.deliveries[k], now) else db.deliveries[k])
  }

  /** The `WHERE` clause of `list_repeat_candidates`. */
  predicate IsRepeatCandidate(db: Tables, key: DeliveryKey, now: int) {
    && key in db.deliveries && HasContext(db, key)
    && var d, o, r := db.deliveries[key], db.occurrences[key.occurrence], db.reminders[key.occurrence.reminder];
       && d.status == Sent && d.reactedAt.None? && d.sentAt.Some?
       && r.repeatAfterMinutes.Some? && o.repeatsSent < r.maxRepeats && now < o.expiresAt
       && d.sentAt.value + r.repeatAfterMinutes.value * 60_000_000 <= now
  }

  function RepeatMoment(db: Tables, key: DeliveryKey, now: int): Option<int>
    requires key in db.deliveries && HasContext(db, key)
  {
    var d, o, r := db.deliveries[key], db.occurrences[key.occurrence], db.reminders[key.occurrence.reminder];
    DecideRepeat(d.sentAt, r.repeatAfterMinutes, o.repeatsSent, r.maxRepeats, o.expiresAt, db.users[key.user].quiet,
                 now)
  }

  /** Candidates the domain lets back into the queue. */
  predicate IsRepeated(db: Tables, candidates: set<DeliveryKey>, key: DeliveryKey, now: int) {
    key in candidates && IsRepeatCandidate(db, key, now) && RepeatMoment(db, key, now).Some?
  }

  function RepeatRow(d: Delivery, moment: int): Delivery {
    d.(status := Pending, nextAttemptAt := moment, lockedUntil := None)
  }

  /** `_repeat_unanswered`: one sweep costs an occurrence one repeat however many recipients it
      reaches. */
  function Repeat(db: Tables, candidates: set<DeliveryKey>, now: int): Tables {
    db.(deliveries := map k | k in db.deliveries ::
          if IsRepeated(db, candidates, k, now) then RepeatRow(db.deliveries[k], RepeatMoment(db, k, now).value)
            else db.deliveries[k],
        occurrences := map o | o in db.occurrences ::
          if exists k :: k in candidates && k.occurrence == o && IsRepeated(db, candidates, k, now)
          then db.occurrences[o].(repeatsSent := db.occurrences[o].repeatsSent + 1) else db.occurrences[o])
  }

  function ReleaseRow(d: Delivery, now: int): Delivery {
    if d.lockedUntil.Some? && d.lockedUntil.value < now && d.status in {Pending, Snoozed} then d.(lockedUntil := None)
      else d
  }

  function ReleaseStaleLocks(db: Tables, now: int): Tables {
    db.(deliveries := map k | k in db.deliveries :: ReleaseRow(db.deliveries[k], now))
  }

  function Sweep(db: Tables, overdue: set<OccurrenceKey>, candidates: set<DeliveryKey>, now: int): Tables {
    ReleaseStaleLocks(Repeat(Expire(db, overdue, now), candidates, now), now)
  }

  // ---------------------------------------------------------------------------------------------
  // Pause, resume, edit
  // ---------------------------------------------------------------------------------------------

  /** Occurrences nothing has gone out for: still pending, and so is every delivery of theirs. */
  predicate IsUnsent(db: Tables, o: OccurrenceKey) {
    && o in db.occurrences && db.occurrences[o].status == OccPending
    && forall k :: k in db.deliveries && k.occurrence == o ==> db.deliveries[k].status == Pending
  }

  function Unsent(db: Tables, reminder: int): set<OccurrenceKey> {
    set o | o in db.occurrences && o.reminder == reminder && IsUnsent(db, o)
  }

  /** `_drop_queued`: deliveries follow by cascade, and the planner starts over. */
  function DropQueued(db: Tables, reminder: int): Tables
    requires reminder in db.reminders
  {
    var dropped := Unsent(db, reminder);
    var r := db.reminders[reminder];
    db.(occurrences := db.occurrences - dropped,
        deliveries := map k | k in db.deliveries && k.occurrence !in dropped :: db.deliveries[k],
        reminders := db.reminders[reminder := r.(plannedUntil := None, firedCount := Max(r.firedCount - |dropped|, 0))])
  }

  datatype EditOutcome = Edited | Missing | Denied | Exhausted

  function EditableBy(db: Tables, owner: int, reminder: int): EditOutcome {
    if reminder !in db.reminders then Missing
    else if db.reminders[reminder].owner != owner || db.reminders[reminder].status == Archived then Denied
    else Edited
  }

  function SetStatus(db: Tables, owner: int, reminder: int, status: ReminderStatus): (Tables, EditOutcome) {
    var gate := EditableBy(db, owner, reminder);
    if gate != Edited then (db, gate)
    else
      var changed := db.(reminders := db.reminders[reminder := db.reminders[reminder].(status := status)]);
      (if status == Active then changed else DropQueued(changed, reminder), Edited)
  }

  /** How far ahead a schedule must fire to be accepted. */
  const MAX_DAYS_AHEAD: int := 366

  /** `first_fire_at`. */
  ghost function FirstFireAt(s: Schedule, z: Zone, startsAt: int): Option<int> {
    var moments := Expansion(s, z, startsAt - BOUNDARY, startsAt + MAX_DAYS_AHEAD * DAY, 1);
    if moments == [] then None else Some(moments[0])
  }

  ghost function ReplaceSchedule(db: Tables, owner: int, reminder: int, s: Schedule, now: int): (Tables, EditOutcome) {
    var gate := EditableBy(db, owner, reminder);
    if gate != Edited then (db, gate)
    else
      var r := db.reminders[reminder];
      if FirstFireAt(s, r.zone, Max(r.startsAt, now)).None? then (db, Exhausted)
      else (DropQueued(db.(reminders := db.reminders[reminder := r.(schedule := s)]), reminder), Edited)
  }

  // ---------------------------------------------------------------------------------------------
  // Sharing
  // ---------------------------------------------------------------------------------------------

  const WATCHERS_MAX: nat := 10

  function Watchers(db: Tables, reminder: int): set<RecipientKey> {
    set k | k in db.recipients && k.reminder == reminder && db.recipients[k].role == Watcher
  }

  /** `open_invite`, for a live invitation: a pending recipient row is left behind. */
  function OpenInvite(db: Tables, reminder: int, user: int): Tables {
    var key := RecipientKey(reminder, user);
    if reminder !in db.reminders || user !in db.users || key in db.recipients
      || |Watchers(db, reminder)| >= WATCHERS_MAX then db
    else db.(recipients := db.recipients[key := Recipient(Watcher, None)])
  }

  /** Queued occurrences still ahead. */
  function Upcoming(db: Tables, reminder: int, now: int): set<OccurrenceKey> {
    set o | o in db.occurrences && o.reminder == reminder && db.occurrences[o].status == OccPending
      && now < db.occurrences[o].fireAt
  }

  function AcceptInvite(db: Tables, user: int, reminder: int, now: int): Tables {
    var key := RecipientKey(reminder, user);
    if key !in db.recipients || db.recipients[key].role != Watcher || db.recipients[key].acceptedAt.Some? then db
    else
      db.(recipients := db.recipients[key := Recipient(Watcher, Some(now))],
          deliveries := InsertDeliveries(db.deliveries, db.occurrences, Upcoming(db, reminder, now), {user}))
  }

  /** `delete_pending_for_recipient`. */
  predicate IsQueuedFor(k: DeliveryKey, d: Delivery, reminder: int, user: int) {
    k.user == user && k.occurrence.reminder == reminder && d.status == Pending
  }

  function RemoveWatcher(db: Tables, user: int, reminder: int): Tables {
    var key := RecipientKey(reminder, user);
    if key in db.recipients && db.recipients[key].role == Watcher then db.(recipients := db.recipients - {key}) else db
  }

  function Leave(db: Tables, user: int, reminder: int): Tables {
    RemoveWatcher(
      db.(deliveries := map k | k in db.deliveries
          && !IsQueuedFor(k, db.deliveries[k], reminder, user) :: db.deliveries[k]),
      user, reminder)
  }
}
