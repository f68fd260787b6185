/** Status enumerations shared by the whole program. */
module Contracts {

  datatype ReminderStatus = Active | Paused | Archived

  datatype OccurrenceStatus = OccPending | OccDispatching | OccSent | OccDone | OccSkipped | OccExpired | OccFailed

  datatype DeliveryStatus = Pending | Sent | Done | Skipped | Snoozed | Failed | Blocked

  datatype ActionKind = DoneAction | SnoozeAction | SkipAction | AutoExpireAction

  datatype ErrorClass = RetryAfter | Forbidden | BadRequest | Transient

  predicate IsTerminal(s: DeliveryStatus) {
    s in {Done, Skipped, Failed, Blocked}
  }

  predicate IsClosed(s: OccurrenceStatus) {
    s in {OccDone, OccSkipped, OccExpired, OccFailed}
  }

  /** Reactions that count as an outcome; a snooze postpones, it does not resolve. */
  predicate IsOutcome(k: ActionKind) {
    k != SnoozeAction
  }
}

/** Delivery retry policy. */
module Retry {
  import opened Zones
  import opened Contracts
  import opened Planning

  const MAX_ATTEMPTS: nat := 5
  const BASE_BACKOFF: int := 30_000_000
  const MAX_BACKOFF: int := 1_800_000_000

  predicate IsFatal(e: ErrorClass) {
    e == Forbidden || e == BadRequest
  }

  predicate ShouldRetry(attempts: nat, e: ErrorClass) {
    !IsFatal(e) && (e == RetryAfter || attempts < MAX_ATTEMPTS)
  }

  function Pow2(n: nat): (p: nat)
    ensures p >= 1
  {
    if n == 0 then 1 else 2 * Pow2(n - 1)
  }

  function Backoff(attempts: nat): int {
    Min(BASE_BACKOFF * Pow2(Min(Max(attempts, 1) - 1, 16)), MAX_BACKOFF)
  }

  /** `retryAfter` is in seconds. */
  function NextAttempt(attempts: nat, e: ErrorClass, now: int, retryAfter: Option<int>): int
    requires !IsFatal(e)
  {
    if e == RetryAfter then
      now + (Max(if retryAfter.Some? then retryAfter.value else 0, 0) + 1) * 1_000_000
    else now + Backoff(attempts)
  }

  lemma {:induction false} Pow2Grows(n: nat, m: nat)
    requires n <= m
    ensures Pow2(n) <= Pow2(m)
  {
    if n < m { Pow2Grows(n, m - 1); }
  }

  /** The delay starts at half a minute, never shrinks from one failure to the next, and stops
      growing at half an hour, which it reaches at the seventh failure. */
  lemma BackoffGrows(attempts: nat, later: nat)
    requires attempts <= later
    ensures BASE_BACKOFF <= Backoff(attempts) <= Backoff(later) <= MAX_BACKOFF
    ensures Backoff(1) == BASE_BACKOFF && (attempts >= 7 ==> Backoff(attempts) == MAX_BACKOFF)
  {
    var n, m := Min(Max(attempts, 1) - 1, 16), Min(Max(later, 1) - 1, 16);
    Pow2Grows(n, m);
    assert Pow2(6) == 64 by { assert Pow2(3) == 8; }
    if attempts >= 7 { Pow2Grows(6, n); }
  }

  /** Half a minute at first, twice as much after every failure, half an hour at most. */
  lemma BackoffDoubles(attempts: nat)
    requires attempts >= 1
    ensures Backoff(1) == 30_000_000
    ensures Backoff(attempts + 1) == Min(2 * Backoff(attempts), 1_800_000_000)
  {
    if attempts >= 7 {
      BackoffGrows(7, attempts);
      BackoffGrows(7, attempts + 1);
    } else {
      assert Pow2(attempts) == 2 * Pow2(attempts - 1);
    }
  }
}

/** Dispatcher decisions: what one delivery attempt does to its row. */
module Dispatching {
  import opened Contracts
  import opened Planning
  import opened Retry

  datatype AbortReason = OccurrenceClosed | UserBlocked | ContextMissing

  /** `attempts` is the counter the row keeps, not a delta. */
  datatype Verdict = Verdict(status: DeliveryStatus, attempts: nat, nextAttemptAt: Option<int>, blocksUser: bool)

  function CheckDeliverable(s: OccurrenceStatus, userBlocked: bool): Option<AbortReason> {
    if IsClosed(s) then Some(OccurrenceClosed) else if userBlocked then Some(UserBlocked) else None
  }

  function Refund(attempts: nat): nat {
    if attempts == 0 then 0 else attempts - 1
  }

  function DecideAbort(reason: AbortReason, attempts: nat): Verdict {
    Verdict(if reason == UserBlocked then Blocked else Failed, Refund(attempts), None, false)
  }

  function DecideSuccess(): Verdict {
    Verdict(Sent, 0, None, false)
  }

  function DecideFailure(attempts: nat, e: ErrorClass, now: int, retryAfter: Option<int>): Verdict {
    if e == Forbidden then Verdict(Blocked, attempts, None, true)
    else if !ShouldRetry(attempts, e) then Verdict(Failed, attempts, None, false)
    else Verdict(Pending, if e == RetryAfter then Refund(attempts) else attempts,
                 Some(NextAttempt(attempts, e, now, retryAfter)), false)
  }

  /** The error table, seen from the attempt counter before the claim charged it: only a transient
      failure is charged, only the fifth one in a row ends the delivery, and a retry always lies
      ahead, after flood control by more than was asked for. */
  lemma ErrorTable(before: nat, e: ErrorClass, now: int, retryAfter: Option<int>, reason: AbortReason)
    ensures var v := DecideFailure(before + 1, e, now, retryAfter);
      && (v.status == Pending <==> e == RetryAfter || (e == Transient && before + 1 < MAX_ATTEMPTS))
      && (v.status == Blocked <==> e == Forbidden) && (v.blocksUser <==> e == Forbidden)
      && (v.status in {Pending, Blocked, Failed})
      && (v.nextAttemptAt.Some? <==> v.status == Pending)
      && (v.status == Pending
          ==> now < v.nextAttemptAt.value && v.attempts == if e == Transient then before + 1 else before)
      && (v.status == Pending && e == Transient ==> v.nextAttemptAt == Some(now + Backoff(before + 1)))
      && (e == RetryAfter && retryAfter.Some? ==> now + retryAfter.value * 1_000_000 < v.nextAttemptAt.value)
    ensures DecideAbort(reason, before + 1).attempts == before && IsTerminal(DecideAbort(reason, before + 1).status)
  {
    BackoffGrows(before + 1, before + 1);
  }
}

/** Reaction decisions: whether a tap counts and what it writes. */
module Reactions {
  import opened Zones
  import opened Contracts
  import opened Planning
  import opened QuietHours

  datatype RejectReason = AlreadyHandled | TooLate

  datatype Reaction = Reaction(status: DeliveryStatus, reactedAt: Option<int>, snoozedUntil: Option<int>)

  predicate IsPostponed(s: DeliveryStatus, snoozedUntil: Option<int>, now: int) {
    s == Snoozed && snoozedUntil.Some? && snoozedUntil.value > now
  }

  function CheckReactable(kind: ActionKind, delivery: DeliveryStatus, occurrence: OccurrenceStatus, expiresAt: int,
                          snoozedUntil: Option<int>, now: int): Option<RejectReason>
  {
    if IsTerminal(delivery) then Some(AlreadyHandled)
    else if IsClosed(occurrence) || expiresAt <= now then Some(TooLate)
    else if kind == SnoozeAction && IsPostponed(delivery, snoozedUntil, now) then Some(AlreadyHandled)
    else None
  }

  function Postpone(now: int, snoozeMinutes: int, quiet: Quiet, expiresAt: int): int {
    var requested := now + snoozeMinutes * 60_000_000;
    var postponed := Shift(quiet, requested);
    if postponed >= expiresAt then requested else postponed
  }

  /** `None` is the source's `ValueError`: a snooze of less than a minute, or a kind no recipient can
      press. */
  function DecideReaction(kind: ActionKind, now: int, snoozeMinutes: int, quiet: Quiet,
                          expiresAt: int): Option<Reaction> {
    match kind
    case SnoozeAction =>
      if snoozeMinutes < 1 then None
      else Some(Reaction(Snoozed, None, Some(Postpone(now, snoozeMinutes, quiet, expiresAt))))
    case DoneAction => Some(Reaction(Done, Some(now), None))
    case SkipAction => Some(Reaction(Skipped, Some(now), None))
    case AutoExpireAction => None
  }

  function RollUp(kind: ActionKind, everyDeliveryTerminal: bool): Option<OccurrenceStatus> {
    if !everyDeliveryTerminal then None
    else match kind
      case DoneAction => Some(OccDone)
      case SkipAction => Some(OccSkipped)
      case _ => None
  }

  /** A snooze is never answered by the very next dispatcher cycle, keeps the silence whenever the
      occurrence outlives it, and otherwise comes back when asked rather than never. */
  lemma PostponeContract(now: int, snoozeMinutes: int, quiet: Quiet, expiresAt: int)
    requires snoozeMinutes >= 1
    ensures var t := Postpone(now, snoozeMinutes, quiet, expiresAt); var requested := now + snoozeMinutes * MINUTE;
      && now < requested <= t
      && (Shift(quiet, requested) < expiresAt ==> t == Shift(quiet, requested))
      && (Shift(quiet, requested) >= expiresAt ==> t == requested)
  {
    hide Shift;
    ShiftContract(quiet, now + snoozeMinutes * 60_000_000);
  }
}

/** Reaper decisions: what one sweep does to a delivery. */
module Sweeping {
  import opened Zones
  import opened Contracts
  import opened Planning
  import opened QuietHours

  predicate IsOverdue(s: OccurrenceStatus, expiresAt: int, now: int) {
    !IsClosed(s) && expiresAt < now
  }

  function DecideRepeat(sentAt: Option<int>, repeatAfterMinutes: Option<int>, repeatsSent: nat, maxRepeats: nat,
                        expiresAt: int, quiet: Quiet, now: int): Option<int>
  {
    if repeatAfterMinutes.None? || sentAt.None? then None
    else if repeatsSent >= maxRepeats then None
    else if sentAt.value + repeatAfterMinutes.value * 60_000_000 > now then None
    else
      var moment := Shift(quiet, now);
      if moment >= expiresAt then None else Some(moment)
  }

  /** A repeat is granted exactly when one was asked for, its time has come, the budget has room and
      the recipient's silence ends while the occurrence lives; it comes back at once or at the end of
      that silence. */
  lemma RepeatContract(sentAt: Option<int>, repeatAfterMinutes: Option<int>, repeatsSent: nat, maxRepeats: nat,
                       expiresAt: int, quiet: Quiet, now: int)
    ensures var plan := DecideRepeat(sentAt, repeatAfterMinutes, repeatsSent, maxRepeats, expiresAt, quiet, now);
      && (plan.Some? <==>
            && repeatAfterMinutes.Some? && sentAt.Some? && repeatsSent < maxRepeats
            && sentAt.value + repeatAfterMinutes.value * MINUTE <= now && Shift(quiet, now) < expiresAt)
      && (plan.Some? ==>
        && now <= plan.value < expiresAt
        && (plan.value == now <==> !Covers(quiet, now))
        && (KeepsSilence(quiet) ==> !Covers(quiet, plan.value)))
  {
    hide Shift, Covers, KeepsSilence;
    ShiftContract(quiet, now);
    SilenceIsKept(quiet);
  }
}
