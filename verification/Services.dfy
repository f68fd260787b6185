/** The services as they run: mutable tables, and transactions that change them step by step. Every
    method is proved equal to its transaction in `Store`. What a query would pick is passed in. */
module Services {
  import opened Ordering
  import opened Planning
  import opened Contracts
  import opened Dispatching
  import opened Sweeping
  import opened Store
  import opened Queue

  /** The committed tables. */
  class Database {
    var users: map<int, User>
    var reminders: map<int, Reminder>
    var recipients: map<RecipientKey, Recipient>
    var occurrences: map<OccurrenceKey, Occurrence>
    var deliveries: map<DeliveryKey, Delivery>

    constructor ()
      ensures Rows() == Tables(map[], map[], map[], map[], map[])
    {
      users, reminders, recipients, occurrences, deliveries := map[], map[], map[], map[], map[];
    }

    function Rows(): Tables
      reads this
    {
      Tables(users, reminders, recipients, occurrences, deliveries)
    }
  }

  // ---------------------------------------------------------------------------------------------
  // dispatcher.deliver
  // ---------------------------------------------------------------------------------------------

  /** What the network said about a message, and when. */
  datatype Answer = Answer(result: SendResult, at: int)

  /** A session in the middle of its batch: the tables, and the rows it has still to settle. */
  datatype Sending = Sending(db: Tables, flights: map<DeliveryKey, Flight>)

  /** The context of the whole batch, read in one query. */
  function Loaded(db: Tables, batch: set<DeliveryKey>, until: int): map<DeliveryKey, Flight> {
    map k | k in batch && k in db.deliveries :: Flight(db.deliveries[k].attempts, until, ViewOf(db, k), true, true)
  }

  /** What the session knows of its other rows once it has settled one. */
  function Others(flights: map<DeliveryKey, Flight>, key: DeliveryKey, answer: Answer): map<DeliveryKey, Flight>
    requires key in flights
  {
    map k | k in flights && k != key ::
      flights[k].(view := Refreshed(flights[k].view, k, key, flights[key], answer.at, answer.result))
  }

  function SettleOne(st: Sending, key: DeliveryKey, answer: Answer): Sending {
    if key !in st.flights then st
    else Sending(DeliverOne(st.db, key, st.flights[key], answer.at, answer.result), Others(st.flights, key, answer))
  }

  /** The batch, one row after the other. */
  function DeliverAll(st: Sending, batch: seq<DeliveryKey>, answers: DeliveryKey -> Answer): Sending {
    if batch == [] then st
    else SettleOne(DeliverAll(st, batch[..|batch| - 1], answers), batch[|batch| - 1], answers(batch[|batch| - 1]))
  }

  /** What became of each row of the batch. */
  function StatusesOf(st: Sending, batch: seq<DeliveryKey>, answers: DeliveryKey -> Answer): seq<DeliveryStatus> {
    if batch == [] then []
    else
      var init, last := batch[..|batch| - 1], batch[|batch| - 1];
      var before := DeliverAll(st, init, answers);
      StatusesOf(st, init, answers) +
      if last in before.flights then [VerdictFor(before.flights[last], answers(last).at, answers(last).result).status]
        else []
  }

  /** The session once it has claimed its batch and read what it needs of it. */
  function Claimed(db: Tables, batch: seq<DeliveryKey>, now: int, lock: nat): Sending {
    var claimed := Claim(db, Members(batch), now, lock);
    Sending(claimed, Loaded(claimed, Members(batch), now + lock))
  }

  datatype DispatchResult = DispatchResult(claimed: nat, sent: nat, retried: nat, failed: nat, blocked: nat)

  function DispatchCounts(statuses: seq<DeliveryStatus>): DispatchResult {
    DispatchResult(|statuses|, HowMany(statuses, Sent), HowMany(statuses, Pending), HowMany(statuses, Failed),
                   HowMany(statuses, Blocked))
  }

  /** No key of the set is queued before this one. */
  ghost predicate IsEarliest(db: Tables, ids: DeliveryKey -> int, keys: set<DeliveryKey>, k: DeliveryKey)
    requires keys <= db.deliveries.Keys
  {
    k in keys && forall j :: j in keys ==> IsQueuedBefore(db, ids, k, j)
  }

  lemma {:induction false} EarliestExists(db: Tables, ids: DeliveryKey -> int, keys: set<DeliveryKey>)
    requires keys != {} && keys <= db.deliveries.Keys
    ensures exists k :: IsEarliest(db, ids, keys, k)
  {
    var k :| k in keys;
    var rest := keys - {k};
    if rest == {} {
      assert keys == {k};
      assert IsEarliest(db, ids, keys, k);
    } else {
      EarliestExists(db, ids, rest);
      var m :| IsEarliest(db, ids, rest, m);
      var first := if IsQueuedBefore(db, ids, k, m) then k else m;
      forall j | j in keys ensures IsQueuedBefore(db, ids, first, j) {
        if j != k { assert j in rest; }
        QueueOrder(db, ids, k, m, j);
      }
      assert IsEarliest(db, ids, keys, first);
    }
  }

  lemma QueueOrder(db: Tables, ids: DeliveryKey -> int, k: DeliveryKey, m: DeliveryKey, j: DeliveryKey)
    requires k in db.deliveries && m in db.deliveries && j in db.deliveries
    ensures IsQueuedBefore(db, ids, k, k) && (IsQueuedBefore(db, ids, k, m) || IsQueuedBefore(db, ids, m, k))
    ensures IsQueuedBefore(db, ids, k, m) && IsQueuedBefore(db, ids, m, j) ==> IsQueuedBefore(db, ids, k, j)
  {
  }

  /** `batch` holds, in queue order, what was taken out of `due`; `left` is the rest. */
  ghost predicate IsPicked(db: Tables, ids: DeliveryKey -> int, due: set<DeliveryKey>, left: set<DeliveryKey>,
                           batch: seq<DeliveryKey>)
    requires due <= db.deliveries.Keys
  {
    && left <= due && Members(batch) == due - left && |batch| + |left| == |due|
    && (forall i :: 0 <= i < |batch| ==> batch[i] in due)
    && (forall i, j :: 0 <= i < j < |batch| ==> batch[i] != batch[j] && IsQueuedBefore(db, ids, batch[i], batch[j]))
    && (forall i, j :: 0 <= i < |batch| && j in left ==> IsQueuedBefore(db, ids, batch[i], j))
  }

  lemma PickNext(db: Tables, ids: DeliveryKey -> int, due: set<DeliveryKey>, left: set<DeliveryKey>,
                 batch: seq<DeliveryKey>, k: DeliveryKey)
    requires due <= db.deliveries.Keys && IsPicked(db, ids, due, left, batch) && IsEarliest(db, ids, left, k)
    ensures IsPicked(db, ids, due, left - {k}, batch + [k])
  {
    hide IsQueuedBefore;
    var next := batch + [k];
    forall j ensures j in Members(next) <==> j in due - (left - {k}) {
      assert j in next <==> j in batch || j == k;
      assert j in batch <==> j in Members(batch);
    }
    assert forall i :: 0 <= i < |batch| ==> batch[i] in Members(batch);
  }

  /** Taking the earliest rows one by one is what the claim asks for. */
  lemma PickedIsClaim(db: Tables, ids: DeliveryKey -> int, now: int, limit: nat, due: set<DeliveryKey>,
                      left: set<DeliveryKey>,
                      batch: seq<DeliveryKey>)
    requires due == set k | k in db.deliveries && Claimable(db.deliveries[k], now)
    requires IsPicked(db, ids, due, left, batch)
    requires |batch| <= limit && (|batch| == limit || left == {})
    ensures IsClaim(db, ids, now, limit, Members(batch))
  {
    hide Claimable, IsQueuedBefore;
    PickedSizes(due, left, batch);
    forall k, j | k in Members(batch) && j in due - Members(batch) ensures IsQueuedBefore(db, ids, k, j) {
      assert k in batch && j in left;
    }
    hide IsPicked, Members;
  }

  lemma PickedSizes(due: set<DeliveryKey>, left: set<DeliveryKey>, batch: seq<DeliveryKey>)
    requires left <= due && Members(batch) == due - left && |batch| + |left| == |due|
    requires forall i, j :: 0 <= i < j < |batch| ==> batch[i] != batch[j]
    ensures |Members(batch)| == |batch| && due - Members(batch) == left && (left == {} <==> |batch| == |due|)
  {
    DistinctSize(batch);
    hide Members;
  }

  class DispatchingService {
    const db: Database
    const batchSize: nat
    const lock: nat

    constructor (db: Database, batchSize: nat, lock: nat)
      ensures this.db == db && this.batchSize == batchSize && this.lock == lock
    {
      this.db, this.batchSize, this.lock := db, batchSize, lock;
    }

    /** The first rows of the queue, in queue order. */
    method SelectDue(now: int, ids: DeliveryKey -> int) returns (batch: seq<DeliveryKey>)
      ensures IsClaim(db.Rows(), ids, now, batchSize, Members(batch))
      ensures Members(batch) <= WaitingBy(db.Rows(), now)
      ensures |WaitingBy(db.Rows(), now)| <= batchSize ==> Members(batch) == WaitingBy(db.Rows(), now)
      ensures |WaitingBy(db.Rows(), now)| > batchSize ==> |batch| == batchSize
      ensures forall i :: 0 <= i < |batch| ==> batch[i] in db.deliveries
      ensures forall i, j :: 0 <= i < j < |batch|
                 ==> batch[i] != batch[j] && IsQueuedBefore(db.Rows(), ids, batch[i], batch[j])
    {
      hide Claimable, IsClaim, IsQueuedBefore, WaitingBy;
      var due := set k | k in db.deliveries && Claimable(db.deliveries[k], now);
      var left := due;
      batch := [];
      assert IsPicked(db.Rows(), ids, due, left, batch);
      while |batch| < batchSize && left != {}
        invariant |batch| <= batchSize && IsPicked(db.Rows(), ids, due, left, batch)
        decreases |left|
      {
        hide IsPicked;
        LeftIsDue(db.Rows(), ids, due, left, batch);
        EarliestExists(db.Rows(), ids, left);
        var k :| k in left && forall j :: j in left ==> IsQueuedBefore(db.Rows(), ids, k, j);
        PickNext(db.Rows(), ids, due, left, batch, k);
        batch := batch + [k];
        left := left - {k};
      }
      PickedIsClaim(db.Rows(), ids, now, batchSize, due, left, batch);
      ClaimTakesDue(db.Rows(), ids, now, batchSize, Members(batch));
      DistinctSize(batch);
    }

    /** `claim_due`. */
    method ClaimDue(now: int, ids: DeliveryKey -> int) returns (claimed: seq<DeliveryKey>)
      modifies db`deliveries
      ensures IsClaim(old(db.Rows()), ids, now, batchSize, Members(claimed))
      ensures Members(claimed) <= WaitingBy(old(db.Rows()), now)
      ensures |WaitingBy(old(db.Rows()), now)| <= batchSize ==> Members(claimed) == WaitingBy(old(db.Rows()), now)
      ensures forall i, j :: 0 <= i < j < |claimed| ==> claimed[i] != claimed[j]
      ensures db.Rows() == Claim(old(db.Rows()), Members(claimed), now, lock)
    {
      hide IsClaim, IsQueuedBefore, WaitingBy;
      claimed := SelectDue(now, ids);
      var batch := Members(claimed);
      db.deliveries := map k | k in db.deliveries :: if k in batch then ClaimRow(db.deliveries[k], now + lock)
        else db.deliveries[k];
    }

    /** `_apply`, given what the session knows of the occurrence. */
    method Apply(key: DeliveryKey, v: Verdict, sentAt: Option<int>, status: OccurrenceStatus)
      requires key in db.deliveries
      modifies db
      ensures db.deliveries == old(db.deliveries)[key := ApplyRow(old(db.deliveries)[key], v, sentAt)]
      ensures db.users == if v.blocksUser && key.user in old(db.users)
                          then old(db.users)[key.user := old(db.users)[key.user].(blocked := true)] else old(db.users)
      ensures var o, rows := key.occurrence, old(db.occurrences);
        db.occurrences == if sentAt.Some? && IsSendable(status) && o in rows then rows[o := rows[o].(status := OccSent)]
          else rows
      ensures db.reminders == old(db.reminders) && db.recipients == old(db.recipients)
    {
      var row := db.deliveries[key].(status := v.status, attempts := v.attempts, lockedUntil := None);
      if v.nextAttemptAt.Some? {
        row := row.(nextAttemptAt := v.nextAttemptAt.value);
      }
      if sentAt.Some? {
        row := row.(sentAt := sentAt);
      }
      db.deliveries := db.deliveries[key := row];
      if v.blocksUser && key.user in db.users {
        db.users := db.users[key.user := db.users[key.user].(blocked := true)];
      }
      var o := key.occurrence;
      if sentAt.Some? && IsSendable(status) && o in db.occurrences {
        db.occurrences := db.occurrences[o := db.occurrences[o].(status := OccSent)];
      }
    }

    /** `_deliver_one`, on what the session has read. */
    method DeliverRow(key: DeliveryKey, f: Flight, answer: Answer) returns (status: DeliveryStatus)
      requires key in db.deliveries && f.row && f.occurrence
      modifies db
      ensures db.Rows() == DeliverOne(old(db.Rows()), key, f, answer.at, answer.result)
      ensures status in {Sent, Pending, Failed, Blocked}
      ensures status == VerdictFor(f, answer.at, answer.result).status
    {
      hide ApplyRow;
      if !f.view.Seen? {
        var v := DecideAbort(ContextMissing, f.attempts);
        Apply(key, v, None, OccFailed);
        return v.status;
      }
      var abort := CheckDeliverable(f.view.status, f.view.blocked);
      if abort.Some? {
        var v := DecideAbort(abort.value, f.attempts);
        Apply(key, v, None, f.view.status);
        return v.status;
      }
      match answer.result
      case Refused(error, retryAfter) =>
        var v := DecideFailure(f.attempts, error, answer.at, retryAfter);
        Apply(key, v, None, f.view.status);
        return v.status;
      case Accepted =>
        Apply(key, DecideSuccess(), Some(answer.at), f.view.status);
        return DecideSuccess().status;
    }

    /** One dispatcher cycle: claim a batch, read its context once, send it row by row and write every
        verdict back. */
    method Deliver(now: int, ids: DeliveryKey -> int, answers: DeliveryKey -> Answer)
      returns (r: DispatchResult, ghost claimed: seq<DeliveryKey>)
      modifies db
      ensures IsClaim(old(db.Rows()), ids, now, batchSize, Members(claimed))
      ensures forall i, j :: 0 <= i < j < |claimed| ==> claimed[i] != claimed[j]
      ensures db.Rows() == DeliverAll(Claimed(old(db.Rows()), claimed, now, lock), claimed, answers).db
      ensures r == DispatchCounts(StatusesOf(Claimed(old(db.Rows()), claimed, now, lock), claimed, answers))
      ensures r.claimed == |claimed| <= batchSize
      ensures var statuses := StatusesOf(Claimed(old(db.Rows()), claimed, now, lock), claimed, answers);
        && r.sent == HowMany(statuses, Sent) && r.retried == HowMany(statuses, Pending)
        && r.failed == HowMany(statuses, Failed) && r.blocked == HowMany(statuses, Blocked)
      ensures r.claimed == r.sent + r.retried + r.failed + r.blocked
    {
      hide IsClaim, Claim, DeliverOne, DeliverAll, VerdictFor, HowMany, StatusesOf, IsQueuedBefore, Loaded, Others;
      var batch := ClaimDue(now, ids);
      claimed := batch;
      ghost var start := Claimed(old(db.Rows()), batch, now, lock);
      ClaimedExist(old(db.Rows()), ids, now, batchSize, lock, batch);
      var flights := Loaded(db.Rows(), Members(batch), now + lock);
      LoadedAll(db.Rows(), batch, now + lock);
      var statuses: seq<DeliveryStatus> := [];
      NoStatuses();
      DeliverNone(start, answers);
      assert batch[0..] == batch && batch[..0] == [];
      for i := 0 to |batch|
        invariant Sending(db.Rows(), flights) == DeliverAll(start, batch[..i], answers)
        invariant db.deliveries.Keys == start.db.deliveries.Keys && IsFull(flights, Members(batch[i..]))
        invariant |statuses| == i && Settled(statuses) && statuses == StatusesOf(start, batch[..i], answers)
      {
        ghost var before := db.Rows();
        RestOf(batch, i);
        FullHas(flights, Members(batch[i..]), batch[i]);
        var status := DeliverRow(batch[i], flights[batch[i]], answers(batch[i]));
        DeliverKeepsKeys(before, batch[i], flights[batch[i]], answers(batch[i]));
        DeliverNext(start, batch, i, answers);
        StatusesAdd(statuses, status);
        statuses := statuses + [status];
        OthersFull(flights, Members(batch[i..]), batch[i], answers(batch[i]));
        flights := Others(flights, batch[i], answers(batch[i]));
      }
      assert batch[..|batch|] == batch;
      r := DispatchCounts(statuses);
    }
  }

  /** Flights for exactly these rows, all of them still there. */
  ghost predicate IsFull(flights: map<DeliveryKey, Flight>, keys: set<DeliveryKey>) {
    flights.Keys == keys && forall k :: k in flights ==> flights[k].row && flights[k].occurrence
  }

  lemma FullHas(flights: map<DeliveryKey, Flight>, keys: set<DeliveryKey>, k: DeliveryKey)
    requires IsFull(flights, keys) && k in keys
    ensures k in flights && flights[k].row && flights[k].occurrence
  {
    assert k in flights.Keys;
  }

  lemma LoadedAll(db: Tables, batch: seq<DeliveryKey>, until: int)
    requires forall i :: 0 <= i < |batch| ==> batch[i] in db.deliveries.Keys
    ensures IsFull(Loaded(db, Members(batch), until), Members(batch))
  {
    hide ViewOf;
  }

  lemma OthersFull(flights: map<DeliveryKey, Flight>, keys: set<DeliveryKey>, k: DeliveryKey, answer: Answer)
    requires IsFull(flights, keys) && k in flights
    ensures IsFull(Others(flights, k, answer), keys - {k})
  {
    hide Refreshed;
    forall j ensures j in Others(flights, k, answer).Keys <==> j in keys - {k} {
      assert j in flights.Keys <==> j in keys;
    }
  }

  lemma RestOf(batch: seq<DeliveryKey>, i: nat)
    requires i < |batch| && forall i, j :: 0 <= i < j < |batch| ==> batch[i] != batch[j]
    ensures batch[i] in Members(batch[i..]) && Members(batch[i..]) - {batch[i]} == Members(batch[i + 1..])
  {
    assert batch[i..] == [batch[i]] + batch[i + 1..];
    assert batch[i] !in batch[i + 1..];
  }

  lemma LeftIsDue(db: Tables, ids: DeliveryKey -> int, due: set<DeliveryKey>, left: set<DeliveryKey>,
                  batch: seq<DeliveryKey>)
    requires due <= db.deliveries.Keys && IsPicked(db, ids, due, left, batch)
    ensures left <= db.deliveries.Keys
  {
  }

  lemma ClaimedExist(db: Tables, ids: DeliveryKey -> int, now: int, limit: nat, lock: nat, claimed: seq<DeliveryKey>)
    requires IsClaim(db, ids, now, limit, Members(claimed))
    requires forall i, j :: 0 <= i < j < |claimed| ==> claimed[i] != claimed[j]
    ensures |claimed| <= limit
    ensures forall i :: 0 <= i < |claimed| ==> claimed[i] in Claim(db, Members(claimed), now, lock).deliveries.Keys
  {
    DistinctSize(claimed);
    forall i | 0 <= i < |claimed| ensures claimed[i] in db.deliveries {
      assert claimed[i] in Members(claimed);
    }
  }

  lemma DeliverNone(st: Sending, answers: DeliveryKey -> Answer)
    ensures DeliverAll(st, [], answers) == st && StatusesOf(st, [], answers) == []
  {
  }

  lemma DeliverNext(st: Sending, batch: seq<DeliveryKey>, i: nat, answers: DeliveryKey -> Answer)
    requires i < |batch|
    ensures var before := DeliverAll(st, batch[..i], answers);
      && DeliverAll(st, batch[..i + 1], answers) == SettleOne(before, batch[i], answers(batch[i]))
      && (batch[i] in before.flights ==>
            StatusesOf(st, batch[..i + 1], answers)
            == StatusesOf(st, batch[..i], answers)
               + [VerdictFor(before.flights[batch[i]], answers(batch[i]).at, answers(batch[i]).result).status])
  {
    hide SettleOne, VerdictFor;
    assert batch[..i + 1][..i] == batch[..i];
  }

  /** The session knows of each of its rows what the tables say. */
  ghost predicate IsUpToDate(st: Sending) {
    forall k :: k in st.flights
        ==> st.flights[k].row && st.flights[k].occurrence && st.flights[k].view == ViewOf(st.db, k)
  }

  lemma ViewAfter(db: Tables, k: DeliveryKey, f: Flight, answer: Answer, j: DeliveryKey)
    requires f.view == ViewOf(db, k) && f.occurrence
    ensures Refreshed(ViewOf(db, j), j, k, f, answer.at, answer.result)
            == ViewOf(DeliverOne(db, k, f, answer.at, answer.result), j)
  {
    hide SettledRow;
    ViewBlocks(f, answer);
    hide VerdictFor, AbortFor;
  }

  lemma ViewBlocks(f: Flight, answer: Answer)
    ensures VerdictFor(f, answer.at, answer.result).blocksUser ==> f.view.Seen?
    ensures GoesOut(f, answer.result) ==> f.view.Seen?
  {
  }

  lemma OneUpToDate(st: Sending, k: DeliveryKey, answer: Answer)
    requires IsUpToDate(st)
    ensures IsUpToDate(SettleOne(st, k, answer))
  {
    hide DeliverOne, Refreshed, ViewOf;
    if k in st.flights {
      forall j | j in st.flights
        ensures Refreshed(ViewOf(st.db, j), j, k, st.flights[k], answer.at, answer.result)
                == ViewOf(DeliverOne(st.db, k, st.flights[k], answer.at, answer.result), j)
      {
        ViewAfter(st.db, k, st.flights[k], answer, j);
      }
    }
  }

  /** Reading once is harmless while nobody else writes: through its whole batch the session acts on what
      the tables say at that moment. */
  lemma {:induction false} AloneIsUpToDate(db: Tables, batch: seq<DeliveryKey>, now: int, lock: nat,
                                           answers: DeliveryKey -> Answer, n: nat)
    requires n <= |batch|
    ensures IsUpToDate(DeliverAll(Claimed(db, batch, now, lock), batch[..n], answers))
  {
    var st := Claimed(db, batch, now, lock);
    if n == 0 {
      DeliverNone(st, answers);
      assert batch[..0] == [];
      hide Claim, ViewOf, DeliverAll;
    } else {
      AloneIsUpToDate(db, batch, now, lock, answers, n - 1);
      DeliverNext(st, batch, n - 1, answers);
      hide IsUpToDate, Claimed, DeliverAll, SettleOne;
      OneUpToDate(DeliverAll(st, batch[..n - 1], answers), batch[n - 1], answers(batch[n - 1]));
    }
  }

  /** What is counted of a row is the status the row is left with. */
  lemma {:induction false} StatusesAreRows(st: Sending, batch: seq<DeliveryKey>, answers: DeliveryKey -> Answer)
    requires IsFull(st.flights, Members(batch)) && forall i :: 0 <= i < |batch| ==> batch[i] in st.db.deliveries.Keys
    requires forall i, j :: 0 <= i < j < |batch| ==> batch[i] != batch[j]
    ensures |StatusesOf(st, batch, answers)| == |batch|
    ensures forall i :: 0 <= i < |batch| ==>
      && batch[i] in DeliverAll(st, batch, answers).db.deliveries
      && StatusesOf(st, batch, answers)[i] == DeliverAll(st, batch, answers).db.deliveries[batch[i]].status
  {
    StatusesSoFar(st, batch, answers, |batch|);
    assert batch[..|batch|] == batch;
  }

  lemma {:induction false} StatusesSoFar(st: Sending, batch: seq<DeliveryKey>, answers: DeliveryKey -> Answer, n: nat)
    requires IsFull(st.flights, Members(batch)) && forall i :: 0 <= i < |batch| ==> batch[i] in st.db.deliveries.Keys
    requires (forall i, j :: 0 <= i < j < |batch| ==> batch[i] != batch[j]) && n <= |batch|
    ensures var so := DeliverAll(st, batch[..n], answers);
      && IsFull(so.flights, Members(batch[n..])) && so.db.deliveries.Keys == st.db.deliveries.Keys
      && |StatusesOf(st, batch[..n], answers)| == n
      && forall i :: 0 <= i < n ==>
           batch[i] in so.db.deliveries.Keys
             && StatusesOf(st, batch[..n], answers)[i] == so.db.deliveries[batch[i]].status
  {
    hide DeliverAll, StatusesOf, DeliverOne, VerdictFor, Others;
    if n == 0 {
      DeliverNone(st, answers);
      assert batch[..0] == [] && batch[0..] == batch;
    } else {
      var k, before := batch[n - 1], DeliverAll(st, batch[..n - 1], answers);
      StatusesSoFar(st, batch, answers, n - 1);
      RestOf(batch, n - 1);
      FullHas(before.flights, Members(batch[n - 1..]), k);
      DeliverNext(st, batch, n - 1, answers);
      DeliverKeepsKeys(before.db, k, before.flights[k], answers(k));
      OthersFull(before.flights, Members(batch[n - 1..]), k, answers(k));
      hide IsFull, Members;
      forall i | 0 <= i < n
        ensures StatusesOf(st, batch[..n], answers)[i]
                == DeliverOne(before.db, k, before.flights[k], answers(k).at,
                              answers(k).result).deliveries[batch[i]].status
      {
        SettledStatus(before.db, k, before.flights[k], answers(k), batch[i]);
      }
    }
  }

  lemma SettledStatus(db: Tables, k: DeliveryKey, f: Flight, answer: Answer, j: DeliveryKey)
    requires k in db.deliveries && j in db.deliveries && f.row
    ensures var after := DeliverOne(db, k, f, answer.at, answer.result);
      j in after.deliveries
      && after.deliveries[j].status == if j == k then VerdictFor(f, answer.at, answer.result).status
         else db.deliveries[j].status
  {
    hide VerdictFor, MovesOn;
  }

  lemma DeliverKeepsKeys(db: Tables, key: DeliveryKey, f: Flight, answer: Answer)
    ensures var after := DeliverOne(db, key, f, answer.at, answer.result);
      after.deliveries.Keys == db.deliveries.Keys && after.occurrences.Keys == db.occurrences.Keys
  {
    hide VerdictFor, MovesOn, SettledRow;
  }

  /** Every row of a cycle ends under exactly one of the four headings. */
  predicate Settled(statuses: seq<DeliveryStatus>) {
    HowMany(statuses, Sent) + HowMany(statuses, Pending) + HowMany(statuses, Failed) + HowMany(statuses, Blocked)
      == |statuses|
  }

  lemma NoStatuses()
    ensures Settled([])
  {
  }

  lemma StatusesAdd(statuses: seq<DeliveryStatus>, s: DeliveryStatus)
    requires Settled(statuses) && s in {Sent, Pending, Failed, Blocked}
    ensures Settled(statuses + [s])
  {
    OneMore(statuses, s, Sent);
    OneMore(statuses, s, Pending);
    OneMore(statuses, s, Failed);
    OneMore(statuses, s, Blocked);
  }

  // ---------------------------------------------------------------------------------------------
  // reaper.sweep
  // ---------------------------------------------------------------------------------------------

  /** One overdue occurrence. */
  function ExpireOne(db: Tables, o: OccurrenceKey, now: int): Tables
    requires o in db.occurrences
  {
    db.(occurrences := db.occurrences[o := db.occurrences[o].(status := OccExpired)],
        deliveries := map k | k in db.deliveries ::
          if k.occurrence == o then ExpireRow(db.deliveries[k], now) else db.deliveries[k])
  }

  lemma ExpireNone(db: Tables, now: int)
    ensures Expire(db, {}, now) == db
  {
  }

  lemma ExpireNext(db: Tables, some: set<OccurrenceKey>, o: OccurrenceKey, now: int)
    requires o in db.occurrences && o !in some
    ensures o in Expire(db, some, now).occurrences && Expire(db, some, now).occurrences[o] == db.occurrences[o]
    ensures ExpireOne(Expire(db, some, now), o, now) == Expire(db, some + {o}, now)
  {
    hide ExpireRow;
  }

  lemma ExpiredRows(before: map<DeliveryKey, Delivery>, after: map<DeliveryKey, Delivery>, o: OccurrenceKey, now: int)
    requires after.Keys == before.Keys
    requires forall k :: k in before ==>
      after[k] == if k.occurrence == o && before[k].status == Sent then ExpireRow(before[k], now) else before[k]
    ensures after == map k | k in before :: if k.occurrence == o then ExpireRow(before[k], now) else before[k]
  {
  }

  class ReaperService {
    const db: Database

    constructor (db: Database)
      ensures this.db == db
    {
      this.db := db;
    }

    /** The body of `_expire_overdue`: record silence for everybody who has the message, then close. */
    method ExpireOccurrence(o: OccurrenceKey, now: int)
      requires o in db.occurrences
      modifies db
      ensures db.Rows() == ExpireOne(old(db.Rows()), o, now)
    {
      var sent := set k | k in db.deliveries && k.occurrence == o && db.deliveries[k].status == Sent;
      var left := sent;
      while left != {}
        invariant left <= sent
        invariant db.deliveries.Keys == old(db.deliveries).Keys
        invariant forall k :: k in old(db.deliveries) ==>
          db.deliveries[k] == if k in sent && k !in left then ExpireRow(old(db.deliveries)[k], now)
            else old(db.deliveries)[k]
        invariant db.Rows() == old(db.Rows()).(deliveries := db.deliveries)
        decreases |left|
      {
        var k :| k in left;
        var row := db.deliveries[k];
        db.deliveries := db.deliveries[k := row.(actions := row.actions + [Action(AutoExpireAction, now)])];
        left := left - {k};
      }
      db.occurrences := db.occurrences[o := db.occurrences[o].(status := OccExpired)];
      ExpiredRows(old(db.deliveries), db.deliveries, o, now);
    }

    /** `_expire_overdue`: the query narrows the batch, the rule is checked again for each. */
    method ExpireOverdue(batch: seq<OccurrenceKey>, now: int) returns (expired: nat)
      requires forall i :: 0 <= i < |batch| ==> batch[i] in db.occurrences
      requires forall i, j :: 0 <= i < j < |batch| ==> batch[i] != batch[j]
      modifies db
      ensures var overdue := OverdueOf(old(db.Rows()), batch, now);
        db.Rows() == Expire(old(db.Rows()), Members(overdue), now) && expired == |overdue|
    {
      hide Expire, ExpireOne;
      var overdue := OverdueOf(db.Rows(), batch, now);
      OverdueAre(db.Rows(), batch, now);
      ghost var before := db.Rows();
      ExpireNone(before, now);
      assert Members(overdue[..0]) == {};
      for i := 0 to |overdue|
        invariant db.Rows() == Expire(before, Members(overdue[..i]), now)
      {
        MoreMembers(overdue, i);
        ExpireNext(before, Members(overdue[..i]), overdue[i], now);
        ExpireOccurrence(overdue[i], now);
      }
      assert overdue[..|overdue|] == overdue;
      expired := |overdue|;
    }

    /** `_repeat_unanswered`. */
    method RepeatUnanswered(candidates: seq<DeliveryKey>, now: int) returns (repeated: nat)
      requires forall i :: 0 <= i < |candidates| ==> IsRepeatCandidate(db.Rows(), candidates[i], now)
      requires forall i, j :: 0 <= i < j < |candidates| ==> candidates[i] != candidates[j]
      modifies db
      ensures db.Rows() == Repeat(old(db.Rows()), Members(candidates), now)
      ensures repeated == |RequeuedBy(old(db.Rows()), Members(candidates), now)|
    {
      hide Repeat, RepeatMoment, IsRepeated, IsRepeatCandidate, BumpedBy, PlannedRepeat, RequeuedBy;
      ghost var before := db.Rows();
      RepeatNone(before, now);
      // Read once: a shared reminder hands the same occurrence back for every recipient.
      var plans := map k | k in candidates :: PlannedRepeat(db.Rows(), k, now);
      var bumped: set<OccurrenceKey> := {};
      repeated := 0;
      assert Members(candidates[..0]) == {};
      for i := 0 to |candidates|
        invariant db.Rows() == Repeat(before, Members(candidates[..i]), now)
        invariant bumped == BumpedBy(before, Members(candidates[..i]), now)
        invariant repeated == |RequeuedBy(before, Members(candidates[..i]), now)|
      {
        var k := candidates[i];
        MoreMembers(candidates, i);
        RepeatNext(before, Members(candidates[..i]), k, now);
        RequeuedNext(before, Members(candidates[..i]), k, now);
        if plans[k].Some? {
          db.deliveries := db.deliveries[k := RepeatRow(db.deliveries[k], plans[k].value)];
          if k.occurrence !in bumped {
            var o := db.occurrences[k.occurrence];
            db.occurrences := db.occurrences[k.occurrence := o.(repeatsSent := o.repeatsSent + 1)];
            bumped := bumped + {k.occurrence};
          }
          repeated := repeated + 1;
        }
      }
      assert candidates[..|candidates|] == candidates;
    }

    /** `release_stale_locks`. */
    method FreeStaleLocks(now: int) returns (released: nat)
      modifies db`deliveries
      ensures db.Rows() == ReleaseStaleLocks(old(db.Rows()), now)
      ensures db.deliveries.Keys == old(db.deliveries).Keys
      ensures forall k :: k in db.deliveries ==>
                var d, e := old(db.deliveries)[k], db.deliveries[k];
                && (d.lockedUntil.Some? && d.lockedUntil.value < now && d.status in {Pending, Snoozed}
                    ==> e.lockedUntil.None?)
                && (e != d ==> e == d.(lockedUntil := None) && d.lockedUntil.Some? && d.lockedUntil.value < now
                               && d.status in {Pending, Snoozed})
      ensures released == |set k | k in db.deliveries && db.deliveries[k] != old(db.deliveries)[k]|
    {
      var stale := set k | k in db.deliveries && ReleaseRow(db.deliveries[k], now) != db.deliveries[k];
      db.deliveries := map k | k in db.deliveries :: ReleaseRow(db.deliveries[k], now);
      released := |stale|;
      assert stale == set k | k in db.deliveries && db.deliveries[k] != old(db.deliveries)[k];
    }

    /** One sweep. The candidates for a repeat are looked up once the overdue occurrences are closed. */
    method SweepOnce(batch: seq<OccurrenceKey>, candidates: seq<DeliveryKey>, now: int)
      requires forall i :: 0 <= i < |batch| ==> batch[i] in db.occurrences
      requires forall i, j :: 0 <= i < j < |batch| ==> batch[i] != batch[j]
      requires var expired := Expire(db.Rows(), Members(OverdueOf(db.Rows(), batch, now)), now);
        forall i :: 0 <= i < |candidates| ==> IsRepeatCandidate(expired, candidates[i], now)
      requires forall i, j :: 0 <= i < j < |candidates| ==> candidates[i] != candidates[j]
      modifies db
      ensures db.Rows() == Sweep(old(db.Rows()), Members(OverdueOf(old(db.Rows()), batch, now)), Members(candidates),
                                 now)
    {
      hide Expire, Repeat, ReleaseStaleLocks, IsRepeatCandidate, OverdueOf;
      var expired := ExpireOverdue(batch, now);
      var repeated := RepeatUnanswered(candidates, now);
      var released := FreeStaleLocks(now);
    }
  }

  function OverdueOf(db: Tables, batch: seq<OccurrenceKey>, now: int): (overdue: seq<OccurrenceKey>) {
    if batch == [] then []
    else
      var last := batch[|batch| - 1];
      OverdueOf(db, batch[..|batch| - 1], now) +
      if last in db.occurrences && IsOverdue(db.occurrences[last].status, db.occurrences[last].expiresAt, now)
        then [last] else []
  }

  lemma {:induction false} OverdueAre(db: Tables, batch: seq<OccurrenceKey>, now: int)
    requires forall i, j :: 0 <= i < j < |batch| ==> batch[i] != batch[j]
    ensures var overdue := OverdueOf(db, batch, now);
      && (forall o :: o in overdue
             <==> o in batch && o in db.occurrences
                  && IsOverdue(db.occurrences[o].status, db.occurrences[o].expiresAt, now))
      && (forall i, j :: 0 <= i < j < |overdue| ==> overdue[i] != overdue[j])
      && (forall i :: 0 <= i < |overdue| ==> overdue[i] in overdue)
  {
    if batch != [] {
      var init, last := batch[..|batch| - 1], batch[|batch| - 1];
      OverdueAre(db, init, now);
      assert batch == init + [last];
      assert last !in init;
    }
  }

  lemma MoreMembers<T>(xs: seq<T>, i: nat)
    requires i < |xs| && forall i, j :: 0 <= i < j < |xs| ==> xs[i] != xs[j]
    ensures Members(xs[..i + 1]) == Members(xs[..i]) + {xs[i]} && xs[i] !in Members(xs[..i])
  {
    assert xs[..i + 1] == xs[..i] + [xs[i]];
  }

  function PlannedRepeat(db: Tables, key: DeliveryKey, now: int): Option<int> {
    if key in db.deliveries && HasContext(db, key) then RepeatMoment(db, key, now) else None
  }

  /** Occurrences the candidates have cost a repeat. */
  ghost function BumpedBy(db: Tables, candidates: set<DeliveryKey>, now: int): set<OccurrenceKey> {
    set k | k in candidates && IsRepeated(db, candidates, k, now) :: k.occurrence
  }

  ghost function RequeuedBy(db: Tables, candidates: set<DeliveryKey>, now: int): set<DeliveryKey> {
    set k | k in candidates && IsRepeated(db, candidates, k, now)
  }

  lemma RepeatNone(db: Tables, now: int)
    ensures Repeat(db, {}, now) == db && BumpedBy(db, {}, now) == {} && RequeuedBy(db, {}, now) == {}
  {
    hide IsRepeatCandidate, RepeatMoment;
  }

  /** One candidate. */
  function RepeatOne(db: Tables, k: DeliveryKey, plan: Option<int>, bumped: bool): Tables
    requires k in db.deliveries && k.occurrence in db.occurrences
  {
    if plan.None? then db
    else
      var o := db.occurrences[k.occurrence];
      db.(deliveries := db.deliveries[k := RepeatRow(db.deliveries[k], plan.value)],
          occurrences := if bumped then db.occurrences
                         else db.occurrences[k.occurrence := o.(repeatsSent := o.repeatsSent + 1)])
  }

  lemma RepeatKeeps(db: Tables, some: set<DeliveryKey>, now: int)
    ensures Repeat(db, some, now).deliveries.Keys == db.deliveries.Keys
    ensures Repeat(db, some, now).occurrences.Keys == db.occurrences.Keys
  {
    hide IsRepeated, RepeatMoment, RepeatRow;
  }

  lemma PlannedExactly(db: Tables, some: set<DeliveryKey>, k: DeliveryKey, now: int)
    requires IsRepeatCandidate(db, k, now)
    ensures k in db.deliveries && HasContext(db, k)
    ensures PlannedRepeat(db, k, now) == RepeatMoment(db, k, now)
    ensures IsRepeated(db, some, k, now) <==> k in some && PlannedRepeat(db, k, now).Some?
  {
    hide RepeatMoment;
  }

  lemma BumpedNext(db: Tables, some: set<DeliveryKey>, k: DeliveryKey, now: int)
    requires IsRepeatCandidate(db, k, now)
    ensures BumpedBy(db, some + {k}, now) == BumpedBy(db, some, now) + if PlannedRepeat(db, k, now).Some?
            then {k.occurrence} else {}
  {
    PlannedExactly(db, some + {k}, k, now);
    hide RepeatMoment, IsRepeatCandidate, PlannedRepeat;
  }

  lemma RequeuedNext(db: Tables, some: set<DeliveryKey>, k: DeliveryKey, now: int)
    requires IsRepeatCandidate(db, k, now) && k !in some
    ensures |RequeuedBy(db, some + {k}, now)| == |RequeuedBy(db, some, now)| + if PlannedRepeat(db, k, now).Some? then 1
            else 0
  {
    hide RepeatMoment, IsRepeatCandidate, PlannedRepeat, RequeuedBy;
    RequeuedAdds(db, some, k, now);
  }

  lemma RequeuedAdds(db: Tables, some: set<DeliveryKey>, k: DeliveryKey, now: int)
    requires IsRepeatCandidate(db, k, now) && k !in some
    ensures RequeuedBy(db, some + {k}, now) == RequeuedBy(db, some, now) + if PlannedRepeat(db, k, now).Some? then {k}
            else {}
    ensures k !in RequeuedBy(db, some, now)
  {
    hide RepeatMoment, IsRepeatCandidate, PlannedRepeat, IsRepeated;
    forall j | j in some + {k}
      ensures IsRepeated(db, some + {k}, j, now)
              <==> if j == k then PlannedRepeat(db, k, now).Some? else IsRepeated(db, some, j, now)
    {
      if j == k { PlannedExactly(db, some + {k}, k, now); } else { SameRepeat(db, some, k, j, now); }
    }
  }

  lemma SameRepeat(db: Tables, some: set<DeliveryKey>, k: DeliveryKey, j: DeliveryKey, now: int)
    requires j != k
    ensures IsRepeated(db, some + {k}, j, now) <==> IsRepeated(db, some, j, now)
  {
    hide RepeatMoment, IsRepeatCandidate;
  }

  lemma BumpedOccurrences(db: Tables, some: set<DeliveryKey>, now: int, o: OccurrenceKey)
    requires o in db.occurrences
    ensures o in Repeat(db, some, now).occurrences
    ensures Repeat(db, some, now).occurrences[o]
            == if o in BumpedBy(db, some, now) then db.occurrences[o].(repeatsSent := db.occurrences[o].repeatsSent + 1)
               else db.occurrences[o]
  {
    hide IsRepeated, RepeatMoment, RepeatRow;
  }

  lemma RepeatedDeliveries(db: Tables, some: set<DeliveryKey>, now: int, k: DeliveryKey)
    requires k in db.deliveries
    ensures k in Repeat(db, some, now).deliveries
    ensures Repeat(db, some, now).deliveries[k]
            == if IsRepeated(db, some, k, now) then RepeatRow(db.deliveries[k], RepeatMoment(db, k, now).value)
               else db.deliveries[k]
  {
    hide RepeatMoment, RepeatRow, IsRepeatCandidate;
  }

  /** The budget of an occurrence is spent on the first of its deliveries only. */
  lemma RepeatNext(db: Tables, some: set<DeliveryKey>, k: DeliveryKey, now: int)
    requires IsRepeatCandidate(db, k, now) && k !in some
    ensures var before := Repeat(db, some, now);
      && k in before.deliveries && k.occurrence in before.occurrences
      && RepeatOne(before, k, PlannedRepeat(db, k, now), k.occurrence in BumpedBy(db, some, now))
         == Repeat(db, some + {k}, now)
    ensures BumpedBy(db, some + {k}, now) == BumpedBy(db, some, now) + if PlannedRepeat(db, k, now).Some?
            then {k.occurrence} else {}
  {
    hide Repeat, IsRepeated, RepeatMoment, IsRepeatCandidate, BumpedBy, PlannedRepeat, RepeatRow;
    PlannedExactly(db, some, k, now);
    PlannedExactly(db, some + {k}, k, now);
    BumpedNext(db, some, k, now);
    RepeatKeeps(db, some, now);
    RepeatKeeps(db, some + {k}, now);
    RepeatNextDeliveries(db, some, k, now);
    RepeatNextOccurrences(db, some, k, now);
    RepeatOnlyRows(db, some, now);
    RepeatOnlyRows(db, some + {k}, now);
  }

  lemma RepeatOnlyRows(db: Tables, some: set<DeliveryKey>, now: int)
    ensures var after := Repeat(db, some, now);
      after == db.(deliveries := after.deliveries, occurrences := after.occurrences)
  {
    hide IsRepeated, RepeatMoment, RepeatRow;
  }

  lemma RepeatNextDeliveries(db: Tables, some: set<DeliveryKey>, k: DeliveryKey, now: int)
    requires IsRepeatCandidate(db, k, now) && k !in some
    ensures k in Repeat(db, some, now).deliveries
    ensures var rows, plan := Repeat(db, some, now).deliveries, PlannedRepeat(db, k, now);
      Repeat(db, some + {k}, now).deliveries == if plan.None? then rows else rows[k := RepeatRow(rows[k], plan.value)]
  {
    hide Repeat, RepeatMoment, IsRepeatCandidate, PlannedRepeat, RepeatRow;
    PlannedExactly(db, some, k, now);
    PlannedExactly(db, some + {k}, k, now);
    RepeatKeeps(db, some, now);
    RepeatKeeps(db, some + {k}, now);
    forall j | j in db.deliveries
      ensures Repeat(db, some + {k}, now).deliveries[j]
        == if j == k && PlannedRepeat(db, k, now).Some?
           then RepeatRow(db.deliveries[k], PlannedRepeat(db, k, now).value)
           else Repeat(db, some, now).deliveries[j]
    {
      RepeatedDeliveries(db, some, now, j);
      RepeatedDeliveries(db, some + {k}, now, j);
    }
    RepeatedDeliveries(db, some, now, k);
  }

  lemma RepeatNextOccurrences(db: Tables, some: set<DeliveryKey>, k: DeliveryKey, now: int)
    requires IsRepeatCandidate(db, k, now) && k !in some
    ensures k.occurrence in Repeat(db, some, now).occurrences
    ensures var rows, plan := Repeat(db, some, now).occurrences, PlannedRepeat(db, k, now);
      Repeat(db, some + {k}, now).occurrences
      == if plan.None? || k.occurrence in BumpedBy(db, some, now) then rows
         else rows[k.occurrence := rows[k.occurrence].(repeatsSent := rows[k.occurrence].repeatsSent + 1)]
  {
    hide Repeat, RepeatMoment, IsRepeatCandidate, PlannedRepeat, BumpedBy, IsRepeated;
    PlannedExactly(db, some, k, now);
    BumpedNext(db, some, k, now);
    RepeatKeeps(db, some, now);
    RepeatKeeps(db, some + {k}, now);
    forall o | o in db.occurrences
      ensures o in Repeat(db, some, now).occurrences && o in Repeat(db, some + {k}, now).occurrences
      ensures o != k.occurrence || PlannedRepeat(db, k, now).None? || o in BumpedBy(db, some, now)
              ==> Repeat(db, some + {k}, now).occurrences[o] == Repeat(db, some, now).occurrences[o]
    {
      BumpedOccurrences(db, some, now, o);
      BumpedOccurrences(db, some + {k}, now, o);
    }
    BumpedOccurrences(db, some, now, k.occurrence);
    BumpedOccurrences(db, some + {k}, now, k.occurrence);
  }
}
