/** Quiet hours move a delivery to the end of the silence. */
module QuietHours {
  import opened Zones
  import opened Schedules
  import opened Recurrence
  import opened Planning

  /** Membership in the silent interval `[start, end)` of the day, which may cross midnight. */
  predicate IsQuiet(time: int, start: int, end: int) {
    if start == end then false
    else if start < end then start <= time < end
    else time >= start || time < end
  }

  datatype RawQuiet = Quiet(zone: Zone, start: Option<int>, end: Option<int>)

  ghost predicate IsQuietHours(q: RawQuiet) {
    && (q.start.Some? ==> IsTime(q.start.value))
    && (q.end.Some? ==> IsTime(q.end.value))
  }

  type Quiet = q: RawQuiet | IsQuietHours(q) witness Quiet(RawZone([], [0]), None, None)

  predicate IsOn(q: Quiet) {
    q.start.Some? && q.end.Some?
  }

  predicate Covers(q: Quiet, t: int) {
    IsOn(q) && IsQuiet(TimeOf(Local(q.zone, t)), q.start.value, q.end.value)
  }

  /** The reading at which the silence around `t` ends. */
  function EndReading(q: Quiet, t: int): int
    requires IsOn(q)
  {
    var local := Local(q.zone, t);
    var crossesMidnight := q.start.value > q.end.value;
    var endDay := if crossesMidnight && TimeOf(local) >= q.start.value then DayOf(local) + 1 else DayOf(local);
    Combine(endDay, q.end.value)
  }

  /** `_resolve_end`. */
  function ResolveEnd(z: Zone, t: int, n: int): int {
    var candidate := ToUtc(z, n);
    if candidate > t then candidate
    else
      var later := n - OffsetOfReading(z, n, Later);
      if later > t then later else ToUtc(z, n + DAY)
  }

  function Shift(q: Quiet, t: int): int {
    if !Covers(q, t) then t else ResolveEnd(q.zone, t, EndReading(q, t))
  }

  /** Length of the silence, and of the rest of the day. */
  function Silence(q: Quiet): (length: int)
    requires IsOn(q)
    ensures 0 <= length < DAY
  {
    (q.end.value - q.start.value) % 86_400_000_000
  }

  /** Where the end of the day's silence resolves to it is no longer silent, however far the clock
      jumps there; or that silence is not shown to its end, and nobody waits for it. */
  predicate WakesUp(q: Quiet, day: int)
    requires IsOn(q)
  {
    var n := Combine(day, q.end.value);
    var end := ToUtc(q.zone, n);
    || Local(q.zone, end - 1) < n - Silence(q)
    || (Local(q.zone, end) - n) % 86_400_000_000 < DAY - Silence(q)
  }

  ghost predicate KeepsSilence(q: Quiet) {
    IsOn(q) ==> forall day :: WakesUp(q, day)
  }

  /** On the clock, a reading is silent exactly when it lies in the stretch before an end of
      silence, on whatever day. */
  lemma QuietReading(q: Quiet, n: int, day: int)
    requires IsOn(q)
    ensures IsQuiet(TimeOf(n), q.start.value, q.end.value)
            <==> (n - Combine(day, q.end.value)) % 86_400_000_000 >= DAY - Silence(q)
  {
    hide TimeOf, Combine, DayOf, IsQuiet;
    FromEnd(n, day, q.end.value);
    QuietTime(TimeOf(n), q.start.value, q.end.value);
  }

  lemma FromEnd(n: int, day: int, end: int)
    ensures 0 <= TimeOf(n) < DAY
    ensures (n - Combine(day, end)) % 86_400_000_000 == (TimeOf(n) - end) % 86_400_000_000
  {
    assert n - Combine(day, end) == TimeOf(n) - end + 86_400_000_000 * (DayOf(n) - day);
    hide TimeOf, Combine, DayOf;
    Rotations(TimeOf(n) - end, DayOf(n) - day);
  }

  lemma QuietTime(time: int, start: int, end: int)
    requires 0 <= time < DAY && 0 <= start < DAY && 0 <= end < DAY
    ensures IsQuiet(time, start, end) <==> (time - end) % 86_400_000_000 >= DAY - (end - start) % 86_400_000_000
  {
    assert (time - end) % 86_400_000_000 == if time < end then time - end + DAY else time - end;
    assert (end - start) % 86_400_000_000 == if end < start then end - start + DAY else end - start;
  }

  lemma Rotations(x: int, k: int)
    ensures (x + 86_400_000_000 * k) % 86_400_000_000 == x % 86_400_000_000
  {
  }

  /** Read from an end of silence: silent just before it, awake just after. */
  lemma AroundEnd(q: Quiet, n: int, day: int)
    requires IsOn(q)
    ensures Combine(day, q.end.value) - Silence(q) <= n < Combine(day, q.end.value)
            ==> IsQuiet(TimeOf(n), q.start.value, q.end.value)
    ensures Combine(day, q.end.value) <= n < Combine(day, q.end.value) + DAY - Silence(q)
            ==> !IsQuiet(TimeOf(n), q.start.value, q.end.value)
  {
    QuietReading(q, n, day);
    hide IsQuiet, TimeOf, Combine;
  }

  lemma CombinedDay(day: int, time: int)
    requires 0 <= time < DAY
    ensures DayOf(Combine(day, time)) == day && TimeOf(Combine(day, time)) == time
  {
  }

  lemma EndIsAhead(q: Quiet, t: int)
    requires Covers(q, t)
    ensures var n := EndReading(q, t);
      && Whole(n) && TimeOf(n) == q.end.value && n == Combine(DayOf(n), q.end.value)
      && n - Silence(q) <= Local(q.zone, t) < n
  {
    var local, start, end := Local(q.zone, t), q.start.value, q.end.value;
    var endDay := if start > end && TimeOf(local) >= start then DayOf(local) + 1 else DayOf(local);
    assert EndReading(q, t) == Combine(endDay, end);
    CombinedDay(endDay, end);
    CombineIsWhole(endDay, end);
    assert local == Combine(DayOf(local), TimeOf(local)) && 0 <= TimeOf(local) < DAY;
    assert Silence(q) == if end < start then end - start + DAY else end - start;
    hide Local, DayOf, TimeOf, EndReading, Whole;
  }

  lemma LaterSegment(z: Zone, n: int, k: nat)
    requires k < |z.at| && Wall(z, k, Later) <= n < Wall(z, k, Earlier)
    ensures SegmentOfReading(z, n, Later) == k + 1
    ensures k + 1 < |z.at| ==> n < z.at[k + 1] + z.off[k + 1]
  {
    ReadingBounds(z, n, Later);
    if k + 1 < |z.at| {
      WallsAscend(z, k, k + 1);
    }
  }

  lemma FellBackBetween(z: Zone, c: int, t: int, n: int) returns (k: nat)
    requires c <= t && Local(z, t) < n <= Local(z, c)
    ensures k < |z.at| && z.at[k] <= t && (k + 1 < |z.at| ==> t < z.at[k + 1])
    ensures Wall(z, k, Later) <= n < Wall(z, k, Earlier)
  {
    hide Local, Wall, Segment;
    FallsBackOnce(z, c, t);
    SegmentBounds(z, t);
    k := Segment(z, c);
  }

  lemma ClockOfSegment(z: Zone, k: nat, u: int)
    requires k < |z.at| && z.at[k] <= u && (k + 1 < |z.at| ==> u < z.at[k + 1])
    ensures Local(z, u) == u + z.off[k + 1]
  {
    SegmentIs(z, u, k + 1);
  }

  /** When the clock has already shown `n` and fallen back below it, the later offset gives the
      second time it shows `n`, and that one is still ahead. */
  lemma SecondShowing(z: Zone, t: int, n: int)
    requires Whole(n) && Local(z, t) < n && ToUtc(z, n) <= t
    ensures var later := n - OffsetOfReading(z, n, Later);
      t < later && Local(z, later) == n && forall u :: t <= u < later ==> Local(z, u) < n
  {
    hide ToUtc, Local, Wall, SegmentOfReading;
    ToUtcIsFirst(z, n);
    var k := FellBackBetween(z, ToUtc(z, n), t, n);
    LaterSegment(z, n, k);
    ClockOfSegment(z, k, t);
    forall u | t <= u <= n - z.off[k + 1] ensures Local(z, u) == u + z.off[k + 1] {
      ClockOfSegment(z, k, u);
    }
  }

  /** The last resort of a whole further day is never taken. */
  lemma ResolveEndShape(z: Zone, t: int, n: int)
    requires Whole(n) && Local(z, t) < n
    ensures var c, r := ToUtc(z, n), ResolveEnd(z, t, n);
      && t < r
      && (c > t ==> r == c)
      && (c <= t ==> r == n - OffsetOfReading(z, n, Later) && Local(z, r) == n)
      && forall u :: t <= u < r ==> Local(z, u) < n
  {
    hide ToUtc, Local, OffsetOfReading;
    ToUtcIsFirst(z, n);
    if ToUtc(z, n) <= t {
      SecondShowing(z, t, n);
    }
  }

  lemma EndIsWhole(q: Quiet, day: int)
    requires IsOn(q)
    ensures Whole(Combine(day, q.end.value))
    ensures Combine(day + 1, q.end.value) == Combine(day, q.end.value) + DAY
  {
    CombineIsWhole(day, q.end.value);
  }

  /** Before a transition that jumps over `n` the clock never showed more than just before it. */
  lemma HighestBeforeGap(z: Zone, n: int, t: int)
    requires Whole(n) && InGap(z, n) && t < ToUtc(z, n)
    ensures Local(z, t) <= Local(z, ToUtc(z, n) - 1)
  {
    hide ToUtc, Local, InGap;
    ToUtcIsFirst(z, n);
    var k :| 0 <= k < |z.at| && z.at[k] == ToUtc(z, n);
    HighestBefore(z, k, t);
  }

  lemma HighestBefore(z: Zone, k: nat, t: int)
    requires k < |z.at| && t < z.at[k]
    ensures Local(z, t) <= Local(z, z.at[k] - 1)
  {
    hide Local;
    BeforeTransition(z, k, z.at[k] - 1);
    if k > 0 && t < z.at[k - 1] {
      LocalBelow(z, t, k - 1);
      assert Wall(z, k - 1, Earlier) <= Wall(z, k, Later) <= z.at[k] + z.off[k];
    } else {
      BeforeTransition(z, k, t);
    }
  }

  lemma BeforeTransition(z: Zone, k: nat, t: int)
    requires k < |z.at| && t < z.at[k] && (k > 0 ==> z.at[k - 1] <= t)
    ensures Local(z, t) == t + z.off[k]
  {
    SegmentIs(z, t, k);
  }

  /** Where a resolved end of silence lies relative to the silence, for somebody waiting for it. */
  lemma SilentAfterResolve(q: Quiet, day: int, t: int)
    requires IsOn(q)
    requires var n := Combine(day, q.end.value);
      t < ToUtc(q.zone, n) && n - Silence(q) <= Local(q.zone, t)
    ensures !Covers(q, ToUtc(q.zone, Combine(day, q.end.value))) <==> WakesUp(q, day)
  {
    hide ToUtc, Local, IsQuiet, Silence, TimeOf, Combine, Whole, InGap;
    var n := Combine(day, q.end.value);
    EndIsWhole(q, day);
    QuietReading(q, Local(q.zone, ToUtc(q.zone, n)), day);
    if InGap(q.zone, n) {
      HighestBeforeGap(q.zone, n, t);
    } else {
      ToUtcIsFirst(q.zone, n);
      assert 0 % 86_400_000_000 == 0;
    }
  }

  /** A silent delivery moves strictly later. It is out of the silence exactly when it lands on a
      second showing or where its end of silence wakes up. */
  lemma ShiftOfSilent(q: Quiet, t: int)
    requires Covers(q, t)
    ensures t < Shift(q, t)
    ensures forall u :: t <= u < Shift(q, t) ==> Local(q.zone, u) < EndReading(q, t)
    ensures !Covers(q, Shift(q, t))
            <==> ToUtc(q.zone, EndReading(q, t)) <= t || WakesUp(q, DayOf(EndReading(q, t)))
  {
    hide ToUtc, EndReading, OffsetOfReading, Local, ResolveEnd, WakesUp, Silence;
    var n := EndReading(q, t);
    EndIsAhead(q, t);
    ResolveEndShape(q.zone, t, n);
    if ToUtc(q.zone, n) <= t {
      AroundEnd(q, n, DayOf(n));
    } else {
      SilentAfterResolve(q, DayOf(n), t);
    }
  }

  /** What quiet hours promise: a delivery outside the silence is left alone, one inside moves
      strictly later, and shifting twice is shifting once exactly when the result is not silent. */
  lemma ShiftContract(q: Quiet, t: int)
    ensures Shift(q, t) == t <==> !Covers(q, t)
    ensures Covers(q, t) ==> t < Shift(q, t)
    ensures Shift(q, Shift(q, t)) == Shift(q, t) <==> !Covers(q, Shift(q, t))
  {
    hide ResolveEnd, Covers;
    if Covers(q, t) { ShiftOfSilent(q, t); }
    if Covers(q, Shift(q, t)) { ShiftOfSilent(q, Shift(q, t)); }
  }

  /** Quiet hours always hold exactly when every end of silence wakes up. */
  lemma SilenceIsKept(q: Quiet)
    ensures (forall t :: !Covers(q, Shift(q, t))) <==> KeepsSilence(q)
  {
    hide ResolveEnd, Covers, WakesUp, EndReading, Shift, ToUtc, Local;
    if KeepsSilence(q) {
      forall t ensures !Covers(q, Shift(q, t)) {
        NotOnNotCovered(q, t);
        ShiftContract(q, t);
        if Covers(q, t) { ShiftOfSilent(q, t); }
      }
    } else {
      var day :| !WakesUp(q, day);
      var t := BeforeSwallowed(q, day);
      ShiftOfSilent(q, t);
    }
  }

  lemma NotOnNotCovered(q: Quiet, t: int)
    ensures Covers(q, t) ==> IsOn(q)
  {
  }

  /** Just before an end of silence that does not wake up it is silent. */
  lemma BeforeSwallowed(q: Quiet, day: int) returns (t: int)
    requires IsOn(q) && !WakesUp(q, day)
    ensures Covers(q, t) && EndReading(q, t) == Combine(day, q.end.value) && t < ToUtc(q.zone, EndReading(q, t))
  {
    hide ToUtc, Local, EndReading, IsQuiet, TimeOf, Silence, Combine, Whole;
    var n := Combine(day, q.end.value);
    EndIsWhole(q, day);
    t := ToUtc(q.zone, n) - 1;
    ToUtcIsFirst(q.zone, n);
    AroundEnd(q, Local(q.zone, t), day);
    EndOfStretch(q, t, day);
  }

  lemma EndOfStretch(q: Quiet, t: int, day: int)
    requires IsOn(q)
    requires Combine(day, q.end.value) - Silence(q) <= Local(q.zone, t) < Combine(day, q.end.value)
    ensures EndReading(q, t) == Combine(day, q.end.value)
  {
    hide Local;
  }

  /** In particular when the awake stretch is longer than every forward jump. */
  lemma LongAwakeStretch(q: Quiet, day: int)
    requires IsOn(q)
    requires forall i :: 0 <= i < |q.zone.at| ==> q.zone.off[i + 1] - q.zone.off[i] < DAY - Silence(q)
    ensures WakesUp(q, day)
  {
    hide ToUtc, Local, Silence, Combine, Whole;
    var n := Combine(day, q.end.value);
    EndIsWhole(q, day);
    ResolvedReading(q.zone, n);
    ToUtcIsFirst(q.zone, n);
    assert 0 <= Local(q.zone, ToUtc(q.zone, n)) - n < DAY;
  }

  /** Deliveries are not put off longer than needed: unless the clock falls back meanwhile, every
      instant skipped over is silent. */
  lemma ShiftIsEarliest(q: Quiet, t: int, u: int)
    requires Covers(q, t) && t <= u < Shift(q, t) && Local(q.zone, t) <= Local(q.zone, u)
    ensures Covers(q, u)
  {
    hide ToUtc, Local, EndReading, OffsetOfReading;
    var n := EndReading(q, t);
    EndIsAhead(q, t);
    ShiftOfSilent(q, t);
    AroundEnd(q, Local(q.zone, u), DayOf(n));
  }

  /** Where it fails: an hour awake after midnight, and the one night a year that hour is skipped. */
  lemma AwakeHourSkipped(q: Quiet)
    requires q == Quiet(RawZone([0], [0, HOUR]), Some(HOUR), Some(0))
    ensures !KeepsSilence(q) && exists t :: Covers(q, Shift(q, t))
  {
    hide ToUtc, Local, Shift, Covers;
    SingleTransition(q.zone, 0, 0);
    SingleTransition(q.zone, -1, 0);
    SingleResolved(q.zone, 0);
    assert !WakesUp(q, 0);
    SilenceIsKept(q);
  }
}
