/** A time zone as a list of transitions, and the two maps between instants and wall-clock readings.

    Instants are microseconds of UTC since 1970-01-01T00:00; wall-clock readings are microseconds
    since 1970-01-01T00:00 on the local clock. Both are unbounded integers.

    The map from a wall-clock reading to an offset follows PEP 495, section "Guidelines for New
    tzinfo Implementations": inside a gap and inside an overlap alike, `fold = 0` names the offset
    before the transition and `fold = 1` the offset after it.
 */
module Zones {

  const SECOND: int := 1_000_000
  const MINUTE: int := 60_000_000
  const HOUR: int := 3_600_000_000
  const DAY: int := 86_400_000_000

  /** `off[i]` is in force from `at[i-1]` on (from the beginning of time for `i == 0`) and until
      just before `at[i]` (until the end of time for the last one). */
  datatype RawZone = RawZone(at: seq<int>, off: seq<int>)

  datatype Fold = Earlier | Later

  /** Calendar day of a wall-clock reading, counted from 1970-01-01. */
  function DayOf(n: int): int {
    n / 86_400_000_000
  }

  /** Time of day of a wall-clock reading. */
  function TimeOf(n: int): int {
    n % 86_400_000_000
  }

  /** `datetime.combine(day, time)`. */
  function Combine(day: int, time: int): int {
    day * 86_400_000_000 + time
  }

  /** A whole number of seconds. */
  predicate Whole(t: int) {
    t % 1_000_000 == 0
  }

  function Max(a: int, b: int): int {
    if a < b then b else a
  }

  function Min(a: int, b: int): int {
    if a < b then a else b
  }

  /** The wall-clock reading at which transition `i` takes effect for readings of the given fold. */
  function Wall(z: RawZone, i: nat, fold: Fold): int
    requires i < |z.at| < |z.off|
  {
    match fold
    case Earlier => z.at[i] + Max(z.off[i], z.off[i + 1])
    case Later => z.at[i] + Min(z.off[i], z.off[i + 1])
  }

  /** What every zone in use satisfies: whole seconds, offsets strictly within a day of UTC as
      `utcoffset` has them, no clock falling back by more than a day, and transitions far enough apart
      that the readings one of them skips or repeats are over before those of the next one begin. */
  ghost predicate Tame(z: RawZone) {
    && |z.off| == |z.at| + 1
    && (forall i :: 0 <= i < |z.at| ==> Whole(z.at[i]))
    && (forall i :: 0 <= i < |z.off| ==> Whole(z.off[i]) && -DAY < z.off[i] < DAY)
    && (forall i, j :: 0 <= i < j < |z.at| ==> z.at[i] < z.at[j])
    && (forall i, j :: 0 <= i && j == i + 1 && j < |z.at| ==> Wall(z, i, Earlier) <= Wall(z, j, Later))
    && (forall i :: 0 <= i < |z.at| ==> z.off[i] - z.off[i + 1] <= DAY)
  }

  type Zone = z: RawZone | Tame(z) witness RawZone([], [0])

  /** `bisect_right` over the first `k` transitions: how many of them are at or before `t`. */
  function SegmentAmong(z: Zone, t: int, k: nat): (s: nat)
    requires k <= |z.at|
    ensures s <= k
    ensures s > 0 ==> z.at[s - 1] <= t
    ensures forall i :: s <= i < k ==> t < z.at[i]
  {
    if k == 0 || z.at[k - 1] <= t then k else SegmentAmong(z, t, k - 1)
  }

  /** Number of the stretch between transitions an instant lies in. */
  function Segment(z: Zone, t: int): (k: nat)
    ensures k <= |z.at|
  {
    SegmentAmong(z, t, |z.at|)
  }

  /** `moment.astimezone(tz)` with the zone dropped: what the local clock shows at `t`. */
  function Local(z: Zone, t: int): int {
    t + z.off[Segment(z, t)]
  }

  /** `naive.replace(tzinfo=tz, fold=fold).utcoffset()`. */
  function OffsetOfReading(z: Zone, n: int, fold: Fold): int {
    z.off[SegmentOfReading(z, n, fold)]
  }

  /** The local clock skips the reading `n`. */
  predicate InGap(z: Zone, n: int) {
    OffsetOfReading(z, n, Earlier) < OffsetOfReading(z, n, Later)
  }

  /** `bisect_right` over the wall-clock readings of the first `k` transitions. */
  function ReadingAmong(z: Zone, n: int, fold: Fold, k: nat): (s: nat)
    requires k <= |z.at|
    ensures s <= k
    ensures s > 0 ==> Wall(z, s - 1, fold) <= n
    ensures forall i :: s <= i < k ==> n < Wall(z, i, fold)
  {
    if k == 0 || Wall(z, k - 1, fold) <= n then k else ReadingAmong(z, n, fold, k - 1)
  }

  function SegmentOfReading(z: Zone, n: int, fold: Fold): (k: nat)
    ensures k <= |z.at|
  {
    ReadingAmong(z, n, fold, |z.at|)
  }

  /** `int(x.timestamp())`: whole seconds, truncated toward zero. */
  function Seconds(t: int): int {
    if t >= 0 then t / 1_000_000 else -((-t) / 1_000_000)
  }

  /** `datetime.fromtimestamp(ts, UTC)`. */
  function At(ts: int): int {
    ts * 1_000_000
  }

  /** The bisection of a gap over whole seconds, as a recursion. */
  function Bisected(z: Zone, n: int, lowTs: int, highTs: int): int
    decreases highTs - lowTs
  {
    if highTs - lowTs <= 1 then highTs
    else
      var midTs := (lowTs + highTs) / 2;
      if Local(z, At(midTs)) >= n then Bisected(z, n, lowTs, midTs) else Bisected(z, n, midTs, highTs)
  }

  /** `_first_existing_moment`: the end of a gap, looked for between two instants around it. */
  function GapEnd(z: Zone, n: int, low: int, high: int): int {
    At(Bisected(z, n, Seconds(low), Seconds(high)))
  }

  /** Resolves a wall-clock reading to an instant. A reading the clock never shows moves to the
      first instant after it, one it shows twice takes the earlier instant. */
  function ToUtc(z: Zone, n: int): int {
    var early := OffsetOfReading(z, n, Earlier);
    var late := OffsetOfReading(z, n, Later);
    if early >= late then n - early
    else GapEnd(z, n, n - late, n - early)
  }

  /** Specification of `ToUtc`: the first instant at which the local clock is at or after `n`. */
  ghost predicate IsFirstAtOrAfter(z: Zone, n: int, t: int) {
    && n <= Local(z, t)
    && forall u :: u < t ==> Local(z, u) < n
  }

  // ---------------------------------------------------------------------------------------------
  // Segments
  // ---------------------------------------------------------------------------------------------

  lemma SegmentBounds(z: Zone, t: int)
    ensures var k := Segment(z, t);
      && (forall i :: 0 <= i < k ==> z.at[i] <= t)
      && (forall i :: k <= i < |z.at| ==> t < z.at[i])
  {
  }

  lemma SegmentIs(z: Zone, t: int, k: nat)
    requires k <= |z.at|
    requires k > 0 ==> z.at[k - 1] <= t
    requires k < |z.at| ==> t < z.at[k]
    ensures Segment(z, t) == k
  {
    SegmentBounds(z, t);
  }

  lemma {:induction false} WallsAscend(z: Zone, i: nat, j: nat)
    requires i < j < |z.at|
    ensures Wall(z, i, Later) <= Wall(z, i, Earlier) <= Wall(z, j, Later) <= Wall(z, j, Earlier)
    decreases j
  {
    assert Wall(z, j - 1, Earlier) <= Wall(z, j, Later);
    if i < j - 1 {
      WallsAscend(z, i, j - 1);
    }
  }

  lemma ReadingBounds(z: Zone, n: int, fold: Fold)
    ensures var k := SegmentOfReading(z, n, fold);
      && (forall i :: 0 <= i < k ==> Wall(z, i, fold) <= n)
      && (forall i :: k <= i < |z.at| ==> n < Wall(z, i, fold))
  {
    var k := SegmentOfReading(z, n, fold);
    forall i | 0 <= i < k ensures Wall(z, i, fold) <= n {
      if i < k - 1 { WallsAscend(z, i, k - 1); }
    }
  }

  /** The two folds of one reading see the same stretch or neighbouring ones. */
  lemma Folds(z: Zone, n: int)
    ensures var k, m := SegmentOfReading(z, n, Earlier), SegmentOfReading(z, n, Later);
      && k <= m <= k + 1
      && (m == k + 1 ==> z.off[k] != z.off[m] && Wall(z, k, Later) <= n < Wall(z, k, Earlier))
  {
    ReadingBounds(z, n, Earlier);
    ReadingBounds(z, n, Later);
    var k, m := SegmentOfReading(z, n, Earlier), SegmentOfReading(z, n, Later);
    assert forall i :: 0 <= i < |z.at| ==> Wall(z, i, Later) <= Wall(z, i, Earlier);
    if m >= k + 2 {
      WallsAscend(z, k, k + 1);
    }
  }

  /** Before the `k`-th transition the clock stays below the reading at which that transition is
      over for good. */
  lemma {:induction false} LocalBelow(z: Zone, t: int, k: nat)
    requires k < |z.at| && t < z.at[k]
    ensures Local(z, t) < Wall(z, k, Earlier)
  {
    SegmentBounds(z, t);
    var s := Segment(z, t);
    assert s <= k;
    assert Local(z, t) < z.at[s] + z.off[s] <= Wall(z, s, Earlier);
    if s < k {
      WallsAscend(z, s, k);
    }
  }

  /** From the `k`-th transition on the clock stays at or above the reading at which it begins. */
  lemma {:induction false} LocalAbove(z: Zone, t: int, k: nat)
    requires k < |z.at| && z.at[k] <= t
    ensures Wall(z, k, Later) <= Local(z, t)
  {
    SegmentBounds(z, t);
    var s := Segment(z, t);
    assert k < s;
    assert Wall(z, s - 1, Later) <= z.at[s - 1] + z.off[s] <= Local(z, t);
    if k < s - 1 {
      WallsAscend(z, k, s - 1);
    }
  }

  // ---------------------------------------------------------------------------------------------
  // to_utc
  // ---------------------------------------------------------------------------------------------

  /** Outside a gap: the fold-0 offset gives the first instant showing exactly `n`. */
  lemma ExactReading(z: Zone, n: int)
    requires !InGap(z, n)
    ensures IsFirstAtOrAfter(z, n, ToUtc(z, n)) && Local(z, ToUtc(z, n)) == n
  {
    var k := ShownIn(z, n);
    hide ToUtc, InGap, Local;
    LocalIs(z, ToUtc(z, n), k);
    forall u | u < ToUtc(z, n) ensures Local(z, u) < n {
      ShownFirst(z, n, k, u);
    }
  }

  /** The stretch a reading outside a gap is first shown in. */
  lemma ShownIn(z: Zone, n: int) returns (k: nat)
    requires !InGap(z, n)
    ensures k <= |z.at| && ToUtc(z, n) == n - z.off[k]
    ensures k > 0 ==> z.at[k - 1] <= ToUtc(z, n) && Wall(z, k - 1, Earlier) <= n
    ensures k < |z.at| ==> ToUtc(z, n) < z.at[k]
  {
    hide Bisected;
    ReadingBounds(z, n, Earlier);
    ReadingBounds(z, n, Later);
    Folds(z, n);
    k := SegmentOfReading(z, n, Earlier);
    if k < |z.at| {
      assert n < Wall(z, k, Later) || n < Wall(z, k, Earlier) == z.at[k] + z.off[k];
    }
  }

  lemma LocalIs(z: Zone, t: int, k: nat)
    requires k <= |z.at| && (k > 0 ==> z.at[k - 1] <= t) && (k < |z.at| ==> t < z.at[k])
    ensures Local(z, t) == t + z.off[k]
  {
    SegmentIs(z, t, k);
  }

  lemma ShownFirst(z: Zone, n: int, k: nat, u: int)
    requires k <= |z.at| && u < n - z.off[k] && (k > 0 ==> Wall(z, k - 1, Earlier) <= n)
             && (k < |z.at| ==> n - z.off[k] < z.at[k])
    ensures Local(z, u) < n
  {
    hide Local;
    if k > 0 && u < z.at[k - 1] {
      LocalBelow(z, u, k - 1);
    } else {
      LocalIs(z, u, k);
    }
  }

  /** A skipped reading belongs to exactly one transition, which is the first instant after it;
      from there on the clock never shows less again. */
  lemma GapTransition(z: Zone, n: int) returns (t: int)
    requires InGap(z, n)
    ensures Whole(t) && t in z.at
    ensures IsFirstAtOrAfter(z, n, t)
    ensures n - OffsetOfReading(z, n, Later) < t <= n - OffsetOfReading(z, n, Earlier)
    ensures forall u :: t <= u ==> n < Local(z, u)
  {
    Folds(z, n);
    var k := SegmentOfReading(z, n, Earlier);
    t := z.at[k];
    assert t + z.off[k] <= n < t + z.off[k + 1];
    forall u | u < t ensures Local(z, u) < n {
      if k > 0 && u < z.at[k - 1] {
        LocalBelow(z, u, k - 1);
        ReadingBounds(z, n, Earlier);
      } else {
        SegmentIs(z, u, k);
      }
    }
    forall u | t <= u ensures n < Local(z, u) {
      if k + 1 < |z.at| && z.at[k + 1] <= u {
        LocalAbove(z, u, k + 1);
      } else {
        SegmentIs(z, u, k + 1);
      }
    }
  }

  /** The clock is at or after `n` exactly from second `ts` on. */
  ghost predicate Passes(z: Zone, n: int, ts: int) {
    forall u :: n <= Local(z, u) <==> At(ts) <= u
  }

  /** The bisection finds the transition whenever its lower end starts below it. */
  lemma {:induction false} BisectedFinds(z: Zone, n: int, lowTs: int, highTs: int, ts: int)
    requires Passes(z, n, ts) && lowTs < ts <= highTs
    ensures Bisected(z, n, lowTs, highTs) == ts
    decreases highTs - lowTs
  {
    hide Local;
    if highTs - lowTs > 1 {
      var midTs := (lowTs + highTs) / 2;
      assert n <= Local(z, At(midTs)) <==> At(ts) <= At(midTs);
      hide Passes;
      if Local(z, At(midTs)) >= n {
        BisectedFinds(z, n, lowTs, midTs, ts);
      } else {
        BisectedFinds(z, n, midTs, highTs, ts);
      }
    }
  }

  lemma {:induction false} BisectedAboveLow(z: Zone, n: int, lowTs: int, highTs: int)
    requires lowTs < highTs
    ensures lowTs < Bisected(z, n, lowTs, highTs) <= highTs
    decreases highTs - lowTs
  {
    if highTs - lowTs > 1 {
      var midTs := (lowTs + highTs) / 2;
      if Local(z, At(midTs)) >= n {
        BisectedAboveLow(z, n, lowTs, midTs);
      } else {
        BisectedAboveLow(z, n, midTs, highTs);
      }
    }
  }

  /** The lower end of the bisection, once truncated to a whole second, already lies past the gap.
      Truncation goes toward zero, so this takes a fractional reading before 1970. */
  predicate LowEndRoundsPast(z: Zone, n: int, low: int, high: int) {
    Seconds(low) < Seconds(high) && n <= Local(z, At(Seconds(low)))
  }

  lemma FirstIsUnique(z: Zone, n: int, t: int, u: int)
    requires IsFirstAtOrAfter(z, n, t)
    ensures IsFirstAtOrAfter(z, n, u) <==> u == t
  {
  }

  lemma SecondsRound(t: int, x: int)
    requires Whole(x)
    ensures Whole(t) ==> At(Seconds(t)) == t
    ensures x <= t ==> x <= At(Seconds(t))
    ensures t < x ==> At(Seconds(t)) <= x
  {
    var k := x / 1_000_000;
    assert x == k * 1_000_000;
  }

  lemma ToUtcInGap(z: Zone, n: int)
    requires InGap(z, n)
    ensures ToUtc(z, n) == GapEnd(z, n, n - OffsetOfReading(z, n, Later), n - OffsetOfReading(z, n, Earlier))
  {
  }

  lemma GapEndExact(z: Zone, n: int, low: int, high: int, t: int)
    requires Whole(t) && IsFirstAtOrAfter(z, n, t)
    requires forall u :: t <= u ==> n < Local(z, u)
    requires low < t <= high
    ensures GapEnd(z, n, low, high) == t <==> !LowEndRoundsPast(z, n, low, high)
    ensures Whole(low) ==> GapEnd(z, n, low, high) == t
  {
    hide Local;
    var lowTs, highTs, ts := Seconds(low), Seconds(high), t / 1_000_000;
    assert t == At(ts) && Passes(z, n, ts);
    SecondsRound(low, t);
    SecondsRound(high, t);
    if At(lowTs) < t {
      BisectedFinds(z, n, lowTs, highTs, ts);
    } else if lowTs < highTs {
      BisectedAboveLow(z, n, lowTs, highTs);
    }
  }

  /** `to_utc` gives the first instant at or after the reading, in all three of its branches,
      exactly when truncating the lower end of the bisection does no harm. */
  lemma ToUtcExact(z: Zone, n: int)
    ensures IsFirstAtOrAfter(z, n, ToUtc(z, n))
            <==> !(InGap(z, n) && LowEndRoundsPast(z, n, n - OffsetOfReading(z, n, Later),
                                                   n - OffsetOfReading(z, n, Earlier)))
  {
    hide *;
    if !InGap(z, n) {
      ExactReading(z, n);
    } else {
      var t := GapTransition(z, n);
      var low, high := n - OffsetOfReading(z, n, Later), n - OffsetOfReading(z, n, Earlier);
      GapEndExact(z, n, low, high, t);
      ToUtcInGap(z, n);
      FirstIsUnique(z, n, t, GapEnd(z, n, low, high));
    }
  }

  lemma WholeDifference(a: int, b: int)
    requires Whole(a) && Whole(b)
    ensures Whole(a - b)
  {
  }

  lemma OffsetIsWhole(z: Zone, n: int, fold: Fold)
    requires Whole(n)
    ensures Whole(n - OffsetOfReading(z, n, fold))
  {
    WholeDifference(n, z.off[SegmentOfReading(z, n, fold)]);
  }

  lemma GapIsFirst(z: Zone, n: int) returns (t: int)
    requires Whole(n) && InGap(z, n)
    ensures ToUtc(z, n) == t
    ensures Whole(t) && t in z.at
    ensures IsFirstAtOrAfter(z, n, t) && n < Local(z, t)
  {
    hide *;
    t := GapTransition(z, n);
    var low, high := n - OffsetOfReading(z, n, Later), n - OffsetOfReading(z, n, Earlier);
    assert Whole(low) by { OffsetIsWhole(z, n, Later); }
    GapEndExact(z, n, low, high, t);
    ToUtcInGap(z, n);
  }

  /** Every reading the program resolves is a whole second, and then nothing can go wrong: the
      result is the first instant at or after the reading, it shows exactly that reading unless
      the reading is skipped, and a skipped one moves to the transition that skips it. */
  lemma ToUtcIsFirst(z: Zone, n: int)
    requires Whole(n)
    ensures IsFirstAtOrAfter(z, n, ToUtc(z, n))
    ensures Whole(ToUtc(z, n))
    ensures if InGap(z, n) then n < Local(z, ToUtc(z, n)) && ToUtc(z, n) in z.at else Local(z, ToUtc(z, n)) == n
  {
    if InGap(z, n) {
      var _ := GapIsFirst(z, n);
    } else {
      ExactReading(z, n);
      OffsetIsWhole(z, n, Earlier);
    }
  }

  /** Readings resolve in order. */
  lemma ToUtcMonotone(z: Zone, n: int, m: int)
    requires n <= m && Whole(n) && Whole(m)
    ensures ToUtc(z, n) <= ToUtc(z, m)
  {
    ToUtcIsFirst(z, n);
    ToUtcIsFirst(z, m);
  }

  /** Where a reading resolves to: it is shown there, or a transition jumps over it. */
  lemma ResolvedReading(z: Zone, n: int)
    requires Whole(n)
    ensures var c := ToUtc(z, n);
      && n <= Local(z, c)
      && (Local(z, c) == n
          || exists i :: 0 <= i < |z.at| && c == z.at[i]
                && Local(z, c) - Local(z, c - 1) == z.off[i + 1] - z.off[i] + 1)
  {
    hide ToUtc, Local, InGap;
    ToUtcIsFirst(z, n);
    var c := ToUtc(z, n);
    if Local(z, c) != n {
      var i :| 0 <= i < |z.at| && c == z.at[i];
      AcrossTransition(z, i);
    }
  }

  lemma AcrossTransition(z: Zone, i: nat)
    requires i < |z.at|
    ensures Local(z, z.at[i]) - Local(z, z.at[i] - 1) == z.off[i + 1] - z.off[i] + 1
  {
    hide Local;
    LocalIs(z, z.at[i], i + 1);
    LocalIs(z, z.at[i] - 1, i);
  }

  /** No clock jumps forward by two days. */
  lemma LandsWithinTwoDays(z: Zone, n: int)
    requires Whole(n)
    ensures n <= Local(z, ToUtc(z, n)) < n + 2 * DAY
  {
    ToUtcIsFirst(z, n);
    ResolvedReading(z, n);
    hide ToUtc, Local;
    assert Local(z, ToUtc(z, n) - 1) < n;
  }

  /** So readings two days apart never resolve to the same instant. */
  lemma TwoDaysApart(z: Zone, n: int, m: int)
    requires Whole(n) && Whole(m) && n + 2 * DAY <= m
    ensures ToUtc(z, n) < ToUtc(z, m)
  {
    hide ToUtc, Local;
    LandsWithinTwoDays(z, n);
    ToUtcIsFirst(z, m);
    ToUtcMonotone(z, n, m);
  }

  /** The clock never falls back by more than a day, however many transitions lie in between, and
      only across one of them at a time. */
  lemma FallsBackOnce(z: Zone, t: int, u: int)
    requires t <= u && Local(z, u) < Local(z, t)
    ensures var k := Segment(z, t);
      && k < |z.at| && Segment(z, u) == k + 1
      && Local(z, t) < Wall(z, k, Earlier) && Wall(z, k, Later) <= Local(z, u)
      && Local(z, t) - DAY <= Local(z, u)
  {
    SegmentBounds(z, t);
    SegmentBounds(z, u);
    var k, m := Segment(z, t), Segment(z, u);
    LocalBelow(z, t, k);
    LocalAbove(z, u, m - 1);
    if k < m - 1 {
      WallsAscend(z, k, m - 1);
    }
  }

  /** A zone with one transition, written out. */
  lemma SingleTransition(z: Zone, t: int, n: int)
    requires |z.at| == 1
    ensures Local(z, t) == t + z.off[if t < z.at[0] then 0 else 1]
    ensures forall fold :: OffsetOfReading(z, n, fold) == z.off[if n < Wall(z, 0, fold) then 0 else 1]
  {
    SegmentIs(z, t, if t < z.at[0] then 0 else 1);
    ReadingBounds(z, n, Earlier);
    ReadingBounds(z, n, Later);
  }

  lemma SingleResolved(z: Zone, n: int)
    requires |z.at| == 1 && Whole(n)
    ensures ToUtc(z, n) == if n < Wall(z, 0, Later) then n - z.off[0]
                           else if Wall(z, 0, Earlier) <= n then n - z.off[1]
                           else if z.off[1] < z.off[0] then n - z.off[0] else z.at[0]
  {
    hide GapEnd, OffsetOfReading, Local;
    SingleTransition(z, 0, n);
    if InGap(z, n) {
      var _ := GapIsFirst(z, n);
    }
  }

  lemma EpochGap(z: Zone, n: int)
    requires z == RawZone([0], [0, HOUR]) && 0 <= n < HOUR
    ensures OffsetOfReading(z, n, Earlier) == 0 && OffsetOfReading(z, n, Later) == HOUR
    ensures IsFirstAtOrAfter(z, n, 0)
  {
    assert ReadingAmong(z, n, Earlier, 0) == 0;
    assert SegmentAmong(z, 0, 1) == 1;
    forall u | u < 0 ensures Local(z, u) == u { assert SegmentAmong(z, u, 0) == 0; }
  }

  /** Where truncation does do harm: a gap of one hour ending at the epoch, asked for its last half
      second. The clock first shows 01:00 at instant 0, and the result comes later. */
  lemma FractionalReadingBeforeEpoch(z: Zone, n: int)
    requires z == RawZone([0], [0, HOUR]) && n == HOUR - 500_000
    ensures IsFirstAtOrAfter(z, n, 0) && ToUtc(z, n) > 0
  {
    hide Bisected, Local;
    EpochGap(z, n);
    ToUtcInGap(z, n);
    BisectedAboveLow(z, n, 0, 3599);
  }

  // ---------------------------------------------------------------------------------------------
  // The loop of the source
  // ---------------------------------------------------------------------------------------------

  /** The bisection as it runs: between the two ends there is always the first instant whose clock
      is at or after the skipped reading. */
  method FirstExistingMoment(z: Zone, n: int, low: int, high: int) returns (t: int)
    ensures t == GapEnd(z, n, low, high)
    ensures Local(z, At(Seconds(low))) < n <= Local(z, At(Seconds(high))) && Seconds(low) < Seconds(high)
            ==> Local(z, t - SECOND) < n <= Local(z, t)
  {
    hide Local, Seconds;
    var lowTs, highTs := Seconds(low), Seconds(high);
    while highTs - lowTs > 1
      invariant Bisected(z, n, lowTs, highTs) == Bisected(z, n, Seconds(low), Seconds(high))
      invariant Seconds(low) < Seconds(high) ==> lowTs < highTs
      invariant Local(z, At(Seconds(low))) < n ==> Local(z, At(lowTs)) < n
      invariant n <= Local(z, At(Seconds(high))) ==> n <= Local(z, At(highTs))
      decreases highTs - lowTs
    {
      var midTs := (lowTs + highTs) / 2;
      if Local(z, At(midTs)) >= n {
        highTs := midTs;
      } else {
        lowTs := midTs;
      }
    }
    t := At(highTs);
    assert At(highTs) - SECOND == At(highTs - 1);
  }
}
