/**
 Daily schedules in a time zone: the fixed-point search from a wall-clock minute back to
 an instant, and the next occurrence of a daily time. Instants are whole minutes since the
 epoch; a zone gives its offset from UTC, in whole minutes, at every instant.
 */
module ZonedSchedule {
  import opened Wrappers

  const DAY := 1_440

  type Zone = int -> int

  /** The wall clock at an instant, as a minute count: the fields that `zonedParts` reads off. */
  function Clock(zone: Zone, t: int): int { t + zone(t) }

  /** The candidate after at most `rounds` corrections, stopping as soon as its wall clock is right. */
  function Settle(zone: Zone, target: int, candidate: int, rounds: nat): int
    decreases rounds
  {
    if rounds == 0 then candidate else
    var correction := target - Clock(zone, candidate);
    if correction == 0 then candidate else Settle(zone, target, candidate + correction, rounds - 1)
  }

  function Solve(zone: Zone, target: int): (r: Option<int>)
    ensures r.Some? ==> Clock(zone, r.value) == target
  {
    var c := Settle(zone, target, target, 6);
    if Clock(zone, c) == target then Some(c) else None
  }

  /** `zonedLocalToUtc`; `None` stands for the nonexistent-time error. */
  method ZonedLocalToUtc(zone: Zone, target: int) returns (r: Option<int>)
    ensures r == Solve(zone, target)
  {
    var candidate := target;
    for iteration := 0 to 6
      invariant Settle(zone, target, candidate, 6 - iteration) == Settle(zone, target, target, 6)
    {
      var represented := Clock(zone, candidate);
      var correction := target - represented;
      if correction == 0 { return Some(candidate); }
      candidate := candidate + correction;
    }
    if Clock(zone, candidate) != target { return None; }
    return Some(candidate);
  }

  /** One change of offset; no change at all when both offsets agree. */
  datatype Shift = Shift(at: int, before: int, after: int) {
    function Offset(t: int): int { if t < at then before else after }
    function Other(offset: int): int { if offset == before then after else before }
    function Jump(): int { if before < after then after - before else before - after }
    /** Clock readings the shift jumps over. */
    predicate Skips(x: int) { at + before <= x < at + after }
    /** Clock readings the shift shows twice. */
    predicate Doubles(x: int) { at + after <= x < at + before }
  }

  /** Between the two instants the zone changes its offset at most once, as the shift says. */
  ghost predicate Governs(shift: Shift, zone: Zone, lo: int, hi: int) {
    forall t | lo <= t <= hi :: zone(t) == shift.Offset(t)
  }

  /** The instants the search can visit for a target lie in the window. */
  predicate Covers(shift: Shift, target: int, lo: int, hi: int) {
    lo <= target <= hi && lo <= target - shift.before <= hi && lo <= target - shift.after <= hi
  }

  ghost predicate Shown(zone: Zone, target: int, lo: int, hi: int) {
    exists t :: lo <= t <= hi && Clock(zone, t) == target
  }

  /** Undoing this offset lands on the target. */
  predicate Fits(shift: Shift, target: int, offset: int) { shift.Offset(target - offset) == offset }

  lemma SettleStep(zone: Zone, target: int, m: int, rounds: nat)
    requires rounds > 0
    ensures var next := target - zone(m);
      Settle(zone, target, m, rounds) == if next == m then m else Settle(zone, target, next, rounds - 1)
  {}

  /** From one candidate the search stays, moves to the other and stays there, or bounces between the two. */
  lemma {:induction false} Bounce(zone: Zone, target: int, offset: int, other: int, rounds: nat)
    requires rounds > 1
    requires zone(target - offset) in {offset, other} && zone(target - other) in {offset, other}
    ensures var c := Settle(zone, target, target - offset, rounds);
      if zone(target - offset) == offset then c == target - offset
      else if zone(target - other) == other then c == target - other
      else c in {target - offset, target - other}
    decreases rounds
  {
    SettleStep(zone, target, target - offset, rounds);
    SettleStep(zone, target, target - other, rounds - 1);
    if rounds > 3 {
      Bounce(zone, target, offset, other, rounds - 2);
    } else if rounds == 3 {
      SettleStep(zone, target, target - offset, 1);
    }
  }

  lemma FirstCorrection(zone: Zone, target: int)
    ensures Settle(zone, target, target, 6) == Settle(zone, target, target - zone(target), 5)
  {
    SettleStep(zone, target, target, 6);
    SettleStep(zone, target, target, 5);
  }

  /**
   What the search finds: undoing the offset in force at the target read as UTC, if that
   lands right; undoing the other offset if only that does; nothing if neither does.
   */
  lemma SolveFinds(zone: Zone, shift: Shift, target: int, lo: int, hi: int)
    requires Governs(shift, zone, lo, hi) && Covers(shift, target, lo, hi)
    ensures var first := shift.Offset(target);
      var second := shift.Other(first);
      Solve(zone, target) ==
        if Fits(shift, target, first) then Some(target - first)
        else if Fits(shift, target, second) then Some(target - second)
        else None
  {
    var first := shift.Offset(target);
    FirstCorrection(zone, target);
    Bounce(zone, target, first, shift.Other(first), 5);
  }

  /** The search fails exactly on the clock readings that the shift jumps over. */
  lemma SolveFailsIffSkipped(zone: Zone, shift: Shift, target: int, lo: int, hi: int)
    requires Governs(shift, zone, lo, hi) && Covers(shift, target, lo, hi)
    ensures Solve(zone, target).None? <==> shift.Skips(target)
    ensures var r := Solve(zone, target);
      r.Some? ==> lo <= r.value <= hi && r.value + shift.Offset(r.value) == target && zone(r.value) == shift.Offset(r.value)
  {
    SolveFinds(zone, shift, target, lo, hi);
  }

  /** An instant is found exactly when some instant of the window shows the wanted wall clock. */
  lemma SolveIffShown(zone: Zone, shift: Shift, target: int, lo: int, hi: int)
    requires Governs(shift, zone, lo, hi) && Covers(shift, target, lo, hi)
    ensures Solve(zone, target).Some? <==> Shown(zone, target, lo, hi)
  {
    SolveFailsIffSkipped(zone, shift, target, lo, hi);
    if Shown(zone, target, lo, hi) {
      var t :| lo <= t <= hi && Clock(zone, t) == target;
      assert zone(t) == shift.Offset(t);
    }
  }

  // ---- the next occurrence of a daily time

  datatype ScheduleError = InvalidLocalTime | NoOccurrence

  predicate IsDigit(c: char) { '0' <= c <= '9' }

  function DigitValue(c: char): int { c as int - '0' as int }

  /** `HH:mm` as minutes after midnight. */
  function ParseLocalTime(s: string): (r: Option<int>)
    ensures r.Some? ==> 0 <= r.value < DAY
  {
    if |s| != 5 || !IsDigit(s[0]) || !IsDigit(s[1]) || s[2] != ':' || !IsDigit(s[3]) || !IsDigit(s[4]) then None
    else
      var hour, minute := DigitValue(s[0]) * 10 + DigitValue(s[1]), DigitValue(s[3]) * 10 + DigitValue(s[4]);
      if hour < 24 && minute < 60 then Some(hour * 60 + minute) else None
  }

  function Target(day: int, time: int, offset: int): int { (day + offset) * DAY + time }

  /** Tries the days from `offset` up to three days ahead. */
  function NextFrom(zone: Zone, day: int, time: int, after: int, offset: nat): (r: Option<int>)
    ensures r.Some? ==> r.value > after
    decreases 4 - offset
  {
    if offset > 3 then None else
    var candidate := Solve(zone, Target(day, time, offset));
    if candidate.Some? && candidate.value > after then candidate
    else NextFrom(zone, day, time, after, offset + 1)
  }

  function NextDaily(zone: Zone, time: int, after: int): Option<int> {
    NextFrom(zone, Clock(zone, after) / DAY, time, after, 0)
  }

  /** `nextDailyOccurrence`. */
  method NextDailyOccurrence(zone: Zone, localTime: string, after: int) returns (r: Result<int, ScheduleError>)
    ensures ParseLocalTime(localTime).None? ==> r == Err(InvalidLocalTime)
    ensures ParseLocalTime(localTime).Some? ==>
      var next := NextDaily(zone, ParseLocalTime(localTime).value, after);
      r == if next.Some? then Ok(next.value) else Err(NoOccurrence)
  {
    var parsed := ParseLocalTime(localTime);
    if parsed.None? { return Err(InvalidLocalTime); }
    var day := Clock(zone, after) / DAY;
    for offset := 0 to 4
      invariant NextFrom(zone, day, parsed.value, after, offset) == NextDaily(zone, parsed.value, after)
    {
      var candidate := ZonedLocalToUtc(zone, Target(day, parsed.value, offset));
      if candidate.Some? && candidate.value > after { return Ok(candidate.value); }
    }
    return Err(NoOccurrence);
  }

  /** The zone follows the shift from three days before `after` to six days past it, within a day of UTC. */
  ghost predicate FollowsAround(shift: Shift, zone: Zone, after: int) {
    && Governs(shift, zone, after - 3 * DAY, after + 6 * DAY)
    && -DAY < shift.before < DAY && -DAY < shift.after < DAY && shift.Jump() < DAY
  }

  lemma TargetsCovered(shift: Shift, zone: Zone, time: int, after: int, offset: int)
    requires FollowsAround(shift, zone, after) && 0 <= time < DAY && 0 <= offset <= 3
    ensures Covers(shift, Target(Clock(zone, after) / DAY, time, offset), after - 3 * DAY, after + 6 * DAY)
  {}

  /** A try past the clock by more than a backward jump is accepted unless it is skipped. */
  lemma FoundAfter(shift: Shift, zone: Zone, time: int, after: int, offset: int)
    requires FollowsAround(shift, zone, after) && 0 <= time < DAY && 0 <= offset <= 3
    ensures var target := Target(Clock(zone, after) / DAY, time, offset);
      var backward := if shift.after < shift.before then shift.Jump() else 0;
      !shift.Skips(target) && target > Clock(zone, after) + backward ==> Accepts(zone, target, after)
  {
    TargetsCovered(shift, zone, time, after, offset);
    SolveFailsIffSkipped(zone, shift, Target(Clock(zone, after) / DAY, time, offset), after - 3 * DAY, after + 6 * DAY);
  }

  ghost predicate Accepts(zone: Zone, target: int, after: int) {
    Solve(zone, target).Some? && Solve(zone, target).value > after
  }

  /** The tries stop at the first accepted day. */
  lemma {:induction false} StopsBy(zone: Zone, day: int, time: int, after: int, from: nat, j: nat) returns (k: nat)
    requires from <= j <= 3 && Accepts(zone, Target(day, time, j), after)
    ensures from <= k <= j && Accepts(zone, Target(day, time, k), after)
    ensures NextFrom(zone, day, time, after, from) == Solve(zone, Target(day, time, k))
    decreases j - from
  {
    if Accepts(zone, Target(day, time, from), after) {
      k := from;
    } else {
      k := StopsBy(zone, day, time, after, from + 1, j);
    }
  }

  lemma TimeOfTarget(day: int, time: int)
    requires 0 <= time < DAY
    ensures (day * DAY + time) % DAY == time && (day * DAY + time) / DAY == day
  {}

  /** With one jump of less than a day, the third try at the latest finds the wanted time of day. */
  lemma NextDailyExists(shift: Shift, zone: Zone, time: int, after: int) returns (n: int, i: nat)
    requires FollowsAround(shift, zone, after) && 0 <= time < DAY
    ensures NextDaily(zone, time, after) == Some(n) && after < n <= after + 6 * DAY
    ensures Clock(zone, n) % DAY == time && zone(n) == shift.Offset(n)
    ensures i <= 2 && Clock(zone, n) == Target(Clock(zone, after) / DAY, time, i)
    ensures Solve(zone, Target(Clock(zone, after) / DAY, time, i)) == Some(n)
  {
    var day := Clock(zone, after) / DAY;
    FoundAfter(shift, zone, time, after, 1);
    FoundAfter(shift, zone, time, after, 2);
    assert Target(day, time, 2) == Target(day, time, 1) + DAY;
    var j := if Accepts(zone, Target(day, time, 1), after) then 1 else 2;
    i := StopsBy(zone, day, time, after, 0, j);
    n := NextDaily(zone, time, after).value;
    TimeOfTarget(day + i, time);
    TargetsCovered(shift, zone, time, after, i);
    SolveFailsIffSkipped(zone, shift, Target(day, time, i), after - 3 * DAY, after + 6 * DAY);
  }

  /** Some clock reading at this time of day is shown twice. */
  ghost predicate Repeats(shift: Shift, time: int) { exists x :: shift.Doubles(x) && x % DAY == time }

  /** No instant after `after` and before `r` shows the wanted time of day. */
  ghost predicate NothingBetween(zone: Zone, time: int, after: int, r: int) {
    forall m | after < m < r :: Clock(zone, m) % DAY != time
  }

  /** A time of day that is not repeated is shown in the order of its days. */
  lemma ShownInOrder(shift: Shift, time: int, m: int, n: int)
    requires m < n && (m + shift.Offset(m)) % DAY == time && (n + shift.Offset(n)) % DAY == time
    ensures m + shift.Offset(m) < n + shift.Offset(n) || Repeats(shift, time)
  {
    if m + shift.Offset(m) >= n + shift.Offset(n) { assert shift.Doubles(n + shift.Offset(n)); }
  }

  /** Solving for the clock shown at an instant leads back to it, when the time is not repeated. */
  lemma SolvesBack(shift: Shift, zone: Zone, time: int, m: int, lo: int, hi: int)
    requires Governs(shift, zone, lo, hi) && lo <= m <= hi && Covers(shift, Clock(zone, m), lo, hi)
    requires !Repeats(shift, time) && Clock(zone, m) % DAY == time
    ensures Solve(zone, Clock(zone, m)) == Some(m)
  {
    SolveIffShown(zone, shift, Clock(zone, m), lo, hi);
    SolveFailsIffSkipped(zone, shift, Clock(zone, m), lo, hi);
    var n := Solve(zone, Clock(zone, m)).value;
    if n < m { ShownInOrder(shift, time, n, m); }
    if m < n { ShownInOrder(shift, time, m, n); }
  }

  /** An instant past the start does not show an earlier day at a time that is not repeated. */
  lemma NotBeforeToday(shift: Shift, zone: Zone, time: int, after: int, m: int)
    requires FollowsAround(shift, zone, after) && !Repeats(shift, time)
    requires after < m <= after + 6 * DAY && Clock(zone, m) % DAY == time
    ensures Clock(zone, m) / DAY >= Clock(zone, after) / DAY
  {
    if Clock(zone, m) / DAY < Clock(zone, after) / DAY { assert shift.Doubles(Clock(zone, m)); }
  }

  /** An instant past the start whose clock belongs to an earlier try is what that try returns. */
  lemma EarlierTry(shift: Shift, zone: Zone, time: int, after: int, m: int, i: nat)
    requires FollowsAround(shift, zone, after) && 0 <= time < DAY && !Repeats(shift, time)
    requires i <= 2 && after < m <= after + 6 * DAY && Clock(zone, m) % DAY == time
    requires Clock(zone, m) / DAY >= Clock(zone, after) / DAY
    requires Clock(zone, m) < Target(Clock(zone, after) / DAY, time, i)
    ensures NextDaily(zone, time, after) != Solve(zone, Target(Clock(zone, after) / DAY, time, i))
  {
    var day := Clock(zone, after) / DAY;
    var j := Clock(zone, m) / DAY - day;
    assert Clock(zone, m) == Target(day, time, j) && 0 <= j < i;
    TargetsCovered(shift, zone, time, after, j);
    SolvesBack(shift, zone, time, m, after - 3 * DAY, after + 6 * DAY);
    var k := StopsBy(zone, day, time, after, 0, j);
    assert Target(day, time, k) < Target(day, time, i);
  }

  /** When the shift does not repeat the time, the occurrence returned is the first one after `after`. */
  lemma NextDailyIsFirst(shift: Shift, zone: Zone, time: int, after: int)
    requires FollowsAround(shift, zone, after) && 0 <= time < DAY && !Repeats(shift, time)
    ensures NextDaily(zone, time, after).Some? && NothingBetween(zone, time, after, NextDaily(zone, time, after).value)
  {
    var n, i := NextDailyExists(shift, zone, time, after);
    forall m | after < m < n ensures Clock(zone, m) % DAY != time {
      if Clock(zone, m) % DAY == time {
        ShownInOrder(shift, time, m, n);
        NotBeforeToday(shift, zone, time, after, m);
        EarlierTry(shift, zone, time, after, m, i);
      }
    }
  }

  /** A repeated time has a start from which its next occurrence is passed over. */
  lemma RepeatedIsMissed(shift: Shift, zone: Zone, time: int) returns (after: int)
    requires Governs(shift, zone, shift.at - 12 * DAY, shift.at + 12 * DAY)
    requires -DAY < shift.before < DAY && -DAY < shift.after < DAY && shift.Jump() < DAY
    requires 0 <= time < DAY && Repeats(shift, time)
    ensures FollowsAround(shift, zone, after)
    ensures NextDaily(zone, time, after).Some? && !NothingBetween(zone, time, after, NextDaily(zone, time, after).value)
  {
    var x :| shift.Doubles(x) && x % DAY == time;
    var chosen := shift.Offset(x);
    var passed := x - shift.Other(chosen);
    after := passed - 1;
    var n, i := NextDailyExists(shift, zone, time, after);
    assert Clock(zone, passed) == x;
    if n == passed {
      SolveFinds(zone, shift, x, after - 3 * DAY, after + 6 * DAY);
      assert false;
    }
  }

  /** The next occurrence is the first one, from every start, exactly when the shift does not repeat the time. */
  lemma NextDailyIsFirstIffNotRepeated(shift: Shift, zone: Zone, time: int)
    requires Governs(shift, zone, shift.at - 12 * DAY, shift.at + 12 * DAY)
    requires -DAY < shift.before < DAY && -DAY < shift.after < DAY && shift.Jump() < DAY
    requires 0 <= time < DAY
    ensures !Repeats(shift, time) <==>
      forall after | FollowsAround(shift, zone, after) ::
        NextDaily(zone, time, after).Some? && NothingBetween(zone, time, after, NextDaily(zone, time, after).value)
  {
    if Repeats(shift, time) {
      var after := RepeatedIsMissed(shift, zone, time);
    } else {
      forall after | FollowsAround(shift, zone, after)
        ensures NextDaily(zone, time, after).Some? && NothingBetween(zone, time, after, NextDaily(zone, time, after).value)
      {
        NextDailyIsFirst(shift, zone, time, after);
      }
    }
  }
}
