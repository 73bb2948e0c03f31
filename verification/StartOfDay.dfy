/**
 * The two-pass solve for local midnight (src/stats/stats.service.ts).
 *
 * Instants are milliseconds. A time zone is any function from instants to UTC
 * offsets; the calendar formatting done by the platform is that function.
 */
module StartOfDay {

  const SECOND := 1000
  const DAY := 86_400_000

  type Zone = int -> int

  function FloorTo(x: int, unit: int): int
    requires unit > 0
  {
    x / unit * unit
  }

  /** What a wall clock in the zone shows, read as though it were UTC. */
  function WallClock(zone: Zone, instant: int): int {
    instant + zone(instant)
  }

  /** Formats the instant to whole seconds there and takes the difference. */
  function OffsetAt(zone: Zone, instant: int): int {
    FloorTo(WallClock(zone, instant), SECOND) - instant
  }

  /** Midnight of the calendar date the zone shows now, as though it were UTC. */
  function NominalMidnight(zone: Zone, now: int): int {
    FloorTo(WallClock(zone, now), DAY)
  }

  function StartOfDayIn(zone: Zone, now: int): int {
    var midnight := NominalMidnight(zone, now);
    var firstGuess := midnight - OffsetAt(zone, midnight);
    midnight - OffsetAt(zone, firstGuess)
  }

  /**
   * Around the day in question (`bound` either side of it) the clock changes
   * at most once: from `before` to `after`, at `shift`. Elsewhere the zone may
   * do anything. `before == after` is a day without a change.
   */
  ghost predicate ShiftsOnce(zone: Zone, midnight: int, bound: int, shift: int, before: int, after: int) {
    && (forall t :: -bound <= zone(t) <= bound)
    && before % SECOND == 0 && after % SECOND == 0
    && -bound <= before <= bound && -bound <= after <= bound
    && forall t :: midnight - bound <= t <= midnight + DAY + bound ==> zone(t) == if t < shift then before else after
  }

  ghost predicate MidnightExists(zone: Zone, midnight: int) {
    exists t :: WallClock(zone, t) == midnight
  }

  ghost predicate MidnightIsUnique(zone: Zone, midnight: int) {
    forall t, u :: WallClock(zone, t) == midnight && WallClock(zone, u) == midnight ==> t == u
  }

  /** The clock reads midnight under the old offset, or under the new one. */
  predicate BeforeShift(midnight: int, shift: int, before: int) {
    midnight - before < shift
  }

  predicate AfterShift(midnight: int, shift: int, after: int) {
    midnight - after >= shift
  }

  lemma MidnightCandidates(zone: Zone, midnight: int, bound: int, shift: int, before: int, after: int, t: int)
    requires ShiftsOnce(zone, midnight, bound, shift, before, after)
    ensures WallClock(zone, t) == midnight <==>
            || (t == midnight - before && BeforeShift(midnight, shift, before))
            || (t == midnight - after && AfterShift(midnight, shift, after))
  {
  }

  /** The nominal midnight is the last one the zone's clock has shown, read as UTC. */
  lemma NominalMidnightIsToday(zone: Zone, now: int)
    ensures var midnight := NominalMidnight(zone, now);
            midnight % 86_400_000 == 0 && midnight <= now + zone(now) < midnight + 86_400_000
  {
  }

  /** Formatting to the second loses less than a second of the offset. */
  lemma OffsetIsFloored(zone: Zone, t: int)
    ensures (t + OffsetAt(zone, t)) % 1000 == 0 && OffsetAt(zone, t) <= zone(t) < OffsetAt(zone, t) + 1000
  {
  }

  lemma WholeDaysAreWholeSeconds(x: int)
    ensures FloorTo(x, DAY) % SECOND == 0
  {
  }

  /** On whole seconds, formatting to the second loses nothing. */
  lemma OffsetAtWholeSecond(zone: Zone, t: int)
    requires t % SECOND == 0 && zone(t) % SECOND == 0
    ensures OffsetAt(zone, t) == zone(t)
  {
  }

  lemma WholeSecondsSubtract(t: int, u: int)
    requires t % SECOND == 0 && u % SECOND == 0
    ensures (t - u) % SECOND == 0
  {
  }

  /** Both passes read the zone's own offset, since a nominal midnight is a whole second. */
  lemma PassesReadTheZone(zone: Zone, midnight: int)
    requires midnight % SECOND == 0 && zone(midnight) % SECOND == 0
    requires zone(midnight - zone(midnight)) % SECOND == 0
    ensures OffsetAt(zone, midnight) == zone(midnight)
    ensures OffsetAt(zone, midnight - zone(midnight)) == zone(midnight - zone(midnight))
  {
    OffsetAtWholeSecond(zone, midnight);
    WholeSecondsSubtract(midnight, zone(midnight));
    OffsetAtWholeSecond(zone, midnight - zone(midnight));
  }

  /** The second pass's offset, when the change comes after the nominal midnight and when it does not. */
  lemma SolveBeforeShift(zone: Zone, midnight: int, bound: int, shift: int, before: int, after: int)
    requires ShiftsOnce(zone, midnight, bound, shift, before, after) && midnight < shift
    ensures zone(midnight) == before
    ensures zone(midnight - before) == if BeforeShift(midnight, shift, before) then before else after
  {
  }

  lemma SolveAfterShift(zone: Zone, midnight: int, bound: int, shift: int, before: int, after: int)
    requires ShiftsOnce(zone, midnight, bound, shift, before, after) && midnight >= shift
    ensures zone(midnight) == after
    ensures zone(midnight - after) == if AfterShift(midnight, shift, after) then after else before
  {
  }

  /** Every instant the solve can return, case by case. */
  lemma SolveIsExplicit(zone: Zone, now: int, bound: int, shift: int, before: int, after: int)
    requires ShiftsOnce(zone, NominalMidnight(zone, now), bound, shift, before, after)
    ensures var midnight := NominalMidnight(zone, now);
            StartOfDayIn(zone, now) == midnight -
              if midnight < shift then (if BeforeShift(midnight, shift, before) then before else after)
              else (if AfterShift(midnight, shift, after) then after else before)
  {
    var midnight := NominalMidnight(zone, now);
    if midnight < shift {
      SolveBeforeShift(zone, midnight, bound, shift, before, after);
    } else {
      SolveAfterShift(zone, midnight, bound, shift, before, after);
    }
    WholeDaysAreWholeSeconds(WallClock(zone, now));
    PassesReadTheZone(zone, midnight);
  }

  /**
   * The solve is right exactly when it can be: it returns an instant at which
   * the zone's clock reads midnight of today's date if and only if there is
   * one, whatever the sign or size of the offsets.
   */
  lemma SolvesForMidnight(zone: Zone, now: int, bound: int, shift: int, before: int, after: int)
    requires ShiftsOnce(zone, NominalMidnight(zone, now), bound, shift, before, after)
    ensures WallClock(zone, StartOfDayIn(zone, now)) == NominalMidnight(zone, now)
            <==> MidnightExists(zone, NominalMidnight(zone, now))
  {
    var midnight := NominalMidnight(zone, now);
    var start := StartOfDayIn(zone, now);
    SolveIsExplicit(zone, now, bound, shift, before, after);
    MidnightCandidates(zone, midnight, bound, shift, before, after, start);
    if MidnightExists(zone, midnight) {
      var t :| WallClock(zone, t) == midnight;
      MidnightCandidates(zone, midnight, bound, shift, before, after, t);
    }
  }

  /**
   * When the clock springs over midnight the solve misses by exactly the jump:
   * it lands in the previous calendar day if the change comes after the
   * nominal instant (zones west of UTC), past midnight otherwise.
   */
  lemma SkippedMidnight(zone: Zone, now: int, bound: int, shift: int, before: int, after: int)
    requires ShiftsOnce(zone, NominalMidnight(zone, now), bound, shift, before, after)
    requires !MidnightExists(zone, NominalMidnight(zone, now))
    ensures after > before
    ensures var midnight := NominalMidnight(zone, now);
            WallClock(zone, StartOfDayIn(zone, now)) ==
              if midnight < shift then midnight - (after - before) else midnight + (after - before)
  {
    var midnight := NominalMidnight(zone, now);
    MidnightCandidates(zone, midnight, bound, shift, before, after, midnight - before);
    MidnightCandidates(zone, midnight, bound, shift, before, after, midnight - after);
    SolveIsExplicit(zone, now, bound, shift, before, after);
  }

  /**
   * "Never in the future" holds except in two families of days: the clock fell
   * back over midnight east of UTC and `now` is still in the first pass, or it
   * sprang over midnight and `now` is not yet past the jump's length.
   */
  lemma NeverInTheFutureExactly(zone: Zone, now: int, bound: int, shift: int, before: int, after: int)
    requires ShiftsOnce(zone, NominalMidnight(zone, now), bound, shift, before, after)
    ensures var midnight := NominalMidnight(zone, now);
            StartOfDayIn(zone, now) > now <==>
              && shift <= midnight
              && (|| (BeforeShift(midnight, shift, before) && AfterShift(midnight, shift, after) && now < shift)
                  || (&& !BeforeShift(midnight, shift, before) && !AfterShift(midnight, shift, after)
                      && now < midnight - before))
  {
    assert -bound <= zone(now) <= bound;
    SolveIsExplicit(zone, now, bound, shift, before, after);
  }

  /**
   * With one midnight in the day, the start of day is not in the future and
   * less than 24 hours back, plus however far the clock fell back meanwhile.
   */
  lemma StartOfDayIsRecent(zone: Zone, now: int, bound: int, shift: int, before: int, after: int)
    requires ShiftsOnce(zone, NominalMidnight(zone, now), bound, shift, before, after)
    requires MidnightExists(zone, NominalMidnight(zone, now)) && MidnightIsUnique(zone, NominalMidnight(zone, now))
    ensures var fellBack := if before > after then before - after else 0;
            0 <= now - StartOfDayIn(zone, now) < DAY + fellBack
  {
    var midnight := NominalMidnight(zone, now);
    var t :| WallClock(zone, t) == midnight;
    MidnightCandidates(zone, midnight, bound, shift, before, after, t);
    MidnightCandidates(zone, midnight, bound, shift, before, after, midnight - before);
    MidnightCandidates(zone, midnight, bound, shift, before, after, midnight - after);
    assert -bound <= zone(now) <= bound;
    SolveIsExplicit(zone, now, bound, shift, before, after);
  }

  /** Sao Paulo springing forward at midnight: the "start" is 23:00 yesterday. */
  lemma SkippedMidnightWitness()
    ensures var hour := 3600 * SECOND;
            var zone: Zone := t => if t < 3 * hour then -3 * hour else -2 * hour;
            var now := 12 * hour;
            NominalMidnight(zone, now) == 0 && WallClock(zone, StartOfDayIn(zone, now)) == -hour
  {
  }
}
