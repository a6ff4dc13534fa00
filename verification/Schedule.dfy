/** When a standing order runs: slots anchored in the start date. */
module Schedule {
  import opened Calendar
  import opened Common

  datatype Cycle = DAILY | WEEKLY | MONTHLY

  /** The configured hour (UTC) of every slot; any hour of the day. */
  const EXECUTION_HOUR_UTC: HourOfDay

  /** The day of the n-th slot. It is always counted from `start`, so a clamped month does not
      move later slots. */
  function SlotDate(start: Date, cycle: Cycle, n: nat): Date {
    match cycle
    case DAILY => AddDays(start, n)
    case WEEKLY => AddDays(start, 7 * n)
    case MONTHLY => AddMonths(start, n)
  }

  function SlotDay(start: Date, cycle: Cycle, n: nat): int { Ordinal(SlotDate(start, cycle, n)) }

  function SlotAt(start: Date, cycle: Cycle, n: nat): Instant {
    At(SlotDate(start, cycle, n), EXECUTION_HOUR_UTC)
  }

  function FirstRunAt(start: Date): Instant { At(start, EXECUTION_HOUR_UTC) }

  /** The closed form for the last slot on or before `date`. */
  function LastSlotBy(start: Date, cycle: Cycle, date: Date): nat
    requires Ordinal(start) <= Ordinal(date)
  {
    var deltaDays := Ordinal(date) - Ordinal(start);
    match cycle
    case DAILY => deltaDays
    case WEEKLY => deltaDays / 7
    case MONTHLY => OrdinalsOrderDates(date, start); MonthsBetween(start, date)
  }

  /** Where the search for the next slot starts. */
  function FirstGuess(start: Date, cycle: Cycle, after: Instant): nat {
    if DayNumber(after) < Ordinal(start) then 0 else LastSlotBy(start, cycle, DateOf(after))
  }

  method ComputeNextRunAt(start: Date, cycle: Cycle, after: Instant) returns (next: Instant)
    ensures next == NextSlot(start, cycle, after)
  {
    hide SlotAt, SlotDay, FirstGuess;
    var n := FirstGuess(start, cycle, after);
    ghost var guess := n;
    GuessIsTight(start, cycle, after);
    while SlotAt(start, cycle, n) <= after
      invariant guess <= n <= guess + 1
      invariant n > guess ==> SlotAt(start, cycle, guess) <= after
      decreases guess + 1 - n
    {
      n := n + 1;
    }
    next := SlotAt(start, cycle, n);
  }

  function NextIndex(start: Date, cycle: Cycle, after: Instant): nat {
    var guess := FirstGuess(start, cycle, after);
    if SlotAt(start, cycle, guess) <= after then guess + 1 else guess
  }

  function NextSlot(start: Date, cycle: Cycle, after: Instant): Instant {
    SlotAt(start, cycle, NextIndex(start, cycle, after))
  }

  /** `estimate_total_runs`; 0 for an open-ended order. */
  function EstimateTotalRuns(start: Date, end: Option<Date>, cycle: Cycle): nat {
    match end
    case None => 0
    case Some(e) => if Ordinal(e) < Ordinal(start) then 0 else LastSlotBy(start, cycle, e) + 1
  }

  /** DAILY and WEEKLY slots are 1 and 7 days apart.  MONTHLY ones are on the day of the start, or on the
      last day of a month that is too short for it.  All are at the full hour. */
  lemma SlotsFollowTheCycle(start: Date, cycle: Cycle, n: nat)
    ensures SlotAt(start, cycle, n) == SlotDay(start, cycle, n) * 86_400_000_000 + EXECUTION_HOUR_UTC * 3_600_000_000
    ensures cycle == DAILY ==> SlotDay(start, cycle, n) == Ordinal(start) + n
    ensures cycle == WEEKLY ==> SlotDay(start, cycle, n) == Ordinal(start) + 7 * n
    ensures var d := SlotDate(start, cycle, n);
            cycle == MONTHLY ==>
              && 12 * d.year + d.month == 12 * start.year + start.month + n
              && d.day <= start.day && (d.day < start.day ==> d.day == DaysInMonth(d.year, d.month))
  {
    hide Ordinal, DateOf;
    if cycle == MONTHLY { MonthIndexOf(AddMonths(start, n)); }
  }

  // ---- Slots increase ----------------------------------------------------------------------

  lemma SlotIncreases(start: Date, cycle: Cycle, n: nat)
    ensures SlotDay(start, cycle, n) < SlotDay(start, cycle, n + 1)
  {
    hide Ordinal, At, DayNumber;
    if cycle == MONTHLY {
      OrdinalsOrderDates(AddMonths(start, n), AddMonths(start, n + 1));
    }
  }

  lemma {:induction false} SlotsIncrease(start: Date, cycle: Cycle, i: nat, j: nat)
    requires i < j
    ensures SlotDay(start, cycle, i) < SlotDay(start, cycle, j)
    ensures SlotAt(start, cycle, i) < SlotAt(start, cycle, j)
    decreases j
  {
    hide Ordinal, At, DayNumber, SlotDate;
    SlotIncreases(start, cycle, j - 1);
    if i < j - 1 { SlotsIncrease(start, cycle, i, j - 1); }
    LaterDayIsLater(SlotAt(start, cycle, i), SlotAt(start, cycle, j));
  }

  lemma LaterDayIsLater(t: Instant, u: Instant)
    requires DayNumber(t) < DayNumber(u)
    ensures t < u
  {
  }

  lemma SlotZero(start: Date, cycle: Cycle)
    ensures SlotDate(start, cycle, 0) == start && SlotAt(start, cycle, 0) == FirstRunAt(start)
  {
    AddNoMonths(start);
    OrdinalsOrderDates(AddDays(start, 0), start);
  }

  /** The closed form is exact for every cycle: clamping neither hides nor invents a slot. */
  lemma LastSlotBrackets(start: Date, cycle: Cycle, date: Date)
    requires Ordinal(start) <= Ordinal(date)
    ensures SlotDay(start, cycle, LastSlotBy(start, cycle, date)) <= Ordinal(date)
    ensures Ordinal(date) < SlotDay(start, cycle, LastSlotBy(start, cycle, date) + 1)
  {
    hide Ordinal, Before, MonthsBetween, AddMonths;
    if cycle == MONTHLY {
      OrdinalsOrderDates(date, start);
      MonthsBetweenIsLargest(start, date);
      var m := MonthsBetween(start, date);
      OrdinalsOrderDates(date, AddMonths(start, m));
      OrdinalsOrderDates(date, AddMonths(start, m + 1));
    }
  }

  /** The guess never skips a slot, and one step of the search always suffices. */
  lemma GuessIsTight(start: Date, cycle: Cycle, after: Instant)
    ensures FirstGuess(start, cycle, after) == 0 ||
            SlotAt(start, cycle, FirstGuess(start, cycle, after) - 1) <= after
    ensures after < SlotAt(start, cycle, FirstGuess(start, cycle, after) + 1)
  {
    hide Ordinal, At, DayNumber, DateOf, FromOrdinal, LastSlotBy, SlotDate;
    var g := FirstGuess(start, cycle, after);
    if DayNumber(after) < Ordinal(start) {
      SlotZero(start, cycle);
      SlotIncreases(start, cycle, 0);
    } else {
      LastSlotBrackets(start, cycle, DateOf(after));
      if g > 0 {
        SlotIncreases(start, cycle, g - 1);
        LaterDayIsLater(SlotAt(start, cycle, g - 1), after);
      }
    }
    LaterDayIsLater(after, SlotAt(start, cycle, g + 1));
  }

  // ---- Main results ------------------------------------------------------------------------

  /** The computed run is the least slot strictly after `after`. */
  lemma NextSlotIsLeast(start: Date, cycle: Cycle, after: Instant, n: nat)
    ensures after < NextSlot(start, cycle, after)
    ensures after < SlotAt(start, cycle, n) <==> NextIndex(start, cycle, after) <= n
  {
    hide SlotAt, SlotDay, FirstGuess;
    GuessIsTight(start, cycle, after);
    var k := NextIndex(start, cycle, after);
    if n + 1 < k { SlotsIncrease(start, cycle, n, k - 1); }
    if n > k { SlotsIncrease(start, cycle, k, n); }
  }

  /** The slots on or before the end date are exactly the first `EstimateTotalRuns` ones. */
  lemma EstimateCountsSlots(start: Date, end: Date, cycle: Cycle, n: nat)
    ensures SlotDay(start, cycle, n) <= Ordinal(end) <==> n < EstimateTotalRuns(start, Some(end), cycle)
  {
    hide Ordinal, SlotDate, LastSlotBy;
    SlotZero(start, cycle);
    if Ordinal(end) < Ordinal(start) {
      if n > 0 { SlotsIncrease(start, cycle, 0, n); }
    } else {
      var k := LastSlotBy(start, cycle, end);
      LastSlotBrackets(start, cycle, end);
      if n < k { SlotsIncrease(start, cycle, n, k); }
      if n > k + 1 { SlotsIncrease(start, cycle, k + 1, n); }
    }
  }

  // ---- Recognising slots -------------------------------------------------------------------

  ghost predicate IsSlot(start: Date, cycle: Cycle, t: Instant) {
    exists n: nat :: SlotAt(start, cycle, n) == t
  }

  /** The index of a slot. */
  ghost function IndexOf(start: Date, cycle: Cycle, t: Instant): (n: nat)
    requires IsSlot(start, cycle, t)
    ensures SlotAt(start, cycle, n) == t
  {
    var n: nat :| SlotAt(start, cycle, n) == t;
    n
  }

  lemma SlotsAreOrderedByIndex(start: Date, cycle: Cycle, t: Instant, u: Instant)
    requires IsSlot(start, cycle, t) && IsSlot(start, cycle, u)
    ensures t < u <==> IndexOf(start, cycle, t) < IndexOf(start, cycle, u)
  {
    hide SlotAt, SlotDay;
    var i, j := IndexOf(start, cycle, t), IndexOf(start, cycle, u);
    if i < j { SlotsIncrease(start, cycle, i, j); }
    if j < i { SlotsIncrease(start, cycle, j, i); }
  }

  lemma IndexOfSlot(start: Date, cycle: Cycle, n: nat)
    ensures IsSlot(start, cycle, SlotAt(start, cycle, n))
    ensures IndexOf(start, cycle, SlotAt(start, cycle, n)) == n
  {
    hide SlotAt, SlotDay;
    var i := IndexOf(start, cycle, SlotAt(start, cycle, n));
    if i < n { SlotsIncrease(start, cycle, i, n); }
    if n < i { SlotsIncrease(start, cycle, n, i); }
  }

  /** `t` is a slot, and no earlier slot lies after `now`. */
  ghost predicate Anchored(start: Date, cycle: Cycle, t: Instant, now: Instant) {
    && IsSlot(start, cycle, t)
    && (IndexOf(start, cycle, t) == 0 || SlotAt(start, cycle, IndexOf(start, cycle, t) - 1) <= now)
  }

  lemma NextSlotIsAnchored(start: Date, cycle: Cycle, after: Instant)
    ensures Anchored(start, cycle, NextSlot(start, cycle, after), after)
  {
    hide SlotAt, NextIndex;
    var k := NextIndex(start, cycle, after);
    IndexOfSlot(start, cycle, k);
    if k > 0 { NextSlotIsLeast(start, cycle, after, k - 1); }
  }

  lemma AnchoredLater(start: Date, cycle: Cycle, t: Instant, now: Instant, later: Instant)
    requires Anchored(start, cycle, t, now) && now <= later
    ensures Anchored(start, cycle, t, later)
  {
  }

  lemma FirstRunIsAnchored(start: Date, cycle: Cycle, now: Instant)
    ensures Anchored(start, cycle, FirstRunAt(start), now)
  {
    hide SlotAt, FirstRunAt;
    SlotZero(start, cycle);
    IndexOfSlot(start, cycle, 0);
  }

  /** Skipping the slots missed up to `now` never leads back before an anchored slot. */
  lemma SkippingNeverGoesBack(start: Date, cycle: Cycle, t: Instant, now: Instant)
    requires Anchored(start, cycle, t, now)
    ensures t <= NextSlot(start, cycle, now)
  {
    hide SlotAt, NextIndex;
    var k := IndexOf(start, cycle, t);
    var j := NextIndex(start, cycle, now);
    if k > 0 { NextSlotIsLeast(start, cycle, now, k - 1); }
    if k < j { SlotsIncrease(start, cycle, k, j); }
  }
}
