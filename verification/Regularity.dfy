/** A mandate that was never resumed runs in every slot, once, in order. */
module Regularity {
  import opened Calendar
  import opened Schedule
  import opened Recurring
  import opened RecurringSystem
  import opened MandateLife
  import opened RunLife
  import opened MoneyLife
  import opened Guarantees
  import opened Slots

  predicate NeverResumed(events: seq<Event>, m: MandateId) {
    forall v :: v in events && v.Resumed? ==> v.mandate != m
  }

  /** No slot before the next run is left out (NoSlotIsRunTwice: and none is taken twice). */
  lemma EverySlotIsRun(s: System, m: MandateId, k: nat) returns (e: ExecutionId)
    requires Reachable(s) && m < |s.t.mandates| && NeverResumed(s.events, m)
    requires SlotAt(s.t.mandates[m].start, s.t.mandates[m].cycle, k) < s.t.mandates[m].nextRunAt
    ensures e < |s.t.executions| && s.t.executions[e].mandate == m
    ensures s.t.executions[e].scheduledFor == SlotAt(s.t.mandates[m].start, s.t.mandates[m].cycle, k)
  {
    hide Reachable, SlotAt;
    var d, xs := s.t.mandates[m], s.t.executions;
    EverySlotIsRunOrSkipped(s, m, k);
    e :| 0 <= e < |xs| && xs[e].mandate == m && xs[e].scheduledFor == SlotAt(d.start, d.cycle, k);
  }

  lemma {:induction false} RunsGrow(xs: seq<Execution>, m: MandateId, e: nat, n: nat)
    requires e < n <= |xs| && xs[e].mandate == m
    ensures RunsOf(xs, m, e) < RunsOf(xs, m, n)
  {
    if e < n - 1 { RunsGrow(xs, m, e, n - 1); }
  }

  /** Executions are in the order of their slots. */
  lemma LaterSlotsRunLater(s: System, e: ExecutionId, f: ExecutionId)
    requires Reachable(s) && e < |s.t.executions| && f < |s.t.executions|
    requires s.t.executions[e].mandate == s.t.executions[f].mandate
    ensures s.t.executions[e].scheduledFor < s.t.executions[f].scheduledFor <==> e < f
  {
    hide Reachable, Invariant, MandatesOk, MoneyOk, BillingOk, TasksOk, MessagesOk, ExecutionOk;
    ReachableIsOk(s);
  }

  /** Of the executions up to and including `e`, there are at most as many as slots. */
  lemma RunsUpTo(s: System, e: ExecutionId, k: nat)
    requires Reachable(s) && e < |s.t.executions| && s.t.Knows(e)
    requires s.t.executions[e].scheduledFor == SlotAt(s.t.MandateOf(e).start, s.t.MandateOf(e).cycle, k)
    ensures RunsOf(s.t.executions, s.t.executions[e].mandate, e) <= k
  {
    hide Reachable, SlotAt, IsSlot, IndexOf;
    var m, d := s.t.executions[e].mandate, s.t.MandateOf(e);
    var last := RunsAreBelowIndex(s, m, e + 1);
    IndexOfSlot(d.start, d.cycle, k);
    if last < e {
      LaterSlotsRunLater(s, last, e);
      SlotsAreOrderedByIndex(d.start, d.cycle, s.t.executions[last].scheduledFor, s.t.executions[e].scheduledFor);
    }
  }

  /** The execution for slot `k` is preceded by exactly `k` executions of its mandate. */
  lemma {:induction false} SlotHasItsNumber(s: System, m: MandateId, k: nat) returns (e: ExecutionId)
    requires Reachable(s) && m < |s.t.mandates| && NeverResumed(s.events, m)
    requires SlotAt(s.t.mandates[m].start, s.t.mandates[m].cycle, k) < s.t.mandates[m].nextRunAt
    ensures e < |s.t.executions| && s.t.executions[e].mandate == m && RunsOf(s.t.executions, m, e) == k
    ensures s.t.executions[e].scheduledFor == SlotAt(s.t.mandates[m].start, s.t.mandates[m].cycle, k)
    decreases k
  {
    hide Reachable, SlotAt, SlotDay;
    var d := s.t.mandates[m];
    e := EverySlotIsRun(s, m, k);
    RunsUpTo(s, e, k);
    if k > 0 {
      SlotsIncrease(d.start, d.cycle, k - 1, k);
      var f := SlotHasItsNumber(s, m, k - 1);
      LaterSlotsRunLater(s, f, e);
      RunsGrow(s.t.executions, m, f, e);
    }
  }

  lemma SlotOfRun(s: System, e: ExecutionId) returns (k: nat)
    requires Reachable(s) && e < |s.t.executions|
    ensures s.t.Knows(e)
    ensures var d := s.t.MandateOf(e);
            && s.t.executions[e].scheduledFor == SlotAt(d.start, d.cycle, k)
            && SlotAt(d.start, d.cycle, k) < d.nextRunAt
  {
    hide Reachable, Invariant, MandatesOk, RunsOk, SlotAt, AfterDate;
    ReachableIsOk(s);
    TaskIs(s, e);
    var d := s.t.MandateOf(e);
    k := IndexOf(d.start, d.cycle, s.t.executions[e].scheduledFor);
  }

  /** No drift: however late the clock ticks and whatever became of the runs, the executions of a
      mandate that was never resumed take the slots 0, 1, 2, ... of its calendar in turn. */
  lemma RunsFollowTheCalendar(s: System, m: MandateId)
    requires Reachable(s) && m < |s.t.mandates| && NeverResumed(s.events, m)
    ensures var d, xs := s.t.mandates[m], s.t.executions;
            && d.nextRunAt == SlotAt(d.start, d.cycle, RunsOf(xs, m, |xs|))
            && forall e :: 0 <= e < |xs| && xs[e].mandate == m ==>
                 xs[e].scheduledFor == SlotAt(d.start, d.cycle, RunsOf(xs, m, e))
  {
    hide Reachable, SlotAt;
    var d, xs := s.t.mandates[m], s.t.executions;
    NextRunNumber(s, m);
    forall e | 0 <= e < |xs| && xs[e].mandate == m
      ensures xs[e].scheduledFor == SlotAt(d.start, d.cycle, RunsOf(xs, m, e))
    {
      var k := SlotOfRun(s, e);
      var f := SlotHasItsNumber(s, m, k);
      LaterSlotsRunLater(s, e, f);
      LaterSlotsRunLater(s, f, e);
    }
  }

  lemma NextRunNumber(s: System, m: MandateId)
    requires Reachable(s) && m < |s.t.mandates| && NeverResumed(s.events, m)
    ensures var d, xs := s.t.mandates[m], s.t.executions;
            d.nextRunAt == SlotAt(d.start, d.cycle, RunsOf(xs, m, |xs|))
  {
    hide Reachable, SlotAt, SlotDay, IndexOf, IsSlot, Invariant, MandatesOk, RunsOk, AfterDate;
    var d, xs := s.t.mandates[m], s.t.executions;
    ReachableIsOk(s);
    NextRunIsASlot(s, m);
    var j := IndexOf(d.start, d.cycle, d.nextRunAt);
    var last := RunsAreBelowIndex(s, m, |xs|);
    if RunsOf(xs, m, |xs|) > 0 {
      TaskIs(s, last);
      SlotsAreOrderedByIndex(d.start, d.cycle, xs[last].scheduledFor, d.nextRunAt);
    }
    if j > 0 {
      SlotsIncrease(d.start, d.cycle, j - 1, j);
      var e := SlotHasItsNumber(s, m, j - 1);
      RunsGrow(xs, m, e, |xs|);
    }
  }

  lemma NextRunIsASlot(s: System, m: MandateId)
    requires Reachable(s) && m < |s.t.mandates|
    ensures IsSlot(s.t.mandates[m].start, s.t.mandates[m].cycle, s.t.mandates[m].nextRunAt)
  {
    hide Reachable, IsSlot;
    MandatesKeepTheirBooks(s, m);
  }
}
