/** What becomes of every slot of every mandate: it is run, or a resumption skips it. */
module Slots {
  import opened Common
  import opened Calendar
  import opened Schedule
  import opened Recurring
  import opened MockBank
  import opened RecurringSystem
  import opened MandateLife
  import opened RunLife
  import opened MoneyLife
  import opened Guarantees

  ghost predicate Ran(xs: seq<Execution>, m: MandateId, t: Instant) {
    exists e :: 0 <= e < |xs| && xs[e].mandate == m && xs[e].scheduledFor == t
  }

  /** At some resumption of `m`, the instant lay between the run that was next until then and the
      moment of resuming. */
  ghost predicate Skipped(events: seq<Event>, m: MandateId, t: Instant) {
    exists v :: v in events && v.Resumed? && v.mandate == m && v.next <= t <= v.at
  }

  ghost predicate Accounted(t: Tables, events: seq<Event>, m: MandateId)
    requires m < |t.mandates|
  {
    var d := t.mandates[m];
    && (forall v :: v in events && v.Resumed? && v.mandate == m ==> v.at < d.nextRunAt)
    && (forall k: nat :: SlotAt(d.start, d.cycle, k) < d.nextRunAt ==>
          (Ran(t.executions, m, SlotAt(d.start, d.cycle, k)) <==> !Skipped(events, m, SlotAt(d.start, d.cycle, k))))
  }

  ghost predicate AllAccounted(s: System) {
    forall m :: 0 <= m < |s.t.mandates| ==> Accounted(s.t, s.events, m)
  }

  // ---- Steps that leave the slots alone ----------------------------------------------------

  ghost predicate SameSlots(t: Tables, t': Tables) {
    && |t'.mandates| == |t.mandates| && |t'.executions| == |t.executions|
    && (forall m :: 0 <= m < |t.mandates| ==>
          t'.mandates[m].start == t.mandates[m].start && t'.mandates[m].cycle == t.mandates[m].cycle &&
          t'.mandates[m].nextRunAt == t.mandates[m].nextRunAt)
    && (forall e :: 0 <= e < |t.executions| ==>
          && t'.executions[e].mandate == t.executions[e].mandate
          && t'.executions[e].scheduledFor == t.executions[e].scheduledFor)
  }

  lemma FinishingKeepsSlots(t: Tables, e: ExecutionId, reason: FailureReason, rtp: string, at: Option<Instant>,
                            now: Instant)
    requires t.Knows(e)
    ensures SameSlots(t, FinalizeFailure(t, e, reason, now))
    ensures SameSlots(t, FinalizeSuccess(t, e, rtp, at, now))
  {
    hide AfterDate;
  }

  lemma NothingMoves(t: Tables)
    ensures SameSlots(t, t)
  {
  }

  lemma NoSlotBetween(start: Date, cycle: Cycle, after: Instant, k: nat)
    requires SlotAt(start, cycle, k) < NextSlot(start, cycle, after)
    ensures SlotAt(start, cycle, k) <= after
  {
    hide SlotAt, SlotDay, NextIndex;
    NextSlotIsLeast(start, cycle, after, k);
    var n := NextIndex(start, cycle, after);
    if n < k { SlotsIncrease(start, cycle, n, k); }
  }

  lemma SameRuns(xs: seq<Execution>, ys: seq<Execution>, m: MandateId, t: Instant)
    requires |xs| == |ys|
    requires forall e :: 0 <= e < |xs| ==> xs[e].mandate == ys[e].mandate && xs[e].scheduledFor == ys[e].scheduledFor
    ensures Ran(xs, m, t) <==> Ran(ys, m, t)
  {
  }

  ghost predicate SameResumptions(events: seq<Event>, events': seq<Event>) {
    forall v: Event :: v.Resumed? ==> (v in events <==> v in events')
  }

  lemma SameSlotsKeepAccounted(s: System, s': System)
    requires AllAccounted(s) && SameSlots(s.t, s'.t) && SameResumptions(s.events, s'.events)
    ensures AllAccounted(s')
  {
    hide SlotAt, Ran;
    forall m | 0 <= m < |s'.t.mandates| ensures Accounted(s'.t, s'.events, m) {
      assert Accounted(s.t, s.events, m);
      var d := s.t.mandates[m];
      forall k: nat | SlotAt(d.start, d.cycle, k) < d.nextRunAt
        ensures Ran(s'.t.executions, m, SlotAt(d.start, d.cycle, k)) <==>
                !Skipped(s'.events, m, SlotAt(d.start, d.cycle, k))
      {
        SameRuns(s.t.executions, s'.t.executions, m, SlotAt(d.start, d.cycle, k));
      }
    }
  }

  lemma EndedKeepsAccounted(s: System, e: ExecutionId, attempt: nat, outcome: CallOutcome)
    requires AllAccounted(s) && HasTask(s, e)
    ensures AllAccounted(Ended(s, e, attempt, outcome))
  {
    hide AllAccounted, SameSlots, FinalizeFailure, FinalizeSuccess;
    assert SameSlots(s.t, Ended(s, e, attempt, outcome).t) by {
      NothingMoves(s.t);
      match outcome
      case Answered(Executed(rtp, at)) => FinishingKeepsSlots(s.t, e, OTHER, rtp, at, s.now);
      case Answered(Rejected(why)) => FinishingKeepsSlots(s.t, e, Classify(why), "", None, s.now);
      case _ => FinishingKeepsSlots(s.t, e, NETWORK_TIMEOUT, "", None, s.now);
    }
    SameSlotsKeepAccounted(s, Ended(s, e, attempt, outcome));
  }

  lemma LookupKeepsAccounted(s: System, e: ExecutionId)
    requires AllAccounted(s) && HasTask(s, e)
    ensures AllAccounted(LookedUp(s, e))
  {
    hide AllAccounted, FinalizeFailure;
    FinishingKeepsSlots(s.t, e, RECIPIENT_ALIAS_GONE, "", None, s.now);
    SameSlotsKeepAccounted(s, LookedUp(s, e));
  }

  // ---- Steps that move slots ---------------------------------------------------------------

  lemma RanAppend(xs: seq<Execution>, x: Execution, m: MandateId, t: Instant)
    ensures Ran(xs + [x], m, t) <==> Ran(xs, m, t) || (x.mandate == m && x.scheduledFor == t)
  {
    var all := xs + [x];
    assert all[|xs|] == x;
    if Ran(xs, m, t) {
      var e :| 0 <= e < |xs| && xs[e].mandate == m && xs[e].scheduledFor == t;
      assert all[e] == xs[e];
    }
  }

  /** The claiming branch: the slot of the new execution is run, and no other slot has passed. */
  lemma ClaimedIsAccounted(s: System, m: MandateId, k: MandateId)
    requires AllAccounted(s) && m < |s.t.mandates| && k < |s.t.mandates|
    requires Due(s.t.mandates[m], s.now) && !s.t.mandates[m].PastEnd()
    ensures Accounted(Claimed(s, m).t, Claimed(s, m).events, k)
  {
    hide SlotAt, NextSlot, AfterDate, Ran;
    var s', d := Claimed(s, m), s.t.mandates[k];
    var x := Execution(m, s.t.mandates[m].nextRunAt, EXECUTING, None, "", None, None);
    assert Accounted(s.t, s.events, k);
    assert s'.t.executions == s.t.executions + [x];
    if k == m { NextSlotIsLeast(d.start, d.cycle, d.nextRunAt, 0); }
    forall i: nat | SlotAt(d.start, d.cycle, i) < s'.t.mandates[k].nextRunAt
      ensures Ran(s'.t.executions, k, SlotAt(d.start, d.cycle, i)) <==>
              !Skipped(s.events, k, SlotAt(d.start, d.cycle, i))
    {
      RanAppend(s.t.executions, x, k, SlotAt(d.start, d.cycle, i));
      if k == m { NoSlotBetween(d.start, d.cycle, d.nextRunAt, i); }
    }
  }

  lemma ClaimKeepsAccounted(s: System, m: MandateId)
    requires AllAccounted(s)
    ensures AllAccounted(Claimed(s, m))
  {
    hide Accounted, NextSlot, AfterDate;
    if m < |s.t.mandates| && Due(s.t.mandates[m], s.now) && !s.t.mandates[m].PastEnd() {
      forall k | 0 <= k < |s.t.mandates| ensures Accounted(Claimed(s, m).t, Claimed(s, m).events, k) {
        ClaimedIsAccounted(s, m, k);
      }
    } else {
      SameSlotsKeepAccounted(s, Claimed(s, m));
    }
  }

  lemma SkippedAppend(events: seq<Event>, v: Event, m: MandateId, t: Instant)
    ensures Skipped(events + [v], m, t) <==>
            Skipped(events, m, t) || (v.Resumed? && v.mandate == m && v.next <= t <= v.at)
  {
    var all := events + [v];
    assert all[|events|] == v;
    assert forall u :: u in all <==> u in events || u == v;
  }

  lemma NotRunYet(s: System, m: MandateId, t: Instant)
    requires RunsOk(s) && m < |s.t.mandates| && s.t.mandates[m].nextRunAt <= t
    ensures !Ran(s.t.executions, m, t)
  {
    hide IsSlot, AfterDate, TasksOk, MessagesOk;
    forall e | 0 <= e < |s.t.executions| && s.t.executions[e].mandate == m ensures s.t.executions[e].scheduledFor < t {
      assert ExecutionOk(s.t.executions[e], s.t.mandates);
    }
  }

  /** A resumption skips exactly the slots from the run that was next up to now. */
  lemma ResumedIsAccounted(s: System, m: MandateId, asker: BankId)
    requires AllAccounted(s) && RunsOk(s) && MandatesOk(s.t.mandates, s.t.outbox, s.events, s.now)
    requires Resume(s.t, m, asker, s.now).Ok?
    ensures m < |s.t.mandates|
    ensures var t := Resume(s.t, m, asker, s.now).value;
            && m < |t.mandates|
            && Accounted(t, s.events + [Resumed(m, s.t.mandates[m].nextRunAt, s.now)], m)
  {
    hide SlotAt, NextSlot, Ran, RunsOk, MandatesOk, Anchored, Skipped;
    var d := s.t.mandates[m];
    var resumed := Resumed(m, d.nextRunAt, s.now);
    assert Accounted(s.t, s.events, m);
    OneOfMany(s.t.mandates, s.t.outbox, s.events, s.now, m);
    SkippingNeverGoesBack(d.start, d.cycle, d.nextRunAt, s.now);
    NextSlotIsLeast(d.start, d.cycle, s.now, 0);
    forall i: nat | SlotAt(d.start, d.cycle, i) < NextSlot(d.start, d.cycle, s.now)
      ensures Ran(s.t.executions, m, SlotAt(d.start, d.cycle, i)) <==>
              !Skipped(s.events + [resumed], m, SlotAt(d.start, d.cycle, i))
    {
      NoSlotBetween(d.start, d.cycle, s.now, i);
      SkippedAppend(s.events, resumed, m, SlotAt(d.start, d.cycle, i));
      if d.nextRunAt <= SlotAt(d.start, d.cycle, i) { NotRunYet(s, m, SlotAt(d.start, d.cycle, i)); }
    }
  }

  lemma ResumeKeepsAccounted(s: System, m: MandateId, asker: BankId)
    requires AllAccounted(s) && RunsOk(s) && MandatesOk(s.t.mandates, s.t.outbox, s.events, s.now)
    requires Resume(s.t, m, asker, s.now).Ok?
    ensures AllAccounted(Step(s, ResumeMandate(m, asker)))
  {
    hide SlotAt, NextSlot, Ran, RunsOk, MandatesOk, Skipped;
    var s' := Step(s, ResumeMandate(m, asker));
    var resumed := Resumed(m, s.t.mandates[m].nextRunAt, s.now);
    ResumedIsAccounted(s, m, asker);
    forall k | 0 <= k < |s'.t.mandates| && k != m ensures Accounted(s'.t, s'.events, k) {
      assert Accounted(s.t, s.events, k);
      var d := s.t.mandates[k];
      forall i: nat | SlotAt(d.start, d.cycle, i) < d.nextRunAt
        ensures Ran(s'.t.executions, k, SlotAt(d.start, d.cycle, i)) <==>
                !Skipped(s'.events, k, SlotAt(d.start, d.cycle, i))
      {
        SkippedAppend(s.events, resumed, k, SlotAt(d.start, d.cycle, i));
      }
    }
  }

  lemma CreateKeepsAccounted(s: System, r: CreateRequest, today: Date, known: bool)
    requires AllAccounted(s) && RunsOk(s) && MandatesOk(s.t.mandates, s.t.outbox, s.events, s.now)
    requires Create(s.t, r, today, known).Ok?
    ensures AllAccounted(s.(t := Create(s.t, r, today, known).value.0))
  {
    hide SlotAt, DatesOk, FirstRunAt, MandateOk, RunsOk, Ran, Skipped, SlotDay;
    var t, m := Create(s.t, r, today, known).value.0, |s.t.mandates|;
    forall k | 0 <= k < |t.mandates| ensures Accounted(t, s.events, k) {
      if k == m {
        forall i: nat ensures !(SlotAt(r.start, r.cycle, i) < FirstRunAt(r.start)) {
          SlotZero(r.start, r.cycle);
          if i > 0 { SlotsIncrease(r.start, r.cycle, 0, i); }
        }
      } else {
        assert Accounted(s.t, s.events, k);
      }
    }
  }

  lemma WithdrawingKeepsAccounted(s: System, m: MandateId, asker: BankId)
    requires AllAccounted(s)
    ensures AllAccounted(WithTables(s, Pause(s.t, m, asker, s.now)))
    ensures AllAccounted(WithTables(s, Cancel(s.t, m, asker, s.now)))
  {
    hide AllAccounted;
    SameSlotsKeepAccounted(s, WithTables(s, Pause(s.t, m, asker, s.now)));
    SameSlotsKeepAccounted(s, WithTables(s, Cancel(s.t, m, asker, s.now)));
  }

  lemma TaskStepKeepsAccounted(s: System, l: Label)
    requires AllAccounted(s) && OfTask(l)
    ensures AllAccounted(Step(s, l))
  {
    hide AllAccounted, SameSlots, LookedUp, Ended, Claimed;
    match l {
      case ClaimRun(m) => ClaimKeepsAccounted(s, m);
      case LookupRecipient(e) => if HasTask(s, e) { LookupKeepsAccounted(s, e); }
      case SendRequest(e) =>
        NothingMoves(s.t);
        SameSlotsKeepAccounted(s, Step(s, l));
      case FindNoWebhook(e) =>
        if HasTask(s, e) && s.tasks[e].Ready? { EndedKeepsAccounted(s, e, s.tasks[e].attempt, NoWebhook); }
      case LoseAnswer(e) =>
        if HasTask(s, e) && s.tasks[e].Waiting? { EndedKeepsAccounted(s, e, s.tasks[e].attempt, NoAnswer); }
      case ReceiveAnswer(a) =>
        if HasTask(s, a.execution) && s.tasks[a.execution].Waiting? {
          EndedKeepsAccounted(s, a.execution, s.tasks[a.execution].attempt, Answered(a.response));
        }
    }
  }

  lemma StepKeepsAccounted(s: System, l: Label)
    requires AllAccounted(s) && RunsOk(s) && MandatesOk(s.t.mandates, s.t.outbox, s.events, s.now)
    ensures AllAccounted(Step(s, l))
  {
    hide AllAccounted, RunsOk, MandatesOk, SameSlots, Step;
    if OfTask(l) {
      TaskStepKeepsAccounted(s, l);
    } else if OfClient(l) {
      ClientStepKeepsAccounted(s, l);
    } else {
      if OfBank(l) { BanksLeave(s, l); } else { OthersLeave(s, l); }
      NothingMoves(s.t);
      SameSlotsKeepAccounted(s, Step(s, l));
    }
  }

  lemma CreatedKeepsAccounted(s: System, r: CreateRequest)
    requires AllAccounted(s) && RunsOk(s) && MandatesOk(s.t.mandates, s.t.outbox, s.events, s.now)
    ensures AllAccounted(Created(s, r))
  {
    hide Accounted, RunsOk, MandatesOk, Create, DateOf;
    var today, known := DateOf(s.now), r.phone in s.registry.aliases;
    if Create(s.t, r, today, known).Ok? { CreateKeepsAccounted(s, r, today, known); }
  }

  lemma ClientStepKeepsAccounted(s: System, l: Label)
    requires AllAccounted(s) && RunsOk(s) && MandatesOk(s.t.mandates, s.t.outbox, s.events, s.now) && OfClient(l)
    ensures AllAccounted(Step(s, l))
  {
    hide AllAccounted, RunsOk, MandatesOk, Created, Pause, Resume, Cancel, TaskStep, BankStep, OtherStep;
    match l {
      case CreateMandate(r) => CreatedKeepsAccounted(s, r);
      case PauseMandate(m, asker) => WithdrawingKeepsAccounted(s, m, asker);
      case CancelMandate(m, asker) => WithdrawingKeepsAccounted(s, m, asker);
      case ResumeMandate(m, asker) => if Resume(s.t, m, asker, s.now).Ok? { ResumeKeepsAccounted(s, m, asker); }
    }
  }

  lemma {:induction false} RunKeepsAccounted(s: System, labels: seq<Label>)
    requires AllAccounted(s) && Invariant(s)
    ensures AllAccounted(Run(s, labels))
  {
    hide AllAccounted, Invariant, Step, RunsOk, MandatesOk;
    if labels != [] {
      var n := |labels| - 1;
      RunKeepsAccounted(s, labels[..n]);
      RunKeepsInvariant(s, labels[..n]);
      InvariantIs(Run(s, labels[..n]));
      StepKeepsAccounted(Run(s, labels[..n]), labels[n]);
    }
  }

  /** Every slot before the next run has been run, or skipped by a resumption, and never both: a
      resumption skips the slots from the run that was next up to its own moment, and nothing else is
      ever left out. */
  lemma EverySlotIsRunOrSkipped(s: System, m: MandateId, k: nat)
    requires Reachable(s) && m < |s.t.mandates|
    requires SlotAt(s.t.mandates[m].start, s.t.mandates[m].cycle, k) < s.t.mandates[m].nextRunAt
    ensures var t := SlotAt(s.t.mandates[m].start, s.t.mandates[m].cycle, k);
            Ran(s.t.executions, m, t) <==> !Skipped(s.events, m, t)
  {
    hide Run, Invariant, SlotAt, Ran, Skipped;
    var now, balances, aliases, labels :| s == Run(Start(now, balances, aliases), labels);
    StartHolds(now, balances, aliases);
    RunKeepsAccounted(Start(now, balances, aliases), labels);
    assert Accounted(s.t, s.events, m);
  }
}
