/** The views and tasks of standing orders, as they update the tables in place. */
module RecurringService {
  import opened Common
  import opened Calendar
  import opened Schedule
  import opened Recurring
  import A = Aliases
  import MandateLife
  import Operations
  import S = RecurringSystem

  class RecurringService {
    var mandates: seq<Mandate>
    var executions: seq<Execution>
    var outbox: seq<Notification>
    ghost var events: seq<S.Event> // history: what happened to the runs of every mandate

    constructor ()
      ensures State() == Tables([], [], []) && events == []
      ensures forall now :: Valid(now)
    {
      mandates, executions, outbox := [], [], [];
      events := [];
    }

    function State(): Tables
      reads this
    {
      Tables(mandates, executions, outbox)
    }

    /** The invariant of the mandates, kept by every operation. */
    ghost predicate Valid(now: Instant)
      reads this
    {
      MandateLife.MandatesOk(mandates, outbox, events, now)
    }

    // ---- Views -----------------------------------------------------------------------------

    method CreateMandate(r: CreateRequest, now: Instant, registry: A.AliasRegistry)
      returns (result: Result<MandateId, RecurringError>)
      modifies this`mandates
      ensures old(Valid(now)) ==> Valid(now)
      ensures match Create(old(State()), r, DateOf(now), r.phone in registry.aliases)
              case Ok(p) => State() == p.0 && result == Ok(p.1)
              case Err(e) => State() == old(State()) && result == Err(e)
      ensures
        if r.amount > 0 && Operations.AcceptableDates(r, DateOf(now)) && Operations.NewKey(old(mandates), r)
           && r.phone in registry.aliases
        then
          && result == Ok(|old(mandates)|) && |mandates| == |old(mandates)| + 1
          && mandates[..|old(mandates)|] == old(mandates) && Operations.Fresh(mandates[|old(mandates)|], r)
        else mandates == old(mandates)
      ensures result.Ok? ==> result.value < |mandates|
      ensures result.Ok? ==> mandates[result.value].bank == r.bank && mandates[result.value].key == r.key
    {
      hide MandateLife.MandatesOk, DateOf, FirstRunAt, AddMonths;
      hide Operations.AcceptableDates, Operations.NewKey, Operations.Fresh;
      ghost var t := State();
      Operations.CreatingNothing(t, r, DateOf(now), r.phone in registry.aliases);
      if r.amount > 0 && Operations.AcceptableDates(r, DateOf(now)) && Operations.NewKey(mandates, r) {
        Operations.CreatingSomething(t, r, DateOf(now));
      }
      var today := DateOf(now);
      if r.amount <= 0 {
        return Err(InvalidAmount);
      }
      if Before(r.start, today) || Before(AddMonths(today, 12 * MAX_START_AHEAD_YEARS), r.start) {
        return Err(InvalidDateRange);
      }
      if r.end.Some? {
        if !Before(r.start, r.end.value) || Before(AddMonths(r.start, 12 * MAX_MANDATE_SPAN_YEARS), r.end.value) {
          return Err(InvalidDateRange);
        }
      }
      var existing := FindByKey(mandates, r.bank, r.key);
      if existing.Some? {
        return Ok(existing.value);
      }
      if r.phone !in registry.aliases {
        return Err(AliasNotFound);
      }
      mandates := mandates + [NewMandate(r)];
      result := Ok(|mandates| - 1);
      if MandateLife.MandatesOk(t.mandates, t.outbox, events, now) {
        MandateLife.CreateKeepsMandates(t, r, today, true, events, now);
      }
    }

    method PauseMandate(m: MandateId, bank: BankId, now: Instant) returns (error: Option<RecurringError>)
      modifies this`mandates
      ensures old(Valid(now)) ==> Valid(now)
      ensures Recurring.Pause(old(State()), m, bank, now) == if error.Some? then Err(error.value) else Ok(State())
      ensures error.Some? ==> State() == old(State())
      ensures error == if m >= |old(mandates)| then Some(NotFound)
                       else if old(mandates)[m].bank != bank then Some(InsufficientPermissions)
                       else if old(mandates)[m].status in {CANCELLED, COMPLETED} then Some(Terminated)
                       else if old(mandates)[m].status != ACTIVE then Some(NotActive)
                       else None
      ensures error == None ==>
                mandates == old(mandates)[m := old(mandates)[m].(status := PAUSED, pausedAt := Some(now))]
    {
      hide MandateLife.MandatesOk;
      ghost var t := State();
      var owned := Owned(State(), m, bank);
      if owned.Err? {
        return Some(owned.error);
      }
      var mandate := owned.value;
      if Terminal(mandate.status) {
        return Some(Terminated);
      }
      if mandate.status != ACTIVE {
        return Some(NotActive);
      }
      mandate := mandate.(status := PAUSED);
      mandate := mandate.(pausedAt := Some(now));
      mandates := mandates[m := mandate];
      if MandateLife.MandatesOk(t.mandates, t.outbox, events, now) {
        MandateLife.PauseKeepsMandates(t, m, bank, events, now);
      }
      error := None;
    }

    method ResumeMandate(m: MandateId, bank: BankId, now: Instant) returns (error: Option<RecurringError>)
      modifies this`mandates, this`events
      ensures old(Valid(now)) ==> Valid(now)
      ensures error.None? ==>
              m < |old(mandates)| && events == old(events) + [S.Resumed(m, old(mandates)[m].nextRunAt, now)]
      ensures error.Some? ==> events == old(events)
      ensures Recurring.Resume(old(State()), m, bank, now) == if error.Some? then Err(error.value) else Ok(State())
      ensures error.Some? ==> State() == old(State())
      ensures error == if m >= |old(mandates)| then Some(NotFound)
                       else if old(mandates)[m].bank != bank then Some(InsufficientPermissions)
                       else if old(mandates)[m].status in {CANCELLED, COMPLETED} then Some(Terminated)
                       else if old(mandates)[m].status != PAUSED then Some(NotPaused)
                       else None
      ensures error == None ==>
                && m < |mandates|
                && Operations.FirstSlotAfter(mandates[m].start, mandates[m].cycle, now, mandates[m].nextRunAt)
                && mandates == old(mandates)[m := old(mandates)[m].(status := ACTIVE, failedRuns := 0, pausedAt := None,
                                                                    nextRunAt := mandates[m].nextRunAt)]
    {
      hide MandateLife.MandatesOk, Operations.FirstSlotAfter;
      if m < |mandates| { Operations.NextSlotIsFirst(mandates[m].start, mandates[m].cycle, now); }
      ghost var t := State();
      var owned := Owned(State(), m, bank);
      if owned.Err? {
        return Some(owned.error);
      }
      var mandate := owned.value;
      if Terminal(mandate.status) {
        return Some(Terminated);
      }
      if mandate.status != PAUSED {
        return Some(NotPaused);
      }
      mandate := mandate.(status := ACTIVE);
      var next := ComputeNextRunAt(mandate.start, mandate.cycle, now);
      mandate := mandate.(nextRunAt := next);
      mandate := mandate.(failedRuns := 0);
      mandate := mandate.(pausedAt := None);
      mandates := mandates[m := mandate];
      if MandateLife.MandatesOk(t.mandates, t.outbox, events, now) {
        MandateLife.ResumeKeepsMandates(t, m, bank, events, now);
      }
      events := events + [S.Resumed(m, t.mandates[m].nextRunAt, now)];
      error := None;
    }

    method CancelMandate(m: MandateId, bank: BankId, now: Instant) returns (error: Option<RecurringError>)
      modifies this`mandates, this`outbox
      ensures old(Valid(now)) ==> Valid(now)
      ensures Recurring.Cancel(old(State()), m, bank, now) == if error.Some? then Err(error.value) else Ok(State())
      ensures error.Some? ==> State() == old(State())
      ensures error == if m >= |old(mandates)| then Some(NotFound)
                       else if old(mandates)[m].bank != bank then Some(InsufficientPermissions)
                       else if old(mandates)[m].status in {CANCELLED, COMPLETED} then Some(Terminated)
                       else None
      ensures error == None ==>
                && mandates == old(mandates)[m := old(mandates)[m].(status := CANCELLED, cancelledAt := Some(now))]
                && outbox == old(outbox) + [Cancelled(m, USER_REQUEST)]
    {
      hide MandateLife.MandatesOk;
      ghost var t := State();
      var owned := Owned(State(), m, bank);
      if owned.Err? {
        return Some(owned.error);
      }
      var mandate := owned.value;
      if Terminal(mandate.status) {
        return Some(Terminated);
      }
      mandate := mandate.(status := CANCELLED);
      mandate := mandate.(cancelledAt := Some(now));
      mandates := mandates[m := mandate];
      outbox := outbox + [Cancelled(m, USER_REQUEST)];
      if MandateLife.MandatesOk(t.mandates, t.outbox, events, now) {
        MandateLife.CancelKeepsMandates(t, m, bank, events, now);
      }
      error := None;
    }

    // ---- Tasks -----------------------------------------------------------------------------

    /** Every due mandate is queued, up to the batch limit, and nothing else. */
    method DispatchDueRecurringTransfers(now: Instant) returns (ids: seq<MandateId>)
      ensures |ids| <= 1000
      ensures forall i :: 0 <= i < |ids| ==>
                ids[i] < |mandates| && mandates[ids[i]].status == ACTIVE && mandates[ids[i]].nextRunAt <= now
      ensures forall i, j :: 0 <= i < j < |ids| ==> ids[i] < ids[j]
      ensures |ids| < 1000 ==>
                forall m :: 0 <= m < |mandates| && mandates[m].status == ACTIVE && mandates[m].nextRunAt <= now ==>
                  m in ids
    {
      ids := [];
      var m := 0;
      while m < |mandates| && |ids| < DISPATCH_BATCH_LIMIT
        invariant 0 <= m <= |mandates| && |ids| <= DISPATCH_BATCH_LIMIT
        invariant forall i :: 0 <= i < |ids| ==> ids[i] < m && Due(mandates[ids[i]], now)
        invariant forall i, j :: 0 <= i < j < |ids| ==> ids[i] < ids[j]
        invariant forall k :: 0 <= k < m && Due(mandates[k], now) ==> k in ids
      {
        if Due(mandates[m], now) {
          ids := ids + [m];
        }
        m := m + 1;
      }
    }

    method ClaimExecution(m: MandateId, now: Instant) returns (claimed: Option<ExecutionId>)
      modifies this`mandates, this`executions, this`outbox
      ensures old(Valid(now)) ==> Valid(now)
      ensures (State(), claimed) == Claim(old(State()), m, now)
    {
      hide NextSlot, AfterDate, MandateLife.MandatesOk;
      if MandateLife.MandatesOk(mandates, outbox, events, now) {
        MandateLife.ClaimKeepsMandates(State(), m, events, now);
      }
      if m >= |mandates| {
        return None;
      }
      var mandate := mandates[m];
      if mandate.status != ACTIVE {
        executions := SkipScheduled(executions, m);
        return None;
      }
      if mandate.nextRunAt > now {
        return None;
      }
      if mandate.PastEnd() {
        mandates := mandates[m := mandate.(status := COMPLETED)];
        outbox := outbox + [Cancelled(m, END_DATE_REACHED)];
        return None;
      }
      var scheduledFor := mandate.nextRunAt;
      var e := |executions|;
      executions := executions + [Execution(m, scheduledFor, SCHEDULED, None, "", None, None)];
      executions := executions[e := executions[e].(status := EXECUTING)];
      assert executions == old(executions) + [Execution(m, scheduledFor, EXECUTING, None, "", None, None)];
      var next := ComputeNextRunAt(mandate.start, mandate.cycle, scheduledFor);
      mandates := mandates[m := mandate.(nextRunAt := next)];
      claimed := Some(e);
    }

    /** A paid lookup: the snapshot is kept for every retry; a missing alias fails the run. */
    method LookupRecipient(e: ExecutionId, registry: A.AliasRegistry, now: Instant)
      returns (recipient: Option<Recipient>)
      requires State().Knows(e)
      modifies this, registry`daily, registry`total
      ensures old(Valid(now)) ==> Valid(now)
      ensures events == old(events) + if recipient.Some? then [] else [S.Failed(old(executions)[e].mandate)]
      ensures var d := old(State()).MandateOf(e);
              var looked := A.Lookup(old(registry.State()), d.bank, d.phone, DayNumber(now));
              && registry.State() == looked.0
              && recipient == (if looked.1.None? then None
                               else Some(Recipient(d.phone, looked.1.value.bank, looked.1.value.account)))
              && State() == if recipient.Some? then SaveSnapshot(old(State()), e, recipient.value)
                            else Recurring.FinalizeFailure(old(State()), e, RECIPIENT_ALIAS_GONE, now)
    {
      var mandate := mandates[executions[e].mandate];
      var alias := registry.LookupForBank(mandate.bank, mandate.phone, DayNumber(now));
      if alias.None? {
        FinalizeFailure(e, RECIPIENT_ALIAS_GONE, now);
        return None;
      }
      recipient := Some(Recipient(mandate.phone, alias.value.bank, alias.value.account));
      executions := executions[e := executions[e].(snapshot := recipient)];
    }

    /** The end of a call to the bank; `again` is the attempt to schedule, with the same execution. */
    method CallBankAndFinalize(e: ExecutionId, attempt: nat, outcome: CallOutcome, now: Instant)
      returns (again: Option<nat>)
      requires State().Knows(e)
      modifies this
      ensures old(Valid(now)) ==> Valid(now)
      ensures var m := old(executions)[e].mandate;
              events == old(events) + (if again.Some? then []
                                       else if outcome.Answered? && outcome.response.Executed? then [S.Succeeded(m)]
                                       else [S.Failed(m)])
      ensures (State(), again) == Conclude(old(State()), e, attempt, outcome, now)
    {
      again := None;
      if outcome.NoWebhook? {
        FinalizeFailure(e, NETWORK_TIMEOUT, now);
      } else if outcome.NoAnswer? {
        if attempt >= MAX_RETRIES {
          FinalizeFailure(e, NETWORK_TIMEOUT, now);
        } else {
          again := Some(attempt + 1);
        }
      } else if outcome.response.Executed? {
        FinalizeSuccess(e, outcome.response.rtpReference, outcome.response.executedAt, now);
      } else {
        FinalizeFailure(e, Classify(outcome.response.why), now);
      }
    }

    method FinalizeSuccess(e: ExecutionId, rtpReference: string, executedAt: Option<Instant>, now: Instant)
      requires State().Knows(e)
      modifies this
      ensures old(Valid(now)) ==> Valid(now)
      ensures events == old(events) + [S.Succeeded(old(executions)[e].mandate)]
      ensures State() == Recurring.FinalizeSuccess(old(State()), e, rtpReference, executedAt, now)
    {
      hide MandateLife.MandatesOk;
      ghost var t := State();
      var execution := executions[e].(status := SUCCESS);
      execution := execution.(executedAt := if executedAt.Some? then executedAt else Some(now));
      execution := execution.(rtpReference := rtpReference);
      executions := executions[e := execution];
      var m := execution.mandate;
      var mandate := mandates[m].(lastRunAt := Some(now));
      mandate := mandate.(lastExecution := Some(e));
      mandate := mandate.(failedRuns := 0);
      var completed := false;
      if mandate.status == ACTIVE && mandate.PastEnd() {
        mandate := mandate.(status := COMPLETED);
        completed := true;
      }
      mandates := mandates[m := mandate];
      if completed {
        outbox := outbox + [Cancelled(m, END_DATE_REACHED)];
      }
      assert State() == Recurring.FinalizeSuccess(t, e, rtpReference, executedAt, now);
      if MandateLife.MandatesOk(t.mandates, t.outbox, events, now) {
        MandateLife.SuccessKeepsMandates(t, e, rtpReference, executedAt, events, now);
      }
      events := events + [S.Succeeded(m)];
    }

    method FinalizeFailure(e: ExecutionId, reason: FailureReason, now: Instant)
      requires State().Knows(e)
      modifies this
      ensures old(Valid(now)) ==> Valid(now)
      ensures events == old(events) + [S.Failed(old(executions)[e].mandate)]
      ensures State() == Recurring.FinalizeFailure(old(State()), e, reason, now)
    {
      hide MandateLife.MandatesOk;
      ghost var t := State();
      var execution := executions[e].(status := FAILED);
      execution := execution.(failureReason := Some(reason));
      executions := executions[e := execution];
      var m := execution.mandate;
      var mandate := mandates[m].(failedRuns := mandates[m].failedRuns + 1);
      var notify: seq<Notification> := [];
      if mandate.status == ACTIVE {
        if reason in CANCELLING_REASONS {
          mandate := mandate.(status := CANCELLED, cancelledAt := Some(now));
          notify := [Cancelled(m, Refused(reason))];
        } else if reason == AML_BLOCK {
          mandate := mandate.(status := PAUSED, pausedAt := Some(now));
          notify := [AutoPaused(m, reason)];
        } else if mandate.failedRuns >= FAILURE_THRESHOLD {
          mandate := mandate.(status := PAUSED, pausedAt := Some(now));
          notify := [AutoPaused(m, reason)];
        }
      }
      mandates := mandates[m := mandate];
      outbox := outbox + notify;
      assert State() == Recurring.FinalizeFailure(t, e, reason, now);
      if MandateLife.MandatesOk(t.mandates, t.outbox, events, now) {
        MandateLife.FailureKeepsMandates(t, e, reason, events, now);
      }
      events := events + [S.Failed(m)];
    }

    /** The whole task: a first call claims and looks up, a retry resumes an execution that is still
        open; both then call the bank, whose reaction is `outcome`. */
    method ExecuteRecurringRun(m: MandateId, retryOf: Option<ExecutionId>, attempt: nat, outcome: CallOutcome,
                               registry: A.AliasRegistry, now: Instant) returns (again: Option<(ExecutionId, nat)>)
      requires retryOf.Some? && retryOf.value < |executions| ==> State().Knows(retryOf.value)
      modifies this, registry`daily, registry`total
      ensures old(Valid(now)) ==> Valid(now)
      ensures retryOf.Some? ==> registry.State() == old(registry.State())
      ensures retryOf.Some? && retryOf.value < |old(executions)|
              && old(executions)[retryOf.value].status == EXECUTING ==>
                var r := Conclude(old(State()), retryOf.value, attempt, outcome, now);
                State() == r.0 && again == if r.1.Some? then Some((retryOf.value, r.1.value)) else None
      ensures retryOf.Some?
              && !(retryOf.value < |old(executions)| && old(executions)[retryOf.value].status == EXECUTING) ==>
                State() == old(State()) && again == None
      ensures retryOf.None? && Claim(old(State()), m, now).1.None? ==>
                State() == Claim(old(State()), m, now).0 && again == None && registry.State() == old(registry.State())
      ensures retryOf.None? && Claim(old(State()), m, now).1.Some? ==>
                var (t, e) := Claim(old(State()), m, now);
                && t.Knows(e.value)
                && registry.State() ==
                   A.Lookup(old(registry.State()), t.MandateOf(e.value).bank, t.MandateOf(e.value).phone,
                            DayNumber(now)).0
                && (t.MandateOf(e.value).phone !in registry.aliases ==>
                      State() == Recurring.FinalizeFailure(t, e.value, RECIPIENT_ALIAS_GONE, now) && again == None)
                && (t.MandateOf(e.value).phone in registry.aliases ==>
                      var d := t.MandateOf(e.value);
                      var a := registry.aliases[d.phone];
                      var t' := SaveSnapshot(t, e.value, Recipient(d.phone, a.bank, a.account));
                      var r := Conclude(t', e.value, attempt, outcome, now);
                      State() == r.0 && again == if r.1.Some? then Some((e.value, r.1.value)) else None)
    {
      hide NextSlot, AfterDate, Recurring.FinalizeFailure, Conclude, MandateLife.MandatesOk;
      var e: ExecutionId;
      if retryOf.None? {
        var claimed := ClaimExecution(m, now);
        if claimed.None? {
          return None;
        }
        e := claimed.value;
        var recipient := LookupRecipient(e, registry, now);
        if recipient.None? {
          return None;
        }
      } else {
        e := retryOf.value;
        if e >= |executions| || executions[e].status != EXECUTING {
          return None;
        }
      }
      var next := CallBankAndFinalize(e, attempt, outcome, now);
      again := if next.Some? then Some((e, next.value)) else None;
    }
  }
}
