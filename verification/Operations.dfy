/** What each operation on standing orders does, told without the functions that compute it. */
module Operations {
  import opened Common
  import opened Calendar
  import opened Schedule
  import opened Recurring
  import opened MockBank
  import opened RecurringSystem
  import opened MandateLife
  import opened RunLife
  import opened MoneyLife
  import opened Guarantees
  import opened Endings

  // ---- Requests of clients -----------------------------------------------------------------

  /** The least slot of the calendar after an instant. */
  ghost predicate FirstSlotAfter(start: Date, cycle: Cycle, after: Instant, t: Instant) {
    && after < t
    && exists k: nat :: t == SlotAt(start, cycle, k) && forall j: nat :: after < SlotAt(start, cycle, j) ==> k <= j
  }

  lemma NextSlotIsFirst(start: Date, cycle: Cycle, after: Instant)
    ensures FirstSlotAfter(start, cycle, after, NextSlot(start, cycle, after))
  {
    hide SlotAt, NextIndex;
    var k := NextIndex(start, cycle, after);
    NextSlotIsLeast(start, cycle, after, 0);
    forall j: nat | after < SlotAt(start, cycle, j) ensures k <= j { NextSlotIsLeast(start, cycle, after, j); }
    assert NextSlot(start, cycle, after) == SlotAt(start, cycle, k);
  }

  /** The bank that asks owns the mandate. */
  predicate OwnedBy(s: System, m: MandateId, asker: BankId) { m < |s.t.mandates| && s.t.mandates[m].bank == asker }

  lemma PausingPauses(s: System, m: MandateId, asker: BankId)
    ensures var s' := Step(s, PauseMandate(m, asker));
            if OwnedBy(s, m, asker) && s.t.mandates[m].status == ACTIVE
            then
              var d := s.t.mandates[m];
              s'.t == s.t.(mandates := s.t.mandates[m := d.(status := PAUSED, pausedAt := Some(s.now))])
            else s' == s
  {
    hide TaskStep, BankStep, OtherStep;
  }

  lemma ResumingResumes(s: System, m: MandateId, asker: BankId)
    ensures var s' := Step(s, ResumeMandate(m, asker));
            if OwnedBy(s, m, asker) && s.t.mandates[m].status == PAUSED
            then
              && m < |s'.t.mandates|
              && FirstSlotAfter(s.t.mandates[m].start, s.t.mandates[m].cycle, s.now, s'.t.mandates[m].nextRunAt)
              && s'.t == s.t.(mandates := s.t.mandates[m := s.t.mandates[m].(status := ACTIVE, failedRuns := 0,
                                pausedAt := None, nextRunAt := s'.t.mandates[m].nextRunAt)])
            else s' == s
  {
    hide TaskStep, BankStep, OtherStep, NextSlot, FirstSlotAfter;
    if m < |s.t.mandates| { NextSlotIsFirst(s.t.mandates[m].start, s.t.mandates[m].cycle, s.now); }
  }

  /** The bank may cancel its mandate as long as it has not ended. */
  predicate MayCancel(s: System, m: MandateId, asker: BankId) {
    OwnedBy(s, m, asker) && (s.t.mandates[m].status == ACTIVE || s.t.mandates[m].status == PAUSED)
  }

  lemma CancellingCancels(s: System, m: MandateId, asker: BankId)
    ensures var s' := Step(s, CancelMandate(m, asker));
            if MayCancel(s, m, asker)
            then
              var d := s.t.mandates[m];
              s'.t == s.t.(mandates := s.t.mandates[m := d.(status := CANCELLED, cancelledAt := Some(s.now))],
                           outbox := s.t.outbox + [Cancelled(m, USER_REQUEST)])
            else s' == s
  {
    hide TaskStep, BankStep, OtherStep;
  }

  /** After an accepted cancellation no run, of any length, adds an execution of the mandate. */
  lemma NoRunAfterCancellation(s: System, m: MandateId, asker: BankId, labels: seq<Label>)
    requires Reachable(s) && MayCancel(s, m, asker)
    ensures var s' := Run(Step(s, CancelMandate(m, asker)), labels);
            && m < |s'.t.mandates| && s'.t.mandates[m].status == CANCELLED
            && RunsOf(s'.t.executions, m, |s'.t.executions|) == RunsOf(s.t.executions, m, |s.t.executions|)
  {
    hide Reachable, Run, Step, Later;
    CancellingCancels(s, m, asker);
    ReachableStep(s, CancelMandate(m, asker));
    NothingAfterTheEnd(Step(s, CancelMandate(m, asker)), labels, m);
    NothingIsUndone(Step(s, CancelMandate(m, asker)), labels);
    EndedStays(Step(s, CancelMandate(m, asker)), Run(Step(s, CancelMandate(m, asker)), labels), m);
  }

  lemma EndedStays(s: System, s': System, m: MandateId)
    requires Later(s, s') && m < |s.t.mandates| && Terminal(s.t.mandates[m].status)
    ensures m < |s'.t.mandates| && s'.t.mandates[m].status == s.t.mandates[m].status
  {
    assert Evolves(s.t.mandates[m], s'.t.mandates[m]);
  }

  /** Starting today or within a year, and ending after the start and within ten years of it. */
  predicate AcceptableDates(r: CreateRequest, today: Date) {
    && !Before(r.start, today) && !Before(AddMonths(today, 12), r.start)
    && (r.end.Some? ==> Before(r.start, r.end.value) && !Before(AddMonths(r.start, 120), r.end.value))
  }

  /** The terms of a mandate are those of the request. */
  predicate HasTerms(d: Mandate, r: CreateRequest) {
    && d.bank == r.bank && d.user == r.user && d.phone == r.phone && d.amount == r.amount && d.cycle == r.cycle
    && d.start == r.start && d.end == r.end && d.key == r.key
  }

  /** A mandate that has just been created for a request: its first run is the first slot. */
  predicate Fresh(d: Mandate, r: CreateRequest) {
    && HasTerms(d, r) && d.status == ACTIVE && d.nextRunAt == SlotAt(r.start, r.cycle, 0) && d.failedRuns == 0
    && d.lastRunAt == None && d.lastExecution == None && d.pausedAt == None && d.cancelledAt == None
  }

  ghost predicate NewKey(mandates: seq<Mandate>, r: CreateRequest) {
    forall i :: 0 <= i < |mandates| ==> !(mandates[i].bank == r.bank && mandates[i].key == r.key)
  }

  lemma DatesAreAcceptable(r: CreateRequest, today: Date)
    ensures AcceptableDates(r, today) <==> DatesOk(r.start, r.end, today)
  {
    hide Before, AddMonths;
  }

  /** Refusals in order, and the request that is known already. */
  lemma CreatingNothing(t: Tables, r: CreateRequest, today: Date, known: bool)
    ensures var created := Create(t, r, today, known);
            && (r.amount <= 0 ==> created == Err(InvalidAmount))
            && (r.amount > 0 && !AcceptableDates(r, today) ==> created == Err(InvalidDateRange))
            && (r.amount > 0 && AcceptableDates(r, today) && !NewKey(t.mandates, r) ==>
                  && created.Ok? && created.value.0 == t && created.value.1 < |t.mandates|
                  && t.mandates[created.value.1].bank == r.bank && t.mandates[created.value.1].key == r.key)
            && (r.amount > 0 && AcceptableDates(r, today) && NewKey(t.mandates, r) && !known ==>
                  created == Err(AliasNotFound))
  {
    hide AcceptableDates, DatesOk, NewMandate, FindByKey;
    DatesAreAcceptable(r, today);
  }

  lemma NewIsFresh(r: CreateRequest)
    ensures Fresh(NewMandate(r), r)
  {
    hide SlotAt, FirstRunAt, SlotDate;
    SlotZero(r.start, r.cycle);
  }

  lemma CreatingSomething(t: Tables, r: CreateRequest, today: Date)
    requires r.amount > 0 && AcceptableDates(r, today) && NewKey(t.mandates, r)
    ensures Create(t, r, today, true) == Ok((t.(mandates := t.mandates + [NewMandate(r)]), |t.mandates|))
    ensures Fresh(NewMandate(r), r)
  {
    hide AcceptableDates, DatesOk, NewMandate, FindByKey, Fresh;
    DatesAreAcceptable(r, today);
    NewIsFresh(r);
  }

  /** A request that is in order and new creates exactly its mandate; any other request none. */
  lemma CreatingCreates(s: System, r: CreateRequest)
    ensures var s' := Step(s, CreateMandate(r));
            if && r.amount > 0 && AcceptableDates(r, DateOf(s.now)) && NewKey(s.t.mandates, r)
               && r.phone in s.registry.aliases
            then
              && |s'.t.mandates| == |s.t.mandates| + 1 && Fresh(s'.t.mandates[|s.t.mandates|], r)
              && s'.t == s.t.(mandates := s.t.mandates + [s'.t.mandates[|s.t.mandates|]])
            else s'.t == s.t
  {
    hide TaskStep, BankStep, OtherStep, DateOf, Create, AcceptableDates, Fresh, NewKey, NewMandate;
    var today, known := DateOf(s.now), r.phone in s.registry.aliases;
    CreatingNothing(s.t, r, today, known);
    if r.amount > 0 && AcceptableDates(r, today) && NewKey(s.t.mandates, r) && known {
      CreatingSomething(s.t, r, today);
    }
  }

  // ---- Ways for a run to end ---------------------------------------------------------------

  /** Execution `e` has failed for `reason`: it says so; its mandate has one failure more and, if it was
      ACTIVE, is cancelled for good when the client has revoked it or closed his account, is paused when
      the bank has blocked it or the failures in a row have reached the threshold, and goes on otherwise.
      Notice is given of the first two.  Nothing else changes. */
  ghost predicate FailsFor(s: System, e: ExecutionId, reason: FailureReason, s': System)
    requires HasTask(s, e)
  {
    var m := s.t.executions[e].mandate;
    var d := s.t.mandates[m];
    var cancels := d.status == ACTIVE && (reason == MANDATE_REVOKED_LOCALLY || reason == ACCOUNT_CLOSED);
    var pauses := d.status == ACTIVE && !cancels
                  && (reason == AML_BLOCK || FailuresInARow(s.events, m) + 1 >= FAILURE_THRESHOLD);
    && s'.t.executions == s.t.executions[e := s.t.executions[e].(status := FAILED, failureReason := Some(reason))]
    && s'.tasks == s.tasks[e := Finished]
    && s'.t.mandates == s.t.mandates[m := d.(failedRuns := FailuresInARow(s.events, m) + 1,
                                             status := if cancels then CANCELLED
                                                       else if pauses then PAUSED else d.status,
                                             cancelledAt := if cancels then Some(s.now) else d.cancelledAt,
                                             pausedAt := if pauses then Some(s.now) else d.pausedAt)]
    && s'.t.outbox == s.t.outbox + (if cancels then [Cancelled(m, Refused(reason))]
                                    else if pauses then [AutoPaused(m, reason)] else [])
  }

  lemma FailureInTables(s: System, e: ExecutionId, reason: FailureReason, s': System)
    requires Reachable(s) && HasTask(s, e)
    requires s'.t == FinalizeFailure(s.t, e, reason, s.now) && s'.tasks == s.tasks[e := Finished]
    ensures FailsFor(s, e, reason, s')
  {
    assert s.t.MandateOf(e).failedRuns == FailuresInARow(s.events, s.t.executions[e].mandate) by {
      hide Reachable;
      MandatesKeepTheirBooks(s, s.t.executions[e].mandate);
    }
    hide Reachable, FailuresInARow;
  }

  /** What a refusal is recorded as: one of the five reasons a bank may give, or OTHER. */
  function Recorded(why: RejectReason): FailureReason {
    match why
    case Code(INSUFFICIENT_FUNDS) => INSUFFICIENT_FUNDS
    case Code(MANDATE_REVOKED_LOCALLY) => MANDATE_REVOKED_LOCALLY
    case Code(ACCOUNT_CLOSED) => ACCOUNT_CLOSED
    case Code(AML_BLOCK) => AML_BLOCK
    case _ => OTHER
  }

  lemma RefusalFails(s: System, e: ExecutionId, why: RejectReason)
    requires Reachable(s) && HasTask(s, e) && s.tasks[e].Waiting? && Answer(e, Rejected(why)) in s.answers
    ensures FailsFor(s, e, Recorded(why), Step(s, ReceiveAnswer(Answer(e, Rejected(why)))))
  {
    hide Reachable, FinalizeFailure, FailsFor, ClientStep, BankStep, OtherStep;
    var s' := Step(s, ReceiveAnswer(Answer(e, Rejected(why))));
    assert Classify(why) == Recorded(why);
    FailureInTables(s, e, Recorded(why), s');
  }

  /** The same for the status of the mandate alone. */
  lemma RefusalDecides(s: System, e: ExecutionId, why: RejectReason)
    requires Reachable(s) && HasTask(s, e) && s.tasks[e].Waiting? && Answer(e, Rejected(why)) in s.answers
    ensures var s' := Step(s, ReceiveAnswer(Answer(e, Rejected(why))));
            var m := s.t.executions[e].mandate;
            && m < |s'.t.mandates|
            && var before, after := s.t.mandates[m].status, s'.t.mandates[m].status;
            && (before != ACTIVE ==> after == before)
            && (before == ACTIVE ==>
                  && (after == CANCELLED <==> why == Code(MANDATE_REVOKED_LOCALLY) || why == Code(ACCOUNT_CLOSED))
                  && (after == PAUSED <==>
                        && why != Code(MANDATE_REVOKED_LOCALLY) && why != Code(ACCOUNT_CLOSED)
                        && (why == Code(AML_BLOCK) || FailuresInARow(s.events, m) + 1 >= FAILURE_THRESHOLD))
                  && (after == CANCELLED || after == PAUSED || after == ACTIVE))
  {
    hide Reachable, Step, FailuresInARow;
    RefusalFails(s, e, why);
  }

  /** An attempt without an answer is followed by another one, three times; then the run has failed. */
  lemma SilenceIsRetried(s: System, e: ExecutionId)
    requires Reachable(s) && HasTask(s, e) && s.tasks[e].Waiting?
    ensures var s' := Step(s, LoseAnswer(e));
            if s.tasks[e].attempt < 3 then s' == s.(tasks := s.tasks[e := Ready(s.tasks[e].attempt + 1)])
            else FailsFor(s, e, NETWORK_TIMEOUT, s')
  {
    hide Reachable, FinalizeFailure, FailsFor, ClientStep, BankStep, OtherStep;
    if s.tasks[e].attempt >= 3 {
      FailureInTables(s, e, NETWORK_TIMEOUT, Step(s, LoseAnswer(e)));
    } else {
      assert s.events + [] == s.events;
    }
  }

  lemma NoWebhookFails(s: System, e: ExecutionId)
    requires Reachable(s) && HasTask(s, e) && s.tasks[e].Ready?
    ensures FailsFor(s, e, NETWORK_TIMEOUT, Step(s, FindNoWebhook(e)))
  {
    assert s.t.executions[e].status == EXECUTING by {
      hide Reachable, RunsOk;
      ReachableIsOk(s);
      TaskIs(s, e);
    }
    hide Reachable, FinalizeFailure, FailsFor, ClientStep, BankStep, OtherStep;
    FailureInTables(s, e, NETWORK_TIMEOUT, Step(s, FindNoWebhook(e)));
  }

  /** A lookup keeps the recipient that it has found; a missing alias fails the run. */
  lemma LookupKeepsRecipient(s: System, e: ExecutionId)
    requires Reachable(s) && HasTask(s, e) && s.tasks[e] == AwaitLookup
    ensures var s', phone := Step(s, LookupRecipient(e)), s.t.MandateOf(e).phone;
            if phone in s.registry.aliases
            then
              var a := s.registry.aliases[phone];
              var x := s.t.executions[e].(snapshot := Some(Recipient(phone, a.bank, a.account)));
              && s'.t == s.t.(executions := s.t.executions[e := x])
              && s'.tasks == s.tasks[e := Ready(0)]
            else FailsFor(s, e, RECIPIENT_ALIAS_GONE, s') && s'.registry == s.registry
  {
    hide Reachable, FinalizeFailure, FailsFor, ClientStep, BankStep, OtherStep;
    if s.t.MandateOf(e).phone !in s.registry.aliases {
      FailureInTables(s, e, RECIPIENT_ALIAS_GONE, Step(s, LookupRecipient(e)));
    }
  }

  /** Every call asks for the amount and the payer of the mandate, and for the recipient looked up. */
  lemma CallsAskForTheMandate(s: System, e: ExecutionId)
    requires Reachable(s) && HasTask(s, e) && s.tasks[e].Ready?
    ensures s.t.executions[e].snapshot.Some?
    ensures var d := s.t.MandateOf(e);
            var r := Request(e, s.t.executions[e].mandate, Account(d.bank, d.user), d.amount,
                             s.t.executions[e].snapshot.value);
            Step(s, SendRequest(e)) ==
            s.(tasks := s.tasks[e := Waiting(s.tasks[e].attempt)], requests := s.requests + {r})
  {
    assert s.t.executions[e].status == EXECUTING && s.t.executions[e].snapshot.Some? by {
      hide Reachable, RunsOk;
      ReachableIsOk(s);
      TaskIs(s, e);
    }
    hide Reachable, ClientStep, BankStep, OtherStep;
  }

  /** A run that the bank has executed: the execution says so, the failures are forgotten, and an ACTIVE
      mandate without a further slot is completed, with a notice. */
  lemma ExecutionSucceeds(s: System, e: ExecutionId, rtp: string, at: Option<Instant>)
    requires HasTask(s, e) && s.tasks[e].Waiting? && Answer(e, Executed(rtp, at)) in s.answers
    ensures var s' := Step(s, ReceiveAnswer(Answer(e, Executed(rtp, at))));
            var m := s.t.executions[e].mandate;
            var d := s.t.mandates[m];
            var ends := d.status == ACTIVE && d.end.Some? && Before(d.end.value, DateOf(d.nextRunAt));
            && s'.t.executions == s.t.executions[e := s.t.executions[e].(status := SUCCESS, rtpReference := rtp,
                                     executedAt := if at.Some? then at else Some(s.now))]
            && s'.tasks == s.tasks[e := Finished]
            && s'.t.mandates == s.t.mandates[m := d.(lastRunAt := Some(s.now), lastExecution := Some(e),
                                                     failedRuns := 0, status := if ends then COMPLETED else d.status)]
            && s'.t.outbox == s.t.outbox + if ends then [Cancelled(m, END_DATE_REACHED)] else []
  {
    hide Before, DateOf, AfterDate, ClientStep, BankStep, OtherStep;
    var d := s.t.MandateOf(e);
    if d.end.Some? { AfterDateComparesDates(d.nextRunAt, d.end.value); }
  }

  lemma NothingIsScheduled(s: System, m: MandateId)
    requires Reachable(s)
    ensures SkipScheduled(s.t.executions, m) == s.t.executions
  {
    hide Reachable, RunsOk, SkipScheduled;
    ReachableIsOk(s);
    RunsAre(s);
    NothingToSkip(s.t.executions, s.t.mandates, m);
  }

  /** A claim of an ACTIVE mandate whose run is due: past its end it is completed, with a notice; else it
      gets an execution for that slot and moves on to the following one.  Nothing else is ever claimed. */
  ghost predicate RightlyClaimed(t: Tables, m: MandateId, now: Instant, t': Tables, claimed: bool) {
    var due := m < |t.mandates| && t.mandates[m].status == ACTIVE && t.mandates[m].nextRunAt <= now;
    if due && t.mandates[m].end.Some? && Before(t.mandates[m].end.value, DateOf(t.mandates[m].nextRunAt))
    then
      && !claimed
      && t' == t.(mandates := t.mandates[m := t.mandates[m].(status := COMPLETED)],
                  outbox := t.outbox + [Cancelled(m, END_DATE_REACHED)])
    else if due
    then
      var d := t.mandates[m];
      && claimed && m < |t'.mandates|
      && FirstSlotAfter(d.start, d.cycle, d.nextRunAt, t'.mandates[m].nextRunAt)
      && t'.mandates == t.mandates[m := d.(nextRunAt := t'.mandates[m].nextRunAt)]
      && t'.executions == t.executions + [Execution(m, d.nextRunAt, EXECUTING, None, "", None, None)]
      && t'.outbox == t.outbox
    else !claimed && t' == t
  }

  lemma ClaimsInTables(t: Tables, m: MandateId, now: Instant)
    requires SkipScheduled(t.executions, m) == t.executions
    ensures var (t', e) := Claim(t, m, now);
            RightlyClaimed(t, m, now, t', e.Some?)
  {
    hide Before, DateOf, AfterDate, NextSlot, FirstSlotAfter, SkipScheduled;
    if m < |t.mandates| {
      var d := t.mandates[m];
      NextSlotIsFirst(d.start, d.cycle, d.nextRunAt);
      if d.end.Some? { AfterDateComparesDates(d.nextRunAt, d.end.value); }
    }
  }

  lemma ClaimIsForQueued(s: System, m: MandateId)
    ensures Step(s, ClaimRun(m)) == if m in s.queue then Claimed(s, m) else s
  {
    hide Claimed, ClientStep, BankStep, OtherStep, LookedUp, Sent, Ended;
  }

  /** A task only claims what has been queued, and what has become due. */
  lemma ClaimsTakeDueSlots(s: System, m: MandateId)
    requires Reachable(s)
    ensures var s' := Step(s, ClaimRun(m));
            var claimed := |s'.tasks| > |s.tasks|;
            && s' == s.(t := s'.t, tasks := s.tasks + if claimed then [AwaitLookup] else [])
            && if m in s.queue then RightlyClaimed(s.t, m, s.now, s'.t, claimed) else s' == s
  {
    hide Reachable, Step, Claim, RightlyClaimed, SkipScheduled;
    NothingIsScheduled(s, m);
    ClaimsInTables(s.t, m, s.now);
    ClaimIsForQueued(s, m);
  }

  // ---- The bank and the register -----------------------------------------------------------

  /** In every reachable state a request, whenever it arrives, gets the answer given before, or is judged
      fairly: paid for exactly if the mandate is not revoked and the client named by KLIK has at least
      the amount of the mandate, and then charged just that. */
  lemma BankIsFair(s: System, r: Request, rtp: string)
    requires Reachable(s) && r in s.requests
    ensures s.t.Knows(r.execution) && r.amount == s.t.MandateOf(r.execution).amount
    ensures r.payer == Account(s.t.MandateOf(r.execution).bank, s.t.MandateOf(r.execution).user)
    ensures var s' := Step(s, BankExecutes(r, rtp));
            if r.execution in s.bank.runs
            then s'.bank == s.bank && s'.answers == s.answers + {Answer(r.execution, s.bank.runs[r.execution])}
            else
              var revoked := r.mandate in s.bank.mandates && s.bank.mandates[r.mandate].revoked;
              && r.execution in s'.bank.runs
              && s'.answers == s.answers + {Answer(r.execution, s'.bank.runs[r.execution])}
              && Fair(s.bank, r, r.payer, revoked, rtp, s.now, s'.bank, s'.bank.runs[r.execution])
  {
    hide Reachable, RunsOk, ClientStep, TaskStep, OtherStep, Fair, Charged, Decide, Apply;
    ReachableIsOk(s);
    ChargedIsPayer(s, r);
    UserIsPayer(s.bank, r);
    if r.execution !in s.bank.runs { ExecuteIsFair(s.bank, r, rtp, s.now); }
  }

  lemma UserIsPayer(b: Bank, r: Request)
    requires Charged(b, r) == r.payer
    ensures var stored := r.mandate in b.mandates && b.mandates[r.mandate].user != "";
            Account(r.payer.bank, if stored then b.mandates[r.mandate].user else r.payer.user) == r.payer
  {
  }

  /** A registered number keeps its bank and account until that bank unregisters it. */
  lemma AliasesAreKept(s: System, l: Label, phone: Phone)
    requires phone in s.registry.aliases
    ensures var s', a := Step(s, l), s.registry.aliases[phone];
            if l == UnregisterAlias(a.bank, phone) then phone !in s'.registry.aliases
            else phone in s'.registry.aliases && s'.registry.aliases[phone] == a
  {
    hide ClientStep, BankStep, Conclude, Claim, FinalizeFailure;
    if OfClient(l) { ClientsLeave(s, l); }
    else if OfBank(l) { BanksLeave(s, l); }
  }
}
