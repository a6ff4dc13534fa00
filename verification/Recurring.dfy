/** Standing orders: the effect of every operation on the mandates, their executions and the
    notifications to be sent.  Rows are identified by their position. */
module Recurring {
  import opened Common
  import opened Calendar
  import opened Schedule

  type MandateId = nat
  type ExecutionId = nat
  type BankId = nat
  type UserId = string
  type Phone = string

  /** The configured number of failures in a row that pauses a mandate. */
  type Threshold = n: int | n >= 1 witness 1
  const FAILURE_THRESHOLD: Threshold

  const MAX_RETRIES: nat := 3
  const DISPATCH_BATCH_LIMIT: nat := 1000
  const MAX_START_AHEAD_YEARS: nat := 1
  const MAX_MANDATE_SPAN_YEARS: nat := 10

  datatype MandateStatus = ACTIVE | PAUSED | CANCELLED | COMPLETED
  datatype ExecutionStatus = SCHEDULED | EXECUTING | SUCCESS | FAILED | SKIPPED
  datatype FailureReason =
    | INSUFFICIENT_FUNDS | MANDATE_REVOKED_LOCALLY | ACCOUNT_CLOSED | AML_BLOCK | OTHER // from the bank
    | RECIPIENT_ALIAS_GONE | NETWORK_TIMEOUT                                            // KLIK's own
  datatype EndReason = USER_REQUEST | END_DATE_REACHED | Refused(reason: FailureReason)
  datatype Notification = AutoPaused(mandate: MandateId, reason: FailureReason)
                        | Cancelled(mandate: MandateId, end: EndReason)

  datatype Recipient = Recipient(phone: Phone, bank: BankId, account: string)

  datatype Mandate = Mandate(bank: BankId, user: UserId, phone: Phone, amount: int, cycle: Cycle, start: Date,
                             end: Option<Date>, key: string, status: MandateStatus, nextRunAt: Instant,
                             lastRunAt: Option<Instant>, lastExecution: Option<ExecutionId>, failedRuns: nat,
                             pausedAt: Option<Instant>, cancelledAt: Option<Instant>) {
    /** No further slot lies on or before the end date. */
    predicate PastEnd() { end.Some? && AfterDate(nextRunAt, end.value) }
  }

  datatype Execution = Execution(mandate: MandateId, scheduledFor: Instant, status: ExecutionStatus,
                                 executedAt: Option<Instant>, rtpReference: string,
                                 failureReason: Option<FailureReason>, snapshot: Option<Recipient>)

  datatype Tables = Tables(mandates: seq<Mandate>, executions: seq<Execution>, outbox: seq<Notification>) {
    predicate Knows(e: ExecutionId) { e < |executions| && executions[e].mandate < |mandates| }

    function MandateOf(e: ExecutionId): Mandate
      requires Knows(e)
    {
      mandates[executions[e].mandate]
    }
  }

  predicate Terminal(status: MandateStatus) { status in {CANCELLED, COMPLETED} }

  // ---- Creating a mandate ------------------------------------------------------------------

  datatype CreateRequest = CreateRequest(bank: BankId, user: UserId, phone: Phone, amount: int, cycle: Cycle,
                                         start: Date, end: Option<Date>, key: string)

  datatype RecurringError = InvalidAmount | InvalidDateRange | AliasNotFound
                          | NotFound | InsufficientPermissions | Terminated | NotActive | NotPaused

  predicate DatesOk(start: Date, end: Option<Date>, today: Date) {
    && !Before(start, today)
    && !Before(AddMonths(today, 12 * MAX_START_AHEAD_YEARS), start)
    && (end.Some? ==> Before(start, end.value) && !Before(AddMonths(start, 12 * MAX_MANDATE_SPAN_YEARS), end.value))
  }

  function FindByKey(mandates: seq<Mandate>, bank: BankId, key: string): (r: Option<MandateId>)
    ensures r.Some? ==> r.value < |mandates| && mandates[r.value].bank == bank && mandates[r.value].key == key
    ensures r.None? ==> forall i :: 0 <= i < |mandates| ==> !(mandates[i].bank == bank && mandates[i].key == key)
  {
    if mandates == [] then None
    else
      var n := |mandates| - 1;
      if mandates[n].bank == bank && mandates[n].key == key then Some(n) else FindByKey(mandates[..n], bank, key)
  }

  function NewMandate(r: CreateRequest): Mandate {
    Mandate(r.bank, r.user, r.phone, r.amount, r.cycle, r.start, r.end, r.key, ACTIVE, FirstRunAt(r.start),
            None, None, 0, None, None)
  }

  function Create(t: Tables, r: CreateRequest, today: Date, aliasKnown: bool)
    : Result<(Tables, MandateId), RecurringError>
  {
    if r.amount <= 0 then Err(InvalidAmount)
    else if !DatesOk(r.start, r.end, today) then Err(InvalidDateRange)
    else
      match FindByKey(t.mandates, r.bank, r.key)
      case Some(m) => Ok((t, m))
      case None =>
        if !aliasKnown then Err(AliasNotFound)
        else Ok((t.(mandates := t.mandates + [NewMandate(r)]), |t.mandates|))
  }

  // ---- Client operations -------------------------------------------------------------------

  function Owned(t: Tables, m: MandateId, bank: BankId): Result<Mandate, RecurringError> {
    if m >= |t.mandates| then Err(NotFound)
    else if t.mandates[m].bank != bank then Err(InsufficientPermissions)
    else Ok(t.mandates[m])
  }

  function Pause(t: Tables, m: MandateId, bank: BankId, now: Instant): Result<Tables, RecurringError> {
    match Owned(t, m, bank)
    case Err(e) => Err(e)
    case Ok(d) =>
      if Terminal(d.status) then Err(Terminated)
      else if d.status != ACTIVE then Err(NotActive)
      else Ok(t.(mandates := t.mandates[m := d.(status := PAUSED, pausedAt := Some(now))]))
  }

  function Resume(t: Tables, m: MandateId, bank: BankId, now: Instant): Result<Tables, RecurringError> {
    match Owned(t, m, bank)
    case Err(e) => Err(e)
    case Ok(d) =>
      if Terminal(d.status) then Err(Terminated)
      else if d.status != PAUSED then Err(NotPaused)
      else Ok(t.(mandates := t.mandates[m := d.(status := ACTIVE, nextRunAt := NextSlot(d.start, d.cycle, now),
                                                failedRuns := 0, pausedAt := None)]))
  }

  function Cancel(t: Tables, m: MandateId, bank: BankId, now: Instant): Result<Tables, RecurringError> {
    match Owned(t, m, bank)
    case Err(e) => Err(e)
    case Ok(d) =>
      if Terminal(d.status) then Err(Terminated)
      else Ok(t.(mandates := t.mandates[m := d.(status := CANCELLED, cancelledAt := Some(now))],
                outbox := t.outbox + [Cancelled(m, USER_REQUEST)]))
  }

  // ---- Runs --------------------------------------------------------------------------------

  predicate Due(d: Mandate, now: Instant) { d.status == ACTIVE && d.nextRunAt <= now }

  function SkipScheduled(xs: seq<Execution>, m: MandateId): seq<Execution> {
    seq(|xs|, i requires 0 <= i < |xs| =>
      if xs[i].mandate == m && xs[i].status == SCHEDULED then xs[i].(status := SKIPPED) else xs[i])
  }

  /** `_claim_execution`: a new execution for the due slot, and the next slot for the mandate. */
  function Claim(t: Tables, m: MandateId, now: Instant): (Tables, Option<ExecutionId>) {
    if m >= |t.mandates| then (t, None)
    else
      var d := t.mandates[m];
      if d.status != ACTIVE then (t.(executions := SkipScheduled(t.executions, m)), None)
      else if d.nextRunAt > now then (t, None)
      else if d.PastEnd() then
        (t.(mandates := t.mandates[m := d.(status := COMPLETED)],
           outbox := t.outbox + [Cancelled(m, END_DATE_REACHED)]), None)
      else
        (t.(mandates := t.mandates[m := d.(nextRunAt := NextSlot(d.start, d.cycle, d.nextRunAt))],
           executions := t.executions + [Execution(m, d.nextRunAt, EXECUTING, None, "", None, None)]),
         Some(|t.executions|))
  }

  function SaveSnapshot(t: Tables, e: ExecutionId, r: Recipient): Tables
    requires e < |t.executions|
  {
    t.(executions := t.executions[e := t.executions[e].(snapshot := Some(r))])
  }

  function FinalizeSuccess(t: Tables, e: ExecutionId, rtpReference: string, executedAt: Option<Instant>,
                           now: Instant)
    : Tables
    requires t.Knows(e)
  {
    var x, m := t.executions[e], t.executions[e].mandate;
    var d := t.mandates[m].(lastRunAt := Some(now), lastExecution := Some(e), failedRuns := 0);
    var completes := d.status == ACTIVE && d.PastEnd();
    Tables(t.mandates[m := if completes then d.(status := COMPLETED) else d],
           t.executions[e := x.(status := SUCCESS, rtpReference := rtpReference,
                                executedAt := if executedAt.Some? then executedAt else Some(now))],
           t.outbox + (if completes then [Cancelled(m, END_DATE_REACHED)] else []))
  }

  const CANCELLING_REASONS: set<FailureReason> := {MANDATE_REVOKED_LOCALLY, ACCOUNT_CLOSED}

  function FinalizeFailure(t: Tables, e: ExecutionId, reason: FailureReason, now: Instant): Tables
    requires t.Knows(e)
  {
    var x, m := t.executions[e], t.executions[e].mandate;
    var d := t.mandates[m].(failedRuns := t.mandates[m].failedRuns + 1);
    var t' := t.(executions := t.executions[e := x.(status := FAILED, failureReason := Some(reason))]);
    if d.status == ACTIVE && reason in CANCELLING_REASONS then
      t'.(mandates := t.mandates[m := d.(status := CANCELLED, cancelledAt := Some(now))],
         outbox := t.outbox + [Cancelled(m, Refused(reason))])
    else if d.status == ACTIVE && (reason == AML_BLOCK || d.failedRuns >= FAILURE_THRESHOLD) then
      t'.(mandates := t.mandates[m := d.(status := PAUSED, pausedAt := Some(now))],
         outbox := t.outbox + [AutoPaused(m, reason)])
    else
      t'.(mandates := t.mandates[m := d])
  }

  // ---- The call to the bank ----------------------------------------------------------------

  /** The text of a refusal: one of KLIK's own codes, or anything else. */
  datatype RejectReason = Code(reason: FailureReason) | Text(text: string)

  datatype BankResponse = Executed(rtpReference: string, executedAt: Option<Instant>) | Rejected(why: RejectReason)

  const ALLOWED_REJECT_REASONS: set<FailureReason> :=
    {INSUFFICIENT_FUNDS, MANDATE_REVOKED_LOCALLY, ACCOUNT_CLOSED, AML_BLOCK, OTHER}

  function Classify(why: RejectReason): FailureReason {
    if why.Code? && why.reason in ALLOWED_REJECT_REASONS then why.reason else OTHER
  }

  datatype CallOutcome = NoWebhook | NoAnswer | Answered(response: BankResponse)

  /** `_call_bank_and_finalize` once the call has ended; the second result is the attempt to make
      next, if any. */
  function Conclude(t: Tables, e: ExecutionId, attempt: nat, outcome: CallOutcome, now: Instant): (Tables, Option<nat>)
    requires t.Knows(e)
  {
    match outcome
    case NoWebhook => (FinalizeFailure(t, e, NETWORK_TIMEOUT, now), None)
    case NoAnswer =>
      if attempt >= MAX_RETRIES then (FinalizeFailure(t, e, NETWORK_TIMEOUT, now), None) else (t, Some(attempt + 1))
    case Answered(Executed(rtp, at)) => (FinalizeSuccess(t, e, rtp, at, now), None)
    case Answered(Rejected(why)) => (FinalizeFailure(t, e, Classify(why), now), None)
  }
}
