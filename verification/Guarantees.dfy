/** What standing orders promise, for every run of the whole system. */
module Guarantees {
  import opened Common
  import opened Calendar
  import opened Schedule
  import opened Recurring
  import opened MockBank
  import opened RecurringSystem
  import opened MandateLife
  import opened RunLife
  import opened MoneyLife
  import A = Aliases

  /** The states that some interleaving of steps reaches from an empty start. */
  ghost predicate Reachable(s: System) {
    exists now, balances, aliases, labels :: s == Run(Start(now, balances, aliases), labels)
  }

  lemma ReachableIsOk(s: System)
    requires Reachable(s)
    ensures Invariant(s) && RunsOk(s) && MandatesOk(s.t.mandates, s.t.outbox, s.events, s.now)
    ensures MoneyOk(s) && BillingOk(s)
  {
    hide Run, Invariant, RunsOk, MandatesOk, MoneyOk, BillingOk;
    var now, balances, aliases, labels :| s == Run(Start(now, balances, aliases), labels);
    StartHolds(now, balances, aliases);
    RunKeepsInvariant(Start(now, balances, aliases), labels);
    InvariantIs(s);
  }

  // ---- At most once ------------------------------------------------------------------------

  /** Of the first `n` executions, those of mandate `m` that the bank answered with EXECUTED. */
  function ExecutedRuns(t: Tables, runs: map<ExecutionId, BankResponse>, m: MandateId, n: nat): nat {
    if n == 0 then 0
    else ExecutedRuns(t, runs, m, n - 1) +
         (if n - 1 < |t.executions| && t.executions[n - 1].mandate == m && IsExecuted(runs, n - 1) then 1 else 0)
  }

  /** Amount times executed runs, over the first `k` mandates that charge account `a`. */
  function Cost(t: Tables, runs: map<ExecutionId, BankResponse>, a: Account, n: nat, k: nat): int
    requires k <= |t.mandates|
  {
    if k == 0 then 0
    else
      var d := t.mandates[k - 1];
      Cost(t, runs, a, n, k - 1) +
      (if Account(d.bank, d.user) == a then d.amount * ExecutedRuns(t, runs, k - 1, n) else 0)
  }

  lemma {:induction false} OneMoreExecution(t: Tables, runs: map<ExecutionId, BankResponse>, a: Account, n: nat, k: nat)
    requires k <= |t.mandates| && n < |t.executions| && t.Knows(n)
    ensures Cost(t, runs, a, n + 1, k) ==
            Cost(t, runs, a, n, k) + if t.executions[n].mandate < k then Debit(t, runs, a, n) else 0
  {
    if k > 0 {
      OneMoreExecution(t, runs, a, n, k - 1);
      OneMoreTime(t.mandates[k - 1].amount, ExecutedRuns(t, runs, k - 1, n));
    }
  }

  lemma OneMoreTime(amount: int, n: nat)
    ensures amount * (n + 1) == amount * n + amount
  {
  }

  lemma {:induction false} NoExecutions(t: Tables, runs: map<ExecutionId, BankResponse>, a: Account, k: nat)
    requires k <= |t.mandates|
    ensures Cost(t, runs, a, 0, k) == 0
  {
    if k > 0 { NoExecutions(t, runs, a, k - 1); }
  }

  lemma {:induction false} DebitsAreCosts(t: Tables, runs: map<ExecutionId, BankResponse>, a: Account, n: nat)
    requires n <= |t.executions| && forall e :: 0 <= e < n ==> t.Knows(e)
    ensures Debits(t, runs, a, n) == Cost(t, runs, a, n, |t.mandates|)
  {
    if n == 0 {
      NoExecutions(t, runs, a, |t.mandates|);
    } else {
      DebitsAreCosts(t, runs, a, n - 1);
      OneMoreExecution(t, runs, a, n - 1, |t.mandates|);
    }
  }

  /** Whatever is lost, late or repeated: standing orders have cost an account, for each mandate that
      charges it, the amount of the mandate times the number of its runs answered EXECUTED. */
  lemma EachRunIsPaidAtMostOnce(s: System, a: Account)
    requires Reachable(s) && a in s.bank.balances
    ensures a in s.external
    ensures s.bank.balances[a] == s.external[a] - Cost(s.t, s.bank.runs, a, |s.t.executions|, |s.t.mandates|)
  {
    hide RunsOk, MandatesOk, BillingOk, Reachable, Cost, Debits, Invariant;
    ReachableIsOk(s);
    forall e | 0 <= e < |s.t.executions| ensures s.t.Knows(e) { TaskIs(s, e); }
    DebitsAreCosts(s.t, s.bank.runs, a, |s.t.executions|);
  }

  /** No two executions of a mandate are for the same slot. */
  lemma NoSlotIsRunTwice(s: System, e: ExecutionId, f: ExecutionId)
    requires Reachable(s) && e < f < |s.t.executions| && s.t.executions[e].mandate == s.t.executions[f].mandate
    ensures s.t.Knows(e)
    ensures var d := s.t.MandateOf(e);
            && IsSlot(d.start, d.cycle, s.t.executions[e].scheduledFor)
            && IsSlot(d.start, d.cycle, s.t.executions[f].scheduledFor)
            && IndexOf(d.start, d.cycle, s.t.executions[e].scheduledFor) <
               IndexOf(d.start, d.cycle, s.t.executions[f].scheduledFor)
  {
    hide MandatesOk, BillingOk, MoneyOk, Reachable, AfterDate, TasksOk, MessagesOk;
    ReachableIsOk(s);
    var d := s.t.mandates[s.t.executions[e].mandate];
    SlotsAreOrderedByIndex(d.start, d.cycle, s.t.executions[e].scheduledFor, s.t.executions[f].scheduledFor);
  }

  /** KLIK's view of a finished run agrees with the bank's: SUCCESS means the bank executed it, a
      failure for any reason but a timeout means that it did not, and a missing alias means that it
      was never asked. */
  lemma OutcomesAgree(s: System, e: ExecutionId)
    requires Reachable(s) && e < |s.t.executions|
    ensures var x := s.t.executions[e];
            && (x.status == SUCCESS ==> IsExecuted(s.bank.runs, e))
            && (x.status == FAILED ==> x.failureReason.Some?)
            && (x.status == FAILED && x.failureReason != Some(NETWORK_TIMEOUT) ==> !IsExecuted(s.bank.runs, e))
            && (x.failureReason == Some(RECIPIENT_ALIAS_GONE) && x.status == FAILED ==>
                  e !in s.bank.runs && forall r :: r in s.requests ==> r.execution != e)
  {
    hide MandatesOk, BillingOk, MoneyOk, Reachable, AfterDate, IsSlot;
    ReachableIsOk(s);
    TaskIs(s, e);
    forall r | r in s.requests ensures RequestOk(r, s.t) {}
  }

  /** A timeout proves nothing: if the last attempt is given up before the bank handles a request
      that it can pay, the run ends FAILED although the client is charged. */
  lemma GivingUpMayStillCharge(s: System, r: Request, rtp: string)
    requires Reachable(s) && r in s.requests && r.execution !in s.bank.runs
    requires r.execution < |s.tasks| && s.tasks[r.execution] == Waiting(MAX_RETRIES)
    requires Decide(s.bank, r, rtp, s.now).Executed?
    ensures var s' := Step(Step(s, LoseAnswer(r.execution)), BankExecutes(r, rtp));
            && r.execution < |s'.t.executions|
            && s'.t.executions[r.execution].status == FAILED
            && s'.t.executions[r.execution].failureReason == Some(NETWORK_TIMEOUT)
            && IsExecuted(s'.bank.runs, r.execution)
            && r.payer in s.bank.balances && r.payer in s'.bank.balances
            && s'.bank.balances[r.payer] == s.bank.balances[r.payer] - r.amount
  {
    hide MandatesOk, BillingOk, MoneyOk, Reachable, AfterDate, RunsOk;
    ReachableIsOk(s);
    ChargedIsPayer(s, r);
  }

  lemma ReachableStep(s: System, l: Label)
    requires Reachable(s)
    ensures Reachable(Step(s, l))
  {
    hide Step, Start;
    var now, balances, aliases, labels :| s == Run(Start(now, balances, aliases), labels);
    var more := labels + [l];
    assert more[..|more| - 1] == labels;
    assert Step(s, l) == Run(Start(now, balances, aliases), more);
  }

  lemma ReachableStart(now: Instant, balances: map<Account, int>, aliases: map<Phone, A.Alias>)
    ensures Reachable(Start(now, balances, aliases))
  {
    assert Start(now, balances, aliases) == Run(Start(now, balances, aliases), []);
  }

  /** An open run with `attempt` calls behind it, each of which may be sent and lost. */
  ghost predicate Trying(s: System, attempt: nat, r: Request) {
    && Reachable(s) && HasTask(s, 0) && s.t.executions[0].snapshot.Some? && s.t.executions[0].status == EXECUTING
    && r == RequestFor(s.t, 0) && s.bank.runs == map[] && s.bank.mandates == map[]
    && s.bank.balances == map[r.payer := r.amount] && r.payer.user != ""
    && s.tasks[0] == Ready(attempt)
  }

  lemma LosingOnce(s: System, attempt: nat, r: Request)
    requires Trying(s, attempt, r) && attempt < MAX_RETRIES
    ensures Trying(Step(Step(s, SendRequest(0)), LoseAnswer(0)), attempt + 1, r)
  {
    hide Reachable;
    ReachableStep(s, SendRequest(0));
    ReachableStep(Step(s, SendRequest(0)), LoseAnswer(0));
  }

  const PHONE: Phone := "+48"
  const CLIENT: Account := Account(1, "client")

  function FirstTerms(d: Date): CreateRequest { CreateRequest(1, "client", PHONE, 100, DAILY, d, None, "key") }

  lemma FirstMandate(d: Date) returns (s: System)
    ensures Reachable(s) && s.now == FirstRunAt(d) && s.t == Tables([NewMandate(FirstTerms(d))], [], [])
    ensures s.tasks == [] && s.bank == Bank(map[], map[], map[CLIENT := 100]) && PHONE in s.registry.aliases
  {
    hide Reachable, NextSlot, Ordinal, DayNumber, FromOrdinal;
    var s0 := Start(FirstRunAt(d), map[CLIENT := 100], map[PHONE := A.Alias(2, "account")]);
    ReachableStart(FirstRunAt(d), map[CLIENT := 100], map[PHONE := A.Alias(2, "account")]);
    assert DatesOk(d, None, DateOf(s0.now));
    ReachableStep(s0, CreateMandate(FirstTerms(d)));
    s := Step(s0, CreateMandate(FirstTerms(d)));
    assert s.t.mandates == [NewMandate(FirstTerms(d))];
  }

  lemma FirstClaim(d: Date) returns (s: System)
    ensures Reachable(s) && HasTask(s, 0) && s.tasks == [AwaitLookup] && PHONE in s.registry.aliases
    ensures s.bank == Bank(map[], map[], map[CLIENT := 100])
    ensures s.t.executions[0].status == EXECUTING
    ensures var m := s.t.MandateOf(0);
            && s.t.executions[0].mandate == 0 && m.bank == 1 && m.user == "client" && m.phone == PHONE
            && m.amount == 100
  {
    hide Reachable, NextSlot, FirstRunAt;
    s := FirstMandate(d);
    assert Due(s.t.mandates[0], s.now);
    ReachableStep(s, Dispatch([0]));
    s := Step(s, Dispatch([0]));
    assert 0 in [0];
    assert 0 in s.queue;
    ReachableStep(s, ClaimRun(0));
    s := Step(s, ClaimRun(0));
  }

  lemma FirstRunTries(d: Date) returns (s: System, r: Request)
    ensures Trying(s, 0, r)
  {
    hide Reachable, DayNumber;
    s := FirstClaim(d);
    ReachableStep(s, LookupRecipient(0));
    s := Step(s, LookupRecipient(0));
    r := RequestFor(s.t, 0);
  }

  /** It does happen: there are runs in which a FAILED execution has been charged. */
  lemma FailedRunsCanBeCharged() returns (s: System)
    ensures Reachable(s) && 0 < |s.t.executions|
    ensures s.t.executions[0].status == FAILED && IsExecuted(s.bank.runs, 0)
  {
    hide Reachable, Step, RequestFor;
    var r;
    s, r := FirstRunTries(CivilDate(2026, 6, 1));
    LosingOnce(s, 0, r);
    s := Step(Step(s, SendRequest(0)), LoseAnswer(0));
    LosingOnce(s, 1, r);
    s := Step(Step(s, SendRequest(0)), LoseAnswer(0));
    LosingOnce(s, 2, r);
    s := Step(Step(s, SendRequest(0)), LoseAnswer(0));
    LastAttempt(s, r);
    s := Step(s, SendRequest(0));
    GivingUpMayStillCharge(s, r, "RTP");
    ReachableStep(s, LoseAnswer(0));
    ReachableStep(Step(s, LoseAnswer(0)), BankExecutes(r, "RTP"));
    s := Step(Step(s, LoseAnswer(0)), BankExecutes(r, "RTP"));
  }

  lemma LastAttempt(s: System, r: Request)
    requires Trying(s, MAX_RETRIES, r)
    ensures var s' := Step(s, SendRequest(0));
            && Reachable(s') && r in s'.requests && r.execution == 0 && r.execution !in s'.bank.runs
            && 0 < |s'.tasks| && s'.tasks[0] == Waiting(MAX_RETRIES) && Decide(s'.bank, r, "RTP", s'.now).Executed?
  {
    hide Reachable;
    ReachableStep(s, SendRequest(0));
  }

  // ---- How many runs -----------------------------------------------------------------------

  /** Of the first `n` executions, those of mandate `m`. */
  function RunsOf(xs: seq<Execution>, m: MandateId, n: nat): nat
    requires n <= |xs|
  {
    if n == 0 then 0 else RunsOf(xs, m, n - 1) + if xs[n - 1].mandate == m then 1 else 0
  }

  lemma RunIsInSlot(s: System, e: ExecutionId)
    requires Reachable(s) && e < |s.t.executions|
    ensures s.t.Knows(e)
    ensures IsSlot(s.t.MandateOf(e).start, s.t.MandateOf(e).cycle, s.t.executions[e].scheduledFor)
  {
    hide Reachable, IsSlot, RunsOk, Invariant, MandatesOk, AfterDate;
    ReachableIsOk(s);
    TaskIs(s, e);
  }

  /** The executions of `m` are for slots of growing index. */
  ghost predicate InSlotOrder(xs: seq<Execution>, m: MandateId, start: Date, cycle: Cycle) {
    && (forall e :: 0 <= e < |xs| && xs[e].mandate == m ==> IsSlot(start, cycle, xs[e].scheduledFor))
    && (forall e, f :: 0 <= e < f < |xs| && xs[e].mandate == m && xs[f].mandate == m ==>
          IndexOf(start, cycle, xs[e].scheduledFor) < IndexOf(start, cycle, xs[f].scheduledFor))
  }

  lemma {:induction false} CountBelowIndex(xs: seq<Execution>, m: MandateId, start: Date, cycle: Cycle, n: nat)
    returns (last: int)
    requires InSlotOrder(xs, m, start, cycle) && n <= |xs|
    ensures RunsOf(xs, m, n) == 0 || (0 <= last < n && xs[last].mandate == m)
    ensures RunsOf(xs, m, n) == 0 || RunsOf(xs, m, n) <= IndexOf(start, cycle, xs[last].scheduledFor) + 1
  {
    hide IsSlot, IndexOf;
    last := -1;
    if n > 0 {
      var before := CountBelowIndex(xs, m, start, cycle, n - 1);
      last := if xs[n - 1].mandate == m then n - 1 else before;
    }
  }

  lemma RunsAreInSlotOrder(s: System, m: MandateId)
    requires Reachable(s) && m < |s.t.mandates|
    ensures InSlotOrder(s.t.executions, m, s.t.mandates[m].start, s.t.mandates[m].cycle)
  {
    hide Reachable, IsSlot, IndexOf;
    var xs := s.t.executions;
    forall e | 0 <= e < |xs| && xs[e].mandate == m
      ensures IsSlot(s.t.mandates[m].start, s.t.mandates[m].cycle, xs[e].scheduledFor)
    {
      RunIsInSlot(s, e);
    }
    forall e, f | 0 <= e < f < |xs| && xs[e].mandate == m && xs[f].mandate == m
      ensures IndexOf(s.t.mandates[m].start, s.t.mandates[m].cycle, xs[e].scheduledFor) <
              IndexOf(s.t.mandates[m].start, s.t.mandates[m].cycle, xs[f].scheduledFor)
    {
      NoSlotIsRunTwice(s, e, f);
    }
  }

  /** Executions take distinct slots in order, so the last one's index bounds their number. */
  lemma RunsAreBelowIndex(s: System, m: MandateId, n: nat) returns (last: int)
    requires Reachable(s) && n <= |s.t.executions| && m < |s.t.mandates|
    ensures RunsOf(s.t.executions, m, n) == 0 || (0 <= last < n && s.t.executions[last].mandate == m)
    ensures RunsOf(s.t.executions, m, n) == 0 ||
            (var d := s.t.mandates[m];
             && IsSlot(d.start, d.cycle, s.t.executions[last].scheduledFor)
             && RunsOf(s.t.executions, m, n) <= IndexOf(d.start, d.cycle, s.t.executions[last].scheduledFor) + 1)
  {
    hide Reachable, IsSlot, IndexOf, RunsOf;
    RunsAreInSlotOrder(s, m);
    last := CountBelowIndex(s.t.executions, m, s.t.mandates[m].start, s.t.mandates[m].cycle, n);
  }

  /** A mandate with an end date never gets more executions than estimated, and none after it. */
  lemma RunsStayWithinEstimate(s: System, m: MandateId)
    requires Reachable(s) && m < |s.t.mandates| && s.t.mandates[m].end.Some?
    ensures var d := s.t.mandates[m];
            && RunsOf(s.t.executions, m, |s.t.executions|) <= EstimateTotalRuns(d.start, d.end, d.cycle)
            && forall e :: 0 <= e < |s.t.executions| && s.t.executions[e].mandate == m ==>
                 !Before(d.end.value, DateOf(s.t.executions[e].scheduledFor))
  {
    hide Reachable, IsSlot, RunsOk, Invariant, MandatesOk, EstimateTotalRuns, Before, DateOf, AfterDate;
    hide SlotAt, SlotDay;
    var d, xs := s.t.mandates[m], s.t.executions;
    ReachableIsOk(s);
    forall e | 0 <= e < |xs| && xs[e].mandate == m ensures !Before(d.end.value, DateOf(xs[e].scheduledFor)) {
      TaskIs(s, e);
      AfterDateComparesDates(xs[e].scheduledFor, d.end.value);
    }
    var last := RunsAreBelowIndex(s, m, |xs|);
    if RunsOf(xs, m, |xs|) > 0 {
      var k := IndexOf(d.start, d.cycle, xs[last].scheduledFor);
      TaskIs(s, last);
      SlotNotAfter(d.start, d.cycle, k, d.end.value);
      EstimateCountsSlots(d.start, d.end.value, d.cycle, k);
    }
  }

  lemma SlotNotAfter(start: Date, cycle: Cycle, k: nat, end: Date)
    ensures !AfterDate(SlotAt(start, cycle, k), end) <==> SlotDay(start, cycle, k) <= Ordinal(end)
  {
    hide Ordinal, SlotDate, DayNumber;
  }

  // ---- The mandate -------------------------------------------------------------------------

  /** The next run is always a slot of the calendar, every slot before it has come, and it lies
      after every run already taken; so resuming or claiming never opens a slot again. */
  lemma NextRunIsFresh(s: System, e: ExecutionId)
    requires Reachable(s) && e < |s.t.executions|
    ensures s.t.Knows(e)
    ensures var d := s.t.MandateOf(e);
            && Anchored(d.start, d.cycle, d.nextRunAt, s.now)
            && s.t.executions[e].scheduledFor < d.nextRunAt
  {
    hide Reachable, IsSlot, RunsOk, Invariant, AfterDate;
    ReachableIsOk(s);
    TaskIs(s, e);
    OneOfMany(s.t.mandates, s.t.outbox, s.events, s.now, s.t.executions[e].mandate);
  }

  /** The next run is a slot, and every slot before it has come.  The failure counter is the number
      of failures in a row, and is below the threshold while the mandate is ACTIVE.  The end of a
      mandate has been announced exactly once if it has ended, in the way it ended, and never
      otherwise.  COMPLETED means that no slot is left. */
  lemma MandatesKeepTheirBooks(s: System, m: MandateId)
    requires Reachable(s) && m < |s.t.mandates|
    ensures var d := s.t.mandates[m];
            && Anchored(d.start, d.cycle, d.nextRunAt, s.now)
            && d.failedRuns == FailuresInARow(s.events, m)
            && (d.status == ACTIVE ==> d.failedRuns < FAILURE_THRESHOLD)
            && EndNotices(s.t.outbox, m, true) == (if d.status == COMPLETED then 1 else 0)
            && EndNotices(s.t.outbox, m, false) == (if d.status == CANCELLED then 1 else 0)
            && (d.status == COMPLETED ==> d.end.Some? && Before(d.end.value, DateOf(d.nextRunAt)))
  {
    hide Reachable, Anchored, RunsOk, Invariant, MandatesOk, AfterDate, Before, DateOf;
    ReachableIsOk(s);
    OneOfMany(s.t.mandates, s.t.outbox, s.events, s.now, m);
    var d := s.t.mandates[m];
    if d.status == COMPLETED { AfterDateComparesDates(d.nextRunAt, d.end.value); }
  }

  /** A request with the key of an existing mandate of that bank returns that mandate and changes
      nothing, if and only if its dates are still acceptable: they are checked before the key. */
  lemma ReplayReturnsTheMandate(s: System, m: MandateId, r: CreateRequest, today: Date, known: bool)
    requires Reachable(s) && m < |s.t.mandates| && s.t.mandates[m].bank == r.bank && s.t.mandates[m].key == r.key
    requires r.amount > 0
    ensures Create(s.t, r, today, known) == Ok((s.t, m)) <==> DatesOk(r.start, r.end, today)
    ensures !DatesOk(r.start, r.end, today) ==> Create(s.t, r, today, known) == Err(InvalidDateRange)
  {
    hide Reachable, RunsOk, Invariant, MandateOk, DatesOk;
    ReachableIsOk(s);
  }

  /** Claiming creates and opens an execution in one step, so the states SCHEDULED and SKIPPED are
      never seen: a pause or a cancellation never skips an execution. */
  lemma NothingIsEverSkipped(s: System, e: ExecutionId)
    requires Reachable(s) && e < |s.t.executions|
    ensures s.t.executions[e].status != SCHEDULED && s.t.executions[e].status != SKIPPED
  {
    hide Reachable, RunsOk, Invariant, MandatesOk, AfterDate, IsSlot;
    ReachableIsOk(s);
    TaskIs(s, e);
  }

  /** Whatever happens next: the terms of a mandate and the slots of its executions are fixed, its
      next run never moves back, CANCELLED and COMPLETED are final, finished executions are final
      and an answer of the bank is never changed. */
  lemma {:induction false} NothingIsUndone(s: System, labels: seq<Label>)
    requires Reachable(s)
    ensures Later(s, Run(s, labels))
  {
    hide Reachable, Invariant, Later, Run;
    ReachableIsOk(s);
    RunKeepsInvariant(s, labels);
  }

  // ---- Billing -----------------------------------------------------------------------------

  /** A bank's counters hold one unit per paid lookup, and its standing orders have paid for exactly
      the executions that hold a recipient, however often the call was retried. */
  lemma RunsAreBilledOnce(s: System, b: BankId, day: int)
    requires Reachable(s)
    ensures A.Count(s.registry.total, b) == LookupsBy(s.lookups, b)
    ensures A.Count(s.registry.daily, (b, day)) == LookupsOn(s.lookups, b, day)
    ensures RunLookups(s.lookups, b) == Snapshots(s.t, b, |s.t.executions|)
  {
    hide Reachable, RunsOk, Invariant, MandatesOk, MoneyOk, LookupsBy, LookupsOn, Snapshots, RunLookups;
    ReachableIsOk(s);
  }
}
