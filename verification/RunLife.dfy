/** What holds of every run, and of the messages about it, in every reachable state. */
module RunLife {
  import opened Common
  import opened Calendar
  import opened Schedule
  import opened Recurring
  import opened MockBank
  import opened RecurringSystem
  import opened MandateLife

  // ---- How rows may change -----------------------------------------------------------------

  /** The terms of a mandate are fixed, its next run never moves back, and an ended mandate stays
      ended in the way it did. */
  ghost predicate Evolves(d: Mandate, d': Mandate) {
    && d'.bank == d.bank && d'.user == d.user && d'.phone == d.phone && d'.amount == d.amount && d'.key == d.key
    && d'.cycle == d.cycle && d'.start == d.start && d'.end == d.end
    && d.nextRunAt <= d'.nextRunAt
    && (Terminal(d.status) ==> d'.status == d.status && d'.nextRunAt == d.nextRunAt)
  }

  ghost predicate AllEvolve(ds: seq<Mandate>, ds': seq<Mandate>) {
    |ds| <= |ds'| && forall m :: 0 <= m < |ds| ==> Evolves(ds[m], ds'[m])
  }

  lemma OneEvolves(ds: seq<Mandate>, m: MandateId, d: Mandate)
    requires m < |ds| && Evolves(ds[m], d)
    ensures AllEvolve(ds, ds[m := d])
  {
  }

  lemma ClientsLetMandatesEvolve(t: Tables, m: MandateId, asker: BankId, events: seq<Event>, now: Instant)
    requires MandatesOk(t.mandates, t.outbox, events, now)
    ensures Pause(t, m, asker, now).Ok? ==>
              && AllEvolve(t.mandates, Pause(t, m, asker, now).value.mandates)
              && Pause(t, m, asker, now).value.executions == t.executions
    ensures Resume(t, m, asker, now).Ok? ==>
              && AllEvolve(t.mandates, Resume(t, m, asker, now).value.mandates)
              && Resume(t, m, asker, now).value.executions == t.executions
    ensures Cancel(t, m, asker, now).Ok? ==>
              && AllEvolve(t.mandates, Cancel(t, m, asker, now).value.mandates)
              && Cancel(t, m, asker, now).value.executions == t.executions
  {
    hide MandatesOk, Anchored, NextSlot, AfterDate;
    if m < |t.mandates| {
      OneOfMany(t.mandates, t.outbox, events, now, m);
      var d := t.mandates[m];
      SkippingNeverGoesBack(d.start, d.cycle, d.nextRunAt, now);
    }
  }

  lemma FinishingLetsMandatesEvolve(t: Tables, e: ExecutionId, reason: FailureReason, rtp: string,
                                    at: Option<Instant>, now: Instant)
    requires t.Knows(e)
    ensures AllEvolve(t.mandates, FinalizeFailure(t, e, reason, now).mandates)
    ensures AllEvolve(t.mandates, FinalizeSuccess(t, e, rtp, at, now).mandates)
  {
    hide AfterDate;
  }

  // ---- The invariant -----------------------------------------------------------------------

  ghost predicate ExecutionOk(x: Execution, ds: seq<Mandate>) {
    && x.mandate < |ds|
    && IsSlot(ds[x.mandate].start, ds[x.mandate].cycle, x.scheduledFor)
    && x.scheduledFor < ds[x.mandate].nextRunAt
    && (ds[x.mandate].end.Some? ==> !AfterDate(x.scheduledFor, ds[x.mandate].end.value))
    && x.status in {EXECUTING, SUCCESS, FAILED}
    && (x.status == FAILED <==> x.failureReason.Some?)
  }

  ghost predicate ExecutionsOk(xs: seq<Execution>, ds: seq<Mandate>) {
    && (forall e :: 0 <= e < |xs| ==> ExecutionOk(xs[e], ds))
    && (forall e, f :: 0 <= e < f < |xs| && xs[e].mandate == xs[f].mandate ==> xs[e].scheduledFor < xs[f].scheduledFor)
  }

  /** Why an execution is FAILED: the network, a missing alias (then the bank was never asked), or
      the bank's own refusal. */
  ghost predicate FailureExplained(x: Execution, e: ExecutionId, runs: map<ExecutionId, BankResponse>)
    requires x.failureReason.Some?
  {
    var reason := x.failureReason.value;
    || reason == NETWORK_TIMEOUT
    || (reason == RECIPIENT_ALIAS_GONE && x.snapshot.None?)
    || (reason in ALLOWED_REJECT_REASONS && e in runs && runs[e].Rejected? && Classify(runs[e].why) == reason)
  }

  ghost predicate TaskOk(x: Execution, task: Task, e: ExecutionId, runs: map<ExecutionId, BankResponse>) {
    && (task == Finished <==> x.status != EXECUTING)
    && (task == AwaitLookup ==> x.snapshot.None?)
    && (task.Ready? || task.Waiting? ==> x.snapshot.Some? && task.attempt <= MAX_RETRIES)
    && (e in runs ==> x.snapshot.Some?)
    && (x.status == SUCCESS ==> e in runs && runs[e].Executed?)
    && (x.status == FAILED && x.failureReason.Some? ==> FailureExplained(x, e, runs))
  }

  ghost predicate TasksOk(xs: seq<Execution>, tasks: seq<Task>, runs: map<ExecutionId, BankResponse>) {
    && |tasks| == |xs|
    && (forall e :: e in runs ==> e < |xs|)
    && (forall e :: 0 <= e < |xs| ==> TaskOk(xs[e], tasks[e], e, runs))
  }

  ghost predicate RequestOk(r: Request, t: Tables) {
    && t.Knows(r.execution) && t.executions[r.execution].snapshot.Some?
    && r == RequestFor(t, r.execution)
  }

  ghost predicate MessagesOk(s: System) {
    && (forall r :: r in s.requests ==> RequestOk(r, s.t))
    && (forall a :: a in s.answers ==> a.execution in s.bank.runs && s.bank.runs[a.execution] == a.response)
    && (forall m :: m in s.bank.mandates ==> m < |s.t.mandates| && s.bank.mandates[m].user == s.t.mandates[m].user)
  }

  ghost predicate RunsOk(s: System) {
    && ExecutionsOk(s.t.executions, s.t.mandates)
    && TasksOk(s.t.executions, s.tasks, s.bank.runs)
    && MessagesOk(s)
  }

  // ---- Preservation ------------------------------------------------------------------------

  /** Rows that only evolve keep what was established about runs and messages. */
  lemma EvolvingMandates(s: System, t: Tables)
    requires RunsOk(s) && t.executions == s.t.executions && AllEvolve(s.t.mandates, t.mandates)
    ensures RunsOk(s.(t := t))
  {
    hide IsSlot, AfterDate, TaskOk;
    forall e | 0 <= e < |t.executions| ensures ExecutionOk(t.executions[e], t.mandates) {
      assert ExecutionOk(s.t.executions[e], s.t.mandates);
      assert Evolves(s.t.mandates[t.executions[e].mandate], t.mandates[t.executions[e].mandate]);
    }
    forall r | r in s.requests ensures RequestOk(r, t) {
      assert RequestOk(r, s.t);
      assert Evolves(s.t.mandates[r.mandate], t.mandates[r.mandate]);
    }
    forall m | m in s.bank.mandates ensures m < |t.mandates| && s.bank.mandates[m].user == t.mandates[m].user {
      assert Evolves(s.t.mandates[m], t.mandates[m]);
    }
  }

  /** Changing one execution whose task is still under way. */
  lemma ChangingExecution(s: System, e: ExecutionId, x: Execution, task: Task)
    requires RunsOk(s) && e < |s.t.executions|
    requires s.tasks[e] != Finished
    requires x.mandate == s.t.executions[e].mandate && x.scheduledFor == s.t.executions[e].scheduledFor
    requires s.t.executions[e].snapshot.Some? ==> x.snapshot == s.t.executions[e].snapshot
    requires x.status in {EXECUTING, SUCCESS, FAILED} && (x.status == FAILED <==> x.failureReason.Some?)
    requires TaskOk(x, task, e, s.bank.runs)
    ensures RunsOk(s.(t := s.t.(executions := s.t.executions[e := x]), tasks := s.tasks[e := task]))
  {
    hide IsSlot, AfterDate;
    assert ExecutionOk(s.t.executions[e], s.t.mandates);
    var t := s.t.(executions := s.t.executions[e := x]);
    forall r | r in s.requests ensures RequestOk(r, t) {
      assert RequestOk(r, s.t);
    }
  }

  lemma NothingToSkip(xs: seq<Execution>, ds: seq<Mandate>, m: MandateId)
    requires ExecutionsOk(xs, ds)
    ensures SkipScheduled(xs, m) == xs
  {
    hide IsSlot, AfterDate;
    forall e | 0 <= e < |xs| ensures xs[e].status != SCHEDULED {
      assert ExecutionOk(xs[e], ds);
    }
  }

  lemma AddingExecution(s: System, x: Execution)
    requires RunsOk(s) && ExecutionOk(x, s.t.mandates) && x.status == EXECUTING && x.snapshot.None?
    requires forall e :: 0 <= e < |s.t.executions| && s.t.executions[e].mandate == x.mandate ==>
               s.t.executions[e].scheduledFor < x.scheduledFor
    ensures RunsOk(s.(t := s.t.(executions := s.t.executions + [x]), tasks := s.tasks + [AwaitLookup]))
  {
    hide IsSlot, AfterDate;
    var t := s.t.(executions := s.t.executions + [x]);
    forall r | r in s.requests ensures RequestOk(r, t) {
      assert RequestOk(r, s.t);
    }
  }

  lemma ClaimKeepsRuns(s: System, m: MandateId)
    requires RunsOk(s) && MandatesOk(s.t.mandates, s.t.outbox, s.events, s.now)
    ensures RunsOk(Claimed(s, m)) && AllEvolve(s.t.mandates, Claimed(s, m).t.mandates)
  {
    hide RunsOk, MandatesOk, AfterDate, NextSlot, SkipScheduled;
    if m < |s.t.mandates| {
      var d := s.t.mandates[m];
      if d.status != ACTIVE {
        RunsAre(s);
        NothingToSkip(s.t.executions, s.t.mandates, m);
        EvolvingMandates(s, s.t);
      } else if d.nextRunAt <= s.now {
        if d.PastEnd() {
          OneEvolves(s.t.mandates, m, d.(status := COMPLETED));
          EvolvingMandates(s, Claimed(s, m).t);
        } else {
          NextRunIsSlot(s.t.mandates, s.t.outbox, s.events, s.now, m);
          ClaimingKeepsRuns(s, m);
        }
      }
    }
  }

  lemma NextRunIsSlot(ds: seq<Mandate>, outbox: seq<Notification>, events: seq<Event>, now: Instant, m: MandateId)
    requires MandatesOk(ds, outbox, events, now) && m < |ds|
    ensures IsSlot(ds[m].start, ds[m].cycle, ds[m].nextRunAt)
  {
    hide IsSlot;
    OneOfMany(ds, outbox, events, now, m);
  }

  /** The branch that claims: the new execution takes the old next run, the mandate the slot after. */
  lemma ClaimingKeepsRuns(s: System, m: MandateId)
    requires RunsOk(s) && m < |s.t.mandates| && Due(s.t.mandates[m], s.now) && !s.t.mandates[m].PastEnd()
    requires IsSlot(s.t.mandates[m].start, s.t.mandates[m].cycle, s.t.mandates[m].nextRunAt)
    ensures RunsOk(Claimed(s, m)) && AllEvolve(s.t.mandates, Claimed(s, m).t.mandates)
  {
    hide RunsOk, IsSlot, AfterDate, NextSlot;
    var d := s.t.mandates[m];
    var d' := d.(nextRunAt := NextSlot(d.start, d.cycle, d.nextRunAt));
    var s' := s.(t := s.t.(mandates := s.t.mandates[m := d']));
    assert d.nextRunAt < d'.nextRunAt by { NextSlotIsLeast(d.start, d.cycle, d.nextRunAt, 0); }
    OneEvolves(s.t.mandates, m, d');
    EvolvingMandates(s, s'.t);
    forall e | 0 <= e < |s.t.executions| && s.t.executions[e].mandate == m
      ensures s.t.executions[e].scheduledFor < d.nextRunAt
    {
      TaskIs(s, e);
    }
    AddingExecution(s', Execution(m, d.nextRunAt, EXECUTING, None, "", None, None));
  }

  lemma RunsAre(s: System)
    requires RunsOk(s)
    ensures ExecutionsOk(s.t.executions, s.t.mandates)
  {
  }

  lemma FailureKeepsRuns(s: System, e: ExecutionId, reason: FailureReason)
    requires RunsOk(s) && HasTask(s, e) && s.tasks[e] != Finished
    requires FailureExplained(s.t.executions[e].(failureReason := Some(reason)), e, s.bank.runs)
    ensures RunsOk(s.(t := FinalizeFailure(s.t, e, reason, s.now), tasks := s.tasks[e := Finished]))
  {
    hide RunsOk, AfterDate, IsSlot, AllEvolve, FinalizeFailure;
    var x := s.t.executions[e].(status := FAILED, failureReason := Some(reason));
    var s1 := s.(t := s.t.(executions := s.t.executions[e := x]), tasks := s.tasks[e := Finished]);
    assert RunsOk(s1) by {
      TaskIs(s, e);
      ChangingExecution(s, e, x, Finished);
    }
    FinishingLetsMandatesEvolve(s.t, e, reason, "", None, s.now);
    FailureChangesOne(s.t, e, reason, s.now);
    EvolvingMandates(s1, FinalizeFailure(s.t, e, reason, s.now));
  }

  lemma FailureChangesOne(t: Tables, e: ExecutionId, reason: FailureReason, now: Instant)
    requires t.Knows(e)
    ensures FinalizeFailure(t, e, reason, now).executions ==
            t.executions[e := t.executions[e].(status := FAILED, failureReason := Some(reason))]
  {
  }

  lemma SuccessKeepsRuns(s: System, e: ExecutionId, rtp: string, at: Option<Instant>)
    requires RunsOk(s) && HasTask(s, e) && s.tasks[e].Waiting?
    requires e in s.bank.runs && s.bank.runs[e].Executed?
    ensures RunsOk(s.(t := FinalizeSuccess(s.t, e, rtp, at, s.now), tasks := s.tasks[e := Finished]))
  {
    hide RunsOk, IsSlot, AfterDate, AllEvolve;
    var x := s.t.executions[e].(status := SUCCESS, rtpReference := rtp,
                                executedAt := if at.Some? then at else Some(s.now));
    var s1 := s.(t := s.t.(executions := s.t.executions[e := x]), tasks := s.tasks[e := Finished]);
    assert RunsOk(s1) by {
      TaskIs(s, e);
      ChangingExecution(s, e, x, Finished);
    }
    assert AllEvolve(s.t.mandates, FinalizeSuccess(s.t, e, rtp, at, s.now).mandates) by {
      FinishingLetsMandatesEvolve(s.t, e, OTHER, rtp, at, s.now);
    }
    EvolvingMandates(s1, FinalizeSuccess(s.t, e, rtp, at, s.now));
  }

  lemma TaskIs(s: System, e: ExecutionId)
    requires RunsOk(s) && e < |s.t.executions|
    ensures |s.tasks| == |s.t.executions| && TaskOk(s.t.executions[e], s.tasks[e], e, s.bank.runs)
    ensures ExecutionOk(s.t.executions[e], s.t.mandates)
  {
  }

  lemma LookupKeepsRuns(s: System, e: ExecutionId)
    requires RunsOk(s) && HasTask(s, e) && s.tasks[e] == AwaitLookup
    ensures RunsOk(LookedUp(s, e))
  {
    hide RunsOk, IsSlot, AfterDate;
    TaskIs(s, e);
    var d := s.t.MandateOf(e);
    if d.phone in s.registry.aliases {
      var a := s.registry.aliases[d.phone];
      var x := s.t.executions[e].(snapshot := Some(Recipient(d.phone, a.bank, a.account)));
      ChangingExecution(s, e, x, Ready(0));
      SameTables(s.(t := s.t.(executions := s.t.executions[e := x]), tasks := s.tasks[e := Ready(0)]), LookedUp(s, e));
    } else {
      FailureKeepsRuns(s, e, RECIPIENT_ALIAS_GONE);
      SameTables(s.(t := FinalizeFailure(s.t, e, RECIPIENT_ALIAS_GONE, s.now), tasks := s.tasks[e := Finished]),
                 LookedUp(s, e));
    }
  }

  /** The clock, the register and the histories do not matter for runs. */
  lemma SameTables(s: System, s': System)
    requires RunsOk(s) && s'.t == s.t && s'.tasks == s.tasks && s'.requests == s.requests && s'.answers == s.answers
    requires s'.bank.runs == s.bank.runs && s'.bank.mandates == s.bank.mandates
    ensures RunsOk(s')
  {
    hide ExecutionsOk, TaskOk, RequestOk;
  }

  lemma EndedKeepsRuns(s: System, e: ExecutionId, attempt: nat, outcome: CallOutcome)
    requires RunsOk(s) && HasTask(s, e) && (s.tasks[e].Ready? || s.tasks[e].Waiting?)
    requires outcome.Answered? ==> s.tasks[e].Waiting? && e in s.bank.runs && s.bank.runs[e] == outcome.response
    ensures RunsOk(Ended(s, e, attempt, outcome))
  {
    hide RunsOk, IsSlot, AfterDate, FinalizeFailure, FinalizeSuccess;
    TaskIs(s, e);
    var s' := Ended(s, e, attempt, outcome);
    match outcome
    case NoWebhook =>
      FailureKeepsRuns(s, e, NETWORK_TIMEOUT);
      SameTables(s.(t := s'.t, tasks := s'.tasks), s');
    case NoAnswer =>
      if attempt >= MAX_RETRIES {
        FailureKeepsRuns(s, e, NETWORK_TIMEOUT);
      } else {
        ChangingExecution(s, e, s.t.executions[e], Ready(attempt + 1));
        assert s.t.executions[e := s.t.executions[e]] == s.t.executions;
      }
      SameTables(s.(t := s'.t, tasks := s'.tasks), s');
    case Answered(Executed(rtp, at)) =>
      SuccessKeepsRuns(s, e, rtp, at);
      SameTables(s.(t := s'.t, tasks := s'.tasks), s');
    case Answered(Rejected(why)) =>
      FailureKeepsRuns(s, e, Classify(why));
      SameTables(s.(t := s'.t, tasks := s'.tasks), s');
  }

  lemma SendingKeepsRuns(s: System, e: ExecutionId)
    requires RunsOk(s) && HasTask(s, e) && s.tasks[e].Ready?
    ensures RunsOk(Sent(s, e))
  {
    hide IsSlot, AfterDate, ExecutionsOk;
    TaskIs(s, e);
  }

  /** The bank answers for an execution it was asked about; a duplicate gets the first answer. */
  lemma AnsweringKeepsRuns(s: System, r: Request, outcome: (Bank, BankResponse))
    requires RunsOk(s) && r in s.requests
    requires outcome.0.mandates == s.bank.mandates
    requires r.execution in s.bank.runs ==> outcome.0.runs == s.bank.runs && outcome.1 == s.bank.runs[r.execution]
    requires r.execution !in s.bank.runs ==> outcome.0.runs == s.bank.runs[r.execution := outcome.1]
    ensures RunsOk(BankAnswered(s, r, outcome))
  {
    hide IsSlot, AfterDate, ExecutionsOk;
    assert RequestOk(r, s.t);
    TaskIs(s, r.execution);
    forall e | 0 <= e < |s.t.executions| ensures TaskOk(s.t.executions[e], s.tasks[e], e, outcome.0.runs) {
      assert TaskOk(s.t.executions[e], s.tasks[e], e, s.bank.runs);
    }
  }

  lemma StoringKeepsRuns(s: System, m: MandateId, local: LocalMandate)
    requires RunsOk(s) && m < |s.t.mandates| && local.user == s.t.mandates[m].user
    ensures RunsOk(s.(bank := s.bank.(mandates := s.bank.mandates[m := local])))
  {
    hide ExecutionsOk, TaskOk, RequestOk;
  }

  lemma RevokingKeepsRuns(s: System, m: MandateId, revoked: bool)
    requires RunsOk(s) && m in s.bank.mandates
    ensures RunsOk(s.(bank := WithRevoked(s.bank, m, revoked)))
  {
    hide RunsOk;
    LocalMandatesMatch(s, m);
    StoringKeepsRuns(s, m, s.bank.mandates[m].(revoked := revoked));
  }

  lemma CreatingKeepsRuns(s: System, r: CreateRequest, today: Date, known: bool)
    requires RunsOk(s) && Create(s.t, r, today, known).Ok?
    ensures RunsOk(s.(t := Create(s.t, r, today, known).value.0))
    ensures AllEvolve(s.t.mandates, Create(s.t, r, today, known).value.0.mandates)
  {
    hide RunsOk, DatesOk, FirstRunAt;
    EvolvingMandates(s, Create(s.t, r, today, known).value.0);
  }

  lemma CreatedKeepsRuns(s: System, r: CreateRequest)
    requires RunsOk(s)
    ensures RunsOk(Created(s, r))
  {
    hide RunsOk, Create, DateOf;
    var today, known := DateOf(s.now), r.phone in s.registry.aliases;
    if Create(s.t, r, today, known).Ok? {
      CreatingKeepsRuns(s, r, today, known);
      SameTables(s.(t := Create(s.t, r, today, known).value.0), Created(s, r));
    }
  }

  lemma ClientStepKeepsRuns(s: System, l: Label)
    requires RunsOk(s) && MandatesOk(s.t.mandates, s.t.outbox, s.events, s.now) && OfClient(l)
    ensures RunsOk(Step(s, l))
  {
    hide RunsOk, MandatesOk, Created, Pause, Resume, Cancel;
    match l {
      case CreateMandate(r) => CreatedKeepsRuns(s, r);
      case PauseMandate(m, asker) =>
        ClientsLetMandatesEvolve(s.t, m, asker, s.events, s.now);
        if Pause(s.t, m, asker, s.now).Ok? { EvolvingMandates(s, Pause(s.t, m, asker, s.now).value); }
      case ResumeMandate(m, asker) =>
        ClientsLetMandatesEvolve(s.t, m, asker, s.events, s.now);
        if Resume(s.t, m, asker, s.now).Ok? {
          EvolvingMandates(s, Resume(s.t, m, asker, s.now).value);
          SameTables(s.(t := Resume(s.t, m, asker, s.now).value), Step(s, l));
        }
      case CancelMandate(m, asker) =>
        ClientsLetMandatesEvolve(s.t, m, asker, s.events, s.now);
        if Cancel(s.t, m, asker, s.now).Ok? { EvolvingMandates(s, Cancel(s.t, m, asker, s.now).value); }
    }
  }

  lemma TaskStepKeepsRuns(s: System, l: Label)
    requires RunsOk(s) && MandatesOk(s.t.mandates, s.t.outbox, s.events, s.now) && OfTask(l)
    ensures RunsOk(Step(s, l))
  {
    hide RunsOk, MandatesOk, LookedUp, Sent, Ended, Claimed;
    match l {
      case ClaimRun(m) => ClaimKeepsRuns(s, m);
      case LookupRecipient(e) =>
        if HasTask(s, e) && s.tasks[e] == AwaitLookup { LookupKeepsRuns(s, e); }
      case SendRequest(e) =>
        if HasTask(s, e) && s.tasks[e].Ready? { SendingKeepsRuns(s, e); }
      case FindNoWebhook(e) =>
        if HasTask(s, e) && s.tasks[e].Ready? { EndedKeepsRuns(s, e, s.tasks[e].attempt, NoWebhook); }
      case LoseAnswer(e) =>
        if HasTask(s, e) && s.tasks[e].Waiting? { EndedKeepsRuns(s, e, s.tasks[e].attempt, NoAnswer); }
      case ReceiveAnswer(a) =>
        if HasTask(s, a.execution) && s.tasks[a.execution].Waiting? && a in s.answers {
          AnswersAreTheBanks(s, a);
          EndedKeepsRuns(s, a.execution, s.tasks[a.execution].attempt, Answered(a.response));
        }
    }
  }

  lemma StepKeepsRuns(s: System, l: Label)
    requires RunsOk(s) && MandatesOk(s.t.mandates, s.t.outbox, s.events, s.now)
    ensures RunsOk(Step(s, l))
  {
    hide RunsOk, MandatesOk, Step;
    if OfClient(l) {
      ClientStepKeepsRuns(s, l);
    } else if OfTask(l) {
      TaskStepKeepsRuns(s, l);
    } else {
      OtherStepKeepsRuns(s, l);
    }
  }

  lemma OtherStepKeepsRuns(s: System, l: Label)
    requires RunsOk(s) && !OfClient(l) && !OfTask(l)
    ensures RunsOk(Step(s, l))
  {
    hide RunsOk, ClientStep, TaskStep, OtherStep, Decide;
    if !OfBank(l) {
      OthersLeave(s, l);
      SameTables(s, Step(s, l));
    } else {
      match l
      case BankExecutes(r, rtp) =>
        if r in s.requests { AnsweringKeepsRuns(s, r, Execute(s.bank, r, rtp, s.now)); }
      case BankDeclines(r, why) =>
        if r in s.requests { AnsweringKeepsRuns(s, r, Decline(s.bank, r, why)); }
      case BankStoresMandate(m) =>
        if m < |s.t.mandates| && m !in s.bank.mandates {
          StoringKeepsRuns(s, m, LocalMandate(s.t.mandates[m].user, false));
        }
      case BankRevokes(m) => if m in s.bank.mandates { RevokingKeepsRuns(s, m, true); }
      case BankLiftsRevocation(m) =>
        if m in s.signed && m in s.bank.mandates {
          RevokingKeepsRuns(s, m, false);
          SameTables(s.(bank := WithRevoked(s.bank, m, false)), Step(s, l));
        }
      case _ => SameTables(s, Step(s, l));
    }
  }

  lemma AnswersAreTheBanks(s: System, a: Answer)
    requires RunsOk(s) && a in s.answers
    ensures a.execution in s.bank.runs && s.bank.runs[a.execution] == a.response
  {
  }

  lemma LocalMandatesMatch(s: System, m: MandateId)
    requires RunsOk(s) && m in s.bank.mandates
    ensures m < |s.t.mandates| && s.bank.mandates[m].user == s.t.mandates[m].user
  {
  }
}
