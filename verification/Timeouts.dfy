/** What becomes of a run that was given up after a timeout: exactly when it can still be charged. */
module Timeouts {
  import opened Common
  import opened Calendar
  import opened Schedule
  import opened Recurring
  import opened MockBank
  import opened RecurringSystem
  import opened MandateLife
  import opened RunLife
  import opened MoneyLife
  import opened Guarantees

  predicate Revoked(s: System, m: MandateId) { m in s.bank.mandates && s.bank.mandates[m].revoked }

  /** The revocation of `m`, if there is one, may still be lifted: by a resumption that the bank has yet
      to take note of, or by one that is still possible. */
  predicate MayBeLifted(s: System, m: MandateId) {
    m in s.signed || (m < |s.t.mandates| && !Terminal(s.t.mandates[m].status))
  }

  /** The request names a client whom the bank knows, and his mandate is in force or may be again. */
  predicate CanBePaid(s: System, r: Request) {
    && r.payer.user != "" && r.payer in s.bank.balances
    && (!Revoked(s, r.mandate) || MayBeLifted(s, r.mandate))
  }

  /** The run is over for KLIK and has not been executed; if the bank has not decided yet, nothing that
      may still reach it can be paid. */
  ghost predicate Settled(s: System, e: ExecutionId) {
    && e < |s.tasks| && s.tasks[e] == Finished
    && !IsExecuted(s.bank.runs, e)
    && (e in s.bank.runs || forall r :: r in s.requests && r.execution == e ==> !CanBePaid(s, r))
  }

  // ---- A charge that cannot come any more ----------------------------------------------------

  lemma AccountsStay(s: System, l: Label)
    ensures Step(s, l).bank.balances.Keys == s.bank.balances.Keys
  {
    hide Step;
    if OfClient(l) { ClientsLeave(s, l); }
    else if OfTask(l) { TasksLeave(s, l); }
    else if OfBank(l) { BanksLeave(s, l); }
    else { OthersLeave(s, l); }
  }

  /** A revocation that may not be lifted stands for ever. */
  lemma RevocationStands(s: System, l: Label, m: MandateId)
    requires m < |s.t.mandates| && Revoked(s, m) && !MayBeLifted(s, m) && Later(s, Step(s, l))
    ensures m < |Step(s, l).t.mandates| && Revoked(Step(s, l), m) && !MayBeLifted(Step(s, l), m)
  {
    assert Evolves(s.t.mandates[m], Step(s, l).t.mandates[m]);
    hide Later, TaskStep, OtherStep;
    if OfClient(l) {
      ClientsLeave(s, l);
      NotSignedAgain(s, l, m);
    } else if OfTask(l) {
      TasksLeave(s, l);
    } else if OfBank(l) {
      BanksLeave(s, l);
    } else {
      OthersLeave(s, l);
    }
  }

  /** An ended mandate cannot be resumed. */
  lemma NotSignedAgain(s: System, l: Label, m: MandateId)
    requires m < |s.t.mandates| && Terminal(s.t.mandates[m].status) && OfClient(l)
    ensures m in Step(s, l).signed <==> m in s.signed
  {
    hide Create, Pause, Cancel, NextSlot;
  }

  lemma StaysUnpaid(s: System, l: Label, r: Request)
    requires RunsOk(s) && MandatesOk(s.t.mandates, s.t.outbox, s.events, s.now)
    requires r in s.requests && !CanBePaid(s, r)
    ensures !CanBePaid(Step(s, l), r)
  {
    hide RunsOk, MandatesOk, Step, Later, Revoked, MayBeLifted;
    AccountsStay(s, l);
    if r.payer.user != "" && r.payer in s.bank.balances {
      RequestsAreForMandates(s, r);
      StepIsLater(s, l);
      RevocationStands(s, l, r.mandate);
    }
  }

  lemma RequestsAreForMandates(s: System, r: Request)
    requires RunsOk(s) && r in s.requests
    ensures r.mandate < |s.t.mandates|
  {
    hide ExecutionsOk, TasksOk;
    assert RequestOk(r, s.t);
  }

  /** The bank decides against a request that cannot be paid, and never twice. */
  lemma StaysUnexecuted(s: System, l: Label, e: ExecutionId)
    requires RunsOk(s) && Settled(s, e)
    ensures !IsExecuted(Step(s, l).bank.runs, e) && (e in s.bank.runs ==> e in Step(s, l).bank.runs)
  {
    hide RunsOk, ClientStep, TaskStep, OtherStep, MayBeLifted;
    match l
    case BankExecutes(r, rtp) => if r in s.requests { ChargedIsPayer(s, r); }
    case BankDeclines(r, why) =>
    case _ => BankIsIdle(s, l);
  }

  lemma BankIsIdle(s: System, l: Label)
    requires !l.BankExecutes? && !l.BankDeclines?
    ensures Step(s, l).bank.runs == s.bank.runs
  {
    hide Step;
    if OfBank(l) { BanksLeave(s, l); } else { BanksAct(s, l); }
  }

  /** A finished task stays finished, and nothing more is sent for it. */
  lemma StaysFinished(s: System, l: Label, e: ExecutionId)
    requires e < |s.tasks| && s.tasks[e] == Finished
    ensures var s' := Step(s, l);
            && e < |s'.tasks| && s'.tasks[e] == Finished
            && forall r :: r in s'.requests && r.execution == e ==> r in s.requests
  {
    hide Conclude, Claim, FinalizeFailure, ClientStep, BankStep, OtherStep;
    if OfClient(l) { ClientsLeave(s, l); }
    else if OfBank(l) { BanksLeave(s, l); }
    else if !OfTask(l) { OthersLeave(s, l); }
  }

  lemma StepKeepsSettled(s: System, l: Label, e: ExecutionId)
    requires RunsOk(s) && MandatesOk(s.t.mandates, s.t.outbox, s.events, s.now) && Settled(s, e)
    ensures Settled(Step(s, l), e)
  {
    hide RunsOk, MandatesOk, Step, CanBePaid;
    StaysFinished(s, l, e);
    StaysUnexecuted(s, l, e);
    forall r | r in s.requests && !CanBePaid(s, r) ensures !CanBePaid(Step(s, l), r) { StaysUnpaid(s, l, r); }
  }

  lemma {:induction false} RunKeepsSettled(s: System, labels: seq<Label>, e: ExecutionId)
    requires Invariant(s) && Settled(s, e)
    ensures Settled(Run(s, labels), e)
  {
    hide Invariant, RunsOk, MandatesOk, Settled, Step;
    if labels != [] {
      var n := |labels| - 1;
      RunKeepsSettled(s, labels[..n], e);
      RunKeepsInvariant(s, labels[..n]);
      InvariantIs(Run(s, labels[..n]));
      StepKeepsSettled(Run(s, labels[..n]), labels[n], e);
    }
  }

  // ---- A charge that may still come --------------------------------------------------------

  lemma RunOneMore(s: System, labels: seq<Label>, l: Label)
    ensures Run(s, labels + [l]) == Step(Run(s, labels), l)
  {
    hide Step;
    assert (labels + [l])[..|labels|] == labels;
  }

  lemma FiveSteps(s: System, j: Label, k: Label, l: Label, m: Label, n: Label)
    ensures Run(s, [j, k, l, m, n]) == Step(Step(Step(Step(Step(s, j), k), l), m), n)
  {
    hide Step, Run;
    NoSteps(s);
    RunOneMore(s, [], j);
    RunOneMore(s, [j], k);
    RunOneMore(s, [j, k], l);
    RunOneMore(s, [j, k, l], m);
    RunOneMore(s, [j, k, l, m], n);
    assert [] + [j] == [j] && [j] + [k] == [j, k] && [j, k] + [l] == [j, k, l];
    assert [j, k, l] + [m] == [j, k, l, m] && [j, k, l, m] + [n] == [j, k, l, m, n];
  }

  lemma NoSteps(s: System)
    ensures Run(s, []) == s
  {
  }

  /** What the late request needs stays as it is. */
  ghost predicate SamePayment(s: System, s': System) {
    && s'.requests == s.requests && s'.bank.runs == s.bank.runs && s'.bank.balances == s.bank.balances
    && s'.external == s.external
  }

  /** The client pauses and resumes the mandate. */
  lemma SignedAgain(s: System, m: MandateId)
    requires m < |s.t.mandates|
    ensures var bank := s.t.mandates[m].bank;
            var s' := Step(Step(s, PauseMandate(m, bank)), ResumeMandate(m, bank));
            && SamePayment(s, s') && s'.bank == s.bank && (MayBeLifted(s, m) ==> m in s'.signed)
  {
    hide NextSlot;
  }

  lemma Lifted(s: System, m: MandateId)
    ensures var s' := Step(s, BankLiftsRevocation(m));
            SamePayment(s, s') && (!Revoked(s, m) || m in s.signed ==> !Revoked(s', m))
  {
  }

  lemma Given(s: System, a: Account, amount: int)
    requires MoneyOk(s) && a in s.bank.balances
    ensures var s' := Step(s, BankMovesMoney(a, amount - s.bank.balances[a]));
            && s'.requests == s.requests && s'.bank.runs == s.bank.runs && s'.bank.mandates == s.bank.mandates
            && a in s'.bank.balances && s'.bank.balances[a] == amount
  {
    hide Debits;
  }

  /** If the mandate is signed again, and the client is given the money, a request that is still under
      way is executed when it arrives. */
  lemma ArrivingLate(s: System, r: Request) returns (labels: seq<Label>)
    requires Reachable(s) && r in s.requests && r.execution !in s.bank.runs && CanBePaid(s, r)
    ensures IsExecuted(Run(s, labels).bank.runs, r.execution)
  {
    hide Reachable, RunsOk, MandatesOk, BillingOk, MoneyOk, Step, Run, Revoked, MayBeLifted;
    ReachableIsOk(s);
    RequestsAreForMandates(s, r);
    var m := r.mandate;
    var pause, resume := PauseMandate(m, s.t.mandates[m].bank), ResumeMandate(m, s.t.mandates[m].bank);
    var lift, give := BankLiftsRevocation(m), BankMovesMoney(r.payer, r.amount - s.bank.balances[r.payer]);
    var s2 := Step(Step(s, pause), resume);
    var s3 := Step(s2, lift);
    var s4 := Step(s3, give);
    SignedAgain(s, m);
    SameMandates(s, s2, m);
    Lifted(s2, m);
    ReachableStep(s, pause);
    ReachableStep(Step(s, pause), resume);
    ReachableStep(s2, lift);
    ReachableIsOk(s3);
    Given(s3, r.payer, r.amount);
    ReachableStep(s3, give);
    ReachableIsOk(s4);
    SameRevocations(s3, s4, m);
    ChargedIsPayer(s4, r);
    PaidOnArrival(s4, r);
    FiveSteps(s, pause, resume, lift, give, BankExecutes(r, "RTP"));
    labels := [pause, resume, lift, give, BankExecutes(r, "RTP")];
  }

  lemma SameMandates(s: System, s': System, m: MandateId)
    requires s'.bank == s.bank
    ensures Revoked(s', m) <==> Revoked(s, m)
  {
  }

  lemma SameRevocations(s: System, s': System, m: MandateId)
    requires s'.bank.mandates == s.bank.mandates
    ensures Revoked(s', m) <==> Revoked(s, m)
  {
  }

  lemma PaidOnArrival(s: System, r: Request)
    requires r in s.requests && r.execution !in s.bank.runs && r.payer.user != "" && r.payer in s.bank.balances
    requires Charged(s.bank, r) == r.payer && s.bank.balances[r.payer] == r.amount && !Revoked(s, r.mandate)
    ensures IsExecuted(Step(s, BankExecutes(r, "RTP")).bank.runs, r.execution)
  {
  }

  lemma NeverCharged(s: System, e: ExecutionId, labels: seq<Label>)
    requires Reachable(s) && Settled(s, e)
    ensures !IsExecuted(Run(s, labels).bank.runs, e)
  {
    hide Reachable, RunsOk, Run, Invariant;
    ReachableIsOk(s);
    RunKeepsSettled(s, labels, e);
  }

  lemma FailedIsFinished(s: System, e: ExecutionId)
    requires Reachable(s) && e < |s.t.executions| && s.t.executions[e].status == FAILED
    ensures e < |s.tasks| && s.tasks[e] == Finished
  {
    hide Reachable, RunsOk, Invariant;
    ReachableIsOk(s);
    TaskIs(s, e);
  }

  /** A run that has ended FAILED with a timeout is, or may yet be, charged if and only if the bank has
      executed it, or has not decided yet while a request for it is under way that names one of its
      clients, whose mandate is not revoked for good. */
  lemma LateChargeIff(s: System, e: ExecutionId)
    requires Reachable(s) && e < |s.t.executions|
    requires s.t.executions[e].status == FAILED && s.t.executions[e].failureReason == Some(NETWORK_TIMEOUT)
    ensures (exists labels :: IsExecuted(Run(s, labels).bank.runs, e)) <==>
            || IsExecuted(s.bank.runs, e)
            || (e !in s.bank.runs && exists r :: r in s.requests && r.execution == e && CanBePaid(s, r))
  {
    hide Reachable, Run, CanBePaid;
    FailedIsFinished(s, e);
    if IsExecuted(s.bank.runs, e) {
      NoSteps(s);
      assert IsExecuted(Run(s, []).bank.runs, e);
    } else if e !in s.bank.runs && exists r :: r in s.requests && r.execution == e && CanBePaid(s, r) {
      var r :| r in s.requests && r.execution == e && CanBePaid(s, r);
      var labels := ArrivingLate(s, r);
    } else {
      forall labels ensures !IsExecuted(Run(s, labels).bank.runs, e) { NeverCharged(s, e, labels); }
    }
  }

  // ---- A run that was never sent -----------------------------------------------------------

  predicate Asked(s: System, e: ExecutionId) {
    e < |s.tasks| && s.tasks[e] != AwaitLookup && s.tasks[e] != Ready(0)
  }

  /** Requests and answers exist only for executions that have been sent at least once. */
  ghost predicate OnlyAsked(s: System) {
    && (forall r :: r in s.requests ==> Asked(s, r.execution))
    && (forall e :: e in s.bank.runs ==> Asked(s, e))
  }

  /** A task that has been sent, or is over, does not go back. */
  lemma MovingOn(s: System, s': System, e: ExecutionId)
    requires OnlyAsked(s) && e < |s.tasks| && |s'.tasks| >= |s.tasks|
    requires forall f :: 0 <= f < |s.tasks| && f != e ==> s'.tasks[f] == s.tasks[f]
    requires Asked(s', e) || s'.tasks[e] == s.tasks[e] || !Asked(s, e)
    requires s'.bank.runs == s.bank.runs
    requires forall r :: r in s'.requests ==> r in s.requests || (r.execution == e && Asked(s', e))
    ensures OnlyAsked(s')
  {
  }

  lemma EndedKeepsAsked(s: System, e: ExecutionId, attempt: nat, outcome: CallOutcome)
    requires OnlyAsked(s) && HasTask(s, e)
    ensures OnlyAsked(Ended(s, e, attempt, outcome))
  {
    hide OnlyAsked, FinalizeFailure, FinalizeSuccess;
    MovingOn(s, Ended(s, e, attempt, outcome), e);
  }

  lemma TaskKeepsAsked(s: System, l: Label)
    requires OnlyAsked(s) && OfTask(l)
    ensures OnlyAsked(Step(s, l))
  {
    hide OnlyAsked, Ended, Claim, FinalizeFailure, RequestFor;
    match l {
      case ClaimRun(m) => if |s.tasks| > 0 { MovingOn(s, Step(s, l), 0); } else { NothingAsked(s, Step(s, l)); }
      case LookupRecipient(e) => if HasTask(s, e) && s.tasks[e] == AwaitLookup { MovingOn(s, Step(s, l), e); }
      case SendRequest(e) => if HasTask(s, e) && s.tasks[e].Ready? { SendingIsAsking(s, e); }
      case FindNoWebhook(e) =>
        if HasTask(s, e) && s.tasks[e].Ready? { EndedKeepsAsked(s, e, s.tasks[e].attempt, NoWebhook); }
      case LoseAnswer(e) =>
        if HasTask(s, e) && s.tasks[e].Waiting? { EndedKeepsAsked(s, e, s.tasks[e].attempt, NoAnswer); }
      case ReceiveAnswer(a) =>
        if HasTask(s, a.execution) && s.tasks[a.execution].Waiting? {
          EndedKeepsAsked(s, a.execution, s.tasks[a.execution].attempt, Answered(a.response));
        }
    }
  }

  lemma NothingAsked(s: System, s': System)
    requires OnlyAsked(s) && s.tasks == [] && s'.requests == s.requests && s'.bank.runs == s.bank.runs
    ensures OnlyAsked(s')
  {
  }

  lemma SendingIsAsking(s: System, e: ExecutionId)
    requires OnlyAsked(s) && HasTask(s, e) && s.tasks[e].Ready?
    ensures OnlyAsked(Sent(s, e))
  {
    hide OnlyAsked;
    MovingOn(s, Sent(s, e), e);
  }

  lemma StepKeepsAsked(s: System, l: Label)
    requires OnlyAsked(s)
    ensures OnlyAsked(Step(s, l))
  {
    hide ClientStep, TaskStep, OtherStep, Decide;
    if OfTask(l) { TaskKeepsAsked(s, l); }
    else if OfClient(l) { ClientsLeave(s, l); }
    else if OfBank(l) { BanksLeave(s, l); }
    else { OthersLeave(s, l); }
  }

  lemma {:induction false} RunKeepsAsked(s: System, labels: seq<Label>)
    requires OnlyAsked(s)
    ensures OnlyAsked(Run(s, labels))
  {
    hide OnlyAsked, Step;
    if labels != [] {
      RunKeepsAsked(s, labels[..|labels| - 1]);
      StepKeepsAsked(Run(s, labels[..|labels| - 1]), labels[|labels| - 1]);
    }
  }

  lemma ReachableIsAsked(s: System)
    requires Reachable(s)
    ensures OnlyAsked(s)
  {
    hide Run;
    var now, balances, aliases, labels :| s == Run(Start(now, balances, aliases), labels);
    RunKeepsAsked(Start(now, balances, aliases), labels);
  }

  /** A run of a bank without a webhook fails like a timeout, but is never charged. */
  lemma WithoutWebhookNeverCharged(s: System, e: ExecutionId, labels: seq<Label>)
    requires Reachable(s) && HasTask(s, e) && s.tasks[e] == Ready(0)
    ensures var s' := Step(s, FindNoWebhook(e));
            && e < |s'.t.executions| && s'.t.executions[e].status == FAILED
            && s'.t.executions[e].failureReason == Some(NETWORK_TIMEOUT)
            && !IsExecuted(Run(s', labels).bank.runs, e)
  {
    hide Reachable, RunsOk, Run, Invariant;
    var s' := Step(s, FindNoWebhook(e));
    ReachableIsAsked(s);
    ReachableStep(s, FindNoWebhook(e));
    NeverCharged(s', e, labels);
  }
}
