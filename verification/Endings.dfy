/** What a mandate can still cost after it has been cancelled or completed. */
module Endings {
  import opened Common
  import opened Calendar
  import opened Schedule
  import opened Recurring
  import opened MockBank
  import opened RecurringSystem
  import opened RunLife
  import opened MoneyLife
  import opened Guarantees

  /** Between the two states, no execution of `m` was added. */
  ghost predicate NoneAdded(xs: seq<Execution>, xs': seq<Execution>, m: MandateId) {
    |xs| <= |xs'| && forall e :: |xs| <= e < |xs'| ==> xs'[e].mandate != m
  }

  lemma FinishingAddsNothing(t: Tables, e: ExecutionId, reason: FailureReason, rtp: string, at: Option<Instant>,
                             now: Instant)
    requires t.Knows(e)
    ensures |FinalizeFailure(t, e, reason, now).executions| == |t.executions|
    ensures |FinalizeSuccess(t, e, rtp, at, now).executions| == |t.executions|
  {
    hide AfterDate;
  }

  lemma EndedAddsNothing(s: System, e: ExecutionId, attempt: nat, outcome: CallOutcome)
    requires HasTask(s, e)
    ensures |Ended(s, e, attempt, outcome).t.executions| == |s.t.executions|
  {
    hide FinalizeFailure, FinalizeSuccess;
    match outcome
    case Answered(Executed(rtp, at)) => FinishingAddsNothing(s.t, e, OTHER, rtp, at, s.now);
    case Answered(Rejected(why)) => FinishingAddsNothing(s.t, e, Classify(why), "", None, s.now);
    case _ => FinishingAddsNothing(s.t, e, NETWORK_TIMEOUT, "", None, s.now);
  }

  /** Only a claim adds an execution, for a mandate that is ACTIVE. */
  lemma ClaimAddsForActive(s: System, m: MandateId, k: MandateId)
    requires k < |s.t.mandates| && Terminal(s.t.mandates[k].status)
    ensures NoneAdded(s.t.executions, Claimed(s, m).t.executions, k)
  {
    hide NextSlot, AfterDate;
  }

  lemma LookupAddsNothing(s: System, e: ExecutionId)
    requires HasTask(s, e)
    ensures |LookedUp(s, e).t.executions| == |s.t.executions|
  {
    hide FinalizeFailure;
    FinishingAddsNothing(s.t, e, RECIPIENT_ALIAS_GONE, "", None, s.now);
  }

  lemma TaskStepAdds(s: System, l: Label, m: MandateId)
    requires OfTask(l) && m < |s.t.mandates| && Terminal(s.t.mandates[m].status)
    ensures NoneAdded(s.t.executions, Step(s, l).t.executions, m)
  {
    hide Ended, LookedUp, Claimed;
    match l {
      case ClaimRun(k) => ClaimAddsForActive(s, k, m);
      case LookupRecipient(e) => if HasTask(s, e) { LookupAddsNothing(s, e); }
      case SendRequest(e) =>
      case FindNoWebhook(e) =>
        if HasTask(s, e) && s.tasks[e].Ready? { EndedAddsNothing(s, e, s.tasks[e].attempt, NoWebhook); }
      case LoseAnswer(e) =>
        if HasTask(s, e) && s.tasks[e].Waiting? { EndedAddsNothing(s, e, s.tasks[e].attempt, NoAnswer); }
      case ReceiveAnswer(a) =>
        if HasTask(s, a.execution) && s.tasks[a.execution].Waiting? {
          EndedAddsNothing(s, a.execution, s.tasks[a.execution].attempt, Answered(a.response));
        }
    }
  }

  lemma StepAdds(s: System, l: Label, m: MandateId)
    requires m < |s.t.mandates| && Terminal(s.t.mandates[m].status)
    ensures NoneAdded(s.t.executions, Step(s, l).t.executions, m)
  {
    hide Step;
    if OfTask(l) { TaskStepAdds(s, l, m); }
    else if OfClient(l) { ClientStepsAreUnbilled(s, l); }
    else if OfBank(l) { BanksLeave(s, l); }
    else { OthersLeave(s, l); }
  }

  lemma {:induction false} RunAdds(s: System, labels: seq<Label>, m: MandateId)
    requires Invariant(s) && m < |s.t.mandates| && Terminal(s.t.mandates[m].status)
    ensures NoneAdded(s.t.executions, Run(s, labels).t.executions, m)
  {
    hide Invariant, Step;
    if labels != [] {
      var n := |labels| - 1;
      var before := Run(s, labels[..n]);
      RunAdds(s, labels[..n], m);
      RunKeepsInvariant(s, labels[..n]);
      assert Evolves(s.t.mandates[m], before.t.mandates[m]);
      StepAdds(before, labels[n], m);
      StepKeepsInvariant(before, labels[n]);
      forall e | 0 <= e < |before.t.executions|
        ensures Step(before, labels[n]).t.executions[e].mandate == before.t.executions[e].mandate
      {
        assert ExecutionLater(before.t.executions[e], Step(before, labels[n]).t.executions[e]);
      }
    }
  }

  // ---- What they can still cost ------------------------------------------------------------

  /** Of the first `n` executions, those of mandate `m` that are still open, or were given up after a
      timeout. */
  function Undecided(xs: seq<Execution>, m: MandateId, n: nat): nat
    requires n <= |xs|
  {
    if n == 0 then 0
    else
      var x := xs[n - 1];
      Undecided(xs, m, n - 1) +
      (if x.mandate == m && (x.status == EXECUTING || (x.status == FAILED && x.failureReason == Some(NETWORK_TIMEOUT)))
       then 1 else 0)
  }

  lemma {:induction false} NothingMore(t: Tables, runs: map<ExecutionId, BankResponse>, m: MandateId, n: nat, n': nat)
    requires n <= n' <= |t.executions| && forall e :: n <= e < n' ==> t.executions[e].mandate != m
    ensures ExecutedRuns(t, runs, m, n') == ExecutedRuns(t, runs, m, n)
    ensures RunsOf(t.executions, m, n') == RunsOf(t.executions, m, n)
  {
    if n < n' { NothingMore(t, runs, m, n, n' - 1); }
  }

  /** An execution that was decided has been charged already, or never will be. */
  lemma DecidedStays(s: System, s': System, e: ExecutionId)
    requires Reachable(s) && Reachable(s') && Later(s, s') && e < |s.t.executions|
    requires s.t.executions[e].status != EXECUTING
    requires s.t.executions[e].status == FAILED ==> s.t.executions[e].failureReason != Some(NETWORK_TIMEOUT)
    ensures IsExecuted(s'.bank.runs, e) ==> IsExecuted(s.bank.runs, e)
  {
    hide Reachable, AllEvolve;
    OutcomesAgree(s, e);
    OutcomesAgree(s', e);
    NothingIsEverSkipped(s, e);
    assert ExecutionLater(s.t.executions[e], s'.t.executions[e]);
  }

  lemma {:induction false} OnlyUndecided(s: System, s': System, m: MandateId, n: nat)
    requires Reachable(s) && Reachable(s') && Later(s, s') && n <= |s.t.executions|
    ensures ExecutedRuns(s'.t, s'.bank.runs, m, n) <=
            ExecutedRuns(s.t, s.bank.runs, m, n) + Undecided(s.t.executions, m, n)
    ensures RunsOf(s'.t.executions, m, n) == RunsOf(s.t.executions, m, n)
  {
    hide Reachable, AllEvolve;
    if n > 0 {
      OnlyUndecided(s, s', m, n - 1);
      var x := s.t.executions[n - 1];
      assert ExecutionLater(x, s'.t.executions[n - 1]);
      if x.status != EXECUTING && (x.status == FAILED ==> x.failureReason != Some(NETWORK_TIMEOUT)) {
        DecidedStays(s, s', n - 1);
      }
    }
  }

  /** After its end a mandate gets no further execution, and charges at most those that were undecided
      when it ended. */
  lemma NothingAfterTheEnd(s: System, labels: seq<Label>, m: MandateId)
    requires Reachable(s) && m < |s.t.mandates| && Terminal(s.t.mandates[m].status)
    ensures var s', n := Run(s, labels), |s.t.executions|;
            && n <= |s'.t.executions|
            && RunsOf(s'.t.executions, m, |s'.t.executions|) == RunsOf(s.t.executions, m, n)
            && ExecutedRuns(s'.t, s'.bank.runs, m, |s'.t.executions|) <=
               ExecutedRuns(s.t, s.bank.runs, m, n) + Undecided(s.t.executions, m, n)
  {
    hide Reachable, Invariant, Run, AllEvolve;
    var s', n := Run(s, labels), |s.t.executions|;
    ReachableIsOk(s);
    ReachableRun(s, labels);
    RunKeepsInvariant(s, labels);
    RunAdds(s, labels, m);
    OnlyUndecided(s, s', m, n);
    NothingMore(s'.t, s'.bank.runs, m, n, |s'.t.executions|);
  }

  lemma {:induction false} ReachableRun(s: System, labels: seq<Label>)
    requires Reachable(s)
    ensures Reachable(Run(s, labels))
  {
    hide Reachable, Step;
    if labels != [] {
      ReachableRun(s, labels[..|labels| - 1]);
      ReachableStep(Run(s, labels[..|labels| - 1]), labels[|labels| - 1]);
    }
  }
}
