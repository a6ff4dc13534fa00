/** Every mandate keeps the terms that the client has asked for. */
module Requests {
  import opened Calendar
  import opened Schedule
  import opened Recurring
  import opened MockBank
  import opened RecurringSystem
  import opened RunLife
  import opened MoneyLife
  import opened Guarantees
  import opened Replay
  import opened Operations

  /** The request that created a mandate was in order at the time, and the mandate has its terms. */
  ghost predicate AsRequested(s: System) {
    && |s.accepted| == |s.t.mandates|
    && forall m :: 0 <= m < |s.accepted| ==> HasTerms(s.t.mandates[m], s.accepted[m]) && s.accepted[m].amount > 0
  }

  lemma OnlyCreatingAccepts(s: System, l: Label)
    requires !l.CreateMandate?
    ensures Step(s, l).accepted == s.accepted
  {
    hide Conclude, Claim, FinalizeFailure, RequestFor, Pause, Resume, Cancel, Execute, Decline, DateOf, Due;
  }

  lemma CreatingIsRecorded(s: System, r: CreateRequest)
    ensures var s' := Step(s, CreateMandate(r));
            s'.accepted == if |s'.t.mandates| > |s.t.mandates| then s.accepted + [r] else s.accepted
  {
    hide Create, TaskStep, BankStep, OtherStep, DateOf;
  }

  lemma CreatingAsRequested(s: System, r: CreateRequest)
    requires AsRequested(s)
    ensures AsRequested(Step(s, CreateMandate(r)))
  {
    hide Step, AcceptableDates, NewKey, DateOf, SlotAt;
    CreatingIsRecorded(s, r);
    CreatingCreates(s, r);
  }

  lemma TermsStay(d: Mandate, d': Mandate, r: CreateRequest)
    requires HasTerms(d, r) && Evolves(d, d')
    ensures HasTerms(d', r)
  {
  }

  lemma StepKeepsRequests(s: System, l: Label)
    requires AsRequested(s) && Later(s, Step(s, l))
    ensures AsRequested(Step(s, l))
  {
    hide Step, HasTerms, Evolves, ExecutionsLater;
    if l.CreateMandate? {
      CreatingAsRequested(s, l.terms);
    } else {
      OnlyCreatingAdds(s, l);
      OnlyCreatingAccepts(s, l);
      var s' := Step(s, l);
      forall m | 0 <= m < |s'.accepted| ensures HasTerms(s'.t.mandates[m], s'.accepted[m]) {
        TermsStay(s.t.mandates[m], s'.t.mandates[m], s.accepted[m]);
      }
    }
  }

  lemma {:induction false} RunKeepsRequests(s: System, labels: seq<Label>)
    requires AsRequested(s) && Invariant(s)
    ensures AsRequested(Run(s, labels))
  {
    hide AsRequested, Invariant, Step, Later;
    if labels != [] {
      var n := |labels| - 1;
      RunKeepsRequests(s, labels[..n]);
      RunKeepsInvariant(s, labels[..n]);
      StepKeepsInvariant(Run(s, labels[..n]), labels[n]);
      StepKeepsRequests(Run(s, labels[..n]), labels[n]);
    }
  }

  /** In every reachable state each mandate has the terms of the request that created it. */
  lemma MandatesAreAsRequested(s: System, m: MandateId)
    requires Reachable(s) && m < |s.t.mandates|
    ensures |s.accepted| == |s.t.mandates|
    ensures HasTerms(s.t.mandates[m], s.accepted[m]) && s.accepted[m].amount > 0
  {
    hide Run, Invariant, HasTerms;
    var now, balances, aliases, labels :| s == Run(Start(now, balances, aliases), labels);
    StartHolds(now, balances, aliases);
    RunKeepsRequests(Start(now, balances, aliases), labels);
  }

  /** A client who has asked for an end date is never charged for a later run, nor for more runs than
      were estimated for his request. */
  lemma RunsStayWithinRequest(s: System, m: MandateId)
    requires Reachable(s) && m < |s.t.mandates| && m < |s.accepted| && s.accepted[m].end.Some?
    ensures var r := s.accepted[m];
            && RunsOf(s.t.executions, m, |s.t.executions|) <= EstimateTotalRuns(r.start, r.end, r.cycle)
            && forall e :: 0 <= e < |s.t.executions| && s.t.executions[e].mandate == m ==>
                 !Before(r.end.value, DateOf(s.t.executions[e].scheduledFor))
  {
    hide Reachable, EstimateTotalRuns, Before, DateOf;
    MandatesAreAsRequested(s, m);
    RunsStayWithinEstimate(s, m);
  }

  /** Every request ever sent to a bank asks for the payer and the amount that the client has agreed to. */
  lemma BanksAreAskedAsRequested(s: System, r: Request)
    requires Reachable(s) && r in s.requests
    ensures r.mandate < |s.accepted| && s.t.Knows(r.execution) && r.mandate == s.t.executions[r.execution].mandate
    ensures r.payer == Account(s.accepted[r.mandate].bank, s.accepted[r.mandate].user)
    ensures r.amount == s.accepted[r.mandate].amount && r.amount > 0
  {
    assert RequestOk(r, s.t) by {
      hide Reachable, RequestOk;
      ReachableIsOk(s);
    }
    hide Reachable;
    MandatesAreAsRequested(s, r.mandate);
  }
}
