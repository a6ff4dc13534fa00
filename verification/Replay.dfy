/** How long the request that created a mandate can be repeated. */
module Replay {
  import opened Common
  import opened Calendar
  import opened Schedule
  import opened Recurring
  import opened MockBank
  import opened RecurringSystem
  import opened MandateLife
  import opened RunLife
  import opened MoneyLife
  import opened Guarantees

  /** What remains of the check of the dates once the mandate exists: all of it but that the start has
      not passed. */
  predicate TermsOk(d: Mandate, today: Date) {
    && !Before(AddMonths(today, 12 * MAX_START_AHEAD_YEARS), d.start)
    && (d.end.Some? ==>
          Before(d.start, d.end.value) && !Before(AddMonths(d.start, 12 * MAX_MANDATE_SPAN_YEARS), d.end.value))
  }

  ghost predicate AllTermsOk(s: System) {
    forall m :: 0 <= m < |s.t.mandates| ==> TermsOk(s.t.mandates[m], DateOf(s.now))
  }

  lemma MonthsKeepOrder(a: Date, b: Date, n: nat)
    requires !Before(b, a)
    ensures !Before(AddMonths(b, n), AddMonths(a, n))
  {
  }

  lemma DatesFollowTheClock(t: Instant, u: Instant)
    requires t <= u
    ensures !Before(DateOf(u), DateOf(t))
  {
    hide Before, Ordinal, DateOf;
    OrdinalsOrderDates(DateOf(u), DateOf(t));
  }

  /** The clock only brings the start nearer. */
  lemma TermsStayOk(d: Mandate, d': Mandate, now: Instant, later: Instant)
    requires TermsOk(d, DateOf(now)) && Evolves(d, d') && now <= later
    ensures TermsOk(d', DateOf(later))
  {
    hide DateOf, AddMonths;
    DatesFollowTheClock(now, later);
    MonthsKeepOrder(DateOf(now), DateOf(later), 12 * MAX_START_AHEAD_YEARS);
    NotBeforeIsTransitive(AddMonths(DateOf(later), 12), AddMonths(DateOf(now), 12), d.start);
  }

  lemma NotBeforeIsTransitive(a: Date, b: Date, c: Date)
    requires !Before(a, b) && !Before(b, c)
    ensures !Before(a, c)
  {
  }

  lemma CreatedTermsAreOk(t: Tables, r: CreateRequest, today: Date, known: bool)
    requires Create(t, r, today, known).Ok?
    ensures var t' := Create(t, r, today, known).value.0;
            forall m :: |t.mandates| <= m < |t'.mandates| ==> TermsOk(t'.mandates[m], today)
  {
    hide Before, AddMonths;
  }

  lemma OnlyCreatingAdds(s: System, l: Label)
    requires !l.CreateMandate?
    ensures |Step(s, l).t.mandates| == |s.t.mandates|
  {
    hide NextSlot, AfterDate, BankStep, OtherStep, DateOf;
    if OfBank(l) { BanksLeave(s, l); }
    else if !OfClient(l) && !OfTask(l) { OthersLeave(s, l); }
  }

  lemma StepKeepsTerms(s: System, l: Label)
    requires AllTermsOk(s) && Later(s, Step(s, l))
    ensures AllTermsOk(Step(s, l))
  {
    hide Step, TermsOk, DateOf, Evolves, ExecutionsLater, Create;
    var s' := Step(s, l);
    forall m | 0 <= m < |s'.t.mandates| ensures TermsOk(s'.t.mandates[m], DateOf(s'.now)) {
      if m < |s.t.mandates| {
        TermsStayOk(s.t.mandates[m], s'.t.mandates[m], s.now, s'.now);
      } else if l.CreateMandate? {
        StepCreates(s, l.terms);
      } else {
        OnlyCreatingAdds(s, l);
        assert false;
      }
    }
  }

  lemma StepCreates(s: System, r: CreateRequest)
    ensures var s' := Step(s, CreateMandate(r));
            && s'.now == s.now
            && forall m :: |s.t.mandates| <= m < |s'.t.mandates| ==> TermsOk(s'.t.mandates[m], DateOf(s.now))
  {
    hide Create, DateOf, TermsOk;
    if Create(s.t, r, DateOf(s.now), r.phone in s.registry.aliases).Ok? {
      CreatedTermsAreOk(s.t, r, DateOf(s.now), r.phone in s.registry.aliases);
    }
  }

  lemma {:induction false} RunKeepsTerms(s: System, labels: seq<Label>)
    requires AllTermsOk(s) && Invariant(s)
    ensures AllTermsOk(Run(s, labels))
  {
    hide AllTermsOk, Invariant, Step, Later;
    if labels != [] {
      var n := |labels| - 1;
      RunKeepsTerms(s, labels[..n]);
      RunKeepsInvariant(s, labels[..n]);
      StepKeepsInvariant(Run(s, labels[..n]), labels[n]);
      StepKeepsTerms(Run(s, labels[..n]), labels[n]);
    }
  }

  /** The request that created a mandate returns it again until its start date has passed; from then
      on, it is refused for its dates. */
  lemma ReplayEndsWithTheStart(s: System, m: MandateId, r: CreateRequest, known: bool)
    requires Reachable(s) && m < |s.t.mandates|
    requires var d := s.t.mandates[m];
             r == CreateRequest(d.bank, d.user, d.phone, d.amount, d.cycle, d.start, d.end, d.key)
    ensures Create(s.t, r, DateOf(s.now), known) ==
            if Before(s.t.mandates[m].start, DateOf(s.now)) then Err(InvalidDateRange) else Ok((s.t, m))
  {
    assert TermsOk(s.t.mandates[m], DateOf(s.now)) by {
      hide Run, Invariant, TermsOk, DateOf;
      var now, balances, aliases, labels :| s == Run(Start(now, balances, aliases), labels);
      StartHolds(now, balances, aliases);
      RunKeepsTerms(Start(now, balances, aliases), labels);
    }
    hide Reachable, Invariant, RunsOk, MoneyOk, BillingOk, Anchored, Create, DateOf, Before, AddMonths;
    ReachableIsOk(s);
    OneOfMany(s.t.mandates, s.t.outbox, s.events, s.now, m);
    ReplayReturnsTheMandate(s, m, r, DateOf(s.now), known);
  }

  /** For example a day after the first run, with the very same request. */
  lemma ReplayIsRefusedNextDay(d: Date) returns (s: System)
    ensures Reachable(s) && s.t.mandates == [NewMandate(FirstTerms(d))]
    ensures Create(s.t, FirstTerms(d), DateOf(s.now), true) == Err(InvalidDateRange)
  {
    hide Reachable, Step, DateOf, Before, FirstRunAt, Ordinal;
    var s0 := FirstMandate(d);
    ReachableStep(s0, Tick(DAY));
    s := Step(s0, Tick(DAY));
    Ticked(s0, DAY);
    OrdinalsOrderDates(d, DateOf(s.now));
    NextDayComes(d);
    ReplayEndsWithTheStart(s, 0, FirstTerms(d), true);
  }

  lemma Ticked(s: System, elapsed: nat)
    ensures Step(s, Tick(elapsed)) == s.(now := s.now + elapsed)
  {
  }

  lemma NextDayComes(d: Date)
    ensures DayNumber(FirstRunAt(d) + DAY) == Ordinal(d) + 1
  {
    hide Ordinal;
  }
}
