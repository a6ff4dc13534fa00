/** How a step may change the system at all, and what that means for money and billing. */
module MoneyLife {
  import opened Common
  import opened Calendar
  import opened Schedule
  import opened Recurring
  import opened MockBank
  import opened RecurringSystem
  import opened MandateLife
  import opened RunLife
  import A = Aliases

  ghost predicate Invariant(s: System) {
    && MandatesOk(s.t.mandates, s.t.outbox, s.events, s.now)
    && RunsOk(s)
    && MoneyOk(s)
    && BillingOk(s)
  }

  // ---- What never changes back --------------------------------------------------------------

  ghost predicate ExecutionLater(x: Execution, x': Execution) {
    && x'.mandate == x.mandate && x'.scheduledFor == x.scheduledFor
    && (x.snapshot.Some? ==> x'.snapshot == x.snapshot)
    && (x.status in {SUCCESS, FAILED} ==> x' == x)
  }

  ghost predicate ExecutionsLater(xs: seq<Execution>, xs': seq<Execution>) {
    |xs| <= |xs'| && forall e :: 0 <= e < |xs| ==> ExecutionLater(xs[e], xs'[e])
  }

  /** `s'` is a possible future of `s`: mandates evolve, finished executions are final, and an
      answer of the bank stands for ever. */
  ghost predicate Later(s: System, s': System) {
    && s.now <= s'.now
    && AllEvolve(s.t.mandates, s'.t.mandates)
    && ExecutionsLater(s.t.executions, s'.t.executions)
    && (forall e :: e in s.bank.runs ==> e in s'.bank.runs && s'.bank.runs[e] == s.bank.runs[e])
  }

  lemma AllEvolveReflexive(ds: seq<Mandate>)
    ensures AllEvolve(ds, ds)
  {
  }

  lemma EndedIsLater(s: System, e: ExecutionId, attempt: nat, outcome: CallOutcome)
    requires RunsOk(s) && HasTask(s, e) && s.tasks[e] != Finished
    ensures Later(s, Ended(s, e, attempt, outcome))
  {
    hide AfterDate, IsSlot, AllEvolve;
    TaskIs(s, e);
    AllEvolveReflexive(s.t.mandates);
    match outcome
    case Answered(Executed(rtp, at)) => FinishingLetsMandatesEvolve(s.t, e, OTHER, rtp, at, s.now);
    case Answered(Rejected(why)) => FinishingLetsMandatesEvolve(s.t, e, Classify(why), "", None, s.now);
    case _ => FinishingLetsMandatesEvolve(s.t, e, NETWORK_TIMEOUT, "", None, s.now);
  }

  lemma LookupIsLater(s: System, e: ExecutionId)
    requires RunsOk(s) && HasTask(s, e) && s.tasks[e] == AwaitLookup
    ensures Later(s, LookedUp(s, e))
  {
    hide AfterDate, IsSlot, AllEvolve;
    TaskIs(s, e);
    AllEvolveReflexive(s.t.mandates);
    FinishingLetsMandatesEvolve(s.t, e, RECIPIENT_ALIAS_GONE, "", None, s.now);
  }

  lemma ClaimIsLater(s: System, m: MandateId)
    requires RunsOk(s) && MandatesOk(s.t.mandates, s.t.outbox, s.events, s.now)
    ensures Later(s, Claimed(s, m))
  {
    hide RunsOk, MandatesOk, AfterDate, AllEvolve, NextSlot;
    AllEvolveReflexive(s.t.mandates);
    ClaimKeepsRuns(s, m);
    RunsAre(s);
    NothingToSkip(s.t.executions, s.t.mandates, m);
  }

  /** Only mandates evolve, or only the bank answers something new. */
  lemma EvolvingIsLater(s: System, s': System)
    requires AllEvolve(s.t.mandates, s'.t.mandates) && s'.t.executions == s.t.executions && s.now <= s'.now
    requires forall e :: e in s.bank.runs ==> e in s'.bank.runs && s'.bank.runs[e] == s.bank.runs[e]
    ensures Later(s, s')
  {
    hide AllEvolve;
  }

  lemma ClientStepIsLater(s: System, l: Label)
    requires RunsOk(s) && MandatesOk(s.t.mandates, s.t.outbox, s.events, s.now)
    requires OfClient(l)
    ensures Later(s, Step(s, l))
  {
    hide RunsOk, MandatesOk, Later, Create, Pause, Resume, Cancel, AllEvolve;
    AllEvolveReflexive(s.t.mandates);
    match l {
      case CreateMandate(r) =>
        if Create(s.t, r, DateOf(s.now), r.phone in s.registry.aliases).Ok? {
          CreatingKeepsRuns(s, r, DateOf(s.now), r.phone in s.registry.aliases);
          CreatingKeepsExecutions(s.t, r, DateOf(s.now), r.phone in s.registry.aliases);
        }
      case PauseMandate(m, asker) => ClientsLetMandatesEvolve(s.t, m, asker, s.events, s.now);
      case ResumeMandate(m, asker) => ClientsLetMandatesEvolve(s.t, m, asker, s.events, s.now);
      case CancelMandate(m, asker) => ClientsLetMandatesEvolve(s.t, m, asker, s.events, s.now);
    }
    EvolvingIsLater(s, Step(s, l));
  }

  lemma TaskStepIsLater(s: System, l: Label)
    requires RunsOk(s) && MandatesOk(s.t.mandates, s.t.outbox, s.events, s.now)
    requires OfTask(l)
    ensures Later(s, Step(s, l))
  {
    hide RunsOk, MandatesOk, Later, LookedUp, Ended, Claimed, AllEvolve;
    LaterIsReflexive(s);
    AllEvolveReflexive(s.t.mandates);
    match l {
      case SendRequest(e) => EvolvingIsLater(s, Step(s, l));
      case ClaimRun(m) => ClaimIsLater(s, m);
      case LookupRecipient(e) =>
        if HasTask(s, e) && s.tasks[e] == AwaitLookup { LookupIsLater(s, e); }
      case FindNoWebhook(e) =>
        if HasTask(s, e) && s.tasks[e].Ready? { EndedIsLater(s, e, s.tasks[e].attempt, NoWebhook); }
      case LoseAnswer(e) =>
        if HasTask(s, e) && s.tasks[e].Waiting? { EndedIsLater(s, e, s.tasks[e].attempt, NoAnswer); }
      case ReceiveAnswer(a) =>
        if HasTask(s, a.execution) && s.tasks[a.execution].Waiting? {
          EndedIsLater(s, a.execution, s.tasks[a.execution].attempt, Answered(a.response));
        }
    }
  }

  lemma StepIsLater(s: System, l: Label)
    requires RunsOk(s) && MandatesOk(s.t.mandates, s.t.outbox, s.events, s.now)
    ensures Later(s, Step(s, l))
  {
    hide RunsOk, MandatesOk, Later, AllEvolve, Ended, LookedUp, Claimed, Create, Pause, Resume, Cancel;
    if OfClient(l) {
      ClientStepIsLater(s, l);
    } else if OfTask(l) {
      TaskStepIsLater(s, l);
    } else {
      AllEvolveReflexive(s.t.mandates);
      EvolvingIsLater(s, Step(s, l));
    }
  }

  lemma CreatingKeepsExecutions(t: Tables, r: CreateRequest, today: Date, known: bool)
    requires Create(t, r, today, known).Ok?
    ensures Create(t, r, today, known).value.0.executions == t.executions
  {
    hide DatesOk, FirstRunAt;
  }

  lemma LaterIsTransitive(a: System, b: System, c: System)
    requires Later(a, b) && Later(b, c)
    ensures Later(a, c)
  {
    forall m | 0 <= m < |a.t.mandates| ensures Evolves(a.t.mandates[m], c.t.mandates[m]) {
      assert Evolves(a.t.mandates[m], b.t.mandates[m]) && Evolves(b.t.mandates[m], c.t.mandates[m]);
    }
    forall e | 0 <= e < |a.t.executions| ensures ExecutionLater(a.t.executions[e], c.t.executions[e]) {
      assert ExecutionLater(a.t.executions[e], b.t.executions[e]);
      assert ExecutionLater(b.t.executions[e], c.t.executions[e]);
    }
  }

  // ---- Money -------------------------------------------------------------------------------

  function Payer(t: Tables, e: ExecutionId): Account
    requires t.Knows(e)
  {
    Account(t.MandateOf(e).bank, t.MandateOf(e).user)
  }

  predicate IsExecuted(runs: map<ExecutionId, BankResponse>, e: ExecutionId) { e in runs && runs[e].Executed? }

  function Debit(t: Tables, runs: map<ExecutionId, BankResponse>, a: Account, e: ExecutionId): int {
    if t.Knows(e) && IsExecuted(runs, e) && Payer(t, e) == a then t.MandateOf(e).amount else 0
  }

  /** What the first `n` executions have cost an account: the amount once for each one executed. */
  function Debits(t: Tables, runs: map<ExecutionId, BankResponse>, a: Account, n: nat): int {
    if n == 0 then 0 else Debits(t, runs, a, n - 1) + Debit(t, runs, a, n - 1)
  }

  ghost predicate MoneyOk(s: System) {
    && s.external.Keys == s.bank.balances.Keys
    && forall a :: a in s.bank.balances ==>
         s.bank.balances[a] == s.external[a] - Debits(s.t, s.bank.runs, a, |s.t.executions|)
  }

  lemma {:induction false} DebitsFrame(t: Tables, runs: map<ExecutionId, BankResponse>, t': Tables,
                                       runs': map<ExecutionId, BankResponse>, a: Account, n: nat)
    requires forall e :: 0 <= e < n ==> Debit(t', runs', a, e) == Debit(t, runs, a, e)
    ensures Debits(t', runs', a, n) == Debits(t, runs, a, n)
  {
    if n > 0 { DebitsFrame(t, runs, t', runs', a, n - 1); }
  }

  lemma {:induction false} NewExecutionsCostNothing(t: Tables, runs: map<ExecutionId, BankResponse>, a: Account,
                                                    n: nat, n': nat)
    requires n <= n' && forall e :: e in runs ==> e < n
    ensures Debits(t, runs, a, n') == Debits(t, runs, a, n)
  {
    if n < n' { NewExecutionsCostNothing(t, runs, a, n, n' - 1); }
  }

  /** As long as no bank acts, no account is charged. */
  lemma TablesKeepMoney(s: System, s': System)
    requires MoneyOk(s) && RunsOk(s) && Later(s, s')
    requires s'.bank.runs == s.bank.runs && s'.bank.balances == s.bank.balances && s'.external == s.external
    ensures MoneyOk(s')
  {
    hide ExecutionsOk, TaskOk, MessagesOk, ExecutionOk;
    var runs, n := s.bank.runs, |s.t.executions|;
    forall a | a in s.bank.balances
      ensures s'.bank.balances[a] == s'.external[a] - Debits(s'.t, runs, a, |s'.t.executions|)
    {
      forall e | 0 <= e < n ensures Debit(s'.t, runs, a, e) == Debit(s.t, runs, a, e) {
        LinksStay(s, s', e);
      }
      DebitsFrame(s.t, runs, s'.t, runs, a, n);
      NewExecutionsCostNothing(s'.t, runs, a, n, |s'.t.executions|);
    }
  }

  lemma LinksStay(s: System, s': System, e: ExecutionId)
    requires RunsOk(s) && Later(s, s') && e < |s.t.executions|
    ensures s.t.Knows(e) && s'.t.Knows(e) && s'.t.executions[e].mandate == s.t.executions[e].mandate
    ensures Evolves(s.t.MandateOf(e), s'.t.MandateOf(e))
  {
    hide IsSlot, AfterDate;
    TaskIs(s, e);
    assert ExecutionLater(s.t.executions[e], s'.t.executions[e]);
  }

  /** A new answer charges the payer of that execution, once, if it is EXECUTED. */
  lemma {:induction false} NewAnswerCosts(t: Tables, runs: map<ExecutionId, BankResponse>, e: ExecutionId,
                                          response: BankResponse, a: Account, n: nat)
    requires t.Knows(e) && e !in runs
    ensures Debits(t, runs[e := response], a, n) ==
            Debits(t, runs, a, n) +
            (if e < n && response.Executed? && Payer(t, e) == a then t.MandateOf(e).amount else 0)
  {
    if n > 0 { NewAnswerCosts(t, runs, e, response, a, n - 1); }
  }

  lemma ChargedIsPayer(s: System, r: Request)
    requires RunsOk(s) && r in s.requests
    ensures s.t.Knows(r.execution) && Charged(s.bank, r) == r.payer == Payer(s.t, r.execution)
    ensures r.amount == s.t.MandateOf(r.execution).amount && r.execution < |s.t.executions|
  {
    hide ExecutionsOk, TasksOk;
    assert RequestOk(r, s.t);
  }

  lemma AnsweringKeepsMoney(s: System, r: Request, response: BankResponse)
    requires MoneyOk(s) && RunsOk(s) && r in s.requests && r.execution !in s.bank.runs
    requires response.Executed? ==> Charged(s.bank, r) in s.bank.balances
    ensures MoneyOk(BankAnswered(s, r, (Apply(s.bank, r, response), response)))
  {
    hide RunsOk;
    ChargedIsPayer(s, r);
    forall a | a in s.bank.balances
      ensures Debits(s.t, s.bank.runs[r.execution := response], a, |s.t.executions|) ==
              Debits(s.t, s.bank.runs, a, |s.t.executions|) +
              (if response.Executed? && r.payer == a then r.amount else 0)
    {
      NewAnswerCosts(s.t, s.bank.runs, r.execution, response, a, |s.t.executions|);
    }
  }

  lemma StepKeepsMoney(s: System, l: Label)
    requires Invariant(s)
    ensures MoneyOk(Step(s, l))
  {
    hide Invariant, RunsOk, MandatesOk, MoneyOk, Later, Conclude, Create, Pause, Resume, Cancel, Claim;
    hide LookedUp, Sent, Ended, Debits;
    InvariantIs(s);
    StepIsLater(s, l);
    match l
    case BankExecutes(r, rtp) =>
      if r in s.requests {
        if r.execution in s.bank.runs { TablesKeepMoney(s, Step(s, l)); }
        else { AnsweringKeepsMoney(s, r, Decide(s.bank, r, rtp, s.now)); }
      }
    case BankDeclines(r, why) =>
      if r in s.requests {
        if r.execution in s.bank.runs { TablesKeepMoney(s, Step(s, l)); }
        else { AnsweringKeepsMoney(s, r, Rejected(why)); }
      }
    case BankMovesMoney(a, delta) => MovingKeepsMoney(s, a, delta);
    case _ =>
      BanksAct(s, l);
      TablesKeepMoney(s, Step(s, l));
  }

  lemma InvariantIs(s: System)
    requires Invariant(s)
    ensures RunsOk(s) && MandatesOk(s.t.mandates, s.t.outbox, s.events, s.now) && MoneyOk(s) && BillingOk(s)
  {
  }

  lemma MovingKeepsMoney(s: System, a: Account, delta: int)
    requires MoneyOk(s)
    ensures MoneyOk(Step(s, BankMovesMoney(a, delta)))
  {
  }

  ghost predicate SparesBank(s: System, s': System) {
    && s'.bank.runs == s.bank.runs && s'.bank.balances == s.bank.balances && s'.external == s.external
  }

  lemma BanksAct(s: System, l: Label)
    requires !l.BankExecutes? && !l.BankDeclines? && !l.BankMovesMoney?
    ensures SparesBank(s, Step(s, l))
  {
    hide Step;
    if OfClient(l) { ClientsLeave(s, l); }
    else if OfTask(l) { TasksLeave(s, l); }
    else if OfBank(l) { BanksLeave(s, l); }
    else { OthersLeave(s, l); }
  }

  // ---- Billing -----------------------------------------------------------------------------

  function LookupsBy(ls: seq<PaidLookup>, b: BankId): nat {
    if ls == [] then 0
    else LookupsBy(ls[..|ls| - 1], b) + (if ls[|ls| - 1].bank == b then 1 else 0)
  }

  function LookupsOn(ls: seq<PaidLookup>, b: BankId, day: int): nat {
    if ls == [] then 0
    else LookupsOn(ls[..|ls| - 1], b, day) + (if ls[|ls| - 1].bank == b && ls[|ls| - 1].day == day then 1 else 0)
  }

  /** The lookups paid by bank `b` for runs of standing orders. */
  function RunLookups(ls: seq<PaidLookup>, b: BankId): nat {
    if ls == [] then 0
    else RunLookups(ls[..|ls| - 1], b) + (if ls[|ls| - 1].bank == b && ls[|ls| - 1].run.Some? then 1 else 0)
  }

  predicate HasSnapshot(t: Tables, b: BankId, e: ExecutionId) {
    t.Knows(e) && t.executions[e].snapshot.Some? && t.MandateOf(e).bank == b
  }

  /** Of the first `n` executions, those of bank `b` that hold a recipient snapshot. */
  function Snapshots(t: Tables, b: BankId, n: nat): nat {
    if n == 0 then 0 else Snapshots(t, b, n - 1) + (if HasSnapshot(t, b, n - 1) then 1 else 0)
  }

  ghost predicate BillingOk(s: System) {
    && (forall b :: A.Count(s.registry.total, b) == LookupsBy(s.lookups, b))
    && (forall b, day :: A.Count(s.registry.daily, (b, day)) == LookupsOn(s.lookups, b, day))
    && (forall b :: RunLookups(s.lookups, b) == Snapshots(s.t, b, |s.t.executions|))
  }

  lemma LookupsAppend(ls: seq<PaidLookup>, p: PaidLookup, b: BankId, day: int)
    ensures LookupsBy(ls + [p], b) == LookupsBy(ls, b) + (if p.bank == b then 1 else 0)
    ensures LookupsOn(ls + [p], b, day) == LookupsOn(ls, b, day) + (if p.bank == b && p.day == day then 1 else 0)
    ensures RunLookups(ls + [p], b) == RunLookups(ls, b) + (if p.bank == b && p.run.Some? then 1 else 0)
  {
    assert (ls + [p])[..|ls|] == ls;
  }

  lemma {:induction false} SnapshotsFrame(t: Tables, t': Tables, b: BankId, n: nat)
    requires forall e :: 0 <= e < n ==> (HasSnapshot(t', b, e) <==> HasSnapshot(t, b, e))
    ensures Snapshots(t', b, n) == Snapshots(t, b, n)
  {
    if n > 0 { SnapshotsFrame(t, t', b, n - 1); }
  }

  lemma {:induction false} NewExecutionsHaveNone(t: Tables, b: BankId, n: nat, n': nat)
    requires n <= n' && forall e :: n <= e < n' ==> !HasSnapshot(t, b, e)
    ensures Snapshots(t, b, n') == Snapshots(t, b, n)
  {
    if n < n' { NewExecutionsHaveNone(t, b, n, n' - 1); }
  }

  lemma {:induction false} OneMoreSnapshot(t: Tables, t': Tables, b: BankId, e: ExecutionId, n: nat)
    requires forall f :: 0 <= f < n && f != e ==> (HasSnapshot(t', b, f) <==> HasSnapshot(t, b, f))
    requires e < n && !HasSnapshot(t, b, e)
    ensures Snapshots(t', b, n) == Snapshots(t, b, n) + (if HasSnapshot(t', b, e) then 1 else 0)
  {
    if e < n - 1 { OneMoreSnapshot(t, t', b, e, n - 1); } else { SnapshotsFrame(t, t', b, n - 1); }
  }

  /** Steps other than a lookup leave every snapshot as it is, and create executions without one. */
  ghost predicate SameSnapshots(xs: seq<Execution>, xs': seq<Execution>) {
    && |xs| <= |xs'|
    && (forall e :: 0 <= e < |xs| ==> xs'[e].snapshot == xs[e].snapshot)
    && (forall e :: |xs| <= e < |xs'| ==> xs'[e].snapshot.None?)
  }

  lemma TablesKeepBilling(s: System, s': System)
    requires BillingOk(s) && RunsOk(s) && Later(s, s') && SameSnapshots(s.t.executions, s'.t.executions)
    requires s'.registry.total == s.registry.total && s'.registry.daily == s.registry.daily && s'.lookups == s.lookups
    ensures BillingOk(s')
  {
    hide RunsOk, Later;
    var n := |s.t.executions|;
    forall b ensures RunLookups(s'.lookups, b) == Snapshots(s'.t, b, |s'.t.executions|) {
      forall e | 0 <= e < n ensures HasSnapshot(s'.t, b, e) <==> HasSnapshot(s.t, b, e) {
        LinksStay(s, s', e);
      }
      SnapshotsFrame(s.t, s'.t, b, n);
      NewExecutionsHaveNone(s'.t, b, n, |s'.t.executions|);
    }
  }

  /** One more paid lookup, counted on both counters. */
  lemma CountersKeepUp(s: System, bank: BankId, phone: Phone, run: Option<ExecutionId>)
    requires BillingOk(s) && phone in s.registry.aliases
    ensures var r, ls := A.Lookup(s.registry, bank, phone, Today(s)).0, s.lookups + [PaidLookup(bank, Today(s), run)];
            && (forall b :: A.Count(r.total, b) == LookupsBy(ls, b))
            && (forall b, day :: A.Count(r.daily, (b, day)) == LookupsOn(ls, b, day))
            && (forall b :: RunLookups(ls, b) == RunLookups(s.lookups, b) + if b == bank && run.Some? then 1 else 0)
  {
    hide Today, Snapshots;
    var p := PaidLookup(bank, Today(s), run);
    var r, ls := A.Lookup(s.registry, bank, phone, Today(s)).0, s.lookups + [p];
    forall b ensures A.Count(r.total, b) == LookupsBy(ls, b) { LookupsAppend(s.lookups, p, b, 0); }
    forall b, day ensures A.Count(r.daily, (b, day)) == LookupsOn(ls, b, day) { LookupsAppend(s.lookups, p, b, day); }
    forall b ensures RunLookups(ls, b) == RunLookups(s.lookups, b) + if b == bank && run.Some? then 1 else 0 {
      LookupsAppend(s.lookups, p, b, 0);
    }
  }

  lemma LookupKeepsBilling(s: System, e: ExecutionId)
    requires BillingOk(s) && RunsOk(s) && HasTask(s, e) && s.tasks[e] == AwaitLookup
    ensures BillingOk(LookedUp(s, e))
  {
    hide RunsOk, Today, LookupsBy, LookupsOn, RunLookups, A.Count, IsSlot, AfterDate;
    TaskIs(s, e);
    var s', d := LookedUp(s, e), s.t.MandateOf(e);
    if d.phone !in s.registry.aliases {
      LookupIsLater(s, e);
      TablesKeepBilling(s, s');
    } else {
      CountersKeepUp(s, d.bank, d.phone, Some(e));
      forall b ensures Snapshots(s'.t, b, |s'.t.executions|) ==
                       Snapshots(s.t, b, |s.t.executions|) + if b == d.bank then 1 else 0
      {
        OneMoreSnapshot(s.t, s'.t, b, e, |s.t.executions|);
      }
    }
  }

  lemma AdHocKeepsBilling(s: System, asker: BankId, phone: Phone)
    requires BillingOk(s)
    ensures BillingOk(Step(s, AdHocLookup(asker, phone)))
  {
    hide Today, Snapshots, LookupsBy, LookupsOn, RunLookups, A.Count;
    if phone in s.registry.aliases { CountersKeepUp(s, asker, phone, None); }
  }

  lemma StepKeepsBilling(s: System, l: Label)
    requires Invariant(s)
    ensures BillingOk(Step(s, l))
  {
    hide Invariant, RunsOk, MandatesOk, MoneyOk, BillingOk, Later, LookedUp;
    InvariantIs(s);
    StepIsLater(s, l);
    match l
    case LookupRecipient(e) =>
      if HasTask(s, e) && s.tasks[e] == AwaitLookup { LookupKeepsBilling(s, e); }
    case AdHocLookup(asker, phone) => AdHocKeepsBilling(s, asker, phone);
    case _ =>
      OnlyLookupsBill(s, l);
      TablesKeepBilling(s, Step(s, l));
  }

  ghost predicate Unbilled(s: System, s': System) {
    && SameSnapshots(s.t.executions, s'.t.executions)
    && s'.registry.total == s.registry.total && s'.registry.daily == s.registry.daily && s'.lookups == s.lookups
  }

  lemma TasksAreUnbilled(s: System, e: ExecutionId, m: MandateId, attempt: nat, outcome: CallOutcome)
    ensures HasTask(s, e) ==> Unbilled(s, Ended(s, e, attempt, outcome))
    ensures HasTask(s, e) && s.tasks[e].Ready? ==> Unbilled(s, Sent(s, e))
    ensures Unbilled(s, Claimed(s, m))
  {
    hide AfterDate, NextSlot;
  }

  lemma ClientsAreUnbilled(t: Tables, m: MandateId, asker: BankId, now: Instant)
    ensures Pause(t, m, asker, now).Ok? ==> Pause(t, m, asker, now).value.executions == t.executions
    ensures Resume(t, m, asker, now).Ok? ==> Resume(t, m, asker, now).value.executions == t.executions
    ensures Cancel(t, m, asker, now).Ok? ==> Cancel(t, m, asker, now).value.executions == t.executions
  {
    hide NextSlot;
  }

  lemma UnbilledSame(s: System, s': System)
    requires s'.t.executions == s.t.executions && s'.lookups == s.lookups
    requires s'.registry.total == s.registry.total && s'.registry.daily == s.registry.daily
    ensures Unbilled(s, s')
  {
  }

  lemma TaskStepsAreUnbilled(s: System, l: Label)
    requires OfTask(l) && !l.LookupRecipient?
    ensures Unbilled(s, Step(s, l))
  {
    hide Unbilled, Ended, Sent, Claimed;
    UnbilledSame(s, s);
    match l
    case ClaimRun(m) => TasksAreUnbilled(s, 0, m, 0, NoAnswer);
    case SendRequest(e) => TasksAreUnbilled(s, e, 0, 0, NoAnswer);
    case FindNoWebhook(e) =>
      if HasTask(s, e) && s.tasks[e].Ready? { TasksAreUnbilled(s, e, 0, s.tasks[e].attempt, NoWebhook); }
    case LoseAnswer(e) =>
      if HasTask(s, e) && s.tasks[e].Waiting? { TasksAreUnbilled(s, e, 0, s.tasks[e].attempt, NoAnswer); }
    case ReceiveAnswer(a) =>
      if HasTask(s, a.execution) && s.tasks[a.execution].Waiting? {
        TasksAreUnbilled(s, a.execution, 0, s.tasks[a.execution].attempt, Answered(a.response));
      }
  }

  lemma ClientStepsAreUnbilled(s: System, l: Label)
    requires OfClient(l)
    ensures Step(s, l).t.executions == s.t.executions
  {
    hide Create, Pause, Resume, Cancel;
    match l
    case CreateMandate(r) =>
      if Create(s.t, r, DateOf(s.now), r.phone in s.registry.aliases).Ok? {
        CreatingKeepsExecutions(s.t, r, DateOf(s.now), r.phone in s.registry.aliases);
      }
    case PauseMandate(m, asker) => ClientsAreUnbilled(s.t, m, asker, s.now);
    case ResumeMandate(m, asker) => ClientsAreUnbilled(s.t, m, asker, s.now);
    case CancelMandate(m, asker) => ClientsAreUnbilled(s.t, m, asker, s.now);
  }

  lemma OnlyLookupsBill(s: System, l: Label)
    requires !l.LookupRecipient? && !l.AdHocLookup?
    ensures Unbilled(s, Step(s, l))
  {
    hide Step, Unbilled;
    if OfTask(l) {
      TaskStepsAreUnbilled(s, l);
    } else {
      if OfClient(l) {
        ClientsLeave(s, l);
        ClientStepsAreUnbilled(s, l);
      } else if OfBank(l) {
        BanksLeave(s, l);
      } else {
        OthersLeave(s, l);
      }
      UnbilledSame(s, Step(s, l));
    }
  }

  // ---- Together ----------------------------------------------------------------------------

  lemma StepKeepsInvariant(s: System, l: Label)
    requires Invariant(s)
    ensures Invariant(Step(s, l)) && Later(s, Step(s, l))
  {
    hide RunsOk, MandatesOk, MoneyOk, BillingOk, Later, Step;
    StepKeepsMandates(s, l);
    StepKeepsRuns(s, l);
    StepKeepsMoney(s, l);
    StepKeepsBilling(s, l);
    StepIsLater(s, l);
  }

  lemma StartHolds(now: Instant, balances: map<Account, int>, aliases: map<Phone, A.Alias>)
    ensures Invariant(Start(now, balances, aliases))
  {
  }

  /** Every state of every run keeps the invariant, and lies in the future of the states before. */
  lemma {:induction false} RunKeepsInvariant(s: System, labels: seq<Label>)
    requires Invariant(s)
    ensures Invariant(Run(s, labels)) && Later(s, Run(s, labels))
  {
    hide Invariant, Later, Step;
    if labels == [] {
      LaterIsReflexive(s);
    } else {
      var m := Run(s, labels[..|labels| - 1]);
      RunKeepsInvariant(s, labels[..|labels| - 1]);
      StepKeepsInvariant(m, labels[|labels| - 1]);
      LaterIsTransitive(s, m, Run(s, labels));
    }
  }

  lemma LaterIsReflexive(s: System)
    ensures Later(s, s)
  {
  }
}
