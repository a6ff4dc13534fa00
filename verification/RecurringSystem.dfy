/** KLIK, the paying banks and the network between them, as steps that may interleave in any
    order.  A request or an answer, once sent, may be delivered any number of times, at any later
    moment, or never; a queued task may be taken up any number of times. */
module RecurringSystem {
  import opened Common
  import opened Calendar
  import opened Recurring
  import opened MockBank
  import A = Aliases

  /** Where the task of an execution stands. */
  datatype Task = AwaitLookup | Ready(attempt: nat) | Waiting(attempt: nat) | Finished

  datatype Answer = Answer(execution: ExecutionId, response: BankResponse)

  /** History: what happened to the runs of a mandate, when it was resumed (and the run that was next
      until then), and who caused a paid lookup. */
  datatype Event =
    | Succeeded(mandate: MandateId)
    | Failed(mandate: MandateId)
    | Resumed(mandate: MandateId, next: Instant, at: Instant)
  datatype PaidLookup = PaidLookup(bank: BankId, day: int, run: Option<ExecutionId>)

  datatype System = System(
    now: Instant, t: Tables, registry: A.Registry, bank: Bank,
    queue: set<MandateId>, tasks: seq<Task>, requests: set<Request>, answers: set<Answer>,
    signed: multiset<MandateId>, // resumptions that the bank has yet to take note of
    external: map<Account, int>, // history: opening balance and all other movements of an account
    events: seq<Event>, lookups: seq<PaidLookup>,
    accepted: seq<CreateRequest>) // history: the requests that created the mandates

  datatype Label =
    | Tick(elapsed: nat)
    | CreateMandate(terms: CreateRequest)
    | PauseMandate(m: MandateId, asker: BankId)
    | ResumeMandate(m: MandateId, asker: BankId)
    | CancelMandate(m: MandateId, asker: BankId)
    | Dispatch(ids: seq<MandateId>)
    | ClaimRun(m: MandateId)
    | LookupRecipient(e: ExecutionId)
    | SendRequest(e: ExecutionId)
    | FindNoWebhook(e: ExecutionId)
    | LoseAnswer(e: ExecutionId)
    | ReceiveAnswer(answer: Answer)
    | BankExecutes(r: Request, rtpReference: string)
    | BankDeclines(r: Request, why: RejectReason)
    | BankStoresMandate(m: MandateId)
    | BankRevokes(m: MandateId)
    | BankLiftsRevocation(m: MandateId)
    | BankMovesMoney(a: Account, delta: int)
    | RegisterAlias(asker: BankId, phone: Phone, account: string)
    | UnregisterAlias(asker: BankId, phone: Phone)
    | AdHocLookup(asker: BankId, phone: Phone)

  predicate OfClient(l: Label) { l.CreateMandate? || l.PauseMandate? || l.ResumeMandate? || l.CancelMandate? }

  predicate OfTask(l: Label) {
    l.ClaimRun? || l.LookupRecipient? || l.SendRequest? || l.FindNoWebhook? || l.LoseAnswer? || l.ReceiveAnswer?
  }

  predicate OfBank(l: Label) {
    || l.BankExecutes? || l.BankDeclines? || l.BankStoresMandate? || l.BankRevokes? || l.BankLiftsRevocation?
    || l.BankMovesMoney?
  }

  // ---- Steps -------------------------------------------------------------------------------

  function Today(s: System): int { DayNumber(s.now) }

  predicate HasTask(s: System, e: ExecutionId) { s.t.Knows(e) && e < |s.tasks| }

  function RequestFor(t: Tables, e: ExecutionId): Request
    requires t.Knows(e) && t.executions[e].snapshot.Some?
  {
    var d := t.MandateOf(e);
    Request(e, t.executions[e].mandate, Account(d.bank, d.user), d.amount, t.executions[e].snapshot.value)
  }

  /** The call of attempt `attempt` has ended with `outcome`. */
  function Ended(s: System, e: ExecutionId, attempt: nat, outcome: CallOutcome): System
    requires HasTask(s, e)
  {
    var (t, again) := Conclude(s.t, e, attempt, outcome, s.now);
    var m := s.t.executions[e].mandate;
    s.(t := t,
       tasks := s.tasks[e := if again.Some? then Ready(again.value) else Finished],
       events := s.events + (if again.Some? then []
                             else if outcome.Answered? && outcome.response.Executed? then [Succeeded(m)]
                             else [Failed(m)]))
  }

  function LookedUp(s: System, e: ExecutionId): System
    requires HasTask(s, e)
  {
    var d := s.t.MandateOf(e);
    var (registry, alias) := A.Lookup(s.registry, d.bank, d.phone, Today(s));
    match alias
    case None =>
      s.(t := FinalizeFailure(s.t, e, RECIPIENT_ALIAS_GONE, s.now), tasks := s.tasks[e := Finished],
        events := s.events + [Failed(s.t.executions[e].mandate)])
    case Some(found) =>
      s.(t := SaveSnapshot(s.t, e, Recipient(d.phone, found.bank, found.account)), tasks := s.tasks[e := Ready(0)],
        registry := registry, lookups := s.lookups + [PaidLookup(d.bank, Today(s), Some(e))])
  }

  function Claimed(s: System, m: MandateId): System {
    var (t, e) := Claim(s.t, m, s.now);
    s.(t := t, tasks := if e.Some? then s.tasks + [AwaitLookup] else s.tasks)
  }

  /** A run starts its call; a retry first checks that the execution is still open. */
  function Sent(s: System, e: ExecutionId): System
    requires HasTask(s, e) && s.tasks[e].Ready?
  {
    if s.tasks[e].attempt > 0 && s.t.executions[e].status != EXECUTING then s.(tasks := s.tasks[e := Finished])
    else if s.t.executions[e].snapshot.None? then s
    else s.(tasks := s.tasks[e := Waiting(s.tasks[e].attempt)], requests := s.requests + {RequestFor(s.t, e)})
  }

  function BankAnswered(s: System, r: Request, outcome: (Bank, BankResponse)): System {
    s.(bank := outcome.0, answers := s.answers + {Answer(r.execution, outcome.1)})
  }

  function WithRevoked(bank: Bank, m: MandateId, revoked: bool): Bank
    requires m in bank.mandates
  {
    bank.(mandates := bank.mandates[m := bank.mandates[m].(revoked := revoked)])
  }

  function WithTables(s: System, r: Result<Tables, RecurringError>): System {
    match r case Ok(t) => s.(t := t) case Err(_) => s
  }

  function Created(s: System, r: CreateRequest): System {
    match Create(s.t, r, DateOf(s.now), r.phone in s.registry.aliases)
    case Ok(p) => s.(t := p.0, accepted := s.accepted + if |p.0.mandates| > |s.t.mandates| then [r] else [])
    case Err(_) => s
  }

  /** A request of a client to a view. */
  function ClientStep(s: System, l: Label): System
    requires OfClient(l)
  {
    match l
    case CreateMandate(r) => Created(s, r)
    case PauseMandate(m, asker) => WithTables(s, Pause(s.t, m, asker, s.now))
    case ResumeMandate(m, asker) =>
      (match Resume(s.t, m, asker, s.now)
       case Ok(t) => s.(t := t, events := s.events + [Resumed(m, s.t.mandates[m].nextRunAt, s.now)],
                        signed := s.signed + multiset{m})
       case Err(_) => s)
    case CancelMandate(m, asker) => WithTables(s, Cancel(s.t, m, asker, s.now))
  }

  /** A step of a task. */
  function TaskStep(s: System, l: Label): System
    requires OfTask(l)
  {
    match l
    case ClaimRun(m) => if m in s.queue then Claimed(s, m) else s
    case LookupRecipient(e) => if HasTask(s, e) && s.tasks[e] == AwaitLookup then LookedUp(s, e) else s
    case SendRequest(e) => if HasTask(s, e) && s.tasks[e].Ready? then Sent(s, e) else s
    case FindNoWebhook(e) =>
      if HasTask(s, e) && s.tasks[e].Ready? && (s.tasks[e].attempt == 0 || s.t.executions[e].status == EXECUTING)
      then Ended(s, e, s.tasks[e].attempt, NoWebhook) else s
    case LoseAnswer(e) =>
      if HasTask(s, e) && s.tasks[e].Waiting? then Ended(s, e, s.tasks[e].attempt, NoAnswer) else s
    case ReceiveAnswer(a) =>
      if HasTask(s, a.execution) && s.tasks[a.execution].Waiting? && a in s.answers
      then Ended(s, a.execution, s.tasks[a.execution].attempt, Answered(a.response)) else s
  }

  /** A step of a bank, or of a client at his bank. */
  function BankStep(s: System, l: Label): System
    requires OfBank(l)
  {
    match l
    case BankExecutes(r, rtp) => if r in s.requests then BankAnswered(s, r, Execute(s.bank, r, rtp, s.now)) else s
    case BankDeclines(r, why) => if r in s.requests then BankAnswered(s, r, Decline(s.bank, r, why)) else s
    case BankStoresMandate(m) =>
      if m < |s.t.mandates| && m !in s.bank.mandates
      then s.(bank := s.bank.(mandates := s.bank.mandates[m := LocalMandate(s.t.mandates[m].user, false)])) else s
    case BankRevokes(m) => if m in s.bank.mandates then s.(bank := WithRevoked(s.bank, m, true)) else s
    case BankLiftsRevocation(m) =>
      if m in s.signed && m in s.bank.mandates
      then s.(bank := WithRevoked(s.bank, m, false), signed := s.signed - multiset{m}) else s
    case BankMovesMoney(a, delta) =>
      if a in s.bank.balances && a in s.external
      then s.(bank := s.bank.(balances := s.bank.balances[a := s.bank.balances[a] + delta]),
             external := s.external[a := s.external[a] + delta]) else s
  }

  /** The clock, the dispatcher, and the register of aliases. */
  function OtherStep(s: System, l: Label): System
    requires !OfClient(l) && !OfTask(l) && !OfBank(l)
  {
    match l
    case Tick(elapsed) => s.(now := s.now + elapsed)
    case Dispatch(ids) =>
      if |ids| <= DISPATCH_BATCH_LIMIT && forall m :: m in ids ==> m < |s.t.mandates| && Due(s.t.mandates[m], s.now)
      then s.(queue := s.queue + set m | m in ids) else s
    case RegisterAlias(asker, phone, account) =>
      (match A.Register(s.registry, asker, phone, account) case Ok(r) => s.(registry := r) case Err(_) => s)
    case UnregisterAlias(asker, phone) =>
      (match A.Unregister(s.registry, asker, phone) case Ok(r) => s.(registry := r) case Err(_) => s)
    case AdHocLookup(asker, phone) =>
      var (registry, alias) := A.Lookup(s.registry, asker, phone, Today(s));
      if alias.Some? then s.(registry := registry, lookups := s.lookups + [PaidLookup(asker, Today(s), None)]) else s
  }

  /** One step; a label that is not enabled leaves the state as it is. */
  function Step(s: System, l: Label): System {
    if OfClient(l) then ClientStep(s, l)
    else if OfTask(l) then TaskStep(s, l)
    else if OfBank(l) then BankStep(s, l)
    else OtherStep(s, l)
  }

  // ---- Who leaves what alone ---------------------------------------------------------------

  lemma ClientsLeave(s: System, l: Label)
    requires OfClient(l)
    ensures var s' := Step(s, l);
            && s'.bank == s.bank && s'.external == s.external && s'.registry == s.registry && s'.lookups == s.lookups
            && s'.tasks == s.tasks && s'.requests == s.requests && s'.answers == s.answers && s'.now == s.now
  {
    hide Create, Pause, Resume, Cancel, TaskStep, BankStep, OtherStep, DateOf;
  }

  lemma TasksLeave(s: System, l: Label)
    requires OfTask(l)
    ensures var s' := Step(s, l);
            && s'.bank == s.bank && s'.external == s.external && s'.signed == s.signed && s'.answers == s.answers
            && s'.now == s.now
            && (!l.LookupRecipient? ==> s'.registry == s.registry && s'.lookups == s.lookups)
  {
    hide Conclude, Claim, FinalizeFailure, RequestFor, ClientStep, BankStep, OtherStep;
  }

  lemma AnswersLeave(s: System, r: Request, outcome: (Bank, BankResponse))
    requires outcome.0.mandates == s.bank.mandates
    ensures var s' := BankAnswered(s, r, outcome); s' == s.(bank := outcome.0, answers := s'.answers)
  {
  }

  lemma DecidingLeaves(s: System, l: Label)
    requires l.BankExecutes? || l.BankDeclines?
    ensures var s' := Step(s, l);
            && s' == s.(bank := s'.bank, answers := s'.answers)
            && s'.bank.balances.Keys == s.bank.balances.Keys && s'.bank.mandates == s.bank.mandates
  {
    hide Decide, Charged, BankAnswered, ClientStep, TaskStep, OtherStep;
    match l {
      case BankExecutes(r, rtp) => AnswersLeave(s, r, Execute(s.bank, r, rtp, s.now));
      case BankDeclines(r, why) => AnswersLeave(s, r, Decline(s.bank, r, why));
    }
  }

  lemma HousekeepingLeaves(s: System, l: Label)
    requires OfBank(l) && !l.BankExecutes? && !l.BankDeclines?
    ensures var s' := Step(s, l);
            && s'.t == s.t && s'.tasks == s.tasks && s'.requests == s.requests && s'.events == s.events
            && s'.registry == s.registry && s'.lookups == s.lookups && s'.now == s.now && s'.answers == s.answers
            && s'.bank.runs == s.bank.runs && s'.bank.balances.Keys == s.bank.balances.Keys
            && (!l.BankMovesMoney? ==> s'.bank.balances == s.bank.balances && s'.external == s.external)
            && (l.BankMovesMoney? ==> s'.bank.mandates == s.bank.mandates && s'.signed == s.signed)
  {
    assert Step(s, l) == BankStep(s, l);
    hide Step, BankAnswered, Execute, Decline;
  }

  lemma BanksLeave(s: System, l: Label)
    requires OfBank(l)
    ensures var s' := Step(s, l);
            && s'.t == s.t && s'.tasks == s.tasks && s'.requests == s.requests && s'.events == s.events
            && s'.registry == s.registry && s'.lookups == s.lookups && s'.now == s.now
            && s'.bank.balances.Keys == s.bank.balances.Keys
            && (!l.BankExecutes? && !l.BankDeclines? ==> s'.bank.runs == s.bank.runs && s'.answers == s.answers)
            && (!l.BankExecutes? && !l.BankDeclines? && !l.BankMovesMoney? ==>
                  s'.bank.balances == s.bank.balances && s'.external == s.external)
            && (l.BankExecutes? || l.BankDeclines? || l.BankMovesMoney? ==>
                  s'.bank.mandates == s.bank.mandates && s'.signed == s.signed)
  {
    hide Step;
    if l.BankExecutes? || l.BankDeclines? { DecidingLeaves(s, l); } else { HousekeepingLeaves(s, l); }
  }

  lemma OthersLeave(s: System, l: Label)
    requires !OfClient(l) && !OfTask(l) && !OfBank(l)
    ensures var s' := Step(s, l);
            && s'.t == s.t && s'.tasks == s.tasks && s'.requests == s.requests && s'.answers == s.answers
            && s'.bank == s.bank && s'.external == s.external && s'.events == s.events && s'.signed == s.signed
            && s.now <= s'.now
            && (!l.AdHocLookup? ==>
                  s'.registry.total == s.registry.total && s'.registry.daily == s.registry.daily &&
                  s'.lookups == s.lookups)
  {
    hide ClientStep, TaskStep, BankStep;
  }

  function Run(s: System, labels: seq<Label>): System {
    if labels == [] then s else Step(Run(s, labels[..|labels| - 1]), labels[|labels| - 1])
  }

  function Start(now: Instant, balances: map<Account, int>, aliases: map<Phone, A.Alias>): System {
    System(now, Tables([], [], []), A.Registry(aliases, map[], map[]), Bank(map[], map[], balances),
           {}, [], {}, {}, multiset{}, balances, [], [], [])
  }
}
