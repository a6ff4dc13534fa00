/** The paying bank's side of a standing order.  Execution ids are globally unique, so the
    dictionaries of all bank processes are joined, with accounts told apart by their bank. */
module MockBank {
  import opened Common
  import opened Calendar
  import opened Recurring

  datatype Account = Account(bank: BankId, user: UserId)

  datatype LocalMandate = LocalMandate(user: UserId, revoked: bool)

  datatype Request =
    Request(execution: ExecutionId, mandate: MandateId, payer: Account, amount: int, recipient: Recipient)

  datatype Bank = Bank(runs: map<ExecutionId, BankResponse>, mandates: map<MandateId, LocalMandate>,
                       balances: map<Account, int>)

  /** The client charged: the one of the bank's own mandate, else the one named in the request. */
  function Charged(b: Bank, r: Request): Account {
    if r.mandate in b.mandates && b.mandates[r.mandate].user != ""
    then Account(r.payer.bank, b.mandates[r.mandate].user) else r.payer
  }

  /** The decision on a request seen for the first time. */
  function Decide(b: Bank, r: Request, rtpReference: string, now: Instant): BankResponse {
    var client := Charged(b, r);
    if r.mandate in b.mandates && b.mandates[r.mandate].revoked then Rejected(Code(MANDATE_REVOKED_LOCALLY))
    else if client.user == "" || client !in b.balances then Rejected(Code(ACCOUNT_CLOSED))
    else if b.balances[client] < r.amount then Rejected(Code(INSUFFICIENT_FUNDS))
    else Executed(rtpReference, Some(now))
  }

  /** The effect of an answer: it is remembered, and an executed one debits the client. */
  function Apply(b: Bank, r: Request, response: BankResponse): Bank {
    var client := Charged(b, r);
    b.(runs := b.runs[r.execution := response],
      balances := if response.Executed? && client in b.balances
                  then b.balances[client := b.balances[client] - r.amount] else b.balances)
  }

  function Execute(b: Bank, r: Request, rtpReference: string, now: Instant): (Bank, BankResponse) {
    if r.execution in b.runs then (b, b.runs[r.execution])
    else
      var response := Decide(b, r, rtpReference, now);
      (Apply(b, r, response), response)
  }

  /** A bank with checks of its own may also refuse; it answers duplicates in the same way. */
  function Decline(b: Bank, r: Request, why: RejectReason): (Bank, BankResponse) {
    if r.execution in b.runs then (b, b.runs[r.execution])
    else (Apply(b, r, Rejected(why)), Rejected(why))
  }

  /** What the bank owes to a request that it has not seen before, when it charges `client` and `revoked`
      says whether he has revoked the mandate: he is paid for exactly if he has the money, he pays exactly
      the amount, nobody else pays, a refusal says why, and the answer is kept. */
  ghost predicate Fair(b: Bank, r: Request, client: Account, revoked: bool, rtpReference: string, now: Instant,
                       b': Bank, response: BankResponse)
  {
    && (response.Executed? <==>
          !revoked && client.user != "" && client in b.balances && b.balances[client] >= r.amount)
    && (revoked ==> response == Rejected(Code(MANDATE_REVOKED_LOCALLY)))
    && (!revoked && (client.user == "" || client !in b.balances) ==> response == Rejected(Code(ACCOUNT_CLOSED)))
    && (!revoked && client.user != "" && client in b.balances && b.balances[client] < r.amount ==>
          response == Rejected(Code(INSUFFICIENT_FUNDS)))
    && (response.Executed? ==>
          && response == Executed(rtpReference, Some(now))
          && client in b.balances && b'.balances == b.balances[client := b.balances[client] - r.amount])
    && (!response.Executed? ==> b'.balances == b.balances)
    && b'.runs == b.runs[r.execution := response] && b'.mandates == b.mandates
  }

  /** A new request is judged fairly, for the client of the bank's own mandate if it has one. */
  lemma ExecuteIsFair(b: Bank, r: Request, rtpReference: string, now: Instant)
    requires r.execution !in b.runs
    ensures var stored := r.mandate in b.mandates && b.mandates[r.mandate].user != "";
            var user := if stored then b.mandates[r.mandate].user else r.payer.user;
            var revoked := r.mandate in b.mandates && b.mandates[r.mandate].revoked;
            var outcome := Execute(b, r, rtpReference, now);
            Fair(b, r, Account(r.payer.bank, user), revoked, rtpReference, now, outcome.0, outcome.1)
  {
  }

  class MockBankProcess {
    var executedRuns: map<ExecutionId, BankResponse>
    var localMandates: map<MandateId, LocalMandate>
    var balances: map<Account, int>

    constructor (balances: map<Account, int>)
      ensures State() == Bank(map[], map[], balances)
    {
      executedRuns, localMandates := map[], map[];
      this.balances := balances;
    }

    function State(): Bank
      reads this
    {
      Bank(executedRuns, localMandates, balances)
    }

    method WebhookRecurringExecute(r: Request, rtpReference: string, now: Instant) returns (response: BankResponse)
      modifies this`executedRuns, this`balances
      ensures (State(), response) == Execute(old(State()), r, rtpReference, now)
      ensures r.execution in old(executedRuns) ==> response == old(executedRuns)[r.execution]
      ensures r.execution !in old(executedRuns) ==>
                var stored := r.mandate in old(localMandates) && old(localMandates)[r.mandate].user != "";
                var user := if stored then old(localMandates)[r.mandate].user else r.payer.user;
                var revoked := r.mandate in old(localMandates) && old(localMandates)[r.mandate].revoked;
                Fair(old(State()), r, Account(r.payer.bank, user), revoked, rtpReference, now, State(), response)
      ensures r.execution in executedRuns && executedRuns[r.execution] == response
      ensures forall e :: e in old(executedRuns) ==> e in executedRuns && executedRuns[e] == old(executedRuns)[e]
      ensures r.execution in old(executedRuns) ==> State() == old(State())
      ensures forall a :: a in old(balances) ==>
                a in balances && (balances[a] == old(balances)[a] || 0 <= balances[a] == old(balances)[a] - r.amount)
    {
      if r.execution !in executedRuns { ExecuteIsFair(State(), r, rtpReference, now); }
      hide Fair;
      if r.execution in executedRuns {
        return executedRuns[r.execution];
      }
      var userId := r.payer.user;
      if r.mandate in localMandates && localMandates[r.mandate].user != "" {
        userId := localMandates[r.mandate].user;
      }
      var client := Account(r.payer.bank, userId);
      if r.mandate in localMandates && localMandates[r.mandate].revoked {
        response := Rejected(Code(MANDATE_REVOKED_LOCALLY));
      } else if userId == "" || client !in balances {
        response := Rejected(Code(ACCOUNT_CLOSED));
      } else if balances[client] < r.amount {
        response := Rejected(Code(INSUFFICIENT_FUNDS));
      } else {
        balances := balances[client := balances[client] - r.amount];
        response := Executed(rtpReference, Some(now));
      }
      executedRuns := executedRuns[r.execution := response];
    }
  }
}
