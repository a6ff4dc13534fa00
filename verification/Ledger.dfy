/** The ledger and its settlement sessions: the effect of every operation on the three tables,
    and what holds in every state they can reach.  Rows are identified by their position. */
module Ledger {
  import opened Common
  import opened Netting
  import Fees

  type Timestamp = int
  type SessionId = nat
  type TransferId = nat

  datatype Zone = PL | EU | UK | US
  datatype SessionStatus = OPEN | NETTING | SETTLING | COMPLETED | FAILED
  datatype TransferStatus = PENDING | DONE | REFUSED // stored as PENDING, COMPLETED and FAILED
  datatype Beneficiary = BankBeneficiary(bank: BankId) | Klik | Agent(agent: Fees.AgentId)

  datatype Entry = Entry(payment: Payment, beneficiary: Beneficiary, zone: Zone, sourceRef: string,
                         session: Option<SessionId>, settled: bool, settledAt: Option<Timestamp>)

  datatype Session = Session(zone: Zone, status: SessionStatus, startedAt: Timestamp, endedAt: Option<Timestamp>,
                             entriesCount: nat, volume: int)

  datatype Transfer = Transfer(session: SessionId, payment: Payment, status: TransferStatus,
                               completedAt: Option<Timestamp>)

  datatype Books = Books(entries: seq<Entry>, sessions: seq<Session>, transfers: seq<Transfer>)

  datatype Error =
    | ActiveSessionExists
    | InvalidSessionState
    | TransactionNotCompleted
    | FeesNotCalculated
    | AmountNotPositive

  // ---- Reading the tables ------------------------------------------------------------------

  predicate Active(status: SessionStatus) { status in {OPEN, NETTING, SETTLING} }

  predicate HasActive(sessions: seq<Session>, zone: Zone) {
    exists i :: 0 <= i < |sessions| && sessions[i].zone == zone && Active(sessions[i].status)
  }

  predicate Pending(e: Entry, zone: Zone) { e.zone == zone && !e.settled && e.session.None? }

  function CountPending(entries: seq<Entry>, zone: Zone): nat {
    if entries == [] then 0
    else CountPending(entries[..|entries| - 1], zone) + (if Pending(entries[|entries| - 1], zone) then 1 else 0)
  }

  function SumPending(entries: seq<Entry>, zone: Zone): int {
    if entries == [] then 0
    else
      SumPending(entries[..|entries| - 1], zone)
      + (if Pending(entries[|entries| - 1], zone) then entries[|entries| - 1].payment.amount else 0)
  }

  /** The payments of a session's entries, newest entry first; only unsettled ones if asked. */
  function EntriesOf(entries: seq<Entry>, s: SessionId, unsettledOnly: bool): seq<Payment> {
    if entries == [] then []
    else
      var last := entries[|entries| - 1];
      (if last.session == Some(s) && !(unsettledOnly && last.settled) then [last.payment] else [])
      + EntriesOf(entries[..|entries| - 1], s, unsettledOnly)
  }

  function SettledEntriesOf(entries: seq<Entry>, s: SessionId): seq<Payment> {
    if entries == [] then []
    else
      var last := entries[|entries| - 1];
      (if last.session == Some(s) && last.settled then [last.payment] else [])
      + SettledEntriesOf(entries[..|entries| - 1], s)
  }

  function TransfersOf(transfers: seq<Transfer>, s: SessionId): seq<Payment> {
    if transfers == [] then []
    else TransfersOf(transfers[..|transfers| - 1], s)
         + (var last := transfers[|transfers| - 1]; if last.session == s then [last.payment] else [])
  }

  /** The transfers of a session that the RTGS carried out. */
  function MovedIn(transfers: seq<Transfer>, s: SessionId): seq<Payment> {
    if transfers == [] then []
    else MovedIn(transfers[..|transfers| - 1], s)
         + (var last := transfers[|transfers| - 1];
            if last.session == s && last.status == DONE then [last.payment] else [])
  }

  // ---- The operations ----------------------------------------------------------------------

  function CreateSession(b: Books, zone: Zone, now: Timestamp): Result<Books, Error> {
    if HasActive(b.sessions, zone) then Err(ActiveSessionExists)
    else Ok(b.(sessions := b.sessions + [Session(zone, OPEN, now, None, 0, 0)]))
  }

  function LinkPending(entries: seq<Entry>, s: SessionId, zone: Zone): (r: seq<Entry>) {
    seq(|entries|, i requires 0 <= i < |entries| =>
      if Pending(entries[i], zone) then entries[i].(session := Some(s)) else entries[i])
  }

  function Assign(b: Books, s: SessionId): Result<Books, Error>
    requires s < |b.sessions|
  {
    var session := b.sessions[s];
    if session.status != OPEN then Err(InvalidSessionState)
    else
      Ok(b.(entries := LinkPending(b.entries, s, session.zone),
            sessions := b.sessions[s := session.(status := NETTING,
                                                 entriesCount := CountPending(b.entries, session.zone),
                                                 volume := SumPending(b.entries, session.zone))]))
  }

  function Planned(s: SessionId, ts: seq<NetTransfer>): seq<Transfer> {
    seq(|ts|, i requires 0 <= i < |ts| => Transfer(s, ts[i], PENDING, None))
  }

  function RunNetting(b: Books, s: SessionId): Result<Books, Error>
    requires s < |b.sessions|
  {
    if b.sessions[s].status != NETTING then Err(InvalidSessionState)
    else
      Ok(b.(transfers := b.transfers + Planned(s, Netted(EntriesOf(b.entries, s, true))),
            sessions := b.sessions[s := b.sessions[s].(status := SETTLING)]))
  }

  function Settle(e: Entry, now: Timestamp): Entry {
    if e.settled then e else e.(settled := true, settledAt := Some(now))
  }

  /** Settles the unsettled entries of a session between one pair of banks. */
  function SettlePair(entries: seq<Entry>, s: SessionId, payer: BankId, payee: BankId, now: Timestamp): seq<Entry> {
    seq(|entries|, i requires 0 <= i < |entries| =>
      if entries[i].session == Some(s) && entries[i].payment.payer == payer && entries[i].payment.payee == payee
      then Settle(entries[i], now) else entries[i])
  }

  function SettleAll(entries: seq<Entry>, s: SessionId, now: Timestamp): seq<Entry> {
    seq(|entries|, i requires 0 <= i < |entries| =>
      if entries[i].session == Some(s) then Settle(entries[i], now) else entries[i])
  }

  function Close(sessions: seq<Session>, s: SessionId, status: SessionStatus, now: Timestamp): seq<Session>
    requires s < |sessions|
  {
    sessions[s := sessions[s].(status := status, endedAt := Some(now))]
  }

  /** What the worker does itself when there is nothing to net, or nothing left to transfer. */
  function CompleteWithoutTransfers(b: Books, s: SessionId, now: Timestamp): Books
    requires s < |b.sessions|
  {
    b.(entries := SettleAll(b.entries, s, now), sessions := Close(b.sessions, s, COMPLETED, now))
  }

  datatype TransferResult = TransferResult(id: TransferId, success: bool)

  datatype Progress = Progress(entries: seq<Entry>, transfers: seq<Transfer>, anyFailed: bool)

  function ApplyResult(p: Progress, s: SessionId, r: TransferResult, now: Timestamp): Progress {
    if r.id >= |p.transfers| || p.transfers[r.id].session != s then p.(anyFailed := true)
    else
      var t := p.transfers[r.id];
      if r.success then
        Progress(SettlePair(p.entries, s, t.payment.payer, t.payment.payee, now),
                 p.transfers[r.id := t.(status := DONE, completedAt := Some(now))], p.anyFailed)
      else
        Progress(p.entries, p.transfers[r.id := t.(status := REFUSED)], true)
  }

  function ApplyResults(p: Progress, s: SessionId, results: seq<TransferResult>, now: Timestamp): Progress {
    if results == [] then p
    else ApplyResult(ApplyResults(p, s, results[..|results| - 1], now), s, results[|results| - 1], now)
  }

  function MarkSettled(b: Books, s: SessionId, results: seq<TransferResult>, now: Timestamp): Result<Books, Error>
    requires s < |b.sessions|
  {
    if b.sessions[s].status != SETTLING then Err(InvalidSessionState)
    else
      var p := ApplyResults(Progress(b.entries, b.transfers, false), s, results, now);
      if p.anyFailed then Ok(Books(p.entries, Close(b.sessions, s, FAILED, now), p.transfers))
      else Ok(Books(SettleAll(p.entries, s, now), Close(b.sessions, s, COMPLETED, now), p.transfers))
  }

  // ---- Booking a completed payment ---------------------------------------------------------

  datatype C2bTransaction = C2bTransaction(completed: bool, sender: BankId, merchantBank: BankId,
                                           agent: Fees.AgentId, agentBank: BankId, zone: Zone, isOnUs: bool,
                                           split: Option<Fees.Split>, idempotencyKey: string)

  function NewEntry(tx: C2bTransaction, payee: BankId, to: Beneficiary, amount: int): Entry {
    Entry(Payment(tx.sender, payee, amount), to, tx.zone, tx.idempotencyKey, None, false, None)
  }

  /** The entries of a payment; `klikBank` is the operator's own bank in the zone, if there is one
      (without one the fee is booked from the sender to itself). */
  function C2bEntries(tx: C2bTransaction, klikBank: Option<BankId>): seq<Entry>
    requires tx.split.Some?
  {
    var f := tx.split.value;
    (if !tx.isOnUs then [NewEntry(tx, tx.merchantBank, BankBeneficiary(tx.merchantBank), f.merchantNet)] else [])
    + (if f.klikFee > 0 then [NewEntry(tx, if klikBank.Some? then klikBank.value else tx.sender, Klik, f.klikFee)]
       else [])
    + (if f.agentFee > 0 then [NewEntry(tx, tx.agentBank, Agent(tx.agent), f.agentFee)] else [])
  }

  predicate Recorded(entries: seq<Entry>, key: string) {
    exists i :: 0 <= i < |entries| && entries[i].sourceRef == key
  }

  function PaymentsOf(entries: seq<Entry>): seq<Payment> {
    if entries == [] then [] else [entries[0].payment] + PaymentsOf(entries[1..])
  }

  /** The operator's own bank, or the sender's where there is none. */
  function OperatorBank(tx: C2bTransaction, klikBank: Option<BankId>): BankId {
    match klikBank case Some(bank) => bank case None => tx.sender
  }

  /** What a payment moves to a bank in all: the merchant's share, off-us only, the agent's fee, the
      operator's fee, less all of it for the sender. */
  function Share(tx: C2bTransaction, klikBank: Option<BankId>, bank: BankId): int
    requires tx.split.Some?
  {
    var f := tx.split.value;
    var net := if tx.isOnUs then 0 else f.merchantNet;
    (if bank == tx.merchantBank then net else 0)
    + (if bank == tx.agentBank then f.agentFee else 0)
    + (if bank == OperatorBank(tx, klikBank) then f.klikFee else 0)
    - (if bank == tx.sender then net + f.agentFee + f.klikFee else 0)
  }

  /** The new entries of a payment: open, for its sender and zone, each beneficiary at most once with
      his own amount at his own bank, and for every bank just its share. */
  ghost predicate RightlyBooked(before: seq<Entry>, after: seq<Entry>, tx: C2bTransaction, klikBank: Option<BankId>)
    requires tx.split.Some?
  {
    && |before| <= |after| && after[..|before|] == before
    && var added := after[|before|..];
    && (forall bank :: Netting.Net(PaymentsOf(added), bank) == Share(tx, klikBank, bank))
    && (forall i, j :: 0 <= i < j < |added| ==> added[i].beneficiary != added[j].beneficiary)
    && (forall e :: e in added ==> RightEntry(e, tx, klikBank))
  }

  ghost predicate RightEntry(e: Entry, tx: C2bTransaction, klikBank: Option<BankId>)
    requires tx.split.Some?
  {
    var f := tx.split.value;
    && e.payment.payer == tx.sender && e.payment.amount > 0 && e.zone == tx.zone
    && e.sourceRef == tx.idempotencyKey && e.session.None? && !e.settled && e.settledAt.None?
    && match e.beneficiary
       case BankBeneficiary(bank) =>
         && !tx.isOnUs && bank == tx.merchantBank
         && e.payment.payee == tx.merchantBank && e.payment.amount == f.merchantNet
       case Klik => e.payment.payee == OperatorBank(tx, klikBank) && e.payment.amount == f.klikFee
       case Agent(agent) => agent == tx.agent && e.payment.payee == tx.agentBank && e.payment.amount == f.agentFee
  }

  function BookedUnder(entries: seq<Entry>, key: string): seq<Entry> {
    if entries == [] then []
    else
      var last := entries[|entries| - 1];
      BookedUnder(entries[..|entries| - 1], key) + (if last.sourceRef == key then [last] else [])
  }

  function RecordC2b(entries: seq<Entry>, tx: C2bTransaction, klikBank: Option<BankId>): Result<seq<Entry>, Error> {
    if !tx.completed then Err(TransactionNotCompleted)
    else if tx.split.None? then Err(FeesNotCalculated)
    else if Recorded(entries, tx.idempotencyKey) then Ok(entries)
    else if !tx.isOnUs && tx.split.value.merchantNet <= 0 then Err(AmountNotPositive)
    else Ok(entries + C2bEntries(tx, klikBank))
  }

  function Amounts(entries: seq<Entry>): int {
    if entries == [] then 0 else entries[0].payment.amount + Amounts(entries[1..])
  }

  lemma EntriesAddUp(tx: C2bTransaction, klikBank: Option<BankId>)
    requires tx.split.Some? && tx.split.value.klikFee >= 0 && tx.split.value.agentFee >= 0
    ensures var f := tx.split.value;
            Amounts(C2bEntries(tx, klikBank)) == f.klikFee + f.agentFee + if tx.isOnUs then 0 else f.merchantNet
  {
    var f := tx.split.value;
    var net := if !tx.isOnUs then [NewEntry(tx, tx.merchantBank, BankBeneficiary(tx.merchantBank), f.merchantNet)]
               else [];
    var toKlik := if klikBank.Some? then klikBank.value else tx.sender;
    var klik := if f.klikFee > 0 then [NewEntry(tx, toKlik, Klik, f.klikFee)] else [];
    var agent := if f.agentFee > 0 then [NewEntry(tx, tx.agentBank, Agent(tx.agent), f.agentFee)] else [];
    assert C2bEntries(tx, klikBank) == net + klik + agent;
    AmountsConcat(net + klik, agent);
    AmountsConcat(net, klik);
  }

  lemma EntriesAreOwed(tx: C2bTransaction, klikBank: Option<BankId>)
    requires tx.split.Some? && (!tx.isOnUs ==> tx.split.value.merchantNet > 0)
    ensures forall e :: e in C2bEntries(tx, klikBank) ==>
              && e.payment.payer == tx.sender && e.payment.amount > 0 && e.zone == tx.zone
              && e.session.None? && !e.settled && e.sourceRef == tx.idempotencyKey
  {
  }

  lemma BookingAgain(entries: seq<Entry>, tx: C2bTransaction, klikBank: Option<BankId>)
    requires RecordC2b(entries, tx, klikBank).Ok?
    ensures var r := RecordC2b(entries, tx, klikBank).value; RecordC2b(r, tx, klikBank) == Ok(r)
  {
    if !Recorded(entries, tx.idempotencyKey) {
      var added := C2bEntries(tx, klikBank);
      EntriesAreOwed(tx, klikBank);
      hide C2bEntries;
      if added == [] {
        assert entries + added == entries;
      } else {
        assert (entries + added)[|entries|] == added[0] && added[0] in added;
      }
    }
  }

  /** A payment split under the agreement in force is booked in full: everything is owed by the
      sender's bank, and adds up to the gross amount (off-us) or to the fees alone (on-us).
      Booking fails exactly when an off-us merchant's share was rounded away, and booking twice
      changes nothing. */
  lemma PaymentIsBookedInFull(entries: seq<Entry>, tx: C2bTransaction, klikBank: Option<BankId>,
                              rows: seq<Fees.Agreement>, gross: nat, when: Timestamp)
    requires Fees.Consistent(rows) && gross > 0
    requires tx.completed && tx.split.Some? && tx.split == Fees.CalculateSplit(rows, tx.agent, gross, when)
    requires !Recorded(entries, tx.idempotencyKey)
    ensures RecordC2b(entries, tx, klikBank).Err? <==> !tx.isOnUs && tx.split.value.merchantNet == 0
    ensures var r := RecordC2b(entries, tx, klikBank);
            r.Ok? ==>
              var added := C2bEntries(tx, klikBank);
              && r.value == entries + added
              && Amounts(added) == (if tx.isOnUs then gross - tx.split.value.merchantNet else gross)
              && (forall e :: e in added ==> e.payment.payer == tx.sender && e.payment.amount > 0 && e.zone == tx.zone
                                             && e.session.None? && !e.settled)
              && RecordC2b(r.value, tx, klikBank) == Ok(r.value)
  {
    Fees.EverySplitIsFair(rows, tx.agent, gross, when);
    EntriesAddUp(tx, klikBank);
    if RecordC2b(entries, tx, klikBank).Ok? {
      EntriesAreOwed(tx, klikBank);
      BookingAgain(entries, tx, klikBank);
    }
    hide C2bEntries, Amounts, Fees.CalculateSplit, Fees.Consistent, Recorded;
  }

  /** It does fail: a payment of one cent, under fees of 50 % and 49.99 %, cannot be booked off-us. */
  lemma OneCentCannotBeBooked(tx: C2bTransaction, klikBank: Option<BankId>, when: Timestamp)
    requires tx.completed && !tx.isOnUs && when >= 0
    requires tx.split == Fees.CalculateSplit([Fees.Agreement(tx.agent, 5000, 4999, 0, None)], tx.agent, 1, when)
    ensures tx.split.Some? && RecordC2b([], tx, klikBank) == Err(AmountNotPositive)
  {
    var agreement := Fees.Agreement(tx.agent, 5000, 4999, 0, None);
    Fees.ActiveAgreementIsUnique([agreement], tx.agent, when, 0);
    Fees.MerchantNetVanishesOnlyBelowOneCent(1, 5000, 4999);
  }

  lemma {:induction false} AmountsConcat(es: seq<Entry>, fs: seq<Entry>)
    ensures Amounts(es + fs) == Amounts(es) + Amounts(fs)
  {
    if es == [] {
      assert es + fs == fs;
    } else {
      assert (es + fs)[1..] == es[1..] + fs;
      AmountsConcat(es[1..], fs);
    }
  }
}
