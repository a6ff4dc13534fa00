/** What booking a payment and applying the gateway's results do to every row. */
module LedgerLaws {
  import opened Common
  import opened Netting
  import opened Ledger
  import opened Settlement
  import opened PartialFailure

  // ---- Booking -----------------------------------------------------------------------------

  lemma {:induction false} PaymentsConcat(es: seq<Entry>, fs: seq<Entry>)
    ensures PaymentsOf(es + fs) == PaymentsOf(es) + PaymentsOf(fs)
  {
    if es == [] {
      assert es + fs == fs;
    } else {
      assert (es + fs)[1..] == es[1..] + fs;
      PaymentsConcat(es[1..], fs);
    }
  }

  lemma NetOfOne(e: Entry, bank: BankId)
    ensures Netting.Net(PaymentsOf([e]), bank) ==
            (if bank == e.payment.payee then e.payment.amount else 0)
            - (if bank == e.payment.payer then e.payment.amount else 0)
    ensures PaymentsOf([]) == [] && Netting.Net([], bank) == 0
  {
    assert [e][1..] == [];
    assert PaymentsOf([e]) == [e.payment];
    Single(e.payment, bank);
  }

  /** Whether or not an entry is booked. */
  function Optional(booked: bool, e: Entry): seq<Entry> { if booked then [e] else [] }

  lemma NetOfThree(a: bool, x: Entry, b: bool, y: Entry, c: bool, z: Entry, bank: BankId)
    ensures Netting.Net(PaymentsOf(Optional(a, x) + Optional(b, y) + Optional(c, z)), bank) ==
            Netting.Net(PaymentsOf(Optional(a, x)), bank) + Netting.Net(PaymentsOf(Optional(b, y)), bank)
            + Netting.Net(PaymentsOf(Optional(c, z)), bank)
  {
    hide Netting.Net, PaymentsOf, Optional;
    var xs, ys, zs := Optional(a, x), Optional(b, y), Optional(c, z);
    PaymentsConcat(xs + ys, zs);
    PaymentsConcat(xs, ys);
    Concat(PaymentsOf(xs) + PaymentsOf(ys), PaymentsOf(zs), bank);
    Concat(PaymentsOf(xs), PaymentsOf(ys), bank);
  }

  lemma ThreeEntries(tx: C2bTransaction, klikBank: Option<BankId>)
    requires tx.split.Some?
    ensures var f := tx.split.value;
            C2bEntries(tx, klikBank) ==
            Optional(!tx.isOnUs, NewEntry(tx, tx.merchantBank, BankBeneficiary(tx.merchantBank), f.merchantNet))
            + Optional(f.klikFee > 0, NewEntry(tx, OperatorBank(tx, klikBank), Klik, f.klikFee))
            + Optional(f.agentFee > 0, NewEntry(tx, tx.agentBank, Agent(tx.agent), f.agentFee))
  {
  }

  lemma EachBankGetsItsShare(tx: C2bTransaction, klikBank: Option<BankId>, bank: BankId)
    requires tx.split.Some? && tx.split.value.klikFee >= 0 && tx.split.value.agentFee >= 0
    ensures Netting.Net(PaymentsOf(C2bEntries(tx, klikBank)), bank) == Share(tx, klikBank, bank)
  {
    var f := tx.split.value;
    var x := NewEntry(tx, tx.merchantBank, BankBeneficiary(tx.merchantBank), f.merchantNet);
    var y := NewEntry(tx, OperatorBank(tx, klikBank), Klik, f.klikFee);
    var z := NewEntry(tx, tx.agentBank, Agent(tx.agent), f.agentFee);
    ThreeEntries(tx, klikBank);
    NetOfThree(!tx.isOnUs, x, f.klikFee > 0, y, f.agentFee > 0, z, bank);
    hide C2bEntries, Netting.Net, PaymentsOf;
    NetOfOne(x, bank);
    NetOfOne(y, bank);
    NetOfOne(z, bank);
  }

  /** A payment that is booked gives every bank what it is due, and nobody anything twice. */
  lemma PaymentIsBookedRight(entries: seq<Entry>, tx: C2bTransaction, klikBank: Option<BankId>)
    requires tx.split.Some? && tx.split.value.klikFee >= 0 && tx.split.value.agentFee >= 0
    requires RecordC2b(entries, tx, klikBank).Ok? && !Recorded(entries, tx.idempotencyKey)
    ensures RightlyBooked(entries, RecordC2b(entries, tx, klikBank).value, tx, klikBank)
  {
    var after := RecordC2b(entries, tx, klikBank).value;
    var added := C2bEntries(tx, klikBank);
    assert after[..|entries|] == entries && after[|entries|..] == added;
    forall bank ensures Netting.Net(PaymentsOf(added), bank) == Share(tx, klikBank, bank) {
      EachBankGetsItsShare(tx, klikBank, bank);
    }
    hide Netting.Net, PaymentsOf, Share, C2bEntries, RightEntry;
    EntriesAreRight(tx, klikBank);
    BeneficiariesDiffer(tx, klikBank);
  }

  lemma EntriesAreRight(tx: C2bTransaction, klikBank: Option<BankId>)
    requires tx.split.Some? && (!tx.isOnUs ==> tx.split.value.merchantNet > 0)
    ensures forall e :: e in C2bEntries(tx, klikBank) ==> RightEntry(e, tx, klikBank)
  {
  }

  lemma BeneficiariesDiffer(tx: C2bTransaction, klikBank: Option<BankId>)
    requires tx.split.Some?
    ensures var added := C2bEntries(tx, klikBank);
            forall i, j :: 0 <= i < j < |added| ==> added[i].beneficiary != added[j].beneficiary
  {
  }

  /** When booking is refused, and why. */
  lemma WhenBookingFails(entries: seq<Entry>, tx: C2bTransaction, klikBank: Option<BankId>)
    ensures var r := RecordC2b(entries, tx, klikBank);
            var known := exists i :: 0 <= i < |entries| && entries[i].sourceRef == tx.idempotencyKey;
            && (!tx.completed ==> r == Err(TransactionNotCompleted))
            && (tx.completed && tx.split.None? ==> r == Err(FeesNotCalculated))
            && (tx.completed && tx.split.Some? && known ==> r == Ok(entries))
            && (tx.completed && tx.split.Some? && !known ==>
                  (r.Err? <==> !tx.isOnUs && tx.split.value.merchantNet <= 0))
  {
  }

  // ---- Applying results --------------------------------------------------------------------

  /** The results settle entry `e`: one of them carries out a transfer between its banks. */
  ghost predicate Pays(transfers: seq<Transfer>, s: SessionId, results: seq<TransferResult>, e: Entry) {
    exists r :: r in results && Carries(transfers, s, r, e)
  }

  ghost predicate TransferApplied(t: Transfer, id: TransferId, s: SessionId, results: seq<TransferResult>,
                                  now: Timestamp, t': Transfer)
  {
    t' == if t.session == s && TransferResult(id, true) in results then t.(status := DONE, completedAt := Some(now))
          else if t.session == s && TransferResult(id, false) in results then t.(status := REFUSED)
          else t
  }

  ghost predicate EntryApplied(e: Entry, s: SessionId, settles: bool, now: Timestamp, e': Entry) {
    e' == if e.session == Some(s) && !e.settled && settles then e.(settled := true, settledAt := Some(now)) else e
  }

  ghost predicate Applied(p: Progress, s: SessionId, results: seq<TransferResult>, now: Timestamp, q: Progress) {
    && |q.transfers| == |p.transfers| && |q.entries| == |p.entries|
    && (forall t :: 0 <= t < |p.transfers| ==> TransferApplied(p.transfers[t], t, s, results, now, q.transfers[t]))
    && (forall i :: 0 <= i < |p.entries| ==>
          EntryApplied(p.entries[i], s, Pays(p.transfers, s, results, p.entries[i]), now, q.entries[i]))
  }

  lemma PaysAppend(transfers: seq<Transfer>, s: SessionId, results: seq<TransferResult>, r: TransferResult, e: Entry)
    ensures Pays(transfers, s, results + [r], e) <==> Pays(transfers, s, results, e) || Carries(transfers, s, r, e)
  {
    assert forall x :: x in results + [r] <==> x in results || x == r;
  }

  lemma OneMoreApplied(p: Progress, s: SessionId, results: seq<TransferResult>, r: TransferResult, now: Timestamp,
                       q: Progress)
    requires Applied(p, s, results, now, q) && forall x :: x in results ==> x.id != r.id
    ensures Applied(p, s, results + [r], now, ApplyResult(q, s, r, now))
  {
    assert forall x :: x in results + [r] <==> x in results || x == r;
    forall t | 0 <= t < |p.transfers|
      ensures q.transfers[t].session == p.transfers[t].session && q.transfers[t].payment == p.transfers[t].payment
      ensures t == r.id ==> q.transfers[t] == p.transfers[t]
    {
      assert TransferApplied(p.transfers[t], t, s, results, now, q.transfers[t]);
    }
    forall i | 0 <= i < |p.entries|
      ensures EntryApplied(p.entries[i], s, Pays(p.transfers, s, results + [r], p.entries[i]), now,
                           ApplyResult(q, s, r, now).entries[i])
    {
      PaysAppend(p.transfers, s, results, r, p.entries[i]);
      hide Pays;
      assert EntryApplied(p.entries[i], s, Pays(p.transfers, s, results, p.entries[i]), now, q.entries[i]);
      assert Carries(q.transfers, s, r, p.entries[i]) <==> Carries(p.transfers, s, r, p.entries[i]);
    }
    hide Pays;
    forall t | 0 <= t < |p.transfers|
      ensures TransferApplied(p.transfers[t], t, s, results + [r], now, ApplyResult(q, s, r, now).transfers[t])
    {
      assert TransferApplied(p.transfers[t], t, s, results, now, q.transfers[t]);
    }
  }

  lemma {:induction false} ResultsAreApplied(p: Progress, s: SessionId, results: seq<TransferResult>, now: Timestamp)
    requires forall i, j :: 0 <= i < j < |results| ==> results[i].id != results[j].id
    ensures Applied(p, s, results, now, ApplyResults(p, s, results, now))
  {
    if results != [] {
      hide Applied, ApplyResult;
      var n := |results| - 1;
      var init, last := results[..n], results[n];
      forall x | x in init ensures x.id != last.id {
        var i :| 0 <= i < n && results[i] == x;
      }
      ResultsAreApplied(p, s, init, now);
      OneMoreApplied(p, s, init, last, now, ApplyResults(p, s, init, now));
      assert results == init + [last];
    }
  }

  /** The effect of `mark_settled` on every row: the session is COMPLETED exactly if every result is a
      success for one of its transfers; a transfer takes its own result and no other; an entry of the
      session is settled now if it was open and either the whole session succeeded or a transfer between
      its banks was carried out; nothing else changes. */
  lemma EveryRowIsMarked(b: Books, s: SessionId, results: seq<TransferResult>, now: Timestamp)
    requires s < |b.sessions| && b.sessions[s].status == SETTLING
    requires forall i, j :: 0 <= i < j < |results| ==> results[i].id != results[j].id
    ensures MarkSettled(b, s, results, now).Ok?
    ensures var b' := MarkSettled(b, s, results, now).value;
            var fine := forall r :: r in results ==>
                          r.success && r.id < |b.transfers| && b.transfers[r.id].session == s;
            && b'.sessions == b.sessions[s := b.sessions[s].(status := if fine then COMPLETED else FAILED,
                                                             endedAt := Some(now))]
            && |b'.transfers| == |b.transfers| && |b'.entries| == |b.entries|
            && (forall t :: 0 <= t < |b.transfers| ==>
                  TransferApplied(b.transfers[t], t, s, results, now, b'.transfers[t]))
            && (forall i :: 0 <= i < |b.entries| ==>
                  EntryApplied(b.entries[i], s, fine || Pays(b.transfers, s, results, b.entries[i]), now,
                               b'.entries[i]))
  {
    var p := Progress(b.entries, b.transfers, false);
    ResultsAreApplied(p, s, results, now);
    OutcomeOfResults(p, s, results, now);
    hide ApplyResults, Pays;
    var q := ApplyResults(p, s, results, now);
    forall i | 0 <= i < |b.entries|
      ensures EntryApplied(p.entries[i], s, Pays(b.transfers, s, results, b.entries[i]), now, q.entries[i])
    {
    }
  }
}
