/** What a session that failed in part has settled, and what it has not. */
module PartialFailure {
  import opened Common
  import opened Netting
  import opened Ledger
  import opened Settlement

  /** The result `r` carries out a transfer of session `s` between the banks of `e`. */
  predicate Carries(transfers: seq<Transfer>, s: SessionId, r: TransferResult, e: Entry) {
    && r.success && r.id < |transfers| && transfers[r.id].session == s
    && transfers[r.id].payment.payer == e.payment.payer && transfers[r.id].payment.payee == e.payment.payee
  }

  /** `q` has the rows of `p`, with entry `i` settled as stated. */
  ghost predicate Follows(p: Progress, q: Progress, i: nat, settled: bool) {
    && |q.entries| == |p.entries| && |q.transfers| == |p.transfers| && i < |p.entries|
    && q.entries[i].payment == p.entries[i].payment && q.entries[i].session == p.entries[i].session
    && (forall t :: 0 <= t < |p.transfers| ==>
          q.transfers[t].session == p.transfers[t].session && q.transfers[t].payment == p.transfers[t].payment)
    && (q.entries[i].settled <==> settled)
  }

  lemma OneResult(p: Progress, s: SessionId, r: TransferResult, now: Timestamp, i: nat)
    requires i < |p.entries|
    ensures Follows(p, ApplyResult(p, s, r, now), i,
                    || p.entries[i].settled
                    || (p.entries[i].session == Some(s) && Carries(p.transfers, s, r, p.entries[i])))
  {
  }

  /** The loop over the results settles an entry exactly when some result carries out a transfer of
      the session between the same two banks, whatever the amounts. */
  lemma {:induction false} SettledByPair(p: Progress, s: SessionId, results: seq<TransferResult>, now: Timestamp,
                                         i: nat)
    requires i < |p.entries|
    ensures Follows(p, ApplyResults(p, s, results, now), i,
                    || p.entries[i].settled
                    || (&& p.entries[i].session == Some(s)
                        && exists r :: r in results && Carries(p.transfers, s, r, p.entries[i])))
  {
    if results != [] {
      hide ApplyResult;
      var n := |results| - 1;
      var init, last := results[..n], results[n];
      SettledByPair(p, s, init, now, i);
      var q := ApplyResults(p, s, init, now);
      OneResult(q, s, last, now, i);
      assert Carries(q.transfers, s, last, q.entries[i]) <==> Carries(p.transfers, s, last, p.entries[i]);
      assert results == init + [last];
      assert forall r :: r in results <==> r in init || r == last;
    }
  }

  /** So in a session that ends FAILED, an entry is settled exactly when a transfer between its two
      banks was carried out. */
  lemma FailedSessionsSettleByPair(b: Books, s: SessionId, results: seq<TransferResult>, now: Timestamp, i: nat)
    requires Valid(b) && s < |b.sessions| && b.sessions[s].status == SETTLING && Covers(b.transfers, s, results)
    requires exists r :: r in results && !r.success
    requires i < |b.entries| && b.entries[i].session == Some(s)
    ensures var b' := Step(b, Finish(s, results, now));
            && b'.sessions[s].status == FAILED && i < |b'.entries|
            && (b'.entries[i].settled <==>
                  exists t :: 0 <= t < |b'.transfers| && b'.transfers[t].session == s && b'.transfers[t].status == DONE
                              && b'.transfers[t].payment.payer == b.entries[i].payment.payer
                              && b'.transfers[t].payment.payee == b.entries[i].payment.payee)
  {
    hide ApplyResults, PlanOk, OneActivePerZone, FailureHasCause, TransferOk;
    var p := Progress(b.entries, b.transfers, false);
    var b' := Step(b, Finish(s, results, now));
    ResultsProgress(b, s, results, now);
    SettledByPair(p, s, results, now, i);
    assert EntryOk(b.entries[i], b.sessions);
    forall t | 0 <= t < |b'.transfers| && b'.transfers[t].session == s
      ensures b'.transfers[t].status == DONE <==> exists r :: r in results && r.id == t && r.success
    {
      var r :| r in results && r.id == t;
    }
  }

  // ---- Money moved need not be entries settled ---------------------------------------------

  /** Bank 0 owes bank 1 ten cents, of which bank 1 owes five to bank 2. */
  const CHAIN: seq<Obligation> := [Payment(1, 2, 5), Payment(0, 1, 10)]

  const CHAIN_POSITIONS: Positions := Positions([1, 2, 0], map[0 := -10, 1 := 5, 2 := 5])

  lemma ChainPositions()
    ensures NetPositions(CHAIN) == CHAIN_POSITIONS
  {
    var p := Positions([1, 2], map[1 := -5, 2 := 5]);
    assert NetPositions([]) == Positions([], map[]);
    assert CHAIN[..1] == [Payment(1, 2, 5)] && CHAIN[..1][..0] == [];
    assert NetPositions(CHAIN[..1]) == Post(NetPositions([]), Payment(1, 2, 5)) == p;
    assert NetPositions(CHAIN) == Post(p, Payment(0, 1, 10)) == CHAIN_POSITIONS;
  }

  lemma ChainNets()
    ensures Netted(CHAIN) == [Payment(0, 1, 5), Payment(0, 2, 5)]
  {
    hide NetPositions;
    ChainPositions();
    var p := CHAIN_POSITIONS;
    assert p.order[1..] == [2, 0] && p.order[1..][1..] == [0] && p.order[1..][1..][1..] == [];
    assert Debtors(p.order, p.net) == [Party(0, 10)];
    assert Creditors(p.order, p.net) == [Party(1, 5), Party(2, 5)];
    assert LargestFirst([Party(0, 10)]) == [Party(0, 10)];
    assert [Party(1, 5), Party(2, 5)][1..] == [Party(2, 5)];
    assert LargestFirst([Party(1, 5), Party(2, 5)]) == [Party(1, 5), Party(2, 5)];
    assert Take([Party(0, 10)], 5) == [Party(0, 5)] && Take([Party(1, 5), Party(2, 5)], 5) == [Party(2, 5)];
    assert Match([Party(0, 5)], [Party(2, 5)]) == [Payment(0, 2, 5)];
  }

  lemma TwoEntries(d: Entry, e: Entry, s: SessionId)
    requires d.session == e.session == Some(s)
    ensures !d.settled && !e.settled ==> EntriesOf([d, e], s, true) == [e.payment, d.payment]
    ensures d.settled && !e.settled ==> SettledEntriesOf([d, e], s) == [d.payment]
  {
    assert [d, e][..1] == [d] && [d][..0] == [];
    assert EntriesOf([], s, true) == [] && SettledEntriesOf([], s) == [];
  }

  lemma OneOfTwoMoved(t: Transfer, u: Transfer, s: SessionId)
    requires t.session == u.session == s && t.status == DONE && u.status == REFUSED
    ensures MovedIn([t, u], s) == [t.payment]
  {
    assert [t, u][..1] == [t] && [t][..0] == [];
    assert MovedIn([], s) == [];
  }

  const FIRST: Entry := Entry(Payment(0, 1, 10), BankBeneficiary(1), PL, "first", None, false, None)
  const SECOND: Entry := Entry(Payment(1, 2, 5), BankBeneficiary(2), PL, "second", None, false, None)

  lemma ChainIsBooked()
    ensures Reaches(EMPTY, Books([FIRST, SECOND], [Session(PL, OPEN, 0, None, 0, 0)], []))
  {
    assert Reaches(EMPTY, EMPTY) by { ReachesItself(EMPTY); }
    hide Reaches;
    ReachesStep(EMPTY, EMPTY, BookOther(FIRST.payment, FIRST.beneficiary, PL, "first"));
    ReachesStep(EMPTY, Books([FIRST], [], []), BookOther(SECOND.payment, SECOND.beneficiary, PL, "second"));
    assert [FIRST] + [SECOND] == [FIRST, SECOND];
    ReachesStep(EMPTY, Books([FIRST, SECOND], [], []), Open(PL, 0));
  }

  lemma ChainIsLinked() returns (b: Books)
    ensures Reaches(EMPTY, b) && |b.sessions| == 1 && b.sessions[0].status == NETTING && b.transfers == []
    ensures b.entries == [FIRST.(session := Some(0)), SECOND.(session := Some(0))]
  {
    hide Reaches, CountPending, SumPending;
    ChainIsBooked();
    b := Books([FIRST, SECOND], [Session(PL, OPEN, 0, None, 0, 0)], []);
    ReachesStep(EMPTY, b, AssignTo(0));
    b := Step(b, AssignTo(0));
  }

  lemma ChainSettles() returns (b: Books)
    ensures Reaches(EMPTY, b) && |b.sessions| == 1 && b.sessions[0].status == SETTLING
    ensures b.transfers == [Transfer(0, Payment(0, 1, 5), PENDING, None), Transfer(0, Payment(0, 2, 5), PENDING, None)]
    ensures b.entries == [FIRST.(session := Some(0)), SECOND.(session := Some(0))]
  {
    hide Reaches, Netted, EntriesOf;
    b := ChainIsLinked();
    TwoEntries(b.entries[0], b.entries[1], 0);
    ChainNets();
    ReachesStep(EMPTY, b, Net(0));
    b := Step(b, Net(0));
  }

  /** Conservation stops at COMPLETED sessions: there is a run in which a FAILED session has moved
      five cents for bank 0 and settled an entry of ten, while another entry of it is left open. */
  lemma FailedSessionsNeedNotBalance() returns (b: Books, s: SessionId)
    ensures Reaches(EMPTY, b) && s < |b.sessions| && b.sessions[s].status == FAILED
    ensures Netting.Net(MovedIn(b.transfers, s), 0) == -5
    ensures Netting.Net(SettledEntriesOf(b.entries, s), 0) == -10
    ensures exists e :: e in b.entries && e.session == Some(s) && !e.settled
  {
    hide Reaches, MovedIn, SettledEntriesOf, Netting.Net;
    b := ChainSettles();
    s := 0;
    var results := [TransferResult(0, true), TransferResult(1, false)];
    ReachesStep(EMPTY, b, Finish(s, results, 0));
    assert results[0] in results && results[1] in results;
    var p := Progress(b.entries, b.transfers, false);
    TwoResults(p, s, results[0], results[1], 0);
    var b' := Step(b, Finish(s, results, 0));
    assert b'.entries == [b.entries[0].(settled := true, settledAt := Some(0)), b.entries[1]];
    assert b'.transfers ==
           [b.transfers[0].(status := DONE, completedAt := Some(0)), b.transfers[1].(status := REFUSED)];
    OneOfTwoMoved(b'.transfers[0], b'.transfers[1], s);
    TwoEntries(b'.entries[0], b'.entries[1], s);
    Single(Payment(0, 1, 5), 0);
    Single(Payment(0, 1, 10), 0);
    assert b'.entries[1] in b'.entries;
    b := b';
  }

  lemma TwoResults(p: Progress, s: SessionId, q: TransferResult, r: TransferResult, now: Timestamp)
    ensures ApplyResults(p, s, [q, r], now) == ApplyResult(ApplyResult(p, s, q, now), s, r, now)
  {
    hide ApplyResult;
    assert [q, r][..1] == [q] && [q][..0] == [];
    assert ApplyResults(p, s, [], now) == p;
  }
}
