/** When a settlement session is sure to move as much as it settles, whatever the RTGS answers. */
module Balance {
  import opened Common
  import opened Netting
  import opened Ledger
  import opened Settlement
  import opened PartialFailure
  import opened Forest
  import opened Pairs

  // ---- What was moved, and what was settled ------------------------------------------------

  predicate Moves(t: Transfer, s: SessionId, p: Payment) { t.session == s && t.status == DONE && t.payment == p }

  lemma LastMoved(ts: seq<Transfer>, s: SessionId, p: Payment)
    requires ts != []
    ensures p in MovedIn(ts, s) <==> p in MovedIn(ts[..|ts| - 1], s) || Moves(ts[|ts| - 1], s, p)
  {
  }

  lemma {:induction false} MovedContains(ts: seq<Transfer>, s: SessionId, p: Payment)
    ensures p in MovedIn(ts, s) <==> exists i :: 0 <= i < |ts| && Moves(ts[i], s, p)
  {
    if ts != [] {
      hide MovedIn, Moves;
      var n := |ts| - 1;
      var init := ts[..n];
      MovedContains(init, s, p);
      LastMoved(ts, s, p);
      if exists i :: 0 <= i < n && Moves(init[i], s, p) {
        var i :| 0 <= i < n && Moves(init[i], s, p);
        assert Moves(ts[i], s, p);
      }
      if exists i :: 0 <= i < |ts| && Moves(ts[i], s, p) {
        var i :| 0 <= i < |ts| && Moves(ts[i], s, p);
        if i < n { assert Moves(init[i], s, p); }
      }
    }
  }

  /** What was moved is part of what was planned: all of it if no transfer was refused. */
  lemma {:induction false} MovedIsPart(ts: seq<Transfer>, s: SessionId)
    ensures forall p :: p in MovedIn(ts, s) ==> p in TransfersOf(ts, s)
    ensures |MovedIn(ts, s)| <= |TransfersOf(ts, s)|
    ensures NoPairTwice(TransfersOf(ts, s)) ==> NoPairTwice(MovedIn(ts, s))
    ensures Within(MovedIn(ts, s), TransfersOf(ts, s))
    ensures |MovedIn(ts, s)| == |TransfersOf(ts, s)| ==> forall t :: t in ts && t.session == s ==> t.status == DONE
  {
    if ts != [] {
      var n := |ts| - 1;
      var last, before, planned := ts[n], MovedIn(ts[..n], s), TransfersOf(ts[..n], s);
      MovedIsPart(ts[..n], s);
      assert ts == ts[..n] + [last];
      if last.session == s {
        assert TransfersOf(ts, s) == planned + [last.payment];
        PairsOfPrefix(planned, last.payment);
        WithinLonger(before, planned, last.payment);
        WithinBoth(before, planned, last.payment);
        if last.status == DONE {
          assert MovedIn(ts, s) == before + [last.payment];
          if NoPairTwice(planned + [last.payment]) { PairsAppend(planned, before, last.payment); }
        } else {
          assert MovedIn(ts, s) == before;
        }
      } else {
        assert TransfersOf(ts, s) == planned && MovedIn(ts, s) == before;
      }
    }
  }

  lemma PairsOfPrefix(ps: seq<Payment>, p: Payment)
    ensures NoPairTwice(ps + [p]) ==> NoPairTwice(ps)
  {
    assert forall i :: 0 <= i < |ps| ==> (ps + [p])[i] == ps[i];
  }

  lemma PairsAppend(ps: seq<Payment>, qs: seq<Payment>, p: Payment)
    requires NoPairTwice(ps + [p]) && NoPairTwice(qs) && forall q :: q in qs ==> q in ps
    ensures NoPairTwice(qs + [p])
  {
    var all, part := ps + [p], qs + [p];
    forall i, j | 0 <= i < j < |part| ensures !(part[i].payer == part[j].payer && part[i].payee == part[j].payee) {
      if j == |qs| {
        assert qs[i] in ps;
        var k :| 0 <= k < |ps| && ps[k] == qs[i];
        assert all[k] == qs[i] && all[|ps|] == p;
      }
    }
  }

  lemma {:induction false} SettledAreBetween(es: seq<Entry>, fs: seq<Entry>, s: SessionId, ts: seq<Payment>)
    requires |es| == |fs|
    requires forall i :: 0 <= i < |es| ==> fs[i].payment == es[i].payment && fs[i].session == es[i].session
    requires forall i :: 0 <= i < |es| && es[i].session == Some(s) ==> (fs[i].settled <==> HasPair(ts, es[i].payment))
    ensures SettledEntriesOf(fs, s) == Between(EntriesOf(es, s, false), ts)
  {
    if es != [] {
      hide HasPair;
      var n := |es| - 1;
      SettledAreBetween(es[..n], fs[..n], s, ts);
      var rest := EntriesOf(es[..n], s, false);
      if es[n].session == Some(s) {
        BetweenCons(es[n].payment, rest, ts, 0);
        assert EntriesOf(es, s, false) == [es[n].payment] + rest;
      } else {
        assert EntriesOf(es, s, false) == rest;
        assert [] + SettledEntriesOf(fs[..n], s) == SettledEntriesOf(fs[..n], s);
      }
    }
  }

  /** What a session that fails has settled, as a function of what it has moved. */
  lemma FailureSettlesBetween(b: Books, s: SessionId, results: seq<TransferResult>, now: Timestamp)
    requires Valid(b) && s < |b.sessions| && b.sessions[s].status == SETTLING && Covers(b.transfers, s, results)
    requires exists r :: r in results && !r.success
    ensures var b' := Step(b, Finish(s, results, now));
            SettledEntriesOf(b'.entries, s) == Between(EntriesOf(b.entries, s, false), MovedIn(b'.transfers, s))
  {
    hide Valid, Covers, Step;
    var b' := Step(b, Finish(s, results, now));
    StepIsLater(b, Finish(s, results, now));
    SameRows(b, s, results, now);
    forall i | 0 <= i < |b.entries| && b.entries[i].session == Some(s)
      ensures b'.entries[i].settled <==> HasPair(MovedIn(b'.transfers, s), b.entries[i].payment)
    {
      FailedSessionsSettleByPair(b, s, results, now, i);
      MovedPair(b'.transfers, s, b.entries[i].payment);
    }
    SettledAreBetween(b.entries, b'.entries, s, MovedIn(b'.transfers, s));
  }

  lemma SameRows(b: Books, s: SessionId, results: seq<TransferResult>, now: Timestamp)
    requires Valid(b) && s < |b.sessions| && b.sessions[s].status == SETTLING && Covers(b.transfers, s, results)
    ensures var b' := Step(b, Finish(s, results, now));
            && |b'.entries| == |b.entries| && |b'.transfers| == |b.transfers| && s < |b'.sessions|
            && (forall i :: 0 <= i < |b.entries| ==>
                  b'.entries[i].payment == b.entries[i].payment && b'.entries[i].session == b.entries[i].session)
            && (forall t :: 0 <= t < |b.transfers| ==>
                  && b'.transfers[t].payment == b.transfers[t].payment
                  && b'.transfers[t].session == b.transfers[t].session)
            && (forall r :: r in results ==>
                  && r.id < |b'.transfers| && b'.transfers[r.id].session == s
                  && b'.transfers[r.id].status == if r.success then DONE else REFUSED)
            && b'.sessions[s].status == (if exists r :: r in results && !r.success then FAILED else COMPLETED)
  {
    hide Valid, ApplyResults;
    ResultsProgress(b, s, results, now);
    var p := ApplyResults(Progress(b.entries, b.transfers, false), s, results, now);
    forall i | 0 <= i < |b.entries|
      ensures p.entries[i].payment == b.entries[i].payment && p.entries[i].session == b.entries[i].session
    {
      assert p.entries[i] == b.entries[i] || SettledFrom(b.entries[i], s, p.entries[i]);
    }
  }

  lemma MovedPair(ts: seq<Transfer>, s: SessionId, p: Payment)
    ensures HasPair(MovedIn(ts, s), p) <==>
            exists t :: 0 <= t < |ts| && ts[t].session == s && ts[t].status == DONE
                        && ts[t].payment.payer == p.payer && ts[t].payment.payee == p.payee
  {
    var moved := MovedIn(ts, s);
    if HasPair(moved, p) {
      var i :| 0 <= i < |moved| && moved[i].payer == p.payer && moved[i].payee == p.payee;
      MovedContains(ts, s, moved[i]);
      assert moved[i] in moved;
    }
    forall t | 0 <= t < |ts| && ts[t].session == s && ts[t].status == DONE
               && ts[t].payment.payer == p.payer && ts[t].payment.payee == p.payee
      ensures HasPair(moved, p)
    {
      MovedContains(ts, s, ts[t].payment);
      assert Moves(ts[t], s, ts[t].payment);
    }
  }

  // ---- The exact condition -----------------------------------------------------------------

  /** The money moved for the session is, bank by bank, that of the entries settled in it. */
  ghost predicate Balances(b: Books, s: SessionId) {
    forall bank :: Netting.Net(MovedIn(b.transfers, s), bank) == Netting.Net(SettledEntriesOf(b.entries, s), bank)
  }

  ghost predicate AlwaysBalances(b: Books, s: SessionId) {
    forall results, now :: Covers(b.transfers, s, results) ==> Balances(Step(b, Finish(s, results, now)), s)
  }

  /** Every planned transfer is the sum of the session's entries between its two banks. */
  ghost predicate SumsMatch(b: Books, s: SessionId) {
    SumsOf(EntriesOf(b.entries, s, false), TransfersOf(b.transfers, s))
  }

  lemma PlannedOnce(b: Books, s: SessionId)
    requires Valid(b) && s < |b.sessions| && b.sessions[s].status == SETTLING
    ensures WellFormed(TransfersOf(b.transfers, s)) && NoPairTwice(TransfersOf(b.transfers, s))
    ensures IsForest(TransfersOf(b.transfers, s))
  {
    assert PlanOk(b, s);
  }

  /** Outcome by outcome: a session that fails has moved as much as it has settled if and only if each
      transfer that was carried out is the sum of the session's entries between its two banks. */
  lemma FailureBalancesIff(b: Books, s: SessionId, results: seq<TransferResult>, now: Timestamp)
    requires Valid(b) && s < |b.sessions| && b.sessions[s].status == SETTLING && Covers(b.transfers, s, results)
    requires exists r :: r in results && !r.success
    ensures var b' := Step(b, Finish(s, results, now));
            Balances(b', s) <==> SumsOf(EntriesOf(b.entries, s, false), MovedIn(b'.transfers, s))
  {
    hide Valid, Covers, Step, Netting.Net, MovedIn, SettledEntriesOf, EntriesOf, TransfersOf, Between, SumsOf;
    hide NoPairTwice, IsForest, Within;
    var b' := Step(b, Finish(s, results, now));
    SameRows(b, s, results, now);
    FailureSettlesBetween(b, s, results, now);
    TransfersFrame(b.transfers, b'.transfers, s);
    PlannedOnce(b, s);
    MovedIsPart(b'.transfers, s);
    PartOfForest(MovedIn(b'.transfers, s), TransfersOf(b.transfers, s));
    BalanceIffSums(EntriesOf(b.entries, s, false), MovedIn(b'.transfers, s));
  }

  lemma OneOutcomeBalances(b: Books, s: SessionId, results: seq<TransferResult>, now: Timestamp)
    requires Valid(b) && s < |b.sessions| && b.sessions[s].status == SETTLING && Covers(b.transfers, s, results)
    requires |TransfersOf(b.transfers, s)| <= 1 || SumsMatch(b, s)
    ensures Balances(Step(b, Finish(s, results, now)), s)
  {
    hide Valid, Covers, Step, Netting.Net, MovedIn, SettledEntriesOf, EntriesOf, TransfersOf, Between;
    hide PairSum, NoPairTwice;
    var b' := Step(b, Finish(s, results, now));
    SameRows(b, s, results, now);
    StepKeepsValid(b, Finish(s, results, now));
    var entries, moved := EntriesOf(b.entries, s, false), MovedIn(b'.transfers, s);
    if exists r :: r in results && !r.success {
      FailureSettlesBetween(b, s, results, now);
      MovedIsPart(b'.transfers, s);
      TransfersFrame(b.transfers, b'.transfers, s);
      PlannedOnce(b, s);
      var planned := TransfersOf(b.transfers, s);
      if |planned| <= 1 {
        RefusalLeavesLess(b'.transfers, s, results);
        NoPairsNothingBetween(entries);
      } else {
        SumsOfPart(entries, moved, planned);
        FailureBalancesIff(b, s, results, now);
      }
    } else {
      forall bank ensures Netting.Net(moved, bank) == Netting.Net(SettledEntriesOf(b'.entries, s), bank) {
        CompletedSessionConserves(b', s, bank);
      }
    }
  }

  lemma SumsOfPart(ps: seq<Payment>, part: seq<Payment>, whole: seq<Payment>)
    requires SumsOf(ps, whole) && forall p :: p in part ==> p in whole
    ensures SumsOf(ps, part)
  {
    forall i | 0 <= i < |part| ensures part[i].amount == PairSum(ps, part[i].payer, part[i].payee) {
      assert part[i] in whole;
    }
  }

  lemma RefusalLeavesLess(ts: seq<Transfer>, s: SessionId, results: seq<TransferResult>)
    requires exists r :: r in results && !r.success
    requires forall r :: r in results ==>
               r.id < |ts| && ts[r.id].session == s && (!r.success ==> ts[r.id].status == REFUSED)
    ensures |MovedIn(ts, s)| < |TransfersOf(ts, s)|
  {
    var r :| r in results && !r.success;
    MovedIsPart(ts, s);
    assert ts[r.id] in ts;
  }

  // -- The outcome in which a single transfer is carried out --

  /** Results for the transfers of the session among the first `n`, a success only for `k`. */
  function OnlyFor(ts: seq<Transfer>, s: SessionId, k: TransferId, n: nat): seq<TransferResult>
    requires n <= |ts|
  {
    if n == 0 then []
    else OnlyFor(ts, s, k, n - 1) + (if ts[n - 1].session == s then [TransferResult(n - 1, n - 1 == k)] else [])
  }

  lemma {:induction false} OnlyForCovers(ts: seq<Transfer>, s: SessionId, k: TransferId, n: nat)
    requires n <= |ts|
    ensures var rs := OnlyFor(ts, s, k, n);
            && (forall i, j :: 0 <= i < j < |rs| ==> rs[i].id != rs[j].id)
            && (forall r :: r in rs ==> r.id < n && ts[r.id].session == s && (r.success <==> r.id == k))
            && (forall t :: 0 <= t < n && ts[t].session == s ==> TransferResult(t, t == k) in rs)
  {
    if n > 0 {
      OnlyForCovers(ts, s, k, n - 1);
      var before := OnlyFor(ts, s, k, n - 1);
      if ts[n - 1].session == s {
        var rs := before + [TransferResult(n - 1, n - 1 == k)];
        assert rs == OnlyFor(ts, s, k, n);
        forall i, j | 0 <= i < j < |rs| ensures rs[i].id != rs[j].id {
          if j == |before| { assert rs[i] in before; }
        }
      }
    }
  }

  lemma {:induction false} TransferAt(ts: seq<Transfer>, s: SessionId, i: nat) returns (t: TransferId)
    requires i < |TransfersOf(ts, s)|
    ensures t < |ts| && ts[t].session == s && ts[t].payment == TransfersOf(ts, s)[i]
  {
    var n := |ts| - 1;
    if i < |TransfersOf(ts[..n], s)| { t := TransferAt(ts[..n], s, i); } else { t := n; }
  }

  /** If `k` is the only transfer of the session that was carried out, its payment is all that moved. */
  lemma OnlyOneMoved(ts: seq<Transfer>, s: SessionId, k: TransferId)
    requires k < |ts| && ts[k].session == s && ts[k].status == DONE && NoPairTwice(TransfersOf(ts, s))
    requires forall t :: 0 <= t < |ts| && ts[t].session == s && t != k ==> ts[t].status != DONE
    ensures MovedIn(ts, s) == [ts[k].payment]
  {
    var moved, p := MovedIn(ts, s), ts[k].payment;
    MovedIsPart(ts, s);
    MovedContains(ts, s, p);
    assert Moves(ts[k], s, p);
    forall i | 0 <= i < |moved| ensures moved[i] == p {
      assert moved[i] in moved;
      MovedContains(ts, s, moved[i]);
    }
    if |moved| > 1 {
      OthersDiffer(moved, 0);
      assert false;
    }
  }

  lemma SumIsForced(b: Books, s: SessionId, i: nat)
    requires Valid(b) && s < |b.sessions| && b.sessions[s].status == SETTLING && AlwaysBalances(b, s)
    requires i < |TransfersOf(b.transfers, s)| && |TransfersOf(b.transfers, s)| > 1
    ensures var p := TransfersOf(b.transfers, s)[i];
            p.amount == PairSum(EntriesOf(b.entries, s, false), p.payer, p.payee)
  {
    hide Valid, Covers, Step, Netting.Net, MovedIn, SettledEntriesOf, EntriesOf, TransfersOf, Between;
    hide PairSum, NoPairTwice;
    var planned := TransfersOf(b.transfers, s);
    var p := planned[i];
    PlannedOnce(b, s);
    var k := TransferAt(b.transfers, s, i);
    var other := TransferAt(b.transfers, s, if i == 0 then 1 else 0);
    OthersDiffer(planned, i);
    var results := OnlyFor(b.transfers, s, k, |b.transfers|);
    OnlyForIsCovering(b.transfers, s, k);
    var b' := Step(b, Finish(s, results, 0));
    SameRows(b, s, results, 0);
    assert TransferResult(other, false) in results && TransferResult(k, true) in results;
    TransfersFrame(b.transfers, b'.transfers, s);
    forall t | 0 <= t < |b'.transfers| && b'.transfers[t].session == s && t != k
      ensures b'.transfers[t].status != DONE
    {
      assert TransferResult(t, false) in results;
    }
    OnlyOneMoved(b'.transfers, s, k);
    FailureBalancesIff(b, s, results, 0);
    assert Balances(b', s);
    assert MovedIn(b'.transfers, s)[0] == p;
  }

  lemma OthersDiffer(planned: seq<Payment>, i: nat)
    requires NoPairTwice(planned) && i < |planned| && |planned| > 1
    ensures planned[i] != planned[if i == 0 then 1 else 0]
  {
  }

  lemma OnlyForIsCovering(ts: seq<Transfer>, s: SessionId, k: TransferId)
    ensures Covers(ts, s, OnlyFor(ts, s, k, |ts|))
    ensures forall t :: 0 <= t < |ts| && ts[t].session == s ==> TransferResult(t, t == k) in OnlyFor(ts, s, k, |ts|)
  {
    OnlyForCovers(ts, s, k, |ts|);
    var rs := OnlyFor(ts, s, k, |ts|);
    forall t | 0 <= t < |ts| && ts[t].session == s ensures exists r :: r in rs && r.id == t {
      assert TransferResult(t, t == k) in rs;
    }
  }

  /** Before the transfers are sent, one can tell whether the session will balance whatever becomes of
      them: exactly if there is at most one, or each is the sum of the entries between its banks. */
  lemma SessionBalancesIff(b: Books, s: SessionId)
    requires Valid(b) && s < |b.sessions| && b.sessions[s].status == SETTLING
    ensures AlwaysBalances(b, s) <==> |TransfersOf(b.transfers, s)| <= 1 || SumsMatch(b, s)
  {
    hide Valid, Covers, Step, Balances, TransfersOf, EntriesOf, PairSum;
    if |TransfersOf(b.transfers, s)| <= 1 || SumsMatch(b, s) {
      forall results, now | Covers(b.transfers, s, results) ensures Balances(Step(b, Finish(s, results, now)), s) {
        OneOutcomeBalances(b, s, results, now);
      }
    }
    if AlwaysBalances(b, s) && |TransfersOf(b.transfers, s)| > 1 {
      forall i | 0 <= i < |TransfersOf(b.transfers, s)|
        ensures TransfersOf(b.transfers, s)[i].amount ==
                PairSum(EntriesOf(b.entries, s, false), TransfersOf(b.transfers, s)[i].payer,
                        TransfersOf(b.transfers, s)[i].payee)
      {
        SumIsForced(b, s, i);
      }
    }
  }
}
