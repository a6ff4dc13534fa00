/** The transfers that netting plans form a forest of payers and payees, so that money can be sent
    around in them in one way only. */
module Forest {
  import opened Netting

  /** No later transfer has the same payer, or none has the same payee. */
  ghost predicate Hangs(ts: seq<Payment>, i: nat)
    requires i < |ts|
  {
    || (forall j :: i < j < |ts| ==> ts[j].payer != ts[i].payer)
    || (forall j :: i < j < |ts| ==> ts[j].payee != ts[i].payee)
  }

  ghost predicate Acyclic(ts: seq<Payment>) {
    forall i :: 0 <= i < |ts| ==> Hangs(ts, i)
  }

  /** A bank pays or is paid, never both. */
  ghost predicate OneSided(ts: seq<Payment>) {
    forall i, j :: 0 <= i < |ts| && 0 <= j < |ts| ==> ts[i].payer != ts[j].payee
  }

  ghost predicate IsForest(ts: seq<Payment>) { Acyclic(ts) && OneSided(ts) }

  // ---- Netting plans a forest --------------------------------------------------------------

  lemma AcyclicCons(t: Payment, ts: seq<Payment>)
    requires Acyclic(ts)
    requires (forall u :: u in ts ==> u.payer != t.payer) || (forall u :: u in ts ==> u.payee != t.payee)
    ensures Acyclic([t] + ts)
  {
    var all := [t] + ts;
    forall i | 0 <= i < |all| ensures Hangs(all, i) {
      assert forall j :: i < j < |all| ==> all[j] == ts[j - 1];
      if i > 0 { assert Hangs(ts, i - 1) && all[i] == ts[i - 1]; }
    }
  }

  lemma {:induction false} MatchIsAcyclic(ds: seq<Party>, cs: seq<Party>)
    requires Pool(ds) && Pool(cs) && forall b :: !(InPool(ds, b) && InPool(cs, b))
    ensures Acyclic(Match(ds, cs))
    decreases |ds| + |cs|
  {
    if ds != [] && cs != [] {
      var a := Min(ds[0].amount, cs[0].amount);
      HeadsArePositive(ds);
      HeadsArePositive(cs);
      TakeKeepsPool(ds, a);
      TakeKeepsPool(cs, a);
      hide Pool, InPool, Take;
      MatchIsAcyclic(Take(ds, a), Take(cs, a));
      MatchShape(Take(ds, a), Take(cs, a));
      AcyclicCons(Payment(ds[0].bank, cs[0].bank, a), Match(Take(ds, a), Take(cs, a)));
    }
  }

  lemma HeadsArePositive(ps: seq<Party>)
    requires Pool(ps) && ps != []
    ensures ps[0].amount > 0
  {
    assert ps[0] in ps;
  }

  lemma NettedIsForest(obligations: seq<Obligation>)
    ensures IsForest(Netted(obligations))
  {
    NetPositionsCorrect(obligations);
    var ds, cs := SortedPools(NetPositions(obligations));
    hide Pool, InPool;
    MatchIsAcyclic(ds, cs);
    MatchShape(ds, cs);
    var ts := Netted(obligations);
    forall i, j | 0 <= i < |ts| && 0 <= j < |ts| ensures ts[i].payer != ts[j].payee {
      assert ts[i] in ts && ts[j] in ts;
    }
  }

  // ---- Parts of a forest -------------------------------------------------------------------

  /** The elements of `part` are in `whole`, in the same order. */
  ghost predicate Within(part: seq<Payment>, whole: seq<Payment>) {
    forall i :: 0 <= i < |part| ==> Placed(part, whole, i)
  }

  ghost predicate Placed(part: seq<Payment>, whole: seq<Payment>, i: nat)
    requires i < |part|
  {
    exists k :: PlacedAt(part, whole, i, k)
  }

  ghost predicate PlacedAt(part: seq<Payment>, whole: seq<Payment>, i: nat, k: int)
    requires i < |part|
  {
    && 0 <= k < |whole| && whole[k] == part[i]
    && forall j :: i < j < |part| ==> part[j] in whole[k + 1..]
  }

  lemma WithinLonger(part: seq<Payment>, whole: seq<Payment>, p: Payment)
    requires Within(part, whole)
    ensures Within(part, whole + [p])
  {
    forall i | 0 <= i < |part| ensures Placed(part, whole + [p], i) {
      assert Placed(part, whole, i);
      var k :| PlacedAt(part, whole, i, k);
      assert (whole + [p])[k + 1..] == whole[k + 1..] + [p];
      assert PlacedAt(part, whole + [p], i, k);
    }
  }

  lemma WithinBoth(part: seq<Payment>, whole: seq<Payment>, p: Payment)
    requires Within(part, whole)
    ensures Within(part + [p], whole + [p])
  {
    forall i | 0 <= i < |part + [p]| ensures Placed(part + [p], whole + [p], i) {
      if i < |part| {
        assert Placed(part, whole, i);
        var k :| PlacedAt(part, whole, i, k);
        assert (whole + [p])[k + 1..] == whole[k + 1..] + [p];
        assert PlacedAt(part + [p], whole + [p], i, k);
      } else {
        assert PlacedAt(part + [p], whole + [p], i, |whole|);
      }
    }
  }

  lemma PartOfForest(part: seq<Payment>, whole: seq<Payment>)
    requires Within(part, whole) && IsForest(whole)
    ensures IsForest(part)
  {
    forall i | 0 <= i < |part| ensures part[i] in whole {
      assert Placed(part, whole, i);
      var k :| PlacedAt(part, whole, i, k);
    }
    forall i | 0 <= i < |part| ensures Hangs(part, i) {
      assert Placed(part, whole, i);
      var k :| PlacedAt(part, whole, i, k);
      assert Hangs(whole, k);
      forall j | i < j < |part| ensures exists l :: k < l < |whole| && whole[l] == part[j] {
        var l :| 0 <= l < |whole[k + 1..]| && whole[k + 1..][l] == part[j];
        assert whole[k + 1 + l] == part[j];
      }
    }
  }

  // ---- Only one way to move money ----------------------------------------------------------

  lemma {:induction false} NotInvolved(ts: seq<Payment>, b: BankId)
    requires forall i :: 0 <= i < |ts| ==> ts[i].payer != b && ts[i].payee != b
    ensures Net(ts, b) == 0
  {
    if ts != [] {
      assert forall i :: 0 <= i < |ts[1..]| ==> ts[1..][i] == ts[i + 1];
      NotInvolved(ts[1..], b);
    }
  }

  lemma NetOfFirst(ts: seq<Payment>, b: BankId)
    requires ts != []
    ensures Net(ts, b) ==
            (if b == ts[0].payee then ts[0].amount else 0) - (if b == ts[0].payer then ts[0].amount else 0)
            + Net(ts[1..], b)
  {
  }

  /** In a forest, amounts that leave every bank as it is are all zero. */
  lemma {:induction false} NoFlowWithoutEffect(ts: seq<Payment>)
    requires IsForest(ts) && forall b :: Net(ts, b) == 0
    ensures forall i :: 0 <= i < |ts| ==> ts[i].amount == 0
  {
    if ts != [] {
      var t, rest := ts[0], ts[1..];
      assert forall i :: 0 <= i < |rest| ==> rest[i] == ts[i + 1];
      assert Hangs(ts, 0);
      var b := if forall j :: 0 < j < |ts| ==> ts[j].payer != t.payer then t.payer else t.payee;
      assert t.payer != t.payee;
      NotInvolved(rest, b);
      hide Net;
      NetOfFirst(ts, b);
      assert t.amount == 0;
      forall c ensures Net(rest, c) == 0 { NetOfFirst(ts, c); }
      forall i | 0 <= i < |rest| ensures Hangs(rest, i) { assert Hangs(ts, i + 1); }
      NoFlowWithoutEffect(rest);
      forall i | 0 <= i < |ts| ensures ts[i].amount == 0 {
        if i > 0 { assert ts[i] == rest[i - 1]; }
      }
    }
  }
}
