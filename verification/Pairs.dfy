/** Payments sorted out by the pair of banks they are between. */
module Pairs {
  import opened Netting
  import opened Forest

  function PairSum(ps: seq<Payment>, payer: BankId, payee: BankId): int {
    if ps == [] then 0
    else (if ps[0].payer == payer && ps[0].payee == payee then ps[0].amount else 0) + PairSum(ps[1..], payer, payee)
  }

  predicate HasPair(ts: seq<Payment>, p: Payment) {
    exists i :: 0 <= i < |ts| && ts[i].payer == p.payer && ts[i].payee == p.payee
  }

  /** The payments of `ps` between two banks that some payment of `ts` is between. */
  function Between(ps: seq<Payment>, ts: seq<Payment>): seq<Payment> {
    if ps == [] then [] else (if HasPair(ts, ps[0]) then [ps[0]] else []) + Between(ps[1..], ts)
  }

  ghost predicate NoPairTwice(ts: seq<Payment>) {
    forall i, j :: 0 <= i < j < |ts| ==> !(ts[i].payer == ts[j].payer && ts[i].payee == ts[j].payee)
  }

  /** Net effect of one payment. */
  function Effect(p: Payment, b: BankId): int {
    (if b == p.payee then p.amount else 0) - (if b == p.payer then p.amount else 0)
  }

  lemma NetCons(p: Payment, ps: seq<Payment>, b: BankId)
    ensures Net([p] + ps, b) == Effect(p, b) + Net(ps, b)
  {
    Single(p, b);
    Concat([p], ps, b);
  }

  lemma HasPairCons(t: Payment, ts: seq<Payment>, p: Payment)
    ensures HasPair([t] + ts, p) <==> (t.payer == p.payer && t.payee == p.payee) || HasPair(ts, p)
  {
    var all := [t] + ts;
    assert all[0] == t;
    if HasPair(ts, p) {
      var i :| 0 <= i < |ts| && ts[i].payer == p.payer && ts[i].payee == p.payee;
      assert all[i + 1] == ts[i];
    }
  }

  lemma BetweenCons(p: Payment, ps: seq<Payment>, ts: seq<Payment>, b: BankId)
    ensures Between([p] + ps, ts) == (if HasPair(ts, p) then [p] else []) + Between(ps, ts)
    ensures Net(Between([p] + ps, ts), b) == (if HasPair(ts, p) then Effect(p, b) else 0) + Net(Between(ps, ts), b)
  {
    hide HasPair, Net;
    assert ([p] + ps)[1..] == ps;
    if HasPair(ts, p) { NetCons(p, Between(ps, ts), b); } else { assert [] + Between(ps, ts) == Between(ps, ts); }
  }

  lemma {:induction false} BetweenAdds(ps: seq<Payment>, t: Payment, ts: seq<Payment>, b: BankId)
    requires !HasPair(ts, t)
    ensures Net(Between(ps, [t] + ts), b) == Net(Between(ps, [t]), b) + Net(Between(ps, ts), b)
  {
    hide Between, HasPair, Net, Effect;
    if ps == [] {
      NothingBetween(t, ts, b);
    } else {
      var p, rest := ps[0], ps[1..];
      BetweenAdds(rest, t, ts, b);
      assert ps == [p] + rest;
      BetweenCons(p, rest, [t] + ts, b);
      BetweenCons(p, rest, [t], b);
      BetweenCons(p, rest, ts, b);
      HasPairCons(t, ts, p);
      OnePair(t, p);
      if t.payer == p.payer && t.payee == p.payee { SamePair(ts, t, p); }
    }
  }

  lemma NothingBetween(t: Payment, ts: seq<Payment>, b: BankId)
    ensures Between([], [t] + ts) == [] && Between([], [t]) == [] && Between([], ts) == [] && Net([], b) == 0
  {
  }

  lemma OnePair(t: Payment, p: Payment)
    ensures HasPair([t], p) <==> t.payer == p.payer && t.payee == p.payee
  {
    assert [t][0] == t;
  }

  lemma SamePair(ts: seq<Payment>, t: Payment, p: Payment)
    requires t.payer == p.payer && t.payee == p.payee
    ensures HasPair(ts, t) <==> HasPair(ts, p)
  {
  }

  lemma {:induction false} BetweenOne(ps: seq<Payment>, t: Payment, b: BankId)
    ensures Net(Between(ps, [t]), b) == Effect(t.(amount := PairSum(ps, t.payer, t.payee)), b)
  {
    if ps == [] {
      NothingBetween(t, [], b);
    } else {
      hide HasPair, Net, Between;
      BetweenOne(ps[1..], t, b);
      assert ps == [ps[0]] + ps[1..];
      BetweenCons(ps[0], ps[1..], [t], b);
      OnePair(t, ps[0]);
    }
  }

  /** A payment, less the sum of those between its two banks. */
  function ExcessOf(ps: seq<Payment>, t: Payment): Payment {
    t.(amount := t.amount - PairSum(ps, t.payer, t.payee))
  }

  /** By how much each payment of `ts` exceeds the sum of those between its two banks. */
  function Excess(ps: seq<Payment>, ts: seq<Payment>): (r: seq<Payment>)
    ensures |r| == |ts|
    ensures forall i :: 0 <= i < |ts| ==> r[i] == ExcessOf(ps, ts[i])
  {
    if ts == [] then [] else [ExcessOf(ps, ts[0])] + Excess(ps, ts[1..])
  }

  lemma FirstPair(ts: seq<Payment>)
    requires NoPairTwice(ts) && ts != []
    ensures NoPairTwice(ts[1..]) && !HasPair(ts[1..], ts[0])
  {
    assert forall i :: 0 <= i < |ts[1..]| ==> ts[1..][i] == ts[i + 1];
  }

  lemma ExcessCons(ps: seq<Payment>, t: Payment, ts: seq<Payment>)
    ensures Excess(ps, [t] + ts) == [ExcessOf(ps, t)] + Excess(ps, ts)
  {
    hide PairSum;
    assert ([t] + ts)[1..] == ts;
  }

  lemma OneMoreExcess(ps: seq<Payment>, t: Payment, ts: seq<Payment>, b: BankId)
    requires !HasPair(ts, t) && Net(Excess(ps, ts), b) == Net(ts, b) - Net(Between(ps, ts), b)
    ensures Net(Excess(ps, [t] + ts), b) == Net([t] + ts, b) - Net(Between(ps, [t] + ts), b)
  {
    hide Net, Between, HasPair, PairSum, Excess;
    ExcessCons(ps, t, ts);
    BetweenAdds(ps, t, ts, b);
    BetweenOne(ps, t, b);
    NetCons(t, ts, b);
    NetCons(ExcessOf(ps, t), Excess(ps, ts), b);
  }

  lemma {:induction false} ExcessIsDifference(ps: seq<Payment>, ts: seq<Payment>, b: BankId)
    requires NoPairTwice(ts)
    ensures Net(Excess(ps, ts), b) == Net(ts, b) - Net(Between(ps, ts), b)
  {
    if ts == [] {
      NoPairsNothingBetween(ps);
    } else {
      hide Net, Between, HasPair, PairSum, Excess, NoPairTwice;
      FirstPair(ts);
      ExcessIsDifference(ps, ts[1..], b);
      OneMoreExcess(ps, ts[0], ts[1..], b);
      assert ts == [ts[0]] + ts[1..];
    }
  }

  /** Each payment of `ts` is the sum of those between its two banks. */
  ghost predicate SumsOf(ps: seq<Payment>, ts: seq<Payment>) {
    forall i :: 0 <= i < |ts| ==> ts[i].amount == PairSum(ps, ts[i].payer, ts[i].payee)
  }

  lemma {:induction false} NoAmountNoEffect(ts: seq<Payment>, b: BankId)
    requires forall i :: 0 <= i < |ts| ==> ts[i].amount == 0
    ensures Net(ts, b) == 0
  {
    if ts != [] {
      assert forall i :: 0 <= i < |ts[1..]| ==> ts[1..][i] == ts[i + 1];
      NoAmountNoEffect(ts[1..], b);
    }
  }

  /** If each payment of `ts` is the sum of those it stands for, the two move the same money. */
  lemma MatchingSumsBalance(ps: seq<Payment>, ts: seq<Payment>, b: BankId)
    requires NoPairTwice(ts) && SumsOf(ps, ts)
    ensures Net(Between(ps, ts), b) == Net(ts, b)
  {
    ExcessIsDifference(ps, ts, b);
    NoAmountNoEffect(Excess(ps, ts), b);
  }

  /** For a forest the converse holds too. */
  lemma BalanceIffSums(ps: seq<Payment>, ts: seq<Payment>)
    requires NoPairTwice(ts) && IsForest(ts)
    ensures (forall b :: Net(ts, b) == Net(Between(ps, ts), b)) <==> SumsOf(ps, ts)
  {
    hide Net, Between, PairSum, NoPairTwice;
    if SumsOf(ps, ts) {
      forall b ensures Net(ts, b) == Net(Between(ps, ts), b) { MatchingSumsBalance(ps, ts, b); }
    }
    if forall b :: Net(ts, b) == Net(Between(ps, ts), b) {
      var xs := Excess(ps, ts);
      forall i | 0 <= i < |xs| ensures Hangs(xs, i) { assert Hangs(ts, i); }
      forall b ensures Net(xs, b) == 0 { ExcessIsDifference(ps, ts, b); }
      NoFlowWithoutEffect(xs);
      forall i | 0 <= i < |ts| ensures ts[i].amount == PairSum(ps, ts[i].payer, ts[i].payee) {
        assert xs[i].amount == 0;
      }
    }
  }

  lemma {:induction false} NoPairsNothingBetween(ps: seq<Payment>)
    ensures Between(ps, []) == []
  {
    if ps != [] { NoPairsNothingBetween(ps[1..]); }
  }
}
