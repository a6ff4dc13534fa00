/** When the greedy matching is optimal: if no smaller group of banks could settle among itself. */
module Optimality {
  import opened Netting

  /** The positions of some banks, added up. */
  function GroupTotal(p: Positions, banks: seq<BankId>): int {
    if banks == [] then 0 else p.Get(banks[0]) + GroupTotal(p, banks[1..])
  }

  /** A group of unbalanced banks that settle among themselves comprises all of them. */
  ghost predicate Indivisible(p: Positions) {
    forall banks ::
      NoDuplicates(banks) && banks != [] && (forall b :: b in banks ==> p.Get(b) != 0) && GroupTotal(p, banks) == 0 ==>
        forall b :: p.Get(b) != 0 ==> b in banks
  }

  // ---- The banks that a list of payments connects ------------------------------------------

  predicate Crosses(t: Payment, banks: seq<BankId>) { (t.payer in banks) != (t.payee in banks) }

  function FirstCrossing(ts: seq<Payment>, banks: seq<BankId>): (i: nat)
    ensures i <= |ts|
    ensures i < |ts| ==> Crosses(ts[i], banks)
    ensures i == |ts| ==> forall k :: 0 <= k < |ts| ==> !Crosses(ts[k], banks)
  {
    if ts == [] then 0 else if Crosses(ts[0], banks) then 0 else 1 + FirstCrossing(ts[1..], banks)
  }

  /** Grows a group along the payments that leave it, each of which is used once. */
  function Connected(ts: seq<Payment>, banks: seq<BankId>): seq<BankId>
    decreases |ts|
  {
    var i := FirstCrossing(ts, banks);
    if i == |ts| then banks
    else
      var t := ts[i];
      Connected(ts[..i] + ts[i + 1..], banks + [if t.payer in banks then t.payee else t.payer])
  }

  /** Growing keeps the group, adds at most a bank for each payment, and ends when none leaves it. */
  lemma {:induction false} ConnectedIsClosed(ts: seq<Payment>, banks: seq<BankId>)
    requires NoDuplicates(banks)
    ensures var all := Connected(ts, banks);
            && NoDuplicates(all) && |all| <= |banks| + |ts| && (forall b :: b in banks ==> b in all)
            && forall k :: 0 <= k < |ts| ==> !Crosses(ts[k], all)
    decreases |ts|
  {
    var i := FirstCrossing(ts, banks);
    if i < |ts| {
      var t := ts[i];
      var rest, next := ts[..i] + ts[i + 1..], if t.payer in banks then t.payee else t.payer;
      var more := banks + [next];
      assert next in more;
      assert NoDuplicates(more);
      ConnectedIsClosed(rest, more);
      var all := Connected(ts, banks);
      assert t.payer in more && t.payee in more;
      forall k | 0 <= k < |ts| ensures !Crosses(ts[k], all) {
        if k < i { assert rest[k] == ts[k]; } else if k > i { assert rest[k - 1] == ts[k]; }
      }
    }
  }

  // ---- A closed group settles among itself -------------------------------------------------

  function Inside(ts: seq<Payment>, banks: seq<BankId>): seq<Payment> {
    if ts == [] then [] else (if ts[0].payer in banks then [ts[0]] else []) + Inside(ts[1..], banks)
  }

  lemma {:induction false} InsideIsAll(ts: seq<Payment>, banks: seq<BankId>, b: BankId)
    requires forall k :: 0 <= k < |ts| ==> !Crosses(ts[k], banks)
    requires b in banks
    ensures Net(Inside(ts, banks), b) == Net(ts, b)
    ensures forall t :: t in Inside(ts, banks) ==> t.payer in banks && t.payee in banks
  {
    if ts != [] {
      assert forall k :: 0 <= k < |ts[1..]| ==> ts[1..][k] == ts[k + 1];
      InsideIsAll(ts[1..], banks, b);
      assert !Crosses(ts[0], banks);
      var rest := Inside(ts[1..], banks);
      if ts[0].payer in banks {
        assert ([ts[0]] + rest)[1..] == rest;
      } else {
        assert [] + rest == rest;
      }
    }
  }

  lemma {:induction false} TotalIsNet(p: Positions, banks: seq<BankId>, ts: seq<Payment>)
    requires forall b :: b in banks ==> Net(ts, b) == p.Get(b)
    ensures GroupTotal(p, banks) == SumNet(banks, ts)
  {
    if banks != [] { TotalIsNet(p, banks[1..], ts); }
  }

  lemma ClosedGroupsSettle(p: Positions, ts: seq<Payment>, banks: seq<BankId>)
    requires Settles(ts, p) && NoDuplicates(banks) && banks != []
    requires forall k :: 0 <= k < |ts| ==> !Crosses(ts[k], banks)
    ensures GroupTotal(p, banks) == 0
  {
    forall b | b in banks ensures Net(Inside(ts, banks), b) == p.Get(b) { InsideIsAll(ts, banks, b); }
    InsideIsAll(ts, banks, banks[0]);
    TotalIsNet(p, banks, Inside(ts, banks));
    NetSumsToZero(banks, Inside(ts, banks));
  }

  function OnlyUnbalanced(p: Positions, banks: seq<BankId>): seq<BankId> {
    if banks == [] then []
    else (if p.Get(banks[0]) != 0 then [banks[0]] else []) + OnlyUnbalanced(p, banks[1..])
  }

  lemma {:induction false} BalancedDoNotMatter(p: Positions, banks: seq<BankId>)
    requires NoDuplicates(banks)
    ensures var some := OnlyUnbalanced(p, banks);
            && GroupTotal(p, some) == GroupTotal(p, banks) && NoDuplicates(some)
            && forall b :: b in some <==> b in banks && p.Get(b) != 0
  {
    if banks != [] {
      var b0, rest := banks[0], banks[1..];
      assert NoDuplicates(rest);
      BalancedDoNotMatter(p, rest);
      var some := OnlyUnbalanced(p, rest);
      assert b0 !in rest;
      assert forall b :: b in banks <==> b == b0 || b in rest;
      if p.Get(b0) != 0 {
        assert OnlyUnbalanced(p, banks) == [b0] + some && ([b0] + some)[1..] == some;
      } else {
        assert OnlyUnbalanced(p, banks) == some;
      }
    }
  }

  // ---- Counting ----------------------------------------------------------------------------

  lemma {:induction false} PoolBanksAre(ps: seq<Party>)
    requires Pool(ps)
    ensures |ps| == |PoolBanks(ps)|
    ensures forall b :: b in PoolBanks(ps) <==> InPool(ps, b)
  {
    if ps != [] {
      PoolTail(ps);
      PoolBanksAre(ps[1..]);
    }
  }

  function PoolBanks(ps: seq<Party>): set<BankId> {
    if ps == [] then {} else {ps[0].bank} + PoolBanks(ps[1..])
  }

  lemma {:induction false} SetOf(banks: seq<BankId>, s: set<BankId>)
    requires forall b :: b in s ==> b in banks
    ensures |s| <= |banks|
    decreases |banks|
  {
    if banks == [] {
      assert s == {};
    } else {
      assert forall b :: b in s - {banks[0]} ==> b in banks[1..];
      SetOf(banks[1..], s - {banks[0]});
    }
  }

  lemma UnbalancedFitIn(p: Positions, banks: seq<BankId>)
    requires p.Valid() && forall b :: p.Get(b) != 0 ==> b in banks
    ensures Unbalanced(p) <= |banks|
  {
    var ds, cs := SortedPools(p);
    PoolBanksAre(ds);
    PoolBanksAre(cs);
    assert PoolBanks(ds) !! PoolBanks(cs);
    assert |PoolBanks(ds) + PoolBanks(cs)| == |ds| + |cs|;
    SetOf(banks, PoolBanks(ds) + PoolBanks(cs));
  }

  /** If the unbalanced banks are indivisible, any way to settle takes a transfer less than there are of
      them, so that no list of payments is shorter than the greedy one. */
  lemma GreedyIsOptimal(p: Positions, ts: seq<Payment>)
    requires p.Valid() && Indivisible(p) && Settles(ts, p)
    ensures Unbalanced(p) - 1 <= |ts| && |Greedy(p)| <= |ts|
  {
    GreedyIsSmallAndWellFormed(p);
    if Unbalanced(p) > 0 {
      var b := SomeUnbalanced(p);
      var all := Connected(ts, [b]);
      ConnectedIsClosed(ts, [b]);
      assert b in [b];
      ClosedGroupsSettle(p, ts, all);
      BalancedDoNotMatter(p, all);
      var some := OnlyUnbalanced(p, all);
      assert b in some;
      UnbalancedFitIn(p, all);
    }
  }

  lemma SomeUnbalanced(p: Positions) returns (b: BankId)
    requires p.Valid() && Unbalanced(p) > 0
    ensures p.Get(b) != 0
  {
    var ds, cs := SortedPools(p);
    if ds != [] {
      b := ds[0].bank;
      assert ds[0] in ds && InPool(ds, b);
    } else {
      b := cs[0].bank;
      assert cs[0] in cs && InPool(cs, b);
    }
  }
}
