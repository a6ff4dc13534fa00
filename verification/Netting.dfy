/** Multilateral netting: obligations between banks are folded into net positions, and the
    positions are settled by a greedy two-pool matching.  Amounts are whole cents. */
module Netting {

  type BankId = nat

  /** An obligation before netting and a transfer after it have the same shape. */
  datatype Payment = Payment(payer: BankId, payee: BankId, amount: int)
  type Obligation = Payment
  type NetTransfer = Payment

  // ---- What a list of payments does to a bank ----------------------------------------------

  function Paid(ps: seq<Payment>, b: BankId): int {
    if ps == [] then 0 else (if ps[0].payer == b then ps[0].amount else 0) + Paid(ps[1..], b)
  }

  function Received(ps: seq<Payment>, b: BankId): int {
    if ps == [] then 0 else (if ps[0].payee == b then ps[0].amount else 0) + Received(ps[1..], b)
  }

  function Net(ps: seq<Payment>, b: BankId): int {
    Received(ps, b) - Paid(ps, b)
  }

  function Volume(ps: seq<Payment>): int {
    if ps == [] then 0 else ps[0].amount + Volume(ps[1..])
  }

  predicate Positive(ps: seq<Payment>) {
    forall p :: p in ps ==> p.amount > 0
  }

  /** The constraints of the transfer table, and no bank pair twice. */
  ghost predicate WellFormed(ts: seq<NetTransfer>) {
    && Positive(ts)
    && (forall t :: t in ts ==> t.payer != t.payee)
    && (forall i, j :: 0 <= i < j < |ts| ==> !(ts[i].payer == ts[j].payer && ts[i].payee == ts[j].payee))
  }

  lemma {:induction false} Concat(ps: seq<Payment>, qs: seq<Payment>, b: BankId)
    ensures Paid(ps + qs, b) == Paid(ps, b) + Paid(qs, b)
    ensures Received(ps + qs, b) == Received(ps, b) + Received(qs, b)
    ensures Net(ps + qs, b) == Net(ps, b) + Net(qs, b)
    ensures Volume(ps + qs) == Volume(ps) + Volume(qs)
  {
    if ps == [] {
      assert ps + qs == qs;
    } else {
      assert (ps + qs)[1..] == ps[1..] + qs;
      Concat(ps[1..], qs, b);
    }
  }

  // ---- Net positions -----------------------------------------------------------------------

  /** A dictionary that iterates in insertion order. */
  datatype Positions = Positions(order: seq<BankId>, net: map<BankId, int>) {
    ghost predicate Valid() {
      && NoDuplicates(order)
      && forall b :: b in order <==> b in net
    }

    function Get(b: BankId): int {
      if b in net then net[b] else 0
    }

    function Put(b: BankId, v: int): Positions {
      Positions(if b in net then order else order + [b], net[b := v])
    }
  }

  ghost predicate NoDuplicates(s: seq<BankId>) {
    forall i, j :: 0 <= i < j < |s| ==> s[i] != s[j]
  }

  function Post(p: Positions, o: Obligation): Positions {
    var q := p.Put(o.payer, p.Get(o.payer) - o.amount);
    q.Put(o.payee, q.Get(o.payee) + o.amount)
  }

  function NetPositions(obligations: seq<Obligation>): Positions {
    if obligations == [] then Positions([], map[])
    else Post(NetPositions(obligations[..|obligations| - 1]), obligations[|obligations| - 1])
  }

  method CalculateNetPositions(obligations: seq<Obligation>) returns (positions: Positions)
    ensures positions == NetPositions(obligations)
  {
    hide Positions.Put, Positions.Get;
    positions := Positions([], map[]);
    for i := 0 to |obligations|
      invariant positions == NetPositions(obligations[..i])
    {
      var obl := obligations[i];
      positions := positions.Put(obl.payer, positions.Get(obl.payer) - obl.amount);
      positions := positions.Put(obl.payee, positions.Get(obl.payee) + obl.amount);
      assert obligations[..i + 1][..i] == obligations[..i];
    }
    assert obligations[..|obligations|] == obligations;
  }

  function Total(order: seq<BankId>, net: map<BankId, int>): int
    requires forall b :: b in order ==> b in net
  {
    if order == [] then 0 else net[order[0]] + Total(order[1..], net)
  }

  lemma PutCorrect(p: Positions, b: BankId, v: int)
    requires p.Valid()
    ensures p.Put(b, v).Valid()
    ensures forall c :: c in p.Put(b, v).net <==> c == b || c in p.net
    ensures forall c :: p.Put(b, v).Get(c) == if c == b then v else p.Get(c)
  {
    if b !in p.net {
      assert b !in p.order;
      var order := p.order + [b];
      forall c ensures c in order <==> c == b || c in p.order {
        if c == b { assert order[|p.order|] == b; }
      }
    }
  }

  lemma PostCorrect(p: Positions, o: Obligation)
    requires p.Valid()
    ensures Post(p, o).Valid()
    ensures forall b :: b in Post(p, o).net <==> b == o.payer || b == o.payee || b in p.net
    ensures forall b :: Post(p, o).Get(b) == p.Get(b) + Net([o], b)
  {
    hide Net, Positions.Valid, Positions.Put, Positions.Get;
    var q := p.Put(o.payer, p.Get(o.payer) - o.amount);
    PutCorrect(p, o.payer, p.Get(o.payer) - o.amount);
    PutCorrect(q, o.payee, q.Get(o.payee) + o.amount);
    forall b ensures Post(p, o).Get(b) == p.Get(b) + Net([o], b) {
      Single(o, b);
    }
  }

  lemma Single(o: Payment, b: BankId)
    ensures Net([o], b) == (if b == o.payee then o.amount else 0) - (if b == o.payer then o.amount else 0)
  {
    assert [o][1..] == [];
    assert Received([], b) == 0 && Paid([], b) == 0;
  }

  ghost predicate Occurs(ps: seq<Payment>, b: BankId) {
    exists p :: p in ps && (p.payer == b || p.payee == b)
  }

  lemma OccursAppend(ps: seq<Payment>, p: Payment, b: BankId)
    ensures Occurs(ps + [p], b) <==> Occurs(ps, b) || p.payer == b || p.payee == b
  {
    var all := ps + [p];
    assert all[|ps|] == p;
    if Occurs(ps, b) {
      var q :| q in ps && (q.payer == b || q.payee == b);
      assert q in all;
    }
  }

  /** `p` holds exactly the banks of `ps`, each with received minus paid. */
  ghost predicate Summarises(p: Positions, ps: seq<Payment>) {
    && p.Valid()
    && (forall b :: b in p.net <==> Occurs(ps, b))
    && (forall b :: p.Get(b) == Net(ps, b))
  }

  lemma PostSummarises(p: Positions, ps: seq<Payment>, o: Obligation)
    requires Summarises(p, ps)
    ensures Summarises(Post(p, o), ps + [o])
  {
    hide Net, Occurs, Post, Positions.Valid, Positions.Get;
    PostCorrect(p, o);
    forall b
      ensures b in Post(p, o).net <==> Occurs(ps + [o], b)
      ensures Post(p, o).Get(b) == Net(ps + [o], b)
    {
      OccursAppend(ps, o, b);
      Concat(ps, [o], b);
    }
  }

  lemma InitAndLast(ps: seq<Payment>)
    requires ps != []
    ensures ps == ps[..|ps| - 1] + [ps[|ps| - 1]]
  {
  }

  /** The fold is correct. */
  lemma {:induction false} NetPositionsCorrect(obligations: seq<Obligation>)
    ensures Summarises(NetPositions(obligations), obligations)
  {
    if obligations != [] {
      hide Summarises, Post;
      var n := |obligations| - 1;
      var init, last := obligations[..n], obligations[n];
      NetPositionsCorrect(init);
      PostSummarises(NetPositions(init), init, last);
      InitAndLast(obligations);
    }
  }

  // ---- Sums over distinct banks ------------------------------------------------------------

  function SumNet(order: seq<BankId>, ps: seq<Payment>): int {
    if order == [] then 0 else Net(ps, order[0]) + SumNet(order[1..], ps)
  }

  function SumPaid(order: seq<BankId>, ps: seq<Payment>): int {
    if order == [] then 0 else Paid(ps, order[0]) + SumPaid(order[1..], ps)
  }

  function Hits(order: seq<BankId>, b: BankId, amount: int): int {
    if order == [] then 0 else (if order[0] == b then amount else 0) + Hits(order[1..], b, amount)
  }

  lemma {:induction false} HitsOnce(order: seq<BankId>, b: BankId, amount: int)
    requires NoDuplicates(order)
    ensures Hits(order, b, amount) == if b in order then amount else 0
  {
    if order != [] {
      HitsOnce(order[1..], b, amount);
      assert b in order <==> b == order[0] || b in order[1..];
      assert order[0] !in order[1..];
    }
  }

  lemma {:induction false} SumsSplit(order: seq<BankId>, p: Payment, ps: seq<Payment>)
    ensures SumPaid(order, [p] + ps) == Hits(order, p.payer, p.amount) + SumPaid(order, ps)
    ensures SumNet(order, [p] + ps) ==
            Hits(order, p.payee, p.amount) - Hits(order, p.payer, p.amount) + SumNet(order, ps)
  {
    if order != [] {
      SumsSplit(order[1..], p, ps);
      assert ([p] + ps)[1..] == ps;
    }
  }

  lemma {:induction false} SumsOverEmpty(order: seq<BankId>)
    ensures SumNet(order, []) == 0 && SumPaid(order, []) == 0
  {
    if order != [] { SumsOverEmpty(order[1..]); }
  }

  /** Double entry: over all banks concerned, net positions cancel. */
  lemma {:induction false} NetSumsToZero(order: seq<BankId>, ps: seq<Payment>)
    requires NoDuplicates(order)
    requires forall p :: p in ps ==> p.payer in order && p.payee in order
    ensures SumNet(order, ps) == 0
  {
    if ps == [] {
      SumsOverEmpty(order);
    } else {
      var p := ps[0];
      assert ps == [p] + ps[1..];
      NetSumsToZero(order, ps[1..]);
      SumsSplit(order, p, ps[1..]);
      HitsOnce(order, p.payer, p.amount);
      HitsOnce(order, p.payee, p.amount);
    }
  }

  lemma {:induction false} SumPaidAtMostVolume(order: seq<BankId>, ps: seq<Payment>)
    requires NoDuplicates(order)
    requires forall p :: p in ps ==> p.amount >= 0
    ensures SumPaid(order, ps) <= Volume(ps)
  {
    if ps == [] {
      SumsOverEmpty(order);
    } else {
      assert ps == [ps[0]] + ps[1..];
      SumPaidAtMostVolume(order, ps[1..]);
      SumsSplit(order, ps[0], ps[1..]);
      HitsOnce(order, ps[0].payer, ps[0].amount);
    }
  }

  lemma {:induction false} TotalIsSumNet(order: seq<BankId>, net: map<BankId, int>, ps: seq<Payment>)
    requires forall b :: b in order ==> b in net && net[b] == Net(ps, b)
    ensures Total(order, net) == SumNet(order, ps)
  {
    if order != [] { TotalIsSumNet(order[1..], net, ps); }
  }

  /** The sanity check of the fold never fails: positions always total zero. */
  lemma PositionsBalance(obligations: seq<Obligation>)
    ensures NetPositions(obligations).Valid()
    ensures Total(NetPositions(obligations).order, NetPositions(obligations).net) == 0
  {
    NetPositionsCorrect(obligations);
    var p := NetPositions(obligations);
    forall b | b in p.order ensures p.net[b] == Net(obligations, b) {
      assert p.Get(b) == Net(obligations, b);
    }
    TotalIsSumNet(p.order, p.net, obligations);
    forall o | o in obligations ensures o.payer in p.order && o.payee in p.order {
      assert o.payer in p.net && o.payee in p.net;
    }
    NetSumsToZero(p.order, obligations);
  }

  // ---- The two pools -----------------------------------------------------------------------

  datatype Party = Party(bank: BankId, amount: int)

  function Debtors(order: seq<BankId>, net: map<BankId, int>): (r: seq<Party>)
    requires forall b :: b in order ==> b in net
  {
    if order == [] then []
    else if net[order[0]] < 0 then [Party(order[0], -net[order[0]])] + Debtors(order[1..], net)
    else Debtors(order[1..], net)
  }

  function Creditors(order: seq<BankId>, net: map<BankId, int>): (r: seq<Party>)
    requires forall b :: b in order ==> b in net
  {
    if order == [] then []
    else if net[order[0]] > 0 then [Party(order[0], net[order[0]])] + Creditors(order[1..], net)
    else Creditors(order[1..], net)
  }

  function Owed(ps: seq<Party>, b: BankId): int {
    if ps == [] then 0 else (if ps[0].bank == b then ps[0].amount else 0) + Owed(ps[1..], b)
  }

  function Sum(ps: seq<Party>): int {
    if ps == [] then 0 else ps[0].amount + Sum(ps[1..])
  }

  ghost predicate Pool(ps: seq<Party>) {
    && (forall p :: p in ps ==> p.amount > 0)
    && (forall i, j :: 0 <= i < j < |ps| ==> ps[i].bank != ps[j].bank)
  }

  ghost predicate InPool(ps: seq<Party>, b: BankId) {
    exists p :: p in ps && p.bank == b
  }

  lemma FirstBank(order: seq<BankId>, net: map<BankId, int>)
    requires order != [] && forall b :: b in order ==> b in net
    ensures net[order[0]] < 0 ==> Debtors(order, net) == [Party(order[0], -net[order[0]])] + Debtors(order[1..], net)
    ensures net[order[0]] >= 0 ==> Debtors(order, net) == Debtors(order[1..], net)
    ensures net[order[0]] > 0 ==> Creditors(order, net) == [Party(order[0], net[order[0]])] + Creditors(order[1..], net)
    ensures net[order[0]] <= 0 ==> Creditors(order, net) == Creditors(order[1..], net)
  {
  }

  /** Debtors are the banks below zero, creditors those above; balanced banks are in neither. */
  lemma {:induction false} PoolsOfPositions(order: seq<BankId>, net: map<BankId, int>)
    requires NoDuplicates(order) && forall b :: b in order ==> b in net
    ensures Pool(Debtors(order, net)) && Pool(Creditors(order, net))
    ensures forall b :: InPool(Debtors(order, net), b) <==> b in order && net[b] < 0
    ensures forall b :: InPool(Creditors(order, net), b) <==> b in order && net[b] > 0
  {
    if order != [] {
      hide Pool, InPool, Debtors, Creditors;
      var b0, rest := order[0], order[1..];
      PoolsOfPositions(rest, net);
      FirstBank(order, net);
      assert b0 !in rest;
      assert forall b :: b in order <==> b == b0 || b in rest;
      if net[b0] < 0 {
        PoolCons(Party(b0, -net[b0]), Debtors(rest, net));
      } else if net[b0] > 0 {
        PoolCons(Party(b0, net[b0]), Creditors(rest, net));
      }
    } else {
      assert forall b :: !InPool([], b);
    }
  }

  lemma {:induction false} PoolsHoldPositions(order: seq<BankId>, net: map<BankId, int>, b: BankId)
    requires NoDuplicates(order) && forall c :: c in order ==> c in net
    ensures Owed(Creditors(order, net), b) - Owed(Debtors(order, net), b) == if b in order then net[b] else 0
    ensures Sum(Creditors(order, net)) - Sum(Debtors(order, net)) == Total(order, net)
  {
    if order != [] {
      hide Debtors, Creditors;
      var b0, rest := order[0], order[1..];
      PoolsHoldPositions(rest, net, b);
      FirstBank(order, net);
      assert b0 !in rest && (b in order <==> b == b0 || b in rest);
      OwedCons(Party(b0, -net[b0]), Debtors(rest, net), b);
      OwedCons(Party(b0, net[b0]), Creditors(rest, net), b);
    }
  }

  lemma OwedCons(p: Party, ps: seq<Party>, b: BankId)
    ensures Owed([p] + ps, b) == (if b == p.bank then p.amount else 0) + Owed(ps, b)
    ensures Sum([p] + ps) == p.amount + Sum(ps)
  {
    assert ([p] + ps)[1..] == ps;
  }

  lemma PoolCons(p: Party, ps: seq<Party>)
    requires Pool(ps) && p.amount > 0 && !InPool(ps, p.bank)
    ensures Pool([p] + ps)
    ensures forall b :: InPool([p] + ps, b) <==> b == p.bank || InPool(ps, b)
    ensures forall b :: Owed([p] + ps, b) == (if b == p.bank then p.amount else 0) + Owed(ps, b)
    ensures Sum([p] + ps) == p.amount + Sum(ps)
  {
    var qs := [p] + ps;
    assert qs[1..] == ps;
    forall i | 0 <= i < |ps| ensures ps[i].bank != p.bank {
      assert ps[i] in ps;
    }
    forall b ensures InPool(qs, b) <==> b == p.bank || InPool(ps, b) {
      if b == p.bank { assert p in qs; }
      if InPool(ps, b) { var q :| q in ps && q.bank == b; assert q in qs; }
    }
  }

  /** A pool without its head. */
  lemma PoolTail(ps: seq<Party>)
    requires Pool(ps) && ps != []
    ensures Pool(ps[1..]) && !InPool(ps[1..], ps[0].bank) && ps[0].amount > 0
    ensures forall b :: InPool(ps, b) <==> b == ps[0].bank || InPool(ps[1..], b)
    ensures forall b :: Owed(ps, b) == (if b == ps[0].bank then ps[0].amount else 0) + Owed(ps[1..], b)
    ensures Sum(ps) == ps[0].amount + Sum(ps[1..])
  {
    var rest := ps[1..];
    assert ps[0] in ps;
    assert forall i :: 0 <= i < |rest| ==> rest[i] == ps[i + 1];
    assert !InPool(rest, ps[0].bank);
    hide Pool;
    assert ps == [ps[0]] + rest;
    PoolCons(ps[0], rest);
  }

  // ---- Stable sort, largest first ----------------------------------------------------------

  function Insert(p: Party, ps: seq<Party>): seq<Party> {
    if ps == [] || p.amount >= ps[0].amount then [p] + ps else [ps[0]] + Insert(p, ps[1..])
  }

  function LargestFirst(ps: seq<Party>): seq<Party> {
    if ps == [] then [] else Insert(ps[0], LargestFirst(ps[1..]))
  }

  ghost predicate Descending(ps: seq<Party>) {
    forall i, j :: 0 <= i < j < |ps| ==> ps[i].amount >= ps[j].amount
  }

  function OfAmount(ps: seq<Party>, v: int): seq<Party> {
    if ps == [] then [] else (if ps[0].amount == v then [ps[0]] else []) + OfAmount(ps[1..], v)
  }

  lemma {:induction false} InsertPermutes(p: Party, ps: seq<Party>)
    ensures multiset(Insert(p, ps)) == multiset(ps) + multiset{p}
  {
    if !(ps == [] || p.amount >= ps[0].amount) {
      InsertPermutes(p, ps[1..]);
      assert ps == [ps[0]] + ps[1..];
    }
  }

  lemma {:induction false} InsertSorts(p: Party, ps: seq<Party>)
    requires Descending(ps)
    ensures Descending(Insert(p, ps))
    ensures forall x :: x in Insert(p, ps) ==> x == p || x in ps
  {
    if ps == [] || p.amount >= ps[0].amount {
      ConsDescending(p, ps);
    } else {
      InsertSorts(p, ps[1..]);
      ConsDescending(ps[0], Insert(p, ps[1..]));
    }
  }

  lemma ConsDescending(p: Party, ps: seq<Party>)
    requires Descending(ps) && forall x :: x in ps ==> p.amount >= x.amount || (ps[0] in ps && p.amount >= ps[0].amount)
    ensures Descending([p] + ps)
  {
    var r := [p] + ps;
    forall i, j | 0 <= i < j < |r| ensures r[i].amount >= r[j].amount {
      assert r[j] == ps[j - 1];
      if i == 0 {
        assert ps[j - 1] in ps;
      } else {
        assert r[i] == ps[i - 1];
      }
    }
  }

  lemma OfAmountCons(p: Party, ps: seq<Party>, v: int)
    ensures OfAmount([p] + ps, v) == (if p.amount == v then [p] else []) + OfAmount(ps, v)
  {
    assert ([p] + ps)[1..] == ps;
  }

  lemma {:induction false} InsertIsStable(p: Party, ps: seq<Party>, v: int)
    requires Descending(ps)
    ensures OfAmount(Insert(p, ps), v) == (if p.amount == v then [p] else []) + OfAmount(ps, v)
  {
    hide OfAmount;
    if ps == [] || p.amount >= ps[0].amount {
      OfAmountCons(p, ps, v);
    } else {
      InsertIsStable(p, ps[1..], v);
      OfAmountCons(ps[0], Insert(p, ps[1..]), v);
      OfAmountCons(ps[0], ps[1..], v);
      assert ps == [ps[0]] + ps[1..];
      // p passes only parties of larger amounts, so it never passes one of its own amount
    }
  }

  lemma {:induction false} LargestFirstDescends(ps: seq<Party>)
    ensures Descending(LargestFirst(ps))
  {
    if ps != [] {
      LargestFirstDescends(ps[1..]);
      InsertSorts(ps[0], LargestFirst(ps[1..]));
    }
  }

  lemma {:induction false} LargestFirstPermutes(ps: seq<Party>)
    ensures multiset(LargestFirst(ps)) == multiset(ps)
  {
    if ps != [] {
      LargestFirstPermutes(ps[1..]);
      InsertPermutes(ps[0], LargestFirst(ps[1..]));
      assert ps == [ps[0]] + ps[1..];
    }
  }

  lemma {:induction false} LargestFirstIsStable(ps: seq<Party>, v: int)
    ensures OfAmount(LargestFirst(ps), v) == OfAmount(ps, v)
  {
    if ps != [] {
      hide Insert, Descending;
      LargestFirstDescends(ps[1..]);
      LargestFirstIsStable(ps[1..], v);
      InsertIsStable(ps[0], LargestFirst(ps[1..]), v);
    }
  }

  /** `sorted(..., reverse=True)`: descending, a permutation, and equal amounts keep their order. */
  lemma LargestFirstSorts(ps: seq<Party>, v: int)
    ensures Descending(LargestFirst(ps))
    ensures multiset(LargestFirst(ps)) == multiset(ps)
    ensures OfAmount(LargestFirst(ps), v) == OfAmount(ps, v)
  {
    LargestFirstDescends(ps);
    LargestFirstPermutes(ps);
    LargestFirstIsStable(ps, v);
  }

  lemma {:induction false} InsertKeepsPool(p: Party, ps: seq<Party>)
    requires Pool([p] + ps)
    ensures Pool(Insert(p, ps)) && |Insert(p, ps)| == |ps| + 1
    ensures forall b :: InPool(Insert(p, ps), b) <==> InPool([p] + ps, b)
    ensures forall b :: Owed(Insert(p, ps), b) == Owed([p] + ps, b)
    ensures Sum(Insert(p, ps)) == Sum([p] + ps)
  {
    if !(ps == [] || p.amount >= ps[0].amount) {
      var q, rest := ps[0], ps[1..];
      var all := [p] + ps;
      assert forall i :: 0 <= i < |rest| ==> rest[i] == all[i + 2];
      assert all[0] == p && all[1] == q;
      PoolTails(p, q, rest);
      InsertKeepsPool(p, rest);
      PoolCons(q, Insert(p, rest));
      assert ps == [q] + rest;
    }
  }

  /** Taking a pool apart at its first two parties. */
  lemma PoolTails(p: Party, q: Party, rest: seq<Party>)
    requires Pool([p] + ([q] + rest))
    ensures Pool([p] + rest) && Pool([q] + rest) && Pool(rest)
    ensures !InPool([p] + rest, q.bank)
    ensures forall b :: InPool([p] + ([q] + rest), b) <==> b == q.bank || InPool([p] + rest, b)
    ensures forall b :: Owed([p] + ([q] + rest), b) == (if b == q.bank then q.amount else 0) + Owed([p] + rest, b)
    ensures Sum([p] + ([q] + rest)) == q.amount + Sum([p] + rest)
  {
    var tail, all := [q] + rest, [p] + ([q] + rest);
    PoolTail(all);
    assert all[1..] == tail;
    PoolTail(tail);
    assert tail[1..] == rest;
    hide Pool, InPool, Owed, Sum;
    PoolCons(p, rest);
  }

  lemma {:induction false} LargestFirstKeepsPool(ps: seq<Party>)
    requires Pool(ps)
    ensures Pool(LargestFirst(ps)) && |LargestFirst(ps)| == |ps|
    ensures forall b :: InPool(LargestFirst(ps), b) <==> InPool(ps, b)
    ensures forall b :: Owed(LargestFirst(ps), b) == Owed(ps, b)
    ensures Sum(LargestFirst(ps)) == Sum(ps)
  {
    if ps != [] {
      hide Pool, InPool, Owed, Sum;
      var p, rest := ps[0], ps[1..];
      assert ps == [p] + rest;
      PoolTail(ps);
      LargestFirstKeepsPool(rest);
      PoolCons(p, rest);
      PoolCons(p, LargestFirst(rest));
      InsertKeepsPool(p, LargestFirst(rest));
    }
  }

  // ---- Greedy matching ---------------------------------------------------------------------

  function Min(a: int, b: int): int { if a <= b then a else b }

  /** The head party pays (or collects) `a`; at zero it leaves the pool. */
  function Take(ps: seq<Party>, a: int): seq<Party>
    requires ps != []
  {
    if ps[0].amount == a then ps[1..] else [ps[0].(amount := ps[0].amount - a)] + ps[1..]
  }

  function Match(ds: seq<Party>, cs: seq<Party>): seq<NetTransfer>
    decreases |ds| + |cs|
  {
    if ds == [] || cs == [] then []
    else
      var a := Min(ds[0].amount, cs[0].amount);
      [Payment(ds[0].bank, cs[0].bank, a)] + Match(Take(ds, a), Take(cs, a))
  }

  function Greedy(p: Positions): seq<NetTransfer>
    requires forall b :: b in p.order ==> b in p.net
  {
    Match(LargestFirst(Debtors(p.order, p.net)), LargestFirst(Creditors(p.order, p.net)))
  }

  /** One side of an iteration: the head's remaining amount is reduced in place, and the index
      moves on when it reaches zero. */
  method Reduce(pool: array<Party>, idx: nat, amount: int) returns (next: nat)
    requires idx < pool.Length
    modifies pool
    ensures idx <= next <= pool.Length
    ensures pool[next..] == Take(old(pool[idx..]), amount)
    ensures next == idx ==> pool[idx].amount == old(pool[idx].amount) - amount != 0
  {
    ghost var before := pool[idx..];
    pool[idx] := pool[idx].(amount := pool[idx].amount - amount);
    assert pool[idx + 1..] == before[1..];
    next := if pool[idx].amount == 0 then idx + 1 else idx;
  }

  lemma MatchStep(done: seq<NetTransfer>, ds: seq<Party>, cs: seq<Party>)
    requires ds != [] && cs != []
    ensures var a := Min(ds[0].amount, cs[0].amount);
            done + Match(ds, cs) ==
            done + [Payment(ds[0].bank, cs[0].bank, a)] + Match(Take(ds, a), Take(cs, a))
  {
  }

  /** The two-index loop over the pools. */
  method GreedyMatch(positions: Positions) returns (transfers: seq<NetTransfer>)
    requires positions.Valid()
    ensures transfers == Greedy(positions)
  {
    hide Match, LargestFirst, Debtors, Creditors;
    var debtorList := LargestFirst(Debtors(positions.order, positions.net));
    var creditorList := LargestFirst(Creditors(positions.order, positions.net));
    var debtors := new Party[|debtorList|](i requires 0 <= i < |debtorList| => debtorList[i]);
    var creditors := new Party[|creditorList|](i requires 0 <= i < |creditorList| => creditorList[i]);
    transfers := [];
    var dIdx, cIdx := 0, 0;
    assert debtors[0..] == debtorList && creditors[0..] == creditorList;
    while dIdx < debtors.Length && cIdx < creditors.Length
      invariant 0 <= dIdx <= debtors.Length && 0 <= cIdx <= creditors.Length
      invariant transfers + Match(debtors[dIdx..], creditors[cIdx..]) == Match(debtorList, creditorList)
      decreases debtors.Length - dIdx + creditors.Length - cIdx
    {
      var amount := Min(debtors[dIdx].amount, creditors[cIdx].amount);
      MatchStep(transfers, debtors[dIdx..], creditors[cIdx..]);
      transfers := transfers + [Payment(debtors[dIdx].bank, creditors[cIdx].bank, amount)];
      dIdx := Reduce(debtors, dIdx, amount);
      cIdx := Reduce(creditors, cIdx, amount);
    }
    MatchNothing(debtors[dIdx..], creditors[cIdx..]);
  }

  lemma MatchNothing(ds: seq<Party>, cs: seq<Party>)
    requires ds == [] || cs == []
    ensures Match(ds, cs) == []
  {
  }

  lemma TakeKeepsPool(ps: seq<Party>, a: int)
    requires Pool(ps) && ps != [] && 0 < a <= ps[0].amount
    ensures Pool(Take(ps, a))
    ensures forall b :: InPool(Take(ps, a), b) ==> InPool(ps, b)
    ensures a == ps[0].amount ==> !InPool(Take(ps, a), ps[0].bank)
    ensures forall b :: Owed(Take(ps, a), b) == Owed(ps, b) - (if b == ps[0].bank then a else 0)
    ensures Sum(Take(ps, a)) == Sum(ps) - a
  {
    hide Pool, InPool, Owed, Sum;
    PoolTail(ps);
    if a < ps[0].amount { PoolCons(ps[0].(amount := ps[0].amount - a), ps[1..]); }
  }

  lemma {:induction false} SumPositive(ps: seq<Party>)
    requires Pool(ps)
    ensures Sum(ps) >= 0 && (Sum(ps) == 0 <==> ps == [])
  {
    if ps != [] {
      assert forall i :: 0 <= i < |ps[1..]| ==> ps[1..][i] == ps[i + 1];
      SumPositive(ps[1..]);
    }
  }

  /** What the matching pays: everybody in full up to the smaller pool, which is used up. */
  lemma {:induction false} MatchPays(ds: seq<Party>, cs: seq<Party>)
    requires Pool(ds) && Pool(cs)
    ensures Sum(ds) <= Sum(cs) ==> forall b :: Paid(Match(ds, cs), b) == Owed(ds, b)
    ensures Sum(cs) <= Sum(ds) ==> forall b :: Received(Match(ds, cs), b) == Owed(cs, b)
    ensures Volume(Match(ds, cs)) == Min(Sum(ds), Sum(cs))
    decreases |ds| + |cs|
  {
    SumPositive(ds);
    SumPositive(cs);
    if ds != [] && cs != [] {
      var a := Min(ds[0].amount, cs[0].amount);
      TakeKeepsPool(ds, a);
      TakeKeepsPool(cs, a);
      MatchPays(Take(ds, a), Take(cs, a));
      var rest := Match(Take(ds, a), Take(cs, a));
      assert Match(ds, cs)[1..] == rest;
      assert Match(ds, cs)[0] == Payment(ds[0].bank, cs[0].bank, a);
    }
  }

  /** Shape of the matching, for pools without a common bank. */
  lemma {:induction false} MatchShape(ds: seq<Party>, cs: seq<Party>)
    requires Pool(ds) && Pool(cs)
    requires forall b :: !(InPool(ds, b) && InPool(cs, b))
    ensures forall t :: t in Match(ds, cs) ==> InPool(ds, t.payer) && InPool(cs, t.payee)
    ensures WellFormed(Match(ds, cs))
    ensures |Match(ds, cs)| <= if ds == [] || cs == [] then 0 else |ds| + |cs| - 1
    decreases |ds| + |cs|
  {
    if ds != [] && cs != [] {
      var a := Min(ds[0].amount, cs[0].amount);
      TakeKeepsPool(ds, a);
      TakeKeepsPool(cs, a);
      var rest := Match(Take(ds, a), Take(cs, a));
      MatchShape(Take(ds, a), Take(cs, a));
      var first := Payment(ds[0].bank, cs[0].bank, a);
      assert Match(ds, cs) == [first] + rest;
      assert ds[0] in ds && cs[0] in cs;
      forall i | 0 <= i < |rest| ensures !(rest[i].payer == first.payer && rest[i].payee == first.payee) {
        assert rest[i] in rest;
        assert InPool(Take(ds, a), rest[i].payer) && InPool(Take(cs, a), rest[i].payee);
      }
    }
  }

  // ---- Main results ------------------------------------------------------------------------

  /** `ts` moves every bank by exactly its position. */
  ghost predicate Settles(ts: seq<Payment>, p: Positions) {
    forall b :: Net(ts, b) == p.Get(b)
  }

  function Unbalanced(p: Positions): nat
    requires forall b :: b in p.order ==> b in p.net
  {
    |Debtors(p.order, p.net)| + |Creditors(p.order, p.net)|
  }

  /** Collects what sorting leaves unchanged about the two pools. */
  lemma SortedPools(p: Positions) returns (ds: seq<Party>, cs: seq<Party>)
    requires p.Valid()
    ensures ds == LargestFirst(Debtors(p.order, p.net)) && cs == LargestFirst(Creditors(p.order, p.net))
    ensures Pool(ds) && Pool(cs) && |ds| == |Debtors(p.order, p.net)| && |cs| == |Creditors(p.order, p.net)|
    ensures forall b :: InPool(ds, b) <==> p.Get(b) < 0
    ensures forall b :: InPool(cs, b) <==> p.Get(b) > 0
    ensures forall b :: Owed(cs, b) - Owed(ds, b) == p.Get(b)
    ensures Sum(cs) - Sum(ds) == Total(p.order, p.net) && Sum(ds) == Sum(Debtors(p.order, p.net))
  {
    var ds0, cs0 := Debtors(p.order, p.net), Creditors(p.order, p.net);
    PoolsOfPositions(p.order, p.net);
    PoolsHoldPositions(p.order, p.net, 0);
    LargestFirstKeepsPool(ds0);
    LargestFirstKeepsPool(cs0);
    ds, cs := LargestFirst(ds0), LargestFirst(cs0);
    forall b
      ensures InPool(ds, b) <==> p.Get(b) < 0
      ensures InPool(cs, b) <==> p.Get(b) > 0
      ensures Owed(cs, b) - Owed(ds, b) == p.Get(b)
    {
      PoolsHoldPositions(p.order, p.net, b);
      assert InPool(ds, b) <==> InPool(ds0, b);
      assert InPool(cs, b) <==> InPool(cs0, b);
      assert Owed(ds, b) == Owed(ds0, b) && Owed(cs, b) == Owed(cs0, b);
      assert b in p.order <==> b in p.net;
    }
  }

  /** The matching reproduces the positions exactly when they total zero. */
  lemma GreedySettlesIffBalanced(p: Positions)
    requires p.Valid()
    ensures Settles(Greedy(p), p) <==> Total(p.order, p.net) == 0
  {
    var ds, cs := SortedPools(p);
    MatchPays(ds, cs);
    if Settles(Greedy(p), p) {
      forall b | b in p.order ensures p.net[b] == Net(Greedy(p), b) {
        assert p.Get(b) == Net(Greedy(p), b);
      }
      TotalIsSumNet(p.order, p.net, Greedy(p));
      MatchShape(ds, cs);
      NetSumsToZero(p.order, Greedy(p));
    }
  }

  /** On balanced positions both pools are used up together: each debtor pays its debt and
      receives nothing, each creditor receives its credit and pays nothing, and a balanced bank
      takes no part. */
  lemma GreedyPaysExactly(p: Positions, b: BankId)
    requires p.Valid() && Total(p.order, p.net) == 0
    ensures Paid(Greedy(p), b) == if p.Get(b) < 0 then -p.Get(b) else 0
    ensures Received(Greedy(p), b) == if p.Get(b) > 0 then p.Get(b) else 0
    ensures forall t :: t in Greedy(p) ==> p.Get(t.payer) < 0 < p.Get(t.payee)
  {
    var ds, cs := SortedPools(p);
    MatchPays(ds, cs);
    MatchShape(ds, cs);
    OwedOutside(ds, b);
    OwedOutside(cs, b);
  }

  lemma {:induction false} OwedOutside(ps: seq<Party>, b: BankId)
    ensures !InPool(ps, b) ==> Owed(ps, b) == 0
  {
    if ps != [] {
      assert ps[0] in ps;
      OwedOutside(ps[1..], b);
    }
  }

  /** At most N-1 transfers for N unbalanced banks, each acceptable to the transfer table. */
  lemma GreedyIsSmallAndWellFormed(p: Positions)
    requires p.Valid()
    ensures WellFormed(Greedy(p))
    ensures |Greedy(p)| <= if Unbalanced(p) == 0 then 0 else Unbalanced(p) - 1
  {
    var ds, cs := SortedPools(p);
    MatchShape(ds, cs);
  }

  function Size(p: Positions, b: BankId): nat { if p.Get(b) < 0 then -p.Get(b) else p.Get(b) }

  /** The banks of a pool stand in descending order of their positions. */
  ghost predicate Ranked(ps: seq<Party>, p: Positions) {
    forall i, j :: 0 <= i < j < |ps| ==> Size(p, ps[i].bank) >= Size(p, ps[j].bank)
  }

  lemma TakeKeepsRank(ps: seq<Party>, a: int, p: Positions)
    requires ps != [] && Ranked(ps, p)
    ensures Ranked(Take(ps, a), p)
  {
    var r := Take(ps, a);
    if ps[0].amount == a {
      assert forall i :: 0 <= i < |r| ==> r[i] == ps[i + 1];
    } else {
      assert forall i :: 0 <= i < |r| ==> r[i].bank == ps[i].bank;
    }
  }

  lemma {:induction false} HeadsAreLargest(ds: seq<Party>, cs: seq<Party>, p: Positions, k: nat)
    requires Ranked(ds, p) && Ranked(cs, p) && k < |Match(ds, cs)|
    ensures ds != [] && Size(p, ds[0].bank) >= Size(p, Match(ds, cs)[k].payer)
    ensures cs != [] && Size(p, cs[0].bank) >= Size(p, Match(ds, cs)[k].payee)
    decreases |ds| + |cs|
  {
    if k > 0 {
      hide Size, Ranked;
      var a := Min(ds[0].amount, cs[0].amount);
      TakeKeepsRank(ds, a, p);
      TakeKeepsRank(cs, a, p);
      HeadsAreLargest(Take(ds, a), Take(cs, a), p, k - 1);
      HeadOfTake(ds, a, p);
      HeadOfTake(cs, a, p);
    }
  }

  lemma HeadOfTake(ps: seq<Party>, a: int, p: Positions)
    requires ps != [] && Ranked(ps, p)
    ensures Take(ps, a) != [] ==> Size(p, ps[0].bank) >= Size(p, Take(ps, a)[0].bank)
  {
  }

  lemma MatchHead(ds: seq<Party>, cs: seq<Party>)
    requires Match(ds, cs) != []
    ensures ds != [] && cs != [] && Match(ds, cs)[0].payer == ds[0].bank && Match(ds, cs)[0].payee == cs[0].bank
  {
  }

  lemma MatchTail(ds: seq<Party>, cs: seq<Party>, k: nat)
    requires ds != [] && cs != [] && 0 < k < |Match(ds, cs)|
    ensures var a := Min(ds[0].amount, cs[0].amount);
            && |Take(ds, a)| + |Take(cs, a)| < |ds| + |cs| && k <= |Match(Take(ds, a), Take(cs, a))|
            && Match(ds, cs)[k] == Match(Take(ds, a), Take(cs, a))[k - 1]
  {
  }

  lemma {:induction false} MatchFollowsRank(ds: seq<Party>, cs: seq<Party>, p: Positions, i: nat, j: nat)
    requires Ranked(ds, p) && Ranked(cs, p) && i < j < |Match(ds, cs)|
    ensures Size(p, Match(ds, cs)[i].payer) >= Size(p, Match(ds, cs)[j].payer)
    ensures Size(p, Match(ds, cs)[i].payee) >= Size(p, Match(ds, cs)[j].payee)
    decreases |ds| + |cs|
  {
    hide Size, Ranked, Match, Take;
    if i == 0 {
      HeadsAreLargest(ds, cs, p, j);
      MatchHead(ds, cs);
    } else {
      MatchHead(ds, cs);
      var a := Min(ds[0].amount, cs[0].amount);
      MatchTail(ds, cs, i);
      MatchTail(ds, cs, j);
      TakeKeepsRank(ds, a, p);
      TakeKeepsRank(cs, a, p);
      MatchFollowsRank(Take(ds, a), Take(cs, a), p, i - 1, j - 1);
    }
  }

  lemma {:induction false} PartiesHoldPositions(order: seq<BankId>, net: map<BankId, int>, x: Party)
    requires forall b :: b in order ==> b in net
    ensures x in Debtors(order, net) ==> x.bank in net && x.amount == -net[x.bank] > 0
    ensures x in Creditors(order, net) ==> x.bank in net && x.amount == net[x.bank] > 0
  {
    if order != [] { PartiesHoldPositions(order[1..], net, x); }
  }

  lemma SortedIsRanked(ps: seq<Party>, p: Positions)
    requires forall x :: x in ps ==> x.amount == Size(p, x.bank)
    ensures Ranked(LargestFirst(ps), p)
  {
    var sorted := LargestFirst(ps);
    LargestFirstDescends(ps);
    LargestFirstPermutes(ps);
    forall i | 0 <= i < |sorted| ensures sorted[i].amount == Size(p, sorted[i].bank) {
      assert sorted[i] in multiset(sorted);
      assert sorted[i] in ps;
    }
  }

  /** Debtors are served in descending order of debt, creditors in descending order of credit: by
      their positions, not by what is still open. */
  lemma GreedyServesLargestFirst(p: Positions, i: nat, j: nat)
    requires p.Valid() && i < j < |Greedy(p)|
    ensures p.Get(Greedy(p)[i].payer) <= p.Get(Greedy(p)[j].payer) < 0
    ensures p.Get(Greedy(p)[i].payee) >= p.Get(Greedy(p)[j].payee) > 0
  {
    var ds0, cs0 := Debtors(p.order, p.net), Creditors(p.order, p.net);
    forall x
      ensures x in ds0 ==> x.amount == Size(p, x.bank)
      ensures x in cs0 ==> x.amount == Size(p, x.bank)
    {
      PartiesHoldPositions(p.order, p.net, x);
    }
    SortedIsRanked(ds0, p);
    SortedIsRanked(cs0, p);
    MatchFollowsRank(LargestFirst(ds0), LargestFirst(cs0), p, i, j);
    var ds, cs := SortedPools(p);
    MatchShape(ds, cs);
    assert Greedy(p)[i] in Greedy(p) && Greedy(p)[j] in Greedy(p);
  }

  // -- Lower bounds that hold for every way of settling the same positions --

  function Payers(ts: seq<Payment>): set<BankId> {
    if ts == [] then {} else {ts[0].payer} + Payers(ts[1..])
  }

  function Payees(ts: seq<Payment>): set<BankId> {
    if ts == [] then {} else {ts[0].payee} + Payees(ts[1..])
  }

  lemma {:induction false} PartiesOf(ts: seq<Payment>, b: BankId)
    requires forall t :: t in ts ==> t.amount >= 0
    ensures |Payers(ts)| <= |ts| && |Payees(ts)| <= |ts|
    ensures Paid(ts, b) >= 0 && Received(ts, b) >= 0
    ensures Paid(ts, b) > 0 ==> b in Payers(ts)
    ensures Received(ts, b) > 0 ==> b in Payees(ts)
  {
    if ts != [] { PartiesOf(ts[1..], b); }
  }

  lemma {:induction false} PoolWithinSet(ps: seq<Party>, s: set<BankId>)
    requires Pool(ps) && forall b :: InPool(ps, b) ==> b in s
    ensures |ps| <= |s|
  {
    if ps != [] {
      var p, rest := ps[0], ps[1..];
      assert p in ps;
      assert InPool(ps, p.bank);
      assert forall i :: 0 <= i < |rest| ==> rest[i] == ps[i + 1];
      forall b | InPool(rest, b) ensures b in s - {p.bank} {
        var x :| x in rest && x.bank == b;
        assert x in ps;
        assert InPool(ps, b);
      }
      PoolWithinSet(rest, s - {p.bank});
    }
  }

  /** Any settlement needs a transfer per debtor and a transfer per creditor, hence the greedy
      one has fewer than twice as many transfers as any other. */
  lemma GreedyIsTwoApproximation(p: Positions, ts: seq<Payment>)
    requires p.Valid() && Settles(ts, p) && forall t :: t in ts ==> t.amount >= 0
    ensures |Debtors(p.order, p.net)| <= |ts| && |Creditors(p.order, p.net)| <= |ts|
    ensures Greedy(p) != [] ==> |Greedy(p)| < 2 * |ts|
  {
    var ds, cs := SortedPools(p);
    forall b | InPool(ds, b) ensures b in Payers(ts) {
      PartiesOf(ts, b);
      assert Net(ts, b) == p.Get(b);
    }
    forall b | InPool(cs, b) ensures b in Payees(ts) {
      PartiesOf(ts, b);
      assert Net(ts, b) == p.Get(b);
    }
    PartiesOf(ts, 0);
    PoolWithinSet(ds, Payers(ts));
    PoolWithinSet(cs, Payees(ts));
    MatchShape(ds, cs);
  }

  lemma {:induction false} DebtIsPaid(order: seq<BankId>, net: map<BankId, int>, ts: seq<Payment>)
    requires forall b :: b in order ==> b in net && net[b] == Net(ts, b)
    requires forall t :: t in ts ==> t.amount >= 0
    ensures Sum(Debtors(order, net)) <= SumPaid(order, ts)
  {
    if order != [] {
      DebtIsPaid(order[1..], net, ts);
      PartiesOf(ts, order[0]);
      var rest := Debtors(order[1..], net);
      if net[order[0]] < 0 {
        assert ([Party(order[0], -net[order[0]])] + rest)[1..] == rest;
      } else {
        assert [] + rest == rest;
      }
    }
  }

  /** Minimal liquidity: the greedy volume is the sum of the debts, and no settlement of the
      same positions moves less. */
  lemma GreedyMovesLeast(p: Positions, ts: seq<Payment>)
    requires p.Valid() && Settles(ts, p) && forall t :: t in ts ==> t.amount >= 0
    ensures Total(p.order, p.net) == 0 ==> Volume(Greedy(p)) == Sum(Debtors(p.order, p.net))
    ensures Volume(Greedy(p)) <= Volume(ts)
  {
    var ds, cs := SortedPools(p);
    MatchPays(ds, cs);
    forall b | b in p.order ensures p.net[b] == Net(ts, b) {
      assert Net(ts, b) == p.Get(b);
    }
    DebtIsPaid(p.order, p.net, ts);
    SumPaidAtMostVolume(p.order, ts);
  }

  // -- The whole pipeline --

  function Netted(obligations: seq<Obligation>): seq<NetTransfer> {
    NetPositionsCorrect(obligations);
    Greedy(NetPositions(obligations))
  }

  method NetObligations(obligations: seq<Obligation>) returns (transfers: seq<NetTransfer>)
    ensures transfers == Netted(obligations)
  {
    if obligations == [] {
      return [];
    }
    var positions := CalculateNetPositions(obligations);
    NetPositionsCorrect(obligations);
    transfers := GreedyMatch(positions);
  }

  function NonSelf(ps: seq<Payment>): seq<Payment> {
    if ps == [] then [] else (if ps[0].payer != ps[0].payee then [ps[0]] else []) + NonSelf(ps[1..])
  }

  lemma {:induction false} SelfPaymentsAreNeutral(ps: seq<Payment>, b: BankId)
    ensures Net(NonSelf(ps), b) == Net(ps, b)
    ensures forall q :: q in NonSelf(ps) ==> q in ps
  {
    if ps != [] {
      SelfPaymentsAreNeutral(ps[1..], b);
      var rest := NonSelf(ps[1..]);
      if ps[0].payer != ps[0].payee {
        assert NonSelf(ps) == [ps[0]] + rest && NonSelf(ps)[1..] == rest;
      } else {
        assert NonSelf(ps) == rest;
      }
    }
  }

  /** Netting preserves every bank's net effect, whatever the amounts (self-obligations too). */
  lemma NettingPreservesNet(obligations: seq<Obligation>, b: BankId)
    ensures Net(Netted(obligations), b) == Net(obligations, b)
    ensures WellFormed(Netted(obligations))
  {
    NetPositionsCorrect(obligations);
    PositionsBalance(obligations);
    GreedySettlesIffBalanced(NetPositions(obligations));
    GreedyIsSmallAndWellFormed(NetPositions(obligations));
    assert NetPositions(obligations).Get(b) == Net(obligations, b);
  }

  /** Against the obligations themselves: never more money than the gross non-self total, and
      fewer than twice the transfers that any list with the same net effect needs. */
  lemma NettingIsEconomical(obligations: seq<Obligation>, ts: seq<Payment>)
    requires Positive(obligations)
    requires Positive(ts) && forall b :: Net(ts, b) == Net(obligations, b)
    ensures Volume(Netted(obligations)) <= Volume(ts)
    ensures Volume(Netted(obligations)) <= Volume(NonSelf(obligations))
    ensures Netted(obligations) != [] ==> |Netted(obligations)| < 2 * |ts|
  {
    NetPositionsCorrect(obligations);
    var p := NetPositions(obligations);
    forall b ensures Net(NonSelf(obligations), b) == p.Get(b) && Net(ts, b) == p.Get(b) {
      SelfPaymentsAreNeutral(obligations, b);
    }
    SelfPaymentsAreNeutral(obligations, 0);
    GreedyMovesLeast(p, ts);
    GreedyMovesLeast(p, NonSelf(obligations));
    GreedyIsTwoApproximation(p, ts);
  }
}
