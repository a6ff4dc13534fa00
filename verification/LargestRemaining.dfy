/** When the largest remaining debtor always pays the largest remaining creditor.  The pools are
    sorted once, before the first transfer. */
module LargestRemaining {
  import opened Netting

  // ---- On the pools ------------------------------------------------------------------------

  ghost predicate HeadIsLargest(ps: seq<Party>) {
    forall i :: 0 <= i < |ps| ==> ps[0].amount >= ps[i].amount
  }

  /** In every round of the matching both heads are maxima of what remains. */
  ghost predicate AlwaysLargest(ds: seq<Party>, cs: seq<Party>)
    decreases |ds| + |cs|
  {
    || ds == [] || cs == []
    || (&& HeadIsLargest(ds) && HeadIsLargest(cs)
        && var a := Min(ds[0].amount, cs[0].amount); AlwaysLargest(Take(ds, a), Take(cs, a)))
  }

  ghost predicate AllPositive(ps: seq<Party>) {
    forall i :: 0 <= i < |ps| ==> ps[i].amount > 0
  }

  /** The sum of the first `i` amounts. */
  function Prefix(ps: seq<Party>, i: nat): int
    requires i <= |ps|
  {
    if i == 0 then 0 else ps[0].amount + Prefix(ps[1..], i - 1)
  }

  /** When party `j` of `qs` comes to the head, party `i` of `ps` has been served in part, and has
      less left than the party after it. */
  predicate Overtaken(ps: seq<Party>, qs: seq<Party>, i: nat, j: nat) {
    && i + 1 < |ps| && j < |qs|
    && Prefix(ps, i) < Prefix(qs, j) < Prefix(ps, i + 1)
    && Prefix(ps, i + 1) - Prefix(qs, j) < ps[i + 1].amount
  }

  ghost predicate NeverOvertaken(ps: seq<Party>, qs: seq<Party>) {
    forall i: nat, j: nat :: !Overtaken(ps, qs, i, j)
  }

  lemma {:induction false} PrefixGrows(ps: seq<Party>, i: nat)
    requires AllPositive(ps) && i <= |ps|
    ensures Prefix(ps, i) >= 0
    ensures i > 0 ==> Prefix(ps, i) >= ps[0].amount > 0
    ensures i > 1 ==> Prefix(ps, i) > ps[0].amount
  {
    if i > 0 {
      assert forall k :: 0 <= k < |ps[1..]| ==> ps[1..][k] == ps[k + 1];
      PrefixGrows(ps[1..], i - 1);
    }
  }

  lemma FirstPrefix(ps: seq<Party>)
    requires ps != []
    ensures Prefix(ps, 1) == ps[0].amount
  {
    assert Prefix(ps[1..], 0) == 0;
  }

  lemma PrefixAfterTake(ps: seq<Party>, a: int, i: nat)
    requires ps != [] && ps[0].amount != a && 0 < i <= |ps|
    ensures |Take(ps, a)| == |ps| && Prefix(Take(ps, a), i) == Prefix(ps, i) - a
  {
    assert Take(ps, a)[1..] == ps[1..];
  }

  /** Nobody is overtaken by the first party of a pool, nor the head by anybody with more than it. */
  lemma NotAtTheStart(ps: seq<Party>, qs: seq<Party>, i: nat, j: nat)
    requires AllPositive(ps) && AllPositive(qs)
    ensures !Overtaken(ps, qs, i, 0)
    ensures ps != [] && qs != [] && ps[0].amount <= qs[0].amount ==> !Overtaken(ps, qs, 0, j)
  {
    if i <= |ps| { PrefixGrows(ps, i); }
    if j <= |qs| { PrefixGrows(qs, j); }
    if ps != [] { FirstPrefix(ps); }
  }

  /** When the party with the smaller amount leaves, the places where one is overtaken are renumbered. */
  lemma OvertakenShifts(ps: seq<Party>, qs: seq<Party>, i: nat, j: nat)
    requires AllPositive(ps) && AllPositive(qs) && ps != [] && qs != [] && ps[0].amount < qs[0].amount
    ensures Overtaken(ps, qs, i + 1, j) <==> Overtaken(ps[1..], Take(qs, ps[0].amount), i, j)
  {
    var a := ps[0].amount;
    var ps' := ps[1..];
    assert forall k :: 0 <= k < |ps'| ==> ps'[k] == ps[k + 1];
    if j == 0 {
      NotAtTheStart(ps, qs, i + 1, 0);
      if i <= |ps'| { PrefixGrows(ps', i); }
    } else if j < |qs| {
      PrefixAfterTake(qs, a, j);
    }
  }

  lemma OverShifts(ps: seq<Party>, qs: seq<Party>, i: nat, j: nat)
    requires AllPositive(ps) && AllPositive(qs) && ps != [] && qs != [] && ps[0].amount < qs[0].amount
    ensures i + j > 0 ==> (Overtaken(qs, ps, j, i + 1) <==> Overtaken(Take(qs, ps[0].amount), ps[1..], j, i))
    ensures Overtaken(qs, ps, 0, 1) <==> |ps| > 1 && |qs| > 1 && qs[0].amount - ps[0].amount < qs[1].amount
    ensures !Overtaken(Take(qs, ps[0].amount), ps[1..], 0, 0)
  {
    var a := ps[0].amount;
    var ps', qs' := ps[1..], Take(qs, a);
    assert forall k :: 0 <= k < |ps'| ==> ps'[k] == ps[k + 1];
    assert forall k :: 1 <= k < |qs| ==> qs'[k] == qs[k];
    if j + 1 < |qs| {
      PrefixGrows(qs, j);
      PrefixAfterTake(qs, a, j + 1);
      if j > 0 { PrefixAfterTake(qs, a, j); }
      if i + 1 < |ps| {
        PrefixGrows(ps, i + 1);
        PrefixGrows(ps', i);
      }
    }
    FirstPrefix(ps);
    FirstPrefix(qs);
  }

  lemma ShortRound(ps: seq<Party>, qs: seq<Party>)
    requires AllPositive(ps) && AllPositive(qs) && |ps| > 1 && qs != [] && ps[0].amount < qs[0].amount
    requires Descending(qs[1..])
    ensures NeverOvertaken(ps, qs) <==> NeverOvertaken(ps[1..], Take(qs, ps[0].amount))
    ensures NeverOvertaken(qs, ps) <==>
            NeverOvertaken(Take(qs, ps[0].amount), ps[1..]) && HeadIsLargest(Take(qs, ps[0].amount))
  {
    var ps', qs' := ps[1..], Take(qs, ps[0].amount);
    NextIsLargest(qs, ps[0].amount);
    hide Overtaken, Take, HeadIsLargest;
    if NeverOvertaken(ps, qs) {
      forall i: nat, j: nat ensures !Overtaken(ps', qs', i, j) { OvertakenShifts(ps, qs, i, j); }
    }
    if NeverOvertaken(ps', qs') {
      forall i: nat, j: nat ensures !Overtaken(ps, qs, i, j) {
        if i == 0 { NotAtTheStart(ps, qs, 0, j); } else { OvertakenShifts(ps, qs, i - 1, j); }
      }
    }
    OverShifts(ps, qs, 0, 0);
    if NeverOvertaken(qs, ps) {
      forall j: nat, i: nat ensures !Overtaken(qs', ps', j, i) { OverShifts(ps, qs, i, j); }
      assert !Overtaken(qs, ps, 0, 1);
    }
    if NeverOvertaken(qs', ps') && HeadIsLargest(qs') {
      forall j: nat, i: nat ensures !Overtaken(qs, ps, j, i) {
        if i == 0 { NotAtTheStart(qs, ps, j, 0); } else { OverShifts(ps, qs, i - 1, j); }
      }
    }
  }

  lemma NextIsLargest(qs: seq<Party>, a: int)
    requires qs != [] && qs[0].amount != a && Descending(qs[1..])
    ensures HeadIsLargest(Take(qs, a)) <==> |qs| == 1 || qs[0].amount - a >= qs[1].amount
  {
    var r := Take(qs, a);
    assert |r| == |qs| && r[0].amount == qs[0].amount - a;
    if |qs| > 1 { assert r[1] == qs[1]; }
    forall k | 1 < k < |qs| ensures r[k].amount <= qs[1].amount {
      assert r[k] == qs[1..][k - 1] && qs[1] == qs[1..][0];
    }
  }

  lemma EvenRound(ps: seq<Party>, qs: seq<Party>)
    requires AllPositive(ps) && AllPositive(qs) && ps != [] && qs != [] && ps[0].amount == qs[0].amount
    ensures NeverOvertaken(ps, qs) <==> NeverOvertaken(ps[1..], qs[1..])
  {
    hide Overtaken;
    if NeverOvertaken(ps, qs) {
      forall i: nat, j: nat ensures !Overtaken(ps[1..], qs[1..], i, j) { EvenShifts(ps, qs, i, j); }
    }
    if NeverOvertaken(ps[1..], qs[1..]) {
      forall i: nat, j: nat ensures !Overtaken(ps, qs, i, j) {
        if i == 0 || j == 0 { NotAtTheStart(ps, qs, i, j); } else { EvenShifts(ps, qs, i - 1, j - 1); }
      }
    }
  }

  lemma EvenShifts(ps: seq<Party>, qs: seq<Party>, i: nat, j: nat)
    requires ps != [] && qs != [] && ps[0].amount == qs[0].amount
    ensures Overtaken(ps, qs, i + 1, j + 1) <==> Overtaken(ps[1..], qs[1..], i, j)
  {
  }

  lemma TailsStayPositive(ps: seq<Party>, a: int)
    requires AllPositive(ps) && ps != [] && a <= ps[0].amount && Descending(ps[1..])
    ensures AllPositive(Take(ps, a))
    ensures Take(ps, a) != [] ==> Descending(Take(ps, a)[1..])
    ensures ps[0].amount == a ==> HeadIsLargest(Take(ps, a))
  {
    var r, rest := Take(ps, a), ps[1..];
    if ps[0].amount == a {
      assert forall k :: 0 <= k < |r| ==> r[k] == ps[k + 1];
      if r != [] { assert forall k :: 0 <= k < |r[1..]| ==> r[1..][k] == rest[k + 1]; }
    } else {
      assert r[1..] == rest;
      assert forall k :: 1 <= k < |r| ==> r[k] == ps[k];
    }
  }

  lemma FewAreNeverOvertaken(ps: seq<Party>, qs: seq<Party>)
    requires AllPositive(ps) && AllPositive(qs) && |ps| <= 1
    ensures NeverOvertaken(ps, qs) && NeverOvertaken(qs, ps)
  {
    forall i: nat, j: nat ensures !Overtaken(ps, qs, i, j) && !Overtaken(qs, ps, i, j) {
      if i <= |qs| { PrefixGrows(qs, i); }
    }
  }

  /** The condition, for pools whose heads may have been served in part already. */
  lemma {:induction false} AlwaysLargestIff(ds: seq<Party>, cs: seq<Party>)
    requires AllPositive(ds) && AllPositive(cs) && ds != [] && cs != [] && Descending(ds[1..]) && Descending(cs[1..])
    ensures AlwaysLargest(ds, cs) <==>
            HeadIsLargest(ds) && HeadIsLargest(cs) && NeverOvertaken(ds, cs) && NeverOvertaken(cs, ds)
    decreases |ds| + |cs|
  {
    hide NeverOvertaken, HeadIsLargest, Descending, AllPositive;
    var a := Min(ds[0].amount, cs[0].amount);
    var ds', cs' := Take(ds, a), Take(cs, a);
    TailsStayPositive(ds, a);
    TailsStayPositive(cs, a);
    if ds' == [] {
      FewAreNeverOvertaken(ds, cs);
    } else if cs' == [] {
      FewAreNeverOvertaken(cs, ds);
    } else {
      AlwaysLargestIff(ds', cs');
      if ds[0].amount < cs[0].amount {
        ShortRound(ds, cs);
      } else if cs[0].amount < ds[0].amount {
        ShortRound(cs, ds);
      } else {
        EvenRound(ds, cs);
        EvenRound(cs, ds);
      }
    }
  }

  // ---- On the transfers --------------------------------------------------------------------

  /** After the transfers `done`, transfer `t` is between the two parties with most left. */
  ghost predicate LargestNow(ds: seq<Party>, cs: seq<Party>, done: seq<NetTransfer>, t: NetTransfer) {
    && (forall b :: Owed(ds, t.payer) - Paid(done, t.payer) >= Owed(ds, b) - Paid(done, b))
    && (forall b :: Owed(cs, t.payee) - Received(done, t.payee) >= Owed(cs, b) - Received(done, b))
  }

  ghost predicate AllLargest(ds: seq<Party>, cs: seq<Party>, ts: seq<NetTransfer>) {
    forall k :: 0 <= k < |ts| ==> LargestNow(ds, cs, ts[..k], ts[k])
  }

  lemma {:induction false} MembersAreOwed(ps: seq<Party>, i: nat)
    requires Pool(ps) && i < |ps|
    ensures Owed(ps, ps[i].bank) == ps[i].amount
  {
    assert ps == [ps[0]] + ps[1..];
    assert forall k :: 0 <= k < |ps[1..]| ==> ps[1..][k] == ps[k + 1];
    if i == 0 {
      OwedOutside(ps[1..], ps[0].bank);
    } else {
      MembersAreOwed(ps[1..], i - 1);
    }
  }

  ghost predicate MostOwed(ps: seq<Party>, bank: BankId) {
    forall b :: Owed(ps, bank) >= Owed(ps, b)
  }

  lemma HeadOwesMost(ps: seq<Party>)
    requires Pool(ps) && ps != []
    ensures HeadIsLargest(ps) <==> MostOwed(ps, ps[0].bank)
  {
    hide Pool;
    MembersAreOwed(ps, 0);
    PoolIsPositive(ps);
    if HeadIsLargest(ps) {
      forall b ensures Owed(ps, ps[0].bank) >= Owed(ps, b) {
        if InPool(ps, b) {
          var x :| x in ps && x.bank == b;
          var i :| 0 <= i < |ps| && ps[i] == x;
          MembersAreOwed(ps, i);
        } else {
          OwedOutside(ps, b);
        }
      }
    }
    if MostOwed(ps, ps[0].bank) {
      forall i | 0 <= i < |ps| ensures ps[0].amount >= ps[i].amount {
        MembersAreOwed(ps, i);
        assert Owed(ps, ps[0].bank) >= Owed(ps, ps[i].bank);
      }
    }
  }

  lemma PoolIsPositive(ps: seq<Party>)
    requires Pool(ps)
    ensures AllPositive(ps)
  {
  }

  lemma FirstIsLargest(ds: seq<Party>, cs: seq<Party>, a: int)
    requires Pool(ds) && Pool(cs) && ds != [] && cs != []
    ensures LargestNow(ds, cs, [], Payment(ds[0].bank, cs[0].bank, a)) <==> HeadIsLargest(ds) && HeadIsLargest(cs)
  {
    HeadOwesMost(ds);
    HeadOwesMost(cs);
    NothingPaid(ds, cs, Payment(ds[0].bank, cs[0].bank, a));
  }

  lemma NothingPaid(ds: seq<Party>, cs: seq<Party>, t: NetTransfer)
    ensures LargestNow(ds, cs, [], t) <==> MostOwed(ds, t.payer) && MostOwed(cs, t.payee)
  {
    hide Owed;
    assert forall b :: Paid([], b) == 0 && Received([], b) == 0;
    if LargestNow(ds, cs, [], t) {
      forall b ensures Owed(ds, t.payer) >= Owed(ds, b) && Owed(cs, t.payee) >= Owed(cs, b) {
        assert Owed(ds, t.payer) - Paid([], t.payer) >= Owed(ds, b) - Paid([], b);
        assert Owed(cs, t.payee) - Received([], t.payee) >= Owed(cs, b) - Received([], b);
      }
    }
  }

  lemma PaidFirst(p: Payment, ps: seq<Payment>, b: BankId)
    ensures Paid([p] + ps, b) == (if p.payer == b then p.amount else 0) + Paid(ps, b)
    ensures Received([p] + ps, b) == (if p.payee == b then p.amount else 0) + Received(ps, b)
  {
    assert ([p] + ps)[1..] == ps;
  }

  /** From the second transfer on, what remains is what remains of the reduced pools. */
  lemma LaterIsLargest(ds: seq<Party>, cs: seq<Party>, done: seq<NetTransfer>, t: NetTransfer)
    requires Pool(ds) && Pool(cs) && ds != [] && cs != []
    ensures var a := Min(ds[0].amount, cs[0].amount);
            LargestNow(ds, cs, [Payment(ds[0].bank, cs[0].bank, a)] + done, t) <==>
            LargestNow(Take(ds, a), Take(cs, a), done, t)
  {
    var a := Min(ds[0].amount, cs[0].amount);
    assert 0 < a <= ds[0].amount && a <= cs[0].amount by {
      PoolIsPositive(ds);
      PoolIsPositive(cs);
    }
    hide Pool, Owed, Paid, Received, InPool, Take;
    TakeKeepsPool(ds, a);
    TakeKeepsPool(cs, a);
    forall b
      ensures Owed(ds, b) - Paid([Payment(ds[0].bank, cs[0].bank, a)] + done, b) == Owed(Take(ds, a), b) - Paid(done, b)
      ensures Owed(cs, b) - Received([Payment(ds[0].bank, cs[0].bank, a)] + done, b) ==
              Owed(Take(cs, a), b) - Received(done, b)
    {
      PaidFirst(Payment(ds[0].bank, cs[0].bank, a), done, b);
    }
  }

  lemma {:induction false} RoundsAreTransfers(ds: seq<Party>, cs: seq<Party>)
    requires Pool(ds) && Pool(cs)
    ensures AlwaysLargest(ds, cs) <==> AllLargest(ds, cs, Match(ds, cs))
    decreases |ds| + |cs|
  {
    if ds != [] && cs != [] {
      var a := Min(ds[0].amount, cs[0].amount);
      var ds', cs' := Take(ds, a), Take(cs, a);
      var first, rest := Payment(ds[0].bank, cs[0].bank, a), Match(Take(ds, a), Take(cs, a));
      PoolIsPositive(ds);
      PoolIsPositive(cs);
      TakeKeepsPool(ds, a);
      TakeKeepsPool(cs, a);
      RoundsAreTransfers(ds', cs');
      FirstIsLargest(ds, cs, a);
      FirstAndRest(ds, cs, first, rest);
      hide LargestNow, AllLargest, Pool, HeadIsLargest, Take;
      forall k | 0 <= k < |rest|
        ensures LargestNow(ds, cs, [first] + rest[..k], rest[k]) <==> LargestNow(ds', cs', rest[..k], rest[k])
      {
        LaterIsLargest(ds, cs, rest[..k], rest[k]);
      }
      RestIsLargest(ds, cs, ds', cs', first, rest);
    }
  }

  lemma FirstAndRest(ds: seq<Party>, cs: seq<Party>, first: NetTransfer, rest: seq<NetTransfer>)
    ensures AllLargest(ds, cs, [first] + rest) <==>
            && LargestNow(ds, cs, [], first)
            && forall k :: 0 <= k < |rest| ==> LargestNow(ds, cs, [first] + rest[..k], rest[k])
  {
    hide LargestNow;
    var ts := [first] + rest;
    assert ts[..0] == [];
    assert forall k :: 0 <= k < |rest| ==> ts[k + 1] == rest[k] && ts[..k + 1] == [first] + rest[..k];
    if AllLargest(ds, cs, ts) {
      forall k | 0 <= k < |rest| ensures LargestNow(ds, cs, [first] + rest[..k], rest[k]) {
        assert LargestNow(ds, cs, ts[..k + 1], ts[k + 1]);
      }
      assert LargestNow(ds, cs, ts[..0], ts[0]);
    }
    if && LargestNow(ds, cs, [], first)
       && forall k :: 0 <= k < |rest| ==> LargestNow(ds, cs, [first] + rest[..k], rest[k])
    {
      forall k | 0 <= k < |ts| ensures LargestNow(ds, cs, ts[..k], ts[k]) {
        if k > 0 { assert ts[..k] == [first] + rest[..k - 1] && ts[k] == rest[k - 1]; }
      }
    }
  }

  lemma RestIsLargest(ds: seq<Party>, cs: seq<Party>, ds': seq<Party>, cs': seq<Party>,
                      first: NetTransfer, rest: seq<NetTransfer>)
    requires forall k :: 0 <= k < |rest| ==>
               (LargestNow(ds, cs, [first] + rest[..k], rest[k]) <==> LargestNow(ds', cs', rest[..k], rest[k]))
    ensures (forall k :: 0 <= k < |rest| ==> LargestNow(ds, cs, [first] + rest[..k], rest[k])) <==>
            AllLargest(ds', cs', rest)
  {
    hide LargestNow;
  }

  // ---- On positions ------------------------------------------------------------------------

  /** What bank `b` still has to pay, or to get, after the transfers `ts`. */
  function StillOwes(p: Positions, ts: seq<NetTransfer>, b: BankId): int {
    (if p.Get(b) < 0 then -p.Get(b) else 0) - Paid(ts, b)
  }

  function StillDue(p: Positions, ts: seq<NetTransfer>, b: BankId): int {
    (if p.Get(b) > 0 then p.Get(b) else 0) - Received(ts, b)
  }

  /** Each transfer is from a bank that still owes most to a bank that is still due most. */
  ghost predicate LargestPaysLargest(p: Positions, ts: seq<NetTransfer>) {
    forall k :: 0 <= k < |ts| ==> MostIsOpen(p, ts[..k], ts[k])
  }

  ghost predicate MostIsOpen(p: Positions, done: seq<NetTransfer>, t: NetTransfer) {
    && (forall b :: StillOwes(p, done, t.payer) >= StillOwes(p, done, b))
    && (forall b :: StillDue(p, done, t.payee) >= StillDue(p, done, b))
  }

  lemma OpenAmounts(p: Positions, done: seq<NetTransfer>, b: BankId)
    requires p.Valid()
    ensures Owed(LargestFirst(Debtors(p.order, p.net)), b) - Paid(done, b) == StillOwes(p, done, b)
    ensures Owed(LargestFirst(Creditors(p.order, p.net)), b) - Received(done, b) == StillDue(p, done, b)
  {
    var ds, cs := SortedPools(p);
    OwedOutside(ds, b);
    OwedOutside(cs, b);
  }

  lemma MostIsLargest(p: Positions, done: seq<NetTransfer>, t: NetTransfer)
    requires p.Valid()
    ensures MostIsOpen(p, done, t) <==>
            LargestNow(LargestFirst(Debtors(p.order, p.net)), LargestFirst(Creditors(p.order, p.net)), done, t)
  {
    var ds, cs := LargestFirst(Debtors(p.order, p.net)), LargestFirst(Creditors(p.order, p.net));
    hide Positions.Valid, Owed, Paid, Received, StillOwes, StillDue, LargestFirst, Debtors, Creditors;
    forall b
      ensures Owed(ds, b) - Paid(done, b) == StillOwes(p, done, b)
      ensures Owed(cs, b) - Received(done, b) == StillDue(p, done, b)
    {
      OpenAmounts(p, done, b);
    }
  }

  /** The largest remaining debtor always pays the largest remaining creditor if and only if, in the
      two sorted pools, no party that is served in part is left with less than the next one has. */
  lemma LargestPaysLargestIff(p: Positions)
    requires p.Valid()
    ensures var ds, cs := LargestFirst(Debtors(p.order, p.net)), LargestFirst(Creditors(p.order, p.net));
            LargestPaysLargest(p, Greedy(p)) <==> NeverOvertaken(ds, cs) && NeverOvertaken(cs, ds)
  {
    var ds, cs := SortedPools(p);
    var ts := Greedy(p);
    hide Pool, NeverOvertaken, LargestFirst, Debtors, Creditors, Match, LargestNow, MostIsOpen;
    RoundsAreTransfers(ds, cs);
    forall k | 0 <= k < |ts| ensures MostIsOpen(p, ts[..k], ts[k]) <==> LargestNow(ds, cs, ts[..k], ts[k]) {
      MostIsLargest(p, ts[..k], ts[k]);
    }
    PoolIsPositive(ds);
    PoolIsPositive(cs);
    if ds == [] || cs == [] {
      if ds == [] { FewAreNeverOvertaken(ds, cs); } else { FewAreNeverOvertaken(cs, ds); }
    } else {
      SortedHeads(Debtors(p.order, p.net));
      SortedHeads(Creditors(p.order, p.net));
      AlwaysLargestIff(ds, cs);
    }
  }

  lemma SortedHeads(ps: seq<Party>)
    ensures HeadIsLargest(LargestFirst(ps))
    ensures LargestFirst(ps) != [] ==> Descending(LargestFirst(ps)[1..])
  {
    LargestFirstDescends(ps);
  }

  // -- An example in which it does not --

  /** Bank 0 owes four cents, bank 1 two; banks 2 and 3 are owed three each. */
  const UNEVEN: seq<Obligation> := [Payment(0, 2, 3), Payment(0, 3, 1), Payment(1, 3, 2)]
  const UNEVEN_POSITIONS: Positions := Positions([0, 2, 3, 1], map[0 := -4, 1 := -2, 2 := 3, 3 := 3])

  lemma UnevenStart()
    ensures NetPositions(UNEVEN[..2]) == Positions([0, 2, 3], map[0 := -4, 2 := 3, 3 := 1])
  {
    var p := Positions([0, 2], map[0 := -3, 2 := 3]);
    assert NetPositions([]) == Positions([], map[]);
    assert UNEVEN[..2] == [Payment(0, 2, 3), Payment(0, 3, 1)] && UNEVEN[..2][..1] == [Payment(0, 2, 3)];
    assert UNEVEN[..2][..1][..0] == [];
    assert NetPositions(UNEVEN[..2][..1]) == Post(NetPositions([]), Payment(0, 2, 3)) == p;
    assert NetPositions(UNEVEN[..2]) == Post(p, Payment(0, 3, 1));
  }

  lemma UnevenPositions()
    ensures NetPositions(UNEVEN) == UNEVEN_POSITIONS
  {
    UnevenStart();
    UnevenLast();
    hide Post;
    assert NetPositions(UNEVEN) == Post(NetPositions(UNEVEN[..2]), Payment(1, 3, 2));
  }

  lemma UnevenLast()
    ensures Post(Positions([0, 2, 3], map[0 := -4, 2 := 3, 3 := 1]), Payment(1, 3, 2)) == UNEVEN_POSITIONS
  {
  }

  lemma UnevenPools()
    ensures Debtors(UNEVEN_POSITIONS.order, UNEVEN_POSITIONS.net) == [Party(0, 4), Party(1, 2)]
    ensures Creditors(UNEVEN_POSITIONS.order, UNEVEN_POSITIONS.net) == [Party(2, 3), Party(3, 3)]
  {
    var p := UNEVEN_POSITIONS;
    assert p.order[1..] == [2, 3, 1] && [2, 3, 1][1..] == [3, 1] && [3, 1][1..] == [1] && [1][1..] == [];
    FirstBank([1], p.net);
    FirstBank([3, 1], p.net);
    FirstBank([2, 3, 1], p.net);
    FirstBank(p.order, p.net);
  }

  lemma UnevenMatch()
    ensures LargestFirst([Party(0, 4), Party(1, 2)]) == [Party(0, 4), Party(1, 2)]
    ensures LargestFirst([Party(2, 3), Party(3, 3)]) == [Party(2, 3), Party(3, 3)]
    ensures Match([Party(0, 4), Party(1, 2)], [Party(2, 3), Party(3, 3)]) ==
            [Payment(0, 2, 3), Payment(0, 3, 1), Payment(1, 3, 2)]
  {
    assert [Party(0, 4), Party(1, 2)][1..] == [Party(1, 2)] && [Party(2, 3), Party(3, 3)][1..] == [Party(3, 3)];
    assert LargestFirst([Party(1, 2)]) == [Party(1, 2)] && LargestFirst([Party(3, 3)]) == [Party(3, 3)];
    assert Take([Party(0, 4), Party(1, 2)], 3) == [Party(0, 1), Party(1, 2)];
    assert Take([Party(2, 3), Party(3, 3)], 3) == [Party(3, 3)];
    assert Take([Party(0, 1), Party(1, 2)], 1) == [Party(1, 2)] && Take([Party(3, 3)], 1) == [Party(3, 2)];
    assert Match([Party(1, 2)], [Party(3, 2)]) == [Payment(1, 3, 2)];
    assert Match([Party(0, 1), Party(1, 2)], [Party(3, 3)]) == [Payment(0, 3, 1)] + Match([Party(1, 2)], [Party(3, 2)]);
  }

  /** The pools are not sorted again: bank 0, which has one cent left to pay, makes the second
      transfer although bank 1 still owes two. */
  lemma PoolsAreNotSortedAgain()
    ensures var p, ts := NetPositions(UNEVEN), Netted(UNEVEN);
            && |ts| > 1 && ts[1].payer == 0
            && StillOwes(p, ts[..1], 0) == 1 && StillOwes(p, ts[..1], 1) == 2
            && !LargestPaysLargest(p, ts)
  {
    UnevenPositions();
    UnevenPools();
    UnevenMatch();
    hide NetPositions, LargestFirst, Debtors, Creditors, Match;
    NetPositionsCorrect(UNEVEN);
    var p, ts := NetPositions(UNEVEN), Netted(UNEVEN);
    assert ts == [Payment(0, 2, 3), Payment(0, 3, 1), Payment(1, 3, 2)];
    assert ts[..1] == [Payment(0, 2, 3)] + [];
    PaidFirst(Payment(0, 2, 3), [], 0);
    PaidFirst(Payment(0, 2, 3), [], 1);
    assert StillOwes(p, ts[..1], ts[1].payer) < StillOwes(p, ts[..1], 1);
    assert !MostIsOpen(p, ts[..1], ts[1]);
  }
}
