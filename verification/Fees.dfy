/** The merchant service charge: agreements that fix two fee percentages over time, and the
    split of a gross amount.  Amounts are whole cents, percentages whole hundredths of a percent,
    so that `amount * percentage` is in units of 1/10000 cent. */
module Fees {
  import opened Common

  type AgentId = nat
  type AgreementId = nat
  type Timestamp = int

  const WHOLE: int := 10000 // 100.00 %

  // ---- Splitting one payment ---------------------------------------------------------------

  /** `quantize(Decimal('0.01'), ROUND_HALF_UP)` of `units`/10000 cents, for amounts >= 0. */
  function RoundMoney(units: nat): nat {
    (units + WHOLE / 2) / WHOLE
  }

  datatype Split = Split(klikFee: int, agentFee: int, merchantNet: int)

  function SplitOf(gross: nat, klikPerc: nat, agentPerc: nat): Split {
    var klikFee := RoundMoney(gross * klikPerc);
    var agentFee := RoundMoney(gross * agentPerc);
    Split(klikFee, agentFee, gross - klikFee - agentFee)
  }

  /** Half-up rounding, characterised: the only whole number of cents within half a cent of the
      exact value, ties going up. */
  lemma RoundsHalfUp(units: nat, cents: int)
    ensures cents == RoundMoney(units) <==> units - WHOLE / 2 < cents * WHOLE <= units + WHOLE / 2
  {
  }

  lemma RoundingTwoSharesFits(gross: nat, x: nat, y: nat)
    requires x + y <= gross * (WHOLE - 1)
    ensures RoundMoney(x) + RoundMoney(y) <= gross
  {
    RoundsHalfUp(x, RoundMoney(x));
    RoundsHalfUp(y, RoundMoney(y));
  }

  lemma SharesAddUp(gross: nat, k: nat, a: nat)
    requires k + a < WHOLE
    ensures gross * k + gross * a <= gross * (WHOLE - 1)
  {
    assert gross * k + gross * a == gross * (k + a);
    assert gross * (WHOLE - 1) == gross * (k + a) + gross * (WHOLE - 1 - k - a);
  }

  /** Nothing is lost or created, the merchant never pays, and each fee is rounded half up: within half
      a cent, a tie going to the fee. */
  lemma SplitIsFair(gross: nat, klikPerc: nat, agentPerc: nat)
    requires gross > 0 && klikPerc + agentPerc < WHOLE
    ensures var s := SplitOf(gross, klikPerc, agentPerc);
            && s.klikFee + s.agentFee + s.merchantNet == gross
            && s.klikFee >= 0 && s.agentFee >= 0 && s.merchantNet >= 0
            && -(WHOLE / 2) < s.klikFee * WHOLE - gross * klikPerc <= WHOLE / 2
            && -(WHOLE / 2) < s.agentFee * WHOLE - gross * agentPerc <= WHOLE / 2
  {
    var x, y := gross * klikPerc, gross * agentPerc;
    SharesAddUp(gross, klikPerc, agentPerc);
    RoundingTwoSharesFits(gross, x, y);
    RoundsHalfUp(x, RoundMoney(x));
    RoundsHalfUp(y, RoundMoney(y));
  }

  /** A merchant's share can be rounded away, but only when it was at most one cent: as it is for
      a payment of one cent with fees of 50 % and 49.99 %. */
  lemma MerchantNetVanishesOnlyBelowOneCent(gross: nat, klikPerc: nat, agentPerc: nat)
    requires gross > 0 && klikPerc + agentPerc < WHOLE
    ensures SplitOf(gross, klikPerc, agentPerc).merchantNet == 0 ==> gross * (WHOLE - klikPerc - agentPerc) <= WHOLE
    ensures SplitOf(1, 5000, 4999) == Split(1, 0, 0)
  {
    SplitIsFair(gross, klikPerc, agentPerc);
    assert gross * (WHOLE - klikPerc - agentPerc) == gross * WHOLE - gross * klikPerc - gross * agentPerc;
  }

  // ---- Agreements over time ----------------------------------------------------------------

  datatype Agreement = Agreement(agent: AgentId, klikPerc: int, agentPerc: int,
                                 validFrom: Timestamp, validTo: Option<Timestamp>) {
    predicate IsActiveAt(when: Timestamp) {
      if when < validFrom then false
      else if validTo.Some? && when >= validTo.value then false
      else true
    }

    predicate OverlapsWith(other: Agreement) {
      var endsBefore := validTo.Some? && validTo.value <= other.validFrom;
      var startsAfter := other.validTo.Some? && validFrom >= other.validTo.value;
      !(endsBefore || startsAfter)
    }

    /** The table's own constraints, together with the bound on the fees. */
    predicate FieldsOk() {
      && klikPerc >= 0 && agentPerc >= 0
      && klikPerc + agentPerc < WHOLE
      && (validTo.Some? ==> validTo.value > validFrom)
    }
  }

  /** Overlap means what it should: some instant at which both are active. */
  lemma OverlapIsSharedInstant(a: Agreement, b: Agreement)
    requires a.FieldsOk() && b.FieldsOk()
    ensures a.OverlapsWith(b) <==> exists t :: a.IsActiveAt(t) && b.IsActiveAt(t)
    ensures a.OverlapsWith(b) <==> b.OverlapsWith(a)
  {
    var t := if a.validFrom < b.validFrom then b.validFrom else a.validFrom;
    assert a.OverlapsWith(b) ==> a.IsActiveAt(t) && b.IsActiveAt(t);
  }

  datatype SaveResult = Saved(id: AgreementId) | FeesTooHigh | Overlapping | ConstraintViolated

  /** The agreements of all agents, by primary key. */
  ghost predicate Consistent(rows: seq<Agreement>) {
    && (forall i :: 0 <= i < |rows| ==> rows[i].FieldsOk())
    && (forall i, j, t :: 0 <= i < |rows| && 0 <= j < |rows| && i != j && rows[i].agent == rows[j].agent ==>
          !(rows[i].IsActiveAt(t) && rows[j].IsActiveAt(t)))
  }

  predicate Clashes(rows: seq<Agreement>, self: AgreementId, a: Agreement) {
    exists i :: 0 <= i < |rows| && i != self && rows[i].agent == a.agent && a.OverlapsWith(rows[i])
  }

  /** The instants from the start on, and before the end if there is one. */
  predicate InForce(a: Agreement, t: Timestamp) {
    a.validFrom <= t && (a.validTo.None? || t < a.validTo.value)
  }

  lemma InForceIsActive(a: Agreement, t: Timestamp)
    ensures a.IsActiveAt(t) <==> InForce(a, t)
  {
  }

  lemma SavedInPlainTerms(rows: seq<Agreement>, id: AgreementId, a: Agreement)
    requires Consistent(rows)
    ensures a.FieldsOk() && !Clashes(rows, id, a) <==>
            && a.klikPerc >= 0 && a.agentPerc >= 0 && a.klikPerc + a.agentPerc < 10000
            && (a.validTo.Some? ==> a.validFrom < a.validTo.value)
            && forall i, t :: 0 <= i < |rows| && i != id && rows[i].agent == a.agent ==>
                 !(InForce(a, t) && InForce(rows[i], t))
  {
    if a.FieldsOk() {
      forall i | 0 <= i < |rows| && i != id && rows[i].agent == a.agent
        ensures a.OverlapsWith(rows[i]) <==> exists t :: InForce(a, t) && InForce(rows[i], t)
      {
        OverlapIsSharedInstant(a, rows[i]);
        if a.OverlapsWith(rows[i]) {
          var t :| a.IsActiveAt(t) && rows[i].IsActiveAt(t);
          assert InForce(a, t) && InForce(rows[i], t);
        }
        forall t ensures a.IsActiveAt(t) <==> InForce(a, t) { InForceIsActive(a, t); }
      }
    }
  }

  /** Effect of saving `a` under key `id`: an existing key updates its row, the next free key
      inserts one. */
  function Written(rows: seq<Agreement>, id: AgreementId, a: Agreement): seq<Agreement>
    requires id <= |rows|
  {
    if id < |rows| then rows[id := a] else rows + [a]
  }

  class AgreementTable {
    var rows: seq<Agreement>

    constructor ()
      ensures rows == [] && Consistent(rows)
    {
      rows := [];
    }

    /** `full_clean` and `save`. */
    method Save(id: AgreementId, a: Agreement) returns (result: SaveResult)
      requires id <= |rows| && Consistent(rows)
      modifies this
      ensures Consistent(rows)
      ensures result.FeesTooHigh? <==> a.klikPerc + a.agentPerc >= WHOLE
      ensures result.Overlapping? <==> a.klikPerc + a.agentPerc < WHOLE && Clashes(old(rows), id, a)
      ensures result.Saved? <==> a.FieldsOk() && !Clashes(old(rows), id, a)
      // in plain terms: only another agreement of the same agent can be in the way, at a shared instant
      ensures result.Saved? <==>
              && a.klikPerc >= 0 && a.agentPerc >= 0 && a.klikPerc + a.agentPerc < 10000
              && (a.validTo.Some? ==> a.validFrom < a.validTo.value)
              && forall i, t :: 0 <= i < |old(rows)| && i != id && old(rows)[i].agent == a.agent ==>
                   !(InForce(a, t) && InForce(old(rows)[i], t))
      ensures result.Saved? ==> result.id == id
      ensures rows == if result.Saved? then Written(old(rows), id, a) else old(rows)
    {
      if a.klikPerc + a.agentPerc >= WHOLE {
        return FeesTooHigh;
      }
      SavedInPlainTerms(rows, id, a);
      for i := 0 to |rows|
        invariant forall j :: 0 <= j < i && j != id && rows[j].agent == a.agent ==> !a.OverlapsWith(rows[j])
        invariant rows == old(rows)
      {
        if i != id && rows[i].agent == a.agent && a.OverlapsWith(rows[i]) {
          return Overlapping;
        }
      }
      if !a.FieldsOk() {
        return ConstraintViolated;
      }
      SaveKeepsConsistent(rows, id, a);
      rows := Written(rows, id, a);
      result := Saved(id);
    }
  }

  lemma SaveKeepsConsistent(rows: seq<Agreement>, id: AgreementId, a: Agreement)
    requires id <= |rows| && Consistent(rows) && a.FieldsOk() && !Clashes(rows, id, a)
    ensures Consistent(Written(rows, id, a))
  {
    forall i | 0 <= i < |rows| && i != id && rows[i].agent == a.agent
      ensures forall t :: !(a.IsActiveAt(t) && rows[i].IsActiveAt(t))
    {
      OverlapIsSharedInstant(a, rows[i]);
    }
  }

  datatype SaveRequest = SaveRequest(id: AgreementId, agreement: Agreement)

  /** The table after any sequence of saves, rejected ones included. */
  function Saves(requests: seq<SaveRequest>): seq<Agreement> {
    if requests == [] then []
    else
      var rows, r := Saves(requests[..|requests| - 1]), requests[|requests| - 1];
      if r.id <= |rows| && r.agreement.FieldsOk() && !Clashes(rows, r.id, r.agreement)
      then Written(rows, r.id, r.agreement) else rows
  }

  lemma {:induction false} SavesStayConsistent(requests: seq<SaveRequest>)
    ensures Consistent(Saves(requests))
  {
    if requests != [] {
      var rows, r := Saves(requests[..|requests| - 1]), requests[|requests| - 1];
      SavesStayConsistent(requests[..|requests| - 1]);
      if r.id <= |rows| && r.agreement.FieldsOk() && !Clashes(rows, r.id, r.agreement) {
        SaveKeepsConsistent(rows, r.id, r.agreement);
      }
    }
  }

  /** `get_active_msc`: of the rows valid at `when`, the one that started last. */
  function ActiveAgreement(rows: seq<Agreement>, agent: AgentId, when: Timestamp): Option<Agreement> {
    if rows == [] then None
    else
      var rest := ActiveAgreement(rows[..|rows| - 1], agent, when);
      var last := rows[|rows| - 1];
      if last.agent == agent && last.validFrom <= when && (last.validTo.None? || last.validTo.value > when)
         && (rest.None? || last.validFrom > rest.value.validFrom)
      then Some(last) else rest
  }

  lemma {:induction false} ActiveAgreementIsThere(rows: seq<Agreement>, agent: AgentId, when: Timestamp)
    ensures var r := ActiveAgreement(rows, agent, when);
            match r
            case None => forall a :: a in rows && a.agent == agent ==> !a.IsActiveAt(when)
            case Some(a) => a in rows && a.agent == agent && a.IsActiveAt(when)
  {
    if rows != [] {
      var n := |rows| - 1;
      ActiveAgreementIsThere(rows[..n], agent, when);
      assert rows == rows[..n] + [rows[n]];
    }
  }

  /** In a table built by accepted saves the active agreement is unique: the lookup returns it
      exactly when there is one. */
  lemma ActiveAgreementIsUnique(rows: seq<Agreement>, agent: AgentId, when: Timestamp, i: nat)
    requires Consistent(rows) && i < |rows| && rows[i].agent == agent
    ensures rows[i].IsActiveAt(when) ==> ActiveAgreement(rows, agent, when) == Some(rows[i])
    ensures ActiveAgreement(rows, agent, when).Some? ==> ActiveAgreement(rows, agent, when).value.FieldsOk()
  {
    ActiveAgreementIsThere(rows, agent, when);
    var r := ActiveAgreement(rows, agent, when);
    if r.Some? {
      var j :| 0 <= j < |rows| && rows[j] == r.value;
      assert rows[j].IsActiveAt(when);
    } else {
      assert rows[i] in rows;
    }
  }

  /** `calculate_split`: fails only without an active agreement. */
  function CalculateSplit(rows: seq<Agreement>, agent: AgentId, gross: nat, when: Timestamp): Option<Split>
    requires Consistent(rows)
  {
    ActiveAgreementIsThere(rows, agent, when);
    match ActiveAgreement(rows, agent, when)
    case None => None
    case Some(a) => Some(SplitOf(gross, a.klikPerc, a.agentPerc))
  }

  /** Both fees are what the agreement says, rounded half up. */
  predicate Follows(s: Split, gross: nat, a: Agreement) {
    && -(WHOLE / 2) < s.klikFee * WHOLE - gross * a.klikPerc <= WHOLE / 2
    && -(WHOLE / 2) < s.agentFee * WHOLE - gross * a.agentPerc <= WHOLE / 2
  }

  /** Every split of a positive amount under an agreement in force is fair. */
  lemma EverySplitIsFair(rows: seq<Agreement>, agent: AgentId, gross: nat, when: Timestamp)
    requires Consistent(rows) && gross > 0
    ensures CalculateSplit(rows, agent, gross, when).Some? <==>
            exists a :: a in rows && a.agent == agent && a.IsActiveAt(when)
    ensures var s := CalculateSplit(rows, agent, gross, when);
            s.Some? ==> && s.value.klikFee >= 0 && s.value.agentFee >= 0 && s.value.merchantNet >= 0
                        && s.value.klikFee + s.value.agentFee + s.value.merchantNet == gross
                        && exists a :: a in rows && a.agent == agent && a.IsActiveAt(when) && Follows(s.value, gross, a)
  {
    ActiveAgreementIsThere(rows, agent, when);
    var r := ActiveAgreement(rows, agent, when);
    if r.Some? {
      var j :| 0 <= j < |rows| && rows[j] == r.value;
      SplitIsFair(gross, r.value.klikPerc, r.value.agentPerc);
    }
  }
}
