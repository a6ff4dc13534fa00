/** The ledger service and the settlement worker, as they update the tables in place. */
module LedgerService {
  import opened Common
  import opened Netting
  import opened Ledger
  import LedgerLaws
  import Settlement

  /** What the RTGS answers to a dispatch: nothing at all, or the transfers it carried out. */
  datatype Rtgs = Unavailable | Answers(carriedOut: set<TransferId>)

  datatype Report =
    | Skipped
    | NoEntries(s: SessionId)
    | Balanced(s: SessionId)
    | Dispatched(s: SessionId, status: SessionStatus)

  class LedgerService {
    var entries: seq<Entry>
    var sessions: seq<Session>
    var transfers: seq<Transfer>

    constructor ()
      ensures State() == Settlement.EMPTY
    {
      entries, sessions, transfers := [], [], [];
    }

    function State(): Books
      reads this
    {
      Books(entries, sessions, transfers)
    }

    method RecordC2bTransaction(tx: C2bTransaction, klikBank: Option<BankId>) returns (r: Result<seq<Entry>, Error>)
      modifies this
      ensures match RecordC2b(old(entries), tx, klikBank)
              case Err(e) => r == Err(e)
              case Ok(_) => r == Ok(if Recorded(old(entries), tx.idempotencyKey)
                                    then BookedUnder(entries, tx.idempotencyKey) else C2bEntries(tx, klikBank))
      ensures State() == Settlement.Step(old(State()), Settlement.Book(tx, klikBank))
      ensures tx.split.Some? && tx.split.value.klikFee >= 0 && tx.split.value.agentFee >= 0 && r.Ok?
              && !Recorded(old(entries), tx.idempotencyKey) ==>
                RightlyBooked(old(entries), entries, tx, klikBank)
    {
      hide RightlyBooked;
      if tx.split.Some? && tx.split.value.klikFee >= 0 && tx.split.value.agentFee >= 0 {
        if RecordC2b(entries, tx, klikBank).Ok? && !Recorded(entries, tx.idempotencyKey) {
          LedgerLaws.PaymentIsBookedRight(entries, tx, klikBank);
        }
      }
      if !tx.completed {
        return Err(TransactionNotCompleted);
      }
      if tx.split.None? {
        return Err(FeesNotCalculated);
      }
      if Recorded(entries, tx.idempotencyKey) {
        return Ok(BookedUnder(entries, tx.idempotencyKey));
      }
      var created: seq<Entry> := [];
      var f := tx.split.value;
      if !tx.isOnUs {
        if f.merchantNet <= 0 {
          return Err(AmountNotPositive); // the row is refused and the transaction rolled back
        }
        created := created + [NewEntry(tx, tx.merchantBank, BankBeneficiary(tx.merchantBank), f.merchantNet)];
      }
      if f.klikFee > 0 {
        created := created + [NewEntry(tx, if klikBank.Some? then klikBank.value else tx.sender, Klik, f.klikFee)];
      }
      if f.agentFee > 0 {
        created := created + [NewEntry(tx, tx.agentBank, Agent(tx.agent), f.agentFee)];
      }
      assert created == C2bEntries(tx, klikBank);
      entries := entries + created;
      r := Ok(created);
    }

    method CreateSession(zone: Zone, now: Timestamp) returns (r: Result<SessionId, Error>)
      modifies this`sessions
      ensures r == if HasActive(old(sessions), zone) then Err(ActiveSessionExists) else Ok(|old(sessions)|)
      ensures r.Ok? <==> forall i :: 0 <= i < |old(sessions)| && old(sessions)[i].zone == zone ==>
                           old(sessions)[i].status == COMPLETED || old(sessions)[i].status == FAILED
      ensures sessions == if r.Ok? then old(sessions) + [Session(zone, OPEN, now, None, 0, 0)] else old(sessions)
      ensures State() == Settlement.Step(old(State()), Settlement.Open(zone, now))
    {
      if HasActive(sessions, zone) {
        return Err(ActiveSessionExists);
      }
      sessions := sessions + [Session(zone, OPEN, now, None, 0, 0)];
      r := Ok(|sessions| - 1);
    }

    method AssignPendingEntriesToSession(s: SessionId) returns (r: Result<nat, Error>)
      requires s < |sessions|
      modifies this`sessions, this`entries
      ensures r == if old(sessions[s].status) != OPEN then Err(InvalidSessionState)
                   else Ok(CountPending(old(entries), old(sessions[s].zone)))
      ensures |entries| == |old(entries)|
      ensures r.Ok? ==> forall i :: 0 <= i < |entries| ==>
                var e := old(entries)[i];
                entries[i] == if e.zone == old(sessions[s].zone) && !e.settled && e.session == None
                              then e.(session := Some(s)) else e
      ensures State() == Settlement.Step(old(State()), Settlement.AssignTo(s))
    {
      if sessions[s].status != OPEN {
        return Err(InvalidSessionState);
      }
      var zone := sessions[s].zone;
      var count, total := CountPending(entries, zone), SumPending(entries, zone);
      entries := LinkPending(entries, s, zone);
      sessions := sessions[s := sessions[s].(entriesCount := count, volume := total, status := NETTING)];
      r := Ok(count);
    }

    method RunNetting(s: SessionId) returns (r: Result<seq<TransferId>, Error>)
      requires s < |sessions|
      modifies this`sessions, this`transfers
      ensures State() == Settlement.Step(old(State()), Settlement.Net(s))
      ensures old(sessions[s].status) != NETTING ==> r == Err(InvalidSessionState)
      ensures old(sessions[s].status) == NETTING ==>
                r.Ok? && |r.value| == |transfers| - |old(transfers)| &&
                forall i :: 0 <= i < |r.value| ==> r.value[i] == |old(transfers)| + i
    {
      hide Netted, EntriesOf;
      if sessions[s].status != NETTING {
        return Err(InvalidSessionState);
      }
      var netResults := NetObligations(EntriesOf(entries, s, true));
      var ids: seq<TransferId> := [];
      var created: seq<Transfer> := [];
      for i := 0 to |netResults|
        invariant created == Planned(s, netResults[..i]) && |ids| == i
        invariant forall j :: 0 <= j < i ==> ids[j] == |transfers| + j
        invariant State() == old(State())
      {
        ids := ids + [|transfers| + i];
        created := created + [Transfer(s, netResults[i], PENDING, None)];
      }
      assert netResults[..|netResults|] == netResults;
      transfers := transfers + created;
      sessions := sessions[s := sessions[s].(status := SETTLING)];
      r := Ok(ids);
    }

    method MarkSettled(s: SessionId, results: seq<TransferResult>, now: Timestamp)
      returns (r: Result<SessionStatus, Error>)
      requires s < |sessions|
      modifies this
      ensures Ledger.MarkSettled(old(State()), s, results, now) ==
              if r.Ok? then Ok(State()) else Err(InvalidSessionState)
      ensures r.Ok? ==> s < |sessions| && r.value == sessions[s].status
      ensures r.Err? ==> State() == old(State())
    {
      if sessions[s].status != SETTLING {
        return Err(InvalidSessionState);
      }
      var anyFailed := false;
      ghost var start := Progress(entries, transfers, false);
      for i := 0 to |results|
        invariant Progress(entries, transfers, anyFailed) == ApplyResults(start, s, results[..i], now)
        invariant sessions == old(sessions)
      {
        assert results[..i + 1][..i] == results[..i];
        var id := results[i].id;
        if id >= |transfers| || transfers[id].session != s {
          anyFailed := true;
        } else if results[i].success {
          var t := transfers[id];
          transfers := transfers[id := t.(status := DONE, completedAt := Some(now))];
          entries := SettlePair(entries, s, t.payment.payer, t.payment.payee, now);
        } else {
          transfers := transfers[id := transfers[id].(status := REFUSED)];
          anyFailed := true;
        }
      }
      assert results[..|results|] == results;
      if anyFailed {
        sessions := Close(sessions, s, FAILED, now);
      } else {
        entries := SettleAll(entries, s, now);
        sessions := Close(sessions, s, COMPLETED, now);
      }
      r := Ok(sessions[s].status);
    }

    /** The whole pipeline of one zone.  Whatever the RTGS answers, the worker skips a zone that has an
        active session, or takes every pending entry of the zone into a new session and closes it, in
        steps of the ledger; each outcome is told apart by what was there to settle. */
    method RunSettlementSession(zone: Zone, rtgs: Rtgs, now: Timestamp) returns (report: Report)
      requires Settlement.Valid(State())
      modifies this
      ensures Settlement.Valid(State()) && Settlement.Reaches(old(State()), State())
      ensures Settlement.Later(old(State()), State())
      ensures report == Skipped <==> HasActive(old(sessions), zone)
      ensures report == Skipped ==> State() == old(State())
      ensures report != Skipped ==> report.s == |old(sessions)| && TookAll(old(State()), State(), zone)
      ensures report.NoEntries? ==> forall e :: e in old(entries) ==> !Pending(e, zone)
      ensures report.NoEntries? || report.Balanced? ==>
                transfers == old(transfers) && sessions[report.s].status == COMPLETED
      ensures report.Dispatched? ==>
                && report.status == sessions[report.s].status && |transfers| > |old(transfers)|
                && (report.status == COMPLETED <==>
                      rtgs.Answers? && forall t :: |old(transfers)| <= t < |transfers| ==> t in rtgs.carriedOut)
    {
      hide Settlement.Valid, Settlement.Reaches, Settlement.Later, Settlement.Step;
      hide LinkPending, CountPending, TookAll, Fresh;
      ghost var b0 := State();
      Settlement.ReachesItself(b0);
      Settlement.LaterIsReflexive(b0);
      var created := CreateSession(zone, now);
      if created.Err? {
        return Skipped;
      }
      var s := created.value;
      var linked := AssignPendingEntriesToSession(s);
      PipelineLinks(b0, zone, now);
      if linked.value == 0 {
        sessions := Close(sessions, s, COMPLETED, now);
        EmptyExit(b0, zone, now);
        Settlement.ReachableIsLater(b0, State());
        return NoEntries(s);
      }
      var netted := RunNetting(s);
      PipelineNets(b0, zone, now);
      if netted.value == [] {
        entries := SettleAll(entries, s, now);
        sessions := Close(sessions, s, COMPLETED, now);
        BalancedExit(b0, zone, now);
        Settlement.ReachableIsLater(b0, State());
        return Balanced(s);
      }
      var status := DispatchAndSettle(b0, zone, s, netted.value, rtgs, now);
      Settlement.ReachableIsLater(b0, State());
      report := Dispatched(s, status);
    }

    /** The last two stages: a result for every transfer (all refused if the RTGS is unavailable),
        then `mark_settled`. */
    method DispatchAndSettle(ghost b0: Books, ghost zone: Zone, s: SessionId, ids: seq<TransferId>, rtgs: Rtgs,
                             now: Timestamp)
      returns (status: SessionStatus)
      requires s == |b0.sessions| && Fresh(b0, State(), zone)
      requires Continues(b0, State()) && sessions[s].status == SETTLING
      requires |ids| == |transfers| - |b0.transfers| > 0
      requires forall i :: 0 <= i < |ids| ==> ids[i] == |b0.transfers| + i
      modifies this
      ensures Continues(b0, State()) && TookAll(b0, State(), zone)
      ensures status == sessions[s].status && |transfers| == |old(transfers)|
      ensures status == COMPLETED <==>
              rtgs.Answers? && forall t :: |b0.transfers| <= t < |transfers| ==> t in rtgs.carriedOut
    {
      hide Settlement.Valid, Settlement.Reaches, Settlement.Covers, ApplyResults, Continues;
      var results: seq<TransferResult> := [];
      for i := 0 to |ids|
        invariant |results| == i
        invariant forall j :: 0 <= j < i ==>
          results[j] == TransferResult(ids[j], rtgs.Answers? && ids[j] in rtgs.carriedOut)
      {
        results := results + [TransferResult(ids[i], rtgs.Answers? && ids[i] in rtgs.carriedOut)];
      }
      ghost var b3 := State();
      PipelineDispatches(b0, b3, zone, results, now);
      var closed := MarkSettled(s, results, now);
      StepFrom(b0, b3, Settlement.Finish(s, results, now));
      status := closed.value;
      ghost var n := |b0.transfers|;
      if status == COMPLETED {
        assert results[0].success;
        forall t | n <= t < |transfers| ensures t in rtgs.carriedOut {
          assert results[t - n].success;
        }
      }
    }
  }

  // ---- The pipeline as a sequence of steps ---------------------------------------------------

  ghost predicate Continues(b0: Books, b: Books) {
    Settlement.Valid(b) && Settlement.Reaches(b0, b)
  }

  lemma StepFrom(b0: Books, b: Books, l: Settlement.Label)
    requires Continues(b0, b)
    ensures Continues(b0, Settlement.Step(b, l))
  {
    Settlement.StepKeepsValid(b, l);
    Settlement.ReachesStep(b0, b, l);
  }

  /** The outcome of a pipeline that was not skipped: one more session, closed, with exactly the
      entries that were pending in its zone. */
  ghost predicate TookAll(b0: Books, b: Books, zone: Zone) {
    var s := |b0.sessions|;
    && |b.sessions| == s + 1 && b.sessions[..s] == b0.sessions && b.sessions[s].zone == zone
    && b.sessions[s].status in {COMPLETED, FAILED} && !HasActive(b.sessions, zone)
    && |b.entries| == |b0.entries| && |b0.transfers| <= |b.transfers|
    && (forall i :: 0 <= i < |b.entries| ==>
          if b0.entries[i].zone == zone && !b0.entries[i].settled && b0.entries[i].session == None
          then b.entries[i].session == Some(s) else b.entries[i] == b0.entries[i])
  }

  ghost function Linked(b0: Books, zone: Zone, now: Timestamp): Books {
    Settlement.Step(Settlement.Step(b0, Settlement.Open(zone, now)), Settlement.AssignTo(|b0.sessions|))
  }

  ghost function NettedBooks(b0: Books, zone: Zone, now: Timestamp): Books {
    Settlement.Step(Linked(b0, zone, now), Settlement.Net(|b0.sessions|))
  }

  /** The new session has exactly the entries that were pending, and no old row points to it. */
  ghost predicate Fresh(b0: Books, b: Books, zone: Zone) {
    var s := |b0.sessions|;
    && |b.entries| == |b0.entries| && |b.sessions| == s + 1 && |b0.transfers| <= |b.transfers|
    && b.sessions[..s] == b0.sessions && b.sessions[s].zone == zone && !HasActive(b0.sessions, zone)
    && (forall i :: 0 <= i < |b0.entries| ==>
          if Pending(b0.entries[i], zone) then b.entries[i] == b0.entries[i].(session := Some(s))
          else b.entries[i] == b0.entries[i] && b.entries[i].session != Some(s))
    && (forall t :: 0 <= t < |b0.transfers| ==> b.transfers[t] == b0.transfers[t] && b.transfers[t].session != s)
    && (forall t :: |b0.transfers| <= t < |b.transfers| ==>
          b.transfers[t].session == s && b.transfers[t].status == PENDING)
  }

  lemma PipelineLinks(b0: Books, zone: Zone, now: Timestamp)
    requires Settlement.Valid(b0) && !HasActive(b0.sessions, zone)
    ensures var b2 := Linked(b0, zone, now);
            && Continues(b0, b2) && Fresh(b0, b2, zone)
            && |b2.sessions| == |b0.sessions| + 1 && b2.sessions[|b0.sessions|].status == NETTING
            && b2.transfers == b0.transfers
  {
    hide Settlement.Reaches;
    var s := |b0.sessions|;
    var b1 := Settlement.Step(b0, Settlement.Open(zone, now));
    Settlement.ReachesItself(b0);
    StepFrom(b0, b0, Settlement.Open(zone, now));
    StepFrom(b0, b1, Settlement.AssignTo(s));
    var b2 := Linked(b0, zone, now);
    forall i | 0 <= i < |b0.entries| ensures b0.entries[i].session != Some(s) {
      assert Settlement.EntryOk(b0.entries[i], b0.sessions);
    }
    forall t | 0 <= t < |b0.transfers| ensures b2.transfers[t].session != s {
      assert Settlement.TransferOk(b0.transfers[t], b0.sessions);
    }
  }

  lemma PipelineNets(b0: Books, zone: Zone, now: Timestamp)
    requires Settlement.Valid(b0) && !HasActive(b0.sessions, zone)
    ensures var b3 := NettedBooks(b0, zone, now);
            && Continues(b0, b3) && Fresh(b0, b3, zone)
            && |b3.sessions| == |b0.sessions| + 1 && b3.sessions[|b0.sessions|].status == SETTLING
  {
    hide Continues, EntriesOf, Netted;
    PipelineLinks(b0, zone, now);
    StepFrom(b0, Linked(b0, zone, now), Settlement.Net(|b0.sessions|));
  }

  /** Nothing was pending: the session is closed at once. */
  lemma EmptyExit(b0: Books, zone: Zone, now: Timestamp)
    requires Settlement.Valid(b0) && !HasActive(b0.sessions, zone) && CountPending(b0.entries, zone) == 0
    ensures forall e :: e in b0.entries ==> !Pending(e, zone)
    ensures var s, b2 := |b0.sessions|, Linked(b0, zone, now);
            && s < |b2.sessions|
            && var b := b2.(sessions := Close(b2.sessions, s, COMPLETED, now));
            && Continues(b0, b) && TookAll(b0, b, zone) && b.transfers == b0.transfers
            && b.sessions[s].status == COMPLETED
  {
    hide Continues, Linked, Settlement.Step;
    var s, b2 := |b0.sessions|, Linked(b0, zone, now);
    PipelineLinks(b0, zone, now);
    CountPendingIsZero(b0.entries, zone);
    forall e | e in b2.entries ensures e.session != Some(s) {
      var i :| 0 <= i < |b2.entries| && b2.entries[i] == e;
      assert b0.entries[i] in b0.entries;
    }
    FinishesEmpty(b2, s, now);
    StepFrom(b0, b2, Settlement.FinishEmpty(s, now));
  }

  /** The entries cancel out: the session is closed without a transfer. */
  lemma BalancedExit(b0: Books, zone: Zone, now: Timestamp)
    requires Settlement.Valid(b0) && !HasActive(b0.sessions, zone)
    requires |NettedBooks(b0, zone, now).transfers| == |b0.transfers|
    ensures var s, b3 := |b0.sessions|, NettedBooks(b0, zone, now);
            && s < |b3.sessions|
            && var b := CompleteWithoutTransfers(b3, s, now);
            && Continues(b0, b) && TookAll(b0, b, zone) && b.transfers == b0.transfers
            && b.sessions[s].status == COMPLETED
  {
    hide Continues, NettedBooks, Settlement.Step;
    var s, b3 := |b0.sessions|, NettedBooks(b0, zone, now);
    PipelineNets(b0, zone, now);
    FinishesBalanced(b3, s, now);
    StepFrom(b0, b3, Settlement.FinishBalanced(s, now));
  }

  /** A list of results, one for each transfer of the new session, covers the session. */
  ghost predicate OnePerTransfer(b0: Books, b3: Books, results: seq<TransferResult>) {
    && |results| == |b3.transfers| - |b0.transfers|
    && forall i :: 0 <= i < |results| ==> results[i].id == |b0.transfers| + i
  }

  lemma ResultsCover(b0: Books, b3: Books, zone: Zone, results: seq<TransferResult>)
    requires Fresh(b0, b3, zone) && OnePerTransfer(b0, b3, results)
    ensures Settlement.Covers(b3.transfers, |b0.sessions|, results)
  {
    var s := |b0.sessions|;
    forall t | 0 <= t < |b3.transfers| && b3.transfers[t].session == s ensures exists r :: r in results && r.id == t {
      assert results[t - |b0.transfers|] in results;
    }
  }

  lemma PipelineDispatches(b0: Books, b3: Books, zone: Zone, results: seq<TransferResult>, now: Timestamp)
    requires Fresh(b0, b3, zone) && OnePerTransfer(b0, b3, results)
    requires b3.sessions[|b0.sessions|].status == SETTLING
    ensures var s := |b0.sessions|;
            && Settlement.Covers(b3.transfers, s, results)
            && var b4 := Ledger.MarkSettled(b3, s, results, now);
            && b4.Ok? && |b4.value.transfers| == |b3.transfers| && TookAll(b0, b4.value, zone)
            && (b4.value.sessions[s].status == COMPLETED <==> forall i :: 0 <= i < |results| ==> results[i].success)
  {
    var s := |b0.sessions|;
    ResultsCover(b0, b3, zone, results);
    var p := ApplyResults(Progress(b3.entries, b3.transfers, false), s, results, now);
    assert Settlement.Progressed(b3, s, results, p) by {
      Settlement.ResultsProgress(b3, s, results, now);
    }
    hide ApplyResults, Settlement.Covers;
    forall i | 0 <= i < |b0.entries|
      ensures p.entries[i] == b3.entries[i] || (b3.entries[i].session == Some(s) && p.entries[i].session == Some(s))
    {
      assert p.entries[i] == b3.entries[i] || Settlement.SettledFrom(b3.entries[i], s, p.entries[i]);
    }
  }

  lemma {:induction false} CountPendingIsZero(entries: seq<Entry>, zone: Zone)
    ensures CountPending(entries, zone) == 0 <==> forall e :: e in entries ==> !Pending(e, zone)
  {
    if entries != [] {
      var n := |entries| - 1;
      CountPendingIsZero(entries[..n], zone);
      assert entries == entries[..n] + [entries[n]];
    }
  }

  lemma FinishesEmpty(b: Books, s: SessionId, now: Timestamp)
    requires s < |b.sessions| && b.sessions[s].status == NETTING
    requires forall e :: e in b.entries ==> e.session != Some(s)
    ensures Settlement.Step(b, Settlement.FinishEmpty(s, now)) == b.(sessions := Close(b.sessions, s, COMPLETED, now))
  {
    Settlement.NoEntries(b.entries, s);
    assert SettleAll(b.entries, s, now) == b.entries;
  }

  lemma FinishesBalanced(b: Books, s: SessionId, now: Timestamp)
    requires s < |b.sessions| && b.sessions[s].status == SETTLING
    requires forall t :: t in b.transfers ==> t.session != s
    ensures Settlement.Step(b, Settlement.FinishBalanced(s, now)) == CompleteWithoutTransfers(b, s, now)
  {
    Settlement.NoTransfers(b.transfers, s);
  }
}
