/** Every state the ledger can reach: the operations as steps in any order, their invariant, and
    what it means for the money moved. */
module Settlement {
  import opened Common
  import opened Netting
  import opened Ledger
  import Forest

  // ---- Steps -------------------------------------------------------------------------------

  datatype Label =
    | Book(tx: C2bTransaction, klikBank: Option<BankId>)
    | BookOther(payment: Payment, to: Beneficiary, zone: Zone, sourceRef: string)
    | Open(zone: Zone, now: Timestamp)
    | AssignTo(s: SessionId)
    | FinishEmpty(s: SessionId, now: Timestamp)
    | Net(s: SessionId)
    | FinishBalanced(s: SessionId, now: Timestamp)
    | Finish(s: SessionId, results: seq<TransferResult>, now: Timestamp)

  /** The gateway answers for every transfer of the session, once, and for no other. */
  ghost predicate Covers(transfers: seq<Transfer>, s: SessionId, results: seq<TransferResult>) {
    && (forall i, j :: 0 <= i < j < |results| ==> results[i].id != results[j].id)
    && (forall r :: r in results ==> r.id < |transfers| && transfers[r.id].session == s)
    && (forall t :: 0 <= t < |transfers| && transfers[t].session == s ==> exists r :: r in results && r.id == t)
  }

  function OrElse(r: Result<Books, Error>, b: Books): Books {
    match r case Ok(v) => v case Err(_) => b
  }

  /** One step; a label that is not enabled leaves the state as it is. */
  ghost function Step(b: Books, l: Label): Books {
    match l
    case Book(tx, klikBank) =>
      (match RecordC2b(b.entries, tx, klikBank) case Ok(es) => b.(entries := es) case Err(_) => b)
    case BookOther(p, to, zone, ref) =>
      if p.amount > 0 then b.(entries := b.entries + [Entry(p, to, zone, ref, None, false, None)]) else b
    case Open(zone, now) => OrElse(CreateSession(b, zone, now), b)
    case AssignTo(s) => if s < |b.sessions| then OrElse(Assign(b, s), b) else b
    case FinishEmpty(s, now) =>
      if s < |b.sessions| && b.sessions[s].status == NETTING && EntriesOf(b.entries, s, false) == []
      then CompleteWithoutTransfers(b, s, now) else b
    case Net(s) => if s < |b.sessions| then OrElse(RunNetting(b, s), b) else b
    case FinishBalanced(s, now) =>
      if s < |b.sessions| && b.sessions[s].status == SETTLING && TransfersOf(b.transfers, s) == []
      then CompleteWithoutTransfers(b, s, now) else b
    case Finish(s, results, now) =>
      if s < |b.sessions| && Covers(b.transfers, s, results) then OrElse(MarkSettled(b, s, results, now), b) else b
  }

  ghost function Run(b: Books, labels: seq<Label>): Books {
    if labels == [] then b else Step(Run(b, labels[..|labels| - 1]), labels[|labels| - 1])
  }

  ghost predicate Reaches(b: Books, b': Books) { exists labels :: b' == Run(b, labels) }

  const EMPTY: Books := Books([], [], [])

  // ---- The invariant -----------------------------------------------------------------------

  ghost predicate EntryOk(e: Entry, sessions: seq<Session>) {
    && e.payment.amount > 0
    && (e.settled <==> e.settledAt.Some?)
    && (e.session.None? ==> !e.settled)
    && (e.session.Some? ==>
          && e.session.value < |sessions|
          && sessions[e.session.value].zone == e.zone
          && sessions[e.session.value].status != OPEN
          && (e.settled ==> sessions[e.session.value].status in {COMPLETED, FAILED})
          && (sessions[e.session.value].status == COMPLETED ==> e.settled))
  }

  ghost predicate TransferOk(t: Transfer, sessions: seq<Session>) {
    && t.session < |sessions|
    && sessions[t.session].status in {SETTLING, COMPLETED, FAILED}
    && (sessions[t.session].status == SETTLING ==> t.status == PENDING)
    && (sessions[t.session].status == COMPLETED ==> t.status == DONE)
    && (sessions[t.session].status == FAILED ==> t.status != PENDING)
  }

  /** A session records how many entries it has and their volume, and the transfers planned for it
      have the net effect of its entries and form a forest. */
  ghost predicate PlanOk(b: Books, s: SessionId)
    requires s < |b.sessions|
  {
    && (b.sessions[s].status != OPEN ==>
          && b.sessions[s].entriesCount == |EntriesOf(b.entries, s, false)|
          && b.sessions[s].volume == Volume(EntriesOf(b.entries, s, false)))
    && (b.sessions[s].status in {SETTLING, COMPLETED, FAILED} ==>
          && WellFormed(TransfersOf(b.transfers, s))
          && Forest.IsForest(TransfersOf(b.transfers, s))
          && forall bank ::
               Netting.Net(TransfersOf(b.transfers, s), bank) == Netting.Net(EntriesOf(b.entries, s, false), bank))
  }

  ghost predicate OneActivePerZone(sessions: seq<Session>) {
    forall i, j :: 0 <= i < j < |sessions| && Active(sessions[i].status) && Active(sessions[j].status) ==>
      sessions[i].zone != sessions[j].zone
  }

  ghost predicate FailureHasCause(b: Books, s: SessionId)
    requires s < |b.sessions|
  {
    b.sessions[s].status == FAILED ==> exists t :: t in b.transfers && t.session == s && t.status == REFUSED
  }

  ghost predicate Valid(b: Books) {
    && (forall e :: e in b.entries ==> EntryOk(e, b.sessions))
    && (forall t :: t in b.transfers ==> TransferOk(t, b.sessions))
    && (forall s :: 0 <= s < |b.sessions| ==> PlanOk(b, s))
    && (forall s :: 0 <= s < |b.sessions| ==> FailureHasCause(b, s))
    && OneActivePerZone(b.sessions)
  }

  // ---- Frames: rows of one session are not touched by steps of another ----------------------

  lemma {:induction false} EntriesFrame(es: seq<Entry>, fs: seq<Entry>, s: SessionId)
    requires |es| == |fs|
    requires forall i :: 0 <= i < |es| ==>
               es[i].payment == fs[i].payment && (es[i].session == Some(s) <==> fs[i].session == Some(s))
    ensures EntriesOf(es, s, false) == EntriesOf(fs, s, false)
  {
    if es != [] { EntriesFrame(es[..|es| - 1], fs[..|fs| - 1], s); }
  }

  lemma {:induction false} EntriesAppend(es: seq<Entry>, added: seq<Entry>, s: SessionId)
    requires forall e :: e in added ==> e.session != Some(s)
    ensures EntriesOf(es + added, s, false) == EntriesOf(es, s, false)
  {
    if added == [] {
      assert es + added == es;
    } else {
      var n := |added| - 1;
      assert (es + added)[..|es + added| - 1] == es + added[..n];
      assert added[n] in added;
      EntriesAppend(es, added[..n], s);
    }
  }

  lemma {:induction false} AllUnsettled(es: seq<Entry>, s: SessionId)
    requires forall e :: e in es && e.session == Some(s) ==> !e.settled
    ensures EntriesOf(es, s, true) == EntriesOf(es, s, false)
  {
    if es != [] { AllUnsettled(es[..|es| - 1], s); }
  }

  lemma {:induction false} NoEntries(es: seq<Entry>, s: SessionId)
    ensures EntriesOf(es, s, false) == [] <==> forall e :: e in es ==> e.session != Some(s)
  {
    if es != [] {
      var n := |es| - 1;
      NoEntries(es[..n], s);
      assert es == es[..n] + [es[n]];
    }
  }

  lemma {:induction false} TransfersFrame(ts: seq<Transfer>, us: seq<Transfer>, s: SessionId)
    requires |ts| == |us|
    requires forall i :: 0 <= i < |ts| ==> ts[i].payment == us[i].payment && ts[i].session == us[i].session
    ensures TransfersOf(ts, s) == TransfersOf(us, s)
  {
    if ts != [] { TransfersFrame(ts[..|ts| - 1], us[..|us| - 1], s); }
  }

  lemma {:induction false} PlannedAppend(ts: seq<Transfer>, s: SessionId, ps: seq<NetTransfer>, s': SessionId)
    ensures TransfersOf(ts + Planned(s, ps), s') == TransfersOf(ts, s') + (if s == s' then ps else [])
  {
    if ps == [] {
      assert ts + Planned(s, ps) == ts;
    } else {
      var n := |ps| - 1;
      var all := ts + Planned(s, ps);
      assert all[..|all| - 1] == ts + Planned(s, ps[..n]);
      PlannedAppend(ts, s, ps[..n], s');
      assert ps == ps[..n] + [ps[n]];
    }
  }

  lemma {:induction false} NoTransfers(ts: seq<Transfer>, s: SessionId)
    ensures TransfersOf(ts, s) == [] <==> forall t :: t in ts ==> t.session != s
  {
    if ts != [] {
      var n := |ts| - 1;
      NoTransfers(ts[..n], s);
      assert ts == ts[..n] + [ts[n]];
    }
  }

  lemma {:induction false} LinkingCounts(es: seq<Entry>, s: SessionId, zone: Zone)
    requires forall e :: e in es ==> e.session != Some(s)
    ensures |EntriesOf(LinkPending(es, s, zone), s, false)| == CountPending(es, zone)
    ensures Volume(EntriesOf(LinkPending(es, s, zone), s, false)) == SumPending(es, zone)
  {
    if es != [] {
      var n := |es| - 1;
      var linked := LinkPending(es, s, zone);
      LinkingCounts(es[..n], s, zone);
      assert linked[..n] == LinkPending(es[..n], s, zone);
      assert es[n] in es;
      var rest := EntriesOf(linked[..n], s, false);
      if Pending(es[n], zone) {
        assert EntriesOf(linked, s, false) == [es[n].payment] + rest;
        assert ([es[n].payment] + rest)[1..] == rest;
      } else {
        assert EntriesOf(linked, s, false) == [] + rest == rest;
      }
    }
  }

  // ---- Preservation ------------------------------------------------------------------------

  lemma BookingKeepsValid(b: Books, added: seq<Entry>)
    requires Valid(b)
    requires forall e :: e in added ==> e.payment.amount > 0 && e.session.None? && !e.settled && e.settledAt.None?
    ensures Valid(b.(entries := b.entries + added))
  {
    var b' := b.(entries := b.entries + added);
    forall s | 0 <= s < |b.sessions| ensures PlanOk(b', s) && FailureHasCause(b', s) {
      assert PlanOk(b, s) && FailureHasCause(b, s);
      EntriesAppend(b.entries, added, s);
    }
  }

  lemma OpeningKeepsValid(b: Books, zone: Zone, now: Timestamp)
    requires Valid(b) && CreateSession(b, zone, now).Ok?
    ensures Valid(CreateSession(b, zone, now).value)
  {
    var b' := CreateSession(b, zone, now).value;
    forall s | 0 <= s < |b'.sessions| ensures PlanOk(b', s) && FailureHasCause(b', s) {
      if s < |b.sessions| { assert PlanOk(b, s) && FailureHasCause(b, s); }
    }
    assert forall e :: e in b'.entries ==> EntryOk(e, b.sessions);
    assert forall t :: t in b'.transfers ==> TransferOk(t, b.sessions);
  }

  lemma AssigningKeepsValid(b: Books, s: SessionId)
    requires Valid(b) && s < |b.sessions| && Assign(b, s).Ok?
    ensures Valid(Assign(b, s).value)
  {
    var b' := Assign(b, s).value;
    forall e | e in b.entries ensures e.session != Some(s) { assert EntryOk(e, b.sessions); }
    LinkingCounts(b.entries, s, b.sessions[s].zone);
    forall e | e in b'.entries ensures EntryOk(e, b'.sessions) {
      var i :| 0 <= i < |b'.entries| && b'.entries[i] == e;
      assert EntryOk(b.entries[i], b.sessions);
    }
    forall s' | 0 <= s' < |b.sessions| ensures PlanOk(b', s') && FailureHasCause(b', s') {
      assert PlanOk(b, s') && FailureHasCause(b, s');
      if s' != s { EntriesFrame(b.entries, b'.entries, s'); }
    }
    assert forall t :: t in b'.transfers ==> TransferOk(t, b.sessions);
  }

  lemma NettingKeepsValid(b: Books, s: SessionId)
    requires Valid(b) && s < |b.sessions| && RunNetting(b, s).Ok?
    ensures Valid(RunNetting(b, s).value)
  {
    var b' := RunNetting(b, s).value;
    var obligations := EntriesOf(b.entries, s, true);
    forall e | e in b.entries && e.session == Some(s) ensures !e.settled {
      assert EntryOk(e, b.sessions);
    }
    AllUnsettled(b.entries, s);
    forall t | t in b.transfers ensures t.session != s {
      assert TransferOk(t, b.sessions);
    }
    NoTransfers(b.transfers, s);
    forall s' | 0 <= s' < |b.sessions| ensures PlanOk(b', s') && FailureHasCause(b', s') {
      assert PlanOk(b, s') && FailureHasCause(b, s');
      PlannedAppend(b.transfers, s, Netted(obligations), s');
      assert TransfersOf(b.transfers, s') + [] == TransfersOf(b.transfers, s');
      if s' == s {
        assert TransfersOf(b'.transfers, s) == Netted(obligations);
        forall bank ensures Netting.Net(Netted(obligations), bank) == Netting.Net(obligations, bank) {
          NettingPreservesNet(obligations, bank);
        }
        NettingPreservesNet(obligations, 0);
        Forest.NettedIsForest(obligations);
      } else if b.sessions[s'].status == FAILED {
        var t :| t in b.transfers && t.session == s' && t.status == REFUSED;
        assert t in b'.transfers;
      }
    }
    forall e | e in b'.entries ensures EntryOk(e, b'.sessions) {
      assert EntryOk(e, b.sessions);
    }
    forall t | t in b'.transfers ensures TransferOk(t, b'.sessions) {
      if t in b.transfers { assert TransferOk(t, b.sessions); }
    }
  }

  /** The two shortcuts: a session without transfers is closed as COMPLETED. */
  lemma CompletingKeepsValid(b: Books, s: SessionId, now: Timestamp)
    requires s < |b.sessions| && b.sessions[s].status in {NETTING, SETTLING}
    requires Valid(b)
    requires forall t :: t in b.transfers ==> t.session != s
    requires b.sessions[s].status == NETTING ==> EntriesOf(b.entries, s, false) == []
    ensures Valid(CompleteWithoutTransfers(b, s, now))
  {
    hide Netting.Net, EntriesOf, TransfersOf;
    var b' := CompleteWithoutTransfers(b, s, now);
    NoTransfers(b.transfers, s);
    forall e | e in b'.entries ensures EntryOk(e, b'.sessions) {
      var i :| 0 <= i < |b'.entries| && b'.entries[i] == e;
      assert EntryOk(b.entries[i], b.sessions);
    }
    forall t | t in b'.transfers ensures TransferOk(t, b'.sessions) {
      assert TransferOk(t, b.sessions);
    }
    forall s' | 0 <= s' < |b.sessions| ensures PlanOk(b', s') && FailureHasCause(b', s') {
      assert PlanOk(b, s') && FailureHasCause(b, s');
      EntriesFrame(b.entries, b'.entries, s');
    }
  }

  // -- Applying the gateway's results --

  /** How far a progress has come from `b`: rows keep their identity, only entries of the session
      are settled, and exactly the transfers answered for have taken their result. */
  ghost predicate Progressed(b: Books, s: SessionId, results: seq<TransferResult>, p: Progress) {
    && |p.entries| == |b.entries| && |p.transfers| == |b.transfers|
    && (forall i :: 0 <= i < |b.entries| ==> p.entries[i] == b.entries[i] || SettledFrom(b.entries[i], s, p.entries[i]))
    && (forall i :: 0 <= i < |b.transfers| ==>
          && p.transfers[i].payment == b.transfers[i].payment && p.transfers[i].session == b.transfers[i].session
          && ((forall r :: r in results ==> r.id != i) ==> p.transfers[i] == b.transfers[i]))
    && (forall r :: r in results ==>
          r.id < |p.transfers| && p.transfers[r.id].status == if r.success then DONE else REFUSED)
    && (p.anyFailed <==> exists r :: r in results && !r.success)
  }

  ghost predicate SettledFrom(e: Entry, s: SessionId, e': Entry) {
    && e.session == Some(s) && !e.settled
    && e'.settledAt.Some? && e' == e.(settled := true, settledAt := e'.settledAt)
  }

  lemma {:induction false} ResultsProgress(b: Books, s: SessionId, results: seq<TransferResult>, now: Timestamp)
    requires forall i, j :: 0 <= i < j < |results| ==> results[i].id != results[j].id
    requires forall r :: r in results ==> r.id < |b.transfers| && b.transfers[r.id].session == s
    ensures Progressed(b, s, results, ApplyResults(Progress(b.entries, b.transfers, false), s, results, now))
  {
    if results != [] {
      var n := |results| - 1;
      var init, last := results[..n], results[n];
      forall r | r in init ensures r in results && r.id != last.id {
        var i :| 0 <= i < n && results[i] == r;
      }
      assert results == init + [last] && last in results;
      ResultsProgress(b, s, init, now);
      ResultProgresses(b, s, init, last, ApplyResults(Progress(b.entries, b.transfers, false), s, init, now), now);
    }
  }

  lemma ResultProgresses(b: Books, s: SessionId, init: seq<TransferResult>, last: TransferResult, p: Progress,
                         now: Timestamp)
    requires Progressed(b, s, init, p)
    requires last.id < |b.transfers| && b.transfers[last.id].session == s
    requires forall r :: r in init ==> r.id != last.id
    ensures Progressed(b, s, init + [last], ApplyResult(p, s, last, now))
  {
    assert forall r :: r in init + [last] <==> r in init || r == last;
  }

  lemma FinishingKeepsEntries(b: Books, s: SessionId, results: seq<TransferResult>, now: Timestamp)
    requires Valid(b) && s < |b.sessions| && Covers(b.transfers, s, results) && MarkSettled(b, s, results, now).Ok?
    ensures var b' := MarkSettled(b, s, results, now).value;
            forall e :: e in b'.entries ==> EntryOk(e, b'.sessions)
  {
    var p := ApplyResults(Progress(b.entries, b.transfers, false), s, results, now);
    var b' := MarkSettled(b, s, results, now).value;
    ResultsProgress(b, s, results, now);
    hide ApplyResults, Covers, TransferOk, PlanOk, OneActivePerZone, FailureHasCause;
    forall e | e in b'.entries ensures EntryOk(e, b'.sessions) {
      var i :| 0 <= i < |b'.entries| && b'.entries[i] == e;
      assert EntryOk(b.entries[i], b.sessions);
      assert p.entries[i] == b.entries[i] || SettledFrom(b.entries[i], s, p.entries[i]);
    }
  }

  lemma FinishingKeepsTransfers(b: Books, s: SessionId, results: seq<TransferResult>, now: Timestamp)
    requires Valid(b) && s < |b.sessions| && Covers(b.transfers, s, results) && MarkSettled(b, s, results, now).Ok?
    ensures var b' := MarkSettled(b, s, results, now).value;
            && (forall t :: t in b'.transfers ==> TransferOk(t, b'.sessions))
            && FailureHasCause(b', s)
  {
    var p := ApplyResults(Progress(b.entries, b.transfers, false), s, results, now);
    var b' := MarkSettled(b, s, results, now).value;
    ResultsProgress(b, s, results, now);
    hide ApplyResults, EntryOk, PlanOk, OneActivePerZone, SettledFrom;
    forall t | t in b'.transfers ensures TransferOk(t, b'.sessions) {
      var i :| 0 <= i < |b'.transfers| && b'.transfers[i] == t;
      assert TransferOk(b.transfers[i], b.sessions);
      if t.session == s {
        var r :| r in results && r.id == i;
      }
    }
    if p.anyFailed {
      var r :| r in results && !r.success;
      assert b'.transfers[r.id] in b'.transfers;
    }
  }

  lemma FinishingKeepsValid(b: Books, s: SessionId, results: seq<TransferResult>, now: Timestamp)
    requires Valid(b) && s < |b.sessions| && Covers(b.transfers, s, results) && MarkSettled(b, s, results, now).Ok?
    ensures Valid(MarkSettled(b, s, results, now).value)
  {
    hide EntryOk, TransferOk, WellFormed, Netting.Net, EntriesOf, TransfersOf;
    var p := ApplyResults(Progress(b.entries, b.transfers, false), s, results, now);
    var b' := MarkSettled(b, s, results, now).value;
    ResultsProgress(b, s, results, now);
    FinishingKeepsEntries(b, s, results, now);
    FinishingKeepsTransfers(b, s, results, now);
    forall s' | 0 <= s' < |b.sessions| ensures PlanOk(b', s') && FailureHasCause(b', s') {
      assert PlanOk(b, s') && FailureHasCause(b, s');
      EntriesFrame(b.entries, b'.entries, s');
      TransfersFrame(b.transfers, b'.transfers, s');
      if s' != s && b.sessions[s'].status == FAILED {
        var t :| t in b.transfers && t.session == s' && t.status == REFUSED;
        var i :| 0 <= i < |b.transfers| && b.transfers[i] == t;
        assert b'.transfers[i] == t;
      }
    }
  }

  // ---- Main results ------------------------------------------------------------------------

  lemma StepKeepsValid(b: Books, l: Label)
    requires Valid(b)
    ensures Valid(Step(b, l))
  {
    match l
    case Book(tx, klikBank) =>
      if RecordC2b(b.entries, tx, klikBank).Ok? && tx.split.Some? {
        if Recorded(b.entries, tx.idempotencyKey) {
          BookingKeepsValid(b, []);
          assert b.entries + [] == b.entries;
        } else {
          BookingKeepsValid(b, C2bEntries(tx, klikBank));
        }
      }
    case BookOther(p, to, zone, ref) =>
      if p.amount > 0 { BookingKeepsValid(b, [Entry(p, to, zone, ref, None, false, None)]); }
    case Open(zone, now) =>
      if CreateSession(b, zone, now).Ok? { OpeningKeepsValid(b, zone, now); }
    case AssignTo(s) =>
      if s < |b.sessions| && Assign(b, s).Ok? { AssigningKeepsValid(b, s); }
    case FinishEmpty(s, now) =>
      if s < |b.sessions| && b.sessions[s].status == NETTING && EntriesOf(b.entries, s, false) == [] {
        forall t | t in b.transfers ensures t.session != s { assert TransferOk(t, b.sessions); }
        CompletingKeepsValid(b, s, now);
      }
    case Net(s) =>
      if s < |b.sessions| && RunNetting(b, s).Ok? { NettingKeepsValid(b, s); }
    case FinishBalanced(s, now) =>
      if s < |b.sessions| && b.sessions[s].status == SETTLING && TransfersOf(b.transfers, s) == [] {
        NoTransfers(b.transfers, s);
        CompletingKeepsValid(b, s, now);
      }
    case Finish(s, results, now) =>
      if s < |b.sessions| && Covers(b.transfers, s, results) && MarkSettled(b, s, results, now).Ok? {
        FinishingKeepsValid(b, s, results, now);
      }
  }

  lemma {:induction false} RunKeepsValid(b: Books, labels: seq<Label>)
    requires Valid(b)
    ensures Valid(Run(b, labels))
  {
    if labels != [] {
      RunKeepsValid(b, labels[..|labels| - 1]);
      StepKeepsValid(Run(b, labels[..|labels| - 1]), labels[|labels| - 1]);
    }
  }

  lemma {:induction false} AllMoved(ts: seq<Transfer>, s: SessionId)
    requires forall t :: t in ts && t.session == s ==> t.status == DONE
    ensures MovedIn(ts, s) == TransfersOf(ts, s)
  {
    if ts != [] {
      assert ts[|ts| - 1] in ts;
      AllMoved(ts[..|ts| - 1], s);
    }
  }

  lemma {:induction false} AllSettled(es: seq<Entry>, s: SessionId)
    requires forall e :: e in es && e.session == Some(s) ==> e.settled
    ensures SettledEntriesOf(es, s) == EntriesOf(es, s, false)
  {
    if es != [] {
      assert es[|es| - 1] in es;
      AllSettled(es[..|es| - 1], s);
    }
  }

  lemma ReachesItself(b: Books)
    ensures Reaches(b, b)
  {
    assert b == Run(b, []);
  }

  lemma ReachesStep(b: Books, m: Books, l: Label)
    requires Reaches(b, m)
    ensures Reaches(b, Step(m, l))
  {
    hide Step;
    var labels :| m == Run(b, labels);
    var more := labels + [l];
    assert more[..|more| - 1] == labels;
    assert Step(m, l) == Run(b, more);
  }

  /** Conservation: what the RTGS moved for a COMPLETED session is, bank by bank, what the entries
      settled in it add up to, and no entry of it is left open.  This covers the two shortcuts that
      complete a session without any transfer. */
  lemma CompletedSessionConserves(b: Books, s: SessionId, bank: BankId)
    requires Valid(b) && s < |b.sessions| && b.sessions[s].status == COMPLETED
    ensures Netting.Net(MovedIn(b.transfers, s), bank) == Netting.Net(SettledEntriesOf(b.entries, s), bank)
    ensures SettledEntriesOf(b.entries, s) == EntriesOf(b.entries, s, false)
    ensures WellFormed(MovedIn(b.transfers, s))
  {
    forall t | t in b.transfers && t.session == s ensures t.status == DONE { assert TransferOk(t, b.sessions); }
    forall e | e in b.entries && e.session == Some(s) ensures e.settled { assert EntryOk(e, b.sessions); }
    AllMoved(b.transfers, s);
    AllSettled(b.entries, s);
    assert PlanOk(b, s);
  }

  /** In particular in every reachable state. */
  lemma CompletedSessionsConserveMoney(labels: seq<Label>, s: SessionId, bank: BankId)
    requires s < |Run(EMPTY, labels).sessions| && Run(EMPTY, labels).sessions[s].status == COMPLETED
    ensures var b := Run(EMPTY, labels);
            && Netting.Net(MovedIn(b.transfers, s), bank) == Netting.Net(SettledEntriesOf(b.entries, s), bank)
            && SettledEntriesOf(b.entries, s) == EntriesOf(b.entries, s, false)
            && WellFormed(MovedIn(b.transfers, s))
  {
    RunKeepsValid(EMPTY, labels);
    CompletedSessionConserves(Run(EMPTY, labels), s, bank);
  }

  /** In every reachable state: a session fails only if the RTGS refused one of its transfers, a
      zone has at most one active session, an entry is linked only to a session of its own zone,
      and no transfer breaks a constraint of its table. */
  lemma ReachableStatesAreSound(labels: seq<Label>)
    ensures var b := Run(EMPTY, labels);
            && OneActivePerZone(b.sessions)
            && (forall s :: 0 <= s < |b.sessions| && b.sessions[s].status == FAILED ==>
                  exists t :: t in b.transfers && t.session == s && t.status == REFUSED)
            && (forall e :: e in b.entries && e.session.Some? ==>
                  e.session.value < |b.sessions| && b.sessions[e.session.value].zone == e.zone)
            && (forall s :: 0 <= s < |b.sessions| ==> WellFormed(TransfersOf(b.transfers, s)))
  {
    var b := Run(EMPTY, labels);
    RunKeepsValid(EMPTY, labels);
    forall s | 0 <= s < |b.sessions|
      ensures WellFormed(TransfersOf(b.transfers, s))
      ensures b.sessions[s].status == FAILED ==> exists t :: t in b.transfers && t.session == s && t.status == REFUSED
    {
      assert PlanOk(b, s) && FailureHasCause(b, s);
      if !(b.sessions[s].status in {SETTLING, COMPLETED, FAILED}) {
        forall t | t in b.transfers ensures t.session != s { assert TransferOk(t, b.sessions); }
        NoTransfers(b.transfers, s);
      }
    }
    forall e | e in b.entries && e.session.Some?
      ensures e.session.value < |b.sessions| && b.sessions[e.session.value].zone == e.zone
    {
      assert EntryOk(e, b.sessions);
    }
  }

  // ---- What never changes back --------------------------------------------------------------

  ghost predicate Closed(b: Books, s: SessionId) {
    s < |b.sessions| && b.sessions[s].status in {COMPLETED, FAILED}
  }

  /** How far a session has come. */
  function Rank(status: SessionStatus): nat {
    match status
    case OPEN => 0
    case NETTING => 1
    case SETTLING => 2
    case COMPLETED => 3
    case FAILED => 3
  }

  predicate PastNetting(status: SessionStatus) { Rank(status) >= Rank(SETTLING) }

  /** `b'` is a possible future of `b`. */
  ghost predicate Later(b: Books, b': Books) {
    && SessionsLater(b.sessions, b'.sessions)
    && EntriesLater(b, b')
    && TransfersLater(b, b')
  }

  /** A session only moves on through its states; its count and volume are fixed once it has its
      entries, and when it is closed it is final. */
  ghost predicate SessionLater(x: Session, x': Session) {
    && x'.zone == x.zone && x'.startedAt == x.startedAt && Rank(x.status) <= Rank(x'.status)
    && (x.status != OPEN ==> x'.entriesCount == x.entriesCount && x'.volume == x.volume)
    && (x.status in {COMPLETED, FAILED} ==> x' == x)
  }

  ghost predicate SessionsLater(xs: seq<Session>, xs': seq<Session>) {
    |xs| <= |xs'| && forall s :: 0 <= s < |xs| ==> SessionLater(xs[s], xs'[s])
  }

  /** An entry keeps its payment and, once it has one, its session; once settled, or in a closed
      session, it stays exactly as it is.  No entry joins a session that is past OPEN. */
  ghost predicate EntriesLater(b: Books, b': Books) {
    && |b.entries| <= |b'.entries|
    && (forall i :: 0 <= i < |b.entries| ==> EntryLater(b.entries[i], b'.entries[i]))
    && (forall i :: 0 <= i < |b.entries| && b.entries[i].session.Some? && Closed(b, b.entries[i].session.value) ==>
          b'.entries[i] == b.entries[i])
    && (forall i :: 0 <= i < |b'.entries| && PastOpen(b, b'.entries[i].session) ==>
          i < |b.entries| && b.entries[i].session == b'.entries[i].session)
  }

  predicate PastOpen(b: Books, s: Option<SessionId>) {
    s.Some? && s.value < |b.sessions| && b.sessions[s.value].status != OPEN
  }

  ghost predicate EntryLater(e: Entry, e': Entry) {
    && e'.payment == e.payment && e'.zone == e.zone && e'.sourceRef == e.sourceRef && e'.beneficiary == e.beneficiary
    && (e.session.Some? ==> e'.session == e.session)
    && (e.settled ==> e' == e)
  }

  /** A transfer keeps its payment, and its answer once it has one.  No transfer joins a session that
      has been netted. */
  ghost predicate TransfersLater(b: Books, b': Books) {
    && |b.transfers| <= |b'.transfers|
    && (forall t :: 0 <= t < |b.transfers| ==>
          && b'.transfers[t].session == b.transfers[t].session && b'.transfers[t].payment == b.transfers[t].payment
          && (b.transfers[t].status != PENDING ==> b'.transfers[t] == b.transfers[t]))
    && (forall t :: |b.transfers| <= t < |b'.transfers| && b'.transfers[t].session < |b.sessions| ==>
          !PastNetting(b.sessions[b'.transfers[t].session].status))
  }

  lemma FinishIsLater(b: Books, s: SessionId, results: seq<TransferResult>, now: Timestamp)
    requires Valid(b) && s < |b.sessions| && Covers(b.transfers, s, results) && MarkSettled(b, s, results, now).Ok?
    ensures Later(b, MarkSettled(b, s, results, now).value)
  {
    var p := ApplyResults(Progress(b.entries, b.transfers, false), s, results, now);
    ResultsProgress(b, s, results, now);
    hide ApplyResults, EntryOk, PlanOk, OneActivePerZone, FailureHasCause;
    forall i | 0 <= i < |b.entries|
      ensures p.entries[i] == b.entries[i] || SettledFrom(b.entries[i], s, p.entries[i])
    {
    }
    forall t | 0 <= t < |b.transfers| && b.transfers[t].status != PENDING ensures p.transfers[t] == b.transfers[t] {
      assert TransferOk(b.transfers[t], b.sessions);
    }
  }

  lemma BookingIsLater(b: Books, added: seq<Entry>)
    requires forall e :: e in added ==> e.session.None?
    ensures Later(b, b.(entries := b.entries + added))
  {
  }

  lemma AssigningIsLater(b: Books, s: SessionId)
    requires s < |b.sessions| && Assign(b, s).Ok?
    ensures Later(b, Assign(b, s).value)
  {
    hide CountPending, SumPending;
  }

  lemma NettingIsLater(b: Books, s: SessionId)
    requires s < |b.sessions| && RunNetting(b, s).Ok?
    ensures Later(b, RunNetting(b, s).value)
  {
    hide Netted, EntriesOf;
  }

  lemma CompletingIsLater(b: Books, s: SessionId, now: Timestamp)
    requires s < |b.sessions| && b.sessions[s].status in {NETTING, SETTLING}
    ensures Later(b, CompleteWithoutTransfers(b, s, now))
  {
  }

  lemma StepIsLater(b: Books, l: Label)
    requires Valid(b)
    ensures Later(b, Step(b, l))
  {
    hide Valid, Later, Netted, EntriesOf, TransfersOf, C2bEntries, MarkSettled, Assign, RunNetting, Covers;
    LaterIsReflexive(b);
    match l
    case Book(tx, klikBank) =>
      if RecordC2b(b.entries, tx, klikBank).Ok? && tx.split.Some? && !Recorded(b.entries, tx.idempotencyKey) {
        C2bEntriesAreFree(tx, klikBank);
        BookingIsLater(b, C2bEntries(tx, klikBank));
      }
    case BookOther(p, to, zone, ref) => BookingIsLater(b, [Entry(p, to, zone, ref, None, false, None)]);
    case Open(zone, now) => OpeningIsLater(b, zone, now);
    case AssignTo(s) => if s < |b.sessions| && Assign(b, s).Ok? { AssigningIsLater(b, s); }
    case FinishEmpty(s, now) =>
      if s < |b.sessions| && b.sessions[s].status == NETTING { CompletingIsLater(b, s, now); }
    case Net(s) => if s < |b.sessions| && RunNetting(b, s).Ok? { NettingIsLater(b, s); }
    case FinishBalanced(s, now) =>
      if s < |b.sessions| && b.sessions[s].status == SETTLING { CompletingIsLater(b, s, now); }
    case Finish(s, results, now) =>
      if s < |b.sessions| && Covers(b.transfers, s, results) && MarkSettled(b, s, results, now).Ok? {
        FinishIsLater(b, s, results, now);
      }
  }

  lemma C2bEntriesAreFree(tx: C2bTransaction, klikBank: Option<BankId>)
    requires tx.split.Some?
    ensures forall e :: e in C2bEntries(tx, klikBank) ==> e.session.None?
  {
  }

  lemma OpeningIsLater(b: Books, zone: Zone, now: Timestamp)
    ensures Later(b, OrElse(CreateSession(b, zone, now), b))
  {
    hide HasActive;
  }

  /** Over any run: no entry is ever moved to another session, settlement is never undone, sessions
      only move on, and closed sessions and answered transfers are final. */
  lemma {:induction false} RunIsLater(b: Books, labels: seq<Label>)
    requires Valid(b)
    ensures Later(b, Run(b, labels))
  {
    hide Valid, Later;
    if labels == [] {
      LaterIsReflexive(b);
    } else {
      var init := labels[..|labels| - 1];
      var m := Run(b, init);
      RunKeepsValid(b, init);
      RunIsLater(b, init);
      StepIsLater(m, labels[|labels| - 1]);
      LaterIsTransitive(b, m, Run(b, labels));
    }
  }

  lemma ReachableIsLater(b: Books, b': Books)
    requires Valid(b) && Reaches(b, b')
    ensures Later(b, b')
  {
    hide Valid, Later;
    var labels :| b' == Run(b, labels);
    RunIsLater(b, labels);
  }

  lemma LaterIsReflexive(b: Books)
    ensures Later(b, b)
  {
  }

  lemma SessionsLaterIsTransitive(xs: seq<Session>, ys: seq<Session>, zs: seq<Session>)
    requires SessionsLater(xs, ys) && SessionsLater(ys, zs)
    ensures SessionsLater(xs, zs)
  {
    forall s | 0 <= s < |xs| ensures SessionLater(xs[s], zs[s]) {
      assert SessionLater(xs[s], ys[s]) && SessionLater(ys[s], zs[s]);
    }
  }

  lemma EntriesLaterIsTransitive(a: Books, b: Books, c: Books)
    requires Later(a, b) && EntriesLater(b, c)
    ensures EntriesLater(a, c)
  {
    forall i | 0 <= i < |a.entries| ensures EntryLater(a.entries[i], c.entries[i]) {
      assert EntryLater(a.entries[i], b.entries[i]) && EntryLater(b.entries[i], c.entries[i]);
    }
    forall s | 0 <= s < |a.sessions| && a.sessions[s].status != OPEN ensures b.sessions[s].status != OPEN {
      assert SessionLater(a.sessions[s], b.sessions[s]);
    }
    forall s: SessionId | Closed(a, s) ensures Closed(b, s) {
      assert SessionLater(a.sessions[s], b.sessions[s]);
    }
  }

  lemma TransfersLaterIsTransitive(a: Books, b: Books, c: Books)
    requires Later(a, b) && TransfersLater(b, c)
    ensures TransfersLater(a, c)
  {
    hide EntriesLater;
    forall s | 0 <= s < |a.sessions| && PastNetting(a.sessions[s].status) ensures PastNetting(b.sessions[s].status) {
      assert SessionLater(a.sessions[s], b.sessions[s]);
    }
  }

  lemma LaterIsTransitive(a: Books, b: Books, c: Books)
    requires Later(a, b) && Later(b, c)
    ensures Later(a, c)
  {
    SessionsLaterIsTransitive(a.sessions, b.sessions, c.sessions);
    EntriesLaterIsTransitive(a, b, c);
    TransfersLaterIsTransitive(a, b, c);
  }

  lemma {:induction false} EntriesFixed(es: seq<Entry>, fs: seq<Entry>, s: SessionId)
    requires |es| <= |fs|
    requires forall i :: 0 <= i < |es| ==>
               es[i].payment == fs[i].payment && (es[i].session == Some(s) <==> fs[i].session == Some(s))
    requires forall i :: |es| <= i < |fs| ==> fs[i].session != Some(s)
    ensures EntriesOf(es, s, false) == EntriesOf(fs, s, false)
    decreases |fs|
  {
    if |es| == |fs| { EntriesFrame(es, fs, s); } else { EntriesFixed(es, fs[..|fs| - 1], s); }
  }

  lemma {:induction false} TransfersFixed(ts: seq<Transfer>, us: seq<Transfer>, s: SessionId)
    requires |ts| <= |us|
    requires forall i :: 0 <= i < |ts| ==> ts[i].payment == us[i].payment && ts[i].session == us[i].session
    requires forall i :: |ts| <= i < |us| ==> us[i].session != s
    ensures TransfersOf(ts, s) == TransfersOf(us, s)
    decreases |us|
  {
    if |ts| == |us| { TransfersFrame(ts, us, s); } else { TransfersFixed(ts, us[..|us| - 1], s); }
  }

  /** A session is netted at most once: from then on it is never in the state that netting asks for,
      and what was netted, and into which transfers, never changes. */
  lemma SessionsAreNettedOnce(b: Books, s: SessionId, labels: seq<Label>)
    requires Valid(b) && s < |b.sessions| && PastNetting(b.sessions[s].status)
    ensures var b' := Run(b, labels);
            && s < |b'.sessions| && RunNetting(b', s) == Err(InvalidSessionState) && Step(b', Net(s)) == b'
            && EntriesOf(b'.entries, s, false) == EntriesOf(b.entries, s, false)
            && TransfersOf(b'.transfers, s) == TransfersOf(b.transfers, s)
  {
    hide Valid, EntriesOf, TransfersOf, Netted, Run;
    var b' := Run(b, labels);
    RunIsLater(b, labels);
    assert SessionLater(b.sessions[s], b'.sessions[s]);
    forall i | 0 <= i < |b.entries| ensures b.entries[i].session == Some(s) <==> b'.entries[i].session == Some(s) {
      assert EntryLater(b.entries[i], b'.entries[i]);
      assert PastOpen(b, Some(s));
    }
    EntriesFixed(b.entries, b'.entries, s);
    TransfersFixed(b.transfers, b'.transfers, s);
  }

  /** What a FAILED session leaves unsettled is never taken up again: such an entry is never pending
      for any zone, and stays unsettled whatever happens later. */
  lemma FailedSessionsStrandTheirEntries(b: Books, labels: seq<Label>, i: nat, zone: Zone)
    requires Valid(b) && i < |b.entries| && b.entries[i].session.Some? && !b.entries[i].settled
    requires b.entries[i].session.value < |b.sessions| && b.sessions[b.entries[i].session.value].status == FAILED
    ensures var b' := Run(b, labels);
            i < |b'.entries| && b'.entries[i] == b.entries[i] && !Pending(b'.entries[i], zone)
  {
    hide Valid;
    RunIsLater(b, labels);
  }

  /** Without assuming anything of the results: a session is COMPLETED exactly when every result is
      a success for a transfer of that session.  A transfer without a result stays PENDING, which is
      why the worker must ask for all of them. */
  lemma {:induction false} OutcomeOfResults(p: Progress, s: SessionId, results: seq<TransferResult>, now: Timestamp)
    requires !p.anyFailed
    ensures var q := ApplyResults(p, s, results, now);
            && |q.transfers| == |p.transfers|
            && (forall t :: 0 <= t < |p.transfers| ==> q.transfers[t].session == p.transfers[t].session)
            && (q.anyFailed <==>
                  (exists r :: r in results && !(r.success && r.id < |p.transfers| && p.transfers[r.id].session == s)))
            && (forall t :: 0 <= t < |p.transfers| && (forall r :: r in results ==> r.id != t) ==>
                  q.transfers[t] == p.transfers[t])
  {
    if results != [] {
      var n := |results| - 1;
      OutcomeOfResults(p, s, results[..n], now);
      assert results == results[..n] + [results[n]];
      assert forall r :: r in results <==> r in results[..n] || r == results[n];
    }
  }
}
