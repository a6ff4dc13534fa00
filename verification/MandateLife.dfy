/** What holds of every mandate in every reachable state. */
module MandateLife {
  import opened Common
  import opened Calendar
  import opened Schedule
  import opened Recurring
  import opened RecurringSystem

  // ---- History functions -------------------------------------------------------------------

  /** Failed runs of `m` since its last success, its last resumption or its creation. */
  function FailuresInARow(events: seq<Event>, m: MandateId): nat {
    if events == [] then 0
    else
      var last, before := events[|events| - 1], FailuresInARow(events[..|events| - 1], m);
      if last.mandate != m then before else if last.Failed? then before + 1 else 0
  }

  predicate Announces(n: Notification, m: MandateId, natural: bool) {
    n.Cancelled? && n.mandate == m && (natural <==> n.end == END_DATE_REACHED)
  }

  /** Notices that `m` has ended: naturally, by reaching its end date, or by being withdrawn. */
  function EndNotices(outbox: seq<Notification>, m: MandateId, natural: bool): nat {
    if outbox == [] then 0
    else EndNotices(outbox[..|outbox| - 1], m, natural) + (if Announces(outbox[|outbox| - 1], m, natural) then 1 else 0)
  }

  // ---- The invariant -----------------------------------------------------------------------

  ghost predicate MandateOk(d: Mandate, m: MandateId, outbox: seq<Notification>, events: seq<Event>, now: Instant) {
    && d.amount > 0
    && Anchored(d.start, d.cycle, d.nextRunAt, now)
    && (d.status == ACTIVE ==> d.failedRuns < FAILURE_THRESHOLD)
    && (d.status == COMPLETED ==> d.PastEnd())
    && (d.status == ACTIVE ==> d.pausedAt.None?) && (d.status == PAUSED ==> d.pausedAt.Some?)
    && (d.status == CANCELLED <==> d.cancelledAt.Some?)
    && EndNotices(outbox, m, true) == (if d.status == COMPLETED then 1 else 0)
    && EndNotices(outbox, m, false) == (if d.status == CANCELLED then 1 else 0)
    && d.failedRuns == FailuresInARow(events, m)
  }

  ghost predicate MandatesOk(ds: seq<Mandate>, outbox: seq<Notification>, events: seq<Event>, now: Instant) {
    && (forall m :: 0 <= m < |ds| ==> MandateOk(ds[m], m, outbox, events, now))
    && (forall i, j :: 0 <= i < j < |ds| ==> ds[i].bank != ds[j].bank || ds[i].key != ds[j].key)
    && (forall n :: n in outbox ==> n.mandate < |ds|)
    && (forall v :: v in events ==> v.mandate < |ds|)
  }

  lemma NoticesAppend(outbox: seq<Notification>, n: Notification, m: MandateId)
    ensures EndNotices(outbox + [n], m, true) == EndNotices(outbox, m, true) + (if Announces(n, m, true) then 1 else 0)
    ensures EndNotices(outbox + [n], m, false) ==
            EndNotices(outbox, m, false) + (if Announces(n, m, false) then 1 else 0)
  {
    assert (outbox + [n])[..|outbox|] == outbox;
  }

  lemma EventsAppend(events: seq<Event>, v: Event, m: MandateId)
    ensures FailuresInARow(events + [v], m) ==
            if v.mandate != m then FailuresInARow(events, m) else if v.Failed? then FailuresInARow(events, m) + 1 else 0
  {
    assert (events + [v])[..|events|] == events;
  }

  lemma {:induction false} NothingAbout(outbox: seq<Notification>, events: seq<Event>, m: MandateId)
    requires forall n :: n in outbox ==> n.mandate != m
    requires forall v :: v in events ==> v.mandate != m
    ensures EndNotices(outbox, m, true) == 0 && EndNotices(outbox, m, false) == 0 && FailuresInARow(events, m) == 0
    decreases |outbox| + |events|
  {
    if outbox != [] {
      assert outbox[|outbox| - 1] in outbox;
      NothingAbout(outbox[..|outbox| - 1], events, m);
    } else if events != [] {
      assert events[|events| - 1] in events;
      NothingAbout(outbox, events[..|events| - 1], m);
    }
  }

  lemma NoticesElsewhere(outbox: seq<Notification>, notes: seq<Notification>, m: MandateId, k: MandateId)
    requires |notes| <= 1 && (forall n :: n in notes ==> n.mandate == m) && k != m
    ensures EndNotices(outbox + notes, k, true) == EndNotices(outbox, k, true)
    ensures EndNotices(outbox + notes, k, false) == EndNotices(outbox, k, false)
  {
    if notes == [] {
      assert outbox + notes == outbox;
    } else {
      assert notes == [notes[0]] && notes[0] in notes;
      NoticesAppend(outbox, notes[0], k);
    }
  }

  lemma EventsElsewhere(events: seq<Event>, news: seq<Event>, m: MandateId, k: MandateId)
    requires |news| <= 1 && (forall v :: v in news ==> v.mandate == m) && k != m
    ensures FailuresInARow(events + news, k) == FailuresInARow(events, k)
  {
    if news == [] {
      assert events + news == events;
    } else {
      assert news == [news[0]] && news[0] in news;
      EventsAppend(events, news[0], k);
    }
  }

  /** Changing one mandate, with notices and events about it alone. */
  lemma ChangingOne(ds: seq<Mandate>, outbox: seq<Notification>, events: seq<Event>, now: Instant,
                    m: MandateId, d: Mandate, notes: seq<Notification>, news: seq<Event>)
    requires MandatesOk(ds, outbox, events, now) && m < |ds|
    requires |notes| <= 1 && forall n :: n in notes ==> n.mandate == m
    requires |news| <= 1 && forall v :: v in news ==> v.mandate == m
    requires MandateOk(d, m, outbox + notes, events + news, now) && d.bank == ds[m].bank && d.key == ds[m].key
    ensures MandatesOk(ds[m := d], outbox + notes, events + news, now)
  {
    hide MandateOk;
    forall k | 0 <= k < |ds| && k != m ensures MandateOk(ds[k], k, outbox + notes, events + news, now) {
      OtherStaysOk(ds[k], k, outbox, events, now, m, notes, news);
    }
  }

  lemma OtherStaysOk(d: Mandate, k: MandateId, outbox: seq<Notification>, events: seq<Event>, now: Instant,
                     m: MandateId, notes: seq<Notification>, news: seq<Event>)
    requires MandateOk(d, k, outbox, events, now) && k != m
    requires |notes| <= 1 && forall n :: n in notes ==> n.mandate == m
    requires |news| <= 1 && forall v :: v in news ==> v.mandate == m
    ensures MandateOk(d, k, outbox + notes, events + news, now)
  {
    hide Anchored, EndNotices, FailuresInARow, AfterDate;
    NoticesElsewhere(outbox, notes, m, k);
    EventsElsewhere(events, news, m, k);
  }

  // ---- Preservation ------------------------------------------------------------------------

  lemma CreateKeepsMandates(t: Tables, r: CreateRequest, today: Date, known: bool, events: seq<Event>, now: Instant)
    requires MandatesOk(t.mandates, t.outbox, events, now) && Create(t, r, today, known).Ok?
    ensures var t' := Create(t, r, today, known).value.0;
            MandatesOk(t'.mandates, t'.outbox, events, now)
  {
    hide Anchored, DatesOk, FirstRunAt;
    var t' := Create(t, r, today, known).value.0;
    if t' != t {
      NothingAbout(t.outbox, events, |t.mandates|);
      FirstRunIsAnchored(r.start, r.cycle, now);
      assert MandateOk(NewMandate(r), |t.mandates|, t.outbox, events, now);
    }
  }

  lemma PauseKeepsMandates(t: Tables, m: MandateId, asker: BankId, events: seq<Event>, now: Instant)
    requires MandatesOk(t.mandates, t.outbox, events, now) && Pause(t, m, asker, now).Ok?
    ensures MandatesOk(Pause(t, m, asker, now).value.mandates, t.outbox, events, now)
  {
    hide Anchored;
    assert MandateOk(t.mandates[m], m, t.outbox, events, now);
  }

  lemma ResumeKeepsMandates(t: Tables, m: MandateId, asker: BankId, events: seq<Event>, now: Instant)
    requires MandatesOk(t.mandates, t.outbox, events, now) && Resume(t, m, asker, now).Ok?
    ensures MandatesOk(Resume(t, m, asker, now).value.mandates, t.outbox,
                       events + [Resumed(m, t.mandates[m].nextRunAt, now)], now)
  {
    hide Anchored, NextSlot;
    var d, d' := t.mandates[m], Resume(t, m, asker, now).value.mandates[m];
    assert MandateOk(d, m, t.outbox, events, now);
    NextSlotIsAnchored(d.start, d.cycle, now);
    var resumed := Resumed(m, d.nextRunAt, now);
    EventsAppend(events, resumed, m);
    assert t.outbox + [] == t.outbox;
    ChangingOne(t.mandates, t.outbox, events, now, m, d', [], [resumed]);
  }

  lemma CancelKeepsMandates(t: Tables, m: MandateId, asker: BankId, events: seq<Event>, now: Instant)
    requires MandatesOk(t.mandates, t.outbox, events, now) && Cancel(t, m, asker, now).Ok?
    ensures var t' := Cancel(t, m, asker, now).value; MandatesOk(t'.mandates, t'.outbox, events, now)
  {
    hide Anchored;
    var t' := Cancel(t, m, asker, now).value;
    assert MandateOk(t.mandates[m], m, t.outbox, events, now);
    NoticesAppend(t.outbox, Cancelled(m, USER_REQUEST), m);
    assert events + [] == events;
    ChangingOne(t.mandates, t.outbox, events, now, m, t'.mandates[m], [Cancelled(m, USER_REQUEST)], []);
  }

  lemma OneOfMany(ds: seq<Mandate>, outbox: seq<Notification>, events: seq<Event>, now: Instant, m: MandateId)
    requires MandatesOk(ds, outbox, events, now) && m < |ds|
    ensures MandateOk(ds[m], m, outbox, events, now)
  {
  }

  lemma ClaimKeepsMandates(t: Tables, m: MandateId, events: seq<Event>, now: Instant)
    requires MandatesOk(t.mandates, t.outbox, events, now)
    ensures var t' := Claim(t, m, now).0; MandatesOk(t'.mandates, t'.outbox, events, now)
  {
    hide MandatesOk, Anchored, NextSlot, AfterDate, SkipScheduled;
    if m < |t.mandates| && Due(t.mandates[m], now) {
      var d := t.mandates[m];
      OneOfMany(t.mandates, t.outbox, events, now, m);
      assert events + [] == events && t.outbox + [] == t.outbox;
      if d.PastEnd() {
        NoticesAppend(t.outbox, Cancelled(m, END_DATE_REACHED), m);
        ChangingOne(t.mandates, t.outbox, events, now, m, d.(status := COMPLETED),
                    [Cancelled(m, END_DATE_REACHED)], []);
      } else {
        var next := NextSlot(d.start, d.cycle, d.nextRunAt);
        NextSlotIsAnchored(d.start, d.cycle, d.nextRunAt);
        AnchoredLater(d.start, d.cycle, next, d.nextRunAt, now);
        ChangingOne(t.mandates, t.outbox, events, now, m, d.(nextRunAt := next), [], []);
      }
    }
  }

  lemma SuccessKeepsMandates(t: Tables, e: ExecutionId, rtp: string, at: Option<Instant>, events: seq<Event>,
                             now: Instant)
    requires t.Knows(e) && MandatesOk(t.mandates, t.outbox, events, now)
    ensures var t', m := FinalizeSuccess(t, e, rtp, at, now), t.executions[e].mandate;
            MandatesOk(t'.mandates, t'.outbox, events + [Succeeded(m)], now)
  {
    hide MandatesOk, Anchored, AfterDate, EndNotices, FailuresInARow;
    var m := t.executions[e].mandate;
    var d := t.mandates[m].(lastRunAt := Some(now), lastExecution := Some(e), failedRuns := 0);
    OneOfMany(t.mandates, t.outbox, events, now, m);
    EventsAppend(events, Succeeded(m), m);
    if d.status == ACTIVE && d.PastEnd() {
      NoticesAppend(t.outbox, Cancelled(m, END_DATE_REACHED), m);
      ChangingOne(t.mandates, t.outbox, events, now, m, d.(status := COMPLETED),
                  [Cancelled(m, END_DATE_REACHED)], [Succeeded(m)]);
    } else {
      assert t.outbox + [] == t.outbox;
      ChangingOne(t.mandates, t.outbox, events, now, m, d, [], [Succeeded(m)]);
    }
  }

  lemma FailureKeepsMandates(t: Tables, e: ExecutionId, reason: FailureReason, events: seq<Event>, now: Instant)
    requires t.Knows(e) && MandatesOk(t.mandates, t.outbox, events, now)
    ensures var t', m := FinalizeFailure(t, e, reason, now), t.executions[e].mandate;
            MandatesOk(t'.mandates, t'.outbox, events + [Failed(m)], now)
  {
    hide MandatesOk, Anchored, AfterDate, EndNotices, FailuresInARow;
    var t', m := FinalizeFailure(t, e, reason, now), t.executions[e].mandate;
    var d := t.mandates[m];
    var notes := if d.status != ACTIVE then []
                 else if reason in CANCELLING_REASONS then [Cancelled(m, Refused(reason))]
                 else if reason == AML_BLOCK || d.failedRuns + 1 >= FAILURE_THRESHOLD then [AutoPaused(m, reason)]
                 else [];
    assert t'.outbox == t.outbox + notes;
    OneOfMany(t.mandates, t.outbox, events, now, m);
    EventsAppend(events, Failed(m), m);
    if notes != [] { NoticesAppend(t.outbox, notes[0], m); }
    ChangingOne(t.mandates, t.outbox, events, now, m, t'.mandates[m], notes, [Failed(m)]);
  }

  lemma EndedKeepsMandates(s: System, e: ExecutionId, attempt: nat, outcome: CallOutcome)
    requires HasTask(s, e) && MandatesOk(s.t.mandates, s.t.outbox, s.events, s.now)
    ensures var s' := Ended(s, e, attempt, outcome); MandatesOk(s'.t.mandates, s'.t.outbox, s'.events, s'.now)
  {
    hide MandatesOk, FinalizeFailure, FinalizeSuccess;
    match outcome
    case NoWebhook => FailureKeepsMandates(s.t, e, NETWORK_TIMEOUT, s.events, s.now);
    case NoAnswer =>
      FailureKeepsMandates(s.t, e, NETWORK_TIMEOUT, s.events, s.now);
      assert s.events + [] == s.events;
    case Answered(Executed(rtp, at)) => SuccessKeepsMandates(s.t, e, rtp, at, s.events, s.now);
    case Answered(Rejected(why)) => FailureKeepsMandates(s.t, e, Classify(why), s.events, s.now);
  }

  lemma ClientStepKeepsMandates(s: System, l: Label)
    requires MandatesOk(s.t.mandates, s.t.outbox, s.events, s.now) && OfClient(l)
    ensures var s' := Step(s, l); MandatesOk(s'.t.mandates, s'.t.outbox, s'.events, s'.now)
  {
    hide MandatesOk, Create, Pause, Resume, Cancel, TaskStep, BankStep, OtherStep;
    match l {
      case CreateMandate(r) =>
        if Create(s.t, r, DateOf(s.now), r.phone in s.registry.aliases).Ok? {
          CreateKeepsMandates(s.t, r, DateOf(s.now), r.phone in s.registry.aliases, s.events, s.now);
        }
      case PauseMandate(m, asker) =>
        if Pause(s.t, m, asker, s.now).Ok? {
          PauseKeepsMandates(s.t, m, asker, s.events, s.now);
          PauseSendsNothing(s.t, m, asker, s.now);
        }
      case ResumeMandate(m, asker) =>
        if Resume(s.t, m, asker, s.now).Ok? {
          ResumeKeepsMandates(s.t, m, asker, s.events, s.now);
          PauseSendsNothing(s.t, m, asker, s.now);
        }
      case CancelMandate(m, asker) =>
        if Cancel(s.t, m, asker, s.now).Ok? { CancelKeepsMandates(s.t, m, asker, s.events, s.now); }
    }
  }

  lemma TaskStepKeepsMandates(s: System, l: Label)
    requires MandatesOk(s.t.mandates, s.t.outbox, s.events, s.now) && OfTask(l)
    ensures var s' := Step(s, l); MandatesOk(s'.t.mandates, s'.t.outbox, s'.events, s'.now)
  {
    hide MandatesOk, Conclude, Claim, FinalizeFailure, ClientStep, BankStep, OtherStep;
    match l {
      case ClaimRun(m) => ClaimKeepsMandates(s.t, m, s.events, s.now);
      case LookupRecipient(e) =>
        if HasTask(s, e) { FailureKeepsMandates(s.t, e, RECIPIENT_ALIAS_GONE, s.events, s.now); }
      case SendRequest(e) =>
      case FindNoWebhook(e) =>
        if HasTask(s, e) && s.tasks[e].Ready? { EndedKeepsMandates(s, e, s.tasks[e].attempt, NoWebhook); }
      case LoseAnswer(e) =>
        if HasTask(s, e) && s.tasks[e].Waiting? { EndedKeepsMandates(s, e, s.tasks[e].attempt, NoAnswer); }
      case ReceiveAnswer(a) =>
        if HasTask(s, a.execution) && s.tasks[a.execution].Waiting? {
          EndedKeepsMandates(s, a.execution, s.tasks[a.execution].attempt, Answered(a.response));
        }
    }
  }

  lemma StepKeepsMandates(s: System, l: Label)
    requires MandatesOk(s.t.mandates, s.t.outbox, s.events, s.now)
    ensures var s' := Step(s, l); MandatesOk(s'.t.mandates, s'.t.outbox, s'.events, s'.now)
  {
    hide MandatesOk, Step;
    if OfClient(l) {
      ClientStepKeepsMandates(s, l);
    } else if OfTask(l) {
      TaskStepKeepsMandates(s, l);
    } else if OfBank(l) {
      BanksLeave(s, l);
    } else {
      OthersLeave(s, l);
      TimeKeepsMandates(s, Step(s, l).now - s.now);
    }
  }

  lemma PauseSendsNothing(t: Tables, m: MandateId, asker: BankId, now: Instant)
    ensures Pause(t, m, asker, now).Ok? ==> Pause(t, m, asker, now).value.outbox == t.outbox
    ensures Resume(t, m, asker, now).Ok? ==> Resume(t, m, asker, now).value.outbox == t.outbox
  {
  }

  lemma TimeKeepsMandates(s: System, elapsed: nat)
    requires MandatesOk(s.t.mandates, s.t.outbox, s.events, s.now)
    ensures MandatesOk(s.t.mandates, s.t.outbox, s.events, s.now + elapsed)
  {
    hide Anchored, AfterDate;
    forall m | 0 <= m < |s.t.mandates| ensures MandateOk(s.t.mandates[m], m, s.t.outbox, s.events, s.now + elapsed) {
      var d := s.t.mandates[m];
      assert MandateOk(d, m, s.t.outbox, s.events, s.now);
      AnchoredLater(d.start, d.cycle, d.nextRunAt, s.now, s.now + elapsed);
    }
  }
}
