/** What the customer was shown of a reschedule is where the appointment lands. */
module RescheduleFaithfulness {
  import opened Prelude
  import opened Calendar
  import opened Agenda
  import opened AgendaSafety
  import opened PendingActions
  import opened ActionProtocol

  /** The preview shows the payload's new chair, date and start, and the end that the appointment's own length gives. */
  ghost predicate MovePreviewOk(st: Store, payload: Payload, preview: Preview) {
    payload.ReschedulePayload? ==>
      && preview.ReschedulePreview?
      && preview.newDate == payload.date && preview.newStartText == payload.startText
      && preview.newResource == payload.resource && payload.resource != ""
      && payload.appointmentId < |st.appointments|
      && TimesMatch(payload.startText, st.appointments[payload.appointmentId].totalMinutes, preview.newEndText)
  }

  ghost predicate MovesOk(w: World) {
    forall i :: 0 <= i < |w.desk.actions| ==> MovePreviewOk(w.desk.store, w.desk.actions[i].payload, w.desk.actions[i].preview)
  }

  // -------------------------------------------------- prepared and kept over runs

  lemma PlanMoveIsConsistent(d: Desk, cfg: DeskConfig, who: CustomerKey, args: RescheduleArgs, now: int)
    requires AgendaOk(d.store) && PlanReschedule(d, cfg, who, args, now).Success?
    ensures var (payload, preview) := PlanReschedule(d, cfg, who, args, now).value; MovePreviewOk(d.store, payload, preview)
  {
    var a := OwnedScheduled(d, who, args.appointmentId).value;
    var resource := ChosenResource(args.resource, a.resource);
    assert RowOk(d.store.customers, a);
    PlannedEndIsSameDay(d.store, cfg.scheduling, who.instance, resource, args.date, args.start, a.totalMinutes, now, Some(args.appointmentId));
    ShownTimesMatch(args.date, args.start, a.totalMinutes);
    assert Strip("") == "";
  }

  lemma PlanMovesOk(d: Desk, cfg: DeskConfig, who: CustomerKey, proposal: Proposal, now: int)
    requires AgendaOk(d.store) && Plan(d, cfg, who, proposal, now).Success?
    ensures var (payload, preview) := Plan(d, cfg, who, proposal, now).value; MovePreviewOk(d.store, payload, preview)
  {
    if proposal.ProposeReschedule? {
      PlanMoveIsConsistent(d, cfg, who, proposal.reschedule, now);
    }
  }

  /** A new row of a prepare carries the payload and preview of its plan. */
  lemma PreparedRow(d: Desk, cfg: DeskConfig, msg: Message, proposal: Proposal, now: int, i: nat)
    requires AgendaOk(d.store)
    requires |d.actions| <= i < |Prepare(d, cfg, msg, proposal, now).0.actions|
    ensures var a := Prepare(d, cfg, msg, proposal, now).0.actions[i]; MovePreviewOk(d.store, a.payload, a.preview)
  {
    var who := Identity(cfg, msg).value;
    PlanMovesOk(d, cfg, who, proposal, now);
    var (payload, preview) := Plan(d, cfg, who, proposal, now).value;
    var a := Prepare(d, cfg, msg, proposal, now).0.actions[i];
    assert a.payload == payload && a.preview == preview;
  }

  lemma SameIsExtension(st: Store)
    ensures Extends(st, st)
  {
  }

  lemma EventExtends(cfg: DeskConfig, w: World, e: Event)
    requires WorldOk(cfg, w)
    ensures Extends(w.desk.store, Next(w, cfg, e).desk.store)
  {
    SameIsExtension(w.desk.store);
    match e
    case PrepareEvent(msg, proposal, now) => PrepareKeeps(w.desk, cfg, msg, proposal, now);
    case ClaimEvent(worker, msg, now) => BeginKeeps(w.desk, cfg, msg, now);
    case ExecuteEvent(worker, now, draws) => ExecuteExtends(cfg, w, worker, now, draws);
    case CompleteEvent(_) =>
    case CrashEvent(_) =>
    case DiscardEvent(msg, now) => DiscardKeeps(w.desk, cfg, msg, now);
    case AgendaEvent(step) => StepExtends(w.desk.store, cfg.scheduling, step);
  }

  lemma ExecuteExtends(cfg: DeskConfig, w: World, worker: nat, now: int, draws: CodeDraws)
    requires AgendaOk(w.desk.store)
    ensures Extends(w.desk.store, DoExecute(w, cfg, worker, now, draws).desk.store)
  {
    SameIsExtension(w.desk.store);
    if worker in w.jobs && w.jobs[worker].ToExecute? && w.jobs[worker].action < |w.desk.actions| {
      var job := w.jobs[worker];
      ExecuteKeeps(w.desk.store, cfg, job.action, w.desk.actions[job.action].payload, job.msg, now, draws);
    }
  }

  lemma GrowthKeepsMove(before: Store, after: Store, payload: Payload, preview: Preview)
    requires Extends(before, after) && MovePreviewOk(before, payload, preview)
    ensures MovePreviewOk(after, payload, preview)
  {
    if payload.ReschedulePayload? {
      assert SameHistory(before.appointments[payload.appointmentId], after.appointments[payload.appointmentId]);
    }
  }

  /** Only a prepare adds action rows. */
  lemma OnlyPrepareAdds(cfg: DeskConfig, w: World, e: Event)
    requires WorldOk(cfg, w) && !e.PrepareEvent?
    ensures |Next(w, cfg, e).desk.actions| == |w.desk.actions|
  {
    match e
    case ClaimEvent(worker, msg, now) => BeginKeeps(w.desk, cfg, msg, now);
    case DiscardEvent(msg, now) => DiscardKeeps(w.desk, cfg, msg, now);
    case CompleteEvent(_) =>
    case _ => OtherStepsKeepRows(cfg, w, e);
  }

  lemma NewRowsAreOk(cfg: DeskConfig, w: World, e: Event, i: nat)
    requires WorldOk(cfg, w) && |w.desk.actions| <= i < |Next(w, cfg, e).desk.actions|
    ensures var a := Next(w, cfg, e).desk.actions[i]; MovePreviewOk(w.desk.store, a.payload, a.preview)
  {
    if e.PrepareEvent? {
      PreparedRow(w.desk, cfg, e.msg, e.proposal, e.now, i);
    } else {
      OnlyPrepareAdds(cfg, w, e);
    }
  }

  lemma EventKeepsMoves(cfg: DeskConfig, w: World, e: Event)
    requires WorldOk(cfg, w) && MovesOk(w)
    ensures MovesOk(Next(w, cfg, e))
  {
    var before, after := w.desk, Next(w, cfg, e).desk;
    assert Evolves(before.actions, after.actions) by { EventEvolves(cfg, w, e); }
    assert Extends(before.store, after.store) by { EventExtends(cfg, w, e); }
    forall i | 0 <= i < |after.actions| ensures MovePreviewOk(after.store, after.actions[i].payload, after.actions[i].preview) {
      if i < |before.actions| {
        assert SameProposal(before.actions[i], after.actions[i]);
      } else {
        NewRowsAreOk(cfg, w, e, i);
      }
      GrowthKeepsMove(before.store, after.store, after.actions[i].payload, after.actions[i].preview);
    }
  }

  /** Over every run of the protocol, starting with no actions at all. */
  lemma {:induction false} RunKeepsMoves(cfg: DeskConfig, w: World, events: seq<Event>)
    requires WorldOk(cfg, w) && AllLegal(events) && MovesOk(w)
    ensures WorldOk(cfg, Reach(w, cfg, events)) && MovesOk(Reach(w, cfg, events))
    decreases |events|
  {
    if events != [] {
      assert Legal(events[0]);
      EventKeepsWorld(cfg, w, events[0]);
      EventKeepsMoves(cfg, w, events[0]);
      RunKeepsMoves(cfg, Next(w, cfg, events[0]), events[1..]);
    }
  }

  // -------------------------------------------------------------- main result

  /** The moved row reads, in local wall-clock terms, as the preview, and is otherwise the row it was. */
  ghost predicate MovedAsShown(offset: int, before: Appointment, after: Appointment, p: Preview) {
    && p.ReschedulePreview?
    && DateOf(ToLocal(after.startAt, offset)) == p.newDate && FormatHhmm(TimeOf(ToLocal(after.startAt, offset))) == p.newStartText
    && DateOf(ToLocal(after.endAt, offset)) == p.newDate && FormatHhmm(TimeOf(ToLocal(after.endAt, offset))) == p.newEndText
    && after == before.(resource := Strip(p.newResource), startAt := after.startAt, endAt := after.endAt)
  }

  /** A success moves exactly the shown appointment as shown; a failure leaves the agenda unchanged. */
  ghost predicate FaithfulMove(st: Store, cfg: DeskConfig, a: Action, outcome: (Store, Result<Booking, SchedulingError>))
    requires a.payload.ReschedulePayload?
  {
    var id := a.payload.appointmentId;
    && (outcome.1.Success? ==>
          && id < |st.appointments| && outcome.1.value.id == id
          && outcome.0 == st.(appointments := st.appointments[id := outcome.1.value.row])
          && MovedAsShown(cfg.scheduling.utcOffset, st.appointments[id], outcome.1.value.row, a.preview))
    && (outcome.1.Failure? ==> outcome.0 == st)
  }

  /** The scheduling request that a confirmed reschedule makes. */
  function MoveRequest(a: Action, msg: Message): RescheduleRequest
    requires a.payload.ReschedulePayload? && 0 <= ParseHhmm(a.payload.startText)
  {
    RescheduleRequest(msg.instance, RawPhone(msg), a.payload.appointmentId, a.payload.date, ParseHhmm(a.payload.startText), Some(a.payload.resource))
  }

  lemma MoveIsReschedule(st: Store, cfg: DeskConfig, id: nat, a: Action, msg: Message, now: int, draws: CodeDraws)
    requires a.payload.ReschedulePayload? && 0 <= ParseHhmm(a.payload.startText)
    ensures ExecuteAction(st, cfg, id, a.payload, msg, now, draws) == Reschedule(st, cfg.scheduling, MoveRequest(a, msg), now)
  {
  }

  lemma RescheduleLandsAsShown(st: Store, cfg: DeskConfig, a: Action, msg: Message, now: int)
    requires a.payload.ReschedulePayload? && MovePreviewOk(st, a.payload, a.preview)
    ensures FaithfulMove(st, cfg, a, Reschedule(st, cfg.scheduling, MoveRequest(a, msg), now))
  {
    var req := MoveRequest(a, msg);
    var outcome := Reschedule(st, cfg.scheduling, req, now);
    if outcome.1.Success? {
      MoveShape(st, cfg.scheduling, req, now);
      ReadsAsShown(cfg.scheduling.utcOffset, st.appointments[req.id], outcome.1.value.row, a.payload, a.preview);
    } else {
      assert outcome.0 == st;
    }
  }

  lemma ReadsAsShown(offset: int, before: Appointment, after: Appointment, payload: Payload, preview: Preview)
    requires payload.ReschedulePayload? && preview.ReschedulePreview? && payload.resource != ""
    requires preview.newDate == payload.date && preview.newStartText == payload.startText && preview.newResource == payload.resource
    requires TimesMatch(payload.startText, before.totalMinutes, preview.newEndText)
    requires var startAt := ToUtc(CombineLocal(payload.date, ParseHhmm(payload.startText)), offset);
             after == before.(resource := Strip(ChosenResource(Some(payload.resource), before.resource)), startAt := startAt,
                              endAt := startAt + before.totalMinutes * MINUTE)
    ensures MovedAsShown(offset, before, after, preview)
  {
    LandsAsShown(offset, payload.date, ParseHhmm(payload.startText), before.totalMinutes, after.startAt, after.endAt);
  }

  lemma MoveLandsAsShown(st: Store, cfg: DeskConfig, id: nat, a: Action, msg: Message, now: int, draws: CodeDraws)
    requires a.payload.ReschedulePayload? && MovePreviewOk(st, a.payload, a.preview)
    ensures FaithfulMove(st, cfg, a, ExecuteAction(st, cfg, id, a.payload, msg, now, draws))
  {
    MoveIsReschedule(st, cfg, id, a, msg, now, draws);
    RescheduleLandsAsShown(st, cfg, a, msg, now);
  }

  lemma MoveShape(st: Store, cfg: Settings, req: RescheduleRequest, now: int)
    requires Reschedule(st, cfg, req, now).1.Success?
    ensures
      var (after, r) := Reschedule(st, cfg, req, now);
      && req.id < |st.appointments| && r.value.id == req.id
      && after == st.(appointments := st.appointments[req.id := r.value.row])
      && var before := st.appointments[req.id];
         var startAt := ToUtc(CombineLocal(req.date, req.start), cfg.utcOffset);
         r.value.row == before.(resource := Strip(ChosenResource(req.resource, before.resource)), startAt := startAt,
                                endAt := startAt + before.totalMinutes * MINUTE)
  {
  }

  lemma LandsAsShown(offset: int, date: int, start: TimeOfDay, minutes: int, startAt: int, endAt: int)
    requires 0 < minutes && start + minutes * MINUTE < DAY
    requires startAt == ToUtc(CombineLocal(date, start), offset) && endAt == startAt + minutes * MINUTE
    ensures DateOf(ToLocal(startAt, offset)) == date && TimeOf(ToLocal(startAt, offset)) == start
    ensures DateOf(ToLocal(endAt, offset)) == date && TimeOf(ToLocal(endAt, offset)) == start + minutes * MINUTE
  {
    CombineRoundTrip(date, start, 0);
    CombineRoundTrip(date, start + minutes * MINUTE, 0);
    assert ToLocal(endAt, offset) == CombineLocal(date, start + minutes * MINUTE);
  }

  /** Over every run of the protocol, the agenda transaction of a claimed reschedule does what was shown. */
  lemma {:induction false} ConfirmedMoveIsFaithful(cfg: DeskConfig, w: World, events: seq<Event>, worker: nat, now: int, draws: CodeDraws)
    requires WorldOk(cfg, w) && AllLegal(events) && MovesOk(w)
    requires worker in Reach(w, cfg, events).jobs && Reach(w, cfg, events).jobs[worker].ToExecute?
    ensures
      var here := Reach(w, cfg, events);
      var job := here.jobs[worker];
      && job.action < |here.desk.actions|
      && var a := here.desk.actions[job.action];
         a.payload.ReschedulePayload? ==>
           FaithfulMove(here.desk.store, cfg, a, ExecuteAction(here.desk.store, cfg, job.action, a.payload, job.msg, now, draws))
  {
    RunKeepsMoves(cfg, w, events);
    ClaimedMoveIsFaithful(cfg, Reach(w, cfg, events), worker, now, draws);
  }

  lemma ClaimedMoveIsFaithful(cfg: DeskConfig, w: World, worker: nat, now: int, draws: CodeDraws)
    requires WorldOk(cfg, w) && MovesOk(w) && worker in w.jobs && w.jobs[worker].ToExecute?
    ensures
      var job := w.jobs[worker];
      && job.action < |w.desk.actions|
      && var a := w.desk.actions[job.action];
         a.payload.ReschedulePayload? ==>
           FaithfulMove(w.desk.store, cfg, a, ExecuteAction(w.desk.store, cfg, job.action, a.payload, job.msg, now, draws))
  {
    var job := w.jobs[worker];
    assert JobOk(cfg, w.desk, Executed(w), job);
    if w.desk.actions[job.action].payload.ReschedulePayload? {
      MoveLandsAsShown(w.desk.store, cfg, job.action, w.desk.actions[job.action], job.msg, now, draws);
    }
  }
}
