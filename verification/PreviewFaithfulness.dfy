/** What the customer was shown is what is booked, through the HH:MM text stored in between. */
module PreviewFaithfulness {
  import opened Prelude
  import opened Calendar
  import opened Agenda
  import opened AgendaSafety
  import opened PendingActions
  import opened ActionProtocol

  /** The catalog rows of the previewed services still read as previewed. */
  predicate CatalogStillShows(services: map<Key, ServiceRow>, shown: seq<Snapshot>) {
    forall i :: 0 <= i < |shown| ==>
      shown[i].serviceId in services && TakeSnapshot(shown[i].serviceId, services[shown[i].serviceId]) == shown[i]
  }

  lemma ServicesAreTheShownOnes(cfg: Settings, services: map<Key, ServiceRow>, shown: seq<Snapshot>)
    requires ActiveServices(cfg, services, ServiceIds(shown)).Success?
    ensures ActiveServices(cfg, services, ServiceIds(shown)).value == shown <==> CatalogStillShows(services, shown)
  {
    var ids := ServiceIds(shown);
    var taken := ActiveServices(cfg, services, ids).value;
    assert forall i :: 0 <= i < |ids| ==> taken[i] == TakeSnapshot(ids[i], services[ids[i]]);
  }

  /** Where the booked row starts and lasts, in terms of the stored text. */
  lemma BookedAsStored(st: Store, cfg: DeskConfig, id: nat, a: Action, msg: Message, now: int, draws: CodeDraws)
    requires a.payload.CreatePayload? && PreviewMatches(a.payload, a.preview)
    requires ExecuteAction(st, cfg, id, a.payload, msg, now, draws).1.Success?
    requires ExecuteAction(st, cfg, id, a.payload, msg, now, draws).1.value.created
    ensures
      var row := ExecuteAction(st, cfg, id, a.payload, msg, now, draws).1.value.row;
      && ActiveServices(cfg.scheduling, st.services, a.payload.serviceIds) == Success(row.services)
      && row.resource == a.preview.resource
      && ToLocal(row.startAt, cfg.scheduling.utcOffset) == CombineLocal(a.preview.date, ParseHhmm(a.preview.startText))
      && row.endAt == row.startAt + TotalMinutes(row.services) * MINUTE
      && row.totalMinutes == TotalMinutes(row.services) && row.totalCents == TotalCents(row.services)
  {
  }

  /** The row reads, in local wall-clock terms, exactly as the preview. */
  predicate ReadsAs(offset: int, row: Appointment, p: Preview) {
    && p.CreatePreview?
    && DateOf(ToLocal(row.startAt, offset)) == p.date && FormatHhmm(TimeOf(ToLocal(row.startAt, offset))) == p.startText
    && DateOf(ToLocal(row.endAt, offset)) == p.date && FormatHhmm(TimeOf(ToLocal(row.endAt, offset))) == p.endText
    && row.resource == p.resource && row.services == p.services
    && row.totalMinutes == p.totalMinutes && row.totalCents == p.totalCents
  }

  /**
   * A confirmed create books the previewed date, start and chair in every case, and reads exactly
   * as the preview if and only if the catalog rows of its services still read as previewed.
   */
  lemma BookedAsPreviewed(st: Store, cfg: DeskConfig, id: nat, a: Action, msg: Message, now: int, draws: CodeDraws)
    requires a.payload.CreatePayload? && PreviewMatches(a.payload, a.preview)
    requires ExecuteAction(st, cfg, id, a.payload, msg, now, draws).1.Success?
    requires ExecuteAction(st, cfg, id, a.payload, msg, now, draws).1.value.created
    ensures
      var row := ExecuteAction(st, cfg, id, a.payload, msg, now, draws).1.value.row;
      var localStart := ToLocal(row.startAt, cfg.scheduling.utcOffset);
      && DateOf(localStart) == a.preview.date && FormatHhmm(TimeOf(localStart)) == a.preview.startText
      && row.resource == a.preview.resource
      && (ReadsAs(cfg.scheduling.utcOffset, row, a.preview) <==> CatalogStillShows(st.services, a.preview.services))
  {
    var row := ExecuteAction(st, cfg, id, a.payload, msg, now, draws).1.value.row;
    BookedAsStored(st, cfg, id, a, msg, now, draws);
    RowReadsAs(st, cfg, row, a);
  }

  lemma RowReadsAs(st: Store, cfg: DeskConfig, row: Appointment, a: Action)
    requires a.payload.CreatePayload? && PreviewMatches(a.payload, a.preview)
    requires ActiveServices(cfg.scheduling, st.services, a.payload.serviceIds) == Success(row.services)
    requires row.resource == a.preview.resource
    requires ToLocal(row.startAt, cfg.scheduling.utcOffset) == CombineLocal(a.preview.date, ParseHhmm(a.preview.startText))
    requires row.endAt == row.startAt + TotalMinutes(row.services) * MINUTE
    requires row.totalMinutes == TotalMinutes(row.services) && row.totalCents == TotalCents(row.services)
    ensures
      var localStart := ToLocal(row.startAt, cfg.scheduling.utcOffset);
      && DateOf(localStart) == a.preview.date && FormatHhmm(TimeOf(localStart)) == a.preview.startText
      && (ReadsAs(cfg.scheduling.utcOffset, row, a.preview) <==> CatalogStillShows(st.services, a.preview.services))
  {
    var start := ParseHhmm(a.preview.startText);
    CombineRoundTrip(a.preview.date, start, 0);
    ServicesAreTheShownOnes(cfg.scheduling, st.services, a.preview.services);
    if row.services == a.preview.services {
      var end := start + a.preview.totalMinutes * MINUTE;
      CombineRoundTrip(a.preview.date, end, 0);
      assert ToLocal(row.endAt, cfg.scheduling.utcOffset) == CombineLocal(a.preview.date, end);
    }
  }

  /** A claimed create that is still to run has an unused key and a preview that fits its payload. */
  lemma PendingJobIsFresh(cfg: DeskConfig, w: World, worker: nat)
    requires WorldOk(cfg, w) && worker in w.jobs && w.jobs[worker].ToExecute?
    ensures w.jobs[worker].action < |w.desk.actions|
    ensures var a := w.desk.actions[w.jobs[worker].action]; PreviewMatches(a.payload, a.preview)
    ensures FindKey(w.desk.store.appointments, PendingActionKey(w.jobs[worker].action)).None?
  {
    assert JobOk(cfg, w.desk, Executed(w), w.jobs[worker]);
    assert ActionOk(cfg, w.desk.actions[w.jobs[worker].action]);
  }

  lemma FreshCreateIsFaithful(st: Store, cfg: DeskConfig, id: nat, a: Action, msg: Message, now: int, draws: CodeDraws)
    requires a.payload.CreatePayload? && PreviewMatches(a.payload, a.preview) && FindKey(st.appointments, PendingActionKey(id)).None?
    ensures FaithfulOutcome(st, cfg, a, ExecuteAction(st, cfg, id, a.payload, msg, now, draws))
  {
    var (after, r) := ExecuteAction(st, cfg, id, a.payload, msg, now, draws);
    if r.Success? {
      UnusedKeyCreates(st, cfg, id, a.payload, msg, now, draws);
      BookedAsPreviewed(st, cfg, id, a, msg, now, draws);
    }
  }

  /**
   * A success is a new booking that reads as the preview exactly when the catalog still does; a
   * failure leaves the agenda unchanged.
   */
  ghost predicate FaithfulOutcome(st: Store, cfg: DeskConfig, a: Action, outcome: (Store, Result<Booking, SchedulingError>)) {
    && a.preview.CreatePreview?
    && (outcome.1.Success? ==>
          && outcome.1.value.created
          && (ReadsAs(cfg.scheduling.utcOffset, outcome.1.value.row, a.preview) <==> CatalogStillShows(st.services, a.preview.services)))
    && (outcome.1.Failure? ==> outcome.0 == st)
  }

  /** Over every run of the protocol, the agenda transaction of a claimed create is faithful. */
  lemma {:induction false} ConfirmedCreateIsFaithful(cfg: DeskConfig, w: World, events: seq<Event>, worker: nat, now: int, draws: CodeDraws)
    requires WorldOk(cfg, w) && AllLegal(events)
    requires worker in Reach(w, cfg, events).jobs && Reach(w, cfg, events).jobs[worker].ToExecute?
    ensures
      var here := Reach(w, cfg, events);
      var job := here.jobs[worker];
      && job.action < |here.desk.actions|
      && var a := here.desk.actions[job.action];
         a.payload.CreatePayload? ==>
           FaithfulOutcome(here.desk.store, cfg, a,
                           ExecuteAction(here.desk.store, cfg, job.action, a.payload, job.msg, now, draws))
  {
    RunKeepsWorld(cfg, w, events);
    var here := Reach(w, cfg, events);
    PendingJobIsFresh(cfg, here, worker);
    var job := here.jobs[worker];
    if here.desk.actions[job.action].payload.CreatePayload? {
      FreshCreateIsFaithful(here.desk.store, cfg, job.action, here.desk.actions[job.action], job.msg, now, draws);
    }
  }

  lemma UnusedKeyCreates(st: Store, cfg: DeskConfig, id: nat, payload: Payload, msg: Message, now: int, draws: CodeDraws)
    requires payload.CreatePayload? && FindKey(st.appointments, PendingActionKey(id)).None?
    requires ExecuteAction(st, cfg, id, payload, msg, now, draws).1.Success?
    ensures ExecuteAction(st, cfg, id, payload, msg, now, draws).1.value.created
  {
  }

  /** A slot taken between prepare and confirm makes the confirmation fail on an unchanged agenda. */
  lemma TakenSlotIsRefused(st: Store, cfg: DeskConfig, id: nat, a: Action, msg: Message, now: int, draws: CodeDraws)
    requires a.payload.CreatePayload? && PreviewMatches(a.payload, a.preview) && FindKey(st.appointments, PendingActionKey(id)).None?
    requires CatalogStillShows(st.services, a.preview.services)
    requires var startAt := ToUtc(CombineLocal(a.preview.date, ParseHhmm(a.preview.startText)), cfg.scheduling.utcOffset);
             Conflicts(st.appointments, Strip(msg.instance), a.preview.resource, startAt,
                       startAt + a.preview.totalMinutes * MINUTE, None)
    ensures ExecuteAction(st, cfg, id, a.payload, msg, now, draws).1.Failure?
    ensures ExecuteAction(st, cfg, id, a.payload, msg, now, draws).0 == st
  {
    if ExecuteAction(st, cfg, id, a.payload, msg, now, draws).1.Success? {
      UnusedKeyCreates(st, cfg, id, a.payload, msg, now, draws);
      BookedAsStored(st, cfg, id, a, msg, now, draws);
      ServicesAreTheShownOnes(cfg.scheduling, st.services, a.preview.services);
      BookedRowIsClear(st, cfg, id, a.payload, msg, now, draws);
    }
  }

  lemma BookedRowIsClear(st: Store, cfg: DeskConfig, id: nat, payload: Payload, msg: Message, now: int, draws: CodeDraws)
    requires payload.CreatePayload? && ExecuteAction(st, cfg, id, payload, msg, now, draws).1.Success?
    requires ExecuteAction(st, cfg, id, payload, msg, now, draws).1.value.created
    ensures var row := ExecuteAction(st, cfg, id, payload, msg, now, draws).1.value.row;
            row.instance == Strip(msg.instance) && !Conflicts(st.appointments, row.instance, row.resource, row.startAt, row.endAt, None)
  {
  }

  // ------------------------------------------------- prepare, then confirm at once

  /** The plan a prepared create made, and the request its execution will make. */
  lemma PreparedPlan(d: Desk, cfg: DeskConfig, who: CustomerKey, args: CreateArgs, now: int)
    requires PlanCreate(d, cfg, who, args, now).Success?
    ensures
      var (payload, _) := PlanCreate(d, cfg, who, args, now).value;
      var services := ActiveServices(cfg.scheduling, d.store.services, args.serviceIds);
      && payload == CreatePayload(args.serviceIds, args.date, FormatHhmm(args.start), args.customerName, Strip(args.resource))
      && ParseHhmm(payload.startText) == FloorMinute(args.start)
      && |args.serviceIds| <= cfg.scheduling.maxServices && Strip(args.resource) != ""
      && services.Success? && args.serviceIds != [] && Distinct(args.serviceIds)
      && PlanSlot(d.store, cfg.scheduling, who.instance, Strip(args.resource), args.date, args.start,
                  TotalMinutes(services.value), now, None).Success?
  {
    HhmmRoundTrip(args.start);
  }

  /** Confirming at once plans the previewed services again, from the start without its seconds. */
  lemma ExecutionReplans(d: Desk, cfg: DeskConfig, who: CustomerKey, args: CreateArgs, now: int, id: nat, msg: Message, draws: CodeDraws)
    requires Identity(cfg, msg) == Success(who) && PlanCreate(d, cfg, who, args, now).Success?
    requires FindKey(d.store.appointments, PendingActionKey(id)).None? && FreshCode(d.store.appointments, draws).Some?
    ensures
      var (payload, preview) := PlanCreate(d, cfg, who, args, now).value;
      var plan := PlanSlot(d.store, cfg.scheduling, who.instance, Strip(args.resource), args.date, FloorMinute(args.start),
                           preview.totalMinutes, now, None);
      var r := ExecuteAction(d.store, cfg, id, payload, msg, now, draws).1;
      && (plan.Failure? ==> r == Failure(plan.error))
      && (plan.Success? ==> r.Success? && r.value.created && r.value.row.startAt == plan.value.0)
  {
    PreparedPlan(d, cfg, who, args, now);
  }

  /**
   * What prepare accepts at a whole minute, confirming at the same instant on the same tables books,
   * at exactly the validated start (codes permitting).
   */
  lemma PreparedWholeMinuteIsBooked(d: Desk, cfg: DeskConfig, who: CustomerKey, args: CreateArgs, now: int,
                                    id: nat, msg: Message, draws: CodeDraws)
    requires Identity(cfg, msg) == Success(who) && PlanCreate(d, cfg, who, args, now).Success?
    requires args.start % MINUTE == 0
    requires FindKey(d.store.appointments, PendingActionKey(id)).None? && FreshCode(d.store.appointments, draws).Some?
    ensures
      var (payload, _) := PlanCreate(d, cfg, who, args, now).value;
      var r := ExecuteAction(d.store, cfg, id, payload, msg, now, draws).1;
      && r.Success? && r.value.created
      && ToLocal(r.value.row.startAt, cfg.scheduling.utcOffset) == CombineLocal(args.date, args.start)
  {
    ExecutionReplans(d, cfg, who, args, now, id, msg, draws);
    assert FloorMinute(args.start) == args.start;
    var preview := PlanCreate(d, cfg, who, args, now).value.1;
    PlannedSlotIsExact(d.store, cfg.scheduling, who.instance, Strip(args.resource), args.date, args.start, preview.totalMinutes, now, None);
  }

  /**
   * The exact condition: what prepare accepts, confirming at the same instant on the same tables
   * books if and only if the start without its seconds still keeps the notice, lies inside an
   * opening interval and touches no appointment (codes permitting).
   */
  lemma PreparedIsBookedIff(d: Desk, cfg: DeskConfig, who: CustomerKey, args: CreateArgs, now: int,
                            id: nat, msg: Message, draws: CodeDraws)
    requires Identity(cfg, msg) == Success(who) && PlanCreate(d, cfg, who, args, now).Success?
    requires FindKey(d.store.appointments, PendingActionKey(id)).None? && FreshCode(d.store.appointments, draws).Some?
    ensures
      var (payload, preview) := PlanCreate(d, cfg, who, args, now).value;
      ExecuteAction(d.store, cfg, id, payload, msg, now, draws).1.Success? <==>
        StartIsGood(d.store, cfg.scheduling, who.instance, Strip(args.resource), args.date, FloorMinute(args.start), preview.totalMinutes, now)
  {
    ExecutionReplans(d, cfg, who, args, now, id, msg, draws);
    PlanIsGood(d, cfg, who, args, now);
  }

  /** Notice, opening hours and conflicts of a start; the horizon is settled by the date alone. */
  predicate StartIsGood(st: Store, cfg: Settings, instance: Key, resource: Key, date: int, start: TimeOfDay, minutes: int, now: int) {
    var localStart := CombineLocal(date, start);
    var startAt := ToUtc(localStart, cfg.utcOffset);
    && WithinNotice(cfg, startAt, now)
    && FitsBusinessHours(localStart, localStart + minutes * MINUTE, OpenIntervals(st.hours, instance, resource, WeekdayOf(date)))
    && !Conflicts(st.appointments, instance, resource, startAt, startAt + minutes * MINUTE, None)
  }

  lemma PlanIsGood(d: Desk, cfg: DeskConfig, who: CustomerKey, args: CreateArgs, now: int)
    requires PlanCreate(d, cfg, who, args, now).Success?
    ensures
      var minutes := PlanCreate(d, cfg, who, args, now).value.1.totalMinutes;
      var resource, start := Strip(args.resource), FloorMinute(args.start);
      PlanSlot(d.store, cfg.scheduling, who.instance, resource, args.date, start, minutes, now, None).Success? <==>
        StartIsGood(d.store, cfg.scheduling, who.instance, resource, args.date, start, minutes, now)
  {
  }

  /**
   * With seconds in the requested start, the stored HH:MM text drops them: prepare validates one
   * start and confirm books an earlier one. At the last instant the notice rule allows, prepare
   * succeeds and the confirmation at that same instant is refused.
   */
  lemma PreparedSecondsMayBeRefused(d: Desk, cfg: DeskConfig, who: CustomerKey, args: CreateArgs, now: int,
                                    id: nat, msg: Message, draws: CodeDraws)
    requires Identity(cfg, msg) == Success(who) && PlanCreate(d, cfg, who, args, now).Success?
    requires args.start % MINUTE != 0
    requires now + cfg.scheduling.minNoticeMinutes * MINUTE == ToUtc(CombineLocal(args.date, args.start), cfg.scheduling.utcOffset)
    requires FindKey(d.store.appointments, PendingActionKey(id)).None?
    ensures
      var (payload, _) := PlanCreate(d, cfg, who, args, now).value;
      ExecuteAction(d.store, cfg, id, payload, msg, now, draws) == (d.store, Failure(BookingNotice))
  {
    PreparedPlan(d, cfg, who, args, now);
    assert FloorMinute(args.start) < args.start;
  }

  /**
   * A concrete refusal: in the small shop, one second after ten on Monday, a start at that very
   * second is prepared, and confirming it at the same instant is refused for lack of notice.
   */
  lemma OneSecondIsRefused(msg: Message, id: nat, draws: CodeDraws)
    requires msg.instance == "shop" && msg.phone == Some("55")
    ensures
      var d := Desk(SmallShop(), []);
      var cfg: DeskConfig := DeskConfig(SmallShopRules(), 15, _ => "", _ => true, _ => true);
      var plan := PlanCreate(d, cfg, CustomerKey("shop", "55"), CreateArgs(["cut"], 1, 36001, None, "main"), 122401);
      plan.Success? && ExecuteAction(SmallShop(), cfg, id, plan.value.0, msg, 122401, draws) == (SmallShop(), Failure(BookingNotice))
  {
    var d := Desk(SmallShop(), []);
    var cfg: DeskConfig := DeskConfig(SmallShopRules(), 15, _ => "", _ => true, _ => true);
    var who, args := CustomerKey("shop", "55"), CreateArgs(["cut"], 1, 36001, None, "main");
    CleanTexts();
    SmallShopCut();
    SmallShopSlot(36001, SmallShop(), 122401, None);
    assert PlanCreate(d, cfg, who, args, 122401).Success?;
    assert Identity(cfg, msg) == Success(who);
    PreparedSecondsMayBeRefused(d, cfg, who, args, 122401, id, msg, draws);
  }
}
