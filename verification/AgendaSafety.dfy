/**
 * What every sequence of scheduling transactions keeps: no double booking, totals that match the
 * snapshots, unique keys and codes, and rows whose history never changes.
 */
module AgendaSafety {
  import opened Prelude
  import opened Calendar
  import opened Agenda

  // --------------------------------------------------------------- invariant

  /** Two scheduled rows of one chair never share an instant. */
  ghost predicate NoDoubleBooking(rows: seq<Appointment>) {
    forall i, j :: 0 <= i < |rows| && 0 <= j < |rows| && i != j && rows[i].status.Scheduled?
      ==> !Blocks(rows[j], rows[i].instance, rows[i].resource, rows[i].startAt, rows[i].endAt)
  }

  /** Totals are the sums of the snapshots, and the booked interval lasts exactly the total. */
  ghost predicate Conserved(a: Appointment) {
    && a.services != [] && Distinct(ServiceIds(a.services))
    && a.totalMinutes == TotalMinutes(a.services) && 0 < a.totalMinutes
    && a.totalCents == TotalCents(a.services) && 0 <= a.totalCents
    && a.endAt - a.startAt == a.totalMinutes * MINUTE
  }

  ghost predicate RowOk(customers: map<CustomerKey, Option<string>>, a: Appointment) {
    && Conserved(a)
    && a.customer in customers && a.customer.instance == a.instance
    && (a.status.Scheduled? || a.status.Cancelled?)
  }

  ghost predicate UniqueKeys(rows: seq<Appointment>) {
    forall i, j :: 0 <= i < j < |rows| && rows[i].idempotencyKey.Some? ==> rows[i].idempotencyKey != rows[j].idempotencyKey
  }

  ghost predicate UniqueCodes(rows: seq<Appointment>) {
    forall i, j :: 0 <= i < j < |rows| ==> rows[i].code != rows[j].code
  }

  ghost predicate AgendaOk(st: Store) {
    && NoDoubleBooking(st.appointments)
    && UniqueKeys(st.appointments) && UniqueCodes(st.appointments)
    && forall i :: 0 <= i < |st.appointments| ==> RowOk(st.customers, st.appointments[i])
  }

  // ------------------------------------------------------ insert and replace

  lemma OverlapsIsSymmetric(a: Appointment, b: Appointment)
    requires a.status.Scheduled?
    requires Blocks(b, a.instance, a.resource, a.startAt, a.endAt)
    ensures Blocks(a, b.instance, b.resource, b.startAt, b.endAt)
  {
  }

  lemma InsertKeepsAgenda(st: Store, row: Appointment, customers: map<CustomerKey, Option<string>>)
    requires AgendaOk(st) && st.customers.Keys <= customers.Keys && RowOk(customers, row)
    requires row.status.Scheduled? ==> !Conflicts(st.appointments, row.instance, row.resource, row.startAt, row.endAt, None)
    requires row.idempotencyKey.Some? ==> FindKey(st.appointments, row.idempotencyKey.value).None?
    requires !CodeTaken(st.appointments, row.code)
    ensures AgendaOk(st.(appointments := st.appointments + [row], customers := customers))
  {
    var rows := st.appointments + [row];
    forall i, j | 0 <= i < |rows| && 0 <= j < |rows| && i != j && rows[i].status.Scheduled?
      ensures !Blocks(rows[j], rows[i].instance, rows[i].resource, rows[i].startAt, rows[i].endAt)
    {
      if Blocks(rows[j], rows[i].instance, rows[i].resource, rows[i].startAt, rows[i].endAt) {
        OverlapsIsSymmetric(rows[i], rows[j]);
        assert false;
      }
    }
  }

  lemma ReplaceKeepsAgenda(st: Store, id: nat, row: Appointment)
    requires AgendaOk(st) && id < |st.appointments| && RowOk(st.customers, row)
    requires row.idempotencyKey == st.appointments[id].idempotencyKey && row.code == st.appointments[id].code
    requires row.status.Scheduled? ==> !Conflicts(st.appointments, row.instance, row.resource, row.startAt, row.endAt, Some(id))
    ensures AgendaOk(st.(appointments := st.appointments[id := row]))
  {
    var rows := st.appointments[id := row];
    forall i, j | 0 <= i < |rows| && 0 <= j < |rows| && i != j && rows[i].status.Scheduled?
      ensures !Blocks(rows[j], rows[i].instance, rows[i].resource, rows[i].startAt, rows[i].endAt)
    {
      if Blocks(rows[j], rows[i].instance, rows[i].resource, rows[i].startAt, rows[i].endAt) {
        OverlapsIsSymmetric(rows[i], rows[j]);
        assert false;
      }
    }
  }

  // -------------------------------------------------- each transaction keeps it

  lemma {:induction false} TotalsArePositive(services: seq<Snapshot>)
    requires forall i :: 0 <= i < |services| ==> 0 < services[i].durationMinutes && 0 <= services[i].priceCents
    ensures 0 <= TotalMinutes(services) && 0 <= TotalCents(services)
    ensures services != [] ==> 0 < TotalMinutes(services)
  {
    if services != [] {
      TotalsArePositive(services[1..]);
    }
  }

  lemma PlannedSlotIsExact(st: Store, cfg: Settings, instance: Key, resource: Key,
                           date: int, start: TimeOfDay, minutes: int, now: int, exclude: Option<nat>)
    requires PlanSlot(st, cfg, instance, resource, date, start, minutes, now, exclude).Success?
    ensures var (startAt, endAt) := PlanSlot(st, cfg, instance, resource, date, start, minutes, now, exclude).value;
            && startAt == ToUtc(CombineLocal(date, start), cfg.utcOffset)
            && endAt == startAt + minutes * MINUTE
            && !Conflicts(st.appointments, instance, resource, startAt, endAt, exclude)
  {
  }

  lemma BookNewKeepsAgenda(st: Store, cfg: Settings, instance: Key, phone: Key, resource: Key,
                           req: CreateRequest, now: int, draws: CodeDraws)
    requires AgendaOk(st)
    requires req.idempotencyKey.Some? ==> FindKey(st.appointments, req.idempotencyKey.value).None?
    ensures AgendaOk(BookNew(st, cfg, instance, phone, resource, req, now, draws).0)
  {
    var (st', r) := BookNew(st, cfg, instance, phone, resource, req, now, draws);
    if r.Success? {
      var services := ActiveServices(cfg, st.services, req.serviceIds).value;
      TotalsArePositive(services);
      PlannedSlotIsExact(st, cfg, instance, resource, req.date, req.start, TotalMinutes(services), now, None);
      InsertKeepsAgenda(st, r.value.row, st'.customers);
      assert st' == st.(appointments := st.appointments + [r.value.row], customers := st'.customers);
    }
  }

  lemma CreateKeepsAgenda(st: Store, cfg: Settings, req: CreateRequest, now: int, draws: CodeDraws)
    requires AgendaOk(st)
    ensures AgendaOk(Create(st, cfg, req, now, draws).0)
  {
    var resource := Strip(ChosenResource(req.resource, cfg.defaultResource));
    if req.idempotencyKey.None? || FindKey(st.appointments, req.idempotencyKey.value).None? {
      BookNewKeepsAgenda(st, cfg, Strip(req.instance), Strip(req.phone), resource, req, now, draws);
    }
  }

  lemma CancelKeepsAgenda(st: Store, instance: string, phone: string, id: nat, reason: Option<string>, now: int)
    requires AgendaOk(st)
    ensures AgendaOk(Cancel(st, instance, phone, id, reason, now).0)
  {
    var (st', r) := Cancel(st, instance, phone, id, reason, now);
    if r.Success? {
      assert Conserved(st.appointments[id]);
      ReplaceKeepsAgenda(st, id, r.value.row);
    }
  }

  lemma RescheduleKeepsAgenda(st: Store, cfg: Settings, req: RescheduleRequest, now: int)
    requires AgendaOk(st)
    ensures AgendaOk(Reschedule(st, cfg, req, now).0)
  {
    var (st', r) := Reschedule(st, cfg, req, now);
    if r.Success? {
      var a := st.appointments[req.id];
      assert Conserved(a);
      PlannedSlotIsExact(st, cfg, Strip(req.instance), r.value.row.resource, req.date, req.start, a.totalMinutes, now, Some(req.id));
      ReplaceKeepsAgenda(st, req.id, r.value.row);
    }
  }

  // --------------------------------------------------------------------- runs

  /** One committed transaction, or an edit of the catalog, the hours or the chairs. */
  datatype Step =
    | CreateStep(create: CreateRequest, now: int, draws: CodeDraws)
    | CancelStep(instance: string, phone: string, id: nat, reason: Option<string>, now: int)
    | RescheduleStep(reschedule: RescheduleRequest, now: int)
    | EditCatalog(services: map<Key, ServiceRow>)
    | EditHours(hours: seq<HoursRow>)
    | EditResources(resources: seq<ResourceRow>)

  function Apply(st: Store, cfg: Settings, step: Step): Store {
    match step
    case CreateStep(req, now, draws) => Create(st, cfg, req, now, draws).0
    case CancelStep(instance, phone, id, reason, now) => Cancel(st, instance, phone, id, reason, now).0
    case RescheduleStep(req, now) => Reschedule(st, cfg, req, now).0
    case EditCatalog(services) => st.(services := services)
    case EditHours(hours) => st.(hours := hours)
    case EditResources(resources) => st.(resources := resources)
  }

  function Run(st: Store, cfg: Settings, steps: seq<Step>): Store
    decreases |steps|
  {
    if steps == [] then st else Run(Apply(st, cfg, steps[0]), cfg, steps[1..])
  }

  lemma StepKeepsAgenda(st: Store, cfg: Settings, step: Step)
    requires AgendaOk(st)
    ensures AgendaOk(Apply(st, cfg, step))
  {
    match step
    case CreateStep(req, now, draws) => CreateKeepsAgenda(st, cfg, req, now, draws);
    case CancelStep(instance, phone, id, reason, now) => CancelKeepsAgenda(st, instance, phone, id, reason, now);
    case RescheduleStep(req, now) => RescheduleKeepsAgenda(st, cfg, req, now);
    case EditCatalog(_) =>
    case EditHours(_) =>
    case EditResources(_) =>
  }

  /** Safety over every run: no double booking and conservation in every reachable state. */
  lemma {:induction false} RunKeepsAgenda(st: Store, cfg: Settings, steps: seq<Step>)
    requires AgendaOk(st)
    ensures AgendaOk(Run(st, cfg, steps))
    decreases |steps|
  {
    if steps != [] {
      StepKeepsAgenda(st, cfg, steps[0]);
      RunKeepsAgenda(Apply(st, cfg, steps[0]), cfg, steps[1..]);
    }
  }

  // ------------------------------------------------------------------ history

  /** What no later transaction can change about a row; a cancelled row is frozen altogether. */
  ghost predicate SameHistory(a: Appointment, b: Appointment) {
    && a.instance == b.instance && a.customer == b.customer && a.code == b.code
    && a.idempotencyKey == b.idempotencyKey
    && a.services == b.services && a.totalMinutes == b.totalMinutes && a.totalCents == b.totalCents
    && (!a.status.Scheduled? ==> a == b)
  }

  ghost predicate Extends(before: Store, after: Store) {
    && |before.appointments| <= |after.appointments|
    && before.customers.Keys <= after.customers.Keys
    && forall i :: 0 <= i < |before.appointments| ==> SameHistory(before.appointments[i], after.appointments[i])
  }

  lemma CreateExtends(st: Store, cfg: Settings, req: CreateRequest, now: int, draws: CodeDraws)
    ensures Extends(st, Create(st, cfg, req, now, draws).0)
  {
    var (st', r) := Create(st, cfg, req, now, draws);
    if st' != st {
      assert st'.appointments == st.appointments + [r.value.row];
    }
  }

  lemma RescheduleExtends(st: Store, cfg: Settings, req: RescheduleRequest, now: int)
    ensures Extends(st, Reschedule(st, cfg, req, now).0)
  {
    var (st', r) := Reschedule(st, cfg, req, now);
    if r.Success? {
      assert st' == st.(appointments := st.appointments[req.id := r.value.row]);
    }
  }

  lemma StepExtends(st: Store, cfg: Settings, step: Step)
    ensures Extends(st, Apply(st, cfg, step))
  {
    match step
    case CreateStep(req, now, draws) => CreateExtends(st, cfg, req, now, draws);
    case CancelStep(_, _, _, _, _) =>
    case RescheduleStep(req, now) => RescheduleExtends(st, cfg, req, now);
    case EditCatalog(_) =>
    case EditHours(_) =>
    case EditResources(_) =>
  }

  /**
   * Rows survive every run with their snapshots, totals, owner, key and code intact, whatever is
   * cancelled, rescheduled or edited in the catalog meanwhile.
   */
  lemma {:induction false} RunExtends(st: Store, cfg: Settings, steps: seq<Step>)
    ensures Extends(st, Run(st, cfg, steps))
    decreases |steps|
  {
    if steps != [] {
      var next := Apply(st, cfg, steps[0]);
      StepExtends(st, cfg, steps[0]);
      RunExtends(next, cfg, steps[1..]);
      var final := Run(st, cfg, steps);
      forall i | 0 <= i < |st.appointments|
        ensures SameHistory(st.appointments[i], final.appointments[i])
      {
        assert SameHistory(st.appointments[i], next.appointments[i]);
        assert SameHistory(next.appointments[i], final.appointments[i]);
      }
    }
  }

  // -------------------------------------------------------------- idempotency

  lemma FindKeyIsUnique(rows: seq<Appointment>, key: IdempotencyKey, id: nat)
    requires UniqueKeys(rows) && id < |rows| && rows[id].idempotencyKey == Some(key)
    ensures FindKey(rows, key) == Some(id)
  {
    var found := FindKey(rows, key);
    assert found.Some?;
  }

  /** Arguments that get past the checks made before the idempotency lookup. */
  predicate WellFormedRequest(cfg: Settings, req: CreateRequest) {
    && Strip(req.instance) != "" && IsPhone(Strip(req.phone))
    && Strip(ChosenResource(req.resource, cfg.defaultResource)) != ""
    && req.serviceIds != [] && |req.serviceIds| <= cfg.maxServices && Distinct(req.serviceIds)
  }

  /** With the key already on row `id`, a call only compares: it replays that row or fails. */
  lemma UsedKeyReplaysOrFails(st: Store, cfg: Settings, req: CreateRequest, id: nat, now: int, draws: CodeDraws)
    requires UniqueKeys(st.appointments) && id < |st.appointments|
    requires req.idempotencyKey.Some? && st.appointments[id].idempotencyKey == req.idempotencyKey
    ensures
      var (after, r) := Create(st, cfg, req, now, draws);
      && after == st
      && (r.Success? <==> WellFormedRequest(cfg, req) && AnswersRequest(st, cfg, id, req))
      && (r.Success? ==> r.value == Booking(id, st.appointments[id], false, true))
      && (WellFormedRequest(cfg, req) && r.Failure? ==> r.error == IdempotencyConflict)
  {
    FindKeyIsUnique(st.appointments, req.idempotencyKey.value, id);
  }

  predicate AnswersRequest(st: Store, cfg: Settings, id: nat, req: CreateRequest)
    requires id < |st.appointments|
  {
    SameRequest(st, cfg, st.appointments[id], Strip(req.instance), Strip(req.phone),
                Strip(ChosenResource(req.resource, cfg.defaultResource)), req)
  }

  /**
   * A key denotes one appointment for ever: after a call with the key succeeded, whatever runs in
   * between, every later call with that key leaves the agenda alone; it returns the same row when
   * the request still matches that row, and otherwise fails.
   */
  lemma KeyDenotesOneAppointment(st: Store, cfg: Settings, first: CreateRequest, now: int, draws: CodeDraws,
                                 between: seq<Step>, again: CreateRequest, later: int, laterDraws: CodeDraws)
    requires AgendaOk(st) && Create(st, cfg, first, now, draws).1.Success?
    requires first.idempotencyKey.Some? && again.idempotencyKey == first.idempotencyKey
    ensures
      var (booked, result) := Create(st, cfg, first, now, draws);
      var current := Run(booked, cfg, between);
      var (after, replay) := Create(current, cfg, again, later, laterDraws);
      var id := result.value.id;
      && after == current
      && id < |current.appointments|
      && (replay.Success? <==> WellFormedRequest(cfg, again) && AnswersRequest(current, cfg, id, again))
      && (replay.Success? ==> replay.value == Booking(id, current.appointments[id], false, true))
      && (WellFormedRequest(cfg, again) && replay.Failure? ==> replay.error == IdempotencyConflict)
  {
    var (booked, result) := Create(st, cfg, first, now, draws);
    var current := Run(booked, cfg, between);
    var id := result.value.id;
    CreateKeepsAgenda(st, cfg, first, now, draws);
    RunKeepsAgenda(booked, cfg, between);
    RunExtends(booked, cfg, between);
    assert booked.appointments[id].idempotencyKey == first.idempotencyKey;
    assert SameHistory(booked.appointments[id], current.appointments[id]);
    UsedKeyReplaysOrFails(current, cfg, again, id, later, laterDraws);
  }

  lemma SuccessShape(st: Store, cfg: Settings, req: CreateRequest, now: int, draws: CodeDraws)
    requires Create(st, cfg, req, now, draws).1.Success?
    ensures WellFormedRequest(cfg, req)
    ensures var (st', r) := Create(st, cfg, req, now, draws);
            && r.value.id < |st'.appointments| && st'.appointments[r.value.id] == r.value.row
            && (req.idempotencyKey.Some? ==> r.value.row.idempotencyKey == req.idempotencyKey)
            && AnswersRequest(st', cfg, r.value.id, req)
  {
    var (st', r) := Create(st, cfg, req, now, draws);
    if r.value.created {
      assert st'.appointments == st.appointments + [r.value.row];
    }
  }

  /** Repeating a successful call at once is a replay of the same row, on an unchanged agenda. */
  lemma ImmediateReplay(st: Store, cfg: Settings, req: CreateRequest, now: int, draws: CodeDraws, later: int, laterDraws: CodeDraws)
    requires AgendaOk(st) && req.idempotencyKey.Some? && Create(st, cfg, req, now, draws).1.Success?
    ensures
      var (booked, result) := Create(st, cfg, req, now, draws);
      Create(booked, cfg, req, later, laterDraws) ==
        (booked, Success(Booking(result.value.id, result.value.row, false, true)))
  {
    var (booked, result) := Create(st, cfg, req, now, draws);
    CreateKeepsAgenda(st, cfg, req, now, draws);
    SuccessShape(st, cfg, req, now, draws);
    UsedKeyReplaysOrFails(booked, cfg, req, result.value.id, later, laterDraws);
  }

  /**
   * The exact condition for a repeated request: after a call with a key succeeded and anything else
   * ran, the very same request is answered again if and only if the appointment still has the chair
   * and the start it was given, cancelled or not.
   */
  lemma RepeatIsAnsweredIffUnmoved(st: Store, cfg: Settings, req: CreateRequest, now: int, draws: CodeDraws,
                                   between: seq<Step>, later: int, laterDraws: CodeDraws)
    requires AgendaOk(st) && req.idempotencyKey.Some? && Create(st, cfg, req, now, draws).1.Success?
    ensures
      var (booked, result) := Create(st, cfg, req, now, draws);
      var current := Run(booked, cfg, between);
      var id := result.value.id;
      && id < |current.appointments|
      && (Create(current, cfg, req, later, laterDraws).1.Success? <==>
            current.appointments[id].resource == result.value.row.resource
            && current.appointments[id].startAt == result.value.row.startAt)
  {
    var (booked, result) := Create(st, cfg, req, now, draws);
    var current := Run(booked, cfg, between);
    var id := result.value.id;
    KeyDenotesOneAppointment(st, cfg, req, now, draws, between, req, later, laterDraws);
    SuccessShape(st, cfg, req, now, draws);
    assert Extends(booked, current) by { RunExtends(booked, cfg, between); }
    StillAnswers(booked, current, cfg, id, req);
  }

  lemma StillAnswers(before: Store, after: Store, cfg: Settings, id: nat, req: CreateRequest)
    requires Extends(before, after) && id < |before.appointments| && AnswersRequest(before, cfg, id, req)
    ensures AnswersRequest(after, cfg, id, req) <==>
              after.appointments[id].resource == before.appointments[id].resource
              && after.appointments[id].startAt == before.appointments[id].startAt
  {
    assert SameHistory(before.appointments[id], after.appointments[id]);
  }

  lemma MoveSetsStart(st: Store, cfg: Settings, move: RescheduleRequest, now: int)
    requires Reschedule(st, cfg, move, now).1.Success?
    ensures var st' := Reschedule(st, cfg, move, now).0;
            && move.id < |st'.appointments|
            && st'.appointments[move.id].idempotencyKey == st.appointments[move.id].idempotencyKey
            && st'.appointments[move.id].startAt == ToUtc(CombineLocal(move.date, move.start), cfg.utcOffset)
  {
  }

  /**
   * A replay of the very same request is NOT always accepted: once the appointment has been moved
   * to another start, the stored row no longer matches the request that created it.
   */
  lemma ReplayFailsAfterMove(st: Store, cfg: Settings, req: CreateRequest, move: RescheduleRequest, moved: int,
                             later: int, laterDraws: CodeDraws)
    requires AgendaOk(st) && WellFormedRequest(cfg, req) && req.idempotencyKey.Some?
    requires move.id < |st.appointments| && st.appointments[move.id].idempotencyKey == req.idempotencyKey
    requires Reschedule(st, cfg, move, moved).1.Success? && (move.date, move.start) != (req.date, req.start)
    ensures
      var after := Reschedule(st, cfg, move, moved).0;
      Create(after, cfg, req, later, laterDraws) == (after, Failure(IdempotencyConflict))
  {
    var after := Reschedule(st, cfg, move, moved).0;
    MoveSetsStart(st, cfg, move, moved);
    assert ToUtc(CombineLocal(move.date, move.start), cfg.utcOffset) != ToUtc(CombineLocal(req.date, req.start), cfg.utcOffset) by {
      CombineRoundTrip(move.date, move.start, 0);
      CombineRoundTrip(req.date, req.start, 0);
    }
    assert !AnswersRequest(after, cfg, move.id, req);
    assert UniqueKeys(after.appointments) by { RescheduleKeepsAgenda(st, cfg, move, moved); }
    UsedKeyReplaysOrFails(after, cfg, req, move.id, later, laterDraws);
  }

  // ------------------------------------------------------- a concrete refusal

  /** One chair open on Mondays from nine to six, and one service of half an hour. */
  function SmallShop(): Store {
    Store([], map[], map["cut" := ServiceRow("cut", "Cut", 30, 5000, true)], [HoursRow("shop", "main", 0, 32400, 64800, true)], [])
  }

  function SmallShopRules(): Settings {
    Settings(0, 0, 30, 30, 3, "main", {})
  }

  /** Monday at ten, asked for under a key that is the asker's own phone. */
  function MondayAtTen(phone: string): CreateRequest {
    CreateRequest("shop", phone, None, ["cut"], 1, 36000, Some("main"), Some(CallerKey(phone)))
  }

  function BookedAtTen(phone: string, code: Key): Appointment {
    Appointment("shop", "main", CustomerKey("shop", phone), code, Some(CallerKey(phone)), Scheduled, 122400, 124200, 30, 5000,
                [Cut()], None, None)
  }

  function SmallShopBooked(): Store {
    SmallShop().(appointments := [BookedAtTen("55", "A")], customers := map[CustomerKey("shop", "55") := None])
  }

  function Cut(): Snapshot {
    Snapshot("cut", "Cut", 30, 5000)
  }

  lemma SmallShopCut()
    ensures ActiveServices(SmallShopRules(), SmallShop().services, ["cut"]) == Success([Cut()])
    ensures TotalMinutes([Cut()]) == 30 && TotalCents([Cut()]) == 5000
  {
    var services := SmallShop().services;
    assert CanBeBooked(SmallShopRules(), services["cut"]);
    assert Distinct(["cut"]);
    var taken := ActiveServices(SmallShopRules(), services, ["cut"]).value;
    assert taken[0] == Cut() && taken == [Cut()];
    assert [Cut()][1..] == [];
  }

  lemma SmallShopSlot(start: TimeOfDay, st: Store, now: int, exclude: Option<nat>)
    requires st.hours == SmallShop().hours && 32400 <= start <= 61200 && 0 <= now <= 86400 + start
    requires !Conflicts(st.appointments, "shop", "main", 86400 + start, 86400 + start + 1800, exclude)
    ensures PlanSlot(st, SmallShopRules(), "shop", "main", 1, start, 30, now, exclude) == Success((86400 + start, 86400 + start + 1800))
  {
    assert st.hours[1..] == [];
    var found := Filter((h: HoursRow) => h.instance == "shop" && h.resource == "main" && h.weekday == 0 && h.active, st.hours);
    assert found == st.hours;
    assert SortBy(OpensFirst, st.hours) == st.hours;
    assert OpenIntervals(st.hours, "shop", "main", 0) == st.hours;
    CombineRoundTrip(1, start, 0);
    CombineRoundTrip(1, start + 1800, 0);
  }

  lemma CleanTexts()
    ensures Strip("shop") == "shop" && Strip("main") == "main"
    ensures Strip("55") == "55" && IsPhone("55") && Strip("56") == "56" && IsPhone("56")
  {
    var shop, main, phone, other := "shop", "main", "55", "56";
    assert !IsSpace(shop[0]) && !IsSpace(shop[3]) && !IsSpace(main[0]) && !IsSpace(main[3]);
    assert phone[0] == '5' && phone[1] == '5' && other[0] == '5' && other[1] == '6';
  }

  lemma BookingAtTen(phone: string, draws: CodeDraws)
    ensures
      var customer := CustomerKey("shop", phone);
      BookNew(SmallShop(), SmallShopRules(), "shop", phone, "main", MondayAtTen(phone), 0, draws)
        == (SmallShop().(appointments := [BookedAtTen(phone, draws[0])], customers := map[customer := None]),
            Success(Booking(0, BookedAtTen(phone, draws[0]), true, false)))
  {
    SmallShopCut();
    SmallShopSlot(36000, SmallShop(), 0, None);
    assert FreshCode([], draws) == Some(draws[0]);
    var (after, r) := BookNew(SmallShop(), SmallShopRules(), "shop", phone, "main", MondayAtTen(phone), 0, draws);
    assert r == Success(Booking(0, BookedAtTen(phone, draws[0]), true, false));
    assert after.appointments == [BookedAtTen(phone, draws[0])];
    assert after.customers == map[CustomerKey("shop", phone) := None];
  }

  lemma CreatingAtTen(phone: string, draws: CodeDraws)
    requires phone == "55" || phone == "56"
    ensures
      Create(SmallShop(), SmallShopRules(), MondayAtTen(phone), 0, draws)
        == (SmallShop().(appointments := [BookedAtTen(phone, draws[0])], customers := map[CustomerKey("shop", phone) := None]),
            Success(Booking(0, BookedAtTen(phone, draws[0]), true, false)))
    ensures WellFormedRequest(SmallShopRules(), MondayAtTen(phone))
  {
    CleanTexts();
    BookingAtTen(phone, draws);
    assert WellFormedRequest(SmallShopRules(), MondayAtTen(phone)) by { assert Distinct(["cut"]); }
  }

  function MoveToEleven(): RescheduleRequest {
    RescheduleRequest("shop", "55", 0, 1, 39600, None)
  }

  lemma MovingToEleven()
    ensures
      var row := BookedAtTen("55", "A").(startAt := 126000, endAt := 127800);
      Reschedule(SmallShopBooked(), SmallShopRules(), MoveToEleven(), 0)
        == (SmallShopBooked().(appointments := [row]), Success(Booking(0, row, false, false)))
  {
    CleanTexts();
    SmallShopSlot(39600, SmallShopBooked(), 0, Some(0));
    var row := BookedAtTen("55", "A").(startAt := 126000, endAt := 127800);
    assert Owned(SmallShopBooked(), "shop", "55", 0) == Success(BookedAtTen("55", "A"));
    assert Reschedule(SmallShopBooked(), SmallShopRules(), MoveToEleven(), 0).1 == Success(Booking(0, row, false, false));
    assert SmallShopBooked().appointments[0 := row] == [row];
  }

  /**
   * A concrete refusal: a customer books Monday at ten under a key, moves the appointment to eleven,
   * and repeats the first request, which is now a conflict.
   */
  lemma MovedBookingIsNotRepeated(draws: CodeDraws)
    requires draws[0] == "A"
    ensures
      var (booked, first) := Create(SmallShop(), SmallShopRules(), MondayAtTen("55"), 0, draws);
      var (moved, change) := Reschedule(booked, SmallShopRules(), MoveToEleven(), 0);
      && AgendaOk(SmallShop()) && first.Success? && change.Success?
      && Create(moved, SmallShopRules(), MondayAtTen("55"), 0, draws) == (moved, Failure(IdempotencyConflict))
  {
    CreatingAtTen("55", draws);
    CreateKeepsAgenda(SmallShop(), SmallShopRules(), MondayAtTen("55"), 0, draws);
    MovingToEleven();
    ReplayFailsAfterMove(SmallShopBooked(), SmallShopRules(), MondayAtTen("55"), MoveToEleven(), 0, 0, draws);
  }
}
