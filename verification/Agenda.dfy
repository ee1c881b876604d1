/**
 * The agenda: the scheduling tables, the rules of `app/domain/scheduling.py`, and what each
 * scheduling transaction does to the tables, as functions from a store to a store.
 *
 * Rows are never deleted, so a table is a sequence and a row's identity is its position.
 */
module Agenda {
  import opened Prelude
  import opened Calendar

  type Key = string

  /** Confirmed actions use `pending-action:<id>`; every other caller supplies its own text. */
  datatype IdempotencyKey = PendingActionKey(actionId: nat) | CallerKey(text: string)

  // ------------------------------------------------------------------- tables

  datatype ServiceRecord = ServiceRow(slug: string, name: string, durationMinutes: int, priceCents: int, active: bool)

  type ServiceRow = s: ServiceRecord | 0 < s.durationMinutes && 0 <= s.priceCents
    witness ServiceRow("", "", 1, 0, true)

  datatype HoursRecord = HoursRow(instance: Key, resource: Key, weekday: Weekday,
                                  opensAt: TimeOfDay, closesAt: TimeOfDay, active: bool)

  type HoursRow = h: HoursRecord | h.opensAt < h.closesAt
    witness HoursRow("", "", 0, 0, 1, true)

  datatype ResourceRecord = ResourceRow(instance: Key, resource: Key, isActive: bool, bookingEnabled: bool)

  /** Stored chair keys are clean: they come from the shop's own catalog. */
  type ResourceRow = r: ResourceRecord | r.resource != "" && Strip(r.resource) == r.resource
    witness ResourceRow("", "m", true, true)

  /** A customer row is identified by its unique (instance, phone) pair. */
  datatype CustomerKey = CustomerKey(instance: Key, phone: Key)

  /** What a booking keeps of a service, in the requested order. */
  datatype Snapshot = Snapshot(serviceId: Key, name: string, durationMinutes: int, priceCents: int)

  datatype AppointmentStatus = Scheduled | Cancelled | Completed | NoShow

  datatype Appointment = Appointment(
    instance: Key,
    resource: Key,
    customer: CustomerKey,
    code: Key,
    idempotencyKey: Option<IdempotencyKey>,
    status: AppointmentStatus,
    startAt: int,
    endAt: int,
    totalMinutes: int,
    totalCents: int,
    services: seq<Snapshot>,
    cancelledAt: Option<int>,
    cancellationReason: Option<string>)

  datatype Store = Store(
    appointments: seq<Appointment>,
    customers: map<CustomerKey, Option<string>>,
    services: map<Key, ServiceRow>,
    hours: seq<HoursRow>,
    resources: seq<ResourceRow>)

  datatype SettingsRecord = Settings(
    utcOffset: int,
    minNoticeMinutes: int,
    maxDaysAhead: int,
    slotIntervalMinutes: int,
    maxServices: int,
    defaultResource: string,
    bookingDisabledSlugs: set<string>)

  /** The bounds the settings validators enforce. */
  type Settings = s: SettingsRecord |
      && 0 <= s.minNoticeMinutes && 0 < s.maxDaysAhead
      && 0 < s.slotIntervalMinutes && 0 < s.maxServices
      && !IsBlank(s.defaultResource)
    witness Settings(0, 0, 1, 1, 1, "m", {})

  datatype SchedulingError =
    | InvalidAppointmentTime | InvalidPhone | ServiceNotFound | InactiveService
    | BookingNotice | BookingTooFarAhead | BusinessClosed | OutsideBusinessHours
    | SlotUnavailable | IdempotencyConflict
    | AppointmentNotFound | AppointmentNotOwned | AppointmentNotScheduled

  // ------------------------------------------------------------- domain rules

  predicate IsPhone(s: string) {
    s != "" && forall i :: 0 <= i < |s| ==> IsDigit(s[i])
  }

  function TotalMinutes(services: seq<Snapshot>): int {
    if services == [] then 0 else services[0].durationMinutes + TotalMinutes(services[1..])
  }

  function TotalCents(services: seq<Snapshot>): int {
    if services == [] then 0 else services[0].priceCents + TotalCents(services[1..])
  }

  function ServiceIds(services: seq<Snapshot>): (ids: seq<Key>)
    ensures |ids| == |services|
    ensures forall i :: 0 <= i < |ids| ==> ids[i] == services[i].serviceId
  {
    seq(|services|, i requires 0 <= i < |services| => services[i].serviceId)
  }

  /** Half-open intervals that share an instant. */
  predicate Overlaps(startA: int, endA: int, startB: int, endB: int) {
    startA < endB && endA > startB
  }

  predicate Blocks(a: Appointment, instance: Key, resource: Key, startAt: int, endAt: int) {
    && a.instance == instance && a.resource == resource && a.status.Scheduled?
    && Overlaps(a.startAt, a.endAt, startAt, endAt)
  }

  /** Some scheduled row, other than the excluded one, shares an instant with `[startAt, endAt)`. */
  predicate Conflicts(rows: seq<Appointment>, instance: Key, resource: Key,
                      startAt: int, endAt: int, exclude: Option<nat>)
  {
    exists i :: 0 <= i < |rows| && exclude != Some(i) && Blocks(rows[i], instance, resource, startAt, endAt)
  }

  /** The rows among the first `n` that share an instant with `[startAt, endAt)`, without the excluded one. */
  function OverlapsAmong(rows: seq<Appointment>, instance: Key, resource: Key, startAt: int, endAt: int, exclude: Option<nat>, n: nat)
    : (found: seq<Appointment>)
    requires n <= |rows|
    ensures forall a :: a in found ==> a in rows && Blocks(a, instance, resource, startAt, endAt)
    ensures forall i :: 0 <= i < n && exclude != Some(i) && Blocks(rows[i], instance, resource, startAt, endAt) ==> rows[i] in found
  {
    if n == 0 then []
    else OverlapsAmong(rows, instance, resource, startAt, endAt, exclude, n - 1)
         + if exclude != Some(n - 1) && Blocks(rows[n - 1], instance, resource, startAt, endAt) then [rows[n - 1]] else []
  }

  predicate StartsFirst(a: Appointment, b: Appointment) {
    a.startAt <= b.startAt
  }

  /** The conflicting rows, earliest start first. */
  function Overlapping(rows: seq<Appointment>, instance: Key, resource: Key, startAt: int, endAt: int, exclude: Option<nat>)
    : seq<Appointment>
  {
    SortBy(StartsFirst, OverlapsAmong(rows, instance, resource, startAt, endAt, exclude, |rows|))
  }

  predicate OpensFirst(a: HoursRow, b: HoursRow) {
    a.opensAt <= b.opensAt
  }

  /** The chair's active intervals of one weekday, earliest opening first. */
  function OpenIntervals(hours: seq<HoursRow>, instance: Key, resource: Key, weekday: Weekday): (intervals: seq<HoursRow>)
    ensures forall h :: h in intervals <==>
      h in hours && h.instance == instance && h.resource == resource && h.weekday == weekday && h.active
  {
    var found := Filter((h: HoursRow) => h.instance == instance && h.resource == resource && h.weekday == weekday && h.active, hours);
    SortIsPermutation(OpensFirst, found);
    SortBy(OpensFirst, found)
  }

  /** The intervals come in order of opening, and each open row exactly as often as the table holds it. */
  lemma OpenIntervalsInOrder(hours: seq<HoursRow>, instance: Key, resource: Key, weekday: Weekday, h: HoursRow)
    ensures
      var intervals := OpenIntervals(hours, instance, resource, weekday);
      && Sorted(OpensFirst, intervals)
      && multiset(intervals)[h] == if h in intervals then multiset(hours)[h] else 0
  {
    var open := (h: HoursRow) => h.instance == instance && h.resource == resource && h.weekday == weekday && h.active;
    SortIsSorted(OpensFirst, Filter(open, hours));
    SortIsPermutation(OpensFirst, Filter(open, hours));
    FilterCount(open, hours, h);
  }

  predicate FitsBusinessHours(localStart: int, localEnd: int, intervals: seq<HoursRow>) {
    && DateOf(localStart) == DateOf(localEnd)
    && exists k :: 0 <= k < |intervals|
         && intervals[k].opensAt <= TimeOf(localStart) && TimeOf(localEnd) <= intervals[k].closesAt
  }

  predicate WithinNotice(cfg: Settings, startAt: int, now: int) {
    now + cfg.minNoticeMinutes * MINUTE <= startAt
  }

  predicate WithinHorizon(cfg: Settings, date: int, now: int) {
    date <= DateOf(ToLocal(now, cfg.utcOffset)) + cfg.maxDaysAhead
  }

  function Bookable(resources: seq<ResourceRow>, instance: Key): (keys: seq<Key>)
    ensures forall k :: k in keys ==> k != "" && Strip(k) == k
  {
    var rows := Filter((r: ResourceRow) => r.instance == instance && r.isActive && r.bookingEnabled, resources);
    seq(|rows|, i requires 0 <= i < |rows| => rows[i].resource)
  }

  // ---------------------------------------------------------- service lookup

  predicate CanBeBooked(cfg: Settings, s: ServiceRow) {
    s.active && s.slug !in cfg.bookingDisabledSlugs
  }

  function TakeSnapshot(id: Key, s: ServiceRow): Snapshot {
    Snapshot(id, s.name, s.durationMinutes, s.priceCents)
  }

  /** The requested services in the requested order: all known, all distinct, all bookable. */
  function ActiveServices(cfg: Settings, services: map<Key, ServiceRow>, ids: seq<Key>)
    : (r: Result<seq<Snapshot>, SchedulingError>)
    ensures r.Success? ==> ServiceIds(r.value) == ids
  {
    if ids == [] || !Distinct(ids) then Failure(ServiceNotFound)
    else if exists i :: 0 <= i < |ids| && ids[i] !in services then Failure(ServiceNotFound)
    else if exists i :: 0 <= i < |ids| && !CanBeBooked(cfg, services[ids[i]]) then Failure(InactiveService)
    else Success(seq(|ids|, i requires 0 <= i < |ids| => TakeSnapshot(ids[i], services[ids[i]])))
  }

  // ------------------------------------------------------------ slot planning

  /** Notice, horizon, opening hours and conflicts, in the order the transactions check them. */
  function PlanSlot(st: Store, cfg: Settings, instance: Key, resource: Key,
                    date: int, start: TimeOfDay, minutes: int, now: int, exclude: Option<nat>)
    : Result<(int, int), SchedulingError>
  {
    var localStart := CombineLocal(date, start);
    var localEnd := localStart + minutes * MINUTE;
    var startAt, endAt := ToUtc(localStart, cfg.utcOffset), ToUtc(localEnd, cfg.utcOffset);
    var intervals := OpenIntervals(st.hours, instance, resource, WeekdayOf(date));
    if !WithinNotice(cfg, startAt, now) then Failure(BookingNotice)
    else if !WithinHorizon(cfg, date, now) then Failure(BookingTooFarAhead)
    else if intervals == [] then Failure(BusinessClosed)
    else if !FitsBusinessHours(localStart, localEnd, intervals) then Failure(OutsideBusinessHours)
    else if Conflicts(st.appointments, instance, resource, startAt, endAt, exclude) then Failure(SlotUnavailable)
    else Success((startAt, endAt))
  }

  // ------------------------------------------------------------------- create

  datatype CreateRequest = CreateRequest(
    instance: string, phone: string, customerName: Option<string>, serviceIds: seq<Key>,
    date: int, start: TimeOfDay, resource: Option<string>, idempotencyKey: Option<IdempotencyKey>)

  /** What a scheduling call returns: the row, and how it came about. */
  datatype Booking = Booking(id: nat, row: Appointment, created: bool, idempotentReplay: bool)

  /** `value or fallback`: an absent or empty resource falls back. */
  function ChosenResource(resource: Option<string>, fallback: string): string {
    if resource.Some? && resource.value != "" then resource.value else fallback
  }

  function SanitizeText(text: Option<string>, limit: nat): Option<string> {
    if text.None? || IsBlank(text.value) then None
    else if |Strip(text.value)| <= limit then Some(Strip(text.value))
    else Some(Strip(text.value)[..limit])
  }

  function FindKey(rows: seq<Appointment>, key: IdempotencyKey): (r: Option<nat>)
    ensures r.Some? ==> r.value < |rows| && rows[r.value].idempotencyKey == Some(key)
    ensures r.None? ==> forall i :: 0 <= i < |rows| ==> rows[i].idempotencyKey != Some(key)
  {
    if rows == [] then None
    else if rows[0].idempotencyKey == Some(key) then Some(0)
    else match FindKey(rows[1..], key)
      case None =>
        assert forall i :: 0 < i < |rows| ==> rows[i] == rows[1..][i - 1];
        None
      case Some(i) => Some(i + 1)
  }

  predicate CodeTaken(rows: seq<Appointment>, code: Key) {
    exists i :: 0 <= i < |rows| && rows[i].code == code
  }

  const MAX_CONFIRMATION_CODE_ATTEMPTS := 10

  /** The random codes one transaction would draw. */
  type CodeDraws = d: seq<Key> | |d| == MAX_CONFIRMATION_CODE_ATTEMPTS
    witness seq(MAX_CONFIRMATION_CODE_ATTEMPTS, _ => "")

  /** The first drawn code no row carries. */
  function FreshCode(rows: seq<Appointment>, draws: seq<Key>): (r: Option<Key>)
    ensures r.Some? ==> !CodeTaken(rows, r.value)
    ensures r.None? ==> forall k :: 0 <= k < |draws| ==> CodeTaken(rows, draws[k])
  {
    if draws == [] then None
    else if !CodeTaken(rows, draws[0]) then Some(draws[0])
    else FreshCode(rows, draws[1..])
  }

  /** Whether a stored row answers this request: the comparison a replay makes. */
  predicate SameRequest(st: Store, cfg: Settings, row: Appointment, instance: Key, phone: Key, resource: Key, req: CreateRequest) {
    && row.customer in st.customers
    && row.instance == instance
    && row.resource == resource
    && row.customer.phone == phone
    && ToUtc(CombineLocal(req.date, req.start), cfg.utcOffset) == row.startAt
    && req.serviceIds == ServiceIds(row.services)
  }

  function UpsertCustomer(customers: map<CustomerKey, Option<string>>, key: CustomerKey, name: Option<string>)
    : map<CustomerKey, Option<string>>
  {
    if key !in customers || name.Some? then customers[key := name] else customers
  }

  function BookNew(st: Store, cfg: Settings, instance: Key, phone: Key, resource: Key,
                   req: CreateRequest, now: int, draws: CodeDraws)
    : (Store, Result<Booking, SchedulingError>)
  {
    match ActiveServices(cfg, st.services, req.serviceIds)
    case Failure(e) => (st, Failure(e))
    case Success(services) =>
      match PlanSlot(st, cfg, instance, resource, req.date, req.start, TotalMinutes(services), now, None)
      case Failure(e) => (st, Failure(e))
      case Success((startAt, endAt)) =>
        match FreshCode(st.appointments, draws)
        case None => (st, Failure(SlotUnavailable))
        case Some(code) =>
          var customer := CustomerKey(instance, phone);
          var row := Appointment(instance, resource, customer, code, req.idempotencyKey, Scheduled,
                                 startAt, endAt, TotalMinutes(services), TotalCents(services), services, None, None);
          (st.(appointments := st.appointments + [row],
               customers := UpsertCustomer(st.customers, customer, SanitizeText(req.customerName, 120))),
           Success(Booking(|st.appointments|, row, true, false)))
  }

  function Create(st: Store, cfg: Settings, req: CreateRequest, now: int, draws: CodeDraws)
    : (Store, Result<Booking, SchedulingError>)
  {
    var instance, phone := Strip(req.instance), Strip(req.phone);
    var resource := Strip(ChosenResource(req.resource, cfg.defaultResource));
    if instance == "" then (st, Failure(InvalidAppointmentTime))
    else if !IsPhone(phone) then (st, Failure(InvalidPhone))
    else if resource == "" then (st, Failure(InvalidAppointmentTime))
    else if req.serviceIds == [] || |req.serviceIds| > cfg.maxServices || !Distinct(req.serviceIds) then
      (st, Failure(ServiceNotFound))
    else
      var existing := if req.idempotencyKey.Some? then FindKey(st.appointments, req.idempotencyKey.value) else None;
      if existing.Some? then
        var row := st.appointments[existing.value];
        if SameRequest(st, cfg, row, instance, phone, resource, req)
        then (st, Success(Booking(existing.value, row, false, true)))
        else (st, Failure(IdempotencyConflict))
      else BookNew(st, cfg, instance, phone, resource, req, now, draws)
  }

  // ------------------------------------------------------ cancel and reschedule

  /** The row, when it belongs to this instance and phone. */
  function Owned(st: Store, instance: Key, phone: Key, id: nat): (r: Result<Appointment, SchedulingError>)
    ensures r.Success? ==> id < |st.appointments| && r.value == st.appointments[id]
  {
    if id >= |st.appointments| || st.appointments[id].instance != instance then Failure(AppointmentNotFound)
    else
      var customer := st.appointments[id].customer;
      if customer !in st.customers || customer.phone != phone || customer.instance != instance
      then Failure(AppointmentNotOwned)
      else Success(st.appointments[id])
  }

  function Cancel(st: Store, instance: string, phone: string, id: nat, reason: Option<string>, now: int)
    : (Store, Result<Booking, SchedulingError>)
  {
    if Strip(instance) == "" then (st, Failure(InvalidAppointmentTime))
    else if !IsPhone(Strip(phone)) then (st, Failure(InvalidPhone))
    else match Owned(st, Strip(instance), Strip(phone), id)
      case Failure(e) => (st, Failure(e))
      case Success(a) =>
        if !a.status.Scheduled? then (st, Failure(AppointmentNotScheduled))
        else
          var row := a.(status := Cancelled, cancelledAt := Some(now), cancellationReason := SanitizeText(reason, 500));
          (st.(appointments := st.appointments[id := row]), Success(Booking(id, row, false, false)))
  }

  datatype RescheduleRequest = RescheduleRequest(
    instance: string, phone: string, id: nat, date: int, start: TimeOfDay, resource: Option<string>)

  function Reschedule(st: Store, cfg: Settings, req: RescheduleRequest, now: int)
    : (Store, Result<Booking, SchedulingError>)
  {
    var instance, phone := Strip(req.instance), Strip(req.phone);
    if instance == "" then (st, Failure(InvalidAppointmentTime))
    else if !IsPhone(phone) then (st, Failure(InvalidPhone))
    else match Owned(st, instance, phone, req.id)
      case Failure(e) => (st, Failure(e))
      case Success(a) =>
        var resource := Strip(ChosenResource(req.resource, a.resource));
        if !a.status.Scheduled? then (st, Failure(AppointmentNotScheduled))
        else if resource == "" then (st, Failure(InvalidAppointmentTime))
        else match PlanSlot(st, cfg, instance, resource, req.date, req.start, a.totalMinutes, now, Some(req.id))
          case Failure(e) => (st, Failure(e))
          case Success((startAt, endAt)) =>
            var row := a.(resource := resource, startAt := startAt, endAt := endAt);
            (st.(appointments := st.appointments[req.id := row]), Success(Booking(req.id, row, false, false)))
  }
}
