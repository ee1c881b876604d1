/**
 * The scheduling service over the mutable tables: each public operation is one transaction that
 * leaves the tables exactly as the agenda's specification says, or untouched when it raises.
 */
module SchedulingServices {
  import opened Prelude
  import opened Calendar
  import opened Agenda

  class Database {
    var appointments: seq<Appointment>
    var customers: map<CustomerKey, Option<string>>
    var services: map<Key, ServiceRow>
    var hours: seq<HoursRow>
    var resources: seq<ResourceRow>

    constructor (services: map<Key, ServiceRow>, hours: seq<HoursRow>, resources: seq<ResourceRow>)
      ensures State() == Store([], map[], services, hours, resources)
    {
      this.appointments, this.customers := [], map[];
      this.services, this.hours, this.resources := services, hours, resources;
    }

    function State(): Store
      reads this
    {
      Store(appointments, customers, services, hours, resources)
    }
  }

  /** A conflict exists exactly when some row is found. */
  lemma {:induction false} FoundIffConflict(rows: seq<Appointment>, instance: Key, resource: Key, startAt: int, endAt: int,
                                            exclude: Option<nat>, n: nat)
    requires n <= |rows|
    ensures OverlapsAmong(rows, instance, resource, startAt, endAt, exclude, n) != [] <==>
              exists k :: 0 <= k < n && exclude != Some(k) && Blocks(rows[k], instance, resource, startAt, endAt)
  {
    if n != 0 {
      FoundIffConflict(rows, instance, resource, startAt, endAt, exclude, n - 1);
    }
  }

  /** `find_overlapping_appointments`: every conflicting row but the excluded one, ordered by start. */
  method FindOverlappingAppointments(db: Database, instance: Key, resource: Key, startAt: int, endAt: int, exclude: Option<nat>)
    returns (found: seq<Appointment>)
    ensures found == Overlapping(db.appointments, instance, resource, startAt, endAt, exclude)
    ensures Sorted(StartsFirst, found)
    ensures found != [] <==> Conflicts(db.appointments, instance, resource, startAt, endAt, exclude)
  {
    var rows := [];
    for i := 0 to |db.appointments|
      invariant rows == OverlapsAmong(db.appointments, instance, resource, startAt, endAt, exclude, i)
    {
      var row := db.appointments[i];
      if exclude != Some(i) && Blocks(row, instance, resource, startAt, endAt) {
        rows := rows + [row];
      }
    }
    found := SortBy(StartsFirst, rows);
    FoundInOrder(db.appointments, instance, resource, startAt, endAt, exclude);
  }

  lemma FoundInOrder(rows: seq<Appointment>, instance: Key, resource: Key, startAt: int, endAt: int, exclude: Option<nat>)
    ensures
      var found := Overlapping(rows, instance, resource, startAt, endAt, exclude);
      Sorted(StartsFirst, found) && (found != [] <==> Conflicts(rows, instance, resource, startAt, endAt, exclude))
  {
    var all := OverlapsAmong(rows, instance, resource, startAt, endAt, exclude, |rows|);
    FoundIffConflict(rows, instance, resource, startAt, endAt, exclude, |rows|);
    SortIsPermutation(StartsFirst, all);
    SortIsSorted(StartsFirst, all);
  }

  /** `get_active_services_by_ids`: the two complaint lists are collected before anything is returned. */
  method GetActiveServicesByIds(db: Database, cfg: Settings, ids: seq<Key>)
    returns (r: Result<seq<Snapshot>, SchedulingError>)
    ensures r == ActiveServices(cfg, db.services, ids)
  {
    if ids == [] || !Distinct(ids) {
      return Failure(ServiceNotFound);
    }
    var missing, inactive := [], [];
    for i := 0 to |ids|
      invariant missing != [] <==> exists k :: 0 <= k < i && ids[k] !in db.services
    {
      if ids[i] !in db.services {
        missing := missing + [ids[i]];
      }
    }
    if missing != [] {
      return Failure(ServiceNotFound);
    }
    for i := 0 to |ids|
      invariant inactive != [] <==> exists k :: 0 <= k < i && !CanBeBooked(cfg, db.services[ids[k]])
    {
      if !CanBeBooked(cfg, db.services[ids[i]]) {
        inactive := inactive + [ids[i]];
      }
    }
    if inactive != [] {
      return Failure(InactiveService);
    }
    var snapshots := [];
    for i := 0 to |ids|
      invariant |snapshots| == i
      invariant forall k :: 0 <= k < i ==> snapshots[k] == TakeSnapshot(ids[k], db.services[ids[k]])
    {
      snapshots := snapshots + [TakeSnapshot(ids[i], db.services[ids[i]])];
    }
    assert snapshots == ActiveServices(cfg, db.services, ids).value;
    r := Success(snapshots);
  }

  class SchedulingService {
    const db: Database
    const cfg: Settings

    constructor (db: Database, cfg: Settings)
      ensures this.db == db && this.cfg == cfg
    {
      this.db, this.cfg := db, cfg;
    }

    /** The retry loop for confirmation codes. */
    method NewConfirmationCode(draws: CodeDraws) returns (code: Option<Key>)
      ensures code == FreshCode(db.appointments, draws)
    {
      for attempt := 0 to MAX_CONFIRMATION_CODE_ATTEMPTS
        invariant FreshCode(db.appointments, draws) == FreshCode(db.appointments, draws[attempt..])
      {
        if !CodeTaken(db.appointments, draws[attempt]) {
          return Some(draws[attempt]);
        }
        assert draws[attempt..][1..] == draws[attempt + 1..];
      }
      code := None;
    }

    /** Window, opening hours and availability of one slot. */
    method CheckSlot(instance: Key, resource: Key, date: int, start: TimeOfDay, minutes: int, now: int, exclude: Option<nat>)
      returns (r: Result<(int, int), SchedulingError>)
      ensures r == PlanSlot(db.State(), cfg, instance, resource, date, start, minutes, now, exclude)
    {
      ghost var plan := PlanSlot(db.State(), cfg, instance, resource, date, start, minutes, now, exclude);
      var localStart := CombineLocal(date, start);
      var localEnd := localStart + minutes * MINUTE;
      if localStart < ToLocal(now, cfg.utcOffset) + cfg.minNoticeMinutes * MINUTE {
        return Failure(BookingNotice);
      }
      if date > DateOf(ToLocal(now, cfg.utcOffset)) + cfg.maxDaysAhead {
        return Failure(BookingTooFarAhead);
      }
      var intervals := OpenIntervals(db.hours, instance, resource, WeekdayOf(date));
      ghost var startUtc, endUtc := ToUtc(localStart, cfg.utcOffset), ToUtc(localEnd, cfg.utcOffset);
      assert plan ==
        if intervals == [] then Failure(BusinessClosed)
        else if !FitsBusinessHours(localStart, localEnd, intervals) then Failure(OutsideBusinessHours)
        else if Conflicts(db.appointments, instance, resource, startUtc, endUtc, exclude) then Failure(SlotUnavailable)
        else Success((startUtc, endUtc));
      if intervals == [] {
        return Failure(BusinessClosed);
      }
      var fits := AnyIntervalFits(localStart, localEnd, intervals);
      if !fits {
        return Failure(OutsideBusinessHours);
      }
      var startAt, endAt := ToUtc(localStart, cfg.utcOffset), ToUtc(localEnd, cfg.utcOffset);
      var overlaps := FindOverlappingAppointments(db, instance, resource, startAt, endAt, exclude);
      if overlaps != [] {
        return Failure(SlotUnavailable);
      }
      r := Success((startAt, endAt));
    }

    method CreateAppointment(req: CreateRequest, now: int, draws: CodeDraws)
      returns (r: Result<Booking, SchedulingError>)
      modifies db
      ensures (db.State(), r) == Create(old(db.State()), cfg, req, now, draws)
    {
      var instance, phone := Strip(req.instance), Strip(req.phone);
      var resource := Strip(ChosenResource(req.resource, cfg.defaultResource));
      if instance == "" { return Failure(InvalidAppointmentTime); }
      if !IsPhone(phone) { return Failure(InvalidPhone); }
      if resource == "" { return Failure(InvalidAppointmentTime); }
      if req.serviceIds == [] || |req.serviceIds| > cfg.maxServices || !Distinct(req.serviceIds) {
        return Failure(ServiceNotFound);
      }
      if req.idempotencyKey.Some? {
        var existing := FindKey(db.appointments, req.idempotencyKey.value);
        if existing.Some? {
          r := ReturnIdempotentReplay(existing.value, instance, phone, resource, req);
          return;
        }
      }
      r := InsertBooking(instance, phone, resource, req, now, draws);
    }

    method ReturnIdempotentReplay(id: nat, instance: Key, phone: Key, resource: Key, req: CreateRequest)
      returns (r: Result<Booking, SchedulingError>)
      requires id < |db.appointments|
      ensures r == if SameRequest(db.State(), cfg, db.appointments[id], instance, phone, resource, req)
                   then Success(Booking(id, db.appointments[id], false, true))
                   else Failure(IdempotencyConflict)
    {
      var row := db.appointments[id];
      var startAt := ToUtc(CombineLocal(req.date, req.start), cfg.utcOffset);
      if row.customer !in db.customers || row.instance != instance || row.resource != resource
         || row.customer.phone != phone || startAt != row.startAt || req.serviceIds != ServiceIds(row.services) {
        return Failure(IdempotencyConflict);
      }
      r := Success(Booking(id, row, false, true));
    }

    method InsertBooking(instance: Key, phone: Key, resource: Key, req: CreateRequest, now: int, draws: CodeDraws)
      returns (r: Result<Booking, SchedulingError>)
      modifies db
      ensures (db.State(), r) == BookNew(old(db.State()), cfg, instance, phone, resource, req, now, draws)
    {
      var services := GetActiveServicesByIds(db, cfg, req.serviceIds);
      if services.Failure? {
        return Failure(services.error);
      }
      var minutes := TotalMinutes(services.value);
      var slot := CheckSlot(instance, resource, req.date, req.start, minutes, now, None);
      if slot.Failure? {
        return Failure(slot.error);
      }
      var customersBefore := db.customers;
      var customer, name := CustomerKey(instance, phone), SanitizeText(req.customerName, 120);
      if customer !in db.customers || name.Some? {
        db.customers := db.customers[customer := name];
      }
      var code := NewConfirmationCode(draws);
      if code.None? {
        db.customers := customersBefore;  // the transaction rolls back
        return Failure(SlotUnavailable);
      }
      var row := Appointment(instance, resource, customer, code.value, req.idempotencyKey, Scheduled,
                             slot.value.0, slot.value.1, minutes, TotalCents(services.value), services.value, None, None);
      var id := |db.appointments|;
      db.appointments := db.appointments + [row];
      r := Success(Booking(id, row, true, false));
    }

    method CancelAppointment(instance: string, phone: string, id: nat, reason: Option<string>, now: int)
      returns (r: Result<Booking, SchedulingError>)
      modifies db
      ensures (db.State(), r) == Cancel(old(db.State()), instance, phone, id, reason, now)
    {
      if Strip(instance) == "" { return Failure(InvalidAppointmentTime); }
      if !IsPhone(Strip(phone)) { return Failure(InvalidPhone); }
      var owned := Owned(db.State(), Strip(instance), Strip(phone), id);
      if owned.Failure? { return Failure(owned.error); }
      var row := owned.value;
      if !row.status.Scheduled? { return Failure(AppointmentNotScheduled); }
      row := row.(status := Cancelled);
      row := row.(cancelledAt := Some(now), cancellationReason := SanitizeText(reason, 500));
      db.appointments := db.appointments[id := row];
      r := Success(Booking(id, row, false, false));
    }

    method RescheduleAppointment(req: RescheduleRequest, now: int) returns (r: Result<Booking, SchedulingError>)
      modifies db
      ensures (db.State(), r) == Reschedule(old(db.State()), cfg, req, now)
    {
      var instance, phone := Strip(req.instance), Strip(req.phone);
      if instance == "" { return Failure(InvalidAppointmentTime); }
      if !IsPhone(phone) { return Failure(InvalidPhone); }
      var owned := Owned(db.State(), instance, phone, req.id);
      if owned.Failure? { return Failure(owned.error); }
      var row := owned.value;
      if !row.status.Scheduled? { return Failure(AppointmentNotScheduled); }
      var resource := Strip(ChosenResource(req.resource, row.resource));
      if resource == "" { return Failure(InvalidAppointmentTime); }
      var slot := CheckSlot(instance, resource, req.date, req.start, row.totalMinutes, now, Some(req.id));
      if slot.Failure? { return Failure(slot.error); }
      row := row.(resource := resource);
      row := row.(startAt := slot.value.0, endAt := slot.value.1);
      db.appointments := db.appointments[req.id := row];
      r := Success(Booking(req.id, row, false, false));
    }
  }

  /** `local_interval_fits_business_hours`. */
  method AnyIntervalFits(localStart: int, localEnd: int, intervals: seq<HoursRow>) returns (fits: bool)
    ensures fits <==> FitsBusinessHours(localStart, localEnd, intervals)
  {
    if DateOf(localStart) != DateOf(localEnd) {
      return false;
    }
    for k := 0 to |intervals|
      invariant forall j :: 0 <= j < k ==>
        !(intervals[j].opensAt <= TimeOf(localStart) && TimeOf(localEnd) <= intervals[j].closesAt)
    {
      if intervals[k].opensAt <= TimeOf(localStart) && TimeOf(localEnd) <= intervals[k].closesAt {
        return true;
      }
    }
    fits := false;
  }
}
