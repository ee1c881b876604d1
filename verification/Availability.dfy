/**
 * Availability: the slot grid a customer is shown, computed with one prefetch of the day's
 * appointments, and its exact agreement with what a booking would accept.
 */
module Availability {
  import opened Prelude
  import opened Calendar
  import opened Agenda
  import opened AgendaSafety
  import opened SchedulingServices

  datatype Slot = Slot(start: TimeOfDay, end: TimeOfDay, resource: Key)

  // ------------------------------------------------------------ specification

  /** One question put to the slot grid. */
  datatype Query = Query(instance: Key, date: int, minutes: int, now: int)

  type SlotQuery = q: Query | 0 < q.minutes witness Query("", 0, 1, 0)

  /** The walk of one opening interval: every step from `cursor` whose service ends by closing time. */
  function Candidates(cursor: int, closesAt: TimeOfDay, length: int, step: int, resource: Key): seq<Slot>
    requires 0 <= cursor && 0 < length && 0 < step
    decreases closesAt - length - cursor
  {
    if cursor + length > closesAt then []
    else [Slot(cursor, cursor + length, resource)] + Candidates(cursor + step, closesAt, length, step, resource)
  }

  function DayCandidates(cfg: Settings, intervals: seq<HoursRow>, length: int, resource: Key): seq<Slot>
    requires 0 < length
  {
    if intervals == [] then []
    else Candidates(intervals[0].opensAt, intervals[0].closesAt, length, cfg.slotIntervalMinutes * MINUTE, resource)
         + DayCandidates(cfg, intervals[1..], length, resource)
  }

  /** A slot is free when its notice, opening hours and conflict checks would all pass. */
  predicate Free(st: Store, cfg: Settings, q: SlotQuery, slot: Slot) {
    var localStart, localEnd := CombineLocal(q.date, slot.start), CombineLocal(q.date, slot.end);
    && WithinNotice(cfg, ToUtc(localStart, cfg.utcOffset), q.now)
    && FitsBusinessHours(localStart, localEnd, OpenIntervals(st.hours, q.instance, slot.resource, WeekdayOf(q.date)))
    && !Conflicts(st.appointments, q.instance, slot.resource,
                  ToUtc(localStart, cfg.utcOffset), ToUtc(localEnd, cfg.utcOffset), None)
  }

  function FreeSlots(st: Store, cfg: Settings, q: SlotQuery, slots: seq<Slot>): seq<Slot> {
    Filter((s: Slot) => Free(st, cfg, q, s), slots)
  }

  lemma FreeSlotsConcat(st: Store, cfg: Settings, q: SlotQuery, xs: seq<Slot>, ys: seq<Slot>)
    ensures FreeSlots(st, cfg, q, xs + ys) == FreeSlots(st, cfg, q, xs) + FreeSlots(st, cfg, q, ys)
  {
    FilterConcat((s: Slot) => Free(st, cfg, q, s), xs, ys);
  }

  lemma FreeSlotsCons(st: Store, cfg: Settings, q: SlotQuery, x: Slot, xs: seq<Slot>)
    ensures FreeSlots(st, cfg, q, [x] + xs) == (if Free(st, cfg, q, x) then [x] else []) + FreeSlots(st, cfg, q, xs)
  {
    FilterCons((s: Slot) => Free(st, cfg, q, s), x, xs);
  }

  /** The free slots of an opening interval from `cursor` on. */
  function FreeFrom(st: Store, cfg: Settings, q: SlotQuery, interval: HoursRow, cursor: int, resource: Key): seq<Slot>
    requires 0 <= cursor
  {
    FreeSlots(st, cfg, q, Candidates(cursor, interval.closesAt, q.minutes * MINUTE, cfg.slotIntervalMinutes * MINUTE, resource))
  }

  /** One turn of the walk moves the slot at the cursor, if it is free, from what is left to what was found. */
  lemma FreeFromStep(st: Store, cfg: Settings, q: SlotQuery, interval: HoursRow, cursor: int, resource: Key, found: seq<Slot>)
    requires 0 <= cursor && cursor + q.minutes * MINUTE <= interval.closesAt
    ensures var slot := Slot(cursor, cursor + q.minutes * MINUTE, resource);
            found + FreeFrom(st, cfg, q, interval, cursor, resource)
              == (if Free(st, cfg, q, slot) then found + [slot] else found)
               + FreeFrom(st, cfg, q, interval, cursor + cfg.slotIntervalMinutes * MINUTE, resource)
  {
    var length, step := q.minutes * MINUTE, cfg.slotIntervalMinutes * MINUTE;
    var slot := Slot(cursor, cursor + length, resource);
    FreeSlotsCons(st, cfg, q, slot, Candidates(cursor + step, interval.closesAt, length, step, resource));
    ConcatAssociates(found, [slot], FreeFrom(st, cfg, q, interval, cursor + step, resource));
  }

  function SlotsFor(st: Store, cfg: Settings, q: SlotQuery, resource: Key): seq<Slot> {
    FreeSlots(st, cfg, q,
           DayCandidates(cfg, OpenIntervals(st.hours, q.instance, resource, WeekdayOf(q.date)), q.minutes * MINUTE, resource))
  }

  lemma FreeSlotsOfDay(st: Store, cfg: Settings, q: SlotQuery, intervals: seq<HoursRow>, i: nat, resource: Key)
    requires i < |intervals|
    ensures FreeSlots(st, cfg, q, DayCandidates(cfg, intervals[i..], q.minutes * MINUTE, resource))
         == FreeSlots(st, cfg, q, Candidates(intervals[i].opensAt, intervals[i].closesAt, q.minutes * MINUTE,
                                             cfg.slotIntervalMinutes * MINUTE, resource))
          + FreeSlots(st, cfg, q, DayCandidates(cfg, intervals[i + 1..], q.minutes * MINUTE, resource))
  {
    assert intervals[i..][1..] == intervals[i + 1..];
    FreeSlotsConcat(st, cfg, q,
      Candidates(intervals[i].opensAt, intervals[i].closesAt, q.minutes * MINUTE, cfg.slotIntervalMinutes * MINUTE, resource),
      DayCandidates(cfg, intervals[i + 1..], q.minutes * MINUTE, resource));
  }

  function SlotsForAll(st: Store, cfg: Settings, q: SlotQuery, resources: seq<Key>): seq<Slot> {
    if resources == [] then []
    else SlotsFor(st, cfg, q, resources[0]) + SlotsForAll(st, cfg, q, resources[1..])
  }

  predicate SlotLe(a: Slot, b: Slot) {
    a.start < b.start || (a.start == b.start && LexLe(a.resource, b.resource))
  }

  /** The chairs a question is about; without any seeded chair, the default one. */
  function AskedResources(st: Store, cfg: Settings, instance: Key, asked: Option<Key>): seq<Key> {
    match asked
    case Some(resource) =>
      if resource != cfg.defaultResource && resource !in Bookable(st.resources, instance) then [] else [resource]
    case None =>
      if Bookable(st.resources, instance) == [] then [Strip(cfg.defaultResource)] else Bookable(st.resources, instance)
  }

  /** `resource_key` of the question: blank text is an error, absent or empty text asks about every chair. */
  function CleanAsked(asked: Option<string>): Result<Option<Key>, SchedulingError> {
    if asked.None? || asked.value == "" then Success(None)
    else if IsBlank(asked.value) then Failure(InvalidAppointmentTime)
    else Success(Some(Strip(asked.value)))
  }

  function CheckDate(cfg: Settings, date: int, now: int): Result<(), SchedulingError> {
    if date < DateOf(ToLocal(now, cfg.utcOffset)) then Failure(InvalidAppointmentTime)
    else if !WithinHorizon(cfg, date, now) then Failure(BookingTooFarAhead)
    else Success(())
  }

  lemma ActiveServicesLast(cfg: Settings, services: map<Key, ServiceRow>, ids: seq<Key>)
    requires ActiveServices(cfg, services, ids).Success?
    ensures 0 < TotalMinutes(ActiveServices(cfg, services, ids).value)
  {
    TotalsArePositive(ActiveServices(cfg, services, ids).value);
  }

  /** The sorted answer to "when is there room for these services on this date?". */
  function ListSlots(st: Store, cfg: Settings, instance: string, date: int, ids: seq<Key>, asked: Option<string>, now: int)
    : Result<seq<Slot>, SchedulingError>
  {
    if Strip(instance) == "" then Failure(InvalidAppointmentTime)
    else match CleanAsked(asked)
      case Failure(e) => Failure(e)
      case Success(clean) =>
        match CheckDate(cfg, date, now)
        case Failure(e) => Failure(e)
        case Success(_) =>
          match ActiveServices(cfg, st.services, ids)
          case Failure(e) => Failure(e)
          case Success(services) =>
            ActiveServicesLast(cfg, st.services, ids);
            var q := Query(Strip(instance), date, TotalMinutes(services), now);
            Success(SortBy(SlotLe, SlotsForAll(st, cfg, q, AskedResources(st, cfg, Strip(instance), clean))))
  }

  // ------------------------------------------------------------- the service

  /** The `any` of the slot loop. */
  predicate OverlapsSome(startAt: int, endAt: int, fetched: seq<Appointment>) {
    exists k :: 0 <= k < |fetched| && Overlaps(startAt, endAt, fetched[k].startAt, fetched[k].endAt)
  }

  /** For every slot inside the local day the fetched rows answer the conflict question of the whole table. */
  ghost predicate AnswersForDay(rows: seq<Appointment>, cfg: Settings, q: SlotQuery, resource: Key, fetched: seq<Appointment>) {
    var dayStart, dayEnd := ToUtc(q.date * DAY, cfg.utcOffset), ToUtc((q.date + 1) * DAY, cfg.utcOffset);
    forall startAt, endAt :: dayStart <= startAt && endAt <= dayEnd ==>
      (Conflicts(rows, q.instance, resource, startAt, endAt, None) <==> OverlapsSome(startAt, endAt, fetched))
  }

  lemma SlotLosesNothing(rows: seq<Appointment>, instance: Key, resource: Key,
                         dayStart: int, dayEnd: int, startAt: int, endAt: int, fetched: seq<Appointment>)
    requires dayStart <= startAt && endAt <= dayEnd
    requires fetched == Overlapping(rows, instance, resource, dayStart, dayEnd, None)
    ensures Conflicts(rows, instance, resource, startAt, endAt, None) <==> OverlapsSome(startAt, endAt, fetched)
  {
    var day := OverlapsAmong(rows, instance, resource, dayStart, dayEnd, None, |rows|);
    SortIsPermutation(StartsFirst, day);
    if Conflicts(rows, instance, resource, startAt, endAt, None) {
      var i :| 0 <= i < |rows| && Blocks(rows[i], instance, resource, startAt, endAt);
      assert rows[i] in day && rows[i] in fetched;
    }
    if k :| 0 <= k < |fetched| && Overlaps(startAt, endAt, fetched[k].startAt, fetched[k].endAt) {
      assert fetched[k] in day && fetched[k] in rows;
    }
  }

  /** Fetching only the rows that touch the local day loses no conflict of a slot inside it. */
  lemma PrefetchLosesNothing(rows: seq<Appointment>, cfg: Settings, q: SlotQuery, resource: Key, fetched: seq<Appointment>)
    requires fetched == Overlapping(rows, q.instance, resource, ToUtc(q.date * DAY, cfg.utcOffset),
                                    ToUtc((q.date + 1) * DAY, cfg.utcOffset), None)
    ensures AnswersForDay(rows, cfg, q, resource, fetched)
  {
    var dayStart, dayEnd := ToUtc(q.date * DAY, cfg.utcOffset), ToUtc((q.date + 1) * DAY, cfg.utcOffset);
    forall startAt, endAt | dayStart <= startAt && endAt <= dayEnd
      ensures Conflicts(rows, q.instance, resource, startAt, endAt, None) <==> OverlapsSome(startAt, endAt, fetched)
    {
      SlotLosesNothing(rows, q.instance, resource, dayStart, dayEnd, startAt, endAt, fetched);
    }
  }

  /** The three conditions of the loop body on the fetched rows: notice, opening hours, and no prefetched overlap. */
  predicate Passes(cfg: Settings, q: SlotQuery, slot: Slot, intervals: seq<HoursRow>, fetched: seq<Appointment>) {
    var localStart, localEnd := CombineLocal(q.date, slot.start), CombineLocal(q.date, slot.end);
    && WithinNotice(cfg, ToUtc(localStart, cfg.utcOffset), q.now)
    && FitsBusinessHours(localStart, localEnd, intervals)
    && !OverlapsSome(ToUtc(localStart, cfg.utcOffset), ToUtc(localEnd, cfg.utcOffset), fetched)
  }

  /** The fetched rows decide every slot of the chair as the whole tables would. */
  ghost predicate Decide(st: Store, cfg: Settings, q: SlotQuery, resource: Key, intervals: seq<HoursRow>, fetched: seq<Appointment>) {
    forall slot: Slot :: slot.resource == resource ==> (Free(st, cfg, q, slot) <==> Passes(cfg, q, slot, intervals, fetched))
  }

  lemma FetchedRowsDecide(st: Store, cfg: Settings, q: SlotQuery, resource: Key, intervals: seq<HoursRow>, fetched: seq<Appointment>)
    requires intervals == OpenIntervals(st.hours, q.instance, resource, WeekdayOf(q.date))
    requires AnswersForDay(st.appointments, cfg, q, resource, fetched)
    ensures Decide(st, cfg, q, resource, intervals, fetched)
  {
  }

  method AnyOverlap(startAt: int, endAt: int, rows: seq<Appointment>) returns (found: bool)
    ensures found <==> OverlapsSome(startAt, endAt, rows)
  {
    for k := 0 to |rows|
      invariant forall j :: 0 <= j < k ==> !Overlaps(startAt, endAt, rows[j].startAt, rows[j].endAt)
    {
      if Overlaps(startAt, endAt, rows[k].startAt, rows[k].endAt) {
        return true;
      }
    }
    found := false;
  }

  class AvailabilityService {
    const db: Database
    const cfg: Settings

    constructor (db: Database, cfg: Settings)
      ensures this.db == db && this.cfg == cfg
    {
      this.db, this.cfg := db, cfg;
    }

    /** The three conditions of the loop body: notice, opening hours, and no prefetched overlap. */
    method IsFree(q: SlotQuery, slot: Slot, intervals: seq<HoursRow>, overlaps: seq<Appointment>) returns (free: bool)
      requires Decide(db.State(), cfg, q, slot.resource, intervals, overlaps)
      ensures free == Free(db.State(), cfg, q, slot)
    {
      var localStart, localEnd := CombineLocal(q.date, slot.start), CombineLocal(q.date, slot.end);
      var startAt, endAt := ToUtc(localStart, cfg.utcOffset), ToUtc(localEnd, cfg.utcOffset);
      var fits := AnyIntervalFits(localStart, localEnd, intervals);
      var taken := AnyOverlap(startAt, endAt, overlaps);
      free := startAt >= q.now + cfg.minNoticeMinutes * MINUTE && fits && !taken;
      assert free == Passes(cfg, q, slot, intervals, overlaps);
    }

    /** The body of the cursor loop: the slot at the cursor is appended when it is free. */
    method TrySlot(q: SlotQuery, resource: Key, intervals: seq<HoursRow>, interval: HoursRow,
                   overlaps: seq<Appointment>, cursor: int, found: seq<Slot>)
      returns (slots: seq<Slot>)
      requires Decide(db.State(), cfg, q, resource, intervals, overlaps)
      requires 0 <= cursor && cursor + q.minutes * MINUTE <= interval.closesAt
      ensures found + FreeFrom(db.State(), cfg, q, interval, cursor, resource)
           == slots + FreeFrom(db.State(), cfg, q, interval, cursor + cfg.slotIntervalMinutes * MINUTE, resource)
    {
      var slot := Slot(cursor, cursor + q.minutes * MINUTE, resource);
      var free := IsFree(q, slot, intervals, overlaps);
      slots := if free then found + [slot] else found;
      FreeFromStep(db.State(), cfg, q, interval, cursor, resource, found);
    }

    /** The cursor loop over one opening interval. */
    method WalkInterval(q: SlotQuery, resource: Key, intervals: seq<HoursRow>, interval: HoursRow,
                        overlaps: seq<Appointment>, before: seq<Slot>)
      returns (slots: seq<Slot>)
      requires Decide(db.State(), cfg, q, resource, intervals, overlaps)
      ensures slots == before + FreeFrom(db.State(), cfg, q, interval, interval.opensAt, resource)
    {
      slots := before;
      var cursor := interval.opensAt;
      var length, step := q.minutes * MINUTE, cfg.slotIntervalMinutes * MINUTE;
      ghost var st := db.State();
      while cursor + length <= interval.closesAt
        invariant 0 <= cursor
        invariant before + FreeFrom(st, cfg, q, interval, interval.opensAt, resource)
               == slots + FreeFrom(st, cfg, q, interval, cursor, resource)
        decreases interval.closesAt - length - cursor
      {
        slots := TrySlot(q, resource, intervals, interval, overlaps, cursor, slots);
        cursor := cursor + step;
      }
    }

    method WalkDay(q: SlotQuery, resource: Key, intervals: seq<HoursRow>, overlaps: seq<Appointment>) returns (slots: seq<Slot>)
      requires Decide(db.State(), cfg, q, resource, intervals, overlaps)
      ensures slots == FreeSlots(db.State(), cfg, q, DayCandidates(cfg, intervals, q.minutes * MINUTE, resource))
    {
      slots := [];
      ghost var st := db.State();
      ghost var length := q.minutes * MINUTE;
      ghost var all := FreeSlots(st, cfg, q, DayCandidates(cfg, intervals, length, resource));
      assert intervals[0..] == intervals;
      for i := 0 to |intervals|
        invariant all == slots + FreeSlots(st, cfg, q, DayCandidates(cfg, intervals[i..], length, resource))
      {
        FreeSlotsOfDay(st, cfg, q, intervals, i, resource);
        slots := WalkInterval(q, resource, intervals, intervals[i], overlaps, slots);
      }
    }

    method SlotsForResource(q: SlotQuery, resource: Key) returns (slots: seq<Slot>)
      ensures slots == SlotsFor(db.State(), cfg, q, resource)
    {
      var intervals := OpenIntervals(db.hours, q.instance, resource, WeekdayOf(q.date));
      if intervals == [] {
        return [];
      }
      var overlaps := FindOverlappingAppointments(db, q.instance, resource,
        ToUtc(q.date * DAY, cfg.utcOffset), ToUtc((q.date + 1) * DAY, cfg.utcOffset), None);
      PrefetchLosesNothing(db.appointments, cfg, q, resource, overlaps);
      FetchedRowsDecide(db.State(), cfg, q, resource, intervals, overlaps);
      slots := WalkDay(q, resource, intervals, overlaps);
    }

    method CollectSlots(q: SlotQuery, resources: seq<Key>) returns (slots: seq<Slot>)
      ensures slots == SlotsForAll(db.State(), cfg, q, resources)
    {
      slots := [];
      assert resources[0..] == resources;
      for i := 0 to |resources|
        invariant SlotsForAll(db.State(), cfg, q, resources) == slots + SlotsForAll(db.State(), cfg, q, resources[i..])
      {
        assert resources[i..][1..] == resources[i + 1..];
        var more := SlotsForResource(q, resources[i]);
        slots := slots + more;
      }
    }

    method ListAvailableSlots(instance: string, date: int, ids: seq<Key>, asked: Option<string>, now: int)
      returns (r: Result<seq<Slot>, SchedulingError>)
      ensures r == ListSlots(db.State(), cfg, instance, date, ids, asked, now)
    {
      if Strip(instance) == "" { return Failure(InvalidAppointmentTime); }
      var clean := CleanAsked(asked);
      if clean.Failure? { return Failure(clean.error); }
      var today := DateOf(ToLocal(now, cfg.utcOffset));
      if date < today { return Failure(InvalidAppointmentTime); }
      if date > today + cfg.maxDaysAhead { return Failure(BookingTooFarAhead); }
      var services := GetActiveServicesByIds(db, cfg, ids);
      if services.Failure? { return Failure(services.error); }
      ActiveServicesLast(cfg, db.services, ids);
      var q := Query(Strip(instance), date, TotalMinutes(services.value), now);
      var resources := AskedResources(db.State(), cfg, q.instance, clean.value);
      var slots := CollectSlots(q, resources);
      r := Success(SortBy(SlotLe, slots));
    }
  }
}
