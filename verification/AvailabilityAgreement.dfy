/**
 * Availability is booking seen from the other side: what is offered is exactly what a booking on
 * the grid would accept, booking removes exactly the overlapping slots, cancelling restores them.
 */
module AvailabilityAgreement {
  import opened Prelude
  import opened Calendar
  import opened Agenda
  import opened AgendaSafety
  import opened Availability

  // ----------------------------------------------------------------- the grid

  /** `start` is `opensAt + k * step` for some k. */
  predicate OnGrid(start: int, opensAt: int, step: int)
    requires 0 < step
  {
    opensAt <= start && (start - opensAt) % step == 0
  }

  /** The service started at `start` lies on the grid of some opening interval and ends inside it. */
  predicate GridStart(cfg: Settings, intervals: seq<HoursRow>, length: int, start: int) {
    exists k :: 0 <= k < |intervals|
      && OnGrid(start, intervals[k].opensAt, cfg.slotIntervalMinutes * MINUTE) && start + length <= intervals[k].closesAt
  }

  lemma NextOnGrid(start: int, opensAt: int, step: int)
    requires 0 < step
    ensures OnGrid(start, opensAt, step) <==> start == opensAt || OnGrid(start, opensAt + step, step)
  {
    var d := start - opensAt;
    if d >= step {
      QuotientStep(d, step);
    }
  }

  lemma QuotientStep(d: int, step: int)
    requires 0 < step
    ensures (d - step) % step == d % step
  {
    var k, r := (d - step) / step, (d - step) % step;
    assert d == step * (k + 1) + r;
    QuotientIsUnique(d, step, k + 1, r, d / step, d % step);
  }

  lemma QuotientIsUnique(d: int, step: int, k: int, r: int, k': int, r': int)
    requires 0 < step && 0 <= r < step && 0 <= r' < step
    requires d == step * k + r && d == step * k' + r'
    ensures k == k' && r == r'
  {
    if k < k' {
      MultipleIsLarge(k' - k, step);
      assert false;
    } else if k' < k {
      MultipleIsLarge(k - k', step);
      assert false;
    }
  }

  lemma MultipleIsLarge(j: int, step: int)
    requires 1 <= j && 0 < step
    ensures step <= step * j
  {
  }

  lemma {:induction false} CandidateMember(cursor: int, closesAt: TimeOfDay, length: int, step: int, resource: Key, slot: Slot)
    requires 0 <= cursor && 0 < length && 0 < step
    ensures slot in Candidates(cursor, closesAt, length, step, resource)
       <==> slot.resource == resource && slot.end == slot.start + length && slot.end <= closesAt && OnGrid(slot.start, cursor, step)
    decreases closesAt - length - cursor
  {
    if cursor + length <= closesAt {
      CandidateMember(cursor + step, closesAt, length, step, resource, slot);
      NextOnGrid(slot.start, cursor, step);
    }
  }

  lemma {:induction false} DayCandidateMember(cfg: Settings, intervals: seq<HoursRow>, length: int, resource: Key, slot: Slot)
    requires 0 < length
    ensures slot in DayCandidates(cfg, intervals, length, resource)
       <==> slot.resource == resource && slot.end == slot.start + length && GridStart(cfg, intervals, length, slot.start)
  {
    if intervals != [] {
      var rest := intervals[1..];
      CandidateMember(intervals[0].opensAt, intervals[0].closesAt, length, cfg.slotIntervalMinutes * MINUTE, resource, slot);
      DayCandidateMember(cfg, rest, length, resource, slot);
      if GridStart(cfg, rest, length, slot.start) {
        var k :| 0 <= k < |rest| && OnGrid(slot.start, rest[k].opensAt, cfg.slotIntervalMinutes * MINUTE) && slot.start + length <= rest[k].closesAt;
        assert intervals[k + 1] == rest[k];
      }
      if GridStart(cfg, intervals, length, slot.start) {
        var k :| 0 <= k < |intervals| && OnGrid(slot.start, intervals[k].opensAt, cfg.slotIntervalMinutes * MINUTE) && slot.start + length <= intervals[k].closesAt;
        assert k > 0 ==> intervals[k] == rest[k - 1];
      }
    }
  }

  lemma {:induction false} AllSlotsMember(st: Store, cfg: Settings, q: SlotQuery, resources: seq<Key>, slot: Slot)
    ensures slot in SlotsForAll(st, cfg, q, resources)
       <==> && slot.resource in resources && slot.end == slot.start + q.minutes * MINUTE
            && GridStart(cfg, OpenIntervals(st.hours, q.instance, slot.resource, WeekdayOf(q.date)), q.minutes * MINUTE, slot.start)
            && Free(st, cfg, q, slot)
  {
    if resources != [] {
      AllSlotsMember(st, cfg, q, resources[1..], slot);
      DayCandidateMember(cfg, OpenIntervals(st.hours, q.instance, resources[0], WeekdayOf(q.date)), q.minutes * MINUTE, resources[0], slot);
    }
  }

  // --------------------------------------------- soundness and completeness

  /** Everything a booking checks besides the slot itself. */
  predicate ReadyToBook(st: Store, cfg: Settings, req: CreateRequest, draws: CodeDraws) {
    && WellFormedRequest(cfg, req)
    && (req.idempotencyKey.Some? ==> FindKey(st.appointments, req.idempotencyKey.value).None?)
    && FreshCode(st.appointments, draws).Some?
  }

  lemma FreeIffPlanned(st: Store, cfg: Settings, q: SlotQuery, slot: Slot)
    requires slot.end == slot.start + q.minutes * MINUTE && WithinHorizon(cfg, q.date, q.now)
    ensures Free(st, cfg, q, slot)
       <==> PlanSlot(st, cfg, q.instance, slot.resource, q.date, slot.start, q.minutes, q.now, None).Success?
  {
  }

  /**
   * A slot is offered if and only if a booking of exactly that slot, on the grid and on a chair that
   * was asked about, is accepted in the same state; and then precisely the offered interval is booked.
   */
  lemma OfferedIffAccepted(st: Store, cfg: Settings, instance: string, asked: Option<string>, now: int,
                           req: CreateRequest, draws: CodeDraws, slot: Slot)
    requires ListSlots(st, cfg, instance, req.date, req.serviceIds, asked, now).Success?
    requires ReadyToBook(st, cfg, req, draws) && Strip(req.instance) == Strip(instance)
    requires req.resource == Some(slot.resource) && req.start == slot.start
    requires slot.resource in AskedResources(st, cfg, Strip(instance), CleanAsked(asked).value)
    requires slot.end == slot.start + TotalMinutes(ActiveServices(cfg, st.services, req.serviceIds).value) * MINUTE
    ensures
      var offered := ListSlots(st, cfg, instance, req.date, req.serviceIds, asked, now).value;
      var booking := Create(st, cfg, req, now, draws).1;
      && (slot in offered <==>
            && booking.Success?
            && GridStart(cfg, OpenIntervals(st.hours, Strip(instance), slot.resource, WeekdayOf(req.date)), slot.end - slot.start, slot.start))
      && (slot in offered ==>
            && booking.value.created
            && booking.value.row.resource == slot.resource
            && ToLocal(booking.value.row.startAt, cfg.utcOffset) == CombineLocal(req.date, slot.start)
            && ToLocal(booking.value.row.endAt, cfg.utcOffset) == CombineLocal(req.date, slot.end))
  {
    ActiveServicesLast(cfg, st.services, req.serviceIds);
    var minutes := TotalMinutes(ActiveServices(cfg, st.services, req.serviceIds).value);
    var q: SlotQuery := Query(Strip(instance), req.date, minutes, now);
    var resources := AskedResources(st, cfg, Strip(instance), CleanAsked(asked).value);
    AskedResourcesAreClean(st, cfg, Strip(instance), asked);
    SortIsPermutation(SlotLe, SlotsForAll(st, cfg, q, resources));
    AllSlotsMember(st, cfg, q, resources, slot);
    FreeIffPlanned(st, cfg, q, slot);
    SlotIsBookedIffPlanned(st, cfg, req, now, draws, slot, minutes);
  }

  lemma AskedResourcesAreClean(st: Store, cfg: Settings, instance: Key, asked: Option<string>)
    requires CleanAsked(asked).Success?
    ensures forall r :: r in AskedResources(st, cfg, instance, CleanAsked(asked).value) ==> r != "" && Strip(r) == r
  {
  }

  lemma CreateIffPlanned(st: Store, cfg: Settings, req: CreateRequest, now: int, draws: CodeDraws, resource: Key, minutes: int)
    requires ReadyToBook(st, cfg, req, draws) && ActiveServices(cfg, st.services, req.serviceIds).Success?
    requires minutes == TotalMinutes(ActiveServices(cfg, st.services, req.serviceIds).value)
    requires req.resource == Some(resource) && resource != "" && Strip(resource) == resource
    ensures
      var plan := PlanSlot(st, cfg, Strip(req.instance), resource, req.date, req.start, minutes, now, None);
      var booking := Create(st, cfg, req, now, draws).1;
      && (booking.Success? <==> plan.Success?)
      && (plan.Success? ==>
            && booking.value.created && booking.value.row.resource == resource
            && (booking.value.row.startAt, booking.value.row.endAt) == plan.value)
  {
  }

  /** A booking of the slot is accepted exactly when its plan is, and then it has the slot's chair and interval. */
  lemma SlotIsBookedIffPlanned(st: Store, cfg: Settings, req: CreateRequest, now: int, draws: CodeDraws, slot: Slot, minutes: int)
    requires ReadyToBook(st, cfg, req, draws) && ActiveServices(cfg, st.services, req.serviceIds).Success?
    requires minutes == TotalMinutes(ActiveServices(cfg, st.services, req.serviceIds).value)
    requires req.resource == Some(slot.resource) && slot.resource != "" && Strip(slot.resource) == slot.resource
    requires req.start == slot.start && slot.end == slot.start + minutes * MINUTE
    ensures
      var plan := PlanSlot(st, cfg, Strip(req.instance), slot.resource, req.date, slot.start, minutes, now, None);
      var booking := Create(st, cfg, req, now, draws).1;
      && (booking.Success? <==> plan.Success?)
      && (plan.Success? ==>
            && booking.value.created && booking.value.row.resource == slot.resource
            && ToLocal(booking.value.row.startAt, cfg.utcOffset) == CombineLocal(req.date, slot.start)
            && ToLocal(booking.value.row.endAt, cfg.utcOffset) == CombineLocal(req.date, slot.end))
  {
    CreateIffPlanned(st, cfg, req, now, draws, slot.resource, minutes);
    PlannedInterval(st, cfg, Strip(req.instance), slot, req.date, minutes, now);
  }

  lemma PlannedInterval(st: Store, cfg: Settings, instance: Key, slot: Slot, date: int, minutes: int, now: int)
    requires slot.end == slot.start + minutes * MINUTE
    ensures
      var plan := PlanSlot(st, cfg, instance, slot.resource, date, slot.start, minutes, now, None);
      plan.Success? ==>
        && ToLocal(plan.value.0, cfg.utcOffset) == CombineLocal(date, slot.start)
        && ToLocal(plan.value.1, cfg.utcOffset) == CombineLocal(date, slot.end)
  {
  }

  /** Whenever a new booking is accepted, the question about its chair, date and services has an answer. */
  lemma AcceptedDateIsListed(st: Store, cfg: Settings, req: CreateRequest, now: int, draws: CodeDraws, asked: Option<string>)
    requires Create(st, cfg, req, now, draws).1.Success? && Create(st, cfg, req, now, draws).1.value.created
    requires CleanAsked(asked).Success?
    ensures ListSlots(st, cfg, req.instance, req.date, req.serviceIds, asked, now).Success?
  {
    assert now <= ToUtc(CombineLocal(req.date, req.start), cfg.utcOffset);
    assert DateOf(ToLocal(now, cfg.utcOffset)) <= req.date;
  }

  // ------------------------------------------------- booking and cancelling

  lemma SlotLeIsTotalPreorder()
    ensures TotalPreorder(SlotLe)
  {
    forall x, y ensures SlotLe(x, y) || SlotLe(y, x) {
      LexTotal(x.resource, y.resource);
    }
    forall x, y, z | SlotLe(x, y) && SlotLe(y, z) ensures SlotLe(x, z) {
      if x.start == y.start == z.start {
        LexTransitive(x.resource, y.resource, z.resource);
      }
    }
  }

  /** The slot list of a chair depends on the agenda only through which slots are free. */
  lemma {:induction false} SlotsRefilter(st: Store, st': Store, cfg: Settings, q: SlotQuery, resources: seq<Key>, keep: Slot -> bool)
    requires st'.hours == st.hours
    requires forall s :: Free(st', cfg, q, s) <==> Free(st, cfg, q, s) && keep(s)
    ensures SlotsForAll(st', cfg, q, resources) == Filter(keep, SlotsForAll(st, cfg, q, resources))
  {
    if resources != [] {
      SlotsRefilter(st, st', cfg, q, resources[1..], keep);
      var day := DayCandidates(cfg, OpenIntervals(st.hours, q.instance, resources[0], WeekdayOf(q.date)), q.minutes * MINUTE, resources[0]);
      FilterTwice((s: Slot) => Free(st, cfg, q, s), keep, (s: Slot) => Free(st', cfg, q, s), day);
      FilterConcat(keep, SlotsFor(st, cfg, q, resources[0]), SlotsForAll(st, cfg, q, resources[1..]));
    }
  }

  /** The question as the grid sees it, once the services are known. */
  function QueryOf(st: Store, cfg: Settings, instance: string, date: int, ids: seq<Key>, now: int): SlotQuery
    requires ActiveServices(cfg, st.services, ids).Success?
  {
    ActiveServicesLast(cfg, st.services, ids);
    Query(Strip(instance), date, TotalMinutes(ActiveServices(cfg, st.services, ids).value), now)
  }

  lemma ListRefilter(st: Store, st': Store, cfg: Settings, instance: string, date: int, ids: seq<Key>,
                     asked: Option<string>, now: int, keep: Slot -> bool)
    requires st'.hours == st.hours && st'.services == st.services && st'.resources == st.resources
    requires ListSlots(st, cfg, instance, date, ids, asked, now).Success? ==>
      forall s :: Free(st', cfg, QueryOf(st, cfg, instance, date, ids, now), s)
             <==> Free(st, cfg, QueryOf(st, cfg, instance, date, ids, now), s) && keep(s)
    ensures
      var before := ListSlots(st, cfg, instance, date, ids, asked, now);
      ListSlots(st', cfg, instance, date, ids, asked, now)
        == if before.Failure? then before else Success(Filter(keep, before.value))
  {
    if ListSlots(st, cfg, instance, date, ids, asked, now).Success? {
      var q := QueryOf(st, cfg, instance, date, ids, now);
      var resources := AskedResources(st, cfg, Strip(instance), CleanAsked(asked).value);
      SlotsRefilter(st, st', cfg, q, resources, keep);
      SlotLeIsTotalPreorder();
      FilterOfSort(SlotLe, keep, SlotsForAll(st, cfg, q, resources));
    }
  }

  /** The slot, shown for `instance` on `date`, shares no instant with the booked row. */
  predicate ClearOf(cfg: Settings, instance: Key, date: int, row: Appointment, slot: Slot) {
    !Blocks(row, instance, slot.resource, ToUtc(CombineLocal(date, slot.start), cfg.utcOffset),
                                          ToUtc(CombineLocal(date, slot.end), cfg.utcOffset))
  }

  lemma ConflictsAfterInsert(rows: seq<Appointment>, row: Appointment, instance: Key, resource: Key, startAt: int, endAt: int)
    ensures Conflicts(rows + [row], instance, resource, startAt, endAt, None)
       <==> Conflicts(rows, instance, resource, startAt, endAt, None) || Blocks(row, instance, resource, startAt, endAt)
  {
    if Conflicts(rows, instance, resource, startAt, endAt, None) {
      var i :| 0 <= i < |rows| && Blocks(rows[i], instance, resource, startAt, endAt);
      assert (rows + [row])[i] == rows[i];
    }
    assert (rows + [row])[|rows|] == row;
  }

  lemma FreeAfterInsert(st: Store, st': Store, cfg: Settings, q: SlotQuery, row: Appointment)
    requires st'.hours == st.hours && st'.appointments == st.appointments + [row]
    ensures forall s :: Free(st', cfg, q, s) <==> Free(st, cfg, q, s) && ClearOf(cfg, q.instance, q.date, row, s)
  {
    forall s ensures Free(st', cfg, q, s) <==> Free(st, cfg, q, s) && ClearOf(cfg, q.instance, q.date, row, s) {
      ConflictsAfterInsert(st.appointments, row, q.instance, s.resource,
        ToUtc(CombineLocal(q.date, s.start), cfg.utcOffset), ToUtc(CombineLocal(q.date, s.end), cfg.utcOffset));
    }
  }

  /** Every slot list after inserting a row is the old list without the slots the row overlaps. */
  lemma {:induction false} ListAfterInsert(st: Store, st': Store, cfg: Settings, row: Appointment,
                        instance: string, date: int, ids: seq<Key>, asked: Option<string>, now: int)
    requires st'.appointments == st.appointments + [row]
    requires st'.hours == st.hours && st'.services == st.services && st'.resources == st.resources
    ensures
      var before := ListSlots(st, cfg, instance, date, ids, asked, now);
      ListSlots(st', cfg, instance, date, ids, asked, now)
        == if before.Failure? then before
           else Success(Filter((s: Slot) => ClearOf(cfg, Strip(instance), date, row, s), before.value))
  {
    if ListSlots(st, cfg, instance, date, ids, asked, now).Success? {
      FreeAfterInsert(st, st', cfg, QueryOf(st, cfg, instance, date, ids, now), row);
    }
    ListRefilter(st, st', cfg, instance, date, ids, asked, now, (s: Slot) => ClearOf(cfg, Strip(instance), date, row, s));
  }

  /**
   * Booking a row turns every slot list, for any chair, date, services and clock, into exactly the
   * old list without the slots that overlap the row.
   */
  lemma BookingRemovesOverlaps(st: Store, cfg: Settings, req: CreateRequest, booked: int, draws: CodeDraws,
                               instance: string, date: int, ids: seq<Key>, asked: Option<string>, now: int)
    requires Create(st, cfg, req, booked, draws).1.Success? && Create(st, cfg, req, booked, draws).1.value.created
    ensures
      var (st', r) := Create(st, cfg, req, booked, draws);
      var before := ListSlots(st, cfg, instance, date, ids, asked, now);
      ListSlots(st', cfg, instance, date, ids, asked, now)
        == if before.Failure? then before
           else Success(Filter((s: Slot) => ClearOf(cfg, Strip(instance), date, r.value.row, s), before.value))
  {
    var (st', r) := Create(st, cfg, req, booked, draws);
    ListAfterInsert(st, st', cfg, r.value.row, instance, date, ids, asked, now);
  }

  /** The list of one chair offers slots of that chair only. */
  lemma ListedChair(st: Store, cfg: Settings, instance: string, date: int, ids: seq<Key>, other: string, now: int)
    requires other != "" && ListSlots(st, cfg, instance, date, ids, Some(other), now).Success?
    ensures forall s :: s in ListSlots(st, cfg, instance, date, ids, Some(other), now).value ==> s.resource == Strip(other)
  {
    var q := QueryOf(st, cfg, instance, date, ids, now);
    var resources := AskedResources(st, cfg, Strip(instance), Some(Strip(other)));
    var all := SlotsForAll(st, cfg, q, resources);
    SortIsPermutation(SlotLe, all);
    forall s | s in all ensures s.resource == Strip(other) {
      AllSlotsMember(st, cfg, q, resources, s);
    }
  }

  /** Booking a row leaves the slot list of every other chair, and of every other shop, exactly as it was. */
  lemma OtherChairsLoseNothing(st: Store, cfg: Settings, req: CreateRequest, booked: int, draws: CodeDraws,
                               instance: string, date: int, ids: seq<Key>, other: string, now: int)
    requires Create(st, cfg, req, booked, draws).1.Success? && Create(st, cfg, req, booked, draws).1.value.created
    requires other != ""
    requires var row := Create(st, cfg, req, booked, draws).1.value.row;
             Strip(other) != row.resource || Strip(instance) != row.instance
    ensures ListSlots(Create(st, cfg, req, booked, draws).0, cfg, instance, date, ids, Some(other), now)
         == ListSlots(st, cfg, instance, date, ids, Some(other), now)
  {
    BookingRemovesOverlaps(st, cfg, req, booked, draws, instance, date, ids, Some(other), now);
    var row := Create(st, cfg, req, booked, draws).1.value.row;
    var before := ListSlots(st, cfg, instance, date, ids, Some(other), now);
    if before.Success? {
      ListedChair(st, cfg, instance, date, ids, other, now);
      FilterAll((s: Slot) => ClearOf(cfg, Strip(instance), date, row, s), before.value);
    }
  }

  /** Cancelling the booking just made restores every slot list exactly. */
  lemma CancellingRestoresSlots(st: Store, cfg: Settings, req: CreateRequest, booked: int, draws: CodeDraws,
                                owner: string, phone: string, reason: Option<string>, cancelled: int,
                                instance: string, date: int, ids: seq<Key>, asked: Option<string>, now: int)
    requires Create(st, cfg, req, booked, draws).1.Success? && Create(st, cfg, req, booked, draws).1.value.created
    requires var (st', r) := Create(st, cfg, req, booked, draws);
             Cancel(st', owner, phone, r.value.id, reason, cancelled).1.Success?
    ensures
      var (st', r) := Create(st, cfg, req, booked, draws);
      ListSlots(Cancel(st', owner, phone, r.value.id, reason, cancelled).0, cfg, instance, date, ids, asked, now)
        == ListSlots(st, cfg, instance, date, ids, asked, now)
  {
    var (st', r) := Create(st, cfg, req, booked, draws);
    var (st'', c) := Cancel(st', owner, phone, r.value.id, reason, cancelled);
    CancelShape(st', owner, phone, r.value.id, reason, cancelled);
    assert st''.appointments == st.appointments + [c.value.row];
    ListAfterInsert(st, st'', cfg, c.value.row, instance, date, ids, asked, now);
    var before := ListSlots(st, cfg, instance, date, ids, asked, now);
    if before.Success? {
      FilterAll((s: Slot) => ClearOf(cfg, Strip(instance), date, c.value.row, s), before.value);
    }
  }

  lemma CancelShape(st: Store, owner: string, phone: string, id: nat, reason: Option<string>, now: int)
    requires Cancel(st, owner, phone, id, reason, now).1.Success?
    ensures var (st', r) := Cancel(st, owner, phone, id, reason, now);
            && id < |st.appointments| && r.value.row.status.Cancelled?
            && st' == st.(appointments := st.appointments[id := r.value.row])
  {
  }
}
