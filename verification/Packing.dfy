/**
 * The dashboard's occupancy: the minutes booked in a month never exceed the minutes the month
 * offers, in every state the scheduling transactions reach with fixed opening hours.
 *
 * Proof idea: a booked row owns the whole-minute ticks of `(start, end]`, one per booked minute.
 * Rows of one chair own different ticks, and every tick lies in some opening interval.
 */
module Packing {
  import opened Prelude
  import opened Calendar
  import opened Agenda
  import opened AgendaSafety

  // -------------------------------------------------------------- the dashboard

  /** `max(closes_at_minutes - opens_at_minutes, 0)`; the dashboard drops the seconds of a time. */
  function IntervalMinutes(h: HoursRow): (n: int)
    ensures 0 <= n
  {
    h.closesAt / MINUTE - h.opensAt / MINUTE
  }

  function MinutesOfDay(date: int, rows: seq<HoursRow>): int {
    if rows == [] then 0
    else (if rows[0].weekday == WeekdayOf(date) then IntervalMinutes(rows[0]) else 0) + MinutesOfDay(date, rows[1..])
  }

  function MinutesOfDays(first: int, days: nat, rows: seq<HoursRow>): int {
    if days == 0 then 0 else MinutesOfDays(first, days - 1, rows) + MinutesOfDay(first + days - 1, rows)
  }

  function AvailableMinutes(m: Month, rows: seq<HoursRow>): int
    requires m.Valid()
  {
    MinutesOfDays(FirstOrdinal(m), DaysInMonth(m), rows)
  }

  /** `_available_minutes_for_month`. */
  method AvailableMinutesForMonth(m: Month, rows: seq<HoursRow>) returns (total: int)
    requires m.Valid()
    ensures total == AvailableMinutes(m, rows)
  {
    total := 0;
    var first := FirstOrdinal(m);
    for day := 0 to DaysInMonth(m)
      invariant total == MinutesOfDays(first, day, rows)
    {
      var date := first + day;
      for k := 0 to |rows|
        invariant total + MinutesOfDay(date, rows[k..]) == MinutesOfDays(first, day, rows) + MinutesOfDay(date, rows)
      {
        assert rows[k..][1..] == rows[k + 1..];
        if rows[k].weekday == WeekdayOf(date) {
          var length := rows[k].closesAt / MINUTE - rows[k].opensAt / MINUTE;
          total := total + if length > 0 then length else 0;
        }
      }
    }
  }

  /** `list_business_hours`: the active intervals of one chair, or of all of them. */
  function DashboardHours(hours: seq<HoursRow>, instance: Key, resource: Key): seq<HoursRow> {
    Filter((h: HoursRow) => h.instance == instance && (resource == "all" || h.resource == resource) && h.active, hours)
  }

  predicate Counted(a: Appointment, instance: Key, resource: Key, startAt: int, endAt: int) {
    && a.instance == instance && (resource == "all" || a.resource == resource)
    && startAt <= a.startAt < endAt
    && (a.status.Scheduled? || a.status.Completed?)
  }

  /** `sum_scheduled_minutes`. */
  function ScheduledMinutes(rows: seq<Appointment>, instance: Key, resource: Key, startAt: int, endAt: int): int {
    if rows == [] then 0
    else (if Counted(rows[0], instance, resource, startAt, endAt) then rows[0].totalMinutes else 0)
         + ScheduledMinutes(rows[1..], instance, resource, startAt, endAt)
  }

  /** `_local_month_range`. */
  function MonthRange(m: Month, offset: int): (int, int)
    requires m.Valid()
  {
    (ToUtc(CombineLocal(FirstOrdinal(m), 0), offset), ToUtc(CombineLocal(FirstOrdinal(NextMonth(m)), 0), offset))
  }

  // ---------------------------------------------- bookings stay in opening hours

  ghost predicate InsideInterval(h: HoursRow, offset: int, a: Appointment) {
    var s, e := ToLocal(a.startAt, offset), ToLocal(a.endAt, offset);
    && h.instance == a.instance && h.resource == a.resource && h.active
    && h.weekday == WeekdayOf(DateOf(s)) && DateOf(s) == DateOf(e)
    && h.opensAt <= TimeOf(s) && TimeOf(e) <= h.closesAt
  }

  /** The row lies inside one active opening interval of its chair and weekday. */
  ghost predicate InsideHours(hours: seq<HoursRow>, offset: int, a: Appointment) {
    exists k :: 0 <= k < |hours| && InsideInterval(hours[k], offset, a)
  }

  ghost predicate HoursRespected(st: Store, cfg: Settings) {
    forall i :: 0 <= i < |st.appointments| && st.appointments[i].status.Scheduled?
      ==> InsideHours(st.hours, cfg.utcOffset, st.appointments[i])
  }

  lemma PlannedSlotIsInside(st: Store, cfg: Settings, instance: Key, resource: Key, date: int, start: TimeOfDay,
                            minutes: int, now: int, exclude: Option<nat>, a: Appointment)
    requires PlanSlot(st, cfg, instance, resource, date, start, minutes, now, exclude).Success?
    requires a.instance == instance && a.resource == resource
    requires (a.startAt, a.endAt) == PlanSlot(st, cfg, instance, resource, date, start, minutes, now, exclude).value
    ensures InsideHours(st.hours, cfg.utcOffset, a)
  {
    var intervals := OpenIntervals(st.hours, instance, resource, WeekdayOf(date));
    var s, e := ToLocal(a.startAt, cfg.utcOffset), ToLocal(a.endAt, cfg.utcOffset);
    CombineRoundTrip(date, start, s);
    var k :| 0 <= k < |intervals| && intervals[k].opensAt <= TimeOf(s) && TimeOf(e) <= intervals[k].closesAt;
    assert intervals[k] in st.hours;
    var j :| 0 <= j < |st.hours| && st.hours[j] == intervals[k];
    assert InsideInterval(st.hours[j], cfg.utcOffset, a);
  }

  lemma CreateRespectsHours(st: Store, cfg: Settings, req: CreateRequest, now: int, draws: CodeDraws)
    requires HoursRespected(st, cfg)
    ensures HoursRespected(Create(st, cfg, req, now, draws).0, cfg)
  {
    var (st', r) := Create(st, cfg, req, now, draws);
    if r.Success? && r.value.created {
      var a := r.value.row;
      assert st'.appointments == st.appointments + [a] && st'.hours == st.hours;
      PlannedSlotIsInside(st, cfg, a.instance, a.resource, req.date, req.start, a.totalMinutes, now, None, a);
    }
  }

  lemma RescheduleRespectsHours(st: Store, cfg: Settings, req: RescheduleRequest, now: int)
    requires HoursRespected(st, cfg)
    ensures HoursRespected(Reschedule(st, cfg, req, now).0, cfg)
  {
    var (st', r) := Reschedule(st, cfg, req, now);
    if r.Success? {
      var a := r.value.row;
      assert st'.appointments == st.appointments[req.id := a] && st'.hours == st.hours;
      PlannedSlotIsInside(st, cfg, a.instance, a.resource, req.date, req.start, a.totalMinutes, now, Some(req.id), a);
    }
  }

  lemma {:induction false} RunRespectsHours(st: Store, cfg: Settings, steps: seq<Step>)
    requires HoursRespected(st, cfg)
    requires forall i :: 0 <= i < |steps| ==> !steps[i].EditHours?
    ensures HoursRespected(Run(st, cfg, steps), cfg) && Run(st, cfg, steps).hours == st.hours
    decreases |steps|
  {
    if steps != [] {
      var next := Apply(st, cfg, steps[0]);
      assert HoursRespected(next, cfg) && next.hours == st.hours by {
        match steps[0]
        case CreateStep(req, now, draws) => CreateRespectsHours(st, cfg, req, now, draws);
        case RescheduleStep(req, now) => RescheduleRespectsHours(st, cfg, req, now);
        case _ =>
      }
      RunRespectsHours(next, cfg, steps[1..]);
    }
  }

  // -------------------------------------------------------------------- ticks

  /** The minutes n with lo < n <= hi, each tagged with its chair. */
  ghost function Ticks(resource: Key, lo: int, hi: int): set<(Key, int)>
    decreases hi - lo
  {
    if hi <= lo then {} else Ticks(resource, lo, hi - 1) + {(resource, hi)}
  }

  lemma {:induction false} TicksAre(resource: Key, lo: int, hi: int)
    requires lo <= hi
    ensures |Ticks(resource, lo, hi)| == hi - lo
    ensures forall t :: t in Ticks(resource, lo, hi) <==> t.0 == resource && lo < t.1 <= hi
    decreases hi - lo
  {
    if lo < hi {
      TicksAre(resource, lo, hi - 1);
    }
  }

  ghost function RowTicks(a: Appointment, offset: int): set<(Key, int)> {
    Ticks(a.resource, ToLocal(a.startAt, offset) / MINUTE, ToLocal(a.endAt, offset) / MINUTE)
  }

  ghost function BookedTicks(rows: seq<Appointment>, instance: Key, resource: Key, startAt: int, endAt: int, offset: int)
    : set<(Key, int)>
  {
    if rows == [] then {}
    else (if Counted(rows[0], instance, resource, startAt, endAt) then RowTicks(rows[0], offset) else {})
         + BookedTicks(rows[1..], instance, resource, startAt, endAt, offset)
  }

  ghost function DayTicks(date: int, rows: seq<HoursRow>): set<(Key, int)> {
    if rows == [] then {}
    else (if rows[0].weekday == WeekdayOf(date)
          then Ticks(rows[0].resource, date * 1440 + rows[0].opensAt / MINUTE, date * 1440 + rows[0].closesAt / MINUTE)
          else {})
         + DayTicks(date, rows[1..])
  }

  ghost function OpenTicks(first: int, days: nat, rows: seq<HoursRow>): set<(Key, int)> {
    if days == 0 then {} else OpenTicks(first, days - 1, rows) + DayTicks(first + days - 1, rows)
  }

  lemma {:induction false} DayTicksBound(date: int, rows: seq<HoursRow>)
    ensures |DayTicks(date, rows)| <= MinutesOfDay(date, rows)
  {
    if rows != [] {
      DayTicksBound(date, rows[1..]);
      TicksAre(rows[0].resource, date * 1440 + rows[0].opensAt / MINUTE, date * 1440 + rows[0].closesAt / MINUTE);
    }
  }

  lemma {:induction false} OpenTicksBound(first: int, days: nat, rows: seq<HoursRow>)
    ensures |OpenTicks(first, days, rows)| <= MinutesOfDays(first, days, rows)
  {
    if days != 0 {
      OpenTicksBound(first, days - 1, rows);
      DayTicksBound(first + days - 1, rows);
    }
  }

  lemma {:induction false} DayTicksHold(date: int, rows: seq<HoursRow>, k: nat)
    requires k < |rows| && rows[k].weekday == WeekdayOf(date)
    ensures Ticks(rows[k].resource, date * 1440 + rows[k].opensAt / MINUTE, date * 1440 + rows[k].closesAt / MINUTE) <= DayTicks(date, rows)
  {
    if k > 0 {
      assert rows[k] == rows[1..][k - 1];
      DayTicksHold(date, rows[1..], k - 1);
    }
  }

  lemma {:induction false} OpenTicksHold(first: int, days: nat, rows: seq<HoursRow>, date: int)
    requires first <= date < first + days
    ensures DayTicks(date, rows) <= OpenTicks(first, days, rows)
  {
    if date < first + days - 1 {
      OpenTicksHold(first, days - 1, rows, date);
    }
  }

  /** A row owns exactly one tick per booked minute. */
  lemma RowTicksCount(a: Appointment, offset: int)
    requires Conserved(a)
    ensures |RowTicks(a, offset)| == a.totalMinutes
  {
    var s := ToLocal(a.startAt, offset);
    assert (s + a.totalMinutes * 60) / 60 == s / 60 + a.totalMinutes;
    TicksAre(a.resource, s / MINUTE, ToLocal(a.endAt, offset) / MINUTE);
  }

  lemma RowTicksFitInterval(a: Appointment, h: HoursRow, offset: int)
    requires Conserved(a) && InsideInterval(h, offset, a)
    ensures var date := DateOf(ToLocal(a.startAt, offset));
            RowTicks(a, offset) <= Ticks(h.resource, date * 1440 + h.opensAt / MINUTE, date * 1440 + h.closesAt / MINUTE)
  {
    var s, e := ToLocal(a.startAt, offset), ToLocal(a.endAt, offset);
    var date := DateOf(s);
    CombineRoundTrip(0, 0, s);
    CombineRoundTrip(0, 0, e);
    MinuteOfDay(date, TimeOf(s));
    MinuteOfDay(date, TimeOf(e));
    TicksAre(a.resource, s / MINUTE, e / MINUTE);
    TicksAre(h.resource, date * 1440 + h.opensAt / MINUTE, date * 1440 + h.closesAt / MINUTE);
  }

  /** A booked row's ticks are ticks of the month's opening hours. */
  lemma RowTicksAreOpen(a: Appointment, hours: seq<HoursRow>, offset: int, instance: Key, resource: Key, first: int, days: nat)
    requires Conserved(a) && InsideHours(hours, offset, a)
    requires a.instance == instance && (resource == "all" || a.resource == resource)
    requires first <= DateOf(ToLocal(a.startAt, offset)) < first + days
    ensures RowTicks(a, offset) <= OpenTicks(first, days, DashboardHours(hours, instance, resource))
  {
    var date, rows := DateOf(ToLocal(a.startAt, offset)), DashboardHours(hours, instance, resource);
    var j :| 0 <= j < |hours| && InsideInterval(hours[j], offset, a);
    assert hours[j] in rows;
    var k :| 0 <= k < |rows| && rows[k] == hours[j];
    RowTicksFitInterval(a, rows[k], offset);
    DayTicksHold(date, rows, k);
    OpenTicksHold(first, days, rows, date);
  }

  lemma MinuteOfDay(date: int, time: TimeOfDay)
    ensures CombineLocal(date, time) / MINUTE == date * 1440 + time / MINUTE
  {
  }

  /** Two booked rows of a shop never share a tick. */
  lemma RowTicksAreDisjoint(a: Appointment, b: Appointment, offset: int)
    requires Conserved(a) && Conserved(b) && a.instance == b.instance && a.status.Scheduled? && b.status.Scheduled?
    requires !Blocks(b, a.instance, a.resource, a.startAt, a.endAt)
    ensures RowTicks(a, offset) !! RowTicks(b, offset)
  {
    TicksAre(a.resource, ToLocal(a.startAt, offset) / MINUTE, ToLocal(a.endAt, offset) / MINUTE);
    TicksAre(b.resource, ToLocal(b.startAt, offset) / MINUTE, ToLocal(b.endAt, offset) / MINUTE);
  }

  ghost predicate Bookings(rows: seq<Appointment>) {
    && NoDoubleBooking(rows)
    && forall i :: 0 <= i < |rows| ==> Conserved(rows[i]) && !rows[i].status.Completed?
  }

  lemma {:induction false} BookedTicksAvoid(rows: seq<Appointment>, k: nat, instance: Key, resource: Key, startAt: int, endAt: int, offset: int)
    requires Bookings(rows) && 0 < k <= |rows| && Counted(rows[0], instance, resource, startAt, endAt)
    ensures RowTicks(rows[0], offset) !! BookedTicks(rows[k..], instance, resource, startAt, endAt, offset)
    decreases |rows| - k
  {
    if k < |rows| {
      assert rows[k..][1..] == rows[k + 1..];
      BookedTicksAvoid(rows, k + 1, instance, resource, startAt, endAt, offset);
      if Counted(rows[k], instance, resource, startAt, endAt) {
        RowTicksAreDisjoint(rows[0], rows[k], offset);
      }
    }
  }

  lemma TailOfBookings(rows: seq<Appointment>)
    requires Bookings(rows) && rows != []
    ensures Bookings(rows[1..])
  {
    forall i | 0 <= i < |rows| - 1 ensures rows[1..][i] == rows[i + 1] {
    }
  }

  /** The booked minutes are counted by the ticks. */
  lemma {:induction false} BookedTicksCount(rows: seq<Appointment>, instance: Key, resource: Key, startAt: int, endAt: int, offset: int)
    requires Bookings(rows)
    ensures |BookedTicks(rows, instance, resource, startAt, endAt, offset)| == ScheduledMinutes(rows, instance, resource, startAt, endAt)
  {
    if rows != [] {
      TailOfBookings(rows);
      BookedTicksCount(rows[1..], instance, resource, startAt, endAt, offset);
      if Counted(rows[0], instance, resource, startAt, endAt) {
        RowTicksCount(rows[0], offset);
        BookedTicksAvoid(rows, 1, instance, resource, startAt, endAt, offset);
      }
    }
  }

  lemma {:induction false} BookedTicksAreOpen(rows: seq<Appointment>, hours: seq<HoursRow>, instance: Key, resource: Key,
                                              startAt: int, endAt: int, offset: int, first: int, days: nat)
    requires Bookings(rows)
    requires forall i :: 0 <= i < |rows| && rows[i].status.Scheduled? ==> InsideHours(hours, offset, rows[i])
    requires forall t :: startAt <= t < endAt ==> first <= DateOf(ToLocal(t, offset)) < first + days
    ensures BookedTicks(rows, instance, resource, startAt, endAt, offset)
         <= OpenTicks(first, days, DashboardHours(hours, instance, resource))
  {
    if rows != [] {
      TailOfBookings(rows);
      BookedTicksAreOpen(rows[1..], hours, instance, resource, startAt, endAt, offset, first, days);
      if Counted(rows[0], instance, resource, startAt, endAt) {
        RowTicksAreOpen(rows[0], hours, offset, instance, resource, first, days);
      }
    }
  }

  lemma {:induction false} SubsetIsSmaller<T>(a: set<T>, b: set<T>)
    requires a <= b
    ensures |a| <= |b|
  {
    assert b == a + (b - a);
  }

  // ---------------------------------------------------------------- the bound

  lemma PackingBoundHere(st: Store, cfg: Settings, m: Month, resource: Key, instance: Key)
    requires m.Valid() && AgendaOk(st) && HoursRespected(st, cfg)
    ensures var (startAt, endAt) := MonthRange(m, cfg.utcOffset);
            ScheduledMinutes(st.appointments, instance, resource, startAt, endAt)
              <= AvailableMinutes(m, DashboardHours(st.hours, instance, resource))
  {
    var (startAt, endAt) := MonthRange(m, cfg.utcOffset);
    var first, days := FirstOrdinal(m), DaysInMonth(m);
    var rows := DashboardHours(st.hours, instance, resource);
    MonthLength(m);
    BookedTicksCount(st.appointments, instance, resource, startAt, endAt, cfg.utcOffset);
    BookedTicksAreOpen(st.appointments, st.hours, instance, resource, startAt, endAt, cfg.utcOffset, first, days);
    OpenTicksBound(first, days, rows);
    SubsetIsSmaller(BookedTicks(st.appointments, instance, resource, startAt, endAt, cfg.utcOffset), OpenTicks(first, days, rows));
  }

  /**
   * Packing: after any run of creates, cancels, reschedules and catalog edits under fixed opening
   * hours, whatever overlaps those intervals have among themselves, a chair's (or the whole shop's)
   * booked minutes of a month fit in the month's available minutes.
   */
  lemma PackingBound(st: Store, cfg: Settings, steps: seq<Step>, m: Month, resource: Key, instance: Key)
    requires m.Valid() && AgendaOk(st) && HoursRespected(st, cfg)
    requires forall i :: 0 <= i < |steps| ==> !steps[i].EditHours?
    ensures var final := Run(st, cfg, steps);
            var (startAt, endAt) := MonthRange(m, cfg.utcOffset);
            ScheduledMinutes(final.appointments, instance, resource, startAt, endAt)
              <= AvailableMinutes(m, DashboardHours(st.hours, instance, resource))
  {
    RunKeepsAgenda(st, cfg, steps);
    RunRespectsHours(st, cfg, steps);
    PackingBoundHere(Run(st, cfg, steps), cfg, m, resource, instance);
  }

  /** The occupancy in percent, before rounding, or none without opening hours. */
  function Occupancy(scheduled: int, available: int): Option<real> {
    if available == 0 then None else Some(scheduled as real / available as real * 100.0)
  }

  /** `hundredths` is `x` rounded to two decimals; on a tie either neighbour will do. */
  predicate RoundsTo(x: real, hundredths: int) {
    x * 100.0 - 0.5 <= hundredths as real <= x * 100.0 + 0.5
  }

  /** What the dashboard may show as `occupancy_percent`, in hundredths of a percent. */
  ghost predicate AtMostFull(scheduled: int, available: int) {
    && (available == 0 ==> scheduled == 0)
    && (Occupancy(scheduled, available).Some? ==>
          && 0.0 <= Occupancy(scheduled, available).value <= 100.0
          && forall hundredths: int :: RoundsTo(Occupancy(scheduled, available).value, hundredths) ==> 0 <= hundredths <= 10000)
  }

  lemma OccupancyAtMostFull(st: Store, cfg: Settings, steps: seq<Step>, m: Month, resource: Key, instance: Key)
    requires m.Valid() && AgendaOk(st) && HoursRespected(st, cfg)
    requires forall i :: 0 <= i < |steps| ==> !steps[i].EditHours?
    ensures var (startAt, endAt) := MonthRange(m, cfg.utcOffset);
            AtMostFull(ScheduledMinutes(Run(st, cfg, steps).appointments, instance, resource, startAt, endAt),
                       AvailableMinutes(m, DashboardHours(st.hours, instance, resource)))
  {
    var (startAt, endAt) := MonthRange(m, cfg.utcOffset);
    var final := Run(st, cfg, steps);
    var scheduled := ScheduledMinutes(final.appointments, instance, resource, startAt, endAt);
    PackingBound(st, cfg, steps, m, resource, instance);
    RunKeepsAgenda(st, cfg, steps);
    BookedTicksCount(final.appointments, instance, resource, startAt, endAt, cfg.utcOffset);
    FitsInFull(scheduled, AvailableMinutes(m, DashboardHours(st.hours, instance, resource)));
  }

  lemma FitsInFull(scheduled: int, available: int)
    requires 0 <= scheduled <= available
    ensures AtMostFull(scheduled, available)
  {
    if available > 0 {
      RatioAtMostOne(scheduled as real, available as real);
    }
  }

  lemma RatioAtMostOne(a: real, b: real)
    requires 0.0 <= a <= b && 0.0 < b
    ensures 0.0 <= a / b <= 1.0
  {
  }
}
