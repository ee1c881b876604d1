/**
 * Bookings by several workers at once: each transaction checks the slot against the rows it sees
 * and writes later, so another transaction may write in between. The table's constraints are
 * evaluated when the write is made: no two scheduled rows of a chair overlap, idempotency keys
 * and confirmation codes are unique.
 */
module ConcurrentBooking {
  import opened Prelude
  import opened Agenda
  import opened AgendaSafety

  /** A transaction whose checks have passed and whose write is still to come. */
  datatype Txn =
    | Inserting(row: Appointment, name: Option<string>)
    | Moving(id: nat, resource: Key, startAt: int, endAt: int)
    | Cancelling(id: nat, at: Option<int>, reason: Option<string>)

  datatype World = World(store: Store, open: map<nat, Txn>)

  datatype Event =
    | BeginCreate(worker: nat, create: CreateRequest, now: int, draws: CodeDraws)
    | BeginReschedule(worker: nat, reschedule: RescheduleRequest, now: int)
    | BeginCancel(worker: nat, instance: string, phone: string, id: nat, reason: Option<string>, now: int)
    | Write(worker: nat, keyFirst: bool)
    | Crash(worker: nat)
    | Edit(services: map<Key, ServiceRow>, hours: seq<HoursRow>, resources: seq<ResourceRow>)

  datatype WriteOutcome = Written(id: nat) | RejectedOverlap | RejectedKey | RejectedCode

  predicate KeyTaken(rows: seq<Appointment>, key: Option<IdempotencyKey>) {
    key.Some? && FindKey(rows, key.value).Some?
  }

  /**
   * The write statement and the constraint that may refuse it. `keyFirst` is the database's choice
   * of which violated constraint to report.
   */
  function Commit(st: Store, txn: Txn, keyFirst: bool): (Store, WriteOutcome) {
    match txn
    case Inserting(row, name) =>
      if keyFirst && KeyTaken(st.appointments, row.idempotencyKey) then (st, RejectedKey)
      else if Conflicts(st.appointments, row.instance, row.resource, row.startAt, row.endAt, None) then (st, RejectedOverlap)
      else if KeyTaken(st.appointments, row.idempotencyKey) then (st, RejectedKey)
      else if CodeTaken(st.appointments, row.code) then (st, RejectedCode)
      else (st.(appointments := st.appointments + [row], customers := UpsertCustomer(st.customers, row.customer, name)),
            Written(|st.appointments|))
    case Moving(id, resource, startAt, endAt) =>
      if id >= |st.appointments| then (st, Written(id))
      else
        var row := st.appointments[id].(resource := resource, startAt := startAt, endAt := endAt);
        if row.status.Scheduled? && Conflicts(st.appointments, row.instance, resource, startAt, endAt, Some(id))
        then (st, RejectedOverlap)
        else (st.(appointments := st.appointments[id := row]), Written(id))
    case Cancelling(id, at, reason) =>
      if id >= |st.appointments| then (st, Written(id))
      else
        var row := st.appointments[id].(status := Cancelled, cancelledAt := at, cancellationReason := reason);
        (st.(appointments := st.appointments[id := row]), Written(id))
  }

  function Open(w: World, worker: nat, txn: Txn): World {
    if worker in w.open then w else w.(open := w.open[worker := txn])
  }

  function Close(w: World, worker: nat): World {
    w.(open := w.open - {worker})
  }

  function Next(w: World, cfg: Settings, e: Event): World {
    match e
    case BeginCreate(worker, req, now, draws) =>
      var r := Create(w.store, cfg, req, now, draws).1;
      if r.Success? && r.value.created then Open(w, worker, Inserting(r.value.row, SanitizeText(req.customerName, 120))) else w
    case BeginReschedule(worker, req, now) =>
      var r := Reschedule(w.store, cfg, req, now).1;
      if r.Success? then Open(w, worker, Moving(req.id, r.value.row.resource, r.value.row.startAt, r.value.row.endAt)) else w
    case BeginCancel(worker, instance, phone, id, reason, now) =>
      var r := Cancel(w.store, instance, phone, id, reason, now).1;
      if r.Success? then Open(w, worker, Cancelling(id, r.value.row.cancelledAt, r.value.row.cancellationReason)) else w
    case Write(worker, keyFirst) =>
      if worker in w.open then Close(w.(store := Commit(w.store, w.open[worker], keyFirst).0), worker) else w
    case Crash(worker) => Close(w, worker)
    case Edit(services, hours, resources) =>
      w.(store := w.store.(services := services, hours := hours, resources := resources))
  }

  function Reach(w: World, cfg: Settings, events: seq<Event>): World
    decreases |events|
  {
    if events == [] then w else Reach(Next(w, cfg, events[0]), cfg, events[1..])
  }

  // ------------------------------------------------------------------- safety

  /** What the checks established that later writes of others cannot take away. */
  ghost predicate TxnOk(st: Store, txn: Txn) {
    match txn
    case Inserting(row, _) => Conserved(row) && row.status.Scheduled? && row.customer.instance == row.instance
    case Moving(id, _, startAt, endAt) =>
      id < |st.appointments| && endAt - startAt == st.appointments[id].endAt - st.appointments[id].startAt
    case Cancelling(id, _, _) => id < |st.appointments|
  }

  ghost predicate WorldOk(w: World) {
    AgendaOk(w.store) && forall k :: k in w.open ==> TxnOk(w.store, w.open[k])
  }

  lemma CreatedRowIsOk(st: Store, cfg: Settings, req: CreateRequest, now: int, draws: CodeDraws)
    requires AgendaOk(st)
    requires Create(st, cfg, req, now, draws).1.Success? && Create(st, cfg, req, now, draws).1.value.created
    ensures TxnOk(st, Inserting(Create(st, cfg, req, now, draws).1.value.row, SanitizeText(req.customerName, 120)))
  {
    var (st', r) := Create(st, cfg, req, now, draws);
    CreateKeepsAgenda(st, cfg, req, now, draws);
    assert st'.appointments[|st.appointments|] == r.value.row;
  }

  lemma MovedRowIsOk(st: Store, cfg: Settings, req: RescheduleRequest, now: int)
    requires AgendaOk(st) && Reschedule(st, cfg, req, now).1.Success?
    ensures var row := Reschedule(st, cfg, req, now).1.value.row;
            TxnOk(st, Moving(req.id, row.resource, row.startAt, row.endAt))
  {
    var (st', r) := Reschedule(st, cfg, req, now);
    RescheduleKeepsAgenda(st, cfg, req, now);
    assert Conserved(st.appointments[req.id]);
    assert st'.appointments[req.id] == r.value.row;
  }

  lemma CommitKeepsAgenda(st: Store, txn: Txn, keyFirst: bool)
    requires AgendaOk(st) && TxnOk(st, txn)
    ensures AgendaOk(Commit(st, txn, keyFirst).0)
  {
    match txn
    case Inserting(row, name) =>
      if Commit(st, txn, keyFirst).1.Written? {
        InsertKeepsAgenda(st, row, UpsertCustomer(st.customers, row.customer, name));
      }
    case Moving(id, resource, startAt, endAt) =>
      if Commit(st, txn, keyFirst).1.Written? {
        assert RowOk(st.customers, st.appointments[id]);
        ReplaceKeepsAgenda(st, id, st.appointments[id].(resource := resource, startAt := startAt, endAt := endAt));
      }
    case Cancelling(id, at, reason) =>
      assert RowOk(st.customers, st.appointments[id]);
      ReplaceKeepsAgenda(st, id, st.appointments[id].(status := Cancelled, cancelledAt := at, cancellationReason := reason));
  }

  /** A write never changes how long another row lasts, so the other open transactions stay sound. */
  lemma CommitKeepsTxns(st: Store, txn: Txn, keyFirst: bool, other: Txn)
    requires TxnOk(st, txn) && TxnOk(st, other)
    ensures TxnOk(Commit(st, txn, keyFirst).0, other)
  {
  }

  lemma EventKeepsWorld(w: World, cfg: Settings, e: Event)
    requires WorldOk(w)
    ensures WorldOk(Next(w, cfg, e))
  {
    match e
    case BeginCreate(worker, req, now, draws) =>
      var r := Create(w.store, cfg, req, now, draws).1;
      if r.Success? && r.value.created {
        CreatedRowIsOk(w.store, cfg, req, now, draws);
      }
    case BeginReschedule(worker, req, now) =>
      if Reschedule(w.store, cfg, req, now).1.Success? {
        MovedRowIsOk(w.store, cfg, req, now);
      }
    case BeginCancel(_, _, _, _, _, _) =>
    case Write(worker, keyFirst) =>
      if worker in w.open {
        CommitKeepsAgenda(w.store, w.open[worker], keyFirst);
        forall k | k in w.open ensures TxnOk(Commit(w.store, w.open[worker], keyFirst).0, w.open[k]) {
          CommitKeepsTxns(w.store, w.open[worker], keyFirst, w.open[k]);
        }
      }
    case Crash(_) =>
    case Edit(_, _, _) =>
  }

  /**
   * No interleaving of any number of workers, whose checks and writes are separate steps and who
   * may crash in between, ever double-books a chair, reuses a key or code, or breaks a total.
   */
  lemma {:induction false} NoInterleavingDoubleBooks(w: World, cfg: Settings, events: seq<Event>)
    requires WorldOk(w)
    ensures WorldOk(Reach(w, cfg, events)) && NoDoubleBooking(Reach(w, cfg, events).store.appointments)
    decreases |events|
  {
    if events != [] {
      EventKeepsWorld(w, cfg, events[0]);
      NoInterleavingDoubleBooks(Next(w, cfg, events[0]), cfg, events[1..]);
    }
  }

  // ------------------------------------------------- relation to atomic steps

  /** Undisturbed, a check followed by its write is the atomic transaction. */
  lemma CheckThenWriteIsAtomic(w: World, cfg: Settings, worker: nat, req: CreateRequest, now: int, draws: CodeDraws, keyFirst: bool)
    requires AgendaOk(w.store) && worker !in w.open
    requires Create(w.store, cfg, req, now, draws).1.Success?
    ensures Reach(w, cfg, [BeginCreate(worker, req, now, draws), Write(worker, keyFirst)])
         == World(Create(w.store, cfg, req, now, draws).0, w.open)
  {
    TwoEvents(w, cfg, BeginCreate(worker, req, now, draws), Write(worker, keyFirst));
    var r := Create(w.store, cfg, req, now, draws).1;
    if r.value.created {
      var txn := Inserting(r.value.row, SanitizeText(req.customerName, 120));
      var checked := World(w.store, w.open[worker := txn]);
      assert Next(w, cfg, BeginCreate(worker, req, now, draws)) == checked;
      CreatedRowIsWritten(w.store, cfg, req, now, draws, keyFirst);
      WriteCloses(w, cfg, worker, txn, keyFirst);
    }
  }

  lemma WriteCloses(w: World, cfg: Settings, worker: nat, txn: Txn, keyFirst: bool)
    requires worker !in w.open
    ensures Next(World(w.store, w.open[worker := txn]), cfg, Write(worker, keyFirst)) == World(Commit(w.store, txn, keyFirst).0, w.open)
  {
    assert w.open[worker := txn] - {worker} == w.open;
  }

  /** Nothing came between: no constraint refuses the row that was checked, and the write is the transaction's. */
  lemma CreatedRowIsWritten(st: Store, cfg: Settings, req: CreateRequest, now: int, draws: CodeDraws, keyFirst: bool)
    requires Create(st, cfg, req, now, draws).1.Success? && Create(st, cfg, req, now, draws).1.value.created
    ensures var (st', r) := Create(st, cfg, req, now, draws);
            Commit(st, Inserting(r.value.row, SanitizeText(req.customerName, 120)), keyFirst) == (st', Written(|st.appointments|))
  {
    var (st', r) := Create(st, cfg, req, now, draws);
    assert st' == st.(appointments := st.appointments + [r.value.row],
                      customers := UpsertCustomer(st.customers, r.value.row.customer, SanitizeText(req.customerName, 120)));
  }

  lemma TwoEvents(w: World, cfg: Settings, first: Event, second: Event)
    ensures Reach(w, cfg, [first, second]) == Next(Next(w, cfg, first), cfg, second)
  {
    assert [first, second][1..] == [second] && [second][1..] == [];
    assert Reach(Next(Next(w, cfg, first), cfg, second), cfg, []) == Next(Next(w, cfg, first), cfg, second);
  }

  /** What the caller of `create_appointment` gets once the write was tried; `Raised` is any other error. */
  datatype Response = Returned(result: Result<Booking, SchedulingError>) | Raised

  function Respond(st: Store, cfg: Settings, req: CreateRequest, row: Appointment, outcome: WriteOutcome): Response {
    match outcome
    case Written(id) => Returned(Success(Booking(id, row, true, false)))
    case RejectedOverlap => Returned(Failure(SlotUnavailable))
    case _ =>
      if KeyTaken(st.appointments, req.idempotencyKey) then
        var id := FindKey(st.appointments, req.idempotencyKey.value).value;
        Returned(if AnswersRequest(st, cfg, id, req) then Success(Booking(id, st.appointments[id], false, true))
                 else Failure(IdempotencyConflict))
      else Raised
  }

  /**
   * When two workers check the same free slot and then write, the first write books it and the
   * second is refused by a constraint, on an unchanged agenda: unless the key answers for it, it
   * reports the slot as unavailable.
   */
  lemma SecondWriterLoses(st: Store, cfg: Settings, first: Txn, second: Txn, keyFirst: bool, keyFirst': bool, req: CreateRequest)
    requires first.Inserting? && second.Inserting? && Commit(st, first, keyFirst).1.Written?
    requires Blocks(first.row, second.row.instance, second.row.resource, second.row.startAt, second.row.endAt)
    requires req.idempotencyKey == second.row.idempotencyKey
    ensures
      var booked := Commit(st, first, keyFirst).0;
      var (after, outcome) := Commit(booked, second, keyFirst');
      && after == booked && !outcome.Written?
      && (!KeyTaken(booked.appointments, req.idempotencyKey) ==>
            Respond(after, cfg, req, second.row, outcome) == Returned(Failure(SlotUnavailable)))
  {
    var rows := st.appointments + [first.row];
    assert rows[|st.appointments|] == first.row;
  }

  /**
   * Keys denote one appointment under concurrency too: once a row carries the key, no write with
   * the same key inserts, and a call that still succeeds returns that very row.
   */
  lemma RacingKeyDenotesOneAppointment(st: Store, cfg: Settings, id: nat, txn: Txn, keyFirst: bool, req: CreateRequest)
    requires AgendaOk(st) && txn.Inserting? && txn.row.idempotencyKey == req.idempotencyKey && req.idempotencyKey.Some?
    requires id < |st.appointments| && st.appointments[id].idempotencyKey == req.idempotencyKey
    ensures
      var (after, outcome) := Commit(st, txn, keyFirst);
      var response := Respond(after, cfg, req, txn.row, outcome);
      && after == st && !outcome.Written?
      && response.Returned?
      && (response.result.Success? ==> response.result.value == Booking(id, st.appointments[id], false, true))
  {
    FindKeyIsUnique(st.appointments, req.idempotencyKey.value, id);
  }

  // --------------------------------------------------- rows over interleavings

  /** What no interleaving can change about a row. */
  ghost predicate SameRecord(a: Appointment, b: Appointment) {
    && a.instance == b.instance && a.customer == b.customer && a.code == b.code && a.idempotencyKey == b.idempotencyKey
    && a.services == b.services && a.totalMinutes == b.totalMinutes && a.totalCents == b.totalCents
    && (!a.status.Scheduled? ==> !b.status.Scheduled?)
  }

  lemma CommitKeepsRecord(st: Store, txn: Txn, keyFirst: bool, i: nat)
    requires i < |st.appointments|
    ensures i < |Commit(st, txn, keyFirst).0.appointments|
    ensures SameRecord(st.appointments[i], Commit(st, txn, keyFirst).0.appointments[i])
  {
  }

  lemma EventKeepsRecord(w: World, cfg: Settings, e: Event, i: nat)
    requires i < |w.store.appointments|
    ensures i < |Next(w, cfg, e).store.appointments|
    ensures SameRecord(w.store.appointments[i], Next(w, cfg, e).store.appointments[i])
  {
    if e.Write? && e.worker in w.open {
      CommitKeepsRecord(w.store, w.open[e.worker], e.keyFirst, i);
    } else {
      assert Next(w, cfg, e).store.appointments == w.store.appointments;
    }
  }

  /** Over every interleaving a row keeps its owner, code, key, ordered snapshots and totals, and is never scheduled again. */
  lemma {:induction false} RowsKeepTheirRecord(w: World, cfg: Settings, events: seq<Event>, i: nat)
    requires i < |w.store.appointments|
    ensures i < |Reach(w, cfg, events).store.appointments|
    ensures SameRecord(w.store.appointments[i], Reach(w, cfg, events).store.appointments[i])
    decreases |events|
  {
    if events != [] {
      EventKeepsRecord(w, cfg, events[0], i);
      RowsKeepTheirRecord(Next(w, cfg, events[0]), cfg, events[1..], i);
    }
  }

  /**
   * A key denotes one appointment over every interleaving: from the moment a row carries it, whatever
   * any number of workers do, no write with that key inserts, and a call that still succeeds returns
   * that row as it then stands.
   */
  lemma {:induction false} KeyStaysOnItsRow(w: World, cfg: Settings, events: seq<Event>, id: nat, txn: Txn, keyFirst: bool, req: CreateRequest)
    requires WorldOk(w) && txn.Inserting? && txn.row.idempotencyKey == req.idempotencyKey && req.idempotencyKey.Some?
    requires id < |w.store.appointments| && w.store.appointments[id].idempotencyKey == req.idempotencyKey
    ensures
      var st := Reach(w, cfg, events).store;
      var (after, outcome) := Commit(st, txn, keyFirst);
      var response := Respond(after, cfg, req, txn.row, outcome);
      && id < |st.appointments| && after == st && !outcome.Written? && response.Returned?
      && (response.result.Success? ==> response.result.value == Booking(id, st.appointments[id], false, true))
  {
    NoInterleavingDoubleBooks(w, cfg, events);
    RowsKeepTheirRecord(w, cfg, events, id);
    RacingKeyDenotesOneAppointment(Reach(w, cfg, events).store, cfg, id, txn, keyFirst, req);
  }

  // --------------------------------------------------- rows that are over

  /** What the write of `txn` leaves in row `i`, when no constraint refuses it. */
  function Rewritten(a: Appointment, txn: Txn, i: nat): Appointment {
    match txn
    case Inserting(_, _) => a
    case Moving(id, resource, startAt, endAt) => if id == i then a.(resource := resource, startAt := startAt, endAt := endAt) else a
    case Cancelling(id, at, reason) =>
      if id == i then a.(status := Cancelled, cancelledAt := at, cancellationReason := reason) else a
  }

  /** No constraint protects a row that is not scheduled: every open write on it goes through. */
  lemma WriteOnEndedRow(w: World, cfg: Settings, worker: nat, keyFirst: bool, i: nat)
    requires i < |w.store.appointments| && !w.store.appointments[i].status.Scheduled? && worker in w.open
    ensures i < |Next(w, cfg, Write(worker, keyFirst)).store.appointments|
    ensures Next(w, cfg, Write(worker, keyFirst)).store.appointments[i] == Rewritten(w.store.appointments[i], w.open[worker], i)
  {
  }

  /** No open transaction would write anything new into row `i`. */
  ghost predicate NoLateWrite(w: World, i: nat)
    requires i < |w.store.appointments|
  {
    forall k :: k in w.open ==> Rewritten(w.store.appointments[i], w.open[k], i) == w.store.appointments[i]
  }

  /** The row is over, and stays as it is through this step. */
  lemma EventKeepsEndedRow(w: World, cfg: Settings, e: Event, i: nat)
    requires i < |w.store.appointments| && !w.store.appointments[i].status.Scheduled? && NoLateWrite(w, i)
    ensures var w' := Next(w, cfg, e);
            && i < |w'.store.appointments| && w'.store.appointments[i] == w.store.appointments[i] && NoLateWrite(w', i)
  {
  }

  lemma {:induction false} EndedRowIsFrozen(w: World, cfg: Settings, events: seq<Event>, i: nat)
    requires i < |w.store.appointments| && !w.store.appointments[i].status.Scheduled? && NoLateWrite(w, i)
    ensures i < |Reach(w, cfg, events).store.appointments|
    ensures Reach(w, cfg, events).store.appointments[i] == w.store.appointments[i]
    decreases |events|
  {
    if events != [] {
      EventKeepsEndedRow(w, cfg, events[0], i);
      EndedRowIsFrozen(Next(w, cfg, events[0]), cfg, events[1..], i);
    }
  }

  ghost predicate RowIs(w: World, i: nat, a: Appointment) {
    i < |w.store.appointments| && w.store.appointments[i] == a
  }

  /**
   * Exactly when a row that is not scheduled is final: no interleaving ever changes it if and only if
   * no worker still holds a checked move or cancellation of it that would write something new.
   */
  lemma {:induction false} EndedRowIsFinalIff(w: World, cfg: Settings, i: nat)
    requires i < |w.store.appointments| && !w.store.appointments[i].status.Scheduled?
    ensures (forall events :: RowIs(Reach(w, cfg, events), i, w.store.appointments[i])) <==> NoLateWrite(w, i)
  {
    if NoLateWrite(w, i) {
      forall events ensures RowIs(Reach(w, cfg, events), i, w.store.appointments[i]) {
        EndedRowIsFrozen(w, cfg, events, i);
      }
    } else {
      var k :| k in w.open && Rewritten(w.store.appointments[i], w.open[k], i) != w.store.appointments[i];
      var events := [Write(k, true)];
      assert events[1..] == [];
      assert Reach(w, cfg, events) == Next(w, cfg, Write(k, true));
      WriteOnEndedRow(w, cfg, k, true, i);
      assert !RowIs(Reach(w, cfg, events), i, w.store.appointments[i]);
    }
  }

  function CancelledAtTen(): Appointment {
    BookedAtTen("55", "A").(status := Cancelled, cancelledAt := Some(0))
  }

  function BothChecked(): World {
    World(SmallShopBooked(), map[1 := Moving(0, "main", 126000, 127800), 2 := Cancelling(0, Some(0), None)])
  }

  lemma MoveAndCancelAreChecked()
    ensures
      var move, cancel := BeginReschedule(1, MoveToEleven(), 0), BeginCancel(2, "shop", "55", 0, None, 0);
      Next(Next(World(SmallShopBooked(), map[]), SmallShopRules(), move), SmallShopRules(), cancel) == BothChecked()
  {
    CleanTexts();
    MovingToEleven();
    var cfg, w0 := SmallShopRules(), World(SmallShopBooked(), map[]);
    var w1 := World(SmallShopBooked(), map[1 := Moving(0, "main", 126000, 127800)]);
    assert Next(w0, cfg, BeginReschedule(1, MoveToEleven(), 0)) == w1;
    assert Owned(SmallShopBooked(), "shop", "55", 0) == Success(BookedAtTen("55", "A"));
    assert Next(w1, cfg, BeginCancel(2, "shop", "55", 0, None, 0)) == BothChecked();
  }

  lemma CancelThenMoveIsWritten(cfg: Settings)
    ensures Next(BothChecked(), cfg, Write(2, true)).store.appointments == [CancelledAtTen()]
    ensures Next(Next(BothChecked(), cfg, Write(2, true)), cfg, Write(1, true)).store.appointments
         == [CancelledAtTen().(startAt := 126000, endAt := 127800)]
  {
    var w := Next(BothChecked(), cfg, Write(2, true));
    assert w.store.appointments == [CancelledAtTen()] && 1 in w.open && w.open[1] == Moving(0, "main", 126000, 127800);
    WriteOnEndedRow(w, cfg, 1, true, 0);
  }

  /**
   * A concrete late write: in the small shop one worker checks a move of the booked appointment to
   * eleven, another checks its cancellation and writes it, and then the first one writes. The
   * cancelled row ends up with the new interval.
   */
  lemma CancelledRowIsMoved()
    ensures
      var w := World(SmallShopBooked(), map[]);
      var checks := [BeginReschedule(1, MoveToEleven(), 0), BeginCancel(2, "shop", "55", 0, None, 0)];
      && Reach(w, SmallShopRules(), checks + [Write(2, true)]).store.appointments == [CancelledAtTen()]
      && Reach(w, SmallShopRules(), checks + [Write(2, true)] + [Write(1, true)]).store.appointments
           == [CancelledAtTen().(startAt := 126000, endAt := 127800)]
  {
    var cfg, w := SmallShopRules(), World(SmallShopBooked(), map[]);
    var move, cancel := BeginReschedule(1, MoveToEleven(), 0), BeginCancel(2, "shop", "55", 0, None, 0);
    MoveAndCancelAreChecked();
    CancelThenMoveIsWritten(cfg);
    TwoEvents(w, cfg, move, cancel);
    ReachSnoc(w, cfg, [move, cancel], Write(2, true));
    ReachSnoc(w, cfg, [move, cancel] + [Write(2, true)], Write(1, true));
  }

  lemma {:induction false} ReachSnoc(w: World, cfg: Settings, events: seq<Event>, last: Event)
    ensures Reach(w, cfg, events + [last]) == Next(Reach(w, cfg, events), cfg, last)
    decreases |events|
  {
    if events == [] {
      assert [] + [last] == [last] && [last][1..] == [];
    } else {
      assert (events + [last])[1..] == events[1..] + [last];
      ReachSnoc(Next(w, cfg, events[0]), cfg, events[1..], last);
    }
  }

  // --------------------------------------------------- without the constraint

  /** The insert as it would be made if the table had no exclusion constraint. */
  function WriteUnconstrained(st: Store, txn: Txn): Store
    requires txn.Inserting?
  {
    st.(appointments := st.appointments + [txn.row], customers := UpsertCustomer(st.customers, txn.row.customer, txn.name))
  }

  function BothBooking(): World {
    World(SmallShop(), map[1 := Inserting(BookedAtTen("55", "A"), None), 2 := Inserting(BookedAtTen("56", "B"), None)])
  }

  lemma BothBookingsAreChecked(draws: CodeDraws, others: CodeDraws)
    requires draws[0] == "A" && others[0] == "B"
    ensures
      var cfg := SmallShopRules();
      Next(Next(World(SmallShop(), map[]), cfg, BeginCreate(1, MondayAtTen("55"), 0, draws)), cfg,
           BeginCreate(2, MondayAtTen("56"), 0, others)) == BothBooking()
  {
    CreatingAtTen("55", draws);
    CreatingAtTen("56", others);
    var w1 := World(SmallShop(), map[1 := Inserting(BookedAtTen("55", "A"), None)]);
    assert Next(World(SmallShop(), map[]), SmallShopRules(), BeginCreate(1, MondayAtTen("55"), 0, draws)) == w1;
    assert Next(w1, SmallShopRules(), BeginCreate(2, MondayAtTen("56"), 0, others)) == BothBooking();
  }

  lemma BothBookingsCollide()
    ensures
      var first, second := BothBooking().open[1], BothBooking().open[2];
      && !NoDoubleBooking(WriteUnconstrained(WriteUnconstrained(SmallShop(), first), second).appointments)
      && Commit(Commit(SmallShop(), first, true).0, second, true).1 == RejectedOverlap
  {
    var first, second := BothBooking().open[1], BothBooking().open[2];
    var a, b := first.row, second.row;
    var rows := WriteUnconstrained(WriteUnconstrained(SmallShop(), first), second).appointments;
    assert rows[0] == a && rows[1] == b && Blocks(rows[1], a.instance, a.resource, a.startAt, a.endAt);
    var written := Commit(SmallShop(), first, true).0;
    assert written.appointments == [a] && Blocks(written.appointments[0], b.instance, b.resource, b.startAt, b.endAt);
    assert !KeyTaken(written.appointments, b.idempotencyKey);
  }

  /**
   * The check alone is not enough: in the small shop two customers ask for Monday at ten and both
   * checks pass. Written without the constraint the two rows double-book the chair; with it, the
   * second write is refused.
   */
  lemma CheckAloneIsNotEnough(draws: CodeDraws, others: CodeDraws)
    requires draws[0] == "A" && others[0] == "B"
    ensures
      var w := Reach(World(SmallShop(), map[]), SmallShopRules(),
                     [BeginCreate(1, MondayAtTen("55"), 0, draws), BeginCreate(2, MondayAtTen("56"), 0, others)]);
      && 1 in w.open && w.open[1].Inserting? && 2 in w.open && w.open[2].Inserting?
      && !NoDoubleBooking(WriteUnconstrained(WriteUnconstrained(w.store, w.open[1]), w.open[2]).appointments)
      && Commit(Commit(w.store, w.open[1], true).0, w.open[2], true).1 == RejectedOverlap
  {
    BothBookingsAreChecked(draws, others);
    BothBookingsCollide();
    TwoEvents(World(SmallShop(), map[]), SmallShopRules(),
              BeginCreate(1, MondayAtTen("55"), 0, draws), BeginCreate(2, MondayAtTen("56"), 0, others));
  }
}
