/**
 * The two-step confirmation desk: an action is prepared and previewed first, and executed only when
 * a different message confirms it. Each function below is one committed transaction.
 */
module PendingActions {
  import opened Prelude
  import opened Calendar
  import opened Agenda

  // ------------------------------------------------------------------- tables

  datatype Message = Message(id: Key, instance: string, phone: Option<string>, messageType: string, text: Option<string>)

  /** What will be executed; times are stored as HH:MM text. */
  datatype Payload =
    | CreatePayload(serviceIds: seq<Key>, date: int, startText: string, customerName: Option<string>, resource: Key)
    | CancelPayload(appointmentId: nat, reason: Option<string>)
    | ReschedulePayload(appointmentId: nat, date: int, startText: string, resource: Key)

  /** What the customer was shown. */
  datatype Preview =
    | CreatePreview(date: int, startText: string, endText: string, services: seq<Snapshot>,
                    totalMinutes: int, totalCents: int, resource: Key)
    | AppointmentPreview(id: nat, code: Key, status: AppointmentStatus, date: int, startText: string, endText: string,
                         services: seq<Snapshot>, totalMinutes: int, totalCents: int, resource: Key)
    | ReschedulePreview(current: Preview, newDate: int, newStartText: string, newEndText: string, newResource: Key)

  datatype ActionStatus = Awaiting | Executing | Done | Rejected | Expired | Failed | Superseded

  datatype Action = Action(
    instance: Key,
    phone: Key,
    payload: Payload,
    preview: Preview,
    fingerprint: Key,
    preparedFrom: Key,
    preparedAt: int,
    expiresAt: int,
    status: ActionStatus,
    attempts: nat,
    confirmedBy: Option<Key>,
    result: Option<nat>)

  datatype Desk = Desk(store: Store, actions: seq<Action>)

  /** The hash and the confirmation phrases are fixed functions of their input. */
  datatype DeskConfigRecord = DeskConfig(
    scheduling: Settings,
    ttlMinutes: int,
    fingerprint: Preview -> Key,
    isConfirmation: string -> bool,
    isRejection: string -> bool)

  type DeskConfig = c: DeskConfigRecord | 0 < c.ttlMinutes
    witness DeskConfig(Settings(0, 0, 1, 1, 1, "m", {}), 1, _ => "", _ => false, _ => false)

  datatype DeskError =
    | Scheduling(error: SchedulingError)
    | BarberUnavailable
    | NoPendingAction
    | ConfirmationRequiresNewMessage
    | ConfirmationNotExplicit
    | ConfirmationDataChanged
    | RejectionNotExplicit

  // ----------------------------------------------------------------- identity

  function RawPhone(msg: Message): string {
    if msg.phone.Some? then msg.phone.value else ""
  }

  /** Instance and phone of the sender, cleaned, or the validation error. */
  function Identity(cfg: DeskConfig, msg: Message): (r: Result<CustomerKey, DeskError>)
    ensures r.Success? ==> r.value == CustomerKey(Strip(msg.instance), Strip(RawPhone(msg)))
  {
    if Strip(msg.instance) == "" then Failure(Scheduling(InvalidAppointmentTime))
    else if !IsPhone(Strip(RawPhone(msg))) then Failure(Scheduling(InvalidPhone))
    else Success(CustomerKey(Strip(msg.instance), Strip(RawPhone(msg))))
  }

  /** Only non-blank text of a text message can confirm or reject. */
  function CandidateText(msg: Message): string {
    if msg.messageType == "text" && msg.text.Some? && !IsBlank(msg.text.value) then msg.text.value else ""
  }

  // ------------------------------------------------------ repository statements

  predicate Belongs(a: Action, who: CustomerKey) {
    a.instance == who.instance && a.phone == who.phone
  }

  predicate AwaitingOf(a: Action, who: CustomerKey) {
    Belongs(a, who) && a.status.Awaiting?
  }

  /** `expire_pending_actions`: a bulk update. */
  function ExpireActions(actions: seq<Action>, who: CustomerKey, now: int): (r: seq<Action>)
    ensures |r| == |actions|
  {
    seq(|actions|, i requires 0 <= i < |actions| =>
      if AwaitingOf(actions[i], who) && actions[i].expiresAt <= now then actions[i].(status := Expired) else actions[i])
  }

  /** `supersede_active_pending_action`: a bulk update. */
  function SupersedeActions(actions: seq<Action>, who: CustomerKey): (r: seq<Action>)
    ensures |r| == |actions|
  {
    seq(|actions|, i requires 0 <= i < |actions| =>
      if AwaitingOf(actions[i], who) then actions[i].(status := Superseded) else actions[i])
  }

  /** `get_pending_action_for_update`: the newest awaiting action of the customer. */
  function FindAwaiting(actions: seq<Action>, who: CustomerKey): (r: Option<nat>)
    ensures r.Some? ==> r.value < |actions| && AwaitingOf(actions[r.value], who)
    ensures r.Some? ==> forall i :: r.value < i < |actions| ==> !AwaitingOf(actions[i], who)
    ensures r.None? ==> forall i :: 0 <= i < |actions| ==> !AwaitingOf(actions[i], who)
  {
    if actions == [] then None
    else if AwaitingOf(actions[|actions| - 1], who) then Some(|actions| - 1)
    else FindAwaiting(actions[..|actions| - 1], who)
  }

  // ------------------------------------------------------------------ prepare

  datatype CreateArgs = CreateArgs(serviceIds: seq<Key>, date: int, start: TimeOfDay, customerName: Option<string>, resource: string)

  datatype RescheduleArgs = RescheduleArgs(appointmentId: nat, date: int, start: TimeOfDay, resource: Option<string>)

  /** `_store_action`: expire, supersede, insert, in one transaction. */
  function StoreAction(cfg: DeskConfig, actions: seq<Action>, msg: Message, who: CustomerKey,
                       payload: Payload, preview: Preview, now: int): seq<Action>
  {
    SupersedeActions(ExpireActions(actions, who, now), who)
    + [Action(who.instance, who.phone, payload, preview, cfg.fingerprint(preview), msg.id, now,
              now + cfg.ttlMinutes * MINUTE, Awaiting, 0, None, None)]
  }

  predicate ChairAllowed(d: Desk, cfg: DeskConfig, instance: Key, resource: Key) {
    resource == cfg.scheduling.defaultResource || resource in Bookable(d.store.resources, instance)
  }

  /** The wall-clock time at which a service of this length ends, as shown. */
  function EndText(date: int, start: TimeOfDay, minutes: int): string {
    FormatHhmm(TimeOf(CombineLocal(date, start) + minutes * MINUTE))
  }

  function PlanCreate(d: Desk, cfg: DeskConfig, who: CustomerKey, args: CreateArgs, now: int)
    : Result<(Payload, Preview), DeskError>
  {
    var resource := Strip(args.resource);
    if resource == "" then Failure(Scheduling(InvalidAppointmentTime))
    else if |args.serviceIds| > cfg.scheduling.maxServices then Failure(Scheduling(ServiceNotFound))
    else if !ChairAllowed(d, cfg, who.instance, resource) then Failure(BarberUnavailable)
    else match ActiveServices(cfg.scheduling, d.store.services, args.serviceIds)
      case Failure(e) => Failure(Scheduling(e))
      case Success(services) =>
        var minutes := TotalMinutes(services);
        match PlanSlot(d.store, cfg.scheduling, who.instance, resource, args.date, args.start, minutes, now, None)
        case Failure(e) => Failure(Scheduling(e))
        case Success(_) =>
          Success((CreatePayload(args.serviceIds, args.date, FormatHhmm(args.start), args.customerName, resource),
                   CreatePreview(args.date, FormatHhmm(args.start), EndText(args.date, args.start, minutes), services,
                                 minutes, TotalCents(services), resource)))
  }

  function PreviewOf(cfg: DeskConfig, id: nat, a: Appointment): Preview {
    var localStart, localEnd := ToLocal(a.startAt, cfg.scheduling.utcOffset), ToLocal(a.endAt, cfg.scheduling.utcOffset);
    AppointmentPreview(id, a.code, a.status, DateOf(localStart), FormatHhmm(TimeOf(localStart)), FormatHhmm(TimeOf(localEnd)),
                       a.services, a.totalMinutes, a.totalCents, a.resource)
  }

  function OwnedScheduled(d: Desk, who: CustomerKey, id: nat): (r: Result<Appointment, DeskError>)
    ensures r.Success? ==> id < |d.store.appointments| && r.value == d.store.appointments[id]
  {
    match Owned(d.store, who.instance, who.phone, id)
    case Failure(e) => Failure(Scheduling(e))
    case Success(a) => if a.status.Scheduled? then Success(a) else Failure(Scheduling(AppointmentNotScheduled))
  }

  function PlanCancel(d: Desk, cfg: DeskConfig, who: CustomerKey, id: nat, reason: Option<string>)
    : Result<(Payload, Preview), DeskError>
  {
    match OwnedScheduled(d, who, id)
    case Failure(e) => Failure(e)
    case Success(a) => Success((CancelPayload(id, SanitizeText(reason, 500)), PreviewOf(cfg, id, a)))
  }

  function PlanReschedule(d: Desk, cfg: DeskConfig, who: CustomerKey, args: RescheduleArgs, now: int)
    : Result<(Payload, Preview), DeskError>
  {
    match OwnedScheduled(d, who, args.appointmentId)
    case Failure(e) => Failure(e)
    case Success(a) =>
      var resource := ChosenResource(args.resource, a.resource);
      if !ChairAllowed(d, cfg, who.instance, resource) then Failure(BarberUnavailable)
      else match PlanSlot(d.store, cfg.scheduling, who.instance, resource, args.date, args.start, a.totalMinutes, now, Some(args.appointmentId))
        case Failure(e) => Failure(Scheduling(e))
        case Success(_) =>
          Success((ReschedulePayload(args.appointmentId, args.date, FormatHhmm(args.start), resource),
                   ReschedulePreview(PreviewOf(cfg, args.appointmentId, a), args.date, FormatHhmm(args.start),
                                     EndText(args.date, args.start, a.totalMinutes), resource)))
  }

  /** The three things a customer can ask to prepare. */
  datatype Proposal =
    | ProposeCreate(create: CreateArgs)
    | ProposeCancel(appointmentId: nat, reason: Option<string>)
    | ProposeReschedule(reschedule: RescheduleArgs)

  function Plan(d: Desk, cfg: DeskConfig, who: CustomerKey, proposal: Proposal, now: int): Result<(Payload, Preview), DeskError> {
    match proposal
    case ProposeCreate(args) => PlanCreate(d, cfg, who, args, now)
    case ProposeCancel(id, reason) => PlanCancel(d, cfg, who, id, reason)
    case ProposeReschedule(args) => PlanReschedule(d, cfg, who, args, now)
  }

  /** `prepare_create`, `prepare_cancel` and `prepare_reschedule`; an error commits nothing. */
  function Prepare(d: Desk, cfg: DeskConfig, msg: Message, proposal: Proposal, now: int): (Desk, Result<nat, DeskError>) {
    match Identity(cfg, msg)
    case Failure(e) => (d, Failure(e))
    case Success(who) =>
      match Plan(d, cfg, who, proposal, now)
      case Failure(e) => (d, Failure(e))
      case Success((payload, preview)) =>
        (d.(actions := StoreAction(cfg, d.actions, msg, who, payload, preview, now)), Success(|d.actions|))
  }

  // ------------------------------------------------------------------ confirm

  /**
   * First commit of a confirmation: claim the awaiting action. The errors raised before the commit
   * leave even the expiry update unwritten.
   */
  function BeginConfirm(d: Desk, cfg: DeskConfig, msg: Message, now: int): (Desk, Result<nat, DeskError>) {
    match Identity(cfg, msg)
    case Failure(e) => (d, Failure(e))
    case Success(who) =>
      var actions := ExpireActions(d.actions, who, now);
      match FindAwaiting(actions, who)
      case None => (d, Failure(NoPendingAction))
      case Some(id) =>
        var a := actions[id];
        if a.preparedFrom == msg.id then (d, Failure(ConfirmationRequiresNewMessage))
        else if !cfg.isConfirmation(CandidateText(msg)) then (d, Failure(ConfirmationNotExplicit))
        else if cfg.fingerprint(a.preview) != a.fingerprint then
          (d.(actions := actions[id := a.(status := Failed)]), Failure(ConfirmationDataChanged))
        else
          (d.(actions := actions[id := a.(status := Executing, attempts := a.attempts + 1)]), Success(id))
  }

  /** Second commit: the agenda transaction of the claimed action, under its own idempotency key. */
  function ExecuteAction(st: Store, cfg: DeskConfig, id: nat, payload: Payload, msg: Message, now: int, draws: CodeDraws)
    : (Store, Result<Booking, SchedulingError>)
  {
    match payload
    case CreatePayload(ids, date, startText, name, resource) =>
      var start := ParseHhmm(startText);
      if start < 0 then (st, Failure(InvalidAppointmentTime))
      else Create(st, cfg.scheduling,
                  CreateRequest(msg.instance, RawPhone(msg), name, ids, date, start, Some(resource), Some(PendingActionKey(id))),
                  now, draws)
    case CancelPayload(appointmentId, reason) =>
      Cancel(st, msg.instance, RawPhone(msg), appointmentId, reason, now)
    case ReschedulePayload(appointmentId, date, startText, resource) =>
      var start := ParseHhmm(startText);
      if start < 0 then (st, Failure(InvalidAppointmentTime))
      else Reschedule(st, cfg.scheduling,
                      RescheduleRequest(msg.instance, RawPhone(msg), appointmentId, date, start, Some(resource)), now)
  }

  /** Third commit: record the outcome on the action row. */
  function CompleteAction(actions: seq<Action>, id: nat, confirmedBy: Key, appointment: nat): (r: seq<Action>)
    ensures |r| == |actions|
  {
    if id >= |actions| then actions
    else actions[id := actions[id].(status := Done, confirmedBy := Some(confirmedBy), result := Some(appointment))]
  }

  /** Recovery after a failed execution: look the row up among the awaiting ones and mark it failed. */
  function RecoverFailed(actions: seq<Action>, id: nat, who: CustomerKey): seq<Action> {
    if FindAwaiting(actions, who) == Some(id) then actions[id := actions[id].(status := Failed)] else actions
  }

  /** `confirm_pending_action` run without a crash and without other transactions in between. */
  function Confirm(d: Desk, cfg: DeskConfig, msg: Message, now: int, executedAt: int, draws: CodeDraws)
    : (Desk, Result<Booking, DeskError>)
  {
    match BeginConfirm(d, cfg, msg, now)
    case (d1, Failure(e)) => (d1, Failure(e))
    case (d1, Success(id)) =>
      if id >= |d1.actions| then (d1, Failure(NoPendingAction))
      else match ExecuteAction(d1.store, cfg, id, d1.actions[id].payload, msg, executedAt, draws)
        case (st, Failure(e)) =>
          (Desk(st, RecoverFailed(d1.actions, id, CustomerKey(Strip(msg.instance), Strip(RawPhone(msg))))), Failure(Scheduling(e)))
        case (st, Success(b)) => (Desk(st, CompleteAction(d1.actions, id, msg.id, b.id)), Success(b))
  }

  // ------------------------------------------------------------------ discard

  /** `discard_pending_action`. */
  function Discard(d: Desk, cfg: DeskConfig, msg: Message, now: int): (Desk, Result<nat, DeskError>) {
    match Identity(cfg, msg)
    case Failure(e) => (d, Failure(e))
    case Success(who) =>
      if !cfg.isRejection(CandidateText(msg)) then (d, Failure(RejectionNotExplicit))
      else
        var actions := ExpireActions(d.actions, who, now);
        match FindAwaiting(actions, who)
        case None => (d, Failure(NoPendingAction))
        case Some(id) => (d.(actions := actions[id := actions[id].(status := Rejected)]), Success(id))
  }
}
