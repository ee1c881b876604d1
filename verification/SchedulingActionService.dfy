/** The confirmation desk over the mutable tables, one field assignment per statement of the source. */
module SchedulingActionServices {
  import opened Prelude
  import opened Calendar
  import opened Agenda
  import opened SchedulingServices
  import opened PendingActions

  class SchedulingActionService {
    const scheduler: SchedulingService
    const cfg: DeskConfig
    var actions: seq<Action>

    constructor (scheduler: SchedulingService, cfg: DeskConfig)
      ensures this.scheduler == scheduler && this.cfg == cfg && actions == []
    {
      this.scheduler, this.cfg, actions := scheduler, cfg, [];
    }

    ghost predicate Valid()
    {
      scheduler.cfg == cfg.scheduling
    }

    function State(): Desk
      reads this, scheduler.db
    {
      Desk(scheduler.db.State(), actions)
    }

    /** `expire_pending_actions`. */
    method ExpirePendingActions(who: CustomerKey, now: int)
      modifies this`actions
      ensures actions == ExpireActions(old(actions), who, now)
    {
      for i := 0 to |actions|
        invariant |actions| == |old(actions)|
        invariant forall k :: 0 <= k < i ==> actions[k] == ExpireActions(old(actions), who, now)[k]
        invariant forall k :: i <= k < |actions| ==> actions[k] == old(actions)[k]
      {
        if AwaitingOf(actions[i], who) && actions[i].expiresAt <= now {
          actions := actions[i := actions[i].(status := Expired)];
        }
      }
    }

    /** `supersede_active_pending_action`. */
    method SupersedeActivePendingAction(who: CustomerKey)
      modifies this`actions
      ensures actions == SupersedeActions(old(actions), who)
    {
      for i := 0 to |actions|
        invariant |actions| == |old(actions)|
        invariant forall k :: 0 <= k < i ==> actions[k] == SupersedeActions(old(actions), who)[k]
        invariant forall k :: i <= k < |actions| ==> actions[k] == old(actions)[k]
      {
        if AwaitingOf(actions[i], who) {
          actions := actions[i := actions[i].(status := Superseded)];
        }
      }
    }

    /** `_store_action`. */
    method StorePendingAction(msg: Message, who: CustomerKey, payload: Payload, preview: Preview, now: int) returns (id: nat)
      modifies this`actions
      ensures actions == StoreAction(cfg, old(actions), msg, who, payload, preview, now)
      ensures id == |old(actions)| && |actions| == id + 1
      ensures forall i :: 0 <= i < |actions| ==> (AwaitingOf(actions[i], who) <==> i == id)
    {
      ExpirePendingActions(who, now);
      SupersedeActivePendingAction(who);
      var expiresAt := now + cfg.ttlMinutes * MINUTE;
      id := |actions|;
      actions := actions + [Action(who.instance, who.phone, payload, preview, cfg.fingerprint(preview), msg.id, now,
                                   expiresAt, Awaiting, 0, None, None)];
    }

    /** The validation and preview part of `prepare_create`. */
    method PreviewCreate(who: CustomerKey, args: CreateArgs, now: int) returns (r: Result<(Payload, Preview), DeskError>)
      requires Valid()
      ensures r == PlanCreate(State(), cfg, who, args, now)
    {
      var resource := Strip(args.resource);
      if resource == "" { return Failure(Scheduling(InvalidAppointmentTime)); }
      if |args.serviceIds| > cfg.scheduling.maxServices { return Failure(Scheduling(ServiceNotFound)); }
      if !ChairAllowed(State(), cfg, who.instance, resource) { return Failure(BarberUnavailable); }
      var services := GetActiveServicesByIds(scheduler.db, cfg.scheduling, args.serviceIds);
      if services.Failure? { return Failure(Scheduling(services.error)); }
      var minutes := TotalMinutes(services.value);
      var slot := scheduler.CheckSlot(who.instance, resource, args.date, args.start, minutes, now, None);
      if slot.Failure? { return Failure(Scheduling(slot.error)); }
      var startText := FormatHhmm(args.start);
      var endText := EndText(args.date, args.start, minutes);
      r := Success((CreatePayload(args.serviceIds, args.date, startText, args.customerName, resource),
                    CreatePreview(args.date, startText, endText, services.value, minutes, TotalCents(services.value), resource)));
    }

    method PrepareCreate(msg: Message, args: CreateArgs, now: int) returns (r: Result<nat, DeskError>)
      requires Valid()
      modifies this`actions
      ensures (State(), r) == Prepare(old(State()), cfg, msg, ProposeCreate(args), now)
    {
      var who := Identity(cfg, msg);
      if who.Failure? { return Failure(who.error); }
      var plan := PreviewCreate(who.value, args, now);
      if plan.Failure? { return Failure(plan.error); }
      var id := StorePendingAction(msg, who.value, plan.value.0, plan.value.1, now);
      r := Success(id);
    }

    method PrepareCancel(msg: Message, appointmentId: nat, reason: Option<string>, now: int) returns (r: Result<nat, DeskError>)
      modifies this`actions
      ensures (State(), r) == Prepare(old(State()), cfg, msg, ProposeCancel(appointmentId, reason), now)
    {
      var who := Identity(cfg, msg);
      if who.Failure? { return Failure(who.error); }
      var row := OwnedScheduled(State(), who.value, appointmentId);
      if row.Failure? { return Failure(row.error); }
      var preview := PreviewOf(cfg, appointmentId, row.value);
      var payload := CancelPayload(appointmentId, SanitizeText(reason, 500));
      var id := StorePendingAction(msg, who.value, payload, preview, now);
      r := Success(id);
    }

    /** The validation and preview part of `prepare_reschedule`. */
    method PreviewReschedule(who: CustomerKey, args: RescheduleArgs, now: int) returns (r: Result<(Payload, Preview), DeskError>)
      requires Valid()
      ensures r == PlanReschedule(State(), cfg, who, args, now)
    {
      var row := OwnedScheduled(State(), who, args.appointmentId);
      if row.Failure? { return Failure(row.error); }
      var resource := ChosenResource(args.resource, row.value.resource);
      if !ChairAllowed(State(), cfg, who.instance, resource) { return Failure(BarberUnavailable); }
      var minutes := row.value.totalMinutes;
      var slot := scheduler.CheckSlot(who.instance, resource, args.date, args.start, minutes, now, Some(args.appointmentId));
      if slot.Failure? { return Failure(Scheduling(slot.error)); }
      var startText := FormatHhmm(args.start);
      var endText := EndText(args.date, args.start, minutes);
      r := Success((ReschedulePayload(args.appointmentId, args.date, startText, resource),
                    ReschedulePreview(PreviewOf(cfg, args.appointmentId, row.value), args.date, startText, endText, resource)));
    }

    method PrepareReschedule(msg: Message, args: RescheduleArgs, now: int) returns (r: Result<nat, DeskError>)
      requires Valid()
      modifies this`actions
      ensures (State(), r) == Prepare(old(State()), cfg, msg, ProposeReschedule(args), now)
    {
      var who := Identity(cfg, msg);
      if who.Failure? { return Failure(who.error); }
      var plan := PreviewReschedule(who.value, args, now);
      if plan.Failure? { return Failure(plan.error); }
      var id := StorePendingAction(msg, who.value, plan.value.0, plan.value.1, now);
      r := Success(id);
    }

    /** The first session of `confirm_pending_action`. */
    method ClaimPendingAction(msg: Message, now: int) returns (r: Result<nat, DeskError>)
      modifies this`actions
      ensures (State(), r) == BeginConfirm(old(State()), cfg, msg, now)
      ensures r.Success? ==> r.value < |actions|
    {
      var who := Identity(cfg, msg);
      if who.Failure? { return Failure(who.error); }
      var before := actions;
      ExpirePendingActions(who.value, now);
      var found := FindAwaiting(actions, who.value);
      if found.None? {
        actions := before;  // the session closes without a commit
        return Failure(NoPendingAction);
      }
      var id := found.value;
      if actions[id].preparedFrom == msg.id {
        actions := before;
        return Failure(ConfirmationRequiresNewMessage);
      }
      if !cfg.isConfirmation(CandidateText(msg)) {
        actions := before;
        return Failure(ConfirmationNotExplicit);
      }
      if cfg.fingerprint(actions[id].preview) != actions[id].fingerprint {
        actions := actions[id := actions[id].(status := Failed)];
        return Failure(ConfirmationDataChanged);
      }
      var row := actions[id].(status := Executing);
      actions := actions[id := row.(attempts := row.attempts + 1)];
      r := Success(id);
    }

    /** `_execute_action`: dispatch to the scheduling service under the action's own key. */
    method RunAction(id: nat, payload: Payload, msg: Message, now: int, draws: CodeDraws) returns (r: Result<Booking, SchedulingError>)
      requires Valid()
      modifies scheduler.db
      ensures (scheduler.db.State(), r) == ExecuteAction(old(scheduler.db.State()), cfg, id, payload, msg, now, draws)
    {
      match payload
      case CreatePayload(ids, date, startText, name, resource) =>
        var start := ParseHhmm(startText);
        if start < 0 { return Failure(InvalidAppointmentTime); }
        r := scheduler.CreateAppointment(
          CreateRequest(msg.instance, RawPhone(msg), name, ids, date, start, Some(resource), Some(PendingActionKey(id))), now, draws);
      case CancelPayload(appointmentId, reason) =>
        r := scheduler.CancelAppointment(msg.instance, RawPhone(msg), appointmentId, reason, now);
      case ReschedulePayload(appointmentId, date, startText, resource) =>
        var start := ParseHhmm(startText);
        if start < 0 { return Failure(InvalidAppointmentTime); }
        r := scheduler.RescheduleAppointment(
          RescheduleRequest(msg.instance, RawPhone(msg), appointmentId, date, start, Some(resource)), now);
    }

    method ConfirmPendingAction(msg: Message, now: int, executedAt: int, draws: CodeDraws) returns (r: Result<Booking, DeskError>)
      requires Valid()
      modifies this`actions, scheduler.db
      ensures (State(), r) == Confirm(old(State()), cfg, msg, now, executedAt, draws)
    {
      var claimed := ClaimPendingAction(msg, now);
      if claimed.Failure? { return Failure(claimed.error); }
      var id := claimed.value;
      var booking := RunAction(id, actions[id].payload, msg, executedAt, draws);
      if booking.Failure? {
        var found := FindAwaiting(actions, CustomerKey(Strip(msg.instance), Strip(RawPhone(msg))));
        if found == Some(id) {
          actions := actions[id := actions[id].(status := Failed)];
        }
        return Failure(Scheduling(booking.error));
      }
      var row := actions[id].(status := Done);
      row := row.(confirmedBy := Some(msg.id), result := Some(booking.value.id));
      actions := actions[id := row];
      r := Success(booking.value);
    }

    method DiscardPendingAction(msg: Message, now: int) returns (r: Result<nat, DeskError>)
      modifies this`actions
      ensures (State(), r) == Discard(old(State()), cfg, msg, now)
    {
      var who := Identity(cfg, msg);
      if who.Failure? { return Failure(who.error); }
      if !cfg.isRejection(CandidateText(msg)) { return Failure(RejectionNotExplicit); }
      var before := actions;
      ExpirePendingActions(who.value, now);
      var found := FindAwaiting(actions, who.value);
      if found.None? {
        actions := before;
        return Failure(NoPendingAction);
      }
      actions := actions[found.value := actions[found.value].(status := Rejected)];
      r := Success(found.value);
    }
  }
}
