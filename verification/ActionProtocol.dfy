/**
 * The confirmation protocol over its crash points: the three commits of a confirmation are separate
 * steps of a worker that may stop after any of them, interleaved with every other customer's and
 * every other worker's steps and with other transactions on the agenda.
 */
module ActionProtocol {
  import opened Prelude
  import opened Calendar
  import opened Agenda
  import opened AgendaSafety
  import opened PendingActions

  /** A worker between the commits of a confirmation. */
  datatype Job =
    | ToExecute(action: nat, msg: Message)
    | ToComplete(action: nat, msg: Message, appointment: nat)

  /** The record of a successful claim: which action, by which message, at what clock reading. */
  datatype Claim = Claim(action: nat, msg: Message, at: int)

  /** The record of one agenda transaction tried: for which action, at what clock reading. */
  datatype Execution = Execution(action: nat, at: int)

  /** `claims` and `executions` record history: every claim made and every agenda transaction tried. */
  datatype World = World(desk: Desk, jobs: map<nat, Job>, claims: seq<Claim>, executions: seq<Execution>)

  /** The actions of the executions, in the order in which they were tried. */
  function ActionsOf(executions: seq<Execution>): (ids: seq<nat>)
    ensures |ids| == |executions|
  {
    seq(|executions|, i requires 0 <= i < |executions| => executions[i].action)
  }

  function Executed(w: World): seq<nat> {
    ActionsOf(w.executions)
  }

  lemma OneMoreExecution(executions: seq<Execution>, e: Execution)
    ensures ActionsOf(executions + [e]) == ActionsOf(executions) + [e.action]
  {
  }

  datatype Event =
    | PrepareEvent(msg: Message, proposal: Proposal, now: int)
    | ClaimEvent(worker: nat, msg: Message, now: int)
    | ExecuteEvent(worker: nat, now: int, draws: CodeDraws)
    | CompleteEvent(worker: nat)
    | CrashEvent(worker: nat)
    | DiscardEvent(msg: Message, now: int)
    | AgendaEvent(step: Step)

  function SenderOf(msg: Message): CustomerKey {
    CustomerKey(Strip(msg.instance), Strip(RawPhone(msg)))
  }

  /** The world after the first commit of a confirmation came out as `outcome`. */
  function AfterClaim(w: World, worker: nat, msg: Message, now: int, outcome: (Desk, Result<nat, DeskError>)): World {
    match outcome.1
    case Failure(_) => w.(desk := outcome.0)
    case Success(id) =>
      World(outcome.0, w.jobs[worker := ToExecute(id, msg)], w.claims + [Claim(id, msg, now)], w.executions)
  }

  /** The world after the agenda transaction of a claimed action came out as `outcome`. */
  function AfterExecute(w: World, worker: nat, id: nat, msg: Message, at: int, outcome: (Store, Result<Booking, SchedulingError>)): World {
    match outcome.1
    case Failure(_) =>
      World(Desk(outcome.0, RecoverFailed(w.desk.actions, id, SenderOf(msg))), w.jobs - {worker}, w.claims, w.executions + [Execution(id, at)])
    case Success(b) =>
      World(w.desk.(store := outcome.0), w.jobs[worker := ToComplete(id, msg, b.id)], w.claims, w.executions + [Execution(id, at)])
  }

  function DoPrepare(w: World, cfg: DeskConfig, msg: Message, proposal: Proposal, now: int): World {
    w.(desk := Prepare(w.desk, cfg, msg, proposal, now).0)
  }

  function DoClaim(w: World, cfg: DeskConfig, worker: nat, msg: Message, now: int): World {
    if worker in w.jobs then w else AfterClaim(w, worker, msg, now, BeginConfirm(w.desk, cfg, msg, now))
  }

  function DoExecute(w: World, cfg: DeskConfig, worker: nat, now: int, draws: CodeDraws): World {
    if worker !in w.jobs || !w.jobs[worker].ToExecute? || w.jobs[worker].action >= |w.desk.actions| then w
    else
      var job := w.jobs[worker];
      AfterExecute(w, worker, job.action, job.msg, now,
        ExecuteAction(w.desk.store, cfg, job.action, w.desk.actions[job.action].payload, job.msg, now, draws))
  }

  function DoComplete(w: World, worker: nat): World {
    if worker !in w.jobs || !w.jobs[worker].ToComplete? then w
    else
      var job := w.jobs[worker];
      w.(desk := w.desk.(actions := CompleteAction(w.desk.actions, job.action, job.msg.id, job.appointment)), jobs := w.jobs - {worker})
  }

  function DoDiscard(w: World, cfg: DeskConfig, msg: Message, now: int): World {
    w.(desk := Discard(w.desk, cfg, msg, now).0)
  }

  function DoAgenda(w: World, cfg: DeskConfig, step: Step): World {
    w.(desk := w.desk.(store := Apply(w.desk.store, cfg.scheduling, step)))
  }

  function Next(w: World, cfg: DeskConfig, e: Event): World {
    match e
    case PrepareEvent(msg, proposal, now) => DoPrepare(w, cfg, msg, proposal, now)
    case ClaimEvent(worker, msg, now) => DoClaim(w, cfg, worker, msg, now)
    case ExecuteEvent(worker, now, draws) => DoExecute(w, cfg, worker, now, draws)
    case CompleteEvent(worker) => DoComplete(w, worker)
    case CrashEvent(worker) => w.(jobs := w.jobs - {worker})
    case DiscardEvent(msg, now) => DoDiscard(w, cfg, msg, now)
    case AgendaEvent(step) => DoAgenda(w, cfg, step)
  }

  function Reach(w: World, cfg: DeskConfig, events: seq<Event>): World
    decreases |events|
  {
    if events == [] then w else Reach(Next(w, cfg, events[0]), cfg, events[1..])
  }

  /** Other callers of the scheduling service do not use the keys reserved for confirmed actions. */
  predicate Legal(e: Event) {
    (e.AgendaEvent? && e.step.CreateStep? && e.step.create.idempotencyKey.Some?) ==>
      e.step.create.idempotencyKey.value.CallerKey?
  }

  ghost predicate AllLegal(events: seq<Event>) {
    forall i :: 0 <= i < |events| ==> Legal(events[i])
  }

  // --------------------------------------------------------------- invariant

  predicate Claimed(a: Action) {
    a.status.Executing? || a.status.Done?
  }

  /** The preview of a create says what its payload will book, were the catalog as it was. */
  ghost predicate PreviewMatches(payload: Payload, preview: Preview) {
    payload.CreatePayload? ==>
      && preview.CreatePreview?
      && preview.date == payload.date && preview.startText == payload.startText
      && preview.resource == payload.resource && payload.resource != "" && Strip(payload.resource) == payload.resource
      && ServiceIds(preview.services) == payload.serviceIds
      && preview.totalMinutes == TotalMinutes(preview.services)
      && preview.totalCents == TotalCents(preview.services)
      && TimesMatch(payload.startText, preview.totalMinutes, preview.endText)
  }

  /** Both texts are times of one day, `minutes` apart. */
  ghost predicate TimesMatch(startText: string, minutes: int, endText: string) {
    var start := ParseHhmm(startText);
    && 0 <= start && 0 < minutes && start + minutes * MINUTE < DAY
    && FormatHhmm(start) == startText && FormatHhmm(start + minutes * MINUTE) == endText
  }

  ghost predicate ActionOk(cfg: DeskConfig, a: Action) {
    && a.fingerprint == cfg.fingerprint(a.preview)
    && a.expiresAt == a.preparedAt + cfg.ttlMinutes * MINUTE
    && a.attempts == (if Claimed(a) then 1 else 0)
    && PreviewMatches(a.payload, a.preview)
  }

  /** At most one action per customer awaits confirmation. */
  ghost predicate OneAwaiting(actions: seq<Action>) {
    forall i, j :: 0 <= i < j < |actions| && actions[i].status.Awaiting? && actions[j].status.Awaiting? ==>
      (actions[i].instance, actions[i].phone) != (actions[j].instance, actions[j].phone)
  }

  ghost predicate ActionsOk(cfg: DeskConfig, actions: seq<Action>) {
    OneAwaiting(actions) && forall i :: 0 <= i < |actions| ==> ActionOk(cfg, actions[i])
  }

  predicate KeyedBy(st: Store, row: nat, action: nat) {
    row < |st.appointments| && st.appointments[row].idempotencyKey == Some(PendingActionKey(action))
  }

  /** The claiming message is a different one of the same customer, saying yes in so many words. */
  ghost predicate ConfirmedProperly(cfg: DeskConfig, a: Action, msg: Message) {
    Belongs(a, SenderOf(msg)) && msg.id != a.preparedFrom && cfg.isConfirmation(CandidateText(msg))
  }

  ghost predicate JobOk(cfg: DeskConfig, d: Desk, executed: seq<nat>, job: Job) {
    && job.action < |d.actions| && d.actions[job.action].status.Executing?
    && ConfirmedProperly(cfg, d.actions[job.action], job.msg)
    && (job.ToExecute? ==> job.action !in executed)
    && (job.ToComplete? ==> job.action in executed)
    && (job.ToComplete? && d.actions[job.action].payload.CreatePayload? ==> KeyedBy(d.store, job.appointment, job.action))
  }

  /** Every open job is sound, and no two workers hold the same action. */
  ghost predicate JobsOk(cfg: DeskConfig, d: Desk, executed: seq<nat>, jobs: map<nat, Job>) {
    && (forall k :: k in jobs ==> JobOk(cfg, d, executed, jobs[k]))
    && (forall k, l :: k in jobs && l in jobs && jobs[k].action == jobs[l].action ==> k == l)
  }

  ghost predicate ClaimOk(cfg: DeskConfig, actions: seq<Action>, c: Claim) {
    && c.action < |actions| && Claimed(actions[c.action]) && c.at < actions[c.action].expiresAt
    && ConfirmedProperly(cfg, actions[c.action], c.msg)
  }

  ghost predicate HasClaim(claims: seq<Claim>, a: nat) {
    exists c :: c in claims && c.action == a
  }

  ghost predicate ClaimsOk(cfg: DeskConfig, actions: seq<Action>, claims: seq<Claim>) {
    && (forall c :: c in claims ==> ClaimOk(cfg, actions, c))
    && (forall a :: 0 <= a < |actions| && Claimed(actions[a]) ==> HasClaim(claims, a))
    && (forall i, j :: 0 <= i < j < |claims| ==> claims[i].action != claims[j].action)
  }

  ghost predicate ExecutedOk(actions: seq<Action>, executed: seq<nat>) {
    Distinct(executed) && forall a :: a in executed ==> a < |actions| && Claimed(actions[a])
  }

  /** Appointments under reserved keys come from executed creates. */
  ghost predicate KeysOk(st: Store, actions: seq<Action>, executed: seq<nat>) {
    forall i :: 0 <= i < |st.appointments| && st.appointments[i].idempotencyKey.Some?
                && st.appointments[i].idempotencyKey.value.PendingActionKey? ==>
      var a := st.appointments[i].idempotencyKey.value.actionId;
      a in executed && a < |actions| && actions[a].payload.CreatePayload?
  }

  /** Done actions were executed, and done creates point to their appointment. */
  ghost predicate DoneOk(st: Store, actions: seq<Action>, executed: seq<nat>) {
    forall a :: 0 <= a < |actions| && actions[a].status.Done? ==>
      && a in executed && actions[a].result.Some?
      && (actions[a].payload.CreatePayload? ==> KeyedBy(st, actions[a].result.value, a))
  }

  ghost predicate WorldOk(cfg: DeskConfig, w: World) {
    && AgendaOk(w.desk.store) && ActionsOk(cfg, w.desk.actions)
    && JobsOk(cfg, w.desk, Executed(w), w.jobs)
    && ClaimsOk(cfg, w.desk.actions, w.claims) && ExecutedOk(w.desk.actions, Executed(w))
    && KeysOk(w.desk.store, w.desk.actions, Executed(w)) && DoneOk(w.desk.store, w.desk.actions, Executed(w))
  }

  // ---------------------------------------------------------------- lifecycle

  /** The acyclic status graph: only awaiting actions move, except that a claimed one may complete. */
  predicate StatusStep(before: ActionStatus, after: ActionStatus) {
    before == after || (before.Awaiting? && !after.Done?) || (before.Executing? && after.Done?)
  }

  predicate SameProposal(a: Action, b: Action) {
    && a.instance == b.instance && a.phone == b.phone && a.payload == b.payload && a.preview == b.preview
    && a.fingerprint == b.fingerprint && a.preparedFrom == b.preparedFrom
    && a.preparedAt == b.preparedAt && a.expiresAt == b.expiresAt
  }

  ghost predicate Evolves(before: seq<Action>, after: seq<Action>) {
    && |before| <= |after|
    && forall i :: 0 <= i < |before| ==> SameProposal(before[i], after[i]) && StatusStep(before[i].status, after[i].status)
  }

  /** Claimed rows are untouched by the statements that look only at awaiting rows. */
  ghost predicate KeepsClaimed(before: seq<Action>, after: seq<Action>) {
    && |before| <= |after|
    && (forall i :: 0 <= i < |before| && !before[i].status.Awaiting? ==> after[i] == before[i])
    && (forall i :: 0 <= i < |before| ==> SameProposal(before[i], after[i]))
  }

  /** What one step does to the rows; only a completion may touch a claimed one. */
  ghost predicate RowsEvolve(before: seq<Action>, after: seq<Action>, completes: bool) {
    Evolves(before, after) && (!completes ==> KeepsClaimed(before, after))
  }

  // --------------------------------------------------- the statements, one by one

  lemma MinuteShift(start: int, minutes: int)
    ensures (FloorMinute(start) + minutes * MINUTE) / MINUTE == (start + minutes * MINUTE) / MINUTE
  {
  }

  lemma HhmmShift(date: int, start: TimeOfDay, minutes: int)
    requires start + minutes * MINUTE < DAY && 0 <= minutes
    ensures FloorMinute(start) + minutes * MINUTE < DAY
    ensures EndText(date, start, minutes) == FormatHhmm(FloorMinute(start) + minutes * MINUTE)
  {
    MinuteShift(start, minutes);
    var end := start + minutes * MINUTE;
    assert TimeOf(CombineLocal(date, start) + minutes * MINUTE) == end by {
      CombineRoundTrip(date, end, 0);
    }
  }

  lemma CreatePlanIsConsistent(d: Desk, cfg: DeskConfig, who: CustomerKey, args: CreateArgs, now: int)
    requires PlanCreate(d, cfg, who, args, now).Success?
    ensures var (payload, preview) := PlanCreate(d, cfg, who, args, now).value; PreviewMatches(payload, preview)
  {
    var services := ActiveServices(cfg.scheduling, d.store.services, args.serviceIds).value;
    var minutes := TotalMinutes(services);
    TotalsArePositive(services);
    PlannedEndIsSameDay(d.store, cfg.scheduling, who.instance, Strip(args.resource), args.date, args.start, minutes, now, None);
    ShownTimesMatch(args.date, args.start, minutes);
  }

  lemma ShownTimesMatch(date: int, start: TimeOfDay, minutes: int)
    requires 0 < minutes && start + minutes * MINUTE < DAY
    ensures TimesMatch(FormatHhmm(start), minutes, EndText(date, start, minutes))
  {
    HhmmShift(date, start, minutes);
    HhmmRoundTrip(start);
  }

  lemma PlanIsConsistent(d: Desk, cfg: DeskConfig, who: CustomerKey, proposal: Proposal, now: int)
    requires Plan(d, cfg, who, proposal, now).Success?
    ensures var (payload, preview) := Plan(d, cfg, who, proposal, now).value; PreviewMatches(payload, preview)
  {
    if proposal.ProposeCreate? {
      CreatePlanIsConsistent(d, cfg, who, proposal.create, now);
    }
  }

  lemma PlannedEndIsSameDay(st: Store, cfg: Settings, instance: Key, resource: Key, date: int, start: TimeOfDay, minutes: int, now: int,
                            exclude: Option<nat>)
    requires PlanSlot(st, cfg, instance, resource, date, start, minutes, now, exclude).Success?
    ensures start + minutes * MINUTE < DAY
  {
    var localStart := CombineLocal(date, start);
    assert DateOf(localStart) == DateOf(localStart + minutes * MINUTE);
    CombineRoundTrip(date, start, localStart + minutes * MINUTE);
  }

  lemma StoreActionKeeps(cfg: DeskConfig, actions: seq<Action>, msg: Message, who: CustomerKey, payload: Payload, preview: Preview, now: int)
    requires ActionsOk(cfg, actions)
    requires PreviewMatches(payload, preview)
    ensures var after := StoreAction(cfg, actions, msg, who, payload, preview, now);
            ActionsOk(cfg, after) && KeepsClaimed(actions, after) && Evolves(actions, after)
            && (forall i :: 0 <= i < |after| && Claimed(after[i]) ==> i < |actions| && after[i] == actions[i])
  {
    var after := StoreAction(cfg, actions, msg, who, payload, preview, now);
    forall i | 0 <= i < |actions|
      ensures after[i] == actions[i] || (actions[i].status.Awaiting? && !after[i].status.Awaiting? && !Claimed(after[i])
                                         && after[i] == actions[i].(status := after[i].status))
      ensures !AwaitingOf(after[i], who)
    {
    }
    forall i | 0 <= i < |after| ensures ActionOk(cfg, after[i]) {
      assert i < |actions| ==> ActionOk(cfg, actions[i]);
    }
  }

  /** Expiring, then updating the one awaiting row: the shape shared by claim, failure and rejection. */
  lemma UpdateAwaitingKeeps(cfg: DeskConfig, actions: seq<Action>, who: CustomerKey, now: int, id: nat, row: Action)
    requires ActionsOk(cfg, actions)
    requires var expired := ExpireActions(actions, who, now);
             id < |expired| && AwaitingOf(expired[id], who) && SameProposal(expired[id], row) && !row.status.Awaiting?
             && ActionOk(cfg, row) && !row.status.Done?
    ensures var after := ExpireActions(actions, who, now)[id := row];
            && ActionsOk(cfg, after) && KeepsClaimed(actions, after) && Evolves(actions, after)
            && actions[id].status.Awaiting? && now < actions[id].expiresAt
            && (forall i :: 0 <= i < |after| && i != id && Claimed(after[i]) ==> after[i] == actions[i])
  {
    var expired := ExpireActions(actions, who, now);
    var after := expired[id := row];
    forall i | 0 <= i < |actions|
      ensures expired[i] == actions[i]
           || (actions[i].status.Awaiting? && expired[i].status.Expired? && expired[i] == actions[i].(status := Expired))
    {
    }
    forall i | 0 <= i < |after| ensures ActionOk(cfg, after[i]) {
      assert ActionOk(cfg, actions[i]);
    }
  }

  // ------------------------------------------------------------- desk statements

  lemma PrepareKeeps(d: Desk, cfg: DeskConfig, msg: Message, proposal: Proposal, now: int)
    requires ActionsOk(cfg, d.actions)
    ensures var d' := Prepare(d, cfg, msg, proposal, now).0;
            d'.store == d.store && ActionsOk(cfg, d'.actions) && KeepsClaimed(d.actions, d'.actions) && Evolves(d.actions, d'.actions)
            && (forall i :: 0 <= i < |d'.actions| && Claimed(d'.actions[i]) ==> i < |d.actions| && d'.actions[i] == d.actions[i])
  {
    var r := Prepare(d, cfg, msg, proposal, now).1;
    if r.Success? {
      var who := Identity(cfg, msg).value;
      var (payload, preview) := Plan(d, cfg, who, proposal, now).value;
      PlanIsConsistent(d, cfg, who, proposal, now);
      StoreActionKeeps(cfg, d.actions, msg, who, payload, preview, now);
    }
  }

  lemma BeginKeeps(d: Desk, cfg: DeskConfig, msg: Message, now: int)
    requires ActionsOk(cfg, d.actions)
    ensures var (d', r) := BeginConfirm(d, cfg, msg, now);
            && d'.store == d.store && ActionsOk(cfg, d'.actions) && KeepsClaimed(d.actions, d'.actions) && Evolves(d.actions, d'.actions)
            && (r.Failure? ==> d' == d && r.error != ConfirmationDataChanged)
            && (r.Success? ==>
                  && r.value < |d.actions| && |d'.actions| == |d.actions|
                  && d.actions[r.value].status.Awaiting? && now < d.actions[r.value].expiresAt
                  && d'.actions[r.value] == d.actions[r.value].(status := Executing, attempts := 1)
                  && ConfirmedProperly(cfg, d'.actions[r.value], msg)
                  && forall i :: 0 <= i < |d'.actions| && i != r.value && Claimed(d'.actions[i]) ==> d'.actions[i] == d.actions[i])
  {
    var (d', r) := BeginConfirm(d, cfg, msg, now);
    if Identity(cfg, msg).Success? {
      var who := Identity(cfg, msg).value;
      var expired := ExpireActions(d.actions, who, now);
      if FindAwaiting(expired, who).Some? {
        var id := FindAwaiting(expired, who).value;
        assert ActionOk(cfg, d.actions[id]);
        assert expired[id] == d.actions[id];
        if r.Success? {
          UpdateAwaitingKeeps(cfg, d.actions, who, now, id, expired[id].(status := Executing, attempts := expired[id].attempts + 1));
        }
      }
    }
  }

  lemma DiscardKeeps(d: Desk, cfg: DeskConfig, msg: Message, now: int)
    requires ActionsOk(cfg, d.actions)
    ensures var d' := Discard(d, cfg, msg, now).0;
            d'.store == d.store && ActionsOk(cfg, d'.actions) && KeepsClaimed(d.actions, d'.actions) && Evolves(d.actions, d'.actions)
            && |d'.actions| == |d.actions|
            && (forall i :: 0 <= i < |d'.actions| && Claimed(d'.actions[i]) ==> d'.actions[i] == d.actions[i])
  {
    var r := Discard(d, cfg, msg, now).1;
    if r.Success? {
      var who := Identity(cfg, msg).value;
      var expired := ExpireActions(d.actions, who, now);
      var id := r.value;
      assert ActionOk(cfg, d.actions[id]);
      assert expired[id] == d.actions[id];
      UpdateAwaitingKeeps(cfg, d.actions, who, now, id, expired[id].(status := Rejected));
    }
  }

  /** What an execution does to the agenda: at most one new row, under the action's own key. */
  lemma ExecuteKeeps(st: Store, cfg: DeskConfig, id: nat, payload: Payload, msg: Message, now: int, draws: CodeDraws)
    requires AgendaOk(st)
    ensures var (st', r) := ExecuteAction(st, cfg, id, payload, msg, now, draws);
            && AgendaOk(st') && Extends(st, st')
            && (r.Failure? ==> st' == st)
            && (forall i :: |st.appointments| <= i < |st'.appointments| ==> KeyedBy(st', i, id) && payload.CreatePayload?)
            && (r.Success? && payload.CreatePayload? ==> KeyedBy(st', r.value.id, id))
  {
    match payload
    case CreatePayload(ids, date, startText, name, resource) =>
      var start := ParseHhmm(startText);
      if 0 <= start {
        var req := CreateRequest(msg.instance, RawPhone(msg), name, ids, date, start, Some(resource), Some(PendingActionKey(id)));
        CreateKeepsAgenda(st, cfg.scheduling, req, now, draws);
        CreateExtends(st, cfg.scheduling, req, now, draws);
        CreateGrowth(st, cfg.scheduling, req, now, draws);
      }
    case CancelPayload(appointmentId, reason) =>
      CancelKeepsAgenda(st, msg.instance, RawPhone(msg), appointmentId, reason, now);
      StepExtends(st, cfg.scheduling, CancelStep(msg.instance, RawPhone(msg), appointmentId, reason, now));
    case ReschedulePayload(appointmentId, date, startText, resource) =>
      var start := ParseHhmm(startText);
      if 0 <= start {
        var req := RescheduleRequest(msg.instance, RawPhone(msg), appointmentId, date, start, Some(resource));
        RescheduleKeepsAgenda(st, cfg.scheduling, req, now);
        RescheduleExtends(st, cfg.scheduling, req, now);
      }
  }

  lemma CreateGrowth(st: Store, cfg: Settings, req: CreateRequest, now: int, draws: CodeDraws)
    ensures var (st', r) := Create(st, cfg, req, now, draws);
            && (forall i :: |st.appointments| <= i < |st'.appointments| ==> st'.appointments[i].idempotencyKey == req.idempotencyKey)
            && (r.Failure? ==> st' == st)
            && (r.Success? && req.idempotencyKey.Some? ==>
                  r.value.id < |st'.appointments| && st'.appointments[r.value.id].idempotencyKey == req.idempotencyKey)
  {
    var (st', r) := Create(st, cfg, req, now, draws);
    if r.Success? && r.value.created {
      assert st'.appointments == st.appointments + [r.value.row];
    }
  }

  lemma RecoveryFindsNothing(actions: seq<Action>, id: nat, who: CustomerKey)
    requires id < |actions| && !actions[id].status.Awaiting?
    ensures RecoverFailed(actions, id, who) == actions
  {
  }

  // -------------------------------------------------------- every step keeps it

  /** The desk statement touches no claimed row and claims none. */
  ghost predicate Quiet(before: seq<Action>, after: seq<Action>) {
    && KeepsClaimed(before, after)
    && forall i :: 0 <= i < |after| && Claimed(after[i]) ==> i < |before| && after[i] == before[i]
  }

  lemma QuietStepKeepsWorld(cfg: DeskConfig, w: World, actions: seq<Action>)
    requires WorldOk(cfg, w) && ActionsOk(cfg, actions) && Quiet(w.desk.actions, actions)
    ensures WorldOk(cfg, w.(desk := w.desk.(actions := actions)))
  {
    var d := w.desk.(actions := actions);
    forall k | k in w.jobs ensures JobOk(cfg, d, Executed(w), w.jobs[k]) {
      assert JobOk(cfg, w.desk, Executed(w), w.jobs[k]);
    }
    forall c | c in w.claims ensures ClaimOk(cfg, actions, c) {
      assert ClaimOk(cfg, w.desk.actions, c);
    }
  }

  /** What a successful claim does to the action rows. */
  ghost predicate ClaimRows(before: seq<Action>, after: seq<Action>, id: nat, now: int) {
    && id < |before| == |after| && KeepsClaimed(before, after)
    && before[id].status.Awaiting? && now < before[id].expiresAt
    && after[id] == before[id].(status := Executing, attempts := 1)
    && forall i :: 0 <= i < |after| && i != id && Claimed(after[i]) ==> after[i] == before[i]
  }

  lemma ClaimKeepsJobs(cfg: DeskConfig, d: Desk, d': Desk, executed: seq<nat>, jobs: map<nat, Job>, worker: nat, msg: Message, now: int, id: nat)
    requires JobsOk(cfg, d, executed, jobs) && ExecutedOk(d.actions, executed) && worker !in jobs
    requires d'.store == d.store && ClaimRows(d.actions, d'.actions, id, now) && ConfirmedProperly(cfg, d'.actions[id], msg)
    ensures JobsOk(cfg, d', executed, jobs[worker := ToExecute(id, msg)])
  {
    forall k | k in jobs ensures jobs[k].action != id && JobOk(cfg, d', executed, jobs[k]) {
      assert JobOk(cfg, d, executed, jobs[k]);
    }
    assert id !in executed;
  }

  lemma ClaimKeepsClaims(cfg: DeskConfig, before: seq<Action>, after: seq<Action>, claims: seq<Claim>, c: Claim)
    requires ClaimsOk(cfg, before, claims) && ClaimRows(before, after, c.action, c.at)
    requires ConfirmedProperly(cfg, after[c.action], c.msg)
    ensures ClaimsOk(cfg, after, claims + [c])
  {
    var claims' := claims + [c];
    assert claims'[|claims|] == c;
    forall i | 0 <= i < |claims| ensures claims'[i] == claims[i] && claims[i].action != c.action {
      assert ClaimOk(cfg, before, claims[i]);
    }
    forall x | x in claims' ensures ClaimOk(cfg, after, x) {
      if x in claims {
        assert ClaimOk(cfg, before, x);
      }
    }
    forall a | 0 <= a < |after| && Claimed(after[a]) ensures HasClaim(claims', a) {
      if a == c.action {
        assert c in claims';
      } else {
        var earlier :| earlier in claims && earlier.action == a;
        assert earlier in claims';
      }
    }
  }

  lemma ClaimKeepsHistory(st: Store, before: seq<Action>, after: seq<Action>, id: nat, now: int, executed: seq<nat>)
    requires ExecutedOk(before, executed) && KeysOk(st, before, executed) && DoneOk(st, before, executed)
    requires ClaimRows(before, after, id, now)
    ensures ExecutedOk(after, executed) && KeysOk(st, after, executed) && DoneOk(st, after, executed)
  {
  }

  lemma ClaimOutcomeKeepsWorld(cfg: DeskConfig, w: World, worker: nat, msg: Message, now: int, d: Desk, id: nat)
    requires WorldOk(cfg, w) && worker !in w.jobs
    requires d.store == w.desk.store && ActionsOk(cfg, d.actions) && ClaimRows(w.desk.actions, d.actions, id, now)
    requires ConfirmedProperly(cfg, d.actions[id], msg)
    ensures WorldOk(cfg, World(d, w.jobs[worker := ToExecute(id, msg)], w.claims + [Claim(id, msg, now)], w.executions))
  {
    ClaimKeepsHistory(d.store, w.desk.actions, d.actions, id, now, Executed(w));
    ClaimKeepsJobs(cfg, w.desk, d, Executed(w), w.jobs, worker, msg, now, id);
    ClaimKeepsClaims(cfg, w.desk.actions, d.actions, w.claims, Claim(id, msg, now));
  }

  lemma ClaimKeepsWorld(cfg: DeskConfig, w: World, worker: nat, msg: Message, now: int)
    requires WorldOk(cfg, w) && worker !in w.jobs && BeginConfirm(w.desk, cfg, msg, now).1.Success?
    ensures WorldOk(cfg, DoClaim(w, cfg, worker, msg, now))
  {
    var outcome := BeginConfirm(w.desk, cfg, msg, now);
    BeginKeeps(w.desk, cfg, msg, now);
    ClaimOutcomeKeepsWorld(cfg, w, worker, msg, now, outcome.0, outcome.1.value);
    assert outcome == (outcome.0, Success(outcome.1.value));
  }

  lemma KeysSurvive(before: Store, after: Store, row: nat, action: nat)
    requires Extends(before, after) && KeyedBy(before, row, action)
    ensures KeyedBy(after, row, action)
  {
    assert SameHistory(before.appointments[row], after.appointments[row]);
  }

  lemma GrowthKeepsDone(before: Store, after: Store, actions: seq<Action>, executed: seq<nat>)
    requires Extends(before, after) && DoneOk(before, actions, executed)
    ensures DoneOk(after, actions, executed)
  {
    forall a | 0 <= a < |actions| && actions[a].status.Done? && actions[a].payload.CreatePayload?
      ensures KeyedBy(after, actions[a].result.value, a)
    {
      KeysSurvive(before, after, actions[a].result.value, a);
    }
  }

  lemma GrowthKeepsJob(cfg: DeskConfig, d: Desk, st: Store, executed: seq<nat>, job: Job)
    requires Extends(d.store, st) && JobOk(cfg, d, executed, job)
    ensures JobOk(cfg, d.(store := st), executed, job)
  {
    if job.ToComplete? && d.actions[job.action].payload.CreatePayload? {
      KeysSurvive(d.store, st, job.appointment, job.action);
    }
  }

  /** What an agenda transaction under key `id` may do to the store. */
  ghost predicate OwnGrowth(before: Store, after: Store, id: nat, isCreate: bool) {
    && Extends(before, after)
    && forall i :: |before.appointments| <= i < |after.appointments| ==> KeyedBy(after, i, id) && isCreate
  }

  lemma OwnGrowthKeepsKeys(before: Store, after: Store, actions: seq<Action>, executed: seq<nat>, id: nat)
    requires id < |actions| && OwnGrowth(before, after, id, actions[id].payload.CreatePayload?) && KeysOk(before, actions, executed)
    ensures KeysOk(after, actions, executed + [id])
  {
    var executed' := executed + [id];
    assert executed'[|executed|] == id;
    forall i | 0 <= i < |after.appointments| && after.appointments[i].idempotencyKey.Some?
               && after.appointments[i].idempotencyKey.value.PendingActionKey?
      ensures var a := after.appointments[i].idempotencyKey.value.actionId;
              a in executed' && a < |actions| && actions[a].payload.CreatePayload?
    {
      if i < |before.appointments| {
        assert SameHistory(before.appointments[i], after.appointments[i]);
      } else {
        assert KeyedBy(after, i, id);
      }
    }
  }

  lemma ExecuteKeepsJobs(cfg: DeskConfig, d: Desk, st: Store, executed: seq<nat>, jobs: map<nat, Job>, worker: nat)
    requires JobsOk(cfg, d, executed, jobs) && worker in jobs && Extends(d.store, st)
    ensures JobsOk(cfg, d.(store := st), executed + [jobs[worker].action], jobs - {worker})
  {
    var id := jobs[worker].action;
    forall k | k in jobs && k != worker ensures JobOk(cfg, d.(store := st), executed + [id], jobs[k]) {
      assert JobOk(cfg, d, executed, jobs[k]) && jobs[k].action != id;
      GrowthKeepsJob(cfg, d, st, executed, jobs[k]);
    }
  }

  lemma ToCompleteJobIsOk(cfg: DeskConfig, d: Desk, st: Store, executed: seq<nat>, jobs: map<nat, Job>, worker: nat, b: nat)
    requires JobsOk(cfg, d, executed, jobs) && worker in jobs && Extends(d.store, st)
    requires JobOk(cfg, d, executed, jobs[worker])
    requires d.actions[jobs[worker].action].payload.CreatePayload? ==> KeyedBy(st, b, jobs[worker].action)
    ensures JobsOk(cfg, d.(store := st), executed + [jobs[worker].action],
                   jobs[worker := ToComplete(jobs[worker].action, jobs[worker].msg, b)])
  {
    var id := jobs[worker].action;
    ExecuteKeepsJobs(cfg, d, st, executed, jobs, worker);
    var rest, jobs' := jobs - {worker}, jobs[worker := ToComplete(id, jobs[worker].msg, b)];
    assert (executed + [id])[|executed|] == id;
    forall k | k in jobs' && k != worker ensures k in rest && jobs'[k] == rest[k] && jobs'[k].action != id {
      assert jobs[k].action != id;
    }
  }

  lemma ExecuteKeepsHistory(before: Store, after: Store, actions: seq<Action>, executed: seq<nat>, id: nat)
    requires ExecutedOk(actions, executed) && KeysOk(before, actions, executed) && DoneOk(before, actions, executed)
    requires id < |actions| && Claimed(actions[id]) && id !in executed
    requires OwnGrowth(before, after, id, actions[id].payload.CreatePayload?)
    ensures ExecutedOk(actions, executed + [id]) && KeysOk(after, actions, executed + [id]) && DoneOk(after, actions, executed + [id])
  {
    OwnGrowthKeepsKeys(before, after, actions, executed, id);
    GrowthKeepsDone(before, after, actions, executed);
  }

  lemma ExecuteOutcomeKeepsWorld(cfg: DeskConfig, w: World, worker: nat, at: int, outcome: (Store, Result<Booking, SchedulingError>))
    requires WorldOk(cfg, w) && worker in w.jobs && w.jobs[worker].ToExecute? && JobOk(cfg, w.desk, Executed(w), w.jobs[worker])
    requires SoundOutcome(w, w.jobs[worker], outcome)
    ensures var w' := AfterExecute(w, worker, w.jobs[worker].action, w.jobs[worker].msg, at, outcome);
            WorldOk(cfg, w') && w'.desk == Desk(outcome.0, w.desk.actions)
  {
    var id, st := w.jobs[worker].action, outcome.0;
    RecoveryFindsNothing(w.desk.actions, id, SenderOf(w.jobs[worker].msg));
    OneMoreExecution(w.executions, Execution(id, at));
    ExecuteKeepsJobs(cfg, w.desk, st, Executed(w), w.jobs, worker);
    if outcome.1.Success? {
      ToCompleteJobIsOk(cfg, w.desk, st, Executed(w), w.jobs, worker, outcome.1.value.id);
    }
    ExecuteKeepsHistory(w.desk.store, st, w.desk.actions, Executed(w), id);
  }

  /** The agenda outcome of a sound job meets what the protocol needs of it. */
  ghost predicate SoundOutcome(w: World, job: Job, outcome: (Store, Result<Booking, SchedulingError>))
    requires job.action < |w.desk.actions|
  {
    var isCreate := w.desk.actions[job.action].payload.CreatePayload?;
    && AgendaOk(outcome.0) && OwnGrowth(w.desk.store, outcome.0, job.action, isCreate)
    && (outcome.1.Success? && isCreate ==> KeyedBy(outcome.0, outcome.1.value.id, job.action))
    && (outcome.1.Failure? ==> outcome.0 == w.desk.store)
  }

  lemma OutcomeIsSound(cfg: DeskConfig, w: World, job: Job, now: int, draws: CodeDraws)
    requires AgendaOk(w.desk.store) && job.action < |w.desk.actions|
    ensures SoundOutcome(w, job, ExecuteAction(w.desk.store, cfg, job.action, w.desk.actions[job.action].payload, job.msg, now, draws))
  {
    ExecuteKeeps(w.desk.store, cfg, job.action, w.desk.actions[job.action].payload, job.msg, now, draws);
  }

  lemma ExecuteKeepsWorld(cfg: DeskConfig, w: World, worker: nat, now: int, draws: CodeDraws)
    requires WorldOk(cfg, w) && worker in w.jobs && w.jobs[worker].ToExecute?
    ensures w.jobs[worker].action < |w.desk.actions|
    ensures var w' := DoExecute(w, cfg, worker, now, draws);
            WorldOk(cfg, w') && w'.desk.actions == w.desk.actions
  {
    var job := w.jobs[worker];
    assert JobOk(cfg, w.desk, Executed(w), job);
    OutcomeIsSound(cfg, w, job, now, draws);
    ExecuteOutcomeKeepsWorld(cfg, w, worker, now,
      ExecuteAction(w.desk.store, cfg, job.action, w.desk.actions[job.action].payload, job.msg, now, draws));
  }

  /** Completing turns one executing row into a done one. */
  ghost predicate CompleteRows(before: seq<Action>, after: seq<Action>, job: Job) {
    && job.ToComplete? && job.action < |before| == |after|
    && (forall i :: 0 <= i < |before| && i != job.action ==> after[i] == before[i])
    && after[job.action] == before[job.action].(status := Done, confirmedBy := Some(job.msg.id), result := Some(job.appointment))
  }

  lemma CompleteKeepsActions(cfg: DeskConfig, before: seq<Action>, after: seq<Action>, job: Job)
    requires ActionsOk(cfg, before) && CompleteRows(before, after, job) && before[job.action].status.Executing?
    ensures ActionsOk(cfg, after) && Evolves(before, after)
  {
    forall i | 0 <= i < |after| ensures ActionOk(cfg, after[i]) {
      assert ActionOk(cfg, before[i]);
    }
  }

  lemma CompleteKeepsClaims(cfg: DeskConfig, before: seq<Action>, after: seq<Action>, job: Job, claims: seq<Claim>)
    requires ClaimsOk(cfg, before, claims) && CompleteRows(before, after, job) && before[job.action].status.Executing?
    ensures ClaimsOk(cfg, after, claims)
  {
    forall c | c in claims ensures ClaimOk(cfg, after, c) {
      assert ClaimOk(cfg, before, c);
    }
    forall a | 0 <= a < |after| && Claimed(after[a]) ensures HasClaim(claims, a) {
      assert Claimed(before[a]);
    }
  }

  lemma CompleteKeepsJobs(cfg: DeskConfig, d: Desk, d': Desk, executed: seq<nat>, jobs: map<nat, Job>, worker: nat)
    requires JobsOk(cfg, d, executed, jobs) && worker in jobs && d'.store == d.store && CompleteRows(d.actions, d'.actions, jobs[worker])
    ensures JobsOk(cfg, d', executed, jobs - {worker})
  {
    forall k | k in jobs && k != worker ensures JobOk(cfg, d', executed, jobs[k]) {
      assert JobOk(cfg, d, executed, jobs[k]) && jobs[k].action != jobs[worker].action;
    }
  }

  lemma CompleteKeepsHistory(st: Store, before: seq<Action>, after: seq<Action>, job: Job, executed: seq<nat>)
    requires ExecutedOk(before, executed) && KeysOk(st, before, executed) && DoneOk(st, before, executed)
    requires CompleteRows(before, after, job) && before[job.action].status.Executing? && job.action in executed
    requires before[job.action].payload.CreatePayload? ==> KeyedBy(st, job.appointment, job.action)
    ensures ExecutedOk(after, executed) && KeysOk(st, after, executed) && DoneOk(st, after, executed)
  {
  }

  lemma CompleteOutcomeKeepsWorld(cfg: DeskConfig, w: World, worker: nat, actions: seq<Action>)
    requires WorldOk(cfg, w) && worker in w.jobs && JobOk(cfg, w.desk, Executed(w), w.jobs[worker])
    requires CompleteRows(w.desk.actions, actions, w.jobs[worker])
    ensures WorldOk(cfg, World(w.desk.(actions := actions), w.jobs - {worker}, w.claims, w.executions))
  {
    CompleteKeepsActions(cfg, w.desk.actions, actions, w.jobs[worker]);
    CompleteKeepsClaims(cfg, w.desk.actions, actions, w.jobs[worker], w.claims);
    CompleteKeepsJobs(cfg, w.desk, w.desk.(actions := actions), Executed(w), w.jobs, worker);
    CompleteKeepsHistory(w.desk.store, w.desk.actions, actions, w.jobs[worker], Executed(w));
  }

  lemma CompletedRows(cfg: DeskConfig, w: World, worker: nat)
    requires WorldOk(cfg, w) && worker in w.jobs && w.jobs[worker].ToComplete?
    ensures var job := w.jobs[worker];
            && JobOk(cfg, w.desk, Executed(w), job)
            && CompleteRows(w.desk.actions, CompleteAction(w.desk.actions, job.action, job.msg.id, job.appointment), job)
  {
    assert JobOk(cfg, w.desk, Executed(w), w.jobs[worker]);
  }

  lemma CompleteKeepsWorld(cfg: DeskConfig, w: World, worker: nat)
    requires WorldOk(cfg, w) && worker in w.jobs && w.jobs[worker].ToComplete?
    ensures WorldOk(cfg, DoComplete(w, worker))
  {
    var job := w.jobs[worker];
    CompletedRows(cfg, w, worker);
    CompleteOutcomeKeepsWorld(cfg, w, worker, CompleteAction(w.desk.actions, job.action, job.msg.id, job.appointment));
  }

  lemma CrashKeepsWorld(cfg: DeskConfig, w: World, worker: nat)
    requires WorldOk(cfg, w)
    ensures WorldOk(cfg, w.(jobs := w.jobs - {worker}))
  {
  }

  /** The agenda grows by rows under other callers' keys. */
  lemma OtherGrowthKeepsWorld(cfg: DeskConfig, w: World, st: Store)
    requires WorldOk(cfg, w) && AgendaOk(st) && Extends(w.desk.store, st)
    requires forall i :: |w.desk.store.appointments| <= i < |st.appointments| && st.appointments[i].idempotencyKey.Some?
               ==> st.appointments[i].idempotencyKey.value.CallerKey?
    ensures WorldOk(cfg, w.(desk := w.desk.(store := st)))
  {
    forall k | k in w.jobs ensures JobOk(cfg, w.desk.(store := st), Executed(w), w.jobs[k]) {
      GrowthKeepsJob(cfg, w.desk, st, Executed(w), w.jobs[k]);
    }
    forall i | 0 <= i < |w.desk.store.appointments| ensures SameHistory(w.desk.store.appointments[i], st.appointments[i]) {
    }
    GrowthKeepsDone(w.desk.store, st, w.desk.actions, Executed(w));
  }

  lemma AgendaStepKeepsWorld(cfg: DeskConfig, w: World, step: Step)
    requires WorldOk(cfg, w) && Legal(AgendaEvent(step))
    ensures WorldOk(cfg, DoAgenda(w, cfg, step))
  {
    var st := Apply(w.desk.store, cfg.scheduling, step);
    assert DoAgenda(w, cfg, step) == w.(desk := w.desk.(store := st));
    StepKeepsAgenda(w.desk.store, cfg.scheduling, step);
    StepExtends(w.desk.store, cfg.scheduling, step);
    StepGrowth(w.desk.store, cfg.scheduling, step);
    OtherGrowthKeepsWorld(cfg, w, st);
  }

  lemma StepGrowth(st: Store, cfg: Settings, step: Step)
    ensures |Apply(st, cfg, step).appointments| > |st.appointments| ==> step.CreateStep?
    ensures step.CreateStep? ==> forall i :: |st.appointments| <= i < |Apply(st, cfg, step).appointments| ==>
              Apply(st, cfg, step).appointments[i].idempotencyKey == step.create.idempotencyKey
  {
    if step.CreateStep? {
      CreateGrowth(st, cfg, step.create, step.now, step.draws);
    }
  }

  lemma PrepareKeepsWorld(cfg: DeskConfig, w: World, msg: Message, proposal: Proposal, now: int)
    requires WorldOk(cfg, w)
    ensures WorldOk(cfg, DoPrepare(w, cfg, msg, proposal, now))
  {
    PrepareKeeps(w.desk, cfg, msg, proposal, now);
    QuietStepKeepsWorld(cfg, w, Prepare(w.desk, cfg, msg, proposal, now).0.actions);
  }

  lemma DiscardKeepsWorld(cfg: DeskConfig, w: World, msg: Message, now: int)
    requires WorldOk(cfg, w)
    ensures WorldOk(cfg, DoDiscard(w, cfg, msg, now))
  {
    DiscardKeeps(w.desk, cfg, msg, now);
    QuietStepKeepsWorld(cfg, w, Discard(w.desk, cfg, msg, now).0.actions);
  }

  lemma RefusedClaimChangesNothing(cfg: DeskConfig, w: World, worker: nat, msg: Message, now: int)
    requires WorldOk(cfg, w) && (worker in w.jobs || BeginConfirm(w.desk, cfg, msg, now).1.Failure?)
    ensures DoClaim(w, cfg, worker, msg, now) == w
  {
    BeginKeeps(w.desk, cfg, msg, now);
  }

  lemma AnyClaimKeepsWorld(cfg: DeskConfig, w: World, worker: nat, msg: Message, now: int)
    requires WorldOk(cfg, w)
    ensures WorldOk(cfg, DoClaim(w, cfg, worker, msg, now))
  {
    if worker in w.jobs || BeginConfirm(w.desk, cfg, msg, now).1.Failure? {
      RefusedClaimChangesNothing(cfg, w, worker, msg, now);
    } else {
      ClaimKeepsWorld(cfg, w, worker, msg, now);
    }
  }

  lemma AnyExecuteKeepsWorld(cfg: DeskConfig, w: World, worker: nat, now: int, draws: CodeDraws)
    requires WorldOk(cfg, w)
    ensures WorldOk(cfg, DoExecute(w, cfg, worker, now, draws))
  {
    if worker in w.jobs && w.jobs[worker].ToExecute? {
      ExecuteKeepsWorld(cfg, w, worker, now, draws);
    }
  }

  lemma AnyCompleteKeepsWorld(cfg: DeskConfig, w: World, worker: nat)
    requires WorldOk(cfg, w)
    ensures WorldOk(cfg, DoComplete(w, worker))
  {
    if worker in w.jobs && w.jobs[worker].ToComplete? {
      CompleteKeepsWorld(cfg, w, worker);
    }
  }

  lemma EventKeepsWorld(cfg: DeskConfig, w: World, e: Event)
    requires WorldOk(cfg, w) && Legal(e)
    ensures WorldOk(cfg, Next(w, cfg, e))
  {
    match e
    case PrepareEvent(msg, proposal, now) => PrepareKeepsWorld(cfg, w, msg, proposal, now);
    case ClaimEvent(worker, msg, now) => AnyClaimKeepsWorld(cfg, w, worker, msg, now);
    case ExecuteEvent(worker, now, draws) => AnyExecuteKeepsWorld(cfg, w, worker, now, draws);
    case CompleteEvent(worker) => AnyCompleteKeepsWorld(cfg, w, worker);
    case CrashEvent(worker) => CrashKeepsWorld(cfg, w, worker);
    case DiscardEvent(msg, now) => DiscardKeepsWorld(cfg, w, msg, now);
    case AgendaEvent(step) => AgendaStepKeepsWorld(cfg, w, step);
  }

  lemma PrepareEvolves(cfg: DeskConfig, w: World, msg: Message, proposal: Proposal, now: int)
    requires WorldOk(cfg, w)
    ensures RowsEvolve(w.desk.actions, DoPrepare(w, cfg, msg, proposal, now).desk.actions, false)
  {
    var actions := Prepare(w.desk, cfg, msg, proposal, now).0.actions;
    assert DoPrepare(w, cfg, msg, proposal, now).desk.actions == actions;
    PrepareKeeps(w.desk, cfg, msg, proposal, now);
  }

  lemma ClaimEvolves(cfg: DeskConfig, w: World, worker: nat, msg: Message, now: int)
    requires WorldOk(cfg, w)
    ensures RowsEvolve(w.desk.actions, DoClaim(w, cfg, worker, msg, now).desk.actions, false)
  {
    if worker !in w.jobs {
      var actions := BeginConfirm(w.desk, cfg, msg, now).0.actions;
      assert DoClaim(w, cfg, worker, msg, now).desk.actions == actions;
      BeginKeeps(w.desk, cfg, msg, now);
    }
  }

  lemma CompleteEvolves(cfg: DeskConfig, w: World, worker: nat)
    requires WorldOk(cfg, w)
    ensures RowsEvolve(w.desk.actions, DoComplete(w, worker).desk.actions, true)
  {
    if worker in w.jobs && w.jobs[worker].ToComplete? {
      var job := w.jobs[worker];
      var actions := CompleteAction(w.desk.actions, job.action, job.msg.id, job.appointment);
      assert DoComplete(w, worker).desk.actions == actions;
      CompletedRows(cfg, w, worker);
      CompleteKeepsActions(cfg, w.desk.actions, actions, job);
    }
  }

  lemma DiscardEvolves(cfg: DeskConfig, w: World, msg: Message, now: int)
    requires WorldOk(cfg, w)
    ensures RowsEvolve(w.desk.actions, DoDiscard(w, cfg, msg, now).desk.actions, false)
  {
    var actions := Discard(w.desk, cfg, msg, now).0.actions;
    assert DoDiscard(w, cfg, msg, now).desk.actions == actions;
    DiscardKeeps(w.desk, cfg, msg, now);
  }

  lemma OtherStepsKeepRows(cfg: DeskConfig, w: World, e: Event)
    requires WorldOk(cfg, w) && (e.ExecuteEvent? || e.CrashEvent? || e.AgendaEvent?)
    ensures Next(w, cfg, e).desk.actions == w.desk.actions
  {
    if e.ExecuteEvent? && e.worker in w.jobs && w.jobs[e.worker].ToExecute? {
      ExecuteKeepsWorld(cfg, w, e.worker, e.now, e.draws);
    }
  }

  /**
   * What any step does to the action rows: proposals stay, statuses take one step of the graph, and
   * a row that is not awaiting changes only when its own confirmation completes.
   */
  lemma EventEvolves(cfg: DeskConfig, w: World, e: Event)
    requires WorldOk(cfg, w)
    ensures RowsEvolve(w.desk.actions, Next(w, cfg, e).desk.actions, e.CompleteEvent?)
  {
    match e
    case PrepareEvent(msg, proposal, now) => PrepareEvolves(cfg, w, msg, proposal, now);
    case ClaimEvent(worker, msg, now) => ClaimEvolves(cfg, w, worker, msg, now);
    case CompleteEvent(worker) => CompleteEvolves(cfg, w, worker);
    case DiscardEvent(msg, now) => DiscardEvolves(cfg, w, msg, now);
    case _ =>
      OtherStepsKeepRows(cfg, w, e);
      assert RowsEvolve(w.desk.actions, w.desk.actions, false);
  }

  /** The protocol starts sound: empty agenda, no actions, no workers. */
  lemma EmptyWorldIsOk(cfg: DeskConfig, services: map<Key, ServiceRow>, hours: seq<HoursRow>, resources: seq<ResourceRow>)
    ensures WorldOk(cfg, World(Desk(Store([], map[], services, hours, resources), []), map[], [], []))
  {
  }

  lemma {:induction false} RunKeepsWorld(cfg: DeskConfig, w: World, events: seq<Event>)
    requires WorldOk(cfg, w) && AllLegal(events)
    ensures WorldOk(cfg, Reach(w, cfg, events))
    decreases |events|
  {
    if events != [] {
      assert Legal(events[0]);
      EventKeepsWorld(cfg, w, events[0]);
      RunKeepsWorld(cfg, Next(w, cfg, events[0]), events[1..]);
    }
  }

  // ------------------------------------------------------------- main results

  /**
   * At most one effect: whatever crashes and interleaves, each action's agenda transaction is tried
   * at most once, at most one appointment carries its key, and a completed create points to exactly
   * that appointment.
   */
  lemma {:induction false} AtMostOneEffect(cfg: DeskConfig, w: World, events: seq<Event>, a: nat)
    requires WorldOk(cfg, w) && AllLegal(events)
    ensures
      var final := Reach(w, cfg, events);
      && Distinct(Executed(final))
      && (forall i: nat, j: nat :: KeyedBy(final.desk.store, i, a) && KeyedBy(final.desk.store, j, a) ==> i == j)
      && (a < |final.desk.actions| && final.desk.actions[a].status.Done? && final.desk.actions[a].payload.CreatePayload? ==>
            && final.desk.actions[a].result.Some?
            && forall i: nat :: KeyedBy(final.desk.store, i, a) <==> final.desk.actions[a].result == Some(i))
  {
    RunKeepsWorld(cfg, w, events);
    var final := Reach(w, cfg, events);
    forall i: nat, j: nat | KeyedBy(final.desk.store, i, a) && KeyedBy(final.desk.store, j, a) ensures i == j {
      FindKeyIsUnique(final.desk.store.appointments, PendingActionKey(a), i);
      FindKeyIsUnique(final.desk.store.appointments, PendingActionKey(a), j);
    }
  }

  /**
   * Every execution was claimed once, before the deadline set at preparation, by a different message
   * of the same customer that says yes explicitly.
   */
  lemma {:induction false} ExecutionsAreConfirmedInTime(cfg: DeskConfig, w: World, events: seq<Event>, a: nat)
    requires WorldOk(cfg, w) && AllLegal(events) && a in Executed(Reach(w, cfg, events))
    ensures
      var final := Reach(w, cfg, events);
      && a < |final.desk.actions|
      && exists c :: c in final.claims && c.action == a
           && c.at < final.desk.actions[a].preparedAt + cfg.ttlMinutes * MINUTE
           && ConfirmedProperly(cfg, final.desk.actions[a], c.msg)
  {
    RunKeepsWorld(cfg, w, events);
    var final := Reach(w, cfg, events);
    assert Claimed(final.desk.actions[a]);
    assert HasClaim(final.claims, a);
    var c :| c in final.claims && c.action == a;
    assert ClaimOk(cfg, final.desk.actions, c);
    assert ActionOk(cfg, final.desk.actions[a]);
  }

  /** A finished action never moves again, and no action returns to awaiting. */
  predicate Ended(s: ActionStatus) {
    !s.Awaiting? && !s.Executing?
  }

  ghost predicate LaterStatus(before: ActionStatus, after: ActionStatus) {
    && (Ended(before) ==> after == before)
    && (before.Executing? ==> after.Executing? || after.Done?)
  }

  /**
   * Lifecycle over every run: proposals are immutable, statuses follow the acyclic graph, at most
   * one action per customer awaits, attempts is 1 exactly for claimed actions, and the stored
   * preview always matches its fingerprint.
   */
  lemma {:induction false} ActionLifecycle(cfg: DeskConfig, w: World, events: seq<Event>)
    requires WorldOk(cfg, w) && AllLegal(events)
    ensures
      var final := Reach(w, cfg, events);
      && |w.desk.actions| <= |final.desk.actions|
      && (forall i :: 0 <= i < |w.desk.actions| ==>
            SameProposal(w.desk.actions[i], final.desk.actions[i]) && LaterStatus(w.desk.actions[i].status, final.desk.actions[i].status))
      && OneAwaiting(final.desk.actions)
      && (forall i :: 0 <= i < |final.desk.actions| ==> ActionOk(cfg, final.desk.actions[i]))
    decreases |events|
  {
    if events != [] {
      assert Legal(events[0]);
      var next := Next(w, cfg, events[0]);
      EventKeepsWorld(cfg, w, events[0]);
      EventEvolves(cfg, w, events[0]);
      ActionLifecycle(cfg, next, events[1..]);
      var final := Reach(w, cfg, events);
      forall i | 0 <= i < |w.desk.actions|
        ensures SameProposal(w.desk.actions[i], final.desk.actions[i]) && LaterStatus(w.desk.actions[i].status, final.desk.actions[i].status)
      {
        assert StatusStep(w.desk.actions[i].status, next.desk.actions[i].status);
        assert LaterStatus(next.desk.actions[i].status, final.desk.actions[i].status);
      }
    }
  }

  /** The "data changed" branch of a confirmation is dead: a preview is hashed and stored together. */
  lemma DataNeverChanges(cfg: DeskConfig, w: World, msg: Message, now: int)
    requires WorldOk(cfg, w)
    ensures BeginConfirm(w.desk, cfg, msg, now).1 != Failure(ConfirmationDataChanged)
  {
    BeginKeeps(w.desk, cfg, msg, now);
  }

  /** The action is executing and no worker holds it any more. */
  ghost predicate Abandoned(w: World, a: nat) {
    && a < |w.desk.actions| && w.desk.actions[a].status.Executing?
    && forall k :: k in w.jobs ==> w.jobs[k].action != a
  }

  /**
   * An execution abandons its action if and only if it fails: the recovery looks among awaiting rows
   * only, so it finds nothing, and agenda and action rows stay as they were.
   */
  lemma FailedExecutionIsAbandoned(cfg: DeskConfig, w: World, worker: nat, now: int, draws: CodeDraws)
    requires WorldOk(cfg, w) && worker in w.jobs && w.jobs[worker].ToExecute?
    ensures w.jobs[worker].action < |w.desk.actions|
    ensures
      var job := w.jobs[worker];
      var r := ExecuteAction(w.desk.store, cfg, job.action, w.desk.actions[job.action].payload, job.msg, now, draws).1;
      var w' := DoExecute(w, cfg, worker, now, draws);
      (r.Failure? <==> Abandoned(w', job.action)) && (r.Failure? ==> w'.desk == w.desk)
  {
    assert JobOk(cfg, w.desk, Executed(w), w.jobs[worker]);
    ExecuteKeepsWorld(cfg, w, worker, now, draws);
    var job := w.jobs[worker];
    var outcome := ExecuteAction(w.desk.store, cfg, job.action, w.desk.actions[job.action].payload, job.msg, now, draws);
    assert DoExecute(w, cfg, worker, now, draws) == AfterExecute(w, worker, job.action, job.msg, now, outcome);
    OutcomeIsSound(cfg, w, job, now, draws);
    if outcome.1.Success? {
      assert DoExecute(w, cfg, worker, now, draws).jobs[worker].action == job.action;
    }
  }

  /** An abandoned action stays executing for ever: it is neither failed, completed nor run again. */
  lemma {:induction false} AbandonedForEver(cfg: DeskConfig, w: World, events: seq<Event>, a: nat)
    requires WorldOk(cfg, w) && AllLegal(events) && Abandoned(w, a)
    ensures
      var final := Reach(w, cfg, events);
      && Abandoned(final, a) && final.desk.actions[a] == w.desk.actions[a]
      && (a in Executed(final) <==> a in Executed(w))
    decreases |events|
  {
    if events != [] {
      assert Legal(events[0]);
      EventKeepsWorld(cfg, w, events[0]);
      EventKeepsAbandoned(cfg, w, events[0], a);
      AbandonedForEver(cfg, Next(w, cfg, events[0]), events[1..], a);
    }
  }

  lemma EventKeepsAbandoned(cfg: DeskConfig, w: World, e: Event, a: nat)
    requires WorldOk(cfg, w) && Abandoned(w, a)
    ensures var w' := Next(w, cfg, e);
            Abandoned(w', a) && w'.desk.actions[a] == w.desk.actions[a] && (a in Executed(w') <==> a in Executed(w))
  {
    EventEvolves(cfg, w, e);
    match e
    case PrepareEvent(_, _, _) =>
    case ClaimEvent(worker, msg, now) => ClaimKeepsAbandoned(cfg, w, worker, msg, now, a);
    case ExecuteEvent(worker, now, draws) => ExecuteKeepsAbandoned(cfg, w, worker, now, draws, a);
    case CompleteEvent(worker) => CompleteKeepsAbandoned(cfg, w, worker, a);
    case CrashEvent(_) =>
    case DiscardEvent(_, _) =>
    case AgendaEvent(_) =>
  }

  lemma CompleteKeepsAbandoned(cfg: DeskConfig, w: World, worker: nat, a: nat)
    requires WorldOk(cfg, w) && Abandoned(w, a)
    ensures var w' := DoComplete(w, worker);
            Abandoned(w', a) && w'.desk.actions[a] == w.desk.actions[a] && Executed(w') == Executed(w)
  {
    if worker in w.jobs && w.jobs[worker].ToComplete? {
      CompletedRows(cfg, w, worker);
    }
  }

  lemma OutcomeKeepsAbandoned(w: World, worker: nat, a: nat, at: int, outcome: (Store, Result<Booking, SchedulingError>))
    requires Abandoned(w, a) && worker in w.jobs
    ensures var w' := AfterExecute(w, worker, w.jobs[worker].action, w.jobs[worker].msg, at, outcome);
            (a in Executed(w') <==> a in Executed(w)) && forall k :: k in w'.jobs ==> w'.jobs[k].action != a
  {
    OneMoreExecution(w.executions, Execution(w.jobs[worker].action, at));
  }

  lemma ExecuteKeepsAbandoned(cfg: DeskConfig, w: World, worker: nat, now: int, draws: CodeDraws, a: nat)
    requires Abandoned(w, a)
    ensures var w' := DoExecute(w, cfg, worker, now, draws);
            (a in Executed(w') <==> a in Executed(w)) && forall k :: k in w'.jobs ==> w'.jobs[k].action != a
  {
    if worker in w.jobs && w.jobs[worker].ToExecute? && w.jobs[worker].action < |w.desk.actions| {
      var job := w.jobs[worker];
      OutcomeKeepsAbandoned(w, worker, a, now,
        ExecuteAction(w.desk.store, cfg, job.action, w.desk.actions[job.action].payload, job.msg, now, draws));
    }
  }

  lemma ClaimKeepsAbandoned(cfg: DeskConfig, w: World, worker: nat, msg: Message, now: int, a: nat)
    requires WorldOk(cfg, w) && Abandoned(w, a)
    ensures var w' := DoClaim(w, cfg, worker, msg, now);
            Executed(w') == Executed(w) && forall k :: k in w'.jobs ==> w'.jobs[k].action != a
  {
    BeginKeeps(w.desk, cfg, msg, now);
  }
}
