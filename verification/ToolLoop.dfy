/**
 * The language model's tool loop. The model is an adversary: each round it may ask for any tool,
 * several tools, or none. Within one reply it can cause at most one change of the agenda, and only
 * the one its customer had already been asked to confirm.
 */
module ToolLoop {
  import opened Prelude
  import opened Calendar
  import opened Agenda
  import opened PendingActions
  import opened ActionProtocol
  import opened SchedulingActionServices

  /** A tool call after argument parsing; unknown names and invalid arguments only yield an error text. */
  datatype ToolCall =
    | ProposeTool(proposal: Proposal)
    | ConfirmTool
    | DiscardTool
    | ReadTool(listsSlots: bool)
    | RefusedTool

  /** A call with the clock readings and code draws of its execution. */
  datatype TimedCall = TimedCall(call: ToolCall, now: int, executedAt: int, draws: CodeDraws)

  /** `SchedulingWriteToolExecutor.execute`: every error becomes a result, none escapes. */
  function ExecuteTool(d: Desk, cfg: DeskConfig, msg: Message, t: TimedCall): Desk {
    match t.call
    case ProposeTool(proposal) => Prepare(d, cfg, msg, proposal, t.now).0
    case ConfirmTool => Confirm(d, cfg, msg, t.now, t.executedAt, t.draws).0
    case DiscardTool => Discard(d, cfg, msg, t.now).0
    case ReadTool(_) => d
    case RefusedTool => d
  }

  function RunTools(d: Desk, cfg: DeskConfig, msg: Message, calls: seq<TimedCall>): Desk
    decreases |calls|
  {
    if calls == [] then d else RunTools(ExecuteTool(d, cfg, msg, calls[0]), cfg, msg, calls[1..])
  }

  lemma {:induction false} RunToolsSnoc(d: Desk, cfg: DeskConfig, msg: Message, calls: seq<TimedCall>, last: TimedCall)
    ensures RunTools(d, cfg, msg, calls + [last]) == ExecuteTool(RunTools(d, cfg, msg, calls), cfg, msg, last)
    decreases |calls|
  {
    if calls == [] {
      assert ([last])[1..] == [];
      assert calls + [last] == [last];
    } else {
      assert (calls + [last])[1..] == calls[1..] + [last];
      RunToolsSnoc(ExecuteTool(d, cfg, msg, calls[0]), cfg, msg, calls[1..], last);
    }
  }

  /** How many of the calls changed the agenda. */
  function AgendaChanges(d: Desk, cfg: DeskConfig, msg: Message, calls: seq<TimedCall>): nat
    decreases |calls|
  {
    if calls == [] then 0
    else
      var next := ExecuteTool(d, cfg, msg, calls[0]);
      (if next.store != d.store then 1 else 0) + AgendaChanges(next, cfg, msg, calls[1..])
  }

  // ----------------------------------------------------------------- the loop

  /** What the language model returns in one round. */
  datatype Turn = SeveralCalls | Answer(text: string) | OneCall(tool: TimedCall)

  datatype LoopOutcome = Replied | Raised

  /** The message has a phone and a text to answer. */
  predicate CanAnswer(msg: Message) {
    IsPhone(Strip(RawPhone(msg))) && msg.text.Some? && !IsBlank(msg.text.value)
  }

  /** No executed call asked for free slots: the loop ends with the first that does. */
  predicate NoListing(executed: seq<TimedCall>) {
    forall k :: 0 <= k < |executed| ==> executed[k].call != ReadTool(true)
  }

  /**
   * When the loop ends with a reply: the guard answered at once; or the last executed call listed free
   * slots; or the next turn is a text, or, with a round left, a request for slots that the guard refuses.
   */
  predicate EndsInReply(msg: Message, turns: seq<Turn>, gatedReply: bool, canCheckSlots: bool, maxToolRounds: nat, executed: seq<TimedCall>)
    requires |executed| < |turns|
  {
    && CanAnswer(msg)
    && (|| gatedReply
        || (executed != [] && executed[|executed| - 1].call == ReadTool(true))
        || NextTurnReplies(turns[|executed|], canCheckSlots, |executed| < maxToolRounds))
  }

  predicate NextTurnReplies(turn: Turn, canCheckSlots: bool, roundLeft: bool) {
    match turn
    case SeveralCalls => false
    case Answer(text) => text != ""
    case OneCall(tool) => roundLeft && tool.call == ReadTool(true) && !canCheckSlots
  }

  class CarlosSchedulingWriteService {
    const desk: SchedulingActionService
    const maxToolRounds: nat

    constructor (desk: SchedulingActionService, maxToolRounds: nat)
      ensures this.desk == desk && this.maxToolRounds == maxToolRounds
    {
      this.desk, this.maxToolRounds := desk, maxToolRounds;
    }

    method ExecuteCall(msg: Message, t: TimedCall)
      requires desk.Valid()
      modifies desk`actions, desk.scheduler.db
      ensures desk.State() == ExecuteTool(old(desk.State()), desk.cfg, msg, t)
    {
      match t.call
      case ProposeTool(proposal) =>
        match proposal {
          case ProposeCreate(args) =>
            var prepared := desk.PrepareCreate(msg, args, t.now);
          case ProposeCancel(id, reason) =>
            var prepared := desk.PrepareCancel(msg, id, reason, t.now);
          case ProposeReschedule(args) =>
            var prepared := desk.PrepareReschedule(msg, args, t.now);
        }
      case ConfirmTool =>
        var confirmed := desk.ConfirmPendingAction(msg, t.now, t.executedAt, t.draws);
      case DiscardTool =>
        var discarded := desk.DiscardPendingAction(msg, t.now);
      case ReadTool(_) =>
      case RefusedTool =>
    }

    /**
     * The bounded loop of `generate_reply`. `turns` is what the model would answer round by round;
     * `canCheckSlots` is the availability guard's verdict on the conversation so far, and
     * `gatedReply` says that the guard answers the message before the model is asked.
     */
    method GenerateReply(msg: Message, turns: seq<Turn>, gatedReply: bool, canCheckSlots: bool)
      returns (outcome: LoopOutcome, executed: seq<TimedCall>)
      requires desk.Valid() && maxToolRounds < |turns|
      modifies desk`actions, desk.scheduler.db
      ensures desk.State() == RunTools(old(desk.State()), desk.cfg, msg, executed)
      ensures |executed| <= maxToolRounds
      ensures forall k :: 0 <= k < |executed| ==> turns[k] == OneCall(executed[k])
      ensures outcome.Replied? <==> EndsInReply(msg, turns, gatedReply, canCheckSlots, maxToolRounds, executed)
      ensures !CanAnswer(msg) || gatedReply ==> executed == []
    {
      executed := [];
      if !IsPhone(Strip(RawPhone(msg))) || msg.text.None? || IsBlank(msg.text.value) {
        return Raised, executed;
      }
      if gatedReply {
        return Replied, executed;
      }
      for round := 0 to maxToolRounds + 1
        invariant |executed| == round
        invariant desk.State() == RunTools(old(desk.State()), desk.cfg, msg, executed)
        invariant forall k :: 0 <= k < round ==> turns[k] == OneCall(executed[k])
        invariant round <= maxToolRounds && NoListing(executed)
      {
        match turns[round]
        case SeveralCalls =>
          return Raised, executed;
        case Answer(text) =>
          return if text == "" then Raised else Replied, executed;
        case OneCall(tool) =>
          if round >= maxToolRounds {
            return Raised, executed;
          }
          if tool.call == ReadTool(true) && !canCheckSlots {
            return Replied, executed;
          }
          RunToolsSnoc(old(desk.State()), desk.cfg, msg, executed, tool);
          ExecuteCall(msg, tool);
          executed := executed + [tool];
          if tool.call == ReadTool(true) {
            return Replied, executed;
          }
      }
      outcome := Raised;
    }
  }

  // ------------------------------------------------------- at most one change

  /** Awaiting an answer from this customer, and prepared by some other message. */
  predicate AwaitsAnswer(a: Action, msg: Message) {
    AwaitingOf(a, SenderOf(msg)) && a.preparedFrom != msg.id
  }

  ghost predicate NothingToConfirm(actions: seq<Action>, msg: Message) {
    forall i :: 0 <= i < |actions| ==> !AwaitsAnswer(actions[i], msg)
  }

  /** Within this message's run, answers are awaited only by rows that awaited them before. */
  ghost predicate AwaitedBefore(before: seq<Action>, after: seq<Action>, msg: Message) {
    forall i :: 0 <= i < |after| && AwaitsAnswer(after[i], msg) ==> i < |before| && after[i] == before[i]
  }

  lemma PrepareEffect(d: Desk, cfg: DeskConfig, msg: Message, proposal: Proposal, now: int)
    requires ActionsOk(cfg, d.actions)
    ensures var d' := Prepare(d, cfg, msg, proposal, now).0;
            ActionsOk(cfg, d'.actions) && d'.store == d.store && AwaitedBefore(d.actions, d'.actions, msg)
  {
    PrepareKeeps(d, cfg, msg, proposal, now);
    var (d', r) := Prepare(d, cfg, msg, proposal, now);
    if r.Success? {
      var who := Identity(cfg, msg).value;
      var (payload, preview) := Plan(d, cfg, who, proposal, now).value;
      StoredRows(cfg, d.actions, msg, who, payload, preview, now);
    }
  }

  lemma StoredRows(cfg: DeskConfig, actions: seq<Action>, msg: Message, who: CustomerKey, payload: Payload, preview: Preview, now: int)
    ensures var after := StoreAction(cfg, actions, msg, who, payload, preview, now);
            && |after| == |actions| + 1 && after[|actions|].preparedFrom == msg.id
            && forall i :: 0 <= i < |actions| && after[i].status.Awaiting? ==> after[i] == actions[i]
  {
  }

  lemma DiscardEffect(d: Desk, cfg: DeskConfig, msg: Message, now: int)
    requires ActionsOk(cfg, d.actions)
    ensures var d' := Discard(d, cfg, msg, now).0;
            ActionsOk(cfg, d'.actions) && d'.store == d.store && AwaitedBefore(d.actions, d'.actions, msg)
  {
    DiscardKeeps(d, cfg, msg, now);
  }

  /** What a confirmation call does: nothing, or consume the one awaited answer and execute it. */
  ghost predicate ConfirmedOne(d: Desk, d': Desk, cfg: DeskConfig, msg: Message, t: TimedCall, i: nat) {
    && i < |d.actions| && AwaitsAnswer(d.actions[i], msg) && t.now < d.actions[i].expiresAt
    && cfg.isConfirmation(CandidateText(msg))
    && NothingToConfirm(d'.actions, msg)
    && d'.store == ExecuteAction(d.store, cfg, i, d.actions[i].payload, msg, t.executedAt, t.draws).0
  }

  lemma ClaimLeavesNothing(d: Desk, cfg: DeskConfig, msg: Message, now: int)
    requires ActionsOk(cfg, d.actions) && BeginConfirm(d, cfg, msg, now).1.Success?
    ensures var (d', r) := BeginConfirm(d, cfg, msg, now);
            && r.value < |d.actions| == |d'.actions| && AwaitsAnswer(d.actions[r.value], msg)
            && NothingToConfirm(d'.actions, msg) && d'.actions[r.value].status.Executing?
            && d'.actions[r.value].payload == d.actions[r.value].payload
  {
    BeginKeeps(d, cfg, msg, now);
    var (d', r) := BeginConfirm(d, cfg, msg, now);
    forall i | 0 <= i < |d'.actions| ensures !AwaitsAnswer(d'.actions[i], msg) {
      if i != r.value && d.actions[i].status.Awaiting? {
        assert (d.actions[i].instance, d.actions[i].phone) != (d.actions[r.value].instance, d.actions[r.value].phone);
      }
    }
  }

  lemma ConfirmIsClaimThenRun(d: Desk, cfg: DeskConfig, msg: Message, t: TimedCall, d1: Desk, id: nat)
    requires BeginConfirm(d, cfg, msg, t.now) == (d1, Success(id)) && id < |d1.actions| && d1.actions[id].status.Executing?
    ensures
      var d' := Confirm(d, cfg, msg, t.now, t.executedAt, t.draws).0;
      && d'.store == ExecuteAction(d1.store, cfg, id, d1.actions[id].payload, msg, t.executedAt, t.draws).0
      && (d'.actions == d1.actions
          || exists b: nat :: d'.actions == CompleteAction(d1.actions, id, msg.id, b))
  {
    var (st, r) := ExecuteAction(d1.store, cfg, id, d1.actions[id].payload, msg, t.executedAt, t.draws);
    RecoveryFindsNothing(d1.actions, id, SenderOf(msg));
    if r.Success? {
      assert Confirm(d, cfg, msg, t.now, t.executedAt, t.draws).0.actions == CompleteAction(d1.actions, id, msg.id, r.value.id);
    }
  }

  lemma CompletionKeepsActions(cfg: DeskConfig, msg: Message, actions: seq<Action>, id: nat, b: nat)
    requires ActionsOk(cfg, actions) && id < |actions| && actions[id].status.Executing? && NothingToConfirm(actions, msg)
    ensures var after := CompleteAction(actions, id, msg.id, b);
            ActionsOk(cfg, after) && NothingToConfirm(after, msg)
  {
    var after := CompleteAction(actions, id, msg.id, b);
    forall i | 0 <= i < |after| ensures ActionOk(cfg, after[i]) {
      assert ActionOk(cfg, actions[i]);
    }
  }

  lemma {:induction false} ConfirmEffect(d: Desk, cfg: DeskConfig, msg: Message, t: TimedCall)
    requires ActionsOk(cfg, d.actions)
    ensures var d' := Confirm(d, cfg, msg, t.now, t.executedAt, t.draws).0;
            ActionsOk(cfg, d'.actions) && (d' == d || exists i :: ConfirmedOne(d, d', cfg, msg, t, i))
  {
    BeginKeeps(d, cfg, msg, t.now);
    var (d1, r) := BeginConfirm(d, cfg, msg, t.now);
    if r.Success? {
      ClaimLeavesNothing(d, cfg, msg, t.now);
      ConfirmIsClaimThenRun(d, cfg, msg, t, d1, r.value);
      var d' := Confirm(d, cfg, msg, t.now, t.executedAt, t.draws).0;
      if d'.actions != d1.actions {
        var b: nat :| d'.actions == CompleteAction(d1.actions, r.value, msg.id, b);
        CompletionKeepsActions(cfg, msg, d1.actions, r.value, b);
      }
      assert ConfirmedOne(d, d', cfg, msg, t, r.value);
    }
  }

  /** One tool call: the agenda stays, or the awaited action is executed and nothing is left to confirm. */
  lemma ToolEffect(d: Desk, cfg: DeskConfig, msg: Message, t: TimedCall)
    requires ActionsOk(cfg, d.actions)
    ensures var d' := ExecuteTool(d, cfg, msg, t);
            && ActionsOk(cfg, d'.actions)
            && (|| (d'.store == d.store && AwaitedBefore(d.actions, d'.actions, msg))
                || exists i :: ConfirmedOne(d, d', cfg, msg, t, i))
  {
    match t.call
    case ProposeTool(proposal) => PrepareEffect(d, cfg, msg, proposal, t.now);
    case ConfirmTool => ConfirmEffect(d, cfg, msg, t);
    case DiscardTool => DiscardEffect(d, cfg, msg, t.now);
    case ReadTool(_) =>
    case RefusedTool =>
  }

  /** With nothing to confirm, no sequence of calls of this message changes the agenda. */
  lemma {:induction false} NothingToConfirmNothingChanges(d: Desk, cfg: DeskConfig, msg: Message, calls: seq<TimedCall>)
    requires ActionsOk(cfg, d.actions) && NothingToConfirm(d.actions, msg)
    ensures RunTools(d, cfg, msg, calls).store == d.store && AgendaChanges(d, cfg, msg, calls) == 0
    decreases |calls|
  {
    if calls != [] {
      ToolEffect(d, cfg, msg, calls[0]);
      NothingToConfirmNothingChanges(ExecuteTool(d, cfg, msg, calls[0]), cfg, msg, calls[1..]);
    }
  }

  /** The run executed action `i` as it stood when the run began, on the agenda as it stood then. */
  ghost predicate ExecutedAwaited(d: Desk, final: Desk, cfg: DeskConfig, msg: Message, calls: seq<TimedCall>, i: nat, t: TimedCall) {
    && i < |d.actions| && AwaitsAnswer(d.actions[i], msg)
    && t in calls && t.call.ConfirmTool? && t.now < d.actions[i].expiresAt
    && cfg.isConfirmation(CandidateText(msg))
    && final.store == ExecuteAction(d.store, cfg, i, d.actions[i].payload, msg, t.executedAt, t.draws).0
  }

  /** The agenda stayed, or it is the one awaited execution. */
  ghost predicate AtMostTheAwaited(d: Desk, final: Desk, cfg: DeskConfig, msg: Message, calls: seq<TimedCall>, changes: nat) {
    || (final.store == d.store && changes == 0)
    || (changes <= 1 && exists i, t :: ExecutedAwaited(d, final, cfg, msg, calls, i, t))
  }

  lemma QuietCallFirst(d: Desk, next: Desk, final: Desk, cfg: DeskConfig, msg: Message, calls: seq<TimedCall>, changes: nat)
    requires calls != [] && next.store == d.store && AwaitedBefore(d.actions, next.actions, msg)
    requires AtMostTheAwaited(next, final, cfg, msg, calls[1..], changes)
    ensures AtMostTheAwaited(d, final, cfg, msg, calls, changes)
  {
    if i, t :| ExecutedAwaited(next, final, cfg, msg, calls[1..], i, t) {
      assert ExecutedAwaited(d, final, cfg, msg, calls, i, t);
    }
  }

  lemma ConfirmingCallFirst(d: Desk, next: Desk, final: Desk, cfg: DeskConfig, msg: Message, calls: seq<TimedCall>, i: nat, changes: nat)
    requires calls != [] && calls[0].call.ConfirmTool? && ConfirmedOne(d, next, cfg, msg, calls[0], i)
    requires final.store == next.store && changes <= 1
    ensures AtMostTheAwaited(d, final, cfg, msg, calls, changes)
  {
    assert ExecutedAwaited(d, final, cfg, msg, calls, i, calls[0]);
  }

  /**
   * Whatever tools the model calls while answering one message, in any order and at any clock
   * readings, the agenda changes at most once; and if it changes, the change is the execution of
   * the unexpired action that was already awaiting this customer's answer when the run began, that
   * another message prepared, and that this message's own text explicitly confirms.
   */
  lemma {:induction false} OneChangePerReply(d: Desk, cfg: DeskConfig, msg: Message, calls: seq<TimedCall>)
    requires ActionsOk(cfg, d.actions)
    ensures AtMostTheAwaited(d, RunTools(d, cfg, msg, calls), cfg, msg, calls, AgendaChanges(d, cfg, msg, calls))
    decreases |calls|
  {
    if calls != [] {
      var next := ExecuteTool(d, cfg, msg, calls[0]);
      ToolEffect(d, cfg, msg, calls[0]);
      if next.store == d.store && AwaitedBefore(d.actions, next.actions, msg) {
        OneChangePerReply(next, cfg, msg, calls[1..]);
        QuietCallFirst(d, next, RunTools(next, cfg, msg, calls[1..]), cfg, msg, calls, AgendaChanges(next, cfg, msg, calls[1..]));
      } else {
        var i :| ConfirmedOne(d, next, cfg, msg, calls[0], i);
        OnlyConfirmChangesStore(d, cfg, msg, calls[0]);
        NothingToConfirmNothingChanges(next, cfg, msg, calls[1..]);
        ConfirmingCallFirst(d, next, RunTools(next, cfg, msg, calls[1..]), cfg, msg, calls, i, AgendaChanges(d, cfg, msg, calls));
      }
    }
  }

  lemma OnlyConfirmChangesStore(d: Desk, cfg: DeskConfig, msg: Message, t: TimedCall)
    requires ActionsOk(cfg, d.actions)
    requires var d' := ExecuteTool(d, cfg, msg, t); d'.store != d.store || !AwaitedBefore(d.actions, d'.actions, msg)
    ensures t.call.ConfirmTool?
  {
    match t.call
    case ProposeTool(proposal) => PrepareEffect(d, cfg, msg, proposal, t.now);
    case ConfirmTool =>
    case DiscardTool => DiscardEffect(d, cfg, msg, t.now);
    case ReadTool(_) =>
    case RefusedTool =>
  }
}
