/**
 * From inbox to customer: any number of inbound and outbound workers, each step of which is a
 * separate transaction, may crash anywhere or go on after their row was released and claimed again.
 */
module Delivery {
  import opened Prelude
  import In = InboundQueues
  import Safe = InboundSafety
  import Out = OutboundQueues

  /** A worker's current position on one claimed row. */
  datatype Task =
    | ToLookUp(inbound: nat)     // claimed, before the handler's lookup by key
    | ToEnqueue(inbound: nat)    // the lookup found nothing; the reply is being generated
    | ToComplete(inbound: nat)   // the handler returned
    | ToSend(outbound: nat)      // claimed, before the call of the messaging API
    | ToRecord(outbound: nat)    // the call was made

  /** `handled` and `sends` record history: messages completed after their handler, and API calls. */
  datatype World = World(
    inbox: seq<In.InboundRow>,
    outbox: seq<Out.OutboundRow>,
    tasks: multiset<Task>,
    handled: set<nat>,
    sends: multiset<nat>)

  /** The maximum attempts of both queues, and the rewriting of replies. */
  datatype Policy = Policy(maxInbound: nat, maxOutbound: nat, clean: Out.CleanUp)

  datatype Event =
    | Inbox(e: Safe.Event)                                   // registration and stale releases
    | ClaimInbound(now: int, limit: nat)
    | LookUp(inbound: nat)
    | EnqueueReply(inbound: nat, instance: string, recipient: string, text: string, createdAt: int)
    | Finish(inbound: nat, at: int)
    | HandlerRaised(task: Task, error: string, at: int, retryDelay: int, permanent: bool)
    | IgnoreSender(inbound: nat, at: int)
    | OtherEnqueue(text: string, instance: string, recipient: string, body: string, createdAt: int)
    | ClaimOutbound(now: int, limit: nat)
    | Send(outbound: nat)
    | Record(outbound: nat, answer: Out.Answer, retryDelay: int)
    | ReleaseOutbound(staleBefore: int, now: int)
    | Crash(task: Task)

  /** One task per claimed row. */
  function LookUpTasks(ids: seq<nat>): multiset<Task> {
    if ids == [] then multiset{} else LookUpTasks(ids[..|ids| - 1]) + multiset{ToLookUp(ids[|ids| - 1])}
  }

  function SendTasks(ids: seq<nat>): multiset<Task> {
    if ids == [] then multiset{} else SendTasks(ids[..|ids| - 1]) + multiset{ToSend(ids[|ids| - 1])}
  }

  function Move(tasks: multiset<Task>, from: Task, to: Task): multiset<Task> {
    tasks - multiset{from} + multiset{to}
  }

  // One function per kind of step; `Next` only chooses.

  /** Registrations and stale releases; claims and marks of the inbox are the workers' own steps. */
  function AfterInbox(w: World, policy: Policy, step: Safe.Event): World {
    if step.RegisterEvent? || step.ReleaseEvent? then w.(inbox := Safe.Next(w.inbox, policy.maxInbound, step)) else w
  }

  function AfterClaimInbound(w: World, policy: Policy, now: int, limit: nat): World {
    w.(inbox := Safe.Next(w.inbox, policy.maxInbound, Safe.ClaimEvent(now, limit)),
       tasks := w.tasks + LookUpTasks(In.SelectPending(w.inbox, now, limit)))
  }

  function AfterLookUp(w: World, i: nat): World {
    if ToLookUp(i) !in w.tasks then w
    else w.(tasks := Move(w.tasks, ToLookUp(i), if HasReply(w.outbox, i) then ToComplete(i) else ToEnqueue(i)))
  }

  /** An enqueue that is refused raises; `HandlerRaised` then ends the work on the message. */
  function AfterEnqueue(w: World, i: nat, outcome: (seq<Out.OutboundRow>, Out.Enqueued)): World {
    if ToEnqueue(i) !in w.tasks || outcome.1.Invalid? then w
    else w.(outbox := outcome.0, tasks := Move(w.tasks, ToEnqueue(i), ToComplete(i)))
  }

  /** Marking fails, and the worker moves on, when the row was released meanwhile. */
  function AfterFinish(w: World, policy: Policy, i: nat, at: int): World {
    var tasks := w.tasks - multiset{ToComplete(i)};
    if ToComplete(i) !in w.tasks then w
    else if In.IsProcessing(w.inbox, i) then
      w.(inbox := Safe.Next(w.inbox, policy.maxInbound, Safe.CompleteEvent(i, at)), tasks := tasks, handled := w.handled + {i})
    else w.(tasks := tasks)
  }

  /** A task is given up and its inbound row marked, if that row is still processing. */
  function AfterGivingUp(w: World, policy: Policy, task: Task, step: Safe.Event): World {
    w.(inbox := Safe.Next(w.inbox, policy.maxInbound, step), tasks := w.tasks - multiset{task})
  }

  function AfterRaise(w: World, policy: Policy, task: Task, error: string, at: int, retryDelay: int, permanent: bool): World {
    if task !in w.tasks || !(task.ToLookUp? || task.ToEnqueue?) then w
    else AfterGivingUp(w, policy, task,
           if permanent then Safe.PermanentEvent(task.inbound, error) else Safe.FailEvent(task.inbound, error, at, retryDelay))
  }

  function AfterIgnore(w: World, policy: Policy, i: nat, at: int): World {
    if ToLookUp(i) !in w.tasks then w else AfterGivingUp(w, policy, ToLookUp(i), Safe.CompleteEvent(i, at))
  }

  function WithOutbox(w: World, outbox: seq<Out.OutboundRow>): World {
    w.(outbox := outbox)
  }

  function AfterClaimOutbound(w: World, ids: seq<nat>, now: int): World {
    w.(outbox := Out.ClaimAll(w.outbox, ids, now), tasks := w.tasks + SendTasks(ids))
  }

  function AfterSend(w: World, o: nat): World {
    if ToSend(o) !in w.tasks then w
    else w.(tasks := Move(w.tasks, ToSend(o), ToRecord(o)), sends := w.sends + multiset{o})
  }

  function AfterRecord(w: World, policy: Policy, o: nat, answer: Out.Answer, retryDelay: int): World {
    var tasks := w.tasks - multiset{ToRecord(o)};
    if ToRecord(o) !in w.tasks then w
    else if Out.IsSending(w.outbox, o) then
      w.(outbox := w.outbox[o := Out.Recorded(w.outbox[o], answer, policy.maxOutbound, retryDelay)], tasks := tasks)
    else w.(tasks := tasks)
  }

  function AfterCrash(w: World, task: Task): World {
    w.(tasks := w.tasks - multiset{task})
  }

  function Next(w: World, policy: Policy, e: Event): World {
    match e
    case Inbox(step) => AfterInbox(w, policy, step)
    case ClaimInbound(now, limit) => AfterClaimInbound(w, policy, now, limit)
    case LookUp(i) => AfterLookUp(w, i)
    case EnqueueReply(i, instance, recipient, text, createdAt) =>
      AfterEnqueue(w, i, Out.Enqueue(w.outbox, policy.clean, Out.InboundReply(i), instance, recipient, text, createdAt))
    case Finish(i, at) => AfterFinish(w, policy, i, at)
    case HandlerRaised(task, error, at, retryDelay, permanent) => AfterRaise(w, policy, task, error, at, retryDelay, permanent)
    case IgnoreSender(i, at) => AfterIgnore(w, policy, i, at)
    case OtherEnqueue(text, instance, recipient, body, createdAt) =>
      WithOutbox(w, Out.Enqueue(w.outbox, policy.clean, Out.OtherKey(text), instance, recipient, body, createdAt).0)
    case ClaimOutbound(now, limit) => AfterClaimOutbound(w, Out.SelectPending(w.outbox, now, limit), now)
    case Send(o) => AfterSend(w, o)
    case Record(o, answer, retryDelay) => AfterRecord(w, policy, o, answer, retryDelay)
    case ReleaseOutbound(staleBefore, now) => WithOutbox(w, Out.ReleaseStale(w.outbox, staleBefore, now, policy.maxOutbound))
    case Crash(task) => AfterCrash(w, task)
  }

  function Reach(w: World, policy: Policy, events: seq<Event>): World
    decreases |events|
  {
    if events == [] then w else Reach(Next(w, policy, events[0]), policy, events[1..])
  }

  // --------------------------------------------------------------- invariant

  predicate OutRowOk(r: Out.OutboundRow, maxAttempts: nat) {
    && r.attempts <= maxAttempts
    && (r.status.Pending? ==> r.attempts < maxAttempts)
    && (r.status.Sending? <==> r.lockedAt.Some?)
  }

  ghost predicate UniqueKeys(outbox: seq<Out.OutboundRow>) {
    forall i, j :: 0 <= i < j < |outbox| ==> outbox[i].key != outbox[j].key
  }

  predicate HasReply(outbox: seq<Out.OutboundRow>, inbound: nat) {
    Out.FindKey(outbox, Out.InboundReply(inbound)).Some?
  }

  ghost predicate OutboxOk(outbox: seq<Out.OutboundRow>, maxAttempts: nat) {
    UniqueKeys(outbox) && forall i :: 0 <= i < |outbox| ==> OutRowOk(outbox[i], maxAttempts)
  }

  /** A handler that returned, and a message it completed, have their reply in the outbox. */
  ghost predicate RepliesOk(w: World) {
    && (forall i: nat :: ToComplete(i) in w.tasks ==> HasReply(w.outbox, i))
    && (forall i :: i in w.handled ==> i < |w.inbox| && w.inbox[i].status.Completed? && HasReply(w.outbox, i))
  }

  /** Calls made and calls still owed for a row are covered by its counted attempts. */
  ghost predicate SendsOk(w: World) {
    && (forall o: nat :: ToSend(o) in w.tasks ==> o < |w.outbox|)
    && (forall o :: o in w.sends ==> o < |w.outbox|)
    && (forall o: nat :: o < |w.outbox| ==> w.sends[o] + w.tasks[ToSend(o)] <= w.outbox[o].attempts)
  }

  ghost predicate WorldOk(w: World, policy: Policy) {
    Safe.QueueOk(w.inbox, policy.maxInbound) && OutboxOk(w.outbox, policy.maxOutbound) && RepliesOk(w) && SendsOk(w)
  }

  lemma EmptyWorldIsOk(policy: Policy)
    ensures WorldOk(World([], [], multiset{}, {}, multiset{}), policy)
  {
  }

  // ---------------------------------------------------------------- lemmas

  lemma {:induction false} LookUpTasksCount(ids: seq<nat>, t: Task)
    ensures !t.ToLookUp? ==> LookUpTasks(ids)[t] == 0
  {
    if ids != [] {
      LookUpTasksCount(ids[..|ids| - 1], t);
    }
  }

  lemma {:induction false} SendTasksCount(ids: seq<nat>, t: Task)
    requires Distinct(ids)
    ensures SendTasks(ids)[t] == if t.ToSend? && t.outbound in ids then 1 else 0
  {
    if ids != [] {
      var before, last := ids[..|ids| - 1], ids[|ids| - 1];
      assert ids == before + [last] && last !in before;
      SendTasksCount(before, t);
    }
  }

  predicate Over(r: Out.OutboundRow) {
    r.status.Sent? || r.status.Failed?
  }

  /** The outbox only grows, keeps its keys, never lowers an attempt count, and never touches a row that is over. */
  ghost predicate OutboxGrows(before: seq<Out.OutboundRow>, after: seq<Out.OutboundRow>) {
    && |before| <= |after|
    && forall o :: 0 <= o < |before| ==>
         && before[o].key == after[o].key && before[o].attempts <= after[o].attempts
         && (Over(before[o]) ==> after[o] == before[o])
  }

  lemma ReplyStays(before: seq<Out.OutboundRow>, after: seq<Out.OutboundRow>, inbound: nat)
    requires OutboxGrows(before, after) && HasReply(before, inbound)
    ensures HasReply(after, inbound)
  {
    var o := Out.FindKey(before, Out.InboundReply(inbound)).value;
    assert after[o].key == Out.InboundReply(inbound);
  }

  /** Completed inbox rows never change: handled messages stay completed. */
  lemma InboxStepKeeps(w: World, policy: Policy, step: Safe.Event)
    requires 0 < policy.maxInbound && WorldOk(w, policy)
    ensures WorldOk(w.(inbox := Safe.Next(w.inbox, policy.maxInbound, step)), policy)
    ensures |w.inbox| <= |Safe.Next(w.inbox, policy.maxInbound, step)|
  {
    Safe.EventKeepsQueue(w.inbox, policy.maxInbound, step);
    forall i | i in w.handled ensures Safe.Next(w.inbox, policy.maxInbound, step)[i] == w.inbox[i] {
      Safe.EventStepsRow(w.inbox, policy.maxInbound, step, i);
    }
  }

  /** Dropping, adding or moving tasks that owe neither a completion nor a send is harmless. */
  lemma TaskChangeKeeps(w: World, policy: Policy, tasks: multiset<Task>)
    requires WorldOk(w, policy)
    requires forall i: nat :: ToComplete(i) in tasks ==> HasReply(w.outbox, i)
    requires forall o: nat :: tasks[ToSend(o)] <= w.tasks[ToSend(o)]
    ensures WorldOk(w.(tasks := tasks), policy)
  {
    forall o: nat | ToSend(o) in tasks ensures ToSend(o) in w.tasks {
      assert tasks[ToSend(o)] <= w.tasks[ToSend(o)];
    }
  }

  lemma OutboxChangeKeeps(w: World, policy: Policy, outbox: seq<Out.OutboundRow>)
    requires WorldOk(w, policy) && OutboxGrows(w.outbox, outbox) && OutboxOk(outbox, policy.maxOutbound)
    requires forall o :: |w.outbox| <= o < |outbox| ==> outbox[o].attempts == 0
    ensures WorldOk(w.(outbox := outbox), policy)
  {
    forall i | HasReply(w.outbox, i) ensures HasReply(outbox, i) {
      ReplyStays(w.outbox, outbox, i);
    }
    forall o: nat | |w.outbox| <= o < |outbox| ensures w.sends[o] == 0 && w.tasks[ToSend(o)] == 0 {
      assert o !in w.sends && ToSend(o) !in w.tasks;
    }
  }

  lemma EnqueueGrows(outbox: seq<Out.OutboundRow>, attempts: nat, clean: Out.CleanUp, key: Out.DedupKey, instance: string, recipient: string, text: string, createdAt: int)
    requires 0 < attempts && OutboxOk(outbox, attempts)
    ensures var (after, r) := Out.Enqueue(outbox, clean, key, instance, recipient, text, createdAt);
            && OutboxGrows(outbox, after) && OutboxOk(after, attempts)
            && (forall o :: |outbox| <= o < |after| ==> after[o].attempts == 0)
            && (!r.Invalid? ==> Out.FindKey(after, Out.CleanKey(key)).Some?)
  {
    var (after, r) := Out.Enqueue(outbox, clean, key, instance, recipient, text, createdAt);
    if r.Created? {
      assert after[|outbox|].key == Out.CleanKey(key);
    }
  }

  lemma RecordGrows(outbox: seq<Out.OutboundRow>, attempts: nat, o: nat, answer: Out.Answer, retryDelay: int)
    requires OutboxOk(outbox, attempts) && Out.IsSending(outbox, o)
    ensures var after := outbox[o := Out.Recorded(outbox[o], answer, attempts, retryDelay)];
            OutboxGrows(outbox, after) && OutboxOk(after, attempts)
  {
    assert OutRowOk(outbox[o], attempts);
  }

  lemma ReleaseGrows(outbox: seq<Out.OutboundRow>, attempts: nat, staleBefore: int, now: int)
    requires OutboxOk(outbox, attempts)
    ensures var after := Out.ReleaseStale(outbox, staleBefore, now, attempts);
            OutboxGrows(outbox, after) && OutboxOk(after, attempts)
  {
    var after := Out.ReleaseStale(outbox, staleBefore, now, attempts);
    forall i | 0 <= i < |after| ensures OutRowOk(after[i], attempts) && after[i].key == outbox[i].key && after[i].attempts == outbox[i].attempts {
      assert OutRowOk(outbox[i], attempts);
    }
  }

  lemma ClaimGrows(outbox: seq<Out.OutboundRow>, attempts: nat, now: int, limit: nat)
    requires OutboxOk(outbox, attempts)
    ensures var ids := Out.SelectPending(outbox, now, limit);
            var after := Out.ClaimAll(outbox, ids, now);
            && OutboxGrows(outbox, after) && OutboxOk(after, attempts)
            && forall o :: 0 <= o < |outbox| ==> after[o].attempts == outbox[o].attempts + if o in ids then 1 else 0
  {
    var ids := Out.SelectPending(outbox, now, limit);
    Out.SelectedAreEligible(outbox, now, limit);
    var after := Out.ClaimAll(outbox, ids, now);
    forall i | 0 <= i < |after| ensures OutRowOk(after[i], attempts) && after[i].key == outbox[i].key {
      assert OutRowOk(outbox[i], attempts);
      assert i in ids ==> Out.Eligible(outbox[i], now);
    }
  }

  /** New calls may be owed as long as the counted attempts cover them. */
  lemma OwedCallsKeep(w: World, policy: Policy, tasks: multiset<Task>)
    requires WorldOk(w, policy)
    requires forall i: nat :: ToComplete(i) in tasks ==> ToComplete(i) in w.tasks
    requires forall o: nat :: ToSend(o) in tasks ==> o < |w.outbox|
    requires forall o: nat :: o < |w.outbox| ==> w.sends[o] + tasks[ToSend(o)] <= w.outbox[o].attempts
    ensures WorldOk(w.(tasks := tasks), policy)
  {
  }

  /** Every claim of an outbox row pays for exactly one call. */
  lemma ClaimedOutboxKeeps(w: World, policy: Policy, ids: seq<nat>, outbox: seq<Out.OutboundRow>, tasks: multiset<Task>)
    requires WorldOk(w, policy) && OutboxGrows(w.outbox, outbox) && OutboxOk(outbox, policy.maxOutbound) && |outbox| == |w.outbox|
    requires forall i :: i in ids ==> i < |outbox|
    requires forall o: nat :: o < |outbox| ==> outbox[o].attempts == w.outbox[o].attempts + if o in ids then 1 else 0
    requires forall t: Task :: tasks[t] == if t.ToSend? && t.outbound in ids then 1 else 0
    ensures WorldOk(w.(outbox := outbox, tasks := w.tasks + tasks), policy)
  {
    OutboxChangeKeeps(w, policy, outbox);
    forall o: nat | o < |w.outbox| ensures w.sends[o] + (w.tasks + tasks)[ToSend(o)] <= outbox[o].attempts {
      assert w.sends[o] + w.tasks[ToSend(o)] <= w.outbox[o].attempts;
    }
    OwedCallsKeep(w.(outbox := outbox), policy, w.tasks + tasks);
  }

  /** What every step keeps: the invariant, and the outbox rows that are over. */
  ghost predicate Kept(before: World, after: World, policy: Policy) {
    WorldOk(after, policy) && OutboxGrows(before.outbox, after.outbox)
  }

  lemma ClaimOutboundKeeps(w: World, policy: Policy, ids: seq<nat>, now: int, limit: nat)
    requires WorldOk(w, policy) && ids == Out.SelectPending(w.outbox, now, limit)
    ensures Kept(w, AfterClaimOutbound(w, ids, now), policy)
  {
    var outbox := Out.ClaimAll(w.outbox, ids, now);
    ClaimGrows(w.outbox, policy.maxOutbound, now, limit);
    assert Distinct(ids) && forall i :: i in ids ==> i < |outbox| by {
      Out.SelectedAreEligible(w.outbox, now, limit);
    }
    var tasks := SendTasks(ids);
    assert forall t: Task :: tasks[t] == if t.ToSend? && t.outbound in ids then 1 else 0 by {
      forall t: Task ensures tasks[t] == if t.ToSend? && t.outbound in ids then 1 else 0 {
        SendTasksCount(ids, t);
      }
    }
    ClaimedOutboxKeeps(w, policy, ids, outbox, tasks);
  }

  lemma InboxKeeps(w: World, policy: Policy, step: Safe.Event)
    requires 0 < policy.maxInbound && WorldOk(w, policy)
    ensures Kept(w, AfterInbox(w, policy, step), policy)
  {
    InboxStepKeeps(w, policy, step);
  }

  lemma ClaimInboundKeeps(w: World, policy: Policy, now: int, limit: nat)
    requires 0 < policy.maxInbound && WorldOk(w, policy)
    ensures Kept(w, AfterClaimInbound(w, policy, now, limit), policy)
  {
    var ids := In.SelectPending(w.inbox, now, limit);
    var inbox := Safe.Next(w.inbox, policy.maxInbound, Safe.ClaimEvent(now, limit));
    assert AfterClaimInbound(w, policy, now, limit) == w.(inbox := inbox).(tasks := w.tasks + LookUpTasks(ids));
    InboxStepKeeps(w, policy, Safe.ClaimEvent(now, limit));
    forall t: Task | !t.ToLookUp? ensures LookUpTasks(ids)[t] == 0 {
      LookUpTasksCount(ids, t);
    }
    TaskChangeKeeps(w.(inbox := inbox), policy, w.tasks + LookUpTasks(ids));
  }

  lemma LookUpKeeps(w: World, policy: Policy, i: nat)
    requires WorldOk(w, policy)
    ensures Kept(w, AfterLookUp(w, i), policy)
  {
    if ToLookUp(i) in w.tasks {
      TaskChangeKeeps(w, policy, Move(w.tasks, ToLookUp(i), if HasReply(w.outbox, i) then ToComplete(i) else ToEnqueue(i)));
    }
  }

  lemma EnqueueReplyKeeps(w: World, policy: Policy, i: nat, instance: string, recipient: string, text: string, createdAt: int)
    requires 0 < policy.maxOutbound && WorldOk(w, policy)
    ensures Kept(w, AfterEnqueue(w, i, Out.Enqueue(w.outbox, policy.clean, Out.InboundReply(i), instance, recipient, text, createdAt)), policy)
  {
    var outcome := Out.Enqueue(w.outbox, policy.clean, Out.InboundReply(i), instance, recipient, text, createdAt);
    EnqueueGrows(w.outbox, policy.maxOutbound, policy.clean, Out.InboundReply(i), instance, recipient, text, createdAt);
    if ToEnqueue(i) in w.tasks && !outcome.1.Invalid? {
      OutboxChangeKeeps(w, policy, outcome.0);
      TaskChangeKeeps(w.(outbox := outcome.0), policy, Move(w.tasks, ToEnqueue(i), ToComplete(i)));
    }
  }

  lemma HandledGrows(w: World, policy: Policy, i: nat)
    requires WorldOk(w, policy) && HasReply(w.outbox, i) && i < |w.inbox| && w.inbox[i].status.Completed?
    ensures WorldOk(w.(handled := w.handled + {i}), policy)
  {
  }

  lemma FinishKeeps(w: World, policy: Policy, i: nat, at: int)
    requires 0 < policy.maxInbound && WorldOk(w, policy)
    ensures Kept(w, AfterFinish(w, policy, i, at), policy)
  {
    if ToComplete(i) in w.tasks {
      var without := w.(tasks := w.tasks - multiset{ToComplete(i)});
      TaskChangeKeeps(w, policy, without.tasks);
      if In.IsProcessing(w.inbox, i) {
        InboxStepKeeps(without, policy, Safe.CompleteEvent(i, at));
        HandledGrows(without.(inbox := Safe.Next(w.inbox, policy.maxInbound, Safe.CompleteEvent(i, at))), policy, i);
      }
    }
  }

  lemma GivenUpKeeps(w: World, policy: Policy, task: Task, step: Safe.Event)
    requires 0 < policy.maxInbound && WorldOk(w, policy)
    ensures Kept(w, AfterGivingUp(w, policy, task, step), policy)
  {
    TaskChangeKeeps(w, policy, w.tasks - multiset{task});
    InboxStepKeeps(w.(tasks := w.tasks - multiset{task}), policy, step);
  }

  lemma RaiseKeeps(w: World, policy: Policy, task: Task, error: string, at: int, retryDelay: int, permanent: bool)
    requires 0 < policy.maxInbound && WorldOk(w, policy)
    ensures Kept(w, AfterRaise(w, policy, task, error, at, retryDelay, permanent), policy)
  {
    if task in w.tasks && (task.ToLookUp? || task.ToEnqueue?) {
      GivenUpKeeps(w, policy, task,
        if permanent then Safe.PermanentEvent(task.inbound, error) else Safe.FailEvent(task.inbound, error, at, retryDelay));
    }
  }

  lemma IgnoreKeeps(w: World, policy: Policy, i: nat, at: int)
    requires 0 < policy.maxInbound && WorldOk(w, policy)
    ensures Kept(w, AfterIgnore(w, policy, i, at), policy)
  {
    GivenUpKeeps(w, policy, ToLookUp(i), Safe.CompleteEvent(i, at));
  }

  lemma OtherEnqueueKeeps(w: World, policy: Policy, text: string, instance: string, recipient: string, body: string, createdAt: int)
    requires 0 < policy.maxOutbound && WorldOk(w, policy)
    ensures Kept(w, WithOutbox(w, Out.Enqueue(w.outbox, policy.clean, Out.OtherKey(text), instance, recipient, body, createdAt).0), policy)
  {
    EnqueueGrows(w.outbox, policy.maxOutbound, policy.clean, Out.OtherKey(text), instance, recipient, body, createdAt);
    OutboxChangeKeeps(w, policy, Out.Enqueue(w.outbox, policy.clean, Out.OtherKey(text), instance, recipient, body, createdAt).0);
  }

  lemma SendKeeps(w: World, policy: Policy, o: nat)
    requires WorldOk(w, policy)
    ensures Kept(w, AfterSend(w, o), policy)
  {
    if ToSend(o) in w.tasks {
      var after := AfterSend(w, o);
      forall p: nat | ToSend(p) in after.tasks ensures ToSend(p) in w.tasks {
      }
      forall p: nat | p < |w.outbox| ensures after.sends[p] + after.tasks[ToSend(p)] <= w.outbox[p].attempts {
        assert after.tasks[ToSend(p)] == w.tasks[ToSend(p)] - if p == o then 1 else 0;
      }
    }
  }

  lemma RecordKeeps(w: World, policy: Policy, o: nat, answer: Out.Answer, retryDelay: int)
    requires WorldOk(w, policy)
    ensures Kept(w, AfterRecord(w, policy, o, answer, retryDelay), policy)
  {
    if ToRecord(o) in w.tasks {
      var tasks := w.tasks - multiset{ToRecord(o)};
      TaskChangeKeeps(w, policy, tasks);
      if Out.IsSending(w.outbox, o) {
        RecordGrows(w.outbox, policy.maxOutbound, o, answer, retryDelay);
        OutboxChangeKeeps(w.(tasks := tasks), policy, w.outbox[o := Out.Recorded(w.outbox[o], answer, policy.maxOutbound, retryDelay)]);
      }
    }
  }

  lemma ReleaseKeeps(w: World, policy: Policy, staleBefore: int, now: int)
    requires WorldOk(w, policy)
    ensures Kept(w, WithOutbox(w, Out.ReleaseStale(w.outbox, staleBefore, now, policy.maxOutbound)), policy)
  {
    ReleaseGrows(w.outbox, policy.maxOutbound, staleBefore, now);
    OutboxChangeKeeps(w, policy, Out.ReleaseStale(w.outbox, staleBefore, now, policy.maxOutbound));
  }

  lemma CrashKeeps(w: World, policy: Policy, task: Task)
    requires WorldOk(w, policy)
    ensures Kept(w, AfterCrash(w, task), policy)
  {
    TaskChangeKeeps(w, policy, w.tasks - multiset{task});
  }

  lemma EventKeepsWorld(w: World, policy: Policy, e: Event)
    requires 0 < policy.maxInbound && 0 < policy.maxOutbound && WorldOk(w, policy)
    ensures Kept(w, Next(w, policy, e), policy)
  {
    match e
    case Inbox(step) => InboxKeeps(w, policy, step);
    case ClaimInbound(now, limit) => ClaimInboundKeeps(w, policy, now, limit);
    case LookUp(i) => LookUpKeeps(w, policy, i);
    case EnqueueReply(i, instance, recipient, text, createdAt) => EnqueueReplyKeeps(w, policy, i, instance, recipient, text, createdAt);
    case Finish(i, at) => FinishKeeps(w, policy, i, at);
    case HandlerRaised(task, error, at, retryDelay, permanent) => RaiseKeeps(w, policy, task, error, at, retryDelay, permanent);
    case IgnoreSender(i, at) => IgnoreKeeps(w, policy, i, at);
    case OtherEnqueue(text, instance, recipient, body, createdAt) => OtherEnqueueKeeps(w, policy, text, instance, recipient, body, createdAt);
    case ClaimOutbound(now, limit) => ClaimOutboundKeeps(w, policy, Out.SelectPending(w.outbox, now, limit), now, limit);
    case Send(o) => SendKeeps(w, policy, o);
    case Record(o, answer, retryDelay) => RecordKeeps(w, policy, o, answer, retryDelay);
    case ReleaseOutbound(staleBefore, now) => ReleaseKeeps(w, policy, staleBefore, now);
    case Crash(task) => CrashKeeps(w, policy, task);
  }

  lemma {:induction false} RunKeepsWorld(w: World, policy: Policy, events: seq<Event>)
    requires 0 < policy.maxInbound && 0 < policy.maxOutbound && WorldOk(w, policy)
    ensures WorldOk(Reach(w, policy, events), policy)
    decreases |events|
  {
    if events != [] {
      EventKeepsWorld(w, policy, events[0]);
      RunKeepsWorld(Next(w, policy, events[0]), policy, events[1..]);
    }
  }

  lemma GrowthIsTransitive(a: seq<Out.OutboundRow>, b: seq<Out.OutboundRow>, c: seq<Out.OutboundRow>)
    requires OutboxGrows(a, b) && OutboxGrows(b, c)
    ensures OutboxGrows(a, c)
  {
  }

  /** A sent or failed row is final: no worker, however late, ever changes it or loses it. */
  lemma {:induction false} SentRowsAreFinal(w: World, policy: Policy, events: seq<Event>)
    requires 0 < policy.maxInbound && 0 < policy.maxOutbound && WorldOk(w, policy)
    ensures OutboxGrows(w.outbox, Reach(w, policy, events).outbox)
    decreases |events|
  {
    if events != [] {
      var next := Next(w, policy, events[0]);
      EventKeepsWorld(w, policy, events[0]);
      SentRowsAreFinal(next, policy, events[1..]);
      GrowthIsTransitive(w.outbox, next.outbox, Reach(next, policy, events[1..]).outbox);
    }
  }

  // ------------------------------------------------------------- main result

  /** The outbox rows that answer inbound message `i`. */
  ghost predicate Answers(w: World, i: nat, o: nat) {
    o < |w.outbox| && w.outbox[o].key == Out.InboundReply(i)
  }

  /**
   * For every interleaving: a message has at most one reply row, one completed after its handler has
   * exactly one, and the messaging API is called at most the maximum number of attempts for it.
   */
  lemma {:induction false} AtMostOneReplyBoundedSends(w: World, policy: Policy, events: seq<Event>, i: nat)
    requires 0 < policy.maxInbound && 0 < policy.maxOutbound && WorldOk(w, policy)
    ensures
      var final := Reach(w, policy, events);
      && (forall o: nat, p: nat :: Answers(final, i, o) && Answers(final, i, p) ==> o == p)
      && (i in final.handled ==> exists o: nat :: Answers(final, i, o))
      && (forall o: nat :: Answers(final, i, o) ==> final.sends[o] <= policy.maxOutbound)
      && (forall o :: o in final.sends ==> o < |final.outbox|)
  {
    RunKeepsWorld(w, policy, events);
    var final := Reach(w, policy, events);
    if i in final.handled {
      assert Answers(final, i, Out.FindKey(final.outbox, Out.InboundReply(i)).value);
    }
    forall o: nat | Answers(final, i, o) ensures final.sends[o] <= policy.maxOutbound {
      assert OutRowOk(final.outbox[o], policy.maxOutbound);
    }
  }
}
