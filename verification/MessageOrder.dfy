/**
 * Which message may confirm which: the desk compares message ids only, so an older message that is
 * still being processed can confirm what a newer one prepared. Below is one such run, the exact
 * condition under which a run has none, and an order of processing that excludes them.
 */
module MessageOrder {
  import opened Prelude
  import opened Agenda
  import opened AgendaSafety
  import opened PendingActions
  import opened ActionProtocol
  import opened ActionDeadlines

  /** When each inbound message was created, by its id. */
  type Births = Key -> int

  /** The claiming message is no older than the one that prepared the action. */
  predicate InOrder(born: Births, actions: seq<Action>, c: Claim) {
    c.action < |actions| && born(actions[c.action].preparedFrom) <= born(c.msg.id)
  }

  ghost predicate AllInOrder(born: Births, actions: seq<Action>, claims: seq<Claim>) {
    forall i :: 0 <= i < |claims| ==> InOrder(born, actions, claims[i])
  }

  /** The sender of `msg` has this action open, and a newer message prepared it. */
  predicate OpenAndNewer(born: Births, a: Action, msg: Message, now: int) {
    AwaitingOf(a, SenderOf(msg)) && now < a.expiresAt && born(msg.id) < born(a.preparedFrom)
  }

  /** A free worker is about to read a yes in a message older than the one that prepared the open action. */
  ghost predicate Overtakes(born: Births, w: World, cfg: DeskConfig, e: Event) {
    && e.ClaimEvent? && e.worker !in w.jobs
    && Identity(cfg, e.msg).Success? && cfg.isConfirmation(CandidateText(e.msg))
    && exists i :: 0 <= i < |w.desk.actions| && OpenAndNewer(born, w.desk.actions[i], e.msg, e.now)
  }

  ghost predicate NoneOvertakes(born: Births, w: World, cfg: DeskConfig, events: seq<Event>)
    decreases |events|
  {
    events == [] || (!Overtakes(born, w, cfg, events[0]) && NoneOvertakes(born, Next(w, cfg, events[0]), cfg, events[1..]))
  }

  // ------------------------------------------------------------------ one claim

  /** The claim made by this step. */
  function ClaimedBy(w: World, cfg: DeskConfig, e: Event): seq<Claim> {
    if e.ClaimEvent? && e.worker !in w.jobs && BeginConfirm(w.desk, cfg, e.msg, e.now).1.Success?
    then [Claim(BeginConfirm(w.desk, cfg, e.msg, e.now).1.value, e.msg, e.now)] else []
  }

  lemma ClaimsGrow(cfg: DeskConfig, w: World, e: Event)
    ensures Next(w, cfg, e).claims == w.claims + ClaimedBy(w, cfg, e)
  {
  }

  /** A yes from another message claims the one open action of its sender. */
  lemma OpenActionIsClaimed(d: Desk, cfg: DeskConfig, msg: Message, now: int, i: nat)
    requires ActionsOk(cfg, d.actions) && i < |d.actions|
    requires AwaitingOf(d.actions[i], SenderOf(msg)) && now < d.actions[i].expiresAt && d.actions[i].preparedFrom != msg.id
    requires Identity(cfg, msg).Success? && cfg.isConfirmation(CandidateText(msg))
    ensures BeginConfirm(d, cfg, msg, now).1 == Success(i)
  {
    var who := SenderOf(msg);
    var open := ExpireActions(d.actions, who, now);
    assert open[i] == d.actions[i];
    assert FindAwaiting(open, who) == Some(i) by {
      var found := FindAwaiting(open, who).value;
      assert open[found] == d.actions[found];
    }
    assert ActionOk(cfg, d.actions[i]);
  }

  lemma ClaimIsInOrderIff(born: Births, cfg: DeskConfig, w: World, e: Event)
    requires WorldOk(cfg, w)
    ensures AllInOrder(born, w.desk.actions, ClaimedBy(w, cfg, e)) <==> !Overtakes(born, w, cfg, e)
  {
    if Overtakes(born, w, cfg, e) {
      var i :| 0 <= i < |w.desk.actions| && OpenAndNewer(born, w.desk.actions[i], e.msg, e.now);
      OpenActionIsClaimed(w.desk, cfg, e.msg, e.now, i);
      assert !InOrder(born, w.desk.actions, ClaimedBy(w, cfg, e)[0]);
    } else if ClaimedBy(w, cfg, e) != [] {
      BeginKeeps(w.desk, cfg, e.msg, e.now);
      var id := ClaimedBy(w, cfg, e)[0].action;
      assert !OpenAndNewer(born, w.desk.actions[id], e.msg, e.now);
    }
  }

  lemma PreparersStay(born: Births, before: seq<Action>, after: seq<Action>, claims: seq<Claim>)
    requires Evolves(before, after) && forall i :: 0 <= i < |claims| ==> claims[i].action < |before|
    ensures AllInOrder(born, after, claims) <==> AllInOrder(born, before, claims)
  {
    forall i | 0 <= i < |claims| ensures InOrder(born, after, claims[i]) <==> InOrder(born, before, claims[i]) {
      assert SameProposal(before[claims[i].action], after[claims[i].action]);
    }
  }

  lemma InOrderTogether(born: Births, actions: seq<Action>, first: seq<Claim>, more: seq<Claim>)
    ensures AllInOrder(born, actions, first + more) <==> AllInOrder(born, actions, first) && AllInOrder(born, actions, more)
  {
    var all := first + more;
    assert forall i :: 0 <= i < |first| ==> all[i] == first[i];
    assert forall i :: 0 <= i < |more| ==> all[|first| + i] == more[i];
  }

  lemma ClaimedExist(cfg: DeskConfig, w: World, e: Event)
    requires WorldOk(cfg, w)
    ensures forall i :: 0 <= i < |w.claims + ClaimedBy(w, cfg, e)| ==> (w.claims + ClaimedBy(w, cfg, e))[i].action < |w.desk.actions|
  {
    forall i | 0 <= i < |w.claims| ensures w.claims[i].action < |w.desk.actions| {
      assert ClaimOk(cfg, w.desk.actions, w.claims[i]);
    }
    if ClaimedBy(w, cfg, e) != [] {
      BeginKeeps(w.desk, cfg, e.msg, e.now);
    }
  }

  lemma EventInOrderIff(born: Births, cfg: DeskConfig, w: World, e: Event)
    requires WorldOk(cfg, w)
    ensures AllInOrder(born, Next(w, cfg, e).desk.actions, Next(w, cfg, e).claims)
       <==> AllInOrder(born, w.desk.actions, w.claims) && !Overtakes(born, w, cfg, e)
  {
    var before, after := w.desk.actions, Next(w, cfg, e).desk.actions;
    var first, more := w.claims, ClaimedBy(w, cfg, e);
    assert Next(w, cfg, e).claims == first + more by { ClaimsGrow(cfg, w, e); }
    assert AllInOrder(born, after, first + more) <==> AllInOrder(born, before, first + more) by {
      EventEvolves(cfg, w, e);
      ClaimedExist(cfg, w, e);
      PreparersStay(born, before, after, first + more);
    }
    InOrderTogether(born, before, first, more);
    ClaimIsInOrderIff(born, cfg, w, e);
  }

  // ------------------------------------------------------------------- over runs

  /**
   * Confirmations in order, exactly: over any run, every claim is made by a message no older than the
   * one that prepared the action if and only if no step reads a yes in an older message while the
   * sender's open action was prepared by a newer one.
   */
  lemma {:induction false} ConfirmedInOrderIff(born: Births, cfg: DeskConfig, w: World, events: seq<Event>)
    requires WorldOk(cfg, w) && AllLegal(events)
    ensures
      var final := Reach(w, cfg, events);
      AllInOrder(born, final.desk.actions, final.claims) <==> AllInOrder(born, w.desk.actions, w.claims) && NoneOvertakes(born, w, cfg, events)
    decreases |events|
  {
    if events != [] {
      assert Legal(events[0]);
      EventKeepsWorld(cfg, w, events[0]);
      EventInOrderIff(born, cfg, w, events[0]);
      ConfirmedInOrderIff(born, cfg, Next(w, cfg, events[0]), events[1..]);
    }
  }

  /** No message is read for a yes after a newer one of its sender prepared an action. */
  ghost predicate ReadInOrder(born: Births, events: seq<Event>) {
    forall i, j :: 0 <= i < j < |events| && events[i].PrepareEvent? && events[j].ClaimEvent?
                   && SenderOf(events[i].msg) == SenderOf(events[j].msg) ==>
      born(events[i].msg.id) <= born(events[j].msg.id)
  }

  /** Nor after a newer one prepared an action that is awaiting already. */
  ghost predicate ReadAfter(born: Births, actions: seq<Action>, events: seq<Event>) {
    forall i, j :: 0 <= i < |actions| && 0 <= j < |events| && events[j].ClaimEvent? && AwaitingOf(actions[i], SenderOf(events[j].msg)) ==>
      born(actions[i].preparedFrom) <= born(events[j].msg.id)
  }

  /** An action awaits after a step because it awaited before it, or because the step prepared it. */
  lemma AwaitingComesFrom(cfg: DeskConfig, w: World, e: Event, i: nat)
    requires WorldOk(cfg, w) && i < |Next(w, cfg, e).desk.actions| && Next(w, cfg, e).desk.actions[i].status.Awaiting?
    ensures
      var a := Next(w, cfg, e).desk.actions[i];
      || (i < |w.desk.actions| && w.desk.actions[i].status.Awaiting? && SameProposal(w.desk.actions[i], a))
      || (e.PrepareEvent? && Belongs(a, SenderOf(e.msg)) && a.preparedFrom == e.msg.id)
  {
    EventEvolves(cfg, w, e);
    if i >= |w.desk.actions| {
      OnlyPrepareAddsRows(cfg, w, e);
    }
  }

  lemma OnlyPrepareAddsRows(cfg: DeskConfig, w: World, e: Event)
    requires WorldOk(cfg, w) && |w.desk.actions| < |Next(w, cfg, e).desk.actions|
    ensures e.PrepareEvent? && |Next(w, cfg, e).desk.actions| == |w.desk.actions| + 1
    ensures var a := Next(w, cfg, e).desk.actions[|w.desk.actions|]; Belongs(a, SenderOf(e.msg)) && a.preparedFrom == e.msg.id
  {
    match e
    case PrepareEvent(_, _, _) =>
    case ClaimEvent(_, msg, now) => BeginKeeps(w.desk, cfg, msg, now);
    case DiscardEvent(msg, now) => DiscardKeeps(w.desk, cfg, msg, now);
    case CompleteEvent(_) =>
    case _ => OtherStepsKeepRows(cfg, w, e);
  }

  lemma ReadAfterNext(born: Births, cfg: DeskConfig, w: World, events: seq<Event>)
    requires WorldOk(cfg, w) && events != [] && ReadInOrder(born, events) && ReadAfter(born, w.desk.actions, events)
    ensures ReadInOrder(born, events[1..]) && ReadAfter(born, Next(w, cfg, events[0]).desk.actions, events[1..])
  {
    var rest, after := events[1..], Next(w, cfg, events[0]).desk.actions;
    assert forall j :: 0 <= j < |rest| ==> rest[j] == events[j + 1];
    forall i, j | 0 <= i < |after| && 0 <= j < |rest| && rest[j].ClaimEvent? && AwaitingOf(after[i], SenderOf(rest[j].msg))
      ensures born(after[i].preparedFrom) <= born(rest[j].msg.id)
    {
      AwaitingComesFrom(cfg, w, events[0], i);
    }
  }

  /**
   * When no message is read for a yes after a newer one of the same customer prepared something,
   * every confirmation of the run comes from a message no older than the preparing one.
   */
  lemma {:induction false} ReadInOrderConfirmsInOrder(born: Births, cfg: DeskConfig, w: World, events: seq<Event>)
    requires WorldOk(cfg, w) && AllLegal(events)
    requires ReadInOrder(born, events) && ReadAfter(born, w.desk.actions, events) && AllInOrder(born, w.desk.actions, w.claims)
    ensures var final := Reach(w, cfg, events); AllInOrder(born, final.desk.actions, final.claims)
    decreases |events|
  {
    if events != [] {
      assert Legal(events[0]);
      EventKeepsWorld(cfg, w, events[0]);
      EventInOrderIff(born, cfg, w, events[0]);
      ReadAfterNext(born, cfg, w, events);
      ReadInOrderConfirmsInOrder(born, cfg, Next(w, cfg, events[0]), events[1..]);
    }
  }

  // ------------------------------------------------------------- the small shop

  function PromptRun(draws: CodeDraws): seq<Event> {
    [PrepareTen()] + ([ClaimTen()] + [ExecuteEvent(7, 1, draws)])
  }

  /** Prepared from "a", confirmed by "b", and booked. */
  ghost predicate BookedByOther(w: World) {
    && |w.desk.actions| == 1 && w.desk.actions[0].preparedFrom == "a"
    && w.claims == [Claim(0, Says("b"), 1)]
    && |w.desk.store.appointments| == 1 && KeyedBy(w.desk.store, 0, 0)
  }

  lemma PromptExecution(draws: CodeDraws)
    ensures BookedByOther(DoExecute(Running(SmallShop()), SmallShopDesk(), 7, 1, draws))
  {
    ExecutingTen(SmallShop(), 1, draws);
    BookingTen(1, draws);
  }

  /**
   * A concrete confirmation out of order: whenever message "b" is older than message "a", the run in
   * which "a" prepares Monday at ten and "b" says yes afterwards books it.
   */
  lemma OlderMessageConfirms(born: Births, draws: CodeDraws)
    requires born("b") < born("a")
    ensures WorldOk(SmallShopDesk(), Opening()) && AllLegal(PromptRun(draws))
    ensures var final := Reach(Opening(), SmallShopDesk(), PromptRun(draws));
            BookedByOther(final) && !AllInOrder(born, final.desk.actions, final.claims)
  {
    OpeningIsOk();
    LegalCons(ClaimTen(), [ExecuteEvent(7, 1, draws)]);
    LegalCons(PrepareTen(), [ClaimTen()] + [ExecuteEvent(7, 1, draws)]);
    RunToClaim([ClaimTen()] + [ExecuteEvent(7, 1, draws)]);
    RunFromClaim(SmallShop(), ExecuteEvent(7, 1, draws));
    PromptExecution(draws);
    var final := Reach(Opening(), SmallShopDesk(), PromptRun(draws));
    assert !InOrder(born, final.desk.actions, final.claims[0]);
  }
}
