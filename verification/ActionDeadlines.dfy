/**
 * What the confirmation deadline does and does not bound, and two runs in the small shop: a claimed
 * action that is executed after its deadline, and one whose execution fails.
 */
module ActionDeadlines {
  import opened Prelude
  import opened Calendar
  import opened Agenda
  import opened AgendaSafety
  import opened PendingActions
  import opened ActionProtocol

  // -------------------------------------------------------- the deadline and the run

  /** The agenda transaction was tried before the deadline set at preparation. */
  predicate InTime(actions: seq<Action>, x: Execution) {
    x.action < |actions| && x.at < actions[x.action].expiresAt
  }

  ghost predicate AllInTime(actions: seq<Action>, executions: seq<Execution>) {
    forall i :: 0 <= i < |executions| ==> InTime(actions, executions[i])
  }

  /** The agenda transaction tried by this step, with its own clock reading. */
  function ExecutedBy(w: World, e: Event): seq<Execution> {
    if e.ExecuteEvent? && e.worker in w.jobs && w.jobs[e.worker].ToExecute?
    then [Execution(w.jobs[e.worker].action, e.now)] else []
  }

  /** Every step of the run that executes an action does so, by its own clock, before the action's deadline. */
  ghost predicate StepsInTime(w: World, cfg: DeskConfig, events: seq<Event>)
    decreases |events|
  {
    events == [] || (AllInTime(w.desk.actions, ExecutedBy(w, events[0])) && StepsInTime(Next(w, cfg, events[0]), cfg, events[1..]))
  }

  /** The same world with another deadline on action `id`. */
  function WithDeadline(w: World, id: nat, deadline: int): World
    requires id < |w.desk.actions|
  {
    w.(desk := w.desk.(actions := w.desk.actions[id := w.desk.actions[id].(expiresAt := deadline)]))
  }

  /**
   * The agenda transaction of a claimed action does not look at the deadline: with any other deadline
   * it does the same to the agenda and the workers, and it is tried at its own clock reading.
   */
  lemma ExecutionIgnoresDeadline(cfg: DeskConfig, w: World, worker: nat, now: int, draws: CodeDraws, deadline: int)
    requires WorldOk(cfg, w) && worker in w.jobs && w.jobs[worker].ToExecute?
    ensures w.jobs[worker].action < |w.desk.actions|
    ensures
      var id := w.jobs[worker].action;
      var after, other := DoExecute(w, cfg, worker, now, draws), DoExecute(WithDeadline(w, id, deadline), cfg, worker, now, draws);
      && other.desk.store == after.desk.store && other.jobs == after.jobs
      && after.executions == w.executions + [Execution(id, now)] && other.executions == after.executions
  {
    assert w.jobs[worker].action < |w.desk.actions| by { assert JobOk(cfg, w.desk, Executed(w), w.jobs[worker]); }
    var job := w.jobs[worker];
    var outcome := ExecuteAction(w.desk.store, cfg, job.action, w.desk.actions[job.action].payload, job.msg, now, draws);
    assert DoExecute(w, cfg, worker, now, draws) == AfterExecute(w, worker, job.action, job.msg, now, outcome);
    var other := WithDeadline(w, job.action, deadline);
    assert DoExecute(other, cfg, worker, now, draws) == AfterExecute(other, worker, job.action, job.msg, now, outcome);
  }

  lemma ExecutionsGrow(cfg: DeskConfig, w: World, e: Event)
    requires WorldOk(cfg, w)
    ensures Next(w, cfg, e).executions == w.executions + ExecutedBy(w, e)
  {
    if e.ExecuteEvent? && e.worker in w.jobs && w.jobs[e.worker].ToExecute? {
      assert JobOk(cfg, w.desk, Executed(w), w.jobs[e.worker]);
    }
  }

  ghost predicate AllExist(actions: seq<Action>, executions: seq<Execution>) {
    forall i :: 0 <= i < |executions| ==> executions[i].action < |actions|
  }

  lemma ExecutedExist(cfg: DeskConfig, w: World, e: Event)
    requires WorldOk(cfg, w)
    ensures AllExist(w.desk.actions, w.executions) && AllExist(w.desk.actions, ExecutedBy(w, e))
  {
    forall i | 0 <= i < |w.executions| ensures w.executions[i].action < |w.desk.actions| {
      assert Executed(w)[i] in Executed(w);
    }
    if ExecutedBy(w, e) != [] {
      assert JobOk(cfg, w.desk, Executed(w), w.jobs[e.worker]);
    }
  }

  lemma DeadlinesStay(before: seq<Action>, after: seq<Action>, executions: seq<Execution>)
    requires Evolves(before, after) && AllExist(before, executions)
    ensures AllInTime(after, executions) <==> AllInTime(before, executions)
  {
    forall i | 0 <= i < |executions| ensures InTime(after, executions[i]) <==> InTime(before, executions[i]) {
      assert SameProposal(before[executions[i].action], after[executions[i].action]);
    }
  }

  lemma InTimeTogether(actions: seq<Action>, first: seq<Execution>, more: seq<Execution>)
    ensures AllInTime(actions, first + more) <==> AllInTime(actions, first) && AllInTime(actions, more)
  {
    var all := first + more;
    assert forall i :: 0 <= i < |first| ==> all[i] == first[i];
    assert forall i :: 0 <= i < |more| ==> all[|first| + i] == more[i];
  }

  lemma EventInTimeIff(cfg: DeskConfig, w: World, e: Event)
    requires WorldOk(cfg, w)
    ensures AllInTime(Next(w, cfg, e).desk.actions, Next(w, cfg, e).executions)
       <==> AllInTime(w.desk.actions, w.executions) && AllInTime(w.desk.actions, ExecutedBy(w, e))
  {
    var before, after := w.desk.actions, Next(w, cfg, e).desk.actions;
    var first, more := w.executions, ExecutedBy(w, e);
    assert Evolves(before, after) by { EventEvolves(cfg, w, e); }
    assert Next(w, cfg, e).executions == first + more by { ExecutionsGrow(cfg, w, e); }
    assert AllExist(before, first) && AllExist(before, more) by { ExecutedExist(cfg, w, e); }
    EvolvedInTimeIff(before, after, first, more);
  }

  lemma EvolvedInTimeIff(before: seq<Action>, after: seq<Action>, first: seq<Execution>, more: seq<Execution>)
    requires Evolves(before, after) && AllExist(before, first) && AllExist(before, more)
    ensures AllInTime(after, first + more) <==> AllInTime(before, first) && AllInTime(before, more)
  {
    InTimeTogether(after, first, more);
    DeadlinesStay(before, after, first);
    DeadlinesStay(before, after, more);
  }

  /**
   * Executions in time, over a run: every agenda transaction is tried before its action's deadline if
   * and only if each of them is, by its own clock reading. The content of this is that a logged clock
   * reading and a deadline never change afterwards. That the claim in time gives nothing is what
   * `ExecutionIgnoresDeadline` and `LateExecutionBooks` say.
   */
  lemma {:induction false} RunIsInTimeIff(cfg: DeskConfig, w: World, events: seq<Event>)
    requires WorldOk(cfg, w) && AllLegal(events)
    ensures
      var final := Reach(w, cfg, events);
      AllInTime(final.desk.actions, final.executions) <==> AllInTime(w.desk.actions, w.executions) && StepsInTime(w, cfg, events)
    decreases |events|
  {
    if events != [] {
      assert Legal(events[0]);
      EventKeepsWorld(cfg, w, events[0]);
      EventInTimeIff(cfg, w, events[0]);
      RunIsInTimeIff(cfg, Next(w, cfg, events[0]), events[1..]);
    }
  }

  // ----------------------------------------------------------- the small shop

  /** A quarter of an hour to confirm; every text is a confirmation. */
  function SmallShopDesk(): DeskConfig {
    DeskConfig(SmallShopRules(), 15, _ => "", _ => true, _ => true)
  }

  function Says(id: Key): Message {
    Message(id, "shop", Some("55"), "text", Some("sim"))
  }

  function TenOClock(): CreateArgs {
    CreateArgs(["cut"], 1, 36000, None, "main")
  }

  function Opening(): World {
    World(Desk(SmallShop(), []), map[], [], [])
  }

  /** The action stored when Monday at ten is prepared from message "a" at clock reading 0. */
  function PreparedAtTen(): Action {
    Action("shop", "55", CreatePayload(["cut"], 1, FormatHhmm(36000), None, "main"),
           CreatePreview(1, FormatHhmm(36000), EndText(1, 36000, 30), [Cut()], 30, 5000, "main"),
           "", "a", 0, 900, Awaiting, 0, None, None)
  }

  function Waiting(): World {
    World(Desk(SmallShop(), [PreparedAtTen()]), map[], [], [])
  }

  lemma PreparingTen()
    ensures DoPrepare(Opening(), SmallShopDesk(), Says("a"), ProposeCreate(TenOClock()), 0) == Waiting()
  {
    var d, cfg := Desk(SmallShop(), []), SmallShopDesk();
    CleanTexts();
    SmallShopCut();
    SmallShopSlot(36000, SmallShop(), 0, None);
    assert Identity(cfg, Says("a")) == Success(CustomerKey("shop", "55"));
    var plan := PlanCreate(d, cfg, CustomerKey("shop", "55"), TenOClock(), 0);
    assert plan == Success((PreparedAtTen().payload, PreparedAtTen().preview));
    var stored := StoreAction(cfg, [], Says("a"), CustomerKey("shop", "55"), plan.value.0, plan.value.1, 0);
    assert stored == [PreparedAtTen()];
  }

  function Running(st: Store): World {
    World(Desk(st, [PreparedAtTen().(status := ActionStatus.Executing, attempts := 1)]), map[7 := ToExecute(0, Says("b"))],
          [Claim(0, Says("b"), 1)], [])
  }

  lemma ClaimingTen(st: Store)
    ensures DoClaim(World(Desk(st, [PreparedAtTen()]), map[], [], []), SmallShopDesk(), 7, Says("b"), 1) == Running(st)
  {
    var cfg, who, actions := SmallShopDesk(), CustomerKey("shop", "55"), [PreparedAtTen()];
    CleanTexts();
    assert Identity(cfg, Says("b")) == Success(who);
    assert ExpireActions(actions, who, 1) == actions;
    assert FindAwaiting(actions, who) == Some(0);
    var claimed := PreparedAtTen().(status := ActionStatus.Executing, attempts := 1);
    assert actions[0 := claimed] == [claimed];
    assert BeginConfirm(Desk(st, actions), cfg, Says("b"), 1) == (Desk(st, [claimed]), Success(0));
  }

  function TenRequest(): CreateRequest {
    CreateRequest("shop", "55", None, ["cut"], 1, 36000, Some("main"), Some(PendingActionKey(0)))
  }

  /** The execution of the claimed action is this request to the scheduling service. */
  lemma ExecutingTen(st: Store, now: int, draws: CodeDraws)
    requires st.appointments == []
    ensures ExecuteAction(st, SmallShopDesk(), 0, PreparedAtTen().payload, Says("b"), now, draws)
         == BookNew(st, SmallShopRules(), "shop", "55", "main", TenRequest(), now, draws)
  {
    CleanTexts();
    HhmmRoundTrip(36000);
    assert Distinct(["cut"]);
    assert ExecuteAction(st, SmallShopDesk(), 0, PreparedAtTen().payload, Says("b"), now, draws)
        == Create(st, SmallShopRules(), TenRequest(), now, draws);
  }

  lemma BookingTen(now: int, draws: CodeDraws)
    requires 0 <= now <= 122400
    ensures var (st, r) := BookNew(SmallShop(), SmallShopRules(), "shop", "55", "main", TenRequest(), now, draws);
            r.Success? && |st.appointments| == 1 && KeyedBy(st, 0, 0)
  {
    SmallShopCut();
    SmallShopSlot(36000, SmallShop(), now, None);
    assert FreshCode([], draws) == Some(draws[0]);
  }

  lemma ReachCons(w: World, cfg: DeskConfig, e: Event, next: World, rest: seq<Event>)
    requires Next(w, cfg, e) == next
    ensures Reach(w, cfg, [e] + rest) == Reach(next, cfg, rest)
  {
    assert ([e] + rest)[1..] == rest;
  }

  lemma ReachLast(w: World, cfg: DeskConfig, e: Event, next: World)
    requires Next(w, cfg, e) == next
    ensures Reach(w, cfg, [e]) == next
  {
    assert [e][1..] == [];
    assert Reach(next, cfg, []) == next;
  }

  lemma LegalCons(e: Event, rest: seq<Event>)
    requires Legal(e) && AllLegal(rest)
    ensures AllLegal([e] + rest)
  {
  }

  lemma OpeningIsOk()
    ensures WorldOk(SmallShopDesk(), Opening())
  {
    EmptyWorldIsOk(SmallShopDesk(), SmallShop().services, SmallShop().hours, SmallShop().resources);
  }

  function PrepareTen(): Event {
    PrepareEvent(Says("a"), ProposeCreate(TenOClock()), 0)
  }

  function ClaimTen(): Event {
    ClaimEvent(7, Says("b"), 1)
  }

  lemma RunToClaim(rest: seq<Event>)
    ensures Reach(Opening(), SmallShopDesk(), [PrepareTen()] + rest) == Reach(Waiting(), SmallShopDesk(), rest)
  {
    PreparingTen();
    ReachCons(Opening(), SmallShopDesk(), PrepareTen(), Waiting(), rest);
  }

  lemma RunFromClaim(st: Store, execute: Event)
    requires execute.ExecuteEvent? && execute.worker == 7
    ensures Reach(World(Desk(st, [PreparedAtTen()]), map[], [], []), SmallShopDesk(), [ClaimTen()] + [execute])
         == DoExecute(Running(st), SmallShopDesk(), 7, execute.now, execute.draws)
  {
    ClaimingTen(st);
    ReachCons(World(Desk(st, [PreparedAtTen()]), map[], [], []), SmallShopDesk(), ClaimTen(), Running(st), [execute]);
    ReachLast(Running(st), SmallShopDesk(), execute, DoExecute(Running(st), SmallShopDesk(), 7, execute.now, execute.draws));
  }

  function LateRun(draws: CodeDraws): seq<Event> {
    [PrepareTen()] + ([ClaimTen()] + [ExecuteEvent(7, 1000, draws)])
  }

  /** Claimed in time, executed later than the deadline, and booked. */
  ghost predicate BookedLate(w: World) {
    && |w.desk.actions| == 1 && w.desk.actions[0].expiresAt == 900
    && w.claims == [Claim(0, Says("b"), 1)] && w.executions == [Execution(0, 1000)]
    && |w.desk.store.appointments| == 1 && KeyedBy(w.desk.store, 0, 0)
  }

  lemma LateExecution(draws: CodeDraws)
    ensures BookedLate(DoExecute(Running(SmallShop()), SmallShopDesk(), 7, 1000, draws))
  {
    ExecutingTen(SmallShop(), 1000, draws);
    BookingTen(1000, draws);
  }

  /**
   * A concrete late execution: prepared at 0 with deadline 900, claimed at 1, executed at 1000. The
   * appointment is booked after the deadline.
   */
  lemma LateExecutionBooks(draws: CodeDraws)
    ensures WorldOk(SmallShopDesk(), Opening()) && AllLegal(LateRun(draws))
    ensures BookedLate(Reach(Opening(), SmallShopDesk(), LateRun(draws)))
  {
    OpeningIsOk();
    LegalCons(ClaimTen(), [ExecuteEvent(7, 1000, draws)]);
    LegalCons(PrepareTen(), [ClaimTen()] + [ExecuteEvent(7, 1000, draws)]);
    RunToClaim([ClaimTen()] + [ExecuteEvent(7, 1000, draws)]);
    RunFromClaim(SmallShop(), ExecuteEvent(7, 1000, draws));
    LateExecution(draws);
  }

  /** The small shop once its opening hours are gone. */
  function ClosedShop(): Store {
    SmallShop().(hours := [])
  }

  lemma BookingTenFails(draws: CodeDraws)
    ensures BookNew(ClosedShop(), SmallShopRules(), "shop", "55", "main", TenRequest(), 1, draws) == (ClosedShop(), Failure(BusinessClosed))
  {
    SmallShopCut();
    assert ClosedShop().services == SmallShop().services;
    assert PlanSlot(ClosedShop(), SmallShopRules(), "shop", "main", 1, 36000, 30, 1, None) == Failure(BusinessClosed);
  }

  function FailingRun(draws: CodeDraws): seq<Event> {
    [PrepareTen()] + ([AgendaEvent(EditHours([]))] + ([ClaimTen()] + [ExecuteEvent(7, 1, draws)]))
  }

  /** Tried once, nothing booked, executing and held by no worker. */
  ghost predicate FailedForEver(w: World) {
    w.executions == [Execution(0, 1)] && w.desk.store.appointments == [] && Abandoned(w, 0)
  }

  lemma FailingExecution(draws: CodeDraws)
    ensures FailedForEver(DoExecute(Running(ClosedShop()), SmallShopDesk(), 7, 1, draws))
  {
    ExecutingTen(ClosedShop(), 1, draws);
    BookingTenFails(draws);
    RecoveryFindsNothing(Running(ClosedShop()).desk.actions, 0, SenderOf(Says("b")));
  }

  /**
   * A concrete failed execution: Monday at ten is prepared, the opening hours are removed, the action
   * is claimed and its execution fails. It is then executing for ever, held by no worker.
   */
  lemma ClosedShopAbandons(draws: CodeDraws)
    ensures WorldOk(SmallShopDesk(), Opening()) && AllLegal(FailingRun(draws))
    ensures FailedForEver(Reach(Opening(), SmallShopDesk(), FailingRun(draws)))
  {
    var execute, close := ExecuteEvent(7, 1, draws), AgendaEvent(EditHours([]));
    OpeningIsOk();
    LegalCons(ClaimTen(), [execute]);
    LegalCons(close, [ClaimTen()] + [execute]);
    LegalCons(PrepareTen(), [close] + ([ClaimTen()] + [execute]));
    RunToClaim([close] + ([ClaimTen()] + [execute]));
    Closing([ClaimTen()] + [execute]);
    RunFromClaim(ClosedShop(), execute);
    FailingExecution(draws);
  }

  lemma Closing(rest: seq<Event>)
    ensures Reach(Waiting(), SmallShopDesk(), [AgendaEvent(EditHours([]))] + rest)
         == Reach(World(Desk(ClosedShop(), [PreparedAtTen()]), map[], [], []), SmallShopDesk(), rest)
  {
    var closed := World(Desk(ClosedShop(), [PreparedAtTen()]), map[], [], []);
    assert DoAgenda(Waiting(), SmallShopDesk(), EditHours([])) == closed;
    ReachCons(Waiting(), SmallShopDesk(), AgendaEvent(EditHours([])), closed, rest);
  }
}
