/** What the QQ limits promise over every run of the connector routes, and where the promise ends. */
module ConnectorAdmission {
  import opened Wrappers
  import opened TurnStore
  import opened ConnectorDelivery
  import opened ConnectorGate
  import C = ConnectorCancel
  import Q = QqAdmission
  import R = ConnectorReservation

  // ---------------------------------------------------------------- the tables

  predicate Bounded(g: Gate) {
    |g.tables.inflight| <= g.limits.maxConcurrent
  }

  /** The tables keep their bound at any clock, and the rate as well when the readings are in order. */
  ghost predicate TablesKept(g: Gate, after: Gate, timely: bool) {
    && after.limits == g.limits
    && (Bounded(g) ==> Bounded(after))
    && (timely && Q.Good(g.tables, g.limits) ==> Q.Good(after.tables, after.limits))
  }

  lemma TabledStaysBounded(g: Gate, a: Q.Action)
    requires Bounded(g)
    ensures Bounded(Tabled(g, a))
  {
    if a.Finish? {
      assert g.tables.inflight == (g.tables.inflight - {a.event}) + (g.tables.inflight * {a.event});
    }
  }

  lemma TabledKeeps(g: Gate, a: Q.Action)
    ensures TablesKept(g, Tabled(g, a), a.Check? || a.Reserve? ==> a.now >= g.tables.last)
  {
    hide Q.Good, Q.Step, Bounded;
    if (a.Check? || a.Reserve? ==> a.now >= g.tables.last) && Q.Good(g.tables, g.limits) {
      Q.StepKeepsGood(g.tables, a, g.limits);
    }
    if Bounded(g) { TabledStaysBounded(g, a); }
  }

  lemma SameKeeps(g: Gate)
    ensures TablesKept(g, g, true)
  {
  }

  lemma KeptTwice(g: Gate, mid: Gate, after: Gate, first: bool, second: bool)
    requires TablesKept(g, mid, first) && TablesKept(mid, after, second)
    ensures TablesKept(g, after, first && second)
  {
  }

  lemma UnqueuedKeeps(g: Gate, event: string, counted: bool)
    ensures TablesKept(g, Unqueued(g, event, counted), true)
  {
    hide TablesKept, Tabled;
    var freed := Tabled(g, Q.Finish(event));
    TabledKeeps(g, Q.Finish(event));
    TabledKeeps(freed, Q.GiveBack(event));
    KeptTwice(g, freed, Tabled(freed, Q.GiveBack(event)), true, true);
  }

  predicate InOrder(g: Gate, v: Visit) {
    g.tables.last <= v.first <= v.second
  }

  lemma PassKeeps(g: Gate, key: Key, v: Visit, replay: bool, early: bool)
    ensures TablesKept(g, Pass(g, key, v, replay, early).0, InOrder(g, v))
  {
    if key.connector == Qq {
      var check, reserve := Q.Check(key.event, v.session, replay, v.first), Q.Reserve(key.event, v.session, replay, v.second);
      var checked := Tabled(g, check);
      var answer, taken := Asked(checked, key.event, v.session, replay, v.second), Tabled(checked, reserve);
      TabledKeeps(g, check);
      TabledKeeps(checked, reserve);
      assert checked.tables.last == v.first;
      UnqueuedKeeps(taken, key.event, answer.counted);
      PassIsOneOf(g, key, v, replay, early);
      hide TablesKept, Tabled, Pass, Unqueued;
      KeptTwice(g, checked, taken, v.first >= g.tables.last, v.second >= v.first);
      KeptTwice(g, taken, Unqueued(taken, key.event, answer.counted), InOrder(g, v), true);
      WeakenKept(g, checked, v.first >= g.tables.last, InOrder(g, v));
    }
  }

  lemma WeakenKept(g: Gate, after: Gate, timely: bool, stricter: bool)
    requires TablesKept(g, after, timely) && (stricter ==> timely)
    ensures TablesKept(g, after, stricter)
  {
  }

  lemma PassIsOneOf(g: Gate, key: Key, v: Visit, replay: bool, early: bool)
    requires key.connector == Qq
    ensures var checked := Tabled(g, Q.Check(key.event, v.session, replay, v.first));
            var taken := Tabled(checked, Q.Reserve(key.event, v.session, replay, v.second));
            var counted := Asked(checked, key.event, v.session, replay, v.second).counted;
            Pass(g, key, v, replay, early).0 in {checked, taken, Unqueued(taken, key.event, counted)}
  {
  }

  // ---------------------------------------------------------------- one action

  lemma TurnKeeps(w: World, id: Owner, turn: TurnOutcome)
    ensures TablesKept(w.gate, TurnDone(w, id, turn).gate, true)
  {
    hide TablesKept, Left, Refunded;
    SameKeeps(w.gate);
    if id in w.workers && w.workers[id].pc == Turn {
      var key := w.workers[id].key;
      var refunds := !w.workers[id].isRetry && !turn.TurnRaised? && turn.replayed;
      var g := if refunds then RefundTurn(w, id).gate else w.gate;
      assert TablesKept(w.gate, g, true) by { RefundKeeps(w.gate, key, id); }
      TurnGate(w, id, turn);
      LeftKeeps(g, key, id);
      KeptTwice(w.gate, g, Left(g, key, id), true, true);
    } else {
      assert TurnDone(w, id, turn) == w;
    }
  }

  lemma RefundKeeps(g: Gate, key: Key, id: Owner)
    ensures TablesKept(g, Refunded(g, key, id), true)
  {
    TabledKeeps(g, Q.GiveBack(key.event));
  }

  /** The gate after a turn: a refund, then the `finally` if the worker ends here. */
  lemma TurnGate(w: World, id: Owner, turn: TurnOutcome)
    requires id in w.workers && w.workers[id].pc == Turn
    ensures var refunds := !w.workers[id].isRetry && !turn.TurnRaised? && turn.replayed;
            var g := if refunds then RefundTurn(w, id).gate else w.gate;
            TurnDone(w, id, turn).gate in {g, Left(g, w.workers[id].key, id)}
  {
    hide Apply;
  }

  lemma FinishGate(w: World, id: Owner, answer: Answer, notice: Notice)
    requires id in w.workers
    ensures Finish(w, id, answer, notice).gate in {w.gate, Left(w.gate, w.workers[id].key, id)}
  {
  }

  lemma SendGate(w: World, id: Owner, send: SendOutcome)
    ensures SendDone(w, id, send).gate == w.gate
            || (id in w.workers && SendDone(w, id, send).gate == Left(w.gate, w.workers[id].key, id))
  {
    hide Finish, Do, Fail, Left, VerdictOf, DeliverySucceeded, OutcomeUnknown, FailureReason;
    if id in w.workers && w.workers[id].pc == Send {
      var worker := w.workers[id];
      FinishGate(w, id, UnknownResponse, NoNotice);
      match Said(worker.reply, send)
      case SendRaised =>
        FailGate(w, id, ProviderException, None);
        FinishGate(Fail(w, id, ProviderException, None), id, PlainResponse, InHandler);
      case Answered(answer) =>
        var reason := if worker.reply == "" && !worker.isRetry then EmptyReply else FailureReason(answer);
        FailGate(w, id, reason, Some(answer));
        FinishGate(Fail(w, id, reason, Some(answer)), id, PlainResponse, InTry);
        var op := MarkSent(worker.key, id);
        R.DoesLittle(w, op);
        FinishGate(Do(w, op), id, if VerdictOf(w, op) == Hit then PlainResponse else UnknownResponse, NoNotice);
    }
  }

  lemma FailGate(w: World, id: Owner, reason: Reason, answer: Option<ProviderAnswer>)
    requires id in w.workers
    ensures Fail(w, id, reason, answer).gate == w.gate && Fail(w, id, reason, answer).workers == w.workers
  {
  }

  lemma CancelGate(w: World, id: Owner)
    ensures Cancelled(w, id).gate == w.gate
            || (id in w.workers && Cancelled(w, id).gate == Left(w.gate, w.workers[id].key, id))
  {
    hide Finish, Do, Fail, Left;
    if Running(w, id) {
      var key := w.workers[id].key;
      var release, discard := ReleaseTurnRetry(key, id, RetryCancelled), DiscardPending(key, id);
      R.DoesLittle(w, release);
      R.DoesLittle(w, discard);
      FailGate(w, id, RetryCancelled, None);
      FinishGate(Do(w, release), id, WasCancelled, NoNotice);
      FinishGate(DiscardOwnPending(w, id), id, WasCancelled, InHandler);
      FinishGate(Fail(w, id, RetryCancelled, None), id, WasCancelled, NoNotice);
      FinishGate(w, id, WasCancelled, InHandler);
      FinishGate(w, id, WasCancelled, NoNotice);
    }
  }

  lemma LeftKeeps(g: Gate, key: Key, id: Owner)
    ensures TablesKept(g, Left(g, key, id), true)
  {
    TabledKeeps(g, Q.Finish(key.event));
  }

  lemma MakeTaskKeeps(w: World, key: Key, early: bool, answer: Q.Decision)
    ensures TablesKept(w.gate, MakeTask(w, key, early, answer).gate, true)
  {
    hide Apply, Q.Good;
  }

  lemma WebhookKeeps(w: World, key: Key, v: Visit, fastAck: bool)
    ensures TablesKept(w.gate, Webhook(w, key, v, fastAck).gate, InOrder(w.gate, v))
  {
    hide Do, Pass, MakeTask, TablesKept, InOrder;
    var w1 := Recover(w, key);
    R.DoesLittle(w, RecoverStale(key));
    var early := fastAck || key.connector == Discord;
    var (gate, pass) := Pass(w1.gate, key, v, key in w1.rows, early);
    SameKeeps(w.gate);
    WeakenKept(w.gate, w.gate, true, InOrder(w.gate, v));
    PassKeeps(w.gate, key, v, key in w1.rows, early);
    if pass.Some? {
      MakeTaskKeeps(w1.(gate := gate), key, early, pass.value);
      KeptTwice(w.gate, gate, MakeTask(w1.(gate := gate), key, early, pass.value).gate, InOrder(w.gate, v), true);
    }
  }

  lemma RetryKeeps(w: World, key: Key, v: Visit)
    ensures TablesKept(w.gate, Retry(w, key, v).gate, w.gate.tables.last <= v.first)
  {
    hide RetryBody, Tabled, Q.Good;
    if key in w.rows {
      var reserve := Q.Reserve(key.event, v.session, true, v.first);
      var taken := w.(gate := Tabled(w.gate, reserve));
      R.RetryBodyIsLocal(w, key);
      R.RetryBodyIsLocal(taken, key);
      TabledKeeps(w.gate, reserve);
      TabledKeeps(taken.gate, Q.Finish(key.event));
      assert ConnectorGate.Held(taken.gate, w.nextOwner, key.event).tables == taken.gate.tables;
    }
  }

  lemma ScanKeeps(w: World, key: Key, v: Visit)
    ensures TablesKept(w.gate, ScanRow(w, key, v).gate, w.gate.tables.last <= v.first)
  {
    hide Retry, Q.Good;
    R.DoesLittle(w, RecoverStale(key));
    RetryKeeps(Do(w, RecoverStale(key)), key, v);
  }

  /** The clock readings of an action are not before the last one. */
  predicate Timely(w: World, a: Action) {
    if a.WebhookArrives? then InOrder(w.gate, a.visit)
    else a.RetryArrives? || a.Scan? ==> w.gate.tables.last <= a.visit.first
  }

  lemma SendKeeps(w: World, id: Owner, send: SendOutcome)
    ensures TablesKept(w.gate, SendDone(w, id, send).gate, true)
  {
    hide SendDone, TablesKept;
    SendGate(w, id, send);
    SameKeeps(w.gate);
    if id in w.workers { LeftKeeps(w.gate, w.workers[id].key, id); }
  }

  lemma CancelKeeps(w: World, id: Owner)
    ensures TablesKept(w.gate, Cancelled(w, id).gate, true)
  {
    hide Cancelled, TablesKept;
    CancelGate(w, id);
    SameKeeps(w.gate);
    if id in w.workers { LeftKeeps(w.gate, w.workers[id].key, id); }
  }

  lemma CallbackKeeps(w: World, id: Owner)
    ensures TablesKept(w.gate, CallbackRuns(w, id).gate, true)
  {
    if id in w.gate.callbacks { TabledKeeps(w.gate, Q.Finish(w.gate.callbacks[id])); }
  }

  lemma RestartKeeps(g: Gate)
    ensures TablesKept(g, Opened(g.limits, g.tables.last), true)
  {
    Q.StartIsGood(g.limits, g.tables.last);
  }

  lemma StepKeepsTables(w: World, a: Action)
    ensures TablesKept(w.gate, Step(w, a).gate, Timely(w, a))
  {
    hide TablesKept, Webhook, TurnDone, SendDone, Cancelled, Retry, ScanRow, CallbackRuns, Opened, Apply;
    SameKeeps(w.gate);
    match a
    case WebhookArrives(key, visit, fastAck) => WebhookKeeps(w, key, visit, fastAck);
    case TurnReturns(id, turn) => TurnKeeps(w, id, turn);
    case SendReturns(id, send) => SendKeeps(w, id, send);
    case CancelLands(id) => CancelKeeps(w, id);
    case Callback(id) => CallbackKeeps(w, id);
    case RetryArrives(key, visit) => RetryKeeps(w, key, visit);
    case Scan(key, visit) => ScanKeeps(w, key, visit);
    case Restart => RestartKeeps(w.gate);
    case _ =>
  }

  // ---------------------------------------------------------------- every run

  /** In every run, at any clock, at most `maxConcurrent` events are reserved at once. */
  lemma {:induction false} EveryRunIsBounded(limits: Q.Limits, actions: seq<Action>)
    ensures var g := Run(limits, actions).gate; g.limits == limits && Bounded(g)
  {
    if actions != [] {
      hide Step;
      EveryRunIsBounded(limits, actions[..|actions| - 1]);
      StepKeepsTables(Run(limits, actions[..|actions| - 1]), actions[|actions| - 1]);
    }
  }

  predicate TimelyRun(limits: Q.Limits, actions: seq<Action>) {
    forall n :: 0 <= n < |actions| ==> Timely(Run(limits, actions[..n]), actions[n])
  }

  /**
   Main result. In every run of the routes whose clock readings never fall, every 60-second window of every session
   holds at most `ratePerMinute` counted and not refunded admissions since the process started.
   */
  lemma {:induction false} EveryRunIsRated(limits: Q.Limits, actions: seq<Action>)
    requires TimelyRun(limits, actions)
    ensures Q.Good(Run(limits, actions).gate.tables, limits)
  {
    if actions == [] {
      Q.StartIsGood(limits, 0);
    } else {
      hide Step, Q.Good, TimelyRun;
      var n := |actions| - 1;
      TimelyPrefix(limits, actions);
      EveryRunIsRated(limits, actions[..n]);
      EveryRunIsBounded(limits, actions[..n]);
      StepKeepsTables(Run(limits, actions[..n]), actions[n]);
    }
  }

  lemma TimelyPrefix(limits: Q.Limits, actions: seq<Action>)
    requires TimelyRun(limits, actions) && actions != []
    ensures var n := |actions| - 1;
            TimelyRun(limits, actions[..n]) && Timely(Run(limits, actions[..n]), actions[n])
  {
    hide Run, Timely;
    var n := |actions| - 1;
    forall k | 0 <= k < n ensures Timely(Run(limits, actions[..n][..k]), actions[..n][k]) {
      assert actions[..n][..k] == actions[..k];
    }
  }

  // ---------------------------------------------------------------- how many attempts run

  /** Every running QQ attempt has a reservation. */
  ghost predicate AllHeld(w: World) {
    forall id {:trigger id in w.workers} ::
      id in w.workers && Running(w, id) && w.workers[id].key.connector == Qq ==> id in w.gate.holders
  }

  predicate OneReading(a: Action) {
    a.WebhookArrives? ==> a.visit.first == a.visit.second
  }

  lemma MoveKeepsAllHeld(w: World, after: World, m: R.Move)
    requires AllHeld(w) && R.Makes(w, after, m) && (m.Launch? ==> m.taken)
    ensures AllHeld(after)
  {
    forall id | id in after.workers && Running(after, id) && after.workers[id].key.connector == Qq
      ensures id in after.gate.holders
    {
      if id in w.workers && !m.Clear? {
        assert R.Continues(w, after, id, m);
      } else {
        assert R.Appears(after, id, m);
      }
    }
  }

  lemma {:induction false} EveryRunHoldsAll(limits: Q.Limits, actions: seq<Action>)
    requires forall a :: a in actions ==> OneReading(a)
    ensures AllHeld(Run(limits, actions))
  {
    if actions != [] {
      hide R.Makes, Step, R.Held;
      var n := |actions| - 1;
      var before := Run(limits, actions[..n]);
      EveryRunHoldsAll(limits, actions[..n]);
      R.RunIsHeld(limits, actions[..n]);
      assert OneReading(actions[n]);
      var m := R.StepMakes(before, actions[n]);
      MoveKeepsAllHeld(before, Step(before, actions[n]), m);
    }
  }

  function RunningQq(w: World): set<Owner> {
    set id | id in w.workers && Running(w, id) && w.workers[id].key.connector == Qq
  }

  lemma SubsetIsSmaller(a: set<Owner>, b: set<Owner>)
    requires a <= b
    ensures |a| <= |b|
  {
    assert b == a + (b - a);
  }

  lemma {:induction false} HoldersAreValues(holders: map<Owner, string>)
    requires forall i, j :: i in holders && j in holders && i != j ==> holders[i] != holders[j]
    ensures |holders.Keys| == |holders.Values|
  {
    if holders == map[] {
      assert holders.Values == {};
    } else {
      var i :| i in holders;
      var rest := holders - {i};
      HoldersAreValues(rest);
      R.RemoveValue(holders, i);
      assert holders.Keys == rest.Keys + {i};
    }
  }

  /**
   Main result. In every run where both questions of a webhook read the same time and no late callback releases the
   event of another attempt, at most `maxConcurrent` QQ attempts run at once.
   */
  lemma RunningIsBounded(limits: Q.Limits, actions: seq<Action>)
    requires (forall a :: a in actions ==> OneReading(a)) && R.NeverRobs(limits, actions)
    ensures |RunningQq(Run(limits, actions))| <= limits.maxConcurrent
  {
    hide Run, R.NeverRobs;
    var w := Run(limits, actions);
    R.AlwaysExactIff(limits, actions);
    R.LastIsExact(limits, actions);
    EveryRunHoldsAll(limits, actions);
    EveryRunIsBounded(limits, actions);
    SubsetIsSmaller(RunningQq(w), w.gate.holders.Keys);
    HoldersAreValues(w.gate.holders);
  }

  /** Where every running attempt has a reservation, only a late callback can release what is not its own. */
  lemma OnlyACallbackRobs(w: World, a: Action)
    requires AllHeld(w)
    ensures R.RobsAnother(w, a)
            <==> R.Calls(w, a) && a.id !in w.gate.holders && w.gate.callbacks[a.id] in w.gate.holders.Values
  {
    if R.Leaves(w, a) {
      assert a.id in w.workers;
    }
  }

  // ---------------------------------------------------------------- where the promise ends

  const E := Key(Qq, "e")
  const F := Key(Qq, "f")

  function Asking(session: string): Visit {
    Visit(true, session, 0, 0, true, true)
  }

  /** The first attempt fails, its event is retried before the callback, and then another event arrives. */
  function LateRun(): seq<Action> {
    C.Begun(E) + [TurnReturns(0, TurnRaised)] + [RetryArrives(E, Asking("u"))] + [Callback(0)]
    + [WebhookArrives(F, Asking("v"), false)]
  }

  /** What the run needs to know of a gate. */
  predicate Looks(g: Gate, limits: Q.Limits, slots: R.Slots, recent: Q.Recent) {
    g.limits == limits && R.SlotsOf(g) == slots && g.tables.recent == recent
  }

  predicate Single(limits: Q.Limits) {
    limits.ratePerMinute > 0 && limits.maxConcurrent == 1
  }

  /** A gate with a free slot admits an event of a session that was not counted yet. */
  lemma FreePass(g: Gate, event: string, session: string, slots: R.Slots, recent: Q.Recent)
    requires Single(g.limits) && Looks(g, g.limits, slots, recent) && slots.inflight == {} && event !in recent
    requires forall e :: e in recent ==> recent[e].session != session && recent[e].at == 0
    ensures var (after, pass) := Pass(g, Key(Qq, event), Asking(session), false, false);
            && pass == Some(Q.Decision(true, true))
            && Looks(after, g.limits, slots.(inflight := {event}), recent[event := Q.Stamp(session, 0)])
  {
    assert Q.Pruned(recent, 0) == recent;
    assert Q.OfSession(recent, session) == {};
  }

  lemma NewTask(w: World, event: string, session: string, slots: R.Slots, recent: Q.Recent)
    requires Single(w.gate.limits) && Looks(w.gate, w.gate.limits, slots, recent)
    requires slots.inflight == {} && event !in recent && Key(Qq, event) !in w.rows && Key(Qq, event) !in w.tasks
    requires forall e :: e in recent ==> recent[e].session != session && recent[e].at == 0
    ensures var id, key := w.nextOwner, Key(Qq, event);
            var after := Webhook(w, key, Asking(session), false);
            && after.workers == w.workers[id := Worker(key, false, Queued, false, "", false, false)]
            && Looks(after.gate, w.gate.limits, R.Slots({event}, slots.holders[id := event], slots.callbacks[id := event]),
                     recent[event := Q.Stamp(session, 0)])
  {
    hide Pass, Apply;
    FreePass(w.gate, event, session, slots, recent);
  }

  lemma EnterGate(w: World, id: Owner)
    ensures Enter(w, id).gate == w.gate
  {
    hide Apply;
  }

  lemma BegunGate(limits: Q.Limits)
    requires Single(limits)
    ensures Looks(Run(limits, C.Begun(E)).gate, limits, R.Slots({"e"}, map[0 := "e"], map[0 := "e"]),
                  map["e" := Q.Stamp("u", 0)])
  {
    var arrive, enter := WebhookArrives(E, C.VISIT, false), WebhookEnters(0);
    C.RunSnoc(limits, [], arrive);
    C.RunSnoc(limits, [arrive], enter);
    assert [] + [arrive] == [arrive] && [arrive] + [enter] == C.Begun(E);
    hide Enter, Webhook;
    NewTask(Start(limits), "e", "u", R.Slots({}, map[], map[]), map[]);
    EnterGate(Run(limits, [arrive]), 0);
  }

  /** The first attempt fails and releases its event; its callback is still to come. */
  lemma TurnFails(w: World)
    requires w.rows == map[E := Row(Processing, 0, Some(0), Some(CLAIM_LEASE), None, None, None)]
    requires w.workers == map[0 := Worker(E, false, Turn, true, "", false, false)] && w.tasks == map[E := 0]
    requires w.nextOwner == 1 && w.now == 0
    requires Looks(w.gate, w.gate.limits, R.Slots({"e"}, map[0 := "e"], map[0 := "e"]), map["e" := Q.Stamp("u", 0)])
    ensures var after := TurnDone(w, 0, TurnRaised);
            && after.rows == map[E := Row(Failed, 0, None, None, Some(TurnFailed), None, None)]
            && after.workers == map[0 := Worker(E, false, Done(PlainResponse), true, "", false, false)]
            && after.tasks == w.tasks && after.nextOwner == 1 && after.now == 0
            && Looks(after.gate, w.gate.limits, R.Slots({}, map[], map[0 := "e"]), map["e" := Q.Stamp("u", 0)])
  {
    assert {"e"} - {"e"} == {};
    assert (map[0 := "e"]) - {0} == map[];
  }

  /** The retry takes the free slot for the same event. */
  lemma RetryTakes(w: World)
    requires w.rows == map[E := Row(Failed, 0, None, None, Some(TurnFailed), None, None)]
    requires w.workers == map[0 := Worker(E, false, Done(PlainResponse), true, "", false, false)] && w.tasks == map[E := 0]
    requires w.nextOwner == 1 && w.now == 0 && Single(w.gate.limits)
    requires Looks(w.gate, w.gate.limits, R.Slots({}, map[], map[0 := "e"]), map["e" := Q.Stamp("u", 0)])
    ensures var after := Retry(w, E, Asking("u"));
            && after.rows.Keys == {E} && after.tasks == w.tasks && after.nextOwner == 2
            && after.workers == w.workers[1 := Worker(E, true, Turn, false, "", false, false)]
            && Looks(after.gate, w.gate.limits, R.Slots({"e"}, map[1 := "e"], map[0 := "e"]), map["e" := Q.Stamp("u", 0)])
  {
    RetryReserves(w.gate);
    var taken := w.(gate := Tabled(w.gate, Q.Reserve("e", "u", true, 0)));
    RetryRuns(taken);
  }

  lemma RetryReserves(g: Gate)
    requires Single(g.limits)
    requires Looks(g, g.limits, R.Slots({}, map[], map[0 := "e"]), map["e" := Q.Stamp("u", 0)])
    ensures Asked(g, "e", "u", true, 0).admitted
    ensures Looks(Tabled(g, Q.Reserve("e", "u", true, 0)), g.limits, R.Slots({"e"}, map[], map[0 := "e"]),
                  map["e" := Q.Stamp("u", 0)])
  {
    assert Q.Pruned(g.tables.recent, 0) == g.tables.recent;
  }

  lemma RetryRuns(w: World)
    requires w.rows == map[E := Row(Failed, 0, None, None, Some(TurnFailed), None, None)]
    requires w.nextOwner == 1 && w.now == 0
    ensures var after := RetryBody(w, E);
            && after.rows.Keys == {E} && after.tasks == w.tasks && after.nextOwner == 2 && after.gate == w.gate
            && after.workers == w.workers[1 := Worker(E, true, Turn, false, "", false, false)]
  {
    R.RetryBodyIsLocal(w, E);
  }

  /** The callback of the first attempt releases what the retry holds. */
  lemma CallbackRobs(w: World)
    requires 0 in w.workers && w.workers[0].pc.Done? && w.gate.limits.maxConcurrent == 1
    requires Looks(w.gate, w.gate.limits, R.Slots({"e"}, map[1 := "e"], map[0 := "e"]), map["e" := Q.Stamp("u", 0)])
    ensures var after := CallbackRuns(w, 0);
            && after == w.(gate := after.gate)
            && Looks(after.gate, w.gate.limits, R.Slots({}, map[1 := "e"], map[]), map["e" := Q.Stamp("u", 0)])
  {
    assert {"e"} - {"e"} == {};
    assert (map[1 := "e"]) - {0} == map[1 := "e"];
    assert (map[0 := "e"]) - {0} == map[];
  }

  /** With one slot, two attempts for two events run at once. */
  lemma LateCallbackRunsTooMany(limits: Q.Limits)
    requires Single(limits)
    ensures RunningQq(Run(limits, LateRun())) == {1, 2}
  {
    hide Run, TurnDone, Retry, CallbackRuns, Webhook, Looks;
    C.FirstWorker(limits, E);
    BegunGate(limits);
    var a2 := C.Begun(E);
    var a3 := a2 + [TurnReturns(0, TurnRaised)];
    var a4 := a3 + [RetryArrives(E, Asking("u"))];
    var a5 := a4 + [Callback(0)];
    C.RunSnoc(limits, a2, TurnReturns(0, TurnRaised));
    C.RunSnoc(limits, a3, RetryArrives(E, Asking("u")));
    C.RunSnoc(limits, a4, Callback(0));
    C.RunSnoc(limits, a5, WebhookArrives(F, Asking("v"), false));
    EveryRunIsBounded(limits, a2);
    TurnFails(Run(limits, a2));
    EveryRunIsBounded(limits, a3);
    RetryTakes(Run(limits, a3));
    EveryRunIsBounded(limits, a4);
    CallbackRobs(Run(limits, a4));
    EveryRunIsBounded(limits, a5);
    NewTask(Run(limits, a5), "f", "v", R.Slots({}, map[1 := "e"], map[]), map["e" := Q.Stamp("u", 0)]);
  }
}
