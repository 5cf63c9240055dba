/** Cancellation and the in-memory task maps, over every run of the connector routes. */
module ConnectorCancel {
  import opened Wrappers
  import opened TurnStore
  import opened ConnectorDelivery
  import opened ConnectorGate
  import Q = QqAdmission

  /**
   What the log says about cancellation: the attempts whose send has started, those whose cancellation was accepted,
   those answered "cancelled", and whether each acceptance came before any send of the same attempt.
   */
  datatype Summary = Summary(sent: set<Owner>, requested: set<Owner>, confirmed: set<Owner>, ordered: bool)

  function Extend(s: Summary, e: Event): Summary {
    match e
    case SendStarted(who, _) => s.(sent := s.sent + {who})
    case CancelRequested(who, _) => s.(requested := s.requested + {who}, ordered := s.ordered && who !in s.sent)
    case CancelConfirmed(who, _) => s.(confirmed := s.confirmed + {who})
    case _ => s
  }

  ghost function Summarize(log: seq<Event>): Summary {
    if log == [] then Summary({}, {}, {}, true) else Extend(Summarize(log[..|log| - 1]), log[|log| - 1])
  }

  /** What a run leaves behind apart from the rows and the clock. */
  datatype Memory = Memory(
    workers: map<Owner, Worker>,
    tasks: map<Key, Owner>,
    phases: map<Key, Phase>,
    eventIds: map<Key, string>,
    nextOwner: Owner,
    history: Summary)

  ghost function Mem(w: World): Memory {
    Memory(w.workers, w.tasks, w.phases, w.eventIds, w.nextOwner, Summarize(w.log))
  }

  /** The task, phase and event-id maps have the same keys, and every entry describes its task. */
  ghost predicate MapsAgree(m: Memory) {
    && m.tasks.Keys == m.phases.Keys == m.eventIds.Keys
    && (forall key {:trigger key in m.tasks} :: key in m.tasks ==>
          && m.eventIds[key] == key.event
          && m.tasks[key] in m.workers
          && m.workers[m.tasks[key]].key == key && !m.workers[m.tasks[key]].isRetry)
    && (forall id {:trigger id in m.workers} ::
          id in m.workers && !m.workers[id].pc.Done? && !m.workers[id].isRetry ==>
            var worker := m.workers[id];
            && worker.key in m.tasks && m.tasks[worker.key] == id
            && m.phases[worker.key] == (if worker.sendStarted then SendingPhase else ProcessingPhase))
  }

  ghost predicate WorkersLogged(m: Memory) {
    && (forall id {:trigger id in m.workers} :: id in m.workers ==>
          var worker := m.workers[id];
          && id < m.nextOwner
          && (worker.cancelRequested <==> id in m.history.requested)
          && (worker.sendStarted <==> id in m.history.sent)
          && (worker.isRetry ==> !worker.cancelRequested)
          && (worker.pc == Queued || worker.pc == Turn ==> !worker.sendStarted))
    && (forall id {:trigger id in m.history.sent} {:trigger id in m.history.requested} ::
          id in m.history.sent || id in m.history.requested ==> id < m.nextOwner)
    && m.history.confirmed <= m.history.requested
  }

  ghost predicate CancelInv(m: Memory) {
    MapsAgree(m) && WorkersLogged(m) && m.history.ordered
  }

  /** The abstract moves. Every action of the routes makes at most one of them. */
  datatype Move =
    | Stay
    | Suspend(id: Owner, pc: Pc, pendingCreated: bool)
    | Begin(id: Owner, reply: string)
    | Spawn(worker: Worker)
    | Ask(id: Owner)
    | Drop(id: Owner, confirmed: bool)
    | Clear

  predicate Live(m: Memory, id: Owner) {
    id in m.workers && !m.workers[id].pc.Done?
  }

  predicate Allowed(m: Memory, move: Move) {
    match move
    case Suspend(id, pc, _) => Live(m, id) && pc != Queued && (pc == Turn ==> m.workers[id].pc == Queued)
    case Begin(id, _) => id in m.workers && m.workers[id].pc == Turn
    case Spawn(worker) =>
      !worker.cancelRequested
      && if worker.isRetry then worker.sendStarted == (worker.pc == Send) else
         worker.pc == Queued && !worker.sendStarted && (worker.key in m.tasks ==> !Live(m, m.tasks[worker.key]))
    case Ask(id) =>
      Live(m, id) && var key := m.workers[id].key;
      key in m.tasks && m.tasks[key] == id && key in m.phases && m.phases[key] != SendingPhase
    case Drop(id, confirmed) =>
      id in m.workers && m.workers[id].pc.Done? && (confirmed ==> m.workers[id].cancelRequested)
    case _ => true
  }

  function Moved(m: Memory, move: Move): Memory
    requires Allowed(m, move)
  {
    match move
    case Stay => m
    case Suspend(id, pc, created) =>
      m.(workers := m.workers[id := m.workers[id].(pc := pc, pendingCreated := created)])
    case Begin(id, reply) =>
      var worker := m.workers[id];
      m.(workers := m.workers[id := worker.(pc := Send, reply := reply, sendStarted := true)],
         phases := if worker.isRetry then m.phases else m.phases[worker.key := SendingPhase],
         history := Extend(m.history, SendStarted(id, worker.key)))
    case Spawn(worker) =>
      var id, key := m.nextOwner, worker.key;
      if worker.isRetry then
        m.(workers := m.workers[id := worker], nextOwner := id + 1,
           history := if worker.sendStarted then Extend(m.history, SendStarted(id, key)) else m.history)
      else
        m.(workers := m.workers[id := worker], nextOwner := id + 1, tasks := m.tasks[key := id],
           phases := m.phases[key := ProcessingPhase], eventIds := m.eventIds[key := key.event])
    case Ask(id) =>
      m.(workers := m.workers[id := m.workers[id].(cancelRequested := true)],
         history := Extend(m.history, CancelRequested(id, m.workers[id].key)))
    case Drop(id, confirmed) =>
      var key := m.workers[id].key;
      var m1 := if confirmed then m.(history := Extend(m.history, CancelConfirmed(id, key))) else m;
      if key in m.tasks && m.tasks[key] == id
      then m1.(tasks := m.tasks - {key}, phases := m.phases - {key}, eventIds := m.eventIds - {key})
      else m1
    case Clear => m.(workers := map[], tasks := map[], phases := map[], eventIds := map[])
  }

  lemma MoveKeeps(m: Memory, move: Move)
    requires CancelInv(m) && Allowed(m, move)
    ensures CancelInv(Moved(m, move))
  {
    MoveKeepsHistory(m, move);
    match move
    case Stay =>
    case Suspend(_, _, _) => SuspendKeepsMaps(m, move);
    case Begin(_, _) => BeginKeepsMaps(m, move);
    case Spawn(_) => SpawnKeepsMaps(m, move);
    case Ask(_) => AskKeepsMaps(m, move);
    case Drop(_, _) => DropKeepsMaps(m, move);
    case Clear =>
  }

  lemma MoveKeepsHistory(m: Memory, move: Move)
    requires WorkersLogged(m) && m.history.ordered && Allowed(m, move)
    requires MapsAgree(m)
    ensures WorkersLogged(Moved(m, move)) && Moved(m, move).history.ordered
  {
    if move.Spawn? { SpawnKeepsHistory(m, move); } else { OtherMoveKeepsHistory(m, move); }
  }

  lemma SpawnKeepsHistory(m: Memory, move: Move)
    requires WorkersLogged(m) && m.history.ordered && move.Spawn? && Allowed(m, move)
    ensures WorkersLogged(Moved(m, move)) && Moved(m, move).history.ordered
  {
  }

  lemma OtherMoveKeepsHistory(m: Memory, move: Move)
    requires WorkersLogged(m) && m.history.ordered && !move.Spawn? && Allowed(m, move)
    requires MapsAgree(m)
    ensures WorkersLogged(Moved(m, move)) && Moved(m, move).history.ordered
  {
  }

  lemma SuspendKeepsMaps(m: Memory, move: Move)
    requires MapsAgree(m) && move.Suspend? && Allowed(m, move)
    ensures MapsAgree(Moved(m, move))
  {
  }

  lemma BeginKeepsMaps(m: Memory, move: Move)
    requires MapsAgree(m) && move.Begin? && Allowed(m, move)
    ensures MapsAgree(Moved(m, move))
  {
  }

  lemma SpawnKeepsMaps(m: Memory, move: Move)
    requires MapsAgree(m) && WorkersLogged(m) && move.Spawn? && Allowed(m, move)
    ensures MapsAgree(Moved(m, move))
  {
  }

  lemma AskKeepsMaps(m: Memory, move: Move)
    requires MapsAgree(m) && move.Ask? && Allowed(m, move)
    ensures MapsAgree(Moved(m, move))
  {
  }

  lemma DropKeepsMaps(m: Memory, move: Move)
    requires MapsAgree(m) && move.Drop? && Allowed(m, move)
    ensures MapsAgree(Moved(m, move))
  {
  }

  // ---------------------------------------------------------------- every action is one move

  lemma LogSnoc(log: seq<Event>, e: Event)
    ensures Summarize(log + [e]) == Extend(Summarize(log), e)
  {
    assert (log + [e])[..|log|] == log;
  }

  lemma DoIsStay(w: World, op: Op)
    ensures Mem(Do(w, op)) == Mem(w)
  {
    var events := Recorded(op, VerdictOf(w, op));
    if events == [] {
      assert Do(w, op).log == w.log;
    } else {
      LogSnoc(w.log, events[0]);
    }
  }

  lemma RecoverIsStay(w: World, key: Key)
    ensures Mem(Recover(w, key)) == Mem(w)
  {
    DoIsStay(w, RecoverStale(key));
  }

  lemma FailIsStay(w: World, id: Owner, reason: Reason, answer: Option<ProviderAnswer>)
    requires id in w.workers
    ensures Mem(Fail(w, id, reason, answer)) == Mem(w)
  {
    LogSnoc(w.log, FailureRecorded(id, w.workers[id].key, reason, answer));
  }

  lemma GateIsStay(w: World, gate: Gate)
    ensures Mem(w.(gate := gate)) == Mem(w)
  {
  }

  lemma LaunchMoves(w: World, key: Key, early: bool, answer: Q.Decision) returns (move: Move)
    requires !TaskActive(w, key)
    ensures Allowed(Mem(w), move) && Mem(MakeTask(w, key, early, answer)) == Moved(Mem(w), move)
    ensures !move.Begin?
  {
    var op := RecordPending(key, w.nextOwner);
    DoIsStay(w, op);
    move := Move.Spawn(Worker(key, false, Queued, early && VerdictOf(w, op) == Hit, "", false, false));
  }

  lemma WebhookMoves(w: World, key: Key, v: Visit, fastAck: bool) returns (move: Move)
    ensures Allowed(Mem(w), move) && Mem(Webhook(w, key, v, fastAck)) == Moved(Mem(w), move)
    ensures !move.Begin?
  {
    hide Pass, Do, Summarize;
    RecoverIsStay(w, key);
    move := Stay;
    var w1 := Recover(w, key);
    var early := fastAck || key.connector == Discord;
    var (gate, pass) := Pass(w1.gate, key, v, key in w1.rows, early);
    GateIsStay(w1, gate);
    var refused := !v.allowed || TaskActive(w, key) || HasStatus(w1, key, Processing) || HasStatus(w1, key, Delivered)
                   || HasStatus(w1, key, Sending) || (HasStatus(w1, key, Failed) && ReplyBlank(w1.rows[key]));
    if !refused && pass.Some? {
      assert w1.tasks == Mem(w).tasks && w1.workers == Mem(w).workers;
      move := LaunchMoves(w1.(gate := gate), key, early, pass.value);
    }
  }

  /** The move made when `id` ends, or suspends for a last notification, after an optional store call. */
  function FinishMove(w: World, id: Owner, answer: Answer, notice: Notice): (move: Move)
    requires Running(w, id)
    ensures Allowed(Mem(w), move) && !move.Begin?
  {
    var worker := w.workers[id];
    var discord := notice != NoNotice && !worker.isRetry && worker.key.connector == Discord;
    Suspend(id, if discord then Notify(answer, notice.InTry?) else Done(answer), worker.pendingCreated)
  }

  lemma FinishMoves(w: World, op: Op, id: Owner, answer: Answer, notice: Notice) returns (move: Move)
    requires Running(w, id)
    ensures Allowed(Mem(w), move)
    ensures Mem(Finish(w, id, answer, notice)) == Moved(Mem(w), move)
    ensures Mem(Finish(Do(w, op), id, answer, notice)) == Moved(Mem(w), move)
    ensures !move.Begin?
  {
    DoIsStay(w, op);
    move := FinishMove(w, id, answer, notice);
  }

  lemma FailMoves(w: World, id: Owner, reason: Reason, sent: Option<ProviderAnswer>, answer: Answer, notice: Notice)
    returns (move: Move)
    requires Running(w, id)
    ensures Allowed(Mem(w), move)
    ensures Mem(Finish(Fail(w, id, reason, sent), id, answer, notice)) == Moved(Mem(w), move)
    ensures !move.Begin?
  {
    FailIsStay(w, id, reason, sent);
    move := FinishMove(w, id, answer, notice);
  }

  lemma BeginMoves(w: World, op: Op, id: Owner, reply: string) returns (move: Move)
    requires id in w.workers && w.workers[id].pc == Turn
    ensures Allowed(Mem(w), move) && Mem(StartSend(Do(w, op), id, reply)) == Moved(Mem(w), move)
    ensures move == Begin(id, reply)
  {
    DoIsStay(w, op);
    LogSnoc(Do(w, op).log, SendStarted(id, w.workers[id].key));
    move := Begin(id, reply);
  }

  lemma WebhookTurnMoves(w: World, id: Owner, turn: TurnOutcome) returns (move: Move)
    requires id in w.workers && w.workers[id].pc == Turn
    ensures Allowed(Mem(w), move) && Mem(WebhookTurn(w, id, turn)) == Moved(Mem(w), move)
    ensures move.Begin? ==> turn.Replied? && move.id == id
  {
    var key := w.workers[id].key;
    match turn
    case TurnCancelled(_) => move := FinishMoves(w, DiscardPending(key, id), id, PlainResponse, InTry);
    case UnknownEffect(_) => move := FinishMoves(w, DiscardPending(key, id), id, UnknownResponse, InTry);
    case TurnRaised => move := FinishMoves(w, MarkTurnFailed(key, id, TurnFailed), id, PlainResponse, InHandler);
    case Replied(text, replayed) =>
      var op := ClaimDelivery(key, id, text);
      if replayed && HasStatus(w, key, Sending) {
        move := FinishMoves(w, op, id, UnknownResponse, NoNotice);
      } else if VerdictOf(w, op) == Claimed {
        move := BeginMoves(w, op, id, text);
      } else {
        move := FinishMoves(w, op, id, if VerdictOf(w, op) == Unknown then UnknownResponse else PlainResponse, NoNotice);
      }
  }

  lemma RetryTurnMoves(w: World, id: Owner, turn: TurnOutcome) returns (move: Move)
    requires id in w.workers && w.workers[id].pc == Turn
    ensures Allowed(Mem(w), move) && Mem(RetryTurn(w, id, turn)) == Moved(Mem(w), move)
    ensures move.Begin? ==> turn.Replied? && move.id == id
  {
    var key := w.workers[id].key;
    match turn
    case TurnCancelled(_) => move := FinishMoves(w, ReleaseTurnRetry(key, id, EventCancelled), id, PlainResponse, NoNotice);
    case UnknownEffect(_) => move := FinishMoves(w, ReleaseTurnRetry(key, id, EventStateUnknown), id, PlainResponse, NoNotice);
    case TurnRaised => move := FinishMoves(w, ReleaseTurnRetry(key, id, TurnException), id, PlainResponse, NoNotice);
    case Replied(text, _) =>
      var op := PromoteTurnRetry(key, id, text);
      if text != "" && VerdictOf(w, op) == Hit {
        move := BeginMoves(w, op, id, text);
      } else {
        move := FinishMoves(w, ReleaseTurnRetry(key, id, TurnException), id, PlainResponse, NoNotice);
      }
  }

  lemma SendMoves(w: World, id: Owner, send: SendOutcome) returns (move: Move)
    requires id in w.workers && w.workers[id].pc == Send
    ensures Allowed(Mem(w), move) && Mem(SendDone(w, id, send)) == Moved(Mem(w), move)
    ensures !move.Begin?
  {
    var worker := w.workers[id];
    var key := worker.key;
    var sent := MarkSent(key, id);
    match Said(worker.reply, send)
    case SendRaised =>
      if key.connector == Qq {
        move := FinishMoves(w, sent, id, UnknownResponse, NoNotice);
      } else {
        move := FailMoves(w, id, ProviderException, None, PlainResponse, InHandler);
      }
    case Answered(answer) =>
      if OutcomeUnknown(answer) {
        move := FinishMoves(w, sent, id, UnknownResponse, NoNotice);
      } else if !DeliverySucceeded(answer) || (worker.reply == "" && !worker.isRetry) {
        var reason := if worker.reply == "" && !worker.isRetry then EmptyReply else FailureReason(answer);
        move := FailMoves(w, id, reason, Some(answer), PlainResponse, InTry);
      } else {
        var answer := if VerdictOf(w, sent) == Hit then PlainResponse else UnknownResponse;
        move := FinishMoves(w, sent, id, answer, NoNotice);
      }
  }

  lemma CancelMoves(w: World, id: Owner) returns (move: Move)
    requires Running(w, id)
    ensures Allowed(Mem(w), move) && Mem(Cancelled(w, id)) == Moved(Mem(w), move)
    ensures !move.Begin?
  {
    var worker := w.workers[id];
    var key := worker.key;
    if worker.pc == Turn && worker.isRetry {
      move := FinishMoves(w, ReleaseTurnRetry(key, id, RetryCancelled), id, WasCancelled, NoNotice);
    } else if worker.pc == Turn {
      move := FinishMoves(w, DiscardPending(key, id), id, WasCancelled, InHandler);
    } else if worker.pc == Send && worker.isRetry && key.connector != Qq {
      move := FailMoves(w, id, RetryCancelled, None, WasCancelled, NoNotice);
    } else if worker.pc == Send || (worker.pc.Notify? && worker.pc.inTry && worker.sendStarted) {
      move := FinishMoves(w, MarkSent(key, id), id, WasCancelled, InHandler);
    } else if worker.pc.Notify? && worker.pc.inTry {
      move := FinishMoves(w, DiscardPending(key, id), id, WasCancelled, InHandler);
    } else {
      move := FinishMoves(w, MarkSent(key, id), id, WasCancelled, NoNotice);
    }
  }

  lemma SpawnMoves(w: World, op: Op, worker: Worker, text: string)
    requires worker.isRetry && worker.pc == Turn && !worker.sendStarted && !worker.cancelRequested
    ensures var id := w.nextOwner;
            var w1 := Do(w, op).(nextOwner := id + 1, workers := w.workers[id := worker]);
            var sender := worker.(pc := Send, reply := text, sendStarted := true);
            Mem(w1) == Moved(Mem(w), Move.Spawn(worker)) && Mem(StartSend(w1, id, text)) == Moved(Mem(w), Move.Spawn(sender))
  {
    var id := w.nextOwner;
    DoIsStay(w, op);
    LogSnoc(Do(w, op).log, SendStarted(id, worker.key));
  }

  lemma RetryClaimMoves(w: World, key: Key) returns (move: Move)
    requires key in w.rows
    ensures Allowed(Mem(w), move) && Mem(RetryClaim(w, key)) == Moved(Mem(w), move)
    ensures !move.Begin?
  {
    hide Do, VerdictOf, StartSend, Summarize;
    move := Stay;
    if RetryClaim(w, key) != w {
      var id, text := w.nextOwner, w.rows[key].reply.GetOr("");
      var worker := Worker(key, true, Turn, false, "", false, false);
      var again := ReplyBlank(w.rows[key]);
      SpawnMoves(w, if again then ClaimTurnRetry(key, id) else ClaimDelivery(key, id, text), worker, text);
      move := Move.Spawn(if again then worker else worker.(pc := Send, reply := text, sendStarted := true));
    }
  }

  lemma RetryBodyMoves(w: World, key: Key) returns (move: Move)
    requires key in w.rows
    ensures Allowed(Mem(w), move) && Mem(RetryBody(w, key)) == Moved(Mem(w), move)
    ensures !move.Begin?
  {
    RecoverIsStay(w, key);
    var w1 := Recover(w, key);
    move := Stay;
    if RetryBody(w, key) != w && RetryBody(w, key) != w1 {
      move := RetryClaimMoves(w1, key);
    }
  }

  lemma RetryMoves(w: World, key: Key, v: Visit) returns (move: Move)
    ensures Allowed(Mem(w), move) && Mem(Retry(w, key, v)) == Moved(Mem(w), move)
    ensures !move.Begin?
  {
    move := Stay;
    if key in w.rows && !HasStatus(w, key, Delivered) && !(key.connector == Qq && HasStatus(w, key, Sending)) && v.allowed {
      if key.connector != Qq {
        move := RetryBodyMoves(w, key);
      } else {
        var taken := w.(gate := Tabled(w.gate, Q.Reserve(key.event, v.session, true, v.first)));
        GateIsStay(w, taken.gate);
        if Asked(w.gate, key.event, v.session, true, v.first).admitted {
          move := RetryBodyMoves(taken, key);
          var w1 := RetryBody(taken, key);
          GateIsStay(w1, Tabled(w1.gate, Q.Finish(key.event)));
          GateIsStay(w1, Held(w1.gate, w.nextOwner, key.event));
        }
      }
    }
  }

  lemma ScanMoves(w: World, key: Key, v: Visit) returns (move: Move)
    ensures Allowed(Mem(w), move) && Mem(ScanRow(w, key, v)) == Moved(Mem(w), move)
    ensures !move.Begin?
  {
    move := Stay;
    DoIsStay(w, RecoverStale(key));
    if !TaskActive(w, key) && VerdictOf(w, RecoverStale(key)) == Hit {
      move := RetryMoves(Do(w, RecoverStale(key)), key, v);
    }
  }

  lemma CallbackIsStay(w: World, id: Owner)
    ensures Mem(CallbackRuns(w, id)) == Mem(w)
  {
  }

  lemma RouteMoves(w: World, key: Key) returns (move: Move)
    requires MapsAgree(Mem(w))
    ensures Allowed(Mem(w), move) && Mem(CancelRequest(w, key)) == Moved(Mem(w), move)
    ensures !move.Begin?
  {
    RecoverIsStay(w, key);
    move := Stay;
    if TaskActive(w, key) {
      LogSnoc(w.log, CancelRefused(w.tasks[key], key));
      LogSnoc(w.log, CancelRequested(w.tasks[key], key));
      if w.phases[key] != SendingPhase { move := Ask(w.tasks[key]); }
    }
  }

  lemma EnterMoves(w: World, id: Owner) returns (move: Move)
    ensures Allowed(Mem(w), move) && Mem(Enter(w, id)) == Moved(Mem(w), move)
    ensures !move.Begin?
  {
    move := Stay;
    if id in w.workers && w.workers[id].pc == Queued && !w.workers[id].cancelRequested {
      DoIsStay(w, RecordPending(w.workers[id].key, id));
      move := Suspend(id, Turn, Enter(w, id).workers[id].pendingCreated);
    }
  }

  lemma TurnMoves(w: World, id: Owner, turn: TurnOutcome) returns (move: Move)
    ensures Allowed(Mem(w), move) && Mem(TurnDone(w, id, turn)) == Moved(Mem(w), move)
    ensures move.Begin? ==> turn.Replied? && id == move.id
  {
    move := Stay;
    if id in w.workers && w.workers[id].pc == Turn {
      if w.workers[id].isRetry {
        move := RetryTurnMoves(w, id, turn);
      } else if turn.TurnRaised? || !turn.replayed {
        move := WebhookTurnMoves(w, id, turn);
      } else {
        GateIsStay(w, RefundTurn(w, id).gate);
        move := WebhookTurnMoves(RefundTurn(w, id), id, turn);
      }
    }
  }

  lemma NotifyMoves(w: World, id: Owner) returns (move: Move)
    ensures Allowed(Mem(w), move) && Mem(NotifyDone(w, id)) == Moved(Mem(w), move)
    ensures !move.Begin?
  {
    move := Stay;
    if id in w.workers && w.workers[id].pc.Notify? {
      move := Suspend(id, Done(w.workers[id].pc.answer), w.workers[id].pendingCreated);
    }
  }

  lemma CancelDoneMoves(w: World, id: Owner) returns (move: Move)
    ensures Allowed(Mem(w), move) && Mem(CancelDone(w, id)) == Moved(Mem(w), move)
    ensures !move.Begin?
  {
    move := Stay;
    if id in w.workers && w.workers[id].pc.Done? && w.workers[id].cancelRequested {
      LogSnoc(w.log, CancelConfirmed(id, w.workers[id].key));
      move := Drop(id, w.workers[id].pc.answer != UnknownResponse);
    }
  }

  lemma CleanupMoves(w: World, id: Owner) returns (move: Move)
    ensures Allowed(Mem(w), move) && Mem(CleanedUp(w, id)) == Moved(Mem(w), move)
    ensures !move.Begin?
  {
    move := if id in w.workers && w.workers[id].pc.Done? && !w.workers[id].isRetry then Drop(id, false) else Stay;
  }

  /** Every action of the routes is one allowed move. */
  lemma StepMoves(w: World, a: Action) returns (move: Move)
    requires MapsAgree(Mem(w))
    ensures Allowed(Mem(w), move) && Mem(Step(w, a)) == Moved(Mem(w), move)
    ensures move.Begin? ==> a.TurnReturns? && a.turn.Replied? && a.id == move.id
  {
    hide Webhook, Enter, TurnDone, SendDone, NotifyDone, Cancelled, CancelRequest, CancelDone, CleanedUp, Retry;
    hide ScanRow, CallbackRuns, Recover, Do, Summarize;
    move := Stay;
    match a
    case WebhookArrives(key, visit, fastAck) => move := WebhookMoves(w, key, visit, fastAck);
    case WebhookEnters(id) => move := EnterMoves(w, id);
    case TurnReturns(id, turn) => move := TurnMoves(w, id, turn);
    case SendReturns(id, send) => move := SendReturnMoves(w, id, send);
    case NotifyReturns(id) => move := NotifyMoves(w, id);
    case CancelLands(id) => move := LandMoves(w, id);
    case CancelRoute(key) => move := RouteMoves(w, key);
    case CancelReturns(id) => move := CancelDoneMoves(w, id);
    case Cleanup(id) => move := CleanupMoves(w, id);
    case Callback(id) => CallbackIsStay(w, id);
    case RetryArrives(key, visit) => move := RetryMoves(w, key, visit);
    case Scan(key, visit) => move := ScanMoves(w, key, visit);
    case Listed(key) => RecoverIsStay(w, key);
    case ResolveRoute(key, delivered) => DoIsStay(w, Resolve(key, delivered));
    case Restart => move := Clear;
    case ClockMoves(_) =>
  }

  lemma SendReturnMoves(w: World, id: Owner, send: SendOutcome) returns (move: Move)
    ensures Allowed(Mem(w), move) && Mem(SendDone(w, id, send)) == Moved(Mem(w), move)
    ensures !move.Begin?
  {
    move := Stay;
    if id in w.workers && w.workers[id].pc == Send {
      move := SendMoves(w, id, send);
    }
  }

  lemma LandMoves(w: World, id: Owner) returns (move: Move)
    ensures Allowed(Mem(w), move) && Mem(Cancelled(w, id)) == Moved(Mem(w), move)
    ensures !move.Begin?
  {
    move := Stay;
    if Running(w, id) {
      move := CancelMoves(w, id);
    }
  }

  lemma {:induction false} EveryRunKeeps(limits: Q.Limits, actions: seq<Action>)
    ensures CancelInv(Mem(Run(limits, actions)))
  {
    if actions != [] {
      var before := Run(limits, actions[..|actions| - 1]);
      EveryRunKeeps(limits, actions[..|actions| - 1]);
      var move := StepMoves(before, actions[|actions| - 1]);
      MoveKeeps(Mem(before), move);
    }
  }

  // ---------------------------------------------------------------- results

  /** A cancel request for a worker whose send has started is refused, and nothing but the refusal is left behind. */
  lemma SendingIsRefused(w: World, key: Key)
    requires CancelInv(Mem(w)) && TaskActive(w, key) && w.workers[w.tasks[key]].sendStarted
    ensures CancelRequest(w, key) == w.(log := w.log + [CancelRefused(w.tasks[key], key)])
  {
    assert w.tasks[key] in Mem(w).workers;
  }

  /** The turn service lets a requested cancellation through, or reports a cancelled or unknown outcome. */
  predicate Polite(w: World, a: Action) {
    a.TurnReturns? && a.turn.Replied? && a.id in w.workers ==> !w.workers[a.id].cancelRequested
  }

  predicate PoliteRun(limits: Q.Limits, actions: seq<Action>) {
    forall n :: 0 <= n < |actions| ==> Polite(Run(limits, actions[..n]), actions[n])
  }

  lemma PolitePrefix(limits: Q.Limits, actions: seq<Action>)
    requires PoliteRun(limits, actions) && actions != []
    ensures PoliteRun(limits, actions[..|actions| - 1])
    ensures Polite(Run(limits, actions[..|actions| - 1]), actions[|actions| - 1])
  {
    hide Run, Polite;
    var n := |actions| - 1;
    forall m | 0 <= m < n ensures Polite(Run(limits, actions[..n][..m]), actions[..n][m]) {
      assert actions[..n][..m] == actions[..m];
    }
  }

  /** In every run with a polite turn service, no attempt whose cancellation was accepted starts a provider send. */
  lemma {:induction false} RequestedIsNeverSent(limits: Q.Limits, actions: seq<Action>)
    requires PoliteRun(limits, actions)
    ensures var m := Mem(Run(limits, actions)); m.history.requested !! m.history.sent
  {
    if actions != [] {
      hide Polite, Step, CancelInv, PoliteRun;
      var n := |actions| - 1;
      PolitePrefix(limits, actions);
      RequestedIsNeverSent(limits, actions[..n]);
      EveryRunKeeps(limits, actions[..n]);
      StepKeepsApart(Run(limits, actions[..n]), actions[n]);
    }
  }

  lemma StepKeepsApart(w: World, a: Action)
    requires CancelInv(Mem(w)) && Polite(w, a)
    requires Mem(w).history.requested !! Mem(w).history.sent
    ensures Mem(Step(w, a)).history.requested !! Mem(Step(w, a)).history.sent
  {
    hide Step, WorkersLogged;
    var move := StepMoves(w, a);
    PoliteMoveKeepsApart(Mem(w), move, a, w);
  }

  /**
   Main result. In every run with a polite turn service, no attempt that was answered "cancelled" ever starts a
   provider send, before or after the answer; and the three task maps always have the same keys.
   */
  lemma CancelledMeansNeverSent(limits: Q.Limits, actions: seq<Action>)
    requires PoliteRun(limits, actions)
    ensures var w := Run(limits, actions);
            && Summarize(w.log).requested !! Summarize(w.log).sent
            && Summarize(w.log).confirmed !! Summarize(w.log).sent
            && w.tasks.Keys == w.phases.Keys == w.eventIds.Keys
  {
    hide Run, PoliteRun;
    EveryRunKeeps(limits, actions);
    RequestedIsNeverSent(limits, actions);
    var m := Mem(Run(limits, actions));
    assert m.history.confirmed <= m.history.requested;
  }

  lemma PoliteMoveKeepsApart(m: Memory, move: Move, a: Action, w: World)
    requires m == Mem(w) && CancelInv(m) && Allowed(m, move) && Polite(w, a)
    requires move.Begin? ==> a.TurnReturns? && a.turn.Replied? && a.id == move.id
    requires m.history.requested !! m.history.sent
    ensures Moved(m, move).history.requested !! Moved(m, move).history.sent
  {
    MoveKeepsHistory(m, move);
  }

  /** In every run at all, an accepted cancellation and a send of one attempt come in that order. */
  lemma RequestComesFirst(limits: Q.Limits, actions: seq<Action>, i: nat, j: nat)
    requires var log := Run(limits, actions).log;
             i < |log| && j < |log| && log[i].SendStarted? && log[j].CancelRequested? && log[i].who == log[j].who
    ensures j < i
  {
    EveryRunKeeps(limits, actions);
    OrderedLog(Run(limits, actions).log, i, j);
  }

  lemma {:induction false} OrderedLog(log: seq<Event>, i: nat, j: nat)
    requires Summarize(log).ordered
    requires i < |log| && j < |log| && log[i].SendStarted? && log[j].CancelRequested? && log[i].who == log[j].who
    ensures j < i
  {
    var n := |log| - 1;
    if i < n && j < n {
      OrderedLog(log[..n], i, j);
    } else if j == n {
      SentIsRecorded(log[..n], i);
    }
  }

  lemma {:induction false} SentIsRecorded(log: seq<Event>, i: nat)
    requires i < |log| && log[i].SendStarted?
    ensures log[i].who in Summarize(log).sent
  {
    if i < |log| - 1 {
      SentIsRecorded(log[..|log| - 1], i);
    }
  }

  // ---------------------------------------------------------------- exactly where a requested attempt is sent

  /** A turn replies although its cancellation was requested, and the row can be claimed for the send. */
  predicate SendsRequested(w: World, a: Action) {
    && a.TurnReturns? && a.turn.Replied? && a.id in w.workers
    && w.workers[a.id].pc == Turn && w.workers[a.id].cancelRequested
    && !(a.turn.replayed && HasStatus(w, w.workers[a.id].key, Sending))
    && VerdictOf(w, ClaimDelivery(w.workers[a.id].key, a.id, a.turn.text)) == Claimed
  }

  lemma RequestedIsSent(w: World, id: Owner, text: string, replayed: bool)
    requires WorkersLogged(Mem(w)) && SendsRequested(w, TurnReturns(id, Replied(text, replayed)))
    ensures var m := Mem(TurnDone(w, id, Replied(text, replayed))); id in m.history.requested && id in m.history.sent
  {
    hide Apply;
    var key := w.workers[id].key;
    assert id in Mem(w).workers && !w.workers[id].isRetry && id in Mem(w).history.requested;
    var w1 := if replayed then RefundTurn(w, id) else w;
    var op := ClaimDelivery(key, id, text);
    DoIsStay(w1, op);
    LogSnoc(Do(w1, op).log, SendStarted(id, key));
  }

  /** Where the claim is not made or not granted, the turn ends without a send. */
  lemma UnclaimedIsNotSent(w: World, id: Owner, text: string, replayed: bool)
    requires id in w.workers && w.workers[id].cancelRequested && !w.workers[id].isRetry
    requires !SendsRequested(w, TurnReturns(id, Replied(text, replayed)))
    ensures var after := TurnDone(w, id, Replied(text, replayed));
            id in after.workers && (after.workers[id].pc == Send ==> w.workers[id].pc == Send)
  {
    hide Apply;
  }

  /** A step keeps requested and sent attempts apart if and only if it is not such a turn. */
  lemma StepKeepsApartIff(w: World, a: Action)
    requires CancelInv(Mem(w)) && Mem(w).history.requested !! Mem(w).history.sent
    ensures Mem(Step(w, a)).history.requested !! Mem(Step(w, a)).history.sent <==> !SendsRequested(w, a)
  {
    hide Step, MapsAgree;
    if SendsRequested(w, a) {
      assert Step(w, a) == TurnDone(w, a.id, a.turn) by { TurnStep(w, a); }
      RequestedIsSent(w, a.id, a.turn.text, a.turn.replayed);
    } else {
      var move := StepMoves(w, a);
      if move.Begin? && a.id in Mem(w).history.requested {
        assert a.id in Mem(w).workers && !w.workers[a.id].isRetry;
        TurnStep(w, a);
        UnclaimedIsNotSent(w, a.id, a.turn.text, a.turn.replayed);
        assert false;
      }
      OtherMoveKeepsApart(Mem(w), move);
    }
  }

  lemma TurnStep(w: World, a: Action)
    requires a.TurnReturns?
    ensures Step(w, a) == TurnDone(w, a.id, a.turn)
  {
  }

  lemma OtherMoveKeepsApart(m: Memory, move: Move)
    requires CancelInv(m) && Allowed(m, move) && m.history.requested !! m.history.sent
    requires move.Begin? ==> move.id !in m.history.requested
    ensures Moved(m, move).history.requested !! Moved(m, move).history.sent
  {
    MoveKeepsHistory(m, move);
  }

  // ---------------------------------------------------------------- why the hypotheses are needed

  lemma RunSnoc(limits: Q.Limits, actions: seq<Action>, a: Action)
    ensures Run(limits, actions + [a]) == Step(Run(limits, actions), a)
  {
    assert (actions + [a])[..|actions|] == actions;
  }

  const VISIT := Visit(true, "u", 0, 0, true, true)

  const OK_ANSWER := Mapping(false, IsTrue, Absent, None, false)

  function Begun(key: Key): seq<Action> {
    [WebhookArrives(key, VISIT, false), WebhookEnters(0)]
  }

  /** A limit that lets one event in. */
  predicate Roomy(limits: Q.Limits) {
    limits.ratePerMinute > 0 && limits.maxConcurrent > 0
  }

  lemma FirstIsAdmitted(key: Key, limits: Q.Limits)
    requires Roomy(limits)
    ensures Pass(Opened(limits, 0), key, VISIT, false, false).1.Some?
  {
    if key.connector == Qq {
      assert Q.OfSession(Q.Pruned(map[], 0), "u") == {};
    }
  }

  /** One attempt for `key`, up to the first await of its worker; the gate is left out. */
  lemma FirstWorker(limits: Q.Limits, key: Key)
    requires key.connector == Qq || key.connector == Telegram
    requires Roomy(limits)
    ensures var w := Run(limits, Begun(key));
            && w.rows == map[key := Row(Processing, 0, Some(0), Some(CLAIM_LEASE), None, None, None)]
            && w.workers == map[0 := Worker(key, false, Turn, true, "", false, false)]
            && w.tasks == map[key := 0] && w.phases == map[key := ProcessingPhase] && w.eventIds == map[key := key.event]
            && w.nextOwner == 1 && w.now == 0 && w.log == []
  {
    var arrive, enter := WebhookArrives(key, VISIT, false), WebhookEnters(0);
    RunSnoc(limits, [], arrive);
    RunSnoc(limits, [arrive], enter);
    assert [] + [arrive] == [arrive] && [arrive] + [enter] == Begun(key);
    FirstIsAdmitted(key, limits);
    FirstSpawn(limits, key);
    FirstEnter(Step(Start(limits), arrive), key);
  }

  lemma FirstSpawn(limits: Q.Limits, key: Key)
    requires key.connector == Qq || key.connector == Telegram
    requires Pass(Opened(limits, 0), key, VISIT, false, false).1.Some?
    ensures var w := Step(Start(limits), WebhookArrives(key, VISIT, false));
            w == World(map[], map[0 := Worker(key, false, Queued, false, "", false, false)],
                       map[key := 0], map[key := ProcessingPhase], map[key := key.event], 1, 0, [], w.gate)
  {
    hide Pass;
  }

  lemma FirstEnter(w: World, key: Key)
    requires w == World(map[], map[0 := Worker(key, false, Queued, false, "", false, false)],
                        map[key := 0], map[key := ProcessingPhase], map[key := key.event], 1, 0, [], w.gate)
    ensures Step(w, WebhookEnters(0))
         == World(map[key := Row(Processing, 0, Some(0), Some(CLAIM_LEASE), None, None, None)],
                  map[0 := Worker(key, false, Turn, true, "", false, false)],
                  map[key := 0], map[key := ProcessingPhase], map[key := key.event], 1, 0, [], w.gate)
  {
    assert Do(w, RecordPending(key, 0)).log == [];
  }

  /** A turn that replies after its cancellation was requested is sent all the same. */
  lemma ImpoliteTurnIsSent(limits: Q.Limits, key: Key)
    requires key.connector == Qq && Roomy(limits)
    ensures var w := Run(limits, Begun(key) + [CancelRoute(key)] + [TurnReturns(0, Replied("hi", false))]);
            && w.log == [CancelRequested(0, key), Acquired(0, key), SendStarted(0, key)]
            && w.workers == map[0 := Worker(key, false, Send, true, "hi", true, true)]
            && HasStatus(w, key, Sending) && w.rows[key].owner == Some(0)
  {
    hide Run, TurnDone, SendDone, CancelDone, CancelRequest, Retry, Webhook, Enter;
    FirstWorker(limits, key);
    var a2 := Begun(key);
    RunSnoc(limits, a2, CancelRoute(key));
    RunSnoc(limits, a2 + [CancelRoute(key)], TurnReturns(0, Replied("hi", false)));
    CancelAccepted(Run(limits, a2), key, 0);
    ReplyIsSent(Run(limits, a2 + [CancelRoute(key)]), 0, "hi");
  }

  lemma CancelAccepted(w: World, key: Key, id: Owner)
    requires TaskActive(w, key) && w.tasks[key] == id && key in w.phases && w.phases[key] == ProcessingPhase
    ensures CancelRequest(w, key) == w.(workers := w.workers[id := w.workers[id].(cancelRequested := true)],
                                        log := w.log + [CancelRequested(id, key)])
  {
  }

  /** A worker that owns its processing row claims it and sends, whether or not its cancellation was requested. */
  lemma ReplyIsSent(w: World, id: Owner, text: string)
    requires id in w.workers && w.workers[id].pc == Turn && !w.workers[id].isRetry
    requires var key := w.workers[id].key; HasStatus(w, key, Processing) && w.rows[key].owner == Some(id)
    ensures var worker := w.workers[id];
            var after := TurnDone(w, id, Replied(text, false));
            && after.workers == w.workers[id := worker.(pc := Send, reply := text, sendStarted := true)]
            && after.log == w.log + [Acquired(id, worker.key), SendStarted(id, worker.key)]
            && HasStatus(after, worker.key, Sending) && after.rows[worker.key].owner == Some(id)
  {
  }

  /** A successful send by the worker that holds the row is recorded. */
  lemma SuccessIsRecorded(w: World, id: Owner)
    requires id in w.workers && w.workers[id].pc == Send && w.workers[id].reply != ""
    requires var key := w.workers[id].key; HasStatus(w, key, Sending) && w.rows[key].owner == Some(id)
    ensures var after := SendDone(w, id, Answered(OK_ANSWER));
            && after.log == w.log + [SuccessRecorded(id, w.workers[id].key)]
            && id in after.workers
            && after.workers[id] == w.workers[id].(pc := Done(PlainResponse))
  {
  }

  lemma ConfirmationIsLogged(w: World, id: Owner)
    requires id in w.workers && w.workers[id].pc == Done(PlainResponse) && w.workers[id].cancelRequested
    ensures CancelDone(w, id).log == w.log + [CancelConfirmed(id, w.workers[id].key)]
  {
  }

  /** And once that send succeeds, the waiting cancel request is answered "cancelled". */
  lemma ImpoliteTurnIsConfirmed(limits: Q.Limits, key: Key)
    requires key.connector == Qq && Roomy(limits)
    ensures var actions := Begun(key) + [CancelRoute(key)] + [TurnReturns(0, Replied("hi", false))];
            Run(limits, actions + [SendReturns(0, Answered(OK_ANSWER))] + [CancelReturns(0)]).log
            == [CancelRequested(0, key), Acquired(0, key), SendStarted(0, key)]
               + [SuccessRecorded(0, key)] + [CancelConfirmed(0, key)]
  {
    hide Run, TurnDone, SendDone, CancelDone, CancelRequest, Retry, Webhook, Enter;
    var actions := Begun(key) + [CancelRoute(key)] + [TurnReturns(0, Replied("hi", false))];
    ImpoliteTurnIsSent(limits, key);
    var delivered := SendReturns(0, Answered(OK_ANSWER));
    RunSnoc(limits, actions, delivered);
    RunSnoc(limits, actions + [delivered], CancelReturns(0));
    SuccessIsRecorded(Run(limits, actions), 0);
    ConfirmationIsLogged(Run(limits, actions + [delivered]), 0);
  }

  /** The QQ fence is not offered to other connectors: their second send may start while the first is unknown. */
  lemma TelegramMayResendBlindly(limits: Q.Limits, key: Key)
    requires key.connector == Telegram && Roomy(limits)
    ensures Run(limits, Begun(key) + [TurnReturns(0, Replied("hi", false))]
                        + [ClockMoves(CLAIM_LEASE)] + [RetryArrives(key, VISIT)]).log
            == [Acquired(0, key), SendStarted(0, key), Acquired(1, key), SendStarted(1, key)]
  {
    hide Run, TurnDone, SendDone, CancelDone, CancelRequest, Retry, Webhook, Enter;
    FirstWorker(limits, key);
    var a2 := Begun(key);
    var a3 := a2 + [TurnReturns(0, Replied("hi", false))];
    var a4 := a3 + [ClockMoves(CLAIM_LEASE)];
    RunSnoc(limits, a2, TurnReturns(0, Replied("hi", false)));
    TelegramReplyIsSent(Run(limits, a2), key);
    RunSnoc(limits, a3, ClockMoves(CLAIM_LEASE));
    RunSnoc(limits, a4, RetryArrives(key, VISIT));
    ExpiredSendIsReclaimed(Run(limits, a4), key, "hi");
  }

  lemma TelegramReplyIsSent(w: World, key: Key)
    requires key.connector == Telegram
    requires w.rows == map[key := Row(Processing, 0, Some(0), Some(CLAIM_LEASE), None, None, None)]
    requires w.workers == map[0 := Worker(key, false, Turn, true, "", false, false)]
    requires w.nextOwner == 1 && w.now == 0 && w.log == []
    ensures var after := TurnDone(w, 0, Replied("hi", false));
            && after.log == [Acquired(0, key), SendStarted(0, key)] && after.nextOwner == 1
            && after.rows == map[key := Row(Sending, 1, Some(0), Some(CLAIM_LEASE), None, None, Some("hi"))]
  {
    hide Finish;
    var op := ClaimDelivery(key, 0, "hi");
    assert VerdictOf(w, op) == Claimed;
    assert TurnDone(w, 0, Replied("hi", false)) == StartSend(Do(w, op), 0, "hi");
  }

  /** Other connectors hand a send whose lease has run out to the next claimant, whatever became of it. */
  lemma ExpiredSendIsReclaimed(w: World, key: Key, text: string)
    requires key.connector == Telegram && w.now == CLAIM_LEASE && text != ""
    requires w.rows == map[key := Row(Sending, 1, Some(0), Some(CLAIM_LEASE), None, None, Some(text))]
    requires w.nextOwner == 1
    ensures Retry(w, key, VISIT).log == w.log + [Acquired(1, key), SendStarted(1, key)]
  {
  }
}
