/**
 The router object: the shared dictionaries and the code that runs between two awaits of its handlers and workers.
 Each method is one action of the state machine, tied to it in full; `Perform` keeps what the theorems need.
 */
module ConnectorRouter {
  import opened Wrappers
  import opened TurnStore
  import opened ConnectorDelivery
  import opened ConnectorGate
  import C = ConnectorCancel
  import Q = QqAdmission
  import R = ConnectorReservation
  import S = ConnectorSafety

  class Router {
    const store: TurnCommitStore
    const admission: Q.Admission
    var workers: map<Owner, Worker>  // the locals of the coroutines
    var activeTasks: map<Key, Owner>
    var activePhases: map<Key, Phase>
    var activeEventIds: map<Key, string>
    var nextOwner: Owner
    var now: int
    var callbacks: map<Owner, string>  // the done callbacks the event loop still has to run
    var rateReserved: set<Owner>  // the tasks whose closure holds a rate entry
    ghost var holders: map<Owner, string>
    ghost var log: seq<Event>

    ghost function GateView(): Gate
      reads this, admission
    {
      Gate(admission.View(), admission.limits, holders, callbacks, rateReserved)
    }

    ghost function View(): World
      reads this, store, admission
    {
      World(store.rows, workers, activeTasks, activePhases, activeEventIds, nextOwner, now, log, GateView())
    }

    /** What holds after every run: nothing is sent twice blindly, the maps agree, no reservation has leaked. */
    ghost predicate Valid()
      reads this, store, admission
    {
      Invariant(View())
    }

    constructor (store: TurnCommitStore, admission: Q.Admission)
      requires store.rows == map[] && admission.View() == Q.State(map[], {}, [], 0)
      ensures this.store == store && this.admission == admission && View() == Start(admission.limits) && Valid()
    {
      this.store, this.admission := store, admission;
      workers, activeTasks, activePhases, activeEventIds := map[], map[], map[], map[];
      nextOwner, now, log, holders, callbacks, rateReserved := 0, 0, [], map[], map[], {};
      new;
      assert View() == Run(admission.limits, []);
      S.EveryRunKeeps(admission.limits, []);
      C.EveryRunKeeps(admission.limits, []);
      R.RunIsHeld(admission.limits, []);
    }

    method IsActive(key: Key) returns (active: bool)
      ensures active == TaskActive(View(), key)
    {
      active := key in activeTasks && activeTasks[key] in workers && !workers[activeTasks[key]].pc.Done?;
    }

    method RecoverRow(key: Key)
      modifies store
      ensures View() == Recover(old(View()), key)
    {
      if key in store.rows && store.rows[key].status == Processing {
        var _ := store.RecoverStaleConnectorTurn(key, now);
      }
      assert log + [] == log;
    }

    /** The `finally` of an attempt. */
    method Leave(key: Key, id: Owner)
      modifies this`holders, admission
      ensures GateView() == Left(old(GateView()), key, id)
    {
      if key.connector == Qq {
        admission.Release(key.event);
        holders := holders - {id};
      }
    }

    method End(id: Owner, answer: Answer, notice: Notice)
      requires id in workers
      modifies this`workers, this`holders, admission
      ensures View() == Finish(old(View()), id, answer, notice)
    {
      hide Left;
      var worker := workers[id];
      var discord := notice != NoNotice && !worker.isRetry && worker.key.connector == Discord;
      workers := workers[id := worker.(pc := if discord then Notify(answer, notice.InTry?) else Done(answer))];
      if worker.isRetry || worker.pc != Queued {
        Leave(worker.key, id);
      }
    }

    method CallProvider(id: Owner, reply: string)
      requires id in workers
      modifies this`workers, this`activePhases, this`log
      ensures View() == StartSend(old(View()), id, reply)
    {
      var worker := workers[id];
      if !worker.isRetry {
        activePhases := activePhases[worker.key := SendingPhase];
      }
      workers := workers[id := worker.(pc := Send, reply := reply, sendStarted := true)];
      log := log + [SendStarted(id, worker.key)];
    }

    /** The admission of a webhook and its reservation, up to the early record. */
    method Admit(key: Key, v: Visit, replay: bool, early: bool) returns (pass: Option<Q.Decision>)
      modifies admission
      ensures (GateView(), pass) == Pass(old(GateView()), key, v, replay, early)
    {
      var admitted, counted := true, false;
      if key.connector == Qq {
        admitted, counted := admission.AdmitQq(key.event, v.session, replay, false, v.first);
      }
      if !admitted || !v.ready {
        return None;
      }
      if key.connector == Qq {
        admitted, counted := admission.AdmitQq(key.event, v.session, replay, true, v.second);
      } else {
        counted := false;
      }
      if early && !v.stored {
        if key.connector == Qq {
          admission.Release(key.event);
          if counted {
            admission.Refund(key.event);
          }
        }
        return None;
      }
      return Some(Q.Decision(admitted, counted));
    }

    /** The done callback of a QQ task, and what its closure knows of the admission. */
    method Attach(key: Key, id: Owner, answer: Q.Decision)
      modifies this`holders, this`callbacks, this`rateReserved
      ensures GateView() == Launched(old(GateView()), key, id, answer)
    {
      if key.connector == Qq {
        callbacks := callbacks[id := key.event];
        if answer.counted {
          rateReserved := rateReserved + {id};
        }
        if answer.admitted {
          holders := holders[id := key.event];
        }
      }
    }

    /** The early record of an event, where the provider is answered before the turn. */
    method RecordEarly(key: Key, early: bool) returns (created: bool)
      modifies store
      ensures View() == if early then Do(old(View()), RecordPending(key, nextOwner)) else old(View())
      ensures created <==> early && VerdictOf(old(View()), RecordPending(key, nextOwner)) == Hit
    {
      created := false;
      if early {
        created := store.RecordConnectorTurnPending(key, nextOwner, now);
      }
      assert log + [] == log;
    }

    /** Makes the task of an event, with its callback. */
    method StartTask(key: Key, early: bool, answer: Q.Decision)
      modifies this, store
      ensures View() == MakeTask(old(View()), key, early, answer)
    {
      hide Launched, Apply, Recorded;
      var created := RecordEarly(key, early);
      activePhases := activePhases[key := ProcessingPhase];
      activeEventIds := activeEventIds[key := key.event];
      workers := workers[nextOwner := Worker(key, false, Queued, created, "", false, false)];
      Attach(key, nextOwner, answer);
      activeTasks := activeTasks[key := nextOwner];
      nextOwner := nextOwner + 1;
    }

    /** receive_connector_webhook, from the parsed message to the created task. */
    method ReceiveConnectorWebhook(key: Key, v: Visit, fastAck: bool)
      modifies this, store, admission
      ensures View() == Webhook(old(View()), key, v, fastAck)
    {
      if !v.allowed {
        return;
      }
      var active := IsActive(key);
      if active {
        return;
      }
      RecoverRow(key);
      if key in store.rows {
        var row := store.rows[key];
        if row.status == Processing || row.status == Delivered || row.status == Sending {
          return;
        }
        if row.status == Failed && (row.reply.None? || row.reply.value == "") {
          return;
        }
      }
      var early := fastAck || key.connector == Discord;
      var pass := Admit(key, v, key in store.rows, early);
      if pass.Some? {
        StartTask(key, early, pass.value);
      }
    }

    /** _run_connector up to the turn. */
    method RunConnector(id: Owner)
      requires id in workers && workers[id].pc == Queued && !workers[id].cancelRequested
      modifies this`workers, store
      ensures View() == Enter(old(View()), id)
    {
      var worker := workers[id];
      if !worker.pendingCreated {
        var created := store.RecordConnectorTurnPending(worker.key, id, now);
        worker := worker.(pendingCreated := created);
      }
      workers := workers[id := worker.(pc := Turn)];
      assert log + [] == log;
    }

    /** _run_connector from the end of the turn to the provider call. */
    method TurnFinished(id: Owner, turn: TurnOutcome)
      requires id in workers && workers[id].pc == Turn && !workers[id].isRetry
      modifies this, store, admission
      ensures View() == TurnDone(old(View()), id, turn)
    {
      assert log + [] == log;
      var worker := workers[id];
      var key := worker.key;
      if !turn.TurnRaised? && turn.replayed && id in rateReserved {
        admission.Refund(key.event);
      }
      match turn
      case TurnCancelled(_) =>
        if worker.pendingCreated {
          var _ := store.DiscardConnectorTurnPending(key, id, now);
        }
        End(id, PlainResponse, InTry);
      case UnknownEffect(_) =>
        if worker.pendingCreated {
          var _ := store.DiscardConnectorTurnPending(key, id, now);
        }
        End(id, UnknownResponse, InTry);
      case TurnRaised =>
        var _ := store.MarkConnectorTurnFailed(key, id, TurnFailed, now);
        End(id, PlainResponse, InHandler);
      case Replied(text, replayed) => SendAfterTurn(id, text, replayed);
    }

    /** The claim of the row for a finished turn, and the provider call it allows. */
    method SendAfterTurn(id: Owner, text: string, replayed: bool)
      requires id in workers && workers[id].pc == Turn && !workers[id].isRetry
      modifies this, store, admission
      ensures View() == WebhookTurn(old(View()), id, Replied(text, replayed))
    {
      assert log + [] == log;
      var key := workers[id].key;
      if replayed && key in store.rows && store.rows[key].status == Sending {
        End(id, UnknownResponse, NoNotice);
        return;
      }
      var verdict := store.ClaimConnectorDelivery(key, id, text, now);
      log := log + Recorded(ClaimDelivery(key, id, text), verdict);
      if verdict == Claimed {
        CallProvider(id, text);
      } else if verdict == Unknown {
        End(id, UnknownResponse, NoNotice);
      } else {
        End(id, PlainResponse, NoNotice);
      }
    }

    /** _retry_connector_delivery from the end of a regenerated turn to the provider call. */
    method RetryTurnFinished(id: Owner, turn: TurnOutcome)
      requires id in workers && workers[id].pc == Turn && workers[id].isRetry
      modifies this, store, admission
      ensures View() == TurnDone(old(View()), id, turn)
    {
      assert log + [] == log;
      var key := workers[id].key;
      var reason := TurnException;
      match turn {
        case TurnCancelled(_) => reason := EventCancelled;
        case UnknownEffect(_) => reason := EventStateUnknown;
        case TurnRaised =>
        case Replied(text, _) =>
          if text != "" {
            var promoted := store.PromoteConnectorTurnRetry(key, id, text, now);
            if promoted {
              log := log + [Acquired(id, key)];
              CallProvider(id, text);
              return;
            }
          }
      }
      var _ := store.ReleaseConnectorTurnRetry(key, id, reason, now);
      End(id, PlainResponse, NoNotice);
    }

    /** Records a failed send with the answer it had. */
    method RecordFailure(id: Owner, reason: Reason, ghost answer: Option<ProviderAnswer>)
      requires id in workers
      modifies this`log, store
      ensures View() == Fail(old(View()), id, reason, answer)
    {
      var key := workers[id].key;
      var hit := store.MarkConnectorDeliveryFailed(key, id, reason, now);
      if hit {
        log := log + [FailureRecorded(id, key, reason, answer)];
      }
    }

    /** Either worker, after the provider call. */
    method ProviderAnswered(id: Owner, send: SendOutcome)
      requires id in workers && workers[id].pc == Send
      modifies this, store, admission
      ensures View() == SendDone(old(View()), id, send)
    {
      hide Finish, Apply;
      var worker := workers[id];
      var key := worker.key;
      var said := Said(worker.reply, send);
      if said.SendRaised? {
        if key.connector == Qq {
          End(id, UnknownResponse, NoNotice);
          return;
        }
        RecordFailure(id, ProviderException, None);
        End(id, PlainResponse, InHandler);
        return;
      }
      if OutcomeUnknown(said.answer) {
        End(id, UnknownResponse, NoNotice);
        return;
      }
      var ok := DeliverySucceeded(said.answer);
      var reason := FailureReason(said.answer);
      if !worker.isRetry && worker.reply == "" {
        ok, reason := false, EmptyReply;
      }
      if !ok {
        RecordFailure(id, reason, Some(said.answer));
        End(id, PlainResponse, InTry);
        return;
      }
      var committed := store.MarkConnectorDeliverySent(key, id, now);
      log := log + Recorded(MarkSent(key, id), if committed then Hit else Miss);
      if committed {
        End(id, PlainResponse, NoNotice);
      } else {
        End(id, UnknownResponse, NoNotice);
      }
    }

    /** The handlers of asyncio.CancelledError in both workers. */
    method CancellationRaised(id: Owner)
      requires id in workers && !workers[id].pc.Done?
      modifies this, store, admission
      ensures View() == Cancelled(old(View()), id)
    {
      assert log + [] == log;
      var worker := workers[id];
      var key := worker.key;
      if worker.pc == Turn {
        if worker.isRetry {
          var _ := store.ReleaseConnectorTurnRetry(key, id, RetryCancelled, now);
        } else if worker.pendingCreated {
          var _ := store.DiscardConnectorTurnPending(key, id, now);
        }
        End(id, WasCancelled, InHandler);
      } else if worker.pc == Send {
        if worker.isRetry && key.connector != Qq {
          RecordFailure(id, RetryCancelled, None);
        }
        End(id, WasCancelled, InHandler);
      } else if worker.pc.Notify? && worker.pc.inTry {
        if !worker.sendStarted && worker.pendingCreated {
          var _ := store.DiscardConnectorTurnPending(key, id, now);
        }
        End(id, WasCancelled, InHandler);
      } else {
        End(id, WasCancelled, NoNotice);
      }
    }

    /** cancel_connector_event, up to the await of the cancelled task. */
    method CancelConnectorEvent(key: Key)
      modifies this, store
      ensures View() == CancelRequest(old(View()), key)
    {
      var active := IsActive(key);
      if !active {
        RecoverRow(key);
        return;
      }
      var id := activeTasks[key];
      if key in activePhases && activePhases[key] == SendingPhase {
        log := log + [CancelRefused(id, key)];
        return;
      }
      workers := workers[id := workers[id].(cancelRequested := true)];
      log := log + [CancelRequested(id, key)];
    }

    /** The done callback, and the `finally` of the cancel route. */
    method ForgetTask(id: Owner)
      requires id in workers
      modifies this
      ensures View() == Forget(old(View()), id)
    {
      var key := workers[id].key;
      if key in activeTasks && activeTasks[key] == id {
        activeTasks := activeTasks - {key};
        activePhases := activePhases - {key};
        activeEventIds := activeEventIds - {key};
      }
    }

    /** cancel_connector_event, after the task ended. */
    method CancelAnswered(id: Owner) returns (cancelled: bool)
      requires id in workers && workers[id].pc.Done? && workers[id].cancelRequested
      modifies this
      ensures View() == CancelDone(old(View()), id)
      ensures cancelled <==> old(workers[id].pc.answer) != UnknownResponse
    {
      ForgetTask(id);
      cancelled := workers[id].pc.answer != UnknownResponse;
      if cancelled {
        log := log + [CancelConfirmed(id, workers[id].key)];
      }
    }

    /** retry_connector_delivery, with the reservation that its `finally` gives back. */
    method RetryConnectorDelivery(key: Key, v: Visit)
      modifies this, store, admission
      ensures View() == Retry(old(View()), key, v)
    {
      if key !in store.rows || store.rows[key].status == Delivered || !v.allowed {
        return;
      }
      if key.connector != Qq {
        RetryRow(key);
        return;
      }
      if store.rows[key].status == Sending {
        return;
      }
      var admitted, _ := admission.AdmitQq(key.event, v.session, true, true, v.first);
      if admitted {
        var id := nextOwner;
        RetryRow(key);
        if nextOwner == id {
          admission.Release(key.event);
        } else {
          holders := holders[id := key.event];
        }
      }
    }

    /** The checks of _retry_connector_delivery. */
    method RetryRow(key: Key)
      requires key in store.rows
      modifies this`workers, this`activePhases, this`log, this`nextOwner, store
      ensures View() == RetryBody(old(View()), key)
    {
      var active := IsActive(key);
      if store.rows[key].status == Delivered || (store.rows[key].status == Processing && active) {
        return;
      }
      RecoverRow(key);
      if store.rows[key].status != Processing {
        ClaimRetry(key);
      }
    }

    /** _retry_connector_delivery from its claim to its first await. */
    method ClaimRetry(key: Key)
      requires key in store.rows
      modifies this`workers, this`activePhases, this`log, this`nextOwner, store
      ensures View() == RetryClaim(old(View()), key)
    {
      hide Apply, Recorded;
      var row := store.rows[key];
      var blank := row.reply.None? || row.reply.value == "";
      var again := blank && (row.lastError == Some(TurnFailed) || row.lastError == Some(TurnException)
                             || row.lastError == Some(TurnInterrupted));
      if blank && !again {
        return;
      }
      var id := nextOwner;
      var verdict := ClaimAgain(key, row, again);
      if verdict == Claimed {
        nextOwner := nextOwner + 1;
        workers := workers[id := Worker(key, true, Turn, false, "", false, false)];
        ghost var op := if again then ClaimTurnRetry(key, id) else ClaimDelivery(key, id, row.reply.GetOr(""));
        assert View() == Do(old(View()), op).(nextOwner := id + 1, workers := workers);
        if !again {
          CallProvider(id, row.reply.value);
        }
      }
    }

    /** The claim of a turn, or of a delivery, by the next owner. */
    method ClaimAgain(key: Key, row: Row, again: bool) returns (verdict: Verdict)
      requires again || row.reply.Some?
      modifies this`log, store
      ensures var op := if again then ClaimTurnRetry(key, nextOwner) else ClaimDelivery(key, nextOwner, row.reply.GetOr(""));
              verdict == VerdictOf(old(View()), op) && View() == Do(old(View()), op)
      ensures verdict != Claimed ==> View() == old(View())
    {
      assert log + [] == log;
      if again {
        verdict := store.ClaimConnectorTurnRetry(key, nextOwner, now);
      } else {
        verdict := store.ClaimConnectorDelivery(key, nextOwner, row.reply.value, now);
        log := log + Recorded(ClaimDelivery(key, nextOwner, row.reply.value), verdict);
      }
    }

    /** resolve_connector_event. */
    method ResolveConnectorEvent(key: Key, delivered: bool)
      modifies this`log, store
      ensures View() == Resolution(old(View()), key, delivered)
    {
      var active := IsActive(key);
      if active {
        return;
      }
      var hit := store.ResolveConnectorDelivery(key, delivered, now);
      log := log + Recorded(Resolve(key, delivered), if hit then Hit else Miss);
    }

    /** One row of a recovery scan: a row that it recovers is retried at once. */
    method ScanProcessingRow(key: Key, v: Visit)
      modifies this, store, admission
      ensures View() == ScanRow(old(View()), key, v)
    {
      var active := IsActive(key);
      if !active {
        var recovered := store.RecoverStaleConnectorTurn(key, now);
        assert log + [] == log;
        if recovered {
          RetryConnectorDelivery(key, v);
        }
      }
    }

    /** One row of a listing. */
    method ListRow(key: Key)
      modifies store
      ensures View() == Step(old(View()), Listed(key))
    {
      var active := IsActive(key);
      if !active {
        RecoverRow(key);
      }
    }

    /** The done callback of a QQ task. */
    method RunCallback(id: Owner)
      requires id in callbacks && (id in workers ==> workers[id].pc.Done?)
      modifies this, admission
      ensures View() == CallbackRuns(old(View()), id)
    {
      admission.Release(callbacks[id]);
      callbacks := callbacks - {id};
      holders := holders - {id};
    }

    // -------------------------------------------------------------- one action

    /** An action of a worker, if it stands where the action takes place. */
    method PerformWorker(a: Action)
      requires a.TurnReturns? || a.SendReturns? || a.NotifyReturns? || a.CancelLands? || a.WebhookEnters?
      modifies this, store, admission
      ensures View() == Step(old(View()), a)
    {
      if a.id !in workers {
        return;
      }
      var worker := workers[a.id];
      match a
      case WebhookEnters(id) =>
        if worker.pc == Queued && !worker.cancelRequested { RunConnector(id); }
      case TurnReturns(id, turn) =>
        if worker.pc == Turn {
          if worker.isRetry { RetryTurnFinished(id, turn); } else { TurnFinished(id, turn); }
        }
      case SendReturns(id, send) =>
        if worker.pc == Send { ProviderAnswered(id, send); }
      case NotifyReturns(id) =>
        if worker.pc.Notify? { workers := workers[id := worker.(pc := Done(worker.pc.answer))]; }
      case CancelLands(id) =>
        if !worker.pc.Done? { CancellationRaised(id); }
    }

    /** What follows the end of a task. */
    method PerformAfterwards(a: Action)
      requires a.CancelReturns? || a.Cleanup? || a.Callback?
      modifies this, admission
      ensures View() == Step(old(View()), a)
    {
      match a
      case CancelReturns(id) =>
        if id in workers && workers[id].pc.Done? && workers[id].cancelRequested { var _ := CancelAnswered(id); }
      case Cleanup(id) =>
        if id in workers && workers[id].pc.Done? && !workers[id].isRetry { ForgetTask(id); }
      case Callback(id) =>
        if id in callbacks && (id in workers ==> workers[id].pc.Done?) { RunCallback(id); }
    }

    /** A new process has the table, and none of the dictionaries. */
    method Reset()
      modifies this, admission
      ensures View() == Restarted(old(View()))
    {
      hide Opened;
      workers, activeTasks, activePhases, activeEventIds := map[], map[], map[], map[];
      EmptyGate();
    }

    method EmptyGate()
      modifies this`holders, this`callbacks, this`rateReserved, admission
      ensures GateView() == Opened(admission.limits, old(GateView()).tables.last)
    {
      callbacks, rateReserved, holders := map[], {}, map[];
      admission.Clear();
    }

    method PerformAny(a: Action)
      modifies this, store, admission
      ensures View() == Step(old(View()), a)
    {
      match a
      case WebhookArrives(key, visit, fastAck) => ReceiveConnectorWebhook(key, visit, fastAck);
      case CancelRoute(key) => CancelConnectorEvent(key);
      case RetryArrives(key, visit) => RetryConnectorDelivery(key, visit);
      case Scan(key, visit) => ScanProcessingRow(key, visit);
      case Listed(key) => ListRow(key);
      case ResolveRoute(key, delivered) => ResolveConnectorEvent(key, delivered);
      case Restart => Reset();
      case ClockMoves(to) => now := to;
      case CancelReturns(_) => PerformAfterwards(a);
      case Cleanup(_) => PerformAfterwards(a);
      case Callback(_) => PerformAfterwards(a);
      case _ => PerformWorker(a);
    }

    /** Any action of the routes keeps what holds after every run. */
    method Perform(a: Action)
      requires Valid()
      modifies this, store, admission
      ensures Valid() && View() == Step(old(View()), a)
    {
      ghost var before := View();
      PerformAny(a);
      ValidStays(before, a);
    }
  }

  ghost predicate Invariant(w: World) {
    S.Inv(w) && C.CancelInv(C.Mem(w)) && R.Held(w)
  }

  lemma ValidStays(w: World, a: Action)
    requires Invariant(w)
    ensures Invariant(Step(w, a))
  {
    hide Step, S.Inv, C.CancelInv, R.Held, R.Makes;
    S.MapsMakeDistinct(w);
    S.StepKeepsSafe(w, a);
    HeldIsUnused(w);
    MapsAreKept(w);
    var move := C.StepMoves(w, a);
    C.MoveKeeps(C.Mem(w), move);
    var m := R.StepMakes(w, a);
    HeldMoves(w, Step(w, a), m);
  }

  lemma MapsAreKept(w: World)
    requires C.CancelInv(C.Mem(w))
    ensures C.MapsAgree(C.Mem(w))
  {
  }

  lemma HeldIsUnused(w: World)
    requires R.Held(w) && C.CancelInv(C.Mem(w))
    ensures R.Unused(w)
  {
    assert w.nextOwner in C.Mem(w).workers <==> w.nextOwner in w.workers;
    forall id | id in w.gate.holders ensures id in w.workers { assert R.HolderFits(w, id); }
  }

  lemma HeldMoves(w: World, after: World, m: R.Move)
    requires R.Held(w) && R.Makes(w, after, m)
    ensures R.Held(after)
  {
    R.MoveKeepsHeld(w, after, m);
  }
}
