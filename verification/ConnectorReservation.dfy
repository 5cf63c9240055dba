/**
 QQ reservations over every run of the connector routes: every reserved event belongs to an attempt that is running or
 whose done callback is still to come, and how many attempts can run at once.
 */
module ConnectorReservation {
  import opened Wrappers
  import opened TurnStore
  import opened ConnectorDelivery
  import opened ConnectorGate
  import C = ConnectorCancel
  import Q = QqAdmission

  // ---------------------------------------------------------------- the abstract moves of the gate

  datatype Slots = Slots(inflight: set<string>, holders: map<Owner, string>, callbacks: map<Owner, string>)

  function SlotsOf(g: Gate): Slots {
    Slots(g.tables.inflight, g.holders, g.callbacks)
  }

  /** A webhook task is made, with or without a reservation; a retry takes one; an attempt ends; a callback runs. */
  datatype Move =
    | Stay
    | Launch(id: Owner, event: string, taken: bool)
    | Take(id: Owner, event: string)
    | Leave(id: Owner, event: string)
    | Call(id: Owner)
    | Clear

  predicate Possible(s: Slots, m: Move) {
    match m
    case Launch(id, event, taken) => id !in s.holders && event !in s.inflight
    case Take(id, event) => id !in s.holders && event !in s.inflight
    case Call(id) => id in s.callbacks
    case _ => true
  }

  function Moved(s: Slots, m: Move): Slots
    requires Possible(s, m)
  {
    match m
    case Stay => s
    case Launch(id, event, taken) =>
      Slots(if taken then s.inflight + {event} else s.inflight, if taken then s.holders[id := event] else s.holders,
            s.callbacks[id := event])
    case Take(id, event) => s.(inflight := s.inflight + {event}, holders := s.holders[id := event])
    case Leave(id, event) => s.(inflight := s.inflight - {event}, holders := s.holders - {id})
    case Call(id) => Slots(s.inflight - {s.callbacks[id]}, s.holders - {id}, s.callbacks - {id})
    case Clear => Slots({}, map[], map[])
  }

  /** What a move says about the workers. */
  ghost predicate Matches(w: World, after: World, m: Move) {
    && (m.Clear? ==> after.workers == map[])
    && (!m.Clear? ==>
          forall id {:trigger id in w.workers} :: id in w.workers ==> Continues(w, after, id, m))
    && (forall id {:trigger id in after.workers} :: id in after.workers && id !in w.workers ==> Appears(after, id, m))
    && (m.Launch? || m.Take? ==>
          m.id !in w.workers && m.id in after.workers && after.workers[m.id].key == Key(Qq, m.event))
    && (m.Launch? ==> !after.workers[m.id].isRetry)
    && (m.Leave? ==> m.id in w.workers && w.workers[m.id].key == Key(Qq, m.event) && !Running(after, m.id))
    && (m.Call? ==> !Running(w, m.id))
  }

  predicate Continues(w: World, after: World, id: Owner, m: Move)
    requires id in w.workers
  {
    && id in after.workers
    && after.workers[id].key == w.workers[id].key && after.workers[id].isRetry == w.workers[id].isRetry
    && (Running(after, id) ==> Running(w, id))
    && (after.workers[id].pc.Notify? && after.workers[id].key.connector == Qq ==> w.workers[id].pc.Notify?)
    && (w.workers[id].isRetry && w.workers[id].key.connector == Qq && Running(w, id) && !Running(after, id) ==>
          m == Leave(id, w.workers[id].key.event))
  }

  predicate Appears(after: World, id: Owner, m: Move)
    requires id in after.workers
  {
    var worker := after.workers[id];
    worker.key.connector == Qq ==>
      && !worker.pc.Notify?
      && if worker.isRetry then m == Take(id, worker.key.event) && Running(after, id)
      else m.Launch? && m.id == id && m.event == worker.key.event
  }

  // ---------------------------------------------------------------- nothing leaks

  /** A holder runs, or its callback is still to come and will release the event. */
  predicate HolderFits(w: World, id: Owner)
    requires id in w.gate.holders
  {
    id in w.workers && w.workers[id].key == Key(Qq, w.gate.holders[id]) && (Running(w, id) || id in w.gate.callbacks)
  }

  predicate CallbackFits(w: World, id: Owner)
    requires id in w.gate.callbacks
  {
    id in w.workers && !w.workers[id].isRetry && w.workers[id].key == Key(Qq, w.gate.callbacks[id])
  }

  /** A running QQ task will be followed by its callback, and does not stop for a notification. */
  predicate TaskFits(w: World, id: Owner) {
    Running(w, id) && w.workers[id].key.connector == Qq ==>
      !w.workers[id].pc.Notify? && (w.workers[id].isRetry || id in w.gate.callbacks)
  }

  /** Every reserved event has a holder, and holders, callbacks and tasks belong together. */
  ghost predicate Held(w: World) {
    && w.gate.tables.inflight <= w.gate.holders.Values
    && (forall id {:trigger id in w.gate.holders} :: id in w.gate.holders ==> HolderFits(w, id))
    && (forall id {:trigger id in w.gate.callbacks} :: id in w.gate.callbacks ==> CallbackFits(w, id))
    && (forall id {:trigger id in w.workers} :: id in w.workers ==> TaskFits(w, id))
  }

  lemma ReservedStaysHeld(s: Slots, m: Move)
    requires Possible(s, m) && s.inflight <= s.holders.Values
    requires m.Leave? && m.id in s.holders ==> s.holders[m.id] == m.event
    requires m.Call? && m.id in s.holders ==> s.holders[m.id] == s.callbacks[m.id]
    ensures Moved(s, m).inflight <= Moved(s, m).holders.Values
  {
    var after := Moved(s, m);
    forall event | event in after.inflight ensures event in after.holders.Values {
      if event in s.inflight {
        var id :| id in s.holders && s.holders[id] == event;
        assert id in after.holders && after.holders[id] == event;
      } else {
        assert m.id in after.holders && after.holders[m.id] == event;
      }
    }
  }

  lemma MoveKeepsHeld(w: World, after: World, m: Move)
    requires Held(w) && Matches(w, after, m)
    requires Possible(SlotsOf(w.gate), m) && SlotsOf(after.gate) == Moved(SlotsOf(w.gate), m)
    ensures Held(after)
  {
    if !m.Clear? {
      assert (m.Leave? || m.Call?) && m.id in w.gate.holders ==> HolderFits(w, m.id);
      assert m.Call? ==> CallbackFits(w, m.id);
      ReservedStaysHeld(SlotsOf(w.gate), m);
      forall id | id in after.gate.holders ensures HolderFits(after, id) { HolderStays(w, after, m, id); }
      forall id | id in after.gate.callbacks ensures CallbackFits(after, id) { CallbackStays(w, after, m, id); }
      forall id | id in after.workers ensures TaskFits(after, id) { TaskStays(w, after, m, id); }
    }
  }

  lemma HolderStays(w: World, after: World, m: Move, id: Owner)
    requires Held(w) && Matches(w, after, m) && !m.Clear?
    requires Possible(SlotsOf(w.gate), m) && SlotsOf(after.gate) == Moved(SlotsOf(w.gate), m)
    requires id in after.gate.holders
    ensures HolderFits(after, id)
  {
    if id in w.gate.holders {
      assert HolderFits(w, id) && TaskFits(w, id) && Continues(w, after, id, m);
    } else {
      assert Appears(after, id, m);
    }
  }

  lemma CallbackStays(w: World, after: World, m: Move, id: Owner)
    requires Held(w) && Matches(w, after, m) && !m.Clear?
    requires Possible(SlotsOf(w.gate), m) && SlotsOf(after.gate) == Moved(SlotsOf(w.gate), m)
    requires id in after.gate.callbacks
    ensures CallbackFits(after, id)
  {
    if id in w.gate.callbacks && !(m.Launch? && m.id == id) {
      assert CallbackFits(w, id) && Continues(w, after, id, m);
    }
  }

  lemma TaskStays(w: World, after: World, m: Move, id: Owner)
    requires Held(w) && Matches(w, after, m) && !m.Clear?
    requires Possible(SlotsOf(w.gate), m) && SlotsOf(after.gate) == Moved(SlotsOf(w.gate), m)
    requires id in after.workers
    ensures TaskFits(after, id)
  {
    if id in w.workers {
      assert TaskFits(w, id) && Continues(w, after, id, m);
    } else {
      assert Appears(after, id, m);
    }
  }

  // ---------------------------------------------------------------- every action is one move

  ghost predicate Makes(w: World, after: World, m: Move) {
    && Possible(SlotsOf(w.gate), m)
    && SlotsOf(after.gate) == Moved(SlotsOf(w.gate), m)
    && Matches(w, after, m)
  }

  /** Store calls and log entries do not matter here. */
  predicate Alike(w: World, w1: World) {
    w1.workers == w.workers && SlotsOf(w1.gate) == SlotsOf(w.gate) && w1.nextOwner == w.nextOwner
  }

  lemma DoIsAlike(w: World, op: Op)
    ensures Alike(w, Do(w, op))
  {
  }

  lemma RecoverIsAlike(w: World, key: Key)
    ensures Alike(w, Recover(w, key))
  {
  }

  lemma AlikeMakes(w: World, w1: World, after: World, m: Move)
    requires Alike(w, w1) && Makes(w1, after, m)
    ensures Makes(w, after, m)
  {
    forall id | id in w.workers && !m.Clear? ensures Continues(w, after, id, m) {
      assert Continues(w1, after, id, m);
    }
    forall id | id in after.workers && id !in w.workers ensures Appears(after, id, m) {}
  }

  /** Workers that go on, or tasks that end before they have run, with the gate as it was. */
  lemma StayMakes(w: World, after: World)
    requires SlotsOf(after.gate) == SlotsOf(w.gate) && after.workers.Keys == w.workers.Keys
    requires forall id {:trigger id in w.workers} :: id in w.workers ==> Continues(w, after, id, Stay)
    ensures Makes(w, after, Stay)
  {
  }

  function EndMove(worker: Worker, id: Owner): Move {
    if worker.key.connector == Qq && (worker.isRetry || worker.pc != Queued) then Leave(id, worker.key.event) else Stay
  }

  lemma FinishMakes(w: World, id: Owner, answer: Answer, notice: Notice)
    requires Running(w, id)
    ensures var after := Finish(w, id, answer, notice);
            Makes(w, after, EndMove(w.workers[id], id)) && (w.workers[id].key.connector == Qq ==> !Running(after, id))
  {
    var m, after := EndMove(w.workers[id], id), Finish(w, id, answer, notice);
    forall other | other in w.workers ensures Continues(w, after, other, m) {}
    assert after.workers.Keys == w.workers.Keys;
  }

  lemma AlikeFinish(w: World, w1: World, id: Owner, answer: Answer, notice: Notice)
    requires Alike(w, w1) && Running(w, id)
    ensures var after := Finish(w1, id, answer, notice);
            Makes(w, after, EndMove(w.workers[id], id)) && (w.workers[id].key.connector == Qq ==> !Running(after, id))
  {
    hide Finish;
    FinishMakes(w1, id, answer, notice);
    AlikeMakes(w, w1, Finish(w1, id, answer, notice), EndMove(w.workers[id], id));
  }

  lemma StartMakes(w: World, w1: World, id: Owner, reply: string)
    requires Alike(w, w1) && id in w.workers && w.workers[id].pc == Turn
    ensures Makes(w, StartSend(w1, id, reply), Stay) && Running(StartSend(w1, id, reply), id)
  {
    StayMakes(w, StartSend(w1, id, reply));
  }

  /** The move of an action of worker `id`: it ends there, or it does not. */
  ghost predicate EndsOrStays(w: World, after: World, id: Owner, m: Move) {
    && Makes(w, after, m)
    && (m == Stay || m.Leave?)
    && (m.Leave? <==> Running(w, id) && w.workers[id].key.connector == Qq && !Running(after, id)
                      && (w.workers[id].isRetry || w.workers[id].pc != Queued))
    && (m.Leave? ==> m == Leave(id, w.workers[id].key.event))
  }

  lemma EndsByFinish(w: World, w1: World, id: Owner, answer: Answer, notice: Notice)
    requires Alike(w, w1) && Running(w, id)
    ensures EndsOrStays(w, Finish(w1, id, answer, notice), id, EndMove(w.workers[id], id))
  {
    hide Finish, Makes;
    AlikeFinish(w, w1, id, answer, notice);
  }

  lemma StaysByStart(w: World, w1: World, id: Owner, reply: string)
    requires Alike(w, w1) && id in w.workers && w.workers[id].pc == Turn
    ensures EndsOrStays(w, StartSend(w1, id, reply), id, Stay)
  {
    hide Makes, StartSend;
    StartMakes(w, w1, id, reply);
  }

  lemma StaysPut(w: World, id: Owner)
    ensures EndsOrStays(w, w, id, Stay)
  {
    StayMakes(w, w);
  }

  lemma DiscardIsAlike(w: World, id: Owner)
    requires id in w.workers
    ensures Alike(w, DiscardOwnPending(w, id))
  {
  }

  lemma WebhookTurnMakes(w: World, w1: World, id: Owner, turn: TurnOutcome) returns (m: Move)
    requires Alike(w, w1) && id in w.workers && w.workers[id].pc == Turn && !w.workers[id].isRetry
    ensures EndsOrStays(w, WebhookTurn(w1, id, turn), id, m)
  {
    hide Do, Finish, StartSend, EndsOrStays, DiscardOwnPending;
    var key := w.workers[id].key;
    DiscardIsAlike(w1, id);
    m := EndMove(w.workers[id], id);
    match turn
    case TurnCancelled(_) => EndsByFinish(w, DiscardOwnPending(w1, id), id, PlainResponse, InTry);
    case UnknownEffect(_) => EndsByFinish(w, DiscardOwnPending(w1, id), id, UnknownResponse, InTry);
    case TurnRaised =>
      var op := MarkTurnFailed(key, id, TurnFailed);
      DoIsAlike(w1, op);
      EndsByFinish(w, Do(w1, op), id, PlainResponse, InHandler);
    case Replied(text, replayed) =>
      var op := ClaimDelivery(key, id, text);
      DoIsAlike(w1, op);
      if replayed && HasStatus(w1, key, Sending) {
        EndsByFinish(w, w1, id, UnknownResponse, NoNotice);
      } else if VerdictOf(w1, op) == Claimed {
        m := Stay;
        StaysByStart(w, Do(w1, op), id, text);
      } else {
        EndsByFinish(w, Do(w1, op), id, if VerdictOf(w1, op) == Unknown then UnknownResponse else PlainResponse, NoNotice);
      }
  }

  lemma RetryTurnMakes(w: World, id: Owner, turn: TurnOutcome) returns (m: Move)
    requires id in w.workers && w.workers[id].pc == Turn && w.workers[id].isRetry
    ensures EndsOrStays(w, RetryTurn(w, id, turn), id, m)
  {
    hide Do, Finish, StartSend, EndsOrStays;
    var key := w.workers[id].key;
    m := EndMove(w.workers[id], id);
    if turn.Replied? && turn.text != "" && VerdictOf(w, PromoteTurnRetry(key, id, turn.text)) == Hit {
      var op := PromoteTurnRetry(key, id, turn.text);
      DoIsAlike(w, op);
      m := Stay;
      StaysByStart(w, Do(w, op), id, turn.text);
    } else {
      var op := ReleaseTurnRetry(key, id, if turn.TurnCancelled? then EventCancelled
                                          else if turn.UnknownEffect? then EventStateUnknown else TurnException);
      DoIsAlike(w, op);
      EndsByFinish(w, Do(w, op), id, PlainResponse, NoNotice);
    }
  }

  lemma TurnMakes(w: World, id: Owner, turn: TurnOutcome) returns (m: Move)
    ensures EndsOrStays(w, TurnDone(w, id, turn), id, m)
  {
    hide EndsOrStays, WebhookTurn, RetryTurn;
    StaysPut(w, id);
    m := Stay;
    if id in w.workers && w.workers[id].pc == Turn {
      if w.workers[id].isRetry {
        m := RetryTurnMakes(w, id, turn);
      } else {
        m := WebhookTurnMakes(w, if turn.TurnRaised? || !turn.replayed then w else RefundTurn(w, id), id, turn);
      }
    }
  }

  lemma FailIsAlike(w: World, id: Owner, reason: Reason, answer: Option<ProviderAnswer>)
    requires id in w.workers
    ensures Alike(w, Fail(w, id, reason, answer))
  {
  }

  lemma SendMakes(w: World, id: Owner, send: SendOutcome) returns (m: Move)
    ensures EndsOrStays(w, SendDone(w, id, send), id, m)
  {
    hide EndsOrStays, Fail, Do, Finish;
    StaysPut(w, id);
    m := Stay;
    if id in w.workers && w.workers[id].pc == Send {
      m := EndMove(w.workers[id], id);
      var worker := w.workers[id];
      var key := worker.key;
      match Said(worker.reply, send)
      case SendRaised =>
        EndsByFinish(w, w, id, UnknownResponse, NoNotice);
        FailIsAlike(w, id, ProviderException, None);
        EndsByFinish(w, Fail(w, id, ProviderException, None), id, PlainResponse, InHandler);
      case Answered(answer) =>
        EndsByFinish(w, w, id, UnknownResponse, NoNotice);
        var reason := if worker.reply == "" && !worker.isRetry then EmptyReply else FailureReason(answer);
        FailIsAlike(w, id, reason, Some(answer));
        EndsByFinish(w, Fail(w, id, reason, Some(answer)), id, PlainResponse, InTry);
        var op := MarkSent(key, id);
        DoIsAlike(w, op);
        EndsByFinish(w, Do(w, op), id, if VerdictOf(w, op) == Hit then PlainResponse else UnknownResponse, NoNotice);
    }
  }

  lemma CancelMakes(w: World, id: Owner) returns (m: Move)
    ensures EndsOrStays(w, Cancelled(w, id), id, m)
  {
    hide EndsOrStays, Fail, Do, Finish, DiscardOwnPending;
    StaysPut(w, id);
    m := Stay;
    if Running(w, id) {
      m := EndMove(w.workers[id], id);
      var worker := w.workers[id];
      var op := ReleaseTurnRetry(worker.key, id, RetryCancelled);
      DoIsAlike(w, op);
      EndsByFinish(w, Do(w, op), id, WasCancelled, NoNotice);
      DiscardIsAlike(w, id);
      EndsByFinish(w, DiscardOwnPending(w, id), id, WasCancelled, InHandler);
      FailIsAlike(w, id, RetryCancelled, None);
      EndsByFinish(w, Fail(w, id, RetryCancelled, None), id, WasCancelled, NoNotice);
      EndsByFinish(w, w, id, WasCancelled, InHandler);
      EndsByFinish(w, w, id, WasCancelled, NoNotice);
    }
  }

  // ---------------------------------------------------------------- reservations

  /** The gate of a webhook: only a task that is made keeps what was reserved for it. */
  lemma PassMakes(g: Gate, key: Key, v: Visit, replay: bool, early: bool)
    ensures var (after, pass) := Pass(g, key, v, replay, early);
            && after.holders == g.holders && after.callbacks == g.callbacks
            && (key.connector == Qq && pass.Some? ==> key.event !in g.tables.inflight)
            && after.tables.inflight == if key.connector == Qq && pass.Some? && pass.value.admitted
                                        then g.tables.inflight + {key.event} else g.tables.inflight
  {
    if key.connector == Qq && key.event !in g.tables.inflight {
      assert g.tables.inflight + {key.event} - {key.event} == g.tables.inflight;
      assert g.tables.inflight - {key.event} == g.tables.inflight;
    }
  }

  /** Owners are handed out once. */
  ghost predicate Unused(w: World) {
    w.nextOwner !in w.workers && (forall id {:trigger id in w.gate.holders} :: id in w.gate.holders ==> id in w.workers)
  }

  lemma MakeTaskMakes(w: World, w1: World, key: Key, early: bool, answer: Q.Decision) returns (m: Move)
    requires Unused(w) && w1.workers == w.workers && w1.nextOwner == w.nextOwner
    requires w1.gate.holders == w.gate.holders && w1.gate.callbacks == w.gate.callbacks
    requires key.connector == Qq ==> key.event !in w.gate.tables.inflight
    requires w1.gate.tables.inflight == if key.connector == Qq && answer.admitted
                                        then w.gate.tables.inflight + {key.event} else w.gate.tables.inflight
    ensures Makes(w, MakeTask(w1, key, early, answer), m)
    ensures m == if key.connector == Qq then Launch(w.nextOwner, key.event, answer.admitted) else Stay
  {
    m := if key.connector == Qq then Launch(w.nextOwner, key.event, answer.admitted) else Stay;
    var after := MakeTask(w1, key, early, answer);
    forall id | id in w.workers ensures Continues(w, after, id, m) {}
    forall id | id in after.workers && id !in w.workers ensures Appears(after, id, m) {}
  }

  lemma WebhookMakes(w: World, key: Key, v: Visit, fastAck: bool) returns (m: Move)
    requires Unused(w)
    ensures Makes(w, Webhook(w, key, v, fastAck), m) && (m == Stay || m.Launch?)
    ensures m.Launch? && v.first == v.second ==> m.taken
  {
    hide Recover, Pass, MakeTask, Makes;
    RecoverIsAlike(w, key);
    var w1 := Recover(w, key);
    var early := fastAck || key.connector == Discord;
    var (gate, pass) := Pass(w1.gate, key, v, key in w1.rows, early);
    PassMakes(w1.gate, key, v, key in w1.rows, early);
    var refused := !v.allowed || TaskActive(w, key) || HasStatus(w1, key, Processing) || HasStatus(w1, key, Delivered)
                   || HasStatus(w1, key, Sending) || (HasStatus(w1, key, Failed) && ReplyBlank(w1.rows[key]));
    StayMakes(w, w);
    StayMakes(w, w1);
    m := Stay;
    if !refused {
      if pass.None? {
        StayMakes(w, w1.(gate := gate));
      } else {
        m := MakeTaskMakes(w, w1.(gate := gate), key, early, pass.value);
        if key.connector == Qq && v.first == v.second { SameReadingIsTaken(w1.gate, key, v, key in w1.rows, early); }
      }
    }
  }

  lemma SameReadingIsTaken(g: Gate, key: Key, v: Visit, replay: bool, early: bool)
    requires key.connector == Qq && v.first == v.second && Pass(g, key, v, replay, early).1.Some?
    ensures Pass(g, key, v, replay, early).1.value.admitted
  {
    assert Q.Pruned(Q.Pruned(g.tables.recent, v.first), v.first) == Q.Pruned(g.tables.recent, v.first);
  }

  // ---------------------------------------------------------------- retries

  /** At most one worker is made, a retry of `key`, which runs; the gate is not looked at. */
  ghost predicate MakesOneRetry(w: World, after: World, key: Key) {
    && after.gate == w.gate
    && (after.nextOwner == w.nextOwner ==> after.workers == w.workers)
    && (after.nextOwner != w.nextOwner ==>
          && w.nextOwner in after.workers && after.workers == w.workers[w.nextOwner := after.workers[w.nextOwner]]
          && after.workers[w.nextOwner].key == key && after.workers[w.nextOwner].isRetry
          && !after.workers[w.nextOwner].pc.Done? && !after.workers[w.nextOwner].pc.Notify?)
  }

  lemma RetryClaimIsLocal(w: World, key: Key)
    requires key in w.rows
    ensures MakesOneRetry(w, RetryClaim(w, key), key)
  {
    hide Do;
    DoesLittle(w, ClaimTurnRetry(key, w.nextOwner));
    DoesLittle(w, ClaimDelivery(key, w.nextOwner, w.rows[key].reply.GetOr("")));
  }

  lemma RetryBodyIsLocal(w: World, key: Key)
    requires key in w.rows
    ensures MakesOneRetry(w, RetryBody(w, key), key)
  {
    hide Do, RetryClaim;
    DoesLittle(w, RecoverStale(key));
    var w1 := Recover(w, key);
    assert key in w1.rows by { RecoverKeepsRow(w, key); }
    RetryClaimIsLocal(w1, key);
  }

  lemma DoesLittle(w: World, op: Op)
    ensures var after := Do(w, op); after == w.(rows := after.rows, log := after.log)
  {
  }

  lemma RecoverKeepsRow(w: World, key: Key)
    requires key in w.rows
    ensures key in Recover(w, key).rows
  {
  }

  /** A retry of another connector makes no move, whether or not it makes a worker. */
  lemma OtherRetryMakes(w: World, key: Key)
    requires Unused(w) && key in w.rows && key.connector != Qq
    ensures Makes(w, RetryBody(w, key), Stay)
  {
    hide RetryBody;
    RetryBodyIsLocal(w, key);
    var after := RetryBody(w, key);
    if after.nextOwner == w.nextOwner {
      StayMakes(w, after);
    } else {
      forall id | id in w.workers ensures Continues(w, after, id, Stay) {}
      forall id | id in after.workers && id !in w.workers ensures Appears(after, id, Stay) {}
    }
  }

  /** The retry route on one QQ event, once it has been admitted. */
  function Admitted(w: World, key: Key, v: Visit): World
    requires key in w.rows
  {
    var w1 := RetryBody(w.(gate := Tabled(w.gate, Q.Reserve(key.event, v.session, true, v.first))), key);
    w1.(gate := if w1.nextOwner == w.nextOwner then Tabled(w1.gate, Q.Finish(key.event))
                else ConnectorGate.Held(w1.gate, w.nextOwner, key.event))
  }

  lemma AdmittedMakes(w: World, key: Key, v: Visit) returns (m: Move)
    requires Unused(w) && key in w.rows && key.connector == Qq
    requires Asked(w.gate, key.event, v.session, true, v.first).admitted
    ensures Makes(w, Admitted(w, key, v), m) && (m == Stay || m.Take?)
  {
    hide RetryBody;
    var taken := w.(gate := Tabled(w.gate, Q.Reserve(key.event, v.session, true, v.first)));
    RetryBodyIsLocal(taken, key);
    var w1, after := RetryBody(taken, key), Admitted(w, key, v);
    if w1.nextOwner == w.nextOwner {
      m := Stay;
      assert after.gate.tables.inflight == w.gate.tables.inflight;
      StayMakes(w, after);
    } else {
      m := Take(w.nextOwner, key.event);
      forall id | id in w.workers ensures Continues(w, after, id, m) {}
      forall id | id in after.workers && id !in w.workers ensures Appears(after, id, m) {}
    }
  }

  lemma RetryMakes(w: World, key: Key, v: Visit) returns (m: Move)
    requires Unused(w)
    ensures Makes(w, Retry(w, key, v), m) && (m == Stay || m.Take?)
  {
    hide RetryBody, Makes, Asked;
    m := Stay;
    StayMakes(w, w);
    if key in w.rows && !HasStatus(w, key, Delivered) && !(key.connector == Qq && HasStatus(w, key, Sending)) && v.allowed {
      if key.connector != Qq {
        OtherRetryMakes(w, key);
      } else {
        var taken := w.(gate := Tabled(w.gate, Q.Reserve(key.event, v.session, true, v.first)));
        if Asked(w.gate, key.event, v.session, true, v.first).admitted {
          m := AdmittedMakes(w, key, v);
        } else {
          assert SlotsOf(taken.gate) == SlotsOf(w.gate) by { RefusedTakesNothing(w.gate, key.event, v); }
          StayMakes(w, taken);
        }
      }
    }
  }

  lemma RefusedTakesNothing(g: Gate, event: string, v: Visit)
    requires !Asked(g, event, v.session, true, v.first).admitted
    ensures SlotsOf(Tabled(g, Q.Reserve(event, v.session, true, v.first))) == SlotsOf(g)
  {
  }

  lemma ScanMakes(w: World, key: Key, v: Visit) returns (m: Move)
    requires Unused(w)
    ensures Makes(w, ScanRow(w, key, v), m) && (m == Stay || m.Take?)
  {
    hide Retry, Makes, Do;
    var op := RecoverStale(key);
    StayMakes(w, w);
    m := Stay;
    if !TaskActive(w, key) && VerdictOf(w, op) == Hit {
      DoesLittle(w, op);
      m := RetryMakes(Do(w, op), key, v);
      AlikeMakes(w, Do(w, op), Retry(Do(w, op), key, v), m);
    }
  }

  // ---------------------------------------------------------------- the other actions

  lemma EnterMakes(w: World, id: Owner)
    ensures Makes(w, Enter(w, id), Stay)
  {
    hide Do;
    if id in w.workers {
      DoesLittle(w, RecordPending(w.workers[id].key, id));
    }
    StayMakes(w, Enter(w, id));
  }

  lemma NotifyMakes(w: World, id: Owner)
    requires Held(w)
    ensures Makes(w, NotifyDone(w, id), Stay)
  {
    assert id in w.workers ==> TaskFits(w, id);
    StayMakes(w, NotifyDone(w, id));
  }

  lemma RequestMakes(w: World, key: Key)
    ensures Makes(w, CancelRequest(w, key), Stay)
  {
    hide Recover;
    RecoverIsAlike(w, key);
    StayMakes(w, CancelRequest(w, key));
  }

  lemma CancelDoneMakes(w: World, id: Owner)
    ensures Makes(w, CancelDone(w, id), Stay)
  {
    StayMakes(w, CancelDone(w, id));
  }

  lemma CleanupMakes(w: World, id: Owner)
    ensures Makes(w, CleanedUp(w, id), Stay)
  {
    StayMakes(w, CleanedUp(w, id));
  }

  lemma CallbackMakes(w: World, id: Owner) returns (m: Move)
    ensures Makes(w, CallbackRuns(w, id), m)
    ensures m == if id in w.gate.callbacks && !Running(w, id) then Call(id) else Stay
  {
    m := if id in w.gate.callbacks && !Running(w, id) then Call(id) else Stay;
    StayMakes(w, w);
    var after := CallbackRuns(w, id);
    forall other | other in w.workers ensures Continues(w, after, other, m) {}
    assert after.workers.Keys == w.workers.Keys;
  }

  lemma ClearMakes(w: World)
    ensures Makes(w, Step(w, Restart), Clear)
  {
    forall id | id in w.workers ensures id !in Step(w, Restart).workers {}
  }

  /** A turn that ends in the send: it replied, and the store let the attempt have the row. */
  predicate SendsReply(w: World, id: Owner, turn: TurnOutcome)
    requires id in w.workers
  {
    var worker := w.workers[id];
    && turn.Replied?
    && if worker.isRetry then turn.text != "" && VerdictOf(w, PromoteTurnRetry(worker.key, id, turn.text)) == Hit
       else !(turn.replayed && HasStatus(w, worker.key, Sending))
            && VerdictOf(w, ClaimDelivery(worker.key, id, turn.text)) == Claimed
  }

  /**
   The `finally` of a QQ attempt runs in this action: its turn ends in no send, or its send or its cancellation has come
   back, whatever was answered. A task that is cancelled before it has run has no `finally` to run.
   */
  predicate Leaves(w: World, a: Action) {
    && (a.TurnReturns? || a.SendReturns? || a.CancelLands?)
    && Running(w, a.id) && w.workers[a.id].key.connector == Qq
    && match a
       case TurnReturns(id, turn) => w.workers[id].pc == Turn && !SendsReply(w, id, turn)
       case SendReturns(id, _) => w.workers[id].pc == Send
       case _ => w.workers[a.id].isRetry || w.workers[a.id].pc != Queued
  }

  lemma FinishStops(w: World, id: Owner, answer: Answer, notice: Notice)
    requires id in w.workers && w.workers[id].key.connector == Qq
    ensures !Running(Finish(w, id, answer, notice), id)
  {
  }

  lemma StartRuns(w: World, id: Owner, reply: string)
    requires id in w.workers
    ensures Running(StartSend(w, id, reply), id)
  {
  }

  lemma WebhookTurnEndsIff(w: World, w1: World, id: Owner, turn: TurnOutcome)
    requires Alike(w, w1) && w1.rows == w.rows && w1.now == w.now
    requires id in w.workers && w.workers[id].key.connector == Qq && !w.workers[id].isRetry
    ensures Running(WebhookTurn(w1, id, turn), id) <==> SendsReply(w, id, turn)
  {
    hide Finish, StartSend, Do, Running, DiscardOwnPending, Apply;
    var key := w.workers[id].key;
    DiscardIsAlike(w1, id);
    match turn
    case TurnCancelled(_) => FinishStops(DiscardOwnPending(w1, id), id, PlainResponse, InTry);
    case UnknownEffect(_) => FinishStops(DiscardOwnPending(w1, id), id, UnknownResponse, InTry);
    case TurnRaised =>
      DoIsAlike(w1, MarkTurnFailed(key, id, TurnFailed));
      FinishStops(Do(w1, MarkTurnFailed(key, id, TurnFailed)), id, PlainResponse, InHandler);
    case Replied(text, _) =>
      var op := ClaimDelivery(key, id, text);
      DoIsAlike(w1, op);
      FinishStops(w1, id, UnknownResponse, NoNotice);
      FinishStops(Do(w1, op), id, if VerdictOf(w1, op) == Unknown then UnknownResponse else PlainResponse, NoNotice);
      StartRuns(Do(w1, op), id, text);
  }

  lemma RetryTurnEndsIff(w: World, id: Owner, turn: TurnOutcome)
    requires id in w.workers && w.workers[id].key.connector == Qq && w.workers[id].isRetry
    ensures Running(RetryTurn(w, id, turn), id) <==> SendsReply(w, id, turn)
  {
    hide Finish, StartSend, Do, Running, Apply;
    var key := w.workers[id].key;
    var reason := if turn.TurnCancelled? then EventCancelled
                  else if turn.UnknownEffect? then EventStateUnknown else TurnException;
    var op := ReleaseTurnRetry(key, id, reason);
    DoIsAlike(w, op);
    FinishStops(Do(w, op), id, PlainResponse, NoNotice);
    if turn.Replied? {
      DoIsAlike(w, PromoteTurnRetry(key, id, turn.text));
      StartRuns(Do(w, PromoteTurnRetry(key, id, turn.text)), id, turn.text);
    }
  }

  lemma TurnEndsIff(w: World, id: Owner, turn: TurnOutcome)
    requires Running(w, id) && w.workers[id].key.connector == Qq
    ensures !Running(TurnDone(w, id, turn), id) <==> w.workers[id].pc == Turn && !SendsReply(w, id, turn)
  {
    hide WebhookTurn, RetryTurn, SendsReply;
    if w.workers[id].pc == Turn {
      if w.workers[id].isRetry {
        RetryTurnEndsIff(w, id, turn);
      } else {
        WebhookTurnEndsIff(w, if turn.TurnRaised? || !turn.replayed then w else RefundTurn(w, id), id, turn);
      }
    }
  }

  lemma SendEndsIff(w: World, id: Owner, send: SendOutcome)
    requires Running(w, id) && w.workers[id].key.connector == Qq
    ensures !Running(SendDone(w, id, send), id) <==> w.workers[id].pc == Send
  {
    hide Finish, Do, Fail;
    if w.workers[id].pc == Send {
      var worker := w.workers[id];
      FinishStops(w, id, UnknownResponse, NoNotice);
      match Said(worker.reply, send)
      case SendRaised =>
      case Answered(answer) =>
        var reason := if worker.reply == "" && !worker.isRetry then EmptyReply else FailureReason(answer);
        FailIsAlike(w, id, reason, Some(answer));
        FinishStops(Fail(w, id, reason, Some(answer)), id, PlainResponse, InTry);
        var op := MarkSent(worker.key, id);
        DoIsAlike(w, op);
        FinishStops(Do(w, op), id, if VerdictOf(w, op) == Hit then PlainResponse else UnknownResponse, NoNotice);
    }
  }

  lemma CancelEnds(w: World, id: Owner)
    requires Running(w, id) && w.workers[id].key.connector == Qq
    ensures !Running(Cancelled(w, id), id)
  {
    hide Finish, Do, Fail, DiscardOwnPending;
    var op := ReleaseTurnRetry(w.workers[id].key, id, RetryCancelled);
    DoIsAlike(w, op);
    DiscardIsAlike(w, id);
    FinishStops(Do(w, op), id, WasCancelled, NoNotice);
    FinishStops(DiscardOwnPending(w, id), id, WasCancelled, InHandler);
    FinishStops(w, id, WasCancelled, InHandler);
    FinishStops(w, id, WasCancelled, NoNotice);
  }

  /** That is when a running QQ attempt stops running after its start. */
  lemma LeavesIff(w: World, a: Action)
    requires a.TurnReturns? || a.SendReturns? || a.CancelLands?
    ensures Leaves(w, a)
            <==> && Running(w, a.id) && w.workers[a.id].key.connector == Qq && !Running(Step(w, a), a.id)
                 && (w.workers[a.id].isRetry || w.workers[a.id].pc != Queued)
  {
    hide TurnDone, SendDone, Cancelled, SendsReply;
    if Running(w, a.id) && w.workers[a.id].key.connector == Qq {
      match a
      case TurnReturns(id, turn) => TurnEndsIff(w, id, turn);
      case SendReturns(id, send) => SendEndsIff(w, id, send);
      case CancelLands(id) => CancelEnds(w, id);
    }
  }

  predicate Calls(w: World, a: Action) {
    a.Callback? && a.id in w.gate.callbacks && !Running(w, a.id)
  }

  lemma WorkerMakes(w: World, a: Action) returns (m: Move)
    requires a.TurnReturns? || a.SendReturns? || a.CancelLands?
    ensures EndsOrStays(w, Step(w, a), a.id, m) && (m.Leave? <==> Leaves(w, a))
  {
    hide TurnDone, SendDone, Cancelled, Makes, Leaves;
    LeavesIff(w, a);
    match a
    case TurnReturns(id, turn) => m := TurnMakes(w, id, turn);
    case SendReturns(id, send) => m := SendMakes(w, id, send);
    case CancelLands(id) => m := CancelMakes(w, id);
  }

  lemma StepMakes(w: World, a: Action) returns (m: Move)
    requires Unused(w) && Held(w)
    ensures Makes(w, Step(w, a), m)
    ensures m.Leave? <==> Leaves(w, a)
    ensures m.Leave? ==> m == Leave(a.id, w.workers[a.id].key.event)
    ensures m.Call? <==> Calls(w, a)
    ensures m.Call? ==> m.id == a.id
    ensures m.Launch? ==> a.WebhookArrives? && (a.visit.first == a.visit.second ==> m.taken)
  {
    hide Makes, Webhook, Enter, TurnDone, SendDone, NotifyDone, Cancelled, CancelRequest, CancelDone, CleanedUp;
    hide Retry, ScanRow, CallbackRuns, Recover, Do;
    m := Stay;
    match a
    case WebhookArrives(key, visit, fastAck) => m := WebhookMakes(w, key, visit, fastAck);
    case WebhookEnters(id) => EnterMakes(w, id);
    case NotifyReturns(id) => NotifyMakes(w, id);
    case CancelRoute(key) => RequestMakes(w, key);
    case CancelReturns(id) => CancelDoneMakes(w, id);
    case Cleanup(id) => CleanupMakes(w, id);
    case Callback(id) => m := CallbackMakes(w, id);
    case RetryArrives(key, visit) => m := RetryMakes(w, key, visit);
    case Scan(key, visit) => m := ScanMakes(w, key, visit);
    case Listed(key) =>
      RecoverIsAlike(w, key);
      StayMakes(w, Step(w, a));
    case ResolveRoute(key, delivered) =>
      DoesLittle(w, Resolve(key, delivered));
      StayMakes(w, Step(w, a));
    case Restart =>
      m := Clear;
      ClearMakes(w);
    case ClockMoves(_) => StayMakes(w, Step(w, a));
    case _ => m := WorkerMakes(w, a);
  }

  // ---------------------------------------------------------------- every run

  lemma {:induction false} RunIsHeld(limits: Q.Limits, actions: seq<Action>)
    ensures Held(Run(limits, actions)) && Unused(Run(limits, actions))
  {
    if actions != [] {
      var before, a := Run(limits, actions[..|actions| - 1]), actions[|actions| - 1];
      RunIsHeld(limits, actions[..|actions| - 1]);
      var m := StepMakes(before, a);
      MoveKeepsHeld(before, Step(before, a), m);
    }
    IdsAreUnused(limits, actions);
  }

  lemma IdsAreUnused(limits: Q.Limits, actions: seq<Action>)
    requires Held(Run(limits, actions))
    ensures Unused(Run(limits, actions))
  {
    var w := Run(limits, actions);
    C.EveryRunKeeps(limits, actions);
    assert w.nextOwner in C.Mem(w).workers <==> w.nextOwner in w.workers;
    forall id | id in w.gate.holders ensures id in w.workers { assert HolderFits(w, id); }
  }

  /**
   Main result. In every run, each reserved QQ event belongs to an attempt for that event that is running, or to a task
   that has ended and whose callback is still to come; where neither is left, nothing is reserved.
   */
  lemma NothingLeaks(limits: Q.Limits, actions: seq<Action>)
    ensures var w := Run(limits, actions);
            && (forall event :: event in w.gate.tables.inflight ==>
                  exists id :: id in w.gate.holders && w.gate.holders[id] == event && HolderFits(w, id))
            && ((forall id :: !Running(w, id)) && w.gate.callbacks == map[] ==> w.gate.tables.inflight == {})
  {
    RunIsHeld(limits, actions);
    var w := Run(limits, actions);
    forall event | event in w.gate.tables.inflight
      ensures exists id :: id in w.gate.holders && w.gate.holders[id] == event && HolderFits(w, id)
    {
      var id :| id in w.gate.holders && w.gate.holders[id] == event;
      assert HolderFits(w, id);
    }
  }

  /** A task that is cancelled before it has run keeps its reservation, and its callback gives it back. */
  lemma CancelledBeforeStart(w: World, id: Owner)
    requires Held(w) && id in w.gate.holders && id in w.workers && w.workers[id].pc == Queued && !w.workers[id].isRetry
    ensures var landed := Cancelled(w, id);
            && landed.gate == w.gate && !Running(landed, id) && id in landed.gate.callbacks
            && w.gate.holders[id] !in CallbackRuns(landed, id).gate.tables.inflight
            && id !in CallbackRuns(landed, id).gate.holders
  {
    assert HolderFits(w, id) && TaskFits(w, id);
    assert CallbackFits(w, id);
  }

  // ---------------------------------------------------------------- exact bookkeeping

  /** The reserved events are exactly those of the holders, one holder each. */
  ghost predicate Exact(s: Slots) {
    && s.inflight == s.holders.Values
    && (forall i, j :: i in s.holders && j in s.holders && i != j ==> s.holders[i] != s.holders[j])
  }

  /** An attempt without a reservation releases an event that another one holds. */
  predicate Robs(s: Slots, m: Move) {
    || (m.Leave? && m.id !in s.holders && m.event in s.holders.Values)
    || (m.Call? && m.id in s.callbacks && m.id !in s.holders && s.callbacks[m.id] in s.holders.Values)
  }

  lemma RemoveValue(holders: map<Owner, string>, id: Owner)
    requires id in holders
    requires forall i, j :: i in holders && j in holders && i != j ==> holders[i] != holders[j]
    ensures (holders - {id}).Values == holders.Values - {holders[id]}
  {
    var rest := holders - {id};
    forall event | event in holders.Values - {holders[id]} ensures event in rest.Values {
      var i :| i in holders && holders[i] == event;
      assert rest[i] == event;
    }
  }

  lemma AddValue(holders: map<Owner, string>, id: Owner, event: string)
    requires id !in holders
    ensures holders[id := event].Values == holders.Values + {event}
  {
    var more := holders[id := event];
    forall e | e in holders.Values ensures e in more.Values {
      var i :| i in holders && holders[i] == e;
      assert more[i] == e;
    }
    assert more[id] == event;
  }

  lemma MoveKeepsExactIff(s: Slots, m: Move)
    requires Exact(s) && Possible(s, m)
    requires m.Leave? && m.id in s.holders ==> s.holders[m.id] == m.event
    requires m.Call? && m.id in s.holders ==> s.holders[m.id] == s.callbacks[m.id]
    ensures Exact(Moved(s, m)) <==> !Robs(s, m)
  {
    match m
    case Launch(id, event, taken) => if taken { AddValue(s.holders, id, event); }
    case Take(id, event) => AddValue(s.holders, id, event);
    case Leave(id, event) => ReleaseKeepsExactIff(s, id, event);
    case Call(id) => ReleaseKeepsExactIff(s, id, s.callbacks[id]);
    case _ =>
  }

  lemma ReleaseKeepsExactIff(s: Slots, id: Owner, event: string)
    requires Exact(s) && (id in s.holders ==> s.holders[id] == event)
    ensures var after := s.(inflight := s.inflight - {event}, holders := s.holders - {id});
            Exact(after) <==> id in s.holders || event !in s.holders.Values
  {
    if id in s.holders {
      RemoveValue(s.holders, id);
    } else {
      assert s.holders - {id} == s.holders;
    }
  }

  /**
   An action releases what is not its own: the `finally` of a task whose second question was refused, or the callback
   of a task that has already released its event, while a later attempt holds that event.
   */
  ghost predicate RobsAnother(w: World, a: Action) {
    || (Leaves(w, a) && a.id !in w.gate.holders && w.workers[a.id].key.event in w.gate.holders.Values)
    || (Calls(w, a) && a.id !in w.gate.holders && w.gate.callbacks[a.id] in w.gate.holders.Values)
  }

  /** An action keeps exact bookkeeping exact if and only if it does not release what another attempt holds. */
  lemma StepKeepsExactIff(w: World, a: Action)
    requires Held(w) && Unused(w) && Exact(SlotsOf(w.gate))
    ensures Exact(SlotsOf(Step(w, a).gate)) <==> !RobsAnother(w, a)
  {
    hide Step, Exact, Leaves;
    var m := StepMakes(w, a);
    assert (m.Leave? || m.Call?) && m.id in w.gate.holders ==> HolderFits(w, m.id);
    assert m.Call? ==> CallbackFits(w, m.id);
    MoveKeepsExactIff(SlotsOf(w.gate), m);
  }

  ghost predicate NeverRobs(limits: Q.Limits, actions: seq<Action>) {
    forall n :: 0 <= n < |actions| ==> !RobsAnother(Run(limits, actions[..n]), actions[n])
  }

  ghost predicate AlwaysExact(limits: Q.Limits, actions: seq<Action>) {
    forall n :: 0 <= n <= |actions| ==> Exact(SlotsOf(Run(limits, actions[..n]).gate))
  }

  lemma NeverRobsPrefix(limits: Q.Limits, actions: seq<Action>)
    requires actions != []
    ensures var n := |actions| - 1;
            NeverRobs(limits, actions)
            <==> NeverRobs(limits, actions[..n]) && !RobsAnother(Run(limits, actions[..n]), actions[n])
  {
    hide Run, RobsAnother;
    var n := |actions| - 1;
    assert forall k :: 0 <= k < n ==> actions[..n][..k] == actions[..k];
    if NeverRobs(limits, actions[..n]) {
      forall k | 0 <= k < n ensures !RobsAnother(Run(limits, actions[..k]), actions[k]) {
        assert actions[..n][k] == actions[k];
      }
    }
  }

  lemma AlwaysExactPrefix(limits: Q.Limits, actions: seq<Action>)
    requires actions != []
    ensures var n := |actions| - 1;
            AlwaysExact(limits, actions)
            <==> AlwaysExact(limits, actions[..n]) && Exact(SlotsOf(Run(limits, actions).gate))
  {
    hide Run, Exact;
    var n := |actions| - 1;
    if AlwaysExact(limits, actions) { ShorterIsExact(limits, actions); }
    if AlwaysExact(limits, actions[..n]) && Exact(SlotsOf(Run(limits, actions).gate)) { LongerIsExact(limits, actions); }
  }

  lemma ShorterIsExact(limits: Q.Limits, actions: seq<Action>)
    requires actions != [] && AlwaysExact(limits, actions)
    ensures AlwaysExact(limits, actions[..|actions| - 1]) && Exact(SlotsOf(Run(limits, actions).gate))
  {
    hide Run, Exact, SlotsOf;
    var shorter := actions[..|actions| - 1];
    forall k | 0 <= k <= |shorter| ensures Exact(SlotsOf(Run(limits, shorter[..k]).gate)) {
      assert shorter[..k] == actions[..k];
    }
    assert actions[..|actions|] == actions;
  }

  lemma LongerIsExact(limits: Q.Limits, actions: seq<Action>)
    requires actions != [] && AlwaysExact(limits, actions[..|actions| - 1])
    requires Exact(SlotsOf(Run(limits, actions).gate))
    ensures AlwaysExact(limits, actions)
  {
    hide Run, Exact, SlotsOf;
    var shorter := actions[..|actions| - 1];
    forall k | 0 <= k <= |actions| ensures Exact(SlotsOf(Run(limits, actions[..k]).gate)) {
      if k == |actions| {
        assert actions[..k] == actions;
      } else {
        assert actions[..k] == shorter[..k];
      }
    }
  }

  /** The bookkeeping is exact throughout a run if and only if no action of the run releases what is not its own. */
  lemma {:induction false} AlwaysExactIff(limits: Q.Limits, actions: seq<Action>)
    ensures AlwaysExact(limits, actions) <==> NeverRobs(limits, actions)
  {
    if actions == [] {
      assert actions[..0] == [];
    } else {
      hide RobsAnother, Exact, NeverRobs, AlwaysExact, Step, Held;
      var n := |actions| - 1;
      AlwaysExactIff(limits, actions[..n]);
      NeverRobsPrefix(limits, actions);
      AlwaysExactPrefix(limits, actions);
      RunIsHeld(limits, actions[..n]);
      if AlwaysExact(limits, actions[..n]) {
        LastIsExact(limits, actions[..n]);
        StepKeepsExactIff(Run(limits, actions[..n]), actions[n]);
      }
    }
  }

  lemma LastIsExact(limits: Q.Limits, actions: seq<Action>)
    requires AlwaysExact(limits, actions)
    ensures Exact(SlotsOf(Run(limits, actions).gate))
  {
    hide Run, Exact;
    assert actions[..|actions|] == actions;
  }
}
