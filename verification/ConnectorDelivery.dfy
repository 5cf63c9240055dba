/**
 The connector routes as a state machine. One action is the code a task runs between two suspension points:
 a request handler up to its first await, a worker from one await to the next, or a delivered cancellation.
 Any number of webhook workers and retries run beside each other over one store, and the process may restart.
 */
module ConnectorDelivery {
  import opened Wrappers
  import opened TurnStore
  import opened ConnectorGate
  import Q = QqAdmission

  datatype Phase = ProcessingPhase | SendingPhase

  /** How a worker ended: with a response (409 with outcome "unknown", or any other), or by cancellation. */
  datatype Answer = UnknownResponse | PlainResponse | WasCancelled

  /** Where a worker is suspended. */
  datatype Pc = Queued | Turn | Send | Notify(answer: Answer, inTry: bool) | Done(answer: Answer)

  /** Whether Discord is told before the worker ends, and whether that happens inside the worker's `try`. */
  datatype Notice = NoNotice | InTry | InHandler

  datatype Worker = Worker(
    key: Key,
    isRetry: bool,
    pc: Pc,
    pendingCreated: bool,
    reply: string,
    sendStarted: bool,
    cancelRequested: bool)

  datatype TurnOutcome =
    | TurnCancelled(replayed: bool)
    | UnknownEffect(replayed: bool)
    | Replied(text: string, replayed: bool)
    | TurnRaised

  /** A field of a provider's answer as the route tests it. */
  datatype Flag = Absent | IsTrue | IsFalse | OtherValue

  datatype ProviderAnswer =
    | NotAMapping
    | Mapping(outcomeUnknown: bool, ok: Flag, sent: Flag, statusCode: Option<int>, saysEmpty: bool)

  datatype SendOutcome = Answered(answer: ProviderAnswer) | SendRaised

  predicate DeliverySucceeded(answer: ProviderAnswer) {
    answer.Mapping?
    && !answer.outcomeUnknown
    && (answer.ok == IsTrue
        || (answer.ok == Absent && answer.statusCode.Some? && 200 <= answer.statusCode.value < 300))
    && answer.sent != IsFalse
  }

  predicate OutcomeUnknown(answer: ProviderAnswer) {
    answer.Mapping? && answer.outcomeUnknown
  }

  /** What the registry answers a blank reply, for which it calls no provider. */
  const BLANK_ANSWER := Mapping(false, Absent, IsFalse, None, true)

  function Said(reply: string, send: SendOutcome): SendOutcome {
    if reply == "" then Answered(BLANK_ANSWER) else send
  }

  function FailureReason(answer: ProviderAnswer): Reason {
    if answer.Mapping? && answer.saysEmpty then EmptyReply else ProviderRejected
  }

  /** The provider answered, the outcome is not unknown, and it is not a success. */
  predicate IsRefusal(answer: Option<ProviderAnswer>) {
    answer.Some? && !OutcomeUnknown(answer.value) && !DeliverySucceeded(answer.value)
  }

  datatype Event =
    | Acquired(who: Owner, key: Key)
    | SendStarted(who: Owner, key: Key)
    | FailureRecorded(who: Owner, key: Key, reason: Reason, answer: Option<ProviderAnswer>)
    | SuccessRecorded(who: Owner, key: Key)
    | Resolved(key: Key, delivered: bool)
    | CancelRequested(who: Owner, key: Key)
    | CancelRefused(who: Owner, key: Key)
    | CancelConfirmed(who: Owner, key: Key)

  datatype World = World(
    rows: Rows,
    workers: map<Owner, Worker>,
    tasks: map<Key, Owner>,
    phases: map<Key, Phase>,
    eventIds: map<Key, string>,
    nextOwner: Owner,
    now: int,
    log: seq<Event>,
    gate: Gate)

  function Start(limits: Q.Limits): World {
    World(map[], map[], map[], map[], map[], 0, 0, [], Opened(limits, 0))
  }

  datatype Action =
    | WebhookArrives(key: Key, visit: Visit, fastAck: bool)
    | WebhookEnters(id: Owner)
    | TurnReturns(id: Owner, turn: TurnOutcome)
    | SendReturns(id: Owner, send: SendOutcome)
    | NotifyReturns(id: Owner)
    | CancelLands(id: Owner)
    | CancelRoute(key: Key)
    | CancelReturns(id: Owner)
    | Cleanup(id: Owner)
    | Callback(id: Owner)
    | RetryArrives(key: Key, visit: Visit)
    | Scan(key: Key, visit: Visit)
    | Listed(key: Key)
    | ResolveRoute(key: Key, delivered: bool)
    | Restart
    | ClockMoves(to: int)

  /** What a store call leaves in the log. */
  function Recorded(op: Op, verdict: Verdict): seq<Event> {
    match op
    case ClaimDelivery(k, who, _) => if verdict == Claimed then [Acquired(who, k)] else []
    case PromoteTurnRetry(k, who, _) => if verdict == Hit then [Acquired(who, k)] else []
    case MarkSent(k, who) => if verdict == Hit then [SuccessRecorded(who, k)] else []
    case Resolve(k, delivered) => if verdict == Hit then [Resolved(k, delivered)] else []
    case _ => []
  }

  function VerdictOf(w: World, op: Op): Verdict {
    Apply(w.rows, op, w.now).verdict
  }

  function Do(w: World, op: Op): World {
    var result := Apply(w.rows, op, w.now);
    w.(rows := result.rows, log := w.log + Recorded(op, result.verdict))
  }

  /** A worker records its failure, with the provider's answer if there was one. */
  function Fail(w: World, id: Owner, reason: Reason, answer: Option<ProviderAnswer>): World
    requires id in w.workers
  {
    var key := w.workers[id].key;
    var result := Apply(w.rows, MarkFailed(key, id, reason), w.now);
    w.(rows := result.rows,
       log := if result.verdict == Hit then w.log + [FailureRecorded(id, key, reason, answer)] else w.log)
  }

  function Put(w: World, id: Owner, worker: Worker): World {
    w.(workers := w.workers[id := worker])
  }

  /** Discord alone awaits a status update before its worker ends. A task that has not run has no `finally` to run. */
  function Finish(w: World, id: Owner, answer: Answer, notice: Notice): World
    requires id in w.workers
  {
    var worker := w.workers[id];
    var discord := notice != NoNotice && !worker.isRetry && worker.key.connector == Discord;
    var pc := if discord then Notify(answer, notice.InTry?) else Done(answer);
    w.(workers := w.workers[id := worker.(pc := pc)],
       gate := if worker.isRetry || worker.pc != Queued then Left(w.gate, worker.key, id) else w.gate)
  }

  /** Marks the phase of a webhook worker and calls the registry, and it the provider unless the reply is blank. */
  function StartSend(w: World, id: Owner, reply: string): World
    requires id in w.workers
  {
    var worker := w.workers[id];
    w.(workers := w.workers[id := worker.(pc := Send, reply := reply, sendStarted := true)],
       phases := if worker.isRetry then w.phases else w.phases[worker.key := SendingPhase],
       log := w.log + [SendStarted(id, worker.key)])
  }

  predicate Running(w: World, id: Owner) {
    id in w.workers && !w.workers[id].pc.Done?
  }

  predicate TaskActive(w: World, key: Key) {
    key in w.tasks && Running(w, w.tasks[key])
  }

  predicate HasStatus(w: World, key: Key, status: Status) {
    key in w.rows && w.rows[key].status == status
  }

  function Recover(w: World, key: Key): World {
    if HasStatus(w, key, Processing) then Do(w, RecoverStale(key)) else w
  }

  predicate ReplyBlank(row: Row) {
    row.reply.None? || row.reply.value == ""
  }

  function Webhook(w: World, key: Key, v: Visit, fastAck: bool): World {
    if !v.allowed || TaskActive(w, key) then w else
    var w1 := Recover(w, key);
    if HasStatus(w1, key, Processing) || HasStatus(w1, key, Delivered) || HasStatus(w1, key, Sending)
       || (HasStatus(w1, key, Failed) && ReplyBlank(w1.rows[key]))
    then w1 else
    var early := fastAck || key.connector == Discord;
    var (gate, pass) := Pass(w1.gate, key, v, key in w1.rows, early);
    if pass.None? then w1.(gate := gate) else MakeTask(w1.(gate := gate), key, early, pass.value)
  }

  /** The event is recorded early where the provider is answered before the turn, and a task is made. */
  function MakeTask(w: World, key: Key, early: bool, answer: Q.Decision): World {
    var id := w.nextOwner;
    var created := early && VerdictOf(w, RecordPending(key, id)) == Hit;
    var w1 := if early then Do(w, RecordPending(key, id)) else w;
    w1.(workers := w1.workers[id := Worker(key, false, Queued, created, "", false, false)],
        tasks := w1.tasks[key := id],
        phases := w1.phases[key := ProcessingPhase],
        eventIds := w1.eventIds[key := key.event],
        nextOwner := id + 1,
        gate := Launched(w1.gate, key, id, answer))
  }

  function Enter(w: World, id: Owner): World {
    if !(id in w.workers && w.workers[id].pc == Queued && !w.workers[id].cancelRequested) then w else
    var worker := w.workers[id];
    if worker.pendingCreated then Put(w, id, worker.(pc := Turn)) else
    var op := RecordPending(worker.key, id);
    Put(Do(w, op), id, worker.(pc := Turn, pendingCreated := VerdictOf(w, op) == Hit))
  }

  function DiscardOwnPending(w: World, id: Owner): World
    requires id in w.workers
  {
    if w.workers[id].pendingCreated then Do(w, DiscardPending(w.workers[id].key, id)) else w
  }

  function WebhookTurn(w: World, id: Owner, turn: TurnOutcome): World
    requires id in w.workers
  {
    var worker := w.workers[id];
    match turn
    case TurnCancelled(_) => Finish(DiscardOwnPending(w, id), id, PlainResponse, InTry)
    case UnknownEffect(_) => Finish(DiscardOwnPending(w, id), id, UnknownResponse, InTry)
    case TurnRaised => Finish(Do(w, MarkTurnFailed(worker.key, id, TurnFailed)), id, PlainResponse, InHandler)
    case Replied(text, replayed) =>
      if replayed && HasStatus(w, worker.key, Sending) then Finish(w, id, UnknownResponse, NoNotice) else
      var op := ClaimDelivery(worker.key, id, text);
      var verdict := VerdictOf(w, op);
      if verdict == Claimed then StartSend(Do(w, op), id, text)
      else Finish(Do(w, op), id, if verdict == Unknown then UnknownResponse else PlainResponse, NoNotice)
  }

  function RetryTurn(w: World, id: Owner, turn: TurnOutcome): World
    requires id in w.workers
  {
    var key := w.workers[id].key;
    match turn
    case TurnCancelled(_) => Finish(Do(w, ReleaseTurnRetry(key, id, EventCancelled)), id, PlainResponse, NoNotice)
    case UnknownEffect(_) => Finish(Do(w, ReleaseTurnRetry(key, id, EventStateUnknown)), id, PlainResponse, NoNotice)
    case TurnRaised => Finish(Do(w, ReleaseTurnRetry(key, id, TurnException)), id, PlainResponse, NoNotice)
    case Replied(text, _) =>
      var op := PromoteTurnRetry(key, id, text);
      if text != "" && VerdictOf(w, op) == Hit then StartSend(Do(w, op), id, text)
      else Finish(Do(w, ReleaseTurnRetry(key, id, TurnException)), id, PlainResponse, NoNotice)
  }

  function TurnDone(w: World, id: Owner, turn: TurnOutcome): World {
    if !(id in w.workers && w.workers[id].pc == Turn) then w
    else if w.workers[id].isRetry then RetryTurn(w, id, turn)
    else WebhookTurn(if turn.TurnRaised? || !turn.replayed then w else RefundTurn(w, id), id, turn)
  }

  function RefundTurn(w: World, id: Owner): World
    requires id in w.workers
  {
    w.(gate := Refunded(w.gate, w.workers[id].key, id))
  }

  function SendDone(w: World, id: Owner, send: SendOutcome): World {
    if !(id in w.workers && w.workers[id].pc == Send) then w else
    var worker := w.workers[id];
    var key := worker.key;
    match Said(worker.reply, send)
    case SendRaised =>
      if key.connector == Qq then Finish(w, id, UnknownResponse, NoNotice)
      else Finish(Fail(w, id, ProviderException, None), id, PlainResponse, InHandler)
    case Answered(answer) =>
      if OutcomeUnknown(answer) then Finish(w, id, UnknownResponse, NoNotice)
      else if !DeliverySucceeded(answer) || (worker.reply == "" && !worker.isRetry) then
        var reason := if worker.reply == "" && !worker.isRetry then EmptyReply else FailureReason(answer);
        Finish(Fail(w, id, reason, Some(answer)), id, PlainResponse, InTry)
      else
        var op := MarkSent(key, id);
        Finish(Do(w, op), id, if VerdictOf(w, op) == Hit then PlainResponse else UnknownResponse, NoNotice)
  }

  function NotifyDone(w: World, id: Owner): World {
    if id in w.workers && w.workers[id].pc.Notify?
    then Put(w, id, w.workers[id].(pc := Done(w.workers[id].pc.answer)))
    else w
  }

  /**
   The cancellation error is raised at the await where the worker is suspended. A worker that was about to end inside
   its `try` reaches the handler all the same, and tells Discord once more.
   */
  function Cancelled(w: World, id: Owner): World {
    if !Running(w, id) then w else
    var worker := w.workers[id];
    var key := worker.key;
    match worker.pc
    case Turn =>
      if worker.isRetry then Finish(Do(w, ReleaseTurnRetry(key, id, RetryCancelled)), id, WasCancelled, NoNotice)
      else Finish(DiscardOwnPending(w, id), id, WasCancelled, InHandler)
    case Send =>
      if worker.isRetry && key.connector != Qq
      then Finish(Fail(w, id, RetryCancelled, None), id, WasCancelled, NoNotice)
      else Finish(w, id, WasCancelled, InHandler)
    case Notify(_, inTry) =>
      if !inTry then Finish(w, id, WasCancelled, NoNotice)
      else Finish(if worker.sendStarted then w else DiscardOwnPending(w, id), id, WasCancelled, InHandler)
    case _ => Finish(w, id, WasCancelled, NoNotice)
  }

  function CancelRequest(w: World, key: Key): World {
    if !TaskActive(w, key) then Recover(w, key) else
    var id := w.tasks[key];
    if key in w.phases && w.phases[key] == SendingPhase then w.(log := w.log + [CancelRefused(id, key)])
    else
      var asked := w.workers[id].(cancelRequested := true);
      w.(workers := w.workers[id := asked], log := w.log + [CancelRequested(id, key)])
  }

  function Forget(w: World, id: Owner): World
    requires id in w.workers
  {
    var key := w.workers[id].key;
    if key in w.tasks && w.tasks[key] == id
    then w.(tasks := w.tasks - {key}, phases := w.phases - {key}, eventIds := w.eventIds - {key})
    else w
  }

  /** A cancel request resumes after the task it awaited has ended. */
  function CancelDone(w: World, id: Owner): World {
    if !(id in w.workers && w.workers[id].pc.Done? && w.workers[id].cancelRequested) then w else
    var w1 := Forget(w, id);
    if w.workers[id].pc.answer == UnknownResponse then w1
    else w1.(log := w1.log + [CancelConfirmed(id, w.workers[id].key)])
  }

  function CleanedUp(w: World, id: Owner): World {
    if id in w.workers && w.workers[id].pc.Done? && !w.workers[id].isRetry then Forget(w, id) else w
  }

  /** The callback that releases the event of a QQ task once more, a loop turn after the task has ended. */
  function CallbackRuns(w: World, id: Owner): World {
    if id in w.gate.callbacks && !Running(w, id) then w.(gate := CalledBack(w.gate, id)) else w
  }

  /** The retry route reserves before it looks further, and releases when it returns. */
  function Retry(w: World, key: Key, v: Visit): World {
    if key !in w.rows || HasStatus(w, key, Delivered) || (key.connector == Qq && HasStatus(w, key, Sending)) || !v.allowed
    then w
    else if key.connector != Qq then RetryBody(w, key)
    else
      var taken := w.(gate := Tabled(w.gate, Q.Reserve(key.event, v.session, true, v.first)));
      if !Asked(w.gate, key.event, v.session, true, v.first).admitted then taken
      else
        var w1 := RetryBody(taken, key);
        if w1.nextOwner == w.nextOwner then w1.(gate := Tabled(w1.gate, Q.Finish(key.event)))
        else w1.(gate := Held(w1.gate, w.nextOwner, key.event))
  }

  function RetryBody(w: World, key: Key): World
    requires key in w.rows
  {
    if HasStatus(w, key, Delivered) || (HasStatus(w, key, Processing) && TaskActive(w, key)) then w else
    var w1 := Recover(w, key);
    if HasStatus(w1, key, Processing) then w1 else RetryClaim(w1, key)
  }

  /** A turn that failed before it had a reply is run again; a stored reply is only sent again. */
  function RetryClaim(w: World, key: Key): World
    requires key in w.rows
  {
    var row := w.rows[key];
    var again := ReplyBlank(row) && row.lastError in {Some(TurnFailed), Some(TurnException), Some(TurnInterrupted)};
    if ReplyBlank(row) && !again then w else
    var id := w.nextOwner;
    var op := if again then ClaimTurnRetry(key, id) else ClaimDelivery(key, id, row.reply.GetOr(""));
    if VerdictOf(w, op) != Claimed then w else
    var claimed := Do(w, op).(
      nextOwner := id + 1,
      workers := w.workers[id := Worker(key, true, Turn, false, "", false, false)]);
    if again then claimed else StartSend(claimed, id, row.reply.GetOr(""))
  }

  /** The recovery scan of one row: a row it recovers is retried at once. */
  function ScanRow(w: World, key: Key, v: Visit): World {
    if TaskActive(w, key) || VerdictOf(w, RecoverStale(key)) != Hit then w
    else Retry(Do(w, RecoverStale(key)), key, v)
  }

  function Resolution(w: World, key: Key, delivered: bool): World {
    if TaskActive(w, key) then w else Do(w, Resolve(key, delivered))
  }

  /** A new process has the rows, and none of the dictionaries. */
  function Restarted(w: World): World {
    w.(workers := map[], tasks := map[], phases := map[], eventIds := map[],
       gate := Opened(w.gate.limits, w.gate.tables.last))
  }

  function Step(w: World, a: Action): World {
    match a
    case WebhookArrives(key, visit, fastAck) => Webhook(w, key, visit, fastAck)
    case WebhookEnters(id) => Enter(w, id)
    case TurnReturns(id, turn) => TurnDone(w, id, turn)
    case SendReturns(id, send) => SendDone(w, id, send)
    case NotifyReturns(id) => NotifyDone(w, id)
    case CancelLands(id) => Cancelled(w, id)
    case CancelRoute(key) => CancelRequest(w, key)
    case CancelReturns(id) => CancelDone(w, id)
    case Cleanup(id) => CleanedUp(w, id)
    case Callback(id) => CallbackRuns(w, id)
    case RetryArrives(key, visit) => Retry(w, key, visit)
    case Scan(key, visit) => ScanRow(w, key, visit)
    case Listed(key) => if TaskActive(w, key) then w else Recover(w, key)
    case ResolveRoute(key, delivered) => Resolution(w, key, delivered)
    case Restart => Restarted(w)
    case ClockMoves(to) => w.(now := to)
  }

  function Run(limits: Q.Limits, actions: seq<Action>): World {
    if actions == [] then Start(limits) else Step(Run(limits, actions[..|actions| - 1]), actions[|actions| - 1])
  }

  // ---------------------------------------------------------------- no blind resend

  /** The owner whose send for `key` has started and whose outcome is still open. */
  ghost function OpenSend(log: seq<Event>, key: Key): Option<Owner> {
    if log == [] then None else
    var before := OpenSend(log[..|log| - 1], key);
    match log[|log| - 1]
    case SendStarted(who, k) => if k == key then Some(who) else before
    case FailureRecorded(who, k, _, answer) =>
      if k == key && before == Some(who) && IsRefusal(answer) then None else before
    case Resolved(k, delivered) => if k == key && !delivered then None else before
    case _ => before
  }

  ghost predicate Delivers(e: Event, key: Key) {
    match e
    case SuccessRecorded(_, k) => k == key
    case Resolved(k, delivered) => k == key && delivered
    case _ => false
  }

  ghost predicate DeliveredIn(log: seq<Event>, key: Key) {
    exists i :: 0 <= i < |log| && Delivers(log[i], key)
  }

  /** Settles the send of `who`: the provider said no and `who` recorded it, or an operator resolved it to failed. */
  ghost predicate Settles(e: Event, who: Owner, key: Key) {
    match e
    case FailureRecorded(o, k, _, answer) => o == who && k == key && IsRefusal(answer)
    case Resolved(k, delivered) => k == key && !delivered
    case _ => false
  }

  ghost predicate SettledBetween(log: seq<Event>, i: nat, j: nat, who: Owner, key: Key) {
    exists m :: i < m < j && m < |log| && Settles(log[m], who, key)
  }

  ghost predicate NoBlindResend(log: seq<Event>) {
    forall i: nat, j: nat ::
      i < j < |log| && log[i].SendStarted? && log[j].SendStarted? && log[i].key == log[j].key
      && log[i].key.connector == Qq
      ==> SettledBetween(log, i, j, log[i].who, log[i].key)
  }

  ghost predicate NeverAfterDelivery(log: seq<Event>) {
    forall i: nat, j: nat :: i < j < |log| && log[j].SendStarted? ==> !Delivers(log[i], log[j].key)
  }

  ghost predicate SendsFollowAcquisition(log: seq<Event>) {
    forall j: nat :: j < |log| && log[j].SendStarted? ==> j > 0 && log[j - 1] == Acquired(log[j].who, log[j].key)
  }

  /** A blank reply was recorded as a failure: no route acquires such a row again. */
  predicate Barred(rows: Rows, key: Key) {
    && key in rows
    && rows[key].status == Failed
    && rows[key].owner.None?
    && ReplyBlank(rows[key])
    && rows[key].lastError == Some(EmptyReply)
  }

  ghost predicate Fenced(rows: Rows, log: seq<Event>, key: Key) {
    && (DeliveredIn(log, key) ==> key in rows && rows[key].status == Delivered)
    && (key.connector == Qq && OpenSend(log, key).Some? ==>
          key in rows
          && (rows[key].status == Delivered
              || (rows[key].status == Sending && rows[key].owner == OpenSend(log, key))))
  }

  /** The provider, or the registry for a blank reply, said no wherever a QQ worker recorded a failure. */
  ghost predicate FailuresAreRefusals(log: seq<Event>) {
    forall i :: 0 <= i < |log| && log[i].FailureRecorded? && log[i].key.connector == Qq ==> IsRefusal(log[i].answer)
  }

  ghost predicate Safe(rows: Rows, log: seq<Event>) {
    && (forall key :: Fenced(rows, log, key))
    && NoBlindResend(log)
    && NeverAfterDelivery(log)
    && SendsFollowAcquisition(log)
    && FailuresAreRefusals(log)
  }
}
