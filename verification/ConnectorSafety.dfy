/** Theorems about every run of the connector routes. */
module ConnectorSafety {
  import opened Wrappers
  import opened TurnStore
  import opened ConnectorDelivery
  import opened ConnectorGate
  import C = ConnectorCancel
  import Q = QqAdmission

  // ---------------------------------------------------------------- the log

  lemma OpenSendSnoc(log: seq<Event>, e: Event, key: Key)
    ensures OpenSend(log + [e], key)
            == (match e
                case SendStarted(who, k) => if k == key then Some(who) else OpenSend(log, key)
                case FailureRecorded(who, k, _, answer) =>
                  if k == key && OpenSend(log, key) == Some(who) && IsRefusal(answer) then None
                  else OpenSend(log, key)
                case Resolved(k, delivered) => if k == key && !delivered then None else OpenSend(log, key)
                case _ => OpenSend(log, key))
  {
    assert (log + [e])[..|log|] == log;
  }

  lemma DeliveredInSnoc(log: seq<Event>, e: Event, key: Key)
    ensures DeliveredIn(log + [e], key) <==> DeliveredIn(log, key) || Delivers(e, key)
  {
    var longer := log + [e];
    assert longer[|log|] == e;
    if DeliveredIn(log, key) {
      var i :| 0 <= i < |log| && Delivers(log[i], key);
      assert longer[i] == log[i];
    }
  }

  /** A QQ send that has started is either still open or has been settled since. */
  lemma {:induction false} OpenOrSettled(log: seq<Event>, i: nat)
    requires NoBlindResend(log)
    requires i < |log| && log[i].SendStarted? && log[i].key.connector == Qq
    ensures OpenSend(log, log[i].key) == Some(log[i].who)
            || SettledBetween(log, i, |log|, log[i].who, log[i].key)
  {
    var who, key, last := log[i].who, log[i].key, |log| - 1;
    var before, e := log[..last], log[last];
    assert log == before + [e];
    OpenSendSnoc(before, e, key);
    if i < last {
      assert NoBlindResend(before) by { PrefixNoBlind(log, last); }
      OpenOrSettled(before, i);
      if SettledBetween(before, i, last, who, key) {
        var m :| i < m < last && Settles(before[m], who, key);
        assert Settles(log[m], who, key);
      } else if e.SendStarted? && e.key == key {
        assert SettledBetween(log, i, last, who, key);
      } else if OpenSend(log, key) != Some(who) {
        assert Settles(log[last], who, key);
      }
    }
  }

  lemma PrefixNoBlind(log: seq<Event>, n: nat)
    requires n <= |log| && NoBlindResend(log)
    ensures NoBlindResend(log[..n])
  {
    var short := log[..n];
    forall i: nat, j: nat | i < j < n && short[i].SendStarted? && short[j].SendStarted?
                            && short[i].key == short[j].key && short[i].key.connector == Qq
      ensures SettledBetween(short, i, j, short[i].who, short[i].key)
    {
      assert SettledBetween(log, i, j, log[i].who, log[i].key);
      var m :| i < m < j && Settles(log[m], log[i].who, log[i].key);
      assert Settles(short[m], short[i].who, short[i].key);
    }
  }

  /** An event that starts no send leaves the three properties of the log alone. */
  lemma QuietEvent(log: seq<Event>, e: Event)
    requires NoBlindResend(log) && NeverAfterDelivery(log) && SendsFollowAcquisition(log)
    requires !e.SendStarted?
    ensures NoBlindResend(log + [e]) && NeverAfterDelivery(log + [e]) && SendsFollowAcquisition(log + [e])
  {
    var longer := log + [e];
    forall i: nat, j: nat | i < j < |longer| && longer[i].SendStarted? && longer[j].SendStarted?
                            && longer[i].key == longer[j].key && longer[i].key.connector == Qq
      ensures SettledBetween(longer, i, j, longer[i].who, longer[i].key)
    {
      assert SettledBetween(log, i, j, log[i].who, log[i].key);
      var m :| i < m < j && Settles(log[m], log[i].who, log[i].key);
      assert Settles(longer[m], longer[i].who, longer[i].key);
    }
  }

  /** A send may start when the key's last send is settled, nothing was delivered, and its owner just acquired it. */
  lemma SendEvent(log: seq<Event>, who: Owner, key: Key)
    requires NoBlindResend(log) && NeverAfterDelivery(log) && SendsFollowAcquisition(log)
    requires log != [] && log[|log| - 1] == Acquired(who, key)
    requires !DeliveredIn(log, key)
    requires key.connector == Qq ==> OpenSend(log, key).None?
    ensures var longer := log + [SendStarted(who, key)];
            NoBlindResend(longer) && NeverAfterDelivery(longer) && SendsFollowAcquisition(longer)
  {
    var longer := log + [SendStarted(who, key)];
    forall i: nat, j: nat | i < j < |longer| && longer[i].SendStarted? && longer[j].SendStarted?
                            && longer[i].key == longer[j].key && longer[i].key.connector == Qq
      ensures SettledBetween(longer, i, j, longer[i].who, longer[i].key)
    {
      if j == |log| {
        OpenOrSettled(log, i);
      }
      assert SettledBetween(log, i, j, log[i].who, log[i].key);
      var m :| i < m < j && Settles(log[m], log[i].who, log[i].key);
      assert Settles(longer[m], longer[i].who, longer[i].key);
    }
  }

  /** The owners of the sends of `key`, in their order. */
  ghost function SendsOf(log: seq<Event>, key: Key): seq<Owner> {
    if log == [] then [] else
    var before, e := SendsOf(log[..|log| - 1], key), log[|log| - 1];
    if e.SendStarted? && e.key == key then before + [e.who] else before
  }

  lemma SendsSnoc(log: seq<Event>, e: Event, key: Key)
    ensures SendsOf(log + [e], key)
         == if e.SendStarted? && e.key == key then SendsOf(log, key) + [e.who] else SendsOf(log, key)
  {
    assert (log + [e])[..|log|] == log;
  }

  // ---------------------------------------------------------------- what a worker may rely on

  predicate HoldsSend(rows: Rows, key: Key, who: Owner) {
    key in rows && rows[key].status == Sending && rows[key].owner == Some(who)
  }

  /** A row held by a sending worker carries its reply, and no barred row has a webhook worker before its claim. */
  predicate Fits(rows: Rows, id: Owner, worker: Worker) {
    && (worker.pc == Send && worker.isRetry ==> worker.reply != "")
    && (worker.pc == Send && HoldsSend(rows, worker.key, id) ==> rows[worker.key].reply == Some(worker.reply))
    && (!worker.isRetry && (worker.pc == Queued || worker.pc == Turn) ==> !Barred(rows, worker.key))
  }

  ghost predicate Guarded(rows: Rows, workers: map<Owner, Worker>) {
    forall id {:trigger id in workers} :: id in workers ==> Fits(rows, id, workers[id])
  }

  ghost predicate Inv(w: World) {
    Safe(w.rows, w.log) && Guarded(w.rows, w.workers)
  }

  /** Owners are handed out once, and an event has at most one running webhook worker. */
  ghost predicate Distinct(w: World) {
    && w.nextOwner !in w.workers
    && (forall i, j {:trigger i in w.workers, j in w.workers} ::
          i in w.workers && j in w.workers && Running(w, i) && Running(w, j)
          && !w.workers[i].isRetry && !w.workers[j].isRetry && w.workers[i].key == w.workers[j].key
          ==> i == j)
  }

  lemma MapsMakeDistinct(w: World)
    requires C.CancelInv(C.Mem(w))
    ensures Distinct(w)
  {
    var m := C.Mem(w);
    forall i | i in w.workers && !w.workers[i].pc.Done? && !w.workers[i].isRetry
      ensures w.workers[i].key in w.tasks && w.tasks[w.workers[i].key] == i
    {
      assert i in m.workers;
    }
    assert w.nextOwner in m.workers <==> w.nextOwner in w.workers;
  }

  /** The invariant holds afterwards, and a barred row is still barred and was not sent again. */
  ghost predicate Kept(w: World, after: World) {
    && Inv(after)
    && (forall key :: Barred(w.rows, key) ==>
          Barred(after.rows, key) && SendsOf(after.log, key) == SendsOf(w.log, key))
  }

  // ---------------------------------------------------------------- one store call

  predicate Acquires(op: Op) {
    op.ClaimDelivery? || op.PromoteTurnRetry?
  }

  /** A store call of the routes: only the failure of a send gives the reason `EmptyReply`, no barred row is claimed. */
  predicate Honest(rows: Rows, op: Op) {
    && !op.MarkFailed? && !op.ResetForRetry?
    && (op.MarkTurnFailed? || op.ReleaseTurnRetry? ==> op.reason != EmptyReply)
    && (op.ClaimDelivery? || op.ClaimTurnRetry? ==> !Barred(rows, op.key))
  }

  lemma OpKeepsFit(rows: Rows, op: Op, now: int, id: Owner, worker: Worker)
    requires Fits(rows, id, worker) && Honest(rows, op)
    requires Acquires(op) && op.who == id ==> worker.pc != Send
    ensures Fits(Apply(rows, op, now).rows, id, worker)
  {
    if worker.key != op.key {
      OtherRowsUntouched(rows, op, now, worker.key);
      assert At(Apply(rows, op, now).rows, worker.key) == At(rows, worker.key);
    }
  }

  lemma BarredStays(rows: Rows, op: Op, now: int, key: Key)
    requires Barred(rows, key) && Honest(rows, op)
    ensures At(Apply(rows, op, now).rows, key) == Some(rows[key])
  {
    if key != op.key {
      OtherRowsUntouched(rows, op, now, key);
    }
  }

  /** The fence of a row the call does not name depends on the new log entry only. */
  lemma OtherFence(w: World, op: Op, key: Key)
    requires Fenced(w.rows, w.log, key) && key != op.key
    ensures Fenced(Do(w, op).rows, Do(w, op).log, key)
  {
    OtherRowsUntouched(w.rows, op, w.now, key);
    assert At(Do(w, op).rows, key) == At(w.rows, key);
    DoLog(w, op, key);
  }

  lemma DoLog(w: World, op: Op, key: Key)
    ensures var events, after := Recorded(op, VerdictOf(w, op)), Do(w, op).log;
            && SendsOf(after, key) == SendsOf(w.log, key)
            && (DeliveredIn(after, key) <==> DeliveredIn(w.log, key) || (events != [] && Delivers(events[0], key)))
            && OpenSend(after, key)
               == if events != [] && events[0].Resolved? && events[0].key == key && !events[0].delivered
                  then None else OpenSend(w.log, key)
  {
    var events := Recorded(op, VerdictOf(w, op));
    if events == [] {
      assert Do(w, op).log == w.log;
    } else {
      OpenSendSnoc(w.log, events[0], key);
      DeliveredInSnoc(w.log, events[0], key);
      SendsSnoc(w.log, events[0], key);
    }
  }

  lemma OwnFence(w: World, op: Op)
    requires Fenced(w.rows, w.log, op.key) && Honest(w.rows, op)
    ensures Fenced(Do(w, op).rows, Do(w, op).log, op.key)
  {
    var key := op.key;
    DoLog(w, op, key);
    if key in w.rows && w.rows[key].status == Delivered {
      DeliveredIsFinal(w.rows, op, w.now, key);
      assert At(Do(w, op).rows, key) == Some(w.rows[key]);
    } else if Barred(w.rows, key) {
      BarredStays(w.rows, op, w.now, key);
      assert At(Do(w, op).rows, key) == Some(w.rows[key]);
    } else if key in w.rows && w.rows[key].status == Sending && key.connector == Qq {
      QqSendingFence(w.rows, op, w.now, key);
    }
  }

  lemma DoKeepsSafe(w: World, op: Op)
    requires Safe(w.rows, w.log) && Honest(w.rows, op)
    ensures Safe(Do(w, op).rows, Do(w, op).log)
  {
    forall key ensures Fenced(Do(w, op).rows, Do(w, op).log, key) {
      assert Fenced(w.rows, w.log, key);
      if key == op.key { OwnFence(w, op); } else { OtherFence(w, op, key); }
    }
    var events := Recorded(op, VerdictOf(w, op));
    if events == [] {
      assert Do(w, op).log == w.log;
    } else {
      QuietEvent(w.log, events[0]);
    }
  }

  lemma DoKeeps(w: World, op: Op)
    requires Inv(w) && Honest(w.rows, op)
    requires Acquires(op) && op.who in w.workers ==> w.workers[op.who].pc != Send
    ensures Kept(w, Do(w, op))
  {
    DoKeepsSafe(w, op);
    forall id | id in w.workers ensures Fits(Do(w, op).rows, id, w.workers[id]) {
      OpKeepsFit(w.rows, op, w.now, id, w.workers[id]);
    }
    forall key | Barred(w.rows, key)
      ensures Barred(Do(w, op).rows, key) && SendsOf(Do(w, op).log, key) == SendsOf(w.log, key)
    {
      BarredStays(w.rows, op, w.now, key);
      DoLog(w, op, key);
    }
  }

  lemma KeptTwice(w: World, mid: World, after: World)
    requires Kept(w, mid) && Kept(mid, after)
    ensures Kept(w, after)
  {
  }

  // ---------------------------------------------------------------- a failure is recorded

  /** The failures a QQ worker records are refusals. */
  predicate FailsFairly(worker: Worker, answer: Option<ProviderAnswer>) {
    worker.key.connector == Qq ==> IsRefusal(answer)
  }

  lemma FailLog(log: seq<Event>, e: Event, key: Key)
    requires e.FailureRecorded?
    ensures SendsOf(log + [e], key) == SendsOf(log, key)
    ensures DeliveredIn(log + [e], key) <==> DeliveredIn(log, key)
    ensures OpenSend(log + [e], key)
         == if e.key == key && OpenSend(log, key) == Some(e.who) && IsRefusal(e.answer) then None else OpenSend(log, key)
  {
    OpenSendSnoc(log, e, key);
    DeliveredInSnoc(log, e, key);
    SendsSnoc(log, e, key);
  }

  lemma FailKeepsFences(w: World, id: Owner, reason: Reason, answer: Option<ProviderAnswer>, key: Key)
    requires Inv(w) && id in w.workers && w.workers[id].pc == Send
    requires FailsFairly(w.workers[id], answer)
    requires HoldsSend(w.rows, w.workers[id].key, id)
    ensures var after := Fail(w, id, reason, answer); Fenced(after.rows, after.log, key)
  {
    assert Fenced(w.rows, w.log, key);
    assert Fits(w.rows, id, w.workers[id]);
    FailLog(w.log, FailureRecorded(id, w.workers[id].key, reason, answer), key);
  }

  /** Only the holder of a sending row fails it, and only a row with a blank reply is barred by that. */
  lemma FailKeepsFit(w: World, id: Owner, reason: Reason, answer: Option<ProviderAnswer>, other: Owner)
    requires Inv(w) && Distinct(w) && id in w.workers && w.workers[id].pc == Send && other in w.workers
    requires HoldsSend(w.rows, w.workers[id].key, id)
    ensures Fits(Fail(w, id, reason, answer).rows, other, w.workers[other])
  {
    assert Fits(w.rows, id, w.workers[id]) && Fits(w.rows, other, w.workers[other]);
  }

  lemma FailKeeps(w: World, id: Owner, reason: Reason, answer: Option<ProviderAnswer>)
    requires Inv(w) && Distinct(w) && id in w.workers && w.workers[id].pc == Send
    requires FailsFairly(w.workers[id], answer)
    ensures Kept(w, Fail(w, id, reason, answer))
  {
    var key, after := w.workers[id].key, Fail(w, id, reason, answer);
    if HoldsSend(w.rows, key, id) {
      var e := FailureRecorded(id, key, reason, answer);
      QuietEvent(w.log, e);
      forall k ensures Fenced(after.rows, after.log, k) { FailKeepsFences(w, id, reason, answer, k); }
      forall other | other in w.workers ensures Fits(after.rows, other, w.workers[other]) {
        FailKeepsFit(w, id, reason, answer, other);
      }
      forall k | Barred(w.rows, k) ensures Barred(after.rows, k) && SendsOf(after.log, k) == SendsOf(w.log, k) {
        FailLog(w.log, e, k);
      }
    }
  }

  // ---------------------------------------------------------------- a send starts

  /** A successful claim or promotion proves that nothing is open and nothing was delivered. */
  lemma AcquisitionIsClear(w: World, op: Op)
    requires Safe(w.rows, w.log)
    requires (op.ClaimDelivery? && VerdictOf(w, op) == Claimed) || (op.PromoteTurnRetry? && VerdictOf(w, op) == Hit)
    ensures var after := Do(w, op);
            && after.log == w.log + [Acquired(op.who, op.key)]
            && !DeliveredIn(after.log, op.key)
            && (op.key.connector == Qq ==> OpenSend(after.log, op.key).None?)
            && op.key in after.rows && after.rows[op.key].status == Sending && after.rows[op.key].owner == Some(op.who)
  {
    assert Fenced(w.rows, w.log, op.key);
    OpenSendSnoc(w.log, Acquired(op.who, op.key), op.key);
    DeliveredInSnoc(w.log, Acquired(op.who, op.key), op.key);
  }

  lemma SendKeepsSafe(rows: Rows, log: seq<Event>, who: Owner, key: Key)
    requires Safe(rows, log)
    requires log != [] && log[|log| - 1] == Acquired(who, key)
    requires !DeliveredIn(log, key)
    requires key.connector == Qq ==> OpenSend(log, key).None?
    requires key in rows && rows[key].status == Sending && rows[key].owner == Some(who)
    ensures Safe(rows, log + [SendStarted(who, key)])
  {
    var e := SendStarted(who, key);
    SendEvent(log, who, key);
    forall k ensures Fenced(rows, log + [e], k) {
      assert Fenced(rows, log, k);
      OpenSendSnoc(log, e, k);
      DeliveredInSnoc(log, e, k);
    }
  }

  /** A worker that has just acquired its row starts the send of the reply it stored there. */
  lemma StartKeeps(w: World, id: Owner, reply: string)
    requires Inv(w) && id in w.workers && HoldsSend(w.rows, w.workers[id].key, id)
    requires var key := w.workers[id].key;
             && w.log != [] && w.log[|w.log| - 1] == Acquired(id, key)
             && !DeliveredIn(w.log, key)
             && (key.connector == Qq ==> OpenSend(w.log, key).None?)
             && w.rows[key].reply == Some(reply)
             && (w.workers[id].isRetry ==> reply != "")
    ensures Kept(w, StartSend(w, id, reply))
  {
    var key, after := w.workers[id].key, StartSend(w, id, reply);
    SendKeepsSafe(w.rows, w.log, id, key);
    forall other | other in after.workers ensures Fits(after.rows, other, after.workers[other]) {
      assert other in w.workers;
    }
    forall k | Barred(w.rows, k) ensures SendsOf(after.log, k) == SendsOf(w.log, k) {
      SendsSnoc(w.log, SendStarted(id, key), k);
    }
  }

  lemma PromotedIsNotBarred(w: World, op: Op)
    requires op.PromoteTurnRetry? && VerdictOf(w, op) == Hit
    ensures !Barred(w.rows, op.key)
  {
  }

  lemma AcquireThenSend(w: World, op: Op, id: Owner, reply: string)
    requires Inv(w) && Honest(w.rows, op) && Acquires(op) && VerdictOf(w, op) == (if op.ClaimDelivery? then Claimed else Hit)
    requires id in w.workers && w.workers[id].pc == Turn && w.workers[id].key == op.key && op.who == id && op.text == reply
    requires w.workers[id].isRetry ==> reply != ""
    ensures Kept(w, StartSend(Do(w, op), id, reply))
  {
    hide Safe, OpenSend, DeliveredIn, SendsOf, Guarded;
    if op.PromoteTurnRetry? { PromotedIsNotBarred(w, op); }
    DoKeeps(w, op);
    AcquisitionIsClear(w, op);
    StartKeeps(Do(w, op), id, reply);
    KeptTwice(w, Do(w, op), StartSend(Do(w, op), id, reply));
  }

  // ---------------------------------------------------------------- changes that touch no row

  /** Workers that end or are asked to end, without a word about a send, keep everything. */
  lemma QuieterKeeps(w: World, after: World)
    requires Inv(w) && after.rows == w.rows && after.log == w.log
    requires forall id {:trigger id in after.workers} :: id in after.workers ==>
               && id in w.workers
               && var old0, new0 := w.workers[id], after.workers[id];
               && new0.key == old0.key && new0.isRetry == old0.isRetry && new0.reply == old0.reply
               && (new0.pc == old0.pc || new0.pc.Notify? || new0.pc.Done? || (old0.pc == Queued && new0.pc == Turn))
    ensures Kept(w, after)
  {
    forall id | id in after.workers ensures Fits(after.rows, id, after.workers[id]) {
      assert Fits(w.rows, id, w.workers[id]);
    }
  }

  lemma FinishKeeps(w: World, id: Owner, answer: Answer, notice: Notice)
    requires Inv(w) && id in w.workers
    ensures Kept(w, Finish(w, id, answer, notice))
  {
    QuieterKeeps(w, Finish(w, id, answer, notice));
  }

  /** A call of a worker, after which it ends. */
  lemma DoThenFinish(w: World, op: Op, id: Owner, answer: Answer, notice: Notice)
    requires Inv(w) && id in w.workers && Honest(w.rows, op)
    requires Acquires(op) ==> op.who == id && w.workers[id].pc != Send
    ensures Kept(w, Finish(Do(w, op), id, answer, notice))
  {
    hide Finish, Do, Inv, Honest;
    DoKeeps(w, op);
    DoIsLocal(w, op, w);
    FinishKeeps(Do(w, op), id, answer, notice);
    KeptTwice(w, Do(w, op), Finish(Do(w, op), id, answer, notice));
  }

  /** An entry about a cancellation. */
  lemma NoteKeeps(w: World, after: World, e: Event)
    requires Inv(w) && (e.CancelRequested? || e.CancelRefused? || e.CancelConfirmed?)
    requires after.rows == w.rows && after.log == w.log + [e]
    requires Guarded(w.rows, after.workers)
    ensures Kept(w, after)
  {
    QuietEvent(w.log, e);
    forall k ensures Fenced(w.rows, after.log, k) && SendsOf(after.log, k) == SendsOf(w.log, k) {
      assert Fenced(w.rows, w.log, k);
      OpenSendSnoc(w.log, e, k);
      DeliveredInSnoc(w.log, e, k);
      SendsSnoc(w.log, e, k);
    }
  }

  /** A new worker of a row that is not barred. */
  lemma NewWorkerKeeps(w: World, after: World, worker: Worker)
    requires Inv(w) && Distinct(w) && after.rows == w.rows && after.log == w.log
    requires after.workers == w.workers[w.nextOwner := worker]
    requires worker.pc == Queued || worker.pc == Turn
    requires !worker.isRetry ==> !Barred(w.rows, worker.key)
    ensures Kept(w, after)
  {
    forall id | id in after.workers ensures Fits(after.rows, id, after.workers[id]) {
      if id != w.nextOwner { assert Fits(w.rows, id, w.workers[id]); }
    }
  }

  // ---------------------------------------------------------------- one action

  lemma RecoverKeeps(w: World, key: Key)
    requires Inv(w)
    ensures Kept(w, Recover(w, key))
  {
    DoKeeps(w, RecoverStale(key));
  }

  lemma MakeTaskKeeps(w: World, key: Key, early: bool, answer: Q.Decision)
    requires Inv(w) && Distinct(w) && !Barred(w.rows, key)
    ensures Kept(w, MakeTask(w, key, early, answer))
  {
    var id, op := w.nextOwner, RecordPending(key, w.nextOwner);
    DoKeeps(w, op);
    var created := early && VerdictOf(w, op) == Hit;
    var w1 := if early then Do(w, op) else w;
    NewWorkerKeeps(w1, MakeTask(w, key, early, answer), Worker(key, false, Queued, created, "", false, false));
  }

  lemma WebhookKeeps(w: World, key: Key, v: Visit, fastAck: bool)
    requires Inv(w) && Distinct(w)
    ensures Kept(w, Webhook(w, key, v, fastAck))
  {
    hide Pass, MakeTask, Safe, Do, SendsOf, Guarded;
    RecoverKeeps(w, key);
    var w1 := Recover(w, key);
    RecoverLeaves(w, key);
    var early := fastAck || key.connector == Discord;
    var (gate, pass) := Pass(w1.gate, key, v, key in w1.rows, early);
    GateKeeps(w1, gate);
    if pass.Some? && !Barred(w1.rows, key) {
      MakeTaskKeeps(w1.(gate := gate), key, early, pass.value);
      KeptTwice(w, w1.(gate := gate), MakeTask(w1.(gate := gate), key, early, pass.value));
    }
  }

  lemma RecoverLeaves(w: World, key: Key)
    ensures var w1 := Recover(w, key); w1 == w.(rows := w1.rows, log := w1.log)
  {
  }

  lemma WebhookTurnKeeps(w: World, id: Owner, turn: TurnOutcome)
    requires Inv(w) && id in w.workers && w.workers[id].pc == Turn && !w.workers[id].isRetry
    ensures Kept(w, WebhookTurn(w, id, turn))
  {
    hide Safe, Do, SendsOf, Finish, StartSend, Guarded;
    var key := w.workers[id].key;
    match turn
    case TurnCancelled(_) =>
      DoThenFinish(w, DiscardPending(key, id), id, PlainResponse, InTry);
      FinishKeeps(w, id, PlainResponse, InTry);
    case UnknownEffect(_) =>
      DoThenFinish(w, DiscardPending(key, id), id, UnknownResponse, InTry);
      FinishKeeps(w, id, UnknownResponse, InTry);
    case TurnRaised => DoThenFinish(w, MarkTurnFailed(key, id, TurnFailed), id, PlainResponse, InHandler);
    case Replied(text, replayed) =>
      var op := ClaimDelivery(key, id, text);
      assert !Barred(w.rows, key) by { TurnIsNotBarred(w, id); }
      FinishKeeps(w, id, UnknownResponse, NoNotice);
      if VerdictOf(w, op) == Claimed { AcquireThenSend(w, op, id, text); }
      DoThenFinish(w, op, id, if VerdictOf(w, op) == Unknown then UnknownResponse else PlainResponse, NoNotice);
  }

  lemma TurnIsNotBarred(w: World, id: Owner)
    requires Guarded(w.rows, w.workers) && id in w.workers && !w.workers[id].isRetry && w.workers[id].pc == Turn
    ensures !Barred(w.rows, w.workers[id].key)
  {
    assert Fits(w.rows, id, w.workers[id]);
  }

  lemma RetryTurnKeeps(w: World, id: Owner, turn: TurnOutcome)
    requires Inv(w) && id in w.workers && w.workers[id].pc == Turn && w.workers[id].isRetry
    ensures Kept(w, RetryTurn(w, id, turn))
  {
    hide Safe, Do, SendsOf, Finish, StartSend, Guarded;
    var key := w.workers[id].key;
    match turn
    case TurnCancelled(_) => DoThenFinish(w, ReleaseTurnRetry(key, id, EventCancelled), id, PlainResponse, NoNotice);
    case UnknownEffect(_) => DoThenFinish(w, ReleaseTurnRetry(key, id, EventStateUnknown), id, PlainResponse, NoNotice);
    case TurnRaised => DoThenFinish(w, ReleaseTurnRetry(key, id, TurnException), id, PlainResponse, NoNotice);
    case Replied(text, _) =>
      var op := PromoteTurnRetry(key, id, text);
      DoThenFinish(w, ReleaseTurnRetry(key, id, TurnException), id, PlainResponse, NoNotice);
      if text != "" && VerdictOf(w, op) == Hit { AcquireThenSend(w, op, id, text); }
  }

  lemma TurnKeeps(w: World, id: Owner, turn: TurnOutcome)
    requires Inv(w)
    ensures Kept(w, TurnDone(w, id, turn))
  {
    hide Safe, WebhookTurn, RetryTurn, Guarded;
    if id in w.workers && w.workers[id].pc == Turn {
      if w.workers[id].isRetry {
        RetryTurnKeeps(w, id, turn);
      } else if turn.TurnRaised? || !turn.replayed {
        WebhookTurnKeeps(w, id, turn);
      } else {
        GateKeeps(w, RefundTurn(w, id).gate);
        WebhookTurnKeeps(RefundTurn(w, id), id, turn);
        KeptTwice(w, RefundTurn(w, id), WebhookTurn(RefundTurn(w, id), id, turn));
      }
    }
  }

  lemma GateKeeps(w: World, gate: Gate)
    requires Inv(w)
    ensures Kept(w, w.(gate := gate))
  {
    QuieterKeeps(w, w.(gate := gate));
  }

  lemma FailThenFinish(w: World, id: Owner, reason: Reason, sent: Option<ProviderAnswer>, answer: Answer, notice: Notice)
    requires Inv(w) && Distinct(w) && id in w.workers && w.workers[id].pc == Send
    requires FailsFairly(w.workers[id], sent)
    ensures Kept(w, Finish(Fail(w, id, reason, sent), id, answer, notice))
  {
    hide Finish, Inv, FailsFairly;
    FailKeeps(w, id, reason, sent);
    FinishKeeps(Fail(w, id, reason, sent), id, answer, notice);
    KeptTwice(w, Fail(w, id, reason, sent), Finish(Fail(w, id, reason, sent), id, answer, notice));
  }

  lemma SendKeeps(w: World, id: Owner, send: SendOutcome)
    requires Inv(w) && Distinct(w)
    ensures Kept(w, SendDone(w, id, send))
  {
    hide Safe, Do, SendsOf, Finish, Fail, Guarded;
    if id in w.workers && w.workers[id].pc == Send {
      var worker := w.workers[id];
      var key := worker.key;
      FinishKeeps(w, id, UnknownResponse, NoNotice);
      match Said(worker.reply, send)
      case SendRaised =>
        if key.connector != Qq { FailThenFinish(w, id, ProviderException, None, PlainResponse, InHandler); }
      case Answered(answer) =>
        if !OutcomeUnknown(answer) {
          if !DeliverySucceeded(answer) || (worker.reply == "" && !worker.isRetry) {
            var reason := if worker.reply == "" && !worker.isRetry then EmptyReply else FailureReason(answer);
            FailThenFinish(w, id, reason, Some(answer), PlainResponse, InTry);
          } else {
            var op := MarkSent(key, id);
            DoThenFinish(w, op, id, if VerdictOf(w, op) == Hit then PlainResponse else UnknownResponse, NoNotice);
          }
        }
    }
  }

  lemma CancelledKeeps(w: World, id: Owner)
    requires Inv(w) && Distinct(w)
    ensures Kept(w, Cancelled(w, id))
  {
    hide Safe, Do, SendsOf, Finish, Fail, Guarded;
    if Running(w, id) {
      var worker := w.workers[id];
      var key := worker.key;
      FinishKeeps(w, id, WasCancelled, InHandler);
      FinishKeeps(w, id, WasCancelled, NoNotice);
      DoThenFinish(w, ReleaseTurnRetry(key, id, RetryCancelled), id, WasCancelled, NoNotice);
      DoThenFinish(w, DiscardPending(key, id), id, WasCancelled, InHandler);
      if worker.pc == Send && worker.isRetry && key.connector != Qq {
        FailThenFinish(w, id, RetryCancelled, None, WasCancelled, NoNotice);
      }
    }
  }

  /** A retry claims the turn of a row that has no reply, or the reply of a row that has one. */
  lemma RetryClaimKeeps(w: World, key: Key)
    requires Inv(w) && Distinct(w) && key in w.rows
    ensures Kept(w, RetryClaim(w, key))
  {
    hide Safe, SendsOf, Guarded, Do;
    if RetryClaim(w, key) != w {
      var id, row, text := w.nextOwner, w.rows[key], w.rows[key].reply.GetOr("");
      var worker := Worker(key, true, Turn, false, "", false, false);
      var op := if ReplyBlank(row) then ClaimTurnRetry(key, id) else ClaimDelivery(key, id, text);
      assert !Barred(w.rows, key) && VerdictOf(w, op) == Claimed;
      assert w.rows == w.(nextOwner := id + 1, workers := w.workers[id := worker]).rows;
      var spawned := w.(nextOwner := id + 1, workers := w.workers[id := worker]);
      NewWorkerKeeps(w, spawned, worker);
      DoIsLocal(w, op, spawned);
      if ReplyBlank(row) {
        DoKeeps(spawned, op);
        KeptTwice(w, spawned, Do(spawned, op));
      } else {
        AcquireThenSend(spawned, op, id, text);
        KeptTwice(w, spawned, StartSend(Do(spawned, op), id, text));
      }
    }
  }

  lemma DoIsLocal(w: World, op: Op, spawned: World)
    requires spawned == w.(nextOwner := spawned.nextOwner, workers := spawned.workers)
    ensures VerdictOf(spawned, op) == VerdictOf(w, op)
    ensures Do(spawned, op) == Do(w, op).(nextOwner := spawned.nextOwner, workers := spawned.workers)
  {
  }

  lemma RetryBodyKeeps(w: World, key: Key)
    requires Inv(w) && Distinct(w) && key in w.rows
    ensures Kept(w, RetryBody(w, key))
  {
    hide Safe, SendsOf, Guarded, RetryClaim, Do;
    RecoverKeeps(w, key);
    RecoverLeaves(w, key);
    var w1 := Recover(w, key);
    assert key in w1.rows by { RecoveredIsThere(w, key); }
    RetryClaimKeeps(w1, key);
    KeptTwice(w, w1, RetryClaim(w1, key));
  }

  lemma RecoveredIsThere(w: World, key: Key)
    requires key in w.rows
    ensures key in Recover(w, key).rows
  {
  }

  lemma RetryKeeps(w: World, key: Key, v: Visit)
    requires Inv(w) && Distinct(w)
    ensures Kept(w, Retry(w, key, v))
  {
    hide Safe, SendsOf, Guarded, RetryBody, Asked, Tabled, Held;
    if key in w.rows {
      RetryBodyKeeps(w, key);
      var taken := w.(gate := Tabled(w.gate, Q.Reserve(key.event, v.session, true, v.first)));
      GateKeeps(w, taken.gate);
      RetryBodyKeeps(taken, key);
      var w1 := RetryBody(taken, key);
      KeptTwice(w, taken, w1);
      GateKeeps(w1, Tabled(w1.gate, Q.Finish(key.event)));
      GateKeeps(w1, Held(w1.gate, w.nextOwner, key.event));
    }
  }

  lemma ScanKeeps(w: World, key: Key, v: Visit)
    requires Inv(w) && Distinct(w)
    ensures Kept(w, ScanRow(w, key, v))
  {
    hide Safe, SendsOf, Guarded, Retry, Do;
    DoKeeps(w, RecoverStale(key));
    var w1 := Do(w, RecoverStale(key));
    assert w1.workers == w.workers && w1.nextOwner == w.nextOwner by { DoIsLocal(w, RecoverStale(key), w); }
    RetryKeeps(w1, key, v);
    KeptTwice(w, w1, Retry(w1, key, v));
  }

  lemma EnterKeeps(w: World, id: Owner)
    requires Inv(w)
    ensures Kept(w, Enter(w, id))
  {
    hide Safe, SendsOf, Guarded;
    if id in w.workers && w.workers[id].pc == Queued && !w.workers[id].cancelRequested {
      var op := RecordPending(w.workers[id].key, id);
      if w.workers[id].pendingCreated {
        QuieterKeeps(w, Enter(w, id));
      } else {
        DoKeeps(w, op);
        QuieterKeeps(Do(w, op), Enter(w, id));
        KeptTwice(w, Do(w, op), Enter(w, id));
      }
    }
  }

  lemma RouteKeeps(w: World, key: Key)
    requires Inv(w)
    ensures Kept(w, CancelRequest(w, key))
  {
    hide Safe, SendsOf;
    RecoverKeeps(w, key);
    if TaskActive(w, key) {
      var id := w.tasks[key];
      var asked := w.workers[id := w.workers[id].(cancelRequested := true)];
      NoteKeeps(w, w.(log := w.log + [CancelRefused(id, key)]), CancelRefused(id, key));
      NoteKeeps(w, w.(workers := asked, log := w.log + [CancelRequested(id, key)]), CancelRequested(id, key));
    }
  }

  lemma CancelDoneKeeps(w: World, id: Owner)
    requires Inv(w)
    ensures Kept(w, CancelDone(w, id))
  {
    hide Safe, SendsOf;
    if id in w.workers {
      var forgotten := Forget(w, id);
      QuieterKeeps(w, forgotten);
      var e := CancelConfirmed(id, w.workers[id].key);
      NoteKeeps(forgotten, forgotten.(log := forgotten.log + [e]), e);
      KeptTwice(w, forgotten, forgotten.(log := forgotten.log + [e]));
    }
  }

  lemma NotifyKeeps(w: World, id: Owner)
    requires Inv(w)
    ensures Kept(w, NotifyDone(w, id))
  {
    hide Inv, Kept;
    QuieterKeeps(w, NotifyDone(w, id));
  }

  lemma CleanupKeeps(w: World, id: Owner)
    requires Inv(w)
    ensures Kept(w, CleanedUp(w, id))
  {
    hide Inv, Kept;
    QuieterKeeps(w, CleanedUp(w, id));
  }

  lemma CallbackKeeps(w: World, id: Owner)
    requires Inv(w)
    ensures Kept(w, CallbackRuns(w, id))
  {
    hide Inv, Kept, CalledBack;
    QuieterKeeps(w, CallbackRuns(w, id));
  }

  lemma ListedKeeps(w: World, key: Key)
    requires Inv(w)
    ensures Kept(w, Step(w, Listed(key)))
  {
    hide Safe, SendsOf, Guarded, Recover;
    RecoverKeeps(w, key);
    QuieterKeeps(w, w);
  }

  lemma ResolutionKeeps(w: World, key: Key, delivered: bool)
    requires Inv(w)
    ensures Kept(w, Resolution(w, key, delivered))
  {
    hide Safe, SendsOf, Guarded, Do;
    DoKeeps(w, Resolve(key, delivered));
    QuieterKeeps(w, w);
  }

  /** Every action keeps the invariant, and leaves every barred row barred and unsent. */
  lemma StepKeepsSafe(w: World, a: Action)
    requires Inv(w) && Distinct(w)
    ensures Kept(w, Step(w, a))
  {
    hide Kept, Inv, Distinct;
    hide Webhook, Enter, TurnDone, SendDone, Cancelled, CancelRequest, CancelDone, Retry, ScanRow, Resolution, Recover;
    hide NotifyDone, CleanedUp, CallbackRuns;
    match a
    case WebhookArrives(key, visit, fastAck) => WebhookKeeps(w, key, visit, fastAck);
    case WebhookEnters(id) => EnterKeeps(w, id);
    case TurnReturns(id, turn) => TurnKeeps(w, id, turn);
    case SendReturns(id, send) => SendKeeps(w, id, send);
    case CancelLands(id) => CancelledKeeps(w, id);
    case CancelRoute(key) => RouteKeeps(w, key);
    case CancelReturns(id) => CancelDoneKeeps(w, id);
    case RetryArrives(key, visit) => RetryKeeps(w, key, visit);
    case Scan(key, visit) => ScanKeeps(w, key, visit);
    case Listed(key) => ListedKeeps(w, key);
    case ResolveRoute(key, delivered) => ResolutionKeeps(w, key, delivered);
    case NotifyReturns(id) => NotifyKeeps(w, id);
    case Cleanup(id) => CleanupKeeps(w, id);
    case Callback(id) => CallbackKeeps(w, id);
    case Restart => QuieterKeeps(w, Step(w, a));
    case ClockMoves(_) => QuieterKeeps(w, Step(w, a));
  }

  lemma {:induction false} EveryRunKeeps(limits: Q.Limits, actions: seq<Action>)
    ensures Inv(Run(limits, actions))
  {
    if actions != [] {
      var before := Run(limits, actions[..|actions| - 1]);
      EveryRunKeeps(limits, actions[..|actions| - 1]);
      C.EveryRunKeeps(limits, actions[..|actions| - 1]);
      MapsMakeDistinct(before);
      StepKeepsSafe(before, actions[|actions| - 1]);
    }
  }

  /**
   Main result. In every run - any interleaving of workers, retries, scans, cancels, resolutions, clock jumps and
   restarts - a second provider send for a QQ event is separated from the first by a refusal of the provider that the
   first attempt's own owner recorded, or by a manual resolution to failed; no event of any connector is sent again
   once delivered; and every send directly follows its owner's successful claim or promotion.
   */
  lemma EveryRunIsSafe(limits: Q.Limits, actions: seq<Action>)
    ensures Safe(Run(limits, actions).rows, Run(limits, actions).log)
  {
    EveryRunKeeps(limits, actions);
  }

  /**
   A row that failed because its reply was blank is still so at the end of every continuation of the run: nobody
   acquires it, and nothing is sent for its event.
   */
  lemma {:induction false} BarredForever(limits: Q.Limits, actions: seq<Action>, more: seq<Action>, key: Key)
    requires Barred(Run(limits, actions).rows, key)
    ensures Barred(Run(limits, actions + more).rows, key)
    ensures SendsOf(Run(limits, actions + more).log, key) == SendsOf(Run(limits, actions).log, key)
  {
    if more == [] {
      assert actions + more == actions;
    } else {
      var earlier, a := more[..|more| - 1], more[|more| - 1];
      BarredForever(limits, actions, earlier, key);
      var before := Run(limits, actions + earlier);
      EveryRunKeeps(limits, actions + earlier);
      C.EveryRunKeeps(limits, actions + earlier);
      MapsMakeDistinct(before);
      StepKeepsSafe(before, a);
      C.RunSnoc(limits, actions + earlier, a);
      assert actions + earlier + [a] == actions + more;
    }
  }

  /** Which rows that is: the registry refuses a blank reply itself, and its worker records just that. */
  lemma BlankReplyIsBarred(limits: Q.Limits, actions: seq<Action>, id: Owner, send: SendOutcome)
    requires var w := Run(limits, actions);
             && id in w.workers && w.workers[id].pc == Send && w.workers[id].reply == ""
             && HoldsSend(w.rows, w.workers[id].key, id)
    ensures var w := Run(limits, actions);
            var key, after := w.workers[id].key, SendDone(w, id, send);
            && Barred(after.rows, key)
            && after.log == w.log + [FailureRecorded(id, key, EmptyReply, Some(BLANK_ANSWER))] && IsRefusal(Some(BLANK_ANSWER))
  {
    hide Safe, Run;
    EveryRunKeeps(limits, actions);
    var w := Run(limits, actions);
    assert Fits(w.rows, id, w.workers[id]);
  }

  // ---------------------------------------------------------------- failures and refusals

  /** In every run, wherever a QQ worker has recorded a failure, its send was refused. */
  lemma EveryQqFailureIsARefusal(limits: Q.Limits, actions: seq<Action>, i: nat)
    requires var log := Run(limits, actions).log; i < |log| && log[i].FailureRecorded? && log[i].key.connector == Qq
    ensures IsRefusal(Run(limits, actions).log[i].answer)
  {
    hide Run, NoBlindResend, NeverAfterDelivery, SendsFollowAcquisition, Fenced;
    EveryRunKeeps(limits, actions);
  }

  ghost predicate RecordsUnrefused(log: seq<Event>, after: seq<Event>) {
    exists i :: |log| <= i < |after| && after[i].FailureRecorded? && !IsRefusal(after[i].answer)
  }

  /**
   A send that comes back is recorded as failed without a refusal exactly when it was a real send of another connector,
   its worker still holds the row, and the call raised.
   */
  lemma UnrefusedFailureIff(w: World, id: Owner, send: SendOutcome)
    requires id in w.workers && w.workers[id].pc == Send
    ensures RecordsUnrefused(w.log, SendDone(w, id, send).log)
            <==> && HoldsSend(w.rows, w.workers[id].key, id)
                 && send.SendRaised? && w.workers[id].key.connector != Qq && w.workers[id].reply != ""
  {
    hide Finish, VerdictOf;
    var worker := w.workers[id];
    match Said(worker.reply, send)
    case SendRaised =>
      FailLogs(w, id, ProviderException, None);
      FinishLogs(w, id, UnknownResponse, NoNotice);
      FinishLogs(Fail(w, id, ProviderException, None), id, PlainResponse, InHandler);
    case Answered(answer) =>
      var reason := if worker.reply == "" && !worker.isRetry then EmptyReply else FailureReason(answer);
      FailLogs(w, id, reason, Some(answer));
      FinishLogs(w, id, UnknownResponse, NoNotice);
      FinishLogs(Fail(w, id, reason, Some(answer)), id, PlainResponse, InTry);
      var op := MarkSent(worker.key, id);
      FinishLogs(Do(w, op), id, if VerdictOf(w, op) == Hit then PlainResponse else UnknownResponse, NoNotice);
  }

  lemma FinishLogs(w: World, id: Owner, answer: Answer, notice: Notice)
    requires id in w.workers
    ensures Finish(w, id, answer, notice).log == w.log
  {
  }

  lemma FailLogs(w: World, id: Owner, reason: Reason, answer: Option<ProviderAnswer>)
    requires id in w.workers
    ensures RecordsUnrefused(w.log, Fail(w, id, reason, answer).log)
            <==> HoldsSend(w.rows, w.workers[id].key, id) && !IsRefusal(answer)
  {
    var after := Fail(w, id, reason, answer).log;
    if HoldsSend(w.rows, w.workers[id].key, id) {
      assert after[|w.log|] == FailureRecorded(id, w.workers[id].key, reason, answer);
    }
  }
}
