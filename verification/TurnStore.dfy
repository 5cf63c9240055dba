/**
 The durable table of connector deliveries: one row per inbound event, guarded by an owner and a lease.
 Every store call is one SQL statement (or one immediate transaction), so each is a single atomic operation.
 Times are milliseconds; the clock reading is a parameter and may move in either direction.
 */
module TurnStore {
  import opened Wrappers

  datatype Connector = Qq | Wechat | Telegram | Discord

  /** Stands for both the delivery key "connector:<id>:<event>" and the task key "<id>:<event>". */
  datatype Key = Key(connector: Connector, event: string)

  type Owner = nat

  datatype Status = Processing | Sending | Delivered | Failed

  datatype Reason =
    | TurnFailed | TurnException | TurnInterrupted
    | ProviderRejected | ProviderException | EmptyReply
    | RetryCancelled | EventCancelled | EventStateUnknown | ManualResolution

  datatype Row = Row(
    status: Status,
    attempts: nat,
    owner: Option<Owner>,
    lease: Option<int>,
    lastError: Option<Reason>,
    deliveredAt: Option<int>,
    reply: Option<string>)

  type Rows = map<Key, Row>

  const CLAIM_LEASE := 30_000
  const TURN_RETRY_LEASE := 900_000
  const SEND_LEASE := 60_000

  datatype Op =
    | RecordPending(key: Key, who: Owner)
    | MarkTurnFailed(key: Key, who: Owner, reason: Reason)
    | DiscardPending(key: Key, who: Owner)
    | RecoverStale(key: Key)
    | ClaimDelivery(key: Key, who: Owner, text: string)
    | ClaimTurnRetry(key: Key, who: Owner)
    | PromoteTurnRetry(key: Key, who: Owner, text: string)
    | ReleaseTurnRetry(key: Key, who: Owner, reason: Reason)
    | MarkSent(key: Key, who: Owner)
    | MarkFailed(key: Key, who: Owner, reason: Reason)
    | Resolve(key: Key, delivered: bool)
    | ResetForRetry(key: Key)

  /** `Hit` and `Miss` are a row count of one and of zero; the rest are the claim answers. */
  datatype Verdict = Hit | Miss | Claimed | Busy | AlreadyDelivered | Unknown | Missing | NotRetryable

  datatype Result = Result(rows: Rows, verdict: Verdict)

  predicate Expired(row: Row, now: int) {
    row.lease.Some? && row.lease.value <= now
  }

  /** Another owner holds the row and its lease has not run out. */
  predicate HeldByAnother(row: Row, who: Owner, now: int) {
    row.owner.Some? && row.owner.value != who && row.lease.GetOr(0) > now
  }

  function Unowned(row: Row): Row {
    row.(owner := None, lease := None)
  }

  function SetRow(rows: Rows, key: Key, row: Row): Result {
    Result(rows[key := row], Hit)
  }

  function ClaimDeliveryResult(rows: Rows, key: Key, who: Owner, text: string, now: int): Result {
    var taken := Row(Sending, 1, Some(who), Some(now + CLAIM_LEASE), None, None, Some(text));
    if key !in rows then Result(rows[key := taken], Claimed)
    else if rows[key].status == Delivered then Result(rows, AlreadyDelivered)
    else if HeldByAnother(rows[key], who, now) then Result(rows, Busy)
    else if rows[key].status == Sending && key.connector == Qq then Result(rows, Unknown)
    else Result(rows[key := taken.(attempts := rows[key].attempts + 1)], Claimed)
  }

  function ClaimTurnRetryResult(rows: Rows, key: Key, who: Owner, now: int): Result {
    if key !in rows then Result(rows, Missing)
    else if rows[key].status == Delivered then Result(rows, AlreadyDelivered)
    else if rows[key].status != Failed then Result(rows, NotRetryable)
    else if HeldByAnother(rows[key], who, now) then Result(rows, Busy)
    else if rows[key].reply.Some? then Result(rows, NotRetryable)
    else
      var row := rows[key];
      Result(
        rows[key := row.(attempts := row.attempts + 1, owner := Some(who), lease := Some(now + TURN_RETRY_LEASE))],
        Claimed)
  }

  function Apply(rows: Rows, op: Op, now: int): Result {
    var key := op.key;
    match op
    case RecordPending(_, who) =>
      if key in rows then Result(rows, Miss)
      else SetRow(rows, key, Row(Processing, 0, Some(who), Some(now + CLAIM_LEASE), None, None, None))
    case MarkTurnFailed(_, who, reason) =>
      if key in rows && rows[key].owner == Some(who) && rows[key].status == Processing
      then SetRow(rows, key, Unowned(rows[key]).(status := Failed, lastError := Some(reason), deliveredAt := None))
      else Result(rows, Miss)
    case DiscardPending(_, who) =>
      if key in rows && rows[key].status == Processing && rows[key].owner == Some(who) && rows[key].reply.None?
      then Result(rows - {key}, Hit)
      else Result(rows, Miss)
    case RecoverStale(_) =>
      if key in rows && rows[key].status == Processing && Expired(rows[key], now)
      then SetRow(rows, key, Unowned(rows[key]).(status := Failed, lastError := Some(TurnInterrupted)))
      else Result(rows, Miss)
    case ClaimDelivery(_, who, text) => ClaimDeliveryResult(rows, key, who, text, now)
    case ClaimTurnRetry(_, who) => ClaimTurnRetryResult(rows, key, who, now)
    case PromoteTurnRetry(_, who, text) =>
      if key in rows && rows[key].owner == Some(who) && rows[key].status == Failed
      then SetRow(rows, key, rows[key].(
        status := Sending, reply := Some(text), lastError := None, lease := Some(now + SEND_LEASE)))
      else Result(rows, Miss)
    case ReleaseTurnRetry(_, who, reason) =>
      if key in rows && rows[key].owner == Some(who) && rows[key].status == Failed
      then SetRow(rows, key, Unowned(rows[key]).(lastError := Some(reason)))
      else Result(rows, Miss)
    case MarkSent(_, who) =>
      if key in rows && rows[key].owner == Some(who) && rows[key].status == Sending
      then SetRow(rows, key, Unowned(rows[key]).(status := Delivered, deliveredAt := Some(now)))
      else Result(rows, Miss)
    case MarkFailed(_, who, reason) =>
      if key in rows && rows[key].owner == Some(who) && rows[key].status == Sending
      then SetRow(rows, key, Unowned(rows[key]).(status := Failed, lastError := Some(reason), deliveredAt := None))
      else Result(rows, Miss)
    case Resolve(_, delivered) =>
      if key in rows && rows[key].status == Sending && (rows[key].lease.None? || Expired(rows[key], now))
      then SetRow(rows, key, Unowned(rows[key]).(
        status := if delivered then Delivered else Failed,
        lastError := if delivered then None else Some(ManualResolution),
        deliveredAt := if delivered then Some(now) else None))
      else Result(rows, Miss)
    case ResetForRetry(_) =>
      if key in rows && ((rows[key].status == Failed && (rows[key].owner.None? || Expired(rows[key], now)))
                         || (rows[key].status == Sending && key.connector != Qq && Expired(rows[key], now)))
      then SetRow(rows, key, Unowned(rows[key]).(status := Failed))
      else Result(rows, Miss)
  }

  /** The row `key` as an optional value, so that "unchanged" includes "still absent". */
  function At(rows: Rows, key: Key): Option<Row> {
    if key in rows then Some(rows[key]) else None
  }

  /** Whether an operation names `owner` as its caller. */
  predicate Names(op: Op, owner: Owner) {
    match op
    case RecoverStale(_) => false
    case Resolve(_, _) => false
    case ResetForRetry(_) => false
    case _ => op.who == owner
  }

  /** An operation touches no row but its own. */
  lemma OtherRowsUntouched(rows: Rows, op: Op, now: int, key: Key)
    requires key != op.key
    ensures At(Apply(rows, op, now).rows, key) == At(rows, key)
  {
    match op
    case ClaimDelivery(_, _, _) =>
    case _ =>
  }

  /** A delivered row is final: no operation by anyone ever changes any of its columns. */
  lemma DeliveredIsFinal(rows: Rows, op: Op, now: int, key: Key)
    requires key in rows && rows[key].status == Delivered
    ensures At(Apply(rows, op, now).rows, key) == Some(rows[key])
  {
    if key != op.key {
      OtherRowsUntouched(rows, op, now, key);
    }
  }

  /**
   The QQ fence. A sending QQ row changes in exactly three ways: its owner records success, its owner records
   failure, or an operator resolves it once its lease is over. Expiry alone never releases it.
   */
  lemma QqSendingFence(rows: Rows, op: Op, now: int, key: Key)
    requires key in rows && rows[key].status == Sending && key.connector == Qq
    ensures At(Apply(rows, op, now).rows, key) != Some(rows[key])
            <==> op.key == key
                 && ((op.MarkSent? && rows[key].owner == Some(op.who))
                     || (op.MarkFailed? && rows[key].owner == Some(op.who))
                     || (op.Resolve? && (rows[key].lease.None? || Expired(rows[key], now))))
  {
    if key != op.key {
      OtherRowsUntouched(rows, op, now, key);
    }
  }

  /** A row enters or re-enters `Sending` only by a claim or promotion of the owner it then carries. */
  lemma SendingIsAcquired(rows: Rows, op: Op, now: int, key: Key)
    requires var after := At(Apply(rows, op, now).rows, key);
             after.Some? && after.value.status == Sending && after != At(rows, key)
    ensures op.key == key && (op.ClaimDelivery? || op.PromoteTurnRetry?)
    ensures Apply(rows, op, now).verdict == (if op.ClaimDelivery? then Claimed else Hit)
    ensures Apply(rows, op, now).rows[key].owner == Some(op.who)
    ensures key.connector == Qq ==> At(rows, key).None? || rows[key].status in {Processing, Failed}
  {
    if key != op.key {
      OtherRowsUntouched(rows, op, now, key);
    }
  }

  /** While a lease is live, no call by anyone but its holder changes the row, whatever the connector. */
  lemma LiveLeaseExcludesOthers(rows: Rows, op: Op, now: int, key: Key, holder: Owner)
    requires key in rows && rows[key].owner == Some(holder)
    requires rows[key].lease.Some? && rows[key].lease.value > now
    requires !Names(op, holder)
    ensures At(Apply(rows, op, now).rows, key) == Some(rows[key])
  {
    if key != op.key {
      OtherRowsUntouched(rows, op, now, key);
    }
  }

  /**
   For every other connector expiry is enough: once the lease is over, a claim by any owner takes a sending row
   over, so a second send can start while the outcome of the first is unknown.
   */
  lemma OtherConnectorsReclaimAfterExpiry(rows: Rows, key: Key, who: Owner, text: string, now: int)
    requires key in rows && rows[key].status == Sending
    requires rows[key].owner.Some? && rows[key].owner.value != who && rows[key].lease.Some?
    ensures Apply(rows, ClaimDelivery(key, who, text), now).verdict == Claimed
            <==> key.connector != Qq && Expired(rows[key], now)
  {
  }

  /** The store object. Each method is one transaction and is tied to `Apply` in full. */
  class TurnCommitStore {
    var rows: Rows

    constructor ()
      ensures rows == map[]
    {
      rows := map[];
    }

    method RecordConnectorTurnPending(key: Key, who: Owner, now: int) returns (created: bool)
      modifies this
      ensures Apply(old(rows), RecordPending(key, who), now) == Result(rows, if created then Hit else Miss)
    {
      created := key !in rows;
      if created {
        rows := rows[key := Row(Processing, 0, Some(who), Some(now + CLAIM_LEASE), None, None, None)];
      }
    }

    method MarkConnectorTurnFailed(key: Key, who: Owner, reason: Reason, now: int) returns (hit: bool)
      modifies this
      ensures Apply(old(rows), MarkTurnFailed(key, who, reason), now) == Result(rows, if hit then Hit else Miss)
    {
      hit := key in rows && rows[key].owner == Some(who) && rows[key].status == Processing;
      if hit {
        var row := rows[key];
        rows := rows[key := Row(Failed, row.attempts, None, None, Some(reason), None, row.reply)];
      }
    }

    method DiscardConnectorTurnPending(key: Key, who: Owner, now: int) returns (hit: bool)
      modifies this
      ensures Apply(old(rows), DiscardPending(key, who), now) == Result(rows, if hit then Hit else Miss)
    {
      hit := key in rows && rows[key].status == Processing && rows[key].owner == Some(who) && rows[key].reply == None;
      if hit {
        rows := rows - {key};
      }
    }

    method RecoverStaleConnectorTurn(key: Key, now: int) returns (hit: bool)
      modifies this
      ensures Apply(old(rows), RecoverStale(key), now) == Result(rows, if hit then Hit else Miss)
    {
      hit := key in rows && rows[key].status == Processing && rows[key].lease.Some? && rows[key].lease.value <= now;
      if hit {
        var row := rows[key];
        rows := rows[key := row.(status := Failed, owner := None, lease := None, lastError := Some(TurnInterrupted))];
      }
    }

    method ClaimConnectorDelivery(key: Key, who: Owner, text: string, now: int) returns (verdict: Verdict)
      modifies this
      ensures Apply(old(rows), ClaimDelivery(key, who, text), now) == Result(rows, verdict)
    {
      var attempts := 1;
      if key in rows {
        var row := rows[key];
        if row.status == Delivered {
          return AlreadyDelivered;
        }
        var expires := row.lease.GetOr(0);
        if row.owner.Some? && row.owner.value != who && expires > now {
          return Busy;
        }
        if row.status == Sending && key.connector == Qq {
          return Unknown;
        }
        attempts := row.attempts + 1;
      }
      rows := rows[key := Row(Sending, attempts, Some(who), Some(now + CLAIM_LEASE), None, None, Some(text))];
      return Claimed;
    }

    method ClaimConnectorTurnRetry(key: Key, who: Owner, now: int) returns (verdict: Verdict)
      modifies this
      ensures Apply(old(rows), ClaimTurnRetry(key, who), now) == Result(rows, verdict)
    {
      if key !in rows {
        return Missing;
      }
      var row := rows[key];
      if row.status == Delivered {
        return AlreadyDelivered;
      }
      if row.status != Failed {
        return NotRetryable;
      }
      if row.owner.Some? && row.owner.value != who && row.lease.GetOr(0) > now {
        return Busy;
      }
      if row.reply.Some? {
        return NotRetryable;
      }
      rows := rows[key := row.(attempts := row.attempts + 1, owner := Some(who), lease := Some(now + TURN_RETRY_LEASE))];
      return Claimed;
    }

    method PromoteConnectorTurnRetry(key: Key, who: Owner, text: string, now: int) returns (hit: bool)
      modifies this
      ensures Apply(old(rows), PromoteTurnRetry(key, who, text), now) == Result(rows, if hit then Hit else Miss)
    {
      hit := key in rows && rows[key].owner == Some(who) && rows[key].status == Failed;
      if hit {
        var row := rows[key];
        rows := rows[key := Row(Sending, row.attempts, row.owner, Some(now + SEND_LEASE), None, row.deliveredAt, Some(text))];
      }
    }

    method ReleaseConnectorTurnRetry(key: Key, who: Owner, reason: Reason, now: int) returns (hit: bool)
      modifies this
      ensures Apply(old(rows), ReleaseTurnRetry(key, who, reason), now) == Result(rows, if hit then Hit else Miss)
    {
      hit := key in rows && rows[key].owner == Some(who) && rows[key].status == Failed;
      if hit {
        rows := rows[key := rows[key].(owner := None, lease := None, lastError := Some(reason))];
      }
    }

    method MarkConnectorDeliverySent(key: Key, who: Owner, now: int) returns (hit: bool)
      modifies this
      ensures Apply(old(rows), MarkSent(key, who), now) == Result(rows, if hit then Hit else Miss)
    {
      hit := key in rows && rows[key].owner == Some(who) && rows[key].status == Sending;
      if hit {
        rows := rows[key := rows[key].(status := Delivered, owner := None, lease := None, deliveredAt := Some(now))];
      }
    }

    method MarkConnectorDeliveryFailed(key: Key, who: Owner, reason: Reason, now: int) returns (hit: bool)
      modifies this
      ensures Apply(old(rows), MarkFailed(key, who, reason), now) == Result(rows, if hit then Hit else Miss)
    {
      hit := key in rows && rows[key].owner == Some(who) && rows[key].status == Sending;
      if hit {
        var row := rows[key];
        rows := rows[key := Row(Failed, row.attempts, None, None, Some(reason), None, row.reply)];
      }
    }

    method ResolveConnectorDelivery(key: Key, delivered: bool, now: int) returns (hit: bool)
      modifies this
      ensures Apply(old(rows), Resolve(key, delivered), now) == Result(rows, if hit then Hit else Miss)
    {
      hit := key in rows && rows[key].status == Sending && (rows[key].lease == None || rows[key].lease.value <= now);
      if hit {
        var row := rows[key];
        if delivered {
          rows := rows[key := Row(Delivered, row.attempts, None, None, None, Some(now), row.reply)];
        } else {
          rows := rows[key := Row(Failed, row.attempts, None, None, Some(ManualResolution), None, row.reply)];
        }
      }
    }

    method ResetConnectorDeliveryForRetry(key: Key, now: int) returns (hit: bool)
      modifies this
      ensures Apply(old(rows), ResetForRetry(key), now) == Result(rows, if hit then Hit else Miss)
    {
      hit := false;
      if key in rows {
        var row := rows[key];
        var over := row.lease.Some? && row.lease.value <= now;
        hit := (row.status == Failed && (row.owner == None || over))
               || (row.status == Sending && key.connector != Qq && over);
        if hit {
          rows := rows[key := row.(status := Failed, owner := None, lease := None)];
        }
      }
    }
  }
}
