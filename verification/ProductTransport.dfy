/**
 The HTTPS transport for product events: a bounded retry loop in front of a receiver that identifies a batch by its
 idempotency key, and the receipts that acknowledge a batch or its deletion. Times are in quarter seconds.
 */
module ProductTransport {
  import opened Wrappers
  import opened ProductMetrics

  /** The digest of a batch; two batches never share one. */
  datatype Key = Digest(batch: seq<Event>)

  // ---------------------------------------------------------------- receipts

  datatype Field = Number(n: int) | Flag(b: bool) | Text(s: string) | Named(key: Key) | OtherField

  datatype Json = Missing | NotAnObject | Object(fields: map<string, Field>)

  /** The schema check compares with the number one, which the truth value also equals. */
  predicate IsOne(f: Field) {
    f == Number(1) || f == Flag(true)
  }

  predicate AcknowledgesBatch(body: Json, key: Key, count: nat) {
    && body.Object?
    && body.fields.Keys == {"schema_version", "idempotency_key", "event_count", "status"}
    && IsOne(body.fields["schema_version"])
    && body.fields["idempotency_key"] == Named(key)
    && body.fields["event_count"] == Number(count)
    && body.fields["status"] in {Text("accepted"), Text("duplicate")}
  }

  predicate AcknowledgesDeletion(body: Json, key: Key) {
    && body.Object?
    && body.fields.Keys == {"schema_version", "idempotency_key", "status"}
    && IsOne(body.fields["schema_version"])
    && body.fields["idempotency_key"] == Named(key)
    && body.fields["status"] in {Text("deleted"), Text("already_deleted")}
  }

  /** A receipt speaks for one batch: no other key and no other count is acknowledged by it. */
  lemma ReceiptNamesOneBatch(body: Json, key: Key, count: nat, other: Key, otherCount: nat)
    requires AcknowledgesBatch(body, key, count) && AcknowledgesBatch(body, other, otherCount)
    ensures key == other && key.batch == other.batch && count == otherCount
    ensures !AcknowledgesDeletion(body, key)
  {
    assert "event_count" in body.fields;
  }

  // ---------------------------------------------------------------- the receiver

  /** What the receiver keeps, and how often it has stored and erased each batch. */
  datatype Receiver = Receiver(stored: set<Key>, writes: multiset<Key>, erasures: multiset<Key>)

  datatype Verb = Post | Delete

  function Apply(r: Receiver, verb: Verb, key: Key): Receiver {
    match verb
    case Post => if key in r.stored then r else Receiver(r.stored + {key}, r.writes + multiset{key}, r.erasures)
    case Delete =>
      if key in r.stored then Receiver(r.stored - {key}, r.writes, r.erasures + multiset{key}) else r
  }

  /** One try on the wire: whether the request reached the receiver, and what came back if anything did. */
  datatype Try = Try(arrived: bool, reply: Option<Reply>)

  datatype Reply = Reply(code: int, body: Json)

  function Touch(r: Receiver, verb: Verb, key: Key, t: Try): Receiver {
    if t.arrived then Apply(r, verb, key) else r
  }

  // ---------------------------------------------------------------- the retry loop

  predicate IsAccepted(code: int) {
    code in {200, 201, 202, 204, 409}
  }

  predicate IsRetryable(code: int) {
    code == 408 || code == 429 || 500 <= code <= 599
  }

  /** A try after which the loop goes on while attempts are left. */
  predicate IsTransient(t: Try) {
    t.reply.None? || (!IsAccepted(t.reply.value.code) && IsRetryable(t.reply.value.code))
  }

  function Power(n: nat): (p: nat)
    ensures p >= 1
  {
    if n == 0 then 1 else 2 * Power(n - 1)
  }

  /** The number of tries made when the wire behaves as `wire` says. */
  function Used(wire: seq<Try>, max: nat): (n: nat)
    requires 1 <= max <= |wire|
    ensures 1 <= n <= max
    ensures forall i :: 0 <= i < n - 1 ==> IsTransient(wire[i])
    ensures n < max ==> !IsTransient(wire[n - 1])
    decreases max
  {
    if max == 1 || !IsTransient(wire[0]) then 1 else 1 + Used(wire[1..], max - 1)
  }

  function Answer(wire: seq<Try>, max: nat): Option<Reply>
    requires 1 <= max <= |wire|
  {
    var last := wire[Used(wire, max) - 1].reply;
    if last.Some? && IsAccepted(last.value.code) then last else None
  }

  function TouchAll(r: Receiver, verb: Verb, key: Key, tries: seq<Try>): Receiver {
    if tries == [] then r else Touch(TouchAll(r, verb, key, tries[..|tries| - 1]), verb, key, tries[|tries| - 1])
  }

  function Reached(r: Receiver, verb: Verb, key: Key, wire: seq<Try>, max: nat): Receiver
    requires 1 <= max <= |wire|
  {
    TouchAll(r, verb, key, wire[..Used(wire, max)])
  }

  /** The loop never stops where it would have gone on, so the number of tries is determined by where it stopped. */
  lemma {:induction false} UsedIsFirst(wire: seq<Try>, max: nat, n: nat)
    requires 1 <= n <= max <= |wire|
    requires forall i :: 0 <= i < n - 1 ==> IsTransient(wire[i])
    requires n == max || !IsTransient(wire[n - 1])
    ensures Used(wire, max) == n
    decreases max
  {
    if n > 1 {
      assert IsTransient(wire[0]);
      forall i | 0 <= i < n - 2 ensures IsTransient(wire[1..][i]) {
        assert wire[1..][i] == wire[i + 1];
      }
      UsedIsFirst(wire[1..], max - 1, n - 1);
    }
  }

  lemma {:induction false} TouchingTwiceIsOnce(r: Receiver, verb: Verb, key: Key, tries: seq<Try>)
    ensures TouchAll(r, verb, key, tries)
         == if exists i :: 0 <= i < |tries| && tries[i].arrived then Apply(r, verb, key) else r
  {
    if tries != [] {
      var front := tries[..|tries| - 1];
      TouchingTwiceIsOnce(r, verb, key, front);
      if exists i :: 0 <= i < |front| && front[i].arrived {
        var i :| 0 <= i < |front| && front[i].arrived;
        assert tries[i].arrived;
      }
    }
  }

  predicate Claims(reply: Option<Reply>, verb: Verb, key: Key, count: nat) {
    reply.Some? &&
    match verb
    case Post => AcknowledgesBatch(reply.value.body, key, count)
    case Delete => AcknowledgesDeletion(reply.value.body, key)
  }

  /** Receipts are honest: an acknowledgement comes only from a receiver the request has reached. */
  predicate Honest(wire: seq<Try>, verb: Verb, key: Key, count: nat) {
    forall i :: 0 <= i < |wire| && Claims(wire[i].reply, verb, key, count) ==> wire[i].arrived
  }

  function SendSucceeds(wire: seq<Try>, max: nat, receipt: bool, key: Key, count: nat): bool
    requires 1 <= max <= |wire|
  {
    var answer := Answer(wire, max);
    answer.Some? && (receipt ==> AcknowledgesBatch(answer.value.body, key, count))
  }

  function DeleteSucceeds(wire: seq<Try>, max: nat, receipt: bool, key: Key): bool
    requires 1 <= max <= |wire|
  {
    var answer := Answer(wire, max);
    answer.Some? && (receipt ==> AcknowledgesDeletion(answer.value.body, key))
  }

  /** A send that reports success has stored the batch, and its key names exactly this batch. */
  lemma SentIsStored(r: Receiver, wire: seq<Try>, max: nat, batch: seq<Event>)
    requires 1 <= max <= |wire| && Honest(wire, Post, Digest(batch), |batch|)
    requires SendSucceeds(wire, max, true, Digest(batch), |batch|)
    ensures Digest(batch) in Reached(r, Post, Digest(batch), wire, max).stored
  {
    var n := Used(wire, max);
    TouchingTwiceIsOnce(r, Post, Digest(batch), wire[..n]);
    assert wire[..n][n - 1].arrived;
  }

  lemma DeletedIsGone(r: Receiver, wire: seq<Try>, max: nat, key: Key)
    requires 1 <= max <= |wire| && Honest(wire, Delete, key, 0)
    requires DeleteSucceeds(wire, max, true, key)
    ensures key !in Reached(r, Delete, key, wire, max).stored
  {
    var n := Used(wire, max);
    TouchingTwiceIsOnce(r, Delete, key, wire[..n]);
    assert wire[..n][n - 1].arrived;
  }

  /** Each batch has been stored once more than it has been erased while it is kept, and equally often otherwise. */
  ghost predicate Balanced(r: Receiver) {
    forall k :: r.writes[k] == r.erasures[k] + if k in r.stored then 1 else 0
  }

  /** However many of the tries arrive, one request changes the receiver at most once. */
  lemma RequestKeepsBalance(r: Receiver, verb: Verb, key: Key, wire: seq<Try>, max: nat)
    requires 1 <= max <= |wire| && Balanced(r)
    ensures var after := Reached(r, verb, key, wire, max);
            && Balanced(after)
            && (after == r || after == Apply(r, verb, key))
            && forall k :: k != key ==>
                 (k in after.stored <==> k in r.stored) && after.writes[k] == r.writes[k]
  {
    TouchingTwiceIsOnce(r, verb, key, wire[..Used(wire, max)]);
  }

  // ---------------------------------------------------------------- the transport object

  class HttpProductEventTransport {
    const maxAttempts: nat
    const requireBatchReceipt: bool
    const requireDeletionReceipt: bool
    const hasDeleteEndpoint: bool
    var receiver: Receiver

    ghost predicate Valid() {
      1 <= maxAttempts <= 5
    }

    constructor (maxAttempts: nat, requireBatchReceipt: bool, requireDeletionReceipt: bool, hasDeleteEndpoint: bool)
      requires 1 <= maxAttempts <= 5
      ensures Valid() && receiver == Receiver({}, multiset{}, multiset{})
      ensures this.maxAttempts == maxAttempts && this.requireBatchReceipt == requireBatchReceipt
      ensures this.requireDeletionReceipt == requireDeletionReceipt && this.hasDeleteEndpoint == hasDeleteEndpoint
    {
      this.maxAttempts := maxAttempts;
      this.requireBatchReceipt := requireBatchReceipt;
      this.requireDeletionReceipt := requireDeletionReceipt;
      this.hasDeleteEndpoint := hasDeleteEndpoint;
      receiver := Receiver({}, multiset{}, multiset{});
    }

    /** `None` stands for the raised error; `slept` adds up the pauses between tries. */
    method Request(verb: Verb, key: Key, wire: seq<Try>) returns (answer: Option<Reply>, tries: nat, slept: nat)
      requires Valid() && maxAttempts <= |wire|
      modifies this
      ensures answer == Answer(wire, maxAttempts)
      ensures tries == Used(wire, maxAttempts) && slept == Power(tries - 1) - 1
      ensures receiver == Reached(old(receiver), verb, key, wire, maxAttempts)
    {
      tries, slept := 0, 0;
      while tries < maxAttempts
        invariant 0 <= tries < maxAttempts
        invariant forall i :: 0 <= i < tries ==> IsTransient(wire[i])
        invariant slept == Power(tries) - 1
        invariant receiver == TouchAll(old(receiver), verb, key, wire[..tries])
        decreases maxAttempts - tries
      {
        var t := wire[tries];
        assert wire[..tries + 1][..tries] == wire[..tries];
        receiver := Touch(receiver, verb, key, t);
        var backoff := Power(tries);
        tries := tries + 1;
        if t.reply.None? {
          if tries < maxAttempts {
            slept := slept + backoff;
            continue;
          }
          UsedIsFirst(wire, maxAttempts, tries);
          return None, tries, slept;
        }
        var code := t.reply.value.code;
        if IsAccepted(code) {
          UsedIsFirst(wire, maxAttempts, tries);
          return t.reply, tries, slept;
        }
        if IsRetryable(code) && tries < maxAttempts {
          slept := slept + backoff;
          continue;
        }
        UsedIsFirst(wire, maxAttempts, tries);
        return None, tries, slept;
      }
    }

    method SendBatch(batch: seq<Event>, key: Key, wire: seq<Try>) returns (sent: bool)
      requires Valid() && maxAttempts <= |wire|
      modifies this
      ensures sent == SendSucceeds(wire, maxAttempts, requireBatchReceipt, key, |batch|)
      ensures receiver == Reached(old(receiver), Post, key, wire, maxAttempts)
    {
      var answer, _, _ := Request(Post, key, wire);
      if answer.None? {
        return false;
      }
      if requireBatchReceipt {
        return AcknowledgesBatch(answer.value.body, key, |batch|);
      }
      return true;
    }

    method DeleteBatch(key: Key, wire: seq<Try>) returns (deleted: bool)
      requires Valid() && maxAttempts <= |wire|
      modifies this
      ensures deleted == (hasDeleteEndpoint && DeleteSucceeds(wire, maxAttempts, requireDeletionReceipt, key))
      ensures receiver
           == if hasDeleteEndpoint then Reached(old(receiver), Delete, key, wire, maxAttempts) else old(receiver)
    {
      if !hasDeleteEndpoint {
        return false;
      }
      var answer, _, _ := Request(Delete, key, wire);
      if answer.None? {
        return false;
      }
      if requireDeletionReceipt {
        return AcknowledgesDeletion(answer.value.body, key);
      }
      return true;
    }
  }

  lemma {:induction false} PowerGrows(a: nat, b: nat)
    requires a <= b
    ensures Power(a) <= Power(b)
  {
    if a < b {
      PowerGrows(a, b - 1);
    }
  }

  /** The loop is bounded: at most `max` tries, and the pauses add up to at most a quarter of `2^(max-1) - 1` seconds. */
  lemma SleepIsBounded(wire: seq<Try>, max: nat)
    requires 1 <= max <= |wire|
    ensures Used(wire, max) <= max
    ensures Power(Used(wire, max) - 1) - 1 <= Power(max - 1) - 1
  {
    PowerGrows(Used(wire, max) - 1, max - 1);
  }
}
