/**
 Consent-gated export of product events. Every operation is a sequence of durable writes and remote exchanges, and the
 process may stop between any two of them. The journal is written before the effect it announces.
 */
module ProductExport {
  import opened Wrappers
  import opened ProductMetrics
  import opened ProductTransport

  datatype Status = ExportPending | ExportSent | DeletionPending | DeletionFailed | Deleted

  datatype Entry = Entry(count: nat, status: Status, attempts: nat, error: Option<string>)

  type Journal = map<Key, Entry>

  /** The durable files: the consent decision, the event log if there is one, and the journal. */
  datatype Disk = Disk(consent: bool, file: Option<seq<Event>>, journal: Journal)

  datatype Config = Config(
    maxEvents: nat,
    maxEntries: nat,
    canDelete: bool,
    hasDeleteEndpoint: bool,
    maxAttempts: nat,
    batchReceipt: bool,
    deletionReceipt: bool)

  /** Where an operation stands between two effects. */
  datatype Phase =
    | Idle
    | Sending(batch: seq<Event>)
    | NotingSend(batch: seq<Event>, ok: bool)
    | Disabling(batch: seq<Event>)
    | Unlinking(batch: seq<Event>)
    | Deleting(key: Key)
    | NotingDeletion(key: Key, ok: bool)
    | Retrying(todo: seq<Key>)
    | NotingRetry(key: Key, ok: bool, todo: seq<Key>)

  /** `removed` remembers the batches whose file a revocation has removed and that were not exported since. */
  datatype World = World(disk: Disk, consented: bool, phase: Phase, remote: Receiver, removed: set<Key>)

  // ---------------------------------------------------------------- the journal

  function Record(
    journal: Journal, max: nat, key: Key, count: Option<nat>, status: Status, error: Option<string>, more: bool)
    : Option<Journal>
  {
    if key !in journal && |journal| >= max then None
    else
      var previous := if key in journal then journal[key] else Entry(0, status, 0, None);
      Some(journal[key := Entry(
        count.GetOr(previous.count), status, previous.attempts + (if more then 1 else 0), error)])
  }

  function RecordAttempt(journal: Journal, max: nat, key: Key, count: nat): Option<Journal> {
    Record(journal, max, key, Some(count), ExportPending, None, true)
  }

  function RecordSend(journal: Journal, max: nat, key: Key, ok: bool): Option<Journal> {
    if ok then Record(journal, max, key, None, ExportSent, None, false)
    else Record(journal, max, key, None, ExportPending, Some("transport_unavailable"), false)
  }

  function RecordRevocation(journal: Journal, max: nat, key: Key, count: nat): Option<Journal> {
    Record(journal, max, key, Some(count), DeletionPending, None, false)
  }

  function RecordDeletion(journal: Journal, max: nat, key: Key, ok: bool): Option<Journal> {
    if ok then Record(journal, max, key, None, Deleted, None, false)
    else Record(journal, max, key, None, DeletionFailed, Some("remote_delete_failed"), false)
  }

  predicate IsWaiting(journal: Journal, key: Key) {
    key in journal && (journal[key].status == DeletionPending || journal[key].status == DeletionFailed)
  }

  function PendingDeletions(journal: Journal): set<Key> {
    set k | k in journal && IsWaiting(journal, k)
  }

  // ---------------------------------------------------------------- the steps

  datatype Action =
    | Grant
    | Append(event: RawEvent)
    | Purge(cutoff: int)
    | Export
    | Revoke
    | Retry(order: seq<Key>)
    | Exchange(wire: seq<Try>)
    | Write
    | Abort
    | Crash

  function LogOf(disk: Disk): seq<Event> {
    disk.file.GetOr([])
  }

  function Since(events: seq<Event>, cutoff: int): seq<Event> {
    if events == [] then []
    else
      var front, last := Since(events[..|events| - 1], cutoff), events[|events| - 1];
      if last.day >= cutoff then front + [last] else front
  }

  function AppendTo(cfg: Config, disk: Disk, consented: bool, event: RawEvent): Disk {
    if !consented || Normalize(event).None? || |LogOf(disk)| >= cfg.maxEvents then disk
    else disk.(file := Some(LogOf(disk) + [Normalize(event).value]))
  }

  function PurgeFrom(disk: Disk, cutoff: int): Disk {
    var kept := Since(LogOf(disk), cutoff);
    if |kept| == |LogOf(disk)| then disk else disk.(file := Some(kept))
  }

  function BeginExport(cfg: Config, w: World): World {
    var batch := LogOf(w.disk);
    if !w.consented || batch == [] then w else
    var journal := RecordAttempt(w.disk.journal, cfg.maxEntries, Digest(batch), |batch|);
    if journal.None? then w
    else w.(disk := w.disk.(journal := journal.value), phase := Sending(batch), removed := w.removed - {Digest(batch)})
  }

  function BeginRevoke(cfg: Config, w: World): World {
    if !w.consented then w else
    var batch := LogOf(w.disk);
    if batch == [] then w.(phase := Disabling(batch)) else
    var journal := RecordRevocation(w.disk.journal, cfg.maxEntries, Digest(batch), |batch|);
    if journal.None? then w
    else w.(disk := w.disk.(journal := journal.value), phase := Disabling(batch))
  }

  predicate NoRepeats(order: seq<Key>) {
    forall i, j :: 0 <= i < j < |order| ==> order[i] != order[j]
  }

  predicate Lists(order: seq<Key>, keys: set<Key>) {
    NoRepeats(order) && (set k | k in order) == keys
  }

  function BeginRetry(cfg: Config, w: World, order: seq<Key>): World {
    if cfg.canDelete && Lists(order, PendingDeletions(w.disk.journal)) then w.(phase := Retrying(order)) else w
  }

  predicate EraseSucceeds(cfg: Config, key: Key, wire: seq<Try>)
    requires 1 <= cfg.maxAttempts <= |wire|
  {
    cfg.hasDeleteEndpoint && DeleteSucceeds(wire, cfg.maxAttempts, cfg.deletionReceipt, key)
  }

  function Erase(cfg: Config, remote: Receiver, key: Key, wire: seq<Try>): (Receiver, bool)
    requires 1 <= cfg.maxAttempts <= |wire|
  {
    (if cfg.hasDeleteEndpoint then Reached(remote, Delete, key, wire, cfg.maxAttempts) else remote,
     EraseSucceeds(cfg, key, wire))
  }

  function DoExchange(cfg: Config, w: World, wire: seq<Try>): World
    requires 1 <= cfg.maxAttempts <= |wire|
  {
    match w.phase
    case Sending(batch) =>
      w.(phase := NotingSend(batch, SendSucceeds(wire, cfg.maxAttempts, cfg.batchReceipt, Digest(batch), |batch|)),
         remote := Reached(w.remote, Post, Digest(batch), wire, cfg.maxAttempts))
    case Deleting(key) =>
      var (remote, ok) := Erase(cfg, w.remote, key, wire);
      w.(phase := NotingDeletion(key, ok), remote := remote)
    case Retrying(todo) =>
      if todo == [] then w.(phase := Idle)
      else
        var (remote, ok) := Erase(cfg, w.remote, todo[0], wire);
        w.(phase := NotingRetry(todo[0], ok, todo[1..]), remote := remote)
    case Idle => w
    case NotingSend(_, _) => w
    case Disabling(_) => w
    case Unlinking(_) => w
    case NotingDeletion(_, _) => w
    case NotingRetry(_, _, _) => w
  }

  function Noted(w: World, journal: Option<Journal>, next: Phase): World {
    if journal.None? then w.(phase := Idle) else w.(disk := w.disk.(journal := journal.value), phase := next)
  }

  function DoWrite(cfg: Config, w: World): World {
    match w.phase
    case NotingSend(batch, ok) => Noted(w, RecordSend(w.disk.journal, cfg.maxEntries, Digest(batch), ok), Idle)
    case Disabling(batch) => w.(disk := w.disk.(consent := false), consented := false, phase := Unlinking(batch))
    case Unlinking(batch) =>
      w.(disk := w.disk.(file := None),
         phase := if batch == [] || !cfg.canDelete then Idle else Deleting(Digest(batch)),
         removed := if batch == [] then w.removed else w.removed + {Digest(batch)})
    case NotingDeletion(key, ok) => Noted(w, RecordDeletion(w.disk.journal, cfg.maxEntries, key, ok), Idle)
    case NotingRetry(key, ok, todo) =>
      Noted(w, RecordDeletion(w.disk.journal, cfg.maxEntries, key, ok), Retrying(todo))
    case Idle => w
    case Sending(_) => w
    case Deleting(_) => w
    case Retrying(_) => w
  }

  /** Operations begin when none is running; an abort is a raised error, a crash also loses the memory. */
  function Step(cfg: Config, w: World, a: Action): World
    requires cfg.maxAttempts >= 1
  {
    match a
    case Grant => if w.phase.Idle? then w.(disk := w.disk.(consent := true), consented := true) else w
    case Append(event) => if w.phase.Idle? then w.(disk := AppendTo(cfg, w.disk, w.consented, event)) else w
    case Purge(cutoff) => if w.phase.Idle? then w.(disk := PurgeFrom(w.disk, cutoff)) else w
    case Export => if w.phase.Idle? then BeginExport(cfg, w) else w
    case Revoke => if w.phase.Idle? then BeginRevoke(cfg, w) else w
    case Retry(order) => if w.phase.Idle? then BeginRetry(cfg, w, order) else w
    case Exchange(wire) => if cfg.maxAttempts <= |wire| then DoExchange(cfg, w, wire) else w
    case Write => DoWrite(cfg, w)
    case Abort => w.(phase := Idle)
    case Crash => w.(phase := Idle, consented := w.disk.consent)
  }

  function Run(cfg: Config, w: World, actions: seq<Action>): World
    requires cfg.maxAttempts >= 1
    decreases |actions|
  {
    if actions == [] then w
    else Step(cfg, Run(cfg, w, actions[..|actions| - 1]), actions[|actions| - 1])
  }

  // ---------------------------------------------------------------- revocation is write-ahead

  predicate Has(journal: Journal, key: Key, status: Status) {
    key in journal && journal[key].status == status
  }

  predicate Announced(journal: Journal, key: Key) {
    key in journal && journal[key].status in {DeletionPending, DeletionFailed, Deleted}
  }

  /** What the journal holds while an operation is under way. */
  ghost predicate PhaseIsWritten(w: World) {
    match w.phase
    case Idle => true
    case Sending(batch) => w.consented && Has(w.disk.journal, Digest(batch), ExportPending)
    case NotingSend(batch, _) => Has(w.disk.journal, Digest(batch), ExportPending)
    case Disabling(batch) => w.consented && (batch != [] ==> Has(w.disk.journal, Digest(batch), DeletionPending))
    case Unlinking(batch) => batch != [] ==> Has(w.disk.journal, Digest(batch), DeletionPending)
    case Deleting(key) => Has(w.disk.journal, key, DeletionPending)
    case NotingDeletion(key, _) => Has(w.disk.journal, key, DeletionPending)
    case Retrying(todo) => NoRepeats(todo) && forall k :: k in todo ==> IsWaiting(w.disk.journal, k)
    case NotingRetry(key, _, todo) =>
      && IsWaiting(w.disk.journal, key)
      && key !in todo
      && NoRepeats(todo)
      && forall k :: k in todo ==> IsWaiting(w.disk.journal, k)
  }

  ghost predicate Written(w: World) {
    && (w.consented ==> w.disk.consent)
    && (forall k :: k in w.removed ==> Announced(w.disk.journal, k))
    && PhaseIsWritten(w)
    && ((w.phase.Sending? || w.phase.NotingSend?) ==> Digest(w.phase.batch) !in w.removed)
  }

  lemma RetryBegins(cfg: Config, w: World, order: seq<Key>)
    requires Written(w) && w.phase.Idle?
    ensures Written(BeginRetry(cfg, w, order))
  {
    forall k | k in order && Lists(order, PendingDeletions(w.disk.journal)) ensures IsWaiting(w.disk.journal, k) {
      assert k in (set x | x in order);
      assert k in PendingDeletions(w.disk.journal);
    }
  }

  lemma ExchangeKeepsWritten(cfg: Config, w: World, wire: seq<Try>)
    requires 1 <= cfg.maxAttempts <= |wire| && Written(w)
    ensures Written(DoExchange(cfg, w, wire))
  {
    if w.phase.Retrying? && w.phase.todo != [] {
      var todo := w.phase.todo;
      assert todo[0] in todo;
      assert forall k :: k in todo[1..] ==> k in todo;
    }
  }

  lemma DeletionNoteKeeps(journal: Journal, max: nat, key: Key, ok: bool, k: Key)
    requires IsWaiting(journal, key)
    ensures RecordDeletion(journal, max, key, ok).Some?
    ensures var after := RecordDeletion(journal, max, key, ok).value;
            && (Announced(journal, k) ==> Announced(after, k))
            && (k != key && IsWaiting(journal, k) ==> IsWaiting(after, k))
  {
  }

  lemma SendNoteKeeps(journal: Journal, max: nat, key: Key, ok: bool, k: Key)
    requires Has(journal, key, ExportPending) && k != key
    ensures RecordSend(journal, max, key, ok).Some?
    ensures Announced(journal, k) ==> Announced(RecordSend(journal, max, key, ok).value, k)
  {
  }

  lemma DeletionWriteKeeps(w: World, journal: Option<Journal>, max: nat, key: Key, ok: bool, todo: seq<Key>)
    requires Written(w) && IsWaiting(w.disk.journal, key) && journal == RecordDeletion(w.disk.journal, max, key, ok)
    requires key !in todo && NoRepeats(todo) && forall k :: k in todo ==> IsWaiting(w.disk.journal, k)
    ensures Written(Noted(w, journal, Idle)) && Written(Noted(w, journal, Retrying(todo)))
  {
    forall k ensures (Announced(w.disk.journal, k) ==> Announced(journal.value, k))
                  && (k != key && IsWaiting(w.disk.journal, k) ==> IsWaiting(journal.value, k)) {
      DeletionNoteKeeps(w.disk.journal, max, key, ok, k);
    }
    DeletionNoteKeeps(w.disk.journal, max, key, ok, key);
    hide RecordDeletion;
  }

  lemma SendWriteKeeps(cfg: Config, w: World)
    requires Written(w) && w.phase.NotingSend?
    ensures Written(DoWrite(cfg, w))
  {
    forall k | k in w.removed ensures Announced(DoWrite(cfg, w).disk.journal, k) {
      SendNoteKeeps(w.disk.journal, cfg.maxEntries, Digest(w.phase.batch), w.phase.ok, k);
    }
  }

  lemma WriteKeepsWritten(cfg: Config, w: World)
    requires Written(w)
    ensures Written(DoWrite(cfg, w))
  {
    match w.phase
    case NotingSend(_, _) => SendWriteKeeps(cfg, w);
    case NotingDeletion(key, ok) =>
      DeletionWriteKeeps(w, RecordDeletion(w.disk.journal, cfg.maxEntries, key, ok), cfg.maxEntries, key, ok, []);
    case NotingRetry(key, ok, todo) =>
      DeletionWriteKeeps(w, RecordDeletion(w.disk.journal, cfg.maxEntries, key, ok), cfg.maxEntries, key, ok, todo);
    case _ =>
  }

  lemma StepKeepsWritten(cfg: Config, w: World, a: Action)
    requires cfg.maxAttempts >= 1 && Written(w)
    ensures Written(Step(cfg, w, a))
  {
    if a.Retry? && w.phase.Idle? {
      RetryBegins(cfg, w, a.order);
    } else if a.Exchange? && cfg.maxAttempts <= |a.wire| {
      ExchangeKeepsWritten(cfg, w, a.wire);
    } else if a.Write? {
      WriteKeepsWritten(cfg, w);
    }
  }

  /**
   Main result. After every run, with crashes and errors between any two effects, each batch whose local file a
   revocation has removed stands in the journal as waiting for deletion or deleted, until that batch is exported again;
   and memory never allows what the consent file forbids.
   */
  lemma {:induction false} EveryRunIsWritten(cfg: Config, w: World, actions: seq<Action>)
    requires cfg.maxAttempts >= 1 && Written(w)
    ensures Written(Run(cfg, w, actions))
    decreases |actions|
  {
    if actions != [] {
      EveryRunIsWritten(cfg, w, actions[..|actions| - 1]);
      StepKeepsWritten(cfg, Run(cfg, w, actions[..|actions| - 1]), actions[|actions| - 1]);
    }
  }

  // ---------------------------------------------------------------- the journal tells the truth about the receiver

  /** Acknowledgements come from the receiver, in the exchange this phase is about to make. */
  ghost predicate HonestStep(cfg: Config, w: World, a: Action) {
    a.Exchange? ==>
      match w.phase
      case Sending(batch) => Honest(a.wire, Post, Digest(batch), |batch|)
      case Deleting(key) => Honest(a.wire, Delete, key, 0)
      case Retrying(todo) => todo != [] ==> Honest(a.wire, Delete, todo[0], 0)
      case _ => true
  }

  ghost predicate HonestRun(cfg: Config, w: World, actions: seq<Action>)
    requires cfg.maxAttempts >= 1
    decreases |actions|
  {
    actions != [] ==>
      && HonestRun(cfg, w, actions[..|actions| - 1])
      && HonestStep(cfg, Run(cfg, w, actions[..|actions| - 1]), actions[|actions| - 1])
  }

  /** Whatever the receiver keeps is accounted for, what is recorded as sent it keeps, what as deleted it does not. */
  ghost predicate Matches(journal: Journal, remote: Receiver) {
    && (forall k :: k in remote.stored ==> k in journal && journal[k].status != Deleted)
    && (forall k :: k in journal && journal[k].status == ExportSent ==> k in remote.stored)
  }

  ghost predicate PhaseIsTruthful(w: World) {
    match w.phase
    case NotingSend(batch, ok) => ok ==> Digest(batch) in w.remote.stored
    case NotingDeletion(key, ok) => ok ==> key !in w.remote.stored
    case NotingRetry(key, ok, _) => ok ==> key !in w.remote.stored
    case _ => true
  }

  ghost predicate Truthful(w: World) {
    Written(w) && Matches(w.disk.journal, w.remote) && PhaseIsTruthful(w) && Balanced(w.remote)
  }

  lemma SendIsTruthful(cfg: Config, w: World, wire: seq<Try>)
    requires 1 <= cfg.maxAttempts <= |wire| && cfg.batchReceipt
    requires Truthful(w) && w.phase.Sending? && Honest(wire, Post, Digest(w.phase.batch), |w.phase.batch|)
    ensures Truthful(DoExchange(cfg, w, wire))
  {
    var batch := w.phase.batch;
    ExchangeKeepsWritten(cfg, w, wire);
    RequestKeepsBalance(w.remote, Post, Digest(batch), wire, cfg.maxAttempts);
    if SendSucceeds(wire, cfg.maxAttempts, true, Digest(batch), |batch|) {
      SentIsStored(w.remote, wire, cfg.maxAttempts, batch);
    }
  }

  lemma EraseIsTruthful(cfg: Config, journal: Journal, remote: Receiver, key: Key, wire: seq<Try>)
    requires 1 <= cfg.maxAttempts <= |wire| && cfg.deletionReceipt
    requires Matches(journal, remote) && Balanced(remote) && IsWaiting(journal, key) && Honest(wire, Delete, key, 0)
    ensures var (after, ok) := Erase(cfg, remote, key, wire);
            Matches(journal, after) && Balanced(after) && (ok ==> key !in after.stored)
  {
    RequestKeepsBalance(remote, Delete, key, wire, cfg.maxAttempts);
    if DeleteSucceeds(wire, cfg.maxAttempts, true, key) {
      DeletedIsGone(remote, wire, cfg.maxAttempts, key);
    }
  }

  lemma ExchangeIsTruthful(cfg: Config, w: World, wire: seq<Try>)
    requires 1 <= cfg.maxAttempts <= |wire| && cfg.batchReceipt && cfg.deletionReceipt
    requires Truthful(w) && HonestStep(cfg, w, Exchange(wire))
    ensures Truthful(DoExchange(cfg, w, wire))
  {
    ExchangeKeepsWritten(cfg, w, wire);
    match w.phase
    case Sending(_) => SendIsTruthful(cfg, w, wire);
    case Deleting(key) => EraseIsTruthful(cfg, w.disk.journal, w.remote, key, wire);
    case Retrying(todo) =>
      if todo != [] {
        assert todo[0] in todo;
        EraseIsTruthful(cfg, w.disk.journal, w.remote, todo[0], wire);
      }
    case _ =>
  }

  lemma SendNoteMatches(journal: Journal, remote: Receiver, max: nat, key: Key, ok: bool)
    requires Matches(journal, remote) && key in journal && journal[key].status == ExportPending
    requires ok ==> key in remote.stored
    ensures Matches(RecordSend(journal, max, key, ok).value, remote)
  {
  }

  lemma DeletionNoteMatches(journal: Journal, remote: Receiver, max: nat, key: Key, ok: bool)
    requires Matches(journal, remote) && IsWaiting(journal, key)
    requires ok ==> key !in remote.stored
    ensures Matches(RecordDeletion(journal, max, key, ok).value, remote)
  {
  }

  lemma WriteIsTruthful(cfg: Config, w: World)
    requires Truthful(w)
    ensures Matches(DoWrite(cfg, w).disk.journal, DoWrite(cfg, w).remote)
    ensures PhaseIsTruthful(DoWrite(cfg, w)) && Balanced(DoWrite(cfg, w).remote)
  {
    match w.phase
    case NotingSend(batch, ok) => SendNoteMatches(w.disk.journal, w.remote, cfg.maxEntries, Digest(batch), ok);
    case NotingDeletion(key, ok) => DeletionNoteMatches(w.disk.journal, w.remote, cfg.maxEntries, key, ok);
    case NotingRetry(key, ok, _) => DeletionNoteMatches(w.disk.journal, w.remote, cfg.maxEntries, key, ok);
    case _ =>
  }

  lemma StepIsTruthful(cfg: Config, w: World, a: Action)
    requires cfg.maxAttempts >= 1 && cfg.batchReceipt && cfg.deletionReceipt
    requires Truthful(w) && HonestStep(cfg, w, a)
    ensures Truthful(Step(cfg, w, a))
  {
    StepKeepsWritten(cfg, w, a);
    if a.Exchange? && cfg.maxAttempts <= |a.wire| {
      ExchangeIsTruthful(cfg, w, a.wire);
    } else if a.Write? {
      WriteIsTruthful(cfg, w);
    }
  }

  /**
   Main result. With receipts required and an honest receiver: after every run the receiver keeps no batch the journal
   does not know or calls deleted, keeps every batch the journal calls sent, and has stored each batch exactly once
   more than it has erased it while it keeps it, however many requests timed out after they had been applied.
   */
  lemma {:induction false} EveryRunIsTruthful(cfg: Config, w: World, actions: seq<Action>)
    requires cfg.maxAttempts >= 1 && cfg.batchReceipt && cfg.deletionReceipt
    requires Truthful(w) && HonestRun(cfg, w, actions)
    ensures Truthful(Run(cfg, w, actions))
    decreases |actions|
  {
    if actions != [] {
      EveryRunIsTruthful(cfg, w, actions[..|actions| - 1]);
      StepIsTruthful(cfg, Run(cfg, w, actions[..|actions| - 1]), actions[|actions| - 1]);
    }
  }

  // ---------------------------------------------------------------- at-least-once sends, exactly-once effect

  ghost predicate OnlyStored(r: Receiver) {
    Balanced(r) && r.erasures == multiset{}
  }

  lemma PostOnlyStores(r: Receiver, key: Key, wire: seq<Try>, max: nat)
    requires 1 <= max <= |wire| && OnlyStored(r)
    ensures OnlyStored(Reached(r, Post, key, wire, max))
  {
    RequestKeepsBalance(r, Post, key, wire, max);
  }

  /**
   Whatever the wire does, honest or not: while nothing is deleted, any sequence of exports, retried tries and timeouts
   after the receiver has already applied the request stores each distinct batch exactly once.
   */
  lemma {:induction false} EachBatchIsStoredOnce(cfg: Config, w: World, actions: seq<Action>, key: Key)
    requires cfg.maxAttempts >= 1 && !cfg.hasDeleteEndpoint && OnlyStored(w.remote)
    ensures var after := Run(cfg, w, actions).remote;
            OnlyStored(after) && after.writes[key] == if key in after.stored then 1 else 0
    decreases |actions|
  {
    if actions != [] {
      var before, last := Run(cfg, w, actions[..|actions| - 1]), actions[|actions| - 1];
      EachBatchIsStoredOnce(cfg, w, actions[..|actions| - 1], key);
      if last.Exchange? && before.phase.Sending? && cfg.maxAttempts <= |last.wire| {
        PostOnlyStores(before.remote, Digest(before.phase.batch), last.wire, cfg.maxAttempts);
      }
    }
  }

  /** Before the first export, with an empty journal and receiver, all of these premises hold. */
  lemma UnusedIsTruthful(consent: bool, file: Option<seq<Event>>)
    ensures var w := World(Disk(consent, file, map[]), consent, Idle, Receiver({}, multiset{}, multiset{}), {});
            Truthful(w) && OnlyStored(w.remote)
  {
  }

  /** And a batch the journal calls sent is one of them. */
  lemma SentIsStoredOnce(cfg: Config, w: World, actions: seq<Action>, key: Key)
    requires cfg.maxAttempts >= 1 && cfg.batchReceipt && cfg.deletionReceipt
    requires Truthful(w) && HonestRun(cfg, w, actions)
    requires Has(Run(cfg, w, actions).disk.journal, key, ExportSent)
    ensures var remote := Run(cfg, w, actions).remote;
            key in remote.stored && remote.writes[key] == remote.erasures[key] + 1
  {
    EveryRunIsTruthful(cfg, w, actions);
  }

  // ---------------------------------------------------------------- whole operations

  datatype ExportResult = Disabled | Empty | Sent(count: nat, key: Key) | Failed(key: Key)

  datatype Remote = NotConfigured | RemoteDeleted | RemoteFailed

  datatype RevokeResult = Revoked(remote: Remote) | NotRevoked

  /** An export that runs to its end. */
  function ExportAll(cfg: Config, w: World, wire: seq<Try>): (World, ExportResult)
    requires 1 <= cfg.maxAttempts <= |wire|
  {
    var batch := LogOf(w.disk);
    if !w.consented then (w, Disabled)
    else if batch == [] then (w, Empty)
    else
      var key := Digest(batch);
      var announced := RecordAttempt(w.disk.journal, cfg.maxEntries, key, |batch|);
      if announced.None? then (w, Failed(key))
      else
        var ok := SendSucceeds(wire, cfg.maxAttempts, cfg.batchReceipt, key, |batch|);
        var journal := RecordSend(announced.value, cfg.maxEntries, key, ok);
        (w.(disk := w.disk.(journal := journal.GetOr(announced.value)),
            remote := Reached(w.remote, Post, key, wire, cfg.maxAttempts),
            removed := w.removed - {key}),
         if ok then Sent(|batch|, key) else Failed(key))
  }

  /** A revocation that runs to its end. */
  function RevokeAll(cfg: Config, w: World, wire: seq<Try>): (World, RevokeResult)
    requires 1 <= cfg.maxAttempts <= |wire|
  {
    var batch := LogOf(w.disk);
    if !w.consented then (w, Revoked(NotConfigured))
    else if batch == [] then (w.(disk := Disk(false, None, w.disk.journal), consented := false), Revoked(NotConfigured))
    else
      var key := Digest(batch);
      var announced := RecordRevocation(w.disk.journal, cfg.maxEntries, key, |batch|);
      if announced.None? then (w, NotRevoked)
      else
        var local := w.(disk := Disk(false, None, announced.value), consented := false, removed := w.removed + {key});
        if !cfg.canDelete then (local, Revoked(NotConfigured))
        else
          var (remote, ok) := Erase(cfg, w.remote, key, wire);
          var journal := RecordDeletion(announced.value, cfg.maxEntries, key, ok);
          (local.(disk := Disk(false, None, journal.GetOr(announced.value)), remote := remote),
           Revoked(if ok then RemoteDeleted else RemoteFailed))
  }

  lemma RunOfThree(cfg: Config, w: World, a: Action, b: Action, c: Action)
    requires cfg.maxAttempts >= 1
    ensures Run(cfg, w, [a, b, c]) == Step(cfg, Step(cfg, Step(cfg, w, a), b), c)
  {
    assert [a, b, c][..2] == [a, b] && [a, b][..1] == [a] && [a][..0] == [];
    assert Run(cfg, w, [a]) == Step(cfg, w, a);
    assert Run(cfg, w, [a, b]) == Step(cfg, Run(cfg, w, [a]), b);
  }

  lemma RunOfFive(cfg: Config, w: World, a: Action, b: Action, c: Action, d: Action, e: Action)
    requires cfg.maxAttempts >= 1
    ensures Run(cfg, w, [a, b, c, d, e])
         == Step(cfg, Step(cfg, Step(cfg, Step(cfg, Step(cfg, w, a), b), c), d), e)
  {
    RunOfThree(cfg, w, a, b, c);
    assert [a, b, c, d, e][..4] == [a, b, c, d] && [a, b, c, d][..3] == [a, b, c];
    assert Run(cfg, w, [a, b, c, d]) == Step(cfg, Run(cfg, w, [a, b, c]), d);
  }

  /** The uninterrupted export is the run of its steps. */
  lemma ExportIsItsSteps(cfg: Config, w: World, wire: seq<Try>)
    requires 1 <= cfg.maxAttempts <= |wire| && w.phase.Idle?
    ensures Run(cfg, w, [Export, Exchange(wire), Write]) == ExportAll(cfg, w, wire).0
  {
    RunOfThree(cfg, w, Export, Exchange(wire), Write);
  }

  /** The revocation up to the removal of the file. */
  lemma RevocationLocally(cfg: Config, w: World)
    requires cfg.maxAttempts >= 1 && w.phase.Idle?
    ensures var batch := LogOf(w.disk);
            var announced := RecordRevocation(w.disk.journal, cfg.maxEntries, Digest(batch), |batch|);
            Step(cfg, Step(cfg, Step(cfg, w, Revoke), Write), Write)
            == if !w.consented || (batch != [] && announced.None?) then w
               else World(Disk(false, None, if batch == [] then w.disk.journal else announced.value),
                          false,
                          if batch == [] || !cfg.canDelete then Idle else Deleting(Digest(batch)),
                          w.remote,
                          if batch == [] then w.removed else w.removed + {Digest(batch)})
  {
  }

  lemma RevokeIsItsSteps(cfg: Config, w: World, wire: seq<Try>)
    requires 1 <= cfg.maxAttempts <= |wire| && w.phase.Idle?
    ensures Run(cfg, w, [Revoke, Write, Write, Exchange(wire), Write]) == RevokeAll(cfg, w, wire).0
  {
    RunOfFive(cfg, w, Revoke, Write, Write, Exchange(wire), Write);
    RevocationLocally(cfg, w);
  }

  /** A revocation reported as done leaves no event file exactly when collection was on, or there was no file. */
  lemma RevokedMeansNoFileIff(cfg: Config, w: World, wire: seq<Try>)
    requires 1 <= cfg.maxAttempts <= |wire| && RevokeAll(cfg, w, wire).1.Revoked?
    ensures RevokeAll(cfg, w, wire).0.disk.file.None? <==> w.consented || w.disk.file.None?
  {
  }

  /**
   A crash between saving the decision and removing the file leaves the file behind, and a later revocation, which
   finds collection already off, reports success without removing it.
   */
  lemma CrashedRevocationKeepsTheFile(cfg: Config, w: World, wire: seq<Try>, events: seq<Event>)
    requires 1 <= cfg.maxAttempts <= |wire| && w.phase.Idle? && w.consented
    requires w.disk.file == Some(events) && |w.disk.journal| < cfg.maxEntries
    ensures var w' := Run(cfg, w, [Revoke, Write, Crash]);
            && w'.disk.file == Some(events) && !w'.disk.consent
            && RevokeAll(cfg, w', wire) == (w', Revoked(NotConfigured))
  {
    RunOfThree(cfg, w, Revoke, Write, Crash);
  }

  // ---------------------------------------------------------------- the retry pass

  /** How the wire behaves for each key. */
  type Wires = map<Key, seq<Try>>

  ghost predicate Wired(cfg: Config, wires: Wires, keys: set<Key>) {
    cfg.maxAttempts >= 1 && forall k :: k in keys ==> k in wires && cfg.maxAttempts <= |wires[k]|
  }

  /** The keys a pass fails to delete. */
  ghost function Undeleted(cfg: Config, wires: Wires, keys: set<Key>): set<Key>
    requires Wired(cfg, wires, keys)
  {
    set k | k in keys && !EraseSucceeds(cfg, k, wires[k])
  }

  /** The journal after a pass over `done`: each of these is deleted or failed, whatever its order. */
  ghost predicate Passed(before: Journal, after: Journal, done: set<Key>, failed: set<Key>) {
    && after.Keys == before.Keys
    && failed <= done <= before.Keys
    && forall k :: k in before ==>
         after[k] == if k !in done then before[k]
                     else if k in failed then before[k].(status := DeletionFailed, error := Some("remote_delete_failed"))
                     else before[k].(status := Deleted, error := None)
  }

  lemma PassedOneMore(
    before: Journal, now: Journal, done: set<Key>, failed: set<Key>, max: nat, key: Key, ok: bool)
    requires Passed(before, now, done, failed) && key in before && key !in done
    ensures RecordDeletion(now, max, key, ok).Some?
    ensures Passed(before, RecordDeletion(now, max, key, ok).value, done + {key}, if ok then failed else failed + {key})
  {
  }

  /** How far a pass has come: `todo` is still to be tried, `lost` has failed. */
  ghost predicate PassSoFar(
    cfg: Config, wires: Wires, before: Journal, now: Journal, todo: set<Key>, lost: set<Key>, deleted: nat)
    requires Wired(cfg, wires, PendingDeletions(before))
  {
    var pending := PendingDeletions(before);
    && todo <= pending
    && lost == Undeleted(cfg, wires, pending - todo)
    && Passed(before, now, pending - todo, lost)
    && deleted + |lost| + |todo| == |pending|
  }

  lemma WaitingIsListed(journal: Journal, key: Key)
    requires key in PendingDeletions(journal)
    ensures key in journal
  {
  }

  lemma UndeletedOneMore(cfg: Config, wires: Wires, done: set<Key>, key: Key)
    requires Wired(cfg, wires, done + {key}) && key !in done
    ensures Undeleted(cfg, wires, done + {key})
         == Undeleted(cfg, wires, done) + if EraseSucceeds(cfg, key, wires[key]) then {} else {key}
    ensures key !in Undeleted(cfg, wires, done)
  {
    hide EraseSucceeds;
  }

  lemma PassStep(
    cfg: Config, wires: Wires, before: Journal, now: Journal, todo: set<Key>, lost: set<Key>, deleted: nat, key: Key,
    after: Journal)
    requires Wired(cfg, wires, PendingDeletions(before)) && PassSoFar(cfg, wires, before, now, todo, lost, deleted)
    requires key in todo
    requires var ok := EraseSucceeds(cfg, key, wires[key]); Some(after) == RecordDeletion(now, cfg.maxEntries, key, ok)
    ensures var ok := EraseSucceeds(cfg, key, wires[key]);
            PassSoFar(cfg, wires, before, after, todo - {key}, if ok then lost else lost + {key},
                      if ok then deleted + 1 else deleted)
  {
    hide RecordDeletion, EraseSucceeds, IsWaiting, Undeleted, Passed;
    var pending, ok := PendingDeletions(before), EraseSucceeds(cfg, key, wires[key]);
    assert key in before by { WaitingIsListed(before, key); }
    PassedOneMore(before, now, pending - todo, lost, cfg.maxEntries, key, ok);
    assert pending - (todo - {key}) == pending - todo + {key};
    UndeletedOneMore(cfg, wires, pending - todo, key);
  }

  /** After a pass over every waiting key, exactly the keys whose deletion failed are still waiting. */
  lemma PassLeavesTheFailed(before: Journal, after: Journal, failed: set<Key>)
    requires Passed(before, after, PendingDeletions(before), failed)
    ensures PendingDeletions(after) == failed
  {
    forall k ensures k in PendingDeletions(after) <==> k in failed {
      if k in before {
        assert k in PendingDeletions(before) <==> IsWaiting(before, k);
      }
    }
  }
}
