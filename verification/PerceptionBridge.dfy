/**
 The authority for host perception: one-shot sessions with an expiry, an interruption epoch below which everything is
 stale, an emergency fence, and collections in flight that race with all of them. A step runs between two awaits.
 */
module PerceptionBridge {
  import opened Text
  import opened Wrappers

  datatype Capability = Screenshot | TargetWindow | ActiveApplication | SelectedFile | Clipboard | Ocr

  datatype Scope = Scope(
    workspace: string, session: string, turn: string, request: string, generation: string, epoch: int)

  datatype Authorization = Authorization(
    capability: Capability,
    scope: Scope,
    granted: bool,
    source: Option<string>,
    ttl: Option<int>)

  datatype Session = Session(auth: Authorization, issuedAt: int, expiresAt: int)

  /** How a window selection has settled, once it has. */
  datatype Settled = Chosen(source: Option<string>) | Cancelled

  datatype Pending = Pending(auth: Authorization, settled: Option<Settled>)

  datatype Evidence = Evidence(id: string, capability: Capability, scope: Scope, capturedAt: int, expiresAt: int)

  datatype Code = Invalid | CodeCancelled | Expired | TooLarge | Unavailable

  /** What the provider of an in-flight collection came back with. */
  datatype Provided = Payload(size: nat) | ProviderTooLarge | ProviderFailed

  /**
   `issued` remembers every session ever issued, `log` all evidence returned; `aborted` are the sessions whose
   controller has been aborted.
   */
  datatype World = World(
    sessions: map<string, Session>,
    inFlight: map<string, Session>,
    pending: map<nat, Pending>,
    aborted: set<string>,
    minimum: int,
    fenced: bool,
    disposed: bool,
    issued: map<string, Session>,
    log: seq<Evidence>)

  const NEW := World(map[], map[], map[], {}, 0, false, false, map[], [])

  const MAX_TEXT := 128 * 1024
  const MAX_IMAGE := 4 * 1024 * 1024

  // ---------------------------------------------------------------- issuing

  predicate ValidScope(s: Scope) {
    && HasText(s.workspace) && HasText(s.session) && HasText(s.turn) && HasText(s.request) && HasText(s.generation)
    && s.epoch >= 0
  }

  function Max(a: int, b: int): int {
    if a < b then b else a
  }

  function Min(a: int, b: int): int {
    if a < b then a else b
  }

  function Ttl(requested: Option<int>): (ttl: int)
    ensures 1000 <= ttl <= 15000
  {
    Min(15000, Max(1000, requested.GetOr(10000)))
  }

  predicate MayIssue(w: World, auth: Authorization) {
    && !w.disposed
    && !w.fenced
    && auth.granted
    && ValidScope(auth.scope)
    && auth.scope.epoch >= w.minimum
    && (auth.capability.TargetWindow? ==> auth.source.Some? && HasText(auth.source.value))
  }

  /** `id` is the random identifier; one that was drawn before is not drawn again. */
  function Issue(w: World, auth: Authorization, id: string, now: int): World {
    if !MayIssue(w, auth) || id in w.issued then w
    else
      var session := Session(auth, now, now + Ttl(auth.ttl));
      w.(sessions := w.sessions[id := session], issued := w.issued[id := session])
  }

  /** The host route: a target window is first selected by the user. */
  function IssueAuthorized(w: World, auth: Authorization, cancelled: bool, ticket: nat, id: string, now: int): World {
    if cancelled then w
    else if !auth.capability.TargetWindow? then Issue(w, auth, id, now)
    else if auth.source.Some? || ticket in w.pending then w
    else w.(pending := w.pending[ticket := Pending(auth, None)])
  }

  function Settle(w: World, ticket: nat, how: Settled): World {
    if ticket !in w.pending || w.pending[ticket].settled.Some? then w
    else w.(pending := w.pending[ticket := w.pending[ticket].(settled := Some(how))])
  }

  function FinishSelection(w: World, ticket: nat, id: string, now: int): World {
    if ticket !in w.pending || w.pending[ticket].settled.None? then w
    else
      var p := w.pending[ticket];
      var w' := w.(pending := w.pending - {ticket});
      match p.settled.value
      case Cancelled => w'
      case Chosen(source) =>
        if source.None? || !HasText(source.value) then w' else Issue(w', p.auth.(source := source), id, now)
  }

  // ---------------------------------------------------------------- interrupting

  function Older(sessions: map<string, Session>, epoch: int): set<string> {
    set id | id in sessions && sessions[id].auth.scope.epoch < epoch
  }

  /** A selection that has already settled stays as it settled. */
  function AbortSelections(pending: map<nat, Pending>, epoch: Option<int>): map<nat, Pending> {
    map t | t in pending ::
      if pending[t].settled.None? && (epoch.None? || pending[t].auth.scope.epoch < epoch.value)
      then pending[t].(settled := Some(Cancelled)) else pending[t]
  }

  function Interrupt(w: World, next: int): World {
    if next < 0 then w
    else w.(
      minimum := Max(w.minimum, next),
      fenced := false,
      aborted := w.aborted + Older(w.sessions, next) + Older(w.inFlight, next),
      sessions := w.sessions - Older(w.sessions, next),
      pending := AbortSelections(w.pending, Some(next)))
  }

  function AbortAll(w: World): World {
    w.(aborted := w.aborted + w.sessions.Keys + w.inFlight.Keys,
       sessions := map[],
       pending := AbortSelections(w.pending, None))
  }

  function BeginStopFence(w: World): World {
    AbortAll(w).(fenced := true)
  }

  function Dispose(w: World): World {
    if w.disposed then w else AbortAll(w).(disposed := true)
  }

  // ---------------------------------------------------------------- collecting

  /** The part of a collection before its first await; `None` means the provider has been asked. */
  function StartCollect(w: World, id: string, capability: Capability, cancelled: bool, now: int)
    : (World, Option<Code>)
  {
    if id !in w.sessions then (w, Some(Invalid))
    else
      var session := w.sessions[id];
      var w' := w.(sessions := w.sessions - {id});
      if session.auth.capability != capability then (w', Some(Invalid))
      else if w.disposed || id in w.aborted then (w', Some(CodeCancelled))
      else if now >= session.expiresAt then (w', Some(Expired))
      else if cancelled then (w'.(aborted := w'.aborted + {id}), Some(CodeCancelled))
      else (w'.(inFlight := w'.inFlight[id := session]), None)
  }

  function Limit(capability: Capability): nat {
    if capability in {Screenshot, TargetWindow, Ocr} then MAX_IMAGE else MAX_TEXT
  }

  datatype Answer = Returned(evidence: Evidence) | Failure(code: Code)

  function AnswerOf(w: World, id: string, provided: Provided, checkedAt: int, capturedAt: int): Answer
    requires id in w.inFlight
  {
    var session := w.inFlight[id];
    var capability := session.auth.capability;
    if capability == Ocr || provided.ProviderFailed? then Failure(if id in w.aborted then CodeCancelled else Unavailable)
    else if id in w.aborted then Failure(CodeCancelled)
    else if provided.ProviderTooLarge? then Failure(TooLarge)
    else if checkedAt >= session.expiresAt then Failure(Expired)
    else if provided.size > Limit(capability) then Failure(TooLarge)
    else Returned(Evidence(id, capability, session.auth.scope, capturedAt, Min(session.expiresAt, capturedAt + 10000)))
  }

  /** The part after the await; the clock is read once for the check and again for the capture time. */
  function FinishCollect(w: World, id: string, provided: Provided, checkedAt: int, capturedAt: int): World {
    if id !in w.inFlight then w
    else
      var answer := AnswerOf(w, id, provided, checkedAt, capturedAt);
      w.(inFlight := w.inFlight - {id}, log := if answer.Returned? then w.log + [answer.evidence] else w.log)
  }

  // ---------------------------------------------------------------- runs

  datatype Action =
    | DoIssue(auth: Authorization, id: string, now: int)
    | DoIssueAuthorized(auth: Authorization, cancelled: bool, ticket: nat, id: string, now: int)
    | DoSettle(ticket: nat, how: Settled)
    | DoFinishSelection(ticket: nat, id: string, now: int)
    | DoInterrupt(next: int)
    | DoBeginStopFence
    | DoDispose
    | DoStartCollect(id: string, capability: Capability, cancelled: bool, now: int)
    | DoAbort(id: string)
    | DoFinishCollect(id: string, provided: Provided, checkedAt: int, capturedAt: int)

  /** `DoAbort` is the expiry timer or the caller's signal. */
  function Step(w: World, a: Action): World {
    match a
    case DoIssue(auth, id, now) => Issue(w, auth, id, now)
    case DoIssueAuthorized(auth, cancelled, ticket, id, now) => IssueAuthorized(w, auth, cancelled, ticket, id, now)
    case DoSettle(ticket, how) => Settle(w, ticket, how)
    case DoFinishSelection(ticket, id, now) => FinishSelection(w, ticket, id, now)
    case DoInterrupt(next) => Interrupt(w, next)
    case DoBeginStopFence => BeginStopFence(w)
    case DoDispose => Dispose(w)
    case DoStartCollect(id, capability, cancelled, now) => StartCollect(w, id, capability, cancelled, now).0
    case DoAbort(id) => if id in w.inFlight then w.(aborted := w.aborted + {id}) else w
    case DoFinishCollect(id, provided, checkedAt, capturedAt) => FinishCollect(w, id, provided, checkedAt, capturedAt)
  }

  function Run(w: World, actions: seq<Action>): World
    decreases |actions|
  {
    if actions == [] then w else Step(Run(w, actions[..|actions| - 1]), actions[|actions| - 1])
  }
}
