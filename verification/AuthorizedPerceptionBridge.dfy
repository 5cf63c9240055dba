/** The bridge as an object: every method is the step of the run model. */
module AuthorizedBridge {
  import opened Text
  import opened Wrappers
  import opened PerceptionBridge

  class AuthorizedPerceptionBridge {
    var sessions: map<string, Session>
    var inFlight: map<string, Session>
    var pending: map<nat, Pending>
    var aborted: set<string>
    var minimum: int
    var fenced: bool
    var disposed: bool
    ghost var issued: map<string, Session>
    ghost var log: seq<Evidence>

    ghost function View(): World
      reads this
    {
      World(sessions, inFlight, pending, aborted, minimum, fenced, disposed, issued, log)
    }

    constructor ()
      ensures View() == NEW
    {
      sessions, inFlight, pending, aborted := map[], map[], map[], {};
      minimum, fenced, disposed := 0, false, false;
      issued, log := map[], [];
    }

    /** False stands for the thrown error. Identifiers come from 32 random bytes. */
    method IssueSession(auth: Authorization, id: string, now: int) returns (ok: bool)
      requires id !in issued
      modifies this
      ensures View() == Issue(old(View()), auth, id, now)
      ensures ok == MayIssue(old(View()), auth)
      ensures ok ==> id in sessions
    {
      if disposed || fenced || !auth.granted || !ValidScope(auth.scope) || auth.scope.epoch < minimum {
        return false;
      }
      if auth.capability.TargetWindow? && (auth.source.None? || !HasText(auth.source.value)) {
        return false;
      }
      var requested := auth.ttl.GetOr(10000);
      var ttl := if requested < 1000 then 1000 else if requested > 15000 then 15000 else requested;
      var session := Session(auth, now, now + ttl);
      sessions := sessions[id := session];
      issued := issued[id := session];
      return true;
    }

    method AuthorizeFromHost(auth: Authorization, cancelled: bool, ticket: nat, id: string, now: int)
      returns (ok: bool)
      requires id !in issued && ticket !in pending
      modifies this
      ensures View() == IssueAuthorized(old(View()), auth, cancelled, ticket, id, now)
    {
      if cancelled {
        return false;
      }
      if !auth.capability.TargetWindow? {
        ok := IssueSession(auth, id, now);
        return;
      }
      if auth.source.Some? {
        return false;
      }
      pending := pending[ticket := Pending(auth, None)];
      return true;
    }

    /** After the selection has settled; the entry goes in every case. */
    method ResumeAuthorization(ticket: nat, id: string, now: int) returns (ok: bool)
      requires ticket in pending && pending[ticket].settled.Some? && id !in issued
      modifies this
      ensures View() == PerceptionBridge.FinishSelection(old(View()), ticket, id, now)
    {
      var p := pending[ticket];
      pending := pending - {ticket};
      if p.settled.value.Cancelled? {
        return false;
      }
      var source := p.settled.value.source;
      if source.None? || !HasText(source.value) {
        return false;
      }
      ok := IssueSession(p.auth.(source := source), id, now);
    }

    /** Aborts the controllers of the waiting and running sessions older than `next`, dropping the waiting ones. */
    method AbortSessions(next: int)
      modifies this`sessions, this`aborted
      ensures sessions == old(sessions) - Older(old(sessions), next)
      ensures aborted == old(aborted) + Older(old(sessions), next) + Older(inFlight, next)
    {
      var todo := sessions.Keys;
      while todo != {}
        invariant todo <= sessions.Keys
        invariant sessions == old(sessions) - (Older(old(sessions), next) - todo)
        invariant aborted == old(aborted) + (Older(old(sessions), next) - todo)
      {
        var id :| id in todo;
        if sessions[id].auth.scope.epoch < next {
          aborted := aborted + {id};
          sessions := sessions - {id};
        }
        todo := todo - {id};
      }
      todo := inFlight.Keys;
      ghost var stale := Older(old(sessions), next);
      while todo != {}
        invariant todo <= inFlight.Keys
        invariant sessions == old(sessions) - stale
        invariant aborted == old(aborted) + stale + (Older(inFlight, next) - todo)
      {
        var id :| id in todo;
        if inFlight[id].auth.scope.epoch < next {
          aborted := aborted + {id};
        }
        todo := todo - {id};
      }
    }

    method AbortPending(epoch: Option<int>)
      modifies this`pending
      ensures pending == AbortSelections(old(pending), epoch)
    {
      var todo := pending.Keys;
      while todo != {}
        invariant pending.Keys == old(pending).Keys && todo <= pending.Keys
        invariant forall t :: t in pending ==>
          pending[t] == if t in todo then old(pending)[t] else AbortSelections(old(pending), epoch)[t]
      {
        var t := PickTicket(todo);
        var p := pending[t];
        if p.settled.None? && (epoch.None? || p.auth.scope.epoch < epoch.value) {
          pending := pending[t := p.(settled := Some(Cancelled))];
        }
        todo := todo - {t};
      }
      assert pending == AbortSelections(old(pending), epoch);
    }

    method Interrupt(next: int) returns (ok: bool)
      modifies this
      ensures View() == PerceptionBridge.Interrupt(old(View()), next)
      ensures ok == (next >= 0)
    {
      if next < 0 {
        return false;
      }
      if minimum < next {
        minimum := next;
      }
      fenced := false;
      AbortSessions(next);
      AbortPending(Some(next));
      return true;
    }

    method AbortEverything()
      modifies this`sessions, this`aborted, this`pending
      ensures sessions == map[] && aborted == old(aborted) + old(sessions).Keys + inFlight.Keys
      ensures pending == AbortSelections(old(pending), None)
    {
      aborted := aborted + sessions.Keys + inFlight.Keys;
      AbortPending(None);
      sessions := map[];
    }

    method BeginStopFence()
      modifies this
      ensures View() == PerceptionBridge.BeginStopFence(old(View()))
    {
      fenced := true;
      AbortEverything();
    }

    method Dispose()
      modifies this
      ensures View() == PerceptionBridge.Dispose(old(View()))
    {
      if disposed {
        return;
      }
      disposed := true;
      AbortEverything();
    }

    /** `None` means the provider has been asked and the collection is in flight. */
    method BeginCollect(id: string, capability: Capability, cancelled: bool, now: int) returns (code: Option<Code>)
      modifies this
      ensures (View(), code) == StartCollect(old(View()), id, capability, cancelled, now)
    {
      if id !in sessions {
        return Some(Invalid);
      }
      var session := sessions[id];
      sessions := sessions - {id};
      if session.auth.capability != capability {
        return Some(Invalid);
      }
      if disposed || id in aborted {
        return Some(CodeCancelled);
      }
      if now >= session.expiresAt {
        return Some(Expired);
      }
      if cancelled {
        aborted := aborted + {id};
        return Some(CodeCancelled);
      }
      inFlight := inFlight[id := session];
      return None;
    }

    method EndCollect(id: string, provided: Provided, checkedAt: int, capturedAt: int) returns (answer: Answer)
      requires id in inFlight
      modifies this
      ensures answer == AnswerOf(old(View()), id, provided, checkedAt, capturedAt)
      ensures View() == FinishCollect(old(View()), id, provided, checkedAt, capturedAt)
    {
      var session, stopped := inFlight[id], id in aborted;
      var capability := session.auth.capability;
      inFlight := inFlight - {id};
      if capability == Ocr || provided.ProviderFailed? {
        return Failure(if stopped then CodeCancelled else Unavailable);
      }
      if stopped {
        return Failure(CodeCancelled);
      }
      if provided.ProviderTooLarge? {
        return Failure(TooLarge);
      }
      if checkedAt >= session.expiresAt {
        return Failure(Expired);
      }
      if provided.size > Limit(capability) {
        return Failure(TooLarge);
      }
      var expires := capturedAt + 10000;
      if session.expiresAt < expires {
        expires := session.expiresAt;
      }
      var evidence := Evidence(id, capability, session.auth.scope, capturedAt, expires);
      log := log + [evidence];
      return Returned(evidence);
    }
  }

  lemma SomeTicket(tickets: set<nat>)
    ensures tickets == {} || exists t :: t in tickets
  {
    if forall t :: t !in tickets {
      assert tickets == {};
    }
  }

  method PickTicket(tickets: set<nat>) returns (t: nat)
    requires tickets != {}
    ensures t in tickets
  {
    SomeTicket(tickets);
    t :| t in tickets;
  }
}
