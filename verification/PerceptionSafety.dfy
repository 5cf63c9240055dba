/** What every run of the perception bridge keeps. */
module PerceptionSafety {
  import opened Wrappers
  import opened PerceptionBridge

  /** A session that may still yield evidence belongs to the current epoch, outside any fence and before disposal. */
  predicate Current(w: World, s: Session) {
    s.auth.scope.epoch >= w.minimum && !w.fenced && !w.disposed
  }

  ghost predicate Fenced(w: World) {
    && (forall id {:trigger id in w.sessions} :: id in w.sessions ==>
          id !in w.aborted && Current(w, w.sessions[id]))
    && (forall id {:trigger id in w.inFlight} :: id in w.inFlight && id !in w.aborted ==>
          Current(w, w.inFlight[id]))
  }

  predicate TimesHold(s: Session) {
    s.issuedAt + 1000 <= s.expiresAt <= s.issuedAt + 15000
  }

  /** An identifier is waiting, in flight, or spent; what it stands for is what was issued. */
  ghost predicate Tracked(w: World) {
    && (forall id {:trigger id in w.sessions} :: id in w.sessions ==>
          id in w.issued && w.sessions[id] == w.issued[id] && id !in w.inFlight)
    && (forall id {:trigger id in w.inFlight} :: id in w.inFlight ==> id in w.issued && w.inFlight[id] == w.issued[id])
    && (forall id {:trigger id in w.aborted} :: id in w.aborted ==> id in w.issued)
    && (forall id {:trigger w.issued[id]} :: id in w.issued ==> TimesHold(w.issued[id]))
  }

  predicate Spent(w: World, id: string) {
    id in w.issued && id !in w.sessions && id !in w.inFlight
  }

  /** Evidence carries exactly the scope and capability issued, and expires within both bounds. */
  predicate Faithful(w: World, e: Evidence) {
    && e.id in w.issued
    && e.capability == w.issued[e.id].auth.capability
    && e.scope == w.issued[e.id].auth.scope
    && e.expiresAt <= w.issued[e.id].issuedAt + 15000
    && e.expiresAt <= e.capturedAt + 10000
  }

  ghost predicate OneShot(w: World) {
    && (forall i :: 0 <= i < |w.log| ==> Spent(w, w.log[i].id) && Faithful(w, w.log[i]))
    && (forall i, j :: 0 <= i < j < |w.log| ==> w.log[i].id != w.log[j].id)
  }

  ghost predicate Safe(w: World) {
    Fenced(w) && Tracked(w) && OneShot(w)
  }

  // ---------------------------------------------------------------- steps

  lemma IssueKeeps(w: World, auth: Authorization, id: string, now: int)
    requires Safe(w)
    ensures Safe(Issue(w, auth, id, now))
  {
  }

  lemma PendingIsIndependent(w: World, pending: map<nat, Pending>)
    requires Safe(w)
    ensures Safe(w.(pending := pending))
  {
  }

  lemma InterruptKeeps(w: World, next: int)
    requires Safe(w)
    ensures Safe(Interrupt(w, next))
  {
  }

  lemma AbortAllKeeps(w: World, fenced: bool, disposed: bool)
    requires Safe(w)
    ensures Safe(AbortAll(w).(fenced := fenced, disposed := disposed))
  {
  }

  /** Taking a waiting session out spends its identifier; it may then be aborted, or put in flight. */
  lemma TakingKeeps(w: World, id: string)
    requires Safe(w) && id in w.sessions
    ensures Safe(w.(sessions := w.sessions - {id})) && Spent(w.(sessions := w.sessions - {id}), id)
  {
  }

  lemma AbortingSpentKeeps(w: World, id: string)
    requires Safe(w) && Spent(w, id)
    ensures Safe(w.(aborted := w.aborted + {id}))
  {
  }

  lemma LaunchingKeeps(w: World, id: string)
    requires Safe(w) && id in w.sessions
    ensures Safe(w.(sessions := w.sessions - {id}, inFlight := w.inFlight[id := w.sessions[id]]))
  {
  }

  lemma StartCollectKeeps(w: World, id: string, capability: Capability, cancelled: bool, now: int)
    requires Safe(w)
    ensures Safe(StartCollect(w, id, capability, cancelled, now).0)
  {
    if id in w.sessions {
      TakingKeeps(w, id);
      AbortingSpentKeeps(w.(sessions := w.sessions - {id}), id);
      LaunchingKeeps(w, id);
    }
  }

  lemma FinishCollectKeeps(w: World, id: string, provided: Provided, checkedAt: int, capturedAt: int)
    requires Safe(w)
    ensures Safe(FinishCollect(w, id, provided, checkedAt, capturedAt))
  {
  }

  lemma StepKeeps(w: World, a: Action)
    requires Safe(w)
    ensures Safe(Step(w, a))
  {
    match a
    case DoIssue(auth, id, now) => IssueKeeps(w, auth, id, now);
    case DoIssueAuthorized(auth, cancelled, ticket, id, now) =>
      IssueKeeps(w, auth, id, now);
      PendingIsIndependent(w, w.pending[ticket := Pending(auth, None)]);
    case DoSettle(ticket, how) => PendingIsIndependent(w, Settle(w, ticket, how).pending);
    case DoFinishSelection(ticket, id, now) =>
      var w' := w.(pending := w.pending - {ticket});
      PendingIsIndependent(w, w.pending - {ticket});
      if ticket in w.pending && w.pending[ticket].settled.Some? && w.pending[ticket].settled.value.Chosen? {
        IssueKeeps(w', w.pending[ticket].auth.(source := w.pending[ticket].settled.value.source), id, now);
      }
    case DoInterrupt(next) => InterruptKeeps(w, next);
    case DoBeginStopFence => AbortAllKeeps(w, true, w.disposed);
    case DoDispose => AbortAllKeeps(w, w.fenced, true);
    case DoStartCollect(id, capability, cancelled, now) => StartCollectKeeps(w, id, capability, cancelled, now);
    case DoAbort(id) =>
    case DoFinishCollect(id, provided, checkedAt, capturedAt) =>
      FinishCollectKeeps(w, id, provided, checkedAt, capturedAt);
  }

  lemma {:induction false} EveryRunIsSafe(w: World, actions: seq<Action>)
    requires Safe(w)
    ensures Safe(Run(w, actions))
    decreases |actions|
  {
    if actions != [] {
      EveryRunIsSafe(w, actions[..|actions| - 1]);
      StepKeeps(Run(w, actions[..|actions| - 1]), actions[|actions| - 1]);
    }
  }

  lemma NewIsSafe()
    ensures Safe(NEW)
  {
  }

  /**
   Main result. In every run each issued identifier yields at most one evidence object, however often and with whatever
   capability it is collected, and that object is faithful to what was issued.
   */
  lemma EvidenceIsOneShot(actions: seq<Action>)
    ensures var w := Run(NEW, actions);
            && (forall i, j :: 0 <= i < j < |w.log| ==> w.log[i].id != w.log[j].id)
            && (forall i :: 0 <= i < |w.log| ==> Faithful(w, w.log[i]))
  {
    NewIsSafe();
    EveryRunIsSafe(NEW, actions);
  }

  // ---------------------------------------------------------------- what a step can return

  /** A spent identifier stays spent. */
  lemma SpentStays(w: World, a: Action, id: string)
    requires Tracked(w) && Spent(w, id)
    ensures Spent(Step(w, a), id)
  {
  }

  /** Only a collect that finishes adds to the log. */
  lemma OtherStepsReturnNothing(w: World, a: Action)
    requires !a.DoFinishCollect?
    ensures Step(w, a).log == w.log && w.minimum <= Step(w, a).minimum && (w.disposed ==> Step(w, a).disposed)
  {
  }

  lemma FinishIsCurrent(w: World, id: string, provided: Provided, checkedAt: int, capturedAt: int)
    requires Safe(w)
    ensures var w' := FinishCollect(w, id, provided, checkedAt, capturedAt);
            && w.log <= w'.log && |w'.log| <= |w.log| + 1
            && w.minimum <= w'.minimum
            && (w.disposed ==> w'.disposed)
            && (|w'.log| > |w.log| ==>
                  var e := w'.log[|w.log|];
                  e.scope.epoch >= w.minimum && !w.fenced && !w.disposed && !Spent(w, e.id))
  {
  }

  /** A step returns at most one evidence object, and only of a session current at that very step. */
  lemma EvidenceIsCurrent(w: World, a: Action)
    requires Safe(w)
    ensures var w' := Step(w, a);
            && w.log <= w'.log && |w'.log| <= |w.log| + 1
            && w.minimum <= w'.minimum
            && (w.disposed ==> w'.disposed)
            && (|w'.log| > |w.log| ==>
                  var e := w'.log[|w.log|];
                  e.scope.epoch >= w.minimum && !w.fenced && !w.disposed && !Spent(w, e.id))
  {
    hide FinishCollect, Safe;
    if a.DoFinishCollect? {
      FinishIsCurrent(w, a.id, a.provided, a.checkedAt, a.capturedAt);
    } else {
      OtherStepsReturnNothing(w, a);
    }
  }

  /** What any number of steps may do to the log, the minimum and the disposal. */
  ghost predicate Follows(w: World, w': World) {
    && w.log <= w'.log
    && w.minimum <= w'.minimum
    && (w.disposed ==> w'.disposed && w'.log == w.log)
    && (forall i :: |w.log| <= i < |w'.log| ==> w'.log[i].scope.epoch >= w.minimum)
  }

  lemma StepFollows(w: World, a: Action)
    requires Safe(w)
    ensures Follows(w, Step(w, a))
  {
    EvidenceIsCurrent(w, a);
  }

  lemma FollowsOn(u: World, v: World, w: World)
    requires Follows(u, v) && Follows(v, w)
    ensures Follows(u, w)
  {
  }

  lemma {:induction false} SpentForever(w: World, actions: seq<Action>, id: string)
    requires Safe(w) && Spent(w, id)
    ensures Spent(Run(w, actions), id)
    decreases |actions|
  {
    if actions != [] {
      SpentForever(w, actions[..|actions| - 1], id);
      EveryRunIsSafe(w, actions[..|actions| - 1]);
      SpentStays(Run(w, actions[..|actions| - 1]), actions[|actions| - 1], id);
    }
  }

  /**
   Main result. Whatever follows a state of a run: the minimum epoch never falls, later evidence belongs to an epoch no
   older than the minimum was, and a disposed bridge returns nothing more.
   */
  lemma {:induction false} NothingStaleLater(w: World, actions: seq<Action>)
    requires Safe(w)
    ensures Follows(w, Run(w, actions))
    decreases |actions|
  {
    if actions != [] {
      var before, last := Run(w, actions[..|actions| - 1]), actions[|actions| - 1];
      NothingStaleLater(w, actions[..|actions| - 1]);
      EveryRunIsSafe(w, actions[..|actions| - 1]);
      StepFollows(before, last);
      FollowsOn(w, before, Step(before, last));
    }
  }

  ghost predicate NoneOf(w: World, w': World, id: string) {
    w.log <= w'.log && forall i :: |w.log| <= i < |w'.log| ==> w'.log[i].id != id
  }

  lemma SpentStepYieldsNothing(w: World, a: Action, id: string)
    requires Safe(w) && Spent(w, id)
    ensures NoneOf(w, Step(w, a), id)
  {
    EvidenceIsCurrent(w, a);
  }

  lemma NoneOfOn(u: World, v: World, w: World, id: string)
    requires NoneOf(u, v, id) && NoneOf(v, w, id)
    ensures NoneOf(u, w, id)
  {
  }

  /** Nothing collected later comes from an identifier that is already spent. */
  lemma {:induction false} SpentYieldsNothing(w: World, actions: seq<Action>, id: string)
    requires Safe(w) && Spent(w, id)
    ensures NoneOf(w, Run(w, actions), id)
    decreases |actions|
  {
    if actions != [] {
      var front, last := actions[..|actions| - 1], actions[|actions| - 1];
      var before := Run(w, front);
      SpentYieldsNothing(w, front, id);
      SpentForever(w, front, id);
      EveryRunIsSafe(w, front);
      SpentStepYieldsNothing(before, last, id);
      NoneOfOn(w, before, Step(before, last), id);
    }
  }

  predicate NoInterrupt(actions: seq<Action>) {
    forall i :: 0 <= i < |actions| ==> !actions[i].DoInterrupt?
  }

  lemma FenceStep(w: World, a: Action)
    requires Safe(w) && w.fenced && !a.DoInterrupt?
    ensures Step(w, a).fenced && Step(w, a).log == w.log && Step(w, a).issued == w.issued
  {
  }

  /** While the fence is up, that is until the next interruption, nothing is returned and nothing is issued. */
  lemma {:induction false} FenceHolds(w: World, actions: seq<Action>)
    requires Safe(w) && w.fenced && NoInterrupt(actions)
    ensures var w' := Run(w, actions); w'.fenced && w'.log == w.log && w'.issued == w.issued
    decreases |actions|
  {
    if actions != [] {
      FenceHolds(w, actions[..|actions| - 1]);
      EveryRunIsSafe(w, actions[..|actions| - 1]);
      FenceStep(Run(w, actions[..|actions| - 1]), actions[|actions| - 1]);
    }
  }

  /** A collect uses up the identifier even when it asks for the wrong capability. */
  lemma WrongCapabilitySpends(
    w: World, id: string, capability: Capability, cancelled: bool, now: int, later: seq<Action>)
    requires Safe(w) && id in w.sessions && w.sessions[id].auth.capability != capability
    ensures var (w', code) := StartCollect(w, id, capability, cancelled, now);
            code == Some(Invalid) && forall i :: |w'.log| <= i < |Run(w', later).log| ==> Run(w', later).log[i].id != id
  {
    var w' := StartCollect(w, id, capability, cancelled, now).0;
    StepKeeps(w, DoStartCollect(id, capability, cancelled, now));
    assert Spent(w', id);
    SpentYieldsNothing(w', later, id);
  }

  // ---------------------------------------------------------------- captured before the expiry

  /** Returned evidence was captured before it expires exactly when it was captured before its session expires. */
  lemma CapturedInTimeIff(w: World, id: string, provided: Provided, checkedAt: int, capturedAt: int)
    requires id in w.inFlight && AnswerOf(w, id, provided, checkedAt, capturedAt).Returned?
    ensures var e := AnswerOf(w, id, provided, checkedAt, capturedAt).evidence;
            e.capturedAt < e.expiresAt <==> capturedAt < w.inFlight[id].expiresAt
  {
  }

  predicate InTime(log: seq<Evidence>) {
    forall i :: 0 <= i < |log| ==> log[i].capturedAt < log[i].expiresAt
  }

  /** One reading serves the check and the capture. */
  predicate OneReading(a: Action) {
    a.DoFinishCollect? ==> a.checkedAt == a.capturedAt
  }

  lemma StepStaysInTime(w: World, a: Action)
    requires InTime(w.log) && OneReading(a)
    ensures InTime(Step(w, a).log)
  {
  }

  /** In every run where the check and the capture read the same time, all evidence is captured before it expires. */
  lemma {:induction false} EveryRunIsInTime(w: World, actions: seq<Action>)
    requires InTime(w.log) && forall i :: 0 <= i < |actions| ==> OneReading(actions[i])
    ensures InTime(Run(w, actions).log)
    decreases |actions|
  {
    if actions != [] {
      EveryRunIsInTime(w, actions[..|actions| - 1]);
      StepStaysInTime(Run(w, actions[..|actions| - 1]), actions[|actions| - 1]);
    }
  }

  /** With two readings, evidence can be captured when its session has already expired. */
  lemma CapturedAfterExpiry(auth: Authorization, id: string)
    requires MayIssue(NEW, auth) && auth.capability == Clipboard && auth.ttl == Some(1000)
    ensures var w := Run(NEW, [DoIssue(auth, id, 0), DoStartCollect(id, Clipboard, false, 0),
                               DoFinishCollect(id, Payload(1), 999, 1001)]);
            |w.log| == 1 && w.log[0].capturedAt > w.log[0].expiresAt
  {
    var a := [DoIssue(auth, id, 0), DoStartCollect(id, Clipboard, false, 0), DoFinishCollect(id, Payload(1), 999, 1001)];
    assert a[..2][..1] == [a[0]] && a[..2][1] == a[1] && [a[0]][..0] == [];
    var w1 := Step(NEW, a[0]);
    var w2 := Step(w1, a[1]);
    assert Run(NEW, [a[0]]) == w1;
    assert Run(NEW, a[..2]) == w2;
    assert w2.inFlight == map[id := Session(auth, 0, 1000)];
  }
}
