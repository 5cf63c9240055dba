/** Each visual job ends at most once, and no job is left active that nobody holds. */
module VisualOnce {
  import opened Wrappers
  import opened VisualJobs
  import VisualSafety

  /** A job that was requested and is no longer active; the log may have evicted it since. */
  predicate HasEnded(b: Book, job: Job) {
    job in b.owner && !IsActive(b, job)
  }

  /** A job that has ended has exactly one terminal event, any other none. */
  ghost predicate EndedOnce(b: Book) {
    && b.log.Keys <= b.owner.Keys
    && forall j :: b.ended[j] == if HasEnded(b, j) then 1 else 0
  }

  /** What is marked terminal belongs to a job that has ended. */
  ghost predicate RequestsMarked(b: Book, requests: map<Job, Request>) {
    forall j {:trigger requests[j]} :: j in requests ==>
      j in b.owner && b.owner[j] == requests[j].sid && (requests[j].terminal ==> HasEnded(b, j))
  }

  ghost predicate FramesMarked(b: Book, frames: map<Sid, Frame>) {
    forall s {:trigger frames[s]} :: s in frames ==>
      && frames[s].job in b.owner
      && b.owner[frames[s].job] == s
      && (frames[s].terminal ==> HasEnded(b, frames[s].job))
  }

  ghost predicate CopiesMarked(b: Book, analyses: map<nat, Analysis>) {
    forall t {:trigger analyses[t]} :: t in analyses && analyses[t].copy.terminal ==> HasEnded(b, analyses[t].copy.job)
  }

  predicate IsAwaited(w: World, job: Job) {
    job in w.requests && job in w.waiters && w.waiters[job].Waiting? && !w.requests[job].terminal
  }

  predicate IsHeld(w: World, job: Job) {
    job in w.book.owner && w.book.owner[job] in w.frames && w.frames[w.book.owner[job]].job == job
  }

  /** An active job is still awaited by its requester or is that of its client's latest frame. */
  ghost predicate NoneLost(w: World) {
    forall j {:trigger IsActive(w.book, j)} :: IsActive(w.book, j) ==> IsAwaited(w, j) || IsHeld(w, j)
  }

  ghost predicate Sound(w: World) {
    && EndedOnce(w.book)
    && RequestsMarked(w.book, w.requests)
    && FramesMarked(w.book, w.frames)
    && CopiesMarked(w.book, w.analyses)
    && NoneLost(w)
  }

  /** `b'` is `b` with some jobs ended. */
  ghost predicate Later(b: Book, b': Book) {
    && b'.owner == b.owner
    && b'.log.Keys == b.log.Keys
    && (EndedOnce(b) ==> EndedOnce(b'))
    && (forall j {:trigger HasEnded(b', j)} :: HasEnded(b, j) ==> HasEnded(b', j))
    && (forall j {:trigger IsActive(b', j)} :: IsActive(b', j) ==> IsActive(b, j))
  }

  lemma EndJobIsLater(b: Book, job: Job)
    ensures Later(b, EndJob(b, job)) && !IsActive(EndJob(b, job), job)
  {
  }

  lemma EndJobsIsLater(b: Book, jobs: set<Job>)
    ensures Later(b, EndJobs(b, jobs))
    ensures forall j :: j in jobs ==> !IsActive(EndJobs(b, jobs), j)
  {
    var b' := EndJobs(b, jobs);
    var ending := set j | j in jobs && IsActive(b, j);
    forall j ensures b'.ended[j] == b.ended[j] + if j in ending then 1 else 0 {}
    assert EndedOnce(b) ==> forall j :: HasEnded(b', j) <==> HasEnded(b, j) || j in ending;
  }

  lemma EndFrameIsLater(b: Book, f: Frame)
    requires f.terminal ==> HasEnded(b, f.job)
    ensures Later(b, EndFrame(b, f)) && !IsActive(EndFrame(b, f), f.job)
    ensures f.job in b.owner ==> HasEnded(EndFrame(b, f), f.job)
  {
    EndJobIsLater(b, f.job);
  }

  lemma LaterKeepsMarks(b: Book, b': Book, w: World)
    requires Later(b, b')
    ensures RequestsMarked(b, w.requests) ==> RequestsMarked(b', w.requests)
    ensures FramesMarked(b, w.frames) ==> FramesMarked(b', w.frames)
    ensures CopiesMarked(b, w.analyses) ==> CopiesMarked(b', w.analyses)
  {
    assert forall j :: HasEnded(b, j) ==> HasEnded(b', j);
  }

  // ---------------------------------------------------------------- steps

  lemma EndingKeepsSound(w: World, b': Book)
    requires Sound(w) && Later(w.book, b')
    ensures Sound(w.(book := b'))
  {
    LaterKeepsMarks(w.book, b', w);
    var w' := w.(book := b');
    forall j | IsActive(b', j) ensures IsAwaited(w', j) || IsHeld(w', j) {
      assert IsActive(w.book, j);
    }
  }

  function Created(b: Book, sid: Sid, job: Job): Book {
    b.(log := b.log[job := Active], owner := b.owner[job := sid])
  }

  lemma CreatingKeepsMarks(w: World, sid: Sid, job: Job)
    requires Sound(w) && job !in w.book.owner
    ensures var b := Created(w.book, sid, job);
            && EndedOnce(b)
            && RequestsMarked(b, w.requests) && FramesMarked(b, w.frames) && CopiesMarked(b, w.analyses)
            && (forall j {:trigger IsActive(b, j)} :: IsActive(b, j) <==> IsActive(w.book, j) || j == job)
  {
    var b := Created(w.book, sid, job);
    assert forall j :: HasEnded(b, j) <==> HasEnded(w.book, j);
    assert !HasEnded(w.book, job) && w.book.ended[job] == 0;
  }

  /** A request beside a pending one is created and ended at once. */
  lemma BusyRequestKeepsSound(w: World, sid: Sid, job: Job)
    requires Sound(w) && job !in w.book.owner
    ensures Sound(w.(book := EndJob(Created(w.book, sid, job), job)))
  {
    var b := Created(w.book, sid, job);
    var w' := w.(book := EndJob(b, job));
    CreatingKeepsMarks(w, sid, job);
    EndJobIsLater(b, job);
    LaterKeepsMarks(b, EndJob(b, job), w);
    forall j | IsActive(w'.book, j) ensures IsAwaited(w', j) || IsHeld(w', j) {
      assert IsActive(b, j) && j != job;
    }
  }

  lemma RequestKeepsSound(w: World, sid: Sid, job: Job, frameId: string, room: bool)
    requires Sound(w)
    ensures Sound(RequestCapture(w, sid, job, frameId, room))
  {
    if room && job !in w.book.owner {
      BusyRequestKeepsSound(w, sid, job);
      CreatingKeepsMarks(w, sid, job);
      var w' := w.(book := Created(w.book, sid, job),
                   requests := w.requests[job := Request(sid, frameId, false)],
                   waiters := w.waiters[job := Waiting]);
      forall j | IsActive(w'.book, j) ensures IsAwaited(w', j) || IsHeld(w', j) {
        assert j != job ==> IsActive(w.book, j);
      }
    }
  }

  lemma ResumeKeepsSound(w: World, job: Job, answered: bool)
    requires Sound(w) && (job in w.waiters && w.waiters[job] == Resolved(None) ==> job in w.requests && w.requests[job].terminal)
    ensures Sound(Resume(w, job, answered))
  {
    if job in w.requests {
      EndJobIsLater(w.book, job);
      LaterKeepsMarks(w.book, EndJob(w.book, job), w);
      var w' := Resume(w, job, answered);
      forall j | IsActive(w'.book, j) ensures IsAwaited(w', j) || IsHeld(w', j) {
        assert IsActive(w.book, j);
      }
    }
  }

  lemma ClientDiscardKeepsSound(w: World, sid: Sid, job: Job)
    requires Sound(w)
    ensures Sound(ClientDiscards(w, sid, job))
  {
    if job in w.requests && !w.requests[job].terminal && w.requests[job].sid == sid {
      EndJobIsLater(w.book, job);
      LaterKeepsMarks(w.book, EndJob(w.book, job), w);
      var w' := ClientDiscards(w, sid, job);
      assert HasEnded(w'.book, job);
      forall j | IsActive(w'.book, j) ensures IsAwaited(w', j) || IsHeld(w', j) {
        assert IsActive(w.book, j) && j != job;
      }
    }
  }

  lemma DiscardKeepsSound(w: World, sid: Sid, only: Option<Job>)
    requires Sound(w)
    ensures Sound(DiscardPending(w, sid, only))
  {
    var doomed := Doomed(w, sid, only);
    var ending := set j | j in doomed && j in w.requests && !w.requests[j].terminal;
    var w' := DiscardPending(w, sid, only);
    EndJobsIsLater(w.book, ending);
    LaterKeepsMarks(w.book, w'.book, w);
    forall j | j in doomed ensures HasEnded(w'.book, j) {
      assert w.requests[j].terminal ==> HasEnded(w.book, j);
    }
    forall j | IsActive(w'.book, j) ensures IsAwaited(w', j) || IsHeld(w', j) {
      assert IsActive(w.book, j) && j !in doomed;
    }
  }

  lemma CompleteKeepsSound(w: World, sid: Sid)
    requires Sound(w)
    ensures Sound(CompleteLatest(w, sid)) && Sound(DropLatest(w, sid))
  {
    if sid in w.frames {
      var f := w.frames[sid];
      EndFrameIsLater(w.book, f);
      LaterKeepsMarks(w.book, EndFrame(w.book, f), w);
      var c, d := CompleteLatest(w, sid), DropLatest(w, sid);
      forall j | IsActive(c.book, j) ensures (IsAwaited(c, j) || IsHeld(c, j)) && (IsAwaited(d, j) || IsHeld(d, j)) {
        assert IsActive(w.book, j) && j != f.job;
      }
    }
  }

  lemma CancelKeepsSound(w: World, sid: Sid)
    requires Sound(w)
    ensures Sound(CancelTask(w, sid))
  {
    var w' := CancelTask(w, sid);
    forall j | IsActive(w'.book, j) ensures IsAwaited(w', j) || IsHeld(w', j) {
      assert IsActive(w.book, j);
    }
  }

  /** A frame is put where there is none. */
  lemma PlacingKeepsSound(w: World, sid: Sid, f: Frame)
    requires Sound(w) && sid !in w.frames && f.job in w.book.owner && w.book.owner[f.job] == sid && !f.terminal
    ensures Sound(w.(frames := w.frames[sid := f]))
  {
    var w' := w.(frames := w.frames[sid := f]);
    forall j | IsActive(w'.book, j) ensures IsAwaited(w', j) || IsHeld(w', j) {
      assert IsActive(w.book, j);
    }
  }

  /** The requester of a held job may be answered. */
  lemma AnsweringKeepsSound(w: World, sid: Sid, job: Job, frameId: string)
    requires Sound(w) && IsHeld(w, job)
    ensures Sound(Resolve(w, sid, job, Some(frameId)))
  {
    var w' := Resolve(w, sid, job, Some(frameId));
    forall j | IsActive(w'.book, j) ensures IsAwaited(w', j) || IsHeld(w', j) {
      assert IsActive(w.book, j);
    }
  }

  /** Recording a frame of a known job drops the latest one and places the new one. */
  lemma RecordingIsPlacing(w: World, sid: Sid, job: Job, frameId: string)
    requires Sound(w) && job in w.book.log
    ensures var dropped := DropLatest(w, sid);
            RecordFrame(w, sid, job, frameId)
            == dropped.(frames := dropped.frames[sid := Frame(job, frameId, true, false)])
  {
    var dropped, f := DropLatest(w, sid), Frame(job, frameId, true, false);
    assert dropped.frames[sid := f] == w.frames[sid := f];
    assert job in dropped.book.log;
  }

  lemma ArrivalKeepsSound(w: World, sid: Sid, job: Job, frameId: string)
    requires Sound(w) && (Expected(w, sid, job, frameId) ==> job in w.book.log)
    ensures Sound(FrameArrives(w, sid, job, frameId))
  {
    if Expected(w, sid, job, frameId) {
      var dropped, f := DropLatest(w, sid), Frame(job, frameId, true, false);
      CompleteKeepsSound(w, sid);
      assert w.requests[job].sid == sid && job in w.book.owner;
      assert dropped.book.owner == w.book.owner;
      PlacingKeepsSound(dropped, sid, f);
      RecordingIsPlacing(w, sid, job, frameId);
      AnsweringKeepsSound(RecordFrame(w, sid, job, frameId), sid, job, frameId);
    }
  }

  lemma ScheduleKeepsSound(w: World, sid: Sid, task: nat)
    requires Sound(w)
    ensures Sound(Schedule(w, sid, task))
  {
    CancelKeepsSound(w, sid);
    if sid in w.frames && task !in w.analyses {
      var w' := Schedule(w, sid, task);
      forall j | IsActive(w'.book, j) ensures IsAwaited(w', j) || IsHeld(w', j) {
        assert IsActive(w.book, j);
      }
    }
  }

  lemma DropKeepsSound(w: World, task: nat)
    requires Sound(w) && task in w.analyses
    ensures Sound(DropTask(w, task))
  {
    var w' := DropTask(w, task);
    forall j | IsActive(w'.book, j) ensures IsAwaited(w', j) || IsHeld(w', j) {
      assert IsActive(w.book, j);
    }
  }

  lemma EndCopyKeepsSound(w: World, task: nat)
    requires Sound(w) && task in w.analyses
    ensures Sound(DropTask(w, task).(book := EndFrame(w.book, w.analyses[task].copy)))
  {
    DropKeepsSound(w, task);
    EndFrameIsLater(w.book, w.analyses[task].copy);
    EndingKeepsSound(DropTask(w, task), EndFrame(w.book, w.analyses[task].copy));
  }

  lemma AnswerKeepsSound(w: World, task: nat, error: bool)
    requires Sound(w)
    ensures Sound(AnalysisAnswers(w, task, error))
  {
    if task in w.analyses {
      DropKeepsSound(w, task);
      EndCopyKeepsSound(w, task);
      var w' := w.(analyses := w.analyses[task := w.analyses[task].(failed := Some(error))]);
      forall j | IsActive(w'.book, j) ensures IsAwaited(w', j) || IsHeld(w', j) {
        assert IsActive(w.book, j);
      }
    }
  }

  lemma ConcludeKeepsSound(w: World, task: nat)
    requires Sound(w)
    ensures Sound(AnalysisConcludes(w, task))
  {
    if task in w.analyses {
      CompleteKeepsSound(w, w.analyses[task].sid);
      DropKeepsSound(w, task);
      DropKeepsSound(CompleteLatest(w, w.analyses[task].sid), task);
    }
  }

  /** A frame arrives for an expected capture whose job the log has evicted. */
  predicate Revives(w: World, a: Action) {
    a.DoFrame? && Expected(w, a.sid, a.job, a.frameId) && a.job !in w.book.log
  }

  /** Eviction makes no job active or inactive, so nothing that was said of jobs changes. */
  lemma EvictingIsSilent(b: Book, job: Job)
    requires IsOver(b, job)
    ensures var b' := b.(log := b.log - {job});
            && (forall j {:trigger IsActive(b', j)} :: IsActive(b', j) <==> IsActive(b, j))
            && (forall j {:trigger HasEnded(b', j)} :: HasEnded(b', j) <==> HasEnded(b, j))
            && (EndedOnce(b) ==> EndedOnce(b'))
  {
  }

  lemma EvictKeepsSound(w: World, job: Job)
    requires Sound(w)
    ensures Sound(Step(w, DoEvict(job)))
  {
    hide HasEnded, IsActive;
    var w' := Step(w, DoEvict(job));
    if IsOver(w.book, job) {
      EvictingIsSilent(w.book, job);
      forall j | IsActive(w'.book, j) ensures IsAwaited(w', j) || IsHeld(w', j) {
        assert IsActive(w.book, j);
      }
    }
  }

  lemma StepKeepsSound(w: World, a: Action)
    requires Sound(w) && !Revives(w, a)
    requires forall j :: j in w.waiters && w.waiters[j] == Resolved(None) ==> j in w.requests && w.requests[j].terminal
    ensures Sound(Step(w, a))
  {
    match a
    case DoRequest(sid, job, frameId, room) => RequestKeepsSound(w, sid, job, frameId, room);
    case DoResume(job, answered) => ResumeKeepsSound(w, job, answered);
    case DoClientDiscard(sid, job) => ClientDiscardKeepsSound(w, sid, job);
    case DoFrame(sid, job, frameId) => ArrivalKeepsSound(w, sid, job, frameId);
    case DoSchedule(sid, task) => ScheduleKeepsSound(w, sid, task);
    case DoUseLatest(sid) => CompleteKeepsSound(w, sid);
    case DoExpireLatest(sid) => CompleteKeepsSound(w, sid);
    case DoClear(sid) =>
      DiscardKeepsSound(w, sid, None);
      CompleteKeepsSound(DiscardPending(w, sid, None), sid);
      CancelKeepsSound(DropLatest(DiscardPending(w, sid, None), sid), sid);
    case DoInterrupt(sid, only) =>
      DiscardKeepsSound(w, sid, only);
      CancelKeepsSound(DiscardPending(w, sid, only), sid);
      CompleteKeepsSound(CancelTask(DiscardPending(w, sid, only), sid), sid);
    case DoAnswer(task, error) => AnswerKeepsSound(w, task, error);
    case DoConclude(task) => ConcludeKeepsSound(w, task);
    case DoCancelled(task) => if task in w.analyses { EndCopyKeepsSound(w, task); }
    case DoEvict(job) => EvictKeepsSound(w, job);
  }

  /** Such a frame makes an ended job active again, and nothing else does. */
  lemma StepKeepsSoundIff(w: World, a: Action)
    requires Sound(w)
    requires forall j :: j in w.waiters && w.waiters[j] == Resolved(None) ==> j in w.requests && w.requests[j].terminal
    ensures Sound(Step(w, a)) <==> !Revives(w, a)
    ensures Revives(w, a) ==> HasEnded(w.book, a.job) && IsActive(Step(w, a).book, a.job)
  {
    if Revives(w, a) {
      RevivedIsActive(w, a.sid, a.job, a.frameId);
    } else {
      StepKeepsSound(w, a);
    }
  }

  lemma RevivedIsActive(w: World, sid: Sid, job: Job, frameId: string)
    requires Sound(w) && Revives(w, DoFrame(sid, job, frameId))
    ensures var after := FrameArrives(w, sid, job, frameId);
            HasEnded(w.book, job) && IsActive(after.book, job) && !EndedOnce(after.book)
  {
    assert w.requests[job].sid == sid;
    assert HasEnded(w.book, job) && w.book.ended[job] == 1;
    var book := if sid in w.frames then EndFrame(w.book, w.frames[sid]) else w.book;
    var after := FrameArrives(w, sid, job, frameId);
    assert after.book == book.(log := book.log[job := Active]);
    assert after.book.ended[job] >= 1 && !HasEnded(after.book, job);
  }

  // ---------------------------------------------------------------- runs

  predicate NeverRevives(actions: seq<Action>) {
    forall i :: 0 <= i < |actions| ==> !Revives(Run(actions[..i]), actions[i])
  }

  lemma NeverRevivesPrefix(actions: seq<Action>)
    requires actions != []
    ensures var n := |actions| - 1;
            NeverRevives(actions) <==> NeverRevives(actions[..n]) && !Revives(Run(actions[..n]), actions[n])
  {
    hide Run, Revives;
    var n := |actions| - 1;
    assert forall k :: 0 <= k < n ==> actions[..n][..k] == actions[..k];
    if NeverRevives(actions[..n]) {
      forall k | 0 <= k < n ensures !Revives(Run(actions[..k]), actions[k]) {
        assert actions[..n][k] == actions[k];
      }
    }
  }

  lemma {:induction false} EveryRunIsSound(actions: seq<Action>)
    requires NeverRevives(actions)
    ensures Sound(Run(actions))
  {
    if actions != [] {
      var front, last := actions[..|actions| - 1], actions[|actions| - 1];
      NeverRevivesPrefix(actions);
      EveryRunIsSound(front);
      VisualSafety.EveryRunIsPaired(front);
      StepKeepsSound(Run(front), last);
    }
  }

  ghost predicate AlwaysSound(actions: seq<Action>) {
    forall n :: 0 <= n <= |actions| ==> Sound(Run(actions[..n]))
  }

  /** The books stay sound throughout a run exactly when no frame of the run revives an evicted job. */
  lemma {:induction false} AlwaysSoundIff(actions: seq<Action>)
    ensures AlwaysSound(actions) <==> NeverRevives(actions)
  {
    if AlwaysSound(actions) {
      forall i | 0 <= i < |actions| ensures !Revives(Run(actions[..i]), actions[i]) {
        assert Sound(Run(actions[..i])) && Sound(Run(actions[..i + 1]));
        assert actions[..i + 1][..i] == actions[..i];
        VisualSafety.EveryRunIsPaired(actions[..i]);
        StepKeepsSoundIff(Run(actions[..i]), actions[i]);
      }
    }
    if NeverRevives(actions) {
      forall n | 0 <= n <= |actions| ensures Sound(Run(actions[..n])) {
        assert forall k :: 0 <= k < n ==> actions[..n][..k] == actions[..k];
        assert NeverRevives(actions[..n]);
        EveryRunIsSound(actions[..n]);
      }
    }
  }

  /** The log evicts only jobs whose request is no longer pending. */
  predicate EvictsNoRequest(actions: seq<Action>) {
    forall i :: 0 <= i < |actions| && actions[i].DoEvict? ==> actions[i].job !in Run(actions[..i]).requests
  }

  predicate KeysStay(w: World, after: World) {
    after.requests.Keys <= w.requests.Keys && w.book.log.Keys <= after.book.log.Keys
  }

  lemma LatestKeysStay(w: World, sid: Sid)
    ensures KeysStay(w, CompleteLatest(w, sid)) && KeysStay(w, DropLatest(w, sid)) && KeysStay(w, CancelTask(w, sid))
  {
  }

  lemma DiscardKeysStay(w: World, sid: Sid, only: Option<Job>)
    ensures KeysStay(w, DiscardPending(w, sid, only))
  {
  }

  lemma AnswerKeysStay(w: World, task: nat, error: bool)
    ensures KeysStay(w, AnalysisAnswers(w, task, error))
  {
  }

  lemma ConcludeKeysStay(w: World, task: nat)
    ensures KeysStay(w, AnalysisConcludes(w, task))
  {
    hide CompleteLatest;
    if task in w.analyses { LatestKeysStay(w, w.analyses[task].sid); }
  }

  lemma CancelledKeysStay(w: World, task: nat)
    ensures KeysStay(w, AnalysisCancelled(w, task))
  {
  }

  lemma ClearKeysStay(w: World, sid: Sid)
    ensures KeysStay(w, ClearContext(w, sid))
  {
    hide DiscardPending, DropLatest, CancelTask;
    DiscardKeysStay(w, sid, None);
    LatestKeysStay(DiscardPending(w, sid, None), sid);
    LatestKeysStay(DropLatest(DiscardPending(w, sid, None), sid), sid);
  }

  lemma InterruptKeysStay(w: World, sid: Sid, only: Option<Job>)
    ensures KeysStay(w, InterruptTurn(w, sid, only))
  {
    hide DiscardPending, DropLatest, CancelTask;
    DiscardKeysStay(w, sid, only);
    LatestKeysStay(DiscardPending(w, sid, only), sid);
    LatestKeysStay(CancelTask(DiscardPending(w, sid, only), sid), sid);
  }

  lemma StepKeysStay(w: World, a: Action)
    requires !a.DoRequest? && !a.DoEvict?
    ensures KeysStay(w, Step(w, a))
  {
    hide ClearContext, InterruptTurn, CompleteLatest, DropLatest, CancelTask;
    hide AnalysisAnswers, AnalysisConcludes, AnalysisCancelled;
    match a
    case DoUseLatest(sid) => LatestKeysStay(w, sid);
    case DoExpireLatest(sid) => LatestKeysStay(w, sid);
    case DoSchedule(sid, _) => LatestKeysStay(w, sid);
    case DoClear(sid) => ClearKeysStay(w, sid);
    case DoInterrupt(sid, only) => InterruptKeysStay(w, sid, only);
    case DoAnswer(task, error) => AnswerKeysStay(w, task, error);
    case DoConclude(task) => ConcludeKeysStay(w, task);
    case DoCancelled(task) => CancelledKeysStay(w, task);
    case _ =>
  }

  lemma StepKeepsLogged(w: World, a: Action)
    requires w.requests.Keys <= w.book.log.Keys && (a.DoEvict? ==> a.job !in w.requests)
    ensures Step(w, a).requests.Keys <= Step(w, a).book.log.Keys
  {
    if !a.DoRequest? && !a.DoEvict? {
      hide Step;
      StepKeysStay(w, a);
    } else if a.DoRequest? {
      RequestStaysLogged(w, a.sid, a.job, a.frameId, a.room);
    } else {
      EvictStaysLogged(w, a.job);
    }
  }

  lemma RequestStaysLogged(w: World, sid: Sid, job: Job, frameId: string, room: bool)
    requires w.requests.Keys <= w.book.log.Keys
    ensures var after := Step(w, DoRequest(sid, job, frameId, room)); after.requests.Keys <= after.book.log.Keys
  {
  }

  lemma EvictStaysLogged(w: World, job: Job)
    requires w.requests.Keys <= w.book.log.Keys && job !in w.requests
    ensures var after := Step(w, DoEvict(job)); after.requests.Keys <= after.book.log.Keys
  {
  }

  lemma {:induction false} RequestsAreLogged(actions: seq<Action>)
    requires EvictsNoRequest(actions)
    ensures Run(actions).requests.Keys <= Run(actions).book.log.Keys
    ensures NeverRevives(actions)
  {
    if actions != [] {
      var n := |actions| - 1;
      assert EvictsNoRequest(actions[..n]) by {
        assert forall k :: 0 <= k < n ==> actions[..n][..k] == actions[..k];
      }
      RequestsAreLogged(actions[..n]);
      NeverRevivesPrefix(actions);
      StepKeepsLogged(Run(actions[..n]), actions[n]);
    }
  }

  /**
   Main result. While the log evicts no job whose request is pending: every job gets at most one terminal event, and
   every job without one is still awaited by its requester or is that of its client's latest frame.
   */
  lemma EveryJobEndsOnce(actions: seq<Action>, job: Job)
    requires EvictsNoRequest(actions)
    ensures var w := Run(actions);
            && w.book.ended[job] <= 1
            && (job in w.book.owner ==> w.book.ended[job] == 1 || IsAwaited(w, job) || IsHeld(w, job))
  {
    RequestsAreLogged(actions);
    EveryRunIsSound(actions);
    var w := Run(actions);
    assert job in w.book.owner ==> HasEnded(w.book, job) || IsActive(w.book, job);
  }

  function Repeated(sid: Sid, job: Job, frameId: string): seq<Action> {
    [DoRequest(sid, job, frameId, true), DoFrame(sid, job, frameId), DoFrame(sid, job, frameId),
     DoEvict(job), DoFrame(sid, job, frameId), DoUseLatest(sid)]
  }

  lemma FirstHalf(sid: Sid, job: Job, frameId: string)
    ensures var book := Book(map[job := Ended], map[job := sid], multiset{job});
            Run(Repeated(sid, job, frameId)[..3])
            == World(book, map[job := Request(sid, frameId, false)], map[job := Resolved(Some(frameId))],
                     map[sid := Frame(job, frameId, true, false)], map[], map[])
  {
    var a := Repeated(sid, job, frameId);
    var requests, frames := map[job := Request(sid, frameId, false)], map[sid := Frame(job, frameId, true, false)];
    var active := Book(map[job := Active], map[job := sid], multiset{});
    assert a[..3][..2] == a[..2] && a[..2][..1] == a[..1] && a[..1][..0] == [];
    assert Run(a[..1]) == World(active, requests, map[job := Waiting], map[], map[], map[]);
    assert Run(a[..2]) == World(active, requests, map[job := Resolved(Some(frameId))], frames, map[], map[]);
    assert active.log[job := Ended] == map[job := Ended];
  }

  function Stored(sid: Sid, job: Job, frameId: string, book: Book): World {
    World(book, map[job := Request(sid, frameId, false)], map[job := Resolved(Some(frameId))],
          map[sid := Frame(job, frameId, true, false)], map[], map[])
  }

  /** An ended job, evicted, comes back with the next frame. */
  lemma FrameRevives(sid: Sid, job: Job, frameId: string)
    ensures var ended := Stored(sid, job, frameId, Book(map[job := Ended], map[job := sid], multiset{job}));
            Step(Step(ended, DoEvict(job)), DoFrame(sid, job, frameId))
            == Stored(sid, job, frameId, Book(map[job := Active], map[job := sid], multiset{job}))
  {
    var ended := Stored(sid, job, frameId, Book(map[job := Ended], map[job := sid], multiset{job}));
    var evicted := Step(ended, DoEvict(job));
    assert ended.book.log - {job} == map[];
    assert evicted == Stored(sid, job, frameId, Book(map[], map[job := sid], multiset{job}));
    assert RecordFrame(evicted, sid, job, frameId)
        == Stored(sid, job, frameId, Book(map[job := Active], map[job := sid], multiset{job}));
  }

  lemma UsingEndsTheJob(w: World, sid: Sid)
    requires sid in w.frames && !w.frames[sid].terminal && IsActive(w.book, w.frames[sid].job)
    ensures var job := w.frames[sid].job; Step(w, DoUseLatest(sid)).book.ended[job] == w.book.ended[job] + 1
  {
  }

  lemma RunOfThreeMore(a: seq<Action>, w3: World, w5: World)
    requires |a| == 6 && Run(a[..3]) == w3 && Step(Step(w3, a[3]), a[4]) == w5
    ensures Run(a) == Step(w5, a[5])
  {
    assert a[..5][..4] == a[..4] && a[..4][..3] == a[..3] && a[..|a| - 1] == a[..5];
    assert Run(a[..4]) == Step(Run(a[..3]), a[3]);
    assert Run(a[..5]) == Step(Run(a[..4]), a[4]);
  }

  /**
   Where the log evicts a job whose request is pending the first half fails: a frame that arrives again before its
   requester resumes re-creates the ended job, and the job ends a second time.
   */
  lemma EvictedJobMayEndTwice(sid: Sid, job: Job, frameId: string)
    ensures Run(Repeated(sid, job, frameId)).book.ended[job] == 2
  {
    var w3 := Stored(sid, job, frameId, Book(map[job := Ended], map[job := sid], multiset{job}));
    var w5 := Stored(sid, job, frameId, Book(map[job := Active], map[job := sid], multiset{job}));
    FirstHalf(sid, job, frameId);
    FrameRevives(sid, job, frameId);
    RunOfThreeMore(Repeated(sid, job, frameId), w3, w5);
    UsingEndsTheJob(w5, sid);
  }
}
