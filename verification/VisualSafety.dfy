/** What every run of the visual capture jobs keeps. */
module VisualSafety {
  import opened Wrappers
  import opened VisualJobs

  // ---------------------------------------------------------------- the correlated maps

  /**
   Requests and waiters have the same keys, a client has at most one pending capture, and a waiter is answered with the
   frame it asked for, or with none when its job has been ended.
   */
  ghost predicate Paired(requests: map<Job, Request>, waiters: map<Job, Waiter>) {
    && requests.Keys == waiters.Keys
    && (forall j, k {:trigger requests[j].sid, requests[k].sid} ::
          j in requests && k in requests && requests[j].sid == requests[k].sid ==> j == k)
    && (forall j {:trigger waiters[j]} :: j in waiters && waiters[j].Resolved? ==>
          match waiters[j].frameId
          case Some(f) => f == requests[j].frameId
          case None => requests[j].terminal)
  }

  lemma RequestKeepsPaired(w: World, sid: Sid, job: Job, frameId: string, room: bool)
    requires Paired(w.requests, w.waiters)
    ensures var w' := RequestCapture(w, sid, job, frameId, room); Paired(w'.requests, w'.waiters)
  {
    if PendingOf(w, sid) == {} {
      assert forall j :: j in w.requests && w.requests[j].sid == sid ==> j in PendingOf(w, sid);
    }
  }

  lemma MarkKeepsPaired(requests: map<Job, Request>, waiters: map<Job, Waiter>, job: Job)
    requires Paired(requests, waiters) && job in requests
    ensures Paired(requests[job := requests[job].(terminal := true)], waiters)
  {
  }

  lemma DropKeepsPaired(requests: map<Job, Request>, waiters: map<Job, Waiter>, job: Job)
    requires Paired(requests, waiters)
    ensures Paired(requests - {job}, waiters - {job})
  {
  }

  lemma ResumeKeepsPaired(w: World, job: Job, answered: bool)
    requires Paired(w.requests, w.waiters)
    ensures var w' := Resume(w, job, answered); Paired(w'.requests, w'.waiters)
  {
    if job in w.requests {
      MarkKeepsPaired(w.requests, w.waiters, job);
      DropKeepsPaired(w.requests, w.waiters, job);
      DropKeepsPaired(w.requests[job := w.requests[job].(terminal := true)], w.waiters, job);
    }
  }

  lemma ResolveKeepsPaired(w: World, sid: Sid, job: Job, frameId: Option<string>)
    requires Paired(w.requests, w.waiters)
    requires job in w.requests && (if frameId.Some? then frameId.value == w.requests[job].frameId else w.requests[job].terminal)
    ensures var w' := Resolve(w, sid, job, frameId); Paired(w'.requests, w'.waiters)
  {
  }

  lemma ClientDiscardKeepsPaired(w: World, sid: Sid, job: Job)
    requires Paired(w.requests, w.waiters)
    ensures var w' := ClientDiscards(w, sid, job); Paired(w'.requests, w'.waiters)
  {
    if job in w.requests && !w.requests[job].terminal {
      MarkKeepsPaired(w.requests, w.waiters, job);
      ResolveKeepsPaired(CompleteRequest(w, job), sid, job, None);
    }
  }

  lemma DiscardKeepsPaired(w: World, sid: Sid, only: Option<Job>)
    requires Paired(w.requests, w.waiters)
    ensures var w' := DiscardPending(w, sid, only); Paired(w'.requests, w'.waiters)
  {
    var doomed := Doomed(w, sid, only);
    var w' := DiscardPending(w, sid, only);
    assert forall j :: j in w'.requests ==> w'.requests[j].sid == w.requests[j].sid;
  }

  lemma FramesLeavePairs(w: World, sid: Sid)
    ensures CompleteLatest(w, sid).requests == w.requests && CompleteLatest(w, sid).waiters == w.waiters
    ensures DropLatest(w, sid).requests == w.requests && DropLatest(w, sid).waiters == w.waiters
    ensures CancelTask(w, sid).requests == w.requests && CancelTask(w, sid).waiters == w.waiters
  {
  }

  lemma RecordLeavesPairs(w: World, sid: Sid, job: Job, frameId: string)
    ensures RecordFrame(w, sid, job, frameId).requests == w.requests
    ensures RecordFrame(w, sid, job, frameId).waiters == w.waiters
  {
    FramesLeavePairs(w, sid);
  }

  lemma AnalysesLeavePairs(w: World, sid: Sid, task: nat, error: bool)
    ensures Schedule(w, sid, task).requests == w.requests && Schedule(w, sid, task).waiters == w.waiters
    ensures AnalysisAnswers(w, task, error).requests == w.requests
    ensures AnalysisAnswers(w, task, error).waiters == w.waiters
    ensures AnalysisCancelled(w, task).requests == w.requests && AnalysisCancelled(w, task).waiters == w.waiters
  {
  }

  lemma ConclusionLeavesPairs(w: World, task: nat)
    ensures AnalysisConcludes(w, task).requests == w.requests && AnalysisConcludes(w, task).waiters == w.waiters
  {
  }

  lemma ClearLeavesTheRest(w: World, sid: Sid, only: Option<Job>)
    ensures var d := DiscardPending(w, sid, only);
            && ClearContext(w, sid).requests == DiscardPending(w, sid, None).requests
            && ClearContext(w, sid).waiters == DiscardPending(w, sid, None).waiters
            && InterruptTurn(w, sid, only).requests == d.requests
            && InterruptTurn(w, sid, only).waiters == d.waiters
  {
    var all, some := DiscardPending(w, sid, None), DiscardPending(w, sid, only);
    FramesLeavePairs(all, sid);
    FramesLeavePairs(DropLatest(all, sid), sid);
    FramesLeavePairs(some, sid);
    FramesLeavePairs(CancelTask(some, sid), sid);
  }

  lemma StepKeepsPaired(w: World, a: Action)
    requires Paired(w.requests, w.waiters)
    ensures Paired(Step(w, a).requests, Step(w, a).waiters)
  {
    match a
    case DoRequest(sid, job, frameId, room) => RequestKeepsPaired(w, sid, job, frameId, room);
    case DoResume(job, answered) => ResumeKeepsPaired(w, job, answered);
    case DoClientDiscard(sid, job) => ClientDiscardKeepsPaired(w, sid, job);
    case DoFrame(sid, job, frameId) =>
      RecordLeavesPairs(w, sid, job, frameId);
      if Expected(w, sid, job, frameId) {
        ResolveKeepsPaired(RecordFrame(w, sid, job, frameId), sid, job, Some(frameId));
      }
    case DoClear(sid) =>
      DiscardKeepsPaired(w, sid, None);
      ClearLeavesTheRest(w, sid, None);
    case DoInterrupt(sid, only) =>
      DiscardKeepsPaired(w, sid, only);
      ClearLeavesTheRest(w, sid, only);
    case DoUseLatest(sid) => FramesLeavePairs(w, sid);
    case DoExpireLatest(sid) => FramesLeavePairs(w, sid);
    case DoEvict(_) =>
    case DoSchedule(sid, task) => AnalysesLeavePairs(w, sid, task, false);
    case DoAnswer(task, error) => AnalysesLeavePairs(w, "", task, error);
    case DoConclude(task) => ConclusionLeavesPairs(w, task);
    case DoCancelled(task) => AnalysesLeavePairs(w, "", task, false);
  }

  /** Main result, for every interleaving, evictions from the log included. */
  lemma {:induction false} EveryRunIsPaired(actions: seq<Action>)
    ensures Paired(Run(actions).requests, Run(actions).waiters)
  {
    if actions != [] {
      EveryRunIsPaired(actions[..|actions| - 1]);
      StepKeepsPaired(Run(actions[..|actions| - 1]), actions[|actions| - 1]);
    }
  }

  // ---------------------------------------------------------------- images

  predicate NoImageOnceEnded(f: Frame) {
    f.terminal ==> !f.image
  }

  ghost predicate Hidden(frames: map<Sid, Frame>, analyses: map<nat, Analysis>) {
    && (forall s {:trigger frames[s]} :: s in frames ==> NoImageOnceEnded(frames[s]))
    && (forall t {:trigger analyses[t]} :: t in analyses ==> NoImageOnceEnded(analyses[t].copy))
  }

  lemma FramesKeepHidden(w: World, sid: Sid)
    requires Hidden(w.frames, w.analyses)
    ensures Hidden(CompleteLatest(w, sid).frames, CompleteLatest(w, sid).analyses)
    ensures Hidden(DropLatest(w, sid).frames, DropLatest(w, sid).analyses)
    ensures Hidden(CancelTask(w, sid).frames, CancelTask(w, sid).analyses)
  {
  }

  lemma ArrivalKeepsHidden(w: World, sid: Sid, job: Job, frameId: string)
    requires Hidden(w.frames, w.analyses)
    ensures var w' := FrameArrives(w, sid, job, frameId); Hidden(w'.frames, w'.analyses)
  {
    FramesKeepHidden(w, sid);
  }

  lemma DiscardKeepsFrames(w: World, sid: Sid, only: Option<Job>)
    ensures DiscardPending(w, sid, only).frames == w.frames && DiscardPending(w, sid, only).analyses == w.analyses
  {
  }

  lemma ScheduleKeepsHidden(w: World, sid: Sid, task: nat)
    requires Hidden(w.frames, w.analyses)
    ensures var w' := Schedule(w, sid, task); Hidden(w'.frames, w'.analyses)
  {
    FramesKeepHidden(w, sid);
  }

  lemma AnswerKeepsHidden(w: World, task: nat, error: bool)
    requires Hidden(w.frames, w.analyses)
    ensures var w' := AnalysisAnswers(w, task, error); Hidden(w'.frames, w'.analyses)
  {
  }

  lemma CancelledKeepsHidden(w: World, task: nat)
    requires Hidden(w.frames, w.analyses)
    ensures var w' := AnalysisCancelled(w, task); Hidden(w'.frames, w'.analyses)
  {
  }

  lemma ConclusionKeepsHidden(w: World, task: nat)
    requires Hidden(w.frames, w.analyses)
    ensures var w' := AnalysisConcludes(w, task); Hidden(w'.frames, w'.analyses)
  {
    if task in w.analyses {
      FramesKeepHidden(w, w.analyses[task].sid);
    }
  }

  lemma ClearKeepsHidden(w: World, sid: Sid, only: Option<Job>)
    requires Hidden(w.frames, w.analyses)
    ensures Hidden(ClearContext(w, sid).frames, ClearContext(w, sid).analyses)
    ensures Hidden(InterruptTurn(w, sid, only).frames, InterruptTurn(w, sid, only).analyses)
  {
    var all, some := DiscardPending(w, sid, None), DiscardPending(w, sid, only);
    DiscardKeepsFrames(w, sid, None);
    DiscardKeepsFrames(w, sid, only);
    FramesKeepHidden(all, sid);
    FramesKeepHidden(DropLatest(all, sid), sid);
    FramesKeepHidden(some, sid);
    FramesKeepHidden(CancelTask(some, sid), sid);
  }

  lemma RequestKeepsFrames(w: World, sid: Sid, job: Job, frameId: string, room: bool)
    ensures RequestCapture(w, sid, job, frameId, room).frames == w.frames
    ensures RequestCapture(w, sid, job, frameId, room).analyses == w.analyses
  {
  }

  lemma ResumeKeepsFrames(w: World, job: Job, answered: bool)
    ensures Resume(w, job, answered).frames == w.frames && Resume(w, job, answered).analyses == w.analyses
  {
  }

  lemma ClientDiscardKeepsFrames(w: World, sid: Sid, job: Job)
    ensures ClientDiscards(w, sid, job).frames == w.frames && ClientDiscards(w, sid, job).analyses == w.analyses
  {
  }

  lemma StepKeepsHidden(w: World, a: Action)
    requires Hidden(w.frames, w.analyses)
    ensures Hidden(Step(w, a).frames, Step(w, a).analyses)
  {
    match a
    case DoFrame(sid, job, frameId) => ArrivalKeepsHidden(w, sid, job, frameId);
    case DoSchedule(sid, task) => ScheduleKeepsHidden(w, sid, task);
    case DoAnswer(task, error) => AnswerKeepsHidden(w, task, error);
    case DoCancelled(task) => CancelledKeepsHidden(w, task);
    case DoConclude(task) => ConclusionKeepsHidden(w, task);
    case DoUseLatest(sid) => FramesKeepHidden(w, sid);
    case DoExpireLatest(sid) => FramesKeepHidden(w, sid);
    case DoClear(sid) => ClearKeepsHidden(w, sid, None);
    case DoInterrupt(sid, only) => ClearKeepsHidden(w, sid, only);
    case DoRequest(sid, job, frameId, room) => RequestKeepsFrames(w, sid, job, frameId, room);
    case DoResume(job, answered) => ResumeKeepsFrames(w, job, answered);
    case DoClientDiscard(sid, job) => ClientDiscardKeepsFrames(w, sid, job);
    case DoEvict(_) =>
  }

  lemma {:induction false} EndedFramesHoldNoImage(actions: seq<Action>)
    ensures Hidden(Run(actions).frames, Run(actions).analyses)
  {
    if actions != [] {
      EndedFramesHoldNoImage(actions[..|actions| - 1]);
      StepKeepsHidden(Run(actions[..|actions| - 1]), actions[|actions| - 1]);
    }
  }
}
