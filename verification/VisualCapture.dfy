/** The visual maps of the socket server as fields; every method is the step of the run model. */
module VisualCapture {
  import opened Wrappers
  import opened VisualJobs

  class VisualServer {
    var jobEvents: Book
    var requests: map<Job, Request>
    var waiters: map<Job, Waiter>
    var frames: map<Sid, Frame>
    var tasks: map<Sid, nat>
    var analyses: map<nat, Analysis>

    ghost function View(): World
      reads this
    {
      World(jobEvents, requests, waiters, frames, tasks, analyses)
    }

    constructor ()
      ensures View() == NEW
    {
      jobEvents := Book(map[], map[], multiset{});
      requests, waiters, frames, tasks, analyses := map[], map[], map[], map[], map[];
    }

    /** Appends a terminal event unless the log does not hold the job as active. */
    method EndActiveJob(job: Job)
      modifies this`jobEvents
      ensures jobEvents == EndJob(old(jobEvents), job)
    {
      if job in jobEvents.log && jobEvents.log[job] == Active {
        jobEvents := Book(jobEvents.log[job := Ended], jobEvents.owner, jobEvents.ended + multiset{job});
      }
    }

    /** A record marked before is left alone; otherwise its job ends and the image goes. */
    method CompleteVisualJob(frame: Frame) returns (marked: Frame)
      modifies this`jobEvents
      ensures jobEvents == EndFrame(old(jobEvents), frame) && marked == MarkFrame(frame)
    {
      if frame.terminal {
        return frame;
      }
      EndActiveJob(frame.job);
      marked := frame.(terminal := true, image := false);
    }

    method CompleteRequestJob(job: Job)
      requires job in requests
      modifies this
      ensures View() == CompleteRequest(old(View()), job)
    {
      if !requests[job].terminal {
        EndActiveJob(job);
        requests := requests[job := requests[job].(terminal := true)];
      }
    }

    method ResolveVisualCaptureRequest(sid: Sid, job: Job, frameId: Option<string>)
      modifies this`waiters
      ensures View() == Resolve(old(View()), sid, job, frameId)
    {
      if job !in requests || job !in waiters || waiters[job] != Waiting || requests[job].sid != sid {
        return;
      }
      waiters := waiters[job := Resolved(frameId)];
    }

    method HasPending(sid: Sid) returns (busy: bool)
      ensures busy == (PendingOf(View(), sid) != {})
    {
      var todo := requests.Keys;
      while todo != {}
        invariant todo <= requests.Keys
        invariant forall j :: j in requests && j !in todo ==> requests[j].sid != sid
      {
        var job :| job in todo;
        if requests[job].sid == sid {
          assert job in PendingOf(View(), sid);
          return true;
        }
        todo := todo - {job};
      }
      return false;
    }

    /** Up to the await on the waiter; false means the request was refused at once. */
    method RequestVisualCapture(sid: Sid, job: Job, frameId: string, room: bool) returns (waits: bool)
      requires job !in jobEvents.owner
      modifies this
      ensures View() == RequestCapture(old(View()), sid, job, frameId, room)
      ensures waits == (room && PendingOf(old(View()), sid) == {})
    {
      if !room {
        return false;
      }
      jobEvents := Book(jobEvents.log[job := Active], jobEvents.owner[job := sid], jobEvents.ended);
      var busy := HasPending(sid);
      if busy {
        EndActiveJob(job);
        return false;
      }
      waiters := waiters[job := Waiting];
      requests := requests[job := Request(sid, frameId, false)];
      return true;
    }

    method FinishVisualCapture(job: Job, answered: bool)
      requires job in waiters && job in requests && (answered ==> waiters[job].Resolved?)
      modifies this
      ensures View() == Resume(old(View()), job, answered)
    {
      if !answered && !requests[job].terminal {
        EndActiveJob(job);
      }
      waiters := waiters - {job};
      requests := requests - {job};
    }

    method DiscardVisualRequest(sid: Sid, job: Job, ghost before: World, ghost done: set<Job>)
      requires job in before.requests && before.requests.Keys == before.waiters.Keys && job !in done
      requires View() == Discard(before, done) && before.requests[job].sid == sid
      modifies this
      ensures View() == Discard(before, done + {job})
    {
      OneMoreDiscarded(before, done, job);
      CompleteRequestJob(job);
      ResolveVisualCaptureRequest(sid, job, None);
    }

    method DiscardPendingVisualRequests(sid: Sid, only: Option<Job>)
      requires requests.Keys == waiters.Keys
      modifies this
      ensures View() == DiscardPending(old(View()), sid, only)
    {
      ghost var before, doomed := View(), Doomed(View(), sid, only);
      var todo := requests.Keys;
      NoneDiscarded(before);
      ghost var done: set<Job> := {};
      while todo != {}
        invariant todo <= before.requests.Keys && requests.Keys == before.requests.Keys
        invariant done == doomed - todo
        invariant View() == Discard(before, done)
      {
        var job :| job in todo;
        if requests[job].sid == sid && (only.None? || only.value == job) {
          DiscardVisualRequest(sid, job, before, done);
          done := done + {job};
        }
        todo := todo - {job};
      }
      assert done == doomed;
    }

    method CompleteLatestFrame(sid: Sid, keep: bool)
      modifies this
      ensures View() == if keep then CompleteLatest(old(View()), sid) else DropLatest(old(View()), sid)
    {
      if sid in frames {
        var marked := CompleteVisualJob(frames[sid]);
        if keep {
          frames := frames[sid := marked];
        } else {
          frames := frames - {sid};
        }
      }
    }

    method CancelAnalysis(sid: Sid)
      modifies this
      ensures View() == CancelTask(old(View()), sid)
    {
      if sid in tasks {
        var task := tasks[sid];
        tasks := tasks - {sid};
        if task in analyses {
          analyses := analyses[task := analyses[task].(cancelled := true)];
        }
      }
    }

    /** Also the end of a disconnect and of an emergency stop. */
    method ClearVisualContext(sid: Sid)
      requires requests.Keys == waiters.Keys
      modifies this
      ensures View() == ClearContext(old(View()), sid)
    {
      DiscardPendingVisualRequests(sid, None);
      CompleteLatestFrame(sid, false);
      CancelAnalysis(sid);
    }

    method CancelVisualTurnForInterrupt(sid: Sid, only: Option<Job>)
      requires requests.Keys == waiters.Keys
      modifies this
      ensures View() == InterruptTurn(old(View()), sid, only)
    {
      DiscardPendingVisualRequests(sid, only);
      CancelAnalysis(sid);
      CompleteLatestFrame(sid, false);
    }

    /** The frame handler; false answers that the request is stale. */
    method OnFrame(sid: Sid, job: Job, frameId: string) returns (accepted: bool)
      modifies this
      ensures View() == FrameArrives(old(View()), sid, job, frameId)
      ensures accepted == Expected(old(View()), sid, job, frameId)
    {
      if job !in requests || requests[job].terminal || requests[job].sid != sid || requests[job].frameId != frameId {
        return false;
      }
      if sid in frames {
        var _ := CompleteVisualJob(frames[sid]);
      }
      frames := frames[sid := Frame(job, frameId, true, false)];
      if job !in jobEvents.log {
        jobEvents := jobEvents.(log := jobEvents.log[job := Active]);
      }
      ResolveVisualCaptureRequest(sid, job, Some(frameId));
      return true;
    }

    method OnAnalysisAnswer(task: nat, error: bool)
      modifies this
      ensures View() == AnalysisAnswers(old(View()), task, error)
    {
      if task !in analyses || analyses[task].cancelled || analyses[task].failed.Some? {
        return;
      }
      var a := analyses[task];
      if a.sid in frames && frames[a.sid].frameId == a.copy.frameId {
        analyses := analyses[task := a.(failed := Some(error))];
        return;
      }
      if !error {
        var _ := CompleteVisualJob(a.copy);
      }
      analyses := analyses - {task};
      if a.sid in tasks && tasks[a.sid] == task {
        tasks := tasks - {a.sid};
      }
    }
  }

  lemma NoneDiscarded(w: World)
    ensures Discard(w, {}) == w
  {
    var w' := Discard(w, {});
    assert w'.book.log == w.book.log && w'.book.ended == w.book.ended;
    assert w'.requests == w.requests && w'.waiters == w.waiters;
  }

  lemma OneMoreEnded(b: Book, jobs: set<Job>, job: Job)
    ensures EndJobs(b, jobs + {job}).log == EndJob(EndJobs(b, jobs), job).log
    ensures EndJobs(b, jobs + {job}).owner == EndJob(EndJobs(b, jobs), job).owner
  {
  }

  lemma OneMoreCounted(b: Book, jobs: set<Job>, job: Job)
    requires job !in jobs
    ensures EndJobs(b, jobs + {job}).ended == EndJob(EndJobs(b, jobs), job).ended
  {
    var now := set j | j in jobs && IsActive(b, j);
    var next := set j | j in jobs + {job} && IsActive(b, j);
    assert next == if IsActive(b, job) then now + {job} else now;
    assert IsActive(EndJobs(b, jobs), job) <==> IsActive(b, job);
    assert job !in now;
  }

  lemma OneMoreInBook(w: World, done: set<Job>, job: Job)
    requires job in w.requests && job !in done
    ensures var now := Discard(w, done);
            Discard(w, done + {job}).book
            == if w.requests[job].terminal then now.book else EndJob(now.book, job)
  {
    var pending := set j | j in done && j in w.requests && !w.requests[j].terminal;
    var pending' := set j | j in done + {job} && j in w.requests && !w.requests[j].terminal;
    assert pending' == if w.requests[job].terminal then pending else pending + {job};
    OneMoreEnded(w.book, pending, job);
    OneMoreCounted(w.book, pending, job);
  }

  lemma OneMoreInMaps(w: World, done: set<Job>, job: Job)
    requires job in w.requests && w.requests.Keys == w.waiters.Keys && job !in done
    ensures var now, next := Discard(w, done), Discard(w, done + {job});
            && job in now.requests && now.requests[job] == w.requests[job] && now.waiters[job] == w.waiters[job]
            && next.requests == now.requests[job := w.requests[job].(terminal := true)]
            && next.waiters == if w.waiters[job].Waiting? then now.waiters[job := Resolved(None)] else now.waiters
  {
  }

  /** Discarding one more request is completing it and answering its waiter with nothing. */
  lemma OneMoreDiscarded(w: World, done: set<Job>, job: Job)
    requires job in w.requests && w.requests.Keys == w.waiters.Keys && job !in done
    ensures job in Discard(w, done).requests
    ensures Resolve(CompleteRequest(Discard(w, done), job), w.requests[job].sid, job, None)
         == Discard(w, done + {job})
  {
    OneMoreInBook(w, done, job);
    OneMoreInMaps(w, done, job);
    var now := Discard(w, done);
    assert now.requests[job := now.requests[job]] == now.requests;
  }
}
