/**
 Visual capture jobs: the correlated maps of pending requests, waiters, latest frames and running analyses, and the job
 log beside them. A step is the code between two awaits.
 */
module VisualJobs {
  import opened Wrappers

  type Sid = string

  type Job = string

  datatype Life = Active | Ended

  datatype Request = Request(sid: Sid, frameId: string, terminal: bool)

  datatype Waiter = Waiting | Resolved(frameId: Option<string>)

  datatype Frame = Frame(job: Job, frameId: string, image: bool, terminal: bool)

  /** An analysis works on its own copy of the frame; `failed` is set once the model has answered. */
  datatype Analysis = Analysis(sid: Sid, copy: Frame, cancelled: bool, failed: Option<bool>)

  /** The job log. `owner` remembers every job ever requested and its client, `ended` counts terminal events. */
  datatype Book = Book(log: map<Job, Life>, owner: map<Job, Sid>, ended: multiset<Job>)

  datatype World = World(
    book: Book,
    requests: map<Job, Request>,
    waiters: map<Job, Waiter>,
    frames: map<Sid, Frame>,
    tasks: map<Sid, nat>,
    analyses: map<nat, Analysis>)

  const NEW := World(Book(map[], map[], multiset{}), map[], map[], map[], map[], map[])

  // ---------------------------------------------------------------- completing jobs

  predicate IsActive(b: Book, job: Job) {
    job in b.log && b.log[job] == Active
  }

  predicate IsOver(b: Book, job: Job) {
    job in b.log && b.log[job] == Ended
  }

  /** The log accepts a terminal event only for an active job. */
  function EndJobs(b: Book, jobs: set<Job>): Book {
    b.(log := map j | j in b.log :: if j in jobs then Ended else b.log[j],
       ended := b.ended + multiset(set j | j in jobs && IsActive(b, j)))
  }

  function EndJob(b: Book, job: Job): Book {
    if IsActive(b, job) then b.(log := b.log[job := Ended], ended := b.ended + multiset{job}) else b
  }

  /** Completing a frame: one marked before is left alone. */
  function MarkFrame(f: Frame): Frame {
    if f.terminal then f else f.(terminal := true, image := false)
  }

  function EndFrame(b: Book, f: Frame): Book {
    if f.terminal then b else EndJob(b, f.job)
  }

  function CompleteRequest(w: World, job: Job): World
    requires job in w.requests
  {
    if w.requests[job].terminal then w
    else w.(book := EndJob(w.book, job), requests := w.requests[job := w.requests[job].(terminal := true)])
  }

  /** Answers a waiter that is still waiting. */
  function Resolve(w: World, sid: Sid, job: Job, frameId: Option<string>): World {
    if job !in w.requests || job !in w.waiters || !w.waiters[job].Waiting? || w.requests[job].sid != sid then w
    else w.(waiters := w.waiters[job := Resolved(frameId)])
  }

  // ---------------------------------------------------------------- requests

  function PendingOf(w: World, sid: Sid): set<Job> {
    set j | j in w.requests && w.requests[j].sid == sid
  }

  /** `room` tells whether the job log has room for another active job. */
  function RequestCapture(w: World, sid: Sid, job: Job, frameId: string, room: bool): World {
    if !room || job in w.book.owner then w
    else
      var book := w.book.(log := w.book.log[job := Active], owner := w.book.owner[job := sid]);
      if PendingOf(w, sid) != {} then w.(book := EndJob(book, job))
      else w.(book := book,
              requests := w.requests[job := Request(sid, frameId, false)],
              waiters := w.waiters[job := Waiting])
  }

  /** The requester resumes: with the answer, or by a timeout, a cancellation or a failed emission. */
  function Resume(w: World, job: Job, answered: bool): World {
    if job !in w.waiters || job !in w.requests || (answered && w.waiters[job].Waiting?) then w
    else
      w.(book := if answered || w.requests[job].terminal then w.book else EndJob(w.book, job),
         waiters := w.waiters - {job},
         requests := w.requests - {job})
  }

  /** The client reports that it discarded the capture. */
  function ClientDiscards(w: World, sid: Sid, job: Job): World {
    if job !in w.requests || w.requests[job].terminal || w.requests[job].sid != sid then w
    else Resolve(CompleteRequest(w, job), sid, job, None)
  }

  /** The pending requests of a client, or the one of them that is named. */
  function Doomed(w: World, sid: Sid, only: Option<Job>): set<Job> {
    set j | j in w.requests && w.requests[j].sid == sid && (only.None? || only.value == j)
  }

  function Discard(w: World, doomed: set<Job>): World {
    w.(book := EndJobs(w.book, set j | j in doomed && j in w.requests && !w.requests[j].terminal),
       requests := map j | j in w.requests ::
         if j in doomed then w.requests[j].(terminal := true) else w.requests[j],
       waiters := map j | j in w.waiters ::
         if j in doomed && w.waiters[j].Waiting? then Resolved(None) else w.waiters[j])
  }

  function DiscardPending(w: World, sid: Sid, only: Option<Job>): World {
    Discard(w, Doomed(w, sid, only))
  }

  // ---------------------------------------------------------------- frames

  function CompleteLatest(w: World, sid: Sid): World {
    if sid !in w.frames then w
    else w.(book := EndFrame(w.book, w.frames[sid]), frames := w.frames[sid := MarkFrame(w.frames[sid])])
  }

  function DropLatest(w: World, sid: Sid): World {
    if sid !in w.frames then w
    else w.(book := EndFrame(w.book, w.frames[sid]), frames := w.frames - {sid})
  }

  function CancelTask(w: World, sid: Sid): World {
    if sid !in w.tasks then w
    else
      var t := w.tasks[sid];
      w.(tasks := w.tasks - {sid},
         analyses := if t in w.analyses then w.analyses[t := w.analyses[t].(cancelled := true)] else w.analyses)
  }

  function ClearContext(w: World, sid: Sid): World {
    CancelTask(DropLatest(DiscardPending(w, sid, None), sid), sid)
  }

  function InterruptTurn(w: World, sid: Sid, only: Option<Job>): World {
    DropLatest(CancelTask(DiscardPending(w, sid, only), sid), sid)
  }

  predicate Expected(w: World, sid: Sid, job: Job, frameId: string) {
    && job in w.requests
    && !w.requests[job].terminal
    && w.requests[job].sid == sid
    && w.requests[job].frameId == frameId
  }

  /** A frame that matches its pending request replaces the latest one; an unknown job is created again. */
  function RecordFrame(w: World, sid: Sid, job: Job, frameId: string): World {
    var book := if sid in w.frames then EndFrame(w.book, w.frames[sid]) else w.book;
    w.(frames := w.frames[sid := Frame(job, frameId, true, false)],
       book := if job in book.log then book else book.(log := book.log[job := Active]))
  }

  function FrameArrives(w: World, sid: Sid, job: Job, frameId: string): World {
    if !Expected(w, sid, job, frameId) then w else Resolve(RecordFrame(w, sid, job, frameId), sid, job, Some(frameId))
  }

  function Schedule(w: World, sid: Sid, task: nat): World {
    if sid !in w.frames || task in w.analyses then w
    else
      var w' := CancelTask(w, sid);
      w'.(tasks := w'.tasks[sid := task],
          analyses := w'.analyses[task := Analysis(sid, w.frames[sid], false, None)])
  }

  // ---------------------------------------------------------------- analyses

  predicate IsLatest(w: World, a: Analysis) {
    a.sid in w.frames && w.frames[a.sid].frameId == a.copy.frameId
  }

  function DropTask(w: World, task: nat): World
    requires task in w.analyses
  {
    var sid := w.analyses[task].sid;
    w.(analyses := w.analyses - {task},
       tasks := if sid in w.tasks && w.tasks[sid] == task then w.tasks - {sid} else w.tasks)
  }

  /** The model answers: a stale analysis ends the job of its copy, a current one goes on to its conclusion. */
  function AnalysisAnswers(w: World, task: nat, error: bool): World {
    if task !in w.analyses || w.analyses[task].cancelled || w.analyses[task].failed.Some? then w
    else
      var a := w.analyses[task];
      if IsLatest(w, a) then w.(analyses := w.analyses[task := a.(failed := Some(error))])
      else if error then DropTask(w, task)
      else DropTask(w, task).(book := EndFrame(w.book, a.copy))
  }

  function AnalysisConcludes(w: World, task: nat): World {
    if task !in w.analyses || w.analyses[task].cancelled || w.analyses[task].failed.None? then w
    else
      var a := w.analyses[task];
      DropTask(if IsLatest(w, a) then CompleteLatest(w, a.sid) else w, task)
  }

  function AnalysisCancelled(w: World, task: nat): World {
    if task !in w.analyses || !w.analyses[task].cancelled then w
    else DropTask(w, task).(book := EndFrame(w.book, w.analyses[task].copy))
  }

  // ---------------------------------------------------------------- runs

  datatype Action =
    | DoRequest(sid: Sid, job: Job, frameId: string, room: bool)
    | DoResume(job: Job, answered: bool)
    | DoClientDiscard(sid: Sid, job: Job)
    | DoFrame(sid: Sid, job: Job, frameId: string)
    | DoSchedule(sid: Sid, task: nat)
    | DoUseLatest(sid: Sid)
    | DoExpireLatest(sid: Sid)
    | DoClear(sid: Sid)
    | DoInterrupt(sid: Sid, only: Option<Job>)
    | DoAnswer(task: nat, error: bool)
    | DoConclude(task: nat)
    | DoCancelled(task: nat)
    | DoEvict(job: Job)

  /** `DoClear` is also a disconnect and an emergency stop; eviction takes an ended job out of a full log. */
  function Step(w: World, a: Action): World {
    match a
    case DoRequest(sid, job, frameId, room) => RequestCapture(w, sid, job, frameId, room)
    case DoResume(job, answered) => Resume(w, job, answered)
    case DoClientDiscard(sid, job) => ClientDiscards(w, sid, job)
    case DoFrame(sid, job, frameId) => FrameArrives(w, sid, job, frameId)
    case DoSchedule(sid, task) => Schedule(w, sid, task)
    case DoUseLatest(sid) => CompleteLatest(w, sid)
    case DoExpireLatest(sid) => DropLatest(w, sid)
    case DoClear(sid) => ClearContext(w, sid)
    case DoInterrupt(sid, only) => InterruptTurn(w, sid, only)
    case DoAnswer(task, error) => AnalysisAnswers(w, task, error)
    case DoConclude(task) => AnalysisConcludes(w, task)
    case DoCancelled(task) => AnalysisCancelled(w, task)
    case DoEvict(job) => if IsOver(w.book, job) then w.(book := w.book.(log := w.book.log - {job})) else w
  }

  function Run(actions: seq<Action>): World {
    if actions == [] then NEW else Step(Run(actions[..|actions| - 1]), actions[|actions| - 1])
  }
}
