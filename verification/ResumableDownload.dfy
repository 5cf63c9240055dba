/**
 The resumable download as a machine that takes one step per answer of the environment: an HTTP response head, a piece
 of its body, a failure, or the completion of a local file operation. The process may stop after any step.
 */
module ResumableDownload {
  import opened Wrappers
  import opened HttpHeaders

  newtype byte = x: int | 0 <= x < 256

  type Bytes = seq<byte>

  /** `known` tells whether the record names the requested URL; one that does not is read back as nothing. */
  datatype Meta = Meta(known: bool, etag: Option<string>, lastModified: Option<string>, total: Option<int>)

  const NO_META := Meta(false, None, None, None)

  /** Foreign metadata is unreadable or of another URL; a scalar is well-formed but not a record. */
  datatype MetaFile = NoFile | Foreign | Scalar | Stored(meta: Meta)

  datatype Disk = Disk(file: Option<Bytes>, meta: MetaFile)

  datatype Next = ThenBegin | ThenAgain | ThenRaise

  datatype Phase =
    | Starting
    | Clearing(next: Next)
    | Asking
    | Opening(append: bool, total: Option<int>)
    | Reading(downloaded: int, total: Option<int>)
    | Returned(total: Option<int>)
    | Raised

  /** An activation that called itself inside its `try`: what its handlers will know when that call fails. */
  datatype Frame = Frame(metadata: Meta, attempt: nat, existing: nat)

  /** The errors that the loop handles: an HTTP error, or a lost or incomplete transfer. */
  datatype Fault = HttpFault(code: int, contentRange: string) | TransferFault

  /**
   `metadata` and `attempt` belong to the running activation and `stack` holds the suspended ones, the innermost first;
   `requests` counts the requests of the whole call and `restarts` the activations after the first.
   */
  datatype State =
    State(disk: Disk, phase: Phase, metadata: Meta, attempt: nat, requests: nat, restarts: nat, stack: seq<Frame>)

  datatype Response = Response(
    status: int,
    contentRange: string,
    contentLength: string,
    etag: Option<string>,
    lastModified: Option<string>)

  datatype Input =
    | Local
    | Head(response: Response)
    | Refusal(code: int, contentRange: string)
    | Lost
    | Chunk(data: Bytes)
    | Cut(data: Bytes)
    | Done

  function Size(disk: Disk): nat {
    if disk.file.Some? then |disk.file.value| else 0
  }

  function Begin(disk: Disk): State {
    State(disk, Starting, NO_META, 0, 0, 0, [])
  }

  // ---------------------------------------------------------------- one step

  /** The loop is entered unless the recorded total says the file is complete. */
  function EnterLoop(s: State): State {
    if Size(s.disk) > 0 && s.metadata.total == Some(Size(s.disk)) then s.(phase := Returned(s.metadata.total))
    else s.(phase := Asking, attempt := 0)
  }

  function Clear(s: State, next: Next): State {
    s.(disk := s.disk.(file := None), phase := Clearing(next))
  }

  function Start(s: State): State {
    if s.disk.meta.Scalar? then s.(phase := Raised)
    else
      var metadata := if s.disk.meta.Stored? && s.disk.meta.meta.known then s.disk.meta.meta else NO_META;
      var s' := s.(metadata := metadata);
      if s.disk.file.Some? && !metadata.known && !s.disk.meta.NoFile? then Clear(s', ThenBegin) else EnterLoop(s')
  }

  function Cleared(s: State, next: Next): State {
    var s' := s.(disk := s.disk.(meta := NoFile));
    match next
    case ThenBegin => EnterLoop(s')
    case ThenAgain => s'.(phase := Starting, metadata := NO_META, attempt := 0, restarts := s.restarts + 1)
    case ThenRaise => s'.(phase := Raised)
  }

  /**
   The handlers of the running activation. `existing` is the size it had seen before its request; a 416 is compared with
   that, any other fault counts as a failed attempt.
   */
  function Except(s: State, attempts: nat, existing: nat, fault: Fault): State
    decreases |s.stack|, 1
  {
    if fault.HttpFault? && fault.code == 416 && existing > 0 then
      if UnsatisfiedTotal(fault.contentRange) == Some(existing) then
        var metadata := s.metadata.(total := Some(existing));
        s.(metadata := metadata, disk := s.disk.(meta := Stored(metadata)), phase := Returned(Some(existing)))
      else Clear(s, ThenAgain)
    else if s.attempt + 1 < attempts then s.(phase := Asking, attempt := s.attempt + 1)
    else Raise(s, attempts, fault)
  }

  /** The last fault leaves the activation; a suspended one that called it inside its `try` handles it in turn. */
  function Raise(s: State, attempts: nat, fault: Fault): State
    decreases |s.stack|, 0
  {
    if s.stack == [] then s.(phase := Raised)
    else
      var f := s.stack[0];
      Except(s.(stack := s.stack[1..], metadata := f.metadata, attempt := f.attempt), attempts, f.existing, fault)
  }

  function Suspend(s: State, existing: nat): State {
    s.(stack := [Frame(s.metadata, s.attempt, existing)] + s.stack)
  }

  /** A response without a range announces its own length, or nothing; text that is no number is an error. */
  function Respond(s: State, r: Response): State {
    var existing := Size(s.disk);
    var range := if r.status == 206 then ContentRange(r.contentRange) else None;
    if r.status == 206 && (range.None? || range.value.0 != existing) then
      if existing > 0 then Clear(Suspend(s, existing), ThenAgain) else Clear(s, ThenRaise)
    else if range.None? && r.contentLength != "" && ParseInt(r.contentLength).None? then s.(phase := Raised)
    else
      var append := existing > 0 && r.status == 206;
      var total :=
        if range.Some? then Some(range.value.1)
        else if r.contentLength == "" then None
        else Some(ParseInt(r.contentLength).value);
      var metadata := Meta(true, r.etag, r.lastModified, total);
      s.(metadata := metadata, disk := s.disk.(meta := Stored(metadata)), phase := Opening(append, total))
  }

  function Open(s: State, append: bool, total: Option<int>): State {
    var content := if append then s.disk.file.GetOr([]) else [];
    s.(disk := s.disk.(file := Some(content)), phase := Reading(|content|, total))
  }

  function Store(s: State, data: Bytes): State
    requires s.phase.Reading?
  {
    s.(disk := s.disk.(file := Some(s.disk.file.GetOr([]) + data)),
       phase := Reading(s.phase.downloaded + |data|, s.phase.total))
  }

  function Finish(s: State, attempts: nat): State
    requires s.phase.Reading?
  {
    if s.phase.total.Some? && s.phase.downloaded != s.phase.total.value then Except(s, attempts, 0, TransferFault)
    else s.(disk := s.disk.(meta := Stored(s.metadata)), phase := Returned(s.phase.total))
  }

  /** Where the connection is awaited, an answer of another kind counts as a lost connection. */
  function Step(s: State, attempts: nat, input: Input): State {
    match s.phase
    case Starting => Start(s)
    case Clearing(next) => Cleared(s, next)
    case Asking =>
      var asked := s.(requests := s.requests + 1);
      if input.Head? then Respond(asked, input.response)
      else
        var fault := if input.Refusal? then HttpFault(input.code, input.contentRange) else TransferFault;
        Except(asked, attempts, Size(s.disk), fault)
    case Opening(append, total) => Open(s, append, total)
    case Reading(_, _) =>
      if input.Chunk? then Store(s, input.data)
      else if input.Cut? then Except(Store(s, input.data), attempts, 0, TransferFault)
      else if input.Done? then Finish(s, attempts)
      else Except(s, attempts, 0, TransferFault)
    case Returned(_) => s
    case Raised => s
  }

  function Run(s: State, attempts: nat, script: seq<Input>): State
    decreases |script|
  {
    if script == [] then s else Run(Step(s, attempts, script[0]), attempts, script[1..])
  }

  // ---------------------------------------------------------------- a range-honest server

  /** What a server may answer that serves `content`, never changes it and honours ranges (RFC 9110, 14.2 to 15.5.17). */
  predicate Honest(content: Bytes, s: State, input: Input) {
    match input
    case Head(r) =>
      s.phase.Asking? ==>
        if r.status == 206 then Size(s.disk) > 0 && ContentRange(r.contentRange) == Some((Size(s.disk), |content|))
        else r.contentLength == "" || ParseInt(r.contentLength) == Some(|content|)
    case Refusal(code, contentRange) =>
      s.phase.Asking? && code == 416 && Size(s.disk) > 0 ==>
        Size(s.disk) >= |content| && UnsatisfiedTotal(contentRange) == Some(|content|)
    case Chunk(data) => s.phase.Reading? ==> Continues(content, s.disk, data)
    case Cut(data) => s.phase.Reading? ==> Continues(content, s.disk, data)
    case Local => true
    case Lost => true
    case Done => true
  }

  predicate Continues(content: Bytes, disk: Disk, data: Bytes) {
    Size(disk) + |data| <= |content| && data == content[Size(disk)..Size(disk) + |data|]
  }

  ghost predicate HonestRun(content: Bytes, s: State, attempts: nat, script: seq<Input>)
    decreases |script|
  {
    script != [] ==>
      Honest(content, s, script[0]) && HonestRun(content, Step(s, attempts, script[0]), attempts, script[1..])
  }

  // ---------------------------------------------------------------- once a prefix, always a prefix

  predicate HonestTotal(content: Bytes, total: Option<int>) {
    total.Some? ==> total.value == |content|
  }

  predicate HonestMeta(content: Bytes, meta: Meta) {
    meta.known ==> HonestTotal(content, meta.total)
  }

  /** The file is a beginning of the content, and what the metadata records of it is right. */
  predicate GoodDisk(content: Bytes, disk: Disk) {
    disk.file.Some? ==> disk.file.value <= content && (disk.meta.Stored? ==> HonestMeta(content, disk.meta.meta))
  }

  predicate Good(content: Bytes, s: State) {
    && GoodDisk(content, s.disk)
    && s.stack == []
    && (s.disk.file.Some? ==> HonestMeta(content, s.metadata))
    && (!s.metadata.known && !s.phase.Returned? ==> s.metadata == NO_META)
    && match s.phase
       case Starting => true
       case Clearing(next) => next.ThenBegin? && !s.metadata.known && s.disk.file.None?
       case Asking => true
       case Opening(append, total) =>
         HonestTotal(content, total) && HonestMeta(content, s.metadata) && HonestMetaFile(content, s.disk.meta)
         && (append ==> s.disk.file.Some?)
       case Reading(downloaded, total) =>
         HonestTotal(content, total) && s.disk.file.Some? && downloaded == Size(s.disk)
       case Returned(total) => s.disk.file.Some? && (total.Some? ==> s.disk.file == Some(content))
       case Raised => true
  }

  predicate HonestMetaFile(content: Bytes, meta: MetaFile) {
    meta.Stored? ==> HonestMeta(content, meta.meta)
  }

  lemma PrefixGrows(content: Bytes, disk: Disk, data: Bytes)
    requires disk.file.Some? && disk.file.value <= content && Continues(content, disk, data)
    ensures disk.file.value + data <= content
  {
    assert disk.file.value + data == content[..Size(disk) + |data|];
  }

  /** The handlers of an activation that nobody waits for. */
  function Alone(s: State, attempts: nat, existing: nat, fault: Fault): State {
    if fault.HttpFault? && fault.code == 416 && existing > 0 then
      if UnsatisfiedTotal(fault.contentRange) == Some(existing) then
        var metadata := s.metadata.(total := Some(existing));
        s.(metadata := metadata, disk := s.disk.(meta := Stored(metadata)), phase := Returned(Some(existing)))
      else Clear(s, ThenAgain)
    else s.(phase := if s.attempt + 1 < attempts then Asking else Raised,
            attempt := if s.attempt + 1 < attempts then s.attempt + 1 else s.attempt)
  }

  lemma ExceptAlone(s: State, attempts: nat, existing: nat, fault: Fault)
    requires s.stack == []
    ensures Except(s, attempts, existing, fault) == Alone(s, attempts, existing, fault)
  {
  }

  lemma StepAlone(s: State, attempts: nat, input: Input)
    requires s.stack == []
    ensures s.phase.Asking? && !input.Head? ==>
              var fault := if input.Refusal? then HttpFault(input.code, input.contentRange) else TransferFault;
              Step(s, attempts, input) == Alone(s.(requests := s.requests + 1), attempts, Size(s.disk), fault)
    ensures s.phase.Reading? ==>
              Step(s, attempts, input)
              == if input.Chunk? then Store(s, input.data)
                 else if input.Cut? then Alone(Store(s, input.data), attempts, 0, TransferFault)
                 else if input.Done? && (s.phase.total.Some? ==> s.phase.downloaded == s.phase.total.value)
                 then s.(disk := s.disk.(meta := Stored(s.metadata)), phase := Returned(s.phase.total))
                 else Alone(s, attempts, 0, TransferFault)
  {
    var fault := if input.Refusal? then HttpFault(input.code, input.contentRange) else TransferFault;
    ExceptAlone(s.(requests := s.requests + 1), attempts, Size(s.disk), fault);
    if s.phase.Reading? {
      ExceptAlone(s, attempts, 0, TransferFault);
      if input.Cut? { ExceptAlone(Store(s, input.data), attempts, 0, TransferFault); }
    }
  }

  lemma StepKeepsGood(content: Bytes, s: State, attempts: nat, input: Input)
    requires Good(content, s) && Honest(content, s, input)
    ensures Good(content, Step(s, attempts, input))
  {
    StepAlone(s, attempts, input);
    if s.phase.Reading? && (input.Chunk? || input.Cut?) {
      PrefixGrows(content, s.disk, input.data);
    }
    if s.disk.file.Some? && Size(s.disk) >= |content| {
      assert s.disk.file.value == content;
    }
  }

  /**
   Main result. From a disk whose file is a beginning of the content, every state of an honest run, and so every state
   a crash can leave, has that property again; a return leaves a file, and with a known total
   exactly the content.
   */
  lemma {:induction false} EveryRunStaysGood(content: Bytes, s: State, attempts: nat, script: seq<Input>)
    requires Good(content, s) && HonestRun(content, s, attempts, script)
    ensures Good(content, Run(s, attempts, script))
    decreases |script|
  {
    if script != [] {
      StepKeepsGood(content, s, attempts, script[0]);
      EveryRunStaysGood(content, Step(s, attempts, script[0]), attempts, script[1..]);
    }
  }

  lemma ReturnIsComplete(content: Bytes, disk: Disk, attempts: nat, script: seq<Input>)
    requires GoodDisk(content, disk) && HonestRun(content, Begin(disk), attempts, script)
    ensures var s := Run(Begin(disk), attempts, script);
            GoodDisk(content, s.disk)
            && (s.phase.Returned? ==> s.disk.file.Some? && (s.phase.total.Some? ==> s.disk.file == Some(content)))
  {
    EveryRunStaysGood(content, Begin(disk), attempts, script);
  }

  // ---------------------------------------------------------------- one restart

  /** From any files at all: at most one restart, after it the state is good, and nothing is ever suspended. */
  ghost predicate RestartsOnce(content: Bytes, s: State) {
    && s.stack == []
    && (s.restarts == 0 || (s.restarts == 1 && Good(content, s)))
    && (s.phase.Clearing? && s.phase.next.ThenAgain? ==> s.restarts == 0 && s.disk.file.None?)
    && (s.phase.Reading? ==> s.disk.file.Some?)
    && (s.phase.Returned? ==> s.disk.file.Some?)
  }

  lemma StepRestartsOnce(content: Bytes, s: State, attempts: nat, input: Input)
    requires RestartsOnce(content, s) && Honest(content, s, input)
    ensures RestartsOnce(content, Step(s, attempts, input))
  {
    if s.restarts == 1 {
      StepKeepsGood(content, s, attempts, input);
    }
    StepAlone(s, attempts, input);
    StepCountsRestarts(s, attempts, input);
  }

  lemma StepCountsRestarts(s: State, attempts: nat, input: Input)
    requires s.stack == []
    ensures var s' := Step(s, attempts, input);
            && s'.restarts == s.restarts
               + (if s.phase.Clearing? && s.phase.next.ThenAgain? then 1 else 0)
            && (s'.restarts > s.restarts ==>
                  s' == State(Disk(s.disk.file, NoFile), Starting, NO_META, 0, s.requests, s.restarts + 1, s.stack))
            && (s'.phase.Clearing? ==> s'.disk.file.None?)
  {
    StepAlone(s, attempts, input);
  }

  /**
   However wrong the starting files are, an honest server makes the download start over at most once, outside every
   `try`, and a return leaves a file.
   */
  lemma {:induction false} AtMostOneRestart(content: Bytes, s: State, attempts: nat, script: seq<Input>)
    requires RestartsOnce(content, s) && HonestRun(content, s, attempts, script)
    ensures RestartsOnce(content, Run(s, attempts, script))
    ensures Run(s, attempts, script).restarts <= 1
    decreases |script|
  {
    if script != [] {
      StepRestartsOnce(content, s, attempts, script[0]);
      AtMostOneRestart(content, Step(s, attempts, script[0]), attempts, script[1..]);
    }
  }

  // ---------------------------------------------------------------- requests

  /** The requests that the suspended activations may still make. */
  function Slack(stack: seq<Frame>, attempts: nat): int {
    if stack == [] then 0 else attempts - (stack[0].attempt + 1) + Slack(stack[1..], attempts)
  }

  /** The requests that the running activation may still make. */
  function Left(s: State, attempts: nat): int {
    match s.phase
    case Starting => attempts
    case Clearing(next) => if next.ThenBegin? then attempts else 0
    case Asking => attempts - s.attempt
    case Opening(_, _) => attempts - s.attempt - 1
    case Reading(_, _) => attempts - s.attempt - 1
    case _ => 0
  }

  ghost predicate FramesFit(stack: seq<Frame>, attempts: nat) {
    forall f :: f in stack ==> f.attempt < attempts && f.existing > 0
  }

  ghost predicate Bounded(s: State, attempts: nat) {
    && FramesFit(s.stack, attempts)
    && (s.phase.Asking? || s.phase.Opening? || s.phase.Reading? ==> s.attempt < attempts)
    && s.requests + Slack(s.stack, attempts) + Left(s, attempts) <= attempts * (s.restarts + 1)
  }

  lemma {:induction false} SlackIsNat(stack: seq<Frame>, attempts: nat)
    requires FramesFit(stack, attempts)
    ensures Slack(stack, attempts) >= 0
  {
    if stack != [] {
      SlackIsNat(stack[1..], attempts);
    }
  }

  /** A fault uses up an attempt of the running activation or of a suspended one. */
  lemma {:induction false} ExceptStaysBounded(s: State, attempts: nat, existing: nat, fault: Fault)
    requires FramesFit(s.stack, attempts) && s.attempt < attempts
    requires s.requests + Slack(s.stack, attempts) + (attempts - s.attempt - 1) <= attempts * (s.restarts + 1)
    ensures Bounded(Except(s, attempts, existing, fault), attempts)
    decreases |s.stack|
  {
    if (fault.HttpFault? && fault.code == 416 && existing > 0) || s.attempt + 1 < attempts || s.stack == [] {
    } else {
      var f := s.stack[0];
      assert f in s.stack;
      var outer := s.(stack := s.stack[1..], metadata := f.metadata, attempt := f.attempt);
      ExceptStaysBounded(outer, attempts, f.existing, fault);
    }
  }

  lemma ResponseStaysBounded(s: State, attempts: nat, r: Response)
    requires FramesFit(s.stack, attempts) && s.attempt < attempts
    requires s.requests + Slack(s.stack, attempts) + (attempts - s.attempt - 1) <= attempts * (s.restarts + 1)
    ensures Bounded(Respond(s, r), attempts)
  {
    var suspended := Suspend(s, Size(s.disk));
    assert suspended.stack[1..] == s.stack;
  }

  lemma RestartIsCounted(s: State, attempts: nat)
    requires Bounded(s, attempts) && s.phase == Clearing(ThenAgain)
    ensures Bounded(Cleared(s, ThenAgain), attempts)
  {
    assert attempts * (s.restarts + 2) == attempts * (s.restarts + 1) + attempts;
  }

  lemma StepStaysBounded(s: State, attempts: nat, input: Input)
    requires attempts >= 1 && Bounded(s, attempts)
    ensures Bounded(Step(s, attempts, input), attempts)
  {
    hide Except, Respond;
    match s.phase
    case Clearing(next) => if next.ThenAgain? { RestartIsCounted(s, attempts); }
    case Asking =>
      var asked := s.(requests := s.requests + 1);
      if input.Head? {
        ResponseStaysBounded(asked, attempts, input.response);
      } else {
        var fault := if input.Refusal? then HttpFault(input.code, input.contentRange) else TransferFault;
        ExceptStaysBounded(asked, attempts, Size(s.disk), fault);
      }
    case Reading(_, _) =>
      ExceptStaysBounded(s, attempts, 0, TransferFault);
      if input.Cut? { ExceptStaysBounded(Store(s, input.data), attempts, 0, TransferFault); }
    case _ =>
  }

  lemma {:induction false} RunStaysBounded(s: State, attempts: nat, script: seq<Input>)
    requires attempts >= 1 && Bounded(s, attempts)
    ensures Bounded(Run(s, attempts, script), attempts)
    decreases |script|
  {
    if script != [] {
      StepStaysBounded(s, attempts, script[0]);
      RunStaysBounded(Step(s, attempts, script[0]), attempts, script[1..]);
    }
  }

  /** Whatever the server answers, a call makes at most `attempts` requests for each of its activations. */
  lemma RequestsAreBounded(disk: Disk, attempts: nat, script: seq<Input>)
    requires attempts >= 1
    ensures var s := Run(Begin(disk), attempts, script); s.requests <= attempts * (s.restarts + 1)
  {
    RunStaysBounded(Begin(disk), attempts, script);
    var s := Run(Begin(disk), attempts, script);
    SlackIsNat(s.stack, attempts);
  }

  // ---------------------------------------------------------------- a restart inside the `try`

  /** A partial answer that is not for the size asked makes the activation start over inside its `try`. */
  predicate Mismatches(s: State, input: Input) {
    && s.phase.Asking? && Size(s.disk) > 0 && input.Head? && input.response.status == 206
    && var range := ContentRange(input.response.contentRange);
       range.None? || range.value.0 != Size(s.disk)
  }

  ghost predicate NeverMismatches(s: State, attempts: nat, script: seq<Input>)
    decreases |script|
  {
    script != [] ==> !Mismatches(s, script[0]) && NeverMismatches(Step(s, attempts, script[0]), attempts, script[1..])
  }

  predicate KeepsFile(s: State) {
    s.stack == [] && (s.phase.Reading? || s.phase.Returned? ==> s.disk.file.Some?)
  }

  /** A run without such an answer suspends nothing, and where it returns there is a file. */
  lemma {:induction false} ReturnLeavesAFile(s: State, attempts: nat, script: seq<Input>)
    requires KeepsFile(s) && NeverMismatches(s, attempts, script)
    ensures KeepsFile(Run(s, attempts, script))
    decreases |script|
  {
    if script != [] {
      StepAlone(s, attempts, script[0]);
      ReturnLeavesAFile(Step(s, attempts, script[0]), attempts, script[1..]);
    }
  }

  /**
   A failing activation makes its caller return exactly when the fault is a 416 that names the size the caller had seen
   before it removed the file.
   */
  lemma RaiseReturnsIff(s: State, attempts: nat, fault: Fault)
    requires FramesFit(s.stack, attempts)
    ensures Raise(s, attempts, fault).phase.Returned?
            <==> s.stack != [] && fault.HttpFault? && fault.code == 416
                 && UnsatisfiedTotal(fault.contentRange) == Some(s.stack[0].existing)
    decreases |s.stack|
  {
    if s.stack != [] {
      var f := s.stack[0];
      assert f in s.stack;
      var outer := s.(stack := s.stack[1..], metadata := f.metadata, attempt := f.attempt);
      if !(fault.HttpFault? && fault.code == 416) {
        RaiseReturnsIff(outer, attempts, fault);
      }
    }
  }

  /** What leaves an activation with a fault changes no file, except that it clears it to start over. */
  lemma {:induction false} RaiseKeepsFile(s: State, attempts: nat, fault: Fault)
    ensures var s' := Raise(s, attempts, fault);
            (s'.phase != Clearing(ThenAgain) ==> s'.disk.file == s.disk.file) && s'.restarts == s.restarts
    decreases |s.stack|
  {
    if s.stack != [] {
      var f := s.stack[0];
      RaiseKeepsFile(s.(stack := s.stack[1..], metadata := f.metadata, attempt := f.attempt), attempts, fault);
    }
  }

  /** The last attempt of a call inside a `try` is refused with the size that was there before the file was removed. */
  predicate LosesFile(s: State, attempts: nat, input: Input) {
    && s.phase.Asking? && s.disk.file.None? && s.attempt + 1 >= attempts
    && input.Refusal? && input.code == 416
    && s.stack != [] && UnsatisfiedTotal(input.contentRange) == Some(s.stack[0].existing)
  }

  predicate ReadsAFile(s: State) {
    s.phase.Reading? ==> s.disk.file.Some?
  }

  /** The fault of an answer while the connection is awaited. */
  function FaultOf(input: Input): Fault {
    if input.Refusal? then HttpFault(input.code, input.contentRange) else TransferFault
  }

  lemma AskingRaises(s: State, attempts: nat, input: Input)
    requires s.phase.Asking? && !input.Head?
    requires !(FaultOf(input).HttpFault? && FaultOf(input).code == 416 && Size(s.disk) > 0)
    ensures Step(s, attempts, input)
         == if s.attempt + 1 < attempts then s.(requests := s.requests + 1, attempt := s.attempt + 1)
            else Raise(s.(requests := s.requests + 1), attempts, FaultOf(input))
  {
    hide Raise;
  }

  /** A step of a body that is not over: it goes on, or its fault counts as a failed attempt. */
  lemma ReadingRaises(s: State, attempts: nat, input: Input)
    requires s.phase.Reading? && s.disk.file.Some?
    ensures var s' := Step(s, attempts, input);
            || (s'.phase.Returned? && s'.disk == s.disk.(meta := Stored(s.metadata)) && input.Done?
                && s'.phase.total == s.phase.total && (s.phase.total.Some? ==> s.phase.downloaded == s.phase.total.value))
            || (s' == Store(s, if input.Chunk? then input.data else []) && input.Chunk?)
            || s'.phase.Asking?
            || exists s1: State :: s1.stack == s.stack && s1.restarts == s.restarts && s1.disk.file.Some?
                                   && s' == Raise(s1, attempts, TransferFault)
  {
    hide Raise;
    var s1 := if input.Cut? then Store(s, input.data) else s;
    assert Except(s1, attempts, 0, TransferFault)
        == if s1.attempt + 1 < attempts then s1.(phase := Asking, attempt := s1.attempt + 1)
           else Raise(s1, attempts, TransferFault);
  }

  /** Exactly which step returns with no file. */
  lemma StepLosesFileIff(s: State, attempts: nat, input: Input)
    requires FramesFit(s.stack, attempts) && !s.phase.Returned? && ReadsAFile(s)
    ensures Step(s, attempts, input).phase.Returned? && Step(s, attempts, input).disk.file.None?
            <==> LosesFile(s, attempts, input)
    ensures ReadsAFile(Step(s, attempts, input))
  {
    hide Raise, UnsatisfiedTotal;
    if s.phase.Reading? {
      ReadingRaises(s, attempts, input);
      forall s1: State | s1.stack == s.stack
        ensures !Raise(s1, attempts, TransferFault).phase.Returned? && !Raise(s1, attempts, TransferFault).phase.Reading?
      {
        RaiseReturnsIff(s1, attempts, TransferFault);
        RaiseReads(s1, attempts, TransferFault);
      }
    } else if s.phase.Asking? && !input.Head? {
      var asked, fault := s.(requests := s.requests + 1), FaultOf(input);
      if !(fault.HttpFault? && fault.code == 416 && Size(s.disk) > 0) {
        AskingRaises(s, attempts, input);
        RaiseReturnsIff(asked, attempts, fault);
        RaiseKeepsFile(asked, attempts, fault);
        RaiseReads(asked, attempts, fault);
      }
    }
  }

  lemma {:induction false} RaiseReads(s: State, attempts: nat, fault: Fault)
    ensures !Raise(s, attempts, fault).phase.Reading?
    decreases |s.stack|
  {
    if s.stack != [] {
      var f := s.stack[0];
      RaiseReads(s.(stack := s.stack[1..], metadata := f.metadata, attempt := f.attempt), attempts, fault);
    }
  }

  lemma RunSnoc(s: State, attempts: nat, script: seq<Input>)
    requires script != []
    ensures var n := |script| - 1; Run(s, attempts, script) == Step(Run(s, attempts, script[..n]), attempts, script[n])
  {
    var n := |script| - 1;
    assert script == script[..n] + [script[n]] && [script[n]][1..] == [];
    RunAppend(s, attempts, script[..n], [script[n]]);
    var before := Run(s, attempts, script[..n]);
    assert Run(before, attempts, [script[n]]) == Run(Step(before, attempts, script[n]), attempts, []);
  }

  ghost predicate LosesFileIn(s: State, attempts: nat, script: seq<Input>) {
    exists n :: 0 <= n < |script| && LosesFile(Run(s, attempts, script[..n]), attempts, script[n])
  }

  lemma LosesFileSnoc(s: State, attempts: nat, script: seq<Input>)
    requires script != []
    ensures var n := |script| - 1;
            LosesFileIn(s, attempts, script)
            <==> LosesFileIn(s, attempts, script[..n]) || LosesFile(Run(s, attempts, script[..n]), attempts, script[n])
  {
    hide Run, LosesFile;
    var n := |script| - 1;
    if LosesFileIn(s, attempts, script[..n]) {
      var k :| 0 <= k < n && LosesFile(Run(s, attempts, script[..n][..k]), attempts, script[..n][k]);
      assert script[..n][..k] == script[..k] && LosesFile(Run(s, attempts, script[..k]), attempts, script[k]);
    }
    if LosesFileIn(s, attempts, script) {
      var k :| 0 <= k <= n && LosesFile(Run(s, attempts, script[..k]), attempts, script[k]);
      assert k < n ==> script[..n][..k] == script[..k] && script[..n][k] == script[k];
    }
  }

  /** Exactly which calls return with no file: those in which such an answer arrives. */
  lemma {:induction false} ReturnLosesFileIff(disk: Disk, attempts: nat, script: seq<Input>)
    requires attempts >= 1
    ensures var s := Run(Begin(disk), attempts, script);
            && (s.phase.Returned? && s.disk.file.None? <==> LosesFileIn(Begin(disk), attempts, script))
            && ReadsAFile(s)
  {
    if script != [] {
      hide LosesFileIn, LosesFile, Step, Run;
      var n := |script| - 1;
      var before := Run(Begin(disk), attempts, script[..n]);
      ReturnLosesFileIff(disk, attempts, script[..n]);
      RunStaysBounded(Begin(disk), attempts, script[..n]);
      RunSnoc(Begin(disk), attempts, script);
      LosesFileSnoc(Begin(disk), attempts, script);
      if before.phase.Returned? {
        ReturnedStays(before, attempts, script[n]);
      } else {
        StepLosesFileIff(before, attempts, script[n]);
      }
    }
  }

  lemma ReturnedStays(s: State, attempts: nat, input: Input)
    requires s.phase.Returned?
    ensures Step(s, attempts, input) == s && !LosesFile(s, attempts, input)
  {
  }

  /** A range for the wrong place, then a 416 that names the old size, again and again. */
  function Stale(refusal: string, attempts: nat): seq<Input> {
    [Local, Head(UNRANGED), Local, Local] + Refusals(refusal, attempts)
  }

  function Refusals(refusal: string, n: nat): seq<Input> {
    if n == 0 then [] else [Refusal(416, refusal)] + Refusals(refusal, n - 1)
  }

  /** The inner activation of such a call before its attempt number `attempt`. */
  function Refusing(size: nat, attempt: nat): State {
    State(Disk(None, NoFile), Asking, NO_META, attempt, attempt + 1, 1, [Frame(NO_META, 0, size)])
  }

  lemma {:induction false} StaleEnds(size: nat, refusal: string, attempt: nat, attempts: nat)
    requires size > 0 && UnsatisfiedTotal(refusal) == Some(size) && attempt < attempts
    ensures var s := Run(Refusing(size, attempt), attempts, Refusals(refusal, attempts - attempt));
            s.phase == Returned(Some(size)) && s.disk == Disk(None, Stored(Meta(false, None, None, Some(size))))
    decreases attempts - attempt
  {
    hide UnsatisfiedTotal;
    var s, input := Refusing(size, attempt), Refusal(416, refusal);
    var rest := Refusals(refusal, attempts - attempt - 1);
    assert Refusals(refusal, attempts - attempt)[1..] == rest;
    var next := Step(s, attempts, input);
    assert Run(s, attempts, Refusals(refusal, attempts - attempt)) == Run(next, attempts, rest);
    AskingRaises(s, attempts, input);
    if attempt + 1 < attempts {
      assert next == Refusing(size, attempt + 1);
      StaleEnds(size, refusal, attempt + 1, attempts);
    } else {
      var outer := s.(requests := s.requests + 1, stack := s.stack[1..], metadata := NO_META, attempt := 0);
      assert next == Except(outer, attempts, size, HttpFault(416, refusal));
      assert rest == [];
    }
  }

  lemma StaleBegins(file: Bytes, attempts: nat)
    requires file != []
    ensures Run(Begin(Disk(Some(file), NoFile)), attempts, [Local, Head(UNRANGED), Local, Local])
         == Refusing(|file|, 0)
  {
    var s0 := Begin(Disk(Some(file), NoFile));
    var suspended := [Frame(NO_META, 0, |file|)];
    var s1 := s0.(phase := Asking);
    var s2 := State(Disk(None, NoFile), Clearing(ThenAgain), NO_META, 0, 1, 0, suspended);
    var s3 := State(Disk(None, NoFile), Starting, NO_META, 0, 1, 1, suspended);
    assert ContentRange("") == None;
    assert Step(s0, attempts, Local) == s1;
    assert Step(s1, attempts, Head(UNRANGED)) == s2 by { assert suspended + [] == suspended; }
    assert Step(s2, attempts, Local) == s3;
    assert Step(s3, attempts, Local) == Refusing(|file|, 0);
    var script: seq<Input> := [Local, Head(UNRANGED), Local, Local];
    assert script[1..] == [Head(UNRANGED), Local, Local];
    RunOfThree(s1, attempts, script[1..]);
  }

  /** Such a call, with any number of attempts, returns as complete with the file gone, and records the old size. */
  lemma StaleRefusalReturnsNothing(file: Bytes, refusal: string, attempts: nat)
    requires file != [] && UnsatisfiedTotal(refusal) == Some(|file|) && attempts >= 1
    ensures var s := Run(Begin(Disk(Some(file), NoFile)), attempts, Stale(refusal, attempts));
            && s.phase == Returned(Some(|file|))
            && s.disk == Disk(None, Stored(Meta(false, None, None, Some(|file|))))
  {
    hide UnsatisfiedTotal, Step;
    StaleBegins(file, attempts);
    StaleEnds(|file|, refusal, 0, attempts);
    RunAppend(Begin(Disk(Some(file), NoFile)), attempts, [Local, Head(UNRANGED), Local, Local], Refusals(refusal, attempts));
  }

  // ---------------------------------------------------------------- a returned file is of its recorded size

  predicate MeasuredDisk(disk: Disk) {
    Size(disk) > 0 ==>
      disk.meta.Stored? && (disk.meta.meta.known && disk.meta.meta.total.Some? ==> disk.meta.meta.total.value == Size(disk))
  }

  /** Whatever the server answers: bytes are counted while they are read, and a returned file agrees with its record. */
  predicate Measured(s: State) {
    match s.phase
    case Clearing(next) => s.disk.file.None?
    case Opening(append, total) => s.metadata.known && s.metadata.total == total && (append ==> s.disk.file.Some?)
    case Reading(downloaded, total) =>
      s.disk.file.Some? && downloaded == Size(s.disk) && s.metadata.known && s.metadata.total == total
    case Returned(_) => MeasuredDisk(s.disk)
    case _ => true
  }

  /** After a fault that is no 416 to a file with bytes, an activation returns only where there are no bytes. */
  lemma FaultStaysMeasured(s: State, attempts: nat, fault: Fault)
    requires FramesFit(s.stack, attempts)
    requires fault.HttpFault? && fault.code == 416 ==> Size(s.disk) == 0
    ensures Measured(Raise(s, attempts, fault))
  {
    hide UnsatisfiedTotal;
    RaiseReturnsIff(s, attempts, fault);
    RaiseKeepsFile(s, attempts, fault);
    RaiseSettles(s, attempts, fault);
  }

  lemma {:induction false} RaiseSettles(s: State, attempts: nat, fault: Fault)
    ensures var s' := Raise(s, attempts, fault);
            s'.phase.Asking? || s'.phase.Raised? || s'.phase.Returned? || (s'.phase.Clearing? && s'.disk.file.None?)
    decreases |s.stack|
  {
    if s.stack != [] {
      var f := s.stack[0];
      RaiseSettles(s.(stack := s.stack[1..], metadata := f.metadata, attempt := f.attempt), attempts, fault);
    }
  }

  lemma StepStaysMeasured(s: State, attempts: nat, input: Input)
    requires FramesFit(s.stack, attempts) && Measured(s)
    ensures Measured(Step(s, attempts, input))
  {
    hide Raise, UnsatisfiedTotal, ContentRange, ParseInt;
    if s.phase.Reading? {
      ReadingRaises(s, attempts, input);
      forall s1: State | s1.stack == s.stack ensures Measured(Raise(s1, attempts, TransferFault)) {
        FaultStaysMeasured(s1, attempts, TransferFault);
      }
    } else if s.phase.Asking? && !input.Head? {
      var asked, fault := s.(requests := s.requests + 1), FaultOf(input);
      if !(fault.HttpFault? && fault.code == 416 && Size(s.disk) > 0) {
        AskingRaises(s, attempts, input);
        FaultStaysMeasured(asked, attempts, fault);
      }
    }
  }

  lemma {:induction false} RunStaysMeasured(disk: Disk, attempts: nat, script: seq<Input>)
    requires attempts >= 1
    ensures Measured(Run(Begin(disk), attempts, script))
  {
    if script != [] {
      hide Step, Run, Measured;
      var n := |script| - 1;
      RunStaysMeasured(disk, attempts, script[..n]);
      RunStaysBounded(Begin(disk), attempts, script[..n]);
      RunSnoc(Begin(disk), attempts, script);
      StepStaysMeasured(Run(Begin(disk), attempts, script[..n]), attempts, script[n]);
    }
  }

  // ---------------------------------------------------------------- which answers start over

  /**
   A partial answer for another place; a 416 for another size than the file's; or, in the last attempt of a call inside a
   `try` that has no bytes, a 416 for another size than the one seen outside.
   */
  predicate StartsOver(s: State, attempts: nat, input: Input) {
    || Mismatches(s, input)
    || (s.phase.Asking? && input.Refusal? && input.code == 416
        && if Size(s.disk) > 0 then UnsatisfiedTotal(input.contentRange) != Some(Size(s.disk))
           else s.attempt + 1 >= attempts && s.stack != []
                && UnsatisfiedTotal(input.contentRange) != Some(s.stack[0].existing))
  }

  lemma {:induction false} RaiseClearsIff(s: State, attempts: nat, fault: Fault)
    requires FramesFit(s.stack, attempts)
    ensures Raise(s, attempts, fault).phase == Clearing(ThenAgain)
            <==> s.stack != [] && fault.HttpFault? && fault.code == 416
                 && UnsatisfiedTotal(fault.contentRange) != Some(s.stack[0].existing)
    decreases |s.stack|
  {
    hide UnsatisfiedTotal;
    if s.stack != [] {
      var f := s.stack[0];
      assert f in s.stack;
      var outer := s.(stack := s.stack[1..], metadata := f.metadata, attempt := f.attempt);
      if !(fault.HttpFault? && fault.code == 416) {
        RaiseClearsIff(outer, attempts, fault);
      }
    }
  }

  /** Exactly which step decides to start over. */
  lemma StepStartsOverIff(s: State, attempts: nat, input: Input)
    requires FramesFit(s.stack, attempts) && ReadsAFile(s)
    ensures Step(s, attempts, input).phase == Clearing(ThenAgain) <==> StartsOver(s, attempts, input)
  {
    hide Raise, UnsatisfiedTotal, ContentRange, ParseInt;
    if s.phase.Reading? {
      ReadingRaises(s, attempts, input);
      forall s1: State | s1.stack == s.stack ensures Raise(s1, attempts, TransferFault).phase != Clearing(ThenAgain) {
        RaiseClearsIff(s1, attempts, TransferFault);
      }
    } else if s.phase.Asking? && !input.Head? {
      var asked, fault := s.(requests := s.requests + 1), FaultOf(input);
      if !(fault.HttpFault? && fault.code == 416 && Size(s.disk) > 0) {
        AskingRaises(s, attempts, input);
        RaiseClearsIff(asked, attempts, fault);
      }
    }
  }

  lemma StepKeepsCount(s: State, attempts: nat, input: Input)
    ensures Step(s, attempts, input).restarts == s.restarts + if s.phase == Clearing(ThenAgain) then 1 else 0
  {
    hide Raise, UnsatisfiedTotal, ContentRange, ParseInt;
    if s.phase.Reading? {
      ReadingKeepsCount(s, attempts, input);
    } else if s.phase.Asking? && !input.Head? {
      var asked, fault := s.(requests := s.requests + 1), FaultOf(input);
      if !(fault.HttpFault? && fault.code == 416 && Size(s.disk) > 0) {
        AskingRaises(s, attempts, input);
        RaiseKeepsFile(asked, attempts, fault);
      }
    }
  }

  lemma ReadingKeepsCount(s: State, attempts: nat, input: Input)
    requires s.phase.Reading?
    ensures Step(s, attempts, input).restarts == s.restarts
  {
    hide Raise;
    RaiseKeepsFile(s, attempts, TransferFault);
    if input.Cut? { RaiseKeepsFile(Store(s, input.data), attempts, TransferFault); }
  }

  /** The answers of a run that decided to start over. */
  function StartOvers(s: State, attempts: nat, script: seq<Input>): nat
    decreases |script|
  {
    if script == [] then 0
    else
      var n := |script| - 1;
      StartOvers(s, attempts, script[..n]) + if StartsOver(Run(s, attempts, script[..n]), attempts, script[n]) then 1 else 0
  }

  /** The restarts of a call are just these, but for a last one whose files are not yet cleared. */
  lemma {:induction false} RestartsAreCounted(disk: Disk, attempts: nat, script: seq<Input>)
    requires attempts >= 1
    ensures var s := Run(Begin(disk), attempts, script);
            s.restarts + (if s.phase == Clearing(ThenAgain) then 1 else 0) == StartOvers(Begin(disk), attempts, script)
  {
    if script != [] {
      hide Step, Run, StartsOver;
      var n := |script| - 1;
      var before := Run(Begin(disk), attempts, script[..n]);
      RestartsAreCounted(disk, attempts, script[..n]);
      RunStaysBounded(Begin(disk), attempts, script[..n]);
      ReturnLosesFileIff(disk, attempts, script[..n]);
      RunSnoc(Begin(disk), attempts, script);
      StepStartsOverIff(before, attempts, script[n]);
      StepKeepsCount(before, attempts, script[n]);
      ClearingGoesOn(before, attempts, script[n]);
    }
  }

  lemma ClearingGoesOn(s: State, attempts: nat, input: Input)
    ensures s.phase == Clearing(ThenAgain) ==> Step(s, attempts, input).phase == Starting
    ensures StartsOver(s, attempts, input) ==> s.phase.Asking?
  {
  }

  // ---------------------------------------------------------------- a server that is not honest

  /** A partial answer that does not say which part it is. */
  const UNRANGED := Response(206, "", "", None, None)

  /** Delivers one byte, fails, then refuses the rest without naming a size. */
  function Loop(data: byte): seq<Input> {
    [Local, Head(Response(200, "", "", None, None)), Local, Cut([data]), Refusal(416, ""), Local]
  }

  function Loops(data: byte, n: nat): seq<Input> {
    if n == 0 then [] else Loop(data) + Loops(data, n - 1)
  }

  lemma {:induction false} RunAppend(s: State, attempts: nat, a: seq<Input>, b: seq<Input>)
    ensures Run(s, attempts, a + b) == Run(Run(s, attempts, a), attempts, b)
    decreases |a|
  {
    if a == [] {
      assert a + b == b;
    } else {
      assert (a + b)[1..] == a[1..] + b;
      RunAppend(Step(s, attempts, a[0]), attempts, a[1..], b);
    }
  }

  function Fresh(requests: nat, restarts: nat): State {
    State(Disk(None, NoFile), Starting, NO_META, 0, requests, restarts, [])
  }

  lemma LoopBegins(data: byte, requests: nat, restarts: nat, attempts: nat)
    requires attempts >= 2
    ensures var loop, meta := Loop(data), Meta(true, None, None, None);
            Run(Fresh(requests, restarts), attempts, loop[..3])
            == State(Disk(Some([]), Stored(meta)), Reading(0, None), meta, 0, requests + 1, restarts, [])
  {
    var loop, meta := Loop(data), Meta(true, None, None, None);
    RunOfThree(Fresh(requests, restarts), attempts, loop[..3]);
    var s2 := State(Disk(None, Stored(meta)), Opening(false, None), meta, 0, requests + 1, restarts, []);
    assert Step(Step(Fresh(requests, restarts), attempts, loop[0]), attempts, loop[1]) == s2;
  }

  lemma LoopEnds(data: byte, requests: nat, restarts: nat, attempts: nat)
    requires attempts >= 2
    ensures var loop, meta := Loop(data), Meta(true, None, None, None);
            Run(State(Disk(Some([]), Stored(meta)), Reading(0, None), meta, 0, requests + 1, restarts, []), attempts, loop[3..])
            == Fresh(requests + 2, restarts + 1)
  {
    var loop, meta := Loop(data), Meta(true, None, None, None);
    var s3 := State(Disk(Some([]), Stored(meta)), Reading(0, None), meta, 0, requests + 1, restarts, []);
    var s4 := State(Disk(Some([data]), Stored(meta)), Asking, meta, 1, requests + 1, restarts, []);
    var s5 := State(Disk(None, Stored(meta)), Clearing(ThenAgain), meta, 1, requests + 2, restarts, []);
    RunOfThree(s3, attempts, loop[3..]);
    assert [] + [data] == [data];
    assert Step(s3, attempts, loop[3]) == s4;
    assert UnsatisfiedTotal("") == None;
    assert Step(s4, attempts, loop[4]) == s5;
  }

  lemma OneLoop(data: byte, requests: nat, restarts: nat, attempts: nat)
    requires attempts >= 2
    ensures Run(Fresh(requests, restarts), attempts, Loop(data)) == Fresh(requests + 2, restarts + 1)
  {
    var loop := Loop(data);
    LoopBegins(data, requests, restarts, attempts);
    LoopEnds(data, requests, restarts, attempts);
    assert loop[..3] + loop[3..] == loop;
    RunAppend(Fresh(requests, restarts), attempts, loop[..3], loop[3..]);
  }

  lemma RunOfTwo(s: State, attempts: nat, l: seq<Input>)
    requires |l| == 2
    ensures Run(s, attempts, l) == Step(Step(s, attempts, l[0]), attempts, l[1])
  {
    assert l[1..] == [l[1]] && [l[1]][1..] == [];
    var s1 := Step(s, attempts, l[0]);
    assert Run(s1, attempts, [l[1]]) == Run(Step(s1, attempts, l[1]), attempts, []);
  }

  lemma RunOfThree(s: State, attempts: nat, l: seq<Input>)
    requires |l| == 3
    ensures Run(s, attempts, l) == Step(Step(Step(s, attempts, l[0]), attempts, l[1]), attempts, l[2])
  {
    RunOfTwo(Step(s, attempts, l[0]), attempts, l[1..]);
  }

  /** Without honest ranges nothing in the download itself bounds the restarts. */
  lemma {:induction false} RestartsAreUnbounded(data: byte, n: nat, requests: nat, restarts: nat, attempts: nat)
    requires attempts >= 2
    ensures Run(Fresh(requests, restarts), attempts, Loops(data, n)).restarts == restarts + n
  {
    if n > 0 {
      OneLoop(data, requests, restarts, attempts);
      RunAppend(Fresh(requests, restarts), attempts, Loop(data), Loops(data, n - 1));
      RestartsAreUnbounded(data, n - 1, requests + 2, restarts + 1, attempts);
    }
  }

  // ---------------------------------------------------------------- metadata that is no record

  /** A call fails before its first request exactly when the metadata file is well-formed but no record. */
  lemma ScalarMetadataBlocksIff(disk: Disk)
    ensures Start(Begin(disk)).phase.Raised? <==> disk.meta.Scalar?
    ensures !disk.meta.Scalar? ==>
              var s := Start(Begin(disk));
              var t := if s.phase == Clearing(ThenBegin) then Cleared(s, ThenBegin) else s;
              t.phase.Asking? || t.phase.Returned?
  {
  }

  /** And then it does so however often it is called. */
  lemma {:induction false} ScalarMetadataBlocks(s: State, attempts: nat, script: seq<Input>)
    requires s.disk.meta.Scalar? && (s.phase.Starting? || s.phase.Raised?)
    ensures var s' := Run(s, attempts, script);
            s'.disk == s.disk && s'.requests == s.requests && (s'.phase.Starting? || s'.phase.Raised?)
    decreases |script|
  {
    if script != [] {
      ScalarMetadataBlocks(Step(s, attempts, script[0]), attempts, script[1..]);
    }
  }
}
