/** The download as an object that changes files; each call is the run of the machine. */
module ArchiveDownload {
  import opened Wrappers
  import opened HttpHeaders
  import opened ResumableDownload

  /** `Stopped` is a process that died before the call was over; a failure has a fault unless no handler knows it. */
  datatype Outcome = Finished(total: Option<int>) | Failed(fault: Option<Fault>) | Stopped

  /** How one pass through the `try` ended. */
  datatype TryEnd = Over(outcome: Outcome) | Faulted(fault: Fault)

  datatype BodyEnd = Complete | Broken | Died

  lemma {:induction false} RunIsOver(s: State, attempts: nat, script: seq<Input>)
    requires s.phase.Returned? || s.phase.Raised?
    ensures Run(s, attempts, script) == s
    decreases |script|
  {
    if script != [] {
      RunIsOver(s, attempts, script[1..]);
    }
  }

  /** The handlers look at neither the phase nor, for a lost transfer, the size. */
  lemma {:induction false} PhaseIsForgotten(s: State, phase: Phase, attempts: nat, existing: nat, fault: Fault)
    ensures Except(s.(phase := phase), attempts, existing, fault) == Except(s, attempts, existing, fault)
    decreases |s.stack|
  {
    if s.stack != [] {
      var f := s.stack[0];
      var outer := s.(stack := s.stack[1..], metadata := f.metadata, attempt := f.attempt);
      PhaseIsForgotten(outer, phase, attempts, f.existing, fault);
    }
  }

  lemma SizeIsForgotten(s: State, attempts: nat, existing: nat)
    ensures Except(s, attempts, existing, TransferFault) == Except(s, attempts, 0, TransferFault)
  {
  }

  predicate IsOver(phase: Phase) {
    phase.Returned? || phase.Raised?
  }

  /**
   The run from `s` has brought a call to its outcome on `disk`. With a fault it goes on from the state `at` where the
   call failed, in the activations that were suspended when it began.
   */
  ghost predicate Brings(s: State, attempts: nat, script: seq<Input>, disk: Disk, outcome: Outcome, at: State, rest: seq<Input>) {
    var end := Run(s, attempts, script);
    match outcome
    case Finished(total) => end.phase == Returned(total) && end.disk == disk
    case Stopped => !IsOver(end.phase) && end.disk == disk
    case Failed(None) => end.phase == Raised && end.disk == disk
    case Failed(Some(fault)) =>
      at.disk == disk && at.stack == s.stack && end == Run(Raise(at, attempts, fault), attempts, rest)
  }

  class Archive {
    var file: Option<Bytes>
    var meta: MetaFile

    constructor (file: Option<Bytes>, meta: MetaFile)
      ensures this.file == file && this.meta == meta
    {
      this.file, this.meta := file, meta;
    }

    ghost function View(): Disk
      reads this
    {
      Disk(file, meta)
    }

    function ExistingSize(): nat
      reads this
    {
      if file.Some? then |file.value| else 0
    }

    /** Reads the body until it ends, breaks off or the process dies. */
    method ReadBody(script: seq<Input>, total: Option<int>, ghost s: State, ghost attempts: nat)
      returns (rest: seq<Input>, downloaded: int, end: BodyEnd)
      requires file.Some? && s.disk == View() && s.phase == Reading(|file.value|, total)
      modifies this`file
      ensures file.Some? && downloaded == |file.value| && |rest| <= |script|
      ensures var s' := s.(disk := View(), phase := Reading(downloaded, total));
              Run(s, attempts, script)
              == match end
                 case Complete => Run(Finish(s', attempts), attempts, rest)
                 case Broken => Run(Except(s', attempts, 0, TransferFault), attempts, rest)
                 case Died => s'
    {
      hide Except;
      rest, downloaded := script, |file.value|;
      ghost var now := s;
      while rest != []
        invariant file.Some? && downloaded == |file.value| && |rest| <= |script|
        invariant now == s.(disk := View(), phase := Reading(downloaded, total))
        invariant Run(s, attempts, script) == Run(now, attempts, rest)
        decreases |rest|
      {
        var answer := rest[0];
        ghost var next := Step(now, attempts, answer);
        rest := rest[1..];
        if answer.Chunk? {
          file := Some(file.value + answer.data);
          downloaded := downloaded + |answer.data|;
          now := next;
        } else if answer.Cut? {
          file := Some(file.value + answer.data);
          downloaded := downloaded + |answer.data|;
          return rest, downloaded, Broken;
        } else if answer.Done? {
          return rest, downloaded, Complete;
        } else {
          return rest, downloaded, Broken;
        }
      }
      return rest, downloaded, Died;
    }

    /** Reads the metadata and drops a file whose metadata is not this URL's; an outcome ends the call. */
    method Prepare(script: seq<Input>, ghost s: State, ghost attempts: nat)
      returns (rest: seq<Input>, metadata: Meta, outcome: Option<Outcome>)
      requires script != [] && s.disk == View() && s.phase.Starting? && s.metadata == NO_META
      modifies this
      ensures |rest| < |script|
      ensures outcome.None? ==> Run(s, attempts, script) == Run(EnterLoop(s.(disk := View(), metadata := metadata)), attempts, rest)
      ensures outcome.Some? ==> Brings(s, attempts, script, View(), outcome.value, s, rest)
    {
      rest, metadata := script[1..], NO_META;
      if meta.Scalar? {
        RunIsOver(s.(phase := Raised), attempts, rest);
        return rest, metadata, Some(Failed(None));
      }
      if meta.Stored? && meta.meta.known {
        metadata := meta.meta;
      }
      if file.Some? && !metadata.known && !meta.NoFile? {
        file := None;
        if rest == [] {
          return rest, metadata, Some(Stopped);
        }
        rest := rest[1..];
        meta := NoFile;
      }
      return rest, metadata, None;
    }

    /** Removes the metadata after the file, then starts over or gives up. */
    method StartOver(again: bool, attempts: nat, script: seq<Input>, ghost s: State)
      returns (rest: seq<Input>, outcome: Outcome, ghost at: State)
      requires attempts >= 1 && file.None? && s.disk == View()
      requires s.phase == Clearing(if again then ThenAgain else ThenRaise)
      modifies this
      ensures |rest| <= |script| && Brings(s, attempts, script, View(), outcome, at, rest)
      ensures !again && outcome.Failed? ==> outcome.fault.None?
      decreases |script|, 1
    {
      rest, at := script, s;
      if script == [] {
        return rest, Stopped, at;
      }
      meta := NoFile;
      rest := script[1..];
      ghost var cleared := Step(s, attempts, script[0]);
      if !again {
        RunIsOver(cleared, attempts, rest);
        return rest, Failed(None), at;
      }
      rest, outcome, at := DownloadArchive(attempts, rest, cleared);
    }

    /** Writes the metadata of an accepted response, opens the file and reads the body. */
    method TakeBody(r: Response, range: Option<(int, int)>, attempts: nat, script: seq<Input>, ghost s: State)
      returns (rest: seq<Input>, metadata: Meta, end: BodyEnd)
      requires s.disk == View() && s.phase.Asking?
      requires range == (if r.status == 206 then ContentRange(r.contentRange) else None)
      requires r.status == 206 ==> range.Some? && range.value.0 == ExistingSize()
      requires range.None? && r.contentLength != "" ==> ParseInt(r.contentLength).Some?
      modifies this
      ensures |rest| <= |script|
      ensures end.Died? ==> Brings(Respond(s, r), attempts, script, View(), Stopped, s, rest)
      ensures end.Broken? ==>
                Run(Respond(s, r), attempts, script)
                == Run(Except(s.(disk := View(), metadata := metadata), attempts, 0, TransferFault), attempts, rest)
      ensures end.Complete? ==> Brings(Respond(s, r), attempts, script, View(), Finished(metadata.total), s, rest)
    {
      hide Except;
      var existing := ExistingSize();
      var append := existing > 0 && r.status == 206;
      var total: Option<int> := None;
      if range.Some? {
        total := Some(range.value.1);
      } else if r.contentLength != "" {
        total := Some(ParseInt(r.contentLength).value);
      }
      metadata := Meta(true, r.etag, r.lastModified, total);
      meta := Stored(metadata);
      if script == [] {
        return script, metadata, Died;
      }
      if !append {
        file := Some([]);
      }
      ghost var reading := Step(Respond(s, r), attempts, script[0]);
      assert Run(Respond(s, r), attempts, script) == Run(reading, attempts, script[1..]);
      var downloaded: int;
      rest, downloaded, end := ReadBody(script[1..], total, reading, attempts);
      ghost var phase := Reading(downloaded, total);
      if end.Complete? {
        if total.Some? && downloaded != total.value {
          end := Broken;
        } else {
          RunIsOver(Finish(reading.(disk := View(), phase := phase), attempts), attempts, rest);
          meta := Stored(metadata);
        }
      }
      PhaseIsForgotten(s.(disk := View(), metadata := metadata), phase, attempts, 0, TransferFault);
    }

    /** One response: the call is over, or a fault is left to the handlers. */
    method TakeResponse(r: Response, attempts: nat, script: seq<Input>, known: Meta, ghost s: State)
      returns (rest: seq<Input>, metadata: Meta, end: TryEnd, ghost at: State)
      requires attempts >= 1 && s.disk == View() && s.phase.Asking? && s.metadata == known
      modifies this
      ensures |rest| <= |script|
      ensures end.Over? ==>
                Brings(Respond(s, r), attempts, script, View(), end.outcome, at, rest)
                && (end.outcome.Failed? ==> end.outcome.fault.None?)
      ensures end.Faulted? ==>
                at.disk == View() && at.stack == s.stack && at.metadata == metadata && at.attempt == s.attempt
                && Run(Respond(s, r), attempts, script)
                   == Run(Except(at, attempts, old(ExistingSize()), end.fault), attempts, rest)
      decreases |script|, 3
    {
      hide ContentRange, ParseInt, Except;
      var existing := ExistingSize();
      var range := if r.status == 206 then ContentRange(r.contentRange) else None;
      rest, metadata, at := script, known, s;
      if r.status == 206 && (range.None? || range.value.0 != existing) {
        file := None;
        if existing > 0 {
          rest, end, at := CallAgain(existing, attempts, script, known, s, Respond(s, r));
        } else {
          var over: Outcome;
          rest, over, at := StartOver(false, attempts, script, Respond(s, r));
          end := Over(over);
        }
        return;
      }
      if range.None? && r.contentLength != "" && ParseInt(r.contentLength).None? {
        RunIsOver(Respond(s, r), attempts, script);
        return rest, metadata, Over(Failed(None)), at;
      }
      var body: BodyEnd;
      rest, metadata, body := TakeBody(r, range, attempts, script, s);
      match body
      case Died => end := Over(Stopped);
      case Complete => end := Over(Finished(metadata.total));
      case Broken =>
        end := Faulted(TransferFault);
        at := s.(disk := View(), metadata := metadata);
        SizeIsForgotten(at, attempts, existing);
    }

    /** The call inside the `try`: its fault is this activation's to handle. */
    method CallAgain(existing: nat, attempts: nat, script: seq<Input>, known: Meta, ghost s: State, ghost called: State)
      returns (rest: seq<Input>, end: TryEnd, ghost at: State)
      requires attempts >= 1 && file.None? && s.metadata == known
      requires called.disk == View() && called.phase == Clearing(ThenAgain) && called.stack == Suspend(s, existing).stack
      modifies this
      ensures |rest| <= |script|
      ensures end.Over? ==>
                Brings(called, attempts, script, View(), end.outcome, at, rest)
                && (end.outcome.Failed? ==> end.outcome.fault.None?)
      ensures end.Faulted? ==>
                at.disk == View() && at.stack == s.stack && at.metadata == known && at.attempt == s.attempt
                && Run(called, attempts, script) == Run(Except(at, attempts, existing, end.fault), attempts, rest)
      decreases |script|, 2
    {
      var outcome: Outcome;
      rest, outcome, at := StartOver(true, attempts, script, called);
      end := Over(outcome);
      if outcome.Failed? && outcome.fault.Some? {
        end := Faulted(outcome.fault.value);
        assert at.stack[1..] == s.stack;
        at := at.(stack := s.stack, metadata := known, attempt := s.attempt);
      }
    }

    /** One pass through the `try`, from the request. */
    method Try(attempts: nat, script: seq<Input>, known: Meta, ghost s: State)
      returns (rest: seq<Input>, metadata: Meta, end: TryEnd, ghost at: State)
      requires attempts >= 1 && s.disk == View() && s.phase.Asking? && s.metadata == known
      modifies this
      ensures |rest| <= |script|
      ensures end.Over? ==>
                Brings(s, attempts, script, View(), end.outcome, at, rest)
                && (end.outcome.Failed? ==> end.outcome.fault.None?)
      ensures end.Faulted? ==>
                at.disk == View() && at.stack == s.stack && at.metadata == metadata && at.attempt == s.attempt
                && Run(s, attempts, script) == Run(Except(at, attempts, old(ExistingSize()), end.fault), attempts, rest)
      decreases |script|, 4
    {
      hide Except, Respond;
      rest, metadata, at := script, known, s;
      if script == [] {
        return rest, metadata, Over(Stopped), at;
      }
      var input := script[0];
      rest, at := script[1..], s.(requests := s.requests + 1);
      if input.Head? {
        rest, metadata, end, at := TakeResponse(input.response, attempts, rest, known, at);
      } else if input.Refusal? {
        end := Faulted(HttpFault(input.code, input.contentRange));
      } else {
        end := Faulted(TransferFault);
      }
    }

    method DownloadArchive(attempts: nat, script: seq<Input>, ghost s: State)
      returns (rest: seq<Input>, outcome: Outcome, ghost at: State)
      requires attempts >= 1 && s.disk == View() && s.phase.Starting? && s.metadata == NO_META
      modifies this
      ensures |rest| <= |script| && Brings(s, attempts, script, View(), outcome, at, rest)
      decreases |script|, 0
    {
      hide UnsatisfiedTotal;
      rest, at := script, s;
      if script == [] {
        return rest, Stopped, at;
      }
      var metadata, ended := NO_META, None;
      rest, metadata, ended := Prepare(script, s, attempts);
      if ended.Some? {
        return rest, ended.value, at;
      }
      if ExistingSize() > 0 && metadata.total == Some(ExistingSize()) {
        RunIsOver(EnterLoop(s.(disk := View(), metadata := metadata)), attempts, rest);
        return rest, Finished(metadata.total), at;
      }
      var attempt := 0;
      ghost var cur := EnterLoop(s.(disk := View(), metadata := metadata));
      while true
        invariant attempt < attempts && |rest| < |script|
        invariant cur.phase.Asking? && cur.disk == View() && cur.metadata == metadata && cur.attempt == attempt
        invariant cur.stack == s.stack && Run(s, attempts, script) == Run(cur, attempts, rest)
        decreases attempts - attempt
      {
        var existing := ExistingSize();
        var end: TryEnd;
        rest, metadata, end, at := Try(attempts, rest, metadata, cur);
        if end.Over? {
          return rest, end.outcome, at;
        }
        if end.fault.HttpFault? && end.fault.code == 416 && existing > 0 {
          rest, outcome, at := HandleUnsatisfied(end.fault, existing, metadata, attempts, rest, at);
          return;
        }
        if attempt + 1 >= attempts {
          return rest, Failed(Some(end.fault)), at;
        }
        attempt := attempt + 1;
        cur := at.(phase := Asking, attempt := attempt);
      }
    }

    /** The handler of a 416 to a request with a range. */
    method HandleUnsatisfied(fault: Fault, existing: nat, known: Meta, attempts: nat, script: seq<Input>, ghost s: State)
      returns (rest: seq<Input>, outcome: Outcome, ghost at: State)
      requires fault.HttpFault? && fault.code == 416 && existing > 0
      requires attempts >= 1 && s.disk == View() && s.metadata == known
      modifies this
      ensures |rest| <= |script|
      ensures Brings(Except(s, attempts, existing, fault), attempts, script, View(), outcome, at, rest)
      ensures Except(s, attempts, existing, fault).stack == s.stack
      decreases |script|, 5
    {
      hide UnsatisfiedTotal;
      rest, at := script, s;
      if UnsatisfiedTotal(fault.contentRange) == Some(existing) {
        meta := Stored(known.(total := Some(existing)));
        RunIsOver(Except(s, attempts, existing, fault), attempts, rest);
        return rest, Finished(Some(existing)), at;
      }
      file := None;
      rest, outcome, at := StartOver(true, attempts, rest, Except(s, attempts, existing, fault));
    }
  }
}
