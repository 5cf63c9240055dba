/**
 The caller of the download: fetch, verify, then discard on a mismatch or extract and install. The locked digest stands
 for the one content it belongs to.
 */
module ModelInstall {
  import opened Wrappers
  import opened HttpHeaders
  import opened ResumableDownload
  import opened ArchiveDownload

  datatype Result = Installed | Mismatch | Unusable | NoArchive | DownloadFailed | Interrupted

  const EMPTY := Disk(None, NoFile)

  /** `usable` tells whether the verified archive extracts, holds the model files and passes validation. */
  function InstallRun(content: Bytes, disk: Disk, attempts: nat, script: seq<Input>, usable: bool): (Disk, Result) {
    var s := Run(Begin(disk), attempts, script);
    match s.phase
    case Raised => (s.disk, DownloadFailed)
    case Returned(_) =>
      if s.disk.file.None? then (s.disk, NoArchive)
      else if s.disk.file != Some(content) then (EMPTY, Mismatch)
      else if !usable then (s.disk, Unusable)
      else (EMPTY, Installed)
    case _ => (s.disk, Interrupted)
  }

  /** The outermost call hands its fault to nobody. */
  lemma OutermostFails(s: State, attempts: nat, script: seq<Input>, disk: Disk, outcome: Outcome, at: State, rest: seq<Input>)
    requires s.stack == [] && Brings(s, attempts, script, disk, outcome, at, rest) && outcome.Failed?
    ensures Run(s, attempts, script).phase == Raised && Run(s, attempts, script).disk == disk
  {
    if outcome.fault.Some? {
      RunIsOver(Raise(at, attempts, outcome.fault.value), attempts, rest);
    }
  }

  class ModelInstaller {
    const archive: Archive
    var model: Option<Bytes>

    constructor (archive: Archive)
      ensures this.archive == archive && model == None
    {
      this.archive, model := archive, None;
    }

    method Install(content: Bytes, attempts: nat, script: seq<Input>, usable: bool) returns (result: Result)
      requires attempts >= 1
      modifies this, archive
      ensures (archive.View(), result) == InstallRun(content, old(archive.View()), attempts, script, usable)
      ensures model == if result.Installed? then Some(content) else old(model)
    {
      ghost var start := Begin(archive.View());
      var rest, outcome, at := archive.DownloadArchive(attempts, script, start);
      if outcome.Failed? {
        OutermostFails(start, attempts, script, archive.View(), outcome, at, rest);
        return DownloadFailed;
      }
      if outcome.Stopped? {
        return Interrupted;
      }
      if archive.file.None? {
        return NoArchive;
      }
      if archive.file != Some(content) {
        archive.file := None;
        archive.meta := NoFile;
        return Mismatch;
      }
      if !usable {
        return Unusable;
      }
      model := archive.file;
      archive.file := None;
      archive.meta := NoFile;
      return Installed;
    }
  }

  /** A run whose download returns has verified the content, or leaves no file behind. */
  lemma ReturnedIsVerifiedOrRemoved(content: Bytes, disk: Disk, attempts: nat, script: seq<Input>, usable: bool)
    requires Run(Begin(disk), attempts, script).phase.Returned?
    ensures var (after, result) := InstallRun(content, disk, attempts, script, usable);
            || (result == Installed && after == EMPTY)
            || (result == Mismatch && after == EMPTY)
            || (result == NoArchive && after.file.None?)
            || (result == Unusable && !usable && after.file == Some(content))
  {
  }

  /** A returned download is verified or removed exactly when it was not lost to a refusal inside a `try`. */
  lemma VerifiedUnlessLost(content: Bytes, disk: Disk, attempts: nat, script: seq<Input>, usable: bool)
    requires attempts >= 1 && Run(Begin(disk), attempts, script).phase.Returned?
    ensures var (after, result) := InstallRun(content, disk, attempts, script, usable);
            && (result == NoArchive <==> LosesFileIn(Begin(disk), attempts, script))
            && (result != NoArchive ==> result in {Installed, Mismatch, Unusable} && (result != Unusable ==> after == EMPTY))
  {
    ReturnLosesFileIff(disk, attempts, script);
  }

  /** So it is wherever no partial answer for the wrong place arrives. */
  lemma VerifiedUnlessMismatched(content: Bytes, disk: Disk, attempts: nat, script: seq<Input>, usable: bool)
    requires Run(Begin(disk), attempts, script).phase.Returned? && NeverMismatches(Begin(disk), attempts, script)
    ensures var (after, result) := InstallRun(content, disk, attempts, script, usable);
            result in {Installed, Mismatch, Unusable} && (result != Unusable ==> after == EMPTY)
  {
    ReturnLeavesAFile(Begin(disk), attempts, script);
  }

  /** One run that has nothing to verify, with any number of attempts: the metadata of a file that is gone stays. */
  lemma StaleRefusalKeepsMetadata(content: Bytes, file: Bytes, refusal: string, attempts: nat)
    requires file != [] && UnsatisfiedTotal(refusal) == Some(|file|) && attempts >= 1
    ensures InstallRun(content, Disk(Some(file), NoFile), attempts, Stale(refusal, attempts), true)
         == (Disk(None, Stored(Meta(false, None, None, Some(|file|)))), NoArchive)
  {
    StaleRefusalReturnsNothing(file, refusal, attempts);
  }

  /**
   Main result. From any starting files and after any first run whose download returned, whatever the server answered and
   even if the verified archive could not be used, a second run with an honest server whose download returns with a known
   total installs the content.
   */
  lemma SecondRunInstalls(
    content: Bytes, disk: Disk, attempts: nat, first: seq<Input>, second: seq<Input>, usable: bool)
    requires attempts >= 1 && (usable || content != [])
    requires Run(Begin(disk), attempts, first).phase.Returned?
    requires var after := InstallRun(content, disk, attempts, first, usable).0;
             && HonestRun(content, Begin(after), attempts, second)
             && Run(Begin(after), attempts, second).phase.Returned?
             && Run(Begin(after), attempts, second).phase.total.Some?
    ensures var after := InstallRun(content, disk, attempts, first, usable).0;
            InstallRun(content, after, attempts, second, true) == (EMPTY, Installed)
  {
    hide Run, HonestRun;
    ReturnedIsVerifiedOrRemoved(content, disk, attempts, first, usable);
    RunStaysMeasured(disk, attempts, first);
    ReturnIsComplete(content, InstallRun(content, disk, attempts, first, usable).0, attempts, second);
  }

  /**
   Without an announced total a body that ends early goes unnoticed: the download returns, and only the digest tells.
   */
  lemma UnknownTotalMayStopShort(content: Bytes, attempts: nat)
    requires attempts >= 1 && content != []
    ensures var script := [Local, Head(Response(200, "", "", None, None)), Local, Done];
            && HonestRun(content, Begin(EMPTY), attempts, script)
            && Run(Begin(EMPTY), attempts, script).phase == Returned(None)
            && InstallRun(content, EMPTY, attempts, script, true) == (EMPTY, Mismatch)
  {
    var script := [Local, Head(Response(200, "", "", None, None)), Local, Done];
    var s0 := Begin(EMPTY);
    var s1 := Step(s0, attempts, Local);
    var s2 := Step(s1, attempts, script[1]);
    var s3 := Step(s2, attempts, Local);
    var s4 := Step(s3, attempts, Done);
    assert s4.phase == Returned(None) && s4.disk.file == Some([]);
    assert script[1..][1..][1..] == [Done] && [Done][1..] == [];
    assert Run(s3, attempts, [Done]) == s4 && HonestRun(content, s3, attempts, [Done]);
    assert Run(s2, attempts, script[1..][1..]) == s4 && HonestRun(content, s2, attempts, script[1..][1..]);
    assert Run(s1, attempts, script[1..]) == s4 && HonestRun(content, s1, attempts, script[1..]);
  }
}
