/**
 Workspace updates as two database steps: the row is read, then one conditional UPDATE writes. The revision written is
 the revision read plus one, so a writer that names no expected revision can overwrite a commit made in between.
 */
module ContextRevision {
  import opened Wrappers
  import opened ChatSchema
  import opened ChatRepository

  datatype Change = Change(
    workspace: string,
    name: Option<string>,
    companion: Option<string>,
    context: Option<Option<string>>,
    expected: Option<nat>)

  datatype Phase = Called | HasRead(revision: nat) | Committed | Failed(error: Error)

  datatype Writer = Writer(change: Change, phase: Phase)

  /** `past` lists every database that was ever committed; `log` the committed changes, in order. */
  datatype World = World(db: Db, writers: map<nat, Writer>, past: seq<Db>, log: seq<Change>)

  datatype Action = Call(writer: nat, change: Change) | Read(writer: nat) | Write(writer: nat)

  function Serial(db: Db, c: Change): Outcome {
    UpdateWorkspace(db, c.workspace, c.name, c.companion, c.context, c.expected)
  }

  function ReadRow(db: Db, c: Change): Phase {
    if c.workspace !in db.workspaces then Failed(WorkspaceNotFound)
    else if c.companion.Some? && Normalize(c.companion) !in db.companions then Failed(InvalidCompanion)
    else HasRead(db.workspaces[c.workspace].revision)
  }

  /** The UPDATE matches the row when no revision is expected or the stored one is the expected one. */
  function WriteRow(db: Db, c: Change, revisionRead: nat): Outcome {
    if c.workspace !in db.workspaces then Fail(WorkspaceNotFound) else
    var row := db.workspaces[c.workspace];
    if c.expected.Some? && c.expected.value != row.revision then Fail(RevisionConflict(row.revision, row.context))
    else Ok(db.(workspaces := db.workspaces[c.workspace := Workspace(
      c.name.GetOr(row.name),
      if c.companion.Some? then Normalize(c.companion) else row.companion,
      c.context.GetOr(row.context),
      if c.context.Some? then revisionRead + 1 else row.revision)]))
  }

  function Step(w: World, a: Action): World {
    match a
    case Call(id, change) =>
      if id in w.writers then w else w.(writers := w.writers[id := Writer(change, Called)])
    case Read(id) =>
      if id !in w.writers || !w.writers[id].phase.Called? then w
      else
        var c := w.writers[id].change;
        w.(writers := w.writers[id := Writer(c, ReadRow(w.db, c))])
    case Write(id) =>
      if id !in w.writers || !w.writers[id].phase.HasRead? then w
      else
        var c := w.writers[id].change;
        match WriteRow(w.db, c, w.writers[id].phase.revision)
        case Fail(error) => w.(writers := w.writers[id := Writer(c, Failed(error))])
        case Ok(db) => World(db, w.writers[id := Writer(c, Committed)], w.past + [db], w.log + [c])
  }

  function Run(db: Db, actions: seq<Action>): World {
    if actions == [] then World(db, map[], [db], [])
    else Step(Run(db, actions[..|actions| - 1]), actions[|actions| - 1])
  }

  // ---------------------------------------------------------------- writers that know what they replace

  /** The expected revision is one that some committed row carried. */
  ghost predicate Learnt(past: seq<Db>, c: Change) {
    && c.expected.Some?
    && exists i :: 0 <= i < |past| && c.workspace in past[i].workspaces
                   && past[i].workspaces[c.workspace].revision == c.expected.value
  }

  /** Every call that writes a context passes an expected revision it learnt from a committed row. */
  ghost predicate Informed(db: Db, actions: seq<Action>) {
    actions != [] ==>
    && Informed(db, actions[..|actions| - 1])
    && (var w, a := Run(db, actions[..|actions| - 1]), actions[|actions| - 1];
        a.Call? && a.change.context.Some? ==> Learnt(w.past, a.change))
  }

  ghost predicate RevisionsRise(past: seq<Db>, db: Db) {
    forall i, n {:trigger n in past[i].workspaces} :: 0 <= i < |past| && n in past[i].workspaces ==>
      n in db.workspaces && past[i].workspaces[n].revision <= db.workspaces[n].revision
  }

  /** What a waiting context writer knows: it expects no more than it has read, and has read no more than is stored. */
  ghost predicate WriterKnows(db: Db, writer: Writer) {
    var c := writer.change;
    && (c.context.Some? ==> c.expected.Some? && c.workspace in db.workspaces)
    && (writer.phase.HasRead? ==>
          && c.workspace in db.workspaces
          && (c.companion.Some? ==> Normalize(c.companion) in db.companions)
          && writer.phase.revision <= db.workspaces[c.workspace].revision
          && (c.context.Some? ==> c.expected.value <= writer.phase.revision))
    && (writer.phase.Called? && c.context.Some? ==> c.expected.value <= db.workspaces[c.workspace].revision)
  }

  ghost predicate Known(w: World) {
    && RevisionsRise(w.past, w.db)
    && forall id {:trigger id in w.writers} :: id in w.writers ==> WriterKnows(w.db, w.writers[id])
  }

  /** An informed writer about to commit has read the very revision it expects, so its write is the serial call. */
  lemma WriteIsSerial(db: Db, writer: Writer)
    requires WriterKnows(db, writer) && writer.phase.HasRead?
    ensures WriteRow(db, writer.change, writer.phase.revision) == Serial(db, writer.change)
  {
  }

  lemma CommitKeepsWriter(db: Db, c: Change, other: Writer)
    requires Serial(db, c).Ok? && WriterKnows(db, other)
    ensures WriterKnows(Serial(db, c).db, other)
  {
  }

  lemma CommitKeepsPast(past: seq<Db>, db: Db, c: Change)
    requires Serial(db, c).Ok? && RevisionsRise(past, db)
    ensures RevisionsRise(past + [Serial(db, c).db], Serial(db, c).db)
  {
    var after := Serial(db, c).db;
    var all := past + [after];
    forall i, n | 0 <= i < |all| && n in all[i].workspaces
      ensures n in after.workspaces && all[i].workspaces[n].revision <= after.workspaces[n].revision
    {
      if i < |past| {
        assert n in past[i].workspaces;
      }
    }
  }

  lemma StepKeeps(w: World, a: Action)
    requires Known(w)
    requires a.Call? && a.change.context.Some? ==> Learnt(w.past, a.change)
    ensures Known(Step(w, a))
  {
    if a.Write? && a.writer in w.writers && w.writers[a.writer].phase.HasRead? {
      var c := w.writers[a.writer].change;
      WriteIsSerial(w.db, w.writers[a.writer]);
      if Serial(w.db, c).Ok? {
        CommitKeepsPast(w.past, w.db, c);
        forall id | id in w.writers ensures WriterKnows(Serial(w.db, c).db, w.writers[id]) {
          CommitKeepsWriter(w.db, c, w.writers[id]);
        }
      }
    }
  }

  lemma {:induction false} EveryRunKnows(db: Db, actions: seq<Action>)
    requires Informed(db, actions)
    ensures Known(Run(db, actions))
  {
    if actions != [] {
      EveryRunKnows(db, actions[..|actions| - 1]);
      StepKeeps(Run(db, actions[..|actions| - 1]), actions[|actions| - 1]);
    }
  }

  // ---------------------------------------------------------------- the run is its commits, one after another

  function Replay(db: Db, log: seq<Change>): Outcome {
    if log == [] then Ok(db)
    else
      match Replay(db, log[..|log| - 1])
      case Ok(before) => Serial(before, log[|log| - 1])
      case Fail(error) => Fail(error)
  }

  /**
   Main result. Whatever the interleaving of informed writers, the database is the one the committed calls produce when
   executed one by one in commit order, none of them failing: metadata and context of each go in together or not at all.
   */
  lemma {:induction false} EveryRunIsSerial(db: Db, actions: seq<Action>)
    requires Informed(db, actions)
    ensures Replay(db, Run(db, actions).log) == Ok(Run(db, actions).db)
  {
    if actions != [] {
      var w, a := Run(db, actions[..|actions| - 1]), actions[|actions| - 1];
      EveryRunIsSerial(db, actions[..|actions| - 1]);
      EveryRunKnows(db, actions[..|actions| - 1]);
      if a.Write? && a.writer in w.writers && w.writers[a.writer].phase.HasRead? {
        WriteIsSerial(w.db, w.writers[a.writer]);
        var c := w.writers[a.writer].change;
        assert (w.log + [c])[..|w.log|] == w.log;
      }
    }
  }

  /** The answer a writer gets is the serial call's answer at the moment of its UPDATE. */
  lemma EveryAnswerIsSerial(db: Db, actions: seq<Action>, id: nat)
    requires Informed(db, actions)
    requires id in Run(db, actions).writers && Run(db, actions).writers[id].phase.HasRead?
    ensures var w := Run(db, actions);
            var c, after := w.writers[id].change, Step(w, Write(id));
            match Serial(w.db, c)
            case Ok(stored) => after.db == stored && after.writers[id].phase == Committed
            case Fail(error) => after.db == w.db && after.writers[id].phase == Failed(error)
                                && c.workspace in w.db.workspaces
                                && error == RevisionConflict(
                                     w.db.workspaces[c.workspace].revision, w.db.workspaces[c.workspace].context)
  {
    EveryRunKnows(db, actions);
    WriteIsSerial(Run(db, actions).db, Run(db, actions).writers[id]);
  }

  function ContextWrites(log: seq<Change>, workspace: string): nat {
    if log == [] then 0
    else
      ContextWrites(log[..|log| - 1], workspace)
      + if log[|log| - 1].workspace == workspace && log[|log| - 1].context.Some? then 1 else 0
  }

  lemma {:induction false} RevisionCounts(db: Db, log: seq<Change>, workspace: string)
    requires Replay(db, log).Ok? && workspace in db.workspaces
    ensures workspace in Replay(db, log).db.workspaces
    ensures Replay(db, log).db.workspaces[workspace].revision
         == db.workspaces[workspace].revision + ContextWrites(log, workspace)
  {
    if log != [] {
      RevisionCounts(db, log[..|log| - 1], workspace);
    }
  }

  /** A committed change that expected a revision replaced exactly that one. */
  lemma {:induction false} ExpectedIsReplaced(db: Db, log: seq<Change>, k: nat)
    requires Replay(db, log).Ok? && k < |log|
    requires log[k].expected.Some? && log[k].workspace in db.workspaces
    ensures log[k].expected.value
         == db.workspaces[log[k].workspace].revision + ContextWrites(log[..k], log[k].workspace)
  {
    if k == |log| - 1 {
      RevisionCounts(db, log[..k], log[k].workspace);
    } else {
      var front := log[..|log| - 1];
      ExpectedIsReplaced(db, front, k);
      assert front[..k] == log[..k];
    }
  }

  lemma {:induction false} WritesGrow(log: seq<Change>, i: nat, j: nat)
    requires i < j <= |log| && log[i].context.Some?
    ensures ContextWrites(log[..i], log[i].workspace) < ContextWrites(log[..j], log[i].workspace)
  {
    assert log[..j][..j - 1] == log[..j - 1];
    if j - 1 > i {
      WritesGrow(log, i, j - 1);
    }
  }

  /** A committed context names the revision it replaces, and a workspace that was there from the start. */
  lemma {:induction false} CommitsAreInformed(db: Db, actions: seq<Action>, k: nat)
    requires Informed(db, actions) && k < |Run(db, actions).log|
    ensures var c := Run(db, actions).log[k];
            c.context.Some? ==> c.expected.Some? && c.workspace in db.workspaces
    ensures Run(db, actions).db.workspaces.Keys == db.workspaces.Keys
  {
    WorkspacesStay(db, actions);
    var front := actions[..|actions| - 1];
    EveryRunKnows(db, front);
    WorkspacesStay(db, front);
    if k < |Run(db, front).log| {
      CommitsAreInformed(db, front, k);
    }
  }

  lemma {:induction false} WorkspacesStay(db: Db, actions: seq<Action>)
    ensures Run(db, actions).db.workspaces.Keys == db.workspaces.Keys
  {
    if actions != [] {
      WorkspacesStay(db, actions[..|actions| - 1]);
    }
  }

  /** Over one revision at most one context writer commits, and each commit raises the revision by exactly one. */
  lemma OneWinnerPerRevision(db: Db, actions: seq<Action>, i: nat, j: nat)
    requires Informed(db, actions)
    requires i < j < |Run(db, actions).log|
    requires var log := Run(db, actions).log;
             log[i].workspace == log[j].workspace && log[i].context.Some? && log[j].context.Some?
    ensures var log := Run(db, actions).log;
            log[i].expected.Some? && log[j].expected.Some? && log[i].expected.value < log[j].expected.value
  {
    var log := Run(db, actions).log;
    CommitsAreInformed(db, actions, i);
    CommitsAreInformed(db, actions, j);
    EveryRunIsSerial(db, actions);
    ExpectedIsReplaced(db, log, i);
    ExpectedIsReplaced(db, log, j);
    WritesGrow(log, i, j);
  }

  lemma RevisionIsCommitCount(db: Db, actions: seq<Action>, workspace: string)
    requires Informed(db, actions) && workspace in db.workspaces
    ensures workspace in Run(db, actions).db.workspaces
    ensures Run(db, actions).db.workspaces[workspace].revision
         == db.workspaces[workspace].revision + ContextWrites(Run(db, actions).log, workspace)
  {
    EveryRunIsSerial(db, actions);
    RevisionCounts(db, Run(db, actions).log, workspace);
  }

  // ---------------------------------------------------------------- writers that do not

  /** A call past its read has found the workspace and the companion it names. */
  predicate HasFound(db: Db, writer: Writer) {
    var c := writer.change;
    writer.phase.HasRead? ==>
      c.workspace in db.workspaces && (c.companion.Some? ==> Normalize(c.companion) in db.companions)
  }

  /**
   Informed or not: an UPDATE that writes a context is the serial call, and raises the revision by exactly one, if and
   only if the revision that was read is still the stored one.
   */
  lemma WriteIsSerialIff(db: Db, c: Change, revisionRead: nat)
    requires HasFound(db, Writer(c, HasRead(revisionRead)))
    requires WriteRow(db, c, revisionRead).Ok? && c.context.Some?
    ensures var stored := db.workspaces[c.workspace].revision;
            && (WriteRow(db, c, revisionRead) == Serial(db, c) <==> revisionRead == stored)
            && (WriteRow(db, c, revisionRead).db.workspaces[c.workspace].revision == stored + 1 <==> revisionRead == stored)
  {
    var stored := db.workspaces[c.workspace].revision;
    assert WriteRow(db, c, revisionRead).db.workspaces[c.workspace].revision == revisionRead + 1;
    assert Serial(db, c).db.workspaces[c.workspace].revision == stored + 1;
  }

  /** No commit of a context came between the read and the UPDATE of this action. */
  predicate Untouched(w: World, a: Action) {
    a.Write? && a.writer in w.writers && w.writers[a.writer].phase.HasRead? && w.writers[a.writer].change.context.Some? ==>
      var writer := w.writers[a.writer];
      writer.change.workspace in w.db.workspaces
      && writer.phase.revision == w.db.workspaces[writer.change.workspace].revision
  }

  ghost predicate UntouchedRun(db: Db, actions: seq<Action>) {
    actions != [] ==>
    && UntouchedRun(db, actions[..|actions| - 1])
    && Untouched(Run(db, actions[..|actions| - 1]), actions[|actions| - 1])
  }

  lemma {:induction false} EveryRunHasFound(db: Db, actions: seq<Action>, id: nat)
    requires id in Run(db, actions).writers
    ensures HasFound(Run(db, actions).db, Run(db, actions).writers[id])
  {
    var before := Run(db, actions[..|actions| - 1]);
    if id in before.writers {
      EveryRunHasFound(db, actions[..|actions| - 1], id);
    }
  }

  /** Runs of any writers are serial as long as no context commit comes between a read and its UPDATE. */
  lemma {:induction false} UntouchedRunIsSerial(db: Db, actions: seq<Action>)
    requires UntouchedRun(db, actions)
    ensures Replay(db, Run(db, actions).log) == Ok(Run(db, actions).db)
  {
    if actions != [] {
      var w, a := Run(db, actions[..|actions| - 1]), actions[|actions| - 1];
      UntouchedRunIsSerial(db, actions[..|actions| - 1]);
      if a.Write? && a.writer in w.writers && w.writers[a.writer].phase.HasRead? {
        EveryRunHasFound(db, actions[..|actions| - 1], a.writer);
        var c := w.writers[a.writer].change;
        assert (w.log + [c])[..|w.log|] == w.log;
        assert WriteRow(w.db, c, w.writers[a.writer].phase.revision) == Serial(w.db, c);
      }
    }
  }

  function Interleaved(one: Change, two: Change): seq<Action> {
    [Call(1, one), Call(2, two), Read(1), Read(2), Write(1), Write(2)]
  }

  lemma RunOfSix(db: Db, a: Action, b: Action, c: Action, d: Action, e: Action, f: Action)
    ensures Run(db, [a, b, c, d, e, f])
         == Step(Step(Step(Step(Step(Step(World(db, map[], [db], []), a), b), c), d), e), f)
  {
    assert [a, b, c, d, e, f][..5] == [a, b, c, d, e];
    assert [a, b, c, d, e][..4] == [a, b, c, d];
    assert [a, b, c, d][..3] == [a, b, c];
    assert [a, b, c][..2] == [a, b];
    assert [a, b][..1] == [a];
    assert [a][..0] == [];
    assert Run(db, [a]) == Step(World(db, map[], [db], []), a);
    assert Run(db, [a, b]) == Step(Run(db, [a]), b);
    assert Run(db, [a, b, c]) == Step(Run(db, [a, b]), c);
    assert Run(db, [a, b, c, d]) == Step(Run(db, [a, b, c]), d);
    assert Run(db, [a, b, c, d, e]) == Step(Run(db, [a, b, c, d]), e);
  }

  /** Two writers that name no revision both commit over the same one: two commits, one revision. */
  lemma WithoutExpectedOneIsLost(db: Db, workspace: string, one: string, two: string)
    requires workspace in db.workspaces
    ensures var w := Run(db, Interleaved(Change(workspace, None, None, Some(Some(one)), None),
                                         Change(workspace, None, None, Some(Some(two)), None)));
            && |w.log| == 2
            && workspace in w.db.workspaces
            && w.db.workspaces[workspace].context == Some(two)
            && w.db.workspaces[workspace].revision == db.workspaces[workspace].revision + 1
  {
    var first := Change(workspace, None, None, Some(Some(one)), None);
    var second := Change(workspace, None, None, Some(Some(two)), None);
    RunOfSix(db, Call(1, first), Call(2, second), Read(1), Read(2), Write(1), Write(2));
    var w4 := Step(Step(Step(Step(World(db, map[], [db], []), Call(1, first)), Call(2, second)), Read(1)), Read(2));
    var read := HasRead(db.workspaces[workspace].revision);
    assert w4 == World(db, map[1 := Writer(first, read), 2 := Writer(second, read)], [db], []);
  }

  /** A guessed revision, one ahead of the stored one, also commits without raising it. */
  lemma GuessedExpectedIsNotEnough(db: Db, workspace: string, one: string, two: string)
    requires workspace in db.workspaces
    ensures var now := db.workspaces[workspace].revision;
            var w := Run(db, Interleaved(Change(workspace, None, None, Some(Some(one)), Some(now)),
                                         Change(workspace, None, None, Some(Some(two)), Some(now + 1))));
            |w.log| == 2 && workspace in w.db.workspaces && w.db.workspaces[workspace].revision == now + 1
  {
    var now := db.workspaces[workspace].revision;
    var first := Change(workspace, None, None, Some(Some(one)), Some(now));
    var second := Change(workspace, None, None, Some(Some(two)), Some(now + 1));
    RunOfSix(db, Call(1, first), Call(2, second), Read(1), Read(2), Write(1), Write(2));
    var w4 := Step(Step(Step(Step(World(db, map[], [db], []), Call(1, first)), Call(2, second)), Read(1)), Read(2));
    assert w4 == World(db, map[1 := Writer(first, HasRead(now)), 2 := Writer(second, HasRead(now))], [db], []);
  }
}
