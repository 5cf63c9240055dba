/**
 Concurrent calls that save a question and its answer under one turn key. Each call takes four database steps (look
 for the pair, read the session row, insert, and reload after a refused insert), and the steps of different calls
 interleave freely. A refused insert is one that breaks a unique index; it rolls back whole.
 */
module PairInsert {
  import opened Wrappers
  import opened ChatSchema
  import opened ChatRepository
  import Branching
  import RepositoryInvariant

  datatype Request = Request(session: string, home: string, key: Option<string>, asked: Body, answered: Body)

  datatype Phase =
    | Start
    | Checked
    | Staged(row: Session, created: bool)
    | Refused
    | Answered(user: Message, assistant: Message)
    | Raised(error: Error)

  datatype World = World(db: Db, phases: seq<Phase>)

  /** Rows without a turn key are outside the unique index. */
  predicate Taken(db: Db, r: Request, role: Role) {
    r.key.Some? && exists m :: m in db.messages && m.session == r.session && m.turnKey == r.key && m.body.role == role
  }

  predicate BreaksIndex(db: Db, r: Request, created: bool) {
    || Taken(db, r, r.asked.role)
    || Taken(db, r, r.answered.role)
    || (created && r.session in db.sessions)
  }

  function Check(db: Db, r: Request): Phase {
    if r.home !in db.workspaces then Raised(WorkspaceNotFound)
    else if r.key.None? then Checked
    else
      match LookupPair(db, r.key.value, r.home)
      case Pair(user, assistant) => Answered(user, assistant)
      case Partial => Raised(IncompletePair)
      case NoPair => Checked
  }

  function ReadSession(db: Db, r: Request): Phase {
    var row := TargetSession(db, r.session, r.home);
    if row.None? then Raised(WorkspaceMismatch) else Staged(row.value, r.session !in db.sessions)
  }

  /** The row written is the one read earlier, two messages longer. */
  function Inserted(db: Db, r: Request, row: Session): Db {
    db.(messages := db.messages + PairRows(NextId(db.messages), r.session, r.key, r.asked, r.answered),
        sessions := db.sessions[r.session := row.(messageCount := row.messageCount + 2)])
  }

  function Reload(db: Db, r: Request): Phase {
    if r.key.None? then Raised(IntegrityFailure)
    else
      match LookupPair(db, r.key.value, r.home)
      case Pair(user, assistant) => Answered(user, assistant)
      case Partial => Raised(IncompletePair)
      case NoPair => Raised(IntegrityFailure)
  }

  function Advance(db: Db, r: Request, phase: Phase): (Db, Phase) {
    match phase
    case Start => (db, Check(db, r))
    case Checked => (db, ReadSession(db, r))
    case Staged(row, created) =>
      if BreaksIndex(db, r, created) then (db, Refused)
      else
        var added := PairRows(NextId(db.messages), r.session, r.key, r.asked, r.answered);
        (Inserted(db, r, row), Answered(added[0], added[1]))
    case Refused => (db, Reload(db, r))
    case Answered(_, _) => (db, phase)
    case Raised(_) => (db, phase)
  }

  function Step(requests: seq<Request>, w: World, i: nat): (w': World)
    requires |w.phases| == |requests|
    ensures |w'.phases| == |requests|
  {
    if i >= |requests| then w
    else
      var (db, phase) := Advance(w.db, requests[i], w.phases[i]);
      World(db, w.phases[i := phase])
  }

  function Begin(db: Db, requests: seq<Request>): World {
    World(db, seq(|requests|, _ => Start))
  }

  /** `schedule` names, step by step, the call that moves. */
  function Run(db: Db, requests: seq<Request>, schedule: seq<nat>): (w: World)
    ensures |w.phases| == |requests|
  {
    if schedule == [] then Begin(db, requests)
    else Step(requests, Run(db, requests, schedule[..|schedule| - 1]), schedule[|schedule| - 1])
  }

  // ---------------------------------------------------------------- alone, it is the serial call

  function Alone(db: Db, r: Request, phase: Phase, steps: nat): (Db, Phase)
    decreases steps
  {
    if steps == 0 then (db, phase)
    else
      var (db', phase') := Advance(db, r, phase);
      Alone(db', r, phase', steps - 1)
  }

  ghost predicate AsSerial(outcome: Outcome, before: Db, after: Db, phase: Phase) {
    match outcome
    case Ok(db) => phase.Answered? && after == db
    case Fail(error) => phase == Raised(error) && after == before
  }

  /** The pair rows of a key live in the workspace that owns their session, as saving leaves them. */
  ghost predicate IndexAgrees(db: Db, r: Request) {
    r.key.Some? ==>
      forall m {:trigger m in db.messages} ::
        m in db.messages && m.session == r.session && m.turnKey == r.key ==>
          InTurn(db.sessions, m, r.key.value, r.home)
  }

  lemma {:induction false} NoTurnRows(
    sessions: map<string, Session>, messages: seq<Message>, key: string, home: string, m: Message)
    requires TurnMessages(sessions, messages, key, home) == []
    ensures !(m in messages && InTurn(sessions, m, key, home))
  {
    if messages != [] {
      NoTurnRows(sessions, messages[..|messages| - 1], key, home, m);
    }
  }

  lemma FourSteps(db: Db, r: Request)
    ensures var p1 := Advance(db, r, Start);
            var p2 := Advance(p1.0, r, p1.1);
            var p3 := Advance(p2.0, r, p2.1);
            Alone(db, r, Start, 4) == Advance(p3.0, r, p3.1)
  {
    var p1 := Advance(db, r, Start);
    var p2 := Advance(p1.0, r, p1.1);
    var p3 := Advance(p2.0, r, p2.1);
    var p4 := Advance(p3.0, r, p3.1);
    assert Alone(p4.0, r, p4.1, 0) == p4;
    assert Alone(p3.0, r, p3.1, 1) == p4;
    assert Alone(p2.0, r, p2.1, 2) == p4;
    assert Alone(p1.0, r, p1.1, 3) == p4;
  }

  /** With nobody interleaving, the four steps are the repository's serial call. */
  lemma AloneIsSerial(db: Db, r: Request)
    requires r.home != "" && IndexAgrees(db, r)
    ensures var (after, phase) := Alone(db, r, Start, 4);
            AsSerial(SavePair(db, r.session, r.asked, r.answered, Some(r.home), r.key), db, after, phase)
  {
    FourSteps(db, r);
    if r.key.Some? && LookupPair(db, r.key.value, r.home) == NoPair {
      forall m | m in db.messages ensures !(m.session == r.session && m.turnKey == r.key) {
        NoTurnRows(db.sessions, db.messages, r.key.value, r.home, m);
      }
    }
  }

  // ---------------------------------------------------------------- one pair for every caller

  predicate SameTurn(requests: seq<Request>, session: string, home: string, key: string) {
    home != "" &&
    forall i :: 0 <= i < |requests| ==>
      && requests[i].session == session
      && requests[i].home == home
      && requests[i].key == Some(key)
      && requests[i].asked.role == User
      && requests[i].answered.role == Assistant
  }

  /** Before the calls: nothing stored under the key, and a session the workspace may write to. */
  predicate Unused(db: Db, session: string, home: string, key: string) {
    && home in db.workspaces
    && TargetSession(db, session, home).Some?
    && LookupPair(db, key, home) == NoPair
    && forall m :: m in db.messages ==> !(m.session == session && m.turnKey == Some(key))
  }

  function Stored(db: Db, r: Request): Db
    requires TargetSession(db, r.session, r.home).Some?
  {
    Inserted(db, r, TargetSession(db, r.session, r.home).value)
  }

  function Rows(db: Db, r: Request): seq<Message> {
    PairRows(NextId(db.messages), r.session, r.key, r.asked, r.answered)
  }

  predicate Waiting(db: Db, session: string, home: string, phase: Phase) {
    || phase.Start?
    || phase.Checked?
    || phase == Staged(TargetSession(db, session, home).GetOr(Session(None, None, None, 0, 0)), session !in db.sessions)
  }

  predicate Following(rows: seq<Message>, phase: Phase)
    requires |rows| == 2
  {
    phase.Start? || phase.Checked? || phase.Staged? || phase.Refused? || phase == Answered(rows[0], rows[1])
  }

  ghost predicate NobodyYet(db: Db, requests: seq<Request>, w: World, session: string, home: string) {
    w.db == db && forall i :: 0 <= i < |w.phases| ==> Waiting(db, session, home, w.phases[i])
  }

  ghost predicate WonBy(db: Db, requests: seq<Request>, w: World, winner: nat)
    requires winner < |requests| && TargetSession(db, requests[winner].session, requests[winner].home).Some?
  {
    && w.db == Stored(db, requests[winner])
    && winner < |w.phases|
    && w.phases[winner].Answered?
    && forall i :: 0 <= i < |w.phases| ==> Following(Rows(db, requests[winner]), w.phases[i])
  }

  lemma StoredIsSaved(db: Db, r: Request, key: string)
    requires r.home != "" && r.key == Some(key) && Unused(db, r.session, r.home, key)
    ensures SavePair(db, r.session, r.asked, r.answered, Some(r.home), r.key) == Ok(Stored(db, r))
  {
    hide LookupPair;
  }

  lemma StoredFacts(db: Db, r: Request, key: string)
    requires r.home != "" && r.key == Some(key) && Unused(db, r.session, r.home, key)
    requires r.asked.role == User && r.answered.role == Assistant
    ensures var after, rows := Stored(db, r), Rows(db, r);
            && r.home in after.workspaces
            && LookupPair(after, key, r.home) == Pair(rows[0], rows[1])
            && TargetSession(after, r.session, r.home).Some?
            && rows[0] in after.messages
  {
    hide LookupPair, SavePair;
    StoredIsSaved(db, r, key);
    Branching.SavedPairIsFound(db, r.session, r.asked, r.answered, Some(r.home), key);
    assert Stored(db, r).messages == db.messages + Rows(db, r);
  }

  /** The first insert wins; until then no call has seen or changed anything. */
  lemma FirstMove(
    db: Db, requests: seq<Request>, w: World, i: nat, session: string, home: string, key: string)
    requires SameTurn(requests, session, home, key) && Unused(db, session, home, key)
    requires i < |requests| == |w.phases| && NobodyYet(db, requests, w, session, home)
    ensures var w' := Step(requests, w, i);
            if w.phases[i].Staged? then WonBy(db, requests, w', i) else NobodyYet(db, requests, w', session, home)
  {
    assert Waiting(db, session, home, w.phases[i]);
  }

  /** Once a pair is stored, every later insert is refused and every reload finds that pair. */
  lemma LaterMove(
    db: Db, requests: seq<Request>, w: World, winner: nat, i: nat, session: string, home: string, key: string)
    requires SameTurn(requests, session, home, key) && Unused(db, session, home, key)
    requires winner < |requests| && i < |requests| == |w.phases| && WonBy(db, requests, w, winner)
    ensures WonBy(db, requests, Step(requests, w, i), winner)
  {
    var r := requests[winner];
    StoredFacts(db, r, key);
    assert Following(Rows(db, r), w.phases[i]);
    assert requests[i].session == session && requests[i].key == Some(key) && requests[i].asked.role == User;
    assert Taken(w.db, requests[i], User);
  }

  /** The winner of a run, if there is one yet. */
  lemma {:induction false} WhoWon(
    db: Db, requests: seq<Request>, schedule: seq<nat>, session: string, home: string, key: string)
    returns (winner: Option<nat>)
    requires SameTurn(requests, session, home, key) && Unused(db, session, home, key)
    ensures winner.None? ==> NobodyYet(db, requests, Run(db, requests, schedule), session, home)
    ensures winner.Some? ==> winner.value < |requests| && WonBy(db, requests, Run(db, requests, schedule), winner.value)
  {
    if schedule == [] {
      return None;
    }
    var before, i := Run(db, requests, schedule[..|schedule| - 1]), schedule[|schedule| - 1];
    winner := WhoWon(db, requests, schedule[..|schedule| - 1], session, home, key);
    if i < |requests| {
      if winner.Some? {
        LaterMove(db, requests, before, winner.value, i, session, home, key);
      } else {
        FirstMove(db, requests, before, i, session, home, key);
        winner := if before.phases[i].Staged? then Some(i) else None;
      }
    }
  }

  /**
   Whatever the interleaving: no call fails; nothing is stored unless some call has its answer; and then exactly one
   pair has been added, the session counts two messages more, and every answered call holds that very pair.
   */
  lemma OnePairForEveryCaller(
    db: Db, requests: seq<Request>, schedule: seq<nat>, session: string, home: string, key: string)
    requires SameTurn(requests, session, home, key) && Unused(db, session, home, key)
    ensures var w := Run(db, requests, schedule);
            && (forall i :: 0 <= i < |requests| ==> !w.phases[i].Raised?)
            && ((forall i :: 0 <= i < |requests| ==> !w.phases[i].Answered?) ==>
                  w.db == db)
            && (forall i {:trigger w.phases[i]} :: 0 <= i < |requests| && w.phases[i].Answered? ==>
                  && w.db.messages == db.messages + [w.phases[i].user, w.phases[i].assistant]
                  && session in w.db.sessions
                  && w.db.sessions[session].messageCount
                     == (if session in db.sessions then db.sessions[session].messageCount else 0) + 2
                  && w.db.sessions - {session} == db.sessions - {session}
                  && LookupPair(w.db, key, home) == Pair(w.phases[i].user, w.phases[i].assistant))
  {
    var w := Run(db, requests, schedule);
    var winner := WhoWon(db, requests, schedule, session, home, key);
    if winner.Some? {
      StoredFacts(db, requests[winner.value], key);
      assert w.db.sessions - {session} == db.sessions - {session};
      forall i | 0 <= i < |requests| ensures Following(Rows(db, requests[winner.value]), w.phases[i]) {}
    } else {
      forall i | 0 <= i < |requests| ensures Waiting(db, session, home, w.phases[i]) {}
    }
  }

  // ---------------------------------------------------------------- every caller is answered

  function Rank(phase: Phase): nat {
    match phase
    case Start => 4
    case Checked => 3
    case Staged(_, _) => 2
    case Refused => 1
    case Answered(_, _) => 0
    case Raised(_) => 0
  }

  function Turns(schedule: seq<nat>, i: nat): nat {
    if schedule == [] then 0
    else Turns(schedule[..|schedule| - 1], i) + if schedule[|schedule| - 1] == i then 1 else 0
  }

  lemma {:induction false} RankFalls(db: Db, requests: seq<Request>, schedule: seq<nat>, i: nat)
    requires i < |requests|
    ensures Rank(Run(db, requests, schedule).phases[i]) + Turns(schedule, i) <= 4
         || Rank(Run(db, requests, schedule).phases[i]) == 0
  {
    if schedule != [] {
      RankFalls(db, requests, schedule[..|schedule| - 1], i);
    }
  }

  /** A call that has been given four steps has its answer, however the others were scheduled. */
  lemma FourStepsAnswer(
    db: Db, requests: seq<Request>, schedule: seq<nat>, session: string, home: string, key: string, i: nat)
    requires SameTurn(requests, session, home, key) && Unused(db, session, home, key)
    requires i < |requests| && Turns(schedule, i) >= 4
    ensures Run(db, requests, schedule).phases[i].Answered?
  {
    RankFalls(db, requests, schedule, i);
    OnePairForEveryCaller(db, requests, schedule, session, home, key);
    assert !Run(db, requests, schedule).phases[i].Raised?;
  }

  // ---------------------------------------------------------------- where the index does not reach

  /**
   The index is per session while the lookup is per workspace: two interleaved calls with one key but different
   sessions both store their pair.
   */
  lemma TwoSessionsStoreTwoPairs(db: Db, one: Request, two: Request, key: string)
    requires SameTurn([one], one.session, one.home, key) && SameTurn([two], two.session, one.home, key)
    requires Unused(db, one.session, one.home, key) && Unused(db, two.session, one.home, key)
    requires one.session != two.session
    ensures Run(db, [one, two], [0, 1, 0, 1, 0, 1]).db.messages
         == db.messages + Rows(db, one) + Rows(Stored(db, one), two)
  {
    var reqs := [one, two];
    assert [one][0] == one && [two][0] == two;
    var w0 := Begin(db, reqs);
    var w2 := Step(reqs, Step(reqs, w0, 0), 1);
    assert w2.db == db && w2.phases == [Checked, Checked];
    var w4 := Step(reqs, Step(reqs, w2, 0), 1);
    assert w4.db == db && w4.phases[0] == ReadSession(db, one) && w4.phases[1] == ReadSession(db, two);
    var w5 := Step(reqs, w4, 0);
    assert w5.db == Stored(db, one);
    var w6 := Step(reqs, w5, 1);
    SecondInsertBreaksIff(db, one, two, key);
    assert w6.db == Inserted(w5.db, two, TargetSession(db, two.session, two.home).value);
    RunOfSix(db, reqs, 0, 1, 0, 1, 0, 1);
  }

  /** After one call has stored its pair, a second call that checked before is stopped exactly in the same session. */
  lemma SecondInsertBreaksIff(db: Db, one: Request, two: Request, key: string)
    requires one.key == Some(key) == two.key && one.asked.role == two.asked.role == User
    requires Unused(db, one.session, one.home, key) && Unused(db, two.session, two.home, key)
    ensures BreaksIndex(Stored(db, one), two, two.session !in db.sessions) <==> one.session == two.session
  {
    var rows, after := Rows(db, one), Stored(db, one);
    assert rows[0] in after.messages;
    if one.session != two.session {
      forall m | m in after.messages ensures !(m.session == two.session && m.turnKey == two.key) {
        assert m in db.messages || m in rows;
      }
    }
  }

  lemma RunOfSix(db: Db, requests: seq<Request>, a: nat, b: nat, c: nat, d: nat, e: nat, f: nat)
    ensures Run(db, requests, [a, b, c, d, e, f])
         == Step(requests, Step(requests, Step(requests, Step(requests,
              Step(requests, Step(requests, Begin(db, requests), a), b), c), d), e), f)
  {
    assert [a, b, c, d, e, f][..5] == [a, b, c, d, e];
    assert [a, b, c, d, e][..4] == [a, b, c, d];
    assert [a, b, c, d][..3] == [a, b, c];
    assert [a, b, c][..2] == [a, b];
    assert [a, b][..1] == [a];
    assert [a][..0] == [];
    assert Run(db, requests, [a]) == Step(requests, Begin(db, requests), a);
    assert Run(db, requests, [a, b]) == Step(requests, Run(db, requests, [a]), b);
    assert Run(db, requests, [a, b, c]) == Step(requests, Run(db, requests, [a, b]), c);
    assert Run(db, requests, [a, b, c, d]) == Step(requests, Run(db, requests, [a, b, c]), d);
    assert Run(db, requests, [a, b, c, d, e]) == Step(requests, Run(db, requests, [a, b, c, d]), e);
  }

  // ---------------------------------------------------------------- two turns of one session

  /** The insert writes the row that was read: the counter is right after it exactly when it was right for that row. */
  lemma InsertCountsIff(db: Db, r: Request, row: Session)
    ensures var after := Inserted(db, r, row);
            after.sessions[r.session].messageCount == |Of(after.messages, r.session)|
            <==> row.messageCount == |Of(db.messages, r.session)|
  {
    RepositoryInvariant.AppendOf(db.messages, Rows(db, r), r.session);
  }

  ghost predicate TwoTurns(db: Db, one: Request, two: Request) {
    && one.session == two.session && one.home == two.home == Normalize(Some(one.home))
    && one.key.Some? && two.key.Some? && one.key != two.key
    && Unused(db, one.session, one.home, one.key.value) && Unused(db, two.session, two.home, two.key.value)
  }

  /** The second insert of two overlapping calls for different turns is refused exactly when the session was new. */
  lemma OtherTurnBreaksIff(db: Db, one: Request, two: Request)
    requires TwoTurns(db, one, two)
    ensures BreaksIndex(Stored(db, one), two, two.session !in db.sessions) <==> one.session !in db.sessions
  {
    forall m | m in Stored(db, one).messages ensures !(m.session == two.session && m.turnKey == two.key) {
      assert m in db.messages || m in Rows(db, one);
    }
  }

  function Interleaved(): seq<nat> {
    [0, 1, 0, 1, 0, 1]
  }

  lemma BothStage(db: Db, one: Request, two: Request)
    requires TwoTurns(db, one, two)
    ensures var reqs := [one, two];
            var w := Step(reqs, Step(reqs, Step(reqs, Step(reqs, Begin(db, reqs), 0), 1), 0), 1);
            w == World(db, [ReadSession(db, one), ReadSession(db, two)])
            && w.phases[0].Staged? && w.phases[1].Staged?
  {
    hide LookupPair;
    var reqs := [one, two];
    var w2 := Step(reqs, Step(reqs, Begin(db, reqs), 0), 1);
    assert w2 == World(db, [Checked, Checked]);
    var w4 := Step(reqs, Step(reqs, w2, 0), 1);
    assert w4.phases == [ReadSession(db, one), ReadSession(db, two)];
  }

  /** Storing the pair of one turn leaves another turn without rows. */
  lemma OtherTurnStaysEmpty(db: Db, one: Request, two: Request)
    requires TwoTurns(db, one, two)
    ensures LookupPair(Stored(db, one), two.key.value, two.home) == NoPair
  {
    var after, rows, key := Stored(db, one), Rows(db, one), two.key.value;
    Branching.TurnAppend(after.sessions, db.messages, rows, key, two.home);
    Branching.TurnAgree(after.sessions, db.sessions, db.messages, key, two.home);
    assert rows[..1] == [rows[0]] && [rows[0]][..0] == [];
    assert TurnMessages(after.sessions, [rows[0]], key, two.home) == [];
  }

  /**
   In a known session both calls store their pair, and the counter rises by two for the four messages. In a new session
   the second call is refused and then fails, for no pair is found under its own key.
   */
  lemma OverlappingTurns(db: Db, one: Request, two: Request)
    requires TwoTurns(db, one, two)
    ensures var w := Run(db, [one, two], Interleaved());
            if one.session in db.sessions then
              && w.db.messages == db.messages + Rows(db, one) + Rows(Stored(db, one), two)
              && one.session in w.db.sessions
              && w.db.sessions[one.session].messageCount == db.sessions[one.session].messageCount + 2
            else
              && w.db == Stored(db, one) && w.phases[1] == Refused
              && Advance(w.db, two, Refused) == (w.db, Raised(IntegrityFailure))
  {
    hide LookupPair, BreaksIndex;
    var reqs := [one, two];
    BothStage(db, one, two);
    RunOfSix(db, reqs, 0, 1, 0, 1, 0, 1);
    FirstInsertPasses(db, one);
    OtherTurnBreaksIff(db, one, two);
    OtherTurnStaysEmpty(db, one, two);
    var w4 := World(db, [ReadSession(db, one), ReadSession(db, two)]);
    var w5 := Step(reqs, w4, 0);
    assert w5.db == Stored(db, one) && w5.phases[1] == w4.phases[1];
  }

  lemma FirstInsertPasses(db: Db, r: Request)
    requires r.key.Some? && Unused(db, r.session, r.home, r.key.value)
    ensures !BreaksIndex(db, r, r.session !in db.sessions)
  {
  }
}
