/** What every sequence of repository calls keeps, and how branching relates to truncation. */
module RepositoryInvariant {
  import opened Wrappers
  import opened ChatSchema
  import opened ChatRepository

  ghost predicate Counted(db: Db, session: string)
    requires session in db.sessions
  {
    && db.sessions[session].messageCount == |Of(db.messages, session)|
    && db.sessions[session].totalTokens == Tokens(Of(db.messages, session))
  }

  ghost predicate CountersHold(db: Db) {
    forall s {:trigger s in db.sessions} :: s in db.sessions ==> Counted(db, s)
  }

  ghost predicate LinksHold(db: Db) {
    && (forall m :: m in db.messages ==> m.session in db.sessions)
    && (forall s :: s in db.sessions ==>
          db.sessions[s].workspace.Some? && db.sessions[s].workspace.value in db.workspaces)
    && (forall w :: w in db.workspaces ==> db.workspaces[w].companion in db.companions)
    && DEFAULT in db.workspaces && DEFAULT in db.companions
  }

  /** Counters are exact, every reference resolves, ids ascend. */
  ghost predicate Good(db: Db) {
    CountersHold(db) && LinksHold(db) && IdsAscend(db.messages)
  }

  lemma FirstIsGood()
    ensures Good(FIRST)
  {
  }

  // ---------------------------------------------------------------- how selections change

  lemma AppendOf(messages: seq<Message>, added: seq<Message>, session: string)
    ensures (forall m :: m in added ==> m.session == session) ==>
              |Of(messages + added, session)| == |Of(messages, session)| + |added|
              && Tokens(Of(messages + added, session)) == Tokens(Of(messages, session)) + Tokens(added)
    ensures (forall m :: m in added ==> m.session != session) ==> Of(messages + added, session) == Of(messages, session)
  {
    SelectAppend(InSession(session), messages, added);
    if forall m :: m in added ==> m.session == session {
      SelectAll(InSession(session), added);
      TokensAppend(Of(messages, session), added);
    }
    if forall m :: m in added ==> m.session != session {
      SelectNone(InSession(session), added);
    }
  }

  lemma NextIdAscends(messages: seq<Message>, added: seq<Message>)
    requires IdsAscend(messages)
    requires forall i :: 0 <= i < |added| ==> added[i].id == NextId(messages) + i
    ensures IdsAscend(messages + added)
  {
  }

  /** Removing rows by a condition lowers a session by exactly the rows of that session that meet it. */
  lemma RemoveOf(messages: seq<Message>, w: Where, session: string)
    ensures |Of(messages, session)|
            == |Of(Select(Not(w), messages), session)| + |Select(w, Of(messages, session))|
    ensures Tokens(Of(messages, session))
            == Tokens(Of(Select(Not(w), messages), session)) + Tokens(Select(w, Of(messages, session)))
  {
    var own := InSession(session);
    SelectSplits(w, Of(messages, session));
    SelectTwice(Not(w), own, messages);
    SelectTwice(own, Not(w), messages);
    SelectAgree(Both(Not(w), own), Both(own, Not(w)), messages);
  }

  /** A condition that no row of the session meets leaves the session alone. */
  lemma RemoveElsewhere(messages: seq<Message>, w: Where, session: string)
    requires forall m :: m in messages && m.session == session ==> !Matches(w, m)
    ensures Of(Select(Not(w), messages), session) == Of(messages, session)
  {
    SelectTwice(InSession(session), Not(w), messages);
    SelectAgree(Both(InSession(session), Not(w)), InSession(session), messages);
  }

  // ---------------------------------------------------------------- each call keeps the invariant

  function Appended(db: Db, session: string, row: Session, added: seq<Message>): Db {
    db.(messages := db.messages + added,
        sessions := db.sessions[session := row.(
          messageCount := row.messageCount + |added|, totalTokens := row.totalTokens + Tokens(added))])
  }

  lemma AppendKeeps(db: Db, session: string, row: Session, added: seq<Message>)
    requires Good(db)
    requires forall m :: m in added ==> m.session == session
    requires forall i :: 0 <= i < |added| ==> added[i].id == NextId(db.messages) + i
    requires row.workspace.Some? && row.workspace.value in db.workspaces
    requires row.messageCount == |Of(db.messages, session)| && row.totalTokens == Tokens(Of(db.messages, session))
    ensures Good(Appended(db, session, row, added))
  {
    NextIdAscends(db.messages, added);
    AppendKeepsCounters(db, session, row, added);
    AppendKeepsLinks(db, session, row, added);
  }

  lemma AppendKeepsLinks(db: Db, session: string, row: Session, added: seq<Message>)
    requires LinksHold(db)
    requires forall m :: m in added ==> m.session == session
    requires row.workspace.Some? && row.workspace.value in db.workspaces
    ensures LinksHold(Appended(db, session, row, added))
  {
  }

  lemma AppendKeepsCounters(db: Db, session: string, row: Session, added: seq<Message>)
    requires CountersHold(db)
    requires forall m :: m in added ==> m.session == session
    requires row.messageCount == |Of(db.messages, session)| && row.totalTokens == Tokens(Of(db.messages, session))
    ensures CountersHold(Appended(db, session, row, added))
  {
    forall s | s in Appended(db, session, row, added).sessions
      ensures Counted(Appended(db, session, row, added), s)
    {
      AppendOf(db.messages, added, s);
      if s != session {
        assert Counted(db, s);
      }
    }
  }

  /** A session that is not listed has no messages, so a new one starts from zero. */
  lemma UnknownIsEmpty(db: Db, session: string)
    requires LinksHold(db) && session !in db.sessions
    ensures Of(db.messages, session) == []
  {
    SelectNone(InSession(session), db.messages);
  }

  lemma TargetIsCounted(db: Db, session: string, home: string)
    requires Good(db) && home in db.workspaces && TargetSession(db, session, home).Some?
    ensures var row := TargetSession(db, session, home).value;
            && row.workspace == Some(home)
            && row.messageCount == |Of(db.messages, session)| && row.totalTokens == Tokens(Of(db.messages, session))
  {
    if session in db.sessions { assert Counted(db, session); } else { UnknownIsEmpty(db, session); }
  }

  lemma SaveMessageAppends(db: Db, session: string, body: Body, workspace: Option<string>)
    requires SaveMessage(db, session, body, workspace).Ok?
    ensures SaveMessage(db, session, body, workspace).db
            == Appended(db, session, TargetSession(db, session, Normalize(workspace)).value,
                        [Message(NextId(db.messages), session, None, body)])
  {
    var m := Message(NextId(db.messages), session, None, body);
    TokensOfFew(m, m);
  }

  lemma SaveMessageKeeps(db: Db, session: string, body: Body, workspace: Option<string>)
    requires Good(db) && SaveMessage(db, session, body, workspace).Ok?
    ensures Good(SaveMessage(db, session, body, workspace).db)
  {
    SaveMessageAppends(db, session, body, workspace);
    TargetIsCounted(db, session, Normalize(workspace));
    AppendKeeps(db, session, TargetSession(db, session, Normalize(workspace)).value,
                [Message(NextId(db.messages), session, None, body)]);
  }

  lemma SavePairAppends(
    db: Db, session: string, asked: Body, answered: Body, workspace: Option<string>, turnKey: Option<string>)
    requires asked.tokens == 0 && answered.tokens == 0
    requires SavePair(db, session, asked, answered, workspace, turnKey).Ok?
    ensures var after := SavePair(db, session, asked, answered, workspace, turnKey).db;
            after == db
            || (TargetSession(db, session, Normalize(workspace)).Some?
                && after == Appended(db, session, TargetSession(db, session, Normalize(workspace)).value,
                                     PairRows(NextId(db.messages), session, turnKey, asked, answered)))
  {
    var added := PairRows(NextId(db.messages), session, turnKey, asked, answered);
    TokensOfFew(added[0], added[1]);
  }

  lemma SavePairKeeps(
    db: Db, session: string, asked: Body, answered: Body, workspace: Option<string>, turnKey: Option<string>)
    requires Good(db) && asked.tokens == 0 && answered.tokens == 0
    requires SavePair(db, session, asked, answered, workspace, turnKey).Ok?
    ensures Good(SavePair(db, session, asked, answered, workspace, turnKey).db)
  {
    hide Select, Tokens, LookupPair, Good, Appended;
    SavePairAppends(db, session, asked, answered, workspace, turnKey);
    if SavePair(db, session, asked, answered, workspace, turnKey).db != db {
      TargetIsCounted(db, session, Normalize(workspace));
      AppendKeeps(db, session, TargetSession(db, session, Normalize(workspace)).value,
                  PairRows(NextId(db.messages), session, turnKey, asked, answered));
    }
  }

  /** Rows of one session go, and its counters drop by just as much: the clamp at zero never bites. */
  lemma RemoveKeeps(db: Db, w: Where, session: string)
    requires Good(db) && session in db.sessions
    requires forall m :: m in db.messages && Matches(w, m) ==> m.session == session
    ensures var gone, row := Select(w, db.messages), db.sessions[session];
            && row.messageCount - |gone| >= 0 && row.totalTokens - Tokens(gone) >= 0
            && Good(db.(messages := Select(Not(w), db.messages),
                        sessions := Lower(db.sessions, session, |gone|, Tokens(gone))))
  {
    var gone := Select(w, db.messages);
    var after := db.(messages := Select(Not(w), db.messages),
                     sessions := Lower(db.sessions, session, |gone|, Tokens(gone)));
    assert Counted(db, session);
    RemoveOf(db.messages, w, session);
    SelectTwice(w, InSession(session), db.messages);
    SelectAgree(Both(w, InSession(session)), w, db.messages);
    SelectAscends(Not(w), db.messages);
    forall s | s in after.sessions ensures Counted(after, s) {
      if s != session {
        assert Counted(db, s);
        RemoveElsewhere(db.messages, w, s);
      }
    }
  }

  lemma {:induction false} OneRowHasId(messages: seq<Message>, id: nat)
    requires IdsAscend(messages) && Find(messages, id).Some?
    ensures Select(HasId(id), messages) == [Find(messages, id).value]
  {
    var front, last := messages[..|messages| - 1], messages[|messages| - 1];
    if last.id == id {
      SelectNone(HasId(id), front);
    } else {
      OneRowHasId(front, id);
    }
  }

  lemma DeleteMessageKeeps(db: Db, id: nat, workspace: Option<string>)
    requires Good(db) && DeleteMessage(db, id, workspace).Ok?
    ensures Good(DeleteMessage(db, id, workspace).db)
    ensures var m := FindIn(db, id, workspace).value;
            var row := db.sessions[m.session];
            row.messageCount >= 1 && row.totalTokens >= m.body.tokens
  {
    var m := FindIn(db, id, workspace).value;
    OneRowHasId(db.messages, id);
    TokensOfFew(m, m);
    forall other | other in db.messages && Matches(HasId(id), other) ensures other.session == m.session {
      assert other in Select(HasId(id), db.messages);
    }
    RemoveKeeps(db, HasId(id), m.session);
  }

  lemma DeleteAfterKeeps(db: Db, id: nat, workspace: Option<string>)
    requires Good(db) && DeleteMessagesAfter(db, id, workspace).Ok?
    ensures Good(DeleteMessagesAfter(db, id, workspace).db)
    ensures var m := FindIn(db, id, workspace).value;
            var row, trailing := db.sessions[m.session], Select(Later(m.session, id), db.messages);
            row.messageCount >= |trailing| && row.totalTokens >= Tokens(trailing)
  {
    var m := FindIn(db, id, workspace).value;
    RemoveKeeps(db, Later(m.session, id), m.session);
  }

  lemma ClearKeeps(db: Db, session: string, workspace: Option<string>)
    requires Good(db) && ClearSession(db, session, workspace).Ok?
    ensures Good(ClearSession(db, session, workspace).db)
  {
    assert Counted(db, session);
    RemoveKeeps(db, InSession(session), session);
  }

  lemma DeleteSessionKeeps(db: Db, session: string, workspace: Option<string>)
    requires Good(db) && DeleteSession(db, session, workspace).Ok?
    ensures Good(DeleteSession(db, session, workspace).db)
  {
    var after := DeleteSession(db, session, workspace).db;
    SelectAscends(Not(InSession(session)), db.messages);
    forall s | s in after.sessions ensures Counted(after, s) {
      assert Counted(db, s);
      RemoveElsewhere(db.messages, InSession(session), s);
    }
  }

  lemma {:induction false} CopiesWeighTheSame(source: seq<Message>, session: string, next: nat)
    ensures Tokens(Copies(source, session, next)) == Tokens(source)
  {
    if source != [] {
      CopiesWeighTheSame(source[..|source| - 1], session, next);
      var copies := Copies(source, session, next);
      assert copies[..|source| - 1] == Copies(source[..|source| - 1], session, next);
    }
  }

  lemma BranchKeeps(db: Db, source: string, id: nat, workspace: Option<string>, session: string)
    requires Good(db) && Branch(db, source, id, workspace, session).Ok?
    ensures Good(Branch(db, source, id, workspace, session).db)
  {
    var home := Normalize(db.sessions[source].workspace);
    var copied := Select(Both(InSession(source), Not(Later(source, id))), db.messages);
    var next := NextId(db.messages);
    UnknownIsEmpty(db, session);
    CopiesWeighTheSame(copied, session, next);
    AppendKeeps(db, session, Session(Some(home), Some(source), Some(id), 0, 0), Copies(copied, session, next));
  }

  /** Changes that leave messages and counters alone keep the counters exact. */
  lemma SameCounters(db: Db, after: Db)
    requires Good(db) && after.messages == db.messages && LinksHold(after)
    requires after.sessions.Keys == db.sessions.Keys
    requires forall s {:trigger s in db.sessions} :: s in db.sessions ==>
      after.sessions[s].messageCount == db.sessions[s].messageCount
      && after.sessions[s].totalTokens == db.sessions[s].totalTokens
    ensures Good(after)
  {
    forall s | s in after.sessions ensures Counted(after, s) {
      assert s in db.sessions && Counted(db, s);
    }
  }

  lemma CreateSessionKeeps(db: Db, workspace: Option<string>, session: string)
    requires Good(db) && CreateSession(db, workspace, session).Ok?
    ensures Good(CreateSession(db, workspace, session).db)
  {
    var after := CreateSession(db, workspace, session).db;
    UnknownIsEmpty(db, session);
    forall s | s in after.sessions ensures Counted(after, s) {
      if s != session { assert Counted(db, s); }
    }
  }

  lemma CallKeeps(db: Db, call: Call)
    requires Good(db)
    ensures Good(After(db, call))
  {
    var after := After(db, call);
    if Execute(db, call).Ok? {
      match call
      case CallSaveMessage(session, body, workspace) => SaveMessageKeeps(db, session, body, workspace);
      case CallSavePair(session, user, assistant, stamp, workspace, key) =>
        SavePairKeeps(db, session, TurnBody(User, user, stamp), TurnBody(Assistant, assistant, stamp), workspace, key);
      case CallDeleteMessage(id, workspace) => DeleteMessageKeeps(db, id, workspace);
      case CallDeleteAfter(id, workspace) => DeleteAfterKeeps(db, id, workspace);
      case CallClear(session, workspace) => ClearKeeps(db, session, workspace);
      case CallDeleteSession(session, workspace) => DeleteSessionKeeps(db, session, workspace);
      case CallBranch(session, id, workspace, drawn) => BranchKeeps(db, session, id, workspace, drawn);
      case CallCreateSession(workspace, drawn) => CreateSessionKeeps(db, workspace, drawn);
      case CallCreateWorkspace(_, _) => SameCounters(db, after);
      case CallUpdateWorkspace(_, _, _, _) => SameCounters(db, after);
      case CallImportContext(_, _, _) => SameCounters(db, after);
      case CallDeleteWorkspace(_, _) => SameCounters(db, after);
      case CallCreateCompanion(_) => SameCounters(db, after);
      case CallDeleteCompanion(_) => SameCounters(db, after);
    }
  }

  /**
   Main result. After every sequence of calls the counters of every session equal the count and token sum of its
   messages, every message has its session, every session its workspace, every workspace its companion.
   */
  lemma {:induction false} EveryRunKeeps(db: Db, calls: seq<Call>)
    requires Good(db)
    ensures Good(RunCalls(db, calls))
  {
    if calls != [] {
      EveryRunKeeps(db, calls[..|calls| - 1]);
      CallKeeps(RunCalls(db, calls[..|calls| - 1]), calls[|calls| - 1]);
    }
  }
}
