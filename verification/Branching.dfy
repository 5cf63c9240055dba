/** Branching against truncation, and the idempotent turn key, on every good database. */
module Branching {
  import opened Wrappers
  import opened ChatSchema
  import opened ChatRepository
  import opened RepositoryInvariant

  lemma {:induction false} TurnAppend(
    sessions: map<string, Session>, a: seq<Message>, b: seq<Message>, key: string, workspace: string)
    ensures TurnMessages(sessions, a + b, key, workspace)
            == TurnMessages(sessions, a, key, workspace) + TurnMessages(sessions, b, key, workspace)
  {
    if b == [] {
      assert a + b == a;
    } else {
      var front, last := b[..|b| - 1], b[|b| - 1];
      TurnAppend(sessions, a, front, key, workspace);
      assert (a + b)[..|a + b| - 1] == a + front;
    }
  }

  lemma {:induction false} TurnAgree(
    sessions: map<string, Session>, other: map<string, Session>, messages: seq<Message>, key: string, workspace: string)
    requires forall m :: m in messages ==>
      (InTurn(sessions, m, key, workspace) <==> InTurn(other, m, key, workspace))
    ensures TurnMessages(sessions, messages, key, workspace) == TurnMessages(other, messages, key, workspace)
  {
    if messages != [] {
      TurnAgree(sessions, other, messages[..|messages| - 1], key, workspace);
    }
  }

  lemma {:induction false} TurnNone(sessions: map<string, Session>, messages: seq<Message>, key: string, workspace: string)
    requires forall m :: m in messages ==> m.turnKey.None?
    ensures TurnMessages(sessions, messages, key, workspace) == []
  {
    if messages != [] {
      TurnNone(sessions, messages[..|messages| - 1], key, workspace);
    }
  }

  /** Messages at or before `id` are what both operations keep of the source. */
  lemma KeptBySource(db: Db, source: string, id: nat)
    ensures Of(Select(Not(Later(source, id)), db.messages), source)
            == Select(Both(InSession(source), Not(Later(source, id))), db.messages)
  {
    SelectTwice(InSession(source), Not(Later(source, id)), db.messages);
  }

  /** Truncation keeps exactly those rows of the source, and counts them. */
  lemma TruncatedSource(db: Db, m: Message)
    requires Good(db) && Find(db.messages, m.id) == Some(m)
    ensures var kept := Select(Both(InSession(m.session), Not(Later(m.session, m.id))), db.messages);
            var t := DeleteMessagesAfter(db, m.id, None);
            && t.Ok? && m.session in t.db.sessions
            && Of(t.db.messages, m.session) == kept
            && t.db.sessions[m.session].messageCount == |kept|
            && t.db.sessions[m.session].totalTokens == Tokens(kept)
  {
    KeptBySource(db, m.session, m.id);
    DeleteAfterKeeps(db, m.id, None);
    assert Counted(DeleteMessagesAfter(db, m.id, None).db, m.session);
  }

  lemma BranchRows(db: Db, copied: seq<Message>, drawn: string)
    requires LinksHold(db) && drawn !in db.sessions
    ensures var copies := Copies(copied, drawn, NextId(db.messages));
            Of(db.messages + copies, drawn) == copies && Bodies(copies) == Bodies(copied)
  {
    hide Select;
    var copies := Copies(copied, drawn, NextId(db.messages));
    UnknownIsEmpty(db, drawn);
    SelectAppend(InSession(drawn), db.messages, copies);
    SelectAll(InSession(drawn), copies);
    assert [] + copies == copies;
  }

  /** The new session holds, in order, what the source would hold after truncation at the same message. */
  lemma BranchAgreesWithTruncation(db: Db, source: string, id: nat, workspace: Option<string>, drawn: string)
    requires Good(db) && Branch(db, source, id, workspace, drawn).Ok?
    ensures DeleteMessagesAfter(db, id, None).Ok?
    ensures var b, t := Branch(db, source, id, workspace, drawn).db, DeleteMessagesAfter(db, id, None).db;
            && Bodies(Of(b.messages, drawn)) == Bodies(Of(t.messages, source))
            && b.sessions[drawn].messageCount == t.sessions[source].messageCount
            && b.sessions[drawn].totalTokens == t.sessions[source].totalTokens
  {
    TruncatedSource(db, Find(db.messages, id).value);
    BranchRows(db, Select(Both(InSession(source), Not(Later(source, id))), db.messages), drawn);
  }

  lemma CopiesAnswerNothing(db: Db, copied: seq<Message>, drawn: string, row: Session, key: string, home: string)
    requires LinksHold(db) && drawn !in db.sessions
    ensures var copies := Copies(copied, drawn, NextId(db.messages));
            TurnMessages(db.sessions[drawn := row], db.messages + copies, key, home)
            == TurnMessages(db.sessions, db.messages, key, home)
  {
    var copies := Copies(copied, drawn, NextId(db.messages));
    var sessions := db.sessions[drawn := row];
    TurnAppend(sessions, db.messages, copies, key, home);
    TurnNone(sessions, copies, key, home);
    TurnAgree(sessions, db.sessions, db.messages, key, home);
  }

  /** Branching changes nothing that was there: not a session, not a counter, not a message. */
  lemma BranchLeavesTheRest(db: Db, source: string, id: nat, workspace: Option<string>, drawn: string)
    requires Good(db) && Branch(db, source, id, workspace, drawn).Ok?
    ensures var b := Branch(db, source, id, workspace, drawn).db;
            && b.messages[..|db.messages|] == db.messages
            && (forall s {:trigger s in db.sessions} :: s in db.sessions ==>
                  s in b.sessions && b.sessions[s] == db.sessions[s] && Of(b.messages, s) == Of(db.messages, s))
  {
    hide Select, Tokens, Counted;
    var copied := Select(Both(InSession(source), Not(Later(source, id))), db.messages);
    forall s | s in db.sessions
      ensures Of(Branch(db, source, id, workspace, drawn).db.messages, s) == Of(db.messages, s)
    {
      AppendOf(db.messages, Copies(copied, drawn, NextId(db.messages)), s);
    }
  }

  /** It copies no turn key, so every idempotency lookup in every workspace answers as before. */
  lemma BranchAnswersAsBefore(
    db: Db, source: string, id: nat, workspace: Option<string>, drawn: string, key: string, home: string)
    requires Good(db) && Branch(db, source, id, workspace, drawn).Ok?
    ensures LookupPair(Branch(db, source, id, workspace, drawn).db, key, home) == LookupPair(db, key, home)
  {
    var copied := Select(Both(InSession(source), Not(Later(source, id))), db.messages);
    CopiesAnswerNothing(db, copied, drawn, Branch(db, source, id, workspace, drawn).db.sessions[drawn], key, home);
  }

  // ---------------------------------------------------------------- the turn key

  lemma LastOfPair(before: seq<Message>, user: Message, assistant: Message)
    requires user.body.role == User && assistant.body.role == Assistant
    ensures LastOfRole(before + [user, assistant], User) == Some(user)
    ensures LastOfRole(before + [user, assistant], Assistant) == Some(assistant)
  {
    var all := before + [user, assistant];
    assert all[..|all| - 1] == before + [user];
  }

  lemma PairIsItsTurn(
    sessions: map<string, Session>, user: Message, assistant: Message, key: string, workspace: string)
    requires InTurn(sessions, user, key, workspace) && InTurn(sessions, assistant, key, workspace)
    ensures TurnMessages(sessions, [user, assistant], key, workspace) == [user, assistant]
  {
    assert [user, assistant][..1] == [user] && [user][..0] == [];
    assert TurnMessages(sessions, [user], key, workspace) == [user];
  }

  /** A saved pair is found again under its key, with exactly the two rows that were stored. */
  lemma SavedPairIsFound(
    db: Db, session: string, asked: Body, answered: Body, workspace: Option<string>, key: string)
    requires asked.role == User && answered.role == Assistant
    requires SavePair(db, session, asked, answered, workspace, Some(key)).Ok?
    ensures var home, after := Normalize(workspace), SavePair(db, session, asked, answered, workspace, Some(key)).db;
            var added := PairRows(NextId(db.messages), session, Some(key), asked, answered);
            LookupPair(after, key, home)
            == if LookupPair(db, key, home).Pair? then LookupPair(db, key, home) else Pair(added[0], added[1])
  {
    var home, after := Normalize(workspace), SavePair(db, session, asked, answered, workspace, Some(key)).db;
    if !LookupPair(db, key, home).Pair? {
      var added := PairRows(NextId(db.messages), session, Some(key), asked, answered);
      TurnAppend(after.sessions, db.messages, added, key, home);
      PairIsItsTurn(after.sessions, added[0], added[1], key, home);
      LastOfPair(TurnMessages(after.sessions, db.messages, key, home), added[0], added[1]);
    }
  }

  /** Saving again under the same key stores nothing, whatever the second call says. */
  lemma SavingAgainIsIdempotent(
    db: Db, session: string, asked: Body, answered: Body, workspace: Option<string>, key: string,
    session': string, asked': Body, answered': Body)
    requires asked.role == User && answered.role == Assistant
    requires SavePair(db, session, asked, answered, workspace, Some(key)).Ok?
    ensures var after := SavePair(db, session, asked, answered, workspace, Some(key)).db;
            SavePair(after, session', asked', answered', workspace, Some(key)) == Ok(after)
  {
    SavedPairIsFound(db, session, asked, answered, workspace, key);
  }
}
