/** The repository object over the four tables. A method that reports an error has changed nothing. */
module Repository {
  import opened Wrappers
  import opened ChatSchema
  import opened ChatRepository

  ghost predicate Settled(outcome: Outcome, before: Db, after: Db, error: Option<Error>) {
    match outcome
    case Ok(db) => error.None? && after == db
    case Fail(e) => error == Some(e) && after == before
  }

  ghost predicate IsSplit(later: Where, rows: seq<Message>, kept: seq<Message>, count: nat, tokens: nat) {
    && kept == Select(Not(later), rows)
    && count == |Select(later, rows)|
    && tokens == Tokens(Select(later, rows))
  }

  lemma SplitStep(later: Where, messages: seq<Message>, i: nat, kept: seq<Message>, count: nat, tokens: nat)
    requires i < |messages| && IsSplit(later, messages[..i], kept, count, tokens)
    ensures var row := messages[i];
            if Matches(later, row)
            then IsSplit(later, messages[..i + 1], kept, count + 1, tokens + row.body.tokens)
            else IsSplit(later, messages[..i + 1], kept + [row], count, tokens)
  {
    hide Select, Tokens;
    SelectStep(later, messages, i);
    SelectStep(Not(later), messages, i);
  }

  class DatabaseRepository {
    var messages: seq<Message>
    var sessions: map<string, Session>
    var workspaces: map<string, Workspace>
    var companions: set<string>

    ghost function View(): Db
      reads this
    {
      Db(messages, sessions, workspaces, companions)
    }

    constructor ()
      ensures View() == FIRST
    {
      messages, sessions := [], map[];
      workspaces, companions := map[DEFAULT := Workspace(DEFAULT, DEFAULT, None, 0)], {DEFAULT};
    }

    /** The session row a save goes to, or `None` when it belongs to another workspace. */
    method OpenSession(session: string, home: string) returns (row: Option<Session>)
      ensures row == TargetSession(View(), session, home)
    {
      if session !in sessions {
        return Some(Session(Some(home), None, None, 0, 0));
      }
      var found := sessions[session];
      if found.workspace.None? || found.workspace.value == "" {
        return Some(found.(workspace := Some(home)));
      }
      if found.workspace.value != home {
        return None;
      }
      return Some(found);
    }

    method SaveMessage(session: string, body: Body, workspace: Option<string>) returns (error: Option<Error>)
      modifies this
      ensures Settled(ChatRepository.SaveMessage(old(View()), session, body, workspace), old(View()), View(), error)
    {
      var home := Normalize(workspace);
      if home !in workspaces {
        return Some(WorkspaceNotFound);
      }
      var row := OpenSession(session, home);
      if row.None? {
        return Some(WorkspaceMismatch);
      }
      messages := messages + [Message(NextId(messages), session, None, body)];
      var count, tokens := row.value.messageCount + 1, row.value.totalTokens + body.tokens;
      sessions := sessions[session := row.value.(messageCount := count, totalTokens := tokens)];
      return None;
    }

    method GetMessagePair(key: string, home: string) returns (found: Lookup)
      ensures found == LookupPair(View(), key, home)
    {
      var user: Option<Message>, assistant: Option<Message> := None, None;
      var any := false;
      for i := 0 to |messages|
        invariant any <==> TurnMessages(sessions, messages[..i], key, home) != []
        invariant user == LastOfRole(TurnMessages(sessions, messages[..i], key, home), User)
        invariant assistant == LastOfRole(TurnMessages(sessions, messages[..i], key, home), Assistant)
      {
        assert messages[..i + 1][..i] == messages[..i];
        var m := messages[i];
        if InTurn(sessions, m, key, home) {
          ghost var earlier := TurnMessages(sessions, messages[..i], key, home);
          assert (earlier + [m])[..|earlier|] == earlier;
          any := true;
          if m.body.role == User {
            user := Some(m);
          } else if m.body.role == Assistant {
            assistant := Some(m);
          }
        }
      }
      assert messages[..|messages|] == messages;
      if !any {
        return NoPair;
      }
      if user.None? || assistant.None? {
        return Partial;
      }
      return Pair(user.value, assistant.value);
    }

    method SaveMessagePair(
      session: string, asked: Body, answered: Body, workspace: Option<string>, turnKey: Option<string>)
      returns (error: Option<Error>)
      modifies this
      ensures Settled(SavePair(old(View()), session, asked, answered, workspace, turnKey), old(View()), View(), error)
    {
      var home := Normalize(workspace);
      if home !in workspaces {
        return Some(WorkspaceNotFound);
      }
      if turnKey.Some? {
        var found := GetMessagePair(turnKey.value, home);
        if found.Pair? {
          return None;
        }
        if found.Partial? {
          return Some(IncompletePair);
        }
      }
      var row := OpenSession(session, home);
      if row.None? {
        return Some(WorkspaceMismatch);
      }
      var next := NextId(messages);
      messages := messages + [Message(next, session, turnKey, asked), Message(next + 1, session, turnKey, answered)];
      sessions := sessions[session := row.value.(messageCount := row.value.messageCount + 2)];
      return None;
    }

    method FindMessage(id: nat, workspace: Option<string>) returns (m: Option<Message>)
      ensures m == FindIn(View(), id, workspace)
    {
      m := Find(messages, id);
      if m.Some? && workspace.Some? {
        var owner := m.value.session;
        if owner !in sessions || sessions[owner].workspace != Some(Normalize(workspace)) {
          m := None;
        }
      }
    }

    method LowerCounters(session: string, count: nat, tokens: nat)
      modifies this`sessions
      ensures sessions == Lower(old(sessions), session, count, tokens)
    {
      if session in sessions {
        var row := sessions[session];
        var c, t := row.messageCount - count, row.totalTokens - tokens;
        sessions := sessions[session := row.(messageCount := if c < 0 then 0 else c, totalTokens := if t < 0 then 0 else t)];
      }
    }

    method DeleteMessage(id: nat, workspace: Option<string>) returns (error: Option<Error>)
      modifies this
      ensures Settled(ChatRepository.DeleteMessage(old(View()), id, workspace), old(View()), View(), error)
    {
      var m := FindMessage(id, workspace);
      if m.None? {
        return Some(MessageNotFound);
      }
      messages := Select(Not(HasId(id)), messages);
      LowerCounters(m.value.session, 1, m.value.body.tokens);
      return None;
    }

    /** Walks the rows once, keeping those outside the trailing part and totalling the others. */
    method SplitAfter(session: string, id: nat) returns (kept: seq<Message>, count: nat, tokens: nat)
      ensures kept == Select(Not(Later(session, id)), messages)
      ensures count == |Select(Later(session, id), messages)|
      ensures tokens == Tokens(Select(Later(session, id), messages))
    {
      kept, count, tokens := [], 0, 0;
      assert messages[..0] == [];
      for i := 0 to |messages|
        invariant IsSplit(Later(session, id), messages[..i], kept, count, tokens)
      {
        SplitStep(Later(session, id), messages, i, kept, count, tokens);
        var row := messages[i];
        if row.session == session && row.id > id {
          count, tokens := count + 1, tokens + row.body.tokens;
        } else {
          kept := kept + [row];
        }
      }
      assert messages[..|messages|] == messages;
    }

    method DeleteMessagesAfter(id: nat, workspace: Option<string>) returns (error: Option<Error>)
      modifies this
      ensures Settled(ChatRepository.DeleteMessagesAfter(old(View()), id, workspace), old(View()), View(), error)
    {
      var m := FindMessage(id, workspace);
      if m.None? {
        return Some(MessageNotFound);
      }
      var kept, count, tokens := SplitAfter(m.value.session, id);
      messages := kept;
      LowerCounters(m.value.session, count, tokens);
      return None;
    }

    method ClearSessionMessages(session: string, workspace: Option<string>) returns (error: Option<Error>)
      modifies this
      ensures Settled(ClearSession(old(View()), session, workspace), old(View()), View(), error)
    {
      if session !in sessions || (workspace.Some? && sessions[session].workspace != Some(Normalize(workspace))) {
        return Some(SessionNotFound);
      }
      messages := Select(Not(InSession(session)), messages);
      sessions := sessions[session := sessions[session].(messageCount := 0, totalTokens := 0)];
      return None;
    }

    method DeleteSession(session: string, workspace: Option<string>) returns (error: Option<Error>)
      modifies this
      ensures Settled(ChatRepository.DeleteSession(old(View()), session, workspace), old(View()), View(), error)
    {
      if session !in sessions || (workspace.Some? && sessions[session].workspace != Some(Normalize(workspace))) {
        return Some(SessionNotFound);
      }
      messages := Select(Not(InSession(session)), messages);
      sessions := sessions - {session};
      return None;
    }

    /** `drawn` is the random identifier of the new session. */
    method BranchChatSession(source: string, id: nat, workspace: Option<string>, drawn: string)
      returns (error: Option<Error>)
      modifies this
      ensures Settled(Branch(old(View()), source, id, workspace, drawn), old(View()), View(), error)
    {
      if source !in sessions {
        return Some(SessionNotFound);
      }
      var home := Normalize(sessions[source].workspace);
      if workspace.Some? && workspace.value != "" && workspace.value != home {
        return Some(WorkspaceMismatch);
      }
      var point := Find(messages, id);
      if point.None? || point.value.session != source {
        return Some(MessageNotFound);
      }
      if drawn in sessions {
        return Some(DuplicateId);
      }
      var copied := Select(Both(InSession(source), Not(Later(source, id))), messages);
      sessions := sessions[drawn := Session(Some(home), Some(source), Some(id), |copied|, Tokens(copied))];
      var next := NextId(messages);
      for i := 0 to |copied|
        invariant messages == old(messages) + Copies(copied[..i], drawn, next)
        invariant workspaces == old(workspaces) && companions == old(companions)
        invariant sessions
                  == old(sessions)[drawn := Session(Some(home), Some(source), Some(id), |copied|, Tokens(copied))]
      {
        messages := messages + [Message(next + i, drawn, None, copied[i].body)];
        assert Copies(copied[..i + 1], drawn, next)
               == Copies(copied[..i], drawn, next) + [Message(next + i, drawn, None, copied[i].body)];
      }
      assert copied[..|copied|] == copied;
      return None;
    }

    method CreateWorkspace(id: string, name: string, context: Option<string>) returns (error: Option<Error>)
      modifies this
      ensures Settled(ChatRepository.CreateWorkspace(old(View()), id, name, context), old(View()), View(), error)
    {
      if id in workspaces {
        return Some(DuplicateId);
      }
      var revision := if context.Some? then 1 else 0;
      workspaces := workspaces[id := Workspace(name, DEFAULT, context, revision)];
      return None;
    }

    method CreateChatSession(workspace: Option<string>, drawn: string) returns (error: Option<Error>)
      modifies this
      ensures Settled(CreateSession(old(View()), workspace, drawn), old(View()), View(), error)
    {
      var home := Normalize(workspace);
      if home !in workspaces {
        return Some(WorkspaceNotFound);
      }
      if drawn in sessions {
        return Some(DuplicateId);
      }
      sessions := sessions[drawn := Session(Some(home), None, None, 0, 0)];
      return None;
    }

    /** The columns are gathered first and written by one conditional update. */
    method UpdateWorkspace(
      id: string, name: Option<string>, companion: Option<string>, context: Option<Option<string>>,
      expected: Option<nat>)
      returns (error: Option<Error>)
      modifies this
      ensures Settled(
        ChatRepository.UpdateWorkspace(old(View()), id, name, companion, context, expected), old(View()), View(), error)
    {
      if id !in workspaces {
        return Some(WorkspaceNotFound);
      }
      var row := workspaces[id];
      if companion.Some? {
        var bound := Normalize(companion);
        if bound !in companions {
          return Some(InvalidCompanion);
        }
        row := row.(companion := bound);
      }
      if name.Some? {
        row := row.(name := name.value);
      }
      if context.Some? {
        row := row.(context := context.value, revision := row.revision + 1);
      }
      if expected.Some? && workspaces[id].revision != expected.value {
        return Some(RevisionConflict(workspaces[id].revision, workspaces[id].context));
      }
      workspaces := workspaces[id := row];
      return None;
    }

    method ImportWorkspaceContext(id: string, context: string, revision: int) returns (seeded: bool)
      modifies this
      ensures View() == ImportContext(old(View()), id, context, revision)
      ensures seeded == (View() != old(View()))
    {
      if id !in workspaces {
        return false;
      }
      var row := workspaces[id];
      if row.context.Some? || row.revision > 0 {
        return false;
      }
      var stored := if revision < 1 then 1 else revision;
      workspaces := workspaces[id := row.(context := Some(context), revision := stored)];
      assert workspaces[id].revision != old(workspaces)[id].revision;
      return true;
    }

    method DeleteWorkspace(id: string, expected: Option<nat>) returns (error: Option<Error>)
      modifies this
      ensures Settled(ChatRepository.DeleteWorkspace(old(View()), id, expected), old(View()), View(), error)
    {
      if id == DEFAULT {
        return Some(CannotDeleteDefault);
      }
      if id !in workspaces {
        return Some(WorkspaceNotFound);
      }
      var row := workspaces[id];
      if expected.Some? && expected.value != row.revision {
        return Some(RevisionConflict(row.revision, row.context));
      }
      var todo := sessions.Keys;
      while todo != {}
        invariant sessions.Keys == old(sessions).Keys && todo <= sessions.Keys
        invariant messages == old(messages) && workspaces == old(workspaces) && companions == old(companions)
        invariant forall s :: s in sessions ==>
          sessions[s] == if s in todo then old(sessions)[s] else Rehomed(old(sessions), id)[s]
      {
        var s :| s in todo;
        todo := todo - {s};
        if sessions[s].workspace == Some(id) {
          sessions := sessions[s := sessions[s].(workspace := Some(DEFAULT))];
        }
      }
      assert sessions == Rehomed(old(sessions), id);
      workspaces := workspaces - {id};
      return None;
    }

    method DeleteCompanion(id: string) returns (error: Option<Error>)
      modifies this
      ensures Settled(ChatRepository.DeleteCompanion(old(View()), id), old(View()), View(), error)
    {
      if id == DEFAULT {
        return Some(CannotDeleteDefault);
      }
      if id !in companions || DEFAULT !in companions {
        return Some(CompanionNotFound);
      }
      var todo := workspaces.Keys;
      while todo != {}
        invariant workspaces.Keys == old(workspaces).Keys && todo <= workspaces.Keys
        invariant messages == old(messages) && sessions == old(sessions) && companions == old(companions)
        invariant forall w :: w in workspaces ==>
          workspaces[w] == if w in todo then old(workspaces)[w] else Rebound(old(workspaces), id)[w]
      {
        var w :| w in todo;
        todo := todo - {w};
        if workspaces[w].companion == id {
          workspaces := workspaces[w := workspaces[w].(companion := DEFAULT)];
        }
      }
      assert workspaces == Rebound(old(workspaces), id);
      companions := companions - {id};
      return None;
    }
  }
}
