/**
 The chat repository: what each call does to the tables when calls run one after another. A call that raises rolls
 back and leaves every table as it was. Identifiers are taken as already stripped of surrounding blanks.
 */
module ChatRepository {
  import opened Wrappers
  import opened ChatSchema

  // ---------------------------------------------------------------- what each call does

  /** The session a message goes to, created or adopted by the workspace when it has none yet. */
  function TargetSession(db: Db, session: string, workspace: string): Option<Session> {
    if session !in db.sessions then Some(Session(Some(workspace), None, None, 0, 0))
    else
      var row := db.sessions[session];
      if row.workspace.None? || row.workspace.value == "" then Some(row.(workspace := Some(workspace)))
      else if row.workspace.value != workspace then None
      else Some(row)
  }

  function SaveMessage(db: Db, session: string, body: Body, workspace: Option<string>): Outcome {
    var home := Normalize(workspace);
    if home !in db.workspaces then Fail(WorkspaceNotFound) else
    var target := TargetSession(db, session, home);
    if target.None? then Fail(WorkspaceMismatch) else
    var row := target.value;
    Ok(db.(
      messages := db.messages + [Message(NextId(db.messages), session, None, body)],
      sessions := db.sessions[session := row.(
        messageCount := row.messageCount + 1, totalTokens := row.totalTokens + body.tokens)]))
  }

  predicate InTurn(sessions: map<string, Session>, m: Message, key: string, workspace: string) {
    m.turnKey == Some(key) && m.session in sessions && sessions[m.session].workspace == Some(workspace)
  }

  function TurnMessages(sessions: map<string, Session>, messages: seq<Message>, key: string, workspace: string)
    : (r: seq<Message>)
    ensures forall m :: m in r ==> m in messages
  {
    if messages == [] then [] else
    var rest := TurnMessages(sessions, messages[..|messages| - 1], key, workspace);
    var last := messages[|messages| - 1];
    if InTurn(sessions, last, key, workspace) then rest + [last] else rest
  }

  /** The dictionary built over the rows keeps the last message of each role. */
  function LastOfRole(messages: seq<Message>, role: Role): (r: Option<Message>)
    ensures r.Some? ==> r.value in messages && r.value.body.role == role
  {
    if messages == [] then None
    else if messages[|messages| - 1].body.role == role then Some(messages[|messages| - 1])
    else LastOfRole(messages[..|messages| - 1], role)
  }

  datatype Lookup = NoPair | Pair(user: Message, assistant: Message) | Partial

  function LookupPair(db: Db, key: string, workspace: string): Lookup {
    var found := TurnMessages(db.sessions, db.messages, key, workspace);
    var user, assistant := LastOfRole(found, User), LastOfRole(found, Assistant);
    if found == [] then NoPair
    else if user.Some? && assistant.Some? then Pair(user.value, assistant.value)
    else Partial
  }

  function TurnBody(role: Role, content: string, stamp: int): Body {
    Body(role, content, stamp, 0, "", None, None)
  }

  function PairRows(next: nat, session: string, key: Option<string>, asked: Body, answered: Body): seq<Message> {
    [Message(next, session, key, asked), Message(next + 1, session, key, answered)]
  }

  /** `asked` and `answered` carry no tokens; an empty key counts as none. */
  function SavePair(
    db: Db, session: string, asked: Body, answered: Body, workspace: Option<string>, turnKey: Option<string>): Outcome
  {
    var home := Normalize(workspace);
    if home !in db.workspaces then Fail(WorkspaceNotFound) else
    var found := if turnKey.Some? then LookupPair(db, turnKey.value, home) else NoPair;
    if found.Pair? then Ok(db)
    else if found.Partial? then Fail(IncompletePair) else
    var target := TargetSession(db, session, home);
    if target.None? then Fail(WorkspaceMismatch) else
    Ok(db.(
      messages := db.messages + PairRows(NextId(db.messages), session, turnKey, asked, answered),
      sessions := db.sessions[session := target.value.(messageCount := target.value.messageCount + 2)]))
  }

  /** A message looked up by id, within a workspace when one is given. */
  function FindIn(db: Db, id: nat, workspace: Option<string>): Option<Message> {
    var m := Find(db.messages, id);
    if m.Some? && workspace.Some?
       && !(m.value.session in db.sessions && db.sessions[m.value.session].workspace == Some(Normalize(workspace)))
    then None else m
  }

  function Clamp(n: int): nat {
    if n < 0 then 0 else n
  }

  function Lower(sessions: map<string, Session>, session: string, count: nat, tokens: nat): map<string, Session> {
    if session !in sessions then sessions else
    var row := sessions[session];
    sessions[session := row.(
      messageCount := Clamp(row.messageCount - count), totalTokens := Clamp(row.totalTokens - tokens))]
  }

  function DeleteMessage(db: Db, id: nat, workspace: Option<string>): Outcome {
    var m := FindIn(db, id, workspace);
    if m.None? then Fail(MessageNotFound)
    else Ok(db.(
      messages := Select(Not(HasId(id)), db.messages),
      sessions := Lower(db.sessions, m.value.session, 1, m.value.body.tokens)))
  }

  function DeleteMessagesAfter(db: Db, id: nat, workspace: Option<string>): Outcome {
    var m := FindIn(db, id, workspace);
    if m.None? then Fail(MessageNotFound) else
    var trailing := Select(Later(m.value.session, id), db.messages);
    Ok(db.(
      messages := Select(Not(Later(m.value.session, id)), db.messages),
      sessions := Lower(db.sessions, m.value.session, |trailing|, Tokens(trailing))))
  }

  function FindSession(db: Db, session: string, workspace: Option<string>): Option<Session> {
    if session in db.sessions
       && (workspace.None? || db.sessions[session].workspace == Some(Normalize(workspace)))
    then Some(db.sessions[session]) else None
  }

  function ClearSession(db: Db, session: string, workspace: Option<string>): Outcome {
    var row := FindSession(db, session, workspace);
    if row.None? then Fail(SessionNotFound)
    else Ok(db.(
      messages := Select(Not(InSession(session)), db.messages),
      sessions := db.sessions[session := row.value.(messageCount := 0, totalTokens := 0)]))
  }

  function DeleteSession(db: Db, session: string, workspace: Option<string>): Outcome {
    if FindSession(db, session, workspace).None? then Fail(SessionNotFound)
    else Ok(db.(messages := Select(Not(InSession(session)), db.messages), sessions := db.sessions - {session}))
  }

  function Copies(source: seq<Message>, session: string, next: nat): seq<Message> {
    seq(|source|, i requires 0 <= i < |source| => Message(next + i, session, None, source[i].body))
  }

  /** `session` is the fresh identifier drawn for the branch. */
  function Branch(db: Db, source: string, id: nat, workspace: Option<string>, session: string): Outcome {
    if source !in db.sessions then Fail(SessionNotFound) else
    var home := Normalize(db.sessions[source].workspace);
    var requested := if workspace.None? || workspace.value == "" then home else workspace.value;
    if requested != home then Fail(WorkspaceMismatch) else
    var point := Find(db.messages, id);
    if point.None? || point.value.session != source then Fail(MessageNotFound)
    else if session in db.sessions then Fail(DuplicateId) else
    var copied := Select(Both(InSession(source), Not(Later(source, id))), db.messages);
    Ok(db.(
      messages := db.messages + Copies(copied, session, NextId(db.messages)),
      sessions := db.sessions[session := Session(Some(home), Some(source), Some(id), |copied|, Tokens(copied))]))
  }

  function CreateSession(db: Db, workspace: Option<string>, session: string): Outcome {
    var home := Normalize(workspace);
    if home !in db.workspaces then Fail(WorkspaceNotFound)
    else if session in db.sessions then Fail(DuplicateId)
    else Ok(db.(sessions := db.sessions[session := Session(Some(home), None, None, 0, 0)]))
  }

  function CreateWorkspace(db: Db, id: string, name: string, context: Option<string>): Outcome {
    if id in db.workspaces then Fail(DuplicateId)
    else Ok(db.(workspaces :=
      db.workspaces[id := Workspace(name, DEFAULT, context, if context.Some? then 1 else 0)]))
  }

  /** `companion` and `context` are absent when the request does not mention them. */
  function UpdateWorkspace(
    db: Db, id: string, name: Option<string>, companion: Option<string>, context: Option<Option<string>>,
    expected: Option<nat>): Outcome
  {
    if id !in db.workspaces then Fail(WorkspaceNotFound) else
    var row := db.workspaces[id];
    if companion.Some? && Normalize(companion) !in db.companions then Fail(InvalidCompanion)
    else if expected.Some? && expected.value != row.revision then Fail(RevisionConflict(row.revision, row.context))
    else Ok(db.(workspaces := db.workspaces[id := Workspace(
      name.GetOr(row.name),
      if companion.Some? then Normalize(companion) else row.companion,
      context.GetOr(row.context),
      if context.Some? then row.revision + 1 else row.revision)]))
  }

  /** Seeds a context that was never written; anything newer stays. */
  function ImportContext(db: Db, id: string, context: string, revision: int): Db {
    if id !in db.workspaces then db else
    var row := db.workspaces[id];
    if row.context.Some? || row.revision > 0 then db
    else db.(workspaces := db.workspaces[id :=
      row.(context := Some(context), revision := if revision < 1 then 1 else revision)])
  }

  function Rehomed(sessions: map<string, Session>, workspace: string): map<string, Session> {
    map s | s in sessions ::
      if sessions[s].workspace == Some(workspace) then sessions[s].(workspace := Some(DEFAULT)) else sessions[s]
  }

  function DeleteWorkspace(db: Db, id: string, expected: Option<nat>): Outcome {
    if id == DEFAULT then Fail(CannotDeleteDefault)
    else if id !in db.workspaces then Fail(WorkspaceNotFound)
    else if expected.Some? && expected.value != db.workspaces[id].revision
      then Fail(RevisionConflict(db.workspaces[id].revision, db.workspaces[id].context))
    else Ok(db.(sessions := Rehomed(db.sessions, id), workspaces := db.workspaces - {id}))
  }

  function CreateCompanion(db: Db, id: string): Outcome {
    if id in db.companions then Fail(DuplicateId) else Ok(db.(companions := db.companions + {id}))
  }

  function Rebound(workspaces: map<string, Workspace>, companion: string): map<string, Workspace> {
    map w | w in workspaces ::
      if workspaces[w].companion == companion then workspaces[w].(companion := DEFAULT) else workspaces[w]
  }

  function DeleteCompanion(db: Db, id: string): Outcome {
    if id == DEFAULT then Fail(CannotDeleteDefault)
    else if id !in db.companions then Fail(CompanionNotFound)
    else if DEFAULT !in db.companions then Fail(CompanionNotFound)
    else Ok(db.(workspaces := Rebound(db.workspaces, id), companions := db.companions - {id}))
  }

  datatype Call =
    | CallSaveMessage(session: string, body: Body, workspace: Option<string>)
    | CallSavePair(session: string, user: string, assistant: string, stamp: int, workspace: Option<string>, turnKey: Option<string>)
    | CallDeleteMessage(id: nat, workspace: Option<string>)
    | CallDeleteAfter(id: nat, workspace: Option<string>)
    | CallClear(session: string, workspace: Option<string>)
    | CallDeleteSession(session: string, workspace: Option<string>)
    | CallBranch(session: string, id: nat, workspace: Option<string>, drawn: string)
    | CallCreateSession(workspace: Option<string>, drawn: string)
    | CallCreateWorkspace(name: string, context: Option<string>)
    | CallUpdateWorkspace(name: string, companion: Option<string>, text: Option<Option<string>>, expected: Option<nat>)
    | CallImportContext(name: string, seeded: string, revision: int)
    | CallDeleteWorkspace(name: string, expected: Option<nat>)
    | CallCreateCompanion(name: string)
    | CallDeleteCompanion(name: string)

  function Execute(db: Db, call: Call): Outcome {
    match call
    case CallSaveMessage(session, body, workspace) => SaveMessage(db, session, body, workspace)
    case CallSavePair(session, user, assistant, stamp, workspace, turnKey) =>
      SavePair(db, session, TurnBody(User, user, stamp), TurnBody(Assistant, assistant, stamp), workspace, turnKey)
    case CallDeleteMessage(id, workspace) => DeleteMessage(db, id, workspace)
    case CallDeleteAfter(id, workspace) => DeleteMessagesAfter(db, id, workspace)
    case CallClear(session, workspace) => ClearSession(db, session, workspace)
    case CallDeleteSession(session, workspace) => DeleteSession(db, session, workspace)
    case CallBranch(session, id, workspace, drawn) => Branch(db, session, id, workspace, drawn)
    case CallCreateSession(workspace, drawn) => CreateSession(db, workspace, drawn)
    case CallCreateWorkspace(name, context) => CreateWorkspace(db, name, name, context)
    case CallUpdateWorkspace(name, companion, text, expected) =>
      UpdateWorkspace(db, name, None, companion, text, expected)
    case CallImportContext(name, seeded, revision) => Ok(ImportContext(db, name, seeded, revision))
    case CallDeleteWorkspace(name, expected) => DeleteWorkspace(db, name, expected)
    case CallCreateCompanion(name) => CreateCompanion(db, name)
    case CallDeleteCompanion(name) => DeleteCompanion(db, name)
  }

  function After(db: Db, call: Call): Db {
    var outcome := Execute(db, call);
    if outcome.Ok? then outcome.db else db
  }

  function RunCalls(db: Db, calls: seq<Call>): Db {
    if calls == [] then db else After(RunCalls(db, calls[..|calls| - 1]), calls[|calls| - 1])
  }
}
