/** The chat tables as values: messages in id order, sessions with their counters, workspaces, companions. */
module ChatSchema {
  import opened Wrappers

  datatype Role = User | Assistant | OtherRole(name: string)

  /** What a branch copies of a message. */
  datatype Body = Body(
    role: Role,
    content: string,
    timestamp: int,
    tokens: nat,
    model: string,
    toolTrace: Option<string>,
    memoryTrace: Option<string>)

  datatype Message = Message(id: nat, session: string, turnKey: Option<string>, body: Body)

  datatype Session = Session(
    workspace: Option<string>,
    parent: Option<string>,
    branchedFrom: Option<nat>,
    messageCount: int,
    totalTokens: int)

  datatype Workspace = Workspace(name: string, companion: string, context: Option<string>, revision: nat)

  datatype Db = Db(
    messages: seq<Message>,
    sessions: map<string, Session>,
    workspaces: map<string, Workspace>,
    companions: set<string>)

  datatype Error =
    | WorkspaceNotFound | WorkspaceMismatch | MessageNotFound | SessionNotFound | CompanionNotFound
    | IncompletePair | CannotDeleteDefault | InvalidCompanion | DuplicateId | IntegrityFailure
    | RevisionConflict(stored: nat, context: Option<string>)

  /** A failed operation rolls back, so it has no database to show. */
  datatype Outcome = Ok(db: Db) | Fail(error: Error)

  const DEFAULT := "default"

  /** A new database: the default workspace and the default companion. */
  const FIRST := Db([], map[], map[DEFAULT := Workspace(DEFAULT, DEFAULT, None, 0)], {DEFAULT})

  function Normalize(workspace: Option<string>): string {
    if workspace.None? || workspace.value == "" then DEFAULT else workspace.value
  }

  // ---------------------------------------------------------------- selections

  /** The row conditions the queries use. */
  datatype Where =
    | InSession(session: string)
    | HasId(id: nat)
    | Later(session: string, id: nat)
    | Not(inner: Where)
    | Both(left: Where, right: Where)

  predicate Matches(w: Where, m: Message) {
    match w
    case InSession(session) => m.session == session
    case HasId(id) => m.id == id
    case Later(session, id) => m.session == session && m.id > id
    case Not(inner) => !Matches(inner, m)
    case Both(left, right) => Matches(left, m) && Matches(right, m)
  }

  function Select(w: Where, messages: seq<Message>): (r: seq<Message>)
    ensures |r| <= |messages|
    ensures forall m :: m in r <==> m in messages && Matches(w, m)
  {
    if messages == [] then [] else
    var rest := Select(w, messages[..|messages| - 1]);
    var last := messages[|messages| - 1];
    if Matches(w, last) then rest + [last] else rest
  }

  function Tokens(messages: seq<Message>): (n: nat) {
    if messages == [] then 0 else Tokens(messages[..|messages| - 1]) + messages[|messages| - 1].body.tokens
  }

  function Of(messages: seq<Message>, session: string): seq<Message> {
    Select(InSession(session), messages)
  }

  function Bodies(messages: seq<Message>): seq<Body> {
    seq(|messages|, i requires 0 <= i < |messages| => messages[i].body)
  }

  function NextId(messages: seq<Message>): nat {
    if messages == [] then 1 else messages[|messages| - 1].id + 1
  }

  /** The first message with this id; ids are unique, so it is the one. */
  function Find(messages: seq<Message>, id: nat): (r: Option<Message>)
    ensures r.Some? ==> r.value in messages && r.value.id == id
    ensures r.None? ==> forall m :: m in messages ==> m.id != id
  {
    if messages == [] then None
    else if messages[|messages| - 1].id == id then Some(messages[|messages| - 1])
    else Find(messages[..|messages| - 1], id)
  }

  predicate IdsAscend(messages: seq<Message>) {
    forall i, j :: 0 <= i < j < |messages| ==> messages[i].id < messages[j].id
  }

  lemma SelectSnoc(w: Where, messages: seq<Message>, m: Message)
    ensures Select(w, messages + [m]) == if Matches(w, m) then Select(w, messages) + [m] else Select(w, messages)
  {
    assert (messages + [m])[..|messages|] == messages;
  }

  lemma Associate<T>(a: seq<T>, b: seq<T>, c: seq<T>)
    ensures a + b + c == a + (b + c)
  {
  }

  lemma {:induction false} SelectAppend(w: Where, a: seq<Message>, b: seq<Message>)
    ensures Select(w, a + b) == Select(w, a) + Select(w, b)
  {
    if b == [] {
      assert a + b == a;
    } else {
      var front, last := b[..|b| - 1], b[|b| - 1];
      SelectAppend(w, a, front);
      assert b == front + [last];
      Associate(a, front, [last]);
      SelectSnoc(w, a + front, last);
      SelectSnoc(w, front, last);
      Associate(Select(w, a), Select(w, front), [last]);
    }
  }

  lemma {:induction false} TokensAppend(a: seq<Message>, b: seq<Message>)
    ensures Tokens(a + b) == Tokens(a) + Tokens(b)
  {
    if b == [] {
      assert a + b == a;
    } else {
      TokensAppend(a, b[..|b| - 1]);
      assert (a + b)[..|a + b| - 1] == a + b[..|b| - 1];
    }
  }

  lemma TokensOfFew(m: Message, n: Message)
    ensures Tokens([m]) == m.body.tokens
    ensures Tokens([m, n]) == m.body.tokens + n.body.tokens
  {
    assert [m][..0] == [] && [m, n][..1] == [m];
  }

  lemma SelectStep(w: Where, messages: seq<Message>, i: nat)
    requires i < |messages|
    ensures Select(w, messages[..i + 1])
         == if Matches(w, messages[i]) then Select(w, messages[..i]) + [messages[i]] else Select(w, messages[..i])
    ensures Tokens(Select(w, messages[..i + 1]))
         == Tokens(Select(w, messages[..i])) + if Matches(w, messages[i]) then messages[i].body.tokens else 0
  {
    assert messages[..i + 1][..i] == messages[..i];
    TokensAppend(Select(w, messages[..i]), [messages[i]]);
    TokensOfFew(messages[i], messages[i]);
  }

  /** Two conditions that agree on every listed message select the same rows. */
  lemma {:induction false} SelectAgree(w: Where, v: Where, messages: seq<Message>)
    requires forall m :: m in messages ==> (Matches(w, m) <==> Matches(v, m))
    ensures Select(w, messages) == Select(v, messages)
  {
    if messages != [] {
      SelectAgree(w, v, messages[..|messages| - 1]);
    }
  }

  lemma {:induction false} SelectAll(w: Where, messages: seq<Message>)
    requires forall m :: m in messages ==> Matches(w, m)
    ensures Select(w, messages) == messages
  {
    if messages != [] {
      hide Select, Matches;
      var front, last := messages[..|messages| - 1], messages[|messages| - 1];
      assert last in messages && messages == front + [last];
      SelectAll(w, front);
      SelectSnoc(w, front, last);
    }
  }

  lemma {:induction false} SelectNone(w: Where, messages: seq<Message>)
    requires forall m :: m in messages ==> !Matches(w, m)
    ensures Select(w, messages) == []
  {
    if messages != [] {
      SelectNone(w, messages[..|messages| - 1]);
    }
  }

  lemma {:induction false} SelectTwice(w: Where, v: Where, messages: seq<Message>)
    ensures Select(w, Select(v, messages)) == Select(Both(w, v), messages)
  {
    if messages != [] {
      SelectTwice(w, v, messages[..|messages| - 1]);
      var kept, last := Select(v, messages[..|messages| - 1]), messages[|messages| - 1];
      assert (kept + [last])[..|kept|] == kept;
    }
  }

  /** Taking rows out leaves the rest: nothing is lost or counted twice. */
  lemma {:induction false} SelectSplits(w: Where, messages: seq<Message>)
    ensures |Select(w, messages)| + |Select(Not(w), messages)| == |messages|
    ensures Tokens(Select(w, messages)) + Tokens(Select(Not(w), messages)) == Tokens(messages)
  {
    if messages != [] {
      var front, last := messages[..|messages| - 1], messages[|messages| - 1];
      SelectSplits(w, front);
      TokensAppend(Select(w, front), [last]);
      TokensAppend(Select(Not(w), front), [last]);
    }
  }

  lemma {:induction false} SelectAscends(w: Where, messages: seq<Message>)
    requires IdsAscend(messages)
    ensures IdsAscend(Select(w, messages))
  {
    if messages != [] {
      var front, last := messages[..|messages| - 1], messages[|messages| - 1];
      SelectAscends(w, front);
      forall m | m in Select(w, front) ensures m.id < last.id {
        assert m in front;
      }
    }
  }
}
