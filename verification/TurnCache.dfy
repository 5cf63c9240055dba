/** The bounded cache of persisted turns in front of the repository's idempotent pair insertion. */
module TurnCache {
  import opened Text
  import opened Wrappers
  import opened ChatSchema
  import opened ChatRepository
  import opened RepositoryInvariant
  import opened Branching

  const MAX_TURNS := 256

  /** `order` is the queue behind the set of cached turns. */
  datatype World = World(db: Db, persisted: set<string>, order: seq<string>)

  datatype Transcript = Transcript(
    workspace: Option<string>, session: string, turn: string, user: string, assistant: string, stamp: int)

  datatype Reply =
    | Duplicate | Saved | WrongWorkspace | NoSession | TextRequired | NotSaved(error: Error)

  function ActiveWorkspace(active: string): string {
    if Strip(active) == "" then DEFAULT else Strip(active)
  }

  function CacheKey(workspace: string, turn: string): string {
    workspace + ":" + turn
  }

  /** The repository strips the turn id, and a blank one is no key at all. */
  function TurnKey(turn: string): Option<string> {
    if Strip(turn) == "" then None else Some(Strip(turn))
  }

  function Bounded(order: seq<string>): seq<string> {
    if |order| > MAX_TURNS then order[|order| - MAX_TURNS..] else order
  }

  function Elements(order: seq<string>): set<string> {
    set k | k in order
  }

  function Dropped(order: seq<string>): set<string> {
    if |order| > MAX_TURNS then Elements(order[..|order| - MAX_TURNS]) else {}
  }

  function Save(db: Db, workspace: string, t: Transcript): Outcome {
    SavePair(db, Strip(t.session), TurnBody(User, Strip(t.user), t.stamp), TurnBody(Assistant, Strip(t.assistant), t.stamp),
             Some(workspace), TurnKey(t.turn))
  }

  function Persist(w: World, active: string, t: Transcript): (World, Reply) {
    var workspace, session := ActiveWorkspace(active), Strip(t.session);
    var requested := Strip(t.workspace.GetOr(""));
    var key := CacheKey(workspace, t.turn);
    if requested != "" && requested != workspace then (w, WrongWorkspace)
    else if key in w.persisted then (w, Duplicate)
    else if session !in w.db.sessions then (w, NoSession)
    else if Normalize(w.db.sessions[session].workspace) != workspace then (w, WrongWorkspace)
    else if Strip(t.user) == "" || Strip(t.assistant) == "" then (w, TextRequired)
    else
      match Save(w.db, workspace, t)
      case Fail(error) => (w, NotSaved(error))
      case Ok(db) =>
        (World(db, w.persisted + {key} - Dropped(w.order + [key]), Bounded(w.order + [key])), Saved)
  }

  /** A restart empties the cache and keeps the database. */
  datatype Action = DoPersist(active: string, t: Transcript) | DoRestart

  function Step(w: World, a: Action): World {
    match a
    case DoPersist(active, t) => Persist(w, active, t).0
    case DoRestart => World(w.db, {}, [])
  }

  function Run(w: World, actions: seq<Action>): World
    decreases |actions|
  {
    if actions == [] then w else Step(Run(w, actions[..|actions| - 1]), actions[|actions| - 1])
  }

  // ---------------------------------------------------------------- the cache itself

  predicate NoRepeats(order: seq<string>) {
    forall i, j :: 0 <= i < j < |order| ==> order[i] != order[j]
  }

  /** Set and queue hold the same turns, each once, at most 256 of them. */
  ghost predicate CacheHolds(w: World) {
    w.persisted == Elements(w.order) && NoRepeats(w.order) && |w.order| <= MAX_TURNS
  }

  lemma PersistKeepsCache(w: World, active: string, t: Transcript)
    requires CacheHolds(w)
    ensures CacheHolds(Persist(w, active, t).0)
  {
    var key := CacheKey(ActiveWorkspace(active), t.turn);
    if key !in w.persisted {
      assert key !in Elements(w.order);
      DroppingKeepsTheRest(w.order + [key]);
      assert Elements(w.order + [key]) == w.persisted + {key};
    }
  }

  lemma DroppingKeepsTheRest(order: seq<string>)
    requires NoRepeats(order)
    ensures NoRepeats(Bounded(order))
    ensures Elements(order) - Dropped(order) == Elements(Bounded(order))
  {
    if |order| > MAX_TURNS {
      var n := |order| - MAX_TURNS;
      assert order == order[..n] + order[n..];
    }
  }

  // ---------------------------------------------------------------- what the database holds for a turn

  ghost predicate Ready(db: Db) {
    Good(db) && "" !in db.workspaces
  }

  function Rows(db: Db, key: string, workspace: string): seq<Message> {
    TurnMessages(db.sessions, db.messages, key, workspace)
  }

  /** For every workspace and turn there is nothing stored, or one pair. */
  ghost predicate PairsOnly(db: Db) {
    forall key, ws {:trigger Rows(db, key, ws)} ::
      Rows(db, key, ws) == [] || (|Rows(db, key, ws)| == 2 && LookupPair(db, key, ws).Pair?)
  }

  predicate IsStored(db: Db, key: string, workspace: string) {
    LookupPair(db, key, workspace).Pair?
  }

  /** A cached turn of a workspace without colons is stored, if its id is not blank and so is a key. */
  ghost predicate CachedIsStored(w: World) {
    forall ws, turn {:trigger CacheKey(ws, turn)} ::
      ':' !in ws && CacheKey(ws, turn) in w.persisted && TurnKey(turn).Some? ==> IsStored(w.db, TurnKey(turn).value, ws)
  }

  lemma {:induction false} KeyNamesOneTurn(ws: string, turn: string, ws': string, turn': string)
    requires ':' !in ws && ':' !in ws' && CacheKey(ws, turn) == CacheKey(ws', turn')
    ensures ws == ws' && turn == turn'
  {
    var k := CacheKey(ws, turn);
    forall i | 0 <= i < |ws| ensures k[i] != ':' {
      assert k[i] in ws;
    }
    forall i | 0 <= i < |ws'| ensures k[i] != ':' {
      assert k[i] == ws'[i] && ws'[i] in ws';
    }
    assert k[|ws|] == ':' && k[|ws'|] == ':' && |ws| == |ws'|;
    assert k[..|ws|] == ws && k[..|ws'|] == ws' && k[|ws| + 1..] == turn && k[|ws'| + 1..] == turn';
  }

  lemma NotItsTurn(sessions: map<string, Session>, a: Message, b: Message, key: string, ws: string)
    requires !InTurn(sessions, a, key, ws) && !InTurn(sessions, b, key, ws)
    ensures TurnMessages(sessions, [a, b], key, ws) == []
  {
    assert [a, b][..1] == [a] && [a][..0] == [];
    assert TurnMessages(sessions, [a], key, ws) == [];
  }

  lemma AddedRows(
    sessions: map<string, Session>, next: nat, session: string, turn: Option<string>, asked: Body, answered: Body,
    home: string, key: string, ws: string)
    requires session in sessions && sessions[session].workspace == Some(home)
    ensures var added := PairRows(next, session, turn, asked, answered);
            TurnMessages(sessions, added, key, ws) == if turn == Some(key) && ws == home then added else []
  {
    var added := PairRows(next, session, turn, asked, answered);
    if turn == Some(key) && ws == home {
      PairIsItsTurn(sessions, added[0], added[1], key, ws);
    } else {
      NotItsTurn(sessions, added[0], added[1], key, ws);
    }
  }

  /** What a stored pair adds to the rows of each turn: its own two rows to its own turn, nothing to any other. */
  lemma SavingAddsOwnRows(
    db: Db, session: string, asked: Body, answered: Body, home: string, turn: Option<string>, key: string, ws: string)
    requires Ready(db) && session in db.sessions && home != ""
    requires SavePair(db, session, asked, answered, Some(home), turn).Ok?
    requires !(turn.Some? && LookupPair(db, turn.value, home).Pair?)
    ensures var after := SavePair(db, session, asked, answered, Some(home), turn).db;
            var added := PairRows(NextId(db.messages), session, turn, asked, answered);
            Rows(after, key, ws) == Rows(db, key, ws) + if turn == Some(key) && ws == home then added else []
  {
    var after := SavePair(db, session, asked, answered, Some(home), turn).db;
    var added := PairRows(NextId(db.messages), session, turn, asked, answered);
    TurnAppend(after.sessions, db.messages, added, key, ws);
    SessionsKeepHome(db, session, asked, answered, home, turn);
    TurnAgree(after.sessions, db.sessions, db.messages, key, ws);
    AddedRows(after.sessions, NextId(db.messages), session, turn, asked, answered, home, key, ws);
  }

  lemma SessionsKeepHome(
    db: Db, session: string, asked: Body, answered: Body, home: string, turn: Option<string>)
    requires Ready(db) && session in db.sessions && home != ""
    requires SavePair(db, session, asked, answered, Some(home), turn).Ok?
    ensures var after := SavePair(db, session, asked, answered, Some(home), turn).db;
            && after.sessions.Keys == db.sessions.Keys
            && after.workspaces == db.workspaces
            && (forall s {:trigger after.sessions[s]} :: s in db.sessions ==>
                  after.sessions[s].workspace == db.sessions[s].workspace)
            && (LookupOf(db, turn, home).Pair? || after.sessions[session].workspace == Some(home))
  {
    hide LookupPair, CountersHold, IdsAscend;
    assert db.sessions[session].workspace.Some? && db.sessions[session].workspace.value in db.workspaces;
  }

  function LookupOf(db: Db, turn: Option<string>, home: string): Lookup {
    if turn.Some? then LookupPair(db, turn.value, home) else NoPair
  }

  // ---------------------------------------------------------------- saving through the cache

  lemma SaveKeepsPairs(db: Db, workspace: string, t: Transcript)
    requires Ready(db) && PairsOnly(db) && Strip(t.session) in db.sessions && workspace != ""
    requires Save(db, workspace, t).Ok?
    ensures var after := Save(db, workspace, t).db;
            Ready(after) && PairsOnly(after) && (TurnKey(t.turn).Some? ==> IsStored(after, TurnKey(t.turn).value, workspace))
    ensures forall key, ws {:trigger LookupPair(Save(db, workspace, t).db, key, ws)} ::
              LookupPair(db, key, ws).Pair? ==> LookupPair(Save(db, workspace, t).db, key, ws).Pair?
  {
    var session, turn := Strip(t.session), TurnKey(t.turn);
    var asked, answered := TurnBody(User, Strip(t.user), t.stamp), TurnBody(Assistant, Strip(t.assistant), t.stamp);
    var after := Save(db, workspace, t).db;
    SessionsKeepHome(db, session, asked, answered, workspace, turn);
    SavePairKeeps(db, session, asked, answered, Some(workspace), turn);
    if turn.Some? {
      SavedPairIsFound(db, session, asked, answered, Some(workspace), turn.value);
    }
    if !LookupOf(db, turn, workspace).Pair? {
      forall key, ws
        ensures Rows(after, key, ws) == [] || (|Rows(after, key, ws)| == 2 && LookupPair(after, key, ws).Pair?)
        ensures LookupPair(db, key, ws).Pair? ==> LookupPair(after, key, ws).Pair?
      {
        OneTurnKeepsPair(db, session, asked, answered, workspace, turn, key, ws);
      }
    }
  }

  lemma OneTurnKeepsPair(
    db: Db, session: string, asked: Body, answered: Body, home: string, turn: Option<string>, key: string, ws: string)
    requires Ready(db) && PairsOnly(db) && session in db.sessions && home != ""
    requires asked.role == User && answered.role == Assistant
    requires SavePair(db, session, asked, answered, Some(home), turn).Ok? && !LookupOf(db, turn, home).Pair?
    ensures var after := SavePair(db, session, asked, answered, Some(home), turn).db;
            && (Rows(after, key, ws) == [] || (|Rows(after, key, ws)| == 2 && LookupPair(after, key, ws).Pair?))
            && (LookupPair(db, key, ws).Pair? ==> LookupPair(after, key, ws).Pair?)
  {
    var after := SavePair(db, session, asked, answered, Some(home), turn).db;
    SavingAddsOwnRows(db, session, asked, answered, home, turn, key, ws);
    if turn == Some(key) && ws == home {
      SavedPairIsFound(db, session, asked, answered, Some(home), key);
      OwnTurnWasEmpty(db, key, home);
    } else {
      assert Rows(after, key, ws) == Rows(db, key, ws);
      SameRowsSameLookup(db, after, key, ws);
    }
  }

  lemma OwnTurnWasEmpty(db: Db, key: string, home: string)
    requires PairsOnly(db) && !LookupPair(db, key, home).Pair?
    ensures Rows(db, key, home) == []
  {
  }

  lemma SameRowsSameLookup(db: Db, after: Db, key: string, ws: string)
    requires PairsOnly(db) && Rows(after, key, ws) == Rows(db, key, ws)
    ensures LookupPair(after, key, ws) == LookupPair(db, key, ws)
    ensures Rows(after, key, ws) == [] || (|Rows(after, key, ws)| == 2 && LookupPair(after, key, ws).Pair?)
  {
  }

  ghost predicate Kept(w: World) {
    CacheHolds(w) && Ready(w.db) && PairsOnly(w.db) && CachedIsStored(w)
  }

  lemma PersistKeeps(w: World, active: string, t: Transcript)
    requires Kept(w) && ':' !in ActiveWorkspace(active)
    ensures Kept(Persist(w, active, t).0)
  {
    var workspace := ActiveWorkspace(active);
    PersistKeepsCache(w, active, t);
    var (w', reply) := Persist(w, active, t);
    if reply.Saved? {
      SaveKeepsPairs(w.db, workspace, t);
      forall ws, turn | ':' !in ws && CacheKey(ws, turn) in w'.persisted && TurnKey(turn).Some?
        ensures IsStored(w'.db, TurnKey(turn).value, ws)
      {
        if CacheKey(ws, turn) == CacheKey(workspace, t.turn) {
          KeyNamesOneTurn(ws, turn, workspace, t.turn);
        } else {
          assert CacheKey(ws, turn) in w.persisted;
          assert IsStored(w.db, TurnKey(turn).value, ws);
        }
      }
    }
  }

  predicate ColonFree(actions: seq<Action>) {
    forall i :: 0 <= i < |actions| && actions[i].DoPersist? ==> ':' !in ActiveWorkspace(actions[i].active)
  }

  /**
   Main result. Over every run of requests and restarts, set and queue agree and stay within 256 turns, every cached turn
   whose id is not blank is stored, and for every workspace and turn key at most one pair is ever stored, evictions and
   lost caches included.
   */
  lemma {:induction false} EveryRunKeeps(w: World, actions: seq<Action>)
    requires Kept(w) && ColonFree(actions)
    ensures Kept(Run(w, actions))
    decreases |actions|
  {
    if actions != [] {
      var front, last := actions[..|actions| - 1], actions[|actions| - 1];
      EveryRunKeeps(w, front);
      if last.DoPersist? {
        assert last == actions[|front|];
        PersistKeeps(Run(w, front), last.active, last.t);
      }
    }
  }

  /** A duplicate of a turn with a key is answered only where the database holds the turn. */
  lemma DuplicateIsStored(w: World, actions: seq<Action>, active: string, t: Transcript)
    requires Kept(w) && ColonFree(actions) && ':' !in ActiveWorkspace(active)
    requires Persist(Run(w, actions), active, t).1 == Duplicate && TurnKey(t.turn).Some?
    ensures IsStored(Run(w, actions).db, TurnKey(t.turn).value, ActiveWorkspace(active))
  {
    EveryRunKeeps(w, actions);
  }

  /** The tables a new database starts with satisfy what the runs keep. */
  lemma FirstIsKept()
    ensures Kept(World(FIRST, {}, []))
  {
    FirstIsGood();
    assert forall key, ws :: Rows(FIRST, key, ws) == [];
    assert Elements([]) == {};
  }

  /** After a restart the same request is stored again exactly when its turn id is blank. */
  lemma SecondCallStoresNothingIff(w: World, active: string, t: Transcript)
    requires Persist(w, active, t).1 == Saved
    ensures var once := Persist(w, active, t).0;
            var (twice, reply) := Persist(Step(once, DoRestart), active, t);
            reply == Saved && (twice.db == once.db <==> TurnKey(t.turn).Some?)
  {
    hide SavePair, LookupPair;
    var once := Persist(w, active, t).0;
    SessionStaysOpen(w, active, t);
    if TurnKey(t.turn).Some? {
      SavingAgainIsIdempotent(
        w.db, Strip(t.session), TurnBody(User, Strip(t.user), t.stamp), TurnBody(Assistant, Strip(t.assistant), t.stamp),
        Some(ActiveWorkspace(active)), TurnKey(t.turn).value,
        Strip(t.session), TurnBody(User, Strip(t.user), t.stamp), TurnBody(Assistant, Strip(t.assistant), t.stamp));
    } else {
      BlankTurnIsStoredAgain(w, active, t);
    }
  }

  /** The session a pair was saved to still belongs to the workspace. */
  lemma SessionStaysOpen(w: World, active: string, t: Transcript)
    requires Persist(w, active, t).1 == Saved
    ensures var db := Persist(w, active, t).0.db;
            && Strip(t.session) in db.sessions
            && Normalize(db.sessions[Strip(t.session)].workspace) == ActiveWorkspace(active)
  {
  }

  // ---------------------------------------------------------------- where it does not hold

  /** One workspace is the other, a colon and a beginning that the other's turn id repeats. */
  predicate Nested(ws: string, turn: string, ws': string, turn': string) {
    |ws| < |ws'| && ws'[..|ws| + 1] == ws + ":" && turn == ws'[|ws| + 1..] + ":" + turn'
  }

  lemma LongerNamesNest(ws: string, turn: string, ws': string, turn': string)
    requires |ws| < |ws'|
    ensures CacheKey(ws, turn) == CacheKey(ws', turn') <==> Nested(ws, turn, ws', turn')
  {
    var k, k' := CacheKey(ws, turn), CacheKey(ws', turn');
    assert k == (ws + ":") + turn;
    if Nested(ws, turn, ws', turn') {
      assert ws' == ws'[..|ws| + 1] + ws'[|ws| + 1..];
      assert k == (ws + ":") + (ws'[|ws| + 1..] + ":" + turn');
      assert k' == k;
    }
    if k == k' {
      assert ws'[..|ws| + 1] == k'[..|ws| + 1] == k[..|ws| + 1] == ws + ":";
      assert turn == k[|ws| + 1..] && k'[|ws| + 1..] == ws'[|ws| + 1..] + ":" + turn';
    }
  }

  /** Exactly when two turns share a cache key. */
  lemma KeyIsSharedIff(ws: string, turn: string, ws': string, turn': string)
    ensures CacheKey(ws, turn) == CacheKey(ws', turn') && (ws, turn) != (ws', turn')
            <==> Nested(ws, turn, ws', turn') || Nested(ws', turn', ws, turn)
  {
    if |ws| < |ws'| {
      LongerNamesNest(ws, turn, ws', turn');
    } else if |ws'| < |ws| {
      LongerNamesNest(ws', turn', ws, turn);
    } else {
      var k, k' := CacheKey(ws, turn), CacheKey(ws', turn');
      assert k[..|ws|] == ws && k'[..|ws'|] == ws' && k[|ws| + 1..] == turn && k'[|ws'| + 1..] == turn';
    }
  }

  /** A stored turn whose key is shared makes the other turn a duplicate, whatever the database holds for that. */
  lemma SharedKeyIsDuplicate(w: World, active: string, t: Transcript, active': string, t': Transcript)
    requires Persist(w, active, t).1 == Saved && CacheHolds(w) && t'.workspace == None
    requires CacheKey(ActiveWorkspace(active), t.turn) == CacheKey(ActiveWorkspace(active'), t'.turn)
    ensures Persist(Persist(w, active, t).0, active', t').1 == Duplicate
  {
    var key := CacheKey(ActiveWorkspace(active), t.turn);
    var order := w.order + [key];
    PersistKeepsCache(w, active, t);
    assert Bounded(order)[|Bounded(order)| - 1] == key;
    assert Strip("") == "";
  }

  /** Two workspaces, "a:b" and "a", with a session each. */
  const TWO_ROOMS := Db(
    [],
    map["r" := Session(Some("a:b"), None, None, 0, 0), "s" := Session(Some("a"), None, None, 0, 0)],
    map[DEFAULT := Workspace(DEFAULT, DEFAULT, None, 0),
        "a:b" := Workspace("a:b", DEFAULT, None, 0), "a" := Workspace("a", DEFAULT, None, 0)],
    {DEFAULT})

  const FIRST_TURN := Transcript(None, "r", "c", "hi", "hello", 0)

  const OTHER_TURN := Transcript(None, "s", "b:c", "hi", "hello", 0)

  lemma PlainNames()
    ensures Strip("a:b") == "a:b" && Strip("a") == "a" && Strip("c") == "c" && Strip("b:c") == "b:c" && Strip("") == ""
    ensures Strip("hi") == "hi" && Strip("hello") == "hello" && Strip("r") == "r" && Strip("s") == "s"
  {
  }

  /** The second turn is called a duplicate though nothing is stored for it; on its own it would have been saved. */
  lemma ColonsConfuse()
    ensures var w := World(TWO_ROOMS, {}, []);
            var (once, reply) := Persist(w, "a:b", FIRST_TURN);
            && reply == Saved
            && Persist(once, "a", OTHER_TURN) == (once, Duplicate)
            && LookupPair(once.db, "b:c", "a") == NoPair
            && Persist(w, "a", OTHER_TURN).1 == Saved
  {
    PlainNames();
    var w := World(TWO_ROOMS, {}, []);
    var once := Persist(w, "a:b", FIRST_TURN).0;
    assert CacheKey("a:b", "c") == "a:b:c" && CacheKey("a", "b:c") == "a:b:c";
    assert Elements([]) == {};
    SharedKeyIsDuplicate(w, "a:b", FIRST_TURN, "a", OTHER_TURN);
    var added := once.db.messages;
    assert added == PairRows(1, "r", Some("c"), TurnBody(User, "hi", 0), TurnBody(Assistant, "hello", 0));
    NotItsTurn(once.db.sessions, added[0], added[1], "b:c", "a");
  }

  /** A blank turn id is accepted but is no key: once its cache entry is lost, the same request is stored again. */
  lemma BlankTurnIsStoredAgain(w: World, active: string, t: Transcript)
    requires TurnKey(t.turn).None? && Persist(w, active, t).1 == Saved
    ensures var once := Persist(w, active, t).0;
            var (twice, reply) := Persist(Step(once, DoRestart), active, t);
            reply == Saved && |once.db.messages| == |w.db.messages| + 2 && |twice.db.messages| == |once.db.messages| + 2
  {
  }
}
