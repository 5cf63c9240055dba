/**
 Permission requests and replies: three maps of pending requests that must stay correlated, the policy engine's waiting
 futures behind them, and a bounded map of answered requests that replays acknowledgements.
 */
module Permissions {
  import opened Wrappers

  type Sid = string

  type Id = string

  datatype Ack = Ack(id: Id)

  /** An answered request: who answered it and what the answer was acknowledged with. */
  datatype Answered = Answered(id: Id, sid: Sid, ack: Ack)

  datatype Grant = Grant(id: Id, sid: Sid, allowed: bool)

  const MAX_ANSWERED := 256

  /**
   `answered` keeps insertion order. `registrations` counts how often each id was registered, `grants` lists every
   resolution the policy engine accepted, `remembered` the decisions kept per tool and scope.
   */
  datatype World = World(
    sids: map<Id, Sid>,
    tools: map<Id, string>,
    scopes: map<Id, string>,
    answered: seq<Answered>,
    waiting: set<Id>,
    remembered: map<(string, string), bool>,
    registrations: multiset<Id>,
    grants: seq<Grant>)

  const NEW := World(map[], map[], map[], [], {}, map[], multiset{}, [])

  datatype Reply = Accepted(ack: Ack) | Replayed(ack: Ack) | Mismatch | Unknown | NotApplied

  // ---------------------------------------------------------------- the replay map

  function Position(answered: seq<Answered>, id: Id): (i: Option<nat>)
    ensures i.Some? ==> i.value < |answered| && answered[i.value].id == id
    ensures i.None? ==> forall j :: 0 <= j < |answered| ==> answered[j].id != id
  {
    if answered == [] then None
    else if answered[|answered| - 1].id == id then Some(|answered| - 1)
    else Position(answered[..|answered| - 1], id)
  }

  /** Entries of one client, or of one id, taken out; the order of the others stays. */
  function Without(answered: seq<Answered>, id: Option<Id>, sid: Option<Sid>): (r: seq<Answered>)
    ensures |r| <= |answered|
    ensures forall a :: a in r <==> a in answered && id != Some(a.id) && sid != Some(a.sid)
  {
    if answered == [] then []
    else
      var front, last := Without(answered[..|answered| - 1], id, sid), answered[|answered| - 1];
      if id == Some(last.id) || sid == Some(last.sid) then front else front + [last]
  }

  /** The oldest entries give way. */
  function Bounded(answered: seq<Answered>): seq<Answered> {
    if |answered| > MAX_ANSWERED then answered[|answered| - MAX_ANSWERED..] else answered
  }

  // ---------------------------------------------------------------- the steps

  /** `forgets` tells the callbacks that also drop a replay entry of the same id from the one that does not. */
  function Register(w: World, id: Id, sid: Sid, tool: string, scope: string, forgets: bool): World {
    w.(sids := w.sids[id := sid],
       tools := w.tools[id := tool],
       scopes := w.scopes[id := scope],
       answered := if forgets then Without(w.answered, Some(id), None) else w.answered,
       waiting := w.waiting + {id},
       registrations := w.registrations + multiset{id})
  }

  function Forget(w: World, ids: set<Id>): World {
    w.(sids := w.sids - ids, tools := w.tools - ids, scopes := w.scopes - ids)
  }

  /** `stored` is false when writing the policy store raises, which undoes the decision. */
  function Respond(w: World, sid: Sid, id: Id, allowed: bool, remember: bool, stored: bool): (World, Reply) {
    var earlier := Position(w.answered, id);
    if earlier.Some? then
      var entry := w.answered[earlier.value];
      (w, if entry.sid != sid then Mismatch else Replayed(entry.ack))
    else if id == "" || id !in w.sids then (w, Unknown)
    else if w.sids[id] != sid then (w, Mismatch)
    else if id !in w.waiting then (w, Unknown)
    else if !stored then (w, NotApplied)
    else
      var tool, scope := if id in w.tools then w.tools[id] else "", if id in w.scopes then w.scopes[id] else "";
      (Forget(w, {id}).(
         answered := Bounded(w.answered + [Answered(id, sid, Ack(id))]),
         waiting := w.waiting - {id},
         remembered := if remember && tool != "" then w.remembered[(tool, scope) := allowed] else w.remembered,
         grants := w.grants + [Grant(id, sid, allowed)]),
       Accepted(Ack(id)))
  }

  function RequestsOf(w: World, sid: Sid): set<Id> {
    set id | id in w.sids && w.sids[id] == sid
  }

  function Disconnect(w: World, sid: Sid): World {
    var ids := RequestsOf(w, sid);
    Forget(w, ids).(waiting := w.waiting - ids, answered := Without(w.answered, None, Some(sid)))
  }

  datatype Action =
    | DoRegister(id: Id, sid: Sid, tool: string, scope: string, forgets: bool)
    | DoRespond(sid: Sid, id: Id, allowed: bool, remember: bool, stored: bool)
    | DoDisconnect(sid: Sid)
    | DoToolCancelled(ids: set<Id>)
    | DoGiveUp(id: Id)

  /** `DoGiveUp` is the executor that stops waiting for an answer. */
  function Step(w: World, a: Action): World {
    match a
    case DoRegister(id, sid, tool, scope, forgets) => Register(w, id, sid, tool, scope, forgets)
    case DoRespond(sid, id, allowed, remember, stored) => Respond(w, sid, id, allowed, remember, stored).0
    case DoDisconnect(sid) => Disconnect(w, sid)
    case DoToolCancelled(ids) => Forget(w, ids)
    case DoGiveUp(id) => w.(waiting := w.waiting - {id})
  }

  function Run(w: World, actions: seq<Action>): World
    decreases |actions|
  {
    if actions == [] then w else Step(Run(w, actions[..|actions| - 1]), actions[|actions| - 1])
  }

  // ---------------------------------------------------------------- what every run keeps

  ghost predicate Correlated(w: World) {
    w.sids.Keys == w.tools.Keys == w.scopes.Keys
  }

  predicate DistinctIds(answered: seq<Answered>) {
    forall i, j :: 0 <= i < j < |answered| ==> answered[i].id != answered[j].id
  }

  /** At most 256 entries, one per id, each with the acknowledgement of its own id. */
  ghost predicate Replays(answered: seq<Answered>) {
    && |answered| <= MAX_ANSWERED
    && DistinctIds(answered)
    && forall a :: a in answered ==> a.ack == Ack(a.id)
  }

  function GrantsOf(grants: seq<Grant>, id: Id): nat {
    if grants == [] then 0
    else GrantsOf(grants[..|grants| - 1], id) + if grants[|grants| - 1].id == id then 1 else 0
  }

  /** Resolutions and the request still pending together never exceed the registrations. */
  ghost predicate Counted(w: World) {
    forall id {:trigger GrantsOf(w.grants, id)} ::
      GrantsOf(w.grants, id) + (if id in w.sids then 1 else 0) <= w.registrations[id]
  }

  lemma {:induction false} WithoutKeepsReplays(answered: seq<Answered>, id: Option<Id>, sid: Option<Sid>)
    requires Replays(answered)
    ensures Replays(Without(answered, id, sid))
  {
    if answered != [] {
      var front, last := answered[..|answered| - 1], answered[|answered| - 1];
      WithoutKeepsReplays(front, id, sid);
      forall a | a in Without(front, id, sid) ensures a.id != last.id {
        assert a in front;
      }
    }
  }

  lemma AnsweringKeepsReplays(answered: seq<Answered>, id: Id, sid: Sid)
    requires Replays(answered) && Position(answered, id).None?
    ensures Replays(Bounded(answered + [Answered(id, sid, Ack(id))]))
  {
    var all := answered + [Answered(id, sid, Ack(id))];
    assert DistinctIds(all);
    assert forall a :: a in Bounded(all) ==> a in all;
  }

  lemma CountingOneMore(grants: seq<Grant>, g: Grant, id: Id)
    ensures GrantsOf(grants + [g], id) == GrantsOf(grants, id) + if g.id == id then 1 else 0
  {
    assert (grants + [g])[..|grants|] == grants;
  }

  lemma RespondKeepsCounted(w: World, sid: Sid, id: Id, allowed: bool, remember: bool, stored: bool)
    requires Counted(w)
    ensures Counted(Respond(w, sid, id, allowed, remember, stored).0)
  {
    var (w', reply) := Respond(w, sid, id, allowed, remember, stored);
    if reply.Accepted? {
      forall other ensures GrantsOf(w'.grants, other) + (if other in w'.sids then 1 else 0) <= w'.registrations[other] {
        CountingOneMore(w.grants, Grant(id, sid, allowed), other);
        assert GrantsOf(w.grants, other) >= 0;
      }
    }
  }

  ghost predicate Kept(w: World) {
    Correlated(w) && Replays(w.answered) && Counted(w)
  }

  lemma StepKeeps(w: World, a: Action)
    requires Kept(w)
    ensures Kept(Step(w, a))
  {
    match a
    case DoRegister(id, sid, tool, scope, forgets) =>
      WithoutKeepsReplays(w.answered, Some(id), None);
      forall other ensures GrantsOf(w.grants, other) + (if other in w.sids[id := sid] then 1 else 0)
                        <= (w.registrations + multiset{id})[other] {}
    case DoRespond(sid, id, allowed, remember, stored) =>
      RespondKeepsCounted(w, sid, id, allowed, remember, stored);
      if Position(w.answered, id).None? {
        AnsweringKeepsReplays(w.answered, id, sid);
      }
    case DoDisconnect(sid) => WithoutKeepsReplays(w.answered, None, Some(sid));
    case DoToolCancelled(ids) =>
    case DoGiveUp(id) =>
  }

  /**
   Main result. In every run the three maps have the same keys, the replay map holds at most 256 acknowledgements, each
   that of its own id, and no registration is resolved twice: an id is resolved at most as often as it was registered.
   */
  lemma {:induction false} EveryRunKeeps(w: World, actions: seq<Action>)
    requires Kept(w)
    ensures Kept(Run(w, actions))
    decreases |actions|
  {
    if actions != [] {
      EveryRunKeeps(w, actions[..|actions| - 1]);
      StepKeeps(Run(w, actions[..|actions| - 1]), actions[|actions| - 1]);
    }
  }

  lemma NewIsKept()
    ensures Kept(NEW)
  {
  }

  // ---------------------------------------------------------------- replies

  /** The client a pending request belongs to is the one that registered it last. */
  function Registrant(actions: seq<Action>, id: Id): Option<Sid> {
    if actions == [] then None
    else
      var last := actions[|actions| - 1];
      if last.DoRegister? && last.id == id then Some(last.sid) else Registrant(actions[..|actions| - 1], id)
  }

  lemma {:induction false} PendingIsRegistrants(actions: seq<Action>, id: Id)
    requires id in Run(NEW, actions).sids
    ensures Registrant(actions, id) == Some(Run(NEW, actions).sids[id])
  {
    var front, last := actions[..|actions| - 1], actions[|actions| - 1];
    if !(last.DoRegister? && last.id == id) {
      PendingIsRegistrants(front, id);
    }
  }

  /** Only the client that registered the request can resolve it, and with it decide for its tool and scope. */
  lemma OnlyTheRegistrantResolves(
    actions: seq<Action>, sid: Sid, id: Id, allowed: bool, remember: bool, stored: bool)
    ensures var w := Run(NEW, actions);
            var (w', reply) := Respond(w, sid, id, allowed, remember, stored);
            && (reply.Accepted? ==> Registrant(actions, id) == Some(sid) && id in w.waiting)
            && (!reply.Accepted? ==> w' == w)
            && (reply.Accepted? ==> id in w.tools && id in w.scopes)
            && (reply.Accepted? ==>
                  forall k :: k in w'.remembered && k != (w.tools[id], w.scopes[id]) ==>
                    k in w.remembered && w'.remembered[k] == w.remembered[k])
  {
    NewIsKept();
    EveryRunKeeps(NEW, actions);
    if id in Run(NEW, actions).sids {
      PendingIsRegistrants(actions, id);
    }
  }

  lemma {:induction false} OneEntry(answered: seq<Answered>, entry: Answered)
    requires DistinctIds(answered) && entry in answered
    ensures Position(answered, entry.id).Some? && answered[Position(answered, entry.id).value] == entry
  {
  }

  /**
   While its entry is kept, an answered request is only replayed: the same client gets the original acknowledgement,
   every other client a mismatch, and nothing changes.
   */
  lemma ReplayIsHarmless(w: World, entry: Answered, sid: Sid, allowed: bool, remember: bool, stored: bool)
    requires Kept(w) && entry in w.answered
    ensures Respond(w, sid, entry.id, allowed, remember, stored)
         == (w, if sid == entry.sid then Replayed(Ack(entry.id)) else Mismatch)
  {
    OneEntry(w.answered, entry);
  }

  /** An accepted answer is the newest entry of the replay map. */
  lemma AcceptedIsKept(w: World, sid: Sid, id: Id, allowed: bool, remember: bool, stored: bool)
    requires Kept(w) && Respond(w, sid, id, allowed, remember, stored).1.Accepted?
    ensures var (w', reply) := Respond(w, sid, id, allowed, remember, stored);
            w'.answered != [] && w'.answered[|w'.answered| - 1] == Answered(id, sid, reply.ack)
  {
  }

  // ---------------------------------------------------------------- fresh identifiers

  /** Identifiers are drawn at random for every evaluation, so no two registrations carry the same. */
  predicate FreshIds(actions: seq<Action>) {
    forall i, j :: 0 <= i < j < |actions| && actions[i].DoRegister? && actions[j].DoRegister? ==>
      actions[i].id != actions[j].id
  }

  predicate Registers(actions: seq<Action>, id: Id) {
    exists i :: 0 <= i < |actions| && actions[i].DoRegister? && actions[i].id == id
  }

  lemma RegistersSnoc(actions: seq<Action>, id: Id)
    requires actions != []
    ensures var n := |actions| - 1;
            Registers(actions, id) <==> Registers(actions[..n], id) || (actions[n].DoRegister? && actions[n].id == id)
  {
    var n := |actions| - 1;
    if Registers(actions[..n], id) {
      var i :| 0 <= i < n && actions[..n][i].DoRegister? && actions[..n][i].id == id;
      assert actions[i] == actions[..n][i];
    }
    if Registers(actions, id) {
      var i :| 0 <= i <= n && actions[i].DoRegister? && actions[i].id == id;
      assert i < n ==> actions[..n][i] == actions[i];
    }
  }

  lemma LastIsFresh(actions: seq<Action>)
    requires actions != [] && FreshIds(actions)
    ensures var n := |actions| - 1;
            FreshIds(actions[..n]) && (actions[n].DoRegister? ==> !Registers(actions[..n], actions[n].id))
  {
  }

  lemma {:induction false} RegisteredOnce(actions: seq<Action>, id: Id)
    requires FreshIds(actions)
    ensures Run(NEW, actions).registrations[id] == if Registers(actions, id) then 1 else 0
  {
    if actions != [] {
      hide FreshIds, Registers;
      LastIsFresh(actions);
      RegistersSnoc(actions, id);
      RegisteredOnce(actions[..|actions| - 1], id);
    } else {
      assert !Registers(actions, id);
    }
  }

  /** Every replay entry stands for a resolution. */
  ghost predicate EntriesGranted(w: World) {
    forall a {:trigger a in w.answered} :: a in w.answered ==> GrantsOf(w.grants, a.id) >= 1
  }

  lemma RespondKeepsEntries(w: World, sid: Sid, id: Id, allowed: bool, remember: bool, stored: bool)
    requires EntriesGranted(w)
    ensures EntriesGranted(Respond(w, sid, id, allowed, remember, stored).0)
  {
    var (w', reply) := Respond(w, sid, id, allowed, remember, stored);
    if reply.Accepted? {
      forall a | a in w'.answered ensures GrantsOf(w'.grants, a.id) >= 1 {
        CountingOneMore(w.grants, Grant(id, sid, allowed), a.id);
        assert a in w.answered || a.id == id;
      }
    }
  }

  lemma {:induction false} RunKeepsEntries(actions: seq<Action>)
    ensures EntriesGranted(Run(NEW, actions))
  {
    if actions != [] {
      var before, a := Run(NEW, actions[..|actions| - 1]), actions[|actions| - 1];
      RunKeepsEntries(actions[..|actions| - 1]);
      if a.DoRespond? { RespondKeepsEntries(before, a.sid, a.id, a.allowed, a.remember, a.stored); }
    }
  }

  lemma PositionIsGranted(w: World, id: Id)
    requires EntriesGranted(w)
    ensures Position(w.answered, id).Some? ==> GrantsOf(w.grants, id) >= 1
  {
    var i := Position(w.answered, id);
    assert i.Some? ==> w.answered[i.value] in w.answered;
  }

  /** With fresh identifiers each registration is resolved at most once, and after that it is pending no more. */
  lemma EachIdIsResolvedOnce(actions: seq<Action>, id: Id)
    requires FreshIds(actions)
    ensures var w := Run(NEW, actions);
            && GrantsOf(w.grants, id) <= (if Registers(actions, id) then 1 else 0)
            && (GrantsOf(w.grants, id) == 1 ==> id !in w.sids)
  {
    NewIsKept();
    EveryRunKeeps(NEW, actions);
    RegisteredOnce(actions, id);
  }

  /**
   Exactly when a reply is accepted. With fresh identifiers no replay entry stands in the way of a pending request, so
   the registrant's reply is accepted if and only if the policy engine still waits and the decision can be stored.
   */
  lemma AcceptedIff(actions: seq<Action>, sid: Sid, id: Id, allowed: bool, remember: bool, stored: bool)
    requires FreshIds(actions)
    ensures var w := Run(NEW, actions);
            Respond(w, sid, id, allowed, remember, stored).1.Accepted?
            <==> && id != "" && id in w.sids && Registrant(actions, id) == Some(sid)
                 && id in w.waiting && stored
  {
    var w := Run(NEW, actions);
    if id in w.sids {
      PendingIsRegistrants(actions, id);
      RunKeepsEntries(actions);
      NewIsKept();
      EveryRunKeeps(NEW, actions);
      RegisteredOnce(actions, id);
      assert GrantsOf(w.grants, id) == 0;
      PositionIsGranted(w, id);
    }
  }
}
