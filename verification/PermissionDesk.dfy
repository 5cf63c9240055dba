/** The permission maps as fields of the socket server; every method is the step of the run model. */
module PermissionDesk {
  import opened Wrappers
  import opened Permissions

  class Desk {
    var sids: map<Id, Sid>
    var tools: map<Id, string>
    var scopes: map<Id, string>
    var answered: seq<Answered>
    var waiting: set<Id>
    var remembered: map<(string, string), bool>
    ghost var registrations: multiset<Id>
    ghost var grants: seq<Grant>

    ghost function View(): World
      reads this
    {
      World(sids, tools, scopes, answered, waiting, remembered, registrations, grants)
    }

    constructor ()
      ensures View() == NEW
    {
      sids, tools, scopes, answered := map[], map[], map[], [];
      waiting, remembered := {}, map[];
      registrations, grants := multiset{}, [];
    }

    method RequestPermission(id: Id, sid: Sid, tool: string, scope: string, forgets: bool)
      modifies this
      ensures View() == Register(old(View()), id, sid, tool, scope, forgets)
    {
      waiting := waiting + {id};
      if forgets {
        answered := Without(answered, Some(id), None);
      }
      tools := tools[id := tool];
      scopes := scopes[id := scope];
      sids := sids[id := sid];
      registrations := registrations + multiset{id};
    }

    /** The policy engine's part: false when nobody waits for this request any more. */
    method ResolvePending(id: Id, allowed: bool, remember: bool, tool: string, scope: string, ghost sid: Sid)
      returns (resolved: bool)
      modifies this`waiting, this`remembered, this`grants
      ensures resolved == (id in old(waiting))
      ensures !resolved ==> View() == old(View())
      ensures resolved ==>
                && waiting == old(waiting) - {id}
                && remembered == (if remember && tool != "" then old(remembered)[(tool, scope) := allowed]
                                  else old(remembered))
                && grants == old(grants) + [Grant(id, sid, allowed)]
    {
      if id !in waiting {
        return false;
      }
      if remember && tool != "" {
        remembered := remembered[(tool, scope) := allowed];
      }
      waiting := waiting - {id};
      grants := grants + [Grant(id, sid, allowed)];
      return true;
    }

    /** Takes the oldest entries out until the bound holds. */
    method EvictOldest()
      modifies this`answered
      ensures answered == Bounded(old(answered))
    {
      var n := |answered|;
      while |answered| > MAX_ANSWERED
        invariant |answered| <= n == |old(answered)|
        invariant answered == old(answered)[n - |answered|..]
        invariant |answered| < n ==> |answered| >= MAX_ANSWERED
      {
        answered := answered[1..];
      }
    }

    method OnPermissionResponse(sid: Sid, id: Id, allowed: bool, remember: bool, stored: bool) returns (reply: Reply)
      modifies this
      ensures (View(), reply) == Respond(old(View()), sid, id, allowed, remember, stored)
    {
      var earlier := Position(answered, id);
      if earlier.Some? {
        var entry := answered[earlier.value];
        if entry.sid != sid {
          return Mismatch;
        }
        return Replayed(entry.ack);
      }
      if id == "" || id !in sids {
        return Unknown;
      }
      if sids[id] != sid {
        return Mismatch;
      }
      var tool, scope := if id in tools then tools[id] else "", if id in scopes then scopes[id] else "";
      if id in waiting && !stored {
        return NotApplied;
      }
      var resolved := ResolvePending(id, allowed, remember, tool, scope, sid);
      if !resolved {
        return Unknown;
      }
      sids := sids - {id};
      tools := tools - {id};
      scopes := scopes - {id};
      answered := answered + [Answered(id, sid, Ack(id))];
      EvictOldest();
      return Accepted(Ack(id));
    }

    method ForgetOne(id: Id)
      modifies this`sids, this`tools, this`scopes
      ensures sids == old(sids) - {id} && tools == old(tools) - {id} && scopes == old(scopes) - {id}
    {
      sids := sids - {id};
      tools := tools - {id};
      scopes := scopes - {id};
    }

    /** Cancels every pending request of a client and drops its replay entries. */
    method ClearPermissionRequests(sid: Sid)
      modifies this
      ensures View() == Disconnect(old(View()), sid)
    {
      ghost var before, ids := View(), RequestsOf(View(), sid);
      ForgetNone(before);
      var todo := sids.Keys;
      ghost var done: set<Id> := {};
      while todo != {}
        invariant done == ids - todo && todo <= sids.Keys <= before.sids.Keys
        invariant View() == Forget(before, done).(waiting := before.waiting - done)
      {
        var id :| id in todo;
        if sids[id] == sid {
          waiting := waiting - {id};
          ForgetOne(id);
          ForgetOneMore(before, done, id);
          done := done + {id};
        }
        todo := todo - {id};
      }
      assert done == ids;
      answered := Without(answered, None, Some(sid));
    }

    /** The end of a tool call whose cancellation signal was set. */
    method ForgetToolRequests(ids: set<Id>)
      modifies this
      ensures View() == Forget(old(View()), ids)
    {
      ghost var before := View();
      ForgetNone(before);
      var todo := ids;
      ghost var done: set<Id> := {};
      while todo != {}
        invariant done == ids - todo && todo <= ids
        invariant View() == Forget(before, done)
      {
        var id :| id in todo;
        ForgetOne(id);
        ForgetOneMore(before, done, id);
        done := done + {id};
        todo := todo - {id};
      }
      assert done == ids;
    }
  }

  lemma ForgetNone(w: World)
    ensures Forget(w, {}) == w && w.waiting - {} == w.waiting
  {
    assert w.sids - {} == w.sids && w.tools - {} == w.tools && w.scopes - {} == w.scopes;
  }

  lemma ForgetOneMore(w: World, done: set<Id>, id: Id)
    ensures w.sids - done - {id} == w.sids - (done + {id})
    ensures w.tools - done - {id} == w.tools - (done + {id})
    ensures w.scopes - done - {id} == w.scopes - (done + {id})
    ensures w.waiting - done - {id} == w.waiting - (done + {id})
  {
  }
}
