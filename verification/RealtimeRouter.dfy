/** The transcript endpoint: a cache kept under a lock in front of the repository object. */
module RealtimeRouter {
  import opened Text
  import opened Wrappers
  import opened ChatSchema
  import opened ChatRepository
  import opened TurnCache
  import Repository

  class TranscriptEndpoint {
    const repo: Repository.DatabaseRepository
    var persisted: set<string>
    var order: seq<string>

    constructor (repo: Repository.DatabaseRepository)
      ensures this.repo == repo && persisted == {} && order == []
    {
      this.repo, persisted, order := repo, {}, [];
    }

    ghost function View(): World
      reads this, repo
    {
      World(repo.View(), persisted, order)
    }

    method Remember(key: string)
      modifies this
      ensures order == TurnCache.Bounded(old(order) + [key])
      ensures persisted == old(persisted) + {key} - Dropped(old(order) + [key])
    {
      persisted := persisted + {key};
      order := order + [key];
      ghost var all, before := order, persisted;
      ghost var gone := 0;
      while |order| > MAX_TURNS
        invariant gone <= |all| && order == all[gone..] && (gone > 0 ==> |order| >= MAX_TURNS)
        invariant persisted == before - Elements(all[..gone])
      {
        assert all[..gone + 1] == all[..gone] + [order[0]];
        assert Elements(all[..gone + 1]) == Elements(all[..gone]) + {order[0]};
        persisted := persisted - {order[0]};
        order := order[1..];
        gone := gone + 1;
      }
      assert gone == 0 ==> all[..gone] == [];
    }

    method PersistTranscript(active: string, t: Transcript) returns (reply: Reply)
      modifies this, repo
      ensures (View(), reply) == Persist(old(View()), active, t)
    {
      var workspace := Strip(active);
      if workspace == "" {
        workspace := DEFAULT;
      }
      var requested := Strip(t.workspace.GetOr(""));
      if requested != "" && requested != workspace {
        return WrongWorkspace;
      }
      var key := workspace + ":" + t.turn;
      if key in persisted {
        return Duplicate;
      }
      var session := Strip(t.session);
      if session !in repo.sessions {
        return NoSession;
      }
      if Normalize(repo.sessions[session].workspace) != workspace {
        return WrongWorkspace;
      }
      var user, assistant := Strip(t.user), Strip(t.assistant);
      if user == "" || assistant == "" {
        return TextRequired;
      }
      var error := repo.SaveMessagePair(
        session, TurnBody(User, user, t.stamp), TurnBody(Assistant, assistant, t.stamp), Some(workspace),
        TurnKey(t.turn));
      if error.Some? {
        return NotSaved(error.value);
      }
      Remember(key);
      return Saved;
    }
  }
}
