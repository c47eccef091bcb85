/** The handles of running agents, by chat id. */
module HandleRegistry {
  import opened Prelude
  import opened Chats

  /** A handle, by the lineage it was made for; its chat id is the last of that lineage. */
  type Handle = ChatPath

  type Handles = map<Uuid, Handle>

  function Selected(handles: Handles, keep: Handle -> bool): set<Handle> {
    set id | id in handles && keep(handles[id]) :: handles[id]
  }

  function Subtree(handles: Handles, root: Uuid): set<Handle> {
    Selected(handles, (h: Handle) => RootId(h) == root)
  }

  function Find(handles: Handles, id: Uuid): Option<Handle> {
    if id in handles then Some(handles[id]) else None
  }

  /** The source's hash map hands these out in no particular order, hence sets. */
  class Registry {
    var handles: Handles

    constructor ()
      ensures handles == map[]
    {
      handles := map[];
    }

    method Insert(handle: Handle) returns (previous: Option<Handle>)
      modifies this
      ensures handles == old(handles)[Current(handle) := handle]
      ensures previous == Find(old(handles), Current(handle))
    {
      previous := Find(handles, Current(handle));
      handles := handles[Current(handle) := handle];
    }

    method Remove(id: Uuid) returns (previous: Option<Handle>)
      modifies this
      ensures handles == old(handles) - {id}
      ensures previous == Find(old(handles), id)
    {
      previous := Find(handles, id);
      handles := handles - {id};
    }
  }
}
