/** The shared `Users` map from chat id to the last location that chat
    shared. The source wraps it in `Arc<RwLock<..>>`; here it is one object
    handled sequentially. */
module Store {
  import opened Domain

  type Entries = map<ChatId, Coord>

  /** `HashMap::get` on a value of the map. */
  function Lookup(entries: Entries, id: ChatId): (r: Option<Coord>)
    ensures r.Some? <==> id in entries
    ensures r.Some? ==> r.value == entries[id]
  {
    if id in entries then Some(entries[id]) else None
  }

  class Users {
    var entries: Entries

    /** `HashMap::new()`: no chat has a location yet. */
    constructor ()
      ensures entries == map[]
    {
      entries := map[];
    }

    /** `contains_key`. */
    predicate ContainsKey(id: ChatId): (b: bool)
      reads this
      ensures b <==> Lookup(entries, id).Some?
    {
      id in entries
    }

    /** `get`, under a read lock in the source. */
    function Get(id: ChatId): (r: Option<Coord>)
      reads this
      ensures r == Lookup(entries, id)
    {
      if ContainsKey(id) then Some(entries[id]) else None
    }

    /** `insert`, under the write lock: the entry for `id` is replaced
        wholesale, every other entry stays as it was. */
    method Insert(id: ChatId, c: Coord)
      modifies this
      ensures entries == old(entries)[id := c]
      ensures Get(id) == Some(c)
      ensures forall k :: k != id ==> Lookup(entries, k) == Lookup(old(entries), k)
    {
      entries := entries[id := c];
    }
  }

  /** Last write wins: a chat that shares `c` and then `d` leaves the store
      as if it had shared only `d`, and a later lookup sees exactly `d`. */
  method InsertTwice(users: Users, id: ChatId, c: Coord, d: Coord)
    modifies users
    ensures users.entries == old(users.entries)[id := d]
    ensures users.Get(id) == Some(d)
  {
    users.Insert(id, c);
    users.Insert(id, d);
  }
}
