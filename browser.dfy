/** The browser's `localStorage`, restricted to the keys this client uses.
    Each field holds what `getItem` followed by `JSON.parse` would yield. */
module Browser {
  import opened Base
  import opened ChatModel

  /** A JSON field of a stored user object. */
  datatype Field = Str(s: string) | Null

  /** A user record as a JSON object, so that spreads (`{...u, ...updates}`)
      and the removal of `password` are modelled literally. */
  type UserObj = map<string, Field>

  /** `u[key]`, where `None` is `undefined`. */
  function Get(u: UserObj, key: string): Option<Field> {
    if key in u then Some(u[key]) else None
  }

  class Storage {
    /** Key `soozai_chat_data`: the global chat store. */
    var chatData: Stored<Snapshot>
    /** Key `soozai_current_user`: the logged-in user. */
    var currentUser: Stored<UserObj>
    /** Key `soozai_users`: every registered user. */
    var users: Stored<seq<UserObj>>
    /** Keys `soozai_user_data_<userId>`: the per-user chat stores; an absent
        key is `Missing`. */
    var userData: map<string, Stored<Snapshot>>

    /** An empty browser profile: no key is set. */
    constructor ()
      ensures chatData == Missing && currentUser == Missing && users == Missing && userData == map[]
    {
      chatData := Missing;
      currentUser := Missing;
      users := Missing;
      userData := map[];
    }
  }

  /** `localStorage.getItem(key)` on the per-user keys, parsed. */
  function Lookup(m: map<string, Stored<Snapshot>>, key: string): Stored<Snapshot> {
    if key in m then m[key] else Missing
  }
}
