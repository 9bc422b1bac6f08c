/**
 * The browser's localStorage as the core uses it: a string-keyed store whose
 * values are kept as typed data rather than JSON text.
 */
module Session {
  import opened Wrappers

  /** The signed-in identity persisted under `user` (AuthContext's `User`). */
  datatype User = User(id: string, email: string, name: Option<string>)

  /** What the core writes: a user record, a list of event ids, or plain text. */
  datatype Stored = UserRecord(user: User) | IdList(ids: seq<string>) | Text(text: string)

  const UserKey: string := "user"
  const JoinedEventsKey: string := "joinedEvents"
  const BrowsingLockedKey: string := "browsing_locked"
  const MapboxTokenKey: string := "mapbox_token"

  /** The keys a logout removes. */
  const SessionKeys: set<string> := {UserKey, JoinedEventsKey, BrowsingLockedKey}

  class LocalStorage {
    var entries: map<string, Stored>

    constructor (initial: map<string, Stored>)
      ensures entries == initial
    {
      entries := initial;
    }

    method SetItem(key: string, value: Stored)
      modifies this
      ensures entries == old(entries)[key := value]
    {
      entries := entries[key := value];
    }

    method RemoveItem(key: string)
      modifies this
      ensures entries == old(entries) - {key}
    {
      entries := entries - {key};
    }
  }

  /** The user the load effect restores: present only when a user record is stored. */
  function StoredUser(entries: map<string, Stored>): (r: Option<User>)
    ensures r.Some? ==> UserKey in entries && entries[UserKey] == UserRecord(r.value)
    ensures UserKey !in entries ==> r == None
  {
    if UserKey in entries && entries[UserKey].UserRecord? then Some(entries[UserKey].user) else None
  }

  /** The joined list EventDetail loads: the stored list, or `[]` when the key is absent. */
  function StoredJoinedEvents(entries: map<string, Stored>): (r: seq<string>)
    ensures JoinedEventsKey !in entries ==> r == []
    ensures JoinedEventsKey in entries && entries[JoinedEventsKey].IdList? ==> r == entries[JoinedEventsKey].ids
  {
    if JoinedEventsKey in entries && entries[JoinedEventsKey].IdList? then entries[JoinedEventsKey].ids else []
  }

  /** The store after a logout. */
  function AfterLogout(entries: map<string, Stored>): (r: map<string, Stored>)
    ensures r.Keys == entries.Keys - SessionKeys
    ensures forall k :: k in r ==> r[k] == entries[k]
    ensures MapboxTokenKey in entries ==> MapboxTokenKey in r && r[MapboxTokenKey] == entries[MapboxTokenKey]
    ensures StoredUser(r) == None && StoredJoinedEvents(r) == [] && BrowsingLockedKey !in r
  {
    entries - SessionKeys
  }

  /** A second logout changes nothing. */
  lemma LogoutIdempotent(entries: map<string, Stored>)
    ensures AfterLogout(AfterLogout(entries)) == AfterLogout(entries)
  {
  }
}
