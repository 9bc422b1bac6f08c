/**
 * The authentication provider: the current user, the loading flag, and the
 * mock `login`, `signup` and `logout` operations backed by localStorage.
 * The 800 ms simulated delay is not modelled; `Date.now()` is the parameter `now`.
 */
module AuthContext {
  import opened Wrappers
  import opened Session
  import Text

  const MinPasswordLength: nat := 6

  /** The mock credential check: only the password length (in UTF-16 units) is examined. */
  predicate PasswordAccepted(password: string) {
    Text.Utf16Length(password) >= MinPasswordLength
  }

  /** The id given to a new session: `user-${Date.now()}`. */
  function SessionId(now: nat): (id: string)
    ensures |id| > 5 && id[..5] == "user-"
    ensures id[5..] == Text.Decimal(now) && Text.DigitsValue(id[5..]) == now
  {
    "user-" + Text.Decimal(now)
  }

  /** Sessions created at different instants get different ids. */
  lemma SessionIdsDistinct(now1: nat, now2: nat)
    requires now1 != now2
    ensures SessionId(now1) != SessionId(now2)
  {
    Text.DecimalInjective(now1, now2);
    assert SessionId(now1)[5..] != SessionId(now2)[5..];
  }

  /** The user `login` creates on success; there is no name, and the email is taken as given. */
  function AttemptLogin(email: string, password: string, now: nat): (r: Option<User>)
    ensures r.Some? <==> Text.Utf16Length(password) >= 6
    ensures r.Some? ==> r.value.email == email && r.value.name == None && r.value.id == SessionId(now)
  {
    if PasswordAccepted(password) then Some(User(SessionId(now), email, None)) else None
  }

  /** The user `signup` creates on success: the same length threshold, and the name is kept. */
  function AttemptSignup(email: string, password: string, name: Option<string>, now: nat): (r: Option<User>)
    ensures r.Some? <==> AttemptLogin(email, password, now).Some?
    ensures r.Some? ==> r.value.email == email && r.value.name == name && r.value.id == SessionId(now)
  {
    if PasswordAccepted(password) then Some(User(SessionId(now), email, name)) else None
  }

  /** Login never looks at the email: two addresses with the same password meet the same fate. */
  lemma LoginIgnoresEmail(email1: string, email2: string, password: string, now: nat)
    ensures AttemptLogin(email1, password, now).Some? == AttemptLogin(email2, password, now).Some?
  {
  }

  class AuthProvider {
    var user: Option<User>
    var isLoading: bool
    const storage: LocalStorage

    constructor (storage: LocalStorage)
      ensures this.storage == storage
      ensures user == None && isLoading
    {
      this.storage := storage;
      user := None;
      isLoading := true;
    }

    /** `!!user`: signed in exactly while a user is held. */
    predicate IsAuthenticated()
      reads this
      ensures IsAuthenticated() <==> user.Some?
    {
      user.Some?
    }

    /** The mount effect: restore a stored user, then stop loading whether or not one was found. */
    method LoadStoredUser()
      modifies this
      ensures !isLoading
      ensures user == (if StoredUser(storage.entries).Some? then StoredUser(storage.entries) else old(user))
      ensures StoredUser(storage.entries).Some? ==> IsAuthenticated()
    {
      var stored := StoredUser(storage.entries);
      if stored.Some? {
        user := stored;
      }
      isLoading := false;
    }

    method Login(email: string, password: string, now: nat) returns (ok: bool)
      modifies this`user, storage
      ensures ok == AttemptLogin(email, password, now).Some?
      ensures ok ==> IsAuthenticated()
      ensures ok ==> (user == AttemptLogin(email, password, now) &&
                      storage.entries == old(storage.entries)[UserKey := UserRecord(user.value)])
      ensures !ok ==> user == old(user) && storage.entries == old(storage.entries)
    {
      if !PasswordAccepted(password) {
        ok := false;
        return;
      }
      var newUser := User(SessionId(now), email, None);
      user := Some(newUser);
      storage.SetItem(UserKey, UserRecord(newUser));
      ok := true;
    }

    method Signup(email: string, password: string, name: Option<string>, now: nat) returns (ok: bool)
      modifies this`user, storage
      ensures ok == AttemptSignup(email, password, name, now).Some?
      ensures ok ==> IsAuthenticated()
      ensures ok ==> (user == AttemptSignup(email, password, name, now) &&
                      storage.entries == old(storage.entries)[UserKey := UserRecord(user.value)])
      ensures !ok ==> user == old(user) && storage.entries == old(storage.entries)
    {
      if !PasswordAccepted(password) {
        ok := false;
        return;
      }
      var newUser := User(SessionId(now), email, name);
      user := Some(newUser);
      storage.SetItem(UserKey, UserRecord(newUser));
      ok := true;
    }

    /** Clears the user and exactly the three session keys; `mapbox_token` and every other key survive. */
    method Logout()
      modifies this`user, storage
      ensures user == None && !IsAuthenticated()
      ensures storage.entries == AfterLogout(old(storage.entries))
    {
      user := None;
      storage.RemoveItem(UserKey);
      storage.RemoveItem(JoinedEventsKey);
      storage.RemoveItem(BrowsingLockedKey);
    }
  }

  /** A successful login or signup survives a reload: the load effect restores the same user. */
  lemma StoredSessionRestores(entries: map<string, Stored>, u: User)
    ensures StoredUser(entries[UserKey := UserRecord(u)]) == Some(u)
  {
  }
}
