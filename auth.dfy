/** The authentication provider: a user registry kept in the browser under
    `soozai_users`, the logged-in user under `soozai_current_user`, and the
    React state `user` / `isAuthenticated` mirrored in the fields of
    `AuthProvider`. Passwords are stored and compared in clear, as the
    source does. */
module Auth {
  import opened Base
  import opened Text
  import opened ChatModel
  import opened Browser
  import UserStore

  const LOGIN_INVALID: string := "Invalid email or password"
  const LOGIN_FAILED: string := "Login failed"
  const EMAIL_REGISTERED: string := "Email already registered"
  const REGISTRATION_FAILED: string := "Registration failed"
  const GOOGLE_FAILED: string := "Google login failed"

  /** `{ success: true, user }` or `{ success: false, error }`. */
  datatype AuthResult = Ok(user: UserObj) | Err(message: string)

  /** What the Google sign-in hands over. */
  datatype GoogleProfile = GoogleProfile(email: string, name: string, picture: string, sub: string)

  /** `localStorage.getItem('soozai_users') || '[]'`, parsed; `None` when the
      stored text does not parse (the parse throws). */
  function LoadUsers(s: Stored<seq<UserObj>>): (r: Option<seq<UserObj>>)
    ensures r.None? <==> s.Corrupt?
    ensures s.Missing? ==> r == Some([])
    ensures s.Value? ==> r == Some(s.value)
  {
    match s
    case Missing => Some([])
    case Corrupt => None
    case Value(users) => Some(users)
  }

  function HasEmail(email: string): UserObj -> bool {
    (u: UserObj) => Get(u, "email") == Some(Str(email))
  }

  /** `u => u.email === email && u.password === password`. */
  function Matches(email: string, password: string): UserObj -> bool {
    (u: UserObj) => Get(u, "email") == Some(Str(email)) && Get(u, "password") == Some(Str(password))
  }

  /** `u => u.email === email && u.provider === 'google'`. */
  function GoogleAccount(email: string): UserObj -> bool {
    (u: UserObj) => Get(u, "email") == Some(Str(email)) && Get(u, "provider") == Some(Str("google"))
  }

  /** `u => u.id === id`, where both sides may be undefined. */
  function SameId(id: Option<Field>): UserObj -> bool {
    (u: UserObj) => Get(u, "id") == id
  }

  /** `users.some(u => u.email === email)`. */
  predicate EmailTaken(users: seq<UserObj>, email: string) {
    exists k :: 0 <= k < |users| && HasEmail(email)(users[k])
  }

  /** `const { password: _, ...rest } = u`. */
  function StripPassword(u: UserObj): (r: UserObj)
    ensures "password" !in r
    ensures r.Keys == u.Keys - {"password"}
    ensures forall key :: key in r ==> r[key] == u[key]
  {
    u - {"password"}
  }

  /** `email.split('@')[0]`: the text before the first `@`, or the whole
      address when it has none. */
  function EmailLocalPart(email: string): (r: string)
    ensures '@' !in r
    ensures StartsWith(email, r)
    ensures '@' !in email ==> r == email
  {
    LocalPartIsPrefix(email);
    Split(email, '@')[0]
  }

  lemma LocalPartIsPrefix(email: string)
    ensures StartsWith(email, Split(email, '@')[0])
    ensures '@' !in email ==> Split(email, '@')[0] == email
  {
    JoinSplit(email, '@');
    JoinHeadPrefix(Split(email, '@'), "@");
    if '@' !in email {
      SplitNoSep(email, '@');
    }
  }

  /** The first piece of a join is a prefix of it. */
  lemma JoinHeadPrefix(parts: seq<string>, sep: string)
    requires |parts| >= 1
    ensures StartsWith(Join(parts, sep), parts[0])
  {
    if |parts| > 1 {
      assert Join(parts, sep) == parts[0] + (sep + Join(parts[1..], sep));
    }
  }

  /** `name || email.split('@')[0]`. */
  function DisplayName(name: Option<string>, email: string): (r: string)
    ensures IsSet(name) ==> r == name.value
    ensures !IsSet(name) ==> r == EmailLocalPart(email)
  {
    if IsSet(name) then name.value else EmailLocalPart(email)
  }

  /** The id of an email account: `user_<millis>_<random>`. */
  function EmailUserId(millis: string, random: string): (id: string)
    ensures |id| == 6 + |millis| + |random|
    ensures StartsWith(id, "user_") && id[5..5 + |millis|] == millis
  {
    "user_" + millis + "_" + random
  }

  /** The id of a Google account: `user_google_<sub>_<millis>`. */
  function GoogleUserId(sub: string, millis: string): (id: string)
    ensures |id| == 13 + |sub| + |millis|
    ensures StartsWith(id, "user_google_") && id[12..12 + |sub|] == sub
  {
    "user_google_" + sub + "_" + millis
  }

  /** An email account's id, whose time stamp starts with a digit, never
      looks like a Google account's id. */
  lemma EmailIdIsNotGoogleId(millis: string, random: string, sub: string, gmillis: string)
    requires millis != [] && '0' <= millis[0] <= '9'
    ensures EmailUserId(millis, random) != GoogleUserId(sub, gmillis)
  {
    assert EmailUserId(millis, random)[5] == millis[0];
    assert GoogleUserId(sub, gmillis)[5] == 'g';
  }

  function NewEmailUser(id: Id, email: string, password: string, name: Option<string>, now: Time): (u: UserObj)
    ensures Get(u, "id") == Some(Str(id)) && Get(u, "email") == Some(Str(email))
    ensures Get(u, "password") == Some(Str(password)) && Get(u, "provider") == Some(Str("email"))
    ensures Get(u, "name") == Some(Str(DisplayName(name, email)))
    ensures Get(u, "profilePicture") == Some(Null)
  {
    map["id" := Str(id), "email" := Str(email), "password" := Str(password),
        "name" := Str(DisplayName(name, email)), "provider" := Str("email"),
        "createdAt" := Str(now), "profilePicture" := Null]
  }

  function NewGoogleUser(id: Id, g: GoogleProfile, now: Time): (u: UserObj)
    ensures Get(u, "id") == Some(Str(id)) && Get(u, "email") == Some(Str(g.email))
    ensures Get(u, "provider") == Some(Str("google")) && Get(u, "googleId") == Some(Str(g.sub))
    ensures "password" !in u
  {
    map["id" := Str(id), "email" := Str(g.email), "name" := Str(g.name),
        "profilePicture" := Str(g.picture), "provider" := Str("google"),
        "googleId" := Str(g.sub), "createdAt" := Str(now)]
  }

  /** The data initializeUserData writes: no chats, default settings, and a
      profile stamped with the user id and `now`. */
  function UserInitialData(userId: Id, now: Time): (d: Snapshot)
    ensures d.chats == [] && d.currentChatId.None? && d.settings == DefaultSettings()
    ensures d.profile == Some(Profile(Some(userId), now))
  {
    InitialSnapshot(Some(Profile(Some(userId), now)))
  }

  /** The users as registered: no two share an email address. */
  predicate UniqueEmails(users: seq<UserObj>) {
    forall j, k :: 0 <= j < k < |users| && Get(users[j], "email").Some? ==>
      Get(users[j], "email") != Get(users[k], "email")
  }

  /** Registration refuses a taken address, so it keeps addresses unique. */
  lemma RegisterKeepsEmailsUnique(users: seq<UserObj>, u: UserObj, email: string)
    requires UniqueEmails(users) && !EmailTaken(users, email)
    requires Get(u, "email") == Some(Str(email))
    ensures UniqueEmails(users + [u])
  {
    var s := users + [u];
    forall j, k | 0 <= j < k < |s| && Get(s[j], "email").Some?
      ensures Get(s[j], "email") != Get(s[k], "email")
    {
      if k == |users| {
        assert s[j] == users[j] && !HasEmail(email)(users[j]);
      } else {
        assert s[j] == users[j] && s[k] == users[k];
      }
    }
  }

  /** A Google sign-in with an address already registered by email creates a
      second account for that address: only Google accounts are looked up. */
  lemma GoogleLoginDuplicatesEmail(users: seq<UserObj>, g: GoogleProfile, id: Id, now: Time)
    requires EmailTaken(users, g.email)
    requires Find(users, GoogleAccount(g.email)).None?
    ensures !UniqueEmails(users + [NewGoogleUser(id, g, now)])
  {
    var k :| 0 <= k < |users| && HasEmail(g.email)(users[k]);
    var s := users + [NewGoogleUser(id, g, now)];
    assert s[k] == users[k] && s[|users|] == NewGoogleUser(id, g, now);
    assert Get(s[k], "email") == Get(s[|users|], "email");
  }

  /** A freshly registered address and password log in as the new account. */
  lemma RegisterThenLogin(users: seq<UserObj>, id: Id, email: string, password: string, name: Option<string>, now: Time)
    requires !EmailTaken(users, email)
    ensures Find(users + [NewEmailUser(id, email, password, name, now)], Matches(email, password))
      == Some(NewEmailUser(id, email, password, name, now))
  {
    var u := NewEmailUser(id, email, password, name, now);
    var s := users + [u];
    forall k | 0 <= k < |users| ensures !Matches(email, password)(s[k]) {
      assert s[k] == users[k] && !HasEmail(email)(users[k]);
    }
    assert Matches(email, password)(s[|users|]);
  }

  /** After registering, the per-user store sees the new account as the
      logged-in user, and its data as empty. */
  lemma RegisteredUserStartsEmpty(data: map<string, Stored<Snapshot>>, millis: string, random: string,
                                  email: string, password: string, name: Option<string>, now: Time, later: Time)
    ensures var id := EmailUserId(millis, random);
      var session := StripPassword(NewEmailUser(id, email, password, name, now));
      UserStore.CurrentUserId(Value(session)) == Some(id)
      && UserStore.Loaded(data[UserStore.UserStorageKey(id) := Value(UserInitialData(id, now))], Some(id), later)
         == UserInitialData(id, now)
  {
    var id := EmailUserId(millis, random);
    var session := StripPassword(NewEmailUser(id, email, password, name, now));
    assert Get(session, "id") == Some(Str(id));
    assert id != "" by {
      assert |id| >= |"user_"|;
    }
  }

  class AuthProvider {
    const ls: Storage
    var user: Option<UserObj>
    var isAuthenticated: bool
    var loading: bool

    /** The React state agrees with itself and with the stored session. */
    predicate Consistent()
      reads this, ls
    {
      (isAuthenticated <==> user.Some?) && (user.Some? ==> ls.currentUser == Value(user.value))
    }

    constructor (storage: Storage)
      ensures ls == storage && user.None? && !isAuthenticated && loading
      ensures Consistent()
    {
      ls := storage;
      user := None;
      isAuthenticated := false;
      loading := true;
    }

    /** checkAuthStatus: restore the session from `soozai_current_user`; an
        unparsable record is ignored. */
    method CheckAuthStatus()
      modifies this
      ensures !loading
      ensures old(ls.currentUser).Value? ==> user == Some(ls.currentUser.value) && isAuthenticated
      ensures !old(ls.currentUser).Value? ==> user == old(user) && isAuthenticated == old(isAuthenticated)
      ensures old(Consistent()) ==> Consistent()
    {
      if ls.currentUser.Value? {
        user := Some(ls.currentUser.value);
        isAuthenticated := true;
      }
      loading := false;
    }

    /** Log in as `u`: state and stored session. */
    method SignIn(u: UserObj)
      modifies this`user, this`isAuthenticated, ls`currentUser
      ensures user == Some(u) && isAuthenticated && ls.currentUser == Value(u)
      ensures Consistent()
    {
      user := Some(u);
      isAuthenticated := true;
      ls.currentUser := Value(u);
    }

    /** initializeUserData: (over)write the user's data with the initial snapshot. */
    method InitializeUserData(userId: Id, now: Time)
      modifies ls`userData
      ensures ls.userData == old(ls.userData)[UserStore.UserStorageKey(userId) := Value(UserInitialData(userId, now))]
    {
      ls.userData := ls.userData[UserStore.UserStorageKey(userId) := Value(UserInitialData(userId, now))];
    }

    method Login(email: string, password: string) returns (r: AuthResult)
      modifies this`user, this`isAuthenticated, ls`currentUser
      ensures var users := LoadUsers(old(ls.users));
        if users.None? then r == Err(LOGIN_FAILED) && unchanged(this) && unchanged(ls)
        else
          var found := Find(users.value, Matches(email, password));
          if found.None? then r == Err(LOGIN_INVALID) && unchanged(this) && unchanged(ls)
          else (r == Ok(StripPassword(found.value)) && user == Some(r.user) && isAuthenticated
                && ls.currentUser == Value(r.user))
      ensures r.Ok? ==> "password" !in r.user
      ensures old(Consistent()) ==> Consistent()
    {
      var users := LoadUsers(ls.users);
      if users.None? {
        return Err(LOGIN_FAILED);
      }
      var found := Find(users.value, Matches(email, password));
      if found.None? {
        return Err(LOGIN_INVALID);
      }
      var session := StripPassword(found.value);
      SignIn(session);
      r := Ok(session);
    }

    method Register(email: string, password: string, name: Option<string>, millis: string, random: string, now: Time)
      returns (r: AuthResult)
      modifies this`user, this`isAuthenticated, ls`currentUser, ls`users, ls`userData
      ensures var users := LoadUsers(old(ls.users));
        if users.None? then r == Err(REGISTRATION_FAILED) && unchanged(this) && unchanged(ls)
        else if EmailTaken(users.value, email) then r == Err(EMAIL_REGISTERED) && unchanged(this) && unchanged(ls)
        else
          var id := EmailUserId(millis, random);
          var u := NewEmailUser(id, email, password, name, now);
          r == Ok(StripPassword(u))
          && ls.users == Value(users.value + [u])
          && ls.userData == old(ls.userData)[UserStore.UserStorageKey(id) := Value(UserInitialData(id, now))]
          && user == Some(r.user) && isAuthenticated && ls.currentUser == Value(r.user)
      ensures r.Ok? ==> "password" !in r.user
      ensures old(Consistent()) ==> Consistent()
    {
      var users := LoadUsers(ls.users);
      if users.None? {
        return Err(REGISTRATION_FAILED);
      }
      if FindIndex(users.value, HasEmail(email)) != -1 {
        return Err(EMAIL_REGISTERED);
      }
      var id := EmailUserId(millis, random);
      var u := NewEmailUser(id, email, password, name, now);
      ls.users := Value(users.value + [u]);
      InitializeUserData(id, now);
      var session := StripPassword(u);
      SignIn(session);
      r := Ok(session);
    }

    method LoginWithGoogle(g: GoogleProfile, millis: string, now: Time) returns (r: AuthResult)
      modifies this`user, this`isAuthenticated, ls`currentUser, ls`users, ls`userData
      ensures var users := LoadUsers(old(ls.users));
        if users.None? then r == Err(GOOGLE_FAILED) && unchanged(this) && unchanged(ls)
        else
          var found := Find(users.value, GoogleAccount(g.email));
          if found.Some? then
            r == Ok(found.value) && ls.users == old(ls.users) && ls.userData == old(ls.userData)
            && user == Some(r.user) && isAuthenticated && ls.currentUser == Value(r.user)
          else
            var id := GoogleUserId(g.sub, millis);
            var u := NewGoogleUser(id, g, now);
            r == Ok(u) && ls.users == Value(users.value + [u])
            && ls.userData == old(ls.userData)[UserStore.UserStorageKey(id) := Value(UserInitialData(id, now))]
            && user == Some(r.user) && isAuthenticated && ls.currentUser == Value(r.user)
      ensures old(Consistent()) ==> Consistent()
    {
      var users := LoadUsers(ls.users);
      if users.None? {
        return Err(GOOGLE_FAILED);
      }
      var found := Find(users.value, GoogleAccount(g.email));
      var account;
      if found.None? {
        var id := GoogleUserId(g.sub, millis);
        account := NewGoogleUser(id, g, now);
        ls.users := Value(users.value + [account]);
        InitializeUserData(id, now);
      } else {
        account := found.value;
      }
      SignIn(account);
      r := Ok(account);
    }

    method Logout()
      modifies this`user, this`isAuthenticated, ls`currentUser
      ensures user.None? && !isAuthenticated && ls.currentUser.Missing?
      ensures Consistent()
    {
      user := None;
      isAuthenticated := false;
      ls.currentUser := Missing;
    }

    /** updateProfile: merge `updates` into the session user, then into the
        registry entry with the old user's id. `ok` is false where the source
        throws: the registry does not parse (after the session was written).
        Object spread `{...u, ...updates}` is map union `u + updates`, where
        the right operand's fields win. */
    method UpdateProfile(updates: UserObj) returns (ok: bool)
      modifies this`user, ls`currentUser, ls`users
      ensures old(user).None? ==> ok && unchanged(this) && unchanged(ls)
      ensures old(user).Some? ==>
        var updated := old(user).value + updates;
        user == Some(updated) && ls.currentUser == Value(updated)
        && var users := LoadUsers(old(ls.users));
        (users.None? ==> !ok && ls.users == old(ls.users))
        && (users.Some? ==>
              var i := FindIndex(users.value, SameId(Get(old(user).value, "id")));
              ok && ls.users == (if i == -1 then old(ls.users)
                                 else Value(users.value[i := users.value[i] + updates])))
      ensures isAuthenticated == old(isAuthenticated)
      ensures old(Consistent()) ==> Consistent()
    {
      if user.None? {
        return true;
      }
      var previous := user.value;
      var updated := previous + updates;
      user := Some(updated);
      ls.currentUser := Value(updated);
      var users := LoadUsers(ls.users);
      if users.None? {
        return false;
      }
      var i := FindIndex(users.value, SameId(Get(previous, "id")));
      if i != -1 {
        ls.users := Value(users.value[i := users.value[i] + updates]);
      }
      ok := true;
    }
  }
}
