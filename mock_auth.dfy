/** The mock authentication service (src/shared/services/mock-auth.service.ts).
    Its two localStorage keys, the users database and the session, become
    fields of the service next to the `authState` signal; JSON encoding is
    not modelled, so a stored value reads back as it was written. */
module MockAuth {
  import opened Wrappers
  import opened Models
  import opened Seqs

  /** A user as kept in the users database: the profile plus the email and
      the optional password it was registered with. */
  datatype StoredUser = StoredUser(user: User, email: string, password: Option<string>)

  /** A user as kept in the session and in `authState`: the password is gone. */
  datatype SessionUser = SessionUser(user: User, email: string)

  function StoredEmail(u: StoredUser): string { u.email }

  /** `const { password, ...sessionUser } = user`. */
  function WithoutPassword(u: StoredUser): (r: SessionUser)
    ensures r.user == u.user && r.email == u.email
  {
    SessionUser(u.user, u.email)
  }

  function HasEmail(email: string): StoredUser -> bool {
    (u: StoredUser) => u.email == email
  }

  function HasCredentials(email: string, password: string): StoredUser -> bool {
    (u: StoredUser) => u.email == email && u.password == Some(password)
  }

  /** `users.find(u => u.email === email)` is truthy. */
  function EmailTaken(users: seq<StoredUser>, email: string): (r: bool)
    ensures r <==> exists j :: 0 <= j < |users| && users[j].email == email
  {
    Find(users, HasEmail(email)).Some?
  }

  /** The session user `login` would store: the first stored user with this
      email and this password, without its password; None when there is none.
      A stored user without a password never matches. */
  function FindLogin(users: seq<StoredUser>, email: string, password: string): (r: Option<SessionUser>)
    ensures r.None? <==> forall j :: 0 <= j < |users| ==> !(users[j].email == email && users[j].password == Some(password))
    ensures r.Some? ==> exists k ::
      && 0 <= k < |users|
      && users[k].email == email && users[k].password == Some(password)
      && (forall j :: 0 <= j < k ==> !(users[j].email == email && users[j].password == Some(password)))
      && r.value == WithoutPassword(users[k])
  {
    match Find(users, HasCredentials(email, password))
    case None => None
    case Some(u) => Some(WithoutPassword(u))
  }

  /** `newUser` in `register`: the given profile with the generated id, the
      email and the password. `stamp` stands for `Date.now()`. */
  function NewUser(userData: User, email: string, password: string, stamp: string): (r: StoredUser)
    ensures r.user.id == "user-" + stamp
    ensures r.user == userData.(id := r.user.id)
    ensures r.email == email && r.password == Some(password)
  {
    StoredUser(userData.(id := "user-" + stamp), email, Some(password))
  }

  /** The login `register` performs finds the user just appended: the email
      was free, so nothing before it matches. */
  lemma {:induction false} RegisteredUserLogsIn(users: seq<StoredUser>, u: StoredUser, password: string)
    requires !EmailTaken(users, u.email)
    requires u.password == Some(password)
    ensures FindLogin(users + [u], u.email, password) == Some(WithoutPassword(u))
  {
    var s := users + [u];
    assert s[|users|] == u;
    var r := FindLogin(s, u.email, password);
    assert r.Some?;
    var k :| 0 <= k < |s| && s[k].email == u.email && s[k].password == Some(password)
      && r.value == WithoutPassword(s[k]);
  }

  class AuthService {
    /** The 'mock_users_db' entry. */
    var usersDb: seq<StoredUser>
    /** The 'mock_session' entry (null when absent). */
    var session: Option<SessionUser>
    /** `authState().user` and `authState().isAuthenticated`. */
    var user: Option<SessionUser>
    var isAuthenticated: bool

    /** The auth state is authenticated exactly when it holds a user, and
        that user is the stored session. */
    predicate Valid()
      reads this
    {
      isAuthenticated == user.Some? && user == session
    }

    /** `currentUser`: present exactly while authenticated, and then the
        session's user. */
    function CurrentUser(): (r: Option<SessionUser>)
      reads this
      ensures Valid() ==> (r.Some? <==> isAuthenticated) && r == session
    {
      user
    }

    /** The service starts unauthenticated and then runs `checkSession`. */
    constructor (usersDb: seq<StoredUser>, session: Option<SessionUser>)
      ensures Valid()
      ensures this.usersDb == usersDb && this.session == session
      ensures user == session && isAuthenticated == session.Some?
    {
      this.usersDb := usersDb;
      this.session := session;
      user := None;
      isAuthenticated := false;
      new;
      CheckSession();
    }

    /** `checkSession`: a stored session authenticates its user; without one
        the state is left as it is. */
    method CheckSession()
      modifies this
      ensures usersDb == old(usersDb) && session == old(session)
      ensures old(session).Some? ==> user == old(session) && isAuthenticated
      ensures old(session).None? ==> user == old(user) && isAuthenticated == old(isAuthenticated)
    {
      if session.Some? {
        user := session;
        isAuthenticated := true;
      }
    }

    /** `login`: succeeds iff a stored user has both the email and the
        password; then that user, without password, becomes the session and
        the auth state. A failed login changes nothing. */
    method Login(email: string, password: string) returns (ok: bool)
      requires Valid()
      modifies this
      ensures Valid()
      ensures ok <==> FindLogin(old(usersDb), email, password).Some?
      ensures ok ==> && user == FindLogin(old(usersDb), email, password)
                     && session == user && isAuthenticated
                     && usersDb == old(usersDb)
      ensures !ok ==> unchanged(this)
    {
      var found := Find(usersDb, HasCredentials(email, password));
      if found.Some? {
        var sessionUser := WithoutPassword(found.value);
        session := Some(sessionUser);
        user := Some(sessionUser);
        isAuthenticated := true;
        return true;
      }
      return false;
    }

    /** `register`: an email already in the database is refused with no
        change; otherwise the new user is appended, saved and logged in. */
    method Register(userData: User, email: string, password: string, stamp: string) returns (ok: bool)
      requires Valid()
      modifies this
      ensures Valid()
      ensures ok <==> !EmailTaken(old(usersDb), email)
      ensures !ok ==> unchanged(this)
      ensures ok ==> && usersDb == old(usersDb) + [NewUser(userData, email, password, stamp)]
                     && user == Some(WithoutPassword(NewUser(userData, email, password, stamp)))
                     && session == user && isAuthenticated
    {
      if EmailTaken(usersDb, email) {
        return false;
      }
      var newUser := NewUser(userData, email, password, stamp);
      RegisteredUserLogsIn(usersDb, newUser, password);
      usersDb := usersDb + [newUser];
      var _ := Login(newUser.email, password);
      return true;
    }

    /** `logout`: the session is removed and the state is unauthenticated. */
    method Logout()
      modifies this
      ensures Valid()
      ensures usersDb == old(usersDb)
      ensures session.None? && user.None? && !isAuthenticated
    {
      session := None;
      user := None;
      isAuthenticated := false;
    }
  }
}
