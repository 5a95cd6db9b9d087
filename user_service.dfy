/** The current-user service (src/shared/services/user.service.ts): a
    hard-coded user held in a signal, its display name, and a record merge
    for updates. */
module UserService {
  import opened Wrappers
  import opened Models

  /** `Partial<IUser>`: None is a key the patch does not carry. The optional
      fields can be carried with the value undefined, hence the inner Option. */
  datatype UserPatch = UserPatch(
    id: Option<string>,
    firstName: Option<string>,
    lastName: Option<Option<string>>,
    dateOfBirth: Option<Option<Date>>,
    nickname: Option<Option<string>>)

  const EmptyPatch := UserPatch(None, None, None, None, None)

  function Or<T>(o: Option<T>, d: T): T {
    match o
    case Some(v) => v
    case None => d
  }

  /** `{ ...current, ...patch }`: every key the patch carries wins. */
  function Merge(u: User, p: UserPatch): (r: User)
    ensures p.id.Some? ==> r.id == p.id.value
    ensures p.id.None? ==> r.id == u.id
    ensures p.firstName.Some? ==> r.firstName == p.firstName.value
    ensures p.firstName.None? ==> r.firstName == u.firstName
    ensures p.lastName.Some? ==> r.lastName == p.lastName.value
    ensures p.lastName.None? ==> r.lastName == u.lastName
    ensures p.dateOfBirth.Some? ==> r.dateOfBirth == p.dateOfBirth.value
    ensures p.dateOfBirth.None? ==> r.dateOfBirth == u.dateOfBirth
    ensures p.nickname.Some? ==> r.nickname == p.nickname.value
    ensures p.nickname.None? ==> r.nickname == u.nickname
  {
    User(Or(p.id, u.id), Or(p.firstName, u.firstName), Or(p.lastName, u.lastName),
      Or(p.dateOfBirth, u.dateOfBirth), Or(p.nickname, u.nickname))
  }

  /** The keys of both patches, the later one winning: spreading p then q. */
  function Then(p: UserPatch, q: UserPatch): UserPatch {
    UserPatch(
      if q.id.Some? then q.id else p.id,
      if q.firstName.Some? then q.firstName else p.firstName,
      if q.lastName.Some? then q.lastName else p.lastName,
      if q.dateOfBirth.Some? then q.dateOfBirth else p.dateOfBirth,
      if q.nickname.Some? then q.nickname else p.nickname)
  }

  lemma EmptyPatchIsIdentity(u: User)
    ensures Merge(u, EmptyPatch) == u
  {
  }

  lemma MergeIdempotent(u: User, p: UserPatch)
    ensures Merge(Merge(u, p), p) == Merge(u, p)
  {
  }

  /** Two updates in a row are one update with both patches spread together. */
  lemma MergeThen(u: User, p: UserPatch, q: UserPatch)
    ensures Merge(Merge(u, p), q) == Merge(u, Then(p, q))
  {
  }

  /** `displayName`: a truthy nickname; else "firstName lastName" when the
      last name is truthy; else the first name. */
  function DisplayName(u: User): (r: string)
    ensures Truthy(u.nickname) ==> r == u.nickname.value
    ensures !Truthy(u.nickname) && Truthy(u.lastName) ==> r == u.firstName + " " + u.lastName.value
    ensures !Truthy(u.nickname) && !Truthy(u.lastName) ==> r == u.firstName
  {
    if Truthy(u.nickname) then u.nickname.value
    else if Truthy(u.lastName) then u.firstName + " " + u.lastName.value
    else u.firstName
  }

  /** The display name is empty only when the first name is and neither a
      nickname nor a last name is set. */
  lemma DisplayNameEmpty(u: User)
    ensures DisplayName(u) == "" <==> u.firstName == "" && !Truthy(u.nickname) && !Truthy(u.lastName)
  {
    if !Truthy(u.nickname) && Truthy(u.lastName) {
      assert |DisplayName(u)| == |u.firstName| + 1 + |u.lastName.value|;
    }
  }

  /** Setting a non-empty nickname makes it the display name whatever else
      the user holds. */
  lemma NicknameWins(u: User, nick: string)
    requires nick != ""
    ensures DisplayName(Merge(u, EmptyPatch.(nickname := Some(Some(nick))))) == nick
  {
  }

  /** The hard-coded user: id 'user-1', first and last name, no nickname
      and no date of birth. */
  function InitialUser(): (u: User)
    ensures u.id == "user-1" && u.nickname.None? && u.dateOfBirth.None?
  {
    User("user-1", "משתמש", Some("דוגמה"), None, None)
  }

  lemma InitialDisplayName()
    ensures DisplayName(InitialUser()) == "משתמש דוגמה"
  {
  }

  class UserService {
    /** The `currentUser` signal. */
    var current: User

    constructor ()
      ensures current == InitialUser()
    {
      current := InitialUser();
    }

    /** The `displayName` computed for the current user: its truthy nickname
        wins, and it is empty only when nothing is set. */
    function DisplayNameNow(): (r: string)
      reads this
      ensures Truthy(current.nickname) ==> r == current.nickname.value
      ensures r == "" <==> current.firstName == "" && !Truthy(current.nickname) && !Truthy(current.lastName)
    {
      DisplayNameEmpty(current);
      DisplayName(current)
    }

    /** `updateUser`. */
    method UpdateUser(patch: UserPatch)
      modifies this
      ensures current == Merge(old(current), patch)
    {
      current := Merge(current, patch);
    }
  }
}
