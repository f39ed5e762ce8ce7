/**
 * The user directory: the fixed in-process user list, the two `users.find`
 * lookups (by credentials at login, by id for the profile) and the public
 * projection served by the user listing.
 */
module Directory {
  import opened Wrappers

  /** A user record as stored, password in plain text. */
  datatype User = User(username: string, password: string, id: int, perfil: string)

  /** A user as listed: the record without its password. */
  datatype PublicUser = PublicUser(id: int, username: string, perfil: string)

  /** The mocked directory. */
  const USERS: seq<User> := [
    User("admin", "senha123", 1, "admin"),
    User("user", "senha456", 2, "user")
  ]

  /** The position of the first element satisfying `p`, as `Array.prototype.find` scans. */
  function FindIndex<T>(s: seq<T>, p: T -> bool): (r: Option<nat>)
    ensures r.Some? ==> r.value < |s| && p(s[r.value])
    ensures r.Some? ==> forall j :: 0 <= j < r.value ==> !p(s[j])
    ensures r.None? <==> forall j :: 0 <= j < |s| ==> !p(s[j])
  {
    if s == [] then None
    else if p(s[0]) then Some(0)
    else match FindIndex(s[1..], p)
      case None => None
      case Some(k) => Some(k + 1)
  }

  /**
   * The login predicate: both fields are present as strings and strictly
   * equal to the stored ones. A missing or non-string field (`None`) equals
   * no stored string.
   */
  predicate Matches(u: User, username: Option<string>, password: Option<string>) {
    username == Some(u.username) && password == Some(u.password)
  }

  /** The first user, in directory order, whose username and password both match. */
  function FindByCredentials(users: seq<User>, username: Option<string>, password: Option<string>): (r: Option<User>)
    ensures r.Some? ==> exists i :: 0 <= i < |users| && users[i] == r.value && Matches(users[i], username, password)
                                   && forall j :: 0 <= j < i ==> !Matches(users[j], username, password)
    ensures r.None? <==> forall i :: 0 <= i < |users| ==> !Matches(users[i], username, password)
  {
    match FindIndex(users, (u: User) => Matches(u, username, password))
    case None => None
    case Some(i) => Some(users[i])
  }

  /** The first user, in directory order, with the given id. */
  function FindById(users: seq<User>, id: int): (r: Option<User>)
    ensures r.Some? ==> exists i :: 0 <= i < |users| && users[i] == r.value && users[i].id == id
                                   && forall j :: 0 <= j < i ==> users[j].id != id
    ensures r.None? <==> forall i :: 0 <= i < |users| ==> users[i].id != id
  {
    match FindIndex(users, (u: User) => u.id == id)
    case None => None
    case Some(i) => Some(users[i])
  }

  function Public(u: User): PublicUser {
    PublicUser(u.id, u.username, u.perfil)
  }

  /** The listing: one entry per user, in directory order, each without its password. */
  function ListUsers(users: seq<User>): (r: seq<PublicUser>)
    ensures |r| == |users|
    ensures forall i :: 0 <= i < |users| ==>
      r[i].id == users[i].id && r[i].username == users[i].username && r[i].perfil == users[i].perfil
  {
    if users == [] then [] else [Public(users[0])] + ListUsers(users[1..])
  }

  /** Two directories that differ at most in passwords. */
  predicate SameButPasswords(a: seq<User>, b: seq<User>) {
    |a| == |b| &&
    forall i :: 0 <= i < |a| ==>
      a[i].id == b[i].id && a[i].username == b[i].username && a[i].perfil == b[i].perfil
  }

  /** The listing reveals nothing about passwords: changing them leaves it unchanged. */
  lemma ListingIgnoresPasswords(a: seq<User>, b: seq<User>)
    requires SameButPasswords(a, b)
    ensures ListUsers(a) == ListUsers(b)
  {
  }

  predicate UniqueUsernames(users: seq<User>) {
    forall i, j :: 0 <= i < |users| && 0 <= j < |users| && users[i].username == users[j].username ==> i == j
  }

  predicate UniqueIds(users: seq<User>) {
    forall i, j :: 0 <= i < |users| && 0 <= j < |users| && users[i].id == users[j].id ==> i == j
  }

  /** With unique usernames, a user's own credentials find that very user. */
  lemma OwnCredentialsFindSelf(users: seq<User>, i: int)
    requires UniqueUsernames(users) && 0 <= i < |users|
    ensures FindByCredentials(users, Some(users[i].username), Some(users[i].password)) == Some(users[i])
  {
  }

  /** With unique ids, looking up a user's id finds that very user. */
  lemma OwnIdFindsSelf(users: seq<User>, i: int)
    requires UniqueIds(users) && 0 <= i < |users|
    ensures FindById(users, users[i].id) == Some(users[i])
  {
  }

  /** The mocked directory has unique usernames and unique ids. */
  lemma MockDirectoryUnique()
    ensures UniqueUsernames(USERS) && UniqueIds(USERS)
  {
  }
}
