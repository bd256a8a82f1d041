/** The login lookup of `handleLogin` and the permission check
    `hasPermission`. */
module Auth {
  import opened PosTypes

  /** The predicate `users.find` is given. */
  predicate Matches(u: User, username: string, password: string) {
    u.username == username && u.password == password
  }

  /** `users.find(u => u.username === username && u.password === password)`,
      as the index of the user found: the first one whose username and
      password both match. */
  function FindUser(users: seq<User>, username: string, password: string): (r: Option<nat>)
    ensures r.Some? ==> r.value < |users| && Matches(users[r.value], username, password)
    ensures r.Some? ==> forall j :: 0 <= j < r.value ==> !Matches(users[j], username, password)
    ensures r.None? ==> forall j :: 0 <= j < |users| ==> !Matches(users[j], username, password)
  {
    if users == [] then None
    else if Matches(users[0], username, password) then Some(0)
    else match FindUser(users[1..], username, password)
      case None => None
      case Some(k) => Some(k + 1)
  }

  /** The user a login attempt signs in, or the failure shown by the error
      message. */
  function Authenticate(users: seq<User>, username: string, password: string): (r: Result<User>)
    ensures r.Ok? ==> r.value in users && Matches(r.value, username, password)
    ensures r.Ok? ==> exists i :: 0 <= i < |users| && r.value == users[i] &&
                        forall j :: 0 <= j < i ==> !Matches(users[j], username, password)
    ensures r.Err? ==> r.error == InvalidCredentials
    ensures r.Err? <==> forall u :: u in users ==> !Matches(u, username, password)
  {
    match FindUser(users, username, password)
    case None => Err(InvalidCredentials)
    case Some(i) => Ok(users[i])
  }

  /** `Array.prototype.includes` on a permission list. */
  function ListIncludes(xs: seq<string>, x: string): (r: bool)
    ensures r <==> x in xs
  {
    xs != [] && (xs[0] == x || ListIncludes(xs[1..], x))
  }

  /** `currentUser?.permissions.includes(permission)`: nobody signed in has no
      permission. */
  function HasPermission(currentUser: Option<User>, permission: string): (r: bool)
    ensures r <==> currentUser.Some? && permission in currentUser.value.permissions
  {
    currentUser.Some? && ListIncludes(currentUser.value.permissions, permission)
  }
}
