/** Authentication and authorization of a request: the checks that turn a
    bearer token's decoded payload into the current user, and the role guard
    with its three nested role lists. Token decoding is outside the model: its
    outcome is a parameter (`None` when the token does not decode). */
module Auth {
  import opened Common
  import opened Documents

  const InvalidCredentials := HttpError(401, "Invalid authentication credentials")
  const UserNotFound := HttpError(401, "User not found")
  const InactiveUser := HttpError(403, "Inactive user")
  const InsufficientPermissions := HttpError(403, "Insufficient permissions")
  /** `ObjectId(user_id)` raising on a subject that is not an ObjectId text. */
  const MalformedSubject := HttpError(500, "Internal Server Error")

  /** `payload.get("sub")`: absent and null read alike. */
  function Subject(payload: Doc): Option<Json> {
    if "sub" in payload && payload["sub"] != JNull then Some(payload["sub"]) else None
  }

  /** `user.get("is_active", True)` read as Python does: a missing flag is active. */
  predicate Active(user: Doc) {
    Truthy(Get(user, "is_active", JBool(true)))
  }

  /** The user a request acts as, or the error it is refused with: the checks in
      order are the payload, its subject, the subject as an ObjectId, the
      stored user, and the active flag. */
  function GetCurrentUser(payload: Option<Doc>, users: seq<Doc>): (r: Result<Doc>)
    ensures payload.None? ==> r == Err(InvalidCredentials)
    ensures payload.Some? && Subject(payload.value).None? ==> r == Err(InvalidCredentials)
    ensures payload.Some? && Subject(payload.value).Some? ==>
      var sub := Subject(payload.value).value;
      && (!(sub.JStr? && IsValidObjectId(sub.s)) ==> r == Err(MalformedSubject))
      && (sub.JStr? && IsValidObjectId(sub.s) && FindById(users, sub.s).None? ==> r == Err(UserNotFound))
      && (sub.JStr? && IsValidObjectId(sub.s) && FindById(users, sub.s).Some? ==>
            r == if Active(FindById(users, sub.s).value) then Ok(FindById(users, sub.s).value) else Err(InactiveUser))
    ensures r.Ok? ==>
      && payload.Some? && Subject(payload.value).Some?
      && Subject(payload.value).value.JStr? && IsValidObjectId(Subject(payload.value).value.s)
      && r.value in users
      && "_id" in r.value && r.value["_id"] == JOid(Lower(Subject(payload.value).value.s))
      && Active(r.value)
  {
    if payload.None? then Err(InvalidCredentials)
    else match Subject(payload.value)
      case None => Err(InvalidCredentials)
      case Some(sub) =>
        if !(sub.JStr? && IsValidObjectId(sub.s)) then Err(MalformedSubject)
        else match FindById(users, sub.s)
          case None => Err(UserNotFound)
          case Some(user) =>
            if !Active(user) then Err(InactiveUser) else Ok(user)
  }

  /** The refusals, case by case: an unknown user is 401, an explicitly
      inactive one 403, and a user without the flag passes. */
  lemma GetCurrentUserRefusals(payload: Doc, users: seq<Doc>)
    requires Subject(payload).Some? && Subject(payload).value.JStr? && IsValidObjectId(Subject(payload).value.s)
    ensures FindById(users, Subject(payload).value.s).None? ==> GetCurrentUser(Some(payload), users) == Err(UserNotFound)
    ensures FindById(users, Subject(payload).value.s).Some? ==>
      var user := FindById(users, Subject(payload).value.s).value;
      && ("is_active" in user && !Truthy(user["is_active"]) ==> GetCurrentUser(Some(payload), users) == Err(InactiveUser))
      && ("is_active" !in user ==> GetCurrentUser(Some(payload), users) == Ok(user))
  {
  }

  /** The role check of `require_role(allowed)`, after the user check. */
  function RequireRole(allowed: seq<string>, current: Result<Doc>): (r: Result<Doc>)
    ensures current.Err? ==> r == current
    ensures current.Ok? ==>
      var role := Get(current.value, "role", JNull);
      (r == current <==> role.JStr? && role.s in allowed)
      && (r != current ==> r == Err(InsufficientPermissions))
  {
    if current.Err? then current
    else
      var role := Get(current.value, "role", JNull);
      if role.JStr? && role.s in allowed then current else Err(InsufficientPermissions)
  }

  const AdminRoles: seq<string> := ["admin"]
  const LibrarianRoles: seq<string> := ["admin", "librarian"]
  const MemberRoles: seq<string> := ["admin", "librarian", "member"]

  /** A guard that allows more roles lets through every user a narrower one
      does, unchanged. */
  lemma {:induction false} RequireRoleWidens(narrow: seq<string>, wide: seq<string>, current: Result<Doc>)
    requires forall x :: x in narrow ==> x in wide
    requires RequireRole(narrow, current).Ok?
    ensures RequireRole(wide, current) == RequireRole(narrow, current)
  {
    var role := Get(current.value, "role", JNull);
    assert role.JStr? && role.s in narrow;
  }

  /** admin ⊆ librarian ⊆ member: passing the admin guard implies passing the
      librarian guard, which implies passing the member guard. */
  lemma RolesNested(current: Result<Doc>)
    ensures RequireRole(AdminRoles, current).Ok? ==> RequireRole(LibrarianRoles, current).Ok?
    ensures RequireRole(LibrarianRoles, current).Ok? ==> RequireRole(MemberRoles, current).Ok?
  {
    if RequireRole(AdminRoles, current).Ok? {
      RequireRoleWidens(AdminRoles, LibrarianRoles, current);
    }
    if RequireRole(LibrarianRoles, current).Ok? {
      RequireRoleWidens(LibrarianRoles, MemberRoles, current);
    }
  }

  /** The member guard refuses a user with no recognised role, such as one
      with no role at all. */
  lemma UnknownRoleRefused(user: Doc)
    requires "role" !in user
    ensures RequireRole(MemberRoles, Ok(user)) == Err(InsufficientPermissions)
  {
  }
}
