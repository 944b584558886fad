/** The admin login guard of server/src/auth/AdminLoginRoleGuard.ts. */
module AdminRoleGuard {
  import opened Outcomes

  /** The roles allowed through, in the order the guard lists them. */
  const ADMIN_ROLES: seq<string> := ["superAdmin", "admin", "manager"]

  const USER_NOT_FOUND: string := "User not found."
  const ADMINS_ONLY: string := "Access denied. Admins only."

  /** `request.user`, whose `role` may be missing. */
  datatype RequestUser = RequestUser(role: Option<string>)

  datatype ForbiddenException = ForbiddenException(message: string)

  /** `canActivate`: true, or the Forbidden exception it throws. */
  function CanActivate(user: Option<RequestUser>): (r: Outcome<bool, ForbiddenException>)
    ensures r.Ok? ==> r.value
    ensures r.Ok? <==> user.Some? && user.value.role.Some? && user.value.role.value in ADMIN_ROLES
    ensures user.None? ==> r == Err(ForbiddenException(USER_NOT_FOUND))
    ensures user.Some? && r.Err? ==> r == Err(ForbiddenException(ADMINS_ONLY))
  {
    if user.None? then Err(ForbiddenException(USER_NOT_FOUND))
    else if user.value.role.Some? && user.value.role.value in ADMIN_ROLES then Ok(true)
    else Err(ForbiddenException(ADMINS_ONLY))
  }

  /** The guard never answers false: each outcome is true or an exception. */
  lemma NeverFalse(user: Option<RequestUser>)
    ensures CanActivate(user) != Ok(false)
  {
  }

  /** Exactly the three admin roles pass; "user" (the other role of the client's enum) does not. */
  lemma AdminRolesPass(role: string)
    ensures CanActivate(Some(RequestUser(Some(role)))) == Ok(true) <==> role == "superAdmin" || role == "admin" || role == "manager"
    ensures CanActivate(Some(RequestUser(Some("user")))) == Err(ForbiddenException(ADMINS_ONLY))
  {
  }
}
