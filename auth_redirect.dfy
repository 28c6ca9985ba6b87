/** AuthRedirect: the wrapper around the login and signup pages that sends a
    signed-in user to their dashboard. */
module AuthRedirect {
  import opened Common

  /** The stored user object, as far as the decision reads it. */
  datatype StoredUser = StoredUser(role: Option<string>)

  /** What the wrapper renders: its children, or a `<Navigate>`. */
  datatype Route = RenderChildren | Navigate(to: string, replace: bool)

  const ADMIN_HOME: string := "/admin/dashboard"
  const USER_HOME: string := "/user/dashboard"

  /** The decision on the parsed `localStorage` "user" entry (`None` for a
      missing entry, which parses to `null`). */
  function Decide(user: Option<StoredUser>): (route: Route)
    ensures user.None? <==> route == RenderChildren
    ensures user.Some? ==> route.Navigate? && route.replace
    ensures user.Some? && user.value.role == Some("admin") ==> route.to == ADMIN_HOME
    ensures user.Some? && user.value.role != Some("admin") ==> route.to == USER_HOME
  {
    match user
    case None => RenderChildren
    case Some(u) => Navigate(if u.role == Some("admin") then ADMIN_HOME else USER_HOME, true)
  }

  /** The role test is exact: an upper-case "ADMIN", like a missing role, goes
      to the user dashboard. */
  lemma RoleMatchIsExact(role: Option<string>)
    requires role != Some("admin")
    ensures Decide(Some(StoredUser(role))) == Navigate(USER_HOME, true)
  {
  }
}
