/**
 * `RoleGuard` (src/components/layout/RoleGuard.tsx): a page wrapper that
 * shows its children only to the allowed roles and sends everybody else
 * who is signed in to a fallback page. The user and the loading flag come
 * from the `useUser` hook; the role is the user's own.
 */
module RoleGuard {
  import opened Wrappers
  import opened Database

  /** What the guard renders. */
  datatype GuardView = LoadingIndicator | Blank | Content

  /** `fallbackPath = '/technician/today'` */
  const DefaultFallback: string := "/technician/today"

  /** The guard's props; `withRoleGuard` forwards its roles and fallback here unchanged. */
  datatype GuardProps = GuardProps(allowedRoles: seq<UserRole>, fallbackPath: Option<string>)

  /** The render: the indicator while loading, the children for an allowed role, nothing otherwise. */
  function Render(isLoading: bool, user: Option<User>, props: GuardProps): (v: GuardView)
    ensures v == LoadingIndicator <==> isLoading
    ensures v == Content <==> !isLoading && user.Some? && user.value.role in props.allowedRoles
    ensures v == Blank <==> !isLoading && (user.None? || user.value.role !in props.allowedRoles)
  {
    if isLoading then LoadingIndicator
    else if user.None? || user.value.role !in props.allowedRoles then Blank
    else Content
  }

  /** The effect: a signed-in user whose role is not allowed is sent to the fallback, once loading is over. */
  function Redirect(isLoading: bool, user: Option<User>, props: GuardProps): (r: Option<string>)
    ensures r.Some? <==> !isLoading && user.Some? && user.value.role !in props.allowedRoles
    ensures r.Some? ==> r.value == props.fallbackPath.GetOr(DefaultFallback)
    ensures r.Some? && props.fallbackPath.None? ==> r.value == DefaultFallback
  {
    if !isLoading && user.Some? && user.value.role !in props.allowedRoles then
      Some(props.fallbackPath.GetOr(DefaultFallback))
    else None
  }

  /**
   * Once loading is over, a signed-in user either sees the children or is
   * redirected, never both; whoever is redirected sees nothing meanwhile,
   * and with nobody signed in the guard neither shows nor redirects.
   */
  lemma GuardSettles(user: Option<User>, props: GuardProps)
    ensures user.Some? ==> (Render(false, user, props) == Content) != Redirect(false, user, props).Some?
    ensures Redirect(false, user, props).Some? ==> Render(false, user, props) == Blank
    ensures user.None? ==> Render(false, user, props) == Blank && Redirect(false, user, props).None?
  {
  }

  /** While loading, the guard neither shows the children nor redirects. */
  lemma LoadingHidesAndWaits(user: Option<User>, props: GuardProps)
    ensures Render(true, user, props) == LoadingIndicator && Redirect(true, user, props).None?
  {
  }
}
