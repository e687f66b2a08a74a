/**
 * The two route guards. Each is an ordered chain of checks over the
 * authentication state; the first that applies decides what is rendered.
 */
module Routes {
  import opened Common

  /** The location a redirect carries back to the sign-in page. */
  datatype Location = Location(pathname: string)

  /** What a guard renders: the loader, a replacing redirect with its state, or the protected children. */
  datatype Guard =
    | Loader
    | Redirect(to: string, from: Option<Location>, banned: bool)
    | Children

  /** PrivateRoute: loading first, then signed out, then banned. */
  function PrivateRoute(loading: bool, isAuthenticated: bool, isBanned: bool, location: Location): (g: Guard)
    ensures g == Loader <==> loading
    ensures g == Children <==> !loading && isAuthenticated && !isBanned
    ensures !loading && !isAuthenticated ==> g == Redirect("/auth", Some(location), false)
    ensures !loading && isAuthenticated && isBanned ==> g == Redirect("/auth", None, true)
  {
    if loading then Loader
    else if !isAuthenticated then Redirect("/auth", Some(location), false)
    else if isBanned then Redirect("/auth", None, true)
    else Children
  }

  /** AdminRoute: loading first, then signed out, then not an administrator. */
  function AdminRoute(loading: bool, isAuthenticated: bool, isAdmin: bool, location: Location): (g: Guard)
    ensures g == Loader <==> loading
    ensures g == Children <==> !loading && isAuthenticated && isAdmin
    ensures !loading && !isAuthenticated ==> g == Redirect("/auth", Some(location), false)
    ensures !loading && isAuthenticated && !isAdmin ==> g == Redirect("/app", None, false)
  {
    if loading then Loader
    else if !isAuthenticated then Redirect("/auth", Some(location), false)
    else if !isAdmin then Redirect("/app", None, false)
    else Children
  }

  /**
   * The administrator guard does not look at the ban flag: a banned
   * administrator passes it, while the private guard turns the same user away.
   */
  lemma AdminRouteIgnoresBan(location: Location)
    ensures AdminRoute(false, true, true, location) == Children
    ensures PrivateRoute(false, true, true, location) != Children
  {
  }

  /** The two guards send a signed-out visitor to the same place with the same return location. */
  lemma SignedOutAlike(isBanned: bool, isAdmin: bool, location: Location)
    ensures PrivateRoute(false, false, isBanned, location) == AdminRoute(false, false, isAdmin, location)
  {
  }
}
