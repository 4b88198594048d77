/** The guard in front of the admin pages (`AdminRoute`): a synchronous
    decision over the session's two flags, with no server call. */
module AdminRoute {
  import opened Common

  /** The screen the guard renders. */
  function Decide(isAuthenticated: bool, isAdmin: bool): (r: Screen)
    ensures !isAuthenticated ==> r == Redirect(AdminLoginPath)
    ensures isAuthenticated && !isAdmin ==> r == Redirect(DashboardPath)
    ensures r == Outlet <==> isAuthenticated && isAdmin
    ensures r != Spinner
  {
    if !isAuthenticated then Redirect(AdminLoginPath)
    else if !isAdmin then Redirect(DashboardPath)
    else Outlet
  }
}
