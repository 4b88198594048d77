/** The guard in front of the user pages (`ProtectedRoute`). On mount it
    refreshes the user and the company status from the server when a session
    is held, showing a spinner meanwhile; then it renders the nested route or
    redirects to the login page, the admin home or the company setup page. */
module ProtectedRoute {
  import opened Common
  import opened Json
  import opened Api
  import opened Browser
  import opened AuthStore
  import AdminRoute

  /** The company status that lets a user in. */
  const ActiveStatus: string := "active"

  /** The render decision chain. */
  function Decide(loading: bool, isAuthenticated: bool, isAdmin: bool, companyOk: bool): (r: Screen)
    ensures r == Spinner <==> loading
    ensures !loading && !isAuthenticated ==> r == Redirect(LoginPath)
    ensures !loading && isAuthenticated && isAdmin ==> r == Redirect(AdminDashboardPath)
    ensures !loading && isAuthenticated && !isAdmin && !companyOk ==> r == Redirect(CompanySetupPath)
    ensures r == Outlet <==> !loading && isAuthenticated && !isAdmin && companyOk
  {
    if loading then Spinner
    else if !isAuthenticated then Redirect(LoginPath)
    else if isAdmin then Redirect(AdminDashboardPath)
    else if !companyOk then Redirect(CompanySetupPath)
    else Outlet
  }

  /** The two guards never send a signed-in user back and forth: whoever one
      guard sends to the other's area is let in, or sent on to a page that
      neither guard covers. */
  lemma GuardsAgree(isAdmin: bool, companyOk: bool)
    ensures Decide(false, true, isAdmin, companyOk) == Redirect(AdminDashboardPath) ==>
      AdminRoute.Decide(true, isAdmin) == Outlet
    ensures AdminRoute.Decide(true, isAdmin) == Redirect(DashboardPath) ==>
      Decide(false, true, isAdmin, companyOk) in {Outlet, Redirect(CompanySetupPath)}
  {
  }

  class Guard {
    var loading: bool
    var companyOk: bool
    const auth: AuthState

    constructor (auth: AuthState)
      ensures this.auth == auth
      ensures loading && !companyOk
    {
      this.auth := auth;
      loading, companyOk := true, false;
    }

    function Render(): Screen
      reads this, auth
    {
      Decide(loading, auth.isAuthenticated, auth.isAdmin, companyOk)
    }

    /** The mount effect with its `checkStatus` call: `getMe` then
        `getCompanyStatus`; their results go to the store; any failure signs
        the session out. Loading ends in every case. */
    method CheckStatus(me: Reply<User>, status: Reply<string>) returns (calls: seq<Call>)
      requires auth.Valid()
      modifies this, auth, auth.storage
      ensures !loading && auth.Valid()
      ensures !old(auth.isAuthenticated) ==>
        calls == [] && companyOk == old(companyOk) &&
        auth.storage.items == old(auth.storage.items) &&
        auth.token == old(auth.token) && auth.user == old(auth.user) &&
        auth.isAdmin == old(auth.isAdmin) && !auth.isAuthenticated &&
        auth.companyStatus == old(auth.companyStatus)
      ensures old(auth.isAuthenticated) ==>
        calls == if me.Ok? then [GetMe, GetCompanyStatus] else [GetMe]
      ensures old(auth.isAuthenticated) && me.Ok? && status.Ok? ==>
        auth.storage.items == old(auth.storage.items)[UserKey := EncodeUser(me.value)] &&
        auth.user == Some(me.value) && auth.companyStatus == Some(status.value) &&
        auth.token == old(auth.token) && auth.isAdmin == old(auth.isAdmin) &&
        auth.isAuthenticated &&
        companyOk == (status.value == ActiveStatus)
      ensures old(auth.isAuthenticated) && !(me.Ok? && status.Ok?) ==>
        auth.storage.items == WithoutSession(old(auth.storage.items)) &&
        auth.SignedOut() && companyOk == old(companyOk)
    {
      if !auth.isAuthenticated {
        loading := false;
        return [];
      }
      calls := [GetMe];
      ghost var before := auth.storage.items;
      if me.Ok? {
        auth.SetUser(me.value);
        calls := calls + [GetCompanyStatus];
        if status.Ok? {
          auth.SetCompanyStatus(status.value);
          companyOk := status.value == ActiveStatus;
        } else {
          auth.Logout();
          assert WithoutSession(before[UserKey := EncodeUser(me.value)]) == WithoutSession(before);
        }
      } else {
        auth.Logout();
      }
      loading := false;
    }
  }

  /** Opening a user page once the stored session has been loaded: the
      spinner shows until the check ends, a failed check always ends on the
      login page, and the page itself renders exactly for a restored non-admin
      session whose company the server reports `active`. */
  method Visit(items: map<string, string>, me: Reply<User>, status: Reply<string>)
    returns (first: Screen, last: Screen, calls: seq<Call>)
    ensures first == Spinner && last != Spinner
    ensures calls != [] <==> LoadOutcomeOf(items).Restored?
    ensures !LoadOutcomeOf(items).Restored? ==> last == Redirect(LoginPath)
    ensures !(me.Ok? && status.Ok?) ==> last == Redirect(LoginPath)
    ensures last == Outlet <==>
      LoadOutcomeOf(items).Restored? && !LoadOutcomeOf(items).isAdmin &&
      me.Ok? && status.Ok? && status.value == ActiveStatus
  {
    var storage := new Storage(items);
    var auth := new AuthState(storage);
    auth.LoadFromStorage();
    var guard := new Guard(auth);
    first := guard.Render();
    calls := guard.CheckStatus(me, status);
    last := guard.Render();
  }
}
