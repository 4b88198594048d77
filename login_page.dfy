/** The sign-in form (`LoginPage`): after a local check for empty fields it
    calls `login`, then `getMe`, stores the session, and chooses the landing
    page from the admin flag and, for a non-admin, the company status. */
module LoginPage {
  import opened Common
  import opened Json
  import opened Api
  import opened AuthStore
  import opened ApiClient
  import AdminRoute
  import ProtectedRoute

  const FillAllFieldsText: string := "Заполните все поля"
  const WelcomeText: string := "Добро пожаловать!"
  /** The word the server uses in the message for a blocked account. */
  const BlockedMarker: string := "заблокирован"

  /** The `detail` of a failed call, as the catch block reads it. */
  function DetailOf<T>(r: Reply<T>): (d: Detail)
    ensures !r.Err? ==> d == NoDetail
  {
    if r.Err? then r.detail else NoDetail
  }

  /** The page's own toast on failure: the server's message, only when it is
      a string that mentions a blocked account. */
  function BlockedToasts(d: Detail): (r: seq<Toast>)
    ensures |r| <= 1
    ensures r != [] <==> d.TextDetail? && Includes(d.text, BlockedMarker)
    ensures r != [] ==> r == [ErrorToast(d.text)]
  {
    if d.TextDetail? && Includes(d.text, BlockedMarker) then [ErrorToast(d.text)] else []
  }

  /** Where a successful sign-in lands: admins go to the admin home without
      the company status being fetched; others by that status, and nowhere if
      fetching it failed. */
  function PostLoginTarget(isAdmin: bool, status: Reply<string>): (r: Option<string>)
    ensures isAdmin ==> r == Some(AdminDashboardPath)
    ensures !isAdmin && status.Ok? ==>
      r == Some(if status.value == ProtectedRoute.ActiveStatus then DashboardPath else CompanySetupPath)
    ensures !isAdmin && !status.Ok? ==> r == None
  {
    if isAdmin then Some(AdminDashboardPath)
    else if status.Ok? then
      (if status.value == ProtectedRoute.ActiveStatus then Some(DashboardPath) else Some(CompanySetupPath))
    else None
  }

  /** The landing page agrees with the guard in front of it: the admin home
      lets the admin in, the dashboard lets an active non-admin in, and the
      company setup page is where the user guard would send the others too. */
  lemma TargetAgreesWithGuards(isAdmin: bool, status: string)
    ensures var target := PostLoginTarget(isAdmin, Ok(status)).value;
      var companyOk := status == ProtectedRoute.ActiveStatus;
      (target == AdminDashboardPath ==> AdminRoute.Decide(true, isAdmin) == Outlet) &&
      (target == DashboardPath ==> ProtectedRoute.Decide(false, true, isAdmin, companyOk) == Outlet) &&
      (target == CompanySetupPath ==>
         ProtectedRoute.Decide(false, true, isAdmin, companyOk) == Redirect(CompanySetupPath))
  {
  }

  class LoginForm {
    var email: string
    var password: string
    const auth: AuthState

    constructor (auth: AuthState)
      ensures this.auth == auth && email == "" && password == ""
    {
      this.auth := auth;
      email, password := "", "";
    }

    predicate Filled()
      reads this
    {
      email != "" && password != ""
    }

    /** `handleSubmit`, with the replies of the three calls it may make. Each
        call goes through the response interceptor, so a 401 removes the
        stored token and user; the page is `/login`, so there is no redirect. */
    method Submit(login: Reply<TokenResponse>, me: Reply<User>, status: Reply<string>)
      returns (calls: seq<Call>, nav: Option<string>, toasts: seq<Toast>)
      requires auth.Valid()
      modifies auth, auth.storage
      ensures auth.Valid()
      ensures !Filled() ==>
        calls == [] && nav == None && toasts == [ErrorToast(FillAllFieldsText)] &&
        unchanged(auth) && unchanged(auth.storage)
      ensures Filled() && !login.Ok? ==>
        calls == [Login(email, password)] && nav == None && toasts == BlockedToasts(DetailOf(login)) &&
        unchanged(auth) && auth.storage.items == AfterInterceptor(old(auth.storage.items), Unauthorized(login))
      ensures Filled() && login.Ok? && !me.Ok? ==>
        calls == [Login(email, password), GetMe] && nav == None && toasts == BlockedToasts(DetailOf(me)) &&
        unchanged(auth) && auth.storage.items == AfterInterceptor(old(auth.storage.items), Unauthorized(me))
      ensures Filled() && login.Ok? && me.Ok? ==>
        var t := login.value;
        auth.storage.items ==
          AfterInterceptor(WithSession(old(auth.storage.items), t.accessToken, me.value, t.isAdmin),
                           !t.isAdmin && Unauthorized(status)) &&
        auth.token == Some(t.accessToken) && auth.user == Some(me.value) &&
        auth.isAdmin == t.isAdmin && auth.isAuthenticated &&
        auth.companyStatus == old(auth.companyStatus) &&
        calls == [Login(email, password), GetMe] + (if t.isAdmin then [] else [GetCompanyStatus]) &&
        nav == PostLoginTarget(t.isAdmin, status) &&
        toasts == (if nav.Some? then [SuccessToast(WelcomeText)] else BlockedToasts(DetailOf(status)))
    {
      if !Filled() {
        return [], None, [ErrorToast(FillAllFieldsText)];
      }
      if !login.Ok? {
        var _ := Intercept(auth.storage, LoginPath, login);
        return [Login(email, password)], None, BlockedToasts(DetailOf(login));
      }
      if !me.Ok? {
        var _ := Intercept(auth.storage, LoginPath, me);
        return [Login(email, password), GetMe], None, BlockedToasts(DetailOf(me));
      }
      var more;
      more, nav, toasts := Land(login.value, me.value, status);
      calls := [Login(email, password), GetMe] + more;
    }

    /** The part of `handleSubmit` after both the token and the user arrived:
        the session is stored, then the landing page is chosen. */
    method Land(t: TokenResponse, u: User, status: Reply<string>)
      returns (calls: seq<Call>, nav: Option<string>, toasts: seq<Toast>)
      requires auth.Valid()
      modifies auth, auth.storage
      ensures auth.Valid()
      ensures auth.storage.items ==
          AfterInterceptor(WithSession(old(auth.storage.items), t.accessToken, u, t.isAdmin),
                           !t.isAdmin && Unauthorized(status))
      ensures auth.token == Some(t.accessToken) && auth.user == Some(u) &&
        auth.isAdmin == t.isAdmin && auth.isAuthenticated &&
        auth.companyStatus == old(auth.companyStatus)
      ensures calls == (if t.isAdmin then [] else [GetCompanyStatus])
      ensures nav == PostLoginTarget(t.isAdmin, status)
      ensures toasts == (if nav.Some? then [SuccessToast(WelcomeText)] else BlockedToasts(DetailOf(status)))
    {
      auth.SetAuth(t.accessToken, u, t.isAdmin);
      calls := [];
      if t.isAdmin {
        nav := Some(AdminDashboardPath);
      } else {
        calls := [GetCompanyStatus];
        var _ := Intercept(auth.storage, LoginPath, status);
        if !status.Ok? {
          return calls, None, BlockedToasts(DetailOf(status));
        }
        nav := Some(if status.value == ProtectedRoute.ActiveStatus then DashboardPath else CompanySetupPath);
      }
      toasts := [SuccessToast(WelcomeText)];
    }
  }

  /** Signing in on a fresh page: when either of the first two calls fails
      the session stays signed out and nothing is stored, except that a 401
      removes a token and user left from an earlier session. */
  method SignIn(items: map<string, string>, email: string, password: string,
                login: Reply<TokenResponse>, me: Reply<User>, status: Reply<string>)
    returns (isAuthenticated: bool, stored: map<string, string>, nav: Option<string>)
    ensures !(email != "" && password != "") ==>
      !isAuthenticated && stored == items && nav == None
    ensures email != "" && password != "" && !(login.Ok? && me.Ok?) ==>
      !isAuthenticated && nav == None &&
      stored == AfterInterceptor(items, Unauthorized(login) || (login.Ok? && Unauthorized(me)))
    ensures email != "" && password != "" && login.Ok? && me.Ok? ==>
      isAuthenticated &&
      stored == AfterInterceptor(WithSession(items, login.value.accessToken, me.value, login.value.isAdmin),
                                 !login.value.isAdmin && Unauthorized(status)) &&
      nav == PostLoginTarget(login.value.isAdmin, status)
  {
    var storage := new Browser.Storage(items);
    var auth := new AuthState(storage);
    var form := new LoginForm(auth);
    form.email, form.password := email, password;
    var _, n, _ := form.Submit(login, me, status);
    isAuthenticated, stored, nav := auth.isAuthenticated, storage.items, n;
  }

  /** A 401 refusing `getMe` after the token arrived removes any session
      stored before, so a reload restores nothing. */
  method RefusedProfileLeavesNoSession(items: map<string, string>, email: string, password: string,
                                       t: TokenResponse, d: Detail, status: Reply<string>)
    returns (stored: map<string, string>, restored: bool)
    requires email != "" && password != ""
    ensures stored == items - {AccessTokenKey, UserKey}
    ensures !restored
  {
    var signedIn, nav;
    signedIn, stored, nav := SignIn(items, email, password, Ok(t), Err(401, d), status);
    AfterUnauthorized(items, map[]);
    var storage := new Browser.Storage(stored);
    var store := new AuthState(storage);
    store.LoadFromStorage();
    restored := store.isAuthenticated;
  }
}
