/** The administrator sign-in (`AdminLoginPage`): a two-step form. The first
    step only checks that login and password are filled; the second sends all
    three credentials together, fetches the profile and stores an admin
    session. A failure clears only the code. */
module AdminLoginPage {
  import opened Common
  import opened Json
  import opened Api
  import opened Browser
  import opened AuthStore
  import opened ApiClient

  const FillCredentialsText: string := "Заполните логин и пароль"
  const EnterCodeText: string := "Введите код из Telegram"
  const AdminWelcomeText: string := "Добро пожаловать, администратор!"

  datatype Step = Credentials | Code

  class AdminLoginForm {
    var step: Step
    var login: string
    var password: string
    var code: string
    const auth: AuthState

    constructor (auth: AuthState)
      ensures this.auth == auth
      ensures step == Credentials && login == "" && password == "" && code == ""
    {
      this.auth := auth;
      step, login, password, code := Credentials, "", "", "";
    }

    /** `handleCredentials`: advances to the code step iff both fields are
        filled; no server call. */
    method HandleCredentials() returns (toasts: seq<Toast>)
      modifies this`step
      ensures login != "" && password != "" ==> step == Code && toasts == []
      ensures !(login != "" && password != "") ==>
        step == old(step) && toasts == [ErrorToast(FillCredentialsText)]
    {
      if login == "" || password == "" {
        return [ErrorToast(FillCredentialsText)];
      }
      step := Code;
      toasts := [];
    }

    /** `handleSubmit`, with the replies of `adminLogin` and `getMe`. */
    method HandleSubmit(reply: Reply<TokenResponse>, me: Reply<User>)
      returns (calls: seq<Call>, nav: Option<string>, toasts: seq<Toast>)
      requires auth.Valid()
      modifies this`code, auth, auth.storage
      ensures auth.Valid()
      ensures old(code) == "" ==>
        calls == [] && nav == None && toasts == [ErrorToast(EnterCodeText)] &&
        code == old(code) && unchanged(auth) && unchanged(auth.storage)
      ensures old(code) != "" ==>
        calls == [AdminLogin(login, password, old(code))] + (if reply.Ok? then [GetMe] else [])
      ensures old(code) != "" && reply.Ok? && me.Ok? ==>
        auth.storage.items == WithSession(old(auth.storage.items), reply.value.accessToken, me.value, true) &&
        auth.token == Some(reply.value.accessToken) && auth.user == Some(me.value) &&
        auth.isAdmin && auth.isAuthenticated && auth.companyStatus == old(auth.companyStatus) &&
        nav == Some(AdminDashboardPath) && toasts == [SuccessToast(AdminWelcomeText)] &&
        code == old(code)
      ensures old(code) != "" && !reply.Ok? ==>
        code == "" && nav == None && toasts == [] &&
        unchanged(auth) && auth.storage.items == AfterInterceptor(old(auth.storage.items), Unauthorized(reply))
      ensures old(code) != "" && reply.Ok? && !me.Ok? ==>
        code == "" && nav == None && toasts == [] &&
        unchanged(auth) && auth.storage.items == AfterInterceptor(old(auth.storage.items), Unauthorized(me))
    {
      if code == "" {
        return [], None, [ErrorToast(EnterCodeText)];
      }
      calls, nav, toasts := [AdminLogin(login, password, code)], None, [];
      if !reply.Ok? {
        // the page is `/admin/login`, so the interceptor does not redirect
        var _ := Intercept(auth.storage, AdminLoginPath, reply);
        code := "";
        return;
      }
      calls := calls + [GetMe];
      if !me.Ok? {
        var _ := Intercept(auth.storage, AdminLoginPath, me);
        code := "";
        return;
      }
      auth.SetAuth(reply.value.accessToken, me.value, true);
      toasts := [SuccessToast(AdminWelcomeText)];
      nav := Some(AdminDashboardPath);
    }

    /** The back button of the code step. */
    method Back()
      modifies this`step, this`code
      ensures step == Credentials && code == ""
    {
      step, code := Credentials, "";
    }
  }

  /** The whole admin sign-in on a fresh page: fill the credentials, advance,
      enter the code, submit. With every field filled, success yields an admin
      session for the fetched user and the admin home; any failure keeps the
      credentials, stays on the code step with the code cleared, and stores
      nothing, while a 401 removes a token and user left from an earlier
      session. */
  method SignIn(items: map<string, string>, login: string, password: string, code: string,
                reply: Reply<TokenResponse>, me: Reply<User>)
    returns (step: Step, loginAfter: string, passwordAfter: string, codeAfter: string,
             isAuthenticated: bool, isAdmin: bool, user: Option<User>,
             stored: map<string, string>, nav: Option<string>)
    ensures login == "" || password == "" ==>
      step == Credentials && !isAuthenticated && stored == items && nav == None
    ensures login != "" && password != "" ==> step == Code
    ensures login != "" && password != "" && code != "" && reply.Ok? && me.Ok? ==>
      isAuthenticated && isAdmin && user == Some(me.value) &&
      stored == WithSession(items, reply.value.accessToken, me.value, true) &&
      nav == Some(AdminDashboardPath)
    ensures login != "" && password != "" && code != "" && !(reply.Ok? && me.Ok?) ==>
      loginAfter == login && passwordAfter == password && codeAfter == "" &&
      !isAuthenticated && nav == None &&
      stored == AfterInterceptor(items, Unauthorized(reply) || (reply.Ok? && Unauthorized(me)))
  {
    var storage := new Storage(items);
    var auth := new AuthState(storage);
    var form := new AdminLoginForm(auth);
    form.login, form.password := login, password;
    var _ := form.HandleCredentials();
    nav := None;
    if form.step == Code {
      form.code := code;
      var _, n, _ := form.HandleSubmit(reply, me);
      nav := n;
    }
    step, loginAfter, passwordAfter, codeAfter := form.step, form.login, form.password, form.code;
    isAuthenticated, isAdmin, user, stored := auth.isAuthenticated, auth.isAdmin, auth.user, storage.items;
  }
}
