/** The sign-up form (`RegisterPage`): three local checks in a fixed order,
    then `register`, an automatic `login` with the same credentials, `getMe`,
    the session is stored and the user is sent to the company setup page. */
module RegisterPage {
  import opened Common
  import opened Json
  import opened Api
  import opened AuthStore
  import opened ApiClient

  const FillRequiredText: string := "Заполните все обязательные поля"
  const PasswordsDifferText: string := "Пароли не совпадают"
  const PasswordTooShortText: string := "Пароль должен быть не менее 6 символов"
  const RegisteredText: string := "Регистрация успешна!"
  const MinPasswordLength: nat := 6
  const DefaultActivityType: string := "declarant"

  /** `RegisterResponse`. */
  datatype RegisterResponse = RegisterResponse(message: string, userId: int, needsCompanySetup: bool)

  /** The first local check that fails, as its toast, or none. */
  function ValidationError(fullName: string, email: string, phone: string,
                           password: string, confirmPassword: string): (r: Option<Toast>)
    ensures r.None? <==>
      fullName != "" && email != "" && phone != "" && password != "" &&
      password == confirmPassword && |password| >= MinPasswordLength
    ensures (fullName == "" || email == "" || phone == "" || password == "") ==>
      r == Some(ErrorToast(FillRequiredText))
    ensures (fullName != "" && email != "" && phone != "" && password != "" &&
             password != confirmPassword) ==> r == Some(ErrorToast(PasswordsDifferText))
    ensures (fullName != "" && email != "" && phone != "" && password != "" &&
             password == confirmPassword && |password| < MinPasswordLength) ==>
      r == Some(ErrorToast(PasswordTooShortText))
  {
    if fullName == "" || email == "" || phone == "" || password == "" then Some(ErrorToast(FillRequiredText))
    else if password != confirmPassword then Some(ErrorToast(PasswordsDifferText))
    else if |password| < MinPasswordLength then Some(ErrorToast(PasswordTooShortText))
    else None
  }

  class RegisterForm {
    var fullName: string
    var email: string
    var phone: string
    var activityType: string
    var password: string
    var confirmPassword: string
    const auth: AuthState

    constructor (auth: AuthState)
      ensures this.auth == auth
      ensures fullName == "" && email == "" && phone == "" && password == "" && confirmPassword == ""
      ensures activityType == DefaultActivityType
    {
      this.auth := auth;
      fullName, email, phone, password, confirmPassword := "", "", "", "", "";
      activityType := DefaultActivityType;
    }

    function Error(): Option<Toast>
      reads this
    {
      ValidationError(fullName, email, phone, password, confirmPassword)
    }

    /** `handleSubmit`, with the replies of `register`, `login` and `getMe`. */
    method Submit(reg: Reply<RegisterResponse>, login: Reply<TokenResponse>, me: Reply<User>)
      returns (calls: seq<Call>, nav: Option<string>, toasts: seq<Toast>)
      requires auth.Valid()
      modifies auth, auth.storage
      ensures auth.Valid()
      ensures Error().Some? ==>
        calls == [] && nav == None && toasts == [Error().value] &&
        unchanged(auth) && unchanged(auth.storage)
      ensures Error().None? ==>
        calls == [Register(fullName, email, phone, activityType, password)] +
                 (if reg.Ok? then [Login(email, password)] else []) +
                 (if reg.Ok? && login.Ok? then [GetMe] else []) &&
        toasts == (if reg.Ok? then [SuccessToast(if reg.value.message != "" then reg.value.message else RegisteredText)] else [])
      ensures Error().None? && reg.Ok? && login.Ok? && me.Ok? ==>
        auth.storage.items == WithSession(old(auth.storage.items), login.value.accessToken, me.value, login.value.isAdmin) &&
        auth.token == Some(login.value.accessToken) && auth.user == Some(me.value) &&
        auth.isAdmin == login.value.isAdmin && auth.isAuthenticated &&
        nav == Some(CompanySetupPath)
      ensures Error().None? && !reg.Ok? ==>
        nav == None && unchanged(auth) &&
        auth.storage.items == AfterInterceptor(old(auth.storage.items), Unauthorized(reg))
      ensures Error().None? && reg.Ok? && !login.Ok? ==>
        nav == None && unchanged(auth) &&
        auth.storage.items == AfterInterceptor(old(auth.storage.items), Unauthorized(login))
      ensures Error().None? && reg.Ok? && login.Ok? && !me.Ok? ==>
        nav == None && unchanged(auth) &&
        auth.storage.items == AfterInterceptor(old(auth.storage.items), Unauthorized(me))
    {
      var error := Error();
      if error.Some? {
        return [], None, [error.value];
      }
      calls, nav, toasts := [Register(fullName, email, phone, activityType, password)], None, [];
      // the page is `/register`, so the interceptor does not redirect
      if !reg.Ok? {
        var _ := Intercept(auth.storage, RegisterPath, reg);
        return;
      }
      toasts := [SuccessToast(if reg.value.message != "" then reg.value.message else RegisteredText)];
      calls := calls + [Login(email, password)];
      if !login.Ok? {
        var _ := Intercept(auth.storage, RegisterPath, login);
        return;
      }
      calls := calls + [GetMe];
      if !me.Ok? {
        var _ := Intercept(auth.storage, RegisterPath, me);
        return;
      }
      auth.SetAuth(login.value.accessToken, me.value, login.value.isAdmin);
      nav := Some(CompanySetupPath);
    }
  }
}
