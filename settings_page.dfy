/** The settings screen (`SettingsPage`): the profile form, the avatar, and
    two dialogs that change the password and the e-mail address in two steps
    each, a request that sends a code to Telegram and a confirmation with
    that code. */
module SettingsPage {
  import opened Common
  import opened Api
  import opened Json
  import opened AuthStore
  import opened ApiClient
  import Browser

  const MinPasswordLength: nat := 6

  const ProfileSavedText: string := "Профиль обновлён"
  const AvatarSavedText: string := "Фото обновлено"
  const AvatarDeletedText: string := "Фото удалено"
  const FieldsMissingText: string := "Заполните все поля"
  const PasswordShortText: string := "Новый пароль минимум 6 символов"
  const CodeSentText: string := "Код отправлен в Telegram"
  const CodeMissingText: string := "Введите код"
  const PasswordChangedText: string := "Пароль изменён"
  const EmailMissingText: string := "Введите новую почту"
  const EmailChangedText: string := "Почта изменена"

  /** The step of a two-step dialog. */
  datatype Step = FormStep | CodeStep

  /** The first of the password request's two checks that fails. */
  function PasswordRequestError(oldPassword: string, newPassword: string): (r: Option<string>)
    ensures r.None? <==> oldPassword != "" && |newPassword| >= MinPasswordLength
    ensures (oldPassword == "" || newPassword == "") ==> r == Some(FieldsMissingText)
    ensures oldPassword != "" && newPassword != "" && |newPassword| < MinPasswordLength ==> r == Some(PasswordShortText)
  {
    if oldPassword == "" || newPassword == "" then Some(FieldsMissingText)
    else if |newPassword| < MinPasswordLength then Some(PasswordShortText)
    else None
  }

  /** Where the response interceptor sends the browser from this page after
      a failed call: to the login page exactly on a 401. */
  function RedirectAfter(unauthorized: bool): (r: Option<string>)
    ensures r.Some? <==> unauthorized
    ensures r.Some? ==> r.value == LoginPath
  {
    InterceptorRedirect(SettingsPath, unauthorized)
  }

  class SettingsScreen {
    const auth: AuthState
    var fullName: string
    var phone: string
    var showPassword: bool
    var oldPassword: string
    var newPassword: string
    var pwStep: Step
    var pwCode: string
    var showEmail: bool
    var newEmail: string
    var emStep: Step
    var emCode: string

    /** A dialog is at its code step only while it is open and only after a
        request whose checks passed; the fields of that request are still
        the ones that were sent. */
    predicate Valid()
      reads this, auth
    {
      auth.Valid() &&
      (pwStep == CodeStep ==> showPassword && PasswordRequestError(oldPassword, newPassword).None?) &&
      (emStep == CodeStep ==> showEmail && newEmail != "")
    }

    /** The profile form starts from the stored user, both dialogs closed. */
    constructor (auth: AuthState)
      requires auth.Valid()
      ensures Valid() && this.auth == auth
      ensures fullName == (if auth.user.Some? then auth.user.value.fullName else "")
      ensures phone == (if auth.user.Some? then auth.user.value.phone else "")
      ensures !showPassword && oldPassword == "" && newPassword == "" && pwStep == FormStep && pwCode == ""
      ensures !showEmail && newEmail == "" && emStep == FormStep && emCode == ""
    {
      this.auth := auth;
      fullName := if auth.user.Some? then auth.user.value.fullName else "";
      phone := if auth.user.Some? then auth.user.value.phone else "";
      showPassword, oldPassword, newPassword, pwStep, pwCode := false, "", "", FormStep, "";
      showEmail, newEmail, emStep, emCode := false, "", FormStep, "";
    }

    /** The `getProfile` refetch that follows every accepted change: the
        stored user is replaced on success, and a failure goes through the
        response interceptor. */
    method Refetch(profile: Reply<User>) returns (nav: Option<string>)
      requires auth.Valid()
      modifies auth`user, auth.storage
      ensures auth.Valid()
      ensures profile.Ok? ==>
        auth.user == Some(profile.value) && nav == None &&
        auth.storage.items == old(auth.storage.items)[UserKey := EncodeUser(profile.value)]
      ensures !profile.Ok? ==>
        auth.user == old(auth.user) && nav == RedirectAfter(Unauthorized(profile)) &&
        auth.storage.items == AfterInterceptor(old(auth.storage.items), Unauthorized(profile))
    {
      if profile.Ok? {
        auth.SetUser(profile.value);
        nav := None;
      } else {
        nav := Intercept(auth.storage, SettingsPath, profile);
      }
    }

    /** The two inputs of the profile form. */
    method TypeProfile(name: string, tel: string)
      requires Valid()
      modifies this`fullName, this`phone
      ensures Valid() && fullName == name && phone == tel
    {
      fullName, phone := name, tel;
    }

    /** `handleSaveProfile`: the stored user is replaced only after both the
        update and the refetch succeeded. A failed call goes through the
        response interceptor: a 401 removes the stored token and user and
        leaves for the login page. */
    method SaveProfile(update: Reply<bool>, profile: Reply<User>)
      returns (calls: seq<Call>, nav: Option<string>, toasts: seq<Toast>)
      requires Valid()
      modifies auth`user, auth.storage
      ensures Valid()
      ensures calls == [UpdateProfile(fullName, phone)] + (if update.Ok? then [GetProfile] else [])
      ensures update.Ok? && profile.Ok? ==>
        auth.user == Some(profile.value) &&
        auth.storage.items == old(auth.storage.items)[UserKey := EncodeUser(profile.value)] &&
        toasts == [SuccessToast(ProfileSavedText)] && nav == None
      ensures !update.Ok? ==>
        auth.user == old(auth.user) && toasts == [] &&
        auth.storage.items == AfterInterceptor(old(auth.storage.items), Unauthorized(update)) &&
        nav == RedirectAfter(Unauthorized(update))
      ensures update.Ok? && !profile.Ok? ==>
        auth.user == old(auth.user) && toasts == [] &&
        auth.storage.items == AfterInterceptor(old(auth.storage.items), Unauthorized(profile)) &&
        nav == RedirectAfter(Unauthorized(profile))
    {
      calls, nav, toasts := [UpdateProfile(fullName, phone)], None, [];
      if !update.Ok? {
        nav := Intercept(auth.storage, SettingsPath, update);
        return;
      }
      calls := calls + [GetProfile];
      nav := Refetch(profile);
      if profile.Ok? {
        toasts := [SuccessToast(ProfileSavedText)];
      }
    }

    /** `handleUploadAvatar`: nothing without a chosen file; otherwise the
        upload, then the refetch, then the stored user, with the interceptor
        on each failed call. */
    method UploadAvatarFile(file: Option<string>, upload: Reply<bool>, profile: Reply<User>)
      returns (calls: seq<Call>, nav: Option<string>, toasts: seq<Toast>)
      requires Valid()
      modifies auth`user, auth.storage
      ensures Valid()
      ensures file.None? ==> calls == [] && nav == None && toasts == [] && auth.user == old(auth.user) &&
                             auth.storage.items == old(auth.storage.items)
      ensures file.Some? ==> calls == [UploadAvatar(file.value)] + (if upload.Ok? then [GetProfile] else [])
      ensures file.Some? && upload.Ok? && profile.Ok? ==>
        auth.user == Some(profile.value) &&
        auth.storage.items == old(auth.storage.items)[UserKey := EncodeUser(profile.value)] &&
        toasts == [SuccessToast(AvatarSavedText)] && nav == None
      ensures file.Some? && !upload.Ok? ==>
        auth.user == old(auth.user) && toasts == [] &&
        auth.storage.items == AfterInterceptor(old(auth.storage.items), Unauthorized(upload)) &&
        nav == RedirectAfter(Unauthorized(upload))
      ensures file.Some? && upload.Ok? && !profile.Ok? ==>
        auth.user == old(auth.user) && toasts == [] &&
        auth.storage.items == AfterInterceptor(old(auth.storage.items), Unauthorized(profile)) &&
        nav == RedirectAfter(Unauthorized(profile))
    {
      calls, nav, toasts := [], None, [];
      if file.None? {
        return;
      }
      calls := [UploadAvatar(file.value)];
      if !upload.Ok? {
        nav := Intercept(auth.storage, SettingsPath, upload);
        return;
      }
      calls := calls + [GetProfile];
      nav := Refetch(profile);
      if profile.Ok? {
        toasts := [SuccessToast(AvatarSavedText)];
      }
    }

    /** `handleDeleteAvatar`: the removal, then the refetch, then the stored
        user, with the interceptor on each failed call. */
    method RemoveAvatar(removal: Reply<bool>, profile: Reply<User>)
      returns (calls: seq<Call>, nav: Option<string>, toasts: seq<Toast>)
      requires Valid()
      modifies auth`user, auth.storage
      ensures Valid()
      ensures calls == [DeleteAvatar] + (if removal.Ok? then [GetProfile] else [])
      ensures removal.Ok? && profile.Ok? ==>
        auth.user == Some(profile.value) &&
        auth.storage.items == old(auth.storage.items)[UserKey := EncodeUser(profile.value)] &&
        toasts == [SuccessToast(AvatarDeletedText)] && nav == None
      ensures !removal.Ok? ==>
        auth.user == old(auth.user) && toasts == [] &&
        auth.storage.items == AfterInterceptor(old(auth.storage.items), Unauthorized(removal)) &&
        nav == RedirectAfter(Unauthorized(removal))
      ensures removal.Ok? && !profile.Ok? ==>
        auth.user == old(auth.user) && toasts == [] &&
        auth.storage.items == AfterInterceptor(old(auth.storage.items), Unauthorized(profile)) &&
        nav == RedirectAfter(Unauthorized(profile))
    {
      calls, nav, toasts := [DeleteAvatar], None, [];
      if !removal.Ok? {
        nav := Intercept(auth.storage, SettingsPath, removal);
        return;
      }
      calls := calls + [GetProfile];
      nav := Refetch(profile);
      if profile.Ok? {
        toasts := [SuccessToast(AvatarDeletedText)];
      }
    }

    /** The two "change" buttons open their dialog as it was left. */
    method OpenPasswordDialog()
      requires Valid()
      modifies this`showPassword
      ensures Valid() && showPassword
    {
      showPassword := true;
    }

    method OpenEmailDialog()
      requires Valid()
      modifies this`showEmail
      ensures Valid() && showEmail
    {
      showEmail := true;
    }

    /** The inputs of the password form step. */
    method TypePasswords(oldText: string, newText: string)
      requires Valid() && showPassword && pwStep == FormStep
      modifies this`oldPassword, this`newPassword
      ensures Valid() && oldPassword == oldText && newPassword == newText
    {
      oldPassword, newPassword := oldText, newText;
    }

    method TypePasswordCode(code: string)
      requires Valid() && showPassword && pwStep == CodeStep
      modifies this`pwCode
      ensures Valid() && pwCode == code
    {
      pwCode := code;
    }

    /** `handlePasswordRequest`: both fields, a new password of at least six
        characters, then the request; success moves to the code step. */
    method PasswordRequest(reply: Reply<bool>) returns (calls: seq<Call>, nav: Option<string>, toasts: seq<Toast>)
      requires Valid() && showPassword && pwStep == FormStep
      modifies this`pwStep, auth.storage
      ensures Valid()
      ensures PasswordRequestError(oldPassword, newPassword).Some? ==>
        calls == [] && nav == None && pwStep == FormStep &&
        toasts == [ErrorToast(PasswordRequestError(oldPassword, newPassword).value)] &&
        auth.storage.items == old(auth.storage.items)
      ensures PasswordRequestError(oldPassword, newPassword).None? ==>
        calls == [RequestPasswordChange(oldPassword, newPassword)] &&
        (pwStep == CodeStep <==> reply.Ok?) &&
        toasts == (if reply.Ok? then [SuccessToast(CodeSentText)] else []) &&
        auth.storage.items == AfterInterceptor(old(auth.storage.items), Unauthorized(reply)) &&
        nav == RedirectAfter(Unauthorized(reply))
    {
      if oldPassword == "" || newPassword == "" {
        return [], None, [ErrorToast(FieldsMissingText)];
      }
      if |newPassword| < MinPasswordLength {
        return [], None, [ErrorToast(PasswordShortText)];
      }
      calls, toasts := [RequestPasswordChange(oldPassword, newPassword)], [];
      nav := Intercept(auth.storage, SettingsPath, reply);
      if reply.Ok? {
        toasts := [SuccessToast(CodeSentText)];
        pwStep := CodeStep;
      }
    }

    /** `handlePasswordConfirm`: a non-empty code; success closes the dialog
        and empties it back to the form step. */
    method PasswordConfirm(reply: Reply<bool>) returns (calls: seq<Call>, nav: Option<string>, toasts: seq<Toast>)
      requires Valid() && showPassword && pwStep == CodeStep
      modifies this`showPassword, this`oldPassword, this`newPassword, this`pwCode, this`pwStep, auth.storage
      ensures Valid()
      ensures old(pwCode) == "" ==>
        calls == [] && nav == None && toasts == [ErrorToast(CodeMissingText)] &&
        auth.storage.items == old(auth.storage.items)
      ensures old(pwCode) != "" ==>
        calls == [ConfirmPasswordChange(old(pwCode))] &&
        auth.storage.items == AfterInterceptor(old(auth.storage.items), Unauthorized(reply)) &&
        nav == RedirectAfter(Unauthorized(reply))
      ensures old(pwCode) != "" && reply.Ok? ==>
        toasts == [SuccessToast(PasswordChangedText)] &&
        !showPassword && oldPassword == "" && newPassword == "" && pwCode == "" && pwStep == FormStep
      ensures !(old(pwCode) != "" && reply.Ok?) ==>
        toasts == (if old(pwCode) == "" then [ErrorToast(CodeMissingText)] else []) &&
        showPassword && oldPassword == old(oldPassword) && newPassword == old(newPassword) &&
        pwCode == old(pwCode) && pwStep == CodeStep
    {
      if pwCode == "" {
        return [], None, [ErrorToast(CodeMissingText)];
      }
      calls, toasts := [ConfirmPasswordChange(pwCode)], [];
      nav := Intercept(auth.storage, SettingsPath, reply);
      if reply.Ok? {
        toasts := [SuccessToast(PasswordChangedText)];
        showPassword, oldPassword, newPassword, pwCode, pwStep := false, "", "", "", FormStep;
      }
    }

    /** Closing the password dialog resets its step and all its fields. */
    method ClosePasswordDialog()
      requires Valid()
      modifies this`showPassword, this`oldPassword, this`newPassword, this`pwCode, this`pwStep
      ensures Valid()
      ensures !showPassword && oldPassword == "" && newPassword == "" && pwCode == "" && pwStep == FormStep
    {
      showPassword, pwStep, oldPassword, newPassword, pwCode := false, FormStep, "", "", "";
    }

    /** The password dialog's cancel button: back to the form step, the
        fields kept. */
    method CancelPasswordDialog()
      requires Valid()
      modifies this`showPassword, this`pwStep
      ensures Valid() && !showPassword && pwStep == FormStep
    {
      showPassword, pwStep := false, FormStep;
    }

    method TypeNewEmail(email: string)
      requires Valid() && showEmail && emStep == FormStep
      modifies this`newEmail
      ensures Valid() && newEmail == email
    {
      newEmail := email;
    }

    method TypeEmailCode(code: string)
      requires Valid() && showEmail && emStep == CodeStep
      modifies this`emCode
      ensures Valid() && emCode == code
    {
      emCode := code;
    }

    /** `handleEmailRequest`: a non-empty address, then the request; success
        moves to the code step. */
    method EmailRequest(reply: Reply<bool>) returns (calls: seq<Call>, nav: Option<string>, toasts: seq<Toast>)
      requires Valid() && showEmail && emStep == FormStep
      modifies this`emStep, auth.storage
      ensures Valid()
      ensures newEmail == "" ==>
        calls == [] && nav == None && toasts == [ErrorToast(EmailMissingText)] && emStep == FormStep &&
        auth.storage.items == old(auth.storage.items)
      ensures newEmail != "" ==>
        calls == [RequestEmailChange(newEmail)] &&
        (emStep == CodeStep <==> reply.Ok?) &&
        toasts == (if reply.Ok? then [SuccessToast(CodeSentText)] else []) &&
        auth.storage.items == AfterInterceptor(old(auth.storage.items), Unauthorized(reply)) &&
        nav == RedirectAfter(Unauthorized(reply))
    {
      if newEmail == "" {
        return [], None, [ErrorToast(EmailMissingText)];
      }
      calls, toasts := [RequestEmailChange(newEmail)], [];
      nav := Intercept(auth.storage, SettingsPath, reply);
      if reply.Ok? {
        toasts := [SuccessToast(CodeSentText)];
        emStep := CodeStep;
      }
    }

    /** `handleEmailConfirm`: a non-empty code, the confirmation, the
        refetch; only when both succeeded is the stored user replaced and
        the dialog closed and emptied. */
    method EmailConfirm(confirm: Reply<bool>, profile: Reply<User>)
      returns (calls: seq<Call>, nav: Option<string>, toasts: seq<Toast>)
      requires Valid() && showEmail && emStep == CodeStep
      modifies this`showEmail, this`newEmail, this`emCode, this`emStep, auth`user, auth.storage
      ensures Valid()
      ensures !(old(emCode) != "" && confirm.Ok? && profile.Ok?) ==>
        auth.user == old(auth.user) &&
        showEmail && newEmail == old(newEmail) && emCode == old(emCode) && emStep == CodeStep
      ensures old(emCode) == "" ==>
        calls == [] && nav == None && toasts == [ErrorToast(CodeMissingText)] &&
        auth.storage.items == old(auth.storage.items)
      ensures old(emCode) != "" && !confirm.Ok? ==>
        calls == [ConfirmEmailChange(old(emCode))] && toasts == [] &&
        auth.storage.items == AfterInterceptor(old(auth.storage.items), Unauthorized(confirm)) &&
        nav == RedirectAfter(Unauthorized(confirm))
      ensures old(emCode) != "" && confirm.Ok? && !profile.Ok? ==>
        calls == [ConfirmEmailChange(old(emCode)), GetProfile] && toasts == [] &&
        auth.storage.items == AfterInterceptor(old(auth.storage.items), Unauthorized(profile)) &&
        nav == RedirectAfter(Unauthorized(profile))
      ensures old(emCode) != "" && confirm.Ok? && profile.Ok? ==>
        calls == [ConfirmEmailChange(old(emCode)), GetProfile] &&
        auth.user == Some(profile.value) &&
        auth.storage.items == old(auth.storage.items)[UserKey := EncodeUser(profile.value)] &&
        toasts == [SuccessToast(EmailChangedText)] && nav == None &&
        !showEmail && newEmail == "" && emCode == "" && emStep == FormStep
    {
      if emCode == "" {
        return [], None, [ErrorToast(CodeMissingText)];
      }
      if !confirm.Ok? {
        nav := Intercept(auth.storage, SettingsPath, confirm);
        return [ConfirmEmailChange(emCode)], nav, [];
      }
      calls, toasts := [ConfirmEmailChange(emCode), GetProfile], [];
      nav := Refetch(profile);
      if profile.Ok? {
        toasts := [SuccessToast(EmailChangedText)];
        showEmail, newEmail, emCode, emStep := false, "", "", FormStep;
      }
    }

    /** Closing the e-mail dialog resets its step and both its fields. */
    method CloseEmailDialog()
      requires Valid()
      modifies this`showEmail, this`newEmail, this`emCode, this`emStep
      ensures Valid() && !showEmail && newEmail == "" && emCode == "" && emStep == FormStep
    {
      showEmail, emStep, newEmail, emCode := false, FormStep, "", "";
    }

    /** The e-mail dialog's cancel button: back to the form step, the
        fields kept. */
    method CancelEmailDialog()
      requires Valid()
      modifies this`showEmail, this`emStep
      ensures Valid() && !showEmail && emStep == FormStep
    {
      showEmail, emStep := false, FormStep;
    }
  }

  /** The code step is reached only through a request the server accepted:
      a new password shorter than six characters never gets there. */
  method ShortPasswordNeverAsksForCode(items: map<string, string>, oldText: string, newText: string,
                                      reply: Reply<bool>)
    returns (calls: seq<Call>, step: Step)
    requires oldText != "" && newText != "" && |newText| < MinPasswordLength
    ensures calls == [] && step == FormStep
  {
    var storage := new Browser.Storage(items);
    var auth := new AuthState(storage);
    var screen := new SettingsScreen(auth);
    screen.OpenPasswordDialog();
    screen.TypePasswords(oldText, newText);
    var nav, toasts;
    calls, nav, toasts := screen.PasswordRequest(reply);
    step := screen.pwStep;
  }
}
