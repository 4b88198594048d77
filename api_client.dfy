/** The HTTP client's two interceptors (`src/api/client.ts`): the request side
    attaches the stored bearer token; the response side turns an error into a
    message, raises the toast for its status code and, on 401, forgets the
    stored token and sends the browser to the login page. In every case the
    error is passed on to the caller, which is why every handler in this model
    receives a failed call as an `Err` or `NoResponse` reply. */
module ApiClient {
  import opened Common
  import opened Browser
  import opened AuthStore

  const AuthorizationHeader: string := "Authorization"
  const DefaultErrorMessage: string := "Произошла ошибка"
  const ServerErrorText: string := "Ошибка сервера"
  const ServerUnreachableText: string := "Сервер недоступен. Проверьте подключение."
  const ForbiddenPrefix: string := "Нет доступа: "
  const NotFoundPrefix: string := "Не найдено: "
  const ValidationPrefix: string := "Ошибка валидации: "

  /** The request interceptor: `Authorization: Bearer <token>` when a truthy
      token is stored, otherwise the headers as they were. */
  function WithBearer(headers: map<string, string>, stored: Option<string>): (r: map<string, string>)
    ensures TextSet(stored) ==>
      AuthorizationHeader in r && r[AuthorizationHeader] == "Bearer " + stored.value
    ensures !TextSet(stored) ==> r == headers
    ensures forall k :: k != AuthorizationHeader ==>
      (k in r <==> k in headers) && (k in headers ==> r[k] == headers[k])
  {
    if TextSet(stored) then headers[AuthorizationHeader := "Bearer " + stored.value] else headers
  }

  /** The message pulled out of `detail`: a non-empty string as it is, a
      non-empty list as its `msg` fields joined with `", "`, anything else as
      the generic text. */
  function Message(d: Detail): (r: string)
    ensures d.TextDetail? && d.text != "" ==> r == d.text
    ensures d.ListDetail? && d.msgs != [] ==> r == Join(d.msgs, ", ")
    ensures !((d.TextDetail? && d.text != "") || (d.ListDetail? && d.msgs != [])) ==>
      r == DefaultErrorMessage
  {
    match d
    case TextDetail(t) => if t != "" then t else DefaultErrorMessage
    case ListDetail(ms) => if ms != [] then Join(ms, ", ") else DefaultErrorMessage
    case _ => DefaultErrorMessage
  }

  /** The toast for an error response with a given status. */
  function StatusToast(status: int, d: Detail): (r: Option<Toast>)
    ensures r.None? <==> status == 401
    ensures r.Some? ==> r.value.ErrorToast?
  {
    if status == 401 then None
    else if status == 403 then Some(ErrorToast(ForbiddenPrefix + Message(d)))
    else if status == 404 then Some(ErrorToast(NotFoundPrefix + Message(d)))
    else if status == 422 then Some(ErrorToast(ValidationPrefix + Message(d)))
    else if status == 500 then Some(ErrorToast(ServerErrorText))
    else Some(ErrorToast(Message(d)))
  }

  /** The known client-error codes put a fixed prefix before the message, and
      any other status except 401 and 500 shows the bare message. */
  lemma StatusToastShowsMessage(status: int, d: Detail)
    requires status != 401 && status != 500
    ensures var prefix :=
        if status == 403 then ForbiddenPrefix
        else if status == 404 then NotFoundPrefix
        else if status == 422 then ValidationPrefix
        else "";
      StatusToast(status, d) == Some(ErrorToast(prefix + Message(d)))
  {
    if status != 403 && status != 404 && status != 422 {
      assert "" + Message(d) == Message(d);
    }
  }

  /** A 500 always shows the same text, whatever the server wrote in `detail`. */
  lemma ServerErrorIgnoresDetail(d1: Detail, d2: Detail)
    ensures StatusToast(500, d1) == StatusToast(500, d2) == Some(ErrorToast(ServerErrorText))
  {
  }

  /** The paths from which a 401 does not redirect. */
  predicate IsAuthPage(pathname: string) {
    pathname == LoginPath || pathname == RegisterPath || pathname == AdminLoginPath
  }

  /** A reply the server refused with 401. */
  predicate Unauthorized<T>(r: Reply<T>) {
    r.Err? && r.status == 401
  }

  /** The storage as the response interceptor leaves it: `access_token` and
      `user` gone after a 401, every key kept otherwise. */
  function AfterInterceptor(items: map<string, string>, unauthorized: bool): map<string, string> {
    if unauthorized then items - {AccessTokenKey, UserKey} else items
  }

  /** Where the response interceptor sends the browser from `pathname`. */
  function InterceptorRedirect(pathname: string, unauthorized: bool): Option<string> {
    if unauthorized && !IsAuthPage(pathname) then Some(LoginPath) else None
  }

  /** The response interceptor around one call made from `pathname`: a
      success passes through, a failure goes to `OnResponseError`. The toast
      it raises is not returned. */
  method Intercept<T>(storage: Storage, pathname: string, reply: Reply<T>) returns (redirect: Option<string>)
    modifies storage
    ensures storage.items == AfterInterceptor(old(storage.items), Unauthorized(reply))
    ensures redirect == InterceptorRedirect(pathname, Unauthorized(reply))
  {
    redirect := None;
    if !reply.Ok? {
      var _, r := OnResponseError(storage, pathname, reply);
      redirect := r;
    }
  }

  /** The response interceptor's error branch, for a call that failed. It
      returns the toast it raised and the page it sent the browser to. */
  method OnResponseError<T>(storage: Storage, pathname: string, failure: Reply<T>)
    returns (toast: Option<Toast>, redirect: Option<string>)
    requires !failure.Ok?
    modifies storage
    ensures failure.Err? && failure.status == 401 ==>
      storage.items == old(storage.items) - {AccessTokenKey, UserKey} &&
      toast == None &&
      (redirect == Some(LoginPath) <==> !IsAuthPage(pathname)) &&
      (redirect.Some? ==> redirect == Some(LoginPath))
    ensures failure.Err? && failure.status != 401 ==>
      storage.items == old(storage.items) && redirect == None &&
      toast == StatusToast(failure.status, failure.detail)
    ensures failure.NoResponse? ==>
      storage.items == old(storage.items) && redirect == None &&
      toast == Some(ErrorToast(ServerUnreachableText))
  {
    toast, redirect := None, None;
    match failure
    case Err(status, detail) =>
      if status == 401 {
        storage.RemoveItem(AccessTokenKey);
        storage.RemoveItem(UserKey);
        if !IsAuthPage(pathname) {
          redirect := Some(LoginPath);
        }
      } else {
        toast := StatusToast(status, detail);
      }
    case NoResponse =>
      toast := Some(ErrorToast(ServerUnreachableText));
  }

  /** A 401 leaves `is_admin` behind, but without the token nothing is
      restored on the next load and no bearer header is sent. */
  lemma AfterUnauthorized(items: map<string, string>, headers: map<string, string>)
    ensures var rest := items - {AccessTokenKey, UserKey};
      LoadOutcomeOf(rest) == Untouched &&
      WithBearer(headers, if AccessTokenKey in rest then Some(rest[AccessTokenKey]) else None) == headers
  {
    var rest := items - {AccessTokenKey, UserKey};
    assert AccessTokenKey !in rest;
  }

  /** After a 401 the next request carries no bearer header and a reload
      restores nothing. */
  method RequestAfterUnauthorized(items: map<string, string>, headers: map<string, string>)
    returns (sent: map<string, string>, restored: bool)
    ensures sent == headers
    ensures !restored
  {
    var storage := new Storage(items);
    var _, _ := OnResponseError<bool>(storage, DashboardPath, Err(401, NoDetail));
    sent := WithBearer(headers, storage.GetItem(AccessTokenKey));
    var store := new AuthState(storage);
    store.LoadFromStorage();
    restored := store.isAuthenticated;
  }
}
