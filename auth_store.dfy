/** The session store (`useAuthStore`): the bearer token, the signed-in user,
    the admin flag, the authenticated flag and the company status, mirrored in
    three `localStorage` keys so that a page reload can restore the session. */
module AuthStore {
  import opened Common
  import opened Json
  import opened Browser

  const AccessTokenKey: string := "access_token"
  const UserKey: string := "user"
  const IsAdminKey: string := "is_admin"
  const SessionKeys: set<string> := {AccessTokenKey, UserKey, IsAdminKey}

  /** The storage after `setAuth(t, u, a)` wrote its three keys. */
  function WithSession(items: map<string, string>, t: string, u: User, a: bool): (r: map<string, string>)
    ensures AccessTokenKey in r && r[AccessTokenKey] == t
    ensures UserKey in r && r[UserKey] == EncodeUser(u)
    ensures IsAdminKey in r && r[IsAdminKey] == EncodeBool(a)
    ensures forall k :: k !in SessionKeys ==> (k in r <==> k in items)
    ensures forall k :: k in items && k !in SessionKeys ==> r[k] == items[k]
  {
    items[AccessTokenKey := t][UserKey := EncodeUser(u)][IsAdminKey := EncodeBool(a)]
  }

  /** The storage after the three session keys were removed. */
  function WithoutSession(items: map<string, string>): (r: map<string, string>)
    ensures forall k :: k in r <==> k in items && k !in SessionKeys
    ensures forall k :: k in r ==> r[k] == items[k]
  {
    items - SessionKeys
  }

  /** Removing the session keys a second time changes nothing: `logout` twice
      leaves the storage as `logout` once does. */
  lemma WithoutSessionIdempotent(items: map<string, string>)
    ensures WithoutSession(WithoutSession(items)) == WithoutSession(items)
  {
  }

  /** `localStorage.getItem(k)` is truthy: present and not the empty string. */
  predicate Present(items: map<string, string>, k: string) {
    k in items && items[k] != ""
  }

  /** What `loadFromStorage` decides from the stored texts. */
  datatype LoadOutcome =
    | Untouched                                        // token or user missing
    | Restored(token: string, user: User, isAdmin: bool) // the session comes back
    | Purged                                           // unreadable: keys removed

  /** The value `isAdmin` takes when `is_admin` parses: a missing or empty text
      is `false`, a parsed `null` is falsy. */
  function AdminFlag(items: map<string, string>): (r: Option<bool>)
    ensures !Present(items, IsAdminKey) ==> r == Some(false)
    ensures Present(items, IsAdminKey) ==>
      (r.None? <==> ParseBool(items[IsAdminKey]).Throws?)
    ensures r == Some(true) ==> items[IsAdminKey] == "true"
  {
    if !Present(items, IsAdminKey) then Some(false)
    else match ParseBool(items[IsAdminKey])
      case Throws => None
      case ParsedNull => Some(false)
      case Parsed(b) => Some(b)
  }

  /** The decision of `loadFromStorage` (`src/store/authStore.ts:59-79`,
      corrected so that a stored `"null"` user is treated as unreadable). */
  function LoadOutcomeOf(items: map<string, string>): (r: LoadOutcome)
    ensures r.Untouched? <==> !(Present(items, AccessTokenKey) && Present(items, UserKey))
    ensures r.Restored? ==>
      r.token == items[AccessTokenKey] && r.token != "" &&
      ParseUser(items[UserKey]) == Parsed(r.user) &&
      AdminFlag(items) == Some(r.isAdmin)
    ensures r.Purged? <==>
      Present(items, AccessTokenKey) && Present(items, UserKey) &&
      (!ParseUser(items[UserKey]).Parsed? || AdminFlag(items).None?)
  {
    if !(Present(items, AccessTokenKey) && Present(items, UserKey)) then Untouched
    else
      match ParseUser(items[UserKey])
      case Parsed(u) =>
        (match AdminFlag(items)
         case Some(a) => Restored(items[AccessTokenKey], u, a)
         case None => Purged)
      case _ => Purged
  }

  /** Reloading right after `setAuth(t, u, a)` restores exactly that session,
      whatever else the storage holds. The empty token is excluded because the
      source tests the token for truthiness. */
  lemma LoadAfterSetAuth(items: map<string, string>, t: string, u: User, a: bool)
    requires t != ""
    ensures LoadOutcomeOf(WithSession(items, t, u, a)) == Restored(t, u, a)
  {
    UserRoundTrip(u);
  }

  /** After `logout` there is nothing to restore. */
  lemma LoadAfterLogout(items: map<string, string>)
    ensures LoadOutcomeOf(WithoutSession(items)) == Untouched
  {
    assert AccessTokenKey !in WithoutSession(items);
  }

  /** A purge leaves nothing to restore, so a second reload does nothing more. */
  lemma LoadAfterPurge(items: map<string, string>)
    requires LoadOutcomeOf(items) == Purged
    ensures LoadOutcomeOf(WithoutSession(items)) == Untouched
  {
    assert AccessTokenKey !in WithoutSession(items);
  }

  // ---- the decision as written, with its one unintended outcome ----

  /** The outcome as the source computes it: `JSON.parse('null')` does not
      throw, so the session is restored with no user. */
  datatype LoadOutcomeAsWritten =
    | UntouchedAsWritten
    | RestoredAsWritten(token: string, user: Option<User>, isAdmin: bool)
    | PurgedAsWritten

  function LoadOutcomeAsWrittenOf(items: map<string, string>): (r: LoadOutcomeAsWritten)
    ensures r.RestoredAsWritten? && r.user.None? <==>
      Present(items, AccessTokenKey) && Present(items, UserKey) &&
      items[UserKey] == NullText && AdminFlag(items).Some?
  {
    if !(Present(items, AccessTokenKey) && Present(items, UserKey)) then UntouchedAsWritten
    else
      match ParseUser(items[UserKey])
      case Throws => PurgedAsWritten
      case ParsedNull =>
        (match AdminFlag(items)
         case Some(a) => RestoredAsWritten(items[AccessTokenKey], None, a)
         case None => PurgedAsWritten)
      case Parsed(u) =>
        (match AdminFlag(items)
         case Some(a) => RestoredAsWritten(items[AccessTokenKey], Some(u), a)
         case None => PurgedAsWritten)
  }

  /** A storage holding a token and the text `null` under `user` makes the
      source report an authenticated session without a user, while the
      corrected decision purges it. */
  lemma NullUserRestoresEmptySession()
    ensures var items := map[AccessTokenKey := "t", UserKey := NullText];
      LoadOutcomeAsWrittenOf(items) == RestoredAsWritten("t", None, false) &&
      LoadOutcomeOf(items) == Purged
  {
    var items := map[AccessTokenKey := "t", UserKey := NullText];
    assert Present(items, AccessTokenKey) && Present(items, UserKey);
    assert !Present(items, IsAdminKey);
  }

  class AuthState {
    var token: Option<string>
    var user: Option<User>
    var isAdmin: bool
    var isAuthenticated: bool
    var companyStatus: Option<string>
    const storage: Storage

    /** Authenticated implies a token and a user are held. */
    predicate Valid()
      reads this
    {
      isAuthenticated ==> token.Some? && user.Some?
    }

    /** Every field at its initial value, as after `logout`. */
    predicate SignedOut()
      reads this
    {
      token == None && user == None && !isAdmin && !isAuthenticated && companyStatus == None
    }

    /** The store as created, over the shared `storage`. */
    constructor (storage: Storage)
      ensures this.storage == storage
      ensures SignedOut() && Valid()
    {
      this.storage := storage;
      token := None;
      user := None;
      isAdmin := false;
      isAuthenticated := false;
      companyStatus := None;
    }

    /** `setAuth(t, u, a)`: writes the three keys, then the four session
        fields; the company status is kept. */
    method SetAuth(t: string, u: User, a: bool)
      modifies this, storage
      ensures storage.items == WithSession(old(storage.items), t, u, a)
      ensures token == Some(t) && user == Some(u) && isAdmin == a && isAuthenticated
      ensures companyStatus == old(companyStatus)
      ensures Valid()
    {
      storage.SetItem(AccessTokenKey, t);
      storage.SetItem(UserKey, EncodeUser(u));
      storage.SetItem(IsAdminKey, EncodeBool(a));
      token, user, isAdmin, isAuthenticated := Some(t), Some(u), a, true;
    }

    /** `setUser(u)`: replaces the user, in memory and under the `user` key. */
    method SetUser(u: User)
      requires Valid()
      modifies this`user, storage
      ensures storage.items == old(storage.items)[UserKey := EncodeUser(u)]
      ensures user == Some(u)
      ensures Valid()
    {
      storage.SetItem(UserKey, EncodeUser(u));
      user := Some(u);
    }

    /** `setCompanyStatus(s)`: in memory only. */
    method SetCompanyStatus(s: string)
      requires Valid()
      modifies this`companyStatus
      ensures companyStatus == Some(s)
      ensures Valid()
    {
      companyStatus := Some(s);
    }

    /** `logout()`: removes the three keys and resets every field. */
    method Logout()
      modifies this, storage
      ensures storage.items == WithoutSession(old(storage.items))
      ensures SignedOut() && Valid()
    {
      storage.RemoveItem(AccessTokenKey);
      storage.RemoveItem(UserKey);
      storage.RemoveItem(IsAdminKey);
      token, user, isAdmin, isAuthenticated, companyStatus := None, None, false, false, None;
    }

    /** `loadFromStorage()`: restores the session from the three keys when
        the token and the user are both truthy; removes the keys instead when
        they cannot be read back. */
    method LoadFromStorage()
      requires Valid()
      modifies this, storage
      ensures Valid()
      ensures companyStatus == old(companyStatus)
      ensures match LoadOutcomeOf(old(storage.items))
        case Untouched =>
          storage.items == old(storage.items) &&
          token == old(token) && user == old(user) &&
          isAdmin == old(isAdmin) && isAuthenticated == old(isAuthenticated)
        case Restored(t, u, a) =>
          storage.items == old(storage.items) &&
          token == Some(t) && user == Some(u) && isAdmin == a && isAuthenticated
        case Purged =>
          storage.items == WithoutSession(old(storage.items)) &&
          token == old(token) && user == old(user) &&
          isAdmin == old(isAdmin) && isAuthenticated == old(isAuthenticated)
    {
      var storedToken := storage.GetItem(AccessTokenKey);
      var userText := storage.GetItem(UserKey);
      var adminText := storage.GetItem(IsAdminKey);
      if TextSet(storedToken) && TextSet(userText) {
        var parsedUser := ParseUser(userText.value);
        var flag: Option<bool>;
        if TextSet(adminText) {
          flag := match ParseBool(adminText.value)
            case Throws => None
            case ParsedNull => Some(false)
            case Parsed(b) => Some(b);
        } else {
          flag := Some(false);
        }
        if parsedUser.Parsed? && flag.Some? {
          token, user, isAdmin, isAuthenticated := storedToken, Some(parsedUser.value), flag.value, true;
        } else {
          storage.RemoveItem(AccessTokenKey);
          storage.RemoveItem(UserKey);
          storage.RemoveItem(IsAdminKey);
        }
      }
    }
  }

  /** A page reload after a successful sign-in: a fresh store over the same
      storage restores the session that `setAuth` wrote. */
  method ReloadAfterSetAuth(initial: map<string, string>, t: string, u: User, a: bool)
    returns (token: Option<string>, user: Option<User>, isAdmin: bool, isAuthenticated: bool)
    requires t != ""
    ensures token == Some(t) && user == Some(u) && isAdmin == a && isAuthenticated
  {
    var storage := new Storage(initial);
    var before := new AuthState(storage);
    before.SetAuth(t, u, a);
    LoadAfterSetAuth(initial, t, u, a);
    var after := new AuthState(storage);
    after.LoadFromStorage();
    token, user, isAdmin, isAuthenticated := after.token, after.user, after.isAdmin, after.isAuthenticated;
  }

  /** A page reload after `logout`: the fresh store stays signed out. */
  method ReloadAfterLogout(initial: map<string, string>)
    returns (isAuthenticated: bool, remaining: map<string, string>)
    ensures !isAuthenticated
    ensures remaining == WithoutSession(initial)
  {
    var storage := new Storage(initial);
    var before := new AuthState(storage);
    before.Logout();
    LoadAfterLogout(initial);
    var after := new AuthState(storage);
    after.LoadFromStorage();
    isAuthenticated, remaining := after.isAuthenticated, storage.items;
  }
}
