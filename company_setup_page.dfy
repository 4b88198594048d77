/** The company setup screen (`CompanySetupPage`): a pending company request
    shows a waiting screen; otherwise the user chooses between registering a
    new company and joining an existing one found by its 9-digit INN. */
module CompanySetupPage {
  import opened Common
  import opened Api
  import opened AuthStore
  import Browser

  const InnLength: nat := 9
  const PendingStatus: string := "pending"
  const InnLengthText: string := "ИНН должен состоять из 9 цифр"
  const NameMissingText: string := "Введите имя фирмы"
  const LookupFirstText: string := "Сначала найдите фирму по ИНН"
  const NotFoundText: string := "Фирма не найдена. Проверьте правильность ИНН."
  const FoundPrefix: string := "Фирма найдена: "
  const CreateSentText: string := "Запрос на регистрацию фирмы отправлен! Ожидайте одобрения."
  const JoinSentText: string := "Запрос на вступление в фирму отправлен!"

  /** `CompanyLookupResponse`. */
  datatype CompanyLookup = CompanyLookup(found: bool, companyName: Option<string>, companyId: Option<int>)

  datatype Mode = Choose | Create | Join

  /** What the screen shows. */
  datatype View = PendingView | ModeView(mode: Mode)

  /** A pending request wins over whatever mode was chosen. */
  function ViewOf(companyStatus: Option<string>, mode: Mode): (r: View)
    ensures companyStatus == Some(PendingStatus) ==> r == PendingView
    ensures companyStatus != Some(PendingStatus) ==> r == ModeView(mode)
  {
    if companyStatus == Some(PendingStatus) then PendingView else ModeView(mode)
  }

  /** The success toast interpolates the name as JavaScript turns it into text. */
  function FoundText(name: Option<string>): string {
    FoundPrefix + (if name.Some? then name.value else "null")
  }

  class SetupForm {
    var mode: Mode
    var companyName: string
    var inn: string
    var foundCompanyName: string
    /** The INN whose lookup produced `foundCompanyName`. */
    ghost var foundFor: string
    const auth: AuthState

    /** The INN field holds at most nine digits, and a found company name
        only exists in join mode and belongs to the INN now in the field. */
    ghost predicate Valid()
      reads this
    {
      AllDigits(inn) && |inn| <= InnLength &&
      (foundCompanyName != "" ==> mode == Join && foundFor == inn)
    }

    constructor (auth: AuthState)
      ensures Valid() && this.auth == auth
      ensures mode == Choose && companyName == "" && inn == "" && foundCompanyName == ""
    {
      this.auth := auth;
      mode, companyName, inn, foundCompanyName := Choose, "", "", "";
      foundFor := "";
    }

    function Screen(): View
      reads this, auth
    {
      ViewOf(auth.companyStatus, mode)
    }

    /** The two buttons of the choice screen. */
    method ChooseMode(m: Mode)
      requires Valid() && mode == Choose && m != Choose
      modifies this`mode
      ensures Valid() && mode == m
    {
      mode := m;
    }

    /** Back from the create form: the fields are kept. */
    method BackFromCreate()
      requires Valid() && mode == Create
      modifies this`mode
      ensures Valid() && mode == Choose
    {
      mode := Choose;
    }

    /** Back from the join form: the INN and the found name are cleared. */
    method BackFromJoin()
      requires Valid()
      modifies this`mode, this`foundCompanyName, this`inn
      ensures Valid() && mode == Choose && foundCompanyName == "" && inn == ""
    {
      mode, foundCompanyName, inn := Choose, "", "";
    }

    /** The INN input of the create form. */
    method TypeInnCreate(raw: string)
      requires Valid() && mode == Create
      modifies this`inn
      ensures Valid() && inn == DigitsUpTo(raw, InnLength)
    {
      inn := DigitsUpTo(raw, InnLength);
    }

    /** The INN input of the join form: any edit forgets the found company. */
    method TypeInnJoin(raw: string)
      requires Valid() && mode == Join
      modifies this`inn, this`foundCompanyName
      ensures Valid() && inn == DigitsUpTo(raw, InnLength) && foundCompanyName == ""
    {
      inn := DigitsUpTo(raw, InnLength);
      foundCompanyName := "";
    }

    /** `handleLookup` (its button is on the join form). */
    method HandleLookup(reply: Reply<CompanyLookup>) returns (calls: seq<Call>, toasts: seq<Toast>)
      requires Valid() && mode == Join
      modifies this`foundCompanyName, this`foundFor
      ensures Valid()
      ensures |inn| != InnLength ==>
        calls == [] && toasts == [ErrorToast(InnLengthText)] && foundCompanyName == old(foundCompanyName)
      ensures |inn| == InnLength ==> calls == [LookupCompany(inn)]
      ensures |inn| == InnLength && reply.Ok? && reply.value.found ==>
        foundCompanyName == reply.value.companyName.GetOr("") &&
        toasts == [SuccessToast(FoundText(reply.value.companyName))]
      ensures |inn| == InnLength && reply.Ok? && !reply.value.found ==>
        foundCompanyName == "" && toasts == [ErrorToast(NotFoundText)]
      ensures |inn| == InnLength && !reply.Ok? ==> foundCompanyName == old(foundCompanyName) && toasts == []
    {
      if |inn| != InnLength {
        return [], [ErrorToast(InnLengthText)];
      }
      calls, toasts := [LookupCompany(inn)], [];
      if reply.Ok? {
        if reply.value.found {
          foundCompanyName := reply.value.companyName.GetOr("");
          foundFor := inn;
          toasts := [SuccessToast(FoundText(reply.value.companyName))];
        } else {
          foundCompanyName := "";
          toasts := [ErrorToast(NotFoundText)];
        }
      }
    }

    /** `handleCreate`: a name that is not blank, then a 9-digit INN; the
        name is sent as typed, untrimmed. */
    method HandleCreate(reply: Reply<bool>) returns (calls: seq<Call>, nav: Option<string>, toasts: seq<Toast>)
      ensures Trim(companyName) == "" ==> calls == [] && nav == None && toasts == [ErrorToast(NameMissingText)]
      ensures Trim(companyName) != "" && |inn| != InnLength ==>
        calls == [] && nav == None && toasts == [ErrorToast(InnLengthText)]
      ensures Trim(companyName) != "" && |inn| == InnLength ==>
        calls == [CreateCompany(companyName, inn)] &&
        (nav == Some(LoginPath) <==> reply.Ok?) && (!reply.Ok? ==> nav == None) &&
        toasts == (if reply.Ok? then [SuccessToast(CreateSentText)] else [])
    {
      if Trim(companyName) == "" {
        return [], None, [ErrorToast(NameMissingText)];
      }
      if |inn| != InnLength {
        return [], None, [ErrorToast(InnLengthText)];
      }
      calls, nav, toasts := [CreateCompany(companyName, inn)], None, [];
      if reply.Ok? {
        toasts := [SuccessToast(CreateSentText)];
        nav := Some(LoginPath);
      }
    }

    /** `handleJoin`: a 9-digit INN whose lookup found a company. */
    method HandleJoin(reply: Reply<bool>) returns (calls: seq<Call>, nav: Option<string>, toasts: seq<Toast>)
      requires Valid()
      ensures |inn| != InnLength ==> calls == [] && nav == None && toasts == [ErrorToast(InnLengthText)]
      ensures |inn| == InnLength && foundCompanyName == "" ==>
        calls == [] && nav == None && toasts == [ErrorToast(LookupFirstText)]
      ensures calls != [] ==> foundCompanyName != "" && foundFor == inn && mode == Join
      ensures |inn| == InnLength && foundCompanyName != "" ==>
        calls == [JoinCompany(inn)] &&
        (nav == Some(LoginPath) <==> reply.Ok?) && (!reply.Ok? ==> nav == None) &&
        toasts == (if reply.Ok? then [SuccessToast(JoinSentText)] else [])
    {
      if |inn| != InnLength {
        return [], None, [ErrorToast(InnLengthText)];
      }
      if foundCompanyName == "" {
        return [], None, [ErrorToast(LookupFirstText)];
      }
      calls, nav, toasts := [JoinCompany(inn)], None, [];
      if reply.Ok? {
        toasts := [SuccessToast(JoinSentText)];
        nav := Some(LoginPath);
      }
    }

    /** `handleLogout`: the session is cleared, then the login page. */
    method HandleLogout() returns (nav: string)
      modifies auth, auth.storage
      ensures auth.SignedOut() && auth.storage.items == WithoutSession(old(auth.storage.items))
      ensures nav == LoginPath
    {
      auth.Logout();
      nav := LoginPath;
    }
  }

  /** A join request is sent only for the INN of the last successful lookup:
      after looking up one INN and typing a different one, joining is
      refused without a server call. */
  method LookupThenRetype(items: map<string, string>, first: string, second: string,
                          found: Option<string>, reply: Reply<bool>)
    returns (calls: seq<Call>, toasts: seq<Toast>)
    requires |DigitsUpTo(first, InnLength)| == InnLength
    ensures calls == []
    ensures |DigitsUpTo(second, InnLength)| == InnLength ==> toasts == [ErrorToast(LookupFirstText)]
    ensures |DigitsUpTo(second, InnLength)| != InnLength ==> toasts == [ErrorToast(InnLengthText)]
  {
    var storage := new Browser.Storage(items);
    var auth := new AuthState(storage);
    var form := new SetupForm(auth);
    form.ChooseMode(Join);
    form.TypeInnJoin(first);
    var _, _ := form.HandleLookup(Ok(CompanyLookup(true, found, None)));
    form.TypeInnJoin(second);
    var nav;
    calls, nav, toasts := form.HandleJoin(reply);
  }
}
