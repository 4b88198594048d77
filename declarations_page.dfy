/** The declarations list (`DeclarationsPage`): the filters, the query they
    produce, the estimated total handed to `Pagination`, and the rule that
    every filter change returns to the first page. */
module DeclarationsPage {
  import opened Common
  import opened Api
  import opened Json
  import opened PageEstimate

  /** The query of `loadDeclarations`: the page window, the search text as
      both the declaration and the post number, and each other filter only
      when set. */
  function DeclarationParams(page: int, search: string, dateFrom: string, dateTo: string,
                             regime: Option<string>, userId: Option<int>, myOnly: bool): (r: Params)
    ensures "skip" in r && r["skip"] == IntParam(Skip(page)) && "limit" in r && r["limit"] == IntParam(PageSize)
  {
    var p0: Params := map["skip" := IntParam(Skip(page)), "limit" := IntParam(PageSize)];
    var p1 := if search != "" then p0["declaration_number" := StrParam(search)]["post_number" := StrParam(search)] else p0;
    var p2 := if dateFrom != "" then p1["date_from" := StrParam(dateFrom)] else p1;
    var p3 := if dateTo != "" then p2["date_to" := StrParam(dateTo)] else p2;
    var p4 := if TextSet(regime) then p3["regime" := StrParam(regime.value)] else p3;
    var p5 := if IdSet(userId) then p4["user_id" := IntParam(userId.value)] else p4;
    if myOnly then p5["my_only" := BoolParam(true)] else p5
  }

  /** The search text is sent as both numbers exactly when it is not empty. */
  lemma SearchSentAsBothNumbers(page: int, search: string, dateFrom: string, dateTo: string,
                                regime: Option<string>, userId: Option<int>, myOnly: bool)
    ensures var r := DeclarationParams(page, search, dateFrom, dateTo, regime, userId, myOnly);
      ("declaration_number" in r <==> search != "") && ("post_number" in r <==> search != "") &&
      (search != "" ==> r["declaration_number"] == StrParam(search) && r["post_number"] == StrParam(search))
  {
  }

  /** Each date bound is sent exactly when it is filled in. */
  lemma DatesSentWhenSet(page: int, search: string, dateFrom: string, dateTo: string,
                         regime: Option<string>, userId: Option<int>, myOnly: bool)
    ensures var r := DeclarationParams(page, search, dateFrom, dateTo, regime, userId, myOnly);
      ("date_from" in r <==> dateFrom != "") && (dateFrom != "" ==> r["date_from"] == StrParam(dateFrom)) &&
      ("date_to" in r <==> dateTo != "") && (dateTo != "" ==> r["date_to"] == StrParam(dateTo))
  {
  }

  /** The regime, the employee and "only mine" are each sent exactly when set. */
  lemma FiltersSentWhenSet(page: int, search: string, dateFrom: string, dateTo: string,
                           regime: Option<string>, userId: Option<int>, myOnly: bool)
    ensures var r := DeclarationParams(page, search, dateFrom, dateTo, regime, userId, myOnly);
      ("regime" in r <==> TextSet(regime)) && (TextSet(regime) ==> r["regime"] == StrParam(regime.value)) &&
      ("user_id" in r <==> IdSet(userId)) && (IdSet(userId) ==> r["user_id"] == IntParam(userId.value)) &&
      ("my_only" in r <==> myOnly) && (myOnly ==> r["my_only"] == BoolParam(true))
  {
  }

  class DeclarationsScreen {
    const isDirector: bool
    var page: int
    var search: string
    var dateFrom: string
    var dateTo: string
    var regime: Option<string>
    var selectedUserId: Option<int>
    var myOnly: bool
    var totalCount: int
    /** How many rows the last successful load returned. */
    var rows: nat
    var employees: seq<Choice>

    /** The page is never below one, and "only mine" and a chosen employee
        exclude each other. */
    predicate Valid()
      reads this
    {
      page >= 1 && (myOnly ==> selectedUserId == None)
    }

    constructor (user: Option<User>)
      ensures Valid() && isDirector == (user.Some? && user.value.role == Some("director"))
      ensures page == 1 && search == "" && dateFrom == "" && dateTo == "" && regime == None
      ensures selectedUserId == None && !myOnly && totalCount == 0 && rows == 0 && employees == []
    {
      isDirector := user.Some? && user.value.role == Some("director");
      page, search, dateFrom, dateTo := 1, "", "", "";
      regime, selectedUserId, myOnly := None, None, false;
      totalCount, rows, employees := 0, 0, [];
    }

    function Params(): Params
      reads this
    {
      DeclarationParams(page, search, dateFrom, dateTo, regime, selectedUserId, myOnly)
    }

    /** `loadDeclarations`: the query is filled key by key; a successful
        load replaces the rows and the estimated total, a failed one keeps
        both. */
    method Load(reply: Reply<nat>) returns (calls: seq<Call>)
      requires Valid()
      modifies this`totalCount, this`rows
      ensures Valid() && calls == [ListDeclarations(Params())]
      ensures reply.Ok? ==> rows == reply.value && totalCount == EstimatedTotal(page, reply.value)
      ensures !reply.Ok? ==> rows == old(rows) && totalCount == old(totalCount)
    {
      var params: Params := map["skip" := IntParam((page - 1) * PageSize), "limit" := IntParam(PageSize)];
      if search != "" {
        params := params["declaration_number" := StrParam(search)];
        params := params["post_number" := StrParam(search)];
      }
      if dateFrom != "" { params := params["date_from" := StrParam(dateFrom)]; }
      if dateTo != "" { params := params["date_to" := StrParam(dateTo)]; }
      if TextSet(regime) { params := params["regime" := StrParam(regime.value)]; }
      if IdSet(selectedUserId) { params := params["user_id" := IntParam(selectedUserId.value)]; }
      if myOnly { params := params["my_only" := BoolParam(true)]; }
      calls := [ListDeclarations(params)];
      if reply.Ok? {
        rows := reply.value;
        totalCount := if reply.value < PageSize && page == 1 then reply.value
                      else page * PageSize + (if reply.value == PageSize then 1 else 0);
      }
    }

    /** The employee filter's list, fetched for a director only. */
    method LoadEmployees(reply: Reply<Employees>) returns (calls: seq<Call>)
      requires Valid()
      modifies this`employees
      ensures Valid()
      ensures !isDirector ==> calls == [] && employees == old(employees)
      ensures isDirector ==> calls == [ListEmployees]
      ensures isDirector && reply.Ok? ==> employees == MemberChoices(MyMembers(reply.value))
      ensures isDirector && !reply.Ok? ==> employees == old(employees)
    {
      calls := [];
      if isDirector {
        calls := [ListEmployees];
        if reply.Ok? {
          employees := MemberChoices(MyMembers(reply.value));
        }
      }
    }

    /** The arrows and numbers of `Pagination`. */
    method ChangePage(p: int)
      requires Valid() && p >= 1
      modifies this`page
      ensures Valid() && page == p
    {
      page := p;
    }

    method SetSearch(v: string)
      requires Valid()
      modifies this`search, this`page
      ensures Valid() && search == v && page == 1
    {
      search, page := v, 1;
    }

    method SetDateFrom(v: string)
      requires Valid()
      modifies this`dateFrom, this`page
      ensures Valid() && dateFrom == v && page == 1
    {
      dateFrom, page := v, 1;
    }

    method SetDateTo(v: string)
      requires Valid()
      modifies this`dateTo, this`page
      ensures Valid() && dateTo == v && page == 1
    {
      dateTo, page := v, 1;
    }

    method SetRegime(v: Option<string>)
      requires Valid()
      modifies this`regime, this`page
      ensures Valid() && regime == v && page == 1
    {
      regime, page := v, 1;
    }

    /** The employee filter, shown to a director: choosing (or clearing) an
        employee unticks "only mine". */
    method SelectEmployee(v: Option<int>)
      requires Valid() && isDirector
      modifies this`selectedUserId, this`page, this`myOnly
      ensures Valid() && selectedUserId == v && page == 1 && !myOnly
    {
      selectedUserId, page, myOnly := v, 1, false;
    }

    /** "Only mine", either way, forgets the chosen employee. */
    method SetMyOnly(checked: bool)
      requires Valid()
      modifies this`myOnly, this`selectedUserId, this`page
      ensures Valid() && myOnly == checked && selectedUserId == None && page == 1
    {
      myOnly, selectedUserId, page := checked, None, 1;
    }
  }

  /** A query never asks for "only mine" and for an employee at once. */
  lemma QueryNeverMixesOwners(s: DeclarationsScreen)
    requires s.Valid()
    ensures !("my_only" in s.Params() && "user_id" in s.Params())
  {
    FiltersSentWhenSet(s.page, s.search, s.dateFrom, s.dateTo, s.regime, s.selectedUserId, s.myOnly);
  }

  /** Browsing forward past a full page and changing a filter starts over:
      the next load asks for the first fifty rows again. */
  method FilterResetsPaging(user: Option<User>, text: string, full: Reply<nat>, next: Reply<nat>)
    returns (calls: seq<Call>)
    ensures |calls| == 3 && calls[1].ListDeclarations? && calls[2].ListDeclarations?
    ensures "skip" in calls[1].params && calls[1].params["skip"] == IntParam(PageSize)
    ensures "skip" in calls[2].params && calls[2].params["skip"] == IntParam(0)
  {
    var screen := new DeclarationsScreen(user);
    var first := screen.Load(full);
    screen.ChangePage(2);
    var second := screen.Load(next);
    screen.SetSearch(text);
    var third := screen.Load(next);
    calls := first + second + third;
  }
}
