/** The administrator's request list (`AdminRequestsPage`): the query of a
    page, the badges and the one-line description of a request, the
    approve and reject actions of a pending request, and the filters that
    return to the first page. */
module AdminRequestsPage {
  import opened Common
  import opened Api
  import opened Helpers
  import opened PageEstimate

  const PendingStatus: string := "pending"
  const ApproveAction: string := "approve"
  const RejectAction: string := "reject"
  const ApprovedText: string := "Запрос одобрен"
  const RejectedText: string := "Запрос отклонён"
  const SomeUser: string := "Пользователь"
  const SomeCompany: string := "Фирма"
  const RegistrationMiddle: string := " хочет зарегистрироваться и зарегистрировать фирму "
  const JoinMiddle: string := " хочет войти в фирму "
  const PartnershipMiddle: string := " хочет сотрудничать с "
  const MessagePrefix: string := "Сообщение от "
  const MessageSender: string := "пользователя"

  /** The options of the type filter. */
  const RequestTypes: seq<Entry> := [
    Entry("company_registration", "Регистрация фирмы"),
    Entry("user_join", "Вступление"),
    Entry("partnership", "Сотрудничество"),
    Entry("message", "Сообщение")
  ]

  /** The options of the status filter. */
  const RequestStatuses: seq<Entry> := [
    Entry("pending", "Ожидает"),
    Entry("approved", "Одобрен"),
    Entry("rejected", "Отклонён")
  ]

  /** `RequestResponse`, as far as the list reads it. */
  datatype Request = Request(id: int, kind: string, status: string, fromUserName: Option<string>,
                             fromCompanyName: Option<string>, toCompanyName: Option<string>)

  /** The colours of `Badge`; `Neutral` is its default. */
  datatype Variant = Neutral | Primary | Success | Warning | Danger | Info

  datatype Badge = Badge(variant: Variant, text: string)

  predicate EndsWith(s: string, p: string) { |p| <= |s| && s[|s| - |p|..] == p }

  /** `getTypeBadge`: a known type shows its filter label in a colour of its
      own; any other type shows itself in the default colour. */
  function TypeBadge(kind: string): (r: Badge)
    ensures r.text == StatusLabel(RequestTypes, kind)
    ensures r.variant == Neutral <==> !Listed(RequestTypes, kind)
  {
    assert RequestTypes[0].value == "company_registration" && RequestTypes[1].value == "user_join";
    assert RequestTypes[2].value == "partnership" && RequestTypes[3].value == "message";
    match kind
    case "company_registration" => Badge(Info, "Регистрация фирмы")
    case "user_join" => Badge(Primary, "Вступление")
    case "partnership" => Badge(Success, "Сотрудничество")
    case "message" => Badge(Warning, "Сообщение")
    case _ => Badge(Neutral, kind)
  }

  /** `getStatusBadge`: the same rule over the status filter's labels. */
  function StatusBadge(status: string): (r: Badge)
    ensures r.text == StatusLabel(RequestStatuses, status)
    ensures r.variant == Neutral <==> !Listed(RequestStatuses, status)
    ensures r.variant == Warning <==> status == PendingStatus
  {
    assert RequestStatuses[0].value == "pending" && RequestStatuses[1].value == "approved";
    assert RequestStatuses[2].value == "rejected";
    match status
    case "pending" => Badge(Warning, "Ожидает")
    case "approved" => Badge(Success, "Одобрен")
    case "rejected" => Badge(Danger, "Отклонён")
    case _ => Badge(Neutral, status)
  }

  /** `getRequestDescription`: for each known type the sender comes first
      and the company asked last, with a stand-in word for a missing
      sender; any other type is described by the type itself. */
  function Description(q: Request): (r: string)
    ensures q.kind == "company_registration" ==>
      StartsWith(r, OrElse(q.fromUserName, SomeUser)) && EndsWith(r, OrElse(q.fromCompanyName, ""))
    ensures q.kind == "user_join" ==>
      StartsWith(r, OrElse(q.fromUserName, SomeUser)) && EndsWith(r, OrElse(q.toCompanyName, ""))
    ensures q.kind == "partnership" ==>
      StartsWith(r, OrElse(q.fromCompanyName, SomeCompany)) && EndsWith(r, OrElse(q.toCompanyName, ""))
    ensures q.kind == "message" ==>
      StartsWith(r, MessagePrefix) && EndsWith(r, OrElse(q.fromUserName, MessageSender))
    ensures !Listed(RequestTypes, q.kind) ==> r == q.kind
  {
    assert RequestTypes[0].value == "company_registration" && RequestTypes[1].value == "user_join";
    assert RequestTypes[2].value == "partnership" && RequestTypes[3].value == "message";
    match q.kind
    case "company_registration" =>
      OrElse(q.fromUserName, SomeUser) + RegistrationMiddle + OrElse(q.fromCompanyName, "")
    case "user_join" => OrElse(q.fromUserName, SomeUser) + JoinMiddle + OrElse(q.toCompanyName, "")
    case "partnership" => OrElse(q.fromCompanyName, SomeCompany) + PartnershipMiddle + OrElse(q.toCompanyName, "")
    case "message" => MessagePrefix + OrElse(q.fromUserName, MessageSender)
    case _ => q.kind
  }

  /** Every known type reads as a sentence, never as the bare type, and the
      badge of a known type never falls back to the raw value. */
  lemma KnownTypesAreDescribed(q: Request)
    requires Listed(RequestTypes, q.kind)
    ensures Description(q) != q.kind && TypeBadge(q.kind).text != q.kind
  {
    var i :| 0 <= i < |RequestTypes| && RequestTypes[i].value == q.kind;
    assert q.kind in ["company_registration", "user_join", "partnership", "message"];
    var desc := Description(q);
    if q.kind == "company_registration" {
      assert |desc| > |q.kind| by { assert desc == OrElse(q.fromUserName, SomeUser) + RegistrationMiddle + OrElse(q.fromCompanyName, ""); }
    } else if q.kind == "user_join" {
      assert |desc| > |q.kind| by { assert desc == OrElse(q.fromUserName, SomeUser) + JoinMiddle + OrElse(q.toCompanyName, ""); }
    } else if q.kind == "partnership" {
      assert |desc| > |q.kind| by {
        assert desc == OrElse(q.fromCompanyName, SomeCompany) + PartnershipMiddle + OrElse(q.toCompanyName, "");
      }
    } else {
      assert desc[0] != q.kind[0];
    }
  }

  /** The approve and reject buttons exist for a pending request only. */
  predicate ActionsShown(q: Request) { q.status == PendingStatus }

  /** The success toast of `handleAction`. */
  function ActionText(action: string): (r: string)
    ensures r == ApprovedText <==> action == ApproveAction
    ensures r == RejectedText <==> action != ApproveAction
  {
    if action == ApproveAction then ApprovedText else RejectedText
  }

  /** The query of `load`: the page window, and the type and the status only
      when chosen. */
  function RequestParams(page: int, typeFilter: Option<string>, statusFilter: Option<string>): (r: Params)
    ensures "skip" in r && r["skip"] == IntParam(Skip(page)) && "limit" in r && r["limit"] == IntParam(PageSize)
    ensures ("type" in r <==> TextSet(typeFilter)) && (TextSet(typeFilter) ==> r["type"] == StrParam(typeFilter.value))
    ensures ("status" in r <==> TextSet(statusFilter)) &&
            (TextSet(statusFilter) ==> r["status"] == StrParam(statusFilter.value))
    ensures |r| <= 4
  {
    var p0: Params := map["skip" := IntParam(Skip(page)), "limit" := IntParam(PageSize)];
    var p1 := if TextSet(typeFilter) then p0["type" := StrParam(typeFilter.value)] else p0;
    if TextSet(statusFilter) then p1["status" := StrParam(statusFilter.value)] else p1
  }

  class RequestsScreen {
    var page: int
    var typeFilter: Option<string>
    var statusFilter: Option<string>
    var requests: seq<Request>
    var totalCount: int
    /** The request whose action is under way. */
    var processing: Option<int>

    predicate Valid()
      reads this
    {
      page >= 1
    }

    constructor ()
      ensures Valid() && page == 1 && typeFilter == None && statusFilter == None
      ensures requests == [] && totalCount == 0 && processing == None
    {
      page, typeFilter, statusFilter := 1, None, None;
      requests, totalCount, processing := [], 0, None;
    }

    function Params(): Params
      reads this
    {
      RequestParams(page, typeFilter, statusFilter)
    }

    /** `load`: the query is filled key by key; a successful load replaces
        the list and the estimated total, a failed one keeps both. */
    method Load(reply: Reply<seq<Request>>) returns (calls: seq<Call>)
      requires Valid()
      modifies this`requests, this`totalCount
      ensures Valid() && calls == [ListRequests(Params())]
      ensures reply.Ok? ==> requests == reply.value && totalCount == EstimatedTotal(page, |reply.value|)
      ensures !reply.Ok? ==> requests == old(requests) && totalCount == old(totalCount)
    {
      var params: Params := map["skip" := IntParam((page - 1) * PageSize), "limit" := IntParam(PageSize)];
      if TextSet(typeFilter) { params := params["type" := StrParam(typeFilter.value)]; }
      if TextSet(statusFilter) { params := params["status" := StrParam(statusFilter.value)]; }
      calls := [ListRequests(params)];
      if reply.Ok? {
        requests := reply.value;
        totalCount := if |reply.value| < PageSize && page == 1 then |reply.value|
                      else page * PageSize + (if |reply.value| == PageSize then 1 else 0);
      }
    }

    /** `handleAction` from a button of a pending request: the decision is
        sent; on success the toast names it and the list is loaded again;
        either way nothing is under way afterwards. */
    method HandleAction(q: Request, action: string, reply: Reply<bool>, reload: Reply<seq<Request>>)
      returns (calls: seq<Call>, toasts: seq<Toast>)
      requires Valid() && q in requests && ActionsShown(q)
      modifies this`requests, this`totalCount, this`processing
      ensures Valid() && processing == None
      ensures reply.Ok? ==> calls == [HandleRequest(q.id, action), ListRequests(Params())] &&
                            toasts == [SuccessToast(ActionText(action))]
      ensures reply.Ok? && reload.Ok? ==>
                requests == reload.value && totalCount == EstimatedTotal(page, |reload.value|)
      ensures !(reply.Ok? && reload.Ok?) ==> requests == old(requests) && totalCount == old(totalCount)
      ensures !reply.Ok? ==> calls == [HandleRequest(q.id, action)] && toasts == []
    {
      processing := Some(q.id);
      calls, toasts := [HandleRequest(q.id, action)], [];
      if reply.Ok? {
        toasts := [SuccessToast(ActionText(action))];
        var more := Load(reload);
        calls := calls + more;
      }
      processing := None;
    }

    /** The arrows and numbers of `Pagination`. */
    method ChangePage(p: int)
      requires Valid() && p >= 1
      modifies this`page
      ensures Valid() && page == p
    {
      page := p;
    }

    /** Choosing or clearing a type returns to the first page. */
    method SetTypeFilter(v: Option<string>)
      requires Valid()
      modifies this`typeFilter, this`page
      ensures Valid() && typeFilter == v && page == 1
    {
      typeFilter, page := v, 1;
    }

    /** Choosing or clearing a status returns to the first page. */
    method SetStatusFilter(v: Option<string>)
      requires Valid()
      modifies this`statusFilter, this`page
      ensures Valid() && statusFilter == v && page == 1
    {
      statusFilter, page := v, 1;
    }
  }

  /** Approving a pending request of the first page: the decision goes out
      before the reload, the toast says approved, and the reload asks for
      the first page under the same filters. */
  method ApproveFromFirstPage(list: seq<Request>, i: nat, reload: Reply<seq<Request>>)
    returns (calls: seq<Call>, toasts: seq<Toast>)
    requires i < |list| && ActionsShown(list[i])
    ensures |calls| == 3 && calls[1] == HandleRequest(list[i].id, ApproveAction)
    ensures calls[2] == ListRequests(RequestParams(1, None, None)) && calls[0] == calls[2]
    ensures toasts == [SuccessToast(ApprovedText)]
  {
    var screen := new RequestsScreen();
    var first := screen.Load(Ok(list));
    calls, toasts := screen.HandleAction(list[i], ApproveAction, Ok(true), reload);
    calls := first + calls;
  }
}
