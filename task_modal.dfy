/** The new-task dialog (`CreateTaskModal`): the target company defaults to
    the user's own, the company dropdown lists the own company first and then
    the partners, choosing another company forgets the chosen employee, and
    four checks run in a fixed order before `create`. */
module TaskModal {
  import opened Common
  import opened Api
  import opened Json
  import Helpers

  const OwnSuffix: string := " (моя фирма)"
  const DefaultPriority: string := "normal"
  const DefaultStatus: string := "new"

  const CompanyText: string := "Выберите фирму"
  const UserText: string := "Выберите сотрудника"
  const TitleText: string := "Введите название"
  const DeadlineText: string := "Укажите дедлайн"
  const CreatedText: string := "Задача создана"

  /** `user?.company_id || null`. */
  function InitialCompany(user: Option<User>): (r: Option<int>)
    ensures r.Some? <==> user.Some? && IdSet(user.value.companyId)
    ensures r.Some? ==> r == user.value.companyId
  {
    if user.Some? && IdSet(user.value.companyId) then user.value.companyId else None
  }

  /** The own company's entry, present only when the user has both a
      company id and a company name. */
  function OwnChoice(user: Option<User>): (r: seq<Choice>)
    ensures |r| <= 1
    ensures r != [] <==> user.Some? && IdSet(user.value.companyId) && TextSet(user.value.companyName)
    ensures r != [] ==> r[0] == Choice(user.value.companyId.value, user.value.companyName.value + OwnSuffix)
  {
    if user.Some? && IdSet(user.value.companyId) && TextSet(user.value.companyName)
    then [Choice(user.value.companyId.value, user.value.companyName.value + OwnSuffix)]
    else []
  }

  /** Every partner as an entry, in the server's order. */
  function PartnerChoices(ps: seq<Partner>): (r: seq<Choice>)
    ensures |r| == |ps|
    ensures forall i :: 0 <= i < |ps| ==> r[i] == ChoiceOf(ps[i])
  {
    if ps == [] then [] else [ChoiceOf(ps[0])] + PartnerChoices(ps[1..])
  }

  /** The employee dropdown after the list was (re)loaded for `company`:
      empty without a company, the own company's members after a
      successful fetch whichever company is chosen, and unchanged after a
      failed one. */
  function EmployeeChoices(company: Option<int>, reply: Reply<Employees>, current: seq<Choice>): (r: seq<Choice>)
    ensures !IdSet(company) ==> r == []
    ensures IdSet(company) && reply.Ok? ==> r == MemberChoices(MyMembers(reply.value))
    ensures IdSet(company) && reply.Ok? && reply.value.myCompany.None? ==> r == []
    ensures IdSet(company) && !reply.Ok? ==> r == current
  {
    if !IdSet(company) then []
    else if reply.Ok? then MemberChoices(MyMembers(reply.value))
    else current
  }

  /** Whichever company is chosen, a successful fetch offers the members
      of the user's own company: the partner branch of the effect loads the
      same list. */
  lemma EmployeesIgnoreCompany(a: Option<int>, b: Option<int>, reply: Reply<Employees>, current: seq<Choice>)
    requires IdSet(a) && IdSet(b)
    ensures EmployeeChoices(a, reply, current) == EmployeeChoices(b, reply, current)
  {
  }

  /** The first of the four checks of `handleSubmit` that fails, as its message. */
  function ValidationError(company: Option<int>, user: Option<int>, title: string, deadline: string): (r: Option<string>)
    ensures r.None? <==> IdSet(company) && IdSet(user) && title != "" && deadline != ""
    ensures !IdSet(company) ==> r == Some(CompanyText)
    ensures IdSet(company) && !IdSet(user) ==> r == Some(UserText)
    ensures IdSet(company) && IdSet(user) && title == "" ==> r == Some(TitleText)
    ensures IdSet(company) && IdSet(user) && title != "" && deadline == "" ==> r == Some(DeadlineText)
  {
    if !IdSet(company) then Some(CompanyText)
    else if !IdSet(user) then Some(UserText)
    else if title == "" then Some(TitleText)
    else if deadline == "" then Some(DeadlineText)
    else None
  }

  class TaskForm {
    const user: Option<User>
    var targetCompanyId: Option<int>
    var targetUserId: Option<int>
    var title: string
    var note: string
    var priority: string
    var status: string
    var deadline: string
    var deadlineDays: string
    var companies: seq<Choice>
    var employees: seq<Choice>

    /** Priority and status are always values of their tables. */
    predicate Valid()
      reads this
    {
      Helpers.Listed(Helpers.TaskPriorities, priority) && Helpers.Listed(Helpers.TaskStatuses, status)
    }

    constructor (user: Option<User>)
      ensures Valid() && this.user == user
      ensures targetCompanyId == InitialCompany(user) && targetUserId == None
      ensures title == "" && note == "" && deadline == "" && deadlineDays == ""
      ensures priority == DefaultPriority && status == DefaultStatus
      ensures companies == [] && employees == []
    {
      this.user := user;
      targetCompanyId, targetUserId := InitialCompany(user), None;
      title, note, deadline, deadlineDays := "", "", "", "";
      priority, status := DefaultPriority, DefaultStatus;
      companies, employees := [], [];
      assert Helpers.TaskPriorities[2].value == DefaultPriority;
      assert Helpers.TaskStatuses[0].value == DefaultStatus;
    }

    /** The first effect: the own company, then one entry per partner pushed
        in order; a failed partner fetch leaves only the own company. */
    method LoadCompanies(reply: Reply<seq<Partner>>) returns (calls: seq<Call>)
      requires Valid()
      modifies this`companies
      ensures Valid() && calls == [ListPartners]
      ensures companies == OwnChoice(user) + (if reply.Ok? then PartnerChoices(reply.value) else [])
    {
      calls := [ListPartners];
      var comps := OwnChoice(user);
      if reply.Ok? {
        var ps := reply.value;
        var k := 0;
        while k < |ps|
          invariant 0 <= k <= |ps|
          invariant comps == OwnChoice(user) + PartnerChoices(ps[..k])
        {
          PartnerChoicesSnoc(ps[..k], ps[k]);
          assert ps[..k + 1] == ps[..k] + [ps[k]];
          comps := comps + [ChoiceOf(ps[k])];
          k := k + 1;
        }
        assert ps[..k] == ps;
      }
      companies := comps;
    }

    /** The second effect, run for the chosen company: without one the list
        is emptied with no server call. */
    method LoadEmployees(reply: Reply<Employees>) returns (calls: seq<Call>)
      requires Valid()
      modifies this`employees
      ensures Valid() && employees == EmployeeChoices(targetCompanyId, reply, old(employees))
      ensures calls == (if IdSet(targetCompanyId) then [ListEmployees] else [])
    {
      if !IdSet(targetCompanyId) {
        employees := [];
        return [];
      }
      calls := [ListEmployees];
      if reply.Ok? {
        employees := MemberChoices(MyMembers(reply.value));
      }
    }

    /** The company dropdown: another company forgets the chosen employee. */
    method SelectCompany(v: Option<int>)
      requires Valid()
      modifies this`targetCompanyId, this`targetUserId
      ensures Valid() && targetCompanyId == v && targetUserId == None
    {
      targetCompanyId := v;
      targetUserId := None;
    }

    method SelectUser(v: Option<int>)
      requires Valid()
      modifies this`targetUserId
      ensures Valid() && targetUserId == v
    {
      targetUserId := v;
    }

    method SetTitle(v: string)
      requires Valid()
      modifies this`title
      ensures Valid() && title == v
    {
      title := v;
    }

    method SetNote(v: string)
      requires Valid()
      modifies this`note
      ensures Valid() && note == v
    {
      note := v;
    }

    /** The priority dropdown offers only the table's values. */
    method SetPriority(v: string)
      requires Valid() && Helpers.Listed(Helpers.TaskPriorities, v)
      modifies this`priority
      ensures Valid() && priority == v
    {
      priority := v;
    }

    /** The status dropdown offers only the table's values. */
    method SetStatus(v: string)
      requires Valid() && Helpers.Listed(Helpers.TaskStatuses, v)
      modifies this`status
      ensures Valid() && status == v
    {
      status := v;
    }

    /** `handleDeadlineDays`; `due` is the date that many days from today. */
    method SetDeadlineDays(days: string, due: string)
      requires Valid()
      modifies this`deadlineDays, this`deadline
      ensures Valid() && deadlineDays == days
      ensures days != "" ==> deadline == due
      ensures days == "" ==> deadline == old(deadline)
    {
      deadlineDays := days;
      if days != "" {
        deadline := due;
      }
    }

    /** The date input: a date picked by hand forgets the day count. */
    method SetDeadline(date: string)
      requires Valid()
      modifies this`deadline, this`deadlineDays
      ensures Valid() && deadline == date && deadlineDays == ""
    {
      deadline := date;
      deadlineDays := "";
    }

    function Error(): Option<string>
      reads this
    {
      ValidationError(targetCompanyId, targetUserId, title, deadline)
    }

    /** `handleSubmit`: an empty note is left out; `created` stands for the
        `onCreated` callback. The priority and status sent are table values. */
    method Submit(reply: Reply<bool>) returns (calls: seq<Call>, toasts: seq<Toast>, created: bool)
      requires Valid()
      ensures Error().Some? ==> calls == [] && toasts == [ErrorToast(Error().value)] && !created
      ensures Error().None? ==>
        calls == [CreateTask(targetCompanyId.value, targetUserId.value, title,
                             if note != "" then Some(note) else None, priority, status, deadline)] &&
        (created <==> reply.Ok?) &&
        toasts == (if reply.Ok? then [SuccessToast(CreatedText)] else [])
      ensures calls != [] ==>
        Helpers.Listed(Helpers.TaskPriorities, calls[0].priority) && Helpers.Listed(Helpers.TaskStatuses, calls[0].status)
    {
      if !IdSet(targetCompanyId) {
        return [], [ErrorToast(CompanyText)], false;
      }
      if !IdSet(targetUserId) {
        return [], [ErrorToast(UserText)], false;
      }
      if title == "" {
        return [], [ErrorToast(TitleText)], false;
      }
      if deadline == "" {
        return [], [ErrorToast(DeadlineText)], false;
      }
      calls := [CreateTask(targetCompanyId.value, targetUserId.value, title,
                           if note != "" then Some(note) else None, priority, status, deadline)];
      created := reply.Ok?;
      toasts := if reply.Ok? then [SuccessToast(CreatedText)] else [];
    }
  }

  lemma {:induction false} PartnerChoicesSnoc(ps: seq<Partner>, p: Partner)
    ensures PartnerChoices(ps + [p]) == PartnerChoices(ps) + [ChoiceOf(p)]
  {
    if ps == [] {
      assert ps + [p] == [p];
    } else {
      assert (ps + [p])[1..] == ps[1..] + [p];
      PartnerChoicesSnoc(ps[1..], p);
    }
  }

  /** An employee chosen before switching to another company is forgotten:
      submitting then asks for an employee and sends nothing. */
  method SwitchCompany(user: Option<User>, employee: int, other: int, reply: Reply<bool>)
    returns (calls: seq<Call>, toasts: seq<Toast>)
    requires other != 0
    ensures calls == [] && toasts == [ErrorToast(UserText)]
  {
    var form := new TaskForm(user);
    form.SelectUser(Some(employee));
    form.SelectCompany(Some(other));
    form.SetTitle("t");
    form.SetDeadline("d");
    var created;
    calls, toasts, created := form.Submit(reply);
  }
}
