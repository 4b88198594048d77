/** The employees screen (`EmployeesPage`): which management buttons a
    member row shows, who may receive the data of a removed member, and the
    block, unblock and remove handlers. */
module EmployeesPage {
  import opened Common
  import opened Api
  import opened Json

  const BlockedText: string := "Сотрудник заблокирован"
  const UnblockedText: string := "Сотрудник разблокирован"
  const RemovedText: string := "Сотрудник удалён, данные переданы"
  const ChooseTargetText: string := "Выберите кому передать данные"

  datatype Button = UnblockButton | BlockButton | RemoveButton

  predicate IsDirector(user: Option<User>) { user.Some? && user.value.role == Some("director") }

  /** `id !== user?.id`: with nobody signed in, no id is the viewer's. */
  predicate NotViewer(id: int, user: Option<User>) { user.None? || id != user.value.id }

  /** The buttons of a member row: only a director sees any, only on the
      own company's members and never on the own row; a blocked member can
      be unblocked, any other blocked; every such row can be removed. */
  function Buttons(user: Option<User>, member: Member, isMyCompany: bool): (r: seq<Button>)
    ensures r != [] <==> IsDirector(user) && isMyCompany && NotViewer(member.id, user)
    ensures r != [] ==> |r| == 2 && r[1] == RemoveButton
    ensures UnblockButton in r <==> r != [] && member.isBlocked
    ensures BlockButton in r <==> r != [] && !member.isBlocked
  {
    if IsDirector(user) && isMyCompany && NotViewer(member.id, user) then
      [if member.isBlocked then UnblockButton else BlockButton, RemoveButton]
    else []
  }

  /** Who may receive the data: neither the member being removed nor the
      viewer. */
  predicate Receiver(m: Member, removeUserId: Option<int>, user: Option<User>) {
    (removeUserId.None? || m.id != removeUserId.value) && NotViewer(m.id, user)
  }

  /** `transferOptions`: the own company's members that may receive the
      data, as dropdown entries, in their order. */
  function TransferOptions(members: seq<Member>, removeUserId: Option<int>, user: Option<User>): (r: seq<Choice>)
    ensures |r| <= |members|
    ensures forall c :: c in r ==>
      exists m :: m in members && Receiver(m, removeUserId, user) && c == Choice(m.id, m.fullName)
    ensures forall m :: m in members && Receiver(m, removeUserId, user) ==> Choice(m.id, m.fullName) in r
  {
    if members == [] then []
    else
      var m := members[0];
      var rest := TransferOptions(members[1..], removeUserId, user);
      assert forall x :: x in members[1..] ==> x in members;
      assert forall x :: x in members ==> x == m || x in members[1..];
      (if Receiver(m, removeUserId, user) then [Choice(m.id, m.fullName)] else []) + rest
  }

  /** The options keep the members' order: those of two runs of members
      are the options of the first followed by those of the second. */
  lemma {:induction false} TransferOptionsAppend(a: seq<Member>, b: seq<Member>, removeUserId: Option<int>,
                                                 user: Option<User>)
    ensures TransferOptions(a + b, removeUserId, user) ==
            TransferOptions(a, removeUserId, user) + TransferOptions(b, removeUserId, user)
  {
    if a == [] {
      assert a + b == b;
    } else {
      assert (a + b)[1..] == a[1..] + b;
      TransferOptionsAppend(a[1..], b, removeUserId, user);
    }
  }

  /** No option is the member being removed or the viewer. */
  lemma NeverToSelf(members: seq<Member>, removeUserId: Option<int>, user: Option<User>, c: Choice)
    requires c in TransferOptions(members, removeUserId, user)
    ensures removeUserId.None? || c.value != removeUserId.value
    ensures user.None? || c.value != user.value.id
  {
    var m :| m in members && Receiver(m, removeUserId, user) && c == Choice(m.id, m.fullName);
  }

  class EmployeesScreen {
    const user: Option<User>
    var data: Option<Employees>
    /** The member of the open block dialog. */
    var blockUserId: Option<int>
    /** The member of the open remove dialog, and the chosen receiver. */
    var removeUserId: Option<int>
    var transferToId: Option<int>

    /** A receiver is chosen only in the open remove dialog and is neither
        the member removed nor the viewer. */
    predicate Valid()
      reads this
    {
      transferToId.Some? ==>
        IdSet(removeUserId) && transferToId.value != removeUserId.value && NotViewer(transferToId.value, user)
    }

    constructor (user: Option<User>)
      ensures Valid() && this.user == user && data == None
      ensures blockUserId == None && removeUserId == None && transferToId == None
    {
      this.user := user;
      data, blockUserId, removeUserId, transferToId := None, None, None, None;
    }

    function MyMembers(): seq<Member>
      reads this
    {
      if data.Some? then Api.MyMembers(data.value) else []
    }

    /** `loadEmployees`: a success replaces the data, a failure keeps it. */
    method LoadEmployees(reply: Reply<Employees>) returns (calls: seq<Call>)
      requires Valid()
      modifies this`data
      ensures Valid() && calls == [ListEmployees]
      ensures data == (if reply.Ok? then Some(reply.value) else old(data))
    {
      calls := [ListEmployees];
      if reply.Ok? {
        data := Some(reply.value);
      }
    }

    /** The lock button of an unblocked member's row opens the block dialog. */
    method AskBlock(member: Member)
      requires Valid() && BlockButton in Buttons(user, member, true)
      modifies this`blockUserId
      ensures Valid() && blockUserId == Some(member.id)
    {
      blockUserId := Some(member.id);
    }

    method CloseBlockDialog()
      requires Valid()
      modifies this`blockUserId
      ensures Valid() && blockUserId == None
    {
      blockUserId := None;
    }

    /** `handleBlock`: nothing without a member; otherwise the block is sent
        and, on success, toasted, the dialog closed and the list reloaded. */
    method HandleBlock(reply: Reply<bool>, reload: Reply<Employees>) returns (calls: seq<Call>, toasts: seq<Toast>)
      requires Valid()
      modifies this`blockUserId, this`data
      ensures Valid()
      ensures !IdSet(old(blockUserId)) ==>
        calls == [] && toasts == [] && blockUserId == old(blockUserId) && data == old(data)
      ensures IdSet(old(blockUserId)) && reply.Ok? ==>
        calls == [BlockEmployee(old(blockUserId).value), ListEmployees] && toasts == [SuccessToast(BlockedText)] &&
        blockUserId == None && data == (if reload.Ok? then Some(reload.value) else old(data))
      ensures IdSet(old(blockUserId)) && !reply.Ok? ==>
        calls == [BlockEmployee(old(blockUserId).value)] && toasts == [] && blockUserId == old(blockUserId) &&
        data == old(data)
    {
      if !IdSet(blockUserId) {
        return [], [];
      }
      calls, toasts := [BlockEmployee(blockUserId.value)], [];
      if reply.Ok? {
        toasts := [SuccessToast(BlockedText)];
        blockUserId := None;
        var more := LoadEmployees(reload);
        calls := calls + more;
      }
    }

    /** `handleUnblock`, straight from the row of a blocked member. */
    method HandleUnblock(member: Member, reply: Reply<bool>, reload: Reply<Employees>)
      returns (calls: seq<Call>, toasts: seq<Toast>)
      requires Valid() && UnblockButton in Buttons(user, member, true)
      modifies this`data
      ensures Valid()
      ensures reply.Ok? ==> calls == [UnblockEmployee(member.id), ListEmployees] &&
                            toasts == [SuccessToast(UnblockedText)] &&
                            data == (if reload.Ok? then Some(reload.value) else old(data))
      ensures !reply.Ok? ==> calls == [UnblockEmployee(member.id)] && toasts == [] && data == old(data)
    {
      calls, toasts := [UnblockEmployee(member.id)], [];
      if reply.Ok? {
        toasts := [SuccessToast(UnblockedText)];
        var more := LoadEmployees(reload);
        calls := calls + more;
      }
    }

    /** The bin button of a row opens the remove dialog. */
    method AskRemove(member: Member)
      requires Valid() && RemoveButton in Buttons(user, member, true) && !IdSet(removeUserId)
      modifies this`removeUserId
      ensures Valid() && removeUserId == Some(member.id) && transferToId == None
    {
      removeUserId := Some(member.id);
    }

    /** The receiver dropdown of the open remove dialog offers the transfer
        options only. */
    method ChooseReceiver(v: Option<int>)
      requires Valid() && IdSet(removeUserId)
      requires v.None? || exists c :: c in TransferOptions(MyMembers(), removeUserId, user) && c.value == v.value
      modifies this`transferToId
      ensures Valid() && transferToId == v
    {
      if v.Some? {
        var c :| c in TransferOptions(MyMembers(), removeUserId, user) && c.value == v.value;
        NeverToSelf(MyMembers(), removeUserId, user, c);
      }
      transferToId := v;
    }

    /** Closing or cancelling the remove dialog forgets both ids. */
    method CloseRemoveDialog()
      requires Valid()
      modifies this`removeUserId, this`transferToId
      ensures Valid() && removeUserId == None && transferToId == None
    {
      removeUserId, transferToId := None, None;
    }

    /** `handleRemove`: without both ids only the error toast; otherwise
        the removal is sent and, on success, toasted, both ids forgotten and
        the list reloaded. The data never go to the removed member or to the
        viewer. */
    method HandleRemove(reply: Reply<bool>, reload: Reply<Employees>) returns (calls: seq<Call>, toasts: seq<Toast>)
      requires Valid()
      modifies this`removeUserId, this`transferToId, this`data
      ensures Valid()
      ensures !(IdSet(old(removeUserId)) && IdSet(old(transferToId))) ==>
        calls == [] && toasts == [ErrorToast(ChooseTargetText)] &&
        removeUserId == old(removeUserId) && transferToId == old(transferToId) && data == old(data)
      ensures IdSet(old(removeUserId)) && IdSet(old(transferToId)) ==>
        calls != [] && calls[0] == RemoveEmployee(old(removeUserId).value, old(transferToId).value) &&
        old(removeUserId).value != old(transferToId).value && NotViewer(old(transferToId).value, user)
      ensures IdSet(old(removeUserId)) && IdSet(old(transferToId)) && reply.Ok? ==>
        |calls| == 2 && calls[1] == ListEmployees && toasts == [SuccessToast(RemovedText)] &&
        removeUserId == None && transferToId == None && data == (if reload.Ok? then Some(reload.value) else old(data))
      ensures IdSet(old(removeUserId)) && IdSet(old(transferToId)) && !reply.Ok? ==>
        |calls| == 1 && toasts == [] && removeUserId == old(removeUserId) && transferToId == old(transferToId) &&
        data == old(data)
    {
      if !IdSet(removeUserId) || !IdSet(transferToId) {
        return [], [ErrorToast(ChooseTargetText)];
      }
      calls, toasts := [RemoveEmployee(removeUserId.value, transferToId.value)], [];
      if reply.Ok? {
        toasts := [SuccessToast(RemovedText)];
        removeUserId, transferToId := None, None;
        var more := LoadEmployees(reload);
        calls := calls + more;
      }
    }
  }

  /** A director removing a colleague without choosing a receiver gets only
      the error toast and no server call (the dialog's remove button is also
      disabled then). */
  method RemoveWithoutReceiver(director: User, list: Employees, member: Member, reply: Reply<bool>)
    returns (calls: seq<Call>, toasts: seq<Toast>)
    requires director.role == Some("director") && member.id != director.id && member.id != 0
    ensures calls == [] && toasts == [ErrorToast(ChooseTargetText)]
  {
    var screen := new EmployeesScreen(Some(director));
    var _ := screen.LoadEmployees(Ok(list));
    screen.AskRemove(member);
    calls, toasts := screen.HandleRemove(reply, NoResponse);
  }
}
