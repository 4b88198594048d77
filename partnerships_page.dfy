/** The partnerships screen (`PartnershipsPage`): the list of partner
    companies and the removal of a partnership, and the request dialog with
    its INN field, the lookup of the company behind it, and the request sent
    to it. */
module PartnershipsPage {
  import opened Common
  import opened Api

  const InnLength: nat := 9
  const InnLengthText: string := "ИНН должен состоять из 9 цифр"
  const FoundPrefix: string := "Фирма найдена: "
  const NotFoundText: string := "Фирма не найдена"
  const LookupFirstText: string := "Сначала найдите фирму"
  const SentText: string := "Запрос на сотрудничество отправлен"
  const DeletedText: string := "Сотрудничество удалено"

  /** `PartnerCompanyResponse`: the partnership's own id and the company. */
  datatype Partnership = Partnership(partnershipId: int, partner: Partner)

  /** `PartnershipLookup`, as far as the dialog reads it. */
  datatype PartnerLookup = PartnerLookup(found: bool, companyName: Option<string>, activityType: Option<string>)

  /** The success toast interpolates the name as JavaScript turns it into text. */
  function FoundText(name: Option<string>): (r: string)
    ensures StartsWith(r, FoundPrefix)
    ensures name.Some? ==> r[|FoundPrefix|..] == name.value
  {
    FoundPrefix + (if name.Some? then name.value else "null")
  }

  /** `requestNote || undefined`: an empty note is left out of the request. */
  function NoteField(note: string): (r: Option<string>)
    ensures r.None? <==> note == ""
    ensures r.Some? ==> r.value == note
  {
    if note != "" then Some(note) else None
  }

  class PartnershipsScreen {
    var partners: seq<Partnership>
    /** The partnership of the open delete confirmation. */
    var deleteId: Option<int>
    var showRequest: bool
    var targetInn: string
    var foundName: string
    var foundType: string
    var requestNote: string
    /** The INN whose lookup produced `foundName`. */
    ghost var foundFor: string

    /** The field holds at most nine digits, and a found name belongs to the
        nine-digit INN now in the field. */
    ghost predicate Valid()
      reads this
    {
      AllDigits(targetInn) && |targetInn| <= InnLength &&
      (foundName != "" ==> foundFor == targetInn && |targetInn| == InnLength)
    }

    constructor ()
      ensures Valid() && !showRequest && partners == [] && deleteId == None
      ensures targetInn == "" && foundName == "" && foundType == "" && requestNote == ""
    {
      partners, deleteId := [], None;
      showRequest, targetInn, foundName, foundType, requestNote := false, "", "", "", "";
      foundFor := "";
    }

    /** `loadPartners`: a success replaces the list, a failure keeps it. */
    method LoadPartners(reply: Reply<seq<Partnership>>) returns (calls: seq<Call>)
      requires Valid()
      modifies this`partners
      ensures Valid() && calls == [ListPartners]
      ensures partners == (if reply.Ok? then reply.value else old(partners))
    {
      calls := [ListPartners];
      if reply.Ok? {
        partners := reply.value;
      }
    }

    /** The bin button of a listed partner opens the delete confirmation. */
    method AskDelete(p: Partnership)
      requires Valid() && p in partners
      modifies this`deleteId
      ensures Valid() && deleteId == Some(p.partnershipId)
    {
      deleteId := Some(p.partnershipId);
    }

    method CloseDeleteDialog()
      requires Valid()
      modifies this`deleteId
      ensures Valid() && deleteId == None
    {
      deleteId := None;
    }

    /** `handleDelete`: nothing without a partnership; otherwise the removal
        is sent and, on success, toasted, the confirmation closed and the
        list reloaded. */
    method HandleDelete(reply: Reply<bool>, reload: Reply<seq<Partnership>>) returns (calls: seq<Call>, toasts: seq<Toast>)
      requires Valid()
      modifies this`deleteId, this`partners
      ensures Valid()
      ensures !IdSet(old(deleteId)) ==>
        calls == [] && toasts == [] && deleteId == old(deleteId) && partners == old(partners)
      ensures IdSet(old(deleteId)) && reply.Ok? ==>
        calls == [DeletePartnership(old(deleteId).value), ListPartners] && toasts == [SuccessToast(DeletedText)] &&
        deleteId == None && partners == (if reload.Ok? then reload.value else old(partners))
      ensures IdSet(old(deleteId)) && !reply.Ok? ==>
        calls == [DeletePartnership(old(deleteId).value)] && toasts == [] && deleteId == old(deleteId) &&
        partners == old(partners)
    {
      if !IdSet(deleteId) {
        return [], [];
      }
      calls, toasts := [DeletePartnership(deleteId.value)], [];
      if reply.Ok? {
        toasts := [SuccessToast(DeletedText)];
        deleteId := None;
        var more := LoadPartners(reload);
        calls := calls + more;
      }
    }

    /** "Send request" opens the dialog, which keeps what it held. */
    method Open()
      requires Valid()
      modifies this`showRequest
      ensures Valid() && showRequest
    {
      showRequest := true;
    }

    /** Closing or cancelling hides the dialog and keeps its fields. */
    method Close()
      requires Valid()
      modifies this`showRequest
      ensures Valid() && !showRequest
    {
      showRequest := false;
    }

    /** The INN input keeps the first nine digits and forgets the found
        name (the found activity stays). */
    method TypeInn(raw: string)
      requires Valid()
      modifies this`targetInn, this`foundName
      ensures Valid() && targetInn == DigitsUpTo(raw, InnLength) && foundName == ""
      ensures foundType == old(foundType)
    {
      targetInn, foundName := DigitsUpTo(raw, InnLength), "";
    }

    method TypeNote(text: string)
      requires Valid()
      modifies this`requestNote
      ensures Valid() && requestNote == text
    {
      requestNote := text;
    }

    /** `handleLookup`: an INN of another length is refused without a call;
        a found company fills in its name and activity, a miss clears both,
        and a failed call changes nothing. */
    method HandleLookup(reply: Reply<PartnerLookup>) returns (calls: seq<Call>, toasts: seq<Toast>)
      requires Valid()
      modifies this`foundName, this`foundType, this`foundFor
      ensures Valid()
      ensures |old(targetInn)| != InnLength ==>
        calls == [] && toasts == [ErrorToast(InnLengthText)] &&
        foundName == old(foundName) && foundType == old(foundType)
      ensures |old(targetInn)| == InnLength ==> calls == [LookupPartner(targetInn)]
      ensures |old(targetInn)| == InnLength && reply.Ok? && reply.value.found ==>
        foundName == OrElse(reply.value.companyName, "") && foundType == OrElse(reply.value.activityType, "") &&
        toasts == [SuccessToast(FoundText(reply.value.companyName))]
      ensures |old(targetInn)| == InnLength && reply.Ok? && !reply.value.found ==>
        foundName == "" && foundType == "" && toasts == [ErrorToast(NotFoundText)]
      ensures |old(targetInn)| == InnLength && !reply.Ok? ==>
        foundName == old(foundName) && foundType == old(foundType) && toasts == []
    {
      if |targetInn| != InnLength {
        return [], [ErrorToast(InnLengthText)];
      }
      calls, toasts := [LookupPartner(targetInn)], [];
      if reply.Ok? {
        if reply.value.found {
          foundName := OrElse(reply.value.companyName, "");
          foundType := OrElse(reply.value.activityType, "");
          foundFor := targetInn;
          toasts := [SuccessToast(FoundText(reply.value.companyName))];
        } else {
          foundName, foundType := "", "";
          toasts := [ErrorToast(NotFoundText)];
        }
      }
    }

    /** `handleSendRequest`: refused without a found company; otherwise the
        request goes to the INN that was looked up, without an empty note,
        and a success closes the dialog and clears the INN, the name and the
        note (the found activity stays). A failed call changes nothing. */
    method HandleSend(reply: Reply<bool>) returns (calls: seq<Call>, toasts: seq<Toast>)
      requires Valid()
      modifies this`showRequest, this`targetInn, this`foundName, this`requestNote
      ensures Valid() && foundType == old(foundType)
      ensures old(foundName) == "" ==>
        calls == [] && toasts == [ErrorToast(LookupFirstText)] && showRequest == old(showRequest) &&
        targetInn == old(targetInn) && foundName == old(foundName) && requestNote == old(requestNote)
      ensures old(foundName) != "" ==>
        calls == [SendPartnershipRequest(old(targetInn), NoteField(old(requestNote)))] &&
        old(targetInn) == foundFor && |old(targetInn)| == InnLength
      ensures old(foundName) != "" && reply.Ok? ==>
        toasts == [SuccessToast(SentText)] && !showRequest && targetInn == "" && foundName == "" && requestNote == ""
      ensures old(foundName) != "" && !reply.Ok? ==>
        toasts == [] && showRequest == old(showRequest) && targetInn == old(targetInn) &&
        foundName == old(foundName) && requestNote == old(requestNote)
    {
      if foundName == "" {
        return [], [ErrorToast(LookupFirstText)];
      }
      calls, toasts := [SendPartnershipRequest(targetInn, NoteField(requestNote))], [];
      if reply.Ok? {
        toasts := [SuccessToast(SentText)];
        showRequest, targetInn, foundName, requestNote := false, "", "", "";
      }
    }
  }

  /** Editing the INN after a lookup means the request cannot be sent until
      the new INN is looked up. */
  method EditAfterLookup(inn: string, lookup: PartnerLookup, edit: string, reply: Reply<bool>)
    returns (calls: seq<Call>, toasts: seq<Toast>)
    requires AllDigits(inn) && |inn| == InnLength
    ensures calls == [] && toasts == [ErrorToast(LookupFirstText)]
  {
    var dialog := new PartnershipsScreen();
    dialog.Open();
    dialog.TypeInn(inn);
    var _, _ := dialog.HandleLookup(Ok(lookup));
    dialog.TypeInn(edit);
    calls, toasts := dialog.HandleSend(reply);
  }
}
