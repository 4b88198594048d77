/** The new-certificate dialog (`CreateCertificateModal`): a certifier firm
    chosen among the partners working in certification (or the company's own
    staff), five checks in a fixed order, and two pairs of fields that keep
    each other consistent: "own certifier" against the chosen firm, and a
    typed certificate number against "the certifier fills the number in". */
module CertificateModal {
  import opened Common
  import opened Api

  const Certification: string := "certification"

  const CertifierText: string := "Выберите фирму сертификатчиков"
  const TypeText: string := "Укажите тип сертификата"
  const DeadlineText: string := "Укажите срок"
  const ClientText: string := "Выберите клиента"
  const NumberText: string := "Укажите номер сертификата или отметьте \"Заполнит сертификатчик\""
  const CreatedText: string := "Заявка на сертификат создана"

  /** The certifier dropdown: the partners whose activity is certification,
      in the order the server listed them. */
  function CertifierChoices(ps: seq<Partner>): (r: seq<Choice>)
    ensures |r| <= |ps|
    ensures forall p :: p in ps && p.activityType == Certification ==> ChoiceOf(p) in r
    ensures forall c :: c in r ==> exists p :: p in ps && p.activityType == Certification && c == ChoiceOf(p)
    ensures (forall p :: p in ps ==> p.activityType != Certification) ==> r == []
  {
    if ps == [] then []
    else
      var rest := CertifierChoices(ps[1..]);
      assert forall p :: p in ps[1..] ==> p in ps;
      assert forall p :: p in ps ==> p == ps[0] || p in ps[1..];
      if ps[0].activityType == Certification then [ChoiceOf(ps[0])] + rest else rest
  }

  /** Filtering keeps the server's order: the choices of a concatenation are
      the choices of the first part followed by those of the second. */
  lemma {:induction false} CertifierChoicesAppend(a: seq<Partner>, b: seq<Partner>)
    ensures CertifierChoices(a + b) == CertifierChoices(a) + CertifierChoices(b)
  {
    if a == [] {
      assert a + b == b;
    } else {
      assert (a + b)[1..] == a[1..] + b;
      CertifierChoicesAppend(a[1..], b);
    }
  }

  /** The first of the five checks of `handleSubmit` that fails, as its message. */
  function ValidationError(isSelf: bool, certifier: Option<int>, certificateType: string, deadline: string,
                           client: Option<int>, number: string, byCertifier: bool): (r: Option<string>)
    ensures r.None? <==>
      (isSelf || IdSet(certifier)) && certificateType != "" && deadline != "" && IdSet(client) &&
      (number != "" || byCertifier)
    ensures !isSelf && !IdSet(certifier) ==> r == Some(CertifierText)
    ensures (isSelf || IdSet(certifier)) && certificateType == "" ==> r == Some(TypeText)
    ensures (isSelf || IdSet(certifier)) && certificateType != "" && deadline == "" ==> r == Some(DeadlineText)
    ensures ((isSelf || IdSet(certifier)) && certificateType != "" && deadline != "" && !IdSet(client)) ==>
      r == Some(ClientText)
    ensures ((isSelf || IdSet(certifier)) && certificateType != "" && deadline != "" && IdSet(client) &&
             number == "" && !byCertifier) ==> r == Some(NumberText)
  {
    if !isSelf && !IdSet(certifier) then Some(CertifierText)
    else if certificateType == "" then Some(TypeText)
    else if deadline == "" then Some(DeadlineText)
    else if !IdSet(client) then Some(ClientText)
    else if number == "" && !byCertifier then Some(NumberText)
    else None
  }

  class CertificateForm {
    var certifierCompanyId: Option<int>
    var isSelf: bool
    var certificateType: string
    var deadline: string
    var deadlineDays: string
    var certificateNumber: string
    var isNumberByCertifier: bool
    var clientId: Option<int>
    var note: string

    /** With the company's own certifier no firm is chosen, and a typed
        number and "the certifier fills the number in" exclude each other. */
    predicate Valid()
      reads this
    {
      (isSelf ==> certifierCompanyId == None) &&
      !(certificateNumber != "" && isNumberByCertifier)
    }

    constructor ()
      ensures Valid()
      ensures certifierCompanyId == None && !isSelf && certificateType == "" && deadline == "" &&
              deadlineDays == "" && certificateNumber == "" && !isNumberByCertifier && clientId == None &&
              note == ""
    {
      certifierCompanyId, isSelf, certificateType := None, false, "";
      deadline, deadlineDays, certificateNumber := "", "", "";
      isNumberByCertifier, clientId, note := false, None, "";
    }

    /** The "own certifier" checkbox: either way the chosen firm is dropped. */
    method SetSelf(checked: bool)
      requires Valid()
      modifies this`isSelf, this`certifierCompanyId
      ensures Valid() && isSelf == checked && certifierCompanyId == None
    {
      isSelf := checked;
      certifierCompanyId := None;
    }

    /** The certifier dropdown, shown only when the own certifier is not ticked. */
    method SelectCertifier(v: Option<int>)
      requires Valid() && !isSelf
      modifies this`certifierCompanyId
      ensures Valid() && certifierCompanyId == v
    {
      certifierCompanyId := v;
    }

    method SetCertificateType(v: string)
      requires Valid()
      modifies this`certificateType
      ensures Valid() && certificateType == v
    {
      certificateType := v;
    }

    /** `handleDeadlineDaysChange`: a non-empty day count also sets the
        deadline; `due` is the date that many days from today. */
    method SetDeadlineDays(days: string, due: string)
      requires Valid()
      modifies this`deadlineDays, this`deadline
      ensures Valid() && deadlineDays == days
      ensures days != "" ==> deadline == due
      ensures days == "" ==> deadline == old(deadline)
    {
      deadlineDays := days;
      if days != "" {
        deadline := due;
      }
    }

    /** The date input: a date picked by hand forgets the day count. */
    method SetDeadline(date: string)
      requires Valid()
      modifies this`deadline, this`deadlineDays
      ensures Valid() && deadline == date && deadlineDays == ""
    {
      deadline := date;
      deadlineDays := "";
    }

    /** Typing a number unticks "the certifier fills the number in". */
    method SetCertificateNumber(v: string)
      requires Valid()
      modifies this`certificateNumber, this`isNumberByCertifier
      ensures Valid() && certificateNumber == v && !isNumberByCertifier
    {
      certificateNumber := v;
      isNumberByCertifier := false;
    }

    /** Ticking "the certifier fills the number in" empties the number;
        unticking leaves it as it is. */
    method SetNumberByCertifier(checked: bool)
      requires Valid()
      modifies this`certificateNumber, this`isNumberByCertifier
      ensures Valid() && isNumberByCertifier == checked
      ensures checked ==> certificateNumber == ""
      ensures !checked ==> certificateNumber == old(certificateNumber)
    {
      isNumberByCertifier := checked;
      if checked {
        certificateNumber := "";
      }
    }

    method SelectClient(v: Option<int>)
      requires Valid()
      modifies this`clientId
      ensures Valid() && clientId == v
    {
      clientId := v;
    }

    method SetNote(v: string)
      requires Valid()
      modifies this`note
      ensures Valid() && note == v
    {
      note := v;
    }

    function Error(): Option<string>
      reads this
    {
      ValidationError(isSelf, certifierCompanyId, certificateType, deadline, clientId,
                      certificateNumber, isNumberByCertifier)
    }

    /** `handleSubmit`: the firm is sent only without the own certifier, an
        empty number and an empty note are left out; `created` stands for
        the `onCreated` callback. In a valid form the number is left out
        exactly when the certifier is to fill it in. */
    method Submit(reply: Reply<bool>) returns (calls: seq<Call>, toasts: seq<Toast>, created: bool)
      requires Valid()
      ensures Error().Some? ==> calls == [] && toasts == [ErrorToast(Error().value)] && !created
      ensures Error().None? ==>
        calls == [CreateCertificate(if isSelf then None else certifierCompanyId, isSelf, certificateType, deadline,
                                    if certificateNumber != "" then Some(certificateNumber) else None,
                                    isNumberByCertifier, clientId.value, if note != "" then Some(note) else None)] &&
        (created <==> reply.Ok?) &&
        toasts == (if reply.Ok? then [SuccessToast(CreatedText)] else [])
      ensures calls != [] ==>
        (calls[0].certificateNumber.None? <==> calls[0].isNumberByCertifier) &&
        (calls[0].isSelf <==> calls[0].certifierCompanyId.None?)
    {
      if !isSelf && !IdSet(certifierCompanyId) {
        return [], [ErrorToast(CertifierText)], false;
      }
      if certificateType == "" {
        return [], [ErrorToast(TypeText)], false;
      }
      if deadline == "" {
        return [], [ErrorToast(DeadlineText)], false;
      }
      if !IdSet(clientId) {
        return [], [ErrorToast(ClientText)], false;
      }
      if certificateNumber == "" && !isNumberByCertifier {
        return [], [ErrorToast(NumberText)], false;
      }
      calls := [CreateCertificate(if isSelf then None else certifierCompanyId, isSelf, certificateType, deadline,
                                  if certificateNumber != "" then Some(certificateNumber) else None,
                                  isNumberByCertifier, clientId.value, if note != "" then Some(note) else None)];
      created := reply.Ok?;
      toasts := if reply.Ok? then [SuccessToast(CreatedText)] else [];
    }
  }

  /** A firm chosen before ticking "own certifier" is not sent, and a number
      typed before ticking "the certifier fills the number in" is not sent. */
  method SelfIssuedByCertifier(firm: int, number: string, kind: string, date: string, client: int)
    returns (calls: seq<Call>)
    requires kind != "" && date != "" && client != 0
    ensures calls == [CreateCertificate(None, true, kind, date, None, true, client, None)]
  {
    var form := new CertificateForm();
    form.SelectCertifier(Some(firm));
    form.SetCertificateNumber(number);
    form.SetSelf(true);
    form.SetNumberByCertifier(true);
    form.SetCertificateType(kind);
    form.SetDeadline(date);
    form.SelectClient(Some(client));
    var toasts, created;
    calls, toasts, created := form.Submit(Ok(true));
  }
}
