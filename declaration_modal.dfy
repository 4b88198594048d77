/** The new-declaration dialog (`CreateDeclarationModal`): digit-only post
    and declaration numbers of fixed length, a vehicle list that never
    becomes empty, six checks in a fixed order before `create`, and the
    preview of the full declaration number. */
module DeclarationModal {
  import opened Common
  import opened Api

  const PostLength: nat := 5
  const NumberLength: nat := 7
  const Dash: string := "—"

  const PostText: string := "Номер поста должен состоять из 5 цифр"
  const DateText: string := "Укажите дату отправки"
  const NumberText: string := "Номер декларации должен состоять из 7 цифр"
  const ClientText: string := "Выберите клиента"
  const RegimeText: string := "Выберите режим"
  const VehicleText: string := "Добавьте хотя бы одно транспортное средство"
  const CreatedText: string := "Декларация создана"

  const EmptyVehicle: Vehicle := Vehicle("", "")

  /** The two fields of a vehicle row that `updateVehicle` can change. */
  datatype VehicleField = KindField | NumberField

  predicate Filled(v: Vehicle) { v.kind != "" && v.number != "" }

  /** `vehicles.filter(v => v.vehicle_type && v.vehicle_number)`. */
  function ValidVehicles(vs: seq<Vehicle>): (r: seq<Vehicle>)
    ensures |r| <= |vs|
    ensures forall i :: 0 <= i < |r| ==> Filled(r[i]) && r[i] in vs
    ensures forall v :: v in vs && Filled(v) ==> v in r
    ensures (forall i :: 0 <= i < |vs| ==> Filled(vs[i])) ==> r == vs
  {
    if vs == [] then []
    else (if Filled(vs[0]) then [vs[0]] else []) + ValidVehicles(vs[1..])
  }

  /** `vehicles.filter((_, i) => i !== index)`. */
  function RemoveAt(vs: seq<Vehicle>, index: int): (r: seq<Vehicle>)
    ensures 0 <= index < |vs| ==> (|r| == |vs| - 1 &&
                                   (forall k :: 0 <= k < index ==> r[k] == vs[k]) &&
                                   (forall k :: index <= k < |r| ==> r[k] == vs[k + 1]))
    ensures !(0 <= index < |vs|) ==> r == vs
  {
    if 0 <= index < |vs| then vs[..index] + vs[index + 1..] else vs
  }

  /** The first of the six checks that fails, as its message. */
  function ValidationError(post: string, date: string, number: string, client: Option<int>,
                           regime: Option<string>, vehicles: seq<Vehicle>): (r: Option<string>)
    ensures r.None? <==>
      |post| == PostLength && date != "" && |number| == NumberLength && IdSet(client) &&
      TextSet(regime) && ValidVehicles(vehicles) != []
    ensures |post| != PostLength ==> r == Some(PostText)
    ensures |post| == PostLength && date == "" ==> r == Some(DateText)
    ensures |post| == PostLength && date != "" && |number| != NumberLength ==> r == Some(NumberText)
    ensures |post| == PostLength && date != "" && |number| == NumberLength && !IdSet(client) ==> r == Some(ClientText)
    ensures |post| == PostLength && date != "" && |number| == NumberLength && IdSet(client) &&
            !TextSet(regime) ==>
      r == Some(RegimeText)
    ensures |post| == PostLength && date != "" && |number| == NumberLength && IdSet(client) &&
            TextSet(regime) && ValidVehicles(vehicles) == [] ==>
      r == Some(VehicleText)
  {
    if post == "" || |post| != PostLength then Some(PostText)
    else if date == "" then Some(DateText)
    else if number == "" || |number| != NumberLength then Some(NumberText)
    else if !IdSet(client) then Some(ClientText)
    else if !TextSet(regime) then Some(RegimeText)
    else if ValidVehicles(vehicles) == [] then Some(VehicleText)
    else None
  }

  function OrDash(s: string): (r: string)
    ensures s != "" ==> r == s
    ensures s == "" ==> r == Dash
  {
    if s != "" then s else Dash
  }

  function Reverse<T>(xs: seq<T>): (r: seq<T>)
    ensures |r| == |xs|
    ensures forall i :: 0 <= i < |xs| ==> r[i] == xs[|xs| - 1 - i]
  {
    if xs == [] then [] else Reverse(xs[1..]) + [xs[0]]
  }

  /** `sendDate.split('-').reverse().join('.')`, or a dash for no date. */
  function PreviewDate(date: string): string {
    if date != "" then Join(Reverse(Split(date, '-')), ".") else Dash
  }

  /** `previewNumber`: post, date and declaration number joined by `/`. */
  function PreviewNumber(post: string, date: string, number: string): string {
    OrDash(post) + "/" + PreviewDate(date) + "/" + OrDash(number)
  }

  /** An ISO date `YYYY-MM-DD` is shown as `DD.MM.YYYY`. */
  lemma PreviewDateReversesIsoDate(y: string, m: string, d: string)
    requires '-' !in y && '-' !in m && '-' !in d
    ensures PreviewDate(y + "-" + m + "-" + d) == d + "." + m + "." + y
  {
    var parts := [y, m, d];
    assert Join(parts, "-") == y + "-" + m + "-" + d by {
      assert parts[1..] == [m, d];
      assert [m, d][1..] == [d];
    }
    SplitJoin(parts, '-');
    var date := y + "-" + m + "-" + d;
    assert date[|y|] == '-';
    var rev := Reverse(parts);
    assert rev == [d, m, y];
    assert Join(rev, ".") == d + "." + m + "." + y by {
      assert rev[1..] == [m, y];
      assert [m, y][1..] == [y];
    }
  }

  /** The preview splits at `/` into its three parts again when none of them
      holds a slash (digits never do), so it always names all three. */
  lemma PreviewHasThreeParts(post: string, date: string, number: string)
    requires '/' !in post && '/' !in PreviewDate(date) && '/' !in number
    ensures Split(PreviewNumber(post, date, number), '/') == [OrDash(post), PreviewDate(date), OrDash(number)]
  {
    var parts := [OrDash(post), PreviewDate(date), OrDash(number)];
    assert Dash == "—";
    assert Join(parts, "/") == PreviewNumber(post, date, number) by {
      assert parts[1..] == [PreviewDate(date), OrDash(number)];
      assert [PreviewDate(date), OrDash(number)][1..] == [OrDash(number)];
    }
    SplitJoin(parts, '/');
  }

  class DeclarationForm {
    var postNumber: string
    var sendDate: string
    var declarationNumber: string
    var clientId: Option<int>
    var regime: Option<string>
    var vehicles: seq<Vehicle>
    var note: string

    /** The vehicle list is never empty and the number fields hold digits only. */
    predicate Valid()
      reads this
    {
      |vehicles| >= 1 &&
      AllDigits(postNumber) && |postNumber| <= PostLength &&
      AllDigits(declarationNumber) && |declarationNumber| <= NumberLength
    }

    constructor ()
      ensures Valid()
      ensures postNumber == "" && sendDate == "" && declarationNumber == "" && note == ""
      ensures clientId == None && regime == None && vehicles == [EmptyVehicle]
    {
      postNumber, sendDate, declarationNumber, note := "", "", "", "";
      clientId, regime, vehicles := None, None, [EmptyVehicle];
    }

    /** The post-number input: digits only, at most five. */
    method SetPostNumber(raw: string)
      requires Valid()
      modifies this`postNumber
      ensures Valid() && postNumber == DigitsUpTo(raw, PostLength)
    {
      postNumber := DigitsUpTo(raw, PostLength);
    }

    /** The declaration-number input: digits only, at most seven. */
    method SetDeclarationNumber(raw: string)
      requires Valid()
      modifies this`declarationNumber
      ensures Valid() && declarationNumber == DigitsUpTo(raw, NumberLength)
    {
      declarationNumber := DigitsUpTo(raw, NumberLength);
    }

    /** `addVehicle`: one more empty row at the end. */
    method AddVehicle()
      requires Valid()
      modifies this`vehicles
      ensures Valid() && vehicles == old(vehicles) + [EmptyVehicle]
    {
      vehicles := vehicles + [EmptyVehicle];
    }

    /** `removeVehicle(index)`: refused for the last remaining row. */
    method RemoveVehicle(index: int)
      requires Valid()
      modifies this`vehicles
      ensures Valid()
      ensures |old(vehicles)| == 1 ==> vehicles == old(vehicles)
      ensures |old(vehicles)| > 1 ==> vehicles == RemoveAt(old(vehicles), index)
    {
      if |vehicles| == 1 {
        return;
      }
      vehicles := RemoveAt(vehicles, index);
    }

    /** `updateVehicle(index, field, value)`: only that field of that row. */
    method UpdateVehicle(index: nat, field: VehicleField, value: string)
      requires Valid() && index < |vehicles|
      modifies this`vehicles
      ensures Valid() && |vehicles| == |old(vehicles)|
      ensures forall k :: 0 <= k < |vehicles| && k != index ==> vehicles[k] == old(vehicles)[k]
      ensures field == KindField ==> vehicles[index] == old(vehicles)[index].(kind := value)
      ensures field == NumberField ==> vehicles[index] == old(vehicles)[index].(number := value)
    {
      var updated := vehicles;
      var row := if field == KindField then updated[index].(kind := value) else updated[index].(number := value);
      updated := updated[index := row];
      vehicles := updated;
    }

    function Error(): Option<string>
      reads this
    {
      ValidationError(postNumber, sendDate, declarationNumber, clientId, regime, vehicles)
    }

    /** `handleSubmit`: only filled vehicle rows are sent and an empty note
        is left out; `created` stands for the `onCreated` callback. */
    method Submit(reply: Reply<bool>) returns (calls: seq<Call>, toasts: seq<Toast>, created: bool)
      ensures Error().Some? ==> calls == [] && toasts == [ErrorToast(Error().value)] && !created
      ensures Error().None? ==>
        calls == [CreateDeclaration(postNumber, sendDate, declarationNumber, clientId.value, regime.value,
                                    ValidVehicles(vehicles), if note != "" then Some(note) else None)] &&
        (created <==> reply.Ok?) &&
        toasts == (if reply.Ok? then [SuccessToast(CreatedText)] else [])
    {
      if postNumber == "" || |postNumber| != PostLength {
        return [], [ErrorToast(PostText)], false;
      }
      if sendDate == "" {
        return [], [ErrorToast(DateText)], false;
      }
      if declarationNumber == "" || |declarationNumber| != NumberLength {
        return [], [ErrorToast(NumberText)], false;
      }
      if !IdSet(clientId) {
        return [], [ErrorToast(ClientText)], false;
      }
      if !TextSet(regime) {
        return [], [ErrorToast(RegimeText)], false;
      }
      var valid := ValidVehicles(vehicles);
      if valid == [] {
        return [], [ErrorToast(VehicleText)], false;
      }
      calls := [CreateDeclaration(postNumber, sendDate, declarationNumber, clientId.value, regime.value,
                                  valid, if note != "" then Some(note) else None)];
      created := reply.Ok?;
      toasts := if reply.Ok? then [SuccessToast(CreatedText)] else [];
    }
  }

  /** A vehicle-list edit as the user makes it. */
  datatype VehicleEdit = Add | Remove(index: int) | Update(row: nat, field: VehicleField, value: string)

  /** Whatever rows are added, removed or edited, the form keeps at least
      one vehicle row, and a form whose every row is filled sends them all. */
  method EditVehicles(edits: seq<VehicleEdit>) returns (vehicles: seq<Vehicle>, sent: seq<Vehicle>)
    ensures |vehicles| >= 1
    ensures sent == ValidVehicles(vehicles)
    ensures (forall i :: 0 <= i < |vehicles| ==> Filled(vehicles[i])) ==> sent == vehicles
  {
    var form := new DeclarationForm();
    var k := 0;
    while k < |edits|
      invariant 0 <= k <= |edits|
      invariant form.Valid()
    {
      match edits[k] {
        case Add => form.AddVehicle();
        case Remove(i) => form.RemoveVehicle(i);
        case Update(row, field, value) =>
          if row < |form.vehicles| {
            form.UpdateVehicle(row, field, value);
          }
      }
      k := k + 1;
    }
    vehicles := form.vehicles;
    sent := ValidVehicles(vehicles);
  }
}
