/** The shared display helpers (`utils/helpers`): table lookups for status
    labels and colours, the role and activity labels, `truncate`,
    `getInitials`, `classNames` and the byte branch of `formatFileSize`. */
module Helpers {
  import opened Common

  /** A row of a lookup table: `{ value, label }` or `{ value, color }`. */
  datatype Entry = Entry(value: string, text: string)

  const DefaultColor: string := "bg-gray-100 text-gray-800"
  const UnassignedRoleText: string := "Не назначен"

  /** `entries.find(e => e.value === value)`, as the index found. */
  function FindIndex(entries: seq<Entry>, value: string): (r: Option<nat>)
    ensures r.Some? ==> (r.value < |entries| && entries[r.value].value == value &&
                         forall j :: 0 <= j < r.value ==> entries[j].value != value)
    ensures r.None? <==> forall j :: 0 <= j < |entries| ==> entries[j].value != value
  {
    if entries == [] then None
    else if entries[0].value == value then Some(0)
    else
      match FindIndex(entries[1..], value)
      case None => None
      case Some(i) => Some(i + 1)
  }

  /** `find(...)?.text || fallback`. */
  function LookupOr(entries: seq<Entry>, value: string, fallback: string): (r: string)
    ensures FindIndex(entries, value).None? ==> r == fallback
    ensures FindIndex(entries, value).Some? ==>
      r == OrElse(Some(entries[FindIndex(entries, value).value].text), fallback)
  {
    match FindIndex(entries, value)
    case None => fallback
    case Some(i) => if entries[i].text != "" then entries[i].text else fallback
  }

  /** `getStatusLabel`: the label of the first row for `value`, else `value`. */
  function StatusLabel(statuses: seq<Entry>, value: string): (r: string)
    ensures (forall j :: 0 <= j < |statuses| ==> statuses[j].value != value) ==> r == value
    ensures forall i :: (0 <= i < |statuses| && statuses[i].value == value && statuses[i].text != "" &&
                         (forall j :: 0 <= j < i ==> statuses[j].value != value)) ==> r == statuses[i].text
  {
    LookupOr(statuses, value, value)
  }

  /** `getStatusColor`: the colour of the first row for `value`, else grey. */
  function StatusColor(statuses: seq<Entry>, value: string): (r: string)
    ensures (forall j :: 0 <= j < |statuses| ==> statuses[j].value != value) ==> r == DefaultColor
    ensures forall i :: (0 <= i < |statuses| && statuses[i].value == value && statuses[i].text != "" &&
                         (forall j :: 0 <= j < i ==> statuses[j].value != value)) ==> r == statuses[i].text
  {
    LookupOr(statuses, value, DefaultColor)
  }

  predicate DistinctValues(entries: seq<Entry>) {
    forall i, j :: 0 <= i < j < |entries| ==> entries[i].value != entries[j].value
  }

  /** In a table without repeated values every row is found by its value. */
  lemma LookupRow(entries: seq<Entry>, i: nat, fallback: string)
    requires DistinctValues(entries) && i < |entries|
    ensures LookupOr(entries, entries[i].value, fallback) == OrElse(Some(entries[i].text), fallback)
  {
    var k := FindIndex(entries, entries[i].value);
    assert k.Some?;
    assert k.value == i;
  }

  const TaskStatuses: seq<Entry> := [
    Entry("new", "Новая"), Entry("in_progress", "В работе"), Entry("waiting", "Ожидание"),
    Entry("on_review", "На проверке"), Entry("completed", "Завершена"),
    Entry("cancelled", "Отменена"), Entry("frozen", "Заморожена")]

  const TaskPriorities: seq<Entry> := [
    Entry("urgent", "Срочный"), Entry("high", "Высокий приоритет"), Entry("normal", "Обычный")]

  /** `value` is one of the table's values, so a dropdown over it can pick it. */
  predicate Listed(entries: seq<Entry>, value: string) {
    exists i :: 0 <= i < |entries| && entries[i].value == value
  }

  const TaskStatusColors: seq<Entry> := [
    Entry("new", "bg-gray-100 text-gray-800"), Entry("in_progress", "bg-blue-100 text-blue-800"),
    Entry("waiting", "bg-yellow-100 text-yellow-800"), Entry("on_review", "bg-purple-100 text-purple-800"),
    Entry("completed", "bg-green-100 text-green-800"), Entry("cancelled", "bg-red-100 text-red-800"),
    Entry("frozen", "bg-cyan-100 text-cyan-800")]

  const UserRoles: seq<Entry> := [
    Entry("director", "Директор"), Entry("senior", "Старший"), Entry("employee", "Сотрудник")]

  const ActivityTypes: seq<Entry> := [
    Entry("declarant", "Декларант"), Entry("certification", "Сертификация")]

  /** `getRoleLabel`: the four known roles by name, a missing or empty role
      as unassigned, any other role as itself. */
  function RoleLabel(role: Option<string>): (r: string)
    ensures role == Some("admin") ==> r == "Админ"
    ensures role == Some("director") ==> r == "Директор"
    ensures role == Some("senior") ==> r == "Старший"
    ensures role == Some("employee") ==> r == "Сотрудник"
    ensures !TextSet(role) ==> r == UnassignedRoleText
    ensures TextSet(role) && role.value !in {"admin", "director", "senior", "employee"} ==> r == role.value
  {
    if role == Some("admin") then "Админ"
    else if role == Some("director") then "Директор"
    else if role == Some("senior") then "Старший"
    else if role == Some("employee") then "Сотрудник"
    else OrElse(role, UnassignedRoleText)
  }

  /** The role labels agree with the role table wherever that table has a row. */
  lemma RoleLabelAgreesWithTable(i: nat)
    requires i < |UserRoles|
    ensures RoleLabel(Some(UserRoles[i].value)) == StatusLabel(UserRoles, UserRoles[i].value)
  {
    LookupRow(UserRoles, i, UserRoles[i].value);
  }

  /** `getActivityLabel`: the two activity types by name, anything else as itself. */
  function ActivityLabel(kind: string): (r: string)
    ensures kind == "declarant" ==> r == "Декларант"
    ensures kind == "certification" ==> r == "Сертификация"
    ensures kind != "declarant" && kind != "certification" ==> r == kind
  {
    if kind == "declarant" then "Декларант"
    else if kind == "certification" then "Сертификация"
    else kind
  }

  /** The activity labels agree with the activity table; other values are
      shown as they come, also by the generic lookup. */
  lemma ActivityLabelAgreesWithTable(kind: string)
    ensures ActivityLabel(kind) == StatusLabel(ActivityTypes, kind)
  {
    if kind == "declarant" {
      LookupRow(ActivityTypes, 0, kind);
    } else if kind == "certification" {
      LookupRow(ActivityTypes, 1, kind);
    }
  }

  const Ellipsis: string := "..."

  /** `truncate(s, maxLen)`. */
  function Truncate(s: string, maxLen: nat): (r: string)
    ensures |s| <= maxLen ==> r == s
    ensures |s| > maxLen ==> |r| == maxLen + 3 && r[..maxLen] == s[..maxLen] && r[maxLen..] == Ellipsis
  {
    if |s| <= maxLen then s else s[..maxLen] + Ellipsis
  }

  /** Truncating again changes nothing. */
  lemma TruncateIdempotent(s: string, maxLen: nat)
    ensures Truncate(Truncate(s, maxLen), maxLen) == Truncate(s, maxLen)
  {
    if |s| > maxLen {
      var r := Truncate(s, maxLen);
      assert r[..maxLen] + Ellipsis == r;
    }
  }

  /** `p.charAt(0)`. */
  function FirstChar(p: string): (r: string)
    ensures p == "" ==> r == ""
    ensures p != "" ==> r == [p[0]]
  {
    if p == "" then "" else [p[0]]
  }

  /** `parts.map(p => p.charAt(0)).join('')`. */
  function FirstChars(parts: seq<string>): (r: string)
    ensures |r| <= |parts|
  {
    if parts == [] then "" else FirstChar(parts[0]) + FirstChars(parts[1..])
  }

  /** Reference definition: the characters of `s` that start a word, that
      is, are not a space and follow a space or the start. */
  function WordStartsFrom(s: string, afterSpace: bool): (r: string)
    ensures forall c :: c in r ==> c in s && c != ' '
  {
    if s == [] then ""
    else (if afterSpace && s[0] != ' ' then [s[0]] else "") + WordStartsFrom(s[1..], s[0] == ' ')
  }

  function WordStarts(s: string): string { WordStartsFrom(s, true) }

  /** `getInitials(name)`; `upper` stands for `toUpperCase`. */
  function Initials(name: string, upper: string -> string): (r: string)
    ensures |r| <= 2
  {
    var u := upper(FirstChars(Split(name, ' ')));
    if |u| <= 2 then u else u[..2]
  }

  lemma {:induction false} WordStartsOfPieces(s: string, afterSpace: bool)
    ensures var parts := Split(s, ' ');
      WordStartsFrom(s, afterSpace) == (if afterSpace then FirstChar(parts[0]) else "") + FirstChars(parts[1..])
  {
    if s != [] {
      var rest := Split(s[1..], ' ');
      WordStartsOfPieces(s[1..], s[0] == ' ');
      if s[0] == ' ' {
        assert Split(s, ' ') == [""] + rest;
        assert ([""] + rest)[1..] == rest;
      } else {
        assert Split(s, ' ') == [[s[0]] + rest[0]] + rest[1..];
        assert ([[s[0]] + rest[0]] + rest[1..])[1..] == rest[1..];
      }
    }
  }

  /** The initials are the first two word starts of the name, upper-cased:
      the first letter of each space-separated part, skipping empty parts. */
  lemma InitialsAreWordStarts(name: string, upper: string -> string)
    ensures Initials(name, upper) == var u := upper(WordStarts(name)); if |u| <= 2 then u else u[..2]
  {
    WordStartsOfPieces(name, true);
  }

  /** An argument of `classNames`. */
  datatype ClassArg = Str(s: string) | Flag(b: bool) | Absent

  /** `Boolean(arg)`. */
  predicate Truthy(a: ClassArg) {
    (a.Str? && a.s != "") || (a.Flag? && a.b)
  }

  /** How a kept argument reads when joined. */
  function ClassText(a: ClassArg): string {
    if a.Str? then a.s else "true"
  }

  /** `classes.filter(Boolean)`, as text. */
  function KeptClasses(args: seq<ClassArg>): (r: seq<string>)
    ensures |r| <= |args|
    ensures forall i :: 0 <= i < |r| ==> r[i] != ""
    ensures r == [] <==> forall i :: 0 <= i < |args| ==> !Truthy(args[i])
  {
    if args == [] then []
    else (if Truthy(args[0]) then [ClassText(args[0])] else []) + KeptClasses(args[1..])
  }

  /** `classNames(...args)`. */
  function ClassNames(args: seq<ClassArg>): (r: string)
    ensures (forall i :: 0 <= i < |args| ==> !Truthy(args[i])) ==> r == ""
  {
    Join(KeptClasses(args), " ")
  }

  /** With no spaces inside the names, splitting the result at spaces gives
      back exactly the truthy arguments, in order. */
  lemma ClassNamesSplit(args: seq<ClassArg>)
    requires KeptClasses(args) != []
    requires forall i :: 0 <= i < |args| && args[i].Str? ==> ' ' !in args[i].s
    ensures Split(ClassNames(args), ' ') == KeptClasses(args)
  {
    KeptHaveNoSpace(args);
    SplitJoin(KeptClasses(args), ' ');
  }

  lemma {:induction false} KeptHaveNoSpace(args: seq<ClassArg>)
    requires forall i :: 0 <= i < |args| && args[i].Str? ==> ' ' !in args[i].s
    ensures forall i :: 0 <= i < |KeptClasses(args)| ==> ' ' !in KeptClasses(args)[i]
  {
    if args != [] {
      KeptHaveNoSpace(args[1..]);
      assert args[0].Str? ==> ' ' !in args[0].s;
      var head: seq<string> := if Truthy(args[0]) then [ClassText(args[0])] else [];
      assert KeptClasses(args) == head + KeptClasses(args[1..]);
    }
  }

  /** A falsy argument can be appended without changing the class string. */
  lemma {:induction false} FalsyArgIgnored(args: seq<ClassArg>, a: ClassArg)
    requires !Truthy(a)
    ensures ClassNames(args + [a]) == ClassNames(args)
  {
    KeptSnoc(args, a);
    assert KeptClasses(args) + [] == KeptClasses(args);
  }

  lemma {:induction false} KeptSnoc(args: seq<ClassArg>, a: ClassArg)
    ensures KeptClasses(args + [a]) == KeptClasses(args) + (if Truthy(a) then [ClassText(a)] else [])
  {
    if args == [] {
      assert [a][1..] == [];
    } else {
      assert (args + [a])[1..] == args[1..] + [a];
      KeptSnoc(args[1..], a);
    }
  }

  /** The decimal numeral of `n`. */
  function Decimal(n: nat): (r: string)
    ensures r != "" && AllDigits(r)
    ensures |r| > 1 ==> r[0] != '0'
  {
    if n < 10 then [('0' as int + n) as char]
    else Decimal(n / 10) + [('0' as int + n % 10) as char]
  }

  /** The value of a numeral. */
  function DecimalValue(s: string): nat
    requires AllDigits(s)
  {
    if s == [] then 0 else 10 * DecimalValue(s[..|s| - 1]) + (s[|s| - 1] as int - '0' as int)
  }

  /** Reading the numeral back gives the number. */
  lemma {:induction false} DecimalRoundTrip(n: nat)
    ensures DecimalValue(Decimal(n)) == n
  {
    if n >= 10 {
      DecimalRoundTrip(n / 10);
      var d := Decimal(n);
      assert d[..|d| - 1] == Decimal(n / 10);
    }
  }

  /** JavaScript's `String(n)` for an integer. */
  function IntText(n: int): (r: string)
    ensures n >= 0 ==> r == Decimal(n)
    ensures n < 0 ==> r == "-" + Decimal(-n)
  {
    if n >= 0 then Decimal(n) else "-" + Decimal(-n)
  }

  const NoSizeText: string := "—"
  const ByteUnit: string := " Б"

  /** `formatFileSize` on a whole number of bytes; `None` stands for the
      kilobyte and larger branches, which are not part of this model. */
  function FileSizeText(bytes: Option<int>): (r: Option<string>)
    ensures !IdSet(bytes) ==> r == Some(NoSizeText)
    ensures IdSet(bytes) && bytes.value < 1024 ==> r == Some(IntText(bytes.value) + ByteUnit)
    ensures IdSet(bytes) && bytes.value >= 1024 ==> r.None?
  {
    if !IdSet(bytes) then Some(NoSizeText)
    else if bytes.value < 1024 then Some(IntText(bytes.value) + ByteUnit)
    else None
  }

  /** A positive size below a kilobyte reads back as its byte count. */
  lemma FileSizeShowsBytes(bytes: int)
    requires 0 < bytes < 1024
    ensures var t := FileSizeText(Some(bytes)).value;
      |t| > |ByteUnit| && t[|t| - |ByteUnit|..] == ByteUnit &&
      AllDigits(t[..|t| - |ByteUnit|]) && DecimalValue(t[..|t| - |ByteUnit|]) == bytes
  {
    var t := FileSizeText(Some(bytes)).value;
    assert t[..|t| - |ByteUnit|] == Decimal(bytes);
    DecimalRoundTrip(bytes);
  }
}
