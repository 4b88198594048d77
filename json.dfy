/** The records that the front end keeps in `localStorage` as JSON text, and a
    stand-in for `JSON.stringify` / `JSON.parse` on them.

    The real JSON grammar is not modelled. What the session logic relies on is
    that parsing what was stringified gives the value back, that a stringified
    value is never the empty string (so it is truthy), and that `"null"` parses
    to `null` rather than failing. The stand-in encoding below has exactly
    these properties: every field is written as a tagged, self-delimiting
    token, and the decoder reads the tokens back in the same order. */
module Json {
  import opened Common

  /** `UserResponse`: the profile of the signed-in user. */
  datatype User = User(
    id: int,
    fullName: string,
    email: string,
    phone: string,
    activityType: string,
    avatarUrl: Option<string>,
    soundEnabled: bool,
    isActive: bool,
    createdAt: string,
    companyId: Option<int>,
    companyName: Option<string>,
    companyInn: Option<string>,
    role: Option<string>)

  /** What `JSON.parse` produces from a stored text: it throws, it yields
      `null`, or it yields a value of the expected shape. */
  datatype Parsed<+T> = Throws | ParsedNull | Parsed(value: T)

  // ---- encoders: each writes its token in front of `rest` ----

  function NatOnto(n: nat, rest: string): (r: string)
    ensures |r| == n + 1 + |rest|
  {
    if n == 0 then "." + rest else "|" + NatOnto(n - 1, rest)
  }

  function IntOnto(i: int, rest: string): string {
    if i < 0 then "-" + NatOnto(-i, rest) else "+" + NatOnto(i, rest)
  }

  function StrOnto(s: string, rest: string): string {
    NatOnto(|s|, s + rest)
  }

  function BoolOnto(b: bool, rest: string): string {
    (if b then "t" else "f") + rest
  }

  function OptStrOnto(o: Option<string>, rest: string): string {
    match o
    case None => "n" + rest
    case Some(s) => "s" + StrOnto(s, rest)
  }

  function OptIntOnto(o: Option<int>, rest: string): string {
    match o
    case None => "n" + rest
    case Some(i) => "s" + IntOnto(i, rest)
  }

  function UserOnto(u: User, rest: string): string {
    IntOnto(u.id,
    StrOnto(u.fullName,
    StrOnto(u.email,
    StrOnto(u.phone,
    StrOnto(u.activityType,
    OptStrOnto(u.avatarUrl,
    BoolOnto(u.soundEnabled,
    BoolOnto(u.isActive,
    StrOnto(u.createdAt,
    OptIntOnto(u.companyId,
    OptStrOnto(u.companyName,
    OptStrOnto(u.companyInn,
    OptStrOnto(u.role, rest)))))))))))))
  }

  // ---- decoders: each reads one token and returns what is left ----

  function NatPrefix(t: string): Option<(nat, string)>
    decreases |t|
  {
    if t == [] then None
    else if t[0] == '.' then Some((0, t[1..]))
    else if t[0] == '|' then
      var p :- NatPrefix(t[1..]);
      Some((p.0 + 1, p.1))
    else None
  }

  function IntPrefix(t: string): Option<(int, string)> {
    if t == [] then None
    else if t[0] == '+' then
      var p :- NatPrefix(t[1..]);
      Some((p.0 as int, p.1))
    else if t[0] == '-' then
      var p :- NatPrefix(t[1..]);
      var m: int := p.0;
      if m == 0 then None else Some((-m, p.1))
    else None
  }

  function StrPrefix(t: string): Option<(string, string)> {
    var p :- NatPrefix(t);
    var (n, body) := p;
    if n <= |body| then Some((body[..n], body[n..])) else None
  }

  function BoolPrefix(t: string): Option<(bool, string)> {
    if t == [] then None
    else if t[0] == 't' then Some((true, t[1..]))
    else if t[0] == 'f' then Some((false, t[1..]))
    else None
  }

  function OptStrPrefix(t: string): Option<(Option<string>, string)> {
    if t == [] then None
    else if t[0] == 'n' then Some((None, t[1..]))
    else if t[0] == 's' then
      var p :- StrPrefix(t[1..]);
      Some((Some(p.0), p.1))
    else None
  }

  function OptIntPrefix(t: string): Option<(Option<int>, string)> {
    if t == [] then None
    else if t[0] == 'n' then Some((None, t[1..]))
    else if t[0] == 's' then
      var p :- IntPrefix(t[1..]);
      Some((Some(p.0), p.1))
    else None
  }

  function UserPrefix(t: string): Option<(User, string)> {
    var id :- IntPrefix(t);
    var fullName :- StrPrefix(id.1);
    var email :- StrPrefix(fullName.1);
    var phone :- StrPrefix(email.1);
    var activityType :- StrPrefix(phone.1);
    var avatarUrl :- OptStrPrefix(activityType.1);
    var soundEnabled :- BoolPrefix(avatarUrl.1);
    var isActive :- BoolPrefix(soundEnabled.1);
    var createdAt :- StrPrefix(isActive.1);
    var companyId :- OptIntPrefix(createdAt.1);
    var companyName :- OptStrPrefix(companyId.1);
    var companyInn :- OptStrPrefix(companyName.1);
    var role :- OptStrPrefix(companyInn.1);
    Some((User(id.0, fullName.0, email.0, phone.0, activityType.0, avatarUrl.0,
               soundEnabled.0, isActive.0, createdAt.0, companyId.0,
               companyName.0, companyInn.0, role.0), role.1))
  }

  // ---- the two JSON operations used on the stored session ----

  /** The text `JSON.stringify` gives for `null`. */
  const NullText: string := "null"

  /** `JSON.stringify(user)`. */
  function EncodeUser(u: User): (r: string)
    ensures r != "" && r != NullText
  {
    UserOnto(u, "")
  }

  /** `JSON.parse(text) as UserResponse`. */
  function ParseUser(text: string): (r: Parsed<User>)
    ensures text == NullText ==> r == ParsedNull
    ensures r == ParsedNull ==> text == NullText
  {
    if text == NullText then ParsedNull
    else match UserPrefix(text)
      case Some((u, rest)) => if rest == "" then Parsed(u) else Throws
      case None => Throws
  }

  /** `JSON.stringify(flag)`. */
  function EncodeBool(b: bool): (r: string)
    ensures r != ""
  {
    if b then "true" else "false"
  }

  /** `JSON.parse(text)` where a boolean is expected. */
  function ParseBool(text: string): (r: Parsed<bool>)
    ensures r.Parsed? <==> text == "true" || text == "false"
  {
    if text == "true" then Parsed(true)
    else if text == "false" then Parsed(false)
    else if text == NullText then ParsedNull
    else Throws
  }

  // ---- round trips ----

  lemma {:induction false} NatRoundTrip(n: nat, rest: string)
    ensures NatPrefix(NatOnto(n, rest)) == Some((n, rest))
  {
    if n > 0 {
      NatRoundTrip(n - 1, rest);
      assert NatOnto(n, rest)[1..] == NatOnto(n - 1, rest);
    }
  }

  lemma IntRoundTrip(i: int, rest: string)
    ensures IntPrefix(IntOnto(i, rest)) == Some((i, rest))
  {
    if i < 0 {
      NatRoundTrip(-i, rest);
      assert IntOnto(i, rest)[1..] == NatOnto(-i, rest);
    } else {
      NatRoundTrip(i, rest);
      assert IntOnto(i, rest)[1..] == NatOnto(i, rest);
    }
  }

  lemma StrRoundTrip(s: string, rest: string)
    ensures StrPrefix(StrOnto(s, rest)) == Some((s, rest))
  {
    NatRoundTrip(|s|, s + rest);
    assert (s + rest)[..|s|] == s;
    assert (s + rest)[|s|..] == rest;
  }

  lemma OptStrRoundTrip(o: Option<string>, rest: string)
    ensures OptStrPrefix(OptStrOnto(o, rest)) == Some((o, rest))
  {
    match o
    case None =>
      assert OptStrOnto(o, rest)[1..] == rest;
    case Some(s) =>
      StrRoundTrip(s, rest);
      assert OptStrOnto(o, rest)[1..] == StrOnto(s, rest);
  }

  lemma OptIntRoundTrip(o: Option<int>, rest: string)
    ensures OptIntPrefix(OptIntOnto(o, rest)) == Some((o, rest))
  {
    match o
    case None =>
      assert OptIntOnto(o, rest)[1..] == rest;
    case Some(i) =>
      IntRoundTrip(i, rest);
      assert OptIntOnto(o, rest)[1..] == IntOnto(i, rest);
  }

  lemma BoolRoundTrip(b: bool, rest: string)
    ensures BoolPrefix(BoolOnto(b, rest)) == Some((b, rest))
  {
    assert BoolOnto(b, rest)[1..] == rest;
  }

  /** Decoding the encoding of a user yields that user and leaves the text
      after it untouched. */
  lemma UserRoundTripOnto(u: User, rest: string)
    ensures UserPrefix(UserOnto(u, rest)) == Some((u, rest))
  {
    var t12 := OptStrOnto(u.role, rest);
    var t11 := OptStrOnto(u.companyInn, t12);
    var t10 := OptStrOnto(u.companyName, t11);
    var t9 := OptIntOnto(u.companyId, t10);
    var t8 := StrOnto(u.createdAt, t9);
    var t7 := BoolOnto(u.isActive, t8);
    var t6 := BoolOnto(u.soundEnabled, t7);
    var t5 := OptStrOnto(u.avatarUrl, t6);
    var t4 := StrOnto(u.activityType, t5);
    var t3 := StrOnto(u.phone, t4);
    var t2 := StrOnto(u.email, t3);
    var t1 := StrOnto(u.fullName, t2);
    OptStrRoundTrip(u.role, rest);
    OptStrRoundTrip(u.companyInn, t12);
    OptStrRoundTrip(u.companyName, t11);
    OptIntRoundTrip(u.companyId, t10);
    StrRoundTrip(u.createdAt, t9);
    BoolRoundTrip(u.isActive, t8);
    BoolRoundTrip(u.soundEnabled, t7);
    OptStrRoundTrip(u.avatarUrl, t6);
    StrRoundTrip(u.activityType, t5);
    StrRoundTrip(u.phone, t4);
    StrRoundTrip(u.email, t3);
    StrRoundTrip(u.fullName, t2);
    IntRoundTrip(u.id, t1);
  }

  /** `JSON.parse(JSON.stringify(u))` gives `u` back. */
  lemma UserRoundTrip(u: User)
    ensures ParseUser(EncodeUser(u)) == Parsed(u)
  {
    UserRoundTripOnto(u, "");
  }

  /** `JSON.parse(JSON.stringify(b))` gives `b` back. */
  lemma BoolRoundTripText(b: bool)
    ensures ParseBool(EncodeBool(b)) == Parsed(b)
  {
  }
}
