/**
 * Who the chat screen thinks the current user is, and whose a message is.
 *
 * The stored user is passed in already parsed: `Undefined` stands for
 * "nothing stored" and for "stored text that is not JSON", which the screen
 * treats alike here. The token claims are passed in already decoded:
 * `Null` when decoding fails.
 */
module ChatIdentity {

  import opened Common
  import opened Js

  /** The first truthy candidate, as a chain of `||` that stops at the first truthy operand. */
  function FirstTruthy(cs: seq<Json>): (r: Option<Json>)
    ensures r.None? <==> forall i :: 0 <= i < |cs| ==> !Truthy(cs[i])
    ensures r.Some? ==>
      (Truthy(r.value) && exists i :: 0 <= i < |cs| && cs[i] == r.value && (forall j :: 0 <= j < i ==> !Truthy(cs[j])))
  {
    if cs == [] then None
    else if Truthy(cs[0]) then Some(cs[0])
    else
      var r := FirstTruthy(cs[1..]);
      if r.Some? then
        var i :| 0 <= i < |cs[1..]| && cs[1..][i] == r.value && (forall j :: 0 <= j < i ==> !Truthy(cs[1..][j]));
        assert cs[i + 1] == r.value && forall j :: 0 <= j < i + 1 ==> !Truthy(cs[j]);
        r
      else r
  }

  /**
   * `fetchCurrentUserId`: the stored user's `_id || id` when truthy; otherwise,
   * when a token is stored and decodes to a truthy value, its claims'
   * `id || _id || userId` when truthy; otherwise nothing.
   */
  function ResolveCurrentUserId(user: Json, token: Option<string>, claims: Json): Option<Json>
  {
    var fromUser := Or(Get(user, "_id"), Get(user, "id"));
    if Truthy(fromUser) then Some(fromUser)
    else if Given(token) && Truthy(claims) then
      var fromToken := Or(Or(Get(claims, "id"), Get(claims, "_id")), Get(claims, "userId"));
      if Truthy(fromToken) then Some(fromToken) else None
    else None
  }

  /** The identity sources in the order they are tried. */
  function IdentityCandidates(user: Json, token: Option<string>, claims: Json): seq<Json>
  {
    [Get(user, "_id"), Get(user, "id")]
    + if Given(token) && Truthy(claims) then [Get(claims, "id"), Get(claims, "_id"), Get(claims, "userId")] else []
  }

  /** The `||` chain unfolded by one operand. */
  lemma FirstTruthyCons(c: Json, rest: seq<Json>)
    ensures FirstTruthy([c] + rest) == if Truthy(c) then Some(c) else FirstTruthy(rest)
  {
    assert ([c] + rest)[0] == c && ([c] + rest)[1..] == rest;
  }

  /** `x0 || x1`, then, when `more`, `a || b || c`: the first truthy operand of the chain. */
  lemma OrChainIsFirst(x0: Json, x1: Json, more: bool, a: Json, b: Json, c: Json)
    ensures (if Truthy(Or(x0, x1)) then Some(Or(x0, x1))
             else if more && Truthy(Or(Or(a, b), c)) then Some(Or(Or(a, b), c))
             else None)
            == FirstTruthy([x0] + ([x1] + if more then [a] + ([b] + ([c] + [])) else []))
  {
    var tail := if more then [a] + ([b] + ([c] + [])) else [];
    FirstTruthyCons(x0, [x1] + tail);
    FirstTruthyCons(x1, tail);
    if more {
      FirstTruthyCons(a, [b] + ([c] + []));
      FirstTruthyCons(b, [c] + []);
      FirstTruthyCons(c, []);
    }
  }

  /** The resolution is the first truthy source, in the order stored `_id`, `id`, claims `id`, `_id`, `userId`. */
  lemma ResolveIsFirstCandidate(user: Json, token: Option<string>, claims: Json)
    ensures ResolveCurrentUserId(user, token, claims) == FirstTruthy(IdentityCandidates(user, token, claims))
  {
    var more := Given(token) && Truthy(claims);
    var a, b, c := Get(claims, "id"), Get(claims, "_id"), Get(claims, "userId");
    assert IdentityCandidates(user, token, claims)
      == [Get(user, "_id")] + ([Get(user, "id")] + if more then [a] + ([b] + ([c] + [])) else []);
    OrChainIsFirst(Get(user, "_id"), Get(user, "id"), more, a, b, c);
  }

  /** A stored profile id always wins over whatever the token says. */
  lemma StoredProfileWins(user: Json, token: Option<string>, claims: Json)
    requires Truthy(Get(user, "_id")) || Truthy(Get(user, "id"))
    ensures ResolveCurrentUserId(user, token, claims).Some?
    ensures ResolveCurrentUserId(user, token, claims) == ResolveCurrentUserId(user, None, Null)
  {
  }

  /** Without a stored profile id and without a stored token there is no identity. */
  lemma NoSourceNoIdentity(user: Json, claims: Json)
    requires !Truthy(Get(user, "_id")) && !Truthy(Get(user, "id"))
    ensures ResolveCurrentUserId(user, None, claims).None?
    ensures ResolveCurrentUserId(user, Some(""), claims).None?
  {
  }

  /**
   * The sender id `renderMessage` compares: for an object (arrays are
   * objects too) `String(_id || id || '')`, a string as it is, anything else `''`.
   */
  function SenderId(sender: Json): string
  {
    if sender.Obj? || sender.Arr? then ToStr(Or(Or(Get(sender, "_id"), Get(sender, "id")), Str("")))
    else if sender.Str? then sender.s
    else ""
  }

  /** A sender given as a string and the same id given as `{_id}` or as `{id}` normalise alike. */
  lemma SenderFormsAgree(s: string)
    ensures SenderId(Obj(map["_id" := Str(s)])) == SenderId(Str(s)) == s
    ensures SenderId(Obj(map["id" := Str(s)])) == s
  {
    assert Get(Obj(map["_id" := Str(s)]), "id") == Undefined;
    assert Get(Obj(map["id" := Str(s)]), "_id") == Undefined;
  }

  /** `_id` is preferred over `id` when both are present. */
  lemma SenderPrefersUnderscoreId(a: string, b: string)
    requires a != ""
    ensures SenderId(Obj(map["_id" := Str(a), "id" := Str(b)])) == a
  {
  }

  /** Numbers, booleans, null, undefined and arrays all normalise to the empty id. */
  lemma ShapelessSenderIsEmpty(sender: Json)
    requires !sender.Obj? && !sender.Str?
    ensures SenderId(sender) == ""
  {
  }

  datatype Authorship = Mine | Theirs | Stranger

  /** `String(currentUserId || '')` */
  function CurrentIdText(currentUserId: Option<string>): string
  {
    if Given(currentUserId) then currentUserId.value else ""
  }

  /** `String(u?.first || u?.second || '')` */
  function ProfileIdText(u: Json, first: string, second: string): string
  {
    ToStr(Or(Or(Get(u, first), Get(u, second)), Str("")))
  }

  /** The sender matches the current id state or the stored profile's `id || _id`. */
  predicate IsMine(sender: string, currentUserId: Option<string>, currentUser: Json)
  {
    sender == CurrentIdText(currentUserId) || sender == ProfileIdText(currentUser, "id", "_id")
  }

  /** The sender matches the other participant's `_id || id`. */
  predicate IsOther(sender: string, otherUser: Json)
  {
    sender == ProfileIdText(otherUser, "_id", "id")
  }

  /** `renderMessage`: mine is decided first, then the other participant, then nobody. */
  function Classify(sender: string, currentUserId: Option<string>, currentUser: Json, otherUser: Json): (a: Authorship)
    ensures a == Mine <==> IsMine(sender, currentUserId, currentUser)
    ensures a == Theirs <==> !IsMine(sender, currentUserId, currentUser) && IsOther(sender, otherUser)
    ensures a == Stranger <==> !IsMine(sender, currentUserId, currentUser) && !IsOther(sender, otherUser)
  {
    if IsMine(sender, currentUserId, currentUser) then Mine
    else if IsOther(sender, otherUser) then Theirs
    else Stranger
  }

  /** The name shown above a message. */
  function SenderName(a: Authorship, currentUser: Json, otherUser: Json, recipient: Json): (name: Json)
    ensures a == Mine ==> Truthy(name)
    ensures a == Mine && Truthy(Get(currentUser, "name")) ==> name == Get(currentUser, "name")
    ensures a == Mine && !Truthy(Get(currentUser, "name")) ==> name == Str("Me")
    ensures a == Theirs && Truthy(Get(otherUser, "name")) ==> name == Get(otherUser, "name")
    ensures a == Theirs && !Truthy(Get(otherUser, "name")) ==> name == recipient
    ensures a == Stranger ==> name == Str("Unknown User")
  {
    match a
    case Mine => Or(Get(currentUser, "name"), Str("Me"))
    case Theirs => Or(Get(otherUser, "name"), recipient)
    case Stranger => Str("Unknown User")
  }

  /** A message from the current user is never shown as the other participant's, even when their ids coincide. */
  lemma MineBeforeOther(sender: string, currentUserId: Option<string>, currentUser: Json, otherUser: Json)
    requires Given(currentUserId) && sender == currentUserId.value
    requires IsOther(sender, otherUser)
    ensures Classify(sender, currentUserId, currentUser, otherUser) == Mine
  {
  }

  /**
   * With no current id and a stored profile without `id`/`_id`, every
   * message whose sender normalises to `''` (a number, a missing sender, an
   * object without ids) is shown as the current user's.
   */
  lemma EmptySenderIsMineWithoutIdentity(sender: Json, currentUserId: Option<string>, currentUser: Json, otherUser: Json)
    requires !Given(currentUserId)
    requires !Truthy(Get(currentUser, "id")) && !Truthy(Get(currentUser, "_id"))
    requires SenderId(sender) == ""
    ensures Classify(SenderId(sender), currentUserId, currentUser, otherUser) == Mine
  {
  }

  /** The "base64url to base64" step of `decodeJWT`: every `-` becomes `+` and every `_` becomes `/`. */
  function UrlAlphabetToStandard(s: string): (r: string)
    ensures |r| == |s|
    ensures forall i :: 0 <= i < |s| ==> r[i] == (if s[i] == '-' then '+' else if s[i] == '_' then '/' else s[i])
  {
    if s == [] then []
    else [if s[0] == '-' then '+' else if s[0] == '_' then '/' else s[0]] + UrlAlphabetToStandard(s[1..])
  }

  /** The opposite substitution, which base64url encoders apply. */
  function StandardAlphabetToUrl(s: string): (r: string)
    ensures |r| == |s|
    ensures forall i :: 0 <= i < |s| ==> r[i] == (if s[i] == '+' then '-' else if s[i] == '/' then '_' else s[i])
  {
    if s == [] then []
    else [if s[0] == '+' then '-' else if s[0] == '/' then '_' else s[0]] + StandardAlphabetToUrl(s[1..])
  }

  /** Undoing the url alphabet recovers a standard-alphabet payload exactly. */
  lemma {:induction false} AlphabetRoundTrip(s: string)
    requires forall i :: 0 <= i < |s| ==> s[i] != '-' && s[i] != '_'
    ensures UrlAlphabetToStandard(StandardAlphabetToUrl(s)) == s
  {
    var r := UrlAlphabetToStandard(StandardAlphabetToUrl(s));
    assert forall i :: 0 <= i < |s| ==> r[i] == s[i];
  }
}
