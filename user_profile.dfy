/**
 * Another user's profile screen: their public photos (a per-user endpoint,
 * then a filtered general listing as fallback), and starting a chat with
 * them under whichever stored token is found first.
 */
module UserProfile {

  import opened Common
  import opened Js
  import opened Http
  import opened ChatIdentity

  /** A photo of the viewed user's grid. */
  datatype PublicPhoto = PublicPhoto(id: Json, imageUrl: Json, description: Json)

  /** `user._id || user.id`; `None` when the route user is nullish and reading it throws. */
  function ViewedId(user: Json): Option<Json>
  {
    if Nullish(user) then None else Some(Or(Get(user, "_id"), Get(user, "id")))
  }

  /** `{ id: photo._id || photo.id, imageUrl, description }`; `None` when the photo is nullish. */
  function ToPublic(p: Json): Option<PublicPhoto>
  {
    if Nullish(p) then None else Some(PublicPhoto(Or(Get(p, "_id"), Get(p, "id")), Get(p, "imageUrl"), Get(p, "description")))
  }

  /** The map over a list: order and length kept; a nullish photo makes it throw. */
  function ToPublicAll(ps: seq<Json>): (r: Option<seq<PublicPhoto>>)
    ensures r.Some? <==> forall i :: 0 <= i < |ps| ==> !Nullish(ps[i])
    ensures r.Some? ==> |r.value| == |ps| && forall i :: 0 <= i < |ps| ==> Some(r.value[i]) == ToPublic(ps[i])
  {
    if ps == [] then Some([])
    else
      if Nullish(ps[0]) then None
      else
      var rest := ToPublicAll(ps[1..]);
      if rest.None? then
        var i :| 0 <= i < |ps[1..]| && Nullish(ps[1..][i]);
        assert ps[i + 1] == ps[1..][i];
        None
      else
        var r := [ToPublic(ps[0]).value] + rest.value;
        assert forall i :: 1 <= i < |ps| ==> r[i] == rest.value[i - 1] && ps[i] == ps[1..][i - 1];
        Some(r)
  }

  /** The client-side ownership test of the fallback listing. */
  predicate OwnedBy(p: Json, userId: Json)
  {
    Get(Get(p, "user"), "_id") == userId || Get(Get(p, "user"), "id") == userId
    || Get(p, "userId") == userId || Get(p, "ownerId") == userId
  }

  /** The fallback filter over photos that are all non-nullish. */
  function KeepOwned(ps: seq<Json>, userId: Json): (r: seq<Json>)
    ensures |r| <= |ps|
    ensures forall x :: x in r ==> x in ps && OwnedBy(x, userId)
    ensures forall i :: 0 <= i < |r| ==> r[i] in ps
    ensures forall i :: 0 <= i < |ps| && OwnedBy(ps[i], userId) ==> ps[i] in r
  {
    if ps == [] then []
    else
      assert forall i :: 1 <= i < |ps| ==> ps[i] == ps[1..][i - 1];
      (if OwnedBy(ps[0], userId) then [ps[0]] else []) + KeepOwned(ps[1..], userId)
  }

  /** What the per-user endpoint contributes: the mapped list, or `None` when the fallback is needed. */
  function PrimaryPhotos(reply: Reply): Option<seq<PublicPhoto>>
  {
    if !Ok(reply) then None
    else
      var ps := PhotoList(reply.body);
      if ps.None? then None else ToPublicAll(ps.value)
  }

  /** What the general listing leaves: the owned photos mapped, or the empty list when anything fails. */
  function FallbackPhotos(reply: Reply, userId: Json): seq<PublicPhoto>
  {
    if !Ok(reply) then []
    else
      var ps := PhotoList(reply.body);
      if ps.None? || exists i :: 0 <= i < |ps.value| && Nullish(ps.value[i]) then []
      else
        var owned := KeepOwned(ps.value, userId);
        ToPublicAll(owned).value
  }

  /** Every photo the fallback shows comes from a listed photo the viewed user owns. */
  lemma FallbackShowsOnlyOwned(reply: Reply, userId: Json)
    ensures forall x :: x in FallbackPhotos(reply, userId) ==>
      exists p :: p in PhotoList(reply.body).value && OwnedBy(p, userId) && ToPublic(p) == Some(x)
  {
    forall x | x in FallbackPhotos(reply, userId)
      ensures exists p :: p in PhotoList(reply.body).value && OwnedBy(p, userId) && ToPublic(p) == Some(x)
    {
      var ps := PhotoList(reply.body).value;
      var owned := KeepOwned(ps, userId);
      var r := ToPublicAll(owned).value;
      var i :| 0 <= i < |r| && r[i] == x;
      assert owned[i] in owned;
    }
  }

  /** Where `handleChatPress` looks for a token, in order; the stored user's fields only when it parses. */
  function TokenCandidates(storage: Storage, parsedUser: Option<Json>): seq<Json>
  {
    [FromOption(GetItem(storage, "accessToken")), FromOption(GetItem(storage, "token")), FromOption(GetItem(storage, "userToken"))]
    + if Given(GetItem(storage, "user")) && parsedUser.Some? then [Get(parsedUser.value, "accessToken"), Get(parsedUser.value, "token")] else []
  }

  /**
   * The `userToken` chain of `handleChatPress`, with `JSON.parse` of the
   * stored user taken as a parameter (`None` when it throws, which is caught).
   */
  function ChatToken(storage: Storage, parsedUser: Option<Json>): Json
  {
    var t := FromOption(GetItem(storage, "accessToken"));
    var t := if Truthy(t) then t else FromOption(GetItem(storage, "token"));
    var t := if Truthy(t) then t else FromOption(GetItem(storage, "userToken"));
    if Truthy(t) || !Given(GetItem(storage, "user")) || parsedUser.None? then t
    else if Truthy(Get(parsedUser.value, "accessToken")) then Get(parsedUser.value, "accessToken")
    else if Truthy(Get(parsedUser.value, "token")) then Get(parsedUser.value, "token")
    else t
  }

  /** `a || b || c`, then, when `more` and that is falsy, `d`, then `e`, each only when truthy. */
  lemma TokenChainIsFirst(a: Json, b: Json, c: Json, more: bool, d: Json, e: Json)
    ensures var t0 := if Truthy(a) then a else if Truthy(b) then b else c;
      var t := if Truthy(t0) || !more then t0 else if Truthy(d) then d else if Truthy(e) then e else t0;
      var f := FirstTruthy([a] + ([b] + ([c] + if more then [d] + ([e] + []) else [])));
      (Truthy(t) <==> f.Some?) && (Truthy(t) ==> t == f.value)
  {
    var tail := if more then [d] + ([e] + []) else [];
    FirstTruthyCons(a, [b] + ([c] + tail));
    FirstTruthyCons(b, [c] + tail);
    FirstTruthyCons(c, tail);
    if more {
      FirstTruthyCons(d, [e] + []);
      FirstTruthyCons(e, []);
    }
  }

  /** The chain stops at the first source holding a token. */
  lemma ChatTokenIsFirstFound(storage: Storage, parsedUser: Option<Json>)
    ensures Truthy(ChatToken(storage, parsedUser)) <==> FirstTruthy(TokenCandidates(storage, parsedUser)).Some?
    ensures Truthy(ChatToken(storage, parsedUser)) ==> ChatToken(storage, parsedUser) == FirstTruthy(TokenCandidates(storage, parsedUser)).value
  {
    var a, b, c := FromOption(GetItem(storage, "accessToken")), FromOption(GetItem(storage, "token")), FromOption(GetItem(storage, "userToken"));
    var more := Given(GetItem(storage, "user")) && parsedUser.Some?;
    var d := if parsedUser.Some? then Get(parsedUser.value, "accessToken") else Undefined;
    var e := if parsedUser.Some? then Get(parsedUser.value, "token") else Undefined;
    assert TokenCandidates(storage, parsedUser) == [a] + ([b] + ([c] + if more then [d] + ([e] + []) else []));
    TokenChainIsFirst(a, b, c, more, d, e);
  }

  /** `typeof userToken === 'string' && userToken.trim() !== ''` on a truthy token. */
  predicate UsableToken(t: Json)
  {
    t.Str? && Trim(t.s) != ""
  }

  const LoginPromptText := "Phiên đăng nhập đã hết hạn. Vui lòng đăng nhập lại để tiếp tục."
  const ExpiredText := "Phiên đăng nhập đã hết hạn. Vui lòng đăng nhập lại."
  const InvalidToken := "Token không hợp lệ"
  const NoUserId := "Không tìm thấy userId hợp lệ"
  const ChatDefault := "Không thể tạo cuộc trò chuyện. Vui lòng thử lại sau."
  const TryLaterShort := "Vui lòng thử lại sau"

  /** `Lỗi (${status}): ${data?.message || 'Vui lòng thử lại sau'}` */
  function StatusMessage(status: int, body: Json): string
  {
    "Lỗi (" + IntToDecimal(status) + "): " + ToStr(Or(Get(body, "message"), Str(TryLaterShort)))
  }

  /** The create-chat request: the viewed user is the only participant. */
  datatype CreateChat = CreateChat(participants: seq<Json>, authorization: string)

  /** How a press of the chat button ends. */
  datatype ChatPress =
    | LoginPrompt(message: string)
    | ExpiredPrompt(message: string)
    | ScreenAlert(message: string)
    | OpenChat(chatId: Json, recipient: Json, email: Json, userId: Json)

  class UserProfileSession {
    const user: Json
    var storage: Storage
    var photos: seq<PublicPhoto>
    var photosLoading: bool
    var loading: bool

    constructor (routeUser: Json, stored: Storage)
      ensures user == routeUser && storage == stored && photos == [] && photosLoading && !loading
    {
      user := routeUser;
      storage := stored;
      photos := [];
      photosLoading := true;
      loading := false;
    }

    /**
     * `fetchUserPublicPhotos`, with both endpoints' replies taken as
     * parameters. Returns which of the two requests were sent.
     */
    method FetchUserPublicPhotos(primary: Reply, fallback: Reply) returns (sentPrimary: bool, sentFallback: bool)
      modifies this`photos, this`photosLoading
      ensures !photosLoading
      ensures sentPrimary <==> Given(GetItem(storage, "accessToken")) && ViewedId(user).Some? && Truthy(ViewedId(user).value)
      ensures sentFallback <==> sentPrimary && PrimaryPhotos(primary).None?
      ensures sentPrimary && !sentFallback ==> photos == PrimaryPhotos(primary).value
      ensures sentFallback ==> photos == FallbackPhotos(fallback, ViewedId(user).value)
      ensures !sentPrimary ==> photos == []
    {
      photosLoading := true;
      sentPrimary := false;
      sentFallback := false;
      var id := ViewedId(user);
      if !Given(GetItem(storage, "accessToken")) || id.None? || !Truthy(id.value) {
        photos := [];
      } else {
        sentPrimary := true;
        var first := PrimaryPhotos(primary);
        if first.Some? {
          photos := first.value;
        } else {
          sentFallback := true;
          photos := FallbackPhotos(fallback, id.value);
        }
      }
      photosLoading := false;
    }

    /**
     * `handleChatPress`, with the parse of the stored user and the server's
     * reply taken as parameters. Returns the create-chat request, if one was
     * sent, and how the press ends.
     */
    method HandleChatPress(parsedUser: Option<Json>, reply: Reply) returns (request: Option<CreateChat>, outcome: ChatPress)
      modifies this`storage, this`loading
      ensures !loading
      ensures request.Some? <==> (var t := ChatToken(old(storage), parsedUser);
        Truthy(t) && UsableToken(t) && ViewedId(user).Some? && Truthy(ViewedId(user).value))
      ensures request.Some? ==> request.value == CreateChat([ViewedId(user).value], "Bearer " + ChatToken(old(storage), parsedUser).s)
      ensures !Truthy(ChatToken(old(storage), parsedUser)) ==> outcome == LoginPrompt(LoginPromptText)
      ensures Truthy(ChatToken(old(storage), parsedUser)) && !UsableToken(ChatToken(old(storage), parsedUser)) ==> outcome == ScreenAlert(InvalidToken)
      ensures UsableToken(ChatToken(old(storage), parsedUser)) && ViewedId(user).None? ==> outcome == ScreenAlert(TypeErrorMessage)
      ensures UsableToken(ChatToken(old(storage), parsedUser)) && ViewedId(user).Some? && !Truthy(ViewedId(user).value)
        ==> outcome == ScreenAlert(NoUserId)
      ensures request.Some? && Ok(reply) && !Nullish(reply.body) ==>
        outcome == OpenChat(Or(Get(reply.body, "_id"), Get(reply.body, "id")), Get(user, "name"), Get(user, "email"), ViewedId(user).value)
      ensures request.Some? && Ok(reply) && Nullish(reply.body) ==> outcome == ScreenAlert(TypeErrorMessage)
      ensures request.Some? && reply.Response? && reply.status == 401 ==> outcome == ExpiredPrompt(ExpiredText)
      ensures request.Some? && !Ok(reply) && reply.Response? && reply.status != 401 ==> outcome == ScreenAlert(StatusMessage(reply.status, reply.body))
      ensures request.Some? && reply.Network? ==> outcome == ScreenAlert(ChatDefault)
      ensures request.Some? && reply.Response? && reply.status == 401 ==> storage == RemoveKeys(old(storage), {"token", "userToken"})
      ensures !(request.Some? && reply.Response? && reply.status == 401) ==> storage == old(storage)
    {
      loading := true;
      request := None;
      var token := ChatToken(storage, parsedUser);
      if !Truthy(token) {
        outcome := LoginPrompt(LoginPromptText);
      } else if !UsableToken(token) {
        outcome := ScreenAlert(InvalidToken);
      } else {
        var id := ViewedId(user);
        if id.None? {
          outcome := ScreenAlert(TypeErrorMessage);
        } else if !Truthy(id.value) {
          outcome := ScreenAlert(NoUserId);
        } else {
          request := Some(CreateChat([id.value], "Bearer " + token.s));
          if Ok(reply) {
            if Nullish(reply.body) {
              outcome := ScreenAlert(TypeErrorMessage);
            } else {
              outcome := OpenChat(Or(Get(reply.body, "_id"), Get(reply.body, "id")), Get(user, "name"), Get(user, "email"), id.value);
            }
          } else if reply.Response? && reply.status == 401 {
            storage := RemoveKeys(storage, {"token", "userToken"});
            outcome := ExpiredPrompt(ExpiredText);
          } else if reply.Response? {
            outcome := ScreenAlert(StatusMessage(reply.status, reply.body));
          } else {
            outcome := ScreenAlert(ChatDefault);
          }
        }
      }
      loading := false;
    }
  }

  /** A 401 keeps the `accessToken` key: only `token` and `userToken` are removed. */
  lemma ExpiryKeepsAccessToken(storage: Storage)
    requires "accessToken" in storage
    ensures "accessToken" in RemoveKeys(storage, {"token", "userToken"})
    ensures RemoveKeys(storage, {"token", "userToken"})["accessToken"] == storage["accessToken"]
  {
  }
}
