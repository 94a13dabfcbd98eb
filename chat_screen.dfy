/**
 * The chat screen as a state machine over its React state: the message list
 * and its pagination, the typing indicator and its debounce timer, the
 * input, the chat being shown and its error banner.
 *
 * Each `await` splits an operation: what is read from storage or received
 * from the network is a parameter, and `fetchMessages` is split into
 * `BeginFetch` (what happens before its first await) and `CompleteFetch`.
 */
module ChatScreen {

  import opened Common
  import opened Js
  import opened Http
  import opened Socket
  import opened ChatIdentity

  const PageSize := 20

  /** "Cannot ", the opening of the screen's failure messages. */
  const Cannot := "Không thể "
  const LoadMessagesError := Cannot + "tải tin nhắn. Vui lòng thử lại."
  const SocketErrorText := Cannot + "kết nối đến máy chủ chat. Vui lòng thử lại sau."
  const UnknownTargetError := Cannot + "xác định người dùng. Vui lòng thử lại sau."
  const CreateChatPrefix := Cannot + "tạo cuộc trò chuyện. Vui lòng thử lại sau. Lỗi: "
  const NeedLoginText := "Bạn cần đăng nhập để sử dụng tính năng chat"
  const EmailLookupFailed := Cannot + "tìm người dùng với email này. Vui lòng thử lại sau."
  const UserNotFoundText := "Không tìm thấy người dùng với email này"
  const UserNotFoundShown := UserNotFoundText + ". Vui lòng kiểm tra lại thông tin."

  /** The `user` object a screen may pass; `dbId` is its `_id`. */
  datatype RouteUser = RouteUser(name: Option<string>, email: Option<string>, dbId: Option<string>, id: Option<string>)

  datatype RouteParams = RouteParams(
    user: Option<RouteUser>,
    recipient: Option<string>,
    email: Option<string>,
    userId: Option<string>,
    chatId: Option<string>)

  /** The person to chat with, as the screen derives it from its parameters. */
  datatype ChatTarget = ChatTarget(recipient: Option<string>, email: Option<string>, userId: Option<string>)

  function TargetOf(p: RouteParams): ChatTarget
  {
    match p.user
    case Some(u) => ChatTarget(u.name, u.email, OrString(u.dbId, u.id))
    case None => ChatTarget(OrString(p.recipient, Some("")), OrString(p.email, Some("")), p.userId)
  }

  function Field(key: string, v: Option<string>): map<string, Json>
  {
    if v.Some? then map[key := Str(v.value)] else map[]
  }

  /** `setupOtherUserInfo`: the route's user object, or one built from the separate fields. */
  function OtherUserOf(p: RouteParams): Json
  {
    match p.user
    case Some(u) => Obj(Field("name", u.name) + Field("email", u.email) + Field("_id", u.dbId) + Field("id", u.id))
    case None =>
      var t := TargetOf(p);
      Obj(Field("name", t.recipient) + Field("email", t.email) + Field("_id", t.userId))
  }

  /** A person passed as an object and the same person passed as separate fields lead to the same target. */
  lemma RouteFormsAgree(name: string, email: string, id: string, chatId: Option<string>)
    requires id != ""
    ensures TargetOf(RouteParams(Some(RouteUser(Some(name), Some(email), Some(id), None)), None, None, None, chatId))
         == TargetOf(RouteParams(None, Some(name), Some(email), Some(id), chatId))
  {
  }

  /** A `string | undefined` field as the object holds it. */
  function FieldValue(v: Option<string>): Json
  {
    if v.Some? then Str(v.value) else Undefined
  }

  /** Proof helper: `String(u._id || u.id || '')` for an object whose two id fields are optional strings. */
  lemma ProfileIdTextOfFields(u: Json, dbId: Option<string>, id: Option<string>)
    requires Get(u, "_id") == FieldValue(dbId) && Get(u, "id") == FieldValue(id)
    ensures ProfileIdText(u, "_id", "id") == if Given(OrString(dbId, id)) then OrString(dbId, id).value else ""
  {
  }

  /** The id the classifier treats as the other participant's is the target's user id. */
  lemma OtherUserIdIsTarget(p: RouteParams)
    ensures ProfileIdText(OtherUserOf(p), "_id", "id")
         == if Given(TargetOf(p).userId) then TargetOf(p).userId.value else ""
  {
    var o := OtherUserOf(p);
    match p.user
    case Some(u) =>
      assert Get(o, "_id") == FieldValue(u.dbId);
      assert Get(o, "id") == FieldValue(u.id);
      ProfileIdTextOfFields(o, u.dbId, u.id);
    case None =>
      var t := TargetOf(p);
      assert Get(o, "_id") == FieldValue(t.userId);
      assert Get(o, "id") == FieldValue(None);
      ProfileIdTextOfFields(o, t.userId, None);
  }

  /** `!x || x.trim() === ''` */
  predicate Blank(x: Option<string>)
  {
    x.None? || Trim(x.value) == ""
  }

  /** The id a chat record is used under: `chat?._id`, when truthy, in its `String` form. */
  function ActiveChatId(chat: Json): Option<string>
  {
    var id := Get(chat, "_id");
    if Truthy(id) then Some(ToStr(id)) else None
  }

  /** A `fetchMessages(chatId, page, append)` call in flight. */
  type PageNumber = n: nat | n >= 1 witness 1

  datatype FetchRequest = FetchRequest(chatId: string, page: PageNumber, append: bool)

  /** Requests `createOrGetChat` sends, with the JSON it sends. */
  datatype ChatRequest = CreateChat(participants: seq<Json>) | FindUserByEmail(email: string)

  /** `JSON.stringify` writes `undefined` array elements as `null`. */
  function Slot(v: Json): Json
  {
    if v.Undefined? then Null else v
  }

  /** The list of the history page a reply carries: `data.messages` if it is an array, else none. */
  function PageOf(reply: Reply): seq<Json>
    requires reply.Response?
  {
    ItemsOf(Get(reply.body, "messages"))
  }

  /** The history request succeeds: a token, an ok status and a body whose `messages` can be read. */
  predicate FetchSucceeds(token: Option<string>, reply: Reply)
  {
    Given(token) && Ok(reply) && !Nullish(reply.body)
  }

  /** The message list after a page: appended after what is shown, or replacing it. Nothing is deduplicated. */
  function MergePage(shown: seq<Json>, msgs: seq<Json>, append: bool): seq<Json>
  {
    if append then shown + msgs else msgs
  }

  /** How many entries `find` can read before one throws: those before the first nullish entry. */
  function ReadableCount(users: seq<Json>): (n: nat)
    ensures n <= |users|
    ensures forall i :: 0 <= i < n ==> !Nullish(users[i])
    ensures n < |users| ==> Nullish(users[n])
  {
    if users == [] || Nullish(users[0]) then 0
    else
      var n := 1 + ReadableCount(users[1..]);
      assert forall i :: 1 <= i < |users| ==> users[i] == users[1..][i - 1];
      n
  }

  /** `usersList.find(user => user.email === email)`: `None` also when a `null` entry before the match throws. */
  function FindByEmail(users: seq<Json>, email: string): Option<Json>
  {
    if users == [] || Nullish(users[0]) then None
    else if Get(users[0], "email") == Str(email) then Some(users[0])
    else FindByEmail(users[1..], email)
  }

  /** `users[i]` is the first entry with that email. */
  predicate FirstWithEmail(users: seq<Json>, email: string, i: nat)
  {
    i < |users| && Get(users[i], "email") == Str(email)
    && forall j :: 0 <= j < i ==> Get(users[j], "email") != Str(email)
  }

  /**
   * The lookup finds the first entry with that email when it comes before
   * every nullish entry, and nothing otherwise (the `!foundUser` branch and
   * the thrown error lead to the same message).
   */
  lemma {:induction false} FindByEmailIsFirstMatch(users: seq<Json>, email: string)
    ensures FindByEmail(users, email).None?
      <==> forall i :: 0 <= i < ReadableCount(users) ==> Get(users[i], "email") != Str(email)
    ensures FindByEmail(users, email).Some? ==>
      exists i: nat :: i < ReadableCount(users) && FirstWithEmail(users, email, i) && users[i] == FindByEmail(users, email).value
  {
    if users == [] || Nullish(users[0]) {
    } else if Get(users[0], "email") == Str(email) {
      assert FirstWithEmail(users, email, 0);
    } else {
      var rest := users[1..];
      FindByEmailIsFirstMatch(rest, email);
      assert ReadableCount(users) == 1 + ReadableCount(rest);
      assert forall i :: 1 <= i < |users| ==> users[i] == rest[i - 1];
      if FindByEmail(rest, email).Some? {
        var i: nat :| i < ReadableCount(rest) && FirstWithEmail(rest, email, i) && rest[i] == FindByEmail(rest, email).value;
        assert FirstWithEmail(users, email, i + 1);
      }
    }
  }

  /** What `createOrGetChat` does after its first state updates. */
  datatype ChatPlan = ChatPlan(
    requests: seq<ChatRequest>,
    chat: Option<Json>,
    error: Option<string>,
    fetchFor: Option<string>)

  /**
   * The outer handler's banner for the message of what was thrown: the
   * dedicated text when the message is exactly the not-found text, otherwise
   * the prefixed message.
   */
  function Banner(message: string): string
  {
    if message == UserNotFoundText then UserNotFoundShown else CreateChatPrefix + message
  }

  /** The fetch of the first page a created chat starts, or the error when reading `chatData._id` throws. */
  function AfterCreate(requests: seq<ChatRequest>, chatData: Json, failure: string): ChatPlan
  {
    if Nullish(chatData) then ChatPlan(requests, Some(chatData), Some(Banner(failure)), None)
    else ChatPlan(requests, Some(chatData), None, Some(ToStr(Get(chatData, "_id"))))
  }

  /** `API error (<status>)`, the message thrown for a rejected status. */
  function ApiError(status: int): string
  {
    "API error (" + IntToDecimal(status) + ")"
  }

  /** The `userId` path: one create request with the stored user's `_id` and the target. */
  function PlanByUserId(me: Json, userId: string, create: Reply): ChatPlan
  {
    var requests := [CreateChat([Slot(me), Str(userId)])];
    match create
    case Network(m) => ChatPlan(requests, None, Some(Banner(m)), None)
    case Response(status, _, body) =>
      if !Ok(create) then ChatPlan(requests, None, Some(Banner(ApiError(status))), None)
      else AfterCreate(requests, body, TypeErrorMessage)
  }

  /** The `email` path: a lookup, then a create request; every failure is reported with one message. */
  function PlanByEmail(me: Json, email: string, lookup: Reply, create: Reply): ChatPlan
  {
    var failed := Some(Banner(EmailLookupFailed));
    var lookupRequest := [FindUserByEmail(email)];
    if !Ok(lookup) then ChatPlan(lookupRequest, None, failed, None)
    else
      var users := lookup.body;
      var found :=
        if users.Arr? then FindByEmail(users.items, email)
        else if Truthy(users) && Get(users, "email") == Str(email) then Some(users)
        else None;
      if found.None? then ChatPlan(lookupRequest, None, failed, None)
      else
        var requests := lookupRequest + [CreateChat([Slot(me), Slot(Get(found.value, "_id"))])];
        if !Ok(create) then ChatPlan(requests, None, failed, None)
        else AfterCreate(requests, create.body, EmailLookupFailed)
  }

  /**
   * `createOrGetChat`, from the token check to the last request; `stored`
   * is the stored user, `lookup` and `create` the replies to the email lookup
   * and to the create request.
   */
  function PlanChat(target: ChatTarget, token: Option<string>, stored: Stored, lookup: Reply, create: Reply): ChatPlan
  {
    if !Given(token) then ChatPlan([], None, Some(Banner(NeedLoginText)), None)
    else if stored.Unparseable? then ChatPlan([], None, Some(Banner(stored.message)), None)
    else
      var me := Get(ParsedOr(stored, Null), "_id");
      if Blank(target.userId) && Blank(target.email) then ChatPlan([], None, Some(UnknownTargetError), None)
      else if !Blank(target.userId) then PlanByUserId(me, target.userId.value, create)
      else PlanByEmail(me, target.email.value, lookup, create)
  }

  /** With neither a usable user id nor a usable email, no request is sent and no history is loaded. */
  lemma BlankTargetSendsNothing(target: ChatTarget, token: Option<string>, stored: Stored, lookup: Reply, create: Reply)
    requires Blank(target.userId) && Blank(target.email)
    ensures PlanChat(target, token, stored, lookup, create).requests == []
    ensures PlanChat(target, token, stored, lookup, create).fetchFor.None?
    ensures Given(token) && !stored.Unparseable? ==>
      PlanChat(target, token, stored, lookup, create).error == Some(UnknownTargetError)
  {
  }

  /** Without a token nothing is sent. */
  lemma NoTokenSendsNothing(target: ChatTarget, token: Option<string>, stored: Stored, lookup: Reply, create: Reply)
    requires !Given(token)
    ensures PlanChat(target, token, stored, lookup, create) == ChatPlan([], None, Some(CreateChatPrefix + NeedLoginText), None)
  {
    assert NeedLoginText[0] != UserNotFoundText[0];
  }

  /** A usable user id is preferred: one request, naming the stored user first and the target second. */
  lemma UserIdPathRequest(target: ChatTarget, token: Option<string>, stored: Stored, lookup: Reply, create: Reply)
    requires Given(token) && !stored.Unparseable? && !Blank(target.userId)
    ensures PlanChat(target, token, stored, lookup, create).requests
         == [CreateChat([Slot(Get(ParsedOr(stored, Null), "_id")), Str(target.userId.value)])]
  {
  }

  /** Every outcome of the email path: its first request is the lookup, and any failure carries the lookup message. */
  lemma EmailPathOutcome(target: ChatTarget, token: Option<string>, stored: Stored, lookup: Reply, create: Reply)
    requires Given(token) && !stored.Unparseable? && Blank(target.userId) && !Blank(target.email)
    ensures var plan := PlanChat(target, token, stored, lookup, create);
      1 <= |plan.requests| <= 2 && plan.requests[0] == FindUserByEmail(target.email.value)
      && (plan.error.Some? ==> plan.error == Some(CreateChatPrefix + EmailLookupFailed))
      && (plan.error.None? <==> plan.fetchFor.Some?)
  {
    var me := Get(ParsedOr(stored, Null), "_id");
    assert PlanChat(target, token, stored, lookup, create) == PlanByEmail(me, target.email.value, lookup, create);
  }

  /**
   * A plan either reports an error or starts loading the history; every error
   * is the unknown-target text, the not-found banner or carries the outer prefix.
   */
  predicate Reported(plan: ChatPlan)
  {
    (plan.error.None? <==> plan.fetchFor.Some?)
    && (plan.error.Some? ==>
          plan.error.value == UnknownTargetError || plan.error.value == UserNotFoundShown
          || CreateChatPrefix <= plan.error.value)
  }

  /** The banner is the dedicated text or the prefixed message, and the dedicated text only for the not-found message. */
  lemma BannerShape(message: string)
    ensures Banner(message) == UserNotFoundShown || CreateChatPrefix <= Banner(message)
    ensures Banner(message) == UserNotFoundShown <==> message == UserNotFoundText
  {
    if message != UserNotFoundText {
      var b := CreateChatPrefix + message;
      assert b[7] == Cannot[7] && UserNotFoundShown[7] == 'ì';
    }
  }

  lemma AfterCreateReported(requests: seq<ChatRequest>, chatData: Json, failure: string)
    ensures Reported(AfterCreate(requests, chatData, failure))
  {
    BannerShape(failure);
  }

  lemma ByUserIdReported(me: Json, userId: string, create: Reply)
    ensures Reported(PlanByUserId(me, userId, create))
  {
    match create
    case Network(m) =>
      BannerShape(m);
    case Response(status, _, body) =>
      if Ok(create) {
        AfterCreateReported([CreateChat([Slot(me), Str(userId)])], body, TypeErrorMessage);
      } else {
        BannerShape(ApiError(status));
      }
  }

  lemma ByEmailReported(me: Json, email: string, lookup: Reply, create: Reply)
    ensures Reported(PlanByEmail(me, email, lookup, create))
  {
    BannerShape(EmailLookupFailed);
    if Ok(lookup) && Ok(create) {
      var plan := PlanByEmail(me, email, lookup, create);
      AfterCreateReported(plan.requests, create.body, EmailLookupFailed);
    }
  }

  /** A plan either reports an error or starts loading the created chat's history, never both. */
  lemma PlanErrorOrFetch(target: ChatTarget, token: Option<string>, stored: Stored, lookup: Reply, create: Reply)
    ensures Reported(PlanChat(target, token, stored, lookup, create))
  {
    var me := Get(ParsedOr(stored, Null), "_id");
    if !Given(token) {
      BannerShape(NeedLoginText);
    } else if stored.Unparseable? {
      BannerShape(stored.message);
    } else if Blank(target.userId) && Blank(target.email) {
    } else if !Blank(target.userId) {
      ByUserIdReported(me, target.userId.value, create);
    } else {
      ByEmailReported(me, target.email.value, lookup, create);
    }
  }

  /** None of the messages the screen itself throws is the not-found text, except the one the email path rewraps. */
  lemma OwnMessagesAreNotNotFound(status: int)
    ensures NeedLoginText != UserNotFoundText && TypeErrorMessage != UserNotFoundText
    ensures EmailLookupFailed != UserNotFoundText && ApiError(status) != UserNotFoundText
  {
    assert NeedLoginText[0] == 'B' && TypeErrorMessage[0] == 'T' && ApiError(status)[0] == 'A';
    assert EmailLookupFailed[7] == 'h' && UserNotFoundText[7] == 'ì';
  }

  /** The user-id path shows the not-found banner only for a network failure with exactly that text. */
  lemma ByUserIdNoBanner(me: Json, userId: string, create: Reply)
    requires create.Network? ==> create.message != UserNotFoundText
    ensures PlanByUserId(me, userId, create).error != Some(UserNotFoundShown)
  {
    match create
    case Network(m) =>
      BannerShape(m);
    case Response(status, _, _) =>
      OwnMessagesAreNotNotFound(status);
      BannerShape(ApiError(status));
      BannerShape(TypeErrorMessage);
  }

  /** The email path never shows the not-found banner: each of its failures carries the rewrapped text. */
  lemma ByEmailNoBanner(me: Json, email: string, lookup: Reply, create: Reply)
    ensures PlanByEmail(me, email, lookup, create).error != Some(UserNotFoundShown)
  {
    OwnMessagesAreNotNotFound(0);
    BannerShape(EmailLookupFailed);
  }

  /**
   * The dedicated "no user with this email" banner is never shown while the
   * network failure and the parse failure carry other texts: the email path,
   * the only one that throws the not-found text, rewraps it before the outer
   * handler compares it.
   */
  lemma NotFoundBannerUnreachable(target: ChatTarget, token: Option<string>, stored: Stored, lookup: Reply, create: Reply)
    requires create.Network? ==> create.message != UserNotFoundText
    requires stored.Unparseable? ==> stored.message != UserNotFoundText
    ensures PlanChat(target, token, stored, lookup, create).error != Some(UserNotFoundShown)
  {
    var me := Get(ParsedOr(stored, Null), "_id");
    if !Given(token) {
      OwnMessagesAreNotNotFound(0);
      BannerShape(NeedLoginText);
    } else if stored.Unparseable? {
      BannerShape(stored.message);
    } else if Blank(target.userId) && Blank(target.email) {
      assert UnknownTargetError[7] == 'h' && UserNotFoundShown[7] == 'ì';
    } else if !Blank(target.userId) {
      ByUserIdNoBanner(me, target.userId.value, create);
    } else {
      ByEmailNoBanner(me, target.email.value, lookup, create);
    }
  }

  /** The comparison is made on every path: a create request failing with exactly the not-found text does show the banner. */
  lemma NotFoundBannerOnMatchingMessage(target: ChatTarget, token: Option<string>, stored: Stored, lookup: Reply)
    requires Given(token) && !stored.Unparseable? && !Blank(target.userId)
    ensures PlanChat(target, token, stored, lookup, Network(UserNotFoundText)).error == Some(UserNotFoundShown)
  {
  }

  /** A pending `setTimeout` of `handleTyping`, with the chat its callback stops typing in. */
  datatype Timer = Timer(handle: nat, chatId: string)

  class ChatSession {
    const socket: SocketService
    const params: RouteParams
    var messages: seq<Json>
    var newMessage: string
    var loading: bool
    var chat: Json
    var error: Option<string>
    var isTyping: bool
    /** The `typingTimeout` state: the handle of the last timer set, which is not reset when cleared. */
    var typingTimeout: Option<nat>
    /** Timers set and neither fired nor cleared. */
    var pendingTimers: set<Timer>
    var nextTimer: nat
    var page: PageNumber
    var hasMoreMessages: bool
    var loadingMore: bool
    var currentUserId: Option<string>
    var currentUser: Json
    var otherUser: Json

    /** At most one stop-typing timer is pending, and it is the one the state remembers. */
    ghost predicate Valid()
      reads this, socket
    {
      socket.Valid()
      && (forall t :: t in pendingTimers ==> typingTimeout == Some(t.handle) && t.handle < nextTimer)
      && (forall t, u :: t in pendingTimers && u in pendingTimers ==> t == u)
    }

    constructor (socket: SocketService, params: RouteParams)
      requires socket.Valid()
      ensures Valid()
      ensures this.socket == socket && this.params == params
      ensures messages == [] && newMessage == "" && loading && chat == Null && error == None
      ensures !isTyping && typingTimeout == None && pendingTimers == {}
      ensures page == 1 && hasMoreMessages && !loadingMore
      ensures currentUserId == None && currentUser == Null && otherUser == Null
    {
      this.socket := socket;
      this.params := params;
      messages, newMessage, loading, chat, error := [], "", true, Null, None;
      isTyping, typingTimeout, pendingTimers, nextTimer := false, None, {}, 0;
      page, hasMoreMessages, loadingMore := 1, true, false;
      currentUserId, currentUser, otherUser := None, Null, Null;
    }

    /** `fetchCurrentUserInfo`: the parsed stored user becomes `currentUser`, and its `_id || id` the current id. */
    method LoadCurrentUserInfo(stored: Stored)
      modifies this`currentUser, this`currentUserId
      ensures currentUser == ParsedOr(stored, old(currentUser))
      ensures var id := Or(Get(ParsedOr(stored, Null), "_id"), Get(ParsedOr(stored, Null), "id"));
        currentUserId == if Truthy(id) then Some(ToStr(id)) else old(currentUserId)
    {
      if stored.Parsed? {
        currentUser := stored.value;
        var id := Or(Get(stored.value, "_id"), Get(stored.value, "id"));
        if Truthy(id) {
          currentUserId := Some(ToStr(id));
        }
      }
    }

    /** `fetchCurrentUserId`: the resolved id, which also becomes the current id state when there is one. */
    method RefreshCurrentUserId(stored: Stored, token: Option<string>, claims: Json) returns (found: Option<Json>)
      modifies this`currentUserId
      ensures found == ResolveCurrentUserId(ParsedOr(stored, Undefined), token, claims)
      ensures currentUserId == if found.Some? then Some(ToStr(found.value)) else old(currentUserId)
    {
      found := ResolveCurrentUserId(ParsedOr(stored, Undefined), token, claims);
      if found.Some? {
        currentUserId := Some(ToStr(found.value));
      }
    }

    /** `setupOtherUserInfo` */
    method SetupOtherUserInfo()
      modifies this`otherUser
      ensures otherUser == OtherUserOf(params)
    {
      otherUser := OtherUserOf(params);
    }

    /** The first state updates of `fetchMessages(chatId, page, append)`. */
    method BeginFetch(chatId: string, pageNum: PageNumber, append: bool) returns (req: FetchRequest)
      modifies this`error, this`loading, this`loadingMore
      ensures req == FetchRequest(chatId, pageNum, append)
      ensures error == if pageNum == 1 then None else old(error)
      ensures append ==> loadingMore && loading == old(loading)
      ensures !append ==> loading && loadingMore == old(loadingMore)
    {
      if pageNum == 1 {
        error := None;
      }
      if append {
        loadingMore := true;
      } else {
        loading := true;
      }
      req := FetchRequest(chatId, pageNum, append);
    }

    /**
     * The rest of `fetchMessages`, once the token has been read and the reply
     * received. A short page turns `hasMoreMessages` off for good.
     */
    method CompleteFetch(req: FetchRequest, token: Option<string>, reply: Reply)
      modifies this`messages, this`hasMoreMessages, this`page, this`error, this`loading, this`loadingMore
      ensures !loading && !loadingMore
      ensures hasMoreMessages ==> old(hasMoreMessages)
      ensures FetchSucceeds(token, reply) ==>
        messages == MergePage(old(messages), PageOf(reply), req.append)
        && page == req.page
        && hasMoreMessages == (old(hasMoreMessages) && |PageOf(reply)| >= PageSize)
        && error == old(error)
      ensures !FetchSucceeds(token, reply) ==>
        messages == old(messages) && page == old(page) && hasMoreMessages == old(hasMoreMessages)
        && error == Some(LoadMessagesError)
    {
      if FetchSucceeds(token, reply) {
        var msgs := PageOf(reply);
        if |msgs| < PageSize {
          hasMoreMessages := false;
        }
        if req.append {
          messages := messages + msgs;
        } else {
          messages := msgs;
        }
        page := req.page;
      } else {
        error := Some(LoadMessagesError);
      }
      loading := false;
      loadingMore := false;
    }

    /** `loadMoreMessages`: the next page in append mode, only when more exist, none is loading and a chat is open. */
    method LoadMore() returns (req: Option<FetchRequest>)
      modifies this`error, this`loading, this`loadingMore
      ensures !old(hasMoreMessages) || old(loadingMore) || ActiveChatId(chat).None? ==>
        req.None? && error == old(error) && loading == old(loading) && loadingMore == old(loadingMore)
      ensures old(hasMoreMessages) && !old(loadingMore) && ActiveChatId(chat).Some? ==>
        req == Some(FetchRequest(ActiveChatId(chat).value, old(page) + 1, true))
        && loadingMore && loading == old(loading) && error == old(error)
    {
      var id := ActiveChatId(chat);
      if !hasMoreMessages || loadingMore || id.None? {
        return None;
      }
      var r := BeginFetch(id.value, page + 1, true);
      req := Some(r);
    }

    /** The chat passed in the route: shown at once, and its first page requested. */
    method OpenRouteChat() returns (req: Option<FetchRequest>)
      modifies this`chat, this`error, this`loading, this`loadingMore
      ensures !Given(params.chatId) ==> req.None? && chat == old(chat) && error == old(error) && loading == old(loading)
      ensures Given(params.chatId) ==>
        chat == Obj(map["_id" := Str(params.chatId.value)])
        && req == Some(FetchRequest(params.chatId.value, 1, false))
        && error.None? && loading
      ensures loadingMore == old(loadingMore)
    {
      if !Given(params.chatId) {
        return None;
      }
      chat := Obj(map["_id" := Str(params.chatId.value)]);
      var r := BeginFetch(params.chatId.value, 1, false);
      req := Some(r);
    }

    /**
     * `createOrGetChat`. When a chat is created its first page is requested
     * before the final `setLoading(false)`, so the screen ends not loading
     * while that request is in flight.
     */
    method CreateOrGetChat(token: Option<string>, stored: Stored, lookup: Reply, create: Reply)
      returns (requests: seq<ChatRequest>, req: Option<FetchRequest>)
      modifies this`chat, this`error, this`loading, this`loadingMore
      ensures var plan := PlanChat(TargetOf(params), token, stored, lookup, create);
        requests == plan.requests
        && chat == (if plan.chat.Some? then plan.chat.value else old(chat))
        && error == plan.error
        && req == (if plan.fetchFor.Some? then Some(FetchRequest(plan.fetchFor.value, 1, false)) else None)
      ensures !loading && loadingMore == old(loadingMore)
    {
      loading := true;
      error := None;
      var plan := PlanChat(TargetOf(params), token, stored, lookup, create);
      PlanErrorOrFetch(TargetOf(params), token, stored, lookup, create);
      requests := plan.requests;
      if plan.chat.Some? {
        chat := plan.chat.value;
      }
      if plan.fetchFor.Some? {
        var r := BeginFetch(plan.fetchFor.value, 1, false);
        req := Some(r);
      } else {
        error := plan.error;
        req := None;
      }
      loading := false;
    }

    /** The `onMessage` listener: the current id is refreshed, then the message goes to the head of the list. */
    method OnMessage(m: Json, stored: Stored, token: Option<string>, claims: Json)
      modifies this`messages, this`currentUserId
      ensures messages == [m] + old(messages)
      ensures var found := ResolveCurrentUserId(ParsedOr(stored, Undefined), token, claims);
        currentUserId == if found.Some? then Some(ToStr(found.value)) else old(currentUserId)
    {
      var _ := RefreshCurrentUserId(stored, token, claims);
      messages := [m] + messages;
    }

    /**
     * The typing listeners (`typing` is true for `onTyping`, false for
     * `onStopTyping`) compare `data.user` strictly with the current id
     * captured when they were registered.
     */
    method OnTyping(data: Json, captured: Option<string>, typing: bool)
      modifies this`isTyping
      ensures isTyping == if StrictlyEqualsId(Get(data, "user"), captured) then old(isTyping) else typing
    {
      if !StrictlyEqualsId(Get(data, "user"), captured) {
        isTyping := typing;
      }
    }

    /** The `onError` listener. */
    method OnSocketError()
      modifies this`error
      ensures error == Some(SocketErrorText)
    {
      error := Some(SocketErrorText);
    }

    /** One fresh handler subscribed for one kind of event. */
    method SubscribeOne(kind: EventKind) returns (h: HandlerId)
      requires socket.Valid()
      modifies socket`messageHandlers, socket`typingHandlers, socket`stopTypingHandlers,
        socket`errorHandlers, socket`connectHandlers, socket`disconnectHandlers, socket`nextHandler
      ensures socket.Valid()
      ensures h == old(socket.nextHandler) && socket.nextHandler == h + 1
      ensures socket.HandlersOf(kind) == old(socket.HandlersOf(kind)) + [h]
      ensures forall k :: k != kind ==> socket.HandlersOf(k) == old(socket.HandlersOf(k))
    {
      h := socket.NewHandler();
      var _ := socket.Subscribe(kind, h);
    }

    /** Four fresh handlers subscribed for messages, typing, stop-typing and errors. */
    method SubscribeFour() returns (ids: seq<HandlerId>)
      requires Valid()
      modifies socket`messageHandlers, socket`typingHandlers, socket`stopTypingHandlers,
        socket`errorHandlers, socket`connectHandlers, socket`disconnectHandlers, socket`nextHandler
      ensures Valid()
      ensures |ids| == 4
      ensures forall i :: 0 <= i < 4 ==> ids[i] == old(socket.nextHandler) + i
      ensures socket.nextHandler == old(socket.nextHandler) + 4
      ensures socket.HandlersOf(MessageEvent) == old(socket.HandlersOf(MessageEvent)) + [ids[0]]
      ensures socket.HandlersOf(TypingEvent) == old(socket.HandlersOf(TypingEvent)) + [ids[1]]
      ensures socket.HandlersOf(StopTypingEvent) == old(socket.HandlersOf(StopTypingEvent)) + [ids[2]]
      ensures socket.HandlersOf(ErrorEvent) == old(socket.HandlersOf(ErrorEvent)) + [ids[3]]
      ensures socket.HandlersOf(ConnectEvent) == old(socket.HandlersOf(ConnectEvent))
      ensures socket.HandlersOf(DisconnectEvent) == old(socket.HandlersOf(DisconnectEvent))
      ensures socket.transport == old(socket.transport) && socket.emitted == old(socket.emitted)
    {
      var m := SubscribeOne(MessageEvent);
      var t := SubscribeOne(TypingEvent);
      var s := SubscribeOne(StopTypingEvent);
      var e := SubscribeOne(ErrorEvent);
      ids := [m, t, s, e];
    }

    /** `setupSocketListeners`: the four listeners above, appended to the manager's lists. */
    method SetupSocketListeners() returns (ids: seq<HandlerId>)
      requires Valid()
      modifies socket
      ensures Valid()
      ensures |ids| == 4
      ensures socket.HandlersOf(MessageEvent) == old(socket.HandlersOf(MessageEvent)) + [ids[0]]
      ensures socket.HandlersOf(TypingEvent) == old(socket.HandlersOf(TypingEvent)) + [ids[1]]
      ensures socket.HandlersOf(StopTypingEvent) == old(socket.HandlersOf(StopTypingEvent)) + [ids[2]]
      ensures socket.HandlersOf(ErrorEvent) == old(socket.HandlersOf(ErrorEvent)) + [ids[3]]
      ensures socket.HandlersOf(ConnectEvent) == old(socket.HandlersOf(ConnectEvent))
      ensures socket.HandlersOf(DisconnectEvent) == old(socket.HandlersOf(DisconnectEvent))
      ensures socket.transport == old(socket.transport) && socket.emitted == old(socket.emitted)
    {
      ids := SubscribeFour();
    }

    /**
     * `removeSocketListeners` subscribes four empty handlers and disposes of
     * nothing: every list grows by one, and every listener registered before,
     * the screen's own included, stays subscribed.
     */
    method RemoveSocketListeners() returns (ids: seq<HandlerId>)
      requires Valid()
      modifies socket
      ensures Valid()
      ensures |ids| == 4
      ensures forall k :: ScreenListenerKind(k) ==>
        |socket.HandlersOf(k)| == |old(socket.HandlersOf(k))| + 1
        && socket.HandlersOf(k)[..|old(socket.HandlersOf(k))|] == old(socket.HandlersOf(k))
      ensures forall i :: 0 <= i < 4 ==> ids[i] == old(socket.nextHandler) + i
      ensures forall i, k :: 0 <= i < 4 ==> ids[i] !in old(socket.HandlersOf(k))
      ensures socket.HandlersOf(MessageEvent) == old(socket.HandlersOf(MessageEvent)) + [ids[0]]
      ensures socket.HandlersOf(TypingEvent) == old(socket.HandlersOf(TypingEvent)) + [ids[1]]
      ensures socket.HandlersOf(StopTypingEvent) == old(socket.HandlersOf(StopTypingEvent)) + [ids[2]]
      ensures socket.HandlersOf(ErrorEvent) == old(socket.HandlersOf(ErrorEvent)) + [ids[3]]
      ensures socket.HandlersOf(ConnectEvent) == old(socket.HandlersOf(ConnectEvent))
      ensures socket.HandlersOf(DisconnectEvent) == old(socket.HandlersOf(DisconnectEvent))
      ensures socket.transport == old(socket.transport) && socket.emitted == old(socket.emitted)
    {
      ids := SubscribeFour();
    }

    /** Cancels the pending timers with this handle, as `clearTimeout(handle)` does. */
    method ClearTimer(handle: Option<nat>)
      requires Valid()
      modifies this`pendingTimers
      ensures Valid()
      ensures pendingTimers == if handle.Some? then set t | t in old(pendingTimers) && t.handle != handle.value
        else old(pendingTimers)
    {
      if handle.Some? {
        pendingTimers := set t | t in pendingTimers && t.handle != handle.value;
      }
    }

    /** `handleTyping`: one typing emit, and exactly one pending timer, for this chat. */
    method HandleTyping()
      requires Valid()
      modifies this`pendingTimers, this`typingTimeout, this`nextTimer, socket`emitted
      ensures Valid()
      ensures ActiveChatId(chat).None? ==>
        pendingTimers == old(pendingTimers) && typingTimeout == old(typingTimeout) && socket.emitted == old(socket.emitted)
      ensures ActiveChatId(chat).Some? ==>
        pendingTimers == {Timer(old(nextTimer), ActiveChatId(chat).value)}
        && typingTimeout == Some(old(nextTimer))
        && socket.emitted == old(socket.emitted)
          + if socket.transport.Open? then [Typing(ActiveChatId(chat).value)] else []
    {
      var id := ActiveChatId(chat);
      if id.None? {
        return;
      }
      socket.SendTyping(id.value);
      ClearTimer(typingTimeout);
      var t := Timer(nextTimer, id.value);
      nextTimer := nextTimer + 1;
      pendingTimers := pendingTimers + {t};
      typingTimeout := Some(t.handle);
    }

    /** A pending timer fires: it stops typing in its chat, and afterwards no timer is pending. */
    method FireTypingTimer(handle: nat)
      requires Valid()
      modifies this`pendingTimers, socket`emitted
      ensures Valid()
      ensures (forall t :: t in old(pendingTimers) ==> t.handle != handle) ==>
        pendingTimers == old(pendingTimers) && socket.emitted == old(socket.emitted)
      ensures forall t :: t in old(pendingTimers) && t.handle == handle ==>
        pendingTimers == {}
        && socket.emitted == old(socket.emitted) + if socket.transport.Open? then [StopTyping(t.chatId)] else []
    {
      if t :| t in pendingTimers && t.handle == handle {
        pendingTimers := pendingTimers - {t};
        assert pendingTimers == {} by {
          forall u | u in old(pendingTimers) ensures u == t { }
        }
        socket.SendStopTyping(t.chatId);
      }
    }

    /** Typing into the input stores the text and runs `handleTyping`. */
    method EditInput(text: string)
      requires Valid()
      modifies this`newMessage, this`pendingTimers, this`typingTimeout, this`nextTimer, socket`emitted
      ensures Valid()
      ensures newMessage == text
      ensures ActiveChatId(chat).None? ==>
        pendingTimers == old(pendingTimers) && typingTimeout == old(typingTimeout) && socket.emitted == old(socket.emitted)
      ensures ActiveChatId(chat).Some? ==>
        pendingTimers == {Timer(old(nextTimer), ActiveChatId(chat).value)}
        && typingTimeout == Some(old(nextTimer))
        && socket.emitted == old(socket.emitted)
          + if socket.transport.Open? then [Typing(ActiveChatId(chat).value)] else []
    {
      newMessage := text;
      HandleTyping();
    }

    /** `sendMessage`: stop-typing, then the trimmed text, then an empty input and no pending timer. */
    method SendMessage()
      requires Valid()
      modifies this`newMessage, this`pendingTimers, socket`emitted
      ensures Valid()
      ensures Trim(old(newMessage)) == "" || ActiveChatId(chat).None? ==>
        newMessage == old(newMessage) && pendingTimers == old(pendingTimers) && socket.emitted == old(socket.emitted)
      ensures Trim(old(newMessage)) != "" && ActiveChatId(chat).Some? ==>
        newMessage == "" && pendingTimers == {}
        && socket.emitted == old(socket.emitted) + if socket.transport.Open? then
          [StopTyping(ActiveChatId(chat).value), Emit.SendMessage(ActiveChatId(chat).value, Trim(old(newMessage)))]
          else []
    {
      var id := ActiveChatId(chat);
      if Trim(newMessage) == "" || id.None? {
        return;
      }
      var text := Trim(newMessage);
      ghost var before := socket.emitted;
      socket.SendStopTyping(id.value);
      socket.Send(id.value, text);
      assert socket.emitted == before + if socket.transport.Open? then [StopTyping(id.value), Emit.SendMessage(id.value, text)] else [];
      newMessage := "";
      ClearTimer(typingTimeout);
      if typingTimeout.Some? {
        assert forall t :: t in old(pendingTimers) ==> t.handle == typingTimeout.value;
      }
    }

    /** The join effect: connect first when not connected, then join the room of the chat. */
    method JoinOpenChat(token: Option<string>) returns (calls: seq<Delivery>)
      requires Valid()
      modifies socket`transport, socket`emitted
      ensures Valid()
      ensures ActiveChatId(chat).None? ==>
        socket.transport == old(socket.transport) && socket.emitted == old(socket.emitted) && calls == []
      ensures ActiveChatId(chat).Some? ==>
        socket.emitted == old(socket.emitted)
          + if old(socket.transport).Open? || Given(token) then [JoinChat(ActiveChatId(chat).value)] else []
      ensures ActiveChatId(chat).Some? && old(socket.IsConnected()) ==>
        socket.transport == old(socket.transport) && calls == []
      ensures ActiveChatId(chat).Some? && !old(socket.IsConnected()) && Given(token) ==>
        socket.transport == Open(token.value, false) && calls == []
      ensures ActiveChatId(chat).Some? && !old(socket.IsConnected()) && !Given(token) ==>
        socket.transport == old(socket.transport)
        && calls == Deliveries(socket.errorHandlers, ErrorPayload(NoTokenError))
    {
      calls := [];
      var id := ActiveChatId(chat);
      if id.None? {
        return;
      }
      if !socket.IsConnected() {
        calls := socket.Connect(token);
      }
      socket.JoinRoom(id.value);
    }

    /**
     * The cleanup of the initialising effect, with the `chat` and
     * `typingTimeout` it captured: leave that chat's room, clear that timer,
     * and run `removeSocketListeners`.
     */
    method Teardown(capturedChat: Json, capturedTimeout: Option<nat>) returns (ids: seq<HandlerId>)
      requires Valid()
      modifies this`pendingTimers, socket
      ensures Valid()
      ensures |ids| == 4
      ensures socket.emitted == old(socket.emitted)
        + if ActiveChatId(capturedChat).Some? && socket.transport.Open? then [LeaveChat(ActiveChatId(capturedChat).value)] else []
      ensures forall k :: ScreenListenerKind(k) ==>
        |old(socket.HandlersOf(k))| <= |socket.HandlersOf(k)|
        && socket.HandlersOf(k)[..|old(socket.HandlersOf(k))|] == old(socket.HandlersOf(k))
      ensures forall k :: ScreenListenerKind(k) ==> |socket.HandlersOf(k)| == |old(socket.HandlersOf(k))| + 1
      ensures forall i :: 0 <= i < 4 ==> ids[i] == old(socket.nextHandler) + i
      ensures socket.HandlersOf(MessageEvent) == old(socket.HandlersOf(MessageEvent)) + [ids[0]]
      ensures socket.HandlersOf(TypingEvent) == old(socket.HandlersOf(TypingEvent)) + [ids[1]]
      ensures socket.HandlersOf(StopTypingEvent) == old(socket.HandlersOf(StopTypingEvent)) + [ids[2]]
      ensures socket.HandlersOf(ErrorEvent) == old(socket.HandlersOf(ErrorEvent)) + [ids[3]]
      ensures socket.HandlersOf(ConnectEvent) == old(socket.HandlersOf(ConnectEvent))
      ensures socket.HandlersOf(DisconnectEvent) == old(socket.HandlersOf(DisconnectEvent))
      ensures socket.transport == old(socket.transport)
      ensures pendingTimers == if capturedTimeout.Some? then set t | t in old(pendingTimers) && t.handle != capturedTimeout.value
        else old(pendingTimers)
    {
      var id := ActiveChatId(capturedChat);
      if id.Some? {
        socket.LeaveRoom(id.value);
      }
      ClearTimer(capturedTimeout);
      ids := RemoveSocketListeners();
    }
  }

  /** The four kinds of event the chat screen listens to. */
  predicate ScreenListenerKind(k: EventKind)
  {
    k.MessageEvent? || k.TypingEvent? || k.StopTypingEvent? || k.ErrorEvent?
  }

  /** `data.user !== currentUserId` is false exactly for these: the same string, or `null` against `null`. */
  predicate StrictlyEqualsId(v: Json, id: Option<string>)
  {
    match id
    case None => v == Null
    case Some(s) => v == Str(s)
  }
}
