/**
 * The chat list screen: the list of conversations, the room joins it asks
 * for, and the single message listener it keeps on the connection manager.
 */
module ChatList {

  import opened Common
  import opened Js
  import opened Http
  import opened Socket

  const LoadChatsError := "Không thể tải danh sách trò chuyện"

  /**
   * The chats of a reply body: the body itself when it is an array, else its
   * `chats`, else its `data` when that is an array, else none. Reading a
   * property of a `null` body throws, which is `None`.
   */
  function NormaliseChats(payload: Json): Option<seq<Json>>
  {
    if payload.Arr? then Some(payload.items)
    else if Nullish(payload) then None
    else if Get(payload, "chats").Arr? then Some(Get(payload, "chats").items)
    else if Get(payload, "data").Arr? then Some(Get(payload, "data").items)
    else Some([])
  }

  /** The same chats arrive alike whether bare, wrapped in `chats` or wrapped in `data`. */
  lemma WrappersAgree(chats: seq<Json>)
    ensures NormaliseChats(Arr(chats)) == Some(chats)
    ensures NormaliseChats(Obj(map["chats" := Arr(chats)])) == Some(chats)
    ensures NormaliseChats(Obj(map["data" := Arr(chats)])) == Some(chats)
  {
    assert Get(Obj(map["data" := Arr(chats)]), "chats") == Undefined;
  }

  /** `chats` wins over `data` when both are arrays. */
  lemma ChatsBeforeData(a: seq<Json>, b: seq<Json>)
    ensures NormaliseChats(Obj(map["chats" := Arr(a), "data" := Arr(b)])) == Some(a)
  {
  }

  /** Normalising an already normalised list changes nothing. */
  lemma NormaliseIdempotent(payload: Json)
    requires NormaliseChats(payload).Some?
    ensures NormaliseChats(Arr(NormaliseChats(payload).value)) == NormaliseChats(payload)
  {
  }

  /** Only a `null`/`undefined` body fails; any other shape gives a list, possibly empty. */
  lemma NormaliseFailsOnlyOnNullish(payload: Json)
    ensures NormaliseChats(payload).None? <==> Nullish(payload)
  {
  }

  /** The outcome of `participants.find(p => p._id !== currentUserId)`. */
  datatype Search = Hit(p: Json) | Miss | Crash

  function FindOther(ps: seq<Json>, me: Json): (r: Search)
    ensures r.Hit? ==> r.p in ps && Get(r.p, "_id") != me
    ensures r.Miss? <==> forall i :: 0 <= i < |ps| ==> !Nullish(ps[i]) && Get(ps[i], "_id") == me
  {
    if ps == [] then Miss
    else if Nullish(ps[0]) then Crash
    else if Get(ps[0], "_id") != me then Hit(ps[0])
    else
      var r := FindOther(ps[1..], me);
      assert r.Miss? ==> forall i :: 1 <= i < |ps| ==> ps[i] == ps[1..][i - 1];
      r
  }

  function FirstOr(ps: seq<Json>): Json
  {
    if ps == [] then Undefined else ps[0]
  }

  /** `find(...) || participants[0]`, or `None` when the search throws. */
  function OtherParticipant(ps: seq<Json>, me: Json): Option<Json>
  {
    match FindOther(ps, me)
    case Hit(p) => Some(Or(p, FirstOr(ps)))
    case Miss => Some(FirstOr(ps))
    case Crash => None
  }

  /** `getOtherParticipantName`: `other?.name || ''`. */
  function OtherName(ps: seq<Json>, me: Json): Option<Json>
  {
    match OtherParticipant(ps, me)
    case Some(o) => Some(Or(Get(o, "name"), Str("")))
    case None => None
  }

  /** The first participant whose `_id` differs from the current id is chosen, and the first one when there is none. */
  lemma OtherParticipantChoice(ps: seq<Json>, me: Json, i: nat)
    requires i < |ps| && Truthy(ps[i]) && Get(ps[i], "_id") != me
    requires forall j :: 0 <= j < i ==> !Nullish(ps[j]) && Get(ps[j], "_id") == me
    ensures OtherParticipant(ps, me) == Some(ps[i])
  {
    if i > 0 {
      OtherParticipantChoice(ps[1..], me, i - 1);
      assert FindOther(ps, me) == FindOther(ps[1..], me);
    }
  }

  /** When every participant is the current user, the first one is shown. */
  lemma AllMeShowsFirst(ps: seq<Json>, me: Json)
    requires |ps| > 0
    requires forall j :: 0 <= j < |ps| ==> !Nullish(ps[j]) && Get(ps[j], "_id") == me
    ensures OtherParticipant(ps, me) == Some(ps[0])
  {
  }

  /** The parameters `handleChatPress` navigates to the chat screen with. */
  datatype ChatNav = ChatNav(recipient: Json, email: Json, userId: Json, chatId: Json)

  /** `handleChatPress`: `None` when choosing the participant, or reading its fields, throws. */
  function ChatPress(chat: Json, me: Json): Option<ChatNav>
  {
    match OtherParticipant(ItemsOf(Get(chat, "participants")), me)
    case Some(o) =>
      if Nullish(o) then None
      else Some(ChatNav(Get(o, "name"), Get(o, "email"), Get(o, "_id"), Get(chat, "_id")))
    case None => None
  }

  /** Opening a chat uses the participant whose name the list shows. */
  lemma PressMatchesShownName(chat: Json, me: Json)
    requires ChatPress(chat, me).Some?
    ensures OtherName(ItemsOf(Get(chat, "participants")), me) == Some(Or(ChatPress(chat, me).value.recipient, Str("")))
    ensures ChatPress(chat, me).value.chatId == Get(chat, "_id")
  {
  }

  /** A chat without participants is listed with an empty name, but opening it throws. */
  lemma NoParticipantsCannotOpen(chat: Json, me: Json)
    requires ItemsOf(Get(chat, "participants")) == []
    ensures OtherName([], me) == Some(Str(""))
    ensures ChatPress(chat, me).None?
  {
  }

  /** `fetchCurrentUserId` of this screen: `_id ?? id` of a parsed, non-null stored user. */
  function RosterUserId(stored: Stored): Option<Json>
  {
    if stored.Parsed? && !Nullish(stored.value) then Some(Coalesce(Get(stored.value, "_id"), Get(stored.value, "id")))
    else None
  }

  /** Unlike `||`, `??` keeps an empty `_id` rather than falling back to `id`. */
  lemma RosterKeepsEmptyId(id: string)
    ensures RosterUserId(Parsed(Obj(map["_id" := Str(""), "id" := Str(id)]))) == Some(Str(""))
  {
  }

  /** The rooms joined for a list: one per chat, in order, up to the first `null` entry (whose `_id` throws). */
  function JoinsFor(cs: seq<Json>): seq<Emit>
  {
    if cs == [] || Nullish(cs[0]) then [] else [JoinChat(ToStr(Get(cs[0], "_id")))] + JoinsFor(cs[1..])
  }

  predicate AllJoinable(cs: seq<Json>)
  {
    forall i :: 0 <= i < |cs| ==> !Nullish(cs[i])
  }

  lemma {:induction false} JoinsForSnoc(cs: seq<Json>, c: Json)
    requires AllJoinable(cs)
    ensures JoinsFor(cs + [c]) == JoinsFor(cs) + if Nullish(c) then [] else [JoinChat(ToStr(Get(c, "_id")))]
  {
    if cs == [] {
      assert cs + [c] == [c];
    } else {
      assert (cs + [c])[1..] == cs[1..] + [c];
      JoinsForSnoc(cs[1..], c);
    }
  }

  /** Every chat's room is joined, once and in list order. */
  lemma {:induction false} JoinsForEveryChat(cs: seq<Json>)
    requires AllJoinable(cs)
    ensures |JoinsFor(cs)| == |cs|
    ensures forall i :: 0 <= i < |cs| ==> JoinsFor(cs)[i] == JoinChat(ToStr(Get(cs[i], "_id")))
  {
    if cs != [] {
      JoinsForEveryChat(cs[1..]);
    }
  }

  /**
   * The loop over the fetched chats that joins each chat's room, in list
   * order; a nullish chat throws there, which stops the loop.
   */
  method JoinRooms(socket: SocketService, cs: seq<Json>) returns (complete: bool)
    requires socket.IsConnected()
    modifies socket`emitted
    ensures complete == AllJoinable(cs)
    ensures socket.emitted == old(socket.emitted) + JoinsFor(cs)
  {
    var i := 0;
    while i < |cs|
      invariant 0 <= i <= |cs|
      invariant AllJoinable(cs[..i])
      invariant socket.emitted == old(socket.emitted) + JoinsFor(cs[..i])
    {
      JoinsForSnoc(cs[..i], cs[i]);
      assert cs[..i + 1] == cs[..i] + [cs[i]];
      if Nullish(cs[i]) {
        JoinsForPrefixStops(cs, i);
        return false;
      }
      socket.JoinRoom(ToStr(Get(cs[i], "_id")));
      i := i + 1;
    }
    assert cs[..i] == cs;
    return true;
  }

  class ChatRoster {
    const socket: SocketService
    var chats: seq<Json>
    var loading: bool
    var error: Option<string>
    var currentUserId: Json
    /** `messageListenerRef.current`: the disposer of the live listener. */
    var listener: Option<Disposer>
    /** `unmountedRef.current` */
    var unmounted: bool
    /** Every handler this screen has subscribed. */
    ghost var owned: set<HandlerId>

    /** The handlers of this screen that are still subscribed. */
    ghost function LiveOwned(): set<HandlerId>
      reads this, socket
    {
      set h | h in owned && h in socket.messageHandlers
    }

    /** At most one of the screen's listeners is live: the one its ref holds. */
    ghost predicate Valid()
      reads this, socket
    {
      socket.Valid()
      && (forall h :: h in owned ==> h < socket.nextHandler)
      && (listener.Some? ==> listener.value.kind == MessageEvent && listener.value.handler in owned)
      && (forall h :: h in owned && h in socket.messageHandlers ==> listener == Some(Disposer(MessageEvent, h)))
    }

    constructor (socket: SocketService)
      requires socket.Valid()
      ensures Valid()
      ensures this.socket == socket
      ensures chats == [] && loading && error == None && currentUserId == Null
      ensures listener == None && !unmounted && owned == {}
    {
      this.socket := socket;
      chats, loading, error, currentUserId := [], true, None, Null;
      listener, unmounted := None, false;
      owned := {};
    }

    lemma AtMostOneLive()
      requires Valid()
      ensures |LiveOwned()| <= 1
      ensures listener.None? ==> LiveOwned() == {}
    {
      if listener.Some? {
        var live, x := LiveOwned(), listener.value.handler;
        assert live <= {x};
        if x in live {
          assert live == {x};
        } else {
          assert live == {};
        }
      } else {
        assert LiveOwned() == {};
      }
    }

    method FetchCurrentUserId(stored: Stored)
      modifies this`currentUserId
      ensures currentUserId == if RosterUserId(stored).Some? then RosterUserId(stored).value else old(currentUserId)
    {
      var id := RosterUserId(stored);
      if id.Some? {
        currentUserId := id.value;
      }
    }

    /**
     * `fetchChats`, once the token has been read and the reply received: on
     * success the list is replaced and, when connected, every room joined in
     * order until an entry throws. Loading always ends false.
     */
    method FetchChats(token: Option<string>, reply: Reply)
      requires Valid()
      modifies this`chats, this`loading, this`error, socket`emitted
      ensures Valid()
      ensures !loading
      ensures var list := if Given(token) && Ok(reply) then NormaliseChats(reply.body) else None;
        (list.None? ==> chats == old(chats) && error == Some(LoadChatsError) && socket.emitted == old(socket.emitted))
        && (list.Some? && socket.IsConnected() ==>
              chats == list.value
              && socket.emitted == old(socket.emitted) + JoinsFor(list.value)
              && error == if AllJoinable(list.value) then None else Some(LoadChatsError))
        && (list.Some? && !socket.IsConnected() ==>
              chats == list.value && socket.emitted == old(socket.emitted) && error == None)
    {
      loading := true;
      error := None;
      var list := if Given(token) && Ok(reply) then NormaliseChats(reply.body) else None;
      if list.None? {
        error := Some(LoadChatsError);
        loading := false;
        return;
      }
      var cs := list.value;
      chats := cs;
      if socket.IsConnected() {
        var complete := JoinRooms(socket, cs);
        if !complete {
          error := Some(LoadChatsError);
        }
      }
      loading := false;
    }

    /** The first half of the listener effect: connect when not connected. */
    method EnsureConnected(token: Option<string>) returns (calls: seq<Delivery>)
      requires Valid()
      modifies socket`transport
      ensures Valid()
      ensures old(socket.IsConnected()) ==> socket.transport == old(socket.transport) && calls == []
      ensures !old(socket.IsConnected()) && Given(token) ==> socket.transport == Open(token.value, false) && calls == []
      ensures !old(socket.IsConnected()) && !Given(token) ==>
        socket.transport == old(socket.transport) && calls == Deliveries(socket.errorHandlers, ErrorPayload(NoTokenError))
    {
      calls := socket.Connect(token);
    }

    /**
     * The second half: dispose of the listener the ref holds, subscribe a
     * new one and keep its disposer. Exactly one listener of the screen is live.
     */
    method RegisterListener()
      requires Valid()
      modifies this`listener, this`owned, socket`messageHandlers, socket`typingHandlers,
        socket`stopTypingHandlers, socket`errorHandlers, socket`connectHandlers,
        socket`disconnectHandlers, socket`nextHandler
      ensures Valid()
      ensures listener == Some(Disposer(MessageEvent, old(socket.nextHandler)))
      ensures socket.messageHandlers ==
        (if old(listener).Some? then Without(old(socket.messageHandlers), old(listener).value.handler)
         else old(socket.messageHandlers)) + [old(socket.nextHandler)]
      ensures forall k :: k != MessageEvent ==> socket.HandlersOf(k) == old(socket.HandlersOf(k))
      ensures LiveOwned() == {old(socket.nextHandler)}
    {
      ghost var before := socket.messageHandlers;
      if listener.Some? {
        WithoutRemovesExactly(socket.messageHandlers, listener.value.handler);
        WithoutSubset(socket.messageHandlers, listener.value.handler);
        socket.Dispose(listener.value);
      }
      ghost var middle := socket.messageHandlers;
      assert forall h :: h in owned ==> h !in middle;
      var h := socket.NewHandler();
      var d := socket.Subscribe(MessageEvent, h);
      owned := owned + {h};
      listener := Some(d);
      assert socket.messageHandlers == middle + [h];
      assert LiveOwned() == {h};
    }

    /** The listener: a new message refreshes the list unless the screen has unmounted. */
    method OnMessage() returns (refresh: bool)
      ensures refresh == !unmounted
    {
      refresh := !unmounted;
    }

    /** The effect's cleanup: mark unmounted, dispose of the live listener and clear the ref. */
    method Unmount()
      requires Valid()
      modifies this`unmounted, this`listener, socket`messageHandlers, socket`typingHandlers,
        socket`stopTypingHandlers, socket`errorHandlers, socket`connectHandlers, socket`disconnectHandlers
      ensures Valid()
      ensures unmounted && listener == None
      ensures LiveOwned() == {}
      ensures socket.messageHandlers == if old(listener).Some? then Without(old(socket.messageHandlers), old(listener).value.handler)
        else old(socket.messageHandlers)
    {
      unmounted := true;
      if listener.Some? {
        WithoutRemovesExactly(socket.messageHandlers, listener.value.handler);
        WithoutSubset(socket.messageHandlers, listener.value.handler);
        socket.Dispose(listener.value);
        listener := None;
      }
      assert LiveOwned() == {};
    }
  }

  /** Once an entry throws, no later room is joined. */
  lemma JoinsForPrefixStops(cs: seq<Json>, i: nat)
    requires i < |cs| && Nullish(cs[i]) && AllJoinable(cs[..i])
    ensures JoinsFor(cs) == JoinsFor(cs[..i])
  {
    if i > 0 {
      assert cs[1..][..i - 1] == cs[..i][1..];
      JoinsForPrefixStops(cs[1..], i - 1);
    }
  }
}
