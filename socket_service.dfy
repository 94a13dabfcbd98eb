/**
 * The process-wide connection manager: an optional socket, six lists of
 * subscribed handlers, and the events sent on the socket.
 *
 * The socket library itself is not modelled. A socket is its handshake token
 * and its `connected` flag. What it sends is appended to `emitted`. What it
 * receives arrives through `Receive`. A handler is identified by a number
 * that stands for a JavaScript function object; `NewHandler` creates one.
 */
module Socket {

  import opened Common
  import opened Js

  type HandlerId = nat

  /** The six kinds of subscription, one handler list each. */
  datatype EventKind =
    | MessageEvent | TypingEvent | StopTypingEvent | ErrorEvent | ConnectEvent | DisconnectEvent

  /** The function an `on*` call returns; calling it is `Dispose`. */
  datatype Disposer = Disposer(kind: EventKind, handler: HandlerId)

  /** Outbound events, with exactly the data the client puts in them. */
  datatype Emit =
    | JoinChat(chatId: string)
    | LeaveChat(chatId: string)
    | SendMessage(chatId: string, text: string)
    | Typing(chatId: string)
    | StopTyping(chatId: string)

  /** What a handler is invoked with. */
  datatype Payload =
    | MessagePayload(message: Json)
    | TypingPayload(data: Json)
    | ErrorPayload(reason: string)
    | NoPayload

  /** One invocation of one handler. */
  datatype Delivery = Delivery(handler: HandlerId, payload: Payload)

  /** No socket, or a socket created with a token that is or is not connected. */
  datatype Transport = NoSocket | Open(token: string, connected: bool)

  /** Events the socket delivers to the listeners `connect` installs on it. */
  datatype Inbound =
    | ConnectedIn
    | DisconnectedIn
    | ConnectErrorIn(reason: string)
    | MessageIn(message: Json)
    | TypingIn(data: Json)
    | StopTypingIn(data: Json)

  const NoTokenError := "Auth token is required for socket connection"

  /** `hs.filter(x => x !== h)` */
  function Without(hs: seq<HandlerId>, h: HandlerId): seq<HandlerId>
  {
    if hs == [] then [] else (if hs[0] == h then [] else [hs[0]]) + Without(hs[1..], h)
  }

  /** The handlers of a list, each invoked once with `p`, in list order. */
  function Deliveries(hs: seq<HandlerId>, p: Payload): seq<Delivery>
  {
    if hs == [] then [] else [Delivery(hs[0], p)] + Deliveries(hs[1..], p)
  }

  /** Filtering removes every occurrence of the handler and keeps the count of every other one. */
  lemma {:induction false} WithoutRemovesExactly(hs: seq<HandlerId>, h: HandlerId)
    ensures h !in Without(hs, h)
    ensures forall x :: x != h ==> multiset(Without(hs, h))[x] == multiset(hs)[x]
    ensures |Without(hs, h)| == |hs| - multiset(hs)[h]
  {
    if hs != [] {
      WithoutRemovesExactly(hs[1..], h);
      assert hs == [hs[0]] + hs[1..];
      assert multiset(hs) == multiset([hs[0]]) + multiset(hs[1..]);
    }
  }

  /** Filtering keeps only handlers that were in the list. */
  lemma {:induction false} WithoutSubset(hs: seq<HandlerId>, h: HandlerId)
    ensures forall x :: x in Without(hs, h) ==> x in hs
  {
    if hs != [] {
      WithoutSubset(hs[1..], h);
    }
  }

  /** Filtering a concatenation filters each part: the survivors keep their order. */
  lemma {:induction false} WithoutConcat(a: seq<HandlerId>, b: seq<HandlerId>, h: HandlerId)
    ensures Without(a + b, h) == Without(a, h) + Without(b, h)
  {
    if a != [] {
      WithoutConcat(a[1..], b, h);
      assert (a + b)[1..] == a[1..] + b;
    } else {
      assert a + b == b;
    }
  }

  /** A list without the handler is left as it is. */
  lemma {:induction false} WithoutAbsent(hs: seq<HandlerId>, h: HandlerId)
    requires h !in hs
    ensures Without(hs, h) == hs
  {
    if hs != [] {
      WithoutAbsent(hs[1..], h);
    }
  }

  /** Calling a disposer twice is the same as calling it once. */
  lemma WithoutIdempotent(hs: seq<HandlerId>, h: HandlerId)
    ensures Without(Without(hs, h), h) == Without(hs, h)
  {
    WithoutRemovesExactly(hs, h);
    WithoutAbsent(Without(hs, h), h);
  }

  /** Subscribing a fresh handler and disposing of it restores the list. */
  lemma SubscribeThenDispose(hs: seq<HandlerId>, h: HandlerId)
    requires h !in hs
    ensures Without(hs + [h], h) == hs
  {
    WithoutConcat(hs, [h], h);
    WithoutAbsent(hs, h);
    assert Without([h], h) == [];
  }

  /** Every registered handler is invoked once, in registration order. */
  lemma {:induction false} DeliveriesInOrder(hs: seq<HandlerId>, p: Payload)
    ensures |Deliveries(hs, p)| == |hs|
    ensures forall i :: 0 <= i < |hs| ==> Deliveries(hs, p)[i] == Delivery(hs[i], p)
  {
    if hs != [] {
      DeliveriesInOrder(hs[1..], p);
    }
  }

  lemma {:induction false} DeliveriesConcat(a: seq<HandlerId>, b: seq<HandlerId>, p: Payload)
    ensures Deliveries(a + b, p) == Deliveries(a, p) + Deliveries(b, p)
  {
    if a != [] {
      DeliveriesConcat(a[1..], b, p);
      assert (a + b)[1..] == a[1..] + b;
    } else {
      assert a + b == b;
    }
  }

  class SocketService {
    var transport: Transport
    var messageHandlers: seq<HandlerId>
    var typingHandlers: seq<HandlerId>
    var stopTypingHandlers: seq<HandlerId>
    var errorHandlers: seq<HandlerId>
    var connectHandlers: seq<HandlerId>
    var disconnectHandlers: seq<HandlerId>
    /** Everything sent on a socket, oldest first. */
    var emitted: seq<Emit>
    /** The next function object `NewHandler` hands out. */
    var nextHandler: HandlerId

    function HandlersOf(k: EventKind): seq<HandlerId>
      reads this`messageHandlers, this`typingHandlers, this`stopTypingHandlers,
        this`errorHandlers, this`connectHandlers, this`disconnectHandlers
    {
      match k
      case MessageEvent => messageHandlers
      case TypingEvent => typingHandlers
      case StopTypingEvent => stopTypingHandlers
      case ErrorEvent => errorHandlers
      case ConnectEvent => connectHandlers
      case DisconnectEvent => disconnectHandlers
    }

    /** Every subscribed handler is one that has been created. */
    ghost predicate Valid()
      reads this`messageHandlers, this`typingHandlers, this`stopTypingHandlers,
        this`errorHandlers, this`connectHandlers, this`disconnectHandlers, this`nextHandler
    {
      forall k, h :: h in HandlersOf(k) ==> h < nextHandler
    }

    /** `isConnected()` */
    function IsConnected(): bool
      reads this`transport
    {
      transport.Open? && transport.connected
    }

    constructor ()
      ensures Valid()
      ensures transport == NoSocket && emitted == []
      ensures forall k :: HandlersOf(k) == []
    {
      transport := NoSocket;
      messageHandlers, typingHandlers, stopTypingHandlers := [], [], [];
      errorHandlers, connectHandlers, disconnectHandlers := [], [], [];
      emitted := [];
      nextHandler := 0;
    }

    /** A new function object: it is in no handler list yet. */
    method NewHandler() returns (h: HandlerId)
      requires Valid()
      modifies this`nextHandler
      ensures Valid()
      ensures h == old(nextHandler) && nextHandler == h + 1
      ensures forall k :: h !in HandlersOf(k)
    {
      h := nextHandler;
      nextHandler := nextHandler + 1;
    }

    /** `onMessage`, `onTyping`, `onStopTyping`, `onError`, `onConnect`, `onDisconnect`. */
    method Subscribe(kind: EventKind, h: HandlerId) returns (d: Disposer)
      requires Valid() && h < nextHandler
      modifies this`messageHandlers, this`typingHandlers, this`stopTypingHandlers,
        this`errorHandlers, this`connectHandlers, this`disconnectHandlers
      ensures Valid()
      ensures d == Disposer(kind, h)
      ensures HandlersOf(kind) == old(HandlersOf(kind)) + [h]
      ensures forall k :: k != kind ==> HandlersOf(k) == old(HandlersOf(k))
    {
      d := Disposer(kind, h);
      match kind {
        case MessageEvent => messageHandlers := messageHandlers + [h];
        case TypingEvent => typingHandlers := typingHandlers + [h];
        case StopTypingEvent => stopTypingHandlers := stopTypingHandlers + [h];
        case ErrorEvent => errorHandlers := errorHandlers + [h];
        case ConnectEvent => connectHandlers := connectHandlers + [h];
        case DisconnectEvent => disconnectHandlers := disconnectHandlers + [h];
      }
      forall k, x | x in HandlersOf(k)
        ensures x < nextHandler
      {
        if k == kind {
          assert x in old(HandlersOf(k)) || x == h;
        } else {
          assert x in old(HandlersOf(k));
        }
      }
    }

    /** Calling the disposer an `on*` call returned. */
    method Dispose(d: Disposer)
      requires Valid()
      modifies this`messageHandlers, this`typingHandlers, this`stopTypingHandlers,
        this`errorHandlers, this`connectHandlers, this`disconnectHandlers
      ensures Valid()
      ensures HandlersOf(d.kind) == Without(old(HandlersOf(d.kind)), d.handler)
      ensures forall k :: k != d.kind ==> HandlersOf(k) == old(HandlersOf(k))
    {
      match d.kind {
        case MessageEvent => messageHandlers := Without(messageHandlers, d.handler);
        case TypingEvent => typingHandlers := Without(typingHandlers, d.handler);
        case StopTypingEvent => stopTypingHandlers := Without(stopTypingHandlers, d.handler);
        case ErrorEvent => errorHandlers := Without(errorHandlers, d.handler);
        case ConnectEvent => connectHandlers := Without(connectHandlers, d.handler);
        case DisconnectEvent => disconnectHandlers := Without(disconnectHandlers, d.handler);
      }
      forall k, x | x in HandlersOf(k)
        ensures x < nextHandler
      {
        if k == d.kind {
          WithoutSubset(old(HandlersOf(k)), d.handler);
        }
        assert x in old(HandlersOf(k));
      }
    }

    /** `notify*Handlers`: the `forEach` over one list. */
    method Notify(kind: EventKind, p: Payload) returns (calls: seq<Delivery>)
      ensures calls == Deliveries(HandlersOf(kind), p)
    {
      var hs := HandlersOf(kind);
      calls := [];
      for i := 0 to |hs|
        invariant calls == Deliveries(hs[..i], p)
      {
        DeliveriesConcat(hs[..i], [hs[i]], p);
        assert hs[..i + 1] == hs[..i] + [hs[i]];
        calls := calls + [Delivery(hs[i], p)];
      }
      assert hs[..|hs|] == hs;
    }

    /**
     * `connect()`: nothing when a connected socket exists; otherwise a new,
     * not yet connected socket carrying the stored token, or, with no token,
     * no socket change and every error handler told.
     */
    method Connect(storedToken: Option<string>) returns (calls: seq<Delivery>)
      requires Valid()
      modifies this`transport
      ensures Valid()
      ensures old(IsConnected()) ==> transport == old(transport) && calls == []
      ensures !old(IsConnected()) && Given(storedToken) ==>
        transport == Open(storedToken.value, false) && calls == []
      ensures !old(IsConnected()) && !Given(storedToken) ==>
        transport == old(transport)
        && calls == Deliveries(errorHandlers, ErrorPayload(NoTokenError))
    {
      if IsConnected() {
        return [];
      }
      if !Given(storedToken) {
        calls := Notify(ErrorEvent, ErrorPayload(NoTokenError));
        return;
      }
      transport := Open(storedToken.value, false);
      calls := [];
    }

    /** An event from the socket, passed on by the listener `connect` installed. */
    method Receive(e: Inbound) returns (calls: seq<Delivery>)
      requires Valid()
      modifies this`transport
      ensures Valid()
      ensures e.ConnectedIn? && old(transport).Open? ==> transport == old(transport).(connected := true)
      ensures e.DisconnectedIn? && old(transport).Open? ==> transport == old(transport).(connected := false)
      ensures !(e.ConnectedIn? || e.DisconnectedIn?) || old(transport).NoSocket? ==> transport == old(transport)
      ensures calls == match e
        case ConnectedIn => Deliveries(connectHandlers, NoPayload)
        case DisconnectedIn => Deliveries(disconnectHandlers, NoPayload)
        case ConnectErrorIn(r) => Deliveries(errorHandlers, ErrorPayload(r))
        case MessageIn(m) => Deliveries(messageHandlers, MessagePayload(m))
        case TypingIn(d) => Deliveries(typingHandlers, TypingPayload(d))
        case StopTypingIn(d) => Deliveries(stopTypingHandlers, TypingPayload(d))
    {
      match e
      case ConnectedIn =>
        if transport.Open? { transport := transport.(connected := true); }
        calls := Notify(ConnectEvent, NoPayload);
      case DisconnectedIn =>
        if transport.Open? { transport := transport.(connected := false); }
        calls := Notify(DisconnectEvent, NoPayload);
      case ConnectErrorIn(r) => calls := Notify(ErrorEvent, ErrorPayload(r));
      case MessageIn(m) => calls := Notify(MessageEvent, MessagePayload(m));
      case TypingIn(d) => calls := Notify(TypingEvent, TypingPayload(d));
      case StopTypingIn(d) => calls := Notify(StopTypingEvent, TypingPayload(d));
    }

    /** Sends `e` when a socket exists, connected or not; drops it otherwise. */
    method EmitIfSocket(e: Emit)
      modifies this`emitted
      ensures emitted == if transport.Open? then old(emitted) + [e] else old(emitted)
    {
      if transport.Open? {
        emitted := emitted + [e];
      }
    }

    method JoinRoom(chatId: string)
      modifies this`emitted
      ensures emitted == if transport.Open? then old(emitted) + [JoinChat(chatId)] else old(emitted)
    {
      EmitIfSocket(JoinChat(chatId));
    }

    method LeaveRoom(chatId: string)
      modifies this`emitted
      ensures emitted == if transport.Open? then old(emitted) + [LeaveChat(chatId)] else old(emitted)
    {
      EmitIfSocket(LeaveChat(chatId));
    }

    method Send(chatId: string, text: string)
      modifies this`emitted
      ensures emitted == if transport.Open? then old(emitted) + [SendMessage(chatId, text)] else old(emitted)
    {
      EmitIfSocket(SendMessage(chatId, text));
    }

    method SendTyping(chatId: string)
      modifies this`emitted
      ensures emitted == if transport.Open? then old(emitted) + [Typing(chatId)] else old(emitted)
    {
      EmitIfSocket(Typing(chatId));
    }

    method SendStopTyping(chatId: string)
      modifies this`emitted
      ensures emitted == if transport.Open? then old(emitted) + [StopTyping(chatId)] else old(emitted)
    {
      EmitIfSocket(StopTyping(chatId));
    }

    /** `disconnect()`: the socket is dropped; the handler lists stay as they are. */
    method Disconnect()
      modifies this`transport
      ensures transport == NoSocket && !IsConnected()
      ensures forall k :: HandlersOf(k) == old(HandlersOf(k))
    {
      transport := NoSocket;
    }
  }
}
