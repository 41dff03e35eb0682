/** The mock real-time transport of the chat front end and the provider that owns it.

    `MockSocketConnection` keeps a registry of named-event listeners, a two-field
    connection state and the timers it has set. Callbacks are opaque ids; emitting an
    event yields the ordered calls that `forEach` makes. A timer is a `Task` in
    `pending`; `Fire` runs one of them, reading `Math.random` and `Date` from an
    `Ambient` value that the caller supplies.

    `SocketProvider` is one run of the provider's effect: it opens a socket for the
    signed-in user, registers its three handlers and keeps the append-only message
    log that the `new_message` handler feeds. */
module SocketContext {
  import opened Wrappers
  import Seqs

  /** A listener callback, identified by an id: `cb !== callback` is id inequality. */
  type CallbackId = nat

  /** What a client hands to `sendMessage`. */
  datatype Draft = Draft(senderId: string, receiverId: string, message: string)

  /** A message as it is emitted with `new_message`. */
  datatype Message = Message(
    id: string, senderId: string, receiverId: string, message: string, timestamp: string, read: bool)

  /** The data passed to listeners: `{ userId }` for `connected`, a message for `new_message`. */
  datatype Payload = ConnectedData(userId: string) | MessageData(msg: Message)

  datatype Event = Event(name: string, data: Payload)

  /** One invocation `callback(data)`. */
  datatype Call = Call(callback: CallbackId, data: Payload)

  /** The body of a timer that has been set and has not fired yet. */
  datatype Task =
    | EmitConnected(userId: string)   // the 500 ms handshake set by `connect`
    | DeliverMessage(draft: Draft)    // the 500 ms send step set by `sendMessage`
    | EmitReply(draft: Draft)         // the 5-10 s reply step set by the send step

  /** The values a timer body reads from the environment when it fires: the random
      part of a fresh message id, `new Date().toISOString()` and `Math.random()`. */
  datatype Ambient = Ambient(idSuffix: string, now: string, random: real)

  predicate ValidAmbient(env: Ambient)
  {
    0.0 <= env.random < 1.0
  }

  /** What firing one timer does: the event it emits, if any, and the timers it sets. */
  datatype Outcome = Outcome(emitted: Option<Event>, scheduled: seq<Task>)

  const ConnectedEvent := "connected"
  const DisconnectedEvent := "disconnected"
  const NewMessageEvent := "new_message"
  const IdPrefix := "msg_"

  /** The fixed catalogue of synthetic replies. */
  const Responses: seq<string> := [
    "Thank you for sharing that with me. How long have you been feeling this way?",
    "I understand this must be difficult. Can you tell me more about what's been going on?",
    "I appreciate you reaching out. Have you tried any coping strategies that have helped in the past?",
    "That sounds challenging. Let's work together to find some strategies that might help.",
    "I'm here to support you. What would be most helpful for you right now?",
    "It's important to address these feelings. Have you discussed this with anyone else in your support network?",
    "Thank you for trusting me with this information. Let's discuss some potential next steps."
  ]

  /** `Math.floor(random * responses.length)` for a `random` drawn from [0, 1). */
  function ResponseIndex(random: real): (i: nat)
    requires 0.0 <= random < 1.0
    ensures i < |Responses| == 7
    ensures i as real <= random * 7.0 < i as real + 1.0
  {
    (random * (|Responses| as real)).Floor
  }

  /** `generateResponse()`: a member of the catalogue, chosen by the random draw. */
  function GenerateResponse(random: real): (body: string)
    requires 0.0 <= random < 1.0
    ensures body in Responses
  {
    Responses[ResponseIndex(random)]
  }

  /** The listeners registered for `event`, none if it has no entry. */
  function Registered(listeners: map<string, seq<CallbackId>>, event: string): seq<CallbackId>
  {
    if event in listeners then listeners[event] else []
  }

  /** The calls that emitting `data` to the listeners `callbacks` makes, in order. */
  function Invocations(callbacks: seq<CallbackId>, data: Payload): (calls: seq<Call>)
    ensures |calls| == |callbacks|
    ensures forall i :: 0 <= i < |calls| ==> calls[i] == Call(callbacks[i], data)
  {
    if callbacks == [] then []
    else Invocations(callbacks[..|callbacks| - 1], data) + [Call(callbacks[|callbacks| - 1], data)]
  }

  /** The calls an outcome's emission makes against a listener registry. */
  function Deliveries(listeners: map<string, seq<CallbackId>>, emitted: Option<Event>): seq<Call>
  {
    match emitted
    case None => []
    case Some(e) => Invocations(Registered(listeners, e.name), e.data)
  }

  /** The message the send step emits: the draft's fields plus a fresh id, a timestamp and `read = false`. */
  function FullMessage(d: Draft, env: Ambient): Message
  {
    Message(IdPrefix + env.idSuffix, d.senderId, d.receiverId, d.message, env.now, false)
  }

  /** The reply step's guard, read against the socket's `userId` when the timer fires. */
  predicate ReplyGuard(d: Draft, userId: Option<string>)
  {
    Some(d.senderId) != userId && Some(d.receiverId) == userId
  }

  /** The synthetic reply: sender and receiver swapped, a body from the catalogue. */
  function Reply(d: Draft, env: Ambient): Message
    requires ValidAmbient(env)
  {
    Message(IdPrefix + env.idSuffix, d.receiverId, d.senderId, GenerateResponse(env.random), env.now, false)
  }

  /** What one timer body does when it fires while the socket's user is `userId`. */
  function RunTask(t: Task, userId: Option<string>, env: Ambient): (out: Outcome)
    requires ValidAmbient(env)
    // no timer ever emits `disconnected`
    ensures out.emitted.Some? ==> out.emitted.value.name in {ConnectedEvent, NewMessageEvent}
    // the handshake emits `connected` with the user id given to `connect`, whatever the state now
    ensures t.EmitConnected? ==>
      out.emitted == Some(Event(ConnectedEvent, ConnectedData(t.userId))) && out.scheduled == []
    // the send step always emits the draft once, completed, and sets the reply timer
    ensures t.DeliverMessage? ==>
      && out.scheduled == [EmitReply(t.draft)]
      && out.emitted.Some? && out.emitted.value.name == NewMessageEvent
      && out.emitted.value.data.MessageData?
      && var m := out.emitted.value.data.msg;
         && m.senderId == t.draft.senderId && m.receiverId == t.draft.receiverId
         && m.message == t.draft.message && !m.read
         && m.id == IdPrefix + env.idSuffix && m.timestamp == env.now
    // the reply step emits only when the guard holds, and then a swapped reply from the catalogue
    ensures t.EmitReply? ==> out.scheduled == [] && (out.emitted.Some? <==> ReplyGuard(t.draft, userId))
    ensures t.EmitReply? && out.emitted.Some? ==>
      && out.emitted.value.name == NewMessageEvent
      && out.emitted.value.data.MessageData?
      && var m := out.emitted.value.data.msg;
         && m.senderId == t.draft.receiverId && m.receiverId == t.draft.senderId
         && m.message in Responses && !m.read
  {
    match t
    case EmitConnected(u) => Outcome(Some(Event(ConnectedEvent, ConnectedData(u))), [])
    case DeliverMessage(d) => Outcome(Some(Event(NewMessageEvent, MessageData(FullMessage(d, env)))), [EmitReply(d)])
    case EmitReply(d) =>
      if ReplyGuard(d, userId) then Outcome(Some(Event(NewMessageEvent, MessageData(Reply(d, env)))), [])
      else Outcome(None, [])
  }

  /** A reply is emitted exactly when the draft was not sent by the socket's user and is addressed to it. */
  lemma ReplyOnlyForIncoming(d: Draft, userId: Option<string>, env: Ambient)
    requires ValidAmbient(env)
    ensures RunTask(EmitReply(d), userId, env).emitted.Some? <==>
      userId.Some? && d.receiverId == userId.value && d.senderId != userId.value
  {
  }

  class MockSocketConnection {
    /** `this.listeners`: event name to the callbacks registered for it, in registration order. */
    var listeners: map<string, seq<CallbackId>>
    var connected: bool
    var userId: Option<string>
    /** The timers set and not yet fired, in the order they were set. */
    var pending: seq<Task>

    constructor ()
      ensures listeners == map[] && !connected && userId == None && pending == []
    {
      listeners := map[];
      connected := false;
      userId := None;
      pending := [];
    }

    /** `connect(userId)`: connected at once, the `connected` event only when the handshake timer fires. */
    method Connect(id: string) returns (self: MockSocketConnection)
      modifies this
      ensures self == this
      ensures connected && userId == Some(id)
      ensures pending == old(pending) + [EmitConnected(id)]
      ensures listeners == old(listeners)
    {
      userId := Some(id);
      connected := true;
      pending := pending + [EmitConnected(id)];
      self := this;
    }

    /** `disconnect()`: clears the connection state only; listeners and timers stay. */
    method Disconnect()
      modifies this
      ensures !connected && userId == None
      ensures listeners == old(listeners) && pending == old(pending)
    {
      connected := false;
      userId := None;
    }

    /** `on(event, callback)`: appends the callback to the event's list, creating the list if absent. */
    method On(event: string, callback: CallbackId)
      modifies this
      ensures event in old(listeners) ==> listeners == old(listeners)[event := old(listeners)[event] + [callback]]
      ensures event !in old(listeners) ==> listeners == old(listeners)[event := [callback]]
      ensures connected == old(connected) && userId == old(userId) && pending == old(pending)
    {
      if event !in listeners {
        listeners := listeners[event := []];
      }
      assert [] + [callback] == [callback];
      listeners := listeners[event := listeners[event] + [callback]];
    }

    /** `off(event)` drops the event's entry; `off(event, callback)` removes every occurrence of the callback. */
    method Off(event: string, callback: Option<CallbackId>)
      modifies this
      ensures callback.None? ==> listeners == old(listeners) - {event}
      ensures callback.Some? && event in old(listeners) ==>
        listeners == old(listeners)[event := Without(old(listeners)[event], callback.value)]
      ensures callback.Some? && event !in old(listeners) ==> listeners == old(listeners)
      ensures connected == old(connected) && userId == old(userId) && pending == old(pending)
    {
      if callback.None? {
        listeners := listeners - {event};
      } else if event in listeners {
        listeners := listeners[event := Without(listeners[event], callback.value)];
      }
    }

    /** `emit(event, data)`: calls every listener registered for the event, in order, with the same data. */
    method Emit(event: string, data: Payload) returns (calls: seq<Call>)
      ensures |calls| == |Registered(listeners, event)|
      ensures forall i :: 0 <= i < |calls| ==> calls[i] == Call(Registered(listeners, event)[i], data)
    {
      calls := [];
      if event in listeners {
        var callbacks := listeners[event];
        for i := 0 to |callbacks|
          invariant |calls| == i
          invariant forall j :: 0 <= j < i ==> calls[j] == Call(callbacks[j], data)
        {
          calls := calls + [Call(callbacks[i], data)];
        }
      }
    }

    /** `sendMessage(message)`: no validation and no connection check; only sets the send timer. */
    method SendMessage(message: Draft)
      modifies this
      ensures pending == old(pending) + [DeliverMessage(message)]
      ensures listeners == old(listeners) && connected == old(connected) && userId == old(userId)
    {
      pending := pending + [DeliverMessage(message)];
    }

    /** `isConnected()`. */
    method IsConnected() returns (b: bool)
      ensures b == connected
    {
      b := connected;
    }

    /** The timer `pending[k]` fires: its body runs against the current state and `env`. */
    method Fire(k: nat, env: Ambient) returns (calls: seq<Call>)
      requires k < |pending| && ValidAmbient(env)
      modifies this
      ensures listeners == old(listeners) && connected == old(connected) && userId == old(userId)
      ensures pending == old(pending[..k] + pending[k + 1..]) + RunTask(old(pending[k]), userId, env).scheduled
      ensures calls == Deliveries(listeners, RunTask(old(pending[k]), userId, env).emitted)
    {
      var task := pending[k];
      pending := pending[..k] + pending[k + 1..];
      match task
      case EmitConnected(u) =>
        calls := Emit(ConnectedEvent, ConnectedData(u));
      case DeliverMessage(d) =>
        calls := Emit(NewMessageEvent, MessageData(FullMessage(d, env)));
        pending := pending + [EmitReply(d)];
      case EmitReply(d) =>
        if ReplyGuard(d, userId) {
          calls := Emit(NewMessageEvent, MessageData(Reply(d, env)));
        } else {
          calls := [];
        }
    }
  }

  function NotCallback(callback: CallbackId): CallbackId -> bool
  {
    cb => cb != callback
  }

  /** `callbacks.filter((cb) => cb !== callback)`. */
  function Without(callbacks: seq<CallbackId>, callback: CallbackId): seq<CallbackId>
  {
    Seqs.Filter(callbacks, NotCallback(callback))
  }

  /** `off(event, callback)` removes every occurrence of the callback, keeps every other
      entry with its multiplicity, and keeps the order of what remains. */
  lemma WithoutExact(callbacks: seq<CallbackId>, callback: CallbackId)
    ensures callback !in Without(callbacks, callback)
    ensures forall x :: x in Without(callbacks, callback) <==> x in callbacks && x != callback
    ensures forall x :: x != callback ==> multiset(Without(callbacks, callback))[x] == multiset(callbacks)[x]
    ensures Seqs.IsSubseq(Without(callbacks, callback), callbacks)
  {
    var r := Without(callbacks, callback);
    forall x ensures multiset(r)[x] == if x != callback then multiset(callbacks)[x] else 0 {
      Seqs.FilterCount(callbacks, NotCallback(callback), x);
    }
    Seqs.FilterIsSubseq(callbacks, NotCallback(callback));
  }

  /** The ids of the provider's three handlers. */
  const ConnectedHandler: CallbackId := 0
  const DisconnectedHandler: CallbackId := 1
  const NewMessageHandler: CallbackId := 2

  /** The registry the provider's effect leaves on a fresh socket. */
  function ProviderListeners(): map<string, seq<CallbackId>>
  {
    map[ConnectedEvent := [ConnectedHandler],
        DisconnectedEvent := [DisconnectedHandler],
        NewMessageEvent := [NewMessageHandler]]
  }

  /** The provider's React state that the handlers update. */
  datatype View = View(isConnected: bool, messages: seq<Message>)

  /** What one call of a provider handler does to the view. */
  function Handle(v: View, c: Call): View
  {
    if c.callback == ConnectedHandler then v.(isConnected := true)
    else if c.callback == DisconnectedHandler then v.(isConnected := false)
    else if c.callback == NewMessageHandler && c.data.MessageData? then v.(messages := v.messages + [c.data.msg])
    else v
  }

  /** The calls run one after the other, in order. */
  function HandleAll(v: View, calls: seq<Call>): View
  {
    if calls == [] then v else Handle(HandleAll(v, calls[..|calls| - 1]), calls[|calls| - 1])
  }

  /** Against the provider's registry one emission runs one handler: `connected` sets the
      flag, `disconnected` clears it, `new_message` appends its message to the end of the log, keeping the prefix. */
  lemma ProviderHandles(v: View, e: Event)
    ensures e.name == ConnectedEvent ==> HandleAll(v, Deliveries(ProviderListeners(), Some(e))) == v.(isConnected := true)
    ensures e.name == DisconnectedEvent ==> HandleAll(v, Deliveries(ProviderListeners(), Some(e))) == v.(isConnected := false)
    ensures e.name == NewMessageEvent && e.data.MessageData? ==>
      HandleAll(v, Deliveries(ProviderListeners(), Some(e))) == v.(messages := v.messages + [e.data.msg])
    ensures e.name !in ProviderListeners() ==> HandleAll(v, Deliveries(ProviderListeners(), Some(e))) == v
  {
    var calls := Deliveries(ProviderListeners(), Some(e));
    if e.name in ProviderListeners() {
      assert |calls| == 1 && calls[..0] == [];
    }
  }

  /** Whether a pending timer belongs to a draft sent by `user` (the handshake has no draft). */
  predicate SentBy(t: Task, user: string)
  {
    match t
    case EmitConnected(_) => true
    case DeliverMessage(d) => d.senderId == user
    case EmitReply(d) => d.senderId == user
  }

  class SocketProvider {
    /** `authState.user.id` when the effect opened a socket: the socket's owner. */
    const owner: Option<string>
    /** `authState.user?.id` now: the owner, or nothing once they have signed out. */
    var user: Option<string>
    /** The `socket` state: React keeps the old socket after sign-out, since the effect
        creates nothing and nothing resets it. */
    const socket: MockSocketConnection?
    var isConnected: bool
    var messages: seq<Message>

    /** The provider's invariant. It only ever sends as the socket's owner, who is the
        socket's user until cleanup, so no reply guard ever passes and the log holds only
        the owner's own messages. Once signed out, the user is gone but the socket stays. */
    ghost predicate Valid()
      reads this, socket
    {
      && (owner.None? <==> socket == null)
      && (owner.None? ==> messages == [])
      && (user.Some? ==> user == owner)
      && (socket != null ==>
        && socket.listeners == ProviderListeners()
        && (socket.userId == owner || socket.userId == None)
        && (forall i :: 0 <= i < |socket.pending| ==> SentBy(socket.pending[i], owner.value))
        && (forall i :: 0 <= i < |messages| ==> messages[i].senderId == owner.value))
    }

    function ViewOf(): View
      reads this
    {
      View(isConnected, messages)
    }

    /** The effect at mount: with an authenticated user, a new socket is connected for
        that user and the three handlers are registered. */
    constructor (isAuthenticated: bool, account: Option<string>)
      ensures Valid()
      ensures owner == user == (if isAuthenticated then account else None)
      ensures !isConnected && messages == []
      ensures socket != null ==>
        && fresh(socket)
        && socket.connected && socket.userId == user
        && socket.listeners == ProviderListeners()
        && socket.pending == [EmitConnected(user.value)]
    {
      var s: MockSocketConnection? := null;
      if isAuthenticated && account.Some? {
        var created := new MockSocketConnection();
        s := created.Connect(account.value);
        // The three event names differ in length, which shows the three registry keys distinct.
        assert |ConnectedEvent| == 9 && |DisconnectedEvent| == 12 && |NewMessageEvent| == 11;
        s.On(ConnectedEvent, ConnectedHandler);
        s.On(DisconnectedEvent, DisconnectedHandler);
        s.On(NewMessageEvent, NewMessageHandler);
      }
      owner := if isAuthenticated then account else None;
      user := if isAuthenticated then account else None;
      socket := s;
      isConnected := false;
      messages := [];
    }

    /** The provider's `sendMessage(receiverId, message)`: does nothing without a socket or
        user, so in particular nothing after sign-out, when the old socket is still held. */
    method SendMessage(receiverId: string, message: string)
      requires Valid()
      modifies socket
      ensures Valid()
      ensures socket != null ==>
        && socket.pending == old(socket.pending)
             + (if user.Some? then [DeliverMessage(Draft(user.value, receiverId, message))] else [])
        && socket.connected == old(socket.connected) && socket.userId == old(socket.userId)
    {
      if socket != null && user.Some? {
        socket.SendMessage(Draft(user.value, receiverId, message));
      }
    }

    /** The effect's cleanup: disconnects the socket, which keeps its listeners and timers. */
    method Cleanup()
      requires Valid()
      modifies socket
      ensures Valid()
      ensures socket != null ==> !socket.connected && socket.userId == None && socket.pending == old(socket.pending)
    {
      if socket != null {
        socket.Disconnect();
      }
    }

    /** Sign-out: `authState.user` becomes null, so the effect's cleanup disconnects the
        socket and the effect opens no new one; `socket` and the log are kept as they are. */
    method SignOut()
      requires Valid()
      modifies this, socket
      ensures Valid()
      ensures user == None && ViewOf() == old(ViewOf())
      ensures socket != null ==>
        && !socket.connected && socket.userId == None
        && socket.pending == old(socket.pending) && socket.listeners == old(socket.listeners)
    {
      Cleanup();
      user := None;
    }

    /** Runs the calls an emission makes, one after the other. */
    method Dispatch(calls: seq<Call>)
      modifies this
      ensures ViewOf() == HandleAll(old(ViewOf()), calls)
      ensures user == old(user)
    {
      for i := 0 to |calls|
        invariant ViewOf() == HandleAll(old(ViewOf()), calls[..i])
        invariant user == old(user)
      {
        assert calls[..i + 1][..i] == calls[..i];
        var v := Handle(ViewOf(), calls[i]);
        isConnected, messages := v.isConnected, v.messages;
      }
      assert calls[..|calls|] == calls;
    }

    /** The socket's timer `pending[k]` fires and its emission reaches the provider's handlers.
        A send step appends the completed message to the log; a reply step changes nothing. */
    method Tick(k: nat, env: Ambient)
      requires Valid() && socket != null
      requires k < |socket.pending| && ValidAmbient(env)
      modifies this, socket
      ensures Valid() && user == old(user)
      ensures socket.connected == old(socket.connected) && socket.userId == old(socket.userId)
      ensures socket.pending == old(socket.pending[..k] + socket.pending[k + 1..])
        + RunTask(old(socket.pending[k]), socket.userId, env).scheduled
      ensures old(socket.pending[k]).EmitConnected? ==> isConnected && messages == old(messages)
      ensures old(socket.pending[k]).DeliverMessage? ==>
        isConnected == old(isConnected) && messages == old(messages) + [FullMessage(old(socket.pending[k]).draft, env)]
      ensures old(socket.pending[k]).EmitReply? ==> ViewOf() == old(ViewOf())
    {
      var task := socket.pending[k];
      assert SentBy(task, owner.value);
      var out := RunTask(task, socket.userId, env);
      var calls := socket.Fire(k, env);
      if out.emitted.Some? {
        ProviderHandles(ViewOf(), out.emitted.value);
      }
      Dispatch(calls);
    }
  }

  /** A message sent just before the effect's cleanup still reaches the log when its
      timer fires, and the handshake still marks the provider connected although the
      socket is not: `disconnect` neither cancels timers nor removes listeners. */
  method DeliveredAfterCleanup(user: string, receiverId: string, text: string, env1: Ambient, env2: Ambient)
    returns (log: seq<Message>, socketConnected: bool, providerConnected: bool)
    requires ValidAmbient(env1) && ValidAmbient(env2)
    ensures log == [FullMessage(Draft(user, receiverId, text), env2)]
    ensures !socketConnected && providerConnected
  {
    var provider := new SocketProvider(true, Some(user));
    provider.SendMessage(receiverId, text);
    provider.Cleanup();
    provider.Tick(0, env1);
    provider.Tick(0, env2);
    socketConnected := provider.socket.IsConnected();
    providerConnected := provider.isConnected;
    log := provider.messages;
  }

  /** After sign-out the provider still holds the old socket, yet a send is dropped:
      only the absent user stops it, and the socket keeps just its handshake timer. */
  method SendAfterSignOutIsDropped(user: string, receiverId: string, text: string)
    returns (pending: seq<Task>, held: bool)
    ensures held && pending == [EmitConnected(user)]
  {
    var provider := new SocketProvider(true, Some(user));
    provider.SignOut();
    provider.SendMessage(receiverId, text);
    held := provider.socket != null;
    pending := provider.socket.pending;
  }
}
