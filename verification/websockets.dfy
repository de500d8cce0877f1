/**
 * The connection multiplexer: for every open WebSocket connection, the set
 * of channels it asked for, and the dispatch of the client's requests.
 * Each subscription registers a fresh callback in the channel registry; the
 * callback pushes a `notification` message to its connection while that
 * connection is open.
 *
 * As the code is written, unsubscribing and disconnecting edit only this
 * service's own map: the registry keeps the callbacks (see UnsubscribeClient
 * and HandleDisconnect).
 */
module WebSockets {
  import opened Wrappers
  import opened Values
  import opened Collections
  import opened Notifications

  /** An opaque handle on one client connection. */
  type ConnId = nat

  /** What a per-client callback is closed over: its connection and its channel. */
  datatype Closure = Closure(conn: ConnId, channel: string)

  /**
   * A decoded client request `{type, channel, payload}`. `kind` is None when
   * the decoded value has no `type`, as for a number, string, boolean or
   * array, which destructure without error.
   */
  datatype Request = Request(kind: Option<string>, channel: string, payload: Value)

  /** How a request's type reads inside a template string: an absent one as `undefined`. */
  function TypeText(kind: Option<string>): string {
    if kind.Some? then kind.value else "undefined"
  }

  /** The messages the server sends to a client. */
  datatype ServerMessage =
    | Connected(message: string, availableChannels: seq<string>)
    | Subscribed(channel: string, message: string)
    | Unsubscribed(channel: string, message: string)
    | Info(message: string)
    | Error(message: string)
    | Notification(channel: string, payload: Value)
    | Channels(subscribed: seq<string>, active: seq<string>)
    | Published(channel: string, message: string)

  /** Why a request handler threw. */
  datatype HandlerError = SubscribeFailed(subscribeError: SubscribeError) | PublishFailed(publishError: PublishError)

  /**
   * The outside world's part in one request: the client a first subscription
   * to a channel would use and whether it connects and LISTENs, and the
   * environment of a publish.
   */
  datatype Env = Env(client: ClientHandle, connectOk: bool, listenOk: bool, publish: PublishEnv)

  const Greeting: string := "Connected to notification server"
  const AvailableChannels: seq<string> := ["chat", "orders", "notifications", "system"]
  const InvalidFormat: string := "Invalid message format"
  const PublishedMessage: string := "Message published successfully"

  class WebSocketService {
    /** connection -> the channels it is subscribed to */
    var clientChannels: map<ConnId, set<string>>
    /** every callback created so far, with what it is closed over */
    var closures: map<CallbackId, Closure>
    /** the identity the next callback gets */
    var nextCallback: CallbackId
    /** the process-wide channel registry */
    const registry: NotificationService
    /** every connection that has closed; a closed socket never reopens */
    ghost var closed: set<ConnId>

    /**
     * The registry keeps its own invariant; callback identities are never
     * reused; every callback in the registry was made by this service for
     * the channel it is registered under; a connection with an entry is
     * not closed; and every channel in a connection's set is backed by a
     * registered callback that pushes to that connection.
     */
    ghost predicate Valid()
      reads this, registry
    {
      && registry.Valid()
      && (forall cb :: cb in closures ==> cb < nextCallback)
      && (forall ch, cb :: ch in registry.callbacks && cb in registry.callbacks[ch] ==>
            cb in closures && closures[cb].channel == ch)
      && (forall ws :: ws in clientChannels ==> ws !in closed)
      && (forall ws, ch :: ws in clientChannels && ch in clientChannels[ws] ==> Live(ws, ch) != {})
    }

    /** The callbacks in the registry that push to connection `ws` for channel `ch`. */
    ghost function Live(ws: ConnId, ch: string): set<CallbackId>
      reads this, registry
    {
      set cb | cb in registry.CallbacksFor(ch) && cb in closures && closures[cb] == Closure(ws, ch)
    }

    /** The registered callbacks for `ch` whose connection is open, by `isOpen`. */
    ghost function OpenSubscribers(ch: string, isOpen: ConnId -> bool): set<CallbackId>
      reads this, registry
    {
      set cb | cb in registry.CallbacksFor(ch) && cb in closures && isOpen(closures[cb].conn)
    }

    /** Nothing this service or the registry holds has changed. */
    twostate predicate StateUnchanged()
      reads this, registry
    {
      && clientChannels == old(clientChannels)
      && closures == old(closures)
      && nextCallback == old(nextCallback)
      && closed == old(closed)
      && registry.listeners == old(registry.listeners)
      && registry.callbacks == old(registry.callbacks)
    }

    constructor (registry: NotificationService)
      requires registry.Valid()
      requires forall ch :: ch in registry.callbacks ==> registry.callbacks[ch] == {}
      ensures Valid()
      ensures this.registry == registry
      ensures clientChannels == map[] && closures == map[] && nextCallback == 0 && closed == {}
    {
      this.registry := registry;
      clientChannels := map[];
      closures := map[];
      nextCallback := 0;
      closed := {};
    }

    /**
     * A new connection gets an empty channel set and a greeting listing
     * example channels. Every `connection` event brings a new socket, so
     * `ws` is neither a current nor a closed connection.
     */
    method OnConnection(ws: ConnId) returns (greeting: ServerMessage)
      requires Valid()
      requires ws !in clientChannels && ws !in closed
      modifies this
      ensures Valid()
      ensures clientChannels == old(clientChannels)[ws := {}]
      ensures closures == old(closures) && nextCallback == old(nextCallback) && closed == old(closed)
      ensures greeting == Connected(Greeting, AvailableChannels)
    {
      clientChannels := clientChannels[ws := {}];
      greeting := Connected(Greeting, AvailableChannels);
    }

    /** The effect of `subscribeClient(ws, channel)` with reply or error `r`. */
    twostate predicate SubscribeEffect(ws: ConnId, channel: string, env: Env, new r: Result<Option<ServerMessage>, HandlerError>)
      reads this, registry
    {
      if ws !in old(clientChannels) then
        r == Success(None) && StateUnchanged()
      else if channel in old(clientChannels)[ws] then
        r == Success(Some(Info("Already subscribed to " + channel))) && StateUnchanged()
      else
        var cb := old(nextCallback);
        && cb !in old(closures)
        && closures == old(closures)[cb := Closure(ws, channel)]
        && nextCallback == cb + 1
        && closed == old(closed)
        && if channel in old(registry.listeners) || (env.connectOk && env.listenOk) then
             && r == Success(Some(Subscribed(channel, "Successfully subscribed to " + channel)))
             && clientChannels == old(clientChannels)[ws := old(clientChannels)[ws] + {channel}]
             && registry.listeners == (if channel in old(registry.listeners) then old(registry.listeners)
                                       else old(registry.listeners)[channel := env.client])
             && registry.callbacks == old(registry.callbacks)[channel := old(registry.CallbacksFor(channel)) + {cb}]
           else
             && r == Failure(SubscribeFailed(if !env.connectOk then ConnectFailed else ListenFailed))
             && clientChannels == old(clientChannels)
             && registry.listeners == old(registry.listeners)
             && registry.callbacks == old(registry.callbacks)
    }

    /**
     * `subscribeClient(ws, channel)`: a connection without an entry is
     * ignored, a channel already in its set gets an `info` reply; otherwise
     * a fresh callback for (ws, channel) is registered, and only when the
     * registry accepts it does the channel join the connection's set.
     */
    method SubscribeClient(ws: ConnId, channel: string, env: Env) returns (r: Result<Option<ServerMessage>, HandlerError>)
      requires Valid()
      modifies this, registry
      ensures Valid()
      ensures SubscribeEffect(ws, channel, env, r)
      ensures r.Success? && ws in old(clientChannels) && channel !in old(clientChannels)[ws] ==>
        Live(ws, channel) == old(Live(ws, channel)) + {old(nextCallback)}
    {
      if ws !in clientChannels {
        return Success(None);
      }
      if channel in clientChannels[ws] {
        return Success(Some(Info("Already subscribed to " + channel)));
      }
      r := Register(ws, channel, env);
    }

    /** Creates the callback for (ws, channel) under the next fresh identity; the registry does not know it yet. */
    method NewCallback(ws: ConnId, channel: string) returns (cb: CallbackId)
      requires Valid()
      modifies this
      ensures Valid()
      ensures cb == old(nextCallback) && nextCallback == cb + 1
      ensures cb !in old(closures) && closures == old(closures)[cb := Closure(ws, channel)]
      ensures clientChannels == old(clientChannels) && closed == old(closed)
      ensures forall w, c :: Live(w, c) == old(Live(w, c))
    {
      cb := nextCallback;
      closures := closures[cb := Closure(ws, channel)];
      nextCallback := nextCallback + 1;
    }

    /**
     * The part of `subscribeClient` after its two guards: a fresh callback
     * is subscribed in the registry, and only on success does the channel
     * join the connection's set.
     */
    method Register(ws: ConnId, channel: string, env: Env) returns (r: Result<Option<ServerMessage>, HandlerError>)
      requires Valid()
      requires ws in clientChannels && channel !in clientChannels[ws]
      modifies this, registry
      ensures Valid()
      ensures SubscribeEffect(ws, channel, env, r)
      ensures r.Success? ==> Live(ws, channel) == old(Live(ws, channel)) + {old(nextCallback)}
    {
      var cb := NewCallback(ws, channel);
      var outcome := Listen(ws, channel, cb, env);
      if outcome.Fail? {
        return Failure(SubscribeFailed(outcome.error));
      }
      Join(ws, channel);
      r := Success(Some(Subscribed(channel, "Successfully subscribed to " + channel)));
    }

    /**
     * Hands callback `cb` of (ws, channel) to the registry. Registering a
     * callback only adds to what backs each connection's channels, and on
     * success `cb` itself backs (ws, channel).
     */
    method Listen(ws: ConnId, channel: string, cb: CallbackId, env: Env) returns (outcome: Outcome<SubscribeError>)
      requires Valid()
      requires cb in closures && closures[cb] == Closure(ws, channel)
      modifies registry
      ensures Valid()
      ensures outcome.Pass? <==> channel in old(registry.listeners) || (env.connectOk && env.listenOk)
      ensures outcome.Fail? ==>
        && outcome.error == (if !env.connectOk then ConnectFailed else ListenFailed)
        && registry.listeners == old(registry.listeners) && registry.callbacks == old(registry.callbacks)
      ensures outcome.Pass? ==>
        && registry.listeners == (if channel in old(registry.listeners) then old(registry.listeners)
                                  else old(registry.listeners)[channel := env.client])
        && registry.callbacks == old(registry.callbacks)[channel := old(registry.CallbacksFor(channel)) + {cb}]
        && Live(ws, channel) == old(Live(ws, channel)) + {cb}
    {
      outcome := registry.Subscribe(channel, cb, env.client, env.connectOk, env.listenOk);
      forall w, c | w in clientChannels && c in clientChannels[w] ensures Live(w, c) != {} {
        var x :| x in old(Live(w, c));
        assert x in Live(w, c);
      }
      if outcome.Pass? {
        forall x ensures x in Live(ws, channel) <==> x in old(Live(ws, channel)) || x == cb {
          if x != cb && x in Live(ws, channel) {
            assert x in old(registry.CallbacksFor(channel));
          }
        }
      }
    }

    /** Adds `channel` to the set of connection `ws`, which a registered callback already backs. */
    method Join(ws: ConnId, channel: string)
      requires Valid()
      requires ws in clientChannels && Live(ws, channel) != {}
      modifies this
      ensures Valid()
      ensures clientChannels == old(clientChannels)[ws := old(clientChannels)[ws] + {channel}]
      ensures closures == old(closures) && nextCallback == old(nextCallback) && closed == old(closed)
      ensures forall w, c :: Live(w, c) == old(Live(w, c))
    {
      clientChannels := clientChannels[ws := clientChannels[ws] + {channel}];
    }

    /** The effect of `unsubscribeClient(ws, channel)` with reply `reply`. */
    twostate predicate UnsubscribeEffect(ws: ConnId, channel: string, reply: ServerMessage)
      reads this, registry
    {
      && closures == old(closures)
      && nextCallback == old(nextCallback)
      && closed == old(closed)
      && registry.listeners == old(registry.listeners)
      && registry.callbacks == old(registry.callbacks)
      && if ws !in old(clientChannels) || channel !in old(clientChannels)[ws] then
           reply == Info("Not subscribed to " + channel) && clientChannels == old(clientChannels)
         else
           && reply == Unsubscribed(channel, "Successfully unsubscribed from " + channel)
           && clientChannels == old(clientChannels)[ws := old(clientChannels)[ws] - {channel}]
    }

    /**
     * `unsubscribeClient(ws, channel)`: removes the channel from the
     * connection's set only. The registry is not told, so every callback
     * that pushes to (ws, channel) stays registered.
     */
    method UnsubscribeClient(ws: ConnId, channel: string) returns (reply: ServerMessage)
      requires Valid()
      modifies this
      ensures Valid()
      ensures UnsubscribeEffect(ws, channel, reply)
      ensures Live(ws, channel) == old(Live(ws, channel))
    {
      if ws !in clientChannels || channel !in clientChannels[ws] {
        return Info("Not subscribed to " + channel);
      }
      clientChannels := clientChannels[ws := clientChannels[ws] - {channel}];
      reply := Unsubscribed(channel, "Successfully unsubscribed from " + channel);
    }

    /**
     * `handleDisconnect(ws)`, run on the socket's `close` event: forgets the
     * connection, which is now closed for good. The registry is not told,
     * so its callbacks for this connection stay registered.
     */
    method HandleDisconnect(ws: ConnId)
      requires Valid()
      modifies this
      ensures Valid()
      ensures clientChannels == old(clientChannels) - {ws}
      ensures closed == old(closed) + {ws}
      ensures closures == old(closures) && nextCallback == old(nextCallback)
      ensures registry.listeners == old(registry.listeners) && registry.callbacks == old(registry.callbacks)
      ensures forall ch :: Live(ws, ch) == old(Live(ws, ch))
    {
      if ws in clientChannels {
        clientChannels := clientChannels - {ws};
      }
      closed := closed + {ws};
    }

    /** The effect of `handleMessage(ws, req)` with reply or error `r`. */
    twostate predicate HandleEffect(ws: ConnId, req: Request, env: Env, new r: Result<Option<ServerMessage>, HandlerError>)
      reads this, registry
    {
      && (req.kind == Some("subscribe") ==> SubscribeEffect(ws, req.channel, env, r))
      && (req.kind == Some("unsubscribe") ==>
            r.Success? && r.value.Some? && UnsubscribeEffect(ws, req.channel, r.value.value))
      && (req.kind == Some("publish") ==>
            && StateUnchanged()
            && r == match Publish(req.channel, req.payload, env.publish)
                    case Success(_) => Success(Some(Published(req.channel, PublishedMessage)))
                    case Failure(e) => Failure(PublishFailed(e)))
      && (req.kind == Some("list") ==>
            && StateUnchanged()
            && r.Success? && r.value.Some? && r.value.value.Channels?
            && Distinct(r.value.value.subscribed)
            && (forall ch :: ch in r.value.value.subscribed <==> ws in clientChannels && ch in clientChannels[ws])
            && Distinct(r.value.value.active)
            && (forall ch :: ch in r.value.value.active <==> ch in registry.listeners))
      && (req.kind !in {Some("subscribe"), Some("unsubscribe"), Some("publish"), Some("list")} ==>
            StateUnchanged() && r == Success(Some(Error("Unknown message type: " + TypeText(req.kind)))))
    }

    /** `handleMessage(ws, req)`: dispatches on the request's type. */
    method HandleMessage(ws: ConnId, req: Request, env: Env) returns (r: Result<Option<ServerMessage>, HandlerError>)
      requires Valid()
      modifies this, registry
      ensures Valid()
      ensures HandleEffect(ws, req, env, r)
    {
      if req.kind == Some("subscribe") {
        r := SubscribeClient(ws, req.channel, env);
      } else if req.kind == Some("unsubscribe") {
        var reply := UnsubscribeClient(ws, req.channel);
        r := Success(Some(reply));
      } else if req.kind == Some("publish") {
        match Publish(req.channel, req.payload, env.publish)
        case Success(_) =>
          r := Success(Some(Published(req.channel, PublishedMessage)));
        case Failure(e) =>
          r := Failure(PublishFailed(e));
      } else if req.kind == Some("list") {
        var subscribed := Enumerate(if ws in clientChannels then clientChannels[ws] else {});
        var active := registry.GetActiveChannels();
        r := Success(Some(Channels(subscribed, active)));
      } else {
        r := Success(Some(Error("Unknown message type: " + TypeText(req.kind))));
      }
    }

    /**
     * The `message` event: a request that cannot be decoded (text that is
     * not JSON, or JSON `null`, which throws when destructured), or whose
     * handler throws, is answered with an `error` message; otherwise the
     * handler's own reply (if any) is sent.
     */
    method OnMessage(ws: ConnId, req: Option<Request>, env: Env)
      returns (reply: Option<ServerMessage>, ghost handled: Result<Option<ServerMessage>, HandlerError>)
      requires Valid()
      modifies this, registry
      ensures Valid()
      ensures req.None? ==> reply == Some(Error(InvalidFormat)) && StateUnchanged()
      ensures req.Some? ==> HandleEffect(ws, req.value, env, handled)
      ensures req.Some? ==> reply == if handled.Failure? then Some(Error(InvalidFormat)) else handled.value
    {
      if req.None? {
        handled := Success(None);
        return Some(Error(InvalidFormat)), handled;
      }
      var outcome := HandleMessage(ws, req.value, env);
      handled := outcome;
      reply := if outcome.Failure? then Some(Error(InvalidFormat)) else outcome.value;
    }

    /**
     * A notification arrives at the listener of `handlerChannel`: the
     * registry passes the decoded payload to each of the channel's
     * callbacks, and each callback sends a `notification` message to its
     * connection if that connection is open (`isOpen`), and otherwise
     * does nothing. `fired` lists the callbacks that sent, `sends` what
     * they sent and to whom. A closed socket is never open again, so no
     * notification reaches a closed connection.
     */
    method DeliverNotification(handlerChannel: string, msg: PgNotification, parse: string -> Option<Value>, isOpen: ConnId -> bool)
      returns (fired: seq<CallbackId>, sends: seq<(ConnId, ServerMessage)>)
      requires Valid()
      requires forall c :: isOpen(c) ==> c !in closed
      ensures !(msg.channel == handlerChannel && handlerChannel in registry.callbacks) ==> fired == [] && sends == []
      ensures Distinct(fired)
      ensures msg.channel == handlerChannel ==>
        && (forall cb :: cb in fired <==> cb in OpenSubscribers(handlerChannel, isOpen))
        && |fired| == |OpenSubscribers(handlerChannel, isOpen)|
      ensures |sends| == |fired|
      ensures forall i :: 0 <= i < |fired| ==>
        && fired[i] in closures
        && isOpen(closures[fired[i]].conn)
        && sends[i] == (closures[fired[i]].conn, Notification(handlerChannel, Decode(msg.payload, parse)))
      ensures forall i :: 0 <= i < |sends| ==> sends[i].0 !in closed
    {
      fired, sends := [], [];
      var d := registry.Deliver(handlerChannel, msg, parse);
      if d.None? {
        assert msg.channel == handlerChannel ==> OpenSubscribers(handlerChannel, isOpen) == {};
        return;
      }
      var targets := d.value.targets;
      var i := 0;
      while i < |targets|
        invariant 0 <= i <= |targets|
        invariant Distinct(fired)
        invariant forall cb :: cb in fired <==> cb in targets[..i] && cb in closures && isOpen(closures[cb].conn)
        invariant |sends| == |fired|
        invariant forall k :: 0 <= k < |fired| ==>
          && fired[k] in closures
          && isOpen(closures[fired[k]].conn)
          && sends[k] == (closures[fired[k]].conn, Notification(handlerChannel, d.value.payload))
      {
        var cb := targets[i];
        assert cb !in targets[..i];
        var k := closures[cb];
        if isOpen(k.conn) {
          fired := fired + [cb];
          sends := sends + [(k.conn, Notification(k.channel, d.value.payload))];
        }
        assert targets[..i + 1] == targets[..i] + [cb];
        i := i + 1;
      }
      assert targets[..i] == targets;
      ghost var open := OpenSubscribers(handlerChannel, isOpen);
      DistinctCardinality(fired, open);
    }
  }
}
