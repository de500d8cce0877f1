/**
 * The channel registry: one listening database client per channel and the
 * set of callbacks that want that channel's notifications, plus the pure
 * rules for turning a payload into a NOTIFY command and a received
 * notification back into a payload.
 */
module Notifications {
  import opened Wrappers
  import opened Values
  import opened Collections
  import opened SqlLiteral

  /** An opaque handle on a dedicated listening database client. */
  type ClientHandle = nat

  /** The identity of a registered callback. */
  type CallbackId = nat

  datatype SubscribeError = ConnectFailed | ListenFailed

  /** Each failure of `publish` carries the message of the error it throws. */
  datatype PublishError =
    | PoolError(message: string)
    | UndefinedPayload(message: string)
    | NotifyError(message: string)

  /**
   * What the outside world contributes to one `publish` call: the JSON
   * encoder, and whether checking out a pooled client and running the
   * NOTIFY query succeed (with the driver's error message when not).
   */
  datatype PublishEnv = PublishEnv(stringify: Value -> string, pool: Outcome<string>, query: Outcome<string>)

  /** A notification as the database driver hands it over; the payload may be absent. */
  datatype PgNotification = PgNotification(channel: string, payload: Option<string>)

  /** One fan-out: the decoded payload and the callbacks it is passed to, in call order. */
  datatype Dispatch = Dispatch(payload: Value, targets: seq<CallbackId>)

  const EmptyObjectText: string := "{}"

  /** The TypeError thrown when `.replace` is called on the `undefined` that JSON.stringify returns for `undefined`. */
  const ReplaceOnUndefined: string := "Cannot read properties of undefined (reading 'replace')"

  /** The text `publish` sends: a string as it is, anything else through JSON.stringify (which has no text for `undefined`). */
  function Serialise(payload: Value, stringify: Value -> string): Option<string> {
    match payload
    case Str(s) => Some(s)
    case Undefined => None
    case _ => Some(stringify(payload))
  }

  /** Everything of a NOTIFY command before its payload constant. The channel name is not quoted. */
  function NotifyPrefix(channel: string): string {
    "NOTIFY " + channel + ", "
  }

  /**
   * `publish(channel, payload)`: checks out a pooled client, serialises the
   * payload, doubles its quotes and issues `NOTIFY channel, '<text>'`.
   * On success the result is the command text sent.
   */
  function Publish(channel: string, payload: Value, env: PublishEnv): (r: Result<string, PublishError>)
    ensures env.pool.Fail? ==> r == Failure(PoolError(env.pool.error))
    ensures env.pool.Pass? && payload.Undefined? ==> r == Failure(UndefinedPayload(ReplaceOnUndefined))
    ensures env.pool.Pass? && !payload.Undefined? && env.query.Fail? ==> r == Failure(NotifyError(env.query.error))
    ensures r.Success? <==> env.pool.Pass? && !payload.Undefined? && env.query.Pass?
    ensures r.Success? ==>
      && NotifyPrefix(channel) <= r.value
      && ReadLiteral(r.value[|NotifyPrefix(channel)|..]) == Some((Serialise(payload, env.stringify).value, ""))
    ensures r.Success? && payload.Str? ==> ReadLiteral(r.value[|NotifyPrefix(channel)|..]) == Some((payload.s, ""))
  {
    if env.pool.Fail? then Failure(PoolError(env.pool.error))
    else
      match Serialise(payload, env.stringify)
      case None => Failure(UndefinedPayload(ReplaceOnUndefined))
      case Some(text) =>
        if env.query.Fail? then Failure(NotifyError(env.query.error))
        else
          var literal := [Quote] + Escape(text) + [Quote];
          var command := NotifyPrefix(channel) + literal;
          LiteralRoundTrip(text, "");
          assert literal + "" == literal;
          assert command[|NotifyPrefix(channel)|..] == literal;
          Success(command)
  }

  /**
   * The payload handed to the callbacks: the notification's text (or "{}"
   * when it is absent or empty) parsed as JSON, or, when parsing fails,
   * an object whose `message` is the raw text.
   */
  function Decode(raw: Option<string>, parse: string -> Option<Value>): (v: Value)
    ensures raw.Some? && raw.value != "" && parse(raw.value).Some? ==> v == parse(raw.value).value
    ensures raw.Some? && raw.value != "" && parse(raw.value).None? ==> Field(v, "message") == Str(raw.value)
    ensures (raw.None? || raw.value == "") && parse(EmptyObjectText) == Some(Obj([])) ==> v == Obj([])
  {
    var text := if raw.Some? && raw.value != "" then raw.value else EmptyObjectText;
    match parse(text)
    case Some(parsed) => parsed
    case None => Obj([("message", if raw.Some? then Str(raw.value) else Undefined)])
  }

  class NotificationService {
    /** channel -> the client listening on it */
    var listeners: map<string, ClientHandle>
    /** channel -> the callbacks registered for it */
    var callbacks: map<string, set<CallbackId>>

    /** Both maps always have the same channels. */
    ghost predicate Valid()
      reads this
    {
      listeners.Keys == callbacks.Keys
    }

    /** The callbacks registered for `channel`, none if it has no entry. */
    function CallbacksFor(channel: string): set<CallbackId>
      reads this
    {
      if channel in callbacks then callbacks[channel] else {}
    }

    constructor ()
      ensures Valid()
      ensures listeners == map[] && callbacks == map[]
    {
      listeners := map[];
      callbacks := map[];
    }

    /**
     * `subscribe(channel, cb)`. A channel without a listener first gets a
     * client (`client`), which must connect and LISTEN; only then are the
     * client and an empty callback set stored. Then `cb` joins the set.
     */
    method Subscribe(channel: string, cb: CallbackId, client: ClientHandle, connectOk: bool, listenOk: bool)
      returns (r: Outcome<SubscribeError>)
      requires Valid()
      modifies this
      ensures Valid()
      ensures r.Pass? <==> channel in old(listeners) || (connectOk && listenOk)
      ensures r.Fail? ==>
        && r.error == (if !connectOk then ConnectFailed else ListenFailed)
        && listeners == old(listeners) && callbacks == old(callbacks)
      ensures r.Pass? ==>
        && listeners == (if channel in old(listeners) then old(listeners) else old(listeners)[channel := client])
        && callbacks == old(callbacks)[channel := old(CallbacksFor(channel)) + {cb}]
      ensures channel in old(listeners) ==> listeners == old(listeners)
      ensures cb in old(CallbacksFor(channel)) ==> listeners == old(listeners) && callbacks == old(callbacks)
    {
      if channel !in listeners {
        if !connectOk {
          return Fail(ConnectFailed);
        }
        if !listenOk {
          return Fail(ListenFailed);
        }
        listeners := listeners[channel := client];
        callbacks := callbacks[channel := {}];
      }
      if channel in callbacks {
        if cb in callbacks[channel] {
          assert callbacks[channel] + {cb} == callbacks[channel];
          assert callbacks[channel := callbacks[channel]] == callbacks;
        }
        callbacks := callbacks[channel := callbacks[channel] + {cb}];
      }
      r := Pass;
    }

    /**
     * `unsubscribe(channel, cb)` drops `cb` and closes the listener once the
     * set is empty; `unsubscribe(channel)` (cb None) closes it outright.
     * `unlistenOk` and `endOk` are the outcomes of UNLISTEN and `end`.
     */
    method Unsubscribe(channel: string, cb: Option<CallbackId>, unlistenOk: bool, endOk: bool)
      requires Valid()
      modifies this
      ensures Valid()
      ensures cb.Some? && channel !in old(callbacks) ==> listeners == old(listeners) && callbacks == old(callbacks)
      ensures cb.Some? && channel in old(callbacks) ==>
        var left := old(callbacks)[channel] - {cb.value};
        if left == {} && unlistenOk && endOk then
          listeners == old(listeners) - {channel} && callbacks == old(callbacks) - {channel}
        else
          listeners == old(listeners) && callbacks == old(callbacks)[channel := left]
      ensures cb.None? ==>
        if channel in old(listeners) && unlistenOk && endOk then
          listeners == old(listeners) - {channel} && callbacks == old(callbacks) - {channel}
        else
          listeners == old(listeners) && callbacks == old(callbacks)
    {
      if cb.Some? {
        if channel in callbacks {
          callbacks := callbacks[channel := callbacks[channel] - {cb.value}];
          if callbacks[channel] == {} {
            CloseListener(channel, unlistenOk, endOk);
          }
        }
      } else {
        CloseListener(channel, unlistenOk, endOk);
      }
    }

    /**
     * `closeListener(channel)`: UNLISTEN, end the client, then forget the
     * channel in both maps. A failure is swallowed and leaves both maps as
     * they were; a channel without a listener is left alone.
     */
    method CloseListener(channel: string, unlistenOk: bool, endOk: bool)
      requires Valid()
      modifies this
      ensures Valid()
      ensures channel in old(listeners) && unlistenOk && endOk ==>
        listeners == old(listeners) - {channel} && callbacks == old(callbacks) - {channel}
      ensures !(channel in old(listeners) && unlistenOk && endOk) ==>
        listeners == old(listeners) && callbacks == old(callbacks)
    {
      if channel in listeners {
        if unlistenOk && endOk {
          listeners := listeners - {channel};
          callbacks := callbacks - {channel};
        }
      }
    }

    /**
     * `closeAll()`: closes the listener of every channel; exactly the
     * channels in `failing` fail to close and keep their entries.
     */
    method CloseAll(failing: set<string>)
      requires Valid()
      modifies this
      ensures Valid()
      ensures listeners == map ch | ch in old(listeners) && ch in failing :: old(listeners)[ch]
      ensures callbacks == map ch | ch in old(callbacks) && ch in failing :: old(callbacks)[ch]
    {
      var pending := listeners.Keys;
      while pending != {}
        invariant Valid()
        invariant pending <= old(listeners).Keys
        invariant listeners == map ch | ch in old(listeners) && (ch in pending || ch in failing) :: old(listeners)[ch]
        invariant callbacks == map ch | ch in old(callbacks) && (ch in pending || ch in failing) :: old(callbacks)[ch]
        decreases pending
      {
        var ch :| ch in pending;
        CloseListener(ch, ch !in failing, true);
        pending := pending - {ch};
      }
    }

    /** `getActiveChannels()`: every channel that has a listener, once each. */
    method GetActiveChannels() returns (active: seq<string>)
      requires Valid()
      ensures Distinct(active)
      ensures forall ch :: ch in active <==> ch in listeners
      ensures forall ch :: ch in active <==> ch in callbacks
      ensures |active| == |listeners|
    {
      active := Enumerate(listeners.Keys);
    }

    /**
     * The notification handler installed on the listener of
     * `handlerChannel`: a notification for that channel, when the channel
     * still has a callback set, is decoded once and passed to every
     * callback in the set, each exactly once.
     */
    method Deliver(handlerChannel: string, msg: PgNotification, parse: string -> Option<Value>)
      returns (d: Option<Dispatch>)
      ensures d.Some? <==> msg.channel == handlerChannel && handlerChannel in callbacks
      ensures d.Some? ==> d.value.payload == Decode(msg.payload, parse)
      ensures d.Some? ==>
        && Distinct(d.value.targets)
        && (forall cb :: cb in d.value.targets <==> cb in callbacks[handlerChannel])
        && |d.value.targets| == |callbacks[handlerChannel]|
    {
      d := None;
      if msg.channel == handlerChannel && handlerChannel in callbacks {
        var payload := Decode(msg.payload, parse);
        var targets := Enumerate(callbacks[handlerChannel]);
        d := Some(Dispatch(payload, targets));
      }
    }
  }
}
