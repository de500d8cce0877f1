/**
 * The HTTP handlers under /api/notifications: each checks its required
 * fields for truthiness, fills in defaults, picks a channel and forwards to
 * `publish`, or reports the registry's active channels.
 */
module Routes {
  import opened Wrappers
  import opened Values
  import opened Collections
  import opened Notifications

  datatype HttpResponse = HttpResponse(status: nat, body: Value)

  /** A handler's response and the `publish(channel, payload)` call it made, if it made one. */
  datatype Handled = Handled(response: HttpResponse, forwarded: Option<(string, Value)>)

  function BadRequest(error: string): HttpResponse {
    HttpResponse(400, Obj([("error", Str(error))]))
  }

  /** The 200 body of the chat, order and system handlers: `{success: true, message, payload}`. */
  function SentReply(message: string, payload: Value): (v: Value)
    ensures Field(v, "success") == Bool(true)
    ensures Field(v, "message") == Str(message)
    ensures Field(v, "payload") == payload
  {
    var reply := [("success", Bool(true)), ("message", Str(message)), ("payload", payload)];
    LookupDistinct(reply);
    assert reply[0].0 == "success" && reply[1].0 == "message" && reply[2].0 == "payload";
    Obj(reply)
  }

  /** The chat payload `{user, message, room, timestamp}`; the room defaults to "general" when falsy. */
  function ChatPayload(user: Value, message: Value, room: Value, now: string): (p: Value)
    ensures Field(p, "user") == user && Field(p, "message") == message
    ensures Field(p, "room") == (if Truthy(room) then room else Str("general"))
    ensures Field(p, "timestamp") == Str(now)
  {
    var fields := [("user", user), ("message", message), ("room", Or(room, Str("general"))), ("timestamp", Str(now))];
    LookupDistinct(fields);
    assert fields[0].0 == "user" && fields[1].0 == "message" && fields[2].0 == "room" && fields[3].0 == "timestamp";
    Obj(fields)
  }

  /** The order payload `{orderId, status, customerId, details, timestamp}`. */
  function OrderPayload(orderId: Value, status: Value, customerId: Value, details: Value, now: string): (p: Value)
    ensures Field(p, "orderId") == orderId && Field(p, "status") == status
    ensures Field(p, "customerId") == customerId && Field(p, "details") == details
    ensures Field(p, "timestamp") == Str(now)
  {
    var fields := [("orderId", orderId), ("status", status), ("customerId", customerId),
                   ("details", details), ("timestamp", Str(now))];
    LookupDistinct(fields);
    assert fields[0].0 == "orderId" && fields[1].0 == "status" && fields[2].0 == "customerId";
    assert fields[3].0 == "details" && fields[4].0 == "timestamp";
    Obj(fields)
  }

  /** The system payload `{type, message, severity, metadata, timestamp}`; the severity defaults to "info" when falsy. */
  function SystemPayload(kind: Value, message: Value, severity: Value, metadata: Value, now: string): (p: Value)
    ensures Field(p, "type") == kind && Field(p, "message") == message
    ensures Field(p, "severity") == (if Truthy(severity) then severity else Str("info"))
    ensures Field(p, "metadata") == metadata && Field(p, "timestamp") == Str(now)
  {
    var fields := [("type", kind), ("message", message), ("severity", Or(severity, Str("info"))),
                   ("metadata", metadata), ("timestamp", Str(now))];
    LookupDistinct(fields);
    assert fields[0].0 == "type" && fields[1].0 == "message" && fields[2].0 == "severity";
    assert fields[3].0 == "metadata" && fields[4].0 == "timestamp";
    Obj(fields)
  }

  /** Calls `publish(channel, payload)`; 200 with `success` on success, 500 with `failure` and the error's message otherwise. */
  function Forward(channel: string, payload: Value, env: PublishEnv, success: Value, failure: string): Handled {
    match Publish(channel, payload, env)
    case Success(_) => Handled(HttpResponse(200, success), Some((channel, payload)))
    case Failure(e) =>
      var body := [("error", Str(failure)), ("details", Str(e.message))];
      LookupDistinct(body);
      assert body[0].0 == "error" && body[1].0 == "details";
      Handled(HttpResponse(500, Obj(body)), Some((channel, payload)))
  }

  /** `h` published `payload` on `channel` and answers 200 exactly when that publish succeeded, 500 otherwise. */
  predicate PublishedAs(h: Handled, channel: string, payload: Value, env: PublishEnv) {
    && h.forwarded == Some((channel, payload))
    && (h.response.status == 200 <==> Publish(channel, payload, env).Success?)
    && (h.response.status == 500 <==> Publish(channel, payload, env).Failure?)
    && (Publish(channel, payload, env).Failure? ==>
          Field(h.response.body, "details") == Str(Publish(channel, payload, env).error.message))
  }

  /** POST /publish {channel, payload}: the payload defaults to {} when falsy; the reply echoes the payload as sent in. */
  function PublishRoute(channel: Option<string>, payload: Value, env: PublishEnv): (h: Handled)
    ensures h.forwarded.None? <==> channel.None? || channel.value == ""
    ensures h.forwarded.None? ==> h.response == BadRequest("Channel is required")
    ensures h.forwarded.Some? ==> PublishedAs(h, channel.value, if Truthy(payload) then payload else Obj([]), env)
    ensures h.response.status == 200 ==>
      Field(h.response.body, "channel") == Str(channel.value) && Field(h.response.body, "payload") == payload
  {
    if channel.None? || channel.value == "" then
      Handled(BadRequest("Channel is required"), None)
    else
      var ch := channel.value;
      var reply := [("success", Bool(true)), ("message", Str("Notification published to " + ch)),
                    ("channel", Str(ch)), ("payload", payload)];
      LookupDistinct(reply);
      assert reply[0].0 == "success" && reply[1].0 == "message" && reply[2].0 == "channel" && reply[3].0 == "payload";
      Forward(ch, Or(payload, Obj([])), env, Obj(reply), "Failed to publish notification")
  }

  /** POST /chat {user, message, room}: publishes on "chat"; the room defaults to "general". */
  function ChatRoute(user: Value, message: Value, room: Value, now: string, env: PublishEnv): (h: Handled)
    ensures h.forwarded.None? <==> !Truthy(user) || !Truthy(message)
    ensures h.forwarded.None? ==> h.response == BadRequest("User and message are required")
    ensures h.forwarded.Some? ==>
      var p := h.forwarded.value.1;
      && PublishedAs(h, "chat", p, env)
      && Field(p, "user") == user && Field(p, "message") == message
      && Field(p, "room") == (if Truthy(room) then room else Str("general"))
      && Field(p, "timestamp") == Str(now)
    ensures h.response.status == 200 ==> Field(h.response.body, "payload") == h.forwarded.value.1
  {
    if !Truthy(user) || !Truthy(message) then
      Handled(BadRequest("User and message are required"), None)
    else
      var payload := ChatPayload(user, message, room, now);
      Forward("chat", payload, env, SentReply("Chat message sent", payload), "Failed to send chat message")
  }

  /** POST /order {orderId, status, customerId, details}: publishes on "orders". */
  function OrderRoute(orderId: Value, status: Value, customerId: Value, details: Value, now: string, env: PublishEnv): (h: Handled)
    ensures h.forwarded.None? <==> !Truthy(orderId) || !Truthy(status)
    ensures h.forwarded.None? ==> h.response == BadRequest("Order ID and status are required")
    ensures h.forwarded.Some? ==>
      var p := h.forwarded.value.1;
      && PublishedAs(h, "orders", p, env)
      && Field(p, "orderId") == orderId && Field(p, "status") == status
      && Field(p, "customerId") == customerId && Field(p, "details") == details
      && Field(p, "timestamp") == Str(now)
    ensures h.response.status == 200 ==> Field(h.response.body, "payload") == h.forwarded.value.1
  {
    if !Truthy(orderId) || !Truthy(status) then
      Handled(BadRequest("Order ID and status are required"), None)
    else
      var payload := OrderPayload(orderId, status, customerId, details, now);
      Forward("orders", payload, env, SentReply("Order update sent", payload), "Failed to send order update")
  }

  /** POST /system {type, message, severity, metadata}: publishes on "system"; the severity defaults to "info". */
  function SystemRoute(kind: Value, message: Value, severity: Value, metadata: Value, now: string, env: PublishEnv): (h: Handled)
    ensures h.forwarded.None? <==> !Truthy(kind) || !Truthy(message)
    ensures h.forwarded.None? ==> h.response == BadRequest("Type and message are required")
    ensures h.forwarded.Some? ==>
      var p := h.forwarded.value.1;
      && PublishedAs(h, "system", p, env)
      && Field(p, "type") == kind && Field(p, "message") == message
      && Field(p, "severity") == (if Truthy(severity) then severity else Str("info"))
      && Field(p, "metadata") == metadata
      && Field(p, "timestamp") == Str(now)
    ensures h.response.status == 200 ==> Field(h.response.body, "payload") == h.forwarded.value.1
  {
    if !Truthy(kind) || !Truthy(message) then
      Handled(BadRequest("Type and message are required"), None)
    else
      var payload := SystemPayload(kind, message, severity, metadata, now);
      Forward("system", payload, env, SentReply("System notification sent", payload), "Failed to send system notification")
  }

  /** GET /channels: the registry's active channels, each once, and how many there are. */
  method ChannelsRoute(registry: NotificationService) returns (r: HttpResponse)
    requires registry.Valid()
    ensures r.status == 200
    ensures Field(r.body, "channels").Arr?
    ensures var names := Field(r.body, "channels").items;
      && Distinct(names)
      && (forall v :: v in names <==> v.Str? && v.s in registry.listeners)
      && Field(r.body, "count") == Num(|names|)
      && |names| == |registry.listeners|
  {
    var active := registry.GetActiveChannels();
    var names := seq(|active|, i requires 0 <= i < |active| => Str(active[i]));
    assert forall v :: v in names <==> v.Str? && v.s in active by {
      forall v ensures v in names <==> v.Str? && v.s in active {
        if v.Str? && v.s in active {
          var i :| 0 <= i < |active| && active[i] == v.s;
          assert names[i] == v;
        }
      }
    }
    assert Distinct(names) by {
      forall i, j | 0 <= i < j < |names| ensures names[i] != names[j] {
        assert active[i] != active[j];
      }
    }
    var body := [("channels", Arr(names)), ("count", Num(|active|))];
    LookupDistinct(body);
    assert Field(Obj(body), "channels") == Arr(names) by { assert body[0].0 == "channels"; }
    assert Field(Obj(body), "count") == Num(|active|) by { assert body[1].0 == "count"; }
    r := HttpResponse(200, Obj(body));
  }
}
