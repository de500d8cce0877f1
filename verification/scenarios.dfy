/**
 * Consequences of the multiplexer as written: unsubscribing and
 * disconnecting never remove the connection's callbacks from the registry.
 */
module Scenarios {
  import opened Wrappers
  import opened Values
  import opened Collections
  import opened Notifications
  import opened WebSockets

  /** A JSON parser that knows only the empty object, enough for these runs. */
  function ParseEmptyObject(text: string): Option<Value> {
    if text == "{}" then Some(Obj([])) else None
  }

  /** Every database and pool operation succeeds. */
  const AllSucceed: Env := Env(0, true, true, PublishEnv(v => "", Pass, Pass))

  /** Connection 1 connects and subscribes to "chat"; its callback gets identity 0. */
  method Subscribed() returns (relay: WebSocketService)
    ensures fresh(relay) && fresh(relay.registry)
    ensures relay.Valid()
    ensures relay.clientChannels == map[1 := {"chat"}]
    ensures relay.closures == map[0 := Closure(1, "chat")] && relay.nextCallback == 1
    ensures relay.closed == {}
    ensures relay.registry.listeners == map["chat" := AllSucceed.client]
    ensures relay.registry.callbacks == map["chat" := {0}]
  {
    var registry := new NotificationService();
    relay := new WebSocketService(registry);
    var _ := relay.OnConnection(1);
    assert relay.clientChannels == map[1 := {}] && relay.nextCallback == 0;
    var first := relay.SubscribeClient(1, "chat", AllSucceed);
    assert relay.clientChannels[1] == {"chat"} && relay.clientChannels.Keys == {1};
    assert registry.callbacks["chat"] == {0} && registry.callbacks.Keys == {"chat"};
  }

  /**
   * Connection 1 subscribes to "chat" and unsubscribes. Its callback stays
   * in the registry.
   */
  method SubscribedThenLeft() returns (relay: WebSocketService)
    ensures fresh(relay) && fresh(relay.registry)
    ensures relay.Valid()
    ensures relay.clientChannels == map[1 := {}]
    ensures relay.closures == map[0 := Closure(1, "chat")] && relay.nextCallback == 1
    ensures relay.closed == {}
    ensures relay.registry.callbacks == map["chat" := {0}]
  {
    relay := Subscribed();
    var left := relay.UnsubscribeClient(1, "chat");
    assert relay.clientChannels[1] == {} && relay.clientChannels.Keys == {1};
  }

  /**
   * Connection 1 subscribes to "chat", unsubscribes and subscribes again.
   * Its first callback is still registered next to the second, and both
   * belong to connection 1.
   */
  method Resubscribe() returns (relay: WebSocketService)
    ensures relay.Valid()
    ensures relay.registry.CallbacksFor("chat") == {0, 1}
    ensures relay.closures == map[0 := Closure(1, "chat"), 1 := Closure(1, "chat")]
    ensures relay.clientChannels == map[1 := {"chat"}]
    ensures relay.closed == {}
  {
    relay := SubscribedThenLeft();
    var second := relay.SubscribeClient(1, "chat", AllSucceed);
    assert relay.clientChannels[1] == {"chat"} && relay.clientChannels.Keys == {1};
    assert relay.registry.callbacks["chat"] == {0, 1};
  }

  /**
   * After `Resubscribe`, the next notification on "chat" is pushed to
   * connection 1 twice, once by each of its callbacks.
   */
  method ResubscribeDeliversTwice() returns (sends: seq<(ConnId, ServerMessage)>)
    ensures |sends| == 2
    ensures forall i :: 0 <= i < |sends| ==> sends[i] == (1, Notification("chat", Obj([])))
  {
    var relay := Resubscribe();
    var allOpen := (conn: ConnId) => true;
    ghost var open := relay.OpenSubscribers("chat", allOpen);
    assert open == {0, 1};
    assert |open| == 2 by { assert open == {0} + {1}; }
    var fired;
    fired, sends := relay.DeliverNotification("chat", PgNotification("chat", Some("{}")), ParseEmptyObject, allOpen);
  }

  /**
   * Connection 1 subscribes to "chat" and disconnects. The registry still
   * listens on "chat", and a later notification there reaches nobody,
   * because the closed connection's callback drops it.
   */
  method DisconnectKeepsChannelActive() returns (active: seq<string>, sends: seq<(ConnId, ServerMessage)>)
    ensures active == ["chat"]
    ensures sends == []
  {
    var relay := Subscribed();
    relay.HandleDisconnect(1);
    assert relay.registry.listeners.Keys == {"chat"};
    active := relay.registry.GetActiveChannels();
    assert "chat" in active;
    assert |active| == 1;
    var allClosed := (conn: ConnId) => false;
    assert relay.OpenSubscribers("chat", allClosed) == {};
    var fired;
    fired, sends := relay.DeliverNotification("chat", PgNotification("chat", None), ParseEmptyObject, allClosed);
  }
}
