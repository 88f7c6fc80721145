/** The listener registry and the dispatch of one frame, as functions.
    Callbacks are opaque ids; a callback that throws is given by the input
    predicate `fails` on the call it is handed. What the dispatcher does is
    recorded as a trace of the calls made, in order; the call that throws is
    in the trace (it ran) and nothing after it is. */
module Dispatch {
  import opened Models
  import opened Urls

  type ListenerId = nat

  /** One callback invocation: a channel listener handed a chat message, or
      a global listener handed an event. */
  datatype Delivery =
    | MessageDelivery(listener: ListenerId, msg: Message)
    | EventDelivery(listener: ListenerId, event: WebSocketEvent)

  /** The calls made, and whether one of them threw. */
  datatype Fanout = Fanout(trace: seq<Delivery>, faulted: bool)

  /** The index of the first call that throws, or the number of calls when
      none does. */
  function FirstFault(calls: seq<Delivery>, fails: Delivery -> bool): (k: nat)
    ensures k <= |calls|
    ensures forall j :: 0 <= j < k ==> !fails(calls[j])
    ensures k < |calls| ==> fails(calls[k])
    decreases |calls|
  {
    if calls == [] then 0
    else if fails(calls[0]) then 0
    else 1 + FirstFault(calls[1..], fails)
  }

  /** Any index with no throwing call before it and a throwing call (or the
      end) at it is the first fault. */
  lemma FirstFaultUnique(calls: seq<Delivery>, fails: Delivery -> bool, k: nat)
    requires k <= |calls|
    requires forall j :: 0 <= j < k ==> !fails(calls[j])
    requires k < |calls| ==> fails(calls[k])
    ensures FirstFault(calls, fails) == k
  {
  }

  /** `forEach` over planned calls with no exception handling inside: the calls
      run in order, and the first one that throws ends the loop. */
  function RunAll(calls: seq<Delivery>, fails: Delivery -> bool): (r: Fanout)
    ensures |r.trace| <= |calls| && r.trace == calls[..|r.trace|]
    ensures r.faulted ==> |r.trace| > 0 && fails(calls[|r.trace| - 1])
    ensures forall i :: 0 <= i < |r.trace| - 1 ==> !fails(calls[i])
    ensures !r.faulted ==> r.trace == calls && forall i :: 0 <= i < |calls| ==> !fails(calls[i])
  {
    var k := FirstFault(calls, fails);
    if k < |calls| then Fanout(calls[..k + 1], true) else Fanout(calls, false)
  }

  /** Running two lists of calls back to back inside one `try`: the second
      list runs only when the first did not throw. */
  lemma RunAllAppend(a: seq<Delivery>, b: seq<Delivery>, fails: Delivery -> bool)
    ensures RunAll(a + b, fails)
         == (var ra := RunAll(a, fails);
             if ra.faulted then ra
             else var rb := RunAll(b, fails); Fanout(a + rb.trace, rb.faulted))
  {
    var ab := a + b;
    var ka := FirstFault(a, fails);
    if ka < |a| {
      assert forall j :: 0 <= j <= ka ==> ab[j] == a[j];
      FirstFaultUnique(ab, fails, ka);
      assert ab[..ka + 1] == a[..ka + 1];
    } else {
      var kb := FirstFault(b, fails);
      assert forall j :: |a| <= j < |ab| ==> ab[j] == b[j - |a|];
      assert forall j :: 0 <= j < |a| ==> ab[j] == a[j];
      FirstFaultUnique(ab, fails, |a| + kb);
      if kb < |b| {
        assert ab[..|a| + kb + 1] == a + b[..kb + 1];
      }
    }
  }

  /** `forEach` as the Java code runs it: one call per element, in order;
      an exception thrown by a call leaves the loop at once. */
  method Deliver(calls: seq<Delivery>, fails: Delivery -> bool) returns (trace: seq<Delivery>, faulted: bool)
    ensures Fanout(trace, faulted) == RunAll(calls, fails)
  {
    trace, faulted := [], false;
    var i := 0;
    while i < |calls|
      invariant 0 <= i <= |calls|
      invariant trace == calls[..i]
      invariant forall j :: 0 <= j < i ==> !fails(calls[j])
    {
      trace := trace + [calls[i]];
      if fails(calls[i]) {
        faulted := true;
        FirstFaultUnique(calls, fails, i);
        return;
      }
      i := i + 1;
    }
    assert calls[..i] == calls;
    FirstFaultUnique(calls, fails, i);
  }

  /** The calls made for a message handed to a channel's listeners. */
  function ChannelCalls(listeners: seq<ListenerId>, msg: Message): seq<Delivery> {
    seq(|listeners|, i requires 0 <= i < |listeners| => MessageDelivery(listeners[i], msg))
  }

  /** The calls made for an event handed to the global listeners. */
  function GlobalCalls(listeners: seq<ListenerId>, event: WebSocketEvent): seq<Delivery> {
    seq(|listeners|, i requires 0 <= i < |listeners| => EventDelivery(listeners[i], event))
  }

  /** Handing a message to two lists of listeners joined is handing it to
      the first list, then to the second. */
  lemma ChannelCallsAppend(a: seq<ListenerId>, b: seq<ListenerId>, msg: Message)
    ensures ChannelCalls(a + b, msg) == ChannelCalls(a, msg) + ChannelCalls(b, msg)
  {
    assert |ChannelCalls(a + b, msg)| == |ChannelCalls(a, msg) + ChannelCalls(b, msg)|;
    forall i | 0 <= i < |a + b|
      ensures ChannelCalls(a + b, msg)[i] == (ChannelCalls(a, msg) + ChannelCalls(b, msg))[i]
    {
      if i >= |a| {
        assert (a + b)[i] == b[i - |a|];
      }
    }
  }

  /** The same for an event handed to the global listeners. */
  lemma GlobalCallsAppend(a: seq<ListenerId>, b: seq<ListenerId>, event: WebSocketEvent)
    ensures GlobalCalls(a + b, event) == GlobalCalls(a, event) + GlobalCalls(b, event)
  {
    assert |GlobalCalls(a + b, event)| == |GlobalCalls(a, event) + GlobalCalls(b, event)|;
    forall i | 0 <= i < |a + b|
      ensures GlobalCalls(a + b, event)[i] == (GlobalCalls(a, event) + GlobalCalls(b, event))[i]
    {
      if i >= |a| {
        assert (a + b)[i] == b[i - |a|];
      }
    }
  }

  // ---------------------------------------------------------------------
  // Listener registry

  /** `messageListeners`: channel name to the channel's callbacks, in
      registration order. */
  type Channels = map<string, seq<ListenerId>>

  /** The callbacks of a channel; a channel with no list has none. */
  function Lookup(channels: Channels, channel: string): seq<ListenerId> {
    if channel in channels then channels[channel] else []
  }

  /** `computeIfAbsent(channel, k -> new ArrayList<>()).add(listener)`. */
  function Subscribe(channels: Channels, channel: string, listener: ListenerId): (r: Channels)
    ensures Lookup(r, channel) == Lookup(channels, channel) + [listener]
    ensures forall other :: other != channel ==> Lookup(r, other) == Lookup(channels, other)
    ensures r.Keys == channels.Keys + {channel}
  {
    channels[channel := Lookup(channels, channel) + [listener]]
  }

  /** A newly added listener runs after the listeners the channel already
      had, and a newly added global listener after the earlier globals. */
  lemma SubscribeRunsNewListenerLast(channels: Channels, globals: seq<ListenerId>, channel: string,
                                     listener: ListenerId, msg: Message, event: WebSocketEvent)
    ensures ChannelCalls(Lookup(Subscribe(channels, channel, listener), channel), msg)
         == ChannelCalls(Lookup(channels, channel), msg) + [MessageDelivery(listener, msg)]
    ensures GlobalCalls(globals + [listener], event) == GlobalCalls(globals, event) + [EventDelivery(listener, event)]
  {
    ChannelCallsAppend(Lookup(channels, channel), [listener], msg);
    GlobalCallsAppend(globals, [listener], event);
  }

  /** A sequence of `addMessageListener` calls, first to last. */
  function SubscribeAll(channels: Channels, registrations: seq<(string, ListenerId)>): Channels
    decreases |registrations|
  {
    if registrations == [] then channels
    else SubscribeAll(Subscribe(channels, registrations[0].0, registrations[0].1), registrations[1..])
  }

  /** The listeners registered for `channel` in a sequence of registrations,
      in order, duplicates kept. */
  function ListenersFor(registrations: seq<(string, ListenerId)>, channel: string): seq<ListenerId>
    decreases |registrations|
  {
    if registrations == [] then []
    else (if registrations[0].0 == channel then [registrations[0].1] else [])
         + ListenersFor(registrations[1..], channel)
  }

  /** Every listener found for a channel comes from a registration for that
      channel, at most one per registration. */
  lemma {:induction false} ListenersForRegistered(registrations: seq<(string, ListenerId)>, channel: string)
    ensures |ListenersFor(registrations, channel)| <= |registrations|
    ensures forall l :: l in ListenersFor(registrations, channel) ==> (channel, l) in registrations
    decreases |registrations|
  {
    if registrations != [] {
      var rest := registrations[1..];
      ListenersForRegistered(rest, channel);
      forall l | l in ListenersFor(registrations, channel) ensures (channel, l) in registrations {
        if l !in ListenersFor(rest, channel) {
          assert registrations[0] == (channel, l);
        } else {
          assert (channel, l) in rest;
        }
      }
    }
  }

  /** The channels that have a list after a sequence of registrations are
      the old ones plus every channel registered for, and no other. */
  lemma {:induction false} SubscribeAllKeys(channels: Channels, registrations: seq<(string, ListenerId)>)
    ensures SubscribeAll(channels, registrations).Keys
         == channels.Keys + set i | 0 <= i < |registrations| :: registrations[i].0
    decreases |registrations|
  {
    if registrations != [] {
      var rest := registrations[1..];
      SubscribeAllKeys(Subscribe(channels, registrations[0].0, registrations[0].1), rest);
      var all := set i | 0 <= i < |registrations| :: registrations[i].0;
      var later := set i | 0 <= i < |rest| :: rest[i].0;
      forall c | c in all ensures c in {registrations[0].0} + later {
        var i :| 0 <= i < |registrations| && registrations[i].0 == c;
        if i > 0 {
          assert rest[i - 1].0 == c;
        }
      }
      forall c | c in later ensures c in all {
        var i :| 0 <= i < |rest| && rest[i].0 == c;
        assert registrations[i + 1].0 == c;
      }
      assert all == {registrations[0].0} + later;
    }
  }

  /** After any sequence of registrations, a channel's list is its old list
      followed by exactly the callbacks registered for that channel, in
      registration order; registrations for other channels leave it alone. */
  lemma {:induction false} SubscribeAllLookup(channels: Channels, registrations: seq<(string, ListenerId)>, channel: string)
    ensures Lookup(SubscribeAll(channels, registrations), channel)
         == Lookup(channels, channel) + ListenersFor(registrations, channel)
    decreases |registrations|
  {
    if registrations != [] {
      var next := Subscribe(channels, registrations[0].0, registrations[0].1);
      SubscribeAllLookup(next, registrations[1..], channel);
      var later := ListenersFor(registrations[1..], channel);
      if registrations[0].0 == channel {
        assert Lookup(next, channel) == Lookup(channels, channel) + [registrations[0].1];
        assert ListenersFor(registrations, channel) == [registrations[0].1] + later;
        assert Lookup(channels, channel) + [registrations[0].1] + later
            == Lookup(channels, channel) + ([registrations[0].1] + later);
      } else {
        assert Lookup(next, channel) == Lookup(channels, channel);
        assert ListenersFor(registrations, channel) == [] + later;
        assert [] + later == later;
      }
    }
  }

  // ---------------------------------------------------------------------
  // Dispatch of one inbound frame

  /** `"message".equals(event.type) && "new".equals(event.action)`. */
  predicate IsNewMessage(event: WebSocketEvent) {
    event.eventType == Some("message") && event.action == Some("new")
  }

  /** The global listeners handed one event, with no exception handling. */
  function Broadcast(globals: seq<ListenerId>, event: WebSocketEvent, fails: Delivery -> bool): Fanout {
    RunAll(GlobalCalls(globals, event), fails)
  }

  /** `onMessage` after JSON decoding. `decoded` is what `readValue` gave
      (`None`: it threw); `convert` is `convertValue(event.data, Message.class)`
      (`None`: it threw or gave null). Everything sits in one `try`: any
      failure ends the frame, and `faulted` says that `catch (Exception e)`
      ran. A callback throwing an `Error` is not caught; see the README. */
  function Dispatch(channels: Channels, globals: seq<ListenerId>, decoded: Option<WebSocketEvent>,
                    convert: Option<JsonObject> -> Option<Message>, fails: Delivery -> bool): Fanout
  {
    match decoded
    case None => Fanout([], true)
    case Some(event) =>
      if !IsNewMessage(event) then Broadcast(globals, event, fails)
      else
        match convert(event.data)
        case None => Fanout([], true)
        case Some(msg) =>
          match msg.channel
          // ConcurrentHashMap.get(null) throws
          case None => Fanout([], true)
          case Some(channel) =>
            var first := RunAll(ChannelCalls(Lookup(channels, channel), msg), fails);
            if first.faulted then first
            else
              var second := Broadcast(globals, event, fails);
              Fanout(first.trace + second.trace, second.faulted)
  }

  /** A new chat message runs the channel's listeners and then the global
      listeners as ONE sequence of calls: the first exception anywhere in it
      ends the frame, so callbacks are not isolated from each other. */
  lemma DispatchNewMessage(channels: Channels, globals: seq<ListenerId>, event: WebSocketEvent,
                           convert: Option<JsonObject> -> Option<Message>, fails: Delivery -> bool,
                           msg: Message, channel: string)
    requires IsNewMessage(event) && convert(event.data) == Some(msg) && msg.channel == Some(channel)
    ensures Dispatch(channels, globals, Some(event), convert, fails)
         == RunAll(ChannelCalls(Lookup(channels, channel), msg) + GlobalCalls(globals, event), fails)
  {
    RunAllAppend(ChannelCalls(Lookup(channels, channel), msg), GlobalCalls(globals, event), fails);
  }

  /** With no callback throwing, every listener of the message's channel runs
      once, in registration order, then every global listener once, in order,
      and the frame completes. */
  lemma DispatchNewMessageNoFault(channels: Channels, globals: seq<ListenerId>, event: WebSocketEvent,
                                  convert: Option<JsonObject> -> Option<Message>, fails: Delivery -> bool,
                                  msg: Message, channel: string)
    requires IsNewMessage(event) && convert(event.data) == Some(msg) && msg.channel == Some(channel)
    requires forall d :: !fails(d)
    ensures Dispatch(channels, globals, Some(event), convert, fails)
         == Fanout(ChannelCalls(Lookup(channels, channel), msg) + GlobalCalls(globals, event), false)
  {
    DispatchNewMessage(channels, globals, event, convert, fails, msg, channel);
  }

  /** Whatever throws, a new chat message reaches no listener of another
      channel: every message delivery of the frame goes to a listener of the
      message's own channel, with that message. */
  lemma DispatchNoOtherChannel(channels: Channels, globals: seq<ListenerId>, event: WebSocketEvent,
                               convert: Option<JsonObject> -> Option<Message>, fails: Delivery -> bool,
                               msg: Message, channel: string)
    requires IsNewMessage(event) && convert(event.data) == Some(msg) && msg.channel == Some(channel)
    ensures forall d :: d in Dispatch(channels, globals, Some(event), convert, fails).trace && d.MessageDelivery? ==>
              d.listener in Lookup(channels, channel) && d.msg == msg
  {
    var own := ChannelCalls(Lookup(channels, channel), msg);
    var calls := own + GlobalCalls(globals, event);
    DispatchNewMessage(channels, globals, event, convert, fails, msg, channel);
    var trace := RunAll(calls, fails).trace;
    forall d | d in trace && d.MessageDelivery?
      ensures d.listener in Lookup(channels, channel) && d.msg == msg
    {
      var i :| 0 <= i < |trace| && trace[i] == d;
      assert calls[i] == d;
      assert i < |own|;
      assert d == MessageDelivery(Lookup(channels, channel)[i], msg);
    }
  }

  /** Only the message's own channel list is read: two registries that agree
      on that channel dispatch the frame identically, whatever the other
      channels hold. A channel with no list behaves as an empty list. */
  lemma DispatchReadsOnlyOwnChannel(channels: Channels, other: Channels, globals: seq<ListenerId>,
                                    event: WebSocketEvent, convert: Option<JsonObject> -> Option<Message>,
                                    fails: Delivery -> bool, msg: Message, channel: string)
    requires IsNewMessage(event) && convert(event.data) == Some(msg) && msg.channel == Some(channel)
    requires Lookup(channels, channel) == Lookup(other, channel)
    ensures Dispatch(channels, globals, Some(event), convert, fails)
         == Dispatch(other, globals, Some(event), convert, fails)
    ensures channel !in channels ==>
              Dispatch(channels, globals, Some(event), convert, fails) == Broadcast(globals, event, fails)
  {
    if channel !in channels {
      assert ChannelCalls(Lookup(channels, channel), msg) == [];
      assert RunAll([], fails) == Fanout([], false);
      assert [] + Broadcast(globals, event, fails).trace == Broadcast(globals, event, fails).trace;
    }
  }

  /** Every other type or action goes to the global listeners only. */
  lemma DispatchOtherEvent(channels: Channels, globals: seq<ListenerId>, event: WebSocketEvent,
                           convert: Option<JsonObject> -> Option<Message>, fails: Delivery -> bool)
    requires !IsNewMessage(event)
    ensures Dispatch(channels, globals, Some(event), convert, fails) == Broadcast(globals, event, fails)
    ensures forall d :: d in Dispatch(channels, globals, Some(event), convert, fails).trace ==> d.EventDelivery?
  {
  }

  /** An undecodable frame, an undecodable `data`, and a message without a
      channel all end in the `catch` before any callback has run: in those
      cases not even the global listeners see the event. */
  lemma DispatchDecodeFailures(channels: Channels, globals: seq<ListenerId>, event: WebSocketEvent,
                               convert: Option<JsonObject> -> Option<Message>, fails: Delivery -> bool)
    ensures Dispatch(channels, globals, None, convert, fails) == Fanout([], true)
    ensures IsNewMessage(event) && convert(event.data) == None ==>
              Dispatch(channels, globals, Some(event), convert, fails) == Fanout([], true)
    ensures IsNewMessage(event) && convert(event.data).Some? && convert(event.data).value.channel == None ==>
              Dispatch(channels, globals, Some(event), convert, fails) == Fanout([], true)
  {
  }

  /** A channel listener that throws ends the frame there: the listeners
      before it have run, it has run, and no later channel listener and no
      global listener runs. */
  lemma ChannelFaultSkipsGlobals(channels: Channels, globals: seq<ListenerId>, event: WebSocketEvent,
                                 convert: Option<JsonObject> -> Option<Message>, fails: Delivery -> bool,
                                 msg: Message, channel: string, k: nat)
    requires IsNewMessage(event) && convert(event.data) == Some(msg) && msg.channel == Some(channel)
    requires k < |Lookup(channels, channel)| && fails(MessageDelivery(Lookup(channels, channel)[k], msg))
    requires forall j :: 0 <= j < k ==> !fails(MessageDelivery(Lookup(channels, channel)[j], msg))
    ensures Dispatch(channels, globals, Some(event), convert, fails)
         == Fanout(ChannelCalls(Lookup(channels, channel)[..k + 1], msg), true)
  {
    var ls := Lookup(channels, channel);
    FirstFaultUnique(ChannelCalls(ls, msg), fails, k);
    assert ChannelCalls(ls, msg)[..k + 1] == ChannelCalls(ls[..k + 1], msg);
  }

  /** The property of a whole session: after any sequence of
      `addMessageListener` calls on an empty registry, a faultless new-message
      frame for `channel` runs exactly the callbacks registered for that
      channel, each once and in registration order (a callback registered
      twice runs twice), then the global listeners. */
  lemma RegisteredListenersRunInOrder(registrations: seq<(string, ListenerId)>, globals: seq<ListenerId>,
                                      event: WebSocketEvent, convert: Option<JsonObject> -> Option<Message>,
                                      fails: Delivery -> bool, msg: Message, channel: string)
    requires IsNewMessage(event) && convert(event.data) == Some(msg) && msg.channel == Some(channel)
    requires forall d :: !fails(d)
    ensures Dispatch(SubscribeAll(map[], registrations), globals, Some(event), convert, fails)
         == Fanout(ChannelCalls(ListenersFor(registrations, channel), msg) + GlobalCalls(globals, event), false)
  {
    SubscribeAllLookup(map[], registrations, channel);
    assert Lookup(map[], channel) == [];
    assert Lookup(SubscribeAll(map[], registrations), channel) == ListenersFor(registrations, channel);
    DispatchNewMessageNoFault(SubscribeAll(map[], registrations), globals, event, convert, fails, msg, channel);
  }

  // ---------------------------------------------------------------------
  // Lifecycle events, made up by the client itself

  const OpenText := "WebSocket connected successfully"
  const CloseTextPrefix := "WebSocket disconnected: "
  const ErrorTextPrefix := "WebSocket error: "

  /** What `onOpen`, `onClose` and `onError` hand the global listeners. */
  function OpenEvent(): WebSocketEvent {
    SyntheticEvent("connected", OpenText)
  }

  function CloseEvent(reason: Option<string>): WebSocketEvent {
    SyntheticEvent("disconnected", CloseTextPrefix + JavaText(reason))
  }

  function ErrorEvent(description: Option<string>): WebSocketEvent {
    SyntheticEvent("error", ErrorTextPrefix + JavaText(description))
  }

  /** An event the client builds itself has no action, so it is never a new
      chat message: handed to the dispatcher it reaches the global listeners
      only, and no channel listener. */
  lemma SyntheticEventsReachOnlyGlobals(channels: Channels, globals: seq<ListenerId>, eventType: string,
                                        message: string, convert: Option<JsonObject> -> Option<Message>,
                                        fails: Delivery -> bool)
    ensures SyntheticEvent(eventType, message).eventType == Some(eventType)
         && SyntheticEvent(eventType, message).message == Some(message)
    ensures !IsNewMessage(SyntheticEvent(eventType, message))
    ensures Dispatch(channels, globals, Some(SyntheticEvent(eventType, message)), convert, fails)
         == Broadcast(globals, SyntheticEvent(eventType, message), fails)
  {
  }

  /** The three lifecycle events carry their fixed type and text, and none
      of them is a new chat message, so none could reach a channel listener. */
  lemma LifecycleEventsShape(reason: Option<string>, description: Option<string>)
    ensures OpenEvent().eventType == Some("connected")
         && OpenEvent().message == Some("WebSocket connected successfully")
    ensures CloseEvent(reason).eventType == Some("disconnected")
         && CloseEvent(reason).message == Some("WebSocket disconnected: " + JavaText(reason))
    ensures ErrorEvent(description).eventType == Some("error")
         && ErrorEvent(description).message == Some("WebSocket error: " + JavaText(description))
    ensures !IsNewMessage(OpenEvent()) && !IsNewMessage(CloseEvent(reason)) && !IsNewMessage(ErrorEvent(description))
  {
  }

  /** A broadcast hands the one event to the global listeners, a prefix of
      them in registration order, and to no channel listener; it reaches all
      of them when none throws. */
  lemma {:induction false} BroadcastReachesGlobalsInOrder(globals: seq<ListenerId>, event: WebSocketEvent, fails: Delivery -> bool)
    ensures var r := Broadcast(globals, event, fails);
            |r.trace| <= |globals| &&
            (forall i :: 0 <= i < |r.trace| ==> r.trace[i] == EventDelivery(globals[i], event))
    ensures (forall i :: 0 <= i < |globals| ==> !fails(EventDelivery(globals[i], event))) ==>
              Broadcast(globals, event, fails) == Fanout(GlobalCalls(globals, event), false)
  {
    var calls := GlobalCalls(globals, event);
    var r := RunAll(calls, fails);
    forall i | 0 <= i < |r.trace| ensures r.trace[i] == EventDelivery(globals[i], event) {
      assert r.trace[i] == calls[i];
    }
    if forall i :: 0 <= i < |globals| ==> !fails(EventDelivery(globals[i], event)) {
      assert !exists i :: 0 <= i < |calls| && fails(calls[i]);
    }
  }
}
