// The `GameWebSocket` wrapper: a socket that reconnects with exponential
// backoff after an unexpected close, a registry of handlers per event type,
// and a list of raw-text handlers. The browser socket is an oracle: its
// open/close notifications and the outcome of `JSON.parse` are inputs.
module ReconnectingSocket {
  import opened Wrappers

  const MaxReconnectAttempts: nat := 5
  /** `reconnectDelay`'s initial value and the value `onopen` restores, in ms. */
  const BaseReconnectDelay: nat := 1000

  /** `WebSocket.readyState` of the socket currently held in `ws`. */
  datatype ReadyState = Connecting | Open | Closing | Closed

  function Pow2(n: nat): (r: nat)
    ensures r >= 1
  {
    if n == 0 then 1 else 2 * Pow2(n - 1)
  }

  /** `reconnectDelay * Math.pow(2, reconnectAttempts)` */
  function BackoffDelay(reconnectDelay: nat, attempts: nat): nat {
    reconnectDelay * Pow2(attempts)
  }

  /** The reconnect condition in `onclose`. */
  predicate ReconnectScheduled(isClosing: bool, attempts: nat) {
    !isClosing && attempts < MaxReconnectAttempts
  }

  /** With the base delay the five waits are 1 s, 2 s, 4 s, 8 s and 16 s; no
      wait is ever longer than 16 s. */
  lemma BackoffSchedule(attempts: nat)
    requires ReconnectScheduled(false, attempts)
    ensures BackoffDelay(BaseReconnectDelay, attempts) == [1000, 2000, 4000, 8000, 16000][attempts]
    ensures BackoffDelay(BaseReconnectDelay, attempts) <= 16000
  {
    assert Pow2(1) == 2 && Pow2(2) == 4 && Pow2(3) == 8 && Pow2(4) == 16;
  }

  /** Each further attempt waits twice as long as the one before. */
  lemma BackoffDoubles(reconnectDelay: nat, attempts: nat)
    ensures BackoffDelay(reconnectDelay, attempts + 1) == 2 * BackoffDelay(reconnectDelay, attempts)
  {
  }

  /** The reconnect bookkeeping: the fields `reconnectAttempts`,
      `reconnectDelay` and `isClosing`, the state of the socket in `ws`, the
      delay of a scheduled reconnect, and how many sockets `connect` has made. */
  datatype Lifecycle = Lifecycle(
    readyState: ReadyState,
    reconnectAttempts: nat,
    reconnectDelay: nat,
    isClosing: bool,
    pendingReconnect: Option<nat>,
    connections: nat)

  /** After the constructor: one socket, connecting. */
  const Initial := Lifecycle(Connecting, 0, BaseReconnectDelay, false, None, 1)

  /** What can happen to the wrapper: the socket opens, the socket closes,
      the reconnect timer fires, or the owner calls `close()`. */
  datatype SocketStep = Opened | Dropped | TimerFired | CloseCalled

  /** `onopen` (the socket can only open while connecting). */
  function OnOpened(s: Lifecycle): Lifecycle {
    if s.readyState == Connecting then s.(readyState := Open, reconnectAttempts := 0, reconnectDelay := BaseReconnectDelay)
    else s
  }

  /** `onclose` (a socket closes once): schedule a reconnect with backoff
      unless the wrapper is closing or out of attempts. */
  function OnDropped(s: Lifecycle): Lifecycle {
    if s.readyState == Closed then s
    else if ReconnectScheduled(s.isClosing, s.reconnectAttempts) then
      s.(readyState := Closed, pendingReconnect := Some(BackoffDelay(s.reconnectDelay, s.reconnectAttempts)))
    else s.(readyState := Closed)
  }

  /** `close()`: latch `isClosing` and close the socket if it is open. */
  function OnCloseCalled(s: Lifecycle): Lifecycle {
    s.(isClosing := true, readyState := if s.readyState == Open then Closing else s.readyState)
  }

  /** The reconnect timer as the source writes it: it counts the attempt and
      connects, without looking at `isClosing`. */
  function OnTimerAsWritten(s: Lifecycle): Lifecycle {
    if s.pendingReconnect.None? then s
    else s.(pendingReconnect := None, reconnectAttempts := s.reconnectAttempts + 1,
            readyState := Connecting, connections := s.connections + 1)
  }

  /** The reconnect timer as `isClosing` is meant to make it behave: a timer
      that fires after `close()` does not reconnect. */
  function OnTimer(s: Lifecycle): Lifecycle {
    if s.pendingReconnect.None? then s
    else if s.isClosing then s.(pendingReconnect := None)
    else s.(pendingReconnect := None, reconnectAttempts := s.reconnectAttempts + 1,
            readyState := Connecting, connections := s.connections + 1)
  }

  function StepAsWritten(s: Lifecycle, x: SocketStep): Lifecycle {
    match x
    case Opened => OnOpened(s)
    case Dropped => OnDropped(s)
    case TimerFired => OnTimerAsWritten(s)
    case CloseCalled => OnCloseCalled(s)
  }

  function Step(s: Lifecycle, x: SocketStep): Lifecycle {
    match x
    case Opened => OnOpened(s)
    case Dropped => OnDropped(s)
    case TimerFired => OnTimer(s)
    case CloseCalled => OnCloseCalled(s)
  }

  function RunAsWritten(s: Lifecycle, xs: seq<SocketStep>): Lifecycle
    decreases |xs|
  {
    if xs == [] then s else RunAsWritten(StepAsWritten(s, xs[0]), xs[1..])
  }

  function Run(s: Lifecycle, xs: seq<SocketStep>): Lifecycle
    decreases |xs|
  {
    if xs == [] then s else Run(Step(s, xs[0]), xs[1..])
  }

  /** What the wrapper keeps true: the delay field is always the base delay,
      there are never more than five attempts, and a scheduled reconnect
      belongs to a closed socket, with an attempt left and the backoff wait. */
  predicate Valid(s: Lifecycle) {
    && s.reconnectDelay == BaseReconnectDelay
    && s.reconnectAttempts <= MaxReconnectAttempts
    && s.connections >= 1
    && (s.pendingReconnect.Some? ==>
          && s.readyState == Closed
          && s.reconnectAttempts < MaxReconnectAttempts
          && s.pendingReconnect.value == BackoffDelay(BaseReconnectDelay, s.reconnectAttempts))
  }

  lemma StepValid(s: Lifecycle, x: SocketStep)
    requires Valid(s)
    ensures Valid(Step(s, x)) && Valid(StepAsWritten(s, x))
  {
  }

  lemma {:induction false} RunValid(s: Lifecycle, xs: seq<SocketStep>)
    requires Valid(s)
    ensures Valid(Run(s, xs))
    decreases |xs|
  {
    if xs != [] {
      StepValid(s, xs[0]);
      RunValid(Step(s, xs[0]), xs[1..]);
    }
  }

  /** Between two successful opens the attempt counter counts the reconnects. */
  lemma {:induction false} AttemptsCountReconnects(s: Lifecycle, xs: seq<SocketStep>)
    requires forall i :: 0 <= i < |xs| ==> xs[i] != Opened
    ensures Run(s, xs).connections + s.reconnectAttempts == s.connections + Run(s, xs).reconnectAttempts
    decreases |xs|
  {
    if xs != [] {
      AttemptsCountReconnects(Step(s, xs[0]), xs[1..]);
    }
  }

  /** So at most five reconnects happen between two successful opens. */
  lemma AtMostFiveReconnects(s: Lifecycle, xs: seq<SocketStep>)
    requires Valid(s) && s.reconnectAttempts == 0
    requires forall i :: 0 <= i < |xs| ==> xs[i] != Opened
    ensures Run(s, xs).connections <= s.connections + MaxReconnectAttempts
  {
    AttemptsCountReconnects(s, xs);
    RunValid(s, xs);
  }

  /** The wrapper as written keeps the same invariant. */
  lemma {:induction false} RunAsWrittenValid(s: Lifecycle, xs: seq<SocketStep>)
    requires Valid(s)
    ensures Valid(RunAsWritten(s, xs))
    decreases |xs|
  {
    if xs != [] {
      StepValid(s, xs[0]);
      RunAsWrittenValid(StepAsWritten(s, xs[0]), xs[1..]);
    }
  }

  lemma {:induction false} AttemptsCountReconnectsAsWritten(s: Lifecycle, xs: seq<SocketStep>)
    requires forall i :: 0 <= i < |xs| ==> xs[i] != Opened
    ensures RunAsWritten(s, xs).connections + s.reconnectAttempts == s.connections + RunAsWritten(s, xs).reconnectAttempts
    decreases |xs|
  {
    if xs != [] {
      AttemptsCountReconnectsAsWritten(StepAsWritten(s, xs[0]), xs[1..]);
    }
  }

  /** The five-attempt cap holds of the wrapper as written too: the timer
      after `close()` reconnects, but it still spends an attempt. */
  lemma AtMostFiveReconnectsAsWritten(s: Lifecycle, xs: seq<SocketStep>)
    requires Valid(s) && s.reconnectAttempts == 0
    requires forall i :: 0 <= i < |xs| ==> xs[i] != Opened
    ensures RunAsWritten(s, xs).connections <= s.connections + MaxReconnectAttempts
  {
    AttemptsCountReconnectsAsWritten(s, xs);
    RunAsWrittenValid(s, xs);
  }

  /** A successful open restores a full budget of attempts. */
  lemma OpenRestoresBudget(s: Lifecycle)
    requires s.readyState == Connecting
    ensures Step(s, Opened).reconnectAttempts == 0 && Step(s, Opened).reconnectDelay == BaseReconnectDelay
  {
  }

  /** As written, a reconnect scheduled before `close()` still runs after it:
      the socket drops, the owner closes the wrapper, the timer fires, and a
      new socket is connecting although the wrapper is closed. */
  lemma TimerAfterCloseReconnects()
    ensures var s := Lifecycle(Open, 0, BaseReconnectDelay, false, None, 1);
      var r := RunAsWritten(s, [Dropped, CloseCalled, TimerFired]);
      r.isClosing && r.readyState == Connecting && r.connections == 2
  {
    var s := Lifecycle(Open, 0, BaseReconnectDelay, false, None, 1);
    var xs := [Dropped, CloseCalled, TimerFired];
    assert xs[1..] == [CloseCalled, TimerFired] && xs[1..][1..] == [TimerFired] && xs[1..][1..][1..] == [];
  }

  /** With the timer honouring `isClosing`, once `close()` has been called no
      further socket is ever created. */
  lemma {:induction false} NoReconnectAfterClose(s: Lifecycle, xs: seq<SocketStep>)
    requires s.isClosing
    ensures Run(s, xs).connections == s.connections && Run(s, xs).isClosing
    decreases |xs|
  {
    if xs != [] {
      NoReconnectAfterClose(Step(s, xs[0]), xs[1..]);
    }
  }

  /** A registered handler, by identity. */
  type HandlerId = nat

  /** A parsed server event: its `type`, and its `message` when it has one. */
  datatype ServerEvent = ServerEvent(eventType: string, message: Option<string>)

  /** One incoming frame, with the outcome of `JSON.parse` on it. */
  datatype Frame = Parsed(event: ServerEvent) | Unparseable(data: string)

  /** One call of a handler: a typed handler with the event, or a message
      handler with a text. */
  datatype Delivery = ToEventHandler(handler: HandlerId, event: ServerEvent) | ToMessageHandler(handler: HandlerId, text: string)

  /** `eventHandlers.get(t) || []` */
  function HandlersFor(registry: map<string, seq<HandlerId>>, t: string): seq<HandlerId> {
    if t in registry then registry[t] else []
  }

  /** `handlers.forEach(handler => handler(event))`, in order. */
  function EventDeliveries(hs: seq<HandlerId>, e: ServerEvent): (r: seq<Delivery>)
    ensures |r| == |hs|
    ensures forall i :: 0 <= i < |hs| ==> r[i] == ToEventHandler(hs[i], e)
    decreases |hs|
  {
    if hs == [] then [] else EventDeliveries(hs[..|hs| - 1], e) + [ToEventHandler(hs[|hs| - 1], e)]
  }

  /** `messageHandlers.forEach(handler => handler(text))`, in order. */
  function MessageDeliveries(hs: seq<HandlerId>, text: string): (r: seq<Delivery>)
    ensures |r| == |hs|
    ensures forall i :: 0 <= i < |hs| ==> r[i] == ToMessageHandler(hs[i], text)
    decreases |hs|
  {
    if hs == [] then [] else MessageDeliveries(hs[..|hs| - 1], text) + [ToMessageHandler(hs[|hs| - 1], text)]
  }

  /** What `handleEvent` calls: the handlers registered for the event's type,
      then, when the event carries a `message`, every message handler. */
  function Dispatch(registry: map<string, seq<HandlerId>>, messageHandlers: seq<HandlerId>, e: ServerEvent): seq<Delivery> {
    EventDeliveries(HandlersFor(registry, e.eventType), e)
    + (if e.message.Some? then MessageDeliveries(messageHandlers, e.message.value) else [])
  }

  /** A typed handler is called only for its own type, and only if it was
      registered for that type. */
  lemma DispatchOnlyToRegistered(registry: map<string, seq<HandlerId>>, messageHandlers: seq<HandlerId>, e: ServerEvent)
    ensures forall d :: d in Dispatch(registry, messageHandlers, e) && d.ToEventHandler? ==>
      d.event == e && d.handler in HandlersFor(registry, e.eventType)
    ensures forall d :: d in Dispatch(registry, messageHandlers, e) && d.ToMessageHandler? ==>
      e.message.Some? && d.text == e.message.value && d.handler in messageHandlers
    ensures e.message.None? ==> |Dispatch(registry, messageHandlers, e)| == |HandlersFor(registry, e.eventType)|
  {
    var a := EventDeliveries(HandlersFor(registry, e.eventType), e);
    var b: seq<Delivery> := if e.message.Some? then MessageDeliveries(messageHandlers, e.message.value) else [];
    forall d: Delivery | d in a + b
      ensures d.ToEventHandler? ==> d.event == e && d.handler in HandlersFor(registry, e.eventType)
      ensures d.ToMessageHandler? ==> e.message.Some? && d.text == e.message.value && d.handler in messageHandlers
    {
      var k :| 0 <= k < |a + b| && (a + b)[k] == d;
      if k < |a| {
        assert d == a[k];
      } else {
        assert d == b[k - |a|];
      }
    }
  }

  /** The wrapper object, with its fields updated in place. */
  class GameWebSocket {
    var readyState: ReadyState
    var reconnectAttempts: nat
    var reconnectDelay: nat
    var isClosing: bool
    /** The delay of the reconnect `setTimeout` scheduled and not yet run. */
    var pendingReconnect: Option<nat>
    /** Sockets created by `connect()` so far. */
    var connections: nat
    var eventHandlers: map<string, seq<HandlerId>>
    var messageHandlers: seq<HandlerId>
    /** Serialized messages written to the socket, oldest first. */
    var sent: seq<string>
    /** Handler calls made so far, oldest first. */
    var delivered: seq<Delivery>

    function State(): Lifecycle
      reads this
    {
      Lifecycle(readyState, reconnectAttempts, reconnectDelay, isClosing, pendingReconnect, connections)
    }

    constructor ()
      ensures State() == Initial && Valid(State())
      ensures eventHandlers == map[] && messageHandlers == [] && sent == [] && delivered == []
    {
      readyState, reconnectAttempts, reconnectDelay := Connecting, 0, BaseReconnectDelay;
      isClosing, pendingReconnect, connections := false, None, 1;
      eventHandlers, messageHandlers, sent, delivered := map[], [], [], [];
    }

    /** `ws.onopen` */
    method OnOpen()
      requires readyState == Connecting
      modifies this
      ensures State() == Step(old(State()), Opened)
      ensures eventHandlers == old(eventHandlers) && messageHandlers == old(messageHandlers)
      ensures sent == old(sent) && delivered == old(delivered)
    {
      readyState := Open;
      reconnectAttempts := 0;
      reconnectDelay := BaseReconnectDelay;
    }

    /** `ws.onclose`, which a socket fires once. */
    method OnClose()
      requires readyState != Closed
      modifies this
      ensures State() == Step(old(State()), Dropped)
      ensures eventHandlers == old(eventHandlers) && messageHandlers == old(messageHandlers)
      ensures sent == old(sent) && delivered == old(delivered)
    {
      readyState := Closed;
      if !isClosing && reconnectAttempts < MaxReconnectAttempts {
        var delay := reconnectDelay * Pow2(reconnectAttempts);
        pendingReconnect := Some(delay);
      }
    }

    /** The reconnect timer fires: count the attempt and connect again, unless
        `close()` has been called in the meantime. */
    method OnReconnectTimer()
      requires pendingReconnect.Some?
      modifies this
      ensures State() == Step(old(State()), TimerFired)
      ensures eventHandlers == old(eventHandlers) && messageHandlers == old(messageHandlers)
      ensures sent == old(sent) && delivered == old(delivered)
    {
      pendingReconnect := None;
      if isClosing {
        return;
      }
      reconnectAttempts := reconnectAttempts + 1;
      readyState := Connecting;
      connections := connections + 1;
    }

    /** `on(eventType, handler)`: append to that type's list, creating it if needed. */
    method On(eventType: string, handler: HandlerId)
      modifies this
      ensures HandlersFor(eventHandlers, eventType) == HandlersFor(old(eventHandlers), eventType) + [handler]
      ensures forall t :: t != eventType ==> HandlersFor(eventHandlers, t) == HandlersFor(old(eventHandlers), t)
      ensures eventType in eventHandlers && eventHandlers.Keys == old(eventHandlers).Keys + {eventType}
      ensures State() == old(State()) && messageHandlers == old(messageHandlers)
      ensures sent == old(sent) && delivered == old(delivered)
    {
      if eventType !in eventHandlers {
        eventHandlers := eventHandlers[eventType := []];
      }
      eventHandlers := eventHandlers[eventType := eventHandlers[eventType] + [handler]];
    }

    /** `onMessage(handler)` */
    method OnMessage(handler: HandlerId)
      modifies this
      ensures messageHandlers == old(messageHandlers) + [handler]
      ensures State() == old(State()) && eventHandlers == old(eventHandlers)
      ensures sent == old(sent) && delivered == old(delivered)
    {
      messageHandlers := messageHandlers + [handler];
    }

    /** `handleEvent`: the typed handlers, then the message handlers. */
    method HandleEvent(e: ServerEvent)
      modifies this
      ensures delivered == old(delivered) + Dispatch(eventHandlers, messageHandlers, e)
      ensures State() == old(State()) && eventHandlers == old(eventHandlers)
      ensures messageHandlers == old(messageHandlers) && sent == old(sent)
    {
      var handlers := if e.eventType in eventHandlers then eventHandlers[e.eventType] else [];
      CallEventHandlers(handlers, e);
      if e.message.Some? {
        CallMessageHandlers(e.message.value);
      }
    }

    /** `handlers.forEach(handler => handler(event))` */
    method CallEventHandlers(handlers: seq<HandlerId>, e: ServerEvent)
      modifies this
      ensures delivered == old(delivered) + EventDeliveries(handlers, e)
      ensures State() == old(State()) && eventHandlers == old(eventHandlers)
      ensures messageHandlers == old(messageHandlers) && sent == old(sent)
    {
      var i := 0;
      while i < |handlers|
        invariant 0 <= i <= |handlers|
        invariant delivered == old(delivered) + EventDeliveries(handlers[..i], e)
        invariant State() == old(State()) && eventHandlers == old(eventHandlers)
        invariant messageHandlers == old(messageHandlers) && sent == old(sent)
      {
        assert handlers[..i + 1][..i] == handlers[..i];
        delivered := delivered + [ToEventHandler(handlers[i], e)];
        i := i + 1;
      }
      assert handlers[..i] == handlers;
    }

    /** `this.messageHandlers.forEach(handler => handler(text))` */
    method CallMessageHandlers(text: string)
      modifies this
      ensures delivered == old(delivered) + MessageDeliveries(messageHandlers, text)
      ensures State() == old(State()) && eventHandlers == old(eventHandlers)
      ensures messageHandlers == old(messageHandlers) && sent == old(sent)
    {
      var j := 0;
      while j < |messageHandlers|
        invariant 0 <= j <= |messageHandlers|
        invariant delivered == old(delivered) + MessageDeliveries(messageHandlers[..j], text)
        invariant State() == old(State()) && eventHandlers == old(eventHandlers)
        invariant messageHandlers == old(messageHandlers) && sent == old(sent)
      {
        assert messageHandlers[..j + 1][..j] == messageHandlers[..j];
        delivered := delivered + [ToMessageHandler(messageHandlers[j], text)];
        j := j + 1;
      }
      assert messageHandlers[..j] == messageHandlers;
    }

    /** `ws.onmessage`: a frame that parses is dispatched; one that does not
        goes, as raw text, to every message handler. */
    method OnFrame(f: Frame)
      modifies this
      ensures f.Parsed? ==> delivered == old(delivered) + Dispatch(eventHandlers, messageHandlers, f.event)
      ensures f.Unparseable? ==> delivered == old(delivered) + MessageDeliveries(messageHandlers, f.data)
      ensures State() == old(State()) && eventHandlers == old(eventHandlers)
      ensures messageHandlers == old(messageHandlers) && sent == old(sent)
    {
      if f.Parsed? {
        HandleEvent(f.event);
      } else {
        CallMessageHandlers(f.data);
      }
    }

    /** `send(message)`: written only while the socket is open. */
    method Send(message: string)
      modifies this
      ensures sent == if readyState == Open then old(sent) + [message] else old(sent)
      ensures State() == old(State()) && eventHandlers == old(eventHandlers)
      ensures messageHandlers == old(messageHandlers) && delivered == old(delivered)
    {
      if readyState == Open {
        sent := sent + [message];
      }
    }

    /** `close()`: latch `isClosing`, close an open socket, drop every handler. */
    method Close()
      modifies this
      ensures State() == Step(old(State()), CloseCalled)
      ensures eventHandlers == map[] && messageHandlers == []
      ensures sent == old(sent) && delivered == old(delivered)
    {
      isClosing := true;
      if readyState == Open {
        readyState := Closing;
      }
      eventHandlers := map[];
      messageHandlers := [];
    }
  }
}
