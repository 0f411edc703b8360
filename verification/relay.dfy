/**
 * The listeners the `setUniqueId` handler registers once a wrapper is
 * connected: two one-shot relays of the wrapper's lifecycle events, a relay
 * of `streamEnd`, twelve verbatim relays of message events and the `gift`
 * listener, which dispatches to a handler instead of relaying.
 * Each upstream event maps to at most one effect; a session's effects are
 * the effects of its events, in arrival order.
 */
module Relay {
  import opened Wrappers
  import opened Js
  import Gifts

  /** The message events relayed to the socket under their own name with the payload unchanged. */
  const ForwardedEvents: set<string> :=
    {"roomUser", "member", "chat", "social", "like", "questionNew",
     "linkMicBattle", "linkMicArmies", "liveIntro", "emote", "envelope", "subscribe"}

  /** One `socket.emit(event, ...args)` call. */
  datatype Emission = Emission(event: string, args: seq<JsValue>)

  /** What a listener does with one event. */
  datatype Action =
    | Emit(out: Emission)                 // sends an event to the socket
    | Invoke(handler: Gifts.Handler)      // calls a gift handler
    | LogUnhandled(giftName: JsValue)     // logs "Unhandled gift: ..."
    | Throw                               // the listener throws a TypeError
    | Nothing

  /** An event the wrapper or its connection emits. */
  datatype Upstream =
    | Connected(state: JsValue)           // the wrapper's `connected` event
    | Disconnected(reason: JsValue)       // the wrapper's `disconnected` event
    | Message(name: string, msg: JsValue) // an event of `wrapper.connection`

  /** Which of the two one-shot (`once`) relays are still registered. */
  datatype Armed = Armed(connected: bool, disconnected: bool)

  /**
   * The `gift` listener: reading `msg.giftName` throws on null or
   * undefined; a falsy name is ignored; a string equal to a case label
   * invokes that case's handler; any other truthy name is logged.
   */
  function GiftAction(msg: JsValue): (r: Action)
    ensures !r.Emit?
    ensures r.Throw? <==> msg == Null || msg == Undefined
    ensures r == Nothing <==> ReadProperty(msg, "giftName").Some? && !Truthy(ReadProperty(msg, "giftName").value)
    ensures r.Invoke? ==> ReadProperty(msg, "giftName") == Some(Str(Gifts.Label(r.handler)))
    ensures r.LogUnhandled? ==> ReadProperty(msg, "giftName") == Some(r.giftName) && Truthy(r.giftName)
    ensures r.LogUnhandled? ==> forall h :: r.giftName != Str(Gifts.Label(h))
  {
    match ReadProperty(msg, "giftName")
    case None => Throw
    case Some(name) =>
      if !Truthy(name) then Nothing
      else if name.Str? && Gifts.GiftHandler(name.s).Some? then
        var h := Gifts.GiftHandler(name.s).value;
        Gifts.Dispatch(name.s, h);
        Invoke(h)
      else
        (if name.Str? then Gifts.Unmatched(name.s); LogUnhandled(name) else LogUnhandled(name))
  }

  /** The effect of one event of `wrapper.connection`, named `name` and carrying `msg`. */
  function Route(name: string, msg: JsValue): (r: Action)
    ensures r.Emit? <==> name in ForwardedEvents || name == "streamEnd"
    ensures r.Emit? ==> r.out.event == name && r.out.args == (if name == "streamEnd" then [] else [msg])
    ensures r.Emit? ==> name != "gift"
    ensures name == "gift" ==> r == GiftAction(msg)
    ensures !r.Emit? && r != Nothing ==> name == "gift"
  {
    if name in ForwardedEvents then Emit(Emission(name, [msg]))
    else if name == "streamEnd" then Emit(Emission("streamEnd", []))
    else if name == "gift" then GiftAction(msg)
    else Nothing
  }

  /** One event through the registered listeners: the new one-shot state and the effect. */
  function Step(armed: Armed, e: Upstream): (r: (Armed, Action))
    ensures (r.0.connected ==> armed.connected) && (r.0.disconnected ==> armed.disconnected)
    ensures e.Message? ==> r == (armed, Route(e.name, e.msg))
    ensures e.Connected? ==> !r.0.connected && r.0.disconnected == armed.disconnected
    ensures e.Disconnected? ==> !r.0.disconnected && r.0.connected == armed.connected
    ensures e.Connected? ==> (r.1 != Nothing <==> armed.connected) && (r.1 != Nothing ==> r.1 == Emit(Emission("tiktokConnected", [e.state])))
    ensures e.Disconnected? ==> (r.1 != Nothing <==> armed.disconnected) && (r.1 != Nothing ==> r.1 == Emit(Emission("tiktokDisconnected", [e.reason])))
  {
    match e
    case Connected(state) =>
      if armed.connected then (armed.(connected := false), Emit(Emission("tiktokConnected", [state])))
      else (armed, Nothing)
    case Disconnected(reason) =>
      if armed.disconnected then (armed.(disconnected := false), Emit(Emission("tiktokDisconnected", [reason])))
      else (armed, Nothing)
    case Message(name, msg) => (armed, Route(name, msg))
  }

  /** The effects of a sequence of events, in arrival order (events with no effect leave no trace). */
  function Relay(armed: Armed, events: seq<Upstream>): (r: seq<Action>)
    ensures |r| <= |events|
    ensures Nothing !in r
    decreases |events|
  {
    if events == [] then []
    else
      var (next, act) := Step(armed, events[0]);
      var rest := Relay(next, events[1..]);
      if act == Nothing then rest else [act] + rest
  }

  // Reference definitions the relay is compared with.

  /** The relayed message emissions among `acts`, in order. */
  function ForwardedOf(acts: seq<Action>): seq<Action>
  {
    if acts == [] then []
    else
      var rest := ForwardedOf(acts[1..]);
      if acts[0].Emit? && acts[0].out.event in ForwardedEvents then [acts[0]] + rest else rest
  }

  /** The emission each relayable message event should produce, in order. */
  function ExpectedForwards(events: seq<Upstream>): seq<Action>
  {
    if events == [] then []
    else
      var rest := ExpectedForwards(events[1..]);
      match events[0]
      case Message(name, msg) =>
        if name in ForwardedEvents then [Emit(Emission(name, [msg]))] + rest else rest
      case _ => rest
  }

  /** How many emissions of socket event `event` are among `acts`. */
  function EmitCount(acts: seq<Action>, event: string): nat
  {
    if acts == [] then 0
    else (if acts[0].Emit? && acts[0].out.event == event then 1 else 0) + EmitCount(acts[1..], event)
  }

  /** How many calls of handler `h` are among `acts`. */
  function InvokeCount(acts: seq<Action>, h: Gifts.Handler): nat
  {
    if acts == [] then 0
    else (if acts[0] == Invoke(h) then 1 else 0) + InvokeCount(acts[1..], h)
  }

  /** How many `gift` events carry exactly the string `caseLabel` as their `giftName`. */
  function GiftsNamed(events: seq<Upstream>, caseLabel: string): nat
  {
    if events == [] then 0
    else
      (if events[0].Message? && events[0].name == "gift"
          && ReadProperty(events[0].msg, "giftName") == Some(Str(caseLabel)) then 1 else 0)
      + GiftsNamed(events[1..], caseLabel)
  }

  predicate HasConnected(events: seq<Upstream>)
  {
    exists i :: 0 <= i < |events| && events[i].Connected?
  }

  predicate HasDisconnected(events: seq<Upstream>)
  {
    exists i :: 0 <= i < |events| && events[i].Disconnected?
  }

  // Properties of the relay.

  /** A gift handler is called for a gift event exactly when its name is that handler's case label. */
  lemma GiftInvokes(msg: JsValue, h: Gifts.Handler)
    ensures GiftAction(msg) == Invoke(h) <==> ReadProperty(msg, "giftName") == Some(Str(Gifts.Label(h)))
  {
    if ReadProperty(msg, "giftName") == Some(Str(Gifts.Label(h))) {
      Gifts.Dispatch(Gifts.Label(h), h);
    }
  }

  /** No `gift` event is ever sent to the socket. */
  lemma {:induction false} NeverEmitsGift(armed: Armed, events: seq<Upstream>)
    ensures forall i :: 0 <= i < |Relay(armed, events)| && Relay(armed, events)[i].Emit?
                        ==> Relay(armed, events)[i].out.event != "gift"
    decreases |events|
  {
    if events != [] {
      var (next, act) := Step(armed, events[0]);
      NeverEmitsGift(next, events[1..]);
    }
  }

  /** The relayed message events reach the socket in arrival order, each once, with the payload unchanged. */
  lemma {:induction false} ForwardsInOrder(armed: Armed, events: seq<Upstream>)
    ensures ForwardedOf(Relay(armed, events)) == ExpectedForwards(events)
    decreases |events|
  {
    if events != [] {
      var (next, act) := Step(armed, events[0]);
      var rest := Relay(next, events[1..]);
      ForwardsInOrder(next, events[1..]);
      assert "tiktokConnected" !in ForwardedEvents && "tiktokDisconnected" !in ForwardedEvents;
      assert "streamEnd" !in ForwardedEvents;
      if act != Nothing {
        assert ([act] + rest)[0] == act && ([act] + rest)[1..] == rest;
      }
    }
  }

  /** `tiktokConnected` and `tiktokDisconnected` are each sent at most once: on the first such event while armed. */
  lemma {:induction false} LifecycleOnce(armed: Armed, events: seq<Upstream>)
    ensures EmitCount(Relay(armed, events), "tiktokConnected")
            == if armed.connected && HasConnected(events) then 1 else 0
    ensures EmitCount(Relay(armed, events), "tiktokDisconnected")
            == if armed.disconnected && HasDisconnected(events) then 1 else 0
    decreases |events|
  {
    if events != [] {
      var (next, act) := Step(armed, events[0]);
      var rest := Relay(next, events[1..]);
      LifecycleOnce(next, events[1..]);
      if act != Nothing {
        assert ([act] + rest)[0] == act && ([act] + rest)[1..] == rest;
      }
      assert HasConnected(events) <==> events[0].Connected? || HasConnected(events[1..]) by {
        if HasConnected(events[1..]) {
          var i :| 0 <= i < |events[1..]| && events[1..][i].Connected?;
          assert events[i + 1].Connected?;
        }
        if HasConnected(events) && !events[0].Connected? {
          var i :| 0 <= i < |events| && events[i].Connected?;
          assert events[1..][i - 1].Connected?;
        }
      }
      assert HasDisconnected(events) <==> events[0].Disconnected? || HasDisconnected(events[1..]) by {
        if HasDisconnected(events[1..]) {
          var i :| 0 <= i < |events[1..]| && events[1..][i].Disconnected?;
          assert events[i + 1].Disconnected?;
        }
        if HasDisconnected(events) && !events[0].Disconnected? {
          var i :| 0 <= i < |events| && events[i].Disconnected?;
          assert events[1..][i - 1].Disconnected?;
        }
      }
    }
  }

  /** Each gift handler runs exactly once per gift event that names its case label, and never otherwise. */
  lemma {:induction false} InvocationsMatchGifts(armed: Armed, events: seq<Upstream>, h: Gifts.Handler)
    ensures InvokeCount(Relay(armed, events), h) == GiftsNamed(events, Gifts.Label(h))
    decreases |events|
  {
    if events != [] {
      var (next, act) := Step(armed, events[0]);
      var rest := Relay(next, events[1..]);
      InvocationsMatchGifts(next, events[1..], h);
      if act != Nothing {
        assert ([act] + rest)[0] == act && ([act] + rest)[1..] == rest;
      }
      if events[0].Message? && events[0].name == "gift" {
        GiftInvokes(events[0].msg, h);
      }
    }
  }
}
