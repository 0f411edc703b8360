/**
 * The per-socket state of the server: the `setUniqueId` handler, which
 * sanitises the options, consults the rate limiter, creates and connects a
 * connection wrapper and registers the relay listeners on it, and the
 * `disconnect` handler, which disconnects the wrapper if there is one.
 * The limiter's verdict and the wrapper's behaviour are inputs: the limiter
 * and the wrapper are not part of this model.
 */
module Session {
  import opened Wrappers
  import opened Js
  import opened Options
  import opened Relay

  /** The fixed text sent to a client the rate limiter blocks. */
  const RateLimitMessage: string :=
    "You have opened too many connections or made too many connection requests. Please reduce the number of connections/requests or host your own server instance. The connections are limited to avoid that the server IP gets blocked by TikTok."

  /** How constructing and connecting a wrapper goes. */
  datatype WrapperBehaviour =
    | ConstructorThrows(error: string)  // the constructor throws; `error` is the error's string
    | ConnectThrows(error: string)      // the constructor returns, connect() throws
    | ConnectReturns                    // both return

  /** How a `setUniqueId` request ends. */
  datatype StartOutcome =
    | RateLimited
    | ConstructFailed(error: string)
    | ConnectFailed(error: string)
    | Started
  {
    /** What the handler sends to the socket before returning. */
    function Reply(): (r: seq<Emission>)
      ensures |r| == if this == Started then 0 else 1
      ensures forall e :: e in r ==> e.event == "tiktokDisconnected" && |e.args| == 1
      ensures this == RateLimited ==> r == [Emission("tiktokDisconnected", [Str(RateLimitMessage)])]
      ensures ConstructFailed? || ConnectFailed? ==> r == [Emission("tiktokDisconnected", [Str(error)])]
    {
      match this
      case RateLimited => [Emission("tiktokDisconnected", [Str(RateLimitMessage)])]
      case ConstructFailed(e) => [Emission("tiktokDisconnected", [Str(e)])]
      case ConnectFailed(e) => [Emission("tiktokDisconnected", [Str(e)])]
      case Started => []
    }
  }

  /**
   * The decision of the handler: `blocked` is what the limiter would answer
   * for this socket; it is asked only when rate limiting is enabled.
   */
  function Decide(env: Env, blocked: bool, behaviour: WrapperBehaviour): (d: StartOutcome)
    ensures d == RateLimited <==> env.RateLimitEnabled() && blocked
    ensures d == Started <==> !(env.RateLimitEnabled() && blocked) && behaviour == ConnectReturns
    ensures d.ConstructFailed? ==> behaviour == ConstructorThrows(d.error)
    ensures d.ConnectFailed? ==> behaviour == ConnectThrows(d.error)
  {
    if env.RateLimitEnabled() && blocked then RateLimited
    else match behaviour
      case ConstructorThrows(e) => ConstructFailed(e)
      case ConnectThrows(e) => ConnectFailed(e)
      case ConnectReturns => Started
  }

  /** With rate limiting disabled the limiter's verdict makes no difference. */
  lemma VerdictIgnoredWhenDisabled(env: Env, behaviour: WrapperBehaviour)
    requires !env.RateLimitEnabled()
    ensures Decide(env, true, behaviour) == Decide(env, false, behaviour)
  {
  }

  /** ENABLE_RATE_LIMIT is read for truthiness: the text "false" enables rate limiting. */
  lemma RateLimitFlagIsTruthiness()
    ensures Env(None, Some("false")).RateLimitEnabled()
    ensures !Env(None, Some("")).RateLimitEnabled() && !Env(None, None).RateLimitEnabled()
  {
  }

  /** A connection wrapper as far as this handler sees it. */
  class ConnectionWrapper {
    const uniqueId: JsValue
    const options: map<string, JsValue>
    var connectCalls: nat
    var disconnectCalls: nat
    /** The socket the registered listeners emit to; null while none are registered. */
    var relayTo: SocketConnection?
    /** The one-shot relays still registered. */
    var armed: Armed

    constructor (uniqueId: JsValue, options: map<string, JsValue>)
      ensures this.uniqueId == uniqueId && this.options == options
      ensures connectCalls == 0 && disconnectCalls == 0
      ensures relayTo == null && armed == Armed(false, false)
    {
      this.uniqueId := uniqueId;
      this.options := options;
      connectCalls, disconnectCalls := 0, 0;
      relayTo, armed := null, Armed(false, false);
    }

    method Connect()
      modifies this
      ensures connectCalls == old(connectCalls) + 1
      ensures disconnectCalls == old(disconnectCalls) && relayTo == old(relayTo) && armed == old(armed)
    {
      connectCalls := connectCalls + 1;
    }

    method Disconnect()
      modifies this
      ensures disconnectCalls == old(disconnectCalls) + 1
      ensures connectCalls == old(connectCalls) && relayTo == old(relayTo) && armed == old(armed)
    {
      disconnectCalls := disconnectCalls + 1;
    }

    /** Registers the relay listeners of the handler, all emitting to `socket`. */
    method Listen(socket: SocketConnection)
      modifies this
      ensures relayTo == socket && armed == Armed(true, true)
      ensures connectCalls == old(connectCalls) && disconnectCalls == old(disconnectCalls)
    {
      relayTo, armed := socket, Armed(true, true);
    }

    /**
     * The wrapper (or its connection) emits `e`: with listeners registered,
     * they act as `Step` says and any emission is sent to their socket.
     */
    method Fire(e: Upstream) returns (act: Action)
      modifies this, relayTo
      ensures relayTo == old(relayTo)
      ensures connectCalls == old(connectCalls) && disconnectCalls == old(disconnectCalls)
      ensures old(relayTo) == null ==> act == Nothing && armed == old(armed)
      ensures old(relayTo) != null ==> (armed, act) == Step(old(armed), e)
      ensures old(relayTo) != null ==>
        relayTo.outbox == old(relayTo.outbox) + (if act.Emit? then [act.out] else [])
      ensures old(relayTo) != null ==>
        relayTo.wrapper == old(relayTo.wrapper) && relayTo.limiterQueries == old(relayTo.limiterQueries)
    {
      if relayTo == null {
        act := Nothing;
      } else {
        var (next, a) := Step(armed, e);
        armed, act := next, a;
        if act.Emit? {
          relayTo.Send(act.out);
        }
      }
    }
  }

  /** The state the server keeps for one connected socket. */
  class SocketConnection {
    /** The handler's `tiktokConnectionWrapper` variable; null while it is undefined. */
    var wrapper: ConnectionWrapper?
    /** Every `socket.emit` so far, in order. */
    var outbox: seq<Emission>
    /** How often the rate limiter has been asked about this socket. */
    var limiterQueries: nat

    constructor ()
      ensures wrapper == null && outbox == [] && limiterQueries == 0
    {
      wrapper, outbox, limiterQueries := null, [], 0;
    }

    method Send(out: Emission)
      modifies this
      ensures outbox == old(outbox) + [out]
      ensures wrapper == old(wrapper) && limiterQueries == old(limiterQueries)
    {
      outbox := outbox + [out];
    }

    /**
     * The `setUniqueId` handler. `blocked` is the limiter's verdict and
     * `behaviour` how the wrapper's constructor and connect() go.
     */
    method SetUniqueId(uniqueId: JsValue, options: JsObject?, env: Env, blocked: bool, behaviour: WrapperBehaviour)
      modifies this, options
      ensures options != null ==> options.props == Sanitized(old(options.props), env)
      ensures limiterQueries == old(limiterQueries) + (if env.RateLimitEnabled() then 1 else 0)
      ensures outbox == old(outbox) + Decide(env, blocked, behaviour).Reply()
      ensures Decide(env, blocked, behaviour) == RateLimited || Decide(env, blocked, behaviour).ConstructFailed?
              ==> wrapper == old(wrapper)
      ensures Decide(env, blocked, behaviour) == Started || Decide(env, blocked, behaviour).ConnectFailed?
              ==> wrapper != null && fresh(wrapper)
                  && wrapper.uniqueId == uniqueId
                  && wrapper.options == Sanitized(if options == null then map[] else old(options.props), env)
                  && wrapper.connectCalls == 1 && wrapper.disconnectCalls == 0
      ensures Decide(env, blocked, behaviour) == Started ==> wrapper.relayTo == this && wrapper.armed == Armed(true, true)
      ensures Decide(env, blocked, behaviour).ConnectFailed? ==> wrapper.relayTo == null
      ensures old(wrapper) != null ==> unchanged(old(wrapper))
    {
      var forwarded := SanitizeOptions(options, env);
      if env.RateLimitEnabled() {
        limiterQueries := limiterQueries + 1;
        if blocked {
          outbox := outbox + [Emission("tiktokDisconnected", [Str(RateLimitMessage)])];
          return;
        }
      }
      if behaviour.ConstructorThrows? {
        outbox := outbox + [Emission("tiktokDisconnected", [Str(behaviour.error)])];
        return;
      }
      var w := new ConnectionWrapper(uniqueId, forwarded.props);
      wrapper := w;
      w.Connect();
      if behaviour.ConnectThrows? {
        outbox := outbox + [Emission("tiktokDisconnected", [Str(behaviour.error)])];
        return;
      }
      w.Listen(this);
    }

    /** The `disconnect` handler: disconnects the wrapper if one was assigned. */
    method Disconnect()
      modifies wrapper
      ensures wrapper != null ==> wrapper.disconnectCalls == old(wrapper.disconnectCalls) + 1
      ensures wrapper != null ==> wrapper.connectCalls == old(wrapper.connectCalls)
                                  && wrapper.relayTo == old(wrapper.relayTo) && wrapper.armed == old(wrapper.armed)
    {
      if wrapper != null {
        wrapper.Disconnect();
      }
    }
  }

  /**
   * A client started for room "alice": the upstream connects, sends a
   * Bravo gift and ends the stream, then the client goes away.
   */
  method AliceScenario()
  {
    var socket := new SocketConnection();
    socket.SetUniqueId(Str("alice"), null, Env(None, None), false, ConnectReturns);
    var w := socket.wrapper;
    var connected := w.Fire(Connected(Null));
    Gifts.CaseBravo("Bravo");
    var gift := w.Fire(Message("gift", Obj(map["giftName" := Str("Bravo")])));
    assert gift == Invoke(Gifts.HandleBravo);
    var end := w.Fire(Message("streamEnd", Undefined));
    var again := w.Fire(Connected(Null));
    assert again == Nothing;
    socket.Disconnect();
    assert socket.outbox == [Emission("tiktokConnected", [Null]), Emission("streamEnd", [])];
    assert w.disconnectCalls == 1;
  }

  /**
   * A second `setUniqueId` on the same socket replaces the variable without
   * disconnecting the first wrapper, whose listeners still emit to the
   * socket; the socket's `disconnect` then reaches only the second one.
   */
  method RepeatedStartScenario()
  {
    var socket := new SocketConnection();
    var env := Env(None, None);
    socket.SetUniqueId(Str("alice"), null, env, false, ConnectReturns);
    var first := socket.wrapper;
    socket.SetUniqueId(Str("bob"), null, env, false, ConnectReturns);
    var second := socket.wrapper;
    assert first != second;
    var chat := first.Fire(Message("chat", Str("hi")));
    assert socket.outbox == [Emission("chat", [Str("hi")])];
    socket.Disconnect();
    assert second.disconnectCalls == 1 && first.disconnectCalls == 0;
    assert first.relayTo == socket;
  }
}
