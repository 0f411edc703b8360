/**
 * Sanitisation of the caller-supplied `options` in the `setUniqueId`
 * handler: the transport overrides are deleted from the caller's object,
 * a non-object is replaced by a fresh empty object, and a configured
 * server-side session id overrides the caller's `sessionId`.
 */
module Options {
  import opened Wrappers
  import opened Js

  /** The two process environment values the handler reads. */
  datatype Env = Env(sessionId: Option<string>, enableRateLimit: Option<string>)
  {
    /** `if (process.env.SESSIONID)`: set and not empty. */
    predicate SessionIdSet()
      ensures SessionIdSet() <==> Truthy(EnvValue(sessionId))
    {
      sessionId.Some? && sessionId.value != ""
    }

    /** `process.env.ENABLE_RATE_LIMIT && ...`: set and not empty (so "false" enables it too). */
    predicate RateLimitEnabled()
      ensures RateLimitEnabled() <==> Truthy(EnvValue(enableRateLimit))
    {
      enableRateLimit.Some? && enableRateLimit.value != ""
    }
  }

  /** An environment variable as JavaScript reads it: undefined when unset, else a string. */
  function EnvValue(o: Option<string>): JsValue
  {
    if o.Some? then Str(o.value) else Undefined
  }

  /** Keys a caller may never pass through to the connection wrapper. */
  const TransportOverrides: set<string> := {"requestOptions", "websocketOptions"}

  /**
   * The properties of the options object after sanitisation, given the
   * caller's properties (empty when the caller sent no object).
   */
  function Sanitized(props: map<string, JsValue>, env: Env): (r: map<string, JsValue>)
    ensures "requestOptions" !in r && "websocketOptions" !in r
    ensures forall k :: k in r ==> k in props || k == "sessionId"
    ensures forall k :: k in props && k !in TransportOverrides && !(k == "sessionId" && env.SessionIdSet())
                        ==> k in r && r[k] == props[k]
    ensures env.SessionIdSet() ==> "sessionId" in r && r["sessionId"] == Str(env.sessionId.value)
    ensures !env.SessionIdSet() ==> ("sessionId" in r <==> "sessionId" in props)
  {
    var stripped := props - TransportOverrides;
    if env.SessionIdSet() then stripped["sessionId" := Str(env.sessionId.value)] else stripped
  }

  /** A JavaScript object whose properties the handler changes in place. */
  class JsObject {
    var props: map<string, JsValue>

    constructor (props: map<string, JsValue>)
      ensures this.props == props
    {
      this.props := props;
    }

    /** `delete obj[key]`: removes the key if present. */
    method Delete(key: string)
      modifies this
      ensures props == old(props) - {key}
    {
      props := props - {key};
    }

    /** `obj[key] = v`. */
    method Put(key: string, v: JsValue)
      modifies this
      ensures props == old(props)[key := v]
    {
      props := props[key := v];
    }
  }

  /**
   * The sanitisation step of the handler. `options == null` stands for
   * every value that is not a non-null object (null, undefined, a string,
   * a number, a boolean): such a value is replaced by a fresh `{}`.
   * An object is cleaned in place and is itself what goes on.
   */
  method SanitizeOptions(options: JsObject?, env: Env) returns (forwarded: JsObject)
    modifies options
    ensures options != null ==> forwarded == options
    ensures options == null ==> fresh(forwarded)
    ensures forwarded.props == Sanitized(if options == null then map[] else old(options.props), env)
  {
    if options != null {
      options.Delete("requestOptions");
      options.Delete("websocketOptions");
      forwarded := options;
    } else {
      forwarded := new JsObject(map[]);
    }
    if env.SessionIdSet() {
      forwarded.Put("sessionId", Str(env.sessionId.value));
    }
  }

  /** A caller that sends no object gets exactly the configured session id, or nothing. */
  lemma NonObjectOptions(env: Env)
    ensures Sanitized(map[], env) == if env.SessionIdSet() then map["sessionId" := Str(env.sessionId.value)] else map[]
  {
  }

  /** Sanitising twice changes nothing more: the result is a fixed point. */
  lemma SanitizeIdempotent(props: map<string, JsValue>, env: Env)
    ensures Sanitized(Sanitized(props, env), env) == Sanitized(props, env)
  {
    var once := Sanitized(props, env);
    var twice := Sanitized(once, env);
    assert twice.Keys == once.Keys;
  }
}
