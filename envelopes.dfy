/** The result envelope every RPC entry point returns: a dictionary with a boolean
    under "ok" and, beside it, either the payload (under "response" or "item") or
    the error (under "error"). */
module Envelopes {

  /** A value stored in an envelope: the `ok` flag, the payload, or the error. */
  datatype Field<+V, +E> = Flag(b: bool) | Payload(v: V) | Problem(e: E)

  /** The envelope dictionary, keyed by the literal key strings. */
  type Envelope<V, E> = map<string, Field<V, E>>

  const OkKey: string := "ok"
  const ErrorKey: string := "error"

  /** The key the payload of a successful call is stored under. */
  datatype PayloadKey = ResponseKey | ItemKey {
    function Name(): string
    {
      match this
      case ResponseKey => "response"
      case ItemKey => "item"
    }
  }

  /** The invariant of an envelope: "ok" holds a boolean; when it is true, the only
      other key is the payload key and it holds a payload; when it is false, the only
      other key is "error" and it holds an error. So exactly one of the two is present. */
  predicate WellFormed<V, E>(env: Envelope<V, E>, key: PayloadKey)
  {
    && OkKey in env
    && env[OkKey].Flag?
    && if env[OkKey].b then
         env.Keys == {OkKey, key.Name()} && env[key.Name()].Payload?
       else
         env.Keys == {OkKey, ErrorKey} && env[ErrorKey].Problem?
  }

  /** `env["ok"]` is `True`. */
  predicate IsOk<V, E>(env: Envelope<V, E>)
  {
    OkKey in env && env[OkKey].Flag? && env[OkKey].b
  }

  /** `{"ok": True, key: v}`. */
  function Success<V, E>(key: PayloadKey, v: V): (env: Envelope<V, E>)
    ensures WellFormed(env, key) && IsOk(env)
    ensures env[key.Name()] == Payload(v)
  {
    map[OkKey := Flag(true), key.Name() := Payload(v)]
  }

  /** `{"ok": False, "error": e}`. */
  function Failure<V, E>(e: E): (env: Envelope<V, E>)
    ensures forall key: PayloadKey :: WellFormed(env, key)
    ensures !IsOk(env)
    ensures env[ErrorKey] == Problem(e)
  {
    map[OkKey := Flag(false), ErrorKey := Problem(e)]
  }

  /** An envelope never holds both a payload and an error. */
  lemma ExactlyOneOf<V, E>(env: Envelope<V, E>, key: PayloadKey)
    requires WellFormed(env, key)
    ensures key.Name() in env <==> IsOk(env)
    ensures ErrorKey in env <==> !IsOk(env)
  {
    assert key.Name() != OkKey && key.Name() != ErrorKey;
  }
}
