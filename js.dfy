/**
  The few JavaScript value semantics the loaders and the lifecycle use cases
  rely on: `typeof`, truthiness, `key in object`, reading a property (which
  throws on `undefined` and `null`), optional calls `f?.()`, and how a call
  ends when it is awaited or not.
 */
module Js {
  import opened Wrappers

  /**
    How calling a function ends: it returns (a resolved promise, for an async
    hook), throws synchronously, or returns a promise that rejects.
   */
  datatype Completion = Resolves | Raises(message: string) | Rejects(message: string)

  /** A JavaScript value, as far as these files inspect one. */
  datatype JsValue =
    | Undefined
    | Null
    | Boolean(b: bool)
    | Number(n: int)
    | Str(s: string)
    | Function(call: Completion)
    | Object(props: map<string, JsValue>)

  /** `typeof v` */
  function TypeOf(v: JsValue): string {
    match v
    case Undefined => "undefined"
    case Null => "object"
    case Boolean(_) => "boolean"
    case Number(_) => "number"
    case Str(_) => "string"
    case Function(_) => "function"
    case Object(_) => "object"
  }

  /** Whether `v` is truthy. */
  predicate Truthy(v: JsValue) {
    match v
    case Undefined => false
    case Null => false
    case Boolean(b) => b
    case Number(n) => n != 0
    case Str(s) => s != ""
    case Function(_) => true
    case Object(_) => true
  }

  /** `key in v` for an object `v`. */
  predicate HasOwn(v: JsValue, key: string) {
    v.Object? && key in v.props
  }

  /**
    `v[key]`: a missing property reads as `undefined`; reading any property of
    `undefined` or `null` throws a TypeError.
   */
  function GetProperty(v: JsValue, key: string): (r: Result<JsValue, string>)
    ensures r.Failure? <==> v.Undefined? || v.Null?
    ensures HasOwn(v, key) ==> r == Success(v.props[key])
  {
    match v
    case Undefined => Failure("Cannot read properties of undefined (reading '" + key + "')")
    case Null => Failure("Cannot read properties of null (reading '" + key + "')")
    case Object(props) => Success(if key in props then props[key] else Undefined)
    case _ => Success(Undefined)
  }

  /**
    `receiver.hook?.()` where `receiver` names the variable holding `v`:
    an absent hook (`undefined` or `null`) is not called; a function is
    called; anything else throws "<receiver>.<hook> is not a function".
   */
  function CallOptional(receiver: string, v: JsValue, hook: string): (c: Completion)
    ensures GetProperty(v, hook).Success? && GetProperty(v, hook).value.Function? ==> c == GetProperty(v, hook).value.call
    ensures GetProperty(v, hook).Success? && GetProperty(v, hook).value in {Undefined, Null} ==> c == Resolves
  {
    match GetProperty(v, hook)
    case Failure(e) => Raises(e)
    case Success(f) =>
      if f.Undefined? || f.Null? then Resolves
      else if f.Function? then f.call
      else Raises(receiver + "." + hook + " is not a function")
  }

  /** `await c`: a synchronous throw and a rejection both reach the surrounding `catch`. */
  function Awaited(c: Completion): (o: Outcome)
    ensures o.Ok? <==> c.Resolves?
  {
    match c
    case Resolves => Ok
    case Raises(m) => Throws(m)
    case Rejects(m) => Throws(m)
  }

  /** A call whose promise is dropped: only a synchronous throw reaches the surrounding `catch`. */
  function NotAwaited(c: Completion): (o: Outcome)
    ensures o.Ok? <==> !c.Raises?
  {
    match c
    case Raises(m) => Throws(m)
    case _ => Ok
  }
}
