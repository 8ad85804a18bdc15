/**
  The JavaScript runtime notions the toolkit relies on: optional values,
  exceptions (`throw new Error(message, { cause })`), promise settlement,
  and the values found on the global `window` object.
 */
module Js {

  datatype Option<+T> = None | Some(value: T)

  /** An exception value. `Wrapped` is `new Error(message, { cause })`. */
  datatype Error =
    | Error(message: string)
    | Wrapped(message: string, cause: Error)
    // Raised by the engine when a property of null or undefined is read;
    // its wording is engine-specific and is not modelled.
    | TypeError
    // Raised by `querySelector` for a syntactically invalid selector.
    | SyntaxError
    // A rejection whose value is a bare string rather than an Error.
    | Reason(text: string)

  /** A call that either returns a value or throws. */
  datatype Result<+T> = Ok(value: T) | Err(error: Error) {
    predicate IsFailure() { Err? }
    function PropagateFailure<U>(): Result<U>
      requires Err?
    {
      Err(error)
    }
    function Extract(): T
      requires Ok?
    {
      value
    }
  }

  /** Replaces a thrown error by `new Error(message, { cause: error })`. */
  function WrapErr<T>(r: Result<T>, message: string): (w: Result<T>)
    ensures r.Ok? ==> w == r
    ensures r.Err? ==> w == Err(Wrapped(message, r.error))
  {
    match r
    case Ok(v) => Ok(v)
    case Err(e) => Err(Wrapped(message, e))
  }

  /** The state of a promise. Once settled it never changes again. */
  datatype Settlement<+T> = Pending | Resolved(value: T) | Rejected(reason: Error) {
    predicate Settled() { !Pending? }
  }

  /** `resolve(v)`: has effect only on a pending promise. */
  function Resolve<T>(s: Settlement<T>, v: T): (r: Settlement<T>)
    ensures s.Pending? ==> r == Resolved(v)
    ensures s.Settled() ==> r == s
  {
    if s.Pending? then Resolved(v) else s
  }

  /** `reject(e)`: has effect only on a pending promise. */
  function Reject<T>(s: Settlement<T>, e: Error): (r: Settlement<T>)
    ensures s.Pending? ==> r == Rejected(e)
    ensures s.Settled() ==> r == s
  {
    if s.Pending? then Rejected(e) else s
  }

  /** `promise.catch(e => { throw new Error(message, { cause: e }) })`. */
  function WrapRejection<T>(s: Settlement<T>, message: string): (w: Settlement<T>)
    ensures !s.Rejected? ==> w == s
    ensures s.Rejected? ==> w == Rejected(Wrapped(message, s.reason))
  {
    match s
    case Rejected(e) => Rejected(Wrapped(message, e))
    case other => other
  }

  /**
    A JavaScript value, as far as the waiters inspect it. Objects and
    functions carry an identity and the properties a read reaches on them,
    their own and those inherited along the prototype chain.
   */
  datatype JsValue =
    | Undefined
    | Null
    | Bool(b: bool)
    | Number(n: int)
    | Str(s: string)
    | Function(id: nat, props: map<string, JsValue>)
    | Object(id: nat, props: map<string, JsValue>)

  /**
    The members of `Boolean.prototype`, `Number.prototype` and
    `String.prototype` (and of `Object.prototype` behind them), which a
    property read on a primitive reaches through its wrapper object.
   */
  datatype Prototypes = Prototypes(
    booleanMembers: map<string, JsValue>,
    numberMembers: map<string, JsValue>,
    stringMembers: map<string, JsValue>)

  /** `v instanceof Function`. */
  predicate IsFunction(v: JsValue) { v.Function? }

  /** `v instanceof Object`: functions are objects too; null is not. */
  predicate IsObject(v: JsValue) { v.Function? || v.Object? }

  /** The string `typeof v` evaluates to. */
  function TypeOf(v: JsValue): string
  {
    match v
    case Undefined => "undefined"
    case Null => "object"
    case Bool(_) => "boolean"
    case Number(_) => "number"
    case Str(_) => "string"
    case Function(_, _) => "function"
    case Object(_, _) => "object"
  }

  /** `a === b`: primitives by value, objects and functions by identity. */
  predicate StrictEquals(a: JsValue, b: JsValue)
  {
    match (a, b)
    case (Undefined, Undefined) => true
    case (Null, Null) => true
    case (Bool(x), Bool(y)) => x == y
    case (Number(x), Number(y)) => x == y
    case (Str(x), Str(y)) => x == y
    case (Function(i, _), Function(j, _)) => i == j
    case (Object(i, _), Object(j, _)) => i == j
    case _ => false
  }

  /** `v[key]` where `props` holds what a read on `v` reaches: absent keys read as undefined. */
  function Lookup(props: map<string, JsValue>, key: string): JsValue
  {
    if key in props then props[key] else Undefined
  }

  /**
    What a property read on a non-nullish value reaches: an object's or a
    function's properties, or a primitive's prototype members; a string
    also has its own `length`.
   */
  function Reachable(v: JsValue, protos: Prototypes): map<string, JsValue>
    requires !v.Undefined? && !v.Null?
  {
    match v
    case Bool(_) => protos.booleanMembers
    case Number(_) => protos.numberMembers
    case Str(s) => protos.stringMembers["length" := Number(|s|)]
    case Function(_, props) => props
    case Object(_, props) => props
  }

  /** `v[key]`: reading a property of null or undefined throws a TypeError. */
  function GetProperty(v: JsValue, key: string, protos: Prototypes): (r: Result<JsValue>)
    ensures r.Err? <==> (v.Undefined? || v.Null?)
    ensures r.Err? ==> r.error == TypeError
    ensures (v.Function? || v.Object?) ==> r == Ok(Lookup(v.props, key))
    ensures v.Str? && key == "length" ==> r == Ok(Number(|v.s|))
    ensures v.Str? && key != "length" ==> r == Ok(Lookup(protos.stringMembers, key))
    ensures v.Bool? ==> r == Ok(Lookup(protos.booleanMembers, key))
    ensures v.Number? ==> r == Ok(Lookup(protos.numberMembers, key))
  {
    match v
    case Undefined => Err(TypeError)
    case Null => Err(TypeError)
    case _ => Ok(Lookup(Reachable(v, protos), key))
  }

  /** The global scope, and the primitive prototypes of this realm. */
  datatype Window = Window(globals: map<string, JsValue>, prototypes: Prototypes)

  /** `window[name]`: `Undefined` for an absent name. */
  function Global(w: Window, name: string): JsValue
  {
    Lookup(w.globals, name)
  }
}
