/**
 * The small slice of JavaScript's value and error model that the stack
 * tracer touches: thrown errors, optional values, and the argument values
 * that the live-chain formatter renders.
 */
module Js {

  /** The exceptions the tracer's code can throw. */
  datatype JsError = TypeError | ReferenceError

  datatype Option<+T> = None | Some(value: T)

  /** A computation that either yields a value or throws. */
  datatype Result<+T> = Ok(value: T) | Err(error: JsError)

  /**
   * A JavaScript value as far as argument stringification can tell them
   * apart: by `=== undefined`, `=== null` and by the `constructor` property.
   * `OtherValue` is any value whose constructor is none of Array, Object,
   * Function, String or Number (booleans, class instances, objects made
   * with a null prototype).
   */
  datatype JsValue =
    | Undefined
    | Null
    | Num(n: int)
    | Str(s: string)
    | Arr(items: seq<JsValue>)
    | PlainObject
    | Func
    | OtherValue

  /**
   * The names every object literal inherits from Object.prototype: `name in
   * {}` holds for each, although the object itself has no such property.
   */
  const InheritedNames: set<string> := {
    "constructor", "hasOwnProperty", "isPrototypeOf", "propertyIsEnumerable",
    "toLocaleString", "toString", "valueOf", "__proto__",
    "__defineGetter__", "__defineSetter__", "__lookupGetter__", "__lookupSetter__"}

  /** `'{anonymous}'`, the placeholder for a function without a name. */
  const Anon: string := "{anonymous}"

  /** The placeholder as formatters emit it, with an empty argument list. */
  const AnonCall: string := Anon + "()"
}
