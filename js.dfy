/** JavaScript value semantics that the three handlers rely on: absent values,
    truthiness, the `a || b` default idiom, and property lookup on an object
    literal (which also sees the members inherited from Object.prototype). */
module Js {

  /** A value that may be `undefined` (or `null`): None, or a present value. */
  datatype Option<T> = None | Some(value: T)

  /** The outcome of a call that may throw: its value, or the thrown error's message. */
  datatype Result<T> = Success(value: T) | Failure(error: string)

  /** A string is truthy when it is present and not empty. */
  predicate Truthy(s: Option<string>)
  {
    s.Some? && s.value != ""
  }

  /** A number is truthy when it is present, not NaN (both modelled by None) and not 0. */
  predicate TruthyInt(n: Option<int>)
  {
    n.Some? && n.value != 0
  }

  /** `s || fallback` where the fallback is a string literal. */
  function Or(s: Option<string>, fallback: string): string
  {
    if Truthy(s) then s.value else fallback
  }

  /** `a || b` where both operands may be absent. */
  function Either(a: Option<string>, b: Option<string>): Option<string>
  {
    if Truthy(a) then a else b
  }

  /** `${s}` in a template literal: an absent value prints as "undefined". */
  function Interpolate(s: Option<string>): string
  {
    if s.Some? then s.value else "undefined"
  }

  /** The names every object literal inherits from Object.prototype. Each of them
      is a function or (for `__proto__`) an object, so each is truthy. */
  const ObjectPrototypeMembers: set<string> :=
    { "constructor", "hasOwnProperty", "isPrototypeOf", "propertyIsEnumerable",
      "toLocaleString", "toString", "valueOf", "__proto__",
      "__defineGetter__", "__defineSetter__", "__lookupGetter__", "__lookupSetter__" }

  /** What `obj[key]` yields on an object literal: one of its own values, an
      inherited Object.prototype member, or `undefined`. */
  datatype Property<T> = Own(value: T) | Inherited(name: string) | Missing

  function Lookup<T>(obj: map<string, T>, key: string): Property<T>
  {
    if key in obj then Own(obj[key])
    else if key in ObjectPrototypeMembers then Inherited(key)
    else Missing
  }
}
