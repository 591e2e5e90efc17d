/** The few JavaScript values and coercions the three form components depend on. */
module Js {

  datatype Option<T> = None | Some(value: T)

  /** A value in a component's form state: a text field's text, a checkbox flag,
      a nested object, or `undefined` for a key that is not there. */
  datatype Value = Undefined | Str(s: string) | Bool(b: bool) | Obj(fields: map<string, Value>)

  /** Reading `obj[key]`: a missing key reads as `undefined`. */
  function Get(obj: map<string, Value>, key: string): Value
  {
    if key in obj then obj[key] else Undefined
  }

  /** `{ ...prev, [name]: v }`: a copy of the object in which the literal key
      `name` holds `v`. A dotted name is an ordinary key; nothing nested is touched. */
  function Assign(prev: map<string, Value>, name: string, v: Value): (next: map<string, Value>)
    ensures next.Keys == prev.Keys + {name}
    ensures next[name] == v
    ensures forall k :: k in prev && k != name ==> next[k] == prev[k]
  {
    prev[name := v]
  }

  /** What JavaScript's ToNumber coercion yields for a string. The coercion
      itself belongs to the runtime and is passed in where it is needed. */
  datatype Number = NaN | Finite(x: real) | Infinity(positive: bool)

  /** `n > c` for a finite constant `c`: every comparison with NaN is false. */
  predicate Above(n: Number, c: real)
  {
    match n
    case NaN => false
    case Finite(x) => x > c
    case Infinity(positive) => positive
  }

  /** `n <= c` for a finite constant `c`. */
  predicate AtMost(n: Number, c: real)
  {
    match n
    case NaN => false
    case Finite(x) => x <= c
    case Infinity(positive) => !positive
  }

  /** The `message` of a caught exception: a text the component threw itself,
      or one the browser made up (a rejected `fetch`, a property read on
      `undefined`), whose wording depends on the browser and is never empty. */
  datatype Message = Text(text: string) | EngineText

  /** The three MUI severities (`success`, `warning`, `error`); as palette
      colours they are written `success.main`, `warning.main`, `error.main`. */
  datatype Tone = Success | Warning | Error
  {
    /** How alarming the tone is. */
    function Rank(): nat
    {
      match this
      case Success => 0
      case Warning => 1
      case Error => 2
    }
  }
}
