/**
 The slice of JavaScript's value semantics the metrics service depends on:
 truthiness (every `if (x)` and `x ? a : b` in the service) and the two things
 the metric builder reads from a thrown value, `.message` and `.toString()`.
 */
module Js {

  /** A JavaScript value as far as the service can observe it. Objects (and
      functions) are opaque references. */
  datatype Value =
    | Undefined
    | Null
    | Bool(b: bool)
    | Num(n: real)
    | Str(s: string)
    | Ref(id: nat)

  /** JavaScript truthiness (NaN is not modelled). */
  predicate Truthy(v: Value) {
    match v
    case Undefined => false
    case Null => false
    case Bool(b) => b
    case Num(n) => n != 0.0
    case Str(s) => |s| > 0
    case Ref(_) => true
  }

  /** A thrown value (or rejection reason): the value itself, what reading its
      `message` property yields, and what its `toString()` returns. */
  datatype Fault = Fault(thrown: Value, message: Value, text: string)

  /** `throw "..."`: a string has no `message` property and is its own string form. */
  function StringThrow(s: string): Fault {
    Fault(Str(s), Undefined, s)
  }

  /** `throw new Error(message)` for the object with identity `id`. */
  function ErrorObject(id: nat, message: string): Fault {
    Fault(Ref(id), Str(message), if |message| == 0 then "Error" else "Error: " + message)
  }

  /** The `errorMessage` the builder attaches: the message if it is truthy,
      otherwise the string form of the thrown value. */
  function ErrorMessage(f: Fault): Value {
    if Truthy(f.message) then f.message else Str(f.text)
  }

  /** A thrown non-empty string is reported by its own text. */
  lemma StringThrowMessage(s: string)
    requires |s| > 0
    ensures Truthy(StringThrow(s).thrown)
    ensures ErrorMessage(StringThrow(s)) == Str(s)
  {
  }

  /** An `Error` object is always truthy; it is reported by its message, or by
      its string form "Error" when the message is empty. */
  lemma ErrorObjectMessage(id: nat, message: string)
    ensures Truthy(ErrorObject(id, message).thrown)
    ensures |message| > 0 ==> ErrorMessage(ErrorObject(id, message)) == Str(message)
    ensures |message| == 0 ==> ErrorMessage(ErrorObject(id, message)) == Str("Error")
  {
  }
}
