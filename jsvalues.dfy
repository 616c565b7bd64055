/** JavaScript values as the test engine sees them: thrown errors, contexts handed
    along a modifier chain, and the arguments of the builder calls. */
module JsValues {

  datatype Option<+T> = None | Some(value: T)

  /** What a JavaScript call does: return a value or throw one. */
  datatype Result<+T> = Ok(value: T) | Thrown(error: Value)

  /** The values the engine inspects. Plain objects (created by an object literal)
      carry their own properties, which may include one named `constructor`;
      every other object, whose `constructor` is not `Object`, is known only by
      its constructor's name. `Error(m)` is `new Error(m)`;
      `TypeError` is what the engine raises when a non-function is called or a
      property of `null` is read (its message is not modelled). */
  datatype Value =
    | Undefined
    | Null
    | Bool(b: bool)
    | Num(n: int)
    | Str(s: string)
    | PlainObject(fields: map<string, Value>)
    | OtherObject(constructorName: string)
    | Error(message: string)
    | TypeError

  /** JavaScript truthiness (`if (v)` / `! v`). */
  predicate Truthy(v: Value) {
    match v
    case Undefined => false
    case Null => false
    case Bool(b) => b
    case Num(n) => n != 0
    case Str(s) => s != ""
    case _ => true
  }
}
