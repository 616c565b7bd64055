/** The user code the engine calls — modifiers, handlers and script bodies —
    described by what it does rather than by its text. A JavaScript function is
    observed in two roles: called with a context (and a `next` continuation) as
    a modifier or a handler, and called with the builder handles as the body of
    a script, a `describe` or an `each`. */
module Behaviours {
  import opened JsValues

  /** What a function does when it is called as `fn(ctx, next)` (or `fn(ctx)`):
      return without calling `next`, throw, or call `next(ctx')` exactly once and
      hand back whatever that call does. */
  datatype Action = Returns | Throws(error: Value) | CallsNext(ctx: Value)

  /** A JavaScript function: its action for every incoming context, and the
      builder calls it makes, in order, when it is called with the handles. */
  datatype Fn = Fn(onCall: Value -> Action, body: seq<Call>)

  /** An argument of a builder call: a function, an array literal, or any
      other value (which is never callable). */
  datatype Arg = Func(fn: Fn) | List(items: seq<Arg>) | Data(value: Value)

  /** One statement of a script body: a builder call, or a `throw`. Labels are
      strings (the source's `label`); a missing, `null` or `undefined` label is the empty string, which
      every use of a label (`label || type`, `path.join`) treats the same way. */
  datatype Call =
    | Describe(name: string, handler: Arg)
    | Use(handler: Arg)
    | It(name: string, args: seq<Arg>)
    | Each(args: seq<Arg>)
    | Fail(error: Value)

  predicate IsFunction(a: Arg) {
    a.Func?
  }
}
