/** Composition of a modifier list into one continuation-passing step
    (`createNested`, packages/@testup/core/testup.js). */
module Chain {
  import opened JsValues
  import opened Behaviours

  /** What running a composed chain `nest(ctx, next)` does before `next` would
      run: `next` is reached with the final context, some modifier returned
      without calling its continuation, or something threw. Errors thrown by
      `next` itself pass back through the modifiers unchanged, since none of
      them catches. */
  datatype Step = Proceed(ctx: Value) | Skipped | Failed(error: Value)

  /** A context `next` may receive: an object whose `constructor` is
      `Object`, that is a plain object with no own `constructor` property
      shadowing the inherited one. */
  predicate IsRecord(v: Value) {
    v.PlainObject? && "constructor" !in v.fields
  }

  /** The check applied to the context a modifier hands to its continuation:
      `undefined` keeps the incoming context, a record is taken (and frozen),
      `null` makes reading `.constructor` throw a TypeError, and anything
      else, a plain object with its own `constructor` property included, is
      refused. */
  function CheckContext(sub: Value, incoming: Value): (r: Result<Value>)
    ensures r.Ok? <==> sub.Undefined? || IsRecord(sub)
    ensures r.Ok? ==> r.value == if sub.Undefined? then incoming else sub
    ensures sub.Null? ==> r == Thrown(TypeError)
    ensures !sub.Undefined? && !sub.Null? && !IsRecord(sub) ==>
              r == Thrown(Error("Context should be instance of Object"))
  {
    match sub
    case Undefined => Ok(incoming)
    case Null => Thrown(TypeError)
    case PlainObject(fields) =>
      if "constructor" in fields then Thrown(Error("Context should be instance of Object")) else Ok(sub)
    case _ => Thrown(Error("Context should be instance of Object"))
  }

  /** `createNested(mods)(ctx, next)`: the first modifier is outermost; calling
      an element that is not a function throws a TypeError. */
  function Nest(mods: seq<Arg>, ctx: Value): Step {
    if |mods| == 0 then Proceed(ctx)
    else match mods[0]
      case Func(f) =>
        (match f.onCall(ctx)
         case Returns => Skipped
         case Throws(e) => Failed(e)
         case CallsNext(sub) =>
           (match CheckContext(sub, ctx)
            case Thrown(e) => Failed(e)
            case Ok(c) => Nest(mods[1..], c)))
      case _ => Failed(TypeError)
  }

  /** Continue a step with further modifiers, as the head's continuation does. */
  function Then(s: Step, rest: seq<Arg>): Step {
    match s
    case Proceed(c) => Nest(rest, c)
    case _ => s
  }

  /** An empty chain hands the context straight to `next`. */
  lemma NestEmpty(ctx: Value)
    ensures Nest([], ctx) == Proceed(ctx)
  {
  }

  /** Composition: the modifiers registered first wrap the ones registered
      later, and those wrap `next`. */
  lemma {:induction false} NestAppend(a: seq<Arg>, b: seq<Arg>, ctx: Value)
    ensures Nest(a + b, ctx) == Then(Nest(a, ctx), b)
    decreases |a|
  {
    if |a| == 0 {
      assert a + b == b;
    } else {
      assert (a + b)[0] == a[0];
      assert (a + b)[1..] == a[1..] + b;
      if a[0].Func? {
        var f := a[0].fn;
        if f.onCall(ctx).CallsNext? {
          var r := CheckContext(f.onCall(ctx).ctx, ctx);
          if r.Ok? {
            NestAppend(a[1..], b, r.value);
          }
        }
      }
    }
  }

  /** A one-element chain: what the single modifier does with `next`. */
  lemma NestSingle(m: Arg, ctx: Value)
    ensures !m.Func? ==> Nest([m], ctx) == Failed(TypeError)
    ensures m.Func? && m.fn.onCall(ctx).Returns? ==> Nest([m], ctx) == Skipped
    ensures m.Func? && m.fn.onCall(ctx).Throws? ==> Nest([m], ctx) == Failed(m.fn.onCall(ctx).error)
    ensures m.Func? && m.fn.onCall(ctx).CallsNext? ==>
              var sub := m.fn.onCall(ctx).ctx;
              Nest([m], ctx) == match CheckContext(sub, ctx)
                                case Ok(c) => Proceed(c)
                                case Thrown(e) => Failed(e)
  {
    assert [m][1..] == [];
  }

  /** The context that reaches `next` is the incoming one or a record some
      modifier produced: nothing else gets through the checks. */
  lemma {:induction false} NestProceedsWithRecord(mods: seq<Arg>, ctx: Value)
    ensures Nest(mods, ctx).Proceed? ==>
              Nest(mods, ctx).ctx == ctx || IsRecord(Nest(mods, ctx).ctx)
    decreases |mods|
  {
    if |mods| > 0 && mods[0].Func? {
      var f := mods[0].fn;
      if f.onCall(ctx).CallsNext? {
        var r := CheckContext(f.onCall(ctx).ctx, ctx);
        if r.Ok? {
          NestProceedsWithRecord(mods[1..], r.value);
        }
      }
    }
  }

  /** A chain of modifiers that all call their continuation with `undefined`
      reaches `next` with the incoming context. */
  lemma {:induction false} NestAllReuse(mods: seq<Arg>, ctx: Value)
    requires forall k :: 0 <= k < |mods| ==> mods[k].Func? && mods[k].fn.onCall(ctx) == CallsNext(Undefined)
    ensures Nest(mods, ctx) == Proceed(ctx)
    decreases |mods|
  {
    if |mods| > 0 {
      assert forall k :: 0 <= k < |mods| - 1 ==> mods[1..][k] == mods[k + 1];
      NestAllReuse(mods[1..], ctx);
    }
  }
}
