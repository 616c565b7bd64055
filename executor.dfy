/** Running a built tree (`runScript`, `runSuite`, `runCase`,
    packages/@testup/core/testup.js): suites and cases are visited depth
    first, each inside the chain of its own modifiers, and every step is
    reported. The reporter is modelled by the sequence of calls it receives. */
module Executor {
  import opened JsValues
  import opened Behaviours
  import opened Chain
  import opened UnitTree
  import opened Builder

  /** One reporter call, naming the unit it is about by its arena index. */
  datatype Event =
    | StartSuite(unit: nat)
    | EndSuite(unit: nat)
    | StartCase(unit: nat)
    | EndCase(unit: nat)
    | BrokenScript(error: Value)
    | BrokenUnit(unit: nat, error: Value)
    | ReportError(error: Value)

  /** What a run throws: a case's chain failing (`UnitError`), a suite's chain
      failing (`RuntimeError`), or an error that escaped both wrappers. */
  datatype Fault = UnitError(origin: Value) | RuntimeError(origin: Value) | Raw(error: Value)

  datatype Outcome = Done | Broken(fault: Fault)

  /** The error `runScript` reports or rethrows for a fault that is not a
      `UnitError`: a `RuntimeError`'s origin, or the error itself. */
  function Escaped(f: Fault): Value
    requires !f.UnitError?
  {
    match f
    case RuntimeError(origin) => origin
    case Raw(error) => error
  }

  /** `handler(ctx)` for a case: the handler is called without a `next`, so
      one that calls `next` throws a TypeError, as does a handler that is not
      a function. */
  function CallHandler(h: Arg, ctx: Value): (r: Result<()>)
    ensures r.Ok? <==> h.Func? && h.fn.onCall(ctx).Returns?
    ensures h.Func? && h.fn.onCall(ctx).Throws? ==> r == Thrown(h.fn.onCall(ctx).error)
    ensures (!h.Func? || h.fn.onCall(ctx).CallsNext?) ==> r == Thrown(TypeError)
  {
    if !h.Func? then Thrown(TypeError)
    else match h.fn.onCall(ctx)
      case Returns => Ok(())
      case Throws(e) => Thrown(e)
      case CallsNext(_) => Thrown(TypeError)
  }

  /** The argument `end` receives after the handler: nothing when it
      returned, what it threw otherwise. */
  function EndArgument(r: Result<()>): Value {
    if r.Ok? then Undefined else r.error
  }

  /** Only the completion flags, the recorded errors and the `passed` and
      `failed` counters change while a tree runs. */
  lemma SameShapeRefl(units: seq<Unit>)
    ensures SameShape(units, units)
  {
  }

  lemma SameShapeTrans(u1: seq<Unit>, u2: seq<Unit>, u3: seq<Unit>)
    requires SameShape(u1, u2) && SameShape(u2, u3)
    ensures SameShape(u1, u3)
  {
  }

  lemma CompleteSameShape(units: seq<Unit>, i: nat)
    requires i < |units|
    ensures SameShape(units, units[i := Complete(units[i])])
  {
    SameShapeFrom(units, units[i := Complete(units[i])]);
  }

  lemma EndedSameShape(units: seq<Unit>, c: nat, error: Value)
    requires c < |units| && units[c].Case?
    ensures SameShape(units, Ended(units, c, error))
  {
    var done := units[c := units[c].(isCompleted := true, error := if Truthy(error) then error else Null)];
    var t := if Truthy(error) then Tally.Failed else Passed;
    var ended := Ended(units, c, error);
    forall j | 0 <= j < |units|
      ensures Shape(units[j]) == Shape(ended[j])
    {
      assert ended[j] == if j in Parents(units, c) then Incr(done[j], t) else done[j];
    }
    SameShapeFrom(units, ended);
  }

  /** A case that runs to its end is completed, passes exactly when its
      handler left a falsy error, and keeps a truthy one. */
  lemma EndedVerdict(units: seq<Unit>, c: nat, error: Value)
    requires c < |units| && units[c].Case?
    ensures var done := Ended(units, c, error)[c];
      && done.Case? && done.isCompleted
      && (CaseIsOk(done) <==> !Truthy(error))
      && (Truthy(error) ==> done.error == error)
  {
    var ended := Ended(units, c, error);
    if c in Parents(units, c) {
      ParentsBelow(units, c, c);
    }
    assert ended[c] == units[c].(isCompleted := true, error := if Truthy(error) then error else Null);
  }

  // ----- what a run does, as a value -----

  lemma AppendAssoc<T>(a: seq<T>, b: seq<T>, c: seq<T>)
    ensures a + (b + c) == a + b + c
  {
  }

  /** The effect of running a unit: its outcome, the arena after it, the
      reporter calls it made in order, and the units it left on the stack
      (none when it finished; the way down to the broken unit otherwise). */
  datatype Run = Run(outcome: Outcome, units: seq<Unit>, events: seq<Event>, pushed: seq<nat>)

  /** What every run of a unit leaves behind: the tree keeps its shape, the
      units left on the stack are units of the tree, nothing is left when the
      run finished, and a broken run leaves on top a unit that is a case
      exactly when the fault is a `UnitError`. */
  ghost predicate Coherent(units: seq<Unit>, run: Run) {
    && SameShape(units, run.units)
    && (forall k :: 0 <= k < |run.pushed| ==> run.pushed[k] < |units|)
    && (run.outcome.Done? ==> run.pushed == [])
    && (run.outcome.Broken? ==>
          |run.pushed| > 0 && (run.outcome.fault.UnitError? <==> run.units[run.pushed[|run.pushed| - 1]].Case?))
  }

  /** `runCase` on case `c` with `ctx`: the chain's failure breaks the run
      with the case left on the stack; an early return reports the case as
      ended without ending it; reaching `next` ends the case with what its
      handler threw, or throws 'Already completed' from `end` for a case
      that was already ended. */
  ghost function CaseRun(units: seq<Unit>, c: nat, ctx: Value): (run: Run)
    requires c < |units| && units[c].Case?
    ensures SameShape(units, run.units)
  {
    match Nest(units[c].modifier, ctx)
    case Failed(e) => Run(Broken(UnitError(e)), units, [StartCase(c)], [c])
    case Skipped => Run(Done, units, [StartCase(c), EndCase(c)], [])
    case Proceed(sub) =>
      if units[c].isCompleted then Run(Broken(UnitError(Error("Already completed"))), units, [StartCase(c)], [c])
      else
        EndedSameShape(units, c, EndArgument(CallHandler(units[c].handler, sub)));
        Run(Done, Ended(units, c, EndArgument(CallHandler(units[c].handler, sub))), [StartCase(c), EndCase(c)], [])
  }

  /** How a case's run follows its chain: a failing chain is the case's
      `UnitError` and changes nothing; an early return changes nothing but
      still reports the case as ended; a chain that reaches `next` ends the
      case, which passes exactly when its handler left no truthy error, or
      breaks with 'Already completed' for a case that was already ended. */
  lemma CaseRunChain(units: seq<Unit>, c: nat, ctx: Value)
    requires c < |units| && units[c].Case?
    ensures var step, run := Nest(units[c].modifier, ctx), CaseRun(units, c, ctx);
      && (step.Failed? ==> run == Run(Broken(UnitError(step.error)), units, [StartCase(c)], [c]))
      && (step.Skipped? ==> run == Run(Done, units, [StartCase(c), EndCase(c)], []))
      && (step.Proceed? && units[c].isCompleted ==>
            run == Run(Broken(UnitError(Error("Already completed"))), units, [StartCase(c)], [c]))
      && (step.Proceed? && !units[c].isCompleted ==>
            var error := EndArgument(CallHandler(units[c].handler, step.ctx));
            && run == Run(Done, Ended(units, c, error), [StartCase(c), EndCase(c)], [])
            && run.units[c].isCompleted
            && (CaseIsOk(run.units[c]) <==> !Truthy(error)))
  {
    match Nest(units[c].modifier, ctx)
    case Proceed(sub) =>
      if !units[c].isCompleted {
        EndedVerdict(units, c, EndArgument(CallHandler(units[c].handler, sub)));
      }
    case _ =>
  }

  /** How a suite's run follows its chain when the chain does not reach
      `next`: a failing chain is the suite's `RuntimeError` and leaves the
      suite on the stack; an early return skips the children and ends the
      suite, which throws 'Already completed' when it was already ended. */
  lemma SuiteRunChain(units: seq<Unit>, lists: seq<seq<Arg>>, s: nat, ctx: Value)
    requires Shaped(units, lists) && s < |units| && units[s].Suite?
    ensures var step, run := Nest(lists[units[s].modifierList], ctx), SuiteRun(units, lists, s, ctx);
      && (step.Failed? ==> run == Run(Broken(RuntimeError(step.error)), units, [StartSuite(s)], [s]))
      && (step.Skipped? && !units[s].isCompleted ==>
            run == Run(Done, units[s := Complete(units[s])], [StartSuite(s), EndSuite(s)], []))
      && (step.Skipped? && units[s].isCompleted ==>
            run == Run(Broken(Raw(Error("Already completed"))), units, [StartSuite(s)], [s]))
  {
    SuiteRunSteps(units, lists, s, ctx);
  }

  /** `runSuite` on suite `s` with `ctx`: started, then the guarded chain,
      then `end()` and `endSuite`. */
  ghost function SuiteRun(units: seq<Unit>, lists: seq<seq<Arg>>, s: nat, ctx: Value): (run: Run)
    requires Shaped(units, lists) && s < |units| && units[s].Suite?
    ensures SameShape(units, run.units)
    decreases |units| - s, 2
  {
    var inner := GuardedRun(units, lists, s, ctx);
    var started := [StartSuite(s)] + inner.events;
    if inner.outcome.Broken? then Run(inner.outcome, inner.units, started, [s] + inner.pushed)
    else if inner.units[s].isCompleted then Run(Broken(Raw(Error("Already completed"))), inner.units, started, [s])
    else
      CompleteSameShape(inner.units, s);
      Run(Done, inner.units[s := Complete(inner.units[s])], started + [EndSuite(s)], [])
  }

  /** The three ways a suite's run ends, from the run of its guarded part. */
  lemma SuiteRunSteps(units: seq<Unit>, lists: seq<seq<Arg>>, s: nat, ctx: Value)
    requires Shaped(units, lists) && s < |units| && units[s].Suite?
    ensures var inner, run := GuardedRun(units, lists, s, ctx), SuiteRun(units, lists, s, ctx);
      && (inner.outcome.Broken? ==> run == Run(inner.outcome, inner.units, [StartSuite(s)] + inner.events, [s] + inner.pushed))
      && (inner.outcome.Done? && inner.units[s].isCompleted ==>
            run == Run(Broken(Raw(Error("Already completed"))), inner.units, [StartSuite(s)] + inner.events, [s]))
      && (inner.outcome.Done? && !inner.units[s].isCompleted ==>
            run == Run(Done, inner.units[s := Complete(inner.units[s])], [StartSuite(s)] + inner.events + [EndSuite(s)], []))
  {
  }

  /** The `try` of `runSuite`: the suite's chain with its children as `next`.
      A failing chain is a `RuntimeError` of the suite itself (nothing is
      left above it on the stack), faults from below pass through, and a raw
      error from below is wrapped as a `RuntimeError`. */
  ghost function GuardedRun(units: seq<Unit>, lists: seq<seq<Arg>>, s: nat, ctx: Value): (run: Run)
    requires Shaped(units, lists) && s < |units| && units[s].Suite?
    ensures SameShape(units, run.units)
    decreases |units| - s, 1
  {
    match Nest(lists[units[s].modifierList], ctx)
    case Failed(e) => Run(Broken(RuntimeError(e)), units, [], [])
    case Skipped => Run(Done, units, [], [])
    case Proceed(sub) =>
      var run := ChildrenRun(units, lists, s, units[s].units, sub);
      if run.outcome.Broken? && run.outcome.fault.Raw? then run.(outcome := Broken(RuntimeError(run.outcome.fault.error)))
      else run
  }

  /** The children of suite `s`, in order, each through `runCase` or
      `runSuite`, stopping at the first whose run breaks. */
  ghost function ChildrenRun(units: seq<Unit>, lists: seq<seq<Arg>>, s: nat, children: seq<nat>, ctx: Value): (run: Run)
    requires Shaped(units, lists) && forall k :: 0 <= k < |children| ==> s < children[k] < |units|
    ensures SameShape(units, run.units)
    decreases |units| - s, 0, |children|
  {
    if children == [] then Run(Done, units, [], [])
    else
      var first := ChildRun(units, lists, children[0], ctx);
      if first.outcome.Broken? then first
      else
        ShapedKept(units, first.units, lists);
        var rest := ChildrenRun(first.units, lists, s, children[1..], ctx);
        Run(rest.outcome, rest.units, first.events + rest.events, rest.pushed)
  }

  /** The first child's run, and the rest after it. */
  lemma ChildrenRunStep(units: seq<Unit>, lists: seq<seq<Arg>>, s: nat, children: seq<nat>, ctx: Value)
    requires Shaped(units, lists) && forall k :: 0 <= k < |children| ==> s < children[k] < |units|
    requires children != []
    ensures var first := ChildRun(units, lists, children[0], ctx);
      && (first.outcome.Broken? ==> ChildrenRun(units, lists, s, children, ctx) == first)
      && (first.outcome.Done? ==>
            Shaped(first.units, lists) &&
            var rest := ChildrenRun(first.units, lists, s, children[1..], ctx);
            ChildrenRun(units, lists, s, children, ctx) == Run(rest.outcome, rest.units, first.events + rest.events, rest.pushed))
  {
    ShapedKept(units, ChildRun(units, lists, children[0], ctx).units, lists);
  }

  /** One turn of the loop over the children: with `whole` the walk seen
      after `events`, the turn's child either ends it or leaves the rest of
      the walk to run from the arena the child left. */
  lemma ChildrenRunNext(units: seq<Unit>, lists: seq<seq<Arg>>, s: nat, children: seq<nat>, i: nat, ctx: Value,
                        events: seq<Event>, whole: Run)
    requires Shaped(units, lists) && i < |children|
    requires forall k :: 0 <= k < |children| ==> s < children[k] < |units|
    requires var rest := ChildrenRun(units, lists, s, children[i..], ctx);
      whole == rest.(events := events + rest.events)
    ensures var first := ChildRun(units, lists, children[i], ctx);
      && (first.outcome.Broken? ==> whole == first.(events := events + first.events))
      && (first.outcome.Done? ==>
            && Shaped(first.units, lists) && |first.units| == |units|
            && var rest := ChildrenRun(first.units, lists, s, children[i + 1..], ctx);
               whole == rest.(events := (events + first.events) + rest.events))
  {
    assert children[i..][0] == children[i] && children[i..][1..] == children[i + 1..];
    ChildrenRunStep(units, lists, s, children[i..], ctx);
    var first := ChildRun(units, lists, children[i], ctx);
    if first.outcome.Done? {
      ShapedKept(units, first.units, lists);
      AppendAssoc(events, first.events, ChildrenRun(first.units, lists, s, children[i + 1..], ctx).events);
    }
  }

  /** One child: a case through `runCase`, a suite through `runSuite`. */
  ghost function ChildRun(units: seq<Unit>, lists: seq<seq<Arg>>, c: nat, ctx: Value): (run: Run)
    requires Shaped(units, lists) && c < |units|
    ensures SameShape(units, run.units)
    decreases |units| - c, 3
  {
    if units[c].Case? then CaseRun(units, c, ctx) else SuiteRun(units, lists, c, ctx)
  }

  // ----- what every run leaves behind -----

  lemma CaseRunCoherent(units: seq<Unit>, c: nat, ctx: Value)
    requires c < |units| && units[c].Case?
    ensures Coherent(units, CaseRun(units, c, ctx))
  {
  }

  lemma {:induction false} SuiteRunCoherent(units: seq<Unit>, lists: seq<seq<Arg>>, s: nat, ctx: Value)
    requires Shaped(units, lists) && s < |units| && units[s].Suite?
    ensures Coherent(units, SuiteRun(units, lists, s, ctx))
    decreases |units| - s, 2
  {
    GuardedRunCoherent(units, lists, s, ctx);
    SameShapeAt(units, GuardedRun(units, lists, s, ctx).units, s);
  }

  /** The guarded part of a suite's run never lets a raw error out, and
      when it breaks with nothing left on the stack above the suite, the
      fault is the suite's own `RuntimeError`. */
  lemma {:induction false} GuardedRunCoherent(units: seq<Unit>, lists: seq<seq<Arg>>, s: nat, ctx: Value)
    requires Shaped(units, lists) && s < |units| && units[s].Suite?
    ensures var run := GuardedRun(units, lists, s, ctx);
      && (forall k :: 0 <= k < |run.pushed| ==> run.pushed[k] < |units|)
      && (run.outcome.Done? ==> run.pushed == [])
      && (run.outcome.Broken? ==> !run.outcome.fault.Raw?)
      && (run.outcome.Broken? && run.pushed == [] ==> !run.outcome.fault.UnitError?)
      && (run.outcome.Broken? && run.pushed != [] ==>
            (run.outcome.fault.UnitError? <==> run.units[run.pushed[|run.pushed| - 1]].Case?))
    decreases |units| - s, 1
  {
    match Nest(lists[units[s].modifierList], ctx)
    case Proceed(sub) =>
      ChildrenRunCoherent(units, lists, s, units[s].units, sub);
    case _ =>
  }

  lemma {:induction false} ChildrenRunCoherent(units: seq<Unit>, lists: seq<seq<Arg>>, s: nat, children: seq<nat>, ctx: Value)
    requires Shaped(units, lists) && forall k :: 0 <= k < |children| ==> s < children[k] < |units|
    ensures Coherent(units, ChildrenRun(units, lists, s, children, ctx))
    decreases |units| - s, 0, |children|
  {
    if children != [] {
      var first := ChildRun(units, lists, children[0], ctx);
      ChildRunCoherent(units, lists, children[0], ctx);
      if first.outcome.Done? {
        ShapedKept(units, first.units, lists);
        ChildrenRunCoherent(first.units, lists, s, children[1..], ctx);
      }
    }
  }

  lemma {:induction false} ChildRunCoherent(units: seq<Unit>, lists: seq<seq<Arg>>, c: nat, ctx: Value)
    requires Shaped(units, lists) && c < |units|
    ensures Coherent(units, ChildRun(units, lists, c, ctx))
    decreases |units| - c, 3
  {
    if units[c].Case? {
      CaseRunCoherent(units, c, ctx);
    } else {
      SuiteRunCoherent(units, lists, c, ctx);
    }
  }

  /** The engine's side of a run: the tree, the stack of units being run
      (innermost last, kept when a unit throws) and the reporter's calls. */
  class Execution {
    const tree: Tree
    var stack: seq<nat>
    var trace: seq<Event>

    ghost predicate Valid()
      reads this, tree
    {
      tree.Valid() && forall k :: 0 <= k < |stack| ==> stack[k] < |tree.units|
    }

    constructor (t: Tree)
      requires t.Valid()
      ensures Valid() && tree == t && stack == [] && trace == []
    {
      tree := t;
      stack := [];
      trace := [];
    }

    /** The `catch` of `runScript`: a `UnitError` is reported against the
      unit left on top of the stack, with its origin; a `RuntimeError`'s
      origin, or any other error itself, is reported when `reportErrors` is
      set and thrown otherwise. */
    method Report(f: Fault, reportErrors: bool) returns (r: Result<()>)
      requires BrokenAt(f)
      modifies this
      ensures stack == old(stack)
      ensures f.UnitError? ==> r == Ok(()) && trace == old(trace) + [BrokenUnit(stack[|stack| - 1], f.origin)]
      ensures !f.UnitError? && reportErrors ==> r == Ok(()) && trace == old(trace) + [ReportError(Escaped(f))]
      ensures !f.UnitError? && !reportErrors ==> r == Thrown(Escaped(f)) && trace == old(trace)
    {
      match f {
        case UnitError(origin) =>
          trace := trace + [BrokenUnit(stack[|stack| - 1], origin)];
          r := Ok(());
        case RuntimeError(origin) =>
          if reportErrors {
            trace := trace + [ReportError(origin)];
            r := Ok(());
          } else {
            r := Thrown(origin);
          }
        case Raw(error) =>
          if reportErrors {
            trace := trace + [ReportError(error)];
            r := Ok(());
          } else {
            r := Thrown(error);
          }
      }
    }

    /** Where a broken run stopped: the unit on top of the stack, a case
      exactly when the fault is a `UnitError`. */
    ghost predicate BrokenAt(f: Fault)
      reads this, tree
    {
      |stack| > 0 && stack[|stack| - 1] < |tree.units| && (f.UnitError? <==> tree.units[stack[|stack| - 1]].Case?)
    }

    /** The state after `run`, from a trace `trace0` and a stack `stack0`: the
      run's outcome and arena, its reporter calls appended, and the units it
      left on the stack pushed. */
    ghost predicate Did(run: Run, trace0: seq<Event>, stack0: seq<nat>, r: Outcome)
      reads this, tree
    {
      r == run.outcome && tree.units == run.units && trace == trace0 + run.events && stack == stack0 + run.pushed
    }

    /** `runSuite`: the suite is pushed and started; its modifier array, as it
      stands now, runs as a chain with `ctx`, and when the chain reaches
      `next` the children run in order with the context it produced. A
      `UnitError` or `RuntimeError` from below passes through unchanged, any
      other error is wrapped in a `RuntimeError`; then the suite is ended,
      reported and popped. A chain that returns early skips the children. */
    method RunSuite(s: nat, ctx: Value) returns (r: Outcome)
      requires Valid() && s < |tree.units| && tree.units[s].Suite?
      modifies this, tree
      ensures Valid() && tree.lists == old(tree.lists)
      ensures Did(SuiteRun(old(tree.units), tree.lists, s, ctx), old(trace), old(stack), r)
      decreases |tree.units| - s, 2
    {
      ghost var units0, trace0, stack0 := tree.units, trace, stack;
      ghost var inner := GuardedRun(tree.units, tree.lists, s, ctx);
      stack := stack + [s];
      trace := trace + [StartSuite(s)];
      r := Guarded(s, ctx);
      GuardedRunCoherent(units0, tree.lists, s, ctx);
      if r.Broken? {
        SuiteRunSteps(units0, tree.lists, s, ctx);
        AppendAssoc(stack0, [s], inner.pushed);
        AppendAssoc(trace0, [StartSuite(s)], inner.events);
      } else {
        r := Finish(s, units0, ctx, trace0, stack0);
      }
    }

    /** The `try` of `runSuite`: the chain with the children as its `next`,
      and the wrapping of whatever they throw. */
    method Guarded(s: nat, ctx: Value) returns (r: Outcome)
      requires Valid() && s < |tree.units| && tree.units[s].Suite? && |stack| > 0 && stack[|stack| - 1] == s
      modifies this, tree
      ensures Valid() && tree.lists == old(tree.lists)
      ensures Did(GuardedRun(old(tree.units), tree.lists, s, ctx), old(trace), old(stack), r)
      decreases |tree.units| - s, 1
    {
      var step := Nest(tree.lists[tree.units[s].modifierList], ctx);
      match step {
        case Failed(e) =>
          SameShapeRefl(tree.units);
          return Broken(RuntimeError(e));
        case Skipped =>
          SameShapeRefl(tree.units);
          return Done;
        case Proceed(sub) =>
          r := RunChildren(s, sub);
          if r.Broken? && r.fault.Raw? {
            r := Broken(RuntimeError(r.fault.error));
          }
      }
    }

    /** One turn of the loop over the children: `runCase` for a case,
      `runSuite` for a suite. */
    method RunChild(child: nat, ctx: Value) returns (r: Outcome)
      requires Valid() && child < |tree.units|
      modifies this, tree
      ensures Valid() && tree.lists == old(tree.lists)
      ensures Did(ChildRun(old(tree.units), tree.lists, child, ctx), old(trace), old(stack), r)
      decreases |tree.units| - child, 3
    {
      if tree.units[child].Case? {
        r := RunCase(child, ctx);
      } else {
        r := RunSuite(child, ctx);
      }
    }

    /** The tail of `runSuite`, once the guarded part of suite `s` (which
      started from `units0`, `trace0` and `stack0`) has finished: `end()` on
      the suite (which throws 'Already completed' the second time),
      `endSuite`, and the pop. */
    method Finish(s: nat, ghost units0: seq<Unit>, ghost ctx: Value, ghost trace0: seq<Event>, ghost stack0: seq<nat>)
      returns (r: Outcome)
      requires Valid() && Shaped(units0, tree.lists) && s < |units0| && units0[s].Suite?
      requires Did(GuardedRun(units0, tree.lists, s, ctx), trace0 + [StartSuite(s)], stack0 + [s], Done)
      modifies this, tree
      ensures Valid() && tree.lists == old(tree.lists)
      ensures Did(SuiteRun(units0, tree.lists, s, ctx), trace0, stack0, r)
    {
      ghost var inner := GuardedRun(units0, tree.lists, s, ctx);
      SuiteRunSteps(units0, tree.lists, s, ctx);
      GuardedRunCoherent(units0, tree.lists, s, ctx);
      SameShapeAt(units0, tree.units, s);
      var ended := tree.End(s);
      if ended.Thrown? {
        AppendAssoc(trace0, [StartSuite(s)], inner.events);
        return Broken(Raw(ended.error));
      }
      trace := trace + [EndSuite(s)];
      stack := stack[..|stack| - 1];
      AppendAssoc(trace0, [StartSuite(s)] + inner.events, [EndSuite(s)]);
      AppendAssoc(trace0, [StartSuite(s)], inner.events);
      assert stack == stack0;
      r := Done;
    }

    /** The `next` that `runSuite` hands to the chain: every child in
      insertion order, a case through `runCase` and a suite through
      `runSuite`, stopping at the first that throws. */
    method RunChildren(s: nat, ctx: Value) returns (r: Outcome)
      requires Valid() && s < |tree.units| && tree.units[s].Suite?
      modifies this, tree
      ensures Valid() && tree.lists == old(tree.lists)
      ensures Did(ChildrenRun(old(tree.units), tree.lists, s, old(tree.units[s].units), ctx), old(trace), old(stack), r)
      decreases |tree.units| - s, 0
    {
      var children := tree.units[s].units;
      ghost var whole := ChildrenRun(tree.units, tree.lists, s, children, ctx);
      ghost var events: seq<Event> := [];
      var i := 0;
      while i < |children|
        invariant Walking(s, children, i, ctx, old(tree.lists), old(stack), old(trace), events, whole)
      {
        var done;
        ghost var more;
        done, more := RunNext(s, children, i, ctx, old(tree.lists), old(stack), old(trace), events, whole);
        if done.Broken? {
          return done;
        }
        events := events + more;
        i := i + 1;
      }
      assert children[i..] == [];
      assert whole == Run(Done, tree.units, events, []);
      r := Done;
    }

    /** The state of the loop over the children of `s` after `i` turns:
      the arena keeps its shape, the reporter has received `events`, and
      `whole`, the walk from the start, is `events` followed by the walk
      over the children still to run. */
    ghost predicate Walking(s: nat, children: seq<nat>, i: nat, ctx: Value, lists: seq<seq<Arg>>,
                            stack0: seq<nat>, trace0: seq<Event>, events: seq<Event>, whole: Run)
      reads this, tree
    {
      && i <= |children| && Valid() && tree.lists == lists && Shaped(tree.units, lists)
      && (forall k :: 0 <= k < |children| ==> s < children[k] < |tree.units|)
      && stack == stack0 && trace == trace0 + events
      && var rest := ChildrenRun(tree.units, lists, s, children[i..], ctx);
         whole == rest.(events := events + rest.events)
    }

    /** One turn of the loop over the children of `s`: the child at `i`
      runs, and either ends the walk with its outcome or leaves the rest of
      it to run. */
    method RunNext(s: nat, children: seq<nat>, i: nat, ctx: Value, ghost lists: seq<seq<Arg>>,
                   ghost stack0: seq<nat>, ghost trace0: seq<Event>, ghost events: seq<Event>, ghost whole: Run)
      returns (done: Outcome, ghost more: seq<Event>)
      requires i < |children| && Walking(s, children, i, ctx, lists, stack0, trace0, events, whole)
      modifies this, tree
      ensures Valid() && tree.lists == lists
      ensures done.Done? ==> Walking(s, children, i + 1, ctx, lists, stack0, trace0, events + more, whole)
      ensures done.Broken? ==> Did(whole, trace0, stack0, done)
      decreases |tree.units| - s, 0, 0
    {
      ghost var units1 := tree.units;
      ghost var first := ChildRun(units1, lists, children[i], ctx);
      ChildrenRunNext(units1, lists, s, children, i, ctx, events, whole);
      ChildRunCoherent(units1, lists, children[i], ctx);
      done := RunChild(children[i], ctx);
      more := first.events;
      AppendAssoc(trace0, events, more);
    }

    /** `runCase`: the case is pushed and started; its modifier chain runs
      with `ctx`; when the chain reaches `next`, the handler runs and `end`
      records its outcome (a second `end`, after a first that threw, throws
      'Already completed'). A chain that fails is a `UnitError` and leaves
      the case on the stack; one that returns early leaves the case
      unfinished but still reported as ended. */
    method RunCase(c: nat, ctx: Value) returns (r: Outcome)
      requires Valid() && c < |tree.units| && tree.units[c].Case?
      modifies this, tree
      ensures Valid() && tree.lists == old(tree.lists)
      ensures Did(CaseRun(old(tree.units), c, ctx), old(trace), old(stack), r)
    {
      ghost var stack0 := stack;
      stack := stack + [c];
      trace := trace + [StartCase(c)];
      var done := CaseChain(c, ctx);
      if done.Ok? {
        AppendAssoc(old(trace), [StartCase(c)], [EndCase(c)]);
        trace := trace + [EndCase(c)];
        stack := stack[..|stack| - 1];
        assert stack == stack0;
        r := Done;
      } else {
        r := Broken(UnitError(done.error));
      }
    }

    /** `await nest(ctx, next)` in `runCase`: what the case's chain throws,
      or what the handler and `end` do once the chain reaches `next`. */
    method CaseChain(c: nat, ctx: Value) returns (r: Result<()>)
      requires tree.Valid() && c < |tree.units| && tree.units[c].Case?
      modifies tree
      ensures tree.Valid() && tree.lists == old(tree.lists) && SameShape(old(tree.units), tree.units)
      ensures var run := CaseRun(old(tree.units), c, ctx);
              tree.units == run.units && run.outcome == if r.Ok? then Done else Broken(UnitError(r.error))
    {
      var step := Nest(tree.units[c].modifier, ctx);
      match step {
        case Failed(e) =>
          SameShapeRefl(tree.units);
          r := Thrown(e);
        case Skipped =>
          SameShapeRefl(tree.units);
          r := Ok(());
        case Proceed(sub) =>
          r := RunHandler(c, sub);
      }
    }

    /** The `next` that `runCase` hands to the chain: the handler is called
      with the context the chain produced, then `end()` if it returned or
      `end(err)` if it threw; when `end()` itself throws, `end(err)` is tried
      and throws in turn, which is what the callback throws. */
    method RunHandler(c: nat, ctx: Value) returns (r: Result<()>)
      requires tree.Valid() && c < |tree.units| && tree.units[c].Case?
      modifies tree
      ensures tree.Valid() && tree.lists == old(tree.lists) && SameShape(old(tree.units), tree.units)
      ensures !old(tree.units[c].isCompleted) ==>
                r == Ok(()) && tree.units == Ended(old(tree.units), c, EndArgument(CallHandler(old(tree.units[c].handler), ctx)))
      ensures old(tree.units[c].isCompleted) ==> r == Thrown(Error("Already completed")) && tree.units == old(tree.units)
    {
      ghost var units0 := tree.units;
      var called := CallHandler(tree.units[c].handler, ctx);
      if called.Ok? {
        r := tree.EndCase(c, Undefined);
        if r.Thrown? {
          r := tree.EndCase(c, r.error);
        }
      } else {
        r := tree.EndCase(c, called.error);
      }
      if r.Ok? {
        EndedSameShape(units0, c, EndArgument(called));
      } else {
        SameShapeRefl(units0);
      }
    }
  }

  /** The `try` around `script(handles)`: a fresh tree with its root, built
      as the script's calls say; a script that is not a function throws a
      TypeError and builds nothing. */
  method Build(script: Arg) returns (tree: Tree, r: Result<()>)
    ensures fresh(tree) && tree.Valid()
    ensures var b := ScriptSpec(script); r == b.result && tree.units == b.after.units && tree.lists == b.after.lists
  {
    tree := new Tree();
    var handles := new Handles(tree);
    assert handles.State() == Initial();
    r := Thrown(TypeError);
    if script.Func? {
      r := handles.Run(script.fn);
    }
  }

  /** What `runScript` ends with: what it returns or throws, the reporter's
      calls, and the arena. */
  datatype Session = Session(result: Result<()>, trace: seq<Event>, units: seq<Unit>)

  /** The second half of `runScript` on a built tree: the root runs with an
      `undefined` context, and a fault is reported against the unit left on
      top of the stack (a `UnitError`), reported as an error (when
      `reportErrors` is set) or thrown. */
  ghost function Executed(units: seq<Unit>, lists: seq<seq<Arg>>, reportErrors: bool): Session
    requires Shaped(units, lists) && |units| > 0 && units[0].Suite?
  {
    var run := SuiteRun(units, lists, 0, Undefined);
    SuiteRunCoherent(units, lists, 0, Undefined);
    if run.outcome.Done? then Session(Ok(()), run.events, run.units)
    else if run.outcome.fault.UnitError? then
      Session(Ok(()), run.events + [BrokenUnit(run.pushed[|run.pushed| - 1], run.outcome.fault.origin)], run.units)
    else if reportErrors then Session(Ok(()), run.events + [ReportError(Escaped(run.outcome.fault))], run.units)
    else Session(Thrown(Escaped(run.outcome.fault)), run.events, run.units)
  }

  /** What a run of the root shows its reporter: the root is started first;
      with `reportErrors` the call never throws; a run that ends without an
      error report has ended the root and reported that last; and a broken
      unit reported at the end is a case. */
  ghost predicate RunReported(e: Session, reportErrors: bool) {
    && |e.trace| > 0 && e.trace[0] == StartSuite(0) && |e.units| > 0
    && (reportErrors ==> e.result.Ok?)
    && (e.result.Ok? && !e.trace[|e.trace| - 1].BrokenUnit? && !e.trace[|e.trace| - 1].ReportError? ==>
          e.trace[|e.trace| - 1] == EndSuite(0) && e.units[0].isCompleted)
    && (e.result.Ok? && e.trace[|e.trace| - 1].BrokenUnit? ==>
          e.trace[|e.trace| - 1].unit < |e.units| && e.units[e.trace[|e.trace| - 1].unit].Case?)
  }

  /** Every run of a built tree reports as `RunReported` says. */
  lemma ExecutedReports(units: seq<Unit>, lists: seq<seq<Arg>>, reportErrors: bool)
    requires Shaped(units, lists) && |units| > 0 && units[0].Suite?
    ensures RunReported(Executed(units, lists, reportErrors), reportErrors)
  {
    SuiteRunSteps(units, lists, 0, Undefined);
    SuiteRunCoherent(units, lists, 0, Undefined);
  }

  /** The second half of `runScript`: the root runs with an `undefined`
      context (the `context` option is never handed on) and a fault is
      routed as `Report` says. */
  method Execute(tree: Tree, reportErrors: bool) returns (trace: seq<Event>, r: Result<()>)
    requires tree.Valid()
    modifies tree
    ensures tree.Valid() && tree.lists == old(tree.lists)
    ensures Session(r, trace, tree.units) == Executed(old(tree.units), tree.lists, reportErrors)
  {
    var run := new Execution(tree);
    ghost var sr := SuiteRun(tree.units, tree.lists, 0, Undefined);
    var outcome := run.RunSuite(0, Undefined);
    SuiteRunCoherent(old(tree.units), tree.lists, 0, Undefined);
    assert outcome == sr.outcome && run.trace == sr.events && run.stack == sr.pushed && tree.units == sr.units;
    r := Ok(());
    if outcome.Broken? {
      r := run.Report(outcome.fault, reportErrors);
    }
    trace := run.trace;
    ExecutedFrom(old(tree.units), tree.lists, reportErrors, sr);
  }

  /** `Executed` in terms of a given root run, so that callers holding the
      run need not unfold it again. */
  lemma ExecutedFrom(units: seq<Unit>, lists: seq<seq<Arg>>, reportErrors: bool, run: Run)
    requires Shaped(units, lists) && |units| > 0 && units[0].Suite?
    requires run == SuiteRun(units, lists, 0, Undefined)
    ensures run.outcome.Broken? && run.outcome.fault.UnitError? ==> |run.pushed| > 0
    ensures Executed(units, lists, reportErrors) ==
      if run.outcome.Done? then Session(Ok(()), run.events, run.units)
      else if run.outcome.fault.UnitError? then
        Session(Ok(()), run.events + [BrokenUnit(run.pushed[|run.pushed| - 1], run.outcome.fault.origin)], run.units)
      else if reportErrors then Session(Ok(()), run.events + [ReportError(Escaped(run.outcome.fault))], run.units)
      else Session(Thrown(Escaped(run.outcome.fault)), run.events, run.units)
  {
    SuiteRunCoherent(units, lists, 0, Undefined);
  }

  /** `runScript` on a fresh tree, as a value: a script that throws while
      it builds is reported as a broken script and nothing runs; otherwise
      the tree it built runs. */
  ghost function ScriptSession(script: Arg, reportErrors: bool): Session
  {
    var b := ScriptSpec(script);
    ScriptBuilds(script);
    if b.result.Thrown? then Session(Ok(()), [BrokenScript(b.result.error)], b.after.units)
    else Executed(b.after.units, b.after.lists, reportErrors)
  }

  /** A script that throws while it builds gives the one broken-script
      report (a TypeError when it is not a function) and nothing runs;
      otherwise the root is started first. With `reportErrors` the call
      never throws; a run that ends without an error report has ended the
      root; a broken unit reported at the end is a case. */
  lemma ScriptSessionReports(script: Arg, reportErrors: bool)
    ensures var s := ScriptSession(script, reportErrors);
      && |s.trace| > 0
      && (reportErrors ==> s.result.Ok?)
      && (ScriptSpec(script).result.Thrown? <==> s.trace[0].BrokenScript?)
      && (s.trace[0].BrokenScript? ==>
            && s.trace == [BrokenScript(ScriptSpec(script).result.error)] && s.result.Ok?
            && s.units == ScriptSpec(script).after.units)
      && (!script.Func? ==> s.trace == [BrokenScript(TypeError)] && s.units == [NewRoot()])
      && (!s.trace[0].BrokenScript? ==> RunReported(s, reportErrors))
  {
    var b := ScriptSpec(script);
    ScriptBuilds(script);
    var s := ScriptSession(script, reportErrors);
    if b.result.Ok? {
      assert s == Executed(b.after.units, b.after.lists, reportErrors);
      ExecutedReports(b.after.units, b.after.lists, reportErrors);
    } else {
      assert s == Session(Ok(()), [BrokenScript(b.result.error)], b.after.units);
      if !script.Func? {
        assert b == Built(Thrown(TypeError), Initial());
      }
    }
  }

  /** `runScript({script, reporter, reportErrors})` on a fresh tree: the
      script builds the tree through the handles, and a script that throws is
      reported and nothing runs; otherwise the tree runs. */
  method RunScript(script: Arg, reportErrors: bool) returns (tree: Tree, trace: seq<Event>, r: Result<()>)
    ensures tree.Valid() && Session(r, trace, tree.units) == ScriptSession(script, reportErrors)
  {
    var built;
    tree, built := Build(script);
    if built.Thrown? {
      return tree, [BrokenScript(built.error)], Ok(());
    }
    trace, r := Execute(tree, reportErrors);
  }

  /** A script whose body is one `it(label, handler)` whose handler returns,
      as in `it('...', () => {})`: the root is started, the case started and
      ended, the root ended; the case passed, and the root counts one case,
      passed, none failed. */
  lemma SingleReturningCasePasses(script: Arg, name: string, h: Fn, reportErrors: bool)
    requires script.Func? && script.fn.body == [It(name, [Func(h)])] && h.onCall(Undefined) == Returns
    ensures var s := ScriptSession(script, reportErrors);
      && s.result == Ok(())
      && s.trace == [StartSuite(0), StartCase(1), EndCase(1), EndSuite(0)]
      && |s.units| == 2 && s.units[0].Suite? && s.units[0].isCompleted
      && s.units[0].total == 1 && s.units[0].passed == 1 && s.units[0].failed == 0
      && s.units[1].Case? && CaseIsOk(s.units[1])
  {
    var root1 := Suite(None, "", false, 0, [1], 1, 0, 0, true);
    var case1 := Case(Some(0), name, false, Null, [], Func(h), 1);
    SingleCaseBuilt(script, name, h);
    var units1 := [root1, case1];
    var lists: seq<seq<Arg>> := [[]];
    SingleCaseRuns(units1, name, h);
    SuiteRunSteps(units1, lists, 0, Undefined);
  }

  /** The run of the tree one returning `it` builds. */
  lemma SingleCaseRuns(units1: seq<Unit>, name: string, h: Fn)
    requires h.onCall(Undefined) == Returns
    requires units1 == [Suite(None, "", false, 0, [1], 1, 0, 0, true), Case(Some(0), name, false, Null, [], Func(h), 1)]
    ensures GuardedRun(units1, [[]], 0, Undefined) ==
      Run(Done, [Suite(None, "", false, 0, [1], 1, 1, 0, true), Case(Some(0), name, true, Null, [], Func(h), 1)],
          [StartCase(1), EndCase(1)], [])
  {
    var lists: seq<seq<Arg>> := [[]];
    var units2 := [Suite(None, "", false, 0, [1], 1, 1, 0, true), Case(Some(0), name, true, Null, [], Func(h), 1)];
    assert Parents(units1, 1) == [0] by {
      assert Parents(units1, 0) == [];
    }
    NestEmpty(Undefined);
    CaseRunChain(units1, 1, Undefined);
    assert Ended(units1, 1, Undefined) == units2;
    ChildrenRunStep(units1, lists, 0, [1], Undefined);
    assert [1][1..] == [];
  }
}
