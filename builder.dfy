/** The builder handed to a test script (`Handles`,
    packages/@testup/core/testup.js): `describe`, `use`, `it` and `each`
    grow the unit tree under the suite on top of a cursor stack, while a
    second stack holds the modifier arrays of the enclosing `each` calls. */
module Builder {
  import opened JsValues
  import opened Behaviours
  import opened UnitTree
  import opened Decimal

  /** No unit has been completed yet: building never ends a unit. */
  ghost predicate Building(units: seq<Unit>) {
    forall j :: 0 <= j < |units| ==> !units[j].isCompleted
  }

  /** What building keeps of a unit: its place, name, kind, modifier array,
      handler and index; a suite may gain children (after the ones it has)
      and cases, and once it has a unit it keeps having one. */
  ghost predicate Kept(a: Unit, b: Unit) {
    && a.parent == b.parent && a.name == b.name && a.Suite? == b.Suite? && a.isCompleted == b.isCompleted
    && (a.Suite? ==> && b.modifierList == a.modifierList && a.units <= b.units
                     && (a.hasUnit ==> b.hasUnit) && a.total <= b.total)
    && (a.Case? ==> b.modifier == a.modifier && b.handler == a.handler && b.index == a.index && b.error == a.error)
  }

  /** The arena only grows: every unit already there is kept. */
  ghost predicate Grows(u1: seq<Unit>, u2: seq<Unit>) {
    |u1| <= |u2| && forall j :: 0 <= j < |u1| ==> Kept(u1[j], u2[j])
  }

  /** Modifier arrays are only ever appended to, and new arrays only added. */
  ghost predicate ListsGrow(l1: seq<seq<Arg>>, l2: seq<seq<Arg>>) {
    |l1| <= |l2| && forall m :: 0 <= m < |l1| ==> l1[m] <= l2[m]
  }

  lemma GrowsTrans(u1: seq<Unit>, u2: seq<Unit>, u3: seq<Unit>)
    requires Grows(u1, u2) && Grows(u2, u3)
    ensures Grows(u1, u3)
  {
    forall j | 0 <= j < |u1| ensures Kept(u1[j], u3[j]) {
      assert Kept(u1[j], u2[j]) && Kept(u2[j], u3[j]);
    }
  }

  lemma ListsGrowTrans(l1: seq<seq<Arg>>, l2: seq<seq<Arg>>, l3: seq<seq<Arg>>)
    requires ListsGrow(l1, l2) && ListsGrow(l2, l3)
    ensures ListsGrow(l1, l3)
  {
    forall m | 0 <= m < |l1| ensures l1[m] <= l3[m] {
      assert l1[m] <= l2[m] && l2[m] <= l3[m];
    }
  }

  lemma ListsGrowRefl(l: seq<seq<Arg>>)
    ensures ListsGrow(l, l)
  {
  }

  lemma ListsGrowAppend(l: seq<seq<Arg>>, items: seq<Arg>)
    ensures ListsGrow(l, l + [items])
  {
    forall m | 0 <= m < |l| ensures l[m] <= (l + [items])[m] {
      assert (l + [items])[m] == l[m];
    }
  }

  /** Pushing a new unit, and raising `total` above a new case, keeps every
      unit and leaves nothing completed. */
  lemma PushGrows(units: seq<Unit>, parent: nat, u: Unit, chain: seq<nat>)
    requires parent < |units| && units[parent].Suite? && !u.isCompleted && Building(units)
    ensures Grows(units, Appended(units, parent, u)) && Building(Appended(units, parent, u))
    ensures Grows(units, Bumped(Appended(units, parent, u), chain, Total))
    ensures Building(Bumped(Appended(units, parent, u), chain, Total))
  {
    var a := Appended(units, parent, u);
    var b := Bumped(a, chain, Total);
    forall j | 0 <= j < |units| ensures Kept(units[j], a[j]) && Kept(units[j], b[j]) {
      if j == parent {
        assert units[j].units <= a[j].units;
      }
    }
  }

  /** The builder's own state over a tree being built: the stack starts at
      the root and holds suites, and the batch stack holds modifier arrays. */
  ghost predicate Cursor(units: seq<Unit>, lists: seq<seq<Arg>>, stack: seq<nat>, batch: seq<nat>) {
    && |stack| >= 1 && stack[0] == 0
    && (forall k :: 0 <= k < |stack| ==> stack[k] < |units| && units[stack[k]].Suite?)
    && (forall k :: 0 <= k < |batch| ==> batch[k] < |lists|)
    && Building(units)
  }

  /** The cursor survives growth of the tree. */
  lemma CursorKept(u1: seq<Unit>, u2: seq<Unit>, l1: seq<seq<Arg>>, l2: seq<seq<Arg>>, stack: seq<nat>, batch: seq<nat>)
    requires Cursor(u1, l1, stack, batch) && Grows(u1, u2) && |l1| <= |l2| && Building(u2)
    ensures Cursor(u2, l2, stack, batch)
  {
    forall k | 0 <= k < |stack| ensures stack[k] < |u2| && u2[stack[k]].Suite? {
      assert Kept(u1[stack[k]], u2[stack[k]]);
    }
  }

  lemma CursorEnter(units: seq<Unit>, lists: seq<seq<Arg>>, stack: seq<nat>, batch: seq<nat>, id: nat)
    requires Cursor(units, lists, stack, batch) && id < |units| && units[id].Suite?
    ensures Cursor(units, lists, stack + [id], batch)
  {
  }

  lemma CursorBatch(units: seq<Unit>, lists: seq<seq<Arg>>, stack: seq<nat>, batch: seq<nat>, m: nat)
    requires Cursor(units, lists, stack, batch) && m < |lists|
    ensures Cursor(units, lists, stack, batch + [m])
  {
  }

  /** Leaving the innermost `describe` or `each` keeps the cursor. */
  lemma CursorLeave(units: seq<Unit>, lists: seq<seq<Arg>>, stack: seq<nat>, batch: seq<nat>)
    requires Cursor(units, lists, stack, batch)
    ensures |stack| >= 2 ==> Cursor(units, lists, stack[..|stack| - 1], batch)
    ensures |batch| >= 1 ==> Cursor(units, lists, stack, batch[..|batch| - 1])
  {
  }

  /** A well-formed tree under a cursor is a ready draft. */
  lemma CursorReady(d: Draft)
    requires WellFormed(d.units, d.lists) && Cursor(d.units, d.lists, d.stack, d.batch)
    ensures Ready(d)
  {
    forall k | 0 <= k < |d.stack| ensures d.units[d.stack[k]].modifierList < |d.lists| {
      assert d.units[d.stack[k]].Suite?;
    }
  }

  /** The first argument that is not a function, if any. */
  function FirstNonFunction(args: seq<Arg>): (r: Option<nat>)
    ensures r.Some? ==> r.value < |args| && !args[r.value].Func? && forall k :: 0 <= k < r.value ==> args[k].Func?
    ensures r.None? ==> forall k :: 0 <= k < |args| ==> args[k].Func?
  {
    if |args| == 0 then None
    else if !args[0].Func? then Some(0)
    else match FirstNonFunction(args[1..])
      case None => None
      case Some(i) => Some(i + 1)
  }

  /** The message that names the non-function argument at position `i` among
      the modifiers, counted from one with the label as argument #1: what the
      message of `it` evidently means to say. */
  function ArgumentMessage(i: nat): string {
    "Argument #" + NatToString(i + 2) + " is not a function"
  }

  /** The corrected message names the position: the number after `#` reads
      back as `i + 2`, so distinct positions give distinct messages. */
  lemma ArgumentMessageNamesPosition(i: nat)
    ensures var m := ArgumentMessage(i);
      && |m| > 28 && m[..10] == "Argument #" && m[|m| - 18..] == " is not a function"
      && AllDigits(m[10..|m| - 18]) && DigitsValue(m[10..|m| - 18]) == i + 2
  {
    var m := ArgumentMessage(i);
    var d := NatToString(i + 2);
    assert m == "Argument #" + d + " is not a function";
    assert m[10..|m| - 18] == d;
    NatToStringRoundTrip(i + 2);
  }

  /** The message `it` throws, as the source builds it: `for ... in` yields
      the position as the string key `i`, so `i + 2` appends the digit 2 to it. */
  function ArgumentMessageAsWritten(i: nat): string {
    "Argument #" + NatToString(i) + "2" + " is not a function"
  }

  /** The number in the as-written message reads as `10 * i + 2`, never as the
      position `i + 2`: for the first modifier (`i` = 0) it reads "#02", for the
      second "#12". The message never names the argument's position. */
  lemma ArgumentMessageAsWrittenIsWrong(i: nat)
    ensures ArgumentMessageAsWritten(i) != ArgumentMessage(i)
    ensures ArgumentMessageAsWritten(0) == "Argument #02 is not a function"
  {
    var written := NatToString(i) + "2";
    if ArgumentMessageAsWritten(i) == ArgumentMessage(i) {
      assert ArgumentMessageAsWritten(i) == "Argument #" + written + " is not a function";
      MiddleEqual("Argument #", written, NatToString(i + 2), " is not a function");
      DigitsValueAppend(NatToString(i), '2');
      NatToStringRoundTrip(i);
      NatToStringRoundTrip(i + 2);
    }
    assert NatToString(0) == "0";
  }

  /** Equal strings with equal surroundings have equal middles. */
  lemma MiddleEqual(a: string, x: string, y: string, b: string)
    requires a + x + b == a + y + b
    ensures x == y
  {
    assert |x| == |y|;
    assert x == (a + x + b)[|a|..|a| + |x|];
    assert y == (a + y + b)[|a|..|a| + |y|];
  }

  /** `getLast(batchModifiers)`: the innermost `each`'s modifiers, or none. */
  function Batched(lists: seq<seq<Arg>>, batch: seq<nat>): seq<Arg>
    requires forall k :: 0 <= k < |batch| ==> batch[k] < |lists|
  {
    if |batch| == 0 then [] else lists[batch[|batch| - 1]]
  }

  /** The case `it(label, ...modifiers, handler)` creates under `parent`: the
      modifiers of the innermost `each` followed by its own, copied; its index
      is one more than the parent's `total` at that moment. */
  function NewCase(units: seq<Unit>, lists: seq<seq<Arg>>, batch: seq<nat>, parent: nat, name: string, args: seq<Arg>): (u: Unit)
    requires parent < |units| && units[parent].Suite? && |args| > 0
    requires forall k :: 0 <= k < |batch| ==> batch[k] < |lists|
    ensures u.Case? && IsNewUnit(u, parent, |lists|)
  {
    Case(Some(parent), name, false, Null, Batched(lists, batch) + args[..|args| - 1], args[|args| - 1],
         units[parent].total + 1)
  }

  /** The suite `describe(label, ...)` creates under `parent`, bound to the
      modifier array `m`. */
  function NewSuite(parent: nat, name: string, m: nat): (u: Unit)
    ensures u.Suite? && u.parent == Some(parent) && u.name == name && u.modifierList == m
    ensures forall listCount: nat :: m < listCount ==> IsNewUnit(u, parent, listCount)
  {
    Suite(Some(parent), name, false, m, [], 0, 0, 0, false)
  }

  // ----- what a script builds -----

  /** A tree being built together with the builder's two stacks. */
  datatype Draft = Draft(units: seq<Unit>, lists: seq<seq<Arg>>, stack: seq<nat>, batch: seq<nat>)

  /** What a call of the handles returns or throws, and the draft it leaves. */
  datatype Built = Built(result: Result<()>, after: Draft)

  /** What the handles need of a draft to act on it: a suite on top of the
      stack (every entry a suite whose modifier array exists), and batch
      entries that name modifier arrays. */
  ghost predicate Fits(d: Draft) {
    && |d.stack| >= 1
    && (forall k :: 0 <= k < |d.stack| ==>
          d.stack[k] < |d.units| && d.units[d.stack[k]].Suite? && d.units[d.stack[k]].modifierList < |d.lists|)
    && (forall k :: 0 <= k < |d.batch| ==> d.batch[k] < |d.lists|)
  }

  /** A draft as building keeps it: the root at the bottom of the stack,
      nothing completed, and a well-formed tree. */
  ghost predicate Ready(d: Draft) {
    Fits(d) && d.stack[0] == 0 && Building(d.units) && WellFormed(d.units, d.lists)
  }

  /** `new Handles({suite: new Suite()})`: the root alone, with its own empty
      modifier array, on top of the stack. */
  ghost function Initial(): (d: Draft)
    ensures Ready(d)
  {
    Draft([NewRoot()], [[]], [0], [])
  }

  /** The first half of `describe(label, ...)`: the new suite pushed into the
      suite on top of the stack and pushed onto the stack itself. */
  ghost function Opened(d: Draft, name: string): (e: Draft)
    requires Fits(d)
    ensures Fits(e) && e.stack == d.stack + [|d.units|] && e.batch == d.batch
  {
    var p := d.stack[|d.stack| - 1];
    var lists := if d.batch == [] then d.lists + [[]] else d.lists;
    var m := if d.batch == [] then |d.lists| else d.batch[|d.batch| - 1];
    Draft(Appended(d.units, p, NewSuite(p, name, m)), lists, d.stack + [|d.units|], d.batch)
  }

  /** `describe(label, handler)` */
  ghost function DescribeSpec(d: Draft, name: string, handler: Arg): (b: Built)
    requires Fits(d)
    ensures Fits(b.after) && (b.result.Ok? ==> b.after.stack == d.stack && b.after.batch == d.batch)
    decreases handler, 0
  {
    if !handler.Func? then Built(Thrown(Error("Handler is not a function")), d)
    else
      var body := CallsSpec(Opened(d, name), handler.fn.body);
      if body.result.Thrown? then body
      else Built(body.result, body.after.(stack := body.after.stack[..|body.after.stack| - 1]))
  }

  /** `use(handler)` */
  ghost function UseSpec(d: Draft, handler: Arg): (b: Built)
    requires Fits(d)
    ensures Fits(b.after) && b.after.units == d.units && b.after.stack == d.stack && b.after.batch == d.batch
    ensures |b.after.lists| == |d.lists|
  {
    var s := d.stack[|d.stack| - 1];
    if !handler.Func? then Built(Thrown(Error("Handler is not a function")), d)
    else if d.units[s].hasUnit then Built(Thrown(Error("Cases or sections already defined")), d)
    else
      var m := d.units[s].modifierList;
      Built(Ok(()), d.(lists := d.lists[m := d.lists[m] + [handler]]))
  }

  /** `it(label, ...modifiers, handler)` */
  ghost function ItSpec(d: Draft, name: string, args: seq<Arg>): (b: Built)
    requires Fits(d)
    ensures Fits(b.after) && b.after.lists == d.lists && b.after.stack == d.stack && b.after.batch == d.batch
  {
    if args == [] then Built(Thrown(Error("No handler is defined")), d)
    else match FirstNonFunction(args)
      case Some(i) => Built(Thrown(Error(ArgumentMessageAsWritten(i))), d)
      case None => Built(Ok(()), d.(units := CaseAdded(d, name, args)))
  }

  /** The arena once `it` accepts its arguments: the new case pushed under
      the suite on top of the stack, and `total` raised there and above. */
  ghost function CaseAdded(d: Draft, name: string, args: seq<Arg>): (units: seq<Unit>)
    requires Fits(d) && args != []
    ensures Fits(d.(units := units))
  {
    var p := d.stack[|d.stack| - 1];
    Bumped(Appended(d.units, p, NewCase(d.units, d.lists, d.batch, p, name, args)), [p] + Parents(d.units, p), Total)
  }

  /** `each(...modifiers, fn)` */
  ghost function EachSpec(d: Draft, args: seq<Arg>): (b: Built)
    requires Fits(d)
    ensures Fits(b.after) && (b.result.Ok? ==> b.after.stack == d.stack && b.after.batch == d.batch)
    decreases Call.Each(args), 0
  {
    var e := Entered(d, args);
    if args == [] || !args[|args| - 1].Func? then Built(Thrown(TypeError), e)
    else
      var body := CallsSpec(e, args[|args| - 1].fn.body);
      if body.result.Thrown? then body
      else Built(body.result, body.after.(batch := body.after.batch[..|body.after.batch| - 1]))
  }

  /** The first half of `each`: the arguments before the last become a new
      modifier array, pushed onto the batch stack. */
  ghost function Entered(d: Draft, args: seq<Arg>): (e: Draft)
    requires Fits(d)
    ensures Fits(e) && e.units == d.units && e.stack == d.stack
  {
    d.(lists := d.lists + [if args == [] then [] else args[..|args| - 1]], batch := d.batch + [|d.lists|])
  }

  /** One statement of a script body. */
  ghost function ExecSpec(d: Draft, call: Call): (b: Built)
    requires Fits(d)
    ensures Fits(b.after) && (b.result.Ok? ==> b.after.stack == d.stack && b.after.batch == d.batch)
    decreases call, 1
  {
    match call
    case Describe(name, handler) => DescribeSpec(d, name, handler)
    case Use(handler) => UseSpec(d, handler)
    case It(name, args) => ItSpec(d, name, args)
    case Each(args) => EachSpec(d, args)
    case Fail(error) => Built(Thrown(error), d)
  }

  /** A script body: its statements in order, the first that throws ending it. */
  ghost function CallsSpec(d: Draft, calls: seq<Call>): (b: Built)
    requires Fits(d)
    ensures Fits(b.after) && (b.result.Ok? ==> b.after.stack == d.stack && b.after.batch == d.batch)
    decreases calls, 2
  {
    if calls == [] then Built(Ok(()), d)
    else
      var first := ExecSpec(d, calls[0]);
      if first.result.Thrown? then first else CallsSpec(first.after, calls[1..])
  }

  /** The `try { script(handles) }` of `runScript`: a script that is not a
      function throws a TypeError before building anything. */
  ghost function ScriptSpec(script: Arg): (b: Built)
    ensures Fits(b.after)
  {
    if !script.Func? then Built(Thrown(TypeError), Initial())
    else CallsSpec(Initial(), script.fn.body)
  }

  // ----- the specification, step by step -----

  /** `Opened` spelled out, for callers that hold the heap. */
  lemma OpenedIs(d: Draft, name: string, units: seq<Unit>, lists: seq<seq<Arg>>)
    requires Fits(d)
    requires var p := d.stack[|d.stack| - 1];
      var m := if d.batch == [] then |d.lists| else d.batch[|d.batch| - 1];
      units == Appended(d.units, p, NewSuite(p, name, m)) && lists == if d.batch == [] then d.lists + [[]] else d.lists
    ensures Opened(d, name) == Draft(units, lists, d.stack + [|d.units|], d.batch)
  {
  }

  /** `DescribeSpec` on a refused handler, and on a function handler once the
      body's outcome is known. */
  lemma DescribeRefused(d: Draft, name: string, handler: Arg)
    requires Fits(d) && !handler.Func?
    ensures DescribeSpec(d, name, handler) == Built(Thrown(Error("Handler is not a function")), d)
  {
  }

  lemma DescribeSteps(d: Draft, name: string, fn: Fn, r: Result<()>, s: Draft)
    requires Fits(d) && Built(r, s) == CallsSpec(Opened(d, name), fn.body)
    ensures r.Thrown? ==> Built(r, s) == DescribeSpec(d, name, Func(fn))
    ensures r.Ok? ==> |s.stack| > 0 && Built(r, s.(stack := s.stack[..|s.stack| - 1])) == DescribeSpec(d, name, Func(fn))
  {
  }

  /** `EachSpec` on a missing or non-function last argument, and on a
      function once the body's outcome is known. */
  lemma EachRefused(d: Draft, args: seq<Arg>)
    requires Fits(d) && (args == [] || !args[|args| - 1].Func?)
    ensures EachSpec(d, args) == Built(Thrown(TypeError), Entered(d, args))
  {
  }

  lemma EachSteps(d: Draft, args: seq<Arg>, r: Result<()>, s: Draft)
    requires Fits(d) && args != [] && args[|args| - 1].Func?
    requires Built(r, s) == CallsSpec(Entered(d, args), args[|args| - 1].fn.body)
    ensures r.Thrown? ==> Built(r, s) == EachSpec(d, args)
    ensures r.Ok? ==> |s.batch| > 0 && Built(r, s.(batch := s.batch[..|s.batch| - 1])) == EachSpec(d, args)
  {
  }

  /** `ItSpec` on arguments it accepts, spelled out. */
  lemma ItPushes(d: Draft, name: string, args: seq<Arg>)
    requires Fits(d) && args != [] && FirstNonFunction(args).None?
    ensures ItSpec(d, name, args) == Built(Ok(()), d.(units := CaseAdded(d, name, args)))
  {
  }

  // ----- what building keeps -----

  /** What building does to a draft, in every statement and whatever it
      throws: the arena and the modifier arrays only grow, and both stacks
      keep what they held (a throw may leave entries pushed above it). */
  ghost predicate Extends(d: Draft, e: Draft) {
    Grows(d.units, e.units) && ListsGrow(d.lists, e.lists) && d.stack <= e.stack && d.batch <= e.batch
  }

  lemma ExtendsTrans(d: Draft, e: Draft, f: Draft)
    requires Extends(d, e) && Extends(e, f)
    ensures Extends(d, f)
  {
    GrowsTrans(d.units, e.units, f.units);
    ListsGrowTrans(d.lists, e.lists, f.lists);
  }

  lemma ExtendsRefl(d: Draft)
    ensures Extends(d, d)
  {
    ListsGrowRefl(d.lists);
    assert Grows(d.units, d.units) by {
      forall j | 0 <= j < |d.units| ensures Kept(d.units[j], d.units[j]) {
      }
    }
  }

  /** A statement of a script body keeps the draft ready and extends it. */
  lemma {:induction false} ExecBuilds(d: Draft, call: Call)
    requires Ready(d)
    ensures var e := ExecSpec(d, call).after; Ready(e) && Extends(d, e)
    decreases call, 1
  {
    match call
    case Describe(name, handler) => DescribeBuilds(d, name, handler);
    case Use(handler) => UseBuilds(d, handler);
    case It(name, args) => ItBuilds(d, name, args);
    case Each(args) => EachBuilds(d, args);
    case Fail(error) => ExtendsRefl(d);
  }

  /** A script body keeps the draft ready and extends it. */
  lemma {:induction false} CallsBuild(d: Draft, calls: seq<Call>)
    requires Ready(d)
    ensures var e := CallsSpec(d, calls).after; Ready(e) && Extends(d, e)
    decreases calls, 2
  {
    if calls == [] {
      ExtendsRefl(d);
    } else {
      var first := ExecSpec(d, calls[0]);
      ExecBuilds(d, calls[0]);
      if first.result.Ok? {
        CallsBuild(first.after, calls[1..]);
        ExtendsTrans(d, first.after, CallsSpec(first.after, calls[1..]).after);
      }
    }
  }

  /** Opening a suite keeps the draft ready and extends it. */
  lemma OpenedBuilds(d: Draft, name: string)
    requires Ready(d)
    ensures var e := Opened(d, name); Ready(e) && Extends(d, e)
  {
    var p := d.stack[|d.stack| - 1];
    var m := if d.batch == [] then |d.lists| else d.batch[|d.batch| - 1];
    var lists := if d.batch == [] then d.lists + [[]] else d.lists;
    var u := NewSuite(p, name, m);
    OpenedIs(d, name, Appended(d.units, p, u), lists);
    WellFormedMoreLists(d.units, d.lists, lists);
    PushedWellFormed(d.units, lists, p, u);
    PushGrows(d.units, p, u, []);
    if d.batch == [] {
      ListsGrowAppend(d.lists, []);
    } else {
      ListsGrowRefl(d.lists);
    }
  }

  lemma {:induction false} DescribeBuilds(d: Draft, name: string, handler: Arg)
    requires Ready(d)
    ensures var e := DescribeSpec(d, name, handler).after; Ready(e) && Extends(d, e)
    decreases handler, 0
  {
    if !handler.Func? {
      ExtendsRefl(d);
    } else {
      var o := Opened(d, name);
      OpenedBuilds(d, name);
      CallsBuild(o, handler.fn.body);
      var body := CallsSpec(o, handler.fn.body);
      ExtendsTrans(d, o, body.after);
      if body.result.Ok? {
        var e := body.after.(stack := body.after.stack[..|body.after.stack| - 1]);
        assert e.stack == d.stack;
      }
    }
  }

  lemma UseBuilds(d: Draft, handler: Arg)
    requires Ready(d)
    ensures var e := UseSpec(d, handler).after; Ready(e) && Extends(d, e)
  {
    var b := UseSpec(d, handler);
    ExtendsRefl(d);
    WellFormedMoreLists(d.units, d.lists, b.after.lists);
    forall m | 0 <= m < |d.lists| ensures d.lists[m] <= b.after.lists[m] {
    }
  }

  lemma ItBuilds(d: Draft, name: string, args: seq<Arg>)
    requires Ready(d)
    ensures var e := ItSpec(d, name, args).after; Ready(e) && Extends(d, e)
  {
    if args == [] || FirstNonFunction(args).Some? {
      ExtendsRefl(d);
    } else {
      ItPushes(d, name, args);
      CaseAddedBuilds(d, name, args);
    }
  }

  /** Adding a case keeps the draft ready and extends it. */
  lemma CaseAddedBuilds(d: Draft, name: string, args: seq<Arg>)
    requires Ready(d) && args != []
    ensures var e := d.(units := CaseAdded(d, name, args)); Ready(e) && Extends(d, e)
  {
    var units := CaseAdded(d, name, args);
    CaseAddedGrows(d, name, args);
    ListsGrowRefl(d.lists);
    assert Fits(d.(units := units));
  }

  lemma CaseAddedGrows(d: Draft, name: string, args: seq<Arg>)
    requires Ready(d) && args != []
    ensures var units := CaseAdded(d, name, args);
      WellFormed(units, d.lists) && Building(units) && Grows(d.units, units)
  {
    var p := d.stack[|d.stack| - 1];
    var u := NewCase(d.units, d.lists, d.batch, p, name, args);
    var chain := [p] + Parents(d.units, p);
    CaseAddedIs(d, name, args);
    PushedWellFormed(d.units, d.lists, p, u);
    PushGrows(d.units, p, u, chain);
  }

  /** `CaseAdded` spelled out. */
  lemma CaseAddedIs(d: Draft, name: string, args: seq<Arg>)
    requires Fits(d) && args != []
    ensures var p := d.stack[|d.stack| - 1];
      CaseAdded(d, name, args) == Bumped(Appended(d.units, p, NewCase(d.units, d.lists, d.batch, p, name, args)), [p] + Parents(d.units, p), Total)
  {
  }

  lemma {:induction false} EachBuilds(d: Draft, args: seq<Arg>)
    requires Ready(d)
    ensures var e := EachSpec(d, args).after; Ready(e) && Extends(d, e)
    decreases Call.Each(args), 0
  {
    var e := Entered(d, args);
    EnteredBuilds(d, args);
    if args != [] && args[|args| - 1].Func? {
      CallsBuild(e, args[|args| - 1].fn.body);
      var body := CallsSpec(e, args[|args| - 1].fn.body);
      ExtendsTrans(d, e, body.after);
    }
  }

  /** Entering an `each` keeps the draft ready and extends it. */
  lemma EnteredBuilds(d: Draft, args: seq<Arg>)
    requires Ready(d)
    ensures var e := Entered(d, args); Ready(e) && Extends(d, e)
  {
    var e := Entered(d, args);
    ExtendsRefl(d);
    WellFormedMoreLists(d.units, d.lists, e.lists);
    ListsGrowAppend(d.lists, if args == [] then [] else args[..|args| - 1]);
  }

  /** Whatever a script does, and even when it throws, the tree it leaves
      is well formed and grew from the bare root. */
  lemma ScriptBuilds(script: Arg)
    ensures var e := ScriptSpec(script).after; Ready(e) && Extends(Initial(), e)
  {
    if script.Func? {
      CallsBuild(Initial(), script.fn.body);
    } else {
      ExtendsRefl(Initial());
    }
  }

  // ----- what the specification promises -----

  /** A script body run in two parts: the first part, then (unless it threw)
      the second from the draft the first left. Together with `CallsSpec`
      itself this is the fold of `fn(this)` over the body's statements. */
  lemma {:induction false} CallsAppend(d: Draft, a: seq<Call>, c: seq<Call>)
    requires Fits(d)
    ensures var x := CallsSpec(d, a);
      CallsSpec(d, a + c) == if x.result.Thrown? then x else CallsSpec(x.after, c)
    decreases |a|
  {
    if a == [] {
      assert a + c == c;
    } else {
      assert (a + c)[0] == a[0] && (a + c)[1..] == a[1..] + c;
      var first := ExecSpec(d, a[0]);
      if first.result.Ok? {
        CallsAppend(first.after, a[1..], c);
      }
    }
  }

  /** `describe` with a function handler: whatever its body does, and even
      when it throws, the new suite stays the current suite's child with the
      given name and the innermost batch array (or its own new one). A
      refused handler changes nothing. */
  lemma DescribeOpens(d: Draft, name: string, handler: Arg)
    requires Ready(d)
    ensures var e := DescribeSpec(d, name, handler).after;
      var p := d.stack[|d.stack| - 1];
      var id := |d.units|;
      && (!handler.Func? ==> e == d)
      && (handler.Func? ==>
            && id < |e.units| && e.units[id].Suite? && e.units[id].name == name && e.units[id].parent == Some(p)
            && e.units[id].modifierList == (if d.batch == [] then |d.lists| else d.batch[|d.batch| - 1])
            && e.units[p].Suite? && d.units[p].units + [id] <= e.units[p].units)
  {
    if handler.Func? {
      var p := d.stack[|d.stack| - 1];
      var m := if d.batch == [] then |d.lists| else d.batch[|d.batch| - 1];
      var lists := if d.batch == [] then d.lists + [[]] else d.lists;
      var o := Opened(d, name);
      OpenedIs(d, name, Appended(d.units, p, NewSuite(p, name, m)), lists);
      OpenedBuilds(d, name);
      CallsBuild(o, handler.fn.body);
      var body := CallsSpec(o, handler.fn.body);
      assert Kept(o.units[|d.units|], body.after.units[|d.units|]);
      assert Kept(o.units[p], body.after.units[p]);
    }
  }

  /** `each`: whatever its body does, the array it pushed stays in place and
      still starts with the leading arguments (a `use` inside the body
      appends to it); a body that throws leaves that array on the batch
      stack. */
  lemma EachKeepsItems(d: Draft, args: seq<Arg>)
    requires Ready(d)
    ensures var b := EachSpec(d, args);
      && |d.lists| < |b.after.lists|
      && (if args == [] then [] else args[..|args| - 1]) <= b.after.lists[|d.lists|]
      && (b.result.Thrown? ==> d.batch + [|d.lists|] <= b.after.batch)
  {
    var e := Entered(d, args);
    EnteredBuilds(d, args);
    if args != [] && args[|args| - 1].Func? {
      CallsBuild(e, args[|args| - 1].fn.body);
    }
  }

  /** A script whose body is one `it(label, handler)` builds the root with
      that one case under it, counted in the root's `total`, and returns. */
  lemma SingleCaseBuilt(script: Arg, name: string, h: Fn)
    requires script.Func? && script.fn.body == [It(name, [Func(h)])]
    ensures ScriptSpec(script) == Built(Ok(()),
      Draft([Suite(None, "", false, 0, [1], 1, 0, 0, true), Case(Some(0), name, false, Null, [], Func(h), 1)], [[]], [0], []))
  {
    var d := Initial();
    var args := [Func(h)];
    var calls := script.fn.body;
    ItPushes(d, name, args);
    CaseAtRoot(name, h);
    var e := ItSpec(d, name, args);
    assert ExecSpec(d, calls[0]) == e;
    assert calls[1..] == [];
    assert CallsSpec(e.after, []) == Built(Ok(()), e.after);
  }

  /** The arena once `it(label, handler)` is the first call of a script. */
  lemma CaseAtRoot(name: string, h: Fn)
    ensures CaseAdded(Initial(), name, [Func(h)]) ==
      [Suite(None, "", false, 0, [1], 1, 0, 0, true), Case(Some(0), name, false, Null, [], Func(h), 1)]
  {
    var args := [Func(h)];
    var root := NewRoot();
    var d := Initial();
    var c := Case(Some(0), name, false, Null, [], Func(h), 1);
    CaseAddedIs(d, name, args);
    assert d.units == [root] && d.lists == [[]] && d.batch == [] && d.stack[|d.stack| - 1] == 0;
    assert args[..0] == [];
    assert NewCase([root], [[]], [], 0, name, args) == c;
    assert [0] + Parents([root], 0) == [0];
    var pushed := Appended([root], 0, c);
    assert root.units + [1] == [1];
    assert pushed[0] == Suite(None, "", false, 0, [1], 0, 0, 0, true) && pushed[1] == c;
    var bumped := Bumped(pushed, [0], Total);
    assert CaseAdded(d, name, args) == bumped;
    PairIs(bumped, Suite(None, "", false, 0, [1], 1, 0, 0, true), c);
  }

  /** A two-unit arena is the pair of its units. */
  lemma PairIs(units: seq<Unit>, a: Unit, b: Unit)
    requires |units| == 2 && units[0] == a && units[1] == b
    ensures units == [a, b]
  {
  }

  /** A function that does nothing when called with a context or with the
      handles. */
  function Noop(): Fn {
    Fn(_ => Returns, [])
  }

  /** A script that throws before any builder call builds nothing: the tree
      is the bare root, whose `total` is 0 (test.spec.js, 'throw new Error'). */
  lemma ThrowingScriptBuildsNothing()
    ensures var b := ScriptSpec(Func(Fn(_ => Returns, [Fail(Error("test"))])));
      b == Built(Thrown(Error("test")), Initial()) && b.after.units[0].total == 0
  {
    var calls := [Fail(Error("test"))];
    assert calls[1..] == [];
  }

  /** `describe(null)` as a script's first call throws 'Handler is not a
      function' with the tree still the bare root (test.spec.js). */
  lemma DescribeNullBuildsNothing()
    ensures var b := ScriptSpec(Func(Fn(_ => Returns, [Describe("", Data(Null))])));
      b == Built(Thrown(Error("Handler is not a function")), Initial()) && |b.after.units| == 1 && b.after.units[0].total == 0
  {
    DescribeRefused(Initial(), "", Data(Null));
  }

  /** `each(() => {})` followed by `use(() => {})` is accepted: `each`
      registers no unit, so the root still has none when `use` comes. */
  lemma UseAfterEachAccepted()
    ensures ScriptSpec(Func(Fn(_ => Returns, [Each([Func(Noop())]), Use(Func(Noop()))]))).result == Ok(())
  {
    var d := Initial();
    var each, use := Each([Func(Noop())]), Use(Func(Noop()));
    var calls, rest := [each, use], [use];
    assert calls[0] == each && calls[1..] == rest;
    assert rest[0] == use && rest[1..] == [];
    var e := EachSpec(d, [Func(Noop())]);
    assert e.after.units == d.units && e.after.stack == [0] && e.result == Ok(()) by {
      var en := Entered(d, [Func(Noop())]);
      assert CallsSpec(en, []) == Built(Ok(()), en);
    }
    assert CallsSpec(d, calls) == CallsSpec(e.after, rest);
    var u := UseSpec(e.after, Func(Noop()));
    assert !e.after.units[0].hasUnit;
    assert u.result == Ok(());
    assert CallsSpec(e.after, rest) == CallsSpec(u.after, []);
  }

  class Handles {
    const tree: Tree
    /** `this.stack`: the suites being described, the current one last. */
    var stack: seq<nat>
    /** `this.batchModifiers`: the modifier arrays of the enclosing `each` calls. */
    var batch: seq<nat>

    ghost predicate Valid()
      reads this, tree
    {
      tree.Valid() && Cursor(tree.units, tree.lists, stack, batch)
    }

    /** `new Handles({suite})` over the root of a tree still being built. */
    constructor (t: Tree)
      requires t.Valid() && Building(t.units)
      ensures Valid() && tree == t && stack == [0] && batch == []
    {
      tree := t;
      stack := [0];
      batch := [];
    }

    /** The tree and the two stacks, as a value. */
    ghost function State(): Draft
      reads this, tree
    {
      Draft(tree.units, tree.lists, stack, batch)
    }

    /** `get parent()`: the suite on top of the stack. */
    function Parent(): nat
      requires |stack| >= 1
      reads this
    {
      stack[|stack| - 1]
    }

    /** `describe(label, handler)`: a non-function handler is refused; otherwise
      a new suite becomes the current suite's last child, sharing the innermost
      `each`'s modifier array (or owning a fresh empty one), and the handler's
      body runs with it on top of the stack. The stack is popped only when the
      body returns normally. */
    method Describe(name: string, handler: Arg) returns (r: Result<()>)
      requires Valid()
      modifies this, tree
      ensures Valid() && Built(r, State()) == DescribeSpec(old(State()), name, handler)
      decreases handler, 0
    {
      if !handler.Func? {
        DescribeRefused(State(), name, handler);
        return Thrown(Error("Handler is not a function"));
      }
      ghost var d := State();
      var id := OpenSuite(name);
      r := Run(handler.fn);
      DescribeSteps(d, name, handler.fn, r, State());
      if r.Ok? {
        Leave();
      }
    }

    /** The `stack.pop()` that ends `describe`. */
    method Leave()
      requires Valid() && |stack| >= 2
      modifies this
      ensures Valid() && State() == old(State()).(stack := old(stack[..|stack| - 1]))
    {
      CursorLeave(tree.units, tree.lists, stack, batch);
      stack := stack[..|stack| - 1];
    }

    /** The first half of `describe`: the new suite, pushed into the current
      one and onto the stack. */
    method OpenSuite(name: string) returns (id: nat)
      requires Valid()
      modifies this, tree
      ensures Valid() && id == old(|tree.units|) && State() == Opened(old(State()), name)
    {
      ghost var d := State();
      CursorReady(d);
      id := AddSuite(name);
      OpenedIs(d, name, tree.units, tree.lists);
      CursorEnter(tree.units, tree.lists, stack, batch, id);
      stack := stack + [id];
    }

    /** The suite `describe` creates: a child of the current suite, sharing
      the innermost batch array or else a fresh empty one. */
    method AddSuite(name: string) returns (id: nat)
      requires Valid()
      modifies tree
      ensures tree.Valid() && Cursor(tree.units, tree.lists, old(stack), old(batch))
      ensures Grows(old(tree.units), tree.units) && ListsGrow(old(tree.lists), tree.lists)
      ensures id == old(|tree.units|) && id < |tree.units| && tree.units[id].Suite? && tree.units[id].name == name
      ensures tree.units[id].parent == old(Some(Parent()))
      ensures tree.units[old(Parent())].units == old(tree.units[Parent()].units) + [id]
      ensures old(batch) == [] ==> tree.units[id].modifierList == old(|tree.lists|)
      ensures old(batch) != [] ==> tree.units[id].modifierList == old(batch[|batch| - 1])
      ensures var p := old(Parent());
              var m := if old(batch) == [] then old(|tree.lists|) else old(batch[|batch| - 1]);
              && tree.units == Appended(old(tree.units), p, NewSuite(p, name, m))
              && tree.lists == if old(batch) == [] then old(tree.lists) + [[]] else old(tree.lists)
    {
      var parent := stack[|stack| - 1];
      ghost var units0 := tree.units;
      ghost var lists0 := tree.lists;
      assert units0 == old(tree.units) && lists0 == old(tree.lists);
      var m: nat;
      if |batch| == 0 {
        m := tree.NewList([]);
        ListsGrowAppend(lists0, []);
      } else {
        m := batch[|batch| - 1];
        ListsGrowRefl(lists0);
      }
      ghost var lists1 := tree.lists;
      assert m == if batch == [] then |lists0| else batch[|batch| - 1];
      var next := NewSuite(parent, name, m);
      assert IsNewUnit(next, parent, |lists1|);
      PushGrows(units0, parent, next, []);
      id := tree.Push(parent, next);
      assert tree.units[id] == next;
      assert tree.units[id].modifierList == m;
      CursorKept(units0, tree.units, lists0, lists1, stack, batch);
    }

    /** `use(handler)`: a non-function is refused; otherwise the handler goes
      last into the current suite's modifier array, which is refused once the
      suite has a child. */
    method Use(handler: Arg) returns (r: Result<()>)
      requires Valid()
      modifies tree
      ensures Valid() && tree.units == old(tree.units) && ListsGrow(old(tree.lists), tree.lists)
      ensures !handler.Func? ==> r == Thrown(Error("Handler is not a function")) && tree.lists == old(tree.lists)
      ensures handler.Func? && old(tree.units[Parent()].hasUnit) ==>
                r == Thrown(Error("Cases or sections already defined")) && tree.lists == old(tree.lists)
      ensures handler.Func? && !old(tree.units[Parent()].hasUnit) ==>
                var m := tree.units[Parent()].modifierList;
                r == Ok(()) && tree.lists == old(tree.lists)[m := old(tree.lists[m]) + [handler]]
      ensures Built(r, State()) == UseSpec(old(State()), handler)
    {
      CursorReady(State());
      if !handler.Func? {
        return Thrown(Error("Handler is not a function"));
      }
      r := tree.AddWrapper(stack[|stack| - 1], handler);
    }

    /** `it(label, ...modifiers, handler)`: at least one argument after the
      label, and all of them functions (the first offender is reported);
      then a case is pushed under the current suite, its index being the
      suite's new `total`. */
    method It(name: string, args: seq<Arg>) returns (r: Result<()>)
      requires Valid()
      modifies tree
      ensures Valid() && Grows(old(tree.units), tree.units) && tree.lists == old(tree.lists)
      ensures args == [] ==> r == Thrown(Error("No handler is defined")) && tree.units == old(tree.units)
      ensures args != [] && FirstNonFunction(args).Some? ==>
                r == Thrown(Error(ArgumentMessageAsWritten(FirstNonFunction(args).value))) && tree.units == old(tree.units)
      ensures args != [] && FirstNonFunction(args).None? ==>
                var p := Parent();
                var u := NewCase(old(tree.units), tree.lists, batch, p, name, args);
                && r == Ok(())
                && tree.units == Bumped(Appended(old(tree.units), p, u), [p] + Parents(old(tree.units), p), Total)
                && tree.units[p].total == tree.units[old(|tree.units|)].index
      ensures Built(r, State()) == ItSpec(old(State()), name, args)
    {
      if |args| == 0 {
        return Thrown(Error("No handler is defined"));
      }
      var bad := CheckArgs(args);
      if bad.Some? {
        return Thrown(Error(ArgumentMessageAsWritten(bad.value)));
      }
      r := AddCase(name, args);
    }

    /** `parent.push(new Case(...))` for `it` once its arguments are checked. */
    method AddCase(name: string, args: seq<Arg>) returns (r: Result<()>)
      requires Valid() && |args| > 0
      modifies tree
      ensures Valid() && Grows(old(tree.units), tree.units) && tree.lists == old(tree.lists)
      ensures var p := old(Parent());
              var u := NewCase(old(tree.units), old(tree.lists), old(batch), p, name, args);
              && r == Ok(())
              && tree.units == Bumped(Appended(old(tree.units), p, u), [p] + Parents(old(tree.units), p), Total)
              && tree.units[p].total == tree.units[old(|tree.units|)].index
    {
      var p := stack[|stack| - 1];
      ghost var units0 := tree.units;
      ghost var lists0 := tree.lists;
      var u := NewCase(tree.units, tree.lists, batch, p, name, args);
      assert p == old(Parent()) && units0 == old(tree.units) && lists0 == old(tree.lists);
      PushGrows(units0, p, u, [p] + Parents(units0, p));
      CaseIndexIsTotal(units0, p, u);
      var id := tree.Push(p, u);
      CursorKept(units0, tree.units, lists0, lists0, stack, batch);
      r := Ok(());
    }

    /** `each(...modifiers, fn)`: the arguments before the last become a new
      modifier array on the batch stack (they are not checked), and the last
      is called with the handles; calling a missing or non-function last
      argument throws a TypeError and leaves the array on the stack. */
    method Each(args: seq<Arg>) returns (r: Result<()>)
      requires Valid()
      modifies this, tree
      ensures Valid() && Built(r, State()) == EachSpec(old(State()), args)
      decreases Call.Each(args), 0
    {
      ghost var d := State();
      var items := if |args| == 0 then [] else args[..|args| - 1];
      var m := tree.NewList(items);
      CursorKept(tree.units, tree.units, old(tree.lists), tree.lists, stack, batch);
      CursorBatch(tree.units, tree.lists, stack, batch, m);
      batch := batch + [m];
      if |args| == 0 || !args[|args| - 1].Func? {
        EachRefused(d, args);
        return Thrown(TypeError);
      }
      assert args[|args| - 1] in args;
      r := Run(args[|args| - 1].fn);
      EachSteps(d, args, r, State());
      if r.Ok? {
        LeaveBatch();
      }
    }

    /** The `batchModifiers.pop()` that ends `each`. */
    method LeaveBatch()
      requires Valid() && |batch| >= 1
      modifies this
      ensures Valid() && State() == old(State()).(batch := old(batch[..|batch| - 1]))
    {
      CursorLeave(tree.units, tree.lists, stack, batch);
      batch := batch[..|batch| - 1];
    }

    /** One statement of a script body. */
    method Exec(call: Call) returns (r: Result<()>)
      requires Valid()
      modifies this, tree
      ensures Valid() && Built(r, State()) == ExecSpec(old(State()), call)
      decreases call, 1
    {
      match call
      case Describe(name, handler) =>
        r := Describe(name, handler);
      case Use(handler) =>
        r := Use(handler);
      case It(name, args) =>
        r := It(name, args);
      case Each(args) =>
        r := Each(args);
      case Fail(error) =>
        r := Thrown(error);
    }

    /** `fn(this)`: the body's statements in order, stopping at the first that
      throws, whose error the call then throws. */
    method Run(fn: Fn) returns (r: Result<()>)
      requires Valid()
      modifies this, tree
      ensures Valid() && Built(r, State()) == CallsSpec(old(State()), fn.body)
      decreases fn, 0
    {
      var i := 0;
      while i < |fn.body|
        invariant 0 <= i <= |fn.body|
        invariant Valid() && stack == old(stack) && batch == old(batch)
        invariant CallsSpec(old(State()), fn.body) == CallsSpec(State(), fn.body[i..])
      {
        assert fn.body[i] in fn.body;
        assert fn.body[i..][0] == fn.body[i] && fn.body[i..][1..] == fn.body[i + 1..];
        r := Exec(fn.body[i]);
        if r.Thrown? {
          return;
        }
        i := i + 1;
      }
      r := Ok(());
    }
  }

  /** The index a new case receives is its parent's `total` once it is pushed. */
  lemma CaseIndexIsTotal(units: seq<Unit>, p: nat, u: Unit)
    requires p < |units| && units[p].Suite? && u.Case? && u.index == units[p].total + 1
    ensures var after := Bumped(Appended(units, p, u), [p] + Parents(units, p), Total);
      after[p].total == after[|units|].index
  {
    if p in Parents(units, p) { ParentsBelow(units, p, p); }
    assert |units| !in [p] + Parents(units, p) by {
      if |units| in Parents(units, p) { ParentsBelow(units, p, |units|); }
    }
  }

  /** The loop of `it` over its modifiers: the position of the first one
      that is not a function. */
  method CheckArgs(args: seq<Arg>) returns (bad: Option<nat>)
    ensures bad == FirstNonFunction(args)
  {
    var i := 0;
    while i < |args|
      invariant 0 <= i <= |args|
      invariant forall k :: 0 <= k < i ==> args[k].Func?
    {
      if !args[i].Func? {
        FirstNonFunctionIs(args, i);
        return Some(i);
      }
      i := i + 1;
    }
    return None;
  }

  lemma {:induction false} FirstNonFunctionIs(args: seq<Arg>, i: nat)
    requires i < |args| && !args[i].Func? && forall k :: 0 <= k < i ==> args[k].Func?
    ensures FirstNonFunction(args) == Some(i)
    decreases i
  {
    if i > 0 {
      FirstNonFunctionIs(args[1..], i - 1);
    }
  }
}
