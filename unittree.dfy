/** The unit tree of the test engine (`Unit`, `Suite`, `Case`,
    packages/@testup/core/testup.js): suites and cases kept in one arena, each
    unit pointing at its parent by index. A unit is always created after its
    parent, so a parent's index is smaller than its child's. */
module UnitTree {
  import opened JsValues
  import opened Behaviours

  /** One unit. `name` is the source's `label`. A suite's `modifierList` names
      the array (in the arena's `lists`) that it shares with whoever created it;
      `units` are the indices of its children in insertion order. A case keeps
      its own copy of its modifiers, its handler, its 1-based `index` and the
      error its handler left (`null` until a truthy one is recorded). */
  datatype Unit =
    | Suite(parent: Option<nat>, name: string, isCompleted: bool, modifierList: nat,
            units: seq<nat>, total: nat, passed: nat, failed: nat, hasUnit: bool)
    | Case(parent: Option<nat>, name: string, isCompleted: bool, error: Value,
           modifier: seq<Arg>, handler: Arg, index: nat)

  /** The three counters of a suite, and which cases each of them counts. */
  datatype Tally = Total | Passed | Failed

  function Counter(u: Unit, t: Tally): nat
    requires u.Suite?
  {
    match t
    case Total => u.total
    case Passed => u.passed
    case Failed => u.failed
  }

  /** The suite with counter `t` raised by one; any other unit unchanged. */
  function Incr(u: Unit, t: Tally): (v: Unit)
    ensures v.Suite? == u.Suite? && v.parent == u.parent
    ensures u.Suite? ==> forall t' :: Counter(v, t') == Counter(u, t') + (if t' == t then 1 else 0)
  {
    if !u.Suite? then u
    else match t
      case Total => u.(total := u.total + 1)
      case Passed => u.(passed := u.passed + 1)
      case Failed => u.(failed := u.failed + 1)
  }

  /** Whether counter `t` of a suite above `u` counts `u`. */
  predicate Holds(u: Unit, t: Tally) {
    u.Case? &&
    match t
    case Total => true
    case Passed => u.isCompleted && u.error == Null
    case Failed => u.isCompleted && u.error != Null
  }

  /** `parents`: the ancestors of unit `i`, nearest first. */
  function Parents(units: seq<Unit>, i: nat): seq<nat>
    decreases i
  {
    if i < |units| && units[i].parent.Some? && units[i].parent.value < i
    then [units[i].parent.value] + Parents(units, units[i].parent.value)
    else []
  }

  /** How many of the units `0 .. n-1` lie below suite `s` and are counted by `t`. */
  ghost function Counts(units: seq<Unit>, s: nat, n: nat, t: Tally): nat
    decreases n
  {
    if n == 0 then 0
    else Counts(units, s, n - 1, t)
         + (if n - 1 < |units| && s in Parents(units, n - 1) && Holds(units[n - 1], t) then 1 else 0)
  }

  /** The shape every tree keeps: a root suite at index 0, every other unit
      under an earlier suite, children that come after their parent, and a
      recorded error only on a completed case. */
  ghost predicate Structure(units: seq<Unit>, lists: seq<seq<Arg>>) {
    && |units| >= 1 && units[0].Suite? && units[0].parent.None?
    && (forall i :: 0 < i < |units| ==> units[i].parent.Some? && units[i].parent.value < i)
    && (forall i, j :: 0 <= j < i < |units| && units[i].parent == Some(j) ==> units[j].Suite?)
    && (forall i :: 0 <= i < |units| && units[i].Suite? ==>
          && units[i].modifierList < |lists|
          && (units[i].hasUnit <==> |units[i].units| > 0)
          && (forall k :: 0 <= k < |units[i].units| ==> i < units[i].units[k] < |units|))
    && (forall i :: 0 <= i < |units| && units[i].Case? && !units[i].isCompleted ==> units[i].error == Null)
  }

  /** Counter `t` of every suite counts the cases below it, except that the
      suites in `pending` are one short. */
  ghost predicate Agree(units: seq<Unit>, t: Tally, pending: seq<nat>) {
    forall s {:trigger Counts(units, s, |units|, t)} :: 0 <= s < |units| && units[s].Suite? ==>
      Counter(units[s], t) + (if s in pending then 1 else 0) == Counts(units, s, |units|, t)
  }

  /** The tree invariant: `total`, `passed` and `failed` of every suite are the
      numbers of cases, passed cases and failed cases anywhere below it. */
  ghost predicate WellFormed(units: seq<Unit>, lists: seq<seq<Arg>>) {
    Structure(units, lists) && Agree(units, Total, []) && Agree(units, Passed, []) && Agree(units, Failed, [])
  }

  /** Two arenas whose first `n` units have the same parents. */
  ghost predicate SameParents(u1: seq<Unit>, u2: seq<Unit>, n: nat) {
    n <= |u1| && n <= |u2| && forall j :: 0 <= j < n ==> u1[j].parent == u2[j].parent
  }

  /** The arena after the units on `chain` have counter `t` raised by one. */
  ghost function Bumped(units: seq<Unit>, chain: seq<nat>, t: Tally): (r: seq<Unit>)
    ensures |r| == |units|
    ensures forall j :: 0 <= j < |units| ==> r[j] == if j in chain then Incr(units[j], t) else units[j]
  {
    seq(|units|, j requires 0 <= j < |units| => if j in chain then Incr(units[j], t) else units[j])
  }

  /** A unit with what running it changes cleared: its completion, its
      recorded error and its `passed` and `failed` counters. */
  function Shape(u: Unit): Unit {
    match u
    case Suite(_, _, _, _, _, _, _, _, _) => u.(isCompleted := false, passed := 0, failed := 0)
    case Case(_, _, _, _, _, _, _) => u.(isCompleted := false, error := Null)
  }

  function Shapes(units: seq<Unit>): (r: seq<Unit>)
    ensures |r| == |units|
  {
    seq(|units|, j requires 0 <= j < |units| => Shape(units[j]))
  }

  /** What is left unchanged by everything except counting and completion:
      parents, kinds, names, children, modifiers, handlers and indices. */
  ghost predicate SameShape(u1: seq<Unit>, u2: seq<Unit>) {
    |u1| == |u2| && Shapes(u1) == Shapes(u2)
  }

  /** Unit `j` of two arenas of the same shape. */
  lemma SameShapeAt(u1: seq<Unit>, u2: seq<Unit>, j: nat)
    requires SameShape(u1, u2) && j < |u1|
    ensures u1[j].parent == u2[j].parent && u1[j].name == u2[j].name && u1[j].Suite? == u2[j].Suite?
    ensures u1[j].Suite? ==> u1[j].modifierList == u2[j].modifierList && u1[j].units == u2[j].units
                             && u1[j].hasUnit == u2[j].hasUnit && u1[j].total == u2[j].total
    ensures u1[j].Case? ==> u1[j].modifier == u2[j].modifier && u1[j].handler == u2[j].handler
                            && u1[j].index == u2[j].index
  {
    assert Shapes(u1)[j] == Shapes(u2)[j];
  }

  /** Two arenas whose units have pairwise the same shape. */
  lemma SameShapeFrom(u1: seq<Unit>, u2: seq<Unit>)
    requires |u1| == |u2| && forall j :: 0 <= j < |u1| ==> Shape(u1[j]) == Shape(u2[j])
    ensures SameShape(u1, u2)
  {
    assert forall j :: 0 <= j < |u1| ==> Shapes(u1)[j] == Shapes(u2)[j];
  }

  /** The part of `Structure` that walking the tree relies on: every suite's
      modifier array exists and its children come after it in the arena. */
  ghost predicate Shaped(units: seq<Unit>, lists: seq<seq<Arg>>) {
    forall i :: 0 <= i < |units| && units[i].Suite? ==>
      && units[i].modifierList < |lists|
      && forall k :: 0 <= k < |units[i].units| ==> i < units[i].units[k] < |units|
  }

  lemma ShapedKept(u1: seq<Unit>, u2: seq<Unit>, lists: seq<seq<Arg>>)
    requires Shaped(u1, lists) && SameShape(u1, u2)
    ensures Shaped(u2, lists)
  {
    forall i | 0 <= i < |u2| && u2[i].Suite?
      ensures u2[i].modifierList < |lists| && forall k :: 0 <= k < |u2[i].units| ==> i < u2[i].units[k] < |u2|
    {
      SameShapeAt(u1, u2, i);
    }
  }

  // ----- ancestors -----

  lemma {:induction false} ParentsPrefix(u1: seq<Unit>, u2: seq<Unit>, n: nat, i: nat)
    requires SameParents(u1, u2, n) && i < n
    ensures Parents(u1, i) == Parents(u2, i)
    decreases i
  {
    if u1[i].parent.Some? && u1[i].parent.value < i {
      ParentsPrefix(u1, u2, n, u1[i].parent.value);
    }
  }

  lemma {:induction false} ParentsBelow(units: seq<Unit>, i: nat, a: nat)
    requires a in Parents(units, i)
    ensures a < i < |units|
    decreases i
  {
    var p := units[i].parent.value;
    if a != p {
      ParentsBelow(units, p, a);
    }
  }

  /** The ancestors of a unit are ancestors of each other in index order: of
      two of them the one with the smaller index is above the other. */
  lemma {:induction false} ParentsOrdered(units: seq<Unit>, i: nat, a: nat, b: nat)
    requires a in Parents(units, i) && b in Parents(units, i) && a < b
    ensures a in Parents(units, b)
    decreases i
  {
    var p := units[i].parent.value;
    if b == p {
    } else {
      ParentsBelow(units, p, b);
      if a == p {
      } else {
        ParentsOrdered(units, p, a, b);
      }
    }
  }

  /** Walking one step up from an ancestor `a` of `i` reaches the next
      ancestor: no ancestor of `i` lies strictly between `a` and its parent. */
  lemma ChainStep(units: seq<Unit>, i: nat, a: nat, b: nat)
    requires a in Parents(units, i) && b in Parents(units, i) && b < a
    ensures a < |units| && units[a].parent.Some? && units[a].parent.value < a
    ensures b <= units[a].parent.value && units[a].parent.value in Parents(units, i)
  {
    ParentsBelow(units, i, a);
    ParentsOrdered(units, i, b, a);
    var q := units[a].parent.value;
    if b != q {
      ParentsBelow(units, q, b);
    }
    ParentsTransitive(units, i, a);
  }

  /** The parent of an ancestor is an ancestor. */
  lemma {:induction false} ParentsTransitive(units: seq<Unit>, i: nat, a: nat)
    requires a in Parents(units, i) && a < |units| && units[a].parent.Some? && units[a].parent.value < a
    ensures units[a].parent.value in Parents(units, i)
    decreases i
  {
    var p := units[i].parent.value;
    if a != p {
      ParentsTransitive(units, p, a);
    }
  }

  /** In a well-formed tree every ancestor is a suite, and the farthest one
      is the root. */
  lemma {:induction false} ParentsAreSuites(units: seq<Unit>, lists: seq<seq<Arg>>, i: nat)
    requires Structure(units, lists) && i < |units|
    ensures forall a :: a in Parents(units, i) ==> a < i && units[a].Suite?
    ensures i > 0 <==> |Parents(units, i)| > 0
    ensures i > 0 ==> Parents(units, i)[|Parents(units, i)| - 1] == 0
    decreases i
  {
    if i > 0 {
      var p := units[i].parent.value;
      ParentsAreSuites(units, lists, p);
    }
  }

  // ----- counting -----

  /** Counting only looks at parents and at what `Holds`: changing one unit
      `c` changes every count above it by what `Holds` gained or lost there. */
  lemma {:induction false} CountsFrame(u1: seq<Unit>, u2: seq<Unit>, s: nat, n: nat, t: Tally, c: int)
    requires SameParents(u1, u2, n)
    requires forall j :: 0 <= j < n && j != c ==> Holds(u1[j], t) == Holds(u2[j], t)
    ensures Counts(u2, s, n, t) == Counts(u1, s, n, t)
              + (if 0 <= c < n && s in Parents(u1, c) then
                   (if Holds(u2[c], t) then 1 else 0) - (if Holds(u1[c], t) then 1 else 0)
                 else 0)
    decreases n
  {
    if n > 0 {
      CountsFrame(u1, u2, s, n - 1, t, c);
      ParentsPrefix(u1, u2, n, n - 1);
      if 0 <= c < n - 1 {
        ParentsPrefix(u1, u2, n, c);
      }
    }
  }

  /** Nothing created before or with a suite lies below it. */
  lemma {:induction false} CountsNone(units: seq<Unit>, s: nat, n: nat, t: Tally)
    requires n <= s + 1
    ensures Counts(units, s, n, t) == 0
    decreases n
  {
    if n > 0 {
      CountsNone(units, s, n - 1, t);
      if s in Parents(units, n - 1) {
        ParentsBelow(units, n - 1, s);
      }
    }
  }

  /** No suite has more passed and failed cases below it than cases. */
  lemma {:induction false} CountsBounded(units: seq<Unit>, s: nat, n: nat)
    ensures Counts(units, s, n, Passed) + Counts(units, s, n, Failed) <= Counts(units, s, n, Total)
    decreases n
  {
    if n > 0 {
      CountsBounded(units, s, n - 1);
    }
  }

  /** The passed cases below a suite are as many as its cases exactly when
      every case below it has passed. */
  lemma {:induction false} CountsAllPassed(units: seq<Unit>, s: nat, n: nat)
    requires n <= |units|
    ensures Counts(units, s, n, Passed) <= Counts(units, s, n, Total)
    ensures Counts(units, s, n, Passed) == Counts(units, s, n, Total) <==>
              forall j :: 0 <= j < n && s in Parents(units, j) && units[j].Case? ==> Holds(units[j], Passed)
    decreases n
  {
    if n > 0 {
      CountsAllPassed(units, s, n - 1);
    }
  }

  /** Raising counters never changes any count. */
  lemma BumpedCounts(units: seq<Unit>, chain: seq<nat>, t: Tally, t': Tally, s: nat)
    ensures Counts(Bumped(units, chain, t), s, |units|, t') == Counts(units, s, |units|, t')
  {
    CountsFrame(units, Bumped(units, chain, t), s, |units|, t', -1);
  }

  /** The counter invariant the source guards with 'Invalid tests count':
      in a well-formed tree `passed + failed <= total` at every suite. */
  lemma CounterInvariant(units: seq<Unit>, lists: seq<seq<Arg>>, s: nat)
    requires WellFormed(units, lists) && s < |units| && units[s].Suite?
    ensures units[s].passed + units[s].failed <= units[s].total
  {
    CountsBounded(units, s, |units|);
  }

  // ----- derived queries -----

  /** `path`: the names of the suites from below the root down to the unit;
      a case shows its parent's path, the root shows the empty path. */
  function Path(units: seq<Unit>, i: nat): seq<string>
    decreases i
  {
    if i < |units| && units[i].parent.Some? && units[i].parent.value < i then
      var p := units[i].parent.value;
      if units[i].Suite? then Path(units, p) + [units[i].name] else Path(units, p)
    else []
  }

  /** A suite's path has one name per ancestor, and a case's path is its
      parent's: the path never includes the root's own name. */
  lemma {:induction false} PathLength(units: seq<Unit>, lists: seq<seq<Arg>>, i: nat)
    requires Structure(units, lists) && i < |units|
    ensures units[i].Suite? ==> |Path(units, i)| == |Parents(units, i)|
    ensures units[i].Case? ==> |Path(units, i)| == |Parents(units, i)| - 1
    ensures i > 0 ==> Path(units, units[i].parent.value) == Path(units, i)[..|Path(units, units[i].parent.value)|]
    decreases i
  {
    if i > 0 {
      var p := units[i].parent.value;
      PathLength(units, lists, p);
    }
  }

  /** What `path` lists: the labels of the unit's ancestors below the root,
      the one nearest the root first, then a suite's own label. `Parents`
      lists the ancestors nearest first and ends at the root, so the label of
      the ancestor at position `k` stands at position `|ps| - 2 - k`. */
  lemma {:induction false} PathNames(units: seq<Unit>, lists: seq<seq<Arg>>, i: nat)
    requires Structure(units, lists) && i < |units|
    ensures var ps := Parents(units, i);
      && |Path(units, i)| == (if units[i].Suite? then |ps| else |ps| - 1)
      && (forall k :: 0 <= k < |ps| ==> ps[k] < |units|)
      && (forall k :: 0 <= k < |ps| - 1 ==> Path(units, i)[|ps| - 2 - k] == units[ps[k]].name)
      && (i > 0 && units[i].Suite? ==> Path(units, i)[|ps| - 1] == units[i].name)
    decreases i
  {
    if i > 0 {
      var p := units[i].parent.value;
      PathNames(units, lists, p);
      var ps, qs := Parents(units, i), Parents(units, p);
      var pi, pp := Path(units, i), Path(units, p);
      assert ps == [p] + qs;
      assert units[p].Suite? && |pp| == |qs|;
      assert pi == pp + (if units[i].Suite? then [units[i].name] else []);
      forall k | 0 <= k < |ps| - 1
        ensures pi[|ps| - 2 - k] == units[ps[k]].name
      {
        if k == 0 {
          assert ps[k] == p && pi[|ps| - 2] == pp[|pp| - 1];
        } else {
          assert ps[k] == qs[k - 1] && pi[|ps| - 2 - k] == pp[|qs| - 2 - (k - 1)];
        }
      }
    }
  }

  /** `isOk` of a suite: completed, with every case below it passed. */
  predicate SuiteIsOk(u: Unit)
    requires u.Suite?
  {
    u.isCompleted && u.passed == u.total
  }

  /** `isOk` of a case: completed without a recorded error. */
  predicate CaseIsOk(u: Unit)
    requires u.Case?
  {
    u.isCompleted && u.error == Null
  }

  /** A suite is ok exactly when it is completed and every case below it is
      completed with no error. */
  lemma SuiteOkMeansAllPassed(units: seq<Unit>, lists: seq<seq<Arg>>, s: nat)
    requires WellFormed(units, lists) && s < |units| && units[s].Suite?
    ensures SuiteIsOk(units[s]) <==>
              units[s].isCompleted &&
              forall j :: 0 <= j < |units| && s in Parents(units, j) && units[j].Case? ==> CaseIsOk(units[j])
  {
    CountsAllPassed(units, s, |units|);
  }

  /** The root as built by `new Suite()`: no parent, label '', the fresh
      modifier array 0, no children and zero counters. */
  function NewRoot(): (u: Unit)
    ensures u.Suite? && u.parent.None? && !u.isCompleted && u.units == [] && !u.hasUnit
    ensures u.total == 0 && u.passed == 0 && u.failed == 0
  {
    Suite(None, "", false, 0, [], 0, 0, 0, false)
  }

  /** A unit as its constructor leaves it, before it is pushed into `parent`. */
  predicate IsNewUnit(u: Unit, parent: nat, listCount: nat) {
    && u.parent == Some(parent) && !u.isCompleted
    && (u.Suite? ==> u.modifierList < listCount && u.units == [] && !u.hasUnit
                     && u.total == 0 && u.passed == 0 && u.failed == 0)
    && (u.Case? ==> u.error == Null)
  }

  /** The arena after `parent.push(u)`: `u` appended, recorded among the
      parent's children, and the parent marked as having a unit. */
  function Appended(units: seq<Unit>, parent: nat, u: Unit): (r: seq<Unit>)
    requires parent < |units| && units[parent].Suite?
    ensures |r| == |units| + 1 && r[|units|] == u
    ensures forall j :: 0 <= j < |units| && j != parent ==> r[j] == units[j]
    ensures r[parent] == units[parent].(units := units[parent].units + [|units|], hasUnit := true)
  {
    units[parent := units[parent].(units := units[parent].units + [|units|], hasUnit := true)] + [u]
  }

  /** The arena after `Case.end(error)` on case `c`: completed, the error kept
      when it is truthy, and the suites above it counting one more passed or
      failed case. */
  ghost function Ended(units: seq<Unit>, c: nat, error: Value): (r: seq<Unit>)
    requires c < |units| && units[c].Case?
    ensures |r| == |units|
  {
    var done := units[c := units[c].(isCompleted := true, error := if Truthy(error) then error else Null)];
    Bumped(done, Parents(units, c), if Truthy(error) then Failed else Passed)
  }

  /** `end()` of the base class: the unit marked completed, nothing else changed. */
  function Complete(u: Unit): (v: Unit)
    ensures v.isCompleted && v.parent == u.parent && v.Suite? == u.Suite?
  {
    match u
    case Suite(p, n, _, m, us, t, ps, f, h) => Suite(p, n, true, m, us, t, ps, f, h)
    case Case(p, n, _, e, m, h, i) => Case(p, n, true, e, m, h, i)
  }

  /** `push(unit)` keeps the tree invariant: once the suites above a new
      case count it in `total`, every counter again counts the cases below. */
  lemma PushedWellFormed(units: seq<Unit>, lists: seq<seq<Arg>>, parent: nat, u: Unit)
    requires WellFormed(units, lists) && parent < |units| && units[parent].Suite? && IsNewUnit(u, parent, |lists|)
    ensures u.Suite? ==> WellFormed(Appended(units, parent, u), lists)
    ensures u.Case? ==> WellFormed(Bumped(Appended(units, parent, u), [parent] + Parents(units, parent), Total), lists)
  {
    PushKeepsStructure(units, lists, parent, u);
    PushCounts(units, lists, parent, u);
    if u.Case? {
      BumpedAgrees(Appended(units, parent, u), lists, |units|, Total);
    }
  }

  /** The tree invariant asks of the modifier arrays only that they exist. */
  lemma WellFormedMoreLists(units: seq<Unit>, l1: seq<seq<Arg>>, l2: seq<seq<Arg>>)
    requires WellFormed(units, l1) && |l1| <= |l2|
    ensures WellFormed(units, l2)
  {
  }

  /** Appending a new unit keeps the shape of the tree, adds nothing to any
      count except `total` above a new case, and leaves the suites above that
      case one short of it. */
  lemma PushKeepsStructure(units: seq<Unit>, lists: seq<seq<Arg>>, parent: nat, u: Unit)
    requires Structure(units, lists) && parent < |units| && units[parent].Suite? && IsNewUnit(u, parent, |lists|)
    ensures Structure(Appended(units, parent, u), lists)
  {
    var after := Appended(units, parent, u);
    var id := |units|;
    assert forall i :: 0 <= i < id ==> after[i].parent == units[i].parent && after[i].Suite? == units[i].Suite?;
    forall i | 0 <= i < |after| && after[i].Suite?
      ensures forall k :: 0 <= k < |after[i].units| ==> i < after[i].units[k] < |after|
    {
      if i == parent {
        forall k | 0 <= k < |after[i].units| ensures i < after[i].units[k] < |after| {
          if k < |units[i].units| {
            assert after[i].units[k] == units[i].units[k];
          }
        }
      } else if i < id {
        assert after[i] == units[i];
      }
    }
  }

  lemma PushCounts(units: seq<Unit>, lists: seq<seq<Arg>>, parent: nat, u: Unit)
    requires WellFormed(units, lists) && parent < |units| && units[parent].Suite? && IsNewUnit(u, parent, |lists|)
    ensures Parents(Appended(units, parent, u), |units|) == [parent] + Parents(units, parent)
    ensures var after := Appended(units, parent, u);
      Agree(after, Total, if u.Case? then Parents(after, |units|) else [])
      && Agree(after, Passed, []) && Agree(after, Failed, [])
  {
    var after := Appended(units, parent, u);
    var id := |units|;
    assert SameParents(units, after, |units|);
    ParentsPrefix(units, after, |units|, parent);
    assert Parents(after, id) == [parent] + Parents(after, parent);
    AppendedAgrees(units, parent, u, Total);
    AppendedAgrees(units, parent, u, Passed);
    AppendedAgrees(units, parent, u, Failed);
  }

  lemma AppendedAgrees(units: seq<Unit>, parent: nat, u: Unit, t: Tally)
    requires Agree(units, t, []) && parent < |units| && units[parent].Suite? && u.parent == Some(parent)
    requires u.Suite? ==> u.total == 0 && u.passed == 0 && u.failed == 0
    requires u.Case? ==> !u.isCompleted
    ensures var after := Appended(units, parent, u);
      Agree(after, t, if u.Case? && t == Total then Parents(after, |units|) else [])
  {
    var after := Appended(units, parent, u);
    forall s | 0 <= s < |after| && after[s].Suite?
      ensures Counter(after[s], t) + (if s in (if u.Case? && t == Total then Parents(after, |units|) else []) then 1 else 0)
                == Counts(after, s, |after|, t)
    {
      AppendedCount(units, parent, u, t, s);
    }
  }

  /** One suite of `AppendedAgrees`. */
  lemma AppendedCount(units: seq<Unit>, parent: nat, u: Unit, t: Tally, s: nat)
    requires Agree(units, t, []) && parent < |units| && units[parent].Suite? && u.parent == Some(parent)
    requires u.Suite? ==> u.total == 0 && u.passed == 0 && u.failed == 0
    requires u.Case? ==> !u.isCompleted
    requires s <= |units| && Appended(units, parent, u)[s].Suite?
    ensures var after := Appended(units, parent, u);
      Counter(after[s], t) + (if u.Case? && t == Total && s in Parents(after, |units|) then 1 else 0)
        == Counts(after, s, |after|, t)
  {
    var after := Appended(units, parent, u);
    var id := |units|;
    assert SameParents(units, after, id);
    CountsFrame(units, after, s, id, t, -1);
    var extra := if s in Parents(after, id) && Holds(after[id], t) then 1 else 0;
    assert Counts(after, s, |after|, t) == Counts(units, s, id, t) + extra;
    if s < id {
      assert Counter(after[s], t) == Counter(units[s], t);
      assert Counter(units[s], t) == Counts(units, s, id, t);
    } else {
      CountsNone(after, s, |after|, t);
    }
  }

  /** Marking a case completed, with its error kept when truthy, leaves the
      suites above it one short in the matching counter. */
  lemma EndCaseCounts(units: seq<Unit>, lists: seq<seq<Arg>>, c: nat, error: Value)
    requires WellFormed(units, lists) && c < |units| && units[c].Case? && !units[c].isCompleted
    ensures var t := if Truthy(error) then Failed else Passed;
      var done := units[c := units[c].(isCompleted := true, error := if Truthy(error) then error else Null)];
      && Structure(done, lists) && Holds(done[c], t) && Parents(done, c) == Parents(units, c)
      && Agree(done, Total, []) && Agree(done, t, Parents(done, c))
      && Agree(done, if t == Passed then Failed else Passed, [])
  {
    var done := units[c := units[c].(isCompleted := true, error := if Truthy(error) then error else Null)];
    ReplaceCaseKeepsStructure(units, lists, c, done[c]);
    assert SameParents(units, done, |units|);
    ParentsPrefix(units, done, |units|, c);
    CompletedAgrees(units, c, done, Total);
    CompletedAgrees(units, c, done, Passed);
    CompletedAgrees(units, c, done, Failed);
  }

  lemma CompletedAgrees(units: seq<Unit>, c: nat, done: seq<Unit>, t: Tally)
    requires Agree(units, t, []) && c < |units| && units[c].Case? && !units[c].isCompleted && units[c].error == Null
    requires |done| == |units| && done[c].Case? && done[c].isCompleted
    requires forall j :: 0 <= j < |units| && j != c ==> done[j] == units[j]
    requires done[c].parent == units[c].parent
    ensures Agree(done, t, if Holds(done[c], t) && t != Total then Parents(units, c) else [])
  {
    assert SameParents(units, done, |units|);
    forall s | 0 <= s < |done| && done[s].Suite?
      ensures Counter(done[s], t) + (if Holds(done[c], t) && t != Total && s in Parents(units, c) then 1 else 0)
                == Counts(done, s, |done|, t)
    {
      CountsFrame(units, done, s, |units|, t, c);
    }
  }

  /** Completing a suite changes no count. */
  lemma CompleteKeeps(units: seq<Unit>, lists: seq<seq<Arg>>, i: nat)
    requires WellFormed(units, lists) && i < |units| && units[i].Suite?
    ensures WellFormed(units[i := Complete(units[i])], lists)
  {
    var after := units[i := Complete(units[i])];
    assert SameParents(units, after, |units|);
    forall s, t | 0 <= s < |units| ensures Counts(after, s, |after|, t) == Counts(units, s, |units|, t) {
      CountsFrame(units, after, s, |units|, t, -1);
    }
  }

  /** After the walk up from a case, the raised counters agree again. */
  lemma BumpedKeepsAgree(units: seq<Unit>, chain: seq<nat>, t: Tally, t': Tally, pending: seq<nat>)
    requires Agree(units, t', pending) && (t == t' ==> pending == chain)
    ensures Agree(Bumped(units, chain, t), t', if t == t' then [] else pending)
  {
    var after := Bumped(units, chain, t);
    forall s | 0 <= s < |after| && after[s].Suite?
      ensures Counter(after[s], t') + (if t != t' && s in pending then 1 else 0) == Counts(after, s, |after|, t')
    {
      BumpedCounts(units, chain, t, t', s);
    }
  }

  lemma BumpedAgrees(units: seq<Unit>, lists: seq<seq<Arg>>, c: nat, t: Tally)
    requires Structure(units, lists) && c < |units|
    requires Agree(units, Total, if t == Total then Parents(units, c) else [])
    requires Agree(units, Passed, if t == Passed then Parents(units, c) else [])
    requires Agree(units, Failed, if t == Failed then Parents(units, c) else [])
    ensures WellFormed(Bumped(units, Parents(units, c), t), lists)
  {
    var chain := Parents(units, c);
    var after := Bumped(units, chain, t);
    BumpedKeepsAgree(units, chain, t, Total, if t == Total then chain else []);
    BumpedKeepsAgree(units, chain, t, Passed, if t == Passed then chain else []);
    BumpedKeepsAgree(units, chain, t, Failed, if t == Failed then chain else []);
    BumpedKeepsStructure(units, lists, chain, t);
  }

  /** Raising counters changes no parent, child or modifier array. */
  lemma BumpedKeepsStructure(units: seq<Unit>, lists: seq<seq<Arg>>, chain: seq<nat>, t: Tally)
    requires Structure(units, lists)
    ensures Structure(Bumped(units, chain, t), lists)
  {
    var after := Bumped(units, chain, t);
    forall i | 0 <= i < |units|
      ensures after[i].parent == units[i].parent && after[i].Suite? == units[i].Suite?
      ensures after[i].Suite? ==> after[i].modifierList == units[i].modifierList && after[i].hasUnit == units[i].hasUnit
                                  && after[i].units == units[i].units
      ensures after[i].Case? ==> after[i] == units[i]
    {
    }
  }

  /** A suite with room for one more passed or failed case. */
  predicate HasRoom(u: Unit)
    requires u.Suite?
  {
    u.passed + u.failed < u.total
  }

  /** Every unit on `chain` is a suite with room. */
  ghost predicate RoomAlong(units: seq<Unit>, chain: seq<nat>) {
    forall a :: a in chain ==> a < |units| && units[a].Suite? && HasRoom(units[a])
  }

  /** Raising a counter of a suite keeps the shape of the tree. */
  lemma RaiseKeepsStructure(units: seq<Unit>, lists: seq<seq<Arg>>, s: nat, t: Tally)
    requires Structure(units, lists) && s < |units| && units[s].Suite?
    ensures Structure(units[s := Incr(units[s], t)], lists)
  {
    var raised := units[s := Incr(units[s], t)];
    assert forall i :: 0 <= i < |units| ==> raised[i].parent == units[i].parent && raised[i].Suite? == units[i].Suite?;
  }

  /** Raising suite `s` and then everything above it is raising `s` together
      with its ancestors. */
  lemma RaiseThenBump(units: seq<Unit>, s: nat, t: Tally)
    requires s < |units| && units[s].parent.Some? && units[s].parent.value < s
    ensures var raised := units[s := Incr(units[s], t)];
      var p := units[s].parent.value;
      Bumped(raised, [p] + Parents(raised, p), t) == Bumped(units, [s] + Parents(units, s), t)
  {
    var raised := units[s := Incr(units[s], t)];
    var p := units[s].parent.value;
    assert SameParents(units, raised, |units|);
    ParentsPrefix(units, raised, |units|, p);
    var chain := [p] + Parents(units, p);
    assert Parents(units, s) == chain;
    assert s !in chain by {
      if s in Parents(units, p) { ParentsBelow(units, p, s); }
    }
    BumpedShift(units, s, chain, t);
  }

  /** Raising `s` first and then the rest of a chain that does not hold it. */
  lemma BumpedShift(units: seq<Unit>, s: nat, chain: seq<nat>, t: Tally)
    requires s < |units| && s !in chain
    ensures Bumped(units[s := Incr(units[s], t)], chain, t) == Bumped(units, [s] + chain, t)
  {
    var b1 := Bumped(units[s := Incr(units[s], t)], chain, t);
    var b2 := Bumped(units, [s] + chain, t);
    forall j | 0 <= j < |units| ensures b1[j] == b2[j] {
    }
  }

  /** At the root, raising the root is all there is to raise. */
  lemma RaiseAtTop(units: seq<Unit>, s: nat, t: Tally)
    requires s < |units| && !(units[s].parent.Some? && units[s].parent.value < s)
    ensures units[s := Incr(units[s], t)] == Bumped(units, [s] + Parents(units, s), t)
  {
    assert Parents(units, s) == [];
    var b2 := Bumped(units, [s], t);
    forall j | 0 <= j < |units| ensures units[s := Incr(units[s], t)][j] == b2[j] {
    }
  }

  /** Room along the chain from `s` is room at `s` and room from its parent
      up, and raising `s` changes nothing above it. */
  lemma RoomAfterRaise(units: seq<Unit>, s: nat, t: Tally)
    requires s < |units| && units[s].Suite?
    ensures var raised := units[s := Incr(units[s], t)];
      && (units[s].parent.Some? && units[s].parent.value < s ==>
            var p := units[s].parent.value;
            (RoomAlong(units, [s] + Parents(units, s)) <==> HasRoom(units[s]) && RoomAlong(raised, [p] + Parents(raised, p))))
      && (!(units[s].parent.Some? && units[s].parent.value < s) ==>
            (RoomAlong(units, [s] + Parents(units, s)) <==> HasRoom(units[s])))
  {
    var raised := units[s := Incr(units[s], t)];
    if units[s].parent.Some? && units[s].parent.value < s {
      var p := units[s].parent.value;
      assert SameParents(units, raised, |units|);
      ParentsPrefix(units, raised, |units|, p);
      forall a | a in [p] + Parents(units, p) ensures a < s {
        if a != p { ParentsBelow(units, p, a); }
      }
      assert Parents(units, s) == [p] + Parents(units, p);
    }
  }

  /** When a case of a well-formed tree is marked completed, every suite above
      it still has room for it. */
  lemma EndRoom(units: seq<Unit>, lists: seq<seq<Arg>>, c: nat, error: Value)
    requires WellFormed(units, lists) && c < |units| && units[c].Case? && !units[c].isCompleted
    ensures var completed := units[c := Complete(units[c])];
      var p := units[c].parent.value;
      && c > 0 && p < c && Structure(completed, lists) && completed[p].Suite?
      && Parents(units, c) == [p] + Parents(completed, p)
      && RoomAlong(completed, [p] + Parents(completed, p))
  {
    var completed := units[c := Complete(units[c])];
    EndCaseCounts(units, lists, c, error);
    var p := units[c].parent.value;
    assert SameParents(units, completed, |units|);
    ParentsPrefix(units, completed, |units|, p);
    ReplaceCaseKeepsStructure(units, lists, c, Complete(units[c]));
    ParentsAreSuites(units, lists, c);
    RoomAboveCase(units, lists, c);
  }

  /** Every suite above an uncompleted case has room for its outcome. */
  lemma RoomAboveCase(units: seq<Unit>, lists: seq<seq<Arg>>, c: nat)
    requires WellFormed(units, lists) && c < |units| && units[c].Case? && !units[c].isCompleted
    ensures RoomAlong(units[c := Complete(units[c])], Parents(units, c))
  {
    RoomForPass(units, lists, c);
    RoomAlongFrame(units[c := units[c].(isCompleted := true, error := Null)], units[c := Complete(units[c])],
                   Parents(units, c), c);
  }

  /** Once an uncompleted case has passed, every suite above it is still one
      short in `passed`, so it has room. */
  lemma RoomForPass(units: seq<Unit>, lists: seq<seq<Arg>>, c: nat)
    requires WellFormed(units, lists) && c < |units| && units[c].Case? && !units[c].isCompleted
    ensures c !in Parents(units, c)
    ensures RoomAlong(units[c := units[c].(isCompleted := true, error := Null)], Parents(units, c))
  {
    var done := units[c := units[c].(isCompleted := true, error := Null)];
    EndCaseCounts(units, lists, c, Null);
    ParentsAreSuites(units, lists, c);
    RoomAlongPending(done, Passed, Parents(done, c));
  }

  /** Room along a chain does not depend on a unit off the chain. */
  lemma RoomAlongFrame(u1: seq<Unit>, u2: seq<Unit>, chain: seq<nat>, c: nat)
    requires RoomAlong(u1, chain) && |u1| == |u2| && c !in chain
    requires forall j :: 0 <= j < |u1| && j != c ==> u1[j] == u2[j]
    ensures RoomAlong(u2, chain)
  {
    forall a | a in chain ensures a < |u2| && u2[a].Suite? && HasRoom(u2[a]) {
      assert u1[a] == u2[a];
    }
  }

  /** Every suite still waiting for an outcome in counter `t` has room for it. */
  lemma RoomAlongPending(units: seq<Unit>, t: Tally, pending: seq<nat>)
    requires t != Total && forall a :: a in pending ==> a < |units| && units[a].Suite?
    requires Agree(units, Total, []) && Agree(units, t, pending) && Agree(units, if t == Passed then Failed else Passed, [])
    ensures RoomAlong(units, pending)
  {
    forall a | a in pending ensures a < |units| && units[a].Suite? && HasRoom(units[a]) {
      RoomAt(units, a, t, pending);
    }
  }

  /** Replacing a case by another case under the same parent keeps the shape
      of the tree, provided an uncompleted case still has no error. */
  lemma ReplaceCaseKeepsStructure(units: seq<Unit>, lists: seq<seq<Arg>>, c: nat, v: Unit)
    requires Structure(units, lists) && c < |units| && units[c].Case?
    requires v.Case? && v.parent == units[c].parent && (!v.isCompleted ==> v.error == Null)
    ensures Structure(units[c := v], lists)
  {
    var after := units[c := v];
    assert forall i :: 0 <= i < |units| ==> after[i].parent == units[i].parent && after[i].Suite? == units[i].Suite?;
  }

  /** A suite still one short in counter `t` has room for another outcome. */
  lemma RoomAt(units: seq<Unit>, a: nat, t: Tally, pending: seq<nat>)
    requires t != Total && a < |units| && units[a].Suite? && a in pending
    requires Agree(units, Total, []) && Agree(units, t, pending) && Agree(units, if t == Passed then Failed else Passed, [])
    ensures HasRoom(units[a])
  {
    CountsBounded(units, a, |units|);
  }

  /** `Ended` keeps a well-formed tree well formed. */
  lemma EndedWellFormed(units: seq<Unit>, lists: seq<seq<Arg>>, c: nat, error: Value)
    requires WellFormed(units, lists) && c < |units| && units[c].Case? && !units[c].isCompleted
    ensures WellFormed(Ended(units, c, error), lists)
  {
    var t := if Truthy(error) then Failed else Passed;
    var done := units[c := units[c].(isCompleted := true, error := if Truthy(error) then error else Null)];
    EndCaseCounts(units, lists, c, error);
    if t == Passed {
      BumpedAgrees(done, lists, c, Passed);
    } else {
      BumpedAgrees(done, lists, c, Failed);
    }
  }

  /** Completing a case, raising the suites above it and then keeping a truthy
      error is `Ended`. */
  lemma EndedPointwise(units: seq<Unit>, c: nat, error: Value, bumped: seq<Unit>, after: seq<Unit>)
    requires c < |units| && units[c].Case? && units[c].error == Null
    requires bumped == Bumped(units[c := Complete(units[c])], Parents(units, c), if Truthy(error) then Failed else Passed)
    requires after == if Truthy(error) then bumped[c := bumped[c].(error := error)] else bumped
    ensures after == Ended(units, c, error)
  {
    var t := if Truthy(error) then Failed else Passed;
    var done := units[c := units[c].(isCompleted := true, error := if Truthy(error) then error else Null)];
    if c in Parents(units, c) { ParentsBelow(units, c, c); }
    assert Parents(done, c) == Parents(units, c) by {
      assert SameParents(units, done, |units|);
      ParentsPrefix(units, done, |units|, c);
    }
    var ended := Ended(units, c, error);
    assert ended == Bumped(done, Parents(units, c), t);
    assert |after| == |ended|;
    forall j | 0 <= j < |after| ensures after[j] == ended[j] {
      if j == c {
        assert bumped[c] == Complete(units[c]) && ended[c] == done[c];
      } else {
        assert done[j] == units[j] && after[j] == bumped[j];
      }
    }
  }

  /** The arena, with `units` and `lists` as mutable fields: `lists` holds
      every modifier array, so that an array shared between a suite and the
      builder is one entry. */
  class Tree {
    var units: seq<Unit>
    var lists: seq<seq<Arg>>

    ghost predicate Valid()
      reads this
    {
      WellFormed(units, lists)
    }

    /** `new Suite()`: a tree holding only the root, with its empty modifier array. */
    constructor ()
      ensures Valid() && units == [NewRoot()] && lists == [[]]
    {
      units := [NewRoot()];
      lists := [[]];
    }

    /** An array literal: a new modifier array holding `items`. */
    method NewList(items: seq<Arg>) returns (id: nat)
      requires Valid()
      modifies this
      ensures Valid() && units == old(units)
      ensures id == old(|lists|) && lists == old(lists) + [items]
    {
      id := |lists|;
      lists := lists + [items];
    }

    /** `addWrapper`: a suite that already has a child refuses further
      modifiers; otherwise the modifier goes last in its (possibly shared) array. */
    method AddWrapper(s: nat, wrapper: Arg) returns (r: Result<()>)
      requires Valid() && s < |units| && units[s].Suite?
      modifies this
      ensures Valid() && units == old(units)
      ensures old(units[s].hasUnit) ==> r == Thrown(Error("Cases or sections already defined")) && lists == old(lists)
      ensures !old(units[s].hasUnit) ==>
                r == Ok(()) && var m := units[s].modifierList; lists == old(lists)[m := old(lists[m]) + [wrapper]]
    {
      if units[s].hasUnit {
        return Thrown(Error("Cases or sections already defined"));
      }
      var m := units[s].modifierList;
      lists := lists[m := lists[m] + [wrapper]];
      r := Ok(());
    }

    /** `push(unit)`: the unit is appended and becomes the parent's last child;
      a case raises `total` by one on the parent and on every suite above it,
      while a suite changes no counter. */
    method Push(parent: nat, u: Unit) returns (id: nat)
      requires Valid() && parent < |units| && units[parent].Suite? && IsNewUnit(u, parent, |lists|)
      modifies this
      ensures Valid() && lists == old(lists)
      ensures id == old(|units|)
      ensures u.Suite? ==> units == Appended(old(units), parent, u)
      ensures u.Case? ==> units == Bumped(Appended(old(units), parent, u), [parent] + Parents(old(units), parent), Total)
    {
      PushKeepsStructure(units, lists, parent, u);
      PushCounts(units, lists, parent, u);
      id := |units|;
      units := Appended(units, parent, u);
      if u.Case? {
        ghost var appended := units;
        ParentsPrefix(old(units), appended, id, parent);
        IncreaseTotal(parent);
        BumpedAgrees(appended, lists, id, Total);
      }
    }

    /** `increaseTotal` on suite `s`: `total` raised by one there and, through
      the recursive call on the parent, on every suite above it. */
    method IncreaseTotal(s: nat)
      requires Structure(units, lists) && s < |units| && units[s].Suite?
      modifies this
      ensures lists == old(lists)
      ensures units == Bumped(old(units), [s] + Parents(old(units), s), Total)
      decreases s
    {
      ghost var before := units;
      var p := units[s].parent;
      RaiseKeepsStructure(units, lists, s, Total);
      units := units[s := Incr(units[s], Total)];
      if p.Some? {
        IncreaseTotal(p.value);
        RaiseThenBump(before, s, Total);
      } else {
        RaiseAtTop(before, s, Total);
      }
    }

    /** `increasePassed` (`t` is `Passed`) or `increaseFailed` (`t` is
      `Failed`) on suite `s`: 'Invalid tests count' is thrown at the first
      suite, walking up, that has no room for another passed or failed case;
      when every suite from `s` to the root has room, each gets counter `t`
      raised by one. */
    method IncreaseOutcome(s: nat, t: Tally) returns (r: Result<()>)
      requires t != Total
      requires Structure(units, lists) && s < |units| && units[s].Suite?
      modifies this
      ensures lists == old(lists)
      ensures RoomAlong(old(units), [s] + Parents(old(units), s)) ==>
                r == Ok(()) && units == Bumped(old(units), [s] + Parents(old(units), s), t)
      ensures !RoomAlong(old(units), [s] + Parents(old(units), s)) ==> r == Thrown(Error("Invalid tests count"))
      decreases s
    {
      if units[s].passed + units[s].failed >= units[s].total {
        return Thrown(Error("Invalid tests count"));
      }
      ghost var before := units;
      var p := units[s].parent;
      RaiseKeepsStructure(units, lists, s, t);
      units := units[s := Incr(units[s], t)];
      RoomAfterRaise(before, s, t);
      if p.Some? {
        r := IncreaseOutcome(p.value, t);
        RaiseThenBump(before, s, t);
      } else {
        RaiseAtTop(before, s, t);
        r := Ok(());
      }
    }

    /** `Unit.end()` on a suite: completion is set once; a second call throws. */
    method End(i: nat) returns (r: Result<()>)
      requires Valid() && i < |units| && units[i].Suite?
      modifies this
      ensures Valid() && lists == old(lists)
      ensures old(units[i].isCompleted) ==> r == Thrown(Error("Already completed")) && units == old(units)
      ensures !old(units[i].isCompleted) ==> r == Ok(()) && units == old(units)[i := Complete(old(units[i]))]
    {
      if units[i].isCompleted {
        return Thrown(Error("Already completed"));
      }
      CompleteKeeps(units, lists, i);
      units := units[i := Complete(units[i])];
      r := Ok(());
    }

    /** `Case.end(error)`: completion is set once; a falsy error counts a pass on
      every suite above, a truthy one counts a failure and is kept. */
    method EndCase(c: nat, error: Value) returns (r: Result<()>)
      requires Valid() && c < |units| && units[c].Case?
      modifies this
      ensures Valid() && lists == old(lists)
      ensures old(units[c].isCompleted) ==> r == Thrown(Error("Already completed")) && units == old(units)
      ensures !old(units[c].isCompleted) ==> r == Ok(()) && units == Ended(old(units), c, error)
    {
      if units[c].isCompleted {
        return Thrown(Error("Already completed"));
      }
      ghost var before := units;
      EndedWellFormed(units, lists, c, error);
      var t := if Truthy(error) then Failed else Passed;
      var p := units[c].parent.value;
      EndRoom(before, lists, c, error);
      units := units[c := Complete(units[c])];
      r := IncreaseOutcome(p, t);
      ghost var bumped := units;
      if Truthy(error) {
        units := units[c := units[c].(error := error)];
      }
      EndedPointwise(before, c, error, bumped, units);
    }

    /** `root`: follow parents until there is none; in a tree that is index 0. */
    method RootOf(i: nat) returns (r: nat)
      requires Valid() && i < |units|
      ensures r == 0
      ensures r == i || r in Parents(units, i)
    {
      r := i;
      while units[r].parent.Some?
        invariant r < |units| && (r == i || r in Parents(units, i))
        decreases r
      {
        if r != i {
          ParentsTransitive(units, i, r);
        }
        r := units[r].parent.value;
      }
    }

    /** `depth`: the number of steps up to the root. */
    method DepthOf(i: nat) returns (d: nat)
      requires Valid() && i < |units|
      ensures d == |Parents(units, i)|
      ensures d == 0 <==> i == 0
    {
      ParentsAreSuites(units, lists, i);
      var p: nat := i;
      d := 0;
      while units[p].parent.Some?
        invariant p < |units| && d + |Parents(units, p)| == |Parents(units, i)|
        decreases p
      {
        assert Parents(units, p) == [units[p].parent.value] + Parents(units, units[p].parent.value);
        p := units[p].parent.value;
        d := d + 1;
      }
    }

    /** `parents`: the ancestors, nearest first, collected by walking up. */
    method ParentsOf(i: nat) returns (ps: seq<nat>)
      requires Valid() && i < |units|
      ensures ps == Parents(units, i)
      ensures forall a :: a in ps ==> a < i && units[a].Suite?
    {
      ParentsAreSuites(units, lists, i);
      var p: nat := i;
      ps := [];
      while units[p].parent.Some?
        invariant p < |units| && ps + Parents(units, p) == Parents(units, i)
        decreases p
      {
        assert Parents(units, p) == [units[p].parent.value] + Parents(units, units[p].parent.value);
        p := units[p].parent.value;
        ps := ps + [p];
      }
    }
  }
}
