# testup engine in Dafny

This project models the core of the testup test runner:

- **The unit tree.** Suites and cases, with their `total`/`passed`/`failed` counters, completion that can be set only once, and the shared modifier arrays.
- **The builder handles.** These are the calls a test script makes: `describe`, `use`, `it` and `each`.
- **Modifier-chain composition.** This is `createNested`.
- **The runner.** This is `runScript`/`runSuite`/`runCase`, with its routing of faults to the reporter.
- **The TAP reporter.** It prints the plan line, the per-case test lines and the summary. Its text helpers `getLine`, `wordWrap`, `escape` and `safeValue` are modelled too.
- **The `splitArgs` helper** of the `testup` command.

## How it is modelled

**The tree.** It is an arena, the class `UnitTree.Tree`:

- `units` is a `seq<Unit>` in which every unit names its parent by index.
- `lists` holds the modifier arrays. A suite refers to its array by index, because `describe` hands a new suite the very array object that the innermost `each` pushed.
- The tree invariant `WellFormed` says that each suite's three counters equal the numbers of cases, passed cases and failed cases below it. That invariant is what makes `'Invalid tests count'` unreachable.

**User code.** Modifiers, handlers and script bodies are behaviour descriptors (`Behaviours.Fn`) rather than code:

- Called with a context, a function returns without calling `next`, throws, or calls `next` once with a new context.
- Called with the handles, a function performs a list of builder calls.

Three kinds of modifier cannot be written this way: one that catches the error `next` throws, one that throws after `next` returns (a failing teardown), and one that calls `next` twice. In the code, a suite modifier that swallows a child's `UnitError` lets `runSuite` end the suite normally. `runSuite` then pops the broken case from the stack instead of the suite (testup.js:60-93). The stack discipline in `Executor.SuiteRunCoherent` and the clean-run clause of `Executor.RunReported` hold only for the behaviours the descriptors can express.

**What a script builds, as a value.** `Builder.Draft` is the arena with the builder's two stacks. `DescribeSpec`, `UseSpec`, `ItSpec`, `EachSpec`, `ExecSpec`, `CallsSpec` and `ScriptSpec` say what each builder call, a script body and a whole script return or throw, and which draft they leave. Every method of `Builder.Handles` is proved to leave exactly the draft its specification function names. The lemmas beside them (`CallsBuild`, `DescribeOpens`, `EachKeepsItems`, ...) state what building keeps.

**What a run does, as a value.** `Executor.Run` is a unit's run: its outcome, the arena after it, its reporter calls and the units it left on the stack. `CaseRun`, `SuiteRun`, `GuardedRun`, `ChildrenRun` and `ChildRun` follow `runCase` and `runSuite` step by step. Every method of `Executor.Execution` is proved to do exactly what its function says. `ScriptSession` is a whole `runScript` call.

**The reporter, as seen by the runner.** It is the sequence of calls it receives (`Executor.Event`).

**The TAP output.** It is the sequence of strings handed to `output`.

**Await.** Every `await` is an ordinary sequential call.

### Where the code and its own tests disagree

The model follows the code in every case below. The tests are the ones in packages/@testup/core/test.spec.js. They use an older handler signature, `(test) => { ...; test.end() }`, which this code no longer supports.

- **The root context.** `runScript` passes its `context` option to `runSuite` (packages/@testup/core/testup.js:24), but `runSuite` reads `ctx` (testup.js:53). The root chain therefore starts from `undefined`, and `Executor.Execute` runs the root with `Undefined`. The test at test.spec.js:334-358 passes `{n: 42}` as the context and relies on its own modifier instead.
- **A handler that calls `test.end()`.** The code calls a handler with the context alone (testup.js:104). At the root that context is `undefined`, so `test.end()` throws a TypeError and the case fails. The tests at test.spec.js:129-139 and 200-215 expect it to pass.
- **A handler that returns without `test.end()`.** The code ends the case itself, so the case passes. The test at test.spec.js:141-148 expects it to fail. `Executor.SingleReturningCasePasses` proves the code's outcome.
- **`use()` after `each()`.** The test at test.spec.js:320-332 expects the script error 'use() after each()'. The code has no such check: `each` registers no unit, so `use` is accepted (testup.js:188-194, 222-228). `Builder.UseAfterEachAccepted` proves this.
- **`each(...handlers)`.** It pops its last argument as the body and pushes the remaining arguments as one array (testup.js:222-228):
  - The arguments are not checked.
  - A missing or non-function body throws a TypeError after the array has been pushed.
  - An array literal passed among the modifiers stays a single element of the batch array, as at test.spec.js:286-318. Calling it as a modifier throws a TypeError, so in the code that test's first case breaks the run with a unit error.
- **The `it` error message.** The model throws the message the code builds, "Argument #02 is not a function" for the first modifier. See Findings.

## Model

| member | source | states |
|---|---|---|
| `Args.IndexOf` | packages/testup/bin.js:45 | The result is -1 exactly when the splitter is absent; otherwise it is the first position holding it. |
| `Args.SplitArgs` | packages/testup/bin.js:44-52 | No splitter gives `(argv, [])`. Otherwise the parts rejoined around the splitter give `argv`, the first part never holds the splitter, and the split is at the first occurrence. |
| `Chain.CheckContext` | packages/@testup/core/testup.js:144-153 | `undefined` keeps the incoming context and a plain object is taken. `null` throws a TypeError and any other value throws 'Context should be instance of Object'. |
| `Chain.NestEmpty` | packages/@testup/core/testup.js:137-139 | An empty chain hands the context to `next` unchanged. |
| `Chain.NestAppend` | packages/@testup/core/testup.js:141-162 | Composing `a + b` is running `a` and then `b` from the context `a` produced: the first-registered modifier is outermost. |
| `Chain.NestSingle` | packages/@testup/core/testup.js:141-161 | For one modifier: a non-function gives a TypeError, an early return skips `next`, and a throw fails the chain. Calling `next` proceeds with the checked context. |
| `Chain.NestProceedsWithRecord` | packages/@testup/core/testup.js:145-159 | The context that reaches `next` is the incoming one or a plain object. |
| `Chain.NestAllReuse` | packages/@testup/core/testup.js:145-147 | Modifiers that all pass `undefined` on reach `next` with the incoming context. |
| `UnitTree.ParentsAreSuites` | packages/@testup/core/testup.js:280-288 | Every ancestor is an earlier suite, a unit has ancestors exactly when it is not the root, and the farthest ancestor is the root. |
| `UnitTree.ParentsOrdered` | packages/@testup/core/testup.js:280-288 | Of two ancestors of a unit, the earlier one is an ancestor of the later one. |
| `UnitTree.CounterInvariant` | packages/@testup/core/testup.js:396-400 | In a well-formed tree `passed + failed <= total` at every suite. |
| `UnitTree.CountsAllPassed` | packages/@testup/core/testup.js:334-336 | The passed count below a suite equals the case count exactly when every case below it has passed. |
| `UnitTree.PathLength` | packages/@testup/core/testup.js:258-260 | A suite's path has one name per ancestor, so the root's own label is never included. A case's path is one shorter, and a parent's path is a prefix of its child's. |
| `UnitTree.PathNames` | packages/@testup/core/testup.js:258-260 | The path lists the labels of the unit's ancestors below the root, the one nearest the root first, then a suite's own label. |
| `UnitTree.SuiteOkMeansAllPassed` | packages/@testup/core/testup.js:334-336 | A suite is ok exactly when it is completed and every case below it is completed without an error. |
| `UnitTree.NewRoot` | packages/@testup/core/testup.js:301-319 | A new suite has no parent, no children and zero counters, and is not completed. |
| `UnitTree.Appended` | packages/@testup/core/testup.js:358-365 | `push`: the unit is added last, recorded as the parent's last child, and the parent is marked as having a unit; no other unit changes. |
| `UnitTree.Complete` | packages/@testup/core/testup.js:292-298 | `end()` marks the unit completed and keeps its place and kind. |
| `UnitTree.PushCounts` | packages/@testup/core/testup.js:358-369 | After a push, the new unit's ancestors are its parent and the parent's ancestors. Only `total` above a new case is one short; no other count changes. |
| `UnitTree.EndRoom` | packages/@testup/core/testup.js:378-400 | Once a case of a well-formed tree is marked completed, every suite above it has room for its outcome. So `'Invalid tests count'` is never thrown. |
| `UnitTree.EndedWellFormed` | packages/@testup/core/testup.js:424-434 | Ending a case keeps every counter equal to what it counts. |
| `UnitTree.Tree.constructor` | packages/@testup/core/testup.js:301-319 | `new Suite()`: a tree holding only the root, with one empty modifier array. |
| `UnitTree.Tree.NewList` | packages/@testup/core/testup.js:225 | A new modifier array is added last; the units do not change. |
| `UnitTree.Tree.AddWrapper` | packages/@testup/core/testup.js:350-356 | A suite with a child throws 'Cases or sections already defined' and changes nothing. Otherwise the wrapper goes last in the suite's (possibly shared) array. |
| `UnitTree.Tree.Push` | packages/@testup/core/testup.js:358-369 | The unit is appended as the parent's last child. A case raises `total` by one on its parent and every suite above it; a suite raises no counter. The tree stays well formed. |
| `UnitTree.Tree.IncreaseTotal` | packages/@testup/core/testup.js:371-376 | `total` is raised by one on the suite and on every suite above it, and nothing else changes. |
| `UnitTree.Tree.IncreaseOutcome` | packages/@testup/core/testup.js:378-400 | If every suite from here to the root has room, each gets `passed` (or `failed`) raised by one. Otherwise the call throws 'Invalid tests count'. |
| `UnitTree.Tree.End` | packages/@testup/core/testup.js:292-298 | The first `end()` completes the suite; a second throws 'Already completed' and changes nothing. |
| `UnitTree.Tree.EndCase` | packages/@testup/core/testup.js:424-434 | A second end throws 'Already completed'. Otherwise the case is completed, and every suite above it counts one more pass (falsy error) or failure (truthy error, which is kept). The tree stays well formed, so the counters never throw. |
| `UnitTree.Tree.RootOf` | packages/@testup/core/testup.js:262-268 | Walking up ends at the root, index 0, which is an ancestor of the unit or the unit itself. |
| `UnitTree.Tree.DepthOf` | packages/@testup/core/testup.js:270-278 | The depth is the number of ancestors; it is 0 only for the root. |
| `UnitTree.Tree.ParentsOf` | packages/@testup/core/testup.js:280-288 | The loop collects exactly the ancestors, nearest first, and all of them are suites. |
| `Builder.FirstNonFunction` | packages/@testup/core/testup.js:201-205 | The position of the first argument that is not a function, with every earlier one a function; none when all are functions. |
| `Builder.CheckArgs` | packages/@testup/core/testup.js:201-205 | The loop over the arguments of `it` finds the first one that is not a function. |
| `Builder.ArgumentMessageAsWrittenIsWrong` | packages/@testup/core/testup.js:203 | The message as built never equals the one that names the position. For the first modifier it reads "Argument #02 is not a function". |
| `Builder.ArgumentMessageNamesPosition` | packages/@testup/core/testup.js:203 | The corrected message's number reads back as the argument's position `i + 2`. |
| `Builder.NewCase` | packages/@testup/core/testup.js:207-219 | The case `it` builds is a new, uncompleted case under the current suite with no error yet. Its modifiers are the innermost batch array (`getLast`) followed by its own. |
| `Builder.NewSuite` | packages/@testup/core/testup.js:177-181 | The suite `describe` builds has the given parent, name and modifier array, and no children or counts. |
| `Builder.CaseIndexIsTotal` | packages/@testup/core/testup.js:412 | A new case's index equals its parent's `total` once the case is pushed. |
| `Builder.Initial` | packages/@testup/core/testup.js:8-10 | `new Handles({suite: new Suite()})`: the bare root, with its own empty array, on the stack and no batch array; this draft is ready to build on. |
| `Builder.DescribeSpec` | packages/@testup/core/testup.js:170-186 | `describe` leaves a draft the handles can act on. When it returns, both stacks are as they were; a throw from the body leaves the new suite on the stack. |
| `Builder.UseSpec` | packages/@testup/core/testup.js:188-194 | `use` changes only the modifier arrays, and never their number: the units and both stacks stay. |
| `Builder.ItSpec` | packages/@testup/core/testup.js:196-220 | `it` changes only the units: the modifier arrays and both stacks stay. |
| `Builder.CaseAdded` | packages/@testup/core/testup.js:207-219 | The arena after `it` accepts its arguments still holds suites at every stack entry. |
| `Builder.EachSpec` | packages/@testup/core/testup.js:222-228 | `each` leaves a draft the handles can act on. When it returns, both stacks are as they were; a throw leaves its array pushed. |
| `Builder.ExecSpec` | packages/@testup/core/testup.js:170-228 | One statement dispatches to the builder call it names, or throws its error without changing anything. When it returns, both stacks are as they were. |
| `Builder.CallsSpec` | packages/@testup/core/testup.js:184 | A body run in order leaves both stacks as they were when it returns. |
| `Builder.ScriptSpec` | packages/@testup/core/testup.js:8-16 | `script(handles)` on a fresh tree leaves a draft the handles can act on. A non-function throws a TypeError before building anything. |
| `Builder.ExecBuilds` | packages/@testup/core/testup.js:170-228 | Every statement, whether it returns or throws, keeps the tree well formed. It only adds units, only extends arrays and keeps what both stacks held. |
| `Builder.CallsBuild` | packages/@testup/core/testup.js:184 | The same holds for a whole body. |
| `Builder.DescribeBuilds` | packages/@testup/core/testup.js:170-186 | The same holds for `describe`, body included. |
| `Builder.UseBuilds` | packages/@testup/core/testup.js:188-194 | The same holds for `use`. |
| `Builder.ItBuilds` | packages/@testup/core/testup.js:196-220 | The same holds for `it`. |
| `Builder.EachBuilds` | packages/@testup/core/testup.js:222-228 | The same holds for `each`, body included. |
| `Builder.ScriptBuilds` | packages/@testup/core/testup.js:8-16 | Whatever a script does, and even when it throws, the tree it leaves is well formed and grew from the bare root. |
| `Builder.CallsAppend` | packages/@testup/core/testup.js:184 | A body split in two runs as its first part and then, unless that threw, its second part from where the first stopped. |
| `Builder.DescribeOpens` | packages/@testup/core/testup.js:170-186 | A refused handler changes nothing. Otherwise the new suite stays, whatever its body does: it is the current suite's newest child, with the given label and the innermost batch array or a fresh one. |
| `Builder.EachKeepsItems` | packages/@testup/core/testup.js:222-228 | The array `each` pushes stays in place and still starts with the leading arguments, whatever the body does. A body that throws leaves it on the batch stack. |
| `Builder.SingleCaseBuilt` | packages/@testup/core/testup.js:196-220 | A script whose body is one `it(label, handler)` returns and builds the root with that one case, index 1, counted in the root's `total`. |
| `Builder.ThrowingScriptBuildsNothing` | packages/@testup/core/test.spec.js:392-403 | A script that throws `Error('test')` before any call throws that error and leaves the bare root, `total` 0. |
| `Builder.DescribeNullBuildsNothing` | packages/@testup/core/test.spec.js:405-418 | `describe(null)` as the first call throws 'Handler is not a function' and leaves the bare root, `total` 0. |
| `Builder.UseAfterEachAccepted` | packages/@testup/core/testup.js:188-194 | `each(() => {})` followed by `use(() => {})` returns normally. |
| `Builder.Handles.constructor` | packages/@testup/core/testup.js:166-168 | The cursor holds the root and no batch array is active. |
| `Builder.Handles.Describe` | packages/@testup/core/testup.js:170-186 | The handles end in exactly the draft `DescribeSpec` gives, and the call returns or throws what it says. |
| `Builder.Handles.OpenSuite` | packages/@testup/core/testup.js:177-183 | The draft becomes the one with the new suite pushed into the current suite and onto the stack. |
| `Builder.Handles.AddSuite` | packages/@testup/core/testup.js:177-182 | The arena is the old one with the new suite appended as the current suite's last child. With no active `each` a new empty array is added and the suite owns it. Otherwise the suite shares the innermost batch array and no array is added. |
| `Builder.Handles.Leave` | packages/@testup/core/testup.js:185 | The innermost suite leaves the stack and nothing else changes. |
| `Builder.Handles.LeaveBatch` | packages/@testup/core/testup.js:227 | The innermost batch array leaves the batch stack and nothing else changes. |
| `Builder.Handles.Use` | packages/@testup/core/testup.js:188-194 | A non-function throws 'Handler is not a function'. A current suite with a child throws 'Cases or sections already defined'. Otherwise the modifier goes last in that suite's array. The units never change. |
| `Builder.Handles.It` | packages/@testup/core/testup.js:196-220 | No arguments: 'No handler is defined'. A non-function argument: the message the code builds for it. Either way nothing is registered. Otherwise exactly the new case is pushed, with `total` raised above it and its index equal to the parent's new `total`. |
| `Builder.Handles.AddCase` | packages/@testup/core/testup.js:207-219 | The new case is appended under the current suite and counted by every suite above. |
| `Builder.Handles.Each` | packages/@testup/core/testup.js:222-228 | The handles end in exactly the draft `EachSpec` gives, and the call returns or throws what it says. |
| `Builder.Handles.Exec` | packages/@testup/core/testup.js:170-228 | One statement ends in exactly the draft and result `ExecSpec` gives. |
| `Builder.Handles.Run` | packages/@testup/core/testup.js:184 | `fn(this)` ends in exactly the draft and result `CallsSpec` gives for the body. |
| `Executor.CallHandler` | packages/@testup/core/testup.js:104 | The handler succeeds exactly when it is a function that returns. Its throw is passed on. Calling `next`, which the handler is not given, or calling a non-function throws a TypeError. |
| `Executor.EndedSameShape` | packages/@testup/core/testup.js:424-434 | Ending a case changes only completion, errors and outcome counters. |
| `Executor.EndedVerdict` | packages/@testup/core/testup.js:420-434 | An ended case is completed. It is ok exactly when the error it was ended with is falsy, and it keeps a truthy error. |
| `Executor.CaseRun` | packages/@testup/core/testup.js:96-118 | A case's run keeps the tree's shape. |
| `Executor.CaseRunChain` | packages/@testup/core/testup.js:96-118 | A failing chain is the case's `UnitError`, with the case left on the stack and nothing changed. An early return changes nothing but still reports the case as ended. Otherwise the case is ended with what its handler threw, and it passes exactly when that is falsy. A case already ended breaks with 'Already completed'. |
| `Executor.SuiteRun` | packages/@testup/core/testup.js:53-94 | A suite's run keeps the tree's shape. |
| `Executor.SuiteRunSteps` | packages/@testup/core/testup.js:53-94 | A suite's run is `startSuite`, then its guarded part. A broken guarded part leaves the suite on the stack. Otherwise `end()` completes the suite and `endSuite` is reported, or `end()` throws 'Already completed'. |
| `Executor.SuiteRunChain` | packages/@testup/core/testup.js:57-88 | A failing chain is the suite's `RuntimeError` with nothing changed. An early return skips the children and still ends the suite. |
| `Executor.GuardedRun` | packages/@testup/core/testup.js:59-88 | The guarded part keeps the tree's shape. |
| `Executor.ChildrenRun` | packages/@testup/core/testup.js:60-79 | The walk over the children keeps the tree's shape. |
| `Executor.ChildrenRunStep` | packages/@testup/core/testup.js:60-79 | The walk runs the first child, stops with its outcome when it broke, and otherwise goes on with the rest from the arena the first left. |
| `Executor.ChildRun` | packages/@testup/core/testup.js:62-77 | A child's run keeps the tree's shape. |
| `Executor.CaseRunCoherent` | packages/@testup/core/testup.js:96-118 | A finished case leaves nothing on the stack. A broken one leaves itself on top, and its fault is a `UnitError`. |
| `Executor.SuiteRunCoherent` | packages/@testup/core/testup.js:53-94 | A finished run leaves nothing on the stack. A broken run leaves units of the tree on it, with a case on top exactly when the fault is a `UnitError`. |
| `Executor.GuardedRunCoherent` | packages/@testup/core/testup.js:80-87 | No raw error escapes the guarded part. A fault with nothing left above the suite is the suite's own `RuntimeError`, never a `UnitError`. |
| `Executor.ChildrenRunCoherent` | packages/@testup/core/testup.js:60-79 | The walk over the children keeps the same stack discipline. |
| `Executor.ChildRunCoherent` | packages/@testup/core/testup.js:62-77 | One child's run keeps the same stack discipline. |
| `Executor.Execution.constructor` | packages/@testup/core/testup.js:18 | A run starts with an empty unit stack and no reporter calls. |
| `Executor.Execution.Report` | packages/@testup/core/testup.js:28-47 | A `UnitError` is reported against the top of the stack. A `RuntimeError`'s origin, or any other error, is reported when `reportErrors` is set and thrown otherwise. |
| `Executor.Execution.RunSuite` | packages/@testup/core/testup.js:53-94 | The outcome, arena, reporter calls and stack are exactly those `SuiteRun` gives. |
| `Executor.Execution.Guarded` | packages/@testup/core/testup.js:57-88 | The outcome, arena, reporter calls and stack are exactly those `GuardedRun` gives. |
| `Executor.Execution.RunChild` | packages/@testup/core/testup.js:62-77 | The outcome, arena, reporter calls and stack are exactly those `ChildRun` gives: `runCase` for a case, `runSuite` for a suite. |
| `Executor.Execution.Finish` | packages/@testup/core/testup.js:90-93 | From the state the guarded part left, the run ends as `SuiteRun` says: the suite completed, `endSuite` reported and the stack popped, or 'Already completed' thrown with nothing changed. |
| `Executor.Execution.RunChildren` | packages/@testup/core/testup.js:60-79 | The loop ends exactly as `ChildrenRun` says: the children in insertion order, stopping at the first that breaks. |
| `Executor.Execution.RunCase` | packages/@testup/core/testup.js:96-118 | The outcome, arena, reporter calls and stack are exactly those `CaseRun` gives. |
| `Executor.Execution.CaseChain` | packages/@testup/core/testup.js:100-114 | The arena and outcome are those of `CaseRun`: the chain's own error, a skip, or the handler and `end`. |
| `Executor.Execution.RunHandler` | packages/@testup/core/testup.js:102-110 | An uncompleted case is ended with the handler's error (or none). An already completed case makes `end` throw 'Already completed'. |
| `Executor.Build` | packages/@testup/core/testup.js:8-16 | A fresh, well-formed tree holding what `ScriptSpec` builds, and the same result. |
| `Executor.ExecutedReports` | packages/@testup/core/testup.js:18-48 | Every run of a built tree reports as `RunReported` says: the root is started first, nothing is thrown with `reportErrors`, a run that ends without an error report has ended the root and reported it last, and a broken-unit report names a case. |
| `Executor.Execute` | packages/@testup/core/testup.js:18-48 | The result, reporter calls and arena are exactly those of running the root with `Undefined` and routing its fault. |
| `Executor.ScriptSessionReports` | packages/@testup/core/testup.js:1-51 | The build throws exactly when the first report is a broken script. Then that report, carrying the build's error, is the only one, the call returns normally and the tree is what the build left. A non-function script's report is a TypeError and leaves the bare root. Otherwise the run reports as `RunReported` says: the root started first, no throw with `reportErrors`, and a clean run ending with the completed root reported last. |
| `Executor.RunScript` | packages/@testup/core/testup.js:1-51 | The result, reporter calls and arena are exactly those of `ScriptSession`: build, then run unless the build threw. |
| `Executor.SingleReturningCasePasses` | packages/@testup/core/test.spec.js:141-148 | One `it` whose handler returns: the trace is start root, start case, end case, end root. The case passes, and the root is completed with total 1, passed 1 and failed 0. |
| `TapText.BreakInIsFirst` | packages/@testup/tap-reporter/tap-reporter.js:134 | The search finds the first `\r` or `\n` in the range, or reports that there is none. |
| `TapText.LastSpaceRunIsLast` | packages/@testup/tap-reporter/tap-reporter.js:139 | The search finds the start of the last whitespace run, after which only non-space follows, or reports that there is no whitespace. |
| `TapText.GetLine` | packages/@testup/tap-reporter/tap-reporter.js:132-146 | The line is a prefix of the text, non-empty and no longer than `length` when both are positive. |
| `TapText.GetLineCutsAtBreak` | packages/@testup/tap-reporter/tap-reporter.js:134-137 | A line break in the window ends the line right after the first one; for CRLF that is after the `\r`. |
| `TapText.GetLineCutsAtSpace` | packages/@testup/tap-reporter/tap-reporter.js:138-142 | A full window without breaks is cut after the first character of its last whitespace run. |
| `TapText.GetLineWholeWindow` | packages/@testup/tap-reporter/tap-reporter.js:133-145 | Otherwise the whole window is the line. |
| `TapText.MapIndexed` | packages/@testup/tap-reporter/tap-reporter.js:160 | `map` passes each line with its index. |
| `TapText.WrapLinesConcat` | packages/@testup/tap-reporter/tap-reporter.js:148-161 | The wrapped lines put back together are the text. |
| `TapText.WrapLinesBounded` | packages/@testup/tap-reporter/tap-reporter.js:152-158 | Every line is non-empty and no longer than the length for its index. |
| `TapText.WordWrap` | packages/@testup/tap-reporter/tap-reporter.js:148-161 | The loop terminates and returns the mapped lines joined by newlines; empty text gives the empty string. |
| `TapText.IsMultiline` | packages/@testup/tap-reporter/tap-reporter.js:165-167 | True exactly when the value holds `\r` or `\n`. |
| `TapText.EscapeBodyCharwise` | packages/@testup/tap-reporter/tap-reporter.js:173-176 | The two `replace` passes escape each character on its own. |
| `TapText.EscapeRoundTrip` | packages/@testup/tap-reporter/tap-reporter.js:173-176 | Unescaping the quoted body recovers the value. |
| `TapText.EscapeInjective` | packages/@testup/tap-reporter/tap-reporter.js:173-176 | Distinct values are escaped differently. |
| `TapText.SafeValue` | packages/@testup/tap-reporter/tap-reporter.js:178-188 | A single-line word-and-space value is kept and any other single-line value, `''` included, is escaped. A multi-line value is wrapped at 80 characters, or gives a TypeError when an indent is passed. |
| `TapText.SafeValueSingleLine` | packages/@testup/tap-reporter/tap-reporter.js:178-188 | A single-line value renders on one line and reads back as itself. |
| `TapReporter.PlanLineReadsBack` | packages/@testup/tap-reporter/tap-reporter.js:89 | The plan is `1..N` for `N` cases and `0..0` for none, its count reads back as `N`, and it ends in a newline. |
| `TapReporter.TestLineStatus` | packages/@testup/tap-reporter/tap-reporter.js:28-51 | A test line starts with `not ok` exactly when the case holds an error. |
| `TapReporter.TestLineIndex` | packages/@testup/tap-reporter/tap-reporter.js:69 | After the status come the index's digits, which read back as the index, then ` - ` and the label or the type. |
| `TapReporter.LineLengthsPositive` | packages/@testup/tap-reporter/tap-reporter.js:56-58 | With a width of at least 3, every line length is positive, so `wordWrap` terminates. |
| `TapReporter.FailCountsUnfinished` | packages/@testup/tap-reporter/tap-reporter.js:97 | The summary's `fail` (`total - passed`) counts the failed cases plus every case that never completed. |
| `TapReporter.UnfinishedCaseReportedOk` | packages/@testup/tap-reporter/tap-reporter.js:49-51 | A case that never completed prints `ok`, yet every suite above it counts it under `fail`. |
| `TapReporter.MessageBlockReadsBack` | packages/@testup/tap-reporter/tap-reporter.js:42-47 | A message with a line break makes the block throw a TypeError. Any other message gives one `message:` line whose value reads back as the message. |
| `TapReporter.Reporter.constructor` | packages/@testup/tap-reporter/tap-reporter.js:8-15 | The reporter keeps the width and has printed nothing. |
| `TapReporter.Reporter.StartSuite` | packages/@testup/tap-reporter/tap-reporter.js:82-90 | The root prints 'TAP version 13' and the plan; any other suite prints nothing. |
| `TapReporter.Reporter.EndSuite` | packages/@testup/tap-reporter/tap-reporter.js:92-105 | The root prints a blank line and the test, pass and fail counts, with fail as `total - passed`; any other suite prints nothing. |
| `TapReporter.CaseLines` | packages/@testup/tap-reporter/tap-reporter.js:55-79 | For a case whose block does not throw: the path comment and the test line, each wrapped at the width with continuation lines indented by two spaces, then, for an `Error` value, the wrapped `---`/`message:`/`...` block. For any other error value the contract prints no block. For a `TypeError`, another `Error` class or an object with a `message` property this is narrower than the code, which prints a block from their `message` (see "## Left out"). |
| `TapReporter.Reporter.EndCase` | packages/@testup/tap-reporter/tap-reporter.js:19-80 | A case prints its path comment, then its test line. Each is wrapped at the width with continuation lines indented by two spaces. A case that failed with an `Error` then prints the `---`/`...` block with its `message:` line, wrapped at the width. For a `TypeError`, another `Error` class or an object with a `message` property, the model prints no block, although the code prints one (see "## Left out"). An error message with a line break makes `safeValue` call `wordWrap` with a string as its mapper, so the call throws a TypeError before anything is printed. A suite prints nothing. |

## Left out

- Asynchronous scheduling: every `await` is a plain sequential call, and no two runs interleave.
- Timeouts and `Object.freeze`. The engine has no timeouts. A frozen context is modelled as an immutable value.
- `chalk` colouring: colour is taken to be off.
- The reporter's bail-out texts: `reportBrokenUnit`, `reportBrokenScript` and `reportError` depend on engine stack traces. The runner's side of them is modelled as `Executor.Event`.
- Stack-trace locations (`getErrorLocation` and its helpers) and `toYamlLike`.
- `Suite.push` of something that is not a unit ('Not a Unit'). Every caller passes a freshly built suite or case.
- Labels other than strings: a missing, `null` or `undefined` label is the empty string.
- The `suite` and `context` options of `runScript`. The run always starts from a fresh tree, and the context is dropped as the code drops it.
- A reporter that lacks a method or throws.
- Modifiers that catch the error `next` throws, throw after `next` returns, or call `next` more than once. The behaviour descriptors cannot express them, so the model does not capture a swallowed child `UnitError` or the stack that the code then leaves behind (packages/@testup/core/testup.js:60-93).
- The command line, reporter discovery and configuration, the console reporter, `kit` and the reporter base class.
- TapReporter.CaseLines: prints the `---`/`message:`/`...` block only for an error that is `Error(m)`. In the code, a case that failed with a `TypeError` (a handler calling `next`), with another `Error` class (`OtherObject`) or with a plain object that has a `message` property also prints a block built from `error.message` (packages/@testup/tap-reporter/tap-reporter.js:28-47, 75-79). The model prints only the path comment and the test line for those. Their messages are the engine's wording, or user data, which `TypeError` and `OtherObject` do not carry. A `message` property that is not a string would also need `safeValue` on non-strings.
- TapReporter.Reporter.EndCase: has the same gap in its message block as `TapReporter.CaseLines`, for a `TypeError`, another `Error` class and an object with a `message` property. It prints only the `message:` line of the YAML-like block. The `location:` line and the `operator`/`actual`/`expect` lines of an assertion error need stack traces and assertion objects, which the model does not have.
- TapReporter.Reporter.EndSuite: does not print the `# rate:` line, because it is a floating-point percentage formatted by `toFixed`.
- TapReporter.Reporter.constructor: requires a width of at least 3. With a smaller width, continuation lines get a length below 1 and `wordWrap` never terminates.
- UnitTree.Tree.IncreaseOutcome: does not state which counters are left raised when it throws part-way up. In a well-formed tree it never throws (`UnitTree.EndRoom`).
- Executor.SuiteRunCoherent: does not prove that a run of a freshly built tree never breaks with 'Already completed'. The model carries that fault as a `Raw` error through the run and the routing instead.
- Text widths: strings are sequences of Unicode scalar values, while JavaScript's `length` and `slice` count UTF-16 code units. Widths therefore differ for text outside the Basic Multilingual Plane, and the model never cuts a surrogate pair in two as `wordWrap` can.

## Findings

| source | as written | input that shows it | evidently intended | confidence | as-written member | corrected member |
|---|---|---|---|---|---|---|
| packages/@testup/core/testup.js:201-203 | `for (const i in modifier)` yields `i` as a string key, so `` `Argument #${i + 2}` `` appends the digit 2 to the key | `it('x', 1, () => {})` throws "Argument #02 is not a function" | "Argument #2 is not a function": the label is argument 1, so modifier `i` is argument `i + 2` | not executed | `Builder.ArgumentMessageAsWrittenIsWrong` | `Builder.ArgumentMessageNamesPosition` |
