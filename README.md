# rspec core in Dafny

A model of the `rspec` crate's core (`src/lib.rs`): a small behaviour-driven
test engine. A caller builds one registration context through a root
`describe` whose body calls `describe`, `it` and `before` on it, at any
nesting depth. The resulting `Runner` then runs every registered test in
registration order. Each test is preceded by every before-each hook. A panic
in a hook or a test is caught per test. The runner stores a `TestReport`
(total, success and error counters) tagged `Ok` or `Err`.

Modules:

- `Report` (`report.dfy`): `TestResult`, the `u32` counters, `TestReport`
  and its default, `Result<TestReport, TestReport>`. `Summary` is the report
  that `run` computes, given in closed form.
- `Registration` (`registration.dfy`): what a closure does (`TestFn`,
  `HookFn`) and a describe body as the list of registration calls it makes
  (`Step`). `Tests` and `Hooks` flatten such a body. The class `Context`
  holds the two sequences that `describe`, `it` and `before` update in
  place.
- `Execution` (`execution.dfy`): the class `Runner` with `run` and
  `result`, and the root `describe`. A ghost trace records every hook and
  test invocation (`HookCall(test, hook)`, `TestCall(test)`), so that call
  order and call counts can be stated. `CaseTrace`, `CaseResult` and
  `RunTrace` specify one case and one run. `Count` counts invocations.
- `Scenarios` (`scenarios.dfy`): whole runs for the situations the crate's
  own tests check, from the root `describe` to `result()`.

`Runner.Run` is an imperative loop over the tests. Its inner loop over the
hooks (`RunCase`) stops at the first panic. The loop keeps the source's
accumulator: while the cumulative status is `Ok`, it bumps `successCount`
and adopts the test's own result; once the status is `Err`, it bumps
`errorCount`. The method is proved to store `Summary` of the per-test
results: with k the index of the first failing test, the report is
`Err(total, k + 1, total - k - 1)`, and with no failing test it is
`Ok(total, total, 0)`. `Run` is also proved to append exactly
`RunTrace(|tests|, hooks)` to the trace.

A nested `describe` only runs its body on the same context. The model's
`Context.Describe` runs the body's calls in order, and `DescribeIsTransparent`
proves that a nested group registers exactly what its calls would register
when made directly.

## Model

| member | source | states |
|---|---|---|
| `Report.Summary` | src/lib.rs:57-88 | total is the number of tests and success + error equals it; the status is `Ok` iff every test result is `Ok`, and then success is the total and error is 0; on `Err`, success − 1 is the index of the first failing test (all earlier ones `Ok`), so error counts the tests after it |
| `Report.SummaryStep` | src/lib.rs:76-81 | one more test updates `Summary` as the loop body does: while the status is `Ok` it adds a success and the status becomes the test's result; once `Err` it adds an error; the total grows by one |
| `Registration.TestsAppend` | src/lib.rs:18-22 | two bodies run one after the other register the tests of the first, then those of the second |
| `Registration.HooksAppend` | src/lib.rs:24-28 | two bodies run one after the other register the hooks of the first, then those of the second |
| `Registration.ItsRegister` | src/lib.rs:18-22 | calling `it` once per test registers exactly those tests, in order, and no hook |
| `Registration.DescribeIsTransparent` | src/lib.rs:13-16 | replacing a nested `describe` by its body's calls leaves both registered lists unchanged: grouping has no scope of its own |
| `Registration.Context.constructor` | src/lib.rs:35 | a new context has no tests and no hooks |
| `Registration.Context.Describe` | src/lib.rs:13-16 | running a body on the context appends what the body registers, at any depth, to the same two lists |
| `Registration.Context.It` | src/lib.rs:18-22 | appends exactly one test at the end and leaves the hooks unchanged |
| `Registration.Context.Before` | src/lib.rs:24-28 | appends exactly one hook at the end and leaves the tests unchanged |
| `Execution.HooksRun` | src/lib.rs:64-69 | the hooks reached per test: all of them when none panics, otherwise those up to and including the first panicking one, every earlier one having returned |
| `Execution.CaseTraceOrder` | src/lib.rs:64-69 | within one case: every call is for that test; hook i is invoked at position i, so in registration order; hook i runs iff every earlier hook returned; the test runs, last, iff every hook returned |
| `Execution.CaseResult` | src/lib.rs:64-74 | a case yields `Ok` iff every hook returns and the test returns `Ok(())`; a panic anywhere yields `Err` |
| `Execution.CaseHookCalls` | src/lib.rs:65-67 | one case makes exactly as many hook calls as hooks it reaches |
| `Execution.CaseHookCallsOf` | src/lib.rs:65-67 | one case invokes hook i once if it reaches it, and never otherwise |
| `Execution.CaseTestCalls` | src/lib.rs:64-69 | one case invokes its own test once iff no hook panics, and no other test |
| `Execution.EachHookRunsOncePerTest` | src/lib.rs:62-68 | over a run, each reached hook is invoked exactly once per registered test; hooks after the first panicking one never run |
| `Execution.HookCallsTotal` | src/lib.rs:62-68 | a run makes (tests × hooks reached) hook calls; with no panicking hook, tests × hooks |
| `Execution.EachTestInvokedOnce` | src/lib.rs:62-74 | every registered test is invoked exactly once whatever earlier tests returned or whether they panicked, unless a hook panics, when no test is invoked |
| `Execution.Results` | src/lib.rs:62-74 | one result per registered test, in registration order, each the outcome of that test's case under the same hooks |
| `Execution.RunTracePrefix` | src/lib.rs:62 | the calls for the first m tests come before any call for a later test |
| `Execution.RunTraceShape` | src/lib.rs:62-69 | the run's trace is the case traces end to end in test order: the calls for test j occupy positions j·c up to (j+1)·c, c being one case's length |
| `Execution.PanicIsErr` | src/lib.rs:71-74 | a test that panics gives the same results, hence the same report, as one that returns `Err(())` |
| `Execution.Runner.constructor` | src/lib.rs:37 | a new runner holds the given context, no report and an empty trace |
| `Execution.Runner.Result` | src/lib.rs:93-95 | the stored report, or `Ok` with every counter zero when `run` was never called |
| `Execution.Runner.Run` | src/lib.rs:54-91 | returns `Ok`; stores `Summary` of the per-test results, which `result()` then returns; appends exactly the run's calls (`RunTrace`) to the trace |
| `Execution.Runner.RunCase` | src/lib.rs:64-74 | runs the hooks in order, stopping at the first panic, then the test; returns `CaseResult` and appends exactly `CaseTrace` |
| `Execution.Describe` | src/lib.rs:32-38 | the root `describe` builds a fresh context holding exactly what the body registers, starting from empty lists, in a runner with no report |
| `Scenarios.DescribeAndRun` | src/lib.rs:32-95 | root `describe`, one `run`, then `result()`: the report is `Summary` of what the body registers, and the calls are one run's `RunTrace` |
| `Scenarios.ResultBeforeRun` | src/lib.rs:93-95 | before any run, `result()` is `Ok(0, 0, 0)` even if a failing test and a panicking hook are registered |
| `Scenarios.NoTests` | src/lib.rs:234-240 | with no tests, `run` returns `Ok` and the report is `Ok(0, 0, 0)` |
| `Scenarios.CountSuccesses` | src/lib.rs:297-311 | three passing tests give `Ok(3, 3, 0)` |
| `Scenarios.CountErrors` | src/lib.rs:313-327 | tests Fail, Fail, Pass give `Err(3, 1, 2)` |
| `Scenarios.PanicDoesNotStopTheRun` | src/lib.rs:266-279 | a panicking test then a passing one give `Err(2, 1, 1)`, and the second test is invoked once |
| `Scenarios.NestedDescribesRunEveryTest` | src/lib.rs:177-206 | three tests inside nested groups all run once each and give `Ok(3, 3, 0)` |
| `Scenarios.BeforeRunsForEveryTest` | src/lib.rs:334-350 | one hook and three tests: the hook is invoked three times and the report is `Ok(3, 3, 0)` |

## Left out

- The `expectest` import and re-export (src/lib.rs:1-3): a foreign assertion library, not behaviour of this crate.
- `catch_unwind`, `AssertUnwindSafe`, lifetimes and boxed `FnMut` closures. A closure is modelled by what invoking it does: a test returns `Ok(())`, returns `Err(())` or panics, and a hook returns or panics. Each closure yields the same outcome on every invocation, so closures whose behaviour depends on their own captured state are not modelled. In particular, a panicking hook panics before every test. The side effects of closures appear only as entries in the ghost trace.
- A describe body is modelled as the list of registration calls it makes (`Step`). Bodies that compute, loop or panic while registering are not modelled.
- The `_name` and `_block_name` arguments: the source never reads them.
- `Execution.Runner.Run`: requires fewer than 2^32 registered tests. With that bound the `u32` counters provably never overflow, so the model does not capture wrap-around or the overflow panic beyond it.
- Ownership: in the source the runner owns its context, so nothing can register after the root `describe` returns. The model's runner holds a reference to a context that the root `Describe` allocates fresh and hands to nobody else.
- Re-running: a second `Run` recomputes and overwrites the report, as in the source, and appends a second run's calls to the trace.
- The test module itself (src/lib.rs:100-364) is used only as evidence for the properties. Its TODO items (name display, after-hooks, hooks scoped to a group) are not implemented in the source and are not modelled.
