# mesa: the case-execution engine, modelled in Dafny

mesa is a Go library for table-driven tests and benchmarks. A harness
(`MethodMesa`, `MethodBenchmarkMesa`, or `FunctionMesa` for plain functions)
holds a list of cases plus default hooks. Running it works in two levels:

- The harness calls `Init`, runs every case as a sub-run, and then calls the
  deferred `Teardown`.
- Each case goes through these steps in order:
  - it is skipped when `Skip` is set;
  - it gets a fresh context;
  - it takes its fields from `FieldsFn` (over `Fields`) and builds the
    instance with `NewInstance`;
  - it takes its input from `InputFn` (over `Input`);
  - it registers its cleanup;
  - it calls `BeforeCall` and `Target` (`b.N` times in a benchmark, whose
    accumulated metrics it then reports divided by `b.N`);
  - it calls `Check`.
- For cleanup, `BeforeCall` and `Check`, the case's hook runs when it has
  one, otherwise the harness's hook, otherwise nothing.
- `Run(t, ms...)` runs several harnesses one after the other.

The model has three layers.

1. **Trace semantics**, in modules `Semantics`, `Harness` and `Context`.
   - Each user callback is an abstract `HookId`.
   - An environment `Env` says what each call returns, whether it fails
     fatally (a `require` assertion), and which `ReportMetric` calls it makes.
   - Functions give the `Run` of a case, a harness and a list of harnesses:
     - the trace of events the host observes;
     - the metric table;
     - a status: `Running`, `Failed` (the goroutine ended, registered
       cleanups still fire) or `Crashed` (a panic ended the binary).
2. **Properties** of those functions, in modules `CaseOrder`, `CaseHooks`,
   `CaseLifecycle`, `BatchProperties` and `AdapterProperties`:
   - the fixed order of steps;
   - hook precedence;
   - what a skip, a failure or a crash leaves behind;
   - that cleanup fires exactly when it was registered;
   - benchmark averaging;
   - `Init`/`Teardown` placement;
   - case order and harness order;
   - the behaviour of the function adapter.
3. **Imperative runners**, in module `Runner`, shaped like the Go code:
   - the case loop;
   - a fresh `Ctx` object per case;
   - a loop copy of the case whose `Fields` and `Input` the providers overwrite;
   - the benchmark loop that overwrites `out`;
   - the adapter that fills its case array with `checkAndSet`.

   Each runner method is proved to leave on the `Host` exactly the trace its
   specification function gives.

The function adapter has a flaw (see "## Findings"), so the adapter and
`Run(t, ms...)` take a flag `fixed`: `false` is the code as written, `true`
the evidently intended version. Every property of `Run(t, ms...)` is stated
for both.

`BufferExample` models `Buffer.Add` of example_test.go as a class that appends
in place. It also models the three cases of `ExampleMesa`, both as direct runs
against the buffer and as the trace the harness produces.

## Model

| member | source | states |
|---|---|---|
| Context.Lookup | mesa.go:87-90 | reading a name never stored gives nil; otherwise the stored value |
| Context.AddMetric | mesa.go:79 | `metrics[name] += value`: the named total grows by `value` (a missing name counts as 0), the key set gains `name`, every other total is unchanged |
| Context.AccumulateAll | mesa.go:74-80 | the metric table after a callback's `ReportMetric` calls in order, each adding its value to its name's total (a missing name counting as 0); its meaning is stated by `AccumulateAllSums` and `AccumulateAllAppend` |
| Context.AccumulateAllSums | mesa.go:74-80 | after a sequence of `ReportMetric` calls each name's total is its old total plus the sum reported under it, and a name is present iff it was present or was reported |
| Context.AccumulateAllAppend | mesa.go:74-80 | reporting two batches one after the other equals reporting their concatenation |
| Context.Average | mesa.go:480-482 | the averaged table has the same names and each average times `b.N` is the total |
| Context.ConstantReportsTotal | mesa.go:79 | `n` reports of one value `v` under one name leave exactly that name at `n * v` |
| Context.ConstantReportsAverage | mesa.go:79-80 | `n` reports of one value under one name average to exactly that value, with no other name |
| Context.Ctx.constructor | mesa.go:92-102 | `newCtx`: empty values and metrics, not failed, bound to a test or a benchmark handle |
| Context.Ctx.T | mesa.go:56-62 | returns the test handle exactly when the context is a test's; otherwise the run fails fatally; values and metrics unchanged |
| Context.Ctx.B | mesa.go:64-70 | returns the benchmark handle exactly when the context is a benchmark's; otherwise the run fails fatally |
| Context.Ctx.ReportMetric | mesa.go:72-80 | in a benchmark adds `value` to the named total; in a test fails fatally and leaves the metrics unchanged; values untouched |
| Context.Ctx.FailNow | mesa.go:53 | a fatal `Re` assertion marks the run failed and changes no stored value or metric |
| Context.Ctx.SetValue | mesa.go:82-85 | the store maps `name` to `val`, everything else is unchanged |
| Context.Ctx.GetValue | mesa.go:87-90 | the value last stored under `name`, or nil when there is none |
| Context.LastWriteWins | mesa.go:82-90 | after two writes to one name a read gives the second; another name reads as before |
| Harness.Resolve | mesa.go:204-227 | a hook kind has a hook iff the case or the harness has one; it is the case's when the case has one, the harness's otherwise |
| Harness.CheckAndSet | mesa.go:504-508 | the destination takes the new value exactly when the update is asked for, and otherwise keeps its value |
| Harness.WithCases | mesa.go:496-502 | a copy of the harness whose cases are the given ones and whose every other field is unchanged |
| Harness.AdaptCase | mesa.go:322-342 | one adapted case: `Name`, `Input` and `Skip` copied, no fields provider, `BeforeCall`, `Check` and cleanup set through `checkAndSet`, and the forwarding `InputFn` installed always (as written) or only when present (corrected); its meaning is stated by `AdaptCaseCopies` |
| Harness.Adapt | mesa.go:289-344 | the adapted harness has the nil-returning constructor, the same target and batch and default hooks, and one adapted case per function case, in order |
| Harness.AdaptCaseCopies | mesa.go:322-343 | an adapted case copies `Name`, `Input` and `Skip` and has no fields provider. Its `BeforeCall`, `Check` and cleanup are set exactly when the function case has them. As written it always gets the forwarding `InputFn`; corrected, it gets one exactly when the function case has one |
| Semantics.Emit | mesa.go:185-211 | an event the host records (the sub-run start, the skip, the cleanup registration, the timer calls), appended only while the run goes on |
| Semantics.Invoke | mesa.go:192-227 | one call of a user callback: nothing once the run stopped; otherwise its event, then a fatal failure if it failed or reported a metric in a test, else its reports added to the metric table |
| Semantics.Crash | mesa.go:328-330 | a call of a nil function: the run records `Panicked` and ends `Crashed`, unless it had already stopped |
| Semantics.FieldsStage | mesa.go:192-194 | `FieldsFn` is called when present and nothing happens otherwise |
| Semantics.ConstructStage | mesa.go:196 | `NewInstance` is called on the resolved fields; the adapter's nil constructor records only the nil instance |
| Semantics.InputStage | mesa.go:198-200 | `InputFn` is called on the instance when present; the forwarding `InputFn` calls the function case's one, and panics when that is nil |
| Semantics.BeforeStage | mesa.go:213-218 | the resolved `BeforeCall` is called on the instance and input, if there is one |
| Semantics.TargetLoop | mesa.go:471-474 | `n` calls of `Target` on the same instance and input, numbered by iteration, stopping at a failure, with the last call's output kept |
| Semantics.TargetPhase | mesa.go:467-482 | one `Target` call in a test (mesa.go line 220); in a benchmark the timer reset, the loop, the timer stop and the accumulated metrics divided by `b.N` |
| Semantics.CheckStage | mesa.go:222-227 | the resolved `Check` is called on the instance, input and output, if there is one |
| Semantics.CleanupStage | mesa.go:202-211 | the registered cleanup fires at the end of the sub-run, however it ended, and the sub-run keeps the status it ended with |
| Semantics.Prepare | mesa.go:185-200 | steps 1-3 of a case: the sub-run start, the fields provider, the constructor and the input provider |
| Semantics.Exercise | mesa.go:202-221 | steps 4-6: the cleanup registration, `BeforeCall` and the `Target` phase, with the output kept for `Check` |
| Semantics.CaseRun | mesa.go:184-229 | one case's sub-run: a skip, or the providers, the exercise, `Check` and the cleanup |
| Semantics.CasesRun | mesa.go:184-229 | the case loop over the sub-runs: their traces in order, stopping after a panic, which ends the binary |
| Semantics.Batch | mesa.go:173-230 | `Init` when present; if it let the test go on, the cases and then the deferred `Teardown`, which a panic skips |
| Semantics.MesaRun | mesa.go:173-230 | a method harness's run (`MethodBenchmarkMesa.Run` in benchmark mode), as `Batch` over its cases' sub-runs |
| Semantics.AsMesa | mesa.go:25-29 | the method harness each value passed to `Run(t, ms...)` runs: itself, or a function harness through the adapter as written or corrected |
| Semantics.CaseRuns | mesa.go:184-190 | one sub-run per case, in list order, each depending only on its case and position (each case has its own fresh context) |
| Semantics.HarnessRuns | mesa.go:25-29 | one run per harness passed to `Run(t, ms...)`, in argument order, on the test handle. Function harnesses go through the adapter, as written (`fixed` false, which is what the code runs) or corrected |
| Semantics.SuitesRun | mesa.go:25-29 | the loop of `Run(t, ms...)`: each harness's trace in turn, none after one that ended the caller's test or the binary |
| Semantics.RunAll | mesa.go:25-29 | `Run(t, ms...)` over the given harnesses, with the adapter as written or corrected |
| CaseOrder.CaseSequenced | mesa.go:184-228 | every case's events follow the runner's order: start, skip or `FieldsFn`, construction, `InputFn`, cleanup registration, `BeforeCall`, timer reset, `Target` calls by increasing iteration, timer stop, metrics, `Check`, cleanup. Each step comes at most once, and after a fatal failure or a panic only the cleanup follows |
| CaseOrder.PrepareGood | mesa.go:190-200 | the providers and the constructor keep the order and stop invariant |
| CaseOrder.ExerciseGood | mesa.go:202-220 | cleanup registration, `BeforeCall` and the `Target` phase keep the order and stop invariant |
| CaseOrder.TargetPhaseGood | mesa.go:467-482 | the timed loop, the timer stop and the metric report keep the order and stop invariant |
| CaseOrder.TargetLoopGood | mesa.go:471-474 | the benchmark iterations come in increasing order |
| CaseOrder.CleanupStageSequenced | mesa.go:202-211 | the cleanup firing after the other steps, even after a stop, keeps the trace ordered |
| CaseHooks.CaseEventsExpected | mesa.go:190-227 | every event of a case is of its own case. Each hook is the resolved one (the case's, else the harness's). The fields and the input are the providers' results when present, the literals otherwise. The instance is the one constructed, `Check` gets the last `Target` output, and there are no `Init`/`Teardown` events |
| CaseHooks.PrepareExpected | mesa.go:190-200 | the providers' and constructor's events carry the resolved fields, the one instance and the resolved input; `InputFn` receives the instance |
| CaseHooks.ExerciseExpected | mesa.go:202-220 | registration, `BeforeCall` and `Target` events carry the resolved hooks, instance and input, and the output kept is the last iteration's |
| CaseHooks.TargetLoopEvents | mesa.go:471-474 | each benchmark iteration calls the harness's `Target` on the same instance and input, numbered below `b.N` |
| CaseLifecycle.SkippedCaseRunsNothing | mesa.go:186-188 | a skipped case starts its sub-run, is skipped, calls no callback, reports no metric and does not fail |
| CaseLifecycle.CleanupFiresIffRegistered | mesa.go:202-211 | in a case that is not skipped the resolved cleanup is registered, and (when there is one) fires on the instance, exactly when the providers and constructor returned, however `BeforeCall`, `Target` or `Check` end |
| CaseLifecycle.UnpreparedCaseStops | mesa.go:190-200 | a case stopped by a provider or the constructor leaves only those steps' events |
| CaseLifecycle.PreparedCaseRegisters | mesa.go:202-211 | a prepared case registers its resolved cleanup and that cleanup fires |
| CaseLifecycle.CleanupStageFires | mesa.go:202-211 | a registered cleanup is called after everything that came before |
| CaseLifecycle.ExerciseRegisters | mesa.go:202-211 | a prepared case registers its cleanup before anything can stop it |
| CaseLifecycle.PrepareKinds | mesa.go:190-200 | the providers' steps produce only the sub-run start, provider, constructor and stop events |
| CaseLifecycle.CompletedCaseTrace | mesa.go:185-228 | a case that is not skipped and ends running leaves exactly: start, `FieldsFn` if present, construction, `InputFn` if present, registration, resolved `BeforeCall`, the `Target` phase, resolved `Check` on the last output, resolved cleanup |
| CaseLifecycle.PrepareCompleted | mesa.go:190-200 | prepared cases: the exact events of the providers and constructor and the metrics they reported |
| CaseLifecycle.ExerciseCompleted | mesa.go:202-220 | exercised cases: registration, resolved `BeforeCall` and the `Target` phase's exact events, with the metrics so far |
| CaseLifecycle.ExerciseTrace | mesa.go:202-220 | the `Target` phase reports the metrics of the providers, `BeforeCall` and `Target`, accumulated on the case's context |
| CaseLifecycle.ExerciseOutput | mesa.go:467-476 | the output handed to `Check` is the last `Target` call's |
| CaseLifecycle.TargetPhaseCompleted | mesa.go:467-482 | a `Target` phase that nothing stopped: one call in a test; in a benchmark the timer reset, exactly `b.N` calls, the timer stop and every accumulated metric divided by `b.N` |
| CaseLifecycle.BenchPhaseCompleted | mesa.go:467-482 | the benchmark form of the previous row |
| CaseLifecycle.TargetLoopCompleted | mesa.go:471-474 | a loop of `n` iterations that nothing stopped makes exactly the `n` calls in order and adds their reports |
| CaseLifecycle.TargetPhaseOutput | mesa.go:471-476 | the `Target` phase keeps the output of its last call |
| CaseLifecycle.TargetLoopStuck | mesa.go:471-474 | after a fatal failure no further iteration runs |
| CaseLifecycle.TargetPhaseStuck | mesa.go:467-482 | a stopped sub-run runs no `Target` phase |
| CaseLifecycle.ExerciseStuck | mesa.go:196-220 | a stopped sub-run registers nothing and calls neither `BeforeCall` nor `Target` |
| CaseLifecycle.TargetLoopGrows | mesa.go:471-474 | the loop only appends events |
| CaseLifecycle.TargetPhaseGrows | mesa.go:467-482 | the `Target` phase only appends events |
| CaseLifecycle.ExerciseGrows | mesa.go:202-220 | steps 4-6 only append events |
| CaseLifecycle.InvokeCompleted | mesa.go:72-80 | a callback that returned added its event and its reports, and in a test made no report |
| CaseLifecycle.FieldsStageCompleted | mesa.go:192-194 | `FieldsFn`, when present, is called once and its reports are added |
| CaseLifecycle.ConstructStageCompleted | mesa.go:196 | the constructor is called once on the resolved fields |
| CaseLifecycle.InputStageCompleted | mesa.go:198-200 | `InputFn`, when present, is called once on the instance |
| CaseLifecycle.BeforeStageCompleted | mesa.go:213-218 | the resolved `BeforeCall` is called once, if any |
| CaseLifecycle.CheckStageCompleted | mesa.go:222-227 | the resolved `Check` is called once, if any |
| CaseLifecycle.CleanupStageCompleted | mesa.go:202-211 | the registered cleanup is called once, if any |
| CaseLifecycle.TargetReportsConstant | mesa.go:471-474 | when each iteration reports one metric once, the loop's reports are that report `b.N` times |
| CaseLifecycle.ConstantMetricAverages | mesa.go:469-482 | a benchmark whose `Target` reports the same value under one name on every iteration, and whose other callbacks report nothing, reports exactly that name at that value |
| CaseLifecycle.TargetEventsLast | mesa.go:478-482 | a completed benchmark phase ends with the averages of everything the case reported before `Check`: providers, constructor, `BeforeCall` and the `b.N` calls of `Target` |
| CaseLifecycle.OnlyTargetReports | mesa.go:190-220 | when the providers, the constructor and `BeforeCall` report nothing, the case's metrics are exactly what `Target` reported |
| CaseLifecycle.TestPhaseCompleted | mesa.go:220 | in a test, a `Target` phase that nothing stopped is exactly one call of `Target` |
| CaseLifecycle.PhaseEventsLast | mesa.go:478-482 | the averaged metrics are the last event of a completed benchmark phase |
| CaseLifecycle.TargetCalls | mesa.go:471-474 | `n` `Target` events numbered 0 to `n-1`, each with that iteration's output |
| BatchProperties.InitRunsFirst | mesa.go:176-178 | `Init`, when present, is the first event of the harness and is called exactly once; a harness without `Init` calls none |
| BatchProperties.BatchInitRunsFirst | mesa.go:176-178 | the same, for any well-formed sub-runs |
| BatchProperties.BatchSplit | mesa.go:176-182 | a harness's trace is its `Init` call (and that call's failure) followed by events that call no `Init` |
| BatchProperties.InitFailureRunsNothingElse | mesa.go:176-182 | a fatal failure in `Init` ends the harness there: no case and no `Teardown` |
| BatchProperties.HarnessCasesInOrder | mesa.go:184-185 | when `Init` succeeds and no case crashes, the cases start their sub-runs once each, in list order, under their names |
| BatchProperties.BatchCasesInOrder | mesa.go:184-185 | the same for any well-formed sub-runs |
| BatchProperties.CasesInOrder | mesa.go:184-185 | the first `k` cases start in order, up to a crash |
| BatchProperties.CasesRunStuck | mesa.go:184-229 | after a crash no further case runs |
| BatchProperties.CasesRunCrash | mesa.go:184-229 | the cases' run has crashed iff one of the sub-runs crashed |
| BatchProperties.CasesRunNoBatchEvents | mesa.go:184-229 | the cases call neither `Init` nor `Teardown` |
| BatchProperties.TeardownRunsLastOnce | mesa.go:180-182 | when `Init` succeeds and no case crashes, `Teardown` runs exactly once, as the harness's last step (followed only by its own fatal failure), however the cases ended |
| BatchProperties.BatchTeardownRunsLastOnce | mesa.go:180-182 | the same for any well-formed sub-runs |
| BatchProperties.CrashSkipsTeardown | mesa.go:180-185 | a case that crashes ends the harness crashed, and `Teardown` never runs |
| BatchProperties.CaseNamesOne | mesa.go:185 | each case starts exactly one sub-run, under its own name |
| BatchProperties.CaseStartsSubRun | mesa.go:185 | every case's events begin with its sub-run's start |
| BatchProperties.PrepareStartsSubRun | mesa.go:185-190 | the providers run inside the case's sub-run |
| BatchProperties.CaseExtendsPrepare | mesa.go:190-228 | the later steps only append to the providers' events |
| BatchProperties.CaseNoBatchEvents | mesa.go:185-228 | a case never calls `Init` or `Teardown` |
| BatchProperties.CaseRunsWellFormed | mesa.go:184-228 | every harness's sub-runs are well formed: one name each, no batch event |
| BatchProperties.InvokeNames | mesa.go:176-182 | a batch callback starts no sub-run |
| BatchProperties.RunningHarness | mesa.go:176-178 | a harness that ends running did not fail in `Init` |
| BatchProperties.SuitesRunStuck | mesa.go:25-29 | once a harness ended the caller's test or crashed, no later harness runs |
| BatchProperties.SuitesInOrder | mesa.go:25-29 | the harnesses' sub-runs come in argument order |
| BatchProperties.RunAllInOrder | mesa.go:25-29 | for either adapter: when every harness let the caller's test go on (so, as written, no function case fell back on its literal `Input`), `Run(t, ms...)` ran the harnesses in argument order and each one's cases in list order |
| BatchProperties.CaseNames | mesa.go:184 | the names of the cases, in list order |
| BatchProperties.SuiteCaseNames | mesa.go:25-29 | each harness's case names, in argument order |
| BatchProperties.NamesAppend | mesa.go:184-185 | the sub-runs started by two traces together are those of the first followed by those of the second |
| AdapterProperties.InvokeNeverCrashes | mesa.go:289-347 | calling a present callback never crashes the run |
| AdapterProperties.TargetLoopNeverCrashes | mesa.go:471-474 | the benchmark loop never crashes |
| AdapterProperties.ExerciseNeverCrashes | mesa.go:202-220 | registration, `BeforeCall` and `Target` never crash |
| AdapterProperties.CaseCrashesOnlyOnNilInput | mesa.go:328-330 | a case crashes only when it is not skipped and its `InputFn` forwards to a missing function |
| AdapterProperties.PrepareCrashesOnlyOnNilInput | mesa.go:328-330 | among the providers and the constructor only the forwarding `InputFn` can crash |
| AdapterProperties.ExerciseNeverCrashesAfter | mesa.go:202-227 | a case that crashed had already crashed in its providers |
| AdapterProperties.AsWrittenCasePanics | mesa.go:322-330 | as written, a non-skipped function case without `InputFn` starts its sub-run, gets the nil instance and panics, before cleanup registration and `Target` |
| AdapterProperties.AsWrittenHarnessCrashes | mesa.go:289-347 | as written, a function harness without `Init` whose first case relies on its literal `Input` crashes with exactly that trace, and its `Target` is never called |
| AdapterProperties.AsWrittenRunAllCrashes | mesa.go:25-29 | as written, `Run(t, f, ...)` with such a function harness first crashes in its first case: the trace is the sub-run start, the nil instance and the panic, and no later harness runs |
| AdapterProperties.CorrectedInputFn | mesa.go:322-343 | corrected, the adapted case has an `InputFn` exactly when the function case has one, and it forwards to that one |
| AdapterProperties.CorrectedNeverCrashes | mesa.go:289-347 | corrected, no function harness crashes |
| AdapterProperties.CorrectedTargetInput | mesa.go:301-330 | corrected, every `Target` call is the harness's function on the nil instance with the case's input: `InputFn`'s result when present, the literal `Input` otherwise |
| Runner.Host.Record | mesa.go:185 | the host appends one observed event |
| Runner.Callback | mesa.go:72-80 | a present callback's event, metric reports and fatal failure, as `Invoke` gives them; the context is marked failed exactly when the callback did not return; values untouched |
| Runner.ReportAll | mesa.go:72-80 | the callback's `ReportMetric` calls: all added in a benchmark; in a test the first fails the run and nothing is added |
| Runner.FieldsCase | mesa.go:192-194 | `FieldsFn`, when present, overwrites the loop copy's fields; the host sees the fields stage |
| Runner.ConstructCase | mesa.go:196 | the constructor call returns the instance, nil for an adapted harness |
| Runner.InputCase | mesa.go:198-200 | `InputFn`, when present, overwrites the loop copy's input; a missing forwarded function panics |
| Runner.PrepareCase | mesa.go:189-200 | the host sees exactly the providers' and constructor's events, the fresh context holds their metrics, and the loop copy carries the resolved fields and input while the case is unchanged |
| Runner.BenchLoop | mesa.go:471-474 | the loop makes the iterations `TargetLoop` gives and keeps the last output |
| Runner.ReportAverages | mesa.go:480-482 | the averages reported are every total divided by `b.N` |
| Runner.TargetCase | mesa.go:467-482 | one `Target` call in a test (mesa.go line 220), the timed loop and averaged metrics in a benchmark, exactly as the `Target` phase gives |
| Runner.ExerciseCase | mesa.go:202-220 | cleanup registration, the resolved `BeforeCall` and the `Target` phase, as the specification gives, with the last output |
| Runner.CheckCase | mesa.go:222-227 | the case's `Check` or else the harness's, on the input and the output |
| Runner.CleanupCase | mesa.go:202-211 | the registered cleanup fires whether the sub-run was going or had failed |
| Runner.RunCase | mesa.go:185-228 | the host sees exactly the case's specified sub-run, in a test or a benchmark (mesa.go lines 432-490), and the status is its status |
| Runner.RunCaseAt | mesa.go:185-228 | the case at a position runs as its specified sub-run |
| Runner.RunCases | mesa.go:184-229 | the loop over the cases runs them in list order until one crashes |
| Runner.RunMesa | mesa.go:173-230 | for a test or a benchmark harness (mesa.go lines 418-494) the host sees exactly the harness's specified run: `Init`, the cases, the deferred `Teardown` |
| Runner.RunBatch | mesa.go:173-230 | the body of the harness run, against `Batch` |
| Runner.InitHarness | mesa.go:176-178 | `Init`, when present, on the harness's context |
| Runner.TeardownHarness | mesa.go:180-182 | `Teardown`, when present, after the cases |
| Runner.AdaptHarness | mesa.go:289-344 | the adapter built with `checkAndSet` and a case array filled in place equals the adapter's definition |
| Runner.RunFunctionMesa | mesa.go:289-347 | `FunctionMesa.Run` runs the adapted harness on the test handle |
| Runner.RunSuiteAt | mesa.go:25-29 | the harness at a position runs as its specified run, a function harness through the adapter version `fixed` selects |
| Runner.RunSuites | mesa.go:25-29 | the loop of `Run(t, ms...)` runs the harnesses in order until one ends the caller's test or crashes the binary |
| Runner.RunAll | mesa.go:25-29 | `Run(t, ms...)` leaves exactly its specified trace and status, for the adapter as written (`fixed` false) and corrected |
| Runner.TargetLoopStays | mesa.go:471-474 | once an iteration failed, later iterations change nothing |
| BufferExample.Added | example_test.go:22-29 | `Buffer.Add` on values: the messages and the error it returns; its meaning is stated by `AddedAppendsIffRoom` |
| BufferExample.AddedAppendsIffRoom | example_test.go:22-29 | `Add` succeeds exactly when the buffer is below its limit, and then appends the message after the old ones; otherwise it returns `ErrBufferIsFull` and leaves the buffer |
| BufferExample.AddedKeepsBound | example_test.go:22-29 | a buffer within its limit stays within it after `Add` |
| BufferExample.NonPositiveLimitRejects | example_test.go:23-25 | with a limit of zero or less, `Add` on an empty buffer fails and adds nothing |
| BufferExample.FullBufferRejects | example_test.go:23-25 | a full buffer rejects every add and stays as it is |
| BufferExample.Repeat | example_test.go:62-66 | `k` copies of one message |
| BufferExample.AddedTimes | example_test.go:62-66 | `k` required adds of one message, stopping at the first error: the buffer reached and whether all succeeded |
| BufferExample.AddedTimesFills | example_test.go:62-66 | from an empty buffer, `k` adds with `k` not above the limit all succeed and leave `k` copies |
| BufferExample.AddedTimesStays | example_test.go:62-66 | after a failed add the later required adds do not run |
| BufferExample.Buffer.constructor | example_test.go:33-37 | the harness's `NewInstance`: an empty buffer with the given limit |
| BufferExample.Buffer.Add | example_test.go:22-29 | the buffer and the error after `Add` are as `Added` gives; the limit never changes |
| BufferExample.FillToLimit | example_test.go:62-66 | the `BeforeCall` of "Buffer is full": `limit` required adds of the input, stopping at the first failure |
| BufferExample.LimitTenCase | example_test.go:42-54 | a fresh buffer of limit 10 plus one add: no error, and the buffer holds exactly the input |
| BufferExample.BufferFullCase | example_test.go:55-71 | ten successful adds, then the `Target` add returns `ErrBufferIsFull` and the buffer holds the ten messages |
| BufferExample.ExampleSkippedCase | example_test.go:73-81 | the skipped case starts its sub-run and is skipped: no buffer is built (despite the limit of -1) and no hook runs |
| BufferExample.ExampleTrace | example_test.go:31-89 | the whole example run, with quiet callbacks, is exactly the three cases' events in order: build, add and check for the first; build, fill, add and check for the second; a skip for the third |

## Left out

- The host runner is not part of this model. This covers `testing.T`/`testing.B`, `t.Run`, `t.Skip`, `t.Cleanup`, the runner's `ResetTimer`/`StopTimer` around the timed loop, `b.ReportMetric` and benchmark calibration. They appear as trace events (`SubRunStarted`, `Skipped`, `CleanupRegistered`, `TimerReset`, `TimerStopped`, `MetricsReported`) for one given `b.N >= 1`.
- Context.Ctx.ReportMetric: the `StopTimer`/`defer StartTimer` bracket around the accumulation is not modelled, so the model does not capture that metric bookkeeping inside the timed loop goes untimed, nor that a `ReportMetric` in `Check` restarts the timer after the runner stopped it.
- testify's `assert`/`require` comparisons are outside the model. A callback's fatal failure is a flag of the environment, and a failing non-fatal assertion is not observed.
- The embedded `context.Context` is never used and is not modelled.
- `value/float64(b.N)` is modelled on `real`, so floating-point rounding is not captured.
- helpers.go (`MustAssert`) and mesa_test.go are not part of this model.
- Sub-tests may run in parallel on the host, but the code has no concurrency of its own; everything here runs sequentially.
- A nil `Target` or `NewInstance` is ruled out by the types: `Target` is a `HookId` and the constructor is `NewWith` or the adapter's `ReturnNil`.
- The dead `result` variable of `MethodBenchmarkMesa.Run` has no effect and is not modelled.
- `NewErrorPair` and `Empty` are a convenience constructor and a type alias that no modelled operation uses.
- The example builds its harness as `mesa.Mesa[...]`/`mesa.Case[...]`, names the library no longer defines. It is modelled as the method harness and method case those names stood for.
- Only one panic is modelled: the call of the nil `InputFn` the adapter installs. Other user callbacks are assumed not to panic.
- Values, fields, inputs and outputs are integers chosen by the environment. The callbacks' use of `SetValue`/`GetValue` is abstracted into that environment.
- The metrics are reported as one event holding the whole averaged table, because Go ranges over a map in unspecified order.
- Runner.CleanupCase: requires the sub-run not to have crashed, because a panic can only come before the cleanup is registered.
- Harness.CheckAndSet: writing through the `*T` pointer is modelled as a function returning the destination's new value.
- Runner.RunCase, Runner.RunMesa, Runner.RunAll: each callback is one method call whose outcome the environment gives. A user callback's own effects on the instance are not modelled. `BufferExample` models those effects separately for the example's callbacks.

## Findings

| source | as written | input that shows it | evidently intended | confidence | as-written member | corrected member |
|---|---|---|---|---|---|---|
| mesa.go:328-330 | `FunctionMesa.Run` gives every adapted case an `InputFn` that calls the function case's `InputFn`, even when that is nil | a `FunctionMesa` whose case sets `Input` but no `InputFn` (and is not skipped): the adapted case calls the nil function and panics before `Target` runs | install the forwarding `InputFn` only when the case has one, through `checkAndSet` like every other optional hook, so that the literal `Input` is used | not executed | AdapterProperties.AsWrittenHarnessCrashes | AdapterProperties.CorrectedNeverCrashes |
