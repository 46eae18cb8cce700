/**
  What running a harness does, as the sequence of events it produces
  (mesa.go:25-29, 173-230, 288-347, 418-494). User callbacks are abstract: an
  environment says what each call returns, whether it fails fatally, and which
  metrics it reports through its context.
 */
module Semantics {
  import opened Wrappers
  import opened Context
  import opened Harness

  /** The instance under test; NilInst is the nil instance of an adapted function harness. */
  datatype Inst = NilInst | Obj(id: int)

  /** Where a user callback is called. */
  datatype Step =
    | InitStep
    | TeardownStep
    | FieldsStep
    | NewStep
    | InputStep
    | BeforeStep
    | TargetStep(k: nat)
    | CheckStep
    | CleanupStep

  /** One call site: the harness's position in `Run(t, ms...)`, the case's position, the step. */
  datatype Call = Call(harness: nat, index: nat, step: Step)

  /**
    The behaviour of the user callbacks: the value a call returns (fields, instance
    id, input or output), whether it fails fatally (a `require` assertion), and the
    `ReportMetric` calls it makes through its context, in order.
   */
  datatype Env = Env(value: Call -> int, fatal: Call -> bool, reports: Call -> seq<Report>)

  /** The host's iteration count `b.N`, which is at least one. */
  type Iterations = n: nat | 1 <= n witness 1

  /** A correctness run (`*testing.T`) or a benchmark run of `n` iterations (`*testing.B`). */
  datatype Mode = Testing | Benchmarking(n: Iterations)

  /** What the host observes. */
  datatype Event =
    | InitCalled(hook: HookId)
    | TeardownCalled(hook: HookId)
    | SubRunStarted(name: string)
    | Skipped(reason: string)
    | FieldsFnCalled(hook: HookId, fields: int)
    | InstanceCreated(fields: int, inst: Inst)
    | InputFnCalled(hook: HookId, inst: Inst, input: int)
    | CleanupRegistered(cleanup: Option<HookId>)
    | BeforeCallCalled(hook: HookId, inst: Inst, input: int)
    | TimerReset
    | TargetCalled(hook: HookId, k: nat, inst: Inst, input: int, out: int)
    | TimerStopped
    | MetricsReported(averages: map<string, real>)
    | CheckCalled(hook: HookId, inst: Inst, input: int, out: int)
    | CleanupCalled(hook: HookId, inst: Inst)
    | FatalFailure
    | Panicked

  /**
    Running: nothing has stopped the run. Failed: a fatal assertion ended it
    (Go's FailNow: the goroutine exits, registered cleanups still fire).
    Crashed: a panic ended it (cleanups fire, then the test binary dies).
   */
  datatype Status = Running | Failed | Crashed

  /** A run so far: its events, the metrics of its context, and its status. */
  datatype Run = Run(trace: seq<Event>, metrics: map<string, real>, status: Status)

  /** A step of the harness itself: it happens only while the run goes on. */
  function Emit(r: Run, e: Event): Run
  {
    if r.status == Running then r.(trace := r.trace + [e]) else r
  }

  /**
    A call of a present user callback, observed as `e`. Its reports go to the
    context; in a correctness run the first report is a fatal failure, because
    `ReportMetric` asks for the benchmark handle (mesa.go:66-80).
   */
  function Invoke(mode: Mode, env: Env, r: Run, at: Call, e: Event): Run
  {
    if r.status != Running then r
    else
      var reports := env.reports(at);
      if mode.Testing? && reports != [] then Run(r.trace + [e, FatalFailure], r.metrics, Failed)
      else
        var metrics := AccumulateAll(r.metrics, reports);
        if env.fatal(at) then Run(r.trace + [e, FatalFailure], metrics, Failed)
        else Run(r.trace + [e], metrics, Running)
  }

  /** A call of a nil function value: a panic. */
  function Crash(r: Run): Run
  {
    if r.status == Running then Run(r.trace + [Panicked], r.metrics, Crashed) else r
  }

  /** `Fields`, or what `FieldsFn` returns when present (mesa.go:192-194). */
  function ResolvedFields(env: Env, c: Case, at: Call): int
  {
    if c.fieldsFn.Some? then env.value(at) else c.fields
  }

  function FieldsStage(mode: Mode, env: Env, c: Case, at: Call, r: Run): Run
  {
    match c.fieldsFn
    case None => r
    case Some(p) => Invoke(mode, env, r, at, FieldsFnCalled(p, env.value(at)))
  }

  /** The instance `NewInstance` returns (mesa.go:196; the adapter's returns nil, mesa.go:291-293). */
  function Instance(env: Env, ctor: Constructor, at: Call): Inst
  {
    match ctor
    case ReturnNil => NilInst
    case NewWith(_) => Obj(env.value(at))
  }

  function ConstructStage(mode: Mode, env: Env, ctor: Constructor, fields: int, at: Call, r: Run): Run
  {
    match ctor
    case ReturnNil => Emit(r, InstanceCreated(fields, NilInst))
    case NewWith(_) => Invoke(mode, env, r, at, InstanceCreated(fields, Obj(env.value(at))))
  }

  /** `Input`, or what `InputFn` returns when present (mesa.go:198-200). */
  function ResolvedInput(env: Env, c: Case, at: Call): int
  {
    if c.inputFn.Some? then env.value(at) else c.input
  }

  function InputStage(mode: Mode, env: Env, c: Case, inst: Inst, at: Call, r: Run): Run
  {
    match c.inputFn
    case None => r
    case Some(Provide(p)) => Invoke(mode, env, r, at, InputFnCalled(p, inst, env.value(at)))
    case Some(Forward(None)) => Crash(r)
    case Some(Forward(Some(p))) => Invoke(mode, env, r, at, InputFnCalled(p, inst, env.value(at)))
  }

  function BeforeStage(mode: Mode, env: Env, hook: Option<HookId>, inst: Inst, input: int, at: Call, r: Run): Run
  {
    match hook
    case None => r
    case Some(p) => Invoke(mode, env, r, at, BeforeCallCalled(p, inst, input))
  }

  /**
    The first `n` iterations of the benchmark loop (mesa.go:471-474) and the
    output kept by the last one (Go's zero value when there is none).
   */
  function TargetLoop(mode: Mode, env: Env, r: Run, target: HookId, h: nat, i: nat, inst: Inst, input: int, n: nat): (Run, int)
    decreases n
  {
    if n == 0 then (r, 0)
    else
      var (prev, _) := TargetLoop(mode, env, r, target, h, i, inst, input, n - 1);
      var at := Call(h, i, TargetStep(n - 1));
      (Invoke(mode, env, prev, at, TargetCalled(target, n - 1, inst, input, env.value(at))), env.value(at))
  }

  /**
    The call of `Target` (mesa.go:220), or in a benchmark the timed loop of
    `n` calls followed by the averaged metrics (mesa.go:467-482).
   */
  function TargetPhase(mode: Mode, env: Env, r: Run, target: HookId, h: nat, i: nat, inst: Inst, input: int): (Run, int)
  {
    match mode
    case Testing =>
      var at := Call(h, i, TargetStep(0));
      (Invoke(mode, env, r, at, TargetCalled(target, 0, inst, input, env.value(at))), env.value(at))
    case Benchmarking(n) =>
      var (looped, out) := TargetLoop(mode, env, Emit(r, TimerReset), target, h, i, inst, input, n);
      var stopped := Emit(looped, TimerStopped);
      (Emit(stopped, MetricsReported(Average(stopped.metrics, n))), out)
  }

  function CheckStage(mode: Mode, env: Env, hook: Option<HookId>, inst: Inst, input: int, out: int, at: Call, r: Run): Run
  {
    match hook
    case None => r
    case Some(p) => Invoke(mode, env, r, at, CheckCalled(p, inst, input, out))
  }

  /** The registered cleanup fires when the sub-run ends, however it ended (mesa.go:202-211). */
  function CleanupStage(mode: Mode, env: Env, hook: Option<HookId>, registered: bool, inst: Inst, at: Call, r: Run): Run
  {
    if registered && hook.Some? then
      var fired := Invoke(mode, env, r.(status := Running), at, CleanupCalled(hook.value, inst));
      if r.status == Running then fired else fired.(status := r.status)
    else r
  }

  /** The fields, the instance and the input of a case that is not skipped. */
  function FieldsOf(env: Env, h: nat, i: nat, c: Case): int
  {
    ResolvedFields(env, c, Call(h, i, FieldsStep))
  }

  function InstOf(env: Env, m: Mesa, h: nat, i: nat): Inst
  {
    Instance(env, m.newInstance, Call(h, i, NewStep))
  }

  function InputOf(env: Env, h: nat, i: nat, c: Case): int
  {
    ResolvedInput(env, c, Call(h, i, InputStep))
  }

  /** Steps 2-3 of a case: `FieldsFn`, `NewInstance`, `InputFn` (mesa.go:190-200). */
  function Prepare(mode: Mode, env: Env, m: Mesa, h: nat, i: nat, c: Case): Run
  {
    var begun := Run([SubRunStarted(c.name)], map[], Running);
    var r1 := FieldsStage(mode, env, c, Call(h, i, FieldsStep), begun);
    var r2 := ConstructStage(mode, env, m.newInstance, FieldsOf(env, h, i, c), Call(h, i, NewStep), r1);
    InputStage(mode, env, c, InstOf(env, m, h, i), Call(h, i, InputStep), r2)
  }

  /** Steps 4-6: cleanup registration, `BeforeCall`, `Target` (mesa.go:202-220). */
  function Exercise(mode: Mode, env: Env, m: Mesa, h: nat, i: nat, c: Case, prepared: Run): (Run, int)
  {
    var inst := InstOf(env, m, h, i);
    var input := InputOf(env, h, i, c);
    var r4 := Emit(prepared, CleanupRegistered(Resolve(c.cleanup, m.cleanup)));
    var r5 := BeforeStage(mode, env, Resolve(c.beforeCall, m.beforeCall), inst, input, Call(h, i, BeforeStep), r4);
    TargetPhase(mode, env, r5, m.target, h, i, inst, input)
  }

  /** The sub-run of the case at position `i` of harness `h` (mesa.go:185-228, 432-490). */
  function CaseRun(mode: Mode, env: Env, m: Mesa, h: nat, i: nat, c: Case): Run
  {
    if c.skip != "" then Run([SubRunStarted(c.name), Skipped(c.skip)], map[], Running)
    else
      var prepared := Prepare(mode, env, m, h, i, c);
      var (r6, out) := Exercise(mode, env, m, h, i, c, prepared);
      var inst := InstOf(env, m, h, i);
      var r7 := CheckStage(mode, env, Resolve(c.check, m.check), inst, InputOf(env, h, i, c), out, Call(h, i, CheckStep), r6);
      CleanupStage(mode, env, Resolve(c.cleanup, m.cleanup), prepared.status == Running, inst, Call(h, i, CleanupStep), r7)
  }

  /** The steps of a case that is not skipped, one after the other. */
  lemma CaseRunUnfold(mode: Mode, env: Env, m: Mesa, h: nat, i: nat, c: Case)
    requires c.skip == ""
    ensures var prepared := Prepare(mode, env, m, h, i, c);
      var ex := Exercise(mode, env, m, h, i, c, prepared);
      var inst := InstOf(env, m, h, i);
      CaseRun(mode, env, m, h, i, c)
        == CleanupStage(mode, env, Resolve(c.cleanup, m.cleanup), prepared.status == Running, inst, Call(h, i, CleanupStep),
             CheckStage(mode, env, Resolve(c.check, m.check), inst, InputOf(env, h, i, c), ex.1, Call(h, i, CheckStep), ex.0))
  {
  }

  /**
    The sub-runs of every case of harness `h`. Each case gets a context of its
    own (mesa.go:189), so its sub-run depends only on the case and its position.
   */
  function CaseRuns(mode: Mode, env: Env, m: Mesa, h: nat): (runs: seq<Run>)
    ensures |runs| == |m.cases|
    ensures forall i | 0 <= i < |m.cases| :: runs[i] == CaseRun(mode, env, m, h, i, m.cases[i])
  {
    seq(|m.cases|, i requires 0 <= i < |m.cases| => CaseRun(mode, env, m, h, i, m.cases[i]))
  }

  /**
    The events of the first `k` sub-runs, in list order, and whether one of them
    crashed; a crash ends the test binary, so no later case runs.
   */
  function CasesRun(runs: seq<Run>, k: nat): (seq<Event>, bool)
    requires k <= |runs|
  {
    if k == 0 then ([], false)
    else
      var (prev, crashed) := CasesRun(runs, k - 1);
      if crashed then (prev, true)
      else (prev + runs[k - 1].trace, runs[k - 1].status == Crashed)
  }

  /**
    A whole harness whose cases' sub-runs are `runs` (mesa.go:173-185, 418-431):
    `Init` on the batch context, the cases, then the deferred `Teardown`. A
    fatal failure in `Init` ends the caller's test before `Teardown` is deferred.
   */
  function Batch(mode: Mode, env: Env, m: Mesa, h: nat, runs: seq<Run>): Run
  {
    var batch := Run([], map[], Running);
    var r1 :=
      match m.init
      case None => batch
      case Some(p) => Invoke(mode, env, batch, Call(h, 0, InitStep), InitCalled(p));
    if r1.status != Running then r1
    else
      var (cases, crashed) := CasesRun(runs, |runs|);
      var r2 := r1.(trace := r1.trace + cases);
      if crashed then r2.(status := Crashed)
      else
        match m.teardown
        case None => r2
        case Some(p) => Invoke(mode, env, r2, Call(h, 0, TeardownStep), TeardownCalled(p))
  }

  /** `MethodMesa.Run` and `MethodBenchmarkMesa.Run` for harness number `h`. */
  function MesaRun(mode: Mode, env: Env, m: Mesa, h: nat): Run
  {
    Batch(mode, env, m, h, CaseRuns(mode, env, m, h))
  }

  /** A value passed to `Run(t, ms...)`: the two implementations of the `Mesa` interface. */
  datatype Suite = MethodSuite(m: Mesa) | FunctionSuite(f: FunctionMesa)

  /**
    The method harness that runs: a function harness goes through the adapter,
    as written (`fixed` false, mesa.go:289-347) or corrected.
   */
  function AsMesa(s: Suite, fixed: bool): Mesa
  {
    match s
    case MethodSuite(m) => m
    case FunctionSuite(f) => Adapt(f, fixed)
  }

  /** The run each harness passed to `Run(t, ms...)` would have, harness `k` numbered `k`. */
  function HarnessRuns(env: Env, suites: seq<Suite>, fixed: bool): (runs: seq<Run>)
    ensures |runs| == |suites|
    ensures forall k | 0 <= k < |suites| :: runs[k] == MesaRun(Testing, env, AsMesa(suites[k], fixed), k)
  {
    seq(|suites|, k requires 0 <= k < |suites| => MesaRun(Testing, env, AsMesa(suites[k], fixed), k))
  }

  /**
    `Run(t, ms...)` over the first `k` harnesses, whose runs are `runs`
    (mesa.go:25-29). A harness whose `Init` or `Teardown` failed fatally ended
    the caller's test, and a crash ended the binary, so no later harness runs.
   */
  function SuitesRun(runs: seq<Run>, k: nat): Run
    requires k <= |runs|
  {
    if k == 0 then Run([], map[], Running)
    else
      var prev := SuitesRun(runs, k - 1);
      if prev.status != Running then prev
      else Run(prev.trace + runs[k - 1].trace, map[], runs[k - 1].status)
  }

  /** `Run(t, ms...)`, with the adapter as written (`fixed` false) or corrected. */
  function RunAll(env: Env, suites: seq<Suite>, fixed: bool): Run
  {
    SuitesRun(HarnessRuns(env, suites, fixed), |suites|)
  }
}
