/**
  The runners as the Go code executes them: a fresh context per case, the loop
  copy `tt` whose `Fields` and `Input` the providers overwrite, cleanup
  registration, the switches over the hooks, the benchmark loop that keeps the
  last output, and the deferred `Teardown` (mesa.go:25-29, 173-230, 289-347,
  418-494). Each method is proved to produce exactly the run its specification
  function in `Semantics` describes; `Host` records what the host observes.
 */
module Runner {
  import opened Wrappers
  import opened Context
  import opened Harness
  import opened Semantics
  import opened CaseHooks
  import opened CaseLifecycle
  import opened BatchProperties
  import opened AdapterProperties

  /** What the host (`testing.T` / `testing.B`) observes. */
  class Host {
    var trace: seq<Event>

    constructor ()
      ensures trace == []
    {
      trace := [];
    }

    method Record(e: Event)
      modifies this
      ensures trace == old(trace) + [e]
    {
      trace := trace + [e];
    }
  }

  /**
    Calls a present user callback, observed as `e`: it makes its `ReportMetric`
    calls on `ctx` (the first one ends it in a correctness run), then fails
    fatally if the environment says so. `ok` is false when the callback did not
    return normally.
   */
  method Callback(mode: Mode, env: Env, ctx: Ctx, host: Host, at: Call, e: Event) returns (ok: bool)
    requires ctx.benchmark == mode.Benchmarking?
    modifies ctx, host
    ensures var r := Invoke(mode, env, Run(old(host.trace), old(ctx.metrics), Running), at, e);
      host.trace == r.trace && ctx.metrics == r.metrics && ok == (r.status == Running)
    ensures ctx.failed == (old(ctx.failed) || !ok)
    ensures ctx.values == old(ctx.values)
  {
    host.Record(e);
    ok := ReportAll(mode, ctx, env.reports(at));
    if ok && env.fatal(at) {
      ctx.FailNow();
      ok := false;
    }
    if !ok {
      host.Record(FatalFailure);
    }
  }

  /**
    The `ReportMetric` calls of one callback, in order. In a correctness run
    the first one fails the run and ends the callback (`ok` false).
   */
  method ReportAll(mode: Mode, ctx: Ctx, reports: seq<Report>) returns (ok: bool)
    requires ctx.benchmark == mode.Benchmarking?
    modifies ctx
    ensures ok == (mode.Benchmarking? || reports == [])
    ensures ok ==> ctx.metrics == AccumulateAll(old(ctx.metrics), reports)
    ensures !ok ==> ctx.metrics == old(ctx.metrics)
    ensures ctx.failed == (old(ctx.failed) || !ok)
    ensures ctx.values == old(ctx.values)
  {
    var k := 0;
    ok := true;
    while k < |reports| && ok
      invariant 0 <= k <= |reports|
      invariant ok ==> ctx.metrics == AccumulateAll(old(ctx.metrics), reports[..k])
      invariant ok && mode.Testing? ==> k == 0
      invariant !ok ==> mode.Testing? && k == 1 && ctx.metrics == old(ctx.metrics)
      invariant ctx.failed == (old(ctx.failed) || !ok)
      invariant ctx.values == old(ctx.values)
    {
      assert reports[..k + 1][..k] == reports[..k];
      ok := ctx.ReportMetric(reports[k].value, reports[k].name);
      k := k + 1;
    }
    if ok {
      assert reports[..k] == reports;
    }
  }

  /** The run `r` seen on a host that had already observed `base`. */
  function Shift(base: seq<Event>, r: Run): Run
  {
    Run(base + r.trace, r.metrics, r.status)
  }

  lemma InvokeShift(mode: Mode, env: Env, base: seq<Event>, r: Run, at: Call, e: Event)
    requires r.status == Running
    ensures Invoke(mode, env, Shift(base, r), at, e) == Shift(base, Invoke(mode, env, r, at, e))
  {
    assert base + r.trace + [e] == base + (r.trace + [e]);
    assert base + r.trace + [e, FatalFailure] == base + (r.trace + [e, FatalFailure]);
  }

  lemma EmitShift(base: seq<Event>, r: Run, e: Event)
    requires r.status == Running
    ensures Emit(Shift(base, r), e) == Shift(base, Emit(r, e))
  {
    assert base + r.trace + [e] == base + (r.trace + [e]);
  }

  /** Once an iteration has failed, the later ones do not run. */
  lemma {:induction false} TargetLoopStays(mode: Mode, env: Env, r: Run, target: HookId, h: nat, i: nat, inst: Inst, input: int, k: nat, n: nat)
    requires k <= n
    requires TargetLoop(mode, env, r, target, h, i, inst, input, k).0.status != Running
    ensures TargetLoop(mode, env, r, target, h, i, inst, input, n).0 == TargetLoop(mode, env, r, target, h, i, inst, input, k).0
    decreases n - k
  {
    if k < n {
      TargetLoopStays(mode, env, r, target, h, i, inst, input, k, n - 1);
    }
  }

  /** Step 2 (mesa.go:192-194): `FieldsFn`, when present, gives the fields. */
  method FieldsCase(mode: Mode, env: Env, c: Case, at: Call, ctx: Ctx, host: Host, ghost base: seq<Event>, ghost r: Run)
    returns (ok: bool, fields: int)
    requires ctx.benchmark == mode.Benchmarking?
    requires r.status == Running && host.trace == base + r.trace && ctx.metrics == r.metrics
    modifies ctx, host
    ensures var r1 := FieldsStage(mode, env, c, at, r);
      host.trace == base + r1.trace && ctx.metrics == r1.metrics && ok == (r1.status == Running)
    ensures fields == ResolvedFields(env, c, at)
  {
    ok := true;
    fields := c.fields;
    if c.fieldsFn.Some? {
      InvokeShift(mode, env, base, r, at, FieldsFnCalled(c.fieldsFn.value, env.value(at)));
      ok := Callback(mode, env, ctx, host, at, FieldsFnCalled(c.fieldsFn.value, env.value(at)));
      fields := env.value(at);
    }
  }

  /** The constructor call (mesa.go:196): the user's `NewInstance`, or the adapter's, which returns nil. */
  method ConstructCase(mode: Mode, env: Env, ctor: Constructor, fields: int, at: Call, ctx: Ctx, host: Host,
                       ghost base: seq<Event>, ghost r: Run)
    returns (ok: bool, inst: Inst)
    requires ctx.benchmark == mode.Benchmarking?
    requires r.status == Running && host.trace == base + r.trace && ctx.metrics == r.metrics
    modifies ctx, host
    ensures var r2 := ConstructStage(mode, env, ctor, fields, at, r);
      host.trace == base + r2.trace && ctx.metrics == r2.metrics && ok == (r2.status == Running)
    ensures inst == Instance(env, ctor, at)
  {
    match ctor {
      case ReturnNil =>
        inst := NilInst;
        EmitShift(base, r, InstanceCreated(fields, inst));
        host.Record(InstanceCreated(fields, inst));
        ok := true;
      case NewWith(_) =>
        inst := Obj(env.value(at));
        InvokeShift(mode, env, base, r, at, InstanceCreated(fields, inst));
        ok := Callback(mode, env, ctx, host, at, InstanceCreated(fields, inst));
    }
  }

  /**
    Step 3 (mesa.go:198-200): `InputFn`, when present, is given the instance
    and gives the input; the adapter's forwarding `InputFn` over a nil
    function panics (`crashed`).
   */
  method InputCase(mode: Mode, env: Env, c: Case, inst: Inst, at: Call, ctx: Ctx, host: Host,
                   ghost base: seq<Event>, ghost r: Run)
    returns (ok: bool, crashed: bool, input: int)
    requires ctx.benchmark == mode.Benchmarking?
    requires r.status == Running && host.trace == base + r.trace && ctx.metrics == r.metrics
    modifies ctx, host
    ensures var r3 := InputStage(mode, env, c, inst, at, r);
      && host.trace == base + r3.trace && ctx.metrics == r3.metrics
      && ok == (r3.status == Running) && crashed == (r3.status == Crashed)
    ensures input == ResolvedInput(env, c, at)
  {
    ok := true;
    crashed := false;
    input := c.input;
    match c.inputFn {
      case None =>
      case Some(Forward(None)) =>
        assert base + r.trace + [Panicked] == base + (r.trace + [Panicked]);
        host.Record(Panicked);
        ok := false;
        crashed := true;
        input := env.value(at);
      case Some(Forward(Some(p))) =>
        InvokeShift(mode, env, base, r, at, InputFnCalled(p, inst, env.value(at)));
        ok := Callback(mode, env, ctx, host, at, InputFnCalled(p, inst, env.value(at)));
        input := env.value(at);
      case Some(Provide(p)) =>
        InvokeShift(mode, env, base, r, at, InputFnCalled(p, inst, env.value(at)));
        ok := Callback(mode, env, ctx, host, at, InputFnCalled(p, inst, env.value(at)));
        input := env.value(at);
    }
  }

  /**
    Steps 2-3 of a case on its fresh context (mesa.go:189-200): `FieldsFn`
    overwrites the loop copy's `Fields`, the constructor builds the instance,
    and `InputFn`, given the instance, overwrites the copy's `Input`. `crashed`
    reports the panic of a nil `InputFn`; `ok` that all of it returned.
   */
  method PrepareCase(mode: Mode, env: Env, m: Mesa, h: nat, i: nat, c: Case, ctx: Ctx, host: Host, ghost base: seq<Event>)
    returns (ok: bool, crashed: bool, tt: Case, inst: Inst)
    requires ctx.benchmark == mode.Benchmarking? && ctx.metrics == map[]
    requires host.trace == base + [SubRunStarted(c.name)]
    modifies ctx, host
    ensures var p := Prepare(mode, env, m, h, i, c);
      && host.trace == base + p.trace && ctx.metrics == p.metrics
      && ok == (p.status == Running) && crashed == (p.status == Crashed)
    ensures ok ==> tt == c.(fields := FieldsOf(env, h, i, c), input := InputOf(env, h, i, c))
    ensures ok ==> inst == InstOf(env, m, h, i)
  {
    ghost var r0 := Run([SubRunStarted(c.name)], map[], Running);
    tt := c;
    crashed := false;
    inst := NilInst;
    var fields;
    ok, fields := FieldsCase(mode, env, c, Call(h, i, FieldsStep), ctx, host, base, r0);
    tt := tt.(fields := fields);
    ghost var r1 := FieldsStage(mode, env, c, Call(h, i, FieldsStep), r0);
    if !ok {
      assert Prepare(mode, env, m, h, i, c) == r1;
      return;
    }
    ok, inst := ConstructCase(mode, env, m.newInstance, tt.fields, Call(h, i, NewStep), ctx, host, base, r1);
    ghost var r2 := ConstructStage(mode, env, m.newInstance, FieldsOf(env, h, i, c), Call(h, i, NewStep), r1);
    if !ok {
      assert Prepare(mode, env, m, h, i, c) == r2;
      return;
    }
    var input;
    ok, crashed, input := InputCase(mode, env, c, inst, Call(h, i, InputStep), ctx, host, base, r2);
    tt := tt.(input := input);
  }

  /**
    The timed loop of a benchmark case (mesa.go:471-474): `Target` on the same
    instance and input `n` times, each output overwriting `out`. A fatal
    failure in an iteration ends the sub-run there.
   */
  method BenchLoop(mode: Mode, env: Env, target: HookId, h: nat, i: nat, inst: Inst, input: int, n: nat,
                   ctx: Ctx, host: Host, ghost base: seq<Event>, ghost r: Run)
    returns (ok: bool, out: int)
    requires ctx.benchmark == mode.Benchmarking?
    requires r.status == Running && host.trace == base + r.trace && ctx.metrics == r.metrics
    modifies ctx, host
    ensures var (looped, last) := TargetLoop(mode, env, r, target, h, i, inst, input, n);
      && host.trace == base + looped.trace && ctx.metrics == looped.metrics
      && ok == (looped.status == Running) && (ok ==> out == last)
  {
    ok := true;
    out := 0;
    var k := 0;
    while k < n && ok
      invariant 0 <= k <= n
      invariant var (looped, last) := TargetLoop(mode, env, r, target, h, i, inst, input, k);
        && host.trace == base + looped.trace && ctx.metrics == looped.metrics
        && ok == (looped.status == Running) && out == last
    {
      var at := Call(h, i, TargetStep(k));
      ghost var prev := TargetLoop(mode, env, r, target, h, i, inst, input, k).0;
      InvokeShift(mode, env, base, prev, at, TargetCalled(target, k, inst, input, env.value(at)));
      ok := Callback(mode, env, ctx, host, at, TargetCalled(target, k, inst, input, env.value(at)));
      out := env.value(at);
      k := k + 1;
    }
    if !ok {
      TargetLoopStays(mode, env, r, target, h, i, inst, input, k, n);
    }
  }

  /**
    The averages a benchmark reports after the timer stop (mesa.go:480-482):
    every metric of the case's context divided by `n`, visited in whatever
    order the map gives.
   */
  method ReportAverages(metrics: map<string, real>, n: nat) returns (avg: map<string, real>)
    requires n >= 1
    ensures avg == Average(metrics, n)
  {
    avg := map[];
    var rest := metrics.Keys;
    while rest != {}
      invariant rest <= metrics.Keys
      invariant avg == map name | name in metrics.Keys - rest :: metrics[name] / (n as real)
      decreases |rest|
    {
      var name :| name in rest;
      avg := avg[name := metrics[name] / (n as real)];
      rest := rest - {name};
    }
  }

  /**
    Step 6 of a case (mesa.go:220 and 467-482): one call of `Target` in a test;
    in a benchmark the timer reset, the loop, the timer stop and the averaged
    metrics. `out` is the output `Check` receives.
   */
  method TargetCase(mode: Mode, env: Env, target: HookId, h: nat, i: nat, inst: Inst, input: int,
                    ctx: Ctx, host: Host, ghost base: seq<Event>, ghost r: Run)
    returns (ok: bool, out: int)
    requires ctx.benchmark == mode.Benchmarking?
    requires r.status == Running && host.trace == base + r.trace && ctx.metrics == r.metrics
    modifies ctx, host
    ensures var (p, last) := TargetPhase(mode, env, r, target, h, i, inst, input);
      && host.trace == base + p.trace && ctx.metrics == p.metrics
      && ok == (p.status == Running) && (ok ==> out == last)
  {
    match mode {
      case Testing =>
        var at := Call(h, i, TargetStep(0));
        InvokeShift(mode, env, base, r, at, TargetCalled(target, 0, inst, input, env.value(at)));
        ok := Callback(mode, env, ctx, host, at, TargetCalled(target, 0, inst, input, env.value(at)));
        out := env.value(at);
      case Benchmarking(n) =>
        ghost var reset := Emit(r, TimerReset);
        EmitShift(base, r, TimerReset);
        host.Record(TimerReset);
        ok, out := BenchLoop(mode, env, target, h, i, inst, input, n, ctx, host, base, reset);
        ghost var looped := TargetLoop(mode, env, reset, target, h, i, inst, input, n).0;
        if ok {
          EmitShift(base, looped, TimerStopped);
          host.Record(TimerStopped);
          ghost var stopped := Emit(looped, TimerStopped);
          var avg := ReportAverages(ctx.metrics, n);
          EmitShift(base, stopped, MetricsReported(avg));
          host.Record(MetricsReported(avg));
        }
    }
  }

  /**
    Steps 4-6 of a case that was prepared (mesa.go:202-220): the cleanup is
    registered, the case's `BeforeCall` or else the harness's runs, then the
    `Target` phase.
   */
  method ExerciseCase(mode: Mode, env: Env, m: Mesa, h: nat, i: nat, c: Case, tt: Case, inst: Inst,
                      ctx: Ctx, host: Host, ghost base: seq<Event>, ghost prepared: Run)
    returns (ok: bool, out: int)
    requires ctx.benchmark == mode.Benchmarking?
    requires prepared.status == Running && host.trace == base + prepared.trace && ctx.metrics == prepared.metrics
    requires tt == c.(fields := FieldsOf(env, h, i, c), input := InputOf(env, h, i, c))
    requires inst == InstOf(env, m, h, i)
    modifies ctx, host
    ensures var (r6, last) := Exercise(mode, env, m, h, i, c, prepared);
      && host.trace == base + r6.trace && ctx.metrics == r6.metrics
      && ok == (r6.status == Running) && (ok ==> out == last)
  {
    var cleanup := None;
    if tt.cleanup.Some? {
      cleanup := tt.cleanup;
    } else if m.cleanup.Some? {
      cleanup := m.cleanup;
    }
    EmitShift(base, prepared, CleanupRegistered(cleanup));
    host.Record(CleanupRegistered(cleanup));
    ghost var r4 := Emit(prepared, CleanupRegistered(Resolve(c.cleanup, m.cleanup)));
    var at := Call(h, i, BeforeStep);
    ok := true;
    if tt.beforeCall.Some? {
      InvokeShift(mode, env, base, r4, at, BeforeCallCalled(tt.beforeCall.value, inst, tt.input));
      ok := Callback(mode, env, ctx, host, at, BeforeCallCalled(tt.beforeCall.value, inst, tt.input));
    } else if m.beforeCall.Some? {
      InvokeShift(mode, env, base, r4, at, BeforeCallCalled(m.beforeCall.value, inst, tt.input));
      ok := Callback(mode, env, ctx, host, at, BeforeCallCalled(m.beforeCall.value, inst, tt.input));
    }
    ghost var r5 := BeforeStage(mode, env, Resolve(c.beforeCall, m.beforeCall), inst, tt.input, at, r4);
    assert host.trace == base + r5.trace && ctx.metrics == r5.metrics && ok == (r5.status == Running);
    if !ok {
      TargetPhaseStuck(mode, env, r5, m.target, h, i, inst, tt.input);
      out := 0;
      return;
    }
    ok, out := TargetCase(mode, env, m.target, h, i, inst, tt.input, ctx, host, base, r5);
  }

  /**
    One case in its own sub-run (mesa.go:185-228 and 432-490): the skip, a
    fresh context, the providers and the constructor, then, once the cleanup is
    registered, `BeforeCall`, `Target`, the case's `Check` or else the
    harness's, and the cleanup, which fires however the sub-run ended.
   */
  method RunCase(mode: Mode, env: Env, m: Mesa, h: nat, i: nat, c: Case, host: Host) returns (status: Status)
    modifies host
    ensures host.trace == old(host.trace) + CaseRun(mode, env, m, h, i, c).trace
    ensures status == CaseRun(mode, env, m, h, i, c).status
  {
    ghost var base := host.trace;
    host.Record(SubRunStarted(c.name));
    if c.skip != "" {
      host.Record(Skipped(c.skip));
      assert base + [SubRunStarted(c.name)] + [Skipped(c.skip)] == base + [SubRunStarted(c.name), Skipped(c.skip)];
      return Running;
    }
    var ctx := new Ctx(mode.Benchmarking?);
    var ok, crashed, tt, inst := PrepareCase(mode, env, m, h, i, c, ctx, host, base);
    ghost var prepared := Prepare(mode, env, m, h, i, c);
    if !ok {
      ExerciseStuck(mode, env, m, h, i, c, prepared);
      status := if crashed then Crashed else Failed;
      return;
    }
    var out;
    ok, out := ExerciseCase(mode, env, m, h, i, c, tt, inst, ctx, host, base, prepared);
    ghost var r6 := Exercise(mode, env, m, h, i, c, prepared).0;
    ExerciseNeverCrashes(mode, env, m, h, i, c, prepared);
    if ok {
      ok := CheckCase(mode, env, tt.check, m.check, inst, tt.input, out, Call(h, i, CheckStep), ctx, host, base, r6);
    }
    ghost var r7 := CheckStage(mode, env, Resolve(c.check, m.check), inst, tt.input, out, Call(h, i, CheckStep), r6);
    status := if ok then Running else Failed;
    status := CleanupCase(mode, env, Resolve(tt.cleanup, m.cleanup), inst, Call(h, i, CleanupStep), status, ctx, host, base, r7);
  }

  /** Step 7 (mesa.go:222-227): the case's `Check`, or else the harness's, on the input and the output. */
  method CheckCase(mode: Mode, env: Env, caseHook: Option<HookId>, mesaHook: Option<HookId>, inst: Inst, input: int, out: int,
                   at: Call, ctx: Ctx, host: Host, ghost base: seq<Event>, ghost r: Run)
    returns (ok: bool)
    requires ctx.benchmark == mode.Benchmarking?
    requires r.status == Running && host.trace == base + r.trace && ctx.metrics == r.metrics
    modifies ctx, host
    ensures var r7 := CheckStage(mode, env, Resolve(caseHook, mesaHook), inst, input, out, at, r);
      host.trace == base + r7.trace && ctx.metrics == r7.metrics && ok == (r7.status == Running)
  {
    ok := true;
    if caseHook.Some? {
      InvokeShift(mode, env, base, r, at, CheckCalled(caseHook.value, inst, input, out));
      ok := Callback(mode, env, ctx, host, at, CheckCalled(caseHook.value, inst, input, out));
    } else if mesaHook.Some? {
      InvokeShift(mode, env, base, r, at, CheckCalled(mesaHook.value, inst, input, out));
      ok := Callback(mode, env, ctx, host, at, CheckCalled(mesaHook.value, inst, input, out));
    }
  }

  /**
    The registered cleanup when the sub-run ends (mesa.go:202-211): it runs
    whether the sub-run was still going or had failed, and a fatal failure in
    it fails the sub-run. `status` is how the sub-run had ended before it; a
    panic can only come before the cleanup is registered.
   */
  method CleanupCase(mode: Mode, env: Env, hook: Option<HookId>, inst: Inst, at: Call, status: Status,
                     ctx: Ctx, host: Host, ghost base: seq<Event>, ghost r: Run)
    returns (final: Status)
    requires ctx.benchmark == mode.Benchmarking?
    requires status != Crashed
    requires r.status == status && host.trace == base + r.trace && ctx.metrics == r.metrics
    modifies ctx, host
    ensures var r8 := CleanupStage(mode, env, hook, true, inst, at, r);
      host.trace == base + r8.trace && ctx.metrics == r8.metrics && final == r8.status
  {
    final := status;
    if hook.Some? {
      InvokeShift(mode, env, base, r.(status := Running), at, CleanupCalled(hook.value, inst));
      var fired := Callback(mode, env, ctx, host, at, CleanupCalled(hook.value, inst));
      if !fired {
        final := Failed;
      }
    }
  }

  /**
    The sub-runs of `CaseRuns`, stated so that they are looked at only where a
    case's run is mentioned: this keeps the body of `CaseRun` out of the loop's
    proof.
   */
  lemma CaseRunsLinked(mode: Mode, env: Env, m: Mesa, h: nat)
    ensures forall j {:trigger CaseRun(mode, env, m, h, j, m.cases[j])} | 0 <= j < |m.cases| ::
      CaseRuns(mode, env, m, h)[j] == CaseRun(mode, env, m, h, j, m.cases[j])
  {
  }

  /** The case at position `k`, as the sub-run `runs[k]` that the harness's specification gives it. */
  method RunCaseAt(mode: Mode, env: Env, m: Mesa, h: nat, k: nat, host: Host, ghost runs: seq<Run>) returns (status: Status)
    requires k < |runs| == |m.cases|
    requires forall j {:trigger CaseRun(mode, env, m, h, j, m.cases[j])} | 0 <= j < |runs| ::
      runs[j] == CaseRun(mode, env, m, h, j, m.cases[j])
    modifies host
    ensures host.trace == old(host.trace) + runs[k].trace && status == runs[k].status
  {
    status := RunCase(mode, env, m, h, k, m.cases[k], host);
  }

  /**
    The loop over the cases (mesa.go:185-229): each case in list order, until
    one crashes the test binary; a failed sub-run does not stop the loop.
   */
  method RunCases(mode: Mode, env: Env, m: Mesa, h: nat, host: Host, ghost base: seq<Event>, ghost runs: seq<Run>)
    returns (crashed: bool)
    requires |runs| == |m.cases| && host.trace == base
    requires forall j {:trigger CaseRun(mode, env, m, h, j, m.cases[j])} | 0 <= j < |runs| ::
      runs[j] == CaseRun(mode, env, m, h, j, m.cases[j])
    modifies host
    ensures host.trace == base + CasesRun(runs, |runs|).0 && crashed == CasesRun(runs, |runs|).1
  {
    var k := 0;
    crashed := false;
    while k < |m.cases| && !crashed
      invariant 0 <= k <= |runs|
      invariant host.trace == base + CasesRun(runs, k).0
      invariant crashed == CasesRun(runs, k).1
    {
      var s := RunCaseAt(mode, env, m, h, k, host, runs);
      crashed := s == Crashed;
      k := k + 1;
    }
    if crashed {
      CasesRunStuck(runs, k, |runs|);
    }
  }

  /**
    `MethodMesa.Run` and `MethodBenchmarkMesa.Run` (mesa.go:173-230, 418-494):
    `Init` on the harness's context, every case in list order, then the
    deferred `Teardown`. A crash ends the test binary; a fatal failure in
    `Init` returns before `Teardown` is deferred.
   */
  method RunMesa(mode: Mode, env: Env, m: Mesa, h: nat, host: Host) returns (status: Status)
    modifies host
    ensures host.trace == old(host.trace) + MesaRun(mode, env, m, h).trace
    ensures status == MesaRun(mode, env, m, h).status
  {
    CaseRunsLinked(mode, env, m, h);
    status := RunBatch(mode, env, m, h, host, CaseRuns(mode, env, m, h));
  }

  /** The body of `RunMesa` for the case sub-runs `runs` the harness's specification gives. */
  method RunBatch(mode: Mode, env: Env, m: Mesa, h: nat, host: Host, ghost runs: seq<Run>) returns (status: Status)
    requires |runs| == |m.cases|
    requires forall j {:trigger CaseRun(mode, env, m, h, j, m.cases[j])} | 0 <= j < |runs| ::
      runs[j] == CaseRun(mode, env, m, h, j, m.cases[j])
    modifies host
    ensures host.trace == old(host.trace) + Batch(mode, env, m, h, runs).trace
    ensures status == Batch(mode, env, m, h, runs).status
  {
    ghost var base := host.trace;
    var ctx := new Ctx(mode.Benchmarking?);
    var ok := InitHarness(mode, env, m.init, h, ctx, host, base);
    ghost var r1 :=
      match m.init
      case None => Run([], map[], Running)
      case Some(p) => Invoke(mode, env, Run([], map[], Running), Call(h, 0, InitStep), InitCalled(p));
    if !ok {
      return Failed;
    }
    var crashed := RunCases(mode, env, m, h, host, base + r1.trace, runs);
    if crashed {
      return Crashed;
    }
    ghost var r2 := r1.(trace := r1.trace + CasesRun(runs, |runs|).0);
    assert host.trace == base + r2.trace;
    status := TeardownHarness(mode, env, m.teardown, h, ctx, host, base, r2);
  }

  /** `Init` on the harness's context (mesa.go:176-178). */
  method InitHarness(mode: Mode, env: Env, init: Option<HookId>, h: nat, ctx: Ctx, host: Host, ghost base: seq<Event>)
    returns (ok: bool)
    requires ctx.benchmark == mode.Benchmarking? && ctx.metrics == map[] && host.trace == base
    modifies ctx, host
    ensures var r1 :=
        match init
        case None => Run([], map[], Running)
        case Some(p) => Invoke(mode, env, Run([], map[], Running), Call(h, 0, InitStep), InitCalled(p));
      host.trace == base + r1.trace && ctx.metrics == r1.metrics && ok == (r1.status == Running)
  {
    ok := true;
    if init.Some? {
      InvokeShift(mode, env, base, Run([], map[], Running), Call(h, 0, InitStep), InitCalled(init.value));
      ok := Callback(mode, env, ctx, host, Call(h, 0, InitStep), InitCalled(init.value));
    }
  }

  /** The deferred `Teardown` on the harness's context, once every case has run (mesa.go:180-182). */
  method TeardownHarness(mode: Mode, env: Env, teardown: Option<HookId>, h: nat, ctx: Ctx, host: Host,
                         ghost base: seq<Event>, ghost r: Run)
    returns (status: Status)
    requires ctx.benchmark == mode.Benchmarking?
    requires r.status == Running && host.trace == base + r.trace && ctx.metrics == r.metrics
    modifies ctx, host
    ensures var r3 :=
        match teardown
        case None => r
        case Some(p) => Invoke(mode, env, r, Call(h, 0, TeardownStep), TeardownCalled(p));
      host.trace == base + r3.trace && status == r3.status
  {
    status := Running;
    if teardown.Some? {
      InvokeShift(mode, env, base, r, Call(h, 0, TeardownStep), TeardownCalled(teardown.value));
      var ok := Callback(mode, env, ctx, host, Call(h, 0, TeardownStep), TeardownCalled(teardown.value));
      status := if ok then Running else Failed;
    }
  }

  /**
    The adapter of `FunctionMesa.Run` (mesa.go:290-344) as the code builds it:
    a method harness with the nil constructor, each optional hook set through
    `checkAndSet`, and a slice of cases filled in place, one per function case.
    As written (`fixed` false) every case gets the forwarding `InputFn`.
   */
  method AdaptHarness(f: FunctionMesa, fixed: bool) returns (m: Mesa)
    ensures m == Adapt(f, fixed)
  {
    var cases := new Case[|f.cases|](_ => Case("", 0, None, 0, None, "", None, None, None));
    for j := 0 to |f.cases|
      invariant forall l | 0 <= l < j :: cases[l] == AdaptCase(f.cases[l], fixed)
    {
      var c := f.cases[j];
      var inputFn := Some(Forward(c.inputFn));
      if fixed {
        inputFn := CheckAndSet(None, c.inputFn.Some?, inputFn);
      }
      var ic := Case(c.name, 0, None, c.input, inputFn, c.skip, None, None, None);
      ic := ic.(beforeCall := CheckAndSet(ic.beforeCall, c.beforeCall.Some?, c.beforeCall));
      ic := ic.(check := CheckAndSet(ic.check, c.check.Some?, c.check));
      ic := ic.(cleanup := CheckAndSet(ic.cleanup, c.cleanup.Some?, c.cleanup));
      cases[j] := ic;
    }
    m := Mesa(None, ReturnNil, f.target, cases[..], None, None, None, None);
    m := m.(init := CheckAndSet(m.init, f.init.Some?, f.init));
    m := m.(beforeCall := CheckAndSet(m.beforeCall, f.beforeCall.Some?, f.beforeCall));
    m := m.(check := CheckAndSet(m.check, f.check.Some?, f.check));
    m := m.(cleanup := CheckAndSet(m.cleanup, f.cleanup.Some?, f.cleanup));
    m := m.(teardown := CheckAndSet(m.teardown, f.teardown.Some?, f.teardown));
  }

  /** `FunctionMesa.Run` (mesa.go:288-347): adapt, then run the method harness on the test handle. */
  method RunFunctionMesa(env: Env, f: FunctionMesa, fixed: bool, h: nat, host: Host) returns (status: Status)
    modifies host
    ensures host.trace == old(host.trace) + MesaRun(Testing, env, Adapt(f, fixed), h).trace
    ensures status == MesaRun(Testing, env, Adapt(f, fixed), h).status
  {
    var m := AdaptHarness(f, fixed);
    status := RunMesa(Testing, env, m, h, host);
  }

  /** The harness at position `k` of `Run(t, ms...)`, as the run `runs[k]` its specification gives it. */
  method RunSuiteAt(env: Env, suites: seq<Suite>, fixed: bool, k: nat, host: Host, ghost runs: seq<Run>) returns (status: Status)
    requires k < |runs| == |suites|
    requires forall j {:trigger MesaRun(Testing, env, AsMesa(suites[j], fixed), j)} | 0 <= j < |runs| ::
      runs[j] == MesaRun(Testing, env, AsMesa(suites[j], fixed), j)
    modifies host
    ensures host.trace == old(host.trace) + runs[k].trace && status == runs[k].status
  {
    assert runs[k] == MesaRun(Testing, env, AsMesa(suites[k], fixed), k);
    match suites[k] {
      case MethodSuite(m) =>
        status := RunMesa(Testing, env, m, k, host);
      case FunctionSuite(f) =>
        status := RunFunctionMesa(env, f, fixed, k, host);
    }
  }

  lemma HarnessRunsLinked(env: Env, suites: seq<Suite>, fixed: bool)
    ensures forall j {:trigger MesaRun(Testing, env, AsMesa(suites[j], fixed), j)} | 0 <= j < |suites| ::
      HarnessRuns(env, suites, fixed)[j] == MesaRun(Testing, env, AsMesa(suites[j], fixed), j)
  {
  }

  /** The loop of `Run(t, ms...)`: harness `k` runs only while the caller's test goes on. */
  method RunSuites(env: Env, suites: seq<Suite>, fixed: bool, host: Host, ghost base: seq<Event>, ghost runs: seq<Run>)
    returns (status: Status)
    requires |runs| == |suites| && host.trace == base
    requires forall j {:trigger MesaRun(Testing, env, AsMesa(suites[j], fixed), j)} | 0 <= j < |runs| ::
      runs[j] == MesaRun(Testing, env, AsMesa(suites[j], fixed), j)
    modifies host
    ensures host.trace == base + SuitesRun(runs, |runs|).trace && status == SuitesRun(runs, |runs|).status
  {
    var k := 0;
    status := Running;
    while k < |suites| && status == Running
      invariant 0 <= k <= |runs|
      invariant host.trace == base + SuitesRun(runs, k).trace
      invariant status == SuitesRun(runs, k).status
    {
      var s := RunSuiteAt(env, suites, fixed, k, host, runs);
      assert base + SuitesRun(runs, k).trace + runs[k].trace == base + (SuitesRun(runs, k).trace + runs[k].trace);
      status := s;
      k := k + 1;
    }
    if status != Running {
      SuitesRunStuck(runs, k, |runs|);
    }
  }

  /**
    `Run(t, ms...)` (mesa.go:25-29): each harness in turn on the caller's test.
    A fatal failure in a harness's `Init` or `Teardown` ends the caller's test,
    and a crash the binary, so the harnesses after it do not run.
   */
  method RunAll(env: Env, suites: seq<Suite>, fixed: bool, host: Host) returns (status: Status)
    modifies host
    ensures host.trace == old(host.trace) + Semantics.RunAll(env, suites, fixed).trace
    ensures status == Semantics.RunAll(env, suites, fixed).status
  {
    HarnessRunsLinked(env, suites, fixed);
    status := RunSuites(env, suites, fixed, host, host.trace, HarnessRuns(env, suites, fixed));
  }
}
