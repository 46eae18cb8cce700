/**
  Which steps of a case run (mesa.go:184-228, 431-490): none for a skipped case;
  every step, each resolved hook and `N` calls of `Target` for a case that runs
  to the end; the registered cleanup exactly when the providers and the
  constructor succeeded, however the rest ends; and the benchmark's averaged
  metrics.
 */
module CaseLifecycle {
  import opened Wrappers
  import opened Context
  import opened Harness
  import opened Semantics
  import opened CaseHooks

  /** The events of `Target` calls 0 .. n-1 on the case's instance and input. */
  function TargetCalls(env: Env, target: HookId, h: nat, i: nat, inst: Inst, input: int, n: nat): (t: seq<Event>)
    ensures |t| == n
    ensures forall k | 0 <= k < n :: t[k] == TargetCalled(target, k, inst, input, env.value(Call(h, i, TargetStep(k))))
    decreases n
  {
    if n == 0 then []
    else TargetCalls(env, target, h, i, inst, input, n - 1) + [TargetCalled(target, n - 1, inst, input, env.value(Call(h, i, TargetStep(n - 1))))]
  }

  /** The metric reports of `Target` calls 0 .. n-1, in call order. */
  function TargetReports(env: Env, h: nat, i: nat, n: nat): seq<Report>
    decreases n
  {
    if n == 0 then [] else TargetReports(env, h, i, n - 1) + env.reports(Call(h, i, TargetStep(n - 1)))
  }

  lemma {:induction false} TargetLoopStuck(mode: Mode, env: Env, r: Run, target: HookId, h: nat, i: nat, inst: Inst, input: int, n: nat)
    requires r.status != Running
    ensures TargetLoop(mode, env, r, target, h, i, inst, input, n).0 == r
    decreases n
  {
    if n > 0 {
      TargetLoopStuck(mode, env, r, target, h, i, inst, input, n - 1);
    }
  }

  lemma {:induction false} TargetLoopGrows(mode: Mode, env: Env, r: Run, target: HookId, h: nat, i: nat, inst: Inst, input: int, n: nat)
    ensures r.trace <= TargetLoop(mode, env, r, target, h, i, inst, input, n).0.trace
    decreases n
  {
    if n > 0 {
      TargetLoopGrows(mode, env, r, target, h, i, inst, input, n - 1);
    }
  }

  /** A loop of `n` iterations that nothing stopped made exactly the `n` calls, and added their reports. */
  lemma {:induction false} TargetLoopCompleted(mode: Mode, env: Env, r: Run, target: HookId, h: nat, i: nat, inst: Inst, input: int, n: nat)
    requires TargetLoop(mode, env, r, target, h, i, inst, input, n).0.status == Running
    ensures r.status == Running
    ensures TargetLoop(mode, env, r, target, h, i, inst, input, n).0.trace == r.trace + TargetCalls(env, target, h, i, inst, input, n)
    ensures mode.Benchmarking? ==>
      TargetLoop(mode, env, r, target, h, i, inst, input, n).0.metrics == AccumulateAll(r.metrics, TargetReports(env, h, i, n))
    decreases n
  {
    if n > 0 {
      var prev := TargetLoop(mode, env, r, target, h, i, inst, input, n - 1).0;
      var at := Call(h, i, TargetStep(n - 1));
      var e := TargetCalled(target, n - 1, inst, input, env.value(at));
      assert TargetLoop(mode, env, r, target, h, i, inst, input, n).0 == Invoke(mode, env, prev, at, e);
      InvokeCompleted(mode, env, prev, at, e);
      TargetLoopCompleted(mode, env, r, target, h, i, inst, input, n - 1);
      assert TargetCalls(env, target, h, i, inst, input, n) == TargetCalls(env, target, h, i, inst, input, n - 1) + [e];
      if mode.Benchmarking? {
        AccumulateAllAppend(r.metrics, TargetReports(env, h, i, n - 1), env.reports(at));
      }
    }
  }

  lemma TargetPhaseStuck(mode: Mode, env: Env, r: Run, target: HookId, h: nat, i: nat, inst: Inst, input: int)
    requires r.status != Running
    ensures TargetPhase(mode, env, r, target, h, i, inst, input).0 == r
  {
    if mode.Benchmarking? {
      TargetLoopStuck(mode, env, r, target, h, i, inst, input, mode.n);
    }
  }

  lemma TargetPhaseGrows(mode: Mode, env: Env, r: Run, target: HookId, h: nat, i: nat, inst: Inst, input: int)
    ensures r.trace <= TargetPhase(mode, env, r, target, h, i, inst, input).0.trace
  {
    if mode.Benchmarking? {
      var reset := Emit(r, TimerReset);
      TargetLoopGrows(mode, env, reset, target, h, i, inst, input, mode.n);
    }
  }

  /**
    What the `Target` phase leaves in the trace when it completes; `total` is
    the metric table at the timer stop, which a benchmark divides by `N`.
   */
  function PhaseEvents(mode: Mode, env: Env, target: HookId, h: nat, i: nat, inst: Inst, input: int, total: map<string, real>): seq<Event>
  {
    match mode
    case Testing => [TargetCalled(target, 0, inst, input, env.value(Call(h, i, TargetStep(0))))]
    case Benchmarking(n) =>
      [TimerReset] + TargetCalls(env, target, h, i, inst, input, n) + [TimerStopped, MetricsReported(Average(total, n))]
  }

  /**
    A `Target` phase that nothing stopped: one call in a test; in a benchmark
    the timer reset, exactly `N` calls, the timer stop and every accumulated
    metric divided by `N` (mesa.go:469-482), and in both the last output kept.
   */
  lemma TargetPhaseCompleted(mode: Mode, env: Env, r: Run, target: HookId, h: nat, i: nat, inst: Inst, input: int)
    requires TargetPhase(mode, env, r, target, h, i, inst, input).0.status == Running
    ensures r.status == Running
    ensures TargetPhase(mode, env, r, target, h, i, inst, input).0.trace
      == r.trace + PhaseEvents(mode, env, target, h, i, inst, input,
                               AccumulateAll(r.metrics, TargetReports(env, h, i, LastIteration(mode) + 1)))
  {
    if mode.Testing? {
      TestPhaseCompleted(mode, env, r, target, h, i, inst, input);
    } else {
      BenchPhaseEvents(mode, env, r, target, h, i, inst, input);
    }
  }

  lemma TestPhaseCompleted(mode: Mode, env: Env, r: Run, target: HookId, h: nat, i: nat, inst: Inst, input: int)
    requires mode.Testing?
    requires TargetPhase(mode, env, r, target, h, i, inst, input).0.status == Running
    ensures r.status == Running
    ensures TargetPhase(mode, env, r, target, h, i, inst, input).0.trace
      == r.trace + PhaseEvents(mode, env, target, h, i, inst, input,
                               AccumulateAll(r.metrics, TargetReports(env, h, i, LastIteration(mode) + 1)))
  {
    var at := Call(h, i, TargetStep(0));
    InvokeCompleted(mode, env, r, at, TargetCalled(target, 0, inst, input, env.value(at)));
  }

  lemma BenchPhaseEvents(mode: Mode, env: Env, r: Run, target: HookId, h: nat, i: nat, inst: Inst, input: int)
    requires mode.Benchmarking?
    requires TargetPhase(mode, env, r, target, h, i, inst, input).0.status == Running
    ensures r.status == Running
    ensures TargetPhase(mode, env, r, target, h, i, inst, input).0.trace
      == r.trace + PhaseEvents(mode, env, target, h, i, inst, input,
                               AccumulateAll(r.metrics, TargetReports(env, h, i, LastIteration(mode) + 1)))
  {
    var n := mode.n;
    BenchPhaseCompleted(mode, env, r, target, h, i, inst, input);
    assert LastIteration(mode) + 1 == n;
    Regroup(r.trace, [TimerReset], TargetCalls(env, target, h, i, inst, input, n),
            [TimerStopped, MetricsReported(Average(AccumulateAll(r.metrics, TargetReports(env, h, i, n)), n))]);
  }

  lemma Regroup<T>(a: seq<T>, b: seq<T>, c: seq<T>, d: seq<T>)
    ensures a + b + c + d == a + (b + c + d)
  {
  }

  lemma BenchPhaseCompleted(mode: Mode, env: Env, r: Run, target: HookId, h: nat, i: nat, inst: Inst, input: int)
    requires mode.Benchmarking?
    requires TargetPhase(mode, env, r, target, h, i, inst, input).0.status == Running
    ensures r.status == Running
    ensures TargetPhase(mode, env, r, target, h, i, inst, input).0.trace
      == r.trace + [TimerReset] + TargetCalls(env, target, h, i, inst, input, mode.n)
         + [TimerStopped, MetricsReported(Average(AccumulateAll(r.metrics, TargetReports(env, h, i, mode.n)), mode.n))]
  {
    var n := mode.n;
    var reset := Emit(r, TimerReset);
    if r.status != Running {
      TargetLoopStuck(mode, env, reset, target, h, i, inst, input, n);
    }
    TargetLoopCompleted(mode, env, reset, target, h, i, inst, input, n);
  }

  /** The output a completed or failed `Target` phase hands to `Check` is that of its last call. */
  lemma TargetPhaseOutput(mode: Mode, env: Env, r: Run, target: HookId, h: nat, i: nat, inst: Inst, input: int)
    ensures TargetPhase(mode, env, r, target, h, i, inst, input).1 == env.value(Call(h, i, TargetStep(LastIteration(mode))))
  {
  }

  lemma ExerciseStuck(mode: Mode, env: Env, m: Mesa, h: nat, i: nat, c: Case, prepared: Run)
    requires prepared.status != Running
    ensures Exercise(mode, env, m, h, i, c, prepared).0 == prepared
  {
    TargetPhaseStuck(mode, env, prepared, m.target, h, i, InstOf(env, m, h, i), InputOf(env, h, i, c));
  }

  lemma ExerciseGrows(mode: Mode, env: Env, m: Mesa, h: nat, i: nat, c: Case, prepared: Run)
    ensures prepared.trace <= Exercise(mode, env, m, h, i, c, prepared).0.trace
  {
    var inst := InstOf(env, m, h, i);
    var input := InputOf(env, h, i, c);
    var r4 := Emit(prepared, CleanupRegistered(Resolve(c.cleanup, m.cleanup)));
    var r5 := BeforeStage(mode, env, Resolve(c.beforeCall, m.beforeCall), inst, input, Call(h, i, BeforeStep), r4);
    TargetPhaseGrows(mode, env, r5, m.target, h, i, inst, input);
    assert prepared.trace <= r4.trace <= r5.trace;
  }

  /** The events of steps 1-3 are the sub-run's start, the providers, the constructor, and a stop. */
  lemma PrepareKinds(mode: Mode, env: Env, m: Mesa, h: nat, i: nat, c: Case)
    ensures forall e | e in Prepare(mode, env, m, h, i, c).trace :: PrepareEvent(e)
  {
    var begun := Run([SubRunStarted(c.name)], map[], Running);
    var r1 := FieldsStage(mode, env, c, Call(h, i, FieldsStep), begun);
    var r2 := ConstructStage(mode, env, m.newInstance, FieldsOf(env, h, i, c), Call(h, i, NewStep), r1);
    FieldsStageKinds(mode, env, c, Call(h, i, FieldsStep), begun);
    ConstructStageKinds(mode, env, m.newInstance, FieldsOf(env, h, i, c), Call(h, i, NewStep), r1);
    InputStageKinds(mode, env, c, InstOf(env, m, h, i), Call(h, i, InputStep), r2);
  }

  lemma InvokeKinds(mode: Mode, env: Env, r: Run, at: Call, e: Event)
    requires forall x | x in r.trace :: PrepareEvent(x)
    requires PrepareEvent(e)
    ensures forall x | x in Invoke(mode, env, r, at, e).trace :: PrepareEvent(x)
  {
  }

  lemma FieldsStageKinds(mode: Mode, env: Env, c: Case, at: Call, r: Run)
    requires forall x | x in r.trace :: PrepareEvent(x)
    ensures forall x | x in FieldsStage(mode, env, c, at, r).trace :: PrepareEvent(x)
  {
    if c.fieldsFn.Some? {
      InvokeKinds(mode, env, r, at, FieldsFnCalled(c.fieldsFn.value, env.value(at)));
    }
  }

  lemma ConstructStageKinds(mode: Mode, env: Env, ctor: Constructor, fields: int, at: Call, r: Run)
    requires forall x | x in r.trace :: PrepareEvent(x)
    ensures forall x | x in ConstructStage(mode, env, ctor, fields, at, r).trace :: PrepareEvent(x)
  {
    if ctor.NewWith? {
      InvokeKinds(mode, env, r, at, InstanceCreated(fields, Obj(env.value(at))));
    }
  }

  lemma InputStageKinds(mode: Mode, env: Env, c: Case, inst: Inst, at: Call, r: Run)
    requires forall x | x in r.trace :: PrepareEvent(x)
    ensures forall x | x in InputStage(mode, env, c, inst, at, r).trace :: PrepareEvent(x)
  {
    match c.inputFn
    case None =>
    case Some(Provide(p)) => InvokeKinds(mode, env, r, at, InputFnCalled(p, inst, env.value(at)));
    case Some(Forward(None)) =>
    case Some(Forward(Some(p))) => InvokeKinds(mode, env, r, at, InputFnCalled(p, inst, env.value(at)));
  }

  /** The kinds of event steps 1-3 can produce. */
  predicate PrepareEvent(e: Event)
  {
    e.SubRunStarted? || e.FieldsFnCalled? || e.InstanceCreated? || e.InputFnCalled? || e.FatalFailure? || e.Panicked?
  }

  lemma InPrefix<T>(x: T, a: seq<T>, b: seq<T>)
    requires x in a && a <= b
    ensures x in b
  {
    var k :| 0 <= k < |a| && a[k] == x;
    assert b[k] == x;
  }

  /**
    The cleanup is registered exactly when the providers and the constructor
    returned, and then the resolved cleanup fires, however `BeforeCall`, `Target`
    or `Check` end (mesa.go:202-211).
   */
  lemma CleanupFiresIffRegistered(mode: Mode, env: Env, m: Mesa, h: nat, i: nat, c: Case)
    requires c.skip == ""
    ensures var t := CaseRun(mode, env, m, h, i, c).trace;
      var cleanup := Resolve(c.cleanup, m.cleanup);
      && (CleanupRegistered(cleanup) in t <==> Prepare(mode, env, m, h, i, c).status == Running)
      && (cleanup.Some? ==>
            (CleanupCalled(cleanup.value, InstOf(env, m, h, i)) in t <==> Prepare(mode, env, m, h, i, c).status == Running))
  {
    if Prepare(mode, env, m, h, i, c).status == Running {
      PreparedCaseRegisters(mode, env, m, h, i, c);
    } else {
      UnpreparedCaseStops(mode, env, m, h, i, c);
      PrepareKinds(mode, env, m, h, i, c);
    }
  }

  /** A case whose providers or constructor stopped it leaves the trace of those steps only. */
  lemma UnpreparedCaseStops(mode: Mode, env: Env, m: Mesa, h: nat, i: nat, c: Case)
    requires c.skip == "" && Prepare(mode, env, m, h, i, c).status != Running
    ensures CaseRun(mode, env, m, h, i, c) == Prepare(mode, env, m, h, i, c)
  {
    ExerciseStuck(mode, env, m, h, i, c, Prepare(mode, env, m, h, i, c));
  }

  /** A prepared case registers its resolved cleanup, and that cleanup fires. */
  lemma PreparedCaseRegisters(mode: Mode, env: Env, m: Mesa, h: nat, i: nat, c: Case)
    requires c.skip == "" && Prepare(mode, env, m, h, i, c).status == Running
    ensures var t := CaseRun(mode, env, m, h, i, c).trace;
      var cleanup := Resolve(c.cleanup, m.cleanup);
      && CleanupRegistered(cleanup) in t
      && (cleanup.Some? ==> CleanupCalled(cleanup.value, InstOf(env, m, h, i)) in t)
  {
    var prepared := Prepare(mode, env, m, h, i, c);
    var ex := Exercise(mode, env, m, h, i, c, prepared);
    var inst := InstOf(env, m, h, i);
    var cleanup := Resolve(c.cleanup, m.cleanup);
    var r7 := CheckStage(mode, env, Resolve(c.check, m.check), inst, InputOf(env, h, i, c), ex.1, Call(h, i, CheckStep), ex.0);
    ExerciseRegisters(mode, env, m, h, i, c, prepared);
    CleanupStageFires(mode, env, cleanup, inst, Call(h, i, CleanupStep), r7);
    assert ex.0.trace <= r7.trace;
    InPrefix(CleanupRegistered(cleanup), ex.0.trace, CaseRun(mode, env, m, h, i, c).trace);
  }

  /** A registered cleanup fires after everything before it. */
  lemma CleanupStageFires(mode: Mode, env: Env, hook: Option<HookId>, inst: Inst, at: Call, r: Run)
    ensures r.trace <= CleanupStage(mode, env, hook, true, inst, at, r).trace
    ensures hook.Some? ==> CleanupCalled(hook.value, inst) in CleanupStage(mode, env, hook, true, inst, at, r).trace
  {
    if hook.Some? {
      var t := CleanupStage(mode, env, hook, true, inst, at, r).trace;
      assert t[|r.trace|] == CleanupCalled(hook.value, inst);
    }
  }

  /** A prepared case registers its resolved cleanup before anything else can stop it. */
  lemma ExerciseRegisters(mode: Mode, env: Env, m: Mesa, h: nat, i: nat, c: Case, prepared: Run)
    requires prepared.status == Running
    ensures CleanupRegistered(Resolve(c.cleanup, m.cleanup)) in Exercise(mode, env, m, h, i, c, prepared).0.trace
  {
    var inst := InstOf(env, m, h, i);
    var input := InputOf(env, h, i, c);
    var r4 := Emit(prepared, CleanupRegistered(Resolve(c.cleanup, m.cleanup)));
    var r5 := BeforeStage(mode, env, Resolve(c.beforeCall, m.beforeCall), inst, input, Call(h, i, BeforeStep), r4);
    TargetPhaseGrows(mode, env, r5, m.target, h, i, inst, input);
    assert r4.trace <= r5.trace;
    InPrefix(CleanupRegistered(Resolve(c.cleanup, m.cleanup)), r4.trace, Exercise(mode, env, m, h, i, c, prepared).0.trace);
  }

  /** The reports of a callback that runs only when `present`. */
  function ReportsIf(present: bool, reports: seq<Report>): seq<Report>
  {
    if present then reports else []
  }

  /**
    Everything a case's callbacks report before `Check`: the providers, the
    constructor, `BeforeCall` and `n` calls of `Target`, in call order.
   */
  function CaseReports(env: Env, m: Mesa, h: nat, i: nat, c: Case, n: nat): seq<Report>
  {
    ReportsIf(c.fieldsFn.Some?, env.reports(Call(h, i, FieldsStep)))
    + ReportsIf(m.newInstance.NewWith?, env.reports(Call(h, i, NewStep)))
    + ReportsIf(c.inputFn.Some?, env.reports(Call(h, i, InputStep)))
    + ReportsIf(Resolve(c.beforeCall, m.beforeCall).Some?, env.reports(Call(h, i, BeforeStep)))
    + TargetReports(env, h, i, n)
  }

  lemma InvokeCompleted(mode: Mode, env: Env, r: Run, at: Call, e: Event)
    requires Invoke(mode, env, r, at, e).status == Running
    ensures r.status == Running
    ensures Invoke(mode, env, r, at, e).trace == r.trace + [e]
    ensures Invoke(mode, env, r, at, e).metrics == AccumulateAll(r.metrics, env.reports(at))
    ensures mode.Testing? ==> env.reports(at) == []
  {
  }

  function FieldsEvents(env: Env, c: Case, at: Call): seq<Event>
  {
    match c.fieldsFn
    case None => []
    case Some(p) => [FieldsFnCalled(p, env.value(at))]
  }

  function InputEvents(env: Env, c: Case, inst: Inst, at: Call): seq<Event>
  {
    match InputHook(c)
    case None => []
    case Some(p) => [InputFnCalled(p, inst, env.value(at))]
  }

  function BeforeEvents(hook: Option<HookId>, inst: Inst, input: int): seq<Event>
  {
    match hook
    case None => []
    case Some(p) => [BeforeCallCalled(p, inst, input)]
  }

  lemma FieldsStageCompleted(mode: Mode, env: Env, c: Case, at: Call, r: Run)
    requires FieldsStage(mode, env, c, at, r).status == Running
    ensures r.status == Running
    ensures FieldsStage(mode, env, c, at, r).trace == r.trace + FieldsEvents(env, c, at)
    ensures FieldsStage(mode, env, c, at, r).metrics == AccumulateAll(r.metrics, ReportsIf(c.fieldsFn.Some?, env.reports(at)))
  {
  }

  lemma ConstructStageCompleted(mode: Mode, env: Env, ctor: Constructor, fields: int, at: Call, r: Run)
    requires ConstructStage(mode, env, ctor, fields, at, r).status == Running
    ensures r.status == Running
    ensures ConstructStage(mode, env, ctor, fields, at, r).trace == r.trace + [InstanceCreated(fields, Instance(env, ctor, at))]
    ensures ConstructStage(mode, env, ctor, fields, at, r).metrics == AccumulateAll(r.metrics, ReportsIf(ctor.NewWith?, env.reports(at)))
  {
  }

  lemma InputStageCompleted(mode: Mode, env: Env, c: Case, inst: Inst, at: Call, r: Run)
    requires InputStage(mode, env, c, inst, at, r).status == Running
    ensures r.status == Running
    ensures InputStage(mode, env, c, inst, at, r).trace == r.trace + InputEvents(env, c, inst, at)
    ensures InputStage(mode, env, c, inst, at, r).metrics == AccumulateAll(r.metrics, ReportsIf(c.inputFn.Some?, env.reports(at)))
  {
  }

  lemma BeforeStageCompleted(mode: Mode, env: Env, hook: Option<HookId>, inst: Inst, input: int, at: Call, r: Run)
    requires BeforeStage(mode, env, hook, inst, input, at, r).status == Running
    ensures r.status == Running
    ensures BeforeStage(mode, env, hook, inst, input, at, r).trace == r.trace + BeforeEvents(hook, inst, input)
    ensures BeforeStage(mode, env, hook, inst, input, at, r).metrics == AccumulateAll(r.metrics, ReportsIf(hook.Some?, env.reports(at)))
  {
  }

  lemma PrepareCompleted(mode: Mode, env: Env, m: Mesa, h: nat, i: nat, c: Case)
    requires Prepare(mode, env, m, h, i, c).status == Running
    ensures Prepare(mode, env, m, h, i, c).trace
      == [SubRunStarted(c.name)] + FieldsEvents(env, c, Call(h, i, FieldsStep))
         + [InstanceCreated(FieldsOf(env, h, i, c), InstOf(env, m, h, i))]
         + InputEvents(env, c, InstOf(env, m, h, i), Call(h, i, InputStep))
    ensures Prepare(mode, env, m, h, i, c).metrics
      == AccumulateAll(map[], ReportsIf(c.fieldsFn.Some?, env.reports(Call(h, i, FieldsStep)))
                              + ReportsIf(m.newInstance.NewWith?, env.reports(Call(h, i, NewStep)))
                              + ReportsIf(c.inputFn.Some?, env.reports(Call(h, i, InputStep))))
  {
    var begun := Run([SubRunStarted(c.name)], map[], Running);
    var fields := FieldsOf(env, h, i, c);
    var inst := InstOf(env, m, h, i);
    var r1 := FieldsStage(mode, env, c, Call(h, i, FieldsStep), begun);
    var r2 := ConstructStage(mode, env, m.newInstance, fields, Call(h, i, NewStep), r1);
    InputStageCompleted(mode, env, c, inst, Call(h, i, InputStep), r2);
    ConstructStageCompleted(mode, env, m.newInstance, fields, Call(h, i, NewStep), r1);
    FieldsStageCompleted(mode, env, c, Call(h, i, FieldsStep), begun);
    var rf := ReportsIf(c.fieldsFn.Some?, env.reports(Call(h, i, FieldsStep)));
    var rn := ReportsIf(m.newInstance.NewWith?, env.reports(Call(h, i, NewStep)));
    var ri := ReportsIf(c.inputFn.Some?, env.reports(Call(h, i, InputStep)));
    AccumulateAllAppend(map[], rf, rn);
    AccumulateAllAppend(map[], rf + rn, ri);
  }

  lemma ExerciseCompleted(mode: Mode, env: Env, m: Mesa, h: nat, i: nat, c: Case, prepared: Run)
    requires Exercise(mode, env, m, h, i, c, prepared).0.status == Running
    ensures prepared.status == Running
    ensures Exercise(mode, env, m, h, i, c, prepared).0.trace
      == prepared.trace + [CleanupRegistered(Resolve(c.cleanup, m.cleanup))]
         + BeforeEvents(Resolve(c.beforeCall, m.beforeCall), InstOf(env, m, h, i), InputOf(env, h, i, c))
         + PhaseEvents(mode, env, m.target, h, i, InstOf(env, m, h, i), InputOf(env, h, i, c),
             AccumulateAll(prepared.metrics,
               ReportsIf(Resolve(c.beforeCall, m.beforeCall).Some?, env.reports(Call(h, i, BeforeStep)))
               + TargetReports(env, h, i, LastIteration(mode) + 1)))
  {
    var inst := InstOf(env, m, h, i);
    var input := InputOf(env, h, i, c);
    var before := Resolve(c.beforeCall, m.beforeCall);
    var r4 := Emit(prepared, CleanupRegistered(Resolve(c.cleanup, m.cleanup)));
    var r5 := BeforeStage(mode, env, before, inst, input, Call(h, i, BeforeStep), r4);
    TargetPhaseCompleted(mode, env, r5, m.target, h, i, inst, input);
    BeforeStageCompleted(mode, env, before, inst, input, Call(h, i, BeforeStep), r4);
    AccumulateAllAppend(prepared.metrics, ReportsIf(before.Some?, env.reports(Call(h, i, BeforeStep))),
                        TargetReports(env, h, i, LastIteration(mode) + 1));
  }

  function CheckEvents(hook: Option<HookId>, inst: Inst, input: int, out: int): seq<Event>
  {
    match hook
    case None => []
    case Some(p) => [CheckCalled(p, inst, input, out)]
  }

  function CleanupEvents(hook: Option<HookId>, inst: Inst): seq<Event>
  {
    match hook
    case None => []
    case Some(p) => [CleanupCalled(p, inst)]
  }

  lemma CheckStageCompleted(mode: Mode, env: Env, hook: Option<HookId>, inst: Inst, input: int, out: int, at: Call, r: Run)
    requires CheckStage(mode, env, hook, inst, input, out, at, r).status == Running
    ensures r.status == Running
    ensures CheckStage(mode, env, hook, inst, input, out, at, r).trace == r.trace + CheckEvents(hook, inst, input, out)
  {
  }

  lemma CleanupStageCompleted(mode: Mode, env: Env, hook: Option<HookId>, registered: bool, inst: Inst, at: Call, r: Run)
    requires CleanupStage(mode, env, hook, registered, inst, at, r).status == Running
    ensures r.status == Running
    ensures CleanupStage(mode, env, hook, registered, inst, at, r).trace
      == r.trace + (if registered then CleanupEvents(hook, inst) else [])
  {
  }

  /** What the `Target` phase of a case that runs to the end leaves in the trace. */
  function TargetEvents(mode: Mode, env: Env, m: Mesa, h: nat, i: nat, c: Case): seq<Event>
  {
    PhaseEvents(mode, env, m.target, h, i, InstOf(env, m, h, i), InputOf(env, h, i, c),
                AccumulateAll(map[], CaseReports(env, m, h, i, c, LastIteration(mode) + 1)))
  }

  /**
    The trace of a case that runs to the end: its sub-run, `FieldsFn`, the
    constructor, `InputFn`, cleanup registration, the resolved `BeforeCall`,
    the `Target` phase, the resolved `Check` on the last output, and the
    resolved cleanup, each once and in this order.
   */
  function CompletedTrace(mode: Mode, env: Env, m: Mesa, h: nat, i: nat, c: Case): seq<Event>
  {
    var inst := InstOf(env, m, h, i);
    var input := InputOf(env, h, i, c);
    var cleanup := Resolve(c.cleanup, m.cleanup);
    [SubRunStarted(c.name)] + FieldsEvents(env, c, Call(h, i, FieldsStep))
    + [InstanceCreated(FieldsOf(env, h, i, c), inst)]
    + InputEvents(env, c, inst, Call(h, i, InputStep))
    + [CleanupRegistered(cleanup)]
    + BeforeEvents(Resolve(c.beforeCall, m.beforeCall), inst, input)
    + TargetEvents(mode, env, m, h, i, c)
    + CheckEvents(Resolve(c.check, m.check), inst, input, env.value(Call(h, i, TargetStep(LastIteration(mode)))))
    + CleanupEvents(cleanup, inst)
  }

  /** The output `Check` receives is the one of the last `Target` call. */
  lemma ExerciseOutput(mode: Mode, env: Env, m: Mesa, h: nat, i: nat, c: Case, prepared: Run)
    ensures Exercise(mode, env, m, h, i, c, prepared).1 == env.value(Call(h, i, TargetStep(LastIteration(mode))))
  {
  }

  lemma ExerciseTrace(mode: Mode, env: Env, m: Mesa, h: nat, i: nat, c: Case, prepared: Run)
    requires Exercise(mode, env, m, h, i, c, prepared).0.status == Running
    requires prepared.metrics == AccumulateAll(map[],
      ReportsIf(c.fieldsFn.Some?, env.reports(Call(h, i, FieldsStep)))
      + ReportsIf(m.newInstance.NewWith?, env.reports(Call(h, i, NewStep)))
      + ReportsIf(c.inputFn.Some?, env.reports(Call(h, i, InputStep))))
    ensures Exercise(mode, env, m, h, i, c, prepared).0.trace
      == prepared.trace + [CleanupRegistered(Resolve(c.cleanup, m.cleanup))]
         + BeforeEvents(Resolve(c.beforeCall, m.beforeCall), InstOf(env, m, h, i), InputOf(env, h, i, c))
         + TargetEvents(mode, env, m, h, i, c)
  {
    ExerciseCompleted(mode, env, m, h, i, c, prepared);
    var rf := ReportsIf(c.fieldsFn.Some?, env.reports(Call(h, i, FieldsStep)));
    var rn := ReportsIf(m.newInstance.NewWith?, env.reports(Call(h, i, NewStep)));
    var ri := ReportsIf(c.inputFn.Some?, env.reports(Call(h, i, InputStep)));
    var rb := ReportsIf(Resolve(c.beforeCall, m.beforeCall).Some?, env.reports(Call(h, i, BeforeStep)));
    var tr := TargetReports(env, h, i, LastIteration(mode) + 1);
    AccumulateAllAppend(prepared.metrics, rb, tr);
    AccumulateAllAppend(map[], rf + rn + ri + rb, tr);
    AccumulateAllAppend(map[], rf + rn + ri, rb);
    assert AccumulateAll(prepared.metrics, rb + tr) == AccumulateAll(map[], CaseReports(env, m, h, i, c, LastIteration(mode) + 1));
  }

  /** A case that is not skipped and ends `Running` leaves exactly `CompletedTrace`. */
  lemma CompletedCaseTrace(mode: Mode, env: Env, m: Mesa, h: nat, i: nat, c: Case)
    requires c.skip == ""
    requires CaseRun(mode, env, m, h, i, c).status == Running
    ensures CaseRun(mode, env, m, h, i, c).trace == CompletedTrace(mode, env, m, h, i, c)
  {
    var prepared := Prepare(mode, env, m, h, i, c);
    var (r6, out) := Exercise(mode, env, m, h, i, c, prepared);
    var inst := InstOf(env, m, h, i);
    var input := InputOf(env, h, i, c);
    var check := Resolve(c.check, m.check);
    var cleanup := Resolve(c.cleanup, m.cleanup);
    var r7 := CheckStage(mode, env, check, inst, input, out, Call(h, i, CheckStep), r6);
    CleanupStageCompleted(mode, env, cleanup, prepared.status == Running, inst, Call(h, i, CleanupStep), r7);
    CheckStageCompleted(mode, env, check, inst, input, out, Call(h, i, CheckStep), r6);
    ExerciseCompleted(mode, env, m, h, i, c, prepared);
    PrepareCompleted(mode, env, m, h, i, c);
    ExerciseTrace(mode, env, m, h, i, c, prepared);
    ExerciseOutput(mode, env, m, h, i, c, prepared);
  }

  /** When each `Target` call reports one metric once, `TargetReports` is that report repeated. */
  lemma {:induction false} TargetReportsConstant(env: Env, h: nat, i: nat, n: nat, name: string, v: real)
    requires forall k | 0 <= k < n :: env.reports(Call(h, i, TargetStep(k))) == [Report(name, v)]
    ensures |TargetReports(env, h, i, n)| == n
    ensures forall k | 0 <= k < n :: TargetReports(env, h, i, n)[k] == Report(name, v)
    decreases n
  {
    if n > 0 {
      TargetReportsConstant(env, h, i, n - 1, name, v);
    }
  }

  /**
    A benchmark whose `Target` reports the same value `v` under `name` on every
    iteration, and whose other callbacks report nothing, reports exactly
    `name: v` once its `b.N` iterations are averaged.
   */
  lemma ConstantMetricAverages(env: Env, m: Mesa, h: nat, i: nat, c: Case, n: Iterations, name: string, v: real)
    requires env.reports(Call(h, i, FieldsStep)) == [] && env.reports(Call(h, i, NewStep)) == []
    requires env.reports(Call(h, i, InputStep)) == [] && env.reports(Call(h, i, BeforeStep)) == []
    requires forall k | 0 <= k < n :: env.reports(Call(h, i, TargetStep(k))) == [Report(name, v)]
    ensures var t := TargetEvents(Benchmarking(n), env, m, h, i, c);
      t[|t| - 1] == MetricsReported(map[name := v])
  {
    var tr := TargetReports(env, h, i, n);
    TargetReportsConstant(env, h, i, n, name, v);
    OnlyTargetReports(env, m, h, i, c, n);
    ConstantReportsAverage(tr, name, v, n);
    TargetEventsLast(env, m, h, i, c, n);
  }

  /** A completed benchmark phase ends with the averages of everything the case reported before `Check`. */
  lemma TargetEventsLast(env: Env, m: Mesa, h: nat, i: nat, c: Case, n: Iterations)
    ensures var t := TargetEvents(Benchmarking(n), env, m, h, i, c);
      |t| >= 1 && t[|t| - 1] == MetricsReported(Average(AccumulateAll(map[], CaseReports(env, m, h, i, c, n)), n))
  {
    PhaseEventsLast(n, env, m.target, h, i, InstOf(env, m, h, i), InputOf(env, h, i, c),
                    AccumulateAll(map[], CaseReports(env, m, h, i, c, n)));
  }

  /** When the providers, the constructor and `BeforeCall` report nothing, a case reports only what `Target` does. */
  lemma OnlyTargetReports(env: Env, m: Mesa, h: nat, i: nat, c: Case, n: nat)
    requires env.reports(Call(h, i, FieldsStep)) == [] && env.reports(Call(h, i, NewStep)) == []
    requires env.reports(Call(h, i, InputStep)) == [] && env.reports(Call(h, i, BeforeStep)) == []
    ensures CaseReports(env, m, h, i, c, n) == TargetReports(env, h, i, n)
  {
    var none: seq<Report> := [];
    var tr := TargetReports(env, h, i, n);
    assert ReportsIf(c.fieldsFn.Some?, env.reports(Call(h, i, FieldsStep))) == none;
    assert ReportsIf(m.newInstance.NewWith?, env.reports(Call(h, i, NewStep))) == none;
    assert ReportsIf(c.inputFn.Some?, env.reports(Call(h, i, InputStep))) == none;
    assert ReportsIf(Resolve(c.beforeCall, m.beforeCall).Some?, env.reports(Call(h, i, BeforeStep))) == none;
    assert none + none + none + none + tr == tr;
  }

  lemma PhaseEventsLast(n: Iterations, env: Env, target: HookId, h: nat, i: nat, inst: Inst, input: int, total: map<string, real>)
    ensures var t := PhaseEvents(Benchmarking(n), env, target, h, i, inst, input, total);
      |t| >= 1 && t[|t| - 1] == MetricsReported(Average(total, n))
  {
  }

  /** A skipped case starts its sub-run, skips it, and calls no callback. */
  lemma SkippedCaseRunsNothing(mode: Mode, env: Env, m: Mesa, h: nat, i: nat, c: Case)
    requires c.skip != ""
    ensures CaseRun(mode, env, m, h, i, c).status == Running
    ensures CaseRun(mode, env, m, h, i, c).trace == [SubRunStarted(c.name), Skipped(c.skip)]
    ensures CaseRun(mode, env, m, h, i, c).metrics == map[]
  {
  }
}
