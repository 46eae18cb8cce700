/**
  Ordering within one case (mesa.go:184-228, 431-490): the events of a case's
  sub-run come in the fixed order of the runner, each step at most once, the
  benchmark iterations in increasing order, and after a fatal failure or a
  panic nothing but the registered cleanup.
 */
module CaseOrder {
  import opened Wrappers
  import opened Context
  import opened Harness
  import opened Semantics

  /** The position of an event's step in the runner's fixed order. */
  function Major(e: Event): int
  {
    match e
    case InitCalled(_) => 0
    case SubRunStarted(_) => 1
    case Skipped(_) => 2
    case FieldsFnCalled(_, _) => 3
    case InstanceCreated(_, _) => 4
    case InputFnCalled(_, _, _) => 5
    case CleanupRegistered(_) => 6
    case BeforeCallCalled(_, _, _) => 7
    case TimerReset => 8
    case TargetCalled(_, _, _, _, _) => 9
    case TimerStopped => 10
    case MetricsReported(_) => 11
    case CheckCalled(_, _, _, _) => 12
    case CleanupCalled(_, _) => 13
    case TeardownCalled(_) => 14
    case FatalFailure => 15
    case Panicked => 15
  }

  /** Benchmark iterations are ordered by their number. */
  function Minor(e: Event): nat
  {
    if e.TargetCalled? then e.k else 0
  }

  /** A fatal failure or a panic: the end of the sub-run's own steps. */
  predicate IsStop(e: Event)
  {
    e.FatalFailure? || e.Panicked?
  }

  predicate RankBelow(e: Event, major: int, minor: nat)
  {
    Major(e) < major || (Major(e) == major && Minor(e) < minor)
  }

  /**
    `a` may come before `b`: a stop is followed only by the cleanup (or the
    cleanup's own failure); otherwise steps come in strictly increasing order.
   */
  predicate Precedes(a: Event, b: Event)
  {
    if IsStop(a) then b.CleanupCalled? || b.FatalFailure?
    else IsStop(b) || RankBelow(a, Major(b), Minor(b))
  }

  /** Every earlier event may precede every later one. */
  predicate Sequenced(t: seq<Event>)
  {
    forall i, j | 0 <= i < j < |t| :: Precedes(t[i], t[j])
  }

  /** The invariant kept by each step of a case while it is built. */
  predicate Good(r: Run, major: int, minor: nat)
  {
    && Sequenced(r.trace)
    && (forall e | e in r.trace :: IsStop(e) || Major(e) < 13)
    && (r.status == Running ==> forall e | e in r.trace :: !IsStop(e) && RankBelow(e, major, minor))
  }

  lemma SnocSequenced(t: seq<Event>, x: Event)
    requires Sequenced(t)
    requires forall e | e in t :: Precedes(e, x)
    ensures Sequenced(t + [x])
  {
    var s := t + [x];
    forall i, j | 0 <= i < j < |s| ensures Precedes(s[i], s[j]) {
      if j == |t| {
        assert s[i] in t;
      }
    }
  }

  lemma Weaken(r: Run, major: int, minor: nat, major': int, minor': nat)
    requires Good(r, major, minor)
    requires major < major' || (major == major' && minor <= minor')
    ensures Good(r, major', minor')
  {
  }

  lemma EmitGood(r: Run, e: Event)
    requires Good(r, Major(e), Minor(e)) && !IsStop(e) && Major(e) < 13
    ensures Good(Emit(r, e), Major(e), Minor(e) + 1)
  {
    if r.status == Running {
      SnocSequenced(r.trace, e);
    }
  }

  lemma InvokeGood(mode: Mode, env: Env, r: Run, at: Call, e: Event)
    requires Good(r, Major(e), Minor(e)) && !IsStop(e) && Major(e) < 13
    ensures Good(Invoke(mode, env, r, at, e), Major(e), Minor(e) + 1)
  {
    if r.status == Running {
      SnocSequenced(r.trace, e);
      SnocSequenced(r.trace + [e], FatalFailure);
      assert r.trace + [e, FatalFailure] == r.trace + [e] + [FatalFailure];
    }
  }

  lemma CrashGood(r: Run, major: int, minor: nat)
    requires Good(r, major, minor)
    ensures Good(Crash(r), major, minor)
  {
    if r.status == Running {
      SnocSequenced(r.trace, Panicked);
    }
  }

  lemma {:induction false} TargetLoopGood(mode: Mode, env: Env, r: Run, target: HookId, h: nat, i: nat, inst: Inst, input: int, n: nat)
    requires Good(r, 9, 0)
    ensures Good(TargetLoop(mode, env, r, target, h, i, inst, input, n).0, 9, n)
    decreases n
  {
    if n > 0 {
      TargetLoopGood(mode, env, r, target, h, i, inst, input, n - 1);
      var prev := TargetLoop(mode, env, r, target, h, i, inst, input, n - 1).0;
      var at := Call(h, i, TargetStep(n - 1));
      InvokeGood(mode, env, prev, at, TargetCalled(target, n - 1, inst, input, env.value(at)));
    }
  }

  lemma TargetPhaseGood(mode: Mode, env: Env, r: Run, target: HookId, h: nat, i: nat, inst: Inst, input: int)
    requires Good(r, 8, 0)
    ensures Good(TargetPhase(mode, env, r, target, h, i, inst, input).0, 12, 0)
  {
    match mode
    case Testing =>
      var at := Call(h, i, TargetStep(0));
      Weaken(r, 8, 0, 9, 0);
      InvokeGood(mode, env, r, at, TargetCalled(target, 0, inst, input, env.value(at)));
    case Benchmarking(n) =>
      EmitGood(r, TimerReset);
      var reset := Emit(r, TimerReset);
      Weaken(reset, 8, 1, 9, 0);
      TargetLoopGood(mode, env, reset, target, h, i, inst, input, n);
      var looped := TargetLoop(mode, env, reset, target, h, i, inst, input, n).0;
      Weaken(looped, 9, n, 10, 0);
      EmitGood(looped, TimerStopped);
      var stopped := Emit(looped, TimerStopped);
      Weaken(stopped, 10, 1, 11, 0);
      EmitGood(stopped, MetricsReported(Average(stopped.metrics, n)));
  }

  lemma PrepareGood(mode: Mode, env: Env, m: Mesa, h: nat, i: nat, c: Case)
    ensures Good(Prepare(mode, env, m, h, i, c), 6, 0)
  {
    var begun := Run([SubRunStarted(c.name)], map[], Running);
    var r1 := FieldsStage(mode, env, c, Call(h, i, FieldsStep), begun);
    FieldsStageGood(mode, env, c, Call(h, i, FieldsStep), begun);
    var r2 := ConstructStage(mode, env, m.newInstance, FieldsOf(env, h, i, c), Call(h, i, NewStep), r1);
    ConstructStageGood(mode, env, m.newInstance, FieldsOf(env, h, i, c), Call(h, i, NewStep), r1);
    InputStageGood(mode, env, c, InstOf(env, m, h, i), Call(h, i, InputStep), r2);
  }

  lemma FieldsStageGood(mode: Mode, env: Env, c: Case, at: Call, begun: Run)
    requires begun == Run([SubRunStarted(c.name)], map[], Running)
    ensures Good(FieldsStage(mode, env, c, at, begun), 4, 0)
  {
    var r1 := FieldsStage(mode, env, c, at, begun);
    if c.fieldsFn.Some? {
      InvokeGood(mode, env, begun, at, FieldsFnCalled(c.fieldsFn.value, env.value(at)));
    }
    Weaken(r1, 3, 1, 4, 0);
  }

  lemma ConstructStageGood(mode: Mode, env: Env, ctor: Constructor, fields: int, at: Call, r1: Run)
    requires Good(r1, 4, 0)
    ensures Good(ConstructStage(mode, env, ctor, fields, at, r1), 5, 0)
  {
    var r2 := ConstructStage(mode, env, ctor, fields, at, r1);
    if ctor.ReturnNil? {
      EmitGood(r1, InstanceCreated(fields, NilInst));
    } else {
      InvokeGood(mode, env, r1, at, InstanceCreated(fields, Obj(env.value(at))));
    }
    Weaken(r2, 4, 1, 5, 0);
  }

  lemma InputStageGood(mode: Mode, env: Env, c: Case, inst: Inst, at: Call, r2: Run)
    requires Good(r2, 5, 0)
    ensures Good(InputStage(mode, env, c, inst, at, r2), 6, 0)
  {
    var r3 := InputStage(mode, env, c, inst, at, r2);
    match c.inputFn {
      case None =>
      case Some(Provide(p)) =>
        InvokeGood(mode, env, r2, at, InputFnCalled(p, inst, env.value(at)));
      case Some(Forward(None)) =>
        CrashGood(r2, 5, 0);
      case Some(Forward(Some(p))) =>
        InvokeGood(mode, env, r2, at, InputFnCalled(p, inst, env.value(at)));
    }
    Weaken(r3, 5, 1, 6, 0);
  }

  lemma ExerciseGood(mode: Mode, env: Env, m: Mesa, h: nat, i: nat, c: Case, prepared: Run)
    requires Good(prepared, 6, 0)
    ensures Good(Exercise(mode, env, m, h, i, c, prepared).0, 12, 0)
  {
    var inst := InstOf(env, m, h, i);
    var input := InputOf(env, h, i, c);
    var r4 := Emit(prepared, CleanupRegistered(Resolve(c.cleanup, m.cleanup)));
    EmitGood(prepared, CleanupRegistered(Resolve(c.cleanup, m.cleanup)));
    Weaken(r4, 6, 1, 7, 0);
    var before := Resolve(c.beforeCall, m.beforeCall);
    var r5 := BeforeStage(mode, env, before, inst, input, Call(h, i, BeforeStep), r4);
    if before.Some? {
      InvokeGood(mode, env, r4, Call(h, i, BeforeStep), BeforeCallCalled(before.value, inst, input));
    }
    Weaken(r5, 7, 1, 8, 0);
    TargetPhaseGood(mode, env, r5, m.target, h, i, inst, input);
  }

  lemma CleanupStageSequenced(mode: Mode, env: Env, hook: Option<HookId>, registered: bool, inst: Inst, at: Call, r: Run)
    requires Good(r, 13, 0)
    ensures Sequenced(CleanupStage(mode, env, hook, registered, inst, at, r).trace)
  {
    if registered && hook.Some? {
      var e := CleanupCalled(hook.value, inst);
      assert forall x | x in r.trace :: Precedes(x, e);
      SnocSequenced(r.trace, e);
      SnocSequenced(r.trace + [e], FatalFailure);
      assert r.trace + [e, FatalFailure] == r.trace + [e] + [FatalFailure];
    }
  }

  /** Every case's events are in the runner's order (see `Precedes`). */
  lemma CaseSequenced(mode: Mode, env: Env, m: Mesa, h: nat, i: nat, c: Case)
    ensures Sequenced(CaseRun(mode, env, m, h, i, c).trace)
  {
    if c.skip == "" {
      var prepared := Prepare(mode, env, m, h, i, c);
      PrepareGood(mode, env, m, h, i, c);
      ExerciseGood(mode, env, m, h, i, c, prepared);
      var ex := Exercise(mode, env, m, h, i, c, prepared);
      var inst := InstOf(env, m, h, i);
      var check := Resolve(c.check, m.check);
      var r7 := CheckStage(mode, env, check, inst, InputOf(env, h, i, c), ex.1, Call(h, i, CheckStep), ex.0);
      if check.Some? {
        InvokeGood(mode, env, ex.0, Call(h, i, CheckStep), CheckCalled(check.value, inst, InputOf(env, h, i, c), ex.1));
      }
      Weaken(r7, 12, 1, 13, 0);
      CleanupStageSequenced(mode, env, Resolve(c.cleanup, m.cleanup), prepared.status == Running, inst, Call(h, i, CleanupStep), r7);
      CaseRunUnfold(mode, env, m, h, i, c);
    } else {
      var t := [SubRunStarted(c.name), Skipped(c.skip)];
      assert Precedes(t[0], t[1]);
    }
  }
}
