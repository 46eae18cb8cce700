/**
  What each event of a case's sub-run carries (mesa.go:184-228, 431-490): the
  hook chosen by precedence, the provider's values over the literals, the one
  instance and the one resolved input throughout, and `Target`'s output.
 */
module CaseHooks {
  import opened Wrappers
  import opened Context
  import opened Harness
  import opened Semantics

  /** The number of the last `Target` call: 0 in a test, `b.N - 1` in a benchmark. */
  function LastIteration(mode: Mode): nat
  {
    match mode
    case Testing => 0
    case Benchmarking(n) => n - 1
  }

  /** The user provider the case's `InputFn` calls, if any. */
  function InputHook(c: Case): Option<HookId>
  {
    match c.inputFn
    case None => None
    case Some(Provide(p)) => Some(p)
    case Some(Forward(inner)) => inner
  }

  /** What event `e` may be, in the sub-run of case `c` at position `i` of harness `h`. */
  predicate Expected(mode: Mode, env: Env, m: Mesa, h: nat, i: nat, c: Case, e: Event)
  {
    var fields := FieldsOf(env, h, i, c);
    var inst := InstOf(env, m, h, i);
    var input := InputOf(env, h, i, c);
    match e
    case InitCalled(_) => false
    case TeardownCalled(_) => false
    case SubRunStarted(name) => name == c.name
    case Skipped(reason) => reason == c.skip && c.skip != ""
    case FieldsFnCalled(p, f) => c.fieldsFn == Some(p) && f == fields
    case InstanceCreated(f, x) => f == fields && x == inst
    case InputFnCalled(p, x, v) => InputHook(c) == Some(p) && x == inst && v == input
    case CleanupRegistered(hook) => hook == Resolve(c.cleanup, m.cleanup)
    case BeforeCallCalled(p, x, v) => Resolve(c.beforeCall, m.beforeCall) == Some(p) && x == inst && v == input
    case TimerReset => mode.Benchmarking?
    case TargetCalled(p, k, x, v, out) =>
      p == m.target && k <= LastIteration(mode) && x == inst && v == input
      && out == env.value(Call(h, i, TargetStep(k)))
    case TimerStopped => mode.Benchmarking?
    case MetricsReported(_) => mode.Benchmarking?
    case CheckCalled(p, x, v, out) =>
      Resolve(c.check, m.check) == Some(p) && x == inst && v == input
      && out == env.value(Call(h, i, TargetStep(LastIteration(mode))))
    case CleanupCalled(p, x) => Resolve(c.cleanup, m.cleanup) == Some(p) && x == inst
    case FatalFailure => true
    case Panicked => c.inputFn == Some(Forward(None))
  }

  predicate AllExpected(mode: Mode, env: Env, m: Mesa, h: nat, i: nat, c: Case, t: seq<Event>)
  {
    forall e | e in t :: Expected(mode, env, m, h, i, c, e)
  }

  lemma {:induction false} TargetLoopEvents(mode: Mode, env: Env, r: Run, target: HookId, h: nat, i: nat, inst: Inst, input: int, n: nat)
    ensures forall e | e in TargetLoop(mode, env, r, target, h, i, inst, input, n).0.trace ::
      || e in r.trace
      || e == FatalFailure
      || (&& e.TargetCalled? && e.hook == target && e.k < n && e.inst == inst && e.input == input
          && e.out == env.value(Call(h, i, TargetStep(e.k))))
    decreases n
  {
    if n > 0 {
      TargetLoopEvents(mode, env, r, target, h, i, inst, input, n - 1);
    }
  }

  lemma InvokeKeeps(mode: Mode, env: Env, m: Mesa, h: nat, i: nat, c: Case, r: Run, at: Call, e: Event)
    requires AllExpected(mode, env, m, h, i, c, r.trace)
    requires Expected(mode, env, m, h, i, c, e)
    ensures AllExpected(mode, env, m, h, i, c, Invoke(mode, env, r, at, e).trace)
  {
    var r' := Invoke(mode, env, r, at, e);
    assert forall x | x in r'.trace :: x in r.trace || x == e || x == FatalFailure;
  }

  lemma EmitKeeps(mode: Mode, env: Env, m: Mesa, h: nat, i: nat, c: Case, r: Run, e: Event)
    requires AllExpected(mode, env, m, h, i, c, r.trace)
    requires Expected(mode, env, m, h, i, c, e)
    ensures AllExpected(mode, env, m, h, i, c, Emit(r, e).trace)
  {
  }

  lemma PrepareExpected(mode: Mode, env: Env, m: Mesa, h: nat, i: nat, c: Case)
    requires c.skip == ""
    ensures AllExpected(mode, env, m, h, i, c, Prepare(mode, env, m, h, i, c).trace)
  {
    var begun := Run([SubRunStarted(c.name)], map[], Running);
    assert Expected(mode, env, m, h, i, c, SubRunStarted(c.name));
    assert AllExpected(mode, env, m, h, i, c, begun.trace);
    var r1 := FieldsStage(mode, env, c, Call(h, i, FieldsStep), begun);
    if c.fieldsFn.Some? {
      InvokeKeeps(mode, env, m, h, i, c, begun, Call(h, i, FieldsStep), FieldsFnCalled(c.fieldsFn.value, env.value(Call(h, i, FieldsStep))));
    }
    var fields := FieldsOf(env, h, i, c);
    var inst := InstOf(env, m, h, i);
    var r2 := ConstructStage(mode, env, m.newInstance, fields, Call(h, i, NewStep), r1);
    if m.newInstance.ReturnNil? {
      EmitKeeps(mode, env, m, h, i, c, r1, InstanceCreated(fields, NilInst));
    } else {
      InvokeKeeps(mode, env, m, h, i, c, r1, Call(h, i, NewStep), InstanceCreated(fields, inst));
    }
    var at := Call(h, i, InputStep);
    match c.inputFn {
      case None =>
      case Some(Provide(p)) =>
        InvokeKeeps(mode, env, m, h, i, c, r2, at, InputFnCalled(p, inst, env.value(at)));
      case Some(Forward(None)) =>
        assert Expected(mode, env, m, h, i, c, Panicked);
      case Some(Forward(Some(p))) =>
        InvokeKeeps(mode, env, m, h, i, c, r2, at, InputFnCalled(p, inst, env.value(at)));
    }
  }

  lemma ExerciseExpected(mode: Mode, env: Env, m: Mesa, h: nat, i: nat, c: Case, prepared: Run)
    requires AllExpected(mode, env, m, h, i, c, prepared.trace)
    ensures AllExpected(mode, env, m, h, i, c, Exercise(mode, env, m, h, i, c, prepared).0.trace)
    ensures Exercise(mode, env, m, h, i, c, prepared).1 == env.value(Call(h, i, TargetStep(LastIteration(mode))))
  {
    var inst := InstOf(env, m, h, i);
    var input := InputOf(env, h, i, c);
    var r4 := Emit(prepared, CleanupRegistered(Resolve(c.cleanup, m.cleanup)));
    EmitKeeps(mode, env, m, h, i, c, prepared, CleanupRegistered(Resolve(c.cleanup, m.cleanup)));
    var before := Resolve(c.beforeCall, m.beforeCall);
    var r5 := BeforeStage(mode, env, before, inst, input, Call(h, i, BeforeStep), r4);
    if before.Some? {
      InvokeKeeps(mode, env, m, h, i, c, r4, Call(h, i, BeforeStep), BeforeCallCalled(before.value, inst, input));
    }
    match mode
    case Testing =>
      var at := Call(h, i, TargetStep(0));
      InvokeKeeps(mode, env, m, h, i, c, r5, at, TargetCalled(m.target, 0, inst, input, env.value(at)));
    case Benchmarking(n) =>
      var reset := Emit(r5, TimerReset);
      EmitKeeps(mode, env, m, h, i, c, r5, TimerReset);
      TargetLoopEvents(mode, env, reset, m.target, h, i, inst, input, n);
      var (looped, out) := TargetLoop(mode, env, reset, m.target, h, i, inst, input, n);
      assert AllExpected(mode, env, m, h, i, c, looped.trace);
      var stopped := Emit(looped, TimerStopped);
      EmitKeeps(mode, env, m, h, i, c, looped, TimerStopped);
      EmitKeeps(mode, env, m, h, i, c, stopped, MetricsReported(Average(stopped.metrics, n)));
  }

  /**
    Every event of a case is one the runner may produce for it: the resolved hook
    of each kind and no other, the provider's fields and input when a provider is
    present, the constructed instance, and `Check` getting the resolved input and
    the last `Target` output.
   */
  lemma CaseEventsExpected(mode: Mode, env: Env, m: Mesa, h: nat, i: nat, c: Case)
    ensures AllExpected(mode, env, m, h, i, c, CaseRun(mode, env, m, h, i, c).trace)
  {
    if c.skip == "" {
      var prepared := Prepare(mode, env, m, h, i, c);
      PrepareExpected(mode, env, m, h, i, c);
      ExerciseExpected(mode, env, m, h, i, c, prepared);
      var (r6, out) := Exercise(mode, env, m, h, i, c, prepared);
      var inst := InstOf(env, m, h, i);
      var check := Resolve(c.check, m.check);
      var r7 := CheckStage(mode, env, check, inst, InputOf(env, h, i, c), out, Call(h, i, CheckStep), r6);
      if check.Some? {
        InvokeKeeps(mode, env, m, h, i, c, r6, Call(h, i, CheckStep), CheckCalled(check.value, inst, InputOf(env, h, i, c), out));
      }
      var cleanup := Resolve(c.cleanup, m.cleanup);
      if prepared.status == Running && cleanup.Some? {
        InvokeKeeps(mode, env, m, h, i, c, r7.(status := Running), Call(h, i, CleanupStep), CleanupCalled(cleanup.value, inst));
      }
    } else {
      assert Expected(mode, env, m, h, i, c, SubRunStarted(c.name));
      assert Expected(mode, env, m, h, i, c, Skipped(c.skip));
    }
  }
}
