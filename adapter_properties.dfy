/**
  Properties of `FunctionMesa.Run` (mesa.go:289-347), which adapts a function
  harness into a method harness whose instance is always nil.

  As written, the adapter gives every case an `InputFn` that calls the case's
  own `InputFn`, even when that is nil (mesa.go:328-330): a case that relies on
  its literal `Input` calls a nil function and panics. `Adapt(f, false)` models
  the code as written, `Adapt(f, true)` the evident intent (install the wrapper
  only when the case has an `InputFn`, as the adapter does for every other
  optional callback through `checkAndSet`); `AsMesa` and `RunAll` take either.
 */
module AdapterProperties {
  import opened Wrappers
  import opened Context
  import opened Harness
  import opened Semantics
  import opened CaseHooks
  import opened CaseLifecycle
  import opened BatchProperties

  /** A call of a user callback never crashes a run; only a nil call does. */
  lemma InvokeNeverCrashes(mode: Mode, env: Env, r: Run, at: Call, e: Event)
    requires r.status != Crashed
    ensures Invoke(mode, env, r, at, e).status != Crashed
  {
  }

  lemma {:induction false} TargetLoopNeverCrashes(mode: Mode, env: Env, r: Run, target: HookId, h: nat, i: nat, inst: Inst, input: int, n: nat)
    requires r.status != Crashed
    ensures TargetLoop(mode, env, r, target, h, i, inst, input, n).0.status != Crashed
    decreases n
  {
    if n > 0 {
      TargetLoopNeverCrashes(mode, env, r, target, h, i, inst, input, n - 1);
    }
  }

  lemma ExerciseNeverCrashes(mode: Mode, env: Env, m: Mesa, h: nat, i: nat, c: Case, prepared: Run)
    requires prepared.status != Crashed
    ensures Exercise(mode, env, m, h, i, c, prepared).0.status != Crashed
  {
    var inst := InstOf(env, m, h, i);
    var input := InputOf(env, h, i, c);
    var r4 := Emit(prepared, CleanupRegistered(Resolve(c.cleanup, m.cleanup)));
    var r5 := BeforeStage(mode, env, Resolve(c.beforeCall, m.beforeCall), inst, input, Call(h, i, BeforeStep), r4);
    assert r5.status != Crashed;
    if mode.Benchmarking? {
      TargetLoopNeverCrashes(mode, env, Emit(r5, TimerReset), m.target, h, i, inst, input, mode.n);
    }
  }

  /** A case crashes only by calling the nil `InputFn` the as-written adapter installs. */
  lemma CaseCrashesOnlyOnNilInput(mode: Mode, env: Env, m: Mesa, h: nat, i: nat, c: Case)
    requires CaseRun(mode, env, m, h, i, c).status == Crashed
    ensures c.skip == "" && c.inputFn == Some(Forward(None))
  {
    if c.skip == "" {
      var prepared := Prepare(mode, env, m, h, i, c);
      ExerciseNeverCrashesAfter(mode, env, m, h, i, c, prepared);
      PrepareCrashesOnlyOnNilInput(mode, env, m, h, i, c);
    }
  }

  /** The providers and the constructor crash only by calling the nil `InputFn`. */
  lemma PrepareCrashesOnlyOnNilInput(mode: Mode, env: Env, m: Mesa, h: nat, i: nat, c: Case)
    requires Prepare(mode, env, m, h, i, c).status == Crashed
    ensures c.inputFn == Some(Forward(None))
  {
    var begun := Run([SubRunStarted(c.name)], map[], Running);
    var r1 := FieldsStage(mode, env, c, Call(h, i, FieldsStep), begun);
    var r2 := ConstructStage(mode, env, m.newInstance, FieldsOf(env, h, i, c), Call(h, i, NewStep), r1);
    assert r2.status != Crashed;
  }

  /** After the providers, a case ends crashed only if it had already crashed. */
  lemma ExerciseNeverCrashesAfter(mode: Mode, env: Env, m: Mesa, h: nat, i: nat, c: Case, prepared: Run)
    requires c.skip == "" && prepared == Prepare(mode, env, m, h, i, c)
    requires CaseRun(mode, env, m, h, i, c).status == Crashed
    ensures prepared.status == Crashed
  {
    if prepared.status != Crashed {
      ExerciseNeverCrashes(mode, env, m, h, i, c, prepared);
    }
  }

  /**
    As written, a function case that is not skipped and has no `InputFn` starts
    its sub-run, gets the nil instance, and panics calling the nil `InputFn`,
    before its cleanup is registered and before `Target` (mesa.go:328-330).
   */
  lemma AsWrittenCasePanics(mode: Mode, env: Env, f: FunctionMesa, h: nat, i: nat)
    requires i < |f.cases| && f.cases[i].inputFn.None? && f.cases[i].skip == ""
    ensures CaseRun(mode, env, Adapt(f, false), h, i, Adapt(f, false).cases[i])
      == Run([SubRunStarted(f.cases[i].name), InstanceCreated(0, NilInst), Panicked], map[], Crashed)
  {
    var m := Adapt(f, false);
    var c := m.cases[i];
    var prepared := Prepare(mode, env, m, h, i, c);
    assert prepared == Run([SubRunStarted(f.cases[i].name), InstanceCreated(0, NilInst), Panicked], map[], Crashed);
    ExerciseStuck(mode, env, m, h, i, c, prepared);
  }

  /**
    The smallest input that shows it: a function harness without `Init` whose
    first case relies on its literal `Input` crashes the test binary, and its
    `Target` is never called.
   */
  lemma AsWrittenHarnessCrashes(mode: Mode, env: Env, f: FunctionMesa, h: nat)
    requires f.init.None? && |f.cases| >= 1
    requires f.cases[0].inputFn.None? && f.cases[0].skip == ""
    ensures MesaRun(mode, env, Adapt(f, false), h)
      == Run([SubRunStarted(f.cases[0].name), InstanceCreated(0, NilInst), Panicked], map[], Crashed)
  {
    var m := Adapt(f, false);
    var runs := CaseRuns(mode, env, m, h);
    AsWrittenCasePanics(mode, env, f, h, 0);
    assert runs[0] == CaseRun(mode, env, m, h, 0, m.cases[0]);
    assert CasesRun(runs, 0) == ([], false);
    assert [] + runs[0].trace == runs[0].trace;
    assert CasesRun(runs, 1) == ([SubRunStarted(f.cases[0].name), InstanceCreated(0, NilInst), Panicked], true);
    CasesRunStuck(runs, 1, |runs|);
  }

  /**
    `Run(t, ms...)` as written (mesa.go:25-29): when the first harness passed
    is such a function harness, the binary crashes in its first case and no
    harness after it runs.
   */
  lemma AsWrittenRunAllCrashes(env: Env, f: FunctionMesa, rest: seq<Suite>)
    requires f.init.None? && |f.cases| >= 1
    requires f.cases[0].inputFn.None? && f.cases[0].skip == ""
    ensures RunAll(env, [FunctionSuite(f)] + rest, false)
      == Run([SubRunStarted(f.cases[0].name), InstanceCreated(0, NilInst), Panicked], map[], Crashed)
  {
    var suites := [FunctionSuite(f)] + rest;
    var runs := HarnessRuns(env, suites, false);
    AsWrittenHarnessCrashes(Testing, env, f, 0);
    assert runs[0] == MesaRun(Testing, env, Adapt(f, false), 0);
    assert [] + runs[0].trace == runs[0].trace;
    SuitesRunStuck(runs, 1, |runs|);
  }

  /** The corrected adapter installs an `InputFn` exactly when the case has one, and it calls that one. */
  lemma CorrectedInputFn(f: FunctionMesa, i: nat)
    requires i < |f.cases|
    ensures Adapt(f, true).cases[i].inputFn.Some? <==> f.cases[i].inputFn.Some?
    ensures InputHook(Adapt(f, true).cases[i]) == f.cases[i].inputFn
    ensures Adapt(f, true).cases[i].inputFn != Some(Forward(None))
  {
  }

  /** With the correction no function harness crashes: every case runs its own course. */
  lemma CorrectedNeverCrashes(mode: Mode, env: Env, f: FunctionMesa, h: nat)
    ensures MesaRun(mode, env, Adapt(f, true), h).status != Crashed
  {
    var m := Adapt(f, true);
    var runs := CaseRuns(mode, env, m, h);
    forall i | 0 <= i < |runs| ensures runs[i].status != Crashed {
      CorrectedInputFn(f, i);
      if runs[i].status == Crashed {
        CaseCrashesOnlyOnNilInput(mode, env, m, h, i, m.cases[i]);
      }
    }
    CasesRunCrash(runs, |runs|);
    var batch := Run([], map[], Running);
    if m.init.Some? {
      InvokeNeverCrashes(mode, env, batch, Call(h, 0, InitStep), InitCalled(m.init.value));
    }
  }

  /**
    In a corrected function harness every call of `Target` is the harness's own
    function on the case's input: what its `InputFn` returned when it has one,
    its literal `Input` otherwise (mesa.go:301-303, 324-330).
   */
  lemma CorrectedTargetInput(mode: Mode, env: Env, f: FunctionMesa, h: nat, i: nat)
    requires i < |f.cases|
    ensures var c := f.cases[i];
      var input := if c.inputFn.Some? then env.value(Call(h, i, InputStep)) else c.input;
      forall e | e in CaseRun(mode, env, Adapt(f, true), h, i, Adapt(f, true).cases[i]).trace && e.TargetCalled? ::
        e.hook == f.target && e.inst == NilInst && e.input == input
  {
    var m := Adapt(f, true);
    var c := m.cases[i];
    CaseEventsExpected(mode, env, m, h, i, c);
    forall e | e in CaseRun(mode, env, m, h, i, c).trace && e.TargetCalled?
      ensures e.hook == f.target && e.inst == NilInst
      ensures e.input == (if f.cases[i].inputFn.Some? then env.value(Call(h, i, InputStep)) else f.cases[i].input)
    {
      assert Expected(mode, env, m, h, i, c, e);
    }
  }
}
