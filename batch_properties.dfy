/**
  Properties of a whole harness and of `Run(t, ms...)` (mesa.go:25-29,
  173-185, 418-431): `Init` comes first and a fatal failure in it stops
  everything; the cases run as sub-runs in list order; `Teardown` runs once,
  last, unless a case crashed the binary; the harnesses run in argument order
  until one of them ends the caller's test.
 */
module BatchProperties {
  import opened Wrappers
  import opened Context
  import opened Harness
  import opened Semantics
  import opened CaseOrder
  import opened CaseHooks
  import opened CaseLifecycle

  /** The names of the sub-runs started in `t`, in order. */
  function Names(t: seq<Event>): seq<string>
    decreases |t|
  {
    if t == [] then []
    else
      var last := t[|t| - 1];
      Names(t[..|t| - 1]) + (if last.SubRunStarted? then [last.name] else [])
  }

  /** The names of a list of cases, in order. */
  function CaseNames(cases: seq<Case>): (names: seq<string>)
    ensures |names| == |cases|
    ensures forall k | 0 <= k < |cases| :: names[k] == cases[k].name
    decreases |cases|
  {
    if cases == [] then [] else CaseNames(cases[..|cases| - 1]) + [cases[|cases| - 1].name]
  }

  /** The lists of `groups`, one after the other. */
  function Concat(groups: seq<seq<string>>): seq<string>
    decreases |groups|
  {
    if groups == [] then [] else Concat(groups[..|groups| - 1]) + groups[|groups| - 1]
  }

  /** The case names of each harness `Run(t, ms...)` receives. */
  function SuiteCaseNames(suites: seq<Suite>, fixed: bool): (groups: seq<seq<string>>)
    ensures |groups| == |suites|
    ensures forall k | 0 <= k < |suites| :: groups[k] == CaseNames(AsMesa(suites[k], fixed).cases)
  {
    seq(|suites|, k requires 0 <= k < |suites| => CaseNames(AsMesa(suites[k], fixed).cases))
  }

  lemma NamesSnoc(t: seq<Event>, e: Event)
    ensures Names(t + [e]) == Names(t) + (if e.SubRunStarted? then [e.name] else [])
  {
    assert (t + [e])[..|t + [e]| - 1] == t;
  }

  lemma {:induction false} NamesAppend(a: seq<Event>, b: seq<Event>)
    ensures Names(a + b) == Names(a) + Names(b)
    decreases |b|
  {
    if b == [] {
      assert a + b == a;
    } else {
      assert (a + b)[..|a + b| - 1] == a + b[..|b| - 1];
      NamesAppend(a, b[..|b| - 1]);
    }
  }

  lemma {:induction false} NamesNone(t: seq<Event>)
    requires forall e | e in t :: !e.SubRunStarted?
    ensures Names(t) == []
    decreases |t|
  {
    if t != [] {
      assert forall e | e in t[..|t| - 1] :: e in t;
      NamesNone(t[..|t| - 1]);
    }
  }

  lemma PrepareStartsSubRun(mode: Mode, env: Env, m: Mesa, h: nat, i: nat, c: Case)
    ensures var t := Prepare(mode, env, m, h, i, c).trace;
      |t| >= 1 && t[0] == SubRunStarted(c.name)
  {
    var begun := Run([SubRunStarted(c.name)], map[], Running);
    var r1 := FieldsStage(mode, env, c, Call(h, i, FieldsStep), begun);
    var r2 := ConstructStage(mode, env, m.newInstance, FieldsOf(env, h, i, c), Call(h, i, NewStep), r1);
    assert begun.trace <= r1.trace;
    assert r1.trace <= r2.trace;
    assert r2.trace <= Prepare(mode, env, m, h, i, c).trace;
  }

  lemma CaseExtendsPrepare(mode: Mode, env: Env, m: Mesa, h: nat, i: nat, c: Case)
    requires c.skip == ""
    ensures Prepare(mode, env, m, h, i, c).trace <= CaseRun(mode, env, m, h, i, c).trace
  {
    var prepared := Prepare(mode, env, m, h, i, c);
    var ex := Exercise(mode, env, m, h, i, c, prepared);
    ExerciseGrows(mode, env, m, h, i, c, prepared);
    var inst := InstOf(env, m, h, i);
    var r7 := CheckStage(mode, env, Resolve(c.check, m.check), inst, InputOf(env, h, i, c), ex.1, Call(h, i, CheckStep), ex.0);
    assert ex.0.trace <= r7.trace;
    var r8 := CleanupStage(mode, env, Resolve(c.cleanup, m.cleanup), prepared.status == Running, inst, Call(h, i, CleanupStep), r7);
    assert r7.trace <= r8.trace;
    CaseRunUnfold(mode, env, m, h, i, c);
  }

  /** Every case's trace begins with the start of its sub-run. */
  lemma CaseStartsSubRun(mode: Mode, env: Env, m: Mesa, h: nat, i: nat, c: Case)
    ensures var t := CaseRun(mode, env, m, h, i, c).trace;
      |t| >= 1 && t[0] == SubRunStarted(c.name)
  {
    if c.skip == "" {
      PrepareStartsSubRun(mode, env, m, h, i, c);
      CaseExtendsPrepare(mode, env, m, h, i, c);
    }
  }

  /** Each case starts exactly one sub-run, under its own name (mesa.go:184-185). */
  lemma CaseNamesOne(mode: Mode, env: Env, m: Mesa, h: nat, i: nat, c: Case)
    ensures Names(CaseRun(mode, env, m, h, i, c).trace) == [c.name]
  {
    var t := CaseRun(mode, env, m, h, i, c).trace;
    CaseStartsSubRun(mode, env, m, h, i, c);
    CaseSequenced(mode, env, m, h, i, c);
    forall e | e in t[1..] ensures !e.SubRunStarted? {
      var j :| 0 <= j < |t[1..]| && t[1..][j] == e;
      assert Precedes(t[0], t[j + 1]);
    }
    NamesNone(t[1..]);
    assert t == [t[0]] + t[1..];
    NamesAppend([t[0]], t[1..]);
    assert Names([t[0]]) == [c.name] by {
      assert [t[0]][..0] == [];
    }
  }

  lemma CaseNoBatchEvents(mode: Mode, env: Env, m: Mesa, h: nat, i: nat, c: Case)
    ensures forall e | e in CaseRun(mode, env, m, h, i, c).trace :: !e.InitCalled? && !e.TeardownCalled?
  {
    var t := CaseRun(mode, env, m, h, i, c).trace;
    CaseEventsExpected(mode, env, m, h, i, c);
    forall e | e in t ensures !e.InitCalled? && !e.TeardownCalled? {
      assert Expected(mode, env, m, h, i, c, e);
    }
  }

  /** The sub-runs of a harness's cases, each starting one sub-run under its case's name and calling no batch callback. */
  predicate WellFormedRuns(runs: seq<Run>, cases: seq<Case>)
  {
    && |runs| == |cases|
    && (forall i | 0 <= i < |runs| :: Names(runs[i].trace) == [cases[i].name])
    && (forall i, e | 0 <= i < |runs| && e in runs[i].trace :: !e.InitCalled? && !e.TeardownCalled?)
  }

  lemma CaseRunsWellFormed(mode: Mode, env: Env, m: Mesa, h: nat)
    ensures WellFormedRuns(CaseRuns(mode, env, m, h), m.cases)
  {
    var runs := CaseRuns(mode, env, m, h);
    forall i | 0 <= i < |runs|
      ensures Names(runs[i].trace) == [m.cases[i].name]
      ensures forall e | e in runs[i].trace :: !e.InitCalled? && !e.TeardownCalled?
    {
      CaseNamesOne(mode, env, m, h, i, m.cases[i]);
      CaseNoBatchEvents(mode, env, m, h, i, m.cases[i]);
    }
  }

  /** After a crash no further case runs. */
  lemma {:induction false} CasesRunStuck(runs: seq<Run>, k: nat, k': nat)
    requires k <= k' <= |runs|
    requires CasesRun(runs, k).1
    ensures CasesRun(runs, k') == CasesRun(runs, k)
    decreases k' - k
  {
    if k < k' {
      CasesRunStuck(runs, k, k' - 1);
    }
  }

  /** The sub-run that crashed is the last one the cases' events come from. */
  lemma {:induction false} CasesRunCrash(runs: seq<Run>, k: nat)
    requires k <= |runs|
    ensures CasesRun(runs, k).1 <==> exists i | 0 <= i < k :: runs[i].status == Crashed
  {
    if k > 0 {
      CasesRunCrash(runs, k - 1);
      if runs[k - 1].status == Crashed {
        assert runs[k - 1].status == Crashed;
      }
    }
  }

  /**
    The cases start their sub-runs in list order; when none crashed, every one
    of the first `k` did, and otherwise those up to the one that crashed.
   */
  lemma {:induction false} CasesInOrder(runs: seq<Run>, cases: seq<Case>, k: nat)
    requires WellFormedRuns(runs, cases) && k <= |runs|
    ensures Names(CasesRun(runs, k).0) <= CaseNames(cases[..k])
    ensures !CasesRun(runs, k).1 ==> Names(CasesRun(runs, k).0) == CaseNames(cases[..k])
  {
    if k > 0 {
      CasesInOrder(runs, cases, k - 1);
      var before := CaseNames(cases[..k - 1]);
      assert cases[..k][..k - 1] == cases[..k - 1];
      assert CaseNames(cases[..k]) == before + [cases[k - 1].name];
      var prev := CasesRun(runs, k - 1).0;
      if !CasesRun(runs, k - 1).1 {
        assert CasesRun(runs, k).0 == prev + runs[k - 1].trace;
        NamesAppend(prev, runs[k - 1].trace);
        assert Names(runs[k - 1].trace) == [cases[k - 1].name];
        assert Names(CasesRun(runs, k).0) == before + [cases[k - 1].name];
      } else {
        assert CasesRun(runs, k) == CasesRun(runs, k - 1);
        assert Names(prev) <= before;
      }
    }
  }

  lemma {:induction false} CasesRunNoBatchEvents(runs: seq<Run>, cases: seq<Case>, k: nat)
    requires WellFormedRuns(runs, cases) && k <= |runs|
    ensures forall e | e in CasesRun(runs, k).0 :: !e.InitCalled? && !e.TeardownCalled?
  {
    if k > 0 {
      CasesRunNoBatchEvents(runs, cases, k - 1);
    }
  }

  /** A call of a batch callback fails fatally: it fails the test, or reports a metric in a test. */
  predicate BatchCallFails(mode: Mode, env: Env, at: Call)
  {
    env.fatal(at) || (mode.Testing? && env.reports(at) != [])
  }

  /**
    `Init`, when set, is the first thing a harness does, and it runs once; a
    harness without `Init` never calls one (mesa.go:176-178).
   */
  lemma InitRunsFirst(mode: Mode, env: Env, m: Mesa, h: nat)
    ensures var t := MesaRun(mode, env, m, h).trace;
      m.init.Some? ==> |t| >= 1 && t[0] == InitCalled(m.init.value)
    ensures var t := MesaRun(mode, env, m, h).trace;
      forall j | 0 <= j < |t| && t[j].InitCalled? :: j == 0 && m.init.Some?
  {
    CaseRunsWellFormed(mode, env, m, h);
    BatchInitRunsFirst(mode, env, m, h, CaseRuns(mode, env, m, h));
  }

  /** The same, for any well-formed sub-runs. */
  lemma BatchInitRunsFirst(mode: Mode, env: Env, m: Mesa, h: nat, runs: seq<Run>)
    requires WellFormedRuns(runs, m.cases)
    ensures var t := Batch(mode, env, m, h, runs).trace;
      m.init.Some? ==> |t| >= 1 && t[0] == InitCalled(m.init.value)
    ensures var t := Batch(mode, env, m, h, runs).trace;
      forall j | 0 <= j < |t| && t[j].InitCalled? :: j == 0 && m.init.Some?
  {
    var init, rest := BatchSplit(mode, env, m, h, runs);
  }

  /** A harness's trace is its `Init` events followed by events that call no `Init`. */
  lemma BatchSplit(mode: Mode, env: Env, m: Mesa, h: nat, runs: seq<Run>) returns (init: seq<Event>, rest: seq<Event>)
    requires WellFormedRuns(runs, m.cases)
    ensures Batch(mode, env, m, h, runs).trace == init + rest
    ensures m.init.None? ==> init == []
    ensures m.init.Some? ==> init == [InitCalled(m.init.value)] || init == [InitCalled(m.init.value), FatalFailure]
    ensures forall e | e in rest :: !e.InitCalled?
  {
    var batch := Run([], map[], Running);
    var r1 :=
      match m.init
      case None => batch
      case Some(p) => Invoke(mode, env, batch, Call(h, 0, InitStep), InitCalled(p));
    init := r1.trace;
    var (cases, crashed) := CasesRun(runs, |runs|);
    CasesRunNoBatchEvents(runs, m.cases, |runs|);
    var tail :=
      if crashed || m.teardown.None? then []
      else if BatchCallFails(mode, env, Call(h, 0, TeardownStep)) then [TeardownCalled(m.teardown.value), FatalFailure]
      else [TeardownCalled(m.teardown.value)];
    rest := if r1.status != Running then [] else cases + tail;
    if r1.status == Running {
      assert Batch(mode, env, m, h, runs).trace == r1.trace + cases + tail;
      assert r1.trace + cases + tail == init + rest;
    }
  }

  /**
    A fatal failure in `Init` ends the caller's test before `Teardown` is
    deferred: no case runs and `Teardown` is never called (mesa.go:176-182).
   */
  lemma InitFailureRunsNothingElse(mode: Mode, env: Env, m: Mesa, h: nat)
    requires m.init.Some? && BatchCallFails(mode, env, Call(h, 0, InitStep))
    ensures MesaRun(mode, env, m, h).trace == [InitCalled(m.init.value), FatalFailure]
    ensures MesaRun(mode, env, m, h).status == Failed
  {
  }

  /** A batch callback starts no sub-run. */
  lemma InvokeNames(mode: Mode, env: Env, r: Run, at: Call, e: Event)
    requires !e.SubRunStarted?
    ensures Names(Invoke(mode, env, r, at, e).trace) == Names(r.trace)
  {
    NamesSnoc(r.trace, e);
    NamesSnoc(r.trace + [e], FatalFailure);
    assert r.trace + [e, FatalFailure] == (r.trace + [e]) + [FatalFailure];
  }

  lemma BatchCasesInOrder(mode: Mode, env: Env, m: Mesa, h: nat, runs: seq<Run>)
    requires WellFormedRuns(runs, m.cases)
    requires m.init.Some? ==> !BatchCallFails(mode, env, Call(h, 0, InitStep))
    requires Batch(mode, env, m, h, runs).status != Crashed
    ensures Names(Batch(mode, env, m, h, runs).trace) == CaseNames(m.cases)
  {
    var batch := Run([], map[], Running);
    var r1 :=
      match m.init
      case None => batch
      case Some(p) => Invoke(mode, env, batch, Call(h, 0, InitStep), InitCalled(p));
    if m.init.Some? {
      InvokeNames(mode, env, batch, Call(h, 0, InitStep), InitCalled(m.init.value));
    }
    var (cases, crashed) := CasesRun(runs, |runs|);
    CasesInOrder(runs, m.cases, |runs|);
    assert m.cases[..|runs|] == m.cases;
    NamesAppend(r1.trace, cases);
    var r2 := r1.(trace := r1.trace + cases);
    if m.teardown.Some? {
      InvokeNames(mode, env, r2, Call(h, 0, TeardownStep), TeardownCalled(m.teardown.value));
    }
  }

  /** When `Init` succeeds every case starts its sub-run, in list order, unless one crashed (mesa.go:184-185). */
  lemma HarnessCasesInOrder(mode: Mode, env: Env, m: Mesa, h: nat)
    requires m.init.Some? ==> !BatchCallFails(mode, env, Call(h, 0, InitStep))
    requires MesaRun(mode, env, m, h).status != Crashed
    ensures Names(MesaRun(mode, env, m, h).trace) == CaseNames(m.cases)
  {
    CaseRunsWellFormed(mode, env, m, h);
    BatchCasesInOrder(mode, env, m, h, CaseRuns(mode, env, m, h));
  }

  lemma BatchTeardownRunsLastOnce(mode: Mode, env: Env, m: Mesa, h: nat, runs: seq<Run>)
    requires WellFormedRuns(runs, m.cases)
    requires m.teardown.Some?
    requires m.init.Some? ==> !BatchCallFails(mode, env, Call(h, 0, InitStep))
    requires !CasesRun(runs, |runs|).1
    ensures var t := Batch(mode, env, m, h, runs).trace;
      var s := Batch(mode, env, m, h, runs).status;
      var p := m.teardown.value;
      && (s == Running ==> |t| >= 1 && t[|t| - 1] == TeardownCalled(p))
      && (s != Running ==> s == Failed && |t| >= 2 && t[|t| - 2] == TeardownCalled(p) && t[|t| - 1] == FatalFailure)
      && (forall j | 0 <= j < |t| && t[j].TeardownCalled? :: j == |t| - 1 || (j == |t| - 2 && s != Running))
  {
    var batch := Run([], map[], Running);
    var r1 :=
      match m.init
      case None => batch
      case Some(p) => Invoke(mode, env, batch, Call(h, 0, InitStep), InitCalled(p));
    var (cases, crashed) := CasesRun(runs, |runs|);
    CasesRunNoBatchEvents(runs, m.cases, |runs|);
    var r2 := r1.(trace := r1.trace + cases);
    assert forall e | e in r2.trace :: !e.TeardownCalled?;
    var t := Batch(mode, env, m, h, runs).trace;
    assert t == r2.trace + [TeardownCalled(m.teardown.value)] || t == r2.trace + [TeardownCalled(m.teardown.value), FatalFailure];
    forall j | 0 <= j < |r2.trace| ensures !t[j].TeardownCalled? {
      assert t[j] == r2.trace[j];
    }
  }

  /**
    `Teardown` is deferred once `Init` succeeded, so it runs exactly once, as the
    harness's last step (followed only by its own fatal failure), however the
    cases ended, unless one of them crashed the binary (mesa.go:180-182).
   */
  lemma TeardownRunsLastOnce(mode: Mode, env: Env, m: Mesa, h: nat)
    requires m.teardown.Some?
    requires m.init.Some? ==> !BatchCallFails(mode, env, Call(h, 0, InitStep))
    requires forall i | 0 <= i < |m.cases| :: CaseRun(mode, env, m, h, i, m.cases[i]).status != Crashed
    ensures var t := MesaRun(mode, env, m, h).trace;
      var s := MesaRun(mode, env, m, h).status;
      var p := m.teardown.value;
      && (s == Running ==> |t| >= 1 && t[|t| - 1] == TeardownCalled(p))
      && (s != Running ==> s == Failed && |t| >= 2 && t[|t| - 2] == TeardownCalled(p) && t[|t| - 1] == FatalFailure)
      && (forall j | 0 <= j < |t| && t[j].TeardownCalled? :: j == |t| - 1 || (j == |t| - 2 && s != Running))
  {
    var runs := CaseRuns(mode, env, m, h);
    CaseRunsWellFormed(mode, env, m, h);
    CasesRunCrash(runs, |runs|);
    BatchTeardownRunsLastOnce(mode, env, m, h, runs);
  }

  /** A crash ends the binary: the harness reports the crash and `Teardown` never runs. */
  lemma CrashSkipsTeardown(mode: Mode, env: Env, m: Mesa, h: nat, i: nat)
    requires i < |m.cases| && CaseRun(mode, env, m, h, i, m.cases[i]).status == Crashed
    requires m.init.Some? ==> !BatchCallFails(mode, env, Call(h, 0, InitStep))
    ensures MesaRun(mode, env, m, h).status == Crashed
    ensures forall e | e in MesaRun(mode, env, m, h).trace :: !e.TeardownCalled?
  {
    var runs := CaseRuns(mode, env, m, h);
    CaseRunsWellFormed(mode, env, m, h);
    CasesRunCrash(runs, |runs|);
    CasesRunNoBatchEvents(runs, m.cases, |runs|);
  }

  /** Once a harness ended the caller's test or crashed the binary, no later harness runs (mesa.go:25-29). */
  lemma {:induction false} SuitesRunStuck(runs: seq<Run>, k: nat, k': nat)
    requires k <= k' <= |runs|
    requires SuitesRun(runs, k).status != Running
    ensures SuitesRun(runs, k') == SuitesRun(runs, k)
    decreases k' - k
  {
    if k < k' {
      SuitesRunStuck(runs, k, k' - 1);
    }
  }

  /** A harness that ends `Running` did not fail `Init` or `Teardown` and did not crash. */
  lemma RunningHarness(env: Env, m: Mesa, h: nat)
    requires MesaRun(Testing, env, m, h).status == Running
    ensures m.init.Some? ==> !BatchCallFails(Testing, env, Call(h, 0, InitStep))
  {
  }

  lemma {:induction false} SuitesInOrder(runs: seq<Run>, groups: seq<seq<string>>, k: nat)
    requires |groups| == |runs| && k <= |runs|
    requires forall j | 0 <= j < |runs| && runs[j].status == Running :: Names(runs[j].trace) == groups[j]
    requires SuitesRun(runs, k).status == Running
    ensures Names(SuitesRun(runs, k).trace) == Concat(groups[..k])
  {
    if k > 0 {
      var prev := SuitesRun(runs, k - 1);
      SuitesInOrder(runs, groups, k - 1);
      assert groups[..k][..k - 1] == groups[..k - 1];
      NamesAppend(prev.trace, runs[k - 1].trace);
    }
  }

  /**
    While every harness has let the caller's test continue, `Run(t, ms...)` has
    run their cases in argument order, each harness's cases in list order.
   */
  lemma RunAllInOrder(env: Env, suites: seq<Suite>, fixed: bool)
    requires RunAll(env, suites, fixed).status == Running
    ensures Names(RunAll(env, suites, fixed).trace) == Concat(SuiteCaseNames(suites, fixed))
  {
    var runs := HarnessRuns(env, suites, fixed);
    var groups := SuiteCaseNames(suites, fixed);
    forall j | 0 <= j < |runs| && runs[j].status == Running
      ensures Names(runs[j].trace) == groups[j]
    {
      RunningHarness(env, AsMesa(suites[j], fixed), j);
      HarnessCasesInOrder(Testing, env, AsMesa(suites[j], fixed), j);
    }
    SuitesInOrder(runs, groups, |suites|);
    assert groups[..|suites|] == groups;
  }
}
