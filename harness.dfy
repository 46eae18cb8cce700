/**
  The configuration values of mesa.go: cases and harnesses of the method shape
  (MethodCase/MethodMesa, also used for MethodBenchmarkCase/MethodBenchmarkMesa,
  which have the same fields) and of the function shape, the hook resolver, and
  the adapter that turns a function harness into a method harness.
 */
module Harness {
  import opened Wrappers

  /** The identity of a user-supplied callback; the model never looks inside one. */
  type HookId = nat

  /** A harness's `NewInstance`: a user constructor, or the adapter's closure that returns nil. */
  datatype Constructor = NewWith(id: HookId) | ReturnNil

  /**
    A case's `InputFn`. `Provide(id)` is a user provider; `Forward(inner)` is the
    adapter's closure `func(ctx, inst) { return c.InputFn(ctx) }`, where `inner`
    is the function case's own `InputFn` and None means that field was nil.
   */
  datatype InputProvider = Provide(id: HookId) | Forward(inner: Option<HookId>)

  /** `MethodCase` (mesa.go:104-139); fields, inputs and outputs are modelled as integers. */
  datatype Case = Case(
    name: string,
    fields: int,
    fieldsFn: Option<HookId>,
    input: int,
    inputFn: Option<InputProvider>,
    skip: string,
    beforeCall: Option<HookId>,
    check: Option<HookId>,
    cleanup: Option<HookId>)

  /** `MethodMesa` (mesa.go:141-170); `Target` and `NewInstance` are required, so never absent here. */
  datatype Mesa = Mesa(
    init: Option<HookId>,
    newInstance: Constructor,
    target: HookId,
    cases: seq<Case>,
    beforeCall: Option<HookId>,
    check: Option<HookId>,
    cleanup: Option<HookId>,
    teardown: Option<HookId>)

  /** `FunctionCase` (mesa.go:232-259). */
  datatype FunctionCase = FunctionCase(
    name: string,
    input: int,
    inputFn: Option<HookId>,
    skip: string,
    beforeCall: Option<HookId>,
    check: Option<HookId>,
    cleanup: Option<HookId>)

  /** `FunctionMesa` (mesa.go:261-286). */
  datatype FunctionMesa = FunctionMesa(
    init: Option<HookId>,
    target: HookId,
    cases: seq<FunctionCase>,
    beforeCall: Option<HookId>,
    check: Option<HookId>,
    cleanup: Option<HookId>,
    teardown: Option<HookId>)

  /**
    The hook that runs for one hook kind (the `switch` statements of mesa.go:204-227):
    the case's hook when present, otherwise the harness's, otherwise none.
   */
  function Resolve(caseHook: Option<HookId>, mesaHook: Option<HookId>): (r: Option<HookId>)
    ensures r.Some? <==> caseHook.Some? || mesaHook.Some?
    ensures r.Some? ==> r == caseHook || (caseHook.None? && r == mesaHook)
  {
    if caseHook.Some? then caseHook else mesaHook
  }

  /** `checkAndSet` (mesa.go:504-508): the destination keeps its value unless the update is asked for. */
  function CheckAndSet<T>(dst: T, shouldUpdate: bool, val: T): (r: T)
    ensures shouldUpdate ==> r == val
    ensures !shouldUpdate ==> r == dst
  {
    if shouldUpdate then val else dst
  }

  /** `WithCases` (mesa.go:496-502): a copy of the harness with only its cases replaced. */
  function WithCases(m: Mesa, cases: seq<Case>): (r: Mesa)
    ensures r.cases == cases
    ensures r.init == m.init && r.newInstance == m.newInstance && r.target == m.target
    ensures r.beforeCall == m.beforeCall && r.check == m.check && r.cleanup == m.cleanup
    ensures r.teardown == m.teardown
  {
    m.(cases := cases)
  }

  /**
    The method case the adapter builds from a function case (mesa.go:322-343).
    Each wrapper closure forwards to the function case's own callback, so it is
    identified with that callback's id. As written, `InputFn` is set
    unconditionally; with `fixed`, it is set only when the function case has one,
    like every other hook.
   */
  function AdaptCase(c: FunctionCase, fixed: bool): Case
  {
    Case(
      c.name,
      0,
      None,
      c.input,
      if fixed then CheckAndSet(None, c.inputFn.Some?, Some(Forward(c.inputFn)))
      else Some(Forward(c.inputFn)),
      c.skip,
      CheckAndSet(None, c.beforeCall.Some?, c.beforeCall),
      CheckAndSet(None, c.check.Some?, c.check),
      CheckAndSet(None, c.cleanup.Some?, c.cleanup))
  }

  /** The adapter of `FunctionMesa.Run` (mesa.go:290-344), as written (`fixed` false) or corrected. */
  function Adapt(f: FunctionMesa, fixed: bool): (m: Mesa)
    ensures m.newInstance == ReturnNil && m.target == f.target
    ensures m.init == f.init && m.teardown == f.teardown
    ensures m.beforeCall == f.beforeCall && m.check == f.check && m.cleanup == f.cleanup
    ensures |m.cases| == |f.cases|
    ensures forall j | 0 <= j < |f.cases| :: m.cases[j] == AdaptCase(f.cases[j], fixed)
  {
    Mesa(
      CheckAndSet(None, f.init.Some?, f.init),
      ReturnNil,
      f.target,
      seq(|f.cases|, j requires 0 <= j < |f.cases| => AdaptCase(f.cases[j], fixed)),
      CheckAndSet(None, f.beforeCall.Some?, f.beforeCall),
      CheckAndSet(None, f.check.Some?, f.check),
      CheckAndSet(None, f.cleanup.Some?, f.cleanup),
      CheckAndSet(None, f.teardown.Some?, f.teardown))
  }

  /** What the adapter promises of one case: copies, hooks only where the source has them, no fields. */
  lemma AdaptCaseCopies(c: FunctionCase, fixed: bool)
    ensures var a := AdaptCase(c, fixed);
      && a.name == c.name && a.input == c.input && a.skip == c.skip
      && a.fieldsFn.None?
      && a.beforeCall == c.beforeCall && a.check == c.check && a.cleanup == c.cleanup
      && (fixed ==> (a.inputFn.Some? <==> c.inputFn.Some?))
      && (fixed && c.inputFn.Some? ==> a.inputFn == Some(Forward(c.inputFn)))
      && (!fixed ==> a.inputFn == Some(Forward(c.inputFn)))
  {
  }
}
