/**
  The worked example of example_test.go: a bounded message buffer, the
  harness `ExampleMesa` builds around its `Add`, and the three cases of that
  harness. The harness is written there against the names `mesa.Mesa` and
  `mesa.Case`; it is modelled as the method harness and method case those
  names stood for.
 */
module BufferExample {
  import opened Wrappers
  import opened Context
  import opened Harness
  import opened Semantics

  /** `Msg` (example_test.go:10-13). */
  datatype Msg = Msg(name: string, value: int)

  /** The `error` that `Add` returns: nil or `ErrBufferIsFull` (example_test.go:20). */
  datatype AddError = NoError | ErrBufferIsFull

  /** The buffer after `Add(msg)` on `msgs` under `limit`, and the error returned (example_test.go:22-29). */
  function Added(msgs: seq<Msg>, limit: int, msg: Msg): (seq<Msg>, AddError)
  {
    if |msgs| >= limit then (msgs, ErrBufferIsFull) else (msgs + [msg], NoError)
  }

  /** `Add` succeeds exactly when the buffer is below its limit, and then appends `msg` after the old messages. */
  lemma AddedAppendsIffRoom(msgs: seq<Msg>, limit: int, msg: Msg)
    ensures Added(msgs, limit, msg).1 == NoError <==> |msgs| < limit
    ensures |msgs| < limit ==> |Added(msgs, limit, msg).0| == |msgs| + 1
    ensures |msgs| < limit ==> Added(msgs, limit, msg).0[|msgs|] == msg
    ensures |msgs| < limit ==> Added(msgs, limit, msg).0[..|msgs|] == msgs
    ensures |msgs| >= limit ==> Added(msgs, limit, msg) == (msgs, ErrBufferIsFull)
  {
    if |msgs| < limit {
      assert (msgs + [msg])[..|msgs|] == msgs;
    }
  }

  /** A buffer that respects its limit still does after `Add`. */
  lemma AddedKeepsBound(msgs: seq<Msg>, limit: int, msg: Msg)
    requires |msgs| <= limit
    ensures |Added(msgs, limit, msg).0| <= limit
  {
  }

  /** With a limit of zero or less, `Add` on an empty buffer fails and adds nothing. */
  lemma NonPositiveLimitRejects(limit: int, msg: Msg)
    requires limit <= 0
    ensures Added([], limit, msg) == ([], ErrBufferIsFull)
  {
  }

  /** `k` copies of `msg`. */
  function Repeat(msg: Msg, k: nat): (r: seq<Msg>)
    ensures |r| == k
    ensures forall j | 0 <= j < k :: r[j] == msg
  {
    if k == 0 then [] else Repeat(msg, k - 1) + [msg]
  }

  /**
    `k` adds of the same `msg`, stopping at the first error, as the `BeforeCall`
    of the second case does through `Re.NoError` (example_test.go:62-66): the
    buffer reached and whether every add succeeded.
   */
  function AddedTimes(msgs: seq<Msg>, limit: int, msg: Msg, k: nat): (seq<Msg>, bool)
  {
    if k == 0 then (msgs, true)
    else
      var (prev, ok) := AddedTimes(msgs, limit, msg, k - 1);
      if !ok then (prev, false)
      else
        var (next, err) := Added(prev, limit, msg);
        (next, err == NoError)
  }

  /**
    Filling a buffer by `k` adds of one message: from an empty buffer and `k`
    not above the limit every add succeeds and the buffer holds `k` copies.
   */
  lemma {:induction false} AddedTimesFills(limit: int, msg: Msg, k: nat)
    requires k <= limit
    ensures AddedTimes([], limit, msg, k) == (Repeat(msg, k), true)
  {
    if k > 0 {
      AddedTimesFills(limit, msg, k - 1);
    }
  }

  /** Once full, a buffer stays as it is and every further add fails. */
  lemma FullBufferRejects(msgs: seq<Msg>, limit: int, msg: Msg)
    requires |msgs| >= limit
    ensures Added(msgs, limit, msg) == (msgs, ErrBufferIsFull)
  {
  }

  /** `Buffer` (example_test.go:15-18). */
  class Buffer {
    var msgs: seq<Msg>
    var limit: int

    /** The harness's `NewInstance`: `&Buffer{limit: limit}` (example_test.go:33-37). */
    constructor (limit: int)
      ensures msgs == [] && this.limit == limit
    {
      msgs := [];
      this.limit := limit;
    }

    /** `Add` (example_test.go:22-29). */
    method Add(msg: Msg) returns (err: AddError)
      modifies this
      ensures (msgs, err) == Added(old(msgs), old(limit), msg)
      ensures limit == old(limit)
    {
      if |msgs| >= limit {
        return ErrBufferIsFull;
      }
      msgs := msgs + [msg];
      err := NoError;
    }
  }

  /**
    The `BeforeCall` of the case "Buffer is full" (example_test.go:62-66):
    `limit` adds of `input`, each required to succeed; `ok` is false when one
    failed and the requirement ended the hook.
   */
  method FillToLimit(inst: Buffer, input: Msg) returns (ok: bool)
    modifies inst
    ensures (inst.msgs, ok) == AddedTimes(old(inst.msgs), inst.limit, input, if inst.limit < 0 then 0 else inst.limit)
    ensures inst.limit == old(inst.limit)
  {
    ghost var start := inst.msgs;
    var n := if inst.limit < 0 then 0 else inst.limit;
    var i := 0;
    ok := true;
    while i < inst.limit
      invariant 0 <= i <= n
      invariant inst.limit == old(inst.limit)
      invariant (inst.msgs, true) == AddedTimes(start, inst.limit, input, i)
      invariant ok
    {
      var err := inst.Add(input);
      if err != NoError {
        ok := false;
        assert (inst.msgs, ok) == AddedTimes(start, inst.limit, input, i + 1);
        AddedTimesStays(start, inst.limit, input, i + 1, n);
        return;
      }
      i := i + 1;
    }
  }

  /** After a failed add, the later adds of `AddedTimes` change nothing. */
  lemma {:induction false} AddedTimesStays(msgs: seq<Msg>, limit: int, msg: Msg, k: nat, n: nat)
    requires k <= n
    requires !AddedTimes(msgs, limit, msg, k).1
    ensures AddedTimes(msgs, limit, msg, n) == AddedTimes(msgs, limit, msg, k)
    decreases n - k
  {
    if k < n {
      AddedTimesStays(msgs, limit, msg, k, n - 1);
    }
  }

  /** The message every case of the example uses as its `Input` (example_test.go:45-48). */
  function TestValue(): Msg
  {
    Msg("test-value", 42)
  }

  /**
    The case "Buffer with limit 10" (example_test.go:42-54): a fresh buffer of
    limit 10 and one `Target` call; its `Check` finds no error and exactly the
    input in the buffer.
   */
  method LimitTenCase(input: Msg) returns (out: AddError, msgs: seq<Msg>)
    ensures out == NoError
    ensures |msgs| == 1 && msgs[0] == input
  {
    var inst := new Buffer(10);
    out := inst.Add(input);
    msgs := inst.msgs;
  }

  /**
    The case "Buffer is full" (example_test.go:55-71): a fresh buffer of limit
    10, the `BeforeCall` that fills it with ten adds, then the `Target` add,
    which returns `ErrBufferIsFull` and leaves the ten messages.
   */
  method BufferFullCase(input: Msg) returns (filled: bool, out: AddError, msgs: seq<Msg>)
    ensures filled
    ensures out == ErrBufferIsFull
    ensures msgs == Repeat(input, 10)
  {
    var inst := new Buffer(10);
    filled := FillToLimit(inst, input);
    AddedTimesFills(10, input, 10);
    out := inst.Add(input);
    msgs := inst.msgs;
  }

  /** The callbacks of `ExampleMesa`, named by the ids the trace model gives them. */
  const NewBuffer: HookId := 0
  const AddTarget: HookId := 1
  const CheckOneMessage: HookId := 2
  const FillBuffer: HookId := 3
  const CheckFull: HookId := 4

  /** `TestValue()` as the integer the trace model uses for inputs. */
  const TestInput: int := 42

  /** The harness of `ExampleMesa` (example_test.go:32-83), with its three cases. */
  function ExampleHarness(): Mesa
  {
    Mesa(
      None,
      NewWith(NewBuffer),
      AddTarget,
      [ Case("Buffer with limit 10", 10, None, TestInput, None, "", None, Some(CheckOneMessage), None),
        Case("Buffer is full", 10, None, TestInput, None, "", Some(FillBuffer), Some(CheckFull), None),
        Case("Test is skipped", -1, None, TestInput, None, "Skipping test because it fails for now", None, None, None)],
      None,
      None,
      None,
      None)
  }

  /** An environment in which no callback fails or reports a metric; `value` gives what each call returns. */
  function Quiet(value: Call -> int): Env
  {
    Env(value, _ => false, _ => [])
  }

  /**
    The skipped case (example_test.go:73-81) starts its sub-run and is skipped:
    no buffer is built, even with its invalid limit of -1, and no hook runs.
   */
  lemma ExampleSkippedCase(mode: Mode, env: Env, h: nat)
    ensures var m := ExampleHarness();
      CaseRun(mode, env, m, h, 2, m.cases[2])
        == Run([SubRunStarted("Test is skipped"), Skipped("Skipping test because it fails for now")], map[], Running)
  {
  }

  /**
    `m.Run(t)` of the example on quiet callbacks: the first case builds a
    buffer of limit 10, calls `Add` and its `Check`; the second also fills the
    buffer first; the third is skipped; no case registers a cleanup.
   */
  lemma ExampleTrace(value: Call -> int, h: nat)
    ensures var inst0 := Obj(value(Call(h, 0, NewStep)));
      var inst1 := Obj(value(Call(h, 1, NewStep)));
      var out0 := value(Call(h, 0, TargetStep(0)));
      var out1 := value(Call(h, 1, TargetStep(0)));
      MesaRun(Testing, Quiet(value), ExampleHarness(), h) == Run(
        [ SubRunStarted("Buffer with limit 10"), InstanceCreated(10, inst0), CleanupRegistered(None),
          TargetCalled(AddTarget, 0, inst0, TestInput, out0), CheckCalled(CheckOneMessage, inst0, TestInput, out0),
          SubRunStarted("Buffer is full"), InstanceCreated(10, inst1), CleanupRegistered(None),
          BeforeCallCalled(FillBuffer, inst1, TestInput),
          TargetCalled(AddTarget, 0, inst1, TestInput, out1), CheckCalled(CheckFull, inst1, TestInput, out1),
          SubRunStarted("Test is skipped"), Skipped("Skipping test because it fails for now")],
        map[], Running)
  {
    var env := Quiet(value);
    var m := ExampleHarness();
    var runs := CaseRuns(Testing, env, m, h);
    var inst0 := Obj(value(Call(h, 0, NewStep)));
    var inst1 := Obj(value(Call(h, 1, NewStep)));
    var out0 := value(Call(h, 0, TargetStep(0)));
    var out1 := value(Call(h, 1, TargetStep(0)));
    var t0 := [ SubRunStarted("Buffer with limit 10"), InstanceCreated(10, inst0), CleanupRegistered(None),
                TargetCalled(AddTarget, 0, inst0, TestInput, out0), CheckCalled(CheckOneMessage, inst0, TestInput, out0)];
    var t1 := [ SubRunStarted("Buffer is full"), InstanceCreated(10, inst1), CleanupRegistered(None),
                BeforeCallCalled(FillBuffer, inst1, TestInput),
                TargetCalled(AddTarget, 0, inst1, TestInput, out1), CheckCalled(CheckFull, inst1, TestInput, out1)];
    var t2 := [SubRunStarted("Test is skipped"), Skipped("Skipping test because it fails for now")];
    assert runs[0] == CaseRun(Testing, env, m, h, 0, m.cases[0]) == Run(t0, map[], Running);
    assert runs[1] == CaseRun(Testing, env, m, h, 1, m.cases[1]) == Run(t1, map[], Running);
    assert runs[2] == CaseRun(Testing, env, m, h, 2, m.cases[2]) == Run(t2, map[], Running);
    assert CasesRun(runs, 0) == ([], false);
    assert [] + t0 == t0;
    assert CasesRun(runs, 1) == (t0, false);
    assert CasesRun(runs, 2) == (t0 + t1, false);
    assert CasesRun(runs, 3) == (t0 + t1 + t2, false);
  }
}
