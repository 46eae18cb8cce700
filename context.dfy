/**
  The per-run context `Ctx` (mesa.go:45-102): a store of named values, an
  accumulator of named benchmark metrics, and the check of which host handle
  (test or benchmark) the context was created for.
 */
module Context {

  /** A value stored in a context: Go's `any`, where Nil is the nil interface. */
  datatype Any = Nil | Boxed(id: int)

  /** One call of `ReportMetric` made by a callback: the value and the metric's name. */
  datatype Report = Report(name: string, value: real)

  /** The value stored under `name`, or Nil when nothing was stored (a Go map read). */
  function Lookup(values: map<string, Any>, name: string): (v: Any)
    ensures name in values ==> v == values[name]
    ensures name !in values ==> v == Nil
  {
    if name in values then values[name] else Nil
  }

  /** The running total of a metric; a metric never reported counts as 0. */
  function Total(metrics: map<string, real>, name: string): real
  {
    if name in metrics then metrics[name] else 0.0
  }

  /** `metrics[name] += value` on a Go map of float64. */
  function AddMetric(metrics: map<string, real>, name: string, value: real): (m: map<string, real>)
    ensures m.Keys == metrics.Keys + {name}
    ensures Total(m, name) == Total(metrics, name) + value
    ensures forall k | k in metrics && k != name :: m[k] == metrics[k]
  {
    metrics[name := Total(metrics, name) + value]
  }

  /** The metrics after the given reports were added one after the other. */
  function AccumulateAll(metrics: map<string, real>, reports: seq<Report>): map<string, real>
    decreases |reports|
  {
    if reports == [] then metrics
    else
      var last := reports[|reports| - 1];
      AddMetric(AccumulateAll(metrics, reports[..|reports| - 1]), last.name, last.value)
  }

  /** The sum of the values reported under `name`. */
  function SumOf(reports: seq<Report>, name: string): real
    decreases |reports|
  {
    if reports == [] then 0.0
    else
      var last := reports[|reports| - 1];
      SumOf(reports[..|reports| - 1], name) + (if last.name == name then last.value else 0.0)
  }

  /** Accumulating reports adds, for every name, exactly the sum reported under it. */
  lemma {:induction false} AccumulateAllSums(metrics: map<string, real>, reports: seq<Report>, name: string)
    ensures Total(AccumulateAll(metrics, reports), name) == Total(metrics, name) + SumOf(reports, name)
    ensures (name in AccumulateAll(metrics, reports)) <==> (name in metrics || exists r | r in reports :: r.name == name)
  {
    if reports != [] {
      var init := reports[..|reports| - 1];
      var last := reports[|reports| - 1];
      AccumulateAllSums(metrics, init, name);
      assert reports == init + [last];
      if name in metrics || exists r | r in reports :: r.name == name {
        if name !in metrics && last.name != name {
          var r :| r in reports && r.name == name;
          assert r in init;
        }
      }
    }
  }

  /** Reporting in two batches is the same as reporting their concatenation. */
  lemma {:induction false} AccumulateAllAppend(metrics: map<string, real>, a: seq<Report>, b: seq<Report>)
    ensures AccumulateAll(metrics, a + b) == AccumulateAll(AccumulateAll(metrics, a), b)
    decreases |b|
  {
    if b != [] {
      assert (a + b)[..|a + b| - 1] == a + b[..|b| - 1];
      AccumulateAllAppend(metrics, a, b[..|b| - 1]);
    } else {
      assert a + b == a;
    }
  }

  /** Every total divided by the iteration count `n` (mesa.go:480-482). */
  function Average(metrics: map<string, real>, n: nat): (avg: map<string, real>)
    requires n >= 1
    ensures avg.Keys == metrics.Keys
    ensures forall name | name in avg :: avg[name] * (n as real) == metrics[name]
  {
    map name | name in metrics :: metrics[name] / (n as real)
  }

  /** The sum of `n` reports of the same value `v` under `name` is `n * v`. */
  lemma {:induction false} SumOfConstant(reports: seq<Report>, name: string, v: real)
    requires forall k | 0 <= k < |reports| :: reports[k] == Report(name, v)
    ensures SumOf(reports, name) == (|reports| as real) * v
    decreases |reports|
  {
    if reports != [] {
      SumOfConstant(reports[..|reports| - 1], name, v);
    }
  }

  /** `n` reports of one name and one value leave a table holding that name alone, at `n * v`. */
  lemma ConstantReportsTotal(reports: seq<Report>, name: string, v: real, n: nat)
    requires n >= 1 && |reports| == n
    requires forall k | 0 <= k < |reports| :: reports[k] == Report(name, v)
    ensures AccumulateAll(map[], reports) == map[name := (n as real) * v]
  {
    var total := AccumulateAll(map[], reports);
    AccumulateAllSums(map[], reports, name);
    SumOfConstant(reports, name, v);
    assert reports[0] in reports;
    assert forall r | r in reports :: r.name == name;
    forall other | other != name
      ensures other !in total
    {
      AccumulateAllSums(map[], reports, other);
    }
    assert total.Keys == {name};
    assert total[name] == Total(total, name) == (n as real) * v;
    assert total == map[name := (n as real) * v];
  }

  /**
    A metric reported with the same value `v` on each of `n` iterations averages
    to exactly `v`, and no other metric appears.
   */
  lemma ConstantReportsAverage(reports: seq<Report>, name: string, v: real, n: nat)
    requires n >= 1 && |reports| == n
    requires forall k | 0 <= k < |reports| :: reports[k] == Report(name, v)
    ensures Average(AccumulateAll(map[], reports), n) == map[name := v]
  {
    ConstantReportsTotal(reports, name, v, n);
    AverageOfSingleton(name, v, n);
  }

  lemma AverageOfSingleton(name: string, v: real, n: nat)
    requires n >= 1
    ensures Average(map[name := (n as real) * v], n) == map[name := v]
  {
    var x := (n as real) * v;
    assert x / (n as real) == v;
    assert Average(map[name := x], n) == map[name := x / (n as real)];
  }

  /**
    A context. `benchmark` records whether it wraps a benchmark handle (the
    dynamic type of the Go field `t`); `failed` records a fatal assertion,
    after which the host ends the current run.
   */
  class Ctx {
    const benchmark: bool
    var values: map<string, Any>
    var metrics: map<string, real>
    var failed: bool

    /** `newCtx`: empty values and metrics. */
    constructor (benchmark: bool)
      ensures this.benchmark == benchmark
      ensures values == map[] && metrics == map[] && !failed
    {
      this.benchmark := benchmark;
      values := map[];
      metrics := map[];
      failed := false;
    }

    /** `T()`: the test handle; asking for it in a benchmark is a fatal failure. */
    method T() returns (ok: bool)
      modifies this
      ensures ok == !benchmark
      ensures failed == (old(failed) || benchmark)
      ensures values == old(values) && metrics == old(metrics)
    {
      ok := !benchmark;
      if !ok {
        failed := true;
      }
    }

    /** `B()`: the benchmark handle; asking for it in a test is a fatal failure. */
    method B() returns (ok: bool)
      modifies this
      ensures ok == benchmark
      ensures failed == (old(failed) || !benchmark)
      ensures values == old(values) && metrics == old(metrics)
    {
      ok := benchmark;
      if !ok {
        failed := true;
      }
    }

    /**
      `ReportMetric`: adds to the named total, or fails fatally in a test. `ok`
      is false when the call does not return to its caller (the failure ends
      the calling goroutine).
     */
    method ReportMetric(value: real, name: string) returns (ok: bool)
      modifies this
      ensures ok == benchmark
      ensures benchmark ==> metrics == AddMetric(old(metrics), name, value) && failed == old(failed)
      ensures !benchmark ==> metrics == old(metrics) && failed
      ensures values == old(values)
    {
      ok := B();
      if ok {
        metrics := AddMetric(metrics, name, value);
      }
    }

    /** A fatal assertion of a callback through `Re` (testify's `require`): the run is marked failed. */
    method FailNow()
      modifies this
      ensures failed
      ensures values == old(values) && metrics == old(metrics)
    {
      failed := true;
    }

    method SetValue(name: string, val: Any)
      modifies this
      ensures values == old(values)[name := val]
      ensures metrics == old(metrics) && failed == old(failed)
    {
      values := values[name := val];
    }

    function GetValue(name: string): (v: Any)
      reads this
      ensures name in values ==> v == values[name]
      ensures name !in values ==> v == Nil
    {
      Lookup(values, name)
    }
  }

  /** Last write wins: after storing `b` under `name`, reading `name` gives `b`, and other names are untouched. */
  method LastWriteWins(c: Ctx, name: string, other: string, a: Any, b: Any)
    requires other != name
    modifies c
    ensures c.GetValue(name) == b
    ensures c.GetValue(other) == old(c.GetValue(other))
  {
    c.SetValue(name, a);
    c.SetValue(name, b);
  }
}
