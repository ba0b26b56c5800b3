/** The AnalysisRun reconciler: counters kept up to date over an append-only history of
    measurements, and the verdict recounted from that history. */
module Analysis {
  import opened Common

  const DEFAULT_INTERVAL: int := 10 * SECOND
  const LONGEST_DELAY: int := 24 * 3600 * SECOND

  datatype Metric = Metric(
    name: string, interval: Option<int>, initialDelay: Option<int>,
    count: Option<IntOrPercent>, failureLimit: Option<IntOrPercent>, errorLimit: Option<IntOrPercent>)

  datatype Measurement = Measurement(phase: Verdict, started: int, finished: int)

  datatype MetricResult = MetricResult(
    name: string, phase: Verdict, count: int,
    successful: int, failed: int, inconclusive: int, error: int,
    measurements: seq<Measurement>)

  datatype RunSpec = RunSpec(metrics: seq<Metric>, dryRun: set<string>, terminate: bool)

  datatype AnalysisRun = AnalysisRun(
    spec: RunSpec, phase: Verdict,
    startedAt: Option<int>, completedAt: Option<int>, results: seq<MetricResult>)

  // ---------------------------------------------------------------- samples

  datatype Match = Matched | NotMatched | Unevaluable

  /** What a provider and the two conditions say about one sample. */
  datatype Reading = QueryFailed | Evaluated(success: Match, failure: Match)

  /** One turn of the sampling loop: when the metric was checked, what a sample says, and when
      it was started and finished. */
  datatype Sample = Sample(checked: int, reading: Reading, started: int, finished: int)

  function Classify(r: Reading): Verdict {
    match r
    case QueryFailed => Error
    case Evaluated(success, failure) =>
      if success.Matched? then Successful
      else if failure.Matched? then Failed
      else Inconclusive
  }

  predicate Terminal(v: Verdict) {
    v.Successful? || v.Failed? || v.Error? || v.Inconclusive?
  }

  function IntervalOf(m: Metric): int {
    if m.interval.Some? && m.interval.value > 0 then m.interval.value else DEFAULT_INTERVAL
  }

  // ---------------------------------------------------------------- verdicts

  /** A limit in counts or percent of 100; unreadable text counts as unset. */
  function Limit(v: Option<IntOrPercent>, unset: int): int {
    if v.None? then unset else ScaledValue(v.value, 100, true).GetOr(unset)
  }

  function FailureLimit(m: Metric): int {
    Limit(m.failureLimit, 0)
  }

  function ErrorLimit(m: Metric): int {
    Limit(m.errorLimit, 4)
  }

  function Budget(m: Metric): Option<int> {
    if m.count.None? then None else ScaledValue(m.count.value, 100, true)
  }

  /** derivePerMetricPhase, from the counters and the errors at the end of the history. */
  function Judge(m: Metric, successful: int, failed: int, trailingErrors: int): Verdict {
    if trailingErrors > ErrorLimit(m) then Error
    else if failed > FailureLimit(m) then Failed
    else if Budget(m).Some? && successful + failed >= Budget(m).value then
      if failed > 0 then Failed else Successful
    else Running
  }

  function CountOf(ms: seq<Measurement>, phase: Verdict): nat {
    if ms == [] then 0
    else CountOf(ms[..|ms| - 1], phase) + if ms[|ms| - 1].phase == phase then 1 else 0
  }

  function TrailingErrors(ms: seq<Measurement>): nat {
    if ms == [] || !ms[|ms| - 1].phase.Error? then 0 else TrailingErrors(ms[..|ms| - 1]) + 1
  }

  /** The verdict on a history, recounted from nothing but the history. */
  function VerdictOn(m: Metric, ms: seq<Measurement>): Verdict {
    if ms == [] then Pending
    else Judge(m, CountOf(ms, Successful), CountOf(ms, Failed), TrailingErrors(ms))
  }

  /** A measurement as the API server stores it. */
  function Measured(v: Verdict, s: Sample): Measurement {
    Measurement(v, WholeSecond(s.started), WholeSecond(s.finished))
  }

  /** sampleMetric: append the measurement, bump its counter, derive the phase. */
  function Sampled(m: Metric, mr: MetricResult, s: Sample): MetricResult {
    var v := Classify(s.reading);
    var counted := mr.(
      count := mr.count + 1,
      successful := mr.successful + (if v.Successful? then 1 else 0),
      failed := mr.failed + (if v.Failed? then 1 else 0),
      inconclusive := mr.inconclusive + (if v.Inconclusive? then 1 else 0),
      error := mr.error + (if v.Error? then 1 else 0),
      measurements := mr.measurements + [Measured(v, s)]);
    counted.(phase := Judge(m, counted.successful, counted.failed, TrailingErrors(counted.measurements)))
  }

  // ---------------------------------------------------------------- the schedule

  /** isMetricDue: the time still to wait, or None when the metric is due. */
  function Wait(now: int, m: Metric, mr: MetricResult, startedAt: Option<int>): Option<int> {
    if m.initialDelay.Some? && startedAt.Some? && now < startedAt.value + m.initialDelay.value then
      Some(startedAt.value + m.initialDelay.value - now)
    else if mr.measurements == [] then None
    else
      var nextAt := mr.measurements[|mr.measurements| - 1].finished + IntervalOf(m);
      if now < nextAt then Some(nextAt - now) else None
  }

  /** The sampling loop from metric i on: the results and the shortest delay met. */
  function SampleFrom(metrics: seq<Metric>, results: seq<MetricResult>, i: nat, delay: int,
                      startedAt: Option<int>, samples: seq<Sample>): (r: (seq<MetricResult>, int))
    requires i <= |metrics| == |results| && |metrics| <= |samples|
    ensures |r.0| == |results|
    decreases |metrics| - i
  {
    if i == |metrics| then (results, delay)
    else if Terminal(results[i].phase) then SampleFrom(metrics, results, i + 1, delay, startedAt, samples)
    else
      var wait := Wait(samples[i].checked, metrics[i], results[i], startedAt);
      if wait.Some? then SampleFrom(metrics, results, i + 1, Min(wait.value, delay), startedAt, samples)
      else
        var sampled := Sampled(metrics[i], results[i], samples[i]);
        SampleFrom(metrics, results[i := sampled], i + 1, Min(IntervalOf(metrics[i]), delay), startedAt, samples)
  }

  /** The last existing result of that name, as a map filled in order would hold it. */
  function ResultNamed(existing: seq<MetricResult>, name: string): Option<MetricResult> {
    if existing == [] then None
    else if existing[|existing| - 1].name == name then Some(existing[|existing| - 1])
    else ResultNamed(existing[..|existing| - 1], name)
  }

  /** ensureMetricResults: one result per metric, in the order of the metrics. */
  function EnsureResults(metrics: seq<Metric>, existing: seq<MetricResult>): (r: seq<MetricResult>)
    ensures |r| == |metrics|
  {
    seq(|metrics|, i requires 0 <= i < |metrics| =>
      ResultNamed(existing, metrics[i].name).GetOr(
        MetricResult(metrics[i].name, Pending, 0, 0, 0, 0, 0, [])))
  }

  /** aggregatePhase from result i on, with what the earlier ones showed. */
  function AggregateFrom(results: seq<MetricResult>, dryRun: set<string>, i: nat,
                         anyRunning: bool, sawInconclusive: bool): Verdict
    requires i <= |results|
    decreases |results| - i
  {
    if i == |results| then
      if anyRunning then Running else if sawInconclusive then Inconclusive else Successful
    else
      match results[i].phase
      case Failed =>
        if results[i].name !in dryRun then Failed
        else AggregateFrom(results, dryRun, i + 1, anyRunning, sawInconclusive)
      case Error =>
        if results[i].name !in dryRun then Error
        else AggregateFrom(results, dryRun, i + 1, anyRunning, sawInconclusive)
      case Inconclusive => AggregateFrom(results, dryRun, i + 1, anyRunning, true)
      case Successful => AggregateFrom(results, dryRun, i + 1, anyRunning, sawInconclusive)
      case _ => AggregateFrom(results, dryRun, i + 1, true, sawInconclusive)
  }

  function Aggregate(results: seq<MetricResult>, dryRun: set<string>): Verdict {
    AggregateFrom(results, dryRun, 0, false, false)
  }

  // ---------------------------------------------------------------- one reconcile

  /** The clock when the run is first seen and when it completes, what each metric's turn
      meets, and whether the status write is accepted. */
  datatype Env = Env(now: int, samples: seq<Sample>, completed: int, writeOk: bool)

  function StartOf(run: AnalysisRun, now: int): Option<int> {
    if (run.phase.Unstarted? || run.phase.Pending?) && run.startedAt.None? then Some(now) else run.startedAt
  }

  /** The run whose status the reconcile tries to store, and the delay until the next. */
  function Advanced(run: AnalysisRun, env: Env): (AnalysisRun, int)
    requires |run.spec.metrics| <= |env.samples|
  {
    var startedAt := StartOf(run, env.now);
    var (results, delay) := SampleFrom(run.spec.metrics, EnsureResults(run.spec.metrics, run.results), 0,
                                       LONGEST_DELAY, startedAt, env.samples);
    var phase := Aggregate(results, run.spec.dryRun);
    var completedAt := if Terminal(phase) then Some(env.completed) else run.completedAt;
    (run.(phase := phase, startedAt := WholeSeconds(startedAt), completedAt := WholeSeconds(completedAt),
          results := results), delay)
  }

  /** The stored run after the reconcile, when to come back (None: not by itself), and whether
      the write was refused. */
  datatype Outcome = Outcome(run: AnalysisRun, requeue: Option<int>, err: bool)

  function Reconciled(run: AnalysisRun, env: Env): Outcome
    requires |run.spec.metrics| <= |env.samples|
  {
    if Terminal(run.phase) then Outcome(run, None, false)
    else if run.spec.terminate then
      if env.writeOk then Outcome(run.(phase := Failed, completedAt := Some(WholeSecond(env.completed))), None, false)
      else Outcome(run, None, true)
    else if !env.writeOk then Outcome(run, None, true)
    else
      var (next, delay) := Advanced(run, env);
      Outcome(next, if Terminal(next.phase) then None else Some(Max(SECOND, delay)), false)
  }

  // ---------------------------------------------------------------- the reconciler

  /** The stored run, which each reconcile replaces by one write. */
  class Reconciler {
    var stored: AnalysisRun

    constructor (run: AnalysisRun)
      ensures stored == run
    {
      stored := run;
    }

    method Reconcile(env: Env) returns (requeue: Option<int>, err: bool)
      requires |stored.spec.metrics| <= |env.samples|
      modifies this
      ensures Outcome(stored, requeue, err) == Reconciled(old(stored), env)
    {
      hide EnsureResults, SampleFrom, AggregateFrom;
      if stored.spec.terminate {
        err := Terminate(env);
        return None, err;
      }
      if Terminal(stored.phase) {
        return None, false;
      }
      var patched := stored;
      if patched.phase == Unstarted || patched.phase == Pending {
        patched := patched.(phase := Running);
        if patched.startedAt.None? {
          patched := patched.(startedAt := Some(env.now));
        }
      }
      var ensured := EnsureMetricResults(patched.spec.metrics, patched.results);
      var results := new MetricResult[|ensured|](i requires 0 <= i < |ensured| => ensured[i]);
      assert results[..] == ensured;
      var delay := SampleDueMetrics(patched.spec.metrics, results, patched.startedAt, env.samples);
      patched := patched.(results := results[..]);
      var phase := AggregatePhase(patched.results, patched.spec.dryRun);
      patched := patched.(phase := phase);
      if Terminal(patched.phase) {
        patched := patched.(completedAt := Some(env.completed));
      }
      if !env.writeOk {
        return None, true;
      }
      stored := patched.(startedAt := WholeSeconds(patched.startedAt), completedAt := WholeSeconds(patched.completedAt));
      if Terminal(patched.phase) {
        return None, false;
      }
      if delay < SECOND {
        delay := SECOND;
      }
      return Some(delay), false;
    }

    method Terminate(env: Env) returns (err: bool)
      modifies this
      ensures stored == if Terminal(old(stored).phase) || !env.writeOk then old(stored)
                        else old(stored).(phase := Failed, completedAt := Some(WholeSecond(env.completed)))
      ensures err == (!Terminal(old(stored).phase) && !env.writeOk)
    {
      if Terminal(stored.phase) {
        return false;
      }
      var patched := stored.(phase := Failed, completedAt := Some(WholeSecond(env.completed)));
      if !env.writeOk {
        return true;
      }
      stored := patched;
      return false;
    }
  }

  lemma ResultNamedSnoc(existing: seq<MetricResult>, x: MetricResult, name: string)
    ensures ResultNamed(existing + [x], name) == if x.name == name then Some(x) else ResultNamed(existing, name)
  {
  }

  method EnsureMetricResults(metrics: seq<Metric>, existing: seq<MetricResult>) returns (out: seq<MetricResult>)
    ensures out == EnsureResults(metrics, existing)
  {
    var byName: map<string, MetricResult> := map[];
    for i := 0 to |existing|
      invariant forall name :: name in byName <==> ResultNamed(existing[..i], name).Some?
      invariant forall name :: name in byName ==> ResultNamed(existing[..i], name) == Some(byName[name])
    {
      assert existing[..i + 1] == existing[..i] + [existing[i]];
      forall name: string ensures ResultNamed(existing[..i + 1], name)
                     == if existing[i].name == name then Some(existing[i]) else ResultNamed(existing[..i], name) {
        ResultNamedSnoc(existing[..i], existing[i], name);
      }
      byName := byName[existing[i].name := existing[i]];
    }
    assert existing[..|existing|] == existing;
    out := [];
    for i := 0 to |metrics|
      invariant out == EnsureResults(metrics, existing)[..i]
    {
      var name := metrics[i].name;
      if name in byName {
        out := out + [byName[name]];
      } else {
        out := out + [MetricResult(name, Pending, 0, 0, 0, 0, 0, [])];
      }
    }
  }

  /** The sampling loop, which updates the results in place. */
  method SampleDueMetrics(metrics: seq<Metric>, results: array<MetricResult>, startedAt: Option<int>,
                          samples: seq<Sample>) returns (nextSampleDelay: int)
    requires results.Length == |metrics| <= |samples|
    modifies results
    ensures (results[..], nextSampleDelay)
         == SampleFrom(metrics, old(results[..]), 0, LONGEST_DELAY, startedAt, samples)
  {
    nextSampleDelay := LONGEST_DELAY;
    ghost var whole := SampleFrom(metrics, results[..], 0, LONGEST_DELAY, startedAt, samples);
    for i := 0 to |metrics|
      invariant SampleFrom(metrics, results[..], i, nextSampleDelay, startedAt, samples) == whole
    {
      hide Wait, Sampled, SampleFrom;
      ghost var now := results[..];
      SampleTurn(metrics, now, i, nextSampleDelay, startedAt, samples,
                 Wait(samples[i].checked, metrics[i], now[i], startedAt));
      if Terminal(results[i].phase) {
        continue;
      }
      var wait := Wait(samples[i].checked, metrics[i], results[i], startedAt);
      if wait.Some? {
        nextSampleDelay := Min(wait.value, nextSampleDelay);
        continue;
      }
      SampleMetric(metrics[i], results, i, samples[i]);
      assert results[..] == now[i := results[i]];
      nextSampleDelay := Min(IntervalOf(metrics[i]), nextSampleDelay);
    }
  }

  lemma SampleTurn(metrics: seq<Metric>, results: seq<MetricResult>, i: nat, delay: int,
                   startedAt: Option<int>, samples: seq<Sample>, wait: Option<int>)
    requires i < |metrics| == |results| && |metrics| <= |samples|
    requires wait == Wait(samples[i].checked, metrics[i], results[i], startedAt)
    ensures SampleFrom(metrics, results, i, delay, startedAt, samples)
         == if Terminal(results[i].phase) then SampleFrom(metrics, results, i + 1, delay, startedAt, samples)
            else if wait.Some? then SampleFrom(metrics, results, i + 1, Min(wait.value, delay), startedAt, samples)
            else SampleFrom(metrics, results[i := Sampled(metrics[i], results[i], samples[i])], i + 1,
                            Min(IntervalOf(metrics[i]), delay), startedAt, samples)
  {
  }

  method SampleMetric(m: Metric, results: array<MetricResult>, i: nat, s: Sample)
    requires i < results.Length
    modifies results
    ensures results[i] == Sampled(m, old(results[i]), s)
    ensures forall k :: 0 <= k < results.Length && k != i ==> results[k] == old(results[k])
  {
    var mr := results[i];
    var phase := Classify(s.reading);
    match phase {
      case Error => mr := mr.(error := mr.error + 1);
      case Successful => mr := mr.(successful := mr.successful + 1);
      case Failed => mr := mr.(failed := mr.failed + 1);
      case _ => mr := mr.(inconclusive := mr.inconclusive + 1);
    }
    mr := mr.(measurements := mr.measurements + [Measured(phase, s)]);
    mr := mr.(count := mr.count + 1);
    var derived := DerivePerMetricPhase(m, mr);
    results[i] := mr.(phase := derived);
  }

  method DerivePerMetricPhase(m: Metric, mr: MetricResult) returns (phase: Verdict)
    ensures phase == Judge(m, mr.successful, mr.failed, TrailingErrors(mr.measurements))
  {
    var failureLimit := FailureLimit(m);
    var errorLimit := ErrorLimit(m);
    var consecErrors := 0;
    var ms := mr.measurements;
    var i := |ms| - 1;
    assert ms[..|ms|] == ms;
    while i >= 0
      invariant -1 <= i < |ms|
      invariant consecErrors + TrailingErrors(ms[..i + 1]) == TrailingErrors(ms)
    {
      assert ms[..i + 1][..i] == ms[..i];
      if ms[i].phase == Error {
        consecErrors := consecErrors + 1;
        i := i - 1;
        continue;
      }
      break;
    }
    if consecErrors > errorLimit {
      return Error;
    }
    if mr.failed > failureLimit {
      return Failed;
    }
    var target := Budget(m);
    if target.Some? {
      var conclusive := mr.successful + mr.failed;
      if conclusive >= target.value {
        if mr.failed > 0 {
          return Failed;
        }
        return Successful;
      }
    }
    return Running;
  }

  method AggregatePhase(results: seq<MetricResult>, dryRun: set<string>) returns (phase: Verdict)
    ensures phase == Aggregate(results, dryRun)
  {
    var anyRunning, sawInconclusive := false, false;
    for i := 0 to |results|
      invariant AggregateFrom(results, dryRun, i, anyRunning, sawInconclusive) == Aggregate(results, dryRun)
    {
      var isDryRun := results[i].name in dryRun;
      match results[i].phase {
        case Failed =>
          if !isDryRun {
            return Failed;
          }
        case Error =>
          if !isDryRun {
            return Error;
          }
        case Inconclusive => sawInconclusive := true;
        case Successful =>
        case _ => anyRunning := true;
      }
    }
    if anyRunning {
      return Running;
    }
    if sawInconclusive {
      return Inconclusive;
    }
    return Successful;
  }
}
