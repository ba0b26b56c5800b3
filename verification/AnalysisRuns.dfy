/** What every run of the AnalysisRun reconciler keeps. */
module AnalysisRuns {
  import opened Common
  import opened Analysis

  ghost predicate UniqueNames(metrics: seq<Metric>) {
    forall i, j :: 0 <= i < j < |metrics| ==> metrics[i].name != metrics[j].name
  }

  /** Non-negative limits. */
  predicate Sensible(m: Metric) {
    FailureLimit(m) >= 0 && ErrorLimit(m) >= 0
  }

  // ---------------------------------------------------------------- counters and verdicts

  /** Each counter counts its phase, the stored phase is the verdict on the whole history, and
      the history was still undecided before its last measurement. */
  ghost predicate Faithful(m: Metric, mr: MetricResult) {
    var ms := mr.measurements;
    && mr.name == m.name
    && mr.count == |ms|
    && mr.successful == CountOf(ms, Successful) && mr.failed == CountOf(ms, Failed)
    && mr.inconclusive == CountOf(ms, Inconclusive) && mr.error == CountOf(ms, Error)
    && mr.phase == VerdictOn(m, ms)
    && forall k :: 0 < k < |ms| ==> VerdictOn(m, ms[..k]) == Running
  }

  lemma SampledIsFaithful(m: Metric, mr: MetricResult, s: Sample)
    requires Faithful(m, mr) && !Terminal(mr.phase)
    ensures Faithful(m, Sampled(m, mr, s))
  {
    hide Judge, Classify;
    var ms := mr.measurements;
    var x := Measured(Classify(s.reading), s);
    assert (ms + [x])[..|ms|] == ms;
    assert VerdictOn(m, ms) == Running || ms == [] by {
      JudgeIsRunningOrTerminal(m, mr.successful, mr.failed, TrailingErrors(ms));
    }
    forall k | 0 < k < |ms + [x]| ensures VerdictOn(m, (ms + [x])[..k]) == Running {
      assert (ms + [x])[..k] == ms[..k];
      if k == |ms| {
        assert ms[..k] == ms;
      }
    }
  }

  lemma JudgeIsRunningOrTerminal(m: Metric, successful: int, failed: int, trailing: int)
    ensures var v := Judge(m, successful, failed, trailing); v.Running? || (Terminal(v) && !v.Inconclusive?)
  {
  }

  ghost predicate AllFaithful(metrics: seq<Metric>, results: seq<MetricResult>) {
    |metrics| == |results| && forall i :: 0 <= i < |metrics| ==> Faithful(metrics[i], results[i])
  }

  lemma {:induction false} SamplingKeepsFaithful(metrics: seq<Metric>, results: seq<MetricResult>, i: nat, delay: int,
                              startedAt: Option<int>, samples: seq<Sample>)
    requires i <= |metrics| <= |samples| && AllFaithful(metrics, results)
    ensures AllFaithful(metrics, SampleFrom(metrics, results, i, delay, startedAt, samples).0)
    decreases |metrics| - i
  {
    hide Faithful, Wait, Sampled;
    if i < |metrics| {
      var wait := Wait(samples[i].checked, metrics[i], results[i], startedAt);
      if Terminal(results[i].phase) {
        SamplingKeepsFaithful(metrics, results, i + 1, delay, startedAt, samples);
      } else if wait.Some? {
        SamplingKeepsFaithful(metrics, results, i + 1, Min(wait.value, delay), startedAt, samples);
      } else {
        SampledIsFaithful(metrics[i], results[i], samples[i]);
        SamplingKeepsFaithful(metrics, results[i := Sampled(metrics[i], results[i], samples[i])], i + 1,
                              Min(IntervalOf(metrics[i]), delay), startedAt, samples);
      }
    }
  }

  /** The results of a run that has not been sampled yet, or one faithful result per metric. */
  ghost predicate FaithfulRun(run: AnalysisRun) {
    && UniqueNames(run.spec.metrics)
    && (run.results == [] || AllFaithful(run.spec.metrics, run.results))
  }

  lemma {:induction false} ResultNamedAt(metrics: seq<Metric>, existing: seq<MetricResult>, n: nat, i: nat)
    requires UniqueNames(metrics) && n <= |metrics| == |existing| && i < |metrics|
    requires forall k :: 0 <= k < |metrics| ==> existing[k].name == metrics[k].name
    ensures ResultNamed(existing[..n], metrics[i].name) == if i < n then Some(existing[i]) else None
  {
    if n > 0 {
      ResultNamedAt(metrics, existing, n - 1, i);
      assert existing[..n][..n - 1] == existing[..n - 1];
    }
  }

  lemma EnsureIsFaithful(metrics: seq<Metric>, existing: seq<MetricResult>)
    requires UniqueNames(metrics) && (existing == [] || AllFaithful(metrics, existing))
    ensures AllFaithful(metrics, EnsureResults(metrics, existing))
    ensures existing != [] ==> EnsureResults(metrics, existing) == existing
    ensures existing == [] ==> forall i :: 0 <= i < |metrics| ==> EnsureResults(metrics, existing)[i].measurements == []
  {
    forall i | 0 <= i < |metrics|
      ensures existing != [] ==> EnsureResults(metrics, existing)[i] == existing[i]
    {
      if existing != [] {
        ResultNamedAt(metrics, existing, |metrics|, i);
        assert existing[..|metrics|] == existing;
      }
    }
  }

  lemma ReconcileKeepsFaithful(run: AnalysisRun, env: Env)
    requires FaithfulRun(run) && |run.spec.metrics| <= |env.samples|
    ensures FaithfulRun(Reconciled(run, env).run) && Reconciled(run, env).run.spec == run.spec
  {
    hide EnsureResults, SampleFrom, AllFaithful, Aggregate;
    EnsureIsFaithful(run.spec.metrics, run.results);
    var ensured := EnsureResults(run.spec.metrics, run.results);
    SamplingKeepsFaithful(run.spec.metrics, ensured, 0, LONGEST_DELAY, StartOf(run, env.now), env.samples);
  }

  // ---------------------------------------------------------------- whole runs

  datatype Event = Reconcile(env: Env) | RequestTermination

  function Apply(run: AnalysisRun, e: Event): AnalysisRun {
    match e
    case Reconcile(env) => if |run.spec.metrics| <= |env.samples| then Reconciled(run, env).run else run
    case RequestTermination => run.(spec := run.spec.(terminate := true))
  }

  function Run(run: AnalysisRun, events: seq<Event>): AnalysisRun
    decreases events
  {
    if events == [] then run else Run(Apply(run, events[0]), events[1..])
  }

  /** The counters and verdicts refine the history in every reachable state. */
  lemma {:induction false} RunKeepsFaithful(run: AnalysisRun, events: seq<Event>)
    requires FaithfulRun(run)
    ensures FaithfulRun(Run(run, events)) && Run(run, events).spec.metrics == run.spec.metrics
    decreases events
  {
    hide FaithfulRun, Reconciled;
    if events != [] {
      match events[0] {
        case Reconcile(env) =>
          if |run.spec.metrics| <= |env.samples| {
            ReconcileKeepsFaithful(run, env);
          }
        case RequestTermination => TerminationKeepsFaithful(run);
      }
      RunKeepsFaithful(Apply(run, events[0]), events[1..]);
    }
  }

  lemma TerminationKeepsFaithful(run: AnalysisRun)
    requires FaithfulRun(run)
    ensures FaithfulRun(run.(spec := run.spec.(terminate := true)))
  {
  }

  /** A terminal run never changes again, whatever is sampled or requested; only the
      termination request itself is recorded in its spec. */
  lemma {:induction false} TerminalRunIsFinal(run: AnalysisRun, events: seq<Event>)
    requires Terminal(run.phase)
    ensures var r := Run(run, events); r.(spec := run.spec) == run
    decreases events
  {
    if events != [] {
      TerminalRunIsFinal(Apply(run, events[0]), events[1..]);
    }
  }

  // ---------------------------------------------------------------- bounds on the history

  /** The histories of a faithful result: at most Count conclusive measurements (one when Count
      is not positive), at most one failure beyond the limit, and no run of consecutive errors,
      anywhere in the history, longer than the limit plus one. */
  lemma HistoryIsBounded(m: Metric, mr: MetricResult, k: nat)
    requires Faithful(m, mr) && Sensible(m) && k <= |mr.measurements|
    ensures var ms := mr.measurements;
            && (Budget(m).Some? ==> CountOf(ms, Successful) + CountOf(ms, Failed) <= Max(1, Budget(m).value))
            && CountOf(ms, Failed) <= FailureLimit(m) + 1
            && TrailingErrors(ms[..k]) <= ErrorLimit(m) + 1
  {
    var ms := mr.measurements;
    assert ms[..|ms|] == ms;
    if |ms| > 1 {
      assert VerdictOn(m, ms[..|ms| - 1]) == Running;
    }
    if k > 1 {
      assert ms[..k][..k - 1] == ms[..k - 1];
      assert VerdictOn(m, ms[..k - 1]) == Running;
    }
  }

  /** What the verdicts say about the measurements: success means the budget of conclusive ones
      is reached without a single failure, failure means there was one, and error means the
      history ends in more consecutive errors than the limit. */
  lemma VerdictMeaning(m: Metric, ms: seq<Measurement>)
    requires Sensible(m)
    ensures VerdictOn(m, ms).Successful? ==>
              CountOf(ms, Failed) == 0 && Budget(m).Some? && CountOf(ms, Successful) >= Budget(m).value
    ensures VerdictOn(m, ms).Failed? ==> exists k :: 0 <= k < |ms| && ms[k].phase == Failed
    ensures VerdictOn(m, ms).Error? ==>
              |ms| > ErrorLimit(m) && forall k :: |ms| - 1 - ErrorLimit(m) <= k < |ms| ==> ms[k].phase == Error
    ensures VerdictOn(m, ms).Running? ==>
              CountOf(ms, Failed) <= FailureLimit(m) && TrailingErrors(ms) <= ErrorLimit(m)
              && (Budget(m).Some? ==> CountOf(ms, Successful) + CountOf(ms, Failed) < Budget(m).value)
  {
    hide ErrorLimit, FailureLimit, Budget;
    CountedIsThere(ms, Failed);
    TrailingAreErrors(ms);
  }

  lemma {:induction false} CountedIsThere(ms: seq<Measurement>, phase: Verdict)
    ensures CountOf(ms, phase) > 0 <==> exists k :: 0 <= k < |ms| && ms[k].phase == phase
  {
    if ms != [] {
      CountedIsThere(ms[..|ms| - 1], phase);
      assert forall k :: 0 <= k < |ms| - 1 ==> ms[..|ms| - 1][k] == ms[k];
      if CountOf(ms[..|ms| - 1], phase) > 0 {
        var k :| 0 <= k < |ms| - 1 && ms[..|ms| - 1][k].phase == phase;
        assert ms[k].phase == phase;
      }
    }
  }

  lemma {:induction false} TrailingAreErrors(ms: seq<Measurement>)
    ensures TrailingErrors(ms) <= |ms|
    ensures forall k :: |ms| - TrailingErrors(ms) <= k < |ms| ==> ms[k].phase == Error
    ensures TrailingErrors(ms) < |ms| ==> ms[|ms| - 1 - TrailingErrors(ms)].phase != Error
  {
    if ms != [] {
      TrailingAreErrors(ms[..|ms| - 1]);
      assert forall k :: 0 <= k < |ms| - 1 ==> ms[..|ms| - 1][k] == ms[k];
    }
  }

  // ---------------------------------------------------------------- the verdict on the run

  predicate Fails(mr: MetricResult, dryRun: set<string>) {
    (mr.phase.Failed? || mr.phase.Error?) && mr.name !in dryRun
  }

  predicate Unfinished(mr: MetricResult) {
    !Terminal(mr.phase)
  }

  ghost predicate SomeFail(results: seq<MetricResult>, dryRun: set<string>) {
    exists i :: 0 <= i < |results| && Fails(results[i], dryRun)
  }

  ghost predicate SomeUnfinished(results: seq<MetricResult>) {
    exists i :: 0 <= i < |results| && Unfinished(results[i])
  }

  ghost predicate SomeInconclusive(results: seq<MetricResult>) {
    exists i :: 0 <= i < |results| && results[i].phase.Inconclusive?
  }

  ghost predicate FirstFailure(results: seq<MetricResult>, dryRun: set<string>, i: nat)
    requires i < |results|
  {
    Fails(results[i], dryRun) && forall k :: 0 <= k < i ==> !Fails(results[k], dryRun)
  }

  /** aggregatePhase: a run fails with the first metric that does and is not a dry run; else it
      is running while any metric is unfinished; a metric in dry run never fails it. */
  ghost predicate Aggregates(results: seq<MetricResult>, dryRun: set<string>, v: Verdict) {
    && (v.Failed? || v.Error? <==> SomeFail(results, dryRun))
    && (v.Running? <==> !SomeFail(results, dryRun) && SomeUnfinished(results))
    && (v.Failed? || v.Error? ==>
          exists i :: 0 <= i < |results| && FirstFailure(results, dryRun, i) && results[i].phase == v)
    && (v.Inconclusive? <==> !SomeFail(results, dryRun) && !SomeUnfinished(results) && SomeInconclusive(results))
    && (v.Running? || Terminal(v))
  }

  lemma AggregateMeans(results: seq<MetricResult>, dryRun: set<string>)
    ensures Aggregates(results, dryRun, Aggregate(results, dryRun))
  {
    hide Aggregates;
    AggregateFromMeans(results, dryRun, 0, false, false);
  }

  lemma FailureDecides(results: seq<MetricResult>, dryRun: set<string>, i: nat)
    requires i < |results| && FirstFailure(results, dryRun, i)
    ensures Aggregates(results, dryRun, results[i].phase)
  {
  }

  lemma NoFailureDecides(results: seq<MetricResult>, dryRun: set<string>, anyRunning: bool, sawInconclusive: bool)
    requires !SomeFail(results, dryRun) && anyRunning == SomeUnfinished(results)
    requires sawInconclusive == SomeInconclusive(results)
    ensures Aggregates(results, dryRun, AggregateFrom(results, dryRun, |results|, anyRunning, sawInconclusive))
  {
  }

  lemma {:induction false} AggregateFromMeans(results: seq<MetricResult>, dryRun: set<string>, i: nat, anyRunning: bool, sawInconclusive: bool)
    requires i <= |results|
    requires forall k :: 0 <= k < i ==> !Fails(results[k], dryRun)
    requires anyRunning <==> exists k :: 0 <= k < i && Unfinished(results[k])
    requires sawInconclusive <==> exists k :: 0 <= k < i && results[k].phase.Inconclusive?
    ensures Aggregates(results, dryRun, AggregateFrom(results, dryRun, i, anyRunning, sawInconclusive))
    decreases |results| - i
  {
    hide Aggregates;
    if i == |results| {
      NoFailureDecides(results, dryRun, anyRunning, sawInconclusive);
    } else if Fails(results[i], dryRun) {
      FailureDecides(results, dryRun, i);
    } else {
      AggregateFromMeans(results, dryRun, i + 1, anyRunning || Unfinished(results[i]),
                         sawInconclusive || results[i].phase.Inconclusive?);
    }
  }

  /** The stored phase of a run: not started, or what the verdicts on its histories add up to,
      or Failed because termination was requested.  No run is ever Inconclusive. */
  ghost predicate PhaseExplained(run: AnalysisRun) {
    || (run.results == [] && (run.phase.Unstarted? || run.phase.Pending?))
    || (&& run.phase == Aggregate(run.results, run.spec.dryRun) && !run.phase.Inconclusive?
        && |run.results| == |run.spec.metrics|)
    || (run.spec.terminate && run.phase.Failed? && run.completedAt.Some?)
  }

  lemma ReconcileExplainsPhase(run: AnalysisRun, env: Env)
    requires FaithfulRun(run) && PhaseExplained(run) && |run.spec.metrics| <= |env.samples|
    ensures PhaseExplained(Reconciled(run, env).run)
  {
    hide EnsureResults, SampleFrom, AggregateFrom, Judge;
    ReconcileKeepsFaithful(run, env);
    var next := Reconciled(run, env).run;
    AggregateMeans(next.results, run.spec.dryRun);
    EnsureIsFaithful(run.spec.metrics, run.results);
    SamplingKeepsFaithful(run.spec.metrics, EnsureResults(run.spec.metrics, run.results), 0, LONGEST_DELAY,
                          StartOf(run, env.now), env.samples);
    var sampled := Advanced(run, env).0.results;
    forall i | 0 <= i < |sampled| ensures !sampled[i].phase.Inconclusive? {
      VerdictIsNeverInconclusive(run.spec.metrics[i], sampled[i].measurements);
    }
    AggregateMeans(sampled, run.spec.dryRun);
  }

  lemma VerdictIsNeverInconclusive(m: Metric, ms: seq<Measurement>)
    ensures !VerdictOn(m, ms).Inconclusive?
  {
  }

  lemma {:induction false} RunExplainsPhase(run: AnalysisRun, events: seq<Event>)
    requires FaithfulRun(run) && PhaseExplained(run)
    ensures PhaseExplained(Run(run, events)) && !Run(run, events).phase.Inconclusive?
    decreases events
  {
    hide FaithfulRun, Reconciled, Aggregate;
    if events != [] {
      RunKeepsFaithful(run, [events[0]]);
      assert Run(Apply(run, events[0]), []) == Apply(run, events[0]) && [events[0]][1..] == [];
      if events[0].Reconcile? && |run.spec.metrics| <= |events[0].env.samples| {
        ReconcileExplainsPhase(run, events[0].env);
      }
      RunExplainsPhase(Apply(run, events[0]), events[1..]);
    }
  }

  // ---------------------------------------------------------------- the schedule

  /** As stored, to the whole second: the first measurement starts no earlier than the initial
      delay after the run, each later one no earlier than the interval after the one before
      finished. */
  ghost predicate Spaced(m: Metric, mr: MetricResult, startedAt: Option<int>) {
    var ms := mr.measurements;
    && (ms != [] ==> startedAt.Some?)
    && (ms != [] && m.initialDelay.Some? ==> ms[0].started >= WholeSecond(startedAt.value + m.initialDelay.value))
    && forall k :: 0 < k < |ms| ==> ms[k].started >= WholeSecond(ms[k - 1].finished + IntervalOf(m))
  }

  ghost predicate AllSpaced(metrics: seq<Metric>, results: seq<MetricResult>, startedAt: Option<int>) {
    |metrics| == |results| && forall i :: 0 <= i < |metrics| ==> Spaced(metrics[i], results[i], startedAt)
  }

  /** The clock does not go back between checking a metric and starting its sample. */
  ghost predicate Clocked(samples: seq<Sample>) {
    forall i :: 0 <= i < |samples| ==> samples[i].checked <= samples[i].started
  }

  lemma WholeSecondIsMonotone(a: int, b: int)
    requires a <= b
    ensures WholeSecond(a) <= WholeSecond(b) <= b
  {
  }

  lemma SampledIsSpaced(m: Metric, mr: MetricResult, s: Sample, startedAt: Option<int>)
    requires Spaced(m, mr, startedAt) && startedAt.Some? && s.checked <= s.started
    requires Wait(s.checked, m, mr, startedAt).None?
    ensures Spaced(m, Sampled(m, mr, s), startedAt)
  {
    hide WholeSecond, Classify, Judge, TrailingErrors;
    var ms := mr.measurements;
    if ms != [] {
      WholeSecondIsMonotone(ms[|ms| - 1].finished + IntervalOf(m), s.started);
    } else if m.initialDelay.Some? {
      WholeSecondIsMonotone(startedAt.value + m.initialDelay.value, s.started);
    }
  }

  lemma {:induction false} SamplingKeepsSpacing(metrics: seq<Metric>, results: seq<MetricResult>, i: nat, delay: int,
                             startedAt: Option<int>, samples: seq<Sample>)
    requires i <= |metrics| <= |samples| && AllSpaced(metrics, results, startedAt) && startedAt.Some? && Clocked(samples)
    ensures AllSpaced(metrics, SampleFrom(metrics, results, i, delay, startedAt, samples).0, startedAt)
    decreases |metrics| - i
  {
    hide Spaced, Wait, Sampled;
    if i < |metrics| {
      var wait := Wait(samples[i].checked, metrics[i], results[i], startedAt);
      if Terminal(results[i].phase) {
        SamplingKeepsSpacing(metrics, results, i + 1, delay, startedAt, samples);
      } else if wait.Some? {
        SamplingKeepsSpacing(metrics, results, i + 1, Min(wait.value, delay), startedAt, samples);
      } else {
        SampledIsSpaced(metrics[i], results[i], samples[i], startedAt);
        SamplingKeepsSpacing(metrics, results[i := Sampled(metrics[i], results[i], samples[i])], i + 1,
                             Min(IntervalOf(metrics[i]), delay), startedAt, samples);
      }
    }
  }

  ghost predicate Scheduled(run: AnalysisRun) {
    && (run.phase.Running? ==> run.startedAt.Some?)
    && (run.results == [] || AllSpaced(run.spec.metrics, run.results, run.startedAt))
  }

  lemma StampingKeepsSpacing(metrics: seq<Metric>, results: seq<MetricResult>, now: Option<int>)
    requires AllSpaced(metrics, results, None)
    ensures AllSpaced(metrics, results, now)
  {
  }

  lemma ReconcileKeepsSchedule(run: AnalysisRun, env: Env)
    requires FaithfulRun(run) && Scheduled(run) && |run.spec.metrics| <= |env.samples| && Clocked(env.samples)
    ensures Scheduled(Reconciled(run, env).run)
  {
    hide EnsureResults, SampleFrom, AllFaithful, Aggregate, Spaced;
    if !Terminal(run.phase) {
      EnsureIsFaithful(run.spec.metrics, run.results);
      var ensured := EnsureResults(run.spec.metrics, run.results);
      var startedAt := StartOf(run, env.now);
      if run.results == [] {
        UnsampledIsSpaced(run.spec.metrics, ensured, startedAt);
      } else if run.startedAt.None? {
        StampingKeepsSpacing(run.spec.metrics, ensured, startedAt);
      }
      SamplingKeepsSpacing(run.spec.metrics, ensured, 0, LONGEST_DELAY, startedAt, env.samples);
      StoringKeepsSpacing(run.spec.metrics, Advanced(run, env).0.results, startedAt);
    }
  }

  lemma StoringKeepsSpacing(metrics: seq<Metric>, results: seq<MetricResult>, startedAt: Option<int>)
    requires AllSpaced(metrics, results, startedAt)
    ensures AllSpaced(metrics, results, WholeSeconds(startedAt))
  {
    hide WholeSecond;
    forall i | 0 <= i < |metrics| ensures Spaced(metrics[i], results[i], WholeSeconds(startedAt)) {
      assert Spaced(metrics[i], results[i], startedAt);
      if startedAt.Some? && metrics[i].initialDelay.Some? {
        WholeSecondIsMonotone(startedAt.value, startedAt.value);
        WholeSecondIsMonotone(WholeSecond(startedAt.value) + metrics[i].initialDelay.value,
                              startedAt.value + metrics[i].initialDelay.value);
      }
    }
  }

  lemma UnsampledIsSpaced(metrics: seq<Metric>, results: seq<MetricResult>, startedAt: Option<int>)
    requires |metrics| == |results| && forall i :: 0 <= i < |metrics| ==> results[i].measurements == []
    ensures AllSpaced(metrics, results, startedAt)
  {
  }

  /** Spacing in every reachable state, however the reconciles are timed. */
  lemma {:induction false} RunKeepsSchedule(run: AnalysisRun, events: seq<Event>)
    requires FaithfulRun(run) && Scheduled(run)
    requires forall k :: 0 <= k < |events| && events[k].Reconcile? ==> Clocked(events[k].env.samples)
    ensures Scheduled(Run(run, events))
    decreases events
  {
    hide FaithfulRun, Reconciled, Clocked, AllSpaced;
    if events != [] {
      RunKeepsFaithful(run, [events[0]]);
      assert Run(Apply(run, events[0]), []) == Apply(run, events[0]) && [events[0]][1..] == [];
      if events[0].Reconcile? && |run.spec.metrics| <= |events[0].env.samples| {
        ReconcileKeepsSchedule(run, events[0].env);
      }
      RunKeepsSchedule(Apply(run, events[0]), events[1..]);
    }
  }

  /** The time until isMetricDue holds, or less than zero when it already does. */
  function UntilDue(now: int, m: Metric, mr: MetricResult, startedAt: Option<int>): int {
    Max(if m.initialDelay.Some? && startedAt.Some? then startedAt.value + m.initialDelay.value - now else 0,
        if mr.measurements == [] then 0
        else mr.measurements[|mr.measurements| - 1].finished + IntervalOf(m) - now)
  }

  /** isMetricDue answers whether that time is over, and never asks to wait beyond it. */
  lemma WaitEndsWhenDue(now: int, m: Metric, mr: MetricResult, startedAt: Option<int>)
    ensures var wait := Wait(now, m, mr, startedAt);
            && (wait.None? <==> UntilDue(now, m, mr, startedAt) <= 0)
            && (wait.Some? ==> 0 < wait.value <= UntilDue(now, m, mr, startedAt))
  {
  }

  ghost predicate Frozen(samples: seq<Sample>, now: int) {
    forall i :: 0 <= i < |samples| ==> samples[i].checked == samples[i].started == samples[i].finished == now
  }

  /** The run start as the reconcile knows it and as it is stored: at most as far apart as the
      clock is from its whole second. */
  ghost predicate SameStart(startedAt: Option<int>, stored: Option<int>, now: int) {
    stored == WholeSeconds(startedAt) && (startedAt.Some? ==> startedAt.value - stored.value <= now % SECOND)
  }

  lemma StoredDueTime(now: int, m: Metric, mr: MetricResult, startedAt: Option<int>, stored: Option<int>)
    requires SameStart(startedAt, stored, now)
    ensures UntilDue(now, m, mr, startedAt) <= UntilDue(now, m, mr, stored) + now % SECOND
  {
  }

  lemma {:induction false} SamplingDelay(metrics: seq<Metric>, results: seq<MetricResult>, i: nat, delay: int,
                      startedAt: Option<int>, samples: seq<Sample>, now: int, stored: Option<int>)
    requires i <= |metrics| == |results| && |metrics| <= |samples| && Frozen(samples, now)
    requires SameStart(startedAt, stored, now)
    ensures var (r, d) := SampleFrom(metrics, results, i, delay, startedAt, samples);
            && d <= delay
            && (forall j :: 0 <= j < i ==> r[j] == results[j])
            && (forall j :: i <= j < |metrics| && !Terminal(r[j].phase) ==>
                  d <= UntilDue(now, metrics[j], r[j], stored) + now % SECOND)
    decreases |metrics| - i
  {
    hide Wait, UntilDue, Sampled, IntervalOf, SameStart;
    if i < |metrics| {
      var wait := Wait(samples[i].checked, metrics[i], results[i], startedAt);
      WaitEndsWhenDue(now, metrics[i], results[i], startedAt);
      StoredDueTime(now, metrics[i], results[i], startedAt, stored);
      if Terminal(results[i].phase) {
        SamplingDelay(metrics, results, i + 1, delay, startedAt, samples, now, stored);
      } else if wait.Some? {
        SamplingDelay(metrics, results, i + 1, Min(wait.value, delay), startedAt, samples, now, stored);
      } else {
        SampledIsDueLater(now, metrics[i], results[i], samples[i], stored);
        SamplingDelay(metrics, results[i := Sampled(metrics[i], results[i], samples[i])], i + 1,
                      Min(IntervalOf(metrics[i]), delay), startedAt, samples, now, stored);
      }
    }
  }

  lemma SampledIsDueLater(now: int, m: Metric, mr: MetricResult, s: Sample, startedAt: Option<int>)
    requires s.finished == now
    ensures UntilDue(now, m, Sampled(m, mr, s), startedAt) + now % SECOND >= IntervalOf(m)
  {
    hide Judge, Classify;
  }

  /** A run that is not finished is looked at again in time: with the clock standing still
      during a reconcile, the delay it asks for is at most the larger of one second and the
      time until any unfinished metric is due, up to the fraction of a second that storing the
      times drops. */
  lemma RequeueIsInTime(run: AnalysisRun, env: Env, now: int, j: nat)
    requires FaithfulRun(run) && |run.spec.metrics| <= |env.samples| && Frozen(env.samples, now) && env.now == now
    requires WholeSeconds(run.startedAt) == run.startedAt && j < |run.spec.metrics|
    ensures var o := Reconciled(run, env);
            && (o.requeue.None? <==> Terminal(o.run.phase) || o.err)
            && (o.requeue.Some? ==> SECOND <= o.requeue.value <= LONGEST_DELAY && |o.run.results| == |run.spec.metrics|)
            && (o.requeue.Some? && !Terminal(o.run.results[j].phase) ==>
                  o.requeue.value <= Max(SECOND, UntilDue(now, run.spec.metrics[j], o.run.results[j], o.run.startedAt)
                                                 + now % SECOND))
  {
    hide EnsureResults, SampleFrom, AllFaithful, Aggregate, UntilDue;
    var startedAt := StartOf(run, env.now);
    SamplingDelay(run.spec.metrics, EnsureResults(run.spec.metrics, run.results), 0, LONGEST_DELAY,
                  startedAt, env.samples, now, WholeSeconds(startedAt));
  }
}
