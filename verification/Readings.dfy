/** From what a provider says to what a run stores: which samples are taken, what each reading
    becomes, and when the verdicts fall, told by the fields of the metric. */
module Readings {
  import opened Common
  import opened Analysis
  import opened AnalysisRuns

  /** What a measurement says of the reading it was taken from. */
  predicate Says(v: Verdict, r: Reading) {
    && (v == Error <==> r.QueryFailed?)
    && (v == Successful <==> r.Evaluated? && r.success == Matched)
    && (v == Failed <==> r.Evaluated? && r.success != Matched && r.failure == Matched)
    && (v == Inconclusive <==> r.Evaluated? && r.success != Matched && r.failure != Matched)
  }

  predicate Over(v: Verdict) {
    v in {Successful, Failed, Error, Inconclusive}
  }

  /** A count, a percentage of a hundred, or what stands for neither. */
  predicate LimitIs(v: Option<IntOrPercent>, unset: int, limit: int) {
    match v
    case None => limit == unset
    case Some(Count(n)) => limit == n
    case Some(Percent(p)) => limit == p
    case Some(Malformed) => limit == unset
  }

  /** The budget of conclusive measurements is reached; without a readable one it never is. */
  predicate Reaches(count: Option<IntOrPercent>, conclusive: int) {
    match count
    case Some(Count(n)) => conclusive >= n
    case Some(Percent(p)) => conclusive >= p
    case _ => false
  }

  // ---------------------------------------------------------------- which samples are taken

  /** The result of metric i; before the first sample there is none. */
  function ResultOf(run: AnalysisRun, i: nat): MetricResult
    requires i < |run.spec.metrics| && (run.results == [] || |run.results| == |run.spec.metrics|)
  {
    if run.results == [] then MetricResult(run.spec.metrics[i].name, Pending, 0, 0, 0, 0, 0, []) else run.results[i]
  }

  /** A metric that is not settled is due when the initial delay after the start is over, and
      the interval after its last measurement, ten seconds where none is given. */
  predicate Due(m: Metric, mr: MetricResult, startedAt: Option<int>, now: int) {
    && !Over(mr.phase)
    && (m.initialDelay.Some? && startedAt.Some? ==> startedAt.value + m.initialDelay.value <= now)
    && (mr.measurements != [] ==>
          mr.measurements[|mr.measurements| - 1].finished
          + (if m.interval.Some? && m.interval.value > 0 then m.interval.value else 10_000_000_000) <= now)
  }

  /** The reconcile takes a sample of metric i and stores it. */
  predicate Takes(run: AnalysisRun, env: Env, i: nat)
    requires i < |run.spec.metrics| <= |env.samples| && (run.results == [] || |run.results| == |run.spec.metrics|)
  {
    && !Over(run.phase) && !run.spec.terminate && env.writeOk
    && var startedAt := if run.startedAt.None? && run.phase in {Unstarted, Pending} then Some(env.now) else run.startedAt;
       Due(run.spec.metrics[i], ResultOf(run, i), startedAt, env.samples[i].checked)
  }

  lemma {:induction false} SampleFromAt(metrics: seq<Metric>, results: seq<MetricResult>, i: nat, delay: int,
                                        startedAt: Option<int>, samples: seq<Sample>, j: nat)
    requires i <= |metrics| == |results| && |metrics| <= |samples| && j < |metrics|
    ensures SampleFrom(metrics, results, i, delay, startedAt, samples).0[j]
         == if j < i || Terminal(results[j].phase) || Wait(samples[j].checked, metrics[j], results[j], startedAt).Some?
            then results[j] else Sampled(metrics[j], results[j], samples[j])
    decreases |metrics| - i
  {
    hide Wait, Sampled, Terminal;
    if i < |metrics| {
      var wait := Wait(samples[i].checked, metrics[i], results[i], startedAt);
      if Terminal(results[i].phase) {
        SampleFromAt(metrics, results, i + 1, delay, startedAt, samples, j);
      } else if wait.Some? {
        SampleFromAt(metrics, results, i + 1, Min(wait.value, delay), startedAt, samples, j);
      } else {
        SampleFromAt(metrics, results[i := Sampled(metrics[i], results[i], samples[i])], i + 1,
                     Min(IntervalOf(metrics[i]), delay), startedAt, samples, j);
      }
    }
  }

  lemma DueMeansNoWait(m: Metric, mr: MetricResult, startedAt: Option<int>, now: int)
    ensures Due(m, mr, startedAt, now) <==> !Terminal(mr.phase) && Wait(now, m, mr, startedAt).None?
  {
  }

  lemma SampledMeasures(m: Metric, mr: MetricResult, s: Sample)
    ensures var after := Sampled(m, mr, s);
            && |after.measurements| == |mr.measurements| + 1 && after.measurements[..|mr.measurements|] == mr.measurements
            && Fits(after.measurements[|mr.measurements|], s)
            && after.failed == mr.failed + if after.measurements[|mr.measurements|].phase == Failed then 1 else 0
  {
    hide Judge, TrailingErrors;
  }

  /** The measurement of a sample: its phase says what the reading was, its times are the
      sample's, in whole seconds. */
  predicate Fits(x: Measurement, s: Sample) {
    && Says(x.phase, s.reading)
    && x.started % 1_000_000_000 == 0 && x.started <= s.started < x.started + 1_000_000_000
    && x.finished % 1_000_000_000 == 0 && x.finished <= s.finished < x.finished + 1_000_000_000
  }

  /** One reconcile: each metric that is due gets the measurement of its sample, and no other
      measurement is added, changed or lost. */
  lemma ReconcileMeasures(run: AnalysisRun, env: Env, i: nat)
    requires FaithfulRun(run) && i < |run.spec.metrics| <= |env.samples|
    ensures var after := Reconciled(run, env).run;
            && FaithfulRun(after) && after.spec == run.spec
            && var ms, now := ResultOf(run, i).measurements, ResultOf(after, i).measurements;
               if Takes(run, env, i)
               then |now| == |ms| + 1 && now[..|ms|] == ms && Fits(now[|ms|], env.samples[i])
               else now == ms
  {
    hide EnsureResults, SampleFrom, Aggregate, Sampled, Wait, Due, Faithful, UniqueNames;
    ReconcileKeepsFaithful(run, env);
    var metrics, startedAt := run.spec.metrics, StartOf(run, env.now);
    var ensured := EnsureResults(metrics, run.results);
    EnsureIsFaithful(metrics, run.results);
    EnsuredAt(metrics, run.results, i);
    SampleFromAt(metrics, ensured, 0, LONGEST_DELAY, startedAt, env.samples, i);
    DueMeansNoWait(metrics[i], ensured[i], startedAt, env.samples[i].checked);
    SampledMeasures(metrics[i], ensured[i], env.samples[i]);
  }

  lemma EnsuredAt(metrics: seq<Metric>, existing: seq<MetricResult>, i: nat)
    requires i < |metrics|
    ensures existing == [] ==>
              EnsureResults(metrics, existing)[i] == MetricResult(metrics[i].name, Pending, 0, 0, 0, 0, 0, [])
  {
  }

  /** The reading an event takes of metric i, if it does. */
  function TakenBy(run: AnalysisRun, e: Event, i: nat): seq<Reading>
    requires i < |run.spec.metrics| && FaithfulRun(run)
  {
    if e.Reconcile? && |run.spec.metrics| <= |e.env.samples| && Takes(run, e.env, i)
    then [e.env.samples[i].reading] else []
  }

  /** The readings taken of metric i in a run, in order. */
  function Taken(run: AnalysisRun, events: seq<Event>, i: nat): seq<Reading>
    requires i < |run.spec.metrics| && FaithfulRun(run)
    decreases events
  {
    if events == [] then []
    else
      RunKeepsFaithful(run, [events[0]]);
      assert [events[0]][1..] == [] && Run(Apply(run, events[0]), []) == Apply(run, events[0]);
      TakenBy(run, events[0], i) + Taken(Apply(run, events[0]), events[1..], i)
  }

  /** `now` is `ms` followed by the measurements of these readings. */
  ghost predicate Extends(ms: seq<Measurement>, now: seq<Measurement>, readings: seq<Reading>) {
    && |now| == |ms| + |readings| && now[..|ms|] == ms
    && forall k :: 0 <= k < |readings| ==> Says(now[|ms| + k].phase, readings[k])
  }

  lemma ExtendsTwice(a: seq<Measurement>, b: seq<Measurement>, c: seq<Measurement>, r: seq<Reading>, s: seq<Reading>)
    requires Extends(a, b, r) && Extends(b, c, s)
    ensures Extends(a, c, r + s)
  {
    hide Says;
    assert c[..|a|] == c[..|b|][..|a|];
    forall k | 0 <= k < |r + s| ensures Says(c[|a| + k].phase, (r + s)[k]) {
      if k < |r| {
        assert c[|a| + k] == c[..|b|][|a| + k];
      } else {
        assert Says(c[|b| + (k - |r|)].phase, s[k - |r|]);
      }
    }
  }

  /** Over every run the measurements of a metric are those of the readings taken, in order. */
  lemma {:induction false} MeasurementsAreReadings(run: AnalysisRun, events: seq<Event>, i: nat)
    requires FaithfulRun(run) && i < |run.spec.metrics|
    ensures FaithfulRun(Run(run, events)) && Run(run, events).spec.metrics == run.spec.metrics
    ensures Extends(ResultOf(run, i).measurements, ResultOf(Run(run, events), i).measurements, Taken(run, events, i))
    decreases events
  {
    hide Faithful, UniqueNames, Reconciled, Takes, Says, Taken, Extends;
    RunKeepsFaithful(run, events);
    if events == [] {
      TakenOfNone(run, i);
      ExtendsByNone(ResultOf(run, i).measurements);
    } else {
      RunKeepsFaithful(run, [events[0]]);
      assert [events[0]][1..] == [] && Run(Apply(run, events[0]), []) == Apply(run, events[0]);
      TakenTurn(run, events, i);
      MeasurementsAreReadings(Apply(run, events[0]), events[1..], i);
      EventMeasures(run, events[0], i);
      ExtendsTwice(ResultOf(run, i).measurements, ResultOf(Apply(run, events[0]), i).measurements,
                   ResultOf(Run(run, events), i).measurements,
                   TakenBy(run, events[0], i), Taken(Apply(run, events[0]), events[1..], i));
    }
  }

  lemma ExtendsByNone(ms: seq<Measurement>)
    ensures Extends(ms, ms, [])
  {
  }

  lemma EventMeasures(run: AnalysisRun, e: Event, i: nat)
    requires FaithfulRun(run) && i < |run.spec.metrics|
    requires FaithfulRun(Apply(run, e)) && Apply(run, e).spec.metrics == run.spec.metrics
    ensures Extends(ResultOf(run, i).measurements, ResultOf(Apply(run, e), i).measurements, TakenBy(run, e, i))
  {
    hide Faithful, UniqueNames, Reconciled, Takes, Says;
    if e.Reconcile? && |run.spec.metrics| <= |e.env.samples| {
      ReconcileMeasures(run, e.env, i);
    }
  }

  lemma TakenOfNone(run: AnalysisRun, i: nat)
    requires i < |run.spec.metrics| && FaithfulRun(run)
    ensures Taken(run, [], i) == []
  {
  }

  lemma TakenTurn(run: AnalysisRun, events: seq<Event>, i: nat)
    requires i < |run.spec.metrics| && FaithfulRun(run) && events != []
    requires FaithfulRun(Apply(run, events[0])) && i < |Apply(run, events[0]).spec.metrics|
    ensures Taken(run, events, i)
         == TakenBy(run, events[0], i) + Taken(Apply(run, events[0]), events[1..], i)
  {
    hide FaithfulRun, Reconciled, Takes;
  }

  // ---------------------------------------------------------------- the verdicts

  /** The verdict on a history, by the limits as they are written: four errors in a row are
      borne and no failure is, where no limit is given. */
  lemma VerdictCases(m: Metric, ms: seq<Measurement>, failures: int, errors: int)
    requires LimitIs(m.failureLimit, 0, failures) && LimitIs(m.errorLimit, 4, errors)
    ensures VerdictOn(m, ms)
         == if ms == [] then Pending
            else if TrailingErrors(ms) > errors then Error
            else if CountOf(ms, Failed) > failures then Failed
            else if !Reaches(m.count, CountOf(ms, Successful) + CountOf(ms, Failed)) then Running
            else if CountOf(ms, Failed) > 0 then Failed
            else Successful
  {
  }

  /** In particular: more errors at the end of a history than the limit settle the metric as
      Error, and no fewer do. */
  lemma ErrorsInARow(m: Metric, ms: seq<Measurement>, errors: nat)
    requires LimitIs(m.errorLimit, 4, errors) && ms != []
    ensures VerdictOn(m, ms) == Error
            <==> |ms| > errors && forall k :: |ms| - 1 - errors <= k < |ms| ==> ms[k].phase == Error
  {
    hide TrailingErrors;
    TrailingAreErrors(ms);
    var n := TrailingErrors(ms);
    assert n < |ms| ==> ms[|ms| - 1 - n].phase != Error;
  }

  /** A reading that fails, beyond the failure limit and on a metric that is not a dry run,
      fails the run. */
  lemma FailureBeyondLimitFailsTheRun(run: AnalysisRun, env: Env, i: nat, failures: int)
    requires FaithfulRun(run) && i < |run.spec.metrics| <= |env.samples| && Takes(run, env, i)
    requires LimitIs(run.spec.metrics[i].failureLimit, 0, failures) && ResultOf(run, i).failed >= failures
    requires run.spec.metrics[i].name !in run.spec.dryRun
    requires env.samples[i].reading.Evaluated?
    requires env.samples[i].reading.success != Matched && env.samples[i].reading.failure == Matched
    ensures Reconciled(run, env).run.phase in {Failed, Error}
  {
    hide EnsureResults, SampleFrom, Aggregate, Sampled, Wait, Due, Faithful, UniqueNames;
    var metrics, startedAt := run.spec.metrics, StartOf(run, env.now);
    var ensured := EnsureResults(metrics, run.results);
    EnsureIsFaithful(metrics, run.results);
    EnsuredAt(metrics, run.results, i);
    SampleFromAt(metrics, ensured, 0, LONGEST_DELAY, startedAt, env.samples, i);
    DueMeansNoWait(metrics[i], ensured[i], startedAt, env.samples[i].checked);
    FailureIsJudged(metrics[i], ensured[i], env.samples[i], failures);
    var results := SampleFrom(metrics, ensured, 0, LONGEST_DELAY, startedAt, env.samples).0;
    AggregateMeans(results, run.spec.dryRun);
    EnsuredName(metrics, run.results, i);
    assert Fails(results[i], run.spec.dryRun);
  }

  lemma EnsuredName(metrics: seq<Metric>, existing: seq<MetricResult>, i: nat)
    requires UniqueNames(metrics) && (existing == [] || AllFaithful(metrics, existing)) && i < |metrics|
    ensures EnsureResults(metrics, existing)[i].name == metrics[i].name
  {
    EnsureIsFaithful(metrics, existing);
  }

  lemma FailureIsJudged(m: Metric, mr: MetricResult, s: Sample, failures: int)
    requires LimitIs(m.failureLimit, 0, failures) && mr.failed >= failures
    requires s.reading.Evaluated? && s.reading.success != Matched && s.reading.failure == Matched
    ensures Sampled(m, mr, s).phase in {Failed, Error} && Sampled(m, mr, s).name == mr.name
  {
  }

  // ---------------------------------------------------------------- what a reconcile stores

  /** The other fields: a run that is over stays; a termination makes a live one Failed; a refused
      write changes nothing; otherwise the start is stamped once, and the end when the run is
      over, in whole seconds. */
  lemma ReconcileStamps(run: AnalysisRun, env: Env)
    requires |run.spec.metrics| <= |env.samples|
    ensures var o := Reconciled(run, env);
            var after := o.run;
            && (Over(run.phase) ==> o == Outcome(run, None, false))
            && (!Over(run.phase) && !env.writeOk ==> o == Outcome(run, None, true))
            && (!Over(run.phase) && env.writeOk && run.spec.terminate ==>
                  && after.phase == Failed && after.results == run.results && after.startedAt == run.startedAt
                  && o.requeue.None? && !o.err && Stamp(after.completedAt, env.completed))
            && (!Over(run.phase) && env.writeOk && !run.spec.terminate ==>
                  && !o.err && (o.requeue.None? <==> Over(after.phase))
                  && (Over(after.phase) ==> Stamp(after.completedAt, env.completed))
                  && (!Over(after.phase) && run.completedAt.None? ==> after.completedAt.None?)
                  && (run.startedAt.None? && run.phase in {Unstarted, Pending} ==> Stamp(after.startedAt, env.now))
                  && (run.startedAt.Some? ==> Stamp(after.startedAt, run.startedAt.value)))
  {
    hide SampleFrom, EnsureResults, AggregateFrom;
  }

  predicate Stamp(t: Option<int>, now: int) {
    t.Some? && t.value % 1_000_000_000 == 0 && t.value <= now < t.value + 1_000_000_000
  }
}
