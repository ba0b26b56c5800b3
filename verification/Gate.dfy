/** The two controllers together: an analysis step of a Rollout is a gate that the AnalysisRun
    reconciler opens or keeps shut. */
module Gate {
  import opened Common
  import P = Progression
  import T = Transitions
  import R = ProgressionRuns
  import C = Completion
  import L = ProgressionLimits
  import A = Analysis
  import AR = AnalysisRuns
  import Rd = Readings

  /** The Rollout with its router, and the AnalysisRuns it has created. */
  datatype System = System(world: P.World, runs: map<P.RunName, A.AnalysisRun>)

  datatype Event =
    | RolloutSync(env: P.Env, template: A.RunSpec)      // what the templates materialize to
    | OlderSync(ro: P.Rollout, env: P.Env, template: A.RunSpec) // one that reads an older object
    | RunSync(name: P.RunName, visit: A.Env)
    | Terminate(name: P.RunName)
    | Other(event: R.Event)                          // what users do

  /** A run as getOrCreateAnalysisRun creates it. */
  function NewRun(spec: A.RunSpec): A.AnalysisRun {
    A.AnalysisRun(spec, Unstarted, None, None, [])
  }

  /** The name of the run of the current step. */
  function GateName(ro: P.Rollout): P.RunName {
    P.NameOfRun(ro, ro.status.currentStep)
  }

  predicate AtGate(ro: P.Rollout) {
    && ro.status.currentStep != "" && P.CurrentIndex(ro).Some?
    && ro.spec.steps[P.CurrentIndex(ro).value].action.Analysis?
  }

  /** The reconcile that read `ro` gets as far as runAnalysis. */
  predicate Consults(w: P.World, ro: P.Rollout, env: P.Env) {
    && AtGate(ro) && !ro.spec.paused && env.resolves && env.replicaSetsOk
    && !P.PushReplicaCounts(w.(budget := env.budget), ro, env).err && !ro.spec.abort
  }

  /** The runs after it: the one of its step is created if it is missing. */
  function WithRun(sys: System, ro: P.Rollout, env: P.Env, template: A.RunSpec): map<P.RunName, A.AnalysisRun> {
    if Consults(sys.world, ro, env) && !env.run.RunUnavailable? && GateName(ro) !in sys.runs
    then sys.runs[GateName(ro) := NewRun(template)] else sys.runs
  }

  /** The API server answers with the stored run, or creates it; or it fails. */
  function Answered(sys: System, env: P.Env): P.Env {
    if env.run.RunUnavailable? then env
    else if GateName(sys.world.stored) in sys.runs then
      env.(run := P.RunPhase(sys.runs[GateName(sys.world.stored)].phase))
    else env.(run := P.RunPhase(Unstarted))
  }

  function Apply(sys: System, e: Event): System {
    match e
    case RolloutSync(env, template) =>
      System(P.Sync(sys.world, Answered(sys, env)).world, WithRun(sys, sys.world.stored, env, template))
    case OlderSync(ro, env, template) =>
      if ro.version >= sys.world.stored.version then sys
      else System(R.Apply(sys.world, R.CachedReconcile(ro, env)), WithRun(sys, ro, env, template))
    case RunSync(name, visit) =>
      if name in sys.runs && |sys.runs[name].spec.metrics| <= |visit.samples|
      then sys.(runs := sys.runs[name := A.Reconciled(sys.runs[name], visit).run]) else sys
    case Terminate(name) =>
      if name in sys.runs then sys.(runs := sys.runs[name := AR.Apply(sys.runs[name], AR.RequestTermination)])
      else sys
    case Other(event) =>
      if event.Reconcile? || event.CachedReconcile? then sys else sys.(world := R.Apply(sys.world, event))
  }

  function Run(sys: System, events: seq<Event>): System
    decreases events
  {
    if events == [] then sys else Run(Apply(sys, events[0]), events[1..])
  }

  /** Every AnalysisRun refines its history. */
  ghost predicate Trusted(sys: System) {
    forall name :: name in sys.runs ==> AR.FaithfulRun(sys.runs[name]) && AR.PhaseExplained(sys.runs[name])
  }

  /** Templates give a run metrics with distinct names. */
  ghost predicate WellFormed(e: Event) {
    e.RolloutSync? || e.OlderSync? ==> AR.UniqueNames(e.template.metrics)
  }

  lemma ApplyKeepsTrusted(sys: System, e: Event)
    requires Trusted(sys) && WellFormed(e)
    ensures Trusted(Apply(sys, e))
  {
    hide P.Sync, R.Apply, A.Reconciled, Consults, AR.PhaseExplained, AR.AllFaithful;
    match e
    case RolloutSync(_, template) => NewRunIsTrusted(template);
    case OlderSync(_, _, template) => NewRunIsTrusted(template);
    case RunSync(name, visit) =>
      if name in sys.runs && |sys.runs[name].spec.metrics| <= |visit.samples| {
        AR.ReconcileKeepsFaithful(sys.runs[name], visit);
        AR.ReconcileExplainsPhase(sys.runs[name], visit);
      }
    case Terminate(name) =>
      if name in sys.runs {
        TerminationIsTrusted(sys.runs[name]);
      }
    case Other(_) =>
  }

  lemma NewRunIsTrusted(spec: A.RunSpec)
    requires AR.UniqueNames(spec.metrics)
    ensures AR.FaithfulRun(NewRun(spec)) && AR.PhaseExplained(NewRun(spec))
  {
  }

  lemma TerminationIsTrusted(run: A.AnalysisRun)
    requires AR.FaithfulRun(run) && AR.PhaseExplained(run)
    ensures AR.FaithfulRun(AR.Apply(run, AR.RequestTermination))
    ensures AR.PhaseExplained(AR.Apply(run, AR.RequestTermination))
  {
  }

  // ---------------------------------------------------------------- a failed gate stays shut

  predicate Blocking(v: Verdict) {
    v.Failed? || v.Error?
  }

  predicate Stops(policy: P.Policy) {
    policy.AbortRollout? || policy.PauseRollout?
  }

  /** The Rollout is at an analysis step whose run has failed and whose policy is to roll back
      or to pause. */
  predicate Shut(sys: System, step: string) {
    var ro := sys.world.stored;
    && ro.status.currentStep == step && AtGate(ro)
    && Stops(ro.spec.steps[P.CurrentIndex(ro).value].action.onFailure)
    && GateName(ro) in sys.runs && Blocking(sys.runs[GateName(ro)].phase)
  }

  /** Still shut: the same step, the same run name, a run that is still blocked. */
  lemma StaysShut(sys: System, after: System, step: string)
    requires Shut(sys, step) && after.world.stored.status.currentStep == step
    requires after.world.stored.spec.steps == sys.world.stored.spec.steps
    requires after.world.stored.status.podHash == sys.world.stored.status.podHash
    requires GateName(sys.world.stored) in after.runs && Blocking(after.runs[GateName(sys.world.stored)].phase)
    ensures Shut(after, step)
  {
  }

  lemma BlockedRunIsFinal(run: A.AnalysisRun, visit: A.Env)
    requires Blocking(run.phase) && |run.spec.metrics| <= |visit.samples|
    ensures A.Reconciled(run, visit).run == run
  {
  }

  lemma ApplyKeepsShut(sys: System, e: Event, step: string)
    requires Shut(sys, step)
    ensures Shut(Apply(sys, e), step)
  {
    hide P.Sync, P.CurrentIndex, A.Reconciled, Consults, T.Transition, R.Apply;
    var name := GateName(sys.world.stored);
    match e
    case RolloutSync(env, _) =>
      T.SyncIsOneTransition(sys.world, Answered(sys, env));
      ShutTransition(sys, Answered(sys, env), P.Sync(sys.world, Answered(sys, env)).world.stored);
      StaysShut(sys, Apply(sys, e), step);
    case RunSync(other, visit) =>
      if other == name && |sys.runs[name].spec.metrics| <= |visit.samples| {
        BlockedRunIsFinal(sys.runs[name], visit);
      }
      StaysShut(sys, Apply(sys, e), step);
    case Terminate(_) => StaysShut(sys, Apply(sys, e), step);
    case OlderSync(ro, env, _) =>
      R.OthersKeepTheStep(sys.world, R.CachedReconcile(ro, env));
      StaysShut(sys, Apply(sys, e), step);
    case Other(event) =>
      if !event.Reconcile? {
        R.OthersKeepTheStep(sys.world, event);
      }
      StaysShut(sys, Apply(sys, e), step);
  }

  lemma ShutTransition(sys: System, env: P.Env, after: P.Rollout)
    requires AtGate(sys.world.stored) && Shut(sys, sys.world.stored.status.currentStep)
    requires env.run.RunPhase? ==> Blocking(env.run.phase)
    requires after == sys.world.stored || T.Transition(sys.world.stored, after, env)
    ensures var ro := sys.world.stored;
            && after.status.currentStep == ro.status.currentStep && after.status.podHash == ro.status.podHash
            && after.spec.steps == ro.spec.steps
  {
    hide P.Position, P.AdvancedStatus, P.Recorded;
  }

  /** The gate pins the Rollout: once the run of the current step has failed, no interleaving
      of the two controllers and of users takes CurrentStep past it, while nobody edits the
      steps or deletes the run. */
  lemma {:induction false} FailedGatePinsRollout(sys: System, events: seq<Event>, step: string)
    requires Shut(sys, step)
    ensures Shut(Run(sys, events), step) && Run(sys, events).world.stored.status.currentStep == step
    decreases events
  {
    hide Shut, Apply;
    if events != [] {
      ApplyKeepsShut(sys, events[0], step);
      FailedGatePinsRollout(Apply(sys, events[0]), events[1..], step);
    } else {
      ShutIsAtStep(sys, step);
    }
  }

  lemma ShutIsAtStep(sys: System, step: string)
    requires Shut(sys, step)
    ensures sys.world.stored.status.currentStep == step
  {
  }

  /** Which histories shut the gate: in a run that was not terminated by request, a metric that
      is not a dry run and whose history recounts to Failed or Error. */
  lemma FailedHistoryBlocks(run: A.AnalysisRun, j: nat)
    requires AR.FaithfulRun(run) && AR.PhaseExplained(run) && run.results != []
    requires j < |run.spec.metrics| && run.spec.metrics[j].name !in run.spec.dryRun
    requires Blocking(A.VerdictOn(run.spec.metrics[j], run.results[j].measurements))
    ensures Blocking(run.phase)
  {
    AR.AggregateMeans(run.results, run.spec.dryRun);
    assert AR.Fails(run.results[j], run.spec.dryRun);
  }

  /** From a reading to the gate: when the executor is at an analysis step that rolls back or
      pauses on failure, and a visit to its run takes a reading that fails beyond the failure
      limit, on a metric that is not a dry run, the gate is shut. */
  lemma FailedReadingShutsTheGate(sys: System, visit: A.Env, i: nat, failures: int)
    requires AtGate(sys.world.stored) && GateName(sys.world.stored) in sys.runs
    requires Stops(sys.world.stored.spec.steps[P.CurrentIndex(sys.world.stored).value].action.onFailure)
    requires var run := sys.runs[GateName(sys.world.stored)];
             && AR.FaithfulRun(run) && i < |run.spec.metrics| <= |visit.samples| && Rd.Takes(run, visit, i)
             && Rd.LimitIs(run.spec.metrics[i].failureLimit, 0, failures) && Rd.ResultOf(run, i).failed >= failures
             && run.spec.metrics[i].name !in run.spec.dryRun
             && visit.samples[i].reading.Evaluated?
             && visit.samples[i].reading.success != A.Matched && visit.samples[i].reading.failure == A.Matched
    ensures Shut(Apply(sys, RunSync(GateName(sys.world.stored), visit)), sys.world.stored.status.currentStep)
  {
    hide A.Reconciled, P.Position, AR.FaithfulRun, Rd.Takes, Rd.LimitIs;
    Rd.FailureBeyondLimitFailsTheRun(sys.runs[GateName(sys.world.stored)], visit, i, failures);
  }

  // ---------------------------------------------------------------- only success opens it

  /** The policies in force do not ignore a bad verdict. */
  predicate Strict(ro: P.Rollout)
    requires AtGate(ro)
  {
    !ro.spec.steps[P.CurrentIndex(ro).value].action.onFailure.IgnoreResult?
  }

  lemma OnlySuccessMovesOn(w: P.World, env: P.Env)
    requires AtGate(w.stored) && Strict(w.stored)
    requires env.run.RunPhase? ==> !env.run.phase.Inconclusive?
    ensures P.Sync(w, env).world.stored.status.currentStep != w.stored.status.currentStep ==>
              env.run == P.RunPhase(Successful)
  {
    hide P.Sync, P.Position, P.AdvancedStatus, P.Recorded;
    T.SyncIsOneTransition(w, env);
  }

  /** Passing the gate means something about the measurements: when a reconcile leaves an
      analysis step whose policy does not ignore failures, the run of that step exists and the
      whole history of every metric that is not a dry run recounts to Successful. */
  lemma GateOpensOnlyOnSuccess(sys: System, env: P.Env, template: A.RunSpec)
    requires Trusted(sys) && AtGate(sys.world.stored) && Strict(sys.world.stored)
    ensures var after, name := Apply(sys, RolloutSync(env, template)), GateName(sys.world.stored);
            after.world.stored.status.currentStep != sys.world.stored.status.currentStep ==>
              name in sys.runs && PassedOnMerit(sys.runs[name])
  {
    hide P.Sync, P.Position, Consults, AR.FaithfulRun, AR.PhaseExplained;
    var name := GateName(sys.world.stored);
    if name in sys.runs {
      TrustedIsConclusive(sys.runs[name]);
    }
    OnlySuccessMovesOn(sys.world, Answered(sys, env));
    if name in sys.runs && sys.runs[name].phase == Successful {
      SuccessMeansMerit(sys.runs[name]);
    }
  }

  lemma TrustedIsConclusive(run: A.AnalysisRun)
    requires AR.PhaseExplained(run)
    ensures !run.phase.Inconclusive?
  {
  }

  ghost predicate PassedOnMerit(run: A.AnalysisRun) {
    && |run.results| == |run.spec.metrics|
    && forall j :: 0 <= j < |run.spec.metrics| && run.spec.metrics[j].name !in run.spec.dryRun ==>
         A.VerdictOn(run.spec.metrics[j], run.results[j].measurements) == Successful
  }

  /** In particular no such metric with sensible limits ever measured a failure. */
  lemma MeritMeansNoFailures(run: A.AnalysisRun, j: nat)
    requires PassedOnMerit(run) && j < |run.spec.metrics| && run.spec.metrics[j].name !in run.spec.dryRun
    requires AR.Sensible(run.spec.metrics[j])
    ensures forall k :: 0 <= k < |run.results[j].measurements| ==> run.results[j].measurements[k].phase != Failed
    ensures run.results[j].measurements != []
  {
    AR.VerdictMeaning(run.spec.metrics[j], run.results[j].measurements);
    AR.CountedIsThere(run.results[j].measurements, Failed);
  }

  lemma SuccessMeansMerit(run: A.AnalysisRun)
    requires AR.FaithfulRun(run) && AR.PhaseExplained(run) && run.phase == Successful
    ensures PassedOnMerit(run)
  {
    hide A.Aggregate, A.VerdictOn, A.CountOf;
    AR.AggregateMeans(run.results, run.spec.dryRun);
    forall j | 0 <= j < |run.spec.metrics| && run.spec.metrics[j].name !in run.spec.dryRun
      ensures A.VerdictOn(run.spec.metrics[j], run.results[j].measurements) == Successful
    {
      var mr := run.results[j];
      assert !AR.Fails(mr, run.spec.dryRun) && !AR.Unfinished(mr);
      AR.VerdictIsNeverInconclusive(run.spec.metrics[j], mr.measurements);
    }
  }

  // ---------------------------------------------------------------- later passes measure nothing

  /** What an event of the two controllers is to the executor alone; None for one that is not
      its business. */
  function ExecutorEvent(sys: System, e: Event): Option<R.Event> {
    match e
    case RolloutSync(env, _) => Some(R.Reconcile(Answered(sys, env)))
    case OlderSync(ro, env, _) => Some(R.CachedReconcile(ro, env))
    case Other(event) => if event.Reconcile? || event.CachedReconcile? then None else Some(event)
    case _ => None
  }

  /** The pod hash is never stamped, with both controllers at work. */
  lemma {:induction false} PodHashStays(sys: System, events: seq<Event>, start: int)
    requires R.Refines(sys.world.stored, start) && sys.world.stored.spec.steps != []
    ensures Run(sys, events).world.stored.status.podHash == sys.world.stored.status.podHash
    decreases events
  {
    hide R.Refines, R.Apply, Answered, Consults;
    if events != [] {
      var next, event := Apply(sys, events[0]), ExecutorEvent(sys, events[0]);
      if event.None? {
        PodHashStays(next, events[1..], start);
      } else {
        var w := R.Apply(sys.world, event.value);
        IsExecutorEvent(sys, events[0]);
        R.ApplyRefines(sys.world, event.value, start);
        R.ApplyKeepsSteps(sys.world, event.value);
        R.PodHashIsNeverStamped(sys.world, [event.value], start);
        assert [event.value][1..] == [] && R.Run(sys.world, [event.value]) == R.Run(w, []) == w;
        PodHashStays(next, events[1..], R.PassStart(w, start));
      }
    }
  }

  lemma IsExecutorEvent(sys: System, e: Event)
    requires ExecutorEvent(sys, e).Some?
    ensures Apply(sys, e).world == R.Apply(sys.world, ExecutorEvent(sys, e).value)
  {
    hide P.Sync, Consults, Answered;
  }

  /** Runs are never deleted, and one that is over keeps its verdict and its history. */
  lemma {:induction false} FinishedRunStays(sys: System, events: seq<Event>, name: P.RunName)
    requires name in sys.runs && A.Terminal(sys.runs[name].phase)
    ensures var runs := Run(sys, events).runs;
            && name in runs && runs[name].phase == sys.runs[name].phase && runs[name].results == sys.runs[name].results
    decreases events
  {
    hide P.Sync, R.Apply, Consults, Answered, A.Advanced;
    if events != [] {
      FinishedRunStays(Apply(sys, events[0]), events[1..], name);
    }
  }

  /** A later pass over the steps does not measure again.  Whatever the two controllers and
      users do in between, back at a gate whose run was over the executor is answered with the
      verdict of that old run, because the pod hash in its name is never stamped; and it
      creates no other. */
  lemma LaterPassReusesTheRun(sys: System, events: seq<Event>, start: int, env: P.Env, template: A.RunSpec)
    requires R.Refines(sys.world.stored, start) && sys.world.stored.spec.steps != []
    requires GateName(sys.world.stored) in sys.runs && A.Terminal(sys.runs[GateName(sys.world.stored)].phase)
    requires Run(sys, events).world.stored.status.currentStep == sys.world.stored.status.currentStep
    requires env.run.RunPhase?
    ensures var later, name := Run(sys, events), GateName(sys.world.stored);
            && GateName(later.world.stored) == name && name in later.runs
            && later.runs[name].phase == sys.runs[name].phase && later.runs[name].results == sys.runs[name].results
            && Answered(later, env) == env.(run := P.RunPhase(sys.runs[name].phase))
            && Apply(later, RolloutSync(env, template)).runs == later.runs
  {
    hide Run, R.Refines, P.Sync, Consults, A.Terminal;
    PodHashStays(sys, events, start);
    FinishedRunStays(sys, events, GateName(sys.world.stored));
  }

  // ---------------------------------------------------------------- reached from a new Rollout

  /** One analysis that rolls back on failure, and a metric that one good sample settles. */
  function CheckSteps(): seq<P.Step> {
    [P.Step("check", P.Analysis(P.AbortRollout))]
  }

  function OneSample(): A.RunSpec {
    A.RunSpec([A.Metric("latency", None, None, Some(Count(1)), None, None)], {}, false)
  }

  /** An environment in which nothing fails and the API server answers for AnalysisRuns too. */
  function Answering(): P.Env {
    L.Fair(0, P.Counts(1, 1, 1, 1)).(run := P.RunPhase(Unstarted))
  }

  /** A visit to a run of that metric that measures one success. */
  function GoodVisit(): A.Env {
    A.Env(0, [A.Sample(0, A.Evaluated(A.Matched, A.NotMatched), 0, 0)], 0, true)
  }

  lemma GoodVisitSucceeds()
    ensures A.Reconciled(NewRun(OneSample()), GoodVisit()).run.phase == Successful
  {
    var run, env := NewRun(OneSample()), GoodVisit();
    var m := run.spec.metrics[0];
    var ensured := A.EnsureResults(run.spec.metrics, run.results);
    var fresh_ := A.MetricResult("latency", Pending, 0, 0, 0, 0, 0, []);
    assert ensured == [fresh_];
    var sampled := A.Sampled(m, fresh_, env.samples[0]);
    assert [fresh_][0 := sampled] == [sampled];
    assert sampled.phase == Successful;
    assert A.SampleFrom(run.spec.metrics, [sampled], 1, A.DEFAULT_INTERVAL, Some(0), env.samples).0 == [sampled];
    assert A.AggregateFrom([sampled], {}, 1, false, false) == Successful;
  }

  /** The Rollout at that step, with nothing left to count. */
  ghost predicate Checking(sys: System) {
    var ro := sys.world.stored;
    && ro.spec == L.NewRollout(CheckSteps(), false).spec && ro.status.currentStep == "check"
    && C.Calm(ro, Answering())
  }

  lemma CheckSync(w: P.World, env: P.Env)
    requires w.stored.spec.steps == CheckSteps() && w.stored.status.currentStep == "check" && C.Calm(w.stored, env)
    ensures var ro, after := w.stored, P.Sync(w, env).world.stored;
            var recorded := T.WithSummary(ro, "check", Successful);
            && (env.run == P.RunPhase(Unstarted) ==> after == ro)
            && (env.run == P.RunPhase(Successful) ==>
                  after == if recorded != ro.status then T.Next(ro, recorded)
                           else T.Next(ro, P.AdvancedStatus(ro, 0, env.now)))
  {
    hide P.Recorded, P.PutStatus;
    var ro, start := w.stored, w.(budget := env.budget);
    var recorded := T.WithSummary(ro, "check", Successful);
    assert P.CurrentIndex(ro) == Some(0);
    T.PutIsOneStep(start, ro, recorded);
    T.PutIsOneStep(P.PutStatus(start, ro.(status := recorded)).world, ro, P.AdvancedStatus(ro, 0, env.now));
  }

  /** One reconcile there creates the missing run, or records its success, or moves on. */
  lemma CheckOnce(sys: System)
    requires Checking(sys)
    ensures var ro, name := sys.world.stored, GateName(sys.world.stored);
            var after := Apply(sys, RolloutSync(Answering(), OneSample()));
            var recorded := T.WithSummary(ro, "check", Successful);
            if name !in sys.runs then after.world.stored == ro && after.runs == sys.runs[name := NewRun(OneSample())]
            else && after.runs == sys.runs
                 && (sys.runs[name].phase == Successful ==>
                       after.world.stored == if recorded != ro.status then T.Next(ro, recorded)
                                             else T.Next(ro, P.AdvancedStatus(ro, 0, 0)))
  {
    hide P.Recorded, P.PutStatus, P.AdvancedStatus, P.Sync;
    CheckSync(sys.world, Answered(sys, Answering()));
    assert P.CurrentIndex(sys.world.stored) == Some(0);
  }

  lemma StartOnce(sys: System)
    requires sys.world.stored.spec == L.NewRollout(CheckSteps(), false).spec && sys.world.stored.status.currentStep == ""
    requires C.Calm(sys.world.stored, Answering())
    ensures var after := Apply(sys, RolloutSync(Answering(), OneSample()));
            && after.world.stored == T.Next(sys.world.stored, P.Started(sys.world.stored, 0))
            && after.runs == sys.runs && Checking(after)
  {
    hide P.Sync;
    L.FirstStepStarts(sys.world, Answered(sys, Answering()));
  }

  lemma CountOnce(sys: System)
    requires sys.world.stored == L.NewRollout(CheckSteps(), false)
    ensures var ro, after := sys.world.stored, Apply(sys, RolloutSync(Answering(), OneSample()));
            && after.world.stored == T.Next(ro, P.Counted(ro, Answering().counts)) && after.runs == sys.runs
            && C.Calm(after.world.stored, Answering())
  {
    hide P.Sync;
    L.CountsComeFirst(sys.world, Answered(sys, Answering()));
    L.CountedIsCalm(sys.world.stored, Answering());
  }

  /** The first visit to the gate: create the run, measure, record, move on. */
  lemma FirstVisit(sys: System, name: P.RunName)
    requires Checking(sys) && name == GateName(sys.world.stored) && sys.runs == map[]
    requires sys.world.stored.status.summaries == []
    ensures var e := RolloutSync(Answering(), OneSample());
            var measured := Apply(Apply(sys, e), RunSync(name, GoodVisit()));
            var done := Apply(Apply(measured, e), e);
            && Passed(done, name) && done.world.stored.status.phase == P.Healthy
            && done.runs == measured.runs
  {
    hide Apply, P.PutStatus;
    var e := RolloutSync(Answering(), OneSample());
    var created := Apply(sys, e);
    CheckOnce(sys);
    GoodVisitSucceeds();
    var measured := Apply(created, RunSync(name, GoodVisit()));
    Visited(created, name);
    CheckOnce(measured);
    var recorded := Apply(measured, e);
    CheckOnce(recorded);
  }

  lemma Visited(sys: System, name: P.RunName)
    requires name in sys.runs && sys.runs[name] == NewRun(OneSample())
    ensures var after := Apply(sys, RunSync(name, GoodVisit()));
            && after.world == sys.world && name in after.runs && after.runs[name].phase == Successful
  {
    hide A.Reconciled;
    GoodVisitSucceeds();
  }

  /** The rollout is over, and the run of its gate and the summary of it are still there. */
  ghost predicate Passed(sys: System, name: P.RunName) {
    var ro := sys.world.stored;
    && ro.spec == L.NewRollout(CheckSteps(), false).spec && ro.status.currentStep == ""
    && C.Calm(ro, Answering()) && name == P.NameOfRun(ro, "check")
    && name in sys.runs && sys.runs[name].phase == Successful
    && ro.status.summaries == [P.Summary(name, "check", Successful)]
  }

  /** The next visit: through at once. */
  lemma NextVisit(sys: System, name: P.RunName)
    requires Passed(sys, name)
    ensures var e := RolloutSync(Answering(), OneSample());
            var arrived := Apply(sys, e);
            var through := Apply(arrived, e);
            && AtGate(arrived.world.stored) && arrived.runs == sys.runs
            && Passed(through, name) && through.runs == sys.runs && through.world.stored.status.phase == P.Healthy
  {
    hide Apply, P.PutStatus;
    var arrived := Apply(sys, RolloutSync(Answering(), OneSample()));
    StartOnce(sys);
    CheckOnce(arrived);
    assert P.CurrentIndex(arrived.world.stored) == Some(0);
  }

  lemma {:induction false} RunSnoc(sys: System, events: seq<Event>, e: Event)
    ensures Run(sys, events + [e]) == Apply(Run(sys, events), e)
    decreases events
  {
    hide Apply;
    if events == [] {
      assert [e][1..] == [] && Run(Apply(sys, e), []) == Apply(sys, e);
      assert events + [e] == [e];
    } else {
      assert (events + [e])[1..] == events[1..] + [e];
      RunSnoc(Apply(sys, events[0]), events[1..], e);
    }
  }

  /** Reached from a new Rollout whose only step is an analysis: the first pass creates a run,
      which measures once and succeeds; the second pass goes through the gate in one reconcile
      after arriving at it, with no visit to the run in between. */
  lemma SecondPassMeasuresNothing() returns (sys: System, first: seq<Event>, second: seq<Event>)
    ensures sys == System(P.World(L.NewRollout(CheckSteps(), false), [], 0), map[])
    ensures Run(sys, first).world.stored.status.currentStep == "" && Run(sys, first).world.stored.status.phase == P.Healthy
    ensures |second| == 2 && second[0].RolloutSync? && second[1].RolloutSync?
    ensures AtGate(Run(sys, first + second[..1]).world.stored)
    ensures var again := Run(sys, first + second);
            && again.world.stored.status.currentStep == "" && again.world.stored.status.phase == P.Healthy
            && again.runs == Run(sys, first).runs != map[]
  {
    hide Apply, Run, P.PutStatus;
    sys := System(P.World(L.NewRollout(CheckSteps(), false), [], 0), map[]);
    var e, name := RolloutSync(Answering(), OneSample()), P.RunName("check", "initial");
    var visit := RunSync(name, GoodVisit());
    first, second := [e, e, e, visit, e, e], [e, e];
    var arrived := Apply(Apply(sys, e), e);
    CountOnce(sys);
    StartOnce(Apply(sys, e));
    FirstVisit(arrived, name);
    var done := Apply(Apply(Apply(Apply(arrived, e), visit), e), e);
    NextVisit(done, name);
    SixEvents(sys, e, visit);
    RunSnoc(sys, first, e);
    RunSnoc(sys, first + [e], e);
    assert second[..1] == [e] && first + second == first + [e] + [e];
  }

  lemma SixEvents(sys: System, e: Event, visit: Event)
    ensures Run(sys, [e, e, e, visit, e, e])
         == Apply(Apply(Apply(Apply(Apply(Apply(sys, e), e), e), visit), e), e)
  {
    hide Apply, Run;
    RunNone(sys);
    RunSnoc(sys, [], e);
    RunSnoc(sys, [e], e);
    RunSnoc(sys, [e, e], e);
    RunSnoc(sys, [e, e, e], visit);
    RunSnoc(sys, [e, e, e, visit], e);
    RunSnoc(sys, [e, e, e, visit, e], e);
    assert [] + [e] == [e] && [e] + [e] == [e, e] && [e, e] + [e] == [e, e, e] &&
           [e, e, e] + [visit] == [e, e, e, visit];
    assert [e, e, e, visit] + [e] == [e, e, e, visit, e] && [e, e, e, visit, e] + [e] == [e, e, e, visit, e, e];
  }

  lemma RunNone(sys: System)
    ensures Run(sys, []) == sys
  {
  }

  /** The whole story from a healthy start: every state of every run is trusted. */
  lemma {:induction false} RunKeepsTrusted(sys: System, events: seq<Event>)
    requires Trusted(sys) && forall k :: 0 <= k < |events| ==> WellFormed(events[k])
    ensures Trusted(Run(sys, events))
    decreases events
  {
    hide Trusted, Apply, WellFormed;
    if events != [] {
      ApplyKeepsTrusted(sys, events[0]);
      RunKeepsTrusted(Apply(sys, events[0]), events[1..]);
    }
  }
}
