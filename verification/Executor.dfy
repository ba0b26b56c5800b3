/** The rollout controller itself: methods that write the status, the spec and the router one
    call at a time, each proved to have the effect the functions of Progression give it. */
module Executor {
  import opened Common
  import opened Progression

  class Reconciler {
    var stored: Rollout
    var weights: seq<int>
    var budget: nat

    constructor (stored: Rollout, weights: seq<int>)
      ensures State() == World(stored, weights, 0)
    {
      this.stored, this.weights, this.budget := stored, weights, 0;
    }

    function State(): World
      reads this
    {
      World(stored, weights, budget)
    }

    // ---------------------------------------------------------------- the API server and the router

    method UpdateStatus(copy: Rollout) returns (err: bool)
      modifies this
      ensures Outcome(State(), err) == PutStatus(old(State()), copy)
    {
      if budget == 0 || copy.version != stored.version {
        return true;
      }
      budget := budget - 1;
      if copy.status != stored.status {
        stored := stored.(version := stored.version + 1, status := copy.status);
      }
      return false;
    }

    method Update(copy: Rollout) returns (err: bool)
      modifies this
      ensures Outcome(State(), err) == PutSpec(old(State()), copy)
    {
      if budget == 0 || copy.version != stored.version {
        return true;
      }
      budget := budget - 1;
      if copy.spec != stored.spec {
        stored := stored.(version := stored.version + 1, generation := stored.generation + 1, spec := copy.spec);
      }
      return false;
    }

    /** The router's SetWeight: one VirtualService after the other, up to the first failure. */
    method SetRouterWeight(weight: int, patch: Patch) returns (err: bool)
      modifies this`weights
      ensures weights == Patched(old(weights), weight, patch) && err == patch.Prefix?
    {
      var i := 0;
      while i < |weights|
        invariant 0 <= i <= |weights| == |old(weights)|
        invariant patch.Prefix? ==> i <= patch.n || i == 0
        invariant forall k :: 0 <= k < i ==> weights[k] == weight
        invariant forall k :: i <= k < |weights| ==> weights[k] == old(weights)[k]
      {
        if patch.Prefix? && i >= patch.n {
          return true;
        }
        weights := weights[i := weight];
        i := i + 1;
      }
      return patch.Prefix?;
    }

    // ---------------------------------------------------------------- the step handlers

    method FindCurrentStep(ro: Rollout) returns (idx: nat, ok: bool)
      ensures ok == CurrentIndex(ro).Some? && (ok ==> idx == CurrentIndex(ro).value)
    {
      var steps := ro.spec.steps;
      idx, ok := 0, false;
      if |steps| == 0 {
        return;
      }
      if ro.status.currentStep == "" {
        return 0, true;
      }
      while idx < |steps|
        invariant idx <= |steps| && !ok
        invariant Position(steps, ro.status.currentStep, idx) == Position(steps, ro.status.currentStep, 0)
      {
        if steps[idx].name == ro.status.currentStep {
          return idx, true;
        }
        idx := idx + 1;
      }
    }

    method Advance(ro: Rollout, idx: nat, now: int) returns (err: bool)
      modifies this
      ensures Outcome(State(), err) == AdvanceStep(old(State()), ro, idx, now)
    {
      var steps := ro.spec.steps;
      var patched := ro;
      if idx + 1 >= |steps| {
        patched := patched.(status := patched.status.(currentStep := "", stepStartedAt := None, phase := Healthy));
      } else {
        var next := steps[idx + 1];
        patched := patched.(status := patched.status.(currentStep := next.name));
        patched := patched.(status := patched.status.(stepStartedAt := Some(WholeSecond(now)), pauseConditions := []));
        patched := patched.(status := patched.status.(phase := Progressing));
      }
      err := UpdateStatus(patched);
    }

    method DoSetWeight(ro: Rollout, idx: nat, weight: int, env: Env) returns (err: bool)
      modifies this
      ensures Outcome(State(), err) == RunSetWeight(old(State()), ro, idx, weight, env)
    {
      hide Patched, PutStatus, AdvancedStatus;
      if !ro.spec.routed {
        return true;
      }
      err := SetRouterWeight(weight, env.patch);
      if err {
        return;
      }
      if ro.spec.verifies {
        if env.verification.VerifyFailed? {
          return true;
        }
        if env.verification.NotYet? {
          return false;
        }
      }
      var current := ro;
      if ro.status.currentWeight != weight {
        current := ro.(status := ro.status.(currentWeight := weight));
        err := UpdateStatus(current);
        if err {
          return;
        }
      }
      err := Advance(current, idx, env.now);
    }

    method DoPause(ro: Rollout, idx: nat, duration: Option<int>, env: Env) returns (err: bool)
      modifies this
      ensures Outcome(State(), err) == RunPause(old(State()), ro, idx, duration, env)
    {
      hide PutStatus, AdvancedStatus;
      if |ro.status.pauseConditions| == 0 {
        var start := WholeSecond(env.now);
        var until := if duration.None? then None else Some(WholeSecond(env.now + duration.value));
        var patched := ro.(status := ro.status.(phase := Paused));
        patched := patched.(status := patched.status.(pauseConditions := [PauseCondition(PausedStep, start, until)]));
        patched := patched.(status := patched.status.(stepStartedAt := Some(start)));
        err := UpdateStatus(patched);
        return;
      }
      if duration.None? {
        return false;
      }
      var elapsed := env.now - ro.status.pauseConditions[0].startTime;
      if elapsed < duration.value {
        return false;
      }
      err := Advance(ro, idx, env.now);
    }

    /** recordAnalysisRun: replaces the summary of the same run, or appends one. */
    method Record(ro: Rollout, step: Step, phase: Verdict) returns (err: bool)
      modifies this
      ensures Outcome(State(), err) == RecordAnalysisRun(old(State()), ro, step.name, phase)
    {
      hide PutStatus;
      var summary := Summary(NameOfRun(ro, step.name), step.name, phase);
      var summaries := ro.status.summaries;
      var i := 0;
      while i < |summaries|
        invariant 0 <= i <= |summaries|
        invariant Recorded(summaries, summary, i) == Recorded(summaries, summary, 0)
      {
        if summaries[i].run == summary.run {
          summaries := summaries[i := summary];
          err := UpdateStatus(ro.(status := ro.status.(summaries := summaries)));
          return;
        }
        i := i + 1;
      }
      summaries := summaries + [summary];
      err := UpdateStatus(ro.(status := ro.status.(summaries := summaries)));
    }

    method DoApplyPolicy(ro: Rollout, idx: nat, policy: Policy, reason: PauseReason, now: int) returns (err: bool)
      modifies this
      ensures Outcome(State(), err) == ApplyPolicy(old(State()), ro, idx, policy, reason, now)
    {
      hide PutStatus, PutSpec, AdvancedStatus;
      match policy
      case AbortRollout =>
        var patched := ro.(status := ro.status.(phase := Degraded));
        patched := patched.(spec := patched.spec.(abort := true));
        err := Update(patched);
      case PauseRollout =>
        var patched := ro.(status := ro.status.(phase := Paused));
        patched := patched.(status := patched.status.(pauseConditions := [PauseCondition(reason, WholeSecond(now), None)]));
        err := UpdateStatus(patched);
      case IgnoreResult =>
        err := Advance(ro, idx, now);
      case UnknownPolicy =>
        err := true;
    }

    method DoAnalysis(ro: Rollout, idx: nat, step: Step, env: Env) returns (err: bool)
      requires step.action.Analysis?
      modifies this
      ensures Outcome(State(), err) == RunAnalysis(old(State()), ro, idx, step, env)
    {
      hide PutStatus, AdvancedStatus, ApplyPolicy, RecordAnalysisRun;
      if env.run.RunUnavailable? {
        return true;
      }
      var phase := env.run.phase;
      if phase == Successful {
        err := Record(ro, step, phase);
        if !err {
          err := Advance(ro, idx, env.now);
        }
      } else if phase == Failed || phase == Error {
        err := Record(ro, step, phase);
        if !err {
          err := DoApplyPolicy(ro, idx, step.action.onFailure, AnalysisFailed, env.now);
        }
      } else if phase == Inconclusive {
        err := DoApplyPolicy(ro, idx, env.onInconclusive, AnalysisInconclusive, env.now);
      } else {
        err := false;
      }
    }

    method DoPromote(ro: Rollout, idx: nat, env: Env) returns (err: bool)
      modifies this
      ensures Outcome(State(), err) == RunPromote(old(State()), ro, idx, env)
    {
      hide PutStatus, AdvancedStatus, ShiftAll;
      if ro.spec.autoPromotion.Disabled? {
        return true;
      }
      if ro.spec.autoPromotion.Manual? && !HasUserPromotion(ro) {
        if |ro.status.pauseConditions| == 0 {
          var patched := ro.(status := ro.status.(phase := Paused));
          patched := patched.(status := patched.status.(pauseConditions := [PauseCondition(AwaitingPromotion, WholeSecond(env.now), None)]));
          err := UpdateStatus(patched);
          return;
        }
        return false;
      }
      if ro.status.phase != Promoting {
        err := UpdateStatus(ro.(status := ro.status.(phase := Promoting)));
        if err {
          return;
        }
      }
      err := PromoteTraffic(ro, idx, env);
    }

    /** The rest of runPromote: the router, the stamp, the Services, the old ReplicaSets. */
    method PromoteTraffic(ro: Rollout, idx: nat, env: Env) returns (err: bool)
      modifies this
      ensures Outcome(State(), err) == ShiftAll(old(State()), ro, idx, env)
    {
      hide PutStatus, AdvancedStatus, Patched;
      if ro.spec.routed {
        err := SetRouterWeight(100, env.patch);
        if err {
          return;
        }
      }
      var current := ro;
      if ro.status.currentWeight != 100 {
        current := ro.(status := ro.status.(currentWeight := 100));
        err := UpdateStatus(current);
        if err {
          return;
        }
      }
      if !env.servicesOk {
        return true;
      }
      if !ObservedSpecReplicas(current) {
        return false;
      }
      var startedAt := current.status.stepStartedAt.GetOr(env.now);
      var remaining := current.spec.scaleDownDelay.GetOr(0) - (env.now - startedAt);
      if remaining > 0 {
        return false;
      }
      if !env.scaleOk {
        return true;
      }
      err := Advance(current, idx, env.now);
    }

    method DoFinalize(ro: Rollout, env: Env) returns (err: bool)
      modifies this
      ensures Outcome(State(), err) == Finalize(old(State()), ro, env)
    {
      if !env.scaleOk {
        return true;
      }
      if ro.status.phase == Healthy {
        return false;
      }
      var patched := ro.(status := ro.status.(phase := Healthy, pauseConditions := []));
      patched := patched.(status := patched.status.(stableRevision := env.newRevision, podHash := env.newHash));
      err := UpdateStatus(patched);
    }

    method DoExecute(ro: Rollout, env: Env) returns (err: bool)
      modifies this
      ensures Outcome(State(), err) == Execute(old(State()), ro, env)
    {
      hide PutStatus, AdvancedStatus, RunSetWeight, RunPause, RunAnalysis, RunPromote, Finalize, Position;
      var idx, ok := FindCurrentStep(ro);
      if !ok {
        err := DoFinalize(ro, env);
        return;
      }
      var step := ro.spec.steps[idx];
      match step.action
      case SetWeight(weight) => err := DoSetWeight(ro, idx, weight, env);
      case SetCanaryScale =>
        if !env.scaleOk {
          return true;
        }
        err := Advance(ro, idx, env.now);
      case Pause(duration) => err := DoPause(ro, idx, duration, env);
      case Analysis(_) => err := DoAnalysis(ro, idx, step, env);
      case Experiment => err := Advance(ro, idx, env.now);
      case Promote => err := DoPromote(ro, idx, env);
      case NoAction => err := true;
    }

    // ---------------------------------------------------------------- one reconcile

    method PushCounts(ro: Rollout, env: Env) returns (err: bool)
      modifies this
      ensures Outcome(State(), err) == PushReplicaCounts(old(State()), ro, env)
    {
      var desired := DesiredReplicas(ro);
      if ro.status.counts == env.counts && ro.status.desiredReplicas == desired
         && ro.status.observedGeneration == ro.generation {
        return false;
      }
      var patched := ro.(status := ro.status.(counts := env.counts));
      patched := patched.(status := patched.status.(desiredReplicas := desired));
      patched := patched.(status := patched.status.(observedGeneration := ro.generation));
      err := UpdateStatus(patched);
    }

    method Abort(ro: Rollout, env: Env) returns (err: bool)
      modifies this
      ensures Outcome(State(), err) == Unwind(old(State()), ro, env)
    {
      hide Patched;
      if ro.spec.routed {
        err := SetRouterWeight(0, env.patch);
        if err {
          return;
        }
      }
      if !env.scaleOk {
        return true;
      }
      if ro.status.phase == Aborted {
        return false;
      }
      err := UpdateStatus(ro.(status := ro.status.(phase := Aborted)));
    }

    /** Reconcile and syncRollout: one read, then the writes. */
    method SyncRollout(env: Env) returns (err: bool)
      modifies this
      ensures Outcome(State(), err) == Sync(old(State()), env)
    {
      hide PutStatus, PushReplicaCounts, Unwind, Execute;
      budget := env.budget;
      var ro := stored;
      if ro.spec.paused {
        return false;
      }
      if !env.resolves || !env.replicaSetsOk {
        return true;
      }
      err := PushCounts(ro, env);
      if err {
        return;
      }
      if ro.spec.abort {
        err := Abort(ro, env);
        return;
      }
      if ro.status.currentStep == "" && |ro.spec.steps| > 0 {
        var first := ro.spec.steps[0];
        var patched := ro.(status := ro.status.(currentStep := first.name));
        patched := patched.(status := patched.status.(stepStartedAt := Some(WholeSecond(env.now)), phase := Progressing));
        err := UpdateStatus(patched);
        return;
      }
      err := DoExecute(ro, env);
    }
  }
}
