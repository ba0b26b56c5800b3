/** What one reconcile of a Rollout stores, case by case, told by the fields of the object. */
module ExecutorCases {
  import opened Common
  import opened Progression
  import opened Transitions
  import opened ProgressionRuns
  import opened Completion

  // ---------------------------------------------------------------- what is stored

  /** `after` is the next version of `ro` with this status and nothing else changed. */
  predicate Stores(ro: Rollout, after: Rollout, status: Status) {
    after == Rollout(ro.version + 1, ro.generation, ro.spec, status)
  }

  /** The step after step i, or none after the last, and the time in whole seconds. */
  predicate Advances(ro: Rollout, after: Rollout, i: nat, now: int)
    requires i < |ro.spec.steps|
  {
    if i + 1 == |ro.spec.steps| then Stores(ro, after, ro.status.(currentStep := "", stepStartedAt := None, phase := Healthy))
    else
      Stores(ro, after, ro.status.(currentStep := ro.spec.steps[i + 1].name, stepStartedAt := Some(now - now % 1_000_000_000),
                                   pauseConditions := [], phase := Phase.Progressing))
  }

  ghost predicate AtStep(ro: Rollout, i: nat, env: Env) {
    && Named(ro.spec.steps) && i < |ro.spec.steps| && ro.status.currentStep == ro.spec.steps[i].name && Calm(ro, env)
  }

  lemma AdvancesMeans(ro: Rollout, i: nat, now: int)
    requires Named(ro.spec.steps) && i < |ro.spec.steps| && ro.status.currentStep == ro.spec.steps[i].name
    ensures Advances(ro, Next(ro, AdvancedStatus(ro, i, now)), i, now) && AdvancedStatus(ro, i, now) != ro.status
  {
  }

  lemma Executes(w: World, i: nat, env: Env)
    requires AtStep(w.stored, i, env)
    ensures CurrentIndex(w.stored) == Some(i)
    ensures Sync(w, env) == Execute(w.(budget := env.budget), w.stored, env)
  {
    hide Execute, Patched, Counted, PutStatus, Position;
    PositionOf(w.stored.spec.steps, i, 0);
  }

  // ---------------------------------------------------------------- the two kinds of write

  /** A status write commits the status of a copy that is still current, and nothing else of it;
      one that changes nothing makes no version; one beyond the budget or from an old copy is
      refused. */
  lemma StatusWrite(w: World, copy: Rollout)
    ensures var o := PutStatus(w, copy);
            && o.err == (w.budget == 0 || copy.version != w.stored.version)
            && o.world.weights == w.weights
            && (o.err ==> o.world == w)
            && (!o.err ==> o.world.budget == w.budget - 1
                           && o.world.stored == if copy.status == w.stored.status then w.stored
                                                else Rollout(w.stored.version + 1, w.stored.generation, w.stored.spec, copy.status))
  {
  }

  /** A spec write commits the spec likewise, as a new generation. */
  lemma SpecWrite(w: World, copy: Rollout)
    ensures var o := PutSpec(w, copy);
            && o.err == (w.budget == 0 || copy.version != w.stored.version)
            && o.world.weights == w.weights
            && (o.err ==> o.world == w)
            && (!o.err ==> o.world.budget == w.budget - 1
                           && o.world.stored == if copy.spec == w.stored.spec then w.stored
                                                else Rollout(w.stored.version + 1, w.stored.generation + 1, copy.spec, w.stored.status))
  {
  }

  // ---------------------------------------------------------------- before any step

  /** A paused Rollout is left alone; so is one whose router or ReplicaSets are in error. */
  lemma PausedIsLeftAlone(w: World, env: Env)
    ensures w.stored.spec.paused ==> Sync(w, env) == Outcome(w.(budget := env.budget), false)
    ensures !w.stored.spec.paused && (!env.resolves || !env.replicaSetsOk) ==>
              Sync(w, env) == Outcome(w.(budget := env.budget), true)
  {
  }

  /** New counts, a new size or a new generation are stored first; a size that is not given is
      one. */
  lemma CountsAreStored(w: World, env: Env)
    requires !w.stored.spec.paused && env.resolves && env.replicaSetsOk && env.budget > 0
    ensures var ro, s := w.stored, w.stored.status;
            var size := if ro.spec.replicas.Some? then ro.spec.replicas.value else 1;
            s.counts != env.counts || s.desiredReplicas != size || s.observedGeneration != ro.generation ==>
              Stores(ro, Sync(w, env).world.stored,
                     s.(counts := env.counts, desiredReplicas := size, observedGeneration := ro.generation))
  {
    hide PutStatus, Execute, Patched, Position;
    var ro, start := w.stored, w.(budget := env.budget);
    PutIsOneStep(start, ro, Counted(ro, env.counts));
    var o := PushReplicaCounts(start, ro, env);
    ExecuteStores(o.world, ro, env);
    PutIsOneStep(o.world.(weights := Patched(o.world.weights, 0, env.patch)), ro, ro.status.(phase := Aborted));
    PutIsOneStep(o.world, ro, ro.status.(phase := Aborted));
    if ro.spec.steps != [] {
      PutIsOneStep(o.world, ro, Started(ro, env.now));
    }
  }

  /** With steps and none current, the first one starts. */
  lemma FirstStepIsStarted(w: World, env: Env)
    requires Calm(w.stored, env) && w.stored.status.currentStep == "" && Named(w.stored.spec.steps) && w.stored.spec.steps != []
    ensures Stores(w.stored, Sync(w, env).world.stored,
                   w.stored.status.(currentStep := w.stored.spec.steps[0].name, phase := Phase.Progressing,
                                    stepStartedAt := Some(env.now - env.now % 1_000_000_000)))
  {
    hide PutStatus;
    assert w.stored.spec.steps[0].name != "";
    PutIsOneStep(w.(budget := env.budget), w.stored, Started(w.stored, env.now));
  }

  /** Without steps the rollout is finalized once: Healthy, unpaused, with the hash and the
      revision of the new ReplicaSet. */
  lemma NoStepsFinalize(w: World, env: Env)
    requires Calm(w.stored, env) && w.stored.spec.steps == []
    ensures var ro, after := w.stored, Sync(w, env).world.stored;
            if ro.status.phase == Healthy then after == ro
            else Stores(ro, after, ro.status.(phase := Healthy, pauseConditions := [],
                                              stableRevision := env.newRevision, podHash := env.newHash))
    ensures !Sync(w, env).err
    ensures Sync(w, env.(scaleOk := false)) == Outcome(w.(budget := env.budget), true)
  {
    hide PutStatus;
    PutIsOneStep(w.(budget := env.budget), w.stored, Finalized(w.stored, env));
  }

  /** A current step that is no longer in the list is treated as no step at all. */
  lemma UnknownStepFinalizes(w: World, env: Env)
    requires Calm(w.stored, env) && w.stored.status.currentStep != "" && w.stored.status.phase != Healthy
    requires forall k :: 0 <= k < |w.stored.spec.steps| ==> w.stored.spec.steps[k].name != w.stored.status.currentStep
    ensures var ro := w.stored;
            Stores(ro, Sync(w, env).world.stored, ro.status.(phase := Healthy, pauseConditions := [],
                                                             stableRevision := env.newRevision, podHash := env.newHash))
  {
    hide PutStatus;
    PutIsOneStep(w.(budget := env.budget), w.stored, Finalized(w.stored, env));
  }

  // ---------------------------------------------------------------- the steps

  /** SetWeight: the whole router goes to the weight; the status first gets it, which makes the
      next write of the same reconcile an error, and then moves on. */
  lemma SetWeightStep(w: World, i: nat, weight: int, env: Env)
    requires AtStep(w.stored, i, env) && w.stored.spec.steps[i].action == SetWeight(weight) && w.stored.spec.routed
    ensures var ro, after := w.stored, Sync(w, env).world;
            && |after.weights| == |w.weights| && (forall k :: 0 <= k < |w.weights| ==> after.weights[k] == weight)
            && if ro.status.currentWeight != weight then Stores(ro, after.stored, ro.status.(currentWeight := weight))
               else Advances(ro, after.stored, i, env.now)
    ensures Sync(w, env).err <==> w.stored.status.currentWeight != weight
  {
    hide PutStatus, Position, RunSetWeight, AdvancedStatus;
    Executes(w, i, env);
    SetWeightConflicts(w.(budget := env.budget), w.stored, i, weight, env);
    CalmSetWeight(w.(budget := env.budget), w.stored, i, weight, env);
    SetWeightRoutes(w.(budget := env.budget), w.stored, i, weight, env);
    AdvancesMeans(w.stored, i, env.now);
  }

  /** The write after the first comes from a copy that is no longer current. */
  lemma SetWeightConflicts(w: World, ro: Rollout, i: nat, weight: int, env: Env)
    requires w.stored == ro && w.budget >= 2 && ro.spec.routed && env.patch.All? && env.verification.Verified?
    ensures RunSetWeight(w, ro, i, weight, env).err <==> ro.status.currentWeight != weight
  {
    hide PutStatus, AdvancedStatus, Patched;
    var patched := w.(weights := Patched(w.weights, weight, env.patch));
    PutIsOneStep(patched, ro, Weighted(ro, weight).status);
    PutIsOneStep(patched, ro, AdvancedStatus(ro, i, env.now));
    if ro.status.currentWeight != weight {
      StalePutFails(PutStatus(patched, Weighted(ro, weight)).world, Weighted(ro, weight),
                    AdvancedStatus(Weighted(ro, weight), i, env.now));
    }
  }

  /** A router that fails partway has the weight up to there, and the step is an error; so is an
      answer that cannot be verified; one that is not there yet is waited for. */
  lemma SetWeightTroubles(w: World, i: nat, weight: int, env: Env, patch: Patch, verification: Verification)
    requires AtStep(w.stored, i, env) && w.stored.spec.steps[i].action == SetWeight(weight)
    ensures var o := Sync(w, env.(patch := patch, verification := verification));
            && |o.world.weights| == |w.weights|
            && (!w.stored.spec.routed ==> o.err && o.world.stored == w.stored && o.world.weights == w.weights)
            && (w.stored.spec.routed && patch.Prefix? ==>
                  && o.err && o.world.stored == w.stored
                  && forall k :: 0 <= k < |w.weights| ==> o.world.weights[k] == if k < patch.n then weight else w.weights[k])
            && (w.stored.spec.routed && patch.All? && w.stored.spec.verifies && verification != Verified ==>
                  && o.world.stored == w.stored && (o.err <==> verification == VerifyFailed)
                  && forall k :: 0 <= k < |w.weights| ==> o.world.weights[k] == weight)
  {
    hide Position;
    PositionOf(w.stored.spec.steps, i, 0);
  }

  /** Scales and experiments are passed once they succeed; a step with no action is an error. */
  lemma PlainStep(w: World, i: nat, env: Env)
    requires AtStep(w.stored, i, env)
    ensures w.stored.spec.steps[i].action in {SetCanaryScale, Experiment, NoAction} ==> Sync(w, env).world.weights == w.weights
    ensures w.stored.spec.steps[i].action in {SetCanaryScale, Experiment} ==>
              Advances(w.stored, Sync(w, env).world.stored, i, env.now) && !Sync(w, env).err
    ensures w.stored.spec.steps[i].action == NoAction ==> Sync(w, env).err && Sync(w, env).world.stored == w.stored
    ensures w.stored.spec.steps[i].action == SetCanaryScale ==>
              Sync(w, env.(scaleOk := false)) == Outcome(w.(budget := env.budget), true)
  {
    hide PutStatus, Position, AdvancedStatus;
    PositionOf(w.stored.spec.steps, i, 0);
    PutIsOneStep(w.(budget := env.budget), w.stored, AdvancedStatus(w.stored, i, env.now));
    AdvancesMeans(w.stored, i, env.now);
  }

  /** Pause: the first reconcile stores the start, in whole seconds, and until when; the step is
      left when the clock is a duration past the stored start, and never without a duration. */
  lemma PauseStep(w: World, i: nat, duration: Option<int>, env: Env)
    requires AtStep(w.stored, i, env) && w.stored.spec.steps[i].action == Pause(duration)
    ensures var ro, s, after := w.stored, w.stored.status, Sync(w, env).world;
            var start := env.now - env.now % 1_000_000_000;
            && after.weights == w.weights
            && if s.pauseConditions == [] then
                 Stores(ro, after.stored, s.(phase := Paused, stepStartedAt := Some(start), pauseConditions :=
                   [PauseCondition(PausedStep, start,
                                   if duration.None? then None
                                   else Some(env.now + duration.value - (env.now + duration.value) % 1_000_000_000))]))
               else if duration.None? || env.now < s.pauseConditions[0].startTime + duration.value then after.stored == ro
               else Advances(ro, after.stored, i, env.now)
    ensures !Sync(w, env).err
  {
    hide PutStatus, Position, AdvancedStatus;
    PositionOf(w.stored.spec.steps, i, 0);
    PutIsOneStep(w.(budget := env.budget), w.stored, AdvancedStatus(w.stored, i, env.now));
    PutIsOneStep(w.(budget := env.budget), w.stored, PauseEntered(w.stored, duration, env.now));
    AdvancesMeans(w.stored, i, env.now);
  }

  // ---------------------------------------------------------------- analysis

  /** The summary of the step's run, named after the step and the pod hash, or "initial". */
  function SummaryOf(ro: Rollout, i: nat, phase: Verdict): Summary
    requires i < |ro.spec.steps|
  {
    var step := ro.spec.steps[i].name;
    Summary(RunName(step, if ro.status.podHash == "" then "initial" else ro.status.podHash), step, phase)
  }

  /** What a bad verdict leads to: an abort, a pause with its reason, the next step, or an error. */
  predicate Follows(ro: Rollout, i: nat, o: Outcome, policy: Policy, reason: PauseReason, now: int)
    requires i < |ro.spec.steps|
  {
    o.err == (policy == UnknownPolicy) &&
    match policy
    case AbortRollout =>
      o.world.stored == Rollout(ro.version + 1, ro.generation + 1, ro.spec.(abort := true), ro.status)
    case PauseRollout =>
      var paused := ro.status.(phase := Paused, pauseConditions := [PauseCondition(reason, now - now % 1_000_000_000, None)]);
      if paused == ro.status then o.world.stored == ro else Stores(ro, o.world.stored, paused)
    case IgnoreResult => Advances(ro, o.world.stored, i, now)
    case UnknownPolicy => o.world.stored == ro
  }

  lemma PolicyFollows(w: World, ro: Rollout, i: nat, policy: Policy, reason: PauseReason, now: int)
    requires w.stored == ro && w.budget > 0 && !ro.spec.abort
    requires Named(ro.spec.steps) && i < |ro.spec.steps| && ro.status.currentStep == ro.spec.steps[i].name
    ensures Follows(ro, i, ApplyPolicy(w, ro, i, policy, reason, now), policy, reason, now)
  {
    hide PutStatus, AdvancedStatus, Position;
    PutIsOneStep(w, ro, AdvancedStatus(ro, i, now));
    PutIsOneStep(w, ro, OnHold(ro, reason, now));
    AdvancesMeans(ro, i, now);
  }

  lemma StalePolicyFails(w: World, ro: Rollout, i: nat, policy: Policy, reason: PauseReason, now: int)
    requires w.stored.version > ro.version
    ensures ApplyPolicy(w, ro, i, policy, reason, now).err && AdvanceStep(w, ro, i, now).err
  {
    hide AdvancedStatus;
  }

  /** The run of the step decides.  Unfinished, or unavailable: nothing is stored.  A good or a
      bad verdict is recorded first, once; then a good one is passed and a bad one follows the
      policy of the step; an inconclusive one follows that of the templates, unrecorded. */
  lemma AnalysisStep(w: World, i: nat, onFailure: Policy, env: Env)
    requires AtStep(w.stored, i, env) && w.stored.spec.steps[i].action == Analysis(onFailure)
    ensures var ro, o := w.stored, Sync(w, env);
            match env.run
            case RunUnavailable => o.err && o.world.stored == ro
            case RunPhase(phase) =>
              var recorded := ro.status.(summaries := Recorded(ro.status.summaries, SummaryOf(ro, i, phase), 0));
              if phase == Inconclusive then Follows(ro, i, o, env.onInconclusive, AnalysisInconclusive, env.now)
              else if phase !in {Successful, Failed, Error} then o == Outcome(w.(budget := env.budget), false)
              else if recorded != ro.status then Stores(ro, o.world.stored, recorded) && o.err
              else if phase == Successful then Advances(ro, o.world.stored, i, env.now) && !o.err
              else Follows(ro, i, o, onFailure, AnalysisFailed, env.now)
    ensures Sync(w, env).world.weights == w.weights
  {
    hide PutStatus, AdvancedStatus, Position, Recorded, ApplyPolicy, Follows;
    var ro, start := w.stored, w.(budget := env.budget);
    Executes(w, i, env);
    AdvancesMeans(ro, i, env.now);
    AnalysisRoutes(start, ro, i, ro.spec.steps[i], env);
    PolicyFollows(start, ro, i, env.onInconclusive, AnalysisInconclusive, env.now);
    if env.run.RunPhase? && env.run.phase in {Successful, Failed, Error} {
      var status := ro.status.(summaries := Recorded(ro.status.summaries, SummaryOf(ro, i, env.run.phase), 0));
      PutIsOneStep(start, ro, status);
      var o := PutStatus(start, ro.(status := status));
      PutIsOneStep(o.world, ro, AdvancedStatus(ro, i, env.now));
      PolicyStores(o.world, ro, i, onFailure, AnalysisFailed, env.now);
      if status != ro.status {
        StalePolicyFails(o.world, ro, i, onFailure, AnalysisFailed, env.now);
      } else {
        PolicyFollows(o.world, ro, i, onFailure, AnalysisFailed, env.now);
      }
    }
  }

  // ---------------------------------------------------------------- promotion and abort

  /** Promote, once it is the executor's turn: the phase, then the router and the weight, then,
      when the delay since the start of the step is over, the next step; a reconcile that comes to
      a second write is an error. */
  lemma PromoteStep(w: World, i: nat, env: Env)
    requires AtStep(w.stored, i, env) && w.stored.spec.steps[i].action == Promote && w.stored.spec.autoPromotion == Enabled
    ensures var ro, s, after := w.stored, w.stored.status, Sync(w, env).world;
            var delay := if ro.spec.scaleDownDelay.Some? then ro.spec.scaleDownDelay.value else 0;
            var begun := if s.stepStartedAt.Some? then s.stepStartedAt.value else env.now;
            && (ro.spec.routed ==> |after.weights| == |w.weights| && forall k :: 0 <= k < |w.weights| ==> after.weights[k] == 100)
            && (!ro.spec.routed ==> after.weights == w.weights)
            && if s.phase != Promoting then Stores(ro, after.stored, s.(phase := Promoting))
               else if s.currentWeight != 100 then Stores(ro, after.stored, s.(currentWeight := 100))
               else if env.now - begun < delay then after.stored == ro
               else Advances(ro, after.stored, i, env.now)
    ensures var s := w.stored.status;
            var delay := if w.stored.spec.scaleDownDelay.Some? then w.stored.spec.scaleDownDelay.value else 0;
            var begun := if s.stepStartedAt.Some? then s.stepStartedAt.value else env.now;
            Sync(w, env).err
            <==> || (s.phase != Promoting && s.currentWeight != 100)
                 || ((s.phase != Promoting || s.currentWeight != 100) && env.now - begun >= delay)
  {
    hide PutStatus, AdvancedStatus, Position, ShiftAll;
    var ro, start := w.stored, w.(budget := env.budget);
    Executes(w, i, env);
    PutIsOneStep(start, ro, ro.status.(phase := Promoting));
    var o := PutStatus(start, ro.(status := ro.status.(phase := Promoting)));
    ShiftAllStores(o.world, ro, i, env);
    ShiftAllRoutes(o.world, ro, i, env);
    ShiftAllRoutes(start, ro, i, env);
    AdvancesMeans(ro, i, env.now);
    StaleShiftConflicts(o.world, ro, i, env);
    if ro.status.currentWeight != 100 {
      StampThenConflict(start, ro, i, env);
      CalmStamp(start, ro, i, env);
    } else {
      PromotionEnds(start, ro, i, env);
    }
  }

  /** With the phase just stored, every further write conflicts. */
  lemma StaleShiftConflicts(w: World, ro: Rollout, i: nat, env: Env)
    requires Calm(ro, env)
    ensures var delay := if ro.spec.scaleDownDelay.Some? then ro.spec.scaleDownDelay.value else 0;
            var begun := if ro.status.stepStartedAt.Some? then ro.status.stepStartedAt.value else env.now;
            w.stored.version > ro.version ==>
              (ShiftAll(w, ro, i, env).err <==> ro.status.currentWeight != 100 || env.now - begun >= delay)
  {
    hide Patched, AdvancedStatus;
  }

  lemma StampThenConflict(w: World, ro: Rollout, i: nat, env: Env)
    requires Calm(ro, env) && w.stored == ro && w.budget > 0 && ro.status.currentWeight != 100
    ensures var delay := if ro.spec.scaleDownDelay.Some? then ro.spec.scaleDownDelay.value else 0;
            var begun := if ro.status.stepStartedAt.Some? then ro.status.stepStartedAt.value else env.now;
            ShiftAll(w, ro, i, env).err <==> env.now - begun >= delay
  {
    hide Patched, AdvancedStatus;
  }

  lemma PromotionEnds(w: World, ro: Rollout, i: nat, env: Env)
    requires w.stored == ro && w.budget > 0 && AtStep(ro, i, env) && ro.status.currentWeight == 100
    ensures var delay := if ro.spec.scaleDownDelay.Some? then ro.spec.scaleDownDelay.value else 0;
            var begun := if ro.status.stepStartedAt.Some? then ro.status.stepStartedAt.value else env.now;
            && !ShiftAll(w, ro, i, env).err
            && ShiftAll(w, ro, i, env).world.stored
               == if env.now - begun < delay then ro else Next(ro, AdvancedStatus(ro, i, env.now))
  {
    hide Patched, Position;
    AdvancesMeans(ro, i, env.now);
  }

  /** A router that fails partway has all traffic on the canary up to there, and the step stays. */
  lemma PromoteRouterTrouble(w: World, i: nat, env: Env, n: nat)
    requires AtStep(w.stored, i, env) && w.stored.spec.steps[i].action == Promote && w.stored.spec.autoPromotion == Enabled
    requires w.stored.status.phase == Promoting && w.stored.spec.routed
    ensures var o := Sync(w, env.(patch := Prefix(n)));
            && o.err && o.world.stored == w.stored && |o.world.weights| == |w.weights|
            && forall k :: 0 <= k < |w.weights| ==> o.world.weights[k] == if k < n then 100 else w.weights[k]
  {
    hide Position, PutStatus, FinishPromote;
    PositionOf(w.stored.spec.steps, i, 0);
  }

  /** Neither the Services nor, once the delay is over, the old ReplicaSets may fail at the end of
      a promotion: the step stays, and the reconcile is an error. */
  lemma PromoteTroubles(w: World, i: nat, env: Env, servicesOk: bool, scaleOk: bool)
    requires AtStep(w.stored, i, env) && w.stored.spec.steps[i].action == Promote && w.stored.spec.autoPromotion == Enabled
    requires w.stored.status.phase == Promoting && w.stored.status.currentWeight == 100 && !(servicesOk && scaleOk)
    ensures Sync(w, env.(servicesOk := servicesOk, scaleOk := scaleOk)).world.stored == w.stored
    ensures Sync(w, env.(servicesOk := servicesOk, scaleOk := scaleOk)).err
            <==> !servicesOk
                 || env.now - (if w.stored.status.stepStartedAt.Some? then w.stored.status.stepStartedAt.value else env.now)
                    >= if w.stored.spec.scaleDownDelay.Some? then w.stored.spec.scaleDownDelay.value else 0
  {
    hide Patched, Position, PutStatus;
    PositionOf(w.stored.spec.steps, i, 0);
  }

  /** An abort fails with the router, which is then at zero up to there, or with the ReplicaSets. */
  lemma AbortTroubles(w: World, env: Env, patch: Patch, scaleOk: bool)
    requires Calm(w.stored.(spec := w.stored.spec.(abort := false)), env) && w.stored.spec.abort
    requires (w.stored.spec.routed && patch.Prefix?) || !scaleOk
    ensures var o := Sync(w, env.(patch := patch, scaleOk := scaleOk));
            && o.err && o.world.stored == w.stored && |o.world.weights| == |w.weights|
            && (w.stored.spec.routed && patch.Prefix? ==>
                  forall k :: 0 <= k < |w.weights| ==> o.world.weights[k] == if k < patch.n then 0 else w.weights[k])
  {
  }

  /** An abort puts every VirtualService at zero and stores the phase, once. */
  lemma AbortStep(w: World, env: Env)
    requires Calm(w.stored.(spec := w.stored.spec.(abort := false)), env) && w.stored.spec.abort
    ensures var ro, after := w.stored, Sync(w, env).world;
            && (ro.spec.routed ==> |after.weights| == |w.weights| && forall k :: 0 <= k < |w.weights| ==> after.weights[k] == 0)
            && (!ro.spec.routed ==> after.weights == w.weights)
            && if ro.status.phase == Aborted then after.stored == ro else Stores(ro, after.stored, ro.status.(phase := Aborted))
    ensures !Sync(w, env).err
  {
  }
}
