/** One reconcile is one transition: the writes of the executor, seen by a reader of the stored object. */
module Transitions {
  import opened Common
  import opened Progression

  // ---------------------------------------------------------------- one commit per reconcile

  /** A copy made from `ro` is current, or a newer version has been stored since. */
  predicate Behind(w: World, ro: Rollout) {
    w.stored == ro || w.stored.version > ro.version
  }

  function Next(ro: Rollout, status: Status): Rollout {
    ro.(version := ro.version + 1, status := status)
  }

  function AbortRequested(ro: Rollout): Rollout {
    ro.(version := ro.version + 1, generation := ro.generation + 1, spec := ro.spec.(abort := true))
  }

  predicate RouterShifted(ro: Rollout, env: Env) {
    ro.spec.routed ==> env.patch.All?
  }

  /** The statuses the handler of step i may store, one per reconcile. */
  predicate StepMayStore(ro: Rollout, i: nat, status: Status, env: Env)
    requires i < |ro.spec.steps|
  {
    var done := status == AdvancedStatus(ro, i, env.now);
    match ro.spec.steps[i].action
    case SetWeight(weight) =>
      && ro.spec.routed && env.patch.All? && (ro.spec.verifies ==> env.verification.Verified?)
      && (if ro.status.currentWeight == weight then done else status == Weighted(ro, weight).status)
    case SetCanaryScale => env.scaleOk && done
    case Pause(duration) =>
      if ro.status.pauseConditions == [] then status == PauseEntered(ro, duration, env.now)
      else && duration.Some?
           && env.now - ro.status.pauseConditions[0].startTime >= duration.value
           && done
    case Analysis(onFailure) => AnalysisMayStore(ro, i, status, onFailure, env)
    case Experiment => done
    case Promote => PromoteMayStore(ro, i, status, env)
    case NoAction => false
  }

  function OnHold(ro: Rollout, reason: PauseReason, now: int): Status {
    ro.status.(phase := Paused, pauseConditions := [PauseCondition(reason, WholeSecond(now), None)])
  }

  function WithSummary(ro: Rollout, step: string, phase: Verdict): Status {
    ro.status.(summaries := Recorded(ro.status.summaries, Summary(NameOfRun(ro, step), step, phase), 0))
  }

  predicate PolicyMayStore(ro: Rollout, i: nat, status: Status, policy: Policy, reason: PauseReason, now: int) {
    match policy
    case PauseRollout => status == OnHold(ro, reason, now)
    case IgnoreResult => status == AdvancedStatus(ro, i, now)
    case _ => false
  }

  predicate AnalysisMayStore(ro: Rollout, i: nat, status: Status, onFailure: Policy, env: Env)
    requires i < |ro.spec.steps|
  {
    env.run.RunPhase? &&
    match env.run.phase {
      case Successful =>
        status == WithSummary(ro, ro.spec.steps[i].name, Successful) || status == AdvancedStatus(ro, i, env.now)
      case Failed =>
        || status == WithSummary(ro, ro.spec.steps[i].name, Failed)
        || PolicyMayStore(ro, i, status, onFailure, AnalysisFailed, env.now)
      case Error =>
        || status == WithSummary(ro, ro.spec.steps[i].name, Error)
        || PolicyMayStore(ro, i, status, onFailure, AnalysisFailed, env.now)
      case Inconclusive => PolicyMayStore(ro, i, status, env.onInconclusive, AnalysisInconclusive, env.now)
      case _ => false
    }
  }

  predicate PromoteMayStore(ro: Rollout, i: nat, status: Status, env: Env) {
    && !ro.spec.autoPromotion.Disabled?
    && if ro.spec.autoPromotion.Manual? && !HasUserPromotion(ro) then
         ro.status.pauseConditions == [] && status == OnHold(ro, AwaitingPromotion, env.now)
       else if ro.status.phase != Promoting then status == ro.status.(phase := Promoting)
       else
         && RouterShifted(ro, env)
         && if ro.status.currentWeight != 100 then status == Weighted(ro, 100).status
            else PromoteDone(ro, env) && status == AdvancedStatus(ro, i, env.now)
  }

  /** The Services point at the new ReplicaSet, its size is settled, the delay is over, and the
      old ReplicaSets are scaled down. */
  predicate PromoteDone(ro: Rollout, env: Env) {
    && env.servicesOk && env.scaleOk && ObservedSpecReplicas(ro)
    && env.now - ro.status.stepStartedAt.GetOr(env.now) >= ro.spec.scaleDownDelay.GetOr(0)
  }

  /** The object one reconcile leaves behind when it stores anything: a single change, and the
      state in which that change is allowed. */
  predicate Transition(ro: Rollout, after: Rollout, env: Env) {
    !ro.spec.paused && env.resolves && env.replicaSetsOk &&
    if Counted(ro, env.counts) != ro.status then after == Next(ro, Counted(ro, env.counts))
    else if ro.spec.abort then
      RouterShifted(ro, env) && env.scaleOk && after == Next(ro, ro.status.(phase := Aborted))
    else if ro.status.currentStep == "" && ro.spec.steps != [] then after == Next(ro, Started(ro, env.now))
    else
      match CurrentIndex(ro)
      case None =>
        env.scaleOk && after == Next(ro, Finalized(ro, env))
      case Some(i) =>
        || (after == Next(ro, after.status) && StepMayStore(ro, i, after.status, env))
        || (after == AbortRequested(ro) && MayRequestAbort(ro, i, env))
  }

  predicate MayRequestAbort(ro: Rollout, i: nat, env: Env)
    requires i < |ro.spec.steps|
  {
    && ro.spec.steps[i].action.Analysis? && env.run.RunPhase?
    && match env.run.phase {
         case Failed => ro.spec.steps[i].action.onFailure.AbortRollout?
         case Error => ro.spec.steps[i].action.onFailure.AbortRollout?
         case Inconclusive => env.onInconclusive.AbortRollout?
         case _ => false
       }
  }

  /** A handler stored what it may, or nothing: nothing at all when its copy is out of date. */
  predicate Kept(w: World, ro: Rollout, o: Outcome) {
    Behind(o.world, ro) && (w.stored != ro ==> o.world.stored == w.stored)
  }

  predicate StoresAllowed(w: World, ro: Rollout, i: nat, env: Env, o: Outcome)
    requires i < |ro.spec.steps|
  {
    && Kept(w, ro, o)
    && (o.world.stored != w.stored ==>
          || (o.world.stored == Next(ro, o.world.stored.status) && StepMayStore(ro, i, o.world.stored.status, env))
          || (o.world.stored == AbortRequested(ro) && MayRequestAbort(ro, i, env)))
  }

  lemma PutIsOneStep(w: World, ro: Rollout, status: Status)
    requires Behind(w, ro)
    ensures var o := PutStatus(w, ro.(status := status));
            && o.world.weights == w.weights
            && Behind(o.world, ro)
            && (w.stored != ro ==> o.err)
            && (o.world.stored == w.stored || (w.stored == ro && status != ro.status && o.world.stored == Next(ro, status)))
            && (!o.err ==> o.world.stored == if status == ro.status then ro else Next(ro, status))
            && (w.stored == ro && w.budget > 0 ==> !o.err && o.world.budget == w.budget - 1)
            && (w.budget == 0 ==> o.err)
  {
  }

  lemma StalePutFails(w: World, ro: Rollout, status: Status)
    requires w.stored.version > ro.version
    ensures PutStatus(w, ro.(status := status)) == Outcome(w, true)
  {
  }

  lemma SetWeightStores(w: World, ro: Rollout, i: nat, weight: int, env: Env)
    requires Behind(w, ro) && i < |ro.spec.steps| && ro.spec.steps[i].action == SetWeight(weight)
    ensures StoresAllowed(w, ro, i, env, RunSetWeight(w, ro, i, weight, env))
  {
    hide PutStatus, AdvancedStatus, Patched;
    var patched := w.(weights := Patched(w.weights, weight, env.patch));
    PutIsOneStep(patched, ro, AdvancedStatus(ro, i, env.now));
    PutIsOneStep(patched, ro, Weighted(ro, weight).status);
    var o := PutStatus(patched, Weighted(ro, weight));
    if !o.err && ro.status.currentWeight != weight {
      StalePutFails(o.world, Weighted(ro, weight), AdvancedStatus(Weighted(ro, weight), i, env.now));
    }
  }

  lemma PauseStores(w: World, ro: Rollout, i: nat, duration: Option<int>, env: Env)
    requires Behind(w, ro) && i < |ro.spec.steps| && ro.spec.steps[i].action == Pause(duration)
    ensures StoresAllowed(w, ro, i, env, RunPause(w, ro, i, duration, env))
  {
    hide PutStatus, AdvancedStatus, PauseEntered;
    PutIsOneStep(w, ro, AdvancedStatus(ro, i, env.now));
    PutIsOneStep(w, ro, PauseEntered(ro, duration, env.now));
  }

  lemma PolicyStores(w: World, ro: Rollout, i: nat, policy: Policy, reason: PauseReason, now: int)
    requires Behind(w, ro)
    ensures var o := ApplyPolicy(w, ro, i, policy, reason, now);
            && Kept(w, ro, o)
            && (o.world.stored != w.stored ==>
                  || (o.world.stored == AbortRequested(ro) && policy.AbortRollout?)
                  || (&& o.world.stored == Next(ro, o.world.stored.status)
                      && PolicyMayStore(ro, i, o.world.stored.status, policy, reason, now)))
  {
    hide AdvancedStatus;
    PutIsOneStep(w, ro, AdvancedStatus(ro, i, now));
    PutIsOneStep(w, ro, OnHold(ro, reason, now));
  }

  lemma AnalysisStores(w: World, ro: Rollout, i: nat, env: Env)
    requires Behind(w, ro) && i < |ro.spec.steps| && ro.spec.steps[i].action.Analysis?
    ensures StoresAllowed(w, ro, i, env, RunAnalysis(w, ro, i, ro.spec.steps[i], env))
  {
    hide PutStatus, AdvancedStatus, ApplyPolicy, PolicyMayStore, AbortRequested, Recorded;
    if env.run.RunPhase? {
      var step := ro.spec.steps[i];
      var status := WithSummary(ro, step.name, env.run.phase);
      PutIsOneStep(w, ro, status);
      PolicyStores(w, ro, i, env.onInconclusive, AnalysisInconclusive, env.now);
      var o := RecordAnalysisRun(w, ro, step.name, env.run.phase);
      assert o == PutStatus(w, ro.(status := status));
      PutIsOneStep(o.world, ro, AdvancedStatus(ro, i, env.now));
      PolicyStores(o.world, ro, i, step.action.onFailure, AnalysisFailed, env.now);
    }
  }

  lemma FinishPromoteStores(w: World, ro: Rollout, i: nat, env: Env)
    requires Behind(w, ro)
    ensures var o := FinishPromote(w, ro, i, env);
            && Kept(w, ro, o)
            && (o.world.stored != w.stored ==>
                  PromoteDone(ro, env) && o.world.stored == Next(ro, AdvancedStatus(ro, i, env.now)))
  {
    hide PutStatus, AdvancedStatus;
    PutIsOneStep(w, ro, AdvancedStatus(ro, i, env.now));
  }

  lemma ShiftAllStores(w: World, ro: Rollout, i: nat, env: Env)
    requires Behind(w, ro)
    ensures var o := ShiftAll(w, ro, i, env);
            && Kept(w, ro, o)
            && (o.world.stored != w.stored ==>
                  && RouterShifted(ro, env)
                  && if ro.status.currentWeight != 100 then o.world.stored == Next(ro, Weighted(ro, 100).status)
                     else PromoteDone(ro, env) && o.world.stored == Next(ro, AdvancedStatus(ro, i, env.now)))
  {
    hide PutStatus, AdvancedStatus, FinishPromote, Patched;
    var shifted := if ro.spec.routed then w.(weights := Patched(w.weights, 100, env.patch)) else w;
    FinishPromoteStores(shifted, ro, i, env);
    PutIsOneStep(shifted, ro, Weighted(ro, 100).status);
    var o := PutStatus(shifted, Weighted(ro, 100));
    if !o.err && ro.status.currentWeight != 100 {
      FinishPromoteStores(o.world, Weighted(ro, 100), i, env);
    }
  }

  lemma PromoteStores(w: World, ro: Rollout, i: nat, env: Env)
    requires Behind(w, ro) && i < |ro.spec.steps| && ro.spec.steps[i].action.Promote?
    ensures StoresAllowed(w, ro, i, env, RunPromote(w, ro, i, env))
  {
    hide PutStatus, AdvancedStatus, ShiftAll;
    PutIsOneStep(w, ro, OnHold(ro, AwaitingPromotion, env.now));
    PutIsOneStep(w, ro, ro.status.(phase := Promoting));
    ShiftAllStores(w, ro, i, env);
    var o := PutStatus(w, ro.(status := ro.status.(phase := Promoting)));
    ShiftAllStores(o.world, ro, i, env);
  }

  lemma ExecuteStores(w: World, ro: Rollout, env: Env)
    requires Behind(w, ro)
    ensures var o := Execute(w, ro, env);
            && Kept(w, ro, o)
            && match CurrentIndex(ro)
               case None =>
                 o.world.stored != w.stored ==>
                   env.scaleOk && o.world.stored == Next(ro, Finalized(ro, env))
               case Some(i) => StoresAllowed(w, ro, i, env, o)
  {
    hide PutStatus, AdvancedStatus, RunSetWeight, RunPause, RunAnalysis, RunPromote, AnalysisMayStore, PromoteMayStore, Position;
    var at := CurrentIndex(ro);
    if at.None? {
      PutIsOneStep(w, ro, Finalized(ro, env));
    } else {
      match ro.spec.steps[at.value].action
      case SetWeight(weight) => SetWeightStores(w, ro, at.value, weight, env);
      case Pause(duration) => PauseStores(w, ro, at.value, duration, env);
      case Analysis(_) => AnalysisStores(w, ro, at.value, env);
      case Promote => PromoteStores(w, ro, at.value, env);
      case _ =>
        PutIsOneStep(w, ro, AdvancedStatus(ro, at.value, env.now));
    }
  }

  /** A reconcile that read `ro`, now or a while ago, stores an allowed transition of it, or
      nothing; nothing at all when `ro` is out of date. */
  lemma SyncReadStores(w: World, ro: Rollout, env: Env)
    requires Behind(w, ro)
    ensures var o := SyncRead(w, ro, env);
            && Kept(w, ro, o)
            && (o.world.stored == w.stored || Transition(ro, o.world.stored, env))
  {
    hide PutStatus, Execute, StepMayStore, Patched, AbortRequested, MayRequestAbort, Position, Counted, Finalized;
    PutIsOneStep(w, ro, Counted(ro, env.counts));
    var o := PushReplicaCounts(w, ro, env);
    ExecuteStores(o.world, ro, env);
    var reset := if ro.spec.routed then o.world.(weights := Patched(o.world.weights, 0, env.patch)) else o.world;
    PutIsOneStep(reset, ro, ro.status.(phase := Aborted));
    if ro.spec.steps != [] {
      PutIsOneStep(o.world, ro, Started(ro, env.now));
    }
  }

  /** Refinement: whatever sequence of writes a reconcile attempts, and wherever it stops, the
      stored object makes at most one of the allowed transitions. */
  lemma SyncIsOneTransition(w: World, env: Env)
    ensures var after := Sync(w, env).world.stored;
            after == w.stored || Transition(w.stored, after, env)
  {
    hide SyncRead, Transition;
    SyncReadStores(w.(budget := env.budget), w.stored, env);
  }

  // ---------------------------------------------------------------- the router

  /** The weight the action of a step aims at. */
  function TargetOf(action: Action): Option<int> {
    match action
    case SetWeight(weight) => Some(weight)
    case Promote => Some(100)
    case _ => None
  }

  /** The weight a reconcile of this object may send to the router. */
  function RouterTarget(ro: Rollout): Option<int> {
    if ro.spec.abort then Some(0)
    else if ro.status.currentStep == "" || CurrentIndex(ro).None? then None
    else TargetOf(ro.spec.steps[CurrentIndex(ro).value].action)
  }

  predicate RoutedTo(w: World, ro: Rollout, weight: int, env: Env, after: World) {
    after.weights == if ro.spec.routed then Patched(w.weights, weight, env.patch) else w.weights
  }

  predicate Moved(a: Rollout, b: Rollout) {
    a.status.currentWeight != b.status.currentWeight || a.status.currentStep != b.status.currentStep
  }

  lemma PutKeepsRouter(w: World, copy: Rollout)
    ensures PutStatus(w, copy).world.weights == w.weights && PutSpec(w, copy).world.weights == w.weights
    ensures !Moved(w.stored, PutSpec(w, copy).world.stored)
    ensures !Moved(w.stored, copy) ==> !Moved(w.stored, PutStatus(w, copy).world.stored)
  {
  }

  lemma ShiftAllRoutes(w: World, ro: Rollout, i: nat, env: Env)
    ensures RoutedTo(w, ro, 100, env, ShiftAll(w, ro, i, env).world)
  {
    hide PutStatus, AdvancedStatus, Patched;
    var shifted := if ro.spec.routed then w.(weights := Patched(w.weights, 100, env.patch)) else w;
    var stamped := Weighted(ro, 100);
    PutKeepsRouter(shifted, stamped);
    PutKeepsRouter(shifted, ro.(status := AdvancedStatus(ro, i, env.now)));
    PutKeepsRouter(PutStatus(shifted, stamped).world, stamped.(status := AdvancedStatus(stamped, i, env.now)));
  }

  lemma PromoteRoutes(w: World, ro: Rollout, i: nat, env: Env)
    requires Behind(w, ro)
    ensures var o := RunPromote(w, ro, i, env);
            || RoutedTo(w, ro, 100, env, o.world)
            || (o.world.weights == w.weights && !Moved(w.stored, o.world.stored))
  {
    hide PutStatus, AdvancedStatus, ShiftAll, Patched;
    PutIsOneStep(w, ro, OnHold(ro, AwaitingPromotion, env.now));
    PutIsOneStep(w, ro, ro.status.(phase := Promoting));
    ShiftAllRoutes(w, ro, i, env);
    var o := PutStatus(w, ro.(status := ro.status.(phase := Promoting)));
    ShiftAllRoutes(o.world, ro, i, env);
  }

  lemma SetWeightRoutes(w: World, ro: Rollout, i: nat, weight: int, env: Env)
    ensures RoutedTo(w, ro, weight, env, RunSetWeight(w, ro, i, weight, env).world)
  {
    hide PutStatus, AdvancedStatus, Patched;
    var patched := w.(weights := Patched(w.weights, weight, env.patch));
    var stamped := Weighted(ro, weight);
    PutKeepsRouter(patched, stamped);
    PutKeepsRouter(patched, ro.(status := AdvancedStatus(ro, i, env.now)));
    PutKeepsRouter(PutStatus(patched, stamped).world, stamped.(status := AdvancedStatus(stamped, i, env.now)));
  }

  lemma AnalysisRoutes(w: World, ro: Rollout, i: nat, step: Step, env: Env)
    requires step.action.Analysis?
    ensures RunAnalysis(w, ro, i, step, env).world.weights == w.weights
  {
  }

  /** Execute writes the target of the current step to the router, or leaves it alone. */
  lemma ExecuteRoutes(w: World, ro: Rollout, env: Env)
    requires Behind(w, ro)
    ensures var o := Execute(w, ro, env);
            var target := if CurrentIndex(ro).None? then None else TargetOf(ro.spec.steps[CurrentIndex(ro).value].action);
            if target.None? then o.world.weights == w.weights
            else || RoutedTo(w, ro, target.value, env, o.world)
                 || (o.world.weights == w.weights && !Moved(w.stored, o.world.stored))
  {
    hide AdvancedStatus, RunSetWeight, RunAnalysis, RunPromote, Position, RoutedTo, PauseEntered;
    var at := CurrentIndex(ro);
    if at.Some? {
      match ro.spec.steps[at.value].action
      case SetWeight(weight) => SetWeightRoutes(w, ro, at.value, weight, env);
      case Promote => PromoteRoutes(w, ro, at.value, env);
      case Analysis(_) => AnalysisRoutes(w, ro, at.value, ro.spec.steps[at.value], env);
      case _ =>
    }
  }

  lemma UnwindRoutes(w: World, ro: Rollout, env: Env)
    requires Behind(w, ro)
    ensures var o := Unwind(w, ro, env);
            RoutedTo(w, ro, 0, env, o.world) && !Moved(w.stored, o.world.stored) && (!o.err ==> RouterShifted(ro, env))
  {
    hide PutStatus, Patched;
    var reset := if ro.spec.routed then w.(weights := Patched(w.weights, 0, env.patch)) else w;
    PutIsOneStep(reset, ro, ro.status.(phase := Aborted));
  }

  /** Where the router goes does not depend on anything but the router. */
  lemma SameRouter(a: World, b: World, ro: Rollout, env: Env)
    requires a.weights == b.weights
    ensures forall weight: int, after: World :: RoutedTo(a, ro, weight, env, after) == RoutedTo(b, ro, weight, env, after)
  {
  }

  /** What a reconcile that read `ro` does to the router: nothing, or it writes its target to
      the VirtualServices in order until one fails.  When it stores a new weight, or leaves a
      step that has a target, it wrote the router first; and while spec.abort is set an
      unpaused reconcile succeeds only after the whole router is back at zero. */
  lemma SyncReadRoutes(w: World, ro: Rollout, env: Env)
    requires Behind(w, ro)
    ensures var after, target := SyncRead(w, ro, env).world, RouterTarget(ro);
            && (after.weights == w.weights || (target.Some? && RoutedTo(w, ro, target.value, env, after)))
            && (target.Some? && Moved(w.stored, after.stored) ==> RoutedTo(w, ro, target.value, env, after))
            && (ro.spec.abort && !ro.spec.paused && !SyncRead(w, ro, env).err ==>
                  RoutedTo(w, ro, 0, env, after) && RouterShifted(ro, env))
  {
    hide PutStatus, Patched, Position, Execute, Unwind, RoutedTo, DesiredReplicas;
    PutIsOneStep(w, ro, Counted(ro, env.counts));
    PutKeepsRouter(w, ro.(status := Counted(ro, env.counts)));
    var o := PushReplicaCounts(w, ro, env);
    ExecuteRoutes(o.world, ro, env);
    UnwindRoutes(o.world, ro, env);
    SameRouter(w, o.world, ro, env);
    if ro.spec.steps != [] {
      PutKeepsRouter(o.world, ro.(status := Started(ro, env.now)));
      PutIsOneStep(o.world, ro, Started(ro, env.now));
    }
  }

  /** The same for a reconcile that reads the stored object. */
  lemma SyncRoutes(w: World, env: Env)
    ensures var ro, after, target := w.stored, Sync(w, env).world, RouterTarget(w.stored);
            && (after.weights == w.weights || (target.Some? && RoutedTo(w, ro, target.value, env, after)))
            && (target.Some? && Moved(ro, after.stored) ==> RoutedTo(w, ro, target.value, env, after))
            && (ro.spec.abort && !ro.spec.paused && !Sync(w, env).err ==>
                  RoutedTo(w, ro, 0, env, after) && RouterShifted(ro, env))
  {
    hide SyncRead, RouterTarget;
    SyncReadRoutes(w.(budget := env.budget), w.stored, env);
  }
}
