/** What every run of the progression executor keeps: reconciles that may stop at any write,
    interleaved with what users do to the Rollout. */
module ProgressionRuns {
  import opened Common
  import opened Progression
  import opened Transitions

  // ---------------------------------------------------------------- runs

  /** Step names are unique and not empty.  The API enforces the second; the first is what its
      documentation asks for, and an assumption here. */
  ghost predicate Named(steps: seq<Step>) {
    && (forall i :: 0 <= i < |steps| ==> steps[i].name != "")
    && (forall i, j :: 0 <= i < j < |steps| ==> steps[i].name != steps[j].name)
  }

  datatype Event =
    | Reconcile(env: Env)
    | CachedReconcile(ro: Rollout, env: Env)                   // one that reads an older object
    | SetAbort(on: bool)
    | SetPaused(on: bool)
    | Scale(replicas: Option<int>)
    | EditPause(phase: Phase, conditions: seq<PauseCondition>) // how a user promotes

  function Edited(ro: Rollout, spec: Spec): Rollout {
    if spec == ro.spec then ro
    else ro.(version := ro.version + 1, generation := ro.generation + 1, spec := spec)
  }

  function Apply(w: World, e: Event): World {
    match e
    case Reconcile(env) => Sync(w, env).world
    case CachedReconcile(ro, env) =>
      if ro.version < w.stored.version then SyncRead(w.(budget := env.budget), ro, env).world else w
    case SetAbort(on) => w.(stored := Edited(w.stored, w.stored.spec.(abort := on)))
    case SetPaused(on) => w.(stored := Edited(w.stored, w.stored.spec.(paused := on)))
    case Scale(replicas) => w.(stored := Edited(w.stored, w.stored.spec.(replicas := replicas)))
    case EditPause(phase, conditions) =>
      w.(stored := Next(w.stored, w.stored.status.(phase := phase, pauseConditions := conditions)))
  }

  function Run(w: World, run: seq<Event>): World
    decreases run
  {
    if run == [] then w else Run(Apply(w, run[0]), run[1..])
  }

  /** No event of a run touches the step list, the router configuration or the promotion mode. */
  predicate SameSteps(a: World, b: World) {
    && a.stored.spec.steps == b.stored.spec.steps
    && a.stored.spec.routed == b.stored.spec.routed
    && |a.weights| == |b.weights|
  }

  /** A reconcile of an older object may write the router, but it stores nothing. */
  lemma CachedReconcileStoresNothing(w: World, ro: Rollout, env: Env)
    ensures Apply(w, CachedReconcile(ro, env)).stored == w.stored
    ensures |Apply(w, CachedReconcile(ro, env)).weights| == |w.weights|
  {
    hide SyncRead, Transition, RouterTarget;
    if ro.version < w.stored.version {
      SyncReadStores(w.(budget := env.budget), ro, env);
      SyncReadRoutes(w.(budget := env.budget), ro, env);
    }
  }

  /** Only a reconcile of the current object moves the step or the pod hash. */
  lemma OthersKeepTheStep(w: World, e: Event)
    requires !e.Reconcile?
    ensures var s, t := w.stored.status, Apply(w, e).stored.status;
            && t.currentStep == s.currentStep && t.podHash == s.podHash && t.currentWeight == s.currentWeight
            && Apply(w, e).stored.spec.steps == w.stored.spec.steps
  {
    hide SyncRead;
    if e.CachedReconcile? {
      CachedReconcileStoresNothing(w, e.ro, e.env);
    }
  }

  lemma ApplyKeepsSteps(w: World, e: Event)
    ensures SameSteps(w, Apply(w, e))
  {
    hide Sync, SyncRead, Transition;
    if e.CachedReconcile? {
      CachedReconcileStoresNothing(w, e.ro, e.env);
    } else if e.Reconcile? {
      SyncIsOneTransition(w, e.env);
      SyncRoutes(w, e.env);
      TransitionKeepsSpec(w.stored, Sync(w, e.env).world.stored, e.env);
    }
  }

  lemma TransitionKeepsSpec(ro: Rollout, after: Rollout, env: Env)
    ensures Transition(ro, after, env) ==>
              after.spec == ro.spec || (after.spec == ro.spec.(abort := true) && after.status == ro.status)
    ensures Transition(ro, after, env) ==> after.version == ro.version + 1
  {
  }

  lemma PositionOf(steps: seq<Step>, i: nat, from: nat)
    requires Named(steps) && from <= i < |steps|
    ensures Position(steps, steps[i].name, from) == i
    decreases i - from
  {
  }

  // ---------------------------------------------------------------- steps are never skipped

  /** The current step moves only to its successor, to none after the last, or from none to
      the first. */
  predicate StepMove(steps: seq<Step>, before: string, after: string) {
    || after == before
    || (before == "" && steps != [] && after == steps[0].name)
    || (exists i :: 0 <= i < |steps| && before == steps[i].name && after == NameAfter(steps, i))
  }

  /** How a transition moves the weight and the step: not at all, from none to the first step,
      to the target of the current step, or on to the next step with the target in place. */
  lemma TransitionMoves(ro: Rollout, after: Rollout, env: Env)
    requires Transition(ro, after, env)
    ensures var s, t := ro.status, after.status;
            || !Moved(ro, after)
            || (s.currentStep == "" && ro.spec.steps != [] && !ro.spec.abort
                && t.currentStep == ro.spec.steps[0].name && t.currentWeight == s.currentWeight)
            || (&& CurrentIndex(ro).Some? && s.currentStep != "" && !ro.spec.abort
                && var i := CurrentIndex(ro).value;
                   var target := TargetOf(ro.spec.steps[i].action);
                   || (target == Some(t.currentWeight) && t.currentStep == s.currentStep)
                   || (&& t.currentStep == NameAfter(ro.spec.steps, i) && t.currentWeight == s.currentWeight
                       && (target.Some? ==> target.value == s.currentWeight)))
    ensures Moved(ro, after) && RouterTarget(ro).Some? ==> RouterShifted(ro, env)
  {
    hide Position, NameOfRun, Recorded, HasUserPromotion, DesiredReplicas;
  }

  /** Over any event, a reconcile of an out-of-date object included. */
  lemma StepsAreNeverSkipped(w: World, e: Event)
    ensures StepMove(w.stored.spec.steps, w.stored.status.currentStep, Apply(w, e).stored.status.currentStep)
  {
    hide Sync, SyncRead, Transition;
    if e.CachedReconcile? {
      CachedReconcileStoresNothing(w, e.ro, e.env);
    } else if e.Reconcile? {
      SyncIsOneTransition(w, e.env);
      if Sync(w, e.env).world.stored != w.stored {
        TransitionMoves(w.stored, Sync(w, e.env).world.stored, e.env);
      }
    }
  }

  /** Inserting, removing or reordering other steps leaves the resolved step the same. */
  lemma ResolveSurvivesEdits(ro: Rollout, edited: Rollout, i: nat)
    requires Named(ro.spec.steps) && Named(edited.spec.steps) && i < |ro.spec.steps|
    requires ro.status.currentStep == edited.status.currentStep == ro.spec.steps[i].name
    requires ro.spec.steps[i] in edited.spec.steps
    ensures CurrentIndex(ro) == Some(i)
    ensures CurrentIndex(edited).Some? && edited.spec.steps[CurrentIndex(edited).value] == ro.spec.steps[i]
  {
  }

  // ---------------------------------------------------------------- the weight refines the steps

  /** The weight of the last SetWeight or Promote among the first n steps. */
  function WeightBefore(steps: seq<Step>, n: nat, start: int): int
    requires n <= |steps|
  {
    if n == 0 then start
    else if TargetOf(steps[n - 1].action).Some? then TargetOf(steps[n - 1].action).value
    else WeightBefore(steps, n - 1, start)
  }

  /** status.currentWeight is what the steps done so far, or the current one, call for. */
  ghost predicate Refines(ro: Rollout, start: int) {
    var steps, s := ro.spec.steps, ro.status;
    && Named(steps)
    && if s.currentStep == "" then s.currentWeight == start
       else && CurrentIndex(ro).Some?
            && var i := CurrentIndex(ro).value;
               || s.currentWeight == WeightBefore(steps, i, start)
               || TargetOf(steps[i].action) == Some(s.currentWeight)
  }

  /** A pass over the steps starts from the weight that is current when no step is. */
  function PassStart(after: World, start: int): int {
    if after.stored.status.currentStep == "" then after.stored.status.currentWeight else start
  }

  lemma TransitionRefines(ro: Rollout, after: Rollout, env: Env, start: int)
    requires Refines(ro, start) && Transition(ro, after, env)
    ensures Refines(after, if after.status.currentStep == "" then after.status.currentWeight else start)
    ensures ro.status.currentStep != "" && after.status.currentStep == "" ==>
              after.status.currentWeight == WeightBefore(ro.spec.steps, |ro.spec.steps|, start)
  {
    hide Transition, Position;
    TransitionKeepsSpec(ro, after, env);
    TransitionMoves(ro, after, env);
    if ro.spec.steps != [] {
      PositionOf(ro.spec.steps, 0, 0);
    }
    if CurrentIndex(ro).Some? && CurrentIndex(ro).value + 1 < |ro.spec.steps| {
      PositionOf(ro.spec.steps, CurrentIndex(ro).value + 1, 0);
    }
  }

  lemma ApplyRefines(w: World, e: Event, start: int)
    requires Refines(w.stored, start)
    ensures Refines(Apply(w, e).stored, PassStart(Apply(w, e), start))
    ensures w.stored.status.currentStep != "" && Apply(w, e).stored.status.currentStep == "" ==>
              Apply(w, e).stored.status.currentWeight == WeightBefore(w.stored.spec.steps, |w.stored.spec.steps|, start)
  {
    hide Sync, SyncRead, Transition, Position;
    if e.CachedReconcile? {
      CachedReconcileStoresNothing(w, e.ro, e.env);
    } else if e.Reconcile? {
      SyncIsOneTransition(w, e.env);
      if Sync(w, e.env).world.stored != w.stored {
        TransitionRefines(w.stored, Sync(w, e.env).world.stored, e.env, start);
      }
    }
  }

  function StartOf(w: World, run: seq<Event>, start: int): int
    decreases run
  {
    if run == [] then start else StartOf(Apply(w, run[0]), run[1..], PassStart(Apply(w, run[0]), start))
  }

  /** In every state of every run, through refused writes, retries, aborts and resumes, the
      stored weight refines the step list from the weight its pass started with. */
  lemma {:induction false} RunRefines(w: World, run: seq<Event>, start: int)
    requires Refines(w.stored, start)
    ensures Refines(Run(w, run).stored, StartOf(w, run, start))
    decreases run
  {
    hide Refines, Apply;
    if run != [] {
      ApplyRefines(w, run[0], start);
      RunRefines(Apply(w, run[0]), run[1..], PassStart(Apply(w, run[0]), start));
    }
  }

  lemma TransitionKeepsPodHash(ro: Rollout, after: Rollout, env: Env)
    requires Transition(ro, after, env) && CurrentIndex(ro).Some?
    ensures after.status.podHash == ro.status.podHash
  {
  }

  /** finalize alone stamps the pod hash, and a rollout with steps never gets there: the hash,
      and with it the name of every analysis run, is the same on every pass. */
  lemma {:induction false} PodHashIsNeverStamped(w: World, run: seq<Event>, start: int)
    requires Refines(w.stored, start) && w.stored.spec.steps != []
    ensures Run(w, run).stored.status.podHash == w.stored.status.podHash
    decreases run
  {
    hide Sync, SyncRead, Transition, Position;
    if run != [] {
      ApplyRefines(w, run[0], start);
      ApplyKeepsSteps(w, run[0]);
      if run[0].CachedReconcile? {
        CachedReconcileStoresNothing(w, run[0].ro, run[0].env);
      } else if run[0].Reconcile? {
        SyncIsOneTransition(w, run[0].env);
        if Sync(w, run[0].env).world.stored != w.stored {
          TransitionKeepsPodHash(w.stored, Sync(w, run[0].env).world.stored, run[0].env);
        }
      }
      PodHashIsNeverStamped(Apply(w, run[0]), run[1..], PassStart(Apply(w, run[0]), start));
    }
  }

  // ---------------------------------------------------------------- router and status agree

  /** Every VirtualService has the stored weight, or already the target of the current step. */
  ghost predicate Agree(w: World) {
    && (w.stored.spec.routed || w.weights == [])
    && forall k :: 0 <= k < |w.weights| ==>
         w.weights[k] == w.stored.status.currentWeight || StepTarget(w.stored) == Some(w.weights[k])
  }

  /** The target of the current step, aborted or not. */
  function StepTarget(ro: Rollout): Option<int> {
    if ro.status.currentStep == "" || CurrentIndex(ro).None? then None
    else TargetOf(ro.spec.steps[CurrentIndex(ro).value].action)
  }

  /** What a reconcile that reads `ro` may write to the router agrees with the stored object. */
  predicate Harmless(w: World, ro: Rollout) {
    var target := RouterTarget(ro);
    !ro.spec.routed || w.weights == [] || target.None?
    || target.value == w.stored.status.currentWeight || StepTarget(w.stored) == target
  }

  /** A reconcile that reads `ro` when it is out of date gets as far as the router: none of its
      writes goes through, so nothing may be left to store before. */
  predicate WritesRouter(ro: Rollout) {
    && !ro.spec.paused && ro.spec.routed && ObservedSpecReplicas(ro)
    && (ro.spec.abort || (StepTarget(ro).Some? && (CurrentAction(ro).Promote? ==> Shifting(ro))))
  }

  function CurrentAction(ro: Rollout): Action
    requires CurrentIndex(ro).Some?
  {
    ro.spec.steps[CurrentIndex(ro).value].action
  }

  /** A promotion that is under way and waits for nobody. */
  predicate Shifting(ro: Rollout) {
    && ro.status.phase == Promoting && !ro.spec.autoPromotion.Disabled?
    && (ro.spec.autoPromotion.Manual? ==> ro.status.pauseConditions == [])
  }

  /** A reconcile of an out-of-date object writes the router only then, and then it can. */
  lemma StaleReadRoutes(w: World, ro: Rollout, env: Env)
    requires w.stored.version > ro.version
    ensures var after := SyncRead(w, ro, env).world;
            && (!WritesRouter(ro) ==> after.weights == w.weights)
            && (WritesRouter(ro) && env.resolves && env.replicaSetsOk && env.counts == ro.status.counts ==>
                  RouterTarget(ro).Some? && RoutedTo(w, ro, RouterTarget(ro).value, env, after))
  {
    hide PutStatus, Patched, Position, RunSetWeight, ShiftAll, Unwind, Execute, AdvancedStatus, DesiredReplicas;
    StalePutFails(w, ro, Counted(ro, env.counts));
    if Counted(ro, env.counts) == ro.status {
      UnwindRoutes(w, ro, env);
      if ro.status.currentStep != "" || ro.spec.steps == [] {
        StaleExecuteRoutes(w, ro, env);
      }
      if ro.spec.steps != [] {
        StalePutFails(w, ro, Started(ro, env.now));
      }
    }
  }

  lemma StaleExecuteRoutes(w: World, ro: Rollout, env: Env)
    requires w.stored.version > ro.version && (ro.status.currentStep != "" || ro.spec.steps == [])
    ensures var o := Execute(w, ro, env);
            if StepTarget(ro).Some? && (CurrentAction(ro).Promote? ==> Shifting(ro))
            then RoutedTo(w, ro, StepTarget(ro).value, env, o.world) else o.world.weights == w.weights
  {
    hide PutStatus, Patched, Position, RunSetWeight, ShiftAll, RunAnalysis, RoutedTo, AdvancedStatus, PauseEntered;
    ExecuteRoutes(w, ro, env);
    var at := CurrentIndex(ro);
    if at.Some? {
      match ro.spec.steps[at.value].action
      case SetWeight(weight) => SetWeightRoutes(w, ro, at.value, weight, env);
      case Promote =>
        StalePutFails(w, ro, OnHold(ro, AwaitingPromotion, env.now));
        StalePutFails(w, ro, ro.status.(phase := Promoting));
        ShiftAllRoutes(w, ro, at.value, env);
      case _ =>
    }
  }

  /** What keeps the agreement whatever the reconcile meets.  One that reads the current object
      does unless it is aborted, unpaused, at a weight and a step that are not at zero. */
  predicate HarmlessEvent(w: World, e: Event) {
    match e
    case Reconcile(_) => w.stored.spec.abort && !w.stored.spec.paused ==> Harmless(w, w.stored)
    case CachedReconcile(ro, _) => ro.version < w.stored.version && WritesRouter(ro) ==> Harmless(w, ro)
    case _ => true
  }

  lemma ApplyKeepsAgreement(w: World, e: Event)
    requires Agree(w) && HarmlessEvent(w, e)
    ensures Agree(Apply(w, e))
  {
    hide Sync, SyncRead, Transition, Position, WritesRouter;
    match e
    case Reconcile(env) =>
      SyncIsOneTransition(w, env);
      SyncRoutes(w, env);
      var ro, after := w.stored, Sync(w, env).world.stored;
      if after != ro {
        TransitionKeepsSpec(ro, after, env);
        TransitionMoves(ro, after, env);
      }
      if ro.spec.paused {
        PausedDoesNothing(w, env);
      }
    case CachedReconcile(ro, env) =>
      CachedReconcileStoresNothing(w, ro, env);
      if ro.version < w.stored.version {
        SyncReadRoutes(w.(budget := env.budget), ro, env);
        StaleReadRoutes(w.(budget := env.budget), ro, env);
      }
    case _ =>
  }

  lemma PausedDoesNothing(w: World, env: Env)
    requires w.stored.spec.paused
    ensures Sync(w, env).world == w.(budget := env.budget)
  {
  }

  ghost predicate HarmlessRun(w: World, run: seq<Event>)
    decreases run
  {
    run == [] || (HarmlessEvent(w, run[0]) && HarmlessRun(Apply(w, run[0]), run[1..]))
  }

  /** However often SetWeight fails half way, in a run whose aborted and out-of-date reconciles
      are harmless every VirtualService has the stored weight or the one the current step is
      moving to.  A run that neither aborts nor reads an old object is one. */
  lemma {:induction false} RunKeepsAgreement(w: World, run: seq<Event>)
    requires Agree(w) && HarmlessRun(w, run)
    ensures Agree(Run(w, run))
    decreases run
  {
    hide Agree, Apply;
    if run != [] {
      ApplyKeepsAgreement(w, run[0]);
      RunKeepsAgreement(Apply(w, run[0]), run[1..]);
    }
  }

  /** The run reads only current objects and never reconciles while spec.abort is set. */
  ghost predicate AbortFree(w: World, run: seq<Event>)
    decreases run
  {
    run == []
    || ((run[0].Reconcile? ==> !w.stored.spec.abort) && !run[0].CachedReconcile? && AbortFree(Apply(w, run[0]), run[1..]))
  }

  lemma {:induction false} AbortFreeRunKeepsAgreement(w: World, run: seq<Event>)
    requires Agree(w) && AbortFree(w, run)
    ensures Agree(Run(w, run))
    decreases run
  {
    hide Agree, Apply;
    if run != [] {
      ApplyKeepsAgreement(w, run[0]);
      AbortFreeRunKeepsAgreement(Apply(w, run[0]), run[1..]);
    }
  }

  /** Exactly when an abort keeps the agreement: a successful aborted reconcile leaves the
      router at zero, which agrees if and only if the stored weight or the target of the
      current step is zero, or there is no VirtualService. */
  lemma AbortAgreesIff(w: World, env: Env)
    requires Agree(w) && w.stored.spec.abort && !w.stored.spec.paused && w.stored.spec.routed && !Sync(w, env).err
    ensures Agree(Sync(w, env).world)
            <==> w.weights == [] || w.stored.status.currentWeight == 0 || StepTarget(w.stored) == Some(0)
  {
    hide Sync, Transition, Position;
    var after := Sync(w, env).world;
    AbortHoldsAndUnwinds(w, env);
    ApplyKeepsSteps(w, Reconcile(env));
    if w.weights != [] {
      assert after.weights[0] == 0;
    }
  }

  /** From any state, one resumed after an abort included: once the executor leaves a step
      that sets a weight, the whole router has that weight and so has the status. */
  lemma LeavingAWeightStepRestoresAgreement(w: World, env: Env)
    requires w.stored.spec.routed && StepTarget(w.stored).Some?
    ensures var after := Sync(w, env).world;
            after.stored.status.currentStep != w.stored.status.currentStep ==>
              && after.stored.status.currentWeight == StepTarget(w.stored).value
              && forall k :: 0 <= k < |after.weights| ==> after.weights[k] == after.stored.status.currentWeight
  {
    hide Sync, Transition, Position;
    SyncIsOneTransition(w, env);
    SyncRoutes(w, env);
    if Sync(w, env).world.stored != w.stored {
      TransitionMoves(w.stored, Sync(w, env).world.stored, env);
    }
  }

  // ---------------------------------------------------------------- aborts

  /** While spec.abort is set no reconcile moves the step or the weight, and each one that is
      unpaused and succeeds leaves every VirtualService at zero. */
  lemma AbortHoldsAndUnwinds(w: World, env: Env)
    requires w.stored.spec.abort
    ensures !Moved(w.stored, Sync(w, env).world.stored)
    ensures !Sync(w, env).err && !w.stored.spec.paused && w.stored.spec.routed ==>
              forall k :: 0 <= k < |w.weights| ==> Sync(w, env).world.weights[k] == 0
  {
  }

  ghost predicate StaysAborted(run: seq<Event>) {
    forall k :: 0 <= k < |run| ==> run[k] != SetAbort(false)
  }

  /** Over a whole aborted run, user edits included, the step and the weight stay put. */
  lemma {:induction false} AbortedRunHolds(w: World, run: seq<Event>)
    requires w.stored.spec.abort && StaysAborted(run)
    ensures !Moved(w.stored, Run(w, run).stored)
    decreases run
  {
    hide Sync, SyncRead, Transition, Position;
    if run != [] {
      if run[0].CachedReconcile? {
        CachedReconcileStoresNothing(w, run[0].ro, run[0].env);
      } else if run[0].Reconcile? {
        AbortHoldsAndUnwinds(w, run[0].env);
        SyncIsOneTransition(w, run[0].env);
        TransitionKeepsSpec(w.stored, Sync(w, run[0].env).world.stored, run[0].env);
      }
      AbortedRunHolds(Apply(w, run[0]), run[1..]);
    }
  }

  // ---------------------------------------------------------------- pauses

  /** A duration pause that has not been stamped yet, or was stamped in the second `entry` or
      later. */
  ghost predicate Pausing(ro: Rollout, i: nat, duration: int, entry: int) {
    && Named(ro.spec.steps) && i < |ro.spec.steps|
    && ro.status.currentStep == ro.spec.steps[i].name
    && ro.spec.steps[i].action == Pause(Some(duration)) && WholeSecond(entry) == entry
    && (ro.status.pauseConditions == [] || ro.status.pauseConditions[0].startTime >= entry)
  }

  /** The clock never goes back, and no user edits the pause conditions. */
  ghost predicate Waiting(run: seq<Event>, entry: int) {
    forall k :: 0 <= k < |run| ==>
      && !run[k].EditPause?
      && (run[k].Reconcile? ==> entry <= run[k].env.now)
  }

  /** The latest time a reconcile of the run saw. */
  function Latest(run: seq<Event>, entry: int): int {
    if run == [] then entry
    else Max(Latest(run[1..], entry), if run[0].Reconcile? then run[0].env.now else entry)
  }

  lemma TransitionKeepsPausing(ro: Rollout, after: Rollout, env: Env, i: nat, duration: int, entry: int)
    requires Pausing(ro, i, duration, entry) && Transition(ro, after, env) && entry <= env.now
    ensures Pausing(after, i, duration, entry) || env.now >= entry + duration
  {
    hide Position, AdvancedStatus;
    PositionOf(ro.spec.steps, i, 0);
  }

  lemma ApplyKeepsPausing(w: World, e: Event, i: nat, duration: int, entry: int)
    requires Pausing(w.stored, i, duration, entry) && Waiting([e], entry)
    ensures Pausing(Apply(w, e).stored, i, duration, entry)
            || (e.Reconcile? && e.env.now >= entry + duration)
  {
    hide Sync, SyncRead, Transition;
    assert e == [e][0];
    if e.CachedReconcile? {
      CachedReconcileStoresNothing(w, e.ro, e.env);
    } else if e.Reconcile? {
      SyncIsOneTransition(w, e.env);
      if Sync(w, e.env).world.stored != w.stored {
        TransitionKeepsPausing(w.stored, Sync(w, e.env).world.stored, e.env, i, duration, entry);
      }
    }
  }

  /** A duration pause entered with no pause condition left over, as advanceStep enters it,
      lasts at least its duration: while the clock of every reconcile is short of that, the
      executor is still at the pause. */
  lemma {:induction false} PauseLasts(w: World, run: seq<Event>, i: nat, duration: int, entry: int)
    requires Pausing(w.stored, i, duration, entry) && Waiting(run, entry)
    requires Latest(run, entry) < entry + duration
    ensures Pausing(Run(w, run).stored, i, duration, entry)
    decreases run
  {
    hide Apply, Pausing;
    if run != [] {
      ApplyKeepsPausing(w, run[0], i, duration, entry);
      PauseLasts(Apply(w, run[0]), run[1..], i, duration, entry);
    }
  }

  /** What leaving a step vouches for.  In every case the reconcile was neither paused nor
      aborted and everything observed was already in the status.  A SetWeight is left with the
      whole router and the status at its weight, and verified if the rollout asks for that; a
      Pause only after its stored start and at least its duration (an indefinite one never); an
      Analysis only on success or when told to ignore the result; a Promote only with all
      traffic shifted, the Services repointed, the delay over, and no promotion pending. */
  lemma StepIsLeftOnlyWhenDone(w: World, env: Env, i: nat)
    requires CurrentIndex(w.stored) == Some(i) && w.stored.status.currentStep != ""
    requires Sync(w, env).world.stored.status.currentStep != w.stored.status.currentStep
    ensures var ro, s := w.stored, w.stored.status;
            && !ro.spec.paused && !ro.spec.abort && env.resolves && env.replicaSetsOk && Counted(ro, env.counts) == s
            && match ro.spec.steps[i].action {
                 case SetWeight(weight) =>
                   ro.spec.routed && env.patch.All? && s.currentWeight == weight
                   && (ro.spec.verifies ==> env.verification.Verified?)
                 case SetCanaryScale => env.scaleOk
                 case Pause(duration) =>
                   s.pauseConditions != [] && duration.Some?
                   && env.now - s.pauseConditions[0].startTime >= duration.value
                 case Analysis(onFailure) =>
                   env.run.RunPhase?
                   && (|| env.run.phase.Successful?
                       || ((env.run.phase.Failed? || env.run.phase.Error?) && onFailure.IgnoreResult?)
                       || (env.run.phase.Inconclusive? && env.onInconclusive.IgnoreResult?))
                 case Experiment => true
                 case Promote =>
                   s.phase == Promoting && s.currentWeight == 100 && RouterShifted(ro, env) && PromoteDone(ro, env)
                   && !ro.spec.autoPromotion.Disabled? && (ro.spec.autoPromotion.Manual? ==> s.pauseConditions == [])
                 case NoAction => false
               }
  {
    hide Sync, Position, Recorded, NameOfRun;
    SyncIsOneTransition(w, env);
  }
}
