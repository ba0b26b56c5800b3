/** Rollouts come to an end: with nothing failing, every automatic step completes, although a
    reconcile that needs two writes loses the second to its own first. */
module Completion {
  import opened Common
  import opened Progression
  import opened Transitions
  import opened ProgressionRuns

  /** A reconcile in which nothing fails. */
  predicate Quiet(env: Env) {
    && env.resolves && env.replicaSetsOk && env.scaleOk && env.servicesOk
    && env.patch.All? && env.verification.Verified? && env.budget >= 2
  }

  /** Successive reconciles in which nothing fails and the same pods are observed. */
  ghost predicate QuietRun(envs: seq<Env>) {
    forall k :: 0 <= k < |envs| ==> Quiet(envs[k]) && envs[k].counts == envs[0].counts
  }

  /** Nothing fails, and the pods observed are those already counted. */
  predicate Calm(ro: Rollout, env: Env) {
    && Quiet(env)
    && Counted(ro, env.counts) == ro.status
    && !ro.spec.paused && !ro.spec.abort
  }

  /** The steps the executor can complete on its own, given time. */
  predicate Automatic(spec: Spec) {
    forall k :: 0 <= k < |spec.steps| ==>
      match spec.steps[k].action
      case SetWeight(_) => spec.routed
      case SetCanaryScale => true
      case Pause(duration) => duration.Some?
      case Experiment => true
      case Promote => !spec.autoPromotion.Disabled?
      case _ => false
  }

  /** The writes one step still has to store, one per reconcile: `promoting` and `stamped` say
      what it has stored already. */
  function Own(action: Action, weight: int, promoting: bool, stamped: bool): (n: nat)
    ensures 1 <= n <= 3
  {
    match action
    case SetWeight(target) => if weight == target then 1 else 2
    case Promote => (if promoting then 0 else 1) + (if weight == 100 then 1 else 2)
    case Pause(_) => if stamped then 1 else 2
    case _ => 1
  }

  /** The writes still to be stored from step i on. */
  function Writes(steps: seq<Step>, i: nat, weight: int, promoting: bool, stamped: bool): nat
    requires i <= |steps|
    decreases |steps| - i
  {
    if i == |steps| then 0
    else
      var action := steps[i].action;
      Own(action, weight, promoting, stamped) + Writes(steps, i + 1, TargetOf(action).GetOr(weight), false, false)
  }

  function Remaining(ro: Rollout, i: nat): nat
    requires i <= |ro.spec.steps|
  {
    Writes(ro.spec.steps, i, ro.status.currentWeight, ro.status.phase == Promoting, ro.status.pauseConditions != [])
  }

  ghost predicate At(ro: Rollout, i: nat, env: Env) {
    && Named(ro.spec.steps) && Automatic(ro.spec) && Calm(ro, env)
    && i < |ro.spec.steps| && ro.status.currentStep == ro.spec.steps[i].name
    && (ro.spec.steps[i].action.Promote? && ro.spec.autoPromotion.Manual? ==>
          ro.status.pauseConditions == [] && ro.status.phase != Paused)
  }

  /** All that is left to wait for is the clock: a stamped pause whose duration is not over, or
      a promotion whose traffic is shifted and whose delay is not. */
  predicate Idle(ro: Rollout, env: Env) {
    CurrentIndex(ro).Some? &&
    match CurrentAction(ro) {
      case Pause(Some(duration)) =>
        ro.status.pauseConditions != [] && env.now - ro.status.pauseConditions[0].startTime < duration
      case Promote =>
        && ro.status.phase == Promoting && ro.status.currentWeight == 100
        && env.now - ro.status.stepStartedAt.GetOr(env.now) < ro.spec.scaleDownDelay.GetOr(0)
      case _ => false
    }
  }

  /** What the handler of an automatic step that is not idle stores next. */
  function NextStatus(ro: Rollout, i: nat, now: int): Status
    requires i < |ro.spec.steps|
  {
    var action := ro.spec.steps[i].action;
    if action.Promote? && ro.status.phase != Promoting then ro.status.(phase := Promoting)
    else if action.Pause? && ro.status.pauseConditions == [] then PauseEntered(ro, action.duration, now)
    else if TargetOf(action).Some? && TargetOf(action).value != ro.status.currentWeight
    then Weighted(ro, TargetOf(action).value).status
    else AdvancedStatus(ro, i, now)
  }

  lemma CalmFinish(w: World, ro: Rollout, i: nat, env: Env)
    requires w.stored == ro && w.budget >= 1 && At(ro, i, env) && ro.spec.steps[i].action.Promote?
    requires ro.status.currentWeight == 100 && ro.status.phase == Promoting && CurrentIndex(ro) == Some(i)
    ensures ShiftAll(w, ro, i, env).world.stored
         == if Idle(ro, env) then ro else Next(ro, AdvancedStatus(ro, i, env.now))
  {
    hide Patched, Position;
  }

  lemma CalmStep(w: World, ro: Rollout, i: nat, env: Env)
    requires w.stored == ro && w.budget == env.budget && At(ro, i, env) && CurrentIndex(ro) == Some(i)
    ensures Execute(w, ro, env).world.stored == if Idle(ro, env) then ro else Next(ro, NextStatus(ro, i, env.now))
  {
    hide PutStatus, Patched, RunSetWeight, RunPromote, Position;
    match ro.spec.steps[i].action
    case SetWeight(weight) => CalmSetWeight(w, ro, i, weight, env);
    case Promote => CalmPromote(w, ro, i, env);
    case Pause(duration) =>
      PutIsOneStep(w, ro, AdvancedStatus(ro, i, env.now));
      PutIsOneStep(w, ro, PauseEntered(ro, duration, env.now));
    case _ => PutIsOneStep(w, ro, AdvancedStatus(ro, i, env.now));
  }

  lemma CalmSetWeight(w: World, ro: Rollout, i: nat, weight: int, env: Env)
    requires w.stored == ro && w.budget == env.budget && Calm(ro, env) && ro.spec.routed
    requires i < |ro.spec.steps| && ro.spec.steps[i].action == SetWeight(weight)
    requires Named(ro.spec.steps) && ro.status.currentStep == ro.spec.steps[i].name
    ensures RunSetWeight(w, ro, i, weight, env).world.stored == Next(ro, NextStatus(ro, i, env.now))
  {
    hide PutStatus, Patched;
    var patched := w.(weights := Patched(w.weights, weight, env.patch));
    PutIsOneStep(patched, ro, AdvancedStatus(ro, i, env.now));
    PutIsOneStep(patched, ro, Weighted(ro, weight).status);
    if ro.status.currentWeight != weight {
      var o := PutStatus(patched, Weighted(ro, weight));
      StalePutFails(o.world, Weighted(ro, weight), AdvancedStatus(Weighted(ro, weight), i, env.now));
    }
  }

  lemma CalmPromote(w: World, ro: Rollout, i: nat, env: Env)
    requires w.stored == ro && w.budget == env.budget && At(ro, i, env) && ro.spec.steps[i].action.Promote?
    requires CurrentIndex(ro) == Some(i)
    ensures RunPromote(w, ro, i, env).world.stored
         == if Idle(ro, env) then ro else Next(ro, NextStatus(ro, i, env.now))
  {
    hide PutStatus, Patched, ShiftAll, FinishPromote, AdvancedStatus, Position;
    if ro.status.phase != Promoting {
      PutIsOneStep(w, ro, ro.status.(phase := Promoting));
      ShiftAllStores(PutStatus(w, ro.(status := ro.status.(phase := Promoting))).world, ro, i, env);
    } else if ro.status.currentWeight == 100 {
      CalmFinish(w, ro, i, env);
    } else {
      CalmStamp(w, ro, i, env);
    }
  }

  lemma CalmStamp(w: World, ro: Rollout, i: nat, env: Env)
    requires w.stored == ro && w.budget >= 1 && env.patch.All? && ro.status.currentWeight != 100
    ensures ShiftAll(w, ro, i, env).world.stored == Next(ro, Weighted(ro, 100).status)
  {
    hide PutStatus, Patched, FinishPromote, AdvancedStatus;
    var shifted := if ro.spec.routed then w.(weights := Patched(w.weights, 100, env.patch)) else w;
    PutIsOneStep(shifted, ro, Weighted(ro, 100).status);
    var o := PutStatus(shifted, Weighted(ro, 100));
    FinishPromoteStores(o.world, Weighted(ro, 100), i, env);
  }

  lemma CalmExecutes(w: World, i: nat, env: Env)
    requires At(w.stored, i, env)
    ensures Sync(w, env) == Execute(w.(budget := env.budget), w.stored, env)
  {
    hide Execute, Patched, Counted, Automatic, PutStatus;
  }

  /** One calm reconcile at step i stores exactly one of the writes that remain, or waits for
      the clock. */
  lemma CalmSync(w: World, i: nat, env: Env)
    requires At(w.stored, i, env)
    ensures var ro, after := w.stored, Sync(w, env).world.stored;
            if Idle(ro, env) then after == ro
            else
              && after == Next(ro, NextStatus(ro, i, env.now))
              && (after.status.currentStep == "" ==>
                    Remaining(ro, i) == 1 && i + 1 == |ro.spec.steps| && after.status.phase == Healthy)
              && (after.status.currentStep != "" ==>
                    exists j :: i <= j <= i + 1 && At(after, j, env) && Remaining(ro, i) == Remaining(after, j) + 1)
  {
    hide PutStatus, Execute, Patched, Sync, Position, Idle, Calm, Automatic, Remaining;
    var ro := w.stored;
    PositionOf(ro.spec.steps, i, 0);
    CalmExecutes(w, i, env);
    CalmStep(w.(budget := env.budget), ro, i, env);
    if !Idle(ro, env) {
      var after := Next(ro, NextStatus(ro, i, env.now));
      NextIsCalm(ro, i, env);
      NextStatusRemains(ro, i, env.now);
      if after.status.currentStep == ro.status.currentStep {
        assert At(after, i, env);
      } else if i + 1 < |ro.spec.steps| {
        assert At(after, i + 1, env);
      }
    }
  }

  lemma NextIsCalm(ro: Rollout, i: nat, env: Env)
    requires Calm(ro, env) && i < |ro.spec.steps|
    ensures Calm(Next(ro, NextStatus(ro, i, env.now)), env)
  {
    hide Quiet;
  }

  lemma NextStatusRemains(ro: Rollout, i: nat, now: int)
    requires Named(ro.spec.steps) && i < |ro.spec.steps| && ro.status.currentStep == ro.spec.steps[i].name
    ensures var after := Next(ro, NextStatus(ro, i, now));
            if after.status.currentStep == ro.status.currentStep
            then after.status.currentStep != "" && Remaining(ro, i) == Remaining(after, i) + 1
            else && after.status == AdvancedStatus(ro, i, now)
                 && Remaining(ro, i) == 1 + (if i + 1 == |ro.spec.steps| then 0 else Remaining(after, i + 1))
  {
    assert ro.spec.steps[i].name != "";
    var after := Next(ro, NextStatus(ro, i, now));
    if after.status.currentStep != ro.status.currentStep {
      assert Remaining(ro, i) == 1 + Writes(ro.spec.steps, i + 1, ro.status.currentWeight, false, false);
    }
  }

  /** Reconciles in a row. */
  function Iterate(w: World, envs: seq<Env>): World
    decreases envs
  {
    if envs == [] then w else Iterate(Sync(w, envs[0]).world, envs[1..])
  }

  /** How many of them have something to do. */
  function Useful(w: World, envs: seq<Env>): (n: nat)
    ensures n <= |envs|
    decreases envs
  {
    if envs == [] then 0
    else (if Idle(w.stored, envs[0]) then 0 else 1) + Useful(Sync(w, envs[0]).world, envs[1..])
  }

  lemma AtLater(ro: Rollout, i: nat, env: Env, later: Env)
    requires At(ro, i, env) && Quiet(later) && later.counts == env.counts
    ensures At(ro, i, later)
  {
  }

  lemma IterateFirst(w: World, envs: seq<Env>, n: nat)
    requires 0 < n <= |envs|
    ensures Iterate(w, envs[..n]) == Iterate(Sync(w, envs[0]).world, envs[1..][..n - 1])
    ensures Useful(w, envs[..n])
         == (if Idle(w.stored, envs[0]) then 0 else 1) + Useful(Sync(w, envs[0]).world, envs[1..][..n - 1])
  {
    hide Sync, Idle;
    assert envs[..n][1..] == envs[1..][..n - 1] && envs[..n][0] == envs[0];
  }

  /** Every rollout of automatic steps ends, after exactly as many useful reconciles as there are
      writes to store, whatever the clock does in between: with no step current, Healthy, and at
      the weight its steps end with. */
  lemma {:induction false} RolloutCompletes(w: World, i: nat, envs: seq<Env>, start: int) returns (n: nat)
    requires QuietRun(envs) && |envs| > 0 && At(w.stored, i, envs[0]) && Refines(w.stored, start)
    requires Useful(w, envs) >= Remaining(w.stored, i)
    ensures Remaining(w.stored, i) <= 3 * (|w.stored.spec.steps| - i)
    ensures n <= |envs| && Useful(w, envs[..n]) == Remaining(w.stored, i)
    ensures var done, steps := Iterate(w, envs[..n]).stored.status, w.stored.spec.steps;
            && done.currentStep == "" && done.phase == Healthy
            && done.currentWeight == WeightBefore(steps, |steps|, start)
    decreases |envs|
  {
    hide Sync, Refines, WeightBefore, Writes, Quiet, Calm, Automatic, Idle;
    var ro, next := w.stored, Sync(w, envs[0]).world;
    RemainingBound(ro, i);
    CalmSync(w, i, envs[0]);
    ApplyRefines(w, Reconcile(envs[0]), start);
    assert Apply(w, Reconcile(envs[0])) == next;
    if next.stored.status.currentStep == "" {
      n := 1;
      IterateFirst(w, envs, 1);
      assert envs[1..][..0] == [] && Iterate(next, []) == next;
    } else {
      var j := i;
      if !Idle(ro, envs[0]) {
        j :| i <= j <= i + 1 && At(next.stored, j, envs[0]) && Remaining(ro, i) == Remaining(next.stored, j) + 1;
      }
      RemainingBound(next.stored, j);
      assert envs[1..] != [];
      AtLater(next.stored, j, envs[0], envs[1]);
      var m := RolloutCompletes(next, j, envs[1..], start);
      n := m + 1;
      IterateFirst(w, envs, n);
    }
  }

  lemma RemainingBound(ro: Rollout, i: nat)
    requires i <= |ro.spec.steps|
    ensures |ro.spec.steps| - i <= Remaining(ro, i) <= 3 * (|ro.spec.steps| - i)
  {
    WritesBound(ro.spec.steps, i, ro.status.currentWeight, ro.status.phase == Promoting, ro.status.pauseConditions != []);
  }

  lemma WritesBound(steps: seq<Step>, i: nat, weight: int, promoting: bool, stamped: bool)
    requires i <= |steps|
    ensures |steps| - i <= Writes(steps, i, weight, promoting, stamped) <= 3 * (|steps| - i)
    decreases |steps| - i
  {
  }

  // ---------------------------------------------------------------- waiting long enough

  /** No pause and no delay of these steps is longer. */
  predicate Patient(spec: Spec, patience: int) {
    && spec.scaleDownDelay.GetOr(0) <= patience && 0 <= patience
    && forall k :: 0 <= k < |spec.steps| && spec.steps[k].action.Pause? ==>
         spec.steps[k].action.duration.GetOr(0) <= patience
  }

  /** Successive reconciles at least so far apart. */
  ghost predicate Spaced(envs: seq<Env>, patience: int) {
    forall k {:trigger envs[k]} :: 0 < k < |envs| ==> envs[k - 1].now + patience <= envs[k].now
  }

  /** The current step started in the past. */
  predicate Begun(ro: Rollout, env: Env) {
    ro.status.stepStartedAt.Some? && ro.status.stepStartedAt.value <= env.now
  }

  lemma NextIsUseful(ro: Rollout, i: nat, j: nat, env: Env, later: Env, patience: int)
    requires At(ro, i, env) && Begun(ro, env) && Patient(ro.spec, patience) && env.now + patience <= later.now
    requires var next := Next(ro, NextStatus(ro, i, env.now)); At(next, j, env) && i <= j <= i + 1
    ensures var next := Next(ro, NextStatus(ro, i, env.now)); Begun(next, later) && !Idle(next, later)
  {
    hide Position, Calm, Automatic;
    PositionOf(ro.spec.steps, j, 0);
  }

  /** Reconciles that are further apart than any pause or delay never find the executor idle,
      unless the first does. */
  lemma {:induction false} SpacedAreUseful(w: World, i: nat, envs: seq<Env>, patience: int)
    requires QuietRun(envs) && |envs| > 0 && At(w.stored, i, envs[0]) && |envs| <= Remaining(w.stored, i)
    requires Spaced(envs, patience) && Patient(w.stored.spec, patience)
    requires Begun(w.stored, envs[0]) && !Idle(w.stored, envs[0])
    ensures Useful(w, envs) == |envs|
    decreases envs
  {
    hide Sync, Writes, Quiet, Calm, Automatic, Idle, Patient, Begun;
    CalmSync(w, i, envs[0]);
    var ro, next := w.stored, Sync(w, envs[0]).world;
    if |envs| > 1 {
      var j :| i <= j <= i + 1 && At(next.stored, j, envs[0]) && Remaining(ro, i) == Remaining(next.stored, j) + 1;
      NextIsUseful(ro, i, j, envs[0], envs[1], patience);
      AtLater(next.stored, j, envs[0], envs[1]);
      SpacedAreUseful(next, j, envs[1..], patience);
    } else {
      assert envs[1..] == [];
    }
  }

  /** So a rollout whose reconciles are that far apart takes exactly as many of them as there are
      writes to store. */
  lemma {:induction false} SpacedRolloutCompletes(w: World, i: nat, envs: seq<Env>, patience: int, start: int)
    requires QuietRun(envs) && |envs| > 0 && At(w.stored, i, envs[0]) && |envs| == Remaining(w.stored, i)
    requires Spaced(envs, patience) && Patient(w.stored.spec, patience)
    requires Begun(w.stored, envs[0]) && !Idle(w.stored, envs[0]) && Refines(w.stored, start)
    ensures var done, steps := Iterate(w, envs).stored.status, w.stored.spec.steps;
            && done.currentStep == "" && done.phase == Healthy
            && done.currentWeight == WeightBefore(steps, |steps|, start)
  {
    hide Sync, Refines, WeightBefore, Writes, Quiet, Calm, Automatic, Idle, Patient, Begun, Useful, At, Iterate;
    SpacedAreUseful(w, i, envs, patience);
    var n := RolloutCompletes(w, i, envs, start);
    assert n == |envs| && envs[..n] == envs;
  }

  predicate RolledBack(w: World) {
    w.stored.status.phase == Aborted && forall k :: 0 <= k < |w.weights| ==> w.weights[k] == 0
  }

  /** An abort is complete after two quiet reconciles: the first may spend its only write on
      the replica counts, the second finds them up to date. */
  lemma AbortCompletes(w: World, envs: seq<Env>)
    requires w.stored.spec.abort && !w.stored.spec.paused && w.stored.spec.routed
    requires |envs| == 2 && QuietRun(envs)
    ensures RolledBack(Iterate(w, envs))
  {
    hide PutStatus, Execute, SyncRead;
    var first := Sync(w, envs[0]).world;
    AbortStores(w, envs[0]);
    AbortStores(first, envs[1]);
    var second := Sync(first, envs[1]).world;
    SyncRoutes(first, envs[1]);
    assert envs[1..] == [envs[1]] && envs[1..][1..] == [];
    assert Iterate(first, envs[1..]) == Iterate(second, []) == second;
  }

  /** A reconcile of an aborted rollout brings the counts up to date, or the phase, or finds
      both done. */
  lemma AbortStores(w: World, env: Env)
    requires w.stored.spec.abort && !w.stored.spec.paused && w.stored.spec.routed
    requires Quiet(env)
    ensures var ro, o := w.stored, Sync(w, env);
            && o.world.stored.spec == ro.spec && o.world.stored.generation == ro.generation
            && (if Counted(ro, env.counts) != ro.status
                then o.world.stored == Next(ro, Counted(ro, env.counts))
                else !o.err && o.world.stored.status == ro.status.(phase := Aborted))
    ensures w.stored.status.phase == Aborted ==> Sync(w, env).world.stored.status.phase == Aborted
  {
    hide PutStatus, Execute, Patched;
    var ro, start := w.stored, w.(budget := env.budget);
    PutIsOneStep(start, ro, Counted(ro, env.counts));
    var o := PushReplicaCounts(start, ro, env);
    var reset := o.world.(weights := Patched(o.world.weights, 0, env.patch));
    PutIsOneStep(reset, ro, ro.status.(phase := Aborted));
  }

  // ---------------------------------------------------------------- a failed gate rolls back

  /** Recording a summary: it is there, the summaries of other runs stay in their places, there
      is still one per run, and recording it again changes nothing. */
  lemma {:induction false} RecordedMeans(ss: seq<Summary>, s: Summary, i: nat)
    requires i <= |ss| && forall j :: 0 <= j < i ==> ss[j].run != s.run
    ensures var r := Recorded(ss, s, i);
            && |ss| <= |r| <= |ss| + 1 && s in r
            && (forall j :: 0 <= j < |ss| && ss[j].run != s.run ==> r[j] == ss[j])
            && ((forall j, k :: 0 <= j < k < |ss| ==> ss[j].run != ss[k].run) ==>
                  forall j, k :: 0 <= j < k < |r| ==> r[j].run != r[k].run)
            && Recorded(r, s, i) == r
    decreases |ss| - i
  {
    if i == |ss| {
      assert (ss + [s])[i] == s && (ss + [s])[i := s] == ss + [s];
    } else if ss[i].run == s.run {
      assert ss[i := s][i] == s && ss[i := s][i := s] == ss[i := s];
    } else {
      RecordedMeans(ss, s, i + 1);
    }
  }

  /** The Rollout is at an analysis step that rolls back on failure. */
  ghost predicate AtFailedGate(ro: Rollout, i: nat, env: Env) {
    && CurrentIndex(ro) == Some(i) && ro.status.currentStep != ""
    && ro.spec.steps[i].action == Analysis(AbortRollout)
    && Calm(ro, env) && ro.spec.routed
    && (env.run == RunPhase(Failed) || env.run == RunPhase(Error))
  }

  /** The first reconcile records the run, the next one, finding it recorded, requests the
      abort: one write each, because the second write of a reconcile is stale. */
  lemma FailedGateStores(w: World, i: nat, env: Env)
    requires AtFailedGate(w.stored, i, env)
    ensures var ro := w.stored;
            var recorded := WithSummary(ro, ro.spec.steps[i].name, env.run.phase);
            Sync(w, env).world.stored == if recorded != ro.status then Next(ro, recorded) else AbortRequested(ro)
  {
    hide Position, Recorded, Patched;
    var ro, start := w.stored, w.(budget := env.budget);
    var step := ro.spec.steps[i];
    var o := RecordAnalysisRun(start, ro, step.name, env.run.phase);
    PutIsOneStep(start, ro, WithSummary(ro, step.name, env.run.phase));
    PolicyStores(o.world, ro, i, AbortRollout, AnalysisFailed, env.now);
  }

  lemma SecondRequestsAbort(w: World, i: nat, first: Env, second: Env)
    requires AtFailedGate(w.stored, i, first) && Quiet(second)
    requires second.counts == first.counts && second.run == first.run
    ensures var next := Sync(w, first).world;
            && next.stored.spec.routed && !next.stored.spec.paused
            && (next.stored.spec.abort
                || (Sync(next, second).world.stored == AbortRequested(next.stored)))
  {
    hide Sync, Recorded, Position, Quiet;
    var ro, next := w.stored, Sync(w, first).world;
    FailedGateStores(w, i, first);
    if next.stored != AbortRequested(ro) {
      RecordedMeans(ro.status.summaries, Summary(NameOfRun(ro, ro.spec.steps[i].name), ro.spec.steps[i].name,
                    first.run.phase), 0);
      FailedGateStores(next, i, second);
    }
  }

  /** A failed analysis whose policy is to roll back does so: within four quiet reconciles the
      rollout is Aborted and every VirtualService is back at zero. */
  lemma FailedGateRollsBack(w: World, i: nat, envs: seq<Env>)
    requires |envs| == 4 && QuietRun(envs) && AtFailedGate(w.stored, i, envs[0])
    requires envs[1].run == envs[0].run
    ensures exists n :: 3 <= n <= 4 && RolledBack(Iterate(w, envs[..n]))
  {
    hide Sync, Position, Quiet, RolledBack, AtFailedGate;
    var next := Sync(w, envs[0]).world;
    SecondRequestsAbort(w, i, envs[0], envs[1]);
    if next.stored.spec.abort {
      IterateFirst(w, envs, 3);
      AbortCompletes(next, envs[1..][..2]);
      assert RolledBack(Iterate(w, envs[..3]));
    } else {
      IterateFirst(w, envs, 4);
      IterateFirst(next, envs[1..], 3);
      AbortCompletes(Sync(next, envs[1]).world, envs[1..][1..][..2]);
      assert RolledBack(Iterate(w, envs[..4]));
    }
  }
}
