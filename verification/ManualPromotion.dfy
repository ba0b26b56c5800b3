/** Promotion under the Manual mode: when the executor waits for the user, what the user's edit
    does, and that a rollout which arrives at the step in the ordinary way does not wait. */
module ManualPromotion {
  import opened Common
  import opened Progression
  import opened Transitions
  import opened ProgressionRuns
  import opened Completion
  import opened ProgressionLimits

  /** The Rollout is at a Promote step of that mode. */
  ghost predicate AtPromotion(ro: Rollout, i: nat, mode: AutoPromotion) {
    && Named(ro.spec.steps) && i < |ro.spec.steps| && ro.status.currentStep == ro.spec.steps[i].name
    && ro.spec.steps[i].action == Promote && ro.spec.autoPromotion == mode
  }

  /** With a pause condition the executor waits and stores nothing; paused without one it stores
      the condition that it awaits the promotion; in any other phase without one the promotion
      is accepted, and under way it goes on. */
  lemma ManualPromotionDecides(w: World, i: nat, env: Env)
    requires AtPromotion(w.stored, i, Manual) && Calm(w.stored, env)
    ensures var ro, s, after := w.stored, w.stored.status, Sync(w, env).world;
            if s.pauseConditions != [] then after.stored == ro && after.weights == w.weights
            else if s.phase == Paused then
              && after.stored == Next(ro, s.(pauseConditions := [PauseCondition(AwaitingPromotion, WholeSecond(env.now), None)]))
              && after.weights == w.weights
            else if s.phase != Promoting then after.stored == Next(ro, s.(phase := Promoting))
            else if s.currentWeight != 100 then after.stored == Next(ro, s.(currentWeight := 100))
            else after.stored == ro || after.stored == Next(ro, AdvancedStatus(ro, i, env.now))
    ensures w.stored.status.pauseConditions != [] || w.stored.status.phase == Paused ==> !Sync(w, env).err
  {
    hide PutStatus, Position, Patched, ShiftAll, AdvancedStatus;
    var ro, start := w.stored, w.(budget := env.budget);
    PositionOf(ro.spec.steps, i, 0);
    PutIsOneStep(start, ro, ro.status.(phase := Promoting));
    PutIsOneStep(start, ro, OnHold(ro, AwaitingPromotion, env.now));
    ShiftAllStores(start, ro, i, env);
    ShiftAllStores(PutStatus(start, ro.(status := ro.status.(phase := Promoting))).world, ro, i, env);
    if ro.status.currentWeight != 100 {
      CalmStamp(start, ro, i, env);
    }
  }

  /** Under Disabled the step is an error, and neither the router nor the status moves. */
  lemma DisabledPromotionFails(w: World, i: nat, env: Env)
    requires AtPromotion(w.stored, i, Disabled) && Calm(w.stored, env)
    ensures Sync(w, env) == Outcome(w.(budget := env.budget), true)
  {
    hide Position;
    PositionOf(w.stored.spec.steps, i, 0);
  }

  /** Waiting for the user. */
  ghost predicate Waits(ro: Rollout, i: nat) {
    AtPromotion(ro, i, Manual) && (ro.status.pauseConditions != [] || ro.status.phase == Paused)
  }

  lemma {:induction false} WaitsOverRun(w: World, i: nat, envs: seq<Env>)
    requires Waits(w.stored, i) && QuietRun(envs) && (envs != [] ==> Calm(w.stored, envs[0]))
    ensures var held := Iterate(w, envs);
            && Waits(held.stored, i) && held.weights == w.weights && held.stored.spec == w.stored.spec
            && held.stored.generation == w.stored.generation
            && held.stored.status.(phase := w.stored.status.phase, pauseConditions := w.stored.status.pauseConditions)
               == w.stored.status
    decreases envs
  {
    hide Sync, Quiet;
    if envs != [] {
      ManualPromotionDecides(w, i, envs[0]);
      var next := Sync(w, envs[0]).world;
      if |envs| > 1 {
        CalmAgain(w.stored, next.stored, envs[0], envs[1]);
      }
      WaitsOverRun(next, i, envs[1..]);
    }
  }

  lemma CalmAgain(ro: Rollout, after: Rollout, env: Env, later: Env)
    requires Calm(ro, env) && Quiet(later) && later.counts == env.counts
    requires after.spec == ro.spec && after.generation == ro.generation
    requires after.status.(phase := ro.status.phase, pauseConditions := ro.status.pauseConditions) == ro.status
    ensures Calm(after, later)
  {
    hide Quiet;
  }

  /** The user's promotion: clear the conditions and leave the Paused phase. */
  function Promoted(w: World): World {
    Apply(w, EditPause(Phase.Progressing, []))
  }

  /** The writes still to store once the pause is cleared. */
  function RemainingOnceCleared(ro: Rollout, i: nat): nat
    requires i <= |ro.spec.steps|
  {
    Writes(ro.spec.steps, i, ro.status.currentWeight, false, false)
  }

  /** A rollout that waits at a manual promotion, through any number of reconciles in which
      nothing fails, goes on when the user clears the pause once, and completes. */
  lemma PromotedRolloutCompletes(w: World, i: nat, waiting: seq<Env>, envs: seq<Env>, start: int) returns (n: nat)
    requires Waits(w.stored, i) && Automatic(w.stored.spec) && Refines(w.stored, start)
    requires envs != [] && QuietRun(waiting + envs) && Calm(w.stored, (waiting + envs)[0])
    requires Useful(Promoted(Iterate(w, waiting)), envs) >= RemainingOnceCleared(w.stored, i)
    ensures Waits(Iterate(w, waiting).stored, i) && Iterate(w, waiting).weights == w.weights
    ensures n <= |envs|
    ensures var done, steps := Iterate(Promoted(Iterate(w, waiting)), envs[..n]).stored.status, w.stored.spec.steps;
            && done.currentStep == "" && done.phase == Healthy
            && done.currentWeight == WeightBefore(steps, |steps|, start)
  {
    hide Sync, Quiet, Writes, Useful, Iterate, Automatic, WeightBefore;
    assert forall k :: 0 <= k < |waiting| ==> (waiting + envs)[k] == waiting[k];
    assert forall k :: 0 <= k < |envs| ==> (waiting + envs)[|waiting| + k] == envs[k];
    QuietParts(waiting, envs);
    WaitsOverRun(w, i, waiting);
    var held := Iterate(w, waiting);
    CalmAgain(w.stored, Promoted(held).stored, (waiting + envs)[0], envs[0]);
    n := RolloutCompletes(Promoted(held), i, envs, start);
  }

  lemma QuietParts(waiting: seq<Env>, envs: seq<Env>)
    requires envs != [] && QuietRun(waiting + envs)
    ensures QuietRun(waiting) && QuietRun(envs) && envs[0].counts == (waiting + envs)[0].counts
    ensures waiting != [] ==> waiting[0] == (waiting + envs)[0]
  {
    hide Quiet;
    assert forall k :: 0 <= k < |waiting| ==> (waiting + envs)[k] == waiting[k];
    assert forall k :: 0 <= k < |envs| ==> (waiting + envs)[|waiting| + k] == envs[k];
  }

  /** A new Rollout whose only step is a manual promotion. */
  function ByHand(): Rollout {
    var ro := NewRollout([Step("promote", Promote)], true);
    ro.(spec := ro.spec.(autoPromotion := Manual))
  }

  /** The mode does not make the executor wait for a rollout that arrives at the step in the
      ordinary way, without pause conditions: this one is promoted by reconciles alone. */
  lemma ManualPromotesByItself() returns (w: World, envs: seq<Env>)
    ensures w == World(ByHand(), [0], 0)
    ensures var done := Iterate(w, envs);
            && done.stored.status.currentStep == "" && done.stored.status.phase == Healthy
            && done.stored.status.currentWeight == 100
  {
    hide Sync, Iterate, Useful, Remaining;
    w := World(ByHand(), [0], 0);
    var env := Fair(0, Counts(1, 1, 1, 1));
    var a := Sync(w, env).world;
    var b := Sync(a, env).world;
    NamedOne(w.stored.spec.steps[0]);
    CountsComeFirst(w, env);
    CountedIsCalm(w.stored, env);
    FirstStepStarts(a, env);
    assert WeightBefore(b.stored.spec.steps, 0, 0) == 0;
    PositionOf(b.stored.spec.steps, 0, 0);
    ThreeWrites(b.stored);
    var three := [env, env, env];
    SpacedRolloutCompletes(b, 0, three, 0, 0);
    envs := [env, env] + three;
    assert envs[1..][1..] == three;
    TwoFirst(w, env, three);
  }

  lemma ThreeWrites(ro: Rollout)
    requires ro.spec.steps == ByHand().spec.steps && ro.status.currentWeight == 0 && ro.status.phase == Phase.Progressing
    ensures Remaining(ro, 0) == 3
    ensures WeightBefore(ro.spec.steps, 1, 0) == 100
  {
    assert Writes(ro.spec.steps, 1, 100, false, false) == 0;
  }

  lemma TwoFirst(w: World, env: Env, rest: seq<Env>)
    ensures Iterate(w, [env, env] + rest) == Iterate(Sync(Sync(w, env).world, env).world, rest)
  {
    hide Sync;
    var envs := [env, env] + rest;
    assert envs[1..] == [env] + rest && envs[1..][1..] == rest;
  }
}
