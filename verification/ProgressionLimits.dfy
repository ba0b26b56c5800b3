/** Where the guarantees of the executor end: exactly which pauses last, and the two surprises
    that a rollout can meet on its way, each reached from a new Rollout. */
module ProgressionLimits {
  import opened Common
  import opened Progression
  import opened Transitions
  import opened ProgressionRuns
  import opened Completion

  /** An environment in which nothing fails. */
  function Fair(now: int, counts: Counts): Env {
    Env(now, true, true, counts, All, Verified, true, true, RunUnavailable, PauseRollout, "", "", 9)
  }

  lemma RunCons(w: World, e: Event, rest: seq<Event>)
    ensures Run(w, [e] + rest) == Run(Apply(w, e), rest)
    ensures Run(w, []) == w
  {
    hide Apply;
    assert ([e] + rest)[1..] == rest;
  }

  lemma RunConcat(w: World, a: seq<Event>, b: seq<Event>)
    ensures Run(w, a + b) == Run(Run(w, a), b)
    decreases a
  {
    hide Apply;
    if a == [] {
      assert a + b == b;
    } else {
      assert (a + b)[1..] == a[1..] + b;
      RunConcat(Apply(w, a[0]), a[1..], b);
    }
  }

  // ---------------------------------------------------------------- single reconciles

  /** Nothing stops this reconcile, whatever is still to be counted. */
  predicate Open(ro: Rollout, env: Env) {
    Quiet(env) && !ro.spec.paused && !ro.spec.abort
  }

  /** A reconcile that observes something new stores that and nothing else. */
  lemma CountsComeFirst(w: World, env: Env)
    requires Open(w.stored, env) && Counted(w.stored, env.counts) != w.stored.status
    ensures Sync(w, env).world.stored == Next(w.stored, Counted(w.stored, env.counts))
  {
    hide PutStatus, Execute, Counted;
    var ro, start := w.stored, w.(budget := env.budget);
    PutIsOneStep(start, ro, Counted(ro, env.counts));
    var o := PushReplicaCounts(start, ro, env);
    ExecuteStores(o.world, ro, env);
    if ro.spec.steps != [] {
      PutIsOneStep(o.world, ro, Started(ro, env.now));
    }
  }

  lemma FirstStepStarts(w: World, env: Env)
    requires Calm(w.stored, env) && w.stored.status.currentStep == "" && w.stored.spec.steps != []
    requires w.stored.spec.steps[0].name != ""
    ensures Sync(w, env).world.stored == Next(w.stored, Started(w.stored, env.now))
  {
    hide PutStatus;
    PutIsOneStep(w.(budget := env.budget), w.stored, Started(w.stored, env.now));
  }

  /** The Rollout is at a duration pause. */
  ghost predicate AtPause(ro: Rollout, i: nat, duration: int) {
    && Named(ro.spec.steps) && i < |ro.spec.steps|
    && ro.status.currentStep == ro.spec.steps[i].name && ro.spec.steps[i].action == Pause(Some(duration))
  }

  lemma PauseIsStamped(w: World, i: nat, duration: int, env: Env)
    requires AtPause(w.stored, i, duration) && Calm(w.stored, env) && w.stored.status.pauseConditions == []
    ensures Sync(w, env).world.stored == Next(w.stored, PauseEntered(w.stored, Some(duration), env.now))
  {
    hide PutStatus, Position;
    PositionOf(w.stored.spec.steps, i, 0);
    PutIsOneStep(w.(budget := env.budget), w.stored, PauseEntered(w.stored, Some(duration), env.now));
  }

  lemma PauseIsLeft(w: World, i: nat, duration: int, env: Env)
    requires AtPause(w.stored, i, duration) && Calm(w.stored, env) && w.stored.status.pauseConditions != []
    requires env.now - w.stored.status.pauseConditions[0].startTime >= duration
    ensures Sync(w, env).world.stored == Next(w.stored, AdvancedStatus(w.stored, i, env.now))
    ensures NameAfter(w.stored.spec.steps, i) != w.stored.status.currentStep
  {
    hide PutStatus, Position;
    PositionOf(w.stored.spec.steps, i, 0);
    PutIsOneStep(w.(budget := env.budget), w.stored, AdvancedStatus(w.stored, i, env.now));
  }

  // ---------------------------------------------------------------- which pauses last

  /** No run of the executor gets past the pause before its time. */
  ghost predicate Lasts(w: World, step: string, duration: int, entry: int) {
    forall run :: Waiting(run, entry) && Latest(run, entry) < entry + duration ==>
      Run(w, run).stored.status.currentStep == step
  }

  /** A run that gets past a pause whose stored start is too old: unpause, take back any abort,
      and reconcile once, or twice when there is something to count first. */
  lemma OldConditionEndsPause(w: World, i: nat, duration: int, entry: int) returns (run: seq<Event>)
    requires AtPause(w.stored, i, duration) && duration > 0
    requires w.stored.status.pauseConditions != [] && w.stored.status.pauseConditions[0].startTime < entry
    ensures Waiting(run, entry) && Latest(run, entry) < entry + duration
    ensures Run(w, run).stored.status.currentStep != w.stored.status.currentStep
  {
    hide Sync, Calm, Counted, AdvancedStatus, Waiting, Latest, NameAfter;
    var env := Fair(Max(entry, w.stored.status.pauseConditions[0].startTime + duration), w.stored.status.counts);
    var a := Apply(w, SetPaused(false));
    var b := Apply(a, SetAbort(false));
    WaitingRun(env, entry, 1);
    WaitingRun(env, entry, 2);
    if Calm(b.stored, env) {
      PauseIsLeft(b, i, duration, env);
      AdvancedStep(b.stored, i, env.now);
      run := [SetPaused(false), SetAbort(false), Reconcile(env)];
      assert run == [SetPaused(false), SetAbort(false)] + [Reconcile(env)];
      FourEvents(w, SetPaused(false), SetAbort(false), Reconcile(env), Reconcile(env));
    } else {
      CountThenLeave(b, i, duration, env);
      run := [SetPaused(false), SetAbort(false), Reconcile(env), Reconcile(env)];
      assert run == [SetPaused(false), SetAbort(false)] + [Reconcile(env), Reconcile(env)];
      FourEvents(w, SetPaused(false), SetAbort(false), Reconcile(env), Reconcile(env));
    }
  }

  lemma CountThenLeave(w: World, i: nat, duration: int, env: Env)
    requires AtPause(w.stored, i, duration) && Open(w.stored, env) && !Calm(w.stored, env)
    requires w.stored.status.pauseConditions != [] && env.now - w.stored.status.pauseConditions[0].startTime >= duration
    ensures Sync(Sync(w, env).world, env).world.stored.status.currentStep != w.stored.status.currentStep
  {
    hide Sync, Calm, Counted, AdvancedStatus, NameAfter;
    NotCalm(w.stored, env);
    CountsComeFirst(w, env);
    CountedIsCalm(w.stored, env);
    var next := Sync(w, env).world;
    PauseIsLeft(next, i, duration, env);
    AdvancedStep(next.stored, i, env.now);
  }

  lemma AdvancedStep(ro: Rollout, i: nat, now: int)
    ensures AdvancedStatus(ro, i, now).currentStep == NameAfter(ro.spec.steps, i)
  {
  }

  lemma NotCalm(ro: Rollout, env: Env)
    requires Open(ro, env) && !Calm(ro, env)
    ensures Counted(ro, env.counts) != ro.status
  {
  }

  lemma CountedIsCalm(ro: Rollout, env: Env)
    requires Open(ro, env)
    ensures var next := Next(ro, Counted(ro, env.counts));
            && Calm(next, env) && next.spec == ro.spec && next.status.currentStep == ro.status.currentStep
            && next.status.pauseConditions == ro.status.pauseConditions
            && next.status.currentWeight == ro.status.currentWeight
  {
  }

  lemma WaitingRun(env: Env, entry: int, n: nat)
    requires env.now >= entry && 1 <= n <= 2
    ensures var run := [SetPaused(false), SetAbort(false)] + if n == 1 then [Reconcile(env)] else [Reconcile(env), Reconcile(env)];
            Waiting(run, entry) && Latest(run, entry) == env.now
  {
    var e := Reconcile(env);
    var tail := if n == 1 then [e] else [e, e];
    assert Latest([], entry) == entry;
    assert [e][1..] == [] && [e, e][1..] == [e] && ([SetAbort(false)] + tail)[1..] == tail;
    assert Latest([e], entry) == env.now && Latest([e, e], entry) == env.now;
    assert Latest([SetAbort(false)] + tail, entry) == env.now;
    assert ([SetPaused(false), SetAbort(false)] + tail)[1..] == [SetAbort(false)] + tail;
  }

  lemma FourEvents(w: World, a: Event, b: Event, c: Event, d: Event)
    ensures Run(w, [a, b, c]) == Apply(Apply(Apply(w, a), b), c)
    ensures Run(w, [a, b, c, d]) == Apply(Run(w, [a, b, c]), d)
  {
    hide Apply, Run;
    RunCons(w, a, [b, c]);
    RunCons(Apply(w, a), b, [c]);
    RunCons(Apply(Apply(w, a), b), c, []);
    RunConcat(w, [a, b, c], [d]);
    RunCons(Run(w, [a, b, c]), d, []);
    assert [a] + [b, c] == [a, b, c] && [b] + [c] == [b, c] && [c] + [] == [c] && [a, b, c] + [d] == [a, b, c, d] && [d] + [] == [d];
    RunCons(Apply(Apply(Apply(w, a), b), c), d, []);
    RunCons(Apply(Run(w, [a, b, c]), d), d, []);
  }

  /** Exactly which pauses last: those entered with no pause condition left over, or with one
      no older than the entry.  Either way of entering is open to the code: advanceStep clears
      the conditions, the start of a new pass does not. */
  lemma PauseLastsIff(w: World, i: nat, duration: int, entry: int)
    requires AtPause(w.stored, i, duration) && duration > 0 && WholeSecond(entry) == entry
    ensures Lasts(w, w.stored.spec.steps[i].name, duration, entry)
            <==> w.stored.status.pauseConditions == [] || w.stored.status.pauseConditions[0].startTime >= entry
  {
    hide Run, Waiting, Latest;
    var conditions := w.stored.status.pauseConditions;
    if conditions == [] || conditions[0].startTime >= entry {
      forall run | Waiting(run, entry) && Latest(run, entry) < entry + duration
        ensures Run(w, run).stored.status.currentStep == w.stored.spec.steps[i].name
      {
        PauseLasts(w, run, i, duration, entry);
        PauseLastsSteps(w, run);
      }
    } else {
      var run := OldConditionEndsPause(w, i, duration, entry);
      assert Waiting(run, entry) && Latest(run, entry) < entry + duration;
    }
  }

  lemma {:induction false} PauseLastsSteps(w: World, run: seq<Event>)
    ensures Run(w, run).stored.spec.steps == w.stored.spec.steps
    decreases run
  {
    hide Apply;
    if run != [] {
      ApplyKeepsSteps(w, run[0]);
      PauseLastsSteps(Apply(w, run[0]), run[1..]);
    }
  }

  // ---------------------------------------------------------------- reached from a new Rollout

  const HOUR: int := 3600 * SECOND

  /** A Rollout as a user creates it. */
  function NewRollout(steps: seq<Step>, routed: bool): Rollout {
    Rollout(0, 1, Spec(false, false, Some(1), steps, Enabled, routed, true, None),
            Status("", None, NoPhase, [], 0, Counts(0, 0, 0, 0), 0, 0, "", "", []))
  }

  lemma NamedOne(step: Step)
    requires step.name != ""
    ensures Named([step])
  {
  }

  /** The first three reconciles of a rollout whose only step is a pause: count, start, stamp. */
  lemma FirstPass(w: World, env: Env)
    requires w.stored == NewRollout([Step("wait", Pause(Some(HOUR)))], false)
    requires env == Fair(0, Counts(1, 1, 1, 1))
    ensures var r := Run(w, [Reconcile(env), Reconcile(env), Reconcile(env)]);
            && AtPause(r.stored, 0, HOUR) && r.stored.spec.steps == w.stored.spec.steps
            && r.stored.status.pauseConditions == [PauseCondition(PausedStep, 0, Some(HOUR))]
            && Open(r.stored, env) && Counted(r.stored, env.counts) == r.stored.status
  {
    hide Sync, Run;
    var e := Reconcile(env);
    NamedOne(w.stored.spec.steps[0]);
    var a, b, c := Sync(w, env).world, Sync(Sync(w, env).world, env).world, Sync(Sync(Sync(w, env).world, env).world, env).world;
    CountsComeFirst(w, env);
    CountedIsCalm(w.stored, env);
    FirstStepStarts(a, env);
    PauseIsStamped(b, 0, HOUR, env);
    FourEvents(w, e, e, e, e);
  }

  /** From the pause of the first pass: the hour is over, the pass ends, the next one starts
      and is past the pause at the same instant. */
  lemma SecondPass(w: World, env: Env)
    requires AtPause(w.stored, 0, HOUR) && w.stored.spec.steps == [Step("wait", Pause(Some(HOUR)))]
    requires w.stored.status.pauseConditions == [PauseCondition(PausedStep, 0, Some(HOUR))]
    requires Calm(w.stored, env) && env.now == HOUR
    ensures var first := Run(w, [Reconcile(env)]).stored.status;
            first.currentStep == "" && first.phase == Healthy
    ensures Run(w, [Reconcile(env), Reconcile(env)]).stored.status.currentStep == "wait"
    ensures Run(w, [Reconcile(env), Reconcile(env), Reconcile(env)]).stored.status.currentStep == ""
  {
    hide Sync, Run;
    var e := Reconcile(env);
    var a, b := Sync(w, env).world, Sync(Sync(w, env).world, env).world;
    PauseIsLeft(w, 0, HOUR, env);
    FirstStepStarts(a, env);
    PauseIsLeft(b, 0, HOUR, env);
    RunCons(w, e, []);
    RunCons(a, e, []);
    RunCons(w, e, [e]);
    assert [e] + [] == [e] && [e] + [e] == [e, e];
    RunCons(a, e, []);
    RunCons(b, e, []);
    FourEvents(w, e, e, e, e);
  }

  /** The pause conditions are cleared on the way from one step to the next, but not on the way
      out of the last step or into the first: a new rollout whose only step is a one-hour pause
      waits for the hour on its first pass and not at all on its second. */
  lemma SecondPassSkipsThePause() returns (w: World, arrival: seq<Event>, later: seq<Event>)
    ensures w.stored == NewRollout([Step("wait", Pause(Some(HOUR)))], false)
    ensures Run(w, arrival).stored.status.currentStep == "wait" && Lasts(Run(w, arrival), "wait", HOUR, 0)
    ensures |later| == 3 && forall k :: 0 <= k < 3 ==> later[k].Reconcile? && later[k].env.now == HOUR
    ensures Run(w, arrival + later[..1]).stored.status.currentStep == ""
    ensures Run(w, arrival + later[..1]).stored.status.phase == Healthy
    ensures Run(w, arrival + later[..2]).stored.status.currentStep == "wait"
    ensures Run(w, arrival + later).stored.status.currentStep == ""
  {
    hide Run, Sync, AtPause, Calm;
    w := World(NewRollout([Step("wait", Pause(Some(HOUR)))], false), [], 0);
    var counts := Counts(1, 1, 1, 1);
    var e, f := Reconcile(Fair(0, counts)), Reconcile(Fair(HOUR, counts));
    arrival, later := [e, e, e], [f, f, f];
    FirstPass(w, Fair(0, counts));
    var r := Run(w, arrival);
    AtThePause(r.stored);
    PauseLastsIff(r, 0, HOUR, 0);
    CalmLater(r.stored, Fair(0, counts), Fair(HOUR, counts));
    SecondPass(r, Fair(HOUR, counts));
    assert later[..1] == [f] && later[..2] == [f, f];
    RunConcat(w, arrival, [f]);
    RunConcat(w, arrival, [f, f]);
    RunConcat(w, arrival, [f, f, f]);
  }

  lemma AtThePause(ro: Rollout)
    requires AtPause(ro, 0, HOUR) && ro.spec.steps == [Step("wait", Pause(Some(HOUR)))]
    ensures ro.spec.steps[0].name == "wait" && ro.status.currentStep == "wait"
  {
  }

  lemma CalmLater(ro: Rollout, env: Env, later: Env)
    requires Open(ro, env) && Counted(ro, env.counts) == ro.status && Quiet(later) && later.counts == env.counts
    ensures Calm(ro, later)
  {
  }

  // ---------------------------------------------------------------- which reconciles keep the agreement

  /** Exactly when a reconcile of an out-of-date object keeps router and status in agreement
      whatever it meets: when it does not get as far as the router, or its target agrees with
      the stored object. */
  lemma CachedAgreesIff(w: World, ro: Rollout)
    requires Agree(w) && ro.version < w.stored.version
    ensures (forall env :: Agree(Apply(w, CachedReconcile(ro, env)))) <==> Harmless(w, ro) || !WritesRouter(ro)
  {
    hide SyncRead, WritesRouter, RouterTarget, StepTarget;
    if Harmless(w, ro) || !WritesRouter(ro) {
      forall env ensures Agree(Apply(w, CachedReconcile(ro, env))) {
        ApplyKeepsAgreement(w, CachedReconcile(ro, env));
      }
    } else {
      var env := Fair(0, ro.status.counts);
      var after := Apply(w, CachedReconcile(ro, env));
      CachedReconcileStoresNothing(w, ro, env);
      StaleReadRoutes(w.(budget := env.budget), ro, env);
      assert after.weights[0] == RouterTarget(ro).value;
    }
  }

  /** The same for a reconcile of the current object: only an abort can break the agreement. */
  lemma FreshAgreesIff(w: World)
    requires Agree(w)
    ensures (forall env :: Agree(Apply(w, Reconcile(env))))
            <==> (w.stored.spec.abort && !w.stored.spec.paused ==> Harmless(w, w.stored))
  {
    hide Sync, Position, Transition;
    if w.stored.spec.abort && !w.stored.spec.paused ==> Harmless(w, w.stored) {
      forall env ensures Agree(Apply(w, Reconcile(env))) {
        ApplyKeepsAgreement(w, Reconcile(env));
      }
    } else {
      var env := Fair(0, w.stored.status.counts);
      AbortHoldsAndUnwinds(w, env);
      ApplyKeepsSteps(w, Reconcile(env));
      AbortRoutes(w, env);
      var after := Apply(w, Reconcile(env));
      assert StepTarget(after.stored) == StepTarget(w.stored);
      assert after.weights[0] == 0;
    }
  }

  lemma AbortRoutes(w: World, env: Env)
    requires w.stored.spec.abort && !w.stored.spec.paused && Quiet(env)
    ensures RoutedTo(w, w.stored, 0, env, Sync(w, env).world)
  {
    hide PutStatus, Patched, Unwind, Counted, Execute;
    var ro, start := w.stored, w.(budget := env.budget);
    PutIsOneStep(start, ro, Counted(ro, env.counts));
    UnwindRoutes(PushReplicaCounts(start, ro, env).world, ro, env);
  }

  // ---------------------------------------------------------------- an abort that is taken back

  /** The steps of a rollout that shifts a fifth of the traffic and waits. */
  function ShiftAndWait(): seq<Step> {
    [Step("shift", SetWeight(20)), Step("wait", Pause(None))]
  }

  lemma ShiftAndWaitIsNamed()
    ensures Named(ShiftAndWait()) && |ShiftAndWait()| == 2
    ensures ShiftAndWait()[0] == Step("shift", SetWeight(20)) && ShiftAndWait()[1] == Step("wait", Pause(None))
  {
    assert |"shift"| != |"wait"|;
  }

  /** One reconcile at the first of those steps: the router, and then the stamp or the next
      step. */
  lemma ShiftOnce(w: World, env: Env)
    requires w.stored.spec.steps == ShiftAndWait() && w.stored.status.currentStep == "shift"
    requires Calm(w.stored, env) && w.stored.spec.routed && |w.weights| == 1
    ensures var o := Sync(w, env).world;
            && o.stored == Next(w.stored, NextStatus(w.stored, 0, env.now))
            && o.weights == [20]
  {
    hide PutStatus, Position, RunSetWeight;
    ShiftAndWaitIsNamed();
    PositionOf(w.stored.spec.steps, 0, 0);
    CalmSetWeight(w.(budget := env.budget), w.stored, 0, 20, env);
    SetWeightRoutes(w.(budget := env.budget), w.stored, 0, 20, env);
  }

  /** Four reconciles take a new rollout of those steps to the wait: count, start, stamp, advance. */
  lemma Shifted(w: World, env: Env)
    requires w.stored == NewRollout(ShiftAndWait(), true) && w.weights == [0] && env == Fair(0, Counts(1, 1, 1, 1))
    ensures var e := Reconcile(env);
            var r := Run(w, [e, e, e, e]);
            && r.weights == [20] && r.stored.status.currentWeight == 20 && r.stored.status.currentStep == "wait"
            && r.stored.spec == w.stored.spec
  {
    hide Sync, Run, ShiftAndWait;
    var e := Reconcile(env);
    ShiftAndWaitIsNamed();
    var a := Sync(w, env).world;
    var b := Sync(a, env).world;
    var c := Sync(b, env).world;
    CountsComeFirst(w, env);
    CountedIsCalm(w.stored, env);
    SyncRoutes(w, env);
    FirstStepStarts(a, env);
    SyncRoutes(a, env);
    ShiftOnce(b, env);
    ShiftOnce(c, env);
    FourEvents(w, e, e, e, e);
  }

  /** Aborting there and taking the abort back. */
  lemma AbortAndResume(w: World, env: Env)
    requires w.stored.spec == NewRollout(ShiftAndWait(), true).spec && Quiet(env)
    requires w.weights == [20] && w.stored.status.currentWeight == 20 && w.stored.status.currentStep == "wait"
    ensures var r := Run(w, [SetAbort(true), Reconcile(env), Reconcile(env), SetAbort(false)]);
            && r.weights == [0] && r.stored.status.currentWeight == 20 && r.stored.status.currentStep == "wait"
            && r.stored.spec == w.stored.spec
  {
    hide Sync, Run, ShiftAndWait;
    var a := Apply(w, SetAbort(true));
    var b, c := Sync(a, env).world, Sync(Sync(a, env).world, env).world;
    AbortHoldsAndUnwinds(a, env);
    AbortStores(a, env);
    AbortHoldsAndUnwinds(b, env);
    AbortStores(b, env);
    AbortCompletes(a, [env, env]);
    assert [env, env][1..] == [env] && [env][1..] == [];
    assert Iterate(b, [env]) == Iterate(c, []) == c;
    ApplyKeepsSteps(a, Reconcile(env));
    ApplyKeepsSteps(b, Reconcile(env));
    assert c.weights == [0];
    FourEvents(w, SetAbort(true), Reconcile(env), Reconcile(env), SetAbort(false));
  }

  lemma TargetsOfShiftAndWait(ro: Rollout)
    requires ro.spec.steps == ShiftAndWait()
    ensures ro.status.currentStep == "wait" ==> StepTarget(ro) == None
  {
    hide Position;
    ShiftAndWaitIsNamed();
    PositionOf(ro.spec.steps, 1, 0);
  }

  /** An abort that is taken back leaves the router at zero at a step that sets no weight,
      while the status keeps the weight from before: a new rollout shifts 20 percent and waits,
      in agreement all along; one abort and resume later it is not. */
  lemma ResumeLeavesRouterBehind() returns (w: World, arrival: seq<Event>, abort: seq<Event>)
    ensures w.stored == NewRollout(ShiftAndWait(), true) && w.weights == [0] && Agree(w)
    ensures var r := Run(w, arrival);
            r.weights == [20] && r.stored.status.currentStep == "wait" && Agree(r)
    ensures forall k :: 0 <= k < |abort| ==> abort[k].Reconcile? || abort[k].SetAbort?
    ensures var r := Run(w, arrival + abort);
            && !r.stored.spec.abort && r.stored.status.currentStep == "wait"
            && r.weights == [0] && r.stored.status.currentWeight == 20 && !Agree(r)
  {
    hide Run, Sync, ShiftAndWait;
    w := World(NewRollout(ShiftAndWait(), true), [0], 0);
    var env := Fair(0, Counts(1, 1, 1, 1));
    var e := Reconcile(env);
    arrival, abort := [e, e, e, e], [SetAbort(true), e, e, SetAbort(false)];
    Shifted(w, env);
    var r := Run(w, arrival);
    AbortAndResume(r, env);
    RunConcat(w, arrival, abort);
    TargetsOfShiftAndWait(r.stored);
    var z := Run(w, arrival + abort);
    TargetsOfShiftAndWait(z.stored);
    assert z.weights[0] == 0;
  }
}
