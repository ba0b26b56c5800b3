/** The progression executor: one reconcile of a Rollout, as functions from the state of the
    cluster to the state it leaves.  Every handler works on a copy of the object read at the
    start, and the API server rejects a copy that is no longer current. */
module Progression {
  import opened Common

  // ---------------------------------------------------------------- the Rollout object

  /** FailurePolicy and InconclusivePolicy.  "Rollback" and "Abort" both set spec.abort. */
  datatype Policy = AbortRollout | PauseRollout | IgnoreResult | UnknownPolicy

  datatype Action =
    | SetWeight(weight: int)
    | SetCanaryScale
    | Pause(duration: Option<int>)
    | Analysis(onFailure: Policy)
    | Experiment
    | Promote
    | NoAction

  datatype Step = Step(name: string, action: Action)

  datatype AutoPromotion = Enabled | Manual | Disabled

  datatype Phase = NoPhase | Progressing | Paused | Promoting | Healthy | Degraded | Aborted

  datatype PauseReason = PausedStep | AnalysisFailed | AnalysisInconclusive | AwaitingPromotion

  datatype PauseCondition = PauseCondition(reason: PauseReason, startTime: int, until: Option<int>)

  /** An AnalysisRun is named after its step and the pod hash current when it was created. */
  datatype RunName = RunName(step: string, podHash: string)

  datatype Summary = Summary(run: RunName, atStep: string, phase: Verdict)

  datatype Counts = Counts(replicas: int, updated: int, ready: int, available: int)

  datatype Spec = Spec(
    paused: bool, abort: bool, replicas: Option<int>,
    steps: seq<Step>, autoPromotion: AutoPromotion,
    routed: bool, verifies: bool, scaleDownDelay: Option<int>)

  datatype Status = Status(
    currentStep: string, stepStartedAt: Option<int>, phase: Phase,
    pauseConditions: seq<PauseCondition>, currentWeight: int,
    counts: Counts, desiredReplicas: int, observedGeneration: int,
    podHash: string, stableRevision: string, summaries: seq<Summary>)

  datatype Rollout = Rollout(version: nat, generation: int, spec: Spec, status: Status)

  // ---------------------------------------------------------------- the cluster

  /** The stored object, the weight each VirtualService gives the canary, and how many more
      writes the API server accepts in this reconcile.  A write refused because another client
      changed the object in the meantime is one the budget does not cover. */
  datatype World = World(stored: Rollout, weights: seq<int>, budget: nat)

  datatype Outcome = Outcome(world: World, err: bool)

  /** Status().Update: commits the status of a current copy and nothing else of it; a status
      that is already stored does not make a new version. */
  function PutStatus(w: World, copy: Rollout): Outcome {
    if w.budget == 0 || copy.version != w.stored.version then Outcome(w, true)
    else if copy.status == w.stored.status then Outcome(w.(budget := w.budget - 1), false)
    else
      var now := w.stored.(version := w.stored.version + 1, status := copy.status);
      Outcome(w.(budget := w.budget - 1, stored := now), false)
  }

  /** Update: commits the spec of a current copy and leaves the stored status alone. */
  function PutSpec(w: World, copy: Rollout): Outcome {
    if w.budget == 0 || copy.version != w.stored.version then Outcome(w, true)
    else if copy.spec == w.stored.spec then Outcome(w.(budget := w.budget - 1), false)
    else
      var now := w.stored.(version := w.stored.version + 1, generation := w.stored.generation + 1,
                           spec := copy.spec);
      Outcome(w.(budget := w.budget - 1, stored := now), false)
  }

  /** The outcome of patching the VirtualServices in order: all of them, or only the first n
      before an error. */
  datatype Patch = All | Prefix(n: nat)

  datatype Verification = Verified | NotYet | VerifyFailed

  /** What getOrCreateAnalysisRun returns: an error, or the phase of the run. */
  datatype RunAnswer = RunUnavailable | RunPhase(phase: Verdict)

  /** What one reconcile meets outside the Rollout object. */
  datatype Env = Env(
    now: int,
    resolves: bool,                 // the router can be built
    replicaSetsOk: bool,            // reconcileReplicaSets and reconcileReplicas succeed
    counts: Counts,                 // the pods observed
    patch: Patch,                   // how far a SetWeight on the router gets
    verification: Verification,     // what VerifyWeight answers
    scaleOk: bool,                  // the ReplicaSet writes of handlers succeed
    servicesOk: bool,               // the Services can be repointed
    run: RunAnswer,
    onInconclusive: Policy,         // from the templates
    newHash: string,                // pod-template-hash of the new ReplicaSet
    newRevision: string,            // and its revision
    budget: nat)                    // API writes accepted

  function Patched(weights: seq<int>, weight: int, patch: Patch): (r: seq<int>)
    ensures |r| == |weights|
  {
    seq(|weights|, i requires 0 <= i < |weights| =>
      if patch.All? || i < patch.n then weight else weights[i])
  }

  function DesiredReplicas(ro: Rollout): int {
    ro.spec.replicas.GetOr(1)
  }

  predicate ObservedSpecReplicas(ro: Rollout) {
    ro.status.desiredReplicas == DesiredReplicas(ro) && ro.status.observedGeneration == ro.generation
  }

  // ---------------------------------------------------------------- steps

  /** The first position from i on of the step with this name; the length if there is none. */
  function Position(steps: seq<Step>, name: string, i: nat): (r: nat)
    requires i <= |steps|
    ensures i <= r <= |steps|
    ensures r < |steps| ==> steps[r].name == name
    ensures forall j :: i <= j < r ==> steps[j].name != name
    decreases |steps| - i
  {
    if i == |steps| || steps[i].name == name then i else Position(steps, name, i + 1)
  }

  /** resolveCurrentStep. */
  function CurrentIndex(ro: Rollout): Option<nat> {
    var steps := ro.spec.steps;
    if steps == [] then None
    else if ro.status.currentStep == "" then Some(0)
    else
      var i := Position(steps, ro.status.currentStep, 0);
      if i == |steps| then None else Some(i)
  }

  /** The name stored once step i is done. */
  function NameAfter(steps: seq<Step>, i: nat): string {
    if i + 1 >= |steps| then "" else steps[i + 1].name
  }

  function AdvancedStatus(ro: Rollout, i: nat, now: int): Status {
    if i + 1 >= |ro.spec.steps| then
      ro.status.(currentStep := "", stepStartedAt := None, phase := Healthy)
    else
      ro.status.(currentStep := NameAfter(ro.spec.steps, i), stepStartedAt := Some(WholeSecond(now)),
                 pauseConditions := [], phase := Progressing)
  }

  function AdvanceStep(w: World, ro: Rollout, i: nat, now: int): Outcome {
    PutStatus(w, ro.(status := AdvancedStatus(ro, i, now)))
  }

  function Weighted(ro: Rollout, weight: int): Rollout {
    ro.(status := ro.status.(currentWeight := weight))
  }

  function RunSetWeight(w: World, ro: Rollout, i: nat, weight: int, env: Env): Outcome {
    var patched := w.(weights := Patched(w.weights, weight, env.patch));
    if !ro.spec.routed then Outcome(w, true)
    else if env.patch.Prefix? then Outcome(patched, true)
    else if ro.spec.verifies && env.verification.VerifyFailed? then Outcome(patched, true)
    else if ro.spec.verifies && env.verification.NotYet? then Outcome(patched, false)
    else if ro.status.currentWeight == weight then AdvanceStep(patched, ro, i, env.now)
    else
      var o := PutStatus(patched, Weighted(ro, weight));
      if o.err then o else AdvanceStep(o.world, Weighted(ro, weight), i, env.now)
  }

  function RunSetCanaryScale(w: World, ro: Rollout, i: nat, env: Env): Outcome {
    if !env.scaleOk then Outcome(w, true) else AdvanceStep(w, ro, i, env.now)
  }

  function PauseEntered(ro: Rollout, duration: Option<int>, now: int): Status {
    var start := WholeSecond(now);
    var until := if duration.None? then None else Some(WholeSecond(now + duration.value));
    ro.status.(phase := Paused, pauseConditions := [PauseCondition(PausedStep, start, until)],
               stepStartedAt := Some(start))
  }

  function RunPause(w: World, ro: Rollout, i: nat, duration: Option<int>, env: Env): Outcome {
    if ro.status.pauseConditions == [] then PutStatus(w, ro.(status := PauseEntered(ro, duration, env.now)))
    else if duration.None? then Outcome(w, false)
    else if env.now - ro.status.pauseConditions[0].startTime < duration.value then Outcome(w, false)
    else AdvanceStep(w, ro, i, env.now)
  }

  function NameOfRun(ro: Rollout, step: string): RunName {
    RunName(step, if ro.status.podHash == "" then "initial" else ro.status.podHash)
  }

  /** The summaries with this one in the place of the first of the same run, or at the end. */
  function Recorded(summaries: seq<Summary>, s: Summary, i: nat): seq<Summary>
    requires i <= |summaries|
    decreases |summaries| - i
  {
    if i == |summaries| then summaries + [s]
    else if summaries[i].run == s.run then summaries[i := s]
    else Recorded(summaries, s, i + 1)
  }

  function RecordAnalysisRun(w: World, ro: Rollout, step: string, phase: Verdict): Outcome {
    var s := Summary(NameOfRun(ro, step), step, phase);
    PutStatus(w, ro.(status := ro.status.(summaries := Recorded(ro.status.summaries, s, 0))))
  }

  /** applyAnalysisFailure and applyAnalysisInconclusive, which differ only in the reason. */
  function ApplyPolicy(w: World, ro: Rollout, i: nat, policy: Policy, reason: PauseReason, now: int): Outcome {
    match policy
    case AbortRollout =>
      PutSpec(w, ro.(spec := ro.spec.(abort := true), status := ro.status.(phase := Degraded)))
    case PauseRollout =>
      PutStatus(w, ro.(status := ro.status.(phase := Paused,
                                            pauseConditions := [PauseCondition(reason, WholeSecond(now), None)])))
    case IgnoreResult => AdvanceStep(w, ro, i, now)
    case UnknownPolicy => Outcome(w, true)
  }

  function RunAnalysis(w: World, ro: Rollout, i: nat, step: Step, env: Env): Outcome
    requires step.action.Analysis?
  {
    match env.run
    case RunUnavailable => Outcome(w, true)
    case RunPhase(phase) =>
      match phase {
        case Successful =>
          var o := RecordAnalysisRun(w, ro, step.name, phase);
          if o.err then o else AdvanceStep(o.world, ro, i, env.now)
        case Failed =>
          var o := RecordAnalysisRun(w, ro, step.name, phase);
          if o.err then o else ApplyPolicy(o.world, ro, i, step.action.onFailure, AnalysisFailed, env.now)
        case Error =>
          var o := RecordAnalysisRun(w, ro, step.name, phase);
          if o.err then o else ApplyPolicy(o.world, ro, i, step.action.onFailure, AnalysisFailed, env.now)
        case Inconclusive => ApplyPolicy(w, ro, i, env.onInconclusive, AnalysisInconclusive, env.now)
        case _ => Outcome(w, false)
      }
  }

  predicate HasUserPromotion(ro: Rollout) {
    ro.status.pauseConditions == [] && ro.status.phase != Paused
  }

  /** The last part of runPromote: services, then the old ReplicaSets once the delay is over. */
  function FinishPromote(w: World, ro: Rollout, i: nat, env: Env): Outcome {
    var startedAt := ro.status.stepStartedAt.GetOr(env.now);
    var remaining := ro.spec.scaleDownDelay.GetOr(0) - (env.now - startedAt);
    if !env.servicesOk then Outcome(w, true)
    else if !ObservedSpecReplicas(ro) || remaining > 0 then Outcome(w, false)
    else if !env.scaleOk then Outcome(w, true)
    else AdvanceStep(w, ro, i, env.now)
  }

  /** The middle part: the router, then the stamp. */
  function ShiftAll(w: World, ro: Rollout, i: nat, env: Env): Outcome {
    var shifted := if ro.spec.routed then w.(weights := Patched(w.weights, 100, env.patch)) else w;
    if ro.spec.routed && env.patch.Prefix? then Outcome(shifted, true)
    else if ro.status.currentWeight == 100 then FinishPromote(shifted, ro, i, env)
    else
      var o := PutStatus(shifted, Weighted(ro, 100));
      if o.err then o else FinishPromote(o.world, Weighted(ro, 100), i, env)
  }

  function RunPromote(w: World, ro: Rollout, i: nat, env: Env): Outcome {
    if ro.spec.autoPromotion.Disabled? then Outcome(w, true)
    else if ro.spec.autoPromotion.Manual? && !HasUserPromotion(ro) then
      if ro.status.pauseConditions == [] then
        PutStatus(w, ro.(status := ro.status.(phase := Paused,
                           pauseConditions := [PauseCondition(AwaitingPromotion, WholeSecond(env.now), None)])))
      else Outcome(w, false)
    else if ro.status.phase == Promoting then ShiftAll(w, ro, i, env)
    else
      var o := PutStatus(w, ro.(status := ro.status.(phase := Promoting)));
      if o.err then o else ShiftAll(o.world, ro, i, env)
  }

  function Finalized(ro: Rollout, env: Env): Status {
    ro.status.(phase := Healthy, pauseConditions := [], stableRevision := env.newRevision, podHash := env.newHash)
  }

  function Finalize(w: World, ro: Rollout, env: Env): Outcome {
    if !env.scaleOk then Outcome(w, true)
    else if ro.status.phase == Healthy then Outcome(w, false)
    else PutStatus(w, ro.(status := Finalized(ro, env)))
  }

  /** Execute. */
  function Execute(w: World, ro: Rollout, env: Env): Outcome {
    var at := CurrentIndex(ro);
    if at.None? then Finalize(w, ro, env)
    else
      var step := ro.spec.steps[at.value];
      match step.action
      case SetWeight(weight) => RunSetWeight(w, ro, at.value, weight, env)
      case SetCanaryScale => RunSetCanaryScale(w, ro, at.value, env)
      case Pause(duration) => RunPause(w, ro, at.value, duration, env)
      case Analysis(_) => RunAnalysis(w, ro, at.value, step, env)
      case Experiment => AdvanceStep(w, ro, at.value, env.now)
      case Promote => RunPromote(w, ro, at.value, env)
      case NoAction => Outcome(w, true)
  }

  function Counted(ro: Rollout, counts: Counts): Status {
    ro.status.(counts := counts, desiredReplicas := DesiredReplicas(ro), observedGeneration := ro.generation)
  }

  function PushReplicaCounts(w: World, ro: Rollout, env: Env): Outcome {
    if Counted(ro, env.counts) == ro.status then Outcome(w, false)
    else PutStatus(w, ro.(status := Counted(ro, env.counts)))
  }

  /** abort. */
  function Unwind(w: World, ro: Rollout, env: Env): Outcome {
    var reset := if ro.spec.routed then w.(weights := Patched(w.weights, 0, env.patch)) else w;
    if ro.spec.routed && env.patch.Prefix? then Outcome(reset, true)
    else if !env.scaleOk then Outcome(reset, true)
    else if ro.status.phase == Aborted then Outcome(reset, false)
    else PutStatus(reset, ro.(status := ro.status.(phase := Aborted)))
  }

  function Started(ro: Rollout, now: int): Status
    requires ro.spec.steps != []
  {
    ro.status.(currentStep := ro.spec.steps[0].name, stepStartedAt := Some(WholeSecond(now)), phase := Progressing)
  }

  /** syncRollout, on the object `ro` read at the start. */
  function SyncRead(w: World, ro: Rollout, env: Env): Outcome {
    if ro.spec.paused then Outcome(w, false)
    else if !env.resolves || !env.replicaSetsOk then Outcome(w, true)
    else
      var o := PushReplicaCounts(w, ro, env);
      if o.err then o
      else if ro.spec.abort then Unwind(o.world, ro, env)
      else if ro.status.currentStep == "" && ro.spec.steps != [] then
        PutStatus(o.world, ro.(status := Started(ro, env.now)))
      else Execute(o.world, ro, env)
  }

  /** One reconcile, from reading the object to its last write. */
  function Sync(w: World, env: Env): Outcome {
    SyncRead(w.(budget := env.budget), w.stored, env)
  }
}
