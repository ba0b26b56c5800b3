/** Splitting the desired size between the canary and the stable ReplicaSet, and the sizes a
    SetCanaryScale step asks for. */
module Splitting {
  import opened Common
  import opened Progression
  import opened Transitions
  import opened ProgressionRuns

  datatype HPAStrategy = Preserve | StableOnly | Ignored

  /** splitReplicas: (canary, stable).  The source computes the quotient in floating point; see
      Floats.CeilIsExact. */
  function Split(desired: int, weight: int, strategy: HPAStrategy, canaryKeep: int): (int, int) {
    if desired <= 0 then (0, 0)
    else if strategy.StableOnly? then (Min(canaryKeep, desired), desired - Min(canaryKeep, desired))
    else if weight <= 0 then (0, desired)
    else if weight >= 100 then (desired, 0)
    else
      var c := Min(CeilDiv(desired * weight, 100), desired);
      (c, desired - c)
  }

  /** percentOf: a bare number is read as a percentage; None stands for an error. */
  function PercentOf(total: int, p: IntOrPercent): Option<int> {
    var v := ScaledValue(if p.Count? then Percent(p.n) else p, total, true);
    if v.None? then None
    else if v.value < 0 then Some(0)
    else if v.value > total then Some(total)
    else v
  }

  // ---------------------------------------------------------------- the arithmetic of the split

  /** Nothing is lost, whatever the weight. */
  lemma SplitConserves(desired: int, weight: int, strategy: HPAStrategy, canaryKeep: int)
    requires canaryKeep >= 0
    ensures var (canary, stable) := Split(desired, weight, strategy, canaryKeep);
            canary >= 0 && stable >= 0 && canary + stable == Max(desired, 0)
  {
  }

  /** The canary is the weight's share rounded up, by less than one pod, so a positive weight
      always has a pod to measure. */
  lemma CanaryIsTheShareRoundedUp(desired: int, weight: int, canaryKeep: int)
    requires desired >= 1 && 0 <= weight <= 100
    ensures var canary := Split(desired, weight, Preserve, canaryKeep).0;
            && 0 <= canary * 100 - desired * weight < 100
            && (weight >= 1 ==> canary >= 1)
  {
  }

  /** One more pod goes to exactly one side, and no pod leaves the other. */
  lemma OneMorePodGoesToOneSide(desired: int, weight: int, canaryKeep: int)
    requires desired >= 0
    ensures var a, b := Split(desired, weight, Preserve, canaryKeep), Split(desired + 1, weight, Preserve, canaryKeep);
            b == (a.0 + 1, a.1) || b == (a.0, a.1 + 1)
  {
  }

  /** A SetCanaryScale percentage asks for the same canary the split gives that weight. */
  lemma PercentOfMatchesSplit(desired: int, weight: int, canaryKeep: int)
    requires desired >= 0
    ensures PercentOf(desired, Count(weight)) == Some(Split(desired, weight, Preserve, canaryKeep).0)
  {
  }

  /** Where the weight does not decide: an empty Deployment has no pods on either side; a canary
      that keeps its size keeps it, up to the whole; and no weight or all of it leaves one side
      empty. */
  lemma SplitCases(desired: int, weight: int, strategy: HPAStrategy, canaryKeep: int)
    ensures desired <= 0 ==> Split(desired, weight, strategy, canaryKeep) == (0, 0)
    ensures strategy == StableOnly && canaryKeep <= desired && desired > 0 ==>
              Split(desired, weight, strategy, canaryKeep) == (canaryKeep, desired - canaryKeep)
    ensures strategy == StableOnly && canaryKeep > desired > 0 ==> Split(desired, weight, strategy, canaryKeep) == (desired, 0)
    ensures strategy == Preserve && weight <= 0 && desired > 0 ==> Split(desired, weight, strategy, canaryKeep) == (0, desired)
    ensures strategy == Preserve && weight >= 100 && desired > 0 ==> Split(desired, weight, strategy, canaryKeep) == (desired, 0)
  {
  }

  /** A percentage of the size is rounded up and lies between nothing and the whole; a bare
      number is read as one. */
  lemma PercentOfCases(total: int, p: IntOrPercent)
    requires total >= 0
    ensures p.Malformed? <==> PercentOf(total, p).None?
    ensures !p.Malformed? ==>
              var percent, r := if p.Count? then p.n else p.p, PercentOf(total, p).value;
              && 0 <= r <= total
              && (0 <= percent <= 100 ==> 100 * (r - 1) < percent * total <= 100 * r)
              && (percent < 0 ==> r == 0) && (percent > 100 ==> r == total)
  {
    if !p.Malformed? {
      var percent := if p.Count? then p.n else p.p;
      if 0 <= percent <= 100 {
        assert 0 <= percent * total <= 100 * total;
      } else if percent < 0 {
        assert percent * total <= 0;
      } else {
        assert percent * total >= 100 * total;
      }
    }
  }

  // ---------------------------------------------------------------- rounds of reconcileReplicas

  /** The sizes of the new ReplicaSet and of the old ones. */
  datatype Sizes = Sizes(canary: int, olds: seq<int>)

  /** largestOldRS among the first n: the first of the largest. */
  function Largest(olds: seq<int>, n: nat): (r: Option<nat>)
    requires n <= |olds|
    ensures r.Some? ==> r.value < n
  {
    if n == 0 then None
    else
      var best := Largest(olds, n - 1);
      if olds[n - 1] > (if best.None? then -1 else olds[best.value]) then Some(n - 1) else best
  }

  lemma LargestIsLargest(olds: seq<int>, n: nat)
    requires n <= |olds| && forall i :: 0 <= i < |olds| ==> olds[i] >= 0
    ensures Largest(olds, n).None? <==> n == 0
    ensures n > 0 ==> forall i :: 0 <= i < n ==> olds[i] <= olds[Largest(olds, n).value]
    ensures n > 0 ==> forall i :: 0 <= i < Largest(olds, n).value ==> olds[i] < olds[Largest(olds, n).value]
  {
  }

  /** reconcileReplicas: the sizes afterwards and whether a write was refused. */
  function Round(s: Sizes, desired: int, weight: int, strategy: HPAStrategy, budget: nat): (Sizes, bool) {
    if strategy.Ignored? then (s, false)
    else
      var (canary, stable) := Split(desired, weight, strategy, s.canary);
      var spent := if s.canary == canary then 0 else 1;
      var largest := Largest(s.olds, |s.olds|);
      if spent > budget then (s, true)
      else if largest.None? || s.olds[largest.value] == stable then (s.(canary := canary), false)
      else if spent + 1 > budget then (s.(canary := canary), true)
      else (Sizes(canary, s.olds[largest.value := stable]), false)
  }

  /** The two writes of a round, told by what is already in place: the canary first, then the first
      of the largest old ReplicaSets; each only when its size differs, the second only when the
      first was not refused. */
  lemma RoundWrites(s: Sizes, desired: int, weight: int, strategy: HPAStrategy, budget: nat, l: nat)
    requires s.olds != [] ==> l < |s.olds| && forall i :: 0 <= i < |s.olds| ==>
               0 <= s.olds[i] <= s.olds[l] && (i < l ==> s.olds[i] < s.olds[l])
    ensures var (after, err) := Round(s, desired, weight, strategy, budget);
            var (canary, stable) := Split(desired, weight, strategy, s.canary);
            if strategy == Ignored then after == s && !err
            else if s.canary != canary && budget == 0 then after == s && err
            else
              var left := if s.canary != canary then budget - 1 else budget;
              && after.canary == canary
              && if s.olds != [] && s.olds[l] != stable && left == 0 then after.olds == s.olds && err
                 else !err && after.olds == if s.olds == [] then [] else s.olds[l := stable]
  {
    hide Split, Largest;
    LargestAt(s.olds, |s.olds|, l);
    if s.olds != [] {
      assert s.olds[l := s.olds[l]] == s.olds;
    }
  }

  lemma {:induction false} LargestAt(olds: seq<int>, n: nat, l: nat)
    requires n <= |olds| && (olds != [] ==> l < |olds|)
    requires forall i :: 0 <= i < |olds| ==> 0 <= olds[i] <= olds[l] && (i < l ==> olds[i] < olds[l])
    ensures n == 0 ==> Largest(olds, n).None?
    ensures n > 0 ==> Largest(olds, n).Some? && (l < n ==> Largest(olds, n).value == l)
    ensures 0 < n <= l ==> olds[Largest(olds, n).value] < olds[l]
  {
    if n > 0 {
      LargestAt(olds, n - 1, l);
    }
  }

  class ReplicaScaler {
    var canary: int
    var olds: seq<int>
    var budget: nat

    method Scale(oldSize: int, target: int) returns (err: bool)
      modifies this`budget
      ensures err == (oldSize != target && old(budget) == 0)
      ensures budget == if oldSize == target || err then old(budget) else old(budget) - 1
    {
      if oldSize == target {
        return false;
      }
      if budget == 0 {
        return true;
      }
      budget := budget - 1;
      return false;
    }

    method LargestOldRS() returns (best: Option<nat>)
      ensures best == Largest(olds, |olds|)
    {
      best := None;
      var bestCount := -1;
      for i := 0 to |olds|
        invariant best == Largest(olds, i)
        invariant bestCount == if best.None? then -1 else olds[best.value]
      {
        if olds[i] > bestCount {
          best := Some(i);
          bestCount := olds[i];
        }
      }
    }

    /** `hasNew` says whether there is a new ReplicaSet yet; without one nothing is done. */
    method ReconcileReplicas(hasNew: bool, desired: int, weight: int, strategy: HPAStrategy) returns (err: bool)
      modifies this
      ensures (Sizes(canary, olds), err)
           == if !hasNew then (Sizes(old(canary), old(olds)), false)
              else Round(Sizes(old(canary), old(olds)), desired, weight, strategy, old(budget))
      ensures budget == old(budget) - (if canary != old(canary) then 1 else 0) - if olds != old(olds) then 1 else 0
    {
      if !hasNew {
        return false;
      }
      if strategy == Ignored {
        return false;
      }
      var (canaryDesired, stableDesired) := Split(desired, weight, strategy, canary);
      err := Scale(canary, canaryDesired);
      if err {
        return;
      }
      canary := canaryDesired;
      var stableRS := LargestOldRS();
      if stableRS.Some? {
        err := Scale(olds[stableRS.value], stableDesired);
        assert olds[stableRS.value] == stableDesired ==> olds[stableRS.value := stableDesired] == olds;
        if err {
          return;
        }
        assert olds[stableRS.value := stableDesired][stableRS.value] == stableDesired;
        olds := olds[stableRS.value := stableDesired];
      }
    }
  }

  /** How many old ReplicaSets are above the stable target. */
  function Above(olds: seq<int>, target: int): nat {
    if olds == [] then 0 else (if olds[0] > target then 1 else 0) + Above(olds[1..], target)
  }

  function StableTarget(s: Sizes, desired: int, weight: int, strategy: HPAStrategy): int {
    Split(desired, weight, strategy, s.canary).1
  }

  /** n rounds on fresh reads, none of whose writes is refused. */
  function Rounds(s: Sizes, desired: int, weight: int, strategy: HPAStrategy, n: nat): Sizes {
    if n == 0 then s else Round(Rounds(s, desired, weight, strategy, n - 1), desired, weight, strategy, 2).0
  }

  ghost predicate NonNegativeSizes(s: Sizes) {
    s.canary >= 0 && forall i :: 0 <= i < |s.olds| ==> s.olds[i] >= 0
  }

  /** The canary is at its target; the largest old ReplicaSet is at the stable target, and so
      none is above it. */
  ghost predicate Settled(s: Sizes, desired: int, weight: int, strategy: HPAStrategy) {
    var (canary, stable) := Split(desired, weight, strategy, s.canary);
    && s.canary == canary
    && (forall i :: 0 <= i < |s.olds| ==> s.olds[i] <= stable)
    && (s.olds != [] ==> stable in s.olds)
  }

  lemma {:induction false} AboveUpdate(olds: seq<int>, i: nat, x: int, target: int)
    requires i < |olds|
    ensures Above(olds[i := x], target)
         == Above(olds, target) - (if olds[i] > target then 1 else 0) + if x > target then 1 else 0
  {
    if i > 0 {
      assert olds[i := x][1..] == olds[1..][i - 1 := x];
      AboveUpdate(olds[1..], i - 1, x, target);
    } else {
      assert olds[i := x][1..] == olds[1..];
    }
  }

  lemma {:induction false} NoneAbove(olds: seq<int>, target: int)
    ensures Above(olds, target) == 0 <==> forall i :: 0 <= i < |olds| ==> olds[i] <= target
  {
    if olds != [] {
      NoneAbove(olds[1..], target);
      assert forall i :: 0 <= i < |olds[1..]| ==> olds[1..][i] == olds[i + 1];
    }
  }

  /** One round puts the canary at its target, leaves the stable target where it is, and
      takes one old ReplicaSet off the ones above it. */
  lemma RoundSettles(s: Sizes, desired: int, weight: int, strategy: HPAStrategy)
    requires NonNegativeSizes(s) && !strategy.Ignored?
    ensures var r, t := Round(s, desired, weight, strategy, 2).0, StableTarget(s, desired, weight, strategy);
            && NonNegativeSizes(r) && |r.olds| == |s.olds|
            && r.canary == Split(desired, weight, strategy, r.canary).0 == Split(desired, weight, strategy, s.canary).0
            && StableTarget(r, desired, weight, strategy) == t
            && Above(r.olds, t) == (if Above(s.olds, t) > 0 then Above(s.olds, t) - 1 else 0)
            && (s.olds != [] ==> t in r.olds)
  {
    hide Largest, CeilDiv;
    SplitConserves(desired, weight, strategy, s.canary);
    LargestIsLargest(s.olds, |s.olds|);
    var t := StableTarget(s, desired, weight, strategy);
    NoneAbove(s.olds, t);
    if s.olds != [] {
      var l := Largest(s.olds, |s.olds|).value;
      AboveUpdate(s.olds, l, t, t);
      assert s.olds[l := t][l] == t;
    }
  }

  /** A settled fleet is a fixpoint, and a fixpoint is settled. */
  lemma FixpointIsSettled(s: Sizes, desired: int, weight: int, strategy: HPAStrategy)
    requires NonNegativeSizes(s) && !strategy.Ignored?
    ensures Settled(s, desired, weight, strategy) <==> Round(s, desired, weight, strategy, 2).0 == s
  {
    hide Largest, CeilDiv;
    SplitConserves(desired, weight, strategy, s.canary);
    LargestIsLargest(s.olds, |s.olds|);
    if s.olds != [] {
      var l := Largest(s.olds, |s.olds|).value;
      var t := StableTarget(s, desired, weight, strategy);
      assert s.olds[l := t][l] == t;
    }
  }

  lemma {:induction false} RoundsCount(s: Sizes, desired: int, weight: int, strategy: HPAStrategy, n: nat)
    requires NonNegativeSizes(s) && !strategy.Ignored?
    ensures var r, t := Rounds(s, desired, weight, strategy, n), StableTarget(s, desired, weight, strategy);
            && NonNegativeSizes(r) && |r.olds| == |s.olds|
            && StableTarget(r, desired, weight, strategy) == t
            && Above(r.olds, t) == Max(Above(s.olds, t) - n, 0)
            && (n > 0 ==> r.canary == Split(desired, weight, strategy, r.canary).0 && (s.olds != [] ==> t in r.olds))
  {
    hide Round, Split;
    if n > 0 {
      RoundsCount(s, desired, weight, strategy, n - 1);
      RoundSettles(Rounds(s, desired, weight, strategy, n - 1), desired, weight, strategy);
    }
  }

  /** Convergence: with the weight, the strategy and the desired size fixed, the sizes are
      settled after as many rounds as there are old ReplicaSets above the stable target (one
      when there are none), and for two or more not a round earlier. */
  lemma {:induction false} SplittingConverges(s: Sizes, desired: int, weight: int, strategy: HPAStrategy, n: nat)
    requires NonNegativeSizes(s) && !strategy.Ignored?
    ensures var k := Above(s.olds, StableTarget(s, desired, weight, strategy));
            && (n >= Max(1, k) ==> Settled(Rounds(s, desired, weight, strategy, n), desired, weight, strategy))
            && (n < k ==> !Settled(Rounds(s, desired, weight, strategy, n), desired, weight, strategy))
  {
    hide Round, Rounds, Split;
    RoundsCount(s, desired, weight, strategy, n);
    NoneAbove(Rounds(s, desired, weight, strategy, n).olds, StableTarget(s, desired, weight, strategy));
  }

  // ---------------------------------------------------------------- matchTrafficWeight

  /** Walking back from step i, the weight of the first SetWeight met; 0 when there is none. */
  function LastSetWeightFrom(steps: seq<Step>, i: int): int
    requires -1 <= i < |steps|
    decreases i + 1
  {
    if i < 0 then 0
    else if steps[i].action.SetWeight? then steps[i].action.weight
    else LastSetWeightFrom(steps, i - 1)
  }

  /** lastSetWeight; an unknown step name starts the walk at the last step. */
  function LastSetWeight(ro: Rollout): int {
    var i := Position(ro.spec.steps, ro.status.currentStep, 0);
    LastSetWeightFrom(ro.spec.steps, if i == |ro.spec.steps| then i - 1 else i)
  }

  method FindLastSetWeight(ro: Rollout) returns (weight: int)
    ensures weight == LastSetWeight(ro)
  {
    var steps := ro.spec.steps;
    var idx := -1;
    var i := 0;
    while i < |steps|
      invariant 0 <= i <= |steps| && idx == -1
      invariant Position(steps, ro.status.currentStep, i) == Position(steps, ro.status.currentStep, 0)
    {
      if steps[i].name == ro.status.currentStep {
        idx := i;
        break;
      }
      i := i + 1;
    }
    if idx < 0 {
      idx := |steps| - 1;
    }
    while idx >= 0
      invariant -1 <= idx < |steps|
      invariant LastSetWeightFrom(steps, idx) == LastSetWeight(ro)
    {
      if steps[idx].action.SetWeight? {
        return steps[idx].action.weight;
      }
      idx := idx - 1;
    }
    return 0;
  }

  /** It is the weight of the SetWeight that comes last among the first n steps, up to and with
      the current one; all of them when the current one is unknown; and 0 when there is none. */
  lemma LastSetWeightIsNearest(ro: Rollout, n: nat, k: nat)
    requires Named(ro.spec.steps) && n <= |ro.spec.steps|
    requires if exists j :: 0 <= j < |ro.spec.steps| && ro.spec.steps[j].name == ro.status.currentStep
             then n > 0 && ro.spec.steps[n - 1].name == ro.status.currentStep else n == |ro.spec.steps|
    ensures (forall j :: 0 <= j < n ==> !ro.spec.steps[j].action.SetWeight?) ==> LastSetWeight(ro) == 0
    ensures k < n && ro.spec.steps[k].action.SetWeight?
            && (forall j :: k < j < n ==> !ro.spec.steps[j].action.SetWeight?) ==>
              LastSetWeight(ro) == ro.spec.steps[k].action.weight
  {
    hide Position;
    if n > 0 && ro.spec.steps[n - 1].name == ro.status.currentStep {
      PositionOf(ro.spec.steps, n - 1, 0);
    }
    NearestFrom(ro.spec.steps, n, k);
  }

  lemma {:induction false} NearestFrom(steps: seq<Step>, n: nat, k: nat)
    requires n <= |steps|
    ensures (forall j :: 0 <= j < n ==> !steps[j].action.SetWeight?) ==> LastSetWeightFrom(steps, n - 1) == 0
    ensures k < n && steps[k].action.SetWeight? && (forall j :: k < j < n ==> !steps[j].action.SetWeight?) ==>
              LastSetWeightFrom(steps, n - 1) == steps[k].action.weight
  {
    if n > 0 {
      NearestFrom(steps, n - 1, k);
    }
  }

  /** The last action among the first n steps that sets the weight. */
  function LastShift(steps: seq<Step>, n: nat): Option<Action>
    requires n <= |steps|
  {
    if n == 0 then None
    else if TargetOf(steps[n - 1].action).Some? then Some(steps[n - 1].action)
    else LastShift(steps, n - 1)
  }

  lemma {:induction false} WeightBeforeByShift(steps: seq<Step>, n: nat, start: int)
    requires n <= |steps|
    ensures LastShift(steps, n).Some? ==> TargetOf(LastShift(steps, n).value).Some?
    ensures WeightBefore(steps, n, start)
         == if LastShift(steps, n).None? then start else TargetOf(LastShift(steps, n).value).value
    ensures LastShift(steps, n).None? ==> LastSetWeightFrom(steps, n - 1) == 0
    ensures LastShift(steps, n).Some? && LastShift(steps, n).value.SetWeight? ==>
              LastSetWeightFrom(steps, n - 1) == LastShift(steps, n).value.weight
  {
    if n > 0 {
      WeightBeforeByShift(steps, n - 1, start);
    }
  }

  /** A SetCanaryScale that matches the traffic weight reads the weight the status has, exactly
      when the last step that moved the weight was a SetWeight, or none did and the pass started
      at 0, or a Promote did and the SetWeight before it asked for 100 too. */
  lemma MatchTrafficWeightAgrees(ro: Rollout, start: int, i: nat)
    requires Refines(ro, start) && CurrentIndex(ro) == Some(i) && ro.status.currentStep != ""
    requires ro.spec.steps[i].action.SetCanaryScale?
    ensures LastSetWeight(ro) == ro.status.currentWeight
            <==> match LastShift(ro.spec.steps, i)
                 case None => start == 0
                 case Some(a) => a.SetWeight? || LastSetWeightFrom(ro.spec.steps, i) == 100
  {
    WeightBeforeByShift(ro.spec.steps, i, start);
  }

  // ---------------------------------------------------------------- resolveCanaryScale

  datatype CanaryScale = Replicas(n: int) | PercentOfSpec(p: IntOrPercent) | MatchTrafficWeight | NoVariant

  /** resolveCanaryScale; None stands for an error. */
  function CanarySize(ro: Rollout, scale: CanaryScale): Option<int> {
    match scale
    case Replicas(n) => Some(n)
    case PercentOfSpec(p) => PercentOf(DesiredReplicas(ro), p)
    case MatchTrafficWeight => PercentOf(DesiredReplicas(ro), Count(LastSetWeight(ro)))
    case NoVariant => None
  }

  /** What a SetCanaryScale asks for: a number, a percentage of the size (one when none is given),
      or the percentage the router last had to reach; none of these is an error. */
  lemma CanarySizeCases(ro: Rollout, scale: CanaryScale)
    requires DesiredReplicas(ro) >= 0
    ensures var size := if ro.spec.replicas.Some? then ro.spec.replicas.value else 1;
            match scale
            case Replicas(n) => CanarySize(ro, scale) == Some(n)
            case PercentOfSpec(p) => CanarySize(ro, scale) == PercentOf(size, p)
            case MatchTrafficWeight =>
              && CanarySize(ro, scale).Some? && 0 <= CanarySize(ro, scale).value <= size
              && (0 <= LastSetWeight(ro) <= 100 ==>
                    var r := CanarySize(ro, scale).value;
                    100 * (r - 1) < LastSetWeight(ro) * size <= 100 * r)
            case NoVariant => CanarySize(ro, scale) == None
  {
    hide PercentOf, LastSetWeight;
    PercentOfCases(DesiredReplicas(ro), Count(LastSetWeight(ro)));
  }

  /** In every state of a run that began its pass at weight 0, where no Promote came after the
      last SetWeight, a step that matches the traffic weight asks for exactly the canary that
      reconcileReplicas maintains. */
  lemma MatchTrafficWeightKeepsTheSplit(w: World, run: seq<Event>, i: nat, canaryKeep: int)
    requires var ro := Run(w, run).stored;
             && Refines(w.stored, 0) && StartOf(w, run, 0) == 0
             && ro.status.currentStep != "" && CurrentIndex(ro) == Some(i) && ro.spec.steps[i].action.SetCanaryScale?
             && DesiredReplicas(ro) >= 0
             && (LastShift(ro.spec.steps, i).Some? ==> LastShift(ro.spec.steps, i).value.SetWeight?)
    ensures var ro := Run(w, run).stored;
            CanarySize(ro, MatchTrafficWeight)
            == Some(Split(DesiredReplicas(ro), ro.status.currentWeight, Preserve, canaryKeep).0)
  {
    hide Run, StartOf, Refines, Split, PercentOf, Position;
    var ro := Run(w, run).stored;
    RunRefines(w, run, 0);
    MatchTrafficWeightAgrees(ro, 0, i);
    PercentOfMatchesSplit(DesiredReplicas(ro), ro.status.currentWeight, canaryKeep);
  }
}
