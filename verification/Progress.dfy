/** The progress deadline of a Deployment: its conditions, and the syncs that edit them. */
module Progress {
  import opened Common

  datatype Kind = Availability | Progressing | ReplicaFailure

  datatype Truth = Yes | No | Unclear

  datatype Reason =
    | MinimumAvailable | MinimumUnavailable
    | NewRSAvailable | ReplicaSetUpdated | TimedOut
    | NewRSCreated | NewRSFound | CreationFailed | DeployPaused | DeployResumed
    | OtherReason

  datatype Condition = Condition(kind: Kind, status: Truth, reason: Reason, lastUpdate: int, lastTransition: int)

  datatype Counts = Counts(replicas: int, updated: int, ready: int, available: int)

  /** What a sync sees of the ReplicaSets: their pods, and the sum of their sizes. */
  datatype Observation = Observation(counts: Counts, size: int)

  datatype Status = Status(
    counts: Counts, unavailable: int, collisionCount: Option<int>,
    observedGeneration: int, conditions: seq<Condition>)

  datatype Deployment = Deployment(
    replicas: int, maxUnavailable: int, generation: int, deadline: Option<int>, paused: bool, status: Status)

  // ---------------------------------------------------------------- conditions

  /** GetDeploymentCondition: the first of its kind. */
  function Get(cs: seq<Condition>, kind: Kind): Option<Condition> {
    if cs == [] then None
    else if cs[0].kind == kind then Some(cs[0])
    else Get(cs[1..], kind)
  }

  /** filterOutCondition. */
  function Without(cs: seq<Condition>, kind: Kind): (r: seq<Condition>)
    ensures forall c :: c in r <==> c in cs && c.kind != kind
  {
    if cs == [] then []
    else if cs[0].kind == kind then Without(cs[1..], kind)
    else [cs[0]] + Without(cs[1..], kind)
  }

  /** SetDeploymentCondition: a condition with the status and reason already there is dropped;
      one with the same status keeps the transition time. */
  function Set(cs: seq<Condition>, c: Condition): seq<Condition> {
    var current := Get(cs, c.kind);
    if current.Some? && current.value.status == c.status && current.value.reason == c.reason then cs
    else if current.Some? && current.value.status == c.status
    then Without(cs, c.kind) + [c.(lastTransition := current.value.lastTransition)]
    else Without(cs, c.kind) + [c]
  }

  function NewCondition(kind: Kind, status: Truth, reason: Reason, now: int): Condition {
    Condition(kind, status, reason, WholeSecond(now), WholeSecond(now))
  }

  // ---------------------------------------------------------------- one sync

  predicate HasDeadline(d: Deployment) {
    d.deadline.Some? && d.deadline.value != MAX_INT32
  }

  predicate Complete(d: Deployment, counts: Counts, observedGeneration: int) {
    && counts.updated == d.replicas && counts.replicas == d.replicas && counts.available == d.replicas
    && observedGeneration >= d.generation
  }

  /** DeploymentProgressing: more new, ready or available pods, or fewer old ones. */
  predicate MadeProgress(before: Counts, after: Counts) {
    || after.updated > before.updated
    || after.replicas - after.updated < before.replicas - before.updated
    || after.ready > before.ready
    || after.available > before.available
  }

  predicate PastDeadline(d: Deployment, c: Condition, now: int) {
    d.deadline.Some? && c.lastUpdate + d.deadline.value * SECOND < now
  }

  predicate HasTimedOut(d: Deployment, now: int) {
    var cond := Get(d.status.conditions, Progressing);
    && HasDeadline(d) && cond.Some? && cond.value.reason != NewRSAvailable
    && (cond.value.reason == TimedOut || PastDeadline(d, cond.value, now))
  }

  function AvailableCondition(d: Deployment, available: int, now: int): Condition {
    if available >= d.replicas - d.maxUnavailable
    then NewCondition(Availability, Yes, MinimumAvailable, now)
    else NewCondition(Availability, No, MinimumUnavailable, now)
  }

  /** calculateStatus: the counts observed and the Available condition. */
  function Calculated(d: Deployment, seen: Observation, now: int): Status {
    var available := seen.counts.available;
    Status(seen.counts, Max(seen.size - available, 0), d.status.collisionCount, d.generation,
           Set(d.status.conditions, AvailableCondition(d, available, now)))
  }

  /** The rollout is over: nothing is estimated. */
  predicate Settled(d: Deployment, counts: Counts) {
    var cond := Get(d.status.conditions, Progressing);
    counts.replicas == counts.updated && cond.Some? && cond.value.reason == NewRSAvailable
  }

  /** The condition a sync that observed progress writes. */
  function ProgressCondition(d: Deployment, now: int): Condition {
    var cond := Get(d.status.conditions, Progressing);
    var c := NewCondition(Progressing, Yes, ReplicaSetUpdated, now);
    if cond.Some? && cond.value.status == Yes then c.(lastTransition := cond.value.lastTransition) else c
  }

  /** The Progressing part of syncRolloutStatus, on the conditions calculateStatus left. */
  function Estimated(d: Deployment, cs: seq<Condition>, counts: Counts, now: int): seq<Condition> {
    if !HasDeadline(d) then Without(cs, Progressing)
    else if Settled(d, counts) then cs
    else if Complete(d, counts, d.generation) then Set(cs, NewCondition(Progressing, Yes, NewRSAvailable, now))
    else if MadeProgress(d.status.counts, counts) then
      Set(if Get(d.status.conditions, Progressing).Some? then Without(cs, Progressing) else cs, ProgressCondition(d, now))
    else if HasTimedOut(d, now) then Set(cs, NewCondition(Progressing, No, TimedOut, now))
    else cs
  }

  /** syncRolloutStatus: the status it stores; `failure` is a ReplicaSet's failure condition. */
  function RolloutStatus(d: Deployment, seen: Observation, failure: Option<Condition>, now: int): Status {
    var status := Calculated(d, seen, now);
    var cs := Estimated(d, status.conditions, seen.counts, now);
    status.(conditions := if failure.Some? then Set(cs, failure.value.(kind := ReplicaFailure))
                          else Without(cs, ReplicaFailure))
  }

  predicate IsMarkedPaused(d: Deployment) {
    var cond := Get(d.status.conditions, Progressing);
    cond.Some? && cond.value.reason == DeployPaused
  }

  /** The conditions do not say whether the Deployment is paused, and may. */
  predicate PauseMarkIsStale(d: Deployment) {
    var cond := Get(d.status.conditions, Progressing);
    HasDeadline(d) && !(cond.Some? && cond.value.reason == TimedOut) && d.paused != IsMarkedPaused(d)
  }

  /** checkPausedConditions. */
  function PauseChecked(d: Deployment, now: int): seq<Condition> {
    if !PauseMarkIsStale(d) then d.status.conditions
    else Set(d.status.conditions, NewCondition(Progressing, Unclear, if d.paused then DeployPaused else DeployResumed, now))
  }

  // ---------------------------------------------------------------- the controller

  /** A Deployment whose status the syncs edit and write back. */
  class StatusKeeper {
    var d: Deployment
    var writeOk: bool

    constructor (d: Deployment, writeOk: bool)
      ensures this.d == d && this.writeOk == writeOk
    {
      this.d, this.writeOk := d, writeOk;
    }

    /** UpdateStatus, when the API server accepts it. */
    method UpdateStatus(status: Status) returns (err: bool)
      modifies this`d
      ensures err == !writeOk
      ensures d == if err then old(d) else old(d).(status := status)
    {
      if writeOk {
        d := d.(status := status);
      }
      return !writeOk;
    }

    method SyncRolloutStatus(seen: Observation, failure: Option<Condition>, now: int) returns (err: bool)
      modifies this`d
      ensures var status := RolloutStatus(old(d), seen, failure, now);
              && err == (!writeOk && status != old(d).status)
              && d == if err then old(d) else old(d).(status := status)
    {
      hide Without, Set, Estimated, Calculated;
      var newStatus := CalculateStatus(seen, now);
      var cs := EstimateProgress(newStatus.conditions, seen.counts, now);
      if failure.Some? {
        cs := SetCondition(cs, failure.value.(kind := ReplicaFailure));
      } else {
        cs := FilterOutCondition(cs, ReplicaFailure);
      }
      newStatus := newStatus.(conditions := cs);
      if newStatus == d.status {
        return false;
      }
      err := UpdateStatus(newStatus);
    }

    /** The part of syncRolloutStatus that edits the Progressing condition. */
    method EstimateProgress(conditions: seq<Condition>, counts: Counts, now: int) returns (cs: seq<Condition>)
      ensures cs == Estimated(d, conditions, counts, now)
    {
      hide Get, Without, Set, Complete, MadeProgress, PastDeadline;
      cs := conditions;
      if !HasDeadline(d) {
        cs := FilterOutCondition(cs, Progressing);
      }
      var currentCond := Get(d.status.conditions, Progressing);
      var isCompleteDeployment := counts.replicas == counts.updated && currentCond.Some?
                                  && currentCond.value.reason == NewRSAvailable;
      if HasDeadline(d) && !isCompleteDeployment {
        if Complete(d, counts, d.generation) {
          cs := SetCondition(cs, NewCondition(Progressing, Yes, NewRSAvailable, now));
        } else if MadeProgress(d.status.counts, counts) {
          var condition := NewCondition(Progressing, Yes, ReplicaSetUpdated, now);
          if currentCond.Some? {
            if currentCond.value.status == Yes {
              condition := condition.(lastTransition := currentCond.value.lastTransition);
            }
            cs := FilterOutCondition(cs, Progressing);
          }
          cs := SetCondition(cs, condition);
        } else if HasTimedOut(d, now) {
          cs := SetCondition(cs, NewCondition(Progressing, No, TimedOut, now));
        }
      }
    }

    method CalculateStatus(seen: Observation, now: int) returns (status: Status)
      ensures status == Calculated(d, seen, now)
    {
      var availableReplicas := seen.counts.available;
      var unavailableReplicas := seen.size - availableReplicas;
      if unavailableReplicas < 0 {
        unavailableReplicas := 0;
      }
      status := Status(seen.counts, unavailableReplicas, d.status.collisionCount, d.generation, d.status.conditions);
      var cs;
      if availableReplicas >= d.replicas - d.maxUnavailable {
        cs := SetCondition(status.conditions, NewCondition(Availability, Yes, MinimumAvailable, now));
      } else {
        cs := SetCondition(status.conditions, NewCondition(Availability, No, MinimumUnavailable, now));
      }
      status := status.(conditions := cs);
    }

    method CheckPausedConditions(now: int) returns (err: bool)
      modifies this`d
      ensures err == (!writeOk && PauseMarkIsStale(old(d)))
      ensures var cs := PauseChecked(old(d), now);
              d == if err then old(d) else old(d).(status := old(d).status.(conditions := cs))
    {
      hide Get, Without, Set;
      var cs := d.status.conditions;
      if !HasDeadline(d) {
        return false;
      }
      var cond := Get(cs, Progressing);
      if cond.Some? && cond.value.reason == TimedOut {
        return false;
      }
      var pausedCondExists := cond.Some? && cond.value.reason == DeployPaused;
      if d.paused && !pausedCondExists {
        cs := SetCondition(cs, NewCondition(Progressing, Unclear, DeployPaused, now));
      } else if !d.paused && pausedCondExists {
        cs := SetCondition(cs, NewCondition(Progressing, Unclear, DeployResumed, now));
      } else {
        return false;
      }
      err := UpdateStatus(d.status.(conditions := cs));
    }
  }

  lemma {:induction false} WithoutSnoc(cs: seq<Condition>, c: Condition, kind: Kind)
    ensures Without(cs + [c], kind) == Without(cs, kind) + if c.kind == kind then [] else [c]
  {
    if cs == [] {
      assert cs + [c] == [c];
    } else {
      assert (cs + [c])[1..] == cs[1..] + [c];
      WithoutSnoc(cs[1..], c, kind);
    }
  }

  method FilterOutCondition(cs: seq<Condition>, kind: Kind) returns (newConditions: seq<Condition>)
    ensures newConditions == Without(cs, kind)
  {
    newConditions := [];
    for i := 0 to |cs|
      invariant newConditions == Without(cs[..i], kind)
    {
      assert cs[..i + 1] == cs[..i] + [cs[i]];
      WithoutSnoc(cs[..i], cs[i], kind);
      if cs[i].kind != kind {
        newConditions := newConditions + [cs[i]];
      }
    }
    assert cs[..|cs|] == cs;
  }

  method SetCondition(cs: seq<Condition>, c: Condition) returns (r: seq<Condition>)
    ensures r == Set(cs, c)
  {
    hide Get, Without;
    var currentCond := Get(cs, c.kind);
    if currentCond.Some? && currentCond.value.status == c.status && currentCond.value.reason == c.reason {
      return cs;
    }
    var condition := c;
    if currentCond.Some? && currentCond.value.status == c.status {
      condition := c.(lastTransition := currentCond.value.lastTransition);
    }
    var newConditions := FilterOutCondition(cs, c.kind);
    return newConditions + [condition];
  }
}
