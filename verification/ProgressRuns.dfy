/** What the progress deadline means over every run of syncs. */
module ProgressRuns {
  import opened Common
  import opened Progress

  // ---------------------------------------------------------------- the list of conditions

  ghost predicate OnePerKind(cs: seq<Condition>) {
    forall i, j :: 0 <= i < j < |cs| ==> cs[i].kind != cs[j].kind
  }

  lemma {:induction false} GetWithout(cs: seq<Condition>, kind: Kind, other: Kind)
    ensures Get(Without(cs, kind), other) == if other == kind then None else Get(cs, other)
  {
    if cs != [] {
      GetWithout(cs[1..], kind, other);
      if cs[0].kind != kind {
        assert Without(cs, kind)[1..] == Without(cs[1..], kind);
      } else {
        assert Without(cs, kind) == Without(cs[1..], kind);
      }
    }
  }

  lemma {:induction false} GetSnoc(cs: seq<Condition>, c: Condition, kind: Kind)
    ensures Get(cs + [c], kind) == if Get(cs, kind).Some? then Get(cs, kind)
                                   else if c.kind == kind then Some(c) else None
  {
    if cs != [] {
      assert (cs + [c])[1..] == cs[1..] + [c];
      GetSnoc(cs[1..], c, kind);
    }
  }

  lemma {:induction false} GetKind(cs: seq<Condition>, kind: Kind)
    ensures Get(cs, kind).Some? ==> Get(cs, kind).value.kind == kind && Get(cs, kind).value in cs
    ensures Get(cs, kind).None? ==> forall c :: c in cs ==> c.kind != kind
  {
    if cs != [] {
      GetKind(cs[1..], kind);
      assert cs == [cs[0]] + cs[1..];
    }
  }

  /** SetDeploymentCondition touches its own kind only, keeps what already says the same, and
      moves the transition time only when the status changes. */
  lemma GetSet(cs: seq<Condition>, c: Condition, kind: Kind)
    ensures kind != c.kind ==> Get(Set(cs, c), kind) == Get(cs, kind)
    ensures var before, after := Get(cs, c.kind), Get(Set(cs, c), c.kind);
            && after.Some? && after.value.status == c.status && after.value.reason == c.reason
            && (if before.Some? && before.value.status == c.status && before.value.reason == c.reason
                then after == before else after.value.lastUpdate == c.lastUpdate)
            && (before.Some? && before.value.status == c.status ==> after.value.lastTransition == before.value.lastTransition)
            && (before.None? ==> after == Some(c))
  {
    hide Without;
    var current := Get(cs, c.kind);
    GetKind(cs, c.kind);
    var added := if current.Some? && current.value.status == c.status
                 then c.(lastTransition := current.value.lastTransition) else c;
    GetWithout(cs, c.kind, kind);
    GetWithout(cs, c.kind, c.kind);
    GetSnoc(Without(cs, c.kind), added, kind);
    GetSnoc(Without(cs, c.kind), added, c.kind);
  }

  lemma {:induction false} WithoutKeepsOnePerKind(cs: seq<Condition>, kind: Kind)
    requires OnePerKind(cs)
    ensures OnePerKind(Without(cs, kind))
  {
    if cs != [] {
      WithoutKeepsOnePerKind(cs[1..], kind);
    }
  }

  lemma SetKeepsOnePerKind(cs: seq<Condition>, c: Condition)
    requires OnePerKind(cs)
    ensures OnePerKind(Set(cs, c))
  {
    WithoutKeepsOnePerKind(cs, c.kind);
  }

  // ---------------------------------------------------------------- events

  /** What can happen to a Deployment; a write of its status may be refused. */
  datatype Event =
    | Rollout(seen: Observation, failure: Option<Condition>, now: int, ok: bool) // syncRolloutStatus
    | Rescale(seen: Observation, now: int, ok: bool)                            // syncDeploymentStatus
    | CheckPaused(now: int, ok: bool)                                        // checkPausedConditions
    | CreatedRS(created: bool, now: int, ok: bool)                           // a ReplicaSet creation, done or failed
    | FoundRS(now: int, ok: bool)                                            // an existing new ReplicaSet
    | Edit(replicas: int, maxUnavailable: int, deadline: Option<int>, paused: bool)

  function WithConditions(d: Deployment, cs: seq<Condition>): Deployment {
    d.(status := d.status.(conditions := cs))
  }

  function Created(d: Deployment, created: bool, now: int): Deployment {
    if !HasDeadline(d) then d
    else WithConditions(d, Set(d.status.conditions,
                               if created then NewCondition(Progressing, Yes, NewRSCreated, now)
                               else NewCondition(Progressing, No, CreationFailed, now)))
  }

  function Apply(d: Deployment, e: Event): Deployment {
    match e
    case Rollout(seen, failure, now, ok) => if ok then d.(status := RolloutStatus(d, seen, failure, now)) else d
    case Rescale(seen, now, ok) => if ok then d.(status := Calculated(d, seen, now)) else d
    case CheckPaused(now, ok) => if ok then WithConditions(d, PauseChecked(d, now)) else d
    case CreatedRS(created, now, ok) => if ok then Created(d, created, now) else d
    case FoundRS(now, ok) =>
      if ok && HasDeadline(d) && Get(d.status.conditions, Progressing).None?
      then WithConditions(d, Set(d.status.conditions, NewCondition(Progressing, Yes, NewRSFound, now))) else d
    case Edit(replicas, maxUnavailable, deadline, paused) =>
      d.(replicas := replicas, maxUnavailable := maxUnavailable, deadline := deadline, paused := paused,
         generation := d.generation + 1)
  }

  function Run(d: Deployment, run: seq<Event>): Deployment
    decreases run
  {
    if run == [] then d else Run(Apply(d, run[0]), run[1..])
  }

  /** The time of an event, or `last` when it has none. */
  function TimeOf(e: Event, last: int): int {
    if e.Edit? then last else e.now
  }

  // ---------------------------------------------------------------- what each event does to Progressing

  function ProgressingOf(d: Deployment): Option<Condition> {
    Get(d.status.conditions, Progressing)
  }

  /** A sync stored while the deadline is in force, that saw the rollout advance or complete. */
  predicate SawProgress(d: Deployment, e: Event) {
    && e.Rollout? && e.ok && HasDeadline(d)
    && (Complete(d, e.seen.counts, d.generation) || MadeProgress(d.status.counts, e.seen.counts))
  }

  lemma RolloutProgressing(d: Deployment, seen: Observation, failure: Option<Condition>, now: int)
    ensures var before, after := ProgressingOf(d), Get(RolloutStatus(d, seen, failure, now).conditions, Progressing);
            var counts := seen.counts;
            && (!HasDeadline(d) ==> after.None?)
            && (HasDeadline(d) && Settled(d, counts) ==> after == before)
            && (HasDeadline(d) && !Settled(d, counts) ==>
                  if Complete(d, counts, d.generation) then after.Some? && after.value.reason == NewRSAvailable
                  else if MadeProgress(d.status.counts, counts) then
                    after.Some? && after.value.reason == ReplicaSetUpdated && after.value.lastUpdate == WholeSecond(now)
                  else if HasTimedOut(d, now) then
                    && after.Some? && after.value.reason == TimedOut && after.value.status == No
                    && (before.value.reason == TimedOut && before.value.status == No ==> after == before)
                  else after == before)
            && (before.Some? && after.Some? && before.value.status == after.value.status ==>
                  before.value.lastTransition == after.value.lastTransition)
  {
    hide Get, Without, Set, Complete, MadeProgress, PastDeadline;
    var cs := Calculated(d, seen, now).conditions;
    GetSet(d.status.conditions, AvailableCondition(d, seen.counts.available, now), Progressing);
    var es := Estimated(d, cs, seen.counts, now);
    if failure.Some? {
      GetSet(es, failure.value.(kind := ReplicaFailure), Progressing);
    } else {
      GetWithout(es, ReplicaFailure, Progressing);
    }
    GetWithout(cs, Progressing, Progressing);
    GetSet(cs, NewCondition(Progressing, Yes, NewRSAvailable, now), Progressing);
    GetSet(cs, NewCondition(Progressing, No, TimedOut, now), Progressing);
    var rest := if ProgressingOf(d).Some? then Without(cs, Progressing) else cs;
    GetSet(rest, ProgressCondition(d, now), Progressing);
  }

  /** What the other events do. */
  lemma OtherProgressing(d: Deployment, e: Event)
    requires !e.Rollout?
    ensures var before, after := ProgressingOf(d), ProgressingOf(Apply(d, e));
            && (after == before || (e.CheckPaused? || e.CreatedRS? || e.FoundRS?))
            && (after != before ==> after.Some? && HasDeadline(d)
                                    && (after.value.lastUpdate == WholeSecond(e.now) || e.CreatedRS?)
                                    && after.value.reason != TimedOut && after.value.reason != NewRSAvailable)
            && (after != before && !e.CreatedRS? ==> before.None? || before.value.reason != TimedOut)
            && (after != before && e.CreatedRS? ==> after.value.lastUpdate == WholeSecond(e.now))
            && (before.Some? && after.Some? && before.value.status == after.value.status ==>
                  before.value.lastTransition == after.value.lastTransition)
  {
    hide Get, Without, Set;
    match e
    case Rescale(seen, now, ok) =>
      GetSet(d.status.conditions, AvailableCondition(d, seen.counts.available, now), Progressing);
    case CheckPaused(now, ok) =>
      GetSet(d.status.conditions, NewCondition(Progressing, Unclear, DeployPaused, now), Progressing);
      GetSet(d.status.conditions, NewCondition(Progressing, Unclear, DeployResumed, now), Progressing);
    case CreatedRS(created, now, ok) =>
      GetSet(d.status.conditions, NewCondition(Progressing, Yes, NewRSCreated, now), Progressing);
      GetSet(d.status.conditions, NewCondition(Progressing, No, CreationFailed, now), Progressing);
    case FoundRS(now, ok) =>
      GetSet(d.status.conditions, NewCondition(Progressing, Yes, NewRSFound, now), Progressing);
    case Edit(_, _, _, _) =>
  }

  // ---------------------------------------------------------------- whole runs

  /** The clock does not go back. */
  ghost predicate Ordered(run: seq<Event>, start: int)
    decreases run
  {
    run == [] || (start <= TimeOf(run[0], start) && Ordered(run[1..], TimeOf(run[0], start)))
  }

  /** The whole second of the last sync of the run that saw progress or completion. */
  function LastSign(d: Deployment, run: seq<Event>, sign: int): int
    decreases run
  {
    if run == [] then sign
    else LastSign(Apply(d, run[0]), run[1..], if SawProgress(d, run[0]) then WholeSecond(run[0].now) else sign)
  }

  /** The time of the last event of the run. */
  function LastTime(run: seq<Event>, start: int): int
    decreases run
  {
    if run == [] then start else LastTime(run[1..], TimeOf(run[0], start))
  }

  /** The Progressing condition is at least as recent as the last sign of progress, unless it
      says that the rollout is over or timed out. */
  ghost predicate Recent(d: Deployment, sign: int) {
    var cond := ProgressingOf(d);
    cond.Some? && cond.value.reason != NewRSAvailable && cond.value.reason != TimedOut ==> sign <= cond.value.lastUpdate
  }

  lemma ApplyKeepsRecent(d: Deployment, e: Event, sign: int, time: int)
    requires Recent(d, sign) && WholeSecond(sign) == sign <= time <= TimeOf(e, time)
    ensures Recent(Apply(d, e), if SawProgress(d, e) then WholeSecond(e.now) else sign)
  {
    hide Get, RolloutStatus, Calculated, PauseChecked, Complete, MadeProgress, Created, PastDeadline;
    if e.Rollout? {
      RolloutProgressing(d, e.seen, e.failure, e.now);
    } else {
      OtherProgressing(d, e);
    }
  }

  lemma {:induction false} RunKeepsRecent(d: Deployment, run: seq<Event>, sign: int, time: int)
    requires Recent(d, sign) && WholeSecond(sign) == sign <= time && Ordered(run, time)
    ensures Recent(Run(d, run), LastSign(d, run, sign)) && LastSign(d, run, sign) <= LastTime(run, time)
    decreases run
  {
    hide Apply, Recent, SawProgress;
    if run != [] {
      ApplyKeepsRecent(d, run[0], sign, time);
      SignsAreRollouts(d, run[0]);
      RunKeepsRecent(Apply(d, run[0]), run[1..], if SawProgress(d, run[0]) then WholeSecond(run[0].now) else sign, TimeOf(run[0], time));
    }
  }

  lemma SignsAreRollouts(d: Deployment, e: Event)
    ensures SawProgress(d, e) ==> e.Rollout?
  {
  }

  predicate IsTimedOut(d: Deployment) {
    ProgressingOf(d).Some? && ProgressingOf(d).value.reason == TimedOut
  }

  /** ProgressDeadlineExceeded is set only for cause: whenever an event after any run sets it
      anew, it is a sync that saw no progress, at a time when the deadline has passed since the
      condition was last updated, and no sync of the run saw progress after that update. */
  lemma TimeoutHasCause(d: Deployment, run: seq<Event>, sign: int, time: int, e: Event)
    requires Recent(d, sign) && WholeSecond(sign) == sign <= time && Ordered(run, time)
    requires !IsTimedOut(Run(d, run)) && IsTimedOut(Apply(Run(d, run), e))
    ensures var now := Run(d, run);
            && e.Rollout? && e.ok && !SawProgress(now, e)
            && ProgressingOf(now).Some? && HasDeadline(now)
            && ProgressingOf(now).value.lastUpdate + now.deadline.value * SECOND < e.now
            && LastSign(d, run, sign) <= ProgressingOf(now).value.lastUpdate
  {
    hide Get, RolloutStatus, Calculated, PauseChecked, Complete, MadeProgress, Created, Run, LastSign, Ordered;
    RunKeepsRecent(d, run, sign, time);
    var now := Run(d, run);
    if e.Rollout? {
      RolloutProgressing(now, e.seen, e.failure, e.now);
    } else {
      OtherProgressing(now, e);
    }
  }

  /** It then persists, whatever else happens, until a sync sees progress or completion, a
      ReplicaSet creation is attempted, or the deadline is taken away. */
  lemma TimeoutPersists(d: Deployment, e: Event)
    requires IsTimedOut(d) && HasDeadline(d)
    ensures IsTimedOut(Apply(d, e)) || SawProgress(d, e) || (e.CreatedRS? && e.ok)
  {
    hide Get, RolloutStatus, Calculated, PauseChecked, Complete, MadeProgress, Created, PastDeadline;
    if e.Rollout? {
      RolloutProgressing(d, e.seen, e.failure, e.now);
    } else {
      OtherProgressing(d, e);
    }
  }

  ghost predicate Uneventful(d: Deployment, run: seq<Event>)
    decreases run
  {
    run == [] ||
    (HasDeadline(d) && !SawProgress(d, run[0]) && !run[0].CreatedRS? && Uneventful(Apply(d, run[0]), run[1..]))
  }

  lemma {:induction false} TimeoutPersistsOverRun(d: Deployment, run: seq<Event>)
    requires IsTimedOut(d) && Uneventful(d, run)
    ensures IsTimedOut(Run(d, run))
    decreases run
  {
    hide Apply, IsTimedOut, SawProgress;
    if run != [] {
      TimeoutPersists(d, run[0]);
      TimeoutPersistsOverRun(Apply(d, run[0]), run[1..]);
    }
  }

  /** There is never more than one condition of a kind. */
  lemma ApplyKeepsOnePerKind(d: Deployment, e: Event)
    requires OnePerKind(d.status.conditions)
    ensures OnePerKind(Apply(d, e).status.conditions)
  {
    hide Get, Without, Set, OnePerKind, Complete, MadeProgress, HasTimedOut, Settled;
    var cs := d.status.conditions;
    match e
    case Rollout(seen, failure, now, ok) =>
      AvailabilityKeepsOnePerKind(d, seen, now);
      var calculated := Calculated(d, seen, now).conditions;
      WithoutKeepsOnePerKind(calculated, Progressing);
      SetKeepsOnePerKind(calculated, NewCondition(Progressing, Yes, NewRSAvailable, now));
      SetKeepsOnePerKind(calculated, NewCondition(Progressing, No, TimedOut, now));
      SetKeepsOnePerKind(Without(calculated, Progressing), ProgressCondition(d, now));
      SetKeepsOnePerKind(calculated, ProgressCondition(d, now));
      var es := Estimated(d, calculated, seen.counts, now);
      WithoutKeepsOnePerKind(es, ReplicaFailure);
      if failure.Some? {
        SetKeepsOnePerKind(es, failure.value.(kind := ReplicaFailure));
      }
    case Rescale(seen, now, ok) => AvailabilityKeepsOnePerKind(d, seen, now);
    case CheckPaused(now, ok) =>
      SetKeepsOnePerKind(cs, NewCondition(Progressing, Unclear, DeployPaused, now));
      SetKeepsOnePerKind(cs, NewCondition(Progressing, Unclear, DeployResumed, now));
    case CreatedRS(created, now, ok) =>
      SetKeepsOnePerKind(cs, NewCondition(Progressing, Yes, NewRSCreated, now));
      SetKeepsOnePerKind(cs, NewCondition(Progressing, No, CreationFailed, now));
    case FoundRS(now, ok) => SetKeepsOnePerKind(cs, NewCondition(Progressing, Yes, NewRSFound, now));
    case Edit(_, _, _, _) =>
  }

  lemma AvailabilityKeepsOnePerKind(d: Deployment, seen: Observation, now: int)
    requires OnePerKind(d.status.conditions)
    ensures OnePerKind(Calculated(d, seen, now).conditions)
  {
    hide Get, Without, Set, OnePerKind;
    SetKeepsOnePerKind(d.status.conditions, NewCondition(Availability, Yes, MinimumAvailable, now));
    SetKeepsOnePerKind(d.status.conditions, NewCondition(Availability, No, MinimumUnavailable, now));
  }

  lemma {:induction false} RunKeepsOnePerKind(d: Deployment, run: seq<Event>)
    requires OnePerKind(d.status.conditions)
    ensures OnePerKind(Run(d, run).status.conditions)
    decreases run
  {
    hide OnePerKind, Apply;
    if run != [] {
      ApplyKeepsOnePerKind(d, run[0]);
      RunKeepsOnePerKind(Apply(d, run[0]), run[1..]);
    }
  }

  lemma EstimatedKeepsOthers(d: Deployment, cs: seq<Condition>, counts: Counts, now: int, kind: Kind)
    requires kind != Progressing
    ensures Get(Estimated(d, cs, counts, now), kind) == Get(cs, kind)
  {
    hide Get, Without, Set, Complete, MadeProgress, HasTimedOut, Settled;
    GetWithout(cs, Progressing, kind);
    GetSet(cs, NewCondition(Progressing, Yes, NewRSAvailable, now), kind);
    GetSet(cs, NewCondition(Progressing, No, TimedOut, now), kind);
    GetSet(cs, ProgressCondition(d, now), kind);
    GetSet(Without(cs, Progressing), ProgressCondition(d, now), kind);
  }

  /** The other conditions: syncs set the Available one, syncRolloutStatus alone sets or removes
      the one for failures, and nothing else touches either. */
  lemma OtherKinds(d: Deployment, e: Event, kind: Kind)
    requires kind != Progressing
    ensures var before, after := Get(d.status.conditions, kind), Get(Apply(d, e).status.conditions, kind);
            && (before.Some? && after.Some? && before.value.status == after.value.status ==>
                  before.value.lastTransition == after.value.lastTransition)
            && (!e.Rollout? && (kind == ReplicaFailure || !e.Rescale?) ==> after == before)
  {
    hide Get, Without, Set, Estimated, AvailableCondition, NewCondition;
    var cs := d.status.conditions;
    match e
    case Rollout(seen, failure, now, ok) =>
      GetSet(cs, AvailableCondition(d, seen.counts.available, now), kind);
      var calculated := Calculated(d, seen, now).conditions;
      EstimatedKeepsOthers(d, calculated, seen.counts, now, kind);
      var es := Estimated(d, calculated, seen.counts, now);
      GetWithout(es, ReplicaFailure, kind);
      if failure.Some? {
        GetSet(es, failure.value.(kind := ReplicaFailure), kind);
      }
      AvailableKind(d, seen.counts.available, now);
    case Rescale(seen, now, ok) =>
      GetSet(cs, AvailableCondition(d, seen.counts.available, now), kind);
      AvailableKind(d, seen.counts.available, now);
    case _ => OthersKeepKind(d, e, kind);
  }

  lemma AvailableKind(d: Deployment, available: int, now: int)
    ensures AvailableCondition(d, available, now).kind == Availability
  {
  }

  lemma OthersKeepKind(d: Deployment, e: Event, kind: Kind)
    requires kind != Progressing && !e.Rollout? && !e.Rescale?
    ensures Get(Apply(d, e).status.conditions, kind) == Get(d.status.conditions, kind)
  {
    hide Get, Without, Set;
    var cs := d.status.conditions;
    match e
    case CheckPaused(now, ok) =>
      GetSet(cs, NewCondition(Progressing, Unclear, DeployPaused, now), kind);
      GetSet(cs, NewCondition(Progressing, Unclear, DeployResumed, now), kind);
    case CreatedRS(created, now, ok) =>
      GetSet(cs, NewCondition(Progressing, Yes, NewRSCreated, now), kind);
      GetSet(cs, NewCondition(Progressing, No, CreationFailed, now), kind);
    case FoundRS(now, ok) => GetSet(cs, NewCondition(Progressing, Yes, NewRSFound, now), kind);
    case _ =>
  }

  /** LastTransitionTime means what it says: an event that leaves the status of a condition the
      same leaves its transition time the same, for each kind of condition. */
  lemma TransitionTimeMovesWithStatus(d: Deployment, e: Event, kind: Kind)
    ensures var before, after := Get(d.status.conditions, kind), Get(Apply(d, e).status.conditions, kind);
            before.Some? && after.Some? && before.value.status == after.value.status ==>
              before.value.lastTransition == after.value.lastTransition
  {
    hide Get, RolloutStatus, Calculated, PauseChecked, Complete, MadeProgress, Created, PastDeadline;
    if kind != Progressing {
      OtherKinds(d, e, kind);
    } else if e.Rollout? {
      RolloutProgressing(d, e.seen, e.failure, e.now);
    } else {
      OtherProgressing(d, e);
    }
  }
}
