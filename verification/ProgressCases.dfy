/** What one sync reports, told by the fields it reads: counts, sizes, times and reasons. */
module ProgressCases {
  import opened Common
  import opened Progress
  import opened ProgressRuns

  /** The deadline is set, and not to the largest 32-bit integer, which stands for none. */
  predicate InForce(deadline: Option<int>) {
    deadline.Some? && deadline.value != 2_147_483_647
  }

  /** A condition written at `now`: its times are in whole seconds, and the transition time is
      the old one when the status is. */
  predicate WrittenAt(before: Option<Condition>, after: Condition, now: int) {
    && after.lastUpdate % 1_000_000_000 == 0 && after.lastUpdate <= now < after.lastUpdate + 1_000_000_000
    && after.lastTransition
       == if before.Some? && before.value.status == after.status then before.value.lastTransition else after.lastUpdate
  }

  /** What the sync of a rollout does to the Progressing condition.  Without a deadline there is
      none.  A finished rollout stays so.  Otherwise: complete, when every pod is an updated,
      available one; progressing, when there are more updated, ready or available pods or fewer
      old ones; timed out, when it was, or when the deadline has passed since the last update;
      or as it was. */
  lemma SyncReports(d: Deployment, seen: Observation, failure: Option<Condition>, now: int)
    ensures var before, after := ProgressingOf(d), Get(RolloutStatus(d, seen, failure, now).conditions, Progressing);
            var old_, new_ := d.status.counts, seen.counts;
            if !InForce(d.deadline) then after.None?
            else if before.Some? && before.value.reason == NewRSAvailable && new_.replicas == new_.updated then after == before
            else if new_.updated == new_.replicas == new_.available == d.replicas then
              && after.Some? && after.value.status == Yes && after.value.reason == NewRSAvailable
              && (after == before || WrittenAt(before, after.value, now))
            else if new_.updated > old_.updated || new_.ready > old_.ready || new_.available > old_.available
                    || new_.replicas - new_.updated < old_.replicas - old_.updated then
              && after.Some? && after.value.status == Yes && after.value.reason == ReplicaSetUpdated
              && WrittenAt(before, after.value, now)
            else if before.Some? && before.value.reason != NewRSAvailable
                    && (before.value.reason == TimedOut || before.value.lastUpdate + d.deadline.value * 1_000_000_000 < now) then
              && after.Some? && after.value.status == No && after.value.reason == TimedOut
              && (after == before || WrittenAt(before, after.value, now))
            else after == before
  {
    hide Get, Without, Set;
    var cs := Calculated(d, seen, now).conditions;
    GetSet(d.status.conditions, AvailableCondition(d, seen.counts.available, now), Progressing);
    var es := Estimated(d, cs, seen.counts, now);
    if failure.Some? {
      GetSet(es, failure.value.(kind := ReplicaFailure), Progressing);
    } else {
      GetWithout(es, ReplicaFailure, Progressing);
    }
    GetWithout(cs, Progressing, Progressing);
    SetWrites(cs, Yes, NewRSAvailable, now);
    SetWrites(cs, No, TimedOut, now);
    var rest := if ProgressingOf(d).Some? then Without(cs, Progressing) else cs;
    GetSet(rest, ProgressCondition(d, now), Progressing);
  }

  /** Setting the Progressing condition: what already says the same stays. */
  lemma SetWrites(cs: seq<Condition>, status: Truth, reason: Reason, now: int)
    ensures var before, after := Get(cs, Progressing), Get(Set(cs, NewCondition(Progressing, status, reason, now)), Progressing);
            && after.Some? && after.value.status == status && after.value.reason == reason
            && if before.Some? && before.value.status == status && before.value.reason == reason then after == before
               else WrittenAt(before, after.value, now)
  {
    hide Get, Without;
    var c := NewCondition(Progressing, status, reason, now);
    GetWithout(cs, Progressing, Progressing);
    GetSnoc(Without(cs, Progressing), c, Progressing);
    var current := Get(cs, Progressing);
    if current.Some? {
      GetSnoc(Without(cs, Progressing), c.(lastTransition := current.value.lastTransition), Progressing);
    }
  }

  /** The counts a sync stores, and which way the Available condition points. */
  lemma SyncCounts(d: Deployment, seen: Observation, failure: Option<Condition>, now: int)
    ensures forall s :: s in {RolloutStatus(d, seen, failure, now), Calculated(d, seen, now)} ==>
              && s.counts == seen.counts && s.collisionCount == d.status.collisionCount
              && s.observedGeneration == d.generation
              && s.unavailable >= 0 && s.unavailable >= seen.size - seen.counts.available
              && (s.unavailable == 0 || s.unavailable == seen.size - seen.counts.available)
              && var c := Get(s.conditions, Availability);
                 && c.Some?
                 && (if seen.counts.available >= d.replicas - d.maxUnavailable
                     then c.value.status == Yes && c.value.reason == MinimumAvailable
                     else c.value.status == No && c.value.reason == MinimumUnavailable)
  {
    hide Get, Without, Set, Estimated;
    var cs := Calculated(d, seen, now).conditions;
    GetSet(d.status.conditions, AvailableCondition(d, seen.counts.available, now), Availability);
    var es := Estimated(d, cs, seen.counts, now);
    EstimatedKeepsOthers(d, cs, seen.counts, now, Availability);
    if failure.Some? {
      GetSet(es, failure.value.(kind := ReplicaFailure), Availability);
    } else {
      GetWithout(es, ReplicaFailure, Availability);
    }
  }

  /** A failure of a ReplicaSet is passed on, and taken back when it is over. */
  lemma SyncReportsFailure(d: Deployment, seen: Observation, failure: Option<Condition>, now: int)
    ensures var after := Get(RolloutStatus(d, seen, failure, now).conditions, ReplicaFailure);
            if failure.None? then after.None?
            else after.Some? && after.value.status == failure.value.status && after.value.reason == failure.value.reason
  {
    hide Get, Without, Set, Estimated;
    var es := Estimated(d, Calculated(d, seen, now).conditions, seen.counts, now);
    GetWithout(es, ReplicaFailure, ReplicaFailure);
    if failure.Some? {
      GetSet(es, failure.value.(kind := ReplicaFailure), ReplicaFailure);
    }
  }

  /** Pausing and resuming is recorded once, as an unknown progress, unless the rollout timed
      out or has no deadline; nothing else is touched. */
  lemma PauseIsRecorded(d: Deployment, now: int)
    ensures var before, after := ProgressingOf(d), Get(PauseChecked(d, now), Progressing);
            var paused := before.Some? && before.value.reason == DeployPaused;
            if !InForce(d.deadline) || (before.Some? && before.value.reason == TimedOut) || d.paused == paused
            then PauseChecked(d, now) == d.status.conditions
            else && after.Some? && after.value.status == Unclear
                 && after.value.reason == (if d.paused then DeployPaused else DeployResumed)
                 && (after == before || WrittenAt(before, after.value, now))
    ensures forall kind :: kind != Progressing ==> Get(PauseChecked(d, now), kind) == Get(d.status.conditions, kind)
  {
    hide Get, Without, Set;
    var cs := d.status.conditions;
    SetWrites(cs, Unclear, DeployPaused, now);
    SetWrites(cs, Unclear, DeployResumed, now);
    forall kind | kind != Progressing ensures Get(PauseChecked(d, now), kind) == Get(cs, kind) {
      GetSet(cs, NewCondition(Progressing, Unclear, if d.paused then DeployPaused else DeployResumed, now), kind);
    }
  }
}
