/** One rolling update of a Deployment: what each reconcile writes, as functions, and the
    controller whose methods send those writes to the API server. */
module Rolling {
  import opened Common
  import opened ReplicaSets
  import opened Strategy

  /** The ReplicaSets of one Deployment, as the API server holds them. */
  datatype Fleet = Fleet(olds: seq<ReplicaSet>, latest: ReplicaSet) {
    function All(): seq<ReplicaSet> {
      olds + [latest]
    }
  }

  /** An accepted update: `copy` was read, `updated` replaced it. */
  datatype Write = Write(copy: ReplicaSet, updated: ReplicaSet)

  /** The API server as the controller meets it: how many writes it still accepts before it
      refuses one, and the writes accepted so far.  After a refusal no ReplicaSet size is
      written again. */
  datatype Api = Api(budget: nat, log: seq<Write>) {
    function Put(copy: ReplicaSet, updated: ReplicaSet): Api
      requires budget > 0
    {
      Api(budget - 1, log + [Write(copy, updated)])
    }
  }

  /** A ReplicaSet after scaleReplicaSet has written it. */
  function ScaledTo(rs: ReplicaSet, size: int, d: Deployment): ReplicaSet {
    rs.(spec := size, desired := Some(d.replicas), maxReplicas := Some(MaxTotal(d)))
  }

  predicate AnnotationsNeedUpdate(rs: ReplicaSet, d: Deployment) {
    rs.desired != Some(d.replicas) || rs.maxReplicas != Some(MaxTotal(d))
  }

  /** The effect of one scaling loop: the list with what was written, the running total, the
      server, and whether a write was refused. */
  datatype Pass = Pass(rss: seq<ReplicaSet>, scaled: int, api: Api, failed: bool)

  /** The loop of cleanupUnhealthyReplicas, from index i on. */
  function CleanupPass(rss: seq<ReplicaSet>, i: nat, max: int, done: int, api: Api, d: Deployment): (p: Pass)
    requires i <= |rss|
    ensures |p.rss| == |rss|
    decreases |rss| - i
  {
    if i == |rss| || done >= max then Pass(rss, done, api, false)
    else if rss[i].spec == 0 || rss[i].spec == rss[i].available then
      CleanupPass(rss, i + 1, max, done, api, d)
    else
      var count := Min(max - done, rss[i].spec - rss[i].available);
      if rss[i].spec - count > rss[i].spec then Pass(rss, 0, api, true)
      else if api.budget == 0 then Pass(rss, done, api, true)
      else
        var updated := ScaledTo(rss[i], rss[i].spec - count, d);
        CleanupPass(rss[i := updated], i + 1, max, done + count, api.Put(rss[i], updated), d)
  }

  /** One turn of that loop: `count` pods are to go, `updated` is what would be written. */
  lemma CleanupTurn(rss: seq<ReplicaSet>, i: nat, max: int, done: int, api: Api, d: Deployment,
                    count: int, updated: ReplicaSet)
    requires i < |rss| && done < max
    requires count == Min(max - done, rss[i].spec - rss[i].available)
    requires updated == ScaledTo(rss[i], rss[i].spec - count, d)
    ensures CleanupPass(rss, i, max, done, api, d)
         == if rss[i].spec == 0 || rss[i].spec == rss[i].available then CleanupPass(rss, i + 1, max, done, api, d)
            else if rss[i].spec - count > rss[i].spec then Pass(rss, 0, api, true)
            else if api.budget == 0 then Pass(rss, done, api, true)
            else CleanupPass(rss[i := updated], i + 1, max, done + count, api.Put(rss[i], updated), d)
  {
  }

  lemma CleanupStops(rss: seq<ReplicaSet>, i: nat, max: int, done: int, api: Api, d: Deployment)
    requires i <= |rss| && (i == |rss| || done >= max)
    ensures CleanupPass(rss, i, max, done, api, d) == Pass(rss, done, api, false)
  {
  }

  /** The loop of scaleDownOldReplicaSetsForRollingUpdate, from index i on. */
  function ScaleDownPass(rss: seq<ReplicaSet>, i: nat, quota: int, done: int, api: Api, d: Deployment): (p: Pass)
    requires i <= |rss|
    ensures |p.rss| == |rss|
    decreases |rss| - i
  {
    if i == |rss| || done >= quota then Pass(rss, done, api, false)
    else if rss[i].spec == 0 then
      ScaleDownPass(rss, i + 1, quota, done, api, d)
    else
      var count := Min(rss[i].spec, quota - done);
      if rss[i].spec - count > rss[i].spec then Pass(rss, 0, api, true)
      else if api.budget == 0 then Pass(rss, done, api, true)
      else
        var updated := ScaledTo(rss[i], rss[i].spec - count, d);
        ScaleDownPass(rss[i := updated], i + 1, quota, done + count, api.Put(rss[i], updated), d)
  }

  lemma ScaleDownTurn(rss: seq<ReplicaSet>, i: nat, quota: int, done: int, api: Api, d: Deployment,
                      count: int, updated: ReplicaSet)
    requires i < |rss| && done < quota
    requires count == Min(rss[i].spec, quota - done)
    requires updated == ScaledTo(rss[i], rss[i].spec - count, d)
    ensures ScaleDownPass(rss, i, quota, done, api, d)
         == if rss[i].spec == 0 then ScaleDownPass(rss, i + 1, quota, done, api, d)
            else if rss[i].spec - count > rss[i].spec then Pass(rss, 0, api, true)
            else if api.budget == 0 then Pass(rss, done, api, true)
            else ScaleDownPass(rss[i := updated], i + 1, quota, done + count, api.Put(rss[i], updated), d)
  {
  }

  lemma ScaleDownStops(rss: seq<ReplicaSet>, i: nat, quota: int, done: int, api: Api, d: Deployment)
    requires i <= |rss| && (i == |rss| || done >= quota)
    ensures ScaleDownPass(rss, i, quota, done, api, d) == Pass(rss, done, api, false)
  {
  }

  function ScaleDownOld(rss: seq<ReplicaSet>, latest: ReplicaSet, api: Api, d: Deployment): Pass {
    var available := Total(Available, rss) + latest.available;
    if available <= MinAvailable(d) then Pass(rss, 0, api, false)
    else ScaleDownPass(Sort(ByCreation, rss), 0, available - MinAvailable(d), 0, api, d)
  }

  /** How many old pods may go: everything above the floor that the new ReplicaSet's
      unavailable pods do not already use up. */
  function MaxScaledDown(f: Fleet, d: Deployment): int {
    Total(Spec, f.All()) - MinAvailable(d) - (f.latest.spec - f.latest.available)
  }

  /** reconcileOldReplicaSets on the active old ReplicaSets: a refused write is not reported,
      it only stops the pass that met it and anything after it. */
  function ReconcileOld(f: Fleet, api: Api, d: Deployment): Pass {
    var active := Active(f.olds);
    if Total(Spec, active) == 0 || MaxScaledDown(f, d) <= 0 then Pass(active, 0, api, false)
    else
      var c := CleanupPass(Sort(ByCreation, active), 0, MaxScaledDown(f, d), 0, api, d);
      if c.failed then c
      else
        var s := ScaleDownOld(c.rss, f.latest, c.api, d);
        if s.failed then s else s.(scaled := c.scaled + s.scaled)
  }

  /** The size reconcileNewReplicaSet wants; None stands for an error. */
  function NewSize(f: Fleet, d: Deployment): Option<int> {
    if f.latest.spec >= d.replicas then Some(d.replicas)
    else NewRSNewReplicas(d, Total(Spec, f.All()), f.latest.spec)
  }

  /** What a reconcile leaves behind: the stored ReplicaSets and the server's log. */
  datatype Outcome = Outcome(fleet: Fleet, api: Api)

  /** rolloutRolling up to the point where only status is left to write. */
  function Reconcile(f: Fleet, api: Api, d: Deployment): Outcome {
    var size := NewSize(f, d);
    if size.None? then Outcome(f, api)
    else if size.value != f.latest.spec then
      if api.budget == 0 then Outcome(f, api)
      else
        var updated := ScaledTo(f.latest, size.value, d);
        Outcome(f.(latest := updated), api.Put(f.latest, updated))
    else
      var p := ReconcileOld(f, api, d);
      Outcome(f.(olds := p.rss + Inactive(f.olds)), p.api)
  }

  // ---------------------------------------------------------------- the writes explain the fleet

  /** The stored ReplicaSets after a log of writes, each replacing the object it was made from. */
  function Replay(start: multiset<ReplicaSet>, log: seq<Write>): multiset<ReplicaSet> {
    if log == [] then start
    else
      var last := log[|log| - 1];
      Replay(start, log[..|log| - 1]) - multiset{last.copy} + multiset{last.updated}
  }

  /** One more write, to the i-th of `rss`, with `rest` what is stored beside them. */
  lemma ReplayPut(start: multiset<ReplicaSet>, rest: multiset<ReplicaSet>, rss: seq<ReplicaSet>, i: nat,
                  api: Api, updated: ReplicaSet)
    requires i < |rss| && api.budget > 0 && Replay(start, api.log) == rest + multiset(rss)
    ensures Replay(start, api.Put(rss[i], updated).log) == rest + multiset(rss[i := updated])
  {
  }

  lemma {:induction false} CleanupReplays(start: multiset<ReplicaSet>, rest: multiset<ReplicaSet>,
                       rss: seq<ReplicaSet>, i: nat, max: int, done: int, api: Api, d: Deployment)
    requires i <= |rss| && Replay(start, api.log) == rest + multiset(rss)
    ensures var p := CleanupPass(rss, i, max, done, api, d);
            Replay(start, p.api.log) == rest + multiset(p.rss)
    decreases |rss| - i
  {
    hide Replay, ScaledTo, CleanupPass;
    if i < |rss| && done < max {
      var count := Min(max - done, rss[i].spec - rss[i].available);
      var updated := ScaledTo(rss[i], rss[i].spec - count, d);
      CleanupTurn(rss, i, max, done, api, d, count, updated);
      if rss[i].spec == 0 || rss[i].spec == rss[i].available {
        CleanupReplays(start, rest, rss, i + 1, max, done, api, d);
      } else if count >= 0 && api.budget > 0 {
        ReplayPut(start, rest, rss, i, api, updated);
        CleanupReplays(start, rest, rss[i := updated], i + 1, max, done + count, api.Put(rss[i], updated), d);
      }
    } else {
      CleanupStops(rss, i, max, done, api, d);
    }
  }

  lemma {:induction false} ScaleDownReplays(start: multiset<ReplicaSet>, rest: multiset<ReplicaSet>,
                         rss: seq<ReplicaSet>, i: nat, quota: int, done: int, api: Api, d: Deployment)
    requires i <= |rss| && Replay(start, api.log) == rest + multiset(rss)
    ensures var p := ScaleDownPass(rss, i, quota, done, api, d);
            Replay(start, p.api.log) == rest + multiset(p.rss)
    decreases |rss| - i
  {
    hide Replay, ScaledTo, ScaleDownPass;
    if i < |rss| && done < quota {
      var count := Min(rss[i].spec, quota - done);
      var updated := ScaledTo(rss[i], rss[i].spec - count, d);
      ScaleDownTurn(rss, i, quota, done, api, d, count, updated);
      if rss[i].spec == 0 {
        ScaleDownReplays(start, rest, rss, i + 1, quota, done, api, d);
      } else if count >= 0 && api.budget > 0 {
        ReplayPut(start, rest, rss, i, api, updated);
        ScaleDownReplays(start, rest, rss[i := updated], i + 1, quota, done + count, api.Put(rss[i], updated), d);
      }
    } else {
      ScaleDownStops(rss, i, quota, done, api, d);
    }
  }

  lemma ReconcileOldReplays(f: Fleet, rest: multiset<ReplicaSet>, start: multiset<ReplicaSet>, api: Api, d: Deployment)
    requires Replay(start, api.log) == rest + multiset(Active(f.olds))
    ensures var p := ReconcileOld(f, api, d);
            Replay(start, p.api.log) == rest + multiset(p.rss)
  {
    hide Replay, CleanupPass, ScaleDownPass, Sort;
    var active := Active(f.olds);
    SortPermutes(ByCreation, active);
    CleanupReplays(start, rest, Sort(ByCreation, active), 0, MaxScaledDown(f, d), 0, api, d);
    var c := CleanupPass(Sort(ByCreation, active), 0, MaxScaledDown(f, d), 0, api, d);
    SortPermutes(ByCreation, c.rss);
    var quota := Total(Available, c.rss) + f.latest.available - MinAvailable(d);
    ScaleDownReplays(start, rest, Sort(ByCreation, c.rss), 0, quota, 0, c.api, d);
  }

  lemma MultisetOfAll(f: Fleet)
    ensures multiset(f.All()) == multiset(f.olds) + multiset{f.latest}
  {
  }

  lemma ReplayOfLatest(f: Fleet, budget: nat, updated: ReplicaSet)
    requires budget > 0
    ensures Replay(multiset(f.All()), Api(budget, []).Put(f.latest, updated).log)
         == multiset(f.(latest := updated).All())
  {
  }

  lemma ReplayOfOlds(f: Fleet, budget: nat, d: Deployment)
    ensures var p := ReconcileOld(f, Api(budget, []), d);
            Replay(multiset(f.All()), p.api.log) == multiset(f.(olds := p.rss + Inactive(f.olds)).All())
  {
    hide ReconcileOld, Active, Inactive;
    var rest := multiset(Inactive(f.olds)) + multiset{f.latest};
    FilterSplits(f.olds);
    MultisetOfAll(f);
    assert multiset(f.All()) == rest + multiset(Active(f.olds));
    ReconcileOldReplays(f, rest, multiset(f.All()), Api(budget, []), d);
    var rss := ReconcileOld(f, Api(budget, []), d).rss;
    MultisetOfAll(f.(olds := rss + Inactive(f.olds)));
    assert rest + multiset(rss) == multiset(rss + Inactive(f.olds)) + multiset{f.latest};
  }

  /** The accepted writes of one reconcile, replayed on the stored ReplicaSets, give exactly
      the fleet that Reconcile names: nothing else is touched, created or lost. */
  lemma ReconcileReplays(f: Fleet, budget: nat, d: Deployment)
    ensures var r := Reconcile(f, Api(budget, []), d);
            Replay(multiset(f.All()), r.api.log) == multiset(r.fleet.All())
  {
    hide ReconcileOld, ScaledTo, NewSize, Inactive;
    var size := NewSize(f, d);
    if size.Some? && size.value == f.latest.spec {
      ReplayOfOlds(f, budget, d);
    } else if size.Some? && budget > 0 {
      ReplayOfLatest(f, budget, ScaledTo(f.latest, size.value, d));
    }
  }

  // ---------------------------------------------------------------- the controller

  class DeploymentController {
    var api: Api

    constructor (api: Api)
      ensures this.api == api
    {
      this.api := api;
    }

    /** ReplicaSets(...).Update. */
    method Update(copy: ReplicaSet, updated: ReplicaSet) returns (err: bool)
      modifies this
      ensures err == (old(api).budget == 0)
      ensures api == if err then old(api) else old(api).Put(copy, updated)
    {
      if api.budget == 0 {
        return true;
      }
      api := Api(api.budget - 1, api.log + [Write(copy, updated)]);
      return false;
    }

    method ScaleReplicaSet(rs: ReplicaSet, newScale: int, d: Deployment)
      returns (scaled: bool, updated: ReplicaSet, err: bool)
      modifies this
      ensures rs.spec == newScale && !AnnotationsNeedUpdate(rs, d) ==>
                !err && !scaled && updated == rs && api == old(api)
      ensures rs.spec != newScale || AnnotationsNeedUpdate(rs, d) ==>
                && err == (old(api).budget == 0)
                && scaled == (!err && rs.spec != newScale)
                && updated == ScaledTo(rs, newScale, d)
                && api == if err then old(api) else old(api).Put(rs, updated)
    {
      var sizeNeedsUpdate := rs.spec != newScale;
      var annotationsNeedUpdate := AnnotationsNeedUpdate(rs, d);
      scaled, updated, err := false, rs, false;
      if sizeNeedsUpdate || annotationsNeedUpdate {
        updated := rs.(spec := newScale, desired := Some(d.replicas), maxReplicas := Some(d.replicas + MaxSurge(d)));
        err := Update(rs, updated);
        if !err && sizeNeedsUpdate {
          scaled := true;
        }
      }
    }

    method ScaleReplicaSetAndRecordEvent(rs: ReplicaSet, newScale: int, d: Deployment)
      returns (scaled: bool, updated: ReplicaSet, err: bool)
      modifies this
      ensures rs.spec == newScale ==> !err && !scaled && updated == rs && api == old(api)
      ensures rs.spec != newScale ==>
                && err == (old(api).budget == 0)
                && scaled == !err
                && updated == ScaledTo(rs, newScale, d)
                && api == if err then old(api) else old(api).Put(rs, updated)
    {
      if rs.spec == newScale {
        return false, rs, false;
      }
      scaled, updated, err := ScaleReplicaSet(rs, newScale, d);
    }

    method CleanupUnhealthyReplicas(oldRSs: array<ReplicaSet>, d: Deployment, maxCleanupCount: int)
      returns (totalScaledDown: int, err: bool)
      modifies this, oldRSs
      ensures Pass(oldRSs[..], totalScaledDown, api, err)
           == CleanupPass(Sort(ByCreation, old(oldRSs[..])), 0, maxCleanupCount, 0, old(api), d)
    {
      hide Sort, CleanupPass, ScaledTo, Api.Put;
      SortInPlace(ByCreation, oldRSs);
      totalScaledDown, err := 0, false;
      ghost var whole := CleanupPass(oldRSs[..], 0, maxCleanupCount, 0, api, d);
      ghost var written := oldRSs[..];
      for i := 0 to oldRSs.Length
        invariant oldRSs[..] == written
        invariant whole == CleanupPass(written, i, maxCleanupCount, totalScaledDown, api, d)
      {
        if totalScaledDown >= maxCleanupCount {
          CleanupStops(written, i, maxCleanupCount, totalScaledDown, api, d);
          return;
        }
        var targetRS := oldRSs[i];
        assert written[i] == targetRS;
        ghost var count := Min(maxCleanupCount - totalScaledDown, targetRS.spec - targetRS.available);
        CleanupTurn(written, i, maxCleanupCount, totalScaledDown, api, d,
                    count, ScaledTo(targetRS, targetRS.spec - count, d));
        if targetRS.spec == 0 {
          continue;
        }
        if targetRS.spec == targetRS.available {
          continue;
        }
        var scaledDownCount := Min(maxCleanupCount - totalScaledDown, targetRS.spec - targetRS.available);
        var newReplicasCount := targetRS.spec - scaledDownCount;
        if newReplicasCount > targetRS.spec {
          return 0, true;
        }
        var _, updatedOldRS, e := ScaleReplicaSetAndRecordEvent(targetRS, newReplicasCount, d);
        if e {
          return totalScaledDown, true;
        }
        totalScaledDown := totalScaledDown + scaledDownCount;
        oldRSs[i] := updatedOldRS;
        written := written[i := updatedOldRS];
      }
      CleanupStops(written, oldRSs.Length, maxCleanupCount, totalScaledDown, api, d);
    }

    /** The loop drops what each write returns: the server ends up with the list of the pass
        while the caller's copies stay as they were. */
    method ScaleDownOldReplicaSetsForRollingUpdate(oldRSs: array<ReplicaSet>, newRS: ReplicaSet, d: Deployment)
      returns (totalScaledDown: int, err: bool)
      modifies this, oldRSs
      ensures var p := ScaleDownOld(old(oldRSs[..]), newRS, old(api), d);
              totalScaledDown == p.scaled && api == p.api && err == p.failed
    {
      hide Sort, ScaleDownPass, ScaledTo, Api.Put;
      var available := CountPods(Available, oldRSs[..]);
      var availablePodCount := available + newRS.available;
      var minAvailable := d.replicas - MaxUnavailable(d);
      if availablePodCount <= minAvailable {
        return 0, false;
      }
      SortInPlace(ByCreation, oldRSs);
      var totalScaleDownCount := availablePodCount - minAvailable;
      totalScaledDown, err := 0, false;
      ghost var written := oldRSs[..];
      ghost var whole := ScaleDownPass(written, 0, totalScaleDownCount, 0, api, d);
      for i := 0 to oldRSs.Length
        modifies this
        invariant |written| == oldRSs.Length
        invariant forall j :: i <= j < |written| ==> written[j] == oldRSs[j]
        invariant whole == ScaleDownPass(written, i, totalScaleDownCount, totalScaledDown, api, d)
      {
        if totalScaledDown >= totalScaleDownCount {
          ScaleDownStops(written, i, totalScaleDownCount, totalScaledDown, api, d);
          return;
        }
        var targetRS := oldRSs[i];
        assert written[i] == targetRS;
        ghost var count := Min(targetRS.spec, totalScaleDownCount - totalScaledDown);
        ScaleDownTurn(written, i, totalScaleDownCount, totalScaledDown, api, d,
                      count, ScaledTo(targetRS, targetRS.spec - count, d));
        if targetRS.spec == 0 {
          continue;
        }
        var scaleDownCount := Min(targetRS.spec, totalScaleDownCount - totalScaledDown);
        var newReplicasCount := targetRS.spec - scaleDownCount;
        if newReplicasCount > targetRS.spec {
          return 0, true;
        }
        var _, updated, e := ScaleReplicaSetAndRecordEvent(targetRS, newReplicasCount, d);
        if e {
          return totalScaledDown, true;
        }
        totalScaledDown := totalScaledDown + scaleDownCount;
        written := written[i := updated];
      }
      ScaleDownStops(written, oldRSs.Length, totalScaleDownCount, totalScaledDown, api, d);
    }

    method ReconcileNewReplicaSet(f: Fleet, d: Deployment) returns (scaled: bool, err: bool)
      modifies this
      ensures var size := NewSize(f, d);
              if size.None? then !scaled && err && api == old(api)
              else if size.value == f.latest.spec then !scaled && !err && api == old(api)
              else
                && err == (old(api).budget == 0)
                && scaled == !err
                && api == if err then old(api) else old(api).Put(f.latest, ScaledTo(f.latest, size.value, d))
    {
      var newRS := f.latest;
      if newRS.spec == d.replicas {
        return false, false;
      }
      if newRS.spec > d.replicas {
        var s, _, e := ScaleReplicaSetAndRecordEvent(newRS, d.replicas, d);
        return s, e;
      }
      var currentPodCount := CountPods(Spec, f.All());
      var newReplicasCount := NewRSNewReplicas(d, currentPodCount, newRS.spec);
      if newReplicasCount.None? {
        return false, true;
      }
      var s, _, e := ScaleReplicaSetAndRecordEvent(newRS, newReplicasCount.value, d);
      return s, e;
    }

    method ReconcileOldReplicaSets(f: Fleet, d: Deployment) returns (scaledDown: bool)
      modifies this
      ensures var p := ReconcileOld(f, old(api), d);
              scaledDown == (!p.failed && p.scaled > 0) && api == p.api
    {
      hide Sort, CleanupPass, ScaleDownOld, Total, Active, Inactive, MaxUnavailable;
      var newRS := f.latest;
      var active := FilterActiveReplicaSets(f.olds);
      var oldPodsCount := CountPods(Spec, active);
      if oldPodsCount == 0 {
        return false;
      }
      var allPodsCount := CountPods(Spec, f.All());
      var minAvailable := d.replicas - MaxUnavailable(d);
      var newRSUnavailablePodCount := newRS.spec - newRS.available;
      var maxScaledDown := allPodsCount - minAvailable - newRSUnavailablePodCount;
      if maxScaledDown <= 0 {
        return false;
      }
      var oldRSs := new ReplicaSet[|active|](i requires 0 <= i < |active| => active[i]);
      assert oldRSs[..] == active;
      var cleanupCount, err := CleanupUnhealthyReplicas(oldRSs, d, maxScaledDown);
      if err {
        return false;
      }
      var scaledDownCount, e := ScaleDownOldReplicaSetsForRollingUpdate(oldRSs, newRS, d);
      if e {
        return false;
      }
      var totalScaledDown := cleanupCount + scaledDownCount;
      return totalScaledDown > 0;
    }

    /** A reconcile sends exactly the writes of Reconcile, whichever write is refused. */
    method RolloutRolling(f: Fleet, d: Deployment) returns (err: bool)
      modifies this
      ensures api == Reconcile(f, old(api), d).api
      ensures var size := NewSize(f, d);
              err <==> size.None? || (size.value != f.latest.spec && old(api).budget == 0)
    {
      var scaledUp;
      scaledUp, err := ReconcileNewReplicaSet(f, d);
      if err || scaledUp {
        return;
      }
      var scaledDown := ReconcileOldReplicaSets(f, d);
    }
  }
}
