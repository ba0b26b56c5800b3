/** What every rolling update keeps, over whole runs of reconciles, pod events, roll-overs
    and refused writes: the availability floor, the surge ceiling, and progress to the end. */
module RollingRuns {
  import opened Common
  import opened ReplicaSets
  import opened Strategy
  import opened Rolling

  /** No ReplicaSet reports more available pods than it was asked for. */
  ghost predicate Sound(rss: seq<ReplicaSet>) {
    forall i :: 0 <= i < |rss| ==> 0 <= rss[i].available <= rss[i].spec
  }

  /** Every size is a size. */
  ghost predicate Sized(rss: seq<ReplicaSet>) {
    forall i :: 0 <= i < |rss| ==> 0 <= rss[i].spec
  }

  /** Sizes and counts of pods as any ReplicaSet can have them. */
  ghost predicate Plausible(rss: seq<ReplicaSet>) {
    forall i :: 0 <= i < |rss| ==> 0 <= rss[i].available && 0 <= rss[i].spec
  }

  // ---------------------------------------------------------------- one scaling loop

  lemma SortKeepsSound(o: Order, rss: seq<ReplicaSet>)
    ensures Sound(rss) ==> Sound(Sort(o, rss))
    ensures Sized(rss) ==> Sized(Sort(o, rss))
  {
    var sorted := Sort(o, rss);
    SortPermutes(o, rss);
    forall i | 0 <= i < |sorted|
      ensures Sound(rss) ==> 0 <= sorted[i].available <= sorted[i].spec
      ensures Sized(rss) ==> 0 <= sorted[i].spec
    {
      assert sorted[i] in rss;
      var j :| 0 <= j < |rss| && rss[j] == sorted[i];
    }
  }

  lemma {:induction false} SoundIsHealthy(rss: seq<ReplicaSet>)
    requires Sound(rss)
    ensures Total(Healthy, rss) == Total(Available, rss) <= Total(Spec, rss)
    ensures 0 <= Total(Available, rss) && Sized(rss)
  {
    if rss != [] {
      SoundIsHealthy(rss[1..]);
    }
  }

  lemma {:induction false} SizedTotal(rss: seq<ReplicaSet>)
    requires Sized(rss)
    ensures 0 <= Total(Spec, rss)
    ensures Total(Spec, rss) == 0 ==> forall i :: 0 <= i < |rss| ==> rss[i].spec == 0
  {
    if rss != [] {
      SizedTotal(rss[1..]);
      forall i | 0 < i < |rss| && Total(Spec, rss) == 0 ensures rss[i].spec == 0 {
        assert rss[i] == rss[1..][i - 1];
      }
    }
  }

  /** Cleaning up unhealthy pods costs no healthy one, stays within its limit, and makes
      headway whenever there is an unhealthy pod and no write is refused. */
  lemma {:induction false} CleanupBounds(rss: seq<ReplicaSet>, i: nat, max: int, done: int, api: Api, d: Deployment)
    requires i <= |rss| && Sound(rss)
    ensures var p := CleanupPass(rss, i, max, done, api, d);
            && Sound(p.rss)
            && Total(Available, p.rss) == Total(Available, rss)
            && Total(Spec, p.rss) == Total(Spec, rss) - (p.scaled - done)
            && done <= p.scaled <= Max(max, done)
            && (!p.failed && done < max && p.scaled == done ==>
                  p.rss == rss && forall j :: i <= j < |rss| ==> rss[j].spec == rss[j].available)
            && (api.budget >= |rss| - i ==> !p.failed && p.api.budget >= api.budget - (|rss| - i))
    decreases |rss| - i
  {
    hide Total;
    if i < |rss| && done < max {
      if rss[i].spec == 0 || rss[i].spec == rss[i].available {
        CleanupBounds(rss, i + 1, max, done, api, d);
      } else {
        var count := Min(max - done, rss[i].spec - rss[i].available);
        var updated := ScaledTo(rss[i], rss[i].spec - count, d);
        CleanupTurn(rss, i, max, done, api, d, count, updated);
        if api.budget > 0 {
          TotalUpdate(Available, rss, i, updated);
          TotalUpdate(Spec, rss, i, updated);
          CleanupBounds(rss[i := updated], i + 1, max, done + count, api.Put(rss[i], updated), d);
        }
      }
    }
  }

  /** Scaling down costs at most one healthy pod for each pod it counts, counts no more than
      its quota, and makes headway whenever there is a pod and no write is refused. */
  lemma {:induction false} ScaleDownBounds(rss: seq<ReplicaSet>, i: nat, quota: int, done: int, api: Api, d: Deployment)
    requires i <= |rss| && Sized(rss)
    ensures var p := ScaleDownPass(rss, i, quota, done, api, d);
            && Sized(p.rss)
            && Total(Healthy, p.rss) >= Total(Healthy, rss) - (p.scaled - done)
            && Total(Spec, p.rss) == Total(Spec, rss) - (p.scaled - done)
            && done <= p.scaled <= Max(quota, done)
            && (!p.failed && done < quota && p.scaled == done ==>
                  forall j :: i <= j < |rss| ==> rss[j].spec == 0)
            && (api.budget >= |rss| - i ==> !p.failed)
    decreases |rss| - i
  {
    hide Total;
    if i < |rss| && done < quota {
      if rss[i].spec == 0 {
        ScaleDownBounds(rss, i + 1, quota, done, api, d);
      } else {
        var count := Min(rss[i].spec, quota - done);
        var updated := ScaledTo(rss[i], rss[i].spec - count, d);
        ScaleDownTurn(rss, i, quota, done, api, d, count, updated);
        if api.budget > 0 {
          TotalUpdate(Healthy, rss, i, updated);
          TotalUpdate(Spec, rss, i, updated);
          ScaleDownBounds(rss[i := updated], i + 1, quota, done + count, api.Put(rss[i], updated), d);
        }
      }
    }
  }

  // ---------------------------------------------------------------- one reconcile

  lemma TotalOfAll(q: Quantity, f: Fleet)
    ensures Total(q, f.All()) == Total(q, Active(f.olds)) + Total(q, Inactive(f.olds)) + Of(q, f.latest)
    ensures Total(q, f.All()) == Total(q, f.olds) + Of(q, f.latest)
  {
    TotalSnoc(q, f.olds, f.latest);
    TotalActive(q, f.olds);
  }

  lemma PartsAreSound(f: Fleet)
    requires Sound(f.All())
    ensures Sound(Active(f.olds)) && Sound(f.olds) && 0 <= f.latest.available <= f.latest.spec
    ensures Sized(Inactive(f.olds))
    ensures forall q :: Total(q, Inactive(f.olds)) == 0
  {
    var active, inactive := Active(f.olds), Inactive(f.olds);
    assert forall i :: 0 <= i < |f.olds| ==> f.All()[i] == f.olds[i];
    assert f.All()[|f.olds|] == f.latest;
    forall i | 0 <= i < |active| ensures 0 <= active[i].available <= active[i].spec {
      assert active[i] in active;
    }
    forall i | 0 <= i < |inactive| ensures inactive[i].available == inactive[i].spec == 0 {
      assert inactive[i] in inactive;
    }
    forall q ensures Total(q, inactive) == 0 {
      EmptyTotal(q, inactive);
    }
  }

  lemma EmptyTotal(q: Quantity, rss: seq<ReplicaSet>)
    requires forall i :: 0 <= i < |rss| ==> rss[i].available == rss[i].spec == 0
    ensures Total(q, rss) == 0
  {
  }

  lemma ScaleDownOldBounds(rss: seq<ReplicaSet>, latest: ReplicaSet, api: Api, d: Deployment)
    requires Sound(rss)
    ensures var p := ScaleDownOld(rss, latest, api, d);
            var available := Total(Available, rss) + latest.available;
            && Sized(p.rss)
            && Total(Healthy, p.rss) >= Total(Available, rss) - Max(0, available - MinAvailable(d))
            && 0 <= p.scaled && Total(Spec, p.rss) == Total(Spec, rss) - p.scaled
            && (api.budget >= |rss| ==> !p.failed)
            && (!p.failed && available > MinAvailable(d) && Total(Spec, rss) > 0 ==> p.scaled > 0)
  {
    hide ScaleDownPass, Sort, MinAvailable, Total;
    var sorted := Sort(ByCreation, rss);
    var quota := Total(Available, rss) + latest.available - MinAvailable(d);
    SoundIsHealthy(rss);
    SortPermutes(ByCreation, rss);
    SortKeepsSound(ByCreation, rss);
    TotalSort(Healthy, ByCreation, rss);
    TotalSort(Spec, ByCreation, rss);
    ScaleDownBounds(sorted, 0, quota, 0, api, d);
    if forall j :: 0 <= j < |sorted| ==> sorted[j].spec == 0 {
      assert forall j :: 0 <= j < |sorted| ==> sorted[j].available == 0;
      EmptyTotal(Spec, sorted);
    }
  }

  /** Scaling the old ReplicaSets down never eats into the floor, and is a step forward
      whenever the new ReplicaSet's pods are all available and there is an old pod to spare. */
  lemma ReconcileOldBounds(f: Fleet, api: Api, d: Deployment)
    requires Sound(f.All())
    ensures var p := ReconcileOld(f, api, d);
            && Sized(p.rss)
            && Total(Healthy, p.rss) + f.latest.available >= Min(Total(Healthy, f.All()), MinAvailable(d))
            && Total(Spec, p.rss) <= Total(Spec, f.olds)
            && (f.latest.available == f.latest.spec && Total(Spec, f.olds) > 0
                && Total(Spec, f.All()) > MinAvailable(d) && api.budget >= 2 * |f.olds|
                ==> Total(Spec, p.rss) < Total(Spec, f.olds))
  {
    hide CleanupPass, ScaleDownOld, Sort, MinAvailable, Active, Inactive, Total, Sound, Sized;
    var active := Active(f.olds);
    var sorted := Sort(ByCreation, active);
    var max := MaxScaledDown(f, d);
    TotalOfAll(Healthy, f);
    TotalOfAll(Spec, f);
    TotalOfAll(Available, f);
    PartsAreSound(f);
    SoundIsHealthy(active);
    if Total(Spec, active) != 0 && max > 0 {
      SortPermutes(ByCreation, active);
      SortKeepsSound(ByCreation, active);
      TotalSort(Spec, ByCreation, active);
      TotalSort(Available, ByCreation, active);
      CleanupBounds(sorted, 0, max, 0, api, d);
      var c := CleanupPass(sorted, 0, max, 0, api, d);
      SoundIsHealthy(c.rss);
      ScaleDownOldBounds(c.rss, f.latest, c.api, d);
      if c.scaled == 0 && !c.failed {
        SameSpecAsAvailable(sorted);
      }
    }
  }

  lemma SameSpecAsAvailable(rss: seq<ReplicaSet>)
    requires forall j :: 0 <= j < |rss| ==> rss[j].spec == rss[j].available
    ensures Total(Spec, rss) == Total(Available, rss)
  {
  }

  lemma {:induction false} AvailableSplits(rss: seq<ReplicaSet>)
    ensures Total(Available, rss) == Total(Healthy, rss) + Total(Surplus, rss)
    ensures Total(Surplus, rss) >= 0
    ensures Sound(rss) ==> Total(Surplus, rss) == 0
  {
    if rss != [] {
      AvailableSplits(rss[1..]);
    }
  }

  /** Cleaning up never costs a healthy pod, whatever status reports: a ReplicaSet that claims
      more available pods than its size stops the loop. */
  lemma {:induction false} CleanupKeepsHealthy(rss: seq<ReplicaSet>, i: nat, max: int, done: int, api: Api, d: Deployment)
    requires i <= |rss| && Plausible(rss)
    ensures var p := CleanupPass(rss, i, max, done, api, d);
            && Plausible(p.rss)
            && Total(Healthy, p.rss) == Total(Healthy, rss)
            && Total(Available, p.rss) == Total(Available, rss)
            && Total(Spec, p.rss) <= Total(Spec, rss)
    decreases |rss| - i
  {
    hide Total, CleanupPass;
    if i < |rss| && done < max {
      var count := Min(max - done, rss[i].spec - rss[i].available);
      var updated := ScaledTo(rss[i], rss[i].spec - count, d);
      CleanupTurn(rss, i, max, done, api, d, count, updated);
      if rss[i].spec == 0 || rss[i].spec == rss[i].available {
        CleanupKeepsHealthy(rss, i + 1, max, done, api, d);
      } else if count >= 0 && api.budget > 0 {
        TotalUpdate(Healthy, rss, i, updated);
        TotalUpdate(Available, rss, i, updated);
        TotalUpdate(Spec, rss, i, updated);
        CleanupKeepsHealthy(rss[i := updated], i + 1, max, done + count, api.Put(rss[i], updated), d);
      }
    } else {
      CleanupStops(rss, i, max, done, api, d);
    }
  }

  lemma {:induction false} ScaleDownKeepsAvailable(rss: seq<ReplicaSet>, i: nat, quota: int, done: int, api: Api, d: Deployment)
    requires i <= |rss| && Plausible(rss)
    ensures Plausible(ScaleDownPass(rss, i, quota, done, api, d).rss)
    decreases |rss| - i
  {
    hide ScaleDownPass;
    if i < |rss| && done < quota {
      var count := Min(rss[i].spec, quota - done);
      var updated := ScaledTo(rss[i], rss[i].spec - count, d);
      ScaleDownTurn(rss, i, quota, done, api, d, count, updated);
      if rss[i].spec == 0 {
        ScaleDownKeepsAvailable(rss, i + 1, quota, done, api, d);
      } else if count >= 0 && api.budget > 0 {
        ScaleDownKeepsAvailable(rss[i := updated], i + 1, quota, done + count, api.Put(rss[i], updated), d);
      }
    } else {
      ScaleDownStops(rss, i, quota, done, api, d);
    }
  }

  lemma SortKeepsPlausible(o: Order, rss: seq<ReplicaSet>)
    requires Plausible(rss)
    ensures Plausible(Sort(o, rss))
  {
    SortPermutes(o, rss);
    forall i | 0 <= i < |Sort(o, rss)| ensures 0 <= Sort(o, rss)[i].available && 0 <= Sort(o, rss)[i].spec {
      assert Sort(o, rss)[i] in rss;
    }
  }

  lemma ScaleDownOldFloor(rss: seq<ReplicaSet>, latest: ReplicaSet, api: Api, d: Deployment)
    requires Plausible(rss)
    ensures var p := ScaleDownOld(rss, latest, api, d);
            && Plausible(p.rss)
            && Total(Healthy, p.rss) >= Total(Healthy, rss) - Max(0, Total(Available, rss) + latest.available - MinAvailable(d))
            && Total(Spec, p.rss) <= Total(Spec, rss)
  {
    hide ScaleDownPass, Sort, MinAvailable, Total;
    var sorted := Sort(ByCreation, rss);
    var quota := Total(Available, rss) + latest.available - MinAvailable(d);
    SortKeepsPlausible(ByCreation, rss);
    TotalSort(Healthy, ByCreation, rss);
    TotalSort(Spec, ByCreation, rss);
    ScaleDownBounds(sorted, 0, quota, 0, api, d);
    ScaleDownKeepsAvailable(sorted, 0, quota, 0, api, d);
  }

  lemma PartsArePlausible(f: Fleet)
    requires Plausible(f.All())
    ensures Plausible(Active(f.olds)) && Plausible(Inactive(f.olds)) && Plausible([f.latest])
    ensures Total(Healthy, Inactive(f.olds)) == 0
    ensures Total(Surplus, f.All()) >= Total(Surplus, Active(f.olds)) + Of(Surplus, f.latest)
  {
    hide Total;
    var active, inactive := Active(f.olds), Inactive(f.olds);
    assert forall i :: 0 <= i < |f.olds| ==> f.All()[i] == f.olds[i];
    assert f.All()[|f.olds|] == f.latest;
    forall i | 0 <= i < |active| ensures 0 <= active[i].available && 0 <= active[i].spec {
      assert active[i] in active;
    }
    forall i | 0 <= i < |inactive| ensures 0 <= inactive[i].available && inactive[i].spec == 0 {
      assert inactive[i] in inactive;
    }
    NoHealthyWithoutSize(inactive);
    TotalOfAll(Surplus, f);
    AvailableSplits(inactive);
  }

  lemma {:induction false} NoHealthyWithoutSize(rss: seq<ReplicaSet>)
    requires forall i :: 0 <= i < |rss| ==> 0 <= rss[i].available && rss[i].spec == 0
    ensures Total(Healthy, rss) == 0
  {
    if rss != [] {
      NoHealthyWithoutSize(rss[1..]);
    }
  }

  /** Scaling the old ReplicaSets down takes the healthy pods no lower than the floor less the
      surplus that status reports. */
  lemma ReconcileOldFloor(f: Fleet, api: Api, d: Deployment)
    requires Plausible(f.All())
    ensures var p := ReconcileOld(f, api, d);
            && Plausible(p.rss)
            && Total(Healthy, p.rss) + Of(Healthy, f.latest)
               >= Min(Total(Healthy, f.All()), MinAvailable(d) - Total(Surplus, f.All()))
            && Total(Spec, p.rss) <= Total(Spec, Active(f.olds))
  {
    hide CleanupPass, ScaleDownOld, Sort, MinAvailable, Active, Inactive, Total, Plausible;
    var active := Active(f.olds);
    var sorted := Sort(ByCreation, active);
    TotalOfAll(Healthy, f);
    PartsArePlausible(f);
    AvailableSplits(active);
    SortKeepsPlausible(ByCreation, active);
    TotalSort(Spec, ByCreation, active);
    TotalSort(Healthy, ByCreation, active);
    TotalSort(Available, ByCreation, active);
    CleanupKeepsHealthy(sorted, 0, MaxScaledDown(f, d), 0, api, d);
    var c := CleanupPass(sorted, 0, MaxScaledDown(f, d), 0, api, d);
    ScaleDownOldFloor(c.rss, f.latest, c.api, d);
  }

  /** The availability floor: whichever write is refused and whatever status reports, a
      reconcile takes the healthy pods no lower than where they were, or than the floor less
      the surplus, the available pods reported beyond the sizes.  From sound status the surplus
      is zero and the floor itself holds. */
  lemma ReconcileKeepsFloor(f: Fleet, api: Api, d: Deployment)
    requires Plausible(f.All()) && Valid(d)
    ensures var g := Reconcile(f, api, d).fleet;
            && Total(Healthy, g.All()) >= Min(Total(Healthy, f.All()), MinAvailable(d) - Total(Surplus, f.All()))
            && (Sound(f.All()) ==> Total(Surplus, f.All()) == 0)
  {
    hide ReconcileOld, Sort, Active, Inactive, Total, NewRSNewReplicas, Strategy.MaxSurge, Strategy.MaxUnavailable,
         Strategy.Valid;
    var r := Reconcile(f, api, d);
    PartsArePlausible(f);
    ReconcileOldFloor(f, api, d);
    AvailableSplits(f.All());
    FencepostsLeaveSlack(d);
    GrowthIsBounded(d, Total(Spec, f.All()), Min(f.latest.spec, d.replicas));
    TotalOfAll(Healthy, f);
    HealthyIsNonNegative(Active(f.olds));
    TotalOfAll(Healthy, r.fleet);
    TotalSnoc(Healthy, r.fleet.olds, r.fleet.latest);
    TotalConcat(Healthy, ReconcileOld(f, api, d).rss, Inactive(f.olds));
  }

  lemma {:induction false} HealthyIsNonNegative(rss: seq<ReplicaSet>)
    requires Plausible(rss)
    ensures Total(Healthy, rss) >= 0
  {
    if rss != [] {
      HealthyIsNonNegative(rss[1..]);
    }
  }

  /** The surge ceiling: a reconcile raises the total size no higher than the ceiling, or than
      where it was, and the new ReplicaSet no higher than the desired size; no size turns
      negative. */
  lemma ReconcileKeepsCeiling(f: Fleet, api: Api, d: Deployment)
    requires Plausible(f.All()) && Valid(d)
    ensures var g := Reconcile(f, api, d).fleet;
            && Total(Spec, g.All()) <= Max(Total(Spec, f.All()), MaxTotal(d))
            && g.latest.spec <= Max(f.latest.spec, d.replicas)
            && Plausible(g.All())
  {
    hide ReconcileOld, Sort, Active, Inactive, Total, NewRSNewReplicas, Strategy.MaxSurge, Strategy.MaxUnavailable,
         Strategy.Valid;
    var r := Reconcile(f, api, d);
    PartsArePlausible(f);
    ReconcileOldFloor(f, api, d);
    FencepostsLeaveSlack(d);
    GrowthIsBounded(d, Total(Spec, f.All()), Min(f.latest.spec, d.replicas));
    TotalOfAll(Spec, f);
    TotalSnoc(Spec, r.fleet.olds, r.fleet.latest);
    TotalConcat(Spec, ReconcileOld(f, api, d).rss, Inactive(f.olds));
    assert f.All()[|f.olds|] == f.latest && forall i :: 0 <= i < |f.olds| ==> f.All()[i] == f.olds[i];
  }

  /** How far a rolling update is from its end. */
  function Distance(f: Fleet, d: Deployment): int {
    (if f.latest.spec <= d.replicas then d.replicas - f.latest.spec else f.latest.spec - d.replicas)
    + Total(Spec, f.olds)
  }

  predicate Finished(f: Fleet, d: Deployment) {
    f.latest.spec == d.replicas && Total(Spec, f.olds) == 0
  }

  /** Progress: once the new ReplicaSet's pods are available, every reconcile whose writes
      all go through comes closer to the end, however unhealthy the old pods are. */
  lemma ReconcileComesCloser(f: Fleet, api: Api, d: Deployment)
    requires Sound(f.All()) && Valid(d) && f.latest.available == f.latest.spec
    requires api.budget >= 2 * |f.olds| + 1
    ensures var g := Reconcile(f, api, d).fleet;
            && 0 <= Distance(g, d)
            && (if Finished(f, d) then Finished(g, d) else Distance(g, d) < Distance(f, d))
  {
    hide ReconcileOld, Sort, Active, Inactive, Total, NewRSNewReplicas, Strategy.MaxSurge, Strategy.MaxUnavailable,
         Strategy.Valid;
    var g := Reconcile(f, api, d).fleet;
    PartsAreSound(f);
    SoundIsHealthy(f.olds);
    ReconcileOldBounds(f, api, d);
    FencepostsLeaveSlack(d);
    GrowthIsBounded(d, Total(Spec, f.All()), Min(f.latest.spec, d.replicas));
    TotalOfAll(Spec, f);
    TotalConcat(Spec, ReconcileOld(f, api, d).rss, Inactive(f.olds));
    SizedTotal(ReconcileOld(f, api, d).rss);
  }

  // ---------------------------------------------------------------- when the floor breaks

  /** From sound status and with no refused write, cleaning up ends at its limit or with no
      unhealthy pod left. */
  lemma {:induction false} CleanupFinishes(rss: seq<ReplicaSet>, i: nat, max: int, done: int, api: Api, d: Deployment)
    requires i <= |rss| && Sound(rss) && api.budget >= |rss| - i
    ensures var p := CleanupPass(rss, i, max, done, api, d);
            && (forall j :: 0 <= j < i ==> p.rss[j] == rss[j])
            && (p.scaled >= max || forall j :: i <= j < |rss| ==> p.rss[j].spec == p.rss[j].available)
    decreases |rss| - i
  {
    hide CleanupPass;
    if i < |rss| && done < max {
      var count := Min(max - done, rss[i].spec - rss[i].available);
      var updated := ScaledTo(rss[i], rss[i].spec - count, d);
      CleanupTurn(rss, i, max, done, api, d, count, updated);
      if rss[i].spec == 0 || rss[i].spec == rss[i].available {
        CleanupFinishes(rss, i + 1, max, done, api, d);
      } else {
        CleanupFinishes(rss[i := updated], i + 1, max, done + count, api.Put(rss[i], updated), d);
        CleanupBounds(rss[i := updated], i + 1, max, done + count, api.Put(rss[i], updated), d);
      }
    } else {
      CleanupStops(rss, i, max, done, api, d);
    }
  }

  lemma TotalFrom(rss: seq<ReplicaSet>, i: nat)
    requires i <= |rss| && Sized(rss)
    ensures if i == |rss| then Total(Spec, rss[i..]) == 0
            else Total(Spec, rss[i..]) == rss[i].spec + Total(Spec, rss[i + 1..])
    ensures i < |rss| ==> Total(Spec, rss[i + 1..]) >= 0
  {
    if i < |rss| {
      assert rss[i..] == [rss[i]] + rss[i + 1..];
      SizedTotal(rss[i + 1..]);
    }
  }

  /** Where every pod is available and no write is refused, scaling down costs a healthy pod for
      each pod of its quota, as far as there are any. */
  lemma {:induction false} ScaleDownCost(rss: seq<ReplicaSet>, i: nat, quota: int, done: int, api: Api, d: Deployment)
    requires i <= |rss| && Sized(rss) && api.budget >= |rss| - i
    requires forall j :: i <= j < |rss| ==> rss[j].spec == rss[j].available
    ensures Total(Healthy, ScaleDownPass(rss, i, quota, done, api, d).rss)
         == Total(Healthy, rss) - Max(0, Min(quota - done, Total(Spec, rss[i..])))
    decreases |rss| - i
  {
    hide ScaleDownPass, Total;
    TotalFrom(rss, i);
    if i < |rss| && done < quota {
      var count := Min(rss[i].spec, quota - done);
      var updated := ScaledTo(rss[i], rss[i].spec - count, d);
      ScaleDownTurn(rss, i, quota, done, api, d, count, updated);
      if rss[i].spec == 0 {
        ScaleDownCost(rss, i + 1, quota, done, api, d);
      } else {
        TotalUpdate(Healthy, rss, i, updated);
        assert rss[i := updated][i + 1..] == rss[i + 1..];
        ScaleDownCost(rss[i := updated], i + 1, quota, done + count, api.Put(rss[i], updated), d);
      }
    } else {
      ScaleDownStops(rss, i, quota, done, api, d);
    }
  }

  lemma ScaleDownOldCost(rss: seq<ReplicaSet>, latest: ReplicaSet, api: Api, d: Deployment)
    requires Sound(rss) && api.budget >= |rss|
    requires forall j :: 0 <= j < |rss| ==> rss[j].spec == rss[j].available
    ensures var available := Total(Available, rss);
            Total(Healthy, ScaleDownOld(rss, latest, api, d).rss)
            == available - Max(0, Min(available + latest.available - MinAvailable(d), available))
  {
    hide ScaleDownPass, Sort, MinAvailable, Total;
    var sorted := Sort(ByCreation, rss);
    SoundIsHealthy(rss);
    SameSpecAsAvailable(rss);
    SortPermutes(ByCreation, rss);
    SortKeepsSound(ByCreation, rss);
    TotalSort(Healthy, ByCreation, rss);
    TotalSort(Spec, ByCreation, rss);
    forall j | 0 <= j < |sorted| ensures sorted[j].spec == sorted[j].available {
      assert sorted[j] in rss;
    }
    assert sorted[0..] == sorted;
    ScaleDownCost(sorted, 0, Total(Available, rss) + latest.available - MinAvailable(d), 0, api, d);
  }

  /** What scaling the old ReplicaSets down leaves of their healthy pods: it spends everything
      available above the floor, whatever unhealthy pods it cleans up before. */
  lemma ReconcileOldCost(f: Fleet, api: Api, d: Deployment)
    requires Sound(f.olds) && Sized(f.All()) && api.budget >= 2 * |f.olds|
    ensures var available := Total(Available, f.olds);
            Total(Healthy, ReconcileOld(f, api, d).rss)
            == available - Max(0, Min(available + f.latest.available - MinAvailable(d), available))
  {
    hide CleanupPass, ScaleDownPass, Sort, MinAvailable, Active, Inactive, Total, Sound, Sized;
    var active := Active(f.olds);
    var sorted := Sort(ByCreation, active);
    var max := MaxScaledDown(f, d);
    OldPartsAreSound(f);
    SoundIsHealthy(active);
    if Total(Spec, active) != 0 && max > 0 {
      SortPermutes(ByCreation, active);
      SortKeepsSound(ByCreation, active);
      TotalSort(Spec, ByCreation, active);
      TotalSort(Available, ByCreation, active);
      CleanupBounds(sorted, 0, max, 0, api, d);
      CleanupFinishes(sorted, 0, max, 0, api, d);
      var c := CleanupPass(sorted, 0, max, 0, api, d);
      SoundIsHealthy(c.rss);
      if c.scaled < max {
        ScaleDownOldCost(c.rss, f.latest, c.api, d);
      }
    }
  }

  lemma OldPartsAreSound(f: Fleet)
    requires Sound(f.olds)
    ensures Sound(Active(f.olds))
    ensures Total(Available, Active(f.olds)) == Total(Available, f.olds)
    ensures Total(Spec, f.All()) == Total(Spec, Active(f.olds)) + f.latest.spec
    ensures Total(Healthy, f.All()) == Total(Available, f.olds) + Of(Healthy, f.latest)
    ensures Total(Healthy, Inactive(f.olds)) == 0
  {
    var active, inactive := Active(f.olds), Inactive(f.olds);
    forall i | 0 <= i < |active| ensures 0 <= active[i].available <= active[i].spec {
      assert active[i] in active;
    }
    forall i | 0 <= i < |inactive| ensures inactive[i].available == inactive[i].spec == 0 {
      assert inactive[i] in inactive;
    }
    EmptyTotal(Spec, inactive);
    EmptyTotal(Healthy, inactive);
    EmptyTotal(Available, inactive);
    TotalActive(Available, f.olds);
    TotalOfAll(Spec, f);
    TotalOfAll(Healthy, f);
    SoundIsHealthy(f.olds);
  }

  /** At whatever write it stops, it leaves at least that. */
  lemma ReconcileOldCostsNoMore(f: Fleet, api: Api, d: Deployment)
    requires Sound(f.olds)
    ensures var available := Total(Available, f.olds);
            Total(Healthy, ReconcileOld(f, api, d).rss)
            >= available - Max(0, Min(available + f.latest.available - MinAvailable(d), available))
  {
    hide CleanupPass, ScaleDownOld, Sort, MinAvailable, Active, Inactive, Total, Sound;
    var active := Active(f.olds);
    var sorted := Sort(ByCreation, active);
    OldPartsAreSound(f);
    SoundIsHealthy(active);
    SoundIsPlausible(active);
    SortKeepsSound(ByCreation, active);
    TotalSort(Available, ByCreation, active);
    SortPermutes(ByCreation, active);
    CleanupBounds(sorted, 0, MaxScaledDown(f, d), 0, api, d);
    var c := CleanupPass(sorted, 0, MaxScaledDown(f, d), 0, api, d);
    SoundIsHealthy(c.rss);
    SoundIsPlausible(c.rss);
    ScaleDownOldFloor(c.rss, f.latest, c.api, d);
    HealthyIsNonNegative(ScaleDownOld(c.rss, f.latest, c.api, d).rss);
  }

  lemma SoundIsPlausible(rss: seq<ReplicaSet>)
    requires Sound(rss)
    ensures Plausible(rss)
  {
  }

  /** The reconcile gets to the old ReplicaSets, the new one reports more available pods than its
      size, that size alone is below the floor, and the reported pods lie above it with an old
      one among them. */
  predicate Overspends(f: Fleet, d: Deployment) {
    && NewSize(f, d) == Some(f.latest.spec)
    && f.latest.spec < f.latest.available
    && f.latest.spec < MinAvailable(d)
    && 0 < Total(Available, f.olds)
    && Total(Available, f.olds) + f.latest.available > MinAvailable(d)
  }

  /** Exactly when a reconcile breaks the floor though the old ReplicaSets' status is sound. */
  lemma FloorBreaksIff(f: Fleet, api: Api, d: Deployment)
    requires Plausible(f.All()) && Sound(f.olds) && Valid(d) && api.budget >= 2 * |f.olds| + 1
    ensures Total(Healthy, Reconcile(f, api, d).fleet.All()) < Min(Total(Healthy, f.All()), MinAvailable(d))
       <==> Overspends(f, d)
  {
    hide ReconcileOld, Active, Inactive, Total, NewRSNewReplicas, Strategy.MaxSurge, Strategy.MaxUnavailable,
         Strategy.Valid;
    LatestKeepsFloor(f, api, d);
    if NewSize(f, d) == Some(f.latest.spec) {
      var g := Reconcile(f, api, d).fleet;
      ReconcileOldCost(f, api, d);
      OldPartsAreSound(f);
      SoundIsHealthy(f.olds);
      TotalOfAll(Healthy, g);
      TotalConcat(Healthy, ReconcileOld(f, api, d).rss, Inactive(f.olds));
    }
  }

  /** Otherwise it keeps the floor, wherever it is cut short. */
  lemma ThriftKeepsFloor(f: Fleet, api: Api, d: Deployment)
    requires Plausible(f.All()) && Sound(f.olds) && Valid(d) && !Overspends(f, d)
    ensures Total(Healthy, Reconcile(f, api, d).fleet.All()) >= Min(Total(Healthy, f.All()), MinAvailable(d))
  {
    hide ReconcileOld, Active, Inactive, Total, NewRSNewReplicas, Strategy.MaxSurge, Strategy.MaxUnavailable,
         Strategy.Valid;
    LatestKeepsFloor(f, api, d);
    if NewSize(f, d) == Some(f.latest.spec) {
      var g := Reconcile(f, api, d).fleet;
      ReconcileOldCostsNoMore(f, api, d);
      OldPartsAreSound(f);
      SoundIsHealthy(f.olds);
      TotalOfAll(Healthy, g);
      TotalConcat(Healthy, ReconcileOld(f, api, d).rss, Inactive(f.olds));
    }
  }

  /** Resizing the new ReplicaSet costs no healthy pod below the desired size. */
  lemma LatestKeepsFloor(f: Fleet, api: Api, d: Deployment)
    requires Plausible(f.All()) && Sound(f.olds) && Valid(d)
    ensures NewSize(f, d) != Some(f.latest.spec) ==>
              Total(Healthy, Reconcile(f, api, d).fleet.All()) >= Min(Total(Healthy, f.All()), MinAvailable(d))
    ensures Sized(f.All())
  {
    hide ReconcileOld, Total, NewRSNewReplicas, Strategy.MaxSurge, Strategy.MaxUnavailable, Strategy.Valid;
    FencepostsLeaveSlack(d);
    GrowthIsBounded(d, Total(Spec, f.All()), Min(f.latest.spec, d.replicas));
    SoundIsHealthy(f.olds);
    TotalOfAll(Healthy, f);
    TotalOfAll(Healthy, Reconcile(f, api, d).fleet);
    assert f.All()[|f.olds|] == f.latest;
  }

  /** The surplus is really lost: with a stale count of available pods on the new ReplicaSet,
      one reconcile takes the healthy pods below the floor by exactly that much. */
  lemma FloorNeedsSoundStatus() returns (f: Fleet, d: Deployment)
    ensures Valid(d) && Sound(f.olds) && f.latest.available > f.latest.spec
    ensures Total(Healthy, f.All()) >= MinAvailable(d)
    ensures Total(Surplus, f.All()) == 3
    ensures Total(Healthy, Reconcile(f, Api(9, []), d).fleet.All()) == MinAvailable(d) - Total(Surplus, f.All())
  {
    d := Deployment(10, RollingUpdate, Some(Count(0)), Some(Count(2)), 0, None);
    var old_ := ReplicaSet(0, 0, 5, 5, 5, true, false, None, None, Absent);
    f := Fleet([old_], ReplicaSet(1, 1, 5, 8, 8, true, false, None, None, Absent));
    var api := Api(9, []);
    assert f.All() == [old_, f.latest];
    TotalOfTwo(Spec, old_, f.latest);
    TotalOfTwo(Healthy, old_, f.latest);
    TotalOfTwo(Surplus, old_, f.latest);
    assert Total(Spec, f.All()) == 10 && Total(Healthy, f.All()) == 10;
    assert Active(f.olds) == [old_] && Sort(ByCreation, [old_]) == [old_];
    assert MaxScaledDown(f, d) == 5;
    CleanupTurn([old_], 0, 5, 0, api, d, 0, ScaledTo(old_, 5, d));
    assert CleanupPass([old_], 0, 5, 0, api, d) == Pass([old_], 0, api, false);
    assert Total(Available, [old_]) == 5;
    var gone := ScaledTo(old_, 0, d);
    ScaleDownTurn([old_], 0, 5, 0, api, d, 5, gone);
    assert ScaleDownOld([old_], f.latest, api, d).rss == [gone];
    assert NewSize(f, d) == Some(5) && Inactive(f.olds) == [];
    assert Active(f.olds) == [old_] && Total(Spec, Active(f.olds)) == 5;
    assert ReconcileOld(f, api, d).rss == [gone];
    assert Reconcile(f, api, d).fleet.All() == [gone, f.latest];
    TotalOfTwo(Healthy, gone, f.latest);
  }

  lemma TotalOfTwo(q: Quantity, a: ReplicaSet, b: ReplicaSet)
    ensures Total(q, [a, b]) == Of(q, a) + Of(q, b)
  {
    assert [a, b][1..] == [b];
    assert Total(q, [b]) == Of(q, b);
  }

  // ---------------------------------------------------------------- whole runs

  /** What can happen to a Deployment's ReplicaSets.  Positions count the old ReplicaSets
      first and the new one last; an event that does not apply changes nothing. */
  datatype Event =
    | Sync(budget: nat)                // a reconcile, with this many writes accepted
    | PodReady(k: nat)                 // a pod becomes available
    | PodLost(k: nat)                  // an available pod fails
    | PodsDeleted(k: nat)              // the ReplicaSet controller deletes down to the size, unavailable pods first
    | RollOver(k: nat)                 // the template goes back to that of an old ReplicaSet
    | NewTemplate(name: int, now: int) // the template changes and a ReplicaSet is created for it
    | Pruned(k: nat)                   // history cleanup deletes a drained ReplicaSet

  function WithAvailable(f: Fleet, k: nat, available: int): Fleet
    requires k <= |f.olds|
  {
    if k == |f.olds| then f.(latest := f.latest.(available := available))
    else f.(olds := f.olds[k := f.olds[k].(available := available)])
  }

  /** The ReplicaSet getNewReplicaSet creates beside the existing ones. */
  function Created(f: Fleet, name: int, now: int, d: Deployment): ReplicaSet {
    var size := NewRSNewReplicas(d, Total(Spec, f.All()), 0).GetOr(0);
    ReplicaSet(name, now, size, 0, 0, false, false, Some(d.replicas), Some(MaxTotal(d)), Absent)
  }

  function Step(f: Fleet, e: Event, d: Deployment): Fleet {
    match e
    case Sync(budget) => Reconcile(f, Api(budget, []), d).fleet
    case PodReady(k) => if k <= |f.olds| then WithAvailable(f, k, f.All()[k].available + 1) else f
    case PodLost(k) =>
      if k <= |f.olds| && f.All()[k].available > 0 then WithAvailable(f, k, f.All()[k].available - 1) else f
    case PodsDeleted(k) =>
      if k <= |f.olds| then WithAvailable(f, k, Min(f.All()[k].available, f.All()[k].spec)) else f
    case RollOver(k) => if k < |f.olds| then Fleet(f.olds[k := f.latest], f.olds[k]) else f
    case NewTemplate(name, now) => Fleet(f.All(), Created(f, name, now, d))
    case Pruned(k) =>
      if k < |f.olds| && f.olds[k].spec == 0 && f.olds[k].available == 0
      then f.(olds := f.olds[..k] + f.olds[k + 1..]) else f
  }

  /** Each reconcile of the run starts from sound status. */
  ghost predicate Legal(f: Fleet, run: seq<Event>, d: Deployment)
    decreases run
  {
    run == [] || ((run[0].Sync? ==> Sound(f.All())) && Legal(Step(f, run[0], d), run[1..], d))
  }

  /** The largest surplus a reconcile of the run starts from. */
  function WorstSurplus(f: Fleet, run: seq<Event>, d: Deployment): int
    decreases run
  {
    if run == [] then 0
    else Max(if run[0].Sync? then Total(Surplus, f.All()) else 0, WorstSurplus(Step(f, run[0], d), run[1..], d))
  }

  function Run(f: Fleet, run: seq<Event>, d: Deployment): Fleet
    decreases run
  {
    if run == [] then f else Run(Step(f, run[0], d), run[1..], d)
  }

  function PodsLost(run: seq<Event>): nat {
    if run == [] then 0 else (if run[0].PodLost? then 1 else 0) + PodsLost(run[1..])
  }

  lemma TotalWithAvailable(q: Quantity, f: Fleet, k: nat, available: int)
    requires k <= |f.olds|
    ensures Total(q, WithAvailable(f, k, available).All())
         == Total(q, f.All()) - Of(q, f.All()[k]) + Of(q, f.All()[k].(available := available))
  {
    var rs := f.All()[k].(available := available);
    assert WithAvailable(f, k, available).All() == f.All()[k := rs];
    TotalUpdate(q, f.All(), k, rs);
  }

  lemma TotalSwapped(q: Quantity, f: Fleet, k: nat)
    requires k < |f.olds|
    ensures Total(q, Fleet(f.olds[k := f.latest], f.olds[k]).All()) == Total(q, f.All())
  {
    TotalUpdate(q, f.olds, k, f.latest);
    TotalSnoc(q, f.olds, f.latest);
    TotalSnoc(q, f.olds[k := f.latest], f.olds[k]);
  }

  lemma TotalPruned(q: Quantity, f: Fleet, k: nat)
    requires k < |f.olds|
    ensures Total(q, f.(olds := f.olds[..k] + f.olds[k + 1..]).All()) == Total(q, f.All()) - Of(q, f.olds[k])
  {
    var before, after := f.olds[..k], f.olds[k + 1..];
    assert f.olds == before + [f.olds[k]] + after;
    TotalSnoc(q, before, f.olds[k]);
    TotalConcat(q, before + [f.olds[k]], after);
    TotalConcat(q, before, after);
    TotalSnoc(q, f.olds, f.latest);
    TotalSnoc(q, before + after, f.latest);
  }

  lemma TotalAfterStep(q: Quantity, f: Fleet, e: Event, d: Deployment)
    requires !e.Sync? && !e.NewTemplate?
    ensures Total(Spec, Step(f, e, d).All()) == Total(Spec, f.All())
    ensures Total(Healthy, Step(f, e, d).All()) >= Total(Healthy, f.All()) - if e.PodLost? then 1 else 0
  {
    hide Total;
    match e
    case Sync(_) =>
    case NewTemplate(_, _) =>
    case PodReady(k) =>
      if k <= |f.olds| {
        TotalWithAvailable(Spec, f, k, f.All()[k].available + 1);
        TotalWithAvailable(Healthy, f, k, f.All()[k].available + 1);
      }
    case PodLost(k) =>
      if k <= |f.olds| {
        TotalWithAvailable(Spec, f, k, f.All()[k].available - 1);
        TotalWithAvailable(Healthy, f, k, f.All()[k].available - 1);
      }
    case PodsDeleted(k) =>
      if k <= |f.olds| {
        TotalWithAvailable(Spec, f, k, Min(f.All()[k].available, f.All()[k].spec));
        TotalWithAvailable(Healthy, f, k, Min(f.All()[k].available, f.All()[k].spec));
      }
    case RollOver(k) =>
      if k < |f.olds| {
        TotalSwapped(Spec, f, k);
        TotalSwapped(Healthy, f, k);
      }
    case Pruned(k) =>
      if k < |f.olds| {
        TotalPruned(Spec, f, k);
        TotalPruned(Healthy, f, k);
      }
  }

  lemma NewTemplateGrowth(f: Fleet, name: int, now: int, d: Deployment)
    requires Valid(d)
    ensures var g := Step(f, NewTemplate(name, now), d);
            && Total(Spec, g.All()) <= Max(Total(Spec, f.All()), MaxTotal(d))
            && 0 <= g.latest.spec <= d.replicas
            && Total(Healthy, g.All()) == Total(Healthy, f.All())
  {
    hide Total, NewRSNewReplicas;
    var g := Step(f, NewTemplate(name, now), d);
    GrowthIsBounded(d, Total(Spec, f.All()), 0);
    TotalSnoc(Spec, f.All(), g.latest);
    TotalSnoc(Healthy, f.All(), g.latest);
  }

  lemma StepIsPlausible(f: Fleet, e: Event, d: Deployment)
    requires Valid(d) && Plausible(f.All())
    ensures Plausible(Step(f, e, d).All())
  {
    hide Reconcile, Strategy.Valid, NewRSNewReplicas, Total;
    assert f.All()[|f.olds|] == f.latest && forall i :: 0 <= i < |f.olds| ==> f.All()[i] == f.olds[i];
    if e.Sync? {
      ReconcileKeepsCeiling(f, Api(e.budget, []), d);
    } else if e.NewTemplate? {
      NewTemplateGrowth(f, e.name, e.now, d);
    }
  }

  /** Availability over every run: however reconciles, pod events, roll-overs and refused
      writes interleave and whatever status reports, the healthy pods stay at where the run
      started, or at the floor less the worst surplus a reconcile starts from, less only the
      pods that failed by themselves. */
  lemma {:induction false} RunKeepsFloor(f: Fleet, run: seq<Event>, d: Deployment)
    requires Valid(d) && Plausible(f.All())
    ensures Total(Healthy, Run(f, run, d).All())
         >= Min(Total(Healthy, f.All()), MinAvailable(d) - WorstSurplus(f, run, d)) - PodsLost(run)
    decreases run
  {
    hide Total, Reconcile, MinAvailable, Strategy.Valid, Plausible;
    if run != [] {
      StepIsPlausible(f, run[0], d);
      match run[0] {
      case Sync(budget) =>
        ReconcileKeepsFloor(f, Api(budget, []), d);
        assert Step(f, run[0], d) == Reconcile(f, Api(budget, []), d).fleet;
      case NewTemplate(name, now) => NewTemplateGrowth(f, name, now, d);
      case _ => TotalAfterStep(Healthy, f, run[0], d);
      }
      RunKeepsFloor(Step(f, run[0], d), run[1..], d);
    }
  }

  /** Each reconcile of the run starts from sound status of the old ReplicaSets and does not
      overspend. */
  ghost predicate Thrifty(f: Fleet, run: seq<Event>, d: Deployment)
    decreases run
  {
    run == []
    || ((run[0].Sync? ==> Sound(f.olds) && !Overspends(f, d)) && Thrifty(Step(f, run[0], d), run[1..], d))
  }

  /** The exact condition over every run: while no reconcile starts where it would overspend, the
      floor itself holds, whatever surplus the new ReplicaSet reports and whichever writes are
      refused. */
  lemma {:induction false} ThriftyRunKeepsFloor(f: Fleet, run: seq<Event>, d: Deployment)
    requires Valid(d) && Plausible(f.All()) && Thrifty(f, run, d)
    ensures Total(Healthy, Run(f, run, d).All())
         >= Min(Total(Healthy, f.All()), MinAvailable(d)) - PodsLost(run)
    decreases run
  {
    hide Total, Reconcile, MinAvailable, Overspends, Strategy.Valid, Plausible, Sound;
    if run != [] {
      StepIsPlausible(f, run[0], d);
      match run[0] {
      case Sync(budget) =>
        ThriftKeepsFloor(f, Api(budget, []), d);
        assert Step(f, run[0], d) == Reconcile(f, Api(budget, []), d).fleet;
      case NewTemplate(name, now) => NewTemplateGrowth(f, name, now, d);
      case _ => TotalAfterStep(Healthy, f, run[0], d);
      }
      ThriftyRunKeepsFloor(Step(f, run[0], d), run[1..], d);
    }
  }

  /** In a run whose reconciles all start from sound status, the floor itself holds. */
  lemma SoundRunKeepsFloor(f: Fleet, run: seq<Event>, d: Deployment)
    requires Valid(d) && Plausible(f.All()) && Legal(f, run, d)
    ensures Total(Healthy, Run(f, run, d).All())
         >= Min(Total(Healthy, f.All()), MinAvailable(d)) - PodsLost(run)
  {
    hide Total, MinAvailable, Strategy.Valid, Plausible, Run;
    RunKeepsFloor(f, run, d);
    SoundRunHasNoSurplus(f, run, d);
  }

  lemma {:induction false} SoundRunHasNoSurplus(f: Fleet, run: seq<Event>, d: Deployment)
    requires Legal(f, run, d)
    ensures WorstSurplus(f, run, d) == 0
    decreases run
  {
    hide Total, Step;
    if run != [] {
      AvailableSplits(f.All());
      SoundRunHasNoSurplus(Step(f, run[0], d), run[1..], d);
    }
  }

  /** Surge over every run: the total size never rises above the ceiling, or above where the
      run started. */
  lemma {:induction false} RunKeepsCeiling(f: Fleet, run: seq<Event>, d: Deployment)
    requires Valid(d) && Plausible(f.All())
    ensures Total(Spec, Run(f, run, d).All()) <= Max(Total(Spec, f.All()), MaxTotal(d))
    decreases run
  {
    hide Total, Reconcile, MaxTotal, Strategy.Valid, Plausible;
    if run != [] {
      StepIsPlausible(f, run[0], d);
      match run[0] {
      case Sync(budget) =>
        ReconcileKeepsCeiling(f, Api(budget, []), d);
        assert Step(f, run[0], d) == Reconcile(f, Api(budget, []), d).fleet;
      case NewTemplate(name, now) => NewTemplateGrowth(f, name, now, d);
      case _ => TotalAfterStep(Spec, f, run[0], d);
      }
      RunKeepsCeiling(Step(f, run[0], d), run[1..], d);
    }
  }

  // ---------------------------------------------------------------- in the terms of the user

  /** The count, or the percentage of `total`, allows for n pods: all of them, or all but a part
      of the last. */
  ghost predicate Allows(v: IntOrPercent, total: int, n: int) {
    match v
    case Count(count) => n <= count
    case Percent(p) => 100 * n <= p * total
    case Malformed => false
  }

  ghost predicate AllowsPartly(v: IntOrPercent, total: int, n: int) {
    match v
    case Count(count) => n <= count
    case Percent(p) => 100 * (n - 1) < p * total
    case Malformed => false
  }

  /** maxUnavailable means what it says over every run: not counting the pods that failed by
      themselves, no more pods are missing than were at the start, or than the percentage
      allows; save for the one pod when that and the surge both come to nothing. */
  lemma RunKeepsMaxUnavailable(f: Fleet, run: seq<Event>, d: Deployment)
    requires Valid(d) && Plausible(f.All()) && Thrifty(f, run, d)
    ensures var missing := d.replicas - Total(Healthy, Run(f, run, d).All()) - PodsLost(run);
            || missing <= d.replicas - Total(Healthy, f.All())
            || Allows(d.maxUnavailable.value, d.replicas, missing)
            || (&& missing <= 1 && RoundedUp(d.maxSurge.value, d.replicas, 0)
                && RoundedDown(d.maxUnavailable.value, d.replicas, 0))
  {
    hide Total, Run, Thrifty, Plausible, MinAvailable, MaxUnavailable, MaxSurge, MaxTotal;
    ThriftyRunKeepsFloor(f, run, d);
    var _, _ := FencepostsRound(d);
  }

  /** So does maxSurge. */
  lemma RunKeepsMaxSurge(f: Fleet, run: seq<Event>, d: Deployment)
    requires Valid(d) && Plausible(f.All())
    ensures var extra := Total(Spec, Run(f, run, d).All()) - d.replicas;
            || extra <= Total(Spec, f.All()) - d.replicas
            || AllowsPartly(d.maxSurge.value, d.replicas, extra)
  {
    hide Total, Run, Plausible, MinAvailable, MaxUnavailable, MaxSurge, MaxTotal;
    RunKeepsCeiling(f, run, d);
    var _, _ := FencepostsRound(d);
  }

  // ---------------------------------------------------------------- the end of a rolling update

  /** Between two reconciles pods come and go, sizes stay, and the new ReplicaSet's pods
      become available. */
  ghost predicate Settled(f: Fleet, g: Fleet) {
    && |f.olds| == |g.olds|
    && (forall i :: 0 <= i < |f.olds| ==> f.olds[i].spec == g.olds[i].spec)
    && f.latest.spec == g.latest.spec == g.latest.available
    && Sound(g.All())
  }

  /** `fleets` are the fleets found by successive reconciles, each meeting no refused write. */
  ghost predicate Rounds(fleets: seq<Fleet>, d: Deployment) {
    && fleets != [] && Settled(fleets[0], fleets[0])
    && forall i :: 0 <= i < |fleets| - 1 ==>
         Settled(Reconcile(fleets[i], Api(2 * |fleets[i].olds| + 1, []), d).fleet, fleets[i + 1])
  }

  lemma {:induction false} SameSizesSameTotal(a: seq<ReplicaSet>, b: seq<ReplicaSet>)
    requires |a| == |b| && forall i :: 0 <= i < |a| ==> a[i].spec == b[i].spec
    ensures Total(Spec, a) == Total(Spec, b)
  {
    if a != [] {
      assert forall i :: 0 <= i < |a[1..]| ==> a[1..][i].spec == b[1..][i].spec;
      SameSizesSameTotal(a[1..], b[1..]);
    }
  }

  /** Every rolling update ends: after as many rounds as the distance it began with, the new
      ReplicaSet has the desired size and no old pod is left; and it stays so. */
  lemma {:induction false} RollingUpdateFinishes(fleets: seq<Fleet>, d: Deployment)
    requires Valid(d) && Rounds(fleets, d)
    requires |fleets| > Distance(fleets[0], d)
    ensures Finished(fleets[|fleets| - 1], d)
  {
    DistanceFalls(fleets, |fleets| - 1, d);
  }

  lemma {:induction false} DistanceFalls(fleets: seq<Fleet>, n: nat, d: Deployment)
    requires Valid(d) && Rounds(fleets, d) && n < |fleets|
    ensures Settled(fleets[n], fleets[n])
    ensures 0 <= Distance(fleets[n], d)
    ensures Distance(fleets[n], d) == 0 ==> Finished(fleets[n], d)
    ensures Finished(fleets[n], d) || Distance(fleets[n], d) <= Distance(fleets[0], d) - n
  {
    hide Total, Reconcile, Strategy.Valid;
    var f := fleets[n];
    assert forall i :: 0 <= i < |f.olds| ==> f.All()[i] == f.olds[i];
    if n > 0 {
      DistanceFalls(fleets, n - 1, d);
      var e := fleets[n - 1];
      var api := Api(2 * |e.olds| + 1, []);
      assert Settled(Reconcile(e, api, d).fleet, fleets[n - 1 + 1]);
      ReconcileComesCloser(e, api, d);
      SameSizesSameTotal(Reconcile(e, api, d).fleet.olds, f.olds);
    }
    SizedTotal(f.olds);
  }
}
