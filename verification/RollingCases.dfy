/** One reconcile of a rolling update, told by sizes, counts and times: which ReplicaSet is
    written, how many pods go, and whose. */
module RollingCases {
  import opened Common
  import opened ReplicaSets
  import opened Strategy
  import opened Rolling
  import opened RollingRuns

  // ---------------------------------------------------------------- the new ReplicaSet first

  /** The size the new ReplicaSet is to have: the desired one, or less when the surge, rounded up
      to `surge` pods, leaves no room. */
  function Wanted(f: Fleet, d: Deployment, surge: int): int {
    var total := Total(Spec, f.All());
    if f.latest.spec >= d.replicas then d.replicas
    else if total >= d.replicas + surge then f.latest.spec
    else Min(d.replicas, f.latest.spec + d.replicas + surge - total)
  }

  /** A write changes a size, and says what it was made for; nothing else. */
  predicate Resizes(w: Write, d: Deployment, surge: int) {
    w.updated == w.copy.(spec := w.updated.spec, desired := Some(d.replicas), maxReplicas := Some(d.replicas + surge))
  }

  /** While the new ReplicaSet is not at the size it is to have, that is the only write; only
      then are old ones written, and they only shrink. */
  lemma NewGoesFirst(f: Fleet, budget: nat, d: Deployment, surge: int)
    requires Valid(d) && RoundedUp(d.maxSurge.value, d.replicas, surge)
    ensures var o, size := Reconcile(f, Api(budget, []), d), Wanted(f, d, surge);
            if size != f.latest.spec then
              if budget == 0 then o == Outcome(f, Api(0, []))
              else && |o.api.log| == 1 && o.api.log[0].copy == f.latest && o.fleet == f.(latest := o.api.log[0].updated)
                   && o.fleet.latest.spec == size && Resizes(o.api.log[0], d, surge)
            else && o.fleet.latest == f.latest
                 && forall w :: w in o.api.log ==> Resizes(w, d, surge) && w.updated.spec <= w.copy.spec
    ensures var o := Reconcile(f, Api(budget, []), d); o.api.budget + |o.api.log| == budget
  {
    hide Total, ReconcileOld, RoundedUp, RoundedDown, MaxSurge, MaxUnavailable, Active, Inactive;
    var s, _ := FencepostsRound(d);
    RoundingIsUnique(d.maxSurge.value, d.replicas, s, surge);
    GrowthIsBounded(d, Total(Spec, f.All()), Min(f.latest.spec, d.replicas));
    OldWritesShrink(f, Api(budget, []), d, surge);
  }

  ghost predicate Shrinking(log: seq<Write>, d: Deployment, surge: int) {
    forall w :: w in log ==> Resizes(w, d, surge) && w.updated.spec <= w.copy.spec
  }

  /** Every accepted write was one of those the server grants. */
  predicate Spends(before: Api, after: Api) {
    after.budget + |after.log| == before.budget + |before.log|
  }

  lemma PutShrinks(api: Api, copy: ReplicaSet, size: int, d: Deployment, surge: int)
    requires api.budget > 0 && Shrinking(api.log, d, surge) && size <= copy.spec && MaxTotal(d) == d.replicas + surge
    ensures Shrinking(api.Put(copy, ScaledTo(copy, size, d)).log, d, surge)
    ensures Spends(api, api.Put(copy, ScaledTo(copy, size, d)))
  {
  }

  lemma {:induction false} CleanupShrinks(rss: seq<ReplicaSet>, i: nat, max: int, done: int, api: Api, d: Deployment, surge: int)
    requires i <= |rss| && Shrinking(api.log, d, surge) && MaxTotal(d) == d.replicas + surge
    ensures var p := CleanupPass(rss, i, max, done, api, d); Shrinking(p.api.log, d, surge) && Spends(api, p.api)
    decreases |rss| - i
  {
    hide Shrinking, CleanupPass, ScaledTo, MaxTotal;
    if i < |rss| && done < max {
      var count := Min(max - done, rss[i].spec - rss[i].available);
      var updated := ScaledTo(rss[i], rss[i].spec - count, d);
      CleanupTurn(rss, i, max, done, api, d, count, updated);
      if rss[i].spec == 0 || rss[i].spec == rss[i].available {
        CleanupShrinks(rss, i + 1, max, done, api, d, surge);
      } else if count >= 0 && api.budget > 0 {
        PutShrinks(api, rss[i], rss[i].spec - count, d, surge);
        CleanupShrinks(rss[i := updated], i + 1, max, done + count, api.Put(rss[i], updated), d, surge);
      }
    } else {
      CleanupStops(rss, i, max, done, api, d);
    }
  }

  lemma {:induction false} ScaleDownShrinks(rss: seq<ReplicaSet>, i: nat, quota: int, done: int, api: Api, d: Deployment,
                                            surge: int)
    requires i <= |rss| && Shrinking(api.log, d, surge) && MaxTotal(d) == d.replicas + surge
    ensures var p := ScaleDownPass(rss, i, quota, done, api, d); Shrinking(p.api.log, d, surge) && Spends(api, p.api)
    decreases |rss| - i
  {
    hide Shrinking, ScaleDownPass, ScaledTo, MaxTotal;
    if i < |rss| && done < quota {
      var count := Min(rss[i].spec, quota - done);
      var updated := ScaledTo(rss[i], rss[i].spec - count, d);
      ScaleDownTurn(rss, i, quota, done, api, d, count, updated);
      if rss[i].spec == 0 {
        ScaleDownShrinks(rss, i + 1, quota, done, api, d, surge);
      } else if count >= 0 && api.budget > 0 {
        PutShrinks(api, rss[i], rss[i].spec - count, d, surge);
        ScaleDownShrinks(rss[i := updated], i + 1, quota, done + count, api.Put(rss[i], updated), d, surge);
      }
    } else {
      ScaleDownStops(rss, i, quota, done, api, d);
    }
  }

  lemma OldWritesShrink(f: Fleet, api: Api, d: Deployment, surge: int)
    requires api.log == [] && MaxTotal(d) == d.replicas + surge
    ensures var p := ReconcileOld(f, api, d); Shrinking(p.api.log, d, surge) && Spends(api, p.api)
  {
    hide CleanupPass, ScaleDownPass, Sort, Total, Active, MaxTotal, MinAvailable;
    var active := Active(f.olds);
    var sorted := Sort(ByCreation, active);
    SortPermutes(ByCreation, active);
    CleanupShrinks(sorted, 0, MaxScaledDown(f, d), 0, api, d, surge);
    var c := CleanupPass(sorted, 0, MaxScaledDown(f, d), 0, api, d);
    SortPermutes(ByCreation, c.rss);
    var quota := Total(Available, c.rss) + f.latest.available - MinAvailable(d);
    ScaleDownShrinks(Sort(ByCreation, c.rss), 0, quota, 0, c.api, d, surge);
  }

  // ---------------------------------------------------------------- how many old pods go

  lemma {:induction false} ScaleDownCounts(rss: seq<ReplicaSet>, i: nat, quota: int, done: int, api: Api, d: Deployment)
    requires i <= |rss| && Sized(rss) && api.budget >= |rss| - i
    ensures ScaleDownPass(rss, i, quota, done, api, d).scaled
         == done + Max(0, Min(quota - done, Total(Spec, rss[i..])))
    decreases |rss| - i
  {
    hide ScaleDownPass, Total;
    TotalFrom(rss, i);
    if i < |rss| && done < quota {
      var count := Min(rss[i].spec, quota - done);
      var updated := ScaledTo(rss[i], rss[i].spec - count, d);
      ScaleDownTurn(rss, i, quota, done, api, d, count, updated);
      if rss[i].spec == 0 {
        ScaleDownCounts(rss, i + 1, quota, done, api, d);
      } else {
        assert rss[i := updated][i + 1..] == rss[i + 1..];
        ScaleDownCounts(rss[i := updated], i + 1, quota, done + count, api.Put(rss[i], updated), d);
      }
    } else {
      ScaleDownStops(rss, i, quota, done, api, d);
    }
  }

  lemma ScaleDownOldCounts(rss: seq<ReplicaSet>, latest: ReplicaSet, api: Api, d: Deployment)
    requires Sized(rss) && api.budget >= |rss|
    ensures var quota := Total(Available, rss) + latest.available - MinAvailable(d);
            var p := ScaleDownOld(rss, latest, api, d);
            && p.scaled == Max(0, Min(quota, Total(Spec, rss))) && !p.failed
            && Total(Spec, p.rss) == Total(Spec, rss) - p.scaled
  {
    hide ScaleDownPass, Sort, MinAvailable, Total;
    var sorted := Sort(ByCreation, rss);
    var quota := Total(Available, rss) + latest.available - MinAvailable(d);
    SortPermutes(ByCreation, rss);
    SortKeepsSound(ByCreation, rss);
    TotalSort(Spec, ByCreation, rss);
    assert sorted[0..] == sorted;
    ScaleDownCounts(sorted, 0, quota, 0, api, d);
    ScaleDownBounds(sorted, 0, quota, 0, api, d);
    SizedTotal(sorted);
  }

  /** From sound status and with no refused write: as many unhealthy pods go as there are, or as
      the limit allows, which is everything above the floor that the new ReplicaSet's missing
      pods do not use up; and then everything available above the floor. */
  lemma OldPodsThatGo(f: Fleet, api: Api, d: Deployment)
    requires Sound(f.olds) && Sized(f.All()) && api.budget >= 2 * |f.olds|
    ensures var spec, available := Total(Spec, f.olds), Total(Available, f.olds);
            var unhealthy := Max(0, Min(spec - available, spec + f.latest.available - MinAvailable(d)));
            var spare := Max(0, Min(available + f.latest.available - MinAvailable(d), spec - unhealthy));
            var p := ReconcileOld(f, api, d);
            Total(Spec, p.rss) == spec - unhealthy - spare && !p.failed && p.scaled == unhealthy + spare
  {
    hide CleanupPass, ScaleDownOld, Sort, MinAvailable, Active, Inactive, Total, Sound, Sized;
    var active := Active(f.olds);
    var sorted := Sort(ByCreation, active);
    var max := MaxScaledDown(f, d);
    OldPartsAreSound(f);
    SoundIsHealthy(active);
    SoundIsHealthy(f.olds);
    TotalOfAll(Spec, f);
    if Total(Spec, active) != 0 && max > 0 {
      SortPermutes(ByCreation, active);
      SortKeepsSound(ByCreation, active);
      TotalSort(Spec, ByCreation, active);
      TotalSort(Available, ByCreation, active);
      CleanupBounds(sorted, 0, max, 0, api, d);
      CleanupFinishes(sorted, 0, max, 0, api, d);
      var c := CleanupPass(sorted, 0, max, 0, api, d);
      SoundIsHealthy(c.rss);
      ScaleDownOldCounts(c.rss, f.latest, c.api, d);
      if c.scaled < max {
        SameSpecAsAvailable(c.rss);
      }
    }
  }

  /** A ReplicaSet that reports more available pods than its size, met while there is still
      something to clean up, ends the reconcile: nothing is scaled down after it. */
  lemma SurplusEndsTheReconcile(f: Fleet, api: Api, d: Deployment, x: ReplicaSet)
    requires Total(Spec, Active(f.olds)) != 0 && MaxScaledDown(f, d) > 0
    requires Sort(ByCreation, Active(f.olds)) != [] && x == Sort(ByCreation, Active(f.olds))[0] && x.available > x.spec > 0
    ensures ReconcileOld(f, api, d).failed && ReconcileOld(f, api, d).api == api
    ensures ReconcileOld(f, api, d).rss == Sort(ByCreation, Active(f.olds))
  {
    hide Total, Sort, Active, MaxTotal;
  }

  /** At or above the desired size the new ReplicaSet needs no strategy to know its size. */
  lemma FullNeedsNoSurge(f: Fleet, d: Deployment)
    requires f.latest.spec >= d.replicas
    ensures NewSize(f, d) == Some(d.replicas)
  {
  }

  // ---------------------------------------------------------------- whose pods go

  /** The same ReplicaSet, smaller or not. */
  predicate SameButSize(a: ReplicaSet, b: ReplicaSet) {
    b == a.(spec := b.spec, desired := b.desired, maxReplicas := b.maxReplicas) && b.spec <= a.spec
  }

  lemma {:induction false} CleanupInOrder(rss: seq<ReplicaSet>, i: nat, max: int, done: int, api: Api, d: Deployment)
    requires i <= |rss|
    ensures var p := CleanupPass(rss, i, max, done, api, d);
            && (forall j :: 0 <= j < i ==> p.rss[j] == rss[j])
            && (forall j :: 0 <= j < |rss| ==> SameButSize(rss[j], p.rss[j]) && p.rss[j].spec >= Min(rss[j].spec, rss[j].available))
            && (forall j, k :: i <= j < k < |rss| && p.rss[k].spec != rss[k].spec ==>
                  p.rss[j].spec == 0 || p.rss[j].spec == rss[j].available)
    decreases |rss| - i
  {
    hide CleanupPass, MaxTotal;
    if i < |rss| && done < max {
      var count := Min(max - done, rss[i].spec - rss[i].available);
      var updated := ScaledTo(rss[i], rss[i].spec - count, d);
      CleanupTurn(rss, i, max, done, api, d, count, updated);
      if rss[i].spec == 0 || rss[i].spec == rss[i].available {
        CleanupInOrder(rss, i + 1, max, done, api, d);
      } else if count >= 0 && api.budget > 0 {
        CleanupInOrder(rss[i := updated], i + 1, max, done + count, api.Put(rss[i], updated), d);
        if done + count >= max {
          CleanupStops(rss[i := updated], i + 1, max, done + count, api.Put(rss[i], updated), d);
        }
      }
    } else {
      CleanupStops(rss, i, max, done, api, d);
    }
  }

  lemma {:induction false} ScaleDownInOrder(rss: seq<ReplicaSet>, i: nat, quota: int, done: int, api: Api, d: Deployment)
    requires i <= |rss|
    ensures var p := ScaleDownPass(rss, i, quota, done, api, d);
            && (forall j :: 0 <= j < i ==> p.rss[j] == rss[j])
            && (forall j :: 0 <= j < |rss| ==> SameButSize(rss[j], p.rss[j]))
            && (forall j, k :: i <= j < k < |rss| && p.rss[k].spec != rss[k].spec ==> p.rss[j].spec == 0)
    decreases |rss| - i
  {
    hide ScaleDownPass, MaxTotal;
    if i < |rss| && done < quota {
      var count := Min(rss[i].spec, quota - done);
      var updated := ScaledTo(rss[i], rss[i].spec - count, d);
      ScaleDownTurn(rss, i, quota, done, api, d, count, updated);
      if rss[i].spec == 0 {
        ScaleDownInOrder(rss, i + 1, quota, done, api, d);
      } else if count >= 0 && api.budget > 0 {
        ScaleDownInOrder(rss[i := updated], i + 1, quota, done + count, api.Put(rss[i], updated), d);
        if done + count >= quota {
          ScaleDownStops(rss[i := updated], i + 1, quota, done + count, api.Put(rss[i], updated), d);
        }
      }
    } else {
      ScaleDownStops(rss, i, quota, done, api, d);
    }
  }

  /** Two lists of the same ReplicaSets, sizes aside. */
  ghost predicate Aligned(a: seq<ReplicaSet>, b: seq<ReplicaSet>) {
    |a| == |b| && forall j :: 0 <= j < |a| ==> SameButSize(a[j], b[j])
  }

  lemma AlignedStaysSorted(a: seq<ReplicaSet>, b: seq<ReplicaSet>)
    requires Aligned(a, b) && Ordered(ByCreation, a) && DistinctNames(a)
    ensures Ordered(ByCreation, b) && DistinctNames(b) && Sort(ByCreation, b) == b
  {
    hide Sort;
    SortPermutes(ByCreation, b);
    SortOrders(ByCreation, b);
    SortedIsUnique(ByCreation, Sort(ByCreation, b), b);
  }

  /** The old ReplicaSets lose pods in the order of their creation: `before` and `after` are the
      active ones in that order.  One loses an unhealthy pod only when no older one has any
      left, and an available pod only when all older ones are empty. */
  ghost predicate OldestFirst(before: seq<ReplicaSet>, after: seq<ReplicaSet>) {
    && Aligned(before, after)
    && (forall j, k :: 0 <= j < k < |before| ==> CreatedBefore(before[j], before[k]))
    && (forall j, k :: 0 <= j < k < |before| && after[k].spec < before[k].spec ==>
          after[j].spec <= Max(0, before[j].available))
    && (forall j, k :: 0 <= j < k < |before| && after[k].spec < Min(before[k].spec, before[k].available) ==> after[j].spec <= 0)
  }

  ghost predicate KeepsHealthyPods(before: seq<ReplicaSet>, after: seq<ReplicaSet>) {
    |before| == |after| && forall j :: 0 <= j < |before| ==> after[j].spec >= Min(before[j].spec, before[j].available)
  }

  lemma CleanupGoesByAge(sorted: seq<ReplicaSet>, max: int, api: Api, d: Deployment)
    requires Ordered(ByCreation, sorted) && DistinctNames(sorted)
    ensures var c := CleanupPass(sorted, 0, max, 0, api, d);
            && OldestFirst(sorted, c.rss) && KeepsHealthyPods(sorted, c.rss) && Sort(ByCreation, c.rss) == c.rss
  {
    hide CleanupPass, Sort;
    CleanupInOrder(sorted, 0, max, 0, api, d);
    AlignedStaysSorted(sorted, CleanupPass(sorted, 0, max, 0, api, d).rss);
    forall j, k | 0 <= j < k < |sorted| ensures CreatedBefore(sorted[j], sorted[k]) {
      OrdersMean(sorted[j], sorted[k]);
    }
  }

  lemma ScaleDownGoesByAge(before: seq<ReplicaSet>, cleaned: seq<ReplicaSet>, quota: int, api: Api, d: Deployment)
    requires OldestFirst(before, cleaned) && KeepsHealthyPods(before, cleaned)
    ensures OldestFirst(before, ScaleDownPass(cleaned, 0, quota, 0, api, d).rss)
  {
    hide ScaleDownPass;
    ScaleDownInOrder(cleaned, 0, quota, 0, api, d);
    var after := ScaleDownPass(cleaned, 0, quota, 0, api, d).rss;
    assert forall j, k :: 0 <= j < k < |cleaned| && after[k].spec != cleaned[k].spec ==> after[j].spec == 0;
  }

  /** Whichever write is refused, a reconcile takes old pods from the oldest ReplicaSet first. */
  lemma OldestGoFirst(f: Fleet, api: Api, d: Deployment)
    requires DistinctNames(Active(f.olds))
    ensures var p, active := ReconcileOld(f, api, d), Active(f.olds);
            p.rss == active || OldestFirst(Sort(ByCreation, active), p.rss)
    ensures forall x :: x in Sort(ByCreation, Active(f.olds)) <==> x in f.olds && x.spec > 0
  {
    hide CleanupPass, ScaleDownPass, Sort, Total, MinAvailable, OldestFirst, KeepsHealthyPods, Ordered, DistinctNames, Active;
    var active := Active(f.olds);
    var sorted := Sort(ByCreation, active);
    SortPermutes(ByCreation, active);
    SortOrders(ByCreation, active);
    SortKeepsDistinctNames(ByCreation, active);
    CleanupGoesByAge(sorted, MaxScaledDown(f, d), api, d);
    var c := CleanupPass(sorted, 0, MaxScaledDown(f, d), 0, api, d);
    ScaleDownGoesByAge(sorted, c.rss, Total(Available, c.rss) + f.latest.available - MinAvailable(d), c.api, d);
  }
}
