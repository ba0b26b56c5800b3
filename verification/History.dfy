/** Pruning the revision history: which old ReplicaSets cleanupDeployment deletes. */
module History {
  import opened Common
  import opened ReplicaSets

  /** The live ones: not already being deleted. */
  function Alive(rss: seq<ReplicaSet>): (r: seq<ReplicaSet>)
    ensures forall x :: x in r <==> x in rss && !x.deleting
  {
    if rss == [] then []
    else if rss[0].deleting then Alive(rss[1..])
    else [rss[0]] + Alive(rss[1..])
  }

  /** No pods, wanted or left, and the ReplicaSet controller has seen the latest size. */
  predicate Drained(rs: ReplicaSet) {
    rs.replicas == 0 && rs.spec == 0 && rs.observed
  }

  /** A nil limit and the largest 32-bit integer both keep everything. */
  predicate HasRevisionHistoryLimit(d: Deployment) {
    d.revisionHistoryLimit.Some? && d.revisionHistoryLimit.value != MAX_INT32
  }

  /** The ReplicaSets a pass deleted, and whether a deletion was refused. */
  datatype Pruning = Pruning(gone: seq<ReplicaSet>, failed: bool)

  /** The loop over the first `diff` of `rss`, from index i on; the server accepts `budget`
      deletions. */
  function Prune(rss: seq<ReplicaSet>, i: nat, diff: nat, budget: nat, gone: seq<ReplicaSet>): Pruning
    requires i <= diff <= |rss|
    decreases diff - i
  {
    if i == diff then Pruning(gone, false)
    else if !Drained(rss[i]) then Prune(rss, i + 1, diff, budget, gone)
    else if |gone| == budget then Pruning(gone, true)
    else Prune(rss, i + 1, diff, budget, gone + [rss[i]])
  }

  /** The number of live old ReplicaSets beyond the limit. */
  function Excess(olds: seq<ReplicaSet>, d: Deployment): int {
    if HasRevisionHistoryLimit(d) then |Alive(olds)| - d.revisionHistoryLimit.value else 0
  }

  /** What API validation admits. */
  predicate ValidLimit(d: Deployment) {
    d.revisionHistoryLimit.Some? ==> d.revisionHistoryLimit.value >= 0
  }

  function CleanedUp(olds: seq<ReplicaSet>, d: Deployment, budget: nat): Pruning
    requires ValidLimit(d)
  {
    if Excess(olds, d) <= 0 then Pruning([], false)
    else
      SortPermutes(ByRevision, Alive(olds));
      Prune(Sort(ByRevision, Alive(olds)), 0, Excess(olds, d), budget, [])
  }

  lemma {:induction false} AliveSnoc(rss: seq<ReplicaSet>, x: ReplicaSet)
    ensures Alive(rss + [x]) == Alive(rss) + if x.deleting then [] else [x]
  {
    if rss == [] {
      assert rss + [x] == [x];
    } else {
      assert (rss + [x])[1..] == rss[1..] + [x];
      AliveSnoc(rss[1..], x);
    }
  }

  /** The list of live ReplicaSets, built in a loop. */
  method FilterAlive(rss: seq<ReplicaSet>) returns (filtered: seq<ReplicaSet>)
    ensures filtered == Alive(rss)
  {
    filtered := [];
    for i := 0 to |rss|
      invariant filtered == Alive(rss[..i])
    {
      AliveSnoc(rss[..i], rss[i]);
      assert rss[..i + 1] == rss[..i] + [rss[i]];
      if !rss[i].deleting {
        filtered := filtered + [rss[i]];
      }
    }
    assert rss[..|rss|] == rss;
  }

  lemma PruneTurn(rss: seq<ReplicaSet>, i: nat, diff: nat, budget: nat, gone: seq<ReplicaSet>)
    requires i < diff <= |rss|
    ensures Prune(rss, i, diff, budget, gone)
         == if !Drained(rss[i]) then Prune(rss, i + 1, diff, budget, gone)
            else if |gone| == budget then Pruning(gone, true)
            else Prune(rss, i + 1, diff, budget, gone + [rss[i]])
  {
  }

  /** cleanupDeployment, against a server that accepts `budget` deletions. */
  method CleanupDeployment(oldRSs: seq<ReplicaSet>, d: Deployment, budget: nat)
    returns (deleted: seq<ReplicaSet>, err: bool)
    requires ValidLimit(d)
    ensures Pruning(deleted, err) == CleanedUp(oldRSs, d, budget)
  {
    hide Sort, Prune;
    deleted, err := [], false;
    if !HasRevisionHistoryLimit(d) {
      return;
    }
    var alive := FilterAlive(oldRSs);
    var diff := |alive| - d.revisionHistoryLimit.value;
    if diff <= 0 {
      return;
    }
    var cleanableRSes := new ReplicaSet[|alive|](i requires 0 <= i < |alive| => alive[i]);
    assert cleanableRSes[..] == alive;
    SortInPlace(ByRevision, cleanableRSes);
    ghost var sorted := cleanableRSes[..];
    SortPermutes(ByRevision, alive);
    for i := 0 to diff
      invariant cleanableRSes[..] == sorted && !err
      invariant Prune(sorted, i, diff, budget, deleted) == Prune(sorted, 0, diff, budget, [])
    {
      PruneTurn(sorted, i, diff, budget, deleted);
      var rs := cleanableRSes[i];
      assert rs == sorted[i] && !rs.deleting;
      if rs.replicas != 0 || rs.spec != 0 || !rs.observed || rs.deleting {
        continue;
      }
      if |deleted| == budget {
        return deleted, true;
      }
      deleted := deleted + [rs];
    }
    PruneStops(sorted, diff, budget, deleted);
  }

  lemma PruneStops(rss: seq<ReplicaSet>, diff: nat, budget: nat, gone: seq<ReplicaSet>)
    requires diff <= |rss|
    ensures Prune(rss, diff, diff, budget, gone) == Pruning(gone, false)
  {
  }

  // ---------------------------------------------------------------- what cleanup keeps

  lemma {:induction false} PruneSelects(rss: seq<ReplicaSet>, i: nat, diff: nat, budget: nat, gone: seq<ReplicaSet>)
    requires i <= diff <= |rss|
    ensures var p := Prune(rss, i, diff, budget, gone);
            && (forall x :: x in p.gone ==> x in gone || (Drained(x) && x in rss[..diff]))
            && (forall x :: x in gone ==> x in p.gone)
            && (!p.failed ==> forall k :: i <= k < diff && Drained(rss[k]) ==> rss[k] in p.gone)
    decreases diff - i
  {
    if i < diff {
      assert rss[i] == rss[..diff][i];
      PruneSelects(rss, i + 1, diff, budget, gone);
      PruneSelects(rss, i + 1, diff, budget, gone + [rss[i]]);
    }
  }

  /** The live ReplicaSets that come after `rs` in the revision order. */
  ghost function Newer(rs: ReplicaSet, olds: seq<ReplicaSet>): set<ReplicaSet> {
    set y | y in olds && !y.deleting && Less(ByRevision, rs, y)
  }

  /** What the server still holds. */
  function Remaining(olds: seq<ReplicaSet>, gone: seq<ReplicaSet>): (r: seq<ReplicaSet>)
    ensures forall x :: x in r <==> x in olds && x !in gone
  {
    if olds == [] then []
    else (if olds[0] in gone then [] else [olds[0]]) + Remaining(olds[1..], gone)
  }

  ghost function Elements(rss: seq<ReplicaSet>): set<ReplicaSet> {
    set x | x in rss
  }

  lemma {:induction false} DistinctCount(rss: seq<ReplicaSet>)
    requires DistinctNames(rss)
    ensures |Elements(rss)| == |rss|
  {
    if rss != [] {
      DistinctCount(rss[1..]);
      assert Elements(rss) == {rss[0]} + Elements(rss[1..]);
    }
  }

  lemma {:induction false} AliveKeepsDistinctNames(rss: seq<ReplicaSet>)
    requires DistinctNames(rss)
    ensures DistinctNames(Alive(rss))
  {
    if rss != [] {
      AliveKeepsDistinctNames(rss[1..]);
      forall y | y in Alive(rss[1..]) ensures rss[0].name != y.name {
        var j :| 0 <= j < |rss[1..]| && rss[1..][j] == y;
        assert rss[j + 1] == y;
      }
    }
  }

  lemma {:induction false} RemainingKeepsDistinctNames(rss: seq<ReplicaSet>, gone: seq<ReplicaSet>)
    requires DistinctNames(rss)
    ensures DistinctNames(Remaining(rss, gone))
  {
    if rss != [] {
      RemainingKeepsDistinctNames(rss[1..], gone);
      forall y | y in Remaining(rss[1..], gone) ensures rss[0].name != y.name {
        var j :| 0 <= j < |rss[1..]| && rss[1..][j] == y;
        assert rss[j + 1] == y;
      }
    }
  }

  lemma TailPosition(rss: seq<ReplicaSet>, k: nat, from: nat)
    requires DistinctNames(rss) && k < |rss| && from <= |rss|
    ensures rss[k] in rss[from..] <==> from <= k
    ensures rss[k] in rss[..from] <==> k < from
  {
  }

  /** The ReplicaSets after position k of a sorted list are the newer ones. */
  lemma NewerAreBehind(sorted: seq<ReplicaSet>, k: nat, olds: seq<ReplicaSet>)
    requires Ordered(ByRevision, sorted) && DistinctNames(sorted) && k < |sorted|
    requires forall x :: x in sorted <==> x in olds && !x.deleting
    ensures |Newer(sorted[k], olds)| == |sorted| - 1 - k
  {
    forall y ensures y in Newer(sorted[k], olds) <==> y in sorted[k + 1..] {
      if y in sorted {
        var j :| 0 <= j < |sorted| && sorted[j] == y;
        TailPosition(sorted, j, k + 1);
        LessDecides(ByRevision, sorted[k], y);
      }
    }
    assert Newer(sorted[k], olds) == Elements(sorted[k + 1..]);
    DistinctCount(sorted[k + 1..]);
  }

  /** The live ReplicaSets, oldest revision first. */
  function ByAge(olds: seq<ReplicaSet>): seq<ReplicaSet> {
    Sort(ByRevision, Alive(olds))
  }

  lemma ByAgeIsOrdered(olds: seq<ReplicaSet>)
    requires DistinctNames(olds) && Sortable(ByRevision, Alive(olds))
    ensures var sorted := ByAge(olds);
            && |sorted| == |Alive(olds)| && (forall x :: x in sorted <==> x in olds && !x.deleting)
            && DistinctNames(sorted) && Ordered(ByRevision, sorted)
  {
    AliveKeepsDistinctNames(olds);
    SortPermutes(ByRevision, Alive(olds));
    SortOrders(ByRevision, Alive(olds));
    SortKeepsDistinctNames(ByRevision, Alive(olds));
  }

  /** Cleanup deletes a ReplicaSet only when it is live and drained and at least as many live
      ones are newer as the limit asks to keep; when no deletion is refused, it deletes all
      of those. */
  lemma CleanupDeletesExactly(olds: seq<ReplicaSet>, d: Deployment, budget: nat, x: ReplicaSet)
    requires ValidLimit(d) && HasRevisionHistoryLimit(d) && DistinctNames(olds) && Sortable(ByRevision, Alive(olds))
    ensures var p := CleanedUp(olds, d, budget);
            var prunable := x in olds && !x.deleting && Drained(x)
                            && |Newer(x, olds)| >= d.revisionHistoryLimit.value;
            && (x in p.gone ==> prunable)
            && (!p.failed ==> (x in p.gone <==> prunable))
  {
    hide Sort, Prune, Drained, ByAge, Ordered, DistinctNames, Newer;
    var sorted := ByAge(olds);
    CleanedUpByAge(olds, d, budget);
    ByAgeIsOrdered(olds);
    if Excess(olds, d) > 0 {
      PruneSelects(sorted, 0, Excess(olds, d), budget, []);
    }
    if x in sorted {
      var k :| 0 <= k < |sorted| && sorted[k] == x;
      NewerAreBehind(sorted, k, olds);
      if Excess(olds, d) > 0 {
        TailPosition(sorted, k, Excess(olds, d));
      }
    }
  }

  lemma CleanedUpByAge(olds: seq<ReplicaSet>, d: Deployment, budget: nat)
    requires ValidLimit(d)
    ensures |ByAge(olds)| == |Alive(olds)|
    ensures CleanedUp(olds, d, budget)
         == if Excess(olds, d) <= 0 then Pruning([], false) else Prune(ByAge(olds), 0, Excess(olds, d), budget, [])
  {
    SortPermutes(ByRevision, Alive(olds));
  }

  /** The same, told by the fields: a ReplicaSet is deleted only when it is not being deleted
      already, has no pods and is to have none, its latest size has been seen, and as many live
      ones as the limit come after it in the revision order; a complete pass deletes all of
      those; and one that is cut short has used up the deletions it was granted. */
  lemma CleanupDeletesOldDrained(olds: seq<ReplicaSet>, d: Deployment, budget: nat, x: ReplicaSet)
    requires d.revisionHistoryLimit.Some? && 0 <= d.revisionHistoryLimit.value < 2_147_483_647
    requires DistinctNames(olds) && Sortable(ByRevision, Alive(olds))
    ensures var p := CleanedUp(olds, d, budget);
            var newer := set y | y in olds && !y.deleting && Less(ByRevision, x, y);
            var prunable := x in olds && !x.deleting && x.replicas == 0 && x.spec == 0 && x.observed
                            && |newer| >= d.revisionHistoryLimit.value;
            && (x in p.gone ==> prunable)
            && (!p.failed && prunable ==> x in p.gone)
            && |p.gone| <= budget && (p.failed ==> |p.gone| == budget)
  {
    hide Sort, Prune, Ordered, DistinctNames, CleanedUp;
    CleanupDeletesExactly(olds, d, budget, x);
    CleanedUpByAge(olds, d, budget);
    if Excess(olds, d) > 0 {
      PruneCounts(ByAge(olds), 0, Excess(olds, d), budget, []);
    }
  }

  /** Without a limit, or with the largest 32-bit integer for one, nothing is deleted. */
  lemma CleanupKeepsAll(olds: seq<ReplicaSet>, d: Deployment, budget: nat)
    requires d.revisionHistoryLimit.None? || d.revisionHistoryLimit.value == 2_147_483_647
    ensures CleanedUp(olds, d, budget) == Pruning([], false)
  {
  }

  lemma {:induction false} PruneCounts(rss: seq<ReplicaSet>, i: nat, diff: nat, budget: nat, gone: seq<ReplicaSet>)
    requires i <= diff <= |rss| && |gone| <= budget
    ensures var p := Prune(rss, i, diff, budget, gone); |p.gone| <= budget && (p.failed ==> |p.gone| == budget)
    decreases diff - i
  {
    hide Drained;
    if i < diff {
      PruneCounts(rss, i + 1, diff, budget, gone);
      if |gone| < budget {
        PruneCounts(rss, i + 1, diff, budget, gone + [rss[i]]);
      }
    }
  }

  /** A second pass over what a complete first one left deletes nothing. */
  lemma SecondCleanupDeletesNothing(olds: seq<ReplicaSet>, d: Deployment, budget: nat, again: nat)
    requires ValidLimit(d) && DistinctNames(olds) && Sortable(ByRevision, Alive(olds))
    requires !CleanedUp(olds, d, budget).failed
    ensures CleanedUp(Remaining(olds, CleanedUp(olds, d, budget).gone), d, again).gone == []
  {
    var gone := CleanedUp(olds, d, budget).gone;
    var rest := Remaining(olds, gone);
    if HasRevisionHistoryLimit(d) {
      hide CleanedUp;
      var more := CleanedUp(rest, d, again).gone;
      if more != [] {
        var x := more[0];
        RemainingKeepsDistinctNames(olds, gone);
        CleanupDeletesExactly(rest, d, again, x);
        CleanupDeletesExactly(olds, d, budget, x);
        assert Newer(x, rest) <= Newer(x, olds);
        SubsetCount(Newer(x, rest), Newer(x, olds));
        assert false;
      }
    }
  }

  lemma SubsetCount<T>(a: set<T>, b: set<T>)
    requires a <= b
    ensures |a| <= |b|
  {
    assert b == a + (b - a);
  }

  lemma DrainedGoesByAge(olds: seq<ReplicaSet>, d: Deployment, budget: nat, k: nat)
    requires ValidLimit(d) && HasRevisionHistoryLimit(d) && DistinctNames(olds) && Sortable(ByRevision, Alive(olds))
    requires forall x :: x in Alive(olds) ==> Drained(x)
    requires !CleanedUp(olds, d, budget).failed && k < |ByAge(olds)|
    ensures ByAge(olds)[k] in CleanedUp(olds, d, budget).gone <==> k < Excess(olds, d)
  {
    hide CleanedUp, ByAge, Drained, Ordered, Newer, DistinctNames;
    ByAgeIsOrdered(olds);
    CleanupDeletesExactly(olds, d, budget, ByAge(olds)[k]);
    NewerAreBehind(ByAge(olds), k, olds);
    assert ByAge(olds)[k] in ByAge(olds);
  }

  /** Once every live old ReplicaSet is drained, exactly the limit, or all when there are
      fewer, survive. */
  lemma DrainedHistoryShrinksToLimit(olds: seq<ReplicaSet>, d: Deployment, budget: nat)
    requires ValidLimit(d) && HasRevisionHistoryLimit(d) && DistinctNames(olds) && Sortable(ByRevision, Alive(olds))
    requires forall x :: x in Alive(olds) ==> Drained(x)
    requires !CleanedUp(olds, d, budget).failed
    ensures |Alive(Remaining(olds, CleanedUp(olds, d, budget).gone))|
         == Min(|Alive(olds)|, d.revisionHistoryLimit.value)
  {
    hide CleanedUp, ByAge, Drained, Ordered, DistinctNames, Sortable;
    ByAgeIsOrdered(olds);
    var sorted, gone := ByAge(olds), CleanedUp(olds, d, budget).gone;
    var left := Alive(Remaining(olds, gone));
    var diff := Max(0, Excess(olds, d));
    forall y ensures y in left <==> y in sorted[diff..] {
      if y in sorted {
        var k :| 0 <= k < |sorted| && sorted[k] == y;
        DrainedGoesByAge(olds, d, budget, k);
        TailPosition(sorted, k, diff);
      }
    }
    assert Elements(left) == Elements(sorted[diff..]);
    RemainingKeepsDistinctNames(olds, gone);
    AliveKeepsDistinctNames(Remaining(olds, gone));
    DistinctCount(left);
    TailIsDistinct(sorted, diff);
    DistinctCount(sorted[diff..]);
  }

  lemma TailIsDistinct(rss: seq<ReplicaSet>, from: nat)
    requires DistinctNames(rss) && from <= |rss|
    ensures DistinctNames(rss[from..])
  {
  }
}
