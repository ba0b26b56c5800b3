/** The cases of scale, told by the writes it sends and by the fields of the ReplicaSets. */
module ScalingCases {
  import opened Common
  import opened ReplicaSets
  import opened Strategy
  import opened Rolling
  import opened Proportional

  /** All ReplicaSets of the Deployment. */
  function Everything(newRS: Option<ReplicaSet>, olds: seq<ReplicaSet>): seq<ReplicaSet> {
    olds + AsList(newRS)
  }

  // ---------------------------------------------------------------- which ReplicaSets are active

  lemma {:induction false} ActiveKeepsDistinctNames(rss: seq<ReplicaSet>)
    requires DistinctNames(rss)
    ensures DistinctNames(Active(rss))
  {
    if rss != [] {
      ActiveKeepsDistinctNames(rss[1..]);
      forall y | y in Active(rss[1..]) ensures rss[0].name != y.name {
        var j :| 0 <= j < |rss[1..]| && rss[1..][j] == y;
        assert rss[j + 1] == y;
      }
    }
  }

  /** What scale filters: the same ReplicaSets in another order. */
  lemma SortedEverything(newRS: Option<ReplicaSet>, olds: seq<ReplicaSet>)
    requires DistinctNames(Everything(newRS, olds))
    ensures var all := Sort(ByCreationReversed, olds) + AsList(newRS);
            && DistinctNames(all) && DistinctNames(Active(all)) && DistinctNames(olds)
            && forall x :: x in all <==> x in Everything(newRS, olds)
  {
    var sorted, all := Sort(ByCreationReversed, olds), Everything(newRS, olds);
    assert forall i :: 0 <= i < |olds| ==> all[i] == olds[i];
    SortPermutes(ByCreationReversed, olds);
    SortKeepsDistinctNames(ByCreationReversed, olds);
    if newRS.Some? {
      assert all[|olds|] == newRS.value;
      forall i | 0 <= i < |sorted| ensures sorted[i].name != newRS.value.name {
        assert sorted[i] in olds;
      }
    }
    ActiveKeepsDistinctNames(sorted + AsList(newRS));
  }

  lemma OnlyElement(rss: seq<ReplicaSet>, x: ReplicaSet)
    requires DistinctNames(rss) && forall y :: y in rss <==> y == x
    ensures rss == [x]
  {
    assert x in rss;
    assert rss[0] in rss;
    assert |rss| > 1 ==> rss[1] in rss && rss[0].name != rss[1].name;
  }

  lemma {:induction false} NoneIsActive(rss: seq<ReplicaSet>)
    requires forall y :: y in rss ==> y.spec <= 0
    ensures Active(rss) == []
  {
    if rss != [] {
      assert rss[0] in rss;
      NoneIsActive(rss[1..]);
    }
  }

  lemma NewestComesFirst(sorted: seq<ReplicaSet>, x: ReplicaSet)
    requires Ordered(ByCreationReversed, sorted) && x in sorted
    requires forall y :: y in sorted && y != x ==> CreatedBefore(y, x)
    ensures sorted[0] == x
  {
    var k :| 0 <= k < |sorted| && sorted[k] == x;
    assert sorted[0] in sorted;
    assert k > 0 ==> Less(ByCreationReversed, sorted[0], sorted[k]);
  }

  // ---------------------------------------------------------------- one active ReplicaSet, or none

  /** The one write that makes `x` as large as the Deployment, if it needs one. */
  predicate OnlyResizes(after: (Api, bool), budget: nat, x: ReplicaSet, d: Deployment) {
    if x.spec == d.replicas then after == (Api(budget, []), false)
    else if budget == 0 then after == (Api(0, []), true)
    else && !after.1 && |after.0.log| == 1 && after.0.log[0].copy == x
         && after.0.log[0].updated == x.(spec := d.replicas, desired := Some(d.replicas),
                                         maxReplicas := after.0.log[0].updated.maxReplicas)
  }

  /** The only active ReplicaSet gets the whole size; no other is written. */
  lemma OnlyActiveGetsTheSize(d: Deployment, newRS: Option<ReplicaSet>, olds: seq<ReplicaSet>, budget: nat, x: ReplicaSet)
    requires DistinctNames(Everything(newRS, olds))
    requires x in Everything(newRS, olds) && x.spec > 0
    requires forall y :: y in Everything(newRS, olds) && y.spec > 0 ==> y == x
    ensures OnlyResizes(Scale(d, newRS, olds, Api(budget, [])), budget, x, d)
  {
    hide Sort, Active, MaxTotal, WriteZeros, WriteSizes;
    SortedEverything(newRS, olds);
    OnlyElement(Active(Sort(ByCreationReversed, olds) + AsList(newRS)), x);
  }

  /** With none active it is the new ReplicaSet, or else the one created last. */
  lemma NewestGetsTheSize(d: Deployment, newRS: Option<ReplicaSet>, olds: seq<ReplicaSet>, budget: nat, x: ReplicaSet)
    requires DistinctNames(Everything(newRS, olds))
    requires forall y :: y in Everything(newRS, olds) ==> y.spec <= 0
    requires newRS == Some(x)
             || (newRS.None? && x in olds && forall y :: y in olds && y != x ==> CreatedBefore(y, x))
    ensures OnlyResizes(Scale(d, newRS, olds, Api(budget, [])), budget, x, d)
  {
    hide Sort, Active, MaxTotal, WriteZeros, WriteSizes;
    var sorted := Sort(ByCreationReversed, olds);
    SortedEverything(newRS, olds);
    SortPermutes(ByCreationReversed, olds);
    SortOrders(ByCreationReversed, olds);
    NoneIsActive(sorted + AsList(newRS));
    if newRS.None? {
      NewestComesFirst(sorted, x);
    }
  }

  /** With no ReplicaSet at all nothing is written. */
  lemma NothingToScale(d: Deployment, budget: nat)
    ensures Scale(d, None, [], Api(budget, [])) == (Api(budget, []), false)
  {
  }

  // ---------------------------------------------------------------- several active ReplicaSets

  ghost predicate SeveralActive(newRS: Option<ReplicaSet>, olds: seq<ReplicaSet>) {
    exists x, y :: x in Everything(newRS, olds) && y in Everything(newRS, olds) && x.name != y.name && x.spec > 0 && y.spec > 0
  }

  lemma SeveralHaveNoOnly(newRS: Option<ReplicaSet>, olds: seq<ReplicaSet>)
    requires DistinctNames(Everything(newRS, olds)) && SeveralActive(newRS, olds)
    ensures ActiveOrLatest(newRS, olds).None?
  {
    hide Sort, Active;
    SortedEverything(newRS, olds);
    var x, y :| x in Everything(newRS, olds) && y in Everything(newRS, olds) && x.name != y.name && x.spec > 0 && y.spec > 0;
    var active := Active(Sort(ByCreationReversed, olds) + AsList(newRS));
    assert x in active && y in active;
  }

  /** The new ReplicaSet has its full size, knows it, and all its pods are available. */
  predicate Full(newRS: Option<ReplicaSet>, d: Deployment) {
    newRS.Some? && newRS.value.spec == newRS.value.available == d.replicas && newRS.value.desired == Some(d.replicas)
  }

  lemma {:induction false} ZerosAreWritten(rss: seq<ReplicaSet>, i: nat, api: Api, d: Deployment)
    requires i <= |rss| && forall k :: i <= k < |rss| ==> rss[k].spec > 0
    ensures var p, n := WriteZeros(rss, i, api, d), |api.log|;
            && n <= |p.api.log| <= n + |rss| - i
            && p.api.log[..n] == api.log
            && (p.failed <==> |p.api.log| < n + |rss| - i)
            && (p.failed ==> p.api.budget == 0)
            && forall k :: n <= k < |p.api.log| ==>
                 p.api.log[k] == Write(rss[i + k - n], ScaledTo(rss[i + k - n], 0, d))
    decreases |rss| - i
  {
    hide ScaledTo;
    if i < |rss| && api.budget > 0 {
      var updated := ScaledTo(rss[i], 0, d);
      var next := api.Put(rss[i], updated);
      ZerosAreWritten(rss[i := updated], i + 1, next, d);
      var p := WriteZeros(rss, i, api, d);
      assert p == WriteZeros(rss[i := updated], i + 1, next, d);
      assert next.log[..|api.log|] == api.log;
      assert p.api.log[..|api.log|] == p.api.log[..|next.log|][..|api.log|];
      assert p.api.log[|api.log|] == p.api.log[..|next.log|][|api.log|];
    }
  }

  /** Beside a full new ReplicaSet every active old one goes to zero, and nothing else is
      written; a refused write leaves some of them. */
  lemma FullEmptiesTheOld(d: Deployment, newRS: Option<ReplicaSet>, olds: seq<ReplicaSet>, budget: nat)
    requires DistinctNames(Everything(newRS, olds)) && SeveralActive(newRS, olds) && Full(newRS, d)
    ensures var (after, failed) := Scale(d, newRS, olds, Api(budget, []));
            && (forall w :: w in after.log ==> w.copy in olds && w.copy.spec > 0 && w.updated.spec == 0)
            && (!failed ==> forall x :: x in olds && x.spec > 0 ==> exists w :: w in after.log && w.copy == x)
            && (failed ==> after.budget == 0)
  {
    hide Sort, Active, ScaledTo, WriteZeros, ActiveOrLatest;
    SeveralHaveNoOnly(newRS, olds);
    SortPermutes(ByCreationReversed, olds);
    var rss := Active(Sort(ByCreationReversed, olds));
    forall k | 0 <= k < |rss| ensures rss[k].spec > 0 && rss[k] in olds && ScaledTo(rss[k], 0, d).spec == 0 {
      assert rss[k] in rss;
      ScaledSpec(rss[k], 0, d);
    }
    ZerosAreWritten(rss, 0, Api(budget, []), d);
    var (after, failed) := Scale(d, newRS, olds, Api(budget, []));
    if !failed {
      forall x | x in olds && x.spec > 0 ensures exists w :: w in after.log && w.copy == x {
        assert x in rss;
        var k :| 0 <= k < |rss| && rss[k] == x;
        assert after.log[k] in after.log;
      }
    }
  }

  // ---------------------------------------------------------------- the proportional pass

  /** By how many pods the writes of a log change the sizes. */
  function Change(log: seq<Write>): int {
    if log == [] then 0
    else Change(log[..|log| - 1]) + log[|log| - 1].updated.spec - log[|log| - 1].copy.spec
  }

  lemma ChangeOfPut(api: Api, copy: ReplicaSet, updated: ReplicaSet)
    requires api.budget > 0
    ensures Change(api.Put(copy, updated).log) == Change(api.log) + updated.spec - copy.spec
    ensures api.Put(copy, updated).budget + |api.Put(copy, updated).log| == api.budget + |api.log|
    ensures forall w :: w in api.Put(copy, updated).log <==> w in api.log || w == Write(copy, updated)
  {
    assert api.Put(copy, updated).log[..|api.log|] == api.log;
  }

  /** What the writing loop sends: each write is to one of the list and gives it its size. */
  lemma {:induction false} SizesAreWritten(rss: seq<ReplicaSet>, sizes: seq<int>, i: nat, api: Api, d: Deployment)
    requires i <= |rss| == |sizes|
    ensures var p := WriteSizes(rss, sizes, i, api, d);
            && Change(p.api.log) - Change(api.log) == Total(Spec, p.rss) - Total(Spec, rss)
            && (forall w :: w in p.api.log ==>
                  w in api.log || exists k :: i <= k < |rss| && w.copy == rss[k] && w.updated.spec == sizes[k])
            && p.api.budget + |p.api.log| == api.budget + |api.log|
            && (p.failed ==> p.api.budget == 0)
    decreases |rss| - i
  {
    hide ScaledTo, AnnotationsNeedUpdate, WriteSizes, Change, Api.Put;
    if i < |rss| {
      var updated := ScaledTo(rss[i], sizes[i], d);
      WriteTurn(rss, sizes, i, api, d, updated);
      ScaledSpec(rss[i], sizes[i], d);
      if rss[i].spec == sizes[i] && !AnnotationsNeedUpdate(rss[i], d) {
        SizesAreWritten(rss, sizes, i + 1, api, d);
      } else if api.budget > 0 {
        ChangeOfPut(api, rss[i], updated);
        TotalUpdate(Spec, rss, i, updated);
        SizesAreWritten(rss[i := updated], sizes, i + 1, api.Put(rss[i], updated), d);
        assert forall k :: i < k < |rss| ==> rss[i := updated][k] == rss[k];
      }
    } else {
      WriteStops(rss, sizes, api, d);
    }
  }

  /** A ReplicaSet has its size and says what it was last scaled for. */
  predicate IsScaled(rs: ReplicaSet, size: int, d: Deployment) {
    rs.spec == size && rs.desired == Some(d.replicas) && rs.maxReplicas == Some(MaxTotal(d))
  }

  /** Each is written unless it already has its size and says what it is scaled for; nothing but
      that changes, and a pass that is not refused leaves all of them so. */
  lemma {:induction false} ScalesAllThatNeedIt(rss: seq<ReplicaSet>, sizes: seq<int>, i: nat, api: Api, d: Deployment)
    requires i <= |rss| == |sizes|
    ensures var p := WriteSizes(rss, sizes, i, api, d);
            && (forall w :: w in p.api.log && w !in api.log ==> w.updated != w.copy && SameButScale(w.copy, w.updated))
            && (forall k :: 0 <= k < i ==> p.rss[k] == rss[k])
            && (!p.failed ==> forall k :: i <= k < |rss| ==> IsScaled(p.rss[k], sizes[k], d) && SameButScale(rss[k], p.rss[k]))
            && (p.failed ==> exists k :: i <= k < |rss| && !IsScaled(rss[k], sizes[k], d))
    decreases |rss| - i
  {
    hide WriteSizes, Api.Put, MaxTotal;
    if i < |rss| {
      var updated := ScaledTo(rss[i], sizes[i], d);
      WriteTurn(rss, sizes, i, api, d, updated);
      if rss[i].spec == sizes[i] && !AnnotationsNeedUpdate(rss[i], d) {
        ScalesAllThatNeedIt(rss, sizes, i + 1, api, d);
      } else if api.budget > 0 {
        ChangeOfPut(api, rss[i], updated);
        ScalesAllThatNeedIt(rss[i := updated], sizes, i + 1, api.Put(rss[i], updated), d);
        assert forall k :: i < k < |rss| ==> rss[i := updated][k] == rss[k];
      }
    } else {
      WriteStops(rss, sizes, api, d);
    }
  }

  predicate SameButScale(a: ReplicaSet, b: ReplicaSet) {
    b == a.(spec := b.spec, desired := b.desired, maxReplicas := b.maxReplicas)
  }

  /** The size scale works to: none for an empty Deployment, and else the size and the surge. */
  ghost predicate Allowed(d: Deployment, allowed: int) {
    if d.replicas == 0 then allowed == 0
    else d.maxSurge.Some? && RoundedUp(d.maxSurge.value, d.replicas, allowed - d.replicas)
  }

  lemma AllowedIsAllowed(d: Deployment, allowed: int)
    requires Valid(d) && Allowed(d, allowed)
    ensures AllowedSize(d) == allowed && d.strategy.RollingUpdate?
  {
    hide RoundedUp, RoundedDown, MaxSurge;
    var s, _ := FencepostsRound(d);
    RoundingIsUnique(d.maxSurge.value, d.replicas, s, allowed - d.replicas);
  }

  lemma TotalOfEverything(newRS: Option<ReplicaSet>, olds: seq<ReplicaSet>, d: Deployment)
    requires forall x :: x in Everything(newRS, olds) ==> x.spec >= 0
    ensures Total(Spec, Spread(newRS, olds, d)) == Total(Spec, Everything(newRS, olds))
  {
    hide Sort, Active, Inactive;
    var sorted := Sort(ByCreationReversed, olds);
    SpreadKeepsSum(newRS, olds, d);
    TotalSort(Spec, ByCreationReversed, olds);
    TotalConcat(Spec, sorted, AsList(newRS));
    TotalConcat(Spec, olds, AsList(newRS));
    TotalActive(Spec, sorted + AsList(newRS));
    SortPermutes(ByCreationReversed, olds);
    NothingTotal(Inactive(sorted + AsList(newRS)));
  }

  lemma {:induction false} NothingTotal(rss: seq<ReplicaSet>)
    requires forall x :: x in rss ==> x.spec == 0
    ensures Total(Spec, rss) == 0
  {
    if rss != [] {
      assert rss[0] in rss;
      NothingTotal(rss[1..]);
    }
  }

  lemma SpreadIsActive(newRS: Option<ReplicaSet>, olds: seq<ReplicaSet>, d: Deployment)
    requires DistinctNames(Everything(newRS, olds))
    ensures var rss := Spread(newRS, olds, d);
            DistinctNames(rss) && forall x :: x in rss <==> x in Everything(newRS, olds) && x.spec > 0
  {
    hide Sort, Active;
    var active := Active(Sort(ByCreationReversed, olds) + AsList(newRS));
    SortedEverything(newRS, olds);
    SortPermutes(BySizeNewer, active);
    SortPermutes(BySizeOlder, active);
    SortKeepsDistinctNames(BySizeNewer, active);
    SortKeepsDistinctNames(BySizeOlder, active);
  }

  /** Who comes first, and takes the leftover: the largest; among equals the one created last
      when pods are added, and the one created first when pods are removed. */
  lemma LargestComesFirst(newRS: Option<ReplicaSet>, olds: seq<ReplicaSet>, d: Deployment, i: nat, j: nat)
    requires DistinctNames(Everything(newRS, olds))
    requires i < j < |Spread(newRS, olds, d)|
    ensures var rss := Spread(newRS, olds, d);
            var a, b := rss[i], rss[j];
            AllowedSize(d) != Total(Spec, rss) ==>
              || a.spec > b.spec
              || (a.spec == b.spec && if AllowedSize(d) > Total(Spec, rss) then CreatedBefore(b, a) else CreatedBefore(a, b))
  {
    hide Sort, Active, AllowedSize, Total;
    var active := Active(Sort(ByCreationReversed, olds) + AsList(newRS));
    SortedEverything(newRS, olds);
    SpreadKeepsSum(newRS, olds, d);
    SortOrders(BySizeNewer, active);
    SortOrders(BySizeOlder, active);
  }

  /** What the pass does to the sizes of the list it works on. */
  ghost predicate Brings(rss: seq<ReplicaSet>, d: Deployment, allowed: int, log: seq<Write>, failed: bool) {
    var total := Total(Spec, rss);
    && (forall w :: w in log ==>
          w.copy in rss && w.updated.spec >= 0 && (total == allowed ==> w.updated.spec == w.copy.spec))
    && (!failed ==> total + Change(log) >= allowed)
    && (!failed && total <= allowed ==> total + Change(log) == allowed)
    && (!failed && Fresh(rss, d) ==> 2 * (total + Change(log) - allowed) <= |rss|)
  }

  lemma PassBringsTheSize(rss: seq<ReplicaSet>, d: Deployment, budget: nat)
    requires Valid(d) && Scalable(rss, d) && rss != []
    ensures var p := WriteSizes(rss, Targets(rss, d, AllowedSize(d) - Total(Spec, rss)), 0, Api(budget, []), d);
            Brings(rss, d, AllowedSize(d), p.api.log, p.failed) && (p.failed ==> p.api.budget == 0)
  {
    hide WriteSizes, Scalable, Strategy.Valid, AllowedSize, Total, Overshoot, Target, Fresh;
    var toAdd := AllowedSize(d) - Total(Spec, rss);
    SizesAreWritten(rss, Targets(rss, d, toAdd), 0, Api(budget, []), d);
    ProportionalScalingConserves(rss, d);
    SpreadReachesAllowedSize(rss, d, Api(budget, []));
    OvershootSign(rss, d, toAdd);
    if Fresh(rss, d) {
      FreshOvershootIsSmall(rss, d);
    }
  }

  /** Beside a new ReplicaSet that is not full the sizes are brought to what is allowed: exactly,
      when pods are added; within half a pod for each ReplicaSet, when pods are removed under
      fresh annotations.  When nothing is to be added or removed no size changes. */
  lemma SpreadBringsTheSize(d: Deployment, newRS: Option<ReplicaSet>, olds: seq<ReplicaSet>, budget: nat, allowed: int)
    requires DistinctNames(Everything(newRS, olds)) && SeveralActive(newRS, olds) && !Full(newRS, d)
    requires Valid(d) && Allowed(d, allowed) && Scalable(Spread(newRS, olds, d), d)
    requires forall x :: x in Everything(newRS, olds) ==> x.spec >= 0
    ensures var (after, failed) := Scale(d, newRS, olds, Api(budget, []));
            var rss := Spread(newRS, olds, d);
            && Total(Spec, rss) == Total(Spec, Everything(newRS, olds))
            && (forall x :: x in rss <==> x in Everything(newRS, olds) && x.spec > 0)
            && Brings(rss, d, allowed, after.log, failed)
            && (failed ==> after.budget == 0)
  {
    hide ActiveOrLatest, WriteSizes, Scalable, Strategy.Valid, AllowedSize, Total, Brings, Spread, Targets, Everything, Full;
    SeveralHaveNoOnly(newRS, olds);
    SpreadIsActive(newRS, olds, d);
    TotalOfEverything(newRS, olds, d);
    AllowedIsAllowed(d, allowed);
    var x :| x in Everything(newRS, olds) && x.spec > 0;
    assert x in Spread(newRS, olds, d);
    PassBringsTheSize(Spread(newRS, olds, d), d, budget);
    ScaleSpreads(d, newRS, olds, Api(budget, []));
  }

  /** The share of a ReplicaSet: its size goes to the integer closest to the same fraction of what
      is allowed as it has of what was allowed when it was last scaled (of the size in status,
      where it does not say), a half counting up; but never past what is still to be added or
      removed. */
  lemma ProportionIsClosest(rs: ReplicaSet, d: Deployment, toAdd: int, added: int, surge: int) returns (share: int)
    requires Valid(d) && d.replicas > 0 && RoundedUp(d.maxSurge.value, d.replicas, surge)
    requires rs.spec > 0 && -0x8000_0000 <= rs.spec * (d.replicas + surge) < 0x8000_0000
    requires (if rs.maxReplicas.Some? then rs.maxReplicas.value else d.statusReplicas) > 0
    ensures var size := if rs.maxReplicas.Some? then rs.maxReplicas.value else d.statusReplicas;
            -size < 2 * size * (rs.spec + share) - 2 * rs.spec * (d.replicas + surge) <= size
    ensures Proportion(rs, d, toAdd, added)
         == if toAdd == 0 || toAdd == added then 0
            else if toAdd > 0 then Min(share, toAdd - added)
            else Max(share, toAdd - added)
  {
    hide RoundDiv, Strategy.Valid, MaxTotal;
    SurgeIsTotal(d, surge);
    share := Fraction(rs, d);
    RoundsHalvesUp(rs.spec * (d.replicas + surge), Annotated(rs, d));
    ScaledShare(Annotated(rs, d), rs.spec, share, RoundDiv(rs.spec * (d.replicas + surge), Annotated(rs, d)));
  }

  /** The signs of a quotient, as an annotation below zero brings them in: both change without
      effect, one changes the sign, and a half is rounded away from zero; a division by zero
      gives what the platform makes of an infinity or of no number. */
  lemma QuotientSigns(p: int, q: int)
    ensures q != 0 ==> Quotient(p, q) == Quotient(-p, -q) == -Quotient(-p, q)
    ensures q > 0 && p >= 0 ==> 2 * p - q < 2 * q * Quotient(p, q) <= 2 * p + q
    ensures Quotient(p, 0) == if p > 0 then POSITIVE_INFINITY else if p < 0 then NEGATIVE_INFINITY else NOT_A_NUMBER
  {
    hide RoundDiv;
    if q > 0 {
      RoundDivIsOdd(p, q);
      if p >= 0 {
        RoundsHalvesUp(p, q);
      }
    } else if q < 0 {
      RoundDivIsOdd(p, -q);
    }
  }

  lemma RoundDivIsOdd(p: int, q: int)
    requires q > 0
    ensures RoundDiv(-p, q) == -RoundDiv(p, q)
  {
    assert -2 * -p == 2 * p;
    if p == 0 {
      assert (2 * p + q) / (2 * q) == 0;
    }
  }

  lemma SurgeIsTotal(d: Deployment, surge: int)
    requires Valid(d) && RoundedUp(d.maxSurge.value, d.replicas, surge)
    ensures MaxTotal(d) == d.replicas + surge >= 0 && d.maxSurge.Some?
  {
    hide MaxSurge, MaxUnavailable;
    var s, _ := FencepostsRound(d);
    RoundingIsUnique(d.maxSurge.value, d.replicas, s, surge);
    FencepostsLeaveSlack(d);
  }

  lemma ScaledShare(size: int, spec: int, share: int, rounded: int)
    requires share == rounded - spec
    ensures 2 * size * (spec + share) == 2 * size * rounded
  {
  }

  lemma RoundsHalvesUp(p: int, q: int)
    requires q > 0 && p >= 0
    ensures 2 * p - q < 2 * q * RoundDiv(p, q) <= 2 * p + q
  {
    var x, y := 2 * p + q, 2 * q;
    assert x == y * (x / y) + x % y;
  }

  lemma OvershootSign(rss: seq<ReplicaSet>, d: Deployment, toAdd: int)
    requires rss != []
    ensures Overshoot(rss, d, toAdd) >= 0 && (toAdd >= 0 ==> Overshoot(rss, d, toAdd) == 0)
    ensures toAdd == 0 ==> forall i :: 0 <= i < |rss| ==> Target(rss, i, d, toAdd) == rss[i].spec
  {
  }

  lemma ScaleSpreads(d: Deployment, newRS: Option<ReplicaSet>, olds: seq<ReplicaSet>, api: Api)
    requires ActiveOrLatest(newRS, olds).None? && !Full(newRS, d) && d.strategy.RollingUpdate?
    ensures var rss := Spread(newRS, olds, d);
            var p := WriteSizes(rss, Targets(rss, d, AllowedSize(d) - Total(Spec, rss)), 0, api, d);
            Scale(d, newRS, olds, api) == (p.api, p.failed)
  {
    hide Sort, Active, ActiveOrLatest, WriteZeros, WriteSizes, Targets, Spread, AllowedSize, Total;
  }

  /** Under another strategy it writes nothing then. */
  lemma OthersDoNotSpread(d: Deployment, newRS: Option<ReplicaSet>, olds: seq<ReplicaSet>, budget: nat)
    requires DistinctNames(Everything(newRS, olds)) && SeveralActive(newRS, olds) && !Full(newRS, d)
    requires !d.strategy.RollingUpdate?
    ensures Scale(d, newRS, olds, Api(budget, [])) == (Api(budget, []), false)
  {
    hide Sort, Active, ActiveOrLatest;
    SeveralHaveNoOnly(newRS, olds);
  }
}
