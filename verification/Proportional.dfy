/** Scaling a Deployment in the middle of a rollout: the pods to add or remove are spread
    over the active ReplicaSets in proportion, and the leftover goes to the largest. */
module Proportional {
  import opened Common
  import opened ReplicaSets
  import opened Strategy
  import opened Rolling

  // ---------------------------------------------------------------- proportions

  /** p / q rounded to the nearest integer, halves away from zero, as RoundToInt32 does;
      see Floats.RoundedQuotient for the floating-point form. */
  function RoundDiv(p: int, q: int): int
    requires q > 0
  {
    if p < 0 then -((-2 * p + q) / (2 * q)) else (2 * p + q) / (2 * q)
  }

  type Int32 = x: int | FitsInt32(x) witness 0

  /** What the conversion of an infinity or a NaN to a 32-bit integer gives is up to the
      platform: any values, about which nothing is known here. */
  const POSITIVE_INFINITY: Int32
  const NEGATIVE_INFINITY: Int32
  const NOT_A_NUMBER: Int32

  /** The rounded quotient for any divisor; a division by zero is no error in floating point. */
  function Quotient(p: int, q: int): int {
    if q > 0 then RoundDiv(p, q)
    else if q < 0 then RoundDiv(-p, -q)
    else if p > 0 then POSITIVE_INFINITY
    else if p < 0 then NEGATIVE_INFINITY
    else NOT_A_NUMBER
  }

  /** The size the Deployment had when this ReplicaSet was last scaled; without the
      annotation, the size it has now. */
  function Annotated(rs: ReplicaSet, d: Deployment): int {
    rs.maxReplicas.GetOr(d.statusReplicas)
  }

  /** getReplicaSetFraction.  The product is computed in 32 bits. */
  function Fraction(rs: ReplicaSet, d: Deployment): int {
    if d.replicas == 0 then -rs.spec
    else Quotient(ToInt32(rs.spec * MaxTotal(d)), Annotated(rs, d)) - rs.spec
  }

  /** GetProportion. */
  function Proportion(rs: ReplicaSet, d: Deployment, toAdd: int, added: int): int {
    if rs.spec == 0 || toAdd == 0 || toAdd == added then 0
    else if toAdd > 0 then Min(Fraction(rs, d), toAdd - added)
    else Max(Fraction(rs, d), toAdd - added)
  }

  ghost predicate AllAnnotated(rss: seq<ReplicaSet>, d: Deployment) {
    forall i :: 0 <= i < |rss| ==> Annotated(rss[i], d) > 0
  }

  /** The running total after the first n ReplicaSets. */
  function Added(rss: seq<ReplicaSet>, n: nat, d: Deployment, toAdd: int): int
    requires n <= |rss|
  {
    if n == 0 then 0
    else Added(rss, n - 1, d, toAdd) + Proportion(rss[n - 1], d, toAdd, Added(rss, n - 1, d, toAdd))
  }

  /** The size estimated for ReplicaSet i. */
  function Estimate(rss: seq<ReplicaSet>, i: nat, d: Deployment, toAdd: int): int
    requires i < |rss|
  {
    rss[i].spec + Proportion(rss[i], d, toAdd, Added(rss, i, d, toAdd))
  }

  function Leftover(rss: seq<ReplicaSet>, d: Deployment, toAdd: int): int {
    toAdd - Added(rss, |rss|, d, toAdd)
  }

  /** The size written for ReplicaSet i: the first takes the leftover, but not below zero. */
  function Target(rss: seq<ReplicaSet>, i: nat, d: Deployment, toAdd: int): int
    requires i < |rss|
  {
    if toAdd == 0 then rss[i].spec
    else if i == 0 then Max(0, Estimate(rss, 0, d, toAdd) + Leftover(rss, d, toAdd))
    else Estimate(rss, i, d, toAdd)
  }

  function Targets(rss: seq<ReplicaSet>, d: Deployment, toAdd: int): (t: seq<int>)
    ensures |t| == |rss|
  {
    seq(|rss|, i requires 0 <= i < |rss| => Target(rss, i, d, toAdd))
  }

  function AllowedSize(d: Deployment): int {
    if d.replicas > 0 then d.replicas + MaxSurge(d) else 0
  }

  function ScalingOrder(toAdd: int, rss: seq<ReplicaSet>): seq<ReplicaSet> {
    if toAdd > 0 then Sort(BySizeNewer, rss)
    else if toAdd < 0 then Sort(BySizeOlder, rss)
    else rss
  }

  // ---------------------------------------------------------------- conservation

  function SumTo(t: seq<int>, n: nat): int
    requires n <= |t|
  {
    if n == 0 then 0 else SumTo(t, n - 1) + t[n - 1]
  }

  function Sum(t: seq<int>): int {
    SumTo(t, |t|)
  }

  function SpecTo(rss: seq<ReplicaSet>, n: nat): int
    requires n <= |rss|
  {
    if n == 0 then 0 else SpecTo(rss, n - 1) + rss[n - 1].spec
  }

  lemma {:induction false} SpecToIsTotal(rss: seq<ReplicaSet>, n: nat)
    requires n <= |rss|
    ensures SpecTo(rss, n) == Total(Spec, rss[..n])
  {
    if n > 0 {
      SpecToIsTotal(rss, n - 1);
      TotalSnoc(Spec, rss[..n - 1], rss[n - 1]);
      assert rss[..n] == rss[..n - 1] + [rss[n - 1]];
    }
  }

  /** What the proportional pass works on: active ReplicaSets whose annotations are positive
      and whose products fit the 32 bits they are computed in. */
  ghost predicate Scalable(rss: seq<ReplicaSet>, d: Deployment) {
    && AllAnnotated(rss, d)
    && forall i :: 0 <= i < |rss| ==> rss[i].spec > 0 && FitsInt32(rss[i].spec * MaxTotal(d))
  }

  lemma ScalableAreActive(rss: seq<ReplicaSet>, d: Deployment)
    requires Scalable(rss, d)
    ensures forall i :: 0 <= i < |rss| ==> rss[i].spec > 0
  {
  }

  /** No ReplicaSet is estimated below zero. */
  lemma FractionBound(rs: ReplicaSet, d: Deployment)
    requires Valid(d) && Annotated(rs, d) > 0 && rs.spec > 0 && FitsInt32(rs.spec * MaxTotal(d))
    ensures Fraction(rs, d) >= -rs.spec
  {
    FencepostsLeaveSlack(d);
    assert rs.spec * MaxTotal(d) >= 0;
  }

  /** The running total never passes what is to be added or removed, in the direction of
      travel, whatever the annotations say; with positive ones no estimate is negative. */
  lemma {:induction false} RunningTotalStaysInside(rss: seq<ReplicaSet>, n: nat, d: Deployment, toAdd: int)
    requires n <= |rss|
    ensures toAdd >= 0 ==> Added(rss, n, d, toAdd) <= toAdd
    ensures toAdd <= 0 ==> Added(rss, n, d, toAdd) >= toAdd
    ensures Valid(d) && Scalable(rss, d) ==> forall i :: 0 <= i < n ==> Estimate(rss, i, d, toAdd) >= 0
  {
    hide Fraction, Strategy.Valid;
    if n > 0 {
      RunningTotalStaysInside(rss, n - 1, d, toAdd);
      if Valid(d) && Scalable(rss, d) {
        FractionBound(rss[n - 1], d);
      }
    }
  }

  lemma {:induction false} TargetsSum(rss: seq<ReplicaSet>, n: nat, d: Deployment, toAdd: int)
    requires 0 < n <= |rss| && toAdd != 0
    ensures SumTo(Targets(rss, d, toAdd), n)
         == SpecTo(rss, n) + Added(rss, n, d, toAdd) + Target(rss, 0, d, toAdd) - Estimate(rss, 0, d, toAdd)
  {
    hide Proportion, Leftover;
    if n == 1 {
      assert Added(rss, 0, d, toAdd) == 0 && SpecTo(rss, 0) == 0;
      assert SumTo(Targets(rss, d, toAdd), 0) == 0;
    } else {
      TargetsSum(rss, n - 1, d, toAdd);
    }
  }

  lemma {:induction false} UnscaledSum(rss: seq<ReplicaSet>, n: nat, d: Deployment)
    requires n <= |rss|
    ensures SumTo(Targets(rss, d, 0), n) == SpecTo(rss, n)
  {
    hide Proportion, Leftover;
    if n > 0 {
      UnscaledSum(rss, n - 1, d);
    }
  }

  /** By how much the leftover would take the first ReplicaSet below zero. */
  function Overshoot(rss: seq<ReplicaSet>, d: Deployment, toAdd: int): int
    requires rss != []
  {
    if toAdd >= 0 then 0 else Max(0, -(Estimate(rss, 0, d, toAdd) + Leftover(rss, d, toAdd)))
  }

  /** Conservation: the sizes written are never negative and add up to the allowed size plus
      the overshoot.  So they add up to the allowed size exactly when the pass does not scale
      down by a leftover larger than the first ReplicaSet's estimate. */
  lemma ProportionalScalingConserves(rss: seq<ReplicaSet>, d: Deployment)
    requires Valid(d) && Scalable(rss, d) && rss != []
    ensures var toAdd := AllowedSize(d) - Total(Spec, rss);
            && (forall i :: 0 <= i < |rss| ==> Target(rss, i, d, toAdd) >= 0)
            && Sum(Targets(rss, d, toAdd)) == AllowedSize(d) + Overshoot(rss, d, toAdd)
            && (Sum(Targets(rss, d, toAdd)) == AllowedSize(d)
                <==> toAdd >= 0 || Estimate(rss, 0, d, toAdd) + Leftover(rss, d, toAdd) >= 0)
  {
    hide Fraction, Strategy.Valid, AllowedSize, Estimate, Added, Scalable;
    var toAdd := AllowedSize(d) - Total(Spec, rss);
    SpecToIsTotal(rss, |rss|);
    assert rss[..|rss|] == rss;
    RunningTotalStaysInside(rss, |rss|, d, toAdd);
    if toAdd == 0 {
      ScalableAreActive(rss, d);
      UnscaledSum(rss, |rss|, d);
    } else {
      TargetsSum(rss, |rss|, d, toAdd);
    }
  }

  /** Scaling to zero empties every ReplicaSet. */
  lemma ScalingToZeroEmptiesAll(rss: seq<ReplicaSet>, d: Deployment, n: nat)
    requires Valid(d) && Scalable(rss, d) && d.replicas == 0 && n <= |rss|
    ensures var toAdd := AllowedSize(d) - Total(Spec, rss);
            && Added(rss, n, d, toAdd) == -SpecTo(rss, n)
            && forall i :: 0 <= i < n ==> Target(rss, i, d, toAdd) == 0
  {
    ZeroEstimates(rss, |rss|, d);
    ZeroEstimates(rss, n, d);
    SpecToIsTotal(rss, |rss|);
    assert rss[..|rss|] == rss;
  }

  lemma ProportionAtZero(rs: ReplicaSet, d: Deployment, toAdd: int, added: int)
    requires d.replicas == 0 && rs.spec > 0
    requires toAdd <= added - rs.spec && added <= 0
    ensures Proportion(rs, d, toAdd, added) == -rs.spec
  {
  }

  lemma {:induction false} ZeroEstimates(rss: seq<ReplicaSet>, n: nat, d: Deployment)
    requires Valid(d) && Scalable(rss, d) && d.replicas == 0 && n <= |rss|
    ensures var toAdd := AllowedSize(d) - Total(Spec, rss);
            && Added(rss, n, d, toAdd) == -SpecTo(rss, n)
            && forall i :: 0 <= i < n ==> Estimate(rss, i, d, toAdd) == 0
  {
    hide Proportion, Annotated, Strategy.Valid, Strategy.MaxSurge, Total;
    if n > 0 {
      var toAdd := AllowedSize(d) - Total(Spec, rss);
      ZeroEstimates(rss, n - 1, d);
      SpecToIsTotal(rss, |rss|);
      assert rss[..|rss|] == rss;
      SpecToGrows(rss, n, |rss|);
      SpecToGrows(rss, 0, n - 1);
      assert SpecTo(rss, n) == SpecTo(rss, n - 1) + rss[n - 1].spec;
      ProportionAtZero(rss[n - 1], d, toAdd, Added(rss, n - 1, d, toAdd));
    }
  }

  lemma {:induction false} SpecToGrows(rss: seq<ReplicaSet>, n: nat, m: nat)
    requires n <= m <= |rss| && forall i :: 0 <= i < |rss| ==> rss[i].spec > 0
    ensures SpecTo(rss, n) <= SpecTo(rss, m)
    decreases m - n
  {
    if n < m {
      SpecToGrows(rss, n, m - 1);
    }
  }

  /** The overshoot is real even when every annotation is fresh: four ReplicaSets of one pod
      each, scaled from four pods to two, keep three. */
  lemma ScalingDownCanOvershoot() returns (rss: seq<ReplicaSet>, d: Deployment)
    ensures Valid(d) && Scalable(rss, d)
    ensures forall i :: 0 <= i < |rss| ==> rss[i].maxReplicas == Some(Total(Spec, rss))
    ensures AllowedSize(d) == 2 && Total(Spec, rss) == 4
    ensures Sum(Targets(rss, d, -2)) == 3
  {
    d := Deployment(2, RollingUpdate, Some(Count(0)), Some(Count(1)), 4, None);
    var rs := ReplicaSet(0, 0, 1, 1, 1, true, false, Some(4), Some(4), Absent);
    rss := [rs, rs.(name := 1), rs.(name := 2), rs.(name := 3)];
    TotalOfFour(rss);
    assert Scalable(rss, d) && forall i :: 0 <= i < 4 ==> Fraction(rss[i], d) == 0;
    hide Fraction, Annotated, Strategy.MaxSurge, Total;
    assert Added(rss, 0, d, -2) == 0 && Added(rss, 1, d, -2) == 0;
    assert Added(rss, 2, d, -2) == 0 && Added(rss, 3, d, -2) == 0 && Added(rss, 4, d, -2) == 0;
    var t := Targets(rss, d, -2);
    assert t == [0, 1, 1, 1];
    assert SumTo(t, 0) == 0 && SumTo(t, 1) == 0 && SumTo(t, 2) == 1 && SumTo(t, 3) == 2;
  }

  lemma TotalOfFour(rss: seq<ReplicaSet>)
    requires |rss| == 4
    ensures Total(Spec, rss) == rss[0].spec + rss[1].spec + rss[2].spec + rss[3].spec
  {
    SpecToIsTotal(rss, 4);
    assert rss[..4] == rss;
    assert SpecTo(rss, 0) == 0;
    assert SpecTo(rss, 1) == SpecTo(rss, 0) + rss[0].spec;
    assert SpecTo(rss, 2) == SpecTo(rss, 1) + rss[1].spec;
    assert SpecTo(rss, 3) == SpecTo(rss, 2) + rss[2].spec;
  }

  // ---------------------------------------------------------------- how large the leftover is

  /** Every annotation gives the size the Deployment has now. */
  ghost predicate Fresh(rss: seq<ReplicaSet>, d: Deployment) {
    forall i :: 0 <= i < |rss| ==> Annotated(rss[i], d) == Total(Spec, rss)
  }

  lemma RoundIsClose(p: int, q: int)
    requires q > 0 && p >= 0
    ensures 2 * p - q <= 2 * q * RoundDiv(p, q) <= 2 * p + q
  {
    var x, y := 2 * p + q, 2 * q;
    assert x == y * (x / y) + x % y;
  }

  /** A fraction differs from the exact proportion by at most a half. */
  lemma FractionIsClose(rs: ReplicaSet, d: Deployment, size: int)
    requires Valid(d) && d.replicas > 0 && rs.spec > 0 && FitsInt32(rs.spec * MaxTotal(d))
    requires Annotated(rs, d) == size > 0
    ensures -size <= 2 * size * Fraction(rs, d) - 2 * rs.spec * (MaxTotal(d) - size) <= size
  {
    hide RoundDiv, Strategy.Valid, Strategy.MaxSurge;
    FencepostsLeaveSlack(d);
    var p := rs.spec * MaxTotal(d);
    assert p >= 0;
    RoundIsClose(p, size);
    assert 2 * size * (RoundDiv(p, size) - rs.spec) == 2 * size * RoundDiv(p, size) - 2 * rs.spec * size;
    assert 2 * rs.spec * (MaxTotal(d) - size) == 2 * p - 2 * rs.spec * size;
  }

  /** How far the running total may be off after n ReplicaSets, counted in halves of the size;
      once it is where it has to be, it stays. */
  ghost predicate Close(rss: seq<ReplicaSet>, n: nat, d: Deployment, toAdd: int, size: int)
    requires n <= |rss|
  {
    var added := Added(rss, n, d, toAdd);
    || added == toAdd
    || (if toAdd < 0 then 2 * size * added <= 2 * SpecTo(rss, n) * toAdd + n * size
        else 2 * size * added >= 2 * SpecTo(rss, n) * toAdd - n * size)
  }

  /** One more ReplicaSet of `spec` pods, its fraction off by at most a half. */
  lemma CloseStep(size: int, toAdd: int, spec: int, fraction: int, specs: int, before: int, n: nat)
    requires -size <= 2 * size * fraction - 2 * spec * toAdd <= size
    ensures 2 * size * before <= 2 * specs * toAdd + n * size ==>
              2 * size * (before + fraction) <= 2 * (specs + spec) * toAdd + (n + 1) * size
    ensures 2 * size * before >= 2 * specs * toAdd - n * size ==>
              2 * size * (before + fraction) >= 2 * (specs + spec) * toAdd - (n + 1) * size
  {
    assert 2 * size * (before + fraction) == 2 * size * before + 2 * size * fraction;
    assert 2 * (specs + spec) * toAdd == 2 * specs * toAdd + 2 * spec * toAdd;
    assert (n + 1) * size == n * size + size;
  }

  lemma {:induction false} RunningTotalIsClose(rss: seq<ReplicaSet>, n: nat, d: Deployment, toAdd: int, size: int)
    requires n <= |rss| && Valid(d) && Scalable(rss, d) && d.replicas > 0 && size > 0
    requires toAdd == MaxTotal(d) - size && forall i :: 0 <= i < |rss| ==> Annotated(rss[i], d) == size
    ensures Close(rss, n, d, toAdd, size)
  {
    hide Fraction, Annotated, Strategy.Valid, MaxTotal, Close;
    if n == 0 {
      CloseAtStart(rss, d, toAdd, size);
    } else {
      RunningTotalIsClose(rss, n - 1, d, toAdd, size);
      FractionIsClose(rss[n - 1], d, size);
      CloseGrows(rss, n, d, toAdd, size);
    }
  }

  lemma CloseAtStart(rss: seq<ReplicaSet>, d: Deployment, toAdd: int, size: int)
    ensures Close(rss, 0, d, toAdd, size)
  {
  }

  lemma CloseGrows(rss: seq<ReplicaSet>, n: nat, d: Deployment, toAdd: int, size: int)
    requires 0 < n <= |rss| && rss[n - 1].spec > 0 && Close(rss, n - 1, d, toAdd, size)
    requires -size <= 2 * size * Fraction(rss[n - 1], d) - 2 * rss[n - 1].spec * toAdd <= size
    ensures Close(rss, n, d, toAdd, size)
  {
    hide Fraction;
    CloseStep(size, toAdd, rss[n - 1].spec, Fraction(rss[n - 1], d), SpecTo(rss, n - 1), Added(rss, n - 1, d, toAdd),
              n - 1);
  }

  lemma CloseToTheEnd(rss: seq<ReplicaSet>, d: Deployment, toAdd: int)
    requires Total(Spec, rss) > 0 && Close(rss, |rss|, d, toAdd, Total(Spec, rss))
    ensures toAdd < 0 ==> 2 * Leftover(rss, d, toAdd) >= -|rss|
    ensures toAdd >= 0 ==> 2 * Leftover(rss, d, toAdd) <= |rss|
  {
    hide Added, Total, SpecTo;
    var size, added := Total(Spec, rss), Added(rss, |rss|, d, toAdd);
    SpecToIsTotal(rss, |rss|);
    assert rss[..|rss|] == rss;
    if added != toAdd {
      if toAdd < 0 {
        Halve(size, added, toAdd, |rss|);
      } else {
        Halve(size, -added, -toAdd, |rss|);
      }
    }
  }

  /** With fresh annotations the leftover is at most half a pod for each ReplicaSet, in either
      direction, and so is the overshoot. */
  lemma FreshOvershootIsSmall(rss: seq<ReplicaSet>, d: Deployment)
    requires Valid(d) && Scalable(rss, d) && rss != [] && Fresh(rss, d)
    ensures var toAdd := AllowedSize(d) - Total(Spec, rss);
            && -|rss| <= 2 * Leftover(rss, d, toAdd) <= |rss|
            && 2 * Overshoot(rss, d, toAdd) <= |rss|
  {
    hide Fraction, Strategy.Valid, MaxTotal, Total, Estimate, Added, Close, Scalable;
    var size, n := Total(Spec, rss), |rss|;
    var toAdd := AllowedSize(d) - size;
    RunningTotalStaysInside(rss, n, d, toAdd);
    if d.replicas == 0 {
      SpecToIsTotal(rss, n);
      assert rss[..n] == rss;
      ZeroEstimates(rss, n, d);
      FencepostsLeaveSlack(d);
    } else {
      FreshSize(rss, d);
      RunningTotalIsClose(rss, n, d, toAdd, size);
      CloseToTheEnd(rss, d, toAdd);
    }
  }

  lemma FreshSize(rss: seq<ReplicaSet>, d: Deployment)
    requires Valid(d) && Scalable(rss, d) && rss != [] && Fresh(rss, d)
    ensures Total(Spec, rss) > 0
    ensures d.replicas > 0 ==> AllowedSize(d) == MaxTotal(d)
    ensures d.replicas >= 0
  {
    hide Annotated, Total;
    assert Annotated(rss[0], d) == Total(Spec, rss);
  }

  lemma Halve(size: int, added: int, toAdd: int, n: nat)
    requires size > 0 && 2 * size * added <= 2 * size * toAdd + n * size
    ensures 2 * (added - toAdd) <= n
  {
    var slack := n - 2 * (added - toAdd);
    assert size * slack >= 0;
  }

  // ---------------------------------------------------------------- the whole of scale

  /** FindActiveOrLatest: the only active ReplicaSet, or the newest when none is active. */
  function ActiveOrLatest(newRS: Option<ReplicaSet>, olds: seq<ReplicaSet>): Option<ReplicaSet> {
    var sorted := Sort(ByCreationReversed, olds);
    var active := Active(sorted + AsList(newRS));
    if |active| == 1 then Some(active[0])
    else if |active| > 1 then None
    else if newRS.Some? then newRS
    else if sorted != [] then Some(sorted[0])
    else None
  }

  function AsList(rs: Option<ReplicaSet>): seq<ReplicaSet> {
    if rs.Some? then [rs.value] else []
  }

  /** IsSaturated. */
  predicate Saturated(d: Deployment, rs: Option<ReplicaSet>) {
    && rs.Some?
    && rs.value.spec == d.replicas == rs.value.available
    && rs.value.desired == Some(d.replicas)
  }

  /** A loop of scaleReplicaSet over a list, from index i on; it stops at a refused write. */
  function WriteSizes(rss: seq<ReplicaSet>, sizes: seq<int>, i: nat, api: Api, d: Deployment): (p: Pass)
    requires i <= |rss| == |sizes|
    ensures |p.rss| == |rss|
    decreases |rss| - i
  {
    if i == |rss| then Pass(rss, 0, api, false)
    else if rss[i].spec == sizes[i] && !AnnotationsNeedUpdate(rss[i], d) then WriteSizes(rss, sizes, i + 1, api, d)
    else if api.budget == 0 then Pass(rss, 0, api, true)
    else
      var updated := ScaledTo(rss[i], sizes[i], d);
      WriteSizes(rss[i := updated], sizes, i + 1, api.Put(rss[i], updated), d)
  }

  lemma WriteTurn(rss: seq<ReplicaSet>, sizes: seq<int>, i: nat, api: Api, d: Deployment, updated: ReplicaSet)
    requires i < |rss| == |sizes| && updated == ScaledTo(rss[i], sizes[i], d)
    ensures WriteSizes(rss, sizes, i, api, d)
         == if rss[i].spec == sizes[i] && !AnnotationsNeedUpdate(rss[i], d) then WriteSizes(rss, sizes, i + 1, api, d)
            else if api.budget == 0 then Pass(rss, 0, api, true)
            else WriteSizes(rss[i := updated], sizes, i + 1, api.Put(rss[i], updated), d)
  {
  }

  lemma WriteStops(rss: seq<ReplicaSet>, sizes: seq<int>, api: Api, d: Deployment)
    requires |rss| == |sizes|
    ensures WriteSizes(rss, sizes, |rss|, api, d) == Pass(rss, 0, api, false)
  {
  }

  /** From i on, the sizes were written up to k and nothing after it. */
  ghost predicate CutShort(rss: seq<ReplicaSet>, sizes: seq<int>, out: seq<ReplicaSet>, i: nat, k: nat)
    requires k <= |rss| == |sizes| == |out|
  {
    && (forall j :: i <= j < k ==> out[j].spec == sizes[j])
    && (forall j :: k <= j < |rss| ==> out[j] == rss[j])
  }

  /** A run of writes that none refuses gives every ReplicaSet its size; one that is cut
      short leaves a prefix resized and the rest as it was. */
  lemma {:induction false} WriteSizesGivesSizes(rss: seq<ReplicaSet>, sizes: seq<int>, i: nat, api: Api, d: Deployment)
    requires i <= |rss| == |sizes|
    ensures var p := WriteSizes(rss, sizes, i, api, d);
            && (forall j :: 0 <= j < i ==> p.rss[j] == rss[j])
            && (!p.failed ==> forall j :: i <= j < |rss| ==> p.rss[j].spec == sizes[j])
            && (p.failed ==> exists k :: i <= k < |rss| && CutShort(rss, sizes, p.rss, i, k))
    decreases |rss| - i
  {
    hide ScaledTo, AnnotationsNeedUpdate;
    if i < |rss| {
      var updated := ScaledTo(rss[i], sizes[i], d);
      WriteTurn(rss, sizes, i, api, d, updated);
      ScaledSpec(rss[i], sizes[i], d);
      if rss[i].spec == sizes[i] && !AnnotationsNeedUpdate(rss[i], d) {
        WriteSizesGivesSizes(rss, sizes, i + 1, api, d);
      } else if api.budget > 0 {
        WriteSizesGivesSizes(rss[i := updated], sizes, i + 1, api.Put(rss[i], updated), d);
      } else {
        assert CutShort(rss, sizes, rss, i, i);
      }
      var p := WriteSizes(rss, sizes, i, api, d);
      if p.failed && (api.budget > 0 || (rss[i].spec == sizes[i] && !AnnotationsNeedUpdate(rss[i], d))) {
        var now := if rss[i].spec == sizes[i] && !AnnotationsNeedUpdate(rss[i], d) then rss else rss[i := updated];
        var k :| i + 1 <= k < |rss| && CutShort(now, sizes, p.rss, i + 1, k);
        assert CutShort(rss, sizes, p.rss, i, k);
      }
    }
  }

  lemma ScaledSpec(rs: ReplicaSet, size: int, d: Deployment)
    ensures ScaledTo(rs, size, d).spec == size
  {
  }

  /** Put together: when no write is refused, the ReplicaSets the server then holds have
      non-negative sizes that add up to the allowed size, plus the overshoot. */
  lemma SpreadReachesAllowedSize(rss: seq<ReplicaSet>, d: Deployment, api: Api)
    requires Valid(d) && Scalable(rss, d) && rss != []
    ensures var toAdd := AllowedSize(d) - Total(Spec, rss);
            var p := WriteSizes(rss, Targets(rss, d, toAdd), 0, api, d);
            !p.failed ==>
              && Total(Spec, p.rss) == AllowedSize(d) + Overshoot(rss, d, toAdd)
              && forall i :: 0 <= i < |p.rss| ==> p.rss[i].spec >= 0
  {
    hide Estimate, Leftover, Overshoot, Strategy.Valid, WriteSizes;
    var toAdd := AllowedSize(d) - Total(Spec, rss);
    var sizes := Targets(rss, d, toAdd);
    var p := WriteSizes(rss, sizes, 0, api, d);
    ProportionalScalingConserves(rss, d);
    WriteSizesGivesSizes(rss, sizes, 0, api, d);
    if !p.failed {
      SameSizesSameSum(p.rss, sizes, |sizes|);
      SpecToIsTotal(p.rss, |p.rss|);
      assert p.rss[..|p.rss|] == p.rss;
    }
  }

  lemma SameSizesSameSum(rss: seq<ReplicaSet>, sizes: seq<int>, n: nat)
    requires n <= |rss| == |sizes| && forall i :: 0 <= i < |rss| ==> rss[i].spec == sizes[i]
    ensures SpecTo(rss, n) == SumTo(sizes, n)
  {
  }

  /** The loop that empties the old ReplicaSets beside a saturated new one. */
  function WriteZeros(rss: seq<ReplicaSet>, i: nat, api: Api, d: Deployment): (p: Pass)
    requires i <= |rss|
    decreases |rss| - i
  {
    if i == |rss| then Pass(rss, 0, api, false)
    else if rss[i].spec == 0 then WriteZeros(rss, i + 1, api, d)
    else if api.budget == 0 then Pass(rss, 0, api, true)
    else
      var updated := ScaledTo(rss[i], 0, d);
      WriteZeros(rss[i := updated], i + 1, api.Put(rss[i], updated), d)
  }

  /** The ReplicaSets the proportional pass works on, in its order. */
  function Spread(newRS: Option<ReplicaSet>, olds: seq<ReplicaSet>, d: Deployment): seq<ReplicaSet> {
    var active := Active(Sort(ByCreationReversed, olds) + AsList(newRS));
    ScalingOrder(AllowedSize(d) - Total(Spec, active), active)
  }

  lemma SpreadKeepsSum(newRS: Option<ReplicaSet>, olds: seq<ReplicaSet>, d: Deployment)
    ensures Total(Spec, Spread(newRS, olds, d)) == Total(Spec, Active(Sort(ByCreationReversed, olds) + AsList(newRS)))
  {
    var active := Active(Sort(ByCreationReversed, olds) + AsList(newRS));
    TotalSort(Spec, BySizeNewer, active);
    TotalSort(Spec, BySizeOlder, active);
  }

  /** scale: the server afterwards, and whether a write was refused. */
  function Scale(d: Deployment, newRS: Option<ReplicaSet>, olds: seq<ReplicaSet>, api: Api): (Api, bool)
  {
    var only := ActiveOrLatest(newRS, olds);
    if only.Some? then
      if only.value.spec == d.replicas then (api, false)
      else if api.budget == 0 then (api, true)
      else (api.Put(only.value, ScaledTo(only.value, d.replicas, d)), false)
    else if Saturated(d, newRS) then
      var p := WriteZeros(Active(Sort(ByCreationReversed, olds)), 0, api, d);
      (p.api, p.failed)
    else if d.strategy.RollingUpdate? then
      var rss := Spread(newRS, olds, d);
      var p := WriteSizes(rss, Targets(rss, d, AllowedSize(d) - Total(Spec, rss)), 0, api, d);
      (p.api, p.failed)
    else (api, false)
  }

  // ---------------------------------------------------------------- the method

  lemma {:induction false} NothingToSpread(rss: seq<ReplicaSet>, n: nat, d: Deployment)
    requires n <= |rss|
    ensures Added(rss, n, d, 0) == 0
    ensures forall i :: 0 <= i < n ==> Estimate(rss, i, d, 0) == rss[i].spec
  {
    if n > 0 {
      NothingToSpread(rss, n - 1, d);
    }
  }

  lemma EstimateTurn(rss: seq<ReplicaSet>, i: nat, d: Deployment, toAdd: int, proportion: int)
    requires i < |rss| && proportion == Proportion(rss[i], d, toAdd, Added(rss, i, d, toAdd))
    ensures Added(rss, i + 1, d, toAdd) == Added(rss, i, d, toAdd) + proportion
    ensures Estimate(rss, i, d, toAdd) == rss[i].spec + proportion
    ensures toAdd == 0 ==> proportion == 0
  {
  }

  /** The first loop of the proportional pass: the size estimated for each name, and the
      running total. */
  method EstimateSizes(d: Deployment, allRSs: seq<ReplicaSet>, deploymentReplicasToAdd: int)
    returns (nameToSize: map<int, int>, deploymentReplicasAdded: int)
    requires DistinctNames(allRSs)
    ensures deploymentReplicasAdded == Added(allRSs, |allRSs|, d, deploymentReplicasToAdd)
    ensures forall j :: 0 <= j < |allRSs| ==>
              && allRSs[j].name in nameToSize
              && nameToSize[allRSs[j].name] == Estimate(allRSs, j, d, deploymentReplicasToAdd)
  {
    hide Proportion, Added, Estimate;
    deploymentReplicasAdded := 0;
    nameToSize := map[];
    NothingAddedYet(allRSs, d, deploymentReplicasToAdd);
    for i := 0 to |allRSs|
      invariant deploymentReplicasAdded == Added(allRSs, i, d, deploymentReplicasToAdd)
      invariant forall j :: 0 <= j < i ==>
                  && allRSs[j].name in nameToSize
                  && nameToSize[allRSs[j].name] == Estimate(allRSs, j, d, deploymentReplicasToAdd)
    {
      var rs := allRSs[i];
      EstimateTurn(allRSs, i, d, deploymentReplicasToAdd,
                   Proportion(rs, d, deploymentReplicasToAdd, deploymentReplicasAdded));
      if deploymentReplicasToAdd != 0 {
        var proportion := Proportion(rs, d, deploymentReplicasToAdd, deploymentReplicasAdded);
        nameToSize := nameToSize[rs.name := rs.spec + proportion];
        deploymentReplicasAdded := deploymentReplicasAdded + proportion;
      } else {
        nameToSize := nameToSize[rs.name := rs.spec];
      }
    }
  }

  lemma NothingAddedYet(rss: seq<ReplicaSet>, d: Deployment, toAdd: int)
    ensures Added(rss, 0, d, toAdd) == 0
  {
  }

  /** Both loops: estimate, give the leftover to the first, and write. */
  method SpreadReplicas(dc: DeploymentController, d: Deployment, allRSs: seq<ReplicaSet>, deploymentReplicasToAdd: int)
    returns (err: bool)
    requires DistinctNames(allRSs)
    modifies dc
    ensures var p := WriteSizes(allRSs, Targets(allRSs, d, deploymentReplicasToAdd), 0, old(dc.api), d);
            dc.api == p.api && err == p.failed
  {
    hide ScaledTo, AnnotationsNeedUpdate, WriteSizes, Api.Put, Estimate, Added;
    var nameToSize, deploymentReplicasAdded := EstimateSizes(d, allRSs, deploymentReplicasToAdd);
    NothingToSpread(allRSs, |allRSs|, d);
    ghost var sizes := Targets(allRSs, d, deploymentReplicasToAdd);
    ghost var written := allRSs;
    for i := 0 to |allRSs|
      invariant |written| == |allRSs| && forall j :: i <= j < |written| ==> written[j] == allRSs[j]
      invariant forall j :: 0 <= j < |allRSs| ==> allRSs[j].name in nameToSize
      invariant i == 0 ==> forall j :: 0 <= j < |allRSs| ==>
                  nameToSize[allRSs[j].name] == Estimate(allRSs, j, d, deploymentReplicasToAdd)
      invariant forall j :: 0 < j < |allRSs| ==> nameToSize[allRSs[j].name] == sizes[j]
      invariant WriteSizes(written, sizes, i, dc.api, d) == WriteSizes(allRSs, sizes, 0, old(dc.api), d)
    {
      var rs := allRSs[i];
      if i == 0 && deploymentReplicasToAdd != 0 {
        var leftover := deploymentReplicasToAdd - deploymentReplicasAdded;
        nameToSize := nameToSize[rs.name := nameToSize[rs.name] + leftover];
        if nameToSize[rs.name] < 0 {
          nameToSize := nameToSize[rs.name := 0];
        }
      }
      assert nameToSize[rs.name] == sizes[i];
      WriteTurn(written, sizes, i, dc.api, d, ScaledTo(rs, sizes[i], d));
      var _, updated, e := dc.ScaleReplicaSet(rs, nameToSize[rs.name], d);
      if e {
        return true;
      }
      if rs.spec != sizes[i] || AnnotationsNeedUpdate(rs, d) {
        written := written[i := updated];
      }
    }
    WriteStops(written, sizes, dc.api, d);
    return false;
  }

  /** scale: one size for the only active ReplicaSet, zero for the old ones beside a saturated
      new one, and otherwise the proportional pass. */
  method ScaleDeployment(dc: DeploymentController, d: Deployment, newRS: Option<ReplicaSet>, oldRSs: array<ReplicaSet>)
    returns (err: bool)
    requires DistinctNames(Spread(newRS, oldRSs[..], d))
    modifies dc, oldRSs
    ensures (dc.api, err) == Scale(d, newRS, old(oldRSs[..]), old(dc.api))
  {
    hide Sort, ScaledTo, WriteSizes, WriteZeros, Api.Put, Targets, AllowedSize, Active, Total, ActiveOrLatest;
    SpreadKeepsSum(newRS, oldRSs[..], d);
    var activeOrLatest := FindActiveOrLatest(newRS, oldRSs);
    if activeOrLatest.Some? {
      if activeOrLatest.value.spec == d.replicas {
        return false;
      }
      var _, _, e := dc.ScaleReplicaSetAndRecordEvent(activeOrLatest.value, d.replicas, d);
      return e;
    }
    if Saturated(d, newRS) {
      var olds := FilterActiveReplicaSets(oldRSs[..]);
      err := EmptyReplicaSets(dc, d, olds);
      return;
    }
    if d.strategy.RollingUpdate? {
      err := ScaleRollingUpdate(dc, d, newRS, oldRSs[..]);
      return;
    }
    return false;
  }

  /** The last case of scale; `oldRSs` is as FindActiveOrLatest left it. */
  method ScaleRollingUpdate(dc: DeploymentController, d: Deployment, newRS: Option<ReplicaSet>, oldRSs: seq<ReplicaSet>)
    returns (err: bool)
    requires var active := Active(oldRSs + AsList(newRS));
             var rss := ScalingOrder(AllowedSize(d) - Total(Spec, active), active);
             DistinctNames(rss)
    modifies dc
    ensures var active := Active(oldRSs + AsList(newRS));
            var toAdd := AllowedSize(d) - Total(Spec, active);
            var rss := ScalingOrder(toAdd, active);
            var p := WriteSizes(rss, Targets(rss, d, toAdd), 0, old(dc.api), d);
            dc.api == p.api && err == p.failed
  {
    hide Sort, WriteSizes, Targets, Active, Total, Strategy.MaxSurge;
    var active := FilterActiveReplicaSets(oldRSs + AsList(newRS));
    var allRSsReplicas := CountPods(Spec, active);
    var allowedSize := 0;
    if d.replicas > 0 {
      allowedSize := d.replicas + MaxSurge(d);
    }
    var deploymentReplicasToAdd := allowedSize - allRSsReplicas;
    var allRSs := new ReplicaSet[|active|](i requires 0 <= i < |active| => active[i]);
    assert allRSs[..] == active;
    if deploymentReplicasToAdd > 0 {
      SortInPlace(BySizeNewer, allRSs);
    } else if deploymentReplicasToAdd < 0 {
      SortInPlace(BySizeOlder, allRSs);
    }
    assert allRSs[..] == ScalingOrder(deploymentReplicasToAdd, active);
    err := SpreadReplicas(dc, d, allRSs[..], deploymentReplicasToAdd);
  }

  method FindActiveOrLatest(newRS: Option<ReplicaSet>, oldRSs: array<ReplicaSet>) returns (rs: Option<ReplicaSet>)
    modifies oldRSs
    ensures rs == ActiveOrLatest(newRS, old(oldRSs[..]))
    ensures oldRSs[..] == Sort(ByCreationReversed, old(oldRSs[..]))
  {
    if newRS.None? && oldRSs.Length == 0 {
      return None;
    }
    SortInPlace(ByCreationReversed, oldRSs);
    SortPermutes(ByCreationReversed, old(oldRSs[..]));
    var allRSs := FilterActiveReplicaSets(oldRSs[..] + AsList(newRS));
    if |allRSs| == 0 {
      if newRS.Some? {
        return newRS;
      }
      return Some(oldRSs[0]);
    } else if |allRSs| == 1 {
      return Some(allRSs[0]);
    } else {
      return None;
    }
  }

  method EmptyReplicaSets(dc: DeploymentController, d: Deployment, olds: seq<ReplicaSet>) returns (err: bool)
    modifies dc
    ensures var p := WriteZeros(olds, 0, old(dc.api), d);
            dc.api == p.api && err == p.failed
  {
    ghost var written := olds;
    for i := 0 to |olds|
      invariant |written| == |olds| && forall j :: i <= j < |written| ==> written[j] == olds[j]
      invariant WriteZeros(written, i, dc.api, d) == WriteZeros(olds, 0, old(dc.api), d)
    {
      var _, updated, e := dc.ScaleReplicaSetAndRecordEvent(olds[i], 0, d);
      if e {
        return true;
      }
      if olds[i].spec != 0 {
        written := written[i := updated];
      }
    }
    return false;
  }
}
