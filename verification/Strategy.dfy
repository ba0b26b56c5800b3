/** The rolling-update arithmetic of deployment_util.go: surge, unavailability and the
    size the new ReplicaSet may grow to. */
module Strategy {
  import opened Common
  import opened ReplicaSets

  /** What API validation admits: a size and two non-negative fenceposts. */
  ghost predicate Valid(d: Deployment) {
    && d.replicas >= 0
    && d.strategy.RollingUpdate?
    && NonNegative(d.maxSurge)
    && NonNegative(d.maxUnavailable)
  }

  ghost predicate NonNegative(v: Option<IntOrPercent>) {
    v.Some? && match v.value
               case Count(n) => n >= 0
               case Percent(p) => p >= 0
               case Malformed => false
  }

  /** Both fenceposts, resolved together: (surge, unavailable), or None on an error. */
  function ResolveFenceposts(maxSurge: Option<IntOrPercent>, maxUnavailable: Option<IntOrPercent>, desired: int)
    : (r: Option<(int, int)>)
    ensures r.Some? ==> r.value != (0, 0)
  {
    var surge := ScaledValue(maxSurge.GetOr(Count(0)), desired, true);
    var unavailable := ScaledValue(maxUnavailable.GetOr(Count(0)), desired, false);
    if surge.None? || unavailable.None? then None
    else if surge.value == 0 && unavailable.value == 0 then Some((0, 1))
    else Some((surge.value, unavailable.value))
  }

  /** An error leaves both of Go's named results at zero. */
  function Fenceposts(d: Deployment): (int, int) {
    ResolveFenceposts(d.maxSurge, d.maxUnavailable, d.replicas).GetOr((0, 0))
  }

  function MaxUnavailable(d: Deployment): int {
    if !d.strategy.RollingUpdate? || d.replicas == 0 then 0
    else if Fenceposts(d).1 > d.replicas then d.replicas
    else Fenceposts(d).1
  }

  function MaxSurge(d: Deployment): int {
    if !d.strategy.RollingUpdate? then 0 else Fenceposts(d).0
  }

  /** The least number of available pods a rolling update may leave. */
  function MinAvailable(d: Deployment): int {
    d.replicas - MaxUnavailable(d)
  }

  function MaxTotal(d: Deployment): int {
    d.replicas + MaxSurge(d)
  }

  /** NewRSNewReplicas, given the pod count over all ReplicaSets; None stands for an error. */
  function NewRSNewReplicas(d: Deployment, currentPodCount: int, newSize: int): Option<int> {
    match d.strategy
    case RollingUpdate =>
      if d.maxSurge.None? then None
      else
        var maxSurge := ScaledValue(d.maxSurge.value, d.replicas, true);
        if maxSurge.None? then None
        else
          var maxTotalPods := d.replicas + maxSurge.value;
          if currentPodCount >= maxTotalPods then Some(newSize)
          else Some(newSize + Min(maxTotalPods - currentPodCount, d.replicas - newSize))
    case Recreate => Some(d.replicas)
    case OtherStrategy => None
  }

  /** The two fenceposts leave room to move: neither is negative, the floor lies between 0
      and the desired size, and a non-empty Deployment has one pod of slack at least. */
  lemma FencepostsLeaveSlack(d: Deployment)
    requires Valid(d)
    ensures 0 <= MaxUnavailable(d) <= d.replicas
    ensures 0 <= MaxSurge(d)
    ensures d.replicas > 0 ==> MaxSurge(d) + MaxUnavailable(d) >= 1
  {
  }

  /** What a count or a percentage of `total` comes to when it is rounded up, or down. */
  ghost predicate RoundedUp(v: IntOrPercent, total: int, n: int) {
    match v
    case Count(count) => n == count
    case Percent(p) => 100 * (n - 1) < p * total <= 100 * n
    case Malformed => false
  }

  ghost predicate RoundedDown(v: IntOrPercent, total: int, n: int) {
    match v
    case Count(count) => n == count
    case Percent(p) => 100 * n <= p * total < 100 * (n + 1)
    case Malformed => false
  }

  /** What the two fenceposts are: the surge is rounded up and the unavailable pods are rounded
      down, to no more than the size, and to one when both come to nothing. */
  lemma FencepostsRound(d: Deployment) returns (s: int, u: int)
    requires Valid(d)
    ensures RoundedUp(d.maxSurge.value, d.replicas, s) && RoundedDown(d.maxUnavailable.value, d.replicas, u)
    ensures MaxSurge(d) == s
    ensures MaxTotal(d) == d.replicas + s
    ensures MaxUnavailable(d) == Min(if s == 0 && u == 0 then 1 else u, d.replicas)
    ensures MinAvailable(d) == d.replicas - Min(if s == 0 && u == 0 then 1 else u, d.replicas)
  {
    s := ScaledValue(d.maxSurge.value, d.replicas, true).value;
    u := ScaledValue(d.maxUnavailable.value, d.replicas, false).value;
  }

  /** Without values they are counts of nothing, which leaves one pod unavailable; text that is
      neither a count nor a percentage takes both away; and other strategies have none. */
  lemma FencepostsDefault(d: Deployment)
    requires d.replicas > 0
    ensures d.maxSurge.None? && d.maxUnavailable.None? && d.strategy.RollingUpdate? ==>
              MaxSurge(d) == 0 && MaxUnavailable(d) == 1
    ensures d.maxUnavailable.None? && d.maxSurge.Some? && d.maxSurge.value.Count? && d.maxSurge.value.n > 0
            && d.strategy.RollingUpdate? ==>
              MaxSurge(d) == d.maxSurge.value.n && MaxUnavailable(d) == 0
    ensures d.maxSurge == Some(Malformed) || d.maxUnavailable == Some(Malformed) || !d.strategy.RollingUpdate? ==>
              MaxSurge(d) == 0 && MaxUnavailable(d) == 0
  {
  }

  /** The roundings leave no choice. */
  lemma RoundingIsUnique(v: IntOrPercent, total: int, a: int, b: int)
    ensures RoundedUp(v, total, a) && RoundedUp(v, total, b) ==> a == b
    ensures RoundedDown(v, total, a) && RoundedDown(v, total, b) ==> a == b
  {
  }

  /** NewRSNewReplicas reads MaxSurge on its own, yet it works to the same ceiling that
      ResolveFenceposts gives. */
  lemma GrowthIsBounded(d: Deployment, currentPodCount: int, newSize: int)
    requires Valid(d) && newSize <= d.replicas
    ensures var r := NewRSNewReplicas(d, currentPodCount, newSize);
            && r.Some?
            && newSize <= r.value <= d.replicas
            && currentPodCount - newSize + r.value <= Max(currentPodCount, MaxTotal(d))
            && (r.value == newSize <==> newSize == d.replicas || currentPodCount >= MaxTotal(d))
            && (r.value == d.replicas || currentPodCount - newSize + r.value >= MaxTotal(d))
  {
  }

  /** Under Recreate the whole size is wanted at once; another strategy is an error, and so is a
      rolling update whose surge is missing or cannot be read. */
  lemma GrowthUnderOthers(d: Deployment, currentPodCount: int, newSize: int)
    ensures d.strategy == Recreate ==> NewRSNewReplicas(d, currentPodCount, newSize) == Some(d.replicas)
    ensures d.strategy == OtherStrategy ==> NewRSNewReplicas(d, currentPodCount, newSize) == None
    ensures d.strategy == RollingUpdate ==>
              (NewRSNewReplicas(d, currentPodCount, newSize) == None <==> d.maxSurge.None? || d.maxSurge == Some(Malformed))
  {
  }
}
