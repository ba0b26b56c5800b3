/** ReplicaSets and Deployments as the controller sees them, the sort orders it uses,
    and the sums it takes over lists of ReplicaSets. */
module ReplicaSets {
  import opened Common

  /** The revision annotation after strconv.ParseInt. */
  datatype Revision = Absent | Number(n: int) | Unparsable

  /** Names are only compared, so an integer stands for each.  `observed` says that the
      ReplicaSet controller has seen the current generation. */
  datatype ReplicaSet = ReplicaSet(
    name: int, created: int,
    spec: int, available: int, replicas: int,
    observed: bool, deleting: bool,
    desired: Option<int>, maxReplicas: Option<int>,
    revision: Revision)

  datatype StrategyType = RollingUpdate | Recreate | OtherStrategy

  datatype Deployment = Deployment(
    replicas: int, strategy: StrategyType,
    maxSurge: Option<IntOrPercent>, maxUnavailable: Option<IntOrPercent>,
    statusReplicas: int, revisionHistoryLimit: Option<int>)

  // ---------------------------------------------------------------- sums

  /** The quantities that are summed over lists of ReplicaSets.  A pod that survives a
      deletion of the unavailable ones first is `Healthy`; available ones beyond the size are
      `Surplus`. */
  datatype Quantity = Spec | Available | Healthy | Surplus

  function Of(q: Quantity, rs: ReplicaSet): int {
    match q
    case Spec => rs.spec
    case Available => rs.available
    case Healthy => Min(rs.available, rs.spec)
    case Surplus => Max(0, rs.available - rs.spec)
  }

  function Total(q: Quantity, rss: seq<ReplicaSet>): int {
    if rss == [] then 0 else Of(q, rss[0]) + Total(q, rss[1..])
  }

  lemma {:induction false} TotalConcat(q: Quantity, a: seq<ReplicaSet>, b: seq<ReplicaSet>)
    ensures Total(q, a + b) == Total(q, a) + Total(q, b)
  {
    if a == [] {
      assert a + b == b;
    } else {
      assert (a + b)[1..] == a[1..] + b;
      TotalConcat(q, a[1..], b);
    }
  }

  lemma TotalSnoc(q: Quantity, a: seq<ReplicaSet>, x: ReplicaSet)
    ensures Total(q, a + [x]) == Total(q, a) + Of(q, x)
  {
    TotalConcat(q, a, [x]);
  }

  lemma {:induction false} TotalUpdate(q: Quantity, a: seq<ReplicaSet>, i: nat, x: ReplicaSet)
    requires i < |a|
    ensures Total(q, a[i := x]) == Total(q, a) - Of(q, a[i]) + Of(q, x)
  {
    if i > 0 {
      assert a[i := x][1..] == a[1..][i - 1 := x];
      TotalUpdate(q, a[1..], i - 1, x);
    } else {
      assert a[i := x][1..] == a[1..];
    }
  }

  /** GetReplicaCountForReplicaSets and GetAvailableReplicaCountForReplicaSets: a running sum. */
  method CountPods(q: Quantity, rss: seq<ReplicaSet>) returns (total: int)
    ensures total == Total(q, rss)
  {
    total := 0;
    for i := 0 to |rss|
      invariant total == Total(q, rss[..i])
    {
      TotalSnoc(q, rss[..i], rss[i]);
      assert rss[..i + 1] == rss[..i] + [rss[i]];
      total := total + Of(q, rss[i]);
    }
    assert rss[..|rss|] == rss;
  }

  // ---------------------------------------------------------------- filters

  /** FilterActiveReplicaSets: those that have (or ought to have) pods. */
  function Active(rss: seq<ReplicaSet>): (r: seq<ReplicaSet>)
    ensures forall x :: x in r <==> x in rss && x.spec > 0
    ensures |r| <= |rss|
  {
    if rss == [] then []
    else if rss[0].spec > 0 then [rss[0]] + Active(rss[1..])
    else Active(rss[1..])
  }

  function Inactive(rss: seq<ReplicaSet>): (r: seq<ReplicaSet>)
    ensures forall x :: x in r <==> x in rss && x.spec <= 0
  {
    if rss == [] then []
    else if rss[0].spec > 0 then Inactive(rss[1..])
    else [rss[0]] + Inactive(rss[1..])
  }

  lemma {:induction false} ActiveSnoc(rss: seq<ReplicaSet>, x: ReplicaSet)
    ensures Active(rss + [x]) == Active(rss) + if x.spec > 0 then [x] else []
  {
    if rss == [] {
      assert rss + [x] == [x];
    } else {
      assert (rss + [x])[1..] == rss[1..] + [x];
      ActiveSnoc(rss[1..], x);
    }
  }

  lemma {:induction false} FilterSplits(rss: seq<ReplicaSet>)
    ensures multiset(rss) == multiset(Active(rss)) + multiset(Inactive(rss))
  {
    if rss != [] {
      FilterSplits(rss[1..]);
      assert rss == [rss[0]] + rss[1..];
    }
  }

  lemma {:induction false} TotalActive(q: Quantity, rss: seq<ReplicaSet>)
    ensures Total(q, rss) == Total(q, Active(rss)) + Total(q, Inactive(rss))
  {
    if rss != [] {
      TotalActive(q, rss[1..]);
    }
  }

  method FilterActiveReplicaSets(rss: seq<ReplicaSet>) returns (filtered: seq<ReplicaSet>)
    ensures filtered == Active(rss)
  {
    filtered := [];
    for i := 0 to |rss|
      invariant filtered == Active(rss[..i])
    {
      ActiveSnoc(rss[..i], rss[i]);
      assert rss[..i + 1] == rss[..i] + [rss[i]];
      if rss[i].spec > 0 {
        filtered := filtered + [rss[i]];
      }
    }
    assert rss[..|rss|] == rss;
  }

  // ---------------------------------------------------------------- sort orders

  datatype Order = ByCreation | ByCreationReversed | BySizeOlder | BySizeNewer | ByRevision

  predicate Older(a: ReplicaSet, b: ReplicaSet) {
    if a.created == b.created then a.name < b.name else a.created < b.created
  }

  /** An absent revision annotation reads as 0. */
  function RevisionNumber(r: Revision): Option<int> {
    match r
    case Absent => Some(0)
    case Number(n) => Some(n)
    case Unparsable => None
  }

  /** The Less methods of the sort.Interface types, sort.Reverse included. */
  predicate Less(o: Order, a: ReplicaSet, b: ReplicaSet) {
    match o
    case ByCreation => Older(a, b)
    case ByCreationReversed => Older(b, a)
    case BySizeOlder => if a.spec == b.spec then Older(a, b) else a.spec > b.spec
    case BySizeNewer => if a.spec == b.spec then Older(b, a) else a.spec > b.spec
    case ByRevision =>
      var ra, rb := RevisionNumber(a.revision), RevisionNumber(b.revision);
      if ra.None? || rb.None? || ra == rb then Older(a, b) else ra.value < rb.value
  }

  ghost predicate DistinctNames(rss: seq<ReplicaSet>) {
    forall i, j :: 0 <= i < j < |rss| ==> rss[i].name != rss[j].name
  }

  ghost predicate Ordered(o: Order, rss: seq<ReplicaSet>) {
    forall i, j :: 0 <= i < j < |rss| ==> Less(o, rss[i], rss[j])
  }

  /** Whatever the annotations, each of these orders decides between two ReplicaSets with
      distinct names, and never both ways. */
  lemma LessDecides(o: Order, a: ReplicaSet, b: ReplicaSet)
    ensures !Less(o, a, a) && !(Less(o, a, b) && Less(o, b, a))
    ensures a.name != b.name ==> Less(o, a, b) || Less(o, b, a)
  {
  }

  /** a was created before b; the name decides between equal times. */
  predicate CreatedBefore(a: ReplicaSet, b: ReplicaSet) {
    a.created < b.created || (a.created == b.created && a.name < b.name)
  }

  /** What each order puts first: the older one, or the newer one; the larger one, and among
      equals the older or the newer one; the smaller readable revision, an absent one being 0,
      and the older one where the revisions do not decide. */
  lemma OrdersMean(a: ReplicaSet, b: ReplicaSet)
    ensures Less(ByCreation, a, b) <==> CreatedBefore(a, b)
    ensures Less(ByCreationReversed, a, b) <==> CreatedBefore(b, a)
    ensures Less(BySizeOlder, a, b) <==> a.spec > b.spec || (a.spec == b.spec && CreatedBefore(a, b))
    ensures Less(BySizeNewer, a, b) <==> a.spec > b.spec || (a.spec == b.spec && CreatedBefore(b, a))
    ensures a.revision.Number? && b.revision.Number? && a.revision.n != b.revision.n ==>
              (Less(ByRevision, a, b) <==> a.revision.n < b.revision.n)
    ensures a.revision.Absent? && b.revision.Number? && b.revision.n != 0 ==>
              (Less(ByRevision, a, b) <==> b.revision.n > 0) && (Less(ByRevision, b, a) <==> b.revision.n < 0)
    ensures a.revision.Unparsable? || b.revision.Unparsable? || a.revision == b.revision ==>
              (Less(ByRevision, a, b) <==> CreatedBefore(a, b))
  {
  }

  /** An unreadable revision is ordered by age against everything: c closes a cycle with two
      readable ones whose numbers run against the ages around c. */
  predicate Conflict(a: ReplicaSet, b: ReplicaSet, c: ReplicaSet) {
    var ra, rb := RevisionNumber(a.revision), RevisionNumber(b.revision);
    c.revision.Unparsable? && ra.Some? && rb.Some? && ra.value < rb.value && Older(b, c) && Older(c, a)
  }

  /** No conflict; only the revision order can have one. */
  ghost predicate Sortable(o: Order, rss: seq<ReplicaSet>) {
    o.ByRevision? ==> forall a, b, c :: a in rss && b in rss && c in rss ==> !Conflict(a, b, c)
  }

  ghost predicate Transitive(o: Order, rss: seq<ReplicaSet>) {
    forall a, b, c :: a in rss && b in rss && c in rss && Less(o, a, b) && Less(o, b, c) ==> Less(o, a, c)
  }

  lemma ThreeAreTransitive(o: Order, a: ReplicaSet, b: ReplicaSet, c: ReplicaSet)
    requires Less(o, a, b) && Less(o, b, c)
    requires a.name != c.name || a == c
    requires o.ByRevision? ==> !Conflict(a, b, c) && !Conflict(b, c, a) && !Conflict(c, a, b)
    ensures Less(o, a, c)
  {
  }

  /** Exactly when a comparator is a strict total order over distinct names: always, but for
      the revision order, which is transitive if and only if no unreadable revision stands in
      conflict with two readable ones. */
  lemma TransitiveIffSortable(o: Order, rss: seq<ReplicaSet>)
    requires DistinctNames(rss)
    ensures Transitive(o, rss) <==> Sortable(o, rss)
  {
    if Sortable(o, rss) {
      forall a, b, c | a in rss && b in rss && c in rss && Less(o, a, b) && Less(o, b, c) ensures Less(o, a, c) {
        SameName(rss, a, c);
        ThreeAreTransitive(o, a, b, c);
      }
    } else {
      var a, b, c :| a in rss && b in rss && c in rss && Conflict(a, b, c);
      assert Less(o, a, b) && Less(o, b, c) && Less(o, c, a);
      LessDecides(o, a, c);
    }
  }

  lemma SameName(rss: seq<ReplicaSet>, a: ReplicaSet, b: ReplicaSet)
    requires DistinctNames(rss) && a in rss && b in rss
    ensures a.name == b.name ==> a == b
  {
  }

  /** One unreadable revision is enough to make the revision order cyclic: the annotated
      pair is ordered by number, the unreadable one by age against both. */
  lemma RevisionOrderNeedsParsableRevisions() returns (a: ReplicaSet, b: ReplicaSet, c: ReplicaSet)
    ensures a.name != b.name && b.name != c.name && a.name != c.name
    ensures Less(ByRevision, a, b) && Less(ByRevision, b, c) && Less(ByRevision, c, a)
  {
    a := ReplicaSet(0, 3, 0, 0, 0, true, false, None, None, Number(1));
    b := ReplicaSet(1, 1, 0, 0, 0, true, false, None, None, Number(2));
    c := ReplicaSet(2, 2, 0, 0, 0, true, false, None, None, Unparsable);
  }

  function Insert(o: Order, x: ReplicaSet, rss: seq<ReplicaSet>): seq<ReplicaSet> {
    if rss == [] then [x]
    else if Less(o, rss[0], x) then [rss[0]] + Insert(o, x, rss[1..])
    else [x] + rss
  }

  /** What sort.Sort leaves in the slice: see SortedIsUnique. */
  function Sort(o: Order, rss: seq<ReplicaSet>): seq<ReplicaSet> {
    if rss == [] then [] else Insert(o, rss[0], Sort(o, rss[1..]))
  }

  lemma {:induction false} InsertPermutes(o: Order, x: ReplicaSet, rss: seq<ReplicaSet>)
    ensures multiset(Insert(o, x, rss)) == multiset(rss) + multiset{x}
  {
    if rss != [] && Less(o, rss[0], x) {
      InsertPermutes(o, x, rss[1..]);
      assert rss == [rss[0]] + rss[1..];
    }
  }

  lemma {:induction false} SortPermutes(o: Order, rss: seq<ReplicaSet>)
    ensures multiset(Sort(o, rss)) == multiset(rss)
    ensures |Sort(o, rss)| == |rss|
    ensures forall x :: x in Sort(o, rss) <==> x in rss
  {
    hide Insert;
    if rss != [] {
      SortPermutes(o, rss[1..]);
      InsertPermutes(o, rss[0], Sort(o, rss[1..]));
      assert rss == [rss[0]] + rss[1..];
    }
    SameElements(Sort(o, rss), rss);
  }

  lemma SameElements(a: seq<ReplicaSet>, b: seq<ReplicaSet>)
    requires multiset(a) == multiset(b)
    ensures |a| == |b| && forall x :: x in a <==> x in b
  {
    assert |multiset(a)| == |multiset(b)|;
    forall x ensures x in a <==> x in b {
      assert x in a <==> x in multiset(a);
      assert x in b <==> x in multiset(b);
    }
  }

  lemma {:induction false} TotalInsert(q: Quantity, o: Order, x: ReplicaSet, rss: seq<ReplicaSet>)
    ensures Total(q, Insert(o, x, rss)) == Of(q, x) + Total(q, rss)
  {
    if rss != [] && Less(o, rss[0], x) {
      TotalInsert(q, o, x, rss[1..]);
    }
  }

  /** Sorting does not change a sum. */
  lemma {:induction false} TotalSort(q: Quantity, o: Order, rss: seq<ReplicaSet>)
    ensures Total(q, Sort(o, rss)) == Total(q, rss)
  {
    if rss != [] {
      TotalSort(q, o, rss[1..]);
      TotalInsert(q, o, rss[0], Sort(o, rss[1..]));
    }
  }

  lemma TransitiveOver(o: Order, big: seq<ReplicaSet>, small: seq<ReplicaSet>)
    requires Transitive(o, big) && forall x :: x in small ==> x in big
    ensures Transitive(o, small)
  {
  }

  lemma {:induction false} InsertOrders(o: Order, x: ReplicaSet, rss: seq<ReplicaSet>)
    requires Ordered(o, rss) && Transitive(o, [x] + rss)
    requires forall y :: y in rss ==> y.name != x.name
    ensures Ordered(o, Insert(o, x, rss))
    ensures forall y :: y in Insert(o, x, rss) <==> y == x || y in rss
  {
    hide Less, Transitive;
    if rss == [] {
    } else if Less(o, rss[0], x) {
      TransitiveOver(o, [x] + rss, [x] + rss[1..]);
      InsertOrders(o, x, rss[1..]);
      forall y | y in Insert(o, x, rss[1..]) ensures Less(o, rss[0], y) {
        if y != x {
          assert y in rss[1..];
        }
      }
    } else {
      LessDecides(o, x, rss[0]);
      forall y | y in rss ensures Less(o, x, y) {
        FirstIsLess(o, x, rss, y);
      }
    }
  }

  lemma FirstIsLess(o: Order, x: ReplicaSet, rss: seq<ReplicaSet>, y: ReplicaSet)
    requires rss != [] && Ordered(o, rss) && Transitive(o, [x] + rss)
    requires y in rss && Less(o, x, rss[0])
    ensures Less(o, x, y)
  {
    hide Less;
    var j :| 0 <= j < |rss| && rss[j] == y;
    assert x in [x] + rss && rss[0] in [x] + rss && y in [x] + rss;
  }

  lemma {:induction false} TransitiveSortOrders(o: Order, rss: seq<ReplicaSet>)
    requires DistinctNames(rss) && Transitive(o, rss)
    ensures Ordered(o, Sort(o, rss))
  {
    hide Less, Transitive, Insert;
    if rss != [] {
      TransitiveOver(o, rss, rss[1..]);
      TransitiveSortOrders(o, rss[1..]);
      SortPermutes(o, rss[1..]);
      TransitiveOver(o, rss, [rss[0]] + Sort(o, rss[1..]));
      InsertOrders(o, rss[0], Sort(o, rss[1..]));
    }
  }

  /** Over distinct names sorting sorts if and only if the list has no conflict: with one, no
      arrangement of it is sorted. */
  lemma SortOrders(o: Order, rss: seq<ReplicaSet>)
    requires DistinctNames(rss)
    ensures Ordered(o, Sort(o, rss)) <==> Sortable(o, rss)
  {
    hide Less, Transitive, Sortable, Sort;
    TransitiveIffSortable(o, rss);
    SortPermutes(o, rss);
    if Sortable(o, rss) {
      TransitiveSortOrders(o, rss);
    } else if Ordered(o, Sort(o, rss)) {
      OrderedIsTransitive(o, Sort(o, rss));
      TransitiveOver(o, Sort(o, rss), rss);
      assert false;
    }
  }

  lemma OrderedIsTransitive(o: Order, rss: seq<ReplicaSet>)
    requires Ordered(o, rss)
    ensures Transitive(o, rss)
  {
    hide Less;
    forall a, b, c | a in rss && b in rss && c in rss && Less(o, a, b) && Less(o, b, c) ensures Less(o, a, c) {
      var i :| 0 <= i < |rss| && rss[i] == a;
      var j :| 0 <= j < |rss| && rss[j] == b;
      var k :| 0 <= k < |rss| && rss[k] == c;
      LessDecides(o, a, b);
      LessDecides(o, b, c);
      LessDecides(o, a, a);
    }
  }

  /** Any sorted arrangement of the same ReplicaSets is the one Sort returns, so nothing
      below depends on which sorting algorithm the library uses. */
  lemma {:induction false} SortedIsUnique(o: Order, a: seq<ReplicaSet>, b: seq<ReplicaSet>)
    requires |a| == |b| && forall x :: x in a <==> x in b
    requires Ordered(o, a) && Ordered(o, b)
    ensures a == b
  {
    hide Less;
    if a != [] {
      assert a[0] in b && b[0] in a;
      if a[0] != b[0] {
        LessDecides(o, a[0], b[0]);
        assert false;
      }
      forall x ensures x in a[1..] <==> x in b[1..] {
        LessDecides(o, a[0], a[0]);
        assert x in a[1..] <==> x in a && x != a[0];
        assert x in b[1..] <==> x in b && x != b[0];
      }
      SortedIsUnique(o, a[1..], b[1..]);
    }
  }

  lemma {:induction false} SortKeepsDistinctNames(o: Order, rss: seq<ReplicaSet>)
    requires DistinctNames(rss)
    ensures DistinctNames(Sort(o, rss))
  {
    if rss != [] {
      SortKeepsDistinctNames(o, rss[1..]);
      SortPermutes(o, rss[1..]);
      InsertKeepsDistinctNames(o, rss[0], Sort(o, rss[1..]));
    }
  }

  lemma {:induction false} InsertKeepsDistinctNames(o: Order, x: ReplicaSet, rss: seq<ReplicaSet>)
    requires DistinctNames(rss)
    requires forall y :: y in rss ==> y.name != x.name
    ensures DistinctNames(Insert(o, x, rss))
    ensures forall y :: y in Insert(o, x, rss) <==> y == x || y in rss
  {
    if rss != [] && Less(o, rss[0], x) {
      InsertKeepsDistinctNames(o, x, rss[1..]);
      forall y | y in Insert(o, x, rss[1..]) ensures rss[0].name != y.name {
        if y != x {
          assert y in rss[1..];
        }
      }
    }
  }

  /** sort.Sort on a slice, which it rearranges in place. */
  method SortInPlace(o: Order, a: array<ReplicaSet>)
    modifies a
    ensures a[..] == Sort(o, old(a[..]))
  {
    ghost var before := a[..];
    SortPermutes(o, before);
    var sorted := Sort(o, a[..]);
    for i := 0 to a.Length
      invariant a[..i] == sorted[..i]
    {
      a[i] := sorted[i];
    }
    assert a[..] == a[..a.Length] && sorted == sorted[..a.Length];
  }
}
