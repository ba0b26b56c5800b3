/** What SetWeight writes and what VerifyWeight reads, told by the JSON of the VirtualServices. */
module RouterWrites {
  import opened Common
  import opened Istio

  // ---------------------------------------------------------------- a route as it is written

  /** The text of a field; "" where there is none. */
  function TextAt(o: Json, key: string): string {
    if o.Object? && key in o.fields && o.fields[key].Text? then o.fields[key].s else ""
  }

  /** The reference means this route: it names no routes, or this one. */
  predicate Means(ref: Ref, route: Json) {
    |ref.routes| == 0 || exists k :: 0 <= k < |ref.routes| && ref.routes[k] == TextAt(route, "name")
  }

  predicate HasTwo(route: Json) {
    route.Object? && "route" in route.fields && route.fields["route"].List? && |route.fields["route"].items| >= 2
  }

  function Share(host: string, weight: int): Json {
    Object(map["destination" := Object(map["host" := Text(host)]), "weight" := Int(weight)])
  }

  /** The route with exactly two destinations, the canary at the weight and the stable one at
      the rest; everything else as it was. */
  function Shifted(route: Json, canary: string, stable: string, weight: int): Json
    requires route.Object?
  {
    Object(route.fields["route" := List([Share(canary, weight), Share(stable, 100 - weight)])])
  }

  /** The route after a reference to its VirtualService was applied. */
  function AppliedTo(route: Json, ref: Ref, canary: string, stable: string, weight: int): Json {
    if route.Object? && Means(ref, route) && HasTwo(route) then Shifted(route, canary, stable, weight) else route
  }

  lemma RewriteIsAppliedTo(routes: seq<Json>, ref: Ref, canary: string, stable: string, weight: int)
    requires Fits(weight)
    ensures var r := Rewrite(routes, ref.routes, canary, stable, weight);
            && (r.Some? <==> forall k :: 0 <= k < |routes| ==> routes[k].Object?)
            && (r.Some? ==> forall k :: 0 <= k < |routes| ==> r.value[k] == AppliedTo(routes[k], ref, canary, stable, weight))
  {
    forall k | 0 <= k < |routes| && routes[k].Object?
      ensures RewriteOne(routes[k], ref.routes, canary, stable, weight) == AppliedTo(routes[k], ref, canary, stable, weight)
    {
      assert Means(ref, routes[k]) <==> Selects(ref.routes, NameOf(routes[k]));
    }
  }

  lemma AppliedTwice(route: Json, ref: Ref, other: Ref, canary: string, stable: string, weight: int)
    ensures var once := AppliedTo(route, ref, canary, stable, weight);
            && once.Object? == route.Object?
            && AppliedTo(once, other, canary, stable, weight)
               == if route.Object? && HasTwo(route) && (Means(ref, route) || Means(other, route))
                  then Shifted(route, canary, stable, weight) else route
  {
    if route.Object? {
      var once := Shifted(route, canary, stable, weight);
      assert TextAt(once, "name") == TextAt(route, "name") && HasTwo(once);
      assert Shifted(once, canary, stable, weight) == once;
    }
  }

  // ---------------------------------------------------------------- the whole router

  /** A reference that can be applied: its VirtualService is there, with a list of objects. */
  predicate Applies(mesh: Mesh, ref: Ref) {
    && ref.name in mesh.services && mesh.services[ref.name].Routes?
    && var routes := mesh.services[ref.name].routes; forall k :: 0 <= k < |routes| ==> routes[k].Object?
  }

  /** Some reference from i on means this route of that VirtualService. */
  ghost predicate Meant(refs: seq<Ref>, i: nat, name: string, route: Json) {
    exists j :: i <= j < |refs| && refs[j].name == name && Means(refs[j], route)
  }

  /** The mesh after the references from i on. */
  ghost predicate Shift(mesh: Mesh, after: Mesh, refs: seq<Ref>, i: nat, canary: string, stable: string, weight: int) {
    && after.services.Keys == mesh.services.Keys
    && (forall name :: name in mesh.services && !mesh.services[name].Routes? ==> after.services[name] == mesh.services[name])
    && forall name :: name in mesh.services && mesh.services[name].Routes? ==>
         ShiftOne(mesh.services[name].routes, after.services[name], refs, i, name, canary, stable, weight)
  }

  ghost predicate ShiftOne(routes: seq<Json>, after: Http, refs: seq<Ref>, i: nat, name: string,
                           canary: string, stable: string, weight: int) {
    && after.Routes? && |after.routes| == |routes|
    && forall k :: 0 <= k < |routes| ==>
         after.routes[k] == if routes[k].Object? && HasTwo(routes[k]) && Meant(refs, i, name, routes[k])
                            then Shifted(routes[k], canary, stable, weight) else routes[k]
  }

  lemma PatchOneApplies(mesh: Mesh, ref: Ref, canary: string, stable: string, weight: int)
    requires Fits(weight)
    ensures var (next, err) := PatchOne(mesh, ref, canary, stable, weight);
            && (err <==> !Applies(mesh, ref) || mesh.budget == 0)
            && (err ==> next == mesh)
            && (!err ==>
                  && next.budget == mesh.budget - 1 && next.services.Keys == mesh.services.Keys
                  && (forall name :: name in mesh.services && name != ref.name ==> next.services[name] == mesh.services[name])
                  && var before, after := mesh.services[ref.name], next.services[ref.name];
                     && after.Routes? && |after.routes| == |before.routes|
                     && forall k :: 0 <= k < |before.routes| ==>
                          after.routes[k] == AppliedTo(before.routes[k], ref, canary, stable, weight))
  {
    hide Rewrite, AppliedTo;
    if ref.name in mesh.services && mesh.services[ref.name].Routes? {
      RewriteIsAppliedTo(mesh.services[ref.name].routes, ref, canary, stable, weight);
    }
  }

  lemma AppliesAfterwards(mesh: Mesh, ref: Ref, other: Ref, canary: string, stable: string, weight: int)
    requires Fits(weight) && !PatchOne(mesh, ref, canary, stable, weight).1
    ensures Applies(PatchOne(mesh, ref, canary, stable, weight).0, other) == Applies(mesh, other)
  {
    hide PatchOne, AppliedTo;
    PatchOneApplies(mesh, ref, canary, stable, weight);
    if other.name == ref.name {
      var routes := mesh.services[ref.name].routes;
      forall k | 0 <= k < |routes|
        ensures AppliedTo(routes[k], ref, canary, stable, weight).Object? == routes[k].Object?
      {
        AppliedTwice(routes[k], ref, ref, canary, stable, weight);
      }
    }
  }

  lemma MeantFrom(refs: seq<Ref>, i: nat, name: string, route: Json)
    requires i < |refs|
    ensures Meant(refs, i, name, route) <==> (refs[i].name == name && Means(refs[i], route)) || Meant(refs, i + 1, name, route)
  {
  }

  /** Applying one reference and then the others: a route is shifted once or twice, which is the
      same. */
  lemma ShiftTurn(mesh: Mesh, after: Mesh, refs: seq<Ref>, i: nat, canary: string, stable: string, weight: int)
    requires Fits(weight) && i < |refs| && !PatchOne(mesh, refs[i], canary, stable, weight).1
    requires Shift(PatchOne(mesh, refs[i], canary, stable, weight).0, after, refs, i + 1, canary, stable, weight)
    ensures Shift(mesh, after, refs, i, canary, stable, weight)
  {
    hide PatchOne, Means, HasTwo, Shifted, Meant, AppliedTo;
    var next := PatchOne(mesh, refs[i], canary, stable, weight).0;
    PatchOneApplies(mesh, refs[i], canary, stable, weight);
    forall name | name in mesh.services && mesh.services[name].Routes?
      ensures ShiftOne(mesh.services[name].routes, after.services[name], refs, i, name, canary, stable, weight)
    {
      var routes := mesh.services[name].routes;
      assert ShiftOne(next.services[name].routes, after.services[name], refs, i + 1, name, canary, stable, weight);
      forall k | 0 <= k < |routes|
        ensures after.services[name].routes[k]
             == if routes[k].Object? && HasTwo(routes[k]) && Meant(refs, i, name, routes[k])
                then Shifted(routes[k], canary, stable, weight) else routes[k]
      {
        MeantFrom(refs, i, name, routes[k]);
        if name == refs[i].name {
          ShiftedRouteIsMeant(routes[k], refs, i, canary, stable, weight);
        }
      }
    }
  }

  lemma ShiftedRouteIsMeant(route: Json, refs: seq<Ref>, i: nat, canary: string, stable: string, weight: int)
    requires i < |refs|
    ensures var once, name := AppliedTo(route, refs[i], canary, stable, weight), refs[i].name;
            && once.Object? == route.Object?
            && Meant(refs, i + 1, name, once) == Meant(refs, i + 1, name, route)
            && (if once.Object? && HasTwo(once) && Meant(refs, i + 1, name, once)
                then Shifted(once, canary, stable, weight) else once)
               == if route.Object? && HasTwo(route) && (Means(refs[i], route) || Meant(refs, i + 1, name, route))
                  then Shifted(route, canary, stable, weight) else route
  {
    if route.Object? {
      var once := Shifted(route, canary, stable, weight);
      assert TextAt(once, "name") == TextAt(route, "name") && HasTwo(once);
      assert Shifted(once, canary, stable, weight) == once;
      assert forall ref :: Means(ref, once) == Means(ref, route);
    }
  }

  /** A SetWeight succeeds exactly when every reference can be applied and as many patches are
      accepted; it then shifts each route that some reference means, and no other. */
  lemma {:induction false} SetWeightShifts(mesh: Mesh, refs: seq<Ref>, i: nat, canary: string, stable: string, weight: int)
    requires Fits(weight) && i <= |refs|
    ensures var (after, err) := PatchFrom(mesh, refs, i, canary, stable, weight);
            && (!err <==> mesh.budget >= |refs| - i && forall j :: i <= j < |refs| ==> Applies(mesh, refs[j]))
            && (!err ==> Shift(mesh, after, refs, i, canary, stable, weight) && after.budget == mesh.budget - (|refs| - i))
    decreases |refs| - i
  {
    hide PatchOne, Shift, Applies;
    if i == |refs| {
      NothingShifts(mesh, refs, canary, stable, weight);
    } else {
      PatchOneApplies(mesh, refs[i], canary, stable, weight);
      var (next, err) := PatchOne(mesh, refs[i], canary, stable, weight);
      if !err {
        SetWeightShifts(next, refs, i + 1, canary, stable, weight);
        forall j | i <= j < |refs| ensures Applies(next, refs[j]) == Applies(mesh, refs[j]) {
          AppliesAfterwards(mesh, refs[i], refs[j], canary, stable, weight);
        }
        if !PatchFrom(next, refs, i + 1, canary, stable, weight).1 {
          ShiftTurn(mesh, PatchFrom(next, refs, i + 1, canary, stable, weight).0, refs, i, canary, stable, weight);
        }
      }
    }
  }

  lemma NothingShifts(mesh: Mesh, refs: seq<Ref>, canary: string, stable: string, weight: int)
    ensures Shift(mesh, mesh, refs, |refs|, canary, stable, weight)
  {
  }

  // ---------------------------------------------------------------- reading back

  /** The weight a destination has, as a 32-bit integer; 0 where there is none. */
  function Share32(dest: Json): int {
    if dest.Object? && "weight" in dest.fields && dest.fields["weight"].Int?
    then (dest.fields["weight"].n + 2_147_483_648) % 4_294_967_296 - 2_147_483_648 else 0
  }

  predicate GoesTo(dest: Json, host: string) {
    && dest.Object?
    && host == if "destination" in dest.fields then TextAt(dest.fields["destination"], "host") else ""
  }

  /** Every destination at the canary host, of each route the reference means, has the weight. */
  ghost predicate Shows(mesh: Mesh, ref: Ref, canary: string, weight: int) {
    && ref.name in mesh.services && mesh.services[ref.name].Routes?
    && forall route, dest ::
         (route in mesh.services[ref.name].routes && dest in Items(route) && Means(ref, route) && GoesTo(dest, canary)) ==>
           Share32(dest) == weight
  }

  function Items(route: Json): seq<Json> {
    if route.Object? && "route" in route.fields && route.fields["route"].List? then route.fields["route"].items else []
  }

  lemma VerifyOneReads(mesh: Mesh, ref: Ref, canary: string, weight: int)
    ensures VerifyOne(mesh, ref, canary, weight)
         == if ref.name !in mesh.services || mesh.services[ref.name].NotAList? then None
            else Some(Shows(mesh, ref, canary, weight))
  {
    if ref.name in mesh.services && mesh.services[ref.name].Routes? {
      var routes := mesh.services[ref.name].routes;
      forall route, dest ensures GoesTo(dest, canary) <==> dest.Object? && HostOf(dest) == canary
        ensures dest.Object? ==> Share32(dest) == WeightOf(dest)
        ensures Items(route) == Destinations(route)
        ensures Means(ref, route) <==> Selects(ref.routes, NameOf(route))
      {
      }
      if Verify(routes, ref.routes, canary, weight) {
        forall route, dest | route in routes && dest in Items(route) && Means(ref, route) && GoesTo(dest, canary)
          ensures Share32(dest) == weight
        {
          var i :| 0 <= i < |routes| && routes[i] == route;
          assert RoutePasses(routes[i], ref.routes, canary, weight);
          var k :| 0 <= k < |Destinations(route)| && Destinations(route)[k] == dest;
          assert DestinationPasses(Destinations(route)[k], canary, weight);
        }
      } else {
        var i :| 0 <= i < |routes| && !RoutePasses(routes[i], ref.routes, canary, weight);
        var k :| 0 <= k < |Destinations(routes[i])| && !DestinationPasses(Destinations(routes[i])[k], canary, weight);
        assert routes[i] in routes && Destinations(routes[i])[k] in Items(routes[i]);
      }
    }
  }

  /** VerifyWeight answers true exactly when every reference shows the weight; otherwise the
      first that does not decides between an error and a plain no. */
  lemma {:induction false} VerifyWeightReads(mesh: Mesh, refs: seq<Ref>, i: nat, canary: string, weight: int)
    requires i <= |refs|
    ensures var r := VerifyFrom(mesh, refs, i, canary, weight);
            || (r == Some(true) && forall j :: i <= j < |refs| ==> Shows(mesh, refs[j], canary, weight))
            || exists j :: && i <= j < |refs| && !Shows(mesh, refs[j], canary, weight)
                           && (forall k :: i <= k < j ==> Shows(mesh, refs[k], canary, weight))
                           && r == if refs[j].name !in mesh.services || mesh.services[refs[j].name].NotAList?
                                   then None else Some(false)
    decreases |refs| - i
  {
    hide VerifyOne, Shows;
    if i < |refs| {
      VerifyOneReads(mesh, refs[i], canary, weight);
      AbsentShowsNothing(mesh, refs[i], canary, weight);
      VerifyWeightReads(mesh, refs, i + 1, canary, weight);
      if !Shows(mesh, refs[i], canary, weight) {
        assert VerifyOne(mesh, refs[i], canary, weight) != Some(true);
      }
    }
  }

  lemma AbsentShowsNothing(mesh: Mesh, ref: Ref, canary: string, weight: int)
    ensures ref.name !in mesh.services || mesh.services[ref.name].NotAList? ==> !Shows(mesh, ref, canary, weight)
  {
  }
}
