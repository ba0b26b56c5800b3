/** The Istio provider: rewriting the weights of a VirtualService's HTTP routes and reading
    them back. */
module Istio {
  import opened Common

  /** Unstructured JSON values; a number is Int when it decodes to an int64. */
  datatype Json =
    | Null
    | Boolean(b: bool)
    | Int(n: int)
    | OtherNumber
    | Text(s: string)
    | List(items: seq<Json>)
    | Object(fields: map<string, Json>)

  function Field(o: Json, key: string): Json {
    if o.Object? && key in o.fields then o.fields[key] else Null
  }

  function TextOf(j: Json): string {
    if j.Text? then j.s else ""
  }

  function NameOf(route: Json): string {
    TextOf(Field(route, "name"))
  }

  /** NestedSlice with its error ignored: anything but a list counts as empty. */
  function Destinations(route: Json): seq<Json> {
    if Field(route, "route").List? then Field(route, "route").items else []
  }

  function HostOf(dest: Json): string {
    TextOf(Field(Field(dest, "destination"), "host"))
  }

  /** A missing weight reads as 0; any other is cut to 32 bits. */
  function WeightOf(dest: Json): int {
    if Field(dest, "weight").Int? then ToInt32(Field(dest, "weight").n) else 0
  }

  /** routeSelector: no names select every route. */
  predicate Selects(names: seq<string>, name: string) {
    names == [] || name in names
  }

  function Destination(host: string, weight: int): Json {
    Object(map["destination" := Object(map["host" := Text(host)]), "weight" := Int(weight)])
  }

  function Weighted(canary: string, stable: string, weight: int): seq<Json> {
    [Destination(canary, weight), Destination(stable, ToInt32(100 - weight))]
  }

  predicate Rewritable(route: Json, names: seq<string>) {
    Selects(names, NameOf(route)) && |Destinations(route)| >= 2
  }

  function RewriteOne(route: Json, names: seq<string>, canary: string, stable: string, weight: int): Json
    requires route.Object?
  {
    if Rewritable(route, names)
    then Object(route.fields["route" := List(Weighted(canary, stable, weight))]) else route
  }

  /** rewriteHTTPRoutes; None when an element is not an object. */
  function Rewrite(routes: seq<Json>, names: seq<string>, canary: string, stable: string, weight: int)
    : (r: Option<seq<Json>>)
    ensures r.Some? ==> |r.value| == |routes|
  {
    if exists i :: 0 <= i < |routes| && !routes[i].Object? then None
    else Some(seq(|routes|, i requires 0 <= i < |routes| =>
           if routes[i].Object? then RewriteOne(routes[i], names, canary, stable, weight) else Null))
  }

  /** One destination of a matched route passes: it names another host, or has the weight. */
  predicate DestinationPasses(dest: Json, canary: string, weight: int) {
    dest.Object? && HostOf(dest) == canary ==> WeightOf(dest) == weight
  }

  predicate RoutePasses(route: Json, names: seq<string>, canary: string, weight: int) {
    route.Object? && Selects(names, NameOf(route)) ==>
      forall k :: 0 <= k < |Destinations(route)| ==> DestinationPasses(Destinations(route)[k], canary, weight)
  }

  /** verifyHTTPWeight on the list of routes. */
  predicate Verify(routes: seq<Json>, names: seq<string>, canary: string, weight: int) {
    forall i :: 0 <= i < |routes| ==> RoutePasses(routes[i], names, canary, weight)
  }

  // ---------------------------------------------------------------- the loops

  /** rewriteHTTPRoutes: the matched routes change in place, and `out` collects them all. */
  method RewriteHTTPRoutes(routes: array<Json>, names: seq<string>, canary: string, stable: string, weight: int)
    returns (out: seq<Json>, err: bool)
    modifies routes
    ensures err == Rewrite(old(routes[..]), names, canary, stable, weight).None?
    ensures !err ==> Some(out) == Rewrite(old(routes[..]), names, canary, stable, weight) && routes[..] == out
  {
    hide Rewritable, Weighted, Selects;
    out := [];
    var i := 0;
    while i < routes.Length
      invariant 0 <= i <= routes.Length && |out| == i
      invariant forall k :: 0 <= k < i ==> old(routes[k]).Object?
      invariant forall k :: 0 <= k < i ==> routes[k] == out[k] == RewriteOne(old(routes[k]), names, canary, stable, weight)
      invariant forall k :: i <= k < routes.Length ==> routes[k] == old(routes[k])
    {
      var route := routes[i];
      if !route.Object? {
        assert !old(routes[..])[i].Object?;
        return [], true;
      }
      if Rewritable(route, names) {
        routes[i] := Object(route.fields["route" := List(Weighted(canary, stable, weight))]);
      }
      out := out + [routes[i]];
      i := i + 1;
    }
    err := false;
    assert forall k :: 0 <= k < routes.Length ==> old(routes[..])[k] == old(routes[k]);
    assert out == Rewrite(old(routes[..]), names, canary, stable, weight).value;
    assert routes[..] == out;
  }

  method VerifyHTTPWeight(routes: seq<Json>, names: seq<string>, canary: string, weight: int) returns (ok: bool)
    ensures ok == Verify(routes, names, canary, weight)
  {
    hide Selects, HostOf, WeightOf;
    for i := 0 to |routes|
      invariant forall k :: 0 <= k < i ==> RoutePasses(routes[k], names, canary, weight)
    {
      var route := routes[i];
      if !route.Object? || !Selects(names, NameOf(route)) {
        continue;
      }
      var dests := Destinations(route);
      for j := 0 to |dests|
        invariant forall k :: 0 <= k < j ==> DestinationPasses(dests[k], canary, weight)
      {
        var dest := dests[j];
        if !dest.Object? || HostOf(dest) != canary {
          continue;
        }
        if WeightOf(dest) != weight {
          assert !DestinationPasses(Destinations(routes[i])[j], canary, weight);
          assert !RoutePasses(routes[i], names, canary, weight);
          return false;
        }
      }
    }
    return true;
  }

  // ---------------------------------------------------------------- one VirtualService

  /** A weight and its complement within 32 bits, as every percentage is. */
  predicate Fits(weight: int) {
    FitsInt32(weight) && FitsInt32(100 - weight)
  }

  lemma WeightedDestinations(route: Json, names: seq<string>, canary: string, stable: string, weight: int)
    requires route.Object? && Fits(weight)
    ensures var r := RewriteOne(route, names, canary, stable, weight);
            && r.Object? && NameOf(r) == NameOf(route)
            && (Rewritable(route, names) ==> Destinations(r) == Weighted(canary, stable, weight))
            && (!Rewritable(route, names) ==> r == route)
  {
  }

  lemma WeightedPasses(canary: string, stable: string, weight: int, expected: int, k: nat)
    requires Fits(weight) && k < 2
    ensures DestinationPasses(Weighted(canary, stable, weight)[k], canary, expected)
            <==> if k == 0 then weight == expected else stable == canary ==> 100 - weight == expected
  {
  }

  /** A matched route left alone because it has fewer than two destinations. */
  predicate LeftAlone(route: Json, names: seq<string>) {
    route.Object? && Selects(names, NameOf(route)) && !Rewritable(route, names)
  }

  lemma RewrittenRoutePasses(route: Json, names: seq<string>, canary: string, stable: string, weight: int, expected: int)
    requires route.Object? && Fits(weight)
    ensures RoutePasses(RewriteOne(route, names, canary, stable, weight), names, canary, expected)
            <==> if Rewritable(route, names) then weight == expected && (stable == canary ==> 100 - weight == expected)
                 else RoutePasses(route, names, canary, expected)
  {
    hide Selects, RewriteOne, Rewritable, DestinationPasses, Weighted;
    WeightedDestinations(route, names, canary, stable, weight);
    var r := RewriteOne(route, names, canary, stable, weight);
    if Rewritable(route, names) {
      WeightedPasses(canary, stable, weight, expected, 0);
      WeightedPasses(canary, stable, weight, expected, 1);
      WeightedHasTwo(canary, stable, weight);
      RewritableIsSelected(route, names);
      assert RoutePasses(r, names, canary, expected) <==>
             DestinationPasses(Destinations(r)[0], canary, expected) && DestinationPasses(Destinations(r)[1], canary, expected);
    }
  }

  lemma WeightedHasTwo(canary: string, stable: string, weight: int)
    ensures |Weighted(canary, stable, weight)| == 2
  {
  }

  lemma RewritableIsSelected(route: Json, names: seq<string>)
    requires Rewritable(route, names)
    ensures Selects(names, NameOf(route))
  {
  }

  /** Put, then get: verifying the weight just written succeeds exactly when the two hosts
      differ (or the split is even, or nothing was rewritten) and no matched route that was
      left alone gives the canary host another weight. */
  lemma RewriteThenVerify(routes: seq<Json>, names: seq<string>, canary: string, stable: string, weight: int)
    requires Fits(weight) && Rewrite(routes, names, canary, stable, weight).Some?
    ensures Verify(Rewrite(routes, names, canary, stable, weight).value, names, canary, weight)
            <==> (&& (canary != stable || weight == 50 || forall i :: 0 <= i < |routes| ==> !Rewritable(routes[i], names))
                  && forall i :: 0 <= i < |routes| && LeftAlone(routes[i], names) ==> RoutePasses(routes[i], names, canary, weight))
  {
    VerifyAfterRewrite(routes, names, canary, stable, weight, weight);
  }

  lemma VerifyAfterRewrite(routes: seq<Json>, names: seq<string>, canary: string, stable: string, weight: int, expected: int)
    requires Fits(weight) && Rewrite(routes, names, canary, stable, weight).Some?
    ensures Verify(Rewrite(routes, names, canary, stable, weight).value, names, canary, expected)
            <==> forall i :: 0 <= i < |routes| ==>
                   if Rewritable(routes[i], names) then weight == expected && (stable == canary ==> 100 - weight == expected)
                   else RoutePasses(routes[i], names, canary, expected)
  {
    hide RewriteOne, Rewritable, RoutePasses;
    var out := Rewrite(routes, names, canary, stable, weight).value;
    forall i | 0 <= i < |routes|
      ensures out[i] == RewriteOne(routes[i], names, canary, stable, weight)
      ensures RoutePasses(out[i], names, canary, expected)
              <==> if Rewritable(routes[i], names) then weight == expected && (stable == canary ==> 100 - weight == expected)
                   else RoutePasses(routes[i], names, canary, expected)
    {
      RewrittenRoutePasses(routes[i], names, canary, stable, weight, expected);
    }
  }

  /** Verifying any other weight fails as soon as one route was rewritten. */
  lemma VerifyOfAnotherWeightFails(routes: seq<Json>, names: seq<string>, canary: string, stable: string,
                                   weight: int, other: int, i: nat)
    requires Fits(weight) && Rewrite(routes, names, canary, stable, weight).Some?
    requires other != weight && i < |routes| && Rewritable(routes[i], names)
    ensures !Verify(Rewrite(routes, names, canary, stable, weight).value, names, canary, other)
  {
    VerifyAfterRewrite(routes, names, canary, stable, weight, other);
  }

  /** The last write wins; with the same weight, writing again changes nothing. */
  lemma LastRewriteWins(routes: seq<Json>, names: seq<string>, canary: string, stable: string, first: int, last: int)
    requires Fits(first) && Fits(last) && Rewrite(routes, names, canary, stable, first).Some?
    ensures Rewrite(Rewrite(routes, names, canary, stable, first).value, names, canary, stable, last)
         == Rewrite(routes, names, canary, stable, last)
  {
    hide RewriteOne;
    var once := Rewrite(routes, names, canary, stable, first).value;
    forall i | 0 <= i < |routes|
      ensures once[i].Object?
      ensures RewriteOne(once[i], names, canary, stable, last) == RewriteOne(routes[i], names, canary, stable, last)
    {
      LastRewriteOfOneWins(routes[i], names, canary, stable, first, last);
    }
    assert Rewrite(once, names, canary, stable, last).Some? && Rewrite(routes, names, canary, stable, last).Some?;
    assert Rewrite(once, names, canary, stable, last).value == Rewrite(routes, names, canary, stable, last).value;
  }

  lemma LastRewriteOfOneWins(route: Json, names: seq<string>, canary: string, stable: string, first: int, last: int)
    requires route.Object? && Fits(first)
    ensures RewriteOne(route, names, canary, stable, first).Object?
    ensures RewriteOne(RewriteOne(route, names, canary, stable, first), names, canary, stable, last)
         == RewriteOne(route, names, canary, stable, last)
  {
  }

  /** What a rewrite touches: the list and its order stay, a route that is not matched or has
      fewer than two destinations stays whole, and any other keeps every key but "route",
      whose two weights then add up to 100. */
  lemma RewriteTouchesOnlyWeights(routes: seq<Json>, names: seq<string>, canary: string, stable: string, weight: int, i: nat)
    requires Fits(weight) && i < |routes|
    ensures var r := Rewrite(routes, names, canary, stable, weight);
            && (r.None? <==> exists k :: 0 <= k < |routes| && !routes[k].Object?)
            && (r.Some? ==>
                  var out := r.value[i];
                  if !Rewritable(routes[i], names) then out == routes[i]
                  else && out.Object? && out.fields.Keys == routes[i].fields.Keys + {"route"}
                       && (forall key :: key in routes[i].fields && key != "route" ==> out.fields[key] == routes[i].fields[key])
                       && Destinations(out) == Weighted(canary, stable, weight)
                       && WeightOf(Destinations(out)[0]) + WeightOf(Destinations(out)[1]) == 100)
  {
  }

  // ---------------------------------------------------------------- the provider

  /** spec.http of a VirtualService. */
  datatype Http = Missing | NotAList | Routes(routes: seq<Json>)

  /** A VirtualService named in the rollout, with the routes to rewrite in it. */
  datatype Ref = Ref(name: string, routes: seq<string>)

  /** The VirtualServices stored, and how many patches the API server still accepts. */
  datatype Mesh = Mesh(services: map<string, Http>, budget: nat)

  /** patchVirtualService: the mesh afterwards and whether it failed. */
  function PatchOne(mesh: Mesh, ref: Ref, canary: string, stable: string, weight: int): (Mesh, bool) {
    if ref.name !in mesh.services || !mesh.services[ref.name].Routes? then (mesh, true)
    else
      var rewritten := Rewrite(mesh.services[ref.name].routes, ref.routes, canary, stable, weight);
      if rewritten.None? || mesh.budget == 0 then (mesh, true)
      else (Mesh(mesh.services[ref.name := Routes(rewritten.value)], mesh.budget - 1), false)
  }

  /** SetWeight from reference i on; it stops at the first failure. */
  function PatchFrom(mesh: Mesh, refs: seq<Ref>, i: nat, canary: string, stable: string, weight: int): (Mesh, bool)
    requires i <= |refs|
    decreases |refs| - i
  {
    if i == |refs| then (mesh, false)
    else
      var (next, err) := PatchOne(mesh, refs[i], canary, stable, weight);
      if err then (next, true) else PatchFrom(next, refs, i + 1, canary, stable, weight)
  }

  /** What VerifyWeight says of one VirtualService; None stands for an error. */
  function VerifyOne(mesh: Mesh, ref: Ref, canary: string, weight: int): Option<bool> {
    if ref.name !in mesh.services || mesh.services[ref.name].NotAList? then None
    else if mesh.services[ref.name].Missing? then Some(false)
    else Some(Verify(mesh.services[ref.name].routes, ref.routes, canary, weight))
  }

  function VerifyFrom(mesh: Mesh, refs: seq<Ref>, i: nat, canary: string, weight: int): Option<bool>
    requires i <= |refs|
    decreases |refs| - i
  {
    if i == |refs| then Some(true)
    else if VerifyOne(mesh, refs[i], canary, weight) != Some(true) then VerifyOne(mesh, refs[i], canary, weight)
    else VerifyFrom(mesh, refs, i + 1, canary, weight)
  }

  /** The Istio block of a rollout and the hosts: the first canary and the first stable Service. */
  class Provider {
    var mesh: Mesh

    method PatchVirtualService(ref: Ref, canary: string, stable: string, weight: int) returns (err: bool)
      modifies this
      ensures (mesh, err) == PatchOne(old(mesh), ref, canary, stable, weight)
    {
      hide Rewrite;
      if ref.name !in mesh.services || !mesh.services[ref.name].Routes? {
        return true;
      }
      var stored := mesh.services[ref.name].routes;
      var http := new Json[|stored|](i requires 0 <= i < |stored| => stored[i]);
      assert http[..] == stored;
      var rewritten, failed := RewriteHTTPRoutes(http, ref.routes, canary, stable, weight);
      if failed || mesh.budget == 0 {
        return true;
      }
      mesh := Mesh(mesh.services[ref.name := Routes(rewritten)], mesh.budget - 1);
      return false;
    }

    method SetWeight(refs: seq<Ref>, canary: string, stable: string, weight: int) returns (err: bool)
      modifies this
      ensures (mesh, err) == PatchFrom(old(mesh), refs, 0, canary, stable, weight)
    {
      hide PatchOne;
      for i := 0 to |refs|
        invariant PatchFrom(mesh, refs, i, canary, stable, weight)
               == PatchFrom(old(mesh), refs, 0, canary, stable, weight)
      {
        err := PatchVirtualService(refs[i], canary, stable, weight);
        if err {
          return;
        }
      }
      return false;
    }

    method VerifyWeight(refs: seq<Ref>, canary: string, weight: int) returns (ok: Option<bool>)
      ensures ok == VerifyFrom(mesh, refs, 0, canary, weight)
    {
      hide Verify;
      for i := 0 to |refs|
        invariant VerifyFrom(mesh, refs, i, canary, weight) == VerifyFrom(mesh, refs, 0, canary, weight)
      {
        if refs[i].name !in mesh.services {
          return None;
        }
        match mesh.services[refs[i].name] {
          case NotAList => return None;
          case Missing => return Some(false);
          case Routes(routes) =>
            var passes := VerifyHTTPWeight(routes, refs[i].routes, canary, weight);
            if !passes {
              return Some(false);
            }
        }
      }
      return Some(true);
    }
  }

  // ---------------------------------------------------------------- the whole router

  /** No matched route that a rewrite leaves alone names the canary host. */
  ghost predicate CleanRoutes(routes: seq<Json>, names: seq<string>, canary: string) {
    forall i :: 0 <= i < |routes| && LeftAlone(routes[i], names) ==>
      forall k :: 0 <= k < |Destinations(routes[i])| ==> HostOf(Destinations(routes[i])[k]) != canary
  }

  ghost predicate Clean(mesh: Mesh, refs: seq<Ref>, canary: string) {
    forall k :: 0 <= k < |refs| ==>
      refs[k].name in mesh.services && mesh.services[refs[k].name].Routes? ==>
        CleanRoutes(mesh.services[refs[k].name].routes, refs[k].routes, canary)
  }

  /** Rewriting under one selector spoils nothing another selector sees: what passed with this
      weight still passes, and clean routes stay clean. */
  lemma RewriteSpoilsNothing(routes: seq<Json>, names: seq<string>, others: seq<string>, canary: string, stable: string,
                             weight: int)
    requires Fits(weight) && canary != stable && Rewrite(routes, names, canary, stable, weight).Some?
    ensures var out := Rewrite(routes, names, canary, stable, weight).value;
            && (Verify(routes, others, canary, weight) ==> Verify(out, others, canary, weight))
            && (CleanRoutes(routes, others, canary) ==> CleanRoutes(out, others, canary))
            && (CleanRoutes(routes, names, canary) ==> Verify(out, names, canary, weight))
  {
    hide RewriteOne, Selects, HostOf, WeightOf, Weighted, Rewritable;
    var out := Rewrite(routes, names, canary, stable, weight).value;
    forall i | 0 <= i < |routes|
      ensures out[i] == RewriteOne(routes[i], names, canary, stable, weight) && out[i].Object?
      ensures RoutePasses(routes[i], others, canary, weight) ==> RoutePasses(out[i], others, canary, weight)
      ensures Rewritable(routes[i], names) ==> RoutePasses(out[i], names, canary, weight)
      ensures if Rewritable(routes[i], names) then !LeftAlone(out[i], others) else out[i] == routes[i]
      ensures LeftAlone(routes[i], names) || Rewritable(routes[i], names) || !Selects(names, NameOf(routes[i]))
    {
      RewriteOfOneSpoilsNothing(routes[i], names, others, canary, stable, weight);
    }
  }

  lemma RewriteOfOneSpoilsNothing(route: Json, names: seq<string>, others: seq<string>, canary: string, stable: string,
                                  weight: int)
    requires Fits(weight) && canary != stable && route.Object?
    ensures var out := RewriteOne(route, names, canary, stable, weight);
            && out.Object?
            && (RoutePasses(route, others, canary, weight) ==> RoutePasses(out, others, canary, weight))
            && (if Rewritable(route, names) then !LeftAlone(out, others) && RoutePasses(out, names, canary, weight)
                else out == route)
  {
    hide Selects, DestinationPasses, Weighted, RewriteOne;
    WeightedDestinations(route, names, canary, stable, weight);
    WeightedPasses(canary, stable, weight, weight, 0);
    WeightedPasses(canary, stable, weight, weight, 1);
    WeightedHasTwo(canary, stable, weight);
  }

  lemma PatchOneSpoilsNothing(mesh: Mesh, ref: Ref, other: Ref, canary: string, stable: string, weight: int)
    requires Fits(weight) && canary != stable && !PatchOne(mesh, ref, canary, stable, weight).1
    ensures var next := PatchOne(mesh, ref, canary, stable, weight).0;
            && (VerifyOne(mesh, other, canary, weight) == Some(true) ==> VerifyOne(next, other, canary, weight) == Some(true))
            && (Clean(mesh, [other], canary) ==> Clean(next, [other], canary))
            && (Clean(mesh, [ref], canary) ==> VerifyOne(next, ref, canary, weight) == Some(true))
  {
    hide Rewrite, Verify, CleanRoutes;
    var routes := mesh.services[ref.name].routes;
    RewriteSpoilsNothing(routes, ref.routes, other.routes, canary, stable, weight);
    assert forall m: Mesh, r: Ref :: Clean(m, [r], canary) ==>
             (r.name in m.services && m.services[r.name].Routes? ==> CleanRoutes(m.services[r.name].routes, r.routes, canary)) by {
      forall m: Mesh, r: Ref | Clean(m, [r], canary)
        ensures r.name in m.services && m.services[r.name].Routes? ==> CleanRoutes(m.services[r.name].routes, r.routes, canary)
      {
        assert [r][0] == r;
      }
    }
  }

  /** Put, then get, over the whole router: after a SetWeight that succeeds, VerifyWeight of the
      same weight answers true, whatever VirtualServices the references share. */
  lemma SetThenVerify(mesh: Mesh, refs: seq<Ref>, canary: string, stable: string, weight: int)
    requires Fits(weight) && canary != stable && Clean(mesh, refs, canary)
    ensures var (after, err) := PatchFrom(mesh, refs, 0, canary, stable, weight);
            !err ==> VerifyFrom(after, refs, 0, canary, weight) == Some(true)
  {
    PatchedSoFar(mesh, refs, 0, canary, stable, weight);
    var after := PatchFrom(mesh, refs, 0, canary, stable, weight).0;
    if !PatchFrom(mesh, refs, 0, canary, stable, weight).1 {
      AllVerified(after, refs, 0, canary, weight);
    }
  }

  lemma {:induction false} AllVerified(mesh: Mesh, refs: seq<Ref>, i: nat, canary: string, weight: int)
    requires i <= |refs| && forall k :: 0 <= k < |refs| ==> VerifyOne(mesh, refs[k], canary, weight) == Some(true)
    ensures VerifyFrom(mesh, refs, i, canary, weight) == Some(true)
    decreases |refs| - i
  {
    hide VerifyOne;
    if i < |refs| {
      AllVerified(mesh, refs, i + 1, canary, weight);
    }
  }

  lemma {:induction false} PatchedSoFar(mesh: Mesh, refs: seq<Ref>, i: nat, canary: string, stable: string, weight: int)
    requires Fits(weight) && canary != stable && i <= |refs| && Clean(mesh, refs, canary)
    requires forall k :: 0 <= k < i ==> VerifyOne(mesh, refs[k], canary, weight) == Some(true)
    ensures var (after, err) := PatchFrom(mesh, refs, i, canary, stable, weight);
            !err ==> forall k :: 0 <= k < |refs| ==> VerifyOne(after, refs[k], canary, weight) == Some(true)
    decreases |refs| - i
  {
    hide PatchOne, VerifyOne, CleanRoutes;
    if i < |refs| && !PatchOne(mesh, refs[i], canary, stable, weight).1 {
      var next := PatchOne(mesh, refs[i], canary, stable, weight).0;
      forall k | 0 <= k < |refs|
        ensures Clean(next, [refs[k]], canary)
        ensures VerifyOne(mesh, refs[k], canary, weight) == Some(true) ==> VerifyOne(next, refs[k], canary, weight) == Some(true)
        ensures k == i ==> VerifyOne(next, refs[i], canary, weight) == Some(true)
      {
        PatchOneSpoilsNothing(mesh, refs[i], refs[k], canary, stable, weight);
      }
      assert Clean(next, refs, canary) by {
        forall k | 0 <= k < |refs| && refs[k].name in next.services && next.services[refs[k].name].Routes?
          ensures CleanRoutes(next.services[refs[k].name].routes, refs[k].routes, canary)
        {
          assert Clean(next, [refs[k]], canary) && [refs[k]][0] == refs[k];
        }
      }
      PatchedSoFar(next, refs, i + 1, canary, stable, weight);
    }
  }
}
