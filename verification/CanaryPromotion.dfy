/** promoteCanaryVirtualService and the independent scan for what it may have left behind. */
module CanaryPromotion {
  import opened Text
  import opened Manifests
  import opened WeightMerge
  import opened CanaryShift
  import opened RouteTables

  function MirrorHost(sc: Scope, route: Fields): string {
    StringValue(sc, MapValue(At(route, "mirror")), "host")
  }

  predicate ListNames(sc: Scope, workload: string, list: Value) {
    list.Arr? && exists i :: 0 <= i < |list.items| && HostMatches(HostOf(sc, list.items[i]), workload, sc.namespace)
  }

  /** One route as virtualServiceReferencesWorkload reads it. */
  predicate RouteReferences(sc: Scope, workload: string, raw: Value) {
    var route := MapValue(raw);
    HostMatches(MirrorHost(sc, route), workload, sc.namespace) || ListNames(sc, workload, At(route, "route"))
  }

  predicate References(sc: Scope, workload: string, root: Fields) {
    SomeRoute(raw => RouteReferences(sc, workload, raw), root)
  }

  predicate MirrorsCanary(sc: Scope, route: Fields) { IsCanaryHost(sc, MirrorHost(sc, route)) }

  function Unmirrored(sc: Scope, route: Fields): Fields {
    if MirrorsCanary(sc, route) then route - {"mirror", "mirrorPercentage"} else route
  }

  function ShiftedItems(sc: Scope, es: seq<Value>): seq<Value> {
    if ListNamesCanary(sc, es) then Merged(Canary(sc), es) else InPlace(Canary(sc), es)
  }

  function Relisted(sc: Scope, route: Fields): Fields {
    var list := At(route, "route");
    if list.Arr? && list.items != [] then route["route" := Arr(ShiftedItems(sc, list.items))] else route
  }

  /** What becomes of one route: its mirror is dropped if canary, and its list is shifted. */
  function PromotedRoute(sc: Scope, raw: Value): Value {
    var route := MapValue(raw);
    if route == map[] then raw else Obj(Relisted(sc, Unmirrored(sc, route)))
  }

  function Promotion(sc: Scope): Value -> Value { raw => PromotedRoute(sc, raw) }

  function CanaryReference(sc: Scope): Value -> bool { raw => RouteReferences(sc, CanaryName(sc), raw) }

  // ---- what a promotion carries over ----

  /**
   * A canary mirror is gone, and its percentages with it. The list has its entries, carried over: all of them, or one
   * of every host if it named the canary. All else of the route is as it was.
   */
  ghost predicate RouteCarried(sc: Scope, a: Value, b: Value) {
    var r, n := MapValue(a), MapValue(b);
    if r == map[] then b == a
    else
      && b.Obj? && SameBut(r, n, {"mirror", "mirrorPercentage", "route"})
      && (if IsCanaryHost(sc, MirrorHost(sc, r)) then "mirror" !in n && "mirrorPercentage" !in n
          else SameBut(r, n, {"route"}))
      && ListCarried(sc, At(r, "route"), At(n, "route"))
  }

  ghost predicate ListCarried(sc: Scope, a: Value, b: Value) {
    if !a.Arr? then b == a
    else
      b.Arr? && if ListNamesCanary(sc, a.items)
                then SomeCarriedOver(sc, a.items, Survivors(Canary(sc), a.items, |a.items|), b.items)
                else AllCarriedOver(sc, a.items, b.items)
  }

  /** The tables have their routes, carried over, and all else of the tree is as it was. */
  ghost predicate TreeCarried(sc: Scope, a: Fields, b: Fields) {
    && SameBut(a, b, {"spec"}) && SameBut(Spec(a), Spec(b), {"http", "tcp", "tls"}) && (Spec(a) == map[] ==> b == a)
    && (forall k :: k in {"http", "tcp", "tls"} ==>
          && (k in Spec(a) <==> k in Spec(b))
          && (k in Spec(a) && !IsTable(Spec(a), k) ==> Spec(b)[k] == Spec(a)[k])
          && (IsTable(Spec(a), k) ==>
                IsTable(Spec(b), k) && TableCarried(sc, Spec(a)[k].items, Spec(b)[k].items)))
  }

  ghost predicate TableCarried(sc: Scope, a: seq<Value>, b: seq<Value>) {
    |b| == |a| && forall i :: 0 <= i < |a| ==> RouteCarried(sc, a[i], b[i])
  }

  lemma ListIsCarried(sc: Scope, route: Fields)
    ensures ListCarried(sc, At(route, "route"), At(Relisted(sc, route), "route"))
    ensures SameBut(route, Relisted(sc, route), {"route"})
  {
    var list := At(route, "route");
    if list.Arr? { ListsCarryOver(sc, list.items); }
  }

  lemma RouteIsCarried(sc: Scope, raw: Value)
    ensures RouteCarried(sc, raw, PromotedRoute(sc, raw))
  {
    var route := MapValue(raw);
    if route != map[] {
      var kept := Unmirrored(sc, route);
      ListIsCarried(sc, kept);
      assert At(kept, "route") == At(route, "route");
      KeptAndRelisted(sc, route, kept, Relisted(sc, kept));
    }
  }

  lemma KeptAndRelisted(sc: Scope, route: Fields, kept: Fields, next: Fields)
    requires kept == Unmirrored(sc, route) && SameBut(kept, next, {"route"})
    ensures SameBut(route, next, {"mirror", "mirrorPercentage", "route"})
    ensures if MirrorsCanary(sc, route) then "mirror" !in next && "mirrorPercentage" !in next
            else SameBut(route, next, {"route"})
  {
  }

  lemma PromotionCarriesOver(sc: Scope, root: Fields)
    ensures TreeCarried(sc, root, EachRoute(Promotion(sc), root))
  {
    var spec := Spec(root);
    forall k | IsTable(spec, k) ensures TableCarried(sc, spec[k].items, Each(Promotion(sc), spec[k].items)) {
      TableIsCarried(sc, spec[k].items);
    }
    if spec != map[] { assert Spec(EachRoute(Promotion(sc), root)) == Rewritten(Promotion(sc), spec, KEYS); }
  }

  lemma TableIsCarried(sc: Scope, routes: seq<Value>)
    ensures TableCarried(sc, routes, Each(Promotion(sc), routes))
  {
    forall i | 0 <= i < |routes| ensures RouteCarried(sc, routes[i], Promotion(sc)(routes[i])) {
      RouteIsCarried(sc, routes[i]);
    }
  }

  class VirtualService {
    var root: Fields

    constructor (root: Fields)
      ensures this.root == root
    {
      this.root := root;
    }

    /** Reports a change exactly when some route referred to the canary, and rewrites every route. */
    method PromoteCanary(sc: Scope) returns (changed: bool)
      modifies this
      ensures root == EachRoute(Promotion(sc), old(root))
      ensures changed <==> References(sc, CanaryName(sc), old(root))
      ensures TreeCarried(sc, old(root), root)
    {
      PromotionCarriesOver(sc, root);
      var spec := MapValue(At(root, "spec"));
      changed := false;
      if spec == map[] { return; }
      ghost var before := spec;
      for j := 0 to |KEYS|
        invariant root == old(root)
        invariant spec == Rewritten(Promotion(sc), before, KEYS[..j])
        invariant changed <==> SomeUnder(CanaryReference(sc), before, KEYS[..j])
      {
        RewriteMore(Promotion(sc), CanaryReference(sc), before, j);
        if KEYS[j] in spec && spec[KEYS[j]].Arr? {
          var routes, did := PromoteRoutes(sc, spec[KEYS[j]].items);
          spec := spec[KEYS[j] := Arr(routes)];
          changed := changed || did;
        }
      }
      assert KEYS[..|KEYS|] == KEYS;
      root := root["spec" := Obj(spec)];
    }
  }

  method PromoteRoutes(sc: Scope, raw: seq<Value>) returns (routes: seq<Value>, changed: bool)
    ensures routes == Each(Promotion(sc), raw)
    ensures changed <==> AnyOf(CanaryReference(sc), raw)
  {
    routes, changed := raw, false;
    for i := 0 to |raw|
      invariant |routes| == |raw|
      invariant forall k :: 0 <= k < i ==> routes[k] == Promotion(sc)(raw[k])
      invariant forall k :: i <= k < |raw| ==> routes[k] == raw[k]
      invariant changed <==> exists k :: 0 <= k < i && CanaryReference(sc)(raw[k])
    {
      var route, did := PromoteRoute(sc, raw[i]);
      routes := routes[i := route];
      changed := changed || did;
    }
  }

  method PromoteRoute(sc: Scope, raw: Value) returns (promoted: Value, changed: bool)
    ensures promoted == PromotedRoute(sc, raw)
    ensures changed <==> RouteReferences(sc, CanaryName(sc), raw)
  {
    var route := MapValue(raw);
    if route == map[] {
      EmptyRouteRefersToNothing(sc, CanaryName(sc), raw);
      return raw, false;
    }
    var cleared, shifted: bool;
    route, cleared := ClearCanaryMirror(sc, route);
    route, shifted := ShiftRoute(sc, route);
    return Obj(route), cleared || shifted;
  }

  method ClearCanaryMirror(sc: Scope, route: Fields) returns (kept: Fields, cleared: bool)
    ensures kept == Unmirrored(sc, route)
    ensures cleared <==> HostMatches(MirrorHost(sc, route), CanaryName(sc), sc.namespace)
    ensures At(kept, "route") == At(route, "route")
  {
    kept, cleared := route, MirrorsCanary(sc, route);
    if cleared {
      kept := kept - {"mirror"};
      kept := kept - {"mirrorPercentage"};
    }
  }

  method ShiftRoute(sc: Scope, route: Fields) returns (next: Fields, shifted: bool)
    ensures next == Relisted(sc, route)
    ensures shifted <==> ListNames(sc, CanaryName(sc), At(route, "route"))
  {
    next := route;
    var entries, out, did := ShiftWeightedRoute(sc, At(route, "route"));
    shifted := did;
    if did {
      next := next["route" := Arr(out)];
    } else if entries != [] {
      next := next["route" := Arr(entries)];
    }
  }

  lemma EmptyRouteRefersToNothing(sc: Scope, workload: string, raw: Value)
    requires MapValue(raw) == map[]
    ensures !RouteReferences(sc, workload, raw)
  {
    assert MirrorHost(sc, map[]) == "";
    TrimSpaceTrims("");
  }

  // ---- the scan and the rewrite agree ----

  lemma ShiftedItemsClean(sc: Scope, es: seq<Value>)
    requires Trimmed(sc.service)
    ensures !ListNamesCanary(sc, ShiftedItems(sc, es))
  {
    if ListNamesCanary(sc, es) {
      ShiftedList(sc, es);
    } else {
      UnmovedStaysClean(sc, es);
    }
  }

  lemma UnmovedStaysClean(sc: Scope, es: seq<Value>)
    requires Trimmed(sc.service) && !ListNamesCanary(sc, es)
    ensures !ListNamesCanary(sc, InPlace(Canary(sc), es)) && Unmoved(Canary(sc), es)
  {
    CanaryIsSane(sc);
    CanarySettles(sc);
    forall k | 0 <= k < |es| ensures !NamesCanary(sc, InPlace(Canary(sc), es)[k]) {
      ScannedSettles(Canary(sc), es, |es|, k);
    }
  }

  lemma ListNamesIsCanary(sc: Scope, list: Value)
    ensures ListNames(sc, CanaryName(sc), list) <==> list.Arr? && ListNamesCanary(sc, list.items)
  {
  }

  lemma RelistedList(sc: Scope, route: Fields)
    requires Trimmed(sc.service)
    ensures !ListNames(sc, CanaryName(sc), At(Relisted(sc, route), "route"))
    ensures At(Relisted(sc, route), "mirror") == At(route, "mirror")
  {
    var list := At(route, "route");
    ListNamesIsCanary(sc, At(Relisted(sc, route), "route"));
    if list.Arr? && list.items != [] { ShiftedItemsClean(sc, list.items); }
  }

  lemma UnmirroredMirror(sc: Scope, route: Fields)
    ensures !MirrorsCanary(sc, Unmirrored(sc, route))
    ensures Unmirrored(sc, Unmirrored(sc, route)) == Unmirrored(sc, route)
  {
    TrimSpaceTrims("");
    if MirrorsCanary(sc, route) { NoMirror(sc, route - {"mirror", "mirrorPercentage"}); }
  }

  lemma NoMirror(sc: Scope, route: Fields)
    requires "mirror" !in route
    ensures !MirrorsCanary(sc, route)
  {
    assert MirrorHost(sc, route) == "";
    TrimSpaceTrims("");
  }

  lemma MirrorFrom(sc: Scope, a: Fields, b: Fields)
    requires At(a, "mirror") == At(b, "mirror")
    ensures MirrorsCanary(sc, a) == MirrorsCanary(sc, b)
  {
  }

  lemma PromotedRouteClean(sc: Scope, raw: Value)
    requires Trimmed(sc.service)
    ensures !RouteReferences(sc, CanaryName(sc), PromotedRoute(sc, raw))
  {
    var route := MapValue(raw);
    if route == map[] {
      EmptyRouteRefersToNothing(sc, CanaryName(sc), raw);
    } else {
      var kept := Unmirrored(sc, route);
      UnmirroredMirror(sc, route);
      RelistedList(sc, kept);
      MirrorFrom(sc, Relisted(sc, kept), kept);
    }
  }

  /** After a promotion the independent scan finds no canary, in any tree. */
  lemma PromotionClears(sc: Scope, root: Fields)
    requires Trimmed(sc.service)
    ensures !References(sc, CanaryName(sc), EachRoute(Promotion(sc), root))
  {
    forall r: Value ensures !CanaryReference(sc)(Promotion(sc)(r)) {
      PromotedRouteClean(sc, r);
    }
    RewriteClears(Promotion(sc), CanaryReference(sc), root);
  }

  // ---- a second promotion ----

  /** A route list that does not name the canary, in which some host is repeated with weight. */
  predicate Drifts(sc: Scope, raw: Value) {
    var list := At(MapValue(raw), "route");
    list.Arr? && !ListNamesCanary(sc, list.items) && !RepeatsWeighNothing(Canary(sc), list.items)
  }

  lemma ShiftedItemsTwice(sc: Scope, es: seq<Value>)
    requires Trimmed(sc.service)
    ensures ShiftedItems(sc, ShiftedItems(sc, es)) == ShiftedItems(sc, es) <==>
            ListNamesCanary(sc, es) || RepeatsWeighNothing(Canary(sc), es)
  {
    ShiftedItemsClean(sc, es);
    CanaryIsSane(sc);
    CanarySettles(sc);
    if ListNamesCanary(sc, es) {
      SecondPassMerged(Canary(sc), es);
    } else {
      UnmovedStaysClean(sc, es);
      SecondPassUnmoved(Canary(sc), es);
    }
  }

  /** A route whose list is rewritten by `f`. */
  function Relist(f: seq<Value> -> seq<Value>, route: Fields): Fields {
    var list := At(route, "route");
    if list.Arr? && list.items != [] then route["route" := Arr(f(list.items))] else route
  }

  lemma RelistTwice(f: seq<Value> -> seq<Value>, route: Fields)
    requires At(route, "route").Arr? && f([]) == []
    ensures var items := At(route, "route").items;
            Relist(f, Relist(f, route)) == Relist(f, route) <==> f(f(items)) == f(items)
  {
    var items, once := At(route, "route").items, Relist(f, route);
    if items != [] {
      assert At(once, "route") == Arr(f(items));
      if Relist(f, once) == once { assert At(Relist(f, once), "route") == At(once, "route"); }
    }
  }

  function Shifting(sc: Scope): seq<Value> -> seq<Value> { es => ShiftedItems(sc, es) }

  lemma RelistedIs(sc: Scope, route: Fields)
    ensures Relisted(sc, route) == Relist(Shifting(sc), route) && Shifting(sc)([]) == []
  {
  }

  lemma RelistedTwice(sc: Scope, route: Fields)
    requires Trimmed(sc.service)
    ensures Relisted(sc, Relisted(sc, route)) == Relisted(sc, route) <==> !Drifts(sc, Obj(route))
  {
    RelistedIs(sc, route);
    RelistedIs(sc, Relisted(sc, route));
    if At(route, "route").Arr? {
      RelistTwice(Shifting(sc), route);
      ShiftedItemsTwice(sc, At(route, "route").items);
    }
  }

  lemma PromotedRouteTwice(sc: Scope, raw: Value)
    requires Trimmed(sc.service)
    ensures PromotedRoute(sc, PromotedRoute(sc, raw)) != PromotedRoute(sc, raw) <==> Drifts(sc, raw)
  {
    var route := MapValue(raw);
    if route != map[] {
      var kept := Unmirrored(sc, route);
      var once := Relisted(sc, kept);
      UnmirroredMirror(sc, route);
      RelistedList(sc, kept);
      MirrorFrom(sc, once, kept);
      RelistedTwice(sc, kept);
      assert At(kept, "route") == At(route, "route");
    }
  }

  /**
   * Promoting again always reports no change, by PromotionClears; it leaves the tree alone exactly when no list
   * without the canary repeats a host with weight, for the scan adds such weight anew each time.
   */
  lemma PromotionTwice(sc: Scope, root: Fields)
    requires Trimmed(sc.service)
    ensures var once := EachRoute(Promotion(sc), root);
            EachRoute(Promotion(sc), once) == once <==> !SomeRoute(raw => Drifts(sc, raw), root)
  {
    forall r: Value
      ensures (raw => Drifts(sc, raw))(r) <==> Promotion(sc)(Promotion(sc)(r)) != Promotion(sc)(r)
    {
      PromotedRouteTwice(sc, r);
    }
    RewriteTwice(Promotion(sc), raw => Drifts(sc, raw), root);
  }
}
