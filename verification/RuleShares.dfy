/** How the published destinations share the traffic out. */
module RuleShares {
  import opened Text
  import opened Manifests
  import opened WeightMerge
  import opened CanaryShift
  import opened RulePublish
  import opened RuleGuard
  import BlueGreen

  /** The weight that a list of destinations gives to one host. */
  function ShareOf(ds: seq<Value>, host: string): int {
    if ds == [] then 0
    else
      ShareOf(ds[..|ds| - 1], host)
      + if At(Destination(ds[|ds| - 1]), "host") == Str(host) then Weight(ds[|ds| - 1]) else 0
  }

  predicate AllOnPort(ds: seq<Value>, port: int) {
    forall i :: 0 <= i < |ds| ==> At(MapValue(At(Destination(ds[i]), "port")), "number") == Whole(port)
  }

  /** A workload's full host. */
  function FullHost(workload: string, namespace: string): string {
    workload + ("." + namespace + ".svc.cluster.local")
  }

  lemma OneDestination(host: string, port: int, other: string)
    ensures var ds := [RouteDestination(host, port, 100)];
            ShareOf(ds, host) == 100 && (other != host ==> ShareOf(ds, other) == 0) && AllOnPort(ds, port)
  {
    var ds := [RouteDestination(host, port, 100)];
    WholeWeight(100);
    assert ds[..0] == [];
  }

  lemma TwoDestinations(a: string, b: string, port: int, w: int)
    requires a != b && 0 < w < 100
    ensures var ds := [RouteDestination(a, port, 100 - w), RouteDestination(b, port, w)];
            ShareOf(ds, a) == 100 - w && ShareOf(ds, b) == w && AllOnPort(ds, port)
  {
    var ds := [RouteDestination(a, port, 100 - w), RouteDestination(b, port, w)];
    WholeWeight(w);
    WholeWeight(100 - w);
    var first := [ds[0]];
    assert ds[..1] == first && first[..0] == [];
    assert ShareOf(first, a) == 100 - w && ShareOf(first, b) == 0;
  }

  lemma CanaryHostDiffers(service: string, canary: string, namespace: string)
    requires canary == service + "-canary"
    ensures FullHost(canary, namespace) != FullHost(service, namespace)
  {
    assert FullHost(canary, namespace)[|service|] == '-';
    assert FullHost(service, namespace)[|service|] == '.';
  }

  /**
   * The shares of a service that is no static site. A canary gets its percent, and no more than half; the stable
   * workload gets the rest. A blue-green service gives all to its slot, any other service all to the stable workload.
   */
  lemma SharesAre(svc: Service, sc: Scope, port: int, service: string, canary: string, slot: string)
    requires service == sc.service && canary == service + "-canary"
    requires slot == service + "-" + BlueGreen.ActiveSlot(svc.primary)
    ensures var ds := StrategyDestinations(svc, sc, port);
            && AllOnPort(ds, port)
            && (IsCanary(svc) ==>
                  && ShareOf(ds, FullHost(canary, sc.namespace)) == CanaryPart(svc)
                  && ShareOf(ds, FullHost(service, sc.namespace)) == 100 - CanaryPart(svc))
            && (StrategyType(svc) == "blue-green" ==> ShareOf(ds, FullHost(slot, sc.namespace)) == 100)
            && (!IsCanary(svc) && StrategyType(svc) != "blue-green" ==>
                  ShareOf(ds, FullHost(service, sc.namespace)) == 100)
  {
    CanaryHostDiffers(service, canary, sc.namespace);
    var stable, spare, other := FullHost(service, sc.namespace), FullHost(canary, sc.namespace), FullHost(slot, sc.namespace);
    HostsAre(svc, sc, stable, spare, other);
    OneDestination(stable, port, spare);
    OneDestination(other, port, spare);
    if ToCanary(svc) { TwoDestinations(stable, spare, port, CanaryPart(svc)); }
    ListIs(svc, sc, port, stable, spare, other);
  }

  /** A static site that is set up is served by its host alone, on port 80. */
  lemma StaticShares(svc: Service, sc: Scope, port: int, staticHost: string)
    requires IsStaticSite(svc) && staticHost != ""
    ensures var ds := Destinations(svc, sc, port, staticHost);
            |ds| == 1 && ShareOf(ds, staticHost) == 100 && AllOnPort(ds, 80)
  {
    OneDestination(staticHost, 80, staticHost);
    var ds := Destinations(svc, sc, port, staticHost);
    assert ds == [RouteDestination(staticHost, 80, 100)];
  }

  lemma HostsAre(svc: Service, sc: Scope, stable: string, spare: string, other: string)
    requires stable == FullHost(sc.service, sc.namespace) && spare == FullHost(sc.service + "-canary", sc.namespace)
    requires other == FullHost(sc.service + "-" + BlueGreen.ActiveSlot(svc.primary), sc.namespace)
    ensures StableHost(sc) == stable && LocalHost(CanaryName(sc), sc.namespace) == spare
    ensures LocalHost(SlotHost(sc, svc), sc.namespace) == other
  {
  }

  lemma ListIs(svc: Service, sc: Scope, port: int, stable: string, spare: string, other: string)
    requires StableHost(sc) == stable && LocalHost(CanaryName(sc), sc.namespace) == spare
    requires LocalHost(SlotHost(sc, svc), sc.namespace) == other
    ensures StrategyDestinations(svc, sc, port) ==
      if ToCanary(svc) then [RouteDestination(stable, port, 100 - CanaryPart(svc)),
                             RouteDestination(spare, port, CanaryPart(svc))]
      else if StrategyType(svc) == "blue-green" then [RouteDestination(other, port, 100)]
      else [RouteDestination(stable, port, 100)]
  {
  }
}
