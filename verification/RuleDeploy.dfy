/** The end of a rule deploy: the rule is published, and workloads of other strategies are cleaned up. */
module RuleDeploy {
  import opened Text
  import opened Manifests
  import opened CanaryShift
  import opened CanaryPromotion
  import opened HostCollection
  import opened Cleanup
  import RuleRoutes
  import opened RulePublish
  import opened RuleGuard
  import Cluster

  /** resolveDeployStrategyTypeForServicePayload; `cron` says that the template is the cron job one. */
  function CleanupStrategy(svc: Service, cron: bool): Strategy {
    if cron then Rolling
    else if IsCanary(svc) then Strategy.Canary
    else if StrategyType(svc) == "blue-green" then Strategy.BlueGreen
    else Rolling
  }

  /** The rule as it is published. */
  datatype Published = Published(page: Page, routes: seq<RuleRoutes.Route>, svc: Service, port: int, staticHost: string)

  function Tree(p: Published, sc: Scope): Fields {
    Render(p.page, p.routes, Destinations(p.svc, sc, p.port, p.staticHost))
  }

  /** Requests that the rule lets through can go to workload `w`. */
  predicate SendsTo(p: Published, sc: Scope, w: string) {
    Forwards(p.page, p.routes) && ListNames(sc, w, Arr(Destinations(p.svc, sc, p.port, p.staticHost)))
  }

  /** The namespace with tree `tree` in place of its `at`-th, or beside the others. */
  function With(st: Cluster.State, tree: Fields, at: nat): Cluster.State {
    st.(virtualServices := if at < |st.virtualServices| then st.virtualServices[at := tree]
                           else st.virtualServices + [tree])
  }

  /** The tree is its `at`-th, or the last; the others are as they were. */
  predicate Placed(a: seq<Fields>, b: seq<Fields>, tree: Fields, at: nat) {
    && |b| == (if at < |a| then |a| else |a| + 1)
    && b[if at < |a| then at else |a|] == tree
    && forall i :: 0 <= i < |a| && i != at ==> b[i] == a[i]
  }

  // ---- what is published is found by the cleanup ----

  lemma RouteDestinationCarries(sc: Scope, w: string, host: string, port: int, weight: int)
    requires HostMatches(HostOf(sc, RouteDestination(host, port, weight)), w, sc.namespace)
    ensures exists h :: Carries(RouteDestination(host, port, weight), h) && HostMatches(h, w, sc.namespace)
  {
    var v := RouteDestination(host, port, weight);
    HostFieldCarries(sc, w, Destination(v));
    var h :| Carries(Obj(Destination(v)), h) && HostMatches(h, w, sc.namespace);
    TreeKeysAreNotHosts();
    StepInto(v.fields, "destination", h);
  }

  lemma DestinationsCarry(p: Published, sc: Scope, w: string)
    requires ListNames(sc, w, Arr(Destinations(p.svc, sc, p.port, p.staticHost)))
    ensures exists h :: Carries(Arr(Destinations(p.svc, sc, p.port, p.staticHost)), h) && HostMatches(h, w, sc.namespace)
  {
    var ds := Destinations(p.svc, sc, p.port, p.staticHost);
    var i :| 0 <= i < |ds| && HostMatches(HostOf(sc, ds[i]), w, sc.namespace);
    var host, port, weight := BuiltDestination(p, sc, i);
    RouteDestinationCarries(sc, w, host, port, weight);
    var h :| Carries(ds[i], h) && HostMatches(h, w, sc.namespace);
    assert Carries(Arr(ds), h);
  }

  lemma BuiltDestination(p: Published, sc: Scope, i: nat) returns (host: string, port: int, weight: int)
    requires i < |Destinations(p.svc, sc, p.port, p.staticHost)|
    ensures Destinations(p.svc, sc, p.port, p.staticHost)[i] == RouteDestination(host, port, weight)
  {
    if IsStaticSite(p.svc) && p.staticHost != "" {
      return p.staticHost, 80, 100;
    } else if !IsStaticSite(p.svc) && ToCanary(p.svc) {
      var canary := AtMostHalf(p.svc.percent);
      if i == 0 { return StableHost(sc), p.port, 100 - canary; }
      return LocalHost(CanaryName(sc), sc.namespace), p.port, canary;
    } else if !IsStaticSite(p.svc) && StrategyType(p.svc) == "blue-green" {
      return LocalHost(SlotHost(sc, p.svc), sc.namespace), p.port, 100;
    } else {
      return StableHost(sc), p.port, 100;
    }
  }

  lemma TreeCarries(p: Published, sc: Scope, h: string)
    requires Forwards(p.page, p.routes) && Carries(Arr(Destinations(p.svc, sc, p.port, p.staticHost)), h)
    ensures Carries(Obj(Tree(p, sc)), h)
  {
    var ds := Destinations(p.svc, sc, p.port, p.staticHost);
    TreeKeysAreNotHosts();
    var spec := Tree(p, sc)["spec"].fields;
    if p.page.tcp {
      StepInto(RenderTcp(p.page, ds).fields, "route", h);
      assert Carries([RenderTcp(p.page, ds)][0], h);
      StepInto(spec, "tcp", h);
    } else {
      var i :| 0 <= i < |p.routes| && p.routes[i].action.Forward?;
      RenderedKeys(p.page, p.routes[i], ds);
      StepInto(RenderRoute(p.page, p.routes[i], ds).fields, "route", h);
      assert Carries(RenderRoutes(p.page, p.routes, ds)[i], h);
      StepInto(spec, "http", h);
    }
    StepInto(Tree(p, sc), "spec", h);
  }

  /** A workload that a published rule sends requests to is one that a cleanup finds referenced. */
  lemma SentToIsReachable(p: Published, sc: Scope, st: Cluster.State, at: nat, w: string)
    requires SendsTo(p, sc, w)
    ensures Reachable(With(st, Tree(p, sc), at), sc, w)
  {
    var h := PublishedHost(p, sc, w);
    CarriedIsReachable(sc, st, Tree(p, sc), at, h, w);
  }

  lemma PublishedHost(p: Published, sc: Scope, w: string) returns (h: string)
    requires SendsTo(p, sc, w)
    ensures Carries(Obj(Tree(p, sc)), h) && HostMatches(h, w, sc.namespace)
  {
    DestinationsCarry(p, sc, w);
    h :| Carries(Arr(Destinations(p.svc, sc, p.port, p.staticHost)), h) && HostMatches(h, w, sc.namespace);
    TreeCarries(p, sc, h);
  }

  lemma CarriedIsReachable(sc: Scope, st: Cluster.State, tree: Fields, at: nat, h: string, w: string)
    requires Carries(Obj(tree), h) && HostMatches(h, w, sc.namespace)
    ensures Reachable(With(st, tree, at), sc, w)
  {
    var trees := With(st, tree, at).virtualServices;
    var i := if at < |st.virtualServices| then at else |st.virtualServices|;
    assert trees[i] == tree;
  }

  lemma LocalDestination(sc: Scope, w: string, port: int, weight: int)
    requires Trimmed(w) && Trimmed(sc.namespace) && w != ""
    ensures HostMatches(HostOf(sc, RouteDestination(LocalHost(w, sc.namespace), port, weight)), w, sc.namespace)
  {
    DestinationHost(sc, LocalHost(w, sc.namespace), port, weight);
    LocalHostIsAlias(w, sc.namespace);
    TrimmedMatches(LocalHost(w, sc.namespace), w, sc.namespace);
  }

  lemma FirstIsListed(sc: Scope, w: string, ds: seq<Value>)
    requires ds != [] && HostMatches(HostOf(sc, ds[0]), w, sc.namespace)
    ensures ListNames(sc, w, Arr(ds))
  {
  }

  lemma SlotHostTrimmed(sc: Scope, svc: Service)
    requires TrimmedScope(sc) && sc.service != ""
    ensures Trimmed(SlotHost(sc, svc)) && SlotHost(sc, svc) != ""
  {
    SlotsResolve(svc);
  }

  /** A rule that forwards sends requests where the service's strategy says, and to the canary only if it has a share. */
  lemma SendsToStrategy(p: Published, sc: Scope)
    requires TrimmedScope(sc) && sc.service != "" && Forwards(p.page, p.routes) && !IsStaticSite(p.svc)
    ensures SendsTo(p, sc, if StrategyType(p.svc) == "blue-green" then SlotHost(sc, p.svc) else sc.service)
    ensures SendsTo(p, sc, CanaryName(sc)) <==> ToCanary(p.svc)
  {
    var ds := StrategyDestinations(p.svc, sc, p.port);
    ToCanaryIff(p.svc, sc, p.port);
    var w := if StrategyType(p.svc) == "blue-green" then SlotHost(sc, p.svc) else sc.service;
    SlotHostTrimmed(sc, p.svc);
    var weight := FirstDestination(p.svc, sc, p.port);
    LocalDestination(sc, w, p.port, weight);
    FirstIsListed(sc, w, ds);
  }

  lemma FirstDestination(svc: Service, sc: Scope, port: int) returns (weight: int)
    ensures StrategyDestinations(svc, sc, port) != []
    ensures StrategyDestinations(svc, sc, port)[0] ==
      RouteDestination(LocalHost(if StrategyType(svc) == "blue-green" then SlotHost(sc, svc) else sc.service,
                                 sc.namespace), port, weight)
  {
    weight := if ToCanary(svc) then 100 - AtMostHalf(svc.percent) else 100;
  }

  // ---- the deploy ----

  /** The workload's Deployment and its Service are still there. */
  predicate Stays(a: Cluster.State, b: Cluster.State, w: string) {
    Cluster.Keeps(a, b, w) && (w in a.services ==> w in b.services)
  }

  /** Every workload that the rule sends requests to is there in all states from `n` on, if it was in state `a`. */
  ghost predicate ReceiversStay(p: Published, sc: Scope, a: Cluster.State, trace: seq<Cluster.State>, n: nat) {
    StayFrom(n, Receivers(p, sc), a, trace)
  }

  ghost function Receivers(p: Published, sc: Scope): iset<string> {
    iset w | SendsTo(p, sc, w)
  }

  ghost predicate StayFrom(n: nat, ws: iset<string>, a: Cluster.State, trace: seq<Cluster.State>) {
    forall w, i :: w in ws && n <= i < |trace| ==> Stays(a, trace[i], w)
  }

  /** Only shadows are gone, and all of them if the cleanup ended well. */
  ghost predicate Swept(a: Cluster.State, b: Cluster.State, sc: Scope, strategy: Strategy, cleaned: bool) {
    && OnlyGone(a, b, Shadows(a, sc, strategy))
    && (cleaned ==> forall w :: w in Shadows(a, sc, strategy) ==> w !in b.deployments && w !in b.services)
  }

  /** A workload of the service's own strategy; for a cron job, whatever that says, just the stable one. */
  predicate IsOwn(w: string, service: string, svc: Service, cron: bool) {
    || w == service
    || (!cron && ToLower(TrimSpace(svc.strategy)) == "canary" && w == service + "-canary")
    || (!cron && ToLower(TrimSpace(svc.strategy)) == "blue-green" && (w == service + "-blue" || w == service + "-green"))
  }

  lemma OwnIsOfStrategy(w: string, service: string, svc: Service, cron: bool)
    ensures IsOwn(w, service, svc, cron) <==> OfStrategy(w, service, CleanupStrategy(svc, cron))
  {
  }

  /** The service's own workloads that stand in state `a` stand in state `b`, and run the same. */
  ghost predicate OwnStay(a: Cluster.State, b: Cluster.State, service: string, svc: Service, cron: bool) {
    forall w :: IsOwn(w, service, svc, cron) ==>
      && (w in a.deployments ==> w in b.deployments && b.deployments[w] == a.deployments[w])
      && (w in a.services ==> w in b.services && b.services[w] == a.services[w])
  }

  ghost predicate OwnStayFrom(n: nat, a: Cluster.State, trace: seq<Cluster.State>, service: string, svc: Service, cron: bool) {
    forall i :: n <= i < |trace| ==> OwnStay(a, trace[i], service, svc, cron)
  }

  /** Of the canary and the slots, state `b` has what is the service's own, or was needed in state `a`. */
  ghost predicate OnlyNeeded(a: Cluster.State, b: Cluster.State, sc: Scope, svc: Service, cron: bool) {
    forall w :: w in {sc.service + "-canary", sc.service + "-blue", sc.service + "-green"}
                && (w in b.deployments || w in b.services) ==>
      IsOwn(w, sc.service, svc, cron) || Reachable(a, sc, w)
      || (sc.service in a.services && a.services[sc.service] == w)
  }

  lemma SweptIsOnlyNeeded(a: Cluster.State, b: Cluster.State, sc: Scope, svc: Service, cron: bool)
    requires Swept(a, b, sc, CleanupStrategy(svc, cron), true)
    ensures OnlyNeeded(a, b, sc, svc, cron)
  {
    forall w ensures IsOwn(w, sc.service, svc, cron) <==> OfStrategy(w, sc.service, CleanupStrategy(svc, cron)) {
      OwnIsOfStrategy(w, sc.service, svc, cron);
    }
  }

  lemma StrategyIsOwn(a: Cluster.State, at: Cluster.State, trace: seq<Cluster.State>, n: nat, service: string,
                      svc: Service, cron: bool)
    requires n < |trace| && trace[n] == at
    requires at == a.(virtualServices := at.virtualServices)
    requires forall i :: n < i < |trace| ==> StrategyStays(at, trace[i], service, CleanupStrategy(svc, cron))
    ensures OwnStayFrom(n, a, trace, service, svc, cron)
  {
    forall w ensures IsOwn(w, service, svc, cron) <==> OfStrategy(w, service, CleanupStrategy(svc, cron)) {
      OwnIsOfStrategy(w, service, svc, cron);
    }
    forall i | n <= i < |trace| ensures OwnStay(a, trace[i], service, svc, cron) {
      if i > n { assert StrategyStays(at, trace[i], service, CleanupStrategy(svc, cron)); }
    }
  }

  /** The VirtualService is applied, and unless that fails workloads are cleaned up, whose failure is only logged. */
  method PublishAndClean(ns: Cluster.Namespace, sc: Scope, p: Published, cron: bool, at: nat)
    returns (ok: bool, cleaned: bool)
    requires ns.Valid() && Cluster.Tied(ns.st) && ns.service == sc.service != ""
    modifies ns`st, ns`calls, ns`trace, ns`steady, ns`calm, ns`gated
    ensures ns.Valid() && Cluster.Tied(ns.st) && ns.steady == old(ns.steady) && old(ns.trace) <= ns.trace
    ensures ok <==> ns.faults(old(ns.calls)).Done?
    ensures !ok ==> ns.st == (if ns.faults(old(ns.calls)).Refused? then old(ns.st) else With(old(ns.st), Tree(p, sc), at))
    ensures ok ==> Swept(With(old(ns.st), Tree(p, sc), at), ns.st, sc, CleanupStrategy(p.svc, cron), cleaned)
    ensures ReceiversStay(p, sc, old(ns.st), ns.trace, |old(ns.trace)|)
    ensures OwnStayFrom(|old(ns.trace)|, old(ns.st), ns.trace, sc.service, p.svc, cron)
    ensures ok && cleaned ==> OnlyNeeded(With(old(ns.st), Tree(p, sc), at), ns.st, sc, p.svc, cron)
    ensures ok ==> Placed(old(ns.st).virtualServices, ns.st.virtualServices, Tree(p, sc), at)
    ensures Cluster.AllWell(ns.faults) ==> ok && cleaned
  {
    cleaned := false;
    ghost var next := With(ns.st, Tree(p, sc), at);
    ok := ns.Push(With(ns.st, Tree(p, sc), at));
    if !ok {
      PublishedOnly(p, sc, old(ns.st), ns.st, ns.trace, |old(ns.trace)|, cron);
      return;
    }
    assert ns.st == next;
    cleaned := CleanupUnused(ns, sc, CleanupStrategy(p.svc, cron));
    SparedStay(p, sc, old(ns.st), at, ns.trace, |old(ns.trace)|);
    StrategyIsOwn(old(ns.st), next, ns.trace, |old(ns.trace)|, sc.service, p.svc, cron);
    if cleaned { SweptIsOnlyNeeded(next, ns.st, sc, p.svc, cron); }
  }

  /** A publication touches no workload. */
  lemma PublishedOnly(p: Published, sc: Scope, a: Cluster.State, b: Cluster.State, trace: seq<Cluster.State>, n: nat,
                      cron: bool)
    requires |trace| == n + 1 && trace[n] == b && b == a.(virtualServices := b.virtualServices)
    ensures ReceiversStay(p, sc, a, trace, n) && OwnStayFrom(n, a, trace, sc.service, p.svc, cron)
  {
    AllStay(n, Receivers(p, sc), a, trace);
  }

  lemma AllStay(n: nat, ws: iset<string>, a: Cluster.State, trace: seq<Cluster.State>)
    requires |trace| == n + 1 && trace[n] == a.(virtualServices := trace[n].virtualServices)
    ensures StayFrom(n, ws, a, trace)
  {
  }

  lemma SparedStay(p: Published, sc: Scope, st: Cluster.State, at: nat, trace: seq<Cluster.State>, n: nat)
    requires n < |trace| && trace[n] == With(st, Tree(p, sc), at)
    requires forall i :: n < i < |trace| ==> Spared(trace[n], trace[i], sc)
    ensures ReceiversStay(p, sc, st, trace, n)
  {
    forall w | SendsTo(p, sc, w) ensures forall i :: n <= i < |trace| ==> Stays(st, trace[i], w) {
      assert Reachable(trace[n], sc, w) by { SentToIsReachable(p, sc, st, at, w); }
      ReachableStays(sc, st, trace, n, w);
    }
  }

  lemma ReachableStays(sc: Scope, st: Cluster.State, trace: seq<Cluster.State>, n: nat, w: string)
    requires n < |trace| && trace[n] == st.(virtualServices := trace[n].virtualServices)
    requires Reachable(trace[n], sc, w)
    requires forall i :: n < i < |trace| ==> Spared(trace[n], trace[i], sc)
    ensures forall i :: n <= i < |trace| ==> Stays(st, trace[i], w)
  {
    forall i | n < i < |trace| ensures Stays(st, trace[i], w) { SparedOne(sc, trace[n], trace[i], w); }
  }

  lemma SparedOne(sc: Scope, a: Cluster.State, b: Cluster.State, w: string)
    requires Spared(a, b, sc) && Reachable(a, sc, w)
    ensures Stays(a, b, w)
  {
  }

  /** Both slots are seen down and the canonical Service is up. */
  predicate FallsBack(svc: Service, cron: bool, name: string, sight: Sight) {
    && !cron && StrategyType(svc) == "blue-green" && sight.canonical.Up?
    && sight.workload(Cluster.SlotName(name, "blue")).Down? && sight.workload(Cluster.SlotName(name, "green")).Down?
  }

  /** A slot of the service. */
  predicate IsSlot(w: string, service: string) {
    w == Cluster.SlotName(service, "blue") || w == Cluster.SlotName(service, "green")
  }

  /**
   * Guard, override, publication and cleanup. Where the published rule sends requests nothing is taken away, in no
   * state on the way, nor is a workload of the service's own strategy; of the others a cleanup that ends well leaves
   * what is still needed. When the guard gave both slots up, a cleanup that ends well leaves of them only what a route
   * or the canonical Service still needs.
   */
  method DeployRule(ns: Cluster.Namespace, sc: Scope, p: Published, cron: bool, sight: Sight, override: RuleRoutes.Option<int>,
                    at: nat)
    returns (out: Published, ok: bool, cleaned: bool)
    requires ns.Valid() && Cluster.Tied(ns.st) && ns.service == sc.service != ""
    modifies ns`st, ns`calls, ns`trace, ns`steady, ns`calm, ns`gated
    ensures ns.Valid() && Cluster.Tied(ns.st) && ns.steady == old(ns.steady)
    ensures out == p.(svc := out.svc)
    ensures ToCanary(out.svc) <==> if override.Some? then IsCanary(p.svc) && override.value > 0
                                   else ToCanary(p.svc) && (cron || !SeenDown(sc.service, sight))
    ensures FallsBack(p.svc, cron, sc.service, sight) ==> StrategyType(out.svc) == "rolling"
    ensures ReceiversStay(out, sc, old(ns.st), ns.trace, |old(ns.trace)|)
    ensures OwnStayFrom(|old(ns.trace)|, old(ns.st), ns.trace, sc.service, out.svc, cron)
    ensures ok && cleaned ==> OnlyNeeded(With(old(ns.st), Tree(out, sc), at), ns.st, sc, out.svc, cron)
    ensures ok ==> Placed(old(ns.st).virtualServices, ns.st.virtualServices, Tree(out, sc), at)
    ensures Cluster.AllWell(ns.faults) ==> ok && cleaned
    ensures FallsBack(p.svc, cron, sc.service, sight) && ok && cleaned ==>
              SlotsNeeded(With(old(ns.st), Tree(out, sc), at), ns.st, sc)
  {
    ghost var fallback;
    out, fallback := ResolvePublished(p, sc.service, cron, sight, override);
    ok, cleaned := PublishAndClean(ns, sc, out, cron, at);
    if fallback && ok && cleaned { SweptSlots(With(old(ns.st), Tree(out, sc), at), ns.st, sc); }
  }

  /** What is left of the slots in state `b` is what a route or the canonical Service needed in state `a`. */
  ghost predicate SlotsNeeded(a: Cluster.State, b: Cluster.State, sc: Scope) {
    forall w :: IsSlot(w, sc.service) && (w in b.deployments || w in b.services) ==>
      Reachable(a, sc, w) || (sc.service in a.services && a.services[sc.service] == w)
  }

  /** The service that the guard and the override settle on. */
  method ResolvePublished(p: Published, name: string, cron: bool, sight: Sight, override: RuleRoutes.Option<int>)
    returns (out: Published, ghost fallback: bool)
    ensures out == p.(svc := out.svc) && fallback == FallsBack(p.svc, cron, name, sight)
    ensures ToCanary(out.svc) <==> if override.Some? then IsCanary(p.svc) && override.value > 0
                                   else ToCanary(p.svc) && (cron || !SeenDown(name, sight))
    ensures fallback ==> StrategyType(out.svc) == "rolling" && CleanupStrategy(out.svc, cron) == Rolling
  {
    var svc := ResolveSpread(p.svc, cron, name, sight, override);
    out, fallback := p.(svc := svc), FallsBack(p.svc, cron, name, sight);
    FallbackIsRolling(p.svc, svc, cron, name, sight);
  }

  lemma SweptSlots(a: Cluster.State, b: Cluster.State, sc: Scope)
    requires Swept(a, b, sc, Rolling, true)
    ensures SlotsNeeded(a, b, sc)
  {
    SlotsAreShadows(a, sc);
  }

  lemma FallbackIsRolling(svc: Service, out: Service, cron: bool, name: string, sight: Sight)
    requires FallsBack(svc, cron, name, sight) ==> SlotsGuarded(svc, out, name, sight)
    ensures FallsBack(svc, cron, name, sight) ==>
              StrategyType(out) == "rolling" && CleanupStrategy(out, cron) == Rolling
  {
    SlotsResolve(svc);
  }

  lemma SlotsAreShadows(st: Cluster.State, sc: Scope)
    ensures forall w :: IsSlot(w, sc.service) && w !in Shadows(st, sc, Rolling) ==>
              Reachable(st, sc, w) || (sc.service in st.services && st.services[sc.service] == w)
  {
  }
}
