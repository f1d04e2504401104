/** Shadow cleanup: workloads of other strategies are deleted once neither the canonical Service nor a route needs them. */
module Cleanup {
  import opened Manifests
  import opened HostCollection
  import opened Cluster

  datatype Strategy = Rolling | Canary | BlueGreen

  function Candidates(service: string, strategy: Strategy): seq<string> {
    match strategy
    case Rolling => [CanaryOf(service), SlotName(service, "blue"), SlotName(service, "green")]
    case Canary => [SlotName(service, "blue"), SlotName(service, "green")]
    case BlueGreen => [CanaryOf(service)]
  }

  /** Some string host under some VirtualService spells workload `w`. */
  ghost predicate Reachable(st: State, sc: Scope, w: string) {
    AliasReferenced(st.virtualServices, w, sc.namespace)
  }

  /** Nothing changed but that workloads of `may` are gone. */
  ghost predicate OnlyGone(a: State, b: State, may: iset<string>) {
    && b.virtualServices == a.virtualServices && b.slot == a.slot && b.autoscalers == a.autoscalers
    && (forall w :: w in b.deployments ==> w in a.deployments && b.deployments[w] == a.deployments[w])
    && (forall w :: w in b.services ==> w in a.services && b.services[w] == a.services[w])
    && (forall w :: w in a.deployments && w !in b.deployments ==> w in may)
    && (forall w :: w in a.services && w !in b.services ==> w in may)
  }

  /** A workload of the strategy itself: the stable one always, and what the strategy stages beside it. */
  predicate OfStrategy(w: string, service: string, strategy: Strategy) {
    || w == service
    || (strategy.Canary? && w == service + "-canary")
    || (strategy.BlueGreen? && (w == service + "-blue" || w == service + "-green"))
  }

  /** A workload that another strategy staged. */
  predicate Foreign(w: string, service: string, strategy: Strategy) {
    (w == service + "-canary" || w == service + "-blue" || w == service + "-green") && !OfStrategy(w, service, strategy)
  }

  /** The workloads of other strategies that neither a route nor the canonical Service needs. */
  ghost function Shadows(st: State, sc: Scope, strategy: Strategy): iset<string> {
    iset w | Foreign(w, sc.service, strategy) && !Reachable(st, sc, w)
             && (sc.service in st.services ==> st.services[sc.service] != w)
  }

  lemma CandidatesAreForeign(service: string, strategy: Strategy)
    ensures forall w :: w in Candidates(service, strategy) <==> Foreign(w, service, strategy)
  {
    SideNamesDiffer(service);
    assert CanaryOf(service) == service + "-canary";
    assert SlotName(service, "blue") == service + "-blue" && SlotName(service, "green") == service + "-green";
  }

  /** Every workload of the strategy that stands in state `a` stands in state `b`, and runs the same. */
  ghost predicate StrategyStays(a: State, b: State, service: string, strategy: Strategy) {
    forall w :: OfStrategy(w, service, strategy) ==>
      && (w in a.deployments ==> w in b.deployments && b.deployments[w] == a.deployments[w])
      && (w in a.services ==> w in b.services && b.services[w] == a.services[w])
  }

  /** Nothing that was written since has touched traffic. */
  ghost predicate Unmoved(ns: Namespace, steady: bool, calm: bool, gated: bool)
    reads ns
  {
    ns.steady == steady && ns.calm == calm && ns.gated == gated
  }

  /** cleanupUnusedStrategyWorkloads. Nothing is deleted before the routes and the canonical Service have been read. */
  method CleanupUnused(ns: Namespace, sc: Scope, strategy: Strategy) returns (ok: bool)
    requires ns.Valid() && Tied(ns.st) && ns.service == sc.service != ""
    modifies ns`st, ns`calls, ns`trace, ns`steady, ns`calm, ns`gated
    ensures ns.Valid() && Tied(ns.st) && Unmoved(ns, old(ns.steady), old(ns.calm), old(ns.gated))
    ensures old(ns.trace) <= ns.trace
    ensures Keeps(old(ns.st), ns.st, ns.service)
    ensures var may := Shadows(old(ns.st), sc, strategy);
            && TraceOnlyGone(ns.trace, |old(ns.trace)|, old(ns.st), may)
            && OnlyGone(old(ns.st), ns.st, may)
            && (ok ==> forall w :: w in may ==> w !in ns.st.deployments && w !in ns.st.services)
    ensures forall i :: |old(ns.trace)| <= i < |ns.trace| ==>
              Spared(old(ns.st), ns.trace[i], sc) && StrategyStays(old(ns.st), ns.trace[i], sc.service, strategy)
    ensures ok || |ns.trace| > |old(ns.trace)| ==>
              AllDone(ns.faults, old(ns.calls), old(ns.calls) + if ns.service in old(ns.st).services then 3 else 2)
    ensures AllWell(ns.faults) ==> ok
  {
    var hosts, target;
    ok, hosts, target := ReadNeeds(ns);
    if !ok { return; }
    var candidates := Candidates(ns.service, strategy);
    ghost var may := Shadows(ns.st, sc, strategy);
    CandidatesNamed(ns.service, strategy);
    ShadowsAreUnneeded(ns.st, sc, strategy, hosts, target);
    ok := DeleteUnused(ns, candidates, target, hosts, sc.namespace, may);
    ReachableSpared(ns.trace, |old(ns.trace)|, old(ns.st), sc, strategy);
  }

  /** The hosts that some route names, and what the canonical Service selects. */
  method ReadNeeds(ns: Namespace) returns (ok: bool, hosts: set<string>, target: string)
    modifies ns`calls
    ensures ok <==>
      AllDone(ns.faults, old(ns.calls), old(ns.calls) + if ns.service in ns.st.services then 3 else 2)
    ensures old(ns.calls) <= ns.calls && (ok ==> target == CanonicalTarget(ns.st, ns.service))
    ensures ok ==> forall h :: h in hosts <==>
              exists i :: 0 <= i < |ns.st.virtualServices| && Carries(Obj(ns.st.virtualServices[i]), h)
  {
    hosts, target := {}, "";
    ok := ns.Read();
    if !ok { return; }
    hosts := ListDestinationHosts(ns.st.virtualServices);
    ok := ns.Read();
    if !ok { return; }
    if ns.service in ns.st.services {
      ok := ns.Read();
      if !ok { return; }
      target := ns.st.services[ns.service];
    }
  }

  lemma ShadowsAreUnneeded(st: State, sc: Scope, strategy: Strategy, hosts: set<string>, target: string)
    requires forall h :: h in hosts <==> exists i :: 0 <= i < |st.virtualServices| && Carries(Obj(st.virtualServices[i]), h)
    requires target == CanonicalTarget(st, sc.service)
    ensures forall w :: w in Shadows(st, sc, strategy) <==>
              w in Candidates(sc.service, strategy) && w != target && !Hit(hosts, w, sc.namespace)
  {
    CandidatesAreForeign(sc.service, strategy);
    CandidatesNamed(sc.service, strategy);
    forall w: string ensures Hit(hosts, w, sc.namespace) <==> Reachable(st, sc, w) { HitIsReachable(st, sc, hosts, w); }
  }

  lemma CandidatesNamed(service: string, strategy: Strategy)
    ensures forall w :: w in Candidates(service, strategy) ==> w != "" && w != service
  {
    SideNamesDiffer(service);
  }

  lemma HitIsReachable(st: State, sc: Scope, hosts: set<string>, w: string)
    requires forall h :: h in hosts <==> exists i :: 0 <= i < |st.virtualServices| && Carries(Obj(st.virtualServices[i]), h)
    ensures Hit(hosts, w, sc.namespace) <==> Reachable(st, sc, w)
  {
  }

  /** Every state from `n` on has lost nothing of `a` but workloads of `may`. */
  ghost predicate TraceOnlyGone(trace: seq<State>, n: nat, a: State, may: iset<string>) {
    forall i :: n <= i < |trace| ==> OnlyGone(a, trace[i], may)
  }

  function CanonicalTarget(st: State, service: string): string {
    if service in st.services then st.services[service] else ""
  }

  /** The loop over the candidates. */
  method DeleteUnused(ns: Namespace, candidates: seq<string>, target: string, hosts: set<string>, namespace: string,
                      ghost may: iset<string>) returns (ok: bool)
    requires ns.Valid() && Tied(ns.st) && target == CanonicalTarget(ns.st, ns.service)
    requires forall c :: c in candidates ==> c != ns.service
    requires forall w :: w in may <==> w in candidates && w != target && !Hit(hosts, w, namespace)
    modifies ns`st, ns`calls, ns`trace, ns`steady, ns`calm, ns`gated
    ensures ns.Valid() && Tied(ns.st) && Unmoved(ns, old(ns.steady), old(ns.calm), old(ns.gated))
    ensures old(ns.trace) <= ns.trace
    ensures TraceOnlyGone(ns.trace, |old(ns.trace)|, old(ns.st), may)
    ensures OnlyGone(old(ns.st), ns.st, may)
    ensures ok ==> forall w :: w in may ==> w !in ns.st.deployments && w !in ns.st.services
    ensures AllWell(ns.faults) ==> ok
  {
    ok := true;
    for i := 0 to |candidates|
      invariant ns.Valid() && Tied(ns.st) && Unmoved(ns, old(ns.steady), old(ns.calm), old(ns.gated))
      invariant old(ns.trace) <= ns.trace && ok
      invariant TraceOnlyGone(ns.trace, |old(ns.trace)|, old(ns.st), may)
      invariant OnlyGone(old(ns.st), ns.st, may) && target == CanonicalTarget(ns.st, ns.service)
      invariant forall k :: 0 <= k < i && candidates[k] in may ==>
                  candidates[k] !in ns.st.deployments && candidates[k] !in ns.st.services
    {
      assert candidates[i] in candidates;
      ok := DeleteUnneeded(ns, candidates[i], target, hosts, namespace, |old(ns.trace)|, old(ns.st), may);
      if !ok { return; }
    }
  }

  /** One round of it. */
  method DeleteUnneeded(ns: Namespace, w: string, target: string, hosts: set<string>, namespace: string, ghost n: nat,
                        ghost a: State, ghost may: iset<string>) returns (ok: bool)
    requires ns.Valid() && Tied(ns.st) && w != ns.service && target == CanonicalTarget(ns.st, ns.service)
    requires w in may <==> w != target && !Hit(hosts, w, namespace)
    requires OnlyGone(a, ns.st, may) && TraceOnlyGone(ns.trace, n, a, may)
    modifies ns`st, ns`calls, ns`trace, ns`steady, ns`calm, ns`gated
    ensures ns.Valid() && Tied(ns.st) && Unmoved(ns, old(ns.steady), old(ns.calm), old(ns.gated))
    ensures old(ns.trace) <= ns.trace
    ensures OnlyGone(a, ns.st, may) && TraceOnlyGone(ns.trace, n, a, may)
    ensures target == CanonicalTarget(ns.st, ns.service)
    ensures ok && w in may ==> w !in ns.st.deployments && w !in ns.st.services
    ensures ns.st.deployments.Keys <= old(ns.st).deployments.Keys && ns.st.services.Keys <= old(ns.st).services.Keys
    ensures AllWell(ns.faults) ==> ok
  {
    if w == target { return true; }
    var referenced := IsReferenced(hosts, w, namespace);
    if referenced { return true; }
    ok := DeleteOne(ns, w, n, a, may);
  }

  /** Deletes one workload, on the way from state `a`. */
  method DeleteOne(ns: Namespace, w: string, ghost n: nat, ghost a: State, ghost may: iset<string>) returns (ok: bool)
    requires ns.Valid() && Tied(ns.st) && w != ns.service && w != CanonicalTarget(ns.st, ns.service)
    requires w in may && OnlyGone(a, ns.st, may) && TraceOnlyGone(ns.trace, n, a, may)
    modifies ns`st, ns`calls, ns`trace, ns`steady, ns`calm, ns`gated
    ensures ns.Valid() && Tied(ns.st) && Unmoved(ns, old(ns.steady), old(ns.calm), old(ns.gated))
    ensures old(ns.trace) <= ns.trace
    ensures OnlyGone(a, ns.st, may) && TraceOnlyGone(ns.trace, n, a, may)
    ensures CanonicalTarget(ns.st, ns.service) == CanonicalTarget(old(ns.st), ns.service)
    ensures ok ==> ns.st.deployments == old(ns.st).deployments - {w} && ns.st.services == old(ns.st).services - {w}
    ensures ns.st.deployments.Keys <= old(ns.st).deployments.Keys && ns.st.services.Keys <= old(ns.st).services.Keys
    ensures AllWell(ns.faults) ==> ok
  {
    GoneMore(a, ns.st, may, w);
    ok := Step(ns, ns.st.(deployments := ns.st.deployments - {w}), n, a, may);
    if !ok { return; }
    GoneMore(a, ns.st, may, w);
    ok := Step(ns, ns.st.(services := ns.st.services - {w}), n, a, may);
  }

  /** One write that stays within `may`. */
  method Step(ns: Namespace, next: State, ghost n: nat, ghost a: State, ghost may: iset<string>) returns (ok: bool)
    requires ns.Valid() && Tied(ns.st) && Tied(next) && SamePods(ns.st, next, ns.service)
    requires OnlyGone(a, ns.st, may) && OnlyGone(a, next, may) && TraceOnlyGone(ns.trace, n, a, may)
    modifies ns`st, ns`calls, ns`trace, ns`steady, ns`calm, ns`gated
    ensures ns.Valid() && Tied(ns.st) && Unmoved(ns, old(ns.steady), old(ns.calm), old(ns.gated))
    ensures old(ns.trace) <= ns.trace
    ensures OnlyGone(a, ns.st, may) && TraceOnlyGone(ns.trace, n, a, may)
    ensures (ns.st == old(ns.st) || ns.st == next) && (ok ==> ns.st == next) && (AllWell(ns.faults) ==> ok)
  {
    ok := ns.Push(next);
  }

  lemma GoneMore(a: State, st: State, may: iset<string>, w: string)
    requires OnlyGone(a, st, may) && w in may
    ensures OnlyGone(a, st.(deployments := st.deployments - {w}), may)
    ensures OnlyGone(a, st.(services := st.services - {w}), may)
  {
  }

  /** Every workload that some route spells is there in state `b` if it was in state `a`, and still spelled. */
  ghost predicate Spared(a: State, b: State, sc: Scope) {
    forall w :: Reachable(a, sc, w) ==> Reachable(b, sc, w) && Keeps(a, b, w) && (w in a.services ==> w in b.services)
  }

  lemma ReachableSpared(trace: seq<State>, n: nat, a: State, sc: Scope, strategy: Strategy)
    requires TraceOnlyGone(trace, n, a, Shadows(a, sc, strategy))
    ensures forall i :: n <= i < |trace| ==> Spared(a, trace[i], sc) && StrategyStays(a, trace[i], sc.service, strategy)
  {
    forall i | n <= i < |trace| ensures Spared(a, trace[i], sc) && StrategyStays(a, trace[i], sc.service, strategy) {
      assert OnlyGone(a, trace[i], Shadows(a, sc, strategy));
    }
  }
}
