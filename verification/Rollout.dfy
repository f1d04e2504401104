/** Whole deploys, the canary promotion, and runs of all of them over one namespace. */
module Rollout {
  import opened Text
  import opened Manifests
  import opened RouteTables
  import opened CanaryPromotion
  import opened HostCollection
  import opened Cluster
  import opened Release
  import opened BlueGreen
  import opened Cleanup

  /** Two same-named canonical Services never stand in a template, so none is passed on beside the chosen one. */
  lemma {:induction false} OthersPlain(rs: seq<Resource>, service: string)
    requires TemplateOK(rs, service)
    ensures AllPlain(Others(rs, service), service)
  {
    if rs != [] {
      var front, r := rs[..|rs| - 1], rs[|rs| - 1];
      assert forall i :: 0 <= i < |front| ==> front[i] == rs[i];
      assert forall q :: q in front ==> q in rs;
      OthersPlain(front, service);
      SlotsMean(front, IsService, service);
      assert HasNamed(front, IsService, service) ==> exists i :: 0 <= i < |front| && IsCanonical(rs[i], service);
    }
  }

  /** The canonical Service selects the service's own Deployment, and that exists. */
  predicate Own(st: State, service: string) {
    service in st.services && st.services[service] == service && service in st.deployments
  }

  /** promoteRollingTraffic, once the readiness gate has seen the service's own Deployment. */
  method PromoteRolling(ns: Namespace) returns (ok: bool)
    requires ns.Valid() && Tied(ns.st) && ns.service in ns.st.deployments && Passed(ns.gates, ns.service)
    modifies ns`st, ns`calls, ns`trace, ns`steady, ns`calm, ns`gated
    ensures ns.Valid() && Tied(ns.st) && ns.steady == old(ns.steady) && ns.gated == old(ns.gated)
    ensures ns.service in ns.st.deployments && (ok ==> Own(ns.st, ns.service))
    ensures ok ==> ns.st.deployments == old(ns.st).deployments
    ensures ns.st == old(ns.st) || ns.st == Applied(old(ns.st), Service(ns.service, ns.service))
    ensures ok || ns.st != old(ns.st) ==> ns.faults(old(ns.calls)).Done?
    ensures AllWell(ns.faults) ==> (ok <==> ns.service in old(ns.st).services)
  {
    ok := ns.Read();
    if !ok || ns.service !in ns.st.services { return false; }
    if ns.st.services[ns.service] == ns.service { return true; }
    ok := ns.Apply(Service(ns.service, ns.service));
  }

  /** The service, and the workloads that strategies other than rolling stage beside it. */
  function Around(service: string): set<string> {
    {service, service + "-canary", service + "-blue", service + "-green"}
  }

  /**
   * A rolling deploy can finish: there is a stable Deployment and a canonical Service, and no route refers to a
   * workload of another strategy that stands.
   */
  ghost predicate Finishes(st: State, sc: Scope) {
    && sc.service in st.deployments && sc.service in st.services
    && forall w :: Foreign(w, sc.service, Rolling) && w in st.deployments ==> !Reachable(st, sc, w)
  }

  /** The same, before the template is applied. */
  ghost predicate RollsOut(st: State, sc: Scope, rs: seq<Resource>) {
    && (sc.service in st.deployments || Deploys(rs, sc.service)) && (sc.service in st.services || Offers(rs, sc.service))
    && forall w :: Foreign(w, sc.service, Rolling) && (w in st.deployments || Deploys(rs, w)) ==> !Reachable(st, sc, w)
  }

  lemma StagedFinishes(a: State, b: State, sc: Scope, rs: seq<Resource>, seen: bool)
    requires b == After(a, RollingTemplate(a, sc.service, rs, seen)).(autoscalers := b.autoscalers)
    ensures Finishes(b, sc) <==> RollsOut(a, sc, rs)
    ensures RestKept(a, b, rs, Around(sc.service))
  {
    var t := RollingTemplate(a, sc.service, rs, seen);
    TemplateDeploys(a, sc.service, rs, seen);
    forall w ensures w in b.deployments <==> w in a.deployments || Deploys(rs, w) { AfterDeploys(a, rs, w); }
    forall w ensures Offers(t, w) <==> Offers(rs, w) { TemplateOffers(a, sc.service, rs, seen, w); }
    forall w ensures w in b.services <==> w in a.services || Offers(rs, w) { AfterOffers(a, t, w); }
    AfterRestKept(a, t);
    AfterRestKept(a, rs);
  }

  lemma TemplateOffers(st: State, service: string, rs: seq<Resource>, seen: bool, w: string)
    ensures Offers(RollingTemplate(st, service, rs, seen), w) <==> Offers(rs, w)
  {
    var t := RollingTemplate(st, service, rs, seen);
    assert forall i :: 0 <= i < |rs| ==> (t[i].Service? <==> rs[i].Service?) && t[i].name == rs[i].name;
  }

  /** A rolling deploy of a template: staging, gate, cutover, rollout and cleanup. */
  method DeployRolling(ns: Namespace, sc: Scope, rs: seq<Resource>, autoscale: bool) returns (ok: bool)
    requires ns.Valid() && Tied(ns.st) && TemplateOK(rs, ns.service) && ns.service == sc.service != ""
    modifies ns`st, ns`calls, ns`trace, ns`steady, ns`calm, ns`gated, ns`gates
    ensures ns.Valid() && Tied(ns.st)
    ensures Keeps(old(ns.st), ns.st, ns.service)
    ensures ns.steady <==>
      (old(ns.steady) && !RollingDrops(old(ns.st), ns.service, rs, ns.faults, old(ns.calls)))
    ensures ok ==> Own(ns.st, ns.service)
    ensures ok ==> forall w :: w in Candidates(ns.service, Rolling) ==> w !in ns.st.deployments
    ensures ok ==> ns.service in After(old(ns.st), rs).deployments
                   && ns.st.deployments[ns.service] == After(old(ns.st), rs).deployments[ns.service]
    ensures ok ==> ns.gates == old(ns.gates) + [[ns.service], [ns.service]]
    ensures Sighted(rs, ns.service, ns.faults, old(ns.calls)) ==> ns.gated == old(ns.gated)
    ensures ok ==> RestKept(old(ns.st), ns.st, rs, Around(ns.service)) && (ns.service in ns.st.autoscalers <==> autoscale)
    ensures AllWell(ns.faults) ==> (ok <==> RollsOut(old(ns.st), sc, rs))
  {
    var blind;
    ok, blind := StageRolling(ns, rs, autoscale);
    if !ok { return; }
    TemplateDeploys(old(ns.st), ns.service, rs, !blind);
    StagedFinishes(old(ns.st), ns.st, sc, rs, !blind);
    ghost var staged := ns.st;
    ok := FinishRolling(ns, sc);
    if ok { RestKeptOn(old(ns.st), staged, ns.st, rs, Around(ns.service)); }
  }

  /** Where the canonical Service of a rolling template is kept makes no difference to the Deployments. */
  lemma TemplateDeploys(st: State, service: string, rs: seq<Resource>, seen: bool)
    ensures After(st, RollingTemplate(st, service, rs, seen)).deployments == After(st, rs).deployments
  {
    var t := RollingTemplate(st, service, rs, seen);
    SameDeployments(st, t, rs);
  }

  lemma {:induction false} SameDeployments(st: State, a: seq<Resource>, b: seq<Resource>)
    requires |a| == |b| && forall i :: 0 <= i < |a| ==> a[i] == b[i] || (a[i].Service? && b[i].Service?)
    ensures After(st, a).deployments == After(st, b).deployments
  {
    if a != [] { SameDeployments(st, a[..|a| - 1], b[..|b| - 1]); }
  }

  lemma PassedNow(gates: seq<seq<string>>, w: string)
    requires gates != [] && gates[|gates| - 1] == [w]
    ensures Passed(gates, w)
  {
    assert w in gates[|gates| - 1];
  }

  method FinishRolling(ns: Namespace, sc: Scope) returns (ok: bool)
    requires ns.Valid() && Tied(ns.st) && ns.service == sc.service != ""
    modifies ns`st, ns`calls, ns`trace, ns`steady, ns`calm, ns`gated, ns`gates
    ensures ns.Valid() && Tied(ns.st) && ns.steady == old(ns.steady)
    ensures Keeps(old(ns.st), ns.st, ns.service)
    ensures ok ==> Own(ns.st, ns.service)
    ensures ok ==> forall w :: w in Candidates(ns.service, Rolling) ==> w !in ns.st.deployments
    ensures ok ==> ns.service in old(ns.st).deployments
                   && ns.st.deployments[ns.service] == old(ns.st).deployments[ns.service]
    ensures ok ==> ns.gates == old(ns.gates) + [[ns.service], [ns.service]]
    ensures ns.gated == old(ns.gated)
    ensures RestKept(old(ns.st), ns.st, [], Around(ns.service)) && ns.st.autoscalers == old(ns.st).autoscalers
    ensures AllWell(ns.faults) ==> (ok <==> Finishes(old(ns.st), sc))
  {
    ghost var a := ns.st;
    ok := CutOverRolling(ns);
    ghost var b := ns.st;
    CutOverFinishes(a, b, sc);
    if !ok { return; }
    ok := RetireOthers(ns, sc);
    RestKeptOn(a, b, ns.st, [], Around(ns.service));
  }

  /** The gates and the cutover. */
  method CutOverRolling(ns: Namespace) returns (ok: bool)
    requires ns.Valid() && Tied(ns.st)
    modifies ns`st, ns`calls, ns`trace, ns`steady, ns`calm, ns`gated, ns`gates
    ensures ns.Valid() && Tied(ns.st) && ns.steady == old(ns.steady) && ns.gated == old(ns.gated)
    ensures ns.st == old(ns.st) || ns.st == Applied(old(ns.st), Service(ns.service, ns.service))
    ensures ok ==> Own(ns.st, ns.service) && ns.gates == old(ns.gates) + [[ns.service], [ns.service]]
    ensures AllWell(ns.faults) ==> (ok <==> ns.service in old(ns.st).deployments && ns.service in old(ns.st).services)
  {
    ok := Await(ns, [ns.service]);
    if !ok { return; }
    assert ns.service in [ns.service];
    PassedNow(ns.gates, ns.service);
    ok := PromoteRolling(ns);
    if !ok { return; }
    ok := Await(ns, [ns.service]);
  }

  lemma CutOverFinishes(a: State, b: State, sc: Scope)
    requires b == a || b == Applied(a, Service(sc.service, sc.service))
    ensures RestKept(a, b, [], Around(sc.service)) && b.autoscalers == a.autoscalers && b.deployments == a.deployments
    ensures sc.service in a.services ==> (Finishes(b, sc) <==> Finishes(a, sc))
  {
  }

  /** The cleanup, and the wait for what it was to delete. */
  method RetireOthers(ns: Namespace, sc: Scope) returns (ok: bool)
    requires ns.Valid() && Tied(ns.st) && ns.service == sc.service != "" && Own(ns.st, ns.service)
    modifies ns`st, ns`calls, ns`trace, ns`steady, ns`calm, ns`gated
    ensures ns.Valid() && Tied(ns.st) && ns.steady == old(ns.steady) && Own(ns.st, ns.service)
    ensures ns.st.deployments[ns.service] == old(ns.st).deployments[ns.service]
    ensures ns.gated == old(ns.gated)
    ensures RestKept(old(ns.st), ns.st, [], Around(ns.service)) && ns.st.autoscalers == old(ns.st).autoscalers
    ensures ok ==> forall w :: w in Candidates(ns.service, Rolling) ==> w !in ns.st.deployments
    ensures AllWell(ns.faults) ==> (ok <==> Finishes(old(ns.st), sc))
  {
    ok := SweepOwn(ns, sc);
    if !ok { return; }
    CandidatesAreForeign(ns.service, Rolling);
    ok := AwaitRetired(ns, Candidates(ns.service, Rolling));
  }

  method SweepOwn(ns: Namespace, sc: Scope) returns (ok: bool)
    requires ns.Valid() && Tied(ns.st) && ns.service == sc.service != "" && Own(ns.st, ns.service)
    modifies ns`st, ns`calls, ns`trace, ns`steady, ns`calm, ns`gated
    ensures ns.Valid() && Tied(ns.st) && ns.steady == old(ns.steady) && Own(ns.st, ns.service)
    ensures ns.st.deployments[ns.service] == old(ns.st).deployments[ns.service]
    ensures ns.gated == old(ns.gated)
    ensures RestKept(old(ns.st), ns.st, [], Around(ns.service)) && ns.st.autoscalers == old(ns.st).autoscalers
    ensures ok ==> forall w :: Foreign(w, ns.service, Rolling) ==>
                     (w in ns.st.deployments <==> w in old(ns.st).deployments && Reachable(old(ns.st), sc, w))
    ensures AllWell(ns.faults) ==> ok
  {
    ok := CleanupUnused(ns, sc, Rolling);
    OwnStays(old(ns.st), ns.st, sc);
    SweptRestKept(old(ns.st), ns.st, sc);
  }

  lemma SweptRestKept(a: State, b: State, sc: Scope)
    requires OnlyGone(a, b, Shadows(a, sc, Rolling))
    ensures RestKept(a, b, [], Around(sc.service))
  {
  }

  /** The resources a canary or blue-green deploy applies before its own. */
  predicate Splittable(rs: seq<Resource>, service: string) {
    Chosen(rs, IsDeployment, service).Taken? && Chosen(rs, IsService, service).Taken?
  }

  ghost predicate CanaryDeployDrops(st: State, service: string, rs: seq<Resource>, f: nat -> Outcome, c: nat) {
    Splittable(rs, service) && CanaryStageDrops(st, service, Others(rs, service), f, c)
  }

  /** Splitting and staging. */
  method StageCanaryTemplate(ns: Namespace, rs: seq<Resource>) returns (ok: bool)
    requires ns.Valid() && Tied(ns.st) && TemplateOK(rs, ns.service) && ns.service != ""
    modifies ns`st, ns`calls, ns`trace, ns`steady, ns`calm, ns`gated
    ensures ns.Valid() && Tied(ns.st)
    ensures Keeps(old(ns.st), ns.st, ns.service)
    ensures ns.steady <==>
      (old(ns.steady) && !CanaryDeployDrops(old(ns.st), ns.service, rs, ns.faults, old(ns.calls)))
    ensures Aside(old(ns.st), ns.service, Others(rs, ns.service)) && !OnCanary(old(ns.st), ns.service) ==>
      (ns.calm <==>
        (old(ns.calm) && !CanaryDeployDrops(old(ns.st), ns.service, rs, ns.faults, old(ns.calls))))
    ensures ok ==> CanaryBeside(old(ns.st), ns.st, ns.service, rs, ns.faults, old(ns.calls))
                   && RestKept(old(ns.st), ns.st, Others(rs, ns.service), {ns.service, CanaryOf(ns.service)})
    ensures !CanaryDeployDrops(old(ns.st), ns.service, rs, ns.faults, old(ns.calls)) ==> ns.gated == old(ns.gated)
    ensures AllWell(ns.faults) ==> (ok <==> Splittable(rs, ns.service))
  {
    var revision, others;
    ok, revision, others := PickRevision(rs, ns.service);
    if !ok { return; }
    ghost var drops;
    ok, drops := StageCanaryPick(ns, rs, others, revision);
  }

  method StageCanaryPick(ns: Namespace, ghost rs: seq<Resource>, others: seq<Resource>, revision: string)
    returns (ok: bool, ghost drops: bool)
    requires ns.Valid() && Tied(ns.st) && TemplateOK(rs, ns.service) && ns.service != ""
    requires others == Others(rs, ns.service) && revision == NewRevision(rs, ns.service)
    requires AllPlain(others, ns.service)
    modifies ns`st, ns`calls, ns`trace, ns`steady, ns`calm, ns`gated
    ensures ns.Valid() && Tied(ns.st)
    ensures Keeps(old(ns.st), ns.st, ns.service)
    ensures drops <==> CanaryStageDrops(old(ns.st), ns.service, others, ns.faults, old(ns.calls))
    ensures (ns.steady <==> old(ns.steady) && !drops) && (!drops ==> ns.gated == old(ns.gated))
    ensures Aside(old(ns.st), ns.service, others) && !OnCanary(old(ns.st), ns.service) ==>
              (ns.calm <==> old(ns.calm) && !drops)
    ensures ok ==> CanaryBeside(old(ns.st), ns.st, ns.service, rs, ns.faults, old(ns.calls))
                   && RestKept(old(ns.st), ns.st, Others(rs, ns.service), {ns.service, CanaryOf(ns.service)})
    ensures AllWell(ns.faults) ==> ok
  {
    var blind;
    ok, blind, drops := StageCanary(ns, others, revision);
    if ok { CanaryStagedBeside(old(ns.st), ns.st, ns.service, rs, revision, !blind, ns.faults, old(ns.calls)); }
  }

  /** The split of a template, with the revision of the chosen Deployment. */
  method PickRevision(rs: seq<Resource>, service: string) returns (found: bool, revision: string, others: seq<Resource>)
    requires TemplateOK(rs, service)
    ensures (found <==> Splittable(rs, service)) && others == Others(rs, service)
    ensures found ==> revision == NewRevision(rs, service)
    ensures AllPlain(others, service)
  {
    OthersPlain(rs, service);
    PicksDeployment(rs, service);
    var d, s;
    found, d, s, others := SplitWorkloadResources(rs, service);
    revision := if found then d.resource.revision else "";
  }

  /** The revision that a canary or blue-green deploy rolls out. */
  function NewRevision(rs: seq<Resource>, service: string): string {
    var d := Chosen(rs, IsDeployment, service);
    if d.Taken? && d.resource.Deployment? then d.resource.revision else ""
  }

  /** It is that of the first Deployment with the service's name, and of the first of all if none has it. */
  lemma NewRevisionIsFirst(rs: seq<Resource>, service: string)
    requires Splittable(rs, service)
    ensures exists i: nat :: i < |rs| && rs[i].Deployment? && NewRevision(rs, service) == rs[i].revision
                             && if NoneAt(rs, Called(IsDeployment, service)) then FirstAt(rs, IsDeployment, i)
                                else FirstAt(rs, Called(IsDeployment, service), i)
  {
    ChosenIsFirst(rs, IsDeployment, service);
    PicksDeployment(rs, service);
  }

  /**
   * What a canary deploy that ends well has done. The canary runs the new revision. A stable Deployment that stood
   * runs what it ran. If none stood, the canonical Service stays where it could be seen to be, or else there is one
   * now that runs the new revision, and the Service is on it.
   */
  ghost predicate CanaryBeside(a: State, b: State, service: string, rs: seq<Resource>, f: nat -> Outcome, c: nat) {
    var canary, others := CanaryOf(service), Others(rs, service);
    var stood, seen := service in a.deployments || Deploys(others, service), f(c + |others| + 1).Done?;
    && canary in b.deployments && b.deployments[canary] == Pods(canary, NewRevision(rs, service))
    && canary in b.services && b.services[canary] == canary && service !in b.autoscalers
    && (stood ==> service in b.deployments) && (forall w :: Deploys(others, w) ==> w in b.deployments)
    && (stood && !Deploys(others, service) ==> b.deployments[service] == a.deployments[service])
    && (stood && service in a.services ==> service in b.services && b.services[service] == a.services[service])
    && (!stood ==>
          if seen && service in a.services && a.services[service] !in {"", service} then
            service in b.services && b.services[service] == a.services[service] && service !in b.deployments
          else Own(b, service) && b.deployments[service] == Pods(service, NewRevision(rs, service)))
  }

  lemma CanaryStagedBeside(a: State, b: State, service: string, rs: seq<Resource>, revision: string, seen: bool,
                           f: nat -> Outcome, c: nat)
    requires b == CanaryStaged(After(a, Others(rs, service)), service, revision, seen)
    requires TemplateOK(rs, service) && revision == NewRevision(rs, service)
    requires var others := Others(rs, service);
             service !in After(a, others).deployments ==> (seen <==> f(c + |others| + 1).Done?)
    ensures CanaryBeside(a, b, service, rs, f, c)
    ensures RestKept(a, b, Others(rs, service), {service, CanaryOf(service)})
    ensures b.autoscalers == a.autoscalers - {service}
  {
    AfterRestKept(a, Others(rs, service));
    SideNamesDiffer(service);
    var others := Others(rs, service);
    OthersLeave(a, rs, service, service);
    forall w | Deploys(others, w) ensures w in b.deployments { AfterDeploys(a, others, w); }
  }

  /** The canary's gate can be passed: the stable Deployment stands or will, or traffic goes to one that does. */
  predicate CanaryReady(st: State, service: string, others: seq<Resource>) {
    || service in st.deployments || Deploys(others, service) || service !in st.services
    || st.services[service] in {"", service, CanaryOf(service)}
    || st.services[service] in st.deployments || Deploys(others, st.services[service])
  }

  lemma ReadyIsGated(a: State, b: State, service: string, rs: seq<Resource>, f: nat -> Outcome, c: nat)
    requires CanaryBeside(a, b, service, rs, f, c) && f(c + |Others(rs, service)| + 1).Done?
    requires RestKept(a, b, Others(rs, service), {service, CanaryOf(service)}) && Tied(b)
    requires TemplateOK(rs, service)
    ensures service in b.deployments || Selects(b, service) <==> CanaryReady(a, service, Others(rs, service))
  {
  }

  /** What the resources passed on leave of a Deployment and of the canonical Service. */
  lemma OthersLeave(a: State, rs: seq<Resource>, service: string, name: string)
    requires TemplateOK(rs, service)
    ensures var others := Others(rs, service);
            var b := After(a, others);
            && Leaves(a, b, others, name)
            && (service in b.services <==> service in a.services)
            && (service in a.services ==> b.services[service] == a.services[service])
  {
    var others := Others(rs, service);
    OthersPlain(rs, service);
    AfterDeploys(a, others, name);
    AfterKeeps(a, others, service, name);
  }

  lemma {:induction false} PicksDeployment(rs: seq<Resource>, service: string)
    ensures Chosen(rs, IsDeployment, service).Taken? ==> Chosen(rs, IsDeployment, service).resource.Deployment?
    ensures Named(rs, IsDeployment, service).Taken? ==> Named(rs, IsDeployment, service).resource.Deployment?
    ensures Fallback(rs, IsDeployment, service).Taken? ==> Fallback(rs, IsDeployment, service).resource.Deployment?
  {
    if rs != [] { PicksDeployment(rs[..|rs| - 1], service); }
  }

  /** A canary deploy of a template: staging and gate; traffic is shifted by the published rules. */
  method DeployCanary(ns: Namespace, rs: seq<Resource>) returns (ok: bool)
    requires ns.Valid() && Tied(ns.st) && TemplateOK(rs, ns.service) && ns.service != ""
    modifies ns`st, ns`calls, ns`trace, ns`steady, ns`calm, ns`gated, ns`gates
    ensures ns.Valid() && Tied(ns.st)
    ensures Keeps(old(ns.st), ns.st, ns.service)
    ensures ns.steady <==>
      (old(ns.steady) && !CanaryDeployDrops(old(ns.st), ns.service, rs, ns.faults, old(ns.calls)))
    ensures Aside(old(ns.st), ns.service, Others(rs, ns.service)) && !OnCanary(old(ns.st), ns.service) ==>
      (ns.calm <==>
        (old(ns.calm) && !CanaryDeployDrops(old(ns.st), ns.service, rs, ns.faults, old(ns.calls))))
    ensures ok ==> CanaryBeside(old(ns.st), ns.st, ns.service, rs, ns.faults, old(ns.calls))
                   && RestKept(old(ns.st), ns.st, Others(rs, ns.service), {ns.service, CanaryOf(ns.service)})
    ensures ok ==> ns.service in ns.st.deployments || Selects(ns.st, ns.service)
    ensures !CanaryDeployDrops(old(ns.st), ns.service, rs, ns.faults, old(ns.calls)) ==> ns.gated == old(ns.gated)
    ensures ok ==> |ns.gates| == |old(ns.gates)| + 1 && CanaryOf(ns.service) in ns.gates[|old(ns.gates)|]
                   && (ns.service in ns.gates[|old(ns.gates)|]
                       || (Selects(ns.st, ns.service) && ns.st.services[ns.service] in ns.gates[|old(ns.gates)|]))
    ensures AllWell(ns.faults) ==>
              (ok <==> Splittable(rs, ns.service) && CanaryReady(old(ns.st), ns.service, Others(rs, ns.service)))
  {
    ok := StageCanaryTemplate(ns, rs);
    if !ok { return; }
    if AllWell(ns.faults) { ReadyIsGated(old(ns.st), ns.st, ns.service, rs, ns.faults, old(ns.calls)); }
    var targets := CanaryTargets(ns);
    ok := Await(ns, targets);
  }

  /** resolveCanaryReadinessTargets: while the stable Deployment is missing, the one traffic is on stands in for it. */
  method CanaryTargets(ns: Namespace) returns (targets: seq<string>)
    requires Tied(ns.st)
    modifies ns`calls
    ensures CanaryOf(ns.service) in targets && old(ns.calls) <= ns.calls
    ensures ns.service in targets || (Selects(ns.st, ns.service) && ns.st.services[ns.service] in targets)
    ensures AllWell(ns.faults) && CanaryOf(ns.service) in ns.st.deployments ==>
              ((forall w :: w in targets ==> w in ns.st.deployments) <==>
               ns.service in ns.st.deployments || Selects(ns.st, ns.service))
  {
    targets := [ns.service, CanaryOf(ns.service)];
    var ok := ns.Read();
    if !ok || ns.service in ns.st.deployments { return; }
    ok := ns.Read();
    if !ok || ns.service !in ns.st.services { return; }
    var current := ns.st.services[ns.service];
    if current == "" || current == ns.service { return; }
    ok := ns.Read();
    if !ok || current !in ns.st.deployments { return; }
    targets := if current == CanaryOf(ns.service) then [current] else [current, CanaryOf(ns.service)];
  }

  /** Splitting and staging. */
  method StageBlueGreenTemplate(ns: Namespace, rs: seq<Resource>, active: string) returns (ok: bool)
    requires ns.Valid() && Tied(ns.st) && TemplateOK(rs, ns.service) && ns.service != "" && active in ["blue", "green"]
    modifies ns`st, ns`calls, ns`trace, ns`steady, ns`calm, ns`gated
    ensures ns.Valid() && Tied(ns.st) && ns.steady == old(ns.steady)
    ensures Keeps(old(ns.st), ns.st, ns.service)
    ensures Placed(old(ns.st), ns.service, active) && Apart(old(ns.st), ns.service, active, rs) ==>
              ns.calm == old(ns.calm) && ns.gated == old(ns.gated)
    ensures ok ==> SlotsDone(ns.service, active, rs, ns.faults, old(ns.calls))(old(ns.st), ns.st)
    ensures AllWell(ns.faults) ==> (ok <==> Splittable(rs, ns.service))
  {
    var revision, others;
    ok, revision, others := PickRevision(rs, ns.service);
    if !ok { return; }
    ok := StageSlotsPick(ns, rs, others, revision, active);
  }

  method StageSlotsPick(ns: Namespace, ghost rs: seq<Resource>, others: seq<Resource>, revision: string, active: string)
    returns (ok: bool)
    requires ns.Valid() && Tied(ns.st) && TemplateOK(rs, ns.service) && ns.service != "" && active in ["blue", "green"]
    requires others == Others(rs, ns.service) && revision == NewRevision(rs, ns.service)
    requires AllPlain(others, ns.service)
    modifies ns`st, ns`calls, ns`trace, ns`steady, ns`calm, ns`gated
    ensures ns.Valid() && Tied(ns.st) && ns.steady == old(ns.steady)
    ensures Keeps(old(ns.st), ns.st, ns.service)
    ensures Placed(old(ns.st), ns.service, active) && Aside(old(ns.st), ns.service, others)
            && !Deploys(others, SlotName(ns.service, active)) ==>
              ns.calm == old(ns.calm) && ns.gated == old(ns.gated)
    ensures ok ==> SlotsDone(ns.service, active, rs, ns.faults, old(ns.calls))(old(ns.st), ns.st)
    ensures AllWell(ns.faults) ==> ok
  {
    var blind;
    ok, blind := StageBlueGreen(ns, others, active, revision);
    if ok { StagedDone(old(ns.st), ns.st, ns.service, active, rs, others, revision, !blind, ns.faults, old(ns.calls)); }
  }

  /** The template passes on no Deployment that traffic goes to, and none that is called like the active slot. */
  predicate Apart(st: State, service: string, active: string, rs: seq<Resource>) {
    Aside(st, service, Others(rs, service)) && !Deploys(Others(rs, service), SlotName(service, active))
  }

  /** Both slots stand, and the canonical Service selects a Deployment that stands. */
  predicate BothStand(st: State, service: string) {
    Selects(st, service) && SlotName(service, "blue") in st.deployments && SlotName(service, "green") in st.deployments
  }

  /**
   * What a blue-green deploy that ends well has done. The other slot runs the new revision, and gets no traffic: that
   * is on the active slot, or on the service's own Deployment if that stood while the active slot did not. An active
   * slot that stood runs what it ran; a new one runs what the service's own Deployment runs, or the new revision if
   * there is none or it could not be read.
   */
  predicate SlotsReady(a: State, b: State, service: string, active: string, rs: seq<Resource>, f: nat -> Outcome, c: nat) {
    var here, there := SlotName(service, active), SlotName(service, if active == "blue" then "green" else "blue");
    var others := Others(rs, service);
    var stood, legacy := here in a.deployments || Deploys(others, here), service in a.deployments || Deploys(others, service);
    && there in b.deployments && b.deployments[there] == Pods(there, NewRevision(rs, service))
    && there in b.services && b.services[there] == there
    && service in b.services && b.services[service] == (if !stood && legacy then service else here)
    && (here in a.deployments && !Deploys(others, here) ==> here in b.deployments && b.deployments[here] == a.deployments[here])
    && (!stood ==>
          && here in b.deployments && here in b.services && b.services[here] == here
          && (!(legacy && f(c + |others| + 2).Done?) ==> b.deployments[here] == Pods(here, NewRevision(rs, service)))
          && (service in a.deployments && !Deploys(others, service) && f(c + |others| + 2).Done? ==>
                b.deployments[here] == Pods(here, a.deployments[service].revision)))
  }

  /** Only the service's own workloads, those of its slots, and what the template passes on have changed. */
  ghost predicate SlotsOnly(a: State, b: State, service: string, rs: seq<Resource>) {
    RestKept(a, b, Others(rs, service), {service, service + "-blue", service + "-green"}) && b.autoscalers == a.autoscalers
  }

  /** All of this, from one state to another. */
  ghost function SlotsDone(service: string, active: string, rs: seq<Resource>, f: nat -> Outcome, c: nat): (State, State) -> bool {
    (a: State, b: State) =>
      BothStand(b, service) && SlotsReady(a, b, service, active, rs, f, c) && SlotsOnly(a, b, service, rs)
  }

  lemma StagedRestKept(a: State, b: State, service: string, active: string, rs: seq<Resource>, others: seq<Resource>,
                       revision: string, seen: bool)
    requires others == Others(rs, service) && b == BlueGreenStaged(After(a, others), service, active, revision, seen)
    requires active in ["blue", "green"]
    ensures SlotsOnly(a, b, service, rs)
  {
    var names := {service, service + "-blue", service + "-green"};
    var here, there := SlotName(service, active), SlotName(service, Opposite(active));
    assert here in names && there in names by {
      assert SlotName(service, "blue") == service + "-blue" && SlotName(service, "green") == service + "-green";
    }
    var st := After(a, others);
    AfterRestKept(a, others);
    assert RestKept(a, st, others, names);
    SlotRestKept(a, st, others, names, here, Source(st, service, revision, seen));
    var base := if here in st.deployments then st else SlotStaged(st, here, Source(st, service, revision, seen));
    SlotRestKept(a, base, others, names, there, revision);
    ServiceRestKept(a, SlotStaged(base, there, revision), others, names, service, b.services[service]);
  }

  lemma StagedReady(a: State, b: State, service: string, active: string, rs: seq<Resource>, others: seq<Resource>,
                    revision: string, seen: bool, f: nat -> Outcome, c: nat)
    requires others == Others(rs, service) && b == BlueGreenStaged(After(a, others), service, active, revision, seen)
    requires active in ["blue", "green"] && TemplateOK(rs, service) && revision == NewRevision(rs, service)
    requires SlotName(service, active) !in After(a, others).deployments ==> (seen <==> f(c + |others| + 2).Done?)
    ensures BothStand(b, service) && SlotsReady(a, b, service, active, rs, f, c)
  {
    var here := SlotName(service, active);
    OthersLeave(a, rs, service, service);
    OthersLeave(a, rs, service, here);
    StagedFrom(a, After(a, others), b, service, active, rs, revision, seen, f, c);
  }

  lemma StagedDone(a: State, b: State, service: string, active: string, rs: seq<Resource>, others: seq<Resource>,
                   revision: string, seen: bool, f: nat -> Outcome, c: nat)
    requires others == Others(rs, service) && b == BlueGreenStaged(After(a, others), service, active, revision, seen)
    requires active in ["blue", "green"] && TemplateOK(rs, service) && revision == NewRevision(rs, service)
    requires SlotName(service, active) !in After(a, others).deployments ==> (seen <==> f(c + |others| + 2).Done?)
    ensures SlotsDone(service, active, rs, f, c)(a, b)
  {
    StagedRestKept(a, b, service, active, rs, others, revision, seen);
    StagedReady(a, b, service, active, rs, others, revision, seen, f, c);
  }

  /** From the state `st` that the resources passed on have left. */
  lemma StagedFrom(a: State, st: State, b: State, service: string, active: string, rs: seq<Resource>, revision: string,
                   seen: bool, f: nat -> Outcome, c: nat)
    requires b == BlueGreenStaged(st, service, active, revision, seen)
    requires active in ["blue", "green"] && revision == NewRevision(rs, service)
    requires SlotName(service, active) !in st.deployments ==> (seen <==> f(c + |Others(rs, service)| + 2).Done?)
    requires Leaves(a, st, Others(rs, service), service) && Leaves(a, st, Others(rs, service), SlotName(service, active))
    ensures BothStand(b, service) && SlotsReady(a, b, service, active, rs, f, c)
  {
    SideNamesDiffer(service);
  }

  /** Deployment `name` is as it was, or one that was applied. */
  predicate Leaves(a: State, b: State, rs: seq<Resource>, name: string) {
    && (name in b.deployments <==> name in a.deployments || Deploys(rs, name))
    && (name in a.deployments && !Deploys(rs, name) ==> b.deployments[name] == a.deployments[name])
  }

  /** A blue-green deploy of a template: staging and gate; an operator switches. */
  method DeployBlueGreen(ns: Namespace, rs: seq<Resource>, primary: string) returns (ok: bool)
    requires ns.Valid() && Tied(ns.st) && TemplateOK(rs, ns.service) && ns.service != ""
    modifies ns`st, ns`calls, ns`trace, ns`steady, ns`calm, ns`gated, ns`gates
    ensures ns.Valid() && Tied(ns.st) && ns.steady == old(ns.steady)
    ensures Keeps(old(ns.st), ns.st, ns.service)
    ensures Placed(old(ns.st), ns.service, ActiveSlot(primary))
            && Apart(old(ns.st), ns.service, ActiveSlot(primary), rs) ==>
              ns.calm == old(ns.calm) && ns.gated == old(ns.gated)
    ensures ok ==> SlotsDone(ns.service, ActiveSlot(primary), rs, ns.faults, old(ns.calls))(old(ns.st), ns.st)
    ensures ok ==> ns.gates == old(ns.gates) + [[SlotName(ns.service, Opposite(ActiveSlot(primary)))]]
    ensures AllWell(ns.faults) ==> (ok <==> Splittable(rs, ns.service))
  {
    ok := StageBlueGreenTemplate(ns, rs, ActiveSlot(primary));
    if !ok { return; }
    CandidateStands(ns.st, ns.service, ActiveSlot(primary));
    ok := Await(ns, [SlotName(ns.service, Opposite(ActiveSlot(primary)))]);
  }

  lemma CandidateStands(st: State, service: string, active: string)
    requires BothStand(st, service)
    ensures forall w :: w in [SlotName(service, Opposite(active))] ==> w in st.deployments
  {
  }

  // ---- promoting the canary ----

  /** A published VirtualService, off the canary. */
  function OffCanary(sc: Scope, root: Fields): Fields {
    if References(sc, CanaryName(sc), root) then EachRoute(Promotion(sc), root) else root
  }

  /** Each VirtualService is as it was or shifted. */
  predicate ShiftedSome(sc: Scope, a: seq<Fields>, b: seq<Fields>) {
    |b| == |a| && forall i :: 0 <= i < |a| ==> b[i] == a[i] || b[i] == OffCanary(sc, a[i])
  }

  predicate ShiftedAll(sc: Scope, a: seq<Fields>, b: seq<Fields>) {
    |b| == |a| && forall i :: 0 <= i < |a| ==> b[i] == OffCanary(sc, a[i])
  }

  predicate NoneReferences(sc: Scope, trees: seq<Fields>) {
    forall i :: 0 <= i < |trees| ==> !References(sc, CanaryName(sc), trees[i])
  }

  /** From state `n` of the trace on, the canary's Deployment is only missing when no route refers to it. */
  ghost predicate Backed(sc: Scope, trace: seq<State>, n: nat) {
    forall i :: n <= i < |trace| ==>
      CanaryOf(sc.service) in trace[i].deployments || NoneReferences(sc, trace[i].virtualServices)
  }

  /** Nothing but VirtualService `i` may have changed, and that only into its shifted form. */
  predicate AtMostShifted(sc: Scope, a: State, b: State, i: nat, must: bool) {
    && i < |a.virtualServices| == |b.virtualServices|
    && b == a.(virtualServices := b.virtualServices)
    && (forall k :: 0 <= k < |a.virtualServices| && k != i ==> b.virtualServices[k] == a.virtualServices[k])
    && (b.virtualServices[i] == OffCanary(sc, a.virtualServices[i])
        || (!must && b.virtualServices[i] == a.virtualServices[i]))
  }

  /** One round of shiftPublishedCanaryTraffic: the tree is rewritten, and written back only when it changed. */
  method ShiftOne(ns: Namespace, sc: Scope, i: nat, ghost n: nat) returns (ok: bool)
    requires ns.Valid() && Tied(ns.st) && i < |ns.st.virtualServices|
    requires CanaryOf(sc.service) in ns.st.deployments && Backed(sc, ns.trace, n)
    modifies ns`st, ns`calls, ns`trace, ns`steady, ns`calm, ns`gated
    ensures ns.Valid() && Tied(ns.st) && ns.steady == old(ns.steady) && ns.gated == old(ns.gated)
    ensures Backed(sc, ns.trace, n)
    ensures AtMostShifted(sc, old(ns.st), ns.st, i, ok) && |old(ns.trace)| <= |ns.trace|
    ensures AllWell(ns.faults) ==> ok
  {
    var changed, root := ShiftTree(sc, ns.st.virtualServices[i]);
    TreeReplaced(sc, ns.st, i);
    if !changed { return true; }
    ok := ns.Push(ns.st.(virtualServices := ns.st.virtualServices[i := root]));
    BackedStep(sc, old(ns.trace), ns.st, n);
  }

  lemma TreeReplaced(sc: Scope, a: State, i: nat)
    requires i < |a.virtualServices|
    ensures var root := OffCanary(sc, a.virtualServices[i]);
            && AtMostShifted(sc, a, a.(virtualServices := a.virtualServices[i := root]), i, true)
            && AtMostShifted(sc, a, a, i, root == a.virtualServices[i])
  {
  }

  /** The tree that is written back, if it changed. */
  method ShiftTree(sc: Scope, root: Fields) returns (changed: bool, next: Fields)
    ensures changed <==> References(sc, CanaryName(sc), root)
    ensures if changed then next == OffCanary(sc, root) else OffCanary(sc, root) == root
  {
    var vs := new VirtualService(root);
    changed := vs.PromoteCanary(sc);
    next := vs.root;
  }

  /** The first `n` are shifted and the rest are as they were. */
  predicate ShiftedTo(sc: Scope, a: seq<Fields>, b: seq<Fields>, n: nat) {
    && |b| == |a|
    && (forall k :: 0 <= k < n && k < |a| ==> b[k] == OffCanary(sc, a[k]))
    && (forall k :: n <= k < |a| ==> b[k] == a[k])
  }

  /** shiftPublishedCanaryTraffic. */
  method ShiftPublished(ns: Namespace, sc: Scope, ghost n: nat) returns (ok: bool)
    requires ns.Valid() && Tied(ns.st)
    requires CanaryOf(sc.service) in ns.st.deployments && Backed(sc, ns.trace, n) && n <= |ns.trace|
    modifies ns`st, ns`calls, ns`trace, ns`steady, ns`calm, ns`gated
    ensures ns.Valid() && Tied(ns.st) && ns.steady == old(ns.steady) && ns.gated == old(ns.gated)
    ensures Backed(sc, ns.trace, n) && n <= |ns.trace|
    ensures ns.st == old(ns.st).(virtualServices := ns.st.virtualServices)
    ensures ShiftedSome(sc, old(ns.st).virtualServices, ns.st.virtualServices)
    ensures ok ==> ShiftedAll(sc, old(ns.st).virtualServices, ns.st.virtualServices)
    ensures ok || ns.st != old(ns.st) ==> ns.faults(old(ns.calls)).Done?
    ensures AllWell(ns.faults) ==> ok
  {
    ok := ns.Read();
    if !ok { return; }
    for i := 0 to |ns.st.virtualServices|
      invariant ns.Valid() && Tied(ns.st) && ns.steady == old(ns.steady) && ns.gated == old(ns.gated)
      invariant Backed(sc, ns.trace, n) && ok
      invariant ns.st == old(ns.st).(virtualServices := ns.st.virtualServices) && n <= |ns.trace|
      invariant ShiftedTo(sc, old(ns.st).virtualServices, ns.st.virtualServices, i)
    {
      ok := ShiftOne(ns, sc, i, n);
      if !ok { return; }
    }
  }

  /** canaryTrafficRemains. */
  method TrafficRemains(ns: Namespace, sc: Scope) returns (ok: bool, remains: bool)
    modifies ns`calls
    ensures old(ns.calls) <= ns.calls
    ensures ok ==> (remains <==> !NoneReferences(sc, ns.st.virtualServices))
    ensures ok <==> ns.faults(old(ns.calls)).Done?
  {
    ok := ns.Read();
    if !ok { return ok, false; }
    remains := AnyTree(root => References(sc, CanaryName(sc), root), ns.st.virtualServices);
  }

  method AnyTree(test: Fields -> bool, trees: seq<Fields>) returns (found: bool)
    ensures found <==> exists k :: 0 <= k < |trees| && test(trees[k])
  {
    for i := 0 to |trees|
      invariant forall k :: 0 <= k < i ==> !test(trees[k])
    {
      if test(trees[i]) { return true; }
    }
    return false;
  }

  /** The stable Deployment copied from the canary, rolled out, and traffic given to it. */
  method Prepare(ns: Namespace, ghost n: nat, sc: Scope) returns (ok: bool)
    requires ns.Valid() && Tied(ns.st) && ns.service == sc.service != "" && Backed(sc, ns.trace, n) && n <= |ns.trace|
    modifies ns`st, ns`calls, ns`trace, ns`steady, ns`calm, ns`gated, ns`gates
    ensures ns.Valid() && Tied(ns.st) && ns.steady == old(ns.steady) && Backed(sc, ns.trace, n) && n <= |ns.trace|
    ensures Keeps(old(ns.st), ns.st, ns.service)
    ensures ns.st.virtualServices == old(ns.st).virtualServices
    ensures ok ==> Own(ns.st, ns.service) && CanaryOf(ns.service) in ns.st.deployments
    ensures ok ==> CopiesCanary(old(ns.st), ns.st, ns.service) && ns.gates == old(ns.gates) + [[ns.service]]
    ensures ns.gated == old(ns.gated)
    ensures ok || ns.st != old(ns.st) ==> AllDone(ns.faults, old(ns.calls), old(ns.calls) + 2)
    ensures AllWell(ns.faults) ==> (ok <==> CanaryStands(old(ns.st), ns.service))
  {
    ok := ns.Read();
    if !ok || CanaryOf(ns.service) !in ns.st.deployments { return false; }
    ok := ns.Read();
    if !ok || CanaryOf(ns.service) !in ns.st.services { return false; }
    ok := TakeOver(ns, n, sc, ns.st.deployments[CanaryOf(ns.service)].revision);
  }

  /** There is a canary to promote. */
  predicate CanaryStands(st: State, service: string) {
    CanaryOf(service) in st.deployments && CanaryOf(service) in st.services
  }

  /** The stable Deployment runs in state `b` what the canary ran in state `a`. */
  predicate CopiesCanary(a: State, b: State, service: string) {
    && CanaryOf(service) in a.deployments && service in b.deployments
    && b.deployments[service] == Pods(service, a.deployments[CanaryOf(service)].revision)
  }

  /** The rollout and the cutover, with the canary standing. */
  method TakeOver(ns: Namespace, ghost n: nat, sc: Scope, revision: string) returns (ok: bool)
    requires ns.Valid() && Tied(ns.st) && ns.service == sc.service != "" && Backed(sc, ns.trace, n) && n <= |ns.trace|
    requires CanaryOf(ns.service) in ns.st.deployments
    modifies ns`st, ns`calls, ns`trace, ns`steady, ns`calm, ns`gated, ns`gates
    ensures ns.Valid() && Tied(ns.st) && ns.steady == old(ns.steady) && Backed(sc, ns.trace, n) && n <= |ns.trace|
    ensures Keeps(old(ns.st), ns.st, ns.service) && CanaryOf(ns.service) in ns.st.deployments
    ensures ns.st.virtualServices == old(ns.st).virtualServices
    ensures ok ==> Own(ns.st, ns.service) && ns.st.deployments[ns.service] == Pods(ns.service, revision)
    ensures ok ==> ns.gates == old(ns.gates) + [[ns.service]]
    ensures ns.gated == old(ns.gated) && (AllWell(ns.faults) ==> ok)
  {
    ok := ApplyBacked(ns, n, sc, Deployment(ns.service, ns.service, revision));
    if !ok { return; }
    ok := Await(ns, [ns.service]);
    if !ok { return; }
    assert ns.service in [ns.service];
    PassedNow(ns.gates, ns.service);
    ok := ApplyBacked(ns, n, sc, Service(ns.service, ns.service));
  }

  /** One of the service's own resources. */
  method ApplyBacked(ns: Namespace, ghost n: nat, sc: Scope, r: Resource) returns (ok: bool)
    requires ns.Valid() && Tied(ns.st) && ns.service == sc.service != "" && Backed(sc, ns.trace, n) && n <= |ns.trace|
    requires CanaryOf(ns.service) in ns.st.deployments
    requires (r.Deployment? && r.name == ns.service && r.app == ns.service)
             || (r == Service(ns.service, ns.service) && ns.service in ns.st.deployments && Passed(ns.gates, ns.service))
    modifies ns`st, ns`calls, ns`trace, ns`steady, ns`calm, ns`gated
    ensures ns.Valid() && Tied(ns.st) && ns.steady == old(ns.steady) && Backed(sc, ns.trace, n) && n <= |ns.trace|
    ensures CanaryOf(ns.service) in ns.st.deployments && ns.gated == old(ns.gated)
    ensures (ns.st == old(ns.st) || ns.st == Applied(old(ns.st), r)) && (ok ==> ns.st == Applied(old(ns.st), r))
    ensures AllWell(ns.faults) ==> ok
  {
    ok := ns.Apply(r);
    BackedStep(sc, old(ns.trace), ns.st, n);
  }

  lemma BackedStep(sc: Scope, trace: seq<State>, st: State, n: nat)
    requires Backed(sc, trace, n) && CanaryOf(sc.service) in st.deployments
    ensures Backed(sc, trace + [st], n)
  {
  }

  /** The published trees, all of them off the canary. */
  function AllOff(sc: Scope, trees: seq<Fields>): seq<Fields> {
    seq(|trees|, i requires 0 <= i < |trees| => OffCanary(sc, trees[i]))
  }

  /** Once they are shifted, nothing in the trees names the canary as a host. */
  ghost predicate Vacates(sc: Scope, trees: seq<Fields>) {
    NoneReferences(sc, AllOff(sc, trees)) && !AliasReferenced(AllOff(sc, trees), CanaryOf(sc.service), sc.namespace)
  }

  lemma ShiftedIsAllOff(sc: Scope, a: seq<Fields>, b: seq<Fields>)
    requires ShiftedAll(sc, a, b)
    ensures b == AllOff(sc, a)
  {
  }

  /**
   * HandlePromoteCanary, on a service that uses the canary strategy. No fault schedule drops traffic, and none takes
   * the canary's Deployment away while a route still refers to it.
   */
  method PromoteCanary(ns: Namespace, sc: Scope) returns (ok: bool)
    requires ns.Valid() && Tied(ns.st) && ns.service == sc.service != ""
    modifies ns`st, ns`calls, ns`trace, ns`steady, ns`calm, ns`gated, ns`gates
    ensures ns.Valid() && Tied(ns.st) && ns.steady == old(ns.steady)
    ensures Keeps(old(ns.st), ns.st, ns.service)
    ensures Backed(sc, ns.trace, |old(ns.trace)|)
    ensures ShiftedSome(sc, old(ns.st).virtualServices, ns.st.virtualServices)
    ensures TreesCarried(sc, old(ns.st).virtualServices, ns.st.virtualServices)
    ensures ok ==> Own(ns.st, ns.service) && CanaryOf(ns.service) !in ns.st.deployments
    ensures ok ==> ShiftedAll(sc, old(ns.st).virtualServices, ns.st.virtualServices)
                   && NoneReferences(sc, ns.st.virtualServices)
    ensures ok ==> CopiesCanary(old(ns.st), ns.st, ns.service) && ns.gates == old(ns.gates) + [[ns.service]]
    ensures ns.gated == old(ns.gated)
    ensures AllWell(ns.faults) ==>
              (ok <==> CanaryStands(old(ns.st), ns.service) && Vacates(sc, old(ns.st).virtualServices))
  {
    ghost var n := |ns.trace|;
    ok := Prepare(ns, n, sc);
    ShiftedAreCarried(sc, old(ns.st).virtualServices, ns.st.virtualServices);
    if !ok { return; }
    ok := ShiftPublished(ns, sc, n);
    if ok { ShiftedIsAllOff(sc, old(ns.st).virtualServices, ns.st.virtualServices); }
    ShiftedAreCarried(sc, old(ns.st).virtualServices, ns.st.virtualServices);
    if !ok { return; }
    var remains;
    ok, remains := TrafficRemains(ns, sc);
    if !ok || remains { return false; }
    ok := RetireCanary(ns, sc, n);
  }

  /** Trees that do not refer to the canary are as they were, and the others carry over all but what refers to it. */
  ghost predicate TreesCarried(sc: Scope, a: seq<Fields>, b: seq<Fields>) {
    |b| == |a| && forall i :: 0 <= i < |a| ==>
      b[i] == a[i] || (References(sc, CanaryName(sc), a[i]) && TreeCarried(sc, a[i], b[i]))
  }

  lemma ShiftedAreCarried(sc: Scope, a: seq<Fields>, b: seq<Fields>)
    requires ShiftedSome(sc, a, b)
    ensures TreesCarried(sc, a, b)
  {
    forall i | 0 <= i < |a| && b[i] != a[i]
      ensures References(sc, CanaryName(sc), a[i]) && TreeCarried(sc, a[i], b[i])
    {
      PromotionCarriesOver(sc, a[i]);
    }
  }

  lemma BackedMore(sc: Scope, before: seq<State>, after: seq<State>, n: nat, a: State, may: iset<string>)
    requires Backed(sc, before, n) && before <= after && TraceOnlyGone(after, |before|, a, may)
    requires NoneReferences(sc, a.virtualServices)
    ensures Backed(sc, after, n)
  {
    forall i | n <= i < |after|
      ensures CanaryOf(sc.service) in after[i].deployments || NoneReferences(sc, after[i].virtualServices)
    {
      if i < |before| { assert after[i] == before[i]; } else { assert OnlyGone(a, after[i], may); }
    }
  }

  lemma OwnStays(a: State, b: State, sc: Scope)
    requires OnlyGone(a, b, Shadows(a, sc, Rolling)) && Own(a, sc.service)
    ensures Own(b, sc.service) && b.virtualServices == a.virtualServices
    ensures b.deployments[sc.service] == a.deployments[sc.service]
  {
    CandidatesNamed(sc.service, Rolling);
  }

  method SweepBacked(ns: Namespace, sc: Scope, ghost n: nat) returns (ok: bool)
    requires ns.Valid() && Tied(ns.st) && ns.service == sc.service != "" && Own(ns.st, ns.service)
    requires NoneReferences(sc, ns.st.virtualServices) && Backed(sc, ns.trace, n) && n <= |ns.trace|
    modifies ns`st, ns`calls, ns`trace, ns`steady, ns`calm, ns`gated
    ensures ns.Valid() && Tied(ns.st) && ns.steady == old(ns.steady) && ns.gated == old(ns.gated)
    ensures Backed(sc, ns.trace, n)
    ensures Own(ns.st, ns.service) && ns.st.virtualServices == old(ns.st).virtualServices
    ensures ns.st.deployments[ns.service] == old(ns.st).deployments[ns.service]
    ensures ok ==> (CanaryOf(ns.service) in ns.st.deployments <==>
                      CanaryOf(ns.service) in old(ns.st).deployments && Reachable(old(ns.st), sc, CanaryOf(ns.service)))
    ensures AllWell(ns.faults) ==> ok
  {
    ok := CleanupUnused(ns, sc, Rolling);
    SideNamesDiffer(ns.service);
    BackedMore(sc, old(ns.trace), ns.trace, n, old(ns.st), Shadows(old(ns.st), sc, Rolling));
    OwnStays(old(ns.st), ns.st, sc);
  }

  method RetireCanary(ns: Namespace, sc: Scope, ghost n: nat) returns (ok: bool)
    requires ns.Valid() && Tied(ns.st) && ns.service == sc.service != "" && Own(ns.st, ns.service)
    requires NoneReferences(sc, ns.st.virtualServices) && Backed(sc, ns.trace, n) && n <= |ns.trace|
    modifies ns`st, ns`calls, ns`trace, ns`steady, ns`calm, ns`gated
    ensures ns.Valid() && Tied(ns.st) && ns.steady == old(ns.steady) && ns.gated == old(ns.gated)
    ensures Backed(sc, ns.trace, n)
    ensures ns.st.virtualServices == old(ns.st).virtualServices && Own(ns.st, ns.service)
    ensures ns.st.deployments[ns.service] == old(ns.st).deployments[ns.service]
    ensures ok ==> CanaryOf(ns.service) !in ns.st.deployments
    ensures AllWell(ns.faults) ==>
      (ok <==> !(CanaryOf(ns.service) in old(ns.st).deployments && Reachable(old(ns.st), sc, CanaryOf(ns.service))))
  {
    ok := SweepBacked(ns, sc, n);
    if !ok { return; }
    var canary := CanaryOf(ns.service);
    assert canary in [canary];
    ok := AwaitRetired(ns, [canary]);
  }

  /** Shifted trees are off the canary for good, so the last check before the canary is removed never fails. */
  lemma ShiftedClears(sc: Scope, a: seq<Fields>, b: seq<Fields>)
    requires Trimmed(sc.service) && ShiftedAll(sc, a, b)
    ensures NoneReferences(sc, b)
  {
    forall i | 0 <= i < |b| ensures !References(sc, CanaryName(sc), b[i]) {
      PromotionClears(sc, a[i]);
    }
  }
}
