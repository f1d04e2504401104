/** Staging, cutover and cleanup of the three release strategies, one remote call at a time. */
module Release {
  import opened Manifests
  import opened Cluster

  predicate IsCanonical(r: Resource, service: string) { r.Service? && r.name == service }

  /**
   * What the deploy templates promise: Deployments are labelled with their own name, and the one canonical
   * Service, if there is one, selects the service's own app.
   */
  predicate TemplateOK(rs: seq<Resource>, service: string) {
    && (forall r :: r in rs && r.Deployment? ==> r.app == r.name && r.name != "")
    && (forall r :: r in rs && IsCanonical(r, service) ==> r.selector == service)
    && (forall i, j :: 0 <= i < j < |rs| && IsCanonical(rs[i], service) ==> !IsCanonical(rs[j], service))
  }

  /** The state once every one of `rs` is applied. */
  function After(st: State, rs: seq<Resource>): State {
    if rs == [] then st else Applied(After(st, rs[..|rs| - 1]), rs[|rs| - 1])
  }

  /** Some Deployment of `rs` has this name. */
  predicate Deploys(rs: seq<Resource>, name: string) {
    exists i :: 0 <= i < |rs| && rs[i].Deployment? && rs[i].name == name
  }

  /** `rs` leaves alone the Deployment that the canonical Service selects in state `st`. */
  predicate Aside(st: State, service: string, rs: seq<Resource>) {
    service in st.services ==> !Deploys(rs, st.services[service])
  }

  /** Traffic has a Deployment to go to, and that is not the service's own. */
  predicate Elsewhere(st: State, service: string) {
    Selects(st, service) && st.services[service] != service
  }

  /**
   * The one way a rolling deploy can drop traffic: when its turn comes, the canonical Service is on a workload
   * that exists, the stable Deployment is not there, and the read that would keep the selector fails.
   */
  ghost predicate RollingDrops(st: State, service: string, rs: seq<Resource>, faults: nat -> Outcome, c: nat) {
    var p := CanonicalAt(rs, service);
    var met := After(st, rs[..p]);
    && p < |rs| && AllDone(faults, c, c + p)
    && Selects(met, service) && service !in met.deployments
    && !faults(c + p).Done? && !faults(c + p + 1).Refused?
  }

  /** The one read that a rolling deploy keeps the selector by goes well. */
  predicate Sighted(rs: seq<Resource>, service: string, faults: nat -> Outcome, c: nat) {
    CanonicalAt(rs, service) < |rs| ==> faults(c + CanonicalAt(rs, service)).Done?
  }

  function CanonicalAt(rs: seq<Resource>, service: string): (p: nat)
    ensures p <= |rs| && (p < |rs| ==> IsCanonical(rs[p], service))
    ensures forall k :: 0 <= k < p ==> !IsCanonical(rs[k], service)
  {
    if rs == [] then 0 else if IsCanonical(rs[0], service) then 0 else 1 + CanonicalAt(rs[1..], service)
  }

  /** The canonical Service of a template, kept on the workload it is on in state `st`. */
  function Kept(st: State, service: string, template: Resource): Resource {
    if service in st.services && st.services[service] != "" && st.services[service] != service
    then Service(service, st.services[service]) else template
  }

  /** What a rolling deploy applies; `seen` says that the canonical Service could be read. */
  function RollingTemplate(st: State, service: string, rs: seq<Resource>, seen: bool): seq<Resource> {
    var p := CanonicalAt(rs, service);
    if p < |rs| && seen then rs[p := Kept(After(st, rs[..p]), service, rs[p])] else rs
  }

  /** The canonical Service of a rolling template keeps the workload it is on, if that can be read. */
  method StageCanonical(ns: Namespace, template: Resource) returns (ok: bool, blind: bool)
    requires ns.Valid() && Tied(ns.st) && IsCanonical(template, ns.service) && template.selector == ns.service != ""
    modifies ns`st, ns`calls, ns`trace, ns`steady, ns`calm, ns`gated
    ensures ns.Valid() && Tied(ns.st) && ns.calls == old(ns.calls) + 2
    ensures Keeps(old(ns.st), ns.st, ns.service)
    ensures blind <==> !ns.faults(old(ns.calls)).Done?
    ensures ns.steady <==>
      (old(ns.steady)
       && !(Selects(old(ns.st), ns.service) && ns.service !in old(ns.st).deployments
            && blind && !ns.faults(old(ns.calls) + 1).Refused?))
    ensures ok ==> ns.st == Applied(old(ns.st), if blind then template else Kept(old(ns.st), ns.service, template))
    ensures ns.calm <==>
      (old(ns.calm) && !(Elsewhere(old(ns.st), ns.service) && blind && !ns.faults(old(ns.calls) + 1).Refused?))
    ensures !blind ==> SamePods(old(ns.st), ns.st, ns.service) && ns.gated == old(ns.gated)
    ensures ok <==> ns.faults(old(ns.calls) + 1).Done?
  {
    var service := ns.service;
    var r := template;
    var seen := ns.Read();
    blind := !seen;
    if seen && service in ns.st.services {
      var current := ns.st.services[service];
      if current != "" && current != service { r := Service(service, current); }
    }
    ServingByName(ns.st, service);
    ServingByName(Applied(ns.st, r), service);
    ok := ns.Write(Applied(ns.st, r));
  }

  /** applyRollingWorkloadResources: traffic is kept unless `RollingDrops`, whatever else fails. */
  method StageRolling(ns: Namespace, rs: seq<Resource>, autoscale: bool) returns (ok: bool, blind: bool)
    requires ns.Valid() && Tied(ns.st) && TemplateOK(rs, ns.service) && ns.service != ""
    modifies ns`st, ns`calls, ns`trace, ns`steady, ns`calm, ns`gated
    ensures ns.Valid() && Tied(ns.st)
    ensures Keeps(old(ns.st), ns.st, ns.service)
    ensures ns.steady <==>
      (old(ns.steady)
       && !RollingDrops(old(ns.st), ns.service, rs, ns.faults, old(ns.calls)))
    ensures ok ==> ns.st == After(old(ns.st), RollingTemplate(old(ns.st), ns.service, rs, !blind))
                              .(autoscalers := ns.st.autoscalers)
    ensures ok ==> (ns.service in ns.st.autoscalers <==> autoscale)
    ensures !blind && Elsewhere(old(ns.st), ns.service) && Aside(old(ns.st), ns.service, rs) ==> ns.calm == old(ns.calm)
    ensures !blind ==> ns.gated == old(ns.gated)
    ensures blind ==> !Sighted(rs, ns.service, ns.faults, old(ns.calls))
    ensures AllWell(ns.faults) ==> ok && !blind
  {
    ok, blind := StageTemplate(ns, rs);
    if ok { ok := ns.Autoscale(autoscale); }
  }

  /** The loop over the template. */
  method StageTemplate(ns: Namespace, rs: seq<Resource>) returns (ok: bool, blind: bool)
    requires ns.Valid() && Tied(ns.st) && TemplateOK(rs, ns.service) && ns.service != ""
    modifies ns`st, ns`calls, ns`trace, ns`steady, ns`calm, ns`gated
    ensures ns.Valid() && Tied(ns.st)
    ensures Keeps(old(ns.st), ns.st, ns.service)
    ensures ns.steady <==>
      (old(ns.steady)
       && !RollingDrops(old(ns.st), ns.service, rs, ns.faults, old(ns.calls)))
    ensures ok ==> ns.st == After(old(ns.st), RollingTemplate(old(ns.st), ns.service, rs, !blind))
    ensures !blind && Elsewhere(old(ns.st), ns.service) && Aside(old(ns.st), ns.service, rs) ==> ns.calm == old(ns.calm)
    ensures !blind ==> ns.gated == old(ns.gated)
    ensures blind ==> !Sighted(rs, ns.service, ns.faults, old(ns.calls))
    ensures AllWell(ns.faults) ==> ok && !blind
  {
    ghost var a, c, was := ns.st, ns.calls, ns.steady;
    ok, blind := true, false;
    StagingStarts(a, rs, ns.service, ns.faults, c, was);
    for i := 0 to |rs|
      invariant ns.Valid() && Tied(ns.st) && ok
      invariant Staging(a, ns.st, rs, i, ns.service, blind)
      invariant Keeping(a, rs, i, ns.service, ns.faults, c, ns.calls, was, ns.steady)
      invariant Keeps(a, ns.st, ns.service)
      invariant !blind && Elsewhere(a, ns.service) && Aside(a, ns.service, rs) ==>
                  ns.calm == old(ns.calm) && SamePods(a, ns.st, ns.service)
      invariant if blind then !Sighted(rs, ns.service, ns.faults, c) else ns.gated == old(ns.gated)
      invariant AllWell(ns.faults) ==> !blind
    {
      ok, blind := StageOne(ns, rs, i, blind, a, c, was);
      if !ok { return; }
    }
    StagingEnds(a, ns.st, rs, ns.service, blind, ns.faults, c, ns.calls, was, ns.steady);
  }

  /** One round of it. */
  method StageOne(ns: Namespace, rs: seq<Resource>, i: nat, blind0: bool, ghost a: State, ghost c: nat, ghost was: bool)
    returns (ok: bool, blind: bool)
    requires ns.Valid() && Tied(ns.st) && TemplateOK(rs, ns.service) && ns.service != "" && i < |rs|
    requires Staging(a, ns.st, rs, i, ns.service, blind0)
    requires Keeping(a, rs, i, ns.service, ns.faults, c, ns.calls, was, ns.steady)
    modifies ns`st, ns`calls, ns`trace, ns`steady, ns`calm, ns`gated
    ensures ns.Valid() && Tied(ns.st)
    ensures Keeps(old(ns.st), ns.st, ns.service)
    ensures ok ==> Staging(a, ns.st, rs, i + 1, ns.service, blind)
    ensures ok ==> Keeping(a, rs, i + 1, ns.service, ns.faults, c, ns.calls, was, ns.steady)
    ensures !ok ==> (ns.steady <==> was && !RollingDrops(a, ns.service, rs, ns.faults, c))
    ensures blind0 ==> blind
    ensures !blind && Elsewhere(old(ns.st), ns.service) && Aside(old(ns.st), ns.service, rs) ==>
              ns.calm == old(ns.calm) && SamePods(old(ns.st), ns.st, ns.service)
    ensures !blind ==> ns.gated == old(ns.gated)
    ensures blind && !blind0 ==> !Sighted(rs, ns.service, ns.faults, c)
    ensures AllWell(ns.faults) && !blind0 ==> ok && !blind
  {
    ghost var st := ns.st;
    ResourceOK(rs, ns.service, i);
    blind := blind0;
    if IsCanonical(rs[i], ns.service) {
      ok, blind := StageCanonicalAt(ns, rs, i, a, c, was);
    } else {
      ok := StagePlainAt(ns, rs, i, a, c, was);
    }
    if ok { StagingMore(a, st, ns.st, rs, i, ns.service, blind); }
  }

  method StageCanonicalAt(ns: Namespace, rs: seq<Resource>, i: nat, ghost a: State, ghost c: nat, ghost was: bool)
    returns (ok: bool, blind: bool)
    requires ns.Valid() && Tied(ns.st) && ns.service != "" && i < |rs| && i == CanonicalAt(rs, ns.service)
    requires rs[i].selector == ns.service && ns.st == After(a, rs[..i])
    requires ns.steady == was && ns.calls == c + i && AllDone(ns.faults, c, c + i)
    modifies ns`st, ns`calls, ns`trace, ns`steady, ns`calm, ns`gated
    ensures ns.Valid() && Tied(ns.st)
    ensures Keeps(old(ns.st), ns.st, ns.service)
    ensures ns.steady <==> was && !RollingDrops(a, ns.service, rs, ns.faults, c)
    ensures ok ==> ns.st == Applied(old(ns.st), if blind then rs[i] else Kept(old(ns.st), ns.service, rs[i]))
    ensures blind <==> !ns.faults(c + i).Done?
    ensures ok <==> ns.faults(c + i + 1).Done?
    ensures !blind ==>
              ns.calm == old(ns.calm) && ns.gated == old(ns.gated) && SamePods(old(ns.st), ns.st, ns.service)
  {
    ghost var st := ns.st;
    ok, blind := StageCanonical(ns, rs[i]);
    CanonicalKeeping(a, st, rs, i, ns.service, ns.faults, c, was, ns.steady);
  }

  method StagePlainAt(ns: Namespace, rs: seq<Resource>, i: nat, ghost a: State, ghost c: nat, ghost was: bool)
    returns (ok: bool)
    requires ns.Valid() && Tied(ns.st) && i < |rs| && !IsCanonical(rs[i], ns.service)
    requires rs[i].Deployment? ==> rs[i].app == rs[i].name && rs[i].name != ""
    requires Keeping(a, rs, i, ns.service, ns.faults, c, ns.calls, was, ns.steady)
    modifies ns`st, ns`calls, ns`trace, ns`steady, ns`calm, ns`gated
    ensures ns.Valid() && Tied(ns.st)
    ensures Keeps(old(ns.st), ns.st, ns.service)
    ensures ok ==> Keeping(a, rs, i + 1, ns.service, ns.faults, c, ns.calls, was, ns.steady)
    ensures !ok ==> (ns.steady <==> was && !RollingDrops(a, ns.service, rs, ns.faults, c))
    ensures ok ==> ns.st == Applied(old(ns.st), rs[i])
    ensures ns.gated == old(ns.gated) && (AllWell(ns.faults) ==> ok)
    ensures Aside(old(ns.st), ns.service, rs) ==> ns.calm == old(ns.calm) && SamePods(old(ns.st), ns.st, ns.service)
  {
    AsideStep(ns.st, ns.service, rs, i);
    ghost var calls, now := ns.calls, ns.steady;
    ok := ns.Apply(rs[i]);
    PlainKeeping(a, rs, i, ns.service, ns.faults, c, calls, was, now);
  }

  /** A resource of a template that leaves traffic's Deployment alone, and is no canonical Service, moves nothing. */
  lemma AsideStep(st: State, service: string, rs: seq<Resource>, i: nat)
    requires i < |rs| && !IsCanonical(rs[i], service)
    ensures Aside(st, service, rs) ==> SamePods(st, Applied(st, rs[i]), service)
  {
  }

  lemma ResourceOK(rs: seq<Resource>, service: string, i: nat)
    requires TemplateOK(rs, service) && i < |rs|
    ensures rs[i].Deployment? ==> rs[i].app == rs[i].name && rs[i].name != ""
    ensures IsCanonical(rs[i], service) ==> rs[i].selector == service && i == CanonicalAt(rs, service)
  {
    assert rs[i] in rs;
    var p := CanonicalAt(rs, service);
    assert p < i ==> IsCanonical(rs[p], service);
  }

  /** Any other resource leaves things as they are, before the canonical Service and after it. */
  lemma PlainKeeping(a: State, rs: seq<Resource>, i: nat, service: string, f: nat -> Outcome, c: nat, calls: nat,
                     was: bool, now: bool)
    requires i < |rs| && !IsCanonical(rs[i], service) && Keeping(a, rs, i, service, f, c, calls, was, now)
    ensures f(calls).Done? ==> Keeping(a, rs, i + 1, service, f, c, calls + 1, was, now)
    ensures !f(calls).Done? ==> (now <==> was && !RollingDrops(a, service, rs, f, c))
  {
  }

  lemma CanonicalKeeping(a: State, st: State, rs: seq<Resource>, i: nat, service: string, f: nat -> Outcome, c: nat,
                         was: bool, now: bool)
    requires i < |rs| && i == CanonicalAt(rs, service) && st == After(a, rs[..i]) && AllDone(f, c, c + i)
    requires now <==> was && !(Selects(st, service) && service !in st.deployments
                               && !f(c + i).Done? && !f(c + i + 1).Refused?)
    ensures now <==> was && !RollingDrops(a, service, rs, f, c)
  {
  }

  /** Before the canonical Service nothing has failed and traffic is kept; after it, unless `RollingDrops`. */
  ghost predicate Keeping(a: State, rs: seq<Resource>, i: nat, service: string, f: nat -> Outcome, c: nat, calls: nat,
                          was: bool, now: bool) {
    if i <= CanonicalAt(rs, service) then now == was && calls == c + i && AllDone(f, c, c + i)
    else now <==> was && !RollingDrops(a, service, rs, f, c)
  }

  /** The first `i` resources of a rolling template are applied. */
  predicate Staging(a: State, b: State, rs: seq<Resource>, i: nat, service: string, blind: bool) {
    i <= |rs| && b == After(a, RollingTemplate(a, service, rs, !blind)[..i])
    && (i <= CanonicalAt(rs, service) ==> !blind && b == After(a, rs[..i]))
  }

  lemma StagingEnds(a: State, b: State, rs: seq<Resource>, service: string, blind: bool, f: nat -> Outcome, c: nat,
                    calls: nat, was: bool, now: bool)
    requires Staging(a, b, rs, |rs|, service, blind) && Keeping(a, rs, |rs|, service, f, c, calls, was, now)
    ensures b == After(a, RollingTemplate(a, service, rs, !blind))
    ensures now <==> was && !RollingDrops(a, service, rs, f, c)
  {
    var t := RollingTemplate(a, service, rs, !blind);
    assert t[..|rs|] == t;
  }

  lemma StagingStarts(a: State, rs: seq<Resource>, service: string, f: nat -> Outcome, c: nat, was: bool)
    ensures Staging(a, a, rs, 0, service, false) && Keeping(a, rs, 0, service, f, c, c, was, was)
  {
  }

  lemma StagingMore(a: State, b: State, c: State, rs: seq<Resource>, i: nat, service: string, blind: bool)
    requires i < |rs| && TemplateOK(rs, service)
    requires Staging(a, b, rs, i, service, if IsCanonical(rs[i], service) then false else blind)
    requires c == Applied(b, if IsCanonical(rs[i], service) && !blind then Kept(b, service, rs[i]) else rs[i])
    ensures Staging(a, c, rs, i + 1, service, blind)
  {
    ResourceOK(rs, service, i);
    AfterMore(a, RollingTemplate(a, service, rs, !blind), i);
    AfterMore(a, rs, i);
    if IsCanonical(rs[i], service) {
      TemplateFront(a, service, rs, !blind);
      TemplateFront(a, service, rs, true);
    }
  }

  lemma AfterMore(a: State, rs: seq<Resource>, i: nat)
    requires i < |rs|
    ensures After(a, rs[..i + 1]) == Applied(After(a, rs[..i]), rs[i])
  {
    assert rs[..i + 1][..i] == rs[..i];
  }

  lemma TemplateFront(a: State, service: string, rs: seq<Resource>, seen: bool)
    ensures var p := CanonicalAt(rs, service); RollingTemplate(a, service, rs, seen)[..p] == rs[..p]
  {
  }

  // ---- splitting a template ----

  datatype Slot = Empty | Taken(resource: Resource)

  function In(slot: Slot): multiset<Resource> {
    if slot.Empty? then multiset{} else multiset{slot.resource}
  }

  /** Everything a list and four slots hold. */
  function Held(others: seq<Resource>, a: Slot, b: Slot, c: Slot, d: Slot): multiset<Resource> {
    multiset(others) + In(a) + In(b) + In(c) + In(d)
  }

  lemma HeldMore(others: seq<Resource>, a: Slot, b: Slot, c: Slot, d: Slot, r: Resource)
    ensures Held(others + [r], a, b, c, d) == Held(others, a, b, c, d) + multiset{r}
  {
    assert multiset(others + [r]) == multiset(others) + multiset{r};
    var m, ia, ib, ic, id := multiset(others), In(a), In(b), In(c), In(d);
    assert m + multiset{r} + ia + ib + ic + id == m + ia + ib + ic + id + multiset{r};
  }

  /** Filling an empty slot adds its resource, wherever the slot stands. */
  lemma SlotMore(before: multiset<Resource>, after: multiset<Resource>, r: Resource)
    ensures before + In(Taken(r)) + after == before + In(Empty) + after + multiset{r}
  {
  }

  lemma SlotsMore(others: seq<Resource>, a: Slot, b: Slot, c: Slot, d: Slot, r: Resource)
    ensures a.Empty? ==> Held(others, Taken(r), b, c, d) == Held(others, a, b, c, d) + multiset{r}
    ensures b.Empty? ==> Held(others, a, Taken(r), c, d) == Held(others, a, b, c, d) + multiset{r}
    ensures c.Empty? ==> Held(others, a, b, Taken(r), d) == Held(others, a, b, c, d) + multiset{r}
    ensures d.Empty? ==> Held(others, a, b, c, Taken(r)) == Held(others, a, b, c, d) + multiset{r}
  {
    var m := multiset(others);
    SlotMore(m, In(b) + In(c) + In(d), r);
    SlotMore(m + In(a), In(c) + In(d), r);
    SlotMore(m + In(a) + In(b), In(d), r);
    SlotMore(m + In(a) + In(b) + In(c), multiset{}, r);
    HeldGrouped(others, a, b, c, d);
    HeldGrouped(others, Taken(r), b, c, d);
    HeldGrouped(others, a, Taken(r), c, d);
    HeldGrouped(others, a, b, Taken(r), d);
    HeldGrouped(others, a, b, c, Taken(r));
  }

  lemma HeldGrouped(others: seq<Resource>, a: Slot, b: Slot, c: Slot, d: Slot)
    ensures Held(others, a, b, c, d) == multiset(others) + In(a) + (In(b) + In(c) + In(d))
    ensures Held(others, a, b, c, d) == multiset(others) + In(a) + In(b) + (In(c) + In(d))
    ensures Held(others, a, b, c, d) == multiset(others) + In(a) + In(b) + In(c) + In(d) + multiset{}
  {
  }

  /** Of the resources of one kind, the first with the service's name, and the first of the others. */
  function Named(rs: seq<Resource>, kind: Resource -> bool, service: string): Slot {
    if rs == [] then Empty
    else
      var front, r := Named(rs[..|rs| - 1], kind, service), rs[|rs| - 1];
      if front.Empty? && kind(r) && r.name == service then Taken(r) else front
  }

  function Fallback(rs: seq<Resource>, kind: Resource -> bool, service: string): Slot {
    if rs == [] then Empty
    else
      var front, r := Fallback(rs[..|rs| - 1], kind, service), rs[|rs| - 1];
      if front.Empty? && kind(r) && (r.name != service || Named(rs[..|rs| - 1], kind, service).Taken?)
      then Taken(r) else front
  }

  /** The resource a strategy deploy is built from, and the one it drops on the floor. */
  function Chosen(rs: seq<Resource>, kind: Resource -> bool, service: string): Slot {
    if Named(rs, kind, service).Taken? then Named(rs, kind, service) else Fallback(rs, kind, service)
  }

  function Dropped(rs: seq<Resource>, kind: Resource -> bool, service: string): Slot {
    if Named(rs, kind, service).Taken? then Fallback(rs, kind, service) else Empty
  }

  predicate IsDeployment(r: Resource) { r.Deployment? }

  predicate IsService(r: Resource) { r.Service? }

  /** Whether a resource of a kind finds its slot or the fallback slot free after `rs`. */
  predicate Slotted(rs: seq<Resource>, kind: Resource -> bool, service: string, r: Resource) {
    kind(r) && ((r.name == service && Named(rs, kind, service).Empty?) || Fallback(rs, kind, service).Empty?)
  }

  /** What a template holds beside its Deployments and Services of the first pick. */
  function Others(rs: seq<Resource>, service: string): seq<Resource> {
    if rs == [] then []
    else
      var front, r := rs[..|rs| - 1], rs[|rs| - 1];
      if Slotted(front, IsDeployment, service, r) || Slotted(front, IsService, service, r)
      then Others(front, service) else Others(front, service) + [r]
  }

  /** splitWorkloadResources. */
  method SplitWorkloadResources(rs: seq<Resource>, service: string)
    returns (found: bool, deployment: Slot, svc: Slot, others: seq<Resource>)
    ensures deployment == Chosen(rs, IsDeployment, service) && svc == Chosen(rs, IsService, service)
    ensures (found <==> deployment.Taken? && svc.Taken?) && others == Others(rs, service)
  {
    deployment, svc, others := Empty, Empty, [];
    var fallbackDeployment, fallbackService := Empty, Empty;
    for i := 0 to |rs|
      invariant deployment == Named(rs[..i], IsDeployment, service)
      invariant fallbackDeployment == Fallback(rs[..i], IsDeployment, service)
      invariant svc == Named(rs[..i], IsService, service)
      invariant fallbackService == Fallback(rs[..i], IsService, service)
      invariant others == Others(rs[..i], service)
    {
      var r := rs[i];
      assert rs[..i + 1][..i] == rs[..i];
      if r.Deployment? && r.name == service && deployment.Empty? {
        deployment := Taken(r);
      } else if r.Deployment? && fallbackDeployment.Empty? {
        fallbackDeployment := Taken(r);
      } else if r.Service? && r.name == service && svc.Empty? {
        svc := Taken(r);
      } else if r.Service? && fallbackService.Empty? {
        fallbackService := Taken(r);
      } else {
        others := others + [r];
      }
    }
    assert rs[..|rs|] == rs;
    if deployment.Empty? { deployment := fallbackDeployment; }
    if svc.Empty? { svc := fallbackService; }
    found := deployment.Taken? && svc.Taken?;
  }

  /** One resource more fills one of the two slots of its kind, if it is slotted, and neither if it is not. */
  lemma SlotStep(front: seq<Resource>, r: Resource, kind: Resource -> bool, service: string)
    ensures var rs := front + [r];
            var named, fallback := Named(front, kind, service), Fallback(front, kind, service);
            if !Slotted(front, kind, service, r) then
              Named(rs, kind, service) == named && Fallback(rs, kind, service) == fallback
            else if r.name == service && named.Empty? then
              Named(rs, kind, service) == Taken(r) && Fallback(rs, kind, service) == fallback
            else
              fallback.Empty? && Named(rs, kind, service) == named && Fallback(rs, kind, service) == Taken(r)
  {
    assert (front + [r])[..|front|] == front;
  }

  lemma {:induction false} SlotsHoldAll(rs: seq<Resource>, service: string)
    ensures multiset(rs) == Held(Others(rs, service), Named(rs, IsDeployment, service), Named(rs, IsService, service),
                                 Fallback(rs, IsDeployment, service), Fallback(rs, IsService, service))
  {
    if rs != [] {
      var front, r := rs[..|rs| - 1], rs[|rs| - 1];
      SlotsHoldAll(front, service);
      assert rs == front + [r];
      SlotStep(front, r, IsDeployment, service);
      SlotStep(front, r, IsService, service);
      HeldStep(Others(front, service), Others(rs, service),
               Named(front, IsDeployment, service), Named(rs, IsDeployment, service),
               Named(front, IsService, service), Named(rs, IsService, service),
               Fallback(front, IsDeployment, service), Fallback(rs, IsDeployment, service),
               Fallback(front, IsService, service), Fallback(rs, IsService, service), r);
    }
  }

  /** When just one of the list and the slots takes `r`, the whole holds `r` more. */
  lemma HeldStep(o: seq<Resource>, p: seq<Resource>, a: Slot, aa: Slot, b: Slot, bb: Slot,
                 c: Slot, cc: Slot, d: Slot, dd: Slot, r: Resource)
    requires
      || (p == o + [r] && aa == a && bb == b && cc == c && dd == d)
      || (p == o && a.Empty? && aa == Taken(r) && bb == b && cc == c && dd == d)
      || (p == o && aa == a && b.Empty? && bb == Taken(r) && cc == c && dd == d)
      || (p == o && aa == a && bb == b && c.Empty? && cc == Taken(r) && dd == d)
      || (p == o && aa == a && bb == b && cc == c && d.Empty? && dd == Taken(r))
    ensures Held(p, aa, bb, cc, dd) == Held(o, a, b, c, d) + multiset{r}
  {
    HeldMore(o, a, b, c, d, r);
    SlotsMore(o, a, b, c, d, r);
  }

  /** Splitting a template conserves it: every resource is chosen, passed on, or an unused fallback that is dropped. */
  lemma SplitConserves(rs: seq<Resource>, service: string)
    ensures multiset(rs) == Held(Others(rs, service), Chosen(rs, IsDeployment, service), Chosen(rs, IsService, service),
                                 Dropped(rs, IsDeployment, service), Dropped(rs, IsService, service))
  {
    SlotsHoldAll(rs, service);
    HeldSwap(Others(rs, service), Named(rs, IsDeployment, service), Named(rs, IsService, service),
             Fallback(rs, IsDeployment, service), Fallback(rs, IsService, service));
  }

  lemma HeldSwap(others: seq<Resource>, a: Slot, b: Slot, c: Slot, d: Slot)
    ensures Held(others, a, b, c, d) == Held(others, if a.Empty? then c else a, if b.Empty? then d else b,
                                             if a.Empty? then Empty else c, if b.Empty? then Empty else d)
  {
  }

  ghost predicate HasNamed(rs: seq<Resource>, kind: Resource -> bool, service: string) {
    exists i :: 0 <= i < |rs| && kind(rs[i]) && rs[i].name == service
  }

  lemma {:induction false} SlotsMean(rs: seq<Resource>, kind: Resource -> bool, service: string)
    ensures Named(rs, kind, service).Taken? <==> HasNamed(rs, kind, service)
    ensures Fallback(rs, kind, service).Taken? <==>
              exists j :: 0 <= j < |rs| && kind(rs[j]) && (rs[j].name != service || HasNamed(rs[..j], kind, service))
  {
    if rs != [] {
      var front, n := rs[..|rs| - 1], |rs| - 1;
      SlotsMean(front, kind, service);
      assert forall j :: 0 <= j < n ==> front[j] == rs[j] && front[..j] == rs[..j];
      if HasNamed(front, kind, service) {
        var i :| 0 <= i < |front| && kind(front[i]) && front[i].name == service;
        assert kind(rs[i]) && rs[i].name == service;
      }
    }
  }

  /** A resource is dropped exactly when one has the service's name and another of its kind stands beside it. */
  lemma DroppedIff(rs: seq<Resource>, kind: Resource -> bool, service: string)
    ensures Dropped(rs, kind, service).Taken? <==>
              exists i, j :: 0 <= i < |rs| && 0 <= j < |rs| && i != j && kind(rs[i]) && rs[i].name == service && kind(rs[j])
  {
    SlotsMean(rs, kind, service);
    if i, j :| 0 <= i < |rs| && 0 <= j < |rs| && i != j && kind(rs[i]) && rs[i].name == service && kind(rs[j]) {
      var k := if i < j then j else if rs[j].name == service then i else j;
      var h := if i < j then i else j;
      if rs[k].name == service { assert rs[..k][h] == rs[h]; }
      assert kind(rs[k]) && (rs[k].name != service || HasNamed(rs[..k], kind, service));
    }
    if Dropped(rs, kind, service).Taken? {
      var i :| 0 <= i < |rs| && kind(rs[i]) && rs[i].name == service;
      var j :| 0 <= j < |rs| && kind(rs[j]) && (rs[j].name != service || HasNamed(rs[..j], kind, service));
      if i == j {
        var h :| 0 <= h < j && kind(rs[..j][h]) && rs[..j][h].name == service;
        assert kind(rs[h]) && rs[h].name == service && h != j;
      }
    }
  }

  /** Resource `i` is the first of the list that passes the test. */
  predicate FirstAt(rs: seq<Resource>, test: Resource -> bool, i: nat) {
    i < |rs| && test(rs[i]) && forall j :: 0 <= j < i ==> !test(rs[j])
  }

  predicate NoneAt(rs: seq<Resource>, test: Resource -> bool) {
    forall j :: 0 <= j < |rs| ==> !test(rs[j])
  }

  function Called(kind: Resource -> bool, service: string): Resource -> bool {
    (r: Resource) => kind(r) && r.name == service
  }

  lemma {:induction false} NamedIsFirst(rs: seq<Resource>, kind: Resource -> bool, service: string)
    ensures Named(rs, kind, service).Empty? ==> NoneAt(rs, Called(kind, service))
    ensures Named(rs, kind, service).Taken? ==>
              exists i: nat :: FirstAt(rs, Called(kind, service), i) && Named(rs, kind, service) == Taken(rs[i])
  {
    if rs != [] {
      var front, n := rs[..|rs| - 1], |rs| - 1;
      NamedIsFirst(front, kind, service);
      assert forall j :: 0 <= j < n ==> front[j] == rs[j];
      if Named(front, kind, service).Taken? {
        var i: nat :| FirstAt(front, Called(kind, service), i) && Named(front, kind, service) == Taken(front[i]);
        assert FirstAt(rs, Called(kind, service), i);
      } else if Called(kind, service)(rs[n]) {
        assert FirstAt(rs, Called(kind, service), n);
      }
    }
  }

  lemma {:induction false} FallbackIsFirst(rs: seq<Resource>, kind: Resource -> bool, service: string)
    requires NoneAt(rs, Called(kind, service))
    ensures Fallback(rs, kind, service).Empty? ==> NoneAt(rs, kind)
    ensures Fallback(rs, kind, service).Taken? ==> exists i: nat :: FirstAt(rs, kind, i) && Fallback(rs, kind, service) == Taken(rs[i])
  {
    if rs != [] {
      var front, n := rs[..|rs| - 1], |rs| - 1;
      assert forall j :: 0 <= j < n ==> front[j] == rs[j];
      FallbackIsFirst(front, kind, service);
      assert kind(rs[n]) ==> !Called(kind, service)(rs[n]) && rs[n].name != service;
      if Fallback(front, kind, service).Taken? {
        var i: nat :| FirstAt(front, kind, i) && Fallback(front, kind, service) == Taken(front[i]);
        assert FirstAt(rs, kind, i);
      } else if kind(rs[n]) {
        assert FirstAt(rs, kind, n);
      }
    }
  }

  /**
   * What a strategy deploy is built from: the first resource of the kind with the service's name, the first of the
   * kind if none has that name, and nothing if there is none of the kind.
   */
  lemma ChosenIsFirst(rs: seq<Resource>, kind: Resource -> bool, service: string)
    ensures Chosen(rs, kind, service).Empty? <==> NoneAt(rs, kind)
    ensures Chosen(rs, kind, service).Taken? ==>
              exists i: nat :: i < |rs| && Chosen(rs, kind, service) == Taken(rs[i])
                          && if NoneAt(rs, Called(kind, service)) then FirstAt(rs, kind, i)
                             else FirstAt(rs, Called(kind, service), i)
  {
    NamedIsFirst(rs, kind, service);
    if Named(rs, kind, service).Empty? {
      FallbackIsFirst(rs, kind, service);
      if i: nat :| FirstAt(rs, kind, i) && Fallback(rs, kind, service) == Taken(rs[i]) { assert kind(rs[i]); }
    } else {
      var i: nat :| FirstAt(rs, Called(kind, service), i) && Named(rs, kind, service) == Taken(rs[i]);
      assert Called(kind, service)(rs[i]) && kind(rs[i]);
    }
  }

  // ---- staging canary and blue-green ----

  /** No canonical Service is among them, and Deployments are labelled with their own name. */
  predicate AllPlain(rs: seq<Resource>, service: string) {
    forall i :: 0 <= i < |rs| ==> !IsCanonical(rs[i], service) && (rs[i].Deployment? ==> rs[i].app == rs[i].name && rs[i].name != "")
  }

  /** Applies resources that are no canonical Service one by one. */
  method ApplyAll(ns: Namespace, rs: seq<Resource>) returns (ok: bool)
    requires ns.Valid() && Tied(ns.st)
    requires AllPlain(rs, ns.service)
    modifies ns`st, ns`calls, ns`trace, ns`steady, ns`calm, ns`gated
    ensures ns.Valid() && Tied(ns.st) && ns.steady == old(ns.steady)
    ensures Keeps(old(ns.st), ns.st, ns.service)
    ensures ok <==> AllDone(ns.faults, old(ns.calls), old(ns.calls) + |rs|)
    ensures ok ==> ns.st == After(old(ns.st), rs) && ns.calls == old(ns.calls) + |rs|
    ensures ns.gated == old(ns.gated)
    ensures Aside(old(ns.st), ns.service, rs) ==> ns.calm == old(ns.calm) && SamePods(old(ns.st), ns.st, ns.service)
  {
    ok := true;
    for i := 0 to |rs|
      invariant ns.Valid() && Tied(ns.st) && ns.steady == old(ns.steady)
      invariant ok && ns.st == After(old(ns.st), rs[..i]) && ns.calls == old(ns.calls) + i
      invariant AllDone(ns.faults, old(ns.calls), old(ns.calls) + i)
      invariant Keeps(old(ns.st), ns.st, ns.service)
      invariant ns.gated == old(ns.gated)
      invariant Aside(old(ns.st), ns.service, rs) ==> Aside(ns.st, ns.service, rs)
      invariant Aside(old(ns.st), ns.service, rs) ==> ns.calm == old(ns.calm) && SamePods(old(ns.st), ns.st, ns.service)
    {
      assert rs[..i + 1][..i] == rs[..i];
      AsideStep(ns.st, ns.service, rs, i);
      ok := ns.Apply(rs[i]);
      if !ok { return; }
    }
    assert rs[..|rs|] == rs;
  }

  /**
   * A canary deploy drops traffic exactly when the stable Deployment is missing while the canonical Service is on
   * a workload that exists, and the read of its selector fails: the deploy is then taken for a first one, and the
   * Service is pointed at the stable Deployment before that is created. Call `c` asks for the stable Deployment, in
   * the state `met`.
   */
  ghost predicate CanaryDrops(met: State, service: string, faults: nat -> Outcome, c: nat) {
    && faults(c).Done? && service !in met.deployments && Selects(met, service)
    && !faults(c + 1).Done? && !faults(c + 2).Refused?
  }

  /** The same, with the resources `others` to be applied first. */
  ghost predicate CanaryStageDrops(st: State, service: string, others: seq<Resource>, f: nat -> Outcome, c: nat) {
    AllDone(f, c, c + |others|) && CanaryDrops(After(st, others), service, f, c + |others|)
  }

  /** The stable side of a canary deploy; `seen` says that the selector could be read. */
  function StableStaged(st: State, service: string, revision: string, seen: bool): State {
    if service in st.deployments || (seen && Kept(st, service, Service(service, service)).selector != service) then st
    else Applied(Applied(st, Service(service, service)), Deployment(service, service, revision))
  }

  /** The state after a canary deploy: the stable side, the canary, and no autoscaler. */
  function CanaryStaged(st: State, service: string, revision: string, seen: bool): State {
    var next := SlotStaged(StableStaged(st, service, revision, seen), CanaryOf(service), revision);
    next.(autoscalers := next.autoscalers - {service})
  }

  /** A Deployment and a Service of one name. */
  function SlotStaged(st: State, name: string, revision: string): State {
    Applied(Applied(st, Deployment(name, name, revision)), Service(name, name))
  }

  /**
   * The state after a blue-green deploy: traffic goes to the active slot, or stays where it is if that is new. A new
   * active slot runs what the stable Deployment runs, if that could be read.
   */
  function BlueGreenStaged(st: State, service: string, primary: string, revision: string, seen: bool): State {
    var active, candidate := SlotName(service, primary), SlotName(service, Opposite(primary));
    var base := if active in st.deployments then st else SlotStaged(st, active, Source(st, service, revision, seen));
    Applied(SlotStaged(base, candidate, revision),
            Service(service, if active !in st.deployments && service in st.deployments then service else active))
  }

  /** applyCanaryWorkloadResources, after the template is split. */
  method StageCanary(ns: Namespace, others: seq<Resource>, revision: string)
    returns (ok: bool, blind: bool, ghost drops: bool)
    requires ns.Valid() && Tied(ns.st) && ns.service != ""
    requires AllPlain(others, ns.service)
    modifies ns`st, ns`calls, ns`trace, ns`steady, ns`calm, ns`gated
    ensures ns.Valid() && Tied(ns.st)
    ensures Keeps(old(ns.st), ns.st, ns.service)
    ensures drops <==> CanaryStageDrops(old(ns.st), ns.service, others, ns.faults, old(ns.calls))
    ensures (ns.steady <==> old(ns.steady) && !drops) && (!drops ==> ns.gated == old(ns.gated))
    ensures ok ==> ns.st == CanaryStaged(After(old(ns.st), others), ns.service, revision, !blind)
    ensures Aside(old(ns.st), ns.service, others) && !OnCanary(old(ns.st), ns.service) ==>
              (ns.calm <==> old(ns.calm) && !drops)
    ensures ok && ns.service !in After(old(ns.st), others).deployments ==>
              (blind <==> !ns.faults(old(ns.calls) + |others| + 1).Done?)
    ensures AllWell(ns.faults) ==> ok
  {
    blind, drops := false, CanaryStageDrops(ns.st, ns.service, others, ns.faults, ns.calls);
    ok := ApplyAll(ns, others);
    if !ok { return; }
    AfterKeeps(old(ns.st), others, ns.service, ns.service);
    ok, blind := StageSides(ns, revision);
  }

  /** Traffic goes to the canary. */
  predicate OnCanary(st: State, service: string) {
    service in st.services && st.services[service] == CanaryOf(service)
  }

  /** The stable side and the canary, once all else of the template is applied and the stable Deployment was asked for. */
  method StageSides(ns: Namespace, revision: string) returns (ok: bool, blind: bool)
    requires ns.Valid() && Tied(ns.st) && ns.service != ""
    modifies ns`st, ns`calls, ns`trace, ns`steady, ns`calm, ns`gated
    ensures ns.Valid() && Tied(ns.st)
    ensures Keeps(old(ns.st), ns.st, ns.service)
    ensures ns.steady <==> (old(ns.steady) && !CanaryDrops(old(ns.st), ns.service, ns.faults, old(ns.calls)))
    ensures ok ==> ns.st == CanaryStaged(old(ns.st), ns.service, revision, !blind)
    ensures !CanaryDrops(old(ns.st), ns.service, ns.faults, old(ns.calls)) ==> ns.gated == old(ns.gated)
    ensures !OnCanary(old(ns.st), ns.service) ==>
              (ns.calm <==> (old(ns.calm) && !CanaryDrops(old(ns.st), ns.service, ns.faults, old(ns.calls))))
    ensures ok && ns.service !in old(ns.st).deployments ==> (blind <==> !ns.faults(old(ns.calls) + 1).Done?)
    ensures ok || ns.st != old(ns.st) ==> ns.faults(old(ns.calls)).Done?
    ensures AllWell(ns.faults) ==> ok
  {
    var service := ns.service;
    SideNamesDiffer(service);
    blind := false;
    ok := ns.Read();
    if !ok { return; }
    if service !in ns.st.deployments {
      ok, blind := StageFirstCanary(ns, revision);
      if !ok { return; }
    }
    ok := StageSlot(ns, CanaryOf(service), revision);
    if !ok { return; }
    ok := ns.Autoscale(false);
  }

  /** The stable side of a canary deploy that finds no stable Deployment. */
  method StageFirstCanary(ns: Namespace, revision: string) returns (ok: bool, blind: bool)
    requires ns.Valid() && Tied(ns.st) && ns.service != "" && ns.service !in ns.st.deployments
    modifies ns`st, ns`calls, ns`trace, ns`steady, ns`calm, ns`gated
    ensures ns.Valid() && Tied(ns.st)
    ensures Keeps(old(ns.st), ns.st, ns.service)
    ensures blind <==> !ns.faults(old(ns.calls)).Done?
    ensures ns.steady <==>
      (old(ns.steady) && !(Selects(old(ns.st), ns.service) && blind && !ns.faults(old(ns.calls) + 1).Refused?))
    ensures ok ==> ns.st == StableStaged(old(ns.st), ns.service, revision, !blind)
    ensures ns.calm <==>
      (old(ns.calm) && !(Selects(old(ns.st), ns.service) && blind && !ns.faults(old(ns.calls) + 1).Refused?))
    ensures !(Selects(old(ns.st), ns.service) && blind && !ns.faults(old(ns.calls) + 1).Refused?) ==>
              ns.gated == old(ns.gated)
    ensures OnCanary(ns.st, ns.service) ==> OnCanary(old(ns.st), ns.service)
    ensures AllWell(ns.faults) ==> ok
  {
    var service := ns.service;
    var seen := ns.Read();
    blind := !seen;
    var target := if seen && service in ns.st.services then ns.st.services[service] else "";
    ok := true;
    if target == "" || target == service {
      ServingByName(ns.st, service);
      ServingByName(Applied(ns.st, Service(service, service)), service);
      ok := ns.Write(Applied(ns.st, Service(service, service)));
      if !ok { return; }
      ok := ns.Apply(Deployment(service, service, revision));
    }
  }

  /** The Deployment and the Service of one slot. */
  method StageSlot(ns: Namespace, name: string, revision: string) returns (ok: bool)
    requires ns.Valid() && Tied(ns.st) && name != "" && name != ns.service
    modifies ns`st, ns`calls, ns`trace, ns`steady, ns`calm, ns`gated
    ensures ns.Valid() && Tied(ns.st) && ns.steady == old(ns.steady)
    ensures Keeps(old(ns.st), ns.st, ns.service)
    ensures ok ==> ns.st == SlotStaged(old(ns.st), name, revision)
    ensures ns.gated == old(ns.gated)
    ensures !(Selects(old(ns.st), ns.service) && old(ns.st).services[ns.service] == name) ==>
              ns.calm == old(ns.calm) && SamePods(old(ns.st), ns.st, ns.service)
    ensures AllWell(ns.faults) ==> ok
  {
    ok := ns.Apply(Deployment(name, name, revision));
    if !ok { return; }
    ok := ns.Apply(Service(name, name));
  }

  /** What a new active slot runs: what the stable Deployment runs, if there is one and it could be read. */
  function Source(st: State, service: string, revision: string, seen: bool): string {
    if seen && service in st.deployments then st.deployments[service].revision else revision
  }

  /**
   * A new active slot. The sources are the running stable Deployment and Service when they can be read, and the
   * template's when not.
   */
  method CreateSlot(ns: Namespace, name: string, revision: string) returns (ok: bool, blind: bool)
    requires ns.Valid() && Tied(ns.st) && name != "" && name != ns.service && name !in ns.st.deployments
    modifies ns`st, ns`calls, ns`trace, ns`steady, ns`calm, ns`gated
    ensures ns.Valid() && Tied(ns.st) && ns.steady == old(ns.steady)
    ensures Keeps(old(ns.st), ns.st, ns.service)
    ensures blind <==> !ns.faults(old(ns.calls)).Done?
    ensures ok ==> ns.st == SlotStaged(old(ns.st), name, Source(old(ns.st), ns.service, revision, !blind))
    ensures ns.gated == old(ns.gated) && ns.calm == old(ns.calm) && SamePods(old(ns.st), ns.st, ns.service)
    ensures AllWell(ns.faults) ==> ok
  {
    var seen := ns.Read();
    blind := !seen;
    var source := Source(ns.st, ns.service, revision, seen);
    var _ := ns.Read();
    ok := StageSlot(ns, name, source);
  }

  /** applyBlueGreenWorkloadResources, after the template is split: no fault schedule drops traffic. */
  method StageBlueGreen(ns: Namespace, others: seq<Resource>, primary: string, revision: string)
    returns (ok: bool, blind: bool)
    requires ns.Valid() && Tied(ns.st) && ns.service != "" && primary in ["blue", "green"]
    requires AllPlain(others, ns.service)
    modifies ns`st, ns`calls, ns`trace, ns`steady, ns`calm, ns`gated
    ensures ns.Valid() && Tied(ns.st) && ns.steady == old(ns.steady)
    ensures Keeps(old(ns.st), ns.st, ns.service)
    ensures ok ==> ns.st == BlueGreenStaged(After(old(ns.st), others), ns.service, primary, revision, !blind)
    ensures Placed(old(ns.st), ns.service, primary) && Aside(old(ns.st), ns.service, others)
            && !Deploys(others, SlotName(ns.service, primary)) ==>
              ns.calm == old(ns.calm) && ns.gated == old(ns.gated)
    ensures ok && SlotName(ns.service, primary) !in After(old(ns.st), others).deployments ==>
              (blind <==> !ns.faults(old(ns.calls) + |others| + 2).Done?)
    ensures AllWell(ns.faults) ==> ok
  {
    blind := false;
    ok := ApplyAll(ns, others);
    if !ok { return; }
    PlacedAfter(old(ns.st), others, ns.service, primary);
    ok, blind := StageSlots(ns, primary, revision);
  }

  /** What a template passes on leaves traffic placed, if it leaves that and the active slot alone. */
  lemma PlacedAfter(st: State, others: seq<Resource>, service: string, primary: string)
    requires forall i :: 0 <= i < |others| ==> !IsCanonical(others[i], service)
    ensures Placed(st, service, primary) && Aside(st, service, others) && !Deploys(others, SlotName(service, primary)) ==>
              Placed(After(st, others), service, primary)
  {
    AfterDeploys(st, others, SlotName(service, primary));
    if Placed(st, service, primary) { AfterKeeps(st, others, service, st.services[service]); }
  }

  lemma {:induction false} AfterDeploys(st: State, rs: seq<Resource>, name: string)
    ensures name in After(st, rs).deployments <==> name in st.deployments || Deploys(rs, name)
  {
    if rs != [] {
      var front, r := rs[..|rs| - 1], rs[|rs| - 1];
      AfterDeploys(st, front, name);
      OneMore(rs, name);
    }
  }

  /** Some Service of `rs` has this name. */
  predicate Offers(rs: seq<Resource>, name: string) {
    exists i :: 0 <= i < |rs| && rs[i].Service? && rs[i].name == name
  }

  /** Outside `names`, and what `rs` applies, nothing is new, gone or changed. */
  ghost predicate RestKept(a: State, b: State, rs: seq<Resource>, names: set<string>) {
    && b.virtualServices == a.virtualServices && b.slot == a.slot
    && (forall w :: w !in names && !Deploys(rs, w) ==>
          (w in b.deployments <==> w in a.deployments) && (w in a.deployments ==> b.deployments[w] == a.deployments[w]))
    && (forall w :: w !in names && !Offers(rs, w) ==>
          (w in b.services <==> w in a.services) && (w in a.services ==> b.services[w] == a.services[w]))
  }

  lemma {:induction false} AfterRestKept(st: State, rs: seq<Resource>)
    ensures RestKept(st, After(st, rs), rs, {}) && After(st, rs).autoscalers == st.autoscalers
  {
    if rs != [] {
      var front, r := rs[..|rs| - 1], rs[|rs| - 1];
      AfterRestKept(st, front);
      forall w ensures Deploys(rs, w) <==> Deploys(front, w) || (r.Deployment? && r.name == w) { OneMore(rs, w); }
      forall w ensures Offers(rs, w) <==> Offers(front, w) || (r.Service? && r.name == w) { OneMore(rs, w); }
    }
  }

  lemma OneMore(rs: seq<Resource>, name: string)
    requires rs != []
    ensures var front, r := rs[..|rs| - 1], rs[|rs| - 1];
            && (Deploys(rs, name) <==> Deploys(front, name) || (r.Deployment? && r.name == name))
            && (Offers(rs, name) <==> Offers(front, name) || (r.Service? && r.name == name))
  {
    var front := rs[..|rs| - 1];
    assert forall i :: 0 <= i < |front| ==> rs[i] == front[i];
  }

  /** What comes after moves nothing else either. */
  lemma RestKeptOn(a: State, b: State, c: State, rs: seq<Resource>, names: set<string>)
    requires RestKept(a, b, rs, names) && RestKept(b, c, [], names)
    ensures RestKept(a, c, rs, names)
  {
    assert forall w :: !Deploys([], w) && !Offers([], w);
  }

  lemma {:induction false} AfterOffers(st: State, rs: seq<Resource>, name: string)
    ensures name in After(st, rs).services <==> name in st.services || Offers(rs, name)
  {
    if rs != [] {
      AfterOffers(st, rs[..|rs| - 1], name);
      OneMore(rs, name);
    }
  }

  lemma SlotRestKept(a: State, b: State, rs: seq<Resource>, names: set<string>, name: string, revision: string)
    requires RestKept(a, b, rs, names) && name in names
    ensures RestKept(a, SlotStaged(b, name, revision), rs, names)
  {
  }

  lemma ServiceRestKept(a: State, b: State, rs: seq<Resource>, names: set<string>, name: string, target: string)
    requires RestKept(a, b, rs, names) && name in names
    ensures RestKept(a, Applied(b, Service(name, target)), rs, names)
  {
  }

  lemma {:induction false} AfterKeeps(st: State, rs: seq<Resource>, service: string, name: string)
    requires forall i :: 0 <= i < |rs| ==> !IsCanonical(rs[i], service)
    ensures var b := After(st, rs);
            && (name in st.deployments && !Deploys(rs, name) ==> name in b.deployments && b.deployments[name] == st.deployments[name])
            && (service in b.services <==> service in st.services)
            && (service in st.services ==> b.services[service] == st.services[service])
  {
    if rs != [] {
      var front, r := rs[..|rs| - 1], rs[|rs| - 1];
      AfterKeeps(st, front, service, name);
      OneMore(rs, name);
    }
  }

  /**
   * Traffic has pods to go to, and is where a blue-green deploy leaves it: on the active slot, or on the service's own
   * Deployment while that slot is still to be created.
   */
  predicate Placed(st: State, service: string, primary: string) {
    var active := SlotName(service, primary);
    Selects(st, service)
    && (st.services[service] == active || (st.services[service] == service && active !in st.deployments))
  }

  /** Both slots and the canonical Service, once all else of the template is applied and it is known what stands. */
  method StageSlots(ns: Namespace, primary: string, revision: string) returns (ok: bool, blind: bool)
    requires ns.Valid() && Tied(ns.st) && ns.service != "" && primary in ["blue", "green"]
    modifies ns`st, ns`calls, ns`trace, ns`steady, ns`calm, ns`gated
    ensures ns.Valid() && Tied(ns.st) && ns.steady == old(ns.steady)
    ensures Keeps(old(ns.st), ns.st, ns.service)
    ensures ok ==> ns.st == BlueGreenStaged(old(ns.st), ns.service, primary, revision, !blind)
    ensures Placed(old(ns.st), ns.service, primary) ==> ns.calm == old(ns.calm) && ns.gated == old(ns.gated)
    ensures ok && SlotName(ns.service, primary) !in old(ns.st).deployments ==>
              (blind <==> !ns.faults(old(ns.calls) + 2).Done?)
    ensures ok || ns.st != old(ns.st) ==> AllDone(ns.faults, old(ns.calls), old(ns.calls) + 2)
    ensures AllWell(ns.faults) ==> ok
  {
    blind := false;
    var service := ns.service;
    var active, candidate := SlotName(service, primary), SlotName(service, Opposite(primary));
    SideNamesDiffer(service);
    ok := ns.Read();
    if !ok { return; }
    var activeExists := active in ns.st.deployments;
    ok := ns.Read();
    if !ok { return; }
    var legacyStableExists := service in ns.st.deployments;
    if !activeExists {
      ok, blind := CreateSlot(ns, active, revision);
      if !ok { return; }
    }
    ok := OfferSlot(ns, active, candidate, revision, if !activeExists && legacyStableExists then service else active);
  }

  /** The candidate slot, and the canonical Service on its target. */
  method OfferSlot(ns: Namespace, ghost active: string, candidate: string, revision: string, target: string)
    returns (ok: bool)
    requires ns.Valid() && Tied(ns.st) && candidate != "" && candidate != ns.service && candidate != active
    requires target in ns.st.deployments && (target == active || target == ns.service)
    modifies ns`st, ns`calls, ns`trace, ns`steady, ns`calm, ns`gated
    ensures ns.Valid() && Tied(ns.st) && ns.steady == old(ns.steady)
    ensures Keeps(old(ns.st), ns.st, ns.service)
    ensures ok ==> ns.st == Applied(SlotStaged(old(ns.st), candidate, revision), Service(ns.service, target))
    ensures ns.service in old(ns.st).services && old(ns.st).services[ns.service] == target ==>
              ns.calm == old(ns.calm) && ns.gated == old(ns.gated)
    ensures AllWell(ns.faults) ==> ok
  {
    ok := StageSlot(ns, candidate, revision);
    if !ok { return; }
    ok := ns.Apply(Service(ns.service, target));
  }
}
