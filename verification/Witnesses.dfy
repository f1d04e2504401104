/** Inputs the worker can meet, at which what one would expect of it fails. Each is carried through to the failure. */
module Witnesses {
  import opened Text
  import opened Manifests
  import opened WeightMerge
  import opened CanaryShift
  import opened RouteTables
  import opened CanaryPromotion
  import opened Cluster
  import opened Release
  import opened BlueGreen
  import opened Rollout
  import opened RulePaths
  import opened RulePolicies
  import opened RuleReconcile
  import opened RuleNames
  import opened AutoDeploy
  import KubeNames
  import RuleGuard
  import RulePublish
  import RuleRoutes

  // ---- traffic ----

  /** A rolling deploy after a blue-green life, when the one read of the canonical Service fails. */
  lemma RollingConditionMet(service: string, blue: string, st: State, f: nat -> Outcome, revision: string)
    requires blue in st.deployments && service !in st.deployments && st.services == map[service := blue]
    requires forall k :: f(k) == if k == 0 then Refused else Done
    ensures RollingDrops(st, service, [Service(service, service), Deployment(service, service, revision)], f, 0)
  {
    var template := [Service(service, service), Deployment(service, service, revision)];
    assert IsCanonical(template[0], service);
    assert CanonicalAt(template, service) == 0 && template[..0] == [];
  }

  /** A first canary deploy after a blue-green life, when the one read of the canonical Service fails. */
  lemma CanaryConditionMet(service: string, blue: string, st: State, f: nat -> Outcome, revision: string)
    requires blue in st.deployments && service !in st.deployments && st.services == map[service := blue]
    requires forall k :: f(k) == if k == 1 then Refused else Done
    ensures CanaryDeployDrops(st, service, [Deployment(service, service, revision), Service(service, service)], f, 0)
  {
    NothingElse(service, Deployment(service, service, revision), Service(service, service));
    NothingStaged(st);
  }

  /** A template of one Deployment and one Service. */
  lemma NothingElse(service: string, d: Resource, s: Resource)
    requires d.Deployment? && d.name == service && s == Service(service, service)
    ensures Splittable([d, s], service) && Others([d, s], service) == []
  {
    assert [] + [d] == [d] && [d] + [s] == [d, s];
    assert [d][..0] == [] && [d, s][..1] == [d];
    SlotStep([], d, IsDeployment, service);
    SlotStep([], d, IsService, service);
    SlotStep([d], s, IsDeployment, service);
    SlotStep([d], s, IsService, service);
    assert Others([d], service) == [] && Others([d, s], service) == Others([d], service);
  }

  lemma NothingStaged(st: State)
    ensures After(st, []) == st
  {
  }

  /** Only `standing` stands, and the canonical Service selects `target`. */
  function Scene(service: string, standing: string, target: string, slot: string): State {
    State(map[standing := Pods(standing, "v1")], map[service := target], {}, [], slot)
  }

  /**
   * A service that lives on its blue slot is deployed by the rolling strategy. One read fails, the worker goes on,
   * and the canonical Service selects a Deployment that is not there yet.
   */
  method RollingLosesTraffic(sc: Scope) returns (ghost trace: seq<State>)
    requires sc.service != ""
    ensures trace != [] && Serving(trace[0], sc.service) && !Steady(trace, sc.service)
  {
    var service, blue := sc.service, SlotName(sc.service, "blue");
    SideNamesDiffer(service);
    var f := (k: nat) => if k == 0 then Refused else Done;
    var ns := new Namespace(service, Scene(service, blue, blue, "blue"), f);
    ServingByName(ns.st, service);
    RollingConditionMet(service, blue, ns.st, f, "v2");
    var _ := DeployRolling(ns, sc, [Service(service, service), Deployment(service, service, "v2")], false);
    trace := ns.trace;
  }

  /** The same service is deployed by the canary strategy, which takes the failed read for a first deploy. */
  method CanaryLosesTraffic(service: string) returns (ghost trace: seq<State>)
    requires service != ""
    ensures trace != [] && Serving(trace[0], service) && !Steady(trace, service)
  {
    var blue := SlotName(service, "blue");
    SideNamesDiffer(service);
    var f := (k: nat) => if k == 1 then Refused else Done;
    var ns := new Namespace(service, Scene(service, blue, blue, "blue"), f);
    ServingByName(ns.st, service);
    CanaryConditionMet(service, blue, ns.st, f, "v2");
    var _ := DeployCanary(ns, [Deployment(service, service, "v2"), Service(service, service)]);
    trace := ns.trace;
  }

  /**
   * A service that runs without slots is deployed by the blue-green strategy twice, with no switch in between. No call
   * fails. The first deploy leaves traffic where it is, and the second moves it to the blue slot, which no gate has
   * named.
   */
  method RestagingMoves(sc: Scope) returns (once: State, twice: State, ghost gates: seq<seq<string>>)
    requires sc.service != ""
    ensures var service, blue := sc.service, sc.service + "-blue";
            && service in once.services && once.services[service] == service
            && service in twice.services && twice.services[service] == blue && !Passed(gates, blue)
  {
    var service, template := sc.service, [Deployment(sc.service, sc.service, "v2"), Service(sc.service, sc.service)];
    var f := (k: nat) => Done;
    var ns := new Namespace(service, Scene(service, service, service, "blue"), f);
    once := RestagedOnce(ns, template);
    twice := RestagedOnce(ns, template);
    gates := ns.gates;
    NeverGated(gates, SlotName(service, "blue"), SlotName(service, "green"));
  }

  method RestagedOnce(ns: Namespace, template: seq<Resource>) returns (st: State)
    requires ns.Valid() && Tied(ns.st) && ns.service != "" && AllWell(ns.faults)
    requires template == [Deployment(ns.service, ns.service, "v2"), Service(ns.service, ns.service)]
    requires ns.service in ns.st.deployments
    modifies ns
    ensures ns.Valid() && Tied(ns.st) && ns.st == st && ns.service in st.deployments && ns.service in st.services
    ensures SlotName(ns.service, "blue") in st.deployments
    ensures st.services[ns.service] ==
              if SlotName(ns.service, "blue") in old(ns.st).deployments then SlotName(ns.service, "blue") else ns.service
    ensures ns.gates == old(ns.gates) + [[SlotName(ns.service, "green")]]
  {
    ResolvesBlue("blue");
    NothingElse(ns.service, template[0], template[1]);
    var _ := DeployBlueGreen(ns, template, "blue");
    st := ns.st;
  }

  lemma NeverGated(gates: seq<seq<string>>, blue: string, green: string)
    requires gates == [[green], [green]] && blue != green
    ensures !Passed(gates, blue)
  {
  }

  /** A switch away from a slot that has no Deployment, when the API refuses the slot: traffic is put back on it. */
  method SwitchLosesTraffic(service: string) returns (ghost trace: seq<State>, verdict: Verdict)
    ensures trace != [] && On(trace[0], service, "blue") && !Steady(trace, service) && verdict.RolledBack?
  {
    var blue, green := SlotName(service, "blue"), SlotName(service, "green");
    SideNamesDiffer(service);
    var f := (k: nat) => if k == 4 then Refused else Done;
    var ns := new Namespace(service, Scene(service, green, blue, "blue"), f);
    ResolvesBlue("blue");
    verdict := PromoteBlueGreen(ns, "blue", false);
    trace := ns.trace;
  }

  /** With both slots standing, one lost answer to the cutover write leaves selector and slot apart. */
  method SwitchSplits(service: string) returns (before: State, after: State)
    ensures On(before, service, "blue") && !Agree(after, service)
  {
    var blue, green := SlotName(service, "blue"), SlotName(service, "green");
    SideNamesDiffer(service);
    before := State(map[blue := Pods(blue, "v1"), green := Pods(green, "v2")], map[service := blue], {}, [], "blue");
    var ns := new Namespace(service, before, k => if k == 3 then Lost else Done);
    ResolvesBlue("blue");
    var _ := PromoteBlueGreen(ns, "blue", false);
    after := ns.st;
  }

  lemma ResolvesBlue(primary: string)
    requires primary == "blue"
    ensures ActiveSlot(primary) == primary
  {
    TrimSpaceTrims(primary);
    assert |primary| != |"green"|;
  }

  // ---- trees and templates ----

  /** Two destinations for one host, with a weight of one each. */
  function Repeated(host: string): seq<Value> {
    var e := Obj(map["destination" := Obj(map["host" := Str(host)]), "weight" := Whole(1)]);
    [e, e]
  }

  function OneRoute(entries: seq<Value>): Fields {
    map["spec" := Obj(map["http" := Arr([Obj(map["route" := Arr(entries)])])])]
  }

  lemma RepeatedDrifts(sc: Scope) returns (e: Value)
    requires Trimmed(sc.service)
    ensures Repeated(StableHost(sc)) == [e, e]
    ensures !ListNamesCanary(sc, [e, e]) && !RepeatsWeighNothing(Canary(sc), [e, e])
  {
    e := RepeatedEntry(sc);
    RepeatsCount(Canary(sc), [e, e], StableHost(sc));
    TwiceNoCanary(sc, e);
  }

  lemma TwiceNoCanary(sc: Scope, e: Value)
    requires !NamesCanary(sc, e)
    ensures !ListNamesCanary(sc, [e, e])
  {
  }

  lemma RepeatedEntry(sc: Scope) returns (e: Value)
    requires Trimmed(sc.service)
    ensures Repeated(StableHost(sc)) == [e, e] && !NamesCanary(sc, e) && Target(sc, e) == StableHost(sc) != ""
    ensures Weight(e) == 1 && !Skipped(e)
  {
    e := Repeated(StableHost(sc))[0];
    StableEntry(sc, e);
    WholeWeight(1);
    StableHostTrimmed(sc);
  }

  lemma RepeatsCount(rd: Reading, es: seq<Value>, h: string)
    requires |es| == 2 && es[0] == es[1] && rd.target(es[0]) == h != "" && Weight(es[0]) == 1 && !Skipped(es[0])
    ensures !RepeatsWeighNothing(rd, es)
  {
    assert SumTo(rd, es, 0, h) == 0 && SumTo(rd, es, 1, h) == 1 && SumTo(rd, es, 2, h) == 2;
    assert Survives(rd, es, 0);
  }

  /** A tree that a second promotion changes, though neither promotion reports a change. */
  lemma TreeDrifts(sc: Scope, root: Fields)
    requires Trimmed(sc.service) && root == OneRoute(Repeated(StableHost(sc)))
    ensures var once := EachRoute(Promotion(sc), root); EachRoute(Promotion(sc), once) != once
  {
    var e := RepeatedDrifts(sc);
    var spec := Spec(root);
    assert "http" in KEYS && IsTable(spec, "http") && Drifts(sc, spec["http"].items[0]);
    PromotionTwice(sc, root);
  }

  /** A template with a second Deployment, say a worker's: it is neither chosen nor applied. */
  lemma WorkerIsDropped(service: string, worker: string, revision: string, rs: seq<Resource>)
    requires worker != service
    requires rs == [Deployment(service, service, revision), Deployment(worker, worker, revision), Service(service, service)]
    ensures Chosen(rs, IsDeployment, service) == Taken(rs[0]) && Chosen(rs, IsService, service) == Taken(rs[2])
    ensures Others(rs, service) == []
  {
    var d, w, s := rs[0], rs[1], rs[2];
    assert [] + [d] == [d] && [d] + [w] == [d, w] && [d, w] + [s] == rs;
    assert [d][..0] == [] && [d, w][..1] == [d] && rs[..2] == [d, w];
    SlotStep([], d, IsDeployment, service);
    SlotStep([], d, IsService, service);
    SlotStep([d], w, IsDeployment, service);
    SlotStep([d], w, IsService, service);
    SlotStep([d, w], s, IsDeployment, service);
    SlotStep([d, w], s, IsService, service);
    assert Others([d], service) == [] && Others([d, w], service) == Others([d], service);
    assert Others(rs, service) == Others([d, w], service);
  }

  // ---- rules ----

  /** A rule for one path whose one method is a blank. */
  function BlankRule(path: string, blank: string): RuleRoutes.Rule {
    RuleRoutes.Rule([path], [blank], "allow", "public", "", [], [])
  }

  /** It forwards every request, the ones to other paths too. */
  lemma BlankMethodForwardsAll(rule: RuleRoutes.Rule, req: RuleRoutes.Request, path: string, blank: string)
    requires path == "/a" && blank == " " && rule == BlankRule(path, blank) && req.path == "/b"
    ensures RuleRoutes.Expected(rule, req) == RuleRoutes.Forwarded && !Meant(rule, req)
  {
    PathIsMissed(path, req.path);
    BlankIsNoMethod(blank);
    PlainWords(rule.action, rule.authMode);
  }

  lemma PathIsMissed(path: string, other: string)
    requires path == "/a" && other == "/b"
    ensures !RoutePath([path], other)
  {
    TrimSpaceTrims(path);
    TrailingIs(path, IsStar, 2);
    assert Normal(path) == path && path[1] != other[1];
  }

  lemma BlankIsNoMethod(blank: string)
    requires blank == " "
    ensures RuleRoutes.MethodName(blank) == ""
  {
    LeadingIs(blank, IsSpace, 1);
  }

  lemma PlainWords(allow: string, public: string)
    requires allow == "allow" && public == "public"
    ensures ToLower(TrimSpace(allow)) != "deny" && ToLower(TrimSpace(public)) != "apikey"
  {
    TrimSpaceTrims(allow);
    TrimSpaceTrims(public);
    assert public[1] == 'u';
  }

  /** An allow rule loses its last gateway after a life as a deny rule: the deny policy stays. */
  lemma DenyPolicyStays(service: string, ruleName: string, ruleId: string, app: string, gateway: string, doc: Fields,
                        c: Compiled)
    requires KubeNames.IsWord(service) && KubeNames.IsWord(ruleName) && KubeNames.IsWord(ruleId) && app != gateway
    requires |service| + |ruleName| <= 57 && |service| + |ruleId| <= 49 && !c.deny && !c.published
    ensures var n := NamesFor(service, ruleName, ruleId, app, gateway);
            var after := Written(map[DenyKey(n) := doc], DeployWrites(n, c));
            Look(after, DenyKey(n)) == Doc(doc) && !Settled(after, n, c)
  {
    var n := NamesFor(service, ruleName, ruleId, app, gateway);
    ShortWordsApart(service, ruleName, ruleId);
    UntouchedDeny(n, doc, c);
  }

  lemma UntouchedDeny(n: Names, doc: Fields, c: Compiled)
    requires !c.deny && !c.published && n.app != n.gateway && n.deny != n.requireAuth
    ensures var after := Written(map[DenyKey(n) := doc], DeployWrites(n, c));
            Look(after, DenyKey(n)) == Doc(doc) && !Settled(after, n, c)
  {
    var base, ws := map[DenyKey(n) := doc], DeployWrites(n, c);
    assert !DenyTouched(n, c);
    assert !Touches(ws, DenyKey(n)) by { TouchesIff(n, c, DenyKey(n)); }
    assert Look(Written(base, ws), DenyKey(n)) == Doc(doc) by { LookWritten(base, ws, DenyKey(n)); }
    assert !Settled(Written(base, ws), n, c) by { SettlesIff(base, n, c); }
  }

  /**
   * Names that meet however short they are: the deny policy of a rule called "x-require-auth" with the id "deny-x"
   * has the name of its require-auth policy, and a published deploy of a rule with a JWT part leaves one of the two
   * unsettled.
   */
  lemma PoliciesCollide(service: string, x: string, ruleName: string, ruleId: string, app: string, gateway: string,
                        base: Store, c: Compiled)
    requires KubeNames.IsWord(x) && app != gateway
    requires ruleName == x + "-require-auth" && ruleId == "deny-" + x
    requires !c.deny && c.published && c.jwt.Jwt?
    ensures var n := NamesFor(service, ruleName, ruleId, app, gateway);
            DenyKey(n) == RequireAuthKey(n) && !Settled(Written(base, DeployWrites(n, c)), n, c)
  {
    CollidingNames(x, ruleName, ruleId, "deny", "require", "auth");
    DenyPolicyIsRequireAuth(service, x, ruleName, ruleId, "deny-", "-require-auth");
    SettlesApartIff(base, NamesFor(service, ruleName, ruleId, app, gateway), c);
  }

  lemma DenyPolicyIsRequireAuth(service: string, x: string, ruleName: string, ruleId: string, before: string,
                                after: string)
    requires before == "deny-" && after == "-require-auth" && ruleName == x + after && ruleId == before + x
    requires KubeNames.KubeName(ruleName) == ruleName != "" && KubeNames.KubeName(ruleId) == ruleId != ""
    ensures DenyName(service, ruleName, ruleId) == SecurityName(service, ruleId, "require-auth")
  {
    assert before + (x + after) == (before + x) + after;
    assert after == "-" + "require-auth";
    assert (before + x) + ("-" + "require-auth") == Dashed(ruleId, "require-auth");
  }

  lemma CollidingNames(x: string, ruleName: string, ruleId: string, deny: string, require: string, auth: string)
    requires KubeNames.IsWord(x) && KubeNames.IsWord(deny) && KubeNames.IsWord(require) && KubeNames.IsWord(auth)
    requires ruleName == x + "-" + require + "-" + auth && ruleId == deny + "-" + x
    ensures KubeNames.KubeName(ruleName) == ruleName != "" && KubeNames.KubeName(ruleId) == ruleId != ""
  {
    WordsAreNames([deny, x]);
    WordsAreNames([x, require, auth]);
    JoinTwo(deny, x);
    JoinTwo(require, auth);
    assert [x, require, auth][1..] == [require, auth];
    assert x + "-" + (require + "-" + auth) == ruleName;
  }

  lemma JoinTwo(a: string, b: string)
    ensures KubeNames.Join([a, b]) == a + "-" + b
  {
    assert [a, b][1..] == [b];
  }

  /** Stable and canary are both seen down, and an override gives the canary a share all the same. */
  method OverrideBeatsGuard(svc: RulePublish.Service, name: string, canary: string) returns (out: RulePublish.Service)
    requires canary == "canary" && svc == RulePublish.Service("", canary, 10, "")
    ensures RuleGuard.ToCanary(out)
  {
    var down := RuleGuard.Sight((w: string) => RuleGuard.Down, RuleGuard.Down);
    assert RuleGuard.SeenDown(name, down);
    TrimSpaceTrims(canary);
    out := RuleGuard.ResolveSpread(svc, false, name, down, RuleRoutes.Some(10));
  }

  /** A static site that is served by the canary's host: a promotion moves it, and publishing at percent zero does not. */
  lemma StaticSiteIsMoved(sc: Scope, page: RulePublish.Page, routes: seq<RuleRoutes.Route>, kind: string, port: int)
    requires RulePublish.TrimmedScope(sc) && page.tcp && kind == "static-site"
    ensures var svc := RulePublish.Service(kind, "", 0, "");
            var tree := RulePublish.Render(page, routes, RulePublish.Destinations(svc, sc, port, CanaryLocal(sc)));
            EachRoute(Promotion(sc), tree) != tree
  {
    var svc := RulePublish.Service(kind, "", 0, "");
    RulePublish.CanaryHostIsCanary(sc);
    RulePublish.LocalHostTrimmed(CanaryName(sc), sc.namespace);
    RulePublish.PromotionIsPercentZero(sc, page, routes, svc, port, CanaryLocal(sc));
    assert RulePublish.IsStaticSite(svc) && svc.(percent := 0) == svc;
  }

  function CanaryLocal(sc: Scope): string { RulePublish.LocalHost(CanaryName(sc), sc.namespace) }

  // ---- the auto-deploy monitor ----

  /** A cycle that finds one service with one new commit, and has it queued at `moment`. */
  function OneCommit(id: string, environment: string, sha: string, now: int, moment: int): Cycle {
    Cycle(now, true, true, [Watched(id, true, environment)], [], (k: nat) => Found(sha), (k: nat) => Response(sha),
          (k: nat) => moment)
  }

  /** Two cycles of a monitor, a time to live apart, queue one deploy twice; the first takes `d` to do so. */
  method QueuesThatClose(id: string, environment: string, sha: string, seconds: int, now: nat, d: int)
    returns (m: Monitor)
    requires TrimSpace(environment) != "" && Commit(sha) != "" && 0 <= d <= RecentQueueTTL(seconds)
    ensures m.ttl == RecentQueueTTL(seconds) && forall gap :: QueuedApart(m.log, 0, gap) <==> gap <= m.ttl - d
  {
    m := new Monitor(environment, seconds, 20, 10);
    ghost var key := StateKey(id, environment);
    QueuesCommit(m, id, environment, sha, now, now + d, d, key);
    ghost var one := m.log;
    QueuesCommit(m, id, environment, sha, now + m.ttl, now + m.ttl, d, key);
    assert m.log == one + m.log[2..];
    QueuedThatClose(m.log, m.ttl - d);
  }

  /** One cycle that queues the commit, which the tables do not speak against. */
  method QueuesCommit(m: Monitor, id: string, environment: string, sha: string, now: int, moment: int, ghost d: int,
                      ghost key: string)
    requires m.Valid() && m.environment == environment && m.clock <= now <= moment <= now + d
    requires TrimSpace(environment) != "" && Commit(sha) != "" && key == StateKey(id, environment)
    requires !Active(m.cooldown, TrimSpace(id), now)
    requires !Active(m.recentlyQueued, QueueKey(key, Commit(sha)), now)
    modifies m
    ensures m.Valid() && m.clock <= now && m.log == old(m.log) + [
      Asked(TrimSpace(id), now), Queued(key, Commit(sha), now, moment)]
    ensures !Active(m.cooldown, TrimSpace(id), now + m.ttl)
    ensures !Active(m.recentlyQueued, QueueKey(key, Commit(sha)), now + m.ttl)
  {
    var c := OneCommit(id, environment, sha, now, moment);
    ghost var desks := m.RunCycle(c, d);
    NothingKnown(desks[0].states, key);
    CycleQueues(m, c, id, key, sha, moment, desks, m.log, old(m.log), old(m.cooldown), old(m.recentlyQueued));
  }

  /** What the cycle did, from what it says of its turns. */
  lemma CycleQueues(m: Monitor, c: Cycle, id: string, key: string, sha: string, moment: int, desks: seq<Desk>,
                    trail: seq<Event>, before: seq<Event>, cooldown: map<string, int>, queued: map<string, int>)
    requires TrimSpace(m.environment) != "" && Commit(sha) != "" && key == StateKey(id, m.environment)
    requires c.services == [Watched(id, true, m.environment)] && m.InTurn(c, desks, trail)
    requires c.lookups(0) == Found(sha) && c.answers(0) == Response(sha) && c.moments(0) == moment
    requires key !in desks[0].states && before <= trail
    requires desks[0].at == |before| && desks[1].at == |trail|
    requires SameLater(cooldown, desks[0].cooldown, c.now) && !Active(cooldown, TrimSpace(id), c.now)
    requires SameLater(queued, desks[0].queued, c.now) && !Active(queued, QueueKey(key, Commit(sha)), c.now)
    ensures trail == before + [Asked(TrimSpace(id), c.now), Queued(key, Commit(sha), c.now, moment)]
    ensures TrimSpace(id) !in desks[1].cooldown
    ensures desks[1].queued == desks[0].queued[QueueKey(key, Commit(sha)) := c.now + m.ttl]
  {
    SameAnswer(cooldown, desks[0].cooldown, TrimSpace(id), c.now);
    SameAnswer(queued, desks[0].queued, QueueKey(key, Commit(sha)), c.now);
    FirstTurn(m, c, desks, trail);
    TurnQueues(m, c.services[0], key, sha, desks[0], desks[1], trail, c.now, c.lookups(0), c.answers(0), c.moments(0));
    Rejoined(trail, before, [Asked(TrimSpace(id), c.now), Queued(key, Commit(sha), c.now, moment)]);
  }

  lemma FirstTurn(m: Monitor, c: Cycle, desks: seq<Desk>, trail: seq<Event>)
    requires m.InTurn(c, desks, trail) && |c.services| > 0
    ensures |desks| > 1
    ensures m.Passes(c.services[0], desks[0], desks[1], trail, c.now, c.lookups(0), c.answers(0), c.moments(0))
  {
  }

  lemma Rejoined(trail: seq<Event>, before: seq<Event>, more: seq<Event>)
    requires before <= trail && trail[|before|..|trail|] == more
    ensures trail == before + more
  {
  }

  /** The service is asked for, and its commit is queued, unless the tables speak against it. */
  lemma TurnQueues(m: Monitor, w: Watched, key: string, sha: string, a: Desk, b: Desk, trail: seq<Event>, now: int,
                   lookup: Lookup, answer: QueueAnswer, moment: int)
    requires w.enabled && w.target == m.environment && TrimSpace(m.environment) != "" && Commit(sha) != ""
    requires lookup == Found(sha) && answer == Response(sha)
    requires key == StateKey(w.id, m.environment) && key !in a.states
    requires !Active(a.cooldown, TrimSpace(w.id), now) && !Active(a.queued, QueueKey(key, Commit(sha)), now)
    requires m.Passes(w, a, b, trail, now, lookup, answer, moment)
    ensures a.at <= b.at <= |trail| && TrimSpace(w.id) !in b.cooldown
    ensures trail[a.at..b.at] == [Asked(TrimSpace(w.id), now), Queued(key, Commit(sha), now, moment)]
    ensures b.queued == a.queued[QueueKey(key, Commit(sha)) := now + m.ttl]
  {
    WantedHere(w, m.environment);
    KeyedTurn(m, TrimSpace(w.id), key, a, b, trail, now, lookup, answer, moment);
  }

  lemma SameAnswer(a: map<string, int>, b: map<string, int>, key: string, now: int)
    requires SameLater(a, b, now)
    ensures Active(b, key, now) == Active(a, key, now)
  {
  }

  lemma NothingKnown(states: map<string, Known>, key: string)
    requires Tells(states, Notes([]), 0)
    ensures key !in states
  {
  }

  lemma WantedHere(w: Watched, environment: string)
    requires w.enabled && w.target == environment && TrimSpace(environment) != ""
    ensures IsWanted(w, environment, false)
  {
  }

  lemma KeyedTurn(m: Monitor, id: string, key: string, a: Desk, b: Desk, trail: seq<Event>, now: int, lookup: Lookup,
                  answer: QueueAnswer, moment: int)
    requires m.Keyed(id, key, true, a, b, trail, now, lookup, answer, moment) && key !in a.states
    requires lookup.Found? && Latest(lookup) != "" && IsQueued(answer, Latest(lookup))
    requires !Active(a.cooldown, id, now) && !Active(a.queued, QueueKey(key, Latest(lookup)), now)
    ensures a.at <= b.at <= |trail| && id !in b.cooldown
    ensures trail[a.at..b.at] == [Asked(id, now), Queued(key, Latest(lookup), now, moment)]
    ensures b.queued == a.queued[QueueKey(key, Latest(lookup)) := now + m.ttl]
  {
  }

  lemma QueuedThatClose(log: seq<Event>, gap: int)
    requires |log| == 4 && log[0].Asked? && log[2].Asked? && SameDeploy(log[1], log[3])
    requires log[3].moment - log[1].moment == gap
    ensures forall g :: QueuedApart(log, 0, g) <==> g <= gap
  {
  }
}
