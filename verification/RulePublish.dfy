/** The VirtualService a rule is published as, and why promoting the canary is publishing it at percent zero. */
module RulePublish {
  import opened Text
  import opened Manifests
  import opened WeightMerge
  import opened CanaryShift
  import opened RouteTables
  import opened CanaryPromotion
  import opened RuleRoutes
  import BlueGreen

  /** The part of a service that spreads its traffic. `kind` is its type, `strategy` the deployment strategy's. */
  datatype Service = Service(kind: string, strategy: string, percent: int, primary: string)

  /** buildRouteDestination. */
  function RouteDestination(host: string, port: int, weight: int): Value {
    var destination := Obj(map["host" := Str(host), "port" := Obj(map["number" := Whole(port)])]);
    if weight > 0 then Obj(map["destination" := destination, "weight" := Whole(weight)])
    else Obj(map["destination" := destination])
  }

  function LocalHost(name: string, namespace: string): string {
    name + ("." + namespace + CLUSTER_SUFFIX)
  }

  function StrategyType(svc: Service): string { ToLower(TrimSpace(svc.strategy)) }

  /** All the traffic to the stable version. */
  function StableOnly(sc: Scope, port: int): seq<Value> {
    [RouteDestination(StableHost(sc), port, 100)]
  }

  /** The traffic shared between the stable version and the canary. */
  function Shared(sc: Scope, port: int, canary: int): seq<Value> {
    [RouteDestination(StableHost(sc), port, 100 - canary),
     RouteDestination(LocalHost(CanaryName(sc), sc.namespace), port, canary)]
  }

  /** No more than half goes to the canary. */
  function AtMostHalf(percent: int): (canary: int)
    ensures percent > 0 ==> 0 < canary <= 50
  {
    if percent > 50 then 50 else percent
  }

  /** buildStrategyDestinations. */
  function StrategyDestinations(svc: Service, sc: Scope, port: int): seq<Value> {
    if StrategyType(svc) == "canary" then
      if svc.percent <= 0 then StableOnly(sc, port) else Shared(sc, port, AtMostHalf(svc.percent))
    else if StrategyType(svc) == "blue-green" then
      [RouteDestination(LocalHost(SlotHost(sc, svc), sc.namespace), port, 100)]
    else StableOnly(sc, port)
  }

  function SlotHost(sc: Scope, svc: Service): string {
    sc.service + "-" + BlueGreen.ActiveSlot(svc.primary)
  }

  predicate IsStaticSite(svc: Service) { EqualFold(svc.kind, "static-site") }

  /** Where the requests go that a rule lets through. A static site is served by `staticHost`, if one is set up. */
  function Destinations(svc: Service, sc: Scope, port: int, staticHost: string): seq<Value> {
    if IsStaticSite(svc) then
      [if staticHost != "" then RouteDestination(staticHost, 80, 100) else RouteDestination(StableHost(sc), port, 100)]
    else StrategyDestinations(svc, sc, port)
  }

  // ---- rendering ----

  /** Everything about a published rule that does not depend on where its traffic goes. */
  datatype Page = Page(head: Fields, hosts: Value, gateways: Value, tcp: bool, port: int, extras: Route -> Fields)

  const EXTRAS: set<string> := {"name", "timeout", "retries", "corsPolicy", "headers"}

  /** What applyEdgeHTTPPolicy and the route's name add. */
  function ExtraFields(page: Page, route: Route): Fields {
    map k | k in page.extras(route) && k in EXTRAS :: page.extras(route)[k]
  }

  function RenderTest(test: Test): Value {
    match test
    case Exact(value) => Obj(map["exact" := Str(value)])
    case Present => Obj(map["regex" := Str(".+")])
  }

  function RenderMatch(m: Match): Value {
    Obj((if m.prefix.Some? then map["uri" := Obj(map["prefix" := Str(m.prefix.value)])] else map[])
        + (if m.verb.Some? then map["method" := Obj(map["exact" := Str(m.verb.value)])] else map[])
        + (if m.headers == map[] then map[]
           else map["headers" := Obj(map h | h in m.headers :: RenderTest(m.headers[h]))]))
  }

  function RenderMatches(ms: seq<Match>): Fields {
    if ms == [] then map[] else map["match" := Arr(seq(|ms|, i requires 0 <= i < |ms| => RenderMatch(ms[i])))]
  }

  function RenderRoute(page: Page, route: Route, destinations: seq<Value>): Value {
    Obj(ExtraFields(page, route) + RenderMatches(route.matches)
        + match route.action
          case Forward => map["route" := Arr(destinations)]
          case Respond(status) => map["directResponse" := Obj(map["status" := Whole(status)])])
  }

  function RenderTcp(page: Page, destinations: seq<Value>): Value {
    if page.port > 0 then Obj(map["route" := Arr(destinations), "match" := Arr([Obj(map["port" := Whole(page.port)])])])
    else Obj(map["route" := Arr(destinations)])
  }

  function RenderRoutes(page: Page, routes: seq<Route>, destinations: seq<Value>): seq<Value> {
    seq(|routes|, i requires 0 <= i < |routes| => RenderRoute(page, routes[i], destinations))
  }

  /** buildRuleVirtualService. */
  function Render(page: Page, routes: seq<Route>, destinations: seq<Value>): Fields {
    var spec := map["hosts" := page.hosts, "gateways" := page.gateways];
    page.head["spec" := Obj(
      if page.tcp then spec["tcp" := Arr([RenderTcp(page, destinations)])]
      else spec["http" := Arr(RenderRoutes(page, routes, destinations))])]
  }

  // ---- promotion, one list at a time ----

  predicate TrimmedScope(sc: Scope) { Trimmed(sc.service) && Trimmed(sc.namespace) }

  predicate LowerOnly(s: string) {
    forall i :: 0 <= i < |s| ==> LowerChar(s[i]) == s[i]
  }

  lemma SuffixIsLower(s: string)
    requires s == CLUSTER_SUFFIX
    ensures LowerOnly(s)
  {
  }

  lemma LowerTail(dot: string, ns: string, suffix: string)
    requires LowerOnly(dot) && LowerOnly(suffix)
    ensures ToLower(dot + ns + suffix) == dot + ToLower(ns) + suffix
  {
    LowerStays(dot);
    LowerStays(suffix);
    ToLowerAppend(dot + ns, suffix);
    ToLowerAppend(dot, ns);
  }

  lemma LowerHost(name: string, dot: string, ns: string, suffix: string)
    requires LowerOnly(dot) && LowerOnly(suffix)
    ensures ToLower(name + (dot + ns + suffix)) == ToLower(name) + dot + ToLower(ns) + suffix
  {
    LowerTail(dot, ns, suffix);
    ToLowerAppend(name, dot + ns + suffix);
    Regrouped(ToLower(name), dot, ToLower(ns), suffix);
  }

  lemma Regrouped(a: string, b: string, c: string, d: string)
    ensures a + (b + c + d) == a + b + c + d
  {
  }

  lemma LowerStays(s: string)
    requires LowerOnly(s)
    ensures ToLower(s) == s
  {
  }

  lemma LocalHostTrimmed(name: string, namespace: string)
    requires Trimmed(name)
    ensures Trimmed(LocalHost(name, namespace)) && TrimSpace(LocalHost(name, namespace)) == LocalHost(name, namespace)
    ensures LocalHost(name, namespace) != ""
  {
    LocalTail(namespace);
    TrimSpaceTrims(LocalHost(name, namespace));
  }

  lemma LongestAlias(alias: string, dot: string, ns: string, suffix: string)
    requires dot == "." && suffix == CLUSTER_SUFFIX
    ensures alias + dot + ns + suffix in Aliases(alias, ns)
  {
    assert Aliases(alias, ns)[3] == alias + dot + ns + suffix;
  }

  lemma HostInsideAliases(host: string, alias: string, ns: string, h: string, a: string, n: string)
    requires TrimSpace(host) == host && TrimSpace(alias) == alias && TrimSpace(ns) == ns
    requires h == ToLower(host) && a == ToLower(alias) && n == ToLower(ns)
    requires h in Aliases(a, n) && host != "" && alias != ""
    ensures HostMatches(host, alias, ns)
  {
  }

  /** The full host of a workload is one of its spellings. */
  lemma FullHostMatches(name: string, dot: string, ns: string, suffix: string, host: string)
    requires Trimmed(name) && Trimmed(ns) && name != "" && LowerOnly(dot) && LowerOnly(suffix)
    requires ToLower(name) + dot + ToLower(ns) + suffix in Aliases(ToLower(name), ToLower(ns))
    requires host == name + (dot + ns + suffix) && TrimSpace(host) == host
    ensures HostMatches(host, name, ns)
  {
    LowerHost(name, dot, ns, suffix);
    TrimSpaceTrims(name);
    TrimSpaceTrims(ns);
    HostInsideAliases(host, name, ns, ToLower(host), ToLower(name), ToLower(ns));
  }

  /** What follows the name in a full host, and in the longest spelling of it. */
  lemma HostParts(name: string, ns: string) returns (dot: string, suffix: string)
    ensures LowerOnly(dot) && LowerOnly(suffix)
    ensures LocalHost(name, ns) == name + (dot + ns + suffix)
    ensures ToLower(name) + dot + ToLower(ns) + suffix in Aliases(ToLower(name), ToLower(ns))
  {
    dot, suffix := ".", CLUSTER_SUFFIX;
    SuffixIsLower(suffix);
    LongestAlias(ToLower(name), dot, ToLower(ns), suffix);
  }

  lemma LocalHostIsAlias(name: string, ns: string)
    requires Trimmed(name) && Trimmed(ns) && name != ""
    ensures HostMatches(LocalHost(name, ns), name, ns)
  {
    LocalHostTrimmed(name, ns);
    var dot, suffix := HostParts(name, ns);
    FullHostMatches(name, dot, ns, suffix, LocalHost(name, ns));
  }

  lemma CanaryHostIsCanary(sc: Scope)
    requires TrimmedScope(sc)
    ensures Trimmed(CanaryName(sc)) && IsCanaryHost(sc, LocalHost(CanaryName(sc), sc.namespace))
  {
    LocalHostIsAlias(CanaryName(sc), sc.namespace);
  }

  lemma SlotHostIsNotCanary(sc: Scope, slot: string)
    requires |slot| >= 4 && slot[0] in {'b', 'g'}
    ensures !IsCanaryHost(sc, TrimSpace(LocalHost(sc.service + "-" + slot, sc.namespace)))
  {
    LocalTail(sc.namespace);
    SlotHostDiffers(sc.service, "-", "canary", slot, "." + sc.namespace + CLUSTER_SUFFIX, sc.namespace);
    assert sc.service + ("-" + "canary") == CanaryName(sc);
  }

  lemma SlotHostDiffers(service: string, dash: string, word: string, slot: string, rest: string, namespace: string)
    requires |word| == 6 && word[0] == 'c' && word[5] == 'y'
    requires |slot| >= 4 && slot[0] in {'b', 'g'} && rest != [] && rest[|rest| - 1] == 'l'
    ensures !HostMatches(TrimSpace(service + dash + slot + rest), service + (dash + word), namespace)
  {
    SlotTailDiffers(service + dash, word, slot + rest, namespace);
    assert service + dash + (slot + rest) == service + dash + slot + rest;
    assert service + dash + word == service + (dash + word);
  }

  lemma SlotTailDiffers(core: string, word: string, tail: string, namespace: string)
    requires |word| == 6 && word[0] == 'c' && word[5] == 'y'
    requires |tail| > 1 && tail[0] in {'b', 'g'} && tail[|tail| - 1] == 'l'
    ensures !HostMatches(TrimSpace(core + tail), core + word, namespace)
  {
    PartedTailsDiffer(core, word, tail, namespace);
  }

  lemma DestinationHost(sc: Scope, host: string, port: int, weight: int)
    ensures HostOf(sc, RouteDestination(host, port, weight)) == TrimSpace(host)
    ensures !Skipped(RouteDestination(host, port, weight))
    ensures Weight(RouteDestination(host, port, weight)) == if weight > 0 then weight else 0
    ensures At(MapValue(RouteDestination(host, port, weight)), "weight") == if weight > 0 then Whole(weight) else Null
  {
    WholeWeight(weight);
  }

  /** A lone destination that is not the canary, with all the weight, is left alone. */
  lemma LoneDestinationStays(sc: Scope, host: string, port: int)
    requires !IsCanaryHost(sc, TrimSpace(host))
    ensures ShiftedItems(sc, [RouteDestination(host, port, 100)]) == [RouteDestination(host, port, 100)]
  {
    var e := RouteDestination(host, port, 100);
    DestinationHost(sc, host, port, 100);
    LoneEntryStays(Canary(sc), e, 100);
    assert !ListNamesCanary(sc, [e]);
  }

  lemma LoneEntryStays(rd: Reading, e: Value, weight: int)
    requires rd.fields(e) == MapValue(e) && e.Obj? && Weight(e) == weight && At(MapValue(e), "weight") == Whole(weight)
    ensures InPlace(rd, [e]) == [e]
  {
    assert SumTo(rd, [e], 0, rd.target(e)) == 0;
    assert SumTo(rd, [e], 1, rd.target(e)) == weight;
    assert e.fields["weight" := Whole(weight)] == e.fields;
  }

  lemma StableShare(sc: Scope, s: Value, port: int, weight: int)
    requires Trimmed(sc.service) && s == RouteDestination(StableHost(sc), port, weight)
    ensures Target(sc, s) == StableHost(sc) && Retargeted(sc, s) == MapValue(s) && StableHost(sc) != "" && !Skipped(s)
  {
    DestinationHost(sc, StableHost(sc), port, weight);
    StableHostTrimmed(sc);
    StableIsNotCanary(sc);
  }

  lemma CanaryShare(sc: Scope, c: Value, port: int, weight: int)
    requires TrimmedScope(sc) && c == RouteDestination(LocalHost(CanaryName(sc), sc.namespace), port, weight)
    ensures NamesCanary(sc, c) && Target(sc, c) == StableHost(sc) && !Skipped(c)
  {
    DestinationHost(sc, LocalHost(CanaryName(sc), sc.namespace), port, weight);
    CanaryHostIsCanary(sc);
    LocalHostTrimmed(CanaryName(sc), sc.namespace);
  }

  lemma ShiftedPair(sc: Scope, s: Value, c: Value)
    requires NamesCanary(sc, c) && !Skipped(s) && !Skipped(c) && s.Obj?
    requires Target(sc, s) != "" && Target(sc, c) == Target(sc, s) && Retargeted(sc, s) == MapValue(s)
    ensures ShiftedItems(sc, [s, c]) == [WithWeight(s, 100)]
  {
    MergeIntoFirst(Canary(sc), s, c);
    assert NamesCanary(sc, [s, c][1]);
  }

  /** The stable share, and what becomes of it with all the weight. */
  lemma MainShare(sc: Scope, port: int, canary: int) returns (s: Value, full: Value)
    requires TrimmedScope(sc) && 0 < canary <= 50
    ensures Shared(sc, port, canary)[0] == s && s.Obj? && !Skipped(s)
    ensures StableOnly(sc, port) == [full] && WithWeight(s, 100) == full
    ensures Target(sc, s) == StableHost(sc) != "" && Retargeted(sc, s) == MapValue(s)
  {
    s, full := Shared(sc, port, canary)[0], StableOnly(sc, port)[0];
    StableShare(sc, s, port, 100 - canary);
    FullWeight(StableHost(sc), port, 100 - canary);
  }

  lemma SpareShare(sc: Scope, port: int, canary: int) returns (c: Value)
    requires TrimmedScope(sc) && 0 < canary <= 50
    ensures Shared(sc, port, canary)[1] == c && !Skipped(c) && NamesCanary(sc, c) && Target(sc, c) == StableHost(sc)
  {
    c := Shared(sc, port, canary)[1];
    CanaryShare(sc, c, port, canary);
  }

  /** The canary's share goes to the stable destination, which is left alone with all the weight. */
  lemma SharesMerge(sc: Scope, port: int, canary: int)
    requires TrimmedScope(sc) && 0 < canary <= 50
    ensures ShiftedItems(sc, Shared(sc, port, canary)) == StableOnly(sc, port)
  {
    var s, full := MainShare(sc, port, canary);
    var c := SpareShare(sc, port, canary);
    assert Shared(sc, port, canary) == [s, c];
    ShiftedPair(sc, s, c);
  }

  lemma FullWeight(host: string, port: int, a: int)
    requires a > 0
    ensures WithWeight(RouteDestination(host, port, a), 100) == RouteDestination(host, port, 100)
  {
  }

  lemma MergeIntoFirst(rd: Reading, s: Value, c: Value)
    requires !Skipped(s) && !Skipped(c) && rd.target(s) != "" && rd.target(c) == rd.target(s)
    requires rd.fields(s) == MapValue(s) && s.Obj?
    ensures Merged(rd, [s, c]) == [WithWeight(s, 100)]
  {
    var es := [s, c];
    assert Survives(rd, es, 0) && !Survives(rd, es, 1);
    assert Survivors(rd, es, 0) == [] && Survivors(rd, es, 1) == [0] && Survivors(rd, es, 2) == [0];
    var first := InPlace(rd, es)[0];
    assert MapValue(first)["weight" := Whole(100)] == MapValue(s)["weight" := Whole(100)];
  }

  predicate StaticHostApart(svc: Service, sc: Scope, staticHost: string) {
    IsStaticSite(svc) && staticHost != "" ==> !IsCanaryHost(sc, TrimSpace(staticHost))
  }

  lemma StableAloneStays(sc: Scope, port: int)
    ensures ShiftedItems(sc, StableOnly(sc, port)) == StableOnly(sc, port)
  {
    StableIsNotCanary(sc);
    LoneDestinationStays(sc, StableHost(sc), port);
  }

  lemma SlotAloneStays(svc: Service, sc: Scope, port: int, host: string)
    requires host == LocalHost(SlotHost(sc, svc), sc.namespace)
    ensures ShiftedItems(sc, [RouteDestination(host, port, 100)]) == [RouteDestination(host, port, 100)]
  {
    SlotHostIsNotCanary(sc, BlueGreen.ActiveSlot(svc.primary));
    LoneDestinationStays(sc, host, port);
  }

  lemma StrategyShifts(svc: Service, sc: Scope, port: int)
    requires TrimmedScope(sc)
    ensures ShiftedItems(sc, StrategyDestinations(svc, sc, port)) == StrategyDestinations(svc.(percent := 0), sc, port)
  {
    if StrategyType(svc) == "canary" {
      if svc.percent > 0 { SharesMerge(sc, port, AtMostHalf(svc.percent)); } else { StableAloneStays(sc, port); }
    } else if StrategyType(svc) == "blue-green" {
      SlotAloneStays(svc, sc, port, LocalHost(SlotHost(sc, svc), sc.namespace));
    } else {
      StableAloneStays(sc, port);
    }
  }

  lemma DestinationsShift(svc: Service, sc: Scope, port: int, staticHost: string)
    requires TrimmedScope(sc) && StaticHostApart(svc, sc, staticHost)
    ensures ShiftedItems(sc, Destinations(svc, sc, port, staticHost))
            == Destinations(svc.(percent := 0), sc, port, staticHost)
  {
    if !IsStaticSite(svc) {
      StrategyShifts(svc, sc, port);
    } else if staticHost != "" {
      LoneDestinationStays(sc, staticHost, 80);
    } else {
      StableAloneStays(sc, port);
    }
  }

  /** For the destinations, the guard is exact: one that spells the canary is moved off it, static site or not. */
  lemma DestinationsShiftIff(svc: Service, sc: Scope, port: int, staticHost: string)
    requires TrimmedScope(sc)
    ensures var before := Destinations(svc, sc, port, staticHost);
            var after := Destinations(svc.(percent := 0), sc, port, staticHost);
            ShiftedItems(sc, before) == after <==> StaticHostApart(svc, sc, staticHost)
  {
    if StaticHostApart(svc, sc, staticHost) {
      DestinationsShift(svc, sc, port, staticHost);
    } else {
      StaticCanaryMoves(sc, RouteDestination(staticHost, 80, 100), staticHost);
    }
  }

  lemma StaticCanaryMoves(sc: Scope, e: Value, staticHost: string)
    requires TrimmedScope(sc) && e == RouteDestination(staticHost, 80, 100) && IsCanaryHost(sc, TrimSpace(staticHost))
    ensures ShiftedItems(sc, [e]) != [e]
  {
    DestinationHost(sc, staticHost, 80, 100);
    ShiftedItemsClean(sc, [e]);
    assert NamesCanary(sc, [e][0]);
  }

  // ---- promotion, the whole tree ----

  lemma ForwardingRoute(sc: Scope, route: Fields, destinations: seq<Value>)
    requires "mirror" !in route && At(route, "route") == Arr(destinations) && destinations != []
    ensures PromotedRoute(sc, Obj(route)) == Obj(route["route" := Arr(ShiftedItems(sc, destinations))])
  {
    NoMirror(sc, route);
  }

  lemma AnsweringRoute(sc: Scope, route: Fields)
    requires "mirror" !in route && "route" !in route
    ensures PromotedRoute(sc, Obj(route)) == Obj(route)
  {
    NoMirror(sc, route);
  }

  /** The keys of a rendered route. */
  lemma RenderedKeys(page: Page, route: Route, destinations: seq<Value>)
    ensures var fields := RenderRoute(page, route, destinations).fields;
            && "mirror" !in fields
            && (route.action.Forward? ==> At(fields, "route") == Arr(destinations))
            && (!route.action.Forward? ==> "route" !in fields)
  {
  }

  lemma RerouteRendered(page: Page, route: Route, before: seq<Value>, after: seq<Value>)
    requires route.action.Forward?
    ensures RenderRoute(page, route, before).fields["route" := Arr(after)] == RenderRoute(page, route, after).fields
  {
  }

  lemma RoutePromoted(sc: Scope, page: Page, route: Route, before: seq<Value>, after: seq<Value>)
    requires before != [] && ShiftedItems(sc, before) == after
    ensures PromotedRoute(sc, RenderRoute(page, route, before)) == RenderRoute(page, route, after)
  {
    RenderedKeys(page, route, before);
    if route.action.Forward? {
      ForwardingRoute(sc, RenderRoute(page, route, before).fields, before);
      RerouteRendered(page, route, before, after);
    } else {
      AnsweringRoute(sc, RenderRoute(page, route, before).fields);
    }
  }

  lemma TcpPromoted(sc: Scope, page: Page, before: seq<Value>, after: seq<Value>)
    requires before != [] && ShiftedItems(sc, before) == after
    ensures PromotedRoute(sc, RenderTcp(page, before)) == RenderTcp(page, after)
  {
    RerouteTcp(page, before, after);
    ForwardingRoute(sc, RenderTcp(page, before).fields, before);
  }

  lemma RerouteTcp(page: Page, before: seq<Value>, after: seq<Value>)
    ensures var fields := RenderTcp(page, before).fields;
            && "mirror" !in fields && At(fields, "route") == Arr(before)
            && fields["route" := Arr(after)] == RenderTcp(page, after).fields
  {
  }

  /** A spec with one table, rewritten. */
  lemma OneTable(f: Value -> Value, head: Fields, plain: Fields, key: string, a: seq<Value>, b: seq<Value>)
    requires key in KEYS && (forall k :: k in KEYS ==> k !in plain) && Each(f, a) == b
    ensures EachRoute(f, head["spec" := Obj(plain[key := Arr(a)])]) == head["spec" := Obj(plain[key := Arr(b)])]
  {
    var spec := plain[key := Arr(a)];
    assert Spec(head["spec" := Obj(spec)]) == spec && key in spec;
    assert Rewritten(f, spec, KEYS) == plain[key := Arr(b)];
  }

  lemma RoutesPromoted(sc: Scope, page: Page, routes: seq<Route>, before: seq<Value>, after: seq<Value>)
    requires before != [] && ShiftedItems(sc, before) == after
    ensures Each(Promotion(sc), RenderRoutes(page, routes, before)) == RenderRoutes(page, routes, after)
  {
    forall i | 0 <= i < |routes|
      ensures PromotedRoute(sc, RenderRoute(page, routes[i], before)) == RenderRoute(page, routes[i], after)
    {
      RoutePromoted(sc, page, routes[i], before, after);
    }
  }

  lemma RenderPromoted(sc: Scope, page: Page, routes: seq<Route>, before: seq<Value>, after: seq<Value>)
    requires before != [] && ShiftedItems(sc, before) == after
    ensures EachRoute(Promotion(sc), Render(page, routes, before)) == Render(page, routes, after)
  {
    var key := if page.tcp then "tcp" else "http";
    var plain := map["hosts" := page.hosts, "gateways" := page.gateways];
    var a, b := Table(page, routes, before), Table(page, routes, after);
    TablePromoted(sc, page, routes, before, after);
    PlainHasNoTable(plain);
    OneTable(Promotion(sc), page.head, plain, key, a, b);
    TableRendered(page, routes, before, plain, key);
    TableRendered(page, routes, after, plain, key);
  }

  /** The one table of a published rule. */
  function Table(page: Page, routes: seq<Route>, destinations: seq<Value>): seq<Value> {
    if page.tcp then [RenderTcp(page, destinations)] else RenderRoutes(page, routes, destinations)
  }

  lemma TableRendered(page: Page, routes: seq<Route>, destinations: seq<Value>, plain: Fields, key: string)
    requires plain == map["hosts" := page.hosts, "gateways" := page.gateways]
    requires key == if page.tcp then "tcp" else "http"
    ensures Render(page, routes, destinations)
            == page.head["spec" := Obj(plain[key := Arr(Table(page, routes, destinations))])]
  {
  }

  lemma PlainHasNoTable(plain: Fields)
    requires plain.Keys == {"hosts", "gateways"}
    ensures forall k :: k in KEYS ==> k !in plain
  {
  }

  lemma TablePromoted(sc: Scope, page: Page, routes: seq<Route>, before: seq<Value>, after: seq<Value>)
    requires before != [] && ShiftedItems(sc, before) == after
    ensures Each(Promotion(sc), Table(page, routes, before)) == Table(page, routes, after)
  {
    if page.tcp { TcpPromoted(sc, page, before, after); } else { RoutesPromoted(sc, page, routes, before, after); }
  }

  /** Some route of the rule lets requests through. */
  predicate Forwards(page: Page, routes: seq<Route>) {
    page.tcp || exists i :: 0 <= i < |routes| && routes[i].action.Forward?
  }

  /** A rule that lets nothing through is published without destinations. */
  lemma RenderHides(page: Page, routes: seq<Route>, a: seq<Value>, b: seq<Value>)
    requires !Forwards(page, routes)
    ensures Render(page, routes, a) == Render(page, routes, b)
  {
    assert RenderRoutes(page, routes, a) == RenderRoutes(page, routes, b);
  }

  /** Any other shows them. */
  lemma RenderShows(page: Page, routes: seq<Route>, a: seq<Value>, b: seq<Value>)
    requires Forwards(page, routes) && Render(page, routes, a) == Render(page, routes, b)
    ensures a == b
  {
    var s, t := Render(page, routes, a)["spec"].fields, Render(page, routes, b)["spec"].fields;
    if page.tcp {
      assert s["tcp"].items[0] == t["tcp"].items[0];
      RerouteTcp(page, a, b);
      RerouteTcp(page, b, a);
    } else {
      var i :| 0 <= i < |routes| && routes[i].action.Forward?;
      assert s["http"].items[i] == t["http"].items[i];
      RenderedKeys(page, routes[i], a);
      RenderedKeys(page, routes[i], b);
    }
  }

  /**
   * Promotion commutes with publishing: for every rule, service and canary percent, promoting what was published
   * gives what would be published at percent zero. The one exception is exact: a rule that lets requests through to a
   * static-site host that spells the canary.
   */
  lemma PromotionIsPercentZero(sc: Scope, page: Page, routes: seq<Route>, svc: Service, port: int, staticHost: string)
    requires TrimmedScope(sc)
    ensures EachRoute(Promotion(sc), Render(page, routes, Destinations(svc, sc, port, staticHost)))
            == Render(page, routes, Destinations(svc.(percent := 0), sc, port, staticHost))
            <==> StaticHostApart(svc, sc, staticHost) || !Forwards(page, routes)
  {
    var before := Destinations(svc, sc, port, staticHost);
    var after := Destinations(svc.(percent := 0), sc, port, staticHost);
    DestinationsShiftIff(svc, sc, port, staticHost);
    PromotedIff(sc, page, routes, before, after);
  }

  /** What holds of the destinations holds of the tree that shows them. */
  lemma PromotedIff(sc: Scope, page: Page, routes: seq<Route>, before: seq<Value>, after: seq<Value>)
    requires before != []
    ensures EachRoute(Promotion(sc), Render(page, routes, before)) == Render(page, routes, after)
            <==> ShiftedItems(sc, before) == after || !Forwards(page, routes)
  {
    var shifted := ShiftedItems(sc, before);
    RenderPromoted(sc, page, routes, before, shifted);
    if !Forwards(page, routes) { RenderHides(page, routes, shifted, after); }
    if Forwards(page, routes) && Render(page, routes, shifted) == Render(page, routes, after) {
      RenderShows(page, routes, shifted, after);
    }
  }
}
