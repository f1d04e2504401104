/** What the proxy makes of a published VirtualService, read back from its fields. */
module PublishedTree {
  import opened Text
  import opened Manifests
  import opened WeightMerge
  import opened RouteTables
  import opened RuleRoutes
  import opened RulePublish

  /** What becomes of a request: it is sent to the `route` list, answered with a status, or no route takes it. */
  datatype Fate = Sent(route: Value) | Answered(status: Value) | Untaken

  /** A string test: exact, by prefix, or by the one regular expression that rules use, `.+`. */
  predicate StringMatch(v: Value, text: string) {
    var m := MapValue(v);
    || ("exact" in m && m["exact"] == Str(text))
    || ("prefix" in m && m["prefix"].Str? && m["prefix"].s <= text)
    || ("regex" in m && m["regex"] == Str(".+") && text != "")
  }

  /** All the tests of one `match` entry hold. */
  predicate EntryTakes(v: Value, req: Request) {
    var m := MapValue(v);
    && ("uri" in m ==> StringMatch(m["uri"], req.path))
    && ("method" in m ==> StringMatch(m["method"], req.verb))
    && (forall h :: h in MapValue(At(m, "headers")) ==>
          h in req.headers && StringMatch(MapValue(At(m, "headers"))[h], req.headers[h]))
  }

  /** One of the `match` entries holds, or there is none. */
  predicate RouteTakes(v: Value, req: Request) {
    var matches := At(MapValue(v), "match");
    matches.Arr? && matches.items != [] ==> exists i :: 0 <= i < |matches.items| && EntryTakes(matches.items[i], req)
  }

  /** The first route that takes the request decides. */
  function FirstTaking(routes: seq<Value>, req: Request): Fate {
    if routes == [] then Untaken
    else if RouteTakes(routes[0], req) then
      var m := MapValue(routes[0]);
      if "directResponse" in m then Answered(At(MapValue(m["directResponse"]), "status")) else Sent(At(m, "route"))
    else FirstTaking(routes[1..], req)
  }

  /** What the tree does with an HTTP request. */
  function Treats(tree: Fields, req: Request): Fate {
    var http := At(MapValue(At(tree, "spec")), "http");
    if http.Arr? then FirstTaking(http.items, req) else Untaken
  }

  /** An answer of the compiled routes, as the tree has to give it. */
  function Shown(answer: Answer, destinations: seq<Value>): Fate {
    match answer
    case Forwarded => Sent(Arr(destinations))
    case Responded(status) => Answered(Whole(status))
    case Unmatched => Untaken
  }

  lemma TestShown(test: Test, text: string)
    ensures StringMatch(RenderTest(test), text) <==>
            match test case Exact(value) => value == text case Present => text != ""
  {
  }

  lemma MatchShown(m: Match, req: Request)
    ensures EntryTakes(RenderMatch(m), req) <==> Meets(m, req)
  {
    var fields := RenderMatch(m).fields;
    PartsShown(m, fields);
    assert m.prefix.Some? ==> (StringMatch(fields["uri"], req.path) <==> m.prefix.value <= req.path);
    assert m.verb.Some? ==> (StringMatch(fields["method"], req.verb) <==> m.verb.value == req.verb);
    forall h | h in m.headers
      ensures (h in req.headers && StringMatch(RenderTest(m.headers[h]), req.headers[h])) <==> Passes(m.headers[h], req, h)
    {
      if h in req.headers { TestShown(m.headers[h], req.headers[h]); }
    }
  }

  lemma PartsShown(m: Match, fields: Fields)
    requires fields == RenderMatch(m).fields
    ensures "uri" in fields <==> m.prefix.Some?
    ensures m.prefix.Some? ==> fields["uri"] == Obj(map["prefix" := Str(m.prefix.value)])
    ensures "method" in fields <==> m.verb.Some?
    ensures m.verb.Some? ==> fields["method"] == Obj(map["exact" := Str(m.verb.value)])
    ensures var hs := MapValue(At(fields, "headers"));
            hs.Keys == m.headers.Keys && forall h :: h in hs ==> hs[h] == RenderTest(m.headers[h])
  {
  }

  lemma RouteShown(page: Page, route: Route, destinations: seq<Value>, req: Request)
    ensures RouteTakes(RenderRoute(page, route, destinations), req) <==>
            route.matches == [] || AnyMeets(route.matches, req)
  {
    var v := RenderRoute(page, route, destinations);
    var ms := route.matches;
    MatchesShown(page, route, destinations);
    if ms != [] {
      var items := At(v.fields, "match").items;
      forall i | 0 <= i < |ms| ensures EntryTakes(items[i], req) <==> Meets(ms[i], req) { MatchShown(ms[i], req); }
      if AnyMeets(ms, req) {
        var i :| 0 <= i < |ms| && Meets(ms[i], req);
        assert EntryTakes(items[i], req);
      }
    }
  }

  lemma MatchesShown(page: Page, route: Route, destinations: seq<Value>)
    ensures var fields := RenderRoute(page, route, destinations).fields;
            if route.matches == [] then "match" !in fields
            else At(fields, "match").Arr? && |At(fields, "match").items| == |route.matches|
                 && forall i :: 0 <= i < |route.matches| ==> At(fields, "match").items[i] == RenderMatch(route.matches[i])
  {
  }

  lemma ActionShown(page: Page, route: Route, destinations: seq<Value>)
    ensures var fields := RenderRoute(page, route, destinations).fields;
            match route.action
            case Forward => "directResponse" !in fields && At(fields, "route") == Arr(destinations)
            case Respond(status) => "directResponse" in fields
                                    && At(MapValue(fields["directResponse"]), "status") == Whole(status)
  {
  }

  /** The rendered table treats every request as the compiled routes answer it. */
  lemma {:induction false} RoutesShown(page: Page, routes: seq<Route>, destinations: seq<Value>, req: Request)
    ensures FirstTaking(RenderRoutes(page, routes, destinations), req) == Shown(Serve(routes, req), destinations)
  {
    if routes != [] {
      var rendered := RenderRoutes(page, routes, destinations);
      assert rendered[1..] == RenderRoutes(page, routes[1..], destinations);
      RoutesShown(page, routes[1..], destinations, req);
      RouteShown(page, routes[0], destinations, req);
      ActionShown(page, routes[0], destinations);
    }
  }

  function TcpTable(tree: Fields): Value { At(MapValue(At(tree, "spec")), "tcp") }

  /** The tree's one TCP route takes the connections of this port. */
  predicate Carried(tree: Fields, port: int) {
    TcpTable(tree).Arr? && |TcpTable(tree).items| == 1
    && var matches := At(MapValue(TcpTable(tree).items[0]), "match");
       matches.Arr? && matches.items != [] ==>
         exists i :: 0 <= i < |matches.items| && At(MapValue(matches.items[i]), "port") == Whole(port)
  }

  function TcpRoute(tree: Fields): Value {
    if TcpTable(tree).Arr? && TcpTable(tree).items != [] then At(MapValue(TcpTable(tree).items[0]), "route") else Null
  }

  lemma TcpShown(page: Page, routes: seq<Route>, destinations: seq<Value>)
    requires page.tcp
    ensures var tree := Render(page, routes, destinations);
            && (forall port :: Carried(tree, port) <==> page.port <= 0 || port == page.port)
            && TcpRoute(tree) == Arr(destinations)
  {
    var tree := Render(page, routes, destinations);
    var items := TcpTable(tree).items;
    assert items == [RenderTcp(page, destinations)];
    forall port ensures Carried(tree, port) <==> page.port <= 0 || port == page.port {
      WholeWeight(port);
      WholeWeight(page.port);
      if page.port > 0 {
        var matches := At(MapValue(items[0]), "match").items;
        assert matches == [Obj(map["port" := Whole(page.port)])];
        assert At(MapValue(matches[0]), "port") == Whole(page.port);
      }
    }
  }

  /** The tree says for which hosts and at which gateways, keeps its head, and has what each route adds. */
  predicate Addressed(tree: Fields, page: Page, routes: seq<Route>) {
    var spec := MapValue(At(tree, "spec"));
    && At(spec, "hosts") == page.hosts && At(spec, "gateways") == page.gateways
    && SameBut(page.head, tree, {"spec"})
    && (!page.tcp ==>
          && At(spec, "http").Arr? && |At(spec, "http").items| == |routes|
          && forall i :: 0 <= i < |routes| ==> Extended(MapValue(At(spec, "http").items[i]), page.extras(routes[i])))
  }

  /** A route has the name, timeout, retries, CORS policy and headers that are given for it. */
  predicate Extended(route: Fields, extras: Fields) {
    && At(route, "name") == At(extras, "name") && At(route, "timeout") == At(extras, "timeout")
    && At(route, "retries") == At(extras, "retries") && At(route, "corsPolicy") == At(extras, "corsPolicy")
    && At(route, "headers") == At(extras, "headers")
  }

  lemma RouteExtended(page: Page, route: Route, destinations: seq<Value>)
    ensures Extended(RenderRoute(page, route, destinations).fields, page.extras(route))
  {
    ExtrasAre(page, route);
  }

  lemma ExtrasAre(page: Page, route: Route)
    ensures forall k :: k in EXTRAS ==> At(ExtraFields(page, route), k) == At(page.extras(route), k)
  {
  }

  lemma RenderAddressed(page: Page, routes: seq<Route>, destinations: seq<Value>)
    ensures Addressed(Render(page, routes, destinations), page, routes)
  {
    forall i | 0 <= i < |routes|
      ensures Extended(RenderRoute(page, routes[i], destinations).fields, page.extras(routes[i]))
    {
      RouteExtended(page, routes[i], destinations);
    }
  }

  /**
   * buildRuleVirtualService, from the rule to the tree that is applied: every request is treated as the rule asks.
   * One that may pass is sent to the given destinations, one that lacks the key or a required header is answered 401,
   * one that is denied 403, and no other is taken. A TCP rule sends its port's connections to the destinations.
   */
  method PublishRule(rule: Rule, page: Page, destinations: seq<Value>) returns (tree: Fields, routes: seq<Route>)
    ensures tree == Render(page, routes, destinations)
    ensures !page.tcp ==> forall req :: Treats(tree, req) == Shown(Expected(rule, req), destinations)
    ensures page.tcp ==> forall port :: Carried(tree, port) <==> page.port <= 0 || port == page.port
    ensures page.tcp ==> TcpRoute(tree) == Arr(destinations)
    ensures Addressed(tree, page, routes)
  {
    routes := BuildRuleHTTPRoutes(rule);
    tree := Render(page, routes, destinations);
    forall req | !page.tcp ensures Treats(tree, req) == Shown(Expected(rule, req), destinations) {
      RoutesShown(page, routes, destinations, req);
    }
    if page.tcp { TcpShown(page, routes, destinations); }
    RenderAddressed(page, routes, destinations);
  }
}
