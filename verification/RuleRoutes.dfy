/** The ordered HTTP routes of a rule, under first-match semantics. */
module RuleRoutes {
  import opened Text
  import opened RulePaths

  /** The part of a rule that decides which requests it forwards. */
  datatype Rule = Rule(
    paths: seq<string>, methods: seq<string>, action: string, authMode: string,
    apiKeyHeader: string, apiKeys: seq<string>, requiredHeaders: seq<string>)

  /** Header names are in lower case, as the proxy sees them. */
  datatype Request = Request(verb: string, host: string, path: string, headers: map<string, string>)

  datatype Option<T> = None | Some(value: T)

  /** A header test: an exact value, or the regular expression `.+`. */
  datatype Test = Exact(value: string) | Present

  /** One entry of a route's `match` list. */
  datatype Match = Match(prefix: Option<string>, verb: Option<string>, headers: map<string, Test>)

  datatype Action = Forward | Respond(status: nat)

  /** A route without `match` entries matches every request. */
  datatype Route = Route(matches: seq<Match>, action: Action)

  datatype Answer = Forwarded | Responded(status: nat) | Unmatched

  predicate HasHeader(req: Request, header: string) {
    header in req.headers && req.headers[header] != ""
  }

  predicate Passes(test: Test, req: Request, header: string) {
    match test
    case Exact(value) => header in req.headers && req.headers[header] == value
    case Present => HasHeader(req, header)
  }

  predicate HeadersPass(headers: map<string, Test>, req: Request) {
    forall h :: h in headers ==> Passes(headers[h], req, h)
  }

  predicate Meets(m: Match, req: Request) {
    && (m.prefix.Some? ==> m.prefix.value <= req.path)
    && (m.verb.Some? ==> m.verb.value == req.verb)
    && HeadersPass(m.headers, req)
  }

  predicate AnyMeets(ms: seq<Match>, req: Request) {
    exists i :: 0 <= i < |ms| && Meets(ms[i], req)
  }

  /** The first matching route answers. */
  function Serve(routes: seq<Route>, req: Request): Answer {
    if routes == [] then Unmatched
    else if routes[0].matches == [] || AnyMeets(routes[0].matches, req) then
      if routes[0].action.Forward? then Forwarded else Responded(routes[0].action.status)
    else Serve(routes[1..], req)
  }

  // ---- what a rule asks for ----

  predicate IsDeny(rule: Rule) { ToLower(TrimSpace(rule.action)) == "deny" }

  predicate WantsKey(rule: Rule) { !IsDeny(rule) && ToLower(TrimSpace(rule.authMode)) == "apikey" }

  function HeaderName(raw: string): string { ToLower(TrimSpace(raw)) }

  function KeyHeader(rule: Rule): string {
    if HeaderName(rule.apiKeyHeader) == "" then "x-api-key" else HeaderName(rule.apiKeyHeader)
  }

  predicate IsKey(rule: Rule, key: string) {
    key != "" && exists i :: 0 <= i < |rule.apiKeys| && key == TrimSpace(rule.apiKeys[i])
  }

  predicate IsRequired(rule: Rule, header: string) {
    header != "" && exists i :: 0 <= i < |rule.requiredHeaders| && header == HeaderName(rule.requiredHeaders[i])
  }

  function MethodName(raw: string): string { ToUpper(TrimSpace(raw)) }

  predicate IsMethod(methods: seq<string>, name: string) {
    name != "" && exists i :: 0 <= i < |methods| && name == MethodName(methods[i])
  }

  predicate AllBlank(methods: seq<string>) {
    forall i :: 0 <= i < |methods| ==> MethodName(methods[i]) == ""
  }

  /** No `match` entry is built, and every request is taken. */
  predicate Unconstrained(paths: seq<string>, methods: seq<string>) {
    if methods == [] then paths == [] else AllBlank(methods)
  }

  function PathsOrRoot(paths: seq<string>): seq<string> {
    if paths == [] then ["/"] else paths
  }

  /** The path and method base as it is compiled. */
  predicate Base(rule: Rule, req: Request) {
    || Unconstrained(rule.paths, rule.methods)
    || (RoutePath(PathsOrRoot(rule.paths), req.path) && (rule.methods == [] || IsMethod(rule.methods, req.verb)))
  }

  /** Every required header is carried, and in API-key mode one of the keys. */
  ghost predicate Gate(rule: Rule, req: Request) {
    && (forall h :: IsRequired(rule, h) ==> HasHeader(req, h))
    && (WantsKey(rule) ==> KeyHeader(rule) in req.headers && IsKey(rule, req.headers[KeyHeader(rule)]))
  }

  ghost function Expected(rule: Rule, req: Request): Answer {
    if !Base(rule, req) then Unmatched
    else if IsDeny(rule) then Responded(403)
    else if Gate(rule, req) then Forwarded
    else Responded(401)
  }

  // ---- building ----

  predicate FromPath(path: string, methods: seq<string>, m: Match) {
    && m.headers == map[] && m.prefix == Some(Normal(path))
    && (if methods == [] then m.verb.None? else m.verb.Some? && IsMethod(methods, m.verb.value))
  }

  predicate FromPaths(paths: seq<string>, methods: seq<string>, m: Match) {
    exists i :: 0 <= i < |paths| && FromPath(paths[i], methods, m)
  }

  /** The entries one path adds for some methods. */
  method MatchesOfPath(path: string, methods: seq<string>) returns (ms: seq<Match>)
    ensures forall m :: m in ms <==> FromPath(path, methods, m)
  {
    if methods == [] { return [Match(Some(Normal(path)), None, map[])]; }
    ms := [];
    for j := 0 to |methods|
      invariant forall m :: m in ms <==>
        m.headers == map[] && m.prefix == Some(Normal(path)) && m.verb.Some? && IsMethod(methods[..j], m.verb.value)
    {
      MethodMore(methods, j);
      if TrimSpace(methods[j]) != "" {
        ms := ms + [Match(Some(Normal(path)), Some(MethodName(methods[j])), map[])];
      }
    }
    assert methods[..|methods|] == methods;
  }

  lemma MethodMore(methods: seq<string>, j: nat)
    requires j < |methods|
    ensures forall name :: IsMethod(methods[..j + 1], name) <==>
              IsMethod(methods[..j], name) || (name != "" && name == MethodName(methods[j]))
    ensures MethodName(methods[j]) == "" <==> TrimSpace(methods[j]) == ""
  {
    var front, more := methods[..j], methods[..j + 1];
    assert more[j] == methods[j] && forall i :: 0 <= i < j ==> more[i] == front[i];
    forall name ensures IsMethod(front, name) ==> IsMethod(more, name) {
      if IsMethod(front, name) {
        var i :| 0 <= i < |front| && name == MethodName(front[i]);
        assert name == MethodName(more[i]);
      }
    }
  }

  /** buildRuleHTTPMatches. */
  method BuildRuleHTTPMatches(paths: seq<string>, methods: seq<string>) returns (ms: seq<Match>)
    ensures if paths == [] && methods == [] then ms == []
            else forall m :: m in ms <==> FromPaths(PathsOrRoot(paths), methods, m)
  {
    if paths == [] && methods == [] { return []; }
    var ps := if paths == [] then ["/"] else paths;
    ms := [];
    for i := 0 to |ps|
      invariant forall m :: m in ms <==> FromPaths(ps[..i], methods, m)
    {
      var more := MatchesOfPath(ps[i], methods);
      PathMore(ps, methods, i);
      ms := ms + more;
    }
    assert ps[..|ps|] == ps;
  }

  lemma PathMore(paths: seq<string>, methods: seq<string>, i: nat)
    requires i < |paths|
    ensures forall m :: FromPaths(paths[..i + 1], methods, m) <==>
                        FromPaths(paths[..i], methods, m) || FromPath(paths[i], methods, m)
  {
    var front, more := paths[..i], paths[..i + 1];
    assert more[i] == paths[i] && forall k :: 0 <= k < i ==> more[k] == front[k];
    forall m ensures FromPaths(more, methods, m) <==> FromPaths(front, methods, m) || FromPath(paths[i], methods, m) {
      if FromPaths(front, methods, m) {
        var k :| 0 <= k < |front| && FromPath(front[k], methods, m);
        assert FromPath(more[k], methods, m);
      }
    }
  }

  /** The entries match what the base asks for, unless there are none and the route takes everything. */
  lemma BaseIsCompiled(rule: Rule, ms: seq<Match>)
    requires if rule.paths == [] && rule.methods == [] then ms == []
             else forall m :: m in ms <==> FromPaths(PathsOrRoot(rule.paths), rule.methods, m)
    ensures ms == [] <==> Unconstrained(rule.paths, rule.methods)
    ensures ms != [] ==> forall req :: AnyMeets(ms, req) <==> Base(rule, req)
    ensures forall m :: m in ms ==> m.headers == map[]
  {
    if !(rule.paths == [] && rule.methods == []) {
      EntriesExist(rule, ms);
      forall req: Request ensures AnyMeets(ms, req) <==> EntryFits(rule, req) {
        EntriesFit(rule, ms, req);
      }
    }
  }

  predicate EntryFits(rule: Rule, req: Request) {
    RoutePath(PathsOrRoot(rule.paths), req.path) && (rule.methods == [] || IsMethod(rule.methods, req.verb))
  }

  lemma EntriesExist(rule: Rule, ms: seq<Match>)
    requires !(rule.paths == [] && rule.methods == [])
    requires forall m :: m in ms <==> FromPaths(PathsOrRoot(rule.paths), rule.methods, m)
    ensures ms == [] <==> Unconstrained(rule.paths, rule.methods)
  {
    var paths := PathsOrRoot(rule.paths);
    if ms != [] {
      assert ms[0] in ms;
      assert !AllBlank(rule.methods) || rule.methods == [];
    }
    if rule.methods == [] || !AllBlank(rule.methods) {
      var m := EntryOf(paths, rule.methods);
      assert m in ms;
    }
  }

  /** A path and no methods, or one that is not blank, give an entry. */
  lemma EntryOf(paths: seq<string>, methods: seq<string>) returns (m: Match)
    requires paths != [] && (methods == [] || !AllBlank(methods))
    ensures FromPaths(paths, methods, m)
  {
    if methods == [] {
      m := Match(Some(Normal(paths[0])), None, map[]);
    } else {
      var i :| 0 <= i < |methods| && MethodName(methods[i]) != "";
      m := Match(Some(Normal(paths[0])), Some(MethodName(methods[i])), map[]);
    }
    assert FromPath(paths[0], methods, m);
  }

  lemma EntriesFit(rule: Rule, ms: seq<Match>, req: Request)
    requires !(rule.paths == [] && rule.methods == [])
    requires forall m :: m in ms <==> FromPaths(PathsOrRoot(rule.paths), rule.methods, m)
    ensures AnyMeets(ms, req) <==> EntryFits(rule, req)
  {
    if AnyMeets(ms, req) {
      var i :| 0 <= i < |ms| && Meets(ms[i], req);
      assert ms[i] in ms;
      EntryTaken(PathsOrRoot(rule.paths), rule.methods, ms[i], req);
    }
    if EntryFits(rule, req) {
      var m := EntryFor(PathsOrRoot(rule.paths), rule.methods, req);
      assert m in ms;
      var i :| 0 <= i < |ms| && ms[i] == m;
    }
  }

  lemma EntryTaken(paths: seq<string>, methods: seq<string>, m: Match, req: Request)
    requires FromPaths(paths, methods, m) && Meets(m, req)
    ensures RoutePath(paths, req.path) && (methods == [] || IsMethod(methods, req.verb))
  {
    var k :| 0 <= k < |paths| && FromPath(paths[k], methods, m);
    assert Normal(paths[k]) <= req.path;
  }

  lemma EntryFor(paths: seq<string>, methods: seq<string>, req: Request) returns (m: Match)
    requires paths != [] && RoutePath(paths, req.path) && (methods == [] || IsMethod(methods, req.verb))
    ensures FromPaths(paths, methods, m) && Meets(m, req)
  {
    var k :| 0 <= k < |paths| && Normal(paths[k]) <= req.path;
    m := Match(Some(Normal(paths[k])), if methods == [] then None else Some(req.verb), map[]);
    assert FromPath(paths[k], methods, m);
  }

  // ---- the gate ----

  /** normalizeHeaderNames. */
  method NormalizeHeaderNames(values: seq<string>) returns (out: seq<string>)
    ensures forall h :: h in out <==> h != "" && exists i :: 0 <= i < |values| && h == HeaderName(values[i])
  {
    var all: seq<string> := [];
    for i := 0 to |values|
      invariant forall h :: h in all <==> h != "" && exists k :: 0 <= k < i && h == HeaderName(values[k])
    {
      var header := HeaderName(values[i]);
      if header != "" { all := all + [header]; }
    }
    forall h | h in all ensures TrimSpace(h) == h {
      var k :| 0 <= k < |values| && h == HeaderName(values[k]);
      NameIsTrimmed(values[k]);
    }
    out := UniqueStrings(all);
    TrimmedStay(all, out);
  }

  lemma NameIsTrimmed(raw: string)
    ensures TrimSpace(HeaderName(raw)) == HeaderName(raw)
  {
    TrimSpaceTrims(raw);
    LowerKeepsTrimmed(TrimSpace(raw));
    TrimSpaceTrims(HeaderName(raw));
  }

  lemma TrimmedStay(all: seq<string>, out: seq<string>)
    requires forall s :: s in out <==> s != "" && exists i :: 0 <= i < |all| && s == TrimSpace(all[i])
    requires forall s :: s in all ==> TrimSpace(s) == s && s != ""
    ensures forall s :: s in out <==> s in all
  {
    forall s | s in all ensures s in out {
      var i :| 0 <= i < |all| && all[i] == s;
      assert s == TrimSpace(all[i]);
    }
  }

  /** withMatchHeaders. */
  method WithMatchHeaders(ms: seq<Match>, headers: map<string, Test>) returns (out: seq<Match>)
    ensures |out| == |ms| && forall i :: 0 <= i < |ms| ==> out[i] == ms[i].(headers := headers)
  {
    out := [];
    for k := 0 to |ms|
      invariant |out| == k && forall i :: 0 <= i < k ==> out[i] == ms[i].(headers := headers)
    {
      out := out + [ms[k].(headers := headers)];
    }
  }

  predicate Bare(ms: seq<Match>) {
    forall m :: m in ms ==> m.headers == map[]
  }

  lemma HeadersAdded(ms: seq<Match>, headers: map<string, Test>, out: seq<Match>, req: Request)
    requires Bare(ms) && |out| == |ms| && forall i :: 0 <= i < |ms| ==> out[i] == ms[i].(headers := headers)
    ensures AnyMeets(out, req) <==> AnyMeets(ms, req) && HeadersPass(headers, req)
  {
    if AnyMeets(out, req) {
      var i :| 0 <= i < |out| && Meets(out[i], req);
      assert ms[i] in ms;
      assert Meets(ms[i], req);
    }
    if AnyMeets(ms, req) && HeadersPass(headers, req) {
      var i :| 0 <= i < |ms| && Meets(ms[i], req);
      assert Meets(out[i], req);
    }
  }

  /** One copy of the base for every key, each with the required headers and that key. */
  method KeyedMatches(base: seq<Match>, required: map<string, Test>, header: string, keys: seq<string>)
    returns (ms: seq<Match>)
    requires Bare(base)
    ensures forall req :: AnyMeets(ms, req) <==>
      exists k :: 0 <= k < |keys| && AnyMeets(base, req) && HeadersPass(required[header := Exact(keys[k])], req)
    ensures base != [] && keys != [] ==> ms != []
  {
    ms := [];
    for i := 0 to |keys|
      invariant forall req :: AnyMeets(ms, req) <==>
        exists k :: 0 <= k < i && AnyMeets(base, req) && HeadersPass(required[header := Exact(keys[k])], req)
      invariant base != [] && i > 0 ==> ms != []
    {
      var more := WithMatchHeaders(base, required[header := Exact(keys[i])]);
      forall req: Request ensures AnyMeets(ms + more, req) <==> AnyMeets(ms, req) || AnyMeets(more, req) {
        AnyOfTwo(ms, more, req);
      }
      forall req: Request
        ensures AnyMeets(more, req) <==> AnyMeets(base, req) && HeadersPass(required[header := Exact(keys[i])], req)
      {
        HeadersAdded(base, required[header := Exact(keys[i])], more, req);
      }
      ms := ms + more;
    }
  }

  lemma AnyOfTwo(a: seq<Match>, b: seq<Match>, req: Request)
    ensures AnyMeets(a + b, req) <==> AnyMeets(a, req) || AnyMeets(b, req)
  {
    if AnyMeets(a, req) {
      var i :| 0 <= i < |a| && Meets(a[i], req);
      assert Meets((a + b)[i], req);
    }
    if AnyMeets(b, req) {
      var i :| 0 <= i < |b| && Meets(b[i], req);
      assert Meets((a + b)[|a| + i], req);
    }
  }

  predicate Gated(rule: Rule) {
    WantsKey(rule) || exists i :: 0 <= i < |rule.requiredHeaders| && HeaderName(rule.requiredHeaders[i]) != ""
  }

  /** The requests that a list of entries takes; an empty base list counts as one entry without conditions. */
  predicate Takes(ms: seq<Match>, req: Request) { ms == [] || AnyMeets(ms, req) }

  /** edgePositiveMatches, given the base entries. Without keys an API-key rule has no positive entries. */
  method EdgePositiveMatches(rule: Rule, entries: seq<Match>) returns (ms: seq<Match>, gated: bool)
    requires !IsDeny(rule) && Bare(entries)
    ensures gated <==> Gated(rule)
    ensures gated ==> forall req :: AnyMeets(ms, req) <==> Takes(entries, req) && Gate(rule, req)
  {
    var names := NormalizeHeaderNames(rule.requiredHeaders);
    RequiredMeans(rule, names);
    if !WantsKey(rule) && names == [] { return [], false; }
    gated := true;
    var base := if entries == [] then [Match(None, None, map[])] else entries;
    var required: map<string, Test> := map h | h in names :: Present;
    assert forall req :: AnyMeets(base, req) <==> Takes(entries, req) by { BareTakes(entries, base); }
    if !WantsKey(rule) {
      ms := WithMatchHeaders(base, required);
      PlainGate(rule, base, required, ms, names);
      return;
    }
    var keys := UniqueStrings(rule.apiKeys);
    if keys == [] {
      NoKeys(rule, keys);
      return [], true;
    }
    ms := KeyedMatches(base, required, KeyHeader(rule), keys);
    KeyedGate(rule, required, names, keys);
  }

  lemma BareTakes(entries: seq<Match>, base: seq<Match>)
    requires base == if entries == [] then [Match(None, None, map[])] else entries
    ensures forall req :: AnyMeets(base, req) <==> Takes(entries, req)
  {
    forall req: Request ensures AnyMeets(base, req) <==> Takes(entries, req) {
      assert entries == [] ==> Meets(base[0], req);
    }
  }

  lemma RequiredMeans(rule: Rule, names: seq<string>)
    requires forall h :: h in names <==>
      h != "" && exists i :: 0 <= i < |rule.requiredHeaders| && h == HeaderName(rule.requiredHeaders[i])
    ensures forall h :: h in names <==> IsRequired(rule, h)
    ensures names != [] <==> exists i :: 0 <= i < |rule.requiredHeaders| && HeaderName(rule.requiredHeaders[i]) != ""
  {
    if i :| 0 <= i < |rule.requiredHeaders| && HeaderName(rule.requiredHeaders[i]) != "" {
      assert HeaderName(rule.requiredHeaders[i]) in names;
    }
    assert names == [] || names[0] in names;
  }

  lemma PlainGate(rule: Rule, base: seq<Match>, required: map<string, Test>, ms: seq<Match>, names: seq<string>)
    requires !WantsKey(rule) && Bare(base) && required == map h | h in names :: Present
    requires forall h :: h in names <==> IsRequired(rule, h)
    requires |ms| == |base| && forall i :: 0 <= i < |base| ==> ms[i] == base[i].(headers := required)
    ensures forall req :: AnyMeets(ms, req) <==> AnyMeets(base, req) && Gate(rule, req)
  {
    forall req: Request ensures AnyMeets(ms, req) <==> AnyMeets(base, req) && Gate(rule, req) {
      HeadersAdded(base, required, ms, req);
      assert forall h :: h in required <==> IsRequired(rule, h);
      assert HeadersPass(required, req) <==> forall h :: h in required ==> HasHeader(req, h);
    }
  }

  lemma NoKeys(rule: Rule, keys: seq<string>)
    requires WantsKey(rule) && keys == []
    requires forall s :: s in keys <==> s != "" && exists i :: 0 <= i < |rule.apiKeys| && s == TrimSpace(rule.apiKeys[i])
    ensures forall req :: !Gate(rule, req)
  {
    assert forall s :: IsKey(rule, s) ==> s in keys;
  }

  lemma KeyedGate(rule: Rule, required: map<string, Test>, names: seq<string>, keys: seq<string>)
    requires WantsKey(rule) && required == map h | h in names :: Present
    requires forall h :: h in names <==> IsRequired(rule, h)
    requires forall s :: s in keys <==> s != "" && exists i :: 0 <= i < |rule.apiKeys| && s == TrimSpace(rule.apiKeys[i])
    ensures forall req :: Gate(rule, req) <==>
      exists k :: 0 <= k < |keys| && HeadersPass(required[KeyHeader(rule) := Exact(keys[k])], req)
  {
    forall req: Request
      ensures Gate(rule, req) <==>
        exists k :: 0 <= k < |keys| && HeadersPass(required[KeyHeader(rule) := Exact(keys[k])], req)
    {
      OneKeyedGate(required, KeyHeader(rule), names, keys, req);
      assert forall s :: s in keys <==> IsKey(rule, s);
    }
  }

  lemma OneKeyedGate(required: map<string, Test>, header: string, names: seq<string>, keys: seq<string>, req: Request)
    requires required == map h | h in names :: Present
    requires forall k :: k in keys ==> k != ""
    ensures (exists k :: 0 <= k < |keys| && HeadersPass(required[header := Exact(keys[k])], req)) <==>
            (forall h :: h in names ==> HasHeader(req, h)) && header in req.headers && req.headers[header] in keys
  {
    if k :| 0 <= k < |keys| && HeadersPass(required[header := Exact(keys[k])], req) {
      var tests := required[header := Exact(keys[k])];
      assert Passes(tests[header], req, header) && keys[k] in keys;
      forall h | h in names ensures HasHeader(req, h) {
        assert h in tests && Passes(tests[h], req, h);
      }
    }
    if (forall h :: h in names ==> HasHeader(req, h)) && header in req.headers && req.headers[header] in keys {
      var k :| 0 <= k < |keys| && keys[k] == req.headers[header];
      assert HeadersPass(required[header := Exact(keys[k])], req);
    }
  }

  // ---- the routes ----

  function Acts(action: Action): Answer {
    if action.Forward? then Forwarded else Responded(action.status)
  }

  lemma ServeOne(route: Route, req: Request)
    ensures Serve([route], req) == if Takes(route.matches, req) then Acts(route.action) else Unmatched
  {
  }

  lemma ServeTwo(first: Route, second: Route, req: Request)
    ensures Serve([first, second], req) ==
            if Takes(first.matches, req) then Acts(first.action)
            else if Takes(second.matches, req) then Acts(second.action) else Unmatched
  {
    assert [first, second][1..] == [second];
    ServeOne(second, req);
  }

  /** The routes of an allow rule, given its entries and its gate. */
  lemma GateIsServed(rule: Rule, matches: seq<Match>, positive: seq<Match>, routes: seq<Route>, req: Request)
    requires !IsDeny(rule) && (Takes(matches, req) <==> Base(rule, req))
    requires AnyMeets(positive, req) <==> Base(rule, req) && Gate(rule, req)
    requires routes == if positive == [] then [Route(matches, Respond(401))]
                       else [Route(positive, Forward), Route(matches, Respond(401))]
    ensures Serve(routes, req) == Expected(rule, req)
  {
    ServeOne(Route(matches, Respond(401)), req);
    ServeTwo(Route(positive, Forward), Route(matches, Respond(401)), req);
  }

  lemma NoGateIsOpen(rule: Rule, req: Request)
    requires !Gated(rule)
    ensures Gate(rule, req)
  {
  }

  /**
   * buildRuleHTTPRoutes. A request that meets the base is answered 403 by a deny rule; by an allow rule it is
   * forwarded if it passes the gate, and answered 401 if not.
   */
  method BuildRuleHTTPRoutes(rule: Rule) returns (routes: seq<Route>)
    ensures forall req :: Serve(routes, req) == Expected(rule, req)
  {
    var matches := BuildRuleHTTPMatches(rule.paths, rule.methods);
    BaseIsCompiled(rule, matches);
    assert forall req :: Takes(matches, req) <==> Base(rule, req);
    if IsDeny(rule) {
      routes := [Route(matches, Respond(403))];
      forall req: Request ensures Serve(routes, req) == Expected(rule, req) { ServeOne(routes[0], req); }
      return;
    }
    var positive, gated := EdgePositiveMatches(rule, matches);
    if gated {
      var fallback := Route(matches, Respond(401));
      routes := if positive == [] then [fallback] else [Route(positive, Forward), fallback];
      forall req: Request ensures Serve(routes, req) == Expected(rule, req) {
        GateIsServed(rule, matches, positive, routes, req);
      }
      return;
    }
    routes := [Route(matches, Forward)];
    forall req: Request ensures Serve(routes, req) == Expected(rule, req) {
      ServeOne(routes[0], req);
      NoGateIsOpen(rule, req);
    }
  }
}
