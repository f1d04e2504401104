/** What a rule means against what is compiled: the route base, and the operation of its deny policies. */
module RulePolicies {
  import opened Text
  import opened RulePaths
  import opened RuleRoutes

  /** A request target in origin form, section 3.2.1 of RFC 9112. */
  predicate OriginForm(req: Request) { "/" <= req.path }

  /** The path and method base as the rule states it: blank methods ask for nothing. */
  predicate Meant(rule: Rule, req: Request) {
    RoutePath(rule.paths, req.path) && (AllBlank(rule.methods) || IsMethod(rule.methods, req.verb))
  }

  /** Methods that are all blank, next to paths of which none is the root. */
  predicate BlankMethodsOverPaths(rule: Rule) {
    && rule.methods != [] && AllBlank(rule.methods)
    && rule.paths != [] && forall i :: 0 <= i < |rule.paths| ==> Normal(rule.paths[i]) != "/"
  }

  /** The compiled base is the stated one unless methods that are all blank make it drop the paths. */
  lemma BaseIsMeantIff(rule: Rule)
    ensures (forall req :: OriginForm(req) ==> (Base(rule, req) <==> Meant(rule, req))) <==>
            !BlankMethodsOverPaths(rule)
  {
    if BlankMethodsOverPaths(rule) {
      var req := Request("GET", "", "/", map[]);
      assert OriginForm(req) && Base(rule, req);
      assert !RoutePath(rule.paths, req.path) by { RootIsReachedByRoot(rule.paths, req.path); }
    } else {
      forall req | OriginForm(req) ensures Base(rule, req) <==> Meant(rule, req) {
        BaseIsMeant(rule, req);
      }
    }
  }

  lemma RootIsReachedByRoot(paths: seq<string>, x: string)
    requires x == "/" && paths != []
    ensures RoutePath(paths, x) <==> exists i :: 0 <= i < |paths| && Normal(paths[i]) == "/"
  {
    forall i | 0 <= i < |paths| ensures Normal(paths[i]) <= x <==> Normal(paths[i]) == "/" {
    }
  }

  lemma BaseIsMeant(rule: Rule, req: Request)
    requires OriginForm(req) && !BlankMethodsOverPaths(rule)
    ensures Base(rule, req) <==> Meant(rule, req)
  {
    NormalOfRoot("/");
    BlankNamesNothing(rule.methods, req.verb);
    if rule.paths == [] {
      assert Normal(PathsOrRoot(rule.paths)[0]) <= req.path;
    } else if rule.methods != [] && AllBlank(rule.methods) {
      var i :| 0 <= i < |rule.paths| && Normal(rule.paths[i]) == "/";
      assert Normal(rule.paths[i]) <= req.path;
    }
  }

  lemma NormalOfRoot(root: string)
    requires root == "/"
    ensures Normal(root) == root
  {
    TrimSpaceTrims(root);
    TrailingIs(root, IsStar, 1);
  }

  lemma BlankNamesNothing(methods: seq<string>, name: string)
    ensures AllBlank(methods) ==> !IsMethod(methods, name)
  {
  }

  // ---- policies ----

  /** The `operation` of an authorization policy; an empty list does not restrict. */
  datatype Operation = Operation(methods: seq<string>, paths: seq<string>, hosts: seq<string>)

  predicate Applies(op: Operation, req: Request) {
    && (op.methods == [] || req.verb in op.methods)
    && (op.paths == [] || exists i :: 0 <= i < |op.paths| && PatternMatches(op.paths[i], req.path))
    && (op.hosts == [] || req.host in op.hosts)
  }

  predicate IsHost(hosts: seq<string>, host: string) {
    host != "" && exists i :: 0 <= i < |hosts| && host == TrimSpace(hosts[i])
  }

  predicate NoHosts(hosts: seq<string>) {
    forall i :: 0 <= i < |hosts| ==> TrimSpace(hosts[i]) == ""
  }

  /** The requests a rule's policies speak of; those in the service's namespace name no hosts. */
  predicate Policed(rule: Rule, hosts: seq<string>, req: Request) {
    && (AllBlank(rule.methods) || IsMethod(rule.methods, req.verb)) && PolicyPath(rule.paths, req.path)
    && (NoHosts(hosts) || IsHost(hosts, req.host))
  }

  /** normalizePolicyMethods. */
  method NormalizePolicyMethods(methods: seq<string>) returns (out: seq<string>)
    ensures forall s :: s in out <==> IsMethod(methods, s)
  {
    var all: seq<string> := [];
    for i := 0 to |methods|
      invariant forall s :: s in all <==> s != "" && exists k :: 0 <= k < i && s == MethodName(methods[k])
    {
      var trimmed := MethodName(methods[i]);
      if trimmed != "" { all := all + [trimmed]; }
    }
    forall s | s in all ensures TrimSpace(s) == s {
      var k :| 0 <= k < |methods| && s == MethodName(methods[k]);
      VerbIsTrimmed(methods[k]);
    }
    out := UniqueStrings(all);
    TrimmedStay(all, out);
  }

  lemma VerbIsTrimmed(raw: string)
    ensures TrimSpace(MethodName(raw)) == MethodName(raw)
  {
    TrimSpaceTrims(raw);
    UpperKeepsTrimmed(TrimSpace(raw));
    TrimSpaceTrims(MethodName(raw));
  }

  /** edgeOperation. */
  method EdgeOperation(rule: Rule, hosts: seq<string>) returns (op: Operation)
    ensures forall req :: Applies(op, req) <==> Policed(rule, hosts, req)
  {
    var methods := NormalizePolicyMethods(rule.methods);
    var paths := ExpandDenyPolicyPaths(rule.paths);
    var cleaned := UniqueStrings(hosts);
    op := Operation(methods, paths, cleaned);
    forall req: Request ensures Applies(op, req) <==> Policed(rule, hosts, req) {
      VerbsAgree(rule.methods, methods, req.verb);
      PathsAgree(rule.paths, paths, req.path);
      HostsAgree(hosts, cleaned, req.host);
    }
  }

  lemma HostsAgree(hosts: seq<string>, out: seq<string>, host: string)
    requires forall s :: s in out <==> s != "" && exists i :: 0 <= i < |hosts| && s == TrimSpace(hosts[i])
    ensures out == [] || host in out <==> NoHosts(hosts) || IsHost(hosts, host)
  {
    if !NoHosts(hosts) {
      var i :| 0 <= i < |hosts| && TrimSpace(hosts[i]) != "";
      assert TrimSpace(hosts[i]) in out;
    }
    assert out == [] || out[0] in out;
  }

  lemma VerbsAgree(methods: seq<string>, out: seq<string>, verb: string)
    requires forall s :: s in out <==> IsMethod(methods, s)
    ensures out == [] || verb in out <==> AllBlank(methods) || IsMethod(methods, verb)
  {
    if !AllBlank(methods) {
      var i :| 0 <= i < |methods| && MethodName(methods[i]) != "";
      assert MethodName(methods[i]) in out;
    }
    assert out == [] || out[0] in out;
  }

  lemma PathsAgree(paths: seq<string>, out: seq<string>, x: string)
    requires forall s :: s in out <==> exists i :: 0 <= i < |paths| && IsPattern(paths[i], s)
    ensures out == [] || (exists i :: 0 <= i < |out| && PatternMatches(out[i], x)) <==> PolicyPath(paths, x)
  {
    assert out == [] || out[0] in out;
    if paths != [] {
      assert IsPattern(paths[0], TrimSpace(Normal(paths[0])));
      assert TrimSpace(Normal(paths[0])) in out;
      if k :| 0 <= k < |out| && PatternMatches(out[k], x) {
        PatternFrom(paths, out, k, x);
      }
      if PolicyPath(paths, x) {
        var i :| 0 <= i < |paths| && OnePolicyPath(paths[i], x);
        PatternFor(paths, i, out, x);
      }
    }
  }

  lemma PatternFrom(paths: seq<string>, out: seq<string>, k: nat, x: string)
    requires k < |out| && PatternMatches(out[k], x)
    requires forall s :: s in out <==> exists i :: 0 <= i < |paths| && IsPattern(paths[i], s)
    ensures PolicyPath(paths, x)
  {
    assert out[k] in out;
    var i :| 0 <= i < |paths| && IsPattern(paths[i], out[k]);
    assert OnePolicyPath(paths[i], x);
  }

  lemma PatternFor(paths: seq<string>, i: nat, out: seq<string>, x: string)
    requires i < |paths| && OnePolicyPath(paths[i], x)
    requires forall s :: s in out <==> exists k :: 0 <= k < |paths| && IsPattern(paths[k], s)
    ensures exists k :: 0 <= k < |out| && PatternMatches(out[k], x)
  {
    var first := TrimSpace(Normal(paths[i]));
    var second := StarOf(Normal(paths[i]));
    assert IsPattern(paths[i], first) && IsPattern(paths[i], second);
    var s := if PatternMatches(first, x) then first else second;
    assert IsPattern(paths[i], s);
    assert s in out;
  }

  /** Policies of a rule speak only of requests its routes take, exactly when every path is covered. */
  lemma PolicedWithinBaseIff(rule: Rule, hosts: seq<string>)
    ensures (forall req :: OriginForm(req) && Policed(rule, hosts, req) ==> Base(rule, req)) <==>
            Unconstrained(rule.paths, rule.methods) || forall i :: 0 <= i < |rule.paths| ==> Covered(rule.paths, i)
  {
    PolicyWithinRoutesIff(rule.paths);
    if !Unconstrained(rule.paths, rule.methods) {
      if forall req :: OriginForm(req) && Policed(rule, hosts, req) ==> Base(rule, req) {
        forall x | PolicyPath(rule.paths, x) ensures RoutePath(rule.paths, x) {
          PolicedPathIsRouted(rule, hosts, x);
        }
      }
      if forall x :: PolicyPath(rule.paths, x) ==> RoutePath(rule.paths, x) {
        forall req | OriginForm(req) && Policed(rule, hosts, req) ensures Base(rule, req) {
          RoutedIsBase(rule, req);
        }
      }
    }
  }

  lemma RoutedIsBase(rule: Rule, req: Request)
    requires !Unconstrained(rule.paths, rule.methods) && OriginForm(req) && RoutePath(rule.paths, req.path)
    requires AllBlank(rule.methods) || IsMethod(rule.methods, req.verb)
    ensures Base(rule, req)
  {
    NormalOfRoot("/");
    BlankNamesNothing(rule.methods, req.verb);
    assert rule.paths == [] ==> Normal(PathsOrRoot(rule.paths)[0]) <= req.path;
  }

  /** Paths whose normal form has no white space at its end are covered, so then it holds. */
  lemma SolidPolicedIsRouted(rule: Rule, hosts: seq<string>, req: Request)
    requires Solid(rule.paths) && OriginForm(req) && Policed(rule, hosts, req)
    ensures Base(rule, req)
  {
    forall i | 0 <= i < |rule.paths| ensures Covered(rule.paths, i) { SolidIsCovered(rule.paths, i); }
    PolicedWithinBaseIff(rule, hosts);
  }

  lemma PolicedPathIsRouted(rule: Rule, hosts: seq<string>, x: string)
    requires !Unconstrained(rule.paths, rule.methods) && PolicyPath(rule.paths, x)
    requires forall req :: OriginForm(req) && Policed(rule, hosts, req) ==> Base(rule, req)
    ensures RoutePath(rule.paths, x)
  {
    if rule.paths != [] {
      var i :| 0 <= i < |rule.paths| && OnePolicyPath(rule.paths[i], x);
      PolicyPathStartsWithSlash(rule.paths[i], x);
      var verb := SomeVerb(rule.methods);
      var req := Request(verb, SomeHost(hosts), x, map[]);
      assert OriginForm(req) && Policed(rule, hosts, req);
    }
  }

  function SomeHost(hosts: seq<string>): (host: string)
    ensures NoHosts(hosts) || IsHost(hosts, host)
  {
    if hosts == [] then ""
    else if TrimSpace(hosts[0]) != "" then TrimSpace(hosts[0])
    else
      assert forall i :: 0 <= i < |hosts[1..]| ==> hosts[1..][i] == hosts[i + 1];
      SomeHost(hosts[1..])
  }

  lemma SomeVerb(methods: seq<string>) returns (verb: string)
    requires methods == [] || !AllBlank(methods)
    ensures AllBlank(methods) || IsMethod(methods, verb)
  {
    verb := "GET";
    if methods != [] {
      var i :| 0 <= i < |methods| && MethodName(methods[i]) != "";
      verb := MethodName(methods[i]);
    }
  }

  lemma PolicyPathStartsWithSlash(raw: string, x: string)
    requires OnePolicyPath(raw, x)
    ensures "/" <= x
  {
    TrimKeepsHead(Normal(raw));
    var first := TrimSpace(Normal(raw));
    assert PatternMatches(first, x) ==> x != [] && x[0] == '/';
  }
}
