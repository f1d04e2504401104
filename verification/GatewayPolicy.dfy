/** The policy of a rule at its gateway: a list of entries, each of which denies the requests it applies to. */
module GatewayPolicy {
  import opened Text
  import opened RulePaths
  import opened RuleRoutes
  import opened RulePolicies

  /** What only the gateway checks of a rule. */
  datatype Access = Access(ipPolicy: string, ipList: seq<string>, requiredScopes: seq<string>)

  /** Who sends a request: from where, with an accepted token or without, and the scopes that token claims. */
  datatype Caller = Caller(address: string, principal: bool, scopes: set<string>)

  /** What an entry asks beside its operation: `notRemoteIpBlocks`, `remoteIpBlocks`, `notRequestPrincipals`, `when`. */
  datatype Condition =
    | Always
    | Outside(blocks: seq<string>)
    | Inside(blocks: seq<string>)
    | WithoutPrincipal
    | WithoutScope(scope: string)
    | HeaderNotIn(header: string, values: seq<string>)

  datatype Entry = Entry(op: Operation, condition: Condition)

  /** `within` says whether an address lies in a block. */
  predicate Holds(c: Condition, req: Request, caller: Caller, within: (string, string) -> bool) {
    match c
    case Always => true
    case Outside(blocks) => forall i :: 0 <= i < |blocks| ==> !within(caller.address, blocks[i])
    case Inside(blocks) => exists i :: 0 <= i < |blocks| && within(caller.address, blocks[i])
    case WithoutPrincipal => !caller.principal
    case WithoutScope(scope) => scope !in caller.scopes
    case HeaderNotIn(header, values) => !(header in req.headers && req.headers[header] in values)
  }

  predicate Denies(entries: seq<Entry>, req: Request, caller: Caller, within: (string, string) -> bool) {
    exists i :: 0 <= i < |entries| && Applies(entries[i].op, req) && Holds(entries[i].condition, req, caller, within)
  }

  // ---- what a rule forbids ----

  predicate IsBlock(access: Access, block: string) {
    block != "" && exists i :: 0 <= i < |access.ipList| && block == TrimSpace(access.ipList[i])
  }

  /** The address is on no block of an allow list that names some, or on a block of a block list. */
  ghost predicate OffLimits(access: Access, caller: Caller, within: (string, string) -> bool) {
    var kind := ToLower(TrimSpace(access.ipPolicy));
    || (kind == "allowlist" && (exists b :: IsBlock(access, b))
        && forall b :: IsBlock(access, b) ==> !within(caller.address, b))
    || (kind == "blocklist" && exists b :: IsBlock(access, b) && within(caller.address, b))
  }

  predicate IsScope(access: Access, scope: string) {
    scope != "" && exists i :: 0 <= i < |access.requiredScopes| && scope == TrimSpace(access.requiredScopes[i])
  }

  predicate WantsToken(rule: Rule) { ToLower(TrimSpace(rule.authMode)) == "jwt" }

  /** A token is asked for, and there is none, or it lacks a scope. */
  ghost predicate Unproven(rule: Rule, access: Access, caller: Caller) {
    WantsToken(rule) && (!caller.principal || exists scope :: IsScope(access, scope) && scope !in caller.scopes)
  }

  /** One of some keys is asked for, and the header has none of them. */
  ghost predicate BadKey(rule: Rule, req: Request) {
    WantsKey(rule) && (exists key :: IsKey(rule, key))
    && !(KeyHeader(rule) in req.headers && IsKey(rule, req.headers[KeyHeader(rule)]))
  }

  /** A rule that denies forbids everything; one that allows, what comes from the wrong place or without proof. */
  ghost predicate Forbidden(rule: Rule, access: Access, req: Request, caller: Caller, within: (string, string) -> bool) {
    IsDeny(rule) || OffLimits(access, caller, within) || Unproven(rule, access, caller) || BadKey(rule, req)
  }

  // ---- the entries ----

  /** The conditions under which some entry of an operation denies. */
  ghost predicate AnyHolds(conditions: seq<Condition>, req: Request, caller: Caller, within: (string, string) -> bool) {
    exists i :: 0 <= i < |conditions| && Holds(conditions[i], req, caller, within)
  }

  lemma AnyOfBoth(a: seq<Condition>, b: seq<Condition>, req: Request, caller: Caller, within: (string, string) -> bool)
    ensures AnyHolds(a + b, req, caller, within) <==> AnyHolds(a, req, caller, within) || AnyHolds(b, req, caller, within)
  {
    if i :| 0 <= i < |a| && Holds(a[i], req, caller, within) { assert Holds((a + b)[i], req, caller, within); }
    if i :| 0 <= i < |b| && Holds(b[i], req, caller, within) { assert Holds((a + b)[|a| + i], req, caller, within); }
  }

  lemma AnyOfOne(c: Condition)
    ensures forall req, caller, within :: AnyHolds([c], req, caller, within) <==> Holds(c, req, caller, within)
  {
    forall req: Request, caller: Caller, within: (string, string) -> bool
      ensures AnyHolds([c], req, caller, within) <==> Holds(c, req, caller, within)
    {
      assert Holds([c][0], req, caller, within) <==> Holds(c, req, caller, within);
    }
  }

  /** The part of the IP lists. */
  method IpConditions(access: Access) returns (out: seq<Condition>)
    ensures forall req, caller, within :: AnyHolds(out, req, caller, within) <==> OffLimits(access, caller, within)
  {
    out := [];
    var blocks := UniqueStrings(access.ipList);
    BlocksAre(access, blocks);
    match ToLower(TrimSpace(access.ipPolicy)) {
      case "allowlist" => if |blocks| > 0 { out := [Outside(blocks)]; }
      case "blocklist" => if |blocks| > 0 { out := [Inside(blocks)]; }
      case _ =>
    }
    forall req: Request, caller: Caller, within: (string, string) -> bool
      ensures AnyHolds(out, req, caller, within) <==> OffLimits(access, caller, within)
    {
      BlocksHold(access, blocks, out, req, caller, within);
    }
  }

  lemma BlocksAre(access: Access, blocks: seq<string>)
    requires forall s :: s in blocks <==> s != "" && exists i :: 0 <= i < |access.ipList| && s == TrimSpace(access.ipList[i])
    ensures forall b :: b in blocks <==> IsBlock(access, b)
  {
  }

  lemma BlocksHold(access: Access, blocks: seq<string>, out: seq<Condition>, req: Request, caller: Caller,
                   within: (string, string) -> bool)
    requires forall b :: b in blocks <==> IsBlock(access, b)
    requires var kind := ToLower(TrimSpace(access.ipPolicy));
             out == if kind == "allowlist" && blocks != [] then [Outside(blocks)]
                    else if kind == "blocklist" && blocks != [] then [Inside(blocks)] else []
    ensures AnyHolds(out, req, caller, within) <==> OffLimits(access, caller, within)
  {
    assert blocks != [] ==> blocks[0] in blocks;
    assert (exists i :: 0 <= i < |blocks| && within(caller.address, blocks[i])) <==>
           (exists b :: b in blocks && within(caller.address, b));
    if |out| == 1 { AnyOfOne(out[0]); }
  }

  /** The part of the token. */
  method TokenConditions(rule: Rule, access: Access) returns (out: seq<Condition>)
    ensures forall req, caller, within :: AnyHolds(out, req, caller, within) <==> Unproven(rule, access, caller)
  {
    out := [];
    if !WantsToken(rule) { return; }
    out := [WithoutPrincipal];
    AnyOfOne(WithoutPrincipal);
    var scopes := NormalizeScopes(access.requiredScopes);
    for i := 0 to |scopes|
      invariant forall req, caller, within :: AnyHolds(out, req, caller, within) <==>
        !caller.principal || exists k :: 0 <= k < i && scopes[k] !in caller.scopes
    {
      forall req: Request, caller: Caller, within: (string, string) -> bool
        ensures AnyHolds(out + [WithoutScope(scopes[i])], req, caller, within) <==>
          AnyHolds(out, req, caller, within) || scopes[i] !in caller.scopes
      {
        AnyOfBoth(out, [WithoutScope(scopes[i])], req, caller, within);
        AnyOfOne(WithoutScope(scopes[i]));
      }
      out := out + [WithoutScope(scopes[i])];
    }
    forall caller: Caller
      ensures (exists k :: 0 <= k < |scopes| && scopes[k] !in caller.scopes) <==>
              exists scope :: IsScope(access, scope) && scope !in caller.scopes
    {
      assert forall scope :: IsScope(access, scope) <==> scope in scopes;
    }
  }

  /** normalizeScopes. */
  method NormalizeScopes(values: seq<string>) returns (out: seq<string>)
    ensures forall s :: s in out <==> s != "" && exists i :: 0 <= i < |values| && s == TrimSpace(values[i])
  {
    var all: seq<string> := [];
    for i := 0 to |values|
      invariant forall s :: s in all <==> s != "" && exists k :: 0 <= k < i && s == TrimSpace(values[k])
    {
      var scope := TrimSpace(values[i]);
      if scope != "" { all := all + [scope]; }
    }
    forall s | s in all ensures TrimSpace(s) == s {
      var k :| 0 <= k < |values| && s == TrimSpace(values[k]);
      TrimSpaceTrims(values[k]);
      TrimSpaceTrims(s);
    }
    out := UniqueStrings(all);
    TrimmedStay(all, out);
  }

  /** The part of the keys. */
  method KeyConditions(rule: Rule) returns (out: seq<Condition>)
    requires !IsDeny(rule)
    ensures forall req, caller, within :: AnyHolds(out, req, caller, within) <==> BadKey(rule, req)
  {
    out := [];
    if !WantsKey(rule) { return; }
    var keys := UniqueStrings(rule.apiKeys);
    assert forall key :: IsKey(rule, key) <==> key in keys;
    if |keys| > 0 {
      out := [HeaderNotIn(KeyHeader(rule), keys)];
      assert keys[0] in keys;
    }
    forall req: Request, caller: Caller, within: (string, string) -> bool
      ensures AnyHolds(out, req, caller, within) <==> BadKey(rule, req)
    {
      if |out| == 1 { AnyOfOne(out[0]); }
    }
  }

  /** All the conditions, in the order of the entries. */
  method Conditions(rule: Rule, access: Access) returns (out: seq<Condition>)
    ensures forall req, caller, within :: AnyHolds(out, req, caller, within) <==>
              Forbidden(rule, access, req, caller, within)
  {
    if IsDeny(rule) {
      out := [Always];
      forall req: Request, caller: Caller, within: (string, string) -> bool ensures AnyHolds(out, req, caller, within) {
        assert Holds(out[0], req, caller, within);
      }
      return;
    }
    var a := IpConditions(access);
    var b := TokenConditions(rule, access);
    var c := KeyConditions(rule);
    out := a + b + c;
    forall req: Request, caller: Caller, within: (string, string) -> bool
      ensures AnyHolds(out, req, caller, within) <==> Forbidden(rule, access, req, caller, within)
    {
      AnyOfBoth(a + b, c, req, caller, within);
      AnyOfBoth(a, b, req, caller, within);
    }
  }

  /**
   * buildGatewayDenyRules. The gateway denies exactly those of the rule's requests, at the given hosts, that the rule
   * forbids.
   */
  method GatewayDenyRules(rule: Rule, access: Access, hosts: seq<string>) returns (entries: seq<Entry>)
    ensures forall req, caller, within :: Denies(entries, req, caller, within) <==>
              Policed(rule, hosts, req) && Forbidden(rule, access, req, caller, within)
  {
    var op := EdgeOperation(rule, hosts);
    var conditions := Conditions(rule, access);
    entries := [];
    for i := 0 to |conditions|
      invariant |entries| == i && forall k :: 0 <= k < i ==> entries[k] == Entry(op, conditions[k])
    {
      entries := entries + [Entry(op, conditions[i])];
    }
    forall req: Request, caller: Caller, within: (string, string) -> bool
      ensures Denies(entries, req, caller, within) <==> Applies(op, req) && AnyHolds(conditions, req, caller, within)
    {
      EntriesDeny(op, conditions, entries, req, caller, within);
    }
  }

  lemma EntriesDeny(op: Operation, conditions: seq<Condition>, entries: seq<Entry>, req: Request, caller: Caller,
                    within: (string, string) -> bool)
    requires |entries| == |conditions| && forall k :: 0 <= k < |entries| ==> entries[k] == Entry(op, conditions[k])
    ensures Denies(entries, req, caller, within) <==> Applies(op, req) && AnyHolds(conditions, req, caller, within)
  {
    if Applies(op, req) && AnyHolds(conditions, req, caller, within) {
      var i :| 0 <= i < |conditions| && Holds(conditions[i], req, caller, within);
      assert Applies(entries[i].op, req) && Holds(entries[i].condition, req, caller, within);
    }
  }

  /**
   * Gateway and routes agree on the keys of a rule that has some: what the gateway denies for its key the routes answer
   * 401, and they forward the rest, if it carries the required headers.
   */
  lemma KeyRuleAgrees(rule: Rule, hosts: seq<string>, req: Request)
    requires WantsKey(rule) && (exists key :: IsKey(rule, key)) && Policed(rule, hosts, req) && OriginForm(req)
    requires Unconstrained(rule.paths, rule.methods) || forall i :: 0 <= i < |rule.paths| ==> Covered(rule.paths, i)
    ensures BadKey(rule, req) ==> Expected(rule, req) == Responded(401)
    ensures (forall h :: IsRequired(rule, h) ==> HasHeader(req, h)) && !BadKey(rule, req) ==> Expected(rule, req) == Forwarded
  {
    PolicedWithinBaseIff(rule, hosts);
  }
}
