/** What a rule deploy leaves in the cluster: ten keys that belong to the rule, and a filter that all rules share. */
module RuleReconcile {
  import opened Manifests
  import opened Cluster

  datatype Kind =
    | VirtualServiceKind | AuthorizationPolicyKind | RequestAuthenticationKind | EnvoyFilterKind
    | DestinationRuleKind | PeerAuthenticationKind | NetworkPolicyKind

  datatype Key = Key(kind: Kind, namespace: string, name: string)

  type Store = map<Key, Fields>

  datatype Wanted = Absent | Doc(doc: Fields)

  function Look(store: Store, k: Key): Wanted {
    if k in store then Doc(store[k]) else Absent
  }

  function Put(store: Store, k: Key, w: Wanted): Store {
    if w.Doc? then store[k := w.doc] else store - {k}
  }

  /** The names of the resources of one rule of one service, and the two namespaces they live in. */
  datatype Names = Names(
    app: string, gateway: string, virtualService: string, deny: string, jwt: string, requireAuth: string,
    edge: string, gatewayJwt: string, rateLimit: string, destination: string, peer: string, network: string)

  const SHARED_FILTER := "releasea-gateway-edge-filters"

  function VirtualServiceKey(n: Names): Key { Key(VirtualServiceKind, n.app, n.virtualService) }
  function DenyKey(n: Names): Key { Key(AuthorizationPolicyKind, n.app, n.deny) }
  function JwtKey(n: Names): Key { Key(RequestAuthenticationKind, n.app, n.jwt) }
  function RequireAuthKey(n: Names): Key { Key(AuthorizationPolicyKind, n.app, n.requireAuth) }
  function EdgeKey(n: Names): Key { Key(AuthorizationPolicyKind, n.gateway, n.edge) }
  function GatewayJwtKey(n: Names): Key { Key(RequestAuthenticationKind, n.gateway, n.gatewayJwt) }
  function RateLimitKey(n: Names): Key { Key(EnvoyFilterKind, n.gateway, n.rateLimit) }
  function DestinationKey(n: Names): Key { Key(DestinationRuleKind, n.app, n.destination) }
  function PeerKey(n: Names): Key { Key(PeerAuthenticationKind, n.app, n.peer) }
  function NetworkKey(n: Names): Key { Key(NetworkPolicyKind, n.app, n.network) }
  function SharedKey(n: Names): Key { Key(EnvoyFilterKind, n.gateway, SHARED_FILTER) }

  function EdgeKeys(n: Names): set<Key> {
    {EdgeKey(n), GatewayJwtKey(n), RateLimitKey(n), DestinationKey(n), PeerKey(n), NetworkKey(n)}
  }

  function Owned(n: Names): set<Key> {
    {VirtualServiceKey(n), DenyKey(n), JwtKey(n), RequireAuthKey(n)} + EdgeKeys(n)
  }

  /** The JWT part of a rule: none, one that lacks its issuer or key set, or the two resources it asks for. */
  datatype Jwt = NoJwt | Incomplete | Jwt(authentication: Fields, policy: Fields)

  /**
   * What a rule compiles to. `published` says whether any gateway is left once they are mapped; the edge resources
   * are absent where their builder returns nil.
   */
  datatype Compiled = Compiled(
    deny: bool, published: bool, virtualService: Fields, denyPolicy: Fields, jwt: Jwt,
    edge: Wanted, gatewayJwt: Wanted, rateLimit: Wanted, shared: Fields,
    destination: Wanted, peer: Wanted, network: Wanted)

  // ---- writes, in the order of the source ----

  /** An apply, or a delete. */
  datatype Write = Write(key: Key, wanted: Wanted)

  function Written(store: Store, ws: seq<Write>): Store {
    if ws == [] then store
    else Put(Written(store, ws[..|ws| - 1]), ws[|ws| - 1].key, ws[|ws| - 1].wanted)
  }

  /** The store after some of the writes, from the first on. */
  ghost predicate Partly(base: Store, store: Store, ws: seq<Write>) {
    exists j :: 0 <= j <= |ws| && store == Written(base, ws[..j])
  }

  /** cleanupJWTAccessResources. */
  function JwtCleanup(n: Names): seq<Write> {
    [Write(JwtKey(n), Absent), Write(RequireAuthKey(n), Absent)]
  }

  /** reconcileJWTAccessResources; with an incomplete JWT part it writes nothing and fails. */
  function JwtWrites(n: Names, c: Compiled): seq<Write> {
    match c.jwt
    case NoJwt => JwtCleanup(n)
    case Incomplete => []
    case Jwt(authentication, policy) => [Write(JwtKey(n), Doc(authentication)), Write(RequireAuthKey(n), Doc(policy))]
  }

  function FilterWrites(n: Names, c: Compiled): seq<Write> {
    if c.rateLimit.Doc? then [Write(SharedKey(n), Doc(c.shared)), Write(RateLimitKey(n), c.rateLimit)]
    else [Write(RateLimitKey(n), Absent)]
  }

  function GatewayWrites(n: Names, c: Compiled): seq<Write> {
    [Write(EdgeKey(n), c.edge), Write(GatewayJwtKey(n), c.gatewayJwt)]
  }

  function WorkloadWrites(n: Names, c: Compiled): seq<Write> {
    [Write(DestinationKey(n), c.destination), Write(PeerKey(n), c.peer), Write(NetworkKey(n), c.network)]
  }

  /** reconcileEdgeResources. */
  function EdgeWrites(n: Names, c: Compiled): seq<Write> {
    GatewayWrites(n, c) + FilterWrites(n, c) + WorkloadWrites(n, c)
  }

  /** cleanupEdgeResources. */
  function EdgeCleanup(n: Names): seq<Write> {
    [Write(EdgeKey(n), Absent), Write(GatewayJwtKey(n), Absent), Write(RateLimitKey(n), Absent),
     Write(DestinationKey(n), Absent), Write(PeerKey(n), Absent), Write(NetworkKey(n), Absent)]
  }

  /** The four paths of HandleRuleDeploy. */
  function DeployWrites(n: Names, c: Compiled): seq<Write> {
    if c.deny then
      if !c.published then
        JwtCleanup(n) + [Write(DenyKey(n), Absent), Write(VirtualServiceKey(n), Absent)] + JwtCleanup(n) + EdgeCleanup(n)
      else
        JwtCleanup(n) + [Write(DenyKey(n), Doc(c.denyPolicy)), Write(VirtualServiceKey(n), Absent)] + EdgeWrites(n, c)
    else if !c.published then
      [Write(VirtualServiceKey(n), Absent)] + JwtCleanup(n) + EdgeCleanup(n)
    else
      [Write(VirtualServiceKey(n), Doc(c.virtualService)), Write(DenyKey(n), Absent)] + JwtWrites(n, c) + EdgeWrites(n, c)
  }

  /** HandleRuleDelete, told the action the rule had. */
  function DeleteWrites(n: Names, deny: bool): seq<Write> {
    [Write(if deny then DenyKey(n) else VirtualServiceKey(n), Absent)] + JwtCleanup(n) + EdgeCleanup(n)
  }

  /** A published allow rule whose JWT part lacks its issuer or its key set. */
  predicate Stops(c: Compiled) { !c.deny && c.published && c.jwt.Incomplete? }

  // ---- the deploy ----

  class RuleSite {
    const n: Names
    const faults: nat -> Outcome
    var store: Store
    var calls: nat

    constructor (n: Names, store: Store, faults: nat -> Outcome)
      ensures this.n == n && this.store == store && this.faults == faults && calls == 0
    {
      this.n, this.store, this.faults, calls := n, store, faults, 0;
    }

    /** One apply, or one delete, after the writes `ws` onto `base`. */
    method Set(k: Key, w: Wanted, ghost base: Store, ghost ws: seq<Write>) returns (ok: bool)
      requires store == Written(base, ws)
      modifies this
      ensures ok ==> store == Written(base, ws + [Write(k, w)])
      ensures Partly(base, store, ws + [Write(k, w)]) && (ok <==> faults(old(calls)).Done?)
    {
      WrittenMore(base, ws, Write(k, w));
      var outcome := faults(calls);
      calls := calls + 1;
      if !outcome.Refused? { store := Put(store, k, w); }
      ok := outcome.Done?;
      assert (ws + [Write(k, w)])[..|ws|] == ws && (ws + [Write(k, w)])[..|ws| + 1] == ws + [Write(k, w)];
    }

    method CleanupJwt(ghost base: Store, ghost ws: seq<Write>) returns (ok: bool)
      requires store == Written(base, ws)
      modifies this
      ensures ok ==> store == Written(base, ws + JwtCleanup(n))
      ensures Partly(base, store, ws + JwtCleanup(n)) && (AllWell(faults) ==> ok)
    {
      ok := SetTwo(JwtKey(n), Absent, RequireAuthKey(n), Absent, base, ws);
    }

    /** Two writes, the second only if the first succeeds. */
    method SetTwo(k: Key, w: Wanted, l: Key, v: Wanted, ghost base: Store, ghost ws: seq<Write>) returns (ok: bool)
      requires store == Written(base, ws)
      modifies this
      ensures ok ==> store == Written(base, ws + [Write(k, w), Write(l, v)])
      ensures Partly(base, store, ws + [Write(k, w), Write(l, v)]) && (AllWell(faults) ==> ok)
    {
      assert ws + [Write(k, w)] + [Write(l, v)] == ws + [Write(k, w), Write(l, v)];
      ok := Set(k, w, base, ws);
      if !ok {
        PartlyMore(base, store, ws + [Write(k, w)], ws + [Write(k, w), Write(l, v)]);
        return;
      }
      ok := Set(l, v, base, ws + [Write(k, w)]);
    }

    method ReconcileJwt(c: Compiled, ghost base: Store, ghost ws: seq<Write>) returns (ok: bool)
      requires store == Written(base, ws)
      modifies this
      ensures ok ==> store == Written(base, ws + JwtWrites(n, c)) && !c.jwt.Incomplete?
      ensures Partly(base, store, ws + JwtWrites(n, c)) && (AllWell(faults) ==> (ok <==> !c.jwt.Incomplete?))
    {
      match c.jwt
      case NoJwt => ok := CleanupJwt(base, ws);
      case Incomplete =>
        assert ws + [] == ws && ws[..|ws|] == ws;
        return false;
      case Jwt(authentication, policy) =>
        ok := SetTwo(JwtKey(n), Doc(authentication), RequireAuthKey(n), Doc(policy), base, ws);
    }

    method ReconcileEdge(c: Compiled, ghost base: Store, ghost ws: seq<Write>) returns (ok: bool)
      requires store == Written(base, ws)
      modifies this
      ensures ok ==> store == Written(base, ws + EdgeWrites(n, c))
      ensures Partly(base, store, ws + EdgeWrites(n, c)) && (AllWell(faults) ==> ok)
    {
      ghost var all := ws + EdgeWrites(n, c);
      ghost var gateway, filter := ws + GatewayWrites(n, c), ws + GatewayWrites(n, c) + FilterWrites(n, c);
      assert gateway <= all && filter <= all && filter + WorkloadWrites(n, c) == all;
      ok := SetTwo(EdgeKey(n), c.edge, GatewayJwtKey(n), c.gatewayJwt, base, ws);
      if !ok { PartlyMore(base, store, gateway, all); return; }
      ok := ReconcileFilter(c, base, gateway);
      if !ok { PartlyMore(base, store, filter, all); return; }
      ok := ReconcileWorkload(c, base, filter);
    }

    /** The shared filter is applied before a route's own, and never deleted. */
    method ReconcileFilter(c: Compiled, ghost base: Store, ghost ws: seq<Write>) returns (ok: bool)
      requires store == Written(base, ws)
      modifies this
      ensures ok ==> store == Written(base, ws + FilterWrites(n, c))
      ensures Partly(base, store, ws + FilterWrites(n, c)) && (AllWell(faults) ==> ok)
    {
      if c.rateLimit.Doc? {
        ok := SetTwo(SharedKey(n), Doc(c.shared), RateLimitKey(n), c.rateLimit, base, ws);
      } else {
        ok := Set(RateLimitKey(n), Absent, base, ws);
      }
    }

    method ReconcileWorkload(c: Compiled, ghost base: Store, ghost ws: seq<Write>) returns (ok: bool)
      requires store == Written(base, ws)
      modifies this
      ensures ok ==> store == Written(base, ws + WorkloadWrites(n, c))
      ensures Partly(base, store, ws + WorkloadWrites(n, c)) && (AllWell(faults) ==> ok)
    {
      ghost var two := ws + [Write(DestinationKey(n), c.destination), Write(PeerKey(n), c.peer)];
      assert two + [Write(NetworkKey(n), c.network)] == ws + WorkloadWrites(n, c);
      ok := SetTwo(DestinationKey(n), c.destination, PeerKey(n), c.peer, base, ws);
      if !ok { PartlyMore(base, store, two, ws + WorkloadWrites(n, c)); return; }
      ok := Set(NetworkKey(n), c.network, base, two);
    }

    method CleanupEdge(ghost base: Store, ghost ws: seq<Write>) returns (ok: bool)
      requires store == Written(base, ws)
      modifies this
      ensures ok ==> store == Written(base, ws + EdgeCleanup(n))
      ensures Partly(base, store, ws + EdgeCleanup(n)) && (AllWell(faults) ==> ok)
    {
      var deletes := [EdgeKey(n), GatewayJwtKey(n), RateLimitKey(n), DestinationKey(n), PeerKey(n), NetworkKey(n)];
      ghost var cleanup := EdgeCleanup(n);
      ok := true;
      assert ws + cleanup[..0] == ws;
      assert ws[..|ws|] == ws;
      PartlyAll(base, ws);
      for i := 0 to |deletes|
        invariant ok && store == Written(base, ws + cleanup[..i]) && Partly(base, store, ws + cleanup[..i])
      {
        assert cleanup[i] == Write(deletes[i], Absent);
        OneMore(ws, cleanup, i);
        ok := Set(deletes[i], Absent, base, ws + cleanup[..i]);
        if !ok { PartlyMore(base, store, ws + cleanup[..i + 1], ws + cleanup); return; }
      }
      assert cleanup[..|deletes|] == cleanup;
    }

    /** Both cleanups. */
    method CleanupAccess(ghost base: Store, ghost ws: seq<Write>) returns (ok: bool)
      requires store == Written(base, ws)
      modifies this
      ensures ok ==> store == Written(base, ws + JwtCleanup(n) + EdgeCleanup(n))
      ensures Partly(base, store, ws + JwtCleanup(n) + EdgeCleanup(n)) && (AllWell(faults) ==> ok)
    {
      ok := CleanupJwt(base, ws);
      if !ok { PartlyMore(base, store, ws + JwtCleanup(n), ws + JwtCleanup(n) + EdgeCleanup(n)); return; }
      ok := CleanupEdge(base, ws + JwtCleanup(n));
    }

    /**
     * HandleRuleDeploy from the point where the rule is compiled. Whatever fails, the store has the writes of the
     * path up to some point, routes and denials hand over to one another, and keys that are not the rule's are left
     * alone. On success the rule's keys look as after
     * a deploy into an empty cluster, but for a deny policy that the path does not touch; and they are as the rule
     * asks exactly when coinciding names are asked for the same.
     */
    method Deploy(c: Compiled) returns (ok: bool)
      modifies this
      ensures Partly(old(store), store, DeployWrites(n, c))
      ensures forall k :: k !in Owned(n) + {SharedKey(n)} ==> Look(store, k) == Look(old(store), k)
      ensures ok ==> store == Written(old(store), DeployWrites(n, c)) && !Stops(c)
      ensures ok ==> Alike(store, Fresh(n, c), Owned(n) - {DenyKey(n)})
      ensures ok ==> (Alike(store, Fresh(n, c), Owned(n)) <==> DenyTouched(n, c) || DenyKey(n) !in old(store))
      ensures ok ==>
        (Settled(store, n, c) <==> Consistent(n, c) && (DenyTouched(n, c) || DenyKey(n) !in old(store)))
      ensures AllWell(faults) ==> (ok <==> !Stops(c))
      ensures HandsOver(old(store), store, n, c)
    {
      ok := DeployPath(c);
      UntouchedStays(old(store), store, n, c);
      PartlyHandsOver(old(store), store, n, c);
      if ok {
        DeployForgets(old(store), n, c);
        SettlesIff(old(store), n, c);
      }
    }

    /** Its four paths. */
    method DeployPath(c: Compiled) returns (ok: bool)
      modifies this
      ensures Partly(old(store), store, DeployWrites(n, c))
      ensures ok ==> store == Written(old(store), DeployWrites(n, c)) && !Stops(c)
      ensures AllWell(faults) ==> (ok <==> !Stops(c))
    {
      ghost var base := store;
      assert Written(base, []) == base;
      if c.deny {
        if !c.published { ok := DenyUnpublished(c, base); } else { ok := DenyPublished(c, base); }
      } else if !c.published {
        ok := AllowUnpublished(c, base);
      } else {
        ok := AllowPublished(c, base);
      }
    }

    method DenyUnpublished(c: Compiled, ghost base: Store) returns (ok: bool)
      requires store == base && c.deny && !c.published
      modifies this
      ensures Partly(base, store, DeployWrites(n, c)) && (ok ==> store == Written(base, DeployWrites(n, c)))
      ensures AllWell(faults) ==> ok
    {
      ghost var all, one := DeployWrites(n, c), JwtCleanup(n);
      ghost var two := one + [Write(DenyKey(n), Absent), Write(VirtualServiceKey(n), Absent)];
      assert [] + one == one && one <= all && two <= all && two + JwtCleanup(n) + EdgeCleanup(n) == all;
      ok := CleanupJwt(base, []);
      if !ok { PartlyMore(base, store, one, all); return; }
      ok := SetTwo(DenyKey(n), Absent, VirtualServiceKey(n), Absent, base, one);
      if !ok { PartlyMore(base, store, two, all); return; }
      ok := CleanupAccess(base, two);
    }

    method DenyPublished(c: Compiled, ghost base: Store) returns (ok: bool)
      requires store == base && c.deny && c.published
      modifies this
      ensures Partly(base, store, DeployWrites(n, c)) && (ok ==> store == Written(base, DeployWrites(n, c)))
      ensures AllWell(faults) ==> ok
    {
      ghost var all, one := DeployWrites(n, c), JwtCleanup(n);
      ghost var two := one + [Write(DenyKey(n), Doc(c.denyPolicy)), Write(VirtualServiceKey(n), Absent)];
      assert [] + one == one && one <= all && two <= all && two + EdgeWrites(n, c) == all;
      ok := CleanupJwt(base, []);
      if !ok { PartlyMore(base, store, one, all); return; }
      ok := SetTwo(DenyKey(n), Doc(c.denyPolicy), VirtualServiceKey(n), Absent, base, one);
      if !ok { PartlyMore(base, store, two, all); return; }
      ok := ReconcileEdge(c, base, two);
    }

    method AllowUnpublished(c: Compiled, ghost base: Store) returns (ok: bool)
      requires store == base && !c.deny && !c.published
      modifies this
      ensures Partly(base, store, DeployWrites(n, c)) && (ok ==> store == Written(base, DeployWrites(n, c)))
      ensures AllWell(faults) ==> ok
    {
      ghost var all, one := DeployWrites(n, c), [Write(VirtualServiceKey(n), Absent)];
      assert [] + one == one && one <= all && one + JwtCleanup(n) + EdgeCleanup(n) == all;
      ok := Set(VirtualServiceKey(n), Absent, base, []);
      if !ok { PartlyMore(base, store, one, all); return; }
      ok := CleanupAccess(base, one);
    }

    method AllowPublished(c: Compiled, ghost base: Store) returns (ok: bool)
      requires store == base && !c.deny && c.published
      modifies this
      ensures Partly(base, store, DeployWrites(n, c))
      ensures ok ==> store == Written(base, DeployWrites(n, c)) && !c.jwt.Incomplete?
      ensures AllWell(faults) ==> (ok <==> !c.jwt.Incomplete?)
    {
      ghost var all := DeployWrites(n, c);
      ghost var one := [Write(VirtualServiceKey(n), Doc(c.virtualService)), Write(DenyKey(n), Absent)];
      ghost var two := one + JwtWrites(n, c);
      assert [] + one == one && one <= all && two <= all && two + EdgeWrites(n, c) == all;
      ok := SetTwo(VirtualServiceKey(n), Doc(c.virtualService), DenyKey(n), Absent, base, []);
      if !ok { PartlyMore(base, store, one, all); return; }
      ok := ReconcileJwt(c, base, one);
      if !ok { PartlyMore(base, store, two, all); return; }
      ok := ReconcileEdge(c, base, two);
    }

    /** HandleRuleDelete. */
    method Delete(deny: bool) returns (ok: bool)
      modifies this
      ensures Partly(old(store), store, DeleteWrites(n, deny))
      ensures ok ==> store == Written(old(store), DeleteWrites(n, deny))
      ensures AllWell(faults) ==> ok
    {
      ghost var base, all := store, DeleteWrites(n, deny);
      ghost var one := [Write(if deny then DenyKey(n) else VirtualServiceKey(n), Absent)];
      assert Written(base, []) == base;
      assert [] + one == one && one <= all && one + JwtCleanup(n) + EdgeCleanup(n) == all;
      ok := Set(if deny then DenyKey(n) else VirtualServiceKey(n), Absent, base, []);
      if !ok { PartlyMore(base, store, one, all); return; }
      ok := CleanupAccess(base, one);
    }

    /**
     * Any number of deploys, some of which may fail halfway. If the last one succeeds, and denies or has a gateway,
     * the rule's keys look as after that deploy into an empty cluster, whatever was there before.
     */
    method DeployAll(cs: seq<Compiled>) returns (ok: bool)
      requires cs != []
      modifies this
      ensures forall k :: k !in Owned(n) + {SharedKey(n)} ==> Look(store, k) == Look(old(store), k)
      ensures var last := cs[|cs| - 1];
              ok && (last.deny || last.published) ==>
                Alike(store, Fresh(n, last), Owned(n)) && (Settled(store, n, last) <==> Consistent(n, last))
      ensures AllWell(faults) ==> (ok <==> !Stops(cs[|cs| - 1]))
    {
      ok := false;
      for i := 0 to |cs|
        invariant forall k :: k !in Owned(n) + {SharedKey(n)} ==> Look(store, k) == Look(old(store), k)
        invariant i > 0 && ok && (cs[i - 1].deny || cs[i - 1].published) ==>
          Alike(store, Fresh(n, cs[i - 1]), Owned(n)) && (Settled(store, n, cs[i - 1]) <==> Consistent(n, cs[i - 1]))
        invariant i > 0 && AllWell(faults) ==> (ok <==> !Stops(cs[i - 1]))
      {
        ok := Deploy(cs[i]);
      }
    }

    /** A delete with the rule's own action takes back everything a deploy with a gateway, or of a denial, wrote. */
    method DeployThenDelete(c: Compiled) returns (ok: bool)
      requires c.deny || c.published
      modifies this
      ensures ok ==> forall k :: k in Owned(n) ==> Look(store, k).Absent?
      ensures AllWell(faults) ==> (ok <==> !Stops(c))
    {
      ok := DeployPath(c);
      if !ok { return; }
      ok := Delete(c.deny);
      if ok { DeleteClears(old(store), n, c); }
    }
  }

  lemma PartlyAll(base: Store, ws: seq<Write>)
    ensures Partly(base, Written(base, ws), ws)
  {
    assert ws[..|ws|] == ws;
  }

  lemma WrittenMore(base: Store, ws: seq<Write>, w: Write)
    ensures Written(base, ws + [w]) == Put(Written(base, ws), w.key, w.wanted)
  {
    assert (ws + [w])[..|ws|] == ws;
  }

  lemma OneMore(ws: seq<Write>, more: seq<Write>, i: nat)
    requires i < |more|
    ensures ws + more[..i] + [more[i]] == ws + more[..i + 1] && ws + more[..i + 1] <= ws + more
  {
  }

  lemma PartlyMore(base: Store, store: Store, ws: seq<Write>, more: seq<Write>)
    requires Partly(base, store, ws) && ws <= more
    ensures Partly(base, store, more)
  {
    var j :| 0 <= j <= |ws| && store == Written(base, ws[..j]);
    assert more[..j] == ws[..j];
  }

  // ---- what is found under a key ----

  predicate Touches(ws: seq<Write>, k: Key) {
    exists i :: 0 <= i < |ws| && ws[i].key == k
  }

  /** The last write to a key decides what is found there. */
  lemma {:induction false} LookWritten(base: Store, ws: seq<Write>, k: Key)
    ensures !Touches(ws, k) ==> Look(Written(base, ws), k) == Look(base, k)
    ensures Touches(ws, k) ==>
              exists i :: 0 <= i < |ws| && ws[i].key == k && Look(Written(base, ws), k) == ws[i].wanted
                          && forall j :: i < j < |ws| ==> ws[j].key != k
  {
    if ws != [] {
      var front, n := ws[..|ws| - 1], |ws| - 1;
      if ws[n].key == k {
        LookHit(base, ws, k);
      } else {
        LookMiss(base, ws, k);
        LookWritten(base, front, k);
        if Touches(front, k) {
          var m :| 0 <= m < |front| && front[m].key == k && Look(Written(base, front), k) == front[m].wanted
                   && forall j :: m < j < |front| ==> front[j].key != k;
          MissKeepsLast(ws, k, m);
        }
      }
    }
  }

  lemma LookHit(base: Store, ws: seq<Write>, k: Key)
    requires ws != [] && ws[|ws| - 1].key == k
    ensures Look(Written(base, ws), k) == ws[|ws| - 1].wanted
  {
  }

  lemma LookMiss(base: Store, ws: seq<Write>, k: Key)
    requires ws != [] && ws[|ws| - 1].key != k
    ensures Look(Written(base, ws), k) == Look(Written(base, ws[..|ws| - 1]), k)
    ensures Touches(ws, k) <==> Touches(ws[..|ws| - 1], k)
  {
    var front := ws[..|ws| - 1];
    assert forall i :: 0 <= i < |front| ==> front[i] == ws[i];
  }

  lemma MissKeepsLast(ws: seq<Write>, k: Key, m: nat)
    requires ws != [] && ws[|ws| - 1].key != k && m < |ws| - 1
    requires var front := ws[..|ws| - 1]; forall j :: m < j < |front| ==> front[j].key != k
    ensures ws[m] == ws[..|ws| - 1][m] && forall j :: m < j < |ws| ==> ws[j].key != k
  {
    var front := ws[..|ws| - 1];
    assert forall i :: 0 <= i < |front| ==> front[i] == ws[i];
  }

  ghost predicate Alike(a: Store, b: Store, keys: set<Key>) {
    forall k :: k in keys ==> Look(a, k) == Look(b, k)
  }

  /** Under the keys it writes, a list of writes leaves the same whatever was there before. */
  lemma HistoryForgotten(a: Store, b: Store, ws: seq<Write>, k: Key)
    requires Touches(ws, k)
    ensures Look(Written(a, ws), k) == Look(Written(b, ws), k)
  {
    LookWritten(a, ws, k);
    LookWritten(b, ws, k);
  }

  lemma TouchesBoth(a: seq<Write>, b: seq<Write>, k: Key)
    ensures Touches(a + b, k) <==> Touches(a, k) || Touches(b, k)
  {
    if i :| 0 <= i < |a| && a[i].key == k { assert (a + b)[i].key == k; }
    if i :| 0 <= i < |b| && b[i].key == k { assert (a + b)[|a| + i].key == k; }
  }

  lemma TouchesTwo(k: Key, a: Write, b: Write)
    ensures Touches([a, b], k) <==> k == a.key || k == b.key
  {
    assert [a, b][0] == a && [a, b][1] == b;
  }

  /** The keys of the edge part; the shared filter is among them if the rule has a filter of its own. */
  lemma EdgeTouches(n: Names, c: Compiled, k: Key)
    ensures Touches(EdgeWrites(n, c), k) <==>
      k in EdgeKeys(n) || (c.rateLimit.Doc? && k == SharedKey(n))
    ensures Touches(EdgeCleanup(n), k) <==> k in EdgeKeys(n)
  {
    var g, f, w := GatewayWrites(n, c), FilterWrites(n, c), WorkloadWrites(n, c);
    TouchesBoth(g + f, w, k);
    TouchesBoth(g, f, k);
    assert g[0].key == EdgeKey(n) && g[1].key == GatewayJwtKey(n);
    assert f[|f| - 1].key == RateLimitKey(n) && (c.rateLimit.Doc? ==> f[0].key == SharedKey(n));
    assert w[0].key == DestinationKey(n) && w[1].key == PeerKey(n) && w[2].key == NetworkKey(n);
    CleanupTouches(n, k);
  }

  lemma CleanupTouches(n: Names, k: Key)
    ensures Touches(EdgeCleanup(n), k) <==> k in EdgeKeys(n)
  {
    var e := EdgeCleanup(n);
    assert e[0].key == EdgeKey(n) && e[1].key == GatewayJwtKey(n) && e[2].key == RateLimitKey(n);
    assert e[3].key == DestinationKey(n) && e[4].key == PeerKey(n) && e[5].key == NetworkKey(n);
  }

  lemma JwtTouches(n: Names, c: Compiled, k: Key)
    ensures Touches(JwtCleanup(n), k) <==> k == JwtKey(n) || k == RequireAuthKey(n)
    ensures !c.jwt.Incomplete? ==> (Touches(JwtWrites(n, c), k) <==> k == JwtKey(n) || k == RequireAuthKey(n))
  {
    TouchesTwo(k, JwtCleanup(n)[0], JwtCleanup(n)[1]);
    if c.jwt.Jwt? { TouchesTwo(k, JwtWrites(n, c)[0], JwtWrites(n, c)[1]); }
  }

  /** The keys that a deploy writes. */
  lemma TouchesIff(n: Names, c: Compiled, k: Key)
    requires !Stops(c)
    ensures Touches(DeployWrites(n, c), k) <==> TouchedKey(n, c, k)
  {
    EdgeTouches(n, c, k);
    JwtTouches(n, c, k);
    var j, e, w, x := JwtCleanup(n), EdgeCleanup(n), JwtWrites(n, c), EdgeWrites(n, c);
    if c.deny {
      var two := [Write(DenyKey(n), if c.published then Doc(c.denyPolicy) else Absent),
                  Write(VirtualServiceKey(n), Absent)];
      TouchesTwo(k, two[0], two[1]);
      TouchesBoth(j, two, k);
      TouchesBoth(j + two, j, k);
      TouchesBoth(j + two + j, e, k);
      TouchesBoth(j + two, x, k);
    } else if c.published {
      var two := [Write(VirtualServiceKey(n), Doc(c.virtualService)), Write(DenyKey(n), Absent)];
      TouchesTwo(k, two[0], two[1]);
      TouchesBoth(two, w, k);
      TouchesBoth(two + w, x, k);
    } else {
      var one := [Write(VirtualServiceKey(n), Absent)];
      assert one[0].key == VirtualServiceKey(n);
      TouchesBoth(one, j, k);
      TouchesBoth(one + j, e, k);
    }
  }

  /** What a deploy leaves in an empty cluster. */
  function Fresh(n: Names, c: Compiled): Store { Written(map[], DeployWrites(n, c)) }

  /**
   * History independence, for any names. A deploy that denies or has a gateway leaves under the rule's ten keys what
   * it leaves in an empty cluster; one that does neither may keep an earlier deny policy, and nothing else.
   */
  lemma DeployForgets(base: Store, n: Names, c: Compiled)
    requires !Stops(c)
    ensures var after := Written(base, DeployWrites(n, c));
            && Alike(after, Fresh(n, c), Owned(n) - {DenyKey(n)})
            && (Alike(after, Fresh(n, c), Owned(n)) <==>
                  c.deny || c.published || DenyKey(n) in {RequireAuthKey(n), EdgeKey(n)} || DenyKey(n) !in base)
  {
    var ws := DeployWrites(n, c);
    forall k | k in Owned(n) && Touches(ws, k) ensures Look(Written(base, ws), k) == Look(Fresh(n, c), k) {
      HistoryForgotten(base, map[], ws, k);
    }
    forall k | k in Owned(n) ensures k != DenyKey(n) ==> Touches(ws, k) {
      TouchesIff(n, c, k);
    }
    TouchesIff(n, c, DenyKey(n));
    LookWritten(base, ws, DenyKey(n));
    LookWritten(map[], ws, DenyKey(n));
  }

  // ---- the order of the writes ----

  /** `k` is given `w` before `l` is touched, and is given nothing else. */
  predicate Leads(ws: seq<Write>, k: Key, w: Wanted, l: Key, i: nat) {
    && i < |ws| && ws[i] == Write(k, w) && (forall j :: 0 <= j <= i ==> ws[j].key != l)
    && (forall j :: i < j < |ws| && ws[j].key == k ==> ws[j].wanted == w)
  }

  /** Then in every state on the way `l` is as it was, or `k` is as it is to be. */
  lemma LeadsThroughout(base: Store, store: Store, ws: seq<Write>, k: Key, w: Wanted, l: Key, i: nat)
    requires Partly(base, store, ws) && Leads(ws, k, w, l, i)
    ensures Look(store, l) == Look(base, l) || Look(store, k) == w
  {
    var j :| 0 <= j <= |ws| && store == Written(base, ws[..j]);
    LookWritten(base, ws[..j], k);
    LookWritten(base, ws[..j], l);
    if j > i { assert ws[..j][i].key == k; }
  }

  /**
   * A published rule that denies has its policy in place before its routes go, one that allows has its routes in place
   * before an earlier deny policy goes, and the shared filter is there before the rule's own.
   */
  predicate HandsOver(a: Store, b: Store, n: Names, c: Compiled) {
    c.published ==>
      && (c.deny && DenyKey(n) != EdgeKey(n) ==>
            Look(b, VirtualServiceKey(n)) == Look(a, VirtualServiceKey(n)) || Look(b, DenyKey(n)) == Doc(c.denyPolicy))
      && (!c.deny ==>
            Look(b, DenyKey(n)) == Look(a, DenyKey(n)) || Look(b, VirtualServiceKey(n)) == Doc(c.virtualService))
      && (c.rateLimit.Doc? && SharedKey(n) != RateLimitKey(n) ==>
            Look(b, RateLimitKey(n)) == Look(a, RateLimitKey(n)) || Look(b, SharedKey(n)) == Doc(c.shared))
  }

  lemma PartlyHandsOver(base: Store, store: Store, n: Names, c: Compiled)
    requires Partly(base, store, DeployWrites(n, c))
    ensures HandsOver(base, store, n, c)
  {
    var ws := DeployWrites(n, c);
    if c.published {
      if c.deny && DenyKey(n) != EdgeKey(n) {
        DenyLeads(n, c);
        LeadsThroughout(base, store, ws, DenyKey(n), Doc(c.denyPolicy), VirtualServiceKey(n), 2);
      }
      if !c.deny {
        RoutesLead(n, c);
        LeadsThroughout(base, store, ws, VirtualServiceKey(n), Doc(c.virtualService), DenyKey(n), 0);
      }
      if c.rateLimit.Doc? && SharedKey(n) != RateLimitKey(n) {
        var i := SharedLeads(n, c);
        LeadsThroughout(base, store, ws, SharedKey(n), Doc(c.shared), RateLimitKey(n), i);
      }
    }
  }

  lemma DenyLeads(n: Names, c: Compiled)
    requires c.published && c.deny && DenyKey(n) != EdgeKey(n)
    ensures Leads(DeployWrites(n, c), DenyKey(n), Doc(c.denyPolicy), VirtualServiceKey(n), 2)
  {
  }

  lemma RoutesLead(n: Names, c: Compiled)
    requires c.published && !c.deny
    ensures Leads(DeployWrites(n, c), VirtualServiceKey(n), Doc(c.virtualService), DenyKey(n), 0)
  {
  }

  lemma SharedLeads(n: Names, c: Compiled) returns (i: nat)
    requires c.published && c.rateLimit.Doc? && SharedKey(n) != RateLimitKey(n)
    ensures Leads(DeployWrites(n, c), SharedKey(n), Doc(c.shared), RateLimitKey(n), i)
  {
    var front :=
      if c.deny then JwtCleanup(n) + [Write(DenyKey(n), Doc(c.denyPolicy)), Write(VirtualServiceKey(n), Absent)]
      else [Write(VirtualServiceKey(n), Doc(c.virtualService)), Write(DenyKey(n), Absent)] + JwtWrites(n, c);
    assert DeployWrites(n, c) == front + EdgeWrites(n, c);
    assert forall j :: 0 <= j < |front| ==> !front[j].key.kind.EnvoyFilterKind?;
    i := |front| + 2;
    LeadsBehind(front, EdgeWrites(n, c), SharedKey(n), Doc(c.shared), RateLimitKey(n), 2);
  }

  lemma LeadsBehind(front: seq<Write>, ws: seq<Write>, k: Key, w: Wanted, l: Key, i: nat)
    requires Leads(ws, k, w, l, i) && forall j :: 0 <= j < |front| ==> front[j].key != l
    ensures Leads(front + ws, k, w, l, |front| + i)
  {
  }

  /** Where each resource lives: what a service's workloads see in its namespace, the edge in the gateway's. */
  predicate Lives(n: Names, k: Key) {
    match k.kind
    case VirtualServiceKind => k.namespace == n.app && k.name == n.virtualService
    case AuthorizationPolicyKind =>
      (k.namespace == n.app && (k.name == n.deny || k.name == n.requireAuth)) || (k.namespace == n.gateway && k.name == n.edge)
    case RequestAuthenticationKind =>
      (k.namespace == n.app && k.name == n.jwt) || (k.namespace == n.gateway && k.name == n.gatewayJwt)
    case EnvoyFilterKind =>
      k.namespace == n.gateway && (k.name == n.rateLimit || k.name == "releasea-gateway-edge-filters")
    case DestinationRuleKind => k.namespace == n.app && k.name == n.destination
    case PeerAuthenticationKind => k.namespace == n.app && k.name == n.peer
    case NetworkPolicyKind => k.namespace == n.app && k.name == n.network
  }

  lemma OwnedLives(n: Names, k: Key)
    ensures k in Owned(n) + {SharedKey(n)} <==> Lives(n, k)
  {
  }

  // ---- when a deploy settles ----

  function If(yes: bool, w: Wanted): Wanted { if yes then w else Absent }

  /** What a rule asks for under each of its ten keys. */
  function Asked(n: Names, c: Compiled): seq<Write> {
    var open := c.published && !c.deny;
    [Write(VirtualServiceKey(n), If(open, Doc(c.virtualService))),
     Write(DenyKey(n), If(c.published && c.deny, Doc(c.denyPolicy))),
     Write(JwtKey(n), if open && c.jwt.Jwt? then Doc(c.jwt.authentication) else Absent),
     Write(RequireAuthKey(n), if open && c.jwt.Jwt? then Doc(c.jwt.policy) else Absent),
     Write(EdgeKey(n), If(c.published, c.edge)),
     Write(GatewayJwtKey(n), If(c.published, c.gatewayJwt)),
     Write(RateLimitKey(n), If(c.published, c.rateLimit)),
     Write(DestinationKey(n), If(c.published, c.destination)),
     Write(PeerKey(n), If(c.published, c.peer)),
     Write(NetworkKey(n), If(c.published, c.network))]
  }

  predicate Settled(store: Store, n: Names, c: Compiled) {
    forall w :: w in Asked(n, c) ==> Look(store, w.key) == w.wanted
  }

  /** Where two of the rule's names coincide, it asks for the same under both. */
  predicate Consistent(n: Names, c: Compiled) {
    var ws := Asked(n, c);
    && (DenyKey(n) == RequireAuthKey(n) ==> ws[1].wanted == ws[3].wanted)
    && (DenyKey(n) == EdgeKey(n) ==> ws[1].wanted == ws[4].wanted)
    && (RequireAuthKey(n) == EdgeKey(n) ==> ws[3].wanted == ws[4].wanted)
    && (JwtKey(n) == GatewayJwtKey(n) ==> ws[2].wanted == ws[5].wanted)
  }

  /** Only these pairs of keys can coincide at all. */
  lemma AskedAgree(n: Names, c: Compiled, v: Write, w: Write)
    requires Consistent(n, c) && v in Asked(n, c) && w in Asked(n, c) && v.key == w.key
    ensures v.wanted == w.wanted
  {
  }

  lemma {:induction false} WrittenJoin(base: Store, a: seq<Write>, b: seq<Write>)
    ensures Written(base, a + b) == Written(Written(base, a), b)
  {
    if b == [] {
      assert a + b == a;
    } else {
      assert (a + b)[..|a + b| - 1] == a + b[..|b| - 1];
      WrittenJoin(base, a, b[..|b| - 1]);
    }
  }

  /** The route's own filter is written after the shared one. */
  lemma FilterLands(base: Store, n: Names, c: Compiled)
    ensures Look(Written(base, EdgeWrites(n, c)), RateLimitKey(n)) == c.rateLimit
  {
    var front := GatewayWrites(n, c) + FilterWrites(n, c);
    var rest := front[..|front| - 1];
    assert front == rest + [Write(RateLimitKey(n), c.rateLimit)];
    WrittenMore(base, rest, Write(RateLimitKey(n), c.rateLimit));
    WrittenJoin(base, front, WorkloadWrites(n, c));
    LookWritten(Written(base, front), WorkloadWrites(n, c), RateLimitKey(n));
  }

  lemma WritesAreAsked(n: Names, c: Compiled, w: Write)
    requires !Stops(c) && w in DeployWrites(n, c)
    ensures w in Asked(n, c) || w == Write(SharedKey(n), Doc(c.shared))
  {
    var ws := Asked(n, c);
    assert forall i :: 0 <= i < 10 ==> ws[i] in ws;
  }

  lemma FilterStays(base: Store, n: Names, c: Compiled)
    requires !Stops(c) && c.published
    ensures Look(Written(base, DeployWrites(n, c)), RateLimitKey(n)) == c.rateLimit
  {
    var front :=
      if c.deny then JwtCleanup(n) + [Write(DenyKey(n), Doc(c.denyPolicy)), Write(VirtualServiceKey(n), Absent)]
      else [Write(VirtualServiceKey(n), Doc(c.virtualService)), Write(DenyKey(n), Absent)] + JwtWrites(n, c);
    assert DeployWrites(n, c) == front + EdgeWrites(n, c);
    WrittenJoin(base, front, EdgeWrites(n, c));
    FilterLands(Written(base, front), n, c);
  }

  /** With consistent names, what is written under a key is what is asked for there. */
  lemma AskedLands(base: Store, n: Names, c: Compiled, w: Write)
    requires !Stops(c) && Consistent(n, c) && w in Asked(n, c) && Touches(DeployWrites(n, c), w.key)
    ensures Look(Written(base, DeployWrites(n, c)), w.key) == w.wanted
  {
    var ws := DeployWrites(n, c);
    LookWritten(base, ws, w.key);
    var i :| 0 <= i < |ws| && ws[i].key == w.key && Look(Written(base, ws), w.key) == ws[i].wanted;
    WritesAreAsked(n, c, ws[i]);
    if ws[i] in Asked(n, c) {
      AskedAgree(n, c, w, ws[i]);
    } else {
      SharedOnlyMeetsFilter(n, c, w);
      if c.published { FilterStays(base, n, c); } else { UnpublishedAsksNothing(n, c, ws[i]); }
    }
  }

  lemma SharedOnlyMeetsFilter(n: Names, c: Compiled, w: Write)
    requires w in Asked(n, c) && w.key == SharedKey(n)
    ensures w == Write(RateLimitKey(n), If(c.published, c.rateLimit))
  {
  }

  lemma UnpublishedAsksNothing(n: Names, c: Compiled, w: Write)
    requires !c.published && w in DeployWrites(n, c)
    ensures w.wanted.Absent?
  {
  }

  /** The deploy writes the deny policy's key. */
  predicate DenyTouched(n: Names, c: Compiled) {
    c.deny || c.published || DenyKey(n) in {RequireAuthKey(n), EdgeKey(n)}
  }

  lemma SettledIsConsistent(store: Store, n: Names, c: Compiled)
    requires Settled(store, n, c)
    ensures Consistent(n, c) && (!c.published ==> DenyKey(n) !in store)
  {
    var asked := Asked(n, c);
    assert asked[1] in asked && asked[2] in asked && asked[3] in asked && asked[4] in asked && asked[5] in asked;
  }

  lemma ConsistentSettles(base: Store, n: Names, c: Compiled)
    requires !Stops(c) && Consistent(n, c) && (DenyTouched(n, c) || DenyKey(n) !in base)
    ensures Settled(Written(base, DeployWrites(n, c)), n, c)
  {
    forall w | w in Asked(n, c) ensures Look(Written(base, DeployWrites(n, c)), w.key) == w.wanted {
      if Touches(DeployWrites(n, c), w.key) {
        AskedLands(base, n, c, w);
      } else {
        AskedStays(base, n, c, w);
      }
    }
  }

  /** Only the deny policy of an unpublished rule is not written, and that is not asked for. */
  lemma AskedStays(base: Store, n: Names, c: Compiled, w: Write)
    requires !Stops(c) && w in Asked(n, c) && !Touches(DeployWrites(n, c), w.key)
    requires DenyTouched(n, c) || DenyKey(n) !in base
    ensures Look(Written(base, DeployWrites(n, c)), w.key) == w.wanted
  {
    assert w.key == DenyKey(n) && !DenyTouched(n, c) && w.wanted.Absent? by {
      TouchesIff(n, c, w.key);
      AskedIsOwned(n, c, w);
    }
    LookWritten(base, DeployWrites(n, c), w.key);
  }

  /**
   * A deploy settles the rule's ten keys exactly when the names that coincide, if any, are asked for the same, and no
   * earlier deny policy is kept. Distinct names are therefore enough, and not needed.
   */
  lemma SettlesIff(base: Store, n: Names, c: Compiled)
    requires !Stops(c)
    ensures Settled(Written(base, DeployWrites(n, c)), n, c) <==>
              Consistent(n, c) && (DenyTouched(n, c) || DenyKey(n) !in base)
  {
    var after := Written(base, DeployWrites(n, c));
    if Settled(after, n, c) {
      SettledIsConsistent(after, n, c);
      TouchesIff(n, c, DenyKey(n));
      LookWritten(base, DeployWrites(n, c), DenyKey(n));
    }
    if Consistent(n, c) && (DenyTouched(n, c) || DenyKey(n) !in base) { ConsistentSettles(base, n, c); }
  }

  /** With two namespaces, only the two policies of the service's own can get in each other's way. */
  lemma SettlesApartIff(base: Store, n: Names, c: Compiled)
    requires !Stops(c) && c.published && n.app != n.gateway
    ensures Settled(Written(base, DeployWrites(n, c)), n, c) <==> (!c.deny && !c.jwt.Jwt?) || n.deny != n.requireAuth
  {
    SettlesIff(base, n, c);
    var asked := Asked(n, c);
    assert asked[1].wanted == asked[3].wanted <==> !c.deny && !c.jwt.Jwt?;
  }

  predicate TouchedKey(n: Names, c: Compiled, k: Key) {
    || k in EdgeKeys(n) || k == JwtKey(n) || k == RequireAuthKey(n) || k == VirtualServiceKey(n)
    || (k == DenyKey(n) && (c.deny || c.published)) || (c.published && c.rateLimit.Doc? && k == SharedKey(n))
  }

  lemma AskedIsOwned(n: Names, c: Compiled, w: Write)
    requires w in Asked(n, c)
    ensures w.key in Owned(n) && (!c.published ==> w.wanted.Absent?)
  {
  }

  lemma UntouchedStays(base: Store, store: Store, n: Names, c: Compiled)
    requires Partly(base, store, DeployWrites(n, c))
    ensures forall k :: k !in Owned(n) + {SharedKey(n)} ==> Look(store, k) == Look(base, k)
  {
    var ws := DeployWrites(n, c);
    var j :| 0 <= j <= |ws| && store == Written(base, ws[..j]);
    forall k | k !in Owned(n) + {SharedKey(n)} ensures Look(store, k) == Look(base, k) {
      LookWritten(base, ws[..j], k);
      if i :| 0 <= i < j && ws[..j][i].key == k { WriteIsOwned(n, c, ws[i]); }
    }
  }

  lemma WriteIsOwned(n: Names, c: Compiled, w: Write)
    requires w in DeployWrites(n, c)
    ensures w.key in Owned(n) + {SharedKey(n)}
  {
  }

  // ---- taking a rule back ----

  lemma DeleteTouches(n: Names, deny: bool, k: Key)
    ensures Touches(DeleteWrites(n, deny), k) <==>
      k in EdgeKeys(n) || k == JwtKey(n) || k == RequireAuthKey(n)
      || k == (if deny then DenyKey(n) else VirtualServiceKey(n))
    ensures forall w :: w in DeleteWrites(n, deny) ==> w.wanted.Absent?
  {
    var one := [Write(if deny then DenyKey(n) else VirtualServiceKey(n), Absent)];
    assert one[0].key == if deny then DenyKey(n) else VirtualServiceKey(n);
    TouchesTwo(k, JwtCleanup(n)[0], JwtCleanup(n)[1]);
    CleanupTouches(n, k);
    TouchesBoth(one, JwtCleanup(n), k);
    TouchesBoth(one + JwtCleanup(n), EdgeCleanup(n), k);
  }

  lemma DeleteClears(base: Store, n: Names, c: Compiled)
    requires !Stops(c) && (c.deny || c.published)
    ensures var gone := Written(Written(base, DeployWrites(n, c)), DeleteWrites(n, c.deny));
            forall k :: k in Owned(n) ==> Look(gone, k).Absent?
  {
    var deployed, ws := Written(base, DeployWrites(n, c)), DeleteWrites(n, c.deny);
    forall k | k in Owned(n) ensures Look(Written(deployed, ws), k).Absent? {
      DeleteTouches(n, c.deny, k);
      LookWritten(deployed, ws, k);
      if !Touches(ws, k) { LeftByDeploy(base, n, c, k); }
    }
  }

  /** The one key that the delete does not touch was emptied by the deploy. */
  lemma LeftByDeploy(base: Store, n: Names, c: Compiled, k: Key)
    requires !Stops(c) && (c.deny || c.published) && !Touches(DeleteWrites(n, c.deny), k)
    requires k == if c.deny then VirtualServiceKey(n) else DenyKey(n)
    ensures Look(Written(base, DeployWrites(n, c)), k).Absent?
  {
    var ws := DeployWrites(n, c);
    TouchesIff(n, c, k);
    DeleteTouches(n, c.deny, k);
    LookWritten(base, ws, k);
    var i :| 0 <= i < |ws| && ws[i].key == k && Look(Written(base, ws), k) == ws[i].wanted;
    WritesAreAsked(n, c, ws[i]);
    AskedAbsent(n, c, ws[i]);
  }

  lemma AskedAbsent(n: Names, c: Compiled, w: Write)
    requires (c.deny || c.published) && (w in Asked(n, c) || w == Write(SharedKey(n), Doc(c.shared)))
    requires w.key == if c.deny then VirtualServiceKey(n) else DenyKey(n)
    requires DenyKey(n) == w.key ==> DenyKey(n) != RequireAuthKey(n) && DenyKey(n) != EdgeKey(n)
    ensures w.wanted.Absent?
  {
  }

  // ---- two rules ----

  /** No deploy of the rule named `n` can change what is found under the keys of the rule named `m`. */
  ghost predicate Isolated(n: Names, m: Names) {
    forall base, c, k :: k in Owned(m) ==> Look(Written(base, DeployWrites(n, c)), k) == Look(base, k)
  }

  /** Two rules are isolated exactly when they share no key, and none of the second is the filter of the first. */
  lemma IsolatedIff(n: Names, m: Names, doc: Fields)
    ensures Isolated(n, m) <==> Owned(n) !! Owned(m) && SharedKey(n) !in Owned(m)
  {
    if Owned(n) !! Owned(m) && SharedKey(n) !in Owned(m) {
      forall base, c, k | k in Owned(m) ensures Look(Written(base, DeployWrites(n, c)), k) == Look(base, k) {
        PartlyAll(base, DeployWrites(n, c));
        UntouchedStays(base, Written(base, DeployWrites(n, c)), n, c);
      }
    }
    if k :| k in Owned(n) && k in Owned(m) { TakesAway(n, k, doc); }
    if SharedKey(n) in Owned(m) && SharedKey(n) !in Owned(n) { Gives(n, doc); }
  }

  function Nothing(doc: Fields): Compiled {
    Compiled(true, false, doc, doc, NoJwt, Absent, Absent, Absent, doc, Absent, Absent, Absent)
  }

  /** An unpublished deny rule deletes whatever is under its keys. */
  lemma TakesAway(n: Names, k: Key, doc: Fields)
    requires k in Owned(n)
    ensures Look(Written(map[k := doc], DeployWrites(n, Nothing(doc))), k) != Look(map[k := doc], k)
  {
    var c := Nothing(doc);
    TouchesIff(n, c, k);
    LookWritten(map[k := doc], DeployWrites(n, c), k);
    var ws := DeployWrites(n, c);
    var i :| 0 <= i < |ws| && ws[i].key == k && Look(Written(map[k := doc], ws), k) == ws[i].wanted;
    UnpublishedAsksNothing(n, c, ws[i]);
  }

  /** A published rule with a filter of its own applies the shared one. */
  lemma Gives(n: Names, doc: Fields)
    requires SharedKey(n) !in Owned(n)
    ensures var c := Nothing(doc).(published := true, rateLimit := Doc(doc));
            Look(Written(map[], DeployWrites(n, c)), SharedKey(n)) != Look(map[], SharedKey(n))
  {
    var c := Nothing(doc).(published := true, rateLimit := Doc(doc));
    var ws := DeployWrites(n, c);
    TouchesIff(n, c, SharedKey(n));
    LookWritten(map[], ws, SharedKey(n));
    var i :| 0 <= i < |ws| && ws[i].key == SharedKey(n) && Look(Written(map[], ws), SharedKey(n)) == ws[i].wanted;
    WritesAreAsked(n, c, ws[i]);
    if ws[i] in Asked(n, c) { AskedIsOwned(n, c, ws[i]); }
  }
}
