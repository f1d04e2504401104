/** collectDestinationHosts: every host named anywhere in a tree, and the scan that trusts it. */
module HostCollection {
  import opened Text
  import opened Manifests
  import opened CanaryShift
  import opened RouteTables
  import opened CanaryPromotion

  predicate IsHostKey(key: string) { EqualFold(TrimSpace(key), "host") }

  /** The key says "host", in any case and with white space around it; the long s counts as an s. */
  lemma IsHostKeyIff(key: string)
    ensures var t := TrimSpace(key);
            IsHostKey(key) <==>
              |t| == 4 && t[0] in {'h', 'H'} && t[1] in {'o', 'O'} && t[2] in {'s', 'S', '\U{17F}'} && t[3] in {'t', 'T'}
  {
    var t, host := TrimSpace(key), "host";
    if |t| == 4 {
      assert forall i :: 0 <= i < 4 ==> FoldChar(host[i]) == host[i];
      FoldsTo(t[0], 'h');
      FoldsTo(t[1], 'o');
      FoldsTo(t[2], 's');
      FoldsTo(t[3], 't');
    }
  }

  lemma FoldsTo(c: char, low: char)
    requires low in {'h', 'o', 's', 't'}
    ensures FoldChar(c) == low <==> c == low || c as int == low as int - 32 || (low == 's' && c as int == 0x17F)
  {
  }

  function NormalHost(host: string): string { ToLower(TrimSpace(host)) }

  /** `h` is the normalised text of some string under a host key, at any depth. */
  ghost predicate Carries(v: Value, h: string)
    decreases v, 0
  {
    match v
    case Obj(m) => exists k :: k in m && FieldCarries(m[k], IsHostKey(k), h)
    case Arr(a) => exists i :: 0 <= i < |a| && Carries(a[i], h)
    case _ => false
  }

  ghost predicate FieldCarries(v: Value, isHost: bool, h: string)
    decreases v, 1
  {
    if isHost then v.Str? && h == NormalHost(v.s) && h != "" else Carries(v, h)
  }

  method CollectDestinationHosts(v: Value, found: set<string>) returns (out: set<string>)
    ensures forall h :: h in out <==> h in found || Carries(v, h)
    decreases v
  {
    out := found;
    match v {
      case Obj(m) =>
        var keys := m.Keys;
        while keys != {}
          invariant keys <= m.Keys
          invariant forall h :: h in out <==>
                      h in found || exists k :: k in m && k !in keys && FieldCarries(m[k], IsHostKey(k), h)
          decreases |keys|
        {
          var key :| key in keys;
          if IsHostKey(key) {
            if m[key].Str? && NormalHost(m[key].s) != "" { out := out + {NormalHost(m[key].s)}; }
          } else {
            out := CollectDestinationHosts(m[key], out);
          }
          keys := keys - {key};
        }
      case Arr(a) =>
        for i := 0 to |a|
          invariant forall h :: h in out <==> h in found || exists j :: 0 <= j < i && Carries(a[j], h)
        {
          out := CollectDestinationHosts(a[i], out);
        }
      case _ =>
    }
  }

  /** isWorkloadAliasReferenced over the hosts of a list of trees. */
  ghost predicate AliasReferenced(trees: seq<Fields>, workload: string, namespace: string) {
    exists i, h :: 0 <= i < |trees| && Carries(Obj(trees[i]), h) && HostMatches(h, workload, namespace)
  }

  method ListDestinationHosts(trees: seq<Fields>) returns (hosts: set<string>)
    ensures forall h :: h in hosts <==> exists i :: 0 <= i < |trees| && Carries(Obj(trees[i]), h)
  {
    hosts := {};
    for i := 0 to |trees|
      invariant forall h :: h in hosts <==> exists j :: 0 <= j < i && Carries(Obj(trees[j]), h)
    {
      hosts := CollectDestinationHosts(Obj(trees[i]), hosts);
    }
  }

  ghost predicate Hit(hosts: set<string>, workload: string, namespace: string) {
    exists h :: h in hosts && HostMatches(h, workload, namespace)
  }

  /** isWorkloadAliasReferenced. */
  method IsReferenced(hosts: set<string>, workload: string, namespace: string) returns (found: bool)
    ensures found <==> Hit(hosts, workload, namespace)
  {
    var rest := hosts;
    found := false;
    while rest != {} && !found
      invariant rest <= hosts
      invariant !found ==> forall h :: h in hosts && h !in rest ==> !HostMatches(h, workload, namespace)
      invariant found ==> exists h :: h in hosts && HostMatches(h, workload, namespace)
      decreases |rest|
    {
      var h :| h in rest;
      found := HostMatches(h, workload, namespace);
      rest := rest - {h};
    }
  }

  /** Normalising a host first changes no comparison. */
  lemma NormalMatches(host: string, workload: string, namespace: string)
    ensures HostMatches(NormalHost(host), workload, namespace) == HostMatches(host, workload, namespace)
  {
    var t := TrimSpace(host);
    TrimSpaceTrims(host);
    LowerKeepsTrimmed(t);
    TrimSpaceTrims(ToLower(t));
    LowerTwice(t);
  }

  predicate IsText(v: Value) { v.Str? || v.Null? }

  /** A host that is no string spells the workload when it is printed. */
  predicate Printed(sc: Scope, workload: string, m: Fields) {
    !IsText(At(m, "host")) && HostMatches(StringValue(sc, m, "host"), workload, sc.namespace)
  }

  predicate PrintedReference(sc: Scope, workload: string, raw: Value) {
    var route := MapValue(raw);
    || Printed(sc, workload, MapValue(At(route, "mirror")))
    || (At(route, "route").Arr? && exists i :: 0 <= i < |At(route, "route").items|
                                               && Printed(sc, workload, Destination(At(route, "route").items[i])))
  }

  lemma TrimmedMatches(host: string, workload: string, namespace: string)
    ensures HostMatches(TrimSpace(host), workload, namespace) == HostMatches(host, workload, namespace)
    ensures HostMatches(host, workload, namespace) ==> NormalHost(host) != ""
  {
    TrimSpaceTrims(host);
    TrimSpaceTrims(TrimSpace(host));
  }

  lemma NothingMatchesEmpty(workload: string, namespace: string)
    ensures !HostMatches("", workload, namespace)
  {
    TrimSpaceTrims("");
  }

  lemma HostIsHostKey()
    ensures IsHostKey("host")
  {
    TrimSpaceTrims("host");
  }

  /** A host field that spells the workload is collected, in a spelling of the workload. */
  lemma HostFieldCarries(sc: Scope, workload: string, m: Fields)
    requires !Printed(sc, workload, m) && HostMatches(StringValue(sc, m, "host"), workload, sc.namespace)
    ensures exists h :: Carries(Obj(m), h) && HostMatches(h, workload, sc.namespace)
  {
    NothingMatchesEmpty(workload, sc.namespace);
    HostIsHostKey();
    var v := At(m, "host");
    if v.Str? {
      TrimmedMatches(v.s, workload, sc.namespace);
      NormalMatches(v.s, workload, sc.namespace);
      assert FieldCarries(m["host"], IsHostKey("host"), NormalHost(v.s));
    }
  }

  lemma StepInto(m: Fields, key: string, h: string)
    requires key in m && !IsHostKey(key) && Carries(m[key], h)
    ensures Carries(Obj(m), h)
  {
    assert FieldCarries(m[key], IsHostKey(key), h);
  }

  lemma TreeKeysAreNotHosts()
    ensures forall key :: key in ["spec", "http", "tcp", "tls", "mirror", "route", "destination"] ==> !IsHostKey(key)
  {
    forall key | key in ["spec", "http", "tcp", "tls", "mirror", "route", "destination"] ensures !IsHostKey(key) {
      assert Trimmed(key);
      TrimSpaceTrims(key);
      assert |key| == 4 ==> FoldChar(key[1]) != FoldChar('o');
    }
  }

  lemma RouteCarries(sc: Scope, workload: string, raw: Value)
    requires !PrintedReference(sc, workload, raw) && RouteReferences(sc, workload, raw)
    ensures exists h :: Carries(raw, h) && HostMatches(h, workload, sc.namespace)
  {
    var route := MapValue(raw);
    TreeKeysAreNotHosts();
    NothingMatchesEmpty(workload, sc.namespace);
    if HostMatches(MirrorHost(sc, route), workload, sc.namespace) {
      var mirror := MapValue(At(route, "mirror"));
      HostFieldCarries(sc, workload, mirror);
      var h :| Carries(Obj(mirror), h) && HostMatches(h, workload, sc.namespace);
      StepInto(route, "mirror", h);
    } else {
      var list := At(route, "route").items;
      var i :| 0 <= i < |list| && HostMatches(HostOf(sc, list[i]), workload, sc.namespace);
      HostFieldCarries(sc, workload, Destination(list[i]));
      var h :| Carries(Obj(Destination(list[i])), h) && HostMatches(h, workload, sc.namespace);
      StepInto(MapValue(list[i]), "destination", h);
      assert Carries(At(route, "route"), h);
      StepInto(route, "route", h);
    }
  }

  /**
   * The structural scan implies membership in the recursively collected hosts, for any tree, but for one thing: the
   * scan prints a host that is a number or a list before it compares, and the collection skips such a host.
   */
  lemma ReferenceIsCollected(sc: Scope, workload: string, trees: seq<Fields>, i: nat)
    requires i < |trees| && References(sc, workload, trees[i])
    ensures AliasReferenced(trees, workload, sc.namespace)
            || SomeRoute(raw => PrintedReference(sc, workload, raw), trees[i])
  {
    var spec := Spec(trees[i]);
    var k :| k in KEYS && IsTable(spec, k) && AnyOf(raw => RouteReferences(sc, workload, raw), spec[k].items);
    var j :| 0 <= j < |spec[k].items| && RouteReferences(sc, workload, spec[k].items[j]);
    if PrintedReference(sc, workload, spec[k].items[j]) {
      assert (raw => PrintedReference(sc, workload, raw))(spec[k].items[j]);
    } else {
      RouteCarries(sc, workload, spec[k].items[j]);
      var h :| Carries(spec[k].items[j], h) && HostMatches(h, workload, sc.namespace);
      TreeKeysAreNotHosts();
      StepInto(spec, k, h);
      StepInto(trees[i], "spec", h);
    }
  }

  /** No number, boolean, list or object prints as a spelling of the canary. */
  ghost predicate PrintsNoCanary(sc: Scope) {
    forall v :: !IsText(v) ==> !IsCanaryHost(sc, TrimSpace(sc.sprint(v)))
  }

  /** So for the canary, the one workload that the scan is asked for, what it refers to is collected, in any tree. */
  lemma CanaryReferenceIsCollected(sc: Scope, trees: seq<Fields>, i: nat)
    requires i < |trees| && References(sc, CanaryName(sc), trees[i]) && PrintsNoCanary(sc)
    ensures AliasReferenced(trees, CanaryName(sc), sc.namespace)
  {
    ReferenceIsCollected(sc, CanaryName(sc), trees, i);
    assert forall raw :: !PrintedReference(sc, CanaryName(sc), raw) by {
      forall m: Fields ensures !Printed(sc, CanaryName(sc), m) {
      }
    }
  }
}
