/** Decoded resource trees and the host names inside them. */
module Manifests {
  import opened Text

  datatype Value =
    | Null
    | Bool(b: bool)
    | Num(n: real)
    | Str(s: string)
    | Arr(items: seq<Value>)
    | Obj(fields: Fields)

  type Fields = map<string, Value>

  /** Reading a missing key of a Go map yields nil. */
  function At(m: Fields, key: string): Value {
    if key in m then m[key] else Null
  }

  /** The fields of an object; anything else reads as a fresh empty map. */
  function MapValue(v: Value): Fields {
    if v.Obj? then v.fields else map[]
  }

  /** Outside `keys` the two have the same fields. */
  predicate SameBut(a: Fields, b: Fields, keys: set<string>) {
    (forall k :: k in a && k !in keys ==> k in b && b[k] == a[k]) && (forall k :: k in b && k !in keys ==> k in a)
  }

  /** One service in one namespace; `sprint` is how `fmt.Sprint` prints a value that is no string. */
  datatype Scope = Scope(service: string, namespace: string, sprint: Value -> string)

  function StringValue(sc: Scope, m: Fields, key: string): string {
    match At(m, key)
    case Null => ""
    case Str(s) => TrimSpace(s)
    case v => TrimSpace(sc.sprint(v))
  }

  const CLUSTER_SUFFIX := ".svc.cluster.local"

  /** The four spellings of a workload's host. */
  function Aliases(alias: string, namespace: string): seq<string> {
    [alias,
     alias + "." + namespace,
     alias + "." + namespace + ".svc",
     alias + "." + namespace + CLUSTER_SUFFIX]
  }

  predicate HostMatches(host: string, alias: string, namespace: string) {
    var h := ToLower(TrimSpace(host));
    var a := ToLower(TrimSpace(alias));
    h != "" && a != "" && h in Aliases(a, ToLower(TrimSpace(namespace)))
  }

  function CanaryOf(service: string): string { service + "-canary" }

  function CanaryName(sc: Scope): string { CanaryOf(sc.service) }

  function StableHost(sc: Scope): string {
    sc.service + ("." + sc.namespace + CLUSTER_SUFFIX)
  }

  predicate IsCanaryHost(sc: Scope, host: string) {
    HostMatches(host, CanaryName(sc), sc.namespace)
  }

  lemma LocalTail(namespace: string)
    ensures var t := "." + namespace + CLUSTER_SUFFIX; |t| > 1 && t[0] == '.' && t[|t| - 1] == 'l'
  {
  }

  lemma AliasPrefix(alias: string, namespace: string, x: string)
    requires x in Aliases(alias, namespace)
    ensures |alias| <= |x| && x[..|alias|] == alias
  {
  }

  /** Two hosts that part after a common core match no common alias. */
  lemma PartedHostsDiffer(core: string, p: string, q: string, namespace: string)
    requires p != [] && q != [] && LowerChar(p[0]) != LowerChar(q[0])
    ensures ToLower(core + q) !in Aliases(ToLower(core + p), namespace)
  {
    var a, h := ToLower(core + p), ToLower(core + q);
    assert a[|core|] == LowerChar(p[0]) && h[|core|] == LowerChar(q[0]);
    if h in Aliases(a, namespace) {
      AliasPrefix(a, namespace, h);
      assert false;
    }
  }

  lemma HostOutsideAliases(host: string, alias: string, namespace: string, h: string, a: string)
    requires TrimSpace(host) == h && TrimSpace(alias) == a
    requires ToLower(h) !in Aliases(ToLower(a), ToLower(TrimSpace(namespace)))
    ensures !HostMatches(host, alias, namespace)
  {
  }

  lemma PartedTailsDiffer(service: string, dash: string, tail: string, namespace: string)
    requires dash != [] && !IsSpace(dash[0]) && !IsSpace(dash[|dash| - 1])
    requires tail != [] && !IsSpace(tail[0]) && !IsSpace(tail[|tail| - 1])
    requires LowerChar(dash[0]) != LowerChar(tail[0])
    ensures !HostMatches(service + tail, service + dash, namespace)
    ensures !HostMatches(TrimSpace(service + tail), service + dash, namespace)
  {
    var core := TrimLeft(service, IsSpace);
    TrimKeepsSolidTail(service, tail);
    TrimKeepsSolidTail(service, dash);
    TrimSpaceTrims(service + tail);
    TrimSpaceTrims(TrimSpace(service + tail));
    PartedHostsDiffer(core, dash, tail, ToLower(TrimSpace(namespace)));
    HostOutsideAliases(service + tail, service + dash, namespace, core + tail, core + dash);
    HostOutsideAliases(TrimSpace(service + tail), service + dash, namespace, core + tail, core + dash);
  }

  /** For any service and namespace, the stable host is no spelling of the canary. */
  lemma StableIsNotCanary(sc: Scope)
    ensures !IsCanaryHost(sc, StableHost(sc))
    ensures !IsCanaryHost(sc, TrimSpace(StableHost(sc)))
  {
    var dash, tail := "-canary", "." + sc.namespace + CLUSTER_SUFFIX;
    LocalTail(sc.namespace);
    PartedTailsDiffer(sc.service, dash, tail, sc.namespace);
  }

  /** A name that is trimmed gives a stable host that is trimmed. */
  lemma StableHostTrimmed(sc: Scope)
    requires Trimmed(sc.service)
    ensures Trimmed(StableHost(sc)) && TrimSpace(StableHost(sc)) == StableHost(sc) && StableHost(sc) != ""
  {
    LocalTail(sc.namespace);
    TrimSpaceTrims(StableHost(sc));
  }

  /** A host and a workload's name and namespace, all in lower case without white space around them. */
  predicate Plain(s: string) { ToLower(TrimSpace(s)) == s }

  /** The four spellings of a workload, one by one: with nothing behind the name, or ever more of the cluster's domain. */
  lemma SpellingsAre(host: string, name: string, namespace: string)
    requires Plain(host) && Plain(name) && Plain(namespace) && name != ""
    ensures HostMatches(host, name, namespace) <==>
      || host == name || host == name + "." + namespace || host == name + "." + namespace + ".svc"
      || host == name + "." + namespace + ".svc.cluster.local"
  {
    assert |name + "." + namespace| > 0;
  }
}
