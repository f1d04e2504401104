/** The http, tcp and tls routes of a VirtualService, rewritten or searched one by one. */
module RouteTables {
  import opened Manifests

  const KEYS: seq<string> := ["http", "tcp", "tls"]

  function Spec(root: Fields): Fields { MapValue(At(root, "spec")) }

  predicate IsTable(spec: Fields, key: string) { key in spec && spec[key].Arr? }

  function Each(f: Value -> Value, routes: seq<Value>): (r: seq<Value>)
    ensures |r| == |routes|
    ensures forall i :: 0 <= i < |r| ==> r[i] == f(routes[i])
  {
    seq(|routes|, i requires 0 <= i < |routes| => f(routes[i]))
  }

  /** The spec with the tables under `keys` rewritten by `f`. */
  function Rewritten(f: Value -> Value, spec: Fields, keys: seq<string>): Fields {
    map k | k in spec :: if k in keys && spec[k].Arr? then Arr(Each(f, spec[k].items)) else spec[k]
  }

  /** Every route rewritten; a VirtualService without a spec stays as it is. */
  function EachRoute(f: Value -> Value, root: Fields): Fields {
    if Spec(root) == map[] then root else root["spec" := Obj(Rewritten(f, Spec(root), KEYS))]
  }

  predicate AnyOf(p: Value -> bool, routes: seq<Value>) {
    exists i :: 0 <= i < |routes| && p(routes[i])
  }

  predicate SomeUnder(p: Value -> bool, spec: Fields, keys: seq<string>) {
    exists k :: k in keys && IsTable(spec, k) && AnyOf(p, spec[k].items)
  }

  predicate SomeRoute(p: Value -> bool, root: Fields) {
    SomeUnder(p, Spec(root), KEYS)
  }

  /** The three kinds of tables. */
  lemma SomeRouteIff(p: Value -> bool, root: Fields)
    ensures SomeRoute(p, root) <==>
      || (IsTable(Spec(root), "http") && AnyOf(p, Spec(root)["http"].items))
      || (IsTable(Spec(root), "tcp") && AnyOf(p, Spec(root)["tcp"].items))
      || (IsTable(Spec(root), "tls") && AnyOf(p, Spec(root)["tls"].items))
  {
    assert "http" in KEYS && "tcp" in KEYS && "tls" in KEYS;
  }

  lemma RewriteMore(f: Value -> Value, p: Value -> bool, spec: Fields, n: nat)
    requires n < |KEYS|
    ensures var spec' := Rewritten(f, spec, KEYS[..n]);
            var key := KEYS[n];
            && IsTable(spec', key) == IsTable(spec, key)
            && (IsTable(spec, key) ==> spec'[key] == spec[key])
            && Rewritten(f, spec, KEYS[..n + 1])
               == (if IsTable(spec, key) then spec'[key := Arr(Each(f, spec[key].items))] else spec')
    ensures SomeUnder(p, spec, KEYS[..n + 1])
            <==> SomeUnder(p, spec, KEYS[..n]) || (IsTable(spec, KEYS[n]) && AnyOf(p, spec[KEYS[n]].items))
  {
    assert KEYS[..n + 1] == KEYS[..n] + [KEYS[n]];
    assert KEYS[n] !in KEYS[..n];
  }

  /** A rewrite that leaves no route with a property leaves none in the whole tree. */
  lemma RewriteClears(f: Value -> Value, p: Value -> bool, root: Fields)
    requires forall r :: !p(f(r))
    ensures !SomeRoute(p, EachRoute(f, root))
  {
    var spec' := Rewritten(f, Spec(root), KEYS);
    forall k | k in KEYS && IsTable(spec', k) ensures !AnyOf(p, spec'[k].items) {
      assert IsTable(Spec(root), k);
      assert spec'[k].items == Each(f, Spec(root)[k].items);
    }
  }

  /** A second rewrite changes nothing exactly when it changes no route that the first one wrote. */
  lemma RewriteTwice(f: Value -> Value, p: Value -> bool, root: Fields)
    requires forall r :: p(r) <==> f(f(r)) != f(r)
    ensures EachRoute(f, EachRoute(f, root)) == EachRoute(f, root) <==> !SomeRoute(p, root)
  {
    var spec := Spec(root);
    if spec != map[] {
      var once := Rewritten(f, spec, KEYS);
      var twice := Rewritten(f, once, KEYS);
      assert once.Keys == spec.Keys && once != map[] by { assert once.Keys == spec.Keys; }
      var root1 := EachRoute(f, root);
      assert Spec(root1) == once;
      assert EachRoute(f, root1) == root1 <==> twice == once by {
        assert root1["spec" := Obj(once)] == root1;
        if EachRoute(f, root1) == root1 { assert root1["spec" := Obj(twice)]["spec"] == root1["spec"]; }
      }
      TablesTwice(f, p, spec);
    }
  }

  lemma TablesTwice(f: Value -> Value, p: Value -> bool, spec: Fields)
    requires forall r :: p(r) <==> f(f(r)) != f(r)
    ensures var once := Rewritten(f, spec, KEYS);
            Rewritten(f, once, KEYS) == once <==> !SomeUnder(p, spec, KEYS)
  {
    var once := Rewritten(f, spec, KEYS);
    var twice := Rewritten(f, once, KEYS);
    forall k | k in KEYS && IsTable(spec, k) ensures twice[k] == once[k] <==> !AnyOf(p, spec[k].items) {
      TableTwice(f, p, spec[k].items);
      assert twice[k].items == Each(f, Each(f, spec[k].items));
    }
    if twice != once {
      var k :| k in once && twice[k] != once[k];
      assert k in KEYS && IsTable(spec, k);
    }
  }

  lemma TableTwice(f: Value -> Value, p: Value -> bool, routes: seq<Value>)
    requires forall r :: p(r) <==> f(f(r)) != f(r)
    ensures Each(f, Each(f, routes)) == Each(f, routes) <==> !AnyOf(p, routes)
  {
    var a, b := Each(f, routes), Each(f, Each(f, routes));
    if a == b {
      forall i | 0 <= i < |routes| ensures !p(routes[i]) { assert a[i] == b[i]; }
    }
  }
}
