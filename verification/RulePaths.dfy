/** Rule paths: the prefixes they become in routes, the patterns they become in policies, and how the two compare. */
module RulePaths {
  import opened Text

  predicate IsStar(c: char) { c == '*' }

  predicate Distinct(values: seq<string>) {
    forall i, j :: 0 <= i < j < |values| ==> values[i] != values[j]
  }

  /** UniqueStrings: trimmed, not blank, each once. */
  method UniqueStrings(values: seq<string>) returns (out: seq<string>)
    ensures Distinct(out)
    ensures forall s :: s in out <==> s != "" && exists i :: 0 <= i < |values| && s == TrimSpace(values[i])
  {
    var seen: set<string> := {};
    out := [];
    for i := 0 to |values|
      invariant Distinct(out) && forall s :: s in seen <==> s in out
      invariant forall s :: s in out <==> s != "" && exists k :: 0 <= k < i && s == TrimSpace(values[k])
    {
      var trimmed := TrimSpace(values[i]);
      if trimmed != "" && trimmed !in seen {
        seen := seen + {trimmed};
        out := out + [trimmed];
      }
    }
  }

  /** normalizeRulePath. */
  function Normal(value: string): (path: string)
    ensures path != [] && path[0] == '/' && path[|path| - 1] != '*'
  {
    var path := TrimSpace(value);
    if path == "" || path == "*" then "/"
    else
      var front := if HasSuffix(path, "/*") then path[..|path| - 2] else path;
      TrailingMeans(front, IsStar);
      var cut := TrimRight(front, IsStar);
      if cut == "" then "/" else if cut[0] == '/' then cut else "/" + cut
  }

  /** A path may come with a star or a slash and a star behind it, and without its leading slash. */
  lemma NormalOfStem(value: string, stem: string, tail: string)
    requires TrimSpace(value) == stem + tail && stem != "" && stem[|stem| - 1] != '*'
    requires tail == "" || (tail == "*" && stem[|stem| - 1] != '/') || tail == "/*"
    ensures Normal(value) == if stem[0] == '/' then stem else "/" + stem
  {
    var path := stem + tail;
    var front := if HasSuffix(path, "/*") then path[..|path| - 2] else path;
    FrontOfStem(path, stem, tail, front, "*", "/*");
    TrailingIs(front, IsStar, |stem|);
    assert front[..|stem|] == stem;
  }

  /** Without a slash and a star behind it, it is the stem, or that and a star. */
  lemma FrontOfStem(path: string, stem: string, tail: string, front: string, star: string, slashStar: string)
    requires path == stem + tail && stem != "" && stem[|stem| - 1] != '*' && star == "*" && slashStar == "/*"
    requires tail == "" || (tail == star && stem[|stem| - 1] != '/') || tail == slashStar
    requires front == if HasSuffix(path, slashStar) then path[..|path| - 2] else path
    ensures front == stem || front == stem + star
  {
    if tail == slashStar {
      assert path[|stem|..] == slashStar && path[..|stem|] == stem;
    } else if tail == star {
      assert |path| >= 2 && path[|path| - 2..][0] == stem[|stem| - 1];
    } else {
      assert path == stem && (|path| >= 2 ==> path[|path| - 2..][1] == stem[|stem| - 1]);
    }
  }

  /** The pattern for everything below a path. */
  function StarOf(path: string): string { if path == "/" then "/*" else path + "/*" }

  /** What expandDenyPolicyPaths makes of one path. */
  function Patterns(raw: string): seq<string> { [Normal(raw), StarOf(Normal(raw))] }

  method PatternsOf(raw: string) returns (out: seq<string>)
    ensures out == Patterns(raw)
  {
    var path := Normal(raw);
    if path == "/" { return ["/", "/*"]; }
    out := [path];
    if !HasSuffix(path, "/*") { out := out + [path + "/*"]; }
  }

  /** expandDenyPolicyPaths. */
  method ExpandDenyPolicyPaths(paths: seq<string>) returns (out: seq<string>)
    ensures Distinct(out)
    ensures forall s :: s in out <==> exists i :: 0 <= i < |paths| && IsPattern(paths[i], s)
  {
    if paths == [] { return []; }
    var all: seq<string> := [];
    for i := 0 to |paths|
      invariant forall s :: s in all <==> exists k :: 0 <= k < i && s in Patterns(paths[k])
    {
      var more := PatternsOf(paths[i]);
      all := all + more;
    }
    out := UniqueStrings(all);
    forall s ensures s in out <==> exists i :: 0 <= i < |paths| && IsPattern(paths[i], s) {
      PatternsKept(paths, all, s);
    }
  }

  /** One of the trimmed patterns of a path. */
  predicate IsPattern(raw: string, s: string) {
    s == TrimSpace(Normal(raw)) || s == StarOf(Normal(raw))
  }

  lemma StarIsTrimmed(path: string)
    requires path != [] && path[0] == '/'
    ensures TrimSpace(StarOf(path)) == StarOf(path) != ""
  {
    var star := StarOf(path);
    assert star[0] == '/' && star[|star| - 1] == '*';
    TrimSpaceTrims(star);
  }

  lemma TwoPatterns(a: string, b: string, s: string)
    requires TrimSpace(a) != "" && TrimSpace(b) == b != ""
    ensures s == TrimSpace(a) || s == b <==> s != "" && exists k :: 0 <= k < |[a, b]| && s == TrimSpace([a, b][k])
  {
    assert [a, b][0] == a && [a, b][1] == b;
  }

  lemma PatternsTrimmed(raw: string, s: string)
    ensures IsPattern(raw, s) <==> s != "" && exists k :: 0 <= k < |Patterns(raw)| && s == TrimSpace(Patterns(raw)[k])
  {
    TrimKeepsHead(Normal(raw));
    StarIsTrimmed(Normal(raw));
    TwoPatterns(Normal(raw), StarOf(Normal(raw)), s);
    assert Patterns(raw) == [Normal(raw), StarOf(Normal(raw))];
  }

  /** A string that starts with a slash keeps it when trimmed. */
  lemma TrimKeepsHead(s: string)
    requires s != [] && s[0] == '/'
    ensures TrimSpace(s) != "" && TrimSpace(s)[0] == '/' && TrimSpace(s) <= s
  {
    LeadingIs(s, IsSpace, 0);
    TrailingMeans(s, IsSpace);
  }

  lemma PatternsKept(paths: seq<string>, all: seq<string>, s: string)
    requires forall r :: r in all <==> exists k :: 0 <= k < |paths| && r in Patterns(paths[k])
    ensures (s != "" && exists i :: 0 <= i < |all| && s == TrimSpace(all[i])) <==>
            exists i :: 0 <= i < |paths| && IsPattern(paths[i], s)
  {
    if s != "" && exists i :: 0 <= i < |all| && s == TrimSpace(all[i]) {
      var i :| 0 <= i < |all| && s == TrimSpace(all[i]);
      assert all[i] in all;
      var k :| 0 <= k < |paths| && all[i] in Patterns(paths[k]);
      PatternsTrimmed(paths[k], s);
    }
    if i :| 0 <= i < |paths| && IsPattern(paths[i], s) {
      PatternsTrimmed(paths[i], s);
      var k :| 0 <= k < |Patterns(paths[i])| && s == TrimSpace(Patterns(paths[i])[k]);
      assert Patterns(paths[i])[k] in all;
    }
  }

  // ---- what prefixes and patterns match ----

  /** A route's `uri.prefix`. */
  predicate RoutePath(paths: seq<string>, x: string) {
    paths == [] || exists i :: 0 <= i < |paths| && Normal(paths[i]) <= x
  }

  /** A policy path: exact, or a prefix if it ends in a star. */
  predicate PatternMatches(s: string, x: string) {
    if s != "" && s[|s| - 1] == '*' then s[..|s| - 1] <= x else x == s
  }

  predicate PolicyPath(paths: seq<string>, x: string) {
    paths == [] || exists i :: 0 <= i < |paths| && OnePolicyPath(paths[i], x)
  }

  predicate OnePolicyPath(raw: string, x: string) {
    PatternMatches(TrimSpace(Normal(raw)), x)
    || PatternMatches(StarOf(Normal(raw)), x)
  }

  /** The text before a pattern's star. */
  function Stem(s: string): string {
    if s != "" && s[|s| - 1] == '*' then s[..|s| - 1] else s
  }

  /** The first pattern of path `i` stays below the prefix of some path. */
  predicate Covered(paths: seq<string>, i: nat)
    requires i < |paths|
  {
    exists j :: 0 <= j < |paths| && Normal(paths[j]) <= Stem(TrimSpace(Normal(paths[i])))
  }

  /**
   * Everything the policy matches is matched by a route exactly when every path is covered. That fails for a path
   * whose normal form ends in white space, as in SpaceEscapes, for policy paths are trimmed once more.
   */
  lemma PolicyWithinRoutesIff(paths: seq<string>)
    ensures (forall x :: PolicyPath(paths, x) ==> RoutePath(paths, x)) <==>
            (forall i :: 0 <= i < |paths| ==> Covered(paths, i))
  {
    if forall x :: PolicyPath(paths, x) ==> RoutePath(paths, x) {
      forall i | 0 <= i < |paths| ensures Covered(paths, i) {
        var x := Stem(TrimSpace(Normal(paths[i])));
        assert OnePolicyPath(paths[i], x);
        assert PolicyPath(paths, x);
      }
    }
    if forall i :: 0 <= i < |paths| ==> Covered(paths, i) {
      forall x | PolicyPath(paths, x) ensures RoutePath(paths, x) {
        if paths != [] {
          var i :| 0 <= i < |paths| && OnePolicyPath(paths[i], x);
          WithinPrefix(paths, i, x);
        }
      }
    }
  }

  lemma WithinPrefix(paths: seq<string>, i: nat, x: string)
    requires i < |paths| && OnePolicyPath(paths[i], x) && Covered(paths, i)
    ensures RoutePath(paths, x)
  {
    var path := Normal(paths[i]);
    var pattern := TrimSpace(path);
    if PatternMatches(pattern, x) {
      var j :| 0 <= j < |paths| && Normal(paths[j]) <= Stem(pattern);
      StemWithin(pattern, Normal(paths[j]), x);
    } else {
      StarIsBelow(path, "/", x);
      assert path <= x;
    }
  }

  lemma StemWithin(pattern: string, prefix: string, x: string)
    requires PatternMatches(pattern, x) && prefix <= Stem(pattern)
    ensures prefix <= x
  {
  }

  predicate Solid(paths: seq<string>) {
    forall i :: 0 <= i < |paths| ==> Trimmed(Normal(paths[i]))
  }

  /** Paths without inner white space at the end are covered by themselves. */
  lemma SolidIsCovered(paths: seq<string>, i: nat)
    requires Solid(paths) && i < |paths|
    ensures Covered(paths, i)
  {
    TrimSpaceTrims(Normal(paths[i]));
    assert Normal(paths[i]) <= Stem(TrimSpace(Normal(paths[i])));
  }

  /** A policy that matches more than the routes, because of one space. */
  lemma SpaceEscapes(paths: seq<string>, x: string)
    requires paths == ["/a /*"] && x == "/a"
    ensures PolicyPath(paths, x) && !RoutePath(paths, x)
  {
    SpaceNormal(paths[0], "/a ", x);
    assert x[|x| - 1] == 'a';
    ShorterEscapes(paths, x);
  }

  /** A policy path that trimming has made shorter than the route's prefix. */
  lemma ShorterEscapes(paths: seq<string>, x: string)
    requires |paths| == 1 && |x| < |Normal(paths[0])| && TrimSpace(Normal(paths[0])) == x && x != "" && x[|x| - 1] != '*'
    ensures PolicyPath(paths, x) && !RoutePath(paths, x)
  {
    assert PatternMatches(x, x);
    assert OnePolicyPath(paths[0], x);
  }

  lemma SpaceNormal(raw: string, path: string, x: string)
    requires raw == "/a /*" && path == "/a " && x == "/a"
    ensures Normal(raw) == path && TrimSpace(path) == x
  {
    TrimSpaceTrims(raw);
    assert TrimSpace(raw) == raw && raw[..3] == path;
    TrailingIs(path, IsStar, 3);
    LeadingIs(path, IsSpace, 0);
    TrailingIs(path, IsSpace, 2);
    assert path[0..] == path && path[..2] == x;
  }

  /** `x` is the path, or below it at a segment boundary. */
  predicate AtOrBelow(path: string, x: string) {
    x == path || (if path == "/" then "/" <= x else path + "/" <= x)
  }

  /** For solid paths, the policy matches exactly the paths at or below a rule path at a segment boundary. */
  lemma PolicyIsSegments(paths: seq<string>, x: string)
    requires Solid(paths)
    ensures PolicyPath(paths, x) <==>
            paths == [] || exists i :: 0 <= i < |paths| && AtOrBelow(Normal(paths[i]), x)
  {
    forall i | 0 <= i < |paths| ensures OnePolicyPath(paths[i], x) <==> AtOrBelow(Normal(paths[i]), x) {
      OnePolicyIsSegments(paths[i], x);
    }
  }

  lemma OnePolicyIsSegments(raw: string, x: string)
    requires Trimmed(Normal(raw))
    ensures OnePolicyPath(raw, x) <==> AtOrBelow(Normal(raw), x)
  {
    TrimSpaceTrims(Normal(raw));
    StarIsBelow(Normal(raw), "/", x);
  }

  /** The pattern of a path that ends in no star stands for itself, the one with a star for what is below it. */
  lemma StarIsBelow(path: string, root: string, x: string)
    requires path != [] && path[|path| - 1] != '*' && root == "/"
    ensures PatternMatches(path, x) <==> x == path
    ensures PatternMatches(StarOf(path), x) <==> if path == root then root <= x else path + root <= x
  {
    var star := StarOf(path);
    assert star[|star| - 1] == '*';
    assert star[..|star| - 1] == if path == root then root else path + root;
  }

  /** So routes and policy agree at and below every rule path, counting whole segments. */
  lemma SegmentsAgree(paths: seq<string>, i: nat, x: string)
    requires Solid(paths) && i < |paths| && AtOrBelow(Normal(paths[i]), x)
    ensures PolicyPath(paths, x) && RoutePath(paths, x)
  {
    PolicyIsSegments(paths, x);
    assert Normal(paths[i]) <= x;
  }

  /** Everything below a path, where one that ends in a slash already names a whole segment. */
  predicate Below(path: string, x: string)
    requires path != []
  {
    x == path || (if path[|path| - 1] == '/' then path <= x else path + "/" <= x)
  }

  /** The policy of one path reaches everything below it exactly when the path has no trailing slash. */
  lemma PolicyReachesBelowIff(raw: string)
    requires Trimmed(Normal(raw))
    ensures (forall x :: Below(Normal(raw), x) ==> OnePolicyPath(raw, x)) <==>
            Normal(raw) == "/" || Normal(raw)[|Normal(raw)| - 1] != '/'
  {
    var path := Normal(raw);
    forall x ensures OnePolicyPath(raw, x) <==> AtOrBelow(path, x) {
      OnePolicyIsSegments(raw, x);
    }
    if path != "/" && path[|path| - 1] == '/' {
      var x := path + "a";
      assert Below(path, x) && x[|path|] == 'a' && (path + "/")[|path|] == '/';
      assert !AtOrBelow(path, x);
    }
  }
}
