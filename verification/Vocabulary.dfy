/** The words that the code compares with, one by one. */
module Vocabulary {
  import opened Text
  import opened Manifests
  import opened RulePaths
  import opened RuleRoutes
  import opened RulePublish
  import AutoDeploy

  /** How the code reads a word: in any case, with white space around it. */
  function Read(raw: string): string { ToLower(TrimSpace(raw)) }

  /** A rule denies exactly when its action says "deny"; then it answers 403, and never otherwise. */
  lemma DenyWord(rule: Rule, req: Request)
    ensures Read(rule.action) == "deny" ==> Expected(rule, req) in {Responded(403), Unmatched}
    ensures Read(rule.action) != "deny" ==> Expected(rule, req) != Responded(403)
  {
  }

  /** A rule that allows, in API-key mode and with no header of its own, asks for a key in "x-api-key". */
  lemma ApiKeyWord(rule: Rule, req: Request)
    requires Read(rule.action) != "deny" && Read(rule.authMode) == "apikey" && Read(rule.apiKeyHeader) == ""
    ensures Expected(rule, req) == Forwarded ==>
              "x-api-key" in req.headers
              && exists i :: 0 <= i < |rule.apiKeys| && TrimSpace(rule.apiKeys[i]) == req.headers["x-api-key"] != ""
  {
  }

  /** With one of its keys there, and the headers it requires, the request is let through. */
  lemma ApiKeyOpens(rule: Rule, req: Request, i: nat)
    requires Read(rule.action) != "deny" && Read(rule.authMode) == "apikey" && Base(rule, req)
    requires i < |rule.apiKeys| && TrimSpace(rule.apiKeys[i]) != ""
    requires var header := if Read(rule.apiKeyHeader) == "" then "x-api-key" else Read(rule.apiKeyHeader);
             header in req.headers && req.headers[header] == TrimSpace(rule.apiKeys[i])
    requires forall k :: 0 <= k < |rule.requiredHeaders| && Read(rule.requiredHeaders[k]) != "" ==>
               Read(rule.requiredHeaders[k]) in req.headers && req.headers[Read(rule.requiredHeaders[k])] != ""
    ensures Expected(rule, req) == Forwarded
  {
  }

  /** In any other mode the required headers are all it asks for. */
  lemma NoKeyWord(rule: Rule, req: Request)
    requires Read(rule.action) != "deny" && Read(rule.authMode) != "apikey" && Base(rule, req)
    requires forall i :: 0 <= i < |rule.requiredHeaders| && Read(rule.requiredHeaders[i]) != "" ==>
               Read(rule.requiredHeaders[i]) in req.headers && req.headers[Read(rule.requiredHeaders[i])] != ""
    ensures Expected(rule, req) == Forwarded
  {
  }

  /** The statuses of a deploy that is under way. */
  lemma StatusWords(status: string)
    ensures AutoDeploy.Blocking(status) <==>
      || Read(status) == "queued" || Read(status) == "in-progress" || Read(status) == "retrying"
      || Read(status) == "deploying" || Read(status) == "preparing" || Read(status) == "scheduled"
      || Read(status) == "requested"
  {
  }

  /** The four kinds of environment names. */
  lemma EnvironmentWords(value: string)
    ensures Read(value) in {"", "prod", "production", "live"} ==> AutoDeploy.Environment(value) == "prod"
    ensures Read(value) in {"staging", "stage", "pre-prod", "preprod", "uat"} ==>
              AutoDeploy.Environment(value) == "staging"
    ensures Read(value) in {"dev", "development", "qa", "sandbox", "test", "testing", "preview", "local"} ==>
              AutoDeploy.Environment(value) == "dev"
    ensures AutoDeploy.Environment(value) in {"prod", "staging", "dev", Read(value)}
  {
  }

  /** An environment's name stands for itself. */
  lemma EnvironmentTwice(value: string)
    ensures AutoDeploy.Environment(AutoDeploy.Environment(value)) == AutoDeploy.Environment(value)
  {
    var e := OneOfFour(value, "prod", "staging", "dev");
    if e == Read(value) {
      ReadTwice(value);
      SameReadSameName(e, value);
    } else {
      NameStands(e);
    }
  }

  lemma OneOfFour(value: string, prod: string, staging: string, dev: string) returns (e: string)
    requires prod == "prod" && staging == "staging" && dev == "dev"
    ensures e == AutoDeploy.Environment(value) && e in {prod, staging, dev, Read(value)}
  {
    e := AutoDeploy.Environment(value);
    EnvironmentWords(value);
  }

  lemma SameReadSameName(a: string, b: string)
    requires Read(a) == Read(b)
    ensures AutoDeploy.Environment(a) == AutoDeploy.Environment(b)
  {
  }

  lemma NameStands(e: string)
    requires e in {"prod", "staging", "dev"}
    ensures AutoDeploy.Environment(e) == e
  {
    NamesStand("prod", "staging", "dev");
    EnvironmentWords(e);
  }

  lemma ReadTwice(raw: string)
    ensures Read(Read(raw)) == Read(raw)
  {
    var t := TrimSpace(raw);
    TrimSpaceTrims(raw);
    LowerKeepsTrimmed(t);
    TrimSpaceTrims(ToLower(t));
    LowerTwice(t);
  }

  lemma NamesStand(prod: string, staging: string, dev: string)
    requires prod == "prod" && staging == "staging" && dev == "dev"
    ensures Read(prod) == prod && Read(staging) == staging && Read(dev) == dev
  {
    TrimSpaceTrims(prod);
    TrimSpaceTrims(staging);
    TrimSpaceTrims(dev);
  }

  /** A rule that names methods takes a request of its paths exactly if one of them, in upper case, is the request's. */
  lemma MethodWords(rule: Rule, req: Request, i: nat)
    requires i < |rule.methods| && TrimSpace(rule.methods[i]) != ""
    ensures Base(rule, req) <==>
              RoutePath(PathsOrRoot(rule.paths), req.path) && req.verb != ""
              && exists k :: 0 <= k < |rule.methods| && ToUpper(TrimSpace(rule.methods[k])) == req.verb
  {
    assert ToUpper(TrimSpace(rule.methods[i])) != "";
  }

  /** The word for a static site, in any case. */
  lemma StaticSiteWord(svc: Service, word: string)
    requires word == "static-site" && forall i :: 0 <= i < |svc.kind| ==> svc.kind[i] as int < 128
    ensures IsStaticSite(svc) <==> ToLower(svc.kind) == word
  {
    var kind := svc.kind;
    if |kind| == |word| {
      forall i | 0 <= i < |word| ensures FoldChar(kind[i]) == FoldChar(word[i]) <==> ToLower(kind)[i] == word[i] {
        FoldsAsLowered(kind[i], word[i]);
      }
    }
    assert IsStaticSite(svc) <==> |kind| == |word| && forall i :: 0 <= i < |word| ==> FoldChar(kind[i]) == FoldChar(word[i]);
  }

  lemma FoldsAsLowered(c: char, low: char)
    requires c as int < 128 && (low == '-' || 'a' <= low <= 'z')
    ensures FoldChar(c) == FoldChar(low) <==> LowerChar(c) == low
  {
  }

  /** Commits are compared in any case, and without white space around them. */
  lemma CommitWords(a: string, b: string)
    ensures AutoDeploy.Commit(a) == AutoDeploy.Commit(b) <==> Read(a) == Read(b)
  {
  }

  // ---- keys ----

  /** Where the first bar of a text is. */
  predicate BarAt(s: string, n: nat) {
    n < |s| && s[n] == '|' && forall i :: 0 <= i < n ==> s[i] != '|'
  }

  lemma OneBar(s: string, t: string, m: nat, n: nat)
    requires BarAt(s, m) && BarAt(t, n) && s == t
    ensures m == n
  {
  }

  lemma BarBehind(a: string, e: string, bar: string)
    requires (forall i :: 0 <= i < |a| ==> a[i] != '|') && bar == "|"
    ensures BarAt(a + bar + e, |a|) && (a + bar + e)[..|a|] == a && (a + bar + e)[|a| + 1..] == e
  {
  }

  predicate NoBar(s: string) { forall i :: 0 <= i < |s| ==> s[i] != '|' }

  /** A service in an environment has a key of its own. */
  lemma StateKeysApart(a: string, e: string, b: string, f: string)
    requires NoBar(TrimSpace(a)) && NoBar(TrimSpace(b))
    ensures AutoDeploy.StateKey(a, e) == AutoDeploy.StateKey(b, f) <==>
              TrimSpace(a) == TrimSpace(b) && AutoDeploy.Environment(e) == AutoDeploy.Environment(f)
  {
    BarsApart(TrimSpace(a), AutoDeploy.Environment(e), TrimSpace(b), AutoDeploy.Environment(f), "|");
  }

  lemma BarsApart(a: string, e: string, b: string, f: string, bar: string)
    requires NoBar(a) && NoBar(b) && bar == "|"
    ensures a + bar + e == b + bar + f <==> a == b && e == f
  {
    BarBehind(a, e, bar);
    BarBehind(b, f, bar);
    if a + bar + e == b + bar + f { OneBar(a + bar + e, b + bar + f, |a|, |b|); }
  }

  /** And so has each of its commits. */
  lemma QueueKeysApart(k: string, c: string, l: string, d: string, bar: string)
    requires NoBar(c) && NoBar(d) && bar == "|"
    ensures AutoDeploy.QueueKey(k, c) == AutoDeploy.QueueKey(l, d) <==> k == l && c == d
  {
    var s, t := k + bar + c, l + bar + d;
    assert s[|k|] == '|' && t[|l|] == '|';
    if |k| < |l| < |s| { BehindTheBar(k, c, bar, |l|); }
    if |l| < |k| < |t| { BehindTheBar(l, d, bar, |k|); }
    if s == t { assert s[..|k|] == k && t[..|l|] == l && s[|k| + 1..] == c && t[|l| + 1..] == d; }
  }

  lemma BehindTheBar(k: string, c: string, bar: string, n: nat)
    requires NoBar(c) && bar == "|" && |k| < n < |k + bar + c|
    ensures (k + bar + c)[n] != '|'
  {
    assert (k + bar + c)[n] == c[n - |k| - 1];
  }
}
