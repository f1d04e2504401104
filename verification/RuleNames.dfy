/** The names of a rule's resources, cut to 63 characters, and when two of them meet. */
module RuleNames {
  import opened Text
  import opened KubeNames
  import opened RuleReconcile

  function OrElse(s: string, fallback: string): string { if s == "" then fallback else s }

  /** A resource name, cut to 63 characters without a dash at the end. */
  function Cut(name: string): string {
    if |name| <= 63 then name else Trim(name[..63], IsDash)
  }

  function Dashed(a: string, b: string): string { a + "-" + b }

  /** The service's part of all these names. */
  function ServicePart(service: string): string { OrElse(KubeName(service), "service") }

  function RulePart(ruleId: string): string { OrElse(KubeName(ruleId), "rule") }

  /** The rule's part of the deny policy's name: the rule's name, its id if there is none. */
  function DenyPart(ruleName: string, ruleId: string): string {
    OrElse(KubeName(ruleName), RulePart(ruleId))
  }

  /** buildSecurityResourceName. */
  function SecurityName(service: string, ruleId: string, suffix: string): string {
    Cut(Dashed(ServicePart(service), Dashed(RulePart(ruleId), suffix)))
  }

  /** BuildDenyPolicyName. */
  function DenyName(service: string, ruleName: string, ruleId: string): string {
    Cut(Dashed(ServicePart(service), "deny-" + DenyPart(ruleName, ruleId)))
  }

  /** RuleVirtualServiceName. */
  function VirtualServiceName(service: string, ruleId: string): string {
    if service + "-" <= RulePart(ruleId) then RulePart(ruleId) else Dashed(service, RulePart(ruleId))
  }

  /** The names of one rule of one service. */
  function NamesFor(service: string, ruleName: string, ruleId: string, app: string, gateway: string): Names {
    Names(app, gateway, VirtualServiceName(service, ruleId), DenyName(service, ruleName, ruleId),
          SecurityName(service, ruleId, "jwt"), SecurityName(service, ruleId, "require-auth"),
          SecurityName(service, ruleId, "gw"), SecurityName(service, ruleId, "gjwt"),
          SecurityName(service, ruleId, "rl"), SecurityName(service, ruleId, "dr"),
          SecurityName(service, ruleId, "mtls"), SecurityName(service, ruleId, "net"))
  }

  // ---- when two cut names meet ----

  /** A text that starts with no dash. */
  predicate Headed(s: string) { s != "" && s[0] != '-' }

  /** What is left of a text in so many characters. */
  function Head(s: string, room: nat): string {
    if |s| <= room then s else TrimRight(s[..room], IsDash)
  }

  /** Two texts behind one service's part end up as one name. */
  predicate Meet(service: string, x: string, y: string) {
    |service| >= 62 || Head(x, 62 - |service|) == Head(y, 62 - |service|)
  }

  lemma TrimBehind(s: string, t: string)
    requires Headed(t)
    ensures TrimRight(s + t, IsDash) == s + TrimRight(t, IsDash)
  {
    TrailingMeans(t, IsDash);
    var k := Trailing(t, IsDash);
    assert k > 0;
    assert (s + t)[|s| + k - 1] == t[k - 1];
    assert forall i :: |s| + k <= i < |s + t| ==> (s + t)[i] == t[i - |s|];
    TrailingIs(s + t, IsDash, |s| + k);
    assert (s + t)[..|s| + k] == s + t[..k];
  }

  /** A name that leaves room is the service's part and the head of the rest. */
  lemma CutLeaves(s: string, x: string)
    requires Headed(s) && Headed(x) && |s| < 62
    ensures Cut(Dashed(s, x)) == s + "-" + Head(x, 62 - |s|)
  {
    var full, room := Dashed(s, x), 62 - |s|;
    if |full| > 63 {
      var t := x[..room];
      assert full[..63] == s + "-" + t;
      LeadingIs(full[..63], IsDash, 0);
      assert full[..63][0..] == full[..63];
      TrimBehind(s + "-", t);
    }
  }

  /** A name that leaves none depends on the service's part alone. */
  lemma CutLeavesNone(s: string, x: string)
    requires Headed(s) && Headed(x) && |s| >= 62
    ensures Cut(Dashed(s, x)) == Trim((s + "-")[..63], IsDash)
  {
    assert Dashed(s, x)[..63] == (s + "-")[..63];
  }

  /**
   * Two names of one service meet exactly when its part has 62 characters or more, or when what follows agrees in the
   * room that is left, dashes at the end aside.
   */
  lemma CutMeetsIff(s: string, x: string, y: string)
    requires Headed(s) && Headed(x) && Headed(y)
    ensures Cut(Dashed(s, x)) == Cut(Dashed(s, y)) <==> Meet(s, x, y)
  {
    if |s| >= 62 {
      CutLeavesNone(s, x);
      CutLeavesNone(s, y);
    } else {
      CutLeaves(s, x);
      CutLeaves(s, y);
      var a, b := Head(x, 62 - |s|), Head(y, 62 - |s|);
      if s + "-" + a == s + "-" + b {
        assert (s + "-" + a)[|s| + 1..] == a && (s + "-" + b)[|s| + 1..] == b;
      }
    }
  }

  lemma PartsHeaded(service: string, ruleName: string, ruleId: string)
    ensures Headed(ServicePart(service)) && Headed(RulePart(ruleId)) && Headed(DenyPart(ruleName, ruleId))
  {
    JoinShape(Words(ToLower(service)));
    JoinShape(Words(ToLower(ruleName)));
    JoinShape(Words(ToLower(ruleId)));
  }

  /** The deny policy of a rule and its require-auth policy have one name exactly when this holds. */
  lemma DenyMeetsRequireAuthIff(service: string, ruleName: string, ruleId: string)
    ensures DenyName(service, ruleName, ruleId) == SecurityName(service, ruleId, "require-auth") <==>
              Meet(ServicePart(service), "deny-" + DenyPart(ruleName, ruleId), Dashed(RulePart(ruleId), "require-auth"))
  {
    PartsHeaded(service, ruleName, ruleId);
    CutMeetsIff(ServicePart(service), "deny-" + DenyPart(ruleName, ruleId), Dashed(RulePart(ruleId), "require-auth"));
  }

  /** Where both fit uncut, that takes a rule id that starts with "deny" and a rule name that ends in "require-auth". */
  lemma FittingNamesMeetIff(s: string, q: string, r: string, deny: string, requireAuth: string)
    requires Headed(q) && Headed(r) && deny == "deny-" && requireAuth == "require-auth"
    requires |s| + 1 + |deny + q| <= 63 && |s| + 1 + |Dashed(r, requireAuth)| <= 63
    ensures Meet(s, deny + q, Dashed(r, requireAuth)) <==>
      (r + "-" == deny && q == requireAuth)
      || (deny <= r && |r| > |deny| && q == Dashed(r[|deny|..], requireAuth))
  {
    var x, y := deny + q, Dashed(r, requireAuth);
    assert Meet(s, x, y) <==> x == y;
    assert |r| < 4 ==> x[|r|] != y[|r|];
    if x == y && |r| == 4 {
      assert x[..5] == deny && y[..5] == r + "-";
      assert x[5..] == q && y[5..] == requireAuth;
    }
    if x == y && |r| > 4 {
      assert x[..5] == deny && y[..5] == r[..5];
      assert x[5..] == q && y[5..] == Dashed(r[5..], requireAuth);
    }
    if deny <= r && |r| > |deny| { assert r == deny + r[|deny|..]; }
  }

  /**
   * A published rule, whose service and gateway live in different namespaces, is settled by its deploy exactly when
   * its deny policy and its require-auth policy have two names, or it asks for neither.
   */
  lemma NamedSettlesIff(base: Store, service: string, ruleName: string, ruleId: string, app: string, gateway: string,
                        c: Compiled)
    requires !Stops(c) && c.published && app != gateway
    ensures var n := NamesFor(service, ruleName, ruleId, app, gateway);
            Settled(Written(base, DeployWrites(n, c)), n, c) <==>
              (!c.deny && !c.jwt.Jwt?)
              || !Meet(ServicePart(service), "deny-" + DenyPart(ruleName, ruleId),
                       Dashed(RulePart(ruleId), "require-auth"))
  {
    SettlesApartIff(base, NamesFor(service, ruleName, ruleId, app, gateway), c);
    DenyMeetsRequireAuthIff(service, ruleName, ruleId);
  }

  /** A rule's id starts with the name of a service and a dash. */
  predicate Prefixed(service: string, ruleId: string) { service + "-" <= RulePart(ruleId) }

  /**
   * Names do not say where the service ends and the rule begins. Rule "m-r" of service "s" and rule "r" of service
   * "s-m" share the eight names that are built from service and id alone; the VirtualService's too unless one of the
   * ids repeats its service; and the deny policy's exactly when "deny-" and what follows meets "m-deny-" and what
   * follows.
   */
  lemma RulesShareNames(s: string, m: string, r: string, suffix: string, a: string, b: string)
    requires Plain(s) && Plain(r) && Plain(Dashed(s, m)) && Plain(Dashed(m, r))
    ensures SecurityName(s, Dashed(m, r), suffix) == SecurityName(Dashed(s, m), r, suffix)
    ensures VirtualServiceName(s, Dashed(m, r)) == VirtualServiceName(Dashed(s, m), r) <==>
              !Prefixed(s, Dashed(m, r)) && !Prefixed(Dashed(s, m), r)
    ensures DenyName(s, a, Dashed(m, r)) == DenyName(Dashed(s, m), b, r) <==>
              Meet(s, "deny-" + DenyPart(a, Dashed(m, r)), Dashed(m, "deny-" + DenyPart(b, r)))
  {
    DashesRegroup(m, r, suffix);
    DashesRegroup(s, m, Dashed(r, suffix));
    DashesRegroup(s, m, r);
    SharedDenyIff(s, m, r, a, b, "deny-");
  }

  /** A name that needs no normalising. */
  predicate Plain(name: string) { name != "" && KubeName(name) == name }

  lemma SharedDenyIff(s: string, m: string, r: string, a: string, b: string, deny: string)
    requires Plain(s) && Plain(r) && Plain(Dashed(s, m)) && Plain(Dashed(m, r)) && deny == "deny-"
    ensures DenyName(s, a, Dashed(m, r)) == DenyName(Dashed(s, m), b, r) <==>
              Meet(s, deny + DenyPart(a, Dashed(m, r)), Dashed(m, deny + DenyPart(b, r)))
  {
    PartsHeaded(s, a, Dashed(m, r));
    PlainIsHeaded(Dashed(m, r));
    DashesRegroup(s, m, deny + DenyPart(b, r));
    CutMeetsIff(s, deny + DenyPart(a, Dashed(m, r)), Dashed(m, deny + DenyPart(b, r)));
  }

  lemma PlainIsHeaded(name: string)
    requires Plain(name)
    ensures Headed(name)
  {
    JoinShape(Words(ToLower(name)));
  }

  /** So in one namespace, and whatever the rules are called, neither of the two leaves the other alone. */
  lemma RulesDisturb(s: string, m: string, r: string, a: string, b: string, app: string, gateway: string)
    requires Plain(s) && Plain(r) && Plain(Dashed(s, m)) && Plain(Dashed(m, r))
    ensures !Isolated(NamesFor(s, a, Dashed(m, r), app, gateway), NamesFor(Dashed(s, m), b, r, app, gateway))
    ensures !Isolated(NamesFor(Dashed(s, m), b, r, app, gateway), NamesFor(s, a, Dashed(m, r), app, gateway))
  {
    var one := NamesFor(s, a, Dashed(m, r), app, gateway);
    var two := NamesFor(Dashed(s, m), b, r, app, gateway);
    RulesShareNames(s, m, r, "jwt", a, b);
    SharedKeyDisturbs(one, two);
    SharedKeyDisturbs(two, one);
  }

  lemma SharedKeyDisturbs(n: Names, m: Names)
    requires n.app == m.app && n.jwt == m.jwt
    ensures !Isolated(n, m)
  {
    assert JwtKey(n) in Owned(n) && JwtKey(n) in Owned(m);
    IsolatedIff(n, m, map[]);
  }

  lemma DashesRegroup(a: string, b: string, c: string)
    ensures Dashed(a, Dashed(b, c)) == Dashed(Dashed(a, b), c)
  {
  }

  // ---- names that need no normalising ----

  lemma PlainStays(j: string)
    requires DashedWord(j)
    ensures ToLower(j) == j
  {
  }

  lemma WordsAreNames(ws: seq<string>)
    requires ws != [] && forall i :: 0 <= i < |ws| ==> IsWord(ws[i])
    ensures KubeName(Join(ws)) == Join(ws) && Join(ws) != ""
  {
    JoinShape(ws);
    PlainStays(Join(ws));
    RunsOfJoin(ws);
  }

  lemma WordIsName(w: string)
    requires IsWord(w)
    ensures KubeName(w) == w && w != ""
  {
    WordsAreNames([w]);
  }

  lemma WordsDoNotMeet(service: string, q: string, r: string, deny: string, requireAuth: string)
    requires IsWord(q) && IsWord(r) && deny == "deny-" && requireAuth == "require-auth"
    requires |service| + |q| <= 57 && |service| + |r| <= 49
    ensures !Meet(service, deny + q, Dashed(r, requireAuth))
  {
    assert requireAuth[7] == '-' && deny[4] == '-';
    FittingNamesMeetIff(service, q, r, deny, requireAuth);
  }

  /** A service, a rule and its id that are one short word each have two policies with two names. */
  lemma ShortWordsApart(service: string, ruleName: string, ruleId: string)
    requires IsWord(service) && IsWord(ruleName) && IsWord(ruleId)
    requires |service| + |ruleName| <= 57 && |service| + |ruleId| <= 49
    ensures DenyName(service, ruleName, ruleId) != SecurityName(service, ruleId, "require-auth")
  {
    WordIsName(service);
    WordIsName(ruleName);
    WordIsName(ruleId);
    DenyMeetsRequireAuthIff(service, ruleName, ruleId);
    WordsDoNotMeet(service, ruleName, ruleId, "deny-", "require-auth");
  }

  lemma ShortIsUncut(service: string, x: string)
    requires |service| + 1 + |x| <= 63
    ensures Cut(Dashed(service, x)) == service + "-" + x
  {
  }

  /** For a service, a rule and its id that are one short word each, the names say what they are. */
  lemma ShortNamesAre(service: string, ruleName: string, ruleId: string, app: string, gateway: string)
    requires IsWord(service) && IsWord(ruleName) && IsWord(ruleId)
    requires |service| + |ruleName| <= 57 && |service| + |ruleId| <= 49
    ensures var s, r := service + "-", service + "-" + ruleId;
            NamesFor(service, ruleName, ruleId, app, gateway) ==
            Names(app, gateway, r, s + "deny-" + ruleName, r + "-jwt", r + "-require-auth", r + "-gw", r + "-gjwt",
                  r + "-rl", r + "-dr", r + "-mtls", r + "-net")
  {
    WordIsName(service);
    WordIsName(ruleName);
    WordIsName(ruleId);
    WordHasNoDash(service, ruleId, "-");
    ShortSecurities(service, ruleId);
    ShortDeny(service, ruleName, ruleId, "deny-");
  }

  lemma WordHasNoDash(service: string, word: string, dash: string)
    requires IsWord(word) && dash == "-"
    ensures !(service + dash <= word)
  {
    assert (service + dash)[|service|] == '-';
    assert |service| < |word| ==> IsAlnum(word[|service|]);
  }

  lemma ShortSecurities(service: string, ruleId: string)
    requires ServicePart(service) == service && RulePart(ruleId) == ruleId && |service| + |ruleId| <= 49
    ensures var r := service + "-" + ruleId;
            && SecurityName(service, ruleId, "jwt") == r + "-jwt"
            && SecurityName(service, ruleId, "require-auth") == r + "-require-auth"
            && SecurityName(service, ruleId, "gw") == r + "-gw" && SecurityName(service, ruleId, "gjwt") == r + "-gjwt"
            && SecurityName(service, ruleId, "rl") == r + "-rl" && SecurityName(service, ruleId, "dr") == r + "-dr"
            && SecurityName(service, ruleId, "mtls") == r + "-mtls" && SecurityName(service, ruleId, "net") == r + "-net"
  {
    ShortSecurity(service, ruleId, "jwt");
    ShortSecurity(service, ruleId, "require-auth");
    ShortSecurity(service, ruleId, "gw");
    ShortSecurity(service, ruleId, "gjwt");
    ShortSecurity(service, ruleId, "rl");
    ShortSecurity(service, ruleId, "dr");
    ShortSecurity(service, ruleId, "mtls");
    ShortSecurity(service, ruleId, "net");
  }

  lemma ShortSecurity(service: string, ruleId: string, suffix: string)
    requires ServicePart(service) == service && RulePart(ruleId) == ruleId && |service| + |ruleId| + |suffix| <= 61
    ensures SecurityName(service, ruleId, suffix) == service + "-" + ruleId + ("-" + suffix)
  {
    ShortIsUncut(service, Dashed(ruleId, suffix));
    assert service + "-" + (ruleId + "-" + suffix) == service + "-" + ruleId + ("-" + suffix);
  }

  lemma ShortDeny(service: string, ruleName: string, ruleId: string, deny: string)
    requires ServicePart(service) == service && DenyPart(ruleName, ruleId) == ruleName && deny == "deny-"
    requires |service| + |ruleName| <= 57
    ensures DenyName(service, ruleName, ruleId) == service + "-" + deny + ruleName
  {
    ShortIsUncut(service, deny + ruleName);
    assert service + "-" + (deny + ruleName) == service + "-" + deny + ruleName;
  }
}
