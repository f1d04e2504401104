/** Kubernetes names: the in-place normaliser of kube_name_format.go against a split-and-join. */
module KubeNames {
  import opened Text

  predicate IsAlnum(c: char) { 'a' <= c <= 'z' || '0' <= c <= '9' }

  predicate IsDash(c: char) { c == '-' }

  predicate IsWord(w: string) { w != [] && forall i :: 0 <= i < |w| ==> IsAlnum(w[i]) }

  /** The maximal runs of lower-case letters and digits, left to right. */
  function Words(s: string): (ws: seq<string>)
    ensures forall i :: 0 <= i < |ws| ==> IsWord(ws[i])
    ensures s != [] && IsAlnum(s[0]) ==> ws != []
  {
    if s == [] then []
    else if !IsAlnum(s[0]) then Words(s[1..])
    else if |s| > 1 && IsAlnum(s[1]) then
      var rest := Words(s[1..]);
      [[s[0]] + rest[0]] + rest[1..]
    else [[s[0]]] + Words(s[1..])
  }

  function Join(ws: seq<string>): string {
    if ws == [] then [] else if |ws| == 1 then ws[0] else ws[0] + "-" + Join(ws[1..])
  }

  /** What a Kubernetes name should be: the words of the lowered text, joined by single dashes. */
  function KubeName(value: string): string {
    Join(Words(ToLower(value)))
  }

  function MapRune(c: char): char { if IsAlnum(c) || c == '-' then c else '-' }

  function MapRunes(s: string): (r: string)
    ensures |r| == |s|
    ensures forall i :: 0 <= i < |s| ==> r[i] == MapRune(s[i])
  {
    if s == [] then [] else [MapRune(s[0])] + MapRunes(s[1..])
  }

  /** `strings.ReplaceAll(s, [c], "-")` for a single character. */
  function WithDashes(s: string, c: char): (r: string)
    ensures |r| == |s|
    ensures forall i :: 0 <= i < |s| ==> r[i] == if s[i] == c then '-' else s[i]
  {
    if s == [] then [] else [if s[0] == c then '-' else s[0]] + WithDashes(s[1..], c)
  }

  /** `strings.ReplaceAll(s, "--", "-")`: leftmost, non-overlapping. */
  function HalveDashes(s: string): (r: string)
    ensures |r| <= |s|
  {
    if s == [] then []
    else if |s| > 1 && s[0] == '-' && s[1] == '-' then "-" + HalveDashes(s[2..])
    else [s[0]] + HalveDashes(s[1..])
  }

  predicate SingleDashes(s: string) {
    forall i :: 0 <= i < |s| - 1 ==> s[i] != '-' || s[i + 1] != '-'
  }

  /** Lower-case letters, digits and dashes, with a letter or digit at both ends. */
  predicate DashedWord(s: string) {
    && (forall i :: 0 <= i < |s| ==> IsAlnum(s[i]) || s[i] == '-')
    && (s != [] ==> IsAlnum(s[0]) && IsAlnum(s[|s| - 1]))
  }

  /** The label shape of section 2.1 of RFC 1123. */
  predicate IsLabel(s: string) { 1 <= |s| <= 63 && DashedWord(s) }

  method ToKubeName(input: string) returns (value: string)
    ensures value == KubeName(input)
  {
    value := TrimSpace(ToLower(input));
    value := WithDashes(value, '_');
    value := WithDashes(value, ' ');
    value := MapRunes(value);
    ghost var mapped := value;
    value := Trim(value, IsDash);
    CleanStart(ToLower(input));
    while !SingleDashes(value)
      invariant DashedWord(value) && Words(value) == Words(ToLower(input))
      decreases |value|
    {
      HalvingKeepsWords(value);
      HalvingKeepsShape(value);
      HalvingShrinks(value);
      value := HalveDashes(value);
    }
    CleanIsJoin(value);
  }

  method NormalizeNamespace(value: string) returns (name: string)
    ensures IsLabel(name)
    ensures KubeName(value) != [] && |KubeName(value)| <= 63 ==> name == KubeName(value)
    ensures KubeName(value) == [] ==> name == "releasea-apps-prod"
    ensures |KubeName(value)| > 63 ==> name <= KubeName(value) && |name| >= 62
  {
    name := ToKubeName(value);
    JoinShape(Words(ToLower(value)));
    if name == "" { return "releasea-apps-prod"; }
    if |name| > 63 {
      CutShape(Words(ToLower(value)), 63);
      name := Trim(name[..63], IsDash);
      if name == "" { return "releasea-apps-prod"; }
    }
  }

  // ---- the words survive every step ----

  lemma {:induction false} RunsDropLast(s: string)
    requires s != [] && !IsAlnum(s[|s| - 1])
    ensures Words(s) == Words(s[..|s| - 1])
  {
    if |s| > 1 {
      RunsDropLast(s[1..]);
      assert s[1..][..|s| - 2] == s[..|s| - 1][1..];
    }
  }

  lemma {:induction false} RunsTrimLeft(s: string, cut: char -> bool)
    requires forall c :: cut(c) ==> !IsAlnum(c)
    ensures Words(TrimLeft(s, cut)) == Words(s)
  {
    if s != [] && cut(s[0]) {
      RunsTrimLeft(s[1..], cut);
      assert TrimLeft(s, cut) == TrimLeft(s[1..], cut);
    }
  }

  lemma {:induction false} RunsTrimRight(s: string, cut: char -> bool)
    requires forall c :: cut(c) ==> !IsAlnum(c)
    ensures Words(TrimRight(s, cut)) == Words(s)
  {
    if s != [] && cut(s[|s| - 1]) {
      var front := s[..|s| - 1];
      RunsDropLast(s);
      RunsTrimRight(front, cut);
      assert Trailing(s, cut) == Trailing(front, cut);
      assert s[..Trailing(s, cut)] == front[..Trailing(s, cut)];
    } else {
      assert s[..|s|] == s;
    }
  }

  lemma RunsTrim(s: string, cut: char -> bool)
    requires forall c :: cut(c) ==> !IsAlnum(c)
    ensures Words(Trim(s, cut)) == Words(s)
  {
    RunsTrimLeft(s, cut);
    RunsTrimRight(TrimLeft(s, cut), cut);
  }

  /** Two texts whose letters and digits stand in the same places have the same words. */
  lemma {:induction false} RunsSameWords(s: string, t: string)
    requires |s| == |t|
    requires forall i :: 0 <= i < |s| ==> IsAlnum(s[i]) == IsAlnum(t[i]) && (IsAlnum(s[i]) ==> s[i] == t[i])
    ensures Words(s) == Words(t)
  {
    if s != [] { RunsSameWords(s[1..], t[1..]); }
  }

  lemma CleanStart(low: string)
    ensures var v := Trim(MapRunes(WithDashes(WithDashes(TrimSpace(low), '_'), ' ')), IsDash);
            DashedWord(v) && Words(v) == Words(low)
  {
    var t := TrimSpace(low);
    var m := MapRunes(WithDashes(WithDashes(t, '_'), ' '));
    RunsTrim(low, IsSpace);
    RunsSameWords(t, m);
    RunsTrim(m, IsDash);
    TrimmedDashes(m);
  }

  lemma TrimmedDashes(m: string)
    requires forall i :: 0 <= i < |m| ==> IsAlnum(m[i]) || m[i] == '-'
    ensures DashedWord(Trim(m, IsDash))
  {
    TrimEnds(m, IsDash);
    var l := TrimLeft(m, IsDash);
    assert forall i :: 0 <= i < |l| ==> l[i] == m[Leading(m, IsDash) + i];
    assert forall i :: 0 <= i < |TrimRight(l, IsDash)| ==> TrimRight(l, IsDash)[i] == l[i];
  }

  lemma {:induction false} HalvingKeepsWords(s: string)
    ensures Words(HalveDashes(s)) == Words(s)
    ensures s != [] ==> HalveDashes(s) != [] && HalveDashes(s)[0] == s[0]
  {
    if s != [] {
      if |s| > 1 && s[0] == '-' && s[1] == '-' {
        HalvingKeepsWords(s[2..]);
        assert s[1..][1..] == s[2..];
        assert ("-" + HalveDashes(s[2..]))[1..] == HalveDashes(s[2..]);
      } else {
        HalvingKeepsWords(s[1..]);
        assert ([s[0]] + HalveDashes(s[1..]))[1..] == HalveDashes(s[1..]);
      }
    }
  }

  lemma {:induction false} HalvingKeepsShape(s: string)
    requires forall i :: 0 <= i < |s| ==> IsAlnum(s[i]) || s[i] == '-'
    ensures forall i :: 0 <= i < |HalveDashes(s)| ==> IsAlnum(HalveDashes(s)[i]) || HalveDashes(s)[i] == '-'
    ensures s != [] ==> HalveDashes(s) != [] && HalveDashes(s)[|HalveDashes(s)| - 1] == s[|s| - 1]
  {
    if s != [] {
      var k := if |s| > 1 && s[0] == '-' && s[1] == '-' then 2 else 1;
      var rest := HalveDashes(s[k..]);
      HalvingKeepsShape(s[k..]);
      assert HalveDashes(s) == [s[0]] + rest;
    }
  }

  lemma {:induction false} HalvingShrinks(s: string)
    requires !SingleDashes(s)
    ensures |HalveDashes(s)| < |s|
  {
    if s[0] != '-' || s[1] != '-' {
      var i :| 0 <= i < |s| - 1 && s[i] == '-' && s[i + 1] == '-';
      assert s[1..][i - 1] == '-' && s[1..][i - 1 + 1] == '-';
      HalvingShrinks(s[1..]);
    }
  }

  /** Text without double or outer dashes is the join of its own words. */
  lemma {:induction false} CleanIsJoin(s: string)
    requires DashedWord(s) && SingleDashes(s)
    ensures s == Join(Words(s))
  {
    if |s| > 1 {
      if IsAlnum(s[1]) {
        CleanIsJoin(s[1..]);
        var rest := Words(s[1..]);
        assert Words(s) == [[s[0]] + rest[0]] + rest[1..];
        assert Join(Words(s)) == [s[0]] + Join(rest);
      } else {
        DashThenWord(s);
        CleanIsJoin(s[2..]);
        assert s[1..][1..] == s[2..];
        assert Words(s) == [[s[0]]] + Words(s[2..]);
        assert s == [s[0]] + "-" + s[2..];
      }
    }
  }

  lemma DashThenWord(s: string)
    requires DashedWord(s) && SingleDashes(s) && |s| > 1 && !IsAlnum(s[1])
    ensures |s| > 2 && s[1] == '-' && DashedWord(s[2..]) && SingleDashes(s[2..])
  {
    assert s[1] != '-' || s[1 + 1] != '-';
    var t := s[2..];
    forall i | 0 <= i < |t| - 1 ensures t[i] != '-' || t[i + 1] != '-' {
      assert s[i + 2] != '-' || s[i + 2 + 1] != '-';
    }
  }

  // ---- the result is stable and well shaped ----

  lemma {:induction false} RunsPrepend(w: string, t: string)
    requires IsWord(w) && (t == [] || t[0] == '-')
    ensures Words(w + t) == [w] + Words(t)
  {
    if |w| == 1 {
      assert (w + t)[1..] == t;
      assert w == [w[0]];
    } else {
      RunsPrepend(w[1..], t);
      assert (w + t)[1..] == w[1..] + t;
      assert [w[0]] + w[1..] == w;
    }
  }

  lemma {:induction false} RunsOfJoin(ws: seq<string>)
    requires forall i :: 0 <= i < |ws| ==> IsWord(ws[i])
    ensures Words(Join(ws)) == ws
  {
    if |ws| == 1 {
      RunsPrepend(ws[0], []);
      assert ws[0] + [] == ws[0];
    } else if |ws| > 1 {
      var tail := "-" + Join(ws[1..]);
      assert Join(ws) == ws[0] + tail;
      RunsPrepend(ws[0], tail);
      RunsOfJoin(ws[1..]);
      assert tail[1..] == Join(ws[1..]);
    }
  }

  lemma {:induction false} JoinShape(ws: seq<string>)
    requires forall i :: 0 <= i < |ws| ==> IsWord(ws[i])
    ensures DashedWord(Join(ws)) && (Join(ws) == [] <==> ws == [])
    ensures SingleDashes(Join(ws))
  {
    if |ws| > 1 {
      var j := Join(ws[1..]);
      JoinShape(ws[1..]);
      var s := ws[0] + "-" + j;
      forall i | 0 <= i < |s| - 1 ensures s[i] != '-' || s[i + 1] != '-' {
        if i > |ws[0]| { assert s[i] == j[i - |ws[0]| - 1] && s[i + 1] == j[i - |ws[0]|]; }
      }
    }
  }

  /** A name is its own normal form. */
  lemma KubeNameIdempotent(value: string)
    ensures KubeName(KubeName(value)) == KubeName(value)
  {
    var ws := Words(ToLower(value));
    RunsOfJoin(ws);
    KubeNameIsPlain(value);
  }

  /** Names are trimmed and lower case already, as the code that compares hosts relies on. */
  lemma KubeNameIsPlain(value: string)
    ensures Trimmed(KubeName(value)) && ToLower(KubeName(value)) == KubeName(value)
  {
    var j := KubeName(value);
    JoinShape(Words(ToLower(value)));
    forall i | 0 <= i < |j| ensures LowerChar(j[i]) == j[i] && !IsSpace(j[i]) { NameCharIsPlain(j[i]); }
    assert ToLower(j) == j;
  }

  lemma NameCharIsPlain(c: char)
    requires IsAlnum(c) || c == '-'
    ensures LowerChar(c) == c && !IsSpace(c)
  {
  }

  /** Cutting a joined name drops at most one dash with the tail. */
  lemma CutShape(ws: seq<string>, n: nat)
    requires forall i :: 0 <= i < |ws| ==> IsWord(ws[i])
    requires 1 < n < |Join(ws)|
    ensures var t := Trim(Join(ws)[..n], IsDash); DashedWord(t) && n - 1 <= |t| <= n && t <= Join(ws)
  {
    JoinShape(ws);
    var s := Join(ws);
    var c := s[..n];
    LeadingIs(c, IsDash, 0);
    var k := if c[n - 1] == '-' then n - 1 else n;
    assert s[n - 2] != '-' || s[n - 2 + 1] != '-';
    TrailingIs(c, IsDash, k);
    assert Trim(c, IsDash) == c[..k] by { assert c[0..] == c; }
    assert c[..k][k - 1] == s[k - 1];
  }

  /** Names ignore case. */
  lemma KubeNameIgnoresCase(value: string)
    ensures KubeName(ToUpper(value)) == KubeName(value) && KubeName(ToLower(value)) == KubeName(value)
  {
    forall i | 0 <= i < |value| ensures LowerChar(UpperChar(value[i])) == LowerChar(value[i]) { UpperThenLower(value[i]); }
    assert ToLower(ToUpper(value)) == ToLower(value);
    LowerTwice(value);
  }

  lemma UpperThenLower(c: char)
    ensures LowerChar(UpperChar(c)) == LowerChar(c)
  {
  }
}
