/** Go's string helpers, as the rest of the model uses them. */
module Text {

  /** `unicode.IsSpace`. */
  predicate IsSpace(c: char) {
    var n := c as int;
    9 <= n <= 13 || n == 32 || n == 0x85 || n == 0xA0 || n == 0x1680 || 0x2000 <= n <= 0x200A
    || n == 0x2028 || n == 0x2029 || n == 0x202F || n == 0x205F || n == 0x3000
  }

  /** `unicode.ToLower` on every rune whose lower case is ASCII; other runes are left alone. */
  function LowerChar(c: char): char {
    if 'A' <= c <= 'Z' then (c as int + 32) as char
    else if c as int == 0x212A then 'k'
    else if c as int == 0x130 then 'i'
    else c
  }

  function UpperChar(c: char): char {
    if 'a' <= c <= 'z' then (c as int - 32) as char else c
  }

  function ToLower(s: string): (r: string)
    ensures |r| == |s|
    ensures forall i :: 0 <= i < |s| ==> r[i] == LowerChar(s[i])
  {
    if s == [] then [] else [LowerChar(s[0])] + ToLower(s[1..])
  }

  function ToUpper(s: string): (r: string)
    ensures |r| == |s|
    ensures forall i :: 0 <= i < |s| ==> r[i] == UpperChar(s[i])
  {
    if s == [] then [] else [UpperChar(s[0])] + ToUpper(s[1..])
  }

  /** Simple case folding of the letters of `strings.EqualFold`. */
  function FoldChar(c: char): char {
    if 'A' <= c <= 'Z' then (c as int + 32) as char
    else if c as int == 0x212A then 'k'
    else if c as int == 0x17F then 's'
    else c
  }

  predicate EqualFold(s: string, t: string) {
    |s| == |t| && forall i :: 0 <= i < |s| ==> FoldChar(s[i]) == FoldChar(t[i])
  }

  /** How many leading characters `cut` accepts. */
  function Leading(s: string, cut: char -> bool): (n: nat)
    ensures n <= |s|
  {
    if s != [] && cut(s[0]) then 1 + Leading(s[1..], cut) else 0
  }

  /** Where the trailing characters that `cut` accepts begin. */
  function Trailing(s: string, cut: char -> bool): (n: nat)
    ensures n <= |s|
  {
    if s != [] && cut(s[|s| - 1]) then Trailing(s[..|s| - 1], cut) else |s|
  }

  function TrimLeft(s: string, cut: char -> bool): string { s[Leading(s, cut)..] }

  function TrimRight(s: string, cut: char -> bool): string { s[..Trailing(s, cut)] }

  function Trim(s: string, cut: char -> bool): string {
    TrimRight(TrimLeft(s, cut), cut)
  }

  function TrimSpace(s: string): string {
    Trim(s, IsSpace)
  }

  predicate HasSuffix(s: string, p: string) { |p| <= |s| && s[|s| - |p|..] == p }

  /** No white space at either end. */
  predicate Trimmed(s: string) {
    s == [] || (!IsSpace(s[0]) && !IsSpace(s[|s| - 1]))
  }

  lemma {:induction false} LeadingIs(s: string, cut: char -> bool, k: nat)
    requires k <= |s| && (forall i :: 0 <= i < k ==> cut(s[i])) && (k == |s| || !cut(s[k]))
    ensures Leading(s, cut) == k
  {
    if k > 0 { LeadingIs(s[1..], cut, k - 1); }
  }

  lemma {:induction false} LeadingMeans(s: string, cut: char -> bool)
    ensures forall i :: 0 <= i < Leading(s, cut) ==> cut(s[i])
    ensures Leading(s, cut) == |s| || !cut(s[Leading(s, cut)])
  {
    if s != [] && cut(s[0]) {
      LeadingMeans(s[1..], cut);
      forall i | 0 <= i < Leading(s, cut) ensures cut(s[i]) {
        if i > 0 { assert s[i] == s[1..][i - 1]; }
      }
    }
  }

  lemma {:induction false} TrailingIs(s: string, cut: char -> bool, k: nat)
    requires k <= |s| && (forall i :: k <= i < |s| ==> cut(s[i])) && (k == 0 || !cut(s[k - 1]))
    ensures Trailing(s, cut) == k
  {
    if k < |s| { TrailingIs(s[..|s| - 1], cut, k); }
  }

  lemma {:induction false} TrailingMeans(s: string, cut: char -> bool)
    ensures forall i :: Trailing(s, cut) <= i < |s| ==> cut(s[i])
    ensures Trailing(s, cut) == 0 || !cut(s[Trailing(s, cut) - 1])
  {
    if s != [] && cut(s[|s| - 1]) { TrailingMeans(s[..|s| - 1], cut); }
  }

  /** Trimming leaves ends that are not cut, and leaves such a string alone. */
  lemma TrimEnds(s: string, cut: char -> bool)
    ensures var t := Trim(s, cut); t == [] || (!cut(t[0]) && !cut(t[|t| - 1]))
    ensures (s == [] || (!cut(s[0]) && !cut(s[|s| - 1]))) ==> Trim(s, cut) == s
  {
    LeadingMeans(s, cut);
    var l := TrimLeft(s, cut);
    TrailingMeans(l, cut);
    if s == [] || (!cut(s[0]) && !cut(s[|s| - 1])) {
      LeadingIs(s, cut, 0);
      TrailingIs(s, cut, |s|);
    }
  }

  lemma TrimSpaceTrims(s: string)
    ensures Trimmed(TrimSpace(s))
    ensures Trimmed(s) ==> TrimSpace(s) == s
  {
    TrimEnds(s, IsSpace);
  }

  lemma ToLowerAppend(a: string, b: string)
    ensures ToLower(a + b) == ToLower(a) + ToLower(b)
  {
  }

  lemma LowerTwice(s: string)
    ensures ToLower(ToLower(s)) == ToLower(s)
  {
  }

  /** Lower-casing neither makes nor destroys white space at the ends. */
  lemma LowerKeepsTrimmed(s: string)
    ensures Trimmed(ToLower(s)) == Trimmed(s)
  {
    assert forall i :: 0 <= i < |s| ==> IsSpace(ToLower(s)[i]) == IsSpace(s[i]);
  }

  lemma UpperKeepsTrimmed(s: string)
    ensures Trimmed(ToUpper(s)) == Trimmed(s)
  {
    assert forall i :: 0 <= i < |s| ==> IsSpace(ToUpper(s)[i]) == IsSpace(s[i]);
  }

  /** Trimming keeps a solid tail, whatever text precedes it. */
  lemma TrimKeepsSolidTail(a: string, b: string)
    requires b != [] && !IsSpace(b[0]) && !IsSpace(b[|b| - 1])
    ensures TrimSpace(a + b) == TrimLeft(a, IsSpace) + b
  {
    TrimKeepsTail(a, b, IsSpace);
  }

  lemma TrimKeepsTail(a: string, b: string, cut: char -> bool)
    requires b != [] && !cut(b[0]) && !cut(b[|b| - 1])
    ensures Trim(a + b, cut) == TrimLeft(a, cut) + b
  {
    TrimLeftEnds(a, b, cut);
    TrailingIs(TrimLeft(a, cut) + b, cut, |TrimLeft(a, cut) + b|);
  }

  lemma TrimLeftEnds(a: string, b: string, cut: char -> bool)
    requires b != [] && !cut(b[0])
    ensures TrimLeft(a + b, cut) == TrimLeft(a, cut) + b
  {
    LeadingMeans(a, cut);
    var k := Leading(a, cut);
    assert forall i :: 0 <= i < k ==> (a + b)[i] == a[i];
    assert (a + b)[k] == if k < |a| then a[k] else b[0];
    LeadingIs(a + b, cut, k);
    assert (a + b)[k..] == a[k..] + b;
  }
}
