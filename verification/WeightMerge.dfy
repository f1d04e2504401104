/**
 * One pass that merges a weighted route list by host.
 *
 * The entries of the list are shared maps: the result list and its index refer to entries of the very list
 * being scanned, so a weight added through them is written into that list. The result is therefore a list
 * of positions, and the list as the scan leaves it is a value of its own. How an entry names its host is a
 * parameter here: nothing below depends on it.
 */
module WeightMerge {
  import opened Manifests

  /** The host an entry stands for, the fields it keeps, and whether it had to be moved. */
  datatype Reading = Reading(target: Value -> string, fields: Value -> Fields, moved: Value -> bool)

  /** Go's conversion of a float64 to int drops the fraction. */
  function Truncate(r: real): int { if r >= 0.0 then r.Floor else -((-r).Floor) }

  function RouteWeight(v: Value): int { if v.Num? then Truncate(v.n) else 0 }

  /** A weight is the whole part of a number, toward zero; what is no number weighs nothing. */
  lemma WeightIsWholePart(v: Value)
    ensures !v.Num? ==> RouteWeight(v) == 0
    ensures v.Num? && v.n >= 0.0 ==> RouteWeight(v) as real <= v.n < (RouteWeight(v) + 1) as real
    ensures v.Num? && v.n <= 0.0 ==> (RouteWeight(v) - 1) as real < v.n <= RouteWeight(v) as real
  {
  }

  function Weight(e: Value): int { RouteWeight(At(MapValue(e), "weight")) }

  function Whole(w: int): Value { Num(w as real) }

  function WithWeight(e: Value, w: int): Value { Obj(MapValue(e)["weight" := Whole(w)]) }

  predicate Skipped(e: Value) { MapValue(e) == map[] }

  /** Entries without fields name no host and stay; moving an entry leaves its weight. */
  ghost predicate Sane(rd: Reading) {
    forall e :: && (Skipped(e) ==> rd.target(e) == "" && !rd.moved(e))
                && At(rd.fields(e), "weight") == At(MapValue(e), "weight")
  }

  /** The weight the first `n` entries give to host `h`. */
  function SumTo(rd: Reading, es: seq<Value>, n: nat, h: string): int
    requires n <= |es|
  {
    if n == 0 then 0
    else SumTo(rd, es, n - 1, h) + if rd.target(es[n - 1]) == h then Weight(es[n - 1]) else 0
  }

  /** Entry `k` survives: it names no host, or is the first to stand for its host. */
  predicate Survives(rd: Reading, es: seq<Value>, k: nat)
    requires k < |es|
  {
    && !Skipped(es[k])
    && (rd.target(es[k]) == "" || forall j :: 0 <= j < k ==> rd.target(es[j]) != rd.target(es[k]))
  }

  /** The surviving positions among the first `n`, in order. */
  function Survivors(rd: Reading, es: seq<Value>, n: nat): (ps: seq<nat>)
    requires n <= |es|
    ensures forall i :: 0 <= i < |ps| ==> ps[i] < n && Survives(rd, es, ps[i])
  {
    if n == 0 then []
    else if Survives(rd, es, n - 1) then Survivors(rd, es, n - 1) + [n - 1]
    else Survivors(rd, es, n - 1)
  }

  /** Entry `k` of the list after `n` entries were scanned. */
  function Scanned(rd: Reading, es: seq<Value>, n: nat, k: nat): Value
    requires k < n <= |es|
  {
    if Skipped(es[k]) || rd.target(es[k]) == "" then es[k]
    else if Survives(rd, es, k) then
      Obj(rd.fields(es[k])["weight" := Whole(SumTo(rd, es, n, rd.target(es[k])))])
    else Obj(rd.fields(es[k]))
  }

  /** The list as the scan leaves it. */
  function InPlace(rd: Reading, es: seq<Value>): seq<Value> {
    seq(|es|, k requires 0 <= k < |es| => Scanned(rd, es, |es|, k))
  }

  function Pick(es: seq<Value>, ps: seq<nat>): (r: seq<Value>)
    requires forall i :: 0 <= i < |ps| ==> ps[i] < |es|
    ensures |r| == |ps|
    ensures forall i :: 0 <= i < |ps| ==> r[i] == es[ps[i]]
  {
    seq(|ps|, i requires 0 <= i < |ps| => es[ps[i]])
  }

  /** The chosen entries, with the forced weight on a single one. */
  function Kept(es: seq<Value>, ps: seq<nat>): seq<Value>
    requires forall i :: 0 <= i < |ps| ==> ps[i] < |es|
  {
    if |ps| == 1 then [WithWeight(es[ps[0]], 100)] else Pick(es, ps)
  }

  /** What the scan leaves of an entry: that itself if it names no host, and else its fields, maybe with a weight. */
  lemma ScannedIs(rd: Reading, es: seq<Value>, k: nat) returns (w: int)
    requires k < |es|
    ensures var e := InPlace(rd, es)[k];
            if Skipped(es[k]) || rd.target(es[k]) == "" then e == es[k]
            else e == Obj(rd.fields(es[k])) || e == WithWeight(Obj(rd.fields(es[k])), w)
  {
    w := SumTo(rd, es, |es|, rd.target(es[k]));
  }

  /** The list that replaces one with moved entries. */
  function Merged(rd: Reading, es: seq<Value>): seq<Value> {
    Kept(InPlace(rd, es), Survivors(rd, es, |es|))
  }

  predicate AnyMoved(rd: Reading, es: seq<Value>, n: nat)
    requires n <= |es|
  {
    exists k :: 0 <= k < n && rd.moved(es[k])
  }

  /** The index finds, for every host met so far, the survivor that stands for it. */
  ghost predicate IndexInv(rd: Reading, es: seq<Value>, n: nat, merged: seq<nat>, indexByHost: map<string, nat>)
    requires n <= |es|
  {
    && (forall h :: h in indexByHost ==>
          (h != "" && indexByHost[h] < |merged| && merged[indexByHost[h]] < n
           && rd.target(es[merged[indexByHost[h]]]) == h))
    && (forall k :: 0 <= k < n && rd.target(es[k]) != "" ==> rd.target(es[k]) in indexByHost)
  }

  ghost predicate EntriesInv(rd: Reading, es: seq<Value>, n: nat, entries: seq<Value>)
    requires n <= |es|
  {
    && |es| == |entries|
    && (forall k :: n <= k < |es| ==> entries[k] == es[k])
    && (forall k :: 0 <= k < n ==> entries[k] == Scanned(rd, es, n, k))
  }

  /** What holds once the first `n` entries are scanned. */
  ghost predicate ScanInv(rd: Reading, es: seq<Value>, n: nat,
                          entries: seq<Value>, merged: seq<nat>, indexByHost: map<string, nat>)
  {
    && n <= |es|
    && EntriesInv(rd, es, n, entries)
    && merged == Survivors(rd, es, n)
    && IndexInv(rd, es, n, merged, indexByHost)
  }

  /** The scan. `entries` is the list it was given, as it leaves it; `out` the list that replaces it. */
  method MergeByHost(rd: Reading, es: seq<Value>) returns (entries: seq<Value>, out: seq<Value>, changed: bool)
    requires Sane(rd)
    ensures entries == InPlace(rd, es)
    ensures changed <==> AnyMoved(rd, es, |es|)
    ensures changed ==> out == Merged(rd, es)
  {
    entries, out, changed := es, [], false;
    var merged: seq<nat> := [];
    var indexByHost: map<string, nat> := map[];
    for i := 0 to |es|
      invariant ScanInv(rd, es, i, entries, merged, indexByHost)
      invariant changed <==> AnyMoved(rd, es, i)
    {
      var entry := entries[i];
      assert entry == es[i];
      if rd.moved(entry) { changed := true; }
      if Skipped(entry) {
        StepSkipped(rd, es, i, entries, merged, indexByHost);
      } else {
        entries, merged, indexByHost := MergeEntry(rd, es, i, entries, merged, indexByHost);
      }
    }
    ScanDone(rd, es, entries, merged, indexByHost);
    if changed { out := Kept(entries, merged); }
  }

  /** The part of the loop that deals with an entry that has fields. */
  method MergeEntry(rd: Reading, ghost es: seq<Value>, i: nat,
                    entries0: seq<Value>, merged0: seq<nat>, indexByHost0: map<string, nat>)
    returns (entries: seq<Value>, merged: seq<nat>, indexByHost: map<string, nat>)
    requires Sane(rd) && i < |es| && !Skipped(es[i]) && ScanInv(rd, es, i, entries0, merged0, indexByHost0)
    ensures ScanInv(rd, es, i + 1, entries, merged, indexByHost)
  {
    entries, merged, indexByHost := entries0, merged0, indexByHost0;
    var host, route := rd.target(entries[i]), rd.fields(entries[i]);
    if host == "" {
      StepHostless(rd, es, i, entries, merged, indexByHost);
      merged := merged + [i];
      return;
    }
    var weight := RouteWeight(At(route, "weight"));
    if host in indexByHost {
      StepRepeated(rd, es, i, entries, merged, indexByHost);
      entries := Absorbed(entries, i, Obj(route), merged[indexByHost[host]], weight);
    } else {
      StepNew(rd, es, i, entries, merged, indexByHost);
      entries := entries[i := Obj(route["weight" := Whole(weight)])];
      indexByHost := indexByHost[host := |merged|];
      merged := merged + [i];
    }
  }

  // ---- what one scanning step does ----

  lemma WholeWeight(w: int)
    ensures RouteWeight(Whole(w)) == w
  {
    assert (w as real).Floor == w;
    assert (-w) as real == -(w as real);
  }

  lemma ScanDone(rd: Reading, es: seq<Value>, entries: seq<Value>, merged: seq<nat>, indexByHost: map<string, nat>)
    requires ScanInv(rd, es, |es|, entries, merged, indexByHost)
    ensures entries == InPlace(rd, es) && Survivors(rd, es, |es|) == merged
  {
  }

  lemma StepSkipped(rd: Reading, es: seq<Value>, n: nat,
                    entries: seq<Value>, merged: seq<nat>, indexByHost: map<string, nat>)
    requires Sane(rd) && n < |es| && ScanInv(rd, es, n, entries, merged, indexByHost) && Skipped(es[n])
    ensures ScanInv(rd, es, n + 1, entries, merged, indexByHost)
  {
    EntriesOther(rd, es, n, entries, es[n]);
    assert entries[n := es[n]] == entries;
  }

  lemma StepHostless(rd: Reading, es: seq<Value>, n: nat,
                     entries: seq<Value>, merged: seq<nat>, indexByHost: map<string, nat>)
    requires Sane(rd) && n < |es| && ScanInv(rd, es, n, entries, merged, indexByHost)
    requires !Skipped(es[n]) && rd.target(es[n]) == ""
    ensures ScanInv(rd, es, n + 1, entries, merged + [n], indexByHost)
  {
    EntriesOther(rd, es, n, entries, es[n]);
    assert entries[n := es[n]] == entries;
  }

  lemma StepRepeated(rd: Reading, es: seq<Value>, n: nat,
                     entries: seq<Value>, merged: seq<nat>, indexByHost: map<string, nat>)
    requires Sane(rd) && n < |es| && ScanInv(rd, es, n, entries, merged, indexByHost)
    requires !Skipped(es[n]) && rd.target(es[n]) in indexByHost
    ensures var p := merged[indexByHost[rd.target(es[n])]];
            p < n && ScanInv(rd, es, n + 1, Absorbed(entries, n, Obj(rd.fields(es[n])), p, Weight(es[n])), merged, indexByHost)
  {
    var p := merged[indexByHost[rd.target(es[n])]];
    assert Survives(rd, es, p);
    OnlySurvivor(rd, es, n, p);
    EntriesRepeated(rd, es, n, entries, p);
    IndexRepeated(rd, es, n, merged, indexByHost);
  }

  lemma IndexRepeated(rd: Reading, es: seq<Value>, n: nat, merged: seq<nat>, indexByHost: map<string, nat>)
    requires n < |es| && IndexInv(rd, es, n, merged, indexByHost) && rd.target(es[n]) in indexByHost
    ensures IndexInv(rd, es, n + 1, merged, indexByHost)
  {
  }

  /** Entry `n` becomes `e` and its weight `w` goes to entry `p`. */
  function Absorbed(entries: seq<Value>, n: nat, e: Value, p: nat, w: int): seq<Value>
    requires p < n < |entries|
  {
    var moved := entries[n := e];
    moved[p := WithWeight(moved[p], RouteWeight(At(MapValue(moved[p]), "weight")) + w)]
  }

  lemma StepNew(rd: Reading, es: seq<Value>, n: nat,
                entries: seq<Value>, merged: seq<nat>, indexByHost: map<string, nat>)
    requires Sane(rd) && n < |es| && ScanInv(rd, es, n, entries, merged, indexByHost)
    requires !Skipped(es[n]) && rd.target(es[n]) != "" && rd.target(es[n]) !in indexByHost
    ensures ScanInv(rd, es, n + 1,
              entries[n := Obj(rd.fields(es[n])["weight" := Whole(Weight(es[n]))])],
              merged + [n], indexByHost[rd.target(es[n]) := |merged|])
  {
    NoSum(rd, es, n, rd.target(es[n]));
    EntriesOther(rd, es, n, entries, Obj(rd.fields(es[n])["weight" := Whole(Weight(es[n]))]));
    IndexNew(rd, es, n, merged, indexByHost);
  }

  lemma IndexNew(rd: Reading, es: seq<Value>, n: nat, merged: seq<nat>, indexByHost: map<string, nat>)
    requires n < |es| && IndexInv(rd, es, n, merged, indexByHost) && rd.target(es[n]) != ""
    ensures IndexInv(rd, es, n + 1, merged + [n], indexByHost[rd.target(es[n]) := |merged|])
  {
  }

  /** An entry that no earlier survivor stands for changes no earlier entry. */
  lemma EntriesOther(rd: Reading, es: seq<Value>, n: nat, entries: seq<Value>, e: Value)
    requires n < |es| && EntriesInv(rd, es, n, entries) && e == Scanned(rd, es, n + 1, n)
    requires rd.target(es[n]) == "" || forall j :: 0 <= j < n ==> rd.target(es[j]) != rd.target(es[n])
    ensures EntriesInv(rd, es, n + 1, entries[n := e])
  {
    forall k | 0 <= k < n ensures entries[k] == Scanned(rd, es, n + 1, k) {
      SameScan(rd, es, n, k);
    }
  }

  lemma SameScan(rd: Reading, es: seq<Value>, n: nat, k: nat)
    requires k < n < |es|
    requires rd.target(es[k]) == "" || rd.target(es[k]) != rd.target(es[n]) || !Survives(rd, es, k)
    ensures Scanned(rd, es, n + 1, k) == Scanned(rd, es, n, k)
  {
  }

  lemma EntriesRepeated(rd: Reading, es: seq<Value>, n: nat, entries: seq<Value>, p: nat)
    requires Sane(rd) && n < |es| && EntriesInv(rd, es, n, entries) && !Skipped(es[n])
    requires p < n && Survives(rd, es, p) && rd.target(es[p]) == rd.target(es[n]) != ""
    ensures EntriesInv(rd, es, n + 1, Absorbed(entries, n, Obj(rd.fields(es[n])), p, Weight(es[n])))
  {
    OnlySurvivor(rd, es, n, p);
    WeightAdded(rd, es, n, p);
    forall k | 0 <= k < n && k != p ensures Scanned(rd, es, n + 1, k) == entries[k] {
      SameScan(rd, es, n, k);
    }
    AbsorbedEntries(rd, es, n, entries, p);
  }

  lemma AbsorbedEntries(rd: Reading, es: seq<Value>, n: nat, entries: seq<Value>, p: nat)
    requires n < |es| == |entries| && p < n && (forall k :: n <= k < |es| ==> entries[k] == es[k])
    requires Scanned(rd, es, n + 1, n) == Obj(rd.fields(es[n]))
    requires Scanned(rd, es, n + 1, p)
             == WithWeight(entries[p], RouteWeight(At(MapValue(entries[p]), "weight")) + Weight(es[n]))
    requires forall k :: 0 <= k < n && k != p ==> Scanned(rd, es, n + 1, k) == entries[k]
    ensures EntriesInv(rd, es, n + 1, Absorbed(entries, n, Obj(rd.fields(es[n])), p, Weight(es[n])))
  {
  }

  lemma OnlySurvivor(rd: Reading, es: seq<Value>, n: nat, p: nat)
    requires Sane(rd) && p < n < |es| && Survives(rd, es, p)
    requires rd.target(es[p]) == rd.target(es[n]) != ""
    ensures !Survives(rd, es, n)
    ensures forall k :: 0 <= k < n && k != p && rd.target(es[k]) == rd.target(es[n]) ==> !Survives(rd, es, k)
  {
  }

  lemma WeightAdded(rd: Reading, es: seq<Value>, n: nat, p: nat)
    requires Sane(rd) && p < n < |es| && Survives(rd, es, p)
    requires rd.target(es[p]) == rd.target(es[n]) != ""
    ensures var e := Scanned(rd, es, n, p);
            WithWeight(e, RouteWeight(At(MapValue(e), "weight")) + Weight(es[n])) == Scanned(rd, es, n + 1, p)
  {
    var h := rd.target(es[n]);
    WholeWeight(SumTo(rd, es, n, h));
    var base := rd.fields(es[p]);
    assert SumTo(rd, es, n + 1, h) == SumTo(rd, es, n, h) + Weight(es[n]);
    assert base["weight" := Whole(SumTo(rd, es, n, h))]["weight" := Whole(SumTo(rd, es, n + 1, h))]
        == base["weight" := Whole(SumTo(rd, es, n + 1, h))];
  }

  lemma {:induction false} NoSum(rd: Reading, es: seq<Value>, n: nat, h: string)
    requires n <= |es| && forall j :: 0 <= j < n ==> rd.target(es[j]) != h
    ensures SumTo(rd, es, n, h) == 0
  {
    if n > 0 { NoSum(rd, es, n - 1, h); }
  }

  // ---- who survives, and in what order ----

  lemma {:induction false} SurvivorsInOrder(rd: Reading, es: seq<Value>, n: nat)
    requires n <= |es|
    ensures var ps := Survivors(rd, es, n);
            && (forall i, j :: 0 <= i < j < |ps| ==> ps[i] < ps[j])
            && (forall k :: 0 <= k < n && Survives(rd, es, k) ==> k in ps)
  {
    if n > 0 { SurvivorsInOrder(rd, es, n - 1); }
  }

  /** Every host met is stood for by exactly one survivor, the first to name it. */
  lemma OneSurvivorPerHost(rd: Reading, es: seq<Value>, k: nat) returns (i: nat)
    requires Sane(rd) && k < |es| && rd.target(es[k]) != ""
    ensures var ps := Survivors(rd, es, |es|);
            && i < |ps| && ps[i] <= k && rd.target(es[ps[i]]) == rd.target(es[k])
            && (forall j :: 0 <= j < ps[i] ==> rd.target(es[j]) != rd.target(es[k]))
            && (forall j :: 0 <= j < |ps| && rd.target(es[ps[j]]) == rd.target(es[k]) ==> j == i)
  {
    var p := FirstFor(rd, es, k);
    var ps := Survivors(rd, es, |es|);
    SurvivorsInOrder(rd, es, |es|);
    assert Survives(rd, es, p);
    i :| 0 <= i < |ps| && ps[i] == p;
    forall j | 0 <= j < |ps| && rd.target(es[ps[j]]) == rd.target(es[k]) ensures j == i {
      assert Survives(rd, es, ps[j]);
      assert ps[j] == p;
    }
  }

  lemma {:induction false} FirstFor(rd: Reading, es: seq<Value>, k: nat) returns (p: nat)
    requires k < |es|
    ensures p <= k && rd.target(es[p]) == rd.target(es[k])
    ensures forall j :: 0 <= j < p ==> rd.target(es[j]) != rd.target(es[k])
  {
    if j :| 0 <= j < k && rd.target(es[j]) == rd.target(es[k]) {
      p := FirstFor(rd, es, j);
    } else {
      p := k;
    }
  }

  // ---- the total weight ----

  function Total(es: seq<Value>): int {
    if es == [] then 0 else Total(es[..|es| - 1]) + Weight(es[|es| - 1])
  }

  /** What survivor `p` weighs after `n` entries. */
  function Credit(rd: Reading, es: seq<Value>, n: nat, p: nat): int
    requires p < n <= |es|
  {
    if rd.target(es[p]) == "" then Weight(es[p]) else SumTo(rd, es, n, rd.target(es[p]))
  }

  function Credits(rd: Reading, es: seq<Value>, n: nat, ps: seq<nat>): int
    requires n <= |es| && forall i :: 0 <= i < |ps| ==> ps[i] < n
  {
    if ps == [] then 0 else Credits(rd, es, n, ps[..|ps| - 1]) + Credit(rd, es, n, ps[|ps| - 1])
  }

  ghost predicate Met(rd: Reading, es: seq<Value>, n: nat, h: string)
    requires n <= |es|
  {
    exists k :: 0 <= k < n && rd.target(es[k]) == h
  }

  function StandingFor(rd: Reading, es: seq<Value>, ps: seq<nat>, h: string): nat
    requires forall i :: 0 <= i < |ps| ==> ps[i] < |es|
  {
    if ps == [] then 0
    else StandingFor(rd, es, ps[..|ps| - 1], h) + if rd.target(es[ps[|ps| - 1]]) == h then 1 else 0
  }

  /** One more entry adds its weight once for every survivor that stands for its host. */
  lemma {:induction false} CreditsGrow(rd: Reading, es: seq<Value>, n: nat, ps: seq<nat>)
    requires n < |es| && forall i :: 0 <= i < |ps| ==> ps[i] < n
    ensures rd.target(es[n]) == "" ==> Credits(rd, es, n + 1, ps) == Credits(rd, es, n, ps)
    ensures rd.target(es[n]) != "" ==>
              Credits(rd, es, n + 1, ps)
              == Credits(rd, es, n, ps) + StandingFor(rd, es, ps, rd.target(es[n])) * Weight(es[n])
  {
    if ps != [] {
      CreditsGrow(rd, es, n, ps[..|ps| - 1]);
      var c, w := StandingFor(rd, es, ps[..|ps| - 1], rd.target(es[n])), Weight(es[n]);
      assert (c + 1) * w == c * w + w;
    }
  }

  /** How many survivors stand for `h`, and whether `h` was met, after one entry more. */
  lemma StandsOnce(rd: Reading, es: seq<Value>, n: nat, h: string)
    requires Sane(rd) && n < |es| && h != ""
    ensures var before, after := StandingFor(rd, es, Survivors(rd, es, n), h), StandingFor(rd, es, Survivors(rd, es, n + 1), h);
            after == before + if rd.target(es[n]) == h && !Met(rd, es, n, h) then 1 else 0
    ensures Met(rd, es, n + 1, h) <==> Met(rd, es, n, h) || rd.target(es[n]) == h
  {
    MetMore(rd, es, n, h);
    StandingMore(rd, es, n, h);
    if rd.target(es[n]) == h { SurvivesUnlessMet(rd, es, n); }
  }

  lemma {:induction false} OneStandsFor(rd: Reading, es: seq<Value>, n: nat, h: string)
    requires Sane(rd) && n <= |es| && h != ""
    ensures StandingFor(rd, es, Survivors(rd, es, n), h) == if Met(rd, es, n, h) then 1 else 0
  {
    if n > 0 {
      OneStandsFor(rd, es, n - 1, h);
      StandsOnce(rd, es, n - 1, h);
    }
  }

  lemma MetMore(rd: Reading, es: seq<Value>, n: nat, h: string)
    requires n < |es|
    ensures Met(rd, es, n + 1, h) <==> Met(rd, es, n, h) || rd.target(es[n]) == h
  {
  }

  lemma StandingMore(rd: Reading, es: seq<Value>, n: nat, h: string)
    requires n < |es|
    ensures StandingFor(rd, es, Survivors(rd, es, n + 1), h)
            == StandingFor(rd, es, Survivors(rd, es, n), h)
               + if Survives(rd, es, n) && rd.target(es[n]) == h then 1 else 0
  {
    var ps := Survivors(rd, es, n);
    assert (ps + [n])[..|ps|] == ps;
  }

  lemma SurvivesUnlessMet(rd: Reading, es: seq<Value>, n: nat)
    requires Sane(rd) && n < |es| && rd.target(es[n]) != ""
    ensures Survives(rd, es, n) <==> !Met(rd, es, n, rd.target(es[n]))
  {
    if !Skipped(es[n]) && (forall j :: 0 <= j < n ==> rd.target(es[j]) != rd.target(es[n])) {
      assert Survives(rd, es, n);
    }
  }

  lemma {:induction false} CreditsAreAll(rd: Reading, es: seq<Value>, n: nat)
    requires Sane(rd) && n <= |es|
    ensures Credits(rd, es, n, Survivors(rd, es, n)) == Total(es[..n])
  {
    if n > 0 {
      CreditsAreAll(rd, es, n - 1);
      assert es[..n][..n - 1] == es[..n - 1];
      CreditsStep(rd, es, n - 1);
    }
  }

  lemma CreditsStep(rd: Reading, es: seq<Value>, n: nat)
    requires Sane(rd) && n < |es|
    ensures Credits(rd, es, n + 1, Survivors(rd, es, n + 1)) == Credits(rd, es, n, Survivors(rd, es, n)) + Weight(es[n])
  {
    var ps, h := Survivors(rd, es, n), rd.target(es[n]);
    CreditsGrow(rd, es, n, ps);
    CreditsMore(rd, es, n);
    if h != "" {
      OneStandsFor(rd, es, n, h);
      SurvivesUnlessMet(rd, es, n);
      if !Met(rd, es, n, h) { NoSum(rd, es, n, h); }
    }
  }

  lemma CreditsMore(rd: Reading, es: seq<Value>, n: nat)
    requires n < |es|
    ensures Credits(rd, es, n + 1, Survivors(rd, es, n + 1))
            == Credits(rd, es, n + 1, Survivors(rd, es, n)) + if Survives(rd, es, n) then Credit(rd, es, n + 1, n) else 0
  {
    var ps := Survivors(rd, es, n);
    assert (ps + [n])[..|ps|] == ps;
  }

  lemma {:induction false} CreditsWeighKept(rd: Reading, es: seq<Value>, ps: seq<nat>)
    requires Sane(rd) && forall i :: 0 <= i < |ps| ==> ps[i] < |es| && Survives(rd, es, ps[i])
    ensures Total(Pick(InPlace(rd, es), ps)) == Credits(rd, es, |es|, ps)
  {
    if ps != [] {
      var q := ps[..|ps| - 1];
      CreditsWeighKept(rd, es, q);
      var kept := Pick(InPlace(rd, es), ps);
      assert kept[..|ps| - 1] == Pick(InPlace(rd, es), q);
      WholeWeight(SumTo(rd, es, |es|, rd.target(es[ps[|ps| - 1]])));
    }
  }

  /** Merging moves weight between entries and loses none; a single survivor is forced to 100. */
  lemma MergedTotal(rd: Reading, es: seq<Value>)
    requires Sane(rd)
    ensures Total(Merged(rd, es)) == if |Merged(rd, es)| == 1 then 100 else Total(es)
  {
    var ps := Survivors(rd, es, |es|);
    CreditsWeighKept(rd, es, ps);
    CreditsAreAll(rd, es, |es|);
    assert es[..|es|] == es;
    WholeWeight(100);
  }

  // ---- when a pass leaves the list alone ----

  predicate Unmoved(rd: Reading, es: seq<Value>) {
    forall k :: 0 <= k < |es| ==> !rd.moved(es[k]) && rd.fields(es[k]) == MapValue(es[k])
  }

  /** The repeats of a host add nothing to the weight of its first entry. */
  predicate RepeatsWeighNothing(rd: Reading, es: seq<Value>) {
    forall k :: 0 <= k < |es| && rd.target(es[k]) != "" && Survives(rd, es, k) ==>
      SumTo(rd, es, |es|, rd.target(es[k])) == Weight(es[k])
  }

  /** The first entry of every host carries an explicit whole weight. */
  predicate ExplicitWeights(rd: Reading, es: seq<Value>) {
    forall k :: 0 <= k < |es| && rd.target(es[k]) != "" && Survives(rd, es, k) ==>
      At(MapValue(es[k]), "weight") == Whole(Weight(es[k]))
  }

  /** A pass over a list it has nothing to move in still rewrites it, unless its weights are plain. */
  lemma UnchangedIff(rd: Reading, es: seq<Value>)
    requires Sane(rd) && Unmoved(rd, es)
    ensures InPlace(rd, es) == es <==> ExplicitWeights(rd, es) && RepeatsWeighNothing(rd, es)
  {
    forall k | 0 <= k < |es|
      ensures Scanned(rd, es, |es|, k) == es[k] <==>
              (rd.target(es[k]) != "" && Survives(rd, es, k) ==>
                 At(MapValue(es[k]), "weight") == Whole(Weight(es[k]))
                 && SumTo(rd, es, |es|, rd.target(es[k])) == Weight(es[k]))
    {
      WholeWeight(SumTo(rd, es, |es|, rd.target(es[k])));
      WholeWeight(Weight(es[k]));
    }
    if ExplicitWeights(rd, es) && RepeatsWeighNothing(rd, es) {
      assert forall k :: 0 <= k < |es| ==> Scanned(rd, es, |es|, k) == es[k];
    }
    if InPlace(rd, es) == es {
      assert forall k :: 0 <= k < |es| ==> InPlace(rd, es)[k] == es[k];
    }
  }

  /** What a pass writes reads as the same host and needs no more moving. */
  ghost predicate Settles(rd: Reading) {
    && (forall e :: rd.target(e) == "" ==> !rd.moved(e) && rd.fields(e) == MapValue(e))
    && (forall e :: !Skipped(e) ==> rd.fields(e) != map[] && SettledAs(rd, Obj(rd.fields(e)), rd.target(e)))
    && (forall e, w :: !Skipped(e) ==> SettledAs(rd, WithWeight(Obj(rd.fields(e)), w), rd.target(e)))
  }

  ghost predicate SettledAs(rd: Reading, e: Value, host: string) {
    rd.target(e) == host && !rd.moved(e) && rd.fields(e) == MapValue(e)
  }

  lemma ScannedSettles(rd: Reading, es: seq<Value>, n: nat, k: nat)
    requires Sane(rd) && Settles(rd) && k < n <= |es|
    ensures SettledAs(rd, Scanned(rd, es, n, k), rd.target(es[k]))
    ensures Skipped(Scanned(rd, es, n, k)) == Skipped(es[k])
    ensures rd.target(es[k]) != "" && Survives(rd, es, k) ==>
              At(MapValue(Scanned(rd, es, n, k)), "weight") == Whole(SumTo(rd, es, n, rd.target(es[k])))
    ensures rd.target(es[k]) != "" && !Survives(rd, es, k) ==> Weight(Scanned(rd, es, n, k)) == Weight(es[k])
  {
    if rd.target(es[k]) != "" && Survives(rd, es, k) {
      var w := SumTo(rd, es, n, rd.target(es[k]));
      assert Scanned(rd, es, n, k) == WithWeight(Obj(rd.fields(es[k])), w);
    }
  }

  lemma {:induction false} LoneHost(rd: Reading, es: seq<Value>, n: nat, k: nat)
    requires k < |es| && n <= |es|
    requires forall j :: 0 <= j < n && j != k ==> rd.target(es[j]) != rd.target(es[k])
    ensures SumTo(rd, es, n, rd.target(es[k])) == if k < n then Weight(es[k]) else 0
  {
    if n > 0 { LoneHost(rd, es, n - 1, k); }
  }

  lemma KeptSettles(rd: Reading, es: seq<Value>, i: nat)
    requires Sane(rd) && Settles(rd) && i < |Merged(rd, es)|
    ensures var p := Survivors(rd, es, |es|)[i];
            && SettledAs(rd, Merged(rd, es)[i], rd.target(es[p]))
            && !Skipped(Merged(rd, es)[i])
            && (rd.target(es[p]) != "" ==>
                  At(MapValue(Merged(rd, es)[i]), "weight") == Whole(Weight(Merged(rd, es)[i])))
  {
    var ps := Survivors(rd, es, |es|);
    var p := ps[i];
    assert Survives(rd, es, p);
    ScannedSettles(rd, es, |es|, p);
    WholeWeight(SumTo(rd, es, |es|, rd.target(es[p])));
    WholeWeight(100);
    if |ps| == 1 && rd.target(es[p]) != "" {
      var base := Obj(rd.fields(es[p]));
      assert Merged(rd, es)[i] == WithWeight(base, 100);
    }
  }

  lemma KeptWeight(rd: Reading, es: seq<Value>, i: nat)
    requires Sane(rd) && i < |Merged(rd, es)| != 1
    requires rd.target(es[Survivors(rd, es, |es|)[i]]) != ""
    ensures Weight(Merged(rd, es)[i]) == SumTo(rd, es, |es|, rd.target(es[Survivors(rd, es, |es|)[i]]))
  {
    var p := Survivors(rd, es, |es|)[i];
    assert Survives(rd, es, p);
    WholeWeight(SumTo(rd, es, |es|, rd.target(es[p])));
  }

  /**
   * Entry `i` of `out` comes from entry `ps[i]` of `es`, in order; every host of `es` is in `out` exactly once,
   * at its first occurrence, and, unless it is alone, with all of its weight.
   */
  ghost predicate OncePerHost(rd: Reading, host: Value -> string, es: seq<Value>, out: seq<Value>, ps: seq<nat>) {
    && |ps| == |out|
    && (forall i :: 0 <= i < |ps| ==> ps[i] < |es|)
    && (forall i, j :: 0 <= i < j < |ps| ==> ps[i] < ps[j])
    && (forall i :: 0 <= i < |out| ==> host(out[i]) == rd.target(es[ps[i]]))
    && (forall i, j :: 0 <= i < |out| && 0 <= j < ps[i] && host(out[i]) != "" ==> rd.target(es[j]) != host(out[i]))
    && (forall k :: 0 <= k < |es| && rd.target(es[k]) != "" ==>
          exists i :: 0 <= i < |out| && host(out[i]) == rd.target(es[k]))
    && (|out| != 1 ==> forall i :: 0 <= i < |out| && host(out[i]) != "" ==>
          Weight(out[i]) == SumTo(rd, es, |es|, host(out[i])))
  }

  lemma MergedOncePerHost(rd: Reading, host: Value -> string, es: seq<Value>)
    requires Sane(rd) && Settles(rd)
    requires forall i :: 0 <= i < |Merged(rd, es)| ==> host(Merged(rd, es)[i]) == rd.target(Merged(rd, es)[i])
    ensures OncePerHost(rd, host, es, Merged(rd, es), Survivors(rd, es, |es|))
  {
    var ps, out := Survivors(rd, es, |es|), Merged(rd, es);
    SurvivorsInOrder(rd, es, |es|);
    forall i | 0 <= i < |out|
      ensures host(out[i]) == rd.target(es[ps[i]])
      ensures |out| != 1 && host(out[i]) != "" ==> Weight(out[i]) == SumTo(rd, es, |es|, host(out[i]))
      ensures forall j :: 0 <= j < ps[i] && host(out[i]) != "" ==> rd.target(es[j]) != host(out[i])
    {
      KeptSettles(rd, es, i);
      assert Survives(rd, es, ps[i]);
      if |out| != 1 && host(out[i]) != "" { KeptWeight(rd, es, i); }
    }
    forall k | 0 <= k < |es| && rd.target(es[k]) != ""
      ensures exists i :: 0 <= i < |out| && host(out[i]) == rd.target(es[k])
    {
      var i := OneSurvivorPerHost(rd, es, k);
      assert host(out[i]) == rd.target(es[k]);
    }
  }

  lemma SurvivorsDiffer(rd: Reading, es: seq<Value>, i: nat, j: nat)
    requires Sane(rd) && i < |Survivors(rd, es, |es|)| && j < |Survivors(rd, es, |es|)| && i != j
    requires rd.target(es[Survivors(rd, es, |es|)[i]]) != ""
    ensures rd.target(es[Survivors(rd, es, |es|)[i]]) != rd.target(es[Survivors(rd, es, |es|)[j]])
  {
    var ps := Survivors(rd, es, |es|);
    SurvivorsInOrder(rd, es, |es|);
    assert Survives(rd, es, ps[i]) && Survives(rd, es, ps[j]);
    if i < j { assert ps[i] < ps[j]; } else { assert ps[j] < ps[i]; }
  }

  /** A list that was merged is left alone by the next pass. */
  lemma SecondPassMerged(rd: Reading, es: seq<Value>)
    requires Sane(rd) && Settles(rd)
    ensures var out := Merged(rd, es); InPlace(rd, out) == out && Unmoved(rd, out)
  {
    var out := Merged(rd, es);
    forall i | 0 <= i < |out|
      ensures !rd.moved(out[i]) && rd.fields(out[i]) == MapValue(out[i])
      ensures rd.target(out[i]) != "" ==> At(MapValue(out[i]), "weight") == Whole(Weight(out[i]))
      ensures rd.target(out[i]) != "" ==> SumTo(rd, out, |out|, rd.target(out[i])) == Weight(out[i])
    {
      KeptSettles(rd, es, i);
      if rd.target(out[i]) != "" { MergedLoneHost(rd, es, i); }
    }
    UnchangedIff(rd, out);
  }

  lemma MergedLoneHost(rd: Reading, es: seq<Value>, i: nat)
    requires Sane(rd) && Settles(rd) && i < |Merged(rd, es)| && rd.target(Merged(rd, es)[i]) != ""
    ensures SumTo(rd, Merged(rd, es), |Merged(rd, es)|, rd.target(Merged(rd, es)[i])) == Weight(Merged(rd, es)[i])
  {
    var out := Merged(rd, es);
    KeptSettles(rd, es, i);
    forall j | 0 <= j < |out| && j != i ensures rd.target(out[j]) != rd.target(out[i]) {
      KeptSettles(rd, es, j);
      SurvivorsDiffer(rd, es, i, j);
    }
    LoneHost(rd, out, |out|, i);
  }

  lemma OneFirst(rd: Reading, es: seq<Value>, p: nat, k: nat)
    requires p < |es| && k < |es| && k != p && Survives(rd, es, p)
    requires rd.target(es[k]) == rd.target(es[p]) != ""
    ensures !Survives(rd, es, k)
  {
  }

  /** What the repeats of a host add is added again by every further pass. */
  lemma SumAfterPass(rd: Reading, es: seq<Value>, n: nat, p: nat)
    requires Sane(rd) && Settles(rd) && n <= |es| && p < |es| && Survives(rd, es, p) && rd.target(es[p]) != ""
    ensures |InPlace(rd, es)| == |es|
    ensures var h := rd.target(es[p]);
            SumTo(rd, InPlace(rd, es), n, h)
            == SumTo(rd, es, n, h) + if p < n then SumTo(rd, es, |es|, h) - Weight(es[p]) else 0
  {
    var next := InPlace(rd, es);
    forall k | 0 <= k < |es|
      ensures rd.target(next[k]) == rd.target(es[k])
      ensures rd.target(es[k]) == rd.target(es[p]) ==>
                Weight(next[k]) == if k == p then SumTo(rd, es, |es|, rd.target(es[p])) else Weight(es[k])
    {
      PassedEntry(rd, es, k, p);
    }
    OneWeightMoves(rd, es, next, n, p, SumTo(rd, es, |es|, rd.target(es[p])));
  }

  /** Of the entries for one host, just entry `p` has another weight. */
  lemma {:induction false} OneWeightMoves(rd: Reading, es: seq<Value>, next: seq<Value>, n: nat, p: nat, weight: int)
    requires |next| == |es| && n <= |es| && p < |es|
    requires forall k :: 0 <= k < |es| ==> rd.target(next[k]) == rd.target(es[k])
    requires forall k :: 0 <= k < |es| && rd.target(es[k]) == rd.target(es[p]) ==>
               Weight(next[k]) == if k == p then weight else Weight(es[k])
    ensures var h := rd.target(es[p]);
            SumTo(rd, next, n, h) == SumTo(rd, es, n, h) + if p < n then weight - Weight(es[p]) else 0
  {
    if n > 0 {
      OneWeightMoves(rd, es, next, n - 1, p, weight);
      assert rd.target(next[n - 1]) == rd.target(es[n - 1]);
    }
  }

  lemma PassedEntry(rd: Reading, es: seq<Value>, k: nat, p: nat)
    requires Sane(rd) && Settles(rd) && k < |es| && p < |es| && Survives(rd, es, p) && rd.target(es[p]) != ""
    ensures rd.target(InPlace(rd, es)[k]) == rd.target(es[k])
    ensures rd.target(es[k]) == rd.target(es[p]) ==>
              Weight(InPlace(rd, es)[k]) == if k == p then SumTo(rd, es, |es|, rd.target(es[p])) else Weight(es[k])
  {
    ScannedSettles(rd, es, |es|, k);
    WholeWeight(SumTo(rd, es, |es|, rd.target(es[p])));
    if rd.target(es[k]) == rd.target(es[p]) && k != p { OneFirst(rd, es, p, k); }
  }

  /** A second pass over an unmoved list changes it unless the repeats of every host weigh nothing. */
  lemma SecondPassUnmoved(rd: Reading, es: seq<Value>)
    requires Sane(rd) && Settles(rd) && Unmoved(rd, es)
    ensures InPlace(rd, InPlace(rd, es)) == InPlace(rd, es) <==> RepeatsWeighNothing(rd, es)
  {
    var next := InPlace(rd, es);
    forall k | 0 <= k < |es|
      ensures SettledAs(rd, next[k], rd.target(es[k])) && Survives(rd, next, k) == Survives(rd, es, k)
    {
      assert forall j :: 0 <= j <= k ==> next[j] == Scanned(rd, es, |es|, j);
      forall j | 0 <= j <= k ensures rd.target(next[j]) == rd.target(es[j]) && Skipped(next[j]) == Skipped(es[j]) {
        ScannedSettles(rd, es, |es|, j);
      }
      ScannedSettles(rd, es, |es|, k);
    }
    forall k | 0 <= k < |es| && rd.target(es[k]) != "" && Survives(rd, es, k)
      ensures At(MapValue(next[k]), "weight") == Whole(Weight(next[k]))
      ensures Weight(next[k]) == SumTo(rd, es, |es|, rd.target(es[k]))
      ensures SumTo(rd, next, |es|, rd.target(es[k])) == 2 * Weight(next[k]) - Weight(es[k])
    {
      ScannedSettles(rd, es, |es|, k);
      WholeWeight(SumTo(rd, es, |es|, rd.target(es[k])));
      SumAfterPass(rd, es, |es|, k);
    }
    UnchangedIff(rd, next);
  }
}
