/** shiftWeightedRoute: one weighted route list, moved off the canary. */
module CanaryShift {
  import opened Text
  import opened Manifests
  import opened WeightMerge

  function Destination(e: Value): Fields { MapValue(At(MapValue(e), "destination")) }

  function HostOf(sc: Scope, e: Value): string { StringValue(sc, Destination(e), "host") }

  predicate NamesCanary(sc: Scope, e: Value) { IsCanaryHost(sc, HostOf(sc, e)) }

  /** The host an entry stands for once canary spellings count as stable. */
  function Target(sc: Scope, e: Value): string {
    if NamesCanary(sc, e) then StableHost(sc) else HostOf(sc, e)
  }

  function Retargeted(sc: Scope, e: Value): Fields {
    if NamesCanary(sc, e) then
      MapValue(e)["destination" := Obj(Destination(e)["host" := Str(StableHost(sc))] - {"subset"})]
    else MapValue(e)
  }

  function Canary(sc: Scope): Reading {
    Reading(e => Target(sc, e), e => Retargeted(sc, e), e => NamesCanary(sc, e))
  }

  lemma CanaryIsSane(sc: Scope)
    ensures Sane(Canary(sc))
  {
    forall e: Value
      ensures Skipped(e) ==> Target(sc, e) == "" && !NamesCanary(sc, e)
      ensures At(Retargeted(sc, e), "weight") == At(MapValue(e), "weight")
    {
      if Skipped(e) {
        assert HostOf(sc, e) == "";
        TrimSpaceTrims("");
      }
    }
  }

  /**
   * What of an entry is carried over, weights aside: everything, unless it names the canary. Then its destination
   * has the stable host and no subset, and all else is carried over.
   */
  predicate CarriedOver(sc: Scope, e: Value, m: Value) {
    if NamesCanary(sc, e) then
      && SameBut(MapValue(e), MapValue(m), {"destination", "weight"})
      && At(Destination(m), "host") == Str(StableHost(sc)) && "subset" !in Destination(m)
      && SameBut(Destination(e), Destination(m), {"host", "subset"})
    else
      SameBut(MapValue(e), MapValue(m), {"weight"})
  }

  lemma RetargetedCarriesOver(sc: Scope, e: Value, w: int)
    requires !Skipped(e)
    ensures CarriedOver(sc, e, Obj(Retargeted(sc, e))) && CarriedOver(sc, e, WithWeight(Obj(Retargeted(sc, e)), w))
  {
    if NamesCanary(sc, e) {
      var m := Obj(Retargeted(sc, e));
      assert Destination(m) == Destination(e)["host" := Str(StableHost(sc))] - {"subset"};
      assert Destination(WithWeight(m, w)) == Destination(m);
    }
  }

  /** The scanned list holds its entries, carried over. */
  lemma InPlaceCarriesOver(sc: Scope, es: seq<Value>, k: nat)
    requires k < |es|
    ensures CarriedOver(sc, es[k], InPlace(Canary(sc), es)[k])
  {
    var w := ScannedIs(Canary(sc), es, k);
    if Skipped(es[k]) || Target(sc, es[k]) == "" {
      CanaryIsSane(sc);
      LocalTail(sc.namespace);
      assert !NamesCanary(sc, es[k]);
    } else {
      RetargetedCarriesOver(sc, es[k], w);
    }
  }

  /** So does the list that replaces it, with one entry of every host. */
  lemma MergedCarriesOver(sc: Scope, es: seq<Value>, i: nat)
    requires i < |Survivors(Canary(sc), es, |es|)|
    ensures |Merged(Canary(sc), es)| == |Survivors(Canary(sc), es, |es|)|
    ensures CarriedOver(sc, es[Survivors(Canary(sc), es, |es|)[i]], Merged(Canary(sc), es)[i])
  {
    var ps := Survivors(Canary(sc), es, |es|);
    InPlaceCarriesOver(sc, es, ps[i]);
    var m := InPlace(Canary(sc), es)[ps[i]];
    assert Destination(WithWeight(m, 100)) == Destination(m);
  }

  ghost predicate AllCarriedOver(sc: Scope, es: seq<Value>, entries: seq<Value>) {
    |entries| == |es| && forall k :: 0 <= k < |es| ==> CarriedOver(sc, es[k], entries[k])
  }

  /** `out` has the entries of `es` at the positions `ps`, carried over. */
  ghost predicate SomeCarriedOver(sc: Scope, es: seq<Value>, ps: seq<nat>, out: seq<Value>) {
    |out| == |ps| && forall i :: 0 <= i < |ps| ==> ps[i] < |es| && CarriedOver(sc, es[ps[i]], out[i])
  }

  method ShiftWeightedRoute(sc: Scope, raw: Value) returns (entries: seq<Value>, out: seq<Value>, changed: bool)
    ensures entries == if raw.Arr? then InPlace(Canary(sc), raw.items) else []
    ensures changed <==> raw.Arr? && ListNamesCanary(sc, raw.items)
    ensures changed ==> out == Merged(Canary(sc), raw.items)
    ensures raw.Arr? ==> AllCarriedOver(sc, raw.items, entries)
    ensures changed ==> SomeCarriedOver(sc, raw.items, Survivors(Canary(sc), raw.items, |raw.items|), out)
  {
    if !raw.Arr? || |raw.items| == 0 { return [], [], false; }
    CanaryIsSane(sc);
    entries, out, changed := MergeByHost(Canary(sc), raw.items);
    MovedIsCanary(sc, raw.items);
    ListsCarryOver(sc, raw.items);
  }

  lemma MovedIsCanary(sc: Scope, es: seq<Value>)
    ensures AnyMoved(Canary(sc), es, |es|) <==> ListNamesCanary(sc, es)
  {
  }

  lemma ListsCarryOver(sc: Scope, es: seq<Value>)
    ensures AllCarriedOver(sc, es, InPlace(Canary(sc), es))
    ensures SomeCarriedOver(sc, es, Survivors(Canary(sc), es, |es|), Merged(Canary(sc), es))
  {
    var ps := Survivors(Canary(sc), es, |es|);
    forall k | 0 <= k < |es| ensures CarriedOver(sc, es[k], InPlace(Canary(sc), es)[k]) {
      InPlaceCarriesOver(sc, es, k);
    }
    forall i | 0 <= i < |ps| ensures CarriedOver(sc, es[ps[i]], Merged(Canary(sc), es)[i]) {
      MergedCarriesOver(sc, es, i);
    }
  }

  predicate ListNamesCanary(sc: Scope, es: seq<Value>) {
    exists k :: 0 <= k < |es| && NamesCanary(sc, es[k])
  }

  /** What an entry says about its host and weight, whatever else it carries. */
  lemma HostFrom(sc: Scope, e: Value, m: Value)
    requires At(MapValue(m), "destination") == At(MapValue(e), "destination")
    ensures HostOf(sc, m) == HostOf(sc, e) && NamesCanary(sc, m) == NamesCanary(sc, e)
    ensures Target(sc, m) == Target(sc, e)
  {
  }

  lemma StableEntry(sc: Scope, m: Value)
    requires Trimmed(sc.service)
    requires At(Destination(m), "host") == Str(StableHost(sc))
    ensures HostOf(sc, m) == StableHost(sc) && !NamesCanary(sc, m) && Target(sc, m) == StableHost(sc)
  {
    StableHostTrimmed(sc);
    StableIsNotCanary(sc);
  }

  /** An entry that carries the retargeted destination is settled. */
  lemma EntrySettles(sc: Scope, e: Value, m: Value)
    requires Trimmed(sc.service) && !Skipped(e)
    requires At(MapValue(m), "destination") == At(Retargeted(sc, e), "destination")
    ensures Target(sc, m) == Target(sc, e) && !NamesCanary(sc, m) && Retargeted(sc, m) == MapValue(m)
  {
    if NamesCanary(sc, e) {
      StableEntry(sc, m);
    } else {
      HostFrom(sc, e, m);
    }
  }

  lemma CanarySettles(sc: Scope)
    requires Trimmed(sc.service)
    ensures Settles(Canary(sc))
  {
    var rd := Canary(sc);
    CanaryIsSane(sc);
    LocalTail(sc.namespace);
    forall e | rd.target(e) == "" ensures !rd.moved(e) && rd.fields(e) == MapValue(e) {
      assert Target(sc, e) == "";
    }
    forall e | !Skipped(e) ensures rd.fields(e) != map[] && SettledAs(rd, Obj(rd.fields(e)), rd.target(e)) {
      EntrySettles(sc, e, Obj(Retargeted(sc, e)));
    }
    forall e, w | !Skipped(e) ensures SettledAs(rd, WithWeight(Obj(rd.fields(e)), w), rd.target(e)) {
      EntrySettles(sc, e, WithWeight(Obj(Retargeted(sc, e)), w));
    }
  }

  lemma ShiftedEntry(sc: Scope, es: seq<Value>, i: nat)
    requires Trimmed(sc.service) && i < |Merged(Canary(sc), es)|
    ensures HostOf(sc, Merged(Canary(sc), es)[i]) == Canary(sc).target(Merged(Canary(sc), es)[i])
    ensures !NamesCanary(sc, Merged(Canary(sc), es)[i])
  {
    CanaryIsSane(sc);
    CanarySettles(sc);
    KeptSettles(Canary(sc), es, i);
  }

  /**
   * The list that replaces one naming the canary: the canary is gone, and each host is there once, in
   * first-occurrence order, with the weight of all its entries, canary spellings counting as stable.
   */
  lemma ShiftedList(sc: Scope, es: seq<Value>)
    requires Trimmed(sc.service)
    ensures OncePerHost(Canary(sc), e => HostOf(sc, e), es, Merged(Canary(sc), es), Survivors(Canary(sc), es, |es|))
    ensures !ListNamesCanary(sc, Merged(Canary(sc), es))
  {
    CanaryIsSane(sc);
    CanarySettles(sc);
    forall i | 0 <= i < |Merged(Canary(sc), es)|
      ensures HostOf(sc, Merged(Canary(sc), es)[i]) == Canary(sc).target(Merged(Canary(sc), es)[i])
      ensures !NamesCanary(sc, Merged(Canary(sc), es)[i])
    {
      ShiftedEntry(sc, es, i);
    }
    MergedOncePerHost(Canary(sc), e => HostOf(sc, e), es);
  }

  /** A list whose weights add up to 100 still does once it is shifted. */
  lemma ShiftKeepsHundred(sc: Scope, es: seq<Value>)
    ensures var out := Merged(Canary(sc), es); Total(out) == if |out| == 1 then 100 else Total(es)
    ensures Total(es) == 100 ==> Total(Merged(Canary(sc), es)) == 100
  {
    CanaryIsSane(sc);
    MergedTotal(Canary(sc), es);
  }

  /**
   * A list that does not name the canary is reported unchanged, yet the scan writes weights into it. It comes
   * out as it went in exactly when the first entry of every host has an explicit whole weight and the repeats
   * of the host weigh nothing.
   */
  lemma UnchangedListIff(sc: Scope, es: seq<Value>)
    requires !ListNamesCanary(sc, es)
    ensures InPlace(Canary(sc), es) == es <==>
            ExplicitWeights(Canary(sc), es) && RepeatsWeighNothing(Canary(sc), es)
  {
    CanaryIsSane(sc);
    assert Unmoved(Canary(sc), es);
    UnchangedIff(Canary(sc), es);
  }

  /** So a lone destination that leaves its weight implicit, meaning all traffic, is rewritten to weight zero. */
  lemma ImplicitWeightBecomesZero(sc: Scope, e: Value)
    requires HostOf(sc, e) != "" && !NamesCanary(sc, e) && "weight" !in MapValue(e)
    ensures InPlace(Canary(sc), [e]) == [WithWeight(e, 0)] != [e]
  {
    var rd := Canary(sc);
    CanaryIsSane(sc);
    assert rd.target(e) == HostOf(sc, e);
    assert SumTo(rd, [e], 1, rd.target(e)) == 0 + Weight(e);
  }
}
