/** The blue-green switch and its compensating writes: the canonical selector against the slot the API records. */
module BlueGreen {
  import opened Text
  import opened Cluster

  /** ResolveBlueGreenSlots, first result. */
  function ActiveSlot(primary: string): string {
    if EqualFold(TrimSpace(primary), "green") then "green" else "blue"
  }

  /** Green is named by its word, in any case and with white space around it; anything else means blue. */
  lemma ActiveSlotIff(primary: string)
    ensures ActiveSlot(primary) == "green" <==> |TrimSpace(primary)| == 5 && ToLower(TrimSpace(primary)) == "green"
    ensures ActiveSlot(primary) != "green" ==> ActiveSlot(primary) == "blue"
  {
    var t, green := TrimSpace(primary), "green";
    if |t| == 5 {
      assert |ToLower(t)| == 5;
      forall i | 0 <= i < 5 ensures FoldChar(t[i]) == FoldChar(green[i]) <==> LowerChar(t[i]) == green[i] {
      }
      if ToLower(t) == green { assert forall i :: 0 <= i < 5 ==> ToLower(t)[i] == LowerChar(t[i]); }
    }
  }

  datatype Verdict = Switched(slot: string) | Failed | RolledBack | Cancelled

  /** The canonical Service selects the slot that the API records. */
  predicate Agree(st: State, service: string) {
    service in st.services && st.services[service] == SlotName(service, st.slot)
  }

  predicate On(st: State, service: string, slot: string) {
    Agree(st, service) && st.slot == slot
  }

  /** A compensating switch whose first call is `c` puts the selector back. */
  predicate Restores(f: nat -> Outcome, c: nat) {
    f(c).Done? && !f(c + 1).Refused?
  }

  /** Where the compensating slot update comes after a compensating switch that starts at `c`. */
  function AfterRestore(f: nat -> Outcome, c: nat): nat {
    if f(c).Done? then c + 2 else c + 1
  }

  /** With call `c` the slot update: whether the selector ends up back on the active slot. */
  predicate Reverts(f: nat -> Outcome, c: nat) {
    if f(c).Done? then !f(c + 1).Done? && Restores(f, c + 2) else Restores(f, c + 1)
  }

  /** With call `c` the slot update: whether the recorded slot ends up on the candidate. */
  predicate Records(f: nat -> Outcome, c: nat) {
    if f(c).Done? then f(c + 1).Done? || f(AfterRestore(f, c + 2)).Refused? else f(c).Lost?
  }

  /**
   * The calls from `c` on that leave selector and slot apart: the answer to the cutover write is lost, or after it
   * just one of the two ends up on the candidate.
   */
  predicate Splits(f: nat -> Outcome, c: nat) {
    AllDone(f, c, c + 3) && (f(c + 3).Lost? || (f(c + 3).Done? && Reverts(f, c + 4) == Records(f, c + 4)))
  }

  /** The calls from `c` on that move the selector to the candidate and back again. */
  predicate MovesBack(f: nat -> Outcome, c: nat) {
    AllDone(f, c, c + 4) && Reverts(f, c + 4)
  }

  /** A wait that ends well only if every named Deployment exists. */
  method Await(ns: Namespace, names: seq<string>) returns (ok: bool)
    modifies ns`calls, ns`gates
    ensures ns.calls == old(ns.calls) + 1
    ensures ok <==> ns.faults(old(ns.calls)).Done? && forall n :: n in names ==> n in ns.st.deployments
    ensures ns.gates == if ok then old(ns.gates) + [names] else old(ns.gates)
  {
    var seen := ns.Read();
    ok := seen && forall n :: n in names ==> n in ns.st.deployments;
    if ok { ns.gates := ns.gates + [names]; }
  }

  /** waitForRetiredWorkloads. */
  method AwaitRetired(ns: Namespace, names: seq<string>) returns (ok: bool)
    modifies ns`calls
    ensures ns.calls == old(ns.calls) + 1
    ensures ok <==> ns.faults(old(ns.calls)).Done? && forall n :: n in names ==> n !in ns.st.deployments
  {
    var seen := ns.Read();
    ok := seen && forall n :: n in names ==> n !in ns.st.deployments;
  }

  /** switchBlueGreenCanonicalService. */
  method Switch(ns: Namespace, target: string) returns (ok: bool)
    requires ns.Valid() && Tied(ns.st)
    modifies ns`st, ns`calls, ns`trace, ns`steady, ns`calm, ns`gated
    ensures ns.Valid() && Tied(ns.st)
    ensures ok <==> ns.service in old(ns.st).services && AllDone(ns.faults, old(ns.calls), old(ns.calls) + 2)
    ensures ns.service in old(ns.st).services ==> ns.calls == AfterRestore(ns.faults, old(ns.calls))
    ensures ns.st == if ns.service in old(ns.st).services && Restores(ns.faults, old(ns.calls))
                     then Applied(old(ns.st), Service(ns.service, target)) else old(ns.st)
    ensures ns.steady <==>
      (old(ns.steady) && !(Selects(old(ns.st), ns.service) && !Selects(ns.st, ns.service)))
    ensures Passed(ns.gates, target) || ns.st == old(ns.st) ==> ns.gated == old(ns.gated)
  {
    ok := ns.Read();
    if !ok || ns.service !in ns.st.services { return false; }
    ServingByName(ns.st, ns.service);
    ServingByName(Applied(ns.st, Service(ns.service, target)), ns.service);
    ok := ns.Write(Applied(ns.st, Service(ns.service, target)));
  }

  /** UpdateBlueGreenActiveSlot. */
  method UpdateSlot(ns: Namespace, slot: string) returns (ok: bool)
    requires ns.Valid() && Tied(ns.st)
    modifies ns`st, ns`calls, ns`trace, ns`steady, ns`calm, ns`gated
    ensures ns.Valid() && Tied(ns.st) && ns.steady == old(ns.steady)
    ensures ns.calls == old(ns.calls) + 1 && (ok <==> ns.faults(old(ns.calls)).Done?)
    ensures ns.st == (if ns.faults(old(ns.calls)).Refused? then old(ns.st) else old(ns.st).(slot := slot))
    ensures ns.gated == old(ns.gated)
  {
    ok := ns.Push(ns.st.(slot := slot));
  }

  /** The schedule under which every compensating write succeeds and no answer is lost. */
  ghost predicate Compensates(f: nat -> Outcome, c: nat) {
    && (forall k :: !f(k).Lost?)
    && (f(c + 4).Refused? ==> AllDone(f, c + 5, c + 7))
    && (f(c + 5).Refused? ==> AllDone(f, c + 6, c + 9))
  }

  /** Selector and slot on `slot`, and nothing else changed. */
  function Moved(st: State, service: string, slot: string): State {
    Applied(st, Service(service, SlotName(service, slot))).(slot := slot)
  }

  /** What may be deleted, and what each verdict says, when a switch off `active` goes from state `a` to state `b`. */
  ghost predicate Ends(a: State, b: State, service: string, active: string, verdict: Verdict) {
    var candidate := Opposite(active);
    && b.virtualServices == a.virtualServices
    && (b.deployments != a.deployments ==>
          On(b, service, candidate) && SlotName(service, candidate) in b.deployments && !verdict.Cancelled?)
    && (forall w :: w in b.deployments ==> w in a.deployments && b.deployments[w] == a.deployments[w])
    && (verdict.Switched? ==> verdict.slot == candidate && OnlyCandidate(a, b, service, active))
    && (verdict.Cancelled? ==> BesideActive(a, b, service, active))
    && (verdict.RolledBack? ==> b.deployments == a.deployments)
  }

  /** The other one of the two slots. */
  predicate IsOther(slot: string, active: string) {
    (active == "blue" && slot == "green") || (active == "green" && slot == "blue")
  }

  /** Selector and recorded slot are on the other slot, and nothing else has changed. */
  predicate BesideActive(a: State, b: State, service: string, active: string) {
    && IsOther(b.slot, active)
    && b.services == a.services[service := service + "-" + b.slot]
    && b.deployments == a.deployments && b.autoscalers == a.autoscalers && b.virtualServices == a.virtualServices
  }

  /**
   * Selector and recorded slot are on the other slot. The active slot is gone, Deployment and Service, and so are the
   * Deployment and the autoscaler of a service that was not on slots before. Nothing else has changed.
   */
  ghost predicate OnlyCandidate(a: State, b: State, service: string, active: string) {
    var previous := service + "-" + active;
    && IsOther(b.slot, active)
    && (forall w :: w in b.services <==> (w in a.services || w == service) && w != previous)
    && (forall w :: w in b.services ==> b.services[w] == if w == service then service + "-" + b.slot else a.services[w])
    && (forall w :: w in b.deployments <==> w in a.deployments && w != previous && w != service)
    && (forall w :: w in b.deployments ==> b.deployments[w] == a.deployments[w])
    && b.autoscalers == a.autoscalers - {service} && b.virtualServices == a.virtualServices
  }

  lemma RetiredIsOnlyCandidate(a: State, service: string, active: string)
    requires active in ["blue", "green"] && service in a.services
    ensures OnlyCandidate(a, Retired(Moved(a, service, Opposite(active)), service, SlotName(service, active)), service,
                          active)
    ensures BesideActive(a, Moved(a, service, Opposite(active)), service, active)
  {
    SideNamesDiffer(service);
    assert SlotName(service, active) == service + "-" + active;
    assert SlotName(service, Opposite(active)) == service + "-" + Opposite(active);
  }

  /** Selector, slot and workloads of `service` are as they were. */
  predicate Untouched(a: State, b: State) {
    b.deployments == a.deployments && b.services == a.services && b.slot == a.slot
  }

  /** From the cutover write on: the slot update, the observation and the compensations of either. */
  method Settle(ns: Namespace, active: string, here: string, there: string) returns (ok: bool)
    requires ns.Valid() && Tied(ns.st) && ns.service in ns.st.services
    requires there in ns.st.deployments && ns.st.services[ns.service] == there
    modifies ns`st, ns`calls, ns`trace, ns`steady, ns`calm, ns`gated, ns`gates
    ensures ns.Valid() && Tied(ns.st)
    ensures ns.st == old(ns.st).(services := ns.st.services, slot := ns.st.slot)
    ensures ok <==> ns.faults(old(ns.calls)).Done? && ns.faults(old(ns.calls) + 1).Done?
    ensures ok ==> ns.gates == old(ns.gates) + [[there]]
    ensures !Reverts(ns.faults, old(ns.calls)) ==> ns.gated == old(ns.gated)
    ensures ns.st.services == old(ns.st).services[ns.service :=
                                if Reverts(ns.faults, old(ns.calls)) then here else there]
    ensures ns.st.slot == if Records(ns.faults, old(ns.calls)) then Opposite(active)
                          else if ns.faults(old(ns.calls)).Done? then active else old(ns.st).slot
    ensures ns.steady <==>
      (old(ns.steady) && !(Reverts(ns.faults, old(ns.calls)) && here !in old(ns.st).deployments))
  {
    ok := UpdateSlot(ns, Opposite(active));
    if !ok {
      SwitchBack(ns, here);
      return false;
    }
    ok := Await(ns, [there]);
    if !ok {
      SwitchBack(ns, here);
      var _ := UpdateSlot(ns, active);
      return false;
    }
  }

  /** The compensating switch, whose error is dropped. */
  method SwitchBack(ns: Namespace, here: string)
    requires ns.Valid() && Tied(ns.st) && Selects(ns.st, ns.service)
    modifies ns`st, ns`calls, ns`trace, ns`steady, ns`calm, ns`gated
    ensures ns.Valid() && Tied(ns.st) && ns.calls == AfterRestore(ns.faults, old(ns.calls))
    ensures ns.st == old(ns.st).(services := if Restores(ns.faults, old(ns.calls))
                                             then old(ns.st).services[ns.service := here] else old(ns.st).services)
    ensures ns.steady <==>
      old(ns.steady) && !(Restores(ns.faults, old(ns.calls)) && here !in old(ns.st).deployments)
    ensures !Restores(ns.faults, old(ns.calls)) ==> ns.gated == old(ns.gated)
  {
    var _ := Switch(ns, here);
  }

  /** The waits and the cutover write. */
  method CutOver(ns: Namespace, active: string) returns (ok: bool)
    requires ns.Valid() && Tied(ns.st) && active in ["blue", "green"]
    modifies ns`st, ns`calls, ns`trace, ns`steady, ns`calm, ns`gated, ns`gates
    ensures ns.Valid() && Tied(ns.st) && ns.steady == old(ns.steady) && ns.gated == old(ns.gated)
    ensures ok ==> ns.gates == old(ns.gates) + [[SlotName(ns.service, Opposite(active))],
                                                [SlotName(ns.service, Opposite(active))]]
    ensures
      var service, f, c := ns.service, ns.faults, old(ns.calls);
      var able := SlotName(service, Opposite(active)) in old(ns.st).deployments
                  && service in old(ns.st).services && AllDone(f, c, c + 3);
      && (ok <==> able && f(c + 3).Done?) && (ok ==> ns.calls == c + 4)
      && ns.st == if able && !f(c + 3).Refused?
                  then Applied(old(ns.st), Service(service, SlotName(service, Opposite(active)))) else old(ns.st)
  {
    var candidate := SlotName(ns.service, Opposite(active));
    ok := Await(ns, [candidate]);
    if !ok { return; }
    ok := Await(ns, [candidate]);
    if !ok { return; }
    assert candidate in ns.st.deployments;
    assert candidate in ns.gates[|ns.gates| - 1];
    ok := Switch(ns, candidate);
  }

  /** promoteBlueGreen up to and including the observation. */
  method ShiftTraffic(ns: Namespace, active: string) returns (verdict: Verdict)
    requires ns.Valid() && Tied(ns.st) && active in ["blue", "green"]
    modifies ns`st, ns`calls, ns`trace, ns`steady, ns`calm, ns`gated, ns`gates
    ensures ns.Valid() && Tied(ns.st)
    ensures ns.st == old(ns.st).(services := ns.st.services, slot := ns.st.slot)
    ensures Shifted(old(ns.st), ns.st, ns.service, active, ns.faults, old(ns.calls), verdict)
    ensures ns.steady <==>
      (old(ns.steady) && !Strands(old(ns.st), ns.service, active, ns.faults, old(ns.calls)))
    ensures !MovesBack(ns.faults, old(ns.calls)) ==> ns.gated == old(ns.gated)
    ensures verdict.Switched? ==> ns.gates == old(ns.gates) + ThreeGates(SlotName(ns.service, Opposite(active)))
  {
    SideNamesDiffer(ns.service);
    ghost var a, c := ns.st, ns.calls;
    var ok := CutOver(ns, active);
    if !ok {
      CutFails(a, ns.st, ns.service, active, ns.faults, c);
      return Failed;
    }
    ok := Settle(ns, active, SlotName(ns.service, active), SlotName(ns.service, Opposite(active)));
    verdict := if ok then Switched(Opposite(active)) else RolledBack;
    CutSettles(a, ns.st, ns.service, active, ns.faults, c, verdict);
  }

  /** The cutover was not reached, or did not go well. */
  lemma CutFails(a: State, b: State, service: string, active: string, f: nat -> Outcome, c: nat)
    requires active in ["blue", "green"] && !(CanCutOver(a, service, active) && AllDone(f, c, c + 4))
    requires b == if CanCutOver(a, service, active) && AllDone(f, c, c + 3) && !f(c + 3).Refused?
                  then Applied(a, Service(service, SlotName(service, Opposite(active)))) else a
    ensures Shifted(a, b, service, active, f, c, Failed) && !Strands(a, service, active, f, c)
  {
    SideNamesDiffer(service);
  }

  /** The cutover went well, and what followed ended as `Settle` says. */
  lemma CutSettles(a: State, b: State, service: string, active: string, f: nat -> Outcome, c: nat, verdict: Verdict)
    requires active in ["blue", "green"] && CanCutOver(a, service, active) && AllDone(f, c, c + 4)
    requires verdict == if f(c + 4).Done? && f(c + 5).Done? then Switched(Opposite(active)) else RolledBack
    requires b == a.(services := b.services, slot := b.slot)
    requires b.services == a.services[service := SlotName(service, if Reverts(f, c + 4) then active
                                                                   else Opposite(active))]
    requires b.slot == if Records(f, c + 4) then Opposite(active) else if f(c + 4).Done? then active else a.slot
    ensures Shifted(a, b, service, active, f, c, verdict)
  {
    SideNamesDiffer(service);
  }

  /** The two waits before the cutover, and the observation. */
  function ThreeGates(w: string): seq<seq<string>> { [[w], [w], [w]] }

  predicate CanCutOver(a: State, service: string, active: string) {
    SlotName(service, Opposite(active)) in a.deployments && service in a.services
  }

  /** Traffic is put back on an active slot that has no Deployment. */
  predicate Strands(a: State, service: string, active: string, f: nat -> Outcome, c: nat) {
    CanCutOver(a, service, active) && SlotName(service, active) !in a.deployments && MovesBack(f, c)
  }

  /** What is returned, if neither a cancelled observation nor the cleanup gets in the way. */
  function Judged(a: State, service: string, active: string, f: nat -> Outcome, c: nat): Verdict {
    if !CanCutOver(a, service, active) || !AllDone(f, c, c + 4) then Failed
    else if !f(c + 4).Done? || !f(c + 5).Done? then RolledBack
    else Switched(Opposite(active))
  }

  ghost predicate Shifted(a: State, b: State, service: string, active: string, f: nat -> Outcome, c: nat,
                          verdict: Verdict) {
    && verdict == Judged(a, service, active, f, c)
    && (On(a, service, active) ==>
         (Agree(b, service) <==> !(SlotName(service, Opposite(active)) in a.deployments && Splits(f, c))))
    && (verdict.Switched? ==>
         && verdict.slot == Opposite(active) && b == Moved(a, service, Opposite(active))
         && SlotName(service, Opposite(active)) in b.deployments)
    && (On(a, service, active) && Compensates(f, c) && !verdict.Switched? ==> Untouched(a, b))
  }

  /** The previous slot and the legacy workload are gone, and nothing else. */
  function Retired(st: State, service: string, previous: string): State {
    st.(deployments := st.deployments - {previous} - {service}, services := st.services - {previous},
        autoscalers := st.autoscalers - {service})
  }

  /** The canonical Service selects `kept`, which stands. */
  predicate Holds(st: State, service: string, kept: string) {
    service in st.services && st.services[service] == kept && kept in st.deployments
  }

  /** cleanupBlueGreenSlot. */
  method CleanupSlot(ns: Namespace, slot: string, ghost kept: string) returns (ok: bool)
    requires ns.Valid() && Tied(ns.st) && slot != ns.service && slot != kept && Holds(ns.st, ns.service, kept)
    modifies ns`st, ns`calls, ns`trace, ns`steady, ns`calm, ns`gated
    ensures ns.Valid() && Tied(ns.st) && ns.steady == old(ns.steady) && ns.gated == old(ns.gated)
    ensures Holds(ns.st, ns.service, kept)
    ensures ns.st == old(ns.st).(deployments := ns.st.deployments, services := ns.st.services)
    ensures ok ==> ns.st.deployments == old(ns.st).deployments - {slot} && ns.st.services == old(ns.st).services - {slot}
    ensures ns.st.deployments == old(ns.st).deployments || ns.st.deployments == old(ns.st).deployments - {slot}
    ensures AllWell(ns.faults) ==> ok
  {
    ok := ns.DeleteDeployment(slot);
    if !ok { return; }
    ok := ns.DeleteService(slot);
  }

  /** cleanupLegacyRollingWorkload. */
  method CleanupLegacy(ns: Namespace, ghost kept: string) returns (ok: bool)
    requires ns.Valid() && Tied(ns.st) && kept != ns.service && Holds(ns.st, ns.service, kept)
    modifies ns`st, ns`calls, ns`trace, ns`steady, ns`calm, ns`gated
    ensures ns.Valid() && Tied(ns.st) && ns.steady == old(ns.steady) && ns.gated == old(ns.gated)
    ensures Holds(ns.st, ns.service, kept)
    ensures ns.st == old(ns.st).(deployments := ns.st.deployments, autoscalers := ns.st.autoscalers)
    ensures ok ==> ns.st.deployments == old(ns.st).deployments - {ns.service}
    ensures ns.st.deployments == old(ns.st).deployments || ns.st.deployments == old(ns.st).deployments - {ns.service}
    ensures ok ==> ns.st.autoscalers == old(ns.st).autoscalers - {ns.service}
    ensures AllWell(ns.faults) ==> ok
  {
    ok := ns.DeleteDeployment(ns.service);
    if !ok { return; }
    ok := ns.Autoscale(false);
  }

  /** Both cleanups, and the wait for the previous slot. */
  method Retire(ns: Namespace, previous: string, ghost kept: string) returns (ok: bool)
    requires ns.Valid() && Tied(ns.st) && previous != ns.service && previous != kept && kept != ns.service
    requires Holds(ns.st, ns.service, kept)
    modifies ns`st, ns`calls, ns`trace, ns`steady, ns`calm, ns`gated
    ensures ns.Valid() && Tied(ns.st) && ns.steady == old(ns.steady) && ns.gated == old(ns.gated)
    ensures Holds(ns.st, ns.service, kept)
    ensures ns.st.slot == old(ns.st).slot && ns.st.virtualServices == old(ns.st).virtualServices
    ensures ok ==> ns.st == Retired(old(ns.st), ns.service, previous)
    ensures forall w :: w in ns.st.deployments ==>
              w in old(ns.st).deployments && ns.st.deployments[w] == old(ns.st).deployments[w]
    ensures AllWell(ns.faults) ==> ok
  {
    ok := CleanupSlot(ns, previous, kept);
    if !ok { return; }
    ok := CleanupLegacy(ns, kept);
    if !ok { return; }
    ok := AwaitRetired(ns, [previous]);
  }

  /**
   * promoteBlueGreen. Selector and slot part exactly under `Splits`, traffic is dropped exactly under `Strands`, and
   * nothing is deleted unless both are on the candidate. When compensations succeed, anything short of both on the
   * candidate leaves the state untouched.
   */
  method PromoteBlueGreen(ns: Namespace, primary: string, cancelled: bool) returns (verdict: Verdict)
    requires ns.Valid() && Tied(ns.st)
    modifies ns`st, ns`calls, ns`trace, ns`steady, ns`calm, ns`gated, ns`gates
    ensures ns.Valid() && Tied(ns.st)
    ensures ns.steady <==>
      (old(ns.steady) && !Strands(old(ns.st), ns.service, ActiveSlot(primary), ns.faults, old(ns.calls)))
    ensures
      var service, active, f, c := ns.service, ActiveSlot(primary), ns.faults, old(ns.calls);
      && Ends(old(ns.st), ns.st, service, active, verdict)
      && (On(old(ns.st), service, active) ==>
           (Agree(ns.st, service) <==>
              !(SlotName(service, Opposite(active)) in old(ns.st).deployments && Splits(f, c))))
      && (On(old(ns.st), service, active) && Compensates(f, c) ==>
           Untouched(old(ns.st), ns.st) || (!verdict.RolledBack? && On(ns.st, service, Opposite(active))))
    ensures
      var judged := Judged(old(ns.st), ns.service, ActiveSlot(primary), ns.faults, old(ns.calls));
      if !judged.Switched? then verdict == judged
      else if cancelled then verdict.Cancelled? else verdict == judged || verdict.Failed?
    ensures AllWell(ns.faults) ==>
              verdict == if !CanCutOver(old(ns.st), ns.service, ActiveSlot(primary)) then Failed
                         else if cancelled then Cancelled else Switched(Opposite(ActiveSlot(primary)))
    ensures !MovesBack(ns.faults, old(ns.calls)) ==> ns.gated == old(ns.gated)
    ensures verdict.Switched? || verdict.Cancelled? ==>
              ns.gates == old(ns.gates) + ThreeGates(SlotName(ns.service, Opposite(ActiveSlot(primary))))
  {
    var active := ActiveSlot(primary);
    ghost var a := ns.st;
    verdict := ShiftTraffic(ns, active);
    if verdict.Switched? {
      RetiredIsOnlyCandidate(a, ns.service, active);
      if cancelled { return Cancelled; }
      SideNamesDiffer(ns.service);
      var ok := Retire(ns, SlotName(ns.service, active), SlotName(ns.service, Opposite(active)));
      if !ok { return Failed; }
    }
  }
}
