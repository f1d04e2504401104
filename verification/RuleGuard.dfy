/** The availability guard on a published rule, and the canary override that runs after it. */
module RuleGuard {
  import opened Text
  import opened Manifests
  import opened CanaryShift
  import opened CanaryPromotion
  import opened RulePublish
  import opened RuleRoutes
  import BlueGreen
  import Cluster

  /** What workloadTargetReady finds: Service and available pods, one of them missing, or a read that failed. */
  datatype Readiness = Up | Down | Unread

  /** How the service's workloads and its canonical Service look. */
  datatype Sight = Sight(workload: string -> Readiness, canonical: Readiness)

  predicate IsCanary(svc: Service) { StrategyType(svc) == "canary" }

  /** The published routes give the canary a share. */
  predicate ToCanary(svc: Service) { IsCanary(svc) && svc.percent > 0 }

  /** The part of a hundred that the canary is to get: the percent, kept between nothing and half. */
  function CanaryPart(svc: Service): (part: int)
    ensures 0 <= part <= 50 && (part > 0 <==> ToCanary(svc))
  {
    if IsCanary(svc) then Within(svc.percent) else 0
  }

  function Within(percent: int): int {
    if percent <= 0 then 0 else if percent >= 50 then 50 else percent
  }

  /** The guard sees that stable and canary are not both up. */
  predicate SeenDown(name: string, sight: Sight) {
    var stable, canary := sight.workload(name), sight.workload(CanaryOf(name));
    !stable.Unread? && !canary.Unread? && !(stable.Up? && canary.Up?)
  }

  /** Where published traffic of a blue-green service goes. */
  function TrafficSlot(svc: Service): string { BlueGreen.ActiveSlot(svc.primary) }

  /** Slots that can serve: the slot is up, or what to fall back to is not known to be. */
  predicate SlotServes(name: string, sight: Sight, slot: string, other: string) {
    || !sight.workload(name + "-" + slot).Down?
    || sight.workload(name + "-" + other).Unread?
    || (sight.workload(name + "-" + other).Down? && !sight.canonical.Up?)
  }

  /** Nothing moves without need; what moves goes to a slot that is up, or back to the canonical Service. */
  predicate SlotsGuarded(svc: Service, out: Service, name: string, sight: Sight) {
    var here, there := TrafficSlot(svc), Cluster.Opposite(TrafficSlot(svc));
    var first, second := sight.workload(name + "-" + here), sight.workload(name + "-" + there);
    && (StrategyType(out) == "blue-green" ==> SlotServes(name, sight, TrafficSlot(out), Cluster.Opposite(TrafficSlot(out))))
    && (if first.Down? && second.Up? then out == svc.(primary := there) && TrafficSlot(out) == there
        else if first.Down? && second.Down? && sight.canonical.Up? then StrategyType(out) == "rolling"
        else out == svc)
  }

  /**
   * normalizeRuleDeployStrategyForAvailability; `cron` says that the template is the cron job one, which the guard
   * takes for a rolling deploy.
   */
  method NormalizeForAvailability(svc: Service, cron: bool, name: string, sight: Sight) returns (out: Service)
    ensures ToCanary(out) <==> ToCanary(svc) && (cron || !SeenDown(name, sight))
    ensures IsCanary(out) == IsCanary(svc)
    ensures StrategyType(svc) != "blue-green" ==> out == svc.(percent := out.percent)
    ensures StrategyType(svc) != "blue-green" && ToCanary(svc) == ToCanary(out) ==> out == svc
    ensures !cron && StrategyType(svc) == "blue-green" ==> SlotsGuarded(svc, out, name, sight)
    ensures cron ==> out == svc
  {
    out := svc;
    if cron { return; }
    match StrategyType(svc) {
      case "canary" =>
        if svc.percent <= 0 { return; }
        var stable := sight.workload(name);
        if stable.Unread? { return; }
        var canary := sight.workload(CanaryOf(name));
        if canary.Unread? { return; }
        if stable.Up? && canary.Up? { return; }
        out := svc.(percent := 0);
      case "blue-green" =>
        out := GuardSlots(svc, name, sight);
      case _ =>
    }
  }

  /** The blue-green case. */
  method GuardSlots(svc: Service, name: string, sight: Sight) returns (out: Service)
    requires StrategyType(svc) == "blue-green"
    ensures !IsCanary(out) && SlotsGuarded(svc, out, name, sight)
  {
    var primary := TrafficSlot(svc);
    var secondary := Cluster.Opposite(primary);
    SlotsResolve(svc);
    var first := sight.workload(name + "-" + primary);
    if !first.Down? { return svc; }
    var second := sight.workload(name + "-" + secondary);
    if second.Unread? { return svc; }
    if second.Up? { return svc.(primary := secondary); }
    if !sight.canonical.Up? { return svc; }
    TrimSpaceTrims("rolling");
    RollingType(svc, "rolling");
    return svc.(strategy := "rolling", primary := "");
  }

  lemma RollingType(svc: Service, rolling: string)
    requires rolling == "rolling"
    ensures StrategyType(svc.(strategy := rolling, primary := "")) == rolling
  {
    TrimSpaceTrims(rolling);
  }

  lemma SlotsResolve(svc: Service)
    ensures TrafficSlot(svc) in {"blue", "green"}
    ensures TrafficSlot(svc.(primary := Cluster.Opposite(TrafficSlot(svc)))) == Cluster.Opposite(TrafficSlot(svc))
  {
    SlotResolves("blue", "green");
  }

  lemma SlotResolves(blue: string, green: string)
    requires blue == "blue" && green == "green"
    ensures BlueGreen.ActiveSlot(blue) == blue && BlueGreen.ActiveSlot(green) == green
  {
    TrimSpaceTrims(blue);
    TrimSpaceTrims(green);
    assert EqualFold(green, "green");
    assert |blue| != |green|;
  }

  /** applyRuleDeployStrategyOverride. */
  function Overridden(svc: Service, override: Option<int>): Service {
    if !IsCanary(svc) || override.None? then svc
    else svc.(percent := if override.value < 0 then 0 else if override.value > 50 then 50 else override.value)
  }

  /** The service a rule is published for: guard first, override second. */
  method ResolveSpread(svc: Service, cron: bool, name: string, sight: Sight, override: Option<int>) returns (out: Service)
    ensures ToCanary(out) <==> if override.Some? then IsCanary(svc) && override.value > 0
                               else ToCanary(svc) && (cron || !SeenDown(name, sight))
    ensures IsCanary(svc) ==>
              CanaryPart(out) == if override.Some? then Within(override.value)
                                 else if !cron && SeenDown(name, sight) then 0 else CanaryPart(svc)
    ensures StrategyType(svc) != "blue-green" ==> out == svc.(percent := out.percent)
    ensures !cron && StrategyType(svc) == "blue-green" ==> SlotsGuarded(svc, out, name, sight)
  {
    out := NormalizeForAvailability(svc, cron, name, sight);
    OverrideDecides(out, override);
    out := Overridden(out, override);
  }

  /** An override decides alone whether the canary gets a share, whatever the guard found. */
  lemma OverrideDecides(svc: Service, override: Option<int>)
    ensures ToCanary(Overridden(svc, override)) <==>
            if override.Some? then IsCanary(svc) && override.value > 0 else ToCanary(svc)
  {
  }

  /** What `ToCanary` means for the published destinations. */
  lemma ToCanaryIff(svc: Service, sc: Scope, port: int)
    requires TrimmedScope(sc)
    ensures ListNamesCanary(sc, StrategyDestinations(svc, sc, port)) <==> ToCanary(svc)
  {
    if ToCanary(svc) {
      SharedNamesCanary(sc, port, AtMostHalf(svc.percent));
    } else if StrategyType(svc) == "blue-green" {
      SlotHostIsNotCanary(sc, BlueGreen.ActiveSlot(svc.primary));
      LoneNames(sc, LocalHost(SlotHost(sc, svc), sc.namespace), port);
    } else {
      StableIsNotCanary(sc);
      LoneNames(sc, StableHost(sc), port);
    }
  }

  lemma SharedNamesCanary(sc: Scope, port: int, canary: int)
    requires TrimmedScope(sc)
    ensures ListNamesCanary(sc, Shared(sc, port, canary))
  {
    CanaryShare(sc, Shared(sc, port, canary)[1], port, canary);
    assert NamesCanary(sc, Shared(sc, port, canary)[1]);
  }

  lemma LoneNames(sc: Scope, host: string, port: int)
    requires !IsCanaryHost(sc, TrimSpace(host))
    ensures !ListNamesCanary(sc, [RouteDestination(host, port, 100)])
  {
    DestinationHost(sc, host, port, 100);
  }
}
