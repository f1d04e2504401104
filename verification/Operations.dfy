/** The operations of a run, when one of them drops traffic, and when some failing calls can make it do so. */
module Operations {
  import opened Manifests
  import opened Cluster
  import opened Release
  import opened BlueGreen
  import opened Cleanup
  import opened Rollout

  datatype Op =
    | ReleaseRolling(template: seq<Resource>, autoscale: bool)
    | ReleaseCanary(template: seq<Resource>)
    | ReleaseBlueGreen(template: seq<Resource>, primary: string)
    | FinishCanary
    | SwitchSlots(primary: string, cancelled: bool)
    | SweepShadows(strategy: Strategy)

  predicate Templated(op: Op, service: string) {
    op.ReleaseRolling? || op.ReleaseCanary? || op.ReleaseBlueGreen? ==> TemplateOK(op.template, service)
  }

  /** Operation `op`, started in state `st` with call `c` next, takes traffic's Deployment away. */
  ghost predicate Drops(op: Op, service: string, st: State, f: nat -> Outcome, c: nat) {
    match op
    case ReleaseRolling(template, _) => RollingDrops(st, service, template, f, c)
    case ReleaseCanary(template) => CanaryDeployDrops(st, service, template, f, c)
    case SwitchSlots(primary, _) => Strands(st, service, ActiveSlot(primary), f, c)
    case _ => false
  }

  // ---- whether some schedule drops traffic ----

  /** After `rs` the canonical Service selects a Deployment that exists, and the stable one is not there. */
  predicate Exposed(st: State, service: string, rs: seq<Resource>) {
    && service in st.services && service !in st.deployments && !Deploys(rs, service)
    && (st.services[service] in st.deployments || Deploys(rs, st.services[service]))
  }

  /** What `op` applies before it turns to the canonical Service, if it ever does. */
  function Prelude(op: Op, service: string): (rs: seq<Resource>)
    requires op.ReleaseRolling? || op.ReleaseCanary?
  {
    if op.ReleaseRolling? then op.template[..CanonicalAt(op.template, service)] else Others(op.template, service)
  }

  predicate TurnsToCanonical(op: Op, service: string)
    requires op.ReleaseRolling? || op.ReleaseCanary?
  {
    if op.ReleaseRolling? then CanonicalAt(op.template, service) < |op.template| else Splittable(op.template, service)
  }

  /** Started in state `st`, some failing calls make `op` drop traffic. */
  predicate AtRisk(op: Op, service: string, st: State) {
    if op.ReleaseRolling? || op.ReleaseCanary? then
      TurnsToCanonical(op, service) && Exposed(st, service, Prelude(op, service))
    else
      op.SwitchSlots? && CanCutOver(st, service, ActiveSlot(op.primary))
      && SlotName(service, ActiveSlot(op.primary)) !in st.deployments
  }

  lemma {:induction false} AfterMeans(st: State, rs: seq<Resource>, service: string)
    requires forall i :: 0 <= i < |rs| ==> !IsCanonical(rs[i], service)
    ensures forall d :: d in After(st, rs).deployments <==> d in st.deployments || Deploys(rs, d)
    ensures service in After(st, rs).services <==> service in st.services
    ensures service in st.services ==> After(st, rs).services[service] == st.services[service]
  {
    if rs != [] {
      var front, r := rs[..|rs| - 1], rs[|rs| - 1];
      AfterMeans(st, front, service);
      assert forall d :: Deploys(rs, d) <==> Deploys(front, d) || (r.Deployment? && r.name == d) by {
        assert forall i :: 0 <= i < |front| ==> rs[i] == front[i];
      }
    }
  }

  /** What the prelude leaves is exposed to a failed read exactly when `Exposed`. */
  lemma ExposedMeans(st: State, rs: seq<Resource>, service: string)
    requires forall i :: 0 <= i < |rs| ==> !IsCanonical(rs[i], service)
    ensures Exposed(st, service, rs) <==> Selects(After(st, rs), service) && service !in After(st, rs).deployments
  {
    AfterMeans(st, rs, service);
  }

  lemma PreludeIsPlain(op: Op, service: string)
    requires (op.ReleaseRolling? || op.ReleaseCanary?) && Templated(op, service)
    ensures var rs := Prelude(op, service); forall i :: 0 <= i < |rs| ==> !IsCanonical(rs[i], service)
  {
    if op.ReleaseCanary? {
      OthersPlain(op.template, service);
    }
  }

  /** Just call `k` is refused. */
  function RefusedAt(k: nat): nat -> Outcome { n => if n == k then Refused else Done }

  /** The call whose failure does it. */
  function Crux(op: Op, service: string): nat {
    match op
    case ReleaseRolling(template, _) => CanonicalAt(template, service)
    case ReleaseCanary(template) => |Others(template, service)| + 1
    case _ => 4
  }

  lemma RiskIsReal(op: Op, service: string, st: State, c: nat)
    requires Templated(op, service) && AtRisk(op, service, st)
    ensures Drops(op, service, st, RefusedAt(c + Crux(op, service)), c)
  {
    if op.ReleaseRolling? || op.ReleaseCanary? {
      PreludeIsPlain(op, service);
      ExposedMeans(st, Prelude(op, service), service);
    }
  }

  lemma DropIsRisk(op: Op, service: string, st: State, f: nat -> Outcome, c: nat)
    requires Templated(op, service) && Drops(op, service, st, f, c)
    ensures AtRisk(op, service, st)
  {
    if op.ReleaseRolling? || op.ReleaseCanary? {
      PreludeIsPlain(op, service);
      ExposedMeans(st, Prelude(op, service), service);
    }
  }

  /** Whether any schedule drops traffic can be read off the template and the state. */
  lemma RiskIff(op: Op, service: string, st: State, c: nat)
    requires Templated(op, service)
    ensures (exists f: nat -> Outcome :: Drops(op, service, st, f, c)) <==> AtRisk(op, service, st)
  {
    if AtRisk(op, service, st) { RiskIsReal(op, service, st, c); }
    if f: nat -> Outcome :| Drops(op, service, st, f, c) { DropIsRisk(op, service, st, f, c); }
  }

  // ---- operations that never drop traffic ----

  /**
   * A rolling deploy that lists its stable Deployment before its canonical Service, a canary deploy that passes one
   * on, and everything else but a switch.
   */
  predicate Tame(op: Op, service: string) {
    if op.ReleaseRolling? || op.ReleaseCanary? then
      TurnsToCanonical(op, service) ==> Deploys(Prelude(op, service), service)
    else
      !op.SwitchSlots?
  }

  /** Traffic is on one Deployment, and another is the candidate of a switch. */
  function Wild(op: Op, service: string): State {
    var other := if op.SwitchSlots? then SlotName(service, Opposite(ActiveSlot(op.primary))) else CanaryOf(service);
    State(map[other := Pods(other, "")], map[service := other], {}, [], "")
  }

  /** An operation is tame exactly when it drops traffic from no state, under no schedule. */
  lemma TameIff(op: Op, service: string)
    requires Templated(op, service)
    ensures Tame(op, service) <==>
      forall st, f: nat -> Outcome, c: nat :: Tied(st) ==> !Drops(op, service, st, f, c)
    ensures Tame(op, service) ==> forall st :: !AtRisk(op, service, st)
  {
    if Tame(op, service) {
      forall st, f: nat -> Outcome, c: nat | Tied(st) ensures !Drops(op, service, st, f, c) {
        if Drops(op, service, st, f, c) { DropIsRisk(op, service, st, f, c); }
      }
    } else {
      WildIsAtRisk(op, service);
      RiskIsReal(op, service, Wild(op, service), 0);
    }
  }

  lemma WildIsAtRisk(op: Op, service: string)
    requires !Tame(op, service)
    ensures Tied(Wild(op, service)) && AtRisk(op, service, Wild(op, service))
  {
    SideNamesDiffer(service);
  }

  // ---- operations that leave traffic where it is ----

  /** Operation `op` neither moves traffic off workload `t` nor changes what that runs. */
  predicate QuietOn(op: Op, service: string, t: string) {
    match op
    case ReleaseCanary(template) => t == service && !Deploys(Others(template, service), t)
    case ReleaseBlueGreen(template, primary) =>
      t == SlotName(service, ActiveSlot(primary)) && !Deploys(Others(template, service), t)
    case SweepShadows(_) => true
    case _ => false
  }

  /** Traffic has pods to go to, and `op` is quiet on the workload it goes to. */
  predicate QuietIn(op: Op, service: string, st: State) {
    Selects(st, service) && QuietOn(op, service, st.services[service])
  }

  lemma QuietDropsNothing(op: Op, service: string, st: State, f: nat -> Outcome, c: nat)
    requires Templated(op, service) && QuietIn(op, service, st)
    ensures op.ReleaseCanary? ==> !Drops(op, service, st, f, c) && !OnCanary(st, service)
  {
    if op.ReleaseCanary? && Drops(op, service, st, f, c) { DropIsRisk(op, service, st, f, c); }
    SideNamesDiffer(service);
  }
}
