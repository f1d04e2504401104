/** Runs of any length, of any mix of operations, with any call failing. */
module Runs {
  import opened Text
  import opened Manifests
  import opened Cluster
  import opened Release
  import opened BlueGreen
  import opened Cleanup
  import opened Rollout
  import opened Operations

  /** Where an operation starts: how far the trace is, the state, and the number of the next call. */
  datatype Start = Start(at: nat, st: State, c: nat)

  ghost function Here(ns: Namespace): Start
    requires ns.trace != []
    reads ns
  {
    Start(|ns.trace| - 1, ns.st, ns.calls)
  }

  /** The operation that led from `a` to `b` kept traffic, write after write. */
  ghost predicate SteadyBetween(trace: seq<State>, service: string, a: Start, b: Start) {
    forall k :: a.at <= k < b.at < |trace| && Serving(trace[k], service) ==> Serving(trace[k + 1], service)
  }

  /** Whether an operation drops traffic, by the operation, the state it starts in and the number of its first call. */
  ghost function DropRule(service: string, f: nat -> Outcome): (Op, State, nat) -> bool {
    (op: Op, st: State, c: nat) => Drops(op, service, st, f, c)
  }

  /** Operation `op` led from `a` to `b`; its stretch of the trace is steady exactly when `drops` does not name it. */
  ghost predicate Linked(op: Op, a: Start, b: Start, trace: seq<State>, service: string,
                         drops: (Op, State, nat) -> bool) {
    && a.at <= b.at < |trace| && a.c <= b.c && trace[a.at] == a.st && trace[b.at] == b.st
    && (SteadyBetween(trace, service, a, b) <==> !drops(op, a.st, a.c))
    && (!op.SwitchSlots? ==> Keeps(a.st, b.st, service))
  }

  /** A stretch of its own, joined to what came before. */
  lemma LinkUp(op: Op, before: seq<State>, own: seq<State>, trace: seq<State>, c: nat, d: nat, service: string,
               drops: (Op, State, nat) -> bool)
    requires before != [] && own != [] && before[|before| - 1] == own[0] && trace == before + own[1..] && c <= d
    requires Steady(own, service) <==> !drops(op, own[0], c)
    requires !op.SwitchSlots? ==> Keeps(own[0], own[|own| - 1], service)
    ensures Linked(op, Start(|before| - 1, own[0], c), Start(|trace| - 1, own[|own| - 1], d), trace, service, drops)
  {
    var n := |before| - 1;
    assert forall k :: 0 <= k < |own| ==> trace[n + k] == own[k];
    OwnStretch(trace, own, n, service);
  }

  lemma OwnStretch(trace: seq<State>, own: seq<State>, n: nat, service: string)
    requires own != [] && |trace| == n + |own| && forall k :: 0 <= k < |own| ==> trace[n + k] == own[k]
    ensures Steady(own, service) <==>
            forall k :: n <= k < |trace| - 1 && Serving(trace[k], service) ==> Serving(trace[k + 1], service)
  {
    assert forall k :: n <= k < |trace| ==> trace[k] == own[k - n];
    AlwaysMeans(own, KeepsServing(service));
    if forall k :: n <= k < |trace| - 1 && Serving(trace[k], service) ==> Serving(trace[k + 1], service) {
      forall k | 0 <= k < |own| - 1 && Serving(own[k], service) ensures Serving(own[k + 1], service) {
        assert Serving(trace[n + k], service) && trace[n + k + 1] == own[k + 1];
      }
      forall k | 0 <= k < |own| - 1 ensures KeepsServing(service)(own[k], own[k + 1]) {
      }
    }
  }

  /** One operation. Its own stretch of the trace is steady exactly when it does not meet its drop condition. */
  method Perform(ns: Namespace, sc: Scope, op: Op)
    requires ns.Valid() && Tied(ns.st) && ns.service == sc.service != "" && Templated(op, ns.service)
    modifies ns
    ensures ns.Valid() && Tied(ns.st) && old(ns.trace) <= ns.trace
    ensures Linked(op, old(Here(ns)), Here(ns), ns.trace, ns.service, DropRule(ns.service, ns.faults))
    ensures ns.steady <==>
      (old(ns.steady) && !DropRule(ns.service, ns.faults)(op, old(ns.st), old(ns.calls)))
    ensures QuietIn(op, ns.service, old(ns.st)) ==> ns.calm == old(ns.calm) && SamePods(old(ns.st), ns.st, ns.service)
  {
    ghost var before, from, was, quiet := ns.trace, ns.since, ns.steady, ns.calm;
    PerformAlone(ns, sc, op);
    Splice(ns, op, before, from, was, quiet, old(ns.calls), DropRule(ns.service, ns.faults));
  }

  /** Puts the trace of one operation behind the one before it. */
  ghost method Splice(ns: Namespace, op: Op, before: seq<State>, from: nat, was: bool, quiet: bool, c: nat,
                      drops: (Op, State, nat) -> bool)
    requires ns.Valid() && before != [] && before[|before| - 1] == ns.origin && from <= c <= ns.calls
    requires (was <==> Steady(before, ns.service)) && (quiet <==> Calm(before, ns.service))
    requires ns.steady <==> !drops(op, ns.origin, c)
    requires !op.SwitchSlots? ==> Keeps(ns.origin, ns.st, ns.service)
    modifies ns`trace, ns`steady, ns`calm, ns`origin, ns`since
    ensures ns.Valid() && before <= ns.trace
    ensures Linked(op, Start(|before| - 1, before[|before| - 1], c), Here(ns), ns.trace, ns.service, drops)
    ensures (ns.steady <==> was && old(ns.steady)) && (ns.calm <==> quiet && old(ns.calm))
  {
    ghost var own := ns.trace;
    ns.Rejoin(before, from, was, quiet);
    LinkUp(op, before, own, ns.trace, c, ns.calls, ns.service, drops);
  }

  /** One operation on a trace of its own. */
  method PerformAlone(ns: Namespace, sc: Scope, op: Op)
    requires ns.Valid() && Tied(ns.st) && ns.service == sc.service != "" && Templated(op, ns.service)
    modifies ns
    ensures ns.Valid() && Tied(ns.st) && ns.origin == old(ns.st) && old(ns.calls) <= ns.calls
    ensures ns.steady <==> !DropRule(ns.service, ns.faults)(op, old(ns.st), old(ns.calls))
    ensures !op.SwitchSlots? ==> Keeps(old(ns.st), ns.st, ns.service)
    ensures QuietIn(op, ns.service, old(ns.st)) ==> ns.calm && SamePods(old(ns.st), ns.st, ns.service)
  {
    ns.Begin();
    Dispatch(ns, sc, op);
    if ns.calm { CalmThroughout(ns.trace, ns.service, 0, |ns.trace| - 1); }
  }

  method Dispatch(ns: Namespace, sc: Scope, op: Op)
    requires ns.Valid() && Tied(ns.st) && ns.service == sc.service != "" && Templated(op, ns.service)
    modifies ns`st, ns`calls, ns`trace, ns`steady, ns`calm, ns`gated, ns`gates
    ensures ns.Valid() && Tied(ns.st)
    ensures ns.steady <==>
      (old(ns.steady) && !DropRule(ns.service, ns.faults)(op, old(ns.st), old(ns.calls)))
    ensures !op.SwitchSlots? ==> Keeps(old(ns.st), ns.st, ns.service)
    ensures QuietIn(op, ns.service, old(ns.st)) ==> ns.calm == old(ns.calm)
  {
    if QuietIn(op, ns.service, ns.st) { QuietDropsNothing(op, ns.service, ns.st, ns.faults, ns.calls); }
    match op {
      case ReleaseRolling(template, autoscale) => var _ := DeployRolling(ns, sc, template, autoscale);
      case ReleaseCanary(template) => var _ := DeployCanary(ns, template);
      case ReleaseBlueGreen(template, primary) => var _ := DeployBlueGreen(ns, template, primary);
      case FinishCanary => var _ := PromoteCanary(ns, sc);
      case SwitchSlots(primary, cancelled) => var _ := PromoteBlueGreen(ns, primary, cancelled);
      case SweepShadows(strategy) => var _ := CleanupUnused(ns, sc, strategy);
    }
  }

  /** The operations of a run, one after the other along the trace: each starts where the one before it ended. */
  ghost predicate Chained(ops: seq<Op>, starts: seq<Start>, trace: seq<State>, service: string,
                          drops: (Op, State, nat) -> bool) {
    && |starts| == |ops| + 1
    && (forall i :: 0 <= i < |ops| ==> Linked(ops[i], starts[i], starts[i + 1], trace, service, drops))
  }

  ghost predicate NoneDrops(ops: seq<Op>, starts: seq<Start>, drops: (Op, State, nat) -> bool)
    requires |starts| > |ops|
  {
    forall i :: 0 <= i < |ops| ==> !drops(ops[i], starts[i].st, starts[i].c)
  }

  lemma LinkedLater(op: Op, a: Start, b: Start, trace: seq<State>, more: seq<State>, service: string,
                    drops: (Op, State, nat) -> bool)
    requires Linked(op, a, b, trace, service, drops) && trace <= more
    ensures Linked(op, a, b, more, service, drops)
  {
    assert forall k :: 0 <= k < |trace| ==> more[k] == trace[k];
  }

  /** A longer trace and one operation more. */
  lemma ChainedMore(ops: seq<Op>, starts: seq<Start>, trace: seq<State>, more: seq<State>, op: Op, end: Start,
                    service: string, drops: (Op, State, nat) -> bool)
    requires Chained(ops, starts, trace, service, drops) && trace <= more
    requires Linked(op, starts[|ops|], end, more, service, drops)
    ensures Chained(ops + [op], starts + [end], more, service, drops)
    ensures NoneDrops(ops + [op], starts + [end], drops) <==>
              NoneDrops(ops, starts, drops) && !drops(op, starts[|ops|].st, starts[|ops|].c)
  {
    var all, from := ops + [op], starts + [end];
    forall i | 0 <= i < |ops| ensures Linked(all[i], from[i], from[i + 1], more, service, drops) {
      LinkedLater(ops[i], starts[i], starts[i + 1], trace, more, service, drops);
    }
    assert forall i :: 0 <= i < |ops| ==> all[i] == ops[i] && from[i] == starts[i];
    assert all[|ops|] == op && from[|ops|] == starts[|ops|];
  }

  lemma ChainedNext(ops: seq<Op>, i: nat, starts: seq<Start>, trace: seq<State>, more: seq<State>, end: Start,
                    service: string, drops: (Op, State, nat) -> bool)
    requires i < |ops| && Chained(ops[..i], starts, trace, service, drops) && trace <= more
    requires Linked(ops[i], starts[i], end, more, service, drops)
    ensures Chained(ops[..i + 1], starts + [end], more, service, drops)
    ensures NoneDrops(ops[..i + 1], starts + [end], drops) <==>
              NoneDrops(ops[..i], starts, drops) && !drops(ops[i], starts[i].st, starts[i].c)
  {
    ChainedMore(ops[..i], starts, trace, more, ops[i], end, service, drops);
    assert ops[..i + 1] == ops[..i] + [ops[i]];
  }

  /**
   * Over any run with any schedule of refused and lost calls, the canonical Service keeps selecting a Deployment that
   * exists, write after write, exactly when no operation of the run meets its own drop condition where it starts.
   */
  method Run(ns: Namespace, sc: Scope, ops: seq<Op>) returns (ghost starts: seq<Start>)
    requires ns.Valid() && Tied(ns.st) && ns.service == sc.service != ""
    requires forall op :: op in ops ==> Templated(op, ns.service)
    modifies ns
    ensures ns.Valid() && Tied(ns.st) && old(ns.trace) <= ns.trace
    ensures Chained(ops, starts, ns.trace, ns.service, DropRule(ns.service, ns.faults))
    ensures starts[0] == old(Here(ns)) && starts[|ops|] == Here(ns)
    ensures ns.steady <==> (old(ns.steady) && NoneDrops(ops, starts, DropRule(ns.service, ns.faults)))
  {
    ghost var drops := DropRule(ns.service, ns.faults);
    starts := [Here(ns)];
    assert ops[..0] == [];
    for i := 0 to |ops|
      invariant ns.Valid() && Tied(ns.st) && old(ns.trace) <= ns.trace
      invariant Chained(ops[..i], starts, ns.trace, ns.service, drops)
      invariant starts[0] == old(Here(ns)) && starts[i] == Here(ns)
      invariant ns.steady <==> (old(ns.steady) && NoneDrops(ops[..i], starts, drops))
    {
      assert ops[i] in ops;
      ghost var trace := ns.trace;
      Perform(ns, sc, ops[i]);
      ChainedNext(ops, i, starts, trace, ns.trace, Here(ns), ns.service, drops);
      starts := starts + [Here(ns)];
    }
    assert ops[..|ops|] == ops;
  }

  /**
   * Each rolling or canary deploy of the run is tame, or comes, over a stable Deployment that stood at the start,
   * before every switch: a switch retires that.
   */
  predicate Sheltered(ops: seq<Op>, service: string, standing: bool) {
    forall j :: 0 <= j < |ops| && (ops[j].ReleaseRolling? || ops[j].ReleaseCanary?) ==>
      Tame(ops[j], service) || (standing && forall i :: 0 <= i < j ==> !ops[i].SwitchSlots?)
  }

  /** Each switch of a run starts with the Deployment of its active slot. */
  predicate SwitchesStand(ops: seq<Op>, starts: seq<Start>, service: string)
    requires |starts| > |ops|
  {
    forall i :: 0 <= i < |ops| && ops[i].SwitchSlots? ==>
      SlotName(service, ActiveSlot(ops[i].primary)) in starts[i].st.deployments
  }

  /**
   * A sheltered run keeps traffic, for every schedule, if it has no switch. If it has some, it is enough that each
   * starts with its active slot.
   */
  method RunSheltered(ns: Namespace, sc: Scope, ops: seq<Op>) returns (ghost starts: seq<Start>)
    requires ns.Valid() && Tied(ns.st) && ns.service == sc.service != ""
    requires forall op :: op in ops ==> Templated(op, ns.service)
    requires Sheltered(ops, ns.service, ns.service in ns.st.deployments)
    modifies ns
    ensures ns.Valid() && old(ns.trace) <= ns.trace
    ensures Chained(ops, starts, ns.trace, ns.service, DropRule(ns.service, ns.faults))
    ensures starts[0] == old(Here(ns)) && starts[|ops|] == Here(ns)
    ensures (forall op :: op in ops ==> !op.SwitchSlots?) ==> ns.steady == old(ns.steady)
    ensures SwitchesStand(ops, starts, ns.service) ==> ns.steady == old(ns.steady)
  {
    starts := Run(ns, sc, ops);
    if SwitchesStand(ops, starts, ns.service) {
      ShelteredDropsNothing(ops, starts, ns.trace, ns.service, ns.faults);
    }
    assert (forall op :: op in ops ==> !op.SwitchSlots?) ==> SwitchesStand(ops, starts, ns.service);
  }

  /**
   * While traffic goes to the stable Deployment, canary deploys and sweeps leave it on the very same pods in every
   * state, however the calls end; so do blue-green deploys and sweeps while it goes to their active slot.
   */
  method RunQuiet(ns: Namespace, sc: Scope, ops: seq<Op>)
    requires ns.Valid() && Tied(ns.st) && ns.service == sc.service != ""
    requires forall op :: op in ops ==> Templated(op, ns.service) && QuietIn(op, ns.service, ns.st)
    modifies ns
    ensures ns.Valid() && Tied(ns.st) && old(ns.trace) <= ns.trace && ns.calm == old(ns.calm)
    ensures SamePods(old(ns.st), ns.st, ns.service)
  {
    for i := 0 to |ops|
      invariant ns.Valid() && Tied(ns.st) && old(ns.trace) <= ns.trace && ns.calm == old(ns.calm)
      invariant SamePods(old(ns.st), ns.st, ns.service)
    {
      assert ops[i] in ops;
      Perform(ns, sc, ops[i]);
    }
  }

  lemma ShelteredDropsNothing(ops: seq<Op>, starts: seq<Start>, trace: seq<State>, service: string, f: nat -> Outcome)
    requires Chained(ops, starts, trace, service, DropRule(service, f)) && SwitchesStand(ops, starts, service)
    requires Sheltered(ops, service, service in starts[0].st.deployments)
    requires forall op :: op in ops ==> Templated(op, service)
    ensures NoneDrops(ops, starts, DropRule(service, f))
  {
    forall i | 0 <= i < |ops| ensures !DropRule(service, f)(ops[i], starts[i].st, starts[i].c) {
      assert ops[i] in ops;
      if (ops[i].ReleaseRolling? || ops[i].ReleaseCanary?) && !Tame(ops[i], service) {
        StableStands(ops, starts, trace, service, DropRule(service, f), i);
      }
      SafeDropsNothing(ops[i], service, starts[i].st, f, starts[i].c);
    }
  }

  lemma {:induction false} StableStands(ops: seq<Op>, starts: seq<Start>, trace: seq<State>, service: string,
                                        drops: (Op, State, nat) -> bool, i: nat)
    requires Chained(ops, starts, trace, service, drops) && i < |starts| && service in starts[0].st.deployments
    requires forall k :: 0 <= k < i ==> !ops[k].SwitchSlots?
    ensures service in starts[i].st.deployments
  {
    if i > 0 {
      StableStands(ops, starts, trace, service, drops, i - 1);
      assert Linked(ops[i - 1], starts[i - 1], starts[i - 1 + 1], trace, service, drops);
    }
  }

  /**
   * What an operator can check beforehand: a deploy that is tame or over a standing stable Deployment, and a switch
   * whose active slot stands, drop nothing, however the calls end.
   */
  lemma SafeDropsNothing(op: Op, service: string, st: State, f: nat -> Outcome, c: nat)
    requires Templated(op, service)
    requires op.ReleaseRolling? || op.ReleaseCanary? ==> Tame(op, service) || service in st.deployments
    requires op.SwitchSlots? ==> SlotName(service, ActiveSlot(op.primary)) in st.deployments
    ensures !Drops(op, service, st, f, c)
  {
    if Drops(op, service, st, f, c) { DropIsRisk(op, service, st, f, c); }
  }
}
