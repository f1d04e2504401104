/** The part of a namespace that carries one service's traffic, and the calls that change it. */
module Cluster {
  import opened Manifests
  import opened RouteTables
  import opened CanaryPromotion
  import opened HostCollection

  /** What a Deployment runs: the app label of its pods, and the revision of the software in them. */
  datatype Pods = Pods(app: string, revision: string)

  /**
   * Deployments map a name to its pods, Services a name to the app they select. `slot` is the active blue-green slot
   * the API records.
   */
  datatype State = State(
    deployments: map<string, Pods>,
    services: map<string, string>,
    autoscalers: set<string>,
    virtualServices: seq<Fields>,
    slot: string)

  /** How a remote call ends: it succeeds, fails without effect, or takes effect and loses its answer. */
  datatype Outcome = Done | Refused | Lost

  /** Calls `from` to `to - 1` all succeed. */
  predicate AllDone(faults: nat -> Outcome, from: nat, to: nat) {
    forall k :: from <= k < to ==> faults(k).Done?
  }

  /** No call fails. */
  ghost predicate AllWell(faults: nat -> Outcome) {
    forall k: nat :: faults(k).Done?
  }

  datatype Resource =
    | Deployment(name: string, app: string, revision: string)
    | Service(name: string, selector: string)
    | Other(name: string)

  function Applied(st: State, r: Resource): State {
    match r
    case Deployment(name, app, revision) => st.(deployments := st.deployments[name := Pods(app, revision)])
    case Service(name, selector) => st.(services := st.services[name := selector])
    case Other(_) => st
  }

  /** The canonical Service selects the pods of a Deployment that exists. */
  predicate Serving(st: State, service: string) {
    service in st.services && exists d :: d in st.deployments && st.deployments[d].app == st.services[service]
  }

  /** Serving, when labels are tied to names. */
  predicate Selects(st: State, service: string) {
    service in st.services && st.services[service] in st.deployments
  }

  /** A Deployment that stood still stands. */
  predicate Keeps(a: State, b: State, d: string) {
    d in a.deployments ==> d in b.deployments
  }

  /** Every Deployment has a name and is labelled with it. */
  predicate Tied(st: State) {
    forall d :: d in st.deployments ==> st.deployments[d].app == d && d != ""
  }

  /** Traffic that has pods to go to in state `a` goes to the same pods in state `b`. */
  predicate SamePods(a: State, b: State, service: string) {
    Selects(a, service) ==>
      Selects(b, service) && b.services[service] == a.services[service]
      && b.deployments[b.services[service]] == a.deployments[a.services[service]]
  }

  /** Some readiness gate that was passed names workload `w`. */
  predicate Passed(gates: seq<seq<string>>, w: string) {
    exists i :: 0 <= i < |gates| && w in gates[i]
  }

  /** Traffic that has a Deployment to go to is moved, if at all, to one that has passed a gate. */
  predicate Cleared(a: State, b: State, service: string, gates: seq<seq<string>>) {
    Selects(a, service) && service in b.services && b.services[service] != a.services[service] ==>
      Passed(gates, b.services[service])
  }

  /** Every state of the trace is to the one after it as `keeps` says. */
  ghost predicate Always(trace: seq<State>, keeps: (State, State) -> bool) {
    |trace| <= 1
    || (Always(trace[..|trace| - 1], keeps) && keeps(trace[|trace| - 2], trace[|trace| - 1]))
  }

  ghost function KeepsPods(service: string): (State, State) -> bool {
    (a: State, b: State) => SamePods(a, b, service)
  }

  ghost function KeepsServing(service: string): (State, State) -> bool {
    (a: State, b: State) => Serving(a, service) ==> Serving(b, service)
  }

  /** Write after write, traffic goes to the same pods. */
  ghost predicate Calm(trace: seq<State>, service: string) { Always(trace, KeepsPods(service)) }

  /** Once traffic has a Deployment to go to it keeps one, write after write. */
  ghost predicate Steady(trace: seq<State>, service: string) { Always(trace, KeepsServing(service)) }

  /** One service, the namespace around it, and a schedule that decides how each remote call ends. */
  class Namespace {
    const service: string
    const faults: nat -> Outcome
    var st: State
    var calls: nat
    ghost var trace: seq<State>
    ghost var steady: bool
    ghost var calm: bool
    /** The readiness gates that were passed, and whether every write so far was `Cleared` when it was made. */
    ghost var gates: seq<seq<string>>
    ghost var gated: bool
    ghost var origin: State
    ghost var since: nat

    constructor (service: string, st: State, faults: nat -> Outcome)
      ensures Valid() && this.service == service && this.st == st && this.faults == faults
      ensures calls == 0 && trace == [st] && steady && calm && gated && gates == []
    {
      this.service, this.st, this.faults := service, st, faults;
      calls, trace, steady, calm, origin, since, gates, gated := 0, [st], true, true, st, 0, [], true;
    }

    /**
     * The trace starts at `origin`, before call `since`, and holds the state after every write; `steady` and `calm`
     * say that it is. No call touches where the trace starts.
     */
    ghost predicate Valid()
      reads this
    {
      && trace != [] && trace[0] == origin && trace[|trace| - 1] == st && since <= calls
      && (steady <==> Steady(trace, service)) && (calm <==> Calm(trace, service))
    }

    /** Starts a new trace here. */
    ghost method Begin()
      modifies this`trace, this`steady, this`calm, this`origin, this`since
      ensures Valid() && trace == [st] && origin == st && since == calls && steady && calm
    {
      trace, steady, calm, origin, since := [st], true, true, st, calls;
    }

    /** Puts a trace that ended where this one starts back in front of it. */
    ghost method Rejoin(before: seq<State>, from: nat, was: bool, quiet: bool)
      requires Valid() && before != [] && before[|before| - 1] == origin && from <= calls
      requires (was <==> Steady(before, service)) && (quiet <==> Calm(before, service))
      modifies this`trace, this`steady, this`calm, this`origin, this`since
      ensures Valid() && trace == before + old(trace)[1..] && since == from
      ensures (steady <==> was && old(steady)) && (calm <==> quiet && old(calm))
    {
      AlwaysJoin(before, trace, KeepsServing(service));
      AlwaysJoin(before, trace, KeepsPods(service));
      steady, calm := was && steady, quiet && calm;
      origin, since := before[0], from;
      trace := before + trace[1..];
    }

    /** A call that changes nothing. */
    method Read() returns (ok: bool)
      modifies this`calls
      ensures calls == old(calls) + 1 && (ok <==> faults(old(calls)).Done?)
    {
      ok := faults(calls).Done?;
      calls := calls + 1;
    }

    /** A call that would leave the namespace in state `next`. */
    method Write(next: State) returns (ok: bool)
      requires Valid()
      modifies this`st, this`calls, this`trace, this`steady, this`calm, this`gated
      ensures Valid() && calls == old(calls) + 1 && (ok <==> faults(old(calls)).Done?)
      ensures st == (if faults(old(calls)).Refused? then old(st) else next)
      ensures trace == old(trace) + [st]
      ensures steady <==> old(steady) && (Serving(old(st), service) ==> Serving(st, service))
      ensures calm <==> old(calm) && SamePods(old(st), st, service)
      ensures gated <==> old(gated) && Cleared(old(st), st, service, gates)
    {
      var outcome := faults(calls);
      calls := calls + 1;
      ok := outcome.Done?;
      if !outcome.Refused? { st := next; }
      Note(old(st));
    }

    /** Puts what was written into the record; before the write the state was `a`. */
    ghost method Note(a: State)
      requires trace != [] && trace[0] == origin && trace[|trace| - 1] == a && since <= calls
      requires (steady <==> Steady(trace, service)) && (calm <==> Calm(trace, service))
      modifies this`trace, this`steady, this`calm, this`gated
      ensures Valid() && trace == old(trace) + [st]
      ensures steady <==> old(steady) && (Serving(a, service) ==> Serving(st, service))
      ensures calm <==> old(calm) && SamePods(a, st, service)
      ensures gated <==> old(gated) && Cleared(a, st, service, gates)
    {
      AlwaysMore(trace, st, KeepsServing(service));
      AlwaysMore(trace, st, KeepsPods(service));
      steady := steady && (Serving(a, service) ==> Serving(st, service));
      calm := calm && SamePods(a, st, service);
      gated := gated && Cleared(a, st, service, gates);
      trace := trace + [st];
    }

    /** A write that cannot take traffic's Deployment away. */
    method Push(next: State) returns (ok: bool)
      requires Valid() && Tied(st) && Tied(next) && (Selects(st, service) ==> Selects(next, service))
      modifies this`st, this`calls, this`trace, this`steady, this`calm, this`gated
      ensures Valid() && Tied(st) && calls == old(calls) + 1 && (ok <==> faults(old(calls)).Done?)
      ensures st == (if faults(old(calls)).Refused? then old(st) else next)
      ensures trace == old(trace) + [st] && steady == old(steady)
      ensures calm <==> old(calm) && SamePods(old(st), st, service)
      ensures gated <==> old(gated) && Cleared(old(st), st, service, gates)
    {
      ServingByName(st, service);
      ServingByName(next, service);
      ok := Write(next);
    }

    method Apply(r: Resource) returns (ok: bool)
      requires Valid() && Tied(st) && (r.Deployment? ==> r.app == r.name && r.name != "")
      requires r.Service? && r.name == service && Selects(st, service) ==> r.selector in st.deployments
      modifies this`st, this`calls, this`trace, this`steady, this`calm, this`gated
      ensures Valid() && Tied(st) && calls == old(calls) + 1 && (ok <==> faults(old(calls)).Done?)
      ensures st == (if faults(old(calls)).Refused? then old(st) else Applied(old(st), r))
      ensures trace == old(trace) + [st] && steady == old(steady)
      ensures calm <==> old(calm) && SamePods(old(st), st, service)
      ensures gated <==> old(gated) && Cleared(old(st), st, service, gates)
    {
      ok := Push(Applied(st, r));
    }

    method DeleteDeployment(w: string) returns (ok: bool)
      requires Valid() && Tied(st) && (service in st.services ==> st.services[service] != w)
      modifies this`st, this`calls, this`trace, this`steady, this`calm, this`gated
      ensures Valid() && Tied(st) && calls == old(calls) + 1 && (ok <==> faults(old(calls)).Done?)
      ensures st == (if faults(old(calls)).Refused? then old(st)
                     else old(st).(deployments := old(st).deployments - {w}))
      ensures trace == old(trace) + [st] && steady == old(steady) && calm == old(calm) && gated == old(gated)
    {
      ok := Push(st.(deployments := st.deployments - {w}));
    }

    method DeleteService(w: string) returns (ok: bool)
      requires Valid() && Tied(st) && w != service
      modifies this`st, this`calls, this`trace, this`steady, this`calm, this`gated
      ensures Valid() && Tied(st) && calls == old(calls) + 1 && (ok <==> faults(old(calls)).Done?)
      ensures st == (if faults(old(calls)).Refused? then old(st) else old(st).(services := old(st).services - {w}))
      ensures trace == old(trace) + [st] && steady == old(steady) && calm == old(calm) && gated == old(gated)
    {
      ok := Push(st.(services := st.services - {w}));
    }

    /** Sets or deletes the service's autoscaler. */
    method Autoscale(wanted: bool) returns (ok: bool)
      requires Valid() && Tied(st)
      modifies this`st, this`calls, this`trace, this`steady, this`calm, this`gated
      ensures Valid() && Tied(st) && calls == old(calls) + 1 && (ok <==> faults(old(calls)).Done?)
      ensures st == (if faults(old(calls)).Refused? then old(st)
                     else old(st).(autoscalers := if wanted then old(st).autoscalers + {service}
                                                  else old(st).autoscalers - {service}))
      ensures trace == old(trace) + [st] && steady == old(steady) && calm == old(calm) && gated == old(gated)
    {
      ok := Push(st.(autoscalers := if wanted then st.autoscalers + {service} else st.autoscalers - {service}));
    }
  }

  function SlotName(service: string, slot: string): string { service + "-" + slot }

  /** ResolveBlueGreenSlots on a recorded slot: anything but green counts as blue. */
  function Opposite(slot: string): string { if slot == "green" then "blue" else "green" }

  lemma SideNamesDiffer(service: string)
    ensures CanaryOf(service) != service && SlotName(service, "blue") != service && SlotName(service, "green") != service
    ensures CanaryOf(service) != SlotName(service, "blue") && CanaryOf(service) != SlotName(service, "green")
    ensures SlotName(service, "blue") != SlotName(service, "green")
  {
    assert |CanaryOf(service)| == |service| + 7;
    assert |SlotName(service, "blue")| == |service| + 5;
    assert |SlotName(service, "green")| == |service| + 6;
  }

  lemma ServingByName(st: State, service: string)
    requires Tied(st)
    ensures Serving(st, service) <==> Selects(st, service)
  {
  }

  lemma {:induction false} AlwaysMeans(trace: seq<State>, keeps: (State, State) -> bool)
    ensures Always(trace, keeps) <==> forall i :: 0 <= i < |trace| - 1 ==> keeps(trace[i], trace[i + 1])
  {
    if |trace| > 1 {
      var front := trace[..|trace| - 1];
      AlwaysMeans(front, keeps);
      assert forall i :: 0 <= i < |front| ==> front[i] == trace[i];
      if forall i :: 0 <= i < |trace| - 1 ==> keeps(trace[i], trace[i + 1]) {
        forall i | 0 <= i < |front| - 1 ensures keeps(front[i], front[i + 1]) {
          assert keeps(trace[i], trace[i + 1]);
        }
        assert keeps(trace[|trace| - 2], trace[|trace| - 2 + 1]);
      }
      if Always(trace, keeps) {
        forall i | 0 <= i < |trace| - 1 ensures keeps(trace[i], trace[i + 1]) {
          if i < |front| - 1 { assert keeps(front[i], front[i + 1]); }
        }
      }
    }
  }

  lemma AlwaysMore(trace: seq<State>, next: State, keeps: (State, State) -> bool)
    requires trace != []
    ensures Always(trace + [next], keeps) <==> Always(trace, keeps) && keeps(trace[|trace| - 1], next)
  {
    assert (trace + [next])[..|trace|] == trace;
  }

  /** Two traces that meet are so together exactly when both are. */
  lemma {:induction false} AlwaysJoin(a: seq<State>, b: seq<State>, keeps: (State, State) -> bool)
    requires a != [] && b != [] && a[|a| - 1] == b[0]
    ensures Always(a + b[1..], keeps) <==> Always(a, keeps) && Always(b, keeps)
  {
    if |b| == 1 {
      assert a + b[1..] == a;
    } else {
      var front, last := b[..|b| - 1], b[|b| - 1];
      AlwaysJoin(a, front, keeps);
      assert a + b[1..] == (a + front[1..]) + [last];
      AlwaysMore(a + front[1..], last, keeps);
      assert b == front + [last];
      AlwaysMore(front, last, keeps);
    }
  }

  /** On a calm trace traffic stays where it is at the start, to the end. */
  lemma {:induction false} CalmThroughout(trace: seq<State>, service: string, i: nat, j: nat)
    requires Calm(trace, service) && i <= j < |trace|
    ensures SamePods(trace[i], trace[j], service)
  {
    if i < j {
      CalmThroughout(trace, service, i, j - 1);
      AlwaysMeans(trace, KeepsPods(service));
      assert KeepsPods(service)(trace[j - 1], trace[j - 1 + 1]);
    }
  }
}
