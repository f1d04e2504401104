# Releasea worker: a verified model

The worker takes operations off a queue, holds a lease on each while it runs, and changes a cluster and a control
plane step by step: it stages and cuts over releases, moves canary traffic, compiles rules into routes and policies,
ships deploy logs and queues automatic deploys. Every remote call it makes may fail. This project models those parts
and proves what they keep when calls fail in any pattern.

`dafny verify dfyconfig.toml` checks the whole project (Dafny 4.11).

## How the model is laid out

- **Text, KubeNames** - Go's string helpers, and the normalisation of Kubernetes names.
- **Manifests, RouteTables, Retarget** - decoded resource trees, host spellings, and the retargeting of manifests.
- **WeightMerge, CanaryShift, CanaryPromotion, HostCollection** - the canary shift on VirtualService trees of any
  shape, the independent scan for leftovers, and the collection of hosts for cleanup.
- **Cluster, Release, Cleanup, BlueGreen, Rollout, Operations, Runs** - a class `Namespace` holds Deployments (name to
  pod label and revision), Services (name to selector), VirtualServices, autoscalers and the API's active slot, plus a
  schedule `faults` that says how the n-th remote call ends. `trace` holds the state after every write. `steady` is the
  fact that a canonical Service on an existing Deployment is still on one after the next write, `calm` that it is on
  the same one and that this runs the same, and `gated` that it is moved, if at all, only to one named by a readiness
  gate that was passed (`gates`). The release operations are methods that drive it; `Operations` says when one can drop
  traffic, and `Runs` puts any number of them in a row, each starting where the one before it ended.
- **Lease, LeaseTiming, Consumer** - the executor and the heartbeat goroutine as interleaved steps over their three
  channels and context, the spacing of renewals, and the consumer loop that settles deliveries.
- **RulePaths, RuleRoutes, RulePolicies, GatewayPolicy, RulePublish, PublishedTree, RuleShares, RuleGuard,
  RuleDeploy** - the rule compiler with a request semantics (first matching route wins, match entries are an OR of
  ANDs, `uri.prefix` is a string prefix, a policy path `x/*` is a prefix test on `x/`), the gateway's deny entries, the
  published tree with a semantics of its own that is read from its fields, the shares of its destinations, the
  availability guard, and the cleanup that follows.
- **RuleReconcile, RuleNames** - the ten resources a rule owns as a list of writes in source order, and the names they
  get.
- **DeployLogs, AutoDeploy** - the batching log shippers and the auto-deploy monitor.
- **Vocabulary** - the words that rules, statuses and environments are compared with, one by one, and the keys of the
  monitor.
- **Witnesses** - inputs at which the code does not have a property below, each carried to the failure.

A call ends in one of three ways: it succeeds, it is refused without effect, or it takes effect and its answer is
lost. Reads that fail are refused. Where the source loops or edits in place the model has methods and classes; they
are specified by functions of their inputs or of the old state, and lemmas say what those functions mean.

## What holds only under a condition

The code does not do the obvious thing everywhere. Each condition is stated exactly, and an input that fails it is
carried to the failure, in `Witnesses` or by the lemma named beside it.

- A rolling deploy ignores a failed read of the canonical Service and then applies the template's selector. Traffic is
  dropped exactly under `Release.RollingDrops`; `Witnesses.RollingLosesTraffic` is an example.
- A canary deploy takes a failed read of the selector for a first deploy, and applies the Service before the
  Deployment it selects. Traffic is dropped exactly under `Rollout.CanaryDeployDrops`; see
  `Witnesses.CanaryLosesTraffic`.
- A blue-green deploy leaves traffic where it is if that is the active slot, or the service's own Deployment while the
  active slot is new (`Release.Placed`). From anywhere else it moves traffic to the active slot before any gate, as it
  does when it is repeated before the first switch (`Witnesses.RestagingMoves`). A new active slot runs the new revision
  if the running one could not be read (`Rollout.SlotsReady`).
- `promoteBlueGreen` discards the errors of its compensating writes, and a lost answer counts as a failure. Selector
  and recorded slot part exactly under `BlueGreen.Splits` (`Witnesses.SwitchSplits`), and traffic is put back on a
  slot without a Deployment exactly under `BlueGreen.Strands` (`Witnesses.SwitchLosesTraffic`).
- Whether any schedule makes an operation drop traffic can be read off the template and the state
  (`Operations.RiskIff`), and an operation does so from no state at all exactly when it is `Operations.Tame`
  (`Operations.TameIff`): a rolling template that lists its stable Deployment before its canonical Service is. A run
  keeps traffic if each rolling and canary deploy is tame, or comes before every switch over a stable Deployment that
  stood at the start, and if each switch starts with its active slot (`Runs.RunSheltered`).
- `shiftWeightedRoute` writes weights into a list that it reports as unchanged. The list comes out as it went in
  exactly when weights are explicit and repeats of a host weigh nothing (`CanaryShift.UnchangedListIff`); otherwise an
  implicit weight becomes 0, and a second promotion drifts (`CanaryPromotion.PromotionTwice`, `Witnesses.TreeDrifts`).
- The scan for leftovers prints a host that is no string before it compares, and the collection of hosts skips it
  (`HostCollection.ReferenceIsCollected`). For the canary, the one workload it is asked for, this makes no difference
  (`HostCollection.CanaryReferenceIsCollected`).
- Promoting a published rule gives the one published at percent zero, except where requests are let through to a
  static-site host that spells the canary (`RulePublish.PromotionIsPercentZero`, `Witnesses.StaticSiteIsMoved`).
- `splitWorkloadResources` drops a resource exactly when one of its kind has the service's name and another stands
  beside it (`Release.DroppedIff`, `Witnesses.WorkerIsDropped`).
- A rule whose methods are all blank takes every path (`RulePolicies.BaseIsMeantIff`,
  `Witnesses.BlankMethodForwardsAll`).
- Policy paths are trimmed once more than route prefixes, so a policy can reach a path that no route takes
  (`RulePaths.PolicyWithinRoutesIff`, `RulePaths.SpaceEscapes`), and one with a trailing slash misses the paths below
  it (`RulePaths.PolicyReachesBelowIff`).
- Routes and denials hand over to one another without a gap, except that a deny policy and the gateway's policy of one
  name in one namespace do not (`RuleReconcile.PartlyHandsOver`).
- An allow rule without gateways keeps an earlier deny policy (`RuleReconcile.DeployForgets`,
  `Witnesses.DenyPolicyStays`).
- A rule's resources can get one name. Two names of a service meet exactly when its part has 62 characters or more, or
  when what follows agrees in the room that is left (`RuleNames.CutMeetsIff`); a deploy then leaves its resources
  settled exactly when the ones that meet are asked to be the same (`RuleReconcile.SettlesIff`,
  `RuleNames.NamedSettlesIff`). Short names can meet too (`Witnesses.PoliciesCollide`), and so can the names of two
  rules of two services (`RuleNames.RulesShareNames`), which then undo each other (`RuleNames.RulesDisturb`,
  `RuleReconcile.IsolatedIff`).
- The canary override decides alone, whatever the availability guard found (`RuleGuard.ResolveSpread`,
  `Witnesses.OverrideBeatsGuard`).
- Renewals may take half the lease time, and no longer (`LeaseTiming.LoadedLeaseHolds`, `LeaseTiming.SlowRenewalsLapse`).
- The monitor remembers a queued deploy from the time its cycle read, so the same deploy can be queued again earlier
  than the time to live by the length of a cycle (`AutoDeploy.Monitor.RunCycles`, `Witnesses.QueuesThatClose`).

## What is assumed

- The worker is the only writer between a list and a write that follows from it.
- Templates label a Deployment with its own name and hold at most one Service with the service's name, which selects
  the service's app (`Release.TemplateOK`); names and selectors carry no white space at their ends.
- A readiness gate ends well only if every Deployment it names exists. The schedule decides everything else about it.
- The API treats a repeated in-progress update of the owner as a heartbeat, answers 409 as a conflict, and drops
  repeated log batch ids.
- No number, boolean, list or object of a VirtualService prints as a spelling of the canary
  (`HostCollection.PrintsNoCanary`).
- Unicode case mapping is modelled for the runes whose lower case is ASCII.

## Model

| member | source | states |
|---|---|---|
| `KubeNames.ToKubeName` | internal/platform/shared/kube_name_format.go:26-41 | the loop ends, and the result is the maximal lower-case alphanumeric runs of the lowered input, joined by single dashes |
| `KubeNames.NormalizeNamespace` | internal/platform/shared/kube_name_format.go:12-24 | a label of 1 to 63 characters with alphanumeric ends, for every input; which one is said for short, empty and long names |
| `KubeNames.HalvingKeepsWords` | internal/platform/shared/kube_name_format.go:37-39 | one round of replacing double dashes loses and joins no word |
| `KubeNames.KubeNameIdempotent` | internal/platform/shared/kube_name_format.go:26-41 | normalising a normalised name changes nothing |
| `KubeNames.KubeNameIgnoresCase` | internal/platform/shared/kube_name_format.go:26-41 | upper and lower case give one name |
| `Manifests.StableIsNotCanary` | internal/features/deploys/worker/deploys_service_deploy.go:664-683 | for any service and namespace, the stable host matches no spelling of the canary |
| `Manifests.SpellingsAre` | internal/features/deploys/worker/deploys_service_deploy.go:664-683 | a host spells a workload exactly if it is its name alone, or with the namespace, `.svc` or `.svc.cluster.local` behind it |
| `RouteTables.SomeRouteIff` | internal/features/deploys/worker/deploys_strategy_canary_promote.go:120-145 | the scan goes through the http, the tcp and the tls table, and no other |
| `Retarget.Manifest.RetargetDeployment` | internal/features/deploys/worker/deploys_strategy_retarget_resources.go:37-76 | name, own selector and pod labels carry the new name and app; the containers run the same images; a Deployment that found its pods still does; replicas are at least one; every other field, at every level, stays |
| `Retarget.RetargetTemplate` | internal/features/deploys/worker/deploys_strategy_retarget_resources.go:57-73 | the pod template keeps everything but its app label and the name of its first container |
| `Retarget.Manifest.RetargetService` | internal/features/deploys/worker/deploys_strategy_retarget_resources.go:78-91 | name and selector carry the new name and app; every other field, at every level, stays |
| `Retarget.RetargetedFindsIff` | internal/features/deploys/worker/deploys_strategy_retarget_resources.go:37-91 | a retargeted Service finds a retargeted Deployment's pods exactly when both got one app and the rest of the selector matched |
| `Retarget.RetargetPair` | internal/features/deploys/worker/deploys_strategy_retarget_resources.go:37-91 | a Service and a Deployment retargeted to one name are what the release model asks of a template, and the Service finds the pods exactly when it did before, its app label aside |
| `WeightMerge.MergeByHost` | internal/features/deploys/worker/deploys_strategy_canary_promote.go:263-312 | the scan with its index map computes the merged list and leaves the scanned list as its specification says, for any reading of entries |
| `WeightMerge.WeightIsWholePart` | internal/features/deploys/worker/deploys_strategy_canary_promote.go:314-332 | a weight is the whole part of a number, toward zero, and what is no number weighs nothing |
| `WeightMerge.MergedTotal` | internal/features/deploys/worker/deploys_strategy_canary_promote.go:291-306 | merging conserves the total weight, but for the forced 100 of a lone survivor |
| `WeightMerge.MergedOncePerHost` | internal/features/deploys/worker/deploys_strategy_canary_promote.go:271-310 | each host is there once, in first-occurrence order, with the weight of all its entries |
| `WeightMerge.SecondPassMerged` | internal/features/deploys/worker/deploys_strategy_canary_promote.go:263-312 | a merged list is a fixed point of the scan |
| `WeightMerge.SecondPassUnmoved` | internal/features/deploys/worker/deploys_strategy_canary_promote.go:291-303 | a second scan of an unmoved list changes it unless the repeats of every host weigh nothing |
| `CanaryShift.ShiftWeightedRoute` | internal/features/deploys/worker/deploys_strategy_canary_promote.go:263-312 | reports a change exactly when an entry names the canary, and then returns the merged list; every entry, scanned or returned, carries over all fields of the one it comes from but its weight, and if that named the canary its destination has the stable host, no subset, and all else as it was |
| `CanaryShift.ShiftedList` | internal/features/deploys/worker/deploys_strategy_canary_promote.go:263-312 | the shifted list names no canary, and has each host once with the weight of all its spellings |
| `CanaryShift.ShiftKeepsHundred` | internal/features/deploys/worker/deploys_strategy_canary_promote.go:304-306 | a list that sums to 100 still does |
| `CanaryShift.UnchangedListIff` | internal/features/deploys/worker/deploys_strategy_canary_promote.go:291-303 | a list without the canary comes out as it went in exactly when weights are explicit and repeats weigh nothing |
| `CanaryShift.ImplicitWeightBecomesZero` | internal/features/deploys/worker/deploys_strategy_canary_promote.go:291-303 | a lone destination with an implicit weight is rewritten to weight zero |
| `CanaryPromotion.VirtualService.PromoteCanary` | internal/features/deploys/worker/deploys_strategy_canary_promote.go:220-250 | on a tree of any shape, every route is rewritten, and a change is reported exactly when the independent scan finds the canary before |
| `CanaryPromotion.ClearCanaryMirror` | internal/features/deploys/worker/deploys_strategy_canary_promote.go:252-261 | a canary mirror and its percentage are dropped, and nothing else |
| `CanaryPromotion.PromotionCarriesOver` | internal/features/deploys/worker/deploys_strategy_canary_promote.go:220-312 | what a promotion leaves alone in any tree: everything outside the three tables, routes but for a canary mirror and their list, entries but for weight, canary host and subset |
| `CanaryPromotion.PromotionClears` | internal/features/deploys/worker/deploys_strategy_canary_promote.go:120-145 | after a promotion the independent scan finds no canary, in any tree |
| `CanaryPromotion.PromotionTwice` | internal/features/deploys/worker/deploys_strategy_canary_promote.go:220-312 | a second promotion leaves the tree alone exactly when no list without the canary repeats a host with weight |
| `HostCollection.CollectDestinationHosts` | internal/features/deploys/worker/deploys_service_deploy.go:613-633 | collects exactly the normalised strings under host keys, at any depth |
| `HostCollection.IsHostKeyIff` | internal/features/deploys/worker/deploys_service_deploy.go:613-633 | which keys are host keys, letter by letter |
| `HostCollection.ListDestinationHosts` | internal/features/deploys/worker/deploys_service_deploy.go:571-611 | the union over all trees of the namespace |
| `HostCollection.IsReferenced` | internal/features/deploys/worker/deploys_service_deploy.go:635-642 | true exactly when some collected host spells the workload |
| `HostCollection.ReferenceIsCollected` | internal/features/deploys/worker/deploys_strategy_canary_promote.go:120-145 | what the structural scan refers to is in the recursively collected set, for any tree, unless a route's host is no string and spells the workload when printed |
| `HostCollection.CanaryReferenceIsCollected` | internal/features/deploys/worker/deploys_strategy_canary_promote.go:106-145 | for the canary, the one workload the scan is asked for, it always is |
| `Release.StageCanonical` | internal/features/deploys/worker/deploys_strategy_apply_workloads.go:58-86 | the canonical Service stays on the workload it is on, if that can be read; traffic is dropped exactly when the read fails while the stable Deployment is missing |
| `Release.StageTemplate` | internal/features/deploys/worker/deploys_strategy_apply_workloads.go:49-90 | after the loop the whole template is applied, with the canonical Service kept where it was |
| `Release.StageRolling` | internal/features/deploys/worker/deploys_strategy_apply_workloads.go:38-92 | a rolling staging keeps traffic write after write, unless `RollingDrops`, whatever else fails; if the Service can be read, traffic that goes elsewhere stays on the same pods; the state on success is given |
| `Release.SplitWorkloadResources` | internal/features/deploys/worker/deploys_strategy_apply_workloads.go:292-337 | the chosen Deployment and Service and the remaining list, and an error exactly when either is missing |
| `Release.SplitConserves` | internal/features/deploys/worker/deploys_strategy_apply_workloads.go:292-337 | every resource is chosen, passed on, or an unused fallback |
| `Release.DroppedIff` | internal/features/deploys/worker/deploys_strategy_apply_workloads.go:311-331 | when a resource of a kind is dropped, in terms of the input list alone |
| `Release.ChosenIsFirst` | internal/features/deploys/worker/deploys_strategy_apply_workloads.go:292-337 | a strategy deploy is built from the first resource of a kind with the service's name, and from the first of the kind if none has it |
| `Release.StageCanary` | internal/features/deploys/worker/deploys_strategy_apply_workloads.go:94-173 | a canary staging keeps traffic, and keeps it on the same pods, unless `CanaryDrops`; the state on success is given: a stable version left alone if there is one, the canary beside it, no autoscaler |
| `Release.StageFirstCanary` | internal/features/deploys/worker/deploys_strategy_apply_workloads.go:120-144 | the stable side of a first canary deploy, and the one schedule that drops traffic there |
| `Release.StageBlueGreen` | internal/features/deploys/worker/deploys_strategy_apply_workloads.go:195-290 | no schedule drops traffic; traffic on the active slot, or on the service's own Deployment while that slot is new, stays on the same pods in every state; the state on success is given |
| `Cleanup.CleanupUnused` | internal/features/deploys/worker/deploys_service_deploy.go:501-556 | in every state on the way the stable workload and all workloads of the service's own strategy stand as they did, what a route spells is spared, and only foreign workloads that no route and no canonical selector needs are gone; nothing is deleted unless routes and selector were read; success removes all of them, and when no call fails it succeeds |
| `Cleanup.DeleteUnused` | internal/features/deploys/worker/deploys_service_deploy.go:529-551 | the loop over the candidates, with the same promise after any prefix of its deletes |
| `BlueGreen.Await` | internal/features/deploys/worker/deploys_deploy_readiness_check.go:110-176 | the gate ends well only if every named Deployment exists |
| `BlueGreen.AwaitRetired` | internal/features/deploys/worker/deploys_deploy_readiness_check.go:304-359 | the wait ends well only if no named Deployment exists |
| `BlueGreen.Switch` | internal/features/deploys/worker/deploys_strategy_blue_green_promote.go:204-231 | the selector moves exactly when the read succeeds and the write is not refused; drops traffic only onto a missing Deployment |
| `BlueGreen.CutOver` | internal/features/deploys/worker/deploys_strategy_blue_green_promote.go:117-141 | up to the cutover, traffic is kept and the state is untouched or has the candidate selected |
| `BlueGreen.Settle` | internal/features/deploys/worker/deploys_strategy_blue_green_promote.go:143-169 | where selector and slot end up after the slot update, the observation and both compensations, for every schedule |
| `BlueGreen.CleanupSlot` | internal/features/deploys/worker/deploys_strategy_blue_green_promote.go:233-252 | traffic and the selected slot are kept, and success removes exactly the slot's Deployment and Service |
| `BlueGreen.CleanupLegacy` | internal/features/deploys/worker/deploys_strategy_blue_green_promote.go:254-273 | traffic and the selected slot are kept, and success removes exactly the service's own Deployment and autoscaler |
| `BlueGreen.Retire` | internal/features/deploys/worker/deploys_strategy_blue_green_promote.go:185-195 | both, and the wait: the selected slot survives every failure, and on success nothing else is gone |
| `BlueGreen.ShiftTraffic` | internal/features/deploys/worker/deploys_strategy_blue_green_promote.go:104-169 | selector and slot agree afterwards exactly when not `Splits`; with compensations that succeed, anything but success leaves the state untouched |
| `BlueGreen.PromoteBlueGreen` | internal/features/deploys/worker/deploys_strategy_blue_green_promote.go:83-202 | the same for the whole switch, with the verdict for every schedule; nothing is deleted unless selector and slot are both on the candidate, success and cancellation leave exactly the stated states, each after three gates on the candidate; traffic is dropped exactly under `Strands`, and goes to no workload that has passed no gate unless it is moved back |
| `BlueGreen.ActiveSlotIff` | internal/platform/shared/deploy_strategy_normalize.go:27-32 | green is meant by its word alone, in any case and with white space around it, and anything else means blue |
| `Rollout.PromoteRolling` | internal/features/deploys/worker/deploys_strategy_rolling_promote.go:15-56 | after the gate the cutover keeps traffic, and success leaves the service on its own Deployment |
| `Rollout.DeployRolling` | internal/features/deploys/worker/deploys_service_deploy.go:346-381 | a whole rolling deploy keeps traffic unless its staging drops it; success takes two gates on the service's own Deployment, leaves traffic on it, running what the template asks for, and no canary or slot; if the Service can be read, traffic never goes to a Deployment that has passed no gate; when no call fails it succeeds exactly if it can finish (`Rollout.RollsOut`) |
| `Rollout.CanaryTargets` | internal/features/deploys/worker/deploys_service_deploy.go:397-463 | the gate waits for the canary and for the stable Deployment or the one traffic is on |
| `Rollout.NewRevisionIsFirst` | internal/features/deploys/worker/deploys_strategy_apply_workloads.go:292-337 | the revision that is rolled out is that of the first Deployment with the service's name, or of the first of all |
| `Rollout.DeployCanary` | internal/features/deploys/worker/deploys_service_deploy.go:298-333 | a whole canary deploy: success leaves the new revision in the canary, the stable version running what it ran, and traffic where it was; no schedule but a dropping one moves traffic; when no call fails it succeeds exactly if the template can be split and the gate can be passed (`Rollout.CanaryReady`) |
| `Rollout.DeployBlueGreen` | internal/features/deploys/worker/deploys_service_deploy.go:316-333 | a whole blue-green deploy keeps traffic for every schedule, and on the same pods in every state if it is on the active slot, or on the service's own Deployment while that slot is new; success leaves the new revision in the other slot, without traffic; when no call fails it succeeds exactly if the template can be split |
| `Rollout.ShiftOne` | internal/features/deploys/worker/deploys_strategy_canary_promote.go:175-186 | one tree is written back only if it changed, and only in its shifted form |
| `Rollout.ShiftPublished` | internal/features/deploys/worker/deploys_strategy_canary_promote.go:170-188 | each published tree is as it was or shifted, all are shifted on success |
| `Rollout.TrafficRemains` | internal/features/deploys/worker/deploys_strategy_canary_promote.go:106-118 | true exactly when some published tree refers to the canary |
| `Rollout.PromoteCanary` | internal/features/deploys/worker/deploys_strategy_canary_promote.go:19-104 | no schedule drops traffic or removes the canary while a route refers to it; success leaves the service on its own Deployment, which has passed a gate and runs what the canary ran, and no reference; the trees carry over all else; when no call fails it succeeds exactly if there is a canary and the shifted trees name it nowhere |
| `Rollout.ShiftedClears` | internal/features/deploys/worker/deploys_strategy_canary_promote.go:88-92 | once all trees are shifted, the last check before the canary is removed cannot fail |
| `Runs.Run` | internal/features/deploys/worker/deploys_strategy_apply_workloads.go:38-290 | any run of any operations with any failing calls is a chain of stretches of the trace, each starting where the one before it ended; a stretch keeps traffic write after write exactly when its operation does not meet its own drop condition where it starts, and the run does exactly when all of them do |
| `Runs.RunSheltered` | internal/features/deploys/worker/deploys_strategy_apply_workloads.go:38-290 | a run keeps traffic for every schedule if each rolling and canary deploy is tame or comes before every switch over a stable Deployment that stood at the start, and each switch starts with its active slot |
| `Runs.RunQuiet` | internal/features/deploys/worker/deploys_strategy_apply_workloads.go:94-290 | while traffic is on the stable Deployment, any run of canary deploys and cleanups leaves it on the same pods in every state, however calls end; while it is on the active slot, any run of blue-green deploys and cleanups does |
| `Runs.Perform` | internal/features/deploys/worker/deploys_strategy_apply_workloads.go:38-290 | one operation of a run: its stretch of the trace, and that only a switch can take the stable Deployment away |
| `Runs.SafeDropsNothing` | internal/features/deploys/worker/deploys_strategy_apply_workloads.go:115-144 | a tame operation, one over a standing stable Deployment, and a switch with a standing active slot meet no drop condition |
| `Operations.RiskIff` | internal/features/deploys/worker/deploys_strategy_apply_workloads.go:38-173 | some schedule makes an operation drop traffic exactly when its template leaves the canonical Service, at its turn, on a workload that exists while the stable Deployment does not, and for a switch when the candidate stands and the active slot does not |
| `Operations.TameIff` | internal/features/deploys/worker/deploys_strategy_apply_workloads.go:38-173 | an operation drops traffic from no state and under no schedule exactly when it is no switch and its template puts the stable Deployment before the canonical Service, if it has one |
| `Lease.SafeStep` | internal/features/workers/worker/workers_operation_process.go:171-221 | every step of executor, heartbeat or caller keeps the protocol's invariant |
| `Lease.TerminalStatus` | internal/features/workers/worker/workers_operation_process.go:148-169 | in every interleaving at most one terminal status is sent, it is what the execution ended with, and only if no renewal failed; success is sent only if the last attempt went well, failure only if it failed for good, could not be tried again or was cut short in the wait; all attempts before it failed for the moment, and there are no more than configured |
| `Lease.NoDeadlock` | internal/features/workers/worker/workers_operation_process.go:182-220 | until processOperation returns some side can step, and no channel is closed twice |
| `Lease.HeartbeatLasts` | internal/features/workers/worker/workers_operation_process.go:192-211 | in every run the heartbeat goes on until the execution has ended or its context is done, and after a failed renewal the context is done before the heartbeat is gone |
| `Lease.HeartbeatCanEnd` | internal/features/workers/worker/workers_operation_process.go:192-214 | once stopHeartbeat is closed or the context is done, the heartbeat can end by itself, without another tick |
| `Lease.Shutdown` | internal/features/workers/worker/workers_operation_process.go:213-220 | after stopHeartbeat is closed, at most eight steps and three more per tick remain |
| `LeaseTiming.IntervalIsThird` | internal/platform/config/config_load.go:94-99 | for every loaded lease time the interval is a third of it, rounded down |
| `LeaseTiming.IntervalThirdIff` | internal/features/workers/worker/workers_operation_process.go:100-106 | a bare interval is at most a third exactly from thirty seconds on |
| `LeaseTiming.NeverLapses` | internal/features/workers/worker/workers_operation_process.go:192-210 | if max(interval, d) + d is at most the lease time, the lease is held without a gap over runs of any length |
| `LeaseTiming.LoadedLeaseHolds` | internal/features/workers/worker/workers_operation_process.go:192-210 | so renewals that take up to half the lease time keep a loaded lease |
| `LeaseTiming.HeldAtTheEnd` | internal/features/workers/worker/workers_operation_process.go:148-221 | when all renewals succeeded, which is when a terminal status is sent, the lease is still held at that moment if max(interval, d) and the delay of the status fit in it |
| `LeaseTiming.SlowRenewalsLapse` | internal/features/workers/worker/workers_operation_process.go:192-210 | and slower ones can leave a gap, though all succeed |
| `Consumer.Worker.ProcessOperation` | internal/features/workers/worker/workers_operation_process.go:129-169 | a claim is made exactly for workable operations, a terminal write exactly when the claim holds and the lease protocol sends one, and it says success exactly when the last attempt went well; no error is returned exactly when the delivery may be acknowledged |
| `Consumer.Worker.ProcessJob` | internal/features/workers/worker/workers_queue_consume.go:93-103 | the same with undecodable bodies and failed fetches |
| `Consumer.Worker.Handle` | internal/features/workers/worker/workers_queue_consume.go:66-88 | one delivery gets one settlement, as the last event: requeue exactly when claims are blocked or the operation is another worker's, ack exactly when it may be, dead letter otherwise |
| `Consumer.Worker.Consume` | internal/features/workers/worker/workers_queue_consume.go:62-91 | over any run every delivery taken up is settled exactly once, and no other has events; only a context that is done in the wait after a blocked delivery ends the loop |
| `RulePaths.UniqueStrings` | internal/platform/shared/collection_unique.go:5-20 | the trimmed non-blank values, each once |
| `RulePaths.ExpandDenyPolicyPaths` | internal/features/rules/worker/rules_rule_build_manifest.go:285-305 | exactly the trimmed patterns of the paths, each once |
| `RulePaths.NormalOfStem` | internal/features/rules/worker/rules_rule_build_manifest.go:390-404 | a path may come with a star or a slash and a star behind it, and without its leading slash |
| `RulePaths.PolicyWithinRoutesIff` | internal/features/rules/worker/rules_rule_build_manifest.go:285-305 | policy paths stay within route prefixes exactly when every path is covered |
| `RulePaths.SpaceEscapes` | internal/features/rules/worker/rules_rule_build_manifest.go:299-304 | a path for which they do not |
| `RulePaths.PolicyIsSegments` | internal/features/rules/worker/rules_rule_build_manifest.go:285-305 | for solid paths a policy matches exactly at or below a path at a segment boundary |
| `RulePaths.SegmentsAgree` | internal/features/rules/worker/rules_rule_build_manifest.go:360-404 | there routes and policy agree |
| `RulePaths.PolicyReachesBelowIff` | internal/features/rules/worker/rules_rule_build_manifest.go:295-302 | a policy reaches all below a path exactly when the path has no trailing slash |
| `RuleRoutes.BuildRuleHTTPMatches` | internal/features/rules/worker/rules_rule_build_manifest.go:360-388 | the entries are exactly the pairs of a normal path and a named method |
| `RuleRoutes.BaseIsCompiled` | internal/features/rules/worker/rules_rule_build_manifest.go:360-388 | the entries take the requests of the base, and there are none exactly when the rule is unconstrained |
| `RuleRoutes.NormalizeHeaderNames` | internal/features/rules/worker/rules_edge_manifest.go:527-537 | the lowered, trimmed, non-blank names |
| `RuleRoutes.WithMatchHeaders` | internal/features/rules/worker/rules_edge_manifest.go:237-248 | every entry with its header tests replaced, in order |
| `RuleRoutes.EdgePositiveMatches` | internal/features/rules/worker/rules_edge_manifest.go:205-235 | gated exactly when keys or headers are asked for, and then taking exactly the base requests that pass the gate |
| `RuleRoutes.BuildRuleHTTPRoutes` | internal/features/rules/worker/rules_rule_build_manifest.go:322-358 | under first-match semantics: forwarded exactly when base and gate are met, 401 when only the base is, 403 by deny rules, unmatched otherwise |
| `Vocabulary.DenyWord` | internal/features/rules/worker/rules_rule_build_manifest.go:123-129 | a rule answers 403 exactly when its action says "deny", in any case and with white space around it, and the request is its own |
| `Vocabulary.ApiKeyWord` | internal/features/rules/worker/rules_edge_manifest.go:194-203 | in API-key mode without a header of its own, what is let through carries one of the keys in "x-api-key" |
| `Vocabulary.ApiKeyOpens` | internal/features/rules/worker/rules_edge_manifest.go:194-235 | and a request with one of the keys and the required headers is let through |
| `Vocabulary.NoKeyWord` | internal/features/rules/worker/rules_edge_manifest.go:194-235 | in any other mode the required headers are all it takes |
| `Vocabulary.MethodWords` | internal/features/rules/worker/rules_rule_build_manifest.go:360-388 | a rule that names methods takes a request of its paths exactly if one of them, in upper case, is the request's |
| `RulePolicies.BaseIsMeantIff` | internal/features/rules/worker/rules_rule_build_manifest.go:360-388 | the compiled base is the stated one unless all-blank methods stand over paths without the root |
| `RulePolicies.NormalizePolicyMethods` | internal/features/rules/worker/rules_rule_build_manifest.go:307-320 | exactly the upper-case trimmed non-blank methods |
| `RulePolicies.EdgeOperation` | internal/features/rules/worker/rules_edge_manifest.go:486-498 | the operation applies exactly to the requests the rule's policies speak of: its methods, its paths and the given hosts |
| `RulePolicies.PolicedWithinBaseIff` | internal/features/rules/worker/rules_edge_manifest.go:486-498 | for any hosts, policies speak only of requests the routes take, exactly when unconstrained or every path is covered |
| `RulePolicies.SolidPolicedIsRouted` | internal/features/rules/worker/rules_edge_manifest.go:486-498 | for solid paths they always do |
| `GatewayPolicy.GatewayDenyRules` | internal/features/rules/worker/rules_edge_manifest.go:157-192 | the gateway's policy denies exactly those of the rule's requests, at the given hosts, that the rule forbids: all of a deny rule's, and of others what comes from off an allow list or from a block list, lacks a token or a required scope, or has none of the keys |
| `GatewayPolicy.NormalizeScopes` | internal/features/rules/worker/rules_edge_manifest.go:539-549 | the trimmed non-blank scopes |
| `GatewayPolicy.KeyRuleAgrees` | internal/features/rules/worker/rules_edge_manifest.go:183-235 | gateway and routes agree on keys: what the gateway denies for its key the routes answer 401, and they forward the rest if it carries the required headers |
| `RulePublish.DestinationsShiftIff` | internal/features/rules/worker/rules_rule_build_manifest.go:74-106 | shifting the destinations gives those of percent zero, exactly unless a static-site host spells the canary |
| `RulePublish.PromotionIsPercentZero` | internal/features/rules/worker/rules_rule_build_manifest.go:10-72 | promoting a published VirtualService gives the one published at percent zero, for every rule, service and percent, exactly unless requests are let through to a static-site host that spells the canary |
| `PublishedTree.MatchShown` | internal/features/rules/worker/rules_rule_build_manifest.go:360-388 | a rendered match entry, read back from its fields, takes exactly the requests the entry means |
| `PublishedTree.RoutesShown` | internal/features/rules/worker/rules_rule_build_manifest.go:322-358 | a rendered http table, read back from its fields, treats every request as the compiled routes answer it |
| `PublishedTree.PublishRule` | internal/features/rules/worker/rules_rule_build_manifest.go:10-72 | from the rule to the tree that is applied: for every request the tree sends it to the destinations, answers 401 or 403, or does not take it, exactly as the rule asks; a TCP rule sends its port's connections there; hosts, gateways and what each route adds are shown |
| `RuleShares.SharesAre` | internal/features/rules/worker/rules_rule_build_manifest.go:74-123 | how the published destinations share a hundred out: the canary gets its percent and at most half, the stable workload the rest, a slot all of it, each on the service's port |
| `RuleShares.StaticShares` | internal/features/rules/worker/rules_rule_build_manifest.go:10-72 | a static site that is set up is served by its host alone, on port 80 |
| `Vocabulary.StaticSiteWord` | internal/features/rules/worker/rules_rule_build_manifest.go:10-72 | which services are static sites, in any case of the word |
| `RuleGuard.NormalizeForAvailability` | internal/features/rules/worker/rules_strategy_guard_availability.go:22-95 | the canary keeps its share exactly when it had one and is not seen down; a blue-green slot is left exactly when it is down and the other slot or the canonical Service can serve; nothing else changes |
| `RuleGuard.ResolveSpread` | internal/features/rules/worker/rules_rule_handle.go:132-133 | with an override, the canary's part is the override kept between nothing and half, whatever the guard found; without one it is none if the guard sees stable or canary down, and else the service's; the guard alone decides the slot |
| `RuleGuard.ToCanaryIff` | internal/features/rules/worker/rules_rule_build_manifest.go:74-106 | the published destinations name the canary exactly when it has a share |
| `RuleDeploy.SentToIsReachable` | internal/features/rules/worker/rules_strategy_guard_availability.go:217-260 | a workload that a published rule sends requests to is one that the cleanup finds referenced, through the whole rendered tree |
| `RuleDeploy.SendsToStrategy` | internal/features/rules/worker/rules_rule_build_manifest.go:74-106 | where a rule that forwards sends requests: to the slot or the stable workload, and to the canary exactly when it has a share |
| `RuleDeploy.PublishAndClean` | internal/features/rules/worker/rules_strategy_guard_availability.go:97-152 | publication and cleanup, for any strategy and template and with any failing calls: nothing the published rule sends requests to and no workload of the service's own strategy is taken away in any state on the way, traffic is kept, and success leaves of the canary and the slots only what is the service's own or needed |
| `RuleDeploy.DeployRule` | internal/features/rules/worker/rules_rule_handle.go:132-159 | guard, override, publication and cleanup: the same for the service the guard and the override settle on; the tree is in its place and the others are as they were; when no call fails both succeed; and when the guard gave both slots up, only what a route or the canonical Service needs is left of them |
| `RuleReconcile.RuleSite.CleanupJwt` | internal/features/rules/worker/rules_rule_handle.go:259-264 | whatever fails, the store has the two deletes up to some point, and both on success |
| `RuleReconcile.RuleSite.ReconcileJwt` | internal/features/rules/worker/rules_rule_handle.go:240-257 | the same for the two access resources as the rule asks for them; an incomplete JWT part writes nothing and fails |
| `RuleReconcile.RuleSite.ReconcileEdge` | internal/features/rules/worker/rules_edge_apply.go:11-74 | the same for the six edge keys and the shared filter, which is applied before the route's own |
| `RuleReconcile.RuleSite.CleanupEdge` | internal/features/rules/worker/rules_edge_apply.go:76-97 | the same for the six deletes, in a loop |
| `RuleReconcile.RuleSite.Deploy` | internal/features/rules/worker/rules_rule_handle.go:63-151 | for any names and any failing calls the writes of the path are done up to some point and other keys are left alone; in every state on the way routes go only once the denial is there, and a denial only once the routes are; on success the ten keys look as after a deploy into an empty cluster, and are settled, each exactly under its condition; when no call fails it succeeds exactly unless the JWT part is incomplete |
| `RuleReconcile.PartlyHandsOver` | internal/features/rules/worker/rules_rule_handle.go:63-151 | whatever call is the last one: a denied rule's routes are as they were or its policy is there, an allowed rule's deny policy is as it was or its routes are there, its own filter is as it was or the shared one is there |
| `RuleReconcile.OwnedLives` | internal/features/rules/worker/rules_rule_handle.go:63-151 | which kinds of resources, in which of the two namespaces and under which names, a rule owns or shares |
| `RuleReconcile.RuleSite.DeployAll` | internal/features/rules/worker/rules_rule_handle.go:63-151 | after any history, half-failed deploys included, a last successful deploy that denies or has a gateway leaves the ten keys as in an empty cluster, for any names |
| `RuleReconcile.RuleSite.Delete` | internal/features/rules/worker/rules_rule_handle.go:162-238 | the deletes up to some point, and all on success: every owned key but one; which one depends on the action |
| `RuleReconcile.RuleSite.DeployThenDelete` | internal/features/rules/worker/rules_rule_handle.go:200-237 | a delete with the rule's own action takes back its deploy, for any names |
| `RuleReconcile.DeployForgets` | internal/features/rules/worker/rules_rule_handle.go:63-151 | history independence for any names: a deploy leaves under all ten keys what it leaves in an empty cluster, exactly unless it keeps an earlier deny policy |
| `RuleReconcile.SettlesIff` | internal/features/rules/worker/rules_rule_handle.go:63-151 | a deploy settles all ten keys exactly when names that coincide are asked for the same and no earlier deny policy is kept |
| `RuleReconcile.SettlesApartIff` | internal/features/rules/worker/rules_rule_handle.go:128-151 | with two namespaces and a gateway, exactly when the deny and require-auth policies have two names or neither is asked for |
| `RuleReconcile.DeleteClears` | internal/features/rules/worker/rules_rule_handle.go:200-237 | a delete with the rule's own action leaves none of the ten keys its deploy wrote, for any names |
| `RuleReconcile.IsolatedIff` | internal/features/rules/worker/rules_rule_handle.go:63-151 | no deploy of one rule changes what is found under another's keys exactly when the two share none and the shared filter is not among them |
| `RuleNames.CutMeetsIff` | internal/features/rules/worker/rules_rule_build_manifest.go:145-149 | when two names of one service are one after the cut to 63 characters |
| `RuleNames.DenyMeetsRequireAuthIff` | internal/features/rules/worker/rules_rule_build_manifest.go:131-172 | the deny and require-auth policies of a rule have one name exactly when their parts meet, for every service, rule name and id |
| `RuleNames.FittingNamesMeetIff` | internal/features/rules/worker/rules_rule_build_manifest.go:131-172 | where both fit uncut, exactly when the id starts with "deny" and the name is the rest of the id with "require-auth" behind it |
| `RuleNames.NamedSettlesIff` | internal/features/rules/worker/rules_rule_handle.go:128-151 | when a published deploy settles, in terms of the service, the rule's name and its id |
| `RuleNames.ShortWordsApart` | internal/features/rules/worker/rules_rule_build_manifest.go:131-172 | names and ids of one short word each keep the two policies apart |
| `RuleNames.ShortNamesAre` | internal/features/rules/worker/rules_rule_build_manifest.go:131-172 | for names of one short word each, all ten names, written out |
| `RuleNames.RulesShareNames` | internal/features/rules/worker/rules_rule_build_manifest.go:131-172 | rule "m-r" of service "s" and rule "r" of service "s-m" share every name built from service and id; the VirtualService's exactly unless an id repeats its service, the deny policy's exactly when its parts meet |
| `RuleNames.RulesDisturb` | internal/features/rules/worker/rules_rule_build_manifest.go:159-172 | so whatever the two rules are called, in one namespace deploying one can change what is under the other's keys |
| `DeployLogs.DeployLogger.AppendLines` | internal/platform/logging/deploy_rule.go:84-99 | delivered, pending and buffered lines are the accepted ones in order, and the buffer stays below a batch |
| `DeployLogs.AcceptedOneByOne` | internal/platform/logging/deploy_rule.go:84-99 | lines are accepted one by one: a blank one not at all, any other trimmed and sanitised |
| `DeployLogs.DeployLogger.Flush` | internal/platform/logging/deploy_rule.go:101-134 | the same through lost answers, refusals and cancellations; if no send fails the server holds every accepted line, and batches are left over only when the first of them was given up |
| `DeployLogs.DeployLogger.Deliver` | internal/platform/logging/deploy_rule.go:112-131 | sends under one batch id until one succeeds, three have failed, or the context is done in the wait after a failed one; the server keeps one |
| `DeployLogs.DeployLogger.HeldIsPrefix` | internal/platform/logging/deploy_rule.go:101-134 | a server that drops repeated ids holds a prefix of the accepted lines |
| `DeployLogs.RuleDeployLogger.Flush` | internal/platform/logging/deploy_rule.go:200-208 | the rule logger has lost nothing exactly when no flush of lines was refused |
| `AutoDeploy.BuildStates` | internal/features/maintenance/worker/maintenance_autodeploy_control.go:339-365 | the table says what the snapshots say: which services are known, which are blocked, which commits they had |
| `AutoDeploy.NotesMean` | internal/features/maintenance/worker/maintenance_autodeploy_control.go:339-365 | the same in terms of the snapshots themselves: a service is blocked by one whose status says so, and had the commits they name |
| `Vocabulary.StatusWords` | internal/features/maintenance/worker/maintenance_autodeploy_control.go:500-521 | the seven statuses of a deploy that is under way |
| `Vocabulary.EnvironmentWords` | internal/features/maintenance/worker/maintenance_autodeploy_control.go:523-534 | the words for production, staging and development; any other word stands for itself |
| `Vocabulary.EnvironmentTwice` | internal/features/maintenance/worker/maintenance_autodeploy_control.go:523-534 | an environment's name stands for itself |
| `Vocabulary.CommitWords` | internal/features/maintenance/worker/maintenance_autodeploy_control.go:339-365 | commits are one commit in any case and with white space around them |
| `Vocabulary.StateKeysApart` | internal/features/maintenance/worker/maintenance_autodeploy_control.go:536-538 | two services or environments never share a key, if no id has a bar in it |
| `Vocabulary.QueueKeysApart` | internal/features/maintenance/worker/maintenance_autodeploy_control.go:162-176 | nor do two commits |
| `AutoDeploy.Evict` | internal/features/maintenance/worker/maintenance_autodeploy_control.go:188-199 | eviction changes no answer at this or any later time |
| `AutoDeploy.QueuedMore` | internal/features/maintenance/worker/maintenance_autodeploy_control.go:162-176 | queueing what is not remembered, and remembering it, keeps cycles that queue equal deploys apart |
| `AutoDeploy.Monitor.EvictExpired` | internal/features/maintenance/worker/maintenance_autodeploy_control.go:188-199 | both tables, with all that is remembered about the run kept |
| `AutoDeploy.Monitor.Decide` | internal/features/maintenance/worker/maintenance_autodeploy_control.go:129-176 | exactly when a service's commit is looked up, exactly when a deploy is queued, and which cooldown a failure of either starts |
| `AutoDeploy.Monitor.Consider` | internal/features/maintenance/worker/maintenance_autodeploy_control.go:128-183 | one service's turn: the whole effect on log, cooldowns and memory; nothing is queued for a blocked service or a known commit, also not twice in a cycle, nor for a service that is not enabled, meant for this environment or known in it |
| `AutoDeploy.Monitor.EarnedIsQueued` | internal/features/maintenance/worker/maintenance_autodeploy_control.go:128-183 | and what is enabled, meant for this environment or known in it, has a new commit and is taken by the API is queued, unless the service is blocked or cooling down or the deploy is remembered |
| `AutoDeploy.Monitor.RunCycle` | internal/features/maintenance/worker/maintenance_autodeploy_control.go:92-186 | every service has its turn with the tables as the services before it left them, and without the lease nothing is done; cycles that queue equal deploys read times at least the time to live apart, a cycle queues within its own length, and never queues unjustified deploys |
| `AutoDeploy.Monitor.RunCycles` | internal/features/maintenance/worker/maintenance_autodeploy_control.go:81-89 | over any run of cycles of at most `d` whose clock does not run backwards, the same deploy is queued again no sooner than the time to live less `d` |
| `Witnesses.RollingLosesTraffic` | internal/features/deploys/worker/deploys_strategy_apply_workloads.go:58-84 | a rolling deploy over a blue slot whose one read fails leaves traffic without a Deployment |
| `Witnesses.CanaryLosesTraffic` | internal/features/deploys/worker/deploys_strategy_apply_workloads.go:120-135 | a canary deploy over a blue slot whose one read fails does too |
| `Witnesses.RestagingMoves` | internal/features/deploys/worker/deploys_strategy_apply_workloads.go:268-290 | a second blue-green deploy before any switch moves traffic to a slot that no gate has named, though no call fails |
| `Witnesses.SwitchLosesTraffic` | internal/features/deploys/worker/deploys_strategy_blue_green_promote.go:143-155 | a switch off a slot without a Deployment puts traffic back on it when the API refuses the slot |
| `Witnesses.SwitchSplits` | internal/features/deploys/worker/deploys_strategy_blue_green_promote.go:139-141 | with both slots standing, one lost answer leaves selector and recorded slot apart |
| `Witnesses.TreeDrifts` | internal/features/deploys/worker/deploys_strategy_canary_promote.go:291-303 | a tree that a second promotion changes |
| `Witnesses.WorkerIsDropped` | internal/features/deploys/worker/deploys_strategy_apply_workloads.go:311-331 | a template whose second Deployment is neither chosen nor applied |
| `Witnesses.BlankMethodForwardsAll` | internal/features/rules/worker/rules_rule_build_manifest.go:360-388 | a rule for one path with a blank method forwards requests to other paths |
| `Witnesses.DenyPolicyStays` | internal/features/rules/worker/rules_rule_handle.go:106-125 | an allow deploy without gateways keeps the deny policy of an earlier deny rule |
| `Witnesses.PoliciesCollide` | internal/features/rules/worker/rules_rule_build_manifest.go:131-172 | a rule of any service whose two policies have one name, and which no deploy settles |
| `Witnesses.OverrideBeatsGuard` | internal/features/rules/worker/rules_rule_handle.go:132-133 | stable and canary are seen down, and an override gives the canary a share |
| `Witnesses.StaticSiteIsMoved` | internal/features/rules/worker/rules_rule_build_manifest.go:10-72 | a static site served by the canary's host, whose published tree a promotion changes |
| `Witnesses.QueuesThatClose` | internal/features/maintenance/worker/maintenance_autodeploy_control.go:92-186 | two cycles of a monitor queue one deploy twice, the time to live less the first cycle's length apart |

## Left out

- WeightMerge.MergeByHost: weights are unbounded whole numbers and reals, so integer overflow and float64 rounding are not modelled; entries are values at positions, so two lists that share an entry map are not.
- CanaryPromotion.PromotionClears: asks for a service name without white space at its ends, which normalised names have.
- BlueGreen.Await: polling, timeouts and pod health are one call of the schedule.
- BlueGreen.AwaitRetired: live pods are not in the namespace model, so the wait for them is one call of the schedule too.
- BlueGreen.PromoteBlueGreen: the observation timer is the parameter `cancelled`.
- Cleanup.CleanupUnused: rules_strategy_guard_availability.go:97-152 holds a second copy of the same code, which `RuleDeploy.PublishAndClean` takes to be this one.
- RuleDeploy.PublishAndClean: the policy and edge writes between publication and cleanup are those of `RuleReconcile` and touch no workload; they are not repeated here.
- Rollout.DeployRolling: the raw-YAML and structured-payload paths apply resources without retargeting them, so traffic is not kept there and they are not modelled.
- Lease.Shutdown: ticks are always ready, so it bounds the steps per tick and not the time.
- Consumer.Worker.Consume: a finite prefix of an endless loop; the closing of the channel and the cancellation between deliveries end the prefix.
- RulePolicies.EdgeOperation: hosts are compared as they are written, without wildcards.
- GatewayPolicy.GatewayDenyRules: whether an address lies in a block is a parameter, and so is what the proxy makes of a token; the workload's own deny and require-auth policies have one entry each and no hosts, and are not repeated.
- LeaseTiming.HeldAtTheEnd: the steps of `Lease` carry no times, so the renewals of the run are given to it as a list.
- AutoDeploy.Monitor.RunCycle: a queue request that the API takes but whose answer is lost counts as failed, as it does in the code, so the deploy it made is not among the spaced ones.
- RulePublish.PromotionIsPercentZero: timeouts, retries, CORS and response headers are carried along as opaque fields.
- RuleReconcile.RuleSite.Deploy: starts where the rule is compiled; fetching, validating and creating the namespace come before it, the cleanup of shadows (`RuleDeploy`) after it.
- HTTP, Kubernetes and RabbitMQ transport, token exchange and JSON are atomic calls that succeed, are refused or lose their answer.
- Image builds, static sites, secrets, SCM, cron jobs, service deletion and workload discovery are foreign calls or straight-line field copying.
- Log sanitising is a function parameter, and so is how a value that is no string is printed.
- Replica counts, rollout annotations, summaries, progress reports and environment readers do not touch the properties above.
