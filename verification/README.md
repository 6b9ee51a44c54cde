# A verified model of the lwd control plane

lwd deploys image apps as sets of replicas spread over Docker hosts, behind one Caddy. This project models
the part that has to be right when calls fail half way: the reconciler's Apply, Scale, Rollback, self-heal,
evacuation, failover and Remove, together with the scheduler, the deployments table and node registry, the
router's committed maps, the node resolver's cache, the heal backoff and the compose quoting. It proves
safety over every run of those operations, in any order and with any failures.

## How it is built

`Control.Reconciler` is the reconciler object. Its store, router and fleet are classes with the source's
fields, and every external call (run, remove, check, stage, unstage, set route, drop route, record) is a method that may
fail. `State()` is the whole state as one value (`Model.World`), and every effect appends the state it
leaves to a ghost `history`, so a contract can speak about the moment between any two effects.

| files | what they hold |
|---|---|
| `Scheduler`, `Schedule`, `Placing` | placement: `Place`, candidates, greedy spread, the inline target loop of a deploy; and what a placement is, said of the observed cluster alone |
| `Model`, `Transitions` | the state and its invariant `Inv`; what a deploy, an in-place update, a refused operation and a removal do to a state, and that each keeps `Inv` |
| `Store`, `Router`, `Fleet`, `Control` | the objects and their effects |
| `Effects`, `Deploy`, `Operations`, `Heal`, `Evacuate`, `NodeDrain`, `Removal` | the operations as methods with the source's loops and exits, each proved to be one of those transitions |
| `Runs`, `Safety`, `Names`, `Observed`, `Uptime`, `Restart` | the theorems about whole runs |
| `Calls`, `Drain`, `Timeline` | the operations as calls, the registry's cordon bit, and histories in time: which operation held the lock when, and what the registry held meanwhile |
| `Backoff`, `Pacing`, `Failover`, `Resolver`, `Yaml` | backoff and pacing, node loss, the resolver cache, `yamlQuote` |

A run is a sequence of states joined by events (`Runs.Step`), and every operation method's contract names
the event it was: `Deploy` for Apply, Scale, Rollback and a single-replica evacuation, `Update` for a heal or a
moved replica, `Refuse` for whatever failed and what it had started by then, `Remove`, `AbortRemove`, and `Note` for heal bookkeeping. So a
theorem about every run is a theorem about the methods in any order. Each method also ensures `Calls.Performs`: what
its events have to do with what it was asked and with the cluster it was shown. `Timeline.History` strings such
calls together under the one lock, with registry writes falling inside and between them.

## Hypotheses

- No two apps share a domain: `owner` says which app a domain belongs to, and a deploy is on a domain of its
  own app. An app may change domains, but the route of the old one is then stray (see `Restart`).
- The store does not fail, and `SetRoute` is all-or-nothing as the reconciler sees it. The one exception is a
  file write that fails after Caddy took the config: nothing is committed and Caddy is ahead of the router
  until it takes another config. The state records that (`World.caddy`, `World.ahead`), so zero downtime is
  stated twice: of the committed routes (`Uptime.NeverDark`), and of the routes Caddy runs, in step or not when
  the operation began, with the exact condition under which those go dark (`Uptime.CaddyDarkIff`,
  `Operations.OutcomeAtCaddy`, `Evacuate.BrightAtCaddy`).
- A call that reports failure has had no effect: a failed run starts nothing and a failed removal removes
  nothing. That an agent may carry a call out and answer too late is not modelled.
- Containers are keyed by fresh ids, a node is its name, and a container is never moved.
- "Reliable" (`Fleet.reliable`) means that nodes resolve and answer and that removals of containers that are
  there succeed. Only the claims about leaks (containers a clean-up left behind), about what a removal leaves, and
  that an unsaved move's container is gone, use it. "Steady" (`CaddyRouter.steady`) means that Caddy takes every
  config and every file write succeeds; the claims that a best-effort route or staging removal took effect use it.
  "Sound" (`Reconciler.Sound`) adds that every other call succeeds. Only the claims that an operation does not fail
  without cause use it: a deploy then succeeds exactly if its placement does, a heal succeeds, a move fails only
  with nowhere to go, a removal succeeds.
- What a placement call observes of the cluster is a parameter (`views`), one view per call, so a deploy may
  see the cluster change between two of its placements. So are the probes of a heal pass (`glimpses`). What the
  resolver answers for a node is any of a set of addresses (`Fleet.Resolved`), another one each time if it likes.
- Health, image, network, secret and backing calls succeed or fail freely. Clocks are parameters. That a
  container passed its health check means that the health-check call made for it returned nil; with a health
  path that call probes the staging host, which the containers staged so far share (internal/reconciler/reconciler.go:1736-1746).

## Where the code and its comments part

- internal/reconciler/replicaheal.go:150-153 says a heal always mints a fresh container name. It takes the
  next deploy number without recording a row, and so does a move, whether they succeed or fail; the next
  operation then takes the same number. `Names.NameIsFreshIff` says exactly when a name is one that no earlier
  operation, failed or not, has given, and `Names.NameIsOccupiedIff` exactly when it is that of a container still
  there. Both fail in runs of two steps: a second heal of one index takes the name of the container that it
  replaces (`Names.SecondHealTakesTheName`), and a heal after one that failed and could not clean up takes the
  name of what that one left (`Names.FailedHealLeavesTheName`).
- internal/reconciler/reconcile.go:252-291 hands the heal the indexes it saw dead, and the lock compares only the
  row's id. `Observed.HealTakesTheSeenIff` says that the heal takes down the container seen dead exactly if no heal or
  move has replaced that replica in between; otherwise it is a fresh one that may well run (`Observed.HealCanTakeTheLive`).
- The inline target loop of `deployReplicaSet` and `placeReplicas` agree exactly on the apps not pinned to
  "local" (`Schedule.InlineRefinesPlaceReplicas`).
- internal/reconciler/evacuate.go:242-247 says a moved replica may be stacked when no other node fits; the code excludes every
  other replica's node without a fallback. Placement refuses the move exactly when every eligible candidate is
  excluded (`Evacuate.MoveIsRefusedIff`), and the move then fails (`Evacuate.MoveReplica`).
- A Rollback of a scheduled app replays its snapshot's node even when that node is cordoned. It undoes a drain
  exactly when the snapshot is scheduled and names the drained node (`Timeline.RollbackUndoesDrainIff`), which can
  happen (`Timeline.RollbackCanUndoDrain`).
- Zero downtime has one gap: when Caddy takes a flip that the router then cannot save (internal/router/router.go:405-416),
  the operation fails and takes down the new containers that Caddy now sends traffic to (internal/reconciler/evacuate.go:433-441,
  internal/reconciler/reconciler.go:1070-1082). `Uptime.CaddyDarkIff`, `Operations.OutcomeAtCaddy` and, for the loop over
  several moves, `Evacuate.BrightAtCaddy` say exactly when that is so; `Evacuate.MoveReplica` that a move on reliable
  nodes always ends there; and `Uptime.GoesDarkIffPersists` that it can happen if and only if the router writes a
  file, with the history that does it (`Uptime.CanGoDark`).

## Model

| member | source | states |
|---|---|---|
| Scheduler.Place | internal/scheduler/scheduler.go:42-81 | the filter loops and the stable sort answer with a best eligible candidate, or nobody is eligible |
| Scheduler.PlacedIsBest | internal/scheduler/scheduler.go:42-81 | success names an eligible candidate that no eligible one outranks (free memory, free CPU, name); the two errors tell an empty pool from one without room |
| Scheduler.BestIsPlaced | internal/scheduler/scheduler.go:63-80 | the converse: whichever candidate is best is the one placed |
| Scheduler.PlacedIgnoresOrder | internal/scheduler/scheduler.go:63-80 | the answer depends on which candidates there are, not on their order |
| Scheduler.RankedSorts | internal/scheduler/scheduler.go:63-76 | the sort is a permutation in rank order |
| Schedule.SchedulableCandidates | internal/reconciler/schedule.go:140-218 | the candidate loop: local first in the default pool, then every registered node of the pool that is not excluded, unreachable ones with no capacity |
| Schedule.ExcludeIsFilter | internal/reconciler/schedule.go:140-160 | excluding names drops exactly the candidates of those names |
| Schedule.PlaceExcludingSet | internal/reconciler/schedule.go:113-119 | the placement of one replica outside a set of nodes |
| Schedule.PlaceInIsOffered | internal/reconciler/schedule.go:140-218 | a placed node is never excluded, cordoned or unregistered |
| Placing.PlacementIs | internal/reconciler/schedule.go:140-218 | said of the observed cluster alone: an app is placed on the node that can take it (local in the default pool, or registered in its pool, uncordoned, resolving, reporting a capacity, not known unreachable; not excluded; with room if measured) and comes first in memory, CPU and name; the two errors tell no usable node from none with room |
| Placing.UsableIsCandidate | internal/reconciler/schedule.go:165-218 | a node is gathered as a candidate that counts exactly if it is usable and not excluded |
| Placing.OutranksIsPrecedes | internal/scheduler/scheduler.go:63-123 | the comparator is: more free memory, then more free CPU, then the name earlier in the dictionary |
| Schedule.PlaceReplicas | internal/reconciler/schedule.go:258-293 | the greedy loop with its fallback computes `SpreadOver`, whatever each call observes |
| Schedule.RankingIsRanking | internal/reconciler/schedule.go:258-293 | the ranking holds exactly the fitting candidates, each once, best first |
| Schedule.SpreadIsRanking | internal/reconciler/schedule.go:258-293 | on a fixed view the spread is the top of the ranking, the overflow is stacked on its head, and it fails exactly when nothing fits |
| Schedule.SpreadIgnoresOrder | internal/reconciler/schedule.go:258-293 | the spread does not depend on the order the registry is listed in |
| Schedule.InlineRefinesPlaceReplicas | internal/reconciler/reconciler.go:931-971 | the target loop of a deploy and `placeReplicas` agree if and only if the app is not pinned to "local" |
| Schedule.InlineIsOffered | internal/reconciler/reconciler.go:941-971 | every node the inline loop adds was offered by a view it consulted |
| Model.LatestAt | internal/store/store.go:554-603 | the newest row of an app in a status, as both queries select it |
| Model.RunningIsCurrent | internal/store/store.go:554-576 | a running row is the only one of its app, the current one, and newer than every retired one |
| Store.Store.RecordDeployment | internal/store/store.go:538-551 | the row is appended under an id above every other |
| Store.Store.CurrentDeployment | internal/store/store.go:554-576 | the newest running row of the app |
| Store.Store.PreviousDeployment | internal/store/store.go:581-603 | the newest retired row of the app |
| Store.Store.NextDeployID | internal/store/store.go:643-650 | the number is above every id in the table, and the least such unless the table is empty, when it is 1 |
| Model.MaxIdIsMax | internal/store/store.go:643-650 | `MAX(id)` bounds every id and is one of them, or 0 |
| Store.Store.SetStatus | internal/store/store.go:653-659 | changes the status of one row and nothing else |
| Store.Store.UpdateReplicas | internal/store/store.go:673-684 | changes the replicas and container id of one row and nothing else |
| Store.AppsOfLists | internal/store/store.go:687-702 | the listing names every app with a row, once, in ascending order |
| Store.Store.AddNode | internal/store/store.go:766-780 | an upsert of every field that keeps the schedulable bit of a node it already has and defaults the pool; no other node changes |
| Store.Store.SetSchedulable | internal/store/store.go:821-827 | the cordon bit of one registered node |
| Router.CaddyRouter.SetRoute | internal/router/router.go:288-300 | commits the candidate map only when the whole apply succeeded; the failed file write is told apart |
| Router.CaddyRouter.RemoveRoute | internal/router/router.go:305-317 | the same for a removal |
| Router.CaddyRouter.SetStaging | internal/router/router.go:323-335 | the same for the staging map |
| Router.CaddyRouter.RemoveStaging | internal/router/router.go:340-352 | the same for a staging removal |
| Router.CaddyRouter.ApplyConfig | internal/router/router.go:394-420 | refused, applied, or applied but not saved, and what Caddy serves in each case |
| Router.CaddyRouter.Reload | internal/router/router.go:384-388 | re-applying the committed maps puts Caddy back in step |
| Router.CaddyRouter.SeedRoutes | internal/router/router.go:358-366 | replaces the committed routes by the listed ones, the last for a domain winning |
| Control.Reconciler.EnsureUp | internal/router/router.go:136-222 | the router step of a deploy: the committed config is sent again, which puts Caddy in step or leaves it as it was |
| Control.Reconciler.Flip | internal/reconciler/reconciler.go:1070-1082 | the live route of a domain becomes the whole new set or stays as it was |
| Control.Reconciler.Check | internal/reconciler/reconciler.go:1058-1068 | a health check needs the staging route to be up; a container counts as healthy only once the call made for it returned nil |
| Transitions.DeployedKeepsInv | internal/reconciler/reconciler.go:1070-1141 | a blue-green deploy keeps the invariant |
| Transitions.PatchedKeepsInv | internal/reconciler/replicaheal.go:216-237 | an in-place update, heal or move, keeps the invariant |
| Transitions.RefusedKeepsInv | internal/reconciler/reconciler.go:1165-1185 | a failed operation, wherever it failed, keeps the invariant |
| Transitions.RemovedKeepsInv | internal/reconciler/reconciler.go:1481-1525 | a removal keeps the invariant |
| Transitions.RemoveAbortedKeepsInv | internal/reconciler/reconciler.go:1493-1512 | so does one that gave up half way |
| Transitions.DeployedCurrent | internal/reconciler/reconciler.go:1102-1132 | after a deploy the app's current row is the new one and every other app's is what it was |
| Transitions.PatchedCurrent | internal/store/store.go:673-684 | after an in-place update the current row has the same id and the merged replicas |
| Transitions.PatchCases | internal/reconciler/evacuate.go:422-431 | every entry of a merged set is untouched, or the fresh container that replaced it |
| Effects.StageSet | internal/reconciler/reconciler.go:1051-1068 | the set passes the gate: from before any of its containers was checked until all have passed, the staging host led to exactly those containers, in order, at their addresses |
| Effects.TearDown | internal/reconciler/reconciler.go:1165-1174 | the failure clean-up leaves running only what it could not remove, nothing when nodes are reliable, and drops the staging route |
| Effects.RetireSet | internal/reconciler/reconciler.go:1093-1115 | the retire loop touches only the old replicas, each on its own node, skipping nodes that do not answer or resolve |
| Deploy.ResolveTargets | internal/reconciler/reconciler.go:931-971 | the nodes settled before anything starts are those of the inline loop |
| Deploy.StartSet | internal/reconciler/reconciler.go:977-1049 | on every exit exactly the listed containers run, in order and by name, and nothing served was touched |
| Deploy.RecordFailedReplicaSet | internal/reconciler/reconciler.go:1165-1185 | a failed set is torn down and one failed row is recorded; rows, routes and running containers stay |
| Deploy.DeployReplicaSet | internal/reconciler/reconciler.go:924-1141 | success is a blue-green deploy to the planned nodes, each container on an address the resolver gave for its node, gated (`Effects.PassedGate`), retiring and removing the old set; any failure is without trace but for a failed row, recorded exactly at the exits that record one; the staging route does not outlive it; when every call succeeds it fails only if placement does |
| Operations.ApplyImageProvenance | internal/reconciler/reconciler.go:356-446 | placement, preparations and deploy with the provenance computed or forced; which exits record a row, and which rows carry a snapshot; past the router step Caddy has been put back in step first; when every call succeeds it fails only if placement does |
| Operations.Apply | internal/reconciler/reconciler.go:311-337 | a spec is refused exactly for its name, image, port, count, requirements or backing, without effect; a deploy's lineage is the user's own node choice |
| Operations.ScaleFrom | internal/api/api.go:180-232 | a scale deploys the snapshot with a new count, placed afresh exactly if it was scheduled, with the snapshot's lineage |
| Operations.Scale | internal/api/api.go:180-232 | the same from the app's current row; a bad count and an unknown app are refused, exactly those, without effect |
| Operations.RollbackTo | internal/reconciler/reconciler.go:720-728 | a rollback deploys exactly what the row recorded, provenance included, anchored on its node |
| Operations.Rollback | internal/reconciler/reconciler.go:1652-1721 | the same from the newest retired row; it is refused for want of one exactly if there is none |
| Operations.OutcomeNeverDark | internal/reconciler/reconciler.go:977-1115 | zero downtime of the committed routes under Apply, Scale, Rollback and reschedule at every effect, succeed or fail |
| Operations.OutcomeAtCaddy | internal/router/router.go:394-420 | the same of the routes Caddy runs, in step or not at the start: a watched route is dark exactly while an unsaved flip has sent it to containers that are gone; never without a data directory |
| Runs.RunKeepsInv | internal/reconciler/reconciler.go:924-1185 | the invariant holds in every state of every run |
| Runs.RowsAndRoutesAgree | internal/reconciler/reconciler.go:1023-1132 | in every state of every run an app has at most one running row, newer than its retired ones, of max(1, replicas) entries, and its committed route leads to each of them in order: by container name and declared port on the local node, by published mesh address and host port elsewhere; each runs the row's image and was health-checked |
| Runs.StepEvolves | internal/store/store.go:538-684 | an operation on one app adds at most one row, of that app, and changes at most a running row of it |
| Runs.RunKeepsSnapshot | internal/reconciler/reconciler.go:1652-1690 | what a lock-free read of a row says of its generation and lineage holds in every later state |
| Safety.OthersUntouched | internal/reconciler/reconciler.go:924-1185 | an operation on one app leaves every other app's rows, routes, containers and heal bookkeeping as they were |
| Safety.RunLeavesOthersUntouched | internal/reconciler/reconciler.go:924-1185 | the same over any run of operations on other apps |
| Safety.FailureLeavesRunning | internal/reconciler/reconciler.go:1165-1185 | a failed deploy leaves its own app's running row, route and containers as they were |
| Safety.NoOrphans | internal/reconciler/reconciler.go:977-1080 | over any run whose clean-ups succeed, every container is named by the running row of its app |
| Safety.PinsNeverMove | internal/reconciler/reconciler.go:356-374 | in every state of every run a row is scheduled exactly when its lineage's spec named no node, and a pinned row's replicas are all on the named node |
| Timeline.PinsDescend | internal/reconciler/reconciler.go:356-374 | and that lineage is real: in every history of calls, every row that is or was live descends from a spec some Apply was given for that app, is scheduled exactly if that spec named no node, and otherwise has all its replicas on the node it named |
| Timeline.DeployDescends | internal/reconciler/reconciler.go:1652-1721 | whichever call a deploy is part of, it takes its lineage from the spec that call was given or from a row that is or was live |
| Safety.StaleHealNeverActs | internal/reconciler/reconcile.go:335-345 | a generation superseded anywhere between observation and lock is never current again, so a heal that observed it is stale |
| Safety.SupersededBy | internal/reconciler/reconciler.go:1096-1132 | a deploy or a removal makes every earlier generation of its app stale |
| Safety.RollbackAlternates | internal/reconciler/reconciler.go:1652-1721 | an even number of successful rollbacks restores the original version, an odd number the previous one, whatever other apps do and whatever fails, heals or moves a replica in between; an Apply, Scale, single-replica evacuation or Remove of the app itself is excluded |
| Safety.RollbackTakesBack | internal/reconciler/reconciler.go:1652-1721 | one rollback takes back any deploy: it restores the version that the last Apply, Scale, single-replica evacuation or Rollback superseded |
| Safety.RollbackSwaps | internal/store/store.go:581-603 | one rollback exchanges the current and the previous version |
| Safety.NumberUsedIffRecorded | internal/store/store.go:643-650 | an operation uses up a deploy number exactly when it records a row |
| Safety.CanDeploy | internal/reconciler/reconciler.go:924-1141 | whatever has happened before, every admissible deploy can still succeed: the theorems are not about an empty set of runs |
| Safety.CanRollBack | internal/reconciler/reconciler.go:1652-1721 | every app with a retired row can be rolled back |
| Names.SameNameIff | internal/reconciler/replicaheal.go:97-157 | in any run, two operations, failed ones included, give containers the same name exactly when app, index and set shape agree and no row was recorded in between |
| Names.NameIsFreshIff | internal/reconciler/replicaheal.go:97-157 | the name an operation gives a container is one no earlier operation gave, if and only if since the last recorded row no heal, move or unrecorded failure has started one for that app, index and set shape |
| Names.NameIsOccupiedIff | internal/reconciler/replicaheal.go:111-217 | it is the name of a container still there if and only if such a heal, move or failure has started one and that one is still there |
| Names.ContainerIsFrom | internal/reconciler/reconciler.go:977-1049 | every container of every run was started by one of its events, under the id and with the labels it has |
| Names.CanHeal | internal/reconciler/replicaheal.go:47-238 | whatever has happened before, any replica of a current row can be healed in place |
| Names.SecondHealTakesTheName | internal/reconciler/replicaheal.go:150-153 | from any state of any run, a run of two heals whose second takes the name of the container that it replaces and that is still there |
| Names.FailedHealLeavesTheName | internal/reconciler/replicaheal.go:111-217 | from any such state, a failed heal whose container stays and a heal that takes its name, though no completed operation gave it |
| Uptime.NeverDark | internal/reconciler/reconciler.go:977-1115 | at every effect of a blue-green operation the committed route is a complete before-set or after-set, no container it names is gone before a flip dropped it, and from the flip on Caddy is in step |
| Uptime.CaddyRunsProxied | internal/router/router.go:394-420 | the routes Caddy runs are the committed ones, but for the one change it took and the router could not save |
| Uptime.CaddyDarkIff | internal/router/router.go:394-420 | before the flip and all through a failing operation, wherever it began, a route that Caddy runs goes dark exactly when it has been sent to a container since taken down; never without a data directory |
| Uptime.CanGoDark | internal/reconciler/evacuate.go:433-441 | if the router writes a file, an operation on any domain can fail and leave its route at Caddy dark |
| Uptime.GoesDarkIffPersists | internal/router/router.go:405-416 | so whether that can happen is decided by whether there is a data directory |
| Uptime.UpdateMerges | internal/reconciler/evacuate.go:422-440 | a merged set keeps only entries that are not being taken down |
| Heal.HealDeadReplicas | internal/reconciler/replicaheal.go:47-238 | success recreates exactly the dead indexes in place, on their own nodes, gated, under one flip; any failure leaves the row, the route and all but dead containers as they were; when every call succeeds so does it |
| Heal.MendSet | internal/reconciler/replicaheal.go:118-206 | the recreate loop at every exit, an index out of range included |
| Heal.TryHealReplicas | internal/reconciler/reconcile.go:335-373 | a stale observation changes nothing; an attempt runs exactly when the count and the backoff allow one; what it reports, and what it leaves in the bookkeeping |
| Heal.Observe | internal/reconciler/reconcile.go:252-279 | exactly the replicas in sight whose state is not running are dead, exactly those on a node that does not answer or resolve are unseen |
| Heal.ReconcileReplicaSet | internal/reconciler/reconcile.go:252-291 | a heal is attempted exactly if some replica is seen dead, whatever else is unseen, the row is still current and the bookkeeping allows it, and it is of exactly the indexes seen dead, succeed or fail; only a set seen wholly alive clears the bookkeeping |
| Observed.HealTakesTheSeenIff | internal/reconciler/reconcile.go:335-345 | while the observed row is current, the container at an index is the one that was seen there if and only if no heal or move has replaced it between observation and lock |
| Observed.EntryStep | internal/store/store.go:673-684 | an operation that leaves a row current leaves each of its entries as it was, or replaced it by a fresh container |
| Observed.HealCanTakeTheLive | internal/reconciler/reconcile.go:335-345 | from any state of any run, a step after which the observed row is still current and a fresh container runs in the place of the one observed |
| Backoff.HealBackoffIs | internal/reconciler/reconcile.go:377-386 | the delay is min(15s * 2^(n-1), 5min) for every n, int64 wrap-around included |
| Backoff.WrappedShiftIsNoDelay | internal/reconciler/reconcile.go:377-386 | no wrapped shift is both positive and below the cap |
| Backoff.HealBackoffGrows | internal/reconciler/reconcile.go:18-21 | the delay is monotone and between 15s and 5min |
| Backoff.AttemptsAreFailures | internal/reconciler/reconcile.go:347-372 | the count is the number of failures since the last reset and never exceeds the maximum |
| Backoff.Paced | internal/reconciler/reconcile.go:354-366 | the next attempt after the k-th failure starts at least healBackoff(k) later |
| Backoff.GivesUp | internal/reconciler/reconcile.go:354-357 | after the last allowed failure nothing is attempted until a reset |
| Pacing.StepIsBeat | internal/reconciler/reconcile.go:335-373 | every operation moves every app's bookkeeping as the beat of its event says: an attempt, a refusal, a reset, or not at all |
| Pacing.RunCountsAttempts | internal/reconciler/reconcile.go:347-372 | in every state of every run an app's attempt count is its failures since the last reset, at most the maximum |
| Pacing.RunIsPaced | internal/reconciler/reconcile.go:354-366 | in every run the attempt after a failed one starts at least healBackoff(k) later |
| Pacing.RunGivesUp | internal/reconciler/reconcile.go:354-357 | in every run, after the last allowed failure nothing is attempted until a deploy or a healthy observation |
| Evacuate.ExcludedFor | internal/reconciler/evacuate.go:314-326 | the exclude set of one moving replica: the node and every other replica's node, and no other |
| Evacuate.MoveIsRefusedIff | internal/reconciler/evacuate.go:314-328 | placement refuses a move exactly when every node that can take the replica is the evacuated one or houses another replica of the app |
| Evacuate.StartMove | internal/reconciler/evacuate.go:328-390 | a move starts its container where the scheduler placed it outside the exclude set, published on an address the resolver gave for that node |
| Evacuate.GateMove | internal/reconciler/evacuate.go:389-442 | up to the flip: the new container alone is staged and checked; on any failure it goes again |
| Evacuate.MoveReplica | internal/reconciler/evacuate.go:308-468 | one turn of the loop replaces one entry blue-green, its container gated, or leaves everything as it was; it is unplaced exactly if there is nowhere to go; an unsaved flip on reliable nodes leaves Caddy with a container that is gone |
| Evacuate.MoveSpreads | internal/reconciler/evacuate.go:314-326 | a move keeps the spread: moved replicas alone on their nodes, others exactly as they were, no fewer distinct nodes |
| Evacuate.EvacuateReplicas | internal/reconciler/evacuate.go:265-471 | the whole loop: each index is moved or reported failed, the spread is kept, every move was offered, and no watched committed route goes dark at any effect |
| Evacuate.BrightAtCaddy | internal/reconciler/evacuate.go:265-471 | of the routes Caddy runs, at every effect of the loop and whatever its earlier turns left behind: dark exactly while sent to a container of the loop's own that is gone; never without a data directory |
| NodeDrain.AffectedByNode | internal/reconciler/evacuate.go:138-148 | exactly the indexes of the replicas on the node |
| NodeDrain.Reschedule | internal/reconciler/evacuate.go:50-96 | a single replica is redeployed on another, offered node and stays scheduled; failure leaves it running; when every call succeeds it fails only if no other node can take it |
| NodeDrain.EvacuateApp | internal/reconciler/evacuate.go:186-226 | one app: left alone off the node, skipped if pinned, redeployed as a new generation if it is a single replica, moved replica by replica in its row if it is a set; the verdict says exactly what changed and what is left on the node |
| NodeDrain.EvacuateNode | internal/reconciler/evacuate.go:179-229 | it reports no failure exactly if no scheduled app has a replica left on the node; of every app the result says exactly whether it was skipped, moved, or not moved in full |
| NodeDrain.DrainNode | internal/api/api.go:563-578 | the node is cordoned first, and afterwards clear exactly if no failure is reported; the local and unknown nodes are refused |
| NodeDrain.ApplyIsOffered | internal/reconciler/reconciler.go:941-971 | an unpinned Apply or Scale starts containers only on offered nodes |
| Drain.CordonEndsOnlyWhenLifted | internal/store/store.go:766-836 | a cordon survives every registry write, a re-add included, except an uncordon and a re-add after a delete |
| Drain.CordonedIsNotOffered | internal/reconciler/schedule.go:140-218 | a view that lists a cordoned node does not offer it |
| Timeline.DrainSticks | internal/api/api.go:563-578 | after a drain without failures, and whatever was in flight when the node was cordoned, no scheduled app has a replica on it in any later state of the history, until the cordon is lifted or a Rollback replays a snapshot that names it |
| Timeline.LateIsBlind | internal/reconciler/evacuate.go:179-229 | an operation that takes the lock after the cordon is never offered the node |
| Timeline.CallKeepsClear | internal/reconciler/schedule.go:140-218 | a call that is never offered a clear node leaves it clear at every event, unless it replays a snapshot there |
| Timeline.RollbackUndoesDrainIff | internal/reconciler/reconciler.go:1652-1721 | a rollback leaves a drained node clear if and only if its snapshot is not a scheduled one that names the node |
| Timeline.RollbackCanUndoDrain | internal/reconciler/reconciler.go:720-728 | a run from a fresh installation in which a rollback puts an app back on a clear node, whatever it is offered |
| Removal.ReplicaNodeNames | internal/reconciler/reconciler.go:1532-1557 | the distinct nodes of the current set, the anchor's first |
| Removal.SweepNode | internal/reconciler/reconciler.go:1500-1509 | no container of the app is left on the node, or the removal stops |
| Removal.RemoveApp | internal/reconciler/reconciler.go:1380-1525 | success retires the app, with no container of it left on its nodes when nodes are reliable and its route dropped when the router is steady; an abort takes only containers of the app, and comes only of a failed call |
| Failover.Tracker.Look | internal/reconciler/reconcile.go:112-134 | the timers are the streaks of unanswered probes, and an evacuation is due exactly after the grace period |
| Failover.FailoverLostNodes | internal/reconciler/reconcile.go:86-154 | a pass looks at each listed remote node once, in order, and its events are, sighting by sighting, an `EvacuateNode` of that very node if it was due and nothing otherwise; nothing at all when reachability is unknown |
| Failover.FailoverWaitsOutTheGrace | internal/reconciler/reconcile.go:86-154 | an evacuated node was seen unreachable at least the grace period ago and never otherwise since, and is never local |
| Failover.EvacuationsAreApart | internal/reconciler/reconcile.go:136-152 | two automatic evacuations of a node are at least the grace period apart |
| Restart.BuildInitialRoutes | internal/cli/cli.go:256-323 | the listed routes are those gathered from the current rows; without a container listing there are none |
| Restart.Reseed | internal/router/router.go:358-366 | seeding installs exactly the gathered routes, or nothing if the listing failed |
| Restart.RestartRebuilds | internal/cli/cli.go:256-323 | a restart rebuilds exactly the committed routes if and only if every routed domain is named and served by a running row |
| Restart.RestartAnyTime | internal/cli/cli.go:256-323 | with one named domain per app and successful route removals that is so in every state of every run |
| Resolver.RegistryResolver.ResolveMeta | internal/node/resolver.go:127-156 | local, cached, or built from the row just read; failures cache nothing |
| Resolver.RegistryResolver.Invalidate | internal/node/resolver.go:198-202 | evicts one name |
| Resolver.AddNode | internal/api/api.go:405-453 | an incomplete, malformed or reserved node is refused without effect, and no other; else the store is written first, the cordon kept, and the cache evicted |
| Resolver.DeleteNode | internal/api/api.go:487-495 | neither the registry nor the cache knows the node any more |
| Resolver.ListingIsWellFormed | internal/reconciler/schedule.go:140-218 | what the API lets into the registry is what placement assumes of a listing |
| Resolver.CacheIsCoherent | internal/node/resolver.go:127-202 | after any interleaving a cached mesh address and docker host are the registry's unless a writer of that name has yet to invalidate |
| Resolver.QuiescentCacheIsCurrent | internal/api/api.go:443-451 | once every writer has invalidated the cache holds only current rows |
| Resolver.ReversedOrderGoesStale | internal/api/api.go:487-495 | invalidating before writing would leave a stale entry for good |
| Yaml.YamlQuote | internal/reconciler/backing.go:178-201 | the ordered passes and the builder loop are one escape per character between quotes |
| Yaml.PassesAreEscapes | internal/reconciler/backing.go:178-200 | no pass rewrites what an earlier one wrote |
| Yaml.YamlQuoteRoundTrips | internal/reconciler/backing.go:164-201 | reading the scalar and undoing `$$`, in either order, gives every string back |
| Yaml.QuoteIsNotEscapable | internal/reconciler/backing.go:178-201 | the first unescaped quote is the closing one, whatever follows |
| Yaml.NoControls | internal/reconciler/backing.go:185-193 | no character below 0x20 reaches the document |
| Yaml.DollarsComeInPairs | internal/reconciler/backing.go:196-199 | every maximal run of dollars is of even length |

## Left out

- Compose apps, git builds, and rows without replicas: their own paths (in-place by design, external tools, or compatibility only).
- Web redeploy (internal/web/api.go): it replays the newest row, failed ones included.
- Store errors, and JSON that does not parse; a snapshot is a value here.
- A deployment row's creation time, compose content and environment, a container's environment and limits, and backing services beyond whether they come up.
- Branches that the invariant rules out are not written: a current or retired row without a snapshot, with an invalid one, or without a container.
- The patterns for mesh addresses, agent URLs and pools in the node API are parameters (`Resolver.Syntax`).
- The text of errors and log lines, the nudge channel, and the health snapshot other than an app's own report.
- Spec validation: name patterns, secrets, git and compose clauses; the clauses an image app meets are modelled.
- Concrete container names on a node: names are values that carry app, deploy number and index, and two containers may have the same one (see `Names`). That Docker refuses an occupied name is part of a run failing freely.
- Starting Caddy's own container: `EnsureUp` either fails or finds Caddy up, and then reloads.
- Floating point: CPU figures are reals, so rounding and NaN are out.
- Invalid UTF-8 in `yamlQuote`, and the rest of `RenderBackingCompose` and of the generated Caddyfile.
- The transport a resolver picks is free; that an agent that stops answering is not re-probed is not modelled.
- `EvacuateNode`'s own history: each app's part has its zero-downtime contract, the loop over apps does not restate it.
- Uptime.NeverDark: a domain that the same app routed earlier and has left is not watched, because the code never removes that route.
