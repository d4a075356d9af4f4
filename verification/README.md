# A verified model of the ENS edge-node provider

The provider lets a cluster autoscaler buy and release edge instances. This project models its five
stateful cores in Dafny and proves what they keep over whole runs. It is meant to sit beside the Go sources;
`dafny verify dfyconfig.toml` checks all of it.

| file | part of the provider |
|---|---|
| `Prelude.dfy` | options and results, 32-bit conversion, saturating time differences, sums over finite sets |
| `Reservations.dfy` | the order state of one group: reservations reconciled against an inventory, and the guard count |
| `ReservationHistory.dfy` | the life of one reservation over any history of its group |
| `Orders.dfy` | ceiling and deadline gates, outcome classes, the guarded order, the order states of all groups |
| `Ceiling.dfy` | orders of one group interleaved with landings, late visibility and releases: the whole-run ceiling |
| `Ownership.dfy` | the prefix guard, the two longest-prefix resolvers, operation names, provider ids |
| `Inventory.dfy` | the paged, attributed region inventory with its cache, and the per-group lists |
| `DeleteNodes.dfy` | the node deletion RPC over faulty APIs, its safety, and its convergence under retry |
| `Lease.dfy` | the owner-checked clear of the Lease against concurrent writers |
| `Leadership.dfy` | the record behind the leadership mutex, every section that holds it, the label retry loops |
| `Handoff.dfy` | replicas over one Lease: startup, election, term, demotion, shutdown and handoff as steps |
| `HandoffRuns.dfy` | what a replica can come to: the clean handover, the live context, and exactly when a process can strand |
| `ShutdownDeadline.dfy` | the single deadline of a graceful shutdown |
| `Readiness.dfy` | the readiness loop and the tee into the leadership plane |

## How it is modelled

- Code that changes state is a class whose methods are proved against functions of the old state; the
  theorems are lemmas about those functions. The two concurrent parts (`Ceiling`, `Handoff`) are step systems
  built from the same functions, one step per critical section, API call or wait. `Ceiling.OrderIsARun` shows
  that everything the imperative order does to its ledger is a run of the step system.
- Integers of the source that are 32 bits wide wrap around explicitly (`Wrap32`). Durations are nanoseconds and
  differences saturate like those of the source's time type.
- Maps are visited in an arbitrary order, as the source's map iteration is unordered.
- Clocks, inventories, API failures, submit outcomes, pings and cancellation are parameters, so each contract
  holds for all of them.

## What the environment is trusted with

The whole-run ceiling (`Ceiling`) rests on these assumptions, each a named condition of a step:

- an instance seen before a listing began, and still alive when it ends, is in that listing; the source says
  itself (server.go:218) that the cloud does not promise this;
- a listing shows each instance at most once; a listing whose pages shift while it is read could show one twice;
- an order lands at most the ordered number of instances, and none if it was definitely refused;
- operation names are fresh and prefix-free. They are 16 random bits and a Unix second
  (`Ownership.OperationNamesPrefixFree` derives prefix-freedom from distinctness);
- only this process creates instances under the group's prefix, and it starts with everything visible, so a
  restart inside the visibility window is outside the theorem, as the source documents;
- the guard count and the ordered count add up within 32 bits.

The bound on a shutdown needs nothing of the environment while the server drains in time. After a hard stop it
is the deadline plus however long the graceful stop still blocks; the one-deadline promise of the source therefore
rests on the assumption that the server stops within three seconds of being told to (`ShutdownDeadline`).

The leadership system lets `IsLeader` answer anything, lets bounded waits time out at any moment, and lets
anybody write the Lease at any time. It assumes that no write of a dead process or of an ended election lands
later, that only the provider writes the leader label of its pod, and that a process's election launches its
acquisition callback at most once.

## Where the code does less than its comments say

- **The ceiling guard wraps.** `maxGuard` adds in 32 bits. It is the intended comparison exactly when the sum
  fits (`Orders.MaxGuardExact`); one owned instance and an increase of 2147483647 pass a maximum of four
  (`Orders.MaxGuardWraps`). The advisory check of the increase RPC has the same arithmetic.
- **Expiry is a real exception to the ceiling.** The bound "maximum plus the living instances of expired
  operations" is reached (`Ceiling.ExpiryOvershoots`), as the log message of the source admits.
- **Paging stops in time only up to 2147483600 instances** (`Inventory.PagingStopsExactly`).
- **A page without a body silently ends the inventory**, which is then cached and counted as if it were whole
  (`Inventory.WholeListingExactly`).
- **A demotion flips leadership before it cancels the term**, the other way round than the end of a term. With
  handlers in flight it leaves them a live context exactly if a failed publication demotes and the term was not
  cancelled before (`Handoff.DemotionAndContexts`); such states are reachable
  (`HandoffRuns.LiveContextWithoutLeadership`), and there are no others (`Handoff.ContextsDieWithLeadership`).
- **One deadline does not govern the whole shutdown.** Both ways out of the gRPC stop that give up wait without a
  limit for the graceful stop, which waits for its handlers, and the calls of the order path carry no context. The
  promise of budget plus release window holds if and only if the server drains in time or the hard stop lingers at
  most three seconds (`ShutdownDeadline.Clock.Shutdown`); a handler that takes a minute holds a shutdown of ten
  seconds for a minute (`ShutdownDeadline.SlowHandlerOverruns`), and one that never returns holds it for ever.
- **A deadline beyond the range of a duration** is cut by more than a millisecond; `Orders.OrderBudgetExact` gives
  the exact border.
- **The lenient provider-id parse** recovers an id exactly when the region is non-empty and has no dot
  (`Ownership.LenientRoundTrip`).
- **An election that ends before its callback began the term strands the process.** The stop callback then sees
  a process that never led, so no demotion exit follows; the late term starts on a cancelled context, unwinds,
  and leaves a process that is up but can never lead again (`HandoffRuns.LossBeforeTermStrands`,
  `HandoffRuns.StrandedStays`). A process whose election runs and that is not shutting down can still end up so if
  and only if its term has not begun (`HandoffRuns.StrandsExactly`); once it has led, it never does for the rest
  of its life (`HandoffRuns.NeverStrandsLater`), because the stop callback then demotes
  (`HandoffRuns.StopDemotesExactly`). The interleaving needs the callback goroutine to stay unscheduled until the
  elector gives up. All safety theorems hold in it.

## Model

| member | source | states |
|---|---|---|
| `Reservations.InstancesWithPrefix` | ens.go:396-404 | the ids of exactly the instances whose name starts with the prefix, in order |
| `Reservations.ClaimedIsFilter` | ens.go:396-404 | claiming is a filter over listings: membership, order and multiplicity |
| `Reservations.ReconciledExactly` | reservations.go:72-93 | when a reservation leaves the ledger, and what it holds if it stays, in terms of its order, its age, its earlier empty looks and the visible instances |
| `Reservations.GroupOrderState.Visit` | reservations.go:74-92 | one reservation is dropped, expired or kept, and what it still adds to the count |
| `Reservations.GroupOrderState.EffectiveOwned` | reservations.go:72-95 | for every iteration order, the same ledger and the same guard count result |
| `Reservations.EqualLengthPrefixFree` | ens.go:459-466 | distinct operation names of one length cannot claim each other's instances |
| `Reservations.ClaimsPartition` | reservations.go:64-75 | prefix-free operations and the unclaimed rest partition the inventory |
| `Reservations.ClosedForm` | reservations.go:64-95 | the guard count is the unclaimed instances plus max(expected, visible) of each unexpired reservation |
| `Reservations.ClaimExactly` | reservations.go:64-95 | what one reservation stands for in that count: nothing once it expires, otherwise the larger of the ordered and the visible number |
| `ReservationHistory.LiveReservation` | reservations.go:47-51 | over any history the miss counter is the number of consecutive empty inventories |
| `ReservationHistory.LeavesExactlyBy` | reservations.go:64-93 | a step removes a reservation if and only if it is full visibility, an expiring empty look, or its rejection |
| `ReservationHistory.LeavesFor` | reservations.go:38-93 | the same with the reasons in numbers: all ordered instances visible, or none twice in a row past fifteen minutes |
| `ReservationHistory.GoneForAReason` | reservations.go:119-122 | whenever a reservation is gone, a step of its history removed it for such a reason |
| `ReservationHistory.ExpiryNeedsTwoEmptyLooks` | reservations.go:38-45 | expiry needs 15 minutes and two empty inventories with no inventory between them |
| `ReservationHistory.TwoEmptyLooksExpire` | reservations.go:80-88 | two consecutive empty inventories, the second past the lifetime, always remove the reservation |
| `Orders.MaxGuardExact` | ens.go:372-378 | the ceiling guard is the comparison it stands for exactly when the sum fits in 32 bits |
| `Orders.MaxGuardModular` | ens.go:372-378 | what the guard decides for every count: the sum modulo 2^32 against the maximum |
| `Orders.MaxGuardWraps` | ens.go:373-374 | a concrete order beyond 32 bits that the guard lets through |
| `Orders.OrderBudgetExact` | ens.go:90-106 | who is refused, that a deadline caller gets at least 500 ms and never more than it has, and when less than 1 ms is lost |
| `Orders.AwaitOpInstances` | ens.go:413-438 | the first complete listing before a cancellation decides; a cancelled wait returns nothing |
| `Orders.AwaitedExactly` | ens.go:413-438 | which look decides a reconciliation: the first cancelled one, or the first that shows as many instances as wanted, or the final one |
| `Orders.AwaitedAreListed` | ens.go:413-438 | whatever a reconciliation settles on was shown by one of its looks, and belongs to the operation |
| `Orders.SubmitOrder` | ens.go:527-596 | rejected exactly on a definite refusal; an ambiguous order is accepted exactly if its reconciliation settled on the ordered number of ids, and returns those ids in either case |
| `Orders.ExecuteGuardedOrder` | reservations.go:124-168 | the whole effect of an order on its ledger, for every inventory, caller and outcome |
| `Orders.GuardedOrderIsHistory` | reservations.go:111-122 | every order is a piece of ledger history |
| `Orders.OrderOutcome` | reservations.go:109-168 | which gate decides, exactly: refused only above the maximum, submitted whenever there is room and time; only a submitted and not rejected order leaves a reservation, with its full count; a failed inventory changes nothing, every other reservation is the reconciled one |
| `Orders.Cloud.OrderState` | ens.go:127-137 | one order state per group, created empty, never shared |
| `Orders.Cloud.RunInstances` | ens.go:444-520 | nothing for a non-positive count or a failed preparation; refused and submitted by the group's own maximum; a new reservation has the count and the operation name under the group's prefix; all other groups' ledgers are untouched |
| `Orders.Cloud.IncreaseSize` | server.go:124-150 | exactly when the call succeeds, is out of range or unknown, by the group's own maximum; the ledger for every way it can end; success leaves a reservation of the full increase |
| `Ceiling.ReconcileCovers` | reservations.go:72-95 | under interleaved landings and releases the guard count covers all capacity already promised |
| `Ceiling.ReserveCommits` | reservations.go:140-162 | an order that passes the guard never pushes the promised capacity over the maximum |
| `Ceiling.StepKeeps` | reservations.go:109-168 | every step of an order or of the cloud keeps the invariant |
| `Ceiling.CeilingHolds` | reservations.go:15-21 | after every run the living instances are at most the maximum plus the living ones of expired operations, and those are at most what the expired reservations expected; without expiry at most the maximum |
| `Ceiling.ExpiresExactly` | reservations.go:80-88 | the operations counted as expired are exactly those whose reservation met its second empty look past fifteen minutes |
| `Ceiling.OrderIsARun` | reservations.go:124-168 | the imperative order is a run of the step system |
| `Ceiling.ExpiryOvershoots` | reservations.go:80-88 | a run from empty to two living instances under a maximum of one, through one expiry |
| `Ownership.FindNested` | groups.go:375-382 | the one-direction loop over the length-sorted prefixes finds a nested pair if and only if there is one |
| `Ownership.PrefixGuard` | groups.go:363-382 | accepts exactly the lists in which no prefix is a prefix of another; shared prefixes are told apart |
| `Ownership.LoadGroups` | groups.go:315-386 | a group list loads exactly when, with defaults filled in, it meets all startup conditions; every configured value survives; which error an empty list, a missing identity and a shared prefix get |
| `Ownership.AcceptedExactly` | groups.go:323-464 | those conditions in terms of the configuration as written |
| `Ownership.Validate` | groups.go:395-464 | unique ids and nodepools, 0 <= min <= max, the syntax checks, and a template of its own for every group on another instance type, exactly |
| `Ownership.GroupByIdExactly` | groups.go:504-511 | a lookup finds a group of that id, and fails exactly when there is none |
| `Ownership.GroupForInstanceName` | groups.go:531-540 | the resolver of the delete path computes the longest-prefix owner |
| `Ownership.Attribute` | ens.go:214-224 | the resolver of the inventory computes its attribution |
| `Ownership.ResolversAgree` | groups.go:526-530 | the two resolvers agree on every list of groups and every name |
| `Ownership.OwnerIsLongest` | groups.go:526-540 | the owner matches, no match is longer, and there is one as soon as anything matches |
| `Ownership.OwnerIsFirst` | groups.go:531-540 | among equally long matches the first group wins |
| `Ownership.NamesResolveToTheirGroup` | groups.go:531-540 | prefix plus any suffix resolves to that group on both paths and matches no other |
| `Ownership.GuardIsExact` | groups.go:363-365 | prefixes are disjoint if and only if no name matches two groups |
| `Ownership.OrderIsIrrelevant` | groups.go:531-540 | the order of the groups never changes an owner |
| `Ownership.OrderedInstancesAreOwned` | ens.go:459-466 | whatever the cloud appends, an ordered instance belongs to the group that ordered it |
| `Ownership.OperationNamesPrefixFree` | ens.go:462-466 | distinct operation ids and stamps give distinct, prefix-free names |
| `Ownership.StrictInstanceIdExact` | groups.go:565-581 | a release candidate results exactly from this region's rendering of a well-formed id |
| `Ownership.LenientExactly` | groups.go:558-563 | the read path takes what stands behind the first dot, unless the dot comes first |
| `Ownership.LenientRoundTrip` | groups.go:552-563 | the read path inverts the rendering exactly for non-empty regions without a dot |
| `Inventory.PagingStopsExactly` | ens.go:249-251 | the exit test first holds at the last page exactly up to 2147483600 instances |
| `Inventory.WholeListingExactly` | ens.go:209-212 | an error-free reading is complete exactly when no page lacked its body |
| `Inventory.InventoryHoldsTheListed` | ens.go:213-247 | exactly the attributed, unreleased instances appear, with their own id, name and status, under the group their name resolves to |
| `Inventory.InventoryOfOne` | ens.go:213-247 | what one listed entry contributes; with `InventoryOfConcat` this fixes order and multiplicity |
| `Inventory.Region.Fetch` | ens.go:199-252 | reads max(1, ceil(total/100)) pages, up to the first failing or bodiless one; the result is the inventory of the whole listing, or of the pages before the bodiless one |
| `Inventory.Region.DescribeRegion` | ens.go:179-258 | serves the cache exactly if it is not forced, there is one and it is younger than its lifetime; a failed fetch leaves the cache alone |
| `Inventory.Region.InvalidateCache` | ens.go:169-173 | no instant finds the cache fresh afterwards |
| `Inventory.OwnedInstances` | ens.go:260-272 | the inventory entries of one group, in order |
| `Inventory.OwnedByIsFilter` | ens.go:260-272 | taking the instances of a group is a filter |
| `Inventory.GroupSizesAddUp` | server.go:112-122 | the reported target sizes of all groups add up to the whole inventory |
| `Inventory.OwnedByPrefix` | ens.go:260-272 | a group's list is exactly the unreleased instances whose name starts with its prefix |
| `DeleteNodes.Estate.InstanceById` | ens.go:279-306 | the uncached lookup over whatever entries the reply lists: truthful, stale or failing |
| `DeleteNodes.Estate.ReleaseInstance` | ens.go:601-632 | the code for an unknown instance, and only that code, makes a failed release a success; a lost reply is a failure that took effect |
| `DeleteNodes.Estate.DeleteNodeObject` | kube.go:140-151 | the not-found answer for an absent Node is success, any other error a failure |
| `DeleteNodes.InventoryIsHonest` | ens.go:213-247 | the cached inventory of a truthfully named listing attributes every instance by its name |
| `DeleteNodes.DoneMeansGone` | server.go:152-160 | with truthful lookups, a node reported done, or whose Node object vanished, has no living instance; one reported done has no Node |
| `DeleteNodes.RefusedUntouched` | server.go:176-248 | a foreign label, a malformed id, an instance of anybody else or a failed lookup: a failure that touches nothing |
| `DeleteNodes.OwnedNodeExactly` | server.go:190-262 | what an owned node's handling takes away under every combination of failing calls, and when it is a failure |
| `DeleteNodes.Server.DeleteOne` | server.go:175-262 | one node of the batch, with every branch and every API failure |
| `DeleteNodes.Server.NodeGroupDeleteNodes` | server.go:161-269 | the batch leaves the state, the calls and the failure count of the fold over its nodes; a `Deleted` reply means that none of its instances and Nodes is left |
| `DeleteNodes.NodeIsSafe` | server.go:152-160 | a node's calls are safe, and it fails exactly when it is not finished |
| `DeleteNodes.BatchIsSafe` | server.go:152-160 | every release is of an instance owned by the group, and a Node goes only after an accepted release or an uncached miss |
| `DeleteNodes.FailuresAreUnfinished` | server.go:264-267 | the failure count is the number of unfinished nodes |
| `DeleteNodes.SuccessMeansAllFinished` | server.go:264-268 | success exactly when every node was finished |
| `DeleteNodes.SuccessMeansGone` | server.go:152-160 | over the state: a successful batch leaves none of its instances alive and none of its Nodes behind |
| `DeleteNodes.VanishedNodesAreEmpty` | server.go:155-157 | a Node that vanished is one of the batch with an agreeing label, and its instance is gone |
| `DeleteNodes.BatchTakesOnlyOwned` | server.go:197-249 | whatever fails, an instance that disappears belongs to the requested group and is named by a node of the batch whose label agrees |
| `DeleteNodes.BatchProgresses` | server.go:158-160 | a call only ever takes instances and Nodes of its batch away |
| `DeleteNodes.CleanBatchExactly` | server.go:161-269 | without API failures the call succeeds exactly when every node had a matching label, a well-formed id and an owned or gone instance |
| `DeleteNodes.RetriesConverge` | server.go:158-160 | after any failing attempts the first clean one succeeds, and exactly the batch is gone |
| `DeleteNodes.RetrySucceedsExactly` | server.go:158-160 | after any failing attempts the first clean one succeeds if and only if every node was deletable to begin with and the cache attributes none to another group |
| `Lease.ClearLeaseHolder` | kube.go:182-205 | the Lease is cleared exactly when it was ours and nobody wrote in between; otherwise it is as the peers left it |
| `Leadership.AdmitsExactly` | leader.go:167-225 | admission, and the named status, need a leader that reaches Kubernetes and is not shutting down, and admission a live term |
| `Leadership.EverySectionMirrors` | leader.go:185-195 | whenever the mutex is released the named health status is the serving condition |
| `Leadership.Leader.constructor` | leader.go:135-163 | the initial record, pinned leader without election |
| `Leadership.Leader.SetK8sOk` | leader.go:175-183 | reachability changes are published once |
| `Leadership.Leader.Admit` | leader.go:210-225 | admission and term capture are one decision; a captured term is live |
| `Leadership.Leader.BeginTerm` | leader.go:367-384 | a fresh term before any leader state, refused exactly after a recorded shutdown |
| `Leadership.Leader.EndTerm` | leader.go:386-401 | the ended term is cancelled and done, and leadership is gone |
| `Leadership.Leader.RecordDemotion` | leader.go:487-497 | exactly one of the terminal paths wins the record |
| `Leadership.Leader.Demote` | leader.go:487-506 | the winner cancels its term, waits for it at most five seconds, stops the election and exits; a loser touches nothing |
| `Leadership.Leader.RecordShutdown` | leader.go:521-530 | the same for the graceful path, with the term to wait for |
| `Leadership.Leader.OnStoppedLeading` | leader.go:465-506 | a process that led and is not shutting down loses leadership, admits nothing more under any term and exits; any other is left exactly as it was |
| `Leadership.BeginShutdown` | main.go:260-261 | once a shutdown began, nothing is admitted and no later health status gets through |
| `Leadership.RetryReason` | leader.go:285-309 | the first patch that is not a plain transient error decides a retry loop |
| `Leadership.PurgeStaleLabel` | leader.go:285-309 | the purge succeeds only on a successful patch, otherwise it names the reason |
| `Leadership.PublishRouting` | leader.go:433-458 | a leader relinquishes exactly on a permanent error or exhaustion |
| `Handoff.HandoffIsSafe` | leader.go:521-591 | a process that cleared the Lease was a leader whose term is done, and is quiet then and for the rest of its life: no handler, worker, election or callback, and no further admission |
| `Handoff.ClearNeverSteals` | kube.go:182-205 | in every reachable state a clear finds its own identity as the holder just before |
| `Handoff.NoStaleLabel` | main.go:183-224 | over crashes, exits and restarts, a listening replica that has not led since its start carries no leader label |
| `Handoff.OneTerminalPath` | leader.go:465-530 | one owner of the shutdown, exit(1) at most once, and never after clearing the Lease |
| `Handoff.ShutdownIsFinal` | leader.go:487-530 | a recorded shutdown is never taken back |
| `Handoff.ExitLeavesTheLease` | leader.go:483-506 | an exit of a demotion leaves no leadership, nothing running, a cancelled term and election, and the Lease as it was |
| `Handoff.ShutdownEndsItsTerm` | leader.go:545-555 | past its term a graceful shutdown leaves no term with a live context, and still counts as quiesced only if the term is done |
| `Handoff.TermLifecycle` | leader.go:364-427 | leader implies a term; a closed done channel implies a cancelled context and a returned worker; the named status says leader, Kubernetes reachable and no shutdown; the worker runs only in a term behind a published label, until a graceful shutdown removes it |
| `Handoff.StartsAndAdmissions` | leader.go:204-225 | no term starts after a recorded shutdown; every admission finds a leader that reaches Kubernetes, no shutdown, and a live term |
| `Handoff.LeaseRetainedThroughDrain` | leader.go:537-563 | during its drain a leader's election runs on and a follower's is cancelled |
| `Handoff.ContextsDieWithLeadership` | leader.go:386-401 | with handlers in flight, a live context without leadership exists exactly between the record of a failed publication's demotion and its cancellation |
| `Handoff.DemotionAndContexts` | leader.go:487-502 | a demotion that wins the record leaves handlers a live context if and only if it is a failed publication's and the term was live |
| `HandoffRuns.CleanShutdownHandsOver` | leader.go:521-591 | a run from a cold start to a leader that hands the Lease over |
| `HandoffRuns.LossBeforeTermStrands` | leader.go:465-481 | a run to a process whose election is over and that nobody ends |
| `HandoffRuns.StrandedStays` | leader.go:465-481 | on every run such a process stays so until it is signalled or dies |
| `HandoffRuns.NeverStrandsLater` | leader.go:465-506 | a process that has led while its election still runs never strands for the rest of its life |
| `HandoffRuns.StrandsExactly` | leader.go:465-481 | a process whose election runs and that is not shutting down can still strand if and only if its term has not begun |
| `HandoffRuns.StopDemotesExactly` | leader.go:465-481 | in every reachable state the stop callback demotes if and only if the term has begun and no shutdown is recorded |
| `HandoffRuns.LiveContextWithoutLeadership` | leader.go:440-447 | a run to a handler with a live context in a process that no longer leads |
| `ShutdownDeadline.Clock.WaitChan` | leader.go:613-628 | a wait sees its channel exactly if it closes in time or is closed already, even without time left |
| `ShutdownDeadline.Clock.StopGrpc` | main.go:261-277 | graceful exactly if there is time left and the drain ends within it; otherwise a hard stop that ends only when the graceful one does |
| `ShutdownDeadline.Clock.RemoveLabelBestEffort` | leader.go:593-609 | at most three seconds of the remaining time |
| `ShutdownDeadline.Clock.Shutdown` | leader.go:521-591 | when it hangs, when it releases and how long it takes, exactly; budget plus release window is kept if and only if the server drains in time or lingers at most three seconds |
| `ShutdownDeadline.SlowHandlerOverruns` | main.go:264-275 | a ten-second shutdown that takes a minute |
| `Readiness.Sink.SetServingStatus` | main.go:106-109 | every published status reaches the leadership plane |
| `Readiness.Controller.Check` | readiness.go:58-81 | publishes a change only, and nothing after cancellation |
| `Readiness.Controller.ReadinessLoop` | readiness.go:47-96 | the published statuses are the outcomes before cancellation without adjacent repeats |
| `Readiness.OutcomesExactly` | readiness.go:58-66 | exactly the probes before the first that sees the cancellation, before or after its ping, count |
| `Readiness.TransitionsExactly` | readiness.go:40-46 | they are the one sequence without repeats of which the outcomes are a stuttering |
| `Readiness.NothingAfterCancellation` | readiness.go:40-46 | probes from the first observed cancellation on have no influence |

## Left out

- Cloud and Kubernetes clients, request building, signing, credentials and error text: only outcome classes are modelled.
- The elector of the Kubernetes client library: modelled as steps that acquire, renew, stop and report the stop.
- gRPC transport, generated protobuf code, Helm charts, metrics and logging: no invariant of their own.
- Userdata and node templates: string and struct assembly.
- The janitor: it appears only as releases by anybody in `Ceiling`.
- Environment parsing and region syntax: settled by reading one branch.
- Ownership.LoadGroups: the syntax checks on disk size, bandwidth, labels, taints, nodepool id and template quantities are one parameter, and only the defaults that decide acceptance are filled in.
- Inventory.Region.DescribeRegion: one caller at a time; concurrent fetches, their second look at the cache, and an invalidation overwritten by a running fetch are not modelled.
- Inventory.Region.Fetch: the listing does not change between pages; a change would break the assumption that each instance is shown once. Listings above 2147483600 instances, for which the exit test wraps (`Inventory.PagingStopsExactly`), are excluded.
- Handoff.HandoffIsSafe: wall-clock expiry of the Lease is not modelled, so nothing is claimed about two leaders after an expiry.
- Handoff.TermLifecycle: the background worker is always present, as the entry point supplies one.
- DeleteNodes.RetriesConverge: the last cache may not attribute a batch instance to another group; a stale cache that does makes the call fail closed until it is refreshed (`DeleteNodes.RetrySucceedsExactly`).
- Orders.Cloud.RunInstances: the random operation id and the Unix second in the operation name are parameters.
- Leadership.Leader.OnStartedLeading: sequential, without the background worker and the wait for it; both, and all interleavings, are steps of `Handoff`.
- Leadership.Leader.Demote: the callback that may close the done channel meanwhile is a parameter; its steps are in `Handoff`.
- The two interceptors beyond `Leadership.Leader.Admit`: the exemption of health methods and the context merge.
- The remaining RPCs of the service: lookups and constant answers.
