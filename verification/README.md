# Model of the M3UA stack's route state, recovery queue, barrier and encodings

This project models five connected parts of an M3UA implementation (RFC 4666) and proves
properties of the model with Dafny. `dafny verify dfyconfig.toml` checks all of it. `Common`
and `Sequences` hold what several parts share.

**Route state of an ASP** (`asp_routes.go`). Signalling Gateways report availability and
congestion over point-code ranges. `PointCodes`, `RouteRecords` and `DerivedStatus` say what
the stored reports mean: at every point code the newest covering record of each capable
gateway, then the best over the gateways. `RouteState` gives the operations as values;
`RouteInvariants`, `RouteReports` and `RouteRuns` prove them over every run, and
`RouteCoherence` says exactly when the leaves reflect the present capability. The classes
`RouteIndex`, `StateIndex`, `RecordStore` and `AspRoutes` hold the trie, the maps, the
counters and the loops, and are proved to do what the values say. `StatusDiff`,
`IndicationStream` and `IndicationQueue` follow the changes out to a reader that must
converge; `ReportRanges`, `RouteCapability` and `DestinationStatus` are the remaining loops.

**Application Server and recovery queue** (`as.go`, `distribution.go`). `AsState` gives each
critical section as a function on one Application Server, `ApplicationServer` the fields and
loops proved against it, `AsMachine` the state machine of RFC 4666 section 4.3.2.
`Distribution` is the step system of all interleavings: membership changes, senders, drain
goroutines, retry and T(r) timers that may fire late, and releases to the shared budget made
after the lock is given up; socket writes are the gaps between steps. `ServerRuns`,
`MessageBudget`, `AcceptedOnce`, `ExpiredItems`, `BroadcastMarkers` and `OrderlyDelivery`
prove what holds over its runs; `PanicPath`, `ExpiryGuard` and `PanicRun` settle when the byte
accounting underflows.

**Withdrawal and admission** (`aspsm.go`, `dataadmission.go`). `DeliveryBarrier` is a step
system with any number of writers.

**Association-level encodings** (`association.go`, `fsm.go`). `ActiveScope` is the compact
active-Routing-Context record, `MembershipScope` the allocation-free membership tests,
`StateHistory` the committed-state history.

**Compile and print** (`asp_config.go`, `datatransfer.go`). `RouteCandidates` and
`RoutingInventory` are the routing compile, and `ProvisionedState` derives from it what the
route state assumes of its configuration. `DataFrame` is the DATA encoder with a decoder
written from RFC 4666.

Three promises do not hold without a condition, and the model keeps the code's behaviour:

- `recoveryExpired` clears `draining` although a drain may still be alive. While no effective
  expiry finds a drain under way, `CleanRunsAreOrderly` and `CleanRunsDoNotPanic` hold;
  `ExpiryPanicsExactly` shows that, with room for two messages, an expiry opens the way to the
  accounting panic if and only if it finds `draining` true, and `PanicReachable` is a run to
  it. What the other theorems say of the recovery queue needs no such condition.
- `associationStateChanged` compares with the eligibility it noted last, while a report, an
  attach or a detach recomputes with the eligibility of the moment. `CurrentExactly` says for
  every run that has noted all changes: a route reflects the present capability if and only
  if, just before the event that derived it last, the other associations' changes to it had
  been noted. `StaleAfterRace` is a run after which a route nothing can carry stays available,
  and `PromptRunsAreCurrent` covers every run whose changes are noted as they happen.
- `addDynamicASKey` takes a Routing Context for fresh when it has no registration, even if it
  is configured statically. `RegisteringChanges` and `RecordIsPlainSet` say exactly when the
  record then departs from the plain set; `StaticRegistrationDeactivates` is a run.

The source's strings are `string`s, associations and ASPs are numbers, and time does not
appear: a timer is a step that may be taken. The sequence number of reports keeps its 64 bits;
other generations and epochs are unbounded.

## Model

| member | source | states |
|---|---|---|
| `PointCodes.IntersectionExact` | asp_routes.go:1413-1426 | A reported range meets a route exactly when they share a point code; the intersection is an aligned range inside the route and holds exactly the point codes in both |
| `PointCodes.CoversIsInside` | asp_routes.go:1433-1438 | For aligned ranges the mask-and-prefix test is containment of point codes |
| `PointCodes.PrefixRange` | ssnm.go:514-528 | The masked prefix is an aligned range, and the mask is capped at 24 bits |
| `PointCodes.ContainsIsInterval` | asp_routes.go:1433-1438 | An aligned range is the interval of 2^mask point codes that starts at its own |
| `RouteRecords.BestIsFirstLeast` | asp_routes.go:913-958 | The status chosen over the gateways is the first that no other is preferred to, by availability and then by congestion |
| `RouteRecords.RenumberingKeepsOrder` | asp_routes.go:588-629 | The renumbering at sequence wrap keeps the order of age and gives the numbers from base + 1 to base + n |
| `RouteRecords.RenumberingKeepsAnswers` | asp_routes.go:588-629 | The renumbering changes no gateway's newest report at any point code |
| `DerivedStatus.LeavesPartition` | asp_routes.go:869-911 | Every point code of a route lies in exactly one derived leaf |
| `DerivedStatus.LeafUniform` | asp_routes.go:869-911 | No stored report tells two point codes of one leaf apart |
| `DerivedStatus.DerivedReadsNaive` | asp_routes.go:793-958 | The leaves are disjoint, cover the route exactly, and read at every point code what a scan of the flat records reads: the newest covering record of each capable gateway, then the best over the gateways |
| `DerivedStatus.DerivedDepends` | asp_routes.go:793-811 | A route's leaves depend on its own reports, their relative age and the capability only, so recomputing just the affected routes is enough |
| `RouteIndex.NodeForRange` | asp_routes.go:852-867 | Walking to a range adds exactly the missing nodes between the root and it, and changes no record on an existing node |
| `RouteIndex.StatusFromGatewayPath` | asp_routes.go:913-958 | The loop over a path of nodes returns the best status over the gateways, with the newest record on the path of each capable one |
| `RouteIndex.PathReadsNaive` | asp_routes.go:913-958 | On the path to an unsplit range the trie reads what the naive scan of the flat records reads |
| `RouteIndex.AppendDerivedLeaves` | asp_routes.go:869-911 | The recursion adds exactly the leaves below its node, each with the naive status of its point codes |
| `RouteIndex.NodeForRecord` | asp_routes.go:552-563 | The node for a record's range exists afterwards and the trie still holds exactly the flat records |
| `StateIndex.RouteTries.constructor` | asp_routes.go:170-171 | A new index has one empty trie a route |
| `StateIndex.RouteTries.StoreAvailability` | asp_routes.go:530-539 | Storing one availability record leaves every trie a mirror of the flat maps with that record, no node shared between routes |
| `StateIndex.RouteTries.StoreCongestion` | asp_routes.go:541-550 | The same for a congestion record |
| `StateIndex.RouteTries.Derive` | asp_routes.go:821-835 | The leaves read off a route's trie are those derived from the flat maps |
| `StatusDiff.StatusTree.NodeForRange` | asp_routes.go:1008-1025 | The arena node of a range: the arena stays a tree over the route with every label in place |
| `StatusDiff.DerivedStatusTree` | asp_routes.go:984-1006 | The arena lays out exactly the statuses of ranges inside the route |
| `StatusDiff.AppendIndications` | asp_routes.go:1027-1090 | Walking two arenas together emits an exact delta of the range: disjoint, on exactly the changed point codes, with the new status |
| `StatusDiff.DerivedStatusIndications` | asp_routes.go:960-982 | For any two maps of aligned ranges the emitted indications are disjoint, cover exactly the point codes of the route whose status changed and carry the new status |
| `StatusDiff.DeltaExists` | asp_routes.go:1027-1090 | For any two maps of aligned ranges and any aligned range an exact delta exists |
| `StatusDiff.AppliedDelta` | asp_routes.go:960-982 | Applying an exact delta to the old view gives the new view at every point code |
| `IndicationStream.DeltaEdges` | asp_routes.go:1100-1123 | A delta pauses a point code exactly when it became unavailable, resumes it exactly when it ceased to be, and does neither otherwise |
| `IndicationStream.PauseResumeAlternate` | asp_routes.go:960-1123 | Over any run of recomputations each point code that starts unavailable is told MTP-RESUME and MTP-PAUSE in turn, MTP-RESUME first |
| `IndicationStream.ReplayYieldsLast` | asp_routes.go:960-1123 | Replaying all deltas in order from the first view yields the last view |
| `RouteInvariants.InitialInv` | asp_routes.go:170-177 | A new registry satisfies the invariant: unavailable everywhere, which is what the scan of no records reads |
| `RouteInvariants.AttachInv` | asp_routes.go:194-225 | Attaching keeps records, counters, limits and leaves in order |
| `RouteInvariants.DetachInv` | asp_routes.go:227-264 | Detaching keeps them too, with the last association of a gateway or with another left |
| `RouteInvariants.StateChangedInv` | asp_routes.go:565-586 | A noted eligibility change keeps them |
| `RouteInvariants.ReclaimStore` | asp_routes.go:342-355 | Reclaiming a gateway leaves exactly the other gateways' records, with counters that equal a recount within the limits |
| `RouteInvariants.RecomputeUpdates` | asp_routes.go:793-811 | A recomputed route reflects the present capability; another keeps what it used |
| `RouteReports.AdvanceIsNewer` | asp_routes.go:478-482 | The next sequence number, wrapped or not, is newer than every stored one and below 2^64, and taking it changes no answer |
| `RouteReports.WriteOneKeeps` | asp_routes.go:476-510 | One write keeps the store in order and counts one record exactly when the key is new |
| `RouteReports.RefusedExactly` | asp_routes.go:437-474 | A report is refused exactly when the records it would add take a route, a gateway or the Endpoint over its limit |
| `RouteReports.EndpointNeverRefuses` | asp_config.go:484-499 | With every gateway's share reserved the Endpoint limit never refuses a report |
| `RouteReports.RefusedByOwnLimits` | asp_routes.go:435-474 | A report of an attached association is refused exactly by the limits of its own gateway, and a refused report changes nothing |
| `RouteReports.RefusalIsOwn` | asp_routes.go:435-474 | Whether a gateway's report is accepted depends on that gateway's own records alone |
| `RouteReports.AcceptedWritesAll` | asp_routes.go:476-514 | An accepted report writes every key; every point code of the reported ranges reads the reported value and no other reading changes |
| `RouteReports.WriteAllKeeps` | asp_routes.go:476-510 | Along a report's writes the records stay sound and the counters grow by exactly the new keys |
| `RouteReports.ReportInv` | asp_routes.go:392-515 | A report keeps the whole invariant, however long ago its keys were resolved |
| `RouteRuns.EveryRunReads` | asp_routes.go:392-515 | In every reachable state each route's leaves partition it and read the naive scan of the records, for the capability the route was last derived with |
| `RouteCoherence.CoherentStep` | asp_routes.go:563-586 | An event that derives a route leaves it derived with the capability noted exactly when, before the event, the gateways that can carry it through other associations were those noted; an event that does not derive it changes neither side |
| `RouteCoherence.EveryRunCoherent` | asp_routes.go:563-586 | In every reachable state a route was derived with the capability noted now exactly when that guard held at the last event that derived it |
| `RouteCoherence.CurrentExactly` | asp_routes.go:194-331 | Once every change has been noted, a route's leaves were derived with the gateways that can carry it now if and only if the guard held when it was derived last |
| `RouteCoherence.GuardedRunsAreCurrent` | asp_routes.go:563-586 | Every point code of such a route reads the naive scan over the gateways that can carry it now |
| `RouteCoherence.PromptRunsAreCurrent` | asp_routes.go:565-586 | When eligibility changes are noted as they happen, every point code reads the naive scan over the gateways that can carry the route now |
| `RouteCoherence.LateNote` | asp_routes.go:565-586 | When a change is used by a report and undone before it is noted, the leaves keep naming a gateway that no longer carries the route, although everything has been noted |
| `RouteCoherence.StaleAfterRace` | asp_routes.go:565-586 | A concrete run that ends with a route available that nothing can carry |
| `RouteRuns.DetachReclaims` | asp_routes.go:227-264 | A detach keeps every record of another gateway and of one still attached, unchanged, and none of a gateway whose last association left |
| `RouteRuns.EveryRunCounts` | asp_routes.go:342-377 | In every reachable state each record belongs to an attached gateway and a route it carries, and the three counters equal a recount within their limits |
| `RouteRuns.EveryRunHasRoom` | asp_routes.go:435-474 | In no reachable state is a report refused for the Endpoint's limit |
| `RouteRuns.EveryRunAnnounces` | asp_routes.go:960-982 | Every run has announcements: some indications are an exact delta of each event's change to a route |
| `RouteRuns.RunAlternates` | asp_routes.go:170-177 | Over every run of the registry, however its changes are announced by exact deltas, each point code is resumed and paused in turn, MTP-RESUME first, and replaying what it was told gives its status |
| `IndicationQueue.PointNext` | asp_routes.go:1155-1182 | Every step of publisher or reader keeps, for each point code, that what is still to come ends in the present status or a snapshot is due |
| `IndicationQueue.ReaderConverges` | asp_routes.go:743-763 | In every interleaving, once no batch is in progress, the queue is empty and no marker is unresolved, the replaying reader's view is the derived status |
| `IndicationQueue.LossIsMarked` | asp_routes.go:1155-1182 | A delta is lost only while the resync marker stands unread or is about to be put into the emptied queue |
| `IndicationQueue.MarkerIsRead` | asp_routes.go:1155-1182 | The marker leaves the queue only by being read, and then the reader reads nothing before its snapshot |
| `IndicationQueue.IndicationQueue.PublishOne` | asp_routes.go:1155-1182 | Publishing one indication: the pending marker, the free slot, or the drained queue with a marker |
| `IndicationQueue.IndicationQueue.Publish` | asp_routes.go:1135-1144 | Publishing a list is publishing each in order |
| `IndicationQueue.UndisturbedPublish` | asp_routes.go:1155-1182 | Undisturbed by the reader, the publisher's single steps do what the method does |
| `IndicationQueue.BatchExtends` | asp_routes.go:1135-1144 | Adding one route's exact delta to a batch keeps it an exact delta of all routes |
| `RouteCapability.SignallingGatewayAttached` | asp_routes.go:333-340 | The loop over the identity index finds an attached association of the gateway exactly when there is one |
| `RouteCapability.RouteCapability` | asp_routes.go:1226-1252 | The loop over a gateway's SGPs tells whether one serves the route and whether an attached association can carry it now |
| `RouteCapability.GatewaySnapshots` | asp_routes.go:838-850 | The snapshots are the configured gateways of the route in order, each with its present capability |
| `RouteCapability.CapableByProcess` | asp_routes.go:1226-1252 | A gateway is capable exactly when one of its SGPs that serve the route has an attached association that can carry it |
| `RecordStore.SortedByAge` | asp_routes.go:594-601 | The keys come out oldest first, each once |
| `RecordStore.RecordStore.RenumberRecords` | asp_routes.go:588-629 | Both maps and the tries are renumbered in place by age |
| `RecordStore.RecordStore.WriteKey` | asp_routes.go:476-510 | Writing one key updates map, trie, sequence number and counters together |
| `RecordStore.RecordStore.Admit` | asp_routes.go:435-474 | The limit loop decides as the limits over the whole report do |
| `RecordStore.RecordStore.Write` | asp_routes.go:476-510 | The writing loop does the report's writes in order |
| `RecordStore.RecordStore.RebuildAccounting` | asp_routes.go:357-367 | The rebuilt counters are a recount of the records |
| `RecordStore.RecordStore.RebuildIndex` | asp_routes.go:379-390 | The rebuilt tries mirror the flat maps |
| `RecordStore.RecordStore.ReclaimGateway` | asp_routes.go:342-355 | Reclaiming removes exactly the gateway's records and rebuilds counters and tries |
| `AspRoutes.AspRoutes.constructor` | asp_routes.go:143-179 | A new registry: every route unavailable as one leaf, an empty queue |
| `AspRoutes.AspRoutes.Recompute` | asp_routes.go:793-811 | The recompute loop replaces exactly the affected routes' leaves and tells the exact delta |
| `AspRoutes.AspRoutes.DeriveRoute` | asp_routes.go:813-836 | One route's leaves from its trie and the present capability |
| `AspRoutes.AspRoutes.Attach` | asp_routes.go:194-225 | Attach does what the state specification says, refuses an unprovisioned SGP, keeps the invariant and publishes the exact delta of the leaves |
| `AspRoutes.AspRoutes.Detach` | asp_routes.go:227-264 | Detach the same, reclaiming the gateway of a last association |
| `AspRoutes.AspRoutes.AssociationStateChanged` | asp_routes.go:565-586 | An eligibility change the same, recomputing only the routes whose eligibility changed |
| `AspRoutes.AspRoutes.Apply` | asp_routes.go:427-515 | A report whose ranges were resolved earlier is ignored when the association left or changed identity, refused whole, or written whole and published |
| `AspRoutes.AspRoutes.ChangedRoutes` | asp_routes.go:315-331 | The routes in exactly one of two eligible sets |
| `AspRoutes.AspRoutes.EligibleRoutes` | asp_routes.go:266-281 | The routes of the identity's SGP that the association can carry now |
| `DestinationStatus.StatusOfRange` | asp_routes.go:705-729 | The status of an aligned range is known exactly when the range lies in the route and all its point codes read alike, and is then theirs |
| `DestinationStatus.AgreementIsPointwise` | asp_routes.go:705-729 | In a partition, leaves that meet a range agree exactly when its point codes do |
| `ReportRanges.ScopeMatches.RoutesFor` | asp_routes.go:1360-1384 | The memo by wire scope answers what the filter over the SGP's routes answers |
| `ReportRanges.ReportRanges` | asp_routes.go:1296-1330 | The resolved keys are the report's route ranges in order, each once, with the routes they belong to |
| `ReportRanges.ResolvedIsValid` | asp_routes.go:1296-1330 | The resolved keys are distinct, of the SGP's own gateway, each an aligned part of a route the SGP serves |
| `ReportRanges.ResolvedCovers` | asp_routes.go:1296-1330 | A point code of a route is covered by the keys exactly when a status of the report, in a scope that carries the route, names it |
| `AsMachine.RecordStateMachine` | as.go:1467-1497 | Recording an ASP state keeps the machine invariant and is a transition of RFC 4666 section 4.3.2 |
| `AsMachine.MarkDownMachine` | as.go:1276-1291 | So does marking an ASP down |
| `AsMachine.MarkInactiveMachine` | as.go:1296-1318 | So does marking several inactive |
| `AsMachine.ActivateOverrideMachine` | as.go:1350-1383 | So does an Override activation |
| `AsMachine.RemoveMachine` | as.go:1386-1412 | So does removing an ASP |
| `AsMachine.OverrideLeavesOne` | as.go:1350-1383 | An Override activation leaves its challenger the only active ASP, whoever was active before |
| `AsMachine.ExpireMachine` | as.go:1816-1847 | A T(r) expiry changes nothing unless it belongs to the pending episode in force; then AS-PENDING ends in AS-INACTIVE exactly when an ASP is inactive, else in AS-DOWN |
| `AsMachine.CloseMachine` | as.go:1320-1344 | A close ends in AS-DOWN |
| `AsMachine.FreshTimer` | as.go:1793-1800 | Entering AS-PENDING arms a timer of a generation no earlier episode had |
| `ServerRuns.EveryRunIsMachine` | as.go:1593-1650 | In every reachable state AS-ACTIVE has an active ASP, AS-PENDING has none and an armed T(r) of its own episode |
| `ServerRuns.EveryStepIsTransition` | as.go:1593-1650 | AS-ACTIVE is left only to AS-PENDING until a close, start-up reaches AS-ACTIVE only with n active ASPs or a smooth start, and an expiry acts only on the episode that armed it |
| `ServerRuns.NoMessageAcceptedTwice` | distribution.go:524-593 | In every interleaving no association accepts the same message twice, in any mode and across all retries |
| `ServerRuns.DoneOwesNobody` | distribution.go:719-753 | A drained Broadcast message is done with only when each target of its first attempt accepted it or left ASP-ACTIVE |
| `ExpiredItems.ExpiredNeverReturns` | distribution.go:741-753 | A message on the wire when T(r) expired or the Application Server closed never enters the queue again |
| `ExpiredItems.GivenUpOnlyExpired` | distribution.go:741-753 | A failed drained message is given up exactly when its generation expired or the Application Server closed; otherwise it is back at the head of the queue |
| `MessageBudget.StepBalances` | distribution.go:405-468 | Every step changes the budget's message count by as much as what its Application Server retains |
| `MessageBudget.BudgetCountsMessages` | as.go:209-235 | In every interleaving the budget's message count is the sum over all Application Servers of queue, drained message on the wire, active-send slot and discarded messages not yet given back |
| `OrderlyDelivery.CleanRunsAreOrderly` | distribution.go:381-509 | In every run whose effective T(r) expiries find no drain under way: a drain and an active send are never in flight together, first attempts follow acceptance order, bytes equal queue plus in-flight message, and the budget's bytes are the sum over all |
| `OrderlyDelivery.CleanRunsDoNotPanic` | distribution.go:806-813 | In such a run no accounting panic is reachable |
| `ExpiryGuard.ExpiryPanicsExactly` | as.go:1816-1847 | At any state reached by such a run, and with room for two messages, an effective T(r) expiry can be followed by an accounting panic, through steps whose own expiries find no drain, if and only if it finds `draining` true |
| `PanicPath.DirtyPanics` | distribution.go:687-813 | Whatever drain the expiry found, on the wire or about to pop, for every policy, mode and membership: a sender and the drain can overlap, and a second expiry then gives the sender's octets back twice |
| `PanicPath.Quench` | as.go:1320-1344 | Any orderly Application Server can close, finish what is on the wire and give back all it holds |
| `PanicRun.PanicReachable` | as.go:1834-1842 | The panic is reachable from a new system: one Application Server and one ASP suffice |
| `BroadcastMarkers.UnmarkedReachesSynced` | distribution.go:546-590 | In every nonzero Broadcast epoch a first attempt left unmarked goes only to ASPs that each accepted a marked message of the flow since their latest activation, also after the flow cache was cleared |
| `BroadcastMarkers.StepMarkers` | distribution.go:664-673 | Every step keeps a flow tagged only in the present epoch and only when every active ASP has had its marker |
| `ApplicationServer.RecoveryBudget.Claim` | as.go:209-221 | A claim is granted exactly when a message and its bytes fit, and then counts them |
| `ApplicationServer.RecoveryBudget.Release` | as.go:223-235 | A release gives back messages and bytes and panics exactly when a count went below zero |
| `ApplicationServer.CountMembers` | as.go:1600-1608 | The loop counts the active and the inactive members |
| `ApplicationServer.Sorted` | as.go:1941-1947 | The distribution order: by ASP Identifier, then by joining, each active member once |
| `ApplicationServer.ApplicationServer.RebuildActive` | as.go:1927-1949 | The distribution order lists exactly the active members, and joining order is kept for those who have one |
| `ApplicationServer.ApplicationServer.Recompute` | as.go:1593-1650 | The recomputation derives the AS state from the members and starts or stops T(r) with it |
| `ApplicationServer.ApplicationServer.RecordASPState` | as.go:1467-1497 | The method does what its specification says, keeps the machine invariant and reports whether the caller starts the drain |
| `ApplicationServer.ApplicationServer.MarkASPDown` | as.go:1276-1291 | The same, and reports whether the association was a member |
| `ApplicationServer.ApplicationServer.MarkASPsInactive` | as.go:1296-1318 | The same for several associations at once |
| `ApplicationServer.ApplicationServer.ActivateOverride` | as.go:1350-1383 | The same, and returns exactly the ASPs displaced |
| `ApplicationServer.ApplicationServer.RemoveASP` | as.go:1386-1412 | The same for a removal |
| `ApplicationServer.ApplicationServer.Close` | as.go:1320-1344 | Closing discards the queue and owes the budget its messages and bytes but those in flight |
| `ApplicationServer.ApplicationServer.RecoveryExpired` | as.go:1816-1847 | An expiry of another generation or outside AS-PENDING changes nothing; an effective one discards the queue and remembers its generation |
| `ApplicationServer.ApplicationServer.SetTrafficMode` | as.go:1553-1563 | The mode is set once; Override only with n = 1; Broadcast with an active ASP starts an epoch |
| `ApplicationServer.ApplicationServer.EnqueueRecovery` | distribution.go:473-497 | A message is queued with its generation exactly when message, byte and shared limits allow, and may start the drain |
| `ApplicationServer.ApplicationServer.BeginDistribute` | distribution.go:381-412 | The first critical section: closed, no active ASP, full, queued, or the active-send slot |
| `ApplicationServer.ApplicationServer.ResumeSend` | distribution.go:416-453 | With the barrier held: the message is dropped, requeued at the head, or delivered |
| `ApplicationServer.ApplicationServer.EndSend` | distribution.go:455-469 | After the write the slot is free, its bytes are given back, and a waiting queue starts the drain |
| `ApplicationServer.ApplicationServer.FinishDeliveryItem` | distribution.go:806-813 | Finishing clears the in-flight size, and the result says when the source panics |
| `ApplicationServer.ApplicationServer.PopForDrain` | distribution.go:687-710 | The drain takes the head of the queue or exits |
| `ApplicationServer.ApplicationServer.EndFailedDrain` | distribution.go:741-764 | A failed message goes back to the head, restamped while pending, or is given up |
| `ApplicationServer.ApplicationServer.RetryTimerFires` | distribution.go:781-791 | The retry timer starts a drain exactly when an active AS has a queue and nothing is sending |
| `ApplicationServer.ApplicationServer.SelectTargets` | distribution.go:634-649 | The targets by traffic mode or the still active failed ones of a Broadcast retry, with the marker when the flow needs it |
| `ApplicationServer.ApplicationServer.CommitFlowMarker` | distribution.go:575-591 | The flow is tagged in its epoch, after clearing the cache at its limit |
| `DeliveryBarrier.StepKeeps` | dataadmission.go:158-237 | Every step keeps: after withdrawal from an Application Server nobody holding its barrier can still write, and no DATA is written while a Down Ack stands |
| `DeliveryBarrier.NoDataAfterDownAck` | aspsm.go:344-362 | In every interleaving of direct writes, distributions, drains and late restatements, a new ASP Up included, between an ASP Down Ack and a later DATA to that association there is an activation |
| `ActiveScope.ActivatingAdds` | association.go:2911-2937 | Activating adds the named Application Servers to the active set, and naming none means all configured |
| `ActiveScope.DeactivatingSubtracts` | association.go:2991-3018 | Deactivating or being overridden subtracts the named ones, and naming none leaves none |
| `ActiveScope.RegisteringChanges` | association.go:2189-2211 | Registering a Routing Context changes the active set exactly when the record is unscoped and the Routing Context is configured statically but not yet registered; a fresh one stays inactive |
| `ActiveScope.DeregisteringRemoves` | association.go:2229-2242 | Deregistering an inactive Routing Context leaves the other Application Servers as they were |
| `ActiveScope.RecordIsPlainSet` | association.go:2911-3043 | From an ASP Active until the association leaves ASP-ACTIVE the compact record stands for the plain set after every step exactly when no registration is mistaken for a fresh one |
| `ActiveScope.StaticRegistrationDeactivates` | association.go:2196-2202 | A concrete run in which registering a configured Routing Context deactivates it |
| `ActiveScope.ActiveRecord.NoteRoutingContextsActive` | association.go:2911-2937 | The method does what its specification says, materializing an unscoped record first |
| `ActiveScope.ActiveRecord.NoteRoutingContextsInactive` | association.go:2991-3018 | The same for standing down |
| `ActiveScope.ActiveRecord.NoteRoutingContextsOverridden` | association.go:2860-2885 | The same for an Alternate ASP Active at an IPSP in Single Exchange |
| `ActiveScope.ActiveRecord.MaterializeUnscoped` | association.go:3031-3043 | The record becomes the explicit set of what was active |
| `ActiveScope.ActiveRecord.AddDynamicASKey` | association.go:2189-2211 | The registration at an SGP or IPSP |
| `ActiveScope.ActiveRecord.ActiveForASKey` | association.go:3071-3090 | The membership query reads the record |
| `StateHistory.HistoryIsExact` | association.go:3303-3350 | In every interleaving, until an overflow or the start of teardown, what was read, the channel and the pending list are exactly the committed edges since the subscription; consecutive edges differ and the last is the current state |
| `StateHistory.OnlyCommitsOverflow` | association.go:3319-3330 | A flush never overflows: only recording an edge that finds sixteen undelivered ones does |
| `StateHistory.TeardownDeliversAll` | association.go:1663-1695 | Through teardown a subscriber that kept up finds every committed edge before the channel closes, ASP-DOWN last |
| `StateHistory.FlushMoves` | association.go:3336-3350 | Within the bound a flush moves the whole pending list to the channel in order |
| `StateHistory.CommittedState.RecordStateChange` | association.go:3319-3330 | Recording appends the edge or starts the overflow teardown |
| `StateHistory.CommittedState.FlushStateChanges` | association.go:3336-3350 | The flush loop delivers the pending edges one by one |
| `StateHistory.CommittedState.CommitStateGuarded` | fsm.go:616-650 | A commit is refused after teardown started and for an override of ASP-DOWN; otherwise it sets the state and records an edge exactly when it changed |
| `StateHistory.CommittedState.ApplyStateUpdate` | fsm.go:191-226 | The update tells whether it is an entry, and from which state, by what was last applied |
| `StateHistory.CommittedState.ApplyPublishedStateUpdate` | fsm.go:170-189 | A publication flushes the history even when it is stale, and is applied exactly when the state is still the published one |
| `MembershipScope.InConfiguredKeys` | association.go:2004-2022 | Membership in the list form, whatever order the registry is walked in |
| `MembershipScope.ConfiguredASKeys` | association.go:2004-2022 | The list of configured Application Servers, built by the loops |
| `MembershipScope.ConfiguredASKeysContain` | association.go:2034-2067 | The allocation-free form answers exactly whether the key is in the list, for every configuration, authorization and registry |
| `MembershipScope.StaticRoutingContextMembership` | association.go:2074-2101 | The explicit emptiness, the number and the membership of the static Routing Contexts |
| `MembershipScope.DataRoutingContextScope` | association.go:1907-1957 | The distinct count capped at two, the value when there is one, and membership, as the list form has them |
| `MembershipScope.AppendRoutingContexts` | association.go:2169-2187 | The concatenation without repeats, first occurrences kept |
| `MembershipScope.AsKeysForRoutingContexts` | association.go:2141-2167 | The registered or configured key of each Routing Context, each once |
| `MembershipScope.AsConfigNetworkAppearance` | applicationservers.go:79-95 | The Network Appearance all entries share, or none |
| `MembershipScope.AsConfigASKeyFor` | applicationservers.go:49-56 | The first entry that declares the Routing Context |
| `MembershipScope.AsConfigContextlessASKey` | applicationservers.go:61-71 | The first contextless entry; an empty inventory is one |
| `RouteCandidates.ReplayCollects` | asp_config.go:904-930 | What recording leaves an SGP is the recorded candidates it serves, in order |
| `RouteCandidates.OrderIsCarried` | asp_config.go:904-930 | An SGP's route order is the configuration order of the routes it serves any candidate of |
| `RouteCandidates.TableIsExact` | asp_config.go:856-930 | Recording every route in turn leaves each SGP exactly the order-preserving subsequence of the route's flattened path candidates it serves |
| `RouteCandidates.InServed` | asp_config.go:904-930 | A candidate is in an SGP's subsequence exactly when the route has it through that gateway and the SGP serves it |
| `RoutingInventory.CompiledIsExact` | asp_config.go:655-930 | After a successful compile every SGP's lists and order are exact, and every candidate of every route is in the list of some SGP |
| `RoutingInventory.EveryRouteCarried` | asp_config.go:829-930 | Every compiled route is carried by some SGP |
| `RoutingInventory.CompileSGPApplicationServers` | asp_config.go:545-653 | An SGP compiles exactly when it serves at least one Application Server and all are named, distinct and validly bound; the index by name is the inverse of the list |
| `RoutingInventory.Inventory.CompilePeerInventory` | asp_config.go:503-543 | Accepted exactly when gateways and SGPs are named and distinct, every gateway has an SGP and every SGP compiles; the gateway table mirrors the configuration and the map by identity holds exactly its SGPs |
| `RoutingInventory.LabelAccepted` | asp_config.go:698-712 | A routing label is accepted exactly when its Destination Point Code is an aligned prefix of at most 24 bits and its Service Indicators and Originating Point Codes are distinct, the latter within 24 bits |
| `RoutingInventory.Inventory.CompileMTPRoutes` | asp_config.go:689-727 | Accepted exactly when the routes are named, distinct, labelled acceptably and name a path; then the routes in configuration order, distinct, with the index by name their inverse |
| `RoutingInventory.Inventory.CompileRoutePaths` | asp_config.go:756-800 | Accepted exactly when there is a path, all are named and distinct, and each names a provisioned gateway and distinct Application Servers that some SGP of it serves; the compiled map holds exactly the configured paths |
| `RoutingInventory.Inventory.RecordSGPRouteCandidate` | asp_config.go:904-930 | Every SGP of the gateway that serves the candidate gets it, in the table and by identity alike |
| `RoutingInventory.Inventory.BindOneMTPRoutePaths` | asp_config.go:856-900 | A route binds exactly when its paths are provisioned and distinct and no Application Server is reached twice through a gateway; its gateways come in first-reached order, each with its candidates in order |
| `RoutingInventory.Inventory.BindMTPRoutePaths` | asp_config.go:829-854 | Accepted exactly when every route binds, through gateways with a selection mode, and every path is referenced; then all routes are bound in order |
| `RoutingInventory.Inventory.ApplySGPSelection` | asp_config.go:729-747 | Accepted exactly when every configured selection names a provisioned gateway and a supported mode |
| `RoutingInventory.Inventory.SnapshotASPConfig` | asp_config.go:418-433 | The whole compile is accepted exactly when the limits, the peers and the routing are; then: exact candidate lists and route order, no Application Server of a gateway twice in a route, every candidate served by some SGP, both views of the SGPs equal |
| `RoutingInventory.ReservationsFit` | asp_config.go:435-501 | Accepted limits reserve at least one record for each gateway and all reservations fit the Endpoint limit; reservations that do not fit are refused |
| `ProvisionedState.ListsWhatItCarries` | asp_config.go:904-930 | A compiled SGP lists exactly the routes it has a candidate for, all of them configured |
| `ProvisionedState.AcceptedIsValid` | asp_config.go:418-543 | Every configuration the compile accepts meets what the route state asks of one: distinct aligned routes, each carried; distinct gateways and SGPs listing configured routes only; reservations that fit, below half the sequence numbers |
| `ProvisionedState.CompileForState` | asp_config.go:418-433 | The compile run on a new inventory: when it accepts, the route state may run on what it left |
| `ProvisionedState.IdentityFinds` | asp_config.go:503-543 | The route state's lookup of an identity gives the routes of the compiled map by identity |
| `ProvisionedState.AcceptedNeverRefuses` | asp_config.go:484-499 | In no run of an accepted configuration is a report refused for the Endpoint's limit |
| `DataFrame.ParamsRoundTrip` | datatransfer.go:246-300 | Parsing undoes the parameter encoding of RFC 4666 section 3.2, padding included, for every list of parameters |
| `DataFrame.FrameRoundTrip` | datatransfer.go:246-308 | For every payload up to the bound, decoding the frame by RFC 4666 sections 3.1, 3.2 and 3.3.1 returns the present parameters, the routing label and the payload |
| `DataFrame.HeaderOf` | datatransfer.go:257-269 | The header's length is the buffer's, a multiple of four and not truncated |
| `DataFrame.BoundIsExact` | datatransfer.go:66-68 | The 16-bit length of Protocol Data is not truncated exactly when the payload is within the bound |
| `DataFrame.FramesAreUnambiguous` | datatransfer.go:246-308 | Requests with the same octets on the wire carry the same message |
| `DataFrame.EncodeDataFrame` | datatransfer.go:246-300 | The encoder fills its one buffer with exactly the frame |
| `DataFrame.PutUint32Parameter` | datatransfer.go:303-308 | One 32-bit parameter overwrites eight octets and nothing else |
| `DataFrame.PrepareData` | datatransfer.go:111-151 | What passes the checks decodes to the request and goes out on a stream from 1 to the negotiated maximum; each of the five refusals is given exactly when its check is the first to fail |

## Left out

- AspRoutes.AspRoutes.SetLive: which routes an association can carry is an input that changes on its own; the candidate walk behind it (`eligibleCandidate`, `visitASKeys`) is not part of this model.
- AspRoutes.AspRoutes.Apply: the record of one report is resolved before the lock, as in the source; the limit errors carry no text.
- DestinationStatus.StatusOfRange: the per-gateway form (`signallingGatewayStatusLocked`) and the sorted listing are not modelled.
- IndicationQueue.ReaderConverges: `closeIndications` and the reader's own handling of a closed channel are not modelled.
- ApplicationServer.ApplicationServer.Recompute: Notify messages and their delivery order are not modelled.
- ApplicationServer.ApplicationServer.SelectTargets: Correlation Id allocation, the copy of the message for each target and a payload that does not parse are not modelled.
- ApplicationServer.ApplicationServer.RetryTimerFires: the doubling retry delay is not modelled; the timer may fire at any moment.
- Distribution.Step: one step of an interleaving, not an operation of the source; registry operations over several Application Servers are one step for each.
- DeliveryBarrier.NoDataAfterDownAck: removal and deregistration of an active member, a closed Application Server or Endpoint, an association without a registry and a caller that restates an unguarded state are not modelled; the ASP Inactive form of the property is not stated, because the late restatement is not guarded against it.
- ActiveScope.RecordIsPlainSet: the peer-direction record of an SGP or IPSP; the acknowledged-context record of an ASP (`noteRoutingContextsAcked`) is not modelled, and `overriddenRCs`, key versions and per-key traffic modes are left out.
- StateHistory.HistoryIsExact: the entry actions that follow an update, and the management indications that share the overflow flag, are not modelled; a read between two sends of one flush is the read after the flush.
- MembershipScope.ConfiguredASKeysContain: the two locks are taken one after the other in the source; the model answers for one moment.
- ExpiryGuard.ExpiryPanicsExactly: without room for a second message the panic may be out of reach, and the exact bound is not stated for that case.
- RouteRuns.EveryRunAnnounces: an exact delta of one event is not unique; the one the loops emit is that of StatusDiff.DerivedStatusIndications.
- RoutingInventory.Inventory.SnapshotASPConfig: the checks of wire bindings are inputs (`bindingValid`), and selection modes, the congestion policy and the flow cache size are not carried over.
- DataFrame.PrepareData: the context's cancellation, the admission of the Application Server scope and the transport write with its outcome classes follow the model's end; the two-bit test of the Network Indicator is that of ITU-T Q.704, its own source is not part of this model.
- SCTP sockets, dialling, listening, buffer and timeout settings: I/O and kernel behaviour.
- T(ack), Routing Key Management procedures, the SSNM store, MTP-TRANSFER selection and transfer-flow caches: not part of this model; `syncSSNMBindings` and `lockASPTransferMutation` are taken to do nothing here.
- Heartbeat, compatibility policy, Layer Management descriptions, logging and error texts: plumbing.
- Configuration checks that only reject bad fields: easy members.
