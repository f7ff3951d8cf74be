# Verification of the inference scheduler

This project models the hard core of the llm-d inference scheduler in Dafny and proves what its components promise.
`dafny verify dfyconfig.toml` checks all of it.

The scheduler is an endpoint picker: it receives requests from Envoy over an external-processing stream, queues them
per flow and priority under capacity limits, dispatches them to model servers, evicts them when needed, and passes
responses back. The model follows the parts where many goroutines share state or where one structure must agree with
another:

- **Flow registry.** Leases on flows and priority bands (`Leasing`, `LeaseProtocol`, `DroppedKeys`), queue statistics
  added up over four levels by separate atomic additions (`ManagedQueues`, `StatsProtocol`, `BandDrops`), admission under
  capacity limits (`Capacity`), the topology of bands and flows under garbage collection (`Topology`, `FlowRegistries`),
  and both together (`RegistryRuns`).
- **Flow control.** The life of an item between controller and processor (`FlowItems`, `ItemProtocol`), the requests
  that create items (`RequestProtocol`), what decides their outcome (`Verdicts`), the dispatch cycle
  (`Dispatch`) and the shutdown with its counters (`ShutdownEnds`, `ShutdownProtocol`).
- **Eviction.** The indexed heap (`EvictionHeap`, `EvictionQueues`), the eviction loop (`Evictors`) and its channels
  under concurrency (`EvictionProtocol`).
- **Data dependencies.** Cycle detection and plugin order (`Graphs`, `TopologicalSorts`, `DataGraphs`).
- **Streams.** The external-processing stream (`Streams`, `StreamingServers`), what a run of messages
  comes to (`ResponseBytes`, `Exchanges`, `StreamOutcomes`), the asynchronous response-body queues
  (`BodyQueues`) and the body chunks (`Chunking`).
- **Sidecar.** The buffered writer and the streaming decode attempt (`BufferedWriters`, `WriterProtocol`).
- **Datastore.** Model rewrite rules (`RewriteStores`), endpoint names and the resync of endpoints (`EndpointNames`,
  `Datastores`).
- **Arithmetic.** Capacity shares (`Partitions`) and weighted choice (`WeightedModels`).

Objects that the program updates in place are classes whose methods are proved against functions on values. Concurrent
protocols are state machines: every shared access or critical section is one step, a run is any sequence of enabled
steps, and the theorems hold for every run. Clocks, random numbers, map iteration orders, plugin answers, send
failures and the decisions of code outside the model are parameters.

Where the code does not keep a promise, the model keeps the code: a lemma gives a run on which the promise fails, and
another the exact condition under which it holds. This concerns

- the deletion of a key after failed provisioning: safe in all later runs exactly when the dropping goroutine is the
  key's only holder and the collector is not busy with the key (`DropKeyBreaksSharing`, `DropKeySafeExactlyWhenAlone`);
- a flow creator that stalls before it pins its band (`StalledCreatorLosesQueue`, `StalledCreatorIsCollected`,
  `TopologySoundExactlyWhenPaced`);
- a band that is dropped while its queues still need it (`AdditionMayFindNoBand`, `DropSafeExactlyWhenUnneeded`);
- items that are rejected and yet queued, which the documentation of the outcomes excludes: exactly those whose context
  ended before their admission (`RejectedItemMayBeQueued`, `QueuedAndRejectedExactlyWhenLate`);
- strict priority when the queue of a selected item goes away (`LostQueueInvertsPriority`, `StrictPriorityExact`);
- evictions under a reused request ID (`ReusedIDIsNotSignalled`, `GuardDecides`);
- type errors that depend on map order (`OrderDecides`, `PassesAlways`, `PassesSometimes`);
- a response whose request body has not ended (`UnfinishedRequestBodyIsAnswered`, `OwnBytesExactlyWhenRequestEnded`), and
  such a request (`LateRequestIsNotForwarded`, `ScheduledBodyIsForwarded`);
- informational statuses before a decode's answer (`EarlyHintHidesStatus`, `StatusIsTheDecodersExactly`);
- capacity shares of zero (`SharesAreLimits`).

## Model

| member | source | states |
|---|---|---|
| `LeaseProtocol.LeaseSafety` | pkg/epp/flowcontrol/registry/leasing.go:108-169 | over every interleaving of any number of pinners with the collector: a holder holds the object the map has for its key, unmarked; the count of an object is the number of its pins; a marked object has no lease; no object is reported as new twice; an object is handed out for cleanup, once, if and only if it has left the map; no pin is ever undone |
| `LeaseProtocol.MarkedForever` | pkg/epp/flowcontrol/registry/leasing.go:82-105 | from any reachable state, a marked object stays marked and without leases however the run goes on |
| `LeaseProtocol.PinFailsOnlyOnCondemned` | pkg/epp/flowcontrol/registry/leasing.go:136-169 | a pin is refused only on an object that the collector is deleting or that the map no longer has |
| `LeaseProtocol.UndisturbedPinCreates` | pkg/epp/flowcontrol/registry/leasing.go:136-169 | a pin of an absent key that nobody disturbs creates the object, holds it with one lease and is told so |
| `LeaseProtocol.HolderReleases` | pkg/epp/flowcontrol/registry/leasing.go:57-64 | after any run a holder can release: the count falls to the number of the other pins, and the last release dates the idleness |
| `LeaseProtocol.RefusedPinStartsOver` | pkg/epp/flowcontrol/registry/leasing.go:136-169 | a goroutine refused on a condemned object that has left the map starts over and holds a new object |
| `LeaseProtocol.UndisturbedCollection` | pkg/epp/flowcontrol/registry/leasing.go:108-131 | a collector that nobody disturbs marks an object idle for the timeout, takes it out of the map and hands it out |
| `DroppedKeys.DropKeySafeExactlyWhenAlone` | pkg/epp/flowcontrol/registry/registry.go:204-228 | after any run, a goroutine whose provisioning failed drops its key behind the collector's back and keeps only its deferred release: in every later run without another drop all holders stay safe if and only if no other goroutine holds the key and the collector is neither visiting nor deleting it |
| `DroppedKeys.DropKeyBreaksSharing` | pkg/epp/flowcontrol/registry/registry.go:204-228 | a concrete run in which two goroutines share a flow, one drops the key, a third creates it anew, and two goroutines hold different objects for one key |
| `DroppedKeys.VisitorDeletesTheSuccessor` | pkg/epp/flowcontrol/registry/leasing.go:108-131 | a collector that was visiting the key at the drop can still condemn the dropped object, and its deletion by key then takes the object created and held since |
| `Leasing.LeasedState.TryPin` | pkg/epp/flowcontrol/registry/leasing.go:45-54 | succeeds exactly on an unmarked resource, takes a lease and clears the idle stamp |
| `Leasing.LeasedState.Unpin` | pkg/epp/flowcontrol/registry/leasing.go:57-64 | gives a lease back; the last one dates the idleness |
| `Leasing.LeasedState.CheckAndMarkForDeletion` | pkg/epp/flowcontrol/registry/leasing.go:82-105 | marks exactly an expired resource, and otherwise repairs the idle stamp |
| `Leasing.StampDatesIdleness` | pkg/epp/flowcontrol/registry/leasing.go:45-105 | after any balanced history of calls, the stamp is the date of the call since which the resource has been idle, and of no other |
| `Leasing.ScanMarksExactlyTheExpired` | pkg/epp/flowcontrol/registry/leasing.go:82-105 | after any balanced history, a scan marks the resource if and only if its current idleness was dated at least the timeout ago |
| `ManagedQueues.ManagedQueue.Add` | pkg/epp/flowcontrol/registry/managedqueue.go:123-135 | appends the item under a new handle and moves the statistics of every level by its size; a draining queue is left alone |
| `ManagedQueues.ManagedQueue.Remove` | pkg/epp/flowcontrol/registry/managedqueue.go:138-149 | takes out exactly the item of that handle and moves every level by minus its size, or fails and changes nothing |
| `ManagedQueues.ManagedQueue.Cleanup` | pkg/epp/flowcontrol/registry/managedqueue.go:152-163 | takes out exactly the items the predicate selects, in order, and moves every level by minus their size |
| `ManagedQueues.ManagedQueue.Drain` | pkg/epp/flowcontrol/registry/managedqueue.go:166-177 | returns all items in order, leaves the queue empty, and moves every level by minus their size |
| `ManagedQueues.ManagedQueue.PropagateStatsDelta` | pkg/epp/flowcontrol/registry/managedqueue.go:195-204 | adds the delta to queue, band, shard, registry band and registry, each once |
| `ManagedQueues.ManagedQueue.DeltaOfRemoved` | pkg/epp/flowcontrol/registry/managedqueue.go:208-216 | the delta of a batch is minus its length and bytes |
| `ManagedQueues.ReportIsExact` | pkg/epp/flowcontrol/registry/managedqueue.go:123-177 | for every operation the reported delta is the change of the queue's length and bytes |
| `ManagedQueues.SelectSplits` | pkg/epp/flowcontrol/registry/managedqueue.go:152-163 | a cleanup splits the items into those taken and those kept, with nothing lost or doubled |
| `ManagedQueues.AdditionGoesToTheBack` | pkg/epp/flowcontrol/registry/managedqueue.go:123-135 | an addition goes to the back and moves nothing else |
| `ManagedQueues.SelectKeepsOrder` | pkg/epp/flowcontrol/registry/managedqueue.go:152-163 | what a cleanup takes and what it keeps stay in queue order, and it selects every item it is asked for |
| `ManagedQueues.RemovalsTakeExactly` | pkg/epp/flowcontrol/registry/managedqueue.go:138-163 | a cleanup takes out exactly the selected items, and a removal exactly that of its handle; all others stay |
| `StatsProtocol.CounterConservation` | pkg/epp/flowcontrol/registry/managedqueue.go:195-216 | over every run of adds, removals, cleanups, drains and band and flow changes whose dropped bands were not needed any more, with each atomic addition a step of its own: no counter is ever negative, and once the operations of its scope have finished, each of queue, band, shard and registry counts equals the sum over the items queued there |
| `ShutdownProtocol.ShutdownZeroesCounters` | pkg/epp/flowcontrol/controller/internal/processor.go:459-569 | the shutdown lists the queues while others come and go, drains each listed queue once and waits, testing nothing: in every run, from its end on, all queues are empty and every counter of every level is zero |
| `ShutdownProtocol.ShutdownCanEnd` | pkg/epp/flowcontrol/controller/internal/processor.go:485-569 | from every state that a run with harmless drops reaches between two admissions, all drains and operations can be finished and the shutdown completed |
| `BandDrops.DropSafeExactlyWhenUnneeded` | pkg/epp/flowcontrol/registry/shard.go:177-199 | bands are dropped without a look at their queues; after any run of harmless drops, one more leaves every later addition possible, in every continuation, if and only if all the band's queues are empty, none is still to report to a band, and the processor is not about to add to one |
| `BandDrops.AdditionMayFindNoBand` | pkg/epp/flowcontrol/registry/shard.go:370-380 | a concrete run in which an item is cleared, its band is dropped, and the propagation of its addition finds no band |
| `StatsProtocol.PropagationNeverFails` | pkg/epp/flowcontrol/registry/shard.go:370-380 | over every run with harmless drops a queue's propagation always finds its band at the shard and at the registry |
| `RegistryRuns.PacedRegistryNeverLosesABand` | pkg/epp/flowcontrol/registry/registry.go:390-430 | topology and statistics run together: when every collection step is paced and a flow is collected only once its queue is unused, every band the cycle drops is one its queues no longer need, so no addition ever finds its band missing and the counters are conserved |
| `RegistryRuns.RegistryOnlyWaitsForSnapshots` | pkg/epp/flowcontrol/registry/registry.go:377-430 | in such runs the queue of a collected flow is still empty and unlocked when the cycle comes to remove it; only a drop ever waits, for a statistics snapshot in progress |
| `StatsProtocol.DropFlowExact` | pkg/epp/flowcontrol/registry/shard.go:332-340 | removing a flow's queue that nobody works on, which the code does unchecked, keeps the counters right if and only if the queue is empty |
| `StatsProtocol.TickKeepsConserved` | pkg/epp/flowcontrol/registry/registry.go:509-516 | one atomic addition moves one counter by its part of the delta and keeps all sums right |
| `Capacity.CapacityIsNeverExceeded` | pkg/epp/flowcontrol/controller/internal/processor.go:218-309 | with the four counter loads of the check, the decision and the additions as separate steps, removals in between and bands dropped only when not needed any more, every state of every run keeps each nonzero limit of shard and band, for the contents and for the counters |
| `Capacity.ClearedStillFits` | pkg/epp/flowcontrol/controller/internal/processor.go:288-309 | what the check has loaded bounds what can be there, so a cleared item still fits when it is added |
| `Capacity.DecideExact` | pkg/epp/flowcontrol/controller/internal/processor.go:288-309 | the check clears an item if and only if each of the four limits is zero or leaves room for it on top of the loaded value, and rejects it otherwise |
| `Capacity.QuietCheckExact` | pkg/epp/flowcontrol/controller/internal/processor.go:258-309 | after any run with harmless drops, an item checked while no operation is under way is cleared if and only if the contents of shard and band with it would respect every limit |
| `Topology.TopologyOfEveryRun` | pkg/epp/flowcontrol/registry/registry.go:181-295 | over every run of connects, disconnects and collection cycles in which no unpinned creator is overtaken: configuration, statistics and shard know the same bands, the levels are that set in strictly descending order, a band's leases are its pinned flows, and every provisioned flow has its queue |
| `Topology.LeasesCountFlows` | pkg/epp/flowcontrol/registry/registry.go:346-430 | between collections, a band's lease count is the number of flows in the map at that priority, and a band with flows has a lease record |
| `Topology.CollectionIsTimed` | pkg/epp/flowcontrol/registry/leasing.go:82-131 | a collection step takes a flow or a band out if and only if its lease has been idle for the timeout |
| `Topology.FlowsHaveIDs` | pkg/epp/flowcontrol/registry/registry.go:181-184 | no run ever has a flow without an ID |
| `Topology.UninterruptedConnectsArePaced` | pkg/epp/flowcontrol/registry/registry.go:181-232 | every run is paced in which, between the creation of a flow and its creator's pin of the band, neither that flow is collected nor that band cleaned up, whatever else is interleaved |
| `Topology.TopologySoundExactlyWhenPaced` | pkg/epp/flowcontrol/registry/registry.go:346-430 | over every run, the topology invariant holds at every point if and only if every step of the run is paced |
| `Topology.CollectFlowExact` | pkg/epp/flowcontrol/registry/registry.go:353-374 | collecting a flow keeps the lease counts right if and only if its creator has pinned the band |
| `Topology.CleanBandExact` | pkg/epp/flowcontrol/registry/registry.go:390-430 | removing a collected band keeps the queues of all provisioned flows if and only if no flow there has an unpinned creator |
| `Topology.PacedBandHasNoLiveQueue` | pkg/epp/flowcontrol/registry/registry.go:409-430 | when a paced step removes a band, no provisioned flow has a queue there; a queue that is left belongs to a flow stored again and not yet pinned or provisioned by its creator |
| `Topology.StalledCreatorLosesQueue` | pkg/epp/flowcontrol/registry/registry.go:181-232 | a concrete run in which a creator stalls between storing a flow and pinning its band, and a connected flow loses its queue |
| `Topology.StalledCreatorIsCollected` | pkg/epp/flowcontrol/registry/registry.go:353-374 | a concrete run in which a creator stalls right after storing its flow, the flow is collected, and the band owes a lease that was never taken |
| `FlowRegistries.RegistryShard.InitPriorityBand` | pkg/epp/flowcontrol/registry/shard.go:144-157 | adds a band and, whatever the unstable sort does, inserts its level at its place in the strictly descending order |
| `FlowRegistries.RegistryShard.AddPriorityBand` | pkg/epp/flowcontrol/registry/shard.go:161-173 | adds a band once and does nothing for a known one |
| `FlowRegistries.RegistryShard.CutLevel` | pkg/epp/flowcontrol/registry/shard.go:177-199 | cuts the first occurrence of a level out of the listing |
| `FlowRegistries.RegistryShard.DeletePriorityBand` | pkg/epp/flowcontrol/registry/shard.go:177-199 | removes the band, its configuration and its level, and keeps the levels in order |
| `FlowRegistries.RegistryShard.SynchronizeFlow` | pkg/epp/flowcontrol/registry/shard.go:303-329 | adds the flow's queue to its band unless it is there |
| `FlowRegistries.SortedIsInsert` | pkg/epp/flowcontrol/registry/shard.go:144-157 | any non-increasing permutation of descending levels and a new one is the insertion of the new one |
| `FlowRegistries.FlowRegistry.EnsurePriorityBand` | pkg/epp/flowcontrol/registry/registry.go:269-295 | makes the band known to configuration, statistics and shard in one step, once |
| `FlowRegistries.FlowRegistry.EnsureFlowInfrastructure` | pkg/epp/flowcontrol/registry/registry.go:238-266 | provides the flow's queue on the shard |
| `FlowRegistries.FlowRegistry.CleanupFlowResources` | pkg/epp/flowcontrol/registry/registry.go:377-387 | removes the queues of exactly the collected flows |
| `FlowRegistries.FlowRegistry.CleanupPriorityBandResources` | pkg/epp/flowcontrol/registry/registry.go:409-430 | removes exactly the collected bands everywhere |
| `ItemProtocol.OutcomesAreProper` | pkg/epp/flowcontrol/controller/internal/item.go:121-198 | over every interleaving of controllers, processor, sweeps and shutdown: an item is signalled at most once, with its final state; the error is nil exactly for Dispatched, carries the rejection or eviction sentinel otherwise; only an admitted item is dispatched or evicted; a request returns its item's final state; an item is admitted and leaves its queue at most once |
| `ItemProtocol.NoItemIsLost` | pkg/epp/flowcontrol/controller/internal/processor.go:218-283 | over every run, an item that is out of the processor's hand, the channel and its queue is final, entered, or has its finalization waiting |
| `ItemProtocol.FinalIsNotAdmitted` | pkg/epp/flowcontrol/controller/internal/processor.go:236-244 | however a run goes on, an item that was final before the processor passed it is never admitted |
| `ItemProtocol.FinalStateIsForever` | pkg/epp/flowcontrol/controller/internal/item.go:143-170 | however a run goes on, a final state and its signal never change and no item moves back |
| `ItemProtocol.SweepTakesExactlyTheFinal` | pkg/epp/flowcontrol/controller/internal/processor.go:445-455 | a sweep takes exactly the finalized items out of the queue and touches nothing else |
| `ItemProtocol.ShutdownFinalizesAll` | pkg/epp/flowcontrol/controller/internal/processor.go:459-569 | the shutdown empties the channel, lists the queues and drains each listed one, testing nothing: afterwards no item is queued, because only the stopped processor queues any, and every item that was in the channel or a queue at the Stop step is final in a proper state |
| `ShutdownEnds.ShutdownCanEnd` | pkg/epp/flowcontrol/controller/internal/processor.go:459-569 | from every reachable state in which the processor is between two items, a shutdown can be carried to its end |
| `ShutdownEnds.RefusedReturns` | pkg/epp/flowcontrol/controller/controller.go:312-357 | a request whose item no processor takes returns with exactly that refusal |
| `ShutdownEnds.ExpiredReturns` | pkg/epp/flowcontrol/controller/controller.go:359-381 | a request whose context ends before anybody else finalized its item returns with the outcome inferred from the cause and from whether the item had been admitted |
| `ItemProtocol.ExpiryFollowsTheHandle` | pkg/epp/flowcontrol/controller/internal/item.go:121-136 | an expiry becomes an eviction if and only if the item has been admitted at that moment, and a rejection otherwise |
| `ItemProtocol.QueuedAndRejectedExactlyWhenLate` | pkg/epp/flowcontrol/controller/internal/processor.go:218-283 | over every run, a finalized item was admitted and yet rejected if and only if its context ended before its Admit step; otherwise an admitted item is dispatched or evicted, and one never admitted is rejected |
| `ItemProtocol.RejectedItemMayBeQueued` | pkg/epp/flowcontrol/controller/internal/processor.go:218-283 | a concrete run in which an item expires between the processor's check and its admission, and is rejected and yet queued |
| `Verdicts.FirstEntryDecides` | pkg/epp/flowcontrol/controller/internal/item.go:121-170 | over every run, an item's final state is read off the actions alone: it is the verdict of whoever first came to its once-only section (a refusal, an expiry judged by whether the item had been admitted, or the outcome that goes with what took the item away) |
| `Verdicts.DispatchedExactlyWhenTaken` | pkg/epp/flowcontrol/controller/internal/processor.go:399-420 | over every run, a finalized item is Dispatched, with a nil error, if and only if the processor took it out of its queue for dispatch and then came first to its once-only section; one drained by the shutdown and settled first is EvictedOther because the controller is not running |
| `Verdicts.TakenEndsDispatched` | pkg/epp/flowcontrol/controller/internal/processor.go:399-420 | an open item that is taken, settled and published ends Dispatched, and its request returns so |
| `FlowItems.InferOutcome` | pkg/epp/flowcontrol/controller/internal/item.go:174-198 | the inferred state is proper; an item is evicted for its time limit, or for cancellation, if and only if it was queued and the cause says so; one not queued is rejected |
| `FlowItems.InferredErrors` | pkg/epp/flowcontrol/controller/internal/item.go:174-198 | which sentinels the inferred error wraps: the class, and the time limit or the cause as it was |
| `FlowItems.FinalizedOnce` | pkg/epp/flowcontrol/controller/internal/item.go:143-170 | of any number of finalizations the first alone sets the state, and the channel carries it once |
| `FlowItems.FlowItem.Finalize` | pkg/epp/flowcontrol/controller/internal/item.go:128-136 | finalizes once, with the outcome inferred from the cause and the handle |
| `FlowItems.FlowItem.FinalizeWithOutcome` | pkg/epp/flowcontrol/controller/internal/item.go:143-147 | finalizes once, with the given outcome |
| `FlowItems.DistributeRequest` | pkg/epp/flowcontrol/controller/controller.go:456-479 | an accepted item goes to a least loaded candidate that accepts without blocking; if none does, the least loaded one decides |
| `FlowItems.TryDistribution` | pkg/epp/flowcontrol/controller/controller.go:312-357 | an item is placed if and only if a candidate accepts without blocking or the least loaded one by blocking; a placed one is untouched; one not placed is final, signalled once, with the state that the lack of shards, the context or the refusal calls for |
| `RequestProtocol.RequestOutcomesAreProper` | pkg/epp/flowcontrol/controller/controller.go:221-381 | requests over the item protocol (connect or be refused, create an item per attempt, await it, retry on a draining shard, stop with the controller): in every run an answered request has a proper outcome, never NotYetFinalized, with a nil error if and only if it is Dispatched; the answer is the registry's refusal, the controller's stop, or that of its last item, which did not come from a draining shard while all before it did |
| `RequestProtocol.DispatchedExactlyWhenTaken` | pkg/epp/flowcontrol/controller/controller.go:221-299 | over every run, an answered request is Dispatched if and only if the processor took one of its items for dispatch and came first to it |
| `RequestProtocol.UndisturbedRequestIsDispatched` | pkg/epp/flowcontrol/controller/controller.go:221-299 | a request whose flow has its queue, on an idle processor and undisturbed, is answered as Dispatched |
| `RequestProtocol.NoItemAfterTheStop` | pkg/epp/flowcontrol/controller/controller.go:258-263 | once the controller has stopped, no request creates another item |
| `RequestProtocol.ItemsHaveOneRequest` | pkg/epp/flowcontrol/controller/controller.go:312-330 | over every run no item serves two requests, or one request twice |
| `RequestProtocol.EnqueueAndWait` | pkg/epp/flowcontrol/controller/controller.go:221-299 | on items returned in any run of the item protocol the result is proper, and is that of the first turn that does not ask for a retry |
| `FlowItems.TranslateOutcome` | pkg/epp/requestcontrol/admission.go:216-236 | admission succeeds if and only if the outcome is Dispatched; which error codes stand for which outcomes, both ways |
| `Dispatch.ShardProcessor.DispatchCycle` | pkg/epp/flowcontrol/controller/internal/processor.go:322-420 | a dispatched item is the head of the queue the fairness policy picked at the level where the cycle ends, and the only change; for levels in descending order, saturation was below the ceiling of its level and all higher ones, and with a work-conserving policy no higher band held an item if and only if no higher selection lost its queue before the removal; an item that nothing blocks is dispatched, or one of higher priority is |
| `Dispatch.ShardProcessor.SelectItem` | pkg/epp/flowcontrol/controller/internal/processor.go:378-396 | the head of the queue the fairness policy picked, if any |
| `Dispatch.StrictPriorityExact` | pkg/epp/flowcontrol/controller/internal/processor.go:322-375 | the same about the level where a cycle ends: strict priority is kept if and only if no higher selection lost its queue |
| `Dispatch.LostQueueInvertsPriority` | pkg/epp/flowcontrol/controller/internal/processor.go:366-406 | a concrete cycle that passes over a higher item whose queue is gone and ends at a lower one |
| `Dispatch.SomeLevelEnds` | pkg/epp/flowcontrol/controller/internal/processor.go:322-375 | with a work-conserving policy, a level with an item that nothing at or above it blocks is where the cycle ends, or a higher one is |
| `EvictionQueues.EvictionQueue.Track` | pkg/epp/flowcontrol/eviction/queue.go:65-82 | keeps the indexed-heap invariant (heap order, every entry's index is its position, handles map exactly the heap's request IDs to their entries, the heap holds exactly the accepted tracked requests), replaces a request of the same ID, and gives the exact new heap |
| `EvictionQueues.EvictionQueue.Untrack` | pkg/epp/flowcontrol/eviction/queue.go:85-95 | keeps the invariant and removes exactly that request |
| `EvictionQueues.EvictionQueue.PopN` | pkg/epp/flowcontrol/eviction/queue.go:98-110 | keeps the invariant; the result is sorted, not beaten by what stays, of the right length, distinct and accepted, and exactly it leaves the tracking |
| `EvictionQueues.EvictionQueue.Peek` | pkg/epp/flowcontrol/eviction/queue.go:115-123 | an accepted tracked request that no other beats, and none if and only if there is none |
| `EvictionQueues.EvictionQueue.SwapEntries` | pkg/epp/flowcontrol/eviction/queue.go:149-153 | a swap keeps every entry's index equal to its position |
| `EvictionQueues.EvictionQueue.HeapPush` | pkg/epp/flowcontrol/eviction/queue.go:155-159 | pushing an entry keeps the indices and is the push on the items |
| `EvictionQueues.EvictionQueue.RemoveLast` | pkg/epp/flowcontrol/eviction/queue.go:161-169 | takes the last entry out and clears its index |
| `EvictionQueues.PriorityThenTimeIsStrictWeak` | pkg/epp/framework/plugins/flowcontrol/eviction/ordering/priority_time.go:56-61 | the shipped ordering policy is a strict weak order |
| `EvictionQueues.LeastImportantFirst` | pkg/epp/framework/plugins/flowcontrol/eviction/ordering/priority_time.go:56-61 | with the shipped policy the least important requests are popped first, of those the youngest, and none that stays should have come before |
| `EvictionHeap.PopsAreSorted` | pkg/epp/flowcontrol/eviction/queue.go:98-110 | for a strict weak order, popped elements are sorted, none is beaten by one that stays, and the rest is a heap |
| `EvictionHeap.PopsCompose` | pkg/epp/flowcontrol/eviction/queue.go:98-110 | popping a and then b elements is popping a + b |
| `EvictionHeap.PopsPermute` | pkg/epp/flowcontrol/eviction/queue.go:98-110 | popped and remaining elements are together the heap's elements |
| `EvictionHeap.PushOrders` | pkg/epp/flowcontrol/eviction/queue.go:65-82 | a push keeps heap order |
| `EvictionHeap.RemoveOrders` | pkg/epp/flowcontrol/eviction/queue.go:85-95 | a removal at any position keeps heap order |
| `EvictionHeap.RemovePermutes` | pkg/epp/flowcontrol/eviction/queue.go:85-95 | a removal takes out exactly that element |
| `EvictionHeap.FirstIsMinimal` | pkg/epp/flowcontrol/eviction/queue.go:115-123 | no element of a heap beats the first |
| `Evictors.RequestEvictor.EvictN` | pkg/epp/flowcontrol/eviction/plugin.go:152-175 | run alone: the evicted IDs are distinct and at most n, exactly they leave the tracking, failed ones stay, and their channels are closed in turn unless the guard of the ID had been used |
| `Evictors.RoundsArePops` | pkg/epp/flowcontrol/eviction/plugin.go:152-175 | when every evictable request has a channel, EvictN evicts what PopN would return |
| `Evictors.BareHeadBlocks` | pkg/epp/flowcontrol/eviction/plugin.go:152-175 | a request without a channel that comes before all others keeps EvictN from evicting anything |
| `Evictors.RoundsTake` | pkg/epp/flowcontrol/eviction/plugin.go:152-175 | over any number of rounds the evicted requests are tracked, accepted and taken out one by one |
| `Evictors.RoundsClose` | pkg/epp/flowcontrol/eviction/evictor.go:59-74 | the channels closed over the rounds are those of the evicted requests, in order, but for IDs whose guard was used before |
| `Evictors.ImmediateResponseEvictor.Evict` | pkg/epp/flowcontrol/eviction/evictor.go:59-74 | fails exactly without a channel; closes the channel exactly when the guard of the ID is unused |
| `EvictionProtocol.NoChannelClosedTwice` | pkg/epp/flowcontrol/eviction/evictor.go:59-80 | over every interleaving of arrivals, cleanups and eviction steps no channel is closed twice |
| `EvictionProtocol.NoRequestIsLost` | pkg/epp/flowcontrol/eviction/plugin.go:152-191 | over every run, a request that has arrived and was not untracked is tracked, being evicted, or reported as evicted |
| `EvictionProtocol.GuardDecides` | pkg/epp/flowcontrol/eviction/evictor.go:59-74 | in every reachable state, an eviction closes its request's channel if and only if the guard it loaded has not run |
| `EvictionProtocol.CleanupRearms` | pkg/epp/flowcontrol/eviction/evictor.go:59-80 | after any run, an undisturbed eviction closes its request's channel if and only if no guard of the ID is stored or the stored one has not run; a cleanup of the ID before it always leads to a close |
| `EvictionProtocol.DistinctRequestsAreSignalled` | pkg/epp/flowcontrol/eviction/plugin.go:70-191 | when no request ID arrives twice, the reported evictions are exactly the channels closed, in order |
| `EvictionProtocol.ReusedIDIsNotSignalled` | pkg/epp/flowcontrol/eviction/plugin.go:152-175 | a concrete run with a reused ID in which an eviction is reported and the request's channel stays open |
| `TopologicalSorts.TopologicalSort` | pkg/epp/datalayer/data_graph.go:228-280 | succeeds if and only if the graph is acyclic, and then returns every node once with every producer before its consumers |
| `TopologicalSorts.Stuck` | pkg/epp/datalayer/data_graph.go:271-275 | when no node is ready and some are left, the nodes left contain a cycle |
| `TopologicalSorts.CountDegrees` | pkg/epp/datalayer/data_graph.go:229-240 | the in-degree of every node is the number of edges to it, repeated edges included |
| `TopologicalSorts.FirstQueue` | pkg/epp/datalayer/data_graph.go:242-249 | the first queue lists, once each, the nodes without an edge to them |
| `TopologicalSorts.Process` | pkg/epp/datalayer/data_graph.go:252-269 | one turn keeps in-degrees, queue and order exact |
| `Graphs.OrderedIsAcyclic` | pkg/epp/datalayer/data_graph.go:226-280 | a graph with a topological order has no cycle |
| `Graphs.LeftoverHasCycle` | pkg/epp/datalayer/data_graph.go:271-275 | nodes that all have a predecessor among themselves contain a cycle |
| `DataGraphs.LinkPair` | pkg/epp/datalayer/data_graph.go:206-219 | whether a producer and a consumer pass, whether an edge is added, and that a reported error is a real fault |
| `DataGraphs.PassesAlways` | pkg/epp/datalayer/data_graph.go:206-219 | a pair passes for every visiting order of the keys if and only if all common keys agree in type and the layers allow the edge |
| `DataGraphs.PassesSometimes` | pkg/epp/datalayer/data_graph.go:206-219 | a pair passes for some order if and only if one common key agrees and the layers allow the edge: type errors can depend on map order |
| `DataGraphs.OrderDecides` | pkg/epp/datalayer/data_graph.go:206-219 | a concrete pair of plugins that passes for one order of the keys and fails for the other |
| `DataGraphs.BuildDAG` | pkg/epp/datalayer/data_graph.go:191-224 | succeeds if and only if all pairs pass; the graph has exactly the edges from consumers to the producers they share a key with, each once; an error names a real fault |
| `DataGraphs.NoPluginDependsOnItself` | pkg/epp/datalayer/data_graph.go:191-224 | a plugin that consumes what it produces itself does not depend on itself |
| `DataGraphs.ValidateAndOrder` | pkg/epp/datalayer/data_graph.go:34-60 | succeeds if and only if all pairs pass and the dependencies are acyclic, and then orders all producers and consumers, producers first |
| `DataGraphs.Config.OrderPrepareDataPlugins` | pkg/epp/requestcontrol/request_control_config.go:101-113 | the data producers become those the order names, in its order |
| `DataGraphs.ReorderedKeepsDependencies` | pkg/epp/requestcontrol/request_control_config.go:101-113 | the reordered producers keep every producer before its consumers and are exactly the known plugins of the order |
| `Streams.AnswersInOrder` | pkg/epp/handlers/server.go:250-420 | over every run with one response-headers message and trailers last, with disconnects and broken sends anywhere: answers go request header, request bodies, response header, response bodies, at most one trailer; every body or trailer comes behind the header of its direction, and an immediate answer is last |
| `Streams.HeadersPrecedeBodies` | pkg/epp/handlers/server.go:464-542 | over every run, protocol or not, no body answer and no trailer is sent before the header answer of its direction |
| `Streams.EvictionNeverFollowsCompletion` | pkg/epp/handlers/server.go:260-275 | over every run, an eviction is answered only if the response never completed and no final chunk was sent |
| `Streams.CompletionHookExact` | pkg/epp/handlers/server.go:226-248 | over every run, the completion hook runs once if the response completed or a target pod was set, and once more for every streamed end after completion |
| `Streams.HookRunsOnce` | pkg/epp/handlers/server.go:226-248 | under the protocol, with one end of the response body, the hook runs exactly once whenever a target pod was set, however the stream is left |
| `StreamOutcomes.HookRunsExactly` | pkg/epp/handlers/server.go:226-248 | over every run of the protocol with one response end, the completion hook runs once if and only if a target pod was picked or the response ended while the stream was open, and never more |
| `StreamOutcomes.OnlyEvictablesAreEvicted` | pkg/epp/handlers/server.go:260-275 | over every run, only a request scheduled as evictable is answered as evicted |
| `StreamOutcomes.EvictableIsEvicted` | pkg/epp/handlers/server.go:260-275 | a scheduled request whose response has not begun is answered at an eviction signal if and only if it is evictable and the answer can be sent |
| `StreamOutcomes.FailureIsAnsweredLast` | pkg/epp/handlers/server.go:398-414 | over every run, a request that cannot be served gets one immediate answer, if there is a status for it and it can be sent, and nothing later is answered |
| `StreamOutcomes.BodylessRequestIsAnswered` | pkg/epp/handlers/server.go:289-304 | over every run, a request without a body that has an endpoint is answered with its header |
| `ResponseBytes.BufferedResponseExact` | pkg/epp/handlers/server.go:366-440 | over every run from the start of the stream, whatever comes after, a buffered response is answered with the rewriting of what the shared buffer held when it was complete; its last chunk alone ends the stream, and does if and only if the body ended the response; trailers are answered |
| `ResponseBytes.OwnBytesExactlyWhenRequestEnded` | pkg/epp/handlers/server.go:305-385 | without rewriting, and with no more request body once the response body arrives, the answer is what the request left in the buffer and then the response; it is the response's own bytes alone if and only if no request-body bytes arrived after the last request end-of-stream message |
| `Exchanges.StreamedResponseExact` | pkg/epp/handlers/server.go:350-379 | over every run from the start of the stream in which the request asked for a stream or the model server announced one, the response is answered with exactly its pieces, each rewritten, in order, and the last chunk of the last piece alone ends the stream |
| `Exchanges.ScheduledBodyIsForwarded` | pkg/epp/handlers/server.go:305-348 | over every run from the start of the stream, whatever comes after: a request that ends before the response begins and is scheduled is forwarded as exactly the body the director prepared, in chunks of which the last alone ends the stream, behind the header |
| `Exchanges.LateRequestIsNotForwarded` | pkg/epp/handlers/server.go:464-500 | a request that ends after the response has begun is never forwarded |
| `ResponseBytes.UnfinishedRequestBodyIsAnswered` | pkg/epp/handlers/server.go:305-385 | a concrete run in which a response that starts before the request body has ended is answered with the request's bytes in front |
| `StreamingServers.StreamingServer.Process` | pkg/epp/handlers/server.go:162-420 | the loop sends what the run of the session sends and calls the hook as often |
| `StreamingServers.StreamingServer.HandleEvent` | pkg/epp/handlers/server.go:250-420 | one turn of the loop is one step of the session |
| `StreamingServers.StreamingServer.HandleMessage` | pkg/epp/handlers/server.go:289-396 | each message changes the context as the session's step says |
| `StreamingServers.StreamingServer.HandleRequestBody` | pkg/epp/handlers/server.go:305-348 | buffers until the end, then parses, schedules and prepares the answers |
| `StreamingServers.StreamingServer.HandleResponseBody` | pkg/epp/handlers/server.go:366-385 | passes a streamed piece on at once and buffers the others until the end |
| `StreamingServers.StreamingServer.FinishResponse` | pkg/epp/handlers/server.go:424-440 | completes the response once |
| `StreamingServers.RequestContext.UpdateStateAndSendIfNeeded` | pkg/epp/handlers/server.go:464-542 | one pass sends, in order, what the phase lets go, up to the point where the stream breaks |
| `StreamingServers.GenerateRequestBodyResponses` | pkg/common/envoy/request.go:25-39 | one answer per chunk of the request body, in order |
| `StreamingServers.GenerateResponseBodyResponses` | pkg/epp/handlers/response.go:91-110 | one answer per chunk of the response body, in order |
| `BodyQueues.ChunksInOrder` | pkg/epp/requestcontrol/director.go:375-427 | over every interleaving of requests with distinct IDs and their workers: the plugin calls of a request are its chunks in order, the first alone starts the stream; when it is finished they are all its chunks, the last alone ends the stream, and no queue of it remains in the map or holds work |
| `BodyQueues.BodyCallEnds` | pkg/epp/requestcontrol/director.go:375-427 | from every reachable state a body call that has begun can be carried through by its request and its worker alone: a chunk is handed over, the last one leads to the final call |
| `BodyQueues.OthersAreSame` | pkg/epp/requestcontrol/director.go:498-503 | a step of one request or worker leaves the calls, queue and phase of every other request as they are |
| `WriterProtocol.NothingLostOrReordered` | pkg/sidecar/proxy/status_response_writer.go:100-234 | over every interleaving of proxy writes with the inspector: bytes sent and bytes buffered are together the bytes written, in order, and no byte precedes a status |
| `WriterProtocol.StatusIsTheDecodersExactly` | pkg/sidecar/proxy/status_response_writer.go:132-234 | over every run, with the status a flush implies and with informational statuses: the client is given the decoder's first final status, or the default when there is none, if and only if the decoder did not begin with an informational status or its status is the default anyway |
| `WriterProtocol.EarlyHintHidesStatus` | pkg/sidecar/proxy/status_response_writer.go:132-188 | a concrete run in which a decoder announces early hints before its 404 and the client is told 200 |
| `WriterProtocol.PrefillLeavesClientUntouched` | pkg/sidecar/proxy/connector_shared_storage.go:146-187 | a decode judged to need a prefill has sent the client neither status nor byte, then or later |
| `WriterProtocol.DecodedIsComplete` | pkg/sidecar/proxy/connector_shared_storage.go:146-187 | a decode reported as done follows the return of the proxy and has sent all bytes under the decoder's final status, a success, and no informational status |
| `WriterProtocol.VerdictIsInformed` | pkg/sidecar/proxy/connector_shared_storage.go:155-162 | over every run the inspector moves only once two complete events are buffered or the proxy has returned |
| `WriterProtocol.VerdictIsExact` | pkg/sidecar/proxy/connector_shared_storage.go:163-187 | over every run: a prefill is asked for only when the status is a success and the check held of the bytes the decoder had written when the buffer was read; the response is streamed only when the check did not hold of them; the decode is taken for failed if and only if the status read is no success |
| `WriterProtocol.InspectorEnds` | pkg/sidecar/proxy/connector_shared_storage.go:146-187 | from every reachable state in which the proxy has returned, the inspector reaches its verdict by at most nine steps of its own |
| `WriterProtocol.TwoEventsRaiseTheSignal` | pkg/sidecar/proxy/status_response_writer.go:100-130 | the write that completes two events in the buffer raises the signal |
| `BufferedWriters.ResponseWriterWithBuffer.Write` | pkg/sidecar/proxy/status_response_writer.go:100-130 | what was sent or waits grows by exactly the bytes written; buffering sends nothing |
| `BufferedWriters.ResponseWriterWithBuffer.WriteHeader` | pkg/sidecar/proxy/status_response_writer.go:132-149 | the first status is kept while buffering and passed on afterwards |
| `BufferedWriters.ResponseWriterWithBuffer.FlushBufferAndGoDirect` | pkg/sidecar/proxy/status_response_writer.go:206-234 | sends status and buffer, in that order, commits a status, loses nothing, and leaves the buffering mode |
| `BufferedWriters.CountGrows` | pkg/sidecar/proxy/status_response_writer.go:238-240 | more data never takes the readiness signal back |
| `BufferedWriters.SignalMeansTwoEvents` | pkg/sidecar/proxy/status_response_writer.go:236-240 | the readiness test holds if and only if two complete events, one after the other, are in the data |
| `RewriteStores.ModelRewriteStore.GetRule` | pkg/epp/datastore/modelrewritestore.go:125-136 | an oldest stored rule that names the model, else an oldest generic rule, else none, with its parent: the same as a scan of the stored rewrites |
| `RewriteStores.ModelRewriteStore.Set` | pkg/epp/datastore/modelrewritestore.go:48-82 | stores the rewrite in place of one of the same name and keeps index and generic list exact and sorted |
| `RewriteStores.ModelRewriteStore.Delete` | pkg/epp/datastore/modelrewritestore.go:85-87 | removes the rewrite and keeps index and generic list exact and sorted |
| `RewriteStores.ModelRewriteStore.DeleteInternal` | pkg/epp/datastore/modelrewritestore.go:90-120 | removes exactly the rules of that rewrite from every list |
| `RewriteStores.SortByAge` | pkg/epp/datastore/modelrewritestore.go:73-81 | an oldest-first permutation |
| `EndpointNames.EndpointNameIsInjective` | pkg/epp/datastore/datastore.go:444-449 | endpoint names are injective in namespace, pod and rank |
| `Datastores.Datastore.PodResyncAll` | pkg/epp/datastore/datastore.go:377-419 | after a successful listing of distinct pods the endpoint names are exactly the active ranks of ready pods that existed or could be created, each with its pod's metadata; survivors keep their object; each removed endpoint is released once; a failed listing changes nothing |
| `Datastores.Datastore.PodUpdateOrAddIfNotExist` | pkg/epp/datastore/datastore.go:288-364 | the pod's names become its active ranks, with metadata brought up to date; all other endpoints stay as they are; survivors keep their object; removed ones are released once; the result says whether nothing was created |
| `Datastores.Datastore.PodDelete` | pkg/epp/datastore/datastore.go:366-375 | removes and releases exactly the endpoints of that pod |
| `Datastores.ExtractActivePorts` | pkg/epp/datastore/datastore.go:422-440 | the target ports that are active: all without the annotation, those listed with it |
| `Partitions.SharesAddUp` | pkg/epp/flowcontrol/registry/config.go:688-701 | the shares add up to the total |
| `Partitions.SharesAreEven` | pkg/epp/flowcontrol/registry/config.go:688-701 | shares differ by at most one, earlier ones are no smaller |
| `Partitions.SharesAreLimits` | pkg/epp/flowcontrol/registry/config.go:664-684 | every shard gets a nonzero limit if and only if the total is at least the number of shards; a share of zero means no limit |
| `Chunking.BuildChunkedBodyResponses` | pkg/common/envoy/chunking.go:31-74 | the loop returns the chunks of the reference split |
| `Chunking.ChunksAreExact` | pkg/common/envoy/chunking.go:31-74 | chunks join to the body, none exceeds the limit, all but the last are full, and the last alone carries the end of stream, exactly if asked |
| `Chunking.SplitIsUnique` | pkg/common/envoy/chunking.go:31-74 | there is no other split of that form |
| `WeightedModels.SelectWeightedModel` | pkg/epp/requestcontrol/director.go:285-311 | the target whose interval the draw falls into; the draw itself when all weights are zero; the fallback is unreachable |
| `WeightedModels.DrawsAreWeights` | pkg/epp/requestcontrol/director.go:285-311 | exactly as many draws fall to a target as its weight |
| `WeightedModels.DrawFallsSomewhere` | pkg/epp/requestcontrol/director.go:302-310 | every draw below the total falls to a target |
| `WeightedModels.DrawFallsOnce` | pkg/epp/requestcontrol/director.go:302-310 | no draw falls to two targets |

## Left out

- Kubernetes clients, reconcilers, TLS, HTTP and gRPC servers, metrics, tracing, logging and configuration loading are plumbing around the modelled core.
- Concrete fairness, ordering, saturation and scheduling plugins and the queue implementations are parameters of the model; the eviction ordering and filter policies alone are modelled.
- Wall-clock liveness (tickers, jitter, timeouts) and JSON and protobuf encodings are not modelled; times and contents are abstract values.
- Topology: provisioning never fails in its runs; the rollback after a failure is modelled by the deletion by key in DroppedKeys.
- DroppedKeys: times are arbitrary, as an unpin is dated when it is deferred; which runs real clocks allow is not modelled.
- Topology: a shard's queues are sets of flow IDs; their contents are the subject of StatsProtocol.
- StatsProtocol: integers are unbounded, because no counter leaves the range of 64 bits while the queued bytes do not.
- StatsProtocol: a flow is removed only when its queue is empty and idle, which the removal itself does not check; RegistryRuns derives it for collected flows.
- RegistryRuns.PacedRegistryNeverLosesABand: a flow is collected only when its queue is empty and unused, and an item is checked only while its request is connected; the collector goes by the idle time of the leases and looks at no queue.
- RequestProtocol.EnqueueAndWait: the turns of the retry loop are given as returned items of a run, so the method says nothing about how long a caller waits.
- FlowItems.DistributeRequest: how a processor answers a submission is a parameter of each candidate.
- Dispatch: saturation and ceilings are real numbers, and the fairness policy's answers and the fate of a removal are given per level.
- ItemProtocol: a submission that arrives after the shutdown has drained the channel stays unfinalized by the processor; ShutdownFinalizesAll speaks of the items present when the drain starts.
- ItemProtocol: queues are provisioned at any time and not removed; removals are the subject of RegistryRuns.
- EvictionQueues: requests are values; the URL, the request pointer and the endpoint metadata of an eviction item are dropped.
- Evictors.RequestEvictor.EvictN: run alone; the interleaved steps are the subject of EvictionProtocol.
- EvictionProtocol: the heap is a map of tracked requests, and a pop may take any of them.
- DataGraphs: the layer of a plugin is given, and the automatic creation of missing producers is not modelled.
- Streams: headers, metadata, parsing results and token usage are dropped; the rewriting of model names is a function of the bytes; a panic in the handler is not modelled.
- ResponseBytes.OwnBytesExactlyWhenRequestEnded: assumes that no request body follows the first piece of the response body; BufferedResponseExact does not.
- BodyQueues: requests are known by distinct IDs and at least one response-body plugin is configured.
- WriterProtocol: the client writer never fails, and the proxy writes from one goroutine; writes after the request handler has returned are not told apart.
- RewriteStores: rewrites of the same name in different namespaces are one, as in the code.
- Datastores: the active-ports annotation is given as the numbers read from it, and endpoint metadata is reduced to pod, address and port.
- WeightedModels.SelectWeightedModel: weights are nonnegative and their sum fits 32 bits; negative weights and wrap-around are not modelled.
- Partitions: the fields of a shard configuration other than the two limits are copied unchanged and not modelled.
