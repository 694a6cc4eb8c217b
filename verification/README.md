# Agnocast kernel module, verified

Agnocast lets ROS 2 nodes exchange messages without copying them: publishers place messages in shared
memory, and a Linux kernel module keeps the metadata that says which message lives where, who may read
it, and when its memory may be used again. This project models that module and the parts around it
whose correctness the zero-copy promise rests on, and proves what they promise.

The model has two levels, connected by proof.

* **Objects in place.** `TopicStruct` is one topic store with the functions that walk and update it:
  joining, publishing with bounded reclamation, receiving, taking, releasing, leaving, exiting, and the
  cached lists of eventfd contexts. `Kernel` holds the tables of the whole module (`RuleTable`,
  `ProcessTable`, `MempoolAllocator`, the topic wrappers and their stores) and has one method per
  ioctl, plus the cleanup the exit worker runs. The loops are the source's loops; a hash table is
  scanned in an arbitrary order, and an allocation fails whenever a parameter says so.
* **Values and runs.** `TopicModel` and `KernelModel` describe what each operation does without loops.
  `KernelModel.Step` is one ioctl as a step of a transition system, and a run is any sequence of steps
  that the environment assumption `Allowed` permits. Every method above is proved equal to its
  function or step, so whatever holds of all runs holds of the objects.

The main results:

* A message a subscriber holds stays where it is until that subscriber lets go of it
  (`Lifetime.HeldUntilReleased`); no message is handed back to its publisher twice, and only when
  nobody references it (`DeliveryOrder.ReleasedFacts`, `DeliveryOrder.HandedBackOnce`). Where
  publishers publish at fresh addresses, no message left has an address that was handed back
  (`Addresses.HandedBackAddressIsFree`).
* A held message is mapped by its holder, in a pool that nobody else can be given
  (`SharedMemory.HeldMessageIsMapped`, `SharedMemory.PoolNotReassigned`).
* One invariant over all tables holds in every state of every run (`ProcessInvariant.RunKeeps`).
* A receive hands out exactly the oldest ten of the newest `depth` deliverable messages; calling until
  nothing more is announced yields all of them once, in order (`Answers.ReceiveAnswer`). A
  transient-local newcomer gets its share of the history that way, a volatile one none
  (`JoinAnswers.HistoryDue`).
* A publish reclaims exactly the first three unreferenced messages beyond the depth.
* Exit cleanup reclaims everything it can, across stores shared by two domains, and no store is ever
  dropped with a message or an endpoint in it (`ExitSweep.StoreVanishesEmpty`).
* Domain rules never cover a cell twice, whatever is registered in whatever order, and a message
  crosses domains exactly in declared directions (`BridgeDirections.CrossDomainDelivers`).
* A publish wakes exactly those who can receive the message (`PublishAnswers.WakesReceivers`), and a
  process maps only pools it has a reason to (`MappingAnswers.ListedForAReason`).
* Receives, takes and releases under the read lock are linearizable (`Concurrency.InterleavingIsSerial`),
  and so is the mapping stage across processes and topics (`ConcurrentMapping.MappingIsSerial`).
* The exit queue is a FIFO under any interleaving, its worker never sleeps on pending pids, and the
  tables see one process exit for each accepted pid (`ExitPipeline.AcceptedExitOnce`). It can
  overflow exactly when pools and agents outnumber its places (`QueueBound.OverflowsExactly`).
* Reallocation through the alignment layer keeps the data, stays in bounds and disturbs nobody else.
* What is written as a CPU list reads back as the same list.

## Files

| file | contents |
|---|---|
| Base | errors, limits, sets, filtering of sequences |
| TopicModel, StoreInvariant | one store as a value, and what every operation keeps |
| WalkLemmas, DepartureLemmas, NotifyLists, TopicStruct | the store as an object, loop by loop |
| DomainRules, RuleTable, BridgeDirections | bridge rules, their registration, and what crosses domains by them |
| Mempool, ShmInfo | shared-memory pools and who maps them |
| KernelModel, KernelInvariant, ProcessInvariant | the transition system and its invariant |
| Lifetime, SharedMemory, DeliveryOrder, Addresses, Delivery, Reclamation, Registry | results about runs |
| Answers, PublishAnswers, JoinAnswers, MappingAnswers, DepartureAnswers, ProcessAnswers | what each call answers and does, in terms of the messages, endpoints and processes, without the functions that specify it |
| WrapperDomains, StrandedMessages | two claims that are no invariants, and exactly which steps break them |
| Counterexamples | concrete runs into the states in which claims fail |
| ProcessTable, ExitSweep, Kernel | the module as objects |
| ConcurrentCalls, Concurrency | receives, takes and releases interleaved step by step |
| ConcurrentMapping | the mapping stages of several processes interleaved step by step |
| ExitQueue, ExitPipeline, QueueBound | the ring of exited pids and its worker, alone and together with the tables, and when the ring overflows |
| AlignedHeap | the alignment layer over the TLSF allocator |
| CpuList | the CPU-list reader and writer |

## Assumptions

`KernelModel.Allowed` collects what the environment promises. A pid is not reused while a leftover
publisher still carries it. Endpoints are opened by live registered processes other than the unlink
daemon, and are used by the process that owns them. A pid is drained only after it was reported as
exited, by a caller of the same namespace. A bridge shutdown is not reported by the unlink daemon. A
discovery agent speaks for one pair of namespace and domain. The addresses of freed stores and rules
are not used again, so an address names one object for ever.

`Addresses.HandedBackAddressIsFree` needs publishers that publish only at addresses no message of the
stores in question occupies, as allocators ensure (`Addresses.FreshRun`).

`QueueBound.Orderly` says what an orderly exit is: the hook lets only registered pids through, a
process exits once, and a process whose exit is waiting for the worker makes no further calls.

`SharedMemory.HeldMessageIsMapped` holds for runs in which no receive or take failed while mapping
pools: a failing call has already set its reference bits. `SharedMemory.PoolNotReassigned` holds for
every run.

The inner allocator of the alignment layer is known by contract only: its answers are parameters of
the methods, constrained by `AllocateContract`, `ReallocateContract` and `DeallocateContract`.

## Where the code and its comments differ

The model follows the code.

* `release_msgs_to_meet_depth` calls its -ENODATA exits unreachable. With a depth of zero they are
  reachable; `Delivery.PublishFailsExactly` says exactly when, and
  `Counterexamples.DepthZeroPublishFails` is a run that takes one.
* The comment above the signalling loop of `agnocast_ioctl_publish_msg` says that receive and take
  hold the topic lock for writing. They hold it for reading, which is what `ConcurrentCalls` is about.
* The CPU-list reader is documented as accepting the kernel's list format. It also accepts a range
  from zero to minus zero, such as 0--0. `CpuLists.AcceptedTokens` says exactly which texts it takes
  and `CpuLists.KernelFormatTokens` which of them are not in that format.
* A publisher whose context array cannot be allocated has already used up an endpoint id.
* The header of the module says that the exit queue cannot overflow, since it is far larger than the
  number of pools. Discovery agents pass the exit hook's filter, too, and own no pool.
  `QueueBound.OverflowsExactly` gives the condition: pools and agents together.

## Two claims that fail

Two claims that suggest themselves are no invariants. `Counterexamples` reaches a state against each,
and for each it is proved exactly which steps of the system end it.

* Every wrapper has an endpoint of its own domain. Two kinds of step end this
  (`WrapperDomains.StepUsesExactly`). A join first makes the wrapper of its cell; when the endpoint is
  then refused, because a table is full, the store's ids are used up or an allocation fails, the
  wrapper stays (`Counterexamples.RefusedJoinLeavesWrapper`). And a subscriber's removal releases only
  the wrapper of its own domain, though it may reclaim dead publishers of the partner domain
  (`Reclamation.DomainOutlivesRemoval`, `Counterexamples.WrapperMayLoseItsDomain`). An exit restores
  the claim (`Reclamation.ExitReclaimsEverything`).
* A dead publisher owns no unreferenced message. Only the release of a dead publisher's message by its
  only holder ends this (`StrandedMessages.StepStrandsExactly`,
  `Counterexamples.ReleasedDeadEntryStays`). `StrandedMessages.DepartureSweepsStranded` and
  `StrandedMessages.ExitSweepsStranded` say that the next subscriber to go takes the message along.

## Model

| member | source | states |
|---|---|---|
| TopicStructs.TopicStruct.constructor | agnocast_kmod/agnocast_ioctl.c:164-185 | A new store is empty, has one wrapper and keeps the rule it was created under. |
| TopicStructs.TopicStruct.FilteredContexts | agnocast_kmod/agnocast_ioctl.c:279-298 | The scan lists exactly one context per notifiable subscriber and never meets a full array. |
| TopicStructs.TopicStruct.RebuildAllNotifyLists | agnocast_kmod/agnocast_ioctl.c:302-310 | Afterwards every publisher's cached list equals the filter it replaces; capacities are untouched. |
| TopicStructs.TopicStruct.ReserveNotifyCtxs | agnocast_kmod/agnocast_ioctl.c:242-261 | Grows one array to what is needed, within the subscriber limit, never shrinks it and carries its contents across. |
| TopicStructs.TopicStruct.ReserveAllNotifyCtxs | agnocast_kmod/agnocast_ioctl.c:265-275 | A reservation that fails partway leaves every list's contents as they were; one that succeeds makes room everywhere. |
| TopicStructs.TopicStruct.InsertSubscriberInfo | agnocast_kmod/agnocast_ioctl.c:330-407 | The join refuses, fails or commits exactly as its specification says; a failure changes neither lists nor counters. |
| TopicStructs.TopicStruct.LinkSubscriberInfo | agnocast_kmod/agnocast_ioctl.c:383-407 | The infallible half: a fresh id, for a volatile subscriber one entry id burnt, and all lists right again. |
| TopicStructs.TopicStruct.FirstNotifyList | agnocast_kmod/agnocast_ioctl.c:505-512 | A publisher that is not linked yet gets a large enough array and the right list, or the allocation failed. |
| TopicStructs.TopicStruct.InsertPublisherInfo | agnocast_kmod/agnocast_ioctl.c:452-515 | The publisher's join as specified; a failed reservation has used up the id but changed no list. |
| TopicStructs.TopicStruct.LinkPublisherInfo | agnocast_kmod/agnocast_ioctl.c:514-515 | Linking a publisher asks every subscriber to map it and keeps all lists right. |
| TopicStructs.TopicStruct.RequestMmapUpdates | agnocast_kmod/agnocast_ioctl.c:978-984 | Every subscriber of the store gets need_mmap_update, and nothing else about it changes. |
| TopicStructs.TopicStruct.InsertMessageEntry | agnocast_kmod/agnocast_ioctl.c:658-709 | The new entry becomes the last of the tree and the publisher's count grows; -ECANCELED is never returned. |
| TopicStructs.TopicStruct.ReleaseMsgsToMeetDepth | agnocast_kmod/agnocast_ioctl.c:991-1072 | The walk removes and reports exactly the first three unreferenced entries beyond the depth, and fails exactly when it runs off the tree. |
| TopicStructs.TopicStruct.PublishHere | agnocast_kmod/agnocast_ioctl.c:1120-1131 | Insertion, reclamation and the list to signal, as one change of the store. |
| TopicStructs.TopicStruct.FindWindow | agnocast_kmod/agnocast_ioctl.c:1197-1219 | The backward walk finds where the newest deliverable entries within the depth start, and how many they are. |
| TopicStructs.TopicStruct.ReceiveMsgCore | agnocast_kmod/agnocast_ioctl.c:1181-1252 | Returns the oldest ten of the window in order, sets exactly those bits, advances the progress to the last, and announces more exactly when the window is longer; no error is possible. |
| TopicStructs.TopicStruct.TakeMsgCore | agnocast_kmod/agnocast_ioctl.c:1373-1415 | Returns the oldest entry of the window (with allow_same_message the window starts at the last received one), or nothing exactly when it is empty. |
| TopicStructs.TopicStruct.ReleaseReference | agnocast_kmod/agnocast_ioctl.c:622-649 | Clears exactly the named bit, or fails and changes nothing. |
| TopicStructs.TopicStruct.SweepSubscriberRefs | agnocast_kmod/agnocast_internal.c:62-97 | The walk for one departed subscriber equals clearing its bits and dropping what dead publishers now own unreferenced. |
| TopicStructs.TopicStruct.UnlinkSubscriberInfo | agnocast_kmod/agnocast_ioctl.c:317-328 | After unlinking a subscriber every cached list is right without it. |
| TopicStructs.TopicStruct.RemoveSubscriberInfo | agnocast_kmod/agnocast_ioctl.c:2244-2293 | Removing a subscriber equals the loop-free sweep and keeps the store and its lists valid. |
| TopicStructs.TopicStruct.PurgePublisher | agnocast_kmod/agnocast_ioctl.c:2324-2345 | The walk for one publisher drops its unreferenced entries, and the publisher if none is left. |
| TopicStructs.TopicStruct.RemovePublisherInfo | agnocast_kmod/agnocast_ioctl.c:2324-2345 | The same, keeping the store and its lists valid. |
| TopicStructs.TopicStruct.PreHandlerPublisherExit | agnocast_kmod/agnocast_internal.c:100-132 | All publishers of a pid at once: equal to one sweep over them in whatever order they are met. |
| TopicStructs.TopicStruct.PreHandlerSubscriberExit | agnocast_kmod/agnocast_internal.c:27-98 | All subscribers of a pid at once: unlinked first, then one sweep over all dead publishers. |
| TopicStructs.TopicStruct.ProcessExit | agnocast_kmod/agnocast_internal.c:27-132 | What exit cleanup does to one store, both handlers together. |
| TopicStructs.TopicStruct.HasDomainEndpoints | agnocast_kmod/agnocast_internal.c:158-172 | True exactly when some endpoint of the store carries the domain. |
| StoreInvariant.PublishedKeeps | agnocast_kmod/agnocast_ioctl.c:658-1072 | Publishing keeps ids ascending and below the counter, every entry's publisher present, counts exact and every bit's owner present. |
| StoreInvariant.ReceiveKeeps | agnocast_kmod/agnocast_ioctl.c:1181-1252 | A receive keeps the store invariant; a set bit never lies beyond its owner's progress. |
| StoreInvariant.TakeKeeps | agnocast_kmod/agnocast_ioctl.c:1373-1415 | A take keeps the store invariant. |
| StoreInvariant.SweepKeeps | agnocast_kmod/agnocast_ioctl.c:2225-2303 | Every departure keeps the store invariant. |
| StoreInvariant.SweepLeavesReferenced | agnocast_kmod/agnocast_internal.c:62-132 | After a sweep a doomed publisher that remains owns entries, and all of them are referenced. |
| StoreInvariant.ExitReclaims | agnocast_kmod/agnocast_internal.c:27-132 | After the exit walk no subscriber of the pid and no bit of one is left, its publishers own only referenced entries, and walking again changes nothing. |
| NotifyLists.WokenExactly | agnocast_kmod/agnocast_ioctl.c:279-298 | A cached list is as long as the filter is large, holds every listener's context and nobody else's, and fits its array. |
| NotifyLists.RoomForOneMore | agnocast_kmod/agnocast_ioctl.c:294-296 | While a notifiable subscriber is missing from a partial list the array is not full, so the warning cannot fire. |
| NotifyLists.RulesSilent | agnocast_kmod/agnocast_ioctl.c:2571-2604 | Registering rules leaves the lists of a store right whose own rule is untouched. |
| Delivery.WindowIsNewestPending | agnocast_kmod/agnocast_ioctl.c:1197-1219 | The window holds pending messages only; one left out is older than all in it, and then the window is full. |
| Delivery.WindowAfterReceive | agnocast_kmod/agnocast_ioctl.c:1221-1249 | After a receive the window is what the batch left over. |
| Delivery.DrainYieldsWindow | agnocast_kmod/agnocast_ioctl.c:1221-1249 | Receiving until nothing more is announced yields the whole window once, in order, in as many calls as tens, at least one. |
| Answers.ReceiveAnswer | agnocast_kmod/agnocast_ioctl.c:1181-1252 | A receive hands out the oldest ten of the newest depth deliverable messages beyond the progress, by rank, announces more exactly if more are due, sets exactly these bits, and moves exactly this progress. |
| Answers.TakeAnswer | agnocast_kmod/agnocast_ioctl.c:1373-1415 | A take returns the oldest of the newest depth messages that are deliverable and newer than the last received one, or, with allow_same_message, that one too; nothing exactly if there is none or the depth is zero. |
| Answers.TakenAgain | agnocast_kmod/agnocast_ioctl.c:1378-1398 | With allow_same_message and nothing newer pending, the message received last is returned again if it is still stored and deliverable. |
| Answers.DeliveryRefused | agnocast_kmod/agnocast_ioctl.c:1285-1308 | A receive or take by anybody but a subscriber of the caller's store is refused and changes nothing. |
| Answers.ReleaseAnswer | agnocast_kmod/agnocast_ioctl.c:622-649 | A release clears the one bit it names, or fails exactly when the bit is not set. |
| PublishAnswers.WakesReceivers | agnocast_kmod/agnocast_ioctl.c:279-298 | A publish wakes exactly the subscribers with a context for whom the new message is pending afterwards. |
| PublishAnswers.PublishAnswer | agnocast_kmod/agnocast_ioctl.c:1074-1146 | The new message is stored, exactly the first three spare ones by rank are handed back and leave, everything else stays, and the result is the new id, or -ENODATA at depth zero with fewer than three to spare. |
| PublishAnswers.PublishRefused | agnocast_kmod/agnocast_ioctl.c:1081-1118 | A publish is refused, changing nothing, exactly for an unknown topic or publisher, an address outside the process's pool, or want of memory. |
| Delivery.ExcessMeaning | agnocast_kmod/agnocast_ioctl.c:1022-1023 | An own entry is excess exactly when more than depth own entries are at least as new. |
| Delivery.PublishReclaims | agnocast_kmod/agnocast_ioctl.c:991-1072 | What a publish gives back: own, unreferenced, beyond the depth, oldest first, at most three; fewer than three only if every remaining excess entry is referenced; everything else survives. |
| Delivery.PublishFailsExactly | agnocast_kmod/agnocast_ioctl.c:1037-1047 | The -ENODATA exit is taken exactly when the depth is zero and fewer than three own entries are unreferenced. |
| JoinAnswers.SubscriberJoinAnswer | agnocast_kmod/agnocast_ioctl.c:330-407 | A new subscriber has the fields the caller asked for and a fresh id; nothing else in the store changes; its progress lies below all messages if it is transient-local and above all if it is volatile. |
| JoinAnswers.HistoryDue | agnocast_kmod/agnocast_ioctl.c:390-396 | After a transient-local join every deliverable message is pending for the newcomer and the newest depth of them are due; after a volatile join none is. |
| JoinAnswers.DrainYieldsDue | agnocast_kmod/agnocast_ioctl.c:1221-1249 | Receiving until nothing more is announced yields exactly what was due. |
| JoinAnswers.PublisherJoinAnswer | agnocast_kmod/agnocast_ioctl.c:452-515 | A new publisher has the fields the caller asked for and owns nothing; every subscriber is asked to map it, and nothing else changes. |
| JoinAnswers.FailedJoinAnswer | agnocast_kmod/agnocast_ioctl.c:911-989 | A failed join leaves the endpoints and messages of every store as they were. |
| JoinAnswers.JoinErrors | agnocast_kmod/agnocast_ioctl.c:330-381 | Why a join fails, in the order of the checks, and with which error. |
| Counterexamples.DepthZeroPublishFails | agnocast_kmod/agnocast_ioctl.c:1037-1047 | A concrete run in which the first publish of a publisher with depth zero takes that exit. |
| DomainRules.PartnerInvolution | agnocast_kmod/agnocast_ioctl.c:84-108 | Pairing is an involution without fixed points, and both cells find the same rule. |
| DomainRules.SameRuleIsThePair | agnocast_kmod/agnocast_ioctl.c:2538-2554 | An exact rule found from both cells pairs exactly these two. |
| DomainRules.ConflictIsOverlap | agnocast_kmod/agnocast_ioctl.c:2639-2687 | A prefix registration meets a conflict or its own twin exactly when some cell would be covered twice. |
| DomainRules.AddExactSafe | agnocast_kmod/agnocast_ioctl.c:2534-2605 | An exact registration keeps cells disjoint and leaves the rules of occupied cells alone. |
| DomainRules.AddPrefixSafe | agnocast_kmod/agnocast_ioctl.c:2628-2718 | A prefix registration keeps cells disjoint and leaves the rules of occupied cells alone. |
| DomainRules.RegistrationsDisjoint | agnocast_kmod/agnocast_ioctl.c:2534-2718 | After any sequence of exact and prefix registrations no cell is covered twice. |
| DomainRules.ScanOrderIrrelevant | agnocast_kmod/agnocast_ioctl.c:2464-2489 | The first match in any scan order is the only match. |
| BridgeDirections.StepPermits | agnocast_kmod/agnocast_ioctl.c:2534-2718 | After any step the rules permit a direction between two cells exactly if they did, or the step is an accepted registration that declares it; the reverse direction is untouched. |
| BridgeDirections.RunPermits | agnocast_kmod/agnocast_ioctl.c:2494-2531 | In every state of a run the rules permit exactly the directions that accepted registrations have declared. |
| BridgeDirections.CachedRuleDecides | agnocast_kmod/agnocast_ioctl.c:124-129 | Delivery by a store's cached rule agrees with what the rules permit between its two cells. |
| BridgeDirections.CrossDomainDelivers | agnocast_kmod/agnocast_ioctl.c:116-130 | Over every run: between two domains of a store a message is deliverable exactly if its publisher lives, the local filter allows it, neither endpoint is a bridge, and an accepted registration has declared this direction for the cells of the two domains. |
| BridgeDirections.SameDomainDelivers | agnocast_kmod/agnocast_ioctl.c:120-120 | Within one domain a message is deliverable exactly if its publisher lives and the local filter allows it. |
| BridgeDirections.ExactAnswer | agnocast_kmod/agnocast_ioctl.c:2534-2605 | Which exact registrations are accepted, and the error of the others, in terms of cells covered, paired and joined. |
| BridgeDirections.PrefixAnswer | agnocast_kmod/agnocast_ioctl.c:2628-2718 | The same for prefix registrations, over all cells they cover. |
| RuleTables.RuleTable.FindDomainRule | agnocast_kmod/agnocast_ioctl.c:2468-2489 | The scan finds the one rule that covers the cell, or says there is none. |
| RuleTables.RuleTable.InsertDomainRule | agnocast_kmod/agnocast_ioctl.c:2494-2531 | The pair is stored canonically, each domain with its own name and the direction in the flags. |
| RuleTables.RuleTable.AddDomainRule | agnocast_kmod/agnocast_ioctl.c:2534-2605 | The new table and the answer of an exact registration. |
| RuleTables.RuleTable.AnyTopicUnderPrefix | agnocast_kmod/agnocast_ioctl.c:2609-2623 | True exactly when some wrapper lies under the prefix in one of the two domains. |
| RuleTables.RuleTable.ScanPrefix | agnocast_kmod/agnocast_ioctl.c:2639-2687 | An error exactly when some rule conflicts; otherwise the identical rule if there is one. |
| RuleTables.RuleTable.AddPrefixDomainRule | agnocast_kmod/agnocast_ioctl.c:2628-2718 | The new table and the answer of a prefix registration. |
| Mempools.RangesDisjoint | agnocast_kmod/agnocast_memory_allocator.c:54-120 | Pools do not wrap and share no address. |
| Mempools.AssignKeeps | agnocast_kmod/agnocast_memory_allocator.c:122-151 | An assigned pool had no mapper and has one; lists stay distinct and counted; everybody else's memberships are unchanged. |
| Mempools.ReferenceKeeps | agnocast_kmod/agnocast_memory_allocator.c:153-180 | Mapping adds exactly one membership. |
| Mempools.FreeKeeps | agnocast_kmod/agnocast_memory_allocator.c:182-201 | Afterwards no pool lists the pid and all other memberships are unchanged. |
| Mempools.MempoolAllocator.InitMemoryAllocator | agnocast_kmod/agnocast_memory_allocator.c:38-120 | Succeeds exactly when both parameters are positive and the whole region ends below 2^64, and then lays the pools side by side. |
| Mempools.MempoolAllocator.AssignMemory | agnocast_kmod/agnocast_memory_allocator.c:122-151 | Takes the first pool nobody maps, and fails exactly when there is none or the allocation failed. |
| Mempools.MempoolAllocator.ReferenceMemory | agnocast_kmod/agnocast_memory_allocator.c:153-180 | Adds the pid to the pool, or reports that it is there already. |
| Mempools.MempoolAllocator.FreeMemory | agnocast_kmod/agnocast_memory_allocator.c:182-201 | Removes the pid from every pool. |
| ShmInfo.SetPublisherShmInfo | agnocast_kmod/agnocast_ioctl.c:711-786 | Maps the subscriber into the pools of exactly the live publishers that deliver to it from other processes, and counts the new ones; the two failures and what they leave mapped. |
| MappingAnswers.MappingAnswer | agnocast_kmod/agnocast_ioctl.c:1318-1332 | A receive or take of a subscriber that asks for mappings gains exactly the pools it lacks of other living processes with a publisher that could deliver to it, reports their number and stops asking; or fails for want of memory or room, with at most some of them; one that does not ask gains none. |
| MappingAnswers.ListedForAReason | agnocast_kmod/agnocast_ioctl.c:720-740 | Over every run a process is on the list of a pool only because the pool is its own, or because a subscriber of it mapped the pool when a publisher from it could deliver to the subscriber. |
| ProcessInvariant.StepKeeps | agnocast_kmod/agnocast_ioctl.c:829-2303 | Every ioctl keeps the invariant over all tables. |
| ProcessInvariant.RunKeeps | agnocast_kmod/agnocast_internal.h:82-267 | In every state of every run: stores consistent, endpoints homed and live, wrappers grouped by partnership, references counted, cached rules fresh, rules disjoint, pools owned by the living, singletons single. |
| ProcessInvariant.ExitKeeps | agnocast_kmod/agnocast_internal.c:327-388 | Exit cleanup keeps the invariant over all tables. |
| KernelInvariant.LastReleaseFindsNothing | agnocast_kmod/agnocast_internal.c:174-212 | Wherever the references are counted and every endpoint has a wrapper of its domain, in the middle of an exit walk too, the release of the last wrapper finds no entry, publisher or subscriber left to free. |
| Lifetime.HeldUntilReleased | agnocast_kmod/agnocast_ioctl.c:605-655 | While a subscriber holds a message, it stays in its tree with the same address and publisher until that subscriber releases it, leaves, or its process exits. |
| DeliveryOrder.ReleasedFacts | agnocast_kmod/agnocast_ioctl.c:1037-1069 | Every address a publish reports belonged to an unreferenced entry of that publisher, old or just inserted, which has left the tree. |
| DeliveryOrder.HandedBackOnce | agnocast_kmod/agnocast_ioctl.c:991-1072 | No two publishes of a run hand back the same entry. |
| Addresses.RunKeepsDistinct | agnocast_kmod/agnocast_ioctl.c:658-709 | Over any run, if what is published in some stores goes to addresses no message there occupies, no two messages there ever share an address. |
| Addresses.HandedBackAddressIsFree | agnocast_kmod/agnocast_ioctl.c:991-1072 | Under the same assumption an address a publish hands back is the address of no message left in these stores, held or not; the stores may be one tree, or all of them. |
| DeliveryOrder.ReceivedIdsIncrease | agnocast_kmod/agnocast_ioctl.c:1197-1249 | Over all receives and takes of one subscriber, the ids strictly increase within a call and never decrease from call to call; they strictly increase unless the later call is a take with allow_same_message. |
| DeliveryOrder.VolatileStart | agnocast_kmod/agnocast_ioctl.c:390-396 | A volatile subscriber starts from an entry id that was used up for it, above all ids in the tree. |
| DeliveryOrder.VolatileGetsNothingOld | agnocast_kmod/agnocast_ioctl.c:390-396 | No receive and no take, with allow_same_message or without, ever hands a volatile subscriber a message published before it joined. |
| SharedMemory.ShmRun | agnocast_kmod/agnocast_ioctl.c:711-786 | In every state of a run without mapping failures, whoever holds a message maps its pool, because a new publisher raises need_mmap_update everywhere. |
| SharedMemory.HeldMessageIsMapped | agnocast_kmod/agnocast_ioctl.c:711-786 | A held message lies in exactly one pool, its holder's live process maps that pool, and the pool is not free. |
| SharedMemory.PoolNotReassigned | agnocast_kmod/agnocast_memory_allocator.c:122-151 | A pool a process maps goes to no newcomer before that process exits, even if its owner died. |
| Reclamation.ExitReclaimsEverything | agnocast_kmod/agnocast_internal.c:327-388 | After the cleanup no store, pool or agent slot knows the pid, except publishers all of whose messages others hold, and every wrapper has an endpoint of its own domain. |
| Reclamation.SecondVisitIsNoOp | agnocast_kmod/agnocast_internal.c:362-376 | The second visit to a store shared by two wrappers changes nothing. |
| DepartureAnswers.SubscriberLeaveAnswer | agnocast_kmod/agnocast_ioctl.c:2244-2303 | What exactly leaves with a subscriber: it, its references, the messages of gone publishers that nobody else holds, and those publishers if they own none; everything else stays. |
| DepartureAnswers.PublisherLeaveAnswer | agnocast_kmod/agnocast_ioctl.c:2324-2361 | What exactly leaves with a publisher: its unheld messages, and itself if none is left. |
| DepartureAnswers.ExitAnswer | agnocast_kmod/agnocast_internal.c:27-132 | What exactly the exit of a process takes from each store that stays. |
| DepartureAnswers.ExitTablesAnswer | agnocast_kmod/agnocast_internal.c:327-365 | What it does to the process table, the agents and the pools, and that it touches nobody else there. |
| Reclamation.DeadPublisherOwnsEntries | agnocast_kmod/agnocast_internal.c:62-98 | In every reachable state a dead publisher owns an entry, and its store has a subscriber. |
| Reclamation.OneOrTwoWrappers | agnocast_kmod/agnocast_internal.h:169-203 | A store has one wrapper, or two, whose cells are partners; the reference count says which. |
| Reclamation.SharedIffPartners | agnocast_kmod/agnocast_ioctl.c:84-191 | Two wrappers share a store exactly when their cells are partners, and a store's cached rule equals a fresh lookup. |
| Reclamation.OccupiedRuleFrozen | agnocast_kmod/agnocast_ioctl.c:2566-2602 | While a cell has a wrapper, the rule that covers it does not change, direction flags included. |
| Reclamation.PublisherOutlivesRemoval | agnocast_kmod/agnocast_ioctl.c:2262-2293 | Removing a subscriber keeps exactly the living publishers and the dead ones that others still read. |
| Reclamation.DomainOutlivesRemoval | agnocast_kmod/agnocast_ioctl.c:2295-2298 | A domain keeps an endpoint when a subscriber leaves a shared store exactly when it has another subscriber, a living publisher, or a dead one that others still read. |
| WrapperDomains.NobodyOfNewCell | agnocast_kmod/agnocast_ioctl.c:132-191 | The partner store that a cell without a wrapper would share has no endpoint of the cell's domain. |
| WrapperDomains.StepUsesExactly | agnocast_kmod/agnocast_ioctl.c:911-989 | Where every wrapper has an endpoint of its own domain, a step of the system ends that exactly when it is a join refused after it made the wrapper of its cell, or the leave of a subscriber whose store's other domain has only dead publishers that it alone reads. |
| WrapperDomains.RunUsesExactly | agnocast_kmod/agnocast_ioctl.c:911-989 | A run keeps every wrapper used exactly as long as it makes neither step. |
| Counterexamples.RunOfEight | agnocast_kmod/agnocast_ioctl.c:829-1338 | Eight calls across two bridged domains, from registration to the exit of the publisher's process while its message is held, are a run of the system. |
| Counterexamples.WrapperMayLoseItsDomain | agnocast_kmod/agnocast_ioctl.c:2295-2298 | In the last state of a concrete run a subscriber has left and the wrapper of the partner domain has no endpoint of its domain. |
| Counterexamples.RefusedJoinLeavesWrapper | agnocast_kmod/agnocast_ioctl.c:954-989 | In the last state of a concrete run a publisher's join has failed and the wrapper it made has no endpoint. |
| Counterexamples.ReleasedDeadEntryStays | agnocast_kmod/agnocast_ioctl.c:641-649 | In the last state of a concrete run a dead publisher owns an entry that nobody references. |
| StrandedMessages.StrandedAfterRelease | agnocast_kmod/agnocast_ioctl.c:641-649 | After a release, a dead publisher owns an unreferenced entry exactly when it owned one that had no holder, or was the released one and had no other. |
| StrandedMessages.ReleaseStrandsExactly | agnocast_kmod/agnocast_ioctl.c:641-649 | A release is what leaves such an entry behind exactly when the publisher of the released entry is dead and the releaser was its only holder. |
| StrandedMessages.DepartureSweepsStranded | agnocast_kmod/agnocast_ioctl.c:2262-2293 | The removal of any subscriber leaves no such entry behind. |
| StrandedMessages.ExitSweepsStranded | agnocast_kmod/agnocast_internal.c:62-98 | The exit of any subscriber's process leaves no such entry behind in its stores. |
| StrandedMessages.StepStrandsExactly | agnocast_kmod/agnocast_ioctl.c:622-649 | Where no dead publisher owns an unreferenced entry, a step of the system leaves one exactly when it is the release of a dead publisher's message by its only holder. |
| StrandedMessages.RunStrandsExactly | agnocast_kmod/agnocast_ioctl.c:622-649 | A run stays free of such entries exactly as long as it makes no such release. |
| Registry.Singletons | agnocast_kmod/agnocast_ioctl.c:829-909 | At most one daemon per namespace, one live bridge manager and one agent per namespace and domain, in every reachable state. |
| Registry.AgentStays | agnocast_kmod/agnocast_ioctl.c:2899-2920 | No step but the agent's own exit removes an agent while a process of its domain lives. |
| Registry.ToldAgentStays | agnocast_kmod/agnocast_ioctl.c:2892-2920 | An agent that a registering process was told of stays registered as long as both live. |
| Registry.DaemonStays | agnocast_kmod/agnocast_ioctl.c:1647-1676 | No step but the daemon's own exit deregisters it while another process entry of the namespace, live or exited, is left. |
| Registry.DaemonStaysRegistered | agnocast_kmod/agnocast_ioctl.c:1647-1676 | The same over any stretch of a run. |
| Registry.ReportedStaysDead | agnocast_kmod/agnocast_ioctl.c:1621-1676 | A process once exited is never live again under its pid unless the pid is registered anew. |
| ProcessAnswers.AddProcessAnswer | agnocast_kmod/agnocast_ioctl.c:829-909 | When a registration is refused or told to stand back, the role, domain and pool a process is entered with, and what the three flags mean. |
| ProcessAnswers.CheckShutdownAnswer | agnocast_kmod/agnocast_ioctl.c:2968-2987 | A process asking for its own domain is told to shut down and demoted exactly when no other non-daemon entry of the domain is left. |
| ProcessAnswers.AddAgentAnswer | agnocast_kmod/agnocast_ioctl.c:2924-2955 | An agent gets a free slot, and is told it owns the slot exactly when the slot is its own. |
| ProcessAnswers.AgentShouldExitAnswer | agnocast_kmod/agnocast_ioctl.c:2899-2920 | The verdict is whether nobody lives in the domain; committing to it deregisters exactly that agent. |
| ProcessAnswers.CommitAnswer | agnocast_kmod/agnocast_ioctl.c:1647-1676 | Which entry a drain removes, when a daemon is deregistered, and that the verdict says whether any other entry of the namespace is left. |
| ProcessTables.ProcessTable.HasAliveUnlinkDaemon | agnocast_kmod/agnocast_ioctl.c:816-827 | The scan answers whether the namespace has a daemon. |
| ProcessTables.ProcessTable.HasAliveBridgeManager | agnocast_kmod/agnocast_ioctl.c:798-811 | The scan answers whether the namespace and domain have a live bridge manager. |
| ProcessTables.ProcessTable.FindDiscoveryAgent | agnocast_kmod/agnocast_ioctl.c:2878-2890 | The scan finds an agent of the namespace and domain exactly when there is one. |
| ProcessTables.ProcessTable.CountProcesses | agnocast_kmod/agnocast_ioctl.c:2813-2864 | The three counts: of a namespace, of a domain, and of the living of a domain, never counting the daemon. |
| ProcessTables.ProcessTable.RemoveDiscoveryAgentByPid | agnocast_kmod/agnocast_internal.c:282-295 | No agent of the pid is left, all others are. |
| ProcessTables.ProcessTable.MarkExited | agnocast_kmod/agnocast_internal.c:352-359 | A daemon's entry goes at once, any other is marked as exited. |
| ProcessTables.ProcessTable.AddDiscoveryAgent | agnocast_kmod/agnocast_ioctl.c:2924-2955 | The caller is told it owns the slot exactly when the slot is its own afterwards. |
| ExitSweep.VisitStep | agnocast_kmod/agnocast_internal.c:366-376 | One visit, with the release of its wrapper if due, leads from the tables after some visits to the tables after one more. |
| ExitSweep.EverythingVisited | agnocast_kmod/agnocast_internal.c:366-376 | After all visits the tables are those of the specification, in whatever order the wrappers were met. |
| ExitSweep.VisitExits | agnocast_kmod/agnocast_internal.c:366-370 | Whether a shared store is reached for the first or the second time, the walk leaves it exited. |
| ExitSweep.VisitDropsOnlyEmpty | agnocast_kmod/agnocast_internal.c:366-376 | A store that one visit of the walk drops is empty by then, with other stores still unvisited. |
| ExitSweep.ExitDropsOnlyEmpty | agnocast_kmod/agnocast_internal.c:361-377 | Every store an exit cleanup drops has been emptied by the exit. |
| ExitSweep.StoreVanishesEmpty | agnocast_kmod/agnocast_internal.c:174-212 | Only the two removals and exit cleanup drop a store, and each finds it empty: no message or endpoint is ever discarded with its store. |
| Kernels.Kernel.constructor | agnocast_kmod/agnocast_internal.c:10-14 | The freshly loaded module is an initial state of the transition system. |
| Kernels.Kernel.FindStore | agnocast_kmod/agnocast_ioctl.c:58-75 | The store behind the wrapper of the caller's own domain. |
| Kernels.Kernel.Publish | agnocast_kmod/agnocast_ioctl.c:1074-1146 | A publish is the step of the system; it signals one context for each listener and nobody else. |
| Kernels.Kernel.ReleaseMessageEntryReference | agnocast_kmod/agnocast_ioctl.c:605-656 | A release is the step of the system. |
| Kernels.Kernel.MapNewPublishers | agnocast_kmod/agnocast_ioctl.c:1318-1332 | The mapping half of a receive or take, with its failures; the flag is cleared only on success. |
| Kernels.Kernel.ReceiveMsg | agnocast_kmod/agnocast_ioctl.c:1254-1338 | A receive is the step of the system, mapping included; the mapping stage runs out of memory only when the allocations it is granted do not cover every publisher. |
| Kernels.Kernel.TakeMsg | agnocast_kmod/agnocast_ioctl.c:1340-1437 | A take is the step of the system, mapping included, with the same promise. |
| Kernels.Kernel.FindGroupedTopic | agnocast_kmod/agnocast_ioctl.c:84-108 | The store of the partner cell's wrapper, if that exists. |
| Kernels.Kernel.FindOrAddTopic | agnocast_kmod/agnocast_ioctl.c:132-191 | Finds or creates the wrapper of a cell; a new one shares its partner's store if there is one. |
| Kernels.Kernel.AddSubscriberTo | agnocast_kmod/agnocast_ioctl.c:911-952 | A subscriber's join is the step of the system, no failure is injected when every allocation is granted, and no context array shrinks. |
| Kernels.Kernel.AddPublisherTo | agnocast_kmod/agnocast_ioctl.c:954-989 | A publisher's join is the step of the system, no failure is injected when every allocation is granted, and no context array shrinks. |
| Kernels.Kernel.ReleaseTopicWrapper | agnocast_kmod/agnocast_internal.c:174-212 | Drops the wrapper, and the store with its last reference; a store dropped was empty. |
| Kernels.Kernel.RemoveSubscriberFrom | agnocast_kmod/agnocast_ioctl.c:2225-2303 | A subscriber's removal is the step of the system, and no remaining context array shrinks. |
| Kernels.Kernel.RemovePublisherFrom | agnocast_kmod/agnocast_ioctl.c:2305-2361 | A publisher's removal is the step of the system, and no remaining context array shrinks. |
| Kernels.Kernel.VisitWrapper | agnocast_kmod/agnocast_internal.c:366-376 | One iteration of the wrapper loop of exit cleanup. |
| Kernels.Kernel.ProcessExitCleanup | agnocast_kmod/agnocast_internal.c:327-388 | Exit cleanup is the step of the system, stores shared by two wrappers included, and no remaining context array shrinks. |
| Kernels.Kernel.AddProcess | agnocast_kmod/agnocast_ioctl.c:829-909 | A registration is the step of the system: refused, told to stand back, out of memory, or given the first free pool. |
| Kernels.Kernel.NotifyBridgeShutdown | agnocast_kmod/agnocast_ioctl.c:2866-2876 | The reporting process becomes an application. |
| Kernels.Kernel.CheckAndRequestBridgeShutdown | agnocast_kmod/agnocast_ioctl.c:2968-2987 | A manager alone in its domain is told to shut down and demoted under one lock. |
| Kernels.Kernel.AddDiscoveryAgent | agnocast_kmod/agnocast_ioctl.c:2924-2955 | An agent's claim is the step of the system. |
| Kernels.Kernel.DiscoveryAgentShouldExit | agnocast_kmod/agnocast_ioctl.c:2899-2920 | The exit gate deregisters exactly when committed in a domain without living processes. |
| Kernels.Kernel.CommitExitProcess | agnocast_kmod/agnocast_ioctl.c:1647-1676 | Draining, and the idle daemon's deregistration, are the step of the system. |
| Kernels.Kernel.AddDomainBridge | agnocast_kmod/agnocast_ioctl.c:2731-2743 | An exact registration is the step of the system and leaves every cached list right. |
| Kernels.Kernel.AddDomainBridgePrefix | agnocast_kmod/agnocast_ioctl.c:2745-2758 | A prefix registration is the step of the system and leaves every cached list right. |
| Concurrency.MoveSimulates | agnocast_kmod/agnocast_ioctl.c:1270-1300 | Every loop iteration of a receive or take is invisible to the serial store; completing one, or a release, is exactly the serial call. |
| Concurrency.ClaimSimulates | agnocast_kmod/agnocast_ioctl.c:1378-1416 | A take that has walked among running calls claims what the serial take would return, and never meets -EALREADY. |
| Concurrency.CompletedSerially | agnocast_kmod/agnocast_ioctl.c:1270-1300 | At any moment of any interleaving the completed calls have the results and the effect of running them in order of completion. |
| Concurrency.InterleavingIsSerial | agnocast_kmod/agnocast_ioctl.c:1270-1300 | Once every receive and take has completed, the store is the one the serial execution leaves. |
| Concurrency.NoReceiveFails | agnocast_kmod/agnocast_ioctl.c:554-573 | No receive or take running concurrently ever meets -EALREADY or -ENODATA. |
| ConcurrentMapping.CallIsMappingStage | agnocast_kmod/agnocast_ioctl.c:1318-1332 | The serial call below is the mapping stage of a receive or take. |
| ConcurrentMapping.MoveSimulates | agnocast_kmod/agnocast_ioctl.c:711-786 | A reference that one mapping walk makes among others is invisible to the serial pools; ending a walk, by success or either failure, is exactly the serial call. |
| ConcurrentMapping.CompletedSerially | agnocast_kmod/agnocast_ioctl.c:711-786 | At any moment of any interleaving of mapping walks, the ended calls have the results and the effect of running them in order of completion. |
| ConcurrentMapping.MappingIsSerial | agnocast_kmod/agnocast_memory_allocator.c:153-180 | Once every walk has ended, the pools have the mappers and counts that the serial execution leaves, in some order. |
| ExitQueues.ExitQueue.constructor | agnocast_kmod/agnocast_init.c:109-112 | The ring starts empty with has_new_pid clear. |
| ExitQueues.ExitQueue.Enqueue | agnocast_kmod/agnocast_internal.c:251-279 | Appends the pid and asks for a wakeup, unless 65535 pids are pending. |
| ExitQueues.ExitQueue.Dequeue | agnocast_kmod/agnocast_init.c:40-52 | Takes the oldest pid, if any, and clears has_new_pid when none is left. |
| ExitQueues.ExitQueue.DrainAll | agnocast_kmod/agnocast_init.c:34-57 | One wakeup consumes everything pending, in order. |
| ExitQueues.SliceLength | agnocast_kmod/agnocast_internal.c:257-261 | One slot stays empty, so that a full ring differs from an empty one. |
| ExitQueues.TraceFaithful | agnocast_kmod/agnocast_init.c:24-61 | Under any interleaving the accepted pids are consumed in order, none lost or repeated, and has_new_pid is set exactly when the ring holds one. |
| ExitQueues.RefusedOnlyWhenFull | agnocast_kmod/agnocast_internal.c:261-278 | A pid is refused only while 65535 accepted ones wait. |
| ExitQueues.NeverSleepsOnPending | agnocast_kmod/agnocast_init.c:26-33 | The worker is stuck only when everything accepted has been cleaned up, or a stop was requested. |
| ExitQueues.DrainPlanCleansAll | agnocast_kmod/agnocast_init.c:35-57 | Left alone after a wakeup the worker cleans up everything pending and goes back to sleep. |
| ExitPipeline.TablesRun | agnocast_kmod/agnocast_init.c:35-57 | Queue and tables together: the tables go through a run whose process exits are the pids the worker cleaned, in order. |
| ExitPipeline.AcceptedExitOnce | agnocast_kmod/agnocast_init.c:35-57 | The process exits the tables have seen are the accepted pids but those still pending, each once and in order; once the worker sleeps they are all of them. |
| ExitPipeline.RefusedNeverCleaned | agnocast_kmod/agnocast_internal.c:251-279 | A pid that is neither pending nor accepted later, such as one the full queue refused, stays registered as living and keeps its pool mapped. |
| QueueBound.PipelineKeepsWaiting | agnocast_kmod/agnocast_internal.c:239-249 | Under any orderly interleaving the pids waiting for cleanup are distinct, and all are registered and living. |
| QueueBound.WaitingBound | agnocast_kmod/agnocast_internal.h:307-309 | There are never more pids waiting than pools and agents. |
| QueueBound.OverflowsExactly | agnocast_kmod/agnocast_internal.h:307-309 | For each number of pools and agents: some orderly interleaving makes the ring refuse an exit exactly when pools and agents together exceed its 65535 places. |
| AlignedHeaps.MaskRoundsDown | agnocast_heaphook/src/tlsf.rs:49-49 | Clearing the low bits of a 64-bit address rounds it down to a multiple of any power of two. |
| AlignedHeaps.AlignedAddrFits | agnocast_heaphook/src/tlsf.rs:49-53 | The user's address is aligned, leaves room for the back-pointer and lies within the padding. |
| AlignedHeaps.PointerRoundTrip | agnocast_heaphook/src/tlsf.rs:56-56 | A pointer stored as a word is read back as itself. |
| AlignedHeaps.UsersApart | agnocast_heaphook/src/tlsf.rs:32-59 | Two live allocations share no byte, back-pointers included. |
| AlignedHeaps.AlignedHeap.HandOut | agnocast_heaphook/src/tlsf.rs:55-56 | The word in front of the user's address lies in the block and names it; no other allocation is touched. |
| AlignedHeaps.AlignedHeap.Allocate | agnocast_heaphook/src/tlsf.rs:32-59 | The result is aligned, non-zero and new; every other allocation keeps its data; failure is exactly the inner allocator's or a size beyond isize. |
| AlignedHeaps.AlignedHeap.Shift | agnocast_heaphook/src/tlsf.rs:98-110 | The overlapping move stays inside the new block and keeps the data. |
| AlignedHeaps.AlignedHeap.Reallocate | agnocast_heaphook/src/tlsf.rs:61-116 | The result is aligned, its first min(old, new) bytes are the old ones, all accesses stay inside the block, all other allocations keep their data, and a failure changes nothing. |
| AlignedHeaps.AlignedHeap.Deallocate | agnocast_heaphook/src/tlsf.rs:118-126 | Exactly the block that the back-pointer names is freed. |
| AlignedHeaps.OwnWrite | agnocast_heaphook/src/tlsf.rs:32-59 | A write inside a user's own data changes that data as written, leaves the back-pointer and everybody else's data, and keeps the heap invariant. |
| AlignedHeaps.AlignedHeap.WriteData | agnocast_heaphook/src/tlsf.rs:32-59 | The same in place, so that histories of allocating, writing, reallocating and freeing compose. |
| CpuLists.NumeralRoundTrip | src/agnocast_cie_thread_configurator/src/system_scan.cpp:59-67 | Every non-negative int that is written is read back. |
| CpuLists.TokensJoin | src/agnocast_cie_thread_configurator/src/system_scan.cpp:332-338 | Splitting at commas undoes joining with commas. |
| CpuLists.JoinTokens | src/agnocast_cie_thread_configurator/src/system_scan.cpp:332-338 | Splitting at commas loses nothing. |
| CpuLists.AcceptedTokens | src/agnocast_cie_thread_configurator/src/system_scan.cpp:340-356 | A token is accepted exactly when it is digits up to 8191, digits around one dash in order and up to 8191, or zeros around two dashes. |
| CpuLists.KernelFormatTokens | src/agnocast_cie_thread_configurator/src/system_scan.cpp:340-356 | An accepted token is in the kernel's format exactly when the character after its first dash is not a dash. |
| CpuLists.TokenCovers | src/agnocast_cie_thread_configurator/src/system_scan.cpp:340-356 | A token covers the number it is, or all numbers from the first to the last of its two, or zero. |
| CpuLists.MinusZeroAccepted | src/agnocast_cie_thread_configurator/src/system_scan.cpp:347-355 | The text 0--0 is accepted. |
| CpuLists.ReadingUnique | src/agnocast_cie_thread_configurator/src/system_scan.cpp:321-361 | A text has one reading: the increasing list of what its numbers and ranges cover. |
| CpuLists.FormatCpuList | src/agnocast_cie_thread_configurator/src/system_scan.cpp:309-319 | Writes the numerals separated by commas. |
| CpuLists.ParseCpuList | src/agnocast_cie_thread_configurator/src/system_scan.cpp:321-361 | Accepts exactly the well-formed texts, trailing blanks aside, and returns their reading. |
| CpuLists.FormatReadsBack | src/agnocast_cie_thread_configurator/src/system_scan.cpp:309-361 | What is written for a non-empty increasing list up to 8191 has that list as its reading. |
| CpuLists.FormatThenParse | src/agnocast_cie_thread_configurator/src/system_scan.cpp:309-361 | Writing, then reading, returns the list. |
| CpuLists.ParseManageableCpuList | src/agnocast_cie_thread_configurator/src/system_scan.cpp:368-382 | The reading restricted to the CPUs up to the bound, or nothing when none remains. |

## Left out

- TopicModel.Inserted: entry ids are mathematical integers; the source's counter is 64 bits wide and is taken never to overflow.
- ExitQueues.ExitQueue.Enqueue: the atomics and memory barriers around has_new_pid are represented by the lock that both sides hold.
- TopicModel.AddSubscriber: does not record what no decision reads: node names, reliability and durability flags; nor log output.
- Kernels.Kernel.ReceiveMsg: does not model the copy of results to user space and the translation of pids between pid namespaces, with its -ESRCH.
- Kernels.Kernel.AddProcess: does not model unknown role numbers, which the Role datatype cannot express.
- TopicStructs.TopicStruct.ReserveNotifyCtxs: a context array is its filled prefix and a capacity; its unused tail is not represented.
- Publisher and subscriber records are values in tables of the store, so aliasing between two pointers to one record is not represented; the tree of entries is a sequence in key order, so rebalancing is not either.
- The interleavings of the delivery walks (Concurrency) and of the mapping walks (ConcurrentMapping) are two theorems, not one: the two stages of a call share no state that another call writes. A take's test-and-set and its progress write are one step, since no other call reads that progress.
- agnocast_increment_message_entry_rc, a helper of the unit tests that sets bits without recording progress.
- Bridge ownership (add_bridge, remove_bridge, and the removal of a dead owner's entries on exit): two flags and a pid check.
- Introspection: topic lists, endpoint information, node names, counts and QoS queries only read.
- Module loading and unloading, device setup, ioctl dispatch and argument copying.
- The libc hooks of the heap library, its pool setup, and the TLSF library itself.
- The thread configurator beyond its CPU lists: directory scans, YAML, system calls.
- RCU.
- Live progress of the worker under unending exits: only its progress when left alone is stated.
