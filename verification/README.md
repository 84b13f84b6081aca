# Verification model of the browser-side probe scripts

This project models the schedulers, locks, buffers and encoders that run in the visitor's browser, and one
generator script, and proves what they keep. `dafny verify dfyconfig.toml` checks all of it (Dafny 4.11).

Each script that changes state appears twice: as functions on a value of its state, and as a class (or an
in-place array method) whose methods carry the script's loops and assignments and are proved equal to those
functions. The properties are lemmas about the functions, over every input or over every run; a run is a list
of atomic steps, one per callback of the event loop, with the clock and the random draws as inputs.

| Modules | What they model |
|---|---|
| `ResourceClasses`, `ResourceBus`, `LockProtocol`, `ForcedRelease`, `LockTheorems` | the multi-class lock: ranked acquire, waiter queues, nested entry, reverse release, forced release |
| `Pump`, `PumpTheorems`, `KickRuns`, `B10Lead`, `KickQueueObject` | the concurrency-limited pump of a kick, from start to resolution, and the place it keeps for a waiting B10 pack |
| `KickOrder`, `Staging` | the order in which a kick admits its packs, and the stages of a route plan |
| `Rpa`, `RpaTheorems` | the two-track event buffer and the segment and ack protocol on top of it |
| `Coordinator`, `CoordinatorTheorems`, `ClaimRaces` | the election of the one heavy tab by Web Lock or by a lease in shared storage, with atomic claims and with claims that other tabs come between |
| `Utf8`, `Base64`, `SealFrame` | the string glue of the wasm module, base64 of byte arrays, and the bytes a sealed envelope is signed over |
| `QueryCleaner`, `QueryParameters` | the removal of the two legacy parameters from the address bar |
| `SlidingWindow`, `ReportLimiter`, `Lifecycle` | the per-minute report limiter and the failure budget |
| `GlGovernor` | the live list and the shared pool of WebGL contexts |
| `Sampler` | the seeded resampling of the on-demand packs |

## What the code does not keep

Where a comment or a name in the scripts promises more than the code does, the model follows the code, gives an
input on which the promise fails, and proves exactly when it holds.

- A second call for classes whose depths are all positive is taken for a nested one and runs at once, beside the
  holders (`LockTheorems.ArrivalOverlapsIff`, `LockTheorems.SecondCallerOverlaps`). The depths are right in every state
  of a run if and only if no class is given up or forced away under a nested function
  (`LockTheorems.AlwaysDepthsExactIff`), and then these are exactly the classes held
  (`LockTheorems.BracketedArrivalOverlapsIff`); otherwise a class can be held at depth 0, and the next call for it
  queues (`LockTheorems.HeldAtDepthZero`). Exclusion is therefore stated for the callers that went through the acquire
  chain.
- A forced release, which every pack timeout runs for three classes, makes the first waiter a second owner of a held
  class, so it leaves single ownership alone if and only if the class was not held or nobody waited
  (`ForcedRelease.ForceKeepsSingleOwnerIff`, `ForcedRelease.ForcedReleaseTwoOwners`). When nobody waits the old owner
  is merely no longer recorded (`ForcedRelease.ForceKeepsInvIff`), and the next caller that takes the class is the
  second owner (`ForcedRelease.NextTakeDoublesOwner`). Exclusion holds for the runs whose forced releases hit free
  classes only; the queues, the wake-ups, freedom from deadlock and the completion of every call hold in all runs
  (`ForcedRelease.RunKeepsConsistent`, `LockTheorems.SomeoneCanStep`, `LockTheorems.StuckRunIsComplete`).
- A kick whose first pump call finds only packs with unmet dependencies, or only packs that wait for B10, arms no
  timer and never resolves (`KickRuns.DeadOnArrivalIff`, `KickRuns.SoftDependencyNeverRuns`), although its comment
  says that the timer wakes it and that a dependency stays soft after one try. A staged plan waits behind it. A
  later callback that finds the same with nothing running kills the kick too (`KickRuns.DiesAtCallbackIff`).
- A blocked B10 head changes places with the light pack that is pulled forward, which puts it behind the exclusive
  packs between the two. A turn leaves it in front of them if and only if the light pack stands right behind it or
  there is none (`B10Lead.BlockedB10TurnIff`; for any turn and any waiting pack `B10Lead.TurnKeepsLeadIff`), and a
  whole call if and only if the light packs clear (`B10Lead.BlockedB10CallIff`): those right behind it use up the light
  slots or no other light pack follows (`B10Lead.LightsClearIff`), and one that is deferred gives way to a light pack or
  to none. An exclusive pack that gets in front and can run is launched before it (`B10Lead.OvertakenB10`; from the
  start of a kick of four packs, `B10Lead.B10OvertakenFromStart`).
- A forced flush of nothing makes an empty segment with the next number; its ack drops the event that gets that
  number. No acknowledged event is lost in any state of a run if and only if every ack is harmless: of a segment with
  events, or of a number acknowledged, sent or evicted before (`RpaTheorems.AlwaysCoveredIff`,
  `RpaTheorems.AckKeepsCoverageIff`, `RpaTheorems.AckedEmptySegmentLosesEvent`).
- A heavy tab that is silent for a lease lifetime is joined by a second one (`CoordinatorTheorems.LeaseSafeIff`).
- A storage claim is a check, a write, a reading back and a taking over, and other tabs can come between. With
  heartbeats in time there is one heavy tab at most if and only if no tab takes over after another one, heavy still,
  took over between its check and its write or between its reading back and its taking over (`ClaimRaces.OneHeavyIff`,
  `ClaimRaces.TwoHeavyInOrder`; `ClaimRaces.LateWriteIsNotDetected`, `ClaimRaces.EarlyReadIsNotDetected`). The reading
  back covers the time between write and reading only (`ClaimRaces.EarlyWriteIsDetected`). Claims that do not overlap
  are safe, and so are all claims by Web Lock (`ClaimRaces.SerialClaimsOneHeavy`, `ClaimRaces.LockTabsOneHeavy`).
- A business parameter whose value holds a question mark before `gr_v=` is cut short
  (`QueryParameters.CleanKeepsPromiseIff`, `QueryParameters.InnerQuestionMarkIsCut`).
- The rest of the ordinary batches ends before its time when a later failure finds fewer failures in the window than
  the budget, and also when the session is opened again, cools or is marked as needing probes; nothing else ends it
  (`Lifecycle.RestGoesOnIff`, `Lifecycle.RestLastsIff`, `Lifecycle.RestCutShort`).
- The public hard release forgets shared contexts without losing them, so the next canvas makes a second one
  (`GlGovernor.ReleaseHardLeaks`). At most one shared context of each type is alive throughout a run if and only if no
  canvas asks for a type whose context was let go of like this and lives still (`GlGovernor.OneSharedIff`), and the
  release is safe for all that comes next if and only if no shared context is alive
  (`GlGovernor.ReleaseHardSafeIff`). The bound is on the list, not on the
  contexts alive: none is lost to make room, and they stay within the bound if and only if no more were made
  (`GlGovernor.AliveBoundedIff`, `GlGovernor.PageContextsPileUp`).
- Text with a lone surrogate does not survive the trip through wasm memory (`Utf8.RoundTripIff`), and a bar inside a
  field of a sealed envelope can be moved into the next field (`SealFrame.V2SplitsBackIff`, `SealFrame.BarsCollide`).
- A pack that a parallel group lists under its packId only, while it has another id, is never handed to a kick
  (`Staging.EachHandedOnceIff`, `Staging.ListedByOtherNameIsLost`).
- The generator's self-check is announced as asking for twelve dimensions; it asks for one (`Sampler.CheckFailsIff`).

## Model

| member | source | states |
|---|---|---|
| ResourceClasses.UniqueClasses | probe/fe/pack_loader.js:372-389 | the list is the set of exclusive classes asked for, each once, in strictly rising rank; the light class alone when none was asked for |
| ResourceClasses.RankedListUnique | probe/fe/pack_loader.js:384-388 | callers that ask for the same classes acquire them in the same order, however they wrote them down |
| ResourceBus.SharedBus.constructor | probe/fe/pack_loader.js:477-486 | a fresh bus has no holder, no waiter and no depth |
| ResourceBus.SharedBus.IsAllNested | probe/fe/pack_loader.js:532-534 | a call counts as nested exactly when every class of its list has a positive depth |
| ResourceBus.SharedBus.Take | probe/fe/pack_loader.js:566-588 | a free class is taken at depth one, a held one gets the caller at the end of its queue |
| ResourceBus.SharedBus.Release | probe/fe/pack_loader.js:590-602 | the class is free at depth zero and the head of its queue, if any, is the one woken |
| ResourceBus.SharedBus.ReleaseList | probe/fe/pack_loader.js:612-622 | the list is released from its end, and the callers woken are the queue heads in that order |
| ResourceBus.SharedBus.Nest | probe/fe/pack_loader.js:535-563 | entering and leaving a nested function shift the depth of every class of the list |
| ResourceBus.ShiftDepths | probe/fe/pack_loader.js:535-563 | a nested entry or exit moves each depth of its list by one and leaves every other depth, holder and queue alone |
| ResourceBus.SharedBus.Force | probe/fe/pack_loader.js:631-662 | forced release drops the holder, empties the queue and lets every old waiter retry at once; it reports whether there was a holder |
| ResourceBus.ForceReleaseHandsOver | probe/fe/pack_loader.js:635-646 | after it the first waiter holds the class and the others are queued again in their old order |
| LockProtocol.AttemptKeepsQueues | probe/fe/pack_loader.js:566-588 | a take keeps each queue the duplicate-free list of exactly the callers that wait for its class |
| LockProtocol.AttemptKeepsNoLostWakeup | probe/fe/pack_loader.js:570-586 | a take never leaves a queue without a holder or a wake-up on its way |
| LockProtocol.SettleKeepsInv | probe/fe/pack_loader.js:543-562 | however a function ends, leaving keeps the same |
| LockProtocol.ArriveKeepsInv | probe/fe/pack_loader.js:513-544 | the arrival of a call, locked, nested or without lock, keeps queues, wake-ups, holders and nesting right in every state, and the record of the owners where it is complete |
| ForcedRelease.ForceKeepsConsistent | probe/fe/pack_loader.js:631-662 | a forced release, whoever holds the class, keeps the queues, the wake-ups, the nesting and the holders right |
| ForcedRelease.RunKeepsConsistent | probe/fe/pack_loader.js:513-662 | all of that holds in every state of every run |
| ForcedRelease.ForceKeepsInvIff | probe/fe/pack_loader.js:625-662 | a forced release keeps every owner recorded if and only if the class was not held |
| ForcedRelease.AlwaysInvIff | probe/fe/pack_loader.js:513-662 | over any run, every owner is recorded in every state if and only if the forced releases hit free classes only |
| LockTheorems.MutualExclusion | probe/fe/pack_loader.js:566-623 | in every run whose forced releases hit free classes only, no class has two owners, its holder record is set exactly while it has one, and two functions sharing a class run together only if one was admitted as nested |
| LockTheorems.SettleKeepsDepthsExactIff | probe/fe/pack_loader.js:543-562 | the depth stays one for the holder plus one per nested function exactly when no owner leaves before the nested functions on its classes |
| LockTheorems.ForceKeepsDepthsExactIff | probe/fe/pack_loader.js:635-646 | a forced release leaves the depths exact if and only if no nested function executes on its class |
| LockTheorems.AlwaysDepthsExactIff | probe/fe/pack_loader.js:530-662 | over any run, depths are exact in every state if and only if no class is given up or forced away while a nested function executes on it |
| LockTheorems.ArrivalOverlapsIff | probe/fe/pack_loader.js:531-544 | in every reachable state a call for exclusive classes runs its function at once exactly when all their depths are positive, and then all of them are held |
| LockTheorems.BracketedArrivalOverlapsIff | probe/fe/pack_loader.js:530-562 | after any run in which nested functions end before their classes are given up or forced away it does so exactly when all of them are held |
| LockTheorems.HeldAtDepthZero | probe/fe/pack_loader.js:543-562 | a run of seven steps, in which a holder leaves before a nested function, ends with the gpu held at depth 0 and the next call for it not nested |
| LockTheorems.SecondCallerOverlaps | probe/fe/pack_loader.js:531-544 | so a second, unrelated call for the gpu runs beside the first |
| LockTheorems.SomeoneCanStep | probe/fe/pack_loader.js:604-611 | deadlock freedom in every state, after any forced releases: while any caller is unfinished some caller can take, run or finish, because waiters hold lower ranks only |
| LockTheorems.StepReducesWork | probe/fe/pack_loader.js:566-623 | every take and every finish strictly reduces a measure of the work left |
| LockTheorems.ForceKeepsWork | probe/fe/pack_loader.js:635-646 | a forced release adds no work |
| LockTheorems.RunBoundedByWork | probe/fe/pack_loader.js:566-662 | a run without new calls, whatever is forced in it, has no more takes and finishes than that measure |
| LockTheorems.StuckRunIsComplete | probe/fe/pack_loader.js:566-662 | any run, forced releases included, that can go no further has finished every caller and freed every class and queue |
| ForcedRelease.ForceStepEffect | probe/fe/pack_loader.js:635-646 | among the callers a forced release moves the first waiter only, and it takes the class |
| ForcedRelease.ForceKeepsSingleOwnerIff | probe/fe/pack_loader.js:625-662 | a forced release leaves no class with two owners if and only if the class was not held or nobody waited for it |
| ForcedRelease.NextTakeDoublesOwner | probe/fe/pack_loader.js:625-662 | forced away while nobody waits, the class gets a second owner at the next take of it |
| ForcedRelease.ForcedReleaseTwoOwners | probe/fe/pack_loader.js:625-662 | a run of five steps ends with two owners of the gpu |
| KickQueueObject.KickQueue.constructor | probe/fe/pack_loader.js:1060-1069 | a kick without packs is resolved at once, any other pumps at once |
| KickQueueObject.KickQueue.DagDepUnmet | probe/fe/pack_loader.js:1465-1498 | a dependency is unmet when it was neither kicked nor launched before this slot and the pack was not deferred yet |
| KickQueueObject.KickQueue.FindBehindHead | probe/fe/pack_loader.js:1117-1134 | the scan returns the first admissible pack behind the head under the given search |
| KickQueueObject.KickQueue.PullForward | probe/fe/pack_loader.js:1135-1140 | the found pack and the head change places, and without one the pump stops |
| KickQueueObject.KickQueue.MarkClasses | probe/fe/pack_loader.js:1086-1094 | the loop adds to the counter of every exclusive class of the pack and never goes below zero |
| KickQueueObject.KickQueue.Turn | probe/fe/pack_loader.js:1105-1298 | one iteration of the pump takes the branch of the script: defer, launch light, wait for B10, wait for classes, launch |
| KickQueueObject.KickQueue.PumpNow | probe/fe/pack_loader.js:1096-1299 | the loop ends and does what repeated turns do |
| KickQueueObject.KickQueue.FreeSlot | probe/fe/pack_loader.js:1147-1163 | a settled run writes its own slot and lowers the counters it had raised |
| KickQueueObject.KickQueue.Settle | probe/fe/pack_loader.js:1071-1075 | after it the kick resolves when nothing is pending and pumps otherwise |
| KickQueueObject.KickQueue.FireTimer | probe/fe/pack_loader.js:1265-1270 | the wait timer pumps again |
| Pump.TurnProgress | probe/fe/pack_loader.js:1105-1298 | the pump call ends: a turn that goes on launches, or spends a deferral, or puts an admissible pack at a blocked head |
| PumpTheorems.LoopKeeps | probe/fe/pack_loader.js:1104-1299 | a pump call permutes what lies behind the launched prefix, launches, and changes nothing else |
| PumpTheorems.CountersSeeRunning | probe/fe/pack_loader.js:1097-1103 | running packs show in the counters, so the halt branch resolves only when everything has settled |
| PumpTheorems.StartKeepsInv | probe/fe/pack_loader.js:1060-1069 | a started kick satisfies the invariant: counters equal the running packs, at most maxLight light ones, at most one per exclusive class, pending counts what is not settled |
| PumpTheorems.CompleteKeepsInv | probe/fe/pack_loader.js:1071-1094 | settling a run keeps it, lowers pending by one, writes one slot and leaves the launched prefix |
| PumpTheorems.TimerKeepsInv | probe/fe/pack_loader.js:1265-1270 | so does the timer |
| KickRuns.RunKeeps | probe/fe/pack_loader.js:1060-1300 | over any run launched packs stay in their slots, written results stay, and pending plus settled runs is constant |
| KickRuns.RunningPacksDisjoint | probe/fe/pack_loader.js:1076-1094 | in every reachable state running packs share no exclusive class and the pack array is a permutation of the packs handed in |
| KickRuns.ResolvesAfterAllSettle | probe/fe/pack_loader.js:1071-1075 | the kick is resolved exactly after as many settled runs as there are packs, with every slot written |
| KickRuns.IdlePumpStallsIff | probe/fe/pack_loader.js:1105-1200 | with nothing running the pump launches nothing if and only if every remaining pack has an unmet dependency it was not deferred for yet, or every one must wait for B10 and the first without such a dependency is exclusive |
| KickRuns.PumpCallStallsIff | probe/fe/pack_loader.js:1096-1299 | a pump call with work left ends with nothing running if and only if nothing ran before and the condition held; no timer is armed then |
| KickRuns.OpenKickCompletes | probe/fe/pack_loader.js:1060-1300 | if no pump call stalls, an unresolved kick always has a run to settle |
| KickRuns.DeadOnArrivalIff | probe/fe/pack_loader.js:1135 | a kick is dead on arrival, unresolved with no callback to come, if and only if its first pump call stalls |
| KickRuns.DiesAtCallbackIff | probe/fe/pack_loader.js:1096-1300 | in any reachable kick a callback leaves it unresolved with no callback to come if and only if it finds work left, nothing running, no timer armed and the stall condition |
| KickRuns.SoftDependencyNeverRuns | probe/fe/pack_loader.js:1457-1464 | one light pack with a dependency that nobody kicks is such a kick |
| KickRuns.TurnDeferral | probe/fe/pack_loader.js:1105-1141 | a pack is launched with a missing dependency only after its one deferral |
| B10Lead.TurnKeepsLeadIff | probe/fe/pack_loader.js:1105-1298 | any turn leaves any waiting pack in front of the exclusive packs behind it if and only if it pulls nothing or its swap moves no exclusive pack past that pack |
| B10Lead.BlockedB10TurnIff | probe/fe/pack_loader.js:1201-1276 | the turn of a ready B10 head that waits for its classes does so if and only if the search finds the pack right behind it or none |
| B10Lead.BlockedB10CallIff | probe/fe/pack_loader.js:1104-1299 | every turn of the whole call does so if and only if the light packs clear: place by place, with a slot free, the pack behind the head is light or no light pack follows at all, and one with a missing dependency gives way to a light pack or to none |
| B10Lead.LightsClearIff | probe/fe/pack_loader.js:1201-1276 | when none of the light packs right behind it that get a slot lacks a dependency, they clear if and only if they use up the free slots or no light pack stands behind an exclusive one |
| B10Lead.OvertakenB10 | probe/fe/pack_loader.js:1105-1298 | an exclusive pack that can run and gets in front of the head, because a ready light pack behind it is pulled forward or a deferred light pack gives way to it, is launched in that call and the B10 pack is not |
| B10Lead.B10OvertakenFromStart | probe/fe/pack_loader.js:1060-1299 | starting a kick of both B10 names, a bootstrap pack and a light pack launches the bootstrap pack before the second B10 pack |
| KickOrder.ShuffleInPlace | probe/fe/pack_loader.js:695-716 | the in-place Fisher-Yates loop equals the rounds of the specification for the generator and seed |
| KickOrder.ShuffledKeeps | probe/fe/pack_loader.js:706-715 | the shuffle is a permutation with every index in range, whatever the generator gives |
| KickOrder.Order | probe/fe/pack_loader.js:747-771 | the loop sorts the packs into the three lists and puts them one behind the other when there is anything to put in front |
| KickOrder.ByPriorityFalls | probe/fe/pack_loader.js:732-734 | the sort is by non-increasing priority |
| KickOrder.ByPriorityStable | probe/fe/pack_loader.js:732-734 | and keeps the order of packs of the same priority |
| KickOrder.OrderedIsStable | probe/fe/pack_loader.js:740-772 | primary packs lead, must-land packs follow by non-increasing priority and stably, the others keep their relative order |
| KickOrder.KickListKeeps | probe/fe/pack_loader.js:723-772 | no pack is lost or doubled by shuffle, sort and reordering |
| KickOrder.KickListOrder | probe/fe/pack_loader.js:723-772 | the same for the whole way from the packs handed in to the list of the kick, shuffled or sorted |
| Staging.Plan | probe/fe/pack_loader.js:1765-1799 | the loop over the groups hands over the stages of the specification and the unlisted packs last |
| Staging.HandedCount | probe/fe/pack_loader.js:1768-1796 | over all stages a pack is handed over once per group that lists it, and once more at the end if neither of its names is listed |
| Staging.EachHandedOnceIff | probe/fe/pack_loader.js:1768-1796 | every pack is handed over exactly once if and only if each is listed by one group at most and none by its packId alone |
| Staging.ListedByOtherNameIsLost | probe/fe/pack_loader.js:1770-1794 | a pack listed by its packId alone is never handed over |
| Rpa.Monitor.DropFirst | probe/fe/rpa_monitor.js:46-55 | the first event of the track from the front is spliced out, and the result tells whether there was one |
| Rpa.DropOldestAt | probe/fe/rpa_monitor.js:48-53 | the first hit of the scan is the oldest event of its track |
| Rpa.Monitor.CountKind | probe/fe/rpa_monitor.js:57-63 | the loop counts the events of one track |
| Rpa.Monitor.DualTrackAdmit | probe/fe/rpa_monitor.js:69-95 | both loops together leave what the specification of the admission leaves |
| Rpa.Monitor.PushEvent | probe/fe/rpa_monitor.js:221-262 | a push admits, appends and numbers |
| Rpa.Monitor.EventsAboveAck | probe/fe/rpa_monitor.js:757-762 | the slice is the buffered events above ackedSeq, in order |
| Rpa.Monitor.FlushNow | probe/fe/rpa_monitor.js:751-773 | a flush resends the segment in flight or cuts a new one, or sends nothing |
| Rpa.Monitor.AckSegment | probe/fe/rpa_monitor.js:1220-1234 | an ack raises ackedSeq, never lowers it, and settles the segment by id or by range |
| RpaTheorems.AdmitOnBuffer | probe/fe/rpa_monitor.js:69-95 | on any buffer a push drops at most the oldest event of its own track and the global cap never fires |
| RpaTheorems.PushRefinesHistory | probe/fe/rpa_monitor.js:69-95 | pushing onto the buffer of a history gives the buffer of the longer history |
| RpaTheorems.PushKeepsOtherTrack | probe/fe/rpa_monitor.js:65-68 | a move never evicts an action, nor an action a move |
| RpaTheorems.TrackOfRetain | probe/fe/rpa_monitor.js:20-27 | each track of the buffer is the last part of that track of the history |
| RpaTheorems.BufferAfterRun | probe/fe/rpa_monitor.js:69-95 | after any run of pushes, flushes and acks the buffer is the last 48 moves and last 32 actions ever pushed, in strictly increasing number |
| RpaTheorems.FreshSegment | probe/fe/rpa_monitor.js:757-772 | a fresh segment carries exactly the buffered events above ackedSeq, in order |
| RpaTheorems.ResendsInflight | probe/fe/rpa_monitor.js:754-756 | a non-empty segment in flight is sent again with the same events, range and id |
| RpaTheorems.ResentUntilAcked | probe/fe/rpa_monitor.js:751-773 | and so on by every flush of any run until an ack reaches it |
| RpaTheorems.AckKeepsCoverageIff | probe/fe/rpa_monitor.js:1220-1234 | an ack leaves every number up to ackedSeq sent or evicted if and only if its segment carried events, or ends at a number acknowledged, sent or evicted before |
| RpaTheorems.AlwaysCoveredIff | probe/fe/rpa_monitor.js:751-773 | conservation: over any run, every number up to ackedSeq was sent or evicted in every state if and only if every ack is of that kind |
| RpaTheorems.AckedSeqNeverFalls | probe/fe/rpa_monitor.js:1220-1234 | ackedSeq never decreases over any run |
| RpaTheorems.AckedEmptySegmentLosesEvent | probe/fe/rpa_monitor.js:764-769 | after a forced flush of nothing, a click and the ack, the click is acked, was never sent and never will be |
| Coordinator.OriginTab.OnLock | probe/fe/origin_coordinator.js:418-443 | the lock callback makes the tab heavy exactly when the lock is free and no other tab's lease is alive |
| Coordinator.OriginTab.ClaimByStorage | probe/fe/origin_coordinator.js:459-479 | the storage acquire succeeds exactly when the lease is free, stale or the tab's own; its verification reads back its own write |
| Coordinator.OriginTab.Release | probe/fe/origin_coordinator.js:372-383 | releasing clears the lease only if it is the tab's own |
| CoordinatorTheorems.LockModeRun | probe/fe/origin_coordinator.js:416-443 | with Web Locks every heavy tab owns the lock, through delayed drops, demotions and crashes |
| CoordinatorTheorems.LockModeOneHeavy | probe/fe/origin_coordinator.js:416-443 | so at most one of any number of tabs is heavy in any run |
| CoordinatorTheorems.LeaseModeRun | probe/fe/origin_coordinator.js:459-479 | with storage leases and heartbeats closer than the lifetime a heavy tab's lease is its own and alive, and it is the only heavy tab |
| CoordinatorTheorems.SilentLeaderIsJoined | probe/fe/origin_coordinator.js:288-292 | a tab silent for a lifetime is joined by a second heavy one |
| CoordinatorTheorems.LeaseSafeIff | probe/fe/origin_coordinator.js:39-40 | atomic acquires never make two heavy tabs if and only if no heavy tab is silent for a lease lifetime; the heartbeat interval is shorter than that |
| ClaimRaces.UninterruptedClaim | probe/fe/origin_coordinator.js:416-479 | check, write, reading back and taking over without other events in between are the atomic claim |
| ClaimRaces.OneHeavyIff | probe/fe/origin_coordinator.js:459-479 | over all runs of tabs of both kinds with heartbeats in time, every state has one heavy tab at most if and only if no tab takes over after another one, heavy still, took over between its check and its write or between its reading back and its taking over |
| ClaimRaces.TwoHeavyInOrder | probe/fe/origin_coordinator.js:459-479 | in the order of the events: a run that ever has two heavy tabs has such a taking over, after that of a tab which was still heavy then |
| ClaimRaces.SerialClaimsOneHeavy | probe/fe/origin_coordinator.js:459-479 | runs in which no claim begins during another have one heavy tab at most |
| ClaimRaces.LockTabsOneHeavy | probe/fe/origin_coordinator.js:416-443 | with Web Locks in every tab every interleaving of the steps has one heavy tab at most |
| ClaimRaces.LateWriteIsNotDetected | probe/fe/origin_coordinator.js:467-478 | from the start, two tabs check, the first writes, reads back and takes over, the second writes, reads its own lease back and takes over too |
| ClaimRaces.EarlyReadIsNotDetected | probe/fe/origin_coordinator.js:467-478 | from the start, two tabs check, the first writes and reads back, the second writes and reads back, and both take over |
| ClaimRaces.EarlyWriteIsDetected | probe/fe/origin_coordinator.js:470-476 | when both write before either reads back, only the second takes over |
| Utf8.WasmGlue.PassString | probe/fe/gr.seal_v2_loader.js:86-123 | the array returned holds exactly the UTF-8 encoding of the string and the vector length is its byte count |
| Utf8.WasmGlue.PassTail | probe/fe/gr.seal_v2_loader.js:109-119 | the slow tail writes the rest behind the ASCII prefix inside three bytes a unit and shrinks to the end |
| Utf8.WasmGlue.CopyAscii | probe/fe/gr.seal_v2_loader.js:103-107 | the loop copies the ASCII prefix and stops at the first unit above 0x7F |
| Utf8.WasmGlue.PassStringExact | probe/fe/gr.seal_v2_loader.js:88-94 | the branch without a realloc gives the same bytes and length |
| Utf8.WasmGlue.GetString | probe/fe/gr.seal_v2_loader.js:25-28 | a string read back is one whose encoding is exactly the bytes, and where the bytes encode some string it is that string with its lone surrogates replaced |
| Utf8.EncodeAsciiPrefix | probe/fe/gr.seal_v2_loader.js:103-112 | an ASCII prefix is its own encoding and the rest can be encoded on its own |
| Utf8.EncodeFits | probe/fe/gr.seal_v2_loader.js:113 | three bytes a unit are enough for any string |
| Utf8.DecodeEncode | probe/fe/gr.seal_v2_loader.js:12 | decoding an encoded string gives the string with every lone surrogate replaced by U+FFFD, for every string |
| Utf8.EncodeDecode | probe/fe/gr.seal_v2_loader.js:12 | every byte sequence the decoder accepts is the encoding of what it returns |
| Utf8.RoundTripIff | probe/fe/gr.seal_v2_loader.js:25-28 | a string survives the trip if and only if it has no lone surrogate |
| Base64.BytesToB64 | probe/fe/gr.seal.js:34-41 | the chunked loop gives the base64 of the whole array |
| Base64.B64ToBytes | probe/fe/gr.seal.js:27-32 | the bytes of what atob reads, none where it throws |
| Base64.AtobOfBtoa | probe/fe/gr.seal.js:27-41 | decoding an encoded array gives the array back, for every length |
| Base64.BtoaLength | probe/fe/gr.seal.js:34-41 | the text has four characters for every three bytes begun |
| SealFrame.ConcatParts | probe/fe/gr.seal.js:91-97 | the parts copied at running offsets fill the buffer with exactly their concatenation |
| SealFrame.ConcatBytes | probe/fe/gr.seal.js:43-48 | two arrays one behind the other |
| SealFrame.V2MessageIsJoined | probe/fe/gr.seal.js:829-849 | the concatenated parts are the version and the ten fields with bars between them |
| SealFrame.BarInEncoding | probe/fe/gr.seal.js:50-52 | UTF-8 writes a bar byte for a bar and for nothing else |
| SealFrame.V2SplitsBackIff | probe/fe/gr.seal.js:829-849 | the signed message splits back into the version and the ten fields if and only if no field holds a bar |
| SealFrame.V2MessageDeterminesFields | probe/fe/gr.seal.js:829-849 | two envelopes without bars are signed over the same bytes only if their fields read the same |
| SealFrame.BarsCollide | probe/fe/gr.seal.js:829-849 | a bar in the batch id can be moved into the suite id without changing the signed bytes |
| QueryCleaner.CleanIsNormal | probe/fe/gr.boot.js:35-46 | for every string the chain leaves no legacy token, no doubled and no dangling separator, and its last test never fires |
| QueryCleaner.NormalIsFixed | probe/fe/gr.boot.js:35-46 | a string with nothing to clean is left as it is |
| QueryCleaner.StripTwice | probe/fe/gr.boot.js:22-48 | for every address the fragment is untouched and stripping twice is stripping once |
| QueryParameters.CleanKeepsPromiseIff | probe/fe/gr.boot.js:16-21 | for every string the path and exactly the business parameters are kept, in order, if and only if that address has nothing left to clean |
| QueryParameters.OrdinaryAddressKeepsPromise | probe/fe/gr.boot.js:16-21 | with at most one question mark and no ampersand before it the promise is always kept, empty parameters dropped |
| QueryParameters.InnerQuestionMarkIsCut | probe/fe/gr.boot.js:36-37 | a business parameter with a question mark and then gr_v= in its value is cut |
| SlidingWindow.Prune | probe/fe/probe_lifecycle.js:131-137 | the filter loop keeps the times less than a window old |
| SlidingWindow.RecentAgain | probe/fe/ops_report.js:45-50 | pruning what was pruned earlier is pruning the whole history |
| SlidingWindow.RecentCounts | probe/fe/ops_report.js:45-50 | the length of the pruned list is the number of events in the window that ends now |
| ReportLimiter.Reporter.Sample | probe/fe/ops_report.js:247-266 | the cap counter goes up before the test, the first event of a sampled code passes, later ones by the draw |
| ReportLimiter.Reporter.Send | probe/fe/ops_report.js:268-279 | a report passes the gates, the sampling and the minute limit in this order, or stops there |
| ReportLimiter.SentIffDue | probe/fe/ops_report.js:247-279 | a report goes out exactly when the whole past says so: fewer requests of its code than its cap, first of its code or kept by the draw, fewer than 80 sent in the minute that ends now |
| ReportLimiter.RateAndCapsHold | probe/fe/ops_report.js:45-50 | in any run no minute, wherever it begins, holds more than 80 reports and no capped code exceeds its cap |
| ReportLimiter.ScriptKeepsLimits | probe/fe/ops_report.js:217-245 | the same for the caps and rates of the script |
| Lifecycle.Tracker.Fail | probe/fe/probe_lifecycle.js:238-301 | a failure prunes, counts unless its reason is soft, rests its class, and rests the ordinary batches when the budget is full |
| Lifecycle.Tracker.SoftQuietActive | probe/fe/probe_lifecycle.js:303-311 | the rest lasts until its time and its end clears the failures |
| Lifecycle.Tracker.Allow | probe/fe/probe_lifecycle.js:352-363 | the gate asks the rests in the order of the script |
| Lifecycle.OverBudgetIff | probe/fe/probe_lifecycle.js:238-301 | in every reachable state a failure starts the rest exactly when at least the budget of counted failures since the last reset lie in the window |
| Lifecycle.HardAlwaysAllowed | probe/fe/probe_lifecycle.js:334-339 | a hard batch may be enqueued whatever the state |
| Lifecycle.RestGoesOnIff | probe/fe/probe_lifecycle.js:297-301 | for every event of every run before the rest's time, the rest goes on after it if and only if it is neither a mark of the session nor a counted failure while the window holds fewer than the budget |
| Lifecycle.RestLastsIff | probe/fe/probe_lifecycle.js:303-311 | a rest that a run has begun lasts through any further run if and only if every event of that comes before its time and is of neither kind |
| Lifecycle.RestCutShort | probe/fe/probe_lifecycle.js:297-299 | four failures that end a rest seven ticks early |
| GlGovernor.Governor.DropDead | probe/fe/gr.gl_governor.js:169-190 | the filter keeps the contexts that are not lost, in list and pool |
| GlGovernor.Governor.ShiftTo | probe/fe/gr.gl_governor.js:259-262 | the loop shifts the oldest contexts out, losing them only while hard losing is allowed |
| GlGovernor.Governor.Cap | probe/fe/gr.gl_governor.js:257-265 | the list is pruned, cut to the bound and pruned again |
| GlGovernor.Governor.Keep | probe/fe/gr.gl_governor.js:267-285 | a context is listed once and room is made before it is added |
| GlGovernor.Governor.Acquire | probe/fe/gr.gl_governor.js:287-329 | a living shared context is reused, otherwise one is made and put into the pool, if the browser can |
| GlGovernor.Governor.AcquireInPage | probe/fe/gr.gl_governor.js:353-369 | a canvas in the document gets what the browser returns, and that is listed |
| GlGovernor.Governor.ReleaseEverything | probe/fe/gr.gl_governor.js:232-250 | list and pool are emptied, their contexts lost only if allowed |
| GlGovernor.LiveIsBounded | probe/fe/gr.gl_governor.js:257-285 | in every reachable state the live contexts are distinct, within the bound, and losing is off between steps |
| GlGovernor.AtMostOneShared | probe/fe/gr.gl_governor.js:287-329 | however many detached canvases ask, at most one shared context per type is alive, in runs with no hard release of a living one |
| GlGovernor.OneSharedIff | probe/fe/gr.gl_governor.js:287-329 | over any run, every state has at most one living shared context per type if and only if no detached canvas asks for a type whose shared context a hard release let go of and which lives still |
| GlGovernor.ReleaseHardSafeIff | probe/fe/gr.gl_governor.js:1073 | after any careful run the public hard release is safe for every careful continuation if and only if no shared context is alive |
| GlGovernor.EveryContextIsCounted | probe/fe/gr.gl_governor.js:287-329 | a detached call fails only if the browser does, and otherwise counts once, as a creation or as a hit |
| GlGovernor.ReleaseHardKeepsPooledIff | probe/fe/gr.gl_governor.js:1073 | the public hard release keeps the living shared contexts in the pool if and only if there is none |
| GlGovernor.ReleaseHardLeaks | probe/fe/gr.gl_governor.js:1073 | after it in any state with a living shared context the next canvas makes a second one |
| GlGovernor.StepKeepsAlive | probe/fe/gr.gl_governor.js:257-285 | unless the browser or a page end or a hang recovery takes contexts away, a step loses none: those alive grow by exactly the one the browser makes, if it makes one |
| GlGovernor.AliveBoundedIff | probe/fe/gr.gl_governor.js:257-285 | over all such runs the number alive is the number made, the list is within its bound, and the number alive is so if and only if the number made is |
| GlGovernor.PageContextsPileUp | probe/fe/gr.gl_governor.js:11-14 | from every state there is a run of n canvases in the document and nothing else that ends with n more contexts alive while the list is within its bound |
| Sampler.Extraction.Feed | scripts/gen_random_ondemand_packs.js:98-113 | one dimension of one pack extends order, vocabulary and counts to what the longer input gives |
| Sampler.Extraction.FeedAll | scripts/gen_random_ondemand_packs.js:92-114 | the maps hold the specification of all dimensions of all packs |
| Sampler.VocabularyIsFirsts | scripts/gen_random_ondemand_packs.js:104-110 | the vocabulary is exactly the first operation of each id |
| Sampler.VocabularyDistinct | scripts/gen_random_ondemand_packs.js:104-110 | and has each id once |
| Sampler.MedianZeroIff | scripts/gen_random_ondemand_packs.js:115-118 | the median is zero exactly when more than half of the packs had no operation |
| Sampler.ShuffleInPlace | scripts/gen_random_ondemand_packs.js:131-134 | the in-place loop equals the rounds of the specification for the generator |
| Sampler.ShuffledPerm | scripts/gen_random_ondemand_packs.js:130-134 | the index array stays a permutation, whatever is drawn |
| Sampler.DrawInRange | scripts/gen_random_ondemand_packs.js:132 | a draw never reaches past the last index |
| Sampler.PickedAscend | scripts/gen_random_ondemand_packs.js:135 | the sorted first entries are that many different places in ascending order |
| Sampler.Resample | scripts/gen_random_ondemand_packs.js:125-137 | the method with the generator of the script gives the specified sample |
| Sampler.SampleIsSubsequence | scripts/gen_random_ondemand_packs.js:125-137 | for every generator and seed a dimension gets the smaller of median and vocabulary size, different operations of the input, in vocabulary order |
| Sampler.CheckFailsIff | scripts/gen_random_ondemand_packs.js:150-157 | the self-check fails exactly when there is no dimension or most packs that list one list no operation in it |

## Left out

- ResourceClasses.NormalizeClass: lower-cases ASCII letters only; other letters fall to the light class either way, except that characters whose lower case is an ASCII letter are not folded.
- Sampler.Draw: is the exact product; a double rounds it for dimensions of more than 2^21 operations, which are not modelled.
- GlGovernor.OneSharedIff: assumes that losing a context works and that a lost context is not restored.
- ReportLimiter.RateAndCapsHold: assumes a clock that does not go back, and codes that are not names of inherited object properties.
- Lifecycle.OverBudgetIff: is for one fixed policy; a policy published in the middle of a run is not modelled.
- CoordinatorTheorems.LeaseModeRun: takes each claim as one step; ClaimRaces takes it apart.
- ClaimRaces.OneHeavyIff: takes as one step each the second write of the lease with the role it goes with, a heartbeat, a release, and the grant of a Web Lock with the check of the lease; a release that a page asks for in a tab that is not heavy is left out.
- Pump.Start: each kick starts with no pack deferred; the script's deferral flag is set on the pack object (probe/fe/pack_loader.js:1116, 1470) and survives into later kicks that get the same objects, although its comment there says once a kick.
- KickRuns.OpenKickCompletes: is for runs in which no pump call meets the stall condition with nothing running.
- Locked functions are opaque and do not themselves ask for more classes.
- The pump's `runOne` (health records, retries, seals) is the one step in which a run settles; writing its result and lowering the counters, two microtasks of the script, are one step.
- The packs of a kick are distinct objects, so that the deferral flag the script writes on a pack belongs to one list entry.
- The pump's wait counter, its reports and the recovery it asks for at the fortieth wait.
- The source argument of `ackSegment`, which the script ignores: one surface is modelled, with the worker copy of push and flush left out.
- Everything a pushed event carries besides its kind and number, the kinematics summary and the features derived from it.
- Handoff tickets, progress records and the stale-progress upgrade of the coordinator; a claim at any time covers the upgrade.
- Growth of wasm memory and stale views: every allocation is an array of its own.
- The internals of WebGL, AES, HMAC, SHA-256, compression and the wasm module; the browser's encoders are modelled by their standards.
- The legacy list of contexts that the governor drains besides its own list and pool.
- The rewriting of the history entry itself; only the address it is given is modelled.
- Parsing and writing of the template file, the fixed fields of its packs, and the command line of the generator.
- Network calls, beacons, timers as wall-clock time, the DOM, cookies and the storage interface.
- The rest of the boot script, the loaders, the method matrix, the privacy guard, the service worker and all build scripts.
