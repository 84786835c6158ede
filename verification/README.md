# NFGateway in Dafny

NFGateway sends the packets of network flows to containers that run serverless network functions. This
project models the parts of it that keep state and proves what they keep over whole runs.

**Flow dispatcher** (`utils/rulemap.go`). A ring of container connections with a round-robin cursor, a table
from flow keys to connections, one watcher goroutine per assigned flow, and a `Delete` that moves the flows of
a removed container to another one.

- `FlowSpec` is the state machine; each method, and each firing of a watcher, is one step. `FlowRun` has the
  invariant every step keeps, and runs.
- `FlowEffects` says what each step does in terms of the ring, the cursor and the flow; `FlowRegistry` what an
  element carries; `FlowRouting`, `FlowCounts`, `FlowAffinity` and `FlowBalance` hold the theorems about runs.
- `ConnPools` is the ring as linked objects and `Crc2ConnMaps` the table over it. Their methods are proved to
  take exactly the steps of `FlowSpec`.
- `FlowSections` cuts the methods at every release of a lock and lets the critical sections interleave;
  `SectionRouting` says when routing holds there, `SectionPanics` when the process panics, `SectionLocks` which
  semaphore a `Get` returns, and `SectionRuns` has the runs in which routing fails or a panic is reached.
  `SectionMirror` and `SectionReplay`, over the single sections of `SectionSteps`, show that every run of
  `FlowSpec` is one of these interleavings.
- `FlowKey` is the byte string a flow is identified by.

**NAT ports** (`nat/context.go`). `PortBits`, `PortScan` and `PortLeases` are the lease allocator: one window
scan, the two scans as concurrent goroutines, and runs of assignment and release. `CntPortMappings` is the
allocator object. `AddressCells` is the port map with shared address cells, `LeaseTimers` its expiry, and
`PortCntMappings` the object.

**Autoscaler** (`cnt/`). `ContainerLists` is the container list with its in-place removal, `Scaling` the load
and the size change, `ScaleDown` a scale-down pass interleaved with the groups that receive from it, `Groups` what
a group keeps, and `Books` with `Cluster` the agreement of the list with the dispatcher's ring; `BookIds` says
which element an id names.

**Buffers** (`utils/bytes_utils.go`). `Buffers` is the pool of receive buffers and the doubling memset.

## How far each result reaches

- Steps are whole methods in `FlowSpec` and the modules built on it, and in `PortLeases`.
- Every interleaving of critical sections is covered in `FlowSections` and the `Section` modules and in
  `LeaseTimers`, every interleaving of bit tests and bit sets in `PortScan`, of turns, sends and receipts in
  `ScaleDown`, and of the calls on pool, list and map in `Books`.
- A panic (nil dereference, slice out of range) ends a run.
- Times are parameters. So are the order of a map iteration, what a random source yields, which branch a
  select takes and what the scheduler does.

Where the code does not have a property that its design suggests, the code is kept and the exact condition is
proved:

- Deleting the sole element while it has ports leaves its flows routed to it (`FlowRouting.RunRoutedIff`).
- A second `Delete` of an element makes a watcher dereference nil exactly when an outstanding one belongs to the
  element or reads the table through it (`FlowRouting.StepIntactIff`, `FlowRouting.RunPanicsIff`).
- Between critical sections a flow is left on a removed element by exactly three kinds of section
  (`SectionRouting.RunRoutedIff`), and a goroutine is cut off from what it will use by exactly four
  (`SectionPanics.RunIntactIff`).
- Counters are eight bits wide: exact up to 127 watchers (`FlowCountConservation`), balanced until some have
  wrapped and others have not (`BalancedIff`).
- The two window scans can hand out one port twice exactly when a bit is clear and their windows overlap
  (`MayShareIff`). An index of 65536 or more is cut down to a low port, and 328 assignments lead to one that is
  in use (`AssignDisjointIff`, `WrapReached`).
- A port that still has a mapping when its lease is released is never leased again (`LeasesDisjoint`).
- A release leaves the lease in `am`, so a second one can free ports of another container
  (`ReleaseDisjointIff`).
- `Replace` does not file the cell under its new address (`SetRefinesIff`, `ReplaceRefinesIff`).
- A timer takes a mapping early exactly when a `Set` fell between its look and its deletion (`EarlyDropIff`).
- In-place removal skips the element after a match, and panics when the last element and an earlier one both
  match (`RemoveContainer`, `SkimMissesIff`).
- `GetContainer` picks a least loaded container only from a list ordered by load (`LeastLoadedIff`).
- A list above its minimum can be too short for a whole decrement and never shrink (`StuckAboveMinIff`).
- A scale-down pass and a group can wait for each other for ever (`GoesOnIff`, `DeadlockReached`). A group that
  accepts an id whose element was purged meanwhile dereferences nil (`Receive`, `PurgedBeforeReceipt`).
- Packets of 19 to 23 bytes get past the length guards and panic (`KeyBytes`). With header options the bytes
  taken for ports are not the ports (`OptionsSplitFlow`).
- A pool of fewer than ten buffers, such as the five of the TCP handler, has no cleaner and runs dry
  (`SmallPoolRunsDry`).

## Model

| member | source | states |
|---|---|---|
| FlowRun.StepSound | utils/rulemap.go:76-435 | Every step of every kind keeps: the cursor is a member of a non-empty ring, members have containers, a watcher's flow is in its element's ports, flows in ports have timestamps, recorded containers have semaphores. |
| FlowRun.DeleteTotal | utils/rulemap.go:331-428 | `Delete` never panics: it finds the table and an element with a container to migrate to; and it takes exactly its own element off the ring, in place. |
| FlowRouting.GetServed | utils/rulemap.go:76-140 | From a routed state `Get` panics iff the ring is empty; otherwise it answers with what the table holds afterwards, including a semaphore, and the state stays routed. |
| FlowRouting.UnlinkIdleRouted | utils/rulemap.go:374-379 | An element without ports carries no route, so returning early on empty ports loses none. |
| FlowRouting.MigrationRouted | utils/rulemap.go:381-425 | Migration reroutes every flow of the removed element to a live member that then has it in its ports; `FlowEffects.DeleteMovesToHeir` says to which. |
| FlowRouting.SoleDeleteStrands | utils/rulemap.go:332-336 | Deleting the sole element with ports leaves each of its flows routed to it over an empty ring. |
| FlowRouting.StepRoutedIff | utils/rulemap.go:76-425 | One step keeps every table entry on a live member with that flow in its ports, iff it is not the deletion of a sole element with ports. |
| FlowRouting.RunRoutedIff | utils/rulemap.go:76-425 | All states of a run are routed iff the run never deletes the sole element while it has ports. |
| FlowRouting.NoStaleRoute | utils/rulemap.go:76-140 | After any such run from an empty dispatcher `Get` answers with the connection that a live member, which knows the flow, was registered with in the run, or panics because the ring is empty. |
| FlowRouting.StaleRouteAfterSoleDelete | utils/rulemap.go:332-389 | A run of Add, Get and Delete after which a Get is answered with the removed connection. |
| FlowRouting.StepIntactIff | utils/rulemap.go:338-343 | A step keeps for every outstanding watcher the container it decrements and the table it reads, iff it is not a repeated `Delete` of an element that a watcher belongs to or reads the table through. |
| FlowRouting.RunIntactIff | utils/rulemap.go:76-428 | All states of a run keep both iff the run has no such `Delete`. |
| FlowRouting.PanicsIff | utils/rulemap.go:225-258 | While both are kept only a `Get` miss over an empty ring panics, and no tick does. |
| FlowRouting.RunPanicsIff | utils/rulemap.go:76-428 | The same after every run without a repeated `Delete` that watchers depend on. |
| FlowRouting.OwnWatcherPanics | utils/rulemap.go:119-127 | A run after which the watcher of an element deleted twice dereferences its nil container. |
| FlowRouting.MigrationWatcherPanics | utils/rulemap.go:400-403 | A run after which the next tick of a live element's watcher dereferences the nil table pointer of the element its flow came from. |
| FlowRouting.SecondDeleteInert | utils/rulemap.go:338-343 | A second `Delete` changes nothing but the connection, container and table pointers of the dead element. |
| FlowRegistry.RegisteredAs | utils/rulemap.go:199-223 | Over every run element `i` has the limit and the connection of the `i`-th registration, the connection nil once it was deleted again, and is a member iff it was never deleted. |
| FlowEffects.GetStamps | utils/rulemap.go:82-84 | Every `Get` that answers, hit or miss, stamps its flow with its time and no other; a hit changes nothing else. |
| FlowEffects.MissGoesToCursor | utils/rulemap.go:100-138 | A miss is recorded, counted and watched on the member under the cursor, with a new semaphore and the dispatcher's timeout; the cursor moves to the next position of the ring. |
| FlowEffects.DeleteMovesToHeir | utils/rulemap.go:331-425 | The flows of a removed member go to the member under the cursor, or to its ring successor when the cursor is on itself: that one gains exactly those ports, counts and watchers, every other element and table entry is as before, and the cursor ends right behind it in the ring that is left. |
| FlowEffects.IdleDeleteMovesNothing | utils/rulemap.go:374-379 | Deleting a member without ports changes only its place in the ring, its container and a cursor that was on it. |
| FlowEffects.TickForgets | utils/rulemap.go:119-132 | A tick past the timeout forgets exactly its flow and gives exactly one count back; one before changes nothing. |
| FlowEffects.ForgottenUntilAssigned | utils/rulemap.go:119-132 | After the expiry of a watcher started by `Get`, the next `Get` of the flow is a miss whatever happened meanwhile, migrations included, and its semaphore is new. |
| FlowEffects.RunLocksDistinct | utils/rulemap.go:108-109 | Over every run no two flows share a semaphore. |
| FlowCounts.FlowCountConservation | utils/rulemap.go:112-132 | In all states of a run every live container's counter is the number of its outstanding watchers, iff that number never exceeds 127. |
| FlowCounts.ClampUnused | utils/rulemap.go:34-42 | The clamp of `DecFluxes` swallows no count of a live container. |
| FlowBalance.CountLost | utils/rulemap.go:28-32 | 128 new flows on a sole member make its counter negative. |
| FlowAffinity.FlowAffinity | utils/rulemap.go:76-138 | With the time between two `Get`s of a flow within the timeout of each of its watchers, the one a first miss starts included, and no holder of the flow deleted, whatever other flows do, the second answers with the same connection and semaphore iff the recorded container is not over its limit. |
| FlowAffinity.IdleFlowForgotten | utils/rulemap.go:119-132 | Past the timeout a tick makes the next `Get` of the flow hand out a new semaphore. |
| FlowBalance.RoundRobin | utils/rulemap.go:92-112 | Any sequence of `Get`s from zero counters gives each member exactly its share of the misses, in turn from the cursor, modulo the counter's width. |
| FlowBalance.BalancedIff | utils/rulemap.go:92-112 | Counters stay within one of each other iff none has wrapped past 127 beside one that has not; always up to 127 misses per member. |
| FlowBalance.UnevenReached | utils/rulemap.go:92-112 | One new flow more than 127 for each of two or more idle members makes them uneven. |
| FlowBalance.TwoIdle | utils/rulemap.go:199-223 | One or two registrations with a new dispatcher give such idle members. |
| RingSeq.FullTurn | utils/rulemap.go:225-258 | As many moves of the cursor as there are members return each member once, in ring order, and restore the cursor. |
| FlowSections.LocksAndTimestamps | utils/rulemap.go:76-138 | Under every interleaving of critical sections every finished `Get` has a semaphore and every watcher a timestamp for its flow. |
| SectionLocks.ReturnsStoredLock | utils/rulemap.go:79-138 | Under every interleaving the semaphore of a finished `Get` is one that the table stored, at some moment of the run, for its own flow. |
| SectionLocks.FlowsApart | utils/rulemap.go:79-138 | Under every interleaving finished `Get`s of different flows have different semaphores. |
| SectionReplay.GetBySections | utils/rulemap.go:76-140 | The sections of one `Get`, run without interruption, are the `Get` step: same connection, same semaphore, same new state. |
| SectionMirror.DeleteBySections | utils/rulemap.go:331-428 | The sections of one `Delete`, run without interruption, are the delete step. |
| SectionMirror.TickBySections | utils/rulemap.go:119-132 | The three sections of a watcher, run without interruption, are the tick step. |
| SectionReplay.StepBySections | utils/rulemap.go:76-435 | Every step of the dispatcher is a run of sections to a state with the same table, ring members, ports, pointers and watchers. |
| SectionReplay.PanicStepBySections | utils/rulemap.go:76-435 | Every step that panics is a run of sections whose next one panics. |
| SectionReplay.RunBySections | utils/rulemap.go:76-435 | Every run of the dispatcher from the start is a run of sections to such a state. |
| SectionRouting.StepRoutedIff | utils/rulemap.go:100-111 | A critical section keeps every table entry on a member, or on an element whose `Delete` has that flow still to move, iff it does not enter an element whose move is over, move a flow to such an element, or unlink an element before a flow moved to it is in its ports. |
| SectionRouting.RunRoutedIff | utils/rulemap.go:76-425 | Under every interleaving of critical sections all states are so routed iff the run has none of these sections. |
| SectionRouting.RoutedAtRest | utils/rulemap.go:76-425 | Such a run routes every flow to a live member whenever no `Delete` is between unlinking and moving. |
| SectionRouting.TestRouted | utils/rulemap.go:374-374 | Going on to the early exit on empty ports loses no entry under any interleaving. |
| SectionRuns.StaleRouteByInterleaving | utils/rulemap.go:100-111 | A run with the first of the three sections, on an element whose flows were moved, after which a `Get` is answered with the removed element although another is live; nobody panics. |
| SectionRuns.MovedToRemoved | utils/rulemap.go:383-389 | A run to the second: flows about to move, without panic, to an element that was picked, removed and has moved its own flows on. |
| SectionRuns.RemovedBeforePorts | utils/rulemap.go:389-425 | A run to the third: an element about to be unlinked between the two loops of a `Delete` that moves flows to it. |
| SectionPanics.StepIntactIff | utils/rulemap.go:331-428 | A section leaves every goroutine, watcher and later `Get` with the containers, table pointers and open stop channels they will use, iff it does not hand out an element without container, unlink an element twice, repeat the `Delete` of an element still to be used, or leave early from the `Delete` of an element another goroutine or watcher has still to use. |
| SectionPanics.RunIntactIff | utils/rulemap.go:76-428 | Under every interleaving all states are so intact iff the run has none of these sections. |
| SectionPanics.PanicsIff | utils/rulemap.go:225-258 | In an intact state only `Next` over an empty ring without a cursor panics. |
| SectionPanics.RunPanicsIff | utils/rulemap.go:76-428 | The same after every interleaving without these sections. |
| SectionPanics.CutOffNeverReturns | utils/rulemap.go:76-428 | A goroutine cut off never returns, whatever runs on: each of its sections panics or leaves it cut off. |
| SectionPanics.SectionsEnd | utils/rulemap.go:76-428 | Every section brings its goroutine nearer to its last one, of at most seven. |
| SectionRuns.NoCursor | utils/rulemap.go:237-238 | A run to `Next` over an empty ring. |
| SectionRuns.ClosedTwice | utils/rulemap.go:331-363 | A run in which two `Delete`s of one element get past unlinking and the second closes the closed stop channel. |
| SectionRuns.CountedOnNil | utils/rulemap.go:100-112 | A run in which a `Get` counts its flow on a container pointer that the early exit of a `Delete` set to nil. |
| SectionRuns.AskedNil | utils/rulemap.go:79-92 | A run in which another `Get` finds that nil pointer in the table and asks it for its load. |
| SectionRuns.MovedOntoNil | utils/rulemap.go:383-392 | A run in which a `Delete` moves a flow to an element deleted without ports after it was picked. |
| SectionRuns.MovedWithoutTable | utils/rulemap.go:341-386 | A run in which a `Delete` about to move flows has lost its table pointer to a second `Delete` of the element. |
| ConnPools.ConnPool.Add | utils/rulemap.go:199-223 | The new element joins the one cycle behind the tail; the cursor moves only if the ring was empty; links, ends and cursor stay well formed. |
| ConnPools.ConnPool.Next | utils/rulemap.go:225-258 | Returns the cursor's element and moves the cursor to its ring successor, or to nil for an element out of the ring. |
| ConnPools.ConnPool.SizeNoLock | utils/rulemap.go:185-197 | The traversal ends and counts all members. |
| ConnPools.ConnPool.Size | utils/rulemap.go:168-183 | The capped traversal ends with the smaller of six and one less than the number of members. |
| ConnPools.ConnPool.Unlink | utils/rulemap.go:331-369 | Removes exactly the element from the cycle, leaves it with nil links and a closed stop channel, moves cursor, head and tail off it, and changes nothing when it is already out. |
| ConnPools.ConnPool.AliveIff | utils/rulemap.go:430-435 | `IsAlive` holds exactly for members. |
| ConnPools.ConnPool.IdsAgree | utils/rulemap.go:150-160 | Membership, successor and removal on the links are those of the sequence of ids the state machine uses. |
| Crc2ConnMaps.Crc2ConnMap.Get | utils/rulemap.go:76-140 | On the objects, `Get` is the `Get` step: same answer, same panic, same new state; whenever it answers, the timestamps change in exactly this flow. |
| Crc2ConnMaps.Crc2ConnMap.Tick | utils/rulemap.go:113-136 | A watcher's tick is the tick step, with the same panics: a nil table pointer on any tick, a nil container on expiry. |
| Crc2ConnMaps.Crc2ConnMap.Add | utils/rulemap.go:199-223 | Registration is the add step; the new element has the connection and the limit given. |
| Crc2ConnMaps.Crc2ConnMap.Reroute | utils/rulemap.go:388-418 | Whatever the order of the ports, the loop reroutes all of them, counts each once on the target, modulo the counter's width, and starts one watcher for each. |
| Crc2ConnMaps.Crc2ConnMap.MovePorts | utils/rulemap.go:421-425 | The second loop adds exactly the removed element's ports to the target's. |
| Crc2ConnMaps.Crc2ConnMap.Delete | utils/rulemap.go:331-428 | `Delete` is the delete step, first call or repeated, and never panics; `FlowEffects.DeleteMovesToHeir` says where the flows go. |
| PortBits.NextClearIff | nat/context.go:31-31 | The search returns the least clear index at or after its offset. |
| PortBits.FreeInSorted | nat/context.go:37-43 | A scan collects the clear indices of its window in increasing order. |
| PortScan.ScansCommute | nat/context.go:30-45 | With disjoint windows every schedule of the two helpers' steps gives the same bitset and the same buffers. |
| PortScan.MayShareIff | nat/context.go:30-67 | Some schedule copies one port into both halves of a lease iff a bit from 1 on is clear and the windows overlap, where the upper window is the first hundred bits when no bit from 1025 on is clear. |
| PortLeases.InterleavedAssign | nat/context.go:55-67 | With disjoint windows, running the helpers one after the other, in either order, gives the bitset and the lease of every interleaving at which both buffers are received, also when a helper handed its buffer over early and is still scanning. |
| PortLeases.AssignDisjointIff | nat/context.go:30-67 | An assignment keeps leases disjoint and reserved, whichever helper scans first and also when no bit is clear, iff no index of 65536 or more in its windows is cut down to a non-zero port that another unreleased container holds, that comes twice in the lease, or whose own bit is clear. |
| PortLeases.ReleaseDisjointIff | nat/context.go:69-88 | A release keeps leases disjoint and reserved iff it clears no port of another unreleased container. |
| PortLeases.FirstReleaseSafe | nat/context.go:69-88 | A container not released yet takes nothing from others; of its ports exactly those with a mapping stay reserved, and join those kept before. |
| PortLeases.LeasesDisjoint | nat/context.go:30-88 | Over every run without cut-down indices and without a second release of a lease, with helpers that outlive their assignment scanning on at any time, no non-zero port is leased twice, every leased port is reserved, and a port kept at a release stays reserved and is never leased again. |
| PortLeases.LingerSafe | nat/context.go:31-44 | A helper that outlives its assignment changes no lease. |
| PortLeases.SecondReleaseBreaks | nat/context.go:77-88 | A second release of container 0 frees a port leased to container 1. |
| PortLeases.WrapReached | nat/context.go:35-43 | A run of 328 assignments from the empty allocator after which the next one leases port 1 to a second container. |
| CntPortMappings.CntPortMapping.SetHelper | nat/context.go:30-45 | The loop over the bitset and the buffer computes the window scan; the helper hands its buffer over early and goes on from bit 0 iff no bit from its offset on was clear. |
| CntPortMappings.CntPortMapping.Linger | nat/context.go:31-44 | Each further test or set of such a helper is the linger step; past its window it waits for ever on its second send. |
| CntPortMappings.CntPortMapping.AssignPorts | nat/context.go:55-67 | The allocator object takes the assignment step, returns the lease it records, and leaves behind the helpers that are not finished. |
| CntPortMappings.CntPortMapping.ReleaseHelper | nat/context.go:69-75 | Clears exactly the ports of the buffer that have no mapping. |
| CntPortMappings.CntPortMapping.ReleasePorts | nat/context.go:77-88 | The allocator object takes the release step; an unknown address changes nothing. |
| AddressCells.SetRefinesIff | nat/context.go:148-158 | `Set` maps the port to the address on the plain map iff the address has no cell yet or its cell still holds it. |
| AddressCells.ReplaceRefinesIff | nat/context.go:178-184 | `Replace` re-addresses exactly the ports of the old address iff those are the ports sharing its cell and the cell holds that address, or rewriting it changes nothing. |
| AddressCells.RefinesPlainMap | nat/context.go:137-190 | Over every run in which a replaced address is not set or replaced again and a replacement is not replaced in turn, the cells stand for the plain map built by the same calls. |
| AddressCells.ReplacedAddressReturns | nat/context.go:148-184 | After one `Set` and one `Replace` of its address, setting another port to the old address gives it the new one, and replacing the new address does nothing. |
| PortCntMappings.PortCntMapping.Get | nat/context.go:137-146 | Reads the plain map, zero when the port has no mapping. |
| PortCntMappings.PortCntMapping.Set | nat/context.go:148-175 | On the objects, the set step of the cells, with a new cell only for an address without one, and the set step of the timers. |
| PortCntMappings.PortCntMapping.Replace | nat/context.go:178-184 | The replace step by one write to a shared cell. |
| PortCntMappings.PortCntMapping.Look | nat/context.go:161-173 | The look step of a timer, which changes no mapping. |
| PortCntMappings.PortCntMapping.Drop | nat/context.go:166-169 | The drop step: mapping and timestamp go without a second look. |
| LeaseTimers.GoneByTwice | nat/context.go:148-176 | With punctual timers, over every run a mapping still there is at most two timeouts past its last `Set`, however many timer chains its port has. |
| LeaseTimers.SetOnceLivesTwice | nat/context.go:160-176 | Over every run a port set once and not deleted keeps its mapping until two timeouts after its `Set`, since the look after one timeout finds it not yet expired. |
| LeaseTimers.EarlyDropIff | nat/context.go:160-176 | Over every run, a timer that takes a mapping does so within one timeout of its last `Set` iff a `Set` of that port fell between the look and the deletion of that timer. |
| LeaseTimers.NotBeforeTimeout | nat/context.go:160-190 | A mapping goes only by `Delete` or by a timer of its port, strictly past the timeout unless so overtaken. |
| LeaseTimers.SetLostBetweenSections | nat/context.go:163-169 | A run in which a mapping is dropped at the very time of its last `Set`. |
| ContainerLists.ContainerList.AddContainer | cnt/containerlist.go:20-24 | Appends to the list. |
| ContainerLists.ContainerList.RemoveContainer | cnt/containerlist.go:26-38 | For every list: panics iff the last element and an earlier one match; otherwise leaves the list with each match removed and the element after it kept unexamined. |
| ContainerLists.SkimIsWithout | cnt/containerlist.go:26-38 | On a duplicate-free list removal does not panic and is order-preserving removal of the one match, the identity when there is none. |
| ContainerLists.SkimMissesIff | cnt/containerlist.go:26-38 | A match is left behind iff two matches stood side by side. |
| ContainerLists.GetContainer | cnt/containerlist.go:58-86 | Returns the element before the last drop in load, or the first when there is no drop. |
| ContainerLists.LeastLoadedIff | cnt/containerlist.go:58-86 | The container returned is a least loaded one iff the list is ordered by load. |
| Scaling.TermIff | cnt/containerlist.go:92-92 | With a positive limit a container adds one iff it is full, and zero otherwise, unless its counter has wrapped, when it adds nearly 2^32. |
| Scaling.GetLoadPercentage | cnt/containerlist.go:88-100 | Divides by zero iff some limit is zero; with positive limits and no wrapped counter the sum is the number of full containers, modulo 2^32. |
| Scaling.SumIsFulls | cnt/containerlist.go:88-99 | Below 2^32 containers the sum is the number of full ones itself. |
| Scaling.LoadIsFraction | cnt/containerlist.go:99-99 | The load times the length is the number of full containers, so it lies between zero and one. |
| Scaling.NeverBelowMin | cnt/provisioner.go:16-30 | From any size at or above the minimum the size stays there; it grows only at or above the upper threshold and shrinks only at or below the lower one. |
| Scaling.DeltaIsShare | cnt/provisioner.go:19-23 | Growth is the configured share of the size rounded up; a decrement is its share rounded down, but at least one. |
| Scaling.StuckAboveMinIff | cnt/provisioner.go:21-26 | At low load a list above the minimum keeps its size iff size * (1 - downDec) is at most min - 1. |
| Scaling.NeverStuckAboveOne | cnt/provisioner.go:21-26 | With a minimum of one and a decrement below one, every larger list shrinks. |
| Scaling.ConfiguredStep | cnt/handler.go:314-318 | With the configured constants a list at low load loses four tenths of its size, rounded down, one below five containers, and none at one. |
| Scaling.ConfiguredGrowth | cnt/provisioner.go:19-20 | With the configured constants a list at high load grows by half its size, rounded up. |
| Scaling.LoadThresholds | cnt/handler.go:314-318 | The load reaches the configured thresholds exactly when six tenths of the containers are full, and when at most three tenths are. |
| Scaling.ConfiguredDelta | cnt/provisioner.go:16-30 | From the number of full containers to the size change, in whole numbers: half the size up from six tenths, the exact decrement down to three tenths, none between. |
| Scaling.CalculateScalingDelta | cnt/provisioner.go:16-30 | The whole check over the counters: it panics iff some limit is zero, gives that change for every healthy list under the configured constants, and zero for an empty list. |
| Scaling.ConvergesToOne | cnt/provisioner.go:16-30 | Over any sequence of checks at low load the size falls at every check until exactly one, reached within size minus one checks, and then stays. |
| ScaleDown.PassSafe | cnt/provisioner.go:389-409 | For every iteration order and every interleaving with receiving groups and dying elements, a pass posts at most the wanted number of ids, exactly those its turns chose so far but for the one being sent, purges exactly what its turns found purgeable, and every id sent is in its channel or was received, in order. |
| ScaleDown.ChosenIff | cnt/provisioner.go:391-407 | A pass chooses each id at most once: those visited that are then live, no replica and have a channel; it purges those visited that are dead, or live, no replica and without a channel. |
| ScaleDown.GoesOnIff | cnt/provisioner.go:390-408 | An unfinished pass can go on iff it is not at a send on a full channel that nobody receives from, or whose receiver waits for the lock the pass holds. |
| ScaleDown.DeadlockLasts | cnt/provisioner.go:398-398 | From there no step of anyone lets the pass go on. |
| ScaleDown.RoomyNeverDeadlocks | cnt/provisioner.go:387-408 | With room in every channel for all entries still to be visited no schedule deadlocks the pass. |
| ScaleDown.DeadlockReached | cnt/provisioner.go:266-272 | For every group of three or more that has created its containers twice, a run in which the group accepts an id, waits for the lock, and the pass fills its channel and waits for it. |
| ScaleDown.PurgedBeforeReceipt | cnt/provisioner.go:404-405 | A later pass purges an id that is posted and not yet received, once its element is dead. |
| ScaleDown.ConnElemProvisioner.ScaleDown | cnt/provisioner.go:389-409 | The loop over the maps, resuming a blocked send as the groups receive, is a run of that machine up to its end or to a send nobody makes room for. |
| Groups.Conserves | cnt/provisioner.go:229-285 | Over every run of creations and requests a group's size falls by exactly one per accepted id, and an id is accepted at most once per creation. |
| Groups.AcceptsIff | cnt/provisioner.go:229-285 | After every run a group accepts exactly the ids it created and has not received since. |
| Groups.DropFunction.Receive | cnt/provisioner.go:266-285 | Accepts exactly the ids the group created and still has, and panics iff an accepted id is no longer in the element map. |
| Groups.DropFunction.CreateAll | cnt/provisioner.go:229-240 | The creation loop records every id it creates and no other, and leaves the size alone. |
| Books.ListMatchesRing | cnt/handler.go:77-118 | Under every interleaving of the calls of registration, timed removal and scale-down removal, also on one element, once none is under way list and ring hold the same containers, each once. |
| Books.StepKeeps | cnt/provisioner.go:266-281 | At every moment list and ring differ only by what operations under way have still to do. |
| BookIds.PublishFiles | cnt/provisioner.go:174-179 | The end of a registration leaves the element filed under its id, listed, on the ring and with a timer. |
| BookIds.NamesUntilDisplaced | cnt/provisioner.go:174-193 | Until it is purged or registered again an id names its element, under every interleaving. |
| BookIds.FiledUnderOwnId | cnt/provisioner.go:174-179 | Over every run the map files an element only under the id it was registered with. |
| BookIds.ListedAreTimed | cnt/handler.go:103-118 | Under every interleaving, once no operation is under way, every listed container is on the ring and has a timer whose firing takes it off the list. |
| Cluster.LedgerFollows | utils/rulemap.go:199-369 | The pool calls of these operations never panic and change the dispatcher's ring just so. |
| Cluster.TrafficFollows | utils/rulemap.go:76-138 | Packets and expiries leave the ring alone. |
| Cluster.SameOrder | cnt/handler.go:84-112 | Taken whole, any sequence of registrations and removals keeps list and ring equal as sequences. |
| FlowKey.KeyBytes | utils/rulemap.go:477-496 | Below 19 bytes an error, from 19 to 23 a panic, and otherwise 48 bytes that hold both addresses and both ports. |
| FlowKey.KeyExact | utils/rulemap.go:477-496 | Two packets of at least 24 bytes have equal keys iff both addresses and both ports agree, so nothing else in them changes the checksum. |
| FlowKey.CrcOfKey | utils/rulemap.go:477-496 | The identifier is the checksum of exactly 48 bytes, written out from the packet's bytes 12 to 23; an error iff the packet is below 19 bytes and a panic iff it has 19 to 23. |
| FlowKey.CrcExact | utils/rulemap.go:477-496 | Where the checksum tells two keys apart, two packets get one identifier iff addresses and ports agree. |
| FlowKey.KeyExactWithoutOptions | utils/rulemap.go:474-496 | Packets with a 20-byte header have equal keys iff their addresses and the ports behind the header agree. |
| FlowKey.OptionsSplitFlow | utils/pkt_utils.go:5-15 | Two packets with header options, equal addresses and equal ports behind the header, and different keys. |
| Buffers.Memset | utils/bytes_utils.go:64-73 | Doubling copies fill a slice of any length. |
| Buffers.Clean | utils/bytes_utils.go:98-104 | A cleaner's memset of its buffer is the wipe of the state machine: buffers that are not dirty are all zero. |
| Buffers.TokensConserved | utils/bytes_utils.go:92-131 | Pool, users, release channel and cleaners together always hold all buffers. |
| Buffers.NoTokenLost | utils/bytes_utils.go:85-139 | Over every run each buffer is in exactly one place, the one `Next` hands out is all zero, and no release and no cleaner waits for room. |
| Buffers.InOrder | utils/bytes_utils.go:98-139 | Over every run the `n`-th `Next` gives the `n`-th buffer put into the pool, and buffers are cleaned in the order of their release. |
| Buffers.TakenUpIff | utils/bytes_utils.go:98-118 | A released buffer can be taken up iff one more in cleaning leaves them at one in ten of the pool or fewer. |
| Buffers.CleanersBound | utils/bytes_utils.go:116-118 | Over every run at most one buffer in ten is being cleaned. |
| Buffers.AllComeBack | utils/bytes_utils.go:98-118 | From ten buffers on every run can be continued, without its users, until everything released is back in the pool. |
| Buffers.SmallPoolRunsDry | utils/bytes_utils.go:116-118 | Below ten buffers `Next` completes exactly as often as there are buffers and then waits for ever. |

## Left out

- Sockets, raw Ethernet frames, termination messages, OpenWhisk calls, Redis, logging and configuration: input and output only.
- The CRC-16 table, message decoding and the words of the bitset library: any function of the key, any registration, and the least clear bit stand for them.
- `RuleMap`: it chooses the first rule that matches and would only add easy members.
- `CntPortMapping.Set`, `Get` and `Delete` on the `im` map of NAT couples: plain map operations.
- `cnt/containermap.go`, `utils/flowlet`, `FastPow`, `fastMax` and the `msg` codec: off the dispatch path or easy.
- What an element carries (connection, ports, container) is kept by its id beside the linked objects, not inside them: aliasing of containers is by identity, not by reference.
- `BuffersPool`, its channels and `NewBuffersPool` are modelled on values: the order of tokens in the channels is kept, the channel objects are not.
- What `Next` returns over links torn by two goroutines inside `Delete` of one element: anything, in `FlowSections`; elsewhere the two ring sections of `Delete` are one step.
- The values of the counters and the place of the cursor in `FlowSections`: they are in `FlowSpec`.
- A helper of `AssignPorts` that outlives it takes its steps between whole assignments and releases in `PortLeases`, not between the bit tests of another helper.
- Rounding of floating-point numbers: loads and thresholds are reals, with the 0/0 of an empty list as a case of its own.
- Word-level races inside one map or bitset operation, and 64-bit overflow of times and sizes.
