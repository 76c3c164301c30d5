# MicroZero: a verified model of its core

MicroZero is a ZeroMQ-based RPC broker: the centre is written in C++, the client library in C#. This project models the
parts of both that hold state, take protocol steps or compute with bits, and proves what they keep over every input,
run or interleaving. `dafny verify dfyconfig.toml` checks all of it.

| file | models |
|---|---|
| `Crc.dfy` | the table-driven CRC of `net_crc.cpp` as a refinement of a bit-serial register |
| `Counters.dfy`, `Centre.dfy`, `CentreRuns.dfy` | start and shutdown of the centre: counters and a semaphore under a mutex, the interleaved threads with their invariant, and what every run does |
| `Frames.dfy` | the reference-counted `shared_char` over an explicit heap, and descriptors that grow in place |
| `Warehouse.dfy` | the station registry, its redis store, the port counter and the life cycle of a station |
| `GlobalId.dfy` | the global id generator, with or and shift defined bit by bit |
| `Wire.dfy`, `Publish.dfy`, `Command.dfy`, `Framing.dfy` | what both ends of the wire agree on: validation, publications, management commands, multi-part messages, status replies and retries |
| `BatchQueue.dfy`, `Batching.dfy` | the double-buffered batch queue, and the TSON chunk loop of its consumer |
| `SocketPool.dfy` | the client's pool of sockets |
| `Redis.dfy` | nested live scopes, transactions and the transaction cache |
| `NameIndex.dfy` | the client's index of station names |
| `Common.dfy` | types and constants that several files share |

Code that updates state is a class with methods, each proved equal to a function of the old state; what the code
promises is then proved about those functions. Where a promise does not hold of the code, the model keeps the code, and
a lemma gives the exact condition under which the promise holds or an input for which it fails:

- The CRC indexes its tables with a plain `char`: where that is signed, only bytes below 0x80 index inside them. The
  other results take bytes as 0..255.
- `shared_char::operator=` frees first: assigning a handle to itself empties it. Growing a shared descriptor leaves the
  other handles on a deleted buffer; appending in place leaves them with a size that does not cover the new type
  (`SharerReadsIff`), which is what `plan_end` sends.
- Two stations can share a port once the counter is 2^32 past its first value, because of its cast to `int`; restarts at a
  raised base port suffice (`PortsNeverShared`, `SharedPortRun`). A full clear gives out the ports of an instance that
  keeps running, unless the base port is at or above the last number taken for it (`ClearSeparatesIff`).
- Global ids repeat once their counter is set back in a running process (`ResetRepeatsIff`). A full clear does so, and so
  does `restore` on every start, at `src/ZeroCenter/main/service.cpp:234`, after the dispatcher and the plan dispatcher,
  which take ids, are up. A clear also starts the reboot numbers over (`ClearRepeatsRebootsIff`).
- A publication whose descriptor does not type its last frame is relayed, but the subscriber drops it unless that frame is
  empty. The title comes back a second time, among the values (`TitleComesTwice`).
- The relay scans one byte beyond the frames that are counted, the dispatcher the whole descriptor, and a heartbeat takes
  its strings unchecked; each can read outside the list (`OutOfRangeIff`, `JobSafeIff`).
- A send that fails after its first frame spoils the next message on the connection, and a receive that fails in mid-message
  makes the next one return the tail (`SendHarmlessIff`, `SecondRecvTakesTail`).
- A batch queue that is switched before it was loaded hands items out twice (`UnloadedConservesIff`).
- A live scope that found a context outside of any transaction can crash when one begins and ends inside; where the
  context comes from and what is open decide it (`ScopeRestoresIff`). Inside a transaction a value that was read before
  it can be stale, and one that was set in another database can answer (`HistoryReadsIff`).
- An update that changes a station's keys can leave some behind or take another station's, and so can a removal
  (`AddAgreesIff`, `RemoveAgreesIff`).
- The comment at `src/ZeroCenter/rpc/station_dispatcher.cpp:249` announces a wait for the end of the monitor thread. The
  semaphore is posted at its start too, so the wait passes as soon as the monitor has started; the model follows the code.

## Model

| member | source | states |
|---|---|---|
| `Crc.GetCrc` | src/ZeroCenter/rpc/net_crc.cpp:118-129 | the table loop returns, for every message, the byte-swapped bit-serial CRC-16 (polynomial 0xA001, start 0xFFFF) of section 6.2.2 of the MODBUS over Serial Line guide |
| `Crc.CheckValues` | src/ZeroCenter/rpc/net_crc.cpp:118-129 | the check value of the digits 1 to 9 and the two-byte example of the guide |
| `Crc.TableCrcIsSerial` | src/ZeroCenter/rpc/net_crc.cpp:118-129 | from every register value the table recursion equals the bit-serial register, bytes swapped |
| `Crc.TablesHoldEightShifts` | src/ZeroCenter/rpc/net_crc.cpp:7-116 | all 256 pairs of table entries are eight shifts of their index |
| `Crc.EightShiftsXor` | src/ZeroCenter/rpc/net_crc.cpp:122-127 | eight shifts distribute over exclusive or: the step is linear |
| `Crc.ShiftsInjective` | src/ZeroCenter/rpc/net_crc.cpp:122-127 | any number of zero-input shifts is injective |
| `Crc.Residue` | src/ZeroCenter/rpc/net_crc.cpp:118-129 | appending two bytes gives CRC 0 if and only if they are the high and the low byte of the CRC |
| `Crc.BurstChangesCrc` | src/ZeroCenter/rpc/net_crc.cpp:118-129 | two different messages of one length that agree outside some 16 consecutive bits have different CRCs |
| `Crc.BurstOfSeventeenMissed` | src/ZeroCenter/rpc/net_crc.cpp:118-129 | the 16 is sharp: two different messages that differ only within 17 consecutive bits and have one CRC |
| `Crc.SignedIndexInTable` | src/ZeroCenter/rpc/net_crc.cpp:124 | where a plain char is signed, the index stays inside the table if and only if the byte is below 0x80 |
| `Counters.ThreadCounters.ResetCommandThread` | src/ZeroCenter/main/service.cpp:130-136 | counts are cleared and the expected number is set; pending permits stay |
| `Counters.ThreadCounters.SetCommandThreadRun` | src/ZeroCenter/main/service.cpp:137-152 | one more running thread, and a permit for the first two reports and for the one that completes the count |
| `Counters.ThreadCounters.SetCommandThreadBad` | src/ZeroCenter/main/service.cpp:137-160 | one more failed thread, with the same rule for permits |
| `Counters.ThreadCounters.SetCommandThreadEnd` | src/ZeroCenter/main/service.cpp:162-169 | one thread less, and a permit when at most one is left |
| `Counters.RestartPostsNothing` | src/ZeroCenter/main/service.cpp:137-169 | ending and reporting again leaves the semaphore alone if and only if more than two threads stay and the total is not the expected one |
| `CentreRuns.RunKeepsInv` | src/ZeroCenter/main/service.cpp:194-284 | every interleaving of main thread, dispatcher with its monitor, plan dispatcher with its planner, and any number of stations keeps the protocol invariant |
| `CentreRuns.PermitsPostedAtStart` | src/ZeroCenter/main/service.cpp:194-235 | once every launched thread reported, three permits were posted in total if and only if all counted threads were launched and there are at least three; otherwise the third wait blocks |
| `CentreRuns.StartEventAfterAllReports` | src/ZeroCenter/main/service.cpp:234-242 | the third wait passes only after all reports, and leaves the semaphore empty when the start event is sent |
| `CentreRuns.EndsInOrder` | src/ZeroCenter/rpc/api_station.cpp:27-40 | in every run a thread that has ended has gone through all places of its way in order: launched, polled, left the loop, left the registry, destructed its sockets, closed down; the dispatcher also through its waits for monitor and close, the plan dispatcher through its wait for its planner |
| `CentreRuns.ClosedAfterOthers` | src/ZeroCenter/main/service.cpp:266-270 | in every interleaving CLOSED is set only when every thread but the dispatcher has ended in that order, so behind the destruction of its sockets, or had failed to launch |
| `CentreRuns.DispatcherResumesLast` | src/ZeroCenter/rpc/station_dispatcher.cpp:261-268 | the dispatcher passes its wait for the close, and so destructs its sockets, only under CLOSED, with all others ended in order or failed |
| `CentreRuns.ContextOutlivesThreads` | src/ZeroCenter/main/service.cpp:271-279 | DISTORY, and so the end of the context, comes only after the dispatcher has ended in order too |
| `CentreRuns.RunsAreBounded` | src/ZeroCenter/main/service.cpp:194-284 | no run is longer than a measure of its first state |
| `CentreRuns.StartFailsOnBadDispatcher` | src/ZeroCenter/main/service.cpp:206-224 | the start fails only if the dispatcher or the plan dispatcher failed to launch, and then the main thread never gets past its check |
| `CentreRuns.MaximalRunsFinish` | src/ZeroCenter/main/service.cpp:253-284 | with all counted stations launched, a run that cannot go on has failed at the start if one of the two dispatchers failed to launch, and otherwise terminated the context, with every other thread ended in order or failed and monitor and planner finished: no deadlock |
| `CentreRuns.MonitorWaitNeedsOnlyItsStart` | src/ZeroCenter/rpc/station_dispatcher.cpp:248-251 | the dispatcher passes its wait for the monitor thread if and only if the monitor has started; it does not wait for its end, which needs the centre to be closing or failed |
| `CentreRuns.PlanWaitsForPlanner` | src/ZeroCenter/rpc/zero_station.cpp:230-241 | in every interleaving the plan dispatcher polls and reports only after its planner thread has started, and goes on from its poll loop only after the planner has ended, which needs the centre to be closing or failed (`launch` and `plan_poll` in `rpc/plan_dispatcher.cpp`, lines 33-46 and 264-289) |
| `Frames.RunKeepsValid` | src/ZeroCenter/ext/shared_char.h:34-548 | over every program of constructions, copies, assignments, bindings, swaps, appends and destructions, counts equal handles, no handle refers to freed memory, and without handles nothing is allocated |
| `Frames.ProgramsKeepValid` | src/ZeroCenter/ext/shared_char.h:34-548 | the same from the empty heap: a whole program frees everything with its last handle |
| `Frames.SoundIsSafe` | src/ZeroCenter/ext/shared_char.h:34-548 | every allowed operation of such a program reads and writes live memory only |
| `Frames.FreedWithLastHandle` | src/ZeroCenter/ext/shared_char.h:111-148 | destroying a handle frees its buffer if and only if no other handle is on it |
| `Frames.AssignKeepsValid` | src/ZeroCenter/ext/shared_char.h:346-359 | assignment keeps counts exact, and assigning a handle to itself leaves it empty |
| `Frames.BindValidIff` | src/ZeroCenter/ext/shared_char.h:177-186 | binding raw memory keeps counting exact if and only if it is not empty |
| `Frames.SetTypeValidIff` | src/ZeroCenter/ext/shared_char.h:529-548 | setting a frame type keeps memory sound if and only if it does not grow the buffer or the handle is alone on it |
| `Frames.GrowSharedDangles` | src/ZeroCenter/ext/shared_char.h:536-546 | growing a shared descriptor leaves the other handles on a deleted buffer |
| `Frames.UnsafeAppendDangles` | src/ZeroCenter/ext/shared_char.h:521-548 | so does appending to a full shared descriptor |
| `Frames.AppendedTypes` | src/ZeroCenter/ext/shared_char.h:521-548 | one append yields count plus one, the old types and then the new one, and the same state, if and only if there were fewer than 127 frames |
| `Frames.AppendAllAddsTypes` | src/ZeroCenter/ext/shared_char.h:521-548 | any number of appends up to 127 frames puts the new types behind the old ones in the buffer, across reallocations, and while nothing grows every sharer stays on that buffer |
| `Frames.SharerReadsIff` | src/ZeroCenter/ext/shared_char.h:245-248 | the appending handle sees all its types; another handle on the buffer reads an appended type if and only if its own size exceeds the place, sends a descriptor if and only if it exceeds the last place, and is taken by a receiver that compares count and size with one type less |
| `Frames.CopyLagsBehind` | src/ZeroCenter/rpc/zero_station.cpp:433-438 | appending through a copy of a received descriptor, as plan_end does, leaves the frame in the list one type short of its own count, yet acceptable to the receiver |
| `Frames.LaggingRun` | src/ZeroCenter/rpc/zero_station.cpp:433-438 | the failing input from the start: a received descriptor of one title, copied and appended to, is sent as count 2 with one type |
| `Frames.AllocatedTypesRead` | src/ZeroCenter/ext/shared_char.h:398-475 | what is sent of a new descriptor of up to 127 frames is its count, its state, its types and the spare places, a whole descriptor; eight more bytes are allocated |
| `Frames.AppendedView` | src/ZeroCenter/ext/shared_char.h:521-548 | what is sent of a descriptor after an append, in place or moved, is a descriptor with the new type behind the old ones and the same state |
| `Frames.AppendedSize` | src/ZeroCenter/ext/shared_char.h:529-548 | an append in place extends the size just over the new type, and one that moves allocates four bytes more than the size, which covers three places behind the new type |
| `Frames.AppendedToEmpty` | src/ZeroCenter/ext/shared_char.h:521-527 | an empty handle that appends sends a descriptor of eleven frames, ten blank ones and the new type |
| `Frames.DescriptorBytesIff` | src/ZeroCenter/ext/shared_char.h:465-475 | the written bytes are a descriptor of these types if and only if there are at most 127 |
| `Frames.AssignedBytesRead` | src/ZeroCenter/ext/shared_char.h:161-172 | an assigned handle reads and sends exactly the assigned bytes, with four zeros behind them, and is empty if and only if they are |
| `Frames.BoundBytesRead` | src/ZeroCenter/ext/shared_char.h:177-186 | a handle that took over memory reads exactly that memory, and no other handle is on it |
| `Frames.OthersUntouched` | src/ZeroCenter/ext/shared_char.h:34-548 | no operation changes what a handle reads unless it gives the handle another block or appends in place to its buffer, and a swap exchanges what two handles read |
| `Frames.SwapUndoes` | src/ZeroCenter/ext/shared_char.h:191-219 | swapping twice is no change |
| `Frames.FrameHeap.FreeHandle` | src/ZeroCenter/ext/shared_char.h:132-148 | the count drops by one, cell and buffer are deleted with the last handle, and the handle is empty |
| `Frames.FrameHeap.CopyHandle` | src/ZeroCenter/ext/shared_char.h:34-39 | the new handle shares the block and its count rises by one; an empty handle gives an empty one |
| `Frames.FrameHeap.AssignHandle` | src/ZeroCenter/ext/shared_char.h:346-359 | the old block is released before the right-hand side is read, whose block, if it still has one, is then shared |
| `Frames.FrameHeap.AssignMessage` | src/ZeroCenter/ext/shared_char.h:250-258 | the old block is released and a fresh one holds the bytes with their cleared tail; no bytes leave the handle empty |
| `Frames.FrameHeap.Binding` | src/ZeroCenter/ext/shared_char.h:177-186 | the old block is released and the given memory becomes a block with a count of one |
| `Frames.FrameHeap.SwapHandles` | src/ZeroCenter/ext/shared_char.h:191-219 | two handles exchange block, size and allocation, counts untouched |
| `Frames.FrameHeap.DestroyHandle` | src/ZeroCenter/ext/shared_char.h:111-114 | the handle gives up its block and is gone |
| `Frames.FrameHeap.SetFrameType` | src/ZeroCenter/ext/shared_char.h:529-548 | in place when the allocation reaches, and otherwise in a new buffer that replaces the deleted one for this handle only |
| `Frames.FrameHeap.AppendFrameTo` | src/ZeroCenter/ext/shared_char.h:521-527 | the type is set behind the last frame and the count byte follows; an empty handle first becomes a descriptor of ten frames |
| `Warehouse.RunKeepsInv` | src/ZeroCenter/rpc/station_warehouse.cpp:46-475 | over every run of installs, updates, stops, recovers, removals, joins, state changes, restarts and clears: what is loaded is stored and agrees with it, instances run configurations of their name, no base station is stopped, ports are sound |
| `Warehouse.PortsNeverShared` | src/ZeroCenter/rpc/station_warehouse.cpp:312-363 | in every reachable state: two stations share a port if and only if numbers they were cast from differ by a multiple of 2^32; so none do, not even with an instance of a removed station, until the counter is 2^32 past its first value since the last clear; own ports differ; while the counter fits in an int no port exceeds it; loaded stations are stored with the same ports |
| `Warehouse.ToIntEqualIff` | src/ZeroCenter/rpc/station_warehouse.cpp:339-351 | two counter values are cast to one port if and only if they differ by a multiple of 2^32 |
| `Warehouse.SharedPortRun` | src/ZeroCenter/rpc/station_warehouse.cpp:46-80 | a run that ends with a shared port: a first start at the lowest base port, restarts at the highest, one install |
| `Warehouse.RunGrows` | src/ZeroCenter/rpc/station_warehouse.cpp:46-475 | over every run without a restart or a clear no configuration that an instance may hold is lost or moved to other ports, no address is used again, and the counter keeps its first value |
| `Warehouse.ClearSeparatesIff` | src/ZeroCenter/rpc/station_warehouse.cpp:129-142 | after any run from a blank store: an instance left running by a full clear shares no port with any station stored after any continuation without restart or clear, while the numbers in use span at most 2^32, if and only if the base port is at or above the last number its ports were cast from |
| `Warehouse.ClearAtStartOrCounter` | src/ZeroCenter/rpc/station_warehouse.cpp:129-142 | clearing to the base port that the counter started from, or a lower one, never keeps an instance of a station installed since apart; clearing to the counter as it stands always does |
| `Warehouse.ClearReusesPorts` | src/ZeroCenter/rpc/station_warehouse.cpp:129-142 | an input: a run in which an instance that keeps running across a full clear has the same ports as the next station installed |
| `Warehouse.CounterNeverDrops` | src/ZeroCenter/rpc/station_warehouse.cpp:46-475 | the port counter never goes down over any run without a full clear, whatever base ports the restarts bring |
| `Warehouse.StopAbsorbs` | src/ZeroCenter/rpc/zero_config.h:339-396 | a stopped station stays stopped, in the store and in memory, over every run and restart, until it is recovered, removed or cleared |
| `Warehouse.NoRoundAfterStop` | src/ZeroCenter/rpc/zero_station.cpp:230-241 | once the configuration of an instance is stopped, no sequence of life-cycle steps lets its pump begin another round, unless a recover names it |
| `Warehouse.BaseStationsStay` | src/ZeroCenter/rpc/station_warehouse.cpp:391-439 | over every run without a full clear base stations keep their ports, are never stopped and never removed |
| `Warehouse.NobodyEvicts` | src/ZeroCenter/rpc/station_warehouse.cpp:444-475 | a registered instance is taken out only by its own left, whoever else joins or leaves under its name |
| `Warehouse.JoinOnce` | src/ZeroCenter/rpc/station_warehouse.cpp:444-475 | a name has one instance: a second join fails and changes nothing, and left undoes join |
| `Warehouse.CloseEndsRounds` | src/ZeroCenter/rpc/zero_station.cpp:474-491 | closing from run or pause sets Closing on this configuration alone, after which its pump begins no further round; from any other state it changes nothing |
| `Warehouse.StateEntered` | src/ZeroCenter/rpc/zero_config.h:339-396 | a state that is entered is set on this configuration alone, unless it is stopped, and its pump goes on if and only if it is then starting, running or paused; a pause comes from run and a resume from pause |
| `Warehouse.JoinLeftEffect` | src/ZeroCenter/rpc/station_warehouse.cpp:444-475 | a join succeeds if and only if the name is free and registers and runs this instance; a left if and only if it is the registered one, which it takes out and closes; otherwise nothing changes |
| `Warehouse.StopEndsRounds` | src/ZeroCenter/rpc/station_warehouse.cpp:424-439 | after a successful stop the pump of the registered instance goes on if and only if it runs another configuration than the loaded one and is still starting |
| `Warehouse.InstallIff` | src/ZeroCenter/rpc/station_warehouse.cpp:312-363 | an install succeeds if and only if the name is new and no loaded station has the short name for its name, short name or alias, in any case; the station is then loaded as given with the next ports, three for types 3, 4 and 5 and two otherwise, and saved; a failed one changes neither store nor counter |
| `Warehouse.InstallJsonIff` | src/ZeroCenter/rpc/station_warehouse.cpp:264-274 | a parsed text is installed if and only if it has a name, a type from 2 to 5 and may be installed, and never as a base station |
| `Warehouse.InstallTypedIff` | src/ZeroCenter/rpc/station_warehouse.cpp:276-307 | the type names api, pub, vote and rapi, in any case, and no others, install types 3, 2, 4 and 5 under the given names |
| `Warehouse.StopIff` | src/ZeroCenter/rpc/station_warehouse.cpp:424-439 | exactly known, running, non-base stations can be stopped, and then this one alone is, in memory and in the store |
| `Warehouse.RecoverRemoveIff` | src/ZeroCenter/rpc/station_warehouse.cpp:391-420 | exactly known, stopped, non-base stations can be recovered, to idle in memory and in the store, or removed, each without another change |
| `Warehouse.UpdateIff` | src/ZeroCenter/rpc/station_warehouse.cpp:367-387 | an update reaches exactly known non-base stations; it sets caption, description and, for types between 1 and 0xA0, aliases of this one, in memory and in the store, and nothing else |
| `Warehouse.RestartRestores` | src/ZeroCenter/rpc/station_warehouse.cpp:50-68 | a restart at a base port that the counter has reached loads every stored station as it was stored |
| `Warehouse.RestartForgets` | src/ZeroCenter/rpc/station_warehouse.cpp:50-68 | a restart leaves no instance registered and reuses no configuration, and at a base port that the counter has reached it loads exactly what the scan finds in the store |
| `Warehouse.RestartRaises` | src/ZeroCenter/rpc/station_warehouse.cpp:46-80 | a restart at a higher base port raises the counter to it at least, to it exactly if the base stations are stored, and keeps every stored station |
| `Warehouse.FirstBoot` | src/ZeroCenter/rpc/station_warehouse.cpp:69-78 | the first start leaves exactly the four base stations on eight consecutive ports above the base port |
| `Warehouse.FirstStations` | src/ZeroCenter/rpc/station_warehouse.cpp:69-78 | those stations by name, short name, type and ports |
| `Warehouse.ClearStartsOver` | src/ZeroCenter/rpc/station_warehouse.cpp:129-142 | a full clear leaves the same four stations on the same eight ports, whatever was installed, and the running instances |
| `Warehouse.DestroyAllSaves` | src/ZeroCenter/rpc/station_warehouse.cpp:606-614 | shutting down saves every loaded station as destroyed, or as stopped if it was, in memory and in the store alike |
| `Warehouse.PauseResume` | src/ZeroCenter/rpc/zero_station.cpp:447-468 | pausing and resuming cancel out, and neither acts from another state |
| `Warehouse.Registry.GetConfig` | src/ZeroCenter/rpc/station_warehouse.cpp:223-247 | a configuration that is not loaded is loaded from the store |
| `Warehouse.Registry.ShortNameTaken` | src/ZeroCenter/rpc/station_warehouse.cpp:319-337 | the scan, in any order, fails exactly when some loaded station owns the key |
| `Warehouse.Registry.InstallConfig` | src/ZeroCenter/rpc/station_warehouse.cpp:312-363 | refusals, port allocation by single increments, saving and inserting give exactly the state and answer that the lemmas are about |
| `Warehouse.Registry.InitializeAll` | src/ZeroCenter/rpc/station_warehouse.cpp:46-80 | a sufficient counter loads what the scan returns, and otherwise the counter is set to the base port and the base stations are installed |
| `Warehouse.Registry.Stop` | src/ZeroCenter/rpc/station_warehouse.cpp:424-439 | the station is stopped in memory and in the store, and its running instance is closed; otherwise nothing but a load happens |
| `Warehouse.Registry.RecoverStation` | src/ZeroCenter/rpc/station_warehouse.cpp:391-401 | the station is idle again in memory and in the store; otherwise nothing but a load happens |
| `Warehouse.Registry.Remove` | src/ZeroCenter/rpc/station_warehouse.cpp:405-420 | the station leaves store and registry; otherwise nothing but a load happens |
| `Warehouse.Registry.UpdateStation` | src/ZeroCenter/rpc/station_warehouse.cpp:367-387 | caption, description and, by type, aliases are replaced and saved; otherwise nothing but a load happens |
| `Warehouse.Registry.JoinInstance` | src/ZeroCenter/rpc/station_warehouse.cpp:444-458 | an instance is registered and running unless its name is taken |
| `Warehouse.Registry.LeftInstance` | src/ZeroCenter/rpc/station_warehouse.cpp:462-475 | an instance is taken out and closed if and only if it is the registered one |
| `Warehouse.Registry.CloseInstance` | src/ZeroCenter/rpc/zero_station.cpp:474-491 | close acts from run, pause and stop only, and does not leave stop |
| `GlobalId.PackRoundTrip` | src/ZeroCenter/rpc/station_warehouse.h:58 | the low 12 bits of an id are the reboot number and the upper 52 the counter |
| `GlobalId.OrBits` | src/ZeroCenter/rpc/station_warehouse.h:58 | the or of two numbers has exactly the bits of both |
| `GlobalId.IdsDistinctIff` | src/ZeroCenter/rpc/station_warehouse.h:43-59 | two ids of one process at most 2^52 - 1 apart differ if and only if they are closer than that, across the wrap |
| `GlobalId.RebootsNeverMeet` | src/ZeroCenter/rpc/station_warehouse.h:43-59 | ids of processes with different reboot numbers are never equal |
| `GlobalId.IdsMeetIff` | src/ZeroCenter/rpc/station_warehouse.h:43-59 | two ids, of one process or of two, are equal if and only if their reboot numbers are and their places differ by a multiple of 2^52 - 1 |
| `GlobalId.ResetRepeatsIff` | src/ZeroCenter/rpc/station_warehouse.cpp:85-131 | after restore or clear has set the counter of a process back, its i-th id is the j-th one it gives without the reset if and only if their counts differ by a multiple of 2^52 - 1 |
| `GlobalId.ResetHarmlessIff` | src/ZeroCenter/rpc/station_warehouse.cpp:85-131 | a reset of a new process repeats no id if and only if no id is given before it or none after it |
| `GlobalId.ClearRepeatsRebootsIff` | src/ZeroCenter/rpc/station_warehouse.cpp:129-135 | a clear also flushes the reboot counter: ids of the p-th process before it and of the k-th after it are equal if and only if p and k differ by a multiple of 4095 and the places by one of 2^52 - 1 |
| `GlobalId.RebootsDistinct` | src/ZeroCenter/rpc/station_warehouse.h:45-54 | reboot numbers lie in 1..0xFFF, and those of any 4095 consecutive processes are distinct |
| `GlobalId.IdSource.GetGlobalId` | src/ZeroCenter/rpc/station_warehouse.h:43-59 | the reboot number is fetched once, the counter wraps to 1, and the id packs the two |
| `Wire.AcceptedIff` | src/ZeroCenter/rpc/zero_station.cpp:356-370 | the sign-extended count and the wrapping 64-bit sums accept exactly the messages whose first descriptor byte is at most 127 and counts the frames behind the descriptor |
| `Wire.RequestIs` | src/ZeroCenter/rpc/zero_station.cpp:351-408 | exactly which messages are answered as paused, refused, planned (state 2), given an id (state >) or handed to the job, planned and ids only for types between 1 and 0xA0 |
| `Wire.FrameSizeIsSigned` | src/ZeroCenter/rpc/zero_station.cpp:363 | the counted size is the first byte as a signed number modulo 2^64, and 0 for an empty frame |
| `Publish.SubscriberGetsPublication` | src/ZeroCenter/rpc/broadcasting_station.cpp:21-55 | end to end: an accepted publication with one title is relayed, passes the subscriber count check, and is unpacked if and only if its last frame is typed or empty; then title and every field are as the message says |
| `Publish.FieldsArrive` | src/Core/ZeroNetCore/PubSub/SubStation.cs:167-199 | a non-empty publisher, subtitle, station, content, binary or TSON frame that is alone in its type arrives under that type |
| `Publish.PutUpToExpected` | src/Core/ZeroNetCore/PubSub/SubStation.cs:167-199 | unpacking fails if and only if a non-empty frame has no type, and otherwise each field is the last non-empty frame of its type, the first for content, and the rest are the values in order |
| `Publish.UnpackIff` | src/Core/ZeroNetCore/PubSub/SubStation.cs:132-213 | a message is unpacked if and only if it has at least three frames, as many as its descriptor counts, and a type for each that is not empty |
| `Publish.RelayIs` | src/ZeroCenter/rpc/broadcasting_station.cpp:21-55 | an accepted message that is not read outside its list is refused if and only if it has no title, and otherwise relayed with its last title in front |
| `Publish.OutOfRangeIff` | src/ZeroCenter/rpc/broadcasting_station.cpp:29-46 | the relay reads outside its list if and only if the byte behind the last type is one of the four it looks for |
| `Publish.ExtraByteIsRead` | src/ZeroCenter/rpc/broadcasting_station.cpp:29-46 | an input: a message with one title byte too many is accepted and read outside its list |
| `Publish.TitleComesTwice` | src/ZeroCenter/rpc/broadcasting_station.cpp:46-55 | an unpacked publication has its title as the title and, unless it is empty, among the values |
| `Publish.EventRoundTrip` | src/ZeroCenter/rpc/broadcasting_station.cpp:96-118 | an event that the centre publishes comes back whole at every subscriber |
| `Publish.Scan` | src/ZeroCenter/rpc/broadcasting_station.cpp:29-46 | the loop finds the last index of each of the four types |
| `Publish.RelayMessage` | src/ZeroCenter/rpc/broadcasting_station.cpp:21-55 | the title replaces the address in front of an otherwise unchanged message; no title is refused |
| `Publish.UnpackMessage` | src/Core/ZeroNetCore/PubSub/SubStation.cs:132-213 | the loop gives the item, or nothing on a wrong count or a missing type, that the lemmas are about |
| `Command.CallRoundTrip` | src/Core/ZeroNetCore/Base/ZeroManageCommand.cs:26-39 | for every non-empty list of NUL-free strings the built message is accepted if and only if there are at most 127, and the dispatcher executes the first with the rest in order |
| `Command.JobSafeIff` | src/ZeroCenter/rpc/station_dispatcher.cpp:176-228 | for every list: the dispatcher reads outside it if and only if it is a heartbeat that names a loaded station and has too few strings behind the name (two for a join, one otherwise), or neither a ping nor a heartbeat and a byte that the scan looks for lies in the descriptor behind the last frame |
| `Command.ExtraByteIsRead` | src/ZeroCenter/rpc/station_dispatcher.cpp:192-217 | an input: a command with one argument byte too many is accepted and read outside its list |
| `Command.HeartRoundTrip` | src/ZeroCenter/rpc/station_warehouse.cpp:577-601 | a heartbeat built from NUL-free strings is accepted if and only if there are at most 127; it fails without a name or for a station that is not loaded, is read past its end with too few strings, and otherwise reaches the station with the strings it takes |
| `Command.ByteCommandHasNoCommand` | src/Core/ZeroNetCore/Base/ZeroManageCommand.cs:103-115 | any other byte command is answered as lacking its command |
| `Command.BytesOnWire` | src/Core/ZeroNetCore/Base/ZeroManageCommand.cs:26-115 | the descriptor bytes of calls and byte commands, and the four bytes of heartbeats |
| `Command.PongIff` | src/ZeroCenter/rpc/station_dispatcher.cpp:176-183 | exactly messages with state * are answered as pings |
| `Command.BuildCall` | src/Core/ZeroNetCore/Base/ZeroManageCommand.cs:26-39 | count, state, command, arguments and end mark; an empty list overruns the array |
| `Command.BuildByte` | src/Core/ZeroNetCore/Base/ZeroManageCommand.cs:103-115 | count, the command as state, arguments, end mark and a spare zero |
| `Command.StartJob` | src/ZeroCenter/rpc/station_dispatcher.cpp:176-228 | pings and heartbeats go first, and the scan of the whole descriptor gives the job that the lemmas are about |
| `Framing.StreamCutsBack` | src/ZeroCenter/rpc/zmq_extend.h:433-458 | every sequence of frame lists that is sent is cut back into the same sequence by the receiver |
| `Framing.StatusRoundTrip` | src/Core/ZeroNetCore/Base/ZeroCommandExtend.cs:288-343 | for all 16 combinations of optional frames, unpacking a status gives back its state and its typed frames |
| `Framing.FlagsMakeMessage` | src/ZeroCenter/rpc/zmq_extend.h:603-625 | for all 16 combinations exactly the last part that is sent carries no more flag |
| `Framing.Socket.SendStatus` | src/ZeroCenter/rpc/zmq_extend.h:578-676 | what is sent is one message: the address, the descriptor and the frames present |
| `Framing.Socket.Send` | src/ZeroCenter/rpc/zmq_extend.h:531-550 | the loop puts exactly the list, from an index on, on the wire as one message |
| `Framing.Socket.Recv` | src/ZeroCenter/rpc/zmq_extend.h:433-458 | the loop takes exactly the first message off the socket |
| `Framing.UnpackReplyMessage` | src/Core/ZeroNetCore/Base/ZeroCommandExtend.cs:288-343 | state and typed frames, an invalid layout, or a local error when a type is missing |
| `Framing.ReadsWholeMessages` | src/Core/ZeroMq/Socket/ZSocket.cs:267-296 | for every pattern of EAGAIN and errors, Recv succeeds if and only if one whole message lies ahead with at most 5 refusals and none before its first frame, and then returns that message |
| `Framing.RecvSucceedsIff` | src/Core/ZeroMq/Socket/ZSocket.cs:267-296 | with the budget as it is set: Recv succeeds if and only if one whole message lies ahead with at most 5 refusals in it and none before its first frame |
| `Framing.ClientSocket.Recv` | src/Core/ZeroMq/Socket/ZSocket.cs:267-296 | the nested loops terminate and return what the reading of the script says, with one budget for the whole message |
| `Framing.SecondRecvTakesTail` | src/Core/ZeroMq/Socket/ZSocket.cs:267-296 | the first Recv that succeeds after one that failed in mid-message returns the rest of that message as a whole one, the message itself if and only if the failed one had taken no frame |
| `Framing.TailTakenForMessage` | src/Core/ZeroMq/Socket/ZSocket.cs:267-296 | the failing input: one error between two frames |
| `Framing.SentIff` | src/Core/ZeroMq/Socket/ZSocket.cs:250-260 | a frame goes out if and only if the library takes it after at most as many refusals as the budget has left, none for the first frame |
| `Framing.AllSentIff` | src/Core/ZeroMq/Socket/ZSocket.cs:203-220 | a message goes out if and only if the library takes its frames within some number of calls with at most 5 refusals, no error, and the first frame at once |
| `Framing.SendSocket.SendTo` | src/Core/ZeroMq/Socket/ZSocket.cs:203-220 | as many frames of the message go on the wire as the library takes one after the other on one budget, and success is all of them |
| `Framing.NothingSentIff` | src/Core/ZeroMq/Socket/ZSocket.cs:250-260 | a send leaves nothing on the wire if and only if the library does not take its first frame at once |
| `Framing.SendHarmlessIff` | src/Core/ZeroMq/Socket/ZSocket.cs:203-220 | after a send that failed the peer gets exactly what is sent later if and only if the library had not taken the first frame or nothing is sent later |
| `Framing.PrefixIsPending` | src/Core/ZeroMq/Socket/ZSocket.cs:203-220 | while nothing follows, a proper prefix of a message is not taken for a message |
| `Framing.FailedSendHarmlessIff` | src/Core/ZeroMq/Socket/ZSocket.cs:203-220 | after a failed send the peer gets exactly what is sent later on the connection if and only if the failed send had put nothing on the wire or nothing is sent later |
| `Framing.NextIsGlued` | src/Core/ZeroNetCore/PubSub/BatchPublisher.cs:149-150 | a retry on the same socket glues its message to the prefix that the failed send left, and the peer takes both for one message |
| `BatchQueue.RunConserves` | src/Core/ZeroNetCore/Queue/SyncBatchQueue.cs:47-94 | after a load, over every sequence of pushes and switches, loaded plus pushed items equal those handed out plus those pending, as multisets |
| `BatchQueue.EachSwitchDelivers` | src/Core/ZeroNetCore/Queue/SyncBatchQueue.cs:47-94 | over every run of a loaded queue each switch hands out exactly what was pushed since the switch before; besides, the first what was in use at the start and the second what lay in the other bag |
| `BatchQueue.LoadDelivers` | src/Core/ZeroNetCore/Queue/SyncBatchQueue.cs:114-143 | after a load the second switch hands out what the file held, besides what is pushed, and without a file nothing is added |
| `BatchQueue.PushIsNext` | src/Core/ZeroNetCore/Queue/SyncBatchQueue.cs:47-57 | a pushed item is handed out by the next switch, and the other bag is left alone |
| `BatchQueue.SwitchConservesIff` | src/Core/ZeroNetCore/Queue/SyncBatchQueue.cs:63-94 | one switch loses and doubles nothing if and only if the queue was loaded, or the bag in use is empty, or both bags are alike |
| `BatchQueue.UnloadedRunDoubles` | src/Core/ZeroNetCore/Queue/SyncBatchQueue.cs:63-94 | over every run from a queue that was never loaded, exactly what the first switch finds is handed out once too often |
| `BatchQueue.UnloadedConservesIff` | src/Core/ZeroNetCore/Queue/SyncBatchQueue.cs:63-94 | such a run loses and doubles nothing if and only if it never switches, or switches first of all with nothing in line 1 |
| `BatchQueue.UnloadedSwitchDoubles` | src/Core/ZeroNetCore/Queue/SyncBatchQueue.cs:63-94 | an input: used before it is loaded, the queue hands an item out twice |
| `BatchQueue.TwoSwitchesDeliver` | src/Core/ZeroNetCore/Queue/SyncBatchQueue.cs:63-94 | two switches in a row deliver everything that is pending |
| `BatchQueue.SaveLoadRoundTrip` | src/Core/ZeroNetCore/Queue/SyncBatchQueue.cs:100-143 | what is saved is what the next process starts with, and a missing or broken file loses nothing |
| `BatchQueue.SyncBatchQueue.Push` | src/Core/ZeroNetCore/Queue/SyncBatchQueue.cs:47-57 | the item goes to the bag in use, which aliases the line that the index names |
| `BatchQueue.SyncBatchQueue.SwitchLines` | src/Core/ZeroNetCore/Queue/SyncBatchQueue.cs:63-94 | the other line comes into use, the items of the old one are returned and a fresh bag takes its place; null when it was empty |
| `BatchQueue.SyncBatchQueue.Save` | src/Core/ZeroNetCore/Queue/SyncBatchQueue.cs:100-108 | exactly the undelivered items are saved |
| `BatchQueue.SyncBatchQueue.LoadFile` | src/Core/ZeroNetCore/Queue/SyncBatchQueue.cs:114-143 | a file puts its items on line 1 and line 2 into use, a missing one line 1, so that the index is 1 or 2 |
| `Batching.ChunksPartition` | src/Core/ZeroNetCore/PubSub/BatchPublisher.cs:123-151 | the chunks concatenate to the list, each says and holds 1 to 255 entries, and only the last may be short |
| `Batching.PublishedIsRead` | src/Core/ZeroNetCore/PubSub/BatchPublisher.cs:123-151 | what a reader makes of the chunks is the list, nulls included, in order |
| `Batching.PublishAll` | src/Core/ZeroNetCore/PubSub/BatchPublisher.cs:123-151 | the nested loops write exactly those chunks, nulls included |
| `SocketPool.Session` | src/Core/ZeroNetCore/Connection/StationSocketPool.cs:33-138 | over every run of callers that return each socket once, with disposals and resumptions in between: no socket is in two hands, all held sockets are open, the queue keeps its limit, and after a disposal every open socket is held |
| `SocketPool.StationSocketPool.GetSocket` | src/Core/ZeroNetCore/Connection/StationSocketPool.cs:33-55 | the first idle socket of the queue, and a new one if and only if the queue has none; null if and only if disposed or none can be had; no other socket changes |
| `SocketPool.StationSocketPool.Free` | src/Core/ZeroNetCore/Connection/StationSocketPool.cs:61-79 | queued if and only if pool and socket are sound and there is room, and closed otherwise; an unsound one leaves a null entry |
| `SocketPool.StationSocketPool.Close` | src/Core/ZeroNetCore/Connection/StationSocketPool.cs:84-92 | the socket is closed and given up |
| `SocketPool.StationSocketPool.Dispose` | src/Core/ZeroNetCore/Connection/StationSocketPool.cs:116-138 | afterwards every open socket that the pool made is held, and held ones are untouched |
| `SocketPool.StationSocketPool.Resume` | src/Core/ZeroNetCore/Connection/StationSocketPool.cs:104-110 | the pool is alive again and held sockets are untouched |
| `Redis.ScopeRestores` | src/ZeroCenter/redis/redis.cpp:16-46 | a scope whose body ends no transaction restores, and so does one inside a transaction whose body ends none by a call, whatever opens, begins, selects and scopes are inside |
| `Redis.ScopeRestoresIff` | src/ZeroCenter/redis/redis.cpp:16-46 | a live scope restores context existence and database, on the context and on the server, if and only if its body, read as nesting alone from the number of open transactions at entry, uses no context that an ended transaction took away and leaves one to a scope that found one |
| `Redis.NestedScopeRestoresIff` | src/ZeroCenter/redis/redis.cpp:16-57 | where scopes and transactions only nest by scope, a live scope on an existing context restores it if and only if a transaction is open at entry or none is inside |
| `Redis.TransInsideScope` | src/ZeroCenter/redis/redis.cpp:40-57 | outside of transactions, one that begins and ends inside a scope crashes its leaving if and only if the scope found a context; another one begun inside before prevents it |
| `Redis.ScopesAreCommands` | src/ZeroCenter/redis/redis.cpp:16-57 | on a thread with a context, an open is a select, a live scope a select before and after its body, and a transaction by scope a begin and an end, crashes included |
| `Redis.TransactionStartsSound` | src/ZeroCenter/redis/redis.cpp:173-195 | in the outermost transaction of a thread without a context, while it stays on the default database, every get returns the last set, or what was stored |
| `Redis.GetsReturnLastSets` | src/ZeroCenter/redis/redis.cpp:475-545 | the same in any transaction that stays on the default database and whose cache agrees with the store, nested transactions included |
| `Redis.CacheIs` | src/ZeroCenter/redis/redis.cpp:475-545 | after any history of a context the cache holds for a key what the last set inside the transaction wrote, else what the last read before it found, else what the first read inside found, and nothing for a key without any |
| `Redis.HistoryReadsIff` | src/ZeroCenter/redis/redis.cpp:475-545 | over the whole history of a context, with gets, sets, selects and nested transactions in any order: a get returns what the selected database holds if and only if no transaction is open, or the key has no cached value, or what the cached value comes from wrote or found is what the selected database holds now |
| `Redis.DefaultReadsIff` | src/ZeroCenter/redis/redis.cpp:475-545 | where no other database is selected inside, a get there is right if and only if the key was set inside before, or no read before the transaction found it, or the last that did found what the default database holds now |
| `Redis.SetElsewhereIsRead` | src/ZeroCenter/redis/redis.cpp:498-512 | a failing input: a value set in another database inside the transaction is read back from the default one |
| `Redis.StaleCache` | src/ZeroCenter/redis/redis.cpp:475-527 | the failing input: a value read and then set outside of transactions is read stale in the next one |
| `Redis.CacheIgnoresDatabase` | src/ZeroCenter/redis/redis.cpp:475-497 | another: a value read in one database answers for the same key of the default database |
| `Redis.RedisThread.OpenContext` | src/ZeroCenter/redis/redis.cpp:69-88 | a context is created if and only if there was none, and otherwise only selects the database |
| `Redis.RedisThread.BeginTransaction` | src/ZeroCenter/redis/redis.cpp:173-178 | the default database is selected and the count rises |
| `Redis.RedisThread.EndTransaction` | src/ZeroCenter/redis/redis.cpp:183-195 | the count drops, and the outermost end deletes the context |
| `Redis.RedisThread.GetValue` | src/ZeroCenter/redis/redis.cpp:475-497 | the cache answers inside a transaction only, and every successful read fills it |
| `Redis.RedisThread.SetValue` | src/ZeroCenter/redis/redis.cpp:498-512 | the store is always written, the cache only inside a transaction |
| `Redis.LiveScope.constructor` | src/ZeroCenter/redis/redis.cpp:16-38 | entering opens or selects, and remembers which |
| `Redis.LiveScope.Leave` | src/ZeroCenter/redis/redis.cpp:40-46 | leaving closes what it opened or selects the old database |
| `NameIndex.RunAgrees` | src/Core/ZeroNetCore/Application/ZeroAppConfig.cs:224-283 | after every sequence of adds and removals whose keys do not collide, the two-step lookup agrees with a search for the owner of the key |
| `NameIndex.IndexAgrees` | src/Core/ZeroNetCore/Application/ZeroAppConfig.cs:224-283 | the same from the empty index |
| `NameIndex.AddEffect` | src/Core/ZeroNetCore/ZeroStation/StationConfig.cs:124-137 | a new station is taken as it is, a known one takes over all but short name and caption; no other station changes, and exactly the given keys lead to its name |
| `NameIndex.AnswersIff` | src/Core/ZeroNetCore/Application/ZeroAppConfig.cs:255-283 | a station answers to its name, its short name and its aliases, in any ASCII case, and to nothing else |
| `NameIndex.AddAgreesIff` | src/Core/ZeroNetCore/Application/ZeroAppConfig.cs:255-283 | after an add or an update the lookup is right if and only if no other station has a key of the given one and, for a known station, the old and the new keys together are those of the stored station, whose short name is not copied |
| `NameIndex.RemoveAgreesIff` | src/Core/ZeroNetCore/Application/ZeroAppConfig.cs:239-253 | after a removal the lookup is right if and only if no given key belongs to another station |
| `NameIndex.AppConfig.AddStation` | src/Core/ZeroNetCore/Application/ZeroAppConfig.cs:255-283 | a known station is updated in all but its short name, and name, short name and every alias map to the name |
| `NameIndex.AppConfig.Remove` | src/Core/ZeroNetCore/Application/ZeroAppConfig.cs:239-253 | the station and all keys of the given configuration are gone |
| `NameIndex.AppConfig.Find` | src/Core/ZeroNetCore/Application/ZeroAppConfig.cs:224-238 | the configuration under the name that the key maps to, or nothing |

## Left out

- Native ZeroMQ, the redis server, JSON, TSON and UTF-8: sockets are sequences of frames with a more flag, redis is a map and a counter, a TSON array is a sequence, and a string is the bytes it is decoded from. No frame is as long as 2^63 bytes.
- Centre: stations that restart while the centre runs, errors of ZeroMQ while it runs, stop commands during the start, and stations started after CLOSING are not steps of the model. `RestartPostsNothing` says when a restart would be harmless.
- Centre: a vote station is counted but never launched, and then the start never completes; `PermitsPostedAtStart` states this, the other results assume that every counted station is launched or say so.
- Centre: the monitor's use of the dispatcher instance after it is reset, sockets left open by a launch that failed, and what the planner thread does between its two posts.
- Frames: `is_binary_` and `is_const_`, the number-formatting, count and state setters, and `check_size`; reading a type beyond the allocation through the getter, which has no caller.
- Warehouse: what worker heartbeats do to a station, counters, events, documents and the cached host description; the waiting loop of `close`; sockets that cannot be opened are a step to `Failed`. The scan of the store is a list of keys.
- StopAbsorbs: takes the check and the assignment of `runtime_state` at `src/ZeroCenter/rpc/zero_config.h:339-343` as one atomic step; the source does them without a lock, so a stop written in between can be overwritten.
- NoRoundAfterStop: makes the same assumption.
- Warehouse: case folding is ASCII only, here and in the name index.
- Publish: replies to the publisher, the plan and global-id branches of `request` beyond their selection, and pausing beyond its answer.
- Command: `exec_command`, and the order of a faulty read of an index and the execution before it. Encoding of strings; a frame with a NUL byte is cut there when it is the command.
- Framing: errors of the centre's own sends and receives; C strings end at their first NUL before they are framed.
- BatchQueue: a push between reading the bag in use and adding to it, the non-TSON branch of the publisher, and publishing retries.
- SocketPool: a socket whose closing fails, and callers that close or return a socket twice.
- Redis: the pointer to its context that a live scope keeps; calls are on the thread's current context. Reads, writes and deletions that go around the cache, other writers, redis errors, the commit of an always empty list of modifications, and the failed flag. A key that is missing is a failed read that caches nothing.
- NameIndex: null short names, and changes to a configuration object that a caller keeps after adding it.
- `vote_station`, `zero_plan.h`, the plans of the plan dispatcher, `PollProxy`, `StationProxy`, `ProxyPool`, token passing in `ZeroStation` and `ZeroApplication`, the HTTP gateway and the tools are not part of this model.
