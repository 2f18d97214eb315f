# Verified models of the simulator

This project models the parts of the cycle-stepped CXL simulator whose correctness rests on more than one function,
and proves what they promise:

- the out-of-order core: register renaming with two alias tables and a free queue, scheduling, execution and in-order
  retirement (`RegisterRenaming`, `OutOfOrderCore`, `StageLaws`, `Dataflow`), load and store queues with forwarding
  (`LoadStoreQueue`, `MemoryOrder`, `LoadStoreUnit`, `QueueLaws`, `LoadTiming`, `LoadTracking`, `ClearPrograms`), the
  two together (`WholeCore`), the front end with its two decode buffers (`FrontEnd`, `FrontEndLaws`), and the front
  end feeding the core (`WholeCpu`);
- the CXL fabric: the latency/bandwidth queue (`LatBwQueue`, `BandwidthWindow`), credit-controlled ports joined by
  wires (`FabricPorts`), the switch (`Switches`), the memory pool with its controller and packet formats
  (`MemoryPool`), a pool behind its link (`PoolLink`), and nodes, switch and pools together (`Fabric`);
- the DRAM channel and its address mapping (`DramChannel`, `DramTiming`, `DramLaws`, `DramMapping`, `Bits`);
- cache miss handling and its request channels (`MissHandling`, `MissAccounts`, `MissLaws`, `Channels`, `ChannelLaws`,
  `Wakeups`), what they mean for the loads of the core (`LoadWakeups`), and the least-recently-used table
  (`LruTable`);
- placement of pool pages (`AddressPlacement`) and the folded branch history (`FoldedHistory`).

Each component has the same shape. A datatype holds its state, functions give its steps, and a class with the source's
fields has the source's loops, each method proved equal to the step function on the state before. The theorems are
about sequences of steps: a lemma whose name begins with `Run` holds for every sequence of the events its module
lists, in any order, with the decisions of the surroundings (which load hits, whether a queue below accepts, how long
memory takes, in which order a priority queue pops equal entries) left arbitrary. The modules whose names end in
`Laws` say what one step does to any state, in terms of that state alone: what moves, what stays, and the only reasons
to stop. Fields the source does not have only record history, such as the packets accepted so far or the value a
physical register holds; the datatypes name them.

Six results about the code are worth knowing. The swizzling loop of the DRAM mapping does not end when bank and bank
group have no bits together (`DramMapping.LoopEnds`). Address-map lookup serves every address of a table exactly when
no range reaches beyond a later one into a gap before the next (`AddressPlacement.LookupServesExactly`): overlapping
ranges may be served, and an empty range may hide part of another (`AddressPlacement.OverlapHides`). The list of free
pages starts again from its beginning when it runs out, so that pages are shared from then on, exactly as
`AddressPlacement.RunPlacesPages` says. Sharing has a price: the core looks for its loads by virtual block while
misses are merged by physical block, so a load can be forgotten, exactly when two pages have one frame
(`LoadWakeups.ReadsWokenExactly`). A load can be given the store of an instruction that still waits for a load of its
own (`LoadTracking.StoresDoNotWaitForLoads`), which happens in some run over a program exactly when an instruction
loads what an earlier one that also loads was the last to store (`ClearPrograms.ClearExactly`); for these programs,
and no others, some run gives a load a value that program order does not, if stored values may depend on loaded ones
(`WholeCore.AnswersRightExactly`). Nodes return no credits to the switch, so that a node behind a bounded link gets as
many answers as the link's queue has places and then none any more (`Fabric.RunStarvesNodes`, `Fabric.RunStaysStuck`).

Where the code and its comments disagree the code is followed: switch.h:17 says that all pool traffic goes to pool 0,
while the default policy is round robin.

## Model

| member | source | states |
|---|---|---|
| WholeCore.RunComputesProgram | src/ooo_cpu.cc:503-806 | In every run of renaming, execution, load and store queues and retirement together, in any interleaving and with any latencies and answers of the cache: if stored values do not depend on the loads of their own instruction, or the program is clear, or the run gave no load a store ahead of the storing instruction's loads, then executed instructions have read their program-order operands, completed ones have been given the values memory holds before them in program order and hold their program-order results, the committed table is the sequential register state, and once all stores have reached the cache it holds the sequential memory |
| WholeCore.AnswersRightExactly | src/ooo_cpu.cc:560-678 | Loads are given what memory holds, in all runs of the queues over a program and for all meanings of its instructions, stored values depending on loaded ones included, exactly when the program is clear: no instruction loads what an earlier one that also loads was the last to store |
| WholeCore.GivenIsMemory | src/ooo_cpu.cc:584-678 | What a load has been given, computed from the operands read and the values given by then, is what memory holds before its instruction, unless some load was given a value that could not be known yet |
| WholeCore.ApplyKeeps | src/ooo_cpu.cc:503-806 | Every step of either half keeps the two halves coupled and their joint invariant |
| WholeCore.GotIsLoaded | src/ooo_cpu.cc:722-734 | An instruction all of whose memory operations have finished has been given, for each load, what memory holds before it in program order, unless some load was given a value that could not be known yet |
| WholeCore.LastBeforeIsSource | src/ooo_cpu.cc:592-603 | The last older store to an address is where sequential memory before the load comes from, whatever stores are dispatched later |
| LoadTracking.FinishedLoadsSeen | src/ooo_cpu.cc:885-897 | When the count of finished operations reaches the operand count, every load of the instruction has been answered |
| LoadTracking.ApplyFollows | src/ooo_cpu.cc:584-678 | No event loses a load, and only stores of executed instructions finish, reach the cache or are seen by a load |
| ClearPrograms.ClearExactly | src/ooo_cpu.cc:560-678 | On the text of a program: no run over it, for any size of the load queue, gives a load the store of an instruction that has a load waiting, or that has a load not answered before, exactly when the program is clear |
| ClearPrograms.FeedIsEarly | src/ooo_cpu.cc:632-678 | For every program that is not clear such a run exists: everything older is run to its end, the instructions up to the reader are dispatched, and the storing one executes and finishes its stores |
| ClearPrograms.SourceFeeds | src/ooo_cpu.cc:592-603 | The store that program order gives a load is that of the last earlier instruction on the program's text that stores to the address |
| ClearPrograms.LiveBefore | src/ooo_cpu.cc:584-609 | A load in the queue after any step was there before it, unless its instruction has just been dispatched |
| LoadTracking.StoresDoNotWaitForLoads | src/ooo_cpu.cc:632-678 | A concrete run in which a load is given the store of an instruction that itself still waits for a load |
| Dataflow.RunMatchesProgramOrder | src/ooo_cpu.cc:503-582 | After any run, for any widths, latencies and memory delays, every executed instruction has read the operands and every completed one holds the results of executing the program one instruction at a time, and the committed table is the sequential register state |
| Dataflow.RunPartitionsRegisters | src/register_allocator.cc:16-70 | After any run the scheduled entries are a prefix of the reorder buffer, committed mappings followed by in-flight destinations give the frontend table, and these and the free queue partition the register file |
| Dataflow.ScheduleTurnKeeps | src/ooo_cpu.cc:507-523 | One turn of the scheduling loop keeps the invariant: only the first unscheduled entry is ever scheduled, so scheduled entries stay a prefix |
| Dataflow.SourceFollowsWriter | src/ooo_cpu.cc:527-541 | A renamed source is the destination of the youngest older writer still in the buffer, and is valid exactly when that writer has completed |
| Dataflow.SourceWithoutWriter | src/register_allocator.cc:28-43 | Without such a writer a renamed source is the committed mapping, which is valid |
| Dataflow.SourceNotRecycled | src/register_allocator.cc:51-70 | A register an unretired instruction reads is not on the free queue and is no destination of it or a younger entry |
| Dataflow.TableValue | src/register_allocator.cc:16-43 | A valid mapping in force before an entry holds the program-order value |
| Dataflow.ExecuteReads | src/ooo_cpu.cc:543-558 | An instruction whose operands are all valid reads the program-order values of its sources |
| Dataflow.RetireCommitsWritten | src/ooo_cpu.cc:793-803 | Retiring the head makes the committed mapping of each register it writes hold the program-order value |
| Dataflow.CycleKeeps | src/ooo_cpu.cc:503-525 | A whole cycle of retirement, completion, execution, scheduling and dispatch keeps the invariant |
| Dataflow.FreeWhenIdle | src/register_allocator.cc:5-14 | With nothing in flight at most one physical register per architectural name is taken |
| Dataflow.HeadIsScheduled | src/ooo_cpu.cc:507-517 | With a physical register per architectural name and per operand, an unscheduled head that is ready is scheduled |
| Dataflow.HeadCanExecute | src/ooo_cpu.cc:543-555 | A scheduled head that is ready can always execute |
| RegisterRenaming.RenameDestsClosed | src/register_allocator.cc:16-26 | Renaming destinations takes the first free registers in order, maps each name to its last one and changes no other register |
| RegisterRenaming.RetireAllClosed | src/register_allocator.cc:51-70 | Retiring destinations moves them into the backend table; every register is afterwards as often in table or queue as before, counting the retired ones |
| RegisterRenaming.RetireTrades | src/register_allocator.cc:51-70 | Retiring one register frees exactly the one it replaces |
| RegisterRenaming.RegisterAllocator.RenameDestRegister | src/register_allocator.cc:16-26 | The new tables, queue and register file are those of the destination renaming function |
| RegisterRenaming.RegisterAllocator.RenameSrcRegister | src/register_allocator.cc:28-43 | Likewise for sources; a first use takes a register and commits it |
| RegisterRenaming.RegisterAllocator.RetireDestRegister | src/register_allocator.cc:51-64 | Likewise for retirement |
| OutOfOrderCore.OutOfOrderCpu.ScheduleInstruction | src/ooo_cpu.cc:503-525 | The scheduling loop over the reorder buffer computes the scheduling stage, breaking where registers are short |
| OutOfOrderCore.OutOfOrderCpu.ExecuteInstruction | src/ooo_cpu.cc:543-558 | The execution loop computes the execution stage that ExecutesExactly is about |
| OutOfOrderCore.OutOfOrderCpu.CompleteInflightInstruction | src/ooo_cpu.cc:722-734 | The completion loop computes the completion stage |
| OutOfOrderCore.OutOfOrderCpu.RetireRob | src/ooo_cpu.cc:782-806 | The retirement loop computes the retirement stage |
| OutOfOrderCore.OutOfOrderCpu.Operate | src/ooo_cpu.cc:503-582 | One cycle of the machine computes the cycle function that the run theorems are about |
| StageLaws.ExecutesExactly | src/ooo_cpu.cc:543-582 | An entry is executed after the stage exactly when it was before, or could execute (scheduled, due, operands valid) and fewer than the width of those before it could; those newly executed are due after the execution latency, wherever an entry that cannot execute stands; all others are as before |
| StageLaws.CompletesExactly | src/ooo_cpu.cc:722-734 | Likewise completed exactly when completed before, or executed, due and with all memory operations finished, and fewer than the width of those before it so; the registers that become valid are those of the entries newly completed |
| StageLaws.SchedulesExactly | src/ooo_cpu.cc:503-541 | Scheduling goes in order to one entry: before it all that were ready are scheduled, nothing after it, and it stops there because nothing is left, the bandwidth is used up, or the entry is short of registers |
| StageLaws.RetiresExactly | src/ooo_cpu.cc:782-806 | The completed entries at the head leave, as many as there are up to the width |
| StageLaws.DispatchesExactly | src/ooo_cpu.cc:482-501 | Dispatched instructions enter the reorder buffer in order, unscheduled, each due after the scheduling latency |
| LoadStoreUnit.RunKeepsMemoryOrder | src/ooo_cpu.cc:584-678 | In every reachable state stores handed to the cache are a prefix of the program's stores and belong to retired instructions, every finished load saw the last store to its address before it, and finished plus live operations make up each instruction's operand count |
| MemoryOrder.ForwarderIsRight | src/ooo_cpu.cc:592-603 | The store the dispatch scan picks for a load is the one program order gives it |
| MemoryOrder.AnswerIsRight | src/ooo_cpu.cc:766-777 | What a load that does not wait reads from the cache is what program order gives it |
| MemoryOrder.NamedOnce | src/ooo_cpu.cc:592-609 | A waiting load-queue slot is named by exactly one unfinished store, once, so a forwarding reference never meets a reused slot |
| MemoryOrder.ReleaseKeeps | src/ooo_cpu.cc:670-677 | Releasing the loads that wait for a store keeps the invariant, with every assertion of the loop satisfied |
| MemoryOrder.DispatchKeeps | src/ooo_cpu.cc:584-615 | Dispatching an instruction with its loads and stores keeps the invariant |
| MemoryOrder.DrainKeeps | src/ooo_cpu.cc:642-644 | Removing the oldest finished store of a retired instruction keeps the invariant |
| MemoryOrder.RetireKeeps | src/ooo_cpu.cc:782-803 | A completed head has no live operation left when it leaves |
| LoadStoreUnit.LoadStoreQueues.Finish | src/ooo_cpu.cc:885-903 | The assertions that an operation's instruction is found and does not finish too many operations hold; the count grows by one |
| LoadStoreUnit.LoadStoreQueues.DoFinishStore | src/ooo_cpu.cc:662-678 | Both assertions on dependent loads hold; the store and every load waiting for it are finished |
| LoadStoreUnit.LoadStoreQueues.OperateStores | src/ooo_cpu.cc:632-644 | Finishing and then draining stores computes the store stage |
| LoadStoreUnit.LoadStoreQueues.OperateLoads | src/ooo_cpu.cc:646-657 | The loop over the load queue computes the load stage that IssuesExactly is about |
| LoadStoreUnit.LoadStoreQueues.HandleMemoryReturn | src/ooo_cpu.cc:766-777 | The loops over returned blocks and the load queue answer every issued load of each block |
| LoadStoreUnit.LoadStoreQueues.DoMemoryScheduling | src/ooo_cpu.cc:584-615 | A free slot is found for every load, and the new state is that of the dispatch function |
| LoadStoreUnit.LoadStoreQueues.FindForwarder | src/ooo_cpu.cc:593-595 | The max_element scan finds the last store entry for an address, if any |
| LoadTiming.RunSendsExecuted | src/ooo_cpu.cc:560-657 | In every run of the queues a load has a time only when its instruction has executed, and has been sent to the cache only if it has one, later than that time; no store of an instruction that has not executed has a time or has finished |
| LoadTiming.ApplyTimed | src/ooo_cpu.cc:560-582 | Every event keeps the time of each operation that of its own instruction: the moment of execution plus the latency, and none before |
| WholeCore.RunSendsWhenDue | src/ooo_cpu.cc:560-657 | In every run of the whole core that RunComputesProgram covers, an operation that is sent or finished is of an executed instruction, whose execution latency had passed |
| QueueLaws.IssuesExactly | src/ooo_cpu.cc:646-657 | A slot is sent in a load turn exactly when it holds an unsent load without a producer whose time is before now, and fewer such slots than the width and the room below lie before it; nothing else changes |
| QueueLaws.StoreTurnExactly | src/ooo_cpu.cc:632-644 | The stores that finish in a turn are the due ones from the first unfinished on, within the width; those that drain are finished stores of retired instructions at the head, within what is left of the width and the room below; the loads waiting for a finished store are answered from it and leave |
| QueueLaws.AnswersExactly | src/ooo_cpu.cc:766-777 | Exactly the sent loads of the blocks that came back leave the queue, each counted once for its instruction |
| FrontEnd.RunKeepsProgramOrder | src/ooo_cpu.cc:126-143 | In every run retired, reorder, dispatch, merged decode, fetch and input buffers together are the input stream in program order, each within its capacity, with or without a DIB-hit buffer |
| FrontEndLaws.FetchesExactly | src/ooo_cpu.cc:126-143 | The next instructions enter the fetch buffer, ready at once, up to the width, the room, or one that redirects fetch, which still enters |
| FrontEndLaws.ChecksExactly | src/ooo_cpu.cc:221-247 | The oldest instructions not looked up yet, as many as the fetch width, are looked up; those found count as fetched and decoded, ready at once; the others are only marked |
| FrontEndLaws.RunChecksInOrder | src/ooo_cpu.cc:221-228 | In every run instructions are looked up in the order in which they were fetched |
| FrontEndLaws.PromotesExactly | src/ooo_cpu.cc:304-358 | The oldest instructions fetched and ready leave, up to the width and the room in both buffers, those found decoded to the one, the others to the other, each with its own latency; the first one left behind is not fetched or not ready unless width or room is used up |
| FrontEndLaws.DecodesExactly | src/ooo_cpu.cc:359-478 | The oldest ready instructions of both buffers together move on with the dispatch latency, all older than any left behind; the first one left behind is not ready unless the width, the room, or the decode width it needs is used up |
| FrontEndLaws.DispatchesExactly | src/ooo_cpu.cc:482-501 | The oldest ready instructions go to the reorder buffer, up to the width, the room, and what fits into the queues |
| FrontEnd.SelectMerge | src/ooo_cpu.cc:348-355 | Splitting a program-ordered window by the decoded flag and merging again gives the window |
| FrontEnd.MergeSplit | src/ooo_cpu.cc:472-473 | Merging splits where everything before is older than everything after |
| FrontEnd.PromoteKeeps | src/ooo_cpu.cc:304-359 | Promotion to the decode buffers, for either DIB-hit buffer size, keeps program order and capacities |
| FrontEnd.GreedyTakesPrefix | src/ooo_cpu.cc:415-438 | The entries taken from the two decode buffers are a program-order prefix of both |
| FrontEnd.DecodeKeeps | src/ooo_cpu.cc:467-475 | Merging such a prefix into the dispatch buffer keeps program order and capacities |
| FrontEnd.FrontEndPipe.ChooseSpans | src/ooo_cpu.cc:415-438 | The three selection loops take exactly what the greedy selection takes |
| FrontEnd.FrontEndPipe.PromoteToDecodeBuffers | src/ooo_cpu.cc:304-359 | The in-place promotion computes the promotion stage |
| FrontEnd.FrontEndPipe.DecodeInstruction | src/ooo_cpu.cc:360-478 | The in-place decoding, in both configurations, computes the decode stage |
| FrontEnd.FrontEndPipe.DispatchInstruction | src/ooo_cpu.cc:482-501 | The dispatch loop moves exactly the ready span, for a given room in the load and store queues; WholeCpu has the queues themselves |
| WholeCpu.RunComputesStream | src/ooo_cpu.cc:482-501 | In every run of front end and core over one reorder buffer, with dispatch held back by the room in reorder buffer, load queue and store queue: retired, in-flight and waiting instructions are the input stream in order, the core's program is the part of the stream that has left the front end, the store queue keeps to its size, and registers and memory are those of executing that part one instruction at a time, under the conditions of WholeCore.RunComputesProgram |
| WholeCpu.NextIsNext | src/ooo_cpu.cc:492-494 | The instruction at the front of the dispatch buffer is the next of the program the core executes |
| WholeCpu.DispatchesWhatFits | src/ooo_cpu.cc:482-501 | The dispatch loop moves the ready span that fits the width, the reorder buffer, and the room the queues have left after each instruction before |
| WholeCpu.TurnIsDispatch | src/ooo_cpu.cc:487-498 | A turn of the loop is possible exactly when the coupled machine can dispatch, and changes front end and queues alike |
| WholeCpu.StoresKeepToSize | src/ooo_cpu.cc:490-491 | Only dispatch makes the store queue longer, by the stores of the instruction |
| WholeCpu.Dispatcher.DispatchInstruction | src/ooo_cpu.cc:482-501 | The loop, counting free load-queue slots before each instruction and scheduling its memory operations, computes the dispatch function of front end and queues |
| LatBwQueue.RunDelayLaw | src/lat_bw_queue.cc:19-115 | In every run a packet waits exactly while the rate has not covered the backlog at its arrival, enters transit on the tick that covers it, is in flight exactly its latency, and is returned then, once |
| BandwidthWindow.RunRemembers | src/lat_bw_queue.cc:31-43 | In every run the ring holds the bytes sent by each of the last 256 ticks since the last reset, each at its place; the sum is their total and the average is over the ticks since that reset; and the latency of each packet was computed from what the window before its own tick had measured |
| LatBwQueue.TickSpends | src/lat_bw_queue.cc:89-115 | A tick sends exactly the smaller of rate and backlog |
| LatBwQueue.ServiceOwed | src/lat_bw_queue.cc:97-114 | Through the transmitting loop every waiting packet owes its backlog less what the ticks since its arrival could send |
| LatBwQueue.UtilizationNeedsNoClamp | src/lat_bw_queue.cc:118-127 | The running sum is the sum of the window and lies between 0 and the window's capacity, so the clamp never acts |
| LatBwQueue.TickKeeps | src/lat_bw_queue.cc:19-44 | A tick, whatever order the priority queue pops equal packets in, keeps the invariant |
| LatBwQueue.TickCarries | src/lat_bw_queue.cc:24-28 | A tick hands out exactly the packets the queue no longer carries |
| LatBwQueue.BandwidthQueue.OnTick | src/lat_bw_queue.cc:20-44 | The loops over the priority queue, the blocked queue and the history ring compute the tick function |
| LatBwQueue.BandwidthQueue.AddPacket | src/lat_bw_queue.cc:47-55 | A packet is refused exactly when the queue is full, and otherwise queued with its cost, at least one byte |
| LatBwQueue.BandwidthQueue.ServiceBandwidth | src/lat_bw_queue.cc:90-115 | The transmitting loop computes the service function; no service without bandwidth |
| LatBwQueue.BandwidthQueue.AverageUtilization | src/lat_bw_queue.cc:68-73 | The average lies in [0, 1] |
| FabricPorts.RunSettles | src/fabric_port.cc:118-195 | In every reachable state of two joined ports credits, bytes on the wire, bytes buffered and credit returning add up to a bounded sender's capacity, egress queues keep to their sizes, and every message offered is in exactly one place |
| FabricPorts.RunLosesNoCredit | src/fabric_port.cc:44-49 | In every reachable state an arriving credit is added in full: the clamp never acts |
| FabricPorts.RunOnceACycle | src/fabric_port.cc:112-169 | In every run in which cycles do not go back at a port, it is ticked at most once in a cycle, and hands over at most one message in a cycle, only in cycles in which it was ticked |
| FabricPorts.IngressTimes | src/fabric_port.cc:80-110 | A message waits while 64 bytes for every `bw` cycles since its arrival are too few for all bytes up to its own, and is ready exactly `lat` cycles after they are not, both at least one; alone and of 64 bytes it waits `bw` cycles |
| FabricPorts.BlockedHeadWaitsForCredit | src/fabric_port.cc:232-241 | After a tick a head left in the egress queue lacks credits, and if it fits the capacity there are bytes or credits still outstanding |
| FabricPorts.HeadLeaves | src/fabric_port.cc:118-195 | A head no larger than the capacity leaves at the latest at the first tick after a number of deliveries and receives of what was sent before, at most three for each byte of capacity, whatever else happens in between |
| FabricPorts.StepAdvances | src/fabric_port.cc:136-195 | While the head waits, each delivery or receive of what was sent lowers the number of those remaining by one, and no other step changes it |
| FabricPorts.DrainSpends | src/fabric_port.cc:232-241 | Draining spends exactly the bytes it lets out and never overdraws |
| FabricPorts.HandledKeeps | src/fabric_port.cc:171-195 | Nothing arriving is refused: the exception for a full ingress queue is never thrown |
| FabricPorts.FabricPort.Drain | src/fabric_port.cc:232-241 | The loop sends the longest prefix the credits cover |
| FabricPorts.FabricPort.TryReceive | src/fabric_port.cc:154-169 | A message is handed over only in a cycle in which none has been, which is then remembered, and only if the handler takes it, and its credit is returned |
| FabricPorts.FabricPort.HandleEvent | src/fabric_port.cc:171-195 | Credits are consumed, resets clear the statistics and go on, everything else enters the ingress queue |
| Switches.RefusedExactly | switch.cc:151-218 | A message is refused exactly when a port it needs is full, and throws exactly when it is for no node and no pool |
| Switches.RoutedDelivers | switch.cc:151-218 | A routed message reaches its node once, one pool once with that pool's address, or every pool once; no other port gains anything |
| Switches.RunReplicatesAlike | switch.cc:189-204 | In every run egress queues keep to their bound, and with replication all pools have been given the same writes in the same order |
| Switches.RunIsFair | switch.cc:256-277 | Over any stretch in which the pool at the pointer can accept whenever one is to be chosen, round-robin counts of any two pools differ by at most one |
| Switches.PicksNearest | switch.cc:256-277 | A message for one pool goes to pool 0 under the fixed policy, and otherwise to the open pool nearest behind the pointer, going round, which then stands just behind that one |
| Switches.CxlSwitch.TryRouteEvent | switch.cc:151-227 | A failed or refused attempt changes nothing, a routed one gives the state of the routing function, and no send after the checks fails |
| Switches.CxlSwitch.PickPoolIndex | switch.cc:256-277 | The loop picks the first pool at or after the pointer that can send, and moves the pointer only then |
| Switches.CxlSwitch.ResetStatsAndBroadcast | switch.cc:279-289 | Every pool gets one reset message and every port's statistics are cleared |
| MemoryPool.RunAnswersOnce | cxl_mempool.cc:125-201 | In every reachable state each request that wants a response is inside the pool once with its route pending, or has been answered once to its own node with its own address; no other response is sent and no other route is pending |
| MemoryPool.ReplyHasRoute | cxl_mempool.cc:260-270 | Every reply in the channel still has its route, so none is dropped for want of one |
| MemoryPool.DrainStops | cxl_mempool.cc:125-136 | Draining responses stops only when none is left, the first one's port is full, or it has no port |
| MemoryPool.DrainMoves | cxl_mempool.cc:129-136 | Draining takes at least one reply exactly when the port of the first one has room |
| MemoryPool.AnswerGoesHome | cxl_mempool.cc:281-293 | The response to a request that named its node decodes to one for that node with the request's address and data |
| MemoryPool.RequestRoundTrip | convert_ev_packet.cc:5-56 | A request survives encoding and decoding, but for node ids that default to the processor's |
| MemoryPool.ResponseRoundTrip | convert_ev_packet.cc:59-89 | A response survives encoding and decoding, but for node ids that default to the processor's |
| MemoryPool.OperateKeeps | src/my_memory_controller.cc:36-76 | The controller's turn keeps every request in exactly one place |
| MemoryPool.CxlMemoryPool.EnqueueMemRequest | cxl_mempool.cc:154-179 | A request gets the next tag and, if it wants a response, a pending route |
| MemoryPool.CxlMemoryPool.Control | src/my_memory_controller.cc:36-76 | The loops over completed and queued requests compute the controller function |
| MemoryPool.CxlMemoryPool.RespondAll | cxl_mempool.cc:129-136 | The response loop computes the draining function |
| MemoryPool.CxlMemoryPool.TrySendResponse | cxl_mempool.cc:260-300 | Each outcome of an attempt leaves the state the attempt function gives |
| PoolLink.RunAnswersOverLink | cxl_mempool.cc:125-201 | In every run of a switch port, its link and the pool behind it, the pool has accepted exactly the requests delivered to its port, in order, each that wants an answer is inside once or has been answered once, and every answer is on its way back or delivered to the switch, as often as it was sent |
| PoolLink.QuietIsAnswered | cxl_mempool.cc:260-300 | When nothing is left in the pool or on its way back, the switch has been delivered exactly one answer, the right one, to each accepted request that wants one, and nothing else |
| PoolLink.AfterKeeps | cxl_mempool.cc:182-201 | Polling, responding and everything the fabric does keep credits, messages and requests accounted for together |
| Fabric.RunAnswersNodes | switch.cc:106-227 | In every run of nodes, switch and pools, under either pool policy and with or without replication: every message arrives at the port of its own link and can be routed, and whenever nothing is on its way any more each node has been given exactly one answer, with its address and data, by each pool that each of its requests went to, if it wanted one, and nothing else |
| Fabric.AfterKeeps | switch.cc:106-227 | Every step of a node, the switch, a wire or a pool keeps credits, messages, requests and the switch's history accounted for together |
| Fabric.ArrivesAtItsPort | switch.cc:116-148 | The port found by the first word of an arriving message is that of the link it came on, credits included, so that no exception is thrown |
| Fabric.NeverFails | switch.cc:151-227 | Every message the switch polls has a route: routing refuses, but never throws |
| Fabric.RunOnceACycle | switch.cc:229-234 | In every run of the fabric in which cycles do not go back at a port, no port of the switch or of a pool hands over more than one message in a cycle |
| Fabric.WritesAreKnown | switch.cc:16-22 | The switch takes a packet for a write exactly when the request encoded in it is one |
| Fabric.PoolAnswersAll | cxl_mempool.cc:154-201 | A pool with nothing inside has sent each node one answer, the right one, for each of the node's requests delivered to it that wanted one, and nothing else |
| Fabric.AnswersPassOn | switch.cc:167-177 | What the switch has queued for a node are the answers that all pools together have handed it for that node, as often as handed over |
| Fabric.RequestsPassOn | switch.cc:179-214 | What the switch has queued for all pools together are the requests nodes have handed it, once each, or once for every pool when writes are replicated |
| Fabric.RunStarvesNodes | cscore.cc:615-631 | A node returns no credits: over a bounded link the bytes it has got, those on the wire and the port's credits always add up to the capacity, so that it never gets more answers than the link's queue has places |
| Fabric.RunStaysStuck | src/fabric_port.cc:232-241 | An answer for a node that the credits left do not cover stays at the head of the switch's port for ever, and nothing behind it is sent |
| DramChannel.RunKeepsBanks | src/dram_controller.cc:146-371 | In every reachable state each bank in use serves an occupied scheduled entry of its own, each scheduled entry has exactly one bank, no bank is in use and refreshing, banks off the bus work for the current mode, no due refresh is forgotten, transfers neither overlap nor turn round without the turn-around time, and after every change of mode, also with no transfer since the one before, the bus is unused for the turn-around time from the change or the end of the transfer then in progress |
| DramChannel.RunLosesNoResponse | src/dram_controller.cc:462-509 | Whoever is owed a read response, for a dependent, an address or both, is at any later point still owed it through merging and forwarding, or has in the meantime been sent one that names what it waits for |
| DramChannel.ScheduleBest | src/dram_controller.cc:319-345 | The entry considered waits for a bank if any does, prefers a free bank, and among equals has been ready longest |
| DramChannel.NextOnBusLeast | src/dram_controller.cc:254-256 | The bank considered for the bus is valid if any is, and ready earliest |
| DramChannel.SwapKeeps | src/dram_controller.cc:207-247 | A change of mode releases exactly the requests not on the bus and keeps the invariant |
| DramChannel.RefreshKeeps | src/dram_controller.cc:167-205 | Scheduling refreshes keeps the invariant, and afterwards a bank still to be refreshed is busy |
| DramChannel.ServiceKeeps | src/dram_controller.cc:347-371 | Giving a bank a request keeps the invariant and overwrites no refresh still due |
| DramChannel.PopulateKeeps | src/dram_controller.cc:250-301 | Putting a request on the bus keeps the invariant |
| DramChannel.DramUnit.CheckWriteCollision | src/dram_controller.cc:440-460 | The loop drops exactly the unchecked writes for a block another write holds |
| DramChannel.DramUnit.CheckReadCollision | src/dram_controller.cc:462-509 | The loop forwards from writes, merges with earlier and then later reads, or marks the read checked |
| DramChannel.DramUnit.SwapWriteMode | src/dram_controller.cc:207-247 | Occupancy counts and the release loop compute the mode change |
| DramChannel.DramUnit.RefreshBanks | src/dram_controller.cc:167-205 | The loop over banks computes the refresh stage |
| DramChannel.DramUnit.PopulateDbus | src/dram_controller.cc:250-301 | The minimum search and the update compute the bus stage |
| DramChannel.DramUnit.SchedulePacket | src/dram_controller.cc:319-345 | The minimum search over the current queue computes the entry considered |
| DramChannel.DramUnit.ServicePacket | src/dram_controller.cc:347-371 | The update computes the service stage that RunDelays and ServicesExactly are about |
| DramChannel.DramUnit.OperateOnce | src/dram_controller.cc:135-141 | One cycle performs the stages in order and computes the cycle function |
| DramTiming.RunDelays | src/dram_controller.cc:167-371 | In every run the open row of a bank is that of its last service unless a refresh or an early release has closed it; each service is due the column access later, with the row activation if no row was open, and the precharge as well if another was; each transfer completes one service, not before it is due, and lasts the transfer time from its start or from when its bank group is free |
| DramTiming.HitIsFastest | src/dram_controller.cc:358-360 | Of services given at one time one that finds its row open is due first, one that finds none open next, one that finds another open last |
| DramTiming.CycleRefreshes | src/dram_controller.cc:167-180 | A cycle calls for a refresh of all banks exactly when the refresh interval has passed since the last call |
| DramTiming.ModeChosen | src/dram_controller.cc:207-247 | After a change of mode has been considered writes are served exactly when there are some and there are no reads, or seven eighths of their queue are full, or six eighths are and they were served already |
| DramLaws.WritesExactly | src/dram_controller.cc:440-460 | A check drops duplicate writes and nothing else: what is left is only marked, and every place written to is still written to |
| DramLaws.ReadsExactly | src/dram_controller.cc:462-509 | After a check every read not to be answered from a write is in one for the same place, and nothing is merged into a read but reads for the same place |
| DramLaws.ReadsReply | src/dram_controller.cc:462-509 | Exactly the unchecked reads whose place is written to are answered, once to each of those waiting, in order |
| DramLaws.RunDistinct | src/dram_controller.cc:440-509 | In every run no two checked writes, and no two checked reads, are for the same place |
| DramLaws.FinishesExactly | src/dram_controller.cc:146-165 | When a transfer has ended its request leaves, its bank is free, and each of those waiting is answered once; until then nothing happens |
| DramLaws.PopulatesExactly | src/dram_controller.cc:250-301 | A transfer starts exactly when the bus is free and some bank is ready for it, for one that has been ready longest |
| DramLaws.ServicesExactly | src/dram_controller.cc:347-371 | The request considered gets its bank exactly when it is ready and the bank is neither busy nor refreshing |
| DramMapping.LocateUnlocate | src/dram_controller.cc:584-614 | Taking apart and putting together gives back every address within the capacity |
| DramMapping.UnlocateLocate | src/dram_controller.cc:584-614 | Every place is the place of an address within the capacity |
| DramMapping.CollisionIsSamePlace | src/dram_controller.cc:433-438 | Two addresses within the capacity collide exactly when channel, bank number, row and column agree |
| DramMapping.BankIndexInjective | src/dram_controller.cc:303-316 | Equal bank numbers mean equal rank, bank group and bank |
| DramMapping.BankIndexInRange | src/dram_controller.cc:303-316 | Bank numbers are below the number of banks |
| DramMapping.FieldsTile | inc/extent_set.h:52-69 | The contiguous fields tile the address without gap or overlap |
| DramMapping.SwizzleIsMask | src/dram_controller.cc:571-582 | What the row does to a field is to flip some of its bits, whatever the field is |
| DramMapping.LocateBits | src/dram_controller.cc:571-614 | Bit by bit: each bit of the bank is its raw bit flipped by the parity of the row bits congruent to its place above those of the bank group, each of the bank group by that of the row bits congruent to its place, channel bit 0 by the parity of all row bits; all other fields are raw |
| DramMapping.SwizzleBit | src/dram_controller.cc:571-582 | For any segment size and offset, a bit of the field is flipped by the parity of the row bits at its place in the segments that the loop reaches |
| DramMapping.LoopEnds | src/dram_controller.cc:577-580 | The swizzling loop runs on for ever exactly when its segments have no bits |
| DramMapping.SwizzleBits | src/dram_controller.cc:571-582 | The loop computes the swizzled field that SwizzleBit describes bit by bit |
| DramMapping.MakeContiguousExtentSet | inc/extent_set.h:52-69 | Each field starts at the sum of the sizes before it |
| DramMapping.MakeSlicer | src/dram_controller.cc:82-94 | The fields have the logarithms of the parameters as sizes |
| Bits.Lg2 | inc/msl/bits.h:31-39 | The loop computes the floor of the logarithm to base two, and 0 for 0 |
| LruTable.RunIncludes | inc/msl/lru_table.h:128-166 | Under any common sequence of hits, fills and invalidations a set with more ways holds everything one with fewer holds |
| LruTable.ApplyKeepsUnique | inc/msl/lru_table.h:128-166 | A set never holds more items than ways, and each tag once |
| LruTable.HitReturnsFill | inc/msl/lru_table.h:114-166 | After any run of operations on a set a hit returns the item last filled under its tag, and none follows an invalidation |
| LruTable.FillRefines | inc/msl/lru_table.h:141-154 | Replacing the way the search finds is filling the recency list: the tag's own item, else an empty way, else the oldest |
| LruTable.MinMaxElement | inc/msl/lru_table.h:114-146 | The pairwise search finds an invalid way if there is one and otherwise the least, and a valid way if there is one, the greatest of them |
| LruTable.LruTable.CheckHit | inc/msl/lru_table.h:128-139 | The result is the list's item for the tag, which becomes the most recent |
| LruTable.LruTable.FillElement | inc/msl/lru_table.h:141-154 | The list of the set is filled, the others stay |
| LruTable.LruTable.InvalidateElement | inc/msl/lru_table.h:156-166 | The result is the list's item for the tag, which is removed |
| MissHandling.RunKeepsRegisters | src/cache.cc:406-498 | In every reachable state there are at most the allowed registers, one for a block, those with data first, and every reply still owed by a lower level has its register waiting |
| MissHandling.RunLosesNoWakeup | src/cache.cc:542-662 | Whoever waits behind a channel, for a dependent, a block or both, is at every later point still provided for through merging, tag checks, stashing, misses and fills, or has in the meantime been sent a reply that names what it waits for |
| MissAccounts.RunHandlesOnce | src/cache.cc:130-178 | In every run each request begun is once in one place: waiting for its tag check, for its translation, not yet started, in one register or write, or gone; each register has the dependents and channels of exactly the requests merged into it, and addresses and kind of the last that is no prefetch, or of the first; and exactly one reply has been given to each channel of each request found and register filled |
| MissLaws.MissExactly | src/cache.cc:406-498 | A miss fails exactly when it is no direct write, its block has no register, and all registers are taken or the request below is refused; otherwise it joins the register for its block, gets a new one behind the others, or needs none |
| MissLaws.KeptExactly | src/cache.cc:655-662 | What stays after a round of tag checks are misses that failed; a failure holds up none behind it |
| MissLaws.AnswerCompletes | src/cache.cc:758-781 | Data completes the one register for its block, a fill latency later, and puts it behind the complete ones and before all that wait; no other changes |
| MissLaws.RemoteCompletes | src/cache.cc:1066-1082 | Data from another node completes the register for its block and puts it before all others, which keep their order |
| MissLaws.TranslatesExactly | src/cache.cc:783-809 | Afterwards nobody waits for the page; all who did have its frame and their own place in it, and nobody else has changed |
| MissLaws.BeginsExactly | src/cache.cc:519-543 | The first requests of a queue are begun in order, each to be looked up a hit latency later, with a channel to reply to exactly if it wants a reply |
| LoadWakeups.ReadsWokenExactly | src/ooo_cpu.cc:736-780 | Loads and instruction fetches look for a virtual block: in all runs with a given table of translations none is ever forgotten, exactly when no two pages of the table share a frame |
| LoadWakeups.ReadWoken | src/cache.cc:783-809 | With one page to a frame a read the core has issued is at every later point in preparation under its virtual block, or a reply with it has been sent since |
| LoadWakeups.TwoReadsForget | src/cache.cc:140-178 | With two pages to one frame a run exists in which the first of two loads is merged into a register under the virtual address of the second and is never replied to |
| MissHandling.AnswerFindsRegister | src/cache.cc:758-781 | A reply to a request that was made finds a register without data: the sanity check never fails |
| MissHandling.FinishKeeps | src/cache.cc:758-781 | Completing a register and swapping it forward keeps the registers in order |
| MissHandling.RemoteKeeps | src/cache.cc:1066-1082 | Completing a register and rotating it to the front keeps the registers in order |
| MissHandling.MergeKeeps | src/cache.cc:140-178 | Merging a miss into a register keeps the registers in order |
| MissHandling.AllocateKeeps | src/cache.cc:438-493 | A new register is for a new block and within the limit |
| MissHandling.TagCheckSafe | src/cache.cc:655-662 | A round of tag checks loses nobody: hits reply, misses are registered, and the rest stay |
| MissHandling.TranslationSafe | src/cache.cc:783-809 | Finishing a translation loses nobody |
| MissHandling.FillMshrSafe | src/cache.cc:577-595 | Fills reply to everyone their registers owe |
| MissHandling.MissUnit.FinishPacket | src/cache.cc:758-781 | With its check satisfied, the method computes the completed state |
| MissHandling.MissUnit.HandleRemoteResponse | src/cache.cc:1066-1082 | With its assertion satisfied, the method computes the rotated state |
| MissHandling.MissUnit.HandleMissOf | src/cache.cc:406-498 | The method computes the miss function, changing nothing when it fails |
| MissHandling.MissUnit.FillFront | src/cache.cc:577-595 | The registers at the front are filled, answered and removed up to the bandwidth, the first not ready or the first failure, and stop for no other reason |
| MissHandling.MissUnit.SetAsideUnready | inc/util/algorithm.h:27-39 | The in-place compaction moves exactly the ready entries without translation to the stash, in order |
| MissHandling.MissUnit.CheckTagsOf | src/cache.cc:655-662 | The two partitions compute the tag-check function |
| Channels.CollisionSafe | src/channel.cc:72-115 | Merging collisions and answering from the write queue lose nobody who waits, for a dependent or for a block |
| ChannelLaws.CollisionExactly | src/channel.cc:32-115 | After a check all is checked and nothing could still be merged; nothing is asked for that was not asked for, and all that was is still asked for but for reads and prefetches a write has the answer to; exactly these have been answered, if they wanted it, the reads before the prefetches, in order |
| Channels.RequestChannel.Collide | src/channel.cc:72-115 | The three erasing loops compute the collision function |
| Channels.RequestChannel.AddRq | src/channel.cc:117-131 | A packet is queued unchecked exactly when there is room |
| Wakeups.SetUnionMembers | src/channel.cc:54-57 | A merged list holds exactly what either list held, sorted or not |
| AddressPlacement.ListedPagesPacked | scripts/page_owner_to_cxl_config.py:52-61 | After merging, writing and loading, a page is in the pool exactly when it was listed, and its place is the base plus the number of listed pages below it |
| AddressPlacement.LookupServesExactly | src/address_map.cc:75-92 | For any sorted table, with empty, wrapping and overlapping ranges: every address in some range is found in one, exactly when no range reaches beyond a later one into a gap before the next |
| AddressPlacement.LookupIsScanExactly | src/address_map.cc:75-92 | Likewise looking up finds precisely the ranges that contain the address, for all addresses, exactly when a range that starts before an earlier one ends is followed by another at the same place or is like that one |
| AddressPlacement.OverlapHides | src/address_map.cc:75-92 | Concrete tables: an inner range hides part of an outer one, even an empty range does, and two overlapping ranges that hide nothing |
| AddressPlacement.PlaceIsRank | src/vmem.cc:127-139 | A pool page's place is the base plus the number of pool pages below it |
| AddressPlacement.PlacesDiffer | src/vmem.cc:127-139 | Different pool pages have different places |
| AddressPlacement.PlacesFill | src/vmem.cc:127-139 | Every place of the window belongs to a pool page |
| AddressPlacement.PlacesClearExactly | src/vmem.cc:127-139 | The places of pool pages are clear of the list of free pages exactly when the list leaves the window of the pool free |
| AddressPlacement.RunPlacesPages | src/vmem.cc:112-158 | In every run pool pages are at the base plus their rank, two other pages share a place exactly when a whole number of refills of the free list lies between their turns, and a pool page shares none with another page if the list leaves the window free |
| AddressPlacement.MergePages | scripts/page_owner_to_cxl_config.py:12-25 | The ranges hold exactly the listed pages, and no two could be joined |
| AddressPlacement.FewestRanges | scripts/page_owner_to_cxl_config.py:12-25 | No list of ranges holding the same pages is shorter |
| AddressPlacement.AddressMap.Load | src/address_map.cc:40-71 | Loading throws exactly on a misaligned range; otherwise the table of each node is its sorted lines with pool offsets filled in |
| AddressPlacement.AddressMap.Lookup | src/address_map.cc:75-92 | The binary search finds the last range of the node that starts at or below the address |
| AddressPlacement.VirtualMemory.Translate | src/vmem.cc:125-158 | First touch gives a page its place for good; later touches return it without a fault |
| FoldedHistory.FoldedShiftRegister.ReadValue | branch/hashed_perceptron/folded_shift_register.h:55-70 | For every length, bit j is the exclusive or of the last outcomes at the positions congruent to j modulo the word length |
| FoldedHistory.PushHolds | branch/hashed_perceptron/folded_shift_register.h:72-97 | Shifting across the stored values and masking the last one pushes an outcome onto the window of the history |
| FoldedHistory.ParityOfWords | branch/hashed_perceptron/folded_shift_register.h:58-59 | The parity of all stored values together is that of their exclusive or |
| FoldedHistory.FoldStep | branch/hashed_perceptron/folded_shift_register.h:63-68 | A turn of the folding loop moves one word's share of the parity into the result |
| FoldedHistory.FoldedShiftRegister.PushBack | branch/hashed_perceptron/folded_shift_register.h:72-97 | The register afterwards holds the history with the new outcome in front |

## Left out

- WholeCore.RunComputesProgram: a load not yet answered counts as 0 where a stored value depends on it, because the code has no values; its steps are single turns of the loops of a cycle, in any order.
- Dataflow.RunMatchesProgramOrder: memory operands are an arbitrary set of finished instructions each cycle, and the test for free registers reads the alias table for entries already scheduled through an arbitrary function, because the code indexes it with physical numbers there.
- LoadStoreUnit.RunKeepsMemoryOrder: sources are identified by the storing instruction; values are in WholeCore; a finished store forgets the loads that waited for it, which the code keeps but never follows again.
- FrontEnd.RunKeepsProgramOrder: which instructions stop fetching, complete their fetch or hit the decoded-instruction buffer is arbitrary; branch prediction and fetch redirection are not modelled.
- LatBwQueue.RunDelayLaw: doubles are real numbers; packets serviced in one tick with equal completion may leave in any order.
- FabricPorts.RunSettles: message lengths are unbounded natural numbers, so lengths of 2^63 bytes and more, which the code would read as negative, are not modelled; a capacity of 2^61 - 1 bytes or more counts as unbounded; owners offer no message that looks like a credit.
- FabricPorts.BlockedHeadWaitsForCredit: for two ports only; the node component never returns credits, which is the subject of Fabric.RunStarvesNodes.
- Switches.CxlSwitch.TryRouteEvent: ports are values in a list, so ports shared with other components are not captured.
- MemoryPool.RunAnswersOnce: says that no response is lost or sent twice, not when it is sent; ports may change arbitrarily between steps.
- PoolLink.RunAnswersOverLink: for one pool behind one port of a switch; Fabric has the whole.
- Fabric.RunAnswersNodes: nodes send requests to pools, and resets, and nothing else; that a state in which nothing is on its way is reached is not claimed; the queue in which a node delays its requests before it sends them is that of LatBwQueue; what a node's last-level cache makes of an answer is in MissHandling.
- DramChannel.RunKeepsBanks: the warm-up shortcut, the data returned, statistics and the row counter of refreshes are not modelled; queue iterators are a queue and a place in it.
- DramMapping.LocateUnlocate: for fields of fewer than 64 bits together; addresses are lists of bits.
- LruTable.FillRefines: the access counter is unbounded, and each set is a list of its own instead of a stretch of one vector.
- LoadWakeups.ReadsWokenExactly: the core's requests are reads and writes under their virtual address; other users of the cache, such as the page walker, stay away from the frames of the table.
- MissHandling.RunLosesNoWakeup: that replies come, not when, is not claimed; what a tag lookup finds, whether a level below accepts and how many entries a step takes are arbitrary; the block array, replacement, prefetchers and the order of the upper levels are not modelled.
- MissHandling.RunKeepsRegisters: assumes that a lower level answers each request once.
- AddressPlacement.RunPlacesPages: page-table pages only take a page from the free list.
- AddressPlacement.AddressMap.Load: works on parsed lines; reading the file is left out.
- WholeCpu.RunComputesStream: fetch redirection after a mispredicted branch is part of the arbitrary choice of which instructions stop fetching.
- SST links are queues of events; clocks, parameters and serialization are left out.
- Statistics other than utilization, printing, heartbeats, deadlock reports and trace reading.
- Warm-up switching during a run, wrong-path recovery and exceptions for bad topologies.
- Page walks and the page-walk cache, whose keys differ from those of the page table.
- Branch predictors and prefetchers other than the folded history, replacement policies and the older core files, which would add only easy members.
