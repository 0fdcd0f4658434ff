# Banked slice buffer

A Dafny model of `bank.cpp`: the buffer `B`, its traffic source `A` and their clocked composition `TOP`, with proofs
about them.

`B` stores packets of 16 slices in `bank_num` banks of `slice_num` slots. Each clock edge it reads at most one slice per
bank for the up to four packets in service, and writes at most one slice of the packet at the front of `encode_que`.
The slices of a packet form a list linked across the banks; `queue_map` points to its first unread slice,
`last_bank_id`/`last_slice_id` to its last written one.

## How the model is built

- `Types`, `Spec`: the members of `B` as a value, and each stage of `B::process` and `B::rcv_from` as a function on it,
  with the branches and constants of the code. The value also holds the history of events: packets received, put in
  service and handed over, slices stored, skipped, released or refused by a busy bank, packets erased. `bank_num` and
  `slice_num` are symbolic.
- `BufferClass`, `TopClass`: the classes `B`, `A` and `TOP` with arrays and fields updated in place by loops, every
  method proved against the function that specifies it.
- `SimpleBuffer`: what the buffer is meant to be, without banks, links, counters or free-slot search: packets queue up,
  each owns a list of slots, slots leave at the front. A history is legal when every event is allowed where it happens.
- `HeapShape`, `Refinement`, `Guard`, `StateLaws`, `Delivery`: the refinement of the simple buffer, with the exact
  condition under which it holds, and what follows for packets. `Overflow`, `Damage`: runs of small buffers outside it.
- `Load`, `Capacity`: why the buffer that the code builds never drops a slice, whatever new packets arrive.
- `Ledger`, `Occupancy`, `PacketLength`: counting laws. `Allocation`, `Balance`: where slices are written.
- `Scheduler`, `Cycle`, `Arbitration`: who reads in a cycle. `Entries`: what a clock edge makes of each entry of
  `queue_map`. `Blocked`: a head without an entry. `Phases`, `Conflicts`, `ConflictRun`: phases modulo 4 and
  read conflicts. `Waiting`, `Departures`, `Service`: how long packets wait, and which are served.
- `Runs`, `Lists`, `ReadSideLaws`: runs in parts, lists without repetition, what the read side leaves alone.
- `ClosedSystem`, `ClosedDelivery`: the closed system with 2 banks of 128 slots, for every choice of
  which of the two processes runs first at each clock edge (section 4.2.1.2 of IEEE Std 1666-2011 leaves it open).

Terms. `Linked(s)`: the history of `s` is legal and `s` represents the simple buffer it leads to (queues, map entries,
links, free slots, depths, writer). `Idle(s)`: `Linked`, timers in range, no bank marked as read; this is what holds
between clock edges. `Guarded(s, acts)`: no packet arrives while one with the same id is inside, and no clock edge loses
a whole packet, both told by the state before the action. `NextOf(s, h)`: in how many clock edges head `h` tries to read.

## What the code does that one might not expect

- The comment at bank.cpp:265 asks for a bank that is not being read. The code falls back to bank 0 when no such bank has
  a free slot, even if bank 0 is being read; the model follows the code.
- A slice that finds no slot is dropped silently and still counts towards the 16 of its packet. `SliceIsDroppedIff` says
  exactly when. With at least 108 slots per bank, and so in the 2 banks of 128 that the code builds (bank.cpp:98), this
  never happens while no packet arrives with the id of one inside, whatever arrives and however many conflicts there are:
  at most 107 slices are ever stored, and "every run behaves like a simple buffer" holds exactly for such arrivals
  (`NothingIsDropped`; `RepeatedIdRun` breaks it with an id that arrives twice).
- Smaller buffers do drop slices: below 80 slots in all banks together five packets are enough (`DroppedSliceRun`), and up
  to 64 slots a whole packet is lost (`LostPacketRun`). Such a packet is put in service without an entry in `queue_map`,
  and `operator[]` then makes one up that points to slot 0 of bank 0; `LostPacketDoesDamage` shows, for one bank of one
  slot, that it then frees the slice of another packet and that `bank_deep_vec` grows beyond `slice_num`.
  `RunIsSimpleBuffer` gives the exact condition for every size.
- "No read conflict" does not hold for all arrivals, even when nothing is dropped and every id is new: `ConflictHappens`
  is such a run of the buffer that the code builds. The delays that packets are given when they are put in service ignore
  the phases of the packets that are still there, both when the list is filled (bank.cpp:170-179) and when an erased head
  is replaced (bank.cpp:248-253).
  `PhasesStayDistinctIff` says exactly when two of them come to read in the same phase, `ConflictIff` and
  `NoConflictIff` exactly when a conflict is counted.
- Service starts only with more than 4 packets waiting (bank.cpp:170). When arrivals stop while nothing is in service and
  at most 4 packets wait, these stay in the buffer for ever; `WhenArrivalsStop` says exactly which packets are served,
  also of those that are still being written at that time.
- An id that arrives again while its packet is inside can be twice in `decode_que_head`. The erasure of the packet takes the
  only entry of `queue_map` with it (bank.cpp:239-240), and the other head is then skipped at every clock edge
  (bank.cpp:185-188) and keeps one of the four places for ever, unless that id arrives once more (`StrandedForEver`).

## Model

| member | source | states |
|---|---|---|
| Spec.Run | bank.cpp:169-335 | memory safety, for any messages and clock edges, even with repeated ids or dropped slices: every bank and slot index that `process` uses is in range, no more than 4 packets are in service, so `4 - decode_que_head.size()` never wraps |
| BufferClass.B.constructor | bank.cpp:98-126 | a new buffer is in the specified initial state: every slot is empty, with `valid` 0 and all five other members -1, every depth is `slice_num`, no bank is marked as read and all statistics are 0 |
| BufferClass.B.RcvFrom | bank.cpp:324-335 | address 0x1000 appends the id to `encode_que`, any other address changes nothing |
| BufferClass.B.Fill | bank.cpp:170-179 | the fill loop, against its specification |
| BufferClass.B.ServeHeads | bank.cpp:181-246 | the loop over the heads with its erasures, against its specification; it terminates and says whether it erased a head |
| BufferClass.B.VisitHead | bank.cpp:184-245 | one round of that loop: countdowns, conflict, release, erase or advance |
| BufferClass.B.PickBank | bank.cpp:266-277 | the scan over the banks returns the bank that `ScanPicksDeepest` characterises |
| BufferClass.B.FindFreeSlot | bank.cpp:279-280 | the lowest free slot of a bank, or `slice_num` if there is none |
| BufferClass.B.Write | bank.cpp:255-317 | the write of one slice, against its specification |
| BufferClass.B.ReadSlices | bank.cpp:170-253 | the read side of a clock edge, against its specification |
| BufferClass.B.Process | bank.cpp:169-322 | one clock edge, against its specification; from an `Idle` state it leads to an `Idle` state if and only if it does not lose a packet |
| TopClass.A.Process | bank.cpp:36-69 | one clock edge of the source, including what it makes `B` receive |
| TopClass.Top.Simulate | bank.cpp:337-363 | any number of clock edges from the initial state, either process first at each: the system is in the specified state, no bank has counted a read conflict, and after two or more edges the free slots are 256 less the slices written, or 256 - 83 once 83 are written; one slice is written per edge from the third on, and at the second exactly if the source runs first there |
| SimpleBuffer.ReleasedInWriteOrder | bank.cpp:223-245 | per packet, what was released followed by what is stored is what was written: each slice once, in order |
| SimpleBuffer.ServedInArrivalOrder | bank.cpp:170-178 | received ids = ids put in service, then `decode_que`, then `encode_que` |
| SimpleBuffer.LegalIsSound | bank.cpp:223-313 | in every legal history packets are distinct, the slot lists are disjoint and without repetition, and at most 4 packets are in service |
| HeapShape.ReleaseKeepsHeap | bank.cpp:223-230 | freeing the first slice of a list keeps the memory equal to the lists |
| HeapShape.AppendKeepsHeap | bank.cpp:280-297 | filling a free slot and linking the last slice to it keeps the memory equal to the lists |
| Refinement.ReceiveKeepsLinked | bank.cpp:327-330 | receiving a packet keeps the refinement if and only if no packet with its id is inside |
| Refinement.ReadSideKeepsLinked | bank.cpp:170-253 | fill, head loop and refill keep the refinement: in particular no lookup misses and every release hits a stored slice of its packet |
| Refinement.WriteKeepsLinked | bank.cpp:255-317 | the write keeps the refinement if and only if it does not lose a packet; if it does, a packet waits for service without an entry in `queue_map` |
| Refinement.LastIsTail | bank.cpp:288-297 | the slice through which a next pointer is stored is valid, belongs to the packet being written and ends its list; both members are -1 exactly when nothing of the packet is stored |
| Refinement.ClockKeepsLinked | bank.cpp:169-322 | a whole clock edge keeps the refinement if and only if its write does not lose a packet |
| Guard.BanksReadIff | bank.cpp:209-221 | a bank is read by the coming clock edge if and only if some head that is due has its next slice there |
| Guard.SliceIsDroppedIff | bank.cpp:266-304 | told by the state before the clock edge: with a packet to write, its slice is dropped if and only if no due head has its next slice in bank 0 and every bank in which no due head has one has depth 0; otherwise it is stored |
| Guard.ClockKeepsIdle | bank.cpp:169-322 | a clock edge keeps `Idle`, and the history one of the simple buffer, if and only if the state before it does not say: last slice of a packet, nothing of it stored, and no room |
| Guard.RunKeepsIdle | bank.cpp:169-335 | from any such state: a run stays a history of the simple buffer if and only if it is guarded, and then ends in such a state |
| Delivery.RunIsSimpleBuffer | bank.cpp:98-335 | from the constructor, for every run: its history is one of the simple buffer if and only if it is guarded, and then the state is `Idle` |
| Delivery.DeliveredInFull | bank.cpp:223-245 | a packet that has left: the slices released are the slices written, in order, 16 per reception less those dropped |
| Delivery.PacketComesOutWhole | bank.cpp:169-322 | for every guarded run, a packet that arrived once and was erased came out with exactly 16 slices if and only if none of its writes was dropped |
| Overflow.FullBufferLosesPacket | bank.cpp:279-313 | with every bank full and nothing in service, a packet of which nothing is stored is lost whole |
| Overflow.FullBufferCutsPacket | bank.cpp:279-313 | a packet with a stored slice moves on, shorter, when the rest of it meets a full buffer |
| Overflow.LostPacketRun | bank.cpp:169-335 | every buffer of at most 64 slots, however they are spread over banks: five packets that arrive together make a run that is not a history of the simple buffer |
| Overflow.DroppedSliceRun | bank.cpp:266-304 | every buffer of fewer than 80 slots drops a slice when five packets arrive together |
| Damage.LostPacketDoesDamage | bank.cpp:170-253 | what a lost packet does, for one bank of one slot and five packets: after 82 clock edges it has released the slice of packet 1, of which nothing has come out; after 83 the depth of the bank is 2 |
| StateLaws.QueueMapIsExact | bank.cpp:176-188 | the keys of `queue_map` are exactly the packets in service, those waiting and the one partly written; each entry names the first written slice that has not been released |
| StateLaws.SlotsAreExact | bank.cpp:223-304 | a slot is in use exactly when it holds a written, unreleased slice, and then carries its own address, its packet and the address of the packet's next slice; every other slot has `valid` 0 and all other members -1 |
| StateLaws.DepthsAreExact | bank.cpp:225-299 | `bank_deep_vec` counts the free slots of each bank and stays in 0..`slice_num` |
| StateLaws.TimersInRange | bank.cpp:190-252 | between clock edges counters are 1..4 and delays 0..3, the counter being 4 while the delay is positive |
| StateLaws.ServiceKeepsOrder | bank.cpp:172-251 | `decode_que_head` is a subsequence of the ids put in service |
| Ledger.ProcessKeepsBooks | bank.cpp:209-321 | in one call each bank releases at most one slice, `read_bank_id_vec` tells the writer exactly which did, and it is clear again afterwards |
| Delivery.BankLedgerHolds | bank.cpp:211-299 | in every run whatsoever: depth = `slice_num` - allocations + (`read_cnt` - `read_conflict_cnt`), and each read attempt is counted once, as a conflict or as a release |
| Occupancy.TotalByEvents | bank.cpp:223-304 | what was stored and not released is the sum of the lengths of the lists of all packets inside |
| Occupancy.OccupiedByEvents | bank.cpp:225-299 | the number of valid slots is allocations minus releases |
| Occupancy.SmallStockHasRoom | bank.cpp:266-304 | with fewer than `slice_num` slices stored in all banks together, every write finds a slot |
| PacketLength.FewPacketsHaveRoom | bank.cpp:266-304 | told by the state before the clock edge: with 16 times the packets inside at most `slice_num`, the coming slice finds room |
| Load.FillKeepsBalanced | bank.cpp:170-179 | the bound on times and stock survives the filling of the service list |
| Load.CycleKeepsBalanced | bank.cpp:183-317 | it survives a clock edge, whichever of the due heads lose their reads and whichever heads leave |
| Load.BalancedStock | bank.cpp:223-304 | it allows at most 107 stored slices |
| Capacity.NothingIsDropped | bank.cpp:98-335 | for any number of banks of at least 108 slots, so for 2 banks of 128, and any arrivals and clock edges: the run is a history of the simple buffer if and only if no packet arrives while one with its id is inside; then no slice is dropped and at most 107 are stored |
| Capacity.DistinctArrivalsLoseNothing | bank.cpp:98-335 | on arrivals alone: if all ids differ, and `slice_num` is at least 108 or 16 times the number of arrivals, the run is a history of the simple buffer and no slice is dropped |
| Capacity.RepeatedIdRun | bank.cpp:327-330 | 2 banks of 128 slots: an id that arrives twice makes a run that is not a history of the simple buffer |
| PacketLength.RoomyRunKeepsWhole | bank.cpp:169-335 | for any arrivals, as long as every slice finds room: each waiting packet has exactly 16 slices and a partly written one exactly 16 - `write_slice_num`, and the run is guarded |
| PacketLength.LastMembersTell | bank.cpp:288-297 | while no slice is dropped, `last_bank_id` and `last_slice_id` are both -1 exactly when `write_slice_num` is 16 |
| PacketLength.PacketLengthsInRuns | bank.cpp:255-317 | the general law with drops: in any guarded run a packet received once has 16 slices less those dropped while it waits, 16 - `write_slice_num` less those dropped while it is written, and released plus stored slices add up to 16 less those dropped while it is in service |
| Allocation.ScanPicksDeepest | bank.cpp:266-277 | the scan finds the lowest-numbered deepest bank that is not read, or bank 0 if none has a free slot |
| Allocation.WriteGoesToDeepestOpenBank | bank.cpp:266-304 | if some bank that is not read has a free slot, the write goes to the lowest-numbered deepest such bank, at its lowest free slot, and so never shares a bank with a read |
| Balance.BanksStayEven | bank.cpp:266-299 | for any number of banks: over a run without releases from equal depths, the deepest and shallowest bank differ by at most one |
| Scheduler.VisitMoves | bank.cpp:184-245 | the fate of a visited head: it waits one cycle less, loses and retries, or releases the first slice of its list and comes back in 4 cycles or leaves; `delay` and `counter` of its entry in each case, and the slot that a release empties, all members -1 and `valid` 0 |
| Scheduler.LoopInvHolds | bank.cpp:183-246 | the whole head loop: every head's fate, the banks it marks, the order of the heads that stay |
| Entries.FillEntries | bank.cpp:170-179 | the k-th packet that the filling puts in service has delay k and counter 4 and points to its first slice; the entries of all other packets are unchanged |
| Entries.NewcomerEntry | bank.cpp:248-253 | a packet that takes the place of an erased head has delay 4 less the length of the list it joins and counter 4 at the end of the clock edge, and points to its first slice |
| Entries.EntriesAfter | bank.cpp:170-304 | every entry of `queue_map` after a clock edge, member by member: heads by whether they were due and beaten, the newcomer, and the packets that wait or are being written, which have delay 0 and counter 4 |
| Blocked.SecondIsStranded | bank.cpp:184-240 | when a packet is erased whose id is in service a second time and not coming, the other head has no entry in `queue_map` |
| Blocked.StrandedForEver | bank.cpp:184-188 | such a head stays in `decode_que_head` in every run in which its id does not arrive, whatever else does |
| Arbitration.FirstComeFirstServed | bank.cpp:209-232 | a due head releases its slice if and only if no due head in front of it needs the same bank |
| Phases.LoopIsCounted | bank.cpp:211-231 | the head loop counts one conflict for each due head that has a due head in front of it with the same bank, and one release for each other due head |
| Phases.ConflictIff | bank.cpp:209-231 | a clock edge counts no conflict if and only if no two heads that are due before it have their next slices in the same bank |
| Phases.FillPhasesIff | bank.cpp:170-179 | filling keeps the phases distinct if and only if no head still in service is in the phase of a newcomer |
| Phases.PhasesStayDistinctIff | bank.cpp:170-253 | the exact law: from distinct phases a clock edge leads to distinct phases if and only if no head is in the phase of a packet that the filling puts in service, and the refill of a list that loses one of two heads does not hit the phase of the other |
| Conflicts.AlwaysDistinctIff | bank.cpp:170-253 | the same over whole guarded runs: the phases are distinct in every state if and only if that condition holds at each clock edge |
| Conflicts.NoConflictIff | bank.cpp:98-335 | for every guarded run from the constructor on, with any number of banks: all `read_conflict_cnt` are 0 if and only if at no clock edge two due heads have their next slices in the same bank |
| Conflicts.PhaseSafeRunHasNoConflict | bank.cpp:170-253 | in particular a guarded run whose packets find their phases free when they are put in service counts no conflict |
| ConflictRun.ConflictHappens | bank.cpp:98-335 | a concrete run of 2 banks of 128 slots (six packets with distinct ids, 160 clock edges) without a dropped slice that counts a read conflict |
| Waiting.WaitingShrinks | bank.cpp:190-219 | a head that waits or loses gets closer to its slice, because a rival that won cannot read again for 4 cycles |
| Waiting.SliceIsHandedOverByPosition | bank.cpp:183-246 | a head at list position p that is due in n cycles releases its slice within n + p clock edges of any guarded run |
| Waiting.PacketLeavesWithin114 | bank.cpp:183-253 | a packet in service is out of `decode_que_head` after at most 114 clock edges of any guarded run, however many conflicts it meets |
| Departures.TimeShrinks | bank.cpp:183-246 | without a conflict, each clock edge takes a head one cycle closer to its leaving - its next read, plus 4 cycles per further slice - and it leaves exactly when that time is up |
| Service.WaitingIsServed | bank.cpp:170-253 | for any guarded run: once a packet is in service or more than 4 wait, the packet at position p of `decode_que` is in service after at most 114 (p + 1) clock edges |
| Service.WaitingComesOut | bank.cpp:170-253 | such a packet has been in service and has left it after at most 114 (p + 2) clock edges |
| Service.WhenNothingIsWritten | bank.cpp:170-253 | with nothing left to write and no further arrivals, a waiting packet is ever put in service if and only if some packet is in service or more than 4 wait |
| Service.WritingEnds | bank.cpp:255-313 | without arrivals nothing is left to write after one clock edge per slice of the packets in `encode_que`, at most 16 for each |
| Service.WhenArrivalsStop | bank.cpp:170-313 | without arrivals from any state on: a packet that waits or is still being written is ever put in service if and only if it has been when the writing ends, or then some packet is in service or more than 4 wait |
| ClosedSystem.EdgeKeepsInv | bank.cpp:36-322 | one clock edge of the closed system, in either order, keeps its invariant |
| ClosedSystem.FourHeadsGoOn | bank.cpp:170-253 | four heads in distinct phases and a waiting packet: the next cycle has four heads in distinct phases, and exactly one release if the first is due |
| ClosedSystem.NoConflictEver | bank.cpp:36-322 | in every reachable state of the closed system `read_conflict_cnt` is 0 in both banks |
| ClosedSystem.OccupancyBound | bank.cpp:36-322 | at most 83 slices are ever stored, no slice is ever dropped, and from the 85th clock edge on exactly 83 are stored |
| ClosedSystem.FreeSlotsInTime | bank.cpp:225-299 | the same told by `bank_deep_vec`: from the 85th clock edge on the two depths add up to 173 |
| ClosedSystem.OneSlicePerEdge | bank.cpp:36-322 | from two clock edges after the first fill on, for ever: 83 slices at the end of each cycle and exactly one release per clock edge |
| ClosedSystem.ReleasedByTime | bank.cpp:36-322 | after n >= 85 clock edges exactly n - 84 slices have been released if the source ran first at the second edge, and n - 85 if the buffer did |
| ClosedSystem.WrittenByTime | bank.cpp:36-322 | after n >= 2 clock edges n - 1 slices have been written if the source ran first at the second edge, and n - 2 if the buffer did; no other edge's order matters |
| ClosedSystem.FreeSlotsByTime | bank.cpp:225-299 | after any two or more clock edges the depths of the two banks add up to 256 less the slices written, and to 173 once 83 are written |
| ClosedSystem.WriteAvoidsRead | bank.cpp:209-304 | the writer never uses the bank that is read in the same cycle, and finds room |
| ClosedDelivery.PutInServiceInTime | bank.cpp:36-322 | the k-th packet of `A` is in service or has been after 16 k + 66 clock edges, the first one after 83 |
| ClosedDelivery.EdgeTime | bank.cpp:36-322 | whoever runs first, each clock edge takes each packet in service one cycle closer to its leaving |
| ClosedDelivery.EveryPacketIsDelivered | bank.cpp:36-322 | after 16 k + 130 clock edges the k-th packet of `A` has been received once, read completely, its 16 slices in write order, and has left |

## Left out

- SystemC and TLM themselves: sockets, clocks, phases, time stamps and payload pointers. A message is an address and an id; a clock edge is one call of `process`.
- The text written to standard output, the printout in the destructor of `TOP`, and the 300 ns limit of the simulation: `Simulate` takes any number of clock edges.
- The members that nothing reads: `encode` and `decode` of `B`, `decode` of `A`, `read_bank_id` (a scratch copy of the bank being read), the constant `bank_id` and `slice_num` members of `bank`, and `read_conflict_flag`; and the empty methods `encode_list` and `decode_list`.
- Wrap-around of the counters of `A` and of the statistics: integers are unbounded.
- `decode_link_num`, `delay` and the 16 slices per packet are the constants of the code, not parameters.
- NothingIsDropped: 108 slots per bank are shown to be enough; for smaller banks with 80 or more slots together only the condition per clock edge is given (SliceIsDroppedIff), not which sizes can reach it.
- WaitingIsServed: the bound is not the earliest possible time; it counts on one departure in 114 clock edges, the time that holds with conflicts and when several heads leave in one cycle, of which only one is replaced.
- The switches, arbiters and PCIe components that `main.cpp` mentions are not part of this model.
