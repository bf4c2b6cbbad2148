# chipemu switch-level core, in Dafny

chipemu simulates NMOS chips of the MOS 6502 family at the switch level. The netlist has
nodes (wires) and transistors (gate, terminal 1, terminal 2), plus the two sentinel nodes
power and ground. Each node carries a pullup or pulldown drive, a stored level, and two
bookkeeping marks: `in_changelist` (queued) and `in_group` (collected).

Driving a pin changes a node's drive and queues the node. Draining the queue recalculates
each queued node:
- a flood fill through the transistors that are on collects the node's group;
- the group's members and the sentinels it touches decide a single level;
- every member whose level changes flips the transistors it gates;
- the terminals those transistors affect are queued again, smallest id first.

The project models this core:
- the engine of `src/nmos.cc` and `src/nmos.h`;
- the 65xx chip facade of `src/mos65xx.cc` (pins, buses, registers, and the 6510 I/O port);
- the testbench memory map of `testbench/memory.cc`;
- the kernel system-call handshake of `testbench/commodore.cc`.

Modules:

- `NmosNode` (nmos_node.dfy): node flags, and the group value that `group_update_value`
  and `group_get_value` compute.
- `ChangeOrder` (order.dfy): the smallest-first release order of the `change_order` min-heap.
- `Bits` (bits.dfy): the bit arithmetic of `read_nodes` and `write_nodes`.
- `NmosSpec` (nmos_spec.dfy): the state of a network as values, and one reference function per
  engine step: push, set, write, flood fill, flip, recalc and drain. It also holds the
  invariants those steps keep.
- `Nmos` (nmos_engine.dfy): class `Engine`.
  - Node flags, transistor on-bits and the ring buffer `changed_queue` live in arrays updated in place.
  - Every method is proved to follow the `NmosSpec` step on the abstract state.
- `NmosBuild` (nmos_build.dfy): network construction.
  - `create_construct_nodes`, `setup_transistors` (duplicate transistors are skipped), `create_nodes` and `lookup_leg`.
  - The constructor, with a proof that a well-formed description is laid out correctly.
- `Mos65xx` (mos65xx.dfy): class `Chip`, the seven variants over one engine.
- `MemoryMap` (memory.dfy): classes `Range` and `Memory`. Ranges are objects, as the shared
  pointers of the source are: the commodore machine keeps its register block and writes it in place.
- `Commodore` (commodore.dfy): the select/io/ack handshake, as functions and as class `Machine`.

## Model

| member | source | states |
|---|---|---|
| NmosNode.UpdateValue | src/nmos.cc:195-216 | the fall-through switch: high, pulldown, power and ground absorb; pullup turns into pulldown exactly when the word has pulldown; from nothing, a pulldown wins over a pullup, which wins over a stored high |
| NmosNode.UpdateValueDrive | src/nmos.cc:195-216 | only the drive bits and the stored level of a word matter to the group value; the two marks do not |
| NmosNode.GetValue | src/nmos.cc:262-276 | a group is high exactly when its value is power, pullup or high |
| NmosNode.MemberFold | src/nmos.cc:195-245 | folding member words never produces ground or power that was not already there, and the absorbing values stay |
| NmosNode.GroupValueAppend | src/nmos.cc:219-245 | one more member joining is one more group_update_value step |
| NmosNode.MemberFoldAppend | src/nmos.cc:219-245 | folding two runs of members one after the other is folding their concatenation |
| NmosNode.GroupValueSentinel | src/nmos.cc:223-229 | reaching ground makes the value ground; reaching power makes it power unless it is already ground |
| NmosNode.FirstFlagged | src/nmos.cc:195-216 | the index of the first member with a drive or a stored high; every member before it has none |
| NmosNode.MemberFoldFromNothing | src/nmos.cc:195-216 | from nothing, the first member with a drive or a stored high decides: pulled down, the value is pulldown; pulled up, it is pulldown if a later member is pulled down, else pullup; undriven with a stored high, it is high and no later drive changes it; with no such member, nothing |
| NmosNode.StoredHighMasksPulldown | src/nmos.cc:195-216 | a floating member holding high, reached before a pulled-down member, makes the group high; in the other order the group is pulled down |
| ChangeOrder.Insert | src/nmos.cc:451-457 | inserting into an ascending sequence keeps it ascending and adds exactly the new element to the multiset |
| ChangeOrder.Sorted | src/nmos.cc:460-468 | the collected ids in pop order: ascending, and a permutation of the ids pushed |
| ChangeOrder.AscendingUnique | src/nmos.cc:460-468 | two ascending sequences with the same elements are equal, so the pop order depends only on what was pushed |
| ChangeOrder.ArgMin | src/nmos.cc:460-468 | the index of a least element, which std::pop_heap with std::greater brings out |
| ChangeOrder.SortedHead | src/nmos.cc:460-468 | taking a least element first and sorting the rest gives the sorted sequence |
| ChangeOrder.SortedArgMin | src/nmos.cc:460-468 | one heap pop is the head of the sorted order, and the rest is the sorted remainder |
| ChangeOrder.RemoveAt | src/nmos.cc:460-468 | removing index k keeps the other elements in order, and the multiset loses exactly that element |
| Bits.ShiftInIsFromBits | src/nmos.cc:399-408 | the loop `value = (value << 1) + bit` in a 32-bit unsigned is the binary number of the levels modulo 2^32, and exactly that number for up to 32 ids |
| Bits.FromBitsBit | src/nmos.cc:399-408 | bit \|ids\|-1-i of the value read is the level of ids[i]: the first id is the most significant |
| Bits.FromBitsOf | src/nmos.cc:410-421 | the bits write_nodes takes off a value, read back, are the value modulo 2^\|ids\| |
| Bits.BitAboveWidth | src/nmos.cc:399-408 | a value below 2^w has no bit set from w on |
| Bits.FromBitsAppend | src/nmos.cc:399-408 | reading two id lists one after the other is the first value shifted past the second |
| NmosSpec.Push | src/nmos.cc:165-178 | the reference definition of changed_push: a node already in_changelist is left alone; otherwise it is marked and its id goes in at the feeding end, and the push that fills the ring leaves it reading empty; the state stays well shaped and no on-bit changes |
| NmosSpec.PushAll | src/nmos.cc:165-178 | changed_push of each id of a list, first to last; the state stays well shaped and no on-bit changes (partners: PushAllFrame, PushAllIdle, PushAllSnoc) |
| NmosSpec.SetNode | src/nmos.cc:379-397 | the reference definition of set_node: ids 0 and past node_count are ignored; a change of the pullup flag sets the requested drive and pushes the node; the state stays well shaped (partners: SetNodeDrive, SetNodeIdle) |
| NmosSpec.WriteNodes | src/nmos.cc:410-421 | the reference definition of write_nodes: set_node on the last id with bit 0 of the value, then on the one before it with bit 1, and so on; the state stays well shaped (partners: WriteNodesFrame, WriteNodesPullup) |
| NmosSpec.SetNodeDrive | src/nmos.cc:379-397 | set_node is a drive request: the pullup flag becomes the requested level; the opposite pulldown is set when the drive changes; nothing changes when the drive is already there; a node whose drive changes is marked in_changelist, the queue gains its id when it was unmarked and stays as it was when it was already marked; its in_group mark and the level stay; no other node changes |
| NmosSpec.SetNodeOutOfRange | src/nmos.cc:382 | id 0 and ids past node_count change nothing |
| NmosSpec.SetOwnLevelQueues | src/nmos.cc:379-397 | setting a node to its own level can queue it: a node held high by its group without a pullup is queued by set(id, get(id)) |
| NmosSpec.WriteNodesFrame | src/nmos.cc:410-421 | write_nodes changes the drive of no node outside the list it is given |
| NmosSpec.WriteNodesPullup | src/nmos.cc:410-421 | for a list without repeats, the real node at ids[i] ends up driven by bit \|ids\|-1-i of the value |
| NmosSpec.Visit | src/nmos.cc:219-245 | the flood fill of group_add collects distinct ordinary nodes not seen before; an unseen ordinary start node joins first, and a sentinel or an already-seen node adds no member |
| NmosSpec.AbsorbThen | src/nmos.cc:219-245 | a fill split in two parts gives the same group value as the two parts applied in turn |
| NmosSpec.FillStep | src/nmos.cc:219-245 | two consecutive fill steps compose, both in flag words and in group value |
| NmosSpec.MarkedIff | src/nmos.cc:229-231 | the in_group marks are exactly membership in the group buffer |
| NmosSpec.FilledThen | src/nmos.cc:219-245 | two fill steps in a row are one fill step |
| NmosSpec.SiblingStep | src/nmos.cc:236-243 | one pass of the sibling loop: the fill so far, then sibling word i, then the rest |
| NmosSpec.SiblingPass | src/nmos.cc:236-243 | one pass of the sibling loop composes the fill so far with the fill through sibling word i, and the loop has then covered words 0 .. i |
| NmosSpec.CommitStep | src/nmos.cc:460-468 | popping a least id and pushing it is the first step of pushing the sorted ids |
| NmosSpec.Flip | src/nmos.cc:483-514 | the reference definition of the flip branch of recalc_node: the member's level is inverted, both on-bits of each transistor it gates toggle, and the terminals picked by the group level are pushed smallest first; the state stays well shaped (partner: FlipSteady) |
| NmosSpec.Process | src/nmos.cc:479-515 | one pass of the member loop of recalc_node on a popped member: its in_group mark cleared, then Flip if its level differs from the group's; the state stays well shaped (partner: ProcessSteady) |
| NmosSpec.Propagate | src/nmos.cc:479-515 | the member loop over a whole group, the member that joined last first; the state stays well shaped (partners: PropagateLast, PropagateIdle) |
| NmosSpec.Recalc | src/nmos.cc:470-518 | the reference definition of recalc_node: nothing unless the node is in_changelist; otherwise the mark is cleared, the group formed and every member brought to the group level; the state stays well shaped (partners: RecalcPending, RecalcIdle) |
| NmosSpec.Run | src/nmos.cc:520-526 | recalc_nodes with at most fuel ids taken off the queue: pop the head, recalc it, repeat until the queue is empty; the state stays well shaped (partners: RunStep, RunIdle) |
| NmosSpec.RecalcPending | src/nmos.cc:474-478 | Recalc of a queued node is Propagate over the group formed from it, at the group's level |
| NmosSpec.PropagateLast | src/nmos.cc:479-517 | the member loop handles the member that joined last first |
| NmosSpec.RunStep | src/nmos.cc:520-526 | one pass of the drain loop pops the head and recalculates it |
| NmosSpec.Range | src/nmos.cc:529-535 | the ids 1 .. node_count in increasing order, as stabilize_network pushes them |
| NmosSpec.SetNodeIdle | src/nmos.cc:379-397 | set_node keeps the invariant between calls; in particular pullup and pulldown are never both set |
| NmosSpec.PushAllIdle | src/nmos.cc:165-178 | pushing ids keeps the invariant between calls |
| NmosSpec.FlipSteady | src/nmos.cc:481-514 | flipping an ordinary member keeps the invariant: every on-bit equals its gate's level, except for the legs power gates, which stay off; the in_group marks do not change |
| NmosSpec.ProcessSteady | src/nmos.cc:479-517 | one pass of the member loop keeps the invariant and clears the mark of that member only |
| NmosSpec.PropagateIdle | src/nmos.cc:479-517 | popping a whole group whose marks are exactly its distinct members leaves no in_group mark behind |
| NmosSpec.FormSteady | src/nmos.cc:254-260 | forming a group from an idle state marks exactly its members and keeps the invariant |
| NmosSpec.RecalcIdle | src/nmos.cc:470-518 | recalc_node keeps the invariant between calls |
| NmosSpec.RunIdle | src/nmos.cc:520-526 | the drain loop keeps the invariant between calls |
| NmosSpec.GateRangesDisjoint | src/nmos.cc:316-331 | the gate ranges of two different nodes do not overlap |
| NmosSpec.InitialIdle | src/nmos.cc:423-436 | a freshly built network satisfies the invariant: every pullup as described, and power the only high node |
| Nmos.RingPush | src/nmos.cc:165-178 | writing the slot at feeding and advancing it appends the id to the live ring, or empties it when feeding meets eating |
| Nmos.RingPop | src/nmos.cc:152-163 | the slot at eating is the head of the live ring, and advancing eating drops it |
| Nmos.Engine.constructor | src/nmos.cc:423-436 | the initial state: each node's pullup as described, power the only high node, every leg off, nothing queued; transistor_count kept modulo 2^16 |
| Nmos.Engine.ChangedPush | src/nmos.cc:165-178 | the state becomes Push of the old state: a queued node is left alone, otherwise it is marked and its id appended, and a push that fills the ring empties it |
| Nmos.Engine.ChangedPop | src/nmos.cc:152-163 | returns the head of the queue and removes it; nothing else changes |
| Nmos.Engine.ChangedIsEmpty | src/nmos.cc:180-184 | true exactly when no id is queued |
| Nmos.Engine.ChangedClear | src/nmos.cc:186-190 | every queued id is dropped; the marks stay |
| Nmos.Engine.NodeCount | src/nmos.cc:438-442 | node_count of the description |
| Nmos.Engine.TransistorCount | src/nmos.cc:444-448 | the stored transistor count |
| Nmos.Engine.GetNode | src/nmos.cc:368-377 | the stored level of a real node; false for id 0 and ids past node_count |
| Nmos.Engine.SetNode | src/nmos.cc:379-397 | the state becomes NmosSpec.SetNode of the old state; the invariant between calls holds |
| Nmos.Engine.ReadNodes | src/nmos.cc:399-408 | the levels shifted into a 32-bit unsigned: below 2^32; for up to 32 ids, bit \|ids\|-1-i is the level of ids[i] |
| Nmos.Engine.WriteNodes | src/nmos.cc:410-421 | for a 32-bit value, the state becomes NmosSpec.WriteNodes: the last id gets bit 0 of the value, the one before it bit 1, and so on |
| Nmos.Engine.GroupAdd | src/nmos.cc:218-245 | the members the fill from id finds join the group buffer with in_group set and in_changelist cleared, and the group value absorbs them |
| Nmos.Engine.GroupAddSibling | src/nmos.cc:238-243 | sibling word i of id adds the fill from the node at its far end when its transistor is on, and nothing when it is off |
| Nmos.Engine.FollowSibling | src/nmos.cc:239-241 | an on sibling word adds the fill from the node at its far end |
| Nmos.Engine.GroupSetup | src/nmos.cc:254-260 | an empty group valued nothing, then the whole fill from id |
| Nmos.Engine.IsGroupEmpty | src/nmos.cc:278-282 | true exactly when the group buffer is empty |
| Nmos.Engine.GroupPop | src/nmos.cc:284-291 | the last member leaves the buffer and loses its in_group mark |
| Nmos.Engine.AddOrderedChange | src/nmos.cc:450-457 | the id joins the collected changes |
| Nmos.Engine.CommitOrderedChanges | src/nmos.cc:459-468 | the collected ids are pushed smallest first, and none remain |
| Nmos.Engine.FlipMember | src/nmos.cc:484-514 | the state becomes Flip of the old state |
| Nmos.Engine.RecalcNode | src/nmos.cc:470-518 | the state becomes NmosSpec.Recalc of the old state, and the invariant between calls holds |
| Nmos.Engine.RecalcNodes | src/nmos.cc:520-526 | the state becomes Run of the old state; the result tells whether the queue was drained |
| Nmos.Engine.Recalc | src/nmos.cc:537-541 | the drain loop alone |
| Nmos.Engine.StabilizeNetwork | src/nmos.cc:528-535 | ids 1 .. node_count pushed in increasing order, then the drain |
| NmosSpec.PushAllStep | src/nmos.cc:532-534 | pushing id i after ids 1 .. i-1 is pushing ids 1 .. i, and the network stays idle |
| NmosBuild.SameTransistorEquivalence | src/nmos.cc:122-128 | operator== (same gate, same terminals in either order) is reflexive, symmetric and transitive |
| NmosBuild.ConstructedStep | src/nmos.cc:293-314 | processing one more transistor links it exactly when it equals none before it |
| NmosBuild.CreateConstructNodes | src/nmos.cc:130-141 | node 0 is a dummy without pullup; node i+1 carries pullup i; no gates or connectors yet |
| NmosBuild.SetupTransistors | src/nmos.cc:293-314 | out_of_range when an id of some transistor is past node_count; otherwise every first occurrence is linked to its gate and both terminals |
| NmosBuild.SetupStep | src/nmos.cc:293-314 | one pass of the setup loop leaves the construct nodes of the transistors processed so far |
| NmosBuild.StartsMono | src/nmos.cc:316-331 | node offsets grow with the node id |
| NmosBuild.LegId | src/nmos.cc:335-340 | a terminal id stored as c << 1 in 16 bits comes back below 0x8000, and unchanged when it was below 0x8000 |
| NmosBuild.WideIdLost | src/nmos.cc:335-340 | a terminal id 0x8000 is lost in its leg word, and lookup_leg then throws logic_error |
| NmosBuild.LegsAt | src/nmos.cc:332-341 | gate i of node m owns leg words 2(Starts(m)+i) and 2(Starts(m)+i)+1, which name its c1 and c2 as stored in 16 bits |
| NmosBuild.FindLegAt | src/nmos.cc:88-105 | lookup_leg stops at the first matching transistor: the word of the far side of the terminal looked up |
| NmosBuild.LookupLeg | src/nmos.cc:88-105 | the loop returns what FindLeg describes, including the logic_error when nothing matches |
| NmosBuild.CreateNodes | src/nmos.cc:316-354 | the three loops of create_nodes compute Layout: gate offsets, leg words, connector words |
| NmosBuild.GatesDistinct | src/nmos.cc:305-311 | no two gates of a node are the same transistor |
| NmosBuild.GateFound | src/nmos.cc:305-311 | a linked transistor is among the gates of its gate node |
| NmosBuild.ConnectorFound | src/nmos.cc:342-351 | every connector lookup lands, within its gate node's range, on the transistor it came from, pointing at the far terminal |
| NmosBuild.ConstructedConnects | src/nmos.cc:342-351 | for a well-formed description no connector lookup throws |
| NmosBuild.LeadsOther | src/nmos.cc:342-351 | a connector word names the far terminal of its transistor |
| NmosBuild.LayoutOk | src/nmos.cc:316-354 | create_nodes succeeds on a well-formed description, and the network it lays out is well formed |
| NmosBuild.LayoutWired | src/nmos.cc:293-354 | that network is wired as the description says: each gate range holds the transistors the node gates, and each connector leads through its transistor to the other terminal |
| NmosBuild.AcceptableFits | src/nmos.cc:299-304 | an acceptable description is well formed exactly when every id passes the range check |
| NmosBuild.Construct | src/nmos.cc:423-436 | the constructor fails with out_of_range exactly when an id is past node_count; otherwise the engine is wired as described, starts in the initial state and keeps the invariant |
| Mos65xx.PinCount | src/mos65xx.cc:212-215 | 28 pins for the 6503, 6504 and 6505, 40 for the others |
| Mos65xx.AddressBusWidth | src/mos65xx.cc:222-225 | 16 address lines for the 6502 and the 6510 family, 12 for the 6504, 11 for the 6503 and 6505 |
| Mos65xx.Role | src/mos65xx.cc:431-455 | pins 0 and past pin_count are nothing; on the 6510 family the AEC id and the eight port ids are told apart; every other pin is its node |
| Mos65xx.SetPortBit | src/mos65xx.cc:443-448 | `ports \|= 1 << i` or `ports &= ~(1 << i)`: bit i takes the value, the others stay |
| Mos65xx.PortByte | src/mos65xx.cc:392-407 | a port register driven on the bus keeps its bits in place |
| Mos65xx.ByteToPort | src/mos65xx.cc:398-399 | the data bus byte loaded into iodirs keeps its bits in place |
| Mos65xx.Chip.ReadByte | src/mos65xx.cc:100-107 | an 8-node register: below 256, and bit 7-i is the level of the i-th id |
| Mos65xx.Chip.A | src/mos65xx.cc:100-107 | bit i is the level of node Ai |
| Mos65xx.Chip.X | src/mos65xx.cc:109-116 | bit i is the level of node Xi |
| Mos65xx.Chip.Y | src/mos65xx.cc:118-125 | bit i is the level of node Yi |
| Mos65xx.Chip.S | src/mos65xx.cc:127-134 | bit i is the level of node Si |
| Mos65xx.Chip.P | src/mos65xx.cc:136-143 | bit 5 reads node 0 and so is always clear; the other bits are the flag nodes |
| Mos65xx.Chip.PCH | src/mos65xx.cc:145-152 | bit i is the level of node PCHi |
| Mos65xx.Chip.PCL | src/mos65xx.cc:154-161 | bit i is the level of node PCLi |
| Mos65xx.Chip.PC | src/mos65xx.cc:163-166 | below 2^16, with PCH as its high byte and PCL as its low byte |
| Mos65xx.Chip.IR | src/mos65xx.cc:168-175 | bit i is the level of the i-th NOTIR node |
| Mos65xx.Chip.ReadDataBus | src/mos65xx.cc:84-87 | bit i is the level of node DBi |
| Mos65xx.Chip.ReadAddressBus | src/mos65xx.cc:94-98 | only the lowest address_bus_width lines are read: bit k is ABk, and nothing above the width is set |
| Mos65xx.Chip.WriteDataBus | src/mos65xx.cc:89-92 | write_nodes over DB7 .. DB0; with distinct data lines, DBi is driven by bit i of the byte |
| Mos65xx.Chip.PinWrite | src/mos65xx.cc:431-455 | out-of-range pins are ignored; AEC sets is_aec_high; port pin i follows the value only while iodirs bit i is clear; other pins drive their node; iodirs never changes |
| Mos65xx.Chip.PinRead | src/mos65xx.cc:457-483 | false out of range; AEC reads is_aec_high; port pin i reads ioports bit i while iodirs bit i is set, and false otherwise; other pins read their node |
| Mos65xx.Chip.PortHook | src/mos65xx.cc:392-407 | at address 0, a read cycle loads iodirs from the data bus and a write cycle drives iodirs onto it; at address 1 ioports is driven; otherwise nothing changes |
| Mos65xx.PortWrite | src/mos65xx.cc:440-450 | a port pin write leaves ioports alone while the direction bit is set, and otherwise sets bit i only |
| Mos65xx.PortRead | src/mos65xx.cc:466-475 | a port pin reads set exactly when both its direction bit and its port bit are set |
| Mos65xx.PortWriteUnobservable | src/mos65xx.cc:431-483 | a value written to a port pin from outside is never read back through any port pin |
| Mos65xx.PortWriteRestores | src/mos65xx.cc:440-450 | while the direction bit is clear, writing a level and then the old one restores ioports |
| MemoryMap.Range.RAM | testbench/memory.cc:21-24 | general_RAM holds size zero bytes at its start |
| MemoryMap.Range.ROM | testbench/memory.cc:62-68 | general_ROM holds the first size bytes of its image |
| MemoryMap.Range.RegisterBlock | testbench/commodore.cc:48-51 | the kernel register block starts all zero |
| MemoryMap.Range.ContainsExactly | testbench/memory.cc:36-83 | a range contains exactly [start, start + size); a ROM whose end reaches 2^32 wraps and contains nothing |
| MemoryMap.Range.ReadAt | testbench/memory.cc:41-88 | the byte at offset address - start |
| MemoryMap.Range.WriteAt | testbench/memory.cc:46-92 | RAM and the register block store the byte at its offset; a ROM write changes nothing |
| MemoryMap.Memory.AddRange | testbench/memory.cc:98-101 | the range goes last, so every address an earlier range held still hits that range |
| MemoryMap.Memory.AddRam | testbench/memory.cc:103-109 | a fresh zeroed RAM goes last |
| MemoryMap.Memory.AddRom | testbench/memory.cc:111-119 | a fresh ROM over the image goes last |
| MemoryMap.Memory.Hit | testbench/memory.cc:121-129 | the first visible range containing the address, or none; no earlier range contains it |
| MemoryMap.Memory.Value | testbench/memory.cc:121-129 | the first hit's byte at the address, or 0 when no range holds it |
| MemoryMap.Memory.Read | testbench/memory.cc:121-129 | the search loop returns Value of the address |
| MemoryMap.Memory.Find | testbench/memory.cc:133-134 | the search loop of write finds the first hit |
| MemoryMap.Memory.Write | testbench/memory.cc:131-141 | the byte reads back exactly when the first hit is writable; otherwise the address keeps its byte; every other address keeps its value; the first hit stores the byte at its offset only if writable, and no other range changes |
| MemoryMap.HitAt | testbench/memory.cc:123-127 | the first index holding the address is the hit |
| MemoryMap.HitPrefix | testbench/memory.cc:98-101 | appending ranges never changes a hit among the earlier ones |
| MemoryMap.RomShadowsRam | testbench/memory.cc:131-141 | a ROM registered before a RAM discards the write to an address both cover, and its own byte is read back |
| MemoryMap.RamReadsBack | testbench/memory.cc:21-49 | a RAM address outside the ROMs reads 0 at first and reads back what was written |
| Commodore.SyscallSlots | testbench/commodore.cc:114-119 | the syscall addresses are exactly $FF81 + 3k for k < 39; CHRIN and CHROUT are among them, nothing from $FFF4 on is |
| Commodore.HandleChrin | testbench/commodore.cc:80-95 | with io empty: one input character goes into io (none at the end of the input) and no clearing is asked; with io full: clearing is asked exactly when ack is set |
| Commodore.HandleChrout | testbench/commodore.cc:103-112 | a full io is written out and clearing asked; an empty one does nothing |
| Commodore.Cleared | testbench/commodore.cc:147-151 | select, io and ack become 0; every other register stays |
| Commodore.Cycle | testbench/commodore.cc:121-152 | the reference definition of on_CPU_cycle: dispatch on select to handle_chrin, handle_chrout, NOT_IMPL (clear) or nothing, then zero the handshake if asked; the register block keeps its size (partners: ChrinEmptyIo, ChrinFullIo, Chrout, OtherSelect, CycleIo) |
| Commodore.ChrinEmptyIo | testbench/commodore.cc:133-135 | a CHRIN cycle with io empty consumes one input character into io and clears nothing |
| Commodore.ChrinFullIo | testbench/commodore.cc:133-135 | a CHRIN cycle with io full clears the handshake exactly when ack is set |
| Commodore.Chrout | testbench/commodore.cc:136-138 | a CHROUT cycle emits io and clears when io is full, and does nothing otherwise |
| Commodore.OtherSelect | testbench/commodore.cc:139-151 | SELECT_NOT_IMPL clears the handshake; any other select value changes nothing |
| Commodore.CycleIo | testbench/commodore.cc:121-152 | a cycle reads at most one input character or writes at most one output character, never both, and keeps what was written |
| Commodore.ClearedIsIdle | testbench/commodore.cc:121-152 | after the handshake is cleared, and since no request code is 0, cycles change nothing until a new request |
| Commodore.Machine.constructor | testbench/commodore.cc:63-78 | the kernel ROM goes at 0x10000 minus its length, then a fresh zeroed register block |
| Commodore.Machine.RegistersMapped | testbench/commodore.cc:17-52 | the CPU reads the register block through the memory map wherever the kernel ROM does not cover it |
| Commodore.Machine.OnCpuCycle | testbench/commodore.cc:121-152 | the registers and I/O become Cycle of the old ones |
| Commodore.Machine.Chrin | testbench/commodore.cc:80-95 | handle_chrin on the registers and the input is HandleChrin |
| Commodore.Machine.Chrout | testbench/commodore.cc:103-112 | handle_chrout on the registers and the output is HandleChrout |

## Behaviour of the code worth knowing

- **Group value.** `group_update_value` is not a priority order of pulldown over pullup
  over a stored high. Its fall-through switch makes a stored high absorbing: a floating
  member holding high that is reached first makes the group high, even when a later member
  is pulled down (`NmosNode.StoredHighMasksPulldown`).
- **set(id, get(id)).** This can queue a node: one that is high through its group but has
  no pullup gets its pullup set and is pushed (`NmosSpec.SetOwnLevelQueues`).
- **Sentinels.** set_node does not exempt power and ground; they are queued and driven like any other node.
- **Undriven nodes.** set(false) on a node without a pullup changes nothing: the code only
  touches a node whose pullup flag differs from the requested level.

## Left out

- The packed `uint16_t` node layout is not modelled. Flags are records, leg words are a
  terminal table plus an array of on-bits, and offsets are transistor numbers. So the
  `assert` in create_nodes that the buffer stays under 2^16 words is not modelled either.
- The heap layout of `change_order` is not modelled, only its smallest-first release order.
- The sizes of `current_group` (node_count*32) and `change_order` (node_count) are not
  modelled: the model's group and change lists are unbounded sequences.
- The ring overflow of `changed_queue` is modelled: a push that fills the ring empties it.
- Nmos.Engine.RecalcNodes: the drain loop takes a fuel bound and reports whether the queue
  ran empty. Termination of propagation, which the source assumes, is not proved.
- Nmos.Engine.Recalc: takes the same fuel and can return with ids still queued. The
  source's recalc returns only once the queue is empty.
- Nmos.Engine.StabilizeNetwork: takes the same fuel and can return with ids still queued.
  The source's stabilize_network returns only once the queue is empty.
- NmosBuild.Construct requires:
  - fewer than 0x8000 nodes, because a terminal id is stored as `c << 1` in 16 bits and
    larger ids are lost (`NmosBuild.WideIdLost`);
  - no transistor naming node 0, whose offset aliases node 1;
  - power and ground to be real nodes.
- Nmos.Engine.StabilizeNetwork requires node_count below 65535, because its loop counter is
  a `uint16_t` and would never exceed 65535.
- The NODE constants, pullup tables and transistor tables of the 6502 netlist
  (`mos6502.inc`) are not part of this model. A `Netlist` value names the node ids instead.
- The virtual class hierarchy of the chip variants is one `Chip` class that dispatches on its variant.
- `port_hoook` is modelled, but nothing in the source calls it.
- `cbm_tiny_kernel.h` is not part of this model. The register addresses and request codes are a `KernelLayout` parameter.
- The kernel ROM image is not part of this model either.
- File I/O is replaced by byte sequences, with the end of the input standing for EOF. The
  trace output and `fflush` are not modelled.
- The register pointers the commodore constructor hands to its subclasses (memory top,
  BASIC entry, screen size) are not modelled. They are only offsets into the register block.
