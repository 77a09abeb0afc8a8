# A verified model of the boot-time logic of fusee

Six parts of the repository are modelled, each with its own theorems over all inputs or all
runs. Code that updates memory or fields in place is a class or a method over an array; the
values it works on are described by functions, and the laws are lemmas about those functions.

- **Heap** (`HeapBlocks`, `HeapMemory`, `HeapRuns`, `HeapContents`, `Heap`): the allocator of
  `bdk/mem/heap.c`. Memory is an array of 32-byte granules that hold headers or payload alike.
  Every method is proved to carry out the block-list function of its operation. What allocates
  and frees writes headers only, and `calloc` clears its own block besides. The class carries the
  history of its calls and what the owner of each live pointer has in its payload; its invariant
  ties both to memory over every run. `Heap.Heap.Store` stands for what an owner writes there.
- **SMMU** (`SmmuCodec`, `SmmuTables`, `SmmuMaps`, `Smmu`): the page heap and the two-level tables of
  `bdk/mem/smmu.c`, proved to refine, for each directory, the identity overridden by the calls
  of `smmu_map` made on it.
- **LP0** (`LpParams`, `LpPack`, `LpTable`, `LpLayout`, `LpSaved`, `LpReads`, `LpFields`): the packing
  macros of `bdk/mem/sdram_lp0.c`, and all 966 T210 statements as a table, with the proof that every
  packed field can be read back, that no parameter is forgotten, and what the registers hold for
  each memory type, field by field.
- **Joy-Con** (`JoyconCrc` over `Bits` and `Gf2`, `JoyconState`, `Joycon`, `JoyconReports`): the CRC as
  polynomial division, the report, connection and rumble state of both sides under any order of
  events, and which received bytes reach which part of the report.
- **Loader** (`Loader`): the relocation in `loader/loader.c`, including overlap.
- **Warmboot** (`Warmboot`): the Mariko warmboot cache of `fusee_setup_horizon.cpp`.

`dafny verify dfyconfig.toml` checks the project.

Conventions. Addresses and 32-bit words are natural numbers below 2^32; where the code can wrap
(the size alignment and `num * size` in the heap, addresses in `smmu_map`, the packet counter)
the wrap is written out. What the hardware or the file system answers (lines, received bytes,
the time, failing calls) is an argument of the operation. Preconditions state what the code
demands without checking it: memory left for the heap and the page heap, a live pointer or one
below the heap for `free`, a heap with at least one block for `heap_monitor`, and word-aligned
payloads.

Where code and expectation differ, the model follows the code:

- `malloc` covers its request if and only if the request is at most 0xFFFFFFE0; above that the
  alignment wraps to zero and a block smaller than the request is handed out. The same holds of
  the 32-bit product in `calloc`.
- Freeing what was just allocated restores the block list if and only if a free block served the
  request; a heap that had to grow keeps the grown span.
- A copy from the top down is right for all memory contents if and only if the destination does
  not start below the source and reach into it.
- Reports on a rail leave a half of the buttons alone if and only if the type of the pad there
  does not fill that half; the driver files reports by type, not by rail.
- A boot leaves every existing warmboot file as it is, unless looking up its own file fails
  although it is there, the file opens, and what the write leaves, complete or failed, differs
  from what was there.
- A warmboot file created by a boot whose write was complete holds the boot's image if and only if
  it was created no longer than the image; otherwise it holds what the failed call left.
  What a failed write has left is never repaired, and is booted by an older firmware as long as
  its size is plausible.

## Model

| member | source | states |
|---|---|---|
| HeapBlocks.AlignCovers | bdk/mem/heap.c:33-34 | the aligned 32-bit size covers the request exactly when it is at most 0xFFFFFFE0, with less than 32 bytes of padding |
| HeapBlocks.Ordered | bdk/mem/heap.h:23-30 | in a tiled list every earlier block ends before any later one starts: no cycle and no shared byte |
| HeapBlocks.Aligned | bdk/mem/heap.c:33-34 | every header, and every block end, is at a multiple of 32 bytes from the heap base |
| HeapBlocks.FirstFit | bdk/mem/heap.c:48-87 | the index found is that of the first free block that fits, or the length when none does |
| HeapBlocks.PlaceWellFormed | bdk/mem/heap.c:52-80 | serving from a free block, split or whole, keeps the tiling, the end of the heap, and the absence of adjacent free blocks |
| HeapBlocks.BoundedWaste | bdk/mem/heap.c:48-97 | the block handed out stands where the lowest free one that fits was, and wastes less than 128 bytes; without one the list grows by a block of just the request behind its end |
| HeapBlocks.SplitsFrom128 | bdk/mem/heap.c:56-79 | the serving block is split if and only if it has 128 bytes more than the request; what is left, less a header of 32 bytes, is free |
| HeapBlocks.AllocateUsed | bdk/mem/heap.c:29-98 | an allocation adds exactly the granted block to those in use and changes no other |
| HeapBlocks.CoalesceLaws | bdk/mem/heap.c:104-119 | from any tiled list, the sweep leaves no two adjacent free blocks and keeps the span and every used block with its address, size and order |
| HeapBlocks.Canonical | bdk/mem/heap.c:100-120 | a well-formed list is determined by its start, its end and its used blocks, so the result of a sweep is the only possible one: each maximal free run is one block |
| HeapBlocks.ReleaseLaws | bdk/mem/heap.c:100-120 | a free keeps the list well formed and the span in place, and drops exactly the freed block from the used ones |
| HeapBlocks.FreeDrops | bdk/mem/heap.c:100-120 | in short: a free takes away the block at the address from those in use, changes no other, keeps both ends of the heap and leaves no free neighbours |
| HeapBlocks.AllocateThenRelease | bdk/mem/heap.c:52-80 | malloc then free gives back the exact list if and only if a free block served the request |
| HeapBlocks.AllFree | bdk/mem/heap.c:100-120 | with nothing in use the list is one free block of the span less one header |
| HeapMemory.PayloadHasNoHead | bdk/mem/heap.c:90-95 | no header of the list stands inside the payload of a block |
| HeapMemory.PlaceBySplit | bdk/mem/heap.c:55-77 | the header writes of a split yield the doubly linked split list and touch headers only |
| HeapMemory.SweepSteps | bdk/mem/heap.c:105-119 | one turn of the sweep keeps the list swept so far linked, and the header just read still tells the next block even when it was unlinked |
| HeapMemory.HeadsSparePayload | bdk/mem/heap.c:29-120 | writing headers changes no byte of any used payload |
| HeapMemory.PayloadIsPrivate | bdk/mem/heap.c:139-144 | whatever is written into one block's payload changes neither the list nor another payload |
| HeapRuns.RunSafe | bdk/mem/heap.c:122-150 | over every run from heap_init the list is well formed and its used blocks are exactly the live pointers, each covering its request unless that wraps |
| HeapRuns.LiveDisjoint | bdk/mem/heap.c:122-150 | over every run, live pointers are 32-byte aligned relative to the base and their blocks disjoint |
| HeapRuns.LiveBlockKept | bdk/mem/heap.c:122-150 | a live block keeps its address and size through every operation and goes only when it is freed |
| HeapRuns.AllFreed | bdk/mem/heap.c:146-150 | once every pointer is freed, the heap is one free block over the whole span |
| Heap.Heap.constructor | bdk/mem/heap.c:22-26 | an empty heap with an empty history, memory untouched |
| Heap.Heap.CallsAreLegal | bdk/mem/heap.c:134-150 | after any history the preconditions of the class methods are exactly what makes the calls legal in a run |
| Heap.Heap.Layout | bdk/mem/heap.h:23-30 | after any history: where header i stands in memory, and its used flag, size, next and prev as fields there |
| Heap.Heap.PayloadInMemory | bdk/mem/heap.c:134-144 | after any history: what a live pointer has is, word by word, the payload of a used block at that pointer |
| Heap.Heap.HeapAlloc | bdk/mem/heap.c:29-98 | the list becomes that of the allocation, the pointer is the granted block's, only headers are written |
| Heap.Heap.Search | bdk/mem/heap.c:48-87 | the walk ends at the first free block that fits, otherwise at the last block |
| Heap.Heap.TakeFree | bdk/mem/heap.c:52-80 | the chosen free block is split or handed out whole, in memory as in the list |
| Heap.Heap.AppendNew | bdk/mem/heap.c:89-97 | the exact list and pointer when the heap grows |
| Heap.Heap.HeapFree | bdk/mem/heap.c:100-120 | the list becomes the released one; only headers of the old list are written |
| Heap.Heap.Sweep | bdk/mem/heap.c:104-119 | the loop ends, with memory holding the fully coalesced list |
| Heap.Heap.Malloc | bdk/mem/heap.c:134-137 | the history grows by this call and the blocks are those it leads to; the pointer is new and has at least the request unless that wraps, and what every other live pointer has is untouched |
| Heap.Heap.Calloc | bdk/mem/heap.c:139-144 | the same for the 32-bit product, and the new payload starts with the whole aligned request in zeros |
| Heap.Heap.Free | bdk/mem/heap.c:146-150 | a pointer below the heap does nothing; a live one leaves the books and nothing that the others have changes |
| Heap.Heap.HeapMonitor | bdk/mem/heap.c:152-177 | total is the span, used is the sum of used blocks with their headers |
| HeapContents.BookedAllocated | bdk/mem/heap.c:134-144 | whatever keeps used payloads and serves a request leads one step on in the run, with a pointer that was not live and all other contents kept |
| HeapContents.BookedFreed | bdk/mem/heap.c:146-150 | whatever keeps used payloads and releases a live block leads one step on in the run, all other contents kept |
| SmmuCodec.VacantPde | bdk/mem/smmu.h:53-64 | a vacant directory word decodes to the identity section and asks for no table |
| SmmuCodec.TablePde | bdk/mem/smmu.h:53-68 | the directory word of a table leads back to its page and equals no vacant word |
| SmmuCodec.DecodeIs | bdk/mem/smmu.h:53-68 | a word is its 20-bit frame number and the attributes above it |
| SmmuCodec.WalkReads | bdk/mem/smmu.c:126-145 | the walk over the words of memory: bit 28 of the directory word tells a table from a section, which index is used where |
| SmmuTables.InstallTable | bdk/mem/smmu.c:132-142 | replacing a vacant section by its filled table changes no translation of any directory |
| SmmuTables.WriteEntry | bdk/mem/smmu.c:151-152 | writing a table word changes exactly one translation of one directory |
| SmmuTables.AddOthers | bdk/mem/smmu.c:48-54 | pages handed to others change no translation |
| SmmuTables.WriteToOther | bdk/sec/tsec.c:153-194 | what others write into such pages changes no translation either |
| SmmuTables.TablesApart | bdk/mem/smmu.c:126-145 | no page is the table of two slots or both a table and a directory |
| SmmuMaps.MapsCommute | bdk/mem/smmu.c:147-157 | of two maps in either order, however their tables are placed, every page of every directory translates the same if and only if the maps agree wherever both cover it, in particular when disjoint |
| SmmuMaps.TranslateIs | bdk/mem/smmu.c:147-157 | an address that no call covers translates to itself; any other one by the word that the last call that covers it wrote for its page, whatever calls came after |
| SmmuMaps.PlainAttributes | bdk/mem/smmu.c:151-154 | with attributes above the frame number that is the same offset from the physical start, in 32-bit arithmetic, and just these attributes |
| SmmuMaps.OneMore | bdk/mem/smmu.c:149-155 | one more page of a call overrides that page and agrees with what the call has mapped before, also where its range comes around to itself |
| SmmuMaps.RefinesSnoc | bdk/mem/smmu.c:147-157 | what one more call means: page number n of its directory is decided by the call exactly if n lies less than cnt pages, modulo 2^20, behind the start; all other pages and directories stay |
| SmmuMaps.FreshCounts | bdk/mem/smmu.c:132-142 | the pages that a call takes are as many as the vacant 4 MB slots that its range touches |
| SmmuMaps.PagesNeeded | bdk/mem/smmu.c:147-157 | a map of cnt pages takes at most (cnt + 1022) / 1024 + 1 new ones, and never more than 1024 |
| Smmu.Smmu.constructor | bdk/mem/smmu.c:28 | an empty page heap |
| Smmu.Smmu.PageAlloc | bdk/mem/smmu.c:48-54 | the next pages, zeroed, nothing else written, no translation changed |
| Smmu.Smmu.Store | bdk/sec/tsec.c:153-194 | a caller writes into a page it got from page_alloc: every directory translates as before |
| Smmu.Smmu.AllocPdir | bdk/mem/smmu.c:56-62 | a new directory that translates every page to itself, all others as they were |
| Smmu.Smmu.GetPte | bdk/mem/smmu.c:126-145 | the address of the word that decides iova, and that word decodes to the walk; a table installed exactly if the slot was vacant; no translation of any directory changed |
| Smmu.Smmu.TableFor | bdk/mem/smmu.c:130-142 | the table behind a directory slot, with a page taken for it exactly if the slot was vacant |
| Smmu.Smmu.Install | bdk/mem/smmu.c:134-142 | the vacant slot gets a page of its own and no other slot changes state |
| Smmu.Smmu.Map | bdk/mem/smmu.c:147-157 | for all 32-bit addresses, counts and attributes, at the walk: each of the cnt pages is decoded from its own word, all other pages and directories are as they were, and exactly one page is taken per vacant section touched |
| LpPack.PackBit | bdk/mem/sdram_lp0.c:22-26 | each bit of a packed register comes from the source field, or is the old one outside the destination |
| LpPack.WrittenBit | bdk/mem/sdram_lp0.c:28-38 | the same for each of the four macros |
| LpPack.MacroBits | bdk/mem/sdram_lp0.c:28-38 | the four macros one by one: which bit of which source each bit of the register becomes |
| LpPack.FieldIs | bdk/mem/sdram_lp0.c:22-26 | what is read back from bits hi to lo of a word, as a quotient and a remainder by powers of two |
| LpPack.PackInto | bdk/mem/sdram_lp0.c:22-26 | the two in-place updates of the macro change that register alone |
| LpPack.Save | bdk/mem/sdram_lp0.c:22-38 | after any list of steps each bit of each register is that of the last step covering it, or as it was |
| LpPack.Recovered | bdk/mem/sdram_lp0.c:22-38 | a field that no later step meets is read back from its register equal to its source field |
| LpPack.Untouched | bdk/mem/sdram_lp0.c:22-38 | an uncovered bit keeps its value |
| LpSaved.TableKept | bdk/mem/sdram_lp0.c:144-1126 | for every memory type all fields have matching widths and none is overwritten by a later one; only the five clearing writes are |
| LpSaved.TableRecovered | bdk/mem/sdram_lp0.c:144-1126 | for every memory type, parameter set and old register contents, each packed field is read back unchanged |
| LpSaved.Statements | bdk/mem/sdram_lp0.c:144-1126 | the statements of the saving function, in a form that can be carried out |
| LpSaved.SaveParams | bdk/mem/sdram_lp0.c:22-38 | such statements carried out on the registers in place: each bit is that of the last statement to cover it, and each packed field is read back unchanged |
| LpSaved.SaveTable | bdk/mem/sdram_lp0.c:144-1126 | the saving function on the registers for a memory type: the same for its own 966 statements |
| LpReads.AllSaved | bdk/mem/sdram_lp0.c:144-1126 | every parameter has a field saved for every memory type, except the 13 LPDDR mode register values, saved for LPDDR2 and LPDDR4 only, and the six of DDR3, saved for DDR3 only |
| LpFields.HoldsIs | bdk/mem/sdram_lp0.c:22-26 | what it means that some bits of a register are some bits of a parameter, as numbers |
| LpFields.LpddrSaved | bdk/mem/sdram_lp0.c:841-887 | for LPDDR2 and LPDDR4, from the registers alone: where each field of the mode register values is found |
| LpFields.Ddr3Saved | bdk/mem/sdram_lp0.c:888-913 | the same for DDR3 |
| LpFields.PllSaved | bdk/mem/sdram_lp0.c:1105-1126 | the same for the PLL settings in the five registers filled last, with the constants 0x3E and 0 |
| LpFields.ClearedAbove | bdk/mem/sdram_lp0.c:1105-1126 | all bits above the fields of these five registers are 0 |
| LpFields.Unwritten | bdk/mem/sdram_lp0.c:841-913 | a memory type without a case leaves all bits of the switch as they were, DDR3 those of LPDDR alone, and every type the registers outside the stretches written |
| JoyconCrc.ComputeCrc | bdk/input/joycon.c:211-225 | the nested loops compute the specified byte for every length |
| JoyconCrc.CrcIsRemainder | bdk/input/joycon.c:211-225 | a value is the crc if and only if it is below 256 and is a remainder of message * x^8 by x^8+x^7+x^3+x^2+1 over GF(2) |
| JoyconCrc.AppendedCrcCancels | bdk/input/joycon.c:211-225 | a message followed by its crc has crc 0 |
| JoyconCrc.CrcLinear | bdk/input/joycon.c:211-225 | the crc of the bytewise exclusive or is the exclusive or of the crcs |
| JoyconCrc.OneByteDetected | bdk/input/joycon.c:211-225 | replacing one byte leaves the crc unchanged if and only if the byte is the same |
| JoyconCrc.BurstDetected | bdk/input/joycon.c:211-225 | two messages that differ within eight successive bits, across bytes too, have the same crc if and only if they do not differ |
| JoyconCrc.GetInfoCrc | bdk/input/joycon.c:93-97 | the crc of this packet is the byte 0x24 that the driver sends |
| JoyconCrc.FinalizeCrc | bdk/input/joycon.c:99-103 | that of this one is 0x3D |
| JoyconState.HalvesDisjoint | bdk/input/joycon.c:64-65 | the left and right button masks share no bit |
| JoyconState.ButtonsFollowReports | bdk/input/joycon.c:358-394 | over any run each half is that of the last report filling it since its last clear, or zero, and bits outside both masks stay zero |
| JoyconState.ButtonsFollowRails | bdk/input/joycon.c:358-394 | with pads on their own rails, each half is that of its rail's last report since its last clear |
| JoyconState.ReportsSpare | bdk/input/joycon.c:369-388 | reports on a rail never change a half if and only if the type of the pad there does not fill that half; for both rails and both halves |
| JoyconState.ConnectionSafety | bdk/input/joycon.c:480-504 | over any run a published connection is a connected context, a served side is connected, and the init rumble goes to a side at most once between two of its detaches |
| JoyconState.PairingSides | bdk/input/joycon.c:395-419 | over any run, pairing data published for the left half is of a type with the left bit, for the right half of one without |
| JoyconState.PairingVoid | bdk/input/joycon.c:778-812 | over any run, pairing data of a side is valid only if some pad has told it since that side was last detached |
| Joycon.Driver.RumbleOncePerAttach | bdk/input/joycon.c:480-504 | counted in the packets actually sent, a side has had its init rumble at most once more often than it was detached |
| Joycon.RumblePerSide | bdk/input/joycon.c:296-332 | each side that wants it gets enable, play and disable in order under three consecutive packet numbers modulo 16, the other side nothing |
| JoyconReports.HalfIs | bdk/input/joycon.c:64-65 | the bit positions of both masks, one by one |
| JoyconReports.TypeIs | bdk/input/joycon.c:67-69 | which bits of a pad's type say left, right and Hori |
| JoyconReports.ReportOfBytes | bdk/input/joycon.c:358-394 | from received bytes to the published report: each button of the half from its bit of bytes 15 to 17, two 12-bit stick coordinates from three bytes, the battery from the high half of byte 14, the connection flags, and nothing else |
| JoyconReports.TypeOfBytes | bdk/input/joycon.c:426-438 | from the bytes of a type reply: the type, the address last byte first, and the side connected; nothing else changes |
| JoyconReports.PairingOfBytes | bdk/input/joycon.c:395-419 | from the bytes of a reply with pairing data: which side's data, its type and addresses, and the key last byte first |
| JoyconReports.OtherBytes | bdk/input/joycon.c:420-455 | every other packet leaves the report alone; those with the command of a report move the time of their rail, the rest change nothing |
| JoyconReports.HandshakeIs | bdk/input/joycon.c:728-743 | the start of a handshake releases the half's buttons and publishes it as unconnected, and does nothing else |
| JoyconReports.DetachedIs | bdk/input/joycon.c:778-812 | everything that a detach changes |
| JoyconReports.StatusRequestIs | bdk/input/joycon.c:506-539 | which sides count as served after a status request, and when the next one is due |
| JoyconReports.RequestWhen | bdk/input/joycon.c:506-519 | when a status request becomes a rumble and when it is due, by type bits, flags and times |
| JoyconReports.PowerOfBytes | bdk/input/joycon.c:347-356 | from received bytes: power is switched on up to battery level 3, and off from 9 on, or from 7 with a low system battery |
| JoyconReports.RumbleOrder | bdk/input/joycon.c:296-332 | the six packets of an init rumble to both sides, in order |
| JoyconReports.HandshakeSends | bdk/input/joycon.c:724-776 | the packets and power switches of a handshake in order, the third packet only to pads that are no Hori |
| JoyconReports.HandshakeHears | bdk/input/joycon.c:749-766 | the receptions of a handshake: two from a pad that is a Hori by then, else three |
| Joycon.Driver.constructor | bdk/input/joycon.c:201-207 | nothing connected, nothing reported |
| Joycon.Driver.ParseWiredHid | bdk/input/joycon.c:347-424 | the published report or pairing data, the time noted, and the power switched by the battery level |
| Joycon.Driver.ParseWiredInit | bdk/input/joycon.c:426-438 | the rail's context after its type reply, with the address taken last byte first |
| Joycon.Driver.RcvPkt | bdk/input/joycon.c:457-478 | a reception is one step on the parsed packet with its power switching, or changes nothing if the rail is empty, nothing is ready, or length or magic is wrong |
| Joycon.Driver.SendInitRumble | bdk/input/joycon.c:480-504 | which packets go out in which order, and which sides count as served |
| Joycon.Driver.ReqNxPadStatus | bdk/input/joycon.c:506-539 | rumble, or a status request of the right kind with the next one put off by 15 ms, or nothing, and in which case |
| Joycon.Driver.InitConn | bdk/input/joycon.c:724-776 | after more than a second of silence by the 32-bit clock: the events and everything sent, in order, with the last packet and the third reception only if the pad is no Hori by then, and the time noted; otherwise nothing |
| Joycon.Driver.ConnCheck | bdk/input/joycon.c:778-812 | the detach events with the pairing voided, the power switched off, and the packet counter reset |
| Loader.CopyDownSafe | loader/loader.c:56-65 | onto a destination at or above the source, or apart from it, the copy equals the old source and nothing else changes |
| Loader.CopyDownExactly | loader/loader.c:56-65 | the copy is right for all memories if and only if the destination is not below the source or does not reach into it |
| Loader.Align4Is | loader/loader.c:56 | the payload size is rounded up to the next multiple of 4 |
| Loader.WordOfBytes | loader/loader.c:56-65 | a 32-bit word is its four bytes, lowest first |
| Loader.CopyWords | loader/loader.c:55-65 | the loop carries out that copy, ending at the relocation top |
| Loader.MovePayload | loader/loader.c:53-68 | the first source address is the highest aligned one that leaves room below 0x40038000; it has every byte of the payload with its padding, and memory outside is untouched |
| Loader.Relocate | loader/loader.c:50-75 | both source addresses have, byte for byte, what their arrays had before the copy |
| Warmboot.NameIs | archive/2100/fusee_setup_horizon.cpp:367-373 | the file name, read back: two hexadecimal digits at 0x19 and 0x1A, high one first, that are the count as a byte, and the rest of the name |
| Warmboot.PathsDistinct | archive/2100/fusee_setup_horizon.cpp:367-373 | two counts share a file name if and only if they are equal as bytes |
| Warmboot.SaveIs | archive/2100/fusee_setup_horizon.cpp:406-429 | when saving succeeds, and what it leaves byte by byte: the image over what the file had |
| Warmboot.UsableIs | archive/2100/fusee_setup_horizon.cpp:438-459 | the conditions of a usable file, with its size from 0x800 to below 0x1000 |
| Warmboot.BootKeeps | archive/2100/fusee_setup_horizon.cpp:406-429 | a boot leaves every existing file as it is, unless it fails to look up its own, opens it, and leaves something else in it, be the write complete or failed; no other path changes |
| Warmboot.FailedWriteSpoils | archive/2100/fusee_setup_horizon.cpp:413-428 | an input on which a boot that ends fatally has changed an existing file |
| Warmboot.RunKeeps | archive/2100/fusee_setup_horizon.cpp:406-429 | over any run of boots whose lookups work, valid images or not, no existing file is modified |
| Warmboot.CreatedHolds | archive/2100/fusee_setup_horizon.cpp:411-429 | a file that a boot creates stays as left for the rest of the run; after a complete write it holds the image if and only if it was created no longer than that |
| Warmboot.CacheServes | archive/2100/fusee_setup_horizon.cpp:411-470 | such a file of plausible size lets any later boot of a too old firmware find a usable file at or below that count |
| Warmboot.SpoiledCacheServes | archive/2100/fusee_setup_horizon.cpp:411-470 | what a failed write left, if plausible in size, is what an older firmware boots from then on |
| Warmboot.Card.LoadWarmbootFirmware | archive/2100/fusee_setup_horizon.cpp:406-473 | an image of invalid size is fatal before any file is touched, a failed save is fatal after; otherwise the least usable count from the burnt one to 32 is chosen, or the boot is fatal if there is none; the copy is cut to the room |
| Warmboot.Card.Search | archive/2100/fusee_setup_horizon.cpp:431-465 | the loop finds the least usable count or that there is none |

## Left out

- Register, clock, GPIO, I2C, UART and timer effects of all modules: straight-line hardware access; the lines and bytes read appear as arguments.
- `heap_copy` and the printing of `heap_monitor`: a plain copy of two words, and output.
- Misuse of the heap (a double free, a foreign pointer, a write past a block, memory running out): the code does not check for it.
- `smmu_init`, `smmu_enable`, `smmu_exit`, `smmu_deinit_for_tsec`, the flushes and the memory-controller writes of `smmu_init_domain4`: hardware; translations are those of the tables in memory, without the TLB.
- How the SMMU combines the attribute bits of a directory entry with those of a table entry: bdk/mem/smmu.c does not say; the model reports those of the entry that decides the frame.
- The changes that the saving function makes to the parameters themselves before packing: the parameters are those after these changes.
- LpReads.AllSaved: says that a field of the parameter is saved, not which; where the fields of the parameters common to all memory types go is the data of the table itself, for which the code gives no second description. That they can be read back unchanged from there is proved.
- The T210B01 packer in bdk/mem/sdram_lp0.c: commented out.
- Joy-Con initialisation and shutdown, the request for pairing information, the regulator behind a switch of power, and the packet headers with their length bytes written after the crc: of no effect on the state modelled.
- Loader: decompression, boot configuration and chain loading.
- Warmboot: parsing of package1, the Erista branch, firmware detection and the fuse-dependent scratch value after the copy. CreateFile is taken to fail when the path exists and otherwise to leave nothing or any file, a complete WriteFile to overlay the content from offset 0, and a failed one to leave anything in its file.
- Update in place on the file system: the files are a map that the class reassigns.
